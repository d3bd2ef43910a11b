/** The results page: what it fetches, what it keeps, and the projection it
    renders from the audit it holds (overall grade and label, the present
    platforms with their signal indicators). */
module AuditResults {
  import opened Common
  import opened SignalBars
  import opened ScoreLadders

  // ----------------------------------------------------------- data model

  datatype PlatformRow = PlatformRow(
    platform: string,
    score: real,
    present: bool,
    resolveCta: Option<string>,
    cookies: seq<string>)

  /** The backend's `result` object. `platforms` is optional because the
      page guards it with `?? []`. */
  datatype ResultJson = ResultJson(
    url: string,
    letterGrade: string,
    overallScore: real,
    recommendedActions: string,
    platforms: Option<seq<PlatformRow>>)

  datatype AuditRecord = AuditRecord(
    id: string,
    url: string,
    email: string,
    status: AuditStatus,
    progress: real,
    result: Option<ResultJson>,
    error: Option<string>)

  // ------------------------------------------------------ platform lookup

  datatype PlatformIcon = FacebookIcon | GoogleIcon | MusicNoteIcon | WorkIcon | HelpOutlineIcon

  datatype PlatformMeta = PlatformMeta(labelText: string, icon: PlatformIcon)

  /** The platforms the page knows how to present. */
  const PlatformTable: map<string, PlatformMeta> := map[
    "Meta" := PlatformMeta("Meta", FacebookIcon),
    "Google Analytics" := PlatformMeta("Google Analytics", GoogleIcon),
    "Google Ads" := PlatformMeta("Google Ads", GoogleIcon),
    "TikTok" := PlatformMeta("TikTok", MusicNoteIcon),
    "LinkedIn" := PlatformMeta("LinkedIn", WorkIcon)]

  /** Table entry for a known platform, otherwise the platform's own name
      with the help icon. */
  function GetPlatformMeta(platform: string): (m: PlatformMeta)
    ensures platform in PlatformTable ==> m == PlatformTable[platform]
    ensures platform !in PlatformTable ==> m.labelText == platform && m.icon == HelpOutlineIcon
  {
    if platform in PlatformTable then PlatformTable[platform]
    else PlatformMeta(platform, HelpOutlineIcon)
  }

  /** The known platforms and their icons; every other name, and only those,
      gets the help icon. */
  lemma KnownPlatforms(platform: string)
    ensures GetPlatformMeta("Meta").icon == FacebookIcon
    ensures GetPlatformMeta("Google Analytics").icon == GoogleIcon
    ensures GetPlatformMeta("Google Ads").icon == GoogleIcon
    ensures GetPlatformMeta("TikTok").icon == MusicNoteIcon
    ensures GetPlatformMeta("LinkedIn").icon == WorkIcon
    ensures GetPlatformMeta(platform).icon == HelpOutlineIcon <==>
      platform !in {"Meta", "Google Analytics", "Google Ads", "TikTok", "LinkedIn"}
  {
  }

  /** Whatever the name, the label shown is the platform name itself: the
      table's labels repeat their keys. */
  lemma PlatformLabelIsName(platform: string)
    ensures GetPlatformMeta(platform).labelText == platform
  {
    if platform in PlatformTable {
      assert platform in {"Meta", "Google Analytics", "Google Ads", "TikTok", "LinkedIn"};
    }
  }

  /** Names a plain JavaScript object inherits from `Object.prototype`. */
  const InheritedNames: set<string> := {
    "constructor", "hasOwnProperty", "isPrototypeOf", "propertyIsEnumerable",
    "toLocaleString", "toString", "valueOf", "__proto__",
    "__defineGetter__", "__defineSetter__", "__lookupGetter__", "__lookupSetter__"}

  /** What `platformMeta[platform]` yields on the page's object literal: an
      own entry, an inherited member (not nullish, so `??` keeps it), or
      undefined. */
  datatype Lookup = OwnEntry(meta: PlatformMeta) | InheritedMember | Undefined

  function IndexPlatformTable(platform: string): (l: Lookup)
    ensures l.OwnEntry? <==> platform in PlatformTable
    ensures l.InheritedMember? <==> platform !in PlatformTable && platform in InheritedNames
  {
    if platform in PlatformTable then OwnEntry(PlatformTable[platform])
    else if platform in InheritedNames then InheritedMember
    else Undefined
  }

  /** The label the page displays under the lookup as written; None stands
      for `undefined` (an inherited member has no `label`). */
  function DisplayedLabelAsWritten(platform: string): (shown: Option<string>)
    ensures shown.None? <==> platform in InheritedNames
  {
    match IndexPlatformTable(platform)
    case OwnEntry(m) => Some(m.labelText)
    case InheritedMember => None
    case Undefined => Some(platform)
  }

  /** A platform named "toString" defeats the fallback as written: the page
      shows no label, where the fallback would have shown "toString". */
  lemma InheritedNameDefeatsFallback()
    ensures DisplayedLabelAsWritten("toString") == None
    ensures GetPlatformMeta("toString").labelText == "toString"
  {
    assert "toString" in InheritedNames;
    assert "toString" !in PlatformTable;
  }

  /** Outside the inherited names, the lookup as written agrees with the
      corrected own-key lookup. */
  lemma AsWrittenAgreesElsewhere(platform: string)
    requires platform !in InheritedNames
    ensures DisplayedLabelAsWritten(platform) == Some(GetPlatformMeta(platform).labelText)
  {
  }

  // ------------------------------------------------------ present filter

  /** `r` can be obtained from `s` by deleting elements, keeping order. */
  predicate IsSubsequence<T(==)>(r: seq<T>, s: seq<T>)
    decreases |s|
  {
    r == [] || (s != [] && ((r[0] == s[0] && IsSubsequence(r[1..], s[1..])) || IsSubsequence(r, s[1..])))
  }

  predicate AllPresent(ps: seq<PlatformRow>)
  {
    forall i :: 0 <= i < |ps| ==> ps[i].present
  }

  /** Number of rows marked present. */
  function CountPresent(ps: seq<PlatformRow>): nat
  {
    if ps == [] then 0 else (if ps[0].present then 1 else 0) + CountPresent(ps[1..])
  }

  /** `.filter((p) => p.present)`: an order-preserving subsequence holding
      only present rows and as many as there are. */
  function FilterPresent(ps: seq<PlatformRow>): (r: seq<PlatformRow>)
    ensures IsSubsequence(r, ps)
    ensures AllPresent(r)
    ensures |r| == CountPresent(ps)
  {
    if ps == [] then []
    else if ps[0].present then [ps[0]] + FilterPresent(ps[1..])
    else FilterPresent(ps[1..])
  }

  /** A subsequence made of present rows has at most as many rows as are
      present. */
  lemma {:induction false} PresentSubsequenceBound(r: seq<PlatformRow>, s: seq<PlatformRow>)
    requires IsSubsequence(r, s) && AllPresent(r)
    ensures |r| <= CountPresent(s)
    decreases |s|
  {
    if r != [] {
      if r[0] == s[0] && IsSubsequence(r[1..], s[1..]) {
        PresentSubsequenceBound(r[1..], s[1..]);
      } else {
        PresentSubsequenceBound(r, s[1..]);
      }
    }
  }

  /** The filter's three properties pin its result down: any subsequence of
      present rows as long as the present count is the filter's result. */
  lemma {:induction false} FilterPresentUnique(r: seq<PlatformRow>, ps: seq<PlatformRow>)
    requires IsSubsequence(r, ps) && AllPresent(r) && |r| == CountPresent(ps)
    ensures r == FilterPresent(ps)
    decreases |ps|
  {
    if ps == [] {
    } else if r == [] {
      assert CountPresent(ps) == 0;
      assert FilterPresent(ps) == [];
    } else if r[0] == ps[0] && IsSubsequence(r[1..], ps[1..]) {
      assert ps[0].present;
      FilterPresentUnique(r[1..], ps[1..]);
    } else {
      assert IsSubsequence(r, ps[1..]);
      PresentSubsequenceBound(r, ps[1..]);
      if ps[0].present {
        assert false;
      }
      FilterPresentUnique(r, ps[1..]);
    }
  }

  /** `presentPlatforms`: the present rows of the result, none without one. */
  function PresentPlatforms(result: Option<ResultJson>): (r: seq<PlatformRow>)
    ensures result.None? || result.value.platforms.None? ==> r == []
    ensures result.Some? && result.value.platforms.Some? ==>
      r == FilterPresent(result.value.platforms.value)
  {
    if result.Some? && result.value.platforms.Some? then FilterPresent(result.value.platforms.value)
    else []
  }

  // ---------------------------------------------------------- projection

  /** `overallScore`: the result's score, 0 without a result. */
  function OverallScore(result: Option<ResultJson>): (score: real)
    ensures result.Some? ==> score == result.value.overallScore
    ensures result.None? ==> score == 0.0 && GradeFromScore(score) == F && LabelFromScore(score) == Poor
  {
    if result.Some? then result.value.overallScore else 0.0
  }

  /** Without a result the page grades 0, which is an F labelled Poor. */
  lemma NoResultIsFPoor(data: Option<AuditRecord>)
    requires data.None? || data.value.result.None?
    ensures var r := if data.Some? then data.value.result else None;
      OverallScore(r) == 0.0 && GradeFromScore(OverallScore(r)) == F
      && LabelFromScore(OverallScore(r)) == Poor
  {
    GradeBands(0.0);
    LabelBands(0.0);
  }

  /** One platform card: label and icon from the lookup, the indicator from
      the signal ladder, the cookies from the row's debug data. */
  datatype PlatformCard = PlatformCard(
    labelText: string,
    icon: PlatformIcon,
    signal: SignalLevel,
    bars: seq<Segment>,
    cookies: seq<string>,
    resolveCta: Option<string>)

  function CardFor(p: PlatformRow): (c: PlatformCard)
    ensures c.labelText == p.platform
    ensures c.icon == GetPlatformMeta(p.platform).icon
    ensures c.signal == SignalFromScore(p.score) && c.bars == Segments(c.signal)
    ensures LitCount(c.bars) == ActiveBars(SignalFromScore(p.score))
  {
    PlatformLabelIsName(p.platform);
    LitCountIsActiveBars(SignalFromScore(p.score));
    var m := GetPlatformMeta(p.platform);
    PlatformCard(m.labelText, m.icon, SignalFromScore(p.score), Segments(SignalFromScore(p.score)),
      p.cookies, p.resolveCta)
  }

  /** The summary and cards of the report; `gradeText` and `labelText` are
      the strings the summary displays. */
  datatype Report = Report(
    grade: Grade,
    gradeText: string,
    score: real,
    scoreLabel: Label,
    labelText: string,
    recommendedActions: string,
    cards: seq<PlatformCard>)

  /** The report drawn from a result: its grade and label come from the
      ladders applied to the overall score, and there is one card per
      present platform. */
  function BuildReport(r: ResultJson): (rep: Report)
    ensures rep.score == r.overallScore
    ensures rep.grade == GradeFromScore(r.overallScore) && rep.scoreLabel == LabelFromScore(r.overallScore)
    ensures rep.gradeText == GradeText(rep.grade) && rep.labelText == LabelText(rep.scoreLabel)
    ensures rep.recommendedActions == r.recommendedActions
    ensures |rep.cards| == |PresentPlatforms(Some(r))|
    ensures forall i :: 0 <= i < |rep.cards| ==> rep.cards[i] == CardFor(PresentPlatforms(Some(r))[i])
  {
    var ps := PresentPlatforms(Some(r));
    var score := OverallScore(Some(r));
    Report(GradeFromScore(score), GradeText(GradeFromScore(score)), score,
      LabelFromScore(score), LabelText(LabelFromScore(score)), r.recommendedActions,
      seq(|ps|, i requires 0 <= i < |ps| => CardFor(ps[i])))
  }

  /** The report shows one card per present platform, in order, each
      labelled with its platform's name. */
  lemma ReportCardsArePresentPlatforms(r: ResultJson)
    ensures var ps := PresentPlatforms(Some(r)); var cards := BuildReport(r).cards;
      |cards| == |ps| && |ps| == (if r.platforms.Some? then CountPresent(r.platforms.value) else 0)
      && forall i :: 0 <= i < |cards| ==> cards[i].labelText == ps[i].platform && ps[i].present
  {
  }

  /** The three panels of the page body. */
  datatype ResultsView = LoadingPanel | NotFinishedPanel(progress: real) | ReportPanel(report: Report)

  /** The report is rendered only when loading is over, the audit is
      finished and it carries a result; the not-finished panel shows the
      audit's progress, 0 without an audit. */
  function ViewOf(loading: bool, data: Option<AuditRecord>): (v: ResultsView)
    ensures v.LoadingPanel? <==> loading
    ensures v.ReportPanel? <==>
      !loading && data.Some? && data.value.status == Finished && data.value.result.Some?
    ensures v.ReportPanel? ==> v.report == BuildReport(data.value.result.value)
    ensures v.NotFinishedPanel? ==> v.progress == if data.Some? then data.value.progress else 0.0
  {
    if loading then LoadingPanel
    else if data.None? || data.value.status != Finished || data.value.result.None? then
      NotFinishedPanel(if data.Some? then data.value.progress else 0.0)
    else ReportPanel(BuildReport(data.value.result.value))
  }

  const LoadFailedMessage: string := "Failed to load audit results. Please try again."

  // --------------------------------------------------------------- page

  /** The page's state: the route's audit id and the React state hooks. */
  class ResultsPage {
    const auditId: Option<string>
    var auditData: Option<AuditRecord>
    var loading: bool
    var snackbar: Snackbar

    constructor (auditId: Option<string>)
      ensures this.auditId == auditId
      ensures auditData == None && loading && snackbar == InitialSnackbar
    {
      this.auditId := auditId;
      auditData := None;
      loading := true;
      snackbar := InitialSnackbar;
    }

    /** `fetchAudit`, run on mount and by the Refresh button, with the GET's
        settled outcome as a parameter. Returns the path requested, if any.
        Without an id it returns before touching `loading`. */
    method FetchAudit(outcome: Outcome<AuditRecord>) returns (request: Option<string>)
      modifies this
      ensures !HasId(auditId) ==>
        request == None && auditData == old(auditData) && loading == old(loading) && snackbar == old(snackbar)
      ensures HasId(auditId) ==> request == Some("/audits/" + auditId.value) && !loading
      ensures HasId(auditId) && outcome.Ok? ==>
        auditData == Some(outcome.value) && snackbar == old(snackbar)
      ensures HasId(auditId) && outcome.Rejected? ==>
        auditData == old(auditData) && snackbar == OpenError(LoadFailedMessage)
    {
      if !HasId(auditId) {
        return None;
      }
      loading := true;
      request := Some("/audits/" + auditId.value);
      match outcome {
        case Ok(raw) =>
          auditData := Some(raw);
        case Rejected =>
          snackbar := snackbar.(message := LoadFailedMessage);
          snackbar := snackbar.(severity := Error);
          snackbar := snackbar.(open := true);
      }
      loading := false;
    }

    /** `handleSnackbarClose`. */
    method CloseSnackbar()
      modifies this
      ensures snackbar == old(snackbar).(open := false)
      ensures auditData == old(auditData) && loading == old(loading)
    {
      snackbar := snackbar.(open := false);
    }

    /** What the page body renders now. */
    function View(): (v: ResultsView)
      reads this
      ensures v.ReportPanel? ==>
        auditData.Some? && auditData.value.result.Some? && auditData.value.status == Finished
    {
      ViewOf(loading, auditData)
    }
  }

  /** After a successful refresh of a finished audit that has a result, the
      page shows the report built from that result. */
  lemma RefreshedFinishedShowsReport(rec: AuditRecord)
    requires rec.status == Finished && rec.result.Some?
    ensures ViewOf(false, Some(rec)) == ReportPanel(BuildReport(rec.result.value))
  {
  }
}
