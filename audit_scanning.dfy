/** The scanning page: it polls the audit until the backend reports it
    finished, and captures an email address. Its state is `auditData`,
    `isFinished` and `isEmailSet`; the polling effect arms an interval timer
    while an id exists and the audit is not finished.

    The page is modelled as a state machine over discrete events: a GET
    settling, an edit of the email box, a click on Submit (with the PATCH's
    outcome), React running the polling effect, and the interval firing.
    `Step` gives the next state and `Requests` the requests an event sends;
    the `ScanPage` class performs the same transitions field by field. */
module AuditScanning {
  import opened Common
  import Text

  /** The fields of a `GET /audits/{id}` response the page reads. */
  datatype ScanResponse = ScanResponse(
    id: string,
    url: string,
    status: AuditStatus,
    progress: real,
    email: Option<string>)

  /** JavaScript truthiness of an optional string. */
  predicate Truthy(s: Option<string>)
  {
    s.Some? && s.value != ""
  }

  datatype Request = GetAudit(path: string) | PatchEmail(path: string, email: string)

  /** How the id is spelled inside a template literal: `undefined` when
      the route has none. */
  function IdText(id: Option<string>): string
  {
    if id.Some? then id.value else "undefined"
  }

  datatype ScanState = ScanState(
    auditId: Option<string>,
    auditData: Option<ScanResponse>,
    email: string,
    isFinished: bool,
    isEmailSet: bool,
    // a `setInterval` handle that has not been cleared yet
    intervalLive: bool,
    // a dependency of the polling effect changed since the effect last ran
    effectStale: bool)

  datatype ScanEvent =
    | PollSettled(outcome: Outcome<ScanResponse>)
    | EmailEdited(value: string)
    | SubmitClicked(patch: Outcome<()>)
    | EffectRan
    | IntervalFired

  /** Mounting: no data, empty email box, both flags down, no timer, and the
      effect due to run. */
  function Initial(auditId: Option<string>): (r: ScanState)
    ensures r.auditId == auditId && r.auditData == None && r.email == ""
    ensures !r.isFinished && !r.isEmailSet
    // the first run of the effect fetches exactly when the route has an id
    ensures |Requests(r, EffectRan)| == 1 <==> HasId(auditId)
  {
    ScanState(auditId, None, "", false, false, false, true)
  }

  /** The condition under which the polling effect arms its timer: the
      route's id is defined and non-empty, and the audit is not finished. */
  function Armed(s: ScanState): (b: bool)
    ensures b <==> s.auditId.Some? && |s.auditId.value| > 0 && !s.isFinished
  {
    HasId(s.auditId) && !s.isFinished
  }

  /** The Submit button is enabled while the email box is not empty; the
      raw box is tested, so any box with a non-blank character enables it,
      and so does one holding only whitespace. */
  function SubmitEnabled(s: ScanState): (b: bool)
    ensures b <==> |s.email| > 0
  {
    s.email != ""
  }

  predicate FinishedPoll(e: ScanEvent)
  {
    e.PollSettled? && e.outcome.Ok? && e.outcome.value.status == Finished
  }

  /** Requests sent by an event: one GET per arming of the effect and per
      tick of a live timer, one PATCH with the trimmed email per enabled
      click. */
  function Requests(s: ScanState, e: ScanEvent): (sent: seq<Request>)
    ensures |sent| <= 1
    ensures e.EffectRan? ==> (|sent| == 1 <==> s.effectStale && Armed(s))
    ensures e.IntervalFired? ==> (|sent| == 1 <==> s.intervalLive)
    ensures (e.EffectRan? || e.IntervalFired?) && |sent| == 1 ==>
      sent[0] == GetAudit("/audits/" + IdText(s.auditId))
    ensures e.SubmitClicked? ==> (|sent| == 1 <==> SubmitEnabled(s))
    ensures e.SubmitClicked? && |sent| == 1 ==>
      sent[0] == PatchEmail("/audits/" + IdText(s.auditId) + "/email", Text.Trim(s.email))
    ensures e.PollSettled? || e.EmailEdited? ==> sent == []
  {
    match e
    case EffectRan =>
      if s.effectStale && Armed(s) then [GetAudit("/audits/" + IdText(s.auditId))] else []
    case IntervalFired =>
      if s.intervalLive then [GetAudit("/audits/" + IdText(s.auditId))] else []
    case SubmitClicked(_) =>
      if SubmitEnabled(s) then [PatchEmail("/audits/" + IdText(s.auditId) + "/email", Text.Trim(s.email))]
      else []
    case _ => []
  }

  /** The state after an event. */
  function Step(s: ScanState, e: ScanEvent): (r: ScanState)
    ensures r.auditId == s.auditId
    // the two flags are only ever raised
    ensures s.isFinished ==> r.isFinished
    ensures s.isEmailSet ==> r.isEmailSet
    // a finished response is stored and raises isFinished; nothing else
    // touches either
    ensures FinishedPoll(e) ==> r.isFinished && r.auditData == Some(e.outcome.value)
    ensures !FinishedPoll(e) ==> r.isFinished == s.isFinished && r.auditData == s.auditData
    // a response with a truthy email raises isEmailSet
    ensures e.PollSettled? && e.outcome.Ok? && Truthy(e.outcome.value.email) ==> r.isEmailSet
    // an enabled click whose PATCH succeeds raises isEmailSet
    ensures e.SubmitClicked? && SubmitEnabled(s) && e.patch.Ok? ==> r.isEmailSet
    // and nothing other than those two raises it
    ensures !s.isEmailSet && r.isEmailSet ==>
      (e.PollSettled? && e.outcome.Ok? && Truthy(e.outcome.value.email))
      || (e.SubmitClicked? && SubmitEnabled(s) && e.patch.Ok?)
    // only an edit changes the email box, and it sets it to the new value
    ensures r.email == (if e.EmailEdited? then e.value else s.email)
    // a failed request, a click that sends nothing and a tick change nothing
    ensures e.PollSettled? && e.outcome.Rejected? ==> r == s
    ensures e.SubmitClicked? && (e.patch.Rejected? || !SubmitEnabled(s)) ==> r == s
    ensures e.IntervalFired? ==> r == s
    // only the effect arms or clears the timer, and it arms it iff Armed
    ensures r.intervalLive != s.intervalLive ==> e.EffectRan?
    ensures e.EffectRan? && s.effectStale ==> r.intervalLive == Armed(s) && !r.effectStale
    ensures e.EffectRan? && !s.effectStale ==> r == s
  {
    match e
    case PollSettled(Rejected) => s
    case PollSettled(Ok(resp)) =>
      var finished := resp.status == Finished;
      var nowFinished := s.isFinished || finished;
      var nowEmailSet := s.isEmailSet || Truthy(resp.email);
      s.(auditData := if finished then Some(resp) else s.auditData,
         isFinished := nowFinished,
         isEmailSet := nowEmailSet,
         effectStale := s.effectStale || nowFinished != s.isFinished || nowEmailSet != s.isEmailSet)
    case EmailEdited(v) => s.(email := v)
    case SubmitClicked(patch) =>
      if !SubmitEnabled(s) || patch.Rejected? then s
      else s.(isEmailSet := true, effectStale := s.effectStale || !s.isEmailSet)
    case EffectRan =>
      if s.effectStale then s.(intervalLive := Armed(s), effectStale := false) else s
    case IntervalFired => s
  }

  /** The state after a sequence of events. */
  function Run(s: ScanState, es: seq<ScanEvent>): ScanState
    decreases |es|
  {
    if es == [] then s else Run(Step(s, es[0]), es[1..])
  }

  /** Every request sent along a sequence of events, in order. */
  function Sent(s: ScanState, es: seq<ScanEvent>): seq<Request>
    decreases |es|
  {
    if es == [] then [] else Requests(s, es[0]) + Sent(Step(s, es[0]), es[1..])
  }

  /** What the page keeps true: it holds a finished response whenever it is
      finished, and once the effect has caught up the timer is live exactly
      when polling is armed. */
  predicate Consistent(s: ScanState)
  {
    && (s.isFinished ==> s.auditData.Some? && s.auditData.value.status == Finished)
    && (!s.effectStale ==> s.intervalLive == Armed(s))
  }

  lemma InitialConsistent(auditId: Option<string>)
    ensures Consistent(Initial(auditId)) && !Initial(auditId).isFinished
  {
  }

  /** Every event keeps the page consistent. */
  lemma {:induction false} RunConsistent(s: ScanState, es: seq<ScanEvent>)
    requires Consistent(s)
    ensures Consistent(Run(s, es))
    decreases |es|
  {
    if es != [] {
      RunConsistent(Step(s, es[0]), es[1..]);
    }
  }

  /** `isFinished` and `isEmailSet` are never reset, over any sequence of
      events. */
  lemma {:induction false} RunFlagsMonotone(s: ScanState, es: seq<ScanEvent>)
    ensures s.isFinished ==> Run(s, es).isFinished
    ensures s.isEmailSet ==> Run(s, es).isEmailSet
    decreases |es|
  {
    if es != [] {
      RunFlagsMonotone(Step(s, es[0]), es[1..]);
    }
  }

  /** Only a response whose status is finished ends polling: along events
      without one (failed responses and fetch errors included), the page
      stays as finished as it was, keeps its data, and polling stays armed
      if it was. */
  lemma {:induction false} OnlyFinishedEndsPolling(s: ScanState, es: seq<ScanEvent>)
    requires forall i :: 0 <= i < |es| ==> !FinishedPoll(es[i])
    ensures Run(s, es).isFinished == s.isFinished
    ensures Run(s, es).auditData == s.auditData
    ensures Armed(Run(s, es)) == Armed(s)
    decreases |es|
  {
    if es != [] {
      OnlyFinishedEndsPolling(Step(s, es[0]), es[1..]);
    }
  }

  /** A response with status failed leaves the page polling: it does not
      raise `isFinished`, and a live timer stays live. */
  lemma FailedResponseKeepsPolling(s: ScanState, resp: ScanResponse)
    requires resp.status == Failed
    ensures var r := Step(s, PollSettled(Ok(resp)));
      r.isFinished == s.isFinished && r.intervalLive == s.intervalLive && Armed(r) == Armed(s)
      && Requests(r, IntervalFired) == Requests(s, IntervalFired)
  {
  }

  /** Once finished with the timer cleared, no event sends another GET and
      the timer stays cleared. */
  lemma {:induction false} NoGetAfterFinished(s: ScanState, es: seq<ScanEvent>)
    requires s.isFinished && !s.intervalLive
    ensures forall i :: 0 <= i < |Sent(s, es)| ==> !Sent(s, es)[i].GetAudit?
    ensures !Run(s, es).intervalLive
    decreases |es|
  {
    if es != [] {
      var t := Step(s, es[0]);
      NoGetAfterFinished(t, es[1..]);
      assert Sent(s, es) == Requests(s, es[0]) + Sent(t, es[1..]);
    }
  }

  /** In a consistent page that is finished and whose effect has caught up,
      polling is over for good. */
  lemma PollingStopsWhenFinished(s: ScanState, es: seq<ScanEvent>)
    requires Consistent(s) && s.isFinished && !s.effectStale
    ensures forall i :: 0 <= i < |Sent(s, es)| ==> !Sent(s, es)[i].GetAudit?
  {
    NoGetAfterFinished(s, es);
  }

  /** The Submit button ignores clicks while the box is empty. */
  lemma EmptyEmailSendsNothing(s: ScanState, patch: Outcome<()>)
    requires s.email == ""
    ensures Requests(s, SubmitClicked(patch)) == [] && Step(s, SubmitClicked(patch)) == s
  {
  }

  /** Any box holding a non-blank character enables Submit. */
  lemma NonBlankEmailEnablesSubmit(s: ScanState)
    ensures Text.Trim(s.email) != "" ==> SubmitEnabled(s)
  {
  }

  /** The button tests the raw box, the request trims it: a box holding
      only whitespace enables Submit and sends an empty email, and a
      successful PATCH then raises `isEmailSet`. */
  lemma WhitespaceEmailSendsEmpty(s: ScanState)
    requires s.email != "" && Text.AllWhitespace(s.email)
    ensures Requests(s, SubmitClicked(Ok(()))) == [PatchEmail("/audits/" + IdText(s.auditId) + "/email", "")]
    ensures Step(s, SubmitClicked(Ok(()))).isEmailSet
  {
    Text.TrimEmptyIff(s.email);
  }

  /** The page's state hooks, updated by its handlers as React would. The
      field `effectStale` stands for React's pending run of the effect. */
  class ScanPage {
    const auditId: Option<string>
    var auditData: Option<ScanResponse>
    var email: string
    var isFinished: bool
    var isEmailSet: bool
    var intervalLive: bool
    var effectStale: bool

    function State(): ScanState
      reads this
    {
      ScanState(auditId, auditData, email, isFinished, isEmailSet, intervalLive, effectStale)
    }

    constructor (auditId: Option<string>)
      ensures State() == Initial(auditId)
    {
      this.auditId := auditId;
      auditData := None;
      email := "";
      isFinished := false;
      isEmailSet := false;
      intervalLive := false;
      effectStale := true;
    }

    /** `fetchResults` after its GET has settled. */
    method FetchResults(outcome: Outcome<ScanResponse>)
      modifies this
      ensures State() == Step(old(State()), PollSettled(outcome))
    {
      match outcome {
        case Rejected =>
        case Ok(resp) =>
          if resp.status == Finished {
            auditData := Some(resp);
            if !isFinished {
              isFinished := true;
              effectStale := true;
            }
          }
          if Truthy(resp.email) && !isEmailSet {
            isEmailSet := true;
            effectStale := true;
          }
      }
    }

    /** The email box's `onChange`. */
    method EditEmail(value: string)
      modifies this
      ensures State() == Step(old(State()), EmailEdited(value))
    {
      email := value;
    }

    /** A click on Submit, which calls `appendEmail` with the box's content,
        given the PATCH's outcome. A disabled button does nothing. */
    method SubmitEmail(patch: Outcome<()>) returns (sent: seq<Request>)
      modifies this
      ensures sent == Requests(old(State()), SubmitClicked(patch))
      ensures State() == Step(old(State()), SubmitClicked(patch))
    {
      if email == "" {
        return [];
      }
      sent := [PatchEmail("/audits/" + IdText(auditId) + "/email", Text.Trim(email))];
      if patch.Ok? && !isEmailSet {
        isEmailSet := true;
        effectStale := true;
      }
    }

    /** React running the polling effect after a dependency changed: the
        previous run's cleanup clears its timer, then the effect returns
        early or fetches once and arms a new timer. */
    method RunPollingEffect() returns (sent: seq<Request>)
      modifies this
      ensures sent == Requests(old(State()), EffectRan)
      ensures State() == Step(old(State()), EffectRan)
    {
      sent := [];
      if !effectStale {
        return;
      }
      effectStale := false;
      intervalLive := false;
      if !HasId(auditId) || isFinished {
        return;
      }
      sent := [GetAudit("/audits/" + IdText(auditId))];
      intervalLive := true;
    }

    /** The interval timer firing: a live timer calls `fetchResults`. */
    method IntervalTick() returns (sent: seq<Request>)
      ensures sent == Requests(State(), IntervalFired)
    {
      sent := if intervalLive then [GetAudit("/audits/" + IdText(auditId))] else [];
    }
  }
}
