/** The home page: the visitor types a URL, the page normalises it and
    posts a new audit. The WHATWG URL parser behind `new URL(...)` is not
    part of this model; it is a function parameter that either throws
    (None) or yields the parsed hostname and the serialisation `toString()`
    returns. */
module Home {
  import opened Common
  import opened Text

  datatype ParsedUrl = ParsedUrl(hostname: string, href: string)

  /** `new URL(input)`: None when the constructor throws. */
  type UrlParser = string -> Option<ParsedUrl>

  /** The regular expression `/^https?:\/\//i`. */
  predicate HasHttpScheme(t: string)
  {
    StartsWithIgnoringCase(t, "http://") || StartsWithIgnoringCase(t, "https://")
  }

  /** The scheme test read character by character, as the regular
      expression matches: the letters h, t, t, p in either case, an optional
      s in either case, then `://`. */
  lemma HasHttpSchemeIff(t: string)
    ensures HasHttpScheme(t) <==>
      && |t| >= 7
      && AsciiLower(t[0]) == 'h' && AsciiLower(t[1]) == 't'
      && AsciiLower(t[2]) == 't' && AsciiLower(t[3]) == 'p'
      && ((t[4] == ':' && t[5] == '/' && t[6] == '/')
          || (|t| >= 8 && AsciiLower(t[4]) == 's' && t[5] == ':' && t[6] == '/' && t[7] == '/'))
  {
    assert forall k :: 4 <= k < |t| ==> (AsciiLower(t[k]) == ':' <==> t[k] == ':');
    assert forall k :: 4 <= k < |t| ==> (AsciiLower(t[k]) == '/' <==> t[k] == '/');
  }

  /** The string handed to the parser: the trimmed input when it already
      names an http(s) scheme, otherwise the trimmed input behind
      `https://`. The user's text always survives as a suffix and the
      result always carries a scheme. */
  function WithProtocol(t: string): (u: string)
    ensures HasHttpScheme(u)
    ensures |t| <= |u| && u[|u| - |t|..] == t
    ensures u == t || u == "https://" + t
  {
    if HasHttpScheme(t) then t
    else
      LiteralPrefixMatches("https://", t);
      "https://" + t
  }

  /** The input is passed on unchanged exactly when it already starts with
      `http://` or `https://`, in any case. */
  lemma WithProtocolUnchangedIff(t: string)
    ensures WithProtocol(t) == t <==> HasHttpScheme(t)
  {
    if !HasHttpScheme(t) {
      assert |WithProtocol(t)| == |t| + 8;
    }
  }

  /** Adding the scheme is done once: applying it again changes nothing. */
  lemma WithProtocolIdempotent(t: string)
    ensures WithProtocol(WithProtocol(t)) == WithProtocol(t)
  {
  }

  /** The parser's input for a raw text box value. */
  function ParserInput(input: string): string
  {
    WithProtocol(Trim(input))
  }

  /** The parser's input always carries a scheme and ends with the trimmed
      text. */
  lemma ParserInputKeepsText(input: string)
    ensures var u, t := ParserInput(input), Trim(input);
      HasHttpScheme(u) && |t| <= |u| && u[|u| - |t|..] == t
  {
  }

  /** The hostname check `!hostname || !hostname.includes(".")` rejects;
      since the empty hostname contains no dot, it rejects exactly the
      hostnames without a dot. */
  predicate HostnameRejected(hostname: string)
  {
    hostname == "" || '.' !in hostname
  }

  lemma HostnameRejectedIffNoDot(hostname: string)
    ensures HostnameRejected(hostname) <==> '.' !in hostname
  {
  }

  /** `normalizeUrl`: None when the parser throws or the hostname has no
      dot, otherwise the parser's serialisation. */
  function NormalizeUrl(input: string, parse: UrlParser): (r: Option<string>)
    ensures r.Some? <==>
      parse(ParserInput(input)).Some? && '.' in parse(ParserInput(input)).value.hostname
    ensures r.Some? ==> r.value == parse(ParserInput(input)).value.href
  {
    var parsed := parse(ParserInput(input));
    if parsed.None? then None
    else if HostnameRejected(parsed.value.hostname) then None
    else Some(parsed.value.href)
  }

  /** Whitespace around the input does not matter, and the parser sees the
      trimmed input, with `https://` in front unless a scheme was typed. */
  lemma NormalizeIgnoresSurroundingWhitespace(input: string, parse: UrlParser)
    ensures NormalizeUrl(input, parse) == NormalizeUrl(Trim(input), parse)
    ensures HasHttpScheme(Trim(input)) ==> ParserInput(input) == Trim(input)
    ensures !HasHttpScheme(Trim(input)) ==> ParserInput(input) == "https://" + Trim(input)
  {
    TrimIdempotent(input);
    WithProtocolUnchangedIff(Trim(input));
  }

  /** `POST /audits` body. */
  datatype Payload = Payload(url: Option<string>, email: Option<string>)

  const StartFailedMessage: string := "Failed to start audit. Please check the URL and try again."

  /** The page's state hooks. */
  class HomePage {
    var url: string
    var apiCalled: bool
    var loading: bool
    var snackbar: Snackbar

    constructor ()
      ensures url == "" && !apiCalled && !loading && snackbar == InitialSnackbar
    {
      url := "";
      apiCalled := false;
      loading := false;
      snackbar := InitialSnackbar;
    }

    /** The URL box's `onChange`. */
    method SetUrl(value: string)
      modifies this
      ensures url == value
      ensures apiCalled == old(apiCalled) && loading == old(loading) && snackbar == old(snackbar)
    {
      url := value;
    }

    /** `canSubmit`, which enables the Run audit button: the box holds
        something other than whitespace and no audit has been created. */
    function CanSubmit(): (ok: bool)
      reads this
      ensures ok <==> !apiCalled && exists k :: 0 <= k < |url| && !IsWhitespace(url[k])
    {
      TrimEmptyIff(url);
      Trim(url) != "" && !apiCalled
    }

    /** `runAudit`, given the parser and the POST's outcome (the created
        audit's id). The payload is posted whatever `normalizeUrl` returned,
        null included. Returns the payload and the route navigated to. */
    method RunAudit(parse: UrlParser, post: Outcome<string>) returns (payload: Payload, navigateTo: Option<string>)
      modifies this
      ensures payload.url == NormalizeUrl(old(url), parse) && payload.email == None
      ensures url == old(url) && loading
      ensures apiCalled == (old(apiCalled) || post.Ok?)
      ensures post.Ok? ==> navigateTo == Some("/audit/" + post.value) && snackbar == old(snackbar)
      ensures post.Rejected? ==> navigateTo == None && snackbar == OpenError(StartFailedMessage)
    {
      payload := Payload(NormalizeUrl(url, parse), None);
      loading := true;
      match post {
        case Ok(id) =>
          apiCalled := true;
          navigateTo := Some("/audit/" + id);
        case Rejected =>
          navigateTo := None;
          snackbar := snackbar.(message := StartFailedMessage);
          snackbar := snackbar.(severity := Error);
          snackbar := snackbar.(open := true);
      }
    }

    /** `handleSnackbarClose`. */
    method CloseSnackbar()
      modifies this
      ensures snackbar == old(snackbar).(open := false)
      ensures url == old(url) && apiCalled == old(apiCalled) && loading == old(loading)
    {
      snackbar := snackbar.(open := false);
    }
  }

  /** On a page whose button is enabled, a successful POST disables it for
      good; a failed one leaves it enabled, so the visitor can submit again. */
  method ResubmitAllowedOnlyAfterFailure(page: HomePage, parse: UrlParser, first: Outcome<string>)
    returns (secondAllowed: bool)
    requires page.CanSubmit()
    modifies page
    ensures secondAllowed <==> first.Rejected?
  {
    var p, nav := page.RunAudit(parse, first);
    secondAllowed := page.CanSubmit();
  }
}
