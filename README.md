# First-party audit web app: client logic in Dafny

This project models the client-side logic of a web app that audits a
website's tracking and cookie setup. There are four pieces:

- **Home page** (`Home`). The visitor types a URL. `normalizeUrl` trims it and adds `https://` unless an
  `http(s)://` scheme is already there, in any case. It then hands the string to the URL parser and keeps the
  result only if the hostname contains a dot. `runAudit` posts `{url, email: null}` and records the outcome
  in `apiCalled` and the snackbar. `canSubmit` gates the button.
- **Scanning page** (`AuditScanning`). The page polls `GET /audits/{id}` and captures an email address. Its
  state is `auditData`, `isFinished` and `isEmailSet`. It is modelled as an event-driven state machine
  (`Step`, `Requests`, `Run`, `Sent`). The `ScanPage` class performs the same transitions field by field.
- **Results page** (`AuditResults`, `ScoreLadders`). Three threshold ladders turn a score into a grade, a
  label and a signal level. The page filters the present platforms, looks up each platform's label and
  icon, and chooses between the loading panel, the not-finished panel and the report. `fetchAudit` sets
  `auditData`, `loading` and the snackbar.
- **Signal indicator** (`SignalBars`). A signal level chooses how many of 4 stepped segments are lit and
  in which colour.

Shared pieces: `Common` holds Option, the settled outcome of a request (`Ok` or `Rejected`), the audit
status, the snackbar and JavaScript truthiness of a route id. `Text` holds JavaScript's `trim` and the
case-insensitive prefix test of the scheme regular expression.

Scores and progress are JavaScript numbers, modelled as `real`. The URL parser (`new URL(...)` and its
`toString()`) is a function parameter of type `string -> Option<ParsedUrl>`, where None means that it threw.
Every network call becomes a parameter that holds its settled outcome.

Behaviour of the code that the model keeps as written, although a reader would expect otherwise:

- A `failed` status would be expected to stop polling, but the scanning page does not treat it as
  terminal. Only a `finished` response stops polling.
- A URL that will not normalise would be expected to be refused on the page. Instead the home page posts
  `url: null` and lets the backend answer.
- `loading` would be expected to end false after every `fetchAudit`, but `fetchAudit` returns before
  `setLoading` when there is no audit id. `loading` then keeps its value, which
  is initially true, so the page stays on the loading panel.
- The results page ignores the backend's `letterGrade` and always computes the grade from `overallScore`,
  although a comment says otherwise.
- The email Submit button tests the raw box (`disabled={!email}`) while the request body is trimmed. A box
  holding only spaces therefore sends an empty email (`WhitespaceEmailSendsEmpty`).

## Model

| member | source | states |
|---|---|---|
| Text.TrimStartSpec | src/pages/Home.tsx:34 | the result is a suffix of the input; the cut prefix is all whitespace and the result does not start with whitespace |
| Text.TrimEndSpec | src/pages/Home.tsx:34 | the result is a prefix of the input; the cut suffix is all whitespace and the result does not end with whitespace |
| Text.Trim | src/pages/Home.tsx:34 | `trim` never lengthens its input |
| Text.TrimLeavesTrimmed | src/pages/Home.tsx:34 | a string that neither starts nor ends with whitespace is returned unchanged |
| Text.TrimSlice | src/pages/Home.tsx:34 | `trim` returns a contiguous slice of its input |
| Text.TrimCutsWhitespace | src/pages/Home.tsx:34 | only whitespace is cut on either side of that slice |
| Text.TrimEnds | src/pages/Home.tsx:34 | the trimmed string neither starts nor ends with whitespace |
| Text.TrimEmptyIff | src/pages/Home.tsx:71 | the trimmed string is empty exactly when the input is all whitespace |
| Text.TrimIdempotent | src/pages/AuditScanning.tsx:55 | trimming twice equals trimming once |
| Text.LiteralPrefixMatches | src/pages/Home.tsx:37 | a string that literally starts with a lower-case prefix passes the case-insensitive test |
| SignalBars.ActiveBars | src/components/SignalBars.tsx:10-11 | the lit count lies in [1,4] and is one more than the level's strength rank |
| SignalBars.SignalTable | src/components/SignalBars.tsx:10-20 | strong 4 and #22c55e, medium 3 and #eab308, weak 2 and #f97316, bad 1 and #ef4444 |
| SignalBars.ActiveBarsInjective | src/components/SignalBars.tsx:10-11 | two levels with the same lit count are the same level |
| SignalBars.LevelColorsDistinct | src/components/SignalBars.tsx:13-20 | the four colours differ from each other and from the unlit colour |
| SignalBars.Segments | src/components/SignalBars.tsx:24 | exactly 4 segments are rendered |
| SignalBars.SegmentLitIff | src/components/SignalBars.tsx:31 | segment i takes the level colour, and counts as lit, iff i < activeBars |
| SignalBars.HeightsIncrease | src/components/SignalBars.tsx:29 | segment i is 6 + 4i high, so heights strictly increase left to right |
| SignalBars.LitPrefix | src/components/SignalBars.tsx:24-31 | among the first n segments, min(n, activeBars) are lit |
| SignalBars.LitCountIsActiveBars | src/components/SignalBars.tsx:24-31 | the number of lit segments equals activeBars |
| ScoreLadders.GradeFromScore | src/pages/AuditResults.tsx:80-88 | the grade is the best one whose floor (A 90, B+ 85, B 80, C+ 75, C 70, D 60, F none) the score reaches |
| ScoreLadders.GradeBands | src/pages/AuditResults.tsx:80-88 | A iff >= 90, B+ iff [85,90), B iff [80,85), C+ iff [75,80), C iff [70,75), D iff [60,70), F iff < 60 |
| ScoreLadders.GradeMonotone | src/pages/AuditResults.tsx:80-88 | a higher score never yields a lower grade in F<D<C<C+<B<B+<A |
| ScoreLadders.LabelFromScore | src/pages/AuditResults.tsx:90-97 | the label is the best one whose floor (Excellent 90, Very Good 85, Good 80, Okay 70, Weak 60, Poor none) the score reaches |
| ScoreLadders.LabelBands | src/pages/AuditResults.tsx:90-97 | the six label bands, each as an if-and-only-if |
| ScoreLadders.LabelMonotone | src/pages/AuditResults.tsx:90-97 | a higher score never yields a lower label |
| ScoreLadders.SignalFromScore | src/pages/AuditResults.tsx:99-104 | the level is the strongest one whose floor (strong 85, medium 70, weak 50, bad none) the score reaches |
| ScoreLadders.SignalBands | src/pages/AuditResults.tsx:99-104 | strong iff >= 85, medium iff [70,85), weak iff [50,70), bad iff < 50, with no gaps |
| ScoreLadders.SignalMonotone | src/pages/AuditResults.tsx:99-104 | signal strength never decreases as the score increases |
| ScoreLadders.DisplayedTextTable | src/pages/AuditResults.tsx:80-97 | the strings displayed for the grades A, B+, B, C+, C, D, F and the labels Excellent, Very Good, Good, Okay, Weak, Poor |
| ScoreLadders.DisplayedTextInjective | src/pages/AuditResults.tsx:80-97 | distinct grades display distinct strings, and so do distinct labels |
| ScoreLadders.BarsMonotone | src/pages/AuditResults.tsx:490-492 | combined with the indicator, a higher score never lights fewer segments |
| AuditResults.GetPlatformMeta | src/pages/AuditResults.tsx:129-133 | the table entry for a known platform; otherwise the platform's own name with the help icon |
| AuditResults.KnownPlatforms | src/pages/AuditResults.tsx:106-127 | the icons of Meta, Google Analytics, Google Ads, TikTok and LinkedIn; the help icon iff the name is none of them |
| AuditResults.PlatformLabelIsName | src/pages/AuditResults.tsx:106-133 | the label shown always equals the platform string |
| AuditResults.IndexPlatformTable | src/pages/AuditResults.tsx:129-130 | the object lookup finds an own entry iff the name is a table key, and an inherited member iff it is an `Object.prototype` name |
| AuditResults.DisplayedLabelAsWritten | src/pages/AuditResults.tsx:129-133 | as written, the label is undefined exactly for the `Object.prototype` names |
| AuditResults.InheritedNameDefeatsFallback | src/pages/AuditResults.tsx:129-133 | for a platform named "toString" the page as written shows no label; the fallback would show "toString" |
| AuditResults.AsWrittenAgreesElsewhere | src/pages/AuditResults.tsx:129-133 | for every other name, the lookup as written agrees with `GetPlatformMeta` |
| AuditResults.FilterPresent | src/pages/AuditResults.tsx:184 | the filter yields an order-preserving subsequence, all present, as long as the number of present rows |
| AuditResults.PresentSubsequenceBound | src/pages/AuditResults.tsx:184 | no subsequence of present rows is longer than the present count |
| AuditResults.FilterPresentUnique | src/pages/AuditResults.tsx:184 | those three properties determine the filter's result uniquely |
| AuditResults.PresentPlatforms | src/pages/AuditResults.tsx:183-185 | empty without a result or without platforms; otherwise the present filter of the platforms |
| AuditResults.OverallScore | src/pages/AuditResults.tsx:177 | the result's score when there is a result; otherwise 0, which grades F and is labelled Poor |
| AuditResults.NoResultIsFPoor | src/pages/AuditResults.tsx:177-181 | without a result the overall score is 0, so the grade is F and the label is Poor |
| AuditResults.CardFor | src/pages/AuditResults.tsx:424-492 | a card shows its platform's name and the icon the lookup gives; its indicator is the four segments of the level `signalFromScore` gives its score, lighting as many as that level demands |
| AuditResults.BuildReport | src/pages/AuditResults.tsx:321-617 | the report's grade and label are the grade and label ladders applied to the overall score, displayed as the ladders' strings ("B+", "Very Good", ...); it shows the result's score and recommended actions and one card per present platform, built by `CardFor` |
| AuditResults.ReportCardsArePresentPlatforms | src/pages/AuditResults.tsx:417-492 | the report has one card per present platform, in order |
| AuditResults.ViewOf | src/pages/AuditResults.tsx:244-320 | loading panel iff loading; report iff not loading, status finished and a result present; otherwise the not-finished panel with the audit's progress, 0 without an audit |
| AuditResults.RefreshedFinishedShowsReport | src/pages/AuditResults.tsx:265 | a finished audit with a result, once loaded, shows the report built from that result |
| AuditResults.ResultsPage.constructor | src/pages/AuditResults.tsx:139-148 | no audit data, loading true, snackbar closed |
| AuditResults.ResultsPage.FetchAudit | src/pages/AuditResults.tsx:152-169 | without an id nothing changes and nothing is requested; otherwise one GET, success stores the audit, failure keeps it and opens the error snackbar, and loading ends false |
| AuditResults.ResultsPage.CloseSnackbar | src/pages/AuditResults.tsx:150 | closes the snackbar and changes nothing else |
| AuditResults.ResultsPage.View | src/pages/AuditResults.tsx:265 | the report is rendered only for finished audit data that has a result |
| AuditScanning.Initial | src/pages/AuditScanning.tsx:28-34 | on mount: no data, empty email box, both flags down, and the effect's first run fetches exactly when the route has an id |
| AuditScanning.Armed | src/pages/AuditScanning.tsx:65 | the effect arms polling iff the route's id is defined and non-empty and the audit is not finished |
| AuditScanning.SubmitEnabled | src/pages/AuditScanning.tsx:204 | Submit is enabled iff the raw email box is non-empty |
| AuditScanning.NonBlankEmailEnablesSubmit | src/pages/AuditScanning.tsx:204 | a box holding a non-blank character always enables Submit |
| AuditScanning.Requests | src/pages/AuditScanning.tsx:52-72 | a pending effect run sends one GET of `/audits/{id}` iff polling is armed; a tick sends that GET iff the timer is live; a click sends one PATCH to `/audits/{id}/email` iff Submit is enabled, and that PATCH carries the trimmed email; nothing else sends anything |
| AuditScanning.Step | src/pages/AuditScanning.tsx:36-184 | a finished response is stored and sets isFinished, and nothing else changes either; isEmailSet is raised by a response with a truthy email or an enabled click whose PATCH succeeds, and by nothing else; only an edit changes the email box, to the typed value; both flags are only raised; a fetch failure changes nothing; only the effect arms the timer, iff an id exists and the audit is not finished, and an effect with no pending run changes nothing |
| AuditScanning.InitialConsistent | src/pages/AuditScanning.tsx:29-34 | the page starts consistent and unfinished |
| AuditScanning.RunConsistent | src/pages/AuditScanning.tsx:36-72 | over any event sequence, finished implies holding a finished response, and with the effect caught up the timer is live iff polling is armed |
| AuditScanning.RunFlagsMonotone | src/pages/AuditScanning.tsx:40-58 | isFinished and isEmailSet are never reset over any event sequence |
| AuditScanning.OnlyFinishedEndsPolling | src/pages/AuditScanning.tsx:40-43 | with no finished response among the events (failed ones included), isFinished and auditData stay as they were and polling stays armed |
| AuditScanning.FailedResponseKeepsPolling | src/pages/AuditScanning.tsx:40-43 | a failed status does not set isFinished and a live timer keeps fetching |
| AuditScanning.NoGetAfterFinished | src/pages/AuditScanning.tsx:64-72 | once finished with the timer cleared, no event sends a GET and the timer stays cleared |
| AuditScanning.PollingStopsWhenFinished | src/pages/AuditScanning.tsx:64-72 | a consistent, finished page whose effect has caught up never sends another GET |
| AuditScanning.EmptyEmailSendsNothing | src/pages/AuditScanning.tsx:204 | with an empty box, Submit sends nothing and changes nothing |
| AuditScanning.WhitespaceEmailSendsEmpty | src/pages/AuditScanning.tsx:52-58 | a box holding only whitespace enables Submit, sends an empty email, and a successful PATCH sets isEmailSet |
| AuditScanning.ScanPage.constructor | src/pages/AuditScanning.tsx:28-34 | the page starts in the initial state |
| AuditScanning.ScanPage.FetchResults | src/pages/AuditScanning.tsx:36-50 | a settled GET updates the fields as `Step` says |
| AuditScanning.ScanPage.EditEmail | src/pages/AuditScanning.tsx:184 | typing replaces the email box and nothing else |
| AuditScanning.ScanPage.SubmitEmail | src/pages/AuditScanning.tsx:52-62 | a click sends what `Requests` says and updates the fields as `Step` says |
| AuditScanning.ScanPage.RunPollingEffect | src/pages/AuditScanning.tsx:64-72 | the effect clears the previous timer, then fetches once and arms a new timer iff an id exists and the audit is not finished |
| AuditScanning.ScanPage.IntervalTick | src/pages/AuditScanning.tsx:69 | a tick fetches iff the timer is live |
| Home.HasHttpSchemeIff | src/pages/Home.tsx:37 | the regex `^https?://` with the `i` flag holds iff the text starts with h, t, t, p in either case, an optional s in either case, then `://` |
| Home.WithProtocol | src/pages/Home.tsx:37-39 | the parser input always has an http(s) scheme, keeps the user's text as a suffix, and is the text or `https://` + text |
| Home.WithProtocolUnchangedIff | src/pages/Home.tsx:37-39 | the text is passed on unchanged iff it starts with http:// or https://, in any case |
| Home.WithProtocolIdempotent | src/pages/Home.tsx:37-39 | adding the scheme a second time changes nothing |
| Home.ParserInputKeepsText | src/pages/Home.tsx:34-39 | the string handed to `new URL` always carries an http(s) scheme and ends with the trimmed text |
| Home.HostnameRejectedIffNoDot | src/pages/Home.tsx:44 | the hostname check rejects exactly the hostnames without a dot, the empty one included |
| Home.NormalizeUrl | src/pages/Home.tsx:32-52 | null when the parser throws or the hostname has no dot; otherwise the parser's serialisation |
| Home.NormalizeIgnoresSurroundingWhitespace | src/pages/Home.tsx:34-41 | surrounding whitespace does not matter; the parser sees the trimmed text, behind https:// unless it had a scheme |
| Home.HomePage.constructor | src/pages/Home.tsx:20-28 | empty URL, apiCalled and loading false, snackbar closed |
| Home.HomePage.SetUrl | src/pages/Home.tsx:197 | typing replaces the URL and nothing else |
| Home.HomePage.CanSubmit | src/pages/Home.tsx:71 | true iff no audit was created yet and the box holds a non-whitespace character |
| Home.HomePage.RunAudit | src/pages/Home.tsx:54-68 | posts {url: normalizeUrl(url), email: null} even when the url is null; success sets apiCalled and navigates to the audit; failure leaves apiCalled and opens the error snackbar |
| Home.HomePage.CloseSnackbar | src/pages/Home.tsx:29 | closes the snackbar and changes nothing else |
| Home.ResubmitAllowedOnlyAfterFailure | src/pages/Home.tsx:57-71 | on any page whose button is enabled, after one submission the button is enabled again iff the POST failed |

## Findings

| source | as written | input that shows it | evidently intended | confidence | as-written member | corrected member |
|---|---|---|---|---|---|---|
| src/pages/AuditResults.tsx:129-133 | `platformMeta[platform] ?? {...}` indexes a plain object literal, so names inherited from `Object.prototype` are found and are not nullish | a platform named `toString` (or `constructor`, `valueOf`, `__proto__`, ...) | unknown names fall back to their own name with the help icon | medium, not executed | AuditResults.InheritedNameDefeatsFallback | AuditResults.PlatformLabelIsName |

The rest of the model uses the corrected lookup `GetPlatformMeta` (an own-key lookup in a map).

## Left out

- Layout, styling, theme, routing, the About page, the loading animation and the spinner: presentation only.
- The axios instance and the network. Each request is modelled as the path it hits plus a parameter that
  holds its settled outcome. Nothing models timeouts or retries.
- The WHATWG URL parser is a parameter. The examples `normalizeUrl("example.com") == "https://example.com/"`
  and `normalizeUrl("localhost") == null` depend on it and are not stated.
- `setInterval` timing, the 5-second period, async interleaving and React's batching. Events are discrete,
  and React's pending run of the polling effect is the `effectStale` flag.
- AuditScanning.ScanState: the timer is one flag, `intervalLive`, so the model assumes that React runs the
  effect's cleanup (`clearInterval` of the previous handle) before every re-run. Under that assumption at
  most one interval is ever live. The model does not capture more than one uncleared handle.
- AuditResults.ResultsPage.FetchAudit: one call is one transition, so the loading panel shown while the GET
  is in flight is not a separate state.
- Scores that are NaN or infinite: every ladder compares with `>=`, and such values are not modelled.
- `finishedAt` formatting, console logging, cookie and "resolve" rendering inside a card, and the page headers.
- The legacy `Home.jsx` page, which posts the raw URL and discards the response.
- The stale-closure check `!isEmailSet` in `fetchResults` is modelled as `isEmailSet || truthy(email)`.
  Both give the same state.
