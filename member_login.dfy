/** The LG Members login scenario: read the two credentials, install the
    tracker-blocking route and a response monitor, open the store page,
    dismiss overlays, locate and fill the e-mail and password fields, press
    the submit button, then judge the outcome from success and error
    indicators on the resulting page. */
module MemberLogin {
  import opened Wrappers
  import opened Strings
  import opened Locator

  const StoreUrl: string := "https://members.us.lg.com/store/pm"

  const DismissCandidates: seq<string> := [
    "button[aria-label=\"Close\"]",
    "button:has-text(\"Close\")",
    "button:has-text(\"No, thanks\")",
    "[class*=\"close\"]",
    ".modal-close"
  ]

  const EmailSelectors: seq<string> := [
    "input[name=\"email\"]",
    "input[id=\"email\"]",
    "input[type=\"email\"]",
    "input[name=\"userId\"]",
    "input[id=\"userId\"]",
    "input[placeholder*=\"email\" i]",
    "input[autocomplete=\"email\"]"
  ]

  const PasswordSelectors: seq<string> := [
    "input[name=\"password\"]",
    "input[id=\"password\"]",
    "input[type=\"password\"]",
    "input[id*=\"password\"]",
    "input[placeholder*=\"password\" i]",
    "input[autocomplete=\"current-password\"]"
  ]

  const SubmitSelectors: seq<string> := [
    "button[type=\"submit\"]",
    "button:has-text(\"Sign In\")",
    "button:has-text(\"Log In\")",
    "button:has-text(\"Login\")",
    "input[type=\"submit\"]",
    "button:has-text(\"Continue\")",
    "[type=\"submit\"]"
  ]

  const SuccessIndicators: seq<string> := [
    "a:has-text(\"Sign Out\")",
    "a:has-text(\"Logout\")",
    "a:has-text(\"My Account\")",
    "[href*=\"logout\"]",
    "[href*=\"signout\"]",
    ".user-menu",
    ".account-menu"
  ]

  const ErrorSelectors: seq<string> := [
    ".error",
    ".alert-error",
    "[class*=\"error\"]",
    ":has-text(\"incorrect\")",
    ":has-text(\"invalid\")",
    ":has-text(\"failed\")"
  ]

  /** URL fragments that make the monitor record a response. */
  const LoginApiMarkers: seq<string> := [
    "/login", "/auth", "/signin", "/member", "/user", "/profile", "/session"
  ]

  const JsonContentType: string := "application/json"

  /** The scenario's thrown errors. */
  datatype LoginError =
    | MissingCredentials      // PM_MEMBER_EMAIL and PM_MEMBER_PASSWORD must be set
    | EmailInputNotFound
    | PasswordInputNotFound
    | SubmitNotFound
    | LoginFailed             // a visible error indicator after submitting

  // ------------------------------------------------------------ credentials

  /** `if (!email || !password) throw ...`: an unset variable (`None`) and an
      empty one are both falsy. */
  function Credentials(email: Option<string>, password: Option<string>): (r: Result<(string, string), LoginError>)
    ensures r.Ok? <==> email.Some? && email.value != "" && password.Some? && password.value != ""
    ensures r.Ok? ==> r.value == (email.value, password.value)
    ensures r.Err? ==> r.error == MissingCredentials
  {
    match (email, password)
    case (Some(e), Some(p)) =>
      if e == "" || p == "" then Err(MissingCredentials) else Ok((e, p))
    case _ => Err(MissingCredentials)
  }

  // --------------------------------------------------------- response monitor

  /** The URL test of the `page.on('response')` handler. */
  function IsLoginApi(url: string): (b: bool)
    ensures b <==> exists k :: 0 <= k < |LoginApiMarkers| && Occurs(url, LoginApiMarkers[k])
  {
    IncludesAny(url, LoginApiMarkers)
  }

  /** One response event as the handler sees it. `contentType` is the
      `content-type` header, if sent; `jsonBody` is what `response.json()`
      yields, `None` when it throws; `readable` says whether reading the
      headers, status and method completes (the outer `catch` drops the
      event otherwise). */
  datatype ResponseEvent = ResponseEvent(
    url: string, status: int, httpMethod: string, timestamp: int,
    contentType: Option<string>, jsonBody: Option<string>, readable: bool)

  /** `responseData` of a record. `ParseFailed` stands for the sentinel string
      'Unable to parse JSON' stored when a JSON body cannot be parsed. */
  datatype ResponseData = NoData | Parsed(json: string) | ParseFailed

  /** One entry of `apiResponses`. */
  datatype ApiRecord = ApiRecord(url: string, status: int, httpMethod: string, timestamp: int, data: ResponseData)

  /** `headers()['content-type'] || ''`. */
  function ContentType(e: ResponseEvent): string {
    match e.contentType
    case None => ""
    case Some(t) => t
  }

  /** `responseData`: null unless the content type mentions JSON; a parse
      failure yields the sentinel instead of an error. */
  function DataOf(e: ResponseEvent): (d: ResponseData)
    ensures d.NoData? <==> !Occurs(ContentType(e), JsonContentType)
    ensures d == ParseFailed <==> Occurs(ContentType(e), JsonContentType) && e.jsonBody.None?
    ensures d.Parsed? ==> e.jsonBody == Some(d.json)
  {
    IncludesIffOccurs(ContentType(e), JsonContentType);
    if !Includes(ContentType(e), JsonContentType) then NoData
    else
      match e.jsonBody
      case None => ParseFailed
      case Some(j) => Parsed(j)
  }

  /** The entry the handler appends for `e`, if any. */
  function RecordOf(e: ResponseEvent): (r: Option<ApiRecord>)
    ensures r.Some? <==> IsLoginApi(e.url) && e.readable
    ensures r.Some? ==>
              && r.value.url == e.url && r.value.status == e.status
              && r.value.httpMethod == e.httpMethod && r.value.timestamp == e.timestamp
              && r.value.data == DataOf(e)
  {
    if IsLoginApi(e.url) && e.readable
    then Some(ApiRecord(e.url, e.status, e.httpMethod, e.timestamp, DataOf(e)))
    else None
  }

  /** The entries a sequence of events produces, taken in the order their
      handlers reach `push`. */
  function Captured(events: seq<ResponseEvent>): seq<ApiRecord>
    decreases |events|
  {
    if events == [] then []
    else
      var last := events[|events| - 1];
      Captured(events[..|events| - 1]) + (match RecordOf(last) case Some(a) => [a] case None => [])
  }

  /** Capturing distributes over concatenation: what later events add never
      changes the entries of earlier ones. */
  lemma {:induction false} CapturedAppend(earlier: seq<ResponseEvent>, later: seq<ResponseEvent>)
    ensures Captured(earlier + later) == Captured(earlier) + Captured(later)
    decreases |later|
  {
    if later == [] {
      assert earlier + later == earlier;
    } else {
      var init := later[..|later| - 1];
      CapturedAppend(earlier, init);
      assert (earlier + later)[..|earlier + later| - 1] == earlier + init;
    }
  }

  /** Every captured entry is a login, auth or account API response. */
  lemma {:induction false} CapturedAreLoginApis(events: seq<ResponseEvent>)
    ensures forall k :: 0 <= k < |Captured(events)| ==> IsLoginApi(Captured(events)[k].url)
    decreases |events|
  {
    if events != [] {
      CapturedAreLoginApis(events[..|events| - 1]);
    }
  }

  /** The `apiResponses` array and the handler that grows it. */
  class ResponseLog {
    var entries: seq<ApiRecord>

    /** Only responses that passed the URL test are ever recorded. */
    ghost predicate Valid()
      reads this
    {
      forall k :: 0 <= k < |entries| ==> IsLoginApi(entries[k].url)
    }

    constructor ()
      ensures Valid() && entries == []
    {
      entries := [];
    }

    /** The `page.on('response')` handler: at most one `push`, earlier entries
        untouched. */
    method OnResponse(e: ResponseEvent)
      requires Valid()
      modifies this
      ensures Valid()
      ensures RecordOf(e).Some? ==> entries == old(entries) + [RecordOf(e).value]
      ensures RecordOf(e).None? ==> entries == old(entries)
    {
      if IsLoginApi(e.url) {
        if e.readable {
          var data := DataOf(e);
          entries := entries + [ApiRecord(e.url, e.status, e.httpMethod, e.timestamp, data)];
        }
      }
    }

    /** Handles a sequence of events, each run to completion, in the order
        their handlers reach `push`. */
    method OnResponses(events: seq<ResponseEvent>)
      requires Valid()
      modifies this
      ensures Valid()
      ensures entries == old(entries) + Captured(events)
    {
      var i := 0;
      while i < |events|
        invariant 0 <= i <= |events|
        invariant Valid()
        invariant entries == old(entries) + Captured(events[..i])
      {
        OnResponse(events[i]);
        assert events[..i + 1][..i] == events[..i];
        i := i + 1;
      }
      assert events[..i] == events;
    }
  }

  // ---------------------------------------------------------------- verdict

  /** The final check: a visible error throws; otherwise the test passes,
      reporting whether a success indicator was seen. */
  function Verdict(loginSuccess: bool, hasError: bool): (r: Result<bool, LoginError>)
    ensures r.Err? <==> hasError
    ensures r.Err? ==> r.error == LoginFailed
    ensures r.Ok? ==> r.value == loginSuccess
  {
    if hasError then Err(LoginFailed) else Ok(loginSuccess)
  }

  /** `expect(loginSuccess || !hasError)` can never fail once the `hasError`
      guard has passed, whether or not a success indicator was found. */
  lemma FinalExpectationHolds(loginSuccess: bool, hasError: bool)
    requires Verdict(loginSuccess, hasError).Ok?
    ensures loginSuccess || !hasError
  {
  }

  // ------------------------------------------------------------- the scenario

  /** Browser effects of the scenario, in order. `Click(s)` is a click issued
      on the first element matching `s`. */
  datatype Effect =
    | InstallRoute             // page.route for every request
    | MonitorResponses         // page.on('response', ...)
    | Navigate(url: string)
    | Click(selector: string)
    | Fill(selector: string, text: string)

  /** The browser's answers at each step; each page is one snapshot. */
  datatype LoginObservations = LoginObservations(
    email: Option<string>,      // PM_MEMBER_EMAIL
    password: Option<string>,   // PM_MEMBER_PASSWORD
    storePage: Page,            // after navigation: modal dismissal
    emailPage: Page,
    passwordPage: Page,
    submitPage: Page,
    resultPage: Page)           // after submitting: success and error indicators

  /** What a passing run found. */
  datatype LoginReport = LoginReport(
    dismissed: seq<string>,
    emailField: string,
    passwordField: string,
    submitButton: string,
    loginSuccess: bool)

  /** Clicks issued by one modal-dismissal pass. */
  function DismissClicks(clicked: seq<string>): (r: seq<Effect>)
    ensures |r| == |clicked|
    ensures forall k :: 0 <= k < |r| ==> r[k] == Click(clicked[k])
  {
    if clicked == [] then [] else [Click(clicked[0])] + DismissClicks(clicked[1..])
  }

  /** The login test body. */
  method RunLogin(obs: LoginObservations) returns (r: Result<LoginReport, LoginError>, effects: seq<Effect>)
    // missing credentials: thrown before any routing or navigation
    ensures r == Err(MissingCredentials) <==> Credentials(obs.email, obs.password).Err?
    ensures r == Err(MissingCredentials) ==> effects == []
    ensures r != Err(MissingCredentials) ==>
              |effects| >= 3 && effects[..3] == [InstallRoute, MonitorResponses, Navigate(StoreUrl)]
    // each required element is mandatory, searched in this order
    ensures r == Err(EmailInputNotFound) <==>
              Credentials(obs.email, obs.password).Ok?
              && Locate(EmailSelectors, obs.emailPage, Shown).NotFound?
    ensures r == Err(PasswordInputNotFound) <==>
              Credentials(obs.email, obs.password).Ok?
              && Locate(EmailSelectors, obs.emailPage, Shown).Found?
              && Locate(PasswordSelectors, obs.passwordPage, Shown).NotFound?
    ensures r == Err(SubmitNotFound) <==>
              Credentials(obs.email, obs.password).Ok?
              && Locate(EmailSelectors, obs.emailPage, Shown).Found?
              && Locate(PasswordSelectors, obs.passwordPage, Shown).Found?
              && Locate(SubmitSelectors, obs.submitPage, ShownAndActed).NotFound?
    // after submitting, a visible error indicator fails the test
    ensures r == Err(LoginFailed) <==>
              Credentials(obs.email, obs.password).Ok?
              && Locate(EmailSelectors, obs.emailPage, Shown).Found?
              && Locate(PasswordSelectors, obs.passwordPage, Shown).Found?
              && Locate(SubmitSelectors, obs.submitPage, ShownAndActed).Found?
              && Locate(ErrorSelectors, obs.resultPage, ShownAndActed).Found?
    ensures r.Ok? ==>
              && r.value.dismissed == Attempts(DismissCandidates, obs.storePage)
              && r.value.emailField == Locate(EmailSelectors, obs.emailPage, Shown).selector
              && r.value.passwordField == Locate(PasswordSelectors, obs.passwordPage, Shown).selector
              && r.value.submitButton == Locate(SubmitSelectors, obs.submitPage, ShownAndActed).selector
              && r.value.loginSuccess == Locate(SuccessIndicators, obs.resultPage, Attached).Found?
    // the credentials went into the located fields before the submit click
    ensures r.Ok? ==>
              && Fill(r.value.emailField, obs.email.value) in effects
              && Fill(r.value.passwordField, obs.password.value) in effects
              && effects[|effects| - 1] == Click(r.value.submitButton)
  {
    effects := [];
    var credentials := Credentials(obs.email, obs.password);
    if credentials.Err? {
      return Err(MissingCredentials), effects;
    }
    var (email, password) := credentials.value;

    effects := [InstallRoute, MonitorResponses, Navigate(StoreUrl)];
    var dismissed := DismissModals(DismissCandidates, obs.storePage);
    effects := effects + DismissClicks(dismissed);

    var emailInput := Search(EmailSelectors, obs.emailPage, Shown);
    if emailInput.NotFound? {
      return Err(EmailInputNotFound), effects;
    }
    effects := effects + [Click(emailInput.selector), Fill(emailInput.selector, email)];

    var passwordInput := Search(PasswordSelectors, obs.passwordPage, Shown);
    if passwordInput.NotFound? {
      return Err(PasswordInputNotFound), effects;
    }
    effects := effects + [Fill(passwordInput.selector, password)];

    // a click that throws leaves `loginSubmitted` false and the next
    // candidate is tried, so the loop demands a completed click
    var submit := Search(SubmitSelectors, obs.submitPage, ShownAndActed);
    if submit.NotFound? {
      return Err(SubmitNotFound), effects;
    }
    effects := effects + [Click(submit.selector)];

    // success needs only an attached indicator; an error indicator must be
    // visible and its text readable
    var success := Search(SuccessIndicators, obs.resultPage, Attached);
    var error := Search(ErrorSelectors, obs.resultPage, ShownAndActed);
    var verdict := Verdict(success.Found?, error.Found?);
    if verdict.Err? {
      return Err(verdict.error), effects;
    }
    r := Ok(LoginReport(dismissed, emailInput.selector, passwordInput.selector, submit.selector, verdict.value));
  }
}
