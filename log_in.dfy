/**
 The login form: three validation flags decide whether the credentials are
 sent; the answer either opens a session (cookie, settings, landing page) or
 hands a "Login failed!" alert to the alert page.
 */
module LogIn {
  import opened Wrappers
  import opened Js
  import opened Fetch
  import opened Browser
  import opened AlertInfoContext
  import opened ShowHeader
  import opened Guard
  import opened Cookies

  datatype Errors = Errors(missingFields: bool, invalidEmail: bool, invalidPassword: bool)

  /** The flags of one submit; the length check reads the untrimmed password. */
  function Validate(email: string, password: string): (e: Errors)
    ensures e.missingFields <==> Trim(email) == "" || Trim(password) == ""
    ensures e.invalidEmail <==> '@' !in email
    ensures e.invalidPassword <==> |password| < 6
  {
    Errors(Trim(email) == "" || Trim(password) == "", '@' !in email, |password| < 6)
  }

  predicate Blocks(e: Errors)
  {
    e.missingFields || e.invalidEmail || e.invalidPassword
  }

  /** A submit goes through exactly for a non-blank email holding "@" and a password of six characters or more that is not all white space. */
  lemma AcceptedCredentials(email: string, password: string)
    ensures !Blocks(Validate(email, password)) <==>
      (exists i :: 0 <= i < |email| && !IsSpace(email[i])) && '@' in email
      && |password| >= 6 && (exists i :: 0 <= i < |password| && !IsSpace(password[i]))
  {
    TrimEmptyIffBlank(email);
    TrimEmptyIffBlank(password);
  }

  /** Six spaces pass the length check but are flagged as missing. */
  lemma BlankPasswordIsMissingNotShort(email: string, password: string)
    requires |password| == 6 && forall i :: 0 <= i < 6 ==> password[i] == ' '
    ensures Validate(email, password).missingFields
    ensures !Validate(email, password).invalidPassword
  {
    TrimEmptyIffBlank(password);
  }

  /** The JSON body of the login request: only the two credentials. */
  datatype Credentials = Credentials(email: string, password: string)

  /** The alert for a failed login: the caught error's message, or a fallback when it is empty. */
  function FailureAlert(reply: Reply<Session>): (a: AlertInfo)
    ensures a.heading == "Login failed!" && a.linkURL == "/log-in" && a.errorCode == Some("401")
    ensures reply.Answered? ==> a.message == Or(reply.message, "Something went wrong!")
    ensures reply.Rejected? ==> a.message == Or(reply.reason, "Invalid credentials. Please try again.")
  {
    AlertInfo("Login failed!", Or(ErrorMessage(reply, "Something went wrong!"), "Invalid credentials. Please try again."),
      "Go to Log In", "/log-in", Some("401"))
  }

  /** An answered failure always carries a non-empty message, so the login fallback only shows for an empty rejection. */
  lemma AnsweredFailureMessageIsNeverEmpty(reply: Reply<Session>)
    requires reply.Answered?
    ensures FailureAlert(reply).message != ""
    ensures FailureAlert(reply).message != "Invalid credentials. Please try again." || reply.message == "Invalid credentials. Please try again."
  {
  }

  /** The shared-state effect of a sent login once `reply` arrived. */
  function SubmitEffect(reply: Reply<Session>): (e: Effect)
    ensures TransportOk(reply) ==> e == Effect([SessionCookie(reply.payload.token)], Some(Settings(true, reply.payload.role)), None, ["/logged-in"])
    ensures !TransportOk(reply) ==> e == Effect([""], None, Some(FailureAlert(reply)), ["/alert"])
  {
    if TransportOk(reply) then
      Effect([SessionCookie(reply.payload.token)], Some(Settings(true, reply.payload.role)), None, ["/logged-in"])
    else
      Effect([""], None, Some(FailureAlert(reply)), ["/alert"])
  }

  /**
   The cookie a later page reads after a log-in answer: the new session's token on an ok
   answer; after a failure the `""` write is ignored, so an earlier session's
   token is still read.
   */
  lemma FailureKeepsEarlierSession(jar: string, reply: Reply<Session>)
    ensures !TransportOk(reply) ==> AuthToken(CookieAfterWrites(jar, SubmitEffect(reply).cookies)) == AuthToken(jar)
    ensures TransportOk(reply) && ';' !in reply.payload.token && '=' !in reply.payload.token ==>
      AuthToken(CookieAfterWrites(jar, SubmitEffect(reply).cookies)) == Some(reply.payload.token)
  {
    if TransportOk(reply) {
      if ';' !in reply.payload.token && '=' !in reply.payload.token {
        SessionCookieReplacesJar(jar, reply.payload.token);
      }
    } else {
      EmptyAssignmentStoresNothing(jar);
    }
  }

  /** The shared-state effect of one submit: nothing when validation blocks it, else that of the answer. */
  function SubmitOutcome(errors: Errors, reply: Reply<Session>): (e: Effect)
    ensures Blocks(errors) ==> e == NoEffect
    ensures !Blocks(errors) ==> e == SubmitEffect(reply)
  {
    if Blocks(errors) then NoEffect else SubmitEffect(reply)
  }

  class LogInPage {
    const window: Window
    const alerts: AlertInfoProvider
    const header: ShowHeaderSettingsProvider
    var email: string
    var password: string
    var isLoading: bool
    var errors: Errors

    constructor(window: Window, alerts: AlertInfoProvider, header: ShowHeaderSettingsProvider)
      ensures this.window == window && this.alerts == alerts && this.header == header
      ensures email == "" && password == "" && !isLoading
      ensures errors == Errors(false, false, false)
    {
      this.window := window;
      this.alerts := alerts;
      this.header := header;
      email := "";
      password := "";
      isLoading := false;
      errors := Errors(false, false, false);
    }

    /**
     `handleSubmit` with the server's answer `reply`; `request` is the body sent,
     None when validation stopped the submit.
     */
    method HandleSubmit(reply: Reply<Session>) returns (request: Option<Credentials>)
      modifies this`errors, this`isLoading, window`cookieWrites, window`history, alerts`alertInfo, header`settings
      ensures errors == Validate(email, password)
      ensures isLoading == (if Blocks(errors) then old(isLoading) else false)
      ensures request == (if Blocks(errors) then None else Some(Credentials(email, password)))
      ensures Applied(window, alerts, header, SubmitOutcome(errors, reply),
                      old(window.cookieWrites), old(window.history), old(alerts.alertInfo), old(header.settings))
    {
      errors := Validate(email, password);
      if Blocks(errors) {
        assert window.cookieWrites + [] == window.cookieWrites;
        assert window.history + [] == window.history;
        return None;
      }
      isLoading := true;
      request := Some(Credentials(email, password));
      Apply(window, alerts, header, SubmitEffect(reply));
      isLoading := false;
    }
  }
}
