/**
 The sign-up form: five validation flags decide whether the account request is
 sent; the answer either opens a session and announces it on the alert page, or
 classifies the failure as a taken email (409) or an unexpected error (500).
 */
module SignUp {
  import opened Wrappers
  import opened Js
  import opened Fetch
  import opened Browser
  import opened Cookies
  import opened AlertInfoContext
  import opened ShowHeader
  import opened Guard

  datatype Form = Form(
    firstName: string,
    lastName: string,
    email: string,
    confirmEmail: string,
    password: string,
    confirmPassword: string)

  /** The values of the form in declaration order: what `Object.values(formData)` visits. */
  function Values(f: Form): (vs: seq<string>)
    ensures |vs| == 6
  {
    [f.firstName, f.lastName, f.email, f.confirmEmail, f.password, f.confirmPassword]
  }

  /** `values.some((value) => value.trim().length === 0)`. */
  predicate AnyBlank(values: seq<string>)
  {
    values != [] && (Trim(values[0]) == "" || AnyBlank(values[1..]))
  }

  /** `some` holds exactly when one of the values trims to nothing. */
  lemma {:induction false} AnyBlankIff(values: seq<string>)
    ensures AnyBlank(values) <==> exists i :: 0 <= i < |values| && Trim(values[i]) == ""
  {
    if values != [] {
      AnyBlankIff(values[1..]);
      if exists i :: 0 <= i < |values| && Trim(values[i]) == "" {
        var i :| 0 <= i < |values| && Trim(values[i]) == "";
        if i > 0 {
          assert values[1..][i - 1] == values[i];
        }
      }
      if exists i :: 0 <= i < |values[1..]| && Trim(values[1..][i]) == "" {
        var i :| 0 <= i < |values[1..]| && Trim(values[1..][i]) == "";
        assert values[i + 1] == values[1..][i];
      }
    }
  }

  /** The flags of one submit, named as the page names them: `emailMatch` is set on a mismatch. */
  datatype Errors = Errors(
    emailMatch: bool,
    invalidEmail: bool,
    passwordMatch: bool,
    invalidPassword: bool,
    missingFields: bool)

  function Validate(f: Form): (e: Errors)
    ensures e.emailMatch <==> f.email != f.confirmEmail
    ensures e.invalidEmail <==> '@' !in f.email
    ensures e.passwordMatch <==> f.password != f.confirmPassword
    ensures e.invalidPassword <==> |f.password| < 6
    ensures e.missingFields <==> AnyBlank(Values(f))
  {
    Errors(f.email != f.confirmEmail, '@' !in f.email, f.password != f.confirmPassword, |f.password| < 6, AnyBlank(Values(f)))
  }

  /** Every one of the six fields counts, the two confirmations included. */
  lemma MissingIffSomeFieldBlank(f: Form)
    ensures Validate(f).missingFields <==>
      Trim(f.firstName) == "" || Trim(f.lastName) == "" || Trim(f.email) == ""
      || Trim(f.confirmEmail) == "" || Trim(f.password) == "" || Trim(f.confirmPassword) == ""
  {
    var vs := Values(f);
    AnyBlankIff(vs);
    if Validate(f).missingFields {
      var i :| 0 <= i < 6 && Trim(vs[i]) == "";
    } else {
      assert Trim(vs[0]) != "" && Trim(vs[1]) != "" && Trim(vs[2]) != "";
      assert Trim(vs[3]) != "" && Trim(vs[4]) != "" && Trim(vs[5]) != "";
    }
  }

  predicate Blocks(e: Errors)
  {
    e.missingFields || e.emailMatch || e.invalidEmail || e.passwordMatch || e.invalidPassword
  }

  /** A form that gets through was confirmed twice over, has an "@" and a six-character password. */
  lemma AcceptedFormIsConfirmed(f: Form)
    requires !Blocks(Validate(f))
    ensures f.confirmEmail == f.email && f.confirmPassword == f.password
    ensures '@' in f.email && |f.password| >= 6
    ensures Trim(f.firstName) != "" && Trim(f.lastName) != ""
  {
    MissingIffSomeFieldBlank(f);
  }

  /** The JSON body of the sign-up request: the confirmations are not sent. */
  datatype Body = Body(firstName: string, lastName: string, email: string, password: string)

  function BodyOf(f: Form): (b: Body)
    ensures b.firstName == f.firstName && b.lastName == f.lastName
    ensures b.email == f.email && b.password == f.password
  {
    Body(f.firstName, f.lastName, f.email, f.password)
  }

  /** The one server message the page recognises. */
  const TakenMessage: string := "A single email address can only be tied to one account"

  const CreatedAlert: AlertInfo :=
    AlertInfo("Sign up successful!", "Employee account created", "Go to Main", "/logged-in", Some(""))

  const TakenAlert: AlertInfo :=
    AlertInfo("Email already taken!", "An account has already been registered to this email address", "Go to Sign Up", "/sign-up", Some("409"))

  const UnexpectedAlert: AlertInfo :=
    AlertInfo("Something went wrong!", "There was an unexpected error. Please try again.", "Go to Sign Up", "/sign-up", Some("500"))

  /**
   The shared-state effect of a sent sign-up once `reply` arrived. The taken-email
   branch calls `goToAlertHandler` inside the `if` and again after it.
   */
  function ReplyEffect(reply: Reply<Session>): (e: Effect)
    ensures TransportOk(reply) ==> e == Effect([SessionCookie(reply.payload.token)], Some(Settings(true, reply.payload.role)), Some(CreatedAlert), ["/alert"])
    ensures !TransportOk(reply) && ErrorMessage(reply, "Something went wrong!") == TakenMessage ==> e == Effect([""], None, Some(TakenAlert), ["/alert", "/alert"])
    ensures !TransportOk(reply) && ErrorMessage(reply, "Something went wrong!") != TakenMessage ==> e == Effect([""], None, Some(UnexpectedAlert), ["/alert"])
  {
    if TransportOk(reply) then
      Effect([SessionCookie(reply.payload.token)], Some(Settings(true, reply.payload.role)), Some(CreatedAlert), ["/alert"])
    else if ErrorMessage(reply, "Something went wrong!") == TakenMessage then
      Effect([""], None, Some(TakenAlert), ["/alert", "/alert"])
    else
      Effect([""], None, Some(UnexpectedAlert), ["/alert"])
  }

  /**
   The cookie a later page reads after a sign-up answer: the new session's token on an ok
   answer; after a failure the `""` write is ignored, so an earlier session's
   token is still read.
   */
  lemma FailureKeepsEarlierSession(jar: string, reply: Reply<Session>)
    ensures !TransportOk(reply) ==> AuthToken(CookieAfterWrites(jar, ReplyEffect(reply).cookies)) == AuthToken(jar)
    ensures TransportOk(reply) && ';' !in reply.payload.token && '=' !in reply.payload.token ==>
      AuthToken(CookieAfterWrites(jar, ReplyEffect(reply).cookies)) == Some(reply.payload.token)
  {
    if TransportOk(reply) {
      if ';' !in reply.payload.token && '=' !in reply.payload.token {
        SessionCookieReplacesJar(jar, reply.payload.token);
      }
    } else {
      EmptyAssignmentStoresNothing(jar);
    }
  }

  /**
   Every answer ends on the alert page; a failure writes "" to `document.cookie`,
   which the browser ignores, and leaves the settings alone, and it is a 409 exactly
   when the error message is the taken-email text, a 500 otherwise. Both failure alerts lead back to the sign-up page.
   */
  lemma EveryOutcomeEndsAtAlert(reply: Reply<Session>)
    ensures var e := ReplyEffect(reply);
      e.alert.Some? && e.navigations != [] && e.navigations[|e.navigations| - 1] == "/alert"
    ensures !TransportOk(reply) ==> ReplyEffect(reply).cookies == [""] && ReplyEffect(reply).settings.None?
    ensures !TransportOk(reply) ==> ReplyEffect(reply).alert.value.linkURL == "/sign-up"
    ensures !TransportOk(reply) ==>
      (ReplyEffect(reply).alert.value.errorCode == Some("409") <==> ErrorMessage(reply, "Something went wrong!") == TakenMessage)
    ensures !TransportOk(reply) ==>
      (ReplyEffect(reply).alert.value.errorCode == Some("500") <==> ErrorMessage(reply, "Something went wrong!") != TakenMessage)
  {
  }

  /** A failed answer that carries no server message falls back to the generic text, so it ends on the "500" alert and never on the taken-email one. */
  lemma TakenNeedsExactMessage(reply: Reply<Session>)
    requires reply.Answered? && !reply.ok && reply.message == ""
    ensures ReplyEffect(reply).alert == Some(UnexpectedAlert)
  {
  }

  /** The success alert's empty code is stored as null. */
  lemma CreatedAlertStoresNullCode()
    ensures Stored(CreatedAlert).errorCode.None?
  {
  }

  /** The shared-state effect of one submit: nothing when validation blocks it, else that of the answer. */
  function SubmitOutcome(errors: Errors, reply: Reply<Session>): (e: Effect)
    ensures Blocks(errors) ==> e == NoEffect
    ensures !Blocks(errors) ==> e == ReplyEffect(reply)
  {
    if Blocks(errors) then NoEffect else ReplyEffect(reply)
  }

  class SignUpPage {
    const window: Window
    const alerts: AlertInfoProvider
    const header: ShowHeaderSettingsProvider
    var form: Form
    var isLoading: bool
    var errors: Errors

    constructor(window: Window, alerts: AlertInfoProvider, header: ShowHeaderSettingsProvider)
      ensures this.window == window && this.alerts == alerts && this.header == header
      ensures form == Form("", "", "", "", "", "") && !isLoading
      ensures errors == Errors(false, false, false, false, false)
    {
      this.window := window;
      this.alerts := alerts;
      this.header := header;
      form := Form("", "", "", "", "", "");
      isLoading := false;
      errors := Errors(false, false, false, false, false);
    }

    /**
     `handleSubmit` with the server's answer `reply`; `request` is the body sent,
     None when validation stopped the submit.
     */
    method HandleSubmit(reply: Reply<Session>) returns (request: Option<Body>)
      modifies this`errors, this`isLoading, window`cookieWrites, window`history, alerts`alertInfo, header`settings
      ensures errors == Validate(form)
      ensures isLoading == (if Blocks(errors) then old(isLoading) else false)
      ensures request == (if Blocks(errors) then None else Some(BodyOf(form)))
      ensures Applied(window, alerts, header, SubmitOutcome(errors, reply),
                      old(window.cookieWrites), old(window.history), old(alerts.alertInfo), old(header.settings))
    {
      errors := Validate(form);
      if Blocks(errors) {
        assert window.cookieWrites + [] == window.cookieWrites;
        assert window.history + [] == window.history;
        return None;
      }
      isLoading := true;
      request := Some(BodyOf(form));
      Apply(window, alerts, header, ReplyEffect(reply));
      isLoading := false;
    }

    /** The "Back to Home" button. */
    method GoToHome()
      modifies window`history
      ensures window.history == old(window.history) + ["/"]
    {
      window.Navigate("/");
    }
  }
}
