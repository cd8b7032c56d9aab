/**
 The second step of a password reset, reached through the emailed link whose
 last segment is the reset token: a new password typed twice. Three flags decide
 whether the reset is requested; success is announced on the alert page, a
 failure only as an inline error.
 */
module ForgotPasswordChangePassword {
  import opened Wrappers
  import opened Js
  import opened Fetch
  import opened Browser
  import opened AlertInfoContext
  import opened Guard

  datatype Errors = Errors(missingFields: bool, invalidPassword: bool, passwordMismatch: bool)

  /** The flags of one submit; the length check reads the untrimmed new password. */
  function Validate(newPassword: string, confirmPassword: string): (e: Errors)
    ensures e.missingFields <==> Trim(newPassword) == "" || Trim(confirmPassword) == ""
    ensures e.invalidPassword <==> |newPassword| < 6
    ensures e.passwordMismatch <==> newPassword != confirmPassword
  {
    Errors(Trim(newPassword) == "" || Trim(confirmPassword) == "", |newPassword| < 6, newPassword != confirmPassword)
  }

  predicate Blocks(e: Errors)
  {
    e.missingFields || e.invalidPassword || e.passwordMismatch
  }

  /** A pair that gets through is one password of six characters or more, not all white space, typed twice. */
  lemma AcceptedPasswords(newPassword: string, confirmPassword: string)
    ensures !Blocks(Validate(newPassword, confirmPassword)) <==>
      newPassword == confirmPassword && |newPassword| >= 6
      && exists i :: 0 <= i < |newPassword| && !IsSpace(newPassword[i])
  {
    TrimEmptyIffBlank(newPassword);
    TrimEmptyIffBlank(confirmPassword);
  }

  /** The JSON body of the reset request: the token and the new password, not the confirmation. */
  datatype ResetBody = ResetBody(resetCode: string, password: string)

  const InvalidLinkMessage: string := "Invalid or expired reset link."

  const FailedFallback: string := "Failed to reset password"

  /** The alert after a successful reset; its empty code is stored as null. */
  const ChangedAlert: AlertInfo :=
    AlertInfo("Password changed!", "You have successfully changed your password.", "Go to Log In", "/log-in", Some(""))

  /** The alert and navigation of a sent reset once `reply` arrived: only a success touches them. */
  function ReplyEffect(reply: Reply<()>): (e: Effect)
    ensures TransportOk(reply) ==> e == AlertEffect(ChangedAlert)
    ensures !TransportOk(reply) ==> e == NoEffect
  {
    if TransportOk(reply) then AlertEffect(ChangedAlert) else NoEffect
  }

  /** The inline error after a sent reset: the failure's message, or nothing on success. */
  function ReplyError(reply: Reply<()>): (error: string)
    ensures TransportOk(reply) ==> error == ""
    ensures reply.Answered? && !reply.ok ==> error != ""
    ensures reply.Rejected? ==> error == reply.reason
  {
    if TransportOk(reply) then "" else ErrorMessage(reply, FailedFallback)
  }

  /** The effect of one submit: nothing without a token or when a flag is raised, else that of the answer. */
  function SubmitOutcome(token: Option<string>, errors: Errors, reply: Reply<()>): (e: Effect)
    ensures !Truthy(token) || Blocks(errors) ==> e == NoEffect
    ensures Truthy(token) && !Blocks(errors) ==> e == ReplyEffect(reply)
  {
    if !Truthy(token) || Blocks(errors) then NoEffect else ReplyEffect(reply)
  }

  /** Success and an inline error never come together: either the alert page is reached or an error is shown, or neither when the rejection had no message. */
  lemma AlertOrErrorNeverBoth(reply: Reply<()>)
    ensures ReplyEffect(reply).alert.Some? ==> ReplyError(reply) == ""
    ensures ReplyError(reply) != "" ==> ReplyEffect(reply).navigations == []
  {
  }

  class ChangePasswordPage {
    const window: Window
    const alerts: AlertInfoProvider
    /** The `:token` route parameter; None when the route carried none. */
    const token: Option<string>
    var newPassword: string
    var confirmPassword: string
    var message: string
    var error: string
    var errors: Errors
    var isSubmitting: bool

    constructor(window: Window, alerts: AlertInfoProvider, token: Option<string>)
      ensures this.window == window && this.alerts == alerts && this.token == token
      ensures newPassword == "" && confirmPassword == "" && message == "" && error == ""
      ensures errors == Errors(false, false, false) && !isSubmitting
    {
      this.window := window;
      this.alerts := alerts;
      this.token := token;
      newPassword := "";
      confirmPassword := "";
      message := "";
      error := "";
      errors := Errors(false, false, false);
      isSubmitting := false;
    }

    /**
     `handleSubmit` with the server's answer `reply`. A missing token stops it before
     any flag is computed, so the flags keep their old values. `message` is only
     ever cleared here, so the timed redirect that watches it does not fire.
     */
    method HandleSubmit(reply: Reply<()>) returns (request: Option<ResetBody>)
      modifies this`message, this`error, this`errors, this`isSubmitting, window`history, alerts`alertInfo
      ensures message == ""
      ensures !Truthy(token) ==> errors == old(errors) && error == InvalidLinkMessage
      ensures Truthy(token) ==> errors == Validate(newPassword, confirmPassword)
      ensures Truthy(token) && Blocks(errors) ==> error == ""
      ensures Truthy(token) && !Blocks(errors) ==> error == ReplyError(reply) && !isSubmitting
      ensures !Truthy(token) || Blocks(errors) ==> isSubmitting == old(isSubmitting)
      ensures request == (if Truthy(token) && !Blocks(errors) then Some(ResetBody(token.value, newPassword)) else None)
      ensures AlertApplied(window, alerts, SubmitOutcome(token, errors, reply), old(window.history), old(alerts.alertInfo))
    {
      message := "";
      error := "";
      if !Truthy(token) {
        error := InvalidLinkMessage;
        assert window.history + [] == window.history;
        return None;
      }
      errors := Validate(newPassword, confirmPassword);
      if Blocks(errors) {
        assert window.history + [] == window.history;
        return None;
      }
      isSubmitting := true;
      request := Some(ResetBody(token.value, newPassword));
      ApplyAlert(window, alerts, ReplyEffect(reply));
      error := ReplyError(reply);
      isSubmitting := false;
    }
  }
}
