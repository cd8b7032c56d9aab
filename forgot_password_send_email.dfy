/**
 The first step of a password reset: the email form. Two flags decide whether
 the reset link is requested; the answer shows up as an inline message or an
 inline error, never as an alert.
 */
module ForgotPasswordSendEmail {
  import opened Wrappers
  import opened Js
  import opened Fetch

  datatype Errors = Errors(missingEmail: bool, invalidEmail: bool)

  function Validate(email: string): (e: Errors)
    ensures e.missingEmail <==> Trim(email) == ""
    ensures e.invalidEmail <==> '@' !in email
  {
    Errors(Trim(email) == "", '@' !in email)
  }

  predicate Blocks(e: Errors)
  {
    e.missingEmail || e.invalidEmail
  }

  /** An empty or all-blank email raises both flags. */
  lemma BlankEmailRaisesBothFlags(email: string)
    requires forall i :: 0 <= i < |email| ==> IsSpace(email[i])
    ensures Validate(email) == Errors(true, true)
  {
    TrimEmptyIffBlank(email);
  }

  /** The request goes out exactly for an email holding "@" and some character that is not white space. */
  lemma AcceptedEmail(email: string)
    ensures !Blocks(Validate(email)) <==> '@' in email && exists i :: 0 <= i < |email| && !IsSpace(email[i])
  {
    TrimEmptyIffBlank(email);
  }

  const SentMessage: string := "Password reset link sent to your email."

  const FailedFallback: string := "Failed to send reset link"

  class SendEmailPage {
    var email: string
    var message: string
    var error: string
    var errors: Errors

    constructor()
      ensures email == "" && message == "" && error == "" && errors == Errors(false, false)
    {
      email := "";
      message := "";
      error := "";
      errors := Errors(false, false);
    }

    /**
     `handleSubmit` with the server's answer `reply`; `request` is the email sent
     as `{email}`, None when a flag stopped the submit. Both texts are cleared
     first, so at most one of them is set afterwards.
     */
    method HandleSubmit(reply: Reply<()>) returns (request: Option<string>)
      modifies this`message, this`error, this`errors
      ensures errors == Validate(email)
      ensures request == (if Blocks(errors) then None else Some(email))
      ensures message == (if !Blocks(errors) && TransportOk(reply) then SentMessage else "")
      ensures error == (if !Blocks(errors) && !TransportOk(reply) then ErrorMessage(reply, FailedFallback) else "")
      ensures message == "" || error == ""
    {
      message := "";
      error := "";
      errors := Validate(email);
      request := None;
      if !Blocks(errors) {
        request := Some(email);
        if TransportOk(reply) {
          message := SentMessage;
        } else {
          error := ErrorMessage(reply, FailedFallback);
        }
      }
    }
  }

  /** A refused answer always shows a non-empty error: the server's message or the fallback. */
  lemma AnsweredFailureShowsAnError(reply: Reply<()>)
    requires reply.Answered? && !reply.ok
    ensures ErrorMessage(reply, FailedFallback) != ""
    ensures reply.message == "" ==> ErrorMessage(reply, FailedFallback) == FailedFallback
  {
  }
}
