/**
 * The email confirmation form: the code rule, the guard against a missing email, and the
 * two chains (confirming, re-sending the code) that start from a default alert and replace
 * it as the failure is examined.
 */
module ConfirmForm {
  import opened Wrappers
  import Strings
  import Auth
  import opened Alerts

  /**
   * The code rules, in their declared order: `required`, `^[0-9]+$`, then a `length` of at
   * least 4. The digit rule comes first, so the length is only taken of ASCII digits and
   * counts characters.
   */
  function CodeError(code: string): (e: Option<string>)
    ensures e.None? <==> |code| >= 4 && forall i :: 0 <= i < |code| ==> Strings.IsDigit(code[i])
    ensures code == "" ==> e == Some("Confirmation code is required")
  {
    if code == "" then Some("Confirmation code is required")
    else if exists i :: 0 <= i < |code| && !Strings.IsDigit(code[i]) then Some("Code must contain only numbers")
    else
      Strings.Utf16LengthBmp(code);
      if Strings.Utf16Length(code) < 4 then Some("Code must be at least 4 digits")
      else None
  }

  /** The alert texts of the form. */
  const MissingEmailText := "Email is missing. Please go back to the registration page."
  const ConfirmedText := "Email confirmed successfully! Redirecting you to login..."
  const InvalidCodeText := "Invalid confirmation code. Please check and try again."
  const ExpiredText := "This confirmation code has expired. Please request a new code."
  const AlreadyConfirmedText := "This email is already confirmed. Please proceed to login."
  const UnreachableText := "Unable to connect to the verification service. Please try again later."
  const CodeSentText := "A new confirmation code has been sent to your email."
  const ResendFailedText := "We couldn't send a new code. Please try again later."
  const TooManyRequestsText := "Too many code requests. Please wait before requesting a new code."
  const EmailNotFoundText := "Email not found. Please register first."

  const MissingEmail := Alert(MissingEmailText, Error)

  predicate MentionsExpiry(m: string) {
    Strings.Includes(m, "expired") || Strings.Includes(m, "timeout")
  }

  predicate MentionsBadCode(m: string) {
    Strings.Includes(m, "invalid") || Strings.Includes(m, "incorrect")
  }

  predicate MentionsLimit(m: string) {
    Strings.Includes(m, "too many") || Strings.Includes(m, "limit")
  }

  /** The cases a failed confirmation is sorted into. */
  datatype ConfirmFailure = InvalidCode | CodeExpired | AlreadyConfirmed | Unreachable

  /**
   * A failed confirmation: an expiry is recognised first; a bad code or status 400 keeps the
   * default and so hides a later "already confirmed" or 409; anything unrecognised, including
   * a failure with neither a response nor a request, keeps the default as well.
   */
  function ConfirmFailureKind(f: RequestError): (k: ConfirmFailure)
    ensures k == CodeExpired <==> f.Response? && MentionsExpiry(ServerMessage(f))
    ensures k == AlreadyConfirmed <==>
      && f.Response? && !MentionsExpiry(ServerMessage(f))
      && !MentionsBadCode(ServerMessage(f)) && f.status != 400
      && (Strings.Includes(ServerMessage(f), "already confirmed") || f.status == 409)
    ensures k == Unreachable <==> f.RequestOnly?
    ensures f.Response? && !MentionsExpiry(ServerMessage(f)) && (MentionsBadCode(ServerMessage(f)) || f.status == 400)
      ==> k == InvalidCode
    ensures f.Unexpected? ==> k == InvalidCode
  {
    match f
    case Response(status, _) =>
      var m := ServerMessage(f);
      if MentionsExpiry(m) then CodeExpired
      else if MentionsBadCode(m) || status == 400 then InvalidCode
      else if Strings.Includes(m, "already confirmed") || status == 409 then AlreadyConfirmed
      else InvalidCode
    case RequestOnly => Unreachable
    case Unexpected => InvalidCode
  }

  function ConfirmAlert(k: ConfirmFailure): (a: Alert)
    ensures a.severity != Severity.Success
    ensures a.severity == Error <==> k == InvalidCode
    ensures a.severity == Info <==> k == AlreadyConfirmed
  {
    match k
    case InvalidCode => Alert(InvalidCodeText, Error)
    case CodeExpired => Alert(ExpiredText, Warning)
    case AlreadyConfirmed => Alert(AlreadyConfirmedText, Info)
    case Unreachable => Alert(UnreachableText, Warning)
  }

  /** The `catch` block of `onSubmit`: a default alert, replaced by whichever later test applies. */
  method ConfirmFailureAlert(f: RequestError) returns (a: Alert)
    ensures a == ConfirmAlert(ConfirmFailureKind(f))
  {
    a := Alert(InvalidCodeText, Error);
    if f.Response? {
      var m := ServerMessage(f);
      if MentionsExpiry(m) {
        a := Alert(ExpiredText, Warning);
      } else if MentionsBadCode(m) || f.status == 400 {
        // the default stays
      } else if Strings.Includes(m, "already confirmed") || f.status == 409 {
        a := Alert(AlreadyConfirmedText, Info);
      }
    } else if f.RequestOnly? {
      a := Alert(UnreachableText, Warning);
    }
  }

  /** The cases a failed re-send is sorted into. */
  datatype ResendFailure = ResendFailed | ResendAlreadyConfirmed | TooManyRequests | EmailNotFound | ResendUnreachable

  /**
   * A failed re-send: "already confirmed" or 409 first, then a limit or 429, then "not found"
   * or 404; anything else keeps the default warning.
   */
  function ResendFailureKind(f: RequestError): (k: ResendFailure)
    ensures k == ResendAlreadyConfirmed <==>
      f.Response? && (Strings.Includes(ServerMessage(f), "already confirmed") || f.status == 409)
    ensures k == TooManyRequests <==>
      && f.Response? && !(Strings.Includes(ServerMessage(f), "already confirmed") || f.status == 409)
      && (MentionsLimit(ServerMessage(f)) || f.status == 429)
    ensures k == EmailNotFound <==>
      && f.Response? && !(Strings.Includes(ServerMessage(f), "already confirmed") || f.status == 409)
      && !(MentionsLimit(ServerMessage(f)) || f.status == 429)
      && (Strings.Includes(ServerMessage(f), "not found") || f.status == 404)
    ensures k == ResendUnreachable <==> f.RequestOnly?
    ensures f.Unexpected? ==> k == ResendFailed
  {
    match f
    case Response(status, _) =>
      var m := ServerMessage(f);
      if Strings.Includes(m, "already confirmed") || status == 409 then ResendAlreadyConfirmed
      else if MentionsLimit(m) || status == 429 then TooManyRequests
      else if Strings.Includes(m, "not found") || status == 404 then EmailNotFound
      else ResendFailed
    case RequestOnly => ResendUnreachable
    case Unexpected => ResendFailed
  }

  function ResendAlert(k: ResendFailure): (a: Alert)
    ensures a.severity != Severity.Success
    ensures a.severity == Error <==> k == EmailNotFound
    ensures a.severity == Info <==> k == ResendAlreadyConfirmed
  {
    match k
    case ResendFailed => Alert(ResendFailedText, Warning)
    case ResendAlreadyConfirmed => Alert(AlreadyConfirmedText, Info)
    case TooManyRequests => Alert(TooManyRequestsText, Warning)
    case EmailNotFound => Alert(EmailNotFoundText, Error)
    case ResendUnreachable => Alert(UnreachableText, Warning)
  }

  /** The `catch` block of `handleResendCode`: a default warning, replaced by whichever later test applies. */
  method ResendFailureAlert(f: RequestError) returns (a: Alert)
    ensures a == ResendAlert(ResendFailureKind(f))
  {
    a := Alert(ResendFailedText, Warning);
    if f.Response? {
      var m := ServerMessage(f);
      if Strings.Includes(m, "already confirmed") || f.status == 409 {
        a := Alert(AlreadyConfirmedText, Info);
      } else if MentionsLimit(m) || f.status == 429 {
        a := Alert(TooManyRequestsText, Warning);
      } else if Strings.Includes(m, "not found") || f.status == 404 {
        a := Alert(EmailNotFoundText, Error);
      }
    } else if f.RequestOnly? {
      a := Alert(UnreachableText, Warning);
    }
  }

  /** Both handlers report an unreachable service the same way, and an "already confirmed" answer the same way unless the confirmation saw a bad code first. */
  lemma {:induction false} SharedAlerts(f: RequestError)
    ensures f.RequestOnly? ==> ConfirmAlert(ConfirmFailureKind(f)) == ResendAlert(ResendFailureKind(f))
    ensures ConfirmFailureKind(f) == AlreadyConfirmed ==> ResendFailureKind(f) == ResendAlreadyConfirmed
  {
  }

  /** What the confirmation or re-send request gave back. */
  datatype Outcome = Done | Failed(failure: RequestError)

  /** The form's own state around its two handlers. */
  class ConfirmFormState {
    var message: Option<Alert>
    var isLoading: bool
    var isResending: bool
    var codeError: Option<string>

    constructor()
      ensures message == None && !isLoading && !isResending && codeError == None
    {
      message, isLoading, isResending, codeError := None, false, false, None;
    }

    /**
     * Submitting a code: the schema is checked first; then a missing email is reported
     * without a request; otherwise the confirmation's outcome is shown and, on success, the
     * login page follows after a delay. Loading ends false once a request was made.
     */
    method Submit(email: Option<string>, code: string, outcome: Outcome)
      returns (requested: bool, navigateTo: Option<string>)
      modifies this
      ensures codeError == CodeError(code)
      ensures requested <==> codeError.None? && Strings.Truthy(email)
      ensures codeError.Some? ==> message == old(message)
      ensures codeError.None? && !Strings.Truthy(email) ==> message == Some(MissingEmail)
      ensures !requested ==> isLoading == old(isLoading) && navigateTo.None?
      ensures requested ==> !isLoading
      ensures requested && outcome.Done? ==>
        message == Some(Alert(ConfirmedText, Severity.Success)) && navigateTo == Some("/login")
      ensures requested && outcome.Failed? ==>
        message == Some(ConfirmAlert(ConfirmFailureKind(outcome.failure))) && navigateTo.None?
      ensures isResending == old(isResending)
    {
      codeError := CodeError(code);
      requested, navigateTo := false, None;
      if codeError.Some? {
        return;
      }
      if !Strings.Truthy(email) {
        message := Some(MissingEmail);
        return;
      }
      requested := true;
      isLoading := true;
      message := None;
      match outcome {
        case Done =>
          message := Some(Alert(ConfirmedText, Severity.Success));
          navigateTo := Some("/login");
        case Failed(f) =>
          var a := ConfirmFailureAlert(f);
          message := Some(a);
      }
      isLoading := false;
    }

    /** Asking for a new code: the same email guard, then the re-send's outcome. */
    method ResendCode(email: Option<string>, outcome: Outcome) returns (requested: bool)
      modifies this
      ensures requested <==> Strings.Truthy(email)
      ensures !requested ==> message == Some(MissingEmail) && isResending == old(isResending)
      ensures requested ==> !isResending
      ensures requested && outcome.Done? ==> message == Some(Alert(CodeSentText, Severity.Success))
      ensures requested && outcome.Failed? ==> message == Some(ResendAlert(ResendFailureKind(outcome.failure)))
      ensures isLoading == old(isLoading) && codeError == old(codeError)
    {
      if !Strings.Truthy(email) {
        message := Some(MissingEmail);
        return false;
      }
      requested := true;
      isResending := true;
      message := None;
      match outcome {
        case Done =>
          message := Some(Alert(CodeSentText, Severity.Success));
        case Failed(f) =>
          var a := ResendFailureAlert(f);
          message := Some(a);
      }
      isResending := false;
    }
  }
}
