/**
 * The login form: its two schema fields, the redirect target after a successful login,
 * and the ordered chain that turns a failed login into an alert.
 */
module LoginForm {
  import opened Wrappers
  import Strings
  import Auth
  import opened Alerts

  /** The email rules, in their declared order: the format check (its verdict is an input here), then `required`. */
  function EmailError(email: string, wellFormed: bool): (e: Option<string>)
    ensures e.None? <==> email != "" && wellFormed
    ensures email == "" ==> e == Some("Email is required")
  {
    // the format check lets the empty string through to `required`
    if email != "" && !wellFormed then Some("Please enter a valid email address")
    else if email == "" then Some("Email is required")
    else None
  }

  /**
   * The password rules, in their declared order: `required`, then a `length` of at least 8,
   * counted in UTF-16 code units as JavaScript counts it.
   */
  function PasswordError(password: string): (e: Option<string>)
    ensures e.None? <==> Strings.Utf16Length(password) >= 8
    ensures password == "" ==> e == Some("Password is required")
    ensures 0 < Strings.Utf16Length(password) < 8 ==> e == Some("Password must be at least 8 characters")
  {
    if password == "" then Some("Password is required")
    else if Strings.Utf16Length(password) < 8 then Some("Password must be at least 8 characters")
    else None
  }

  /** Six characters, two of them emoji, make a `length` of 8: the rule lets them through. */
  lemma AstralPasswordLength()
    ensures PasswordError("abcd\U{1F600}\U{1F600}") == None
  {
    var p := "abcd\U{1F600}\U{1F600}";
    assert p[1..][1..][1..][1..][1..][1..] == [];
  }

  /** The errors the schema reports, one per field. */
  datatype FieldErrors = FieldErrors(email: Option<string>, password: Option<string>)

  function Validate(email: string, emailWellFormed: bool, password: string): (r: FieldErrors)
    ensures r == FieldErrors(None, None) <==> email != "" && emailWellFormed && Strings.Utf16Length(password) >= 8
  {
    FieldErrors(EmailError(email, emailWellFormed), PasswordError(password))
  }

  /** `searchParams.get("redirect") || "/dashboard"` */
  function RedirectTarget(redirect: Option<string>): (target: string)
    ensures target != ""
    ensures Strings.Truthy(redirect) ==> target == redirect.value
    ensures !Strings.Truthy(redirect) ==> target == "/dashboard"
  {
    if Strings.Truthy(redirect) then redirect.value else "/dashboard"
  }

  /** The cases the failure chain tells apart. */
  datatype LoginFailure =
    | BadCredentials
    | NotVerified
    | AccountNotFound
    | AccountDisabled
    | TooManyAttempts
    | OtherResponse(serverMessage: string)
    | ServerUnreachable
    | UnexpectedError

  predicate MentionsMissingAccount(m: string) {
    Strings.Includes(m, "not found") || Strings.Includes(m, "no exist")
  }

  predicate MentionsDisabledAccount(m: string) {
    Strings.Includes(m, "disabled") || Strings.Includes(m, "blocked")
  }

  /**
   * The `catch` chain of `onSubmit`: statuses 401 and 403 first, then the message's
   * words, then status 429, then the server's own message.
   */
  function Classify(f: RequestError): (k: LoginFailure)
    ensures k == BadCredentials <==> f.Response? && f.status == 401
    ensures k == NotVerified <==> f.Response? && f.status == 403
    ensures k == AccountNotFound <==>
      f.Response? && f.status != 401 && f.status != 403 && MentionsMissingAccount(ServerMessage(f))
    ensures k == AccountDisabled <==>
      f.Response? && f.status != 401 && f.status != 403
      && !MentionsMissingAccount(ServerMessage(f)) && MentionsDisabledAccount(ServerMessage(f))
    ensures k == TooManyAttempts <==>
      f.Response? && f.status == 429
      && !MentionsMissingAccount(ServerMessage(f)) && !MentionsDisabledAccount(ServerMessage(f))
    ensures k.OtherResponse? <==>
      f.Response? && f.status !in {401, 403, 429}
      && !MentionsMissingAccount(ServerMessage(f)) && !MentionsDisabledAccount(ServerMessage(f))
    ensures k.OtherResponse? ==> k.serverMessage == ServerMessage(f)
    ensures k == ServerUnreachable <==> f.RequestOnly?
    ensures k == UnexpectedError <==> f.Unexpected?
  {
    match f
    case Response(status, _) =>
      var m := ServerMessage(f);
      if status == 401 then BadCredentials
      else if status == 403 then NotVerified
      else if MentionsMissingAccount(m) then AccountNotFound
      else if MentionsDisabledAccount(m) then AccountDisabled
      else if status == 429 then TooManyAttempts
      else OtherResponse(m)
    case RequestOnly => ServerUnreachable
    case Unexpected => UnexpectedError
  }

  /** The alert texts of the failure chain. */
  const BadCredentialsText := "Incorrect email or password. Please check your credentials and try again."
  const NotVerifiedText := "Your account is not verified. Please check your email and verify your account."
  const AccountNotFoundText := "We couldn't find an account with that email. Please check your email or register for a new account."
  const AccountDisabledText := "Your account has been temporarily disabled. Please contact support for assistance."
  const TooManyAttemptsText := "Too many login attempts. Please wait a few minutes before trying again."
  const LoginFailedText := "An error occurred during login. Please try again later."
  const ServerUnreachableText := "Unable to connect to the server. Please check your internet connection and try again."
  const UnexpectedErrorText := "An unexpected error occurred. Please try again later or contact support if the problem persists."

  /** The alert shown for each case. */
  function AlertFor(k: LoginFailure): (a: Alert)
    ensures |a.text| > 0
    ensures a.severity == Warning <==> k.NotVerified? || k.AccountNotFound? || k.TooManyAttempts? || k.ServerUnreachable?
    ensures a.severity != Info && a.severity != Severity.Success
    ensures k.OtherResponse? && k.serverMessage != "" ==> a.text == k.serverMessage
  {
    match k
    case BadCredentials => Alert(BadCredentialsText, Error)
    case NotVerified => Alert(NotVerifiedText, Warning)
    case AccountNotFound => Alert(AccountNotFoundText, Warning)
    case AccountDisabled => Alert(AccountDisabledText, Error)
    case TooManyAttempts => Alert(TooManyAttemptsText, Warning)
    case OtherResponse(m) => Alert(if m != "" then m else LoginFailedText, Error)
    case ServerUnreachable => Alert(ServerUnreachableText, Warning)
    case UnexpectedError => Alert(UnexpectedErrorText, Error)
  }

  /** What `authApi.login` gave back. */
  datatype LoginOutcome = LoggedIn(accessToken: string, user: Auth.User) | Failed(failure: RequestError)

  /** The form's own state around `onSubmit`. */
  class LoginFormState {
    var isLoading: bool
    var error: Option<Alert>
    var fieldErrors: FieldErrors

    constructor()
      ensures !isLoading && error == None && fieldErrors == FieldErrors(None, None)
    {
      isLoading, error, fieldErrors := false, None, FieldErrors(None, None);
    }

    /**
     * Submitting the form: the schema is checked first and the request is sent only when it
     * passes. A login stores the token and the user (in the store and, for the token, in
     * local storage) and navigates to the redirect target; a failure shows its alert and
     * leaves the store alone. Loading ends false either way.
     */
    method Submit(email: string, emailWellFormed: bool, password: string, redirect: Option<string>,
                  outcome: LoginOutcome, store: Auth.AuthStore)
      returns (requested: bool, navigateTo: Option<string>, savedToken: Option<string>)
      modifies this, store
      ensures fieldErrors == Validate(email, emailWellFormed, password)
      ensures requested <==> fieldErrors == FieldErrors(None, None)
      ensures !requested ==>
        && isLoading == old(isLoading) && error == old(error)
        && navigateTo.None? && savedToken.None? && store.Data() == old(store.Data())
      ensures requested ==> !isLoading
      ensures requested && outcome.LoggedIn? ==>
        && error == None
        && navigateTo == Some(RedirectTarget(redirect))
        && savedToken == Some(outcome.accessToken)
        && store.Data() == Auth.AuthState(Some(outcome.user), true, Some(outcome.accessToken))
      ensures requested && outcome.Failed? ==>
        && error == Some(AlertFor(Classify(outcome.failure)))
        && navigateTo.None? && savedToken.None?
        && store.Data() == old(store.Data())
    {
      fieldErrors := Validate(email, emailWellFormed, password);
      requested, navigateTo, savedToken := false, None, None;
      if fieldErrors != FieldErrors(None, None) {
        return;
      }
      requested := true;
      isLoading := true;
      error := None;
      match outcome {
        case LoggedIn(token, user) =>
          store.SetAccessToken(Some(token));
          store.SetUser(Some(user));
          savedToken := Some(token);
          navigateTo := Some(RedirectTarget(redirect));
        case Failed(f) =>
          error := Some(AlertFor(Classify(f)));
      }
      isLoading := false;
    }
  }
}
