/**
 * The registration form: the schema rules for the user name, the password and its
 * confirmation, and the nested chain that turns a failed registration into an alert.
 */
module RegisterForm {
  import opened Wrappers
  import Strings
  import opened Alerts
  import LoginForm

  predicate IsLower(c: char) { 'a' <= c <= 'z' }
  predicate IsUpper(c: char) { 'A' <= c <= 'Z' }
  /** `@$!%*?&` */
  predicate IsSpecial(c: char) { c in "@$!%*?&" }

  /** `[a-zA-Z0-9_]` */
  predicate IsUserNameChar(c: char) {
    IsLower(c) || IsUpper(c) || Strings.IsDigit(c) || c == '_'
  }

  /**
   * The user name rules, in their declared order: `required`, a `length` of at least 3 and at
   * most 30 (in UTF-16 code units), then `^[a-zA-Z0-9_]+$`.
   */
  function UserNameError(userName: string): (e: Option<string>)
    ensures e.None? <==>
      3 <= Strings.Utf16Length(userName) <= 30 && forall i :: 0 <= i < |userName| ==> IsUserNameChar(userName[i])
    ensures userName == "" ==> e == Some("Username is required")
    ensures 0 < Strings.Utf16Length(userName) < 3 ==> e == Some("Username must be at least 3 characters")
    ensures Strings.Utf16Length(userName) > 30 ==> e == Some("Username cannot exceed 30 characters")
  {
    if userName == "" then Some("Username is required")
    else if Strings.Utf16Length(userName) < 3 then Some("Username must be at least 3 characters")
    else if Strings.Utf16Length(userName) > 30 then Some("Username cannot exceed 30 characters")
    else if exists i :: 0 <= i < |userName| && !IsUserNameChar(userName[i]) then
      Some("Username can only contain letters, numbers and underscore")
    else None
  }

  /** Two emoji have a `length` of 4, so they pass both length rules and fail only the pattern. */
  lemma AstralUserName()
    ensures UserNameError("\U{1F600}\U{1F600}") == Some("Username can only contain letters, numbers and underscore")
  {
    var u := "\U{1F600}\U{1F600}";
    assert u[1..][1..] == [];
    assert !IsUserNameChar(u[0]);
  }

  /** Every accepted user name is plain ASCII, so its `length` is its number of characters. */
  lemma UserNameLength(userName: string)
    requires UserNameError(userName).None?
    ensures 3 <= |userName| <= 30
  {
    Strings.Utf16LengthBmp(userName);
  }

  /** The characters `.` does not match: line feed, carriage return, line and paragraph separators. */
  predicate IsLineTerminator(c: char) {
    c == '\n' || c == '\r' || c == '\U{2028}' || c == '\U{2029}'
  }

  /** The text up to the first line terminator: what `.*` can run over from the start. */
  function FirstLine(s: string): (line: string)
    ensures Strings.StartsWith(s, line)
    ensures forall i :: 0 <= i < |line| ==> !IsLineTerminator(line[i])
    ensures |line| < |s| ==> IsLineTerminator(s[|line|])
  {
    if s == [] || IsLineTerminator(s[0]) then []
    else [s[0]] + FirstLine(s[1..])
  }

  /** A lookahead `(?=.*[class])` at the start of `s`: some character of the class is reached without crossing a line terminator. */
  predicate LookaheadFinds(s: string, inClass: char -> bool) {
    exists i :: 0 <= i < |s| && inClass(s[i]) && forall j :: 0 <= j < i ==> !IsLineTerminator(s[j])
  }

  /** `/^(?=.*[a-z])(?=.*[A-Z])(?=.*\d)(?=.*[@$!%*?&])[A-Za-z\d@$!%*?&]/`, computed on the first line. */
  predicate PasswordPattern(p: string) {
    var line := FirstLine(p);
    && (exists i :: 0 <= i < |line| && IsLower(line[i]))
    && (exists i :: 0 <= i < |line| && IsUpper(line[i]))
    && (exists i :: 0 <= i < |line| && Strings.IsDigit(line[i]))
    && (exists i :: 0 <= i < |line| && IsSpecial(line[i]))
    && |p| > 0 && (IsLower(p[0]) || IsUpper(p[0]) || Strings.IsDigit(p[0]) || IsSpecial(p[0]))
  }

  /** A character class occurs in the first line exactly when the lookahead for it succeeds. */
  lemma {:induction false} FirstLineLookahead(s: string, inClass: char -> bool)
    requires forall c :: inClass(c) ==> !IsLineTerminator(c)
    ensures (exists i :: 0 <= i < |FirstLine(s)| && inClass(FirstLine(s)[i])) <==> LookaheadFinds(s, inClass)
  {
    var line := FirstLine(s);
    if exists i :: 0 <= i < |line| && inClass(line[i]) {
      var i :| 0 <= i < |line| && inClass(line[i]);
      forall j | 0 <= j <= i
        ensures s[j] == line[j]
      {
        assert s[..|line|][j] == line[j];
      }
      assert LookaheadFinds(s, inClass);
    }
    if LookaheadFinds(s, inClass) {
      var i :| 0 <= i < |s| && inClass(s[i]) && forall j :: 0 <= j < i ==> !IsLineTerminator(s[j]);
      assert i != |line|;
      assert s[..|line|][i] == line[i];
      assert 0 <= i < |FirstLine(s)| && inClass(FirstLine(s)[i]);
    }
  }

  /** The password pattern, stated as the regular expression means it. */
  lemma PasswordPatternMeaning(p: string)
    ensures PasswordPattern(p) <==>
      && LookaheadFinds(p, IsLower)
      && LookaheadFinds(p, IsUpper)
      && LookaheadFinds(p, Strings.IsDigit)
      && LookaheadFinds(p, IsSpecial)
      && |p| > 0 && (IsLower(p[0]) || IsUpper(p[0]) || Strings.IsDigit(p[0]) || IsSpecial(p[0]))
  {
    FirstLineLookahead(p, IsLower);
    FirstLineLookahead(p, IsUpper);
    FirstLineLookahead(p, Strings.IsDigit);
    FirstLineLookahead(p, IsSpecial);
  }

  /**
   * The password rules, in their declared order: `required`, a `length` of at least 8 (in
   * UTF-16 code units), then the pattern. The pattern has no `u` flag and so reads code
   * units too; its classes are all ASCII, which no half of a surrogate pair falls in, so
   * reading characters gives the same verdict.
   */
  function PasswordError(password: string): (e: Option<string>)
    ensures e.None? <==> Strings.Utf16Length(password) >= 8 && PasswordPattern(password)
    ensures password == "" ==> e == Some("Password is required")
    ensures 0 < Strings.Utf16Length(password) < 8 ==> e == Some("Password must be at least 8 characters")
  {
    if password == "" then Some("Password is required")
    else if Strings.Utf16Length(password) < 8 then Some("Password must be at least 8 characters")
    else if !PasswordPattern(password) then
      Some("Password must contain at least one uppercase letter, one lowercase letter, one number and one special character")
    else None
  }

  /** A string without line terminators is its own first line. */
  lemma {:induction false} FirstLineWhole(s: string)
    requires forall i :: 0 <= i < |s| ==> !IsLineTerminator(s[i])
    ensures FirstLine(s) == s
  {
    if s != [] {
      FirstLineWhole(s[1..]);
      assert [s[0]] + s[1..] == s;
    }
  }

  /** The pattern is anchored only at the start: after a first allowed character anything may follow, spaces included. */
  lemma SpaceAfterFirstCharacter()
    ensures PasswordError("Aa1@ ~ ~") == None
  {
    var p := "Aa1@ ~ ~";
    assert forall i :: 0 <= i < |p| ==> !IsLineTerminator(p[i]);
    FirstLineWhole(p);
    assert p[1..][1..][1..][1..][1..][1..][1..][1..] == [];
    assert IsUpper(p[0]) && IsLower(p[1]) && Strings.IsDigit(p[2]) && IsSpecial(p[3]);
    assert PasswordPattern(p);
  }

  /** Four characters and two emoji make a `length` of 8: the password is accepted. */
  lemma AstralPassword()
    ensures PasswordError("Aa1@\U{1F600}\U{1F600}") == None
  {
    var p := "Aa1@\U{1F600}\U{1F600}";
    assert p[1..][1..][1..][1..][1..][1..] == [];
    assert forall i :: 0 <= i < |p| ==> !IsLineTerminator(p[i]);
    FirstLineWhole(p);
    assert IsUpper(p[0]) && IsLower(p[1]) && Strings.IsDigit(p[2]) && IsSpecial(p[3]);
    assert PasswordPattern(p);
  }

  /** The confirmation rules, in their declared order: equal to the password, then `required`. */
  function ConfirmPasswordError(password: string, confirmPassword: string): (e: Option<string>)
    ensures e.None? <==> confirmPassword == password && confirmPassword != ""
    ensures confirmPassword != password ==> e == Some("Passwords must match")
  {
    if confirmPassword != password then Some("Passwords must match")
    else if confirmPassword == "" then Some("Please confirm your password")
    else None
  }

  /** The errors the schema reports, one per field. */
  datatype FieldErrors = FieldErrors(
    userName: Option<string>, email: Option<string>, password: Option<string>, confirmPassword: Option<string>)

  const NoErrors := FieldErrors(None, None, None, None)

  /** The schema passes exactly when every field meets its rules; the email rules are the login form's. */
  function Validate(userName: string, email: string, emailWellFormed: bool, password: string, confirmPassword: string)
    : (r: FieldErrors)
    ensures r == NoErrors <==>
      && 3 <= Strings.Utf16Length(userName) <= 30 && (forall i :: 0 <= i < |userName| ==> IsUserNameChar(userName[i]))
      && email != "" && emailWellFormed
      && Strings.Utf16Length(password) >= 8 && PasswordPattern(password)
      && confirmPassword == password
  {
    FieldErrors(UserNameError(userName), LoginForm.EmailError(email, emailWellFormed),
                PasswordError(password), ConfirmPasswordError(password, confirmPassword))
  }

  /** The cases the failure chain tells apart. */
  datatype RegisterFailure =
    | EmailTaken
    | UserNameTaken
    | AccountExists
    | PasswordRejected
    | EmailRejected
    | DetailsRejected
    | OtherResponse(serverMessage: string)
    | ServerUnreachable
    | UnexpectedError

  /** The outer test of the chain: the account already exists. */
  predicate IsConflict(f: RequestError)
    requires f.Response?
  {
    Strings.Includes(ServerMessage(f), "already exists") || f.status == 409
  }

  predicate MentionsUserName(m: string) {
    Strings.Includes(m, "userName") || Strings.Includes(m, "username")
  }

  /**
   * The `catch` chain of `onSubmit`: a conflict first (by message or status 409), its text
   * chosen by what the message names; then status 400, likewise; then the server's message.
   */
  function Classify(f: RequestError): (k: RegisterFailure)
    ensures k == EmailTaken <==>
      f.Response? && IsConflict(f) && Strings.Includes(ServerMessage(f), "email")
    ensures k == UserNameTaken <==>
      f.Response? && IsConflict(f) && !Strings.Includes(ServerMessage(f), "email") && MentionsUserName(ServerMessage(f))
    ensures k == AccountExists <==>
      f.Response? && IsConflict(f) && !Strings.Includes(ServerMessage(f), "email") && !MentionsUserName(ServerMessage(f))
    ensures k == PasswordRejected <==>
      f.Response? && !IsConflict(f) && f.status == 400 && Strings.Includes(ServerMessage(f), "password")
    ensures k == EmailRejected <==>
      f.Response? && !IsConflict(f) && f.status == 400
      && !Strings.Includes(ServerMessage(f), "password") && Strings.Includes(ServerMessage(f), "email")
    ensures k == DetailsRejected <==>
      f.Response? && !IsConflict(f) && f.status == 400
      && !Strings.Includes(ServerMessage(f), "password") && !Strings.Includes(ServerMessage(f), "email")
    ensures k.OtherResponse? <==> f.Response? && !IsConflict(f) && f.status != 400
    ensures k.OtherResponse? ==> k.serverMessage == ServerMessage(f)
    ensures k == ServerUnreachable <==> f.RequestOnly?
    ensures k == UnexpectedError <==> f.Unexpected?
  {
    match f
    case Response(status, _) =>
      var m := ServerMessage(f);
      if IsConflict(f) then
        if Strings.Includes(m, "email") then EmailTaken
        else if MentionsUserName(m) then UserNameTaken
        else AccountExists
      else if status == 400 then
        if Strings.Includes(m, "password") then PasswordRejected
        else if Strings.Includes(m, "email") then EmailRejected
        else DetailsRejected
      else OtherResponse(m)
    case RequestOnly => ServerUnreachable
    case Unexpected => UnexpectedError
  }

  /** The alert texts of the registration. */
  const RegisteredText := "Registration successful! Please check your email to verify your account."
  const EmailTakenText := "This email is already registered. Please use a different email or try to log in."
  const UserNameTakenText := "This username is already taken. Please choose a different username."
  const AccountExistsText := "An account with these details already exists. Please try logging in instead."
  const PasswordRejectedText := "Your password doesn't meet our security requirements. Please choose a stronger password."
  const EmailRejectedText := "The email address you provided is invalid. Please check and try again."
  const DetailsRejectedText := "Please check your information and try again."
  const RegistrationFailedText := "Registration failed. Please try again later."
  const ServerUnreachableText := "Unable to connect to the server. Please check your internet connection and try again."
  const UnexpectedErrorText := "An unexpected error occurred. Please try again later."

  /** The alert shown for each case: conflicts and an unreachable server warn, every other failure is an error. */
  function AlertFor(k: RegisterFailure): (a: Alert)
    ensures |a.text| > 0
    ensures a.severity == Warning <==> k.EmailTaken? || k.UserNameTaken? || k.AccountExists? || k.ServerUnreachable?
    ensures a.severity != Info && a.severity != Severity.Success
    ensures k.OtherResponse? && k.serverMessage != "" ==> a.text == k.serverMessage
  {
    match k
    case EmailTaken => Alert(EmailTakenText, Warning)
    case UserNameTaken => Alert(UserNameTakenText, Warning)
    case AccountExists => Alert(AccountExistsText, Warning)
    case PasswordRejected => Alert(PasswordRejectedText, Error)
    case EmailRejected => Alert(EmailRejectedText, Error)
    case DetailsRejected => Alert(DetailsRejectedText, Error)
    case OtherResponse(m) => Alert(if m != "" then m else RegistrationFailedText, Error)
    case ServerUnreachable => Alert(ServerUnreachableText, Warning)
    case UnexpectedError => Alert(UnexpectedErrorText, Error)
  }

  /** What `authApi.register` gave back. */
  datatype RegisterOutcome = Registered | Failed(failure: RequestError)

  /** The form's own state around `onSubmit`. */
  class RegisterFormState {
    var isLoading: bool
    var error: Option<Alert>
    var fieldErrors: FieldErrors

    constructor()
      ensures !isLoading && error == None && fieldErrors == NoErrors
    {
      isLoading, error, fieldErrors := false, None, NoErrors;
    }

    /**
     * Submitting the form: the schema is checked first and the request is sent only when it
     * passes. A registration shows the success alert and, after a delay, moves to the
     * confirmation page for the (already encoded) email; a failure shows its alert.
     * Loading ends false either way.
     */
    method Submit(userName: string, email: string, emailWellFormed: bool, password: string, confirmPassword: string,
                  encodedEmail: string, outcome: RegisterOutcome)
      returns (requested: bool, navigateTo: Option<string>)
      modifies this
      ensures fieldErrors == Validate(userName, email, emailWellFormed, password, confirmPassword)
      ensures requested <==> fieldErrors == NoErrors
      ensures !requested ==> isLoading == old(isLoading) && error == old(error) && navigateTo.None?
      ensures requested ==> !isLoading
      ensures requested && outcome.Registered? ==>
        error == Some(Alert(RegisteredText, Severity.Success)) && navigateTo == Some("/confirm?email=" + encodedEmail)
      ensures requested && outcome.Failed? ==>
        error == Some(AlertFor(Classify(outcome.failure))) && navigateTo.None?
    {
      fieldErrors := Validate(userName, email, emailWellFormed, password, confirmPassword);
      requested, navigateTo := false, None;
      if fieldErrors != NoErrors {
        return;
      }
      requested := true;
      isLoading := true;
      error := None;
      match outcome {
        case Registered =>
          error := Some(Alert(RegisteredText, Severity.Success));
          navigateTo := Some("/confirm?email=" + encodedEmail);
        case Failed(f) =>
          error := Some(AlertFor(Classify(f)));
      }
      isLoading := false;
    }
  }
}
