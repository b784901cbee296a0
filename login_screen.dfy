// The sign-in / registration form: its fields, the order of the checks in
// `validateAndSubmit`, what it submits, and the mode toggle. The e-mail
// pattern (Android's `Patterns.EMAIL_ADDRESS`) is a parameter.

module LoginScreen {
  import opened Model
  import opened Text

  const EmailRequired: string := "Email is required."
  const EmailInvalid: string := "Invalid email address."
  const PasswordTooShort: string := "Password must be at least 6 characters."
  const UsernameRequired: string := "Username is required."

  const MinPasswordLength: nat := 6

  /** The view-model call a valid form makes. */
  datatype Submission =
    | RegisterCall(email: string, password: string, username: string, householdName: string)
    | LoginCall(email: string, password: string)

  /**
   * The message of the first failing check, in the form's order: e-mail
   * present after trimming, e-mail well-formed, password long enough
   * (measured untrimmed), and, when registering, a username present after
   * trimming. None when every check passes.
   */
  function ValidationError(email: string, password: string, username: string, registerMode: bool,
                           emailMatches: string -> bool): (err: Option<string>)
    ensures err == Some(EmailRequired) <==> Trim(email) == []
    ensures err == Some(EmailInvalid) <==> Trim(email) != [] && !emailMatches(Trim(email))
    ensures err == Some(PasswordTooShort) <==>
      Trim(email) != [] && emailMatches(Trim(email)) && |password| < MinPasswordLength
    ensures err == Some(UsernameRequired) <==>
      Trim(email) != [] && emailMatches(Trim(email)) && |password| >= MinPasswordLength
      && registerMode && Trim(username) == []
    ensures err.None? <==>
      Trim(email) != [] && emailMatches(Trim(email)) && |password| >= MinPasswordLength
      && (registerMode ==> Trim(username) != [])
  {
    var trimmedEmail := Trim(email);
    var trimmedUsername := Trim(username);
    if trimmedEmail == [] then Some(EmailRequired)
    else if !emailMatches(trimmedEmail) then Some(EmailInvalid)
    else if |password| < MinPasswordLength then Some(PasswordTooShort)
    else if registerMode && trimmedUsername == [] then Some(UsernameRequired)
    else None
  }

  /** The emptiness checks are blankness checks on the raw fields. */
  lemma ValidationErrorBlank(email: string, password: string, username: string, registerMode: bool,
                             emailMatches: string -> bool)
    ensures ValidationError(email, password, username, registerMode, emailMatches) == Some(EmailRequired)
      <==> IsBlank(email)
    ensures ValidationError(email, password, username, registerMode, emailMatches) == Some(UsernameRequired)
      <==> !IsBlank(email) && emailMatches(Trim(email)) && |password| >= MinPasswordLength
           && registerMode && IsBlank(username)
  {
    TrimEmptyIffBlank(email);
    TrimEmptyIffBlank(username);
  }

  /** The call a form that passed its checks makes: trimmed e-mail, username and household, raw password. */
  function SubmissionFor(email: string, password: string, username: string, household: string,
                         registerMode: bool): (s: Submission)
    ensures registerMode ==> s == RegisterCall(Trim(email), password, Trim(username), Trim(household))
    ensures !registerMode ==> s == LoginCall(Trim(email), password)
  {
    if registerMode then RegisterCall(Trim(email), password, Trim(username), Trim(household))
    else LoginCall(Trim(email), password)
  }

  /** In login mode the username field plays no part in validation. */
  lemma UsernameIgnoredWhenLoggingIn(email: string, password: string, u1: string, u2: string,
                                     emailMatches: string -> bool)
    ensures ValidationError(email, password, u1, false, emailMatches)
         == ValidationError(email, password, u2, false, emailMatches)
  {
  }

  /** A submitted registration never carries a blank username, and always a well-formed e-mail. */
  lemma SubmittedRegistrationIsComplete(email: string, password: string, username: string, household: string,
                                        emailMatches: string -> bool)
    requires ValidationError(email, password, username, true, emailMatches).None?
    ensures var s := SubmissionFor(email, password, username, household, true);
      && s.username != [] && s.email != [] && emailMatches(s.email)
      && |s.password| >= MinPasswordLength
      && !IsWhitespace(s.username[0]) && !IsWhitespace(s.username[|s.username| - 1])
  {
    var u := Trim(username);
    assert u != [] && Trim(email) != [] && emailMatches(Trim(email)) && |password| >= MinPasswordLength;
    TrimEnds(username);
  }

  /** A household field of only spaces reaches registration as a blank name, so no household is linked. */
  lemma BlankHouseholdFieldIsBlankName(household: string)
    requires IsBlank(household)
    ensures Trim(household) == []
  {
    TrimEmptyIffBlank(household);
  }

  // Helpers for the illustration `PasswordLengthCountsSpaces` below.

  lemma TrimStartSpace(s: string)
    ensures TrimStart([' '] + s) == TrimStart(s)
  {
    assert ([' '] + s)[1..] == s;
  }

  lemma TrimSpacedLetter()
    ensures Trim("     x") == "x"
  {
    var x := "x";
    assert !IsWhitespace(x[0]);
    assert TrimStart(x) == x && TrimEnd(x) == x;
    var s1 := [' '] + x;
    var s2 := [' '] + s1;
    var s3 := [' '] + s2;
    var s4 := [' '] + s3;
    var s5 := [' '] + s4;
    TrimStartSpace(x);
    TrimStartSpace(s1);
    TrimStartSpace(s2);
    TrimStartSpace(s3);
    TrimStartSpace(s4);
    assert Trim(s5) == x;
    assert "     x" == s5;
  }

  lemma TrimSampleEmail()
    ensures Trim("a@b.co") == "a@b.co" && !IsBlank("a@b.co")
  {
    var e := "a@b.co";
    assert !IsWhitespace(e[0]) && !IsWhitespace(e[|e| - 1]);
  }

  /** The password check sees only the length of the raw field: two passwords of one length are judged alike. */
  lemma PasswordOnlyLengthMatters(email: string, p1: string, p2: string, username: string, registerMode: bool,
                                  emailMatches: string -> bool)
    requires |p1| == |p2|
    ensures ValidationError(email, p1, username, registerMode, emailMatches)
         == ValidationError(email, p2, username, registerMode, emailMatches)
  {
  }

  /**
   * An illustration: the length check counts surrounding spaces, so five
   * spaces and one letter pass it, though they trim to one character.
   */
  lemma PasswordLengthCountsSpaces(emailMatches: string -> bool)
    requires emailMatches("a@b.co")
    ensures ValidationError("a@b.co", "     x", "", false, emailMatches).None?
    ensures Trim("     x") == "x"
  {
    TrimSampleEmail();
    TrimEmptyIffBlank("a@b.co");
    TrimSpacedLetter();
  }

  class LoginForm {
    var email: string
    var password: string
    var username: string
    var household: string
    var isRegisterMode: bool
    var localError: Option<string>

    constructor ()
      ensures email == "" && password == "" && username == "" && household == ""
      ensures !isRegisterMode && localError == None
    {
      email, password, username, household := "", "", "", "";
      isRegisterMode, localError := false, None;
    }

    /**
     * `validateAndSubmit`: clears the error, sets the first failing check's
     * message, or else returns the view-model call to make.
     */
    method ValidateAndSubmit(emailMatches: string -> bool) returns (call: Option<Submission>)
      modifies this
      ensures localError == ValidationError(email, password, username, isRegisterMode, emailMatches)
      ensures localError.None? ==> call == Some(SubmissionFor(email, password, username, household, isRegisterMode))
      ensures localError.Some? ==> call == None
      ensures email == old(email) && password == old(password) && username == old(username)
      ensures household == old(household) && isRegisterMode == old(isRegisterMode)
    {
      var trimmedEmail := Trim(email);
      var trimmedUsername := Trim(username);
      // The pattern is a pure test, so it may be applied before the error is cleared.
      var matches := trimmedEmail != [] && emailMatches(trimmedEmail);
      localError := None;
      if trimmedEmail == [] {
        localError := Some(EmailRequired);
      } else if !matches {
        localError := Some(EmailInvalid);
      } else if |password| < MinPasswordLength {
        localError := Some(PasswordTooShort);
      } else if isRegisterMode && trimmedUsername == [] {
        localError := Some(UsernameRequired);
      } else if isRegisterMode {
        return Some(RegisterCall(trimmedEmail, password, trimmedUsername, Trim(household)));
      } else {
        return Some(LoginCall(trimmedEmail, password));
      }
      return None;
    }

    /** The "Register here" / "Login here" button: flips the mode and clears the error. */
    method ToggleMode()
      modifies this
      ensures isRegisterMode == !old(isRegisterMode) && localError == None
      ensures email == old(email) && password == old(password) && username == old(username)
      ensures household == old(household)
    {
      isRegisterMode := !isRegisterMode;
      localError := None;
    }
  }
}
