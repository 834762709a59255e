/**
 * The server-side validators of the registration and two-factor forms: the
 * username field and its clean hook, the password clean hook, and the token
 * field. Each runs a fixed sequence of checks; the first one that fails
 * decides the error.
 */
module Forms {
  import opened Common

  const UsernameMinLength := 6
  const UsernameMaxLength := 150
  const PasswordMinLength := 8
  const TokenMaxLength := 6
  /** The characters of the password's special-character class. */
  const SpecialCharacters := "!@#$%^&*(),.?\":{}|<>"

  datatype FieldError =
    | Required                 // the field is empty
    | MinLength(min: nat)      // the field's min_length validator
    | MaxLength(max: nat)      // the field's max_length validator
    | UsernameTooShort         // the username clean hook
    | PasswordTooShort
    | PasswordWithoutLetter
    | PasswordWithoutDigit
    | PasswordWithoutSpecial

  predicate IsAsciiLetter(c: char) { 'a' <= c <= 'z' || 'A' <= c <= 'Z' }
  predicate IsDigit(c: char) { '0' <= c <= '9' }
  predicate IsSpecial(c: char) { c in SpecialCharacters }

  ghost predicate Contains(s: string, p: char -> bool) {
    exists i :: 0 <= i < |s| && p(s[i])
  }

  /** A left-to-right scan for a character of the class `p`, as a regular-expression search does. */
  function Search(s: string, p: char -> bool): (found: bool)
    ensures found <==> Contains(s, p)
  {
    if s == [] then false
    else if p(s[0]) then true
    else
      var found := Search(s[1..], p);
      assert Contains(s[1..], p) ==> Contains(s, p) by {
        if Contains(s[1..], p) {
          var i :| 0 <= i < |s[1..]| && p(s[1..][i]);
          assert s[i + 1] == s[1..][i];
        }
      }
      assert Contains(s, p) ==> Contains(s[1..], p) by {
        if Contains(s, p) {
          var i :| 0 <= i < |s| && p(s[i]);
          assert i != 0;
          assert s[1..][i - 1] == s[i];
        }
      }
      found
  }

  /** The username field itself: required, then at least 6 and at most 150 characters. */
  function UsernameField(value: string): (r: Result<string, FieldError>)
    ensures r.Ok? <==> UsernameMinLength <= |value| <= UsernameMaxLength
    ensures r.Ok? ==> r.value == value
  {
    if value == [] then Err(Required)
    else if |value| < UsernameMinLength then Err(MinLength(UsernameMinLength))
    else if |value| > UsernameMaxLength then Err(MaxLength(UsernameMaxLength))
    else Ok(value)
  }

  /** The username clean hook: its own check for fewer than 6 characters. */
  function CleanUsername(username: string): Result<string, FieldError> {
    if |username| < UsernameMinLength then Err(UsernameTooShort) else Ok(username)
  }

  /**
   * The field, then the hook on what the field accepted. A username is
   * accepted exactly when its length is 6 to 150, and the hook's own check
   * never decides, because the field has already rejected every short name.
   */
  function ValidateUsername(value: string): (r: Result<string, FieldError>)
    ensures r.Ok? <==> UsernameMinLength <= |value| <= UsernameMaxLength
    ensures r.Ok? ==> r.value == value
    ensures |value| < UsernameMinLength ==> r.Err? && r.error in {Required, MinLength(UsernameMinLength)}
    ensures r != Err(UsernameTooShort)
  {
    match UsernameField(value)
    case Err(e) => Err(e)
    case Ok(v) => CleanUsername(v)
  }

  /**
   * The password clean hook: length, then a letter, then a digit, then a
   * special character; the first check that fails decides the error, and an
   * accepted password is returned unchanged.
   */
  function CleanPassword1(password: string): (r: Result<string, FieldError>)
    ensures |password| < PasswordMinLength ==> r == Err(PasswordTooShort)
    ensures |password| >= PasswordMinLength && !Contains(password, IsAsciiLetter)
            ==> r == Err(PasswordWithoutLetter)
    ensures |password| >= PasswordMinLength && Contains(password, IsAsciiLetter)
            && !Contains(password, IsDigit)
            ==> r == Err(PasswordWithoutDigit)
    ensures |password| >= PasswordMinLength && Contains(password, IsAsciiLetter)
            && Contains(password, IsDigit) && !Contains(password, IsSpecial)
            ==> r == Err(PasswordWithoutSpecial)
    ensures r.Ok? <==> |password| >= PasswordMinLength && Contains(password, IsAsciiLetter)
                       && Contains(password, IsDigit) && Contains(password, IsSpecial)
    ensures r.Ok? ==> r.value == password
  {
    if |password| < PasswordMinLength then Err(PasswordTooShort)
    else if !Search(password, IsAsciiLetter) then Err(PasswordWithoutLetter)
    else if !Search(password, IsDigit) then Err(PasswordWithoutDigit)
    else if !Search(password, IsSpecial) then Err(PasswordWithoutSpecial)
    else Ok(password)
  }

  /**
   * The password field: required, then the clean hook. The empty password is
   * reported as missing rather than as too short.
   */
  function ValidatePassword1(value: string): (r: Result<string, FieldError>)
    ensures value == [] ==> r == Err(Required)
    ensures r.Ok? <==> |value| >= PasswordMinLength && Contains(value, IsAsciiLetter)
                       && Contains(value, IsDigit) && Contains(value, IsSpecial)
    ensures r.Ok? ==> r.value == value
  {
    if value == [] then Err(Required) else CleanPassword1(value)
  }

  /**
   * The two-factor token field: required and at most 6 characters. Nothing on
   * the server asks for digits or for exactly six of them.
   */
  function CleanToken(value: string): (r: Result<string, FieldError>)
    ensures r.Ok? <==> 1 <= |value| <= TokenMaxLength
    ensures r.Ok? ==> r.value == value
  {
    if value == [] then Err(Required)
    else if |value| > TokenMaxLength then Err(MaxLength(TokenMaxLength))
    else Ok(value)
  }

  /** The six-digit pattern is not checked on the server: short and non-numeric tokens pass. */
  lemma TokenPatternNotEnforced()
    ensures CleanToken("12a") == Ok("12a")
    ensures CleanToken("1") == Ok("1")
    ensures CleanToken("1234567").Err?
  {
  }
}
