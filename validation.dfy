/**
 * The backend's credential validators. Lengths are byte lengths of the
 * UTF-8 form, as Rust's `str::len` counts them.
 */
module Validation {
  import opened Wrappers
  import opened Text
  import opened Encoding
  import opened ApiErrors

  const UsernameLengthMessage: string := "用户名长度必须在 3-32 个字符之间"
  const UsernameFormatMessage: string := "用户名只能包含字母、数字、下划线和连字符"
  const PasswordTooShortMessage: string := "密码长度至少为 4 个字符"
  const PasswordTooLongMessage: string := "密码长度不能超过 128 个字符"

  /** One character of the class `[a-zA-Z0-9_-]`. */
  predicate IsUsernameChar(c: char) { IsAlnum(c) || c == '_' || c == '-' }

  /** The whole text matches `^[a-zA-Z0-9_-]+$`. */
  predicate MatchesUsernameFormat(s: string) {
    |s| >= 1 && forall i :: 0 <= i < |s| ==> IsUsernameChar(s[i])
  }

  /** `validate_username`: the length check comes first, then the format check. */
  function ValidateUsername(u: string): (r: Result<(), ApiError>)
    ensures r.Ok? <==> 3 <= Utf8Length(u) <= 32 && MatchesUsernameFormat(u)
    ensures !(3 <= Utf8Length(u) <= 32) ==> r == Err(BadRequest(UsernameLengthMessage))
    ensures 3 <= Utf8Length(u) <= 32 && !MatchesUsernameFormat(u) ==> r == Err(BadRequest(UsernameFormatMessage))
  {
    var n := Utf8Length(u);
    if n < 3 || n > 32 then Err(BadRequest(UsernameLengthMessage))
    else if !MatchesUsernameFormat(u) then Err(BadRequest(UsernameFormatMessage))
    else Ok(())
  }

  /** `validate_password`: only the length is checked. */
  function ValidatePassword(p: string): (r: Result<(), ApiError>)
    ensures r.Ok? <==> 4 <= Utf8Length(p) <= 128
    ensures Utf8Length(p) < 4 ==> r == Err(BadRequest(PasswordTooShortMessage))
    ensures Utf8Length(p) > 128 ==> r == Err(BadRequest(PasswordTooLongMessage))
  {
    var n := Utf8Length(p);
    if n < 4 then Err(BadRequest(PasswordTooShortMessage))
    else if n > 128 then Err(BadRequest(PasswordTooLongMessage))
    else Ok(())
  }

  /** An accepted username is ASCII, so it has between 3 and 32 characters. */
  lemma AcceptedUsernameLength(u: string)
    requires ValidateUsername(u).Ok?
    ensures 3 <= |u| <= 32
  {
    Utf8LengthAscii(u);
  }

  /** A password is judged by its length alone: two of equal byte length share a verdict. */
  lemma PasswordContentIrrelevant(p: string, q: string)
    requires Utf8Length(p) == Utf8Length(q)
    ensures ValidatePassword(p) == ValidatePassword(q)
  {
  }

  /** A username judged on an ASCII text: its character count is its byte length. */
  lemma UsernameVerdictOfAscii(u: string, ok: bool)
    requires forall i :: 0 <= i < |u| ==> u[i] as int < 0x80
    requires ok <==> 3 <= |u| <= 32 && MatchesUsernameFormat(u)
    ensures ValidateUsername(u).Ok? == ok
  {
    Utf8LengthAscii(u);
  }

  /** The accepted usernames of the unit tests. */
  lemma UsernameTestsAccepted(a: string, b: string, c: string)
    requires a == "admin" && b == "user_123" && c == "test-user"
    ensures ValidateUsername(a).Ok? && ValidateUsername(b).Ok? && ValidateUsername(c).Ok?
  {
    UsernameVerdictOfAscii(a, true);
    UsernameVerdictOfAscii(b, true);
    UsernameVerdictOfAscii(c, true);
  }

  /** The rejected usernames of the unit tests: too short, too long, '@' and ' '. */
  lemma UsernameTestsRejected(a: string, b: string, c: string, d: string)
    requires a == "ab" && b == seq(33, _ => 'a') && c == "user@123" && d == "user 123"
    ensures ValidateUsername(a) == Err(BadRequest(UsernameLengthMessage))
    ensures ValidateUsername(b) == Err(BadRequest(UsernameLengthMessage))
    ensures ValidateUsername(c) == Err(BadRequest(UsernameFormatMessage))
    ensures ValidateUsername(d) == Err(BadRequest(UsernameFormatMessage))
  {
    Utf8LengthAscii(a);
    Utf8LengthAscii(b);
    Utf8LengthAscii(c);
    assert !IsUsernameChar(c[4]);
    Utf8LengthAscii(d);
    assert !IsUsernameChar(d[4]);
  }

  /** The password cases of the unit tests. */
  lemma PasswordTests(a: string, b: string, c: string, d: string, e: string)
    requires a == "1234" && b == "admin" && c == "password123"
    requires d == "123" && e == seq(129, _ => 'a')
    ensures ValidatePassword(a).Ok? && ValidatePassword(b).Ok? && ValidatePassword(c).Ok?
    ensures ValidatePassword(d) == Err(BadRequest(PasswordTooShortMessage))
    ensures ValidatePassword(e) == Err(BadRequest(PasswordTooLongMessage))
  {
    Utf8LengthAscii(a);
    Utf8LengthAscii(b);
    Utf8LengthAscii(c);
    Utf8LengthAscii(d);
    Utf8LengthAscii(e);
  }

  /** Length before format: a too long name with an illegal character reports the length. */
  lemma LengthCheckedFirst(u: string)
    requires |u| == 40 && forall i :: 0 <= i < |u| ==> u[i] == '@'
    ensures ValidateUsername(u) == Err(BadRequest(UsernameLengthMessage))
  {
    Utf8LengthAscii(u);
  }
}
