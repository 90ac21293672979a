/** Form validators and the phone formatter (src/shared/utils/validation.ts).
    Each validator answers `None` for an acceptable value or `Some(message)`.
    The regular expressions are written out as predicates over characters;
    `\s` is `IsSpace` and `\d` is `IsDigit`. */
module Validation {
  import opened Wrappers
  import opened Strings
  import opened Seqs

  const UsernameRequired := "Имя пользователя обязательно"
  const UsernameLength := "Имя пользователя должно содержать от 1 до 50 символов"
  const EmailRequired := "Email обязателен"
  const EmailInvalid := "Введите корректный email"
  const PhoneInvalid := "Введите телефон в формате +7 (XXX) XXX-XX-XX"
  const PasswordRequired := "Пароль обязателен"
  const PasswordTooShort := "Пароль должен содержать минимум 8 символов"
  const PasswordNeedsUpper := "Пароль должен содержать заглавные буквы"
  const PasswordNeedsLower := "Пароль должен содержать строчные буквы"
  const PasswordNeedsDigit := "Пароль должен содержать цифры"
  const PasswordNeedsSpecial := "Пароль должен содержать специальные символы"

  // ---------------------------------------------------------------- username

  /** `validateUsername`: blank is missing; otherwise more than 50 characters
      (counted before trimming) is too long. */
  function ValidateUsername(username: string): (r: Option<string>)
    ensures r == Some(UsernameRequired) <==> AllSpace(username)
    ensures r == Some(UsernameLength) <==> !AllSpace(username) && |username| > 50
    ensures r.None? <==> !AllSpace(username) && |username| <= 50
  {
    TrimEmptyIff(username);
    if Trim(username) == [] then Some(UsernameRequired)
    else if |username| < 1 || |username| > 50 then Some(UsernameLength)
    else None
  }

  // ---------------------------------------------------------------- email

  /** The class `[^\s@]` over a whole string. */
  predicate NoSpaceOrAt(s: string) {
    forall i :: 0 <= i < |s| ==> !IsSpace(s[i]) && s[i] != '@'
  }

  /** `/^[^\s@]+@[^\s@]+\.[^\s@]+$/`: an '@' at `i` with a non-empty part
      before it, and after it a part with a '.' at `k` that has characters on
      both sides; no white space and no other '@' anywhere. */
  predicate EmailShape(s: string) {
    exists i, k :: 0 < i && i + 1 < k < |s| - 1 && s[i] == '@' && s[k] == '.'
      && NoSpaceOrAt(s[..i]) && NoSpaceOrAt(s[i + 1..])
  }

  /** The domain part has a '.' that is neither its first nor its last character. */
  predicate HasInnerDot(d: string) {
    |d| >= 3 && '.' in d[1..|d| - 1]
  }

  /** The same test, by locating the first '@'. */
  predicate EmailCheck(s: string) {
    var at := IndexOf(s, "@");
    at > 0 && NoSpaceOrAt(s[..at]) && NoSpaceOrAt(s[at + 1..]) && HasInnerDot(s[at + 1..])
  }

  lemma OccursAtChar(s: string, c: char, j: int)
    ensures OccursAt(s, [c], j) <==> 0 <= j < |s| && s[j] == c
  {
    if 0 <= j < |s| {
      assert s[j..j + 1] == [s[j]];
    }
  }

  lemma EmailCheckSound(s: string)
    requires EmailCheck(s)
    ensures EmailShape(s)
  {
    var at := IndexOf(s, "@");
    OccursAtChar(s, '@', at);
    var d := s[at + 1..];
    var m :| 0 <= m < |d[1..|d| - 1]| && d[1..|d| - 1][m] == '.';
    var k := at + 2 + m;
    assert s[k] == d[m + 1];
  }

  lemma EmailCheckComplete(s: string)
    requires EmailShape(s)
    ensures EmailCheck(s)
  {
    var i, k :| 0 < i && i + 1 < k < |s| - 1 && s[i] == '@' && s[k] == '.'
      && NoSpaceOrAt(s[..i]) && NoSpaceOrAt(s[i + 1..]);
    var at := IndexOf(s, "@");
    OccursAtChar(s, '@', i);
    assert at != -1 && at <= i;
    assert at >= i by {
      forall j | 0 <= j < i
        ensures !OccursAt(s, "@", j)
      {
        OccursAtChar(s, '@', j);
        assert s[..i][j] == s[j];
      }
    }
    var d := s[i + 1..];
    assert |d| >= 3;
    var inner := d[1..|d| - 1];
    assert inner[k - i - 2] == s[k];
    assert HasInnerDot(d);
  }

  /** The executable test and the expression accept the same strings. */
  lemma EmailCheckIff(s: string)
    ensures EmailCheck(s) <==> EmailShape(s)
  {
    if EmailCheck(s) {
      EmailCheckSound(s);
    }
    if EmailShape(s) {
      EmailCheckComplete(s);
    }
  }

  lemma EmailNotBlank(s: string)
    ensures EmailShape(s) ==> !AllSpace(s)
  {
    if EmailShape(s) {
      assert s[..1][0] == s[0];
    }
  }

  /** `validateEmail`: blank is missing; otherwise it must have the shape of
      the expression. */
  function ValidateEmail(email: string): (r: Option<string>)
    ensures r == Some(EmailRequired) <==> AllSpace(email)
    ensures r.None? <==> EmailShape(email)
    ensures r == Some(EmailInvalid) <==> !AllSpace(email) && !EmailShape(email)
  {
    TrimEmptyIff(email);
    EmailCheckIff(email);
    EmailNotBlank(email);
    if Trim(email) == [] then Some(EmailRequired)
    else if !EmailCheck(email) then Some(EmailInvalid)
    else None
  }

  // ---------------------------------------------------------------- phone

  /** `/^\+7 \(\d{3}\) \d{3}-\d{2}-\d{2}$/`. */
  predicate PhonePattern(s: string) {
    && |s| == 18
    && s[..4] == "+7 (" && AllDigits(s[4..7]) && s[7..9] == ") "
    && AllDigits(s[9..12]) && s[12] == '-' && AllDigits(s[13..15])
    && s[15] == '-' && AllDigits(s[16..18])
  }

  /** `validatePhone`: the phone is optional, so blank passes; anything else
      must match the pattern exactly. */
  function ValidatePhone(phone: string): (r: Option<string>)
    ensures r.None? <==> AllSpace(phone) || PhonePattern(phone)
    ensures r.Some? ==> r.value == PhoneInvalid
  {
    TrimEmptyIff(phone);
    if Trim(phone) == [] then None
    else if !PhonePattern(phone) then Some(PhoneInvalid)
    else None
  }

  // ---------------------------------------------------------------- password

  predicate HasUpper(p: string) { exists i :: 0 <= i < |p| && IsUpperAscii(p[i]) }
  predicate HasLower(p: string) { exists i :: 0 <= i < |p| && IsLowerAscii(p[i]) }
  predicate HasDigit(p: string) { exists i :: 0 <= i < |p| && IsDigit(p[i]) }

  /** The class `[!@#$%^&*(),.?":{}|<>]`. */
  predicate IsSpecial(c: char) {
    c in "!@#$%^&*(),.?\":{}|<>"
  }

  predicate HasSpecial(p: string) { exists i :: 0 <= i < |p| && IsSpecial(p[i]) }

  /** All the password rules. */
  predicate StrongPassword(p: string) {
    |p| >= 8 && HasUpper(p) && HasLower(p) && HasDigit(p) && HasSpecial(p)
  }

  /** `validatePassword`: the rules are checked in a fixed order and the first
      one broken names the message. */
  function ValidatePassword(p: string): (r: Option<string>)
    ensures r.None? <==> StrongPassword(p)
    ensures r == Some(PasswordRequired) <==> p == []
    ensures r == Some(PasswordTooShort) <==> 0 < |p| < 8
    ensures r == Some(PasswordNeedsUpper) <==> |p| >= 8 && !HasUpper(p)
    ensures r == Some(PasswordNeedsLower) <==> |p| >= 8 && HasUpper(p) && !HasLower(p)
    ensures r == Some(PasswordNeedsDigit) <==> |p| >= 8 && HasUpper(p) && HasLower(p) && !HasDigit(p)
    ensures r == Some(PasswordNeedsSpecial) <==> |p| >= 8 && HasUpper(p) && HasLower(p) && HasDigit(p) && !HasSpecial(p)
  {
    if p == [] then Some(PasswordRequired)
    else if |p| < 8 then Some(PasswordTooShort)
    else if !HasUpper(p) then Some(PasswordNeedsUpper)
    else if !HasLower(p) then Some(PasswordNeedsLower)
    else if !HasDigit(p) then Some(PasswordNeedsDigit)
    else if !HasSpecial(p) then Some(PasswordNeedsSpecial)
    else None
  }

  // ---------------------------------------------------------------- phone formatting

  /** `value.replace(/\D/g, '')`: the digits of `s`, in order. */
  function DigitsOf(s: string): (d: string)
    ensures AllDigits(d) && |d| <= |s|
  {
    if s == [] then [] else (if IsDigit(s[0]) then [s[0]] else []) + DigitsOf(s[1..])
  }

  lemma {:induction false} DigitsOfConcat(a: string, b: string)
    ensures DigitsOf(a + b) == DigitsOf(a) + DigitsOf(b)
  {
    if a == [] {
      assert a + b == b;
    } else {
      DigitsOfConcat(a[1..], b);
      assert (a + b)[0] == a[0];
      assert (a + b)[1..] == a[1..] + b;
      var head := if IsDigit(a[0]) then [a[0]] else [];
      assert DigitsOf(a + b) == head + DigitsOf(a[1..] + b);
      AppendAssoc(head, DigitsOf(a[1..]), DigitsOf(b));
    }
  }

  lemma {:induction false} DigitsOfDigits(d: string)
    requires AllDigits(d)
    ensures DigitsOf(d) == d
  {
    if d != [] {
      DigitsOfDigits(d[1..]);
    }
  }

  lemma {:induction false} DigitsOfNone(s: string)
    requires forall i :: 0 <= i < |s| ==> !IsDigit(s[i])
    ensures DigitsOf(s) == []
  {
    if s != [] {
      DigitsOfNone(s[1..]);
    }
  }

  /** The national number: a leading '8' becomes '7', a '7' is put in front
      of anything else, and the result is cut to 11 digits. */
  function NormalizeDigits(cleaned: string): (d: string)
    requires cleaned != [] && AllDigits(cleaned)
    ensures AllDigits(d) && 1 <= |d| <= 11 && d[0] == '7'
    ensures cleaned[0] == '7' || cleaned[0] == '8' ==>
      |d| == (if |cleaned| < 11 then |cleaned| else 11) && d[1..] == cleaned[1..|d|]
    ensures cleaned[0] != '7' && cleaned[0] != '8' ==>
      |d| == (if |cleaned| < 10 then |cleaned| + 1 else 11) && d[1..] == cleaned[..|d| - 1]
    ensures cleaned[0] == '7' && |cleaned| <= 11 ==> d == cleaned
  {
    var d1 := if cleaned[0] == '8' then "7" + cleaned[1..] else cleaned;
    var d2 := if d1[0] != '7' then "7" + d1 else d1;
    if |d2| > 11 then d2[..11] else d2
  }

  /** The layout chosen by the number of digits. */
  function Layout(d: string): (s: string)
    requires AllDigits(d) && 1 <= |d| <= 11
    ensures |s| >= 2 && s[..2] == "+7"
  {
    if |d| == 1 then "+7"
    else if |d| <= 4 then "+7 (" + d[1..]
    else if |d| <= 7 then "+7 (" + d[1..4] + ") " + d[4..]
    else if |d| <= 9 then "+7 (" + d[1..4] + ") " + d[4..7] + "-" + d[7..]
    else "+7 (" + d[1..4] + ") " + d[4..7] + "-" + d[7..9] + "-" + d[9..]
  }

  /** `formatPhoneNumber`. */
  function FormatPhoneNumber(value: string): (s: string)
    ensures s == [] <==> DigitsOf(value) == []
  {
    var cleaned := DigitsOf(value);
    if cleaned == [] then [] else Layout(NormalizeDigits(cleaned))
  }

  lemma AppendDigits(p: string, d: string)
    requires AllDigits(d)
    ensures DigitsOf(p + d) == DigitsOf(p) + d
  {
    DigitsOfConcat(p, d);
    DigitsOfDigits(d);
  }

  lemma AppendSeparator(p: string, sep: string)
    requires forall i :: 0 <= i < |sep| ==> !IsDigit(sep[i])
    ensures DigitsOf(p + sep) == DigitsOf(p)
  {
    DigitsOfConcat(p, sep);
    DigitsOfNone(sep);
    assert DigitsOf(p) + [] == DigitsOf(p);
  }

  lemma PrefixDigits()
    ensures DigitsOf("+7") == "7"
    ensures DigitsOf("+7 (") == "7"
  {
    assert "+7" == "+" + "7";
    AppendDigits("+", "7");
    AppendSeparator("+", []);
    assert DigitsOf("+") == [] by {
      DigitsOfNone("+");
    }
    assert "+7 (" == "+7" + " (";
    AppendSeparator("+7", " (");
  }

  /** Layout of 8 or 9 digits keeps its digits. */
  lemma LayoutDigitsMid(d: string)
    requires AllDigits(d) && 8 <= |d| <= 9 && d[0] == '7'
    ensures DigitsOf(Layout(d)) == d
  {
    PrefixDigits();
    var a, b, c := d[1..4], d[4..7], d[7..];
    var s1 := "+7 (" + a;
    AppendDigits("+7 (", a);
    var s2 := s1 + ") ";
    AppendSeparator(s1, ") ");
    var s3 := s2 + b;
    AppendDigits(s2, b);
    var s4 := s3 + "-";
    AppendSeparator(s3, "-");
    AppendDigits(s4, c);
    assert Layout(d) == s4 + c;
    assert "7" + a + b + c == d;
  }

  /** Layout of 10 or 11 digits keeps its digits. */
  lemma LayoutDigitsFull(d: string)
    requires AllDigits(d) && 10 <= |d| <= 11 && d[0] == '7'
    ensures DigitsOf(Layout(d)) == d
  {
    PrefixDigits();
    var a, b, c, e := d[1..4], d[4..7], d[7..9], d[9..];
    var s1 := "+7 (" + a;
    AppendDigits("+7 (", a);
    var s2 := s1 + ") ";
    AppendSeparator(s1, ") ");
    var s3 := s2 + b;
    AppendDigits(s2, b);
    var s4 := s3 + "-";
    AppendSeparator(s3, "-");
    var s5 := s4 + c;
    AppendDigits(s4, c);
    var s6 := s5 + "-";
    AppendSeparator(s5, "-");
    AppendDigits(s6, e);
    assert Layout(d) == s6 + e;
    assert "7" + a + b + c + e == d;
  }

  /** The layout keeps exactly the digits it was given. */
  lemma LayoutDigits(d: string)
    requires AllDigits(d) && 1 <= |d| <= 11 && d[0] == '7'
    ensures DigitsOf(Layout(d)) == d
  {
    PrefixDigits();
    if |d| == 1 {
      assert d == "7";
    } else if |d| <= 4 {
      AppendDigits("+7 (", d[1..]);
      assert "7" + d[1..] == d;
    } else if |d| <= 7 {
      var a, b := d[1..4], d[4..];
      AppendDigits("+7 (", a);
      AppendSeparator("+7 (" + a, ") ");
      AppendDigits("+7 (" + a + ") ", b);
      assert "7" + a + b == d;
    } else if |d| <= 9 {
      LayoutDigitsMid(d);
    } else {
      LayoutDigitsFull(d);
    }
  }

  /** The digits of a formatted number are its normalised digits. */
  lemma FormatKeepsDigits(value: string)
    requires DigitsOf(value) != []
    ensures DigitsOf(FormatPhoneNumber(value)) == NormalizeDigits(DigitsOf(value))
  {
    LayoutDigits(NormalizeDigits(DigitsOf(value)));
  }

  /** Formatting a formatted number changes nothing. */
  lemma FormatIdempotent(value: string)
    ensures FormatPhoneNumber(FormatPhoneNumber(value)) == FormatPhoneNumber(value)
  {
    if DigitsOf(value) != [] {
      FormatKeepsDigits(value);
    }
  }

  /** Eleven digits are laid out exactly as the phone pattern expects. */
  lemma FullLayoutMatches(d: string)
    requires AllDigits(d) && |d| == 11
    ensures PhonePattern(Layout(d))
  {
    var a, b, c, e := d[1..4], d[4..7], d[7..9], d[9..];
    var s := "+7 (" + a + ") " + b + "-" + c + "-" + e;
    assert Layout(d) == s;
    assert s[..4] == "+7 (";
    assert s[4..7] == a;
    assert s[7..9] == ") ";
    assert s[9..12] == b;
    assert s[13..15] == c;
    assert s[16..18] == e;
  }

  /** With eleven digits the formatted number passes `validatePhone`. */
  lemma FullNumberIsValid(value: string)
    requires DigitsOf(value) != [] && |NormalizeDigits(DigitsOf(value))| == 11
    ensures ValidatePhone(FormatPhoneNumber(value)).None?
  {
    FullLayoutMatches(NormalizeDigits(DigitsOf(value)));
  }
}
