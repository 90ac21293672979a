/** The JavaScript string primitives the front end leans on, written out over
    `seq<char>`: white space as `trim` and `\s` see it, `split` on one
    character, `indexOf`/`includes`, `startsWith`, ASCII case folding, and the
    decimal conversions behind `String(n)`, `Number(s)` and `parseInt(s, 10)`. */
module Strings {
  import opened Wrappers

  /** The characters ECMAScript counts as WhiteSpace or LineTerminator: what
      `String.prototype.trim` removes and what the class `\s` matches. */
  predicate IsSpace(c: char) {
    || c == ' ' || c == '\t' || c == '\n' || c == '\U{B}' || c == '\U{C}' || c == '\r'
    || c == '\U{A0}' || c == '\U{1680}' || ('\U{2000}' <= c <= '\U{200A}')
    || c == '\U{2028}' || c == '\U{2029}' || c == '\U{202F}' || c == '\U{205F}'
    || c == '\U{3000}' || c == '\U{FEFF}'
  }

  predicate NoSpace(s: string) {
    forall i :: 0 <= i < |s| ==> !IsSpace(s[i])
  }

  predicate AllSpace(s: string) {
    forall i :: 0 <= i < |s| ==> IsSpace(s[i])
  }

  /** The class `\d`: ASCII digits only. */
  predicate IsDigit(c: char) {
    '0' <= c <= '9'
  }

  predicate AllDigits(s: string) {
    forall i :: 0 <= i < |s| ==> IsDigit(s[i])
  }

  predicate IsUpperAscii(c: char) { 'A' <= c <= 'Z' }

  predicate IsLowerAscii(c: char) { 'a' <= c <= 'z' }

  /** The class `\w`. */
  predicate IsWordChar(c: char) {
    IsUpperAscii(c) || IsLowerAscii(c) || IsDigit(c) || c == '_'
  }

  function ToLowerAscii(c: char): (r: char)
    ensures IsUpperAscii(c) ==> IsLowerAscii(r)
    ensures !IsUpperAscii(c) ==> r == c
  {
    if IsUpperAscii(c) then (c as int + 32) as char else c
  }

  function LowerAscii(s: string): (r: string)
    ensures |r| == |s|
    ensures forall i :: 0 <= i < |s| ==> r[i] == ToLowerAscii(s[i])
  {
    seq(|s|, i requires 0 <= i < |s| => ToLowerAscii(s[i]))
  }

  // ---------------------------------------------------------------- trim

  /** `trimStart`: drops the leading white space and nothing else. */
  function TrimStart(s: string): (r: string)
    ensures |r| <= |s|
    ensures forall i :: 0 <= i < |r| ==> r[i] == s[|s| - |r| + i]
    ensures r == [] || !IsSpace(r[0])
    ensures forall i :: 0 <= i < |s| - |r| ==> IsSpace(s[i])
  {
    if |s| > 0 && IsSpace(s[0]) then TrimStart(s[1..]) else s
  }

  /** What `TrimStart` keeps is a suffix of its input. */
  lemma TrimStartSuffix(s: string)
    ensures TrimStart(s) == s[|s| - |TrimStart(s)|..]
  {
  }

  /** `trimEnd`: drops the trailing white space and nothing else. */
  function TrimEnd(s: string): (r: string)
    ensures |r| <= |s| && r == s[..|r|]
    ensures r == [] || !IsSpace(r[|r| - 1])
    ensures AllSpace(s[|r|..])
  {
    if |s| > 0 && IsSpace(s[|s| - 1]) then
      var r := TrimEnd(s[..|s| - 1]);
      assert s[..|s| - 1][|r|..] + [s[|s| - 1]] == s[|r|..];
      r
    else s
  }

  /** `trim`. */
  function Trim(s: string): (r: string)
    ensures r == [] || (!IsSpace(r[0]) && !IsSpace(r[|r| - 1]))
  {
    TrimEnd(TrimStart(s))
  }

  /** A string trims to the empty string exactly when it is all white space
      (the JavaScript test `!s.trim()`). */
  lemma TrimEmptyIff(s: string)
    ensures Trim(s) == [] <==> AllSpace(s)
  {
    var t := TrimStart(s);
    assert t != [] ==> t[0] == s[|s| - |t|];
    if Trim(s) == [] {
      assert t[0..] == t;
      assert s[..|s| - |t|] == s;
    }
  }

  /** A string without surrounding white space is its own trim. */
  lemma TrimIdentity(s: string)
    requires s == [] || (!IsSpace(s[0]) && !IsSpace(s[|s| - 1]))
    ensures Trim(s) == s
  {
  }

  /** Leading white space does not change the trimmed string. */
  lemma TrimSkipsLeadingSpace(c: char, s: string)
    requires IsSpace(c)
    ensures Trim([c] + s) == Trim(s)
  {
    assert ([c] + s)[1..] == s;
  }

  // ---------------------------------------------------------------- split / join

  function Count(s: string, c: char): nat {
    if s == [] then 0 else (if s[0] == c then 1 else 0) + Count(s[1..], c)
  }

  /** `s.split(sep)` for a one-character separator: the pieces between
      separators, always at least one (`"".split(";")` is `[""]`). */
  function Split(s: string, sep: char): (parts: seq<string>)
    ensures |parts| == Count(s, sep) + 1
    ensures forall k :: 0 <= k < |parts| ==> sep !in parts[k]
  {
    if s == [] then [[]]
    else
      var rest := Split(s[1..], sep);
      if s[0] == sep then [[]] + rest
      else [[s[0]] + rest[0]] + rest[1..]
  }

  /** `parts.join(sep)`. */
  function Join(parts: seq<string>, sep: char): string
    requires |parts| >= 1
  {
    if |parts| == 1 then parts[0] else parts[0] + [sep] + Join(parts[1..], sep)
  }

  /** A string with no separator in it is one piece. */
  lemma {:induction false} SplitNoSep(a: string, sep: char)
    requires sep !in a
    ensures Split(a, sep) == [a]
  {
    if a != [] {
      SplitNoSep(a[1..], sep);
      assert [a[0]] + a[1..] == a;
    }
  }

  /** Splitting at the first separator. */
  lemma {:induction false} SplitAtFirst(a: string, sep: char, b: string)
    requires sep !in a
    ensures Split(a + [sep] + b, sep) == [a] + Split(b, sep)
  {
    if a == [] {
      assert a + [sep] + b == [sep] + b;
      assert ([sep] + b)[1..] == b;
    } else {
      var s := a + [sep] + b;
      assert s[1..] == a[1..] + [sep] + b;
      SplitAtFirst(a[1..], sep, b);
      assert [a[0]] + a[1..] == a;
    }
  }

  /** Splitting a join gives back the pieces when none holds the separator. */
  lemma {:induction false} SplitJoin(parts: seq<string>, sep: char)
    requires |parts| >= 1
    requires forall k :: 0 <= k < |parts| ==> sep !in parts[k]
    ensures Split(Join(parts, sep), sep) == parts
  {
    if |parts| == 1 {
      SplitNoSep(parts[0], sep);
    } else {
      SplitJoin(parts[1..], sep);
      SplitAtFirst(parts[0], sep, Join(parts[1..], sep));
      assert [parts[0]] + parts[1..] == parts;
    }
  }

  // ---------------------------------------------------------------- search

  predicate OccursAt(s: string, sub: string, j: int) {
    0 <= j && j + |sub| <= |s| && s[j..j + |sub|] == sub
  }

  function IndexOfFrom(s: string, sub: string, i: nat): (r: int)
    requires i <= |s|
    ensures r == -1 || (i <= r && OccursAt(s, sub, r))
    ensures r == -1 ==> forall j :: i <= j ==> !OccursAt(s, sub, j)
    ensures r != -1 ==> forall j :: i <= j < r ==> !OccursAt(s, sub, j)
    decreases |s| - i
  {
    if i + |sub| > |s| then -1
    else if s[i..i + |sub|] == sub then i
    else IndexOfFrom(s, sub, i + 1)
  }

  /** `s.indexOf(sub)`: the first position where `sub` occurs, or -1. */
  function IndexOf(s: string, sub: string): (r: int)
    ensures r == -1 <==> forall j :: !OccursAt(s, sub, j)
    ensures r != -1 ==> OccursAt(s, sub, r) && forall j :: 0 <= j < r ==> !OccursAt(s, sub, j)
  {
    IndexOfFrom(s, sub, 0)
  }

  /** `s.includes(sub)`. */
  predicate Contains(s: string, sub: string) {
    IndexOf(s, sub) != -1
  }

  /** `s.startsWith(p)`. */
  predicate StartsWith(s: string, p: string) {
    |p| <= |s| && s[..|p|] == p
  }

  // ---------------------------------------------------------------- decimal numbers

  function DigitValue(c: char): nat
    requires IsDigit(c)
  {
    (c as int) - ('0' as int)
  }

  function DigitChar(d: nat): (c: char)
    requires d < 10
    ensures IsDigit(c) && DigitValue(c) == d
  {
    (('0' as int) + d) as char
  }

  /** The value of a run of decimal digits. */
  function DigitsValue(s: string): nat
    requires AllDigits(s)
  {
    if s == [] then 0 else DigitsValue(s[..|s| - 1]) * 10 + DigitValue(s[|s| - 1])
  }

  /** `String(n)` for a non-negative integer. */
  function NatToString(n: nat): (s: string)
    ensures |s| >= 1 && AllDigits(s)
    ensures n < 10 <==> |s| == 1
  {
    if n < 10 then [DigitChar(n)] else NatToString(n / 10) + [DigitChar(n % 10)]
  }

  /** `String(n)` for any integer. */
  function IntToString(n: int): string {
    if n < 0 then "-" + NatToString(-n) else NatToString(n)
  }

  lemma {:induction false} NatToStringValue(n: nat)
    ensures DigitsValue(NatToString(n)) == n
  {
    if n >= 10 {
      NatToStringValue(n / 10);
      var s := NatToString(n);
      assert s[..|s| - 1] == NatToString(n / 10);
    }
  }

  /** Distinct numbers print differently. */
  lemma NatToStringInjective(m: nat, n: nat)
    requires NatToString(m) == NatToString(n)
    ensures m == n
  {
    NatToStringValue(m);
    NatToStringValue(n);
  }

  /** The length of the longest run of digits at the start of `s`. */
  function DigitPrefixLen(s: string): (k: nat)
    ensures k <= |s| && AllDigits(s[..k])
    ensures k < |s| ==> !IsDigit(s[k])
  {
    if s != [] && IsDigit(s[0]) then
      var k := DigitPrefixLen(s[1..]);
      assert s[..1 + k] == [s[0]] + s[1..][..k];
      1 + k
    else 0
  }

  lemma DigitPrefixAll(s: string)
    requires AllDigits(s)
    ensures DigitPrefixLen(s) == |s|
  {
  }

  /** The value of the digits at the start of `body`, or `None` when it does
      not start with a digit. */
  function DigitRun(body: string): Option<int> {
    var k := DigitPrefixLen(body);
    if k == 0 then None else Some(DigitsValue(body[..k]) as int)
  }

  function Negate(v: Option<int>): Option<int> {
    match v
    case None => None
    case Some(n) => Some(-n)
  }

  /** An optional sign followed by what `read` makes of the rest. */
  function Signed(t: string, read: string -> Option<int>): Option<int> {
    if |t| > 0 && t[0] == '-' then Negate(read(t[1..]))
    else if |t| > 0 && t[0] == '+' then read(t[1..])
    else read(t)
  }

  /** `parseInt(s, 10)`: leading white space skipped, an optional sign, then the
      longest run of digits; `None` stands for NaN (no digit at all). */
  function ParseInt(s: string): Option<int> {
    Signed(TrimStart(s), DigitRun)
  }

  /** The whole of `body` as a number when it is a non-empty run of digits. */
  function WholeDigits(body: string): Option<int> {
    if body != [] && AllDigits(body) then Some(DigitsValue(body) as int) else None
  }

  /** `Number(s)` for the integer-valued strings this front end stores: white
      space trimmed, the empty string is 0, an optional sign and digits give
      their value; anything else is NaN (`None`). */
  function ToNumber(s: string): Option<int> {
    var t := Trim(s);
    if t == [] then Some(0) else Signed(t, WholeDigits)
  }

  lemma DigitRunOfDigits(d: string)
    requires d != [] && AllDigits(d)
    ensures DigitRun(d) == Some(DigitsValue(d) as int)
  {
    DigitPrefixAll(d);
    assert d[..|d|] == d;
  }

  lemma ParseIntUnsigned(d: string)
    requires d != [] && IsDigit(d[0])
    ensures ParseInt(d) == DigitRun(d)
  {
  }

  lemma ParseIntNegative(d: string)
    requires d != [] && IsDigit(d[0])
    ensures ParseInt("-" + d) == Negate(DigitRun(d))
  {
    var s := "-" + d;
    assert s[0] == '-';
    assert s[1..] == d;
  }

  lemma ToNumberUnsigned(d: string)
    requires d != [] && IsDigit(d[0]) && IsDigit(d[|d| - 1])
    ensures ToNumber(d) == WholeDigits(d)
  {
    TrimIdentity(d);
  }

  lemma ToNumberNegative(d: string)
    requires d != [] && IsDigit(d[0]) && IsDigit(d[|d| - 1])
    ensures ToNumber("-" + d) == Negate(WholeDigits(d))
  {
    var s := "-" + d;
    assert s[0] == '-' && s[|s| - 1] == d[|d| - 1];
    TrimIdentity(s);
    assert ToNumber(s) == Signed(s, WholeDigits);
    assert s[1..] == d;
  }

  /** `parseInt` reads back what `String` printed. */
  lemma ParseIntToString(n: int)
    ensures ParseInt(IntToString(n)) == Some(n)
  {
    var m: nat := if n < 0 then -n else n;
    var d := NatToString(m);
    DigitRunOfDigits(d);
    NatToStringValue(m);
    if n < 0 { ParseIntNegative(d); } else { ParseIntUnsigned(d); }
  }

  /** `Number` reads back what `String` printed. */
  lemma ToNumberToString(n: int)
    ensures ToNumber(IntToString(n)) == Some(n)
  {
    var m: nat := if n < 0 then -n else n;
    var d := NatToString(m);
    NatToStringValue(m);
    if n < 0 { ToNumberNegative(d); } else { ToNumberUnsigned(d); }
  }
}
