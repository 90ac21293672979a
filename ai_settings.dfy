/** The pure helpers of the AI settings dialog
    (src/widgets/settings/ui/AISettingsModal.tsx): the model names of the
    picker, the user's part of the stored system message, and the
    `max_tokens` field's display formatter and input parser. */
module AiSettings {
  import opened Wrappers
  import opened Strings
  import opened Seqs

  // ------------------------------------------------------------ model names

  /** The model identifiers; `Unlisted` is any other value the server sends. */
  datatype Model = YandexGptLite | YandexGptPro | YandexGptPro32k | Llama8b | Llama70b | Custom
    | Unlisted(value: string)

  /** `getModelName`: the fixed display name, or the raw value for a model
      without one. */
  function ModelName(m: Model): (name: string)
    ensures m.Unlisted? && m.value != [] ==> name == m.value
    ensures m.Unlisted? && m.value == [] ==> name == []
    ensures !m.Unlisted? ==> name != []
  {
    match m
    case YandexGptLite => "YandexGPT Lite"
    case YandexGptPro => "YandexGPT Pro"
    case YandexGptPro32k => "YandexGPT Pro 32K"
    case Llama8b => "LLaMA 8B"
    case Llama70b => "LLaMA 70B"
    case Custom => "Пользовательская"
    case Unlisted(v) => v
  }

  /** Distinct listed models get distinct names. */
  lemma ModelNamesDistinct(a: Model, b: Model)
    requires !a.Unlisted? && !b.Unlisted? && a != b
    ensures ModelName(a) != ModelName(b)
  {
    match a
    case YandexGptLite => assert ModelName(a)[|ModelName(a)| - 1] == 'e';
    case YandexGptPro => assert |ModelName(a)| == 13;
    case YandexGptPro32k => assert ModelName(a)[|ModelName(a)| - 1] == 'K';
    case Llama8b => assert ModelName(a)[6] == '8';
    case Llama70b => assert ModelName(a)[6] == '7';
    case Custom => assert ModelName(a)[0] == 'П';
  }

  // ------------------------------------------------------------ system message

  const Divider := "ПОЛЬЗОВАТЕЛЬСКИЕ НАСТРОЙКИ НИЖЕ:"

  /** `.replace(/^---\s*\/, '')`: a leading "---" and the white space after it. */
  function StripDashes(s: string): (r: string)
    ensures StartsWith(s, "---") ==> r == TrimStart(s[3..])
    ensures !StartsWith(s, "---") ==> r == s
  {
    if StartsWith(s, "---") then TrimStart(s[3..]) else s
  }

  /** `getUserSystemMessage`: "" for a missing or empty message; the whole
      message when it has no divider; otherwise the text after the first
      divider, without a leading "---" marker, trimmed. */
  function UserSystemMessage(full: Option<string>): (r: string)
    ensures full.None? || full.value == [] ==> r == []
    ensures full.Some? && !Contains(full.value, Divider) ==> r == full.value
    ensures full.Some? && Contains(full.value, Divider) ==> r == [] || (!IsSpace(r[0]) && !IsSpace(r[|r| - 1]))
  {
    if full.None? || full.value == [] then []
    else
      var s := full.value;
      var at := IndexOf(s, Divider);
      if at == -1 then s
      else
        var user := Trim(StripDashes(s[at + |Divider|..]));
        assert user == [] || (!IsSpace(user[0]) && !IsSpace(user[|user| - 1]));
        user
  }

  /** With no divider inside `prefix`, the first divider is the one that
      follows it. */
  lemma FirstDividerAfter(prefix: string, rest: string)
    requires forall j :: 0 <= j < |prefix| ==> !OccursAt(prefix + Divider, Divider, j)
    ensures IndexOf(prefix + Divider + rest, Divider) == |prefix|
  {
    var head := prefix + Divider;
    var s := head + rest;
    forall j | 0 <= j < |prefix|
      ensures !OccursAt(s, Divider, j)
    {
      assert !OccursAt(head, Divider, j);
      assert s[j..j + |Divider|] == head[j..j + |Divider|];
    }
    assert s[|prefix|..|head|] == Divider;
    assert OccursAt(s, Divider, |prefix|);
    var r := IndexOf(s, Divider);
    assert r != -1;
    assert !(r < |prefix|) && !(|prefix| < r);
  }

  /** A message laid out as `<prefix><divider>---<user text>` gives back the
      user text, when it is already trimmed and the prefix holds no divider. */
  lemma UserPartRecovered(prefix: string, user: string)
    requires forall j :: 0 <= j < |prefix| ==> !OccursAt(prefix + Divider, Divider, j)
    requires user == [] || (!IsSpace(user[0]) && !IsSpace(user[|user| - 1]))
    ensures UserSystemMessage(Some(prefix + Divider + "---" + user)) == user
  {
    var s := prefix + Divider + ("---" + user);
    assert s == prefix + Divider + "---" + user;
    FirstDividerAfter(prefix, "---" + user);
    var rest := s[|prefix| + |Divider|..];
    assert rest == "---" + user;
    assert StartsWith(rest, "---");
    assert rest[3..] == user;
    assert TrimStart(user) == user;
    TrimIdentity(user);
  }

  // ------------------------------------------------------------ max_tokens

  const MinTokens := 1
  const MaxTokens := 32000

  /** `.replace(/\s/g, '')`. */
  function RemoveWhitespace(s: string): (r: string)
    ensures NoSpace(r)
  {
    var r := Filter(s, (c: char) => !IsSpace(c));
    assert forall i :: 0 <= i < |r| ==> r[i] in r;
    r
  }

  /** The `parser` of the token field: white space removed, `parseInt`, and
      the result clamped to 1..32000, with NaN read as 1. */
  function ParseTokens(value: Option<string>): (n: int)
    ensures MinTokens <= n <= MaxTokens
    ensures var p := ParseInt(if value.Some? then RemoveWhitespace(value.value) else []);
      && (p.None? ==> n == MinTokens)
      && (p.Some? && p.value < MinTokens ==> n == MinTokens)
      && (p.Some? && p.value > MaxTokens ==> n == MaxTokens)
      && (p.Some? && MinTokens <= p.value <= MaxTokens ==> n == p.value)
  {
    var cleaned := if value.Some? then RemoveWhitespace(value.value) else [];
    var parsed := ParseInt(cleaned);
    if parsed.None? then 1
    else if parsed.value < 1 then 1
    else if parsed.value > 32000 then 32000
    else parsed.value
  }

  /** `\B(?=(\d{3})+(?!\d))` replaced by a space over a run of digits: a
      space before every group of three counted from the right. */
  function GroupDigits(d: string): (r: string)
    requires AllDigits(d)
    ensures |d| > 0 ==> |r| == |d| + (|d| - 1) / 3
    ensures Grouped(r)
    decreases |d|
  {
    if |d| <= 3 then d
    else
      var head := GroupDigits(d[..|d| - 3]);
      JoinGroup(head, d[|d| - 3..]);
      head + " " + d[|d| - 3..]
  }

  /** Digit groups separated by single spaces: a space exactly at every
      fourth position counted from the right, digits everywhere else. */
  predicate Grouped(r: string) {
    && (forall i :: 0 <= i < |r| ==> (r[i] == ' ' <==> (|r| - i) % 4 == 0))
    && (forall i :: 0 <= i < |r| ==> r[i] == ' ' || IsDigit(r[i]))
  }

  /** A space and one more group of three keep the layout. */
  lemma JoinGroup(head: string, group: string)
    requires Grouped(head)
    requires |group| == 3 && AllDigits(group)
    ensures Grouped(head + " " + group)
  {
    var r := head + " " + group;
    forall i | 0 <= i < |r|
      ensures (r[i] == ' ' <==> (|r| - i) % 4 == 0) && (r[i] == ' ' || IsDigit(r[i]))
    {
      if i < |head| {
        assert r[i] == head[i];
        assert (|r| - i) % 4 == (|head| - i) % 4;
      } else if i > |head| {
        assert r[i] == group[i - |head| - 1];
      }
    }
  }

  /** The white space between digit groups is all that is removed. */
  lemma StripSeparated(head: string, tail: string)
    requires AllDigits(tail)
    ensures RemoveWhitespace(head + " " + tail) == RemoveWhitespace(head) + tail
  {
    var keep := (c: char) => !IsSpace(c);
    assert Filter(" ", keep) == [] by {
      assert " "[1..] == [];
    }
    FilterAppend(head, " ", keep);
    assert Filter(head + " ", keep) == Filter(head, keep);
    FilterKeepsAll(tail, keep);
    FilterAppend(head + " ", tail, keep);
  }

  /** Removing the spaces gives the digits back. */
  lemma {:induction false} GroupDigitsStrip(d: string)
    requires AllDigits(d)
    ensures RemoveWhitespace(GroupDigits(d)) == d
    decreases |d|
  {
    if |d| <= 3 {
      FilterKeepsAll(d, (c: char) => !IsSpace(c));
    } else {
      var front, last := d[..|d| - 3], d[|d| - 3..];
      GroupDigitsStrip(front);
      StripSeparated(GroupDigits(front), last);
      assert front + last == d;
    }
  }

  /** The `formatter`: `${value}` with the digit groups separated. */
  function FormatTokens(n: int): (s: string)
    ensures n >= 0 ==> s == GroupDigits(NatToString(n))
    ensures n < 0 ==> s == "-" + GroupDigits(NatToString(-n))
  {
    if n < 0 then "-" + GroupDigits(NatToString(-n)) else GroupDigits(NatToString(n))
  }

  /** The parser reads back every value the field allows exactly as the
      formatter displayed it. */
  lemma ParseFormatRoundTrip(n: int)
    requires MinTokens <= n <= MaxTokens
    ensures ParseTokens(Some(FormatTokens(n))) == n
  {
    GroupDigitsStrip(NatToString(n));
    ParseIntToString(n);
  }

  /** Formatting a parsed value and parsing it again changes nothing. */
  lemma FormatParseStable(value: Option<string>)
    ensures ParseTokens(Some(FormatTokens(ParseTokens(value)))) == ParseTokens(value)
  {
    ParseFormatRoundTrip(ParseTokens(value));
  }
}
