/** The `code` renderer of the chat's Markdown view
    (src/shared/ui/MessageContent/MessageContent.tsx): which language a fenced
    block names, how it is normalised for the highlighter, what the copy button
    copies, and when a snippet is rendered inline instead. */
module MessageContent {
  import opened Strings

  const LanguagePrefix := "language-"

  /** The languages the highlighter is given by name; anything else is shown
      as plain text. */
  const SupportedLanguages: seq<string> := [
    "javascript", "js", "typescript", "ts", "jsx", "tsx", "css", "scss", "sass", "json",
    "bash", "sh", "shell", "python", "py", "sql", "html", "xml", "markdown", "md"]

  const PlainText := "text"

  predicate AllWordChars(s: string) {
    forall i :: 0 <= i < |s| ==> IsWordChar(s[i])
  }

  /** `/language-(\w+)/` matches at position `i`. */
  predicate MatchesAt(cls: string, i: int) {
    OccursAt(cls, LanguagePrefix, i) && i + |LanguagePrefix| < |cls| && IsWordChar(cls[i + |LanguagePrefix|])
  }

  /** The leftmost match at or after `i`, or -1. */
  function MatchFrom(cls: string, i: nat): (r: int)
    requires i <= |cls|
    ensures r == -1 || (i <= r && MatchesAt(cls, r))
    ensures r == -1 ==> forall j :: i <= j ==> !MatchesAt(cls, j)
    ensures r != -1 ==> forall j :: i <= j < r ==> !MatchesAt(cls, j)
    decreases |cls| - i
  {
    if i == |cls| then -1
    else if MatchesAt(cls, i) then i
    else MatchFrom(cls, i + 1)
  }

  /** The number of word characters at the start of `s`. */
  function WordRunLength(s: string): (k: nat)
    ensures k <= |s|
    ensures forall j :: 0 <= j < k ==> IsWordChar(s[j])
    ensures k < |s| ==> !IsWordChar(s[k])
  {
    if s != [] && IsWordChar(s[0]) then 1 + WordRunLength(s[1..]) else 0
  }

  /** The greedy `(\w+)` capture of a match at `i`: a non-empty run of word
      characters right after the prefix, not followed by another one. */
  function Capture(cls: string, i: nat): (w: string)
    requires MatchesAt(cls, i)
    ensures w != [] && AllWordChars(w)
    ensures OccursAt(cls, LanguagePrefix + w, i)
    ensures i + |LanguagePrefix| + |w| == |cls| || !IsWordChar(cls[i + |LanguagePrefix| + |w|])
  {
    var start := i + |LanguagePrefix|;
    var rest := cls[start..];
    var k := WordRunLength(rest);
    assert rest[0] == cls[start];
    var w := cls[start..start + k];
    assert forall j :: 0 <= j < k ==> w[j] == rest[j];
    assert start + k < |cls| ==> cls[start + k] == rest[k];
    assert cls[i..i + |LanguagePrefix| + |w|] == LanguagePrefix + w;
    w
  }

  /** `match ? match[1] : ''` for `codeClassName || ''`. */
  function Language(cls: string): (language: string)
    ensures language == [] <==> forall j :: !MatchesAt(cls, j)
    ensures AllWordChars(language)
  {
    var m := MatchFrom(cls, 0);
    if m == -1 then [] else Capture(cls, m)
  }

  /** `finalLanguage`: the lower-cased name when the highlighter knows it,
      else "text". */
  function FinalLanguage(language: string): (r: string)
    ensures r in SupportedLanguages || r == PlainText
    ensures r in SupportedLanguages <==> LowerAscii(language) in SupportedLanguages
    ensures r in SupportedLanguages ==> r == LowerAscii(language)
  {
    var lower := LowerAscii(language);
    if lower in SupportedLanguages then lower else PlainText
  }

  /** `String(children).replace(/\n$/, '')`: one trailing newline dropped. */
  function CodeString(children: string): (r: string)
    ensures children == r + "\n" || (r == children && (children == [] || children[|children| - 1] != '\n'))
  {
    if children != [] && children[|children| - 1] == '\n' then children[..|children| - 1] else children
  }

  /** What the renderer produces: a highlighted block with its header text,
      the normalised language and the text the copy button copies, or an
      inline `<code>` element with its class list. */
  datatype Rendered =
    | CodeBlock(header: string, language: string, copyText: string, children: string)
    | InlineCode(className: string, children: string)

  /** The `code` component. `inlineStyle` is the CSS-module class of inline
      code; an absent class name is the empty string. */
  function RenderCode(cls: string, children: string, inlineStyle: string): (r: Rendered)
    ensures r.CodeBlock? <==> Language(cls) != [] && children != []
    ensures r.CodeBlock? ==>
      && r.header == Language(cls) && r.language == FinalLanguage(Language(cls))
      && r.copyText == CodeString(children) && r.children == children
    ensures r.InlineCode? ==> r.className == inlineStyle + " " + cls && r.children == children
  {
    var language := Language(cls);
    if language != [] && children != [] then
      CodeBlock(if language != [] then language else PlainText, FinalLanguage(language), CodeString(children), children)
    else
      InlineCode(inlineStyle + " " + cls, children)
  }

  lemma LowerAsciiTwice(s: string)
    ensures LowerAscii(LowerAscii(s)) == LowerAscii(s)
  {
  }

  /** Normalising twice changes nothing, and letter case does not matter. */
  lemma FinalLanguageStable(language: string)
    ensures FinalLanguage(FinalLanguage(language)) == FinalLanguage(language)
    ensures FinalLanguage(LowerAscii(language)) == FinalLanguage(language)
  {
    LowerAsciiTwice(language);
    assert LowerAscii(PlainText) == PlainText;
  }

  /** A class list that starts with `language-<w>` names `w`, when `w` is
      the whole word there. */
  lemma {:induction false} LanguageOfPrefixedClass(w: string, rest: string)
    requires w != [] && AllWordChars(w)
    requires rest == [] || !IsWordChar(rest[0])
    ensures Language(LanguagePrefix + w + rest) == w
  {
    var cls := LanguagePrefix + w + rest;
    var n := |LanguagePrefix|;
    assert cls[..n] == LanguagePrefix;
    assert cls[n] == w[0];
    assert MatchesAt(cls, 0);
    var c := Capture(cls, 0);
    assert cls[n..n + |c|] == c;
    forall j | 0 <= j < |w|
      ensures cls[n + j] == w[j]
    {
    }
    assert c == cls[n..n + |w|];
  }

  /** Every name the highlighter receives for an extracted language is a
      non-empty single word. */
  lemma FinalLanguageIsWord(language: string)
    requires AllWordChars(language)
    ensures FinalLanguage(language) != [] && AllWordChars(FinalLanguage(language))
  {
    var lower := LowerAscii(language);
    if lower in SupportedLanguages {
      forall i | 0 <= i < |lower| ensures IsWordChar(lower[i]) {
        assert lower[i] == ToLowerAscii(language[i]);
      }
    } else {
      assert PlainText == ['t', 'e', 'x', 't'];
    }
  }

  /** The highlighted element's own class, `language-<finalLanguage>`, names
      the same language again, so re-rendering it is stable. */
  lemma RenderedClassRoundTrip(language: string)
    requires AllWordChars(language)
    ensures FinalLanguage(Language(LanguagePrefix + FinalLanguage(language))) == FinalLanguage(language)
  {
    var f := FinalLanguage(language);
    FinalLanguageIsWord(language);
    LanguageOfPrefixedClass(f, []);
    assert LanguagePrefix + f + [] == LanguagePrefix + f;
    FinalLanguageStable(language);
  }

  /** The header keeps the letter case the author wrote, while the
      highlighter is given the lower-cased name (so `language-Python` is
      labelled "Python" and highlighted as "python"). */
  lemma LabelKeepsCase(w: string, rest: string, children: string, inlineStyle: string)
    requires w != [] && AllWordChars(w)
    requires rest == [] || !IsWordChar(rest[0])
    requires children != [] && LowerAscii(w) in SupportedLanguages
    ensures RenderCode(LanguagePrefix + w + rest, children, inlineStyle).CodeBlock?
    ensures RenderCode(LanguagePrefix + w + rest, children, inlineStyle).header == w
    ensures RenderCode(LanguagePrefix + w + rest, children, inlineStyle).language == LowerAscii(w)
  {
    LanguageOfPrefixedClass(w, rest);
  }

  /** Only one trailing newline is dropped. */
  lemma OneNewlineDropped(code: string)
    ensures CodeString(code + "\n\n") == code + "\n"
    ensures CodeString(code + "\n") == code
  {
  }
}
