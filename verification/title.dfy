/** Conversation titles on the backend: `extract_text` turns whatever the
    title model returned into text, and `sanitize_title` reduces that text to
    its first few alphanumeric words, falling back to "New Chat".

    Words are the maximal runs of ASCII letters and digits, exactly what the
    regular expression `[A-Za-z0-9]+` finds with `re.findall`. */
module Title {
  import opened Basics

  /** The placeholder title of a conversation that has no generated title. */
  const NewChat: string := "New Chat"

  /** The word budget `maybe_update_title` passes to `sanitize_title`. */
  const TitleWords: int := 3

  predicate IsAlnum(c: char)
  {
    'A' <= c <= 'Z' || 'a' <= c <= 'z' || '0' <= c <= '9'
  }

  predicate AllAlnum(s: string)
  {
    forall i :: 0 <= i < |s| ==> IsAlnum(s[i])
  }

  /** One match of `[A-Za-z0-9]+`. */
  predicate IsWord(w: string)
  {
    |w| > 0 && AllAlnum(w)
  }

  predicate AllWords(ws: seq<string>)
  {
    forall i :: 0 <= i < |ws| ==> IsWord(ws[i])
  }

  /** Every character is a letter, a digit or a space. */
  predicate AlnumOrSpace(s: string)
  {
    forall i :: 0 <= i < |s| ==> IsAlnum(s[i]) || s[i] == ' '
  }

  /** Length of the longest all-alphanumeric prefix of `s`. */
  function RunLength(s: string): (n: nat)
    ensures n <= |s|
    ensures AllAlnum(s[..n])
    ensures n < |s| ==> !IsAlnum(s[n])
    ensures |s| > 0 && IsAlnum(s[0]) ==> n > 0
  {
    if s == [] || !IsAlnum(s[0]) then 0
    else
      var m := RunLength(s[1..]);
      assert s[..1 + m] == [s[0]] + s[1..][..m];
      1 + m
  }

  /** `re.findall(r"[A-Za-z0-9]+", s)`: the maximal alphanumeric runs of `s`,
      left to right. */
  function Words(s: string): (ws: seq<string>)
    ensures AllWords(ws)
    decreases |s|
  {
    if s == [] then []
    else if !IsAlnum(s[0]) then Words(s[1..])
    else
      var n := RunLength(s);
      [s[..n]] + Words(s[n..])
  }

  /** `re.findall` finds nothing exactly when the text holds no letter or
      digit at all. */
  lemma {:induction false} WordsEmptyIff(s: string)
    ensures Words(s) == [] <==> forall i :: 0 <= i < |s| ==> !IsAlnum(s[i])
    decreases |s|
  {
    if s != [] && !IsAlnum(s[0]) {
      WordsEmptyIff(s[1..]);
      assert forall i :: 1 <= i < |s| ==> s[i] == s[1..][i - 1];
    }
  }

  /** `" ".join(ws)`. */
  function JoinWords(ws: seq<string>): string
  {
    JoinWith(" ", ws)
  }

  /** Python's `xs[:k]`, including the negative-bound case that counts from
      the end. */
  function PyPrefix<T>(xs: seq<T>, k: int): (r: seq<T>)
    ensures 0 <= k ==> |r| == if k < |xs| then k else |xs|
    ensures k < 0 ==> |r| == if |xs| + k < 0 then 0 else |xs| + k
    ensures r <= xs
  {
    if 0 <= k then (if k < |xs| then xs[..k] else xs)
    else if |xs| + k < 0 then []
    else xs[..|xs| + k]
  }

  /** The characters Python's argument-less `str.strip()` removes. */
  const PyWhitespace: set<char> := {
    '\U{0009}', '\U{000A}', '\U{000B}', '\U{000C}', '\U{000D}',
    '\U{001C}', '\U{001D}', '\U{001E}', '\U{001F}', '\U{0020}',
    '\U{0085}', '\U{00A0}', '\U{1680}',
    '\U{2000}', '\U{2001}', '\U{2002}', '\U{2003}', '\U{2004}', '\U{2005}',
    '\U{2006}', '\U{2007}', '\U{2008}', '\U{2009}', '\U{200A}',
    '\U{2028}', '\U{2029}', '\U{202F}', '\U{205F}', '\U{3000}'
  }

  function StripLeft(s: string, cs: set<char>): string
  {
    if s != [] && s[0] in cs then StripLeft(s[1..], cs) else s
  }

  function StripRight(s: string, cs: set<char>): string
  {
    if s != [] && s[|s| - 1] in cs then StripRight(s[..|s| - 1], cs) else s
  }

  /** `s.strip(chars)`: drop characters of `cs` from both ends. */
  function Strip(s: string, cs: set<char>): string
  {
    StripRight(StripLeft(s, cs), cs)
  }

  /** `raw.strip().strip('"').strip("'")`. */
  function StripQuotes(raw: string): string
  {
    Strip(Strip(Strip(raw, PyWhitespace), {'"'}), {'\''})
  }

  /** `sanitize_title(raw, max_words)`. The result is the placeholder when
      `raw` holds no word; otherwise it lists the first `maxWords` words of
      `raw` (Python slice semantics) separated by single spaces. */
  function SanitizeTitle(raw: string, maxWords: int): (title: string)
    ensures Words(raw) == [] ==> title == NewChat
    ensures Words(raw) != [] ==> Words(title) == PyPrefix(Words(raw), maxWords)
    ensures title == JoinWords(Words(title))
    ensures AlnumOrSpace(title)
    ensures 2 <= maxWords ==> 0 < |Words(title)| <= maxWords
  {
    if raw == [] then
      NewChatWords(); NewChat
    else
      var words := Words(StripQuotes(raw));
      StripQuotesKeepsWords(raw);
      if words == [] then
        NewChatWords(); NewChat
      else
        var kept := PyPrefix(words, maxWords);
        WordsOfJoin(kept);
        JoinAlnumOrSpace(kept);
        JoinWords(kept)
  }

  /** With any word budget of at least two, sanitising is idempotent: a
      title that has been sanitised once is left as it is. The title gate
      uses a budget of three. */
  lemma SanitizeIdempotent(raw: string, maxWords: int)
    requires 2 <= maxWords
    ensures SanitizeTitle(SanitizeTitle(raw, maxWords), maxWords) == SanitizeTitle(raw, maxWords)
  {
    var t := SanitizeTitle(raw, maxWords);
    var t2 := SanitizeTitle(t, maxWords);
    assert Words(t) != [];
    assert Words(t2) == PyPrefix(Words(t), maxWords) == Words(t);
    calc {
      t2;
      JoinWords(Words(t2));
      JoinWords(Words(t));
      t;
    }
  }

  /** A one-word budget is not idempotent: the placeholder itself has two
      words, so sanitising it again cuts it to "New". */
  lemma SanitizeOneWordNotIdempotent()
    ensures SanitizeTitle("", 1) == NewChat
    ensures SanitizeTitle(SanitizeTitle("", 1), 1) == "New"
  {
    NewChatWords();
    var w := Words(StripQuotes(NewChat));
    StripQuotesKeepsWords(NewChat);
    assert w == ["New", "Chat"];
    assert PyPrefix(w, 1) == ["New"];
  }

  /** The title gate's `new_title` guard: with the budget of three the
      sanitised title is never empty. */
  lemma SanitizeNeverEmpty(raw: string)
    ensures SanitizeTitle(raw, TitleWords) != ""
  {
    var t := SanitizeTitle(raw, TitleWords);
    assert Words(t) != [];
  }

  // ---- the words of a joined title are the joined words ----

  lemma {:induction false} RunLengthOfWordThenBreak(w: string, rest: string)
    requires AllAlnum(w)
    requires rest == [] || !IsAlnum(rest[0])
    ensures RunLength(w + rest) == |w|
  {
    if w != [] {
      assert (w + rest)[1..] == w[1..] + rest;
      RunLengthOfWordThenBreak(w[1..], rest);
    } else {
      assert w + rest == rest;
    }
  }

  lemma {:induction false} WordsOfJoin(ws: seq<string>)
    requires AllWords(ws)
    ensures Words(JoinWords(ws)) == ws
  {
    if ws == [] {
    } else if |ws| == 1 {
      var w := ws[0];
      assert JoinWords(ws) == w + [];
      RunLengthOfWordThenBreak(w, []);
      assert w[..|w|] == w;
    } else {
      var w := ws[0];
      var rest := JoinWords(ws[1..]);
      var s := w + " " + rest;
      assert JoinWords(ws) == s;
      assert s == w + (" " + rest);
      RunLengthOfWordThenBreak(w, " " + rest);
      assert s[..|w|] == w;
      assert s[|w|..] == " " + rest;
      assert (" " + rest)[1..] == rest;
      WordsOfJoin(ws[1..]);
    }
  }

  lemma {:induction false} JoinAlnumOrSpace(ws: seq<string>)
    requires AllWords(ws)
    ensures AlnumOrSpace(JoinWords(ws))
  {
    if |ws| > 1 {
      JoinAlnumOrSpace(ws[1..]);
      var j := JoinWords(ws);
      assert j == ws[0] + " " + JoinWords(ws[1..]);
      forall i | 0 <= i < |j|
        ensures IsAlnum(j[i]) || j[i] == ' '
      {
        if i < |ws[0]| {
          assert j[i] == ws[0][i];
        } else if i > |ws[0]| {
          assert j[i] == JoinWords(ws[1..])[i - |ws[0]| - 1];
        }
      }
    }
  }

  lemma NewChatWords()
    ensures NewChat == JoinWords(["New", "Chat"])
    ensures Words(NewChat) == ["New", "Chat"]
  {
    assert NewChat == JoinWords(["New", "Chat"]);
    WordsOfJoin(["New", "Chat"]);
  }

  // ---- stripping non-alphanumeric characters keeps the words ----

  lemma {:induction false} WordsDropFirst(s: string, cs: set<char>)
    requires forall c :: c in cs ==> !IsAlnum(c)
    ensures Words(StripLeft(s, cs)) == Words(s)
  {
    if s != [] && s[0] in cs {
      WordsDropFirst(s[1..], cs);
    }
  }

  lemma {:induction false} RunLengthExtend(s: string, c: char)
    requires s != [] && IsAlnum(s[0])
    requires !IsAlnum(c)
    ensures RunLength(s + [c]) == RunLength(s)
  {
    if |s| > 1 && IsAlnum(s[1]) {
      assert (s + [c])[1..] == s[1..] + [c];
      RunLengthExtend(s[1..], c);
    } else if |s| == 1 {
      assert (s + [c])[1..] == [c];
    } else {
      assert (s + [c])[1..] == s[1..] + [c];
    }
  }

  lemma {:induction false} WordsDropTrailingChar(s: string, c: char)
    requires !IsAlnum(c)
    ensures Words(s + [c]) == Words(s)
    decreases |s|
  {
    if s == [] {
      assert [] + [c] == [c];
      assert [c][1..] == [];
    } else if !IsAlnum(s[0]) {
      assert (s + [c])[1..] == s[1..] + [c];
      WordsDropTrailingChar(s[1..], c);
    } else {
      var n := RunLength(s);
      RunLengthExtend(s, c);
      assert (s + [c])[..n] == s[..n];
      assert (s + [c])[n..] == s[n..] + [c];
      WordsDropTrailingChar(s[n..], c);
    }
  }

  lemma {:induction false} WordsDropLast(s: string, cs: set<char>)
    requires forall c :: c in cs ==> !IsAlnum(c)
    ensures Words(StripRight(s, cs)) == Words(s)
  {
    if s != [] && s[|s| - 1] in cs {
      var init := s[..|s| - 1];
      WordsDropLast(init, cs);
      assert s == init + [s[|s| - 1]];
      WordsDropTrailingChar(init, s[|s| - 1]);
    }
  }

  lemma StripKeepsWords(s: string, cs: set<char>)
    requires forall c :: c in cs ==> !IsAlnum(c)
    ensures Words(Strip(s, cs)) == Words(s)
  {
    WordsDropFirst(s, cs);
    WordsDropLast(StripLeft(s, cs), cs);
  }

  /** Removing surrounding whitespace and quotes never changes which words a
      string holds, so `sanitize_title` may look at the raw text. */
  lemma StripQuotesKeepsWords(raw: string)
    ensures Words(StripQuotes(raw)) == Words(raw)
  {
    StripKeepsWords(raw, PyWhitespace);
    StripKeepsWords(Strip(raw, PyWhitespace), {'"'});
    StripKeepsWords(Strip(Strip(raw, PyWhitespace), {'"'}), {'\''});
  }

  // ---- extract_text ----

  /** An attribute of the reply object: missing, present but `None`, or a
      string. */
  datatype Attr = Missing | NoneAttr | StrAttr(s: string)

  /** The reply of the title model, as far as `extract_text` inspects it. */
  datatype LlmOutput =
    | NoneOutput
    | StrOutput(s: string)
    | ObjectOutput(content: Attr, text: Attr, repr: string)

  /** Python's `value or ""` on an attribute that exists. */
  function OrEmpty(a: Attr): (r: string)
    requires !a.Missing?
  {
    if a.StrAttr? then a.s else ""
  }

  /** `extract_text(obj)`: the reply's text, preferring a `content`
      attribute over a `text` attribute over `str(obj)`. */
  function ExtractText(obj: LlmOutput): (r: string)
    ensures obj.NoneOutput? ==> r == ""
    ensures obj.StrOutput? ==> r == obj.s
    ensures obj.ObjectOutput? && obj.content.StrAttr? ==> r == obj.content.s
    ensures obj.ObjectOutput? && obj.content.NoneAttr? ==> r == ""
    ensures obj.ObjectOutput? && obj.content.Missing? && obj.text.StrAttr? ==> r == obj.text.s
    ensures obj.ObjectOutput? && obj.content.Missing? && obj.text.NoneAttr? ==> r == ""
    ensures obj.ObjectOutput? && obj.content.Missing? && obj.text.Missing? ==> r == obj.repr
  {
    match obj
    case NoneOutput => ""
    case StrOutput(s) => s
    case ObjectOutput(content, text, repr) =>
      if !content.Missing? then OrEmpty(content)
      else if !text.Missing? then OrEmpty(text)
      else repr
  }

  /** A present `content` attribute decides the result on its own: `text`
      and `str(obj)` are never consulted, even when `content` is `None` or
      empty. */
  lemma ExtractPrefersContent(content: Attr, text1: Attr, text2: Attr, repr1: string, repr2: string)
    requires !content.Missing?
    ensures ExtractText(ObjectOutput(content, text1, repr1)) == ExtractText(ObjectOutput(content, text2, repr2))
    ensures content.NoneAttr? || content == StrAttr("") ==> ExtractText(ObjectOutput(content, text1, repr1)) == ""
  {
  }
}
