/**
 * The `execute` bodies of the three tools defined in voltagent/index.ts:
 * `uppercase`, `countWords` and `writeStory`.
 *
 * A JavaScript string is modelled as a sequence of Unicode scalar values.
 */
module Tools {

  // ---------------------------------------------------------------------------
  // Whitespace
  // ---------------------------------------------------------------------------

  /**
   * ECMA-262 WhiteSpace (section 12.2): TAB, VT, FF, ZERO WIDTH NO-BREAK SPACE
   * and the Unicode "Space_Separator" (Zs) characters.
   */
  const WhiteSpace: set<char> := {
    '\t', '\U{000B}', '\U{000C}', '\U{FEFF}',
    ' ', '\U{00A0}', '\U{1680}', '\U{2000}', '\U{2001}', '\U{2002}', '\U{2003}',
    '\U{2004}', '\U{2005}', '\U{2006}', '\U{2007}', '\U{2008}', '\U{2009}',
    '\U{200A}', '\U{202F}', '\U{205F}', '\U{3000}'
  }

  /** ECMA-262 LineTerminator (section 12.3): LF, CR, LINE SEPARATOR, PARAGRAPH SEPARATOR. */
  const LineTerminator: set<char> := {'\n', '\r', '\U{2028}', '\U{2029}'}

  /**
   * The set that both `String.prototype.trim` and the regular expression class
   * `\s` remove or match, tested by code-point ranges (see `IsSpaceIsEcmaSet`).
   */
  predicate IsSpace(c: char) {
    if c < '\U{00A0}' then
      // TAB, LF, VT, FF, CR (U+0009 to U+000D) and SPACE
      ('\t' <= c <= '\r') || c == ' '
    else
      // NO-BREAK SPACE, OGHAM SPACE MARK, EN QUAD to HAIR SPACE, LINE SEPARATOR,
      // PARAGRAPH SEPARATOR, NARROW NO-BREAK SPACE, MEDIUM MATHEMATICAL SPACE,
      // IDEOGRAPHIC SPACE and ZERO WIDTH NO-BREAK SPACE
      c == '\U{00A0}' || c == '\U{1680}' || ('\U{2000}' <= c <= '\U{200A}')
      || c == '\U{2028}' || c == '\U{2029}' || c == '\U{202F}' || c == '\U{205F}'
      || c == '\U{3000}' || c == '\U{FEFF}'
  }

  /** The ranges tested by `IsSpace` hold exactly the WhiteSpace and LineTerminator code points. */
  lemma IsSpaceIsEcmaSet(c: char)
    ensures IsSpace(c) <==> c in WhiteSpace || c in LineTerminator
  {
  }

  predicate NoSpace(s: string) {
    forall i :: 0 <= i < |s| ==> !IsSpace(s[i])
  }

  predicate AllSpace(s: string) {
    forall i :: 0 <= i < |s| ==> IsSpace(s[i])
  }

  /** What `countWords` promises of each returned word. */
  predicate IsWord(w: string) {
    |w| > 0 && NoSpace(w)
  }

  predicate AllWords(ws: seq<string>) {
    forall i :: 0 <= i < |ws| ==> IsWord(ws[i])
  }

  // ---------------------------------------------------------------------------
  // trim, split(/\s+/) and filter, as ECMAScript defines them
  // ---------------------------------------------------------------------------

  /** Drops the leading whitespace of `s` (the start half of `trim`). */
  function TrimStart(s: string): (r: string)
    ensures |r| <= |s| && r == s[|s| - |r|..]
    ensures forall i :: 0 <= i < |s| - |r| ==> IsSpace(s[i])
    ensures r == [] || !IsSpace(r[0])
  {
    if s != [] && IsSpace(s[0]) then
      var r := TrimStart(s[1..]);
      TrimStartStep(s, r);
      r
    else s
  }

  /** One step of `TrimStart`: dropping a leading space keeps a whitespace-only prefix. */
  lemma TrimStartStep(s: string, r: string)
    requires s != [] && IsSpace(s[0])
    requires |r| <= |s| - 1 && r == s[1..][|s| - 1 - |r|..]
    requires forall i :: 0 <= i < |s| - 1 - |r| ==> IsSpace(s[1..][i])
    ensures r == s[|s| - |r|..]
    ensures forall i :: 0 <= i < |s| - |r| ==> IsSpace(s[i])
  {
    forall i | 0 < i < |s| - |r| ensures IsSpace(s[i]) { assert s[i] == s[1..][i - 1]; }
  }

  /** Drops the trailing whitespace of `s` (the end half of `trim`). */
  function TrimEnd(s: string): (r: string)
    ensures |r| <= |s| && r == s[..|r|]
    ensures forall i :: |r| <= i < |s| ==> IsSpace(s[i])
    ensures r == [] || !IsSpace(r[|r| - 1])
  {
    if s != [] && IsSpace(s[|s| - 1]) then TrimEnd(s[..|s| - 1]) else s
  }

  /**
   * `String.prototype.trim`, which ECMA-262 defines as stripping the start and
   * then the end: the result neither starts nor ends with whitespace.
   */
  function Trim(s: string): (r: string)
    ensures |r| <= |s|
    ensures r == [] || (!IsSpace(r[0]) && !IsSpace(r[|r| - 1]))
  {
    TrimEnd(TrimStart(s))
  }

  /** `trim` cuts off a whitespace prefix and a whitespace suffix, and keeps what lies between. */
  lemma TrimIsCut(s: string)
    ensures exists k :: 0 <= k <= |s| - |Trim(s)| && Trim(s) == s[k..k + |Trim(s)|]
                        && AllSpace(s[..k]) && AllSpace(s[k + |Trim(s)|..])
  {
    var t := TrimStart(s);
    var r := TrimEnd(t);
    var k := |s| - |t|;
    TrimCut(s, t, r, k);
    assert r == Trim(s);
    assert 0 <= k <= |s| - |r| && r == s[k..k + |r|] && AllSpace(s[..k]) && AllSpace(s[k + |r|..]);
  }

  /**
   * Where `Trim` cuts: `t` is `s` without `k` characters of leading whitespace,
   * and `r` is `t` without its trailing whitespace.
   */
  lemma TrimCut(s: string, t: string, r: string, k: nat)
    requires |t| <= |s| && k == |s| - |t| && t == s[k..]
    requires forall i :: 0 <= i < k ==> IsSpace(s[i])
    requires |r| <= |t| && r == t[..|r|]
    requires forall i :: |r| <= i < |t| ==> IsSpace(t[i])
    ensures r == s[k..k + |r|] && AllSpace(s[..k]) && AllSpace(s[k + |r|..])
  {
    var head, tail := s[..k], s[k + |r|..];
    forall i | 0 <= i < |tail| ensures IsSpace(tail[i]) { assert tail[i] == t[|r| + i]; }
    forall i | 0 <= i < k ensures IsSpace(head[i]) { assert head[i] == s[i]; }
  }

  /** The longest whitespace-free prefix of `s`: the text before the next match of `\s+`. */
  function TakeWord(s: string): (r: string)
    ensures |r| <= |s| && r == s[..|r|]
    ensures NoSpace(r)
    ensures |r| < |s| ==> IsSpace(s[|r|])
  {
    if s == [] || IsSpace(s[0]) then [] else [s[0]] + TakeWord(s[1..])
  }

  /**
   * `s.split(/\s+/)`: the pieces between the successive greedy matches of a
   * whitespace run. A match consumes the whole run, so the next piece starts
   * where `TrimStart` stops. `"".split(/\s+/)` is `[""]`, and a separator at
   * either end of `s` yields an empty first or last piece.
   */
  function SplitWs(s: string): (r: seq<string>)
    ensures |r| >= 1
    ensures forall w | w in r :: NoSpace(w)
    decreases |s|
  {
    var t := TakeWord(s);
    if |t| == |s| then [s]
    else
      var rest := TrimStart(s[|t|..]);
      assert |rest| < |s| by {
        var u := s[|t|..];
        assert TrimStart(u) == TrimStart(u[1..]);
      }
      [t] + SplitWs(rest)
  }

  /** `ws.filter((word) => word.length > 0)`. */
  function NonEmpty(ws: seq<string>): (r: seq<string>)
    ensures multiset(r) == multiset(ws)[[] := 0]
    ensures forall w | w in r :: w in ws && |w| > 0
  {
    if ws == [] then []
    else
      assert ws == [ws[0]] + ws[1..];
      (if |ws[0]| > 0 then [ws[0]] else []) + NonEmpty(ws[1..])
  }

  // ---------------------------------------------------------------------------
  // The countWords tool (voltagent/index.ts:25-31)
  // ---------------------------------------------------------------------------

  /** The object literal `{ count, words }` that `countWords` returns. */
  datatype WordCount = WordCount(count: nat, words: seq<string>)

  /** `text.trim().split(/\s+/).filter((word) => word.length > 0)`, with its length. */
  function CountWords(text: string): (r: WordCount)
    ensures r.count == |r.words|
    ensures AllWords(r.words)
  {
    var words := NonEmpty(SplitWs(Trim(text)));
    WordCount(|words|, words)
  }

  // ---------------------------------------------------------------------------
  // Reference definitions the tokeniser is measured against
  // ---------------------------------------------------------------------------

  /** The maximal whitespace-free runs of `s`, from left to right. */
  function Tokens(s: string): (r: seq<string>)
    ensures AllWords(r)
    decreases |s|
  {
    if s == [] then []
    else if IsSpace(s[0]) then Tokens(s[1..])
    else
      var w := TakeWord(s);
      [w] + Tokens(s[|w|..])
  }

  /** The words glued together in order. */
  function Concat(ws: seq<string>): string {
    if ws == [] then [] else ws[0] + Concat(ws[1..])
  }

  /** `s` with every whitespace character deleted. */
  function RemoveSpaces(s: string): (r: string)
    ensures NoSpace(r)
  {
    if s == [] then []
    else (if IsSpace(s[0]) then [] else [s[0]]) + RemoveSpaces(s[1..])
  }

  /** `ws.join(" ")`. */
  function JoinSpace(ws: seq<string>): string {
    if ws == [] then []
    else if |ws| == 1 then ws[0]
    else ws[0] + " " + JoinSpace(ws[1..])
  }

  // ---------------------------------------------------------------------------
  // Lemmas about the reference tokeniser
  // ---------------------------------------------------------------------------

  /** Dropping the first `k` characters of `a + c` drops them from `a`. */
  lemma DropAppend(a: string, c: string, k: nat)
    requires k <= |a|
    ensures (a + c)[k..] == a[k..] + c
  {
  }

  lemma {:induction false} TakeWordAppend(a: string, c: string)
    requires |TakeWord(a)| < |a| || c == [] || IsSpace(c[0])
    ensures TakeWord(a + c) == TakeWord(a)
  {
    if a == [] {
      assert a + c == c;
    } else if IsSpace(a[0]) {
      assert (a + c)[0] == a[0];
    } else {
      assert (a + c)[0] == a[0];
      DropAppend(a, c, 1);
      TakeWordAppend(a[1..], c);
    }
  }

  lemma {:induction false} TokensSkipSpace(g: string, s: string)
    requires AllSpace(g)
    ensures Tokens(g + s) == Tokens(s)
  {
    if g == [] {
      assert g + s == s;
    } else {
      assert (g + s)[0] == g[0];
      DropAppend(g, s, 1);
      assert AllSpace(g[1..]) by {
        forall i | 0 <= i < |g| - 1 ensures IsSpace(g[1..][i]) { assert g[1..][i] == g[i + 1]; }
      }
      TokensSkipSpace(g[1..], s);
    }
  }

  /** A word at the front of `a` stays the first token when `c` cannot extend it. */
  lemma TokensWordAppend(a: string, c: string)
    requires a != [] && !IsSpace(a[0])
    requires |TakeWord(a)| < |a| || c == [] || IsSpace(c[0])
    ensures Tokens(a + c) == [TakeWord(a)] + Tokens(a[|TakeWord(a)|..] + c)
  {
    var w := TakeWord(a);
    TakeWordAppend(a, c);
    assert (a + c)[0] == a[0];
    DropAppend(a, c, |w|);
  }

  /** Tokens never straddle a whitespace character. */
  lemma {:induction false} TokensBreakAtSpace(a: string, c: string)
    requires c != [] && IsSpace(c[0])
    ensures Tokens(a + c) == Tokens(a) + Tokens(c)
  {
    if a == [] {
      assert a + c == c;
    } else if IsSpace(a[0]) {
      assert (a + c)[0] == a[0];
      DropAppend(a, c, 1);
      TokensBreakAtSpace(a[1..], c);
    } else {
      var w := TakeWord(a);
      var rest := a[|w|..];
      assert Tokens(a + c) == [w] + Tokens(rest + c) by { TokensWordAppend(a, c); }
      assert Tokens(rest + c) == Tokens(rest) + Tokens(c) by { TokensBreakAtSpace(rest, c); }
    }
  }

  /** A non-empty whitespace run separates the tokens on its left from those on its right. */
  lemma TokensSeparate(a: string, g: string, b: string)
    requires g != [] && AllSpace(g)
    ensures Tokens(a + g + b) == Tokens(a) + Tokens(b)
  {
    var gb := g + b;
    assert a + g + b == a + gb;
    assert gb[0] == g[0];
    TokensBreakAtSpace(a, gb);
    TokensSkipSpace(g, b);
  }

  lemma TokensTrailingSpace(s: string, g: string)
    requires AllSpace(g)
    ensures Tokens(s + g) == Tokens(s)
  {
    if g == [] {
      assert s + g == s;
    } else {
      TokensSeparate(s, g, []);
      assert s + g + [] == s + g;
    }
  }

  lemma TokensOfWord(w: string)
    requires IsWord(w)
    ensures Tokens(w) == [w]
  {
    assert TakeWord(w) == w;
  }

  lemma TokensTrim(s: string)
    ensures Tokens(Trim(s)) == Tokens(s)
  {
    TokensTrimEnd(TrimStart(s));
    TokensTrimStart(s);
  }

  lemma {:induction false} TokensTrimEnd(s: string)
    ensures Tokens(TrimEnd(s)) == Tokens(s)
  {
    if s != [] && IsSpace(s[|s| - 1]) {
      var init := s[..|s| - 1];
      TokensTrimEnd(init);
      assert s == init + [s[|s| - 1]];
      TokensTrailingSpace(init, [s[|s| - 1]]);
    }
  }

  lemma {:induction false} TokensTrimStart(s: string)
    ensures Tokens(TrimStart(s)) == Tokens(s)
  {
    if s != [] && IsSpace(s[0]) {
      TokensTrimStart(s[1..]);
    }
  }

  /** Filtering the pieces of `split(/\s+/)` yields exactly the reference tokens. */
  lemma {:induction false} NonEmptySplitWs(s: string)
    ensures NonEmpty(SplitWs(s)) == Tokens(s)
    decreases |s|
  {
    var t := TakeWord(s);
    if |t| == |s| {
      assert t == s;
      if s != [] {
        TokensOfWord(s);
      }
    } else {
      var u := s[|t|..];
      assert TrimStart(u) == TrimStart(u[1..]);
      var rest := TrimStart(u);
      NonEmptySplitWs(rest);
      TokensTrimStart(u);
      assert SplitWs(s) == [t] + SplitWs(rest);
      assert NonEmpty(SplitWs(s)) == (if |t| > 0 then [t] else []) + NonEmpty(SplitWs(rest)) by {
        assert ([t] + SplitWs(rest))[0] == t && ([t] + SplitWs(rest))[1..] == SplitWs(rest);
      }
      if |t| == 0 {
        assert u == s;
      }
    }
  }

  /** The first element and the rest of `a + b`, for a non-empty `a`. */
  lemma TailAppend(a: seq<string>, b: seq<string>)
    requires a != []
    ensures (a + b)[0] == a[0] && (a + b)[1..] == a[1..] + b
  {
  }

  lemma ConsTail(ws: seq<string>)
    requires ws != []
    ensures ws == [ws[0]] + ws[1..]
  {
  }

  lemma AppendAssoc(a: seq<string>, b: seq<string>, c: seq<string>)
    ensures a + (b + c) == (a + b) + c
  {
  }

  /** The filter keeps the order: it works on each part of a list separately. */
  lemma {:induction false} NonEmptyAppend(a: seq<string>, b: seq<string>)
    ensures NonEmpty(a + b) == NonEmpty(a) + NonEmpty(b)
  {
    if a == [] {
      assert a + b == b;
    } else {
      var head := if |a[0]| > 0 then [a[0]] else [];
      assert NonEmpty(a + b) == head + NonEmpty(a[1..] + b) by {
        TailAppend(a, b);
      }
      assert NonEmpty(a) == head + NonEmpty(a[1..]);
      assert NonEmpty(a[1..] + b) == NonEmpty(a[1..]) + NonEmpty(b) by {
        NonEmptyAppend(a[1..], b);
      }
      AppendAssoc(head, NonEmpty(a[1..]), NonEmpty(b));
    }
  }

  /** A list without empty strings passes the filter unchanged. */
  lemma {:induction false} NonEmptyKeepsWords(ws: seq<string>)
    requires forall i :: 0 <= i < |ws| ==> ws[i] != []
    ensures NonEmpty(ws) == ws
  {
    if ws != [] {
      var tail := ws[1..];
      assert NonEmpty(tail) == tail by {
        assert forall i :: 0 <= i < |tail| ==> tail[i] == ws[i + 1];
        NonEmptyKeepsWords(tail);
      }
      assert NonEmpty(ws) == [ws[0]] + NonEmpty(tail) by { assert ws[0] != []; }
      ConsTail(ws);
    }
  }

  /**
   * A text that neither starts nor ends with whitespace splits into non-empty
   * pieces only: every whitespace run lies strictly between two words.
   */
  lemma {:induction false} SplitWsInnerPieces(s: string)
    requires s != [] && !IsSpace(s[0]) && !IsSpace(s[|s| - 1])
    ensures forall i :: 0 <= i < |SplitWs(s)| ==> SplitWs(s)[i] != []
    decreases |s|
  {
    var t := TakeWord(s);
    assert t != [] by { assert TakeWord(s) == [s[0]] + TakeWord(s[1..]); }
    if |t| < |s| {
      var u := s[|t|..];
      var rest := TrimStart(u);
      assert !IsSpace(u[|u| - 1]) by { assert u[|u| - 1] == s[|s| - 1]; }
      assert rest != [] && rest[|rest| - 1] == s[|s| - 1];
      SplitWsInnerPieces(rest);
      assert SplitWs(s) == [t] + SplitWs(rest);
    }
  }

  lemma {:induction false} RemoveSpacesAppend(a: string, b: string)
    ensures RemoveSpaces(a + b) == RemoveSpaces(a) + RemoveSpaces(b)
  {
    if a == [] {
      assert a + b == b;
    } else {
      assert (a + b)[0] == a[0];
      DropAppend(a, b, 1);
      RemoveSpacesAppend(a[1..], b);
    }
  }

  lemma {:induction false} RemoveSpacesOfWord(w: string)
    requires NoSpace(w)
    ensures RemoveSpaces(w) == w
  {
    if w != [] {
      RemoveSpacesOfWord(w[1..]);
    }
  }

  lemma {:induction false} RemoveSpacesBlank(s: string)
    ensures RemoveSpaces(s) == [] <==> AllSpace(s)
  {
    if s != [] {
      RemoveSpacesBlank(s[1..]);
      if !IsSpace(s[0]) {
        assert RemoveSpaces(s)[0] == s[0];
      } else {
        assert AllSpace(s) <==> AllSpace(s[1..]) by {
          assert forall i :: 1 <= i < |s| ==> s[i] == s[1..][i - 1];
        }
      }
    }
  }

  /** Gluing the tokens back together gives `s` with its whitespace deleted. */
  lemma {:induction false} ConcatTokens(s: string)
    ensures Concat(Tokens(s)) == RemoveSpaces(s)
    decreases |s|
  {
    if s != [] {
      if IsSpace(s[0]) {
        ConcatTokens(s[1..]);
      } else {
        var w := TakeWord(s);
        ConcatTokens(s[|w|..]);
        assert s == w + s[|w|..];
        RemoveSpacesAppend(w, s[|w|..]);
        RemoveSpacesOfWord(w);
        assert ([w] + Tokens(s[|w|..]))[1..] == Tokens(s[|w|..]);
      }
    }
  }

  lemma {:induction false} JoinSpaceTokens(ws: seq<string>)
    requires AllWords(ws)
    ensures Tokens(JoinSpace(ws)) == ws
  {
    if |ws| == 1 {
      TokensOfWord(ws[0]);
    } else if |ws| > 1 {
      JoinSpaceTokens(ws[1..]);
      TokensOfWord(ws[0]);
      TokensSeparate(ws[0], " ", JoinSpace(ws[1..]));
      assert ws == [ws[0]] + ws[1..];
    }
  }

  // ---------------------------------------------------------------------------
  // What countWords promises
  // ---------------------------------------------------------------------------

  /** The tool's words are exactly the maximal whitespace-free runs of the text. */
  lemma CountWordsIsTokens(text: string)
    ensures CountWords(text).words == Tokens(text)
  {
    NonEmptySplitWs(Trim(text));
    TokensTrim(text);
  }

  /** Nothing but whitespace is lost and the words keep their order. */
  lemma CountWordsConcat(text: string)
    ensures Concat(CountWords(text).words) == RemoveSpaces(text)
  {
    CountWordsIsTokens(text);
    ConcatTokens(text);
  }

  /**
   * Blank text, and only blank text, counts zero words; the lone `""` that
   * `"".split(/\s+/)` produces is what the filter removes.
   */
  lemma CountWordsBlank(text: string)
    ensures CountWords(text).count == 0 <==> AllSpace(text)
    ensures AllSpace(text) ==> SplitWs(Trim(text)) == [""] && CountWords(text) == WordCount(0, [])
  {
    var ws := CountWords(text).words;
    CountWordsConcat(text);
    RemoveSpacesBlank(text);
    if ws != [] {
      assert |Concat(ws)| >= |ws[0]| > 0;
    }
  }

  /**
   * Once the text is trimmed, `split(/\s+/)` yields no empty piece unless the
   * text is blank: the filter then drops nothing.
   */
  lemma TrimmedSplitHasNoEmptyPiece(text: string)
    requires !AllSpace(text)
    ensures forall i :: 0 <= i < |SplitWs(Trim(text))| ==> SplitWs(Trim(text))[i] != []
    ensures CountWords(text).words == SplitWs(Trim(text))
  {
    var t := Trim(text);
    var ws := SplitWs(t);
    TrimNotBlank(text);
    SplitWsInnerPieces(t);
    assert forall i :: 0 <= i < |ws| ==> ws[i] != [];
    NonEmptyKeepsWords(ws);
    assert NonEmpty(ws) == ws;
  }

  /** `trim` keeps every character of a text that is not blank, so something remains. */
  lemma TrimNotBlank(text: string)
    requires !AllSpace(text)
    ensures Trim(text) != []
  {
    var i :| 0 <= i < |text| && !IsSpace(text[i]);
    var t := TrimStart(text);
    var r := TrimEnd(t);
    var k := |text| - |t|;
    // `text[i]` lies neither in the whitespace prefix nor in the whitespace suffix
    assert k <= i;
    assert i - k < |r| by { assert t[i - k] == text[i]; }
    assert r == Trim(text);
  }

  lemma CountWordsSeparate(a: string, g: string, b: string)
    requires g != [] && AllSpace(g)
    ensures CountWords(a + g + b).words == CountWords(a).words + CountWords(b).words
  {
    TokensSeparate(a, g, b);
    CountWordsIsTokens(a + g + b);
    CountWordsIsTokens(a);
    CountWordsIsTokens(b);
  }

  /** Repeated whitespace counts as a single separator. */
  lemma CountWordsCollapse(a: string, g: string, b: string)
    requires g != [] && AllSpace(g)
    ensures CountWords(a + g + b) == CountWords(a + " " + b)
  {
    var long, short := a + g + b, a + " " + b;
    TokensSeparate(a, g, b);
    TokensSeparate(a, " ", b);
    CountWordsIsTokens(long);
    CountWordsIsTokens(short);
  }

  /** Leading and trailing whitespace does not change the result. */
  lemma CountWordsPadding(lead: string, text: string, trail: string)
    requires AllSpace(lead) && AllSpace(trail)
    ensures CountWords(lead + text + trail) == CountWords(text)
  {
    var padded := lead + text + trail;
    TokensPadding(lead, text, trail);
    CountWordsIsTokens(padded);
    CountWordsIsTokens(text);
  }

  lemma TokensPadding(lead: string, text: string, trail: string)
    requires AllSpace(lead) && AllSpace(trail)
    ensures Tokens(lead + text + trail) == Tokens(text)
  {
    var tt := text + trail;
    assert lead + text + trail == lead + tt;
    TokensSkipSpace(lead, tt);
    TokensTrailingSpace(text, trail);
  }

  /** Splitting the single-space join of a list of words gives back that list. */
  lemma CountWordsRoundTrip(ws: seq<string>)
    requires AllWords(ws)
    ensures CountWords(JoinSpace(ws)) == WordCount(|ws|, ws)
  {
    CountWordsIsTokens(JoinSpace(ws));
    JoinSpaceTokens(ws);
  }

  lemma CountWordsExample()
    ensures CountWords("the quick brown fox") == WordCount(4, ["the", "quick", "brown", "fox"])
  {
    var ws := ["the", "quick", "brown", "fox"];
    assert AllWords(ws) by {
      assert IsWord("the") && IsWord("quick") && IsWord("brown") && IsWord("fox");
      forall i | 0 <= i < 4 ensures IsWord(ws[i]) {
        if i == 0 { assert ws[i] == "the"; }
        else if i == 1 { assert ws[i] == "quick"; }
        else if i == 2 { assert ws[i] == "brown"; }
        else { assert ws[i] == "fox"; }
      }
    }
    assert JoinSpace(ws) == "the quick brown fox" by {
      assert ws[1..][1..][1..] == ["fox"];
      assert JoinSpace(ws[1..][1..]) == "brown" + " " + "fox";
      assert JoinSpace(ws[1..]) == "quick" + " " + "brown fox";
      assert "the" + " " + "quick brown fox" == "the quick brown fox";
    }
    CountWordsRoundTrip(ws);
  }

  // ---------------------------------------------------------------------------
  // The uppercase tool (voltagent/index.ts:14-16), over ASCII
  // ---------------------------------------------------------------------------

  predicate IsLowerAscii(c: char) {
    'a' <= c <= 'z'
  }

  /** One character of the ASCII upper-casing. */
  function UpperChar(c: char): (u: char)
    ensures IsLowerAscii(c) ==> 'A' <= u <= 'Z' && u as int == c as int - 32
    ensures !IsLowerAscii(c) ==> u == c
  {
    if IsLowerAscii(c) then (c as int - 32) as char else c
  }

  /** `s.toUpperCase()` restricted to the ASCII letters: upper-casing is character-wise. */
  function ToUpperAscii(s: string): (r: string)
    ensures |r| == |s|
    ensures forall i :: 0 <= i < |s| ==> r[i] == UpperChar(s[i])
  {
    if s == [] then [] else [UpperChar(s[0])] + ToUpperAscii(s[1..])
  }

  /** The object literal `{ result }` that `uppercase` returns. */
  datatype UppercaseResult = UppercaseResult(result: string)

  function Uppercase(text: string): (r: UppercaseResult)
    ensures |r.result| == |text|
    ensures forall i :: 0 <= i < |text| ==> r.result[i] == UpperChar(text[i])
    ensures forall i :: 0 <= i < |text| ==> !IsLowerAscii(r.result[i])
  {
    UppercaseResult(ToUpperAscii(text))
  }

  /** Upper-casing twice is upper-casing once. */
  lemma ToUpperIdempotent(s: string)
    ensures ToUpperAscii(ToUpperAscii(s)) == ToUpperAscii(s)
  {
    var r := ToUpperAscii(s);
    assert forall i :: 0 <= i < |r| ==> !IsLowerAscii(r[i]);
  }

  /** A string is left unchanged exactly when it holds no lower-case ASCII letter. */
  lemma ToUpperFixedPoint(s: string)
    ensures ToUpperAscii(s) == s <==> forall i :: 0 <= i < |s| ==> !IsLowerAscii(s[i])
  {
    var r := ToUpperAscii(s);
    if r == s {
      forall i | 0 <= i < |s| ensures !IsLowerAscii(s[i]) {
        assert r[i] == s[i];
      }
    }
  }

  /** The text `"hello world"` comes back as `{ result: "HELLO WORLD" }`. */
  lemma UppercaseExample(text: string)
    requires text == "hello world"
    ensures Uppercase(text) == UppercaseResult("HELLO WORLD")
  {
    var r := ToUpperAscii(text);
    assert r[0] == 'H' && r[1] == 'E' && r[2] == 'L' && r[3] == 'L' && r[4] == 'O' && r[5] == ' ';
    assert r[6] == 'W' && r[7] == 'O' && r[8] == 'R' && r[9] == 'L' && r[10] == 'D';
  }

  // ---------------------------------------------------------------------------
  // The writeStory tool (voltagent/index.ts:40-43)
  // ---------------------------------------------------------------------------

  /** The object literal `{ topic }` that `writeStory` returns. */
  datatype StoryResult = StoryResult(topic: string)

  /** The tool only echoes its input; the story itself is written by the language model. */
  function WriteStory(text: string): (r: StoryResult)
    ensures r.topic == text
  {
    StoryResult(text)
  }
}
