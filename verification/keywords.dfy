/**
 * client/src/components/NegativeKeywordGenerator.tsx: `generateKeywords`
 * splits the input at runs of commas and white space, drops the blank pieces,
 * prefixes each word with `-` and joins the results with single spaces.
 */
module NegativeKeywords {
  import opened Text

  /** A character of the class `[,\s]`. */
  predicate IsSeparator(c: char) {
    c == ',' || IsSpace(c)
  }

  predicate NoSeparator(s: string) {
    forall i :: 0 <= i < |s| ==> !IsSeparator(s[i])
  }

  /** A word as the generator emits it: non-empty, without commas or white space. */
  predicate Clean(w: string) {
    w != "" && NoSeparator(w)
  }

  predicate AllClean(ws: seq<string>) {
    forall i :: 0 <= i < |ws| ==> Clean(ws[i])
  }

  predicate NoneHasSeparator(pieces: seq<string>) {
    forall i :: 0 <= i < |pieces| ==> NoSeparator(pieces[i])
  }

  /** The leading run of non-separator characters. */
  function Word(s: string): (r: string)
    ensures |r| <= |s| && r == s[..|r|] && NoSeparator(r)
    ensures |r| == |s| || IsSeparator(s[|r|])
  {
    if s == [] || IsSeparator(s[0]) then [] else [s[0]] + Word(s[1..])
  }

  /** What is left after a leading run of separators. */
  function DropSeparators(s: string): (r: string)
    ensures |r| <= |s| && r == s[|s| - |r|..]
    ensures forall i :: 0 <= i < |s| - |r| ==> IsSeparator(s[i])
    ensures r == [] || !IsSeparator(r[0])
  {
    if s == [] || !IsSeparator(s[0]) then s else DropSeparators(s[1..])
  }

  /**
   * `s.split(/[,\s]+/)`: the pieces between maximal runs of separators. A
   * leading or trailing run yields an empty first or last piece, and the
   * empty string splits into one empty piece.
   */
  function Split(s: string): (pieces: seq<string>)
    ensures |pieces| >= 1 && NoneHasSeparator(pieces)
    // a string without separators is one piece, itself; any separator makes two or more
    ensures NoSeparator(s) ==> pieces == [s]
    ensures !NoSeparator(s) ==> |pieces| >= 2
    decreases |s|
  {
    if s == [] then [""]
    else if IsSeparator(s[0]) then [""] + Split(DropSeparators(s))
    else
      var w := Word(s);
      var rest := s[|w|..];
      if rest == [] then
        assert w == s[..|s|] == s;
        [w]
      else [w] + Split(DropSeparators(rest))
  }

  /** `.filter(word => word.trim().length > 0)` */
  function KeepNonBlank(pieces: seq<string>): (r: seq<string>)
    ensures |r| <= |pieces|
    ensures forall i :: 0 <= i < |r| ==> |Trim(r[i])| > 0
  {
    if pieces == [] then []
    else (if |Trim(pieces[0])| > 0 then [pieces[0]] else []) + KeepNonBlank(pieces[1..])
  }

  /** The filter works piece by piece: it distributes over concatenation. */
  lemma {:induction false} KeepNonBlankAppend(p: seq<string>, q: seq<string>)
    ensures KeepNonBlank(p + q) == KeepNonBlank(p) + KeepNonBlank(q)
  {
    if p == [] {
      assert p + q == q;
    } else {
      assert (p + q)[1..] == p[1..] + q;
      KeepNonBlankAppend(p[1..], q);
    }
  }

  /** A single piece is kept exactly when it is not blank. */
  lemma KeepNonBlankOne(x: string)
    ensures KeepNonBlank([x]) == (if |Trim(x)| > 0 then [x] else [])
  {
    assert [x][1..] == [];
  }

  /** The words of the input. */
  function Words(s: string): seq<string> {
    KeepNonBlank(Split(s))
  }

  /** `.map(word => `-${word}`)` */
  function Negatives(words: seq<string>): (r: seq<string>)
    ensures |r| == |words|
    ensures forall i :: 0 <= i < |words| ==> r[i] == "-" + words[i]
  {
    seq(|words|, i requires 0 <= i < |words| => "-" + words[i])
  }

  /** `generateKeywords`: the text shown as the result. */
  function GenerateKeywords(input: string): string {
    Join(Negatives(Words(input)), " ")
  }

  /** A piece without separators is blank exactly when it is empty. */
  lemma BlankIsEmpty(w: string)
    requires NoSeparator(w)
    ensures (|Trim(w)| > 0) <==> w != ""
  {
    if w != "" {
      assert !IsSpace(w[0]) && !IsSpace(w[|w| - 1]);
      TrimOfTrimmed(w);
    }
  }

  /** Every word is non-empty and holds no comma and no white space. */
  lemma AllCleanCons(head: string, rest: seq<string>)
    requires Clean(head) && AllClean(rest)
    ensures AllClean([head] + rest)
  {
  }

  lemma {:induction false} KeptWordsAreClean(pieces: seq<string>)
    requires NoneHasSeparator(pieces)
    ensures AllClean(KeepNonBlank(pieces))
  {
    if pieces != [] {
      var head := pieces[0];
      assert NoSeparator(head);
      BlankIsEmpty(head);
      assert NoneHasSeparator(pieces[1..]);
      KeptWordsAreClean(pieces[1..]);
      var rest := KeepNonBlank(pieces[1..]);
      if head != "" {
        assert KeepNonBlank(pieces) == [head] + rest;
        AllCleanCons(head, rest);
      } else {
        assert KeepNonBlank(pieces) == rest;
      }
    }
  }

  lemma WordsAreClean(s: string)
    ensures AllClean(Words(s))
  {
    KeptWordsAreClean(Split(s));
  }

  /** Keeping the non-blank pieces of clean, non-empty words keeps them all. */
  lemma {:induction false} KeepAllClean(ts: seq<string>)
    requires AllClean(ts)
    ensures KeepNonBlank(ts) == ts
  {
    if ts != [] {
      BlankIsEmpty(ts[0]);
      KeepAllClean(ts[1..]);
    }
  }

  lemma {:induction false} JoinStart(ts: seq<string>)
    requires |ts| >= 1 && ts[0] != ""
    ensures Join(ts, " ") != [] && Join(ts, " ")[0] == ts[0][0]
  {
  }

  lemma {:induction false} WordOfClean(t: string, x: string)
    requires NoSeparator(t)
    requires x == [] || IsSeparator(x[0])
    ensures Word(t + x) == t
  {
    if t == [] {
      assert t + x == x;
    } else {
      assert (t + x)[1..] == t[1..] + x;
      WordOfClean(t[1..], x);
    }
  }

  lemma JoinCons(ts: seq<string>)
    requires |ts| >= 2
    ensures Join(ts, " ") == ts[0] + (" " + Join(ts[1..], " "))
  {
  }

  /** A clean word splits into itself. */
  lemma SplitWord(w: string)
    requires Clean(w)
    ensures Split(w) == [w]
  {
    WordOfClean(w, []);
    assert w + [] == w;
  }

  /** A clean word, a space and a text starting with a word split into the word and the split of the text. */
  lemma SplitCons(w: string, tail: string)
    requires Clean(w) && tail != [] && !IsSeparator(tail[0])
    ensures Split(w + (" " + tail)) == [w] + Split(tail)
  {
    var s := w + (" " + tail);
    assert s[0] == w[0];
    WordOfClean(w, " " + tail);
    assert s[|w|..] == " " + tail;
    assert DropSeparators(" " + tail) == tail by {
      assert (" " + tail)[1..] == tail;
    }
  }

  /** Splitting words joined by single spaces gives the words back. */
  lemma {:induction false} SplitJoin(ts: seq<string>)
    requires |ts| >= 1 && AllClean(ts)
    ensures Split(Join(ts, " ")) == ts
  {
    var w := ts[0];
    assert Clean(w);
    if |ts| == 1 {
      SplitWord(w);
      assert Join(ts, " ") == w;
    } else {
      var rest := ts[1..];
      assert AllClean(rest) by {
        forall i | 0 <= i < |rest| ensures Clean(rest[i]) {
          assert rest[i] == ts[i + 1];
        }
      }
      var tail := Join(rest, " ");
      JoinStart(rest);
      JoinCons(ts);
      SplitCons(w, tail);
      SplitJoin(rest);
      assert [w] + rest == ts;
    }
  }

  /** Prefixing a clean word with `-` keeps it clean and non-empty. */
  lemma NegativesAreClean(words: seq<string>)
    requires AllClean(words)
    ensures AllClean(Negatives(words))
  {
    forall i | 0 <= i < |words|
      ensures NoSeparator(Negatives(words)[i])
    {
      var t := Negatives(words)[i];
      assert t == "-" + words[i];
      forall j | 0 <= j < |t| ensures !IsSeparator(t[j]) {
        if j > 0 {
          assert t[j] == words[i][j - 1];
        }
      }
    }
  }

  /** The empty string has no words. */
  lemma NoWordsInEmpty()
    ensures Words("") == []
  {
    assert Split("") == [""];
    assert Trim("") == "";
    assert [""][1..] == [];
  }

  /** Clean tokens joined by spaces split back into the same tokens. */
  lemma WordsOfJoin(tokens: seq<string>)
    requires AllClean(tokens)
    ensures Words(Join(tokens, " ")) == tokens
  {
    if tokens == [] {
      NoWordsInEmpty();
    } else {
      SplitJoin(tokens);
      KeepAllClean(tokens);
    }
  }

  /**
   * The output, split the same way, gives back exactly one `-word` token per
   * input word, in order: so the output's token count is the input's word
   * count, and no token holds a comma or white space.
   */
  lemma OutputTokens(input: string)
    ensures Words(GenerateKeywords(input)) == Negatives(Words(input))
    ensures |Words(GenerateKeywords(input))| == |Words(input)|
  {
    WordsAreClean(input);
    NegativesAreClean(Words(input));
    WordsOfJoin(Negatives(Words(input)));
  }

  predicate AllSeparators(s: string) {
    forall i :: 0 <= i < |s| ==> IsSeparator(s[i])
  }

  /** Separators in front of a text are skipped together with the text's own. */
  lemma {:induction false} DropSeparatorsPrefix(y: string, s: string)
    requires AllSeparators(y)
    ensures DropSeparators(y + s) == DropSeparators(s)
  {
    if y == [] {
      assert y + s == s;
    } else {
      assert (y + s)[0] == y[0];
      assert (y + s)[1..] == y[1..] + s;
      DropSeparatorsPrefix(y[1..], s);
    }
  }

  /** Leading separators contribute no word. */
  lemma WordsDropSeparators(s: string)
    ensures Words(DropSeparators(s)) == Words(s)
  {
    if s != [] && IsSeparator(s[0]) {
      var rest := DropSeparators(s);
      assert Split(s) == [""] + Split(rest);
      assert Trim("") == "";
      assert Words(s) == KeepNonBlank(Split(rest)) by {
        assert ([""] + Split(rest))[1..] == Split(rest);
      }
    }
  }

  /** Any run of separators in front of a text contributes no word. */
  lemma WordsAfterSeparators(y: string, s: string)
    requires AllSeparators(y)
    ensures Words(y + s) == Words(s)
  {
    if y == [] {
      assert y + s == s;
    } else {
      WordsDropSeparators(y + s);
      DropSeparatorsPrefix(y, s);
      WordsDropSeparators(s);
    }
  }

  /** A text that starts with a word gives that word, then the words of what follows it. */
  lemma WordsOfWordStart(s: string)
    requires s != [] && !IsSeparator(s[0])
    ensures Word(s) != ""
    ensures Words(s) == [Word(s)] + Words(s[|Word(s)|..])
  {
    var w := Word(s);
    assert w[0] == s[0];
    BlankIsEmpty(w);
    var rest := s[|w|..];
    if rest == [] {
      NoWordsInEmpty();
      assert Split(s) == [w];
      KeepNonBlankOne(w);
    } else {
      assert Split(s) == [w] + Split(DropSeparators(rest));
      KeepNonBlankAppend([w], Split(DropSeparators(rest)));
      KeepNonBlankOne(w);
      WordsDropSeparators(rest);
    }
  }

  /**
   * `split(/[,\s]+/)` followed by the filter cuts at every run of commas and
   * white space and nowhere else: the words of `a`, a non-empty run of
   * separators and `b` are the words of `a` followed by the words of `b`.
   * With `SplitWord` and `SeparatorsOnly` this fixes the words of every input.
   */
  lemma {:induction false} WordsAroundSeparators(a: string, x: string, b: string)
    requires x != [] && AllSeparators(x)
    ensures Words(a + x + b) == Words(a) + Words(b)
    decreases |a|, 1
  {
    if a == [] {
      assert a + x + b == x + b;
      WordsAfterSeparators(x, b);
      NoWordsInEmpty();
    } else if IsSeparator(a[0]) {
      SeparatorsThenAround(a, x, b);
    } else {
      WordThenAround(a, x, b);
    }
  }

  /** `WordsAroundSeparators` when `a` starts with separators: they are skipped on both sides. */
  lemma {:induction false} SeparatorsThenAround(a: string, x: string, b: string)
    requires x != [] && AllSeparators(x)
    requires a != [] && IsSeparator(a[0])
    ensures Words(a + x + b) == Words(a) + Words(b)
    decreases |a|, 0
  {
    var a' := DropSeparators(a);
    var y := a[..|a| - |a'|];
    assert a == y + a';
    assert AllSeparators(y);
    assert a + x + b == y + (a' + x + b);
    WordsAfterSeparators(y, a' + x + b);
    WordsAroundSeparators(a', x, b);
    WordsAfterSeparators(y, a');
  }

  /** Concatenation is associative; called where the regrouping is too costly for the solver to find alone. */
  lemma Assoc<T>(p: seq<T>, q: seq<T>, r: seq<T>)
    ensures (p + q) + r == p + (q + r)
  {
  }

  /** A clean word followed by a separator or by nothing is the first word. */
  lemma WordsOfWordThen(w: string, t: string)
    requires Clean(w) && (t == [] || IsSeparator(t[0]))
    ensures Words(w + t) == [w] + Words(t)
  {
    var s := w + t;
    assert s[0] == w[0];
    WordOfClean(w, t);
    WordsOfWordStart(s);
    assert s[|w|..] == t;
  }

  /** `WordsAroundSeparators` when `a` starts with a word: the word comes first on both sides. */
  lemma {:induction false} WordThenAround(a: string, x: string, b: string)
    requires x != [] && AllSeparators(x)
    requires a != [] && !IsSeparator(a[0])
    ensures Words(a + x + b) == Words(a) + Words(b)
    decreases |a|, 0
  {
    var w := Word(a);
    var r := a[|w|..];
    assert w[0] == a[0];
    assert a == w + r;
    assert r == [] || IsSeparator(r[0]);
    WordsOfWordThen(w, r);
    var t := r + x + b;
    assert a + x + b == w + t by {
      Assoc(w, r, x);
      Assoc(w, r + x, b);
    }
    assert t == [] || IsSeparator(t[0]) by {
      if r != [] {
        assert t[0] == r[0];
      } else {
        assert t[0] == x[0];
      }
    }
    WordsOfWordThen(w, t);
    Assoc([w], Words(r), Words(b));
    WordsAroundSeparators(r, x, b);
  }

  /** Input made only of commas and white space (the empty input included) gives the empty string. */
  lemma SeparatorsOnly(input: string)
    requires forall i :: 0 <= i < |input| ==> IsSeparator(input[i])
    ensures GenerateKeywords(input) == ""
  {
    if input != [] {
      var rest := DropSeparators(input);
      assert rest == [];
      assert Split(input) == [""] + Split("");
      NoWordsInEmpty();
      assert Words(input) == KeepNonBlank([""] + [""]);
      assert ([""] + [""])[1..] == [""];
      assert Words(input) == [];
    } else {
      NoWordsInEmpty();
    }
  }
}
