/**
 * Display truncation (`truncate` in reporter.py): newlines and tabs become
 * spaces and carriage returns are dropped, the ends are stripped, every run of
 * whitespace becomes one space, and a string longer than `size` is cut and
 * ends with "...".
 */
module Text {
  import opened Strings

  /** Python 3's str.isspace(); the `\s` class of a Python 3 str pattern matches the same characters. */
  predicate IsSpace(c: char) {
    var n := c as int;
    (0x09 <= n <= 0x0D) || (0x1C <= n <= 0x20) || n == 0x85 || n == 0xA0 || n == 0x1680
    || (0x2000 <= n <= 0x200A) || n == 0x2028 || n == 0x2029 || n == 0x202F || n == 0x205F
    || n == 0x3000
  }

  /** Every whitespace character is a plain space. */
  predicate SpacesAreBlank(s: string) {
    forall i :: 0 <= i < |s| && IsSpace(s[i]) ==> s[i] == ' '
  }

  /** No two neighbouring characters are both whitespace. */
  predicate NoDoubleSpace(s: string) {
    forall i :: 0 <= i < |s| - 1 && IsSpace(s[i]) ==> !IsSpace(s[i + 1])
  }

  /** Neither end is whitespace. */
  predicate Trimmed(s: string) {
    |s| > 0 ==> !IsSpace(s[0]) && !IsSpace(s[|s| - 1])
  }

  /** The shape of a string after the normalisation steps of `truncate`. */
  predicate Tidy(s: string) {
    SpacesAreBlank(s) && NoDoubleSpace(s) && Trimmed(s)
  }

  /** The non-whitespace characters of s, in order. */
  function NonSpace(s: string): string
  {
    if s == [] then [] else (if IsSpace(s[0]) then [] else [s[0]]) + NonSpace(s[1..])
  }

  /** replace("\n", " ").replace("\r", "").replace("\t", " ") */
  function Translate(s: string): (r: string)
    ensures |r| <= |s|
    ensures '\n' !in r && '\r' !in r && '\t' !in r
    ensures |s| == 1 && (s[0] == '\n' || s[0] == '\t') ==> r == " "
    ensures |s| == 1 && s[0] == '\r' ==> r == ""
    ensures |s| == 1 && s[0] != '\n' && s[0] != '\t' && s[0] != '\r' ==> r == s
  {
    if s == [] then []
    else (if s[0] == '\n' || s[0] == '\t' then " " else if s[0] == '\r' then "" else [s[0]])
         + Translate(s[1..])
  }

  /** Leading whitespace removed. */
  function StripLeft(s: string): (r: string)
    ensures |r| <= |s| && r == s[|s| - |r|..]
    ensures r == [] || !IsSpace(r[0])
    ensures forall i :: 0 <= i < |s| - |r| ==> IsSpace(s[i])
  {
    if s != [] && IsSpace(s[0]) then
      var r := StripLeft(s[1..]);
      assert forall i :: 1 <= i < |s| - |r| ==> s[i] == s[1..][i - 1];
      r
    else s
  }

  /** Trailing whitespace removed. */
  function StripRight(s: string): (r: string)
    ensures |r| <= |s| && r == s[..|r|]
    ensures r == [] || !IsSpace(r[|r| - 1])
    ensures forall i :: |r| <= i < |s| ==> IsSpace(s[i])
  {
    if s != [] && IsSpace(s[|s| - 1]) then
      var r := StripRight(s[..|s| - 1]);
      assert forall i :: |r| <= i < |s| - 1 ==> s[i] == s[..|s| - 1][i];
      r
    else s
  }

  /** Python's str.strip() with no argument. */
  function Strip(s: string): (r: string)
    ensures Trimmed(r)
  {
    StripRight(StripLeft(s))
  }

  /** WHITESPACES.sub(" ", s): every maximal run of whitespace becomes one space. */
  function Collapse(s: string): (r: string)
    ensures |r| <= |s| && (r == [] <==> s == [])
    ensures |r| > 0 ==> (IsSpace(r[0]) <==> IsSpace(s[0]))
    ensures |r| > 0 ==> (IsSpace(r[|r| - 1]) <==> IsSpace(s[|s| - 1]))
    ensures SpacesAreBlank(r) && NoDoubleSpace(r)
  {
    if s == [] then []
    else if IsSpace(s[0]) then " " + Collapse(StripLeft(s[1..]))
    else [s[0]] + Collapse(s[1..])
  }

  /** The string `truncate` measures and cuts. */
  function Normalize(s: string): (r: string)
    ensures Tidy(r)
    ensures '\n' !in r && '\r' !in r && '\t' !in r
  {
    var r := Collapse(Strip(Translate(s)));
    BlankHasNoControl(r);
    r
  }

  /** Whitespace that is all plain spaces leaves no line break, carriage return or tab. */
  lemma BlankHasNoControl(r: string)
    requires SpacesAreBlank(r)
    ensures '\n' !in r && '\r' !in r && '\t' !in r
  {
    forall i | 0 <= i < |r|
      ensures r[i] != '\n' && r[i] != '\r' && r[i] != '\t'
    {
      if IsSpace(r[i]) {
        assert r[i] == ' ';
      }
    }
  }

  /** Python's s[:k], where a negative k counts from the end. */
  function PyPrefix(s: string, k: int): (r: string)
    ensures |r| <= |s| && r == s[..|r|]
  {
    if k >= 0 then (if k <= |s| then s[..k] else s)
    else if |s| + k >= 0 then s[..|s| + k] else []
  }

  /** The width `truncate` uses when no size is given. */
  const DefaultSize: int := 72

  function Truncate(value: string, size: int): (r: string)
    ensures Tidy(r)
    ensures '\n' !in r && '\r' !in r && '\t' !in r
    ensures |Normalize(value)| <= size ==> r == Normalize(value)
    ensures size >= 3 && |Normalize(value)| > size ==>
              |r| == size && r == Normalize(value)[..size - 3] + "..."
    ensures size >= 3 ==> |r| <= size
  {
    var n := Normalize(value);
    if |n| > size then
      var p := PyPrefix(n, size - 3);
      EllipsisTidy(n, p);
      p + "..."
    else n
  }

  /** `truncate(value)` with the size left at its default: one tidy line of at most 72 characters. */
  function TruncateDefault(value: string): (r: string)
    ensures Tidy(r) && |r| <= DefaultSize
    ensures '\n' !in r && '\r' !in r && '\t' !in r
    ensures |Normalize(value)| <= DefaultSize ==> r == Normalize(value)
    ensures |Normalize(value)| > DefaultSize ==> r == Normalize(value)[..DefaultSize - 3] + "..."
  {
    Truncate(value, DefaultSize)
  }

  /** A prefix of a tidy string followed by "..." is tidy and free of newlines and tabs. */
  lemma EllipsisTidy(n: string, p: string)
    requires Tidy(n) && |p| <= |n| && p == n[..|p|]
    ensures Tidy(p + "...")
    ensures '\n' !in p + "..." && '\r' !in p + "..." && '\t' !in p + "..."
  {
    var r := p + "...";
    assert !IsSpace('.');
    assert forall i :: |p| <= i < |r| ==> r[i] == '.';
    assert forall i :: 0 <= i < |p| ==> r[i] == n[i];
    assert SpacesAreBlank(r);
    assert NoDoubleSpace(r) by {
      forall i | 0 <= i < |r| - 1 && IsSpace(r[i])
        ensures !IsSpace(r[i + 1])
      {
        if i + 1 < |p| {
          assert r[i + 1] == n[i + 1];
        }
      }
    }
    assert Trimmed(r);
    forall i | 0 <= i < |r|
      ensures r[i] != '\n' && r[i] != '\r' && r[i] != '\t'
    {
      if i < |p| && IsSpace(r[i]) { assert r[i] == ' '; }
    }
  }

  /** Collapse leaves a string alone exactly when its whitespace is already single plain spaces. */
  lemma {:induction false} CollapseFixed(s: string)
    ensures Collapse(s) == s <==> SpacesAreBlank(s) && NoDoubleSpace(s)
  {
    if SpacesAreBlank(s) && NoDoubleSpace(s) {
      CollapseKeepsBlank(s);
    }
  }

  /** A string whose whitespace is already single blanks is left as it is by collapsing. */
  lemma {:induction false} CollapseKeepsBlank(s: string)
    requires SpacesAreBlank(s) && NoDoubleSpace(s)
    ensures Collapse(s) == s
  {
    if s != [] {
      assert SpacesAreBlank(s[1..]) && NoDoubleSpace(s[1..]);
      CollapseKeepsBlank(s[1..]);
      if IsSpace(s[0]) {
        assert s[1..] == [] || !IsSpace(s[1..][0]);
        assert StripLeft(s[1..]) == s[1..];
      }
    }
  }

  lemma {:induction false} TranslateFixed(s: string)
    requires '\n' !in s && '\r' !in s && '\t' !in s
    ensures Translate(s) == s
  {
    if s != [] {
      TranslateFixed(s[1..]);
    }
  }

  /** A tidy string is its own normal form. */
  lemma NormalizeFixed(s: string)
    requires Tidy(s)
    ensures Normalize(s) == s
  {
    assert '\n' !in s && '\r' !in s && '\t' !in s by {
      forall i | 0 <= i < |s| ensures s[i] != '\n' && s[i] != '\r' && s[i] != '\t' {
        if IsSpace(s[i]) { assert s[i] == ' '; }
      }
    }
    TranslateFixed(s);
    assert StripLeft(s) == s;
    assert StripRight(s) == s;
    CollapseFixed(s);
  }

  /** Truncating an already truncated string changes nothing (for a size of at least 3). */
  lemma TruncateIdempotent(value: string, size: int)
    requires size >= 3
    ensures Truncate(Truncate(value, size), size) == Truncate(value, size)
  {
    NormalizeFixed(Truncate(value, size));
  }

  lemma {:induction false} NonSpaceAppend(a: string, b: string)
    ensures NonSpace(a + b) == NonSpace(a) + NonSpace(b)
  {
    if a != [] {
      assert (a + b)[1..] == a[1..] + b;
      NonSpaceAppend(a[1..], b);
    } else {
      assert a + b == b;
    }
  }

  lemma {:induction false} NonSpaceAllSpace(s: string)
    requires forall i :: 0 <= i < |s| ==> IsSpace(s[i])
    ensures NonSpace(s) == []
  {
    if s != [] {
      NonSpaceAllSpace(s[1..]);
    }
  }

  lemma {:induction false} NonSpaceTranslate(s: string)
    ensures NonSpace(Translate(s)) == NonSpace(s)
  {
    if s != [] {
      var head := if s[0] == '\n' || s[0] == '\t' then " " else if s[0] == '\r' then "" else [s[0]];
      NonSpaceAppend(head, Translate(s[1..]));
      NonSpaceTranslate(s[1..]);
      assert NonSpace(head) == (if IsSpace(s[0]) then [] else [s[0]]);
    }
  }

  /** Dropping a prefix of whitespace does not change the non-whitespace text. */
  lemma NonSpaceDropSpaces(s: string, k: nat)
    requires k <= |s| && forall i :: 0 <= i < k ==> IsSpace(s[i])
    ensures NonSpace(s[k..]) == NonSpace(s)
  {
    var head := s[..k];
    assert s == head + s[k..];
    NonSpaceAppend(head, s[k..]);
    assert forall i :: 0 <= i < |head| ==> IsSpace(head[i]) by {
      forall i | 0 <= i < |head| ensures IsSpace(head[i]) {
        assert head[i] == s[i];
      }
    }
    NonSpaceAllSpace(head);
  }

  /** Dropping a suffix of whitespace does not change the non-whitespace text. */
  lemma NonSpaceDropTrailing(s: string, k: nat)
    requires k <= |s| && forall i :: k <= i < |s| ==> IsSpace(s[i])
    ensures NonSpace(s[..k]) == NonSpace(s)
  {
    var head, tail := s[..k], s[k..];
    assert NonSpace(tail) == [] by {
      forall i | 0 <= i < |tail| ensures IsSpace(tail[i]) {
        assert tail[i] == s[k + i];
      }
      NonSpaceAllSpace(tail);
    }
    assert NonSpace(head + tail) == NonSpace(head) + NonSpace(tail) by {
      NonSpaceAppend(head, tail);
    }
    assert head + tail == s;
  }

  lemma NonSpaceStrip(s: string)
    ensures NonSpace(Strip(s)) == NonSpace(s)
  {
    var l := StripLeft(s);
    NonSpaceDropSpaces(s, |s| - |l|);
    var r := StripRight(l);
    NonSpaceDropTrailing(l, |r|);
  }

  lemma {:induction false} NonSpaceCollapse(s: string)
    ensures NonSpace(Collapse(s)) == NonSpace(s)
    decreases |s|
  {
    if s != [] {
      if IsSpace(s[0]) {
        var l := StripLeft(s[1..]);
        assert Collapse(s) == " " + Collapse(l);
        NonSpaceCollapse(l);
        assert NonSpace(" " + Collapse(l)) == NonSpace(Collapse(l)) by {
          NonSpaceAppend(" ", Collapse(l));
        }
        assert NonSpace(l) == NonSpace(s) by {
          NonSpaceDropSpaces(s[1..], |s| - 1 - |l|);
        }
      } else {
        assert Collapse(s) == [s[0]] + Collapse(s[1..]);
        NonSpaceCollapse(s[1..]);
        NonSpaceAppend([s[0]], Collapse(s[1..]));
      }
    }
  }

  /** Normalisation touches whitespace only: the other characters survive, in order. */
  lemma NormalizeKeepsText(s: string)
    ensures NonSpace(Normalize(s)) == NonSpace(s)
  {
    NonSpaceTranslate(s);
    NonSpaceStrip(Translate(s));
    NonSpaceCollapse(Strip(Translate(s)));
  }

  /** The replacements act character by character: translating a + b is translating a, then b. */
  lemma {:induction false} TranslateAppend(a: string, b: string)
    ensures Translate(a + b) == Translate(a) + Translate(b)
  {
    if a == [] {
      assert a + b == b;
    } else {
      var c := a[0];
      var head := if c == '\n' || c == '\t' then " " else if c == '\r' then "" else [c];
      assert (a + b)[0] == c;
      assert (a + b)[1..] == a[1..] + b;
      assert Translate(a + b) == head + Translate(a[1..] + b);
      assert Translate(a) == head + Translate(a[1..]);
      TranslateAppend(a[1..], b);
      ConcatAssoc(head, Translate(a[1..]), Translate(b));
    }
  }

  /** The longest prefix without whitespace. */
  function Word(s: string): (w: string)
    ensures |w| <= |s| && w == s[..|w|]
    ensures forall i :: 0 <= i < |w| ==> !IsSpace(w[i])
    ensures |w| < |s| ==> IsSpace(s[|w|])
  {
    if s == [] || IsSpace(s[0]) then [] else [s[0]] + Word(s[1..])
  }

  /**
   * Python's str.split() with no argument: the maximal runs of non-whitespace
   * characters, in order.
   */
  function Words(s: string): seq<string>
    decreases |s|
  {
    if s == [] then []
    else if IsSpace(s[0]) then Words(s[1..])
    else
      var w := Word(s);
      [w] + Words(s[|w|..])
  }

  /** Every word is non-empty and holds no whitespace. */
  predicate AreWords(words: seq<string>) {
    forall i :: 0 <= i < |words| ==> words[i] != [] && forall j :: 0 <= j < |words[i]| ==> !IsSpace(words[i][j])
  }

  lemma {:induction false} WordsAreWords(s: string)
    ensures AreWords(Words(s))
    decreases |s|
  {
    if s != [] {
      if IsSpace(s[0]) {
        WordsAreWords(s[1..]);
      } else {
        var w := Word(s);
        WordsAreWords(s[|w|..]);
        var ws := Words(s);
        assert ws == [w] + Words(s[|w|..]);
        assert w[0] == s[0];
        forall i | 0 <= i < |ws|
          ensures ws[i] != [] && forall j :: 0 <= j < |ws[i]| ==> !IsSpace(ws[i][j])
        {
          if i > 0 {
            assert ws[i] == Words(s[|w|..])[i - 1];
          }
        }
      }
    }
  }

  /** Leading whitespace is skipped. */
  lemma WordsSpaceStep(s: string)
    requires s != [] && IsSpace(s[0])
    ensures Words(s) == Words(s[1..])
  {
  }

  /** A leading word is the first word. */
  lemma WordsWordStep(s: string)
    requires s != [] && !IsSpace(s[0])
    ensures Words(s) == [Word(s)] + Words(s[|Word(s)|..])
  {
  }

  /** A whitespace-free prefix that ends at whitespace or at the end is the word. */
  lemma WordUnique(s: string, n: nat)
    requires n <= |s| && forall i :: 0 <= i < n ==> !IsSpace(s[i])
    requires n < |s| ==> IsSpace(s[n])
    ensures Word(s) == s[..n]
  {
    var w := Word(s);
    assert |w| < |s| ==> IsSpace(s[|w|]);
    assert forall i :: 0 <= i < |w| ==> !IsSpace(s[i]) by {
      forall i | 0 <= i < |w| ensures !IsSpace(s[i]) {
        assert w[i] == s[i];
      }
    }
    assert |w| == n;
  }

  /** Collapsing copies the leading word unchanged. */
  lemma {:induction false} CollapseWord(t: string)
    ensures Collapse(t) == Word(t) + Collapse(t[|Word(t)|..])
  {
    if t != [] && !IsSpace(t[0]) {
      var t' := t[1..];
      var w' := Word(t');
      CollapseWord(t');
      assert Collapse(t) == [t[0]] + Collapse(t');
      assert Word(t) == [t[0]] + w';
      assert t[|Word(t)|..] == t'[|w'|..];
      ConcatAssoc([t[0]], w', Collapse(t'[|w'|..]));
    } else {
      assert Word(t) == [];
      assert t[0..] == t;
      assert [] + Collapse(t) == Collapse(t);
    }
  }

  /** Leading whitespace separates no word. */
  lemma {:induction false} WordsStripLeft(s: string)
    ensures Words(StripLeft(s)) == Words(s)
  {
    if s != [] && IsSpace(s[0]) {
      WordsStripLeft(s[1..]);
    }
  }

  /** A string of whitespace has no word. */
  lemma {:induction false} WordsAllSpace(s: string)
    requires forall i :: 0 <= i < |s| ==> IsSpace(s[i])
    ensures Words(s) == []
  {
    if s != [] {
      WordsAllSpace(s[1..]);
    }
  }

  /** A string that ends in a non-whitespace character has a word. */
  lemma {:induction false} WordsNonEmpty(s: string)
    requires s != [] && !IsSpace(s[|s| - 1])
    ensures Words(s) != []
  {
    if IsSpace(s[0]) {
      WordsNonEmpty(s[1..]);
    }
  }

  /** Trailing whitespace separates no word. */
  lemma {:induction false} WordsDropTrailing(s: string, k: nat)
    requires k <= |s| && forall i :: k <= i < |s| ==> IsSpace(s[i])
    ensures Words(s[..k]) == Words(s)
    decreases |s|, 1
  {
    if s == [] {
    } else if k == 0 {
      WordsAllSpace(s);
      assert s[..k] == [];
    } else if IsSpace(s[0]) {
      WordsDropTrailingAfterSpace(s, k);
    } else {
      WordsDropTrailingAfterWord(s, k);
    }
  }

  lemma {:induction false} WordsDropTrailingAfterSpace(s: string, k: nat)
    requires 0 < k <= |s| && forall i :: k <= i < |s| ==> IsSpace(s[i])
    requires IsSpace(s[0])
    ensures Words(s[..k]) == Words(s)
    decreases |s|, 0
  {
    var p := s[..k];
    assert Words(p) == Words(p[1..]) by {
      assert p[0] == s[0];
      WordsSpaceStep(p);
    }
    WordsSpaceStep(s);
    assert p[1..] == s[1..][..k - 1];
    WordsDropTrailing(s[1..], k - 1);
  }

  /** Cutting off trailing whitespace leaves the first word alone. */
  lemma WordOfPrefix(s: string, k: nat)
    requires k <= |s| && forall i :: k <= i < |s| ==> IsSpace(s[i])
    ensures |Word(s)| <= k && Word(s[..k]) == Word(s)
  {
    var w := Word(s);
    assert |w| <= k by {
      assert forall i :: 0 <= i < |w| ==> !IsSpace(s[i]) by {
        forall i | 0 <= i < |w| ensures !IsSpace(s[i]) {
          assert w[i] == s[i];
        }
      }
      assert k < |s| ==> IsSpace(s[k]);
    }
    WordUnique(s[..k], |w|);
    assert s[..k][..|w|] == w;
  }

  lemma {:induction false} WordsDropTrailingAfterWord(s: string, k: nat)
    requires 0 < k <= |s| && forall i :: k <= i < |s| ==> IsSpace(s[i])
    requires !IsSpace(s[0])
    ensures Words(s[..k]) == Words(s)
    decreases |s|, 0
  {
    var p := s[..k];
    var w := Word(s);
    WordOfPrefix(s, k);
    assert Words(p) == [w] + Words(p[|w|..]) by {
      assert p[0] == s[0];
      WordsWordStep(p);
    }
    WordsWordStep(s);
    var rest := s[|w|..];
    assert p[|w|..] == rest[..k - |w|];
    assert forall i :: k - |w| <= i < |rest| ==> IsSpace(rest[i]) by {
      forall i | k - |w| <= i < |rest| ensures IsSpace(rest[i]) {
        assert rest[i] == s[i + |w|];
      }
    }
    WordsDropTrailing(rest, k - |w|);
  }

  /** Joining a first word with at least one more puts one space between them. */
  lemma JoinCons(w: string, rest: seq<string>)
    requires rest != []
    ensures Join(" ", [w] + rest) == w + " " + Join(" ", rest)
  {
    assert ([w] + rest)[1..] == rest;
  }

  /**
   * Collapsing a string that does not end in whitespace gives its words joined
   * by single spaces, after one space for leading whitespace.
   */
  lemma {:induction false} CollapseJoinsWords(t: string)
    requires t == [] || !IsSpace(t[|t| - 1])
    ensures Collapse(t) == (if t != [] && IsSpace(t[0]) then " " else "") + Join(" ", Words(t))
    decreases |t|, 1
  {
    if t == [] {
    } else if IsSpace(t[0]) {
      CollapseJoinsWordsAfterSpace(t);
    } else {
      CollapseJoinsWordsAfterWord(t);
    }
  }

  lemma {:induction false} CollapseJoinsWordsAfterSpace(t: string)
    requires t != [] && IsSpace(t[0]) && !IsSpace(t[|t| - 1])
    ensures Collapse(t) == " " + Join(" ", Words(t))
    decreases |t|, 0
  {
    var u := StripLeft(t[1..]);
    assert Collapse(t) == " " + Collapse(u);
    assert u != [] && !IsSpace(u[|u| - 1]) && !IsSpace(u[0]) by {
      assert u[|u| - 1] == t[|t| - 1];
    }
    CollapseJoinsWords(u);
    assert Words(u) == Words(t) by {
      WordsStripLeft(t[1..]);
      WordsSpaceStep(t);
    }
  }

  lemma {:induction false} CollapseJoinsWordsAfterWord(t: string)
    requires t != [] && !IsSpace(t[0]) && !IsSpace(t[|t| - 1])
    ensures Collapse(t) == Join(" ", Words(t))
    decreases |t|, 0
  {
    var w := Word(t);
    var rest := t[|w|..];
    assert Collapse(t) == w + Collapse(rest) by {
      CollapseWord(t);
    }
    assert Words(t) == [w] + Words(rest) by {
      WordsWordStep(t);
    }
    if rest == [] {
      assert Join(" ", [w]) == w;
    } else {
      assert IsSpace(rest[0]) && !IsSpace(rest[|rest| - 1]) by {
        assert rest[|rest| - 1] == t[|t| - 1];
      }
      CollapseJoinsWords(rest);
      assert Words(rest) != [] by {
        WordsNonEmpty(rest);
      }
      JoinCons(w, Words(rest));
      ConcatAssoc(w, " ", Join(" ", Words(rest)));
    }
  }

  /**
   * What the normalisation steps of `truncate` amount to: the words of the
   * translated string, joined by single spaces.
   */
  lemma NormalizeJoinsWords(s: string)
    ensures Normalize(s) == Join(" ", Words(Translate(s)))
  {
    var t := Translate(s);
    var l := StripLeft(t);
    var v := StripRight(l);
    CollapseJoinsWords(v);
    WordsDropTrailing(l, |v|);
    WordsStripLeft(t);
  }
}
