/**
  * The Python `str` operations that the .dia codec relies on, written over `seq<char>`:
  * `strip`, `startswith`, `endswith`, `in` (substring test), `split(sep)` on one character,
  * `split(sep, 1)` and `"\n".join`.
  */
module Text {

  /** The characters Python's `str.strip()` removes and the regex class `\s` matches. */
  predicate IsSpace(c: char) {
    || ('\t' <= c <= '\r')
    || ('\U{1C}' <= c <= '\U{1F}')
    || c == ' ' || c == '\U{85}' || c == '\U{A0}' || c == '\U{1680}'
    || ('\U{2000}' <= c <= '\U{200A}')
    || c == '\U{2028}' || c == '\U{2029}' || c == '\U{202F}' || c == '\U{205F}' || c == '\U{3000}'
  }

  predicate AllSpace(s: string) {
    forall i | 0 <= i < |s| :: IsSpace(s[i])
  }

  /** A string that `strip()` leaves alone: it neither starts nor ends with whitespace. */
  predicate Trimmed(s: string) {
    s == [] || (!IsSpace(s[0]) && !IsSpace(s[|s| - 1]))
  }

  /** `s.lstrip()`: see `TrimLeftSuffix` for what it removes. */
  function TrimLeft(s: string): (r: string)
    ensures |r| <= |s|
    ensures r == [] || !IsSpace(r[0])
  {
    if |s| > 0 && IsSpace(s[0]) then TrimLeft(s[1..]) else s
  }

  /** `s.rstrip()`: see `TrimRightPrefix` for what it removes. */
  function TrimRight(s: string): (r: string)
    ensures |r| <= |s|
    ensures r == [] || !IsSpace(r[|r| - 1])
    ensures r == [] || r[0] == s[0]
  {
    if |s| > 0 && IsSpace(s[|s| - 1]) then TrimRight(s[..|s| - 1]) else s
  }

  /** Python's `s.strip()`: the string without its leading and trailing whitespace. */
  function Strip(s: string): (r: string)
    ensures Trimmed(r)
    ensures |r| <= |s|
  {
    TrimRight(TrimLeft(s))
  }

  predicate StartsWith(s: string, prefix: string) {
    |prefix| <= |s| && s[..|prefix|] == prefix
  }

  predicate EndsWith(s: string, suffix: string) {
    |suffix| <= |s| && s[|s| - |suffix|..] == suffix
  }

  /** `pat` occurs in `s` starting at index `i`. */
  predicate OccursAt(s: string, pat: string, i: nat) {
    i + |pat| <= |s| && s[i..i + |pat|] == pat
  }

  /** Python's `pat in s`. */
  predicate Contains(s: string, pat: string) {
    exists i: nat | i <= |s| :: OccursAt(s, pat, i)
  }

  /** The index of the first `c` in `s`, or `|s|` when there is none. */
  function IndexOf(s: string, c: char): (i: nat)
    ensures i <= |s|
    ensures i < |s| ==> s[i] == c
    ensures c !in s[..i]
  {
    if s == [] then 0
    else if s[0] == c then 0
    else
      var j := IndexOf(s[1..], c);
      assert s[..j + 1] == [s[0]] + s[1..][..j];
      j + 1
  }

  /** Python's `s.split(sep)` for a one-character separator: never empty. */
  function Split(s: string, sep: char): (parts: seq<string>)
    ensures |parts| >= 1
  {
    if s == [] then [[]]
    else
      var rest := Split(s[1..], sep);
      if s[0] == sep then [[]] + rest
      else [[s[0]] + rest[0]] + rest[1..]
  }

  /** `[sep].join(lines)` in Python's sense (`"\n".join(lines)` for `sep == '\n'`). */
  function Join(lines: seq<string>, sep: char): string {
    if lines == [] then []
    else if |lines| == 1 then lines[0]
    else lines[0] + [sep] + Join(lines[1..], sep)
  }

  // ---------------------------------------------------------------------------
  // Laws of the helpers above that the codec proofs use.

  /** `lstrip` removes a prefix made only of whitespace. */
  lemma {:induction false} TrimLeftSuffix(s: string)
    ensures var r := TrimLeft(s); r == s[|s| - |r|..] && AllSpace(s[..|s| - |r|])
  {
    if |s| > 0 && IsSpace(s[0]) {
      TrimLeftSuffix(s[1..]);
      var r := TrimLeft(s[1..]);
      assert s[1..][..|s| - 1 - |r|] == s[1..|s| - |r|];
    }
  }

  /** `rstrip` removes a suffix made only of whitespace. */
  lemma {:induction false} TrimRightPrefix(s: string)
    ensures var r := TrimRight(s); r == s[..|r|] && AllSpace(s[|r|..])
  {
    if |s| > 0 && IsSpace(s[|s| - 1]) {
      TrimRightPrefix(s[..|s| - 1]);
      var r := TrimRight(s[..|s| - 1]);
      assert s[..|s| - 1][|r|..] == s[|r|..|s| - 1];
    }
  }

  /** `lstrip` of a tail of `s` is a tail of `s`. */
  lemma TrimLeftTail(s: string, j: nat)
    requires j <= |s|
    ensures TrimLeft(s[j..]) == s[|s| - |TrimLeft(s[j..])|..]
  {
    TrimLeftSuffix(s[j..]);
    var r := TrimLeft(s[j..]);
    assert s[j..][|s| - j - |r|..] == s[|s| - |r|..];
  }

  /**
    * `strip` removes exactly the surrounding whitespace: `s` is some whitespace, then `Strip(s)`,
    * then some whitespace (and `StripPadded` is the converse).
    */
  lemma StripSplits(s: string)
    ensures var i := |s| - |TrimLeft(s)|;
      && i + |Strip(s)| <= |s|
      && s == s[..i] + Strip(s) + s[i + |Strip(s)|..]
      && AllSpace(s[..i]) && AllSpace(s[i + |Strip(s)|..])
  {
    TrimLeftSuffix(s);
    TrimRightPrefix(TrimLeft(s));
    PeelBothEnds(s, TrimLeft(s), Strip(s));
  }

  /** `s` is `l` after some whitespace, and `l` is `r` before some whitespace. */
  lemma PeelBothEnds(s: string, l: string, r: string)
    requires |l| <= |s| && l == s[|s| - |l|..] && AllSpace(s[..|s| - |l|])
    requires |r| <= |l| && r == l[..|r|] && AllSpace(l[|r|..])
    ensures var i := |s| - |l|;
      && s == s[..i] + r + s[i + |r|..]
      && AllSpace(s[i + |r|..])
  {
    var i := |s| - |l|;
    assert s[i + |r|..] == l[|r|..];
    assert s == s[..i] + l;
  }

  lemma TrimLeftAllSpace(s: string)
    requires AllSpace(s)
    ensures TrimLeft(s) == []
  {
    if s != [] {
      TrimLeftAllSpace(s[1..]);
    }
  }

  lemma {:induction false} TrimLeftPadded(a: string, y: string)
    requires AllSpace(a)
    requires y == [] || !IsSpace(y[0])
    ensures TrimLeft(a + y) == if y == [] then [] else y
  {
    if a == [] {
      assert a + y == y;
      if y == [] { assert TrimLeft([]) == []; }
    } else {
      assert (a + y)[1..] == a[1..] + y;
      TrimLeftPadded(a[1..], y);
    }
  }

  lemma {:induction false} TrimRightPadded(y: string, b: string)
    requires AllSpace(b)
    requires y == [] || !IsSpace(y[|y| - 1])
    ensures TrimRight(y + b) == y
  {
    if b == [] {
      assert y + b == y;
    } else {
      assert (y + b)[..|y + b| - 1] == y + b[..|b| - 1];
      TrimRightPadded(y, b[..|b| - 1]);
    }
  }

  /** Stripping whitespace padding off a trimmed string gives back the string. */
  lemma {:induction false} StripPadded(a: string, x: string, b: string)
    requires AllSpace(a) && AllSpace(b) && Trimmed(x)
    ensures Strip(a + x + b) == x
  {
    if x == [] {
      assert a + x + b == a + b;
      assert AllSpace(a + b);
      TrimLeftAllSpace(a + b);
    } else {
      assert a + x + b == a + (x + b);
      TrimLeftPadded(a, x + b);
      TrimRightPadded(x, b);
    }
  }

  lemma StripTrimmed(x: string)
    requires Trimmed(x)
    ensures Strip(x) == x
  {
    StripPadded([], x, []);
    assert [] + x + [] == x;
  }

  /** One space on either side or both, as the writer pads a cell, is stripped off again. */
  lemma StripSpaced(x: string)
    requires Trimmed(x)
    ensures Strip(" " + x + " ") == x && Strip(x + " ") == x && Strip(" " + x) == x
  {
    StripPadded(" ", x, " ");
    StripPadded([], x, " ");
    assert [] + x + " " == x + " ";
    StripPadded(" ", x, []);
    assert " " + x + [] == " " + x;
  }

  lemma {:induction false} SplitNoSep(a: string, sep: char)
    requires sep !in a
    ensures Split(a, sep) == [a]
  {
    if a != [] {
      SplitNoSep(a[1..], sep);
      assert [a[0]] + a[1..] == a;
    }
  }

  lemma {:induction false} SplitAtSep(a: string, b: string, sep: char)
    requires sep !in a
    ensures Split(a + [sep] + b, sep) == [a] + Split(b, sep)
  {
    var s := a + [sep] + b;
    if a == [] {
      assert s[1..] == b;
    } else {
      assert s[1..] == a[1..] + [sep] + b;
      SplitAtSep(a[1..], b, sep);
      assert [a[0]] + a[1..] == a;
    }
  }

  /** Splitting a joined document on the separator gives back its lines. */
  lemma {:induction false} SplitJoin(lines: seq<string>, sep: char)
    requires |lines| >= 1
    requires forall i | 0 <= i < |lines| :: sep !in lines[i]
    ensures Split(Join(lines, sep), sep) == lines
  {
    if |lines| == 1 {
      SplitNoSep(lines[0], sep);
    } else {
      SplitJoin(lines[1..], sep);
      SplitAtSep(lines[0], Join(lines[1..], sep), sep);
      assert [lines[0]] + lines[1..] == lines;
    }
  }

  lemma {:induction false} IndexOfAt(a: string, b: string, c: char)
    requires c !in a
    ensures IndexOf(a + [c] + b, c) == |a|
  {
    if a != [] {
      assert (a + [c] + b)[1..] == a[1..] + [c] + b;
      IndexOfAt(a[1..], b, c);
    }
  }

  lemma PrefixContains(s: string, pat: string)
    requires StartsWith(s, pat)
    ensures Contains(s, pat)
  {
    assert OccursAt(s, pat, 0);
  }

  /** A slice cut into three consecutive pieces. */
  lemma SliceThree(s: string, a: nat, b: nat, c: nat, d: nat)
    requires a <= b <= c <= d <= |s|
    ensures s[a..d] == s[a..b] + s[b..c] + s[c..d]
  {
  }

  /** A slice cut into five consecutive pieces. */
  lemma SliceFive(s: string, a: nat, b: nat, c: nat, d: nat, e: nat, f: nat)
    requires a <= b <= c <= d <= e <= f <= |s|
    ensures s[a..f] == s[a..b] + s[b..c] + s[c..d] + s[d..e] + s[e..f]
  {
    SliceThree(s, a, b, c, d);
    assert s[a..f] == s[a..d] + s[d..e] + s[e..f];
  }

  /** A text that contains `a + b + c` contains `b`. */
  lemma ContainsMiddle(s: string, a: string, b: string, c: string)
    requires Contains(s, a + b + c)
    ensures Contains(s, b)
  {
    var i: nat :| i <= |s| && OccursAt(s, a + b + c, i);
    forall t | 0 <= t < |b| ensures s[i + |a| + t] == b[t] {
      assert s[i..i + |a + b + c|][|a| + t] == (a + b + c)[|a| + t];
    }
    assert OccursAt(s, b, i + |a|);
  }

  /**
    * `pat` does not occur in `pre + x + post` when it does not occur in `x`, cannot start inside
    * `pre` (its first character occurs in `pre` at most at index 0, where the second characters
    * differ) and cannot end on the one-character `post`.
    */
  lemma NotContainsWrapped(pre: string, x: string, post: string, pat: string)
    requires |pat| >= 2 && |pre| >= 2 && |post| == 1
    requires pat[0] !in pre[1..] && (pre[0] != pat[0] || pre[1] != pat[1])
    requires post[0] != pat[|pat| - 1]
    requires !Contains(x, pat)
    ensures !Contains(pre + x + post, pat)
  {
    var s := pre + x + post;
    if i: nat :| i <= |s| && OccursAt(s, pat, i) {
      if |pre| <= i && i + |pat| < |s| {
        assert x[i - |pre|..i - |pre| + |pat|] == s[i..i + |pat|];
        assert OccursAt(x, pat, i - |pre|);
      }
    }
  }

  /** No occurrence of `pat` starts before `k` when its last character is absent from the text before `k + |pat| - 1`. */
  lemma NoEarlyOccurrence(s: string, pat: string, k: nat)
    requires |pat| >= 1 && k + |pat| - 1 <= |s|
    requires pat[|pat| - 1] !in s[..k + |pat| - 1]
    ensures forall i: nat | i < k :: !OccursAt(s, pat, i)
  {
    forall i: nat | i < k ensures !OccursAt(s, pat, i) {
    }
  }

  /** Splitting three separator-free pieces joined by the separator gives the three pieces. */
  lemma SplitThree(a: string, b: string, c: string, sep: char)
    requires sep !in a && sep !in b && sep !in c
    ensures Split(a + [sep] + b + [sep] + c, sep) == [a, b, c]
  {
    assert a + [sep] + b + [sep] + c == a + [sep] + (b + [sep] + c);
    SplitAtSep(a, b + [sep] + c, sep);
    SplitAtSep(b, c, sep);
    SplitNoSep(c, sep);
  }
}
