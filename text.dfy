/**
 * The string primitives the Python code leans on: `str.lower`, `str.strip`,
 * `str.startswith`, the first index of a character, and the code-point order
 * that `sorted` applies to strings.
 */
module Text {

  /** The whitespace that `str.strip` removes and `\s` matches (its ASCII part). */
  predicate IsSpace(c: char) {
    c == ' ' || c == '\t' || c == '\n' || c == '\r' || c == '\U{000B}' || c == '\U{000C}'
    || ('\U{001C}' <= c <= '\U{001F}')
  }

  predicate AllSpace(s: string) {
    forall i :: 0 <= i < |s| ==> IsSpace(s[i])
  }

  predicate IsUpper(c: char) {
    'A' <= c <= 'Z'
  }

  function LowerChar(c: char): (d: char)
    ensures !IsUpper(d)
    ensures IsSpace(d) <==> IsSpace(c)
    ensures !IsUpper(c) ==> d == c
  {
    if IsUpper(c) then (c as int - 'A' as int + 'a' as int) as char else c
  }

  /** `str.lower` on the ASCII letters; every other character is kept. */
  function Lower(s: string): (t: string)
    ensures |t| == |s|
    ensures forall i :: 0 <= i < |s| ==> t[i] == LowerChar(s[i])
  {
    seq(|s|, i requires 0 <= i < |s| => LowerChar(s[i]))
  }

  predicate NoUpper(s: string) {
    forall i :: 0 <= i < |s| ==> !IsUpper(s[i])
  }

  function TrimLeft(s: string): (t: string)
    ensures |t| <= |s| && t == s[|s| - |t|..]
    ensures t == [] || !IsSpace(t[0])
    ensures AllSpace(s[..|s| - |t|])
  {
    if |s| > 0 && IsSpace(s[0]) then
      var t := TrimLeft(s[1..]);
      TrimLeftStep(s, t);
      t
    else s
  }

  /** Dropping one leading blank keeps the three facts `TrimLeft` promises. */
  lemma TrimLeftStep(s: string, t: string)
    requires |s| > 0 && IsSpace(s[0])
    requires |t| <= |s| - 1 && t == s[1..][|s| - 1 - |t|..]
    requires AllSpace(s[1..][..|s| - 1 - |t|])
    ensures |t| <= |s| && t == s[|s| - |t|..]
    ensures AllSpace(s[..|s| - |t|])
  {
    var n := |s| - |t|;
    assert s[1..][n - 1..] == s[n..];
    forall i | 0 <= i < n ensures IsSpace(s[..n][i]) {
      if i > 0 {
        assert s[..n][i] == s[1..][..n - 1][i - 1];
      }
    }
  }

  function TrimRight(s: string): (t: string)
    ensures |t| <= |s| && t == s[..|t|]
    ensures t == [] || !IsSpace(t[|t| - 1])
    ensures AllSpace(s[|t|..])
  {
    if |s| > 0 && IsSpace(s[|s| - 1]) then
      var t := TrimRight(s[..|s| - 1]);
      SpaceAfter(s, |t|);
      t
    else s
  }

  lemma SpaceAfter(s: string, n: nat)
    requires n < |s| && IsSpace(s[|s| - 1]) && AllSpace(s[..|s| - 1][n..])
    ensures AllSpace(s[n..])
  {
    forall i | 0 <= i < |s| - n ensures IsSpace(s[n..][i]) {
      if i < |s| - 1 - n {
        assert s[n..][i] == s[..|s| - 1][n..][i];
      }
    }
  }

  /** `str.strip()`: surrounding whitespace removed, nothing else touched. */
  function Strip(s: string): (t: string)
    ensures |t| <= |s|
    ensures t == [] || (!IsSpace(t[0]) && !IsSpace(t[|t| - 1]))
    ensures AllSpace(s) <==> t == []
    ensures NoUpper(s) ==> NoUpper(t)
  {
    var u := TrimLeft(s);
    var t := TrimRight(u);
    assert t != [] ==> t[0] == u[0];
    assert NoUpper(s) ==> NoUpper(t) by {
      if NoUpper(s) {
        forall i | 0 <= i < |t| ensures !IsUpper(t[i]) {
          assert t[i] == u[i] == s[|s| - |u| + i];
        }
      }
    }
    StripAllSpace(s, u, t);
    t
  }

  /** Stripping leaves nothing exactly when there was only whitespace. */
  lemma StripAllSpace(s: string, u: string, t: string)
    requires u == TrimLeft(s) && t == TrimRight(u)
    ensures AllSpace(s) <==> t == []
  {
    if t == [] {
      assert u == [] by {
        assert u[|t|..] == u;
      }
      assert s[..|s| - |u|] == s;
    }
  }

  predicate StartsWith(s: string, prefix: string) {
    prefix <= s
  }

  predicate EndsWith(s: string, suffix: string) {
    |suffix| <= |s| && s[|s| - |suffix|..] == suffix
  }

  /** A tail of a tail is a tail. */
  lemma EndsWithTransitive(s: string, t: string, u: string)
    requires EndsWith(s, t) && EndsWith(t, u)
    ensures EndsWith(s, u)
  {
    assert s[|s| - |u|..] == s[|s| - |t|..][|t| - |u|..];
  }

  /** The index of the first `c` in `s`, or `|s|` when there is none. */
  function IndexOf(s: string, c: char): (i: nat)
    ensures i <= |s|
    ensures i < |s| ==> s[i] == c
    ensures forall j :: 0 <= j < i ==> s[j] != c
  {
    if s == [] then 0
    else if s[0] == c then 0
    else 1 + IndexOf(s[1..], c)
  }

  // ---------------------------------------------------------------------------
  // Facts about Lower and Strip

  lemma LowerIdempotent(s: string)
    ensures Lower(Lower(s)) == Lower(s)
  {
  }

  lemma LowerAppend(a: string, b: string)
    ensures Lower(a + b) == Lower(a) + Lower(b)
  {
  }

  lemma LowerHasNoUpper(s: string)
    ensures NoUpper(Lower(s))
  {
  }

  lemma LowerKeepsSpaces(w: string)
    requires AllSpace(w)
    ensures Lower(w) == w
  {
  }

  lemma {:induction false} TrimLeftSpaces(w: string, y: string)
    requires AllSpace(w)
    ensures TrimLeft(w + y) == TrimLeft(y)
    decreases |w|
  {
    if w != [] {
      var w' := w[1..];
      assert AllSpace(w') by {
        forall i | 0 <= i < |w'| ensures IsSpace(w'[i]) { assert w'[i] == w[i + 1]; }
      }
      assert (w + y)[0] == w[0];
      assert (w + y)[1..] == w' + y;
      TrimLeftSpaces(w', y);
    } else {
      assert w + y == y;
    }
  }

  lemma {:induction false} TrimRightSpaces(y: string, w: string)
    requires AllSpace(w)
    ensures TrimRight(y + w) == TrimRight(y)
    decreases |w|
  {
    if w != [] {
      var w' := w[..|w| - 1];
      assert AllSpace(w') by {
        forall i | 0 <= i < |w'| ensures IsSpace(w'[i]) { assert w'[i] == w[i]; }
      }
      assert (y + w)[|y + w| - 1] == w[|w| - 1];
      assert (y + w)[..|y + w| - 1] == y + w';
      TrimRightSpaces(y, w');
    } else {
      assert y + w == y;
    }
  }

  /** Trimming the left of `x + w` only depends on `x` unless `x` is all blank. */
  lemma {:induction false} TrimLeftAppend(x: string, w: string)
    ensures AllSpace(x) ==> TrimLeft(x + w) == TrimLeft(w)
    ensures !AllSpace(x) ==> TrimLeft(x + w) == TrimLeft(x) + w
    decreases |x|
  {
    if x == [] {
      assert x + w == w;
    } else if IsSpace(x[0]) {
      var x' := x[1..];
      assert (x + w)[1..] == x' + w;
      TrimLeftAppend(x', w);
      SpaceHead(x);
    } else {
      assert (x + w)[0] == x[0];
    }
  }

  lemma SpaceHead(x: string)
    requires x != [] && IsSpace(x[0])
    ensures AllSpace(x) <==> AllSpace(x[1..])
  {
    if AllSpace(x[1..]) {
      forall i | 0 <= i < |x| ensures IsSpace(x[i]) {
        if i > 0 { assert x[i] == x[1..][i - 1]; }
      }
    }
  }

  lemma TrimLeftAllSpace(w: string)
    requires AllSpace(w)
    ensures TrimLeft(w) == []
  {
    TrimLeftSpaces(w, []);
    assert w + [] == w;
  }

  /** `strip` ignores whitespace added on either side. */
  lemma StripPadded(w1: string, x: string, w2: string)
    requires AllSpace(w1) && AllSpace(w2)
    ensures Strip(w1 + x + w2) == Strip(x)
  {
    assert w1 + x + w2 == w1 + (x + w2);
    TrimLeftSpaces(w1, x + w2);
    TrimLeftAppend(x, w2);
    if AllSpace(x) {
      TrimLeftAllSpace(w2);
      TrimLeftAllSpace(x);
    } else {
      TrimRightSpaces(TrimLeft(x), w2);
    }
  }
  // ---------------------------------------------------------------------------
  // Code-point order on strings, as Python compares `str` values

  /** `a` sorts strictly before `b`. */
  predicate Below(a: string, b: string)
    decreases |a|
  {
    |b| > 0 && (|a| == 0 || a[0] < b[0] || (a[0] == b[0] && Below(a[1..], b[1..])))
  }

  lemma {:induction false} BelowIrreflexive(a: string)
    ensures !Below(a, a)
    decreases |a|
  {
    if |a| > 0 { BelowIrreflexive(a[1..]); }
  }

  lemma {:induction false} BelowTransitive(a: string, b: string, c: string)
    requires Below(a, b) && Below(b, c)
    ensures Below(a, c)
    decreases |a|
  {
    if |a| > 0 && a[0] == b[0] && b[0] == c[0] {
      BelowTransitive(a[1..], b[1..], c[1..]);
    }
  }

  lemma {:induction false} BelowTotal(a: string, b: string)
    requires a != b
    ensures Below(a, b) || Below(b, a)
    decreases |a|
  {
    if |a| > 0 && |b| > 0 && a[0] == b[0] {
      assert a == [a[0]] + a[1..] && b == [b[0]] + b[1..];
      BelowTotal(a[1..], b[1..]);
    }
  }

  lemma BelowAsymmetric(a: string, b: string)
    requires Below(a, b)
    ensures !Below(b, a)
  {
    if Below(b, a) {
      BelowTransitive(a, b, a);
      BelowIrreflexive(a);
    }
  }

  /** The elements of a sequence of names, as a set. */
  function Elems(s: seq<string>): set<string> {
    set y | y in s
  }

  predicate StrictlySorted(s: seq<string>) {
    forall i, j :: 0 <= i < j < |s| ==> Below(s[i], s[j])
  }

  /** A strictly sorted sequence starts with its least element. */
  lemma SortedHeadIsLeast(s: seq<string>, y: string)
    requires StrictlySorted(s) && y in s && y != s[0]
    ensures Below(s[0], y)
  {
  }

  lemma ConsSorted(x: string, t: seq<string>)
    requires StrictlySorted(t)
    requires forall y :: y in t ==> Below(x, y)
    ensures StrictlySorted([x] + t)
  {
    var r := [x] + t;
    forall i, j | 0 <= i < j < |r| ensures Below(r[i], r[j]) {
      assert r[j] == t[j - 1];
      if i > 0 { assert r[i] == t[i - 1]; }
    }
  }

  /** Inserts `x` into a strictly sorted sequence, keeping it strictly sorted. */
  function Insert(s: seq<string>, x: string): (r: seq<string>)
    requires StrictlySorted(s)
    ensures StrictlySorted(r)
    ensures Elems(r) == Elems(s) + {x}
    decreases |s|
  {
    if s == [] then [x]
    else if x == s[0] then s
    else if Below(x, s[0]) then
      assert forall y :: y in s ==> Below(x, y) by {
        forall y | y in s ensures Below(x, y) {
          if y != s[0] {
            SortedHeadIsLeast(s, y);
            BelowTransitive(x, s[0], y);
          }
        }
      }
      ConsSorted(x, s);
      assert Elems([x] + s) == Elems(s) + {x};
      [x] + s
    else
      BelowTotal(x, s[0]);
      var t := Insert(s[1..], x);
      assert forall y :: y in t ==> Below(s[0], y) by {
        forall y | y in t ensures Below(s[0], y) {
          assert y in Elems(t);
          if y != x {
            assert y in Elems(s[1..]);
            var j :| 0 <= j < |s[1..]| && s[1..][j] == y;
            assert s[1 + j] == y;
          }
        }
      }
      ConsSorted(s[0], t);
      assert s == [s[0]] + s[1..];
      assert Elems([s[0]] + t) == {s[0]} + Elems(t);
      assert Elems(s) == {s[0]} + Elems(s[1..]);
      [s[0]] + t
  }

  /** Python's `sorted` on a list of strings with no duplicates. */
  function Sorted(xs: seq<string>): (r: seq<string>)
    ensures StrictlySorted(r)
    ensures Elems(r) == Elems(xs)
    decreases |xs|
  {
    if xs == [] then []
    else
      var r := Insert(Sorted(xs[..|xs| - 1]), xs[|xs| - 1]);
      assert xs == xs[..|xs| - 1] + [xs[|xs| - 1]];
      r
  }

  /** Two strictly sorted sequences with the same elements are the same sequence. */
  lemma {:induction false} SortedUnique(a: seq<string>, b: seq<string>)
    requires StrictlySorted(a) && StrictlySorted(b)
    requires Elems(a) == Elems(b)
    ensures a == b
    decreases |a|
  {
    if a != [] { assert a[0] in Elems(a); }
    if b != [] { assert b[0] in Elems(b); }
    if a != [] && b != [] {
      if a[0] != b[0] {
        SortedHeadIsLeast(b, a[0]);
        SortedHeadIsLeast(a, b[0]);
        BelowAsymmetric(a[0], b[0]);
        assert false;
      }
      assert Elems(a[1..]) == Elems(b[1..]) by {
        forall y | y in a[1..] ensures y in b[1..] {
          var i :| 0 <= i < |a[1..]| && a[1..][i] == y;
          assert Below(a[0], a[i + 1]);
          BelowIrreflexive(y);
          assert y in Elems(a);
          var j :| 0 <= j < |b| && b[j] == y;
          assert b[1..][j - 1] == y;
        }
        forall y | y in b[1..] ensures y in a[1..] {
          var j :| 0 <= j < |b[1..]| && b[1..][j] == y;
          assert Below(b[0], b[j + 1]);
          BelowIrreflexive(y);
          assert y in Elems(b);
          var i :| 0 <= i < |a| && a[i] == y;
          assert a[1..][i - 1] == y;
        }
      }
      SortedUnique(a[1..], b[1..]);
      assert a == [a[0]] + a[1..] && b == [b[0]] + b[1..];
    }
  }
}
