/** The JavaScript string operations the site's navigation logic relies on:
    `toLowerCase`, `includes`, and `split(' ')` / `join(' ')` together with
    `Array.prototype.slice` and its negative indices. */
module Strings {

  /** ASCII case mapping: `'A'..'Z'` become `'a'..'z'`, every other character is kept. */
  function LowerChar(c: char): (r: char)
    ensures 'A' <= c <= 'Z' ==> r as int == c as int + 32
    ensures !('A' <= c <= 'Z') ==> r == c
    ensures !('A' <= r <= 'Z')
  {
    if 'A' <= c <= 'Z' then (c as int + 32) as char else c
  }

  /** `s.toLowerCase()`, character by character. */
  function Lower(s: string): (r: string)
    ensures |r| == |s|
    ensures forall i :: 0 <= i < |s| ==> r[i] == LowerChar(s[i])
  {
    seq(|s|, i requires 0 <= i < |s| => LowerChar(s[i]))
  }

  predicate IsLower(s: string) {
    forall i :: 0 <= i < |s| ==> !('A' <= s[i] <= 'Z')
  }

  lemma LowerIsLower(s: string)
    ensures IsLower(Lower(s))
    ensures IsLower(s) ==> Lower(s) == s
  {
  }

  /** Lowering twice is lowering once. */
  lemma LowerIdempotent(s: string)
    ensures Lower(Lower(s)) == Lower(s)
  {
    LowerIsLower(s);
  }

  /** Lowering distributes over concatenation. */
  lemma LowerAppend(a: string, b: string)
    ensures Lower(a + b) == Lower(a) + Lower(b)
  {
  }

  /** `p` occurs in `s` starting at position `k`. */
  predicate OccursAt(s: string, p: string, k: nat) {
    k + |p| <= |s| && s[k..k + |p|] == p
  }

  /** `s.includes(p)`: `p` occurs as a contiguous block of `s`. */
  predicate Contains(s: string, p: string) {
    exists k: nat | k <= |s| :: OccursAt(s, p, k)
  }

  /** An occurrence of `p` inside `a` or inside `b` is an occurrence in `a + b`. */
  lemma {:induction false} ContainsInAppend(a: string, b: string, p: string)
    requires Contains(a, p) || Contains(b, p)
    ensures Contains(a + b, p)
  {
    if Contains(a, p) {
      var k: nat :| k <= |a| && OccursAt(a, p, k);
      assert OccursAt(a + b, p, k) by { assert (a + b)[k..k + |p|] == a[k..k + |p|]; }
    } else {
      var k: nat :| k <= |b| && OccursAt(b, p, k);
      assert (a + b)[|a| + k..|a| + k + |p|] == b[k..k + |p|];
      assert OccursAt(a + b, p, |a| + k);
    }
  }

  /** No two adjacent characters of `s` are `a` followed by `b`. */
  predicate NoPair(s: string, a: char, b: char) {
    forall k :: 0 <= k < |s| - 1 ==> s[k] == a ==> s[k + 1] != b
  }

  /** Gluing two strings creates no `a`-`b` pair except possibly at the seam. */
  lemma NoPairAppend(x: string, y: string, a: char, b: char)
    requires NoPair(x, a, b) && NoPair(y, a, b)
    requires |x| == 0 || |y| == 0 || x[|x| - 1] != a || y[0] != b
    ensures NoPair(x + y, a, b)
  {
    var s := x + y;
    forall k | 0 <= k < |s| - 1 && s[k] == a
      ensures s[k + 1] != b
    {
      if k + 1 < |x| {
        assert s[k] == x[k] && s[k + 1] == x[k + 1];
      } else if k >= |x| {
        assert s[k] == y[k - |x|] && s[k + 1] == y[k - |x| + 1];
      }
    }
  }

  /** A string that never shows two adjacent characters of `p` side by side does
      not contain `p`: the refutation used for concrete menu labels. */
  lemma {:induction false} MissingPair(s: string, p: string, j: nat)
    requires j + 1 < |p|
    requires NoPair(s, p[j], p[j + 1])
    ensures !Contains(s, p)
  {
    forall k: nat | k <= |s|
      ensures !OccursAt(s, p, k)
    {
      if k + |p| <= |s| {
        var w := s[k..k + |p|];
        assert w[j] == s[k + j] && w[j + 1] == s[k + j + 1];
      }
    }
  }

  /** An occurrence found at a known position. */
  lemma PresentAt(s: string, p: string, k: nat)
    requires OccursAt(s, p, k)
    ensures Contains(s, p)
  {
  }

  /** A pattern free of the separator `c` occurs in `a + [c] + b` exactly when it
      occurs in `a` or in `b`. */
  lemma {:induction false} ContainsAroundSeparator(a: string, c: char, b: string, p: string)
    requires c !in p
    ensures Contains(a + [c] + b, p) <==> Contains(a, p) || Contains(b, p)
  {
    var s := a + [c] + b;
    if Contains(a, p) || Contains(b, p) {
      if Contains(a, p) {
        ContainsInAppend(a, [c], p);
      }
      ContainsInAppend(a + [c], b, p);
    }
    if Contains(s, p) {
      var k: nat :| k <= |s| && OccursAt(s, p, k);
      assert s[|a|] == c;
      assert |a| < k || k + |p| <= |a| by {
        assert forall i :: k <= i < k + |p| ==> s[i] == p[i - k];
      }
      if k + |p| <= |a| {
        forall i | 0 <= i < |p|
          ensures a[k + i] == p[i]
        {
          assert s[k + i] == a[k + i] && s[k..k + |p|][i] == s[k + i];
        }
        assert a[k..k + |p|] == p;
        assert OccursAt(a, p, k);
      } else {
        var m := k - |a| - 1;
        forall i | 0 <= i < |p|
          ensures b[m + i] == p[i]
        {
          assert s[k + i] == b[m + i] && s[k..k + |p|][i] == s[k + i];
        }
        assert b[m..m + |p|] == p;
        assert OccursAt(b, p, m);
      }
    }
  }

  /** Every character of `s` is drawn from `cs`. */
  predicate Within(s: string, cs: set<char>) {
    forall i :: 0 <= i < |s| ==> s[i] in cs
  }

  lemma WithinAppend(x: string, y: string, cs: set<char>)
    requires Within(x, cs) && Within(y, cs)
    ensures Within(x + y, cs)
  {
    forall i | 0 <= i < |x + y|
      ensures (x + y)[i] in cs
    {
      if i >= |x| {
        assert (x + y)[i] == y[i - |x|];
      }
    }
  }

  /** A string whose characters all come from `cs` cannot contain a pattern
      with a character outside `cs`. */
  lemma {:induction false} MissingChar(s: string, cs: set<char>, p: string, j: nat)
    requires Within(s, cs) && j < |p| && p[j] !in cs
    ensures !Contains(s, p)
  {
    forall k: nat | k <= |s|
      ensures !OccursAt(s, p, k)
    {
      if k + |p| <= |s| {
        assert s[k..k + |p|][j] == s[k + j];
      }
    }
  }

  /** `s.split(sep)` for a one-character separator: the pieces between
      consecutive separators, so `k` separators give `k + 1` pieces and empty
      pieces are kept. */
  function Split(s: string, sep: char): (r: seq<string>)
    ensures |r| >= 1
  {
    if |s| == 0 then [""]
    else
      var rest := Split(s[1..], sep);
      if s[0] == sep then [""] + rest
      else [[s[0]] + rest[0]] + rest[1..]
  }

  /** `ws.join(sep)`: the pieces with one separator between neighbours. */
  function Join(ws: seq<string>, sep: char): (r: string)
    ensures |ws| == 0 ==> r == ""
    ensures |ws| >= 1 ==> |r| >= |ws[0]| && r[..|ws[0]|] == ws[0]
  {
    if |ws| == 0 then ""
    else if |ws| == 1 then ws[0]
    else ws[0] + [sep] + Join(ws[1..], sep)
  }

  /** No piece of a split holds the separator. */
  lemma {:induction false} SplitPiecesLackSeparator(s: string, sep: char)
    ensures forall i :: 0 <= i < |Split(s, sep)| ==> sep !in Split(s, sep)[i]
  {
    if |s| > 0 {
      SplitPiecesLackSeparator(s[1..], sep);
      var rest := Split(s[1..], sep);
      if s[0] != sep {
        assert sep !in [s[0]] + rest[0];
        assert forall i :: 0 < i < |Split(s, sep)| ==> Split(s, sep)[i] == rest[i];
      } else {
        assert forall i :: 0 < i < |Split(s, sep)| ==> Split(s, sep)[i] == rest[i - 1];
      }
    }
  }

  /** Joining the pieces of a split gives back the string. */
  lemma {:induction false} JoinSplit(s: string, sep: char)
    ensures Join(Split(s, sep), sep) == s
  {
    if |s| > 0 {
      var rest := Split(s[1..], sep);
      JoinSplit(s[1..], sep);
      if s[0] == sep {
        assert Split(s, sep) == [""] + rest;
        assert ([""] + rest)[1..] == rest;
      } else if |rest| > 1 {
        assert Split(s, sep) == [[s[0]] + rest[0]] + rest[1..];
        assert ([[s[0]] + rest[0]] + rest[1..])[1..] == rest[1..];
        assert Join(rest, sep) == rest[0] + [sep] + Join(rest[1..], sep);
      }
    }
  }

  /** A string without the separator is a single piece. */
  lemma {:induction false} SplitWithoutSeparator(s: string, sep: char)
    requires sep !in s
    ensures Split(s, sep) == [s]
  {
    if |s| > 0 {
      assert sep !in s[1..] by { assert forall i :: 0 <= i < |s| - 1 ==> s[1..][i] == s[i + 1]; }
      SplitWithoutSeparator(s[1..], sep);
      assert s[0] != sep;
      assert [s[0]] + s[1..] == s;
    }
  }

  /** A leading character other than the separator joins the first piece. */
  lemma SplitCons(c: char, t: string, sep: char)
    requires c != sep
    ensures Split([c] + t, sep) == [[c] + Split(t, sep)[0]] + Split(t, sep)[1..]
  {
    assert ([c] + t)[1..] == t;
  }

  /** Splitting at the first separator splits the string into its two sides. */
  lemma {:induction false} SplitAtSeparator(a: string, sep: char, b: string)
    requires sep !in a
    ensures Split(a + [sep] + b, sep) == Split(a, sep) + Split(b, sep)
  {
    if |a| == 0 {
      assert a + [sep] + b == [sep] + b;
      assert ([sep] + b)[1..] == b;
    } else {
      var t := a[1..];
      assert a == [a[0]] + t;
      assert a + [sep] + b == [a[0]] + (t + [sep] + b);
      assert sep !in t;
      SplitAtSeparator(t, sep, b);
      var rt, rb := Split(t, sep), Split(b, sep);
      SplitCons(a[0], t + [sep] + b, sep);
      SplitCons(a[0], t, sep);
      assert (rt + rb)[0] == rt[0] && (rt + rb)[1..] == rt[1..] + rb;
      assert [[a[0]] + rt[0]] + (rt[1..] + rb) == ([[a[0]] + rt[0]] + rt[1..]) + rb;
    }
  }

  /** Each separator adds a piece: a separator at `i` leaves at least one more
      piece before the pieces of what follows it. */
  lemma {:induction false} SplitPastSeparator(s: string, sep: char, i: nat)
    requires i < |s| && s[i] == sep
    ensures |Split(s, sep)| >= |Split(s[i + 1..], sep)| + 1
  {
    if i > 0 {
      SplitPastSeparator(s[1..], sep, i - 1);
      assert s[1..][i - 1 + 1..] == s[i + 1..];
    }
  }

  /** Pieces free of the separator come back unchanged from join-then-split,
      so `Split` and `Join` are inverse on such lists. */
  lemma {:induction false} SplitJoin(ws: seq<string>, sep: char)
    requires |ws| >= 1
    requires forall i :: 0 <= i < |ws| ==> sep !in ws[i]
    ensures Split(Join(ws, sep), sep) == ws
  {
    if |ws| == 1 {
      SplitWithoutSeparator(ws[0], sep);
    } else {
      SplitJoin(ws[1..], sep);
      SplitAtSeparator(ws[0], sep, Join(ws[1..], sep));
      SplitWithoutSeparator(ws[0], sep);
      assert [ws[0]] + ws[1..] == ws;
    }
  }

  /** Joining two non-empty lists puts one separator between their joins. */
  lemma {:induction false} JoinAppend(a: seq<string>, b: seq<string>, sep: char)
    requires |a| >= 1 && |b| >= 1
    ensures Join(a + b, sep) == Join(a, sep) + [sep] + Join(b, sep)
  {
    if |a| > 1 {
      JoinAppend(a[1..], b, sep);
      assert (a + b)[1..] == a[1..] + b;
    } else {
      assert (a + b)[1..] == b;
    }
  }

  /** The start or end argument of `Array.prototype.slice`: a negative index
      counts from the end, and the result is clamped to `[0, len]`. */
  function SliceIndex(i: int, len: nat): (r: nat)
    ensures r <= len
    ensures 0 <= i <= len ==> r == i
    ensures i < 0 && len + i >= 0 ==> r == len + i
    ensures i < 0 && len + i < 0 ==> r == 0
    ensures i > len ==> r == len
  {
    if i < 0 then (if len + i < 0 then 0 else len + i)
    else if i > len then len
    else i
  }

  /** `xs.slice(begin, end)`; `xs.slice(begin)` is `Slice(xs, begin, |xs|)`. */
  function Slice<T>(xs: seq<T>, begin: int, end: int): (r: seq<T>)
    ensures |r| <= |xs|
    ensures |r| == 0 <==> SliceIndex(end, |xs|) <= SliceIndex(begin, |xs|)
    ensures SliceIndex(begin, |xs|) + |r| <= |xs|
    ensures forall j :: 0 <= j < |r| ==> r[j] == xs[SliceIndex(begin, |xs|) + j]
  {
    var b := SliceIndex(begin, |xs|);
    var e := SliceIndex(end, |xs|);
    if e <= b then [] else xs[b..e]
  }

  /** `xs.slice(0, k)` and `xs.slice(k)` cut the list in two, for every `k`,
      negative or past the end included. */
  lemma SliceComplement<T>(xs: seq<T>, k: int)
    ensures Slice(xs, 0, k) + Slice(xs, k, |xs|) == xs
    ensures |Slice(xs, k, |xs|)| == |xs| - SliceIndex(k, |xs|)
  {
    var m := SliceIndex(k, |xs|);
    assert xs[0..m] + xs[m..|xs|] == xs;
  }
}
