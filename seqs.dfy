/** `Array.prototype.filter` on sequences, and the facts the client code relies on. */
module Seqs {
  /** The elements of `s` that satisfy `p`, in their original order. */
  function Keep<T(!new)>(s: seq<T>, p: T -> bool): (r: seq<T>)
    ensures |r| <= |s|
  {
    if |s| == 0 then []
    else
      Keep(s[..|s| - 1], p) + (if p(s[|s| - 1]) then [s[|s| - 1]] else [])
  }

  /** An element is kept exactly when it occurs and passes the test. */
  lemma {:induction false} KeepMembers<T(!new)>(s: seq<T>, p: T -> bool)
    ensures forall x :: x in Keep(s, p) <==> x in s && p(x)
  {
    if |s| > 0 {
      KeepMembers(s[..|s| - 1], p);
      assert s == s[..|s| - 1] + [s[|s| - 1]];
    }
  }

  /** Filtering distributes over concatenation, so the kept elements stay in order. */
  lemma {:induction false} KeepAppend<T(!new)>(a: seq<T>, b: seq<T>, p: T -> bool)
    ensures Keep(a + b, p) == Keep(a, p) + Keep(b, p)
    decreases |b|
  {
    if |b| == 0 {
      assert a + b == a;
    } else {
      var b' := b[..|b| - 1];
      assert (a + b)[..|a + b| - 1] == a + b';
      assert (a + b)[|a + b| - 1] == b[|b| - 1];
      KeepAppend(a, b', p);
    }
  }

  /** A filter that every element passes changes nothing. */
  lemma {:induction false} KeepAll<T(!new)>(s: seq<T>, p: T -> bool)
    requires forall i :: 0 <= i < |s| ==> p(s[i])
    ensures Keep(s, p) == s
  {
    if |s| > 0 {
      KeepAll(s[..|s| - 1], p);
      assert s == s[..|s| - 1] + [s[|s| - 1]];
    }
  }

  /** The positions of `s` whose element passes `p`. */
  function Positions<T>(s: seq<T>, p: T -> bool): set<int> {
    set k | 0 <= k < |s| && p(s[k])
  }

  /** The number of kept elements is the number of positions whose element passes. */
  lemma {:induction false} KeepCount<T(!new)>(s: seq<T>, p: T -> bool)
    ensures |Keep(s, p)| == |Positions(s, p)|
  {
    if |s| == 0 {
      assert Positions(s, p) == {};
    } else {
      var n := |s| - 1;
      KeepCount(s[..n], p);
      assert Positions(s, p) == Positions(s[..n], p) + (if p(s[n]) then {n} else {});
      assert n !in Positions(s[..n], p);
    }
  }

  /** A filter that no element passes keeps nothing. */
  lemma KeepNone<T(!new)>(s: seq<T>, p: T -> bool)
    requires forall x :: !p(x)
    ensures Keep(s, p) == []
  {
    KeepMembers(s, p);
  }

  /**
   * Counting the elements that pass one of two exclusive tests is counting each test apart.
   */
  lemma {:induction false} KeepCountSplit<T(!new)>(s: seq<T>, p: T -> bool, q: T -> bool, either: T -> bool)
    requires forall x :: either(x) == (p(x) || q(x))
    requires forall x :: !(p(x) && q(x))
    ensures |Keep(s, either)| == |Keep(s, p)| + |Keep(s, q)|
  {
    if |s| > 0 {
      KeepCountSplit(s[..|s| - 1], p, q, either);
    }
  }
}
