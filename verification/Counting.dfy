/** Counting the entries of a sequence that satisfy a predicate. */
module Counting {

  function One(b: bool): (r: int) {
    if b then 1 else 0
  }

  function Count<T>(s: seq<T>, f: T -> bool): (n: int)
    ensures 0 <= n <= |s|
  {
    if s == [] then 0 else Count(s[..|s| - 1], f) + One(f(s[|s| - 1]))
  }

  function Total<T>(s: seq<T>, f: T -> int): int {
    if s == [] then 0 else Total(s[..|s| - 1], f) + f(s[|s| - 1])
  }

  /** Multiplication by a fixed factor, for proofs that must not search for it. */
  lemma Scaled(i: int, j: int, k: nat)
    requires i <= j
    ensures i * k <= j * k
    ensures (i + 1) * k == i * k + k
  {
  }

  lemma CountAppend<T>(s: seq<T>, x: T, f: T -> bool)
    ensures Count(s + [x], f) == Count(s, f) + One(f(x))
  {
    assert (s + [x])[..|s|] == s;
  }

  lemma {:induction false} CountUpdate<T>(s: seq<T>, i: nat, x: T, f: T -> bool)
    requires i < |s|
    ensures Count(s[i := x], f) == Count(s, f) - One(f(s[i])) + One(f(x))
  {
    var n := |s| - 1;
    if i == n {
      assert s[i := x][..n] == s[..n];
    } else {
      assert s[i := x][..n] == s[..n][i := x];
      CountUpdate(s[..n], i, x, f);
    }
  }

  lemma TotalAppend<T>(s: seq<T>, x: T, f: T -> int)
    ensures Total(s + [x], f) == Total(s, f) + f(x)
  {
    assert (s + [x])[..|s|] == s;
  }

  lemma {:induction false} TotalUpdate<T>(s: seq<T>, i: nat, x: T, f: T -> int)
    requires i < |s|
    ensures Total(s[i := x], f) == Total(s, f) - f(s[i]) + f(x)
  {
    var n := |s| - 1;
    if i == n {
      assert s[i := x][..n] == s[..n];
    } else {
      assert s[i := x][..n] == s[..n][i := x];
      TotalUpdate(s[..n], i, x, f);
    }
  }

  /** A positive count has a witness. */
  lemma {:induction false} CountWitness<T>(s: seq<T>, f: T -> bool) returns (i: nat)
    requires Count(s, f) > 0
    ensures i < |s| && f(s[i])
  {
    if f(s[|s| - 1]) {
      i := |s| - 1;
    } else {
      i := CountWitness(s[..|s| - 1], f);
    }
  }

  lemma {:induction false} TwoWitnesses<T>(s: seq<T>, f: T -> bool) returns (i: nat, j: nat)
    requires Count(s, f) >= 2
    ensures i < j < |s| && f(s[i]) && f(s[j])
  {
    var n := |s| - 1;
    if f(s[n]) {
      j := n;
      i := CountWitness(s[..n], f);
    } else {
      i, j := TwoWitnesses(s[..n], f);
    }
  }

  lemma {:induction false} CountZero<T>(s: seq<T>, f: T -> bool)
    requires forall i :: 0 <= i < |s| ==> !f(s[i])
    ensures Count(s, f) == 0
  {
    if s != [] { CountZero(s[..|s| - 1], f); }
  }

  /** A satisfied entry makes the count positive. */
  lemma {:induction false} CountPositive<T>(s: seq<T>, f: T -> bool, i: nat)
    requires i < |s| && f(s[i])
    ensures Count(s, f) >= 1
  {
    if i < |s| - 1 { CountPositive(s[..|s| - 1], f, i); }
  }

  /** Two satisfied entries make the count at least two. */
  lemma {:induction false} CountPair<T>(s: seq<T>, f: T -> bool, i: nat, j: nat)
    requires i < j < |s| && f(s[i]) && f(s[j])
    ensures Count(s, f) >= 2
  {
    if j < |s| - 1 {
      CountPair(s[..|s| - 1], f, i, j);
    } else {
      CountPositive(s[..|s| - 1], f, i);
    }
  }

  /** Three different satisfied entries make the count at least three. */
  lemma {:induction false} CountTriple<T>(s: seq<T>, f: T -> bool, i: nat, j: nat, k: nat)
    requires i < |s| && j < |s| && k < |s| && i != j && i != k && j != k
    requires f(s[i]) && f(s[j]) && f(s[k])
    ensures Count(s, f) >= 3
  {
    var n := |s| - 1;
    if i == n {
      CountPair(s[..n], f, if j < k then j else k, if j < k then k else j);
    } else if j == n {
      CountPair(s[..n], f, if i < k then i else k, if i < k then k else i);
    } else if k == n {
      CountPair(s[..n], f, if i < j then i else j, if i < j then j else i);
    } else {
      CountTriple(s[..n], f, i, j, k);
    }
  }

  /** Pointwise domination of one predicate by the sum of two others carries over to counts. */
  lemma {:induction false} CountDominated<T>(s: seq<T>, f: T -> bool, g: T -> bool, h: T -> bool)
    requires forall i :: 0 <= i < |s| ==> One(f(s[i])) <= One(g(s[i])) + One(h(s[i]))
    ensures Count(s, f) <= Count(s, g) + Count(s, h)
  {
    if s != [] { CountDominated(s[..|s| - 1], f, g, h); }
  }

  lemma {:induction false} CountBelow<T>(s: seq<T>, f: T -> bool, g: T -> bool, h: T -> bool)
    requires forall i :: 0 <= i < |s| ==> One(f(s[i])) + One(g(s[i])) <= One(h(s[i]))
    ensures Count(s, f) + Count(s, g) <= Count(s, h)
  {
    if s != [] { CountBelow(s[..|s| - 1], f, g, h); }
  }

  lemma {:induction false} CountImplied<T>(s: seq<T>, f: T -> bool, g: T -> bool)
    requires forall i :: 0 <= i < |s| ==> f(s[i]) ==> g(s[i])
    ensures Count(s, f) <= Count(s, g)
  {
    if s != [] { CountImplied(s[..|s| - 1], f, g); }
  }

  /** A sum of non-negative terms is at least each of them. */
  lemma {:induction false} TotalBounds<T>(s: seq<T>, f: T -> int, i: nat)
    requires forall k :: 0 <= k < |s| ==> f(s[k]) >= 0
    ensures Total(s, f) >= 0
    ensures i < |s| ==> f(s[i]) <= Total(s, f)
  {
    if s != [] { TotalBounds(s[..|s| - 1], f, i); }
  }

  /** A pointwise disjoint union adds counts. */
  lemma {:induction false} CountSplit<T>(s: seq<T>, f: T -> bool, g: T -> bool, h: T -> bool)
    requires forall i :: 0 <= i < |s| ==> One(f(s[i])) == One(g(s[i])) + One(h(s[i]))
    ensures Count(s, f) == Count(s, g) + Count(s, h)
  {
    if s != [] { CountSplit(s[..|s| - 1], f, g, h); }
  }

  /** The positions whose entry satisfies `f`. */
  function Positions<T>(s: seq<T>, f: T -> bool): set<int> {
    set i | 0 <= i < |s| && f(s[i])
  }

  /** `Count` is the number of those positions. */
  lemma {:induction false} CountIsCardinality<T>(s: seq<T>, f: T -> bool)
    ensures Count(s, f) == |Positions(s, f)|
  {
    if s != [] {
      var n := |s| - 1;
      CountIsCardinality(s[..n], f);
      assert Positions(s, f) == Positions(s[..n], f) + if f(s[n]) then {n} else {};
    }
  }

  lemma {:induction false} CountSame<T>(s: seq<T>, f: T -> bool, g: T -> bool)
    requires forall i :: 0 <= i < |s| ==> f(s[i]) == g(s[i])
    ensures Count(s, f) == Count(s, g)
  {
    if s != [] { CountSame(s[..|s| - 1], f, g); }
  }

  lemma {:induction false} CountByPosition<T>(s: seq<T>, t: seq<T>, f: T -> bool)
    requires |s| == |t| && forall i :: 0 <= i < |s| ==> f(s[i]) == f(t[i])
    ensures Count(s, f) == Count(t, f)
  {
    if s != [] { CountByPosition(s[..|s| - 1], t[..|t| - 1], f); }
  }
}
