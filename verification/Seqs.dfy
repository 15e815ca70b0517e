/** Facts about sequences, each proved away from the terms it is used with. */
module Seqs {

  lemma Assoc<T>(a: seq<T>, b: seq<T>, c: seq<T>)
    ensures (a + b) + c == a + (b + c)
  {
  }

  lemma NoTail<T>(a: seq<T>)
    ensures a + [] == a
  {
  }

  lemma TakeAll<T>(s: seq<T>)
    ensures s[..|s|] == s
  {
  }

  lemma SplitLast<T>(s: seq<T>)
    requires s != []
    ensures s == s[..|s| - 1] + [s[|s| - 1]]
  {
  }

  lemma Snoc<T>(s: seq<T>, x: T)
    ensures (s + [x])[..|s|] == s && (s + [x])[|s|] == x
    ensures forall i :: 0 <= i < |s| ==> (s + [x])[i] == s[i]
  {
  }

  lemma SplitAt<T>(s: seq<T>, i: nat)
    requires i < |s|
    ensures s == s[..i] + [s[i]] + s[i + 1..]
  {
  }

  lemma TailOfConcat<T>(a: seq<T>, b: seq<T>)
    requires a != []
    ensures (a + b)[0] == a[0] && (a + b)[1..] == a[1..] + b
  {
  }

  /** A slice of one part of a concatenation. */
  lemma SliceOfConcat<T>(a: seq<T>, b: seq<T>, c: seq<T>, i: nat, j: nat)
    requires i <= j <= |b|
    ensures |a + b + c| == |a| + |b| + |c| && (a + b + c)[|a| + i..|a| + j] == b[i..j]
  {
    var all := a + b + c;
    assert forall k :: i <= k < j ==> all[|a| + k] == b[k];
  }

  lemma WholeSlice<T>(a: seq<T>, b: seq<T>, c: seq<T>)
    ensures (a + b + c)[|a|..|a| + |b|] == b
  {
  }

  /** A slice of a slice. */
  lemma SliceSlice<T>(s: seq<T>, i: nat, stop: nat, a: nat, b: nat)
    requires i <= stop <= |s| && a <= b <= stop - i
    ensures s[i..stop][a..b] == s[i + a..i + b]
  {
    var x, y := s[i..stop], s[i + a..i + b];
    assert forall k :: 0 <= k < b - a ==> x[a + k] == y[k];
  }
}
