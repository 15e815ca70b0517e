/** Paths, cycles and the best tour of the travelling-salesman application.  A weight of 0 means that
    there is no edge. */
module TspTours {
  import opened Seqs

  /** The weight of the edges along a path. */
  function PathWeight(w: seq<seq<nat>>, p: seq<nat>): (r: nat)
    requires Square(w) && InRange(p, |w|)
  {
    if |p| <= 1 then 0 else PathWeight(w, p[..|p| - 1]) + w[p[|p| - 2]][p[|p| - 1]]
  }

  predicate Square(w: seq<seq<nat>>) { forall i :: 0 <= i < |w| ==> |w[i]| == |w| }

  predicate InRange(p: seq<nat>, n: nat) { forall i :: 0 <= i < |p| ==> p[i] < n }

  predicate NoRepeats(p: seq<nat>) { forall i, j :: 0 <= i < j < |p| ==> p[i] != p[j] }

  /** Every step of p is an edge. */
  predicate Connected(w: seq<seq<nat>>, p: seq<nat>)
    requires Square(w) && InRange(p, |w|)
  {
    forall i :: 0 < i < |p| ==> w[p[i - 1]][p[i]] != 0
  }

  /** A simple path of the graph that starts at node 0. */
  predicate RealPath(w: seq<seq<nat>>, p: seq<nat>) {
    Square(w) && 1 <= |p| <= |w| && InRange(p, |w|) && p[0] == 0 && NoRepeats(p) && Connected(w, p)
  }

  /** A Hamiltonian cycle, as the order in which it visits the nodes. */
  predicate Cycle(w: seq<seq<nat>>, c: seq<nat>) {
    RealPath(w, c) && |c| == |w| && w[c[|c| - 1]][0] != 0
  }

  function CycleWeight(w: seq<seq<nat>>, c: seq<nat>): (r: nat)
    requires Cycle(w, c)
  {
    PathWeight(w, c) + w[c[|c| - 1]][0]
  }

  /** A prefix weighs no more than the path. */
  lemma {:induction false} PrefixWeight(w: seq<seq<nat>>, p: seq<nat>, k: nat)
    requires Square(w) && InRange(p, |w|) && k <= |p|
    ensures PathWeight(w, p[..k]) <= PathWeight(w, p)
  {
    if k == |p| {
      assert p[..k] == p;
    } else {
      PrefixWeight(w, p[..|p| - 1], k);
      assert p[..|p| - 1][..k] == p[..k];
    }
  }

  lemma OneMoreEdge(w: seq<seq<nat>>, p: seq<nat>, v: nat)
    requires Square(w) && InRange(p, |w|) && |p| >= 1 && v < |w|
    ensures PathWeight(w, p + [v]) == PathWeight(w, p) + w[p[|p| - 1]][v]
  {
    Snoc(p, v);
    assert InRange(p + [v], |w|);
  }

  const MAXTOURSIZE := 32

  /** min is the weight of the cycle in tour. */
  ghost predicate Achieved(w: seq<seq<nat>>, tour: seq<nat>, min: nat) {
    Cycle(w, tour) && min == CycleWeight(w, tour)
  }

  /** The best tour so far: MinTourLen and MinTour. */
  class Best {
    const n: nat
    const minTour: array<nat>
    var minTourLen: nat

    constructor (n: nat, bound: nat)
      requires 1 <= n <= MAXTOURSIZE
      ensures Shape() && this.n == n && minTourLen == bound && fresh(minTour)
    {
      this.n := n;
      minTour := new nat[MAXTOURSIZE](_ => 0);
      minTourLen := bound;
    }

    ghost predicate Shape() { 1 <= n <= MAXTOURSIZE && minTour.Length == MAXTOURSIZE }

    ghost function Tour(): seq<nat>
      requires Shape()
      reads minTour
    {
      minTour[..n]
    }

    /** The best length has not grown; if it has changed, it is that of the cycle in minTour. */
    twostate predicate Improved(w: seq<seq<nat>>)
      requires Shape()
      reads this, minTour
    {
      && minTourLen <= old(minTourLen)
      && ((minTourLen == old(minTourLen) && Tour() == old(Tour())) || Achieved(w, Tour(), minTourLen))
    }

    /** set_best: a shorter tour replaces the best one. */
    method SetBest(best: nat, path: array<nat>)
      requires Shape() && path != minTour && n <= path.Length
      modifies this`minTourLen, minTour
      ensures minTourLen == if best < old(minTourLen) then best else old(minTourLen)
      ensures Tour() == if best < old(minTourLen) then path[..n] else old(Tour())
    {
      if best < minTourLen {
        minTourLen := best;
        for i := 0 to n
          invariant minTourLen == best && minTour[..i] == path[..i]
        {
          minTour[i] := path[i];
        }
      }
    }
  }

  function NodeSet(n: nat): (s: set<nat>)
    ensures |s| == n && forall v :: v in s <==> 0 <= v < n
  {
    if n == 0 then {} else NodeSet(n - 1) + {n - 1}
  }

  function Members(p: seq<nat>): (s: set<nat>)
    ensures forall v :: v in s <==> v in p
  {
    set v | v in p
  }

  lemma {:induction false} MembersSize(p: seq<nat>)
    requires NoRepeats(p)
    ensures |Members(p)| == |p|
  {
    if p != [] {
      var n := |p| - 1;
      MembersSize(p[..n]);
      assert Members(p) == Members(p[..n]) + {p[n]};
      assert p[n] !in p[..n];
    }
  }

  lemma SubsetSize(a: set<nat>, b: set<nat>)
    requires a <= b
    ensures |a| <= |b| && (|a| == |b| ==> a == b)
  {
    assert b == a + (b - a);
  }

  /** A path of n different nodes visits all of them. */
  lemma AllVisited(p: seq<nat>, n: nat)
    requires NoRepeats(p) && InRange(p, n) && |p| >= n
    ensures |p| == n && forall v :: 0 <= v < n ==> v in p
  {
    MembersSize(p);
    SubsetSize(Members(p), NodeSet(n));
  }

  /** A partial tour on the queue: TourElement.  conn holds the nodes whose bits are set. */
  class TourElement {
    const prefix: array<nat>
    var conn: set<nat>
    var last: nat
    var prefixWeight: nat
    var lowerBound: nat
    var mstWeight: nat

    constructor ()
      ensures fresh(prefix) && prefix.Length == MAXTOURSIZE
    {
      prefix := new nat[MAXTOURSIZE](_ => 0);
      conn, last, prefixWeight, lowerBound, mstWeight := {}, 0, 0, 0, 0;
    }

    /** The element stands for the path p. */
    ghost predicate Is(w: seq<seq<nat>>, p: seq<nat>)
      reads this`last, this`conn, this`prefixWeight, prefix
    {
      && RealPath(w, p) && |w| <= MAXTOURSIZE == prefix.Length && last + 1 == |p|
      && prefix[..last + 1] == p && conn == Members(p) && prefixWeight == PathWeight(w, p)
    }
  }
}
