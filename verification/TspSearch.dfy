/** The recursive branch-and-bound search of the travelling-salesman application, below one prefix. */
module TspSearch {
  import opened TspTours

  /** The minimum is at most the weight of every cycle that continues p with a node below `limit`. */
  ghost predicate Beaten(w: seq<seq<nat>>, p: seq<nat>, limit: nat, min: nat) {
    forall c :: Cycle(w, c) && p < c && c[|p|] < limit ==> min <= CycleWeight(w, c)
  }

  /** Node i cannot, or need not, follow p. */
  lemma NoCycleThrough(w: seq<seq<nat>>, p: seq<nat>, i: nat, min: nat)
    requires RealPath(w, p) && i < |w| && Beaten(w, p, i, min)
    requires i in p || w[p[|p| - 1]][i] == 0 || PathWeight(w, p) + w[p[|p| - 1]][i] >= min
    ensures Beaten(w, p, i + 1, min)
  {
    forall c | Cycle(w, c) && p < c && c[|p|] == i ensures min <= CycleWeight(w, c) {
      var q := p + [i];
      assert q == c[..|q|];
      if i !in p {
        assert c[|p| - 1] == p[|p| - 1];
        PrefixWeight(w, c, |q|);
        OneMoreEdge(w, p, i);
      }
    }
  }

  /** Node i completes the path. */
  lemma LastNode(w: seq<seq<nat>>, p: seq<nat>, i: nat, min: nat)
    requires RealPath(w, p + [i]) && |p| + 1 == |w| && Beaten(w, p, i, min)
    requires Cycle(w, p + [i]) ==> min <= CycleWeight(w, p + [i])
    ensures Beaten(w, p, i + 1, min)
  {
    forall c | Cycle(w, c) && p < c && c[|p|] == i ensures min <= CycleWeight(w, c) {
      assert c == p + [i];
    }
  }

  /** Everything below p + [i] has been searched. */
  lemma Subtree(w: seq<seq<nat>>, p: seq<nat>, i: nat, min: nat)
    requires RealPath(w, p + [i]) && |p| + 1 < |w| && Beaten(w, p, i, min) && Beaten(w, p + [i], |w|, min)
    ensures Beaten(w, p, i + 1, min)
  {
    forall c | Cycle(w, c) && p < c && c[|p|] == i ensures min <= CycleWeight(w, c) {
      assert p + [i] < c;
    }
  }

  lemma StillBeaten(w: seq<seq<nat>>, p: seq<nat>, limit: nat, min: nat, less: nat)
    requires Beaten(w, p, limit, min) && less <= min
    ensures Beaten(w, p, limit, less)
  {
  }

  class Search {
    const n: nat
    const weights: seq<seq<nat>>
    const best: Best
    const visit: array<bool>
    const path: array<nat>
    var pathLen: nat
    var curDist: nat

    constructor (weights: seq<seq<nat>>, best: Best)
      requires Square(weights) && best.Shape() && best.n == |weights|
      ensures Shape() && this.weights == weights && this.best == best && pathLen == curDist == 0
      ensures fresh(visit) && fresh(path)
    {
      n, this.weights, this.best := |weights|, weights, best;
      visit := new bool[MAXTOURSIZE](_ => false);
      path := new nat[MAXTOURSIZE](_ => 0);
      pathLen, curDist := 0, 0;
    }

    ghost predicate Shape() {
      && Square(weights) && |weights| == n == best.n && best.Shape()
      && visit.Length == path.Length == MAXTOURSIZE && path != best.minTour
    }

    /** The search stands at the path p. */
    ghost predicate At(p: seq<nat>)
      reads this, visit, path
    {
      && Shape() && RealPath(weights, p) && |p| == pathLen && path[..pathLen] == p
      && (forall v :: 0 <= v < n ==> (visit[v] <==> v in p))
      && curDist == PathWeight(weights, p)
    }

    /** The body of the if that handles the last node. */
    method Leaf(i: nat, ghost p: seq<nat>)
      requires At(p) && |p| == n && p[n - 1] == i
      modifies this`curDist, best`minTourLen, best.minTour
      ensures At(p) && best.Improved(weights)
      ensures Cycle(weights, p) ==> best.minTourLen <= CycleWeight(weights, p)
    {
      var last := weights[i][0];
      if last != 0 {
        curDist := curDist + last;
        if curDist < best.minTourLen {
          best.SetBest(curDist, path);
        }
      }
      curDist := curDist - last;
    }

    /** One turn of the loop of visit_nodes: node i, behind the path p. */
    method TryNode(from: nat, i: nat, ghost p: seq<nat>)
      requires At(p) && from == p[|p| - 1] && 1 <= i < n && Beaten(weights, p, i, best.minTourLen)
      modifies this`pathLen, this`curDist, best`minTourLen, visit, path, best.minTour
      ensures At(p) && best.Improved(weights) && Beaten(weights, p, i + 1, best.minTourLen)
      decreases n - |p|, 0
    {
      if visit[i] {
        NoCycleThrough(weights, p, i, best.minTourLen);
        return;
      }
      if |p| == n { AllVisited(p, n); }
      var dist := weights[from][i];
      if dist == 0 || curDist + dist > best.minTourLen {
        NoCycleThrough(weights, p, i, best.minTourLen);
        return;
      }
      Enter(from, i, p);
      ghost var q := p + [i];
      if pathLen == n {
        Leaf(i, q);
        StillBeaten(weights, p, i, old(best.minTourLen), best.minTourLen);
        LastNode(weights, p, i, best.minTourLen);
      } else if curDist < best.minTourLen {
        VisitNodes(i, q);
        StillBeaten(weights, p, i, old(best.minTourLen), best.minTourLen);
        Subtree(weights, p, i, best.minTourLen);
      } else {
        NoCycleThrough(weights, p, i, best.minTourLen);
      }
      Leave(from, i, p);
    }

    /** Try next node. */
    method Enter(from: nat, i: nat, ghost p: seq<nat>)
      requires At(p) && |p| < n && from == p[|p| - 1] && 1 <= i < n && !visit[i] && weights[from][i] != 0
      modifies this`pathLen, this`curDist, visit, path
      ensures At(p + [i]) && curDist == old(curDist) + weights[from][i]
    {
      OneMoreEdge(weights, p, i);
      visit[i] := true;
      path[pathLen] := i;
      pathLen := pathLen + 1;
      curDist := curDist + weights[from][i];
      assert path[..pathLen] == p + [i];
    }

    /** Remove current try. */
    method Leave(from: nat, i: nat, ghost p: seq<nat>)
      requires At(p + [i]) && RealPath(weights, p) && from == p[|p| - 1]
      modifies this`pathLen, this`curDist, visit
      ensures At(p)
    {
      OneMoreEdge(weights, p, i);
      assert path[..pathLen - 1] == path[..pathLen][..pathLen - 1] == p;
      assert forall j :: 0 <= j < |p| ==> (p + [i])[j] == p[j];
      assert (p + [i])[|p|] == i;
      curDist := curDist - weights[from][i];
      pathLen := pathLen - 1;
      visit[i] := false;
    }

    /** visit_nodes: afterwards the best length is at most that of every cycle that continues p, and
        path, visit marks and distance are as they were. */
    method VisitNodes(from: nat, ghost p: seq<nat>)
      requires At(p) && from == p[|p| - 1]
      modifies this`pathLen, this`curDist, best`minTourLen, visit, path, best.minTour
      ensures At(p) && best.Improved(weights) && Beaten(weights, p, n, best.minTourLen)
      decreases n - |p|, 1
    {
      NothingBelowOne(weights, p, best.minTourLen);
      for i := 1 to n
        invariant At(p) && best.Improved(weights) && Beaten(weights, p, i, best.minTourLen)
      {
        TryNode(from, i, p);
      }
    }

    /** The first half of recursive_solve: the state of the partial tour becomes that of the search. */
    method Load(curr: TourElement, ghost p: seq<nat>)
      requires Shape() && curr.Is(weights, p) && curr.prefix != path
      modifies this`pathLen, this`curDist, visit, path
      ensures At(p)
    {
      curDist, pathLen := curr.prefixWeight, curr.last + 1;
      for i := 0 to n
        invariant pathLen == |p| && curDist == PathWeight(weights, p)
        invariant forall v :: 0 <= v < i ==> !visit[v]
      {
        visit[i] := false;
      }
      for i := 0 to pathLen
        invariant pathLen == |p| && curDist == PathWeight(weights, p) && path[..i] == p[..i]
        invariant forall v :: 0 <= v < n ==> (visit[v] <==> v in p[..i])
      {
        assert p[i] == curr.prefix[..curr.last + 1][i] && p[..i + 1] == p[..i] + [p[i]];
        path[i] := curr.prefix[i];
        visit[path[i]] := true;
      }
      assert p[..|p|] == p;
    }

    /** recursive_solve: the search below one partial tour. */
    method RecursiveSolve(curr: TourElement, ghost p: seq<nat>)
      requires Shape() && curr.Is(weights, p) && curr.prefix != path && curr.prefix != best.minTour
      modifies this`pathLen, this`curDist, best`minTourLen, visit, path, best.minTour
      ensures At(p) && best.Improved(weights) && Beaten(weights, p, n, best.minTourLen)
    {
      Load(curr, p);
      VisitNodes(path[pathLen - 1], p);
    }
  }

  lemma NothingBelowOne(w: seq<seq<nat>>, p: seq<nat>, min: nat)
    requires RealPath(w, p)
    ensures Beaten(w, p, 1, min)
  {
    assert forall c :: Cycle(w, c) && p < c ==> c[0] != c[|p|];
  }

  /** Searching below the start node alone beats every cycle of the graph. */
  lemma WholeSearch(w: seq<seq<nat>>, min: nat)
    requires Square(w) && |w| >= 2 && Beaten(w, [0], |w|, min)
    ensures forall c :: Cycle(w, c) ==> min <= CycleWeight(w, c)
  {
    forall c | Cycle(w, c) ensures min <= CycleWeight(w, c) {
      assert [0] < c;
    }
  }
}
