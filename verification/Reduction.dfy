/** Tree reduction: jia_reduce on all hosts at once, each at its own pace.  Positions are counted
    from the root, so position v stands for host (v + root) mod hostc. */
module Reduction {
  import opened RingMask

  // ---------------------------------------------------------------- the tree

  /** The number of low-order zero bits. */
  function Low(u: nat): (j: nat)
    requires u > 0
    decreases u
  {
    if u % 2 == 1 then 0 else 1 + Low(u / 2)
  }

  /** 2^j divides v. */
  predicate Divides(j: nat, v: nat) { v == 0 || j <= Low(v) }

  lemma {:induction false} DividesIsRemainder(j: nat, v: nat)
    ensures Divides(j, v) <==> v % Pow2(j) == 0
    decreases j
  {
    if j > 0 {
      var m := Pow2(j - 1);
      HalfRemainder(v, m);
      DividesIsRemainder(j - 1, v / 2);
    } else {
      RemainderIs(v, 1, v, 0);
    }
  }

  /** A receiver at level j takes from the position 2^j above, whose sending level is j. */
  lemma {:induction false} Partner(v: nat, j: nat)
    requires Divides(j + 1, v)
    ensures Low(v + Pow2(j)) == j && Pow2(j) <= v + Pow2(j)
    decreases j
  {
    if j > 0 {
      assert v % 2 == 0 && (v + Pow2(j)) / 2 == v / 2 + Pow2(j - 1);
      Partner(v / 2, j - 1);
    }
  }

  /** The position that u sends to: its own with the lowest bit cleared. */
  function Parent(u: nat): (v: nat)
    requires u > 0
    ensures v < u && Divides(Low(u) + 1, v)
  {
    ParentBelow(u);
    u - Pow2(Low(u))
  }

  lemma LowDouble(w: nat)
    requires w > 0
    ensures Low(2 * w) == 1 + Low(w)
  {
  }

  lemma {:induction false} ParentBelow(u: nat)
    requires u > 0
    ensures Pow2(Low(u)) <= u && Divides(Low(u) + 1, u - Pow2(Low(u)))
    decreases u
  {
    if u % 2 == 0 {
      ParentBelow(u / 2);
      EvenParent(u / 2, Low(u / 2));
    } else if u > 1 {
      assert (u - 1) % 2 == 0;
    }
  }

  lemma DoubleDivides(j: nat, w: nat)
    requires Divides(j, w)
    ensures Divides(j + 1, 2 * w)
  {
    if w > 0 { LowDouble(w); }
  }

  lemma EvenParent(half: nat, j: nat)
    requires Pow2(j) <= half && Divides(j + 1, half - Pow2(j))
    ensures Pow2(j + 1) <= 2 * half && Divides(j + 2, 2 * half - Pow2(j + 1))
  {
    DoubleDivides(j + 1, half - Pow2(j));
  }

  // ---------------------------------------------------------------- the hosts

  datatype Mail<T> = None | Mail(to: nat, value: T)

  /** level and buf of each position, and the message it has in flight. */
  datatype State<T> = State(level: seq<nat>, buf: seq<T>, mail: seq<Mail<T>>)

  predicate Wf<T>(s: State<T>, n: nat) { |s.level| == |s.buf| == |s.mail| == n }

  /** Position v has a turn of its loop left, and is not waiting for a message. */
  predicate Enabled<T>(s: State<T>, n: nat, v: nat)
    requires Wf(s, n)
  {
    && v < n && Pow2(s.level[v]) < n
    && (Receives(s, n, v) ==> s.mail[v + Pow2(s.level[v])].Mail?)
  }

  predicate Receives<T>(s: State<T>, n: nat, v: nat)
    requires Wf(s, n) && v < n
  {
    Divides(s.level[v] + 1, v) && v + Pow2(s.level[v]) < n
  }

  predicate Sends<T>(s: State<T>, n: nat, v: nat)
    requires Wf(s, n) && v < n
  {
    Divides(s.level[v], v) && !Divides(s.level[v] + 1, v)
  }

  /** One turn of the loop of jia_reduce at position v. */
  function Turn<T>(s: State<T>, n: nat, v: nat, op: (T, T) -> T): (r: State<T>)
    requires Wf(s, n) && Enabled(s, n, v)
    ensures Wf(r, n)
  {
    var j := s.level[v];
    var up := s.level[v := j + 1];
    if Sends(s, n, v) then
      ParentBelow(v);
      s.(level := up, mail := s.mail[v := Mail(v - Pow2(j), s.buf[v])])
    else if Receives(s, n, v) then
      var u := v + Pow2(j);
      s.(level := up, buf := s.buf[v := op(s.buf[v], s.mail[u].value)], mail := s.mail[u := None])
    else
      s.(level := up)
  }

  // ---------------------------------------------------------------- what the buffers hold

  ghost predicate Associative<T(!new)>(op: (T, T) -> T) {
    forall a, b, c :: op(op(a, b), c) == op(a, op(b, c))
  }

  /** The contributions of positions v..w, combined from the left. */
  function Fold<T>(x: seq<T>, op: (T, T) -> T, v: nat, w: nat): (r: T)
    requires v < w <= |x|
    decreases w - v
  {
    if w == v + 1 then x[v] else op(Fold(x, op, v, w - 1), x[w - 1])
  }

  lemma {:induction false} FoldJoin<T(!new)>(x: seq<T>, op: (T, T) -> T, v: nat, u: nat, w: nat)
    requires v < u < w <= |x| && Associative(op)
    ensures op(Fold(x, op, v, u), Fold(x, op, u, w)) == Fold(x, op, v, w)
    decreases w
  {
    if u + 1 < w {
      FoldJoin(x, op, v, u, w - 1);
    }
  }

  function Min(a: nat, b: nat): nat { if a < b then a else b }

  /** The share of position v once it has done j levels. */
  function Share(v: nat, j: nat, n: nat): (w: nat)
    requires v < n
    ensures v < w <= n
  {
    Min(v + Pow2(j), n)
  }

  /** The level from which on position v has nothing to do. */
  predicate Sent<T>(s: State<T>, v: nat)
    requires v < |s.level|
  {
    v > 0 && s.level[v] > Low(v)
  }

  ghost predicate BufOk<T>(s: State<T>, n: nat, x: seq<T>, op: (T, T) -> T, v: nat)
    requires Wf(s, n) && |x| == n && v < n
  {
    s.buf[v] == Fold(x, op, v, Share(v, if Sent(s, v) then Low(v) else s.level[v], n))
  }

  /** The message of position u is in flight exactly from its sending to its receiving. */
  ghost predicate MailOk<T>(s: State<T>, n: nat, u: nat)
    requires Wf(s, n) && 0 < u < n
  {
    && (Sent(s, u) && s.level[Parent(u)] <= Low(u) ==> s.mail[u] == Mail(Parent(u), s.buf[u]))
    && (!Sent(s, u) ==> s.level[Parent(u)] <= Low(u))
    && (!Sent(s, u) || s.level[Parent(u)] > Low(u) ==> s.mail[u] == None)
  }

  ghost predicate Inv<T>(s: State<T>, n: nat, x: seq<T>, op: (T, T) -> T) {
    && Wf(s, n) && |x| == n
    && (forall v :: 0 <= v < n ==> BufOk(s, n, x, op, v))
    && (forall u :: 0 < u < n ==> MailOk(s, n, u))
  }

  // ---------------------------------------------------------------- every turn keeps it

  /** Children of v differ in the level at which they send. */
  lemma OneChild(v: nat, u: nat)
    requires u > 0 && Parent(u) == v
    ensures u == v + Pow2(Low(u)) && (v > 0 ==> Low(u) < Low(v))
  {
    ParentBelow(u);
  }

  lemma ShareNext(v: nat, j: nat, n: nat)
    requires v < n
    ensures v + Pow2(j) < n ==> Share(v, j, n) == v + Pow2(j) && Share(v, j + 1, n) == Share(v + Pow2(j), j, n)
    ensures v + Pow2(j) >= n ==> Share(v, j, n) == Share(v, j + 1, n) == n
  {
  }

  lemma SendKeeps<T(!new)>(s: State<T>, n: nat, x: seq<T>, op: (T, T) -> T, v: nat)
    requires Inv(s, n, x, op) && Enabled(s, n, v) && Sends(s, n, v)
    ensures Inv(Turn(s, n, v, op), n, x, op)
  {
    var r := Turn(s, n, v, op);
    assert MailOk(s, n, v) && BufOk(s, n, x, op, v);
    forall w | 0 <= w < n ensures BufOk(r, n, x, op, w) {
      assert BufOk(s, n, x, op, w);
    }
    forall u | 0 < u < n ensures MailOk(r, n, u) {
      assert MailOk(s, n, u);
      OneChild(Parent(u), u);
    }
  }

  lemma ReceiveKeeps<T(!new)>(s: State<T>, n: nat, x: seq<T>, op: (T, T) -> T, v: nat)
    requires Inv(s, n, x, op) && Enabled(s, n, v) && Receives(s, n, v) && Associative(op)
    ensures Inv(Turn(s, n, v, op), n, x, op)
  {
    var r, u := Turn(s, n, v, op), v + Pow2(s.level[v]);
    Partner(v, s.level[v]);
    assert Parent(u) == v;
    assert MailOk(s, n, u) && BufOk(s, n, x, op, u) && BufOk(s, n, x, op, v);
    ReceivedBuf(s, n, x, op, v, u);
    forall w | 0 <= w < n && w != v ensures BufOk(r, n, x, op, w) {
      assert BufOk(s, n, x, op, w);
    }
    forall w | 0 < w < n ensures MailOk(r, n, w) {
      assert MailOk(s, n, w);
      ReceivedMail(s, n, op, v, w);
    }
  }

  /** The receiver's fold now includes its partner's share. */
  lemma ReceivedBuf<T(!new)>(s: State<T>, n: nat, x: seq<T>, op: (T, T) -> T, v: nat, u: nat)
    requires Wf(s, n) && |x| == n && Enabled(s, n, v) && Receives(s, n, v) && Associative(op)
    requires u == v + Pow2(s.level[v]) && Parent(u) == v
    requires MailOk(s, n, u) && BufOk(s, n, x, op, u) && BufOk(s, n, x, op, v)
    ensures BufOk(Turn(s, n, v, op), n, x, op, v)
  {
    var j := s.level[v];
    Partner(v, j);
    ShareNext(v, j, n);
    FoldJoin(x, op, v, u, Share(u, j, n));
  }

  lemma ReceivedMail<T(!new)>(s: State<T>, n: nat, op: (T, T) -> T, v: nat, w: nat)
    requires Wf(s, n) && Enabled(s, n, v) && Receives(s, n, v) && 0 < w < n && MailOk(s, n, w)
    ensures MailOk(Turn(s, n, v, op), n, w)
  {
    var u := v + Pow2(s.level[v]);
    Partner(v, s.level[v]);
    assert Parent(u) == v;
    OneChild(Parent(w), w);
  }

  lemma SkipKeeps<T(!new)>(s: State<T>, n: nat, x: seq<T>, op: (T, T) -> T, v: nat)
    requires Inv(s, n, x, op) && Enabled(s, n, v) && !Sends(s, n, v) && !Receives(s, n, v)
    ensures Inv(Turn(s, n, v, op), n, x, op)
  {
    var r, j := Turn(s, n, v, op), s.level[v];
    ShareNext(v, j, n);
    assert BufOk(s, n, x, op, v);
    forall w | 0 <= w < n ensures BufOk(r, n, x, op, w) {
      assert BufOk(s, n, x, op, w);
    }
    forall u | 0 < u < n ensures MailOk(r, n, u) {
      assert MailOk(s, n, u);
      OneChild(Parent(u), u);
    }
  }

  lemma TurnKeeps<T(!new)>(s: State<T>, n: nat, x: seq<T>, op: (T, T) -> T, v: nat)
    requires Inv(s, n, x, op) && Enabled(s, n, v) && Associative(op)
    ensures Inv(Turn(s, n, v, op), n, x, op)
  {
    if Sends(s, n, v) {
      SendKeeps(s, n, x, op, v);
    } else if Receives(s, n, v) {
      ReceiveKeeps(s, n, x, op, v);
    } else {
      SkipKeeps(s, n, x, op, v);
    }
  }

  // ---------------------------------------------------------------- whole reductions

  function Start<T>(x: seq<T>): State<T> {
    State(seq(|x|, _ => 0), x, seq(|x|, _ => None))
  }

  lemma StartInv<T(!new)>(x: seq<T>, op: (T, T) -> T)
    ensures Inv(Start(x), |x|, x, op)
  {
  }

  predicate Done<T>(s: State<T>, n: nat, v: nat)
    requires Wf(s, n) && v < n
  {
    Pow2(s.level[v]) >= n
  }

  lemma {:induction false} Pow2Grows(j: nat, k: nat)
    ensures j <= k <==> Pow2(j) <= Pow2(k)
    decreases j + k
  {
    if j > 0 && k > 0 {
      Pow2Grows(j - 1, k - 1);
    }
  }

  /** A position that is not done can move, or waits for one further up that is not done either. */
  lemma {:induction false} SomeoneMoves<T(!new)>(s: State<T>, n: nat, x: seq<T>, op: (T, T) -> T, v: nat) returns (w: nat)
    requires Inv(s, n, x, op) && v < n && !Done(s, n, v)
    ensures w < n && Enabled(s, n, w)
    decreases n - v
  {
    w := v;
    var j := s.level[v];
    if Receives(s, n, v) && s.mail[v + Pow2(j)] == None {
      var u := v + Pow2(j);
      Partner(v, j);
      assert Parent(u) == v && MailOk(s, n, u);
      Pow2Grows(s.level[u], j);
      w := SomeoneMoves(s, n, x, op, u);
    }
  }

  /** When all are done the root holds the fold of all contributions, and no message is left over. */
  lemma AllDone<T(!new)>(s: State<T>, n: nat, x: seq<T>, op: (T, T) -> T)
    requires Inv(s, n, x, op) && n > 0 && forall v :: 0 <= v < n ==> Done(s, n, v)
    ensures s.buf[0] == Fold(x, op, 0, n)
    ensures forall u :: 0 < u < n ==> s.mail[u] == None && Sent(s, u)
  {
    assert BufOk(s, n, x, op, 0) && Done(s, n, 0);
    forall u | 0 < u < n ensures s.mail[u] == None && Sent(s, u) {
      assert MailOk(s, n, u) && Done(s, n, u) && Done(s, n, Parent(u));
      ParentBelow(u);
      Pow2Grows(s.level[Parent(u)], Low(u));
      Pow2Grows(s.level[u], Low(u));
    }
  }

  function Left(levels: seq<nat>, k: nat): (n: int) {
    if levels == [] then 0 else Left(levels[..|levels| - 1], k) + k - levels[|levels| - 1]
  }

  lemma {:induction false} LeftDrops(levels: seq<nat>, k: nat, v: nat)
    requires v < |levels|
    ensures Left(levels[v := levels[v] + 1], k) == Left(levels, k) - 1
  {
    var n := |levels| - 1;
    if v == n {
      assert levels[v := levels[v] + 1][..n] == levels[..n];
    } else {
      assert levels[v := levels[v] + 1][..n] == levels[..n][v := levels[v] + 1];
      LeftDrops(levels[..n], k, v);
    }
  }

  lemma {:induction false} LeftNonNegative(levels: seq<nat>, k: nat)
    requires forall v :: 0 <= v < |levels| ==> levels[v] <= k
    ensures Left(levels, k) >= 0
  {
    if levels != [] {
      LeftNonNegative(levels[..|levels| - 1], k);
    }
  }

  lemma TurnProgress<T(!new)>(s: State<T>, n: nat, x: seq<T>, op: (T, T) -> T, v: nat, k: nat)
    requires Inv(s, n, x, op) && Enabled(s, n, v) && Associative(op) && Pow2(k) >= n
    requires forall w :: 0 <= w < n ==> s.level[w] <= k
    ensures Inv(Turn(s, n, v, op), n, x, op) && forall w :: 0 <= w < n ==> Turn(s, n, v, op).level[w] <= k
    ensures 0 <= Left(s.level, k) && Left(Turn(s, n, v, op).level, k) < Left(s.level, k)
  {
    Pow2Grows(k, s.level[v]);
    TurnKeeps(s, n, x, op, v);
    LeftDrops(s.level, k, v);
    LeftNonNegative(s.level, k);
  }

  /** jia_reduce on all hosts, whichever moves next: it ends, every message sent has been received,
      and the root has the contributions combined in the order of the positions. */
  method JiaReduce<T(!new)>(x: seq<T>, op: (T, T) -> T) returns (result: T)
    requires x != [] && Associative(op)
    ensures result == Fold(x, op, 0, |x|)
  {
    var n, s := |x|, Start(x);
    StartInv(x, op);
    ghost var k := n;
    Pow2Above(n);
    while exists v :: 0 <= v < n && !Done(s, n, v)
      invariant Inv(s, n, x, op) && forall v :: 0 <= v < n ==> s.level[v] <= k
      decreases Left(s.level, k)
    {
      ghost var late :| 0 <= late < n && !Done(s, n, late);
      ghost var w := SomeoneMoves(s, n, x, op, late);
      var v :| 0 <= v < n && Enabled(s, n, v);
      TurnProgress(s, n, x, op, v, k);
      s := Turn(s, n, v, op);
    }
    AllDone(s, n, x, op);
    result := s.buf[0];
  }

  lemma {:induction false} Pow2Above(n: nat)
    ensures Pow2(n) > n
  {
    if n > 0 {
      Pow2Above(n - 1);
    }
  }
}
