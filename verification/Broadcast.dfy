/** Tree broadcast: what bsendmsg starts and bcastserver continues on every host, with the messages
    handled in any order. */
module Broadcast {
  import opened RingMask

  /** A message on its way to host `to`; tagged means that its operation still carries the BCAST mark,
      so that bcastserver handles it. */
  datatype Msg = Msg(to: nat, tagged: bool, root: nat, level: nat)

  predicate Ok(m: Msg, hostc: nat) { m.to < hostc && m.root < hostc && (m.tagged ==> m.level > 0) }

  /** The position of a host in the tree; that of the root is 0. */
  function Position(host: nat, root: nat, hostc: nat): (v: nat)
    requires host < hostc && root < hostc
    ensures v < hostc
  {
    if host >= root then host - root else host + hostc - root
  }

  function HostAt(v: nat, root: nat, hostc: nat): (host: nat)
    requires v < hostc && root < hostc
    ensures host < hostc && Position(host, root, hostc) == v
  {
    if v + root < hostc then v + root else v + root - hostc
  }

  lemma HostAtPosition(host: nat, root: nat, hostc: nat)
    requires host < hostc && root < hostc
    ensures HostAt(Position(host, root, hostc), root, hostc) == host
  {
  }

  lemma SmallRemainder(a: nat, n: nat)
    requires n > 0 && a < 2 * n
    ensures a % n == if a < n then a else a - n
  {
    RemainderIs(a, n, if a < n then 0 else 1, if a < n then a else a - n);
  }

  /** The message will reach the host: the tree below it is the positions from its own on, as many
      as two to the power of its level. */
  predicate Serves(m: Msg, h: nat, hostc: nat)
    requires Ok(m, hostc) && h < hostc
  {
    if !m.tagged then m.to == h
    else
      var v, w := Position(m.to, m.root, hostc), Position(h, m.root, hostc);
      v <= w < v + Pow2(m.level)
  }

  /** The message for the host at position v, one level down. */
  function Child(m: Msg, v: nat, hostc: nat): (r: Msg)
    requires Ok(m, hostc) && m.tagged && v < hostc
    ensures Ok(r, hostc)
  {
    Msg(HostAt(v, m.root, hostc), m.level > 1, m.root, m.level - 1)
  }

  function Children(m: Msg, hostc: nat): (r: seq<Msg>)
    requires Ok(m, hostc) && m.tagged
    ensures forall i :: 0 <= i < |r| ==> Ok(r[i], hostc)
  {
    var v := Position(m.to, m.root, hostc);
    (if v + Pow2(m.level - 1) < hostc then [Child(m, v + Pow2(m.level - 1), hostc)] else []) + [Child(m, v, hostc)]
  }

  /** Handling a message keeps every host served as often as before. */
  lemma ChildrenServe(m: Msg, hostc: nat, h: nat)
    requires Ok(m, hostc) && m.tagged && h < hostc
    ensures CountServing(Children(m, hostc), h, hostc) == if Serves(m, h, hostc) then 1 else 0
  {
    var v, w := Position(m.to, m.root, hostc), Position(h, m.root, hostc);
    var half := Pow2(m.level - 1);
    assert Pow2(m.level) == 2 * half;
    HostAtPosition(h, m.root, hostc);
    var own := [Child(m, v, hostc)];
    ChildServes(m, v, hostc, h);
    assert own[1..] == [];
    if v + half < hostc {
      var other := [Child(m, v + half, hostc)];
      ChildServes(m, v + half, hostc, h);
      assert other[1..] == [];
      ServingConcat(other, own, h, hostc);
    } else {
      assert [] + own == own;
    }
  }

  lemma ChildServes(m: Msg, v: nat, hostc: nat, h: nat)
    requires Ok(m, hostc) && m.tagged && v < hostc && h < hostc
    ensures Serves(Child(m, v, hostc), h, hostc) <==>
      v <= Position(h, m.root, hostc) < v + Pow2(m.level - 1)
  {
    HostAtPosition(h, m.root, hostc);
    HostAtPosition(HostAt(v, m.root, hostc), m.root, hostc);
  }

  /** bcastserver: the messages that handling m puts into the outgoing queue. */
  method BcastServer(m: Msg, hostc: nat) returns (out: seq<Msg>)
    requires Ok(m, hostc) && m.tagged
    ensures out == Children(m, hostc)
  {
    var level := m.level - 1;
    var mypid := if m.to >= m.root then m.to - m.root else m.to - m.root + hostc;
    var child1, child2 := mypid, mypid + Pow2(level);
    var tagged := level != 0;
    out := [];
    if child2 < hostc {
      SmallRemainder(child2 + m.root, hostc);
      out := out + [Msg((child2 + m.root) % hostc, tagged, m.root, level)];
    }
    SmallRemainder(child1 + m.root, hostc);
    out := out + [Msg((child1 + m.root) % hostc, tagged, m.root, level)];
  }

  /** A bound on the messages that handling m can cause, m included. */
  function Weight(m: Msg): (n: nat)
    ensures n > 0
  {
    if m.tagged then 2 * Pow2(m.level) - 1 else 1
  }

  function TotalWeight(ms: seq<Msg>): (n: nat) {
    if ms == [] then 0 else Weight(ms[0]) + TotalWeight(ms[1..])
  }

  lemma {:induction false} WeightConcat(a: seq<Msg>, b: seq<Msg>)
    ensures TotalWeight(a + b) == TotalWeight(a) + TotalWeight(b)
  {
    if a == [] {
      assert a + b == b;
    } else {
      WeightConcat(a[1..], b);
      assert (a + b)[1..] == a[1..] + b;
    }
  }

  lemma ChildrenWeigh(m: Msg, hostc: nat)
    requires Ok(m, hostc) && m.tagged
    ensures TotalWeight(Children(m, hostc)) < Weight(m)
  {
    var v, half := Position(m.to, m.root, hostc), Pow2(m.level - 1);
    assert Pow2(m.level) == 2 * half && (m.level == 1 ==> half == 1);
    var own := [Child(m, v, hostc)];
    assert own[1..] == [];
    if v + half < hostc {
      var other := [Child(m, v + half, hostc)];
      assert other[1..] == [];
      WeightConcat(other, own);
    } else {
      assert [] + own == own;
    }
  }

  /** How many of the messages serve host h. */
  function CountServing(ms: seq<Msg>, h: nat, hostc: nat): (n: nat)
    requires h < hostc && forall i :: 0 <= i < |ms| ==> Ok(ms[i], hostc)
  {
    if ms == [] then 0 else CountServing(ms[1..], h, hostc) + if Serves(ms[0], h, hostc) then 1 else 0
  }

  lemma {:induction false} ServingConcat(a: seq<Msg>, b: seq<Msg>, h: nat, hostc: nat)
    requires h < hostc && (forall i :: 0 <= i < |a| ==> Ok(a[i], hostc)) && (forall i :: 0 <= i < |b| ==> Ok(b[i], hostc))
    ensures CountServing(a + b, h, hostc) == CountServing(a, h, hostc) + CountServing(b, h, hostc)
  {
    if a == [] {
      assert a + b == b;
    } else {
      ServingConcat(a[1..], b, h, hostc);
      assert (a + b)[1..] == a[1..] + b;
    }
  }

  predicate AllOk(ms: seq<Msg>, hostc: nat) { forall i :: 0 <= i < |ms| ==> Ok(ms[i], hostc) }

  /** Message i leaves the network; the messages it causes, if any, enter. */
  function Replaced(ms: seq<Msg>, i: nat, more: seq<Msg>): seq<Msg>
    requires i < |ms|
  {
    ms[..i] + (more + ms[i + 1..])
  }

  lemma ReplacedCounts(ms: seq<Msg>, i: nat, more: seq<Msg>, h: nat, hostc: nat)
    requires i < |ms| && h < hostc && AllOk(ms, hostc) && AllOk(more, hostc)
    ensures AllOk(Replaced(ms, i, more), hostc)
    ensures CountServing(Replaced(ms, i, more), h, hostc) ==
      CountServing(ms, h, hostc) - (if Serves(ms[i], h, hostc) then 1 else 0) + CountServing(more, h, hostc)
  {
    ServingConcat(more, ms[i + 1..], h, hostc);
    ServingConcat(ms[..i], more + ms[i + 1..], h, hostc);
    assert ms == ms[..i] + ms[i..] && ms[i..][1..] == ms[i + 1..];
    ServingConcat(ms[..i], ms[i..], h, hostc);
  }

  lemma ReplacedWeighs(ms: seq<Msg>, i: nat, more: seq<Msg>)
    requires i < |ms|
    ensures TotalWeight(Replaced(ms, i, more)) == TotalWeight(ms) - Weight(ms[i]) + TotalWeight(more)
  {
    WeightConcat(more, ms[i + 1..]);
    WeightConcat(ms[..i], more + ms[i + 1..]);
    assert ms == ms[..i] + ms[i..] && ms[i..][1..] == ms[i + 1..];
    WeightConcat(ms[..i], ms[i..]);
  }

  /** The level that bsendmsg computes: the least whose tree has room for all hosts, but at least 1. */
  method RootLevel(hostc: nat) returns (level: nat)
    requires hostc > 0
    ensures level > 0 && Pow2(level) >= hostc && (hostc > 1 ==> Pow2(level - 1) < hostc)
  {
    if hostc == 1 {
      return 1;
    }
    level := 0;
    while Pow2(level) < hostc
      invariant level > 0 ==> Pow2(level - 1) < hostc
      decreases hostc - Pow2(level)
    {
      level := level + 1;
    }
  }

  /** A whole broadcast, whatever message the network delivers next: it ends, and the original
      operation is handled by each host exactly once. */
  method BsendMsg(root: nat, hostc: nat) returns (handled: seq<nat>)
    requires root < hostc
    ensures forall h :: 0 <= h < hostc ==> multiset(handled)[h] == 1
    ensures forall i :: 0 <= i < |handled| ==> handled[i] < hostc
  {
    var level := RootLevel(hostc);
    var first := Msg(root, true, root, level);
    var net := BcastServer(first, hostc);
    handled := [];
    forall h | 0 <= h < hostc ensures CountServing(net, h, hostc) == 1 {
      ChildrenServe(first, hostc, h);
    }
    while net != []
      invariant AllOk(net, hostc) && InRange(handled, hostc) && OnceEach(handled, net, hostc)
      decreases TotalWeight(net)
    {
      var i :| 0 <= i < |net|;
      net, handled := HandleOne(net, i, handled, hostc);
    }
  }

  predicate InRange(hs: seq<nat>, hostc: nat) { forall i :: 0 <= i < |hs| ==> hs[i] < hostc }

  /** Every host has handled the operation, or will by one of the messages in the network. */
  ghost predicate OnceEach(handled: seq<nat>, net: seq<Msg>, hostc: nat)
    requires AllOk(net, hostc)
  {
    forall h :: 0 <= h < hostc ==> multiset(handled)[h] + CountServing(net, h, hostc) == 1
  }

  /** The network delivers message i. */
  method HandleOne(net: seq<Msg>, i: nat, handled: seq<nat>, hostc: nat) returns (net': seq<Msg>, handled': seq<nat>)
    requires i < |net| && AllOk(net, hostc) && InRange(handled, hostc) && OnceEach(handled, net, hostc)
    ensures AllOk(net', hostc) && InRange(handled', hostc) && OnceEach(handled', net', hostc)
    ensures TotalWeight(net') < TotalWeight(net)
  {
    var m := net[i];
    var more := [];
    handled' := handled;
    if m.tagged {
      more := BcastServer(m, hostc);
      ChildrenWeigh(m, hostc);
    } else {
      handled' := handled + [m.to];
    }
    net' := Replaced(net, i, more);
    ReplacedWeighs(net, i, more);
    forall h | 0 <= h < hostc ensures multiset(handled')[h] + CountServing(net', h, hostc) == 1 {
      if m.tagged { ChildrenServe(m, hostc, h); }
      ReplacedCounts(net, i, more, h, hostc);
    }
  }
}
