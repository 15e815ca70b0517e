/** The lock managers: at most one host holds a lock or has its grant or release in flight, and
    requests are granted in arrival order. */
module ProtocolLocks {
  import opened Protocol
  import opened ProtocolInv

  /** The parts of a host's state that its standing with the locks depends on. */
  ghost predicate SameStanding(x: HostState, y: HostState) {
    && y.chan == x.chan && y.lockGrant == x.lockGrant && y.myscope == x.myscope
    && |y.stack| == |x.stack| && (forall i :: 0 <= i < |x.stack| ==> y.stack[i].lock == x.stack[i].lock)
    && (forall l :: y.phase == Waiting(Acq(l)) <==> x.phase == Waiting(Acq(l)))
    && (forall l :: y.phase == Resuming(Acq(l)) <==> x.phase == Resuming(Acq(l)))
  }

  lemma StandingKept(x: HostState, y: HostState, k: LockState, h: nat, l: nat)
    requires l < |x.chan| == |x.myscope| && SameStanding(x, y) && StatusOk(x, k, h, l)
    ensures StatusOk(y, k, h, l)
  {
    assert OnStack(x, l) == OnStack(y, l);
  }

  /** A step of one host that does not touch its standing keeps the lock invariant. */
  lemma OneHostLocks(c: Config, s: State, s': State, h: nat)
    requires Wf(c, s) && Wf(c, s') && LocksOk(c, s) && h < c.hosts
    requires s'.hosts == s.hosts[h := s'.hosts[h]] && SameStanding(s.hosts[h], s'.hosts[h])
    requires forall l :: 0 <= l < c.locks ==>
      s'.locks[l] == s.locks[l].(notices := s'.locks[l].notices, log := s'.locks[l].log, lost := s'.locks[l].lost)
    ensures LocksOk(c, s')
  {
    forall i, l | 0 <= i < c.hosts && 0 <= l < c.locks ensures StatusOk(s'.hosts[i], s'.locks[l], i, l) {
      assert StatusOk(s.hosts[i], s.locks[l], i, l);
      StandingKept(s.hosts[i], s'.hosts[i], s.locks[l], i, l);
    }
  }

  /** The host at the head of a queue owns the lock or is releasing it. */
  lemma HeadActive(c: Config, s: State, h: nat, l: nat)
    requires Wf(c, s) && LocksOk(c, s) && h < c.hosts && l < c.locks && Heads(s.locks[l].acqs, h)
    ensures Owns(s.hosts[h], l) || Releasing(s.hosts[h], l)
  {
    assert StatusOk(s.hosts[h], s.locks[l], h, l);
    assert Queued(s.locks[l].acqs, h);
  }

  lemma SendAcqLocks(c: Config, s: State, h: nat)
    requires Wf(c, s) && CanSendAcq(c, s, h) && LocksOk(c, s) && GoodAt(c, s, h)
    ensures LocksOk(c, DoSendAcq(c, s, h))
  {
    var s' := DoSendAcq(c, s, h);
    var x, y := s.hosts[h], s'.hosts[h];
    var l0 := x.phase.op.lock;
    assert !OnStack(x, l0);
    forall i, l | 0 <= i < c.hosts && 0 <= l < c.locks ensures StatusOk(s'.hosts[i], s'.locks[l], i, l) {
      assert StatusOk(s.hosts[i], s.locks[l], i, l);
      if i == h {
        assert OnStack(x, l) == OnStack(y, l);
      }
    }
  }

  lemma SentRelStatus(c: Config, s: State, h: nat, parts: seq<set<nat>>, i: nat, l: nat)
    requires Wf(c, s) && CanRelease(c, s, h) && GoodAt(c, s, h) && i < c.hosts && l < c.locks
    requires StatusOk(s.hosts[i], s.locks[l], i, l)
    ensures var s' := DoSendRel(c, s, h, parts); StatusOk(s'.hosts[i], s'.locks[l], i, l)
  {
    var s' := DoSendRel(c, s, h, parts);
    var x, y := s.hosts[h], s'.hosts[h];
    var t := |x.stack| - 1;
    var l0 := x.stack[t].lock;
    assert forall k :: 0 <= k < t ==> y.stack[k].lock == x.stack[k].lock;
    assert OnStack(x, l0) && !OnStack(y, l0);
    if i == h && l != l0 {
      assert OnStack(x, l) == OnStack(y, l);
    }
  }

  lemma SendRelLocks(c: Config, s: State, h: nat, parts: seq<set<nat>>)
    requires Wf(c, s) && CanRelease(c, s, h) && LocksOk(c, s) && GoodAt(c, s, h)
    ensures LocksOk(c, DoSendRel(c, s, h, parts))
  {
    var s' := DoSendRel(c, s, h, parts);
    forall i, l | 0 <= i < c.hosts && 0 <= l < c.locks ensures StatusOk(s'.hosts[i], s'.locks[l], i, l) {
      assert StatusOk(s.hosts[i], s.locks[l], i, l);
      SentRelStatus(c, s, h, parts, i, l);
    }
  }

  lemma ServeAcqStatus(c: Config, s: State, h: nat, l: nat)
    requires Wf(c, s) && CanServeAcq(c, s, h, l) && LocksOk(c, s) && HostsOk(c, s)
    ensures Wants(s.hosts[h], l) && s.hosts[h].chan[l] == [AcqMsg(s.hosts[h].myscope[l])]
    ensures !Queued(s.locks[l].acqs, h)
  {
    assert StatusOk(s.hosts[h], s.locks[l], h, l);
  }

  lemma ServeAcqQueue(c: Config, s: State, h: nat, l: nat)
    requires Wf(c, s) && CanServeAcq(c, s, h, l) && LocksOk(c, s) && HostsOk(c, s)
    ensures var k' := DoServeAcq(c, s, h, l).locks[l]; QueueOk(c, k') && FifoOk(k')
  {
    ServeAcqStatus(c, s, h, l);
    var k, k' := s.locks[l], DoServeAcq(c, s, h, l).locks[l];
    if |k.acqs| > 0 {
      assert HostsIn(k'.acqs[1..]) == HostsIn(k.acqs[1..]) + [h];
    } else {
      assert HostsIn(k'.acqs[1..]) == [];
    }
  }

  /** Another host's request joining the queue. */
  lemma StatusAppended(x: HostState, k: LockState, k': LockState, i: nat, l: nat, a: Acquirer)
    requires l < |x.chan| == |x.myscope| && StatusOk(x, k, i, l)
    requires k'.acqs == k.acqs + [a] && a.host != i
    ensures StatusOk(x, k', i, l)
  {
    assert forall j :: 0 <= j < |k.acqs| ==> k'.acqs[j] == k.acqs[j];
    if Queued(k'.acqs, i) {
      var j :| 0 <= j < |k'.acqs| && k'.acqs[j].host == i;
      assert k.acqs[j].host == i;
    }
    if Wants(x, l) && x.chan[l] == [] && !Owns(x, l) {
      var j :| 1 <= j < |k.acqs| && k.acqs[j] == Acquirer(i, x.myscope[l]);
      assert k'.acqs[j] == Acquirer(i, x.myscope[l]);
    }
  }

  /** The head leaving the queue, as seen by a host that neither leaves nor becomes the head. */
  lemma StatusShifted(x: HostState, k: LockState, k': LockState, i: nat, l: nat)
    requires l < |x.chan| == |x.myscope| && StatusOk(x, k, i, l)
    requires |k.acqs| > 0 && k'.acqs == k.acqs[1..] && k.acqs[0].host != i
    requires |k.acqs| > 1 ==> k.acqs[1].host != i
    ensures StatusOk(x, k', i, l)
  {
    assert forall j :: 0 <= j < |k'.acqs| ==> k'.acqs[j] == k.acqs[j + 1];
    if Queued(k'.acqs, i) {
      var j :| 0 <= j < |k'.acqs| && k'.acqs[j].host == i;
      assert k.acqs[j + 1].host == i;
    }
    if Wants(x, l) && x.chan[l] == [] && !Owns(x, l) {
      var j :| 1 <= j < |k.acqs| && k.acqs[j] == Acquirer(i, x.myscope[l]);
      assert k'.acqs[j - 1] == Acquirer(i, x.myscope[l]);
    }
  }

  lemma ServeAcqLocks(c: Config, s: State, h: nat, l: nat)
    requires Wf(c, s) && CanServeAcq(c, s, h, l) && LocksOk(c, s) && HostsOk(c, s)
    ensures LocksOk(c, DoServeAcq(c, s, h, l))
  {
    var s' := DoServeAcq(c, s, h, l);
    ServeAcqStatus(c, s, h, l);
    ServeAcqQueue(c, s, h, l);
    forall i, l1 | 0 <= i < c.hosts && 0 <= l1 < c.locks ensures StatusOk(s'.hosts[i], s'.locks[l1], i, l1) {
      assert StatusOk(s.hosts[i], s.locks[l1], i, l1);
      if i == h {
        ServeAcqSelf(c, s, h, l, l1);
      } else if l1 == l {
        StatusAppended(s.hosts[i], s.locks[l], s'.locks[l], i, l, Acquirer(h, s.hosts[h].chan[l][0].scope));
      }
    }
  }

  lemma ServeAcqSelf(c: Config, s: State, h: nat, l: nat, l1: nat)
    requires Wf(c, s) && CanServeAcq(c, s, h, l) && LocksOk(c, s) && HostsOk(c, s) && l1 < c.locks
    ensures var s' := DoServeAcq(c, s, h, l); StatusOk(s'.hosts[h], s'.locks[l1], h, l1)
  {
    var s' := DoServeAcq(c, s, h, l);
    ServeAcqStatus(c, s, h, l);
    var x, y, k, k' := s.hosts[h], s'.hosts[h], s.locks[l], s'.locks[l];
    assert StatusOk(x, s.locks[l1], h, l1) && GoodAt(c, s, h);
    assert OnStack(x, l1) == OnStack(y, l1);
    assert k'.acqs[|k.acqs|] == Acquirer(h, x.myscope[l]);
  }

  /** A part of a release being recorded: the release is still on its way. */
  lemma ServeWtntLocks(c: Config, s: State, h: nat, l: nat)
    requires Wf(c, s) && CanServeWtnt(c, s, h, l) && LocksOk(c, s)
    ensures LocksOk(c, DoServeWtnt(c, s, h, l))
  {
    var s' := DoServeWtnt(c, s, h, l);
    forall l1 | 0 <= l1 < c.locks ensures QueueOk(c, s'.locks[l1]) && FifoOk(s'.locks[l1]) {
      assert QueueOk(c, s.locks[l1]) && FifoOk(s.locks[l1]);
    }
    forall i, l1 | 0 <= i < c.hosts && 0 <= l1 < c.locks ensures StatusOk(s'.hosts[i], s'.locks[l1], i, l1) {
      assert StatusOk(s.hosts[i], s.locks[l1], i, l1);
      assert OnStack(s.hosts[i], l1) == OnStack(s'.hosts[i], l1);
    }
  }

  lemma ServeRelStatus(c: Config, s: State, h: nat, l: nat)
    requires Wf(c, s) && CanServeRel(c, s, h, l) && LocksOk(c, s)
    ensures Heads(s.locks[l].acqs, h) && !Owns(s.hosts[h], l)
    ensures |s.locks[l].acqs| > 1 ==>
      var i := s.locks[l].acqs[1].host;
      i < c.hosts && i != h && Wants(s.hosts[i], l) && s.hosts[i].chan[l] == []
      && s.locks[l].acqs[1].scope == s.hosts[i].myscope[l]
  {
    assert StatusOk(s.hosts[h], s.locks[l], h, l);
    if |s.locks[l].acqs| > 1 {
      var i := s.locks[l].acqs[1].host;
      assert StatusOk(s.hosts[i], s.locks[l], i, l);
      assert Queued(s.locks[l].acqs, i);
    }
  }

  lemma ShiftedFifo(arrivals: seq<nat>, grants: seq<nat>, acqs: seq<Acquirer>)
    requires |acqs| > 1 && arrivals == grants + HostsIn(acqs[1..])
    ensures arrivals == grants + [acqs[1].host] + HostsIn(acqs[1..][1..])
  {
    var first, rest, tail := [acqs[1].host], HostsIn(acqs[1..][1..]), HostsIn(acqs[1..]);
    assert tail == first + rest by {
      assert |tail| == |first + rest|;
      assert forall k :: 0 <= k < |tail| ==> tail[k] == (first + rest)[k];
    }
    Regrouped(grants, first, rest);
  }

  lemma Regrouped(a: seq<nat>, b: seq<nat>, d: seq<nat>)
    ensures a + (b + d) == (a + b) + d
  {
  }

  lemma ShiftedQueue(c: Config, k: LockState, k': LockState)
    requires |k.acqs| > 0 && QueueOk(c, k) && FifoOk(k) && k'.acqs == k.acqs[1..]
    requires k'.arrivals == k.arrivals
    requires k'.grants == if |k.acqs| > 1 then k.grants + [k.acqs[1].host] else k.grants
    ensures QueueOk(c, k') && FifoOk(k')
  {
    assert forall j :: 0 <= j < |k'.acqs| ==> k'.acqs[j] == k.acqs[j + 1];
    if |k.acqs| > 1 {
      ShiftedFifo(k.arrivals, k.grants, k.acqs);
    } else {
      assert HostsIn(k.acqs[1..]) == [];
    }
  }

  lemma ServeRelLocks(c: Config, s: State, h: nat, l: nat)
    requires Wf(c, s) && CanServeRel(c, s, h, l) && LocksOk(c, s) && HostsOk(c, s)
    ensures LocksOk(c, DoServeRel(c, s, h, l))
  {
    var s' := DoServeRel(c, s, h, l);
    assert QueueOk(c, s.locks[l]) && FifoOk(s.locks[l]);
    ShiftedQueue(c, s.locks[l], s'.locks[l]);
    forall l1 | 0 <= l1 < c.locks && l1 != l ensures QueueOk(c, s'.locks[l1]) && FifoOk(s'.locks[l1]) {
      assert s'.locks[l1] == s.locks[l1];
    }
    forall i, l1 | 0 <= i < c.hosts && 0 <= l1 < c.locks ensures StatusOk(s'.hosts[i], s'.locks[l1], i, l1) {
      ServeRelOther(c, s, h, l, i, l1);
    }
  }

  lemma ServeRelOther(c: Config, s: State, h: nat, l: nat, i: nat, l1: nat)
    requires Wf(c, s) && CanServeRel(c, s, h, l) && LocksOk(c, s) && HostsOk(c, s)
    requires i < c.hosts && l1 < c.locks
    ensures var s' := DoServeRel(c, s, h, l); StatusOk(s'.hosts[i], s'.locks[l1], i, l1)
  {
    ServeRelStatus(c, s, h, l);
    var k, k' := s.locks[l], RelRecorded(s.locks[l], h, s.hosts[h].chan[l][0]);
    var x, y := s.hosts[i], ServeRelHost(c, s, h, l, i);
    assert StatusOk(x, s.locks[l1], i, l1) && GoodAt(c, s, i) && QueueOk(c, k);
    assert OnStack(x, l1) == OnStack(y, l1);
    if l1 == l {
      if i == h {
        assert forall j :: 0 <= j < |k'.acqs| ==> k'.acqs[j] == k.acqs[j + 1];
      } else if |k.acqs| == 1 || k.acqs[1].host != i {
        StatusShifted(x, k, k', i, l);
      }
    }
  }

  lemma TakeLockGrantLocks(c: Config, s: State, h: nat)
    requires Wf(c, s) && CanTakeLockGrant(c, s, h) && LocksOk(c, s)
    ensures LocksOk(c, DoTakeLockGrant(c, s, h))
  {
    var s' := DoTakeLockGrant(c, s, h);
    var x, y := s.hosts[h], s'.hosts[h];
    forall i, l | 0 <= i < c.hosts && 0 <= l < c.locks ensures StatusOk(s'.hosts[i], s'.locks[l], i, l) {
      assert StatusOk(s.hosts[i], s.locks[l], i, l);
      if i == h {
        assert OnStack(x, l) == OnStack(y, l);
      }
    }
  }

  lemma ResumeLocks(c: Config, s: State, h: nat)
    requires Wf(c, s) && CanResume(c, s, h) && LocksOk(c, s) && GoodAt(c, s, h)
    ensures LocksOk(c, DoResume(c, s, h))
  {
    var s' := DoResume(c, s, h);
    var x, y := s.hosts[h], s'.hosts[h];
    forall i, l | 0 <= i < c.hosts && 0 <= l < c.locks ensures StatusOk(s'.hosts[i], s'.locks[l], i, l) {
      assert StatusOk(s.hosts[i], s.locks[l], i, l);
      if i == h {
        var n := |x.stack|;
        assert forall j :: 0 <= j < n ==> y.stack[j] == x.stack[j];
        if x.phase.op.Acq? {
          assert y.stack[n].lock == x.phase.op.lock;
        }
        assert Owns(x, l) == Owns(y, l) by {
          if OnStack(x, l) { var j :| 1 <= j < n && x.stack[j].lock == l; assert y.stack[j].lock == l; }
        }
      }
    }
  }
}
