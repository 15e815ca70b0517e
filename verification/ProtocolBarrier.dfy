/** The barrier manager: nobody passes a barrier before everybody has arrived, and the notices it
    sends name a page's writer exactly when there was only one. */
module ProtocolBarrier {
  import opened Protocol
  import opened ProtocolInv
  import opened ProtocolHosts
  import opened ProtocolLocks

  ghost predicate Core(c: Config, s: State)
    requires Wf(c, s)
  {
    HostsOk(c, s) && BarrierOk(c, s) && LocksOk(c, s)
  }

  lemma SubsetOfSameSize(a: set<nat>, b: set<nat>)
    requires a <= b && |a| == |b|
    ensures a == b
  {
    assert |b - a| == |b| - |a|;
  }

  /** Recording one more host's report keeps the classification. */
  lemma RecordClassified(reported: map<nat, set<nat>>, n: Notices, h: nat, pages: set<nat>, scope: int, p: nat)
    requires Classified(reported, n, p) && h !in reported && h < MAXHOSTS
    ensures Classified(reported[h := pages], Record(n, pages, h, scope), p)
  {
    var r, m := reported[h := pages], Record(n, pages, h, scope);
    assert h in r && r[h] == pages;
    assert forall i :: i in reported ==> i in r && r[i] == reported[i];
    if p in n && n[p].from >= MAXHOSTS {
      var i, j :| i in reported && j in reported && i != j && p in reported[i] && p in reported[j];
      assert i in r && j in r;
    } else if p in n && p in pages {
      var i := n[p].from;
      assert i in r && h in r && i != h && p in r[i] && p in r[h];
    }
  }

  lemma OneHostBarrier(c: Config, s: State, s': State, h: nat)
    requires Wf(c, s) && Wf(c, s') && BarrierOk(c, s) && h < c.hosts
    requires s'.hosts == s.hosts[h := s'.hosts[h]] && CountsOk(s', h)
    requires s'.acqc == s.acqc && s'.arrived == s.arrived && s'.reported == s.reported
    requires s'.barrNotices == s.barrNotices && s'.barrScope == s.barrScope
    ensures BarrierOk(c, s')
  {
    forall i | 0 <= i < c.hosts ensures CountsOk(s', i) {
      assert CountsOk(s, i);
    }
  }

  /** When the last BARR is handled every host waits at the barrier and has been counted. */
  lemma AllArrived(c: Config, s: State, h: nat)
    requires Wf(c, s) && CanServeBarr(c, s, h) && HostsOk(c, s) && BarrierOk(c, s) && LastArrival(c, s)
    ensures forall i :: 0 <= i < c.hosts ==>
      s.hosts[i].phase == Waiting(Barr) && s.hosts[i].barrGrant.None? && (i == h || i in s.arrived)
    ensures forall i :: 0 <= i < c.hosts && i != h ==> s.hosts[i].barr.None?
  {
    assert GoodAt(c, s, h);
    var all := s.arrived + {h};
    assert all <= Below(c.hosts) && |all| == c.hosts;
    SubsetOfSameSize(all, Below(c.hosts));
    forall i | 0 <= i < c.hosts
      ensures s.hosts[i].phase == Waiting(Barr) && s.hosts[i].barrGrant.None? && (i == h || i in s.arrived)
      ensures i != h ==> s.hosts[i].barr.None?
    {
      assert i in all && GoodAt(c, s, i);
    }
  }

  lemma ServeBarrHostsOk(c: Config, s: State, h: nat)
    requires Wf(c, s) && CanServeBarr(c, s, h) && HostsOk(c, s) && BarrierOk(c, s)
    ensures Wf(c, DoServeBarr(c, s, h)) && HostsOk(c, DoServeBarr(c, s, h))
  {
    var s' := DoServeBarr(c, s, h);
    if LastArrival(c, s) {
      AllArrived(c, s, h);
    }
    assert GoodAt(c, s, h);
    forall i | 0 <= i < c.hosts ensures GoodAt(c, s', i) {
      assert GoodAt(c, s, i);
      if LastArrival(c, s) || i == h {
        BarrSideGood(c, i, s.hosts[i], s'.hosts[i], i in s.arrived, i in s'.arrived);
      } else {
        assert s'.hosts[i] == s.hosts[i];
      }
    }
  }

  lemma RecordAllClassified(reported: map<nat, set<nat>>, n: Notices, h: nat, pages: set<nat>, scope: int)
    requires AllClassified(reported, n) && h !in reported && h < MAXHOSTS
    ensures AllClassified(reported[h := pages], Record(n, pages, h, scope))
  {
    var r, m := reported[h := pages], Record(n, pages, h, scope);
    forall p ensures Classified(r, m, p) {
      RecordClassified(reported, n, h, pages, scope, p);
    }
  }

  lemma ServeBarrCounts(c: Config, s: State, h: nat)
    requires Wf(c, s) && CanServeBarr(c, s, h) && HostsOk(c, s) && BarrierOk(c, s)
    requires Wf(c, DoServeBarr(c, s, h))
    ensures forall i :: 0 <= i < c.hosts ==> CountsOk(DoServeBarr(c, s, h), i)
  {
    var s' := DoServeBarr(c, s, h);
    if LastArrival(c, s) {
      AllArrived(c, s, h);
    }
    forall i | 0 <= i < c.hosts ensures CountsOk(s', i) { assert CountsOk(s, i); }
  }

  lemma ArrivalRecorded(c: Config, acqc: nat, arrived: set<nat>, reported: map<nat, set<nat>>, n: Notices,
                        h: nat, pages: set<nat>, scope: int)
    requires ManagerOk(c, acqc, arrived, reported, n) && h !in arrived && h < c.hosts <= MAXHOSTS && acqc + 1 < c.hosts
    ensures ManagerOk(c, acqc + 1, arrived + {h}, reported[h := pages], Record(n, pages, h, scope))
  {
    RecordAllClassified(reported, n, h, pages, scope);
    assert |arrived + {h}| == |arrived| + 1;
    assert reported[h := pages].Keys == reported.Keys + {h};
  }

  lemma ServeBarrBarrier(c: Config, s: State, h: nat)
    requires Wf(c, s) && CanServeBarr(c, s, h) && HostsOk(c, s) && BarrierOk(c, s)
    requires Wf(c, DoServeBarr(c, s, h))
    ensures BarrierOk(c, DoServeBarr(c, s, h))
  {
    ServeBarrCounts(c, s, h);
    if !LastArrival(c, s) {
      assert GoodAt(c, s, h);
      ArrivalRecorded(c, s.acqc, s.arrived, s.reported, s.barrNotices, h, s.hosts[h].barr.value, s.barrScope);
    }
  }

  lemma ServeBarrLocks(c: Config, s: State, h: nat)
    requires Wf(c, s) && CanServeBarr(c, s, h) && LocksOk(c, s)
    requires Wf(c, DoServeBarr(c, s, h))
    ensures LocksOk(c, DoServeBarr(c, s, h))
  {
    var s' := DoServeBarr(c, s, h);
    forall i, l | 0 <= i < c.hosts && 0 <= l < c.locks ensures StatusOk(s'.hosts[i], s'.locks[l], i, l) {
      assert StatusOk(s.hosts[i], s.locks[l], i, l);
      StandingKept(s.hosts[i], s'.hosts[i], s.locks[l], i, l);
    }
  }

  /** A step of host h alone, once its own invariants are known. */
  lemma OneHost(c: Config, s: State, s': State, h: nat)
    requires Wf(c, s) && Core(c, s) && Wf(c, s') && h < c.hosts
    requires s'.hosts == s.hosts[h := s'.hosts[h]] && GoodAt(c, s', h) && CountsOk(s', h)
    requires s'.acqc == s.acqc && s'.arrived == s.arrived && s'.reported == s.reported
    requires s'.barrNotices == s.barrNotices && s'.barrScope == s.barrScope
    ensures HostsOk(c, s') && BarrierOk(c, s')
  {
    forall i | 0 <= i < c.hosts ensures GoodAt(c, s', i) { assert GoodAt(c, s, i); }
    OneHostBarrier(c, s, s', h);
  }

  lemma ServeAcqHosts(c: Config, s: State, h: nat, l: nat)
    requires Wf(c, s) && CanServeAcq(c, s, h, l) && Core(c, s)
    ensures var s' := DoServeAcq(c, s, h, l); Wf(c, s') && HostsOk(c, s') && BarrierOk(c, s')
  {
    var s' := DoServeAcq(c, s, h, l);
    ServeAcqStatus(c, s, h, l);
    assert GoodAt(c, s, h) && CountsOk(s, h);
    LockSideGood(c, h, s.hosts[h], s'.hosts[h], h in s.arrived);
    OneHost(c, s, s', h);
  }

  lemma ServeWtntHosts(c: Config, s: State, h: nat, l: nat)
    requires Wf(c, s) && CanServeWtnt(c, s, h, l) && Core(c, s)
    ensures var s' := DoServeWtnt(c, s, h, l); Wf(c, s') && HostsOk(c, s') && BarrierOk(c, s')
  {
    var s' := DoServeWtnt(c, s, h, l);
    assert GoodAt(c, s, h) && CountsOk(s, h);
    LockSideGood(c, h, s.hosts[h], s'.hosts[h], h in s.arrived);
    OneHost(c, s, s', h);
  }

  lemma ServeRelHostsOk(c: Config, s: State, h: nat, l: nat)
    requires Wf(c, s) && CanServeRel(c, s, h, l) && Core(c, s)
    ensures var s' := DoServeRel(c, s, h, l); Wf(c, s') && HostsOk(c, s') && BarrierOk(c, s')
  {
    var s' := DoServeRel(c, s, h, l);
    ServeRelStatus(c, s, h, l);
    forall i | 0 <= i < c.hosts ensures GoodAt(c, s', i) && CountsOk(s', i) {
      assert GoodAt(c, s, i) && CountsOk(s, i);
      assert s'.hosts[i] == ServeRelHost(c, s, h, l, i);
      LockSideGood(c, i, s.hosts[i], s'.hosts[i], i in s.arrived);
    }
  }
}
