/** The account of a guarded unit at barriers, at the start of an interval, and when homes move. */
module ProtocolScopeBarrier {
  import opened Pages
  import opened Protocol
  import opened ProtocolInv
  import opened ProtocolHosts
  import opened ProtocolLocks
  import opened ProtocolBarrier
  import opened ProtocolReleases
  import opened ProtocolSteps
  import opened ProtocolMigration
  import opened ProtocolTheorems
  import opened ProtocolScope
  import opened ProtocolScopeSteps
  import opened ProtocolScopeSync

  // ---------------------------------------------------------------- arriving

  lemma SendBarrStack(c: Config, s: State, g: Guard, h: nat)
    requires Wf(c, s) && CanSendBarr(c, s, h) && GoodAt(c, s, h)
    ensures var x, y := s.hosts[h], DoSendBarr(c, s, h).hosts[h];
      !OnStack(x, g.lock) && !OnStack(y, g.lock) && !InSection(x, g) && !InSection(y, g)
  {
  }

  lemma SendBarrSolo(c: Config, s: State, g: Guard, h: nat)
    requires Wf(c, s) && CanSendBarr(c, s, h) && GoodAt(c, s, h) && Exists(c, g) && PlaceOk(c, s, g, h)
    ensures Solo(c, s, DoSendBarr(c, s, h), g, h)
  {
    SendBarrStack(c, s, g, h);
    ReadyTop(c, s, h);
  }

  lemma SendBarrView(c: Config, s: State, g: Guard, h: nat)
    requires Wf(c, s) && CanSendBarr(c, s, h) && GoodAt(c, s, h) && Exists(c, g)
    ensures ViewKept(c, s, DoSendBarr(c, s, h), g, h)
  {
    SendBarrStack(c, s, g, h);
  }

  lemma SendBarrScope(c: Config, s: State, g: Guard, h: nat)
    requires Wf(c, s) && CanSendBarr(c, s, h) && GoodAt(c, s, h) && Exists(c, g) && ScopeInv(c, s, g)
    ensures ScopeInv(c, DoSendBarr(c, s, h), g)
  {
    assert PlaceOk(c, s, g, h);
    SendBarrSolo(c, s, g, h);
    SendBarrView(c, s, g, h);
    SoloScope(c, s, DoSendBarr(c, s, h), g, h);
  }

  // an early arrival

  /** Only the message and the manager's account change. */
  lemma ArrivalHosts(c: Config, s: State, h: nat)
    requires Wf(c, s) && CanServeBarr(c, s, h) && !LastArrival(c, s)
    ensures var s' := DoServeBarr(c, s, h);
      && s'.hosts == s.hosts[h := s.hosts[h].(barr := None)]
      && s' == s.(hosts := s'.hosts, acqc := s.acqc + 1, arrived := s.arrived + {h}, barrNotices := s'.barrNotices,
                  reported := s.reported[h := s.hosts[h].barr.value])
  {
    assert DoServeBarr(c, s, h).hosts == s.hosts[h := s.hosts[h].(barr := None)];
  }

  /** A report counted is a report still. */
  lemma ArrivalShared(c: Config, s: State, h: nat, p: nat)
    requires Wf(c, s) && CanServeBarr(c, s, h) && GoodAt(c, s, h) && BarrierOk(c, s) && !LastArrival(c, s)
    requires Wf(c, DoServeBarr(c, s, h)) && p < c.pages
    ensures Shared(c, s, p) ==> Shared(c, DoServeBarr(c, s, h), p)
  {
    ArrivalHosts(c, s, h);
  }

  lemma ArrivalSolo(c: Config, s: State, g: Guard, h: nat)
    requires Wf(c, s) && CanServeBarr(c, s, h) && HostsOk(c, s) && BarrierOk(c, s) && Exists(c, g) && PlaceOk(c, s, g, h)
    requires !LastArrival(c, s) && Wf(c, DoServeBarr(c, s, h))
    ensures Solo(c, s, DoServeBarr(c, s, h), g, h)
  {
    assert GoodAt(c, s, h);
    ArrivalHosts(c, s, h);
    ArrivalShared(c, s, h, g.page);
    SameStack(s.hosts[h], DoServeBarr(c, s, h).hosts[h], g);
  }

  lemma ArrivalView(c: Config, s: State, g: Guard, h: nat)
    requires Wf(c, s) && CanServeBarr(c, s, h) && Exists(c, g) && !LastArrival(c, s) && Wf(c, DoServeBarr(c, s, h))
    ensures ViewKept(c, s, DoServeBarr(c, s, h), g, h)
  {
    ArrivalHosts(c, s, h);
    SameStack(s.hosts[h], DoServeBarr(c, s, h).hosts[h], g);
  }

  // the last

  /** When the last host has arrived nobody is in a section, and every copy that will stay is the home's. */
  lemma LastView(c: Config, s: State, g: Guard, h: nat, i: nat)
    requires Wf(c, s) && CanServeBarr(c, s, h) && HostsOk(c, s) && BarrierOk(c, s) && Exists(c, g) && LastArrival(c, s)
    requires Wf(c, DoServeBarr(c, s, h)) && CopiesOk(c, DoServeBarr(c, s, h)) && i < c.hosts
    ensures ViewOk(c, DoServeBarr(c, s, h), g, i)
  {
    var s' := DoServeBarr(c, s, h);
    AllArrived(c, s, h);
    assert GoodAt(c, s, i) && SnapOk(c, s', i, g.page);
  }

  /** A page that its home reported is named for everybody else. */
  lemma ReportedIsStale(c: Config, s: State, h: nat, p: nat, i: nat)
    requires Wf(c, s) && CanServeBarr(c, s, h) && HostsOk(c, s) && BarrierOk(c, s) && LastArrival(c, s)
    requires p < c.pages && i < c.hosts && Remote(c, i, p) && HomeReported(c, s, p)
    ensures BarrStale(DoServeBarr(c, s, h).hosts[i], i, p)
  {
    AllArrived(c, s, h);
    AllReported(c, s, h);
    var all, n := s.reported[h := s.hosts[h].barr.value], Record(s.barrNotices, s.hosts[h].barr.value, h, s.barrScope);
    RecordAllClassified(s.reported, s.barrNotices, h, s.hosts[h].barr.value, s.barrScope);
    assert Classified(all, n, p);
    var m := c.homeOf[p];
    assert GoodAt(c, s, m);
    assert m in all && p in all[m];
  }

  lemma LastPlace(c: Config, s: State, g: Guard, h: nat, i: nat)
    requires Wf(c, s) && CanServeBarr(c, s, h) && HostsOk(c, s) && BarrierOk(c, s) && Exists(c, g) && LastArrival(c, s)
    requires Wf(c, DoServeBarr(c, s, h)) && i < c.hosts && PlaceOk(c, s, g, i)
    ensures PlaceOk(c, DoServeBarr(c, s, h), g, i)
  {
    var s' := DoServeBarr(c, s, h);
    AllArrived(c, s, h);
    SameStack(s.hosts[i], s'.hosts[i], g);
    assert GoodAt(c, s, i);
    if Remote(c, i, g.page) && HomeReported(c, s, g.page) { ReportedIsStale(c, s, h, g.page, i); }
  }

  lemma ServeBarrScope(c: Config, s: State, g: Guard, h: nat)
    requires Wf(c, s) && CanServeBarr(c, s, h) && HostsOk(c, s) && BarrierOk(c, s) && Exists(c, g) && ScopeInv(c, s, g)
    requires Wf(c, DoServeBarr(c, s, h)) && CopiesOk(c, DoServeBarr(c, s, h))
    ensures ScopeInv(c, DoServeBarr(c, s, h), g)
  {
    var s' := DoServeBarr(c, s, h);
    if LastArrival(c, s) {
      forall i | 0 <= i < c.hosts ensures PlaceOk(c, s', g, i) && ViewOk(c, s', g, i) {
        assert PlaceOk(c, s, g, i);
        LastPlace(c, s, g, h, i);
        LastView(c, s, g, h, i);
      }
    } else {
      assert PlaceOk(c, s, g, h);
      ArrivalSolo(c, s, g, h);
      ArrivalView(c, s, g, h);
      SoloScope(c, s, s', g, h);
    }
  }

  // ---------------------------------------------------------------- leaving

  lemma LeaveBarrierGentle(c: Config, s: State, g: Guard, h: nat)
    requires Wf(c, s) && CanTakeBarrGrant(c, s, h) && GoodAt(c, s, h) && BarrierOk(c, s) && Exists(c, g) && PlaceOk(c, s, g, h)
    requires Wf(c, DoTakeBarrGrant(c, s, h))
    ensures Gentle(c, s, DoTakeBarrGrant(c, s, h), g, h)
  {
    var s' := DoTakeBarrGrant(c, s, h);
    SameStack(s.hosts[h], s'.hosts[h], g);
    forall i | 0 <= i < c.hosts && i != h ensures SameView(s.hosts[i], s'.hosts[i]) { assert s'.hosts[i] == s.hosts[i]; }
  }

  lemma LeaveBarrierView(c: Config, s: State, g: Guard, h: nat)
    requires Wf(c, s) && CanTakeBarrGrant(c, s, h) && GoodAt(c, s, h) && Exists(c, g) && Wf(c, DoTakeBarrGrant(c, s, h))
    ensures ViewKept(c, s, DoTakeBarrGrant(c, s, h), g, h)
  {
    SameStack(s.hosts[h], DoTakeBarrGrant(c, s, h).hosts[h], g);
  }

  lemma TakeBarrGrantScope(c: Config, s: State, g: Guard, h: nat)
    requires Wf(c, s) && CanTakeBarrGrant(c, s, h) && GoodAt(c, s, h) && BarrierOk(c, s) && Exists(c, g) && ScopeInv(c, s, g)
    requires Wf(c, DoTakeBarrGrant(c, s, h))
    ensures ScopeInv(c, DoTakeBarrGrant(c, s, h), g)
  {
    assert PlaceOk(c, s, g, h);
    LeaveBarrierGentle(c, s, g, h);
    LeaveBarrierView(c, s, g, h);
    GentleScope(c, s, DoTakeBarrGrant(c, s, h), g, h);
  }

  // ---------------------------------------------------------------- the start of an interval

  lemma PushedStack(x: HostState, y: HostState, g: Guard, l: nat)
    requires |x.stack| >= 1 && y.stack == x.stack + [Frame(l, {}, {})]
    ensures OnStack(y, g.lock) == (OnStack(x, g.lock) || l == g.lock) && InSection(y, g) == InSection(x, g)
  {
    var n := |x.stack|;
    assert forall k :: 0 <= k < n ==> y.stack[k] == x.stack[k];
    assert y.stack[n] == Frame(l, {}, {});
    if OnStack(x, g.lock) {
      var k :| 1 <= k < n && x.stack[k].lock == g.lock;
      assert y.stack[k].lock == g.lock;
    }
    if InSection(x, g) {
      var k :| 1 <= k < n && x.stack[k].lock == g.lock && g.page in x.stack[k].dirtied;
      assert y.stack[k].lock == g.lock;
    }
  }

  lemma ResumeStack(c: Config, s: State, g: Guard, h: nat)
    requires Wf(c, s) && CanResume(c, s, h)
    ensures var x, y := s.hosts[h], DoResume(c, s, h).hosts[h];
      OnStack(y, g.lock) == (OnStack(x, g.lock) || x.phase == Resuming(Acq(g.lock))) && InSection(y, g) == InSection(x, g)
  {
    var x, y := s.hosts[h], DoResume(c, s, h).hosts[h];
    if x.phase.op.Acq? { PushedStack(x, y, g, x.phase.op.lock); } else { SameStack(x, y, g); }
  }

  lemma ResumeElseSolo(c: Config, s: State, g: Guard, h: nat)
    requires Wf(c, s) && CanResume(c, s, h) && GoodAt(c, s, h) && Exists(c, g) && PlaceOk(c, s, g, h)
    requires s.hosts[h].phase != Resuming(Acq(g.lock))
    ensures Solo(c, s, DoResume(c, s, h), g, h)
  {
    ResumeStack(c, s, g, h);
  }

  lemma ResumeElseView(c: Config, s: State, g: Guard, h: nat)
    requires Wf(c, s) && CanResume(c, s, h) && GoodAt(c, s, h) && Exists(c, g)
    requires s.hosts[h].phase != Resuming(Acq(g.lock))
    ensures ViewKept(c, s, DoResume(c, s, h), g, h)
  {
    ResumeStack(c, s, g, h);
  }

  lemma EnterSmooth(c: Config, s: State, g: Guard, h: nat)
    requires Wf(c, s) && CanResume(c, s, h) && GoodAt(c, s, h) && Exists(c, g) && PlaceOk(c, s, g, h)
    requires s.hosts[h].phase == Resuming(Acq(g.lock))
    ensures var s' := DoResume(c, s, h);
      && Smooth(c, s, s', g, h) && HomeKept(c, s, s', g, h) && PlaceOk(c, s', g, h)
      && (Shared(c, s, g.page) ==> Shared(c, s', g.page)) && OnStack(s'.hosts[h], g.lock)
  {
    var s' := DoResume(c, s, h);
    ResumeStack(c, s, g, h);
    forall i | 0 <= i < c.hosts && i != h ensures SameView(s.hosts[i], s'.hosts[i]) { assert s'.hosts[i] == s.hosts[i]; }
  }

  /** A host that has handled its grant is owed nothing more. */
  lemma NothingOwed(c: Config, s: State, g: Guard, h: nat)
    requires Wf(c, s) && LocksOk(c, s) && ReleasesOk(c, s) && Exists(c, g) && h < c.hosts
    requires s.hosts[h].phase == Resuming(Acq(g.lock))
    ensures !Owed(c, s, g, h)
  {
    forall j | 0 <= j < c.hosts && j != h ensures !Owes(c, s, g, j) { OwnerAlone(c, s, g, h, j); }
    assert LogOk(c, s, g.lock) && ScopeOk(c, s, h, g.lock);
    forall r | r in s.locks[g.lock].hist ensures r.scope <= s.hosts[h].myscope[g.lock] {
      assert ReleaseOk(c, s, g.lock, r);
    }
  }

  lemma EnterView(c: Config, s: State, g: Guard, h: nat)
    requires Wf(c, s) && CanResume(c, s, h) && GoodAt(c, s, h) && LocksOk(c, s) && ReleasesOk(c, s) && Exists(c, g)
    requires s.hosts[h].phase == Resuming(Acq(g.lock)) && Agree(c, s, g)
    ensures ViewOk(c, DoResume(c, s, h), g, h)
  {
    ResumeStack(c, s, g, h);
    NothingOwed(c, s, g, h);
    assert ViewOk(c, s, g, h);
    NobodyIn(c, s, g, h);
  }

  lemma NobodyIn(c: Config, s: State, g: Guard, h: nat)
    requires Wf(c, s) && LocksOk(c, s) && Exists(c, g) && h < c.hosts && GoodAt(c, s, h)
    requires s.hosts[h].phase == Resuming(Acq(g.lock))
    ensures !SomeHolds(s, g.lock)
  {
    forall j | 0 <= j < c.hosts ensures !OnStack(s.hosts[j], g.lock) {
      if j != h { OwnerAlone(c, s, g, h, j); }
    }
  }

  lemma ResumeScope(c: Config, s: State, g: Guard, h: nat)
    requires Wf(c, s) && CanResume(c, s, h) && GoodAt(c, s, h) && LocksOk(c, s) && ReleasesOk(c, s)
    requires Exists(c, g) && ScopeInv(c, s, g)
    ensures ScopeInv(c, DoResume(c, s, h), g)
  {
    var s' := DoResume(c, s, h);
    assert PlaceOk(c, s, g, h);
    if s.hosts[h].phase != Resuming(Acq(g.lock)) {
      ResumeElseSolo(c, s, g, h);
      ResumeElseView(c, s, g, h);
      SoloScope(c, s, s', g, h);
    } else {
      EnterSmooth(c, s, g, h);
      SmoothPlaces(c, s, s', g, h);
      if Disciplined(c, s', g) {
        EnterView(c, s, g, h);
        SmoothAgree(c, s, s', g, h);
      }
    }
  }

  // ---------------------------------------------------------------- homes that move

  lemma MigratedPlace(c: Config, s: State, k: Slots, g: Guard, i: nat)
    requires Wf(c, s) && Inv(c, s) && GrantsAgree(s) && CanMigrate(c, s) && Exists(c, g) && i < c.hosts && PlaceOk(c, s, g, i)
    requires Wf(Migrated(c, s, k).config, Migrated(c, s, k).state)
    ensures PlaceOk(Migrated(c, s, k).config, Migrated(c, s, k).state, g, i)
  {
    var c', s' := Migrated(c, s, k).config, Migrated(c, s, k).state;
    assert s'.hosts[i] == MigratedHost(c, s, k, i);
    AllQuiet(c, s, i);
    SameStack(s.hosts[i], s'.hosts[i], g);
    if s'.hosts[i].lines[g.page].Valid() { MigratedCopy(c, s, k, i, g.page); }
  }

  lemma MigratedView(c: Config, s: State, k: Slots, g: Guard, i: nat)
    requires Wf(c, s) && Inv(c, s) && GrantsAgree(s) && CanMigrate(c, s) && Exists(c, g) && i < c.hosts
    requires s.mem[g.page][g.unit] == Value(s, g) && !OnStack(s.hosts[i], g.lock)
    requires Wf(Migrated(c, s, k).config, Migrated(c, s, k).state)
    ensures ViewOk(Migrated(c, s, k).config, Migrated(c, s, k).state, g, i)
  {
    var s' := Migrated(c, s, k).state;
    assert s'.hosts[i] == MigratedHost(c, s, k, i);
    AllQuiet(c, s, i);
    SameStack(s.hosts[i], s'.hosts[i], g);
    if s'.hosts[i].lines[g.page].Valid() { MigratedCopy(c, s, k, i, g.page); }
  }

  lemma MigrateScope(c: Config, s: State, k: Slots, g: Guard)
    requires Wf(c, s) && Inv(c, s) && GrantsAgree(s) && CanMigrate(c, s) && Exists(c, g) && ScopeInv(c, s, g)
    requires Wf(Migrated(c, s, k).config, Migrated(c, s, k).state)
    ensures ScopeInv(Migrated(c, s, k).config, Migrated(c, s, k).state, g)
  {
    var c', s' := Migrated(c, s, k).config, Migrated(c, s, k).state;
    forall i | 0 <= i < c.hosts ensures PlaceOk(c', s', g, i) && !OnStack(s.hosts[i], g.lock) {
      assert PlaceOk(c, s, g, i);
      AllQuiet(c, s, i);
      MigratedPlace(c, s, k, g, i);
    }
    if Disciplined(c', s', g) {
      assert Disciplined(c, s, g) && !SomeHolds(s, g.lock);
      if Moves(c, s, g.page) { MovedCopyIsHome(c, s, g.page); }
      forall i | 0 <= i < c.hosts ensures ViewOk(c', s', g, i) { MigratedView(c, s, k, g, i); }
    }
  }
}
