/** Every step keeps the account of where the last value of a guarded unit is. */
module ProtocolScopeSteps {
  import opened Pages
  import opened Protocol
  import opened ProtocolInv
  import opened ProtocolHosts
  import opened ProtocolLocks
  import opened ProtocolBarrier
  import opened ProtocolReleases
  import opened ProtocolScope

  // ---------------------------------------------------------------- lock stacks

  lemma SameStack(x: HostState, y: HostState, g: Guard)
    requires y.stack == x.stack
    ensures OnStack(y, g.lock) == OnStack(x, g.lock) && InSection(y, g) == InSection(x, g)
  {
  }

  lemma DirtyInSection(c: Config, x: HostState, g: Guard)
    requires WfHost(c, x) && ScopesOk(c, x) && OnStack(x, g.lock) && Unlisted(c, x, g.page)
    ensures InSection(x, g)
  {
    var k :| 1 <= k < |x.stack| && x.stack[k].lock == g.lock;
    assert g.page in x.stack[k].dirtied;
  }

  lemma DirtiedStack(x: HostState, y: HostState, g: Guard, p: nat)
    requires y.stack == Dirtied(x.stack, p)
    ensures OnStack(y, g.lock) == OnStack(x, g.lock) && (InSection(x, g) ==> InSection(y, g))
  {
    assert forall i :: 0 <= i < |x.stack| ==> y.stack[i].lock == x.stack[i].lock;
    if InSection(x, g) {
      var k :| 1 <= k < |x.stack| && x.stack[k].lock == g.lock && g.page in x.stack[k].dirtied;
      assert y.stack[k].lock == g.lock && g.page in y.stack[k].dirtied;
    }
  }

  lemma ReportedStack(x: HostState, y: HostState, g: Guard, p: nat)
    requires |x.stack| >= 1 && y.stack == Reported(x.stack, p)
    ensures OnStack(y, g.lock) == OnStack(x, g.lock) && InSection(y, g) == InSection(x, g)
  {
    assert forall k :: 0 <= k < |x.stack| ==> y.stack[k].lock == x.stack[k].lock && y.stack[k].dirtied == x.stack[k].dirtied;
  }

  lemma ScannedStack(x: HostState, y: HostState, g: Guard, p: nat)
    requires |x.stack| >= 1 && y.stack == Reported(Dirtied(x.stack, p), p)
    ensures OnStack(y, g.lock) == OnStack(x, g.lock) && (InSection(x, g) ==> InSection(y, g))
    ensures p == g.page && OnStack(x, g.lock) ==> InSection(y, g)
    ensures p in y.stack[0].dirtied
  {
    assert forall k :: 0 <= k < |x.stack| ==> y.stack[k].lock == x.stack[k].lock && y.stack[k].dirtied == x.stack[k].dirtied + {p};
    if OnStack(x, g.lock) {
      var k :| 1 <= k < |x.stack| && x.stack[k].lock == g.lock;
      assert y.stack[k].lock == g.lock;
    }
  }

  // ---------------------------------------------------------------- between synchronisations

  lemma EvictSolo(c: Config, s: State, g: Guard, h: nat, p: nat)
    requires Wf(c, s) && CanEvict(c, s, h, p) && GoodAt(c, s, h) && Exists(c, g) && PlaceOk(c, s, g, h)
    ensures Solo(c, s, DoEvict(c, s, h, p), g, h)
  {
    SameStack(s.hosts[h], DoEvict(c, s, h, p).hosts[h], g);
  }

  lemma EvictView(c: Config, s: State, g: Guard, h: nat, p: nat)
    requires Wf(c, s) && CanEvict(c, s, h, p) && GoodAt(c, s, h) && Exists(c, g)
    ensures ViewKept(c, s, DoEvict(c, s, h, p), g, h)
  {
    SameStack(s.hosts[h], DoEvict(c, s, h, p).hosts[h], g);
  }

  lemma EvictScope(c: Config, s: State, g: Guard, h: nat, p: nat)
    requires Wf(c, s) && CanEvict(c, s, h, p) && GoodAt(c, s, h) && Exists(c, g) && ScopeInv(c, s, g)
    ensures ScopeInv(c, DoEvict(c, s, h, p), g)
  {
    assert PlaceOk(c, s, g, h);
    EvictSolo(c, s, g, h, p);
    EvictView(c, s, g, h, p);
    SoloScope(c, s, DoEvict(c, s, h, p), g, h);
  }

  lemma FaultSolo(c: Config, s: State, g: Guard, h: nat, p: nat, write: bool)
    requires Wf(c, s) && CanFault(c, s, h, p) && GoodAt(c, s, h) && Exists(c, g) && PlaceOk(c, s, g, h)
    ensures Solo(c, s, DoFault(c, s, h, p, write), g, h)
  {
    SameStack(s.hosts[h], DoFault(c, s, h, p, write).hosts[h], g);
  }

  lemma FaultView(c: Config, s: State, g: Guard, h: nat, p: nat, write: bool)
    requires Wf(c, s) && CanFault(c, s, h, p) && GoodAt(c, s, h) && Exists(c, g)
    ensures ViewKept(c, s, DoFault(c, s, h, p, write), g, h)
  {
    SameStack(s.hosts[h], DoFault(c, s, h, p, write).hosts[h], g);
  }

  lemma FaultScope(c: Config, s: State, g: Guard, h: nat, p: nat, write: bool)
    requires Wf(c, s) && CanFault(c, s, h, p) && GoodAt(c, s, h) && Exists(c, g) && ScopeInv(c, s, g)
    ensures ScopeInv(c, DoFault(c, s, h, p, write), g)
  {
    assert PlaceOk(c, s, g, h);
    FaultSolo(c, s, g, h, p, write);
    FaultView(c, s, g, h, p, write);
    SoloScope(c, s, DoFault(c, s, h, p, write), g, h);
  }

  lemma UpgradeSolo(c: Config, s: State, g: Guard, h: nat, p: nat)
    requires Wf(c, s) && CanUpgrade(c, s, h, p) && GoodAt(c, s, h) && Exists(c, g) && PlaceOk(c, s, g, h)
    ensures Solo(c, s, DoUpgrade(c, s, h, p), g, h)
  {
    DirtiedStack(s.hosts[h], DoUpgrade(c, s, h, p).hosts[h], g, p);
  }

  lemma UpgradeView(c: Config, s: State, g: Guard, h: nat, p: nat)
    requires Wf(c, s) && CanUpgrade(c, s, h, p) && GoodAt(c, s, h) && Exists(c, g)
    ensures ViewKept(c, s, DoUpgrade(c, s, h, p), g, h)
  {
    DirtiedStack(s.hosts[h], DoUpgrade(c, s, h, p).hosts[h], g, p);
  }

  lemma UpgradeScope(c: Config, s: State, g: Guard, h: nat, p: nat)
    requires Wf(c, s) && CanUpgrade(c, s, h, p) && GoodAt(c, s, h) && Exists(c, g) && ScopeInv(c, s, g)
    ensures ScopeInv(c, DoUpgrade(c, s, h, p), g)
  {
    assert PlaceOk(c, s, g, h);
    UpgradeSolo(c, s, g, h, p);
    UpgradeView(c, s, g, h, p);
    SoloScope(c, s, DoUpgrade(c, s, h, p), g, h);
  }

  lemma BeginSyncSolo(c: Config, s: State, g: Guard, h: nat, op: SyncOp)
    requires Wf(c, s) && CanBeginSync(c, s, h, op) && GoodAt(c, s, h) && Exists(c, g) && PlaceOk(c, s, g, h)
    ensures Solo(c, s, DoBeginSync(c, s, h, op), g, h)
  {
    SameStack(s.hosts[h], DoBeginSync(c, s, h, op).hosts[h], g);
  }

  lemma BeginSyncView(c: Config, s: State, g: Guard, h: nat, op: SyncOp)
    requires Wf(c, s) && CanBeginSync(c, s, h, op) && GoodAt(c, s, h) && Exists(c, g)
    ensures ViewKept(c, s, DoBeginSync(c, s, h, op), g, h)
  {
    SameStack(s.hosts[h], DoBeginSync(c, s, h, op).hosts[h], g);
  }

  lemma BeginSyncScope(c: Config, s: State, g: Guard, h: nat, op: SyncOp)
    requires Wf(c, s) && CanBeginSync(c, s, h, op) && GoodAt(c, s, h) && Exists(c, g) && ScopeInv(c, s, g)
    ensures ScopeInv(c, DoBeginSync(c, s, h, op), g)
  {
    assert PlaceOk(c, s, g, h);
    BeginSyncSolo(c, s, g, h, op);
    BeginSyncView(c, s, g, h, op);
    SoloScope(c, s, DoBeginSync(c, s, h, op), g, h);
  }

  lemma TakeDiffGrantSolo(c: Config, s: State, g: Guard, h: nat)
    requires Wf(c, s) && CanTakeDiffGrant(c, s, h) && GoodAt(c, s, h) && Exists(c, g) && PlaceOk(c, s, g, h)
    ensures Solo(c, s, DoTakeDiffGrant(c, s, h), g, h)
  {
    SameStack(s.hosts[h], DoTakeDiffGrant(c, s, h).hosts[h], g);
  }

  lemma TakeDiffGrantView(c: Config, s: State, g: Guard, h: nat)
    requires Wf(c, s) && CanTakeDiffGrant(c, s, h) && GoodAt(c, s, h) && Exists(c, g)
    ensures ViewKept(c, s, DoTakeDiffGrant(c, s, h), g, h)
  {
    SameStack(s.hosts[h], DoTakeDiffGrant(c, s, h).hosts[h], g);
  }

  lemma TakeDiffGrantScope(c: Config, s: State, g: Guard, h: nat)
    requires Wf(c, s) && CanTakeDiffGrant(c, s, h) && GoodAt(c, s, h) && Exists(c, g) && ScopeInv(c, s, g)
    ensures ScopeInv(c, DoTakeDiffGrant(c, s, h), g)
  {
    assert PlaceOk(c, s, g, h);
    TakeDiffGrantSolo(c, s, g, h);
    TakeDiffGrantView(c, s, g, h);
    SoloScope(c, s, DoTakeDiffGrant(c, s, h), g, h);
  }

  lemma TakenStack(c: Config, s: State, g: Guard, h: nat)
    requires Wf(c, s) && CanTakePage(c, s, h)
    ensures var x, y := s.hosts[h], DoTakePage(c, s, h).hosts[h];
      OnStack(y, g.lock) == OnStack(x, g.lock) && (InSection(x, g) ==> InSection(y, g))
  {
    var x, y := s.hosts[h], DoTakePage(c, s, h).hosts[h];
    if x.phase.write { DirtiedStack(x, y, g, x.pageGrant.value.0); } else { SameStack(x, y, g); }
  }

  lemma TakePageSolo(c: Config, s: State, g: Guard, h: nat)
    requires Wf(c, s) && CanTakePage(c, s, h) && GoodAt(c, s, h) && Exists(c, g) && PlaceOk(c, s, g, h)
    ensures Solo(c, s, DoTakePage(c, s, h), g, h)
  {
    TakenStack(c, s, g, h);
  }

  lemma TakePageView(c: Config, s: State, g: Guard, h: nat)
    requires Wf(c, s) && CanTakePage(c, s, h) && GoodAt(c, s, h) && Exists(c, g)
    ensures ViewKept(c, s, DoTakePage(c, s, h), g, h)
  {
    TakenStack(c, s, g, h);
  }

  lemma TakePageScope(c: Config, s: State, g: Guard, h: nat)
    requires Wf(c, s) && CanTakePage(c, s, h) && GoodAt(c, s, h) && Exists(c, g) && ScopeInv(c, s, g)
    ensures ScopeInv(c, DoTakePage(c, s, h), g)
  {
    assert PlaceOk(c, s, g, h);
    TakePageSolo(c, s, g, h);
    TakePageView(c, s, g, h);
    SoloScope(c, s, DoTakePage(c, s, h), g, h);
  }

  lemma HomeFaultSolo(c: Config, s: State, g: Guard, h: nat, p: nat)
    requires Wf(c, s) && CanHomeFault(c, s, h, p) && GoodAt(c, s, h) && Exists(c, g) && PlaceOk(c, s, g, h)
    ensures Solo(c, s, DoHomeFault(c, s, h, p), g, h)
  {
    assert s.hosts == s.hosts[h := s.hosts[h]];
  }

  lemma HomeFaultView(c: Config, s: State, g: Guard, h: nat, p: nat)
    requires Wf(c, s) && CanHomeFault(c, s, h, p) && GoodAt(c, s, h) && Exists(c, g)
    ensures ViewKept(c, s, DoHomeFault(c, s, h, p), g, h)
  {
    assert s.hosts == s.hosts[h := s.hosts[h]];
  }

  lemma HomeFaultScope(c: Config, s: State, g: Guard, h: nat, p: nat)
    requires Wf(c, s) && CanHomeFault(c, s, h, p) && GoodAt(c, s, h) && Exists(c, g) && ScopeInv(c, s, g)
    ensures ScopeInv(c, DoHomeFault(c, s, h, p), g)
  {
    assert PlaceOk(c, s, g, h);
    HomeFaultSolo(c, s, g, h, p);
    HomeFaultView(c, s, g, h, p);
    SoloScope(c, s, DoHomeFault(c, s, h, p), g, h);
  }

  // ---------------------------------------------------------------- writes

  /** A write inside a section of the lock: the others are owed notice of it. */
  lemma WriteOther(c: Config, s: State, g: Guard, h: nat, v: Word, i: nat)
    requires Wf(c, s) && CanWrite(c, s, h, g.page, g.unit) && GoodAt(c, s, h) && Exists(c, g) && i < c.hosts && i != h
    requires ViewOk(c, s, g, i) && OnStack(s.hosts[h], g.lock) && !OnStack(s.hosts[i], g.lock)
    ensures ViewOk(c, DoWrite(c, s, h, g.page, g.unit, v), g, i)
  {
    var s' := DoWrite(c, s, h, g.page, g.unit, v);
    DirtyInSection(c, s.hosts[h], g);
    SameStack(s.hosts[h], s'.hosts[h], g);
    assert Owes(c, s', g, h);
    assert Owed(c, s', g, i);
  }

  lemma WriteSelf(c: Config, s: State, g: Guard, h: nat, v: Word)
    requires Wf(c, s) && CanWrite(c, s, h, g.page, g.unit) && GoodAt(c, s, h) && Exists(c, g)
    requires ViewOk(c, s, g, h) && OnStack(s.hosts[h], g.lock)
    ensures ViewOk(c, DoWrite(c, s, h, g.page, g.unit, v), g, h)
  {
    assert OnStack(DoWrite(c, s, h, g.page, g.unit, v).hosts[h], g.lock);
  }

  lemma OneHolder(c: Config, s: State, l: nat, h: nat, i: nat)
    requires Wf(c, s) && LocksOk(c, s) && h < c.hosts && i < c.hosts && l < c.locks && i != h && OnStack(s.hosts[h], l)
    ensures !Owns(s.hosts[i], l) && !Releasing(s.hosts[i], l)
  {
    assert StatusOk(s.hosts[h], s.locks[l], h, l) && StatusOk(s.hosts[i], s.locks[l], i, l);
  }

  lemma WriteHere(c: Config, s: State, g: Guard, h: nat, v: Word)
    requires Wf(c, s) && CanWrite(c, s, h, g.page, g.unit) && GoodAt(c, s, h) && LocksOk(c, s) && Exists(c, g) && ScopeInv(c, s, g)
    ensures ScopeInv(c, DoWrite(c, s, h, g.page, g.unit, v), g)
  {
    var s' := DoWrite(c, s, h, g.page, g.unit, v);
    forall i | 0 <= i < c.hosts ensures PlaceOk(c, s', g, i) { assert PlaceOk(c, s, g, i); }
    if Disciplined(c, s', g) {
      assert Disciplined(c, s, g) && OnStack(s.hosts[h], g.lock);
      assert OnStack(s'.hosts[h], g.lock);
      forall i | 0 <= i < c.hosts ensures ViewOk(c, s', g, i) {
        assert ViewOk(c, s, g, i);
        if i == h {
          WriteSelf(c, s, g, h, v);
        } else {
          OneHolder(c, s, g.lock, h, i);
          WriteOther(c, s, g, h, v, i);
        }
      }
    }
  }

  // to another unit

  lemma WriteElseSolo(c: Config, s: State, g: Guard, h: nat, p: nat, u: nat, v: Word)
    requires Wf(c, s) && CanWrite(c, s, h, p, u) && GoodAt(c, s, h) && Exists(c, g) && PlaceOk(c, s, g, h)
    requires (p, u) != (g.page, g.unit)
    ensures Solo(c, s, DoWrite(c, s, h, p, u, v), g, h)
  {
    SameStack(s.hosts[h], DoWrite(c, s, h, p, u, v).hosts[h], g);
  }

  lemma WriteElseView(c: Config, s: State, g: Guard, h: nat, p: nat, u: nat, v: Word)
    requires Wf(c, s) && CanWrite(c, s, h, p, u) && GoodAt(c, s, h) && Exists(c, g)
    requires (p, u) != (g.page, g.unit)
    ensures ViewKept(c, s, DoWrite(c, s, h, p, u, v), g, h)
  {
    SameStack(s.hosts[h], DoWrite(c, s, h, p, u, v).hosts[h], g);
  }

  lemma WriteElseScope(c: Config, s: State, g: Guard, h: nat, p: nat, u: nat, v: Word)
    requires Wf(c, s) && CanWrite(c, s, h, p, u) && GoodAt(c, s, h) && Exists(c, g) && ScopeInv(c, s, g)
    requires (p, u) != (g.page, g.unit)
    ensures ScopeInv(c, DoWrite(c, s, h, p, u, v), g)
  {
    assert PlaceOk(c, s, g, h);
    WriteElseSolo(c, s, g, h, p, u, v);
    WriteElseView(c, s, g, h, p, u, v);
    SoloScope(c, s, DoWrite(c, s, h, p, u, v), g, h);
  }

  lemma HomeWriteOther(c: Config, s: State, g: Guard, h: nat, v: Word, i: nat)
    requires Wf(c, s) && CanHomeWrite(c, s, h, g.page, g.unit) && GoodAt(c, s, h) && BarrierOk(c, s)
    requires Exists(c, g) && i < c.hosts && i != h
    requires ViewOk(c, s, g, i) && PlaceOk(c, s, g, i) && OnStack(s.hosts[h], g.lock) && !OnStack(s.hosts[i], g.lock)
    ensures ViewOk(c, DoHomeWrite(c, s, h, g.page, g.unit, v), g, i)
  {
    var s' := DoHomeWrite(c, s, h, g.page, g.unit, v);
    assert !HomeReported(c, s, g.page);
    if s.rdnt[g.page] {
      assert Owes(c, s', g, h);
      assert Owed(c, s', g, i);
    }
  }

  lemma HomeWriteHere(c: Config, s: State, g: Guard, h: nat, v: Word)
    requires Wf(c, s) && CanHomeWrite(c, s, h, g.page, g.unit) && HostsOk(c, s) && BarrierOk(c, s) && LocksOk(c, s)
    requires Exists(c, g) && ScopeInv(c, s, g)
    ensures ScopeInv(c, DoHomeWrite(c, s, h, g.page, g.unit, v), g)
  {
    var s' := DoHomeWrite(c, s, h, g.page, g.unit, v);
    assert GoodAt(c, s, h);
    forall i | 0 <= i < c.hosts ensures PlaceOk(c, s', g, i) { assert PlaceOk(c, s, g, i); }
    if Disciplined(c, s', g) {
      assert Disciplined(c, s, g) && OnStack(s.hosts[h], g.lock);
      forall i | 0 <= i < c.hosts ensures ViewOk(c, s', g, i) {
        assert ViewOk(c, s, g, i) && PlaceOk(c, s, g, i);
        if i != h {
          OneHolder(c, s, g.lock, h, i);
          HomeWriteOther(c, s, g, h, v, i);
        }
      }
    }
  }

  lemma HomeWriteElseSolo(c: Config, s: State, g: Guard, h: nat, p: nat, u: nat, v: Word)
    requires Wf(c, s) && CanHomeWrite(c, s, h, p, u) && GoodAt(c, s, h) && Exists(c, g) && PlaceOk(c, s, g, h)
    requires (p, u) != (g.page, g.unit)
    ensures Solo(c, s, DoHomeWrite(c, s, h, p, u, v), g, h)
  {
    assert s.hosts == s.hosts[h := s.hosts[h]];
  }

  lemma HomeWriteElseView(c: Config, s: State, g: Guard, h: nat, p: nat, u: nat, v: Word)
    requires Wf(c, s) && CanHomeWrite(c, s, h, p, u) && GoodAt(c, s, h) && Exists(c, g)
    requires (p, u) != (g.page, g.unit)
    ensures ViewKept(c, s, DoHomeWrite(c, s, h, p, u, v), g, h)
  {
    assert s.hosts == s.hosts[h := s.hosts[h]];
  }

  lemma HomeWriteElseScope(c: Config, s: State, g: Guard, h: nat, p: nat, u: nat, v: Word)
    requires Wf(c, s) && CanHomeWrite(c, s, h, p, u) && GoodAt(c, s, h) && Exists(c, g) && ScopeInv(c, s, g)
    requires (p, u) != (g.page, g.unit)
    ensures ScopeInv(c, DoHomeWrite(c, s, h, p, u, v), g)
  {
    assert PlaceOk(c, s, g, h);
    HomeWriteElseSolo(c, s, g, h, p, u, v);
    HomeWriteElseView(c, s, g, h, p, u, v);
    SoloScope(c, s, DoHomeWrite(c, s, h, p, u, v), g, h);
  }

  // ---------------------------------------------------------------- the home

  /** The home has the value, or whoever does not hold the lock is owed notice of the page. */
  lemma HomeValue(c: Config, s: State, g: Guard, i: nat)
    requires Wf(c, s) && HostsOk(c, s) && Exists(c, g) && Agree(c, s, g) && i < c.hosts && !OnStack(s.hosts[i], g.lock)
    ensures s.mem[g.page][g.unit] == Value(s, g) || Owed(c, s, g, i)
  {
    if a :| 0 <= a < c.hosts && OnStack(s.hosts[a], g.lock) {
      assert ViewOk(c, s, g, a) && GoodAt(c, s, a);
      if s.mem[g.page][g.unit] != Value(s, g) {
        HolderOwes(c, s, g, a);
        assert Owes(c, s, g, a);
      }
    }
  }

  lemma HolderOwes(c: Config, s: State, g: Guard, a: nat)
    requires Wf(c, s) && a < c.hosts && GoodAt(c, s, a) && Exists(c, g) && ViewOk(c, s, g, a)
    requires OnStack(s.hosts[a], g.lock) && s.mem[g.page][g.unit] != Value(s, g)
    ensures InSection(s.hosts[a], g)
  {
    var x := s.hosts[a];
    if g.page !in x.diffs {
      assert Unlisted(c, x, g.page);
      DirtyInSection(c, x, g);
    }
  }

  lemma ServeGetpSolo(c: Config, s: State, g: Guard, h: nat)
    requires Wf(c, s) && CanServeGetp(c, s, h) && Exists(c, g) && PlaceOk(c, s, g, h)
    ensures Solo(c, s, DoServeGetp(c, s, h), g, h)
  {
    SameStack(s.hosts[h], DoServeGetp(c, s, h).hosts[h], g);
  }

  lemma ServeGetpView(c: Config, s: State, g: Guard, h: nat)
    requires Wf(c, s) && CanServeGetp(c, s, h) && GoodAt(c, s, h) && Exists(c, g)
    requires !OnStack(s.hosts[h], g.lock) ==> s.mem[g.page][g.unit] == Value(s, g) || Owed(c, s, g, h)
    ensures ViewKept(c, s, DoServeGetp(c, s, h), g, h)
  {
    SameStack(s.hosts[h], DoServeGetp(c, s, h).hosts[h], g);
  }

  lemma ServeGetpScope(c: Config, s: State, g: Guard, h: nat)
    requires Wf(c, s) && CanServeGetp(c, s, h) && HostsOk(c, s) && Exists(c, g) && ScopeInv(c, s, g)
    ensures ScopeInv(c, DoServeGetp(c, s, h), g)
  {
    var s' := DoServeGetp(c, s, h);
    assert PlaceOk(c, s, g, h) && GoodAt(c, s, h);
    ServeGetpSolo(c, s, g, h);
    if Disciplined(c, s', g) {
      if !OnStack(s.hosts[h], g.lock) { HomeValue(c, s, g, h); }
      ServeGetpView(c, s, g, h);
    }
    SoloScope(c, s, s', g, h);
  }

  lemma ServeDiffSolo(c: Config, s: State, g: Guard, h: nat, p: nat)
    requires Wf(c, s) && CanServeDiff(c, s, h, p) && Exists(c, g) && PlaceOk(c, s, g, h)
    ensures Solo(c, s, DoServeDiff(c, s, h, p), g, h)
  {
    SameStack(s.hosts[h], DoServeDiff(c, s, h, p).hosts[h], g);
  }

  lemma ServeDiffView(c: Config, s: State, g: Guard, h: nat, p: nat)
    requires Wf(c, s) && CanServeDiff(c, s, h, p) && GoodAt(c, s, h) && LocksOk(c, s) && Exists(c, g)
    ensures ViewKept(c, s, DoServeDiff(c, s, h, p), g, h)
  {
    SameStack(s.hosts[h], DoServeDiff(c, s, h, p).hosts[h], g);
    if OnStack(s.hosts[h], g.lock) { HolderAlone(c, s, g.lock, h); }
  }

  lemma HolderAlone(c: Config, s: State, l: nat, h: nat)
    requires Wf(c, s) && LocksOk(c, s) && h < c.hosts && l < c.locks && OnStack(s.hosts[h], l)
    ensures OnlyHolder(s, l, h)
  {
    forall i | 0 <= i < |s.hosts| && i != h ensures !OnStack(s.hosts[i], l) { OneHolder(c, s, l, h, i); }
  }

  lemma ServeDiffScope(c: Config, s: State, g: Guard, h: nat, p: nat)
    requires Wf(c, s) && CanServeDiff(c, s, h, p) && GoodAt(c, s, h) && LocksOk(c, s) && Exists(c, g) && ScopeInv(c, s, g)
    ensures ScopeInv(c, DoServeDiff(c, s, h, p), g)
  {
    assert PlaceOk(c, s, g, h);
    ServeDiffSolo(c, s, g, h, p);
    ServeDiffView(c, s, g, h, p);
    SoloScope(c, s, DoServeDiff(c, s, h, p), g, h);
  }

  // ---------------------------------------------------------------- the end of an interval

  /** What EndPage does to the lock stack. */
  lemma EndStack(c: Config, s: State, g: Guard, h: nat, p: nat)
    requires Wf(c, s) && CanEndPage(c, s, h, p)
    ensures var x, y := s.hosts[h], DoEndPage(c, s, h, p).hosts[h];
      && OnStack(y, g.lock) == OnStack(x, g.lock) && (InSection(x, g) ==> InSection(y, g))
      && (!Remote(c, h, p) && MustReport(c, s, h, p) ==>
           p in y.stack[0].dirtied && (p == g.page && OnStack(x, g.lock) ==> InSection(y, g)))
  {
    var x, y := s.hosts[h], DoEndPage(c, s, h, p).hosts[h];
    if Remote(c, h, p) && x.lines[p].state == RW {
      ReportedStack(x, y, g, p);
    } else if MustReport(c, s, h, p) {
      ScannedStack(x, y, g, p);
    } else {
      assert y.stack == x.stack;
    }
  }

  // another page

  /** What EndPage for another page leaves as it was. */
  ghost predicate Elsewhere(c: Config, s: State, s': State, g: Guard, h: nat)
    requires Wf(c, s) && Wf(c, s') && Exists(c, g) && h < c.hosts
  {
    var x, y, p := s.hosts[h], s'.hosts[h], g.page;
    && s'.hosts == s.hosts[h := y] && s' == s.(hosts := s'.hosts, rdnt := s'.rdnt) && s'.rdnt[p] == s.rdnt[p]
    && y == x.(phase := y.phase, stack := y.stack, diffwait := y.diffwait, diffs := y.diffs)
    && x.phase.Ending? && y.phase.Ending? && y.phase.op == x.phase.op && (p in y.phase.todo <==> p in x.phase.todo)
    && (p in y.diffs <==> p in x.diffs) && (p in x.diffs ==> y.diffs[p] == x.diffs[p])
    && x.stack[0].dirtied <= y.stack[0].dirtied
    && OnStack(y, g.lock) == OnStack(x, g.lock) && (InSection(x, g) ==> InSection(y, g))
  }

  lemma EndElsewhere(c: Config, s: State, g: Guard, h: nat, p: nat)
    requires Wf(c, s) && CanEndPage(c, s, h, p) && Exists(c, g) && p != g.page
    ensures Wf(c, DoEndPage(c, s, h, p)) && Elsewhere(c, s, DoEndPage(c, s, h, p), g, h)
  {
    EndStack(c, s, g, h, p);
  }

  lemma ElsewhereSolo(c: Config, s: State, s': State, g: Guard, h: nat)
    requires Wf(c, s) && Wf(c, s') && Exists(c, g) && h < c.hosts && Elsewhere(c, s, s', g, h) && PlaceOk(c, s, g, h)
    ensures Solo(c, s, s', g, h)
  {
  }

  lemma ElsewhereView(c: Config, s: State, s': State, g: Guard, h: nat)
    requires Wf(c, s) && Wf(c, s') && Exists(c, g) && h < c.hosts && Elsewhere(c, s, s', g, h)
    ensures ViewKept(c, s, s', g, h)
  {
  }

  lemma EndElseScope(c: Config, s: State, g: Guard, h: nat, p: nat)
    requires Wf(c, s) && CanEndPage(c, s, h, p) && GoodAt(c, s, h) && Exists(c, g) && ScopeInv(c, s, g)
    requires p != g.page
    ensures ScopeInv(c, DoEndPage(c, s, h, p), g)
  {
    assert PlaceOk(c, s, g, h);
    EndElsewhere(c, s, g, h, p);
    ElsewhereSolo(c, s, DoEndPage(c, s, h, p), g, h);
    ElsewhereView(c, s, DoEndPage(c, s, h, p), g, h);
    SoloScope(c, s, DoEndPage(c, s, h, p), g, h);
  }

  // the page, cached

  lemma FlushSolo(c: Config, s: State, g: Guard, h: nat)
    requires Wf(c, s) && CanEndPage(c, s, h, g.page) && GoodAt(c, s, h) && Exists(c, g) && PlaceOk(c, s, g, h)
    requires Remote(c, h, g.page)
    ensures Solo(c, s, DoEndPage(c, s, h, g.page), g, h)
  {
    EndStack(c, s, g, h, g.page);
  }

  lemma FlushView(c: Config, s: State, g: Guard, h: nat)
    requires Wf(c, s) && CanEndPage(c, s, h, g.page) && GoodAt(c, s, h) && Exists(c, g) && Remote(c, h, g.page)
    ensures ViewKept(c, s, DoEndPage(c, s, h, g.page), g, h)
  {
    EndStack(c, s, g, h, g.page);
    if s.hosts[h].lines[g.page].state != RW {
      CleanView(c, s, g, h);
    } else {
      DirtyView(c, s, g, h);
    }
  }

  lemma CleanView(c: Config, s: State, g: Guard, h: nat)
    requires Wf(c, s) && CanEndPage(c, s, h, g.page) && GoodAt(c, s, h) && Exists(c, g) && Remote(c, h, g.page)
    requires s.hosts[h].lines[g.page].state != RW
    ensures ViewKept(c, s, DoEndPage(c, s, h, g.page), g, h)
  {
    EndStack(c, s, g, h, g.page);
  }

  lemma DirtyView(c: Config, s: State, g: Guard, h: nat)
    requires Wf(c, s) && CanEndPage(c, s, h, g.page) && GoodAt(c, s, h) && Exists(c, g) && Remote(c, h, g.page)
    requires s.hosts[h].lines[g.page].state == RW
    ensures ViewKept(c, s, DoEndPage(c, s, h, g.page), g, h)
  {
    EndStack(c, s, g, h, g.page);
    if OnStack(s.hosts[h], g.lock) { DirtyInSection(c, s.hosts[h], g); }
  }

  // the page, homed here

  lemma ScanSolo(c: Config, s: State, g: Guard, h: nat)
    requires Wf(c, s) && CanEndPage(c, s, h, g.page) && GoodAt(c, s, h) && Exists(c, g) && PlaceOk(c, s, g, h)
    requires !Remote(c, h, g.page)
    ensures Solo(c, s, DoEndPage(c, s, h, g.page), g, h)
  {
    EndStack(c, s, g, h, g.page);
  }

  lemma ScanView(c: Config, s: State, g: Guard, h: nat)
    requires Wf(c, s) && CanEndPage(c, s, h, g.page) && GoodAt(c, s, h) && Exists(c, g) && !Remote(c, h, g.page)
    ensures ViewKept(c, s, DoEndPage(c, s, h, g.page), g, h)
  {
    EndStack(c, s, g, h, g.page);
  }

  lemma EndPageScope(c: Config, s: State, g: Guard, h: nat, p: nat)
    requires Wf(c, s) && CanEndPage(c, s, h, p) && GoodAt(c, s, h) && Exists(c, g) && ScopeInv(c, s, g)
    ensures ScopeInv(c, DoEndPage(c, s, h, p), g)
  {
    assert PlaceOk(c, s, g, h);
    if p != g.page {
      EndElseScope(c, s, g, h, p);
    } else if Remote(c, h, p) {
      FlushSolo(c, s, g, h);
      FlushView(c, s, g, h);
      SoloScope(c, s, DoEndPage(c, s, h, p), g, h);
    } else {
      ScanSolo(c, s, g, h);
      ScanView(c, s, g, h);
      SoloScope(c, s, DoEndPage(c, s, h, p), g, h);
    }
  }
}
