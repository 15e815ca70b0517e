/** The account of a guarded unit at acquires, releases and barriers. */
module ProtocolScopeSync {
  import opened Pages
  import opened Protocol
  import opened ProtocolInv
  import opened ProtocolHosts
  import opened ProtocolLocks
  import opened ProtocolBarrier
  import opened ProtocolReleases
  import opened ProtocolScope
  import opened ProtocolScopeSteps
  import opened ProtocolTheorems

  // ---------------------------------------------------------------- asking for a lock

  lemma SendAcqSolo(c: Config, s: State, g: Guard, h: nat)
    requires Wf(c, s) && CanSendAcq(c, s, h) && GoodAt(c, s, h) && Exists(c, g) && PlaceOk(c, s, g, h)
    ensures Solo(c, s, DoSendAcq(c, s, h), g, h)
  {
    SameStack(s.hosts[h], DoSendAcq(c, s, h).hosts[h], g);
  }

  lemma SendAcqView(c: Config, s: State, g: Guard, h: nat)
    requires Wf(c, s) && CanSendAcq(c, s, h) && GoodAt(c, s, h) && Exists(c, g)
    ensures ViewKept(c, s, DoSendAcq(c, s, h), g, h)
  {
    SameStack(s.hosts[h], DoSendAcq(c, s, h).hosts[h], g);
  }

  lemma SendAcqScope(c: Config, s: State, g: Guard, h: nat)
    requires Wf(c, s) && CanSendAcq(c, s, h) && GoodAt(c, s, h) && Exists(c, g) && ScopeInv(c, s, g)
    ensures ScopeInv(c, DoSendAcq(c, s, h), g)
  {
    assert PlaceOk(c, s, g, h);
    SendAcqSolo(c, s, g, h);
    SendAcqView(c, s, g, h);
    SoloScope(c, s, DoSendAcq(c, s, h), g, h);
  }

  lemma ServeAcqGentle(c: Config, s: State, g: Guard, h: nat, l: nat)
    requires Wf(c, s) && CanServeAcq(c, s, h, l) && HostsOk(c, s) && LocksOk(c, s) && Exists(c, g) && PlaceOk(c, s, g, h)
    ensures Gentle(c, s, DoServeAcq(c, s, h, l), g, h)
  {
    var s' := DoServeAcq(c, s, h, l);
    SameStack(s.hosts[h], s'.hosts[h], g);
    ServeAcqStatus(c, s, h, l);
    forall i | 0 <= i < c.hosts && i != h ensures SameView(s.hosts[i], s'.hosts[i]) { assert s'.hosts[i] == s.hosts[i]; }
  }

  lemma ServeAcqView(c: Config, s: State, g: Guard, h: nat, l: nat)
    requires Wf(c, s) && CanServeAcq(c, s, h, l) && Exists(c, g)
    ensures ViewKept(c, s, DoServeAcq(c, s, h, l), g, h)
  {
    SameStack(s.hosts[h], DoServeAcq(c, s, h, l).hosts[h], g);
  }

  lemma ServeAcqScope(c: Config, s: State, g: Guard, h: nat, l: nat)
    requires Wf(c, s) && CanServeAcq(c, s, h, l) && HostsOk(c, s) && LocksOk(c, s) && Exists(c, g) && ScopeInv(c, s, g)
    ensures ScopeInv(c, DoServeAcq(c, s, h, l), g)
  {
    assert PlaceOk(c, s, g, h);
    ServeAcqGentle(c, s, g, h, l);
    ServeAcqView(c, s, g, h, l);
    GentleScope(c, s, DoServeAcq(c, s, h, l), g, h);
  }

  // ---------------------------------------------------------------- the grant of another lock

  lemma TakeElseSolo(c: Config, s: State, g: Guard, h: nat)
    requires Wf(c, s) && CanTakeLockGrant(c, s, h) && GoodAt(c, s, h) && Exists(c, g) && PlaceOk(c, s, g, h)
    requires s.hosts[h].lockGrant.value.lock != g.lock
    ensures Solo(c, s, DoTakeLockGrant(c, s, h), g, h)
  {
    SameStack(s.hosts[h], DoTakeLockGrant(c, s, h).hosts[h], g);
  }

  lemma TakeElseView(c: Config, s: State, g: Guard, h: nat)
    requires Wf(c, s) && CanTakeLockGrant(c, s, h) && GoodAt(c, s, h) && Exists(c, g)
    requires s.hosts[h].lockGrant.value.lock != g.lock
    ensures ViewKept(c, s, DoTakeLockGrant(c, s, h), g, h)
  {
    SameStack(s.hosts[h], DoTakeLockGrant(c, s, h).hosts[h], g);
  }

  // ---------------------------------------------------------------- the grant of this lock

  /** While one host owns the lock or has it released, no other host owes anything. */
  lemma OwnerAlone(c: Config, s: State, g: Guard, h: nat, j: nat)
    requires Wf(c, s) && LocksOk(c, s) && Exists(c, g) && h < c.hosts && j < c.hosts && j != h && Owns(s.hosts[h], g.lock)
    ensures !Owes(c, s, g, j) && !OnStack(s.hosts[j], g.lock)
  {
    assert StatusOk(s.hosts[h], s.locks[g.lock], h, g.lock) && StatusOk(s.hosts[j], s.locks[g.lock], j, g.lock);
    assert InSection(s.hosts[j], g) ==> OnStack(s.hosts[j], g.lock);
  }

  /** Of what a host with a grant is owed, the grant tells it. */
  lemma GrantPays(c: Config, s: State, g: Guard, h: nat)
    requires Wf(c, s) && Core(c, s) && ReleasesOk(c, s) && CanTakeLockGrant(c, s, h) && Exists(c, g) && Kept(s, g)
    requires s.hosts[h].lockGrant.value.lock == g.lock && Owed(c, s, g, h) && Remote(c, h, g.page)
    ensures !DoTakeLockGrant(c, s, h).hosts[h].lines[g.page].Valid()
  {
    if j :| 0 <= j < c.hosts && j != h && Owes(c, s, g, j) {
      OwnerAlone(c, s, g, h, j);
    } else {
      var x := s.hosts[h];
      var r :| r in s.locks[g.lock].hist && r.epoch == s.barrScope && r.scope > x.myscope[g.lock] && g.page in r.pages;
      assert CountsOk(s, h);
      UnseenRelease(c, s, h, g.lock, r);
    }
  }

  lemma TakeOwnView(c: Config, s: State, g: Guard, h: nat)
    requires Wf(c, s) && Core(c, s) && ReleasesOk(c, s) && CanTakeLockGrant(c, s, h) && Exists(c, g) && Kept(s, g)
    requires s.hosts[h].lockGrant.value.lock == g.lock && ViewOk(c, s, g, h)
    ensures ViewOk(c, DoTakeLockGrant(c, s, h), g, h)
  {
    SameStack(s.hosts[h], DoTakeLockGrant(c, s, h).hosts[h], g);
    assert GoodAt(c, s, h);
    if Owed(c, s, g, h) && Remote(c, h, g.page) { GrantPays(c, s, g, h); }
  }

  lemma TakeOwnSmooth(c: Config, s: State, g: Guard, h: nat)
    requires Wf(c, s) && Core(c, s) && CanTakeLockGrant(c, s, h) && Exists(c, g) && PlaceOk(c, s, g, h)
    requires s.hosts[h].lockGrant.value.lock == g.lock
    ensures var s' := DoTakeLockGrant(c, s, h);
      && Smooth(c, s, s', g, h) && HomeKept(c, s, s', g, h) && PlaceOk(c, s', g, h)
      && (Shared(c, s, g.page) ==> Shared(c, s', g.page)) && (SomeHolds(s', g.lock) <==> SomeHolds(s, g.lock))
  {
    var s' := DoTakeLockGrant(c, s, h);
    assert GoodAt(c, s, h);
    SameStack(s.hosts[h], s'.hosts[h], g);
    forall i | 0 <= i < c.hosts && i != h ensures SameView(s.hosts[i], s'.hosts[i]) { assert s'.hosts[i] == s.hosts[i]; }
    SameHolders(s, s', g.lock, h);
  }

  lemma TakeLockGrantScope(c: Config, s: State, g: Guard, h: nat)
    requires Wf(c, s) && Core(c, s) && ReleasesOk(c, s) && CanTakeLockGrant(c, s, h) && Exists(c, g) && ScopeInv(c, s, g)
    ensures ScopeInv(c, DoTakeLockGrant(c, s, h), g)
  {
    var s' := DoTakeLockGrant(c, s, h);
    assert PlaceOk(c, s, g, h) && GoodAt(c, s, h);
    if s.hosts[h].lockGrant.value.lock != g.lock {
      TakeElseSolo(c, s, g, h);
      TakeElseView(c, s, g, h);
      SoloScope(c, s, s', g, h);
    } else {
      TakeOwnSmooth(c, s, g, h);
      SmoothPlaces(c, s, s', g, h);
      if Disciplined(c, s', g) {
        assert ViewOk(c, s, g, h);
        TakeOwnView(c, s, g, h);
        SmoothAgree(c, s, s', g, h);
      }
    }
  }

  // ---------------------------------------------------------------- leaving a section

  lemma PoppedStack(x: HostState, y: HostState, g: Guard)
    requires |x.stack| >= 2 && y.stack == Popped(x.stack) && Top(x).lock != g.lock
    ensures OnStack(y, g.lock) == OnStack(x, g.lock) && InSection(y, g) == InSection(x, g)
  {
    var t := |x.stack| - 1;
    assert forall k :: 0 <= k < t ==> y.stack[k].lock == x.stack[k].lock && y.stack[k].dirtied == x.stack[k].dirtied;
    if OnStack(x, g.lock) {
      var k :| 1 <= k < |x.stack| && x.stack[k].lock == g.lock;
      assert y.stack[k].lock == g.lock;
    }
    if InSection(x, g) {
      var k :| 1 <= k < |x.stack| && x.stack[k].lock == g.lock && g.page in x.stack[k].dirtied;
      assert y.stack[k].lock == g.lock;
    }
  }

  lemma ReleaseElseSolo(c: Config, s: State, g: Guard, h: nat, parts: seq<set<nat>>)
    requires Wf(c, s) && CanRelease(c, s, h) && GoodAt(c, s, h) && Exists(c, g) && PlaceOk(c, s, g, h)
    requires Top(s.hosts[h]).lock != g.lock
    ensures Solo(c, s, DoSendRel(c, s, h, parts), g, h)
  {
    PoppedStack(s.hosts[h], DoSendRel(c, s, h, parts).hosts[h], g);
  }

  lemma ReleaseElseView(c: Config, s: State, g: Guard, h: nat, parts: seq<set<nat>>)
    requires Wf(c, s) && CanRelease(c, s, h) && GoodAt(c, s, h) && Exists(c, g)
    requires Top(s.hosts[h]).lock != g.lock
    ensures ViewKept(c, s, DoSendRel(c, s, h, parts), g, h)
  {
    PoppedStack(s.hosts[h], DoSendRel(c, s, h, parts).hosts[h], g);
    ReadyMeansQuiet(c, s, h);
  }

  lemma LeftLevel(c: Config, x: HostState, y: HostState, g: Guard)
    requires WfHost(c, x) && StackOk(c, x) && |x.stack| >= 2 && y.stack == Popped(x.stack) && Top(x).lock == g.lock
    ensures OnStack(x, g.lock) && !OnStack(y, g.lock) && (InSection(x, g) ==> g.page in Top(x).dirtied)
  {
    var t := |x.stack| - 1;
    assert x.stack[t].lock == g.lock;
    assert forall k :: 0 <= k < t ==> y.stack[k].lock == x.stack[k].lock;
  }

  lemma NamedPart(parts: seq<set<nat>>, p: nat)
    requires p in Union(parts)
    ensures Named(parts, p)
  {
  }

  /** The section ends: what was dirtied in it is in the release. */
  lemma LeftStack(c: Config, s: State, g: Guard, h: nat, parts: seq<set<nat>>)
    requires Wf(c, s) && CanSendRel(c, s, h, parts) && GoodAt(c, s, h) && BarrierOk(c, s) && LocksOk(c, s) && Exists(c, g)
    requires Top(s.hosts[h]).lock == g.lock
    ensures var x, y := s.hosts[h], DoSendRel(c, s, h, parts).hosts[h];
      && OnStack(x, g.lock) && !OnStack(y, g.lock) && Releasing(y, g.lock) && !Releasing(x, g.lock)
      && (InSection(x, g) ==> Leaving(y, g, s.barrScope))
  {
    var x, y := s.hosts[h], DoSendRel(c, s, h, parts).hosts[h];
    LeftLevel(c, x, y, g);
    ReadyTop(c, s, h);
    if InSection(x, g) { NamedPart(parts, g.page); }
    SentAlone(c, s, g, h, parts);
  }

  lemma SentAlone(c: Config, s: State, g: Guard, h: nat, parts: seq<set<nat>>)
    requires Wf(c, s) && CanRelease(c, s, h) && GoodAt(c, s, h) && BarrierOk(c, s) && LocksOk(c, s) && Exists(c, g)
    requires Top(s.hosts[h]).lock == g.lock && OnStack(s.hosts[h], g.lock)
    ensures !Releasing(s.hosts[h], g.lock)
    ensures DoSendRel(c, s, h, parts).hosts[h].chan[g.lock] == [RelMsg(parts, s.barrScope, s.hosts[h].itv)]
  {
    assert StatusOk(s.hosts[h], s.locks[g.lock], h, g.lock) && CountsOk(s, h);
  }

  lemma LeaveSmooth(c: Config, s: State, g: Guard, h: nat, parts: seq<set<nat>>)
    requires Wf(c, s) && CanSendRel(c, s, h, parts) && GoodAt(c, s, h) && BarrierOk(c, s) && LocksOk(c, s) && Exists(c, g)
    requires Top(s.hosts[h]).lock == g.lock && PlaceOk(c, s, g, h)
    ensures var s' := DoSendRel(c, s, h, parts);
      && Smooth(c, s, s', g, h) && HomeKept(c, s, s', g, h) && PlaceOk(c, s', g, h)
      && (Shared(c, s, g.page) ==> Shared(c, s', g.page))
  {
    var s' := DoSendRel(c, s, h, parts);
    LeftStack(c, s, g, h, parts);
    forall i | 0 <= i < c.hosts && i != h ensures SameView(s.hosts[i], s'.hosts[i]) { assert s'.hosts[i] == s.hosts[i]; }
  }

  /** Its copy is up to date, and so is the home. */
  lemma LeaveView(c: Config, s: State, g: Guard, h: nat, parts: seq<set<nat>>)
    requires Wf(c, s) && CanSendRel(c, s, h, parts) && GoodAt(c, s, h) && BarrierOk(c, s) && LocksOk(c, s) && Exists(c, g)
    requires Top(s.hosts[h]).lock == g.lock && ViewOk(c, s, g, h)
    ensures ViewOk(c, DoSendRel(c, s, h, parts), g, h)
    ensures DoSendRel(c, s, h, parts).mem[g.page][g.unit] == Value(s, g)
  {
    LeftStack(c, s, g, h, parts);
    ReadyMeansQuiet(c, s, h);
  }

  lemma SendRelScope(c: Config, s: State, g: Guard, h: nat, parts: seq<set<nat>>)
    requires Wf(c, s) && CanSendRel(c, s, h, parts) && GoodAt(c, s, h) && BarrierOk(c, s) && LocksOk(c, s)
    requires Exists(c, g) && ScopeInv(c, s, g)
    ensures ScopeInv(c, DoSendRel(c, s, h, parts), g)
  {
    var s' := DoSendRel(c, s, h, parts);
    assert PlaceOk(c, s, g, h);
    if Top(s.hosts[h]).lock != g.lock {
      ReleaseElseSolo(c, s, g, h, parts);
      ReleaseElseView(c, s, g, h, parts);
      SoloScope(c, s, s', g, h);
    } else {
      LeaveSmooth(c, s, g, h, parts);
      SmoothPlaces(c, s, s', g, h);
      if Disciplined(c, s', g) {
        assert ViewOk(c, s, g, h);
        LeaveView(c, s, g, h, parts);
        SmoothAgree(c, s, s', g, h);
      }
    }
  }

  // ---------------------------------------------------------------- the manager handles a release

  /** A part of the release that names the page: nobody else has seen its scope. */
  lemma PartUnseen(c: Config, s: State, s': State, g: Guard, h: nat)
    requires Wf(c, s) && Wf(c, s') && LocksOk(c, s) && Exists(c, g) && ScopeInv(c, s, g)
    requires CanServePart(c, s, h, g.lock) && |s.hosts[h].chan[g.lock][0].parts| > 0
    requires s.hosts[h].chan[g.lock][0].epoch == s.barrScope && g.page in s.hosts[h].chan[g.lock][0].parts[0]
    requires s'.locks[g.lock].hist == s.locks[g.lock].hist + [NextPart(c, s, h, g.lock)] && s'.barrScope == s.barrScope
    requires forall i :: 0 <= i < c.hosts ==> s'.hosts[i].myscope == s.hosts[i].myscope
    ensures AllUnseen(c, s', g, h)
  {
    var r := NextPart(c, s, h, g.lock);
    assert r in s'.locks[g.lock].hist;
    forall i | 0 <= i < c.hosts && i != h
      ensures Unseen(s'.locks[g.lock].hist, s'.barrScope, s'.hosts[i].myscope[g.lock], g.page)
    {
      assert PlaceOk(c, s, g, i);
      NoOwner(c, s, h, g.lock, i);
      assert StatusOk(s.hosts[h], s.locks[g.lock], h, g.lock) && StatusOk(s.hosts[i], s.locks[g.lock], i, g.lock);
    }
  }

  lemma ServeWtntOwes(c: Config, s: State, g: Guard, h: nat, l: nat)
    requires Wf(c, s) && CanServeWtnt(c, s, h, l) && LocksOk(c, s) && Exists(c, g) && ScopeInv(c, s, g)
    requires Wf(c, DoServeWtnt(c, s, h, l)) && Owes(c, s, g, h)
    ensures Owes(c, DoServeWtnt(c, s, h, l), g, h) || AllUnseen(c, DoServeWtnt(c, s, h, l), g, h)
  {
    var s' := DoServeWtnt(c, s, h, l);
    var x, y := s.hosts[h], s'.hosts[h];
    SameStack(x, y, g);
    if l == g.lock && Leaving(x, g, s.barrScope) {
      var k :| 0 <= k < |x.chan[l][0].parts| && g.page in x.chan[l][0].parts[k];
      if k == 0 {
        PartUnseen(c, s, s', g, h);
      } else {
        assert g.page in y.chan[l][0].parts[k - 1];
      }
    }
  }

  lemma ServeWtntGentle(c: Config, s: State, g: Guard, h: nat, l: nat)
    requires Wf(c, s) && CanServeWtnt(c, s, h, l) && LocksOk(c, s) && Exists(c, g) && ScopeInv(c, s, g)
    requires Wf(c, DoServeWtnt(c, s, h, l))
    ensures Gentle(c, s, DoServeWtnt(c, s, h, l), g, h)
  {
    var s' := DoServeWtnt(c, s, h, l);
    SameStack(s.hosts[h], s'.hosts[h], g);
    assert PlaceOk(c, s, g, h);
    if Owes(c, s, g, h) { ServeWtntOwes(c, s, g, h, l); }
    forall i | 0 <= i < c.hosts && i != h ensures SameView(s.hosts[i], s'.hosts[i]) { assert s'.hosts[i] == s.hosts[i]; }
  }

  lemma ServeWtntView(c: Config, s: State, g: Guard, h: nat, l: nat)
    requires Wf(c, s) && CanServeWtnt(c, s, h, l) && Exists(c, g) && Wf(c, DoServeWtnt(c, s, h, l))
    ensures ViewKept(c, s, DoServeWtnt(c, s, h, l), g, h)
  {
    SameStack(s.hosts[h], DoServeWtnt(c, s, h, l).hosts[h], g);
  }

  lemma ServeWtntScope(c: Config, s: State, g: Guard, h: nat, l: nat)
    requires Wf(c, s) && CanServeWtnt(c, s, h, l) && LocksOk(c, s) && Exists(c, g) && ScopeInv(c, s, g)
    requires Wf(c, DoServeWtnt(c, s, h, l))
    ensures ScopeInv(c, DoServeWtnt(c, s, h, l), g)
  {
    ServeWtntGentle(c, s, g, h, l);
    ServeWtntView(c, s, g, h, l);
    GentleScope(c, s, DoServeWtnt(c, s, h, l), g, h);
  }

  lemma ServeRelOwes(c: Config, s: State, g: Guard, h: nat, l: nat)
    requires Wf(c, s) && CanServeRel(c, s, h, l) && LocksOk(c, s) && Exists(c, g) && ScopeInv(c, s, g)
    requires Wf(c, DoServeRel(c, s, h, l)) && Owes(c, s, g, h)
    ensures Owes(c, DoServeRel(c, s, h, l), g, h) || AllUnseen(c, DoServeRel(c, s, h, l), g, h)
  {
    var s' := DoServeRel(c, s, h, l);
    assert s'.hosts[h] == ServeRelHost(c, s, h, l, h);
    SameStack(s.hosts[h], s'.hosts[h], g);
    if l == g.lock && Leaving(s.hosts[h], g, s.barrScope) {
      assert forall i :: 0 <= i < c.hosts ==> s'.hosts[i] == ServeRelHost(c, s, h, l, i);
      PartUnseen(c, s, s', g, h);
    }
  }

  lemma ServeRelGentle(c: Config, s: State, g: Guard, h: nat, l: nat)
    requires Wf(c, s) && CanServeRel(c, s, h, l) && LocksOk(c, s) && Exists(c, g) && ScopeInv(c, s, g)
    requires Wf(c, DoServeRel(c, s, h, l)) && ScopeOk(c, s, h, g.lock)
    ensures Gentle(c, s, DoServeRel(c, s, h, l), g, h)
  {
    var s' := DoServeRel(c, s, h, l);
    assert s'.hosts[h] == ServeRelHost(c, s, h, l, h);
    SameStack(s.hosts[h], s'.hosts[h], g);
    assert PlaceOk(c, s, g, h);
    if Owes(c, s, g, h) { ServeRelOwes(c, s, g, h, l); }
    forall i | 0 <= i < c.hosts && i != h ensures SameView(s.hosts[i], s'.hosts[i]) {
      assert s'.hosts[i] == ServeRelHost(c, s, h, l, i);
    }
  }

  lemma ServeRelView(c: Config, s: State, g: Guard, h: nat, l: nat)
    requires Wf(c, s) && CanServeRel(c, s, h, l) && Exists(c, g) && Wf(c, DoServeRel(c, s, h, l))
    ensures ViewKept(c, s, DoServeRel(c, s, h, l), g, h)
  {
    assert DoServeRel(c, s, h, l).hosts[h] == ServeRelHost(c, s, h, l, h);
    SameStack(s.hosts[h], DoServeRel(c, s, h, l).hosts[h], g);
  }

  lemma ServeRelScope(c: Config, s: State, g: Guard, h: nat, l: nat)
    requires Wf(c, s) && CanServeRel(c, s, h, l) && LocksOk(c, s) && Exists(c, g) && ScopeInv(c, s, g)
    requires Wf(c, DoServeRel(c, s, h, l)) && ScopeOk(c, s, h, g.lock)
    ensures ScopeInv(c, DoServeRel(c, s, h, l), g)
  {
    ServeRelGentle(c, s, g, h, l);
    ServeRelView(c, s, g, h, l);
    GentleScope(c, s, DoServeRel(c, s, h, l), g, h);
  }
}
