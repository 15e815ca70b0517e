/** When a lock manager loses notices.  A release of more pages than one message holds arrives as WTNT
    messages and a REL.  Only the REL is looked at for a sender that is past a barrier whose grant the
    manager has not handled; if the manager handles that grant after a WTNT and before the REL, it drops
    what the WTNT told it, although the release belongs to the epoch that begins. */
module ProtocolLosses {
  import opened Protocol
  import opened ProtocolInv
  import opened ProtocolLocks
  import opened ProtocolReleases
  import opened ProtocolReports
  import opened ProtocolSteps
  import opened ProtocolRuns

  predicate HasLock(w: World, l: nat) {
    w.config.hosts > 0 && l < w.config.locks == |w.state.locks| && |w.state.hosts| == w.config.hosts
  }

  function Epoch(w: World, l: nat): nat
    requires HasLock(w, l)
  {
    w.state.hosts[Manager(w.config, l)].epoch
  }

  /** The manager has recorded r, which is of an epoch it has not reached. */
  predicate Early(w: World, l: nat, r: Release)
    requires HasLock(w, l)
  {
    r in w.state.locks[l].log && r.epoch > Epoch(w, l)
  }

  /** A release is torn while the manager has recorded a part of it that is early and has no reason yet to
      keep its notices. */
  predicate Torn(w: World, l: nat)
    requires HasLock(w, l)
  {
    !w.state.hosts[Manager(w.config, l)].noclear && exists r :: r in w.state.locks[l].log && Early(w, l, r)
  }

  /** The step from v to w in which the manager of lock l handles a barrier grant and clears its notices. */
  predicate Clears(v: World, w: World, l: nat)
    requires HasLock(v, l) && HasLock(w, l)
  {
    Epoch(w, l) > Epoch(v, l) && !v.state.hosts[Manager(v.config, l)].noclear
  }

  // ---------------------------------------------------------------- what is torn

  /** A release is torn between its first WTNT and its REL: its sender is releasing the lock, is past a
      barrier that the manager is not past, and the REL is still to come. */
  lemma TornIsUnderWay(c: Config, s: State, l: nat, r: Release)
    requires Reachable(c, s) && Wf(c, s) && l < c.locks && Torn(World(c, s), l) && Early(World(c, s), l, r)
    ensures Heads(s.locks[l].acqs, r.from) && r.from < c.hosts && UnderWay(s.hosts[r.from], l, r)
    ensures CanServeWtnt(c, s, r.from, l) || CanServeRel(c, s, r.from, l)
    ensures s.hosts[r.from].epoch == s.hosts[Manager(c, l)].epoch + 1
  {
    ReachableInv(c, s);
    TornParts(c, s, l, r);
  }

  lemma TornParts(c: Config, s: State, l: nat, r: Release)
    requires Wf(c, s) && BarrierOk(c, s) && LocksOk(c, s) && ReleasesOk(c, s) && l < c.locks
    requires Torn(World(c, s), l) && Early(World(c, s), l, r)
    ensures Heads(s.locks[l].acqs, r.from) && r.from < c.hosts && UnderWay(s.hosts[r.from], l, r)
    ensures CanServeWtnt(c, s, r.from, l) || CanServeRel(c, s, r.from, l)
    ensures s.hosts[r.from].epoch == s.hosts[Manager(c, l)].epoch + 1
  {
    assert LogOk(c, s, l);
    LosesUnderWay(c, s, l, r);
    assert StatusOk(s.hosts[r.from], s.locks[l], r.from, l) && ScopeOk(c, s, r.from, l);
    assert ReleaseOk(c, s, l, r) && CountsOk(s, r.from) && CountsOk(s, Manager(c, l));
  }

  // ---------------------------------------------------------------- one step

  /** Only the handling of a barrier grant by the manager loses anything, and then what is early. */
  ghost predicate LosesAt(v: World, w: World, l: nat)
    requires HasLock(v, l) && HasLock(w, l)
  {
    w.state.locks[l].lost == v.state.locks[l].lost +
      if Clears(v, w, l) then set r | r in v.state.locks[l].log && Early(v, l, r) else {}
  }

  lemma TakeBarrGrantLoses(c: Config, s: State, h: nat, l: nat)
    requires Wf(c, s) && CanTakeBarrGrant(c, s, h) && l < c.locks
    ensures HasLock(World(c, DoTakeBarrGrant(c, s, h)), l)
    ensures LosesAt(World(c, s), World(c, DoTakeBarrGrant(c, s, h)), l)
  {
  }

  /** The steps of pages leave the locks, the barriers and the lock messages alone. */
  lemma PageStepFrame(c: Config, s: State, step: Step, i: nat)
    requires Wf(c, s) && Enabled(c, s, step) && i < c.hosts && OfPages(step)
    ensures |Apply(c, s, step).hosts| == c.hosts && Apply(c, s, step).locks == s.locks
    ensures Apply(c, s, step).hosts[i].epoch == s.hosts[i].epoch && Apply(c, s, step).hosts[i].chan == s.hosts[i].chan
  {
  }

  lemma SyncStepEpoch(c: Config, s: State, step: Step, i: nat)
    requires Wf(c, s) && Enabled(c, s, step) && i < c.hosts && !OfPages(step) && !step.TakeBarrGrant?
    ensures |Apply(c, s, step).hosts| == c.hosts && Apply(c, s, step).hosts[i].epoch == s.hosts[i].epoch
  {
  }

  lemma SyncStepLost(c: Config, s: State, step: Step, l: nat)
    requires Wf(c, s) && Enabled(c, s, step) && l < c.locks && !OfPages(step) && !step.TakeBarrGrant?
    ensures |Apply(c, s, step).locks| == c.locks && Apply(c, s, step).locks[l].lost == s.locks[l].lost
  {
  }

  /** No other step takes a host past a barrier, and none touches what is lost. */
  lemma OtherStepLoses(c: Config, s: State, step: Step, l: nat)
    requires Wf(c, s) && Enabled(c, s, step) && !step.TakeBarrGrant? && l < c.locks
    ensures HasLock(World(c, Apply(c, s, step)), l)
    ensures Apply(c, s, step).locks[l].lost == s.locks[l].lost
    ensures Epoch(World(c, Apply(c, s, step)), l) == Epoch(World(c, s), l)
  {
    if OfPages(step) {
      PageStepFrame(c, s, step, Manager(c, l));
    } else {
      SyncStepEpoch(c, s, step, Manager(c, l));
      SyncStepLost(c, s, step, l);
    }
  }

  lemma MigrationLoses(c: Config, s: State, k: Slots, l: nat)
    requires Wf(c, s) && CanMigrate(c, s) && l < c.locks
    ensures HasLock(Migrated(c, s, k), l) && LosesAt(World(c, s), Migrated(c, s, k), l)
  {
    assert Migrated(c, s, k).state.hosts[Manager(c, l)] == MigratedHost(c, s, k, Manager(c, l));
  }

  lemma NextLoses(v: World, w: World, l: nat)
    requires Next(v, w) && l < v.config.locks
    ensures HasLock(v, l) && HasLock(w, l) && LosesAt(v, w, l)
  {
    if step :| Enabled(v.config, v.state, step) && w == World(v.config, Apply(v.config, v.state, step)) {
      if step.TakeBarrGrant? {
        TakeBarrGrantLoses(v.config, v.state, step.h, l);
      } else {
        OtherStepLoses(v.config, v.state, step, l);
      }
    } else {
      var k :| w == Migrated(v.config, v.state, k);
      MigrationLoses(v.config, v.state, k, l);
    }
  }

  // ---------------------------------------------------------------- whole runs

  /** At step i of the run the manager cleared its notices while it held r, which was early. */
  predicate LostAt(run: seq<World>, i: nat, l: nat, r: Release) {
    && i + 1 < |run| && HasLock(run[i], l) && HasLock(run[i + 1], l)
    && Clears(run[i], run[i + 1], l) && Early(run[i], l, r)
  }

  lemma {:induction false} RunHasLock(run: seq<World>, l: nat)
    requires IsRun(run) && l < run[0].config.locks
    ensures HasLock(run[|run| - 1], l)
    decreases |run|
  {
    if |run| > 1 {
      ShorterRun(run);
      RunHasLock(run[..|run| - 1], l);
      NextLoses(run[|run| - 2], run[|run| - 1], l);
    }
  }

  /** Exactly what a run loses. */
  lemma {:induction false} LostIff(run: seq<World>, l: nat, r: Release)
    requires IsRun(run) && l < run[0].config.locks
    ensures HasLock(run[|run| - 1], l)
    ensures r in run[|run| - 1].state.locks[l].lost <==> exists i: nat :: LostAt(run, i, l, r)
    decreases |run|
  {
    RunHasLock(run, l);
    if |run| > 1 {
      var n := |run| - 1;
      ShorterRun(run);
      LostIff(run[..n], l, r);
      NextLoses(run[n - 1], run[n], l);
      LostBefore(run, run[..n], l, r);
      LostLast(run[n - 1], run[n], l, r);
      if LostAt(run, n - 1, l, r) {
        assert r in run[n].state.locks[l].lost;
      }
    }
  }

  lemma LostLast(v: World, w: World, l: nat, r: Release)
    requires HasLock(v, l) && HasLock(w, l) && LosesAt(v, w, l)
    ensures r in w.state.locks[l].lost <==> r in v.state.locks[l].lost || (Clears(v, w, l) && Early(v, l, r))
  {
  }

  lemma LostBefore(run: seq<World>, front: seq<World>, l: nat, r: Release)
    requires |run| > 1 && front == run[..|run| - 1]
    ensures (exists i: nat :: LostAt(run, i, l, r)) <==>
      (exists i: nat :: LostAt(front, i, l, r)) || LostAt(run, |run| - 2, l, r)
  {
    assert forall i :: 0 <= i < |front| ==> front[i] == run[i];
    assert forall i: nat :: LostAt(front, i, l, r) <==> LostAt(run, i, l, r) && i < |run| - 2;
  }

  predicate ClearsTorn(run: seq<World>, i: nat, l: nat) {
    && i + 1 < |run| && HasLock(run[i], l) && HasLock(run[i + 1], l)
    && Clears(run[i], run[i + 1], l) && Torn(run[i], l)
  }

  /** A run in which no manager handles a barrier grant while a release is torn loses nothing. */
  lemma NothingLost(run: seq<World>, l: nat)
    requires IsRun(run) && l < run[0].config.locks
    requires forall i: nat :: !ClearsTorn(run, i, l)
    ensures HasLock(run[|run| - 1], l) && run[|run| - 1].state.locks[l].lost == {}
  {
    RunHasLock(run, l);
    var lost := run[|run| - 1].state.locks[l].lost;
    if lost != {} {
      var r :| r in lost;
      NotLost(run, l, r);
    }
  }

  lemma NotLost(run: seq<World>, l: nat, r: Release)
    requires IsRun(run) && l < run[0].config.locks
    requires forall i: nat :: !ClearsTorn(run, i, l)
    ensures HasLock(run[|run| - 1], l) && r !in run[|run| - 1].state.locks[l].lost
  {
    LostIff(run, l, r);
    forall i: nat ensures !LostAt(run, i, l, r) {
      if LostAt(run, i, l, r) { LostIsTorn(run, i, l, r); }
    }
  }

  lemma LostIsTorn(run: seq<World>, i: nat, l: nat, r: Release)
    requires LostAt(run, i, l, r)
    ensures ClearsTorn(run, i, l)
  {
    assert r in run[i].state.locks[l].log;
  }

  // ---------------------------------------------------------------- reports of one message

  /** Whatever a host has to report fits one message. */
  predicate Fits(w: World) {
    forall h :: 0 <= h < |w.state.hosts| && |w.state.hosts[h].stack| >= 1 ==> |Top(w.state.hosts[h]).pages| <= LASTPAGES
  }

  /** The releases of lock l that host x has under way are one message each, and none is half recorded. */
  predicate OnePart(x: HostState, k: LockState, l: nat)
    requires l < |x.chan|
  {
    && (forall i :: 0 <= i < |x.chan[l]| && x.chan[l][i].RelMsg? ==> |x.chan[l][i].parts| == 1)
    && (forall r :: r in k.hist ==> r.scope < k.scope)
  }

  ghost predicate Whole(c: Config, s: State)
    requires Wf(c, s)
  {
    forall h, l :: 0 <= h < c.hosts && 0 <= l < c.locks ==> OnePart(s.hosts[h], s.locks[l], l)
  }

  lemma SendRelWhole(c: Config, s: State, h: nat, parts: seq<set<nat>>)
    requires Wf(c, s) && Whole(c, s) && Fits(World(c, s)) && CanSendRel(c, s, h, parts) && Wf(c, DoSendRel(c, s, h, parts))
    ensures Whole(c, DoSendRel(c, s, h, parts))
  {
    OneMessageIff(Top(s.hosts[h]).pages, parts);
    var s' := DoSendRel(c, s, h, parts);
    forall i, l | 0 <= i < c.hosts && 0 <= l < c.locks ensures OnePart(s'.hosts[i], s'.locks[l], l) {
      assert OnePart(s.hosts[i], s.locks[l], l);
    }
  }

  lemma ServeRelWhole(c: Config, s: State, h: nat, l: nat)
    requires Wf(c, s) && Whole(c, s) && CanServeRel(c, s, h, l) && Wf(c, DoServeRel(c, s, h, l))
    ensures Whole(c, DoServeRel(c, s, h, l))
  {
    var s' := DoServeRel(c, s, h, l);
    forall i, l1 | 0 <= i < c.hosts && 0 <= l1 < c.locks ensures OnePart(s'.hosts[i], s'.locks[l1], l1) {
      assert OnePart(s.hosts[i], s.locks[l1], l1) && s'.hosts[i] == ServeRelHost(c, s, h, l, i);
    }
  }

  lemma SendAcqWhole(c: Config, s: State, h: nat)
    requires Wf(c, s) && Whole(c, s) && CanSendAcq(c, s, h) && Wf(c, DoSendAcq(c, s, h))
    ensures Whole(c, DoSendAcq(c, s, h))
  {
    var s' := DoSendAcq(c, s, h);
    forall i, l | 0 <= i < c.hosts && 0 <= l < c.locks ensures OnePart(s'.hosts[i], s'.locks[l], l) {
      assert OnePart(s.hosts[i], s.locks[l], l);
    }
  }

  lemma ServeAcqWhole(c: Config, s: State, h: nat, l: nat)
    requires Wf(c, s) && Whole(c, s) && CanServeAcq(c, s, h, l) && Wf(c, DoServeAcq(c, s, h, l))
    ensures Whole(c, DoServeAcq(c, s, h, l))
  {
    var s' := DoServeAcq(c, s, h, l);
    forall i, l1 | 0 <= i < c.hosts && 0 <= l1 < c.locks ensures OnePart(s'.hosts[i], s'.locks[l1], l1) {
      assert OnePart(s.hosts[i], s.locks[l1], l1);
    }
  }

  predicate OfLocks(step: Step) {
    step.SendAcq? || step.ServeAcq? || step.SendRel? || step.ServeWtnt? || step.ServeRel?
  }

  /** No other step touches the lock messages in flight or the releases recorded. */
  lemma OtherStepWhole(c: Config, s: State, step: Step, i: nat, l: nat)
    requires Wf(c, s) && Enabled(c, s, step) && i < c.hosts && l < c.locks && !OfLocks(step)
    ensures var s' := Apply(c, s, step);
      && |s'.hosts| == c.hosts && |s'.locks| == c.locks && s'.hosts[i].chan == s.hosts[i].chan
      && s'.locks[l].hist == s.locks[l].hist && s'.locks[l].scope == s.locks[l].scope
  {
    if OfPages(step) {
      PageStepFrame(c, s, step, i);
    } else {
      BarrierStepWhole(c, s, step, i, l);
    }
  }

  lemma BarrierStepWhole(c: Config, s: State, step: Step, i: nat, l: nat)
    requires Wf(c, s) && Enabled(c, s, step) && i < c.hosts && l < c.locks && !OfLocks(step) && !OfPages(step)
    ensures var s' := Apply(c, s, step);
      && |s'.hosts| == c.hosts && |s'.locks| == c.locks && s'.hosts[i].chan == s.hosts[i].chan
      && s'.locks[l].hist == s.locks[l].hist && s'.locks[l].scope == s.locks[l].scope
  {
  }

  lemma SameWhole(c: Config, s: State, s': State)
    requires Wf(c, s) && Whole(c, s) && Wf(c, s')
    requires forall i, l :: 0 <= i < c.hosts && 0 <= l < c.locks ==>
      s'.hosts[i].chan == s.hosts[i].chan && s'.locks[l].hist == s.locks[l].hist && s'.locks[l].scope == s.locks[l].scope
    ensures Whole(c, s')
  {
    forall i, l | 0 <= i < c.hosts && 0 <= l < c.locks ensures OnePart(s'.hosts[i], s'.locks[l], l) {
      assert OnePart(s.hosts[i], s.locks[l], l);
    }
  }

  lemma OtherStepsWhole(c: Config, s: State, step: Step)
    requires Wf(c, s) && Whole(c, s) && Enabled(c, s, step) && Wf(c, Apply(c, s, step)) && !OfLocks(step)
    ensures Whole(c, Apply(c, s, step))
  {
    var s' := Apply(c, s, step);
    forall i, l | 0 <= i < c.hosts && 0 <= l < c.locks
      ensures s'.hosts[i].chan == s.hosts[i].chan && s'.locks[l].hist == s.locks[l].hist && s'.locks[l].scope == s.locks[l].scope
    {
      OtherStepWhole(c, s, step, i, l);
    }
    SameWhole(c, s, s');
  }

  lemma NoWtnt(c: Config, s: State, h: nat, l: nat)
    requires Wf(c, s) && Whole(c, s)
    ensures !CanServeWtnt(c, s, h, l)
  {
    if h < c.hosts && l < c.locks { assert OnePart(s.hosts[h], s.locks[l], l); }
  }

  lemma StepWhole(c: Config, s: State, step: Step)
    requires Wf(c, s) && Whole(c, s) && Fits(World(c, s)) && Enabled(c, s, step) && Wf(c, Apply(c, s, step))
    ensures Whole(c, Apply(c, s, step))
  {
    if !OfLocks(step) {
      OtherStepsWhole(c, s, step);
    } else if step.SendAcq? {
      SendAcqWhole(c, s, step.h);
    } else if step.ServeAcq? {
      ServeAcqWhole(c, s, step.h, step.l);
    } else if step.SendRel? {
      SendRelWhole(c, s, step.h, step.parts);
    } else if step.ServeRel? {
      ServeRelWhole(c, s, step.h, step.l);
    } else {
      NoWtnt(c, s, step.h, step.l);
    }
  }

  lemma MigrationWhole(c: Config, s: State, k: Slots)
    requires Wf(c, s) && Whole(c, s) && CanMigrate(c, s)
    requires Wf(Migrated(c, s, k).config, Migrated(c, s, k).state)
    ensures Whole(Migrated(c, s, k).config, Migrated(c, s, k).state)
  {
    var s' := Migrated(c, s, k).state;
    forall i, l | 0 <= i < c.hosts && 0 <= l < c.locks ensures OnePart(s'.hosts[i], s'.locks[l], l) {
      assert OnePart(s.hosts[i], s.locks[l], l) && s'.hosts[i] == MigratedHost(c, s, k, i);
    }
  }

  lemma NextWhole(v: World, w: World)
    requires WholeWorld(v) && Fits(v) && Next(v, w)
    ensures WholeWorld(w)
  {
    NextSound(v, w);
    if step :| Enabled(v.config, v.state, step) && w == World(v.config, Apply(v.config, v.state, step)) {
      StepWhole(v.config, v.state, step);
    } else {
      var k :| w == Migrated(v.config, v.state, k);
      MigrationWhole(v.config, v.state, k);
    }
  }

  lemma StartWhole(w: World)
    requires Init(w.config, w.state)
    ensures WholeWorld(w)
  {
    StartSound(w);
    assert forall h :: 0 <= h < w.config.hosts ==> InitHost(w.config, w.state.hosts[h]);
  }

  ghost predicate WholeWorld(w: World) { Sound(w) && Whole(w.config, w.state) }

  predicate AllFit(run: seq<World>) { forall i :: 0 <= i < |run| - 1 ==> Fits(run[i]) }

  lemma FrontFits(run: seq<World>, n: nat)
    requires AllFit(run) && n <= |run|
    ensures AllFit(run[..n]) && (0 < n < |run| ==> Fits(run[n - 1]))
  {
    assert forall i :: 0 <= i < n ==> run[..n][i] == run[i];
  }

  lemma {:induction false} RunWhole(run: seq<World>)
    requires IsRun(run) && AllFit(run)
    ensures WholeWorld(run[|run| - 1])
    decreases |run|
  {
    if |run| == 1 {
      StartWhole(run[0]);
    } else {
      var n := |run| - 1;
      ShorterRun(run);
      FrontFits(run, n);
      RunWhole(run[..n]);
      NextWhole(run[n - 1], run[n]);
    }
  }

  /** With every release recorded whole no release is torn. */
  lemma WholeNotTorn(w: World, l: nat)
    requires WholeWorld(w) && l < w.config.locks
    ensures HasLock(w, l) && !Torn(w, l)
  {
    assert LogOk(w.config, w.state, l) && OnePart(w.state.hosts[0], w.state.locks[l], l);
  }

  lemma RunFitsNotTorn(run: seq<World>, i: nat, l: nat)
    requires IsRun(run) && AllFit(run)
    ensures !ClearsTorn(run, i, l)
  {
    if i + 1 < |run| && HasLock(run[i], l) {
      Prefix(run, i + 1);
      FrontFits(run, i + 1);
      RunWhole(run[..i + 1]);
      WholeNotTorn(run[i], l);
    }
  }

  lemma Prefix(run: seq<World>, n: nat)
    requires IsRun(run) && 0 < n <= |run|
    ensures IsRun(run[..n])
  {
    forall j | 0 <= j < n - 1 ensures Next(run[..n][j], run[..n][j + 1]) { assert Next(run[j], run[j + 1]); }
  }

  /** A run in which every report fits one message loses nothing, whatever the managers do when. */
  lemma OneMessageLosesNothing(run: seq<World>, l: nat)
    requires IsRun(run) && l < run[0].config.locks && AllFit(run)
    ensures HasLock(run[|run| - 1], l) && run[|run| - 1].state.locks[l].lost == {}
  {
    forall i: nat ensures !ClearsTorn(run, i, l) { RunFitsNotTorn(run, i, l); }
    NothingLost(run, l);
  }

  // ---------------------------------------------------------------- few pages

  /** The lists name pages of the shared memory only. */
  predicate InRange(stack: seq<Frame>, n: nat) {
    forall i, p :: 0 <= i < |stack| && p in stack[i].pages ==> p < n
  }

  lemma EndPageInRange(c: Config, s: State, h: nat, p: nat)
    requires Wf(c, s) && CanEndPage(c, s, h, p) && InRange(s.hosts[h].stack, c.pages)
    ensures InRange(DoEndPage(c, s, h, p).hosts[h].stack, c.pages)
  {
  }

  lemma PoppedInRange(stack: seq<Frame>, n: nat)
    requires |stack| >= 2 && InRange(stack, n)
    ensures InRange(Popped(stack), n)
  {
    var t := |stack| - 1;
    forall i, p | 0 <= i < t && p in Popped(stack)[i].pages ensures p < n {
      assert p in stack[i].pages || p in stack[t].pages;
    }
  }

  predicate SamePages(a: seq<Frame>, b: seq<Frame>) {
    |a| == |b| && forall j :: 0 <= j < |a| ==> a[j].pages == b[j].pages
  }

  lemma DirtiedPages(stack: seq<Frame>, p: nat)
    ensures SamePages(stack, Dirtied(stack, p))
  {
  }

  predicate OfLists(step: Step) { step.EndPage? || step.SendRel? || step.SendBarr? || step.Resume? }

  /** No other step touches the lists of a host. */
  lemma OtherStepLists(c: Config, s: State, step: Step, i: nat)
    requires Wf(c, s) && Enabled(c, s, step) && i < c.hosts && !OfLists(step)
    ensures |Apply(c, s, step).hosts| == c.hosts && SamePages(s.hosts[i].stack, Apply(c, s, step).hosts[i].stack)
  {
    if step.Upgrade? {
      DirtiedPages(s.hosts[i].stack, step.p);
    } else if step.TakePage? {
      TakePageLists(c, s, step.h, i);
    } else {
      OtherStepStack(c, s, step, i);
    }
  }

  lemma TakePageLists(c: Config, s: State, h: nat, i: nat)
    requires Wf(c, s) && CanTakePage(c, s, h) && i < c.hosts
    ensures SamePages(s.hosts[i].stack, DoTakePage(c, s, h).hosts[i].stack)
  {
    DirtiedPages(s.hosts[i].stack, s.hosts[h].pageGrant.value.0);
  }

  lemma OtherStepStack(c: Config, s: State, step: Step, i: nat)
    requires Wf(c, s) && Enabled(c, s, step) && i < c.hosts && !OfLists(step) && !step.Upgrade? && !step.TakePage?
    ensures |Apply(c, s, step).hosts| == c.hosts && s.hosts[i].stack == Apply(c, s, step).hosts[i].stack
  {
    if OfPages(step) { PageStepStack(c, s, step, i); } else { SyncStepStack(c, s, step, i); }
  }

  lemma PageStepStack(c: Config, s: State, step: Step, i: nat)
    requires Wf(c, s) && Enabled(c, s, step) && i < c.hosts && OfPages(step)
    requires !step.EndPage? && !step.Upgrade? && !step.TakePage?
    ensures |Apply(c, s, step).hosts| == c.hosts && s.hosts[i].stack == Apply(c, s, step).hosts[i].stack
  {
  }

  lemma SyncStepStack(c: Config, s: State, step: Step, i: nat)
    requires Wf(c, s) && Enabled(c, s, step) && i < c.hosts && !OfLists(step) && !OfPages(step)
    ensures |Apply(c, s, step).hosts| == c.hosts && s.hosts[i].stack == Apply(c, s, step).hosts[i].stack
  {
  }

  lemma SendResumeInRange(c: Config, s: State, step: Step, i: nat)
    requires Wf(c, s) && Enabled(c, s, step) && i < c.hosts && InRange(s.hosts[i].stack, c.pages)
    requires OfLists(step) && !step.EndPage?
    ensures |Apply(c, s, step).hosts| == c.hosts && InRange(Apply(c, s, step).hosts[i].stack, c.pages)
  {
    if step.SendRel? && step.h == i { PoppedInRange(s.hosts[i].stack, c.pages); }
  }

  lemma StepInRange(c: Config, s: State, step: Step, i: nat)
    requires Wf(c, s) && Enabled(c, s, step) && i < c.hosts && InRange(s.hosts[i].stack, c.pages)
    ensures |Apply(c, s, step).hosts| == c.hosts && InRange(Apply(c, s, step).hosts[i].stack, c.pages)
  {
    if step.EndPage? {
      if step.h == i { EndPageInRange(c, s, i, step.p); }
    } else if OfLists(step) {
      SendResumeInRange(c, s, step, i);
    } else {
      OtherStepLists(c, s, step, i);
    }
  }

  ghost predicate AllInRange(w: World) {
    && w.config.pages <= LASTPAGES && |w.state.hosts| == w.config.hosts
    && forall i :: 0 <= i < w.config.hosts ==> InRange(w.state.hosts[i].stack, w.config.pages)
  }

  lemma StepAllInRange(c: Config, s: State, step: Step)
    requires Wf(c, s) && AllInRange(World(c, s)) && Enabled(c, s, step)
    ensures AllInRange(World(c, Apply(c, s, step)))
  {
    StepInRange(c, s, step, 0);
    forall i | 0 <= i < c.hosts ensures InRange(Apply(c, s, step).hosts[i].stack, c.pages) {
      StepInRange(c, s, step, i);
    }
  }

  lemma MigrationInRange(c: Config, s: State, k: Slots)
    requires Wf(c, s) && AllInRange(World(c, s)) && CanMigrate(c, s)
    ensures AllInRange(Migrated(c, s, k))
  {
    forall i | 0 <= i < c.hosts ensures InRange(Migrated(c, s, k).state.hosts[i].stack, c.pages) {
      assert Migrated(c, s, k).state.hosts[i] == MigratedHost(c, s, k, i);
    }
  }

  lemma NextInRange(v: World, w: World)
    requires AllInRange(v) && Next(v, w)
    ensures AllInRange(w)
  {
    if step :| Enabled(v.config, v.state, step) && w == World(v.config, Apply(v.config, v.state, step)) {
      StepAllInRange(v.config, v.state, step);
    } else {
      var k :| w == Migrated(v.config, v.state, k);
      MigrationInRange(v.config, v.state, k);
    }
  }

  lemma {:induction false} RunInRange(run: seq<World>)
    requires IsRun(run) && run[0].config.pages <= LASTPAGES
    ensures AllInRange(run[|run| - 1])
    decreases |run|
  {
    if |run| == 1 {
      assert forall h :: 0 <= h < run[0].config.hosts ==> InitHost(run[0].config, run[0].state.hosts[h]);
    } else {
      ShorterRun(run);
      RunInRange(run[..|run| - 1]);
      NextInRange(run[|run| - 2], run[|run| - 1]);
    }
  }

  lemma InRangeFits(w: World)
    requires AllInRange(w)
    ensures Fits(w)
  {
    forall h | 0 <= h < |w.state.hosts| && |w.state.hosts[h].stack| >= 1 ensures |Top(w.state.hosts[h]).pages| <= LASTPAGES {
      var pages := Top(w.state.hosts[h]).pages;
      assert pages <= Below(w.config.pages);
      assert |Below(w.config.pages) - pages| == |Below(w.config.pages)| - |pages|;
    }
  }

  /** With no more shared pages than one message holds, nothing is ever lost. */
  lemma FewPagesLoseNothing(run: seq<World>, l: nat)
    requires IsRun(run) && l < run[0].config.locks && run[0].config.pages <= LASTPAGES
    ensures HasLock(run[|run| - 1], l) && run[|run| - 1].state.locks[l].lost == {}
  {
    forall i | 0 <= i < |run| - 1 ensures Fits(run[i]) {
      Prefix(run, i + 1);
      RunInRange(run[..i + 1]);
      InRangeFits(run[i]);
    }
    OneMessageLosesNothing(run, l);
  }

  // ---------------------------------------------------------------- why notices are kept

  /** A release of lock l, which h manages, has come from beyond the barrier that h is at. */
  ghost predicate Ahead(c: Config, s: State, h: nat, l: nat)
    requires Wf(c, s) && h < c.hosts
  {
    l < c.locks && Manager(c, l) == h && exists r :: r in s.locks[l].hist && r.epoch > s.hosts[h].epoch
  }

  ghost predicate KeptForRelease(c: Config, s: State)
    requires Wf(c, s)
  {
    forall h :: 0 <= h < c.hosts && s.hosts[h].noclear ==> exists l: nat :: Ahead(c, s, h, l)
  }

  /** From s to s' nothing is forgotten of what was released, and nobody resolves to keep its notices. */
  ghost predicate NoNewKeeping(c: Config, s: State, s': State)
    requires Wf(c, s) && Wf(c, s')
  {
    && (forall i :: 0 <= i < c.hosts && s'.hosts[i].noclear ==> s.hosts[i].noclear && s'.hosts[i].epoch == s.hosts[i].epoch)
    && (forall l :: 0 <= l < c.locks ==> s.locks[l].hist <= s'.locks[l].hist)
  }

  lemma StillAhead(c: Config, s: State, s': State, h: nat, l: nat)
    requires Wf(c, s) && Wf(c, s') && h < c.hosts && Ahead(c, s, h, l)
    requires s'.hosts[h].epoch == s.hosts[h].epoch && s.locks[l].hist <= s'.locks[l].hist
    ensures Ahead(c, s', h, l)
  {
    var r :| r in s.locks[l].hist && r.epoch > s.hosts[h].epoch;
    assert r in s'.locks[l].hist;
  }

  lemma NoNewKeepingKeeps(c: Config, s: State, s': State)
    requires Wf(c, s) && Wf(c, s') && KeptForRelease(c, s) && NoNewKeeping(c, s, s')
    ensures KeptForRelease(c, s')
  {
    forall h | 0 <= h < c.hosts && s'.hosts[h].noclear ensures exists l: nat :: Ahead(c, s', h, l) {
      var l: nat :| Ahead(c, s, h, l);
      StillAhead(c, s, s', h, l);
    }
  }

  lemma ServeRelAhead(c: Config, s: State, h: nat, l: nat, i: nat)
    requires Wf(c, s) && CanServeRel(c, s, h, l) && Wf(c, DoServeRel(c, s, h, l)) && i < c.hosts
    ensures DoServeRel(c, s, h, l).hosts[i].noclear ==> s.hosts[i].noclear || Ahead(c, DoServeRel(c, s, h, l), i, l)
    ensures DoServeRel(c, s, h, l).hosts[i].epoch == s.hosts[i].epoch
    ensures forall k :: 0 <= k < c.locks ==> s.locks[k].hist <= DoServeRel(c, s, h, l).locks[k].hist
  {
    var s', m := DoServeRel(c, s, h, l), s.hosts[h].chan[l][0];
    var r := Release(h, s.locks[l].scope, m.parts[0], m.epoch, m.itv);
    assert s'.locks[l].hist == s.locks[l].hist + [r] && r in s'.locks[l].hist;
  }

  lemma ServeRelKept(c: Config, s: State, h: nat, l: nat)
    requires Wf(c, s) && CanServeRel(c, s, h, l) && KeptForRelease(c, s) && Wf(c, DoServeRel(c, s, h, l))
    ensures KeptForRelease(c, DoServeRel(c, s, h, l))
  {
    var s' := DoServeRel(c, s, h, l);
    forall i | 0 <= i < c.hosts && s'.hosts[i].noclear ensures exists k: nat :: Ahead(c, s', i, k) {
      ServeRelAhead(c, s, h, l, i);
      if s.hosts[i].noclear {
        var k: nat :| Ahead(c, s, i, k);
        StillAhead(c, s, s', i, k);
      }
    }
  }

  lemma PageStepResolve(c: Config, s: State, step: Step, i: nat)
    requires Wf(c, s) && Enabled(c, s, step) && i < c.hosts && OfPages(step) && |Apply(c, s, step).hosts| == c.hosts
    ensures Apply(c, s, step).hosts[i].noclear == s.hosts[i].noclear
  {
  }

  lemma SyncStepResolve(c: Config, s: State, step: Step, i: nat)
    requires Wf(c, s) && Enabled(c, s, step) && i < c.hosts && !OfPages(step) && !step.ServeRel? && !step.TakeBarrGrant?
    requires |Apply(c, s, step).hosts| == c.hosts
    ensures Apply(c, s, step).hosts[i].noclear == s.hosts[i].noclear
  {
  }

  lemma SyncStepHist(c: Config, s: State, step: Step, l: nat)
    requires Wf(c, s) && Enabled(c, s, step) && l < c.locks && !OfPages(step) && !step.TakeBarrGrant?
    requires |Apply(c, s, step).locks| == c.locks
    ensures s.locks[l].hist <= Apply(c, s, step).locks[l].hist
  {
  }

  lemma TakeBarrGrantKeeping(c: Config, s: State, h: nat)
    requires Wf(c, s) && CanTakeBarrGrant(c, s, h) && Wf(c, DoTakeBarrGrant(c, s, h))
    ensures NoNewKeeping(c, s, DoTakeBarrGrant(c, s, h))
  {
  }

  lemma StepKeeping(c: Config, s: State, step: Step)
    requires Wf(c, s) && Enabled(c, s, step) && !step.ServeRel? && Wf(c, Apply(c, s, step))
    ensures NoNewKeeping(c, s, Apply(c, s, step))
  {
    if step.TakeBarrGrant? {
      TakeBarrGrantKeeping(c, s, step.h);
    } else if OfPages(step) {
      forall i | 0 <= i < c.hosts ensures Apply(c, s, step).hosts[i].noclear == s.hosts[i].noclear { PageStepResolve(c, s, step, i); }
      forall i | 0 <= i < c.hosts ensures Apply(c, s, step).hosts[i].epoch == s.hosts[i].epoch { PageStepFrame(c, s, step, i); }
      PageStepFrame(c, s, step, 0);
    } else {
      forall i | 0 <= i < c.hosts ensures Apply(c, s, step).hosts[i].noclear == s.hosts[i].noclear { SyncStepResolve(c, s, step, i); }
      forall i | 0 <= i < c.hosts ensures Apply(c, s, step).hosts[i].epoch == s.hosts[i].epoch { SyncStepEpoch(c, s, step, i); }
      forall l | 0 <= l < c.locks ensures s.locks[l].hist <= Apply(c, s, step).locks[l].hist { SyncStepHist(c, s, step, l); }
    }
  }

  lemma StepKept(c: Config, s: State, step: Step)
    requires Wf(c, s) && Enabled(c, s, step) && Wf(c, Apply(c, s, step)) && KeptForRelease(c, s)
    ensures KeptForRelease(c, Apply(c, s, step))
  {
    if step.ServeRel? {
      ServeRelKept(c, s, step.h, step.l);
    } else {
      StepKeeping(c, s, step);
      NoNewKeepingKeeps(c, s, Apply(c, s, step));
    }
  }

  ghost predicate WellKept(w: World) { Wf(w.config, w.state) && KeptForRelease(w.config, w.state) }

  lemma NextKept(v: World, w: World)
    requires Sound(v) && Next(v, w) && WellKept(v)
    ensures WellKept(w)
  {
    NextSound(v, w);
    if step :| Enabled(v.config, v.state, step) && w == World(v.config, Apply(v.config, v.state, step)) {
      StepKept(v.config, v.state, step);
    } else {
      var k :| w == Migrated(v.config, v.state, k);
      assert forall h :: 0 <= h < v.config.hosts ==> w.state.hosts[h] == MigratedHost(v.config, v.state, k, h);
    }
  }

  /** A manager is to keep its notices over the next barrier only if a release of one of its locks has come
      from beyond that barrier. */
  lemma {:induction false} KeptOnlyForRelease(run: seq<World>)
    requires IsRun(run)
    ensures WellKept(run[|run| - 1])
  {
    if |run| == 1 {
      StartSound(run[0]);
      assert forall h :: 0 <= h < run[0].config.hosts ==> InitHost(run[0].config, run[0].state.hosts[h]);
    } else {
      ShorterRun(run);
      RunInv(run[..|run| - 1]);
      KeptOnlyForRelease(run[..|run| - 1]);
      NextKept(run[|run| - 2], run[|run| - 1]);
    }
  }
}
