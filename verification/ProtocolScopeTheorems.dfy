/** Scope consistency in every run. */
module ProtocolScopeTheorems {
  import opened Pages
  import opened Protocol
  import opened ProtocolInv
  import opened ProtocolHosts
  import opened ProtocolLocks
  import opened ProtocolBarrier
  import opened ProtocolSteps
  import opened ProtocolMigration
  import opened ProtocolRuns
  import opened ProtocolLosses
  import opened ProtocolScope
  import opened ProtocolScopeSteps
  import opened ProtocolScopeSync
  import opened ProtocolScopeBarrier

  // ---------------------------------------------------------------- every run

  lemma InitScope(c: Config, s: State, g: Guard)
    requires Init(c, s) && Exists(c, g)
    ensures ScopeInv(c, s, g)
  {
    forall i | 0 <= i < c.hosts ensures PlaceOk(c, s, g, i) && ViewOk(c, s, g, i) {
      assert InitHost(c, s.hosts[i]);
    }
  }

  lemma CacheStepScope(c: Config, s: State, step: Step, g: Guard)
    requires Wf(c, s) && Core(c, s) && Enabled(c, s, step) && Exists(c, g) && ScopeInv(c, s, g)
    requires Wf(c, Apply(c, s, step))
    requires step.Evict? || step.Fault? || step.Upgrade? || step.Write? || step.HomeFault? || step.HomeWrite?
    ensures ScopeInv(c, Apply(c, s, step), g)
  {
    assert GoodAt(c, s, step.h);
    match step
    case Evict(h, p) => EvictScope(c, s, g, h, p);
    case Fault(h, p, write) => FaultScope(c, s, g, h, p, write);
    case Upgrade(h, p) => UpgradeScope(c, s, g, h, p);
    case Write(h, p, u, v) => WriteScope(c, s, g, h, p, u, v);
    case HomeFault(h, p) => HomeFaultScope(c, s, g, h, p);
    case HomeWrite(h, p, u, v) => HomeWriteScope(c, s, g, h, p, u, v);
  }

  lemma PageMessageScope(c: Config, s: State, step: Step, g: Guard)
    requires Wf(c, s) && Core(c, s) && Enabled(c, s, step) && Exists(c, g) && ScopeInv(c, s, g)
    requires Wf(c, Apply(c, s, step))
    requires step.ServeGetp? || step.TakePage? || step.BeginSync? || step.EndPage? || step.ServeDiff? || step.TakeDiffGrant?
    ensures ScopeInv(c, Apply(c, s, step), g)
  {
    assert GoodAt(c, s, step.h);
    match step
    case ServeGetp(h) => ServeGetpScope(c, s, g, h);
    case TakePage(h) => TakePageScope(c, s, g, h);
    case BeginSync(h, op) => BeginSyncScope(c, s, g, h, op);
    case EndPage(h, p) => EndPageScope(c, s, g, h, p);
    case ServeDiff(h, p) => ServeDiffScope(c, s, g, h, p);
    case TakeDiffGrant(h) => TakeDiffGrantScope(c, s, g, h);
  }

  lemma WriteScope(c: Config, s: State, g: Guard, h: nat, p: nat, u: nat, v: Word)
    requires Wf(c, s) && CanWrite(c, s, h, p, u) && GoodAt(c, s, h) && LocksOk(c, s) && Exists(c, g) && ScopeInv(c, s, g)
    ensures ScopeInv(c, DoWrite(c, s, h, p, u, v), g)
  {
    if (p, u) == (g.page, g.unit) { WriteHere(c, s, g, h, v); } else { WriteElseScope(c, s, g, h, p, u, v); }
  }

  lemma HomeWriteScope(c: Config, s: State, g: Guard, h: nat, p: nat, u: nat, v: Word)
    requires Wf(c, s) && CanHomeWrite(c, s, h, p, u) && HostsOk(c, s) && BarrierOk(c, s) && LocksOk(c, s)
    requires Exists(c, g) && ScopeInv(c, s, g)
    ensures ScopeInv(c, DoHomeWrite(c, s, h, p, u, v), g)
  {
    assert GoodAt(c, s, h);
    if (p, u) == (g.page, g.unit) { HomeWriteHere(c, s, g, h, v); } else { HomeWriteElseScope(c, s, g, h, p, u, v); }
  }

  lemma AcquireStepScope(c: Config, s: State, step: Step, g: Guard)
    requires Wf(c, s) && Core(c, s) && ReleasesOk(c, s) && Enabled(c, s, step) && Exists(c, g) && ScopeInv(c, s, g)
    requires Wf(c, Apply(c, s, step)) && (step.SendAcq? || step.ServeAcq? || step.TakeLockGrant?)
    ensures ScopeInv(c, Apply(c, s, step), g)
  {
    assert GoodAt(c, s, step.h);
    if step.SendAcq? {
      SendAcqScope(c, s, g, step.h);
    } else if step.ServeAcq? {
      ServeAcqScope(c, s, g, step.h, step.l);
    } else {
      TakeLockGrantScope(c, s, g, step.h);
    }
  }

  lemma ReleaseStepScope(c: Config, s: State, step: Step, g: Guard)
    requires Wf(c, s) && Core(c, s) && ReleasesOk(c, s) && Enabled(c, s, step) && Exists(c, g) && ScopeInv(c, s, g)
    requires Wf(c, Apply(c, s, step)) && (step.SendRel? || step.ServeWtnt? || step.ServeRel?)
    ensures ScopeInv(c, Apply(c, s, step), g)
  {
    assert GoodAt(c, s, step.h) && ScopeOk(c, s, step.h, g.lock);
    if step.SendRel? {
      SendRelScope(c, s, g, step.h, step.parts);
    } else if step.ServeWtnt? {
      ServeWtntScope(c, s, g, step.h, step.l);
    } else {
      ServeRelScope(c, s, g, step.h, step.l);
    }
  }

  lemma BarrierStepScope(c: Config, s: State, step: Step, g: Guard)
    requires Wf(c, s) && Core(c, s) && ReleasesOk(c, s) && Enabled(c, s, step) && Exists(c, g) && ScopeInv(c, s, g)
    requires Wf(c, Apply(c, s, step)) && CopiesOk(c, Apply(c, s, step))
    requires step.SendBarr? || step.ServeBarr? || step.TakeBarrGrant? || step.Resume?
    ensures ScopeInv(c, Apply(c, s, step), g)
  {
    assert GoodAt(c, s, step.h);
    match step
    case SendBarr(h) => SendBarrScope(c, s, g, h);
    case ServeBarr(h) => ServeBarrScope(c, s, g, h);
    case TakeBarrGrant(h) => TakeBarrGrantScope(c, s, g, h);
    case Resume(h) => ResumeScope(c, s, g, h);
  }

  lemma StepScope(c: Config, s: State, step: Step, g: Guard)
    requires Wf(c, s) && Core(c, s) && ReleasesOk(c, s) && Enabled(c, s, step) && Exists(c, g) && ScopeInv(c, s, g)
    requires Wf(c, Apply(c, s, step)) && CopiesOk(c, Apply(c, s, step))
    ensures ScopeInv(c, Apply(c, s, step), g)
  {
    if step.SendAcq? || step.ServeAcq? || step.TakeLockGrant? {
      AcquireStepScope(c, s, step, g);
    } else if step.SendRel? || step.ServeWtnt? || step.ServeRel? {
      ReleaseStepScope(c, s, step, g);
    } else if step.SendBarr? || step.ServeBarr? || step.TakeBarrGrant? || step.Resume? {
      BarrierStepScope(c, s, step, g);
    } else if step.Evict? || step.Fault? || step.Upgrade? || step.Write? || step.HomeFault? || step.HomeWrite? {
      CacheStepScope(c, s, step, g);
    } else {
      PageMessageScope(c, s, step, g);
    }
  }

  ghost predicate Consistent(w: World, g: Guard) {
    Sound(w) && Exists(w.config, g) && ScopeInv(w.config, w.state, g)
  }

  lemma NextConsistent(v: World, w: World, g: Guard)
    requires Consistent(v, g) && Next(v, w)
    ensures Consistent(w, g)
  {
    NextSound(v, w);
    if step :| Enabled(v.config, v.state, step) && w == World(v.config, Apply(v.config, v.state, step)) {
      StepScope(v.config, v.state, step, g);
    } else {
      var k :| w == Migrated(v.config, v.state, k);
      MigrateScope(v.config, v.state, k, g);
    }
  }

  lemma {:induction false} RunConsistent(run: seq<World>, g: Guard)
    requires IsRun(run) && Exists(run[0].config, g)
    ensures Consistent(run[|run| - 1], g)
    decreases |run|
  {
    if |run| == 1 {
      StartSound(run[0]);
      InitScope(run[0].config, run[0].state, g);
    } else {
      var n := |run| - 1;
      ShorterRun(run);
      RunConsistent(run[..n], g);
      NextConsistent(run[n - 1], run[n], g);
    }
  }

  lemma ReachableConsistent(c: Config, s: State, g: Guard)
    requires Reachable(c, s) && Exists(c, g)
    ensures Consistent(World(c, s), g)
  {
    var run :| IsRun(run) && run[|run| - 1] == World(c, s);
    SameExists(run, g);
    RunConsistent(run, g);
  }

  lemma {:induction false} SameExists(run: seq<World>, g: Guard)
    requires IsRun(run)
    ensures Exists(run[|run| - 1].config, g) <==> Exists(run[0].config, g)
    decreases |run|
  {
    if |run| > 1 {
      ShorterRun(run);
      SameExists(run[..|run| - 1], g);
    }
  }

  // ---------------------------------------------------------------- what the history means

  predicate Writes(step: Step, g: Guard) {
    (step.Write? || step.HomeWrite?) && step.p == g.page && step.u == g.unit
  }

  predicate Completes(c: Config, s: State, step: Step)
    requires Wf(c, s)
  {
    step.ServeBarr? && LastArrival(c, s)
  }

  /** The value is that of the last write by any host, or the home's when the last barrier completed; the
      unit is guarded as long as every write since then was made inside a section of the lock. */
  lemma ValueIsLatest(c: Config, s: State, step: Step, g: Guard)
    requires Wf(c, s) && Enabled(c, s, step) && Exists(c, g) && Wf(c, Apply(c, s, step))
    ensures var s' := Apply(c, s, step);
      if Writes(step, g) then Value(s', g) == step.v && (Guarded(s', g) <==> Guarded(s, g) && OnStack(s.hosts[step.h], g.lock))
      else if Completes(c, s, step) then Value(s', g) == s.mem[g.page][g.unit] && Guarded(s', g)
      else Value(s', g) == Value(s, g) && (Guarded(s', g) <==> Guarded(s, g))
  {
    if !Writes(step, g) && !Completes(c, s, step) { OtherStepValue(c, s, step, g); }
  }

  lemma OtherStepValue(c: Config, s: State, step: Step, g: Guard)
    requires Wf(c, s) && Enabled(c, s, step) && Exists(c, g) && Wf(c, Apply(c, s, step))
    requires !Writes(step, g) && !Completes(c, s, step)
    ensures var s' := Apply(c, s, step); Value(s', g) == Value(s, g) && (Guarded(s', g) <==> Guarded(s, g))
  {
    if OfPages(step) { PageStepValue(c, s, step, g); } else { SyncStepValue(c, s, step); }
  }

  lemma PageStepValue(c: Config, s: State, step: Step, g: Guard)
    requires Wf(c, s) && Enabled(c, s, step) && Exists(c, g) && Wf(c, Apply(c, s, step)) && OfPages(step) && !Writes(step, g)
    ensures var s' := Apply(c, s, step); Value(s', g) == Value(s, g) && (Guarded(s', g) <==> Guarded(s, g))
  {
  }

  lemma SyncStepValue(c: Config, s: State, step: Step)
    requires Wf(c, s) && Enabled(c, s, step) && !OfPages(step) && !Completes(c, s, step)
    ensures Apply(c, s, step).latest == s.latest && Apply(c, s, step).snapshot == s.snapshot
  {
  }

  // ---------------------------------------------------------------- scope consistency

  /** What host h reads in a page it has. */
  function Seen(c: Config, s: State, h: nat, p: nat): PageData
    requires Wf(c, s) && h < c.hosts && p < c.pages
  {
    if Remote(c, h, p) then s.hosts[h].lines[p].data else s.mem[p]
  }

  predicate CanRead(c: Config, s: State, h: nat, p: nat)
    requires Wf(c, s) && h < c.hosts && p < c.pages
  {
    !Remote(c, h, p) || s.hosts[h].lines[p].Valid()
  }

  /** Scope consistency.  A unit that, since the last barrier completed, has been written only inside
      sections of one lock: inside such a section a host reads the last value that any host wrote, and
      a page that it fetches there brings it. */
  lemma ScopeConsistency(c: Config, s: State, h: nat, g: Guard)
    requires Reachable(c, s) && Wf(c, s) && Exists(c, g) && h < c.hosts && OnStack(s.hosts[h], g.lock)
    requires Guarded(s, g) && Kept(s, g)
    ensures CanRead(c, s, h, g.page) ==> Seen(c, s, h, g.page)[g.unit] == Value(s, g)
    ensures Remote(c, h, g.page) && Fetched(s.hosts[h], g.page) ==> s.hosts[h].pageGrant.value.1[g.unit] == Value(s, g)
  {
    ReachableConsistent(c, s, g);
    assert ViewOk(c, s, g, h);
  }

  /** When a grant of the lock is handled the home has that value, and so has the copy, if it stays. */
  lemma GrantBringsValue(c: Config, s: State, h: nat, g: Guard)
    requires Reachable(c, s) && Wf(c, s) && Exists(c, g) && CanTakeLockGrant(c, s, h)
    requires s.hosts[h].lockGrant.value.lock == g.lock && Guarded(s, g) && Kept(s, g)
    ensures s.mem[g.page][g.unit] == Value(s, g)
    ensures Remote(c, h, g.page) && DoTakeLockGrant(c, s, h).hosts[h].lines[g.page].Valid() ==>
      DoTakeLockGrant(c, s, h).hosts[h].lines[g.page].data[g.unit] == Value(s, g)
  {
    ReachableConsistent(c, s, g);
    AtGrant(c, s, h, g);
  }

  lemma AtGrant(c: Config, s: State, h: nat, g: Guard)
    requires Wf(c, s) && Core(c, s) && ReleasesOk(c, s) && CanTakeLockGrant(c, s, h) && Exists(c, g) && Agree(c, s, g)
    requires s.hosts[h].lockGrant.value.lock == g.lock && Kept(s, g)
    ensures s.mem[g.page][g.unit] == Value(s, g)
    ensures Remote(c, h, g.page) && DoTakeLockGrant(c, s, h).hosts[h].lines[g.page].Valid() ==>
      DoTakeLockGrant(c, s, h).hosts[h].lines[g.page].data[g.unit] == Value(s, g)
  {
    assert ViewOk(c, s, g, h) && GoodAt(c, s, h);
    TakeOwnView(c, s, g, h);
    SameStack(s.hosts[h], DoTakeLockGrant(c, s, h).hosts[h], g);
    if Owed(c, s, g, h) && Remote(c, h, g.page) { GrantPays(c, s, g, h); }
    forall j | 0 <= j < c.hosts ensures !OnStack(s.hosts[j], g.lock) {
      if j != h { OwnerAlone(c, s, g, h, j); }
    }
  }

  /** With no more shared pages than one message holds nothing else is asked: what the guarding lock
      promises holds in every run. */
  lemma ScopeConsistencyOfFewPages(run: seq<World>, h: nat, g: Guard)
    requires IsRun(run) && run[0].config.pages <= LASTPAGES && Exists(run[0].config, g)
    requires var w := run[|run| - 1]; Wf(w.config, w.state) && h < w.config.hosts && OnStack(w.state.hosts[h], g.lock) && Guarded(w.state, g)
    ensures var w := run[|run| - 1];
      Exists(w.config, g) && (CanRead(w.config, w.state, h, g.page) ==> Seen(w.config, w.state, h, g.page)[g.unit] == Value(w.state, g))
  {
    var w := run[|run| - 1];
    FewPagesLoseNothing(run, g.lock);
    SameExists(run, g);
    assert Reachable(w.config, w.state);
    ScopeConsistency(w.config, w.state, h, g);
  }
}
