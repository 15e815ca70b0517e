/** The protocol never gets stuck: whatever has happened, what is under way comes to an end, and then every
    host runs or waits for what only another host can give. */
module ProtocolProgress {
  import opened Pages
  import opened Protocol
  import opened ProtocolInv
  import opened ProtocolReports
  import opened ProtocolSteps
  import opened ProtocolRuns
  import opened ProtocolTheorems

  /** The application takes this step; all others are the protocol's own. */
  predicate OfApplication(step: Step) {
    || step.Evict? || step.Fault? || step.Upgrade? || step.Write? || step.HomeFault? || step.HomeWrite?
    || step.BeginSync?
  }

  ghost predicate CanGoOn(c: Config, s: State)
    requires Wf(c, s)
  {
    exists step :: !OfApplication(step) && Enabled(c, s, step)
  }

  // ---------------------------------------------------------------- rest

  /** No message is under way from or to the host. */
  predicate Still(x: HostState) {
    && NoFetch(x) && NoDiffs(x) && x.lockGrant.None? && NoBarr(x)
    && forall l :: 0 <= l < |x.chan| ==> x.chan[l] == []
  }

  /** Host h runs, or waits for a lock that another host holds, or at a barrier that another host has not
      come to. */
  ghost predicate Rests(c: Config, s: State, h: nat)
    requires Wf(c, s) && h < c.hosts
  {
    var x := s.hosts[h];
    && Still(x)
    && match x.phase
       case Running => true
       case Waiting(Acq(l)) => exists g :: 0 <= g < c.hosts && g != h && OnStack(s.hosts[g], l)
       case Waiting(Barr) => exists g :: 0 <= g < c.hosts && s.hosts[g].phase != Waiting(Barr)
       case _ => false
  }

  ghost predicate AllRest(c: Config, s: State)
    requires Wf(c, s)
  {
    forall h :: 0 <= h < c.hosts ==> Rests(c, s, h)
  }

  /** The protocol has nothing to do for host h. */
  ghost predicate Idle(c: Config, s: State, h: nat)
    requires Wf(c, s) && h < c.hosts
  {
    && !CanServeGetp(c, s, h) && !CanTakePage(c, s, h) && !CanTakeDiffGrant(c, s, h)
    && (forall p :: !CanEndPage(c, s, h, p)) && (forall p :: !CanServeDiff(c, s, h, p))
    && !CanSendAcq(c, s, h) && !CanRelease(c, s, h) && !CanSendBarr(c, s, h)
    && (forall l :: 0 <= l < c.locks ==> LockIdle(c, s, h, l)) && !CanTakeLockGrant(c, s, h)
    && !CanServeBarr(c, s, h) && !CanTakeBarrGrant(c, s, h) && !CanResume(c, s, h)
  }

  predicate LockIdle(c: Config, s: State, h: nat, l: nat)
    requires Wf(c, s)
  {
    !CanServeAcq(c, s, h, l) && !CanServeWtnt(c, s, h, l) && !CanServeRel(c, s, h, l)
  }

  lemma NoneEnabled(c: Config, s: State, step: Step)
    requires Wf(c, s) && !CanGoOn(c, s) && !OfApplication(step)
    ensures !Enabled(c, s, step)
  {
  }

  lemma NoSends(c: Config, s: State, h: nat)
    requires Wf(c, s) && h < c.hosts && !CanGoOn(c, s)
    ensures !CanSendAcq(c, s, h) && !CanSendBarr(c, s, h)
  {
    NoneEnabled(c, s, SendAcq(h));
    NoneEnabled(c, s, SendBarr(h));
  }

  /** A report can always be sent. */
  lemma ReleasePossible(c: Config, s: State, h: nat) returns (parts: seq<set<nat>>)
    requires Wf(c, s) && CanRelease(c, s, h)
    ensures CanSendRel(c, s, h, parts)
  {
    parts := ReportExists(Top(s.hosts[h]).pages);
  }

  lemma ReleaseEnabled(c: Config, s: State, h: nat, parts: seq<set<nat>>)
    requires Wf(c, s) && CanSendRel(c, s, h, parts)
    ensures Enabled(c, s, SendRel(h, parts))
  {
  }

  lemma NoRelease(c: Config, s: State, h: nat)
    requires Wf(c, s) && h < c.hosts && !CanGoOn(c, s)
    ensures !CanRelease(c, s, h)
  {
    if CanRelease(c, s, h) {
      var parts := ReleasePossible(c, s, h);
      ReleaseEnabled(c, s, h, parts);
    }
  }

  lemma NoSync(c: Config, s: State, h: nat)
    requires Wf(c, s) && h < c.hosts && !CanGoOn(c, s)
    ensures !CanTakeLockGrant(c, s, h) && !CanServeBarr(c, s, h) && !CanTakeBarrGrant(c, s, h) && !CanResume(c, s, h)
  {
    NoneEnabled(c, s, TakeLockGrant(h));
    NoneEnabled(c, s, ServeBarr(h));
    NoneEnabled(c, s, TakeBarrGrant(h));
    NoneEnabled(c, s, Resume(h));
  }

  lemma NoPages(c: Config, s: State, h: nat)
    requires Wf(c, s) && h < c.hosts && !CanGoOn(c, s)
    ensures !CanServeGetp(c, s, h) && !CanTakePage(c, s, h) && !CanTakeDiffGrant(c, s, h)
    ensures forall p: nat :: !CanEndPage(c, s, h, p) && !CanServeDiff(c, s, h, p)
    ensures forall l: nat :: LockIdle(c, s, h, l)
  {
    NoneEnabled(c, s, ServeGetp(h));
    NoneEnabled(c, s, TakePage(h));
    NoneEnabled(c, s, TakeDiffGrant(h));
    forall p: nat ensures !CanEndPage(c, s, h, p) && !CanServeDiff(c, s, h, p) {
      NoneEnabled(c, s, EndPage(h, p));
      NoneEnabled(c, s, ServeDiff(h, p));
    }
    forall l: nat ensures LockIdle(c, s, h, l) {
      NoneEnabled(c, s, ServeAcq(h, l));
      NoneEnabled(c, s, ServeWtnt(h, l));
      NoneEnabled(c, s, ServeRel(h, l));
    }
  }

  lemma HostIdle(c: Config, s: State, h: nat)
    requires Wf(c, s) && h < c.hosts && !CanGoOn(c, s)
    ensures Idle(c, s, h)
  {
    NoSends(c, s, h);
    NoRelease(c, s, h);
    NoSync(c, s, h);
    NoPages(c, s, h);
  }

  // ---------------------------------------------------------------- pages still to be looked at

  /** endinterval has only pages to look at that exist. */
  predicate TodoOk(c: Config, x: HostState) { x.phase.Ending? ==> x.phase.todo <= Below(c.pages) }

  ghost predicate TodosOk(c: Config, s: State) { forall h :: 0 <= h < |s.hosts| ==> TodoOk(c, s.hosts[h]) }

  predicate NoNewTodo(x: HostState, y: HostState) {
    y.phase.Ending? ==> x.phase.Ending? && y.phase.todo <= x.phase.todo
  }

  lemma AccessTodo(c: Config, s: State, step: Step)
    requires Wf(c, s) && Enabled(c, s, step) && OfApplication(step) && !step.BeginSync?
    ensures |Apply(c, s, step).hosts| == c.hosts && forall i :: 0 <= i < c.hosts ==> NoNewTodo(s.hosts[i], Apply(c, s, step).hosts[i])
  {
  }

  lemma PageTodo(c: Config, s: State, step: Step)
    requires Wf(c, s) && Enabled(c, s, step)
    requires step.ServeGetp? || step.TakePage? || step.TakeDiffGrant? || step.EndPage? || step.ServeDiff?
    ensures |Apply(c, s, step).hosts| == c.hosts && forall i :: 0 <= i < c.hosts ==> NoNewTodo(s.hosts[i], Apply(c, s, step).hosts[i])
  {
  }

  lemma SyncTodo(c: Config, s: State, step: Step)
    requires Wf(c, s) && Enabled(c, s, step)
    requires step.SendAcq? || step.SendRel? || step.SendBarr? || step.TakeLockGrant? || step.TakeBarrGrant? || step.Resume?
    ensures |Apply(c, s, step).hosts| == c.hosts && forall i :: 0 <= i < c.hosts ==> NoNewTodo(s.hosts[i], Apply(c, s, step).hosts[i])
  {
  }

  lemma ServeTodo(c: Config, s: State, step: Step)
    requires Wf(c, s) && Enabled(c, s, step)
    requires step.ServeAcq? || step.ServeWtnt? || step.ServeRel? || step.ServeBarr?
    ensures |Apply(c, s, step).hosts| == c.hosts && forall i :: 0 <= i < c.hosts ==> NoNewTodo(s.hosts[i], Apply(c, s, step).hosts[i])
  {
  }

  lemma BeginTodo(c: Config, s: State, h: nat, op: SyncOp)
    requires Wf(c, s) && CanBeginSync(c, s, h, op) && TodosOk(c, s)
    ensures TodosOk(c, DoBeginSync(c, s, h, op))
  {
  }

  lemma StepTodo(c: Config, s: State, step: Step)
    requires Wf(c, s) && Enabled(c, s, step) && TodosOk(c, s)
    ensures TodosOk(c, Apply(c, s, step))
  {
    if step.BeginSync? {
      BeginTodo(c, s, step.h, step.op);
    } else if OfApplication(step) {
      AccessTodo(c, s, step);
    } else if step.ServeGetp? || step.TakePage? || step.TakeDiffGrant? || step.EndPage? || step.ServeDiff? {
      PageTodo(c, s, step);
    } else if step.ServeAcq? || step.ServeWtnt? || step.ServeRel? || step.ServeBarr? {
      ServeTodo(c, s, step);
    } else {
      SyncTodo(c, s, step);
    }
  }

  lemma NextTodo(v: World, w: World)
    requires Next(v, w) && TodosOk(v.config, v.state)
    ensures TodosOk(w.config, w.state)
  {
    if step :| Enabled(v.config, v.state, step) && w == World(v.config, Apply(v.config, v.state, step)) {
      StepTodo(v.config, v.state, step);
    } else {
      var k :| w == Migrated(v.config, v.state, k);
      assert forall h :: 0 <= h < v.config.hosts ==> w.state.hosts[h] == MigratedHost(v.config, v.state, k, h);
    }
  }

  lemma {:induction false} RunTodo(run: seq<World>)
    requires IsRun(run)
    ensures var w := run[|run| - 1]; TodosOk(w.config, w.state)
  {
    if |run| == 1 {
      assert forall h :: 0 <= h < run[0].config.hosts ==> InitHost(run[0].config, run[0].state.hosts[h]);
    } else {
      ShorterRun(run);
      RunTodo(run[..|run| - 1]);
      NextTodo(run[|run| - 2], run[|run| - 1]);
    }
  }

  lemma ReachableTodo(c: Config, s: State)
    requires Reachable(c, s)
    ensures TodosOk(c, s)
  {
    var run :| IsRun(run) && run[|run| - 1] == World(c, s);
    RunTodo(run);
  }

  // ---------------------------------------------------------------- an idle host

  /** What an idle host's state says of messages: there is none but for locks. */
  lemma NothingInFlight(c: Config, s: State, h: nat)
    requires Wf(c, s) && h < c.hosts && GoodAt(c, s, h) && Idle(c, s, h) && TodoOk(c, s.hosts[h])
    ensures NoFetch(s.hosts[h]) && NoDiffs(s.hosts[h]) && NoBarr(s.hosts[h])
    ensures !s.hosts[h].phase.Fetching? && !s.hosts[h].phase.Ending? && !s.hosts[h].phase.Resuming?
  {
    var x := s.hosts[h];
    assert NetOk(c, h, x, h in s.arrived) && StackOk(c, x);
    match x.phase {
      case Ending(op, todo) =>
        forall p: nat ensures p !in todo { assert !CanEndPage(c, s, h, p); }
        forall p: nat ensures p !in x.diffs { assert !CanServeDiff(c, s, h, p); }
      case _ =>
    }
  }

  lemma ChannelEmpty(c: Config, s: State, h: nat, l: nat)
    requires Wf(c, s) && h < c.hosts && l < c.locks && LockIdle(c, s, h, l)
    requires StatusOk(s.hosts[h], s.locks[l], h, l) && ScopeOk(c, s, h, l)
    ensures s.hosts[h].chan[l] == []
  {
  }

  lemma GrantTaken(c: Config, s: State, h: nat)
    requires Wf(c, s) && h < c.hosts && GoodAt(c, s, h) && Idle(c, s, h)
    ensures s.hosts[h].lockGrant.None?
  {
    assert NetOk(c, h, s.hosts[h], h in s.arrived);
  }

  /** The head of a queue is the holder. */
  lemma HeadHolds(c: Config, s: State, h: nat, l: nat) returns (g: nat)
    requires Wf(c, s) && HostsOk(c, s) && TodosOk(c, s) && LocksOk(c, s) && (forall i :: 0 <= i < c.hosts ==> Idle(c, s, i))
    requires h < c.hosts && l < c.locks && s.hosts[h].phase == Waiting(Acq(l)) && s.hosts[h].chan[l] == []
    requires forall i :: 0 <= i < c.hosts ==> s.hosts[i].chan[l] == []
    ensures g < c.hosts && g != h && OnStack(s.hosts[g], l)
  {
    assert GoodAt(c, s, h) && StatusOk(s.hosts[h], s.locks[l], h, l) && QueueOk(c, s.locks[l]);
    GrantTaken(c, s, h);
    assert !OnStack(s.hosts[h], l);
    g := s.locks[l].acqs[0].host;
    HeadIsHolder(c, s, g, l);
  }

  lemma HeadIsHolder(c: Config, s: State, g: nat, l: nat)
    requires Wf(c, s) && g < c.hosts && l < c.locks && GoodAt(c, s, g) && Idle(c, s, g) && TodoOk(c, s.hosts[g])
    requires s.hosts[g].chan[l] == []
    requires QueueOk(c, s.locks[l]) && Heads(s.locks[l].acqs, g) && StatusOk(s.hosts[g], s.locks[l], g, l)
    ensures OnStack(s.hosts[g], l)
  {
    GrantTaken(c, s, g);
    NothingInFlight(c, s, g);
    assert Queued(s.locks[l].acqs, g);
  }

  lemma SomeoneIsLate(c: Config, s: State) returns (g: nat)
    requires Wf(c, s) && HostsOk(c, s) && TodosOk(c, s) && BarrierOk(c, s) && (forall i :: 0 <= i < c.hosts ==> Idle(c, s, i))
    ensures g < c.hosts && s.hosts[g].phase != Waiting(Barr)
  {
    if s.arrived >= Below(c.hosts) { MoreThan(s.arrived, c.hosts); }
    g :| g in Below(c.hosts) && g !in s.arrived;
    assert GoodAt(c, s, g);
    NothingInFlight(c, s, g);
    assert NetOk(c, g, s.hosts[g], g in s.arrived);
  }

  lemma MoreThan(s: set<nat>, n: nat)
    requires s >= Below(n)
    ensures |s| >= n
  {
    assert s == Below(n) + (s - Below(n));
  }

  lemma HostRests(c: Config, s: State, h: nat)
    requires Wf(c, s) && HostsOk(c, s) && TodosOk(c, s) && LocksOk(c, s) && BarrierOk(c, s) && (forall i :: 0 <= i < c.hosts ==> Idle(c, s, i))
    requires h < c.hosts && forall i, l :: 0 <= i < c.hosts && 0 <= l < c.locks ==> s.hosts[i].chan[l] == []
    ensures Rests(c, s, h)
  {
    assert GoodAt(c, s, h);
    NothingInFlight(c, s, h);
    GrantTaken(c, s, h);
    assert NetOk(c, h, s.hosts[h], h in s.arrived);
    match s.hosts[h].phase {
      case Waiting(Acq(l)) => var g := HeadHolds(c, s, h, l);
      case Waiting(Barr) => var g := SomeoneIsLate(c, s);
      case _ =>
    }
  }

  lemma RestIsQuiet(c: Config, s: State, step: Step)
    requires Wf(c, s) && AllRest(c, s) && !OfApplication(step)
    ensures !Enabled(c, s, step)
  {
    if step.h < c.hosts {
      assert Rests(c, s, step.h);
    }
  }

  lemma IdleRest(c: Config, s: State)
    requires Holds(c, s) && TodosOk(c, s) && forall i :: 0 <= i < c.hosts ==> Idle(c, s, i)
    ensures AllRest(c, s)
  {
    forall i, l | 0 <= i < c.hosts && 0 <= l < c.locks ensures s.hosts[i].chan[l] == [] {
      assert Idle(c, s, i);
      ChannelEmpty(c, s, i, l);
    }
    forall h | 0 <= h < c.hosts ensures Rests(c, s, h) { HostRests(c, s, h); }
  }

  /** The protocol has nothing left to do exactly if every host rests. */
  lemma DoneIff(c: Config, s: State)
    requires Reachable(c, s) && Wf(c, s)
    ensures !CanGoOn(c, s) <==> AllRest(c, s)
  {
    if !CanGoOn(c, s) {
      forall h | 0 <= h < c.hosts ensures Idle(c, s, h) { HostIdle(c, s, h); }
      ReachableInv(c, s);
      ReachableTodo(c, s);
      IdleRest(c, s);
    }
    if AllRest(c, s) {
      forall step | !OfApplication(step) ensures !Enabled(c, s, step) { RestIsQuiet(c, s, step); }
    }
  }

  /** If nothing can go on and nobody runs, then every host that holds a lock waits for one that another
      holds, and there are such hosts.  Barriers play no part in this. */
  lemma OnlyNestedLocksBlock(c: Config, s: State)
    requires Reachable(c, s) && Wf(c, s) && !CanGoOn(c, s) && forall h :: 0 <= h < c.hosts ==> !s.hosts[h].phase.Running?
    ensures exists h :: 0 <= h < c.hosts && |s.hosts[h].stack| >= 2
    ensures forall h :: 0 <= h < c.hosts && |s.hosts[h].stack| >= 2 ==> WaitsForLock(c, s, h)
  {
    DoneIff(c, s);
    ReachableInv(c, s);
    forall h | 0 <= h < c.hosts && |s.hosts[h].stack| >= 2 ensures WaitsForLock(c, s, h) { HolderWaits(c, s, h); }
    var h := SomeHolder(c, s);
  }

  ghost predicate WaitsForLock(c: Config, s: State, h: nat)
    requires Wf(c, s) && h < c.hosts
  {
    && s.hosts[h].phase.Waiting? && s.hosts[h].phase.op.Acq?
    && exists g :: 0 <= g < c.hosts && g != h && OnStack(s.hosts[g], s.hosts[h].phase.op.lock)
  }

  lemma HolderWaits(c: Config, s: State, h: nat)
    requires Wf(c, s) && HostsOk(c, s) && AllRest(c, s) && h < c.hosts && |s.hosts[h].stack| >= 2 && !s.hosts[h].phase.Running?
    ensures WaitsForLock(c, s, h)
  {
    assert Rests(c, s, h) && GoodAt(c, s, h);
    assert NetOk(c, h, s.hosts[h], h in s.arrived);
  }

  lemma HasFrame(x: HostState, l: nat)
    requires OnStack(x, l)
    ensures |x.stack| >= 2
  {
  }

  lemma SomeHolder(c: Config, s: State) returns (h: nat)
    requires Wf(c, s) && AllRest(c, s) && forall i :: 0 <= i < c.hosts ==> !s.hosts[i].phase.Running?
    ensures h < c.hosts && |s.hosts[h].stack| >= 2
  {
    var g: nat := 0;
    assert Rests(c, s, 0);
    if s.hosts[0].phase == Waiting(Barr) {
      g :| g < c.hosts && s.hosts[g].phase != Waiting(Barr);
    }
    assert Rests(c, s, g);
    h :| h < c.hosts && OnStack(s.hosts[h], s.hosts[g].phase.op.lock);
    HasFrame(s.hosts[h], s.hosts[g].phase.op.lock);
  }

  // ---------------------------------------------------------------- the end of what is under way

  function Rank(phase: Phase): nat {
    match phase
    case Running => 0
    case Fetching(_, _) => 1
    case Resuming(_) => 1
    case Waiting(_) => 2
    case Ending(_, _) => 3
  }

  function Sum(ns: seq<nat>): nat { if ns == [] then 0 else ns[0] + Sum(ns[1..]) }

  lemma {:induction false} SumChanged(a: seq<nat>, b: seq<nat>, h: nat)
    requires |a| == |b| && h < |a| && forall i :: 0 <= i < |a| && i != h ==> b[i] == a[i]
    ensures Sum(b) == Sum(a) - a[h] + b[h]
  {
    if h == 0 {
      assert a[1..] == b[1..];
    } else {
      SumChanged(a[1..], b[1..], h - 1);
    }
  }

  /** What a message for a lock's manager takes. */
  function Weight(m: LockMsg): nat { if m.RelMsg? then |m.parts| else 1 }

  function Weights(ms: seq<LockMsg>): nat { if ms == [] then 0 else Weight(ms[0]) + Weights(ms[1..]) }

  function ByLock(chan: seq<seq<LockMsg>>): (r: seq<nat>)
    ensures |r| == |chan| && forall l :: 0 <= l < |chan| ==> r[l] == Weights(chan[l])
  {
    seq(|chan|, l requires 0 <= l < |chan| => Weights(chan[l]))
  }

  /** What is still to be done for a host before its application thread gets on. */
  function Load(x: HostState): nat {
    (if x.getp.Some? then 1 else 0) + (if x.phase.Ending? then 3 * |x.phase.todo| else 0)
    + 2 * |x.diffs| + x.diffGrants + (if x.barr.Some? then 1 else 0) + Sum(ByLock(x.chan))
  }

  function Ranks(hosts: seq<HostState>): (r: seq<nat>)
    ensures |r| == |hosts| && forall h :: 0 <= h < |hosts| ==> r[h] == Rank(hosts[h].phase)
  {
    seq(|hosts|, h requires 0 <= h < |hosts| => Rank(hosts[h].phase))
  }

  function Loads(hosts: seq<HostState>): (r: seq<nat>)
    ensures |r| == |hosts| && forall h :: 0 <= h < |hosts| ==> r[h] == Load(hosts[h])
  {
    seq(|hosts|, h requires 0 <= h < |hosts| => Load(hosts[h]))
  }

  /** Host x has got on to y. */
  predicate Nearer(x: HostState, y: HostState) {
    Rank(y.phase) < Rank(x.phase) || (Rank(y.phase) == Rank(x.phase) && Load(y) < Load(x))
  }

  predicate AsNear(x: HostState, y: HostState) { Rank(y.phase) == Rank(x.phase) && Load(y) == Load(x) }

  lemma OneNearer(xs: seq<HostState>, ys: seq<HostState>, h: nat)
    requires |xs| == |ys| && h < |xs| && Nearer(xs[h], ys[h]) && forall i :: 0 <= i < |xs| && i != h ==> AsNear(xs[i], ys[i])
    ensures Sum(Ranks(ys)) < Sum(Ranks(xs)) || (Sum(Ranks(ys)) == Sum(Ranks(xs)) && Sum(Loads(ys)) < Sum(Loads(xs)))
  {
    SumChanged(Ranks(xs), Ranks(ys), h);
    if Rank(ys[h].phase) == Rank(xs[h].phase) { SumChanged(Loads(xs), Loads(ys), h); }
  }

  /** The oldest message for lock l has been handled. */
  lemma Handled(chan: seq<seq<LockMsg>>, chan': seq<seq<LockMsg>>, l: nat)
    requires |chan'| == |chan| && l < |chan| && |chan[l]| > 0 && chan' == chan[l := chan'[l]]
    requires
      || (chan'[l] == chan[l][1..] && Weight(chan[l][0]) > 0)
      || (|chan'[l]| > 0 && Weight(chan'[l][0]) < Weight(chan[l][0]) && chan'[l][1..] == chan[l][1..])
    ensures Sum(ByLock(chan')) < Sum(ByLock(chan))
  {
    SumChanged(ByLock(chan), ByLock(chan'), l);
  }

  /** Host h gets on, and no other host is set back. */
  ghost predicate GetsOn(c: Config, s: State, s': State, h: nat) {
    && h < c.hosts == |s.hosts| == |s'.hosts| && Nearer(s.hosts[h], s'.hosts[h])
    && forall i :: 0 <= i < c.hosts && i != h ==> AsNear(s.hosts[i], s'.hosts[i])
  }

  lemma EndPageNearer(c: Config, s: State, h: nat, p: nat)
    requires Wf(c, s) && CanEndPage(c, s, h, p)
    ensures GetsOn(c, s, DoEndPage(c, s, h, p), h)
  {
    var x, y := s.hosts[h], EndPageHost(c, s, h, p);
    assert |y.phase.todo| == |x.phase.todo| - 1;
    OneMore(x.diffs, p, Diff(x.lines[p].data, x.lines[p].twin, x.itv));
  }

  lemma OneMore(m: map<nat, Diff>, p: nat, d: Diff)
    ensures |m[p := d]| <= |m| + 1
  {
    assert m[p := d].Keys == m.Keys + {p};
  }

  lemma ServeDiffNearer(c: Config, s: State, h: nat, p: nat)
    requires Wf(c, s) && CanServeDiff(c, s, h, p)
    ensures GetsOn(c, s, DoServeDiff(c, s, h, p), h)
  {
    var d := s.hosts[h].diffs;
    assert (d - {p}).Keys == d.Keys - {p};
  }

  lemma FetchStepNearer(c: Config, s: State, step: Step)
    requires Wf(c, s) && Enabled(c, s, step) && (step.ServeGetp? || step.TakePage? || step.TakeDiffGrant?)
    ensures GetsOn(c, s, Apply(c, s, step), step.h)
  {
  }

  lemma SendRelNearer(c: Config, s: State, h: nat, parts: seq<set<nat>>)
    requires Wf(c, s) && CanRelease(c, s, h)
    ensures GetsOn(c, s, DoSendRel(c, s, h, parts), h)
  {
  }

  lemma SendStepNearer(c: Config, s: State, step: Step)
    requires Wf(c, s) && Enabled(c, s, step) && (step.SendAcq? || step.SendBarr?)
    ensures GetsOn(c, s, Apply(c, s, step), step.h)
  {
  }

  lemma GrantStepNearer(c: Config, s: State, step: Step)
    requires Wf(c, s) && Enabled(c, s, step) && (step.TakeLockGrant? || step.TakeBarrGrant?)
    ensures GetsOn(c, s, Apply(c, s, step), step.h)
  {
  }

  lemma ResumeNearer(c: Config, s: State, h: nat)
    requires Wf(c, s) && CanResume(c, s, h)
    ensures GetsOn(c, s, DoResume(c, s, h), h)
  {
  }

  lemma ServeAcqNearer(c: Config, s: State, h: nat, l: nat)
    requires Wf(c, s) && CanServeAcq(c, s, h, l)
    ensures GetsOn(c, s, DoServeAcq(c, s, h, l), h)
  {
    Handled(s.hosts[h].chan, DoServeAcq(c, s, h, l).hosts[h].chan, l);
  }

  lemma ServeWtntNearer(c: Config, s: State, h: nat, l: nat)
    requires Wf(c, s) && CanServeWtnt(c, s, h, l)
    ensures GetsOn(c, s, DoServeWtnt(c, s, h, l), h)
  {
    Handled(s.hosts[h].chan, DoServeWtnt(c, s, h, l).hosts[h].chan, l);
  }

  lemma ServeRelNearer(c: Config, s: State, h: nat, l: nat)
    requires Wf(c, s) && CanServeRel(c, s, h, l)
    ensures GetsOn(c, s, DoServeRel(c, s, h, l), h)
  {
    Handled(s.hosts[h].chan, DoServeRel(c, s, h, l).hosts[h].chan, l);
  }

  lemma ServeBarrNearer(c: Config, s: State, h: nat)
    requires Wf(c, s) && CanServeBarr(c, s, h)
    ensures GetsOn(c, s, DoServeBarr(c, s, h), h)
  {
  }

  lemma ServeStepNearer(c: Config, s: State, step: Step)
    requires Wf(c, s) && Enabled(c, s, step)
    requires step.ServeAcq? || step.ServeWtnt? || step.ServeRel? || step.ServeBarr?
    ensures GetsOn(c, s, Apply(c, s, step), step.h)
  {
    match step {
      case ServeAcq(h, l) => ServeAcqNearer(c, s, h, l);
      case ServeWtnt(h, l) => ServeWtntNearer(c, s, h, l);
      case ServeRel(h, l) => ServeRelNearer(c, s, h, l);
      case ServeBarr(h) => ServeBarrNearer(c, s, h);
    }
  }

  /** What the protocol does for a host gets the host on. */
  lemma StepNearer(c: Config, s: State, step: Step)
    requires Wf(c, s) && Enabled(c, s, step) && !OfApplication(step)
    ensures GetsOn(c, s, Apply(c, s, step), step.h)
  {
    if step.ServeGetp? || step.TakePage? || step.TakeDiffGrant? {
      FetchStepNearer(c, s, step);
    } else if step.EndPage? {
      EndPageNearer(c, s, step.h, step.p);
    } else if step.ServeDiff? {
      ServeDiffNearer(c, s, step.h, step.p);
    } else if step.SendRel? {
      SendRelNearer(c, s, step.h, step.parts);
    } else if step.SendAcq? || step.SendBarr? {
      SendStepNearer(c, s, step);
    } else if step.TakeLockGrant? || step.TakeBarrGrant? {
      GrantStepNearer(c, s, step);
    } else if step.Resume? {
      ResumeNearer(c, s, step.h);
    } else {
      ServeStepNearer(c, s, step);
    }
  }

  // ---------------------------------------------------------------- runs

  predicate CanTake(w: World, step: Step) { Wf(w.config, w.state) && Enabled(w.config, w.state, step) }

  function Taken(w: World, step: Step): World
    requires CanTake(w, step)
  {
    World(w.config, Apply(w.config, w.state, step))
  }

  /** These steps can be taken one after another. */
  predicate CanRun(w: World, steps: seq<Step>)
    decreases |steps|
  {
    steps == [] || (CanTake(w, steps[0]) && CanRun(Taken(w, steps[0]), steps[1..]))
  }

  function Ran(w: World, steps: seq<Step>): World
    requires CanRun(w, steps)
    decreases |steps|
  {
    if steps == [] then w else Ran(Taken(w, steps[0]), steps[1..])
  }

  lemma OneMoreStep(w: World, step: Step, steps: seq<Step>)
    requires CanTake(w, step) && CanRun(Taken(w, step), steps)
    ensures CanRun(w, [step] + steps) && Ran(w, [step] + steps) == Ran(Taken(w, step), steps)
  {
    assert ([step] + steps)[1..] == steps;
  }

  ghost predicate Known(w: World) { Reachable(w.config, w.state) }

  /** How much there is still to do. */
  ghost predicate Less(w: World, v: World) {
    var a, b := w.state.hosts, v.state.hosts;
    Sum(Ranks(a)) < Sum(Ranks(b)) || (Sum(Ranks(a)) == Sum(Ranks(b)) && Sum(Loads(a)) < Sum(Loads(b)))
  }

  lemma TakenIsLess(w: World, step: Step)
    requires CanTake(w, step) && !OfApplication(step)
    ensures Less(Taken(w, step), w)
  {
    StepNearer(w.config, w.state, step);
    OneNearer(w.state.hosts, Taken(w, step).state.hosts, step.h);
  }

  lemma TakenIsKnown(w: World, step: Step)
    requires Known(w) && CanTake(w, step)
    ensures Known(Taken(w, step))
  {
    var run :| IsRun(run) && run[|run| - 1] == World(w.config, w.state);
    assert Next(w, Taken(w, step));
    ExtendRun(run, Taken(w, step));
  }

  ghost predicate Unfinished(w: World) { Wf(w.config, w.state) ==> CanGoOn(w.config, w.state) }

  /** The protocol goes on, if it can. */
  lemma NextService(w: World) returns (done: bool, step: Step)
    requires Known(w)
    ensures if done then !Unfinished(w) else CanTake(w, step) && !OfApplication(step)
  {
    ReachableInv(w.config, w.state);
    done := !CanGoOn(w.config, w.state);
    step := Resume(0);
    if !done {
      step :| !OfApplication(step) && Enabled(w.config, w.state, step);
    }
  }

  predicate NoneOfApplication(steps: seq<Step>) {
    steps == [] || (!OfApplication(steps[0]) && NoneOfApplication(steps[1..]))
  }

  lemma OneMoreOwn(step: Step, steps: seq<Step>)
    requires !OfApplication(step) && NoneOfApplication(steps)
    ensures NoneOfApplication([step] + steps)
  {
    assert ([step] + steps)[1..] == steps;
  }

  lemma {:induction false} ComesToAnEnd(w: World) returns (steps: seq<Step>)
    requires Known(w)
    ensures CanRun(w, steps) && NoneOfApplication(steps) && Known(Ran(w, steps)) && !Unfinished(Ran(w, steps))
    decreases Sum(Ranks(w.state.hosts)), Sum(Loads(w.state.hosts))
  {
    var done, step := NextService(w);
    if done {
      steps := [];
    } else {
      TakenIsLess(w, step);
      TakenIsKnown(w, step);
      steps := ComesToAnEnd(Taken(w, step));
      OneMoreStep(w, step, steps);
      OneMoreOwn(step, steps);
      steps := [step] + steps;
    }
  }

  /** Whatever has happened, if no application does anything more the protocol comes to an end, and then
      every host runs, or waits for what only another host can give it. */
  lemma Settles(w: World) returns (steps: seq<Step>, end: World)
    requires Known(w)
    ensures CanRun(w, steps) && NoneOfApplication(steps) && end == Ran(w, steps)
    ensures Known(end) && Wf(end.config, end.state) && AllRest(end.config, end.state)
  {
    steps := ComesToAnEnd(w);
    end := Ran(w, steps);
    DoneIff(end.config, end.state);
  }

  // ---------------------------------------------------------------- accesses

  /** What has to happen before a running host can write page p. */
  function ToWrite(w: World, h: nat, p: nat): seq<Step>
    requires Wf(w.config, w.state) && h < w.config.hosts && p < w.config.pages
  {
    if !Remote(w.config, h, p) then [HomeFault(h, p)]
    else match w.state.hosts[h].lines[p].state
      case RW => []
      case RO => [Upgrade(h, p)]
      case _ => [Fault(h, p, true), ServeGetp(h), TakePage(h)]
  }

  predicate CanWriteAt(w: World, h: nat, p: nat, u: nat) {
    && Wf(w.config, w.state) && p < w.config.pages
    && if Remote(w.config, h, p) then CanWrite(w.config, w.state, h, p, u) else CanHomeWrite(w.config, w.state, h, p, u)
  }

  lemma Faulted(c: Config, s: State, h: nat, p: nat)
    requires Wf(c, s) && CanFault(c, s, h, p)
    ensures var s' := DoFault(c, s, h, p, true);
      && Wf(c, s') && s'.hosts[h].getp == Some(p) && s'.hosts[h].phase == Fetching(p, true)
  {
  }

  lemma GetpServed(c: Config, s: State, h: nat, p: nat)
    requires Wf(c, s) && h < c.hosts && p < c.pages && s.hosts[h].getp == Some(p) && s.hosts[h].phase == Fetching(p, true)
    ensures CanServeGetp(c, s, h)
    ensures var s' := DoServeGetp(c, s, h);
      && Wf(c, s') && CanTakePage(c, s', h) && s'.hosts[h].pageGrant.value.0 == p && s'.hosts[h].phase == Fetching(p, true)
  {
  }

  lemma PageTaken(c: Config, s: State, h: nat, p: nat, u: nat)
    requires Wf(c, s) && CanTakePage(c, s, h) && s.hosts[h].pageGrant.value.0 == p && s.hosts[h].phase == Fetching(p, true)
    requires Remote(c, h, p) && u < UNITS
    ensures CanWriteAt(World(c, DoTakePage(c, s, h)), h, p, u)
  {
  }

  lemma LastStep(w: World, step: Step)
    requires CanTake(w, step)
    ensures CanRun(w, [step]) && Ran(w, [step]) == Taken(w, step)
  {
    OneMoreStep(w, step, []);
    assert [step] + [] == [step];
  }

  lemma FetchGoesThrough(w: World, h: nat, p: nat, u: nat)
    requires Wf(w.config, w.state) && CanFault(w.config, w.state, h, p) && u < UNITS
    ensures var steps := [Fault(h, p, true), ServeGetp(h), TakePage(h)]; CanRun(w, steps) && CanWriteAt(Ran(w, steps), h, p, u)
  {
    Faulted(w.config, w.state, h, p);
    var faulted := Taken(w, Fault(h, p, true));
    GetpServed(w.config, faulted.state, h, p);
    var served := Taken(faulted, ServeGetp(h));
    PageTaken(w.config, served.state, h, p, u);
    LastStep(served, TakePage(h));
    OneMoreStep(faulted, ServeGetp(h), [TakePage(h)]);
    assert [ServeGetp(h)] + [TakePage(h)] == [ServeGetp(h), TakePage(h)];
    OneMoreStep(w, Fault(h, p, true), [ServeGetp(h), TakePage(h)]);
    assert [Fault(h, p, true)] + [ServeGetp(h), TakePage(h)] == [Fault(h, p, true), ServeGetp(h), TakePage(h)];
  }

  lemma UpgradeGoesThrough(c: Config, s: State, h: nat, p: nat, u: nat)
    requires Wf(c, s) && CanUpgrade(c, s, h, p) && u < UNITS
    ensures CanWriteAt(World(c, DoUpgrade(c, s, h, p)), h, p, u)
  {
  }

  /** A host that runs can write any unit of any page: a fault, the GETP and its answer are all it takes. */
  lemma WriteGoesThrough(w: World, h: nat, p: nat, u: nat)
    requires Wf(w.config, w.state)
    requires h < w.config.hosts && w.state.hosts[h].phase.Running? && p < w.config.pages && u < UNITS
    ensures CanRun(w, ToWrite(w, h, p)) && CanWriteAt(Ran(w, ToWrite(w, h, p)), h, p, u)
  {
    if !Remote(w.config, h, p) {
      LastStep(w, HomeFault(h, p));
    } else if w.state.hosts[h].lines[p].state == RO {
      LastStep(w, Upgrade(h, p));
      UpgradeGoesThrough(w.config, w.state, h, p, u);
    } else if w.state.hosts[h].lines[p].state != RW {
      FetchGoesThrough(w, h, p, u);
    }
  }

  /** A page that has lost its slot is fetched again by the next access. */
  lemma EvictedIsFetched(c: Config, s: State, h: nat, p: nat, u: nat)
    requires Wf(c, s) && CanEvict(c, s, h, p) && Remote(c, h, p)
    ensures var s' := DoEvict(c, s, h, p);
      Wf(c, s') && CanFault(c, s', h, p) && !CanWrite(c, s', h, p, u) && !CanUpgrade(c, s', h, p)
  {
  }
}
