/** What the protocol promises, in every state of every run. */
module ProtocolTheorems {
  import opened Pages
  import opened Protocol
  import opened ProtocolInv
  import opened ProtocolHosts
  import opened ProtocolLocks
  import opened ProtocolBarrier
  import opened ProtocolReports
  import opened ProtocolSteps
  import opened ProtocolMigration
  import opened ProtocolRuns

  // ---------------------------------------------------------------- barriers

  /** Barrier coherence.  After a host has handled its barrier grant, every copy it still holds is
      the home copy as it stood when the last host arrived. */
  lemma BarrierCoherence(c: Config, s: State, h: nat, p: nat)
    requires Reachable(c, s) && Wf(c, s) && CanTakeBarrGrant(c, s, h) && p < c.pages && Remote(c, h, p)
    ensures DoTakeBarrGrant(c, s, h).hosts[h].lines[p].Valid() ==>
      DoTakeBarrGrant(c, s, h).hosts[h].lines[p].data == s.snapshot[p]
  {
    ReachableInv(c, s);
    assert SnapOk(c, s, h, p);
  }

  /** The copy that migpage would turn into the new home.  A host that alone reported a page, and still
      holds it, keeps it when it handles the grant, and the copy is the home's of the last arrival. */
  lemma SoleWriterIsCurrent(c: Config, s: State, h: nat, p: nat)
    requires Reachable(c, s) && Wf(c, s) && CanTakeBarrGrant(c, s, h) && p < c.pages && Remote(c, h, p)
    requires p in s.hosts[h].barrGrant.value && s.hosts[h].barrGrant.value[p].from == h
    requires s.hosts[h].lines[p].Valid()
    ensures DoTakeBarrGrant(c, s, h).hosts[h].lines[p] == s.hosts[h].lines[p]
    ensures s.hosts[h].lines[p].data == s.snapshot[p]
  {
    BarrierCoherence(c, s, h, p);
  }

  /** Home migration.  When all hosts have handled a grant with migration on, the result is again a
      state of a run, for the new home map, so everything proved here goes on holding.  The home copies
      are unchanged, although a moved page's is now its new home's; that host has given up its cached
      copy; and every copy that can still be read, the one the old home may keep included, is the home
      copy as it stood when the last host arrived. */
  lemma MigrationCoherence(c: Config, s: State, k: Slots, h: nat, p: nat)
    requires Reachable(c, s) && Wf(c, s) && CanMigrate(c, s) && h < c.hosts && p < c.pages
    ensures Reachable(Migrated(c, s, k).config, Migrated(c, s, k).state)
    ensures MigratedMem(c, s)[p] == s.mem[p] == s.snapshot[p]
    ensures NewHome(c, s, p) == h ==> MigratedLine(c, s, k, h, p).state == UNMAP
    ensures Moves(c, s, p) && c.homeOf[p] == h && p !in k.dropped ==> MigratedLine(c, s, k, h, p).Valid()
    ensures MigratedLine(c, s, k, h, p).Valid() ==> MigratedLine(c, s, k, h, p).data == s.snapshot[p]
  {
    MigratedReachable(c, s, k);
    HomeIsSnapshot(c, s, p);
    ReachableInv(c, s);
    MigratedPage(c, s, k, h, p);
  }

  /** A cached copy goes at a migrating barrier exactly if another host reported its page, whatever slots are
      taken, and one that stays is as it was. */
  lemma MigrationInvalidates(c: Config, s: State, k: Slots, h: nat, p: nat)
    requires Wf(c, s) && CanMigrate(c, s) && h < c.hosts && p < c.pages && Remote(c, h, p) && NewHome(c, s, p) != h
    ensures var n, x, y := s.hosts[h].barrGrant.value, s.hosts[h].lines[p], MigratedLine(c, s, k, h, p);
      && (y.Valid() <==> x.Valid() && !(p in n && n[p].from != h))
      && (y.Valid() ==> y == x)
  {
  }

  /** Past a barrier, and before anything else has happened, the home copies are those of the last
      arrival. */
  lemma HomeIsSnapshot(c: Config, s: State, p: nat)
    requires Reachable(c, s) && Wf(c, s) && CanMigrate(c, s) && p < c.pages
    ensures s.mem[p] == s.snapshot[p]
  {
    ReachableInv(c, s);
    forall u | 0 <= u < UNITS ensures s.mem[p][u] == s.snapshot[p][u] { NothingWritten(c, s, p, u); }
  }

  lemma MigratedReachable(c: Config, s: State, k: Slots)
    requires Reachable(c, s) && Wf(c, s) && CanMigrate(c, s)
    ensures Reachable(Migrated(c, s, k).config, Migrated(c, s, k).state)
  {
    var run :| IsRun(run) && run[|run| - 1] == World(c, s);
    ExtendRun(run, Migrated(c, s, k));
  }

  lemma MigratedPage(c: Config, s: State, k: Slots, h: nat, p: nat)
    requires Holds(c, s) && GrantsAgree(s) && CanMigrate(c, s) && h < c.hosts && p < c.pages
    ensures MigratedMem(c, s)[p] == s.mem[p]
    ensures NewHome(c, s, p) == h ==> MigratedLine(c, s, k, h, p).state == UNMAP
    ensures MigratedLine(c, s, k, h, p).Valid() ==> MigratedLine(c, s, k, h, p).data == s.mem[p]
  {
    assert GoodAt(c, s, h);
    if Moves(c, s, p) { MovedCopyIsHome(c, s, p); }
    if MigratedLine(c, s, k, h, p).Valid() { MigratedCopy(c, s, k, h, p); }
  }

  /** The step at which the last barrier of the run completed. */
  ghost predicate CompletedAt(run: seq<World>, i: nat)
    requires 0 < |run|
  {
    && i < |run| - 1
    && run[i + 1].state.barrScope == run[i].state.barrScope + 1 == run[|run| - 1].state.barrScope
    && run[|run| - 1].state.snapshot == run[i].state.mem
    && run[i].state.acqc + 1 == run[i].config.hosts
  }

  predicate KeepsOrTakes(c: Config, s: State, s': State) {
    || (s'.barrScope == s.barrScope && s'.snapshot == s.snapshot)
    || (s'.barrScope == s.barrScope + 1 && s'.snapshot == s.mem && s.acqc + 1 == c.hosts)
  }

  lemma StepSnapshot(c: Config, s: State, step: Step)
    requires Wf(c, s) && Enabled(c, s, step)
    ensures KeepsOrTakes(c, s, Apply(c, s, step))
  {
  }

  lemma NextSnapshot(v: World, w: World)
    requires Next(v, w)
    ensures KeepsOrTakes(v.config, v.state, w.state)
  {
    if step :| Enabled(v.config, v.state, step) && w == World(v.config, Apply(v.config, v.state, step)) {
      StepSnapshot(v.config, v.state, step);
    }
  }

  /** The snapshot of BarrierCoherence is the home memory of the state in which the last of the
      hosts arrived. */
  lemma {:induction false} SnapshotIsHomeAtLastArrival(run: seq<World>) returns (i: nat)
    requires IsRun(run) && run[|run| - 1].state.barrScope > 0
    ensures CompletedAt(run, i)
  {
    var n := |run| - 1;
    NotAtStart(run);
    ShorterRun(run);
    NextSnapshot(run[n - 1], run[n]);
    if run[n].state.barrScope == run[n - 1].state.barrScope {
      i := SnapshotIsHomeAtLastArrival(run[..n]);
      CompletedLater(run, n, i);
    } else {
      i := n - 1;
    }
  }

  lemma NotAtStart(run: seq<World>)
    requires IsRun(run) && run[|run| - 1].state.barrScope > 0
    ensures |run| > 1
  {
  }

  lemma CompletedLater(run: seq<World>, n: nat, i: nat)
    requires 0 < n == |run| - 1 && CompletedAt(run[..n], i)
    requires run[n].state.barrScope == run[n - 1].state.barrScope && run[n].state.snapshot == run[n - 1].state.snapshot
    ensures CompletedAt(run, i)
  {
    assert run[..n][n - 1] == run[n - 1] && run[..n][i] == run[i] && run[..n][i + 1] == run[i + 1];
  }

  lemma OnlyWriter(c: Config, s: State, i: nat, p: nat, u: nat)
    requires Wf(c, s) && i < c.hosts && p < c.pages && u < UNITS && UnitAt(c, s, i, p, u) && GoodAt(c, s, i)
    requires s.hosts[i].phase == Waiting(Barr) && s.hosts[i].barrGrant.None?
    requires Wrote(s, i, p, u) && OnlyBy(c, s, i, p, u)
    ensures s.mem[p][u] == s.last[Site(i, p, u)]
  {
  }

  /** No update is lost.  When a barrier completes, a unit that no host wrote since the one before
      is what it was then, and a unit that one host wrote has the last value that host wrote,
      whatever the other hosts wrote elsewhere in the page. */
  lemma BarrierMerges(c: Config, s: State, h: nat, p: nat, u: nat)
    requires Reachable(c, s) && Wf(c, s) && CanServeBarr(c, s, h) && LastArrival(c, s)
    requires p < c.pages && u < UNITS
    ensures NobodyWrote(c, s, p, u) ==> DoServeBarr(c, s, h).snapshot[p][u] == s.snapshot[p][u]
    ensures forall i :: 0 <= i < c.hosts && Wrote(s, i, p, u) && OnlyBy(c, s, i, p, u) ==>
      DoServeBarr(c, s, h).snapshot[p][u] == s.last[Site(i, p, u)]
  {
    ReachableInv(c, s);
    AllArrived(c, s, h);
    assert HomeUnitOk(c, s, p, u);
    forall i | 0 <= i < c.hosts && Wrote(s, i, p, u) && OnlyBy(c, s, i, p, u)
      ensures s.mem[p][u] == s.last[Site(i, p, u)]
    {
      assert UnitAt(c, s, i, p, u) && GoodAt(c, s, i);
      OnlyWriter(c, s, i, p, u);
    }
  }

  /** Nobody leaves barrier k before everybody has arrived at it, and the numbers of barriers two
      hosts have completed differ by at most one. */
  lemma BarrierSafety(c: Config, s: State, h: nat, i: nat)
    requires Reachable(c, s) && h < c.hosts && i < c.hosts && |s.hosts| == c.hosts
    ensures s.hosts[h].epoch <= s.hosts[i].barriers
    ensures s.hosts[h].epoch <= s.hosts[i].epoch + 1
    ensures s.hosts[i].epoch <= s.hosts[i].barriers <= s.hosts[i].epoch + 1
  {
    ReachableInv(c, s);
    assert CountsOk(s, h) && CountsOk(s, i) && GoodAt(c, s, i);
  }

  /** When a barrier completes the grant names every reported page, its writer when only one host
      reported it, and MAXHOSTS when several did. */
  lemma WritersClassified(c: Config, s: State, h: nat, p: nat)
    requires Reachable(c, s) && Wf(c, s) && CanServeBarr(c, s, h) && LastArrival(c, s)
    ensures var all := s.reported[h := s.hosts[h].barr.value];
      && all.Keys == Below(c.hosts)
      && (forall i :: 0 <= i < c.hosts ==> DoServeBarr(c, s, h).hosts[i].barrGrant.Some?)
      && (forall i :: 0 <= i < c.hosts ==> Classified(all, DoServeBarr(c, s, h).hosts[i].barrGrant.value, p))
  {
    ReachableInv(c, s);
    assert GoodAt(c, s, h);
    AllReported(c, s, h);
    RecordAllClassified(s.reported, s.barrNotices, h, s.hosts[h].barr.value, s.barrScope);
  }

  /** The last report completes the set of reports, and everybody is sent the notices. */
  lemma AllReported(c: Config, s: State, h: nat)
    requires Wf(c, s) && CanServeBarr(c, s, h) && LastArrival(c, s) && HostsOk(c, s) && BarrierOk(c, s)
    ensures s.reported[h := s.hosts[h].barr.value].Keys == Below(c.hosts)
    ensures var grant := Some(Record(s.barrNotices, s.hosts[h].barr.value, h, s.barrScope));
      forall i :: 0 <= i < c.hosts ==> DoServeBarr(c, s, h).hosts[i].barrGrant == grant
  {
    var all := s.reported[h := s.hosts[h].barr.value];
    AllArrived(c, s, h);
    assert all.Keys == s.arrived + {h};
    forall k: nat ensures k in all.Keys <==> k in Below(c.hosts) {
    }
  }

  // ---------------------------------------------------------------- scopes

  /** At the end of an interval the list of the innermost level is what was dirtied at that level. */
  lemma TopComplete(c: Config, x: HostState)
    requires WfHost(c, x) && ScopesOk(c, x) && forall q: nat :: !Unlisted(c, x, q)
    ensures Top(x).pages == Top(x).dirtied
  {
    var t := |x.stack| - 1;
    forall q: nat ensures q in x.stack[t].pages <==> q in x.stack[t].dirtied {
      assert q in x.stack[t].dirtied <==> Listed(x.stack, t, q) || Unlisted(c, x, q);
    }
  }

  /** An unlock reports exactly the pages dirtied since its lock was taken, those of sections nested
      inside it too, in as many messages as they need, and gives them up to the enclosing level. */
  lemma UnlockReports(c: Config, s: State, h: nat, parts: seq<set<nat>>)
    requires Reachable(c, s) && Wf(c, s) && CanSendRel(c, s, h, parts)
    ensures var x, y := s.hosts[h], DoSendRel(c, s, h, parts).hosts[h];
      && y.chan[Top(x).lock] == x.chan[Top(x).lock] + [RelMsg(parts, x.epoch, x.itv)]
      && Union(parts) == Top(x).dirtied <= Top(y).pages
    ensures |parts| == 1 <==> |Top(s.hosts[h]).dirtied| <= LASTPAGES
  {
    ReachableGood(c, s, h);
    ReadyTop(c, s, h);
    ReleaseOf(c, s, h, parts);
    OneMessageIff(Top(s.hosts[h]).pages, parts);
  }

  lemma ReleaseOf(c: Config, s: State, h: nat, parts: seq<set<nat>>)
    requires Wf(c, s) && CanRelease(c, s, h)
    ensures var x, y := s.hosts[h], DoSendRel(c, s, h, parts).hosts[h];
      && y.chan[Top(x).lock] == x.chan[Top(x).lock] + [RelMsg(parts, x.epoch, x.itv)]
      && Top(x).pages <= Top(y).pages
  {
  }

  lemma ReadyTop(c: Config, s: State, h: nat)
    requires Wf(c, s) && h < c.hosts && GoodAt(c, s, h) && ReadyToSend(s.hosts[h])
    ensures Top(s.hosts[h]).pages == Top(s.hosts[h]).dirtied
  {
    ReadyMeansQuiet(c, s, h);
    TopComplete(c, s.hosts[h]);
  }

  /** A barrier report holds exactly the pages dirtied since the barrier before, in whatever nesting
      of lock sections. */
  lemma BarrierReports(c: Config, s: State, h: nat)
    requires Reachable(c, s) && Wf(c, s) && CanSendBarr(c, s, h)
    ensures DoSendBarr(c, s, h).hosts[h].barr == Some(s.hosts[h].stack[0].dirtied)
  {
    ReachableGood(c, s, h);
    ReadyTop(c, s, h);
  }

  // ---------------------------------------------------------------- locks

  predicate Active(x: HostState, l: nat)
    requires l < |x.chan|
  {
    Owns(x, l) || Releasing(x, l)
  }

  /** At most one host holds a lock or has its grant or its release in flight; it is the head of the
      manager's queue, and a queue that is not empty has such a head. */
  lemma LockSafety(c: Config, s: State, h: nat, l: nat)
    requires Reachable(c, s) && Wf(c, s) && h < c.hosts && l < c.locks
    ensures Active(s.hosts[h], l) <==> Heads(s.locks[l].acqs, h)
    ensures Active(s.hosts[h], l) ==> forall i :: 0 <= i < c.hosts && Active(s.hosts[i], l) ==> i == h
  {
    ReachableInv(c, s);
    forall i | 0 <= i < c.hosts ensures Active(s.hosts[i], l) <==> Heads(s.locks[l].acqs, i) {
      assert StatusOk(s.hosts[i], s.locks[l], i, l);
      if Heads(s.locks[l].acqs, i) { HeadActive(c, s, i, l); }
    }
  }

  lemma {:induction false} DistinctFit(hosts: seq<nat>, n: nat)
    requires forall i :: 0 <= i < |hosts| ==> hosts[i] < n
    requires forall i, j :: 0 <= i < j < |hosts| ==> hosts[i] != hosts[j]
    ensures |hosts| <= n
  {
    var all := set i | 0 <= i < |hosts| :: hosts[i];
    DistinctCount(hosts);
    assert all <= Below(n);
    SubsetSize(all, Below(n));
  }

  lemma {:induction false} DistinctCount(hosts: seq<nat>)
    requires forall i, j :: 0 <= i < j < |hosts| ==> hosts[i] != hosts[j]
    ensures |set i | 0 <= i < |hosts| :: hosts[i]| == |hosts|
  {
    var all := set i | 0 <= i < |hosts| :: hosts[i];
    if |hosts| > 0 {
      var n := |hosts| - 1;
      var front := hosts[..n];
      DistinctCount(front);
      var rest := set i | 0 <= i < |front| :: front[i];
      assert forall x :: x in all <==> x in rest + {hosts[n]};
      assert all == rest + {hosts[n]};
    }
  }

  lemma SubsetSize(a: set<nat>, b: set<nat>)
    requires a <= b
    ensures |a| <= |b|
  {
    assert |b - a| == |b| - |a|;
  }

  /** The queue of a lock fits the array kept for it, and locks are granted in the order in which
      the requests arrived. */
  lemma LockFairness(c: Config, s: State, l: nat)
    requires Reachable(c, s) && Wf(c, s) && l < c.locks
    ensures |s.locks[l].acqs| <= c.hosts <= MAXHOSTS
    ensures s.locks[l].grants <= s.locks[l].arrivals
    ensures |s.locks[l].arrivals| - |s.locks[l].grants| == if s.locks[l].acqs == [] then 0 else |s.locks[l].acqs| - 1
  {
    ReachableInv(c, s);
    assert QueueOk(c, s.locks[l]) && FifoOk(s.locks[l]);
    DistinctFit(HostsIn(s.locks[l].acqs), c.hosts);
  }

  lemma UnseenRelease(c: Config, s: State, h: nat, l: nat, r: Release)
    requires Wf(c, s) && Core(c, s) && ReleasesOk(c, s) && h < c.hosts && l < c.locks
    requires s.hosts[h].lockGrant.Some? && s.hosts[h].lockGrant.value.lock == l
    requires r in s.locks[l].hist && r.epoch >= s.hosts[h].epoch && r.scope > s.hosts[h].myscope[l]
    ensures ReleaseOk(c, s, l, r) && r.from != h
    ensures r !in s.locks[l].lost ==> Told(c, h, s.hosts[h].lockGrant.value.notices, r)
  {
    assert LogOk(c, s, l) && LockGrantOk(c, s, h, l);
    assert ReleaseOk(c, s, l, r);
  }

  lemma NoOldDiffs(c: Config, s: State, l: nat, r: Release, p: nat)
    requires Wf(c, s) && Core(c, s) && l < c.locks && ReleaseOk(c, s, l, r) && p in s.hosts[r.from].diffs
    ensures s.hosts[r.from].diffs[p].itv > r.itv
  {
    assert GoodAt(c, s, r.from);
  }

  lemma NotAhead(c: Config, s: State, h: nat, i: nat)
    requires Wf(c, s) && Core(c, s) && CanTakeLockGrant(c, s, h) && i < c.hosts
    ensures s.hosts[i].epoch <= s.hosts[h].epoch
  {
    assert GoodAt(c, s, h) && CountsOk(s, h) && CountsOk(s, i);
  }

  /** Lock coherence.  When a host handles the grant of lock l, then for every release of l, or part of
      one, that was made in the host's own barrier epoch and that it had not seen: another host made it;
      none of the diffs its sender produced up to it is still on its way; and unless the manager lost
      it, every page it reported that is not homed here is invalid here. */
  lemma LockCoherence(c: Config, s: State, h: nat, r: Release)
    requires Reachable(c, s) && Wf(c, s) && CanTakeLockGrant(c, s, h)
    requires var l := s.hosts[h].lockGrant.value.lock;
      r in s.locks[l].hist && r.epoch >= s.hosts[h].epoch && r.scope > s.hosts[h].myscope[l]
    ensures r.from != h && r.from < c.hosts && r.epoch == s.hosts[h].epoch
    ensures forall p :: p in s.hosts[r.from].diffs ==> s.hosts[r.from].diffs[p].itv > r.itv
    ensures r !in s.locks[s.hosts[h].lockGrant.value.lock].lost ==>
      forall p :: p in r.pages && p < c.pages && Remote(c, h, p) ==> !DoTakeLockGrant(c, s, h).hosts[h].lines[p].Valid()
  {
    ReachableInv(c, s);
    var l := s.hosts[h].lockGrant.value.lock;
    UnseenRelease(c, s, h, l, r);
    NotAhead(c, s, h, r.from);
    forall p | p in s.hosts[r.from].diffs ensures s.hosts[r.from].diffs[p].itv > r.itv {
      NoOldDiffs(c, s, l, r, p);
    }
  }

  /** And nothing else is invalidated: a copy goes exactly when a release that the grant was cut from and
      this host had not seen names it, and of the releases of this epoch these are the ones not lost. */
  lemma GrantInvalidates(c: Config, s: State, h: nat, p: nat)
    requires Reachable(c, s) && Wf(c, s) && CanTakeLockGrant(c, s, h)
    requires p < c.pages && Remote(c, h, p) && s.hosts[h].lines[p].Valid()
    ensures var x, g := s.hosts[h], s.hosts[h].lockGrant.value;
      && (!DoTakeLockGrant(c, s, h).hosts[h].lines[p].Valid() <==> Founded(g.log, x.myscope[g.lock], p))
      && (forall r :: r in s.locks[g.lock].hist && r.epoch >= x.epoch ==> (r in g.log <==> r !in s.locks[g.lock].lost))
  {
    ReachableInv(c, s);
    assert LockGrantOk(c, s, h, s.hosts[h].lockGrant.value.lock);
    GrantNames(c, h, s.hosts[h], s.hosts[h].lockGrant.value, p);
  }

  lemma GrantNames(c: Config, h: nat, x: HostState, g: LockGrant, p: nat)
    requires ValidConfig(c) && |x.lines| == c.pages && p < c.pages && Remote(c, h, p) && x.lines[p].Valid()
    requires g.lock < |x.myscope|
    requires forall r :: r in g.log && r.scope > x.myscope[g.lock] ==> Told(c, h, g.notices, r)
    requires p in g.notices ==> Founded(g.log, x.myscope[g.lock], p)
    ensures !Invalidated(c, h, x.lines, g.notices)[p].Valid() <==> Founded(g.log, x.myscope[g.lock], p)
  {
    if Founded(g.log, x.myscope[g.lock], p) {
      var r :| r in g.log && r.scope > x.myscope[g.lock] && p in r.pages;
      assert Told(c, h, g.notices, r);
    }
  }

  /** Invalidating a dirty copy at a grant loses no local write: everything this host had changed is
      listed for its next reports and has been merged at the home, with no diff left on its way; and in
      each unit that no other host has written since the barrier, the home has what the copy had. */
  lemma InvalidationLosesNothing(c: Config, s: State, h: nat, p: nat, u: nat)
    requires Reachable(c, s) && Wf(c, s) && CanTakeLockGrant(c, s, h)
    requires p < c.pages && Remote(c, h, p) && u < UNITS && s.hosts[h].lines[p].Valid()
    ensures NoDiffs(s.hosts[h]) && !Unlisted(c, s.hosts[h], p)
    ensures OnlyBy(c, s, h, p, u) ==> s.hosts[h].lines[p].data[u] == s.mem[p][u]
  {
    ReachableInv(c, s);
    assert UnitAt(c, s, h, p, u) && GoodAt(c, s, h);
  }

  // ---------------------------------------------------------------- the network

  /** Every message in flight can be handled: no handler's assertion fails. */
  lemma MessagesAccepted(c: Config, s: State, h: nat)
    requires Reachable(c, s) && Wf(c, s) && h < c.hosts
    ensures s.hosts[h].getp.Some? ==> CanServeGetp(c, s, h)
    ensures s.hosts[h].pageGrant.Some? ==> CanTakePage(c, s, h)
    ensures forall p :: p in s.hosts[h].diffs ==> CanServeDiff(c, s, h, p)
    ensures s.hosts[h].diffGrants > 0 ==> CanTakeDiffGrant(c, s, h)
    ensures s.hosts[h].barr.Some? ==> CanServeBarr(c, s, h)
    ensures s.hosts[h].barrGrant.Some? ==> CanTakeBarrGrant(c, s, h)
  {
    ReachableGood(c, s, h);
  }

  lemma LockMessagesAccepted(c: Config, s: State, h: nat, l: nat)
    requires Reachable(c, s) && Wf(c, s) && h < c.hosts && l < c.locks
    ensures |s.hosts[h].chan[l]| > 0 ==>
      CanServeAcq(c, s, h, l) || CanServeWtnt(c, s, h, l) || CanServeRel(c, s, h, l)
    ensures Releasing(s.hosts[h], l) ==> Heads(s.locks[l].acqs, h)
    ensures s.hosts[h].lockGrant.Some? && s.hosts[h].lockGrant.value.lock == l ==> CanTakeLockGrant(c, s, h)
  {
    ReachableGood(c, s, h);
    ReachableStatus(c, s, h, l);
    ReachableScope(c, s, h, l);
  }

  /** No step sends a message into a slot that still holds one, so one slot of each kind per host
      (one per page for diffs) is all the network these steps need. */
  lemma SlotsSuffice(c: Config, s: State, step: Step)
    requires Reachable(c, s) && Wf(c, s) && Enabled(c, s, step)
    ensures step.Fault? ==> NoFetch(s.hosts[step.h])
    ensures step.ServeGetp? ==> s.hosts[step.h].pageGrant.None?
    ensures step.EndPage? ==> step.p !in s.hosts[step.h].diffs
    ensures step.SendBarr? ==> NoBarr(s.hosts[step.h])
    ensures step.ServeBarr? && LastArrival(c, s) ==> forall i :: 0 <= i < c.hosts ==> s.hosts[i].barrGrant.None?
    ensures step.ServeAcq? && s.locks[step.l].acqs == [] ==> s.hosts[step.h].lockGrant.None?
    ensures step.ServeRel? && |s.locks[step.l].acqs| > 1 ==>
      s.locks[step.l].acqs[1].host < c.hosts && s.hosts[s.locks[step.l].acqs[1].host].lockGrant.None?
  {
    ReachableInv(c, s);
    HostSlots(c, s, step);
    BarrierSlots(c, s, step);
    LockSlots(c, s, step);
  }

  lemma HostSlots(c: Config, s: State, step: Step)
    requires Wf(c, s) && Enabled(c, s, step) && HostsOk(c, s)
    ensures step.Fault? ==> NoFetch(s.hosts[step.h])
    ensures step.ServeGetp? ==> s.hosts[step.h].pageGrant.None?
    ensures step.EndPage? ==> step.p !in s.hosts[step.h].diffs
    ensures step.SendBarr? ==> NoBarr(s.hosts[step.h])
  {
    assert GoodAt(c, s, step.h);
  }

  lemma BarrierSlots(c: Config, s: State, step: Step)
    requires Wf(c, s) && Enabled(c, s, step) && HostsOk(c, s) && BarrierOk(c, s)
    ensures step.ServeBarr? && LastArrival(c, s) ==> forall i :: 0 <= i < c.hosts ==> s.hosts[i].barrGrant.None?
  {
    if step.ServeBarr? && LastArrival(c, s) { AllArrived(c, s, step.h); }
  }

  lemma LockSlots(c: Config, s: State, step: Step)
    requires Wf(c, s) && Enabled(c, s, step) && LocksOk(c, s) && HostsOk(c, s)
    ensures step.ServeAcq? && s.locks[step.l].acqs == [] ==> s.hosts[step.h].lockGrant.None?
    ensures step.ServeRel? && |s.locks[step.l].acqs| > 1 ==>
      s.locks[step.l].acqs[1].host < c.hosts && s.hosts[s.locks[step.l].acqs[1].host].lockGrant.None?
  {
    if step.ServeAcq? { ServeAcqStatus(c, s, step.h, step.l); }
    if step.ServeRel? { ServeRelStatus(c, s, step.h, step.l); }
  }
}
