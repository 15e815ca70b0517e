/** The invariants hold in every state of every run. */
module ProtocolRuns {
  import opened Protocol
  import opened ProtocolInv
  import opened ProtocolSteps
  import opened ProtocolMigration

  /** The invariant of a run's states. */
  ghost predicate Sound(w: World) { Holds(w.config, w.state) && GrantsAgree(w.state) }

  lemma StartSound(w: World)
    requires Init(w.config, w.state)
    ensures Sound(w)
  {
    InitInv(w.config, w.state);
    assert forall h :: 0 <= h < |w.state.hosts| ==> InitHost(w.config, w.state.hosts[h]);
  }

  lemma NextSound(v: World, w: World)
    requires Sound(v) && Next(v, w)
    ensures Sound(w)
  {
    if step :| Enabled(v.config, v.state, step) && w == World(v.config, Apply(v.config, v.state, step)) {
      StepInv(v.config, v.state, step);
      StepGrants(v.config, v.state, step);
    } else {
      var k :| w == Migrated(v.config, v.state, k);
      MigrateInv(v.config, v.state, k);
    }
  }

  /** A run without its last step, and that step. */
  lemma ShorterRun(run: seq<World>)
    requires IsRun(run) && |run| > 1
    ensures IsRun(run[..|run| - 1]) && Next(run[|run| - 2], run[|run| - 1])
  {
    var shorter := run[..|run| - 1];
    assert forall i :: 0 <= i < |shorter| ==> shorter[i] == run[i];
    assert Next(run[|run| - 2], run[|run| - 2 + 1]);
  }

  lemma ExtendRun(run: seq<World>, w: World)
    requires IsRun(run) && Next(run[|run| - 1], w)
    ensures IsRun(run + [w]) && Reachable(w.config, w.state)
  {
    var longer := run + [w];
    forall i | 0 <= i < |longer| - 1 ensures Next(longer[i], longer[i + 1]) {
      if i < |run| - 1 { assert Next(run[i], run[i + 1]); }
    }
    assert IsRun(longer) && longer[|longer| - 1] == World(w.config, w.state);
  }

  lemma {:induction false} RunInv(run: seq<World>)
    requires IsRun(run)
    ensures Sound(run[|run| - 1])
  {
    if |run| == 1 {
      StartSound(run[0]);
    } else {
      ShorterRun(run);
      RunInv(run[..|run| - 1]);
      NextSound(run[|run| - 2], run[|run| - 1]);
    }
  }

  lemma ReachableInv(c: Config, s: State)
    requires Reachable(c, s)
    ensures Holds(c, s) && GrantsAgree(s)
  {
    var run :| IsRun(run) && run[|run| - 1] == World(c, s);
    RunInv(run);
  }

  /** One part of the invariant at a time. */
  lemma ReachableGood(c: Config, s: State, h: nat)
    requires Reachable(c, s) && Wf(c, s) && h < c.hosts
    ensures GoodAt(c, s, h)
  {
    ReachableInv(c, s);
  }

  lemma ReachableStatus(c: Config, s: State, h: nat, l: nat)
    requires Reachable(c, s) && Wf(c, s) && h < c.hosts && l < c.locks
    ensures StatusOk(s.hosts[h], s.locks[l], h, l)
  {
    ReachableInv(c, s);
  }

  lemma ReachableScope(c: Config, s: State, h: nat, l: nat)
    requires Reachable(c, s) && Wf(c, s) && h < c.hosts && l < c.locks
    ensures ScopeOk(c, s, h, l)
  {
    ReachableInv(c, s);
  }
}
