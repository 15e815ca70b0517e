/** Home migration keeps every invariant, for the new home map: the copy that becomes the home copy is
    the old one's equal, and what the old home keeps of the page is a copy like any other. */
module ProtocolMigration {
  import opened Pages
  import opened Protocol
  import opened ProtocolInv
  import opened ProtocolLocks
  import opened ProtocolBarrier
  import opened ProtocolUnits
  import opened ProtocolReleases
  import opened ProtocolSteps

  /** All grants in flight are of the same barrier. */
  ghost predicate GrantsAgree(s: State) {
    forall h, i :: 0 <= h < |s.hosts| && 0 <= i < |s.hosts| && s.hosts[h].barrGrant.Some? && s.hosts[i].barrGrant.Some? ==>
      s.hosts[h].barrGrant == s.hosts[i].barrGrant
  }

  /** Only the last BARR of a barrier puts grants on their way; a host can only take its own. */
  lemma GrantAfter(c: Config, s: State, step: Step, h: nat)
    requires Wf(c, s) && Enabled(c, s, step) && h < c.hosts && !step.ServeBarr?
    ensures var s' := Apply(c, s, step);
      |s'.hosts| == c.hosts && (s'.hosts[h].barrGrant.Some? ==> s'.hosts[h].barrGrant == s.hosts[h].barrGrant)
  {
    if OfPages(step) { GrantAfterPages(c, s, step, h); } else { GrantAfterSync(c, s, step, h); }
  }

  lemma GrantAfterPages(c: Config, s: State, step: Step, h: nat)
    requires Wf(c, s) && Enabled(c, s, step) && h < c.hosts && OfPages(step)
    ensures |Apply(c, s, step).hosts| == c.hosts && Apply(c, s, step).hosts[h].barrGrant == s.hosts[h].barrGrant
  {
  }

  lemma GrantAfterSync(c: Config, s: State, step: Step, h: nat)
    requires Wf(c, s) && Enabled(c, s, step) && h < c.hosts && !OfPages(step) && !step.ServeBarr?
    ensures var s' := Apply(c, s, step);
      |s'.hosts| == c.hosts && (s'.hosts[h].barrGrant.Some? ==> s'.hosts[h].barrGrant == s.hosts[h].barrGrant)
  {
  }

  lemma GrantsShrink(s: State, s': State)
    requires GrantsAgree(s) && |s'.hosts| == |s.hosts|
    requires forall h :: 0 <= h < |s.hosts| && s'.hosts[h].barrGrant.Some? ==> s'.hosts[h].barrGrant == s.hosts[h].barrGrant
    ensures GrantsAgree(s')
  {
  }

  lemma ServeBarrGrants(c: Config, s: State, h: nat)
    requires Wf(c, s) && CanServeBarr(c, s, h) && GrantsAgree(s)
    ensures GrantsAgree(DoServeBarr(c, s, h))
  {
  }

  lemma StepGrants(c: Config, s: State, step: Step)
    requires Wf(c, s) && Enabled(c, s, step) && GrantsAgree(s)
    ensures GrantsAgree(Apply(c, s, step))
  {
    if step.ServeBarr? {
      ServeBarrGrants(c, s, step.h);
    } else {
      var s' := Apply(c, s, step);
      forall h | 0 <= h < c.hosts
        ensures |s'.hosts| == c.hosts && (s'.hosts[h].barrGrant.Some? ==> s'.hosts[h].barrGrant == s.hosts[h].barrGrant)
      {
        GrantAfter(c, s, step, h);
      }
      GrantsShrink(s, s');
    }
  }

  // ---------------------------------------------------------------- all hosts at the barrier

  /** Nothing about pages or the barrier is in flight but the grants. */
  lemma AllQuiet(c: Config, s: State, h: nat)
    requires Wf(c, s) && Core(c, s) && CanMigrate(c, s) && h < c.hosts
    ensures var x := s.hosts[h];
      && NoFetch(x) && NoDiffs(x) && x.lockGrant.None? && x.barr.None? && BarrierClean(x)
      && x.epoch + 1 == s.barrScope == x.barriers
    ensures s.arrived == {} && s.barrNotices == map[] && s.reported == map[]
  {
    assert GoodAt(c, s, h) && CountsOk(s, h);
    forall i | 0 <= i < c.hosts ensures i !in s.arrived { assert GoodAt(c, s, i); }
    assert s.arrived == {};
    forall q: nat ensures q !in s.barrNotices { assert Classified(s.reported, s.barrNotices, q); }
  }

  /** A copy that the grant does not call stale is the home copy, and the home knows of it. */
  lemma SurvivorIsHome(c: Config, s: State, h: nat, p: nat)
    requires Wf(c, s) && Inv(c, s) && CanMigrate(c, s) && h < c.hosts && p < c.pages
    requires Remote(c, h, p) && s.hosts[h].lines[p].Valid()
    requires var n := s.hosts[h].barrGrant.value; p in n ==> n[p].from == h
    ensures s.hosts[h].lines[p].data == s.mem[p] && s.rdnt[p]
  {
    AllQuiet(c, s, h);
    AllQuiet(c, s, c.homeOf[p]);
    assert CopyOk(c, s, h, p);
    forall i | 0 <= i < c.hosts ensures !Reports(s, i, p) { AllQuiet(c, s, i); }
  }

  /** No unit has been written since the barrier completed, so the home copies are the snapshot. */
  lemma NothingWritten(c: Config, s: State, p: nat, u: nat)
    requires Wf(c, s) && Inv(c, s) && CanMigrate(c, s) && p < c.pages && u < UNITS
    ensures NobodyWrote(c, s, p, u) && s.mem[p][u] == s.snapshot[p][u]
  {
    forall i | 0 <= i < c.hosts ensures !Wrote(s, i, p, u) { assert UnitAt(c, s, i, p, u); }
    assert HomeUnitOk(c, s, p, u);
  }

  // ---------------------------------------------------------------- what moves

  /** The copy at the new home is the home copy. */
  lemma MovedCopyIsHome(c: Config, s: State, p: nat)
    requires Wf(c, s) && Inv(c, s) && GrantsAgree(s) && CanMigrate(c, s) && p < c.pages && Moves(c, s, p)
    ensures s.hosts[NewHome(c, s, p)].lines[p].data == s.mem[p] && s.rdnt[p]
  {
    var w := NewHome(c, s, p);
    assert s.hosts[w].barrGrant == s.hosts[0].barrGrant;
    SurvivorIsHome(c, s, w, p);
  }

  /** Every copy that is valid afterwards is the home copy, before and after, and the home knows of it. */
  lemma MigratedCopy(c: Config, s: State, k: Slots, h: nat, p: nat)
    requires Wf(c, s) && Inv(c, s) && GrantsAgree(s) && CanMigrate(c, s) && h < c.hosts && p < c.pages
    requires MigratedLine(c, s, k, h, p).Valid()
    ensures MigratedLine(c, s, k, h, p).data == s.mem[p] == MigratedMem(c, s)[p]
    ensures Moves(c, s, p) || s.rdnt[p]
    ensures NewHome(c, s, p) != h
  {
    if Moves(c, s, p) { MovedCopyIsHome(c, s, p); }
    assert s.hosts[h].barrGrant == s.hosts[0].barrGrant;
    if Remote(c, h, p) {
      SurvivorIsHome(c, s, h, p);
    } else {
      assert GoodAt(c, s, h);
    }
  }

  // ---------------------------------------------------------------- the invariants afterwards

  lemma MigratedWf(c: Config, s: State, k: Slots)
    requires Wf(c, s) && CanMigrate(c, s)
    ensures Wf(Migrated(c, s, k).config, Migrated(c, s, k).state)
  {
    var c', s' := Migrated(c, s, k).config, Migrated(c, s, k).state;
    forall h | 0 <= h < c.hosts ensures WfHost(c', s'.hosts[h]) { assert WfHost(c, s.hosts[h]); }
  }

  lemma MigratedGood(c: Config, s: State, k: Slots, h: nat)
    requires Wf(c, s) && Core(c, s) && CanMigrate(c, s) && h < c.hosts
    requires Wf(Migrated(c, s, k).config, Migrated(c, s, k).state)
    ensures GoodAt(Migrated(c, s, k).config, Migrated(c, s, k).state, h) && CountsOk(Migrated(c, s, k).state, h)
  {
    var c', s' := Migrated(c, s, k).config, Migrated(c, s, k).state;
    var x, y := s.hosts[h], s'.hosts[h];
    AllQuiet(c, s, h);
    assert GoodAt(c, s, h);
    assert y == MigratedHost(c, s, k, h);
    MigratedLines(c, s, k, h);
    assert ScopesOk(c', y) by {
      assert forall i, q: nat :: 0 <= i < |y.stack| ==> q !in y.stack[i].dirtied && !Listed(y.stack, i, q);
    }
  }

  lemma MigratedLines(c: Config, s: State, k: Slots, h: nat)
    requires Wf(c, s) && Core(c, s) && CanMigrate(c, s) && h < c.hosts
    ensures LinesOk(Migrated(c, s, k).config, h, MigratedHost(c, s, k, h))
  {
    assert GoodAt(c, s, h);
  }

  lemma MigratedCore(c: Config, s: State, k: Slots)
    requires Wf(c, s) && Core(c, s) && CanMigrate(c, s)
    requires Wf(Migrated(c, s, k).config, Migrated(c, s, k).state)
    ensures Core(Migrated(c, s, k).config, Migrated(c, s, k).state)
  {
    var c', s' := Migrated(c, s, k).config, Migrated(c, s, k).state;
    forall h | 0 <= h < c.hosts ensures GoodAt(c', s', h) && CountsOk(s', h) { MigratedGood(c, s, k, h); }
    assert ManagerOk(c', s'.acqc, s'.arrived, s'.reported, s'.barrNotices);
    MigratedStatus(c, s, k);
  }

  lemma MigratedStatus(c: Config, s: State, k: Slots)
    requires Wf(c, s) && Core(c, s) && CanMigrate(c, s)
    requires Wf(Migrated(c, s, k).config, Migrated(c, s, k).state)
    ensures LocksOk(Migrated(c, s, k).config, Migrated(c, s, k).state)
  {
    var c', s' := Migrated(c, s, k).config, Migrated(c, s, k).state;
    forall l | 0 <= l < c.locks ensures QueueOk(c', s'.locks[l]) && FifoOk(s'.locks[l]) {
      assert QueueOk(c, s.locks[l]) && FifoOk(s.locks[l]);
    }
    forall h, l | 0 <= h < c.hosts && 0 <= l < c.locks ensures StatusOk(s'.hosts[h], s'.locks[l], h, l) {
      var x, y := s.hosts[h], s'.hosts[h];
      assert StatusOk(x, s.locks[l], h, l) && y == MigratedHost(c, s, k, h);
      StandingKept(x, y, s.locks[l], h, l);
      assert s'.locks[l].acqs == s.locks[l].acqs;
    }
  }

  lemma MigratedLog(c: Config, s: State, k: Slots, l: nat)
    requires Wf(c, s) && Core(c, s) && CanMigrate(c, s) && l < c.locks && LogOk(c, s, l)
    requires Wf(Migrated(c, s, k).config, Migrated(c, s, k).state)
    ensures LogOk(Migrated(c, s, k).config, Migrated(c, s, k).state, l)
  {
    var c', s' := Migrated(c, s, k).config, Migrated(c, s, k).state;
    var m := Manager(c, l);
    AllQuiet(c, s, m);
    assert s'.hosts[m] == MigratedHost(c, s, k, m);
    forall i | 0 <= i < c.hosts ensures s.hosts[i].epoch <= s.hosts[m].epoch + 1 { AllQuiet(c, s, i); }
    HistEpochs(c, s, l, s.hosts[m].epoch + 1);
    if s.hosts[m].noclear {
      ShapeKept(s.locks[l], s.hosts[m].epoch);
    } else {
      assert AllCompacted([], map[]);
      ShapeCleared(s.locks[l], s.hosts[m].epoch);
    }
    forall r | r in s.locks[l].hist ensures ReleaseOk(c', s', l, r) {
      assert ReleaseOk(c, s, l, r) && s'.hosts[r.from] == MigratedHost(c, s, k, r.from);
    }
  }

  lemma MigratedReleases(c: Config, s: State, k: Slots)
    requires Wf(c, s) && Core(c, s) && ReleasesOk(c, s) && CanMigrate(c, s)
    requires Wf(Migrated(c, s, k).config, Migrated(c, s, k).state)
    ensures ReleasesOk(Migrated(c, s, k).config, Migrated(c, s, k).state)
  {
    var c', s' := Migrated(c, s, k).config, Migrated(c, s, k).state;
    forall l | 0 <= l < c.locks ensures LogOk(c', s', l) {
      assert LogOk(c, s, l);
      MigratedLog(c, s, k, l);
    }
    forall h, l | 0 <= h < c.hosts && 0 <= l < c.locks ensures ScopeOk(c', s', h, l) && LockGrantOk(c', s', h, l) {
      assert ScopeOk(c, s, h, l) && s'.hosts[h] == MigratedHost(c, s, k, h);
      AllQuiet(c, s, h);
      assert OnStack(s.hosts[h], l) == OnStack(s'.hosts[h], l);
    }
  }

  lemma MigratedCopies(c: Config, s: State, k: Slots)
    requires Wf(c, s) && Inv(c, s) && GrantsAgree(s) && CanMigrate(c, s)
    requires Wf(Migrated(c, s, k).config, Migrated(c, s, k).state)
    ensures CopiesOk(Migrated(c, s, k).config, Migrated(c, s, k).state)
  {
    var c', s' := Migrated(c, s, k).config, Migrated(c, s, k).state;
    forall h, p | 0 <= h < c.hosts && 0 <= p < c.pages ensures CopyOk(c', s', h, p) && SnapOk(c', s', h, p) {
      assert s'.hosts[h] == MigratedHost(c, s, k, h);
      AllQuiet(c, s, h);
      if s'.hosts[h].lines[p].Valid() { MigratedCopy(c, s, k, h, p); }
    }
    forall h | 0 <= h < c.hosts ensures GrantOk(c', s', h) {
      assert s'.hosts[h] == MigratedHost(c, s, k, h);
      AllQuiet(c, s, h);
    }
  }

  lemma MigratedUnit(c: Config, s: State, k: Slots, h: nat, p: nat, u: nat)
    requires Wf(c, s) && Inv(c, s) && GrantsAgree(s) && CanMigrate(c, s) && h < c.hosts && p < c.pages && u < UNITS
    requires Wf(Migrated(c, s, k).config, Migrated(c, s, k).state)
    ensures UnitAt(Migrated(c, s, k).config, Migrated(c, s, k).state, h, p, u)
  {
    var c', s' := Migrated(c, s, k).config, Migrated(c, s, k).state;
    assert s'.hosts[h] == MigratedHost(c, s, k, h);
    AllQuiet(c, s, h);
    NothingWritten(c, s, p, u);
    SameWriters(c, s, s', p, u);
    if s'.hosts[h].lines[p].Valid() { MigratedCopy(c, s, k, h, p); }
  }

  lemma MigratedUnits(c: Config, s: State, k: Slots)
    requires Wf(c, s) && Inv(c, s) && GrantsAgree(s) && CanMigrate(c, s)
    requires Wf(Migrated(c, s, k).config, Migrated(c, s, k).state)
    ensures UnitsOk(Migrated(c, s, k).config, Migrated(c, s, k).state)
  {
    var c', s' := Migrated(c, s, k).config, Migrated(c, s, k).state;
    forall h, p, u | 0 <= h < c.hosts && 0 <= p < c.pages && 0 <= u < UNITS ensures UnitAt(c', s', h, p, u) {
      MigratedUnit(c, s, k, h, p, u);
    }
    forall p, u | 0 <= p < c.pages && 0 <= u < UNITS ensures HomeUnitOk(c', s', p, u) {
      NothingWritten(c, s, p, u);
      if Moves(c, s, p) { MovedCopyIsHome(c, s, p); }
    }
  }

  /** The whole invariant, for the new home map. */
  lemma MigrateInv(c: Config, s: State, k: Slots)
    requires Holds(c, s) && GrantsAgree(s) && CanMigrate(c, s)
    ensures Holds(Migrated(c, s, k).config, Migrated(c, s, k).state) && GrantsAgree(Migrated(c, s, k).state)
  {
    MigratedWf(c, s, k);
    MigratedCore(c, s, k);
    MigratedReleases(c, s, k);
    MigratedCopies(c, s, k);
    MigratedUnits(c, s, k);
  }
}
