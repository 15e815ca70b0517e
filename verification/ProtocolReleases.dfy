/** Lock coherence: the notices a lock manager keeps and sends stand for the complete history of
    releases, as far as the acquirer has not seen it. */
module ProtocolReleases {
  import opened Protocol
  import opened ProtocolInv
  import opened ProtocolLocks
  import opened ProtocolBarrier

  // ---------------------------------------------------------------- the manager's list

  /** Recording a release, or a part of one, with a scope that no earlier one exceeds. */
  lemma RecordCompacted(log: seq<Release>, n: Notices, r: Release, p: nat)
    requires Compacted(log, n, p) && r.from < MAXHOSTS
    requires forall q :: q in log ==> q.scope <= r.scope
    ensures Compacted(log + [r], Record(n, r.pages, r.from, r.scope), p)
  {
    var log', m := log + [r], Record(n, r.pages, r.from, r.scope);
    assert forall q :: q in log' <==> q in log || q == r;
    assert r in log';
    if p in n {
      var q :| q in log && p in q.pages && q.scope == n[p].scope;
      assert q in log';
    }
  }

  lemma RecordAllCompacted(log: seq<Release>, n: Notices, r: Release)
    requires AllCompacted(log, n) && r.from < MAXHOSTS
    requires forall q :: q in log ==> q.scope <= r.scope
    ensures AllCompacted(log + [r], Record(n, r.pages, r.from, r.scope))
  {
    var log', m := log + [r], Record(n, r.pages, r.from, r.scope);
    forall p ensures Compacted(log', m, p) { RecordCompacted(log, n, r, p); }
  }

  /** The filtered notices still tell the acquirer of everything it has not seen. */
  lemma GrantTells(c: Config, k: LockState, a: Acquirer, r: Release)
    requires ValidConfig(c) && AllCompacted(k.log, k.notices) && a.host < MAXHOSTS
    requires forall q :: q in k.log && q.from == a.host ==> q.scope <= a.scope
    requires r in k.log && r.scope > a.scope
    ensures Told(c, a.host, GrantNotices(c, k.notices, a.scope, a.host), r)
  {
    var g := GrantNotices(c, k.notices, a.scope, a.host);
    forall p | p in r.pages && p < c.pages && Remote(c, a.host, p) ensures p in g && g[p].from != a.host {
      assert Compacted(k.log, k.notices, p);
    }
  }

  /** And they name no page without something it has not seen. */
  lemma GrantFounded(c: Config, k: LockState, a: Acquirer, p: nat)
    requires ValidConfig(c) && AllCompacted(k.log, k.notices) && p in GrantNotices(c, k.notices, a.scope, a.host)
    ensures Founded(k.log, a.scope, p)
  {
    assert Compacted(k.log, k.notices, p);
  }

  // ---------------------------------------------------------------- steps that leave the locks alone

  predicate SameClock(x: HostState, y: HostState) {
    y.epoch == x.epoch && y.noclear == x.noclear && y.itv == x.itv
  }

  lemma SameOwner(x: HostState, y: HostState, l: nat)
    requires SameStanding(x, y)
    ensures OnStack(y, l) == OnStack(x, l)
    ensures l < |x.chan| ==> Releasing(y, l) == Releasing(x, l)
  {
  }

  lemma ReleasesKept(c: Config, s: State, s': State)
    requires Wf(c, s) && Wf(c, s') && ReleasesOk(c, s) && s'.locks == s.locks
    requires forall h :: 0 <= h < c.hosts ==> SameStanding(s.hosts[h], s'.hosts[h]) && SameClock(s.hosts[h], s'.hosts[h])
    ensures ReleasesOk(c, s')
  {
    forall l | 0 <= l < c.locks ensures LogOk(c, s', l) {
      assert LogOk(c, s, l);
      assert SameClock(s.hosts[Manager(c, l)], s'.hosts[Manager(c, l)]);
      forall r | r in s'.locks[l].hist ensures ReleaseOk(c, s', l, r) {
        assert ReleaseOk(c, s, l, r);
        assert SameStanding(s.hosts[r.from], s'.hosts[r.from]) && SameClock(s.hosts[r.from], s'.hosts[r.from]);
      }
    }
    forall h, l | 0 <= h < c.hosts && 0 <= l < c.locks ensures ScopeOk(c, s', h, l) && LockGrantOk(c, s', h, l) {
      assert ScopeOk(c, s, h, l) && LockGrantOk(c, s, h, l);
      assert SameStanding(s.hosts[h], s'.hosts[h]) && SameClock(s.hosts[h], s'.hosts[h]);
      SameOwner(s.hosts[h], s'.hosts[h], l);
    }
  }

  /** Nobody's clocks go back, and a message being released stays first. */
  predicate Aged(x: HostState, y: HostState, l: nat)
    requires l < |x.chan| == |x.myscope| == |y.chan| == |y.myscope|
  {
    && y.itv >= x.itv && y.epoch >= x.epoch && y.myscope[l] >= x.myscope[l]
    && (Releasing(x, l) ==> Releasing(y, l) && y.chan[l][0] == x.chan[l][0])
  }

  /** A host's clocks may advance: its recorded releases stay behind it. */
  lemma ReleasesAged(c: Config, s: State, s': State, l: nat)
    requires Wf(c, s) && Wf(c, s') && l < c.locks
    requires s'.locks[l].hist == s.locks[l].hist && s'.locks[l].scope == s.locks[l].scope
    requires forall h :: 0 <= h < c.hosts ==> Aged(s.hosts[h], s'.hosts[h], l)
    requires forall r :: r in s.locks[l].hist ==> ReleaseOk(c, s, l, r)
    ensures forall r :: r in s'.locks[l].hist ==> ReleaseOk(c, s', l, r)
  {
    forall r | r in s'.locks[l].hist ensures ReleaseOk(c, s', l, r) {
      assert ReleaseOk(c, s, l, r) && Aged(s.hosts[r.from], s'.hosts[r.from], l);
    }
  }

  // ---------------------------------------------------------------- acquire and release

  lemma SendAcqScope(c: Config, s: State, h: nat, l: nat)
    requires Wf(c, s) && CanSendAcq(c, s, h) && l < c.locks && ScopeOk(c, s, h, l) && LockGrantOk(c, s, h, l)
    ensures ScopeOk(c, DoSendAcq(c, s, h), h, l) && LockGrantOk(c, DoSendAcq(c, s, h), h, l)
    ensures Aged(s.hosts[h], DoSendAcq(c, s, h).hosts[h], l)
  {
    assert OnStack(s.hosts[h], l) == OnStack(DoSendAcq(c, s, h).hosts[h], l);
  }

  lemma SendAcqReleases(c: Config, s: State, h: nat)
    requires Wf(c, s) && CanSendAcq(c, s, h) && Core(c, s) && ReleasesOk(c, s)
    ensures ReleasesOk(c, DoSendAcq(c, s, h))
  {
    var s' := DoSendAcq(c, s, h);
    forall l | 0 <= l < c.locks ensures LogOk(c, s', l) {
      assert LogOk(c, s, l) && ScopeOk(c, s, h, l) && LockGrantOk(c, s, h, l);
      SendAcqScope(c, s, h, l);
      ReleasesAged(c, s, s', l);
    }
    forall i, l | 0 <= i < c.hosts && 0 <= l < c.locks ensures ScopeOk(c, s', i, l) && LockGrantOk(c, s', i, l) {
      assert ScopeOk(c, s, i, l) && LockGrantOk(c, s, i, l);
      if i == h { SendAcqScope(c, s, h, l); } else { OtherScope(c, s, s', i, l); }
    }
  }

  lemma SendRelScope(c: Config, s: State, h: nat, parts: seq<set<nat>>, l: nat)
    requires Wf(c, s) && CanRelease(c, s, h) && PartsOk(parts) && l < c.locks && s.hosts[h].lockGrant.None?
    requires ScopeOk(c, s, h, l) && LockGrantOk(c, s, h, l) && StatusOk(s.hosts[h], s.locks[l], h, l)
    ensures ScopeOk(c, DoSendRel(c, s, h, parts), h, l) && LockGrantOk(c, DoSendRel(c, s, h, parts), h, l)
  {
    var x, y := s.hosts[h], DoSendRel(c, s, h, parts).hosts[h];
    var t := |x.stack| - 1;
    assert forall i :: 0 <= i < t ==> y.stack[i].lock == x.stack[i].lock;
    assert OnStack(x, x.stack[t].lock);
    assert OnStack(y, l) ==> OnStack(x, l);
  }

  lemma SendRelReleases(c: Config, s: State, h: nat, parts: seq<set<nat>>)
    requires Wf(c, s) && CanRelease(c, s, h) && PartsOk(parts) && Core(c, s) && ReleasesOk(c, s)
    ensures ReleasesOk(c, DoSendRel(c, s, h, parts))
  {
    var s' := DoSendRel(c, s, h, parts);
    assert GoodAt(c, s, h);
    forall l | 0 <= l < c.locks ensures LogOk(c, s', l) {
      assert LogOk(c, s, l);
      ReleasesAged(c, s, s', l);
    }
    forall i, l | 0 <= i < c.hosts && 0 <= l < c.locks ensures ScopeOk(c, s', i, l) && LockGrantOk(c, s', i, l) {
      assert ScopeOk(c, s, i, l) && LockGrantOk(c, s, i, l) && StatusOk(s.hosts[i], s.locks[l], i, l);
      if i == h { SendRelScope(c, s, h, parts, l); } else { OtherScope(c, s, s', i, l); }
    }
  }

  lemma OtherScope(c: Config, s: State, s': State, i: nat, l: nat)
    requires Wf(c, s) && Wf(c, s') && i < c.hosts && l < c.locks
    requires ScopeOk(c, s, i, l) && LockGrantOk(c, s, i, l)
    requires s'.hosts[i] == s.hosts[i] && s'.locks[l].scope == s.locks[l].scope
    requires s'.locks[l].hist == s.locks[l].hist && s'.locks[l].lost == s.locks[l].lost
    ensures ScopeOk(c, s', i, l) && LockGrantOk(c, s', i, l)
  {
  }

  lemma ResumeScope(c: Config, s: State, h: nat, l: nat)
    requires Wf(c, s) && CanResume(c, s, h) && l < c.locks && s.hosts[h].lockGrant.None?
    requires ScopeOk(c, s, h, l) && LockGrantOk(c, s, h, l)
    ensures ScopeOk(c, DoResume(c, s, h), h, l) && LockGrantOk(c, DoResume(c, s, h), h, l)
  {
    var x, y := s.hosts[h], DoResume(c, s, h).hosts[h];
    assert forall j :: 0 <= j < |x.stack| ==> y.stack[j] == x.stack[j];
    if OnStack(y, l) && !OnStack(x, l) {
      assert x.phase == Resuming(Acq(l));
    }
  }

  lemma ResumeReleases(c: Config, s: State, h: nat)
    requires Wf(c, s) && CanResume(c, s, h) && Core(c, s) && ReleasesOk(c, s)
    ensures ReleasesOk(c, DoResume(c, s, h))
  {
    var s' := DoResume(c, s, h);
    assert GoodAt(c, s, h);
    forall l | 0 <= l < c.locks ensures LogOk(c, s', l) {
      assert LogOk(c, s, l);
      ReleasesAged(c, s, s', l);
    }
    forall i, l | 0 <= i < c.hosts && 0 <= l < c.locks ensures ScopeOk(c, s', i, l) && LockGrantOk(c, s', i, l) {
      assert ScopeOk(c, s, i, l) && LockGrantOk(c, s, i, l);
      if i == h { ResumeScope(c, s, h, l); } else { OtherScope(c, s, s', i, l); }
    }
  }

  lemma TakenGrantScope(c: Config, s: State, h: nat, i: nat, l: nat)
    requires Wf(c, s) && CanTakeLockGrant(c, s, h) && i < c.hosts && l < c.locks
    requires ScopeOk(c, s, i, l) && LockGrantOk(c, s, i, l)
    ensures var s' := DoTakeLockGrant(c, s, h); ScopeOk(c, s', i, l) && LockGrantOk(c, s', i, l)
  {
    assert OnStack(s.hosts[i], l) == OnStack(DoTakeLockGrant(c, s, h).hosts[i], l);
  }

  lemma TakenGrantLog(c: Config, s: State, h: nat, l: nat)
    requires Wf(c, s) && CanTakeLockGrant(c, s, h) && l < c.locks && LogOk(c, s, l)
    requires ScopeOk(c, s, h, s.hosts[h].lockGrant.value.lock) && LockGrantOk(c, s, h, s.hosts[h].lockGrant.value.lock)
    ensures LogOk(c, DoTakeLockGrant(c, s, h), l)
  {
    ReleasesAged(c, s, DoTakeLockGrant(c, s, h), l);
  }

  lemma TakeLockGrantReleases(c: Config, s: State, h: nat)
    requires Wf(c, s) && CanTakeLockGrant(c, s, h) && Core(c, s) && ReleasesOk(c, s)
    ensures ReleasesOk(c, DoTakeLockGrant(c, s, h))
  {
    var s' := DoTakeLockGrant(c, s, h);
    var l0 := s.hosts[h].lockGrant.value.lock;
    assert ScopeOk(c, s, h, l0) && LockGrantOk(c, s, h, l0);
    forall l | 0 <= l < c.locks ensures LogOk(c, s', l) {
      assert LogOk(c, s, l);
      TakenGrantLog(c, s, h, l);
    }
    forall i, l | 0 <= i < c.hosts && 0 <= l < c.locks ensures ScopeOk(c, s', i, l) && LockGrantOk(c, s', i, l) {
      assert ScopeOk(c, s, i, l) && LockGrantOk(c, s, i, l);
      TakenGrantScope(c, s, h, i, l);
    }
  }

  // ---------------------------------------------------------------- the managers

  /** A host that asks for a lock is past every barrier that the lock's manager is past. */
  lemma ManagerNotAhead(c: Config, s: State, h: nat, l: nat)
    requires Wf(c, s) && Core(c, s) && h < c.hosts && l < c.locks && Wants(s.hosts[h], l)
    ensures s.hosts[Manager(c, l)].epoch <= s.hosts[h].epoch
  {
    assert GoodAt(c, s, h) && CountsOk(s, h) && CountsOk(s, Manager(c, l));
  }

  /** A grant cut from the manager's present list. */
  lemma GrantComplete(c: Config, s: State, l: nat, a: Acquirer, g: LockGrant)
    requires Wf(c, s) && l < c.locks && LogOk(c, s, l) && a.host < c.hosts
    requires g == GrantTo(c, l, s.locks[l], a) && a.scope == s.hosts[a.host].myscope[l]
    requires s.hosts[Manager(c, l)].epoch <= s.hosts[a.host].epoch
    ensures forall r :: r in g.log ==> r in s.locks[l].hist
    ensures forall r :: r in s.locks[l].hist && r.epoch >= s.hosts[a.host].epoch ==> (r in g.log <==> r !in s.locks[l].lost)
    ensures forall r :: r in g.log && r.scope > a.scope ==> Told(c, a.host, g.notices, r)
    ensures forall p :: p in g.notices ==> Founded(g.log, a.scope, p)
  {
    forall p | p in g.notices ensures Founded(g.log, a.scope, p) { GrantFounded(c, s.locks[l], a, p); }
    forall r | r in g.log && r.scope > a.scope ensures Told(c, a.host, g.notices, r) {
      assert forall q :: q in g.log ==> ReleaseOk(c, s, l, q);
      GrantTells(c, s.locks[l], a, r);
    }
  }

  lemma ServeAcqScope(c: Config, s: State, h: nat, l: nat, l1: nat)
    requires Wf(c, s) && CanServeAcq(c, s, h, l) && Core(c, s) && l1 < c.locks
    requires LogOk(c, s, l) && ScopeOk(c, s, h, l1) && LockGrantOk(c, s, h, l1)
    ensures var s' := DoServeAcq(c, s, h, l); ScopeOk(c, s', h, l1) && LockGrantOk(c, s', h, l1)
  {
    var s' := DoServeAcq(c, s, h, l);
    ServeAcqStatus(c, s, h, l);
    assert OnStack(s.hosts[h], l1) == OnStack(s'.hosts[h], l1);
    if |s.locks[l].acqs| == 0 {
      var a := Acquirer(h, s.hosts[h].chan[l][0].scope);
      ManagerNotAhead(c, s, h, l);
      GrantComplete(c, s, l, a, GrantTo(c, l, s.locks[l], a));
    }
  }

  lemma ServedAcqLog(c: Config, s: State, h: nat, l: nat, l1: nat)
    requires Wf(c, s) && CanServeAcq(c, s, h, l) && l1 < c.locks && LogOk(c, s, l1)
    ensures LogOk(c, DoServeAcq(c, s, h, l), l1)
  {
    ReleasesAged(c, s, DoServeAcq(c, s, h, l), l1);
  }

  lemma ServeAcqReleases(c: Config, s: State, h: nat, l: nat)
    requires Wf(c, s) && CanServeAcq(c, s, h, l) && Core(c, s) && ReleasesOk(c, s)
    ensures ReleasesOk(c, DoServeAcq(c, s, h, l))
  {
    var s' := DoServeAcq(c, s, h, l);
    assert LogOk(c, s, l);
    forall l1 | 0 <= l1 < c.locks ensures LogOk(c, s', l1) {
      assert LogOk(c, s, l1);
      ServedAcqLog(c, s, h, l, l1);
    }
    forall i, l1 | 0 <= i < c.hosts && 0 <= l1 < c.locks ensures ScopeOk(c, s', i, l1) && LockGrantOk(c, s', i, l1) {
      assert ScopeOk(c, s, i, l1) && LockGrantOk(c, s, i, l1);
      if i == h { ServeAcqScope(c, s, h, l, l1); } else { OtherScope(c, s, s', i, l1); }
    }
  }

  predicate CanServePart(c: Config, s: State, h: nat, l: nat)
    requires Wf(c, s)
  {
    h < c.hosts && l < c.locks && Releasing(s.hosts[h], l)
  }

  /** What the manager records when it handles the next message of a release. */
  function NextPart(c: Config, s: State, h: nat, l: nat): Release
    requires Wf(c, s) && CanServePart(c, s, h, l) && |s.hosts[h].chan[l][0].parts| > 0
  {
    var m := s.hosts[h].chan[l][0];
    Release(h, s.locks[l].scope, m.parts[0], m.epoch, m.itv)
  }

  lemma ShapeRecorded(k: LockState, h: nat, m: LockMsg, epoch: nat, noclear: bool)
    requires m.RelMsg? && |m.parts| > 0 && LogShape(k, epoch, noclear)
    requires Release(h, k.scope, m.parts[0], m.epoch, m.itv) !in k.hist
    ensures LogShape(PartRecorded(k, h, m), epoch, noclear)
  {
    var k', r := PartRecorded(k, h, m), Release(h, k.scope, m.parts[0], m.epoch, m.itv);
    assert forall q :: q in k'.hist <==> q in k.hist || q == r;
    assert forall q :: q in k'.log <==> q in k.log || q == r;
  }

  lemma PartIsNew(c: Config, s: State, h: nat, l: nat)
    requires Wf(c, s) && CanServePart(c, s, h, l) && LogOk(c, s, l) && ScopeOk(c, s, h, l)
    ensures NextPart(c, s, h, l) !in s.locks[l].hist
  {
    var next := NextPart(c, s, h, l);
    forall r | r in s.locks[l].hist ensures r != next { assert ReleaseOk(c, s, l, r); }
  }

  /** Recording one part, whatever else the step does to the channel. */
  lemma PartCompacted(c: Config, s: State, h: nat, l: nat)
    requires Wf(c, s) && CanServePart(c, s, h, l) && LogOk(c, s, l) && ScopeOk(c, s, h, l)
    ensures var k' := PartRecorded(s.locks[l], h, s.hosts[h].chan[l][0]);
      && AllCompacted(k'.log, k'.notices)
      && LogShape(k', s.hosts[Manager(c, l)].epoch, s.hosts[Manager(c, l)].noclear)
      && (forall q :: q in k'.hist <==> q in s.locks[l].hist || q == NextPart(c, s, h, l))
  {
    var k, m := s.locks[l], s.hosts[h].chan[l][0];
    PartIsNew(c, s, h, l);
    ShapeRecorded(k, h, m, s.hosts[Manager(c, l)].epoch, s.hosts[Manager(c, l)].noclear);
    LogScopes(c, s, l);
    RecordAllCompacted(k.log, k.notices, NextPart(c, s, h, l));
  }

  lemma LogScopes(c: Config, s: State, l: nat)
    requires Wf(c, s) && l < c.locks && LogOk(c, s, l)
    ensures forall q :: q in s.locks[l].log ==> q.scope <= s.locks[l].scope
  {
    forall q | q in s.locks[l].log ensures q.scope <= s.locks[l].scope { assert ReleaseOk(c, s, l, q); }
  }

  /** The host a release of the scope under way comes from is the one releasing. */
  lemma OneReleases(c: Config, s: State, h: nat, l: nat, r: Release)
    requires Wf(c, s) && CanServePart(c, s, h, l) && LocksOk(c, s) && ReleaseOk(c, s, l, r)
    requires r.scope == s.locks[l].scope
    ensures r.from == h && UnderWay(s.hosts[h], l, r)
  {
    assert StatusOk(s.hosts[h], s.locks[l], h, l) && StatusOk(s.hosts[r.from], s.locks[l], r.from, l);
  }

  // a WTNT

  lemma ServeWtntRelease(c: Config, s: State, h: nat, l: nat, r: Release)
    requires Wf(c, s) && CanServeWtnt(c, s, h, l) && LocksOk(c, s) && ScopeOk(c, s, h, l)
    requires ReleaseOk(c, s, l, r) || r == NextPart(c, s, h, l)
    ensures ReleaseOk(c, DoServeWtnt(c, s, h, l), l, r)
  {
    var s' := DoServeWtnt(c, s, h, l);
    var m, m' := s.hosts[h].chan[l][0], s'.hosts[h].chan[l][0];
    assert forall i :: 0 <= i < |m'.parts| ==> m'.parts[i] == m.parts[i + 1];
    if r != NextPart(c, s, h, l) && r.scope == s.locks[l].scope {
      OneReleases(c, s, h, l, r);
    }
  }

  lemma ServeWtntLog(c: Config, s: State, h: nat, l: nat)
    requires Wf(c, s) && CanServeWtnt(c, s, h, l) && LocksOk(c, s) && LogOk(c, s, l) && ScopeOk(c, s, h, l)
    ensures LogOk(c, DoServeWtnt(c, s, h, l), l)
  {
    var s' := DoServeWtnt(c, s, h, l);
    PartCompacted(c, s, h, l);
    forall q | q in s'.locks[l].hist ensures ReleaseOk(c, s', l, q) {
      assert q in s.locks[l].hist ==> ReleaseOk(c, s, l, q);
      ServeWtntRelease(c, s, h, l, q);
    }
  }

  lemma ServeWtntOtherLog(c: Config, s: State, h: nat, l: nat, l1: nat)
    requires Wf(c, s) && CanServeWtnt(c, s, h, l) && l1 < c.locks && l1 != l && LogOk(c, s, l1)
    ensures LogOk(c, DoServeWtnt(c, s, h, l), l1)
  {
    ReleasesAged(c, s, DoServeWtnt(c, s, h, l), l1);
  }

  /** Nobody owns a lock whose release is on its way. */
  lemma NoOwner(c: Config, s: State, h: nat, l: nat, i: nat)
    requires Wf(c, s) && CanServePart(c, s, h, l) && LocksOk(c, s) && i < c.hosts
    ensures !Owns(s.hosts[i], l)
  {
    assert StatusOk(s.hosts[h], s.locks[l], h, l) && StatusOk(s.hosts[i], s.locks[l], i, l);
  }

  lemma RestOk(parts: seq<set<nat>>)
    requires PartsOk(parts) && |parts| > 1
    ensures PartsOk(parts[1..])
  {
    var rest := parts[1..];
    assert forall j :: 0 <= j < |rest| ==> rest[j] == parts[j + 1];
  }

  lemma ServeWtntSender(c: Config, s: State, h: nat, l: nat)
    requires Wf(c, s) && CanServeWtnt(c, s, h, l) && ScopeOk(c, s, h, l)
    ensures ScopeOk(c, DoServeWtnt(c, s, h, l), h, l)
  {
    var x, y := s.hosts[h], DoServeWtnt(c, s, h, l).hosts[h];
    RestOk(x.chan[l][0].parts);
    assert OnStack(x, l) == OnStack(y, l);
    assert forall j :: 1 <= j < |x.chan[l]| ==> y.chan[l][j] == x.chan[l][j];
  }

  lemma ServeWtntScope(c: Config, s: State, h: nat, l: nat, i: nat, l1: nat)
    requires Wf(c, s) && CanServeWtnt(c, s, h, l) && LocksOk(c, s) && i < c.hosts && l1 < c.locks
    requires ScopeOk(c, s, i, l1) && LockGrantOk(c, s, i, l1)
    ensures var s' := DoServeWtnt(c, s, h, l); ScopeOk(c, s', i, l1) && LockGrantOk(c, s', i, l1)
  {
    NoOwner(c, s, h, l, i);
    if i == h && l1 == l {
      ServeWtntSender(c, s, h, l);
    } else {
      assert OnStack(s.hosts[i], l1) == OnStack(DoServeWtnt(c, s, h, l).hosts[i], l1);
    }
  }

  lemma ServeWtntReleases(c: Config, s: State, h: nat, l: nat)
    requires Wf(c, s) && CanServeWtnt(c, s, h, l) && LocksOk(c, s) && ReleasesOk(c, s)
    ensures ReleasesOk(c, DoServeWtnt(c, s, h, l))
  {
    var s' := DoServeWtnt(c, s, h, l);
    forall l1 | 0 <= l1 < c.locks ensures LogOk(c, s', l1) {
      assert LogOk(c, s, l1) && ScopeOk(c, s, h, l);
      if l1 == l { ServeWtntLog(c, s, h, l); } else { ServeWtntOtherLog(c, s, h, l, l1); }
    }
    forall i, l1 | 0 <= i < c.hosts && 0 <= l1 < c.locks ensures ScopeOk(c, s', i, l1) && LockGrantOk(c, s', i, l1) {
      assert ScopeOk(c, s, i, l1) && LockGrantOk(c, s, i, l1);
      ServeWtntScope(c, s, h, l, i, l1);
    }
  }

  // the REL

  /** Once the REL is handled the manager keeps its notices if the release was ahead of it. */
  lemma ServeRelShape(c: Config, s: State, h: nat, l: nat)
    requires Wf(c, s) && CanServeRel(c, s, h, l) && LocksOk(c, s) && LogOk(c, s, l)
    requires var m := s.hosts[Manager(c, l)]; LogShape(PartRecorded(s.locks[l], h, s.hosts[h].chan[l][0]), m.epoch, m.noclear)
    ensures var m := ServeRelHost(c, s, h, l, Manager(c, l)); LogShape(DoServeRel(c, s, h, l).locks[l], m.epoch, m.noclear)
  {
    var k, k', m := s.locks[l], DoServeRel(c, s, h, l).locks[l], s.hosts[h].chan[l][0];
    var x, y := s.hosts[Manager(c, l)], ServeRelHost(c, s, h, l, Manager(c, l));
    if !y.noclear {
      forall r | r in k'.log ensures r.epoch <= y.epoch {
        if r in k.log && r.scope == k.scope {
          assert ReleaseOk(c, s, l, r);
          OneReleases(c, s, h, l, r);
        }
      }
    }
  }

  lemma ServeRelRelease(c: Config, s: State, h: nat, l: nat, r: Release)
    requires Wf(c, s) && CanServeRel(c, s, h, l) && ScopeOk(c, s, h, l)
    requires ReleaseOk(c, s, l, r) || r == NextPart(c, s, h, l)
    ensures ReleaseOk(c, DoServeRel(c, s, h, l), l, r)
  {
    assert DoServeRel(c, s, h, l).hosts[r.from] == ServeRelHost(c, s, h, l, r.from);
  }

  lemma ServeRelLog(c: Config, s: State, h: nat, l: nat)
    requires Wf(c, s) && CanServeRel(c, s, h, l) && LocksOk(c, s) && LogOk(c, s, l) && ScopeOk(c, s, h, l)
    ensures LogOk(c, DoServeRel(c, s, h, l), l)
  {
    var s' := DoServeRel(c, s, h, l);
    PartCompacted(c, s, h, l);
    ServeRelShape(c, s, h, l);
    assert s'.hosts[Manager(c, l)] == ServeRelHost(c, s, h, l, Manager(c, l));
    forall q | q in s'.locks[l].hist ensures ReleaseOk(c, s', l, q) {
      assert q in s.locks[l].hist ==> ReleaseOk(c, s, l, q);
      ServeRelRelease(c, s, h, l, q);
    }
  }

  lemma ServeRelOtherLog(c: Config, s: State, h: nat, l: nat, l1: nat)
    requires Wf(c, s) && CanServeRel(c, s, h, l) && l1 < c.locks && l1 != l && LogOk(c, s, l1)
    ensures LogOk(c, DoServeRel(c, s, h, l), l1)
  {
    var s' := DoServeRel(c, s, h, l);
    assert forall i :: 0 <= i < c.hosts ==> s'.hosts[i] == ServeRelHost(c, s, h, l, i);
    ReleasesAged(c, s, s', l1);
  }

  /** Apart from the next host in the queue nobody is concerned by a release. */
  lemma ServeRelScope(c: Config, s: State, h: nat, l: nat, i: nat, l1: nat)
    requires Wf(c, s) && CanServeRel(c, s, h, l) && LocksOk(c, s) && i < c.hosts && l1 < c.locks
    requires ScopeOk(c, s, i, l1)
    ensures ScopeOk(c, DoServeRel(c, s, h, l), i, l1)
  {
    var s' := DoServeRel(c, s, h, l);
    ServeRelStatus(c, s, h, l);
    var x, y := s.hosts[i], s'.hosts[i];
    assert y == ServeRelHost(c, s, h, l, i);
    assert OnStack(x, l1) == OnStack(y, l1);
    assert StatusOk(x, s.locks[l], i, l);
    if l1 == l && i != h {
      assert !Owns(x, l) && !Releasing(x, l);
    }
  }

  lemma ServeRelNotOwner(c: Config, s: State, h: nat, l: nat, i: nat)
    requires Wf(c, s) && CanServeRel(c, s, h, l) && LocksOk(c, s) && i < c.hosts
    ensures !Owns(s.hosts[i], l)
  {
    ServeRelStatus(c, s, h, l);
    assert StatusOk(s.hosts[i], s.locks[l], i, l);
  }

  lemma ServeRelGrant(c: Config, s: State, h: nat, l: nat, i: nat, l1: nat)
    requires Wf(c, s) && CanServeRel(c, s, h, l) && Core(c, s) && i < c.hosts && l1 < c.locks
    requires LockGrantOk(c, s, i, l1) && LogOk(c, DoServeRel(c, s, h, l), l)
    ensures LockGrantOk(c, DoServeRel(c, s, h, l), i, l1)
  {
    var s' := DoServeRel(c, s, h, l);
    ServeRelStatus(c, s, h, l);
    ServeRelNotOwner(c, s, h, l, i);
    var x, y, k := s.hosts[i], s'.hosts[i], s.locks[l];
    assert y == ServeRelHost(c, s, h, l, i);
    if |k.acqs| > 1 && k.acqs[1].host == i {
      if l1 == l {
        ManagerNotAhead(c, s, i, l);
        var mgr := Manager(c, l);
        assert s'.hosts[mgr] == ServeRelHost(c, s, h, l, mgr);
        GrantComplete(c, s', l, k.acqs[1], y.lockGrant.value);
      }
    }
  }

  lemma ServeRelReleases(c: Config, s: State, h: nat, l: nat)
    requires Wf(c, s) && CanServeRel(c, s, h, l) && Core(c, s) && ReleasesOk(c, s)
    ensures ReleasesOk(c, DoServeRel(c, s, h, l))
  {
    var s' := DoServeRel(c, s, h, l);
    forall l1 | 0 <= l1 < c.locks ensures LogOk(c, s', l1) {
      assert LogOk(c, s, l1) && ScopeOk(c, s, h, l);
      if l1 == l { ServeRelLog(c, s, h, l); } else { ServeRelOtherLog(c, s, h, l, l1); }
    }
    forall i, l1 | 0 <= i < c.hosts && 0 <= l1 < c.locks ensures ScopeOk(c, s', i, l1) && LockGrantOk(c, s', i, l1) {
      assert ScopeOk(c, s, i, l1) && LockGrantOk(c, s, i, l1) && LogOk(c, s', l);
      ServeRelScope(c, s, h, l, i, l1);
      ServeRelGrant(c, s, h, l, i, l1);
    }
  }

  // ---------------------------------------------------------------- the end of an epoch

  /** Clearing drops the releases of the epoch that ends, and loses those of the next. */
  lemma ShapeCleared(k: LockState, epoch: nat)
    requires LogShape(k, epoch, false)
    ensures LogShape(Cleared(k, epoch), epoch + 1, false)
  {
  }

  /** Keeping the notices loses nothing, and all of them are of the epoch that begins at the latest. */
  lemma ShapeKept(k: LockState, epoch: nat)
    requires LogShape(k, epoch, true) && forall r :: r in k.hist ==> r.epoch <= epoch + 1
    ensures LogShape(k, epoch + 1, false)
  {
  }

  lemma HistEpochs(c: Config, s: State, l: nat, epoch: nat)
    requires Wf(c, s) && l < c.locks && LogOk(c, s, l)
    requires forall i :: 0 <= i < c.hosts ==> s.hosts[i].epoch <= epoch
    ensures forall r :: r in s.locks[l].hist ==> r.epoch <= epoch
  {
    forall r | r in s.locks[l].hist ensures r.epoch <= epoch { assert ReleaseOk(c, s, l, r); }
  }

  /** What clearing may lose is under way. */
  lemma LosesUnderWay(c: Config, s: State, l: nat, r: Release)
    requires Wf(c, s) && l < c.locks && LogOk(c, s, l) && !s.hosts[Manager(c, l)].noclear
    requires r in s.locks[l].log && r.epoch > s.hosts[Manager(c, l)].epoch
    ensures r.from < c.hosts && r.scope == s.locks[l].scope && UnderWay(s.hosts[r.from], l, r)
  {
    assert ReleaseOk(c, s, l, r);
  }

  lemma BarrEpochs(c: Config, s: State, h: nat, i: nat)
    requires Wf(c, s) && CanTakeBarrGrant(c, s, h) && BarrierOk(c, s) && i < c.hosts
    ensures s.hosts[i].epoch <= s.hosts[h].epoch + 1
  {
    assert CountsOk(s, h) && CountsOk(s, i);
  }

  lemma TakeBarrGrantLog(c: Config, s: State, h: nat, l: nat)
    requires Wf(c, s) && CanTakeBarrGrant(c, s, h) && BarrierOk(c, s) && l < c.locks && LogOk(c, s, l)
    requires Wf(c, DoTakeBarrGrant(c, s, h))
    ensures LogOk(c, DoTakeBarrGrant(c, s, h), l)
  {
    ReleasesAged(c, s, DoTakeBarrGrant(c, s, h), l);
    if Manager(c, l) == h {
      if s.hosts[h].noclear {
        forall i | 0 <= i < c.hosts ensures s.hosts[i].epoch <= s.hosts[h].epoch + 1 { BarrEpochs(c, s, h, i); }
        HistEpochs(c, s, l, s.hosts[h].epoch + 1);
        ShapeKept(s.locks[l], s.hosts[h].epoch);
      } else {
        assert AllCompacted([], map[]);
        ShapeCleared(s.locks[l], s.hosts[h].epoch);
      }
    }
  }

  /** Nothing of a lock that somebody owns is lost. */
  lemma OwnedLosesNothing(c: Config, s: State, h: nat, i: nat, l: nat)
    requires Wf(c, s) && CanTakeBarrGrant(c, s, h) && LocksOk(c, s) && l < c.locks && LogOk(c, s, l)
    requires i < c.hosts && Owns(s.hosts[i], l)
    ensures DoTakeBarrGrant(c, s, h).locks[l].lost == s.locks[l].lost
  {
    forall r | r in s.locks[l].log ensures s.hosts[Manager(c, l)].noclear || r.epoch <= s.hosts[Manager(c, l)].epoch {
      if !s.hosts[Manager(c, l)].noclear && r.epoch > s.hosts[Manager(c, l)].epoch {
        LosesUnderWay(c, s, l, r);
        NoOwner(c, s, r.from, l, i);
      }
    }
  }

  lemma TakeBarrGrantScope(c: Config, s: State, h: nat, i: nat, l: nat)
    requires Wf(c, s) && CanTakeBarrGrant(c, s, h) && GoodAt(c, s, h) && LocksOk(c, s) && i < c.hosts && l < c.locks
    requires LogOk(c, s, l) && ScopeOk(c, s, i, l) && LockGrantOk(c, s, i, l)
    ensures ScopeOk(c, DoTakeBarrGrant(c, s, h), i, l) && LockGrantOk(c, DoTakeBarrGrant(c, s, h), i, l)
  {
    assert OnStack(s.hosts[i], l) == OnStack(DoTakeBarrGrant(c, s, h).hosts[i], l);
    if Owns(s.hosts[i], l) { OwnedLosesNothing(c, s, h, i, l); }
  }

  lemma TakeBarrGrantReleases(c: Config, s: State, h: nat)
    requires Wf(c, s) && CanTakeBarrGrant(c, s, h) && Core(c, s) && ReleasesOk(c, s)
    requires Wf(c, DoTakeBarrGrant(c, s, h))
    ensures ReleasesOk(c, DoTakeBarrGrant(c, s, h))
  {
    var s' := DoTakeBarrGrant(c, s, h);
    assert GoodAt(c, s, h);
    forall l | 0 <= l < c.locks ensures LogOk(c, s', l) {
      assert LogOk(c, s, l);
      TakeBarrGrantLog(c, s, h, l);
    }
    forall i, l | 0 <= i < c.hosts && 0 <= l < c.locks ensures ScopeOk(c, s', i, l) && LockGrantOk(c, s', i, l) {
      assert LogOk(c, s, l) && ScopeOk(c, s, i, l) && LockGrantOk(c, s, i, l);
      TakeBarrGrantScope(c, s, h, i, l);
    }
  }
}
