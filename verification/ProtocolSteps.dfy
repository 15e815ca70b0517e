/** The invariants hold at the start, and every step keeps them. */
module ProtocolSteps {
  import opened Pages
  import opened Protocol
  import opened ProtocolInv
  import opened ProtocolHosts
  import opened ProtocolLocks
  import opened ProtocolBarrier
  import opened ProtocolCoherence
  import opened ProtocolUnits
  import opened ProtocolReleases
  import opened ProtocolReports

  ghost predicate Inv(c: Config, s: State)
    requires Wf(c, s)
  {
    Core(c, s) && CopiesOk(c, s) && UnitsOk(c, s) && ReleasesOk(c, s)
  }

  ghost predicate Holds(c: Config, s: State) { Wf(c, s) && Inv(c, s) }

  // ---------------------------------------------------------------- the start

  lemma InitGood(c: Config, s: State, h: nat)
    requires Init(c, s) && h < c.hosts
    ensures GoodAt(c, s, h) && CountsOk(s, h)
  {
    assert InitHost(c, s.hosts[h]);
    assert forall i, p: nat :: 0 <= i < |s.hosts[h].stack| ==> !Listed(s.hosts[h].stack, i, p);
  }

  lemma InitCore(c: Config, s: State)
    requires Init(c, s)
    ensures Core(c, s)
  {
    forall h | 0 <= h < c.hosts ensures GoodAt(c, s, h) && CountsOk(s, h) { InitGood(c, s, h); }
    assert AllClassified(map[], map[]);
    forall h, l | 0 <= h < c.hosts && 0 <= l < c.locks ensures StatusOk(s.hosts[h], s.locks[l], h, l) {
      assert InitHost(c, s.hosts[h]);
    }
  }

  lemma InitCopies(c: Config, s: State)
    requires Init(c, s)
    ensures CopiesOk(c, s) && UnitsOk(c, s)
  {
    forall h, p | 0 <= h < c.hosts && 0 <= p < c.pages ensures CopyOk(c, s, h, p) && SnapOk(c, s, h, p) {
      assert InitHost(c, s.hosts[h]);
    }
    forall h | 0 <= h < c.hosts ensures GrantOk(c, s, h) { assert InitHost(c, s.hosts[h]); }
    forall h, p, u | 0 <= h < c.hosts && 0 <= p < c.pages && 0 <= u < UNITS ensures UnitAt(c, s, h, p, u) {
      assert InitHost(c, s.hosts[h]);
    }
  }

  lemma InitReleases(c: Config, s: State)
    requires Init(c, s)
    ensures ReleasesOk(c, s)
  {
    assert AllCompacted([], map[]);
    forall h, l | 0 <= h < c.hosts && 0 <= l < c.locks ensures ScopeOk(c, s, h, l) && LockGrantOk(c, s, h, l) {
      assert InitHost(c, s.hosts[h]);
    }
  }

  // ---------------------------------------------------------------- one step

  /** A step of host h that leaves the locks, its standing with them and the barrier alone. */
  lemma Quiet(c: Config, s: State, s': State, h: nat)
    requires Wf(c, s) && Inv(c, s) && Wf(c, s') && h < c.hosts
    requires s'.hosts == s.hosts[h := s'.hosts[h]] && GoodAt(c, s', h)
    requires SameStanding(s.hosts[h], s'.hosts[h]) && SameClock(s.hosts[h], s'.hosts[h])
    requires s'.hosts[h].barrGrant == s.hosts[h].barrGrant && s'.hosts[h].barriers == s.hosts[h].barriers
    requires (s'.hosts[h].phase == Waiting(Barr) <==> s.hosts[h].phase == Waiting(Barr))
    requires s'.acqc == s.acqc && s'.arrived == s.arrived && s'.reported == s.reported
    requires s'.barrNotices == s.barrNotices && s'.barrScope == s.barrScope && s'.locks == s.locks
    ensures Core(c, s') && ReleasesOk(c, s')
  {
    assert CountsOk(s, h);
    OneHost(c, s, s', h);
    OneHostLocks(c, s, s', h);
    forall i | 0 <= i < c.hosts ensures SameStanding(s.hosts[i], s'.hosts[i]) && SameClock(s.hosts[i], s'.hosts[i]) {
    }
    ReleasesKept(c, s, s');
  }

  lemma EvictInv(c: Config, s: State, h: nat, p: nat)
    requires Wf(c, s) && Inv(c, s) && CanEvict(c, s, h, p)
    ensures Holds(c, DoEvict(c, s, h, p))
  {
    assert GoodAt(c, s, h);
    EvictGood(c, s, h, p);
    Quiet(c, s, DoEvict(c, s, h, p), h);
    EvictCopies(c, s, h, p);
    EvictUnits(c, s, h, p);
  }

  lemma FaultInv(c: Config, s: State, h: nat, p: nat, write: bool)
    requires Wf(c, s) && Inv(c, s) && CanFault(c, s, h, p)
    ensures Holds(c, DoFault(c, s, h, p, write))
  {
    assert GoodAt(c, s, h);
    FaultGood(c, s, h, p, write);
    Quiet(c, s, DoFault(c, s, h, p, write), h);
    FaultCopies(c, s, h, p, write);
    FaultUnits(c, s, h, p, write);
  }

  lemma UpgradeInv(c: Config, s: State, h: nat, p: nat)
    requires Wf(c, s) && Inv(c, s) && CanUpgrade(c, s, h, p)
    ensures Holds(c, DoUpgrade(c, s, h, p))
  {
    assert GoodAt(c, s, h);
    UpgradeGood(c, s, h, p);
    Quiet(c, s, DoUpgrade(c, s, h, p), h);
    UpgradeCopies(c, s, h, p);
    UpgradeUnits(c, s, h, p);
  }

  lemma WriteInv(c: Config, s: State, h: nat, p: nat, u: nat, v: Word)
    requires Wf(c, s) && Inv(c, s) && CanWrite(c, s, h, p, u)
    ensures Holds(c, DoWrite(c, s, h, p, u, v))
  {
    assert GoodAt(c, s, h);
    WriteGood(c, s, h, p, u, v);
    Quiet(c, s, DoWrite(c, s, h, p, u, v), h);
    WriteCopies(c, s, h, p, u, v);
    WriteUnits(c, s, h, p, u, v);
  }

  lemma HomeFaultInv(c: Config, s: State, h: nat, p: nat)
    requires Wf(c, s) && Inv(c, s) && CanHomeFault(c, s, h, p)
    ensures Holds(c, DoHomeFault(c, s, h, p))
  {
    assert GoodAt(c, s, h);
    Quiet(c, s, DoHomeFault(c, s, h, p), h);
    HomeFaultCopies(c, s, h, p);
    HomeFaultUnits(c, s, h, p);
  }

  lemma HomeWriteInv(c: Config, s: State, h: nat, p: nat, u: nat, v: Word)
    requires Wf(c, s) && Inv(c, s) && CanHomeWrite(c, s, h, p, u)
    ensures Holds(c, DoHomeWrite(c, s, h, p, u, v))
  {
    assert GoodAt(c, s, h);
    Quiet(c, s, DoHomeWrite(c, s, h, p, u, v), h);
    HomeWriteCopies(c, s, h, p, u, v);
    HomeWriteUnits(c, s, h, p, u, v);
  }

  lemma ServeGetpInv(c: Config, s: State, h: nat)
    requires Wf(c, s) && Inv(c, s) && CanServeGetp(c, s, h)
    ensures Holds(c, DoServeGetp(c, s, h))
  {
    assert GoodAt(c, s, h);
    ServeGetpGood(c, s, h);
    Quiet(c, s, DoServeGetp(c, s, h), h);
    ServeGetpCopies(c, s, h);
    ServeGetpUnits(c, s, h);
  }

  lemma TakePageInv(c: Config, s: State, h: nat)
    requires Wf(c, s) && Inv(c, s) && CanTakePage(c, s, h)
    ensures Holds(c, DoTakePage(c, s, h))
  {
    assert GoodAt(c, s, h);
    TakePageGood(c, s, h);
    Quiet(c, s, DoTakePage(c, s, h), h);
    TakePageCopies(c, s, h);
    TakePageUnits(c, s, h);
  }

  lemma BeginSyncInv(c: Config, s: State, h: nat, op: SyncOp)
    requires Wf(c, s) && Inv(c, s) && CanBeginSync(c, s, h, op)
    ensures Holds(c, DoBeginSync(c, s, h, op))
  {
    assert GoodAt(c, s, h);
    BeginSyncGood(c, s, h, op);
    Quiet(c, s, DoBeginSync(c, s, h, op), h);
    BeginSyncCopies(c, s, h, op);
    BeginSyncUnits(c, s, h, op);
  }

  /** Flushing a page changes nothing that locks and barriers look at. */
  lemma EndPageFrame(c: Config, s: State, h: nat, p: nat)
    requires Wf(c, s) && CanEndPage(c, s, h, p)
    ensures var s' := DoEndPage(c, s, h, p);
      && s'.hosts == s.hosts[h := s'.hosts[h]]
      && SameStanding(s.hosts[h], s'.hosts[h]) && SameClock(s.hosts[h], s'.hosts[h])
      && s'.hosts[h].barrGrant == s.hosts[h].barrGrant && s'.hosts[h].barriers == s.hosts[h].barriers
      && (s'.hosts[h].phase == Waiting(Barr) <==> s.hosts[h].phase == Waiting(Barr))
  {
  }

  lemma EndPageCore(c: Config, s: State, h: nat, p: nat)
    requires Wf(c, s) && Inv(c, s) && CanEndPage(c, s, h, p)
    ensures Wf(c, DoEndPage(c, s, h, p))
    ensures Core(c, DoEndPage(c, s, h, p)) && ReleasesOk(c, DoEndPage(c, s, h, p))
  {
    assert GoodAt(c, s, h);
    EndPageGood(c, s, h, p);
    EndPageFrame(c, s, h, p);
    Quiet(c, s, DoEndPage(c, s, h, p), h);
  }

  lemma EndPageInv(c: Config, s: State, h: nat, p: nat)
    requires Wf(c, s) && Inv(c, s) && CanEndPage(c, s, h, p)
    ensures Holds(c, DoEndPage(c, s, h, p))
  {
    EndPageCore(c, s, h, p);
    if Remote(c, h, p) {
      FlushCopies(c, s, h, p);
      FlushUnits(c, s, h, p);
    } else {
      ScanCopies(c, s, h, p);
      ScanUnits(c, s, h, p);
    }
  }

  lemma ServeDiffInv(c: Config, s: State, h: nat, p: nat)
    requires Wf(c, s) && Inv(c, s) && CanServeDiff(c, s, h, p)
    ensures Holds(c, DoServeDiff(c, s, h, p))
  {
    assert GoodAt(c, s, h);
    ServeDiffGood(c, s, h, p);
    Quiet(c, s, DoServeDiff(c, s, h, p), h);
    ServeDiffCopies(c, s, h, p);
    ServeDiffUnits(c, s, h, p);
  }

  lemma TakeDiffGrantInv(c: Config, s: State, h: nat)
    requires Wf(c, s) && Inv(c, s) && CanTakeDiffGrant(c, s, h)
    ensures Holds(c, DoTakeDiffGrant(c, s, h))
  {
    assert GoodAt(c, s, h);
    TakeDiffGrantGood(c, s, h);
    Quiet(c, s, DoTakeDiffGrant(c, s, h), h);
    TakeDiffGrantCopies(c, s, h);
    TakeDiffGrantUnits(c, s, h);
  }

  lemma SendAcqInv(c: Config, s: State, h: nat)
    requires Wf(c, s) && Inv(c, s) && CanSendAcq(c, s, h)
    ensures Holds(c, DoSendAcq(c, s, h))
  {
    assert GoodAt(c, s, h) && CountsOk(s, h);
    SendAcqGood(c, s, h);
    OneHost(c, s, DoSendAcq(c, s, h), h);
    SendAcqLocks(c, s, h);
    SendAcqReleases(c, s, h);
    SendAcqCopies(c, s, h);
    SendAcqUnits(c, s, h);
  }

  lemma SendRelInv(c: Config, s: State, h: nat, parts: seq<set<nat>>)
    requires Wf(c, s) && Inv(c, s) && CanSendRel(c, s, h, parts)
    ensures Holds(c, DoSendRel(c, s, h, parts))
  {
    assert GoodAt(c, s, h) && CountsOk(s, h);
    SendRelGood(c, s, h, parts);
    OneHost(c, s, DoSendRel(c, s, h, parts), h);
    SendRelLocks(c, s, h, parts);
    ReportParts(Top(s.hosts[h]).pages, parts);
    SendRelReleases(c, s, h, parts);
    SendRelCopies(c, s, h, parts);
    SendRelUnits(c, s, h, parts);
  }

  lemma SendBarrInv(c: Config, s: State, h: nat)
    requires Wf(c, s) && Inv(c, s) && CanSendBarr(c, s, h)
    ensures Holds(c, DoSendBarr(c, s, h))
  {
    assert GoodAt(c, s, h) && CountsOk(s, h);
    SendBarrGood(c, s, h);
    OneHost(c, s, DoSendBarr(c, s, h), h);
    OneHostLocks(c, s, DoSendBarr(c, s, h), h);
    ReleasesKept(c, s, DoSendBarr(c, s, h));
    SendBarrCopies(c, s, h);
    SendBarrUnits(c, s, h);
  }

  lemma ResumeInv(c: Config, s: State, h: nat)
    requires Wf(c, s) && Inv(c, s) && CanResume(c, s, h)
    ensures Holds(c, DoResume(c, s, h))
  {
    assert GoodAt(c, s, h) && CountsOk(s, h);
    ResumeGood(c, s, h);
    OneHost(c, s, DoResume(c, s, h), h);
    ResumeLocks(c, s, h);
    ResumeReleases(c, s, h);
    ResumeCopies(c, s, h);
    ResumeUnits(c, s, h);
  }

  lemma TakeLockGrantInv(c: Config, s: State, h: nat)
    requires Wf(c, s) && Inv(c, s) && CanTakeLockGrant(c, s, h)
    ensures Holds(c, DoTakeLockGrant(c, s, h))
  {
    assert GoodAt(c, s, h) && CountsOk(s, h);
    TakeLockGrantGood(c, s, h);
    OneHost(c, s, DoTakeLockGrant(c, s, h), h);
    TakeLockGrantLocks(c, s, h);
    TakeLockGrantReleases(c, s, h);
    TakeLockGrantCopies(c, s, h);
    TakeLockGrantUnits(c, s, h);
  }

  lemma ServeAcqInv(c: Config, s: State, h: nat, l: nat)
    requires Wf(c, s) && Inv(c, s) && CanServeAcq(c, s, h, l)
    ensures Holds(c, DoServeAcq(c, s, h, l))
  {
    ServeAcqHosts(c, s, h, l);
    ServeAcqLocks(c, s, h, l);
    ServeAcqReleases(c, s, h, l);
    ServeAcqCopies(c, s, h, l);
    ServeAcqUnits(c, s, h, l);
  }

  lemma ServeWtntInv(c: Config, s: State, h: nat, l: nat)
    requires Wf(c, s) && Inv(c, s) && CanServeWtnt(c, s, h, l)
    ensures Holds(c, DoServeWtnt(c, s, h, l))
  {
    ServeWtntHosts(c, s, h, l);
    ServeWtntLocks(c, s, h, l);
    ServeWtntReleases(c, s, h, l);
    ServeWtntCopies(c, s, h, l);
    ServeWtntUnits(c, s, h, l);
  }

  lemma ServeRelInv(c: Config, s: State, h: nat, l: nat)
    requires Wf(c, s) && Inv(c, s) && CanServeRel(c, s, h, l)
    ensures Holds(c, DoServeRel(c, s, h, l))
  {
    ServeRelHostsOk(c, s, h, l);
    ServeRelLocks(c, s, h, l);
    ServeRelReleases(c, s, h, l);
    ServeRelCopies(c, s, h, l);
    ServeRelUnits(c, s, h, l);
  }

  lemma ServeBarrReleases(c: Config, s: State, h: nat)
    requires Wf(c, s) && CanServeBarr(c, s, h) && ReleasesOk(c, s) && Wf(c, DoServeBarr(c, s, h))
    ensures ReleasesOk(c, DoServeBarr(c, s, h))
  {
    var s' := DoServeBarr(c, s, h);
    forall i | 0 <= i < c.hosts ensures SameStanding(s.hosts[i], s'.hosts[i]) && SameClock(s.hosts[i], s'.hosts[i]) {
    }
    ReleasesKept(c, s, s');
  }

  lemma ServeBarrInv(c: Config, s: State, h: nat)
    requires Wf(c, s) && Inv(c, s) && CanServeBarr(c, s, h)
    ensures Holds(c, DoServeBarr(c, s, h))
  {
    ServeBarrHostsOk(c, s, h);
    ServeBarrBarrier(c, s, h);
    ServeBarrLocks(c, s, h);
    ServeBarrReleases(c, s, h);
    if LastArrival(c, s) { ServeBarrLast(c, s, h); } else { ServeBarrEarly(c, s, h); }
    ServeBarrUnits(c, s, h);
  }

  lemma TakeBarrGrantInv(c: Config, s: State, h: nat)
    requires Wf(c, s) && Inv(c, s) && CanTakeBarrGrant(c, s, h)
    ensures Holds(c, DoTakeBarrGrant(c, s, h))
  {
    assert GoodAt(c, s, h) && CountsOk(s, h);
    TakeBarrGrantGood(c, s, h);
    OneHost(c, s, DoTakeBarrGrant(c, s, h), h);
    OneHostLocks(c, s, DoTakeBarrGrant(c, s, h), h);
    TakeBarrGrantReleases(c, s, h);
    TakeBarrGrantCopies(c, s, h);
    TakeBarrGrantUnits(c, s, h);
  }

  /** The steps between two synchronisations, and the end of an interval. */
  predicate OfPages(step: Step) {
    || step.Evict? || step.Fault? || step.Upgrade? || step.Write? || step.HomeFault? || step.HomeWrite?
    || step.ServeGetp? || step.TakePage? || step.BeginSync? || step.EndPage? || step.ServeDiff? || step.TakeDiffGrant?
  }

  lemma StepInv(c: Config, s: State, step: Step)
    requires Wf(c, s) && Inv(c, s) && Enabled(c, s, step)
    ensures Holds(c, Apply(c, s, step))
  {
    match step
    case Evict(h, p) => EvictInv(c, s, h, p);
    case Fault(h, p, write) => FaultInv(c, s, h, p, write);
    case Upgrade(h, p) => UpgradeInv(c, s, h, p);
    case Write(h, p, u, v) => WriteInv(c, s, h, p, u, v);
    case HomeFault(h, p) => HomeFaultInv(c, s, h, p);
    case HomeWrite(h, p, u, v) => HomeWriteInv(c, s, h, p, u, v);
    case ServeGetp(h) => ServeGetpInv(c, s, h);
    case TakePage(h) => TakePageInv(c, s, h);
    case BeginSync(h, op) => BeginSyncInv(c, s, h, op);
    case EndPage(h, p) => EndPageInv(c, s, h, p);
    case ServeDiff(h, p) => ServeDiffInv(c, s, h, p);
    case TakeDiffGrant(h) => TakeDiffGrantInv(c, s, h);
    case SendAcq(h) => SendAcqInv(c, s, h);
    case SendRel(h, parts) => SendRelInv(c, s, h, parts);
    case SendBarr(h) => SendBarrInv(c, s, h);
    case ServeAcq(h, l) => ServeAcqInv(c, s, h, l);
    case ServeWtnt(h, l) => ServeWtntInv(c, s, h, l);
    case ServeRel(h, l) => ServeRelInv(c, s, h, l);
    case TakeLockGrant(h) => TakeLockGrantInv(c, s, h);
    case ServeBarr(h) => ServeBarrInv(c, s, h);
    case TakeBarrGrant(h) => TakeBarrGrantInv(c, s, h);
    case Resume(h) => ResumeInv(c, s, h);
  }

  lemma InitInv(c: Config, s: State)
    requires Init(c, s)
    ensures Holds(c, s)
  {
    InitCore(c, s);
    InitCopies(c, s);
    InitReleases(c, s);
  }
}
