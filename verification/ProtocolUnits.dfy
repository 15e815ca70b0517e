/** What becomes of each unit of each page between two barriers: a unit nobody writes stays as it
    was, and a unit only one host writes ends up at the home with that host's last value. */
module ProtocolUnits {
  import opened Pages
  import opened Protocol
  import opened ProtocolInv
  import opened ProtocolHosts
  import opened ProtocolBarrier

  // ---------------------------------------------------------------- what a step has to keep

  /** A step that writes nothing may move the unit between copy, diff and home, but where host h is
      the only writer it changes neither the copy nor what the home will hold. */
  ghost predicate UnitKept(c: Config, s: State, s': State, h: nat, p: nat, u: nat)
    requires Wf(c, s) && Wf(c, s') && h < c.hosts && p < c.pages && u < UNITS
  {
    var x, y := s.hosts[h], s'.hosts[h];
    && (y.barrGrant.Some? <==> x.barrGrant.Some?)
    && (y.lines[p].Valid() ==>
         x.lines[p].Valid() && Base(y, p)[u] == Base(x, p)[u] && y.lines[p].data[u] == x.lines[p].data[u])
    && (x.lines[p].Valid() && !y.lines[p].Valid() ==> Base(x, p)[u] == x.lines[p].data[u] && x.barrGrant.None?)
    && (OnlyBy(c, s, h, p, u) ==> HomePlus(s', h, p)[u] == HomePlus(s, h, p)[u])
    && (Unlisted(c, y, p) && y.lines[p].data[u] != y.lines[p].twin[u] ==>
         Unlisted(c, x, p) && x.lines[p].data[u] != x.lines[p].twin[u])
    && (p in y.diffs ==> p in x.diffs && y.diffs[p] == x.diffs[p])
    && (y.pageGrant.Some? && y.pageGrant.value.0 == p ==>
         y.pageGrant == x.pageGrant && (OnlyBy(c, s, h, p, u) ==> s'.mem[p][u] == s.mem[p][u]))
  }

  ghost predicate HomeUnitKept(c: Config, s: State, s': State, p: nat, u: nat)
    requires Wf(c, s) && Wf(c, s') && p < c.pages && u < UNITS
  {
    s'.snapshot == s.snapshot && (NobodyWrote(c, s, p, u) ==> s'.mem[p][u] == s.mem[p][u])
  }

  lemma SameWriters(c: Config, s: State, s': State, p: nat, u: nat)
    requires s'.last == s.last
    ensures forall h :: OnlyBy(c, s', h, p, u) <==> OnlyBy(c, s, h, p, u)
    ensures NobodyWrote(c, s', p, u) <==> NobodyWrote(c, s, p, u)
  {
    assert forall i :: Wrote(s', i, p, u) == Wrote(s, i, p, u);
  }

  lemma KeptUnit(c: Config, s: State, s': State, h: nat, p: nat, u: nat)
    requires Wf(c, s) && Wf(c, s') && h < c.hosts && p < c.pages && u < UNITS
    requires s'.last == s.last && UnitAt(c, s, h, p, u) && UnitKept(c, s, s', h, p, u)
    requires !Remote(c, h, p) ==> s.hosts[h].lines[p].state == UNMAP
    ensures UnitAt(c, s', h, p, u)
  {
    SameWriters(c, s, s', p, u);
  }

  lemma UnitsKept(c: Config, s: State, s': State)
    requires Wf(c, s) && Wf(c, s') && HostsOk(c, s) && UnitsOk(c, s) && s'.last == s.last
    requires forall h, p, u :: 0 <= h < c.hosts && 0 <= p < c.pages && 0 <= u < UNITS ==> UnitKept(c, s, s', h, p, u)
    requires forall p, u :: 0 <= p < c.pages && 0 <= u < UNITS ==> HomeUnitKept(c, s, s', p, u)
    ensures UnitsOk(c, s')
  {
    forall h, p, u | 0 <= h < c.hosts && 0 <= p < c.pages && 0 <= u < UNITS ensures UnitAt(c, s', h, p, u) {
      assert UnitAt(c, s, h, p, u) && UnitKept(c, s, s', h, p, u) && GoodAt(c, s, h);
      KeptUnit(c, s, s', h, p, u);
    }
    forall p, u | 0 <= p < c.pages && 0 <= u < UNITS ensures HomeUnitOk(c, s', p, u) {
      assert HomeUnitOk(c, s, p, u) && HomeUnitKept(c, s, s', p, u);
      SameWriters(c, s, s', p, u);
    }
  }

  // ---------------------------------------------------------------- steps that write nothing

  lemma EvictUnits(c: Config, s: State, h: nat, p: nat)
    requires Wf(c, s) && CanEvict(c, s, h, p) && HostsOk(c, s) && UnitsOk(c, s)
    ensures UnitsOk(c, DoEvict(c, s, h, p))
  {
    var s' := DoEvict(c, s, h, p);
    assert GoodAt(c, s, h);
    forall i, q, u | 0 <= i < c.hosts && 0 <= q < c.pages && 0 <= u < UNITS ensures UnitKept(c, s, s', i, q, u) {
    }
    forall q, u | 0 <= q < c.pages && 0 <= u < UNITS ensures HomeUnitKept(c, s, s', q, u) {
    }
    UnitsKept(c, s, s');
  }

  lemma FaultUnits(c: Config, s: State, h: nat, p: nat, write: bool)
    requires Wf(c, s) && CanFault(c, s, h, p) && HostsOk(c, s) && UnitsOk(c, s)
    ensures UnitsOk(c, DoFault(c, s, h, p, write))
  {
    var s' := DoFault(c, s, h, p, write);
    assert GoodAt(c, s, h);
    forall i, q, u | 0 <= i < c.hosts && 0 <= q < c.pages && 0 <= u < UNITS ensures UnitKept(c, s, s', i, q, u) {
    }
    forall q, u | 0 <= q < c.pages && 0 <= u < UNITS ensures HomeUnitKept(c, s, s', q, u) {
    }
    UnitsKept(c, s, s');
  }

  lemma UpgradeUnits(c: Config, s: State, h: nat, p: nat)
    requires Wf(c, s) && CanUpgrade(c, s, h, p) && HostsOk(c, s) && UnitsOk(c, s)
    ensures UnitsOk(c, DoUpgrade(c, s, h, p))
  {
    var s' := DoUpgrade(c, s, h, p);
    assert GoodAt(c, s, h);
    forall i, q, u | 0 <= i < c.hosts && 0 <= q < c.pages && 0 <= u < UNITS ensures UnitKept(c, s, s', i, q, u) {
    }
    forall q, u | 0 <= q < c.pages && 0 <= u < UNITS ensures HomeUnitKept(c, s, s', q, u) {
    }
    UnitsKept(c, s, s');
  }

  lemma HomeFaultUnits(c: Config, s: State, h: nat, p: nat)
    requires Wf(c, s) && CanHomeFault(c, s, h, p) && HostsOk(c, s) && UnitsOk(c, s)
    ensures UnitsOk(c, DoHomeFault(c, s, h, p))
  {
    var s' := DoHomeFault(c, s, h, p);
    assert GoodAt(c, s, h);
    forall i, q, u | 0 <= i < c.hosts && 0 <= q < c.pages && 0 <= u < UNITS ensures UnitKept(c, s, s', i, q, u) {
    }
    forall q, u | 0 <= q < c.pages && 0 <= u < UNITS ensures HomeUnitKept(c, s, s', q, u) {
    }
    UnitsKept(c, s, s');
  }

  lemma BeginSyncUnits(c: Config, s: State, h: nat, op: SyncOp)
    requires Wf(c, s) && CanBeginSync(c, s, h, op) && HostsOk(c, s) && UnitsOk(c, s)
    ensures UnitsOk(c, DoBeginSync(c, s, h, op))
  {
    var s' := DoBeginSync(c, s, h, op);
    assert GoodAt(c, s, h);
    forall i, q, u | 0 <= i < c.hosts && 0 <= q < c.pages && 0 <= u < UNITS ensures UnitKept(c, s, s', i, q, u) {
    }
    forall q, u | 0 <= q < c.pages && 0 <= u < UNITS ensures HomeUnitKept(c, s, s', q, u) {
    }
    UnitsKept(c, s, s');
  }

  lemma TakeDiffGrantUnits(c: Config, s: State, h: nat)
    requires Wf(c, s) && CanTakeDiffGrant(c, s, h) && HostsOk(c, s) && UnitsOk(c, s)
    ensures UnitsOk(c, DoTakeDiffGrant(c, s, h))
  {
    var s' := DoTakeDiffGrant(c, s, h);
    assert GoodAt(c, s, h);
    forall i, q, u | 0 <= i < c.hosts && 0 <= q < c.pages && 0 <= u < UNITS ensures UnitKept(c, s, s', i, q, u) {
    }
    forall q, u | 0 <= q < c.pages && 0 <= u < UNITS ensures HomeUnitKept(c, s, s', q, u) {
    }
    UnitsKept(c, s, s');
  }

  lemma SendAcqUnits(c: Config, s: State, h: nat)
    requires Wf(c, s) && CanSendAcq(c, s, h) && HostsOk(c, s) && UnitsOk(c, s)
    ensures UnitsOk(c, DoSendAcq(c, s, h))
  {
    var s' := DoSendAcq(c, s, h);
    assert GoodAt(c, s, h);
    ReadyMeansQuiet(c, s, h);
    forall i, q, u | 0 <= i < c.hosts && 0 <= q < c.pages && 0 <= u < UNITS ensures UnitKept(c, s, s', i, q, u) {
    }
    forall q, u | 0 <= q < c.pages && 0 <= u < UNITS ensures HomeUnitKept(c, s, s', q, u) {
    }
    UnitsKept(c, s, s');
  }

  lemma SendRelUnits(c: Config, s: State, h: nat, parts: seq<set<nat>>)
    requires Wf(c, s) && CanRelease(c, s, h) && HostsOk(c, s) && UnitsOk(c, s)
    ensures UnitsOk(c, DoSendRel(c, s, h, parts))
  {
    var s' := DoSendRel(c, s, h, parts);
    assert GoodAt(c, s, h);
    ReadyMeansQuiet(c, s, h);
    forall i, q, u | 0 <= i < c.hosts && 0 <= q < c.pages && 0 <= u < UNITS ensures UnitKept(c, s, s', i, q, u) {
    }
    forall q, u | 0 <= q < c.pages && 0 <= u < UNITS ensures HomeUnitKept(c, s, s', q, u) {
    }
    UnitsKept(c, s, s');
  }

  lemma SendBarrUnits(c: Config, s: State, h: nat)
    requires Wf(c, s) && CanSendBarr(c, s, h) && HostsOk(c, s) && UnitsOk(c, s)
    ensures UnitsOk(c, DoSendBarr(c, s, h))
  {
    var s' := DoSendBarr(c, s, h);
    assert GoodAt(c, s, h);
    ReadyMeansQuiet(c, s, h);
    forall i, q, u | 0 <= i < c.hosts && 0 <= q < c.pages && 0 <= u < UNITS ensures UnitKept(c, s, s', i, q, u) {
    }
    forall q, u | 0 <= q < c.pages && 0 <= u < UNITS ensures HomeUnitKept(c, s, s', q, u) {
    }
    UnitsKept(c, s, s');
  }

  lemma ResumeUnits(c: Config, s: State, h: nat)
    requires Wf(c, s) && CanResume(c, s, h) && HostsOk(c, s) && UnitsOk(c, s)
    ensures UnitsOk(c, DoResume(c, s, h))
  {
    var s' := DoResume(c, s, h);
    assert GoodAt(c, s, h);
    forall i, q, u | 0 <= i < c.hosts && 0 <= q < c.pages && 0 <= u < UNITS ensures UnitKept(c, s, s', i, q, u) {
    }
    forall q, u | 0 <= q < c.pages && 0 <= u < UNITS ensures HomeUnitKept(c, s, s', q, u) {
    }
    UnitsKept(c, s, s');
  }

  lemma TakeLockGrantUnits(c: Config, s: State, h: nat)
    requires Wf(c, s) && CanTakeLockGrant(c, s, h) && HostsOk(c, s) && UnitsOk(c, s)
    ensures UnitsOk(c, DoTakeLockGrant(c, s, h))
  {
    var s' := DoTakeLockGrant(c, s, h);
    assert GoodAt(c, s, h);
    forall i, q, u | 0 <= i < c.hosts && 0 <= q < c.pages && 0 <= u < UNITS ensures UnitKept(c, s, s', i, q, u) {
    }
    forall q, u | 0 <= q < c.pages && 0 <= u < UNITS ensures HomeUnitKept(c, s, s', q, u) {
    }
    UnitsKept(c, s, s');
  }

  lemma ServeAcqUnits(c: Config, s: State, h: nat, l: nat)
    requires Wf(c, s) && CanServeAcq(c, s, h, l) && HostsOk(c, s) && UnitsOk(c, s)
    ensures UnitsOk(c, DoServeAcq(c, s, h, l))
  {
    var s' := DoServeAcq(c, s, h, l);
    assert GoodAt(c, s, h);
    forall i, q, u | 0 <= i < c.hosts && 0 <= q < c.pages && 0 <= u < UNITS ensures UnitKept(c, s, s', i, q, u) {
    }
    forall q, u | 0 <= q < c.pages && 0 <= u < UNITS ensures HomeUnitKept(c, s, s', q, u) {
    }
    UnitsKept(c, s, s');
  }

  lemma ServeWtntUnits(c: Config, s: State, h: nat, l: nat)
    requires Wf(c, s) && CanServeWtnt(c, s, h, l) && HostsOk(c, s) && UnitsOk(c, s)
    ensures UnitsOk(c, DoServeWtnt(c, s, h, l))
  {
    var s' := DoServeWtnt(c, s, h, l);
    assert GoodAt(c, s, h);
    forall i, q, u | 0 <= i < c.hosts && 0 <= q < c.pages && 0 <= u < UNITS ensures UnitKept(c, s, s', i, q, u) {
    }
    forall q, u | 0 <= q < c.pages && 0 <= u < UNITS ensures HomeUnitKept(c, s, s', q, u) {
    }
    UnitsKept(c, s, s');
  }

  lemma ServeRelUnits(c: Config, s: State, h: nat, l: nat)
    requires Wf(c, s) && CanServeRel(c, s, h, l) && HostsOk(c, s) && UnitsOk(c, s)
    ensures UnitsOk(c, DoServeRel(c, s, h, l))
  {
    var s' := DoServeRel(c, s, h, l);
    assert GoodAt(c, s, h);
    assert forall i :: 0 <= i < c.hosts ==> s'.hosts[i] == ServeRelHost(c, s, h, l, i);
    forall i, q, u | 0 <= i < c.hosts && 0 <= q < c.pages && 0 <= u < UNITS ensures UnitKept(c, s, s', i, q, u) {
    }
    forall q, u | 0 <= q < c.pages && 0 <= u < UNITS ensures HomeUnitKept(c, s, s', q, u) {
    }
    UnitsKept(c, s, s');
  }

  lemma ScanUnits(c: Config, s: State, h: nat, p: nat)
    requires Wf(c, s) && CanEndPage(c, s, h, p) && HostsOk(c, s) && UnitsOk(c, s) && !Remote(c, h, p)
    ensures UnitsOk(c, DoEndPage(c, s, h, p))
  {
    var s' := DoEndPage(c, s, h, p);
    assert GoodAt(c, s, h);
    forall i, q, u | 0 <= i < c.hosts && 0 <= q < c.pages && 0 <= u < UNITS ensures UnitKept(c, s, s', i, q, u) {
    }
    forall q, u | 0 <= q < c.pages && 0 <= u < UNITS ensures HomeUnitKept(c, s, s', q, u) {
    }
    UnitsKept(c, s, s');
  }

  /** A diff only overwrites units its host wrote. */
  lemma ServedOwnUnit(c: Config, s: State, h: nat, p: nat, i: nat, q: nat, u: nat)
    requires Wf(c, s) && CanServeDiff(c, s, h, p) && i < c.hosts && q < c.pages && u < UNITS && i == h
    requires UnitAt(c, s, h, p, u) && GoodAt(c, s, h) && GoodAt(c, s, i)
    ensures UnitKept(c, s, DoServeDiff(c, s, h, p), i, q, u)
  {
  }

  lemma ServedOtherUnit(c: Config, s: State, h: nat, p: nat, i: nat, q: nat, u: nat)
    requires Wf(c, s) && CanServeDiff(c, s, h, p) && i < c.hosts && q < c.pages && u < UNITS && i != h
    requires UnitAt(c, s, h, p, u) && GoodAt(c, s, h) && GoodAt(c, s, i)
    ensures UnitKept(c, s, DoServeDiff(c, s, h, p), i, q, u)
  {
  }

  lemma ServeDiffUnits(c: Config, s: State, h: nat, p: nat)
    requires Wf(c, s) && CanServeDiff(c, s, h, p) && HostsOk(c, s) && UnitsOk(c, s)
    ensures UnitsOk(c, DoServeDiff(c, s, h, p))
  {
    var s' := DoServeDiff(c, s, h, p);
    assert GoodAt(c, s, h);
    forall i, q, u | 0 <= i < c.hosts && 0 <= q < c.pages && 0 <= u < UNITS ensures UnitKept(c, s, s', i, q, u) {
      assert UnitAt(c, s, h, p, u) && GoodAt(c, s, i);
      if i == h {
        ServedOwnUnit(c, s, h, p, i, q, u);
      } else {
        ServedOtherUnit(c, s, h, p, i, q, u);
      }
    }
    forall q, u | 0 <= q < c.pages && 0 <= u < UNITS ensures HomeUnitKept(c, s, s', q, u) {
      assert UnitAt(c, s, h, p, u);
    }
    UnitsKept(c, s, s');
  }

  // ---------------------------------------------------------------- flushing and fetching

  lemma FlushUnit(c: Config, s: State, h: nat, p: nat, u: nat)
    requires Wf(c, s) && CanEndPage(c, s, h, p) && GoodAt(c, s, h) && Remote(c, h, p)
    requires u < UNITS && UnitAt(c, s, h, p, u)
    ensures UnitAt(c, DoEndPage(c, s, h, p), h, p, u)
  {
    SameWriters(c, s, DoEndPage(c, s, h, p), p, u);
  }

  lemma FlushOther(c: Config, s: State, h: nat, p: nat, i: nat, q: nat, u: nat)
    requires Wf(c, s) && CanEndPage(c, s, h, p) && Remote(c, h, p)
    requires i < c.hosts && q < c.pages && u < UNITS && (i != h || q != p) && UnitAt(c, s, i, q, u) && GoodAt(c, s, i)
    ensures UnitAt(c, DoEndPage(c, s, h, p), i, q, u)
  {
    assert UnitKept(c, s, DoEndPage(c, s, h, p), i, q, u);
    KeptUnit(c, s, DoEndPage(c, s, h, p), i, q, u);
  }

  lemma FlushUnits(c: Config, s: State, h: nat, p: nat)
    requires Wf(c, s) && CanEndPage(c, s, h, p) && HostsOk(c, s) && UnitsOk(c, s) && Remote(c, h, p)
    ensures UnitsOk(c, DoEndPage(c, s, h, p))
  {
    var s' := DoEndPage(c, s, h, p);
    forall i, q, u | 0 <= i < c.hosts && 0 <= q < c.pages && 0 <= u < UNITS ensures UnitAt(c, s', i, q, u) {
      assert UnitAt(c, s, i, q, u) && GoodAt(c, s, i);
      if i == h && q == p {
        FlushUnit(c, s, h, p, u);
      } else {
        FlushOther(c, s, h, p, i, q, u);
      }
    }
    forall q, u | 0 <= q < c.pages && 0 <= u < UNITS ensures HomeUnitOk(c, s', q, u) {
      assert HomeUnitOk(c, s, q, u);
      SameWriters(c, s, s', q, u);
    }
  }

  lemma ServeGetpUnits(c: Config, s: State, h: nat)
    requires Wf(c, s) && CanServeGetp(c, s, h) && HostsOk(c, s) && UnitsOk(c, s)
    ensures UnitsOk(c, DoServeGetp(c, s, h))
  {
    var s' := DoServeGetp(c, s, h);
    forall i, q, u | 0 <= i < c.hosts && 0 <= q < c.pages && 0 <= u < UNITS ensures UnitAt(c, s', i, q, u) {
      assert UnitAt(c, s, i, q, u);
      SameWriters(c, s, s', q, u);
    }
    forall q, u | 0 <= q < c.pages && 0 <= u < UNITS ensures HomeUnitOk(c, s', q, u) {
      assert HomeUnitOk(c, s, q, u);
      SameWriters(c, s, s', q, u);
    }
  }

  lemma TakePageUnit(c: Config, s: State, h: nat, p: nat, u: nat)
    requires Wf(c, s) && CanTakePage(c, s, h) && GoodAt(c, s, h)
    requires p < c.pages && u < UNITS && UnitAt(c, s, h, p, u)
    ensures UnitAt(c, DoTakePage(c, s, h), h, p, u)
  {
    SameWriters(c, s, DoTakePage(c, s, h), p, u);
  }

  lemma TakePageUnits(c: Config, s: State, h: nat)
    requires Wf(c, s) && CanTakePage(c, s, h) && HostsOk(c, s) && UnitsOk(c, s)
    ensures UnitsOk(c, DoTakePage(c, s, h))
  {
    var s' := DoTakePage(c, s, h);
    forall i, q, u | 0 <= i < c.hosts && 0 <= q < c.pages && 0 <= u < UNITS ensures UnitAt(c, s', i, q, u) {
      assert UnitAt(c, s, i, q, u) && GoodAt(c, s, i);
      if i == h {
        TakePageUnit(c, s, h, q, u);
      } else {
        assert UnitKept(c, s, s', i, q, u);
        KeptUnit(c, s, s', i, q, u);
      }
    }
    forall q, u | 0 <= q < c.pages && 0 <= u < UNITS ensures HomeUnitOk(c, s', q, u) {
      assert HomeUnitOk(c, s, q, u);
      SameWriters(c, s, s', q, u);
    }
  }

  // ---------------------------------------------------------------- writes

  /** A write adds its host to the writers of that one unit. */
  lemma MoreWriters(c: Config, s: State, s': State, w: Site, v: Word, p: nat, u: nat)
    requires s'.last == s.last[w := v]
    ensures forall h :: OnlyBy(c, s', h, p, u) ==> OnlyBy(c, s, h, p, u)
    ensures forall h :: Wrote(s', h, p, u) <==> Wrote(s, h, p, u) || w == Site(h, p, u)
    ensures NobodyWrote(c, s', p, u) ==> NobodyWrote(c, s, p, u)
    ensures w.page == p && w.unit == u && w.host < c.hosts ==>
      !NobodyWrote(c, s', p, u) && forall h :: OnlyBy(c, s', h, p, u) ==> h == w.host
  {
    assert forall i :: Wrote(s, i, p, u) ==> Wrote(s', i, p, u);
    assert Wrote(s', w.host, w.page, w.unit);
  }

  lemma WriteUnit(c: Config, s: State, h: nat, p: nat, u: nat, v: Word, i: nat, q: nat, t: nat)
    requires Wf(c, s) && CanWrite(c, s, h, p, u) && GoodAt(c, s, h) && i < c.hosts && GoodAt(c, s, i)
    requires q < c.pages && t < UNITS && UnitAt(c, s, i, q, t) && HomeUnitOk(c, s, q, t)
    ensures UnitAt(c, DoWrite(c, s, h, p, u, v), i, q, t) && HomeUnitOk(c, DoWrite(c, s, h, p, u, v), q, t)
  {
    MoreWriters(c, s, DoWrite(c, s, h, p, u, v), Site(h, p, u), v, q, t);
  }

  lemma WriteUnits(c: Config, s: State, h: nat, p: nat, u: nat, v: Word)
    requires Wf(c, s) && CanWrite(c, s, h, p, u) && HostsOk(c, s) && UnitsOk(c, s)
    ensures UnitsOk(c, DoWrite(c, s, h, p, u, v))
  {
    assert GoodAt(c, s, h);
    forall i, q, t | 0 <= i < c.hosts && 0 <= q < c.pages && 0 <= t < UNITS
      ensures UnitAt(c, DoWrite(c, s, h, p, u, v), i, q, t)
    {
      assert UnitAt(c, s, i, q, t) && HomeUnitOk(c, s, q, t) && GoodAt(c, s, i);
      WriteUnit(c, s, h, p, u, v, i, q, t);
    }
    forall q, t | 0 <= q < c.pages && 0 <= t < UNITS ensures HomeUnitOk(c, DoWrite(c, s, h, p, u, v), q, t) {
      assert UnitAt(c, s, h, q, t) && HomeUnitOk(c, s, q, t);
      WriteUnit(c, s, h, p, u, v, h, q, t);
    }
  }

  lemma HomeWriteUnit(c: Config, s: State, h: nat, p: nat, u: nat, v: Word, i: nat, q: nat, t: nat)
    requires Wf(c, s) && CanHomeWrite(c, s, h, p, u) && GoodAt(c, s, h) && i < c.hosts && GoodAt(c, s, i)
    requires q < c.pages && t < UNITS && UnitAt(c, s, i, q, t) && HomeUnitOk(c, s, q, t)
    ensures UnitAt(c, DoHomeWrite(c, s, h, p, u, v), i, q, t) && HomeUnitOk(c, DoHomeWrite(c, s, h, p, u, v), q, t)
  {
    MoreWriters(c, s, DoHomeWrite(c, s, h, p, u, v), Site(h, p, u), v, q, t);
  }

  lemma HomeWriteUnits(c: Config, s: State, h: nat, p: nat, u: nat, v: Word)
    requires Wf(c, s) && CanHomeWrite(c, s, h, p, u) && HostsOk(c, s) && UnitsOk(c, s)
    ensures UnitsOk(c, DoHomeWrite(c, s, h, p, u, v))
  {
    assert GoodAt(c, s, h);
    forall i, q, t | 0 <= i < c.hosts && 0 <= q < c.pages && 0 <= t < UNITS
      ensures UnitAt(c, DoHomeWrite(c, s, h, p, u, v), i, q, t)
    {
      assert UnitAt(c, s, i, q, t) && HomeUnitOk(c, s, q, t) && GoodAt(c, s, i);
      HomeWriteUnit(c, s, h, p, u, v, i, q, t);
    }
    forall q, t | 0 <= q < c.pages && 0 <= t < UNITS ensures HomeUnitOk(c, DoHomeWrite(c, s, h, p, u, v), q, t) {
      assert UnitAt(c, s, h, q, t) && HomeUnitOk(c, s, q, t);
      HomeWriteUnit(c, s, h, p, u, v, h, q, t);
    }
  }

  // ---------------------------------------------------------------- the barrier

  lemma CompletedUnit(c: Config, s: State, h: nat, i: nat, p: nat, u: nat)
    requires Wf(c, s) && CanServeBarr(c, s, h) && LastArrival(c, s) && Wf(c, DoServeBarr(c, s, h))
    requires i < c.hosts && p < c.pages && u < UNITS
    requires GoodAt(c, s, i) && s.hosts[i].phase == Waiting(Barr)
    ensures UnitAt(c, DoServeBarr(c, s, h), i, p, u) && HomeUnitOk(c, DoServeBarr(c, s, h), p, u)
  {
  }

  lemma ServeBarrLastUnits(c: Config, s: State, h: nat)
    requires Wf(c, s) && CanServeBarr(c, s, h) && Core(c, s) && LastArrival(c, s) && Wf(c, DoServeBarr(c, s, h))
    ensures UnitsOk(c, DoServeBarr(c, s, h))
  {
    AllArrived(c, s, h);
    forall i, q, u | 0 <= i < c.hosts && 0 <= q < c.pages && 0 <= u < UNITS
      ensures UnitAt(c, DoServeBarr(c, s, h), i, q, u)
    {
      assert GoodAt(c, s, i);
      CompletedUnit(c, s, h, i, q, u);
    }
    forall q, u | 0 <= q < c.pages && 0 <= u < UNITS ensures HomeUnitOk(c, DoServeBarr(c, s, h), q, u) {
      assert GoodAt(c, s, h);
      CompletedUnit(c, s, h, h, q, u);
    }
  }

  lemma EarlyBarrUnits(c: Config, s: State, h: nat)
    requires Wf(c, s) && CanServeBarr(c, s, h) && HostsOk(c, s) && UnitsOk(c, s) && !LastArrival(c, s)
    requires Wf(c, DoServeBarr(c, s, h))
    ensures UnitsOk(c, DoServeBarr(c, s, h))
  {
    var s' := DoServeBarr(c, s, h);
    forall i, q, u | 0 <= i < c.hosts && 0 <= q < c.pages && 0 <= u < UNITS ensures UnitKept(c, s, s', i, q, u) {
    }
    forall q, u | 0 <= q < c.pages && 0 <= u < UNITS ensures HomeUnitKept(c, s, s', q, u) {
    }
    UnitsKept(c, s, s');
  }

  lemma ServeBarrUnits(c: Config, s: State, h: nat)
    requires Wf(c, s) && CanServeBarr(c, s, h) && Core(c, s) && UnitsOk(c, s) && Wf(c, DoServeBarr(c, s, h))
    ensures UnitsOk(c, DoServeBarr(c, s, h))
  {
    if LastArrival(c, s) {
      ServeBarrLastUnits(c, s, h);
    } else {
      EarlyBarrUnits(c, s, h);
    }
  }

  /** The copies a host keeps at its grant agree with the home in every unit that no host already
      past the barrier has written. */
  lemma TakeBarrGrantUnit(c: Config, s: State, h: nat, p: nat, u: nat)
    requires Wf(c, s) && CanTakeBarrGrant(c, s, h) && GoodAt(c, s, h) && Wf(c, DoTakeBarrGrant(c, s, h))
    requires p < c.pages && u < UNITS && UnitAt(c, s, h, p, u) && HomeUnitOk(c, s, p, u) && SnapOk(c, s, h, p)
    ensures UnitAt(c, DoTakeBarrGrant(c, s, h), h, p, u)
  {
    SameWriters(c, s, DoTakeBarrGrant(c, s, h), p, u);
    assert !Wrote(s, h, p, u);
    assert OnlyBy(c, s, h, p, u) ==> NobodyWrote(c, s, p, u);
  }

  lemma TakeBarrGrantUnits(c: Config, s: State, h: nat)
    requires Wf(c, s) && CanTakeBarrGrant(c, s, h) && HostsOk(c, s) && CopiesOk(c, s) && UnitsOk(c, s)
    requires Wf(c, DoTakeBarrGrant(c, s, h))
    ensures UnitsOk(c, DoTakeBarrGrant(c, s, h))
  {
    var s' := DoTakeBarrGrant(c, s, h);
    forall i, q, u | 0 <= i < c.hosts && 0 <= q < c.pages && 0 <= u < UNITS ensures UnitAt(c, s', i, q, u) {
      assert UnitAt(c, s, i, q, u) && GoodAt(c, s, i);
      if i == h {
        assert HomeUnitOk(c, s, q, u) && SnapOk(c, s, h, q);
        TakeBarrGrantUnit(c, s, h, q, u);
      } else {
        assert UnitKept(c, s, s', i, q, u);
        KeptUnit(c, s, s', i, q, u);
      }
    }
    forall q, u | 0 <= q < c.pages && 0 <= u < UNITS ensures HomeUnitOk(c, s', q, u) {
      assert HomeUnitOk(c, s, q, u);
      SameWriters(c, s, s', q, u);
    }
  }
}
