/** Every step keeps the copies coherent with their homes, up to notices on their way. */
module ProtocolCoherence {
  import opened Pages
  import opened Protocol
  import opened ProtocolInv
  import opened ProtocolHosts
  import opened ProtocolBarrier

  // ---------------------------------------------------------------- what a step has to keep

  /** Page p as host h may see it: notices stay, and the home forgets neither that the page is
      shared nor that it may have written it. */
  ghost predicate HomeKept(c: Config, s: State, s': State, h: nat, p: nat)
    requires Wf(c, s) && Wf(c, s') && h < c.hosts && p < c.pages
  {
    && (Stale(c, s, h, p) ==> Stale(c, s', h, p))
    && (Stale(c, s', h, p) || ((s.rdnt[p] ==> s'.rdnt[p]) && (HomeDirty(c, s, p) ==> HomeDirty(c, s', p))))
  }

  ghost predicate CopyKept(c: Config, s: State, s': State, h: nat, p: nat)
    requires Wf(c, s) && Wf(c, s') && h < c.hosts && p < c.pages
  {
    Remote(c, h, p) && s'.hosts[h].lines[p].Valid() && !Stale(c, s', h, p) ==>
      && s.hosts[h].lines[p].Valid()
      && (Base(s.hosts[h], p) == HomePlus(s, h, p) ==>
            HomeDirty(c, s', p) || Base(s'.hosts[h], p) == HomePlus(s', h, p))
  }

  predicate SnapKept(c: Config, s: State, s': State, h: nat, p: nat)
    requires Wf(c, s) && Wf(c, s') && h < c.hosts && p < c.pages
  {
    Remote(c, h, p) && s'.hosts[h].barrGrant.Some? && s'.hosts[h].lines[p].Valid() ==>
      && s'.hosts[h].barrGrant == s.hosts[h].barrGrant && s'.snapshot == s.snapshot
      && s.hosts[h].lines[p].Valid() && s'.hosts[h].lines[p].data == s.hosts[h].lines[p].data
  }

  ghost predicate Kept(c: Config, s: State, s': State, h: nat, p: nat)
    requires Wf(c, s) && Wf(c, s') && h < c.hosts && p < c.pages
  {
    HomeKept(c, s, s', h, p) && CopyKept(c, s, s', h, p) && SnapKept(c, s, s', h, p)
  }

  lemma KeptCopy(c: Config, s: State, s': State, h: nat, p: nat)
    requires Wf(c, s) && Wf(c, s') && h < c.hosts && p < c.pages
    requires CopyOk(c, s, h, p) && SnapOk(c, s, h, p) && Kept(c, s, s', h, p)
    ensures CopyOk(c, s', h, p) && SnapOk(c, s', h, p)
  {
  }

  lemma KeptGrant(c: Config, s: State, s': State, h: nat)
    requires Wf(c, s) && Wf(c, s') && h < c.hosts && GrantOk(c, s, h)
    requires s'.hosts[h].pageGrant.Some? ==> s.hosts[h].pageGrant == s'.hosts[h].pageGrant
    requires s'.hosts[h].pageGrant.Some? && s'.hosts[h].pageGrant.value.0 < c.pages ==>
      var p := s'.hosts[h].pageGrant.value.0;
      HomeKept(c, s, s', h, p) && (s'.mem[p] == s.mem[p] || HomeDirty(c, s', p) || Stale(c, s', h, p))
    ensures GrantOk(c, s', h)
  {
  }

  predicate GrantsOrFewer(s: State, s': State) {
    |s'.hosts| == |s.hosts| &&
    forall h :: 0 <= h < |s.hosts| && s'.hosts[h].pageGrant.Some? ==> s'.hosts[h].pageGrant == s.hosts[h].pageGrant
  }

  /** The home copy of p is unchanged, or its change is covered for every host but `by`. */
  ghost predicate MemKept(c: Config, s: State, s': State, h: nat, p: nat)
    requires Wf(c, s) && Wf(c, s') && h < c.hosts && p < c.pages
  {
    s'.mem[p] == s.mem[p] || HomeDirty(c, s', p) || Stale(c, s', h, p)
      || (s.hosts[h].pageGrant.None? && s'.hosts[h].pageGrant.None?)
  }

  /** A step that sends no page and keeps the rest keeps the copies. */
  lemma CopiesKept(c: Config, s: State, s': State)
    requires Wf(c, s) && Wf(c, s') && CopiesOk(c, s) && GrantsOrFewer(s, s')
    requires forall h, p :: 0 <= h < c.hosts && 0 <= p < c.pages ==>
      Kept(c, s, s', h, p) && MemKept(c, s, s', h, p)
    ensures CopiesOk(c, s')
  {
    forall h, p | 0 <= h < c.hosts && 0 <= p < c.pages ensures CopyOk(c, s', h, p) && SnapOk(c, s', h, p) {
      assert CopyOk(c, s, h, p) && SnapOk(c, s, h, p) && Kept(c, s, s', h, p);
      KeptCopy(c, s, s', h, p);
    }
    forall h | 0 <= h < c.hosts ensures GrantOk(c, s', h) {
      assert GrantOk(c, s, h);
      var g := s'.hosts[h].pageGrant;
      if g.Some? && g.value.0 < c.pages {
        assert Kept(c, s, s', h, g.value.0) && MemKept(c, s, s', h, g.value.0);
      }
      KeptGrant(c, s, s', h);
    }
  }

  /** Reports only grow. */
  lemma StaleGrows(c: Config, s: State, s': State, h: nat, p: nat)
    requires Wf(c, s) && Wf(c, s') && h < c.hosts
    requires forall i :: 0 <= i < c.hosts && Reports(s, i, p) ==> Reports(s', i, p)
    requires s'.barrNotices == s.barrNotices && s'.hosts[h].barrGrant == s.hosts[h].barrGrant
    ensures Stale(c, s, h, p) ==> Stale(c, s', h, p)
  {
  }

  // ---------------------------------------------------------------- steps of the application

  lemma EvictCopies(c: Config, s: State, h: nat, p: nat)
    requires Wf(c, s) && CanEvict(c, s, h, p) && Core(c, s) && CopiesOk(c, s)
    ensures CopiesOk(c, DoEvict(c, s, h, p))
  {
    var s' := DoEvict(c, s, h, p);
    forall i, q | 0 <= i < c.hosts && 0 <= q < c.pages ensures Kept(c, s, s', i, q) && MemKept(c, s, s', i, q) {
      StaleGrows(c, s, s', i, q);
    }
    CopiesKept(c, s, s');
  }

  lemma FaultCopies(c: Config, s: State, h: nat, p: nat, write: bool)
    requires Wf(c, s) && CanFault(c, s, h, p) && Core(c, s) && CopiesOk(c, s)
    ensures CopiesOk(c, DoFault(c, s, h, p, write))
  {
    var s' := DoFault(c, s, h, p, write);
    forall i, q | 0 <= i < c.hosts && 0 <= q < c.pages ensures Kept(c, s, s', i, q) && MemKept(c, s, s', i, q) {
      StaleGrows(c, s, s', i, q);
    }
    CopiesKept(c, s, s');
  }

  lemma UpgradeCopies(c: Config, s: State, h: nat, p: nat)
    requires Wf(c, s) && CanUpgrade(c, s, h, p) && Core(c, s) && CopiesOk(c, s)
    ensures CopiesOk(c, DoUpgrade(c, s, h, p))
  {
    var s' := DoUpgrade(c, s, h, p);
    assert GoodAt(c, s, h);
    forall i, q | 0 <= i < c.hosts && 0 <= q < c.pages ensures Kept(c, s, s', i, q) && MemKept(c, s, s', i, q) {
      StaleGrows(c, s, s', i, q);
    }
    CopiesKept(c, s, s');
  }

  lemma WriteCopies(c: Config, s: State, h: nat, p: nat, u: nat, v: Word)
    requires Wf(c, s) && CanWrite(c, s, h, p, u) && Core(c, s) && CopiesOk(c, s)
    ensures CopiesOk(c, DoWrite(c, s, h, p, u, v))
  {
    var s' := DoWrite(c, s, h, p, u, v);
    assert GoodAt(c, s, h);
    forall i, q | 0 <= i < c.hosts && 0 <= q < c.pages ensures Kept(c, s, s', i, q) && MemKept(c, s, s', i, q) {
      StaleGrows(c, s, s', i, q);
    }
    CopiesKept(c, s, s');
  }

  lemma HomeFaultCopies(c: Config, s: State, h: nat, p: nat)
    requires Wf(c, s) && CanHomeFault(c, s, h, p) && Core(c, s) && CopiesOk(c, s)
    ensures CopiesOk(c, DoHomeFault(c, s, h, p))
  {
    var s' := DoHomeFault(c, s, h, p);
    forall i, q | 0 <= i < c.hosts && 0 <= q < c.pages ensures Kept(c, s, s', i, q) && MemKept(c, s, s', i, q) {
      StaleGrows(c, s, s', i, q);
    }
    CopiesKept(c, s, s');
  }

  lemma HomeWriteCopies(c: Config, s: State, h: nat, p: nat, u: nat, v: Word)
    requires Wf(c, s) && CanHomeWrite(c, s, h, p, u) && Core(c, s) && CopiesOk(c, s)
    ensures CopiesOk(c, DoHomeWrite(c, s, h, p, u, v))
  {
    var s' := DoHomeWrite(c, s, h, p, u, v);
    assert HomeDirty(c, s', p);
    forall i, q | 0 <= i < c.hosts && 0 <= q < c.pages ensures Kept(c, s, s', i, q) && MemKept(c, s, s', i, q) {
      StaleGrows(c, s, s', i, q);
    }
    CopiesKept(c, s, s');
  }

  lemma ServedDiffCopy(c: Config, s: State, h: nat, p: nat, i: nat, q: nat)
    requires Wf(c, s) && CanServeDiff(c, s, h, p) && GoodAt(c, s, h) && i < c.hosts && q < c.pages
    ensures var s' := DoServeDiff(c, s, h, p); Kept(c, s, s', i, q) && MemKept(c, s, s', i, q)
  {
    var s' := DoServeDiff(c, s, h, p);
    assert Reports(s', h, p);
    StaleGrows(c, s, s', i, q);
  }

  lemma ServeDiffCopies(c: Config, s: State, h: nat, p: nat)
    requires Wf(c, s) && CanServeDiff(c, s, h, p) && Core(c, s) && CopiesOk(c, s)
    ensures CopiesOk(c, DoServeDiff(c, s, h, p))
  {
    var s' := DoServeDiff(c, s, h, p);
    assert GoodAt(c, s, h);
    forall i, q | 0 <= i < c.hosts && 0 <= q < c.pages ensures Kept(c, s, s', i, q) && MemKept(c, s, s', i, q) {
      ServedDiffCopy(c, s, h, p, i, q);
    }
    CopiesKept(c, s, s');
  }

  /** GETP: the home notes that the page is shared and sends its copy. */
  lemma ServeGetpCopies(c: Config, s: State, h: nat)
    requires Wf(c, s) && CanServeGetp(c, s, h) && Core(c, s) && CopiesOk(c, s)
    ensures CopiesOk(c, DoServeGetp(c, s, h))
  {
    var s' := DoServeGetp(c, s, h);
    forall i, q | 0 <= i < c.hosts && 0 <= q < c.pages ensures CopyOk(c, s', i, q) && SnapOk(c, s', i, q) {
      assert CopyOk(c, s, i, q) && SnapOk(c, s, i, q);
      StaleGrows(c, s, s', i, q);
      KeptCopy(c, s, s', i, q);
    }
    forall i | 0 <= i < c.hosts ensures GrantOk(c, s', i) {
      assert GrantOk(c, s, i);
      if i != h {
        if s.hosts[i].pageGrant.Some? { StaleGrows(c, s, s', i, s.hosts[i].pageGrant.value.0); }
        KeptGrant(c, s, s', i);
      }
    }
  }

  /** GETPGRANT: the copy sent becomes the copy held. */
  lemma TakePageCopies(c: Config, s: State, h: nat)
    requires Wf(c, s) && CanTakePage(c, s, h) && Core(c, s) && CopiesOk(c, s)
    ensures CopiesOk(c, DoTakePage(c, s, h))
  {
    var s' := DoTakePage(c, s, h);
    assert GoodAt(c, s, h);
    var p := s.hosts[h].pageGrant.value.0;
    forall i, q | 0 <= i < c.hosts && 0 <= q < c.pages ensures CopyOk(c, s', i, q) && SnapOk(c, s', i, q) {
      assert CopyOk(c, s, i, q) && SnapOk(c, s, i, q);
      StaleGrows(c, s, s', i, q);
      if i == h && q == p {
        assert GrantOk(c, s, h);
      } else {
        KeptCopy(c, s, s', i, q);
      }
    }
    forall i | 0 <= i < c.hosts ensures GrantOk(c, s', i) {
      assert GrantOk(c, s, i);
      if s.hosts[i].pageGrant.Some? { StaleGrows(c, s, s', i, s.hosts[i].pageGrant.value.0); }
      KeptGrant(c, s, s', i);
    }
  }

  // ---------------------------------------------------------------- synchronisation steps

  lemma BeginSyncCopies(c: Config, s: State, h: nat, op: SyncOp)
    requires Wf(c, s) && CanBeginSync(c, s, h, op) && Core(c, s) && CopiesOk(c, s)
    ensures CopiesOk(c, DoBeginSync(c, s, h, op))
  {
    var s' := DoBeginSync(c, s, h, op);
    forall i, q | 0 <= i < c.hosts && 0 <= q < c.pages ensures Kept(c, s, s', i, q) && MemKept(c, s, s', i, q) {
      StaleGrows(c, s, s', i, q);
    }
    CopiesKept(c, s, s');
  }

  lemma TakeDiffGrantCopies(c: Config, s: State, h: nat)
    requires Wf(c, s) && CanTakeDiffGrant(c, s, h) && Core(c, s) && CopiesOk(c, s)
    ensures CopiesOk(c, DoTakeDiffGrant(c, s, h))
  {
    var s' := DoTakeDiffGrant(c, s, h);
    forall i, q | 0 <= i < c.hosts && 0 <= q < c.pages ensures Kept(c, s, s', i, q) && MemKept(c, s, s', i, q) {
      StaleGrows(c, s, s', i, q);
    }
    CopiesKept(c, s, s');
  }

  /** The diff of a dirty copy leaves: from now on the copy is compared with the home as it will be
      when the diff is applied. */
  lemma FlushedCopy(c: Config, s: State, h: nat, p: nat, i: nat, q: nat)
    requires Wf(c, s) && CanEndPage(c, s, h, p) && GoodAt(c, s, h) && Remote(c, h, p) && i < c.hosts && q < c.pages
    ensures var s' := DoEndPage(c, s, h, p); Kept(c, s, s', i, q) && MemKept(c, s, s', i, q)
  {
    var s' := DoEndPage(c, s, h, p);
    var x, y := s.hosts[h], s'.hosts[h];
    assert y.stack[0].dirtied == x.stack[0].dirtied;
    StaleGrows(c, s, s', i, q);
    if i == h && q == p && x.lines[p].state == RW {
      MergeRestores(x.lines[p].data, x.lines[p].twin);
    }
  }

  lemma FlushCopies(c: Config, s: State, h: nat, p: nat)
    requires Wf(c, s) && CanEndPage(c, s, h, p) && Core(c, s) && CopiesOk(c, s) && Remote(c, h, p)
    ensures CopiesOk(c, DoEndPage(c, s, h, p))
  {
    var s' := DoEndPage(c, s, h, p);
    assert GoodAt(c, s, h);
    forall i, q | 0 <= i < c.hosts && 0 <= q < c.pages ensures Kept(c, s, s', i, q) && MemKept(c, s, s', i, q) {
      FlushedCopy(c, s, h, p, i, q);
    }
    CopiesKept(c, s, s');
  }

  /** A home page written while shared is listed, which makes every other copy stale. */
  lemma ScanReports(c: Config, s: State, h: nat, p: nat, i: nat)
    requires Wf(c, s) && CanEndPage(c, s, h, p) && !Remote(c, h, p) && i < c.hosts
    ensures var s' := DoEndPage(c, s, h, p);
      && (Stale(c, s, i, p) ==> Stale(c, s', i, p))
      && (MustReport(c, s, h, p) && i != h ==> Stale(c, s', i, p))
      && (!MustReport(c, s, h, p) ==> s'.rdnt == s.rdnt)
  {
    var s' := DoEndPage(c, s, h, p);
    assert s.hosts[h].stack[0].dirtied <= s'.hosts[h].stack[0].dirtied;
    StaleGrows(c, s, s', i, p);
    if MustReport(c, s, h, p) {
      assert Reports(s', h, p);
    }
  }

  lemma ScanOther(c: Config, s: State, h: nat, p: nat, i: nat, q: nat)
    requires Wf(c, s) && CanEndPage(c, s, h, p) && !Remote(c, h, p) && i < c.hosts && q < c.pages && q != p
    ensures var s' := DoEndPage(c, s, h, p); HomeKept(c, s, s', i, q)
  {
    var s' := DoEndPage(c, s, h, p);
    assert s.hosts[h].stack[0].dirtied <= s'.hosts[h].stack[0].dirtied;
    StaleGrows(c, s, s', i, q);
  }

  lemma ScanCopy(c: Config, s: State, h: nat, p: nat, i: nat, q: nat)
    requires Wf(c, s) && CanEndPage(c, s, h, p) && !Remote(c, h, p) && i < c.hosts && q < c.pages
    requires CopyOk(c, s, i, q) && SnapOk(c, s, i, q) && GoodAt(c, s, h)
    ensures var s' := DoEndPage(c, s, h, p); CopyOk(c, s', i, q) && SnapOk(c, s', i, q)
  {
    var s' := DoEndPage(c, s, h, p);
    if q != p {
      ScanOther(c, s, h, p, i, q);
      KeptCopy(c, s, s', i, q);
    } else {
      ScanReports(c, s, h, p, i);
    }
  }

  lemma ScanGrant(c: Config, s: State, h: nat, p: nat, i: nat)
    requires Wf(c, s) && CanEndPage(c, s, h, p) && !Remote(c, h, p) && i < c.hosts
    requires GrantOk(c, s, i) && GoodAt(c, s, i) && GoodAt(c, s, h)
    ensures GrantOk(c, DoEndPage(c, s, h, p), i)
  {
    var s' := DoEndPage(c, s, h, p);
    var g := s.hosts[i].pageGrant;
    if g.Some? && g.value.0 < c.pages {
      if g.value.0 != p {
        ScanOther(c, s, h, p, i, g.value.0);
      } else {
        ScanReports(c, s, h, p, i);
      }
    }
  }

  lemma ScanCopies(c: Config, s: State, h: nat, p: nat)
    requires Wf(c, s) && CanEndPage(c, s, h, p) && Core(c, s) && CopiesOk(c, s) && !Remote(c, h, p)
    ensures CopiesOk(c, DoEndPage(c, s, h, p))
  {
    forall i, q | 0 <= i < c.hosts && 0 <= q < c.pages
      ensures CopyOk(c, DoEndPage(c, s, h, p), i, q) && SnapOk(c, DoEndPage(c, s, h, p), i, q)
    {
      assert CopyOk(c, s, i, q) && SnapOk(c, s, i, q) && GoodAt(c, s, h);
      ScanCopy(c, s, h, p, i, q);
    }
    forall i | 0 <= i < c.hosts ensures GrantOk(c, DoEndPage(c, s, h, p), i) {
      assert GrantOk(c, s, i) && GoodAt(c, s, i) && GoodAt(c, s, h);
      ScanGrant(c, s, h, p, i);
    }
  }

  lemma SendAcqCopies(c: Config, s: State, h: nat)
    requires Wf(c, s) && CanSendAcq(c, s, h) && Core(c, s) && CopiesOk(c, s)
    ensures CopiesOk(c, DoSendAcq(c, s, h))
  {
    var s' := DoSendAcq(c, s, h);
    assert GoodAt(c, s, h);
    ReadyMeansQuiet(c, s, h);
    forall i, q | 0 <= i < c.hosts && 0 <= q < c.pages ensures Kept(c, s, s', i, q) && MemKept(c, s, s', i, q) {
      StaleGrows(c, s, s', i, q);
    }
    CopiesKept(c, s, s');
  }

  lemma SendRelCopies(c: Config, s: State, h: nat, parts: seq<set<nat>>)
    requires Wf(c, s) && CanRelease(c, s, h) && Core(c, s) && CopiesOk(c, s)
    ensures CopiesOk(c, DoSendRel(c, s, h, parts))
  {
    var s' := DoSendRel(c, s, h, parts);
    assert GoodAt(c, s, h);
    ReadyMeansQuiet(c, s, h);
    forall i, q | 0 <= i < c.hosts && 0 <= q < c.pages ensures Kept(c, s, s', i, q) && MemKept(c, s, s', i, q) {
      StaleGrows(c, s, s', i, q);
    }
    CopiesKept(c, s, s');
  }

  /** At a barrier every page dirtied since the last one is in the report. */
  lemma SendBarrReports(c: Config, s: State, h: nat, p: nat)
    requires Wf(c, s) && CanSendBarr(c, s, h) && GoodAt(c, s, h)
    ensures p in Top(s.hosts[h]).pages <==> p in s.hosts[h].stack[0].dirtied
  {
    ReadyMeansQuiet(c, s, h);
    var x := s.hosts[h];
    assert p in x.stack[0].dirtied <==> Listed(x.stack, 0, p) || Unlisted(c, x, p);
  }

  lemma SendBarrCopies(c: Config, s: State, h: nat)
    requires Wf(c, s) && CanSendBarr(c, s, h) && Core(c, s) && CopiesOk(c, s)
    ensures CopiesOk(c, DoSendBarr(c, s, h))
  {
    var s' := DoSendBarr(c, s, h);
    assert GoodAt(c, s, h);
    ReadyMeansQuiet(c, s, h);
    forall i, q | 0 <= i < c.hosts && 0 <= q < c.pages ensures Kept(c, s, s', i, q) && MemKept(c, s, s', i, q) {
      SendBarrReports(c, s, h, q);
      StaleGrows(c, s, s', i, q);
    }
    CopiesKept(c, s, s');
  }

  lemma ResumeCopies(c: Config, s: State, h: nat)
    requires Wf(c, s) && CanResume(c, s, h) && Core(c, s) && CopiesOk(c, s)
    ensures CopiesOk(c, DoResume(c, s, h))
  {
    var s' := DoResume(c, s, h);
    assert GoodAt(c, s, h);
    forall i, q | 0 <= i < c.hosts && 0 <= q < c.pages ensures Kept(c, s, s', i, q) && MemKept(c, s, s', i, q) {
      StaleGrows(c, s, s', i, q);
    }
    CopiesKept(c, s, s');
  }

  lemma TakeLockGrantCopies(c: Config, s: State, h: nat)
    requires Wf(c, s) && CanTakeLockGrant(c, s, h) && Core(c, s) && CopiesOk(c, s)
    ensures CopiesOk(c, DoTakeLockGrant(c, s, h))
  {
    var s' := DoTakeLockGrant(c, s, h);
    assert GoodAt(c, s, h);
    forall i, q | 0 <= i < c.hosts && 0 <= q < c.pages ensures Kept(c, s, s', i, q) && MemKept(c, s, s', i, q) {
      StaleGrows(c, s, s', i, q);
    }
    CopiesKept(c, s, s');
  }

  // ---------------------------------------------------------------- steps of the managers

  lemma ServeAcqCopies(c: Config, s: State, h: nat, l: nat)
    requires Wf(c, s) && CanServeAcq(c, s, h, l) && Core(c, s) && CopiesOk(c, s)
    ensures CopiesOk(c, DoServeAcq(c, s, h, l))
  {
    var s' := DoServeAcq(c, s, h, l);
    forall i, q | 0 <= i < c.hosts && 0 <= q < c.pages ensures Kept(c, s, s', i, q) && MemKept(c, s, s', i, q) {
      StaleGrows(c, s, s', i, q);
    }
    CopiesKept(c, s, s');
  }

  lemma ServeWtntCopies(c: Config, s: State, h: nat, l: nat)
    requires Wf(c, s) && CanServeWtnt(c, s, h, l) && Core(c, s) && CopiesOk(c, s)
    ensures CopiesOk(c, DoServeWtnt(c, s, h, l))
  {
    var s' := DoServeWtnt(c, s, h, l);
    forall i, q | 0 <= i < c.hosts && 0 <= q < c.pages ensures Kept(c, s, s', i, q) && MemKept(c, s, s', i, q) {
      StaleGrows(c, s, s', i, q);
    }
    CopiesKept(c, s, s');
  }

  lemma ServeRelCopies(c: Config, s: State, h: nat, l: nat)
    requires Wf(c, s) && CanServeRel(c, s, h, l) && Core(c, s) && CopiesOk(c, s)
    ensures CopiesOk(c, DoServeRel(c, s, h, l))
  {
    var s' := DoServeRel(c, s, h, l);
    assert forall i :: 0 <= i < c.hosts ==> s'.hosts[i] == ServeRelHost(c, s, h, l, i);
    forall i, q | 0 <= i < c.hosts && 0 <= q < c.pages ensures Kept(c, s, s', i, q) && MemKept(c, s, s', i, q) {
      StaleGrows(c, s, s', i, q);
    }
    CopiesKept(c, s, s');
  }

  /** A BARR counted: its pages are now in the manager's list, named for somebody else unless the
      host itself was their only writer. */
  lemma RecordedForOthers(n: Notices, pages: set<nat>, h: nat, scope: int, i: nat, p: nat)
    requires h < MAXHOSTS && i < MAXHOSTS
    ensures var m := Record(n, pages, h, scope);
      && (p in pages && h != i ==> p in m && m[p].from != i)
      && (p in n && n[p].from != i ==> m[p].from != i)
  {
  }

  lemma ServeBarrStale(c: Config, s: State, h: nat, i: nat, p: nat)
    requires Wf(c, s) && CanServeBarr(c, s, h) && Core(c, s) && i < c.hosts && !LastArrival(c, s)
    requires Wf(c, DoServeBarr(c, s, h))
    ensures Stale(c, s, i, p) ==> Stale(c, DoServeBarr(c, s, h), i, p)
  {
    var s' := DoServeBarr(c, s, h);
    var pages := s.hosts[h].barr.value;
    RecordedForOthers(s.barrNotices, pages, h, s.barrScope, i, p);
    assert GoodAt(c, s, h);
    forall j | 0 <= j < c.hosts && j != i && Reports(s, j, p)
      ensures Reports(s', j, p) || (p in s'.barrNotices && s'.barrNotices[p].from != i)
    {
    }
  }

  lemma ServeBarrEarly(c: Config, s: State, h: nat)
    requires Wf(c, s) && CanServeBarr(c, s, h) && Core(c, s) && CopiesOk(c, s) && !LastArrival(c, s)
    requires Wf(c, DoServeBarr(c, s, h))
    ensures CopiesOk(c, DoServeBarr(c, s, h))
  {
    var s' := DoServeBarr(c, s, h);
    forall i, q | 0 <= i < c.hosts && 0 <= q < c.pages ensures Kept(c, s, s', i, q) && MemKept(c, s, s', i, q) {
      ServeBarrStale(c, s, h, i, q);
    }
    CopiesKept(c, s, s');
  }

  /** Of the other hosts only h, the last to arrive, can still report page p. */
  ghost predicate LastReporter(c: Config, s: State, h: nat, i: nat, p: nat)
    requires Wf(c, s) && CanServeBarr(c, s, h)
  {
    forall j :: 0 <= j < c.hosts && j != i && Reports(s, j, p) ==> j == h && p in s.hosts[h].barr.value
  }

  lemma LastReports(c: Config, s: State, h: nat, i: nat, p: nat)
    requires Wf(c, s) && CanServeBarr(c, s, h) && HostsOk(c, s) && BarrierOk(c, s) && LastArrival(c, s)
    ensures LastReporter(c, s, h, i, p)
  {
    AllArrived(c, s, h);
    forall j | 0 <= j < c.hosts && j != i && Reports(s, j, p)
      ensures j == h && p in s.hosts[h].barr.value
    {
      assert GoodAt(c, s, j);
    }
  }

  /** When the last host arrives, each valid copy is named in the grants or is the home copy. */
  lemma LastCopyNamed(c: Config, s: State, h: nat, i: nat, p: nat)
    requires Wf(c, s) && CanServeBarr(c, s, h) && LastArrival(c, s) && i < c.hosts && p < c.pages
    requires Wf(c, DoServeBarr(c, s, h))
    requires GoodAt(c, s, i) && GoodAt(c, s, c.homeOf[p]) && LastReporter(c, s, h, i, p) && CopyOk(c, s, i, p)
    requires s.hosts[i].barrGrant.None? && s.hosts[i].phase == Waiting(Barr)
    requires s.hosts[c.homeOf[p]].phase == Waiting(Barr)
    ensures var s' := DoServeBarr(c, s, h); CopyOk(c, s', i, p) && SnapOk(c, s', i, p)
  {
    RecordedForOthers(s.barrNotices, s.hosts[h].barr.value, h, s.barrScope, i, p);
  }

  lemma LastCopy(c: Config, s: State, h: nat, i: nat, p: nat)
    requires Wf(c, s) && CanServeBarr(c, s, h) && Core(c, s) && LastArrival(c, s)
    requires i < c.hosts && p < c.pages && CopyOk(c, s, i, p) && Wf(c, DoServeBarr(c, s, h))
    ensures var s' := DoServeBarr(c, s, h); CopyOk(c, s', i, p) && SnapOk(c, s', i, p)
  {
    AllArrived(c, s, h);
    LastReports(c, s, h, i, p);
    assert GoodAt(c, s, i) && GoodAt(c, s, c.homeOf[p]);
    LastCopyNamed(c, s, h, i, p);
  }

  lemma ServeBarrLast(c: Config, s: State, h: nat)
    requires Wf(c, s) && CanServeBarr(c, s, h) && Core(c, s) && CopiesOk(c, s) && LastArrival(c, s)
    requires Wf(c, DoServeBarr(c, s, h))
    ensures CopiesOk(c, DoServeBarr(c, s, h))
  {
    var s' := DoServeBarr(c, s, h);
    forall i, q | 0 <= i < c.hosts && 0 <= q < c.pages ensures CopyOk(c, s', i, q) && SnapOk(c, s', i, q) {
      assert CopyOk(c, s, i, q);
      LastCopy(c, s, h, i, q);
    }
    forall i | 0 <= i < c.hosts ensures GrantOk(c, s', i) {
      AllArrived(c, s, h);
      assert GoodAt(c, s, i);
    }
  }

  /** BARRGRANT: the copies it names go; those it does not name owe it nothing. */
  lemma TakeBarrGrantStale(c: Config, s: State, h: nat, i: nat, p: nat)
    requires Wf(c, s) && CanTakeBarrGrant(c, s, h) && i < c.hosts && p < c.pages
    requires Wf(c, DoTakeBarrGrant(c, s, h))
    ensures var s' := DoTakeBarrGrant(c, s, h);
      Stale(c, s, i, p) ==> Stale(c, s', i, p) || (i == h && !s'.hosts[i].lines[p].Valid()) || !Remote(c, i, p)
  {
    var s' := DoTakeBarrGrant(c, s, h);
    assert forall j :: 0 <= j < c.hosts && Reports(s, j, p) ==> Reports(s', j, p);
  }

  lemma TakeBarrGrantCopies(c: Config, s: State, h: nat)
    requires Wf(c, s) && CanTakeBarrGrant(c, s, h) && Core(c, s) && CopiesOk(c, s)
    requires Wf(c, DoTakeBarrGrant(c, s, h))
    ensures CopiesOk(c, DoTakeBarrGrant(c, s, h))
  {
    var s' := DoTakeBarrGrant(c, s, h);
    assert GoodAt(c, s, h);
    forall i, q | 0 <= i < c.hosts && 0 <= q < c.pages ensures CopyOk(c, s', i, q) && SnapOk(c, s', i, q) {
      assert CopyOk(c, s, i, q) && SnapOk(c, s, i, q);
      TakeBarrGrantStale(c, s, h, i, q);
    }
    forall i | 0 <= i < c.hosts ensures GrantOk(c, s', i) {
      assert GrantOk(c, s, i);
      var g := s.hosts[i].pageGrant;
      if i != h && g.Some? && g.value.0 < c.pages {
        StaleGrows(c, s, s', i, g.value.0);
      }
    }
  }
}
