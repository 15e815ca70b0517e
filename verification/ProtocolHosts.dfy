/** Every step keeps the invariants of each host taken alone: the messages it has in flight, its
    cache lines, and the lists of its lock stack. */
module ProtocolHosts {
  import opened Pages
  import opened Protocol
  import opened ProtocolInv

  // ---------------------------------------------------------------- the lists of the lock stack

  lemma ListedReported(stack: seq<Frame>, p: nat, i: nat, q: nat)
    requires i < |stack|
    ensures Listed(Reported(stack, p), i, q) <==> Listed(stack, i, q) || q == p
  {
    var r := Reported(stack, p);
    if Listed(r, i, q) && q != p {
      var j :| i <= j < |r| && q in r[j].pages;
      assert q in stack[j].pages;
    }
    if Listed(stack, i, q) {
      var j :| i <= j < |stack| && q in stack[j].pages;
      assert q in r[j].pages;
    }
    assert p in r[|r| - 1].pages;
  }

  lemma ListedDirtied(stack: seq<Frame>, p: nat, i: nat, q: nat)
    ensures Listed(Dirtied(stack, p), i, q) <==> Listed(stack, i, q)
  {
    var r := Dirtied(stack, p);
    assert forall j :: 0 <= j < |stack| ==> r[j].pages == stack[j].pages;
  }

  lemma ListedPopped(stack: seq<Frame>, i: nat, q: nat)
    requires i < |stack| - 1
    ensures Listed(Popped(stack), i, q) <==> Listed(stack, i, q)
  {
    var r, t := Popped(stack), |stack| - 1;
    if Listed(stack, i, q) {
      var j :| i <= j < |stack| && q in stack[j].pages;
      assert q in r[if j == t then t - 1 else j].pages;
    }
    if Listed(r, i, q) {
      var j :| i <= j < |r| && q in r[j].pages;
      assert q in stack[j].pages || (j == t - 1 && q in stack[t].pages);
    }
  }

  lemma ListedPushed(stack: seq<Frame>, l: nat, i: nat, q: nat)
    ensures Listed(stack + [Frame(l, {}, {})], i, q) <==> Listed(stack, i, q)
  {
    var r := stack + [Frame(l, {}, {})];
    if Listed(stack, i, q) {
      var j :| i <= j < |stack| && q in stack[j].pages;
      assert q in r[j].pages;
    }
    if Listed(r, i, q) {
      var j :| i <= j < |r| && q in r[j].pages;
      assert q in stack[j].pages;
    }
  }

  /** A page newly dirtied counts as dirtied at every level. */
  lemma DirtiedScopes(c: Config, x: HostState, y: HostState, p: nat)
    requires WfHost(c, x) && WfHost(c, y) && ScopesOk(c, x)
    requires y.stack == Dirtied(x.stack, p)
    requires forall q: nat :: Unlisted(c, y, q) <==> Unlisted(c, x, q) || q == p
    ensures ScopesOk(c, y)
  {
    forall i, q: nat | 0 <= i < |y.stack|
      ensures q in y.stack[i].dirtied <==> Listed(y.stack, i, q) || Unlisted(c, y, q)
    {
      ListedDirtied(x.stack, p, i, q);
    }
  }

  lemma SameScopes(c: Config, x: HostState, y: HostState)
    requires WfHost(c, x) && WfHost(c, y) && ScopesOk(c, x)
    requires y.stack == x.stack
    requires forall q: nat :: Unlisted(c, y, q) <==> Unlisted(c, x, q)
    ensures ScopesOk(c, y)
  {
  }

  /** A dirty copy is listed: it moves from unlisted to listed. */
  lemma FlushedScopes(c: Config, x: HostState, y: HostState, p: nat)
    requires WfHost(c, x) && WfHost(c, y) && ScopesOk(c, x)
    requires y.stack == Reported(x.stack, p) && Unlisted(c, x, p)
    requires forall q: nat :: Unlisted(c, y, q) <==> Unlisted(c, x, q) && q != p
    ensures ScopesOk(c, y)
  {
    forall i, q: nat | 0 <= i < |y.stack|
      ensures q in y.stack[i].dirtied <==> Listed(y.stack, i, q) || Unlisted(c, y, q)
    {
      ListedReported(x.stack, p, i, q);
      assert y.stack[i].dirtied == x.stack[i].dirtied;
      assert p in x.stack[i].dirtied;
    }
  }

  /** A written home page that others may hold is dirtied and listed at once. */
  lemma HomeScopes(c: Config, x: HostState, y: HostState, p: nat)
    requires WfHost(c, x) && WfHost(c, y) && ScopesOk(c, x)
    requires y.stack == Reported(Dirtied(x.stack, p), p)
    requires forall q: nat :: Unlisted(c, y, q) <==> Unlisted(c, x, q)
    ensures ScopesOk(c, y)
  {
    forall i, q: nat | 0 <= i < |y.stack|
      ensures q in y.stack[i].dirtied <==> Listed(y.stack, i, q) || Unlisted(c, y, q)
    {
      ListedDirtied(x.stack, p, i, q);
      ListedReported(Dirtied(x.stack, p), p, i, q);
      assert y.stack[i].dirtied == Dirtied(x.stack, p)[i].dirtied;
    }
  }

  // ---------------------------------------------------------------- steps of one host

  lemma EvictGood(c: Config, s: State, h: nat, p: nat)
    requires Wf(c, s) && CanEvict(c, s, h, p) && GoodAt(c, s, h)
    ensures GoodAt(c, DoEvict(c, s, h, p), h)
  {
    SameScopes(c, s.hosts[h], DoEvict(c, s, h, p).hosts[h]);
  }

  lemma FaultGood(c: Config, s: State, h: nat, p: nat, write: bool)
    requires Wf(c, s) && CanFault(c, s, h, p) && GoodAt(c, s, h)
    ensures GoodAt(c, DoFault(c, s, h, p, write), h)
  {
    SameScopes(c, s.hosts[h], DoFault(c, s, h, p, write).hosts[h]);
  }

  lemma UpgradeGood(c: Config, s: State, h: nat, p: nat)
    requires Wf(c, s) && CanUpgrade(c, s, h, p) && GoodAt(c, s, h)
    ensures GoodAt(c, DoUpgrade(c, s, h, p), h)
  {
    DirtiedScopes(c, s.hosts[h], DoUpgrade(c, s, h, p).hosts[h], p);
  }

  lemma WriteGood(c: Config, s: State, h: nat, p: nat, u: nat, v: Word)
    requires Wf(c, s) && CanWrite(c, s, h, p, u) && GoodAt(c, s, h)
    ensures GoodAt(c, DoWrite(c, s, h, p, u, v), h)
  {
    SameScopes(c, s.hosts[h], DoWrite(c, s, h, p, u, v).hosts[h]);
  }

  lemma ServeGetpGood(c: Config, s: State, h: nat)
    requires Wf(c, s) && CanServeGetp(c, s, h) && GoodAt(c, s, h)
    ensures GoodAt(c, DoServeGetp(c, s, h), h)
  {
    SameScopes(c, s.hosts[h], DoServeGetp(c, s, h).hosts[h]);
  }

  lemma TakePageGood(c: Config, s: State, h: nat)
    requires Wf(c, s) && CanTakePage(c, s, h) && GoodAt(c, s, h)
    ensures GoodAt(c, DoTakePage(c, s, h), h)
  {
    var x, y := s.hosts[h], DoTakePage(c, s, h).hosts[h];
    if x.phase.write {
      DirtiedScopes(c, x, y, x.pageGrant.value.0);
    } else {
      SameScopes(c, x, y);
    }
  }

  lemma BeginSyncGood(c: Config, s: State, h: nat, op: SyncOp)
    requires Wf(c, s) && CanBeginSync(c, s, h, op) && GoodAt(c, s, h)
    ensures GoodAt(c, DoBeginSync(c, s, h, op), h)
  {
    SameScopes(c, s.hosts[h], DoBeginSync(c, s, h, op).hosts[h]);
  }

  lemma EndPageDiffs(c: Config, s: State, h: nat, p: nat, q: nat)
    requires Wf(c, s) && CanEndPage(c, s, h, p) && GoodAt(c, s, h)
    requires q in EndPageHost(c, s, h, p).diffs
    ensures DiffOk(c, h, EndPageHost(c, s, h, p), q) && q !in EndPageHost(c, s, h, p).phase.todo
  {
    var x, y := s.hosts[h], EndPageHost(c, s, h, p);
    assert x.stack[0].dirtied <= y.stack[0].dirtied;
    if q !in x.diffs {
      assert Unlisted(c, x, p) && p in x.stack[0].dirtied;
    }
  }

  lemma EndPageNet(c: Config, s: State, h: nat, p: nat)
    requires Wf(c, s) && CanEndPage(c, s, h, p) && GoodAt(c, s, h)
    ensures NetOk(c, h, EndPageHost(c, s, h, p), h in s.arrived)
  {
    var x, y := s.hosts[h], EndPageHost(c, s, h, p);
    assert y.diffs == x.diffs || (p !in x.diffs && |y.diffs| == |x.diffs| + 1);
    assert MayBegin(c, y, y.phase.op);
    forall q | q in y.diffs ensures DiffOk(c, h, y, q) && q !in y.phase.todo {
      EndPageDiffs(c, s, h, p, q);
    }
  }

  lemma EndPageGood(c: Config, s: State, h: nat, p: nat)
    requires Wf(c, s) && CanEndPage(c, s, h, p) && GoodAt(c, s, h)
    ensures GoodAt(c, DoEndPage(c, s, h, p), h)
  {
    EndPageNet(c, s, h, p);
    EndPageScopes(c, s, h, p);
  }

  lemma EndPageScopes(c: Config, s: State, h: nat, p: nat)
    requires Wf(c, s) && CanEndPage(c, s, h, p) && GoodAt(c, s, h)
    ensures ScopesOk(c, DoEndPage(c, s, h, p).hosts[h])
  {
    var x, y := s.hosts[h], EndPageHost(c, s, h, p);
    if Remote(c, h, p) && x.lines[p].state == RW {
      FlushedScopes(c, x, y, p);
    } else if MustReport(c, s, h, p) {
      HomeScopes(c, x, y, p);
    } else {
      SameScopes(c, x, y);
    }
  }

  lemma ServeDiffGood(c: Config, s: State, h: nat, p: nat)
    requires Wf(c, s) && CanServeDiff(c, s, h, p) && GoodAt(c, s, h)
    ensures GoodAt(c, DoServeDiff(c, s, h, p), h)
  {
    var x, y := s.hosts[h], DoServeDiff(c, s, h, p).hosts[h];
    assert y.diffs.Keys == x.diffs.Keys - {p};
    SameScopes(c, x, y);
  }

  lemma TakeDiffGrantGood(c: Config, s: State, h: nat)
    requires Wf(c, s) && CanTakeDiffGrant(c, s, h) && GoodAt(c, s, h)
    ensures GoodAt(c, DoTakeDiffGrant(c, s, h), h)
  {
    SameScopes(c, s.hosts[h], DoTakeDiffGrant(c, s, h).hosts[h]);
  }

  /** Nothing is outstanding once the interval has ended and diffwait is zero. */
  lemma ReadyMeansQuiet(c: Config, s: State, h: nat)
    requires Wf(c, s) && h < c.hosts && GoodAt(c, s, h) && ReadyToSend(s.hosts[h])
    ensures NoDiffs(s.hosts[h]) && forall q: nat :: !Unlisted(c, s.hosts[h], q)
  {
    assert |s.hosts[h].diffs| == 0;
  }

  lemma SendAcqGood(c: Config, s: State, h: nat)
    requires Wf(c, s) && CanSendAcq(c, s, h) && GoodAt(c, s, h)
    ensures GoodAt(c, DoSendAcq(c, s, h), h)
  {
    ReadyMeansQuiet(c, s, h);
    SameScopes(c, s.hosts[h], DoSendAcq(c, s, h).hosts[h]);
  }

  lemma SendRelGood(c: Config, s: State, h: nat, parts: seq<set<nat>>)
    requires Wf(c, s) && CanRelease(c, s, h) && GoodAt(c, s, h)
    ensures GoodAt(c, DoSendRel(c, s, h, parts), h)
  {
    ReadyMeansQuiet(c, s, h);
    var x, y := s.hosts[h], DoSendRel(c, s, h, parts).hosts[h];
    forall i, q: nat | 0 <= i < |y.stack|
      ensures q in y.stack[i].dirtied <==> Listed(y.stack, i, q) || Unlisted(c, y, q)
    {
      ListedPopped(x.stack, i, q);
      assert y.stack[i].dirtied == x.stack[i].dirtied;
    }
  }

  lemma SendBarrGood(c: Config, s: State, h: nat)
    requires Wf(c, s) && CanSendBarr(c, s, h) && GoodAt(c, s, h)
    ensures GoodAt(c, DoSendBarr(c, s, h), h)
  {
    ReadyMeansQuiet(c, s, h);
    var y := DoSendBarr(c, s, h).hosts[h];
    forall i, q: nat | 0 <= i < |y.stack|
      ensures q in y.stack[i].dirtied <==> Listed(y.stack, i, q) || Unlisted(c, y, q)
    {
      assert y.stack == [Top(s.hosts[h]).(pages := {}, dirtied := {})];
    }
  }

  lemma TakeLockGrantGood(c: Config, s: State, h: nat)
    requires Wf(c, s) && CanTakeLockGrant(c, s, h) && GoodAt(c, s, h)
    ensures GoodAt(c, DoTakeLockGrant(c, s, h), h)
  {
    SameScopes(c, s.hosts[h], DoTakeLockGrant(c, s, h).hosts[h]);
  }

  lemma TakeBarrGrantGood(c: Config, s: State, h: nat)
    requires Wf(c, s) && CanTakeBarrGrant(c, s, h) && GoodAt(c, s, h)
    ensures GoodAt(c, DoTakeBarrGrant(c, s, h), h)
  {
    SameScopes(c, s.hosts[h], DoTakeBarrGrant(c, s, h).hosts[h]);
  }

  lemma ResumeGood(c: Config, s: State, h: nat)
    requires Wf(c, s) && CanResume(c, s, h) && GoodAt(c, s, h)
    ensures GoodAt(c, DoResume(c, s, h), h)
  {
    var x, y := s.hosts[h], DoResume(c, s, h).hosts[h];
    forall i, q: nat | 0 <= i < |y.stack|
      ensures q in y.stack[i].dirtied <==> Listed(y.stack, i, q) || Unlisted(c, y, q)
    {
      if x.phase.op.Acq? {
        ListedPushed(x.stack, x.phase.op.lock, i, q);
      }
    }
  }

  // ---------------------------------------------------------------- steps that reach other hosts

  /** A lock message leaving the channel, a grant arriving, a flag: nothing else changes. */
  lemma LockSideGood(c: Config, h: nat, x: HostState, y: HostState, arrived: bool)
    requires ValidConfig(c) && WfHost(c, x) && WfHost(c, y) && Good(c, h, x, arrived)
    requires y == x.(chan := y.chan, noclear := y.noclear, lockGrant := y.lockGrant)
    requires y.lockGrant == x.lockGrant
      || (y.lockGrant.Some? && x.phase == Waiting(Acq(y.lockGrant.value.lock)))
    ensures Good(c, h, y, arrived)
  {
    SameScopes(c, x, y);
  }

  /** A BARR was counted, and perhaps the barrier completed. */
  lemma BarrSideGood(c: Config, h: nat, x: HostState, y: HostState, was: bool, arrived: bool)
    requires ValidConfig(c) && WfHost(c, x) && WfHost(c, y) && Good(c, h, x, was)
    requires x.phase == Waiting(Barr) && (x.barr.Some? || was)
    requires y == x.(barr := None, barrGrant := y.barrGrant)
    requires (y.barrGrant == x.barrGrant && arrived) || (y.barrGrant.Some? && !arrived)
    requires x.barrGrant.Some? ==> !arrived
    ensures Good(c, h, y, arrived)
  {
    SameScopes(c, x, y);
  }
}
