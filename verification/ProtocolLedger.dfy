/** What a host has to name when it synchronises, kept apart from the test by which it decides.  A ledger
    is written from the steps of a run alone: it notes which pages were written where, and which pages
    were sent out by their homes.  The reports of the run turn out to be what the ledger says. */
module ProtocolLedger {
  import opened Protocol
  import opened ProtocolInv
  import opened ProtocolHosts
  import opened ProtocolBarrier
  import opened ProtocolSteps
  import opened ProtocolMigration
  import opened ProtocolRuns
  import opened ProtocolTheorems

  /** The pages written at each level of a lock stack. */
  type Levels = seq<set<nat>>

  datatype Ledger = Ledger(
    cached: seq<Levels>,    // by host and level: pages whose cached copy the host began to write
    own: seq<Levels>,       // pages homed there, written, and out when the interval ended in which they were
    wrote: set<nat>,        // pages their home has begun to write since its interval began
    out: set<nat>,          // pages sent out since their home last ended a barrier's interval having written them
    ever: set<nat>)         // pages ever sent out

  /** One step of a run, or a move of the homes. */
  datatype Move = Do(step: Step) | Rehome(slots: Slots)

  ghost predicate CanMove(w: World, m: Move) {
    && Wf(w.config, w.state)
    && match m
       case Do(step) => Enabled(w.config, w.state, step)
       case Rehome(_) => CanMigrate(w.config, w.state)
  }

  function After(w: World, m: Move): World
    requires CanMove(w, m)
  {
    match m
    case Do(step) => World(w.config, Apply(w.config, w.state, step))
    case Rehome(k) => Migrated(w.config, w.state, k)
  }

  // ---------------------------------------------------------------- writing the ledger

  function Everywhere(ls: Levels, p: nat): (r: Levels)
    ensures |r| == |ls| && forall i :: 0 <= i < |ls| ==> r[i] == ls[i] + {p}
  {
    seq(|ls|, i requires 0 <= i < |ls| => ls[i] + {p})
  }

  function Opened(ls: Levels): Levels { ls + [{}] }

  function Closed(ls: Levels): Levels
    requires |ls| > 0
  {
    ls[..|ls| - 1]
  }

  function Emptied(ls: Levels): Levels
    requires |ls| > 0
  {
    Closed(ls) + [{}]
  }

  /** A new interval of host h. */
  function Fresh(c: Config, h: nat, wrote: set<nat>): set<nat> {
    set p | p in wrote && !(p < |c.homeOf| && c.homeOf[p] == h)
  }

  ghost predicate Fits(c: Config, s: State, a: Ledger) {
    && Wf(c, s) && |a.cached| == |a.own| == c.hosts
    && forall h :: 0 <= h < c.hosts ==> |a.cached[h]| == |a.own[h]| == |s.hosts[h].stack|
  }

  function Begun(a: Ledger, h: nat, p: nat): Ledger
    requires h < |a.cached|
  {
    a.(cached := a.cached[h := Everywhere(a.cached[h], p)])
  }

  /** The home of page p ends an interval: it has to name the page if it wrote it and the page is out.
      At a barrier that calls in all copies. */
  function Ended(c: Config, s: State, a: Ledger, h: nat, p: nat): Ledger
    requires h < |a.own| && h < |s.hosts| && s.hosts[h].phase.Ending?
  {
    if p < |c.homeOf| && c.homeOf[p] == h && p in a.wrote && p in a.out then
      a.(own := a.own[h := Everywhere(a.own[h], p)],
         out := if s.hosts[h].phase.op == Barr then a.out - {p} else a.out)
    else a
  }

  /** A section of host h ends, and with it the interval. */
  function Left(c: Config, a: Ledger, h: nat): Ledger
    requires h < |a.cached| && h < |a.own| && |a.cached[h]| > 0 && |a.own[h]| > 0
  {
    a.(cached := a.cached[h := Closed(a.cached[h])], own := a.own[h := Closed(a.own[h])], wrote := Fresh(c, h, a.wrote))
  }

  function Noted(c: Config, s: State, a: Ledger, step: Step): Ledger
    requires Fits(c, s, a) && Enabled(c, s, step)
  {
    match step
    case Upgrade(h, p) => Begun(a, h, p)
    case TakePage(h) => if s.hosts[h].phase.write then Begun(a, h, s.hosts[h].pageGrant.value.0) else a
    case HomeFault(h, p) => a.(wrote := a.wrote + {p})
    case ServeGetp(h) => a.(out := a.out + {s.hosts[h].getp.value}, ever := a.ever + {s.hosts[h].getp.value})
    case EndPage(h, p) => Ended(c, s, a, h, p)
    case SendRel(h, _) => Left(c, a, h)
    case SendBarr(h) => a.(cached := a.cached[h := Emptied(a.cached[h])], own := a.own[h := Emptied(a.own[h])])
    case Resume(h) =>
      if s.hosts[h].phase.op.Acq?
      then a.(cached := a.cached[h := Opened(a.cached[h])], own := a.own[h := Opened(a.own[h])], wrote := Fresh(c, h, a.wrote))
      else a.(wrote := Fresh(c, h, a.wrote))
    case _ => a
  }

  /** The old home of a page that moves may keep a copy; what the new home wrote it has written as a home. */
  function Rehomed(c: Config, s: State, a: Ledger): Ledger
    requires Wf(c, s) && CanMigrate(c, s)
  {
    var moved := set p | p in Below(c.pages) && Moves(c, s, p);
    a.(wrote := (a.wrote - moved) + (set p | p in moved && s.hosts[NewHome(c, s, p)].lines[p].state == RW),
       out := a.out + moved, ever := a.ever + moved)
  }

  function Entered(w: World, a: Ledger, m: Move): Ledger
    requires Fits(w.config, w.state, a) && CanMove(w, m)
  {
    match m
    case Do(step) => Noted(w.config, w.state, a, step)
    case Rehome(_) => Rehomed(w.config, w.state, a)
  }

  function Start(hosts: nat): Ledger {
    Ledger(seq(hosts, _ => [{}]), seq(hosts, _ => [{}]), {}, {}, {})
  }

  // ---------------------------------------------------------------- what it has to do with the state

  predicate LevelsOk(x: HostState, cached: Levels, own: Levels) {
    |cached| == |own| == |x.stack| && forall i :: 0 <= i < |x.stack| ==> x.stack[i].dirtied == cached[i] + own[i]
  }

  /** The pages are homed at host h, or all elsewhere. */
  predicate HomedAt(c: Config, h: nat, pages: set<nat>) { forall p :: p in pages ==> p < |c.homeOf| && c.homeOf[p] == h }

  predicate HomedOff(c: Config, h: nat, pages: set<nat>) { forall p :: p in pages ==> p < |c.homeOf| && c.homeOf[p] != h }

  /** Pages that host h names because it is their home have been sent out. */
  predicate OwnOk(c: Config, h: nat, own: Levels, ever: set<nat>) {
    forall i :: 0 <= i < |own| ==> own[i] <= ever && HomedAt(c, h, own[i])
  }

  predicate CachedOk(c: Config, h: nat, cached: Levels) {
    forall i :: 0 <= i < |cached| ==> HomedOff(c, h, cached[i])
  }

  predicate FlagsOk(s: State, a: Ledger, p: nat)
    requires p < |s.written| && p < |s.rdnt|
  {
    (s.written[p] <==> p in a.wrote) && (s.rdnt[p] <==> p in a.out) && (p in a.out ==> p in a.ever)
  }

  ghost predicate HostBooked(c: Config, s: State, a: Ledger, h: nat)
    requires h < |s.hosts| && h < |a.cached| && h < |a.own|
  {
    LevelsOk(s.hosts[h], a.cached[h], a.own[h]) && OwnOk(c, h, a.own[h], a.ever) && CachedOk(c, h, a.cached[h])
  }

  ghost predicate Booked(c: Config, s: State, a: Ledger) {
    && Wf(c, s) && |a.cached| == |a.own| == c.hosts
    && (forall h :: 0 <= h < c.hosts ==> HostBooked(c, s, a, h))
    && (forall p :: 0 <= p < c.pages ==> FlagsOk(s, a, p))
  }

  lemma BookedFits(c: Config, s: State, a: Ledger)
    requires Booked(c, s, a)
    ensures Fits(c, s, a)
  {
    forall h | 0 <= h < c.hosts ensures |a.cached[h]| == |a.own[h]| == |s.hosts[h].stack| { assert HostBooked(c, s, a, h); }
  }

  // ---------------------------------------------------------------- every step

  /** A step that concerns no host but h. */
  lemma OneBooked(c: Config, s: State, s': State, a: Ledger, a': Ledger, h: nat)
    requires Booked(c, s, a) && Wf(c, s') && h < c.hosts && |a'.cached| == |a'.own| == c.hosts
    requires s'.hosts == s.hosts[h := s'.hosts[h]]
    requires a'.cached == a.cached[h := a'.cached[h]] && a'.own == a.own[h := a'.own[h]] && a.ever <= a'.ever
    requires HostBooked(c, s', a', h) && forall p :: 0 <= p < c.pages ==> FlagsOk(s', a', p)
    ensures Booked(c, s', a')
  {
    forall i | 0 <= i < c.hosts ensures HostBooked(c, s', a', i) { assert HostBooked(c, s, a, i); }
  }

  predicate SameDirtied(x: HostState, y: HostState) {
    |y.stack| == |x.stack| && forall i :: 0 <= i < |x.stack| ==> y.stack[i].dirtied == x.stack[i].dirtied
  }

  /** A step that the ledger does not note. */
  lemma PlainBooked(c: Config, s: State, s': State, a: Ledger)
    requires Booked(c, s, a) && Wf(c, s') && s'.written == s.written && s'.rdnt == s.rdnt
    requires forall h :: 0 <= h < c.hosts ==> SameDirtied(s.hosts[h], s'.hosts[h])
    ensures Booked(c, s', a)
  {
    forall h | 0 <= h < c.hosts ensures HostBooked(c, s', a, h) {
      assert HostBooked(c, s, a, h) && SameDirtied(s.hosts[h], s'.hosts[h]);
    }
    forall p | 0 <= p < c.pages ensures FlagsOk(s', a, p) { assert FlagsOk(s, a, p); }
  }

  lemma EverywhereDirtied(x: HostState, y: HostState, cached: Levels, own: Levels, p: nat)
    requires LevelsOk(x, cached, own) && y.stack == Dirtied(x.stack, p)
    ensures LevelsOk(y, Everywhere(cached, p), own) && LevelsOk(y, cached, Everywhere(own, p))
  {
  }

  lemma EverywhereCached(c: Config, h: nat, cached: Levels, p: nat)
    requires CachedOk(c, h, cached) && p < |c.homeOf| && c.homeOf[p] != h
    ensures CachedOk(c, h, Everywhere(cached, p))
  {
    forall i | 0 <= i < |cached| ensures HomedOff(c, h, Everywhere(cached, p)[i]) { assert HomedOff(c, h, cached[i]); }
  }

  lemma EverywhereOwn(c: Config, h: nat, own: Levels, ever: set<nat>, p: nat)
    requires OwnOk(c, h, own, ever) && p < |c.homeOf| && c.homeOf[p] == h && p in ever
    ensures OwnOk(c, h, Everywhere(own, p), ever)
  {
    forall i | 0 <= i < |own| ensures Everywhere(own, p)[i] <= ever && HomedAt(c, h, Everywhere(own, p)[i]) {
      assert own[i] <= ever && HomedAt(c, h, own[i]);
    }
  }

  lemma UpgradeBooked(c: Config, s: State, a: Ledger, h: nat, p: nat)
    requires Booked(c, s, a) && CanUpgrade(c, s, h, p) && Wf(c, DoUpgrade(c, s, h, p))
    ensures Booked(c, DoUpgrade(c, s, h, p), Begun(a, h, p))
  {
    var s' := DoUpgrade(c, s, h, p);
    assert HostBooked(c, s, a, h);
    EverywhereDirtied(s.hosts[h], s'.hosts[h], a.cached[h], a.own[h], p);
    EverywhereCached(c, h, a.cached[h], p);
    forall q | 0 <= q < c.pages ensures FlagsOk(s', Begun(a, h, p), q) { assert FlagsOk(s, a, q); }
    OneBooked(c, s, s', a, Begun(a, h, p), h);
  }

  lemma TakePageBooked(c: Config, s: State, a: Ledger, h: nat)
    requires Booked(c, s, a) && CanTakePage(c, s, h) && GoodAt(c, s, h) && Wf(c, DoTakePage(c, s, h)) && s.hosts[h].phase.write
    ensures Booked(c, DoTakePage(c, s, h), Begun(a, h, s.hosts[h].pageGrant.value.0))
  {
    var s', p := DoTakePage(c, s, h), s.hosts[h].pageGrant.value.0;
    assert HostBooked(c, s, a, h);
    EverywhereDirtied(s.hosts[h], s'.hosts[h], a.cached[h], a.own[h], p);
    EverywhereCached(c, h, a.cached[h], p);
    forall q | 0 <= q < c.pages ensures FlagsOk(s', Begun(a, h, p), q) { assert FlagsOk(s, a, q); }
    OneBooked(c, s, s', a, Begun(a, h, p), h);
  }

  lemma HomeFaultBooked(c: Config, s: State, a: Ledger, h: nat, p: nat)
    requires Booked(c, s, a) && CanHomeFault(c, s, h, p) && Wf(c, DoHomeFault(c, s, h, p))
    ensures Booked(c, DoHomeFault(c, s, h, p), a.(wrote := a.wrote + {p}))
  {
    var s', a' := DoHomeFault(c, s, h, p), a.(wrote := a.wrote + {p});
    forall i | 0 <= i < c.hosts ensures HostBooked(c, s', a', i) { assert HostBooked(c, s, a, i); }
    forall q | 0 <= q < c.pages ensures FlagsOk(s', a', q) { assert FlagsOk(s, a, q); }
  }

  lemma ServeGetpBooked(c: Config, s: State, a: Ledger, h: nat)
    requires Booked(c, s, a) && CanServeGetp(c, s, h) && Wf(c, DoServeGetp(c, s, h))
    ensures var p := s.hosts[h].getp.value; Booked(c, DoServeGetp(c, s, h), a.(out := a.out + {p}, ever := a.ever + {p}))
  {
    var s', p := DoServeGetp(c, s, h), s.hosts[h].getp.value;
    var a' := a.(out := a.out + {p}, ever := a.ever + {p});
    assert HostBooked(c, s, a, h);
    forall q | 0 <= q < c.pages ensures FlagsOk(s', a', q) { assert FlagsOk(s, a, q); }
    OneBooked(c, s, s', a, a', h);
  }

  lemma ReportedDirtied(stack: seq<Frame>, p: nat)
    requires |stack| >= 1
    ensures forall i :: 0 <= i < |stack| ==> Reported(stack, p)[i].dirtied == stack[i].dirtied
  {
  }

  /** The test that endinterval makes is the ledger's. */
  lemma EndPageLevels(c: Config, s: State, a: Ledger, h: nat, p: nat)
    requires Booked(c, s, a) && CanEndPage(c, s, h, p) && LevelsOk(s.hosts[h], a.cached[h], a.own[h])
    ensures Ended(c, s, a, h, p).cached == a.cached && |Ended(c, s, a, h, p).own| == c.hosts
    ensures LevelsOk(EndPageHost(c, s, h, p), a.cached[h], Ended(c, s, a, h, p).own[h])
  {
    var x, y := s.hosts[h], EndPageHost(c, s, h, p);
    assert FlagsOk(s, a, p);
    if Remote(c, h, p) {
      if x.lines[p].state == RW { ReportedDirtied(x.stack, p); }
    } else if MustReport(c, s, h, p) {
      ReportedDirtied(Dirtied(x.stack, p), p);
    }
  }

  lemma EndPageFlags(c: Config, s: State, a: Ledger, h: nat, p: nat, q: nat)
    requires Booked(c, s, a) && CanEndPage(c, s, h, p) && q < c.pages
    ensures FlagsOk(DoEndPage(c, s, h, p), Ended(c, s, a, h, p), q)
  {
    assert FlagsOk(s, a, p) && FlagsOk(s, a, q);
  }

  lemma EndPageBooked(c: Config, s: State, a: Ledger, h: nat, p: nat)
    requires Booked(c, s, a) && CanEndPage(c, s, h, p) && Wf(c, DoEndPage(c, s, h, p))
    ensures Booked(c, DoEndPage(c, s, h, p), Ended(c, s, a, h, p))
  {
    var s', a' := DoEndPage(c, s, h, p), Ended(c, s, a, h, p);
    assert HostBooked(c, s, a, h) && FlagsOk(s, a, p);
    EndPageLevels(c, s, a, h, p);
    if a' != a { EverywhereOwn(c, h, a.own[h], a.ever, p); }
    forall q | 0 <= q < c.pages ensures FlagsOk(s', a', q) { EndPageFlags(c, s, a, h, p, q); }
    OneBooked(c, s, s', a, a', h);
  }

  lemma FreshFlags(c: Config, s: State, s': State, a: Ledger, a': Ledger, h: nat)
    requires Booked(c, s, a) && Wf(c, s') && s'.written == CleanedHome(c, h, s.written) && s'.rdnt == s.rdnt
    requires a'.wrote == Fresh(c, h, a.wrote) && a'.out == a.out && a'.ever == a.ever
    ensures forall q :: 0 <= q < c.pages ==> FlagsOk(s', a', q)
  {
    forall q | 0 <= q < c.pages ensures FlagsOk(s', a', q) { assert FlagsOk(s, a, q); }
  }

  lemma PoppedLevels(c: Config, x: HostState, y: HostState, cached: Levels, own: Levels)
    requires LevelsOk(x, cached, own) && |x.stack| >= 2 && y.stack == Popped(x.stack)
    ensures LevelsOk(y, Closed(cached), Closed(own))
  {
  }

  lemma SendRelBooked(c: Config, s: State, a: Ledger, h: nat, parts: seq<set<nat>>)
    requires Booked(c, s, a) && CanRelease(c, s, h) && Wf(c, DoSendRel(c, s, h, parts)) && Fits(c, s, a)
    ensures Booked(c, DoSendRel(c, s, h, parts), Left(c, a, h))
  {
    var s', a' := DoSendRel(c, s, h, parts), Left(c, a, h);
    assert HostBooked(c, s, a, h);
    PoppedLevels(c, s.hosts[h], s'.hosts[h], a.cached[h], a.own[h]);
    FreshFlags(c, s, s', a, a', h);
    OneBooked(c, s, s', a, a', h);
  }

  lemma SendBarrBooked(c: Config, s: State, a: Ledger, h: nat)
    requires Booked(c, s, a) && CanSendBarr(c, s, h) && Wf(c, DoSendBarr(c, s, h)) && Fits(c, s, a)
    ensures Booked(c, DoSendBarr(c, s, h), Noted(c, s, a, SendBarr(h)))
  {
    var s', a' := DoSendBarr(c, s, h), Noted(c, s, a, SendBarr(h));
    assert HostBooked(c, s, a, h);
    forall q | 0 <= q < c.pages ensures FlagsOk(s', a', q) { assert FlagsOk(s, a, q); }
    OneBooked(c, s, s', a, a', h);
  }

  lemma ResumeBooked(c: Config, s: State, a: Ledger, h: nat)
    requires Booked(c, s, a) && CanResume(c, s, h) && Wf(c, DoResume(c, s, h)) && Fits(c, s, a)
    ensures Booked(c, DoResume(c, s, h), Noted(c, s, a, Resume(h)))
  {
    var s', a' := DoResume(c, s, h), Noted(c, s, a, Resume(h));
    var x, y := s.hosts[h], s'.hosts[h];
    assert HostBooked(c, s, a, h);
    assert forall i :: 0 <= i < |x.stack| ==> y.stack[i] == x.stack[i];
    FreshFlags(c, s, s', a, a', h);
    OneBooked(c, s, s', a, a', h);
  }

  predicate Plain(s: State, step: Step) {
    && !step.Upgrade? && !step.HomeFault? && !step.ServeGetp? && !step.EndPage? && !step.SendRel? && !step.SendBarr? && !step.Resume?
    && (step.TakePage? ==> step.h < |s.hosts| && s.hosts[step.h].phase.Fetching? && !s.hosts[step.h].phase.write)
  }

  lemma PlainPages(c: Config, s: State, step: Step, i: nat)
    requires Wf(c, s) && Enabled(c, s, step) && Plain(s, step) && OfPages(step) && i < c.hosts
    ensures var s' := Apply(c, s, step);
      |s'.hosts| == c.hosts && SameDirtied(s.hosts[i], s'.hosts[i]) && s'.written == s.written && s'.rdnt == s.rdnt
  {
  }

  lemma PlainSync(c: Config, s: State, step: Step, i: nat)
    requires Wf(c, s) && Enabled(c, s, step) && Plain(s, step) && !OfPages(step) && i < c.hosts
    ensures var s' := Apply(c, s, step);
      |s'.hosts| == c.hosts && SameDirtied(s.hosts[i], s'.hosts[i]) && s'.written == s.written && s'.rdnt == s.rdnt
  {
  }

  lemma PlainStepBooked(c: Config, s: State, a: Ledger, step: Step)
    requires Booked(c, s, a) && Enabled(c, s, step) && Plain(s, step) && Wf(c, Apply(c, s, step))
    ensures Booked(c, Apply(c, s, step), a)
  {
    var s' := Apply(c, s, step);
    forall i | 0 <= i < c.hosts ensures SameDirtied(s.hosts[i], s'.hosts[i]) && s'.written == s.written && s'.rdnt == s.rdnt {
      if OfPages(step) { PlainPages(c, s, step, i); } else { PlainSync(c, s, step, i); }
    }
    assert c.hosts > 0;
    PlainBooked(c, s, s', a);
  }

  lemma PageStepBooked(c: Config, s: State, a: Ledger, step: Step)
    requires Booked(c, s, a) && HostsOk(c, s) && Enabled(c, s, step) && !Plain(s, step) && OfPages(step)
    requires Wf(c, Apply(c, s, step)) && Fits(c, s, a)
    ensures Booked(c, Apply(c, s, step), Noted(c, s, a, step))
  {
    if step.Upgrade? {
      UpgradeBooked(c, s, a, step.h, step.p);
    } else if step.HomeFault? {
      HomeFaultBooked(c, s, a, step.h, step.p);
    } else if step.ServeGetp? {
      ServeGetpBooked(c, s, a, step.h);
    } else if step.TakePage? {
      assert GoodAt(c, s, step.h);
      TakePageBooked(c, s, a, step.h);
    } else {
      EndPageBooked(c, s, a, step.h, step.p);
    }
  }

  lemma SyncStepBooked(c: Config, s: State, a: Ledger, step: Step)
    requires Booked(c, s, a) && Enabled(c, s, step) && !Plain(s, step) && !OfPages(step) && Wf(c, Apply(c, s, step)) && Fits(c, s, a)
    ensures Booked(c, Apply(c, s, step), Noted(c, s, a, step))
  {
    if step.SendRel? {
      SendRelBooked(c, s, a, step.h, step.parts);
    } else if step.SendBarr? {
      SendBarrBooked(c, s, a, step.h);
    } else {
      ResumeBooked(c, s, a, step.h);
    }
  }

  lemma PlainNotNoted(c: Config, s: State, a: Ledger, step: Step)
    requires Fits(c, s, a) && Enabled(c, s, step) && Plain(s, step)
    ensures Noted(c, s, a, step) == a
  {
  }

  lemma StepBooked(c: Config, s: State, a: Ledger, step: Step)
    requires Booked(c, s, a) && HostsOk(c, s) && Enabled(c, s, step) && Wf(c, Apply(c, s, step)) && Fits(c, s, a)
    ensures Booked(c, Apply(c, s, step), Noted(c, s, a, step))
  {
    if Plain(s, step) {
      PlainNotNoted(c, s, a, step);
      PlainStepBooked(c, s, a, step);
    } else if OfPages(step) {
      PageStepBooked(c, s, a, step);
    } else {
      SyncStepBooked(c, s, a, step);
    }
  }

  /** At the barrier the lists are empty, so the new homes owe no mention of anything. */
  lemma RehomedHost(c: Config, s: State, k: Slots, a: Ledger, h: nat)
    requires Wf(c, s) && Core(c, s) && CanMigrate(c, s) && Booked(c, s, a) && h < c.hosts
    ensures HostBooked(Migrated(c, s, k).config, Migrated(c, s, k).state, Rehomed(c, s, a), h)
  {
    assert HostBooked(c, s, a, h) && Migrated(c, s, k).state.hosts[h] == MigratedHost(c, s, k, h);
    AllQuiet(c, s, h);
    forall i | 0 <= i < |a.own[h]| ensures a.own[h][i] == {} == a.cached[h][i] { assert s.hosts[h].stack[i].dirtied == {}; }
  }

  lemma RehomedBooked(c: Config, s: State, k: Slots, a: Ledger)
    requires Wf(c, s) && Core(c, s) && CanMigrate(c, s) && Booked(c, s, a)
    requires Wf(Migrated(c, s, k).config, Migrated(c, s, k).state)
    ensures Booked(Migrated(c, s, k).config, Migrated(c, s, k).state, Rehomed(c, s, a))
  {
    var c', s', a' := Migrated(c, s, k).config, Migrated(c, s, k).state, Rehomed(c, s, a);
    forall h | 0 <= h < c.hosts ensures HostBooked(c', s', a', h) { RehomedHost(c, s, k, a, h); }
    forall p | 0 <= p < c.pages ensures FlagsOk(s', a', p) { assert FlagsOk(s, a, p); }
  }

  // ---------------------------------------------------------------- every run

  /** A run told move by move, and its ledger. */
  ghost predicate Recounted(run: seq<World>, moves: seq<Move>, books: seq<Ledger>) {
    && |run| == |books| == |moves| + 1 && Init(run[0].config, run[0].state) && books[0] == Start(run[0].config.hosts)
    && forall i :: 0 <= i < |moves| ==> Follows(run[i], books[i], moves[i], run[i + 1], books[i + 1])
  }

  ghost predicate Follows(v: World, a: Ledger, m: Move, w: World, b: Ledger) {
    CanMove(v, m) && Fits(v.config, v.state, a) && w == After(v, m) && b == Entered(v, a, m)
  }

  lemma MoveIsNext(v: World, m: Move)
    requires CanMove(v, m)
    ensures Next(v, After(v, m))
  {
    match m
    case Do(step) => assert Enabled(v.config, v.state, step);
    case Rehome(k) =>
  }

  ghost predicate Honest(w: World, a: Ledger) { Sound(w) && Booked(w.config, w.state, a) }

  lemma MoveHonest(v: World, a: Ledger, m: Move)
    requires Honest(v, a) && CanMove(v, m) && Fits(v.config, v.state, a)
    ensures Honest(After(v, m), Entered(v, a, m))
  {
    MoveIsNext(v, m);
    NextSound(v, After(v, m));
    match m
    case Do(step) => StepBooked(v.config, v.state, a, step);
    case Rehome(k) => RehomedBooked(v.config, v.state, k, a);
  }

  lemma StartHonest(w: World)
    requires Init(w.config, w.state)
    ensures Honest(w, Start(w.config.hosts))
  {
    StartSound(w);
    forall h | 0 <= h < w.config.hosts ensures HostBooked(w.config, w.state, Start(w.config.hosts), h) {
      assert InitHost(w.config, w.state.hosts[h]);
    }
  }

  lemma FirstRecounted(run: seq<World>, moves: seq<Move>, books: seq<Ledger>)
    requires Recounted(run, moves, books)
    ensures Honest(run[0], books[0])
  {
    StartHonest(run[0]);
  }

  lemma MoveRecounted(run: seq<World>, moves: seq<Move>, books: seq<Ledger>, n: nat)
    requires Recounted(run, moves, books) && 0 < n < |run| && Honest(run[n - 1], books[n - 1])
    ensures Honest(run[n], books[n])
  {
    assert Follows(run[n - 1], books[n - 1], moves[n - 1], run[n - 1 + 1], books[n - 1 + 1]);
    MoveHonest(run[n - 1], books[n - 1], moves[n - 1]);
  }

  lemma {:induction false} RecountedHonest(run: seq<World>, moves: seq<Move>, books: seq<Ledger>, n: nat)
    requires Recounted(run, moves, books) && n < |run|
    ensures Honest(run[n], books[n])
  {
    if n == 0 {
      FirstRecounted(run, moves, books);
    } else {
      RecountedHonest(run, moves, books, n - 1);
      MoveRecounted(run, moves, books, n);
    }
  }

  /** Every run can be told so. */
  lemma {:induction false} EveryRunRecounted(run: seq<World>) returns (moves: seq<Move>, books: seq<Ledger>)
    requires IsRun(run)
    ensures Recounted(run, moves, books)
    decreases |run|
  {
    if |run| == 1 {
      moves, books := [], [Start(run[0].config.hosts)];
    } else {
      var n := |run| - 1;
      ShorterRun(run);
      var ms, bs := EveryRunRecounted(run[..n]);
      var m, b := NextMove(run[..n], ms, bs, run[n]);
      moves, books := ms + [m], bs + [b];
      OneMoreMove(run, ms, bs, m, b);
    }
  }

  lemma NextMove(run: seq<World>, moves: seq<Move>, books: seq<Ledger>, w: World) returns (m: Move, b: Ledger)
    requires Recounted(run, moves, books) && Next(run[|run| - 1], w)
    ensures Follows(run[|run| - 1], books[|run| - 1], m, w, b)
  {
    var v, a := run[|run| - 1], books[|run| - 1];
    RecountedHonest(run, moves, books, |run| - 1);
    BookedFits(v.config, v.state, a);
    if step :| Enabled(v.config, v.state, step) && w == World(v.config, Apply(v.config, v.state, step)) {
      m := Do(step);
    } else {
      var k :| w == Migrated(v.config, v.state, k);
      m := Rehome(k);
    }
    b := Entered(v, a, m);
  }

  lemma OneMoreMove(run: seq<World>, moves: seq<Move>, books: seq<Ledger>, m: Move, b: Ledger)
    requires |run| > 1 && Recounted(run[..|run| - 1], moves, books)
    requires Follows(run[|run| - 2], books[|run| - 2], m, run[|run| - 1], b)
    ensures Recounted(run, moves + [m], books + [b])
  {
    var n := |run| - 1;
    var front, ms, bs := run[..n], moves + [m], books + [b];
    assert forall i :: 0 <= i < n ==> front[i] == run[i] && bs[i] == books[i];
    forall i | 0 <= i < |ms| ensures Follows(run[i], bs[i], ms[i], run[i + 1], bs[i + 1]) {
      if i < n - 1 { assert Follows(front[i], books[i], moves[i], front[i + 1], books[i + 1]); }
    }
  }

  // ---------------------------------------------------------------- reports

  function Innermost(ls: Levels): set<nat>
    requires |ls| > 0
  {
    ls[|ls| - 1]
  }

  /** A report of host h that names `pages`: those whose cached copies it wrote in the section, and those
      of its own pages that it wrote in an interval of the section and that were out when it ended. */
  ghost predicate Accounted(c: Config, a: Ledger, h: nat, pages: set<nat>) {
    && h < |a.cached| && h < |a.own| && |a.cached[h]| > 0 && |a.own[h]| > 0
    && (forall p: nat :: p in pages <==> p in Innermost(a.cached[h]) || p in Innermost(a.own[h]))
    && (forall p: nat :: p in pages && p < |c.homeOf| && c.homeOf[p] == h ==> p in Innermost(a.own[h]) && p in a.ever)
    && (forall p: nat :: p in pages && p < |c.homeOf| && c.homeOf[p] != h ==> p in Innermost(a.cached[h]))
  }

  lemma TopAccounted(c: Config, s: State, a: Ledger, h: nat)
    requires Booked(c, s, a) && h < c.hosts
    ensures Accounted(c, a, h, Top(s.hosts[h]).dirtied)
  {
    assert HostBooked(c, s, a, h);
    var t := |s.hosts[h].stack| - 1;
    assert s.hosts[h].stack[t].dirtied == a.cached[h][t] + a.own[h][t];
  }

  /** What an unlock reports, by the ledger of the run. */
  lemma UnlockNames(run: seq<World>, moves: seq<Move>, books: seq<Ledger>, h: nat, parts: seq<set<nat>>)
    requires Recounted(run, moves, books)
    requires var w := run[|run| - 1]; Wf(w.config, w.state) && CanSendRel(w.config, w.state, h, parts)
    ensures Accounted(run[|run| - 1].config, books[|run| - 1], h, Union(parts))
  {
    var w := run[|run| - 1];
    RecountedHonest(run, moves, books, |run| - 1);
    assert GoodAt(w.config, w.state, h);
    ReadyTop(w.config, w.state, h);
    TopAccounted(w.config, w.state, books[|run| - 1], h);
  }

  /** And a barrier. */
  lemma BarrierNames(run: seq<World>, moves: seq<Move>, books: seq<Ledger>, h: nat)
    requires Recounted(run, moves, books)
    requires var w := run[|run| - 1]; Wf(w.config, w.state) && CanSendBarr(w.config, w.state, h)
    ensures var w := run[|run| - 1];
      var report := DoSendBarr(w.config, w.state, h).hosts[h].barr;
      report.Some? && Accounted(w.config, books[|run| - 1], h, report.value)
  {
    var w := run[|run| - 1];
    RecountedHonest(run, moves, books, |run| - 1);
    assert GoodAt(w.config, w.state, h);
    ReadyTop(w.config, w.state, h);
    TopAccounted(w.config, w.state, books[|run| - 1], h);
  }
}
