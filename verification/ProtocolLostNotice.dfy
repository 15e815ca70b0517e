/** A run in which a release of more pages than one message holds is not told of in full.  Host 1 is past
    a barrier whose grant host 0, the manager of lock 0, has not handled; it takes the lock, writes 3411
    pages that host 0 holds copies of, and releases the lock.  Host 0 handles the WTNT, then the barrier
    grant, then the REL, and takes the lock itself: its copies of the pages in the WTNT stay. */
module ProtocolLostNotice {
  import opened Pages
  import opened Protocol
  import opened ProtocolInv
  import opened ProtocolRuns

  /** Two hosts, a lock, and more pages than one message holds, all of them homed at host 1. */
  predicate Big(c: Config) {
    && ValidConfig(c) && c.hosts == 2 && c.locks >= 1 && c.pages > LASTPAGES
    && forall p :: 0 <= p < c.pages ==> c.homeOf[p] == 1
  }

  ghost predicate Live(c: Config, s: State) { Reachable(c, s) && Wf(c, s) && Big(c) }

  lemma Go(c: Config, s: State, step: Step) returns (s': State)
    requires Live(c, s) && Enabled(c, s, step)
    ensures s' == Apply(c, s, step) && Live(c, s')
  {
    s' := Apply(c, s, step);
    var run :| IsRun(run) && run[|run| - 1] == World(c, s);
    assert Next(World(c, s), World(c, s'));
    ExtendRun(run, World(c, s'));
    ReachableInv(c, s');
  }

  // ---------------------------------------------------------------- host 0 fetches every page

  function Copy(d: PageData): Line { Line(RO, d, d) }

  function FetchedPage(s: State, p: nat): State
    requires |s.hosts| > 0 && p < |s.hosts[0].lines| && p < |s.mem| && p < |s.rdnt|
  {
    Put(s, 0, s.hosts[0].(lines := s.hosts[0].lines[p := Copy(s.mem[p])])).(rdnt := s.rdnt[p := true])
  }

  lemma Fetching(c: Config, s: State, p: nat)
    requires Wf(c, s) && Big(c) && p < c.pages
    requires s.hosts[0].phase == Running && !s.hosts[0].lines[p].Valid() && NoFetch(s.hosts[0])
    ensures CanFault(c, s, 0, p)
    ensures var a := DoFault(c, s, 0, p, false);
      Wf(c, a) && CanServeGetp(c, a, 0) && var b := DoServeGetp(c, a, 0);
      Wf(c, b) && CanTakePage(c, b, 0) && DoTakePage(c, b, 0) == FetchedPage(s, p)
  {
    var y := FetchedPage(s, p).hosts[0];
    var s' := DoTakePage(c, DoServeGetp(c, DoFault(c, s, 0, p, false), 0), 0);
    assert s'.hosts[0] == y;
    assert s'.hosts == s.hosts[0 := y];
  }

  lemma FetchOne(c: Config, s: State, p: nat) returns (s': State)
    requires Live(c, s) && p < c.pages && s.hosts[0].phase == Running && !s.hosts[0].lines[p].Valid() && NoFetch(s.hosts[0])
    ensures Live(c, s') && s' == FetchedPage(s, p)
  {
    Fetching(c, s, p);
    var a := Go(c, s, Fault(0, p, false));
    var b := Go(c, a, ServeGetp(0));
    s' := Go(c, b, TakePage(0));
  }

  /** Host 0 has copies of the first n pages, and has done nothing else since s. */
  ghost predicate Fetched(c: Config, s: State, s': State, n: nat)
    requires Wf(c, s) && Wf(c, s') && Big(c)
  {
    && s' == s.(hosts := s.hosts[0 := s.hosts[0].(lines := s'.hosts[0].lines)], rdnt := s'.rdnt)
    && forall p :: 0 <= p < c.pages ==>
         if p < n then s'.hosts[0].lines[p] == Copy(s.mem[p]) && s'.rdnt[p]
         else s'.hosts[0].lines[p] == s.hosts[0].lines[p]
  }

  lemma {:induction false} FetchAll(c: Config, s: State, n: nat) returns (s': State)
    requires Live(c, s) && n <= c.pages && s.hosts[0].phase == Running && NoFetch(s.hosts[0])
    requires forall p :: 0 <= p < c.pages ==> !s.hosts[0].lines[p].Valid()
    ensures Live(c, s') && Fetched(c, s, s', n)
  {
    s' := s;
    if n > 0 {
      var t := FetchAll(c, s, n - 1);
      NextFetch(c, s, t, n - 1);
      s' := FetchOne(c, t, n - 1);
    }
  }

  lemma NextFetch(c: Config, s: State, t: State, n: nat)
    requires Wf(c, s) && Wf(c, t) && Big(c) && n < c.pages && Fetched(c, s, t, n)
    requires s.hosts[0].phase == Running && NoFetch(s.hosts[0]) && !s.hosts[0].lines[n].Valid()
    ensures t.hosts[0].phase == Running && NoFetch(t.hosts[0]) && !t.hosts[0].lines[n].Valid()
    ensures Wf(c, FetchedPage(t, n)) && Fetched(c, s, FetchedPage(t, n), n + 1)
  {
  }

  // ---------------------------------------------------------------- the end of an interval

  lemma CleanPage(c: Config, s: State, h: nat, p: nat)
    requires Wf(c, s) && CanEndPage(c, s, h, p) && !MustReport(c, s, h, p)
    ensures DoEndPage(c, s, h, p) ==
      Put(s, h, Flushed(s.hosts[h], s.hosts[h].phase.todo - {p}))
  {
  }

  lemma FlushOne(c: Config, s: State, h: nat, p: nat) returns (s': State)
    requires Live(c, s) && CanEndPage(c, s, h, p) && !MustReport(c, s, h, p)
    ensures Live(c, s')
    ensures s' == Put(s, h, Flushed(s.hosts[h], s.hosts[h].phase.todo - {p}))
  {
    s' := Go(c, s, EndPage(h, p));
    CleanPage(c, s, h, p);
  }

  lemma PutTwice(s: State, h: nat, x: HostState, y: HostState)
    requires h < |s.hosts|
    ensures Put(Put(s, h, x), h, y) == Put(s, h, y) && Put(s, h, s.hosts[h]) == s && Put(s, h, x).hosts[h] == x
  {
    assert s.hosts[h := x][h := y] == s.hosts[h := y] && s.hosts[h := s.hosts[h]] == s.hosts;
  }

  function Flushed(x: HostState, todo: set<nat>): HostState
    requires x.phase.Ending?
  {
    x.(phase := Ending(x.phase.op, todo))
  }

  ghost predicate NothingTodo(c: Config, s: State, h: nat) {
    && Wf(c, s) && h < c.hosts && s.hosts[h].phase.Ending?
    && forall p :: p in s.hosts[h].phase.todo ==> p < c.pages && !MustReport(c, s, h, p)
  }

  /** An interval that has written nothing ends. */
  lemma {:induction false} FlushNone(c: Config, s: State, h: nat) returns (s': State)
    requires Live(c, s) && NothingTodo(c, s, h)
    ensures Live(c, s') && s' == Put(s, h, Flushed(s.hosts[h], {}))
    decreases |s.hosts[h].phase.todo|
  {
    var todo := s.hosts[h].phase.todo;
    if todo == {} {
      s' := s;
      PutTwice(s, h, s.hosts[h], s.hosts[h]);
    } else {
      var p :| p in todo;
      var t := FlushOne(c, s, h, p);
      PutTwice(s, h, Flushed(s.hosts[h], todo - {p}), Flushed(s.hosts[h], {}));
      assert t.hosts[h].phase.todo == todo - {p} && |todo - {p}| == |todo| - 1;
      assert NothingTodo(c, t, h);
      s' := FlushNone(c, t, h);
    }
  }

  // ---------------------------------------------------------------- a barrier that host 0 has yet to leave

  function Ground(c: Config): Frame { Frame(c.locks, {}, {}) }

  /** Host 0 has copies of all pages and lock 0 has not been used. */
  ghost predicate Shared(c: Config, s: State) {
    && Wf(c, s) && Big(c)
    && (forall p :: 0 <= p < c.pages ==> s.hosts[0].lines[p] == Copy(s.mem[p]) && s.rdnt[p] && !s.written[p])
    && (forall h :: 0 <= h < 2 ==>
          s.hosts[h].stack == [Ground(c)] && !s.hosts[h].noclear && s.hosts[h].myscope[0] == -1 && s.hosts[h].chan[0] == []
          && s.hosts[h].lockGrant == None && s.hosts[h].diffwait == 0)
    && s.locks[0] == LockState([], 0, map[], [], [], {}, [], [])
  }

  ghost predicate Before(c: Config, s: State) {
    && Shared(c, s) && s.acqc == 0 && s.barrNotices == map[]
    && forall h :: 0 <= h < 2 ==> s.hosts[h].phase == Running && s.hosts[h].epoch == 0 && NoBarr(s.hosts[h])
  }

  /** A host with nothing to report arrives at the barrier. */
  function AtBarrier(x: HostState): HostState {
    x.(barr := Some({}), barriers := x.barriers + 1, phase := Waiting(Barr))
  }

  lemma CleanEnding(c: Config, s: State, h: nat, op: SyncOp)
    requires Shared(c, s) && h < 2 && CanBeginSync(c, s, h, op)
    ensures NothingTodo(c, DoBeginSync(c, s, h, op), h)
  {
  }

  lemma SendBarrClean(c: Config, s: State, t: State, h: nat)
    requires Shared(c, s) && h < 2 && t == Put(s, h, s.hosts[h].(phase := Ending(Barr, {})))
    ensures Wf(c, t) && CanSendBarr(c, t, h) && DoSendBarr(c, t, h) == Put(s, h, AtBarrier(s.hosts[h]))
  {
    PutTwice(s, h, t.hosts[h], AtBarrier(s.hosts[h]));
    assert [Ground(c)][0 := Ground(c)] == [Ground(c)];
  }

  lemma EndClean(c: Config, s: State, h: nat, op: SyncOp) returns (s': State)
    requires Live(c, s) && h < 2 && CanBeginSync(c, s, h, op) && NothingTodo(c, DoBeginSync(c, s, h, op), h)
    ensures Live(c, s') && s' == Put(s, h, s.hosts[h].(phase := Ending(op, {})))
  {
    var t := Go(c, s, BeginSync(h, op));
    s' := FlushNone(c, t, h);
    PutTwice(s, h, t.hosts[h], s'.hosts[h]);
  }

  lemma Arrive(c: Config, s: State, h: nat) returns (s': State)
    requires Live(c, s) && Shared(c, s) && h < 2 && s.hosts[h].phase == Running
    ensures Live(c, s') && s' == Put(s, h, AtBarrier(s.hosts[h]))
  {
    CleanEnding(c, s, h, Barr);
    var t := EndClean(c, s, h, Barr);
    SendBarrClean(c, s, t, h);
    s' := Go(c, t, SendBarr(h));
  }

  /** The barrier is complete, and nobody has handled its grant. */
  ghost predicate Complete(c: Config, s: State) {
    && Shared(c, s) && s.latest == map[]
    && forall h :: 0 <= h < 2 ==>
         s.hosts[h].phase == Waiting(Barr) && s.hosts[h].epoch == 0 && s.hosts[h].barr == None && s.hosts[h].barrGrant == Some(map[])
  }

  /** Host 1 has left the barrier, and host 0 has not. */
  ghost predicate Ahead(c: Config, s: State) {
    && Shared(c, s) && s.latest == map[]
    && s.hosts[0].phase == Waiting(Barr) && s.hosts[0].epoch == 0 && s.hosts[0].barrGrant == Some(map[])
    && s.hosts[1].phase == Running && s.hosts[1].epoch == 1
  }

  lemma NothingReported()
    ensures Record(map[], {}, 0, 0) == map[] && Record(map[], {}, 1, 0) == map[]
  {
  }

  function BothArrived(s: State): State
    requires |s.hosts| == 2
  {
    Put(Put(s, 0, AtBarrier(s.hosts[0])), 1, AtBarrier(s.hosts[1]))
  }

  lemma OneArrived(c: Config, s: State)
    requires Before(c, s)
    ensures var a := Put(s, 0, AtBarrier(s.hosts[0])); Shared(c, a) && a.hosts[1] == s.hosts[1]
  {
  }

  lemma BarrsServed(c: Config, s: State)
    requires Before(c, s) && s.barrScope == 0
    ensures var a := BothArrived(s);
      && Wf(c, a) && CanServeBarr(c, a, 0)
      && var b := DoServeBarr(c, a, 0);
      && Wf(c, b) && CanServeBarr(c, b, 1) && Wf(c, DoServeBarr(c, b, 1)) && Complete(c, DoServeBarr(c, b, 1))
  {
    NothingReported();
  }

  lemma LeaveBarrier(c: Config, s: State)
    requires Complete(c, s)
    ensures CanTakeBarrGrant(c, s, 1)
    ensures var a := DoTakeBarrGrant(c, s, 1);
      Wf(c, a) && CanResume(c, a, 1) && Wf(c, DoResume(c, a, 1)) && Ahead(c, DoResume(c, a, 1))
  {
  }

  lemma ArriveBoth(c: Config, s: State) returns (s': State)
    requires Live(c, s) && Before(c, s)
    ensures Live(c, s') && s' == BothArrived(s)
  {
    var a := Arrive(c, s, 0);
    OneArrived(c, s);
    s' := Arrive(c, a, 1);
  }

  lemma Meet(c: Config, s: State) returns (s': State)
    requires Live(c, s) && Before(c, s) && s.barrScope == 0
    ensures Live(c, s') && Complete(c, s')
  {
    var a := ArriveBoth(c, s);
    BarrsServed(c, s);
    var b := Go(c, a, ServeBarr(0));
    s' := Go(c, b, ServeBarr(1));
  }

  lemma GetAhead(c: Config, s: State) returns (s': State)
    requires Live(c, s) && Complete(c, s)
    ensures Live(c, s') && Ahead(c, s')
  {
    LeaveBarrier(c, s);
    var a := Go(c, s, TakeBarrGrant(1));
    s' := Go(c, a, Resume(1));
  }

  // ---------------------------------------------------------------- host 1's section

  /** Host 0 is at the barrier, and has a valid copy of page 0. */
  ghost predicate Behind(c: Config, x: HostState)
    requires WfHost(c, x) && Big(c)
  {
    && x.stack == [Ground(c)] && !x.noclear && x.myscope[0] == -1 && x.chan[0] == [] && x.lockGrant == None && x.diffwait == 0
    && x.phase == Waiting(Barr) && x.epoch == 0 && x.barrGrant == Some(map[])
    && forall p :: 0 <= p < c.pages ==> x.lines[p].state == RO
  }

  function Section(): Frame { Frame(0, {}, {}) }

  /** What lock 0 looks like while host 1 has it for the first time. */
  function Taken(): LockState { LockState([Acquirer(1, -1)], 0, map[], [], [], {}, [1], [1]) }

  ghost predicate Granted1(c: Config, s: State) {
    && Wf(c, s) && Big(c) && Behind(c, s.hosts[0])
    && (forall p :: 0 <= p < c.pages ==> s.hosts[0].lines[p].data == s.mem[p] && s.rdnt[p] && !s.written[p])
    && s.locks[0] == Taken() && s.latest == map[]
    && var x := s.hosts[1];
    && x.phase == Waiting(Acq(0)) && x.epoch == 1 && x.lockGrant == Some(LockGrant(0, 0, map[], [])) && x.stack == [Ground(c)]
    && x.chan[0] == [] && x.diffwait == 0
  }

  ghost predicate Holding(c: Config, s: State) {
    && Wf(c, s) && Big(c) && Behind(c, s.hosts[0])
    && (forall p :: 0 <= p < c.pages ==> s.hosts[0].lines[p].data == s.mem[p] && s.rdnt[p] && !s.written[p])
    && s.locks[0] == Taken() && s.latest == map[]
    && var x := s.hosts[1];
    x.phase == Running && x.epoch == 1 && x.stack == [Ground(c), Section()] && x.chan[0] == [] && x.diffwait == 0
  }

  lemma Asked(c: Config, s: State, t: State)
    requires Ahead(c, s) && t == Put(s, 1, s.hosts[1].(phase := Ending(Acq(0), {})))
    ensures Wf(c, t) && CanSendAcq(c, t, 1)
    ensures var a := DoSendAcq(c, t, 1); Wf(c, a) && CanServeAcq(c, a, 1, 0) && Granted1(c, DoServeAcq(c, a, 1, 0))
  {
    assert GrantNotices(c, map[], -1, 1) == map[];
  }

  lemma Entered(c: Config, s: State)
    requires Granted1(c, s)
    ensures CanTakeLockGrant(c, s, 1)
    ensures var a := DoTakeLockGrant(c, s, 1); Wf(c, a) && CanResume(c, a, 1) && Holding(c, DoResume(c, a, 1))
  {
  }

  lemma TakeLock(c: Config, s: State) returns (s': State)
    requires Live(c, s) && Ahead(c, s)
    ensures Live(c, s') && Granted1(c, s')
  {
    CleanEnding(c, s, 1, Acq(0));
    var t := EndClean(c, s, 1, Acq(0));
    s' := Ask(c, s, t);
  }

  lemma Ask(c: Config, s: State, t: State) returns (s': State)
    requires Live(c, t) && Ahead(c, s) && t == Put(s, 1, s.hosts[1].(phase := Ending(Acq(0), {})))
    ensures Live(c, s') && Granted1(c, s')
  {
    Asked(c, s, t);
    var a := Go(c, t, SendAcq(1));
    s' := Go(c, a, ServeAcq(1, 0));
  }

  lemma Enter(c: Config, s: State) returns (s': State)
    requires Live(c, s) && Granted1(c, s)
    ensures Live(c, s') && Holding(c, s')
  {
    Entered(c, s);
    var a := Go(c, s, TakeLockGrant(1));
    s' := Go(c, a, Resume(1));
  }

  /** Host 1 has made the first n pages writable. */
  lemma {:induction false} Touch(c: Config, s: State, n: nat) returns (s': State)
    requires Live(c, s) && n <= c.pages && s.hosts[1].phase == Running
    ensures Live(c, s') && s' == s.(written := s'.written)
    ensures forall p :: 0 <= p < c.pages ==> s'.written[p] == (s.written[p] || p < n)
  {
    s' := s;
    if n > 0 {
      var t := Touch(c, s, n - 1);
      s' := Go(c, t, HomeFault(1, n - 1));
    }
  }

  /** Word 0 of page 0 has been written in sections of lock 0 only; the home has the last value, and the
      copy of host 0 has not. */
  predicate Missed(c: Config, s: State) {
    && Wf(c, s) && Big(c) && s.hosts[0].lines[0].data[0] != s.mem[0][0]
    && (0, 0) in s.latest && s.latest[(0, 0)] == Latest(s.mem[0][0], {0})
  }

  /** The section has dirtied pages 0 to 3410, and changed page 0. */
  ghost predicate Wrote1(c: Config, s: State) {
    && Wf(c, s) && Big(c) && Behind(c, s.hosts[0]) && Missed(c, s)
    && (forall p :: 0 <= p < c.pages ==> s.rdnt[p] && s.written[p] == (p <= LASTPAGES))
    && s.locks[0] == Taken()
    && var x := s.hosts[1];
    x.phase == Running && x.epoch == 1 && x.stack == [Ground(c), Section()] && x.chan[0] == [] && x.diffwait == 0
  }

  lemma WrittenInSection(c: Config, s: State, v: Word)
    requires Holding(c, s) && s.mem[0][0] != v
    ensures Held(s.hosts[1]) == {0} && Noted(s.latest, s.hosts[1], 0, 0, v) == map[(0, 0) := Latest(v, {0})]
  {
    var x := s.hosts[1];
    assert x.stack[1] == Section();
    assert Held(x) == {0};
  }

  lemma WriteSection(c: Config, s: State, v: Word) returns (s': State)
    requires Live(c, s) && Holding(c, s) && s.mem[0][0] != v
    ensures Live(c, s') && Wrote1(c, s')
  {
    WrittenInSection(c, s, v);
    var t := Touch(c, s, LASTPAGES + 1);
    s' := Go(c, t, HomeWrite(1, 0, 0, v));
  }

  // ---------------------------------------------------------------- the release

  /** Pages 0 to 3410, one more than a message holds, and those that the first message names. */
  datatype Split = Split(many: set<nat>, first: set<nat>) {
    ghost predicate Valid() {
      && |many| == LASTPAGES + 1 && (forall p: nat :: p in many <==> p <= LASTPAGES)
      && first <= many && |first| == PARTPAGES && 0 in first && |many - first| == |many| - |first|
    }

    function Rest(): set<nat> { many - first }

    function Parts(): seq<set<nat>> { [first, Rest()] }
  }

  lemma MakeSplit(most: nat, part: nat) returns (d: Split)
    requires most == LASTPAGES + 1 && part == PARTPAGES
    ensures d.Valid()
  {
    d := Split(Below(most), Below(part));
    assert d.first <= d.many;
  }

  /** Host 1 as its interval ends: what is left to look at, and the lock stack so far. */
  function Listing(x: HostState, todo: set<nat>, stack: seq<Frame>): HostState {
    x.(phase := Ending(Rel, todo), stack := stack)
  }

  function StackAfter(stack: seq<Frame>, p: nat): (r: seq<Frame>)
    requires |stack| == 2
    ensures |r| == 2 && r[0].lock == stack[0].lock && r[1].lock == stack[1].lock
    ensures r[1].pages == if p <= LASTPAGES then stack[1].pages + {p} else stack[1].pages
  {
    if p <= LASTPAGES then Reported(Dirtied(stack, p), p) else stack
  }

  ghost predicate ListingPages(c: Config, s: State) {
    && Wf(c, s) && Big(c) && (forall p :: 0 <= p < c.pages ==> s.rdnt[p] && s.written[p] == (p <= LASTPAGES))
    && var x := s.hosts[1];
    && x.phase.Ending? && x.phase.op == Rel && |x.stack| == 2
    && forall p :: p in x.phase.todo ==> p < c.pages
  }

  lemma ListPage(c: Config, s: State, p: nat)
    requires ListingPages(c, s) && p in s.hosts[1].phase.todo
    ensures CanEndPage(c, s, 1, p)
    ensures var x := s.hosts[1];
      DoEndPage(c, s, 1, p) == Put(s, 1, Listing(x, x.phase.todo - {p}, StackAfter(x.stack, p)))
    ensures ListingPages(c, DoEndPage(c, s, 1, p))
  {
  }

  lemma ListOne(c: Config, s: State, p: nat) returns (s': State)
    requires Live(c, s) && ListingPages(c, s) && p in s.hosts[1].phase.todo
    ensures Live(c, s') && ListingPages(c, s')
    ensures var x := s.hosts[1]; s' == Put(s, 1, Listing(x, x.phase.todo - {p}, StackAfter(x.stack, p)))
  {
    ListPage(c, s, p);
    s' := Go(c, s, EndPage(1, p));
  }

  lemma {:induction false} ListAll(c: Config, s: State, d: Split) returns (s': State, stack: seq<Frame>)
    requires d.Valid() && Live(c, s) && ListingPages(c, s)
    ensures Live(c, s') && s' == Put(s, 1, Listing(s.hosts[1], {}, stack))
    ensures |stack| == 2 && stack[0].lock == s.hosts[1].stack[0].lock && stack[1].lock == s.hosts[1].stack[1].lock
    ensures stack[1].pages == s.hosts[1].stack[1].pages + s.hosts[1].phase.todo * d.many
    decreases |s.hosts[1].phase.todo|
  {
    var x := s.hosts[1];
    var todo := x.phase.todo;
    if todo == {} {
      s', stack := s, x.stack;
      PutTwice(s, 1, x, x);
    } else {
      var p :| p in todo;
      var t := ListOne(c, s, p);
      var y := Listing(x, todo - {p}, StackAfter(x.stack, p));
      assert t.hosts[1] == y && |todo - {p}| == |todo| - 1;
      s', stack := ListAll(c, t, d);
      PutTwice(s, 1, y, Listing(x, {}, stack));
      ListedSoFar(d, x.stack[1].pages, todo, p);
    }
  }

  lemma ListedSoFar(d: Split, pages: set<nat>, todo: set<nat>, p: nat)
    requires d.Valid() && p in todo
    ensures (if p <= LASTPAGES then pages + {p} else pages) + (todo - {p}) * d.many == pages + todo * d.many
  {
  }

  lemma TwoParts(d: Split)
    requires d.Valid()
    ensures IsReport(d.many, d.Parts())
  {
    assert Union([d.first]) == d.first by { assert [d.first][..0] == []; }
    assert d.Parts()[..1] == [d.first];
    assert d.first + d.Rest() == d.many;
  }

  /** The manager has recorded the first part of the release, and the REL is on its way. */
  ghost predicate HalfTold(c: Config, s: State, r: Release, d: Split) {
    && Wf(c, s) && Big(c) && Behind(c, s.hosts[0]) && Missed(c, s)
    && r.from == 1 && r.scope == 0 && r.pages == d.first && r.epoch == 1
    && s.locks[0] == Taken().(notices := s.locks[0].notices, log := [r], hist := [r])
    && s.hosts[1].epoch == 1 && s.hosts[1].chan[0] == [RelMsg([d.Rest()], 1, r.itv)]
  }

  lemma ReleaseBegun(c: Config, s: State, d: Split)
    requires d.Valid() && Wrote1(c, s)
    ensures CanBeginSync(c, s, 1, Rel) && ListingPages(c, DoBeginSync(c, s, 1, Rel))
    ensures var x := DoBeginSync(c, s, 1, Rel).hosts[1];
      x == s.hosts[1].(phase := x.phase) && x.phase.todo * d.many == d.many && x.stack == [Ground(c), Section()]
  {
  }

  /** Host 1 has ended its interval and listed what it wrote. */
  ghost predicate Listed1(c: Config, s: State, d: Split) {
    && Wf(c, s) && Big(c) && Behind(c, s.hosts[0]) && Missed(c, s) && s.locks[0] == Taken()
    && var x := s.hosts[1];
    && x.phase == Ending(Rel, {}) && x.epoch == 1 && x.chan[0] == [] && x.diffwait == 0
    && |x.stack| == 2 && x.stack[1].lock == 0 && x.stack[1].pages == d.many
  }

  /** Its release is in the network. */
  ghost predicate Sent1(c: Config, s: State, d: Split, itv: nat) {
    && Wf(c, s) && Big(c) && Behind(c, s.hosts[0]) && Missed(c, s) && s.locks[0] == Taken()
    && s.hosts[1].epoch == 1 && s.hosts[1].chan[0] == [RelMsg(d.Parts(), 1, itv)]
  }

  lemma ListedAll(c: Config, s: State, t: State, stack: seq<Frame>, d: Split)
    requires Wrote1(c, s) && t == Put(s, 1, Listing(s.hosts[1], {}, stack))
    requires |stack| == 2 && stack[1].lock == 0 && stack[1].pages == d.many
    ensures Listed1(c, t, d)
  {
  }

  lemma EndSection(c: Config, s: State, d: Split) returns (s': State)
    requires d.Valid() && Live(c, s) && Wrote1(c, s)
    ensures Live(c, s') && Listed1(c, s', d)
  {
    ReleaseBegun(c, s, d);
    var a := Go(c, s, BeginSync(1, Rel));
    var b, stack := ListAll(c, a, d);
    PutTwice(s, 1, a.hosts[1], b.hosts[1]);
    assert stack[1].pages == d.many;
    ListedAll(c, s, b, stack, d);
    s' := b;
  }

  lemma Sending(c: Config, s: State, d: Split)
    requires d.Valid() && Listed1(c, s, d)
    ensures CanSendRel(c, s, 1, d.Parts()) && Sent1(c, DoSendRel(c, s, 1, d.Parts()), d, s.hosts[1].itv)
  {
    TwoParts(d);
  }

  lemma SendSection(c: Config, s: State, d: Split) returns (s': State)
    requires d.Valid() && Live(c, s) && Listed1(c, s, d)
    ensures Live(c, s') && Sent1(c, s', d, s.hosts[1].itv)
  {
    Sending(c, s, d);
    s' := Go(c, s, SendRel(1, d.Parts()));
  }

  lemma Telling(c: Config, s: State, d: Split, itv: nat)
    requires Sent1(c, s, d, itv)
    ensures CanServeWtnt(c, s, 1, 0)
    ensures HalfTold(c, DoServeWtnt(c, s, 1, 0), Release(1, 0, d.first, 1, itv), d)
  {
    assert d.Parts()[1..] == [d.Rest()];
  }

  lemma TellHalf(c: Config, s: State, d: Split, itv: nat) returns (s': State)
    requires Live(c, s) && Sent1(c, s, d, itv)
    ensures Live(c, s') && HalfTold(c, s', Release(1, 0, d.first, 1, itv), d)
  {
    Telling(c, s, d, itv);
    s' := Go(c, s, ServeWtnt(1, 0));
  }

  // ---------------------------------------------------------------- host 0 leaves the barrier and asks for the lock

  /** Host 0 is past the barrier too; the release is recorded, but for what clearing the notices lost. */
  ghost predicate Lost1(c: Config, s: State, r: Release, d: Split) {
    && Wf(c, s) && Big(c)
    && var x, k := s.hosts[0], s.locks[0];
    && x.phase == Running && x.epoch == 1 && x.stack == [Ground(c)] && x.myscope[0] == -1 && x.chan[0] == [] && x.diffwait == 0
    && (forall p :: 0 <= p < c.pages ==> x.lines[p].state == RO) && Missed(c, s)
    && r.scope == 0 && r.pages == d.first && r.epoch == 1
    && r in k.hist && r in k.lost && k.acqs == [] && 0 !in k.notices
  }

  ghost predicate BothPast(c: Config, s: State, r: Release, d: Split) {
    && Wf(c, s) && Big(c)
    && var x, k := s.hosts[0], s.locks[0];
    && x.phase == Running && x.epoch == 1 && x.stack == [Ground(c)] && x.myscope[0] == -1 && x.chan[0] == [] && x.diffwait == 0
    && (forall p :: 0 <= p < c.pages ==> x.lines[p].state == RO) && Missed(c, s)
    && r.scope == 0 && r.pages == d.first && r.epoch == 1
    && k == Taken().(lost := {r}, hist := [r])
    && s.hosts[1].epoch == 1 && s.hosts[1].chan[0] == [RelMsg([d.Rest()], 1, r.itv)]
  }

  lemma LeftLate(c: Config, s: State, r: Release, d: Split)
    requires HalfTold(c, s, r, d)
    ensures CanTakeBarrGrant(c, s, 0)
    ensures var a := DoTakeBarrGrant(c, s, 0); Wf(c, a) && CanResume(c, a, 0) && BothPast(c, DoResume(c, a, 0), r, d)
  {
    assert forall q :: q in [r] <==> q == r;
    assert (set q | q in [r] && q.epoch > 0) == {r};
  }

  lemma LeaveLate(c: Config, s: State, r: Release, d: Split) returns (s': State)
    requires Live(c, s) && HalfTold(c, s, r, d)
    ensures Live(c, s') && BothPast(c, s', r, d)
  {
    LeftLate(c, s, r, d);
    var a := Go(c, s, TakeBarrGrant(0));
    s' := Go(c, a, Resume(0));
  }

  lemma Released(c: Config, s: State, r: Release, d: Split)
    requires d.Valid() && BothPast(c, s, r, d)
    ensures CanServeRel(c, s, 1, 0) && Lost1(c, DoServeRel(c, s, 1, 0), r, d)
  {
    var s' := DoServeRel(c, s, 1, 0);
    assert s'.hosts[0] == ServeRelHost(c, s, 1, 0, 0);
  }

  lemma TellRest(c: Config, s: State, r: Release, d: Split) returns (s': State)
    requires d.Valid() && Live(c, s) && BothPast(c, s, r, d)
    ensures Live(c, s') && Lost1(c, s', r, d)
  {
    Released(c, s, r, d);
    s' := Go(c, s, ServeRel(1, 0));
  }

  /** Host 0 is about to handle the grant of lock 0.  The release r is of its own epoch and it has not seen
      it; r names page 0, which is homed elsewhere and which host 0 has a copy of; and the copy, in which
      word 0 does not have the last value written, will stay valid. */
  ghost predicate KeepsStale(c: Config, s: State, r: Release) {
    && Wf(c, s) && CanTakeLockGrant(c, s, 0)
    && var l, x := s.hosts[0].lockGrant.value.lock, s.hosts[0];
    && r in s.locks[l].hist && r.epoch >= x.epoch && r.scope > x.myscope[l] && 0 in r.pages && r in s.locks[l].lost
    && 0 < c.pages == |c.homeOf| && Remote(c, 0, 0)
    && Missed(c, s) && DoTakeLockGrant(c, s, 0).hosts[0].lines[0].Valid() && Missed(c, DoTakeLockGrant(c, s, 0))
  }

  lemma Unaware(c: Config, s: State, t: State, r: Release, d: Split)
    requires d.Valid() && Lost1(c, s, r, d) && t == Put(s, 0, s.hosts[0].(phase := Ending(Acq(0), {})))
    ensures Wf(c, t) && CanSendAcq(c, t, 0)
    ensures var a := DoSendAcq(c, t, 0); Wf(c, a) && CanServeAcq(c, a, 0, 0) && KeepsStale(c, DoServeAcq(c, a, 0, 0), r)
  {
  }

  lemma LostClean(c: Config, s: State, r: Release, d: Split)
    requires Lost1(c, s, r, d)
    ensures CanBeginSync(c, s, 0, Acq(0)) && NothingTodo(c, DoBeginSync(c, s, 0, Acq(0)), 0)
  {
  }

  lemma EndUnaware(c: Config, s: State, r: Release, d: Split) returns (s': State)
    requires Live(c, s) && Lost1(c, s, r, d)
    ensures Live(c, s') && s' == Put(s, 0, s.hosts[0].(phase := Ending(Acq(0), {})))
  {
    LostClean(c, s, r, d);
    s' := EndClean(c, s, 0, Acq(0));
  }

  lemma AskUnaware(c: Config, s: State, t: State, r: Release, d: Split) returns (s': State)
    requires d.Valid() && Live(c, t) && Lost1(c, s, r, d) && t == Put(s, 0, s.hosts[0].(phase := Ending(Acq(0), {})))
    ensures Live(c, s') && KeepsStale(c, s', r)
  {
    Unaware(c, s, t, r, d);
    var a := Go(c, t, SendAcq(0));
    s' := Go(c, a, ServeAcq(0, 0));
  }

  // ---------------------------------------------------------------- the run

  lemma Begin(c: Config, s: State) returns (s': State)
    requires Init(c, s) && Big(c)
    ensures Live(c, s') && Before(c, s') && s'.barrScope == 0
  {
    assert IsRun([World(c, s)]) && [World(c, s)][0] == World(c, s);
    assert InitHost(c, s.hosts[0]) && InitHost(c, s.hosts[1]);
    s' := FetchAll(c, s, c.pages);
    Ready(c, s, s');
  }

  lemma Ready(c: Config, s: State, s': State)
    requires Init(c, s) && Big(c) && Wf(c, s') && Fetched(c, s, s', c.pages)
    ensures Before(c, s') && s'.barrScope == 0
  {
    assert InitHost(c, s.hosts[0]) && InitHost(c, s.hosts[1]);
    assert s'.hosts[1] == s.hosts[1];
  }

  /** The run up to the end of host 1's section. */
  lemma SectionWritten(c: Config, start: State) returns (s: State)
    requires Init(c, start) && Big(c)
    ensures Live(c, s) && Wrote1(c, s)
  {
    s := Begin(c, start);
    s := Meet(c, s);
    s := GetAhead(c, s);
    s := TakeLock(c, s);
    s := Enter(c, s);
    s := WriteSection(c, s, if s.mem[0][0] == 0 then 1 else 0);
  }

  lemma HalfReleased(c: Config, start: State, d: Split) returns (s: State, r: Release)
    requires d.Valid() && Live(c, start) && Wrote1(c, start)
    ensures Live(c, s) && HalfTold(c, s, r, d)
  {
    s := EndSection(c, start, d);
    r := Release(1, 0, d.first, 1, s.hosts[1].itv);
    s := SendSection(c, s, d);
    s := TellHalf(c, s, d, r.itv);
  }

  lemma HalfLost(c: Config, start: State, r: Release, d: Split) returns (s: State)
    requires d.Valid() && Live(c, start) && HalfTold(c, start, r, d)
    ensures Live(c, s) && KeepsStale(c, s, r)
  {
    s := LeaveLate(c, start, r, d);
    s := TellRest(c, s, r, d);
    var t := EndUnaware(c, s, r, d);
    s := AskUnaware(c, s, t, r, d);
  }

  /** From every start with two hosts and more pages than a message holds, homed away from the lock's
      manager, there is a run in which a host keeps a stale copy of a page that a release of its own epoch,
      which it has not seen, reported: lock coherence fails for it, and scope consistency with it, although the
      page was written in sections of the lock only. */
  lemma LockNoticeLost(c: Config, start: State) returns (s: State, r: Release)
    requires Init(c, start) && Big(c)
    ensures Reachable(c, s) && KeepsStale(c, s, r)
  {
    var d := MakeSplit(LASTPAGES + 1, PARTPAGES);
    s := SectionWritten(c, start);
    s, r := HalfReleased(c, s, d);
    s := HalfLost(c, s, r, d);
  }
}
