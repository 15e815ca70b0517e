/** JIAJIA's home-based scope-consistency protocol as one state machine.

    A host runs an application thread and a server thread.  Every application step below is one
    that the source takes between two points at which a server handler can interleave, and every
    message is handled in one step.  The network holds each message in a slot of the host that
    sent or awaits it; only the messages of one host about one lock are kept in sending order, so
    everything proved here holds for any other reordering.

    Fields marked "history" record what happened; no step reads them to decide anything. */
module Protocol {
  import opened Pages

  const MAXHOSTS := 16
  const MAXSTACK := 8

  datatype Option<+T> = None | Some(value: T)

  /** homeOf is the home map; allocation leaves the first one, and migration changes it. */
  datatype Config = Config(hosts: nat, pages: nat, locks: nat, homeOf: seq<nat>)

  predicate ValidConfig(c: Config) {
    && 2 <= c.hosts <= MAXHOSTS
    && |c.homeOf| == c.pages
    && forall p :: 0 <= p < c.pages ==> c.homeOf[p] < c.hosts
  }

  // ---------------------------------------------------------------- write notices

  /** One notice per page; from is MAXHOSTS once the page was reported more than once. */
  datatype Entry = Entry(from: nat, scope: int)
  type Notices = map<nat, Entry>

  function Record(n: Notices, pages: set<nat>, from: nat, scope: int): Notices {
    map p | p in n.Keys + pages ::
      if p !in pages then n[p] else Entry(if p in n then MAXHOSTS else from, scope)
  }

  /** A release, or the part of one that a message carries, as its lock's manager saw it (history). */
  datatype Release = Release(from: nat, scope: int, pages: set<nat>, epoch: nat, itv: nat)

  /** A report leaves in messages of whole nodes: six full nodes make a message, and the last message
      may hold 344 pages more.  A report of up to 3410 pages is one message. */
  const PARTPAGES := 3066
  const LASTPAGES := 3410

  function Union(parts: seq<set<nat>>): (r: set<nat>)
    ensures forall p :: p in r <==> exists i :: 0 <= i < |parts| && p in parts[i]
  {
    if parts == [] then {} else Union(parts[..|parts| - 1]) + parts[|parts| - 1]
  }

  predicate Apart(parts: seq<set<nat>>) {
    forall i, j :: 0 <= i < j < |parts| ==> parts[i] !! parts[j]
  }

  predicate Sized(parts: seq<set<nat>>)
    requires |parts| > 0
  {
    var n := |parts| - 1;
    && (forall i :: 0 <= i < n ==> |parts[i]| == PARTPAGES)
    && |parts[n]| <= LASTPAGES && (n > 0 ==> |parts[n]| > LASTPAGES - PARTPAGES)
  }

  /** The messages in which sendwtnts sends a list of pages, each of which it names once. */
  predicate IsReport(pages: set<nat>, parts: seq<set<nat>>) {
    |parts| > 0 && Union(parts) == pages && Apart(parts) && Sized(parts)
  }

  /** What a lock grant carries to host `to`. */
  function GrantNotices(c: Config, n: Notices, acqscope: int, to: nat): Notices {
    map p | p in n && n[p].scope > acqscope && p < |c.homeOf| && c.homeOf[p] != to :: n[p]
  }

  // ---------------------------------------------------------------- state

  datatype LineState = UNMAP | INV | RO | RW

  datatype Line = Line(state: LineState, data: PageData, twin: PageData) {
    predicate Valid() { state == RO || state == RW }
  }

  /** One level of the lock stack: the lock, the pages to report for it, and (history) the pages
      dirtied since it was pushed; level 0 stands for the barrier. */
  datatype Frame = Frame(lock: nat, pages: set<nat>, dirtied: set<nat>)

  datatype SyncOp = Acq(lock: nat) | Rel | Barr

  datatype Phase =
    | Running
    | Fetching(page: nat, write: bool)
    | Ending(op: SyncOp, todo: set<nat>)
    | Waiting(op: SyncOp)
    | Resuming(op: SyncOp)

  datatype Diff = Diff(page: PageData, twin: PageData, itv: nat)

  /** RelMsg stands for the messages of one release that are still to be handled: a WTNT for each part
      but the last, and the REL with the last. */
  datatype LockMsg =
    | AcqMsg(scope: int)
    | RelMsg(parts: seq<set<nat>>, epoch: nat, itv: nat)

  datatype LockGrant = LockGrant(lock: nat, scope: int, notices: Notices, log: seq<Release>)

  datatype HostState = HostState(
    lines: seq<Line>,                      // cache, by page
    stack: seq<Frame>,                     // lockstack[0..stackptr]
    phase: Phase,                          // where the application thread is
    diffwait: nat,
    myscope: seq<int>,                     // locks[l].myscope
    noclear: bool,                         // noclearlocks
    epoch: nat,                            // barrier grants handled
    itv: nat,                              // intervals started (history)
    barriers: nat,                         // barriers arrived at (history)
    getp: Option<nat>,                     // GETP in flight
    pageGrant: Option<(nat, PageData)>,    // GETPGRANT in flight
    diffs: map<nat, Diff>,                 // DIFF in flight, by page
    diffGrants: nat,                       // DIFFGRANT in flight
    chan: seq<seq<LockMsg>>,               // ACQ, WTNT and REL in flight, by lock
    lockGrant: Option<LockGrant>,          // ACQGRANT in flight
    barr: Option<set<nat>>,                // BARR in flight
    barrGrant: Option<Notices>)            // BARRGRANT in flight

  datatype Acquirer = Acquirer(host: nat, scope: int)

  datatype LockState = LockState(
    acqs: seq<Acquirer>,
    scope: int,
    notices: Notices,
    log: seq<Release>,                     // releases since the notices were last cleared (history)
    hist: seq<Release>,                    // all releases (history)
    lost: set<Release>,                    // releases cleared before the barrier that ends their epoch (history)
    arrivals: seq<nat>,                    // hosts in ACQ arrival order (history)
    grants: seq<nat>)                      // hosts in grant order (history)

  datatype Site = Site(host: nat, page: nat, unit: nat)

  /** The last write to a unit, and the locks held at every write to it since the last barrier completed. */
  datatype Latest = Latest(value: Word, locks: set<nat>)

  datatype State = State(
    hosts: seq<HostState>,
    mem: seq<PageData>,                    // each page at its home
    written: seq<bool>,                    // home[].wtnt & 1
    rdnt: seq<bool>,                       // home[].rdnt
    locks: seq<LockState>,
    acqc: nat,                             // locks[hidelock].acqc
    arrived: set<nat>,                     // the hosts counted in acqc (history)
    barrNotices: Notices,
    barrScope: nat,
    reported: map<nat, set<nat>>,          // reports of the arrived hosts (history)
    snapshot: seq<PageData>,               // home copies when the last barrier completed (history)
    last: map<Site, Word>,                 // last value each host wrote since then (history)
    latest: map<(nat, nat), Latest>)       // last write to each unit since then (history)

  predicate WfHost(c: Config, x: HostState) {
    |x.lines| == c.pages && |x.stack| >= 1 && |x.myscope| == c.locks && |x.chan| == c.locks
  }

  predicate Wf(c: Config, s: State) {
    && ValidConfig(c)
    && |s.hosts| == c.hosts
    && (forall h :: 0 <= h < c.hosts ==> WfHost(c, s.hosts[h]))
    && |s.mem| == |s.written| == |s.rdnt| == |s.snapshot| == c.pages
    && |s.locks| == c.locks
  }

  /** The set {0, ..., n - 1}. */
  function Below(n: nat): (r: set<nat>)
    ensures |r| == n
    ensures forall k: nat :: k in r <==> k < n
  {
    if n == 0 then {} else Below(n - 1) + {n - 1}
  }

  predicate Remote(c: Config, h: nat, p: nat)
    requires p < |c.homeOf|
  {
    c.homeOf[p] != h
  }

  function Top(x: HostState): Frame
    requires |x.stack| >= 1
  {
    x.stack[|x.stack| - 1]
  }

  /** The locks on the stack. */
  function Held(x: HostState): (r: set<nat>)
    ensures forall l :: l in r <==> exists i :: 1 <= i < |x.stack| && x.stack[i].lock == l
  {
    set i | 1 <= i < |x.stack| :: x.stack[i].lock
  }

  function Noted(latest: map<(nat, nat), Latest>, x: HostState, p: nat, u: nat, v: Word): map<(nat, nat), Latest> {
    latest[(p, u) := Latest(v, if (p, u) in latest then latest[(p, u)].locks * Held(x) else Held(x))]
  }

  /** Page p becomes dirty at every open level. */
  function Dirtied(stack: seq<Frame>, p: nat): (r: seq<Frame>)
    ensures |r| == |stack|
  {
    seq(|stack|, i requires 0 <= i < |stack| => stack[i].(dirtied := stack[i].dirtied + {p}))
  }

  /** savewtnt on the list of the top level. */
  function Reported(stack: seq<Frame>, p: nat): (r: seq<Frame>)
    requires |stack| >= 1
    ensures |r| == |stack|
  {
    var t := |stack| - 1;
    stack[t := stack[t].(pages := stack[t].pages + {p})]
  }

  /** popstack: the notices of the closed level go to the level below. */
  function Popped(stack: seq<Frame>): (r: seq<Frame>)
    requires |stack| >= 2
    ensures |r| == |stack| - 1
  {
    var t := |stack| - 1;
    stack[..t][t - 1 := stack[t - 1].(pages := stack[t - 1].pages + stack[t].pages)]
  }

  function InvalidateLine(c: Config, h: nat, p: nat, x: Line, notices: Notices): Line
    requires p < |c.homeOf|
  {
    if p in notices && notices[p].from != h && Remote(c, h, p) && x.Valid() then x.(state := INV) else x
  }

  /** invalidate: the copies named by the notices, except pages homed here and pages only this
      host wrote. */
  function Invalidated(c: Config, h: nat, lines: seq<Line>, notices: Notices): (r: seq<Line>)
    requires |lines| == c.pages == |c.homeOf|
    ensures |r| == |lines|
    ensures forall p :: 0 <= p < |lines| ==> r[p] == InvalidateLine(c, h, p, lines[p], notices)
  {
    seq(|lines|, p requires 0 <= p < |lines| => InvalidateLine(c, h, p, lines[p], notices))
  }

  /** startinterval on the cache: dirty copies become read-only. */
  function Cleaned(lines: seq<Line>): (r: seq<Line>)
    ensures |r| == |lines|
    ensures forall p :: 0 <= p < |lines| ==>
      r[p] == if lines[p].state == RW then lines[p].(state := RO) else lines[p]
  {
    seq(|lines|, p requires 0 <= p < |lines| =>
      if lines[p].state == RW then lines[p].(state := RO) else lines[p])
  }

  /** startinterval on the home pages of h. */
  function CleanedHome(c: Config, h: nat, written: seq<bool>): (r: seq<bool>)
    requires |written| == c.pages == |c.homeOf|
    ensures |r| == |written|
    ensures forall p :: 0 <= p < |written| ==> r[p] == (written[p] && Remote(c, h, p))
  {
    seq(|written|, p requires 0 <= p < |written| => written[p] && Remote(c, h, p))
  }

  // ---------------------------------------------------------------- steps

  datatype Step =
    | Evict(h: nat, p: nat)
    | Fault(h: nat, p: nat, write: bool)
    | Upgrade(h: nat, p: nat)
    | Write(h: nat, p: nat, u: nat, v: Word)
    | HomeFault(h: nat, p: nat)
    | HomeWrite(h: nat, p: nat, u: nat, v: Word)
    | ServeGetp(h: nat)
    | TakePage(h: nat)
    | BeginSync(h: nat, op: SyncOp)
    | EndPage(h: nat, p: nat)
    | ServeDiff(h: nat, p: nat)
    | TakeDiffGrant(h: nat)
    | SendAcq(h: nat)
    | SendRel(h: nat, parts: seq<set<nat>>)
    | SendBarr(h: nat)
    | ServeAcq(h: nat, l: nat)
    | ServeWtnt(h: nat, l: nat)
    | ServeRel(h: nat, l: nat)
    | TakeLockGrant(h: nat)
    | ServeBarr(h: nat)
    | TakeBarrGrant(h: nat)
    | Resume(h: nat)

  predicate PageOf(c: Config, h: nat, p: nat, remote: bool) {
    p < c.pages == |c.homeOf| && Remote(c, h, p) == remote
  }

  /** jia_lock refuses a lock already on the stack and a full stack, jia_barrier an open lock. */
  predicate MayBegin(c: Config, x: HostState, op: SyncOp) {
    match op
    case Acq(l) =>
      l < c.locks && |x.stack| < MAXSTACK && forall i :: 0 <= i < |x.stack| ==> x.stack[i].lock != l
    case Rel => |x.stack| >= 2
    case Barr => |x.stack| == 1
  }

  predicate ReadyToSend(x: HostState) {
    x.phase.Ending? && x.phase.todo == {} && x.diffwait == 0
  }

  predicate CanEvict(c: Config, s: State, h: nat, p: nat)
    requires Wf(c, s)
  {
    h < c.hosts && var x := s.hosts[h]; x.phase == Running && p < c.pages && x.lines[p].state in {INV, RO}
  }

  predicate CanFault(c: Config, s: State, h: nat, p: nat)
    requires Wf(c, s)
  {
    h < c.hosts && var x := s.hosts[h]; x.phase == Running && PageOf(c, h, p, true) && !x.lines[p].Valid()
  }

  predicate CanUpgrade(c: Config, s: State, h: nat, p: nat)
    requires Wf(c, s)
  {
    h < c.hosts && var x := s.hosts[h]; x.phase == Running && PageOf(c, h, p, true) && x.lines[p].state == RO
  }

  predicate CanWrite(c: Config, s: State, h: nat, p: nat, u: nat)
    requires Wf(c, s)
  {
    h < c.hosts && var x := s.hosts[h]; x.phase == Running && PageOf(c, h, p, true) && u < UNITS && x.lines[p].state == RW
  }

  predicate CanHomeFault(c: Config, s: State, h: nat, p: nat)
    requires Wf(c, s)
  {
    h < c.hosts && var x := s.hosts[h]; x.phase == Running && PageOf(c, h, p, false)
  }

  predicate CanHomeWrite(c: Config, s: State, h: nat, p: nat, u: nat)
    requires Wf(c, s)
  {
    h < c.hosts && var x := s.hosts[h]; x.phase == Running && PageOf(c, h, p, false) && u < UNITS && s.written[p]
  }

  predicate CanServeGetp(c: Config, s: State, h: nat)
    requires Wf(c, s)
  {
    h < c.hosts && var x := s.hosts[h]; x.getp.Some? && x.getp.value < c.pages
  }

  predicate CanTakePage(c: Config, s: State, h: nat)
    requires Wf(c, s)
  {
    h < c.hosts && var x := s.hosts[h]; x.pageGrant.Some? && x.phase.Fetching? && x.pageGrant.value.0 < c.pages
  }

  predicate CanBeginSync(c: Config, s: State, h: nat, op: SyncOp)
    requires Wf(c, s)
  {
    h < c.hosts && var x := s.hosts[h]; x.phase == Running && MayBegin(c, x, op)
  }

  predicate CanEndPage(c: Config, s: State, h: nat, p: nat)
    requires Wf(c, s)
  {
    h < c.hosts && var x := s.hosts[h]; x.phase.Ending? && p in x.phase.todo && p < c.pages
  }

  predicate CanServeDiff(c: Config, s: State, h: nat, p: nat)
    requires Wf(c, s)
  {
    h < c.hosts && var x := s.hosts[h]; p in x.diffs && p < c.pages
  }

  predicate CanTakeDiffGrant(c: Config, s: State, h: nat)
    requires Wf(c, s)
  {
    h < c.hosts && var x := s.hosts[h]; x.diffGrants > 0 && x.diffwait > 0
  }

  predicate CanSendAcq(c: Config, s: State, h: nat)
    requires Wf(c, s)
  {
    h < c.hosts && var x := s.hosts[h]; ReadyToSend(x) && x.phase.op.Acq? && x.phase.op.lock < c.locks
  }

  predicate CanRelease(c: Config, s: State, h: nat)
    requires Wf(c, s)
  {
    h < c.hosts && var x := s.hosts[h]; ReadyToSend(x) && x.phase.op.Rel? && |x.stack| >= 2 && Top(x).lock < c.locks
  }

  predicate CanSendRel(c: Config, s: State, h: nat, parts: seq<set<nat>>)
    requires Wf(c, s)
  {
    CanRelease(c, s, h) && IsReport(Top(s.hosts[h]).pages, parts)
  }

  predicate CanSendBarr(c: Config, s: State, h: nat)
    requires Wf(c, s)
  {
    h < c.hosts && var x := s.hosts[h]; ReadyToSend(x) && x.phase.op.Barr?
  }

  predicate CanServeAcq(c: Config, s: State, h: nat, l: nat)
    requires Wf(c, s)
  {
    h < c.hosts && var x := s.hosts[h]; l < c.locks && |x.chan[l]| > 0 && x.chan[l][0].AcqMsg?
  }

  predicate CanServeWtnt(c: Config, s: State, h: nat, l: nat)
    requires Wf(c, s)
  {
    h < c.hosts && var x := s.hosts[h]; l < c.locks && |x.chan[l]| > 0 && x.chan[l][0].RelMsg? && |x.chan[l][0].parts| > 1
  }

  predicate CanServeRel(c: Config, s: State, h: nat, l: nat)
    requires Wf(c, s)
  {
    h < c.hosts && var x := s.hosts[h]; l < c.locks && |x.chan[l]| > 0 && x.chan[l][0].RelMsg? && |x.chan[l][0].parts| == 1 && |s.locks[l].acqs| > 0
  }

  predicate CanTakeLockGrant(c: Config, s: State, h: nat)
    requires Wf(c, s)
  {
    h < c.hosts && var x := s.hosts[h]; x.lockGrant.Some? && x.lockGrant.value.lock < c.locks && x.phase == Waiting(Acq(x.lockGrant.value.lock))
  }

  predicate CanServeBarr(c: Config, s: State, h: nat)
    requires Wf(c, s)
  {
    h < c.hosts && var x := s.hosts[h]; x.barr.Some?
  }

  predicate CanTakeBarrGrant(c: Config, s: State, h: nat)
    requires Wf(c, s)
  {
    h < c.hosts && var x := s.hosts[h]; x.barrGrant.Some? && x.phase == Waiting(Barr)
  }

  predicate CanResume(c: Config, s: State, h: nat)
    requires Wf(c, s)
  {
    h < c.hosts && var x := s.hosts[h]; x.phase.Resuming?
  }

  predicate Enabled(c: Config, s: State, step: Step)
    requires Wf(c, s)
  {
    match step
    case Evict(h, p) => CanEvict(c, s, h, p)
    case Fault(h, p, _) => CanFault(c, s, h, p)
    case Upgrade(h, p) => CanUpgrade(c, s, h, p)
    case Write(h, p, u, _) => CanWrite(c, s, h, p, u)
    case HomeFault(h, p) => CanHomeFault(c, s, h, p)
    case HomeWrite(h, p, u, _) => CanHomeWrite(c, s, h, p, u)
    case ServeGetp(h) => CanServeGetp(c, s, h)
    case TakePage(h) => CanTakePage(c, s, h)
    case BeginSync(h, op) => CanBeginSync(c, s, h, op)
    case EndPage(h, p) => CanEndPage(c, s, h, p)
    case ServeDiff(h, p) => CanServeDiff(c, s, h, p)
    case TakeDiffGrant(h) => CanTakeDiffGrant(c, s, h)
    case SendAcq(h) => CanSendAcq(c, s, h)
    case SendRel(h, parts) => CanSendRel(c, s, h, parts)
    case SendBarr(h) => CanSendBarr(c, s, h)
    case ServeAcq(h, l) => CanServeAcq(c, s, h, l)
    case ServeWtnt(h, l) => CanServeWtnt(c, s, h, l)
    case ServeRel(h, l) => CanServeRel(c, s, h, l)
    case TakeLockGrant(h) => CanTakeLockGrant(c, s, h)
    case ServeBarr(h) => CanServeBarr(c, s, h)
    case TakeBarrGrant(h) => CanTakeBarrGrant(c, s, h)
    case Resume(h) => CanResume(c, s, h)
  }

  function Put(s: State, h: nat, x: HostState): State
    requires h < |s.hosts|
  {
    s.(hosts := s.hosts[h := x])
  }

  /** grantlock: what the host at the head of the queue of lock l is sent. */
  function GrantTo(c: Config, l: nat, k: LockState, a: Acquirer): LockGrant {
    LockGrant(l, k.scope, GrantNotices(c, k.notices, a.scope, a.host), k.log)
  }

  /** endinterval, one page: savepage for a dirty copy, the written/rdnt test for a home page. */
  predicate MustReport(c: Config, s: State, h: nat, p: nat)
    requires Wf(c, s) && h < c.hosts && p < c.pages
  {
    if Remote(c, h, p) then s.hosts[h].lines[p].state == RW else s.written[p] && s.rdnt[p]
  }

  function EndPageHost(c: Config, s: State, h: nat, p: nat): HostState
    requires Wf(c, s) && CanEndPage(c, s, h, p)
  {
    var x := s.hosts[h];
    var report, flush := MustReport(c, s, h, p), Remote(c, h, p) && x.lines[p].state == RW;
    x.(phase := Ending(x.phase.op, x.phase.todo - {p}),
       stack := if flush then Reported(x.stack, p)
                else if report then Reported(Dirtied(x.stack, p), p)
                else x.stack,
       diffwait := if flush then x.diffwait + 1 else x.diffwait,
       diffs := if flush then x.diffs[p := Diff(x.lines[p].data, x.lines[p].twin, x.itv)] else x.diffs)
  }

  function DoEndPage(c: Config, s: State, h: nat, p: nat): State
    requires Wf(c, s) && CanEndPage(c, s, h, p)
  {
    var reset := !Remote(c, h, p) && MustReport(c, s, h, p) && s.hosts[h].phase.op == Barr;
    Put(s, h, EndPageHost(c, s, h, p)).(rdnt := if reset then s.rdnt[p := false] else s.rdnt)
  }

  function DoServeDiff(c: Config, s: State, h: nat, p: nat): State
    requires Wf(c, s) && CanServeDiff(c, s, h, p)
  {
    var x := s.hosts[h];
    Put(s, h, x.(diffs := x.diffs - {p}, diffGrants := x.diffGrants + 1))
      .(mem := s.mem[p := Merge(s.mem[p], x.diffs[p].page, x.diffs[p].twin)])
  }

  /** sendwtnts(REL), startinterval, popstack. */
  function DoSendRel(c: Config, s: State, h: nat, parts: seq<set<nat>>): State
    requires Wf(c, s) && CanRelease(c, s, h)
  {
    var x := s.hosts[h];
    var l := Top(x).lock;
    Put(s, h,
        x.(chan := x.chan[l := x.chan[l] + [RelMsg(parts, x.epoch, x.itv)]],
           lines := Cleaned(x.lines), stack := Popped(x.stack), phase := Running, itv := x.itv + 1))
      .(written := CleanedHome(c, h, s.written))
  }

  function DoServeAcq(c: Config, s: State, h: nat, l: nat): State
    requires Wf(c, s) && CanServeAcq(c, s, h, l)
  {
    var x, k := s.hosts[h], s.locks[l];
    var a, free := Acquirer(h, x.chan[l][0].scope), |k.acqs| == 0;
    Put(s, h, x.(chan := x.chan[l := x.chan[l][1..]],
                 lockGrant := if free then Some(GrantTo(c, l, k, a)) else x.lockGrant))
      .(locks := s.locks[l := k.(acqs := k.acqs + [a], arrivals := k.arrivals + [h],
                                 grants := if free then k.grants + [h] else k.grants)])
  }

  /** The manager of lock l is host l % hosts; it keeps its notices over its next barrier grant
      when a release comes from a host that is already past that barrier. */
  function Manager(c: Config, l: nat): nat
    requires c.hosts > 0
  {
    l % c.hosts
  }

  /** recordwtnts: the first part of what a release has still to say. */
  function PartRecorded(k: LockState, h: nat, m: LockMsg): LockState
    requires m.RelMsg? && |m.parts| > 0
  {
    var r := Release(h, k.scope, m.parts[0], m.epoch, m.itv);
    k.(notices := Record(k.notices, m.parts[0], h, k.scope), log := k.log + [r], hist := k.hist + [r])
  }

  function RelRecorded(k: LockState, h: nat, m: LockMsg): LockState
    requires m.RelMsg? && |m.parts| == 1 && |k.acqs| > 0
  {
    PartRecorded(k, h, m).(scope := k.scope + 1, acqs := k.acqs[1..],
                           grants := if |k.acqs| > 1 then k.grants + [k.acqs[1].host] else k.grants)
  }

  /** wtntserver: one part of a release is recorded, and nothing else happens.  It does not look at how
      far the sender is. */
  function DoServeWtnt(c: Config, s: State, h: nat, l: nat): State
    requires Wf(c, s) && CanServeWtnt(c, s, h, l)
  {
    var x := s.hosts[h];
    var m := x.chan[l][0];
    Put(s, h, x.(chan := x.chan[l := [m.(parts := m.parts[1..])] + x.chan[l][1..]]))
      .(locks := s.locks[l := PartRecorded(s.locks[l], h, m)])
  }

  /** Host i after the manager of lock l has handled the release from h: the message is gone, the
      manager may keep its notices, and the next host in the queue is granted the lock. */
  function ServeRelHost(c: Config, s: State, h: nat, l: nat, i: nat): HostState
    requires Wf(c, s) && CanServeRel(c, s, h, l) && i < c.hosts
  {
    var x, k, m := s.hosts[i], s.locks[l], s.hosts[h].chan[l][0];
    x.(chan := if i == h then x.chan[l := x.chan[l][1..]] else x.chan,
       noclear := x.noclear || (i == Manager(c, l) && m.epoch > x.epoch),
       lockGrant := if |k.acqs| > 1 && k.acqs[1].host == i
                    then Some(GrantTo(c, l, RelRecorded(k, h, m), k.acqs[1])) else x.lockGrant)
  }

  function ServeRelHosts(c: Config, s: State, h: nat, l: nat): (r: seq<HostState>)
    requires Wf(c, s) && CanServeRel(c, s, h, l)
    ensures |r| == c.hosts
    ensures forall i :: 0 <= i < c.hosts ==> r[i] == ServeRelHost(c, s, h, l, i)
  {
    seq(c.hosts, i requires 0 <= i < c.hosts => ServeRelHost(c, s, h, l, i))
  }

  function DoServeRel(c: Config, s: State, h: nat, l: nat): State
    requires Wf(c, s) && CanServeRel(c, s, h, l)
  {
    s.(hosts := ServeRelHosts(c, s, h, l),
       locks := s.locks[l := RelRecorded(s.locks[l], h, s.hosts[h].chan[l][0])])
  }

  function DoTakeLockGrant(c: Config, s: State, h: nat): State
    requires Wf(c, s) && CanTakeLockGrant(c, s, h)
  {
    var x := s.hosts[h];
    var g := x.lockGrant.value;
    Put(s, h, x.(lines := Invalidated(c, h, x.lines, g.notices),
                 myscope := x.myscope[g.lock := g.scope],
                 lockGrant := None, phase := Resuming(Acq(g.lock))))
  }

  /** Host i after the BARR of host h was handled; the last one to arrive makes the manager send
      the notices to every host. */
  function ServeBarrHosts(hosts: seq<HostState>, h: nat, grant: Option<Notices>): (r: seq<HostState>)
    ensures |r| == |hosts|
    ensures forall i :: 0 <= i < |hosts| ==>
      r[i] == hosts[i].(barr := if i == h then None else hosts[i].barr,
                        barrGrant := if grant.Some? then grant else hosts[i].barrGrant)
  {
    seq(|hosts|, i requires 0 <= i < |hosts| =>
      hosts[i].(barr := if i == h then None else hosts[i].barr,
                barrGrant := if grant.Some? then grant else hosts[i].barrGrant))
  }

  predicate LastArrival(c: Config, s: State) { s.acqc + 1 == c.hosts }

  /** barrserver, grantbarr, freewtntspace. */
  function DoServeBarr(c: Config, s: State, h: nat): State
    requires Wf(c, s) && CanServeBarr(c, s, h)
  {
    var pages := s.hosts[h].barr.value;
    var n := Record(s.barrNotices, pages, h, s.barrScope);
    if LastArrival(c, s) then
      s.(hosts := ServeBarrHosts(s.hosts, h, Some(n)), acqc := 0, arrived := {}, barrNotices := map[],
         barrScope := s.barrScope + 1, reported := map[], snapshot := s.mem, last := map[],
         latest := map[])
    else
      s.(hosts := ServeBarrHosts(s.hosts, h, None), acqc := s.acqc + 1, arrived := s.arrived + {h},
         barrNotices := n, reported := s.reported[h := pages])
  }

  /** Freeing the notices of a lock at the end of an epoch. */
  function Cleared(k: LockState, epoch: nat): LockState {
    k.(notices := map[], log := [], lost := k.lost + set r | r in k.log && r.epoch > epoch)
  }

  /** clearlocks on the locks managed by h, whose epoch ends. */
  function ClearedLocks(c: Config, h: nat, epoch: nat, locks: seq<LockState>): (r: seq<LockState>)
    requires c.hosts > 0
    ensures |r| == |locks|
    ensures forall l :: 0 <= l < |locks| ==>
      r[l] == if Manager(c, l) == h then Cleared(locks[l], epoch) else locks[l]
  {
    seq(|locks|, l requires 0 <= l < |locks| => if Manager(c, l) == h then Cleared(locks[l], epoch) else locks[l])
  }

  function DoTakeBarrGrant(c: Config, s: State, h: nat): State
    requires Wf(c, s) && CanTakeBarrGrant(c, s, h)
  {
    var x := s.hosts[h];
    Put(s, h, x.(lines := Invalidated(c, h, x.lines, x.barrGrant.value),
                 epoch := x.epoch + 1, noclear := false,
                 barrGrant := None, phase := Resuming(Barr)))
      .(locks := if x.noclear then s.locks else ClearedLocks(c, h, x.epoch, s.locks))
  }

  /** startinterval, and pushstack after an acquire. */
  function DoResume(c: Config, s: State, h: nat): State
    requires Wf(c, s) && CanResume(c, s, h)
  {
    var x := s.hosts[h];
    Put(s, h,
        x.(lines := Cleaned(x.lines), phase := Running, itv := x.itv + 1,
           stack := if x.phase.op.Acq? then x.stack + [Frame(x.phase.op.lock, {}, {})] else x.stack))
      .(written := CleanedHome(c, h, s.written))
  }

  function DoEvict(c: Config, s: State, h: nat, p: nat): State
    requires Wf(c, s) && CanEvict(c, s, h, p)
  {
    var x := s.hosts[h];
    Put(s, h, x.(lines := x.lines[p := x.lines[p].(state := UNMAP)]))
  }

  function DoFault(c: Config, s: State, h: nat, p: nat, write: bool): State
    requires Wf(c, s) && CanFault(c, s, h, p)
  {
    Put(s, h, s.hosts[h].(phase := Fetching(p, write), getp := Some(p)))
  }

  /** A write fault on a read-only copy makes the twin. */
  function DoUpgrade(c: Config, s: State, h: nat, p: nat): State
    requires Wf(c, s) && CanUpgrade(c, s, h, p)
  {
    var x := s.hosts[h];
    Put(s, h, x.(lines := x.lines[p := Line(RW, x.lines[p].data, x.lines[p].data)],
                 stack := Dirtied(x.stack, p)))
  }

  function DoWrite(c: Config, s: State, h: nat, p: nat, u: nat, v: Word): State
    requires Wf(c, s) && CanWrite(c, s, h, p, u)
  {
    var x := s.hosts[h];
    Put(s, h, x.(lines := x.lines[p := x.lines[p].(data := x.lines[p].data[u := v])]))
      .(last := s.last[Site(h, p, u) := v], latest := Noted(s.latest, x, p, u, v))
  }

  function DoHomeFault(c: Config, s: State, h: nat, p: nat): State
    requires Wf(c, s) && CanHomeFault(c, s, h, p)
  {
    s.(written := s.written[p := true])
  }

  function DoHomeWrite(c: Config, s: State, h: nat, p: nat, u: nat, v: Word): State
    requires Wf(c, s) && CanHomeWrite(c, s, h, p, u)
  {
    s.(mem := s.mem[p := s.mem[p][u := v]], last := s.last[Site(h, p, u) := v],
       latest := Noted(s.latest, s.hosts[h], p, u, v))
  }

  function DoServeGetp(c: Config, s: State, h: nat): State
    requires Wf(c, s) && CanServeGetp(c, s, h)
  {
    var x := s.hosts[h];
    var p := x.getp.value;
    Put(s, h, x.(getp := None, pageGrant := Some((p, s.mem[p])))).(rdnt := s.rdnt[p := true])
  }

  /** getpgrantserver, and the rest of the fault handler. */
  function DoTakePage(c: Config, s: State, h: nat): State
    requires Wf(c, s) && CanTakePage(c, s, h)
  {
    var x := s.hosts[h];
    var (p, d) := x.pageGrant.value;
    Put(s, h, x.(lines := x.lines[p := Line(if x.phase.write then RW else RO, d, d)],
                 stack := if x.phase.write then Dirtied(x.stack, p) else x.stack,
                 phase := Running, pageGrant := None))
  }

  function DoBeginSync(c: Config, s: State, h: nat, op: SyncOp): State
    requires Wf(c, s) && CanBeginSync(c, s, h, op)
  {
    Put(s, h, s.hosts[h].(phase := Ending(op, Below(c.pages))))
  }

  function DoTakeDiffGrant(c: Config, s: State, h: nat): State
    requires Wf(c, s) && CanTakeDiffGrant(c, s, h)
  {
    var x := s.hosts[h];
    Put(s, h, x.(diffGrants := x.diffGrants - 1, diffwait := x.diffwait - 1))
  }

  function DoSendAcq(c: Config, s: State, h: nat): State
    requires Wf(c, s) && CanSendAcq(c, s, h)
  {
    var x := s.hosts[h];
    var l := x.phase.op.lock;
    Put(s, h, x.(chan := x.chan[l := x.chan[l] + [AcqMsg(x.myscope[l])]], phase := Waiting(Acq(l))))
  }

  /** sendwtnts(BARR), freewtntspace. */
  function DoSendBarr(c: Config, s: State, h: nat): State
    requires Wf(c, s) && CanSendBarr(c, s, h)
  {
    var x := s.hosts[h];
    Put(s, h, x.(barr := Some(Top(x).pages), barriers := x.barriers + 1,
                 stack := x.stack[|x.stack| - 1 := Top(x).(pages := {}, dirtied := {})],
                 phase := Waiting(Barr)))
  }

  function Apply(c: Config, s: State, step: Step): State
    requires Wf(c, s) && Enabled(c, s, step)
  {
    match step
    case Evict(h, p) => DoEvict(c, s, h, p)
    case Fault(h, p, write) => DoFault(c, s, h, p, write)
    case Upgrade(h, p) => DoUpgrade(c, s, h, p)
    case Write(h, p, u, v) => DoWrite(c, s, h, p, u, v)
    case HomeFault(h, p) => DoHomeFault(c, s, h, p)
    case HomeWrite(h, p, u, v) => DoHomeWrite(c, s, h, p, u, v)
    case ServeGetp(h) => DoServeGetp(c, s, h)
    case TakePage(h) => DoTakePage(c, s, h)
    case BeginSync(h, op) => DoBeginSync(c, s, h, op)
    case EndPage(h, p) => DoEndPage(c, s, h, p)
    case ServeDiff(h, p) => DoServeDiff(c, s, h, p)
    case TakeDiffGrant(h) => DoTakeDiffGrant(c, s, h)
    case SendAcq(h) => DoSendAcq(c, s, h)
    case SendRel(h, parts) => DoSendRel(c, s, h, parts)
    case SendBarr(h) => DoSendBarr(c, s, h)
    case ServeAcq(h, l) => DoServeAcq(c, s, h, l)
    case ServeWtnt(h, l) => DoServeWtnt(c, s, h, l)
    case ServeRel(h, l) => DoServeRel(c, s, h, l)
    case TakeLockGrant(h) => DoTakeLockGrant(c, s, h)
    case ServeBarr(h) => DoServeBarr(c, s, h)
    case TakeBarrGrant(h) => DoTakeBarrGrant(c, s, h)
    case Resume(h) => DoResume(c, s, h)
  }

  // ---------------------------------------------------------------- migration

  /** What only the caches decide when pages change their homes: the pages that find no slot at their
      old home, and the invalid copies, by host and page, whose slots are taken. */
  datatype Slots = Slots(dropped: set<nat>, taken: set<(nat, nat)>)

  /** Every host has been sent the grant of the barrier, and none has handled it.  A barrier that
      moves no page is handled host by host, by TakeBarrGrant; at one that moves pages all hosts
      handle the grant before any of them goes on. */
  predicate CanMigrate(c: Config, s: State)
    requires Wf(c, s)
  {
    forall h :: 0 <= h < c.hosts ==> s.hosts[h].phase == Waiting(Barr) && s.hosts[h].barrGrant.Some?
  }

  function Granted(c: Config, s: State): Notices
    requires Wf(c, s) && CanMigrate(c, s)
  {
    s.hosts[0].barrGrant.value
  }

  /** The page leaves its home: one other host wrote it, and tagged its notice because it holds a copy. */
  predicate Moves(c: Config, s: State, p: nat)
    requires Wf(c, s) && CanMigrate(c, s) && p < c.pages
  {
    var n := Granted(c, s);
    p in n && n[p].from < c.hosts && Remote(c, n[p].from, p) && s.hosts[n[p].from].lines[p].Valid()
  }

  function NewHome(c: Config, s: State, p: nat): (h: nat)
    requires Wf(c, s) && CanMigrate(c, s) && p < c.pages
    ensures h < c.hosts
  {
    if Moves(c, s, p) then Granted(c, s)[p].from else c.homeOf[p]
  }

  /** Page p at host h: invalidated if another host wrote it, given up by the cache of its new home,
      and kept in the cache of its old home if there is a slot. */
  function MigratedLine(c: Config, s: State, k: Slots, h: nat, p: nat): Line
    requires Wf(c, s) && CanMigrate(c, s) && h < c.hosts && p < c.pages
  {
    var x := InvalidateLine(c, h, p, s.hosts[h].lines[p], s.hosts[h].barrGrant.value);
    if Moves(c, s, p) && h == NewHome(c, s, p) then x.(state := UNMAP)
    else if Moves(c, s, p) && !Remote(c, h, p) then
      if p in k.dropped then x.(state := UNMAP) else Line(RO, s.mem[p], s.mem[p])
    else if x.state == INV && (h, p) in k.taken then x.(state := UNMAP)
    else x
  }

  function MigratedHost(c: Config, s: State, k: Slots, h: nat): (y: HostState)
    requires Wf(c, s) && CanMigrate(c, s) && h < c.hosts
    ensures |y.lines| == c.pages && forall p :: 0 <= p < c.pages ==> y.lines[p] == MigratedLine(c, s, k, h, p)
    ensures y == s.hosts[h].(lines := y.lines, epoch := s.hosts[h].epoch + 1, noclear := false,
                             barrGrant := None, phase := Resuming(Barr))
  {
    s.hosts[h].(lines := seq(c.pages, p requires 0 <= p < c.pages => MigratedLine(c, s, k, h, p)),
                epoch := s.hosts[h].epoch + 1, noclear := false, barrGrant := None, phase := Resuming(Barr))
  }

  function MigratedHosts(c: Config, s: State, k: Slots): (r: seq<HostState>)
    requires Wf(c, s) && CanMigrate(c, s)
    ensures |r| == c.hosts && forall h :: 0 <= h < c.hosts ==> r[h] == MigratedHost(c, s, k, h)
  {
    seq(c.hosts, h requires 0 <= h < c.hosts => MigratedHost(c, s, k, h))
  }

  /** clearlocks at the manager x, for one lock. */
  function KeptOrCleared(x: HostState, k: LockState): LockState {
    if x.noclear then k else Cleared(k, x.epoch)
  }

  function MigratedLocks(c: Config, s: State): (r: seq<LockState>)
    requires Wf(c, s)
    ensures |r| == c.locks
    ensures forall l :: 0 <= l < c.locks ==> r[l] == KeptOrCleared(s.hosts[Manager(c, l)], s.locks[l])
  {
    seq(c.locks, l requires 0 <= l < c.locks => KeptOrCleared(s.hosts[Manager(c, l)], s.locks[l]))
  }

  /** A page at its home afterwards: its new home's copy is now the home copy. */
  function MigratedMem(c: Config, s: State): (r: seq<PageData>)
    requires Wf(c, s) && CanMigrate(c, s)
    ensures |r| == c.pages
    ensures forall p :: 0 <= p < c.pages ==>
      r[p] == if Moves(c, s, p) then s.hosts[NewHome(c, s, p)].lines[p].data else s.mem[p]
  {
    seq(c.pages, p requires 0 <= p < c.pages =>
      if Moves(c, s, p) then s.hosts[NewHome(c, s, p)].lines[p].data else s.mem[p])
  }

  function MigratedWritten(c: Config, s: State): (r: seq<bool>)
    requires Wf(c, s) && CanMigrate(c, s)
    ensures |r| == c.pages
    ensures forall p :: 0 <= p < c.pages ==>
      r[p] == if Moves(c, s, p) then s.hosts[NewHome(c, s, p)].lines[p].state == RW else s.written[p]
  {
    seq(c.pages, p requires 0 <= p < c.pages =>
      if Moves(c, s, p) then s.hosts[NewHome(c, s, p)].lines[p].state == RW else s.written[p])
  }

  function MigratedHomes(c: Config, s: State): (r: seq<nat>)
    requires Wf(c, s) && CanMigrate(c, s)
    ensures |r| == c.pages && forall p :: 0 <= p < c.pages ==> r[p] == NewHome(c, s, p)
  {
    seq(c.pages, p requires 0 <= p < c.pages => NewHome(c, s, p))
  }

  /** All hosts have handled the grant with migration on. */
  function Migrated(c: Config, s: State, k: Slots): World
    requires Wf(c, s) && CanMigrate(c, s)
  {
    World(c.(homeOf := MigratedHomes(c, s)),
          s.(hosts := MigratedHosts(c, s, k), locks := MigratedLocks(c, s), mem := MigratedMem(c, s),
             written := MigratedWritten(c, s),
             rdnt := seq(c.pages, p requires 0 <= p < c.pages => Moves(c, s, p) || s.rdnt[p])))
  }

  // ---------------------------------------------------------------- runs

  ghost predicate InitHost(c: Config, x: HostState) {
    && WfHost(c, x)
    && (forall p :: 0 <= p < c.pages ==> x.lines[p].state == UNMAP)
    && x.stack == [Frame(c.locks, {}, {})]
    && x.phase == Running && x.diffwait == 0 && !x.noclear && x.epoch == 0 && x.itv == 0 && x.barriers == 0
    && (forall l :: 0 <= l < c.locks ==> x.myscope[l] == -1 && x.chan[l] == [])
    && x.getp == None && x.pageGrant == None && x.diffs == map[] && x.diffGrants == 0
    && x.lockGrant == None && x.barr == None && x.barrGrant == None
  }

  ghost predicate Init(c: Config, s: State) {
    && Wf(c, s)
    && (forall h :: 0 <= h < c.hosts ==> InitHost(c, s.hosts[h]))
    && (forall p :: 0 <= p < c.pages ==> !s.written[p] && !s.rdnt[p])
    && (forall l :: 0 <= l < c.locks ==> s.locks[l] == LockState([], 0, map[], [], [], {}, [], []))
    && s.acqc == 0 && s.arrived == {} && s.barrNotices == map[] && s.barrScope == 0 && s.reported == map[]
    && s.snapshot == s.mem && s.last == map[] && s.latest == map[]
  }

  /** The hosts, and the home map they all work with. */
  datatype World = World(config: Config, state: State)

  ghost predicate Next(v: World, w: World) {
    && Wf(v.config, v.state)
    && ((exists step :: Enabled(v.config, v.state, step) && w == World(v.config, Apply(v.config, v.state, step)))
        || (CanMigrate(v.config, v.state) && exists k :: w == Migrated(v.config, v.state, k)))
  }

  /** A run: a start state and any finite sequence of steps and migrations. */
  ghost predicate IsRun(run: seq<World>) {
    |run| > 0 && Init(run[0].config, run[0].state) && forall i :: 0 <= i < |run| - 1 ==> Next(run[i], run[i + 1])
  }

  ghost predicate Reachable(c: Config, s: State) {
    exists run :: IsRun(run) && run[|run| - 1] == World(c, s)
  }
}
