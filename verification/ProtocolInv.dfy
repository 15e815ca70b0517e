/** What every reachable state of the protocol satisfies. */
module ProtocolInv {
  import opened Pages
  import opened Protocol

  // ---------------------------------------------------------------- one host

  /** The page may hold local writes that no notice tells of yet. */
  predicate Unflushed(x: HostState, p: nat) {
    x.phase.Running? || x.phase.Fetching? || (x.phase.Ending? && p in x.phase.todo)
  }

  predicate NoFetch(x: HostState) { x.getp.None? && x.pageGrant.None? }
  predicate NoDiffs(x: HostState) { x.diffs == map[] && x.diffGrants == 0 && x.diffwait == 0 }
  predicate NoBarr(x: HostState) { x.barr.None? && x.barrGrant.None? }

  /** A diff in flight is of the interval under way, for a page that will be reported. */
  predicate DiffOk(c: Config, h: nat, x: HostState, p: nat)
    requires ValidConfig(c) && WfHost(c, x) && p in x.diffs
  {
    p < c.pages && Remote(c, h, p) && x.diffs[p].itv == x.itv && p in x.stack[0].dirtied
  }

  /** The messages in flight from and to host h, by where its application thread is.
      arrived: the barrier manager has counted h in the barrier under way. */
  ghost predicate NetOk(c: Config, h: nat, x: HostState, arrived: bool)
    requires ValidConfig(c) && WfHost(c, x)
  {
    match x.phase
    case Running => NoFetch(x) && NoDiffs(x) && x.lockGrant.None? && NoBarr(x) && !arrived
    case Fetching(p, _) =>
      && NoDiffs(x) && x.lockGrant.None? && NoBarr(x) && !arrived
      && p < c.pages && Remote(c, h, p) && !x.lines[p].Valid()
      && (x.getp.Some? ==> x.getp.value == p && x.pageGrant.None?)
      && (x.getp.None? ==> x.pageGrant.Some? && x.pageGrant.value.0 == p)
    case Ending(op, todo) =>
      && NoFetch(x) && x.lockGrant.None? && NoBarr(x) && !arrived
      && x.diffwait == |x.diffs| + x.diffGrants
      && (forall p :: p in x.diffs ==> DiffOk(c, h, x, p) && p !in todo)
      && MayBegin(c, x, op)
    case Waiting(op) =>
      && NoFetch(x) && NoDiffs(x) && op != Rel && MayBegin(c, x, op)
      && (op.Acq? ==> NoBarr(x) && !arrived && (x.lockGrant.Some? ==> x.lockGrant.value.lock == op.lock))
      && (op == Barr ==>
           && x.lockGrant.None?
           && (x.barr.Some? ==> !arrived && x.barrGrant.None?)
           && (x.barrGrant.Some? ==> !arrived)
           && (x.barr.Some? || x.barrGrant.Some? || arrived))
    case Resuming(op) =>
      && NoFetch(x) && NoDiffs(x) && x.lockGrant.None? && NoBarr(x) && !arrived
      && op != Rel && MayBegin(c, x, op)
  }

  /** Pages homed here are never cached here. */
  predicate LinesOk(c: Config, h: nat, x: HostState)
    requires ValidConfig(c) && WfHost(c, x)
  {
    forall p :: 0 <= p < c.pages && !Remote(c, h, p) ==> x.lines[p].state == UNMAP
  }

  /** Page p is listed at level i of the lock stack or above. */
  ghost predicate Listed(stack: seq<Frame>, i: nat, p: nat) {
    exists j :: i <= j < |stack| && p in stack[j].pages
  }

  /** Page p was dirtied and no list names it yet. */
  predicate Unlisted(c: Config, x: HostState, p: nat)
    requires WfHost(c, x)
  {
    p < c.pages && x.lines[p].state == RW && Unflushed(x, p)
  }

  /** Nested scopes lose nothing: the pages dirtied since a level was opened are those listed at
      that level or above it, and the dirty copies of the interval under way. */
  ghost predicate ScopesOk(c: Config, x: HostState)
    requires WfHost(c, x)
  {
    forall i, p: nat :: 0 <= i < |x.stack| ==>
      (p in x.stack[i].dirtied <==> Listed(x.stack, i, p) || Unlisted(c, x, p))
  }

  predicate StackOk(c: Config, x: HostState)
    requires WfHost(c, x)
  {
    && |x.stack| <= MAXSTACK
    && x.stack[0].lock == c.locks
    && (forall i :: 1 <= i < |x.stack| ==> x.stack[i].lock < c.locks)
    && (forall i, j :: 0 <= i < j < |x.stack| ==> x.stack[i].lock != x.stack[j].lock)
  }

  /** A host between its BARR and the end of the barrier has nothing dirty. */
  predicate BarrierClean(x: HostState)
    requires |x.stack| >= 1
  {
    (x.phase == Waiting(Barr) || x.phase == Resuming(Barr)) ==>
      |x.stack| == 1 && x.stack[0].pages == {} && x.stack[0].dirtied == {}
  }

  ghost predicate HostOk(c: Config, h: nat, x: HostState, arrived: bool)
    requires ValidConfig(c) && WfHost(c, x)
  {
    NetOk(c, h, x, arrived) && LinesOk(c, h, x) && StackOk(c, x) && BarrierClean(x)
  }

  ghost predicate Good(c: Config, h: nat, x: HostState, arrived: bool)
    requires ValidConfig(c) && WfHost(c, x)
  {
    HostOk(c, h, x, arrived) && ScopesOk(c, x)
  }

  ghost predicate GoodAt(c: Config, s: State, h: nat)
    requires Wf(c, s) && h < c.hosts
  {
    Good(c, h, s.hosts[h], h in s.arrived)
  }

  ghost predicate HostsOk(c: Config, s: State)
    requires Wf(c, s)
  {
    forall h :: 0 <= h < c.hosts ==> GoodAt(c, s, h)
  }

  // ---------------------------------------------------------------- the barrier

  /** A notice names the only arrived host that reported the page, or MAXHOSTS if two did. */
  ghost predicate Classified(reported: map<nat, set<nat>>, n: Notices, p: nat) {
    && (p in n <==> exists h :: h in reported && p in reported[h])
    && (p in n ==>
         if n[p].from < MAXHOSTS
         then n[p].from in reported && p in reported[n[p].from]
              && forall h :: h in reported && p in reported[h] ==> h == n[p].from
         else n[p].from == MAXHOSTS
              && exists h, i :: h in reported && i in reported && h != i && p in reported[h] && p in reported[i])
  }

  ghost predicate AllClassified(reported: map<nat, set<nat>>, n: Notices) {
    forall p :: Classified(reported, n, p)
  }

  /** The barrier manager's counter, the hosts it stands for, and its notices. */
  ghost predicate ManagerOk(c: Config, acqc: nat, arrived: set<nat>, reported: map<nat, set<nat>>, n: Notices) {
    && acqc == |arrived| < c.hosts
    && (forall h :: h in arrived ==> h < c.hosts)
    && reported.Keys == arrived
    && AllClassified(reported, n)
  }

  ghost predicate BarrierOk(c: Config, s: State)
    requires Wf(c, s)
  {
    && ManagerOk(c, s.acqc, s.arrived, s.reported, s.barrNotices)
    && (forall h :: 0 <= h < c.hosts ==> CountsOk(s, h))
  }

  /** Barriers completed, granted to h, and arrived at by h. */
  predicate CountsOk(s: State, h: nat)
    requires h < |s.hosts|
  {
    var x := s.hosts[h];
    && x.epoch + (if x.barrGrant.Some? then 1 else 0) == s.barrScope
    && x.barriers == s.barrScope + (if x.phase == Waiting(Barr) && x.barrGrant.None? then 1 else 0)
  }

  // ---------------------------------------------------------------- the locks

  predicate OnStack(x: HostState, l: nat) {
    exists i :: 1 <= i < |x.stack| && x.stack[i].lock == l
  }

  /** Host x holds lock l, or its grant is on the way. */
  predicate Owns(x: HostState, l: nat) {
    || (x.lockGrant.Some? && x.lockGrant.value.lock == l)
    || x.phase == Resuming(Acq(l))
    || OnStack(x, l)
  }

  predicate Releasing(x: HostState, l: nat)
    requires l < |x.chan|
  {
    |x.chan[l]| > 0 && x.chan[l][0].RelMsg?
  }

  /** Host x waits for lock l and has not been sent it. */
  predicate Wants(x: HostState, l: nat) {
    x.phase == Waiting(Acq(l)) && x.lockGrant.None?
  }

  predicate Queued(acqs: seq<Acquirer>, h: nat) {
    exists i :: 0 <= i < |acqs| && acqs[i].host == h
  }

  predicate Heads(acqs: seq<Acquirer>, h: nat) {
    |acqs| > 0 && acqs[0].host == h
  }

  predicate QueueOk(c: Config, k: LockState) {
    && (forall i :: 0 <= i < |k.acqs| ==> k.acqs[i].host < c.hosts)
    && (forall i, j :: 0 <= i < j < |k.acqs| ==> k.acqs[i].host != k.acqs[j].host)
  }

  function HostsIn(acqs: seq<Acquirer>): (r: seq<nat>)
    ensures |r| == |acqs| && forall i :: 0 <= i < |r| ==> r[i] == acqs[i].host
  {
    seq(|acqs|, i requires 0 <= i < |acqs| => acqs[i].host)
  }

  /** Locks are granted in the order in which the requests arrived. */
  predicate FifoOk(k: LockState) {
    k.arrivals == k.grants + (if k.acqs == [] then [] else HostsIn(k.acqs[1..]))
  }

  /** What the channel of host h and the queue of the manager hold for lock l. */
  predicate StatusOk(x: HostState, k: LockState, h: nat, l: nat)
    requires l < |x.chan| == |x.myscope|
  {
    var ch, a := x.chan[l], AcqMsg(x.myscope[l]);
    if Owns(x, l) then ch == [] && Heads(k.acqs, h)
    else if Wants(x, l) then
      || (ch == [a] && !Queued(k.acqs, h))
      || (ch == [] && exists i :: 1 <= i < |k.acqs| && k.acqs[i] == Acquirer(h, x.myscope[l]))
      || (|ch| == 2 && ch[0].RelMsg? && ch[1] == a && Heads(k.acqs, h))
    else
      || (ch == [] && !Queued(k.acqs, h))
      || (|ch| == 1 && ch[0].RelMsg? && Heads(k.acqs, h))
  }

  ghost predicate LocksOk(c: Config, s: State)
    requires Wf(c, s)
  {
    && (forall l :: 0 <= l < c.locks ==> QueueOk(c, s.locks[l]) && FifoOk(s.locks[l]))
    && (forall h, l :: 0 <= h < c.hosts && 0 <= l < c.locks ==> StatusOk(s.hosts[h], s.locks[l], h, l))
  }

  // ---------------------------------------------------------------- copies

  /** Host h told, or will tell, the barrier manager that page p changed. */
  predicate Reports(s: State, h: nat, p: nat)
    requires h < |s.hosts| && |s.hosts[h].stack| >= 1
  {
    p in s.hosts[h].stack[0].dirtied || (s.hosts[h].barr.Some? && p in s.hosts[h].barr.value)
  }

  /** A notice about page p from another host will reach host h at a barrier grant. */
  ghost predicate Stale(c: Config, s: State, h: nat, p: nat)
    requires Wf(c, s) && h < c.hosts
  {
    || (exists i :: 0 <= i < c.hosts && i != h && Reports(s, i, p))
    || (p in s.barrNotices && s.barrNotices[p].from != h)
    || (s.hosts[h].barrGrant.Some? && p in s.hosts[h].barrGrant.value && s.hosts[h].barrGrant.value[p].from != h)
  }

  /** The home of page p may have written it since it last scanned its pages. */
  predicate HomeDirty(c: Config, s: State, p: nat)
    requires Wf(c, s) && p < c.pages
  {
    s.written[p] && Unflushed(s.hosts[c.homeOf[p]], p)
  }

  /** The copy without the local writes that are still to be sent. */
  function Base(x: HostState, p: nat): PageData
    requires p < |x.lines|
  {
    if x.lines[p].state == RW && Unflushed(x, p) then x.lines[p].twin else x.lines[p].data
  }

  /** The home copy once the diff that host h has in flight is applied. */
  function HomePlus(s: State, h: nat, p: nat): PageData
    requires h < |s.hosts| && p < |s.mem|
  {
    var d := s.hosts[h].diffs;
    if p in d then Merge(s.mem[p], d[p].page, d[p].twin) else s.mem[p]
  }

  /** A valid copy agrees with the home, or a notice is on its way, or the home knows that the page
      is shared and has still to look at it. */
  ghost predicate CopyOk(c: Config, s: State, h: nat, p: nat)
    requires Wf(c, s) && h < c.hosts && p < c.pages
  {
    Remote(c, h, p) && s.hosts[h].lines[p].Valid() ==>
      || Stale(c, s, h, p)
      || (s.rdnt[p] && (HomeDirty(c, s, p) || Base(s.hosts[h], p) == HomePlus(s, h, p)))
  }

  /** The same for a copy that a GETPGRANT carries. */
  ghost predicate GrantOk(c: Config, s: State, h: nat)
    requires Wf(c, s) && h < c.hosts
  {
    var g := s.hosts[h].pageGrant;
    g.Some? && g.value.0 < c.pages ==>
      || Stale(c, s, h, g.value.0)
      || (s.rdnt[g.value.0] && (HomeDirty(c, s, g.value.0) || g.value.1 == s.mem[g.value.0]))
  }

  /** Until host h handles its grant, each copy it holds is the home copy as it stood when the
      barrier completed, or is named in the grant. */
  ghost predicate SnapOk(c: Config, s: State, h: nat, p: nat)
    requires Wf(c, s) && h < c.hosts && p < c.pages
  {
    var x := s.hosts[h];
    x.barrGrant.Some? && Remote(c, h, p) && x.lines[p].Valid() ==>
      || (p in x.barrGrant.value && x.barrGrant.value[p].from != h)
      || x.lines[p].data == s.snapshot[p]
  }

  ghost predicate CopiesOk(c: Config, s: State)
    requires Wf(c, s)
  {
    && (forall h, p :: 0 <= h < c.hosts && 0 <= p < c.pages ==> CopyOk(c, s, h, p) && SnapOk(c, s, h, p))
    && (forall h :: 0 <= h < c.hosts ==> GrantOk(c, s, h))
  }

  // ---------------------------------------------------------------- units

  predicate Wrote(s: State, h: nat, p: nat, u: nat) { Site(h, p, u) in s.last }

  /** No host but h has written unit u of page p since the last barrier completed. */
  ghost predicate OnlyBy(c: Config, s: State, h: nat, p: nat, u: nat) {
    forall i :: 0 <= i < c.hosts && Wrote(s, i, p, u) ==> i == h
  }

  /** Where the copy that host h works on is to be compared with the home unit by unit. */
  ghost predicate UnitAgrees(c: Config, s: State, h: nat, p: nat, u: nat)
    requires Wf(c, s) && h < c.hosts && p < c.pages && u < UNITS
  {
    var x := s.hosts[h];
    && (x.lines[p].Valid() && x.barrGrant.None? && OnlyBy(c, s, h, p, u) ==> Base(x, p)[u] == HomePlus(s, h, p)[u])
    && (x.pageGrant.Some? && x.pageGrant.value.0 == p && OnlyBy(c, s, h, p, u) ==>
          x.pageGrant.value.1[u] == s.mem[p][u])
  }

  /** A unit that differs from the twin was written since the last barrier. */
  predicate UnitTraced(c: Config, s: State, h: nat, p: nat, u: nat)
    requires Wf(c, s) && h < c.hosts && p < c.pages && u < UNITS
  {
    var x := s.hosts[h];
    && (Unlisted(c, x, p) && x.lines[p].data[u] != x.lines[p].twin[u] ==> Wrote(s, h, p, u))
    && (p in x.diffs && x.diffs[p].page[u] != x.diffs[p].twin[u] ==> Wrote(s, h, p, u))
    && (x.barrGrant.Some? ==> !Wrote(s, h, p, u))
  }

  /** The last value written by the only writer is in its copy, or at the home, or on its way. */
  ghost predicate UnitLast(c: Config, s: State, h: nat, p: nat, u: nat)
    requires Wf(c, s) && h < c.hosts && p < c.pages && u < UNITS
  {
    var x := s.hosts[h];
    Wrote(s, h, p, u) && OnlyBy(c, s, h, p, u) ==>
      (if x.lines[p].Valid() then x.lines[p].data[u] else HomePlus(s, h, p)[u]) == s.last[Site(h, p, u)]
  }

  ghost predicate UnitOk(c: Config, s: State, h: nat, p: nat, u: nat)
    requires Wf(c, s) && h < c.hosts && p < c.pages && u < UNITS
  {
    UnitAgrees(c, s, h, p, u) && UnitTraced(c, s, h, p, u) && UnitLast(c, s, h, p, u)
  }

  ghost predicate NobodyWrote(c: Config, s: State, p: nat, u: nat) {
    forall i :: 0 <= i < c.hosts ==> !Wrote(s, i, p, u)
  }

  /** A unit nobody has written since the last barrier is as it was then. */
  ghost predicate HomeUnitOk(c: Config, s: State, p: nat, u: nat)
    requires Wf(c, s) && p < c.pages && u < UNITS
  {
    NobodyWrote(c, s, p, u) ==> s.mem[p][u] == s.snapshot[p][u]
  }

  /** The unit u of page p as host h sees it. */
  ghost predicate UnitAt(c: Config, s: State, h: nat, p: nat, u: nat)
    requires Wf(c, s) && h < c.hosts && p < c.pages && u < UNITS
  {
    if Remote(c, h, p) then UnitOk(c, s, h, p, u)
    else UnitLast(c, s, h, p, u) && (s.hosts[h].barrGrant.Some? ==> !Wrote(s, h, p, u))
  }

  ghost predicate UnitsOk(c: Config, s: State)
    requires Wf(c, s)
  {
    && (forall h, p, u :: 0 <= h < c.hosts && 0 <= p < c.pages && 0 <= u < UNITS ==> UnitAt(c, s, h, p, u))
    && (forall p, u :: 0 <= p < c.pages && 0 <= u < UNITS ==> HomeUnitOk(c, s, p, u))
  }

  // ---------------------------------------------------------------- releases

  /** One notice per page stands for all the releases that reported it. */
  ghost predicate Compacted(log: seq<Release>, n: Notices, p: nat) {
    && (p in n <==> exists r :: r in log && p in r.pages)
    && (p in n ==>
         && (exists r :: r in log && p in r.pages && r.scope == n[p].scope)
         && (forall r :: r in log && p in r.pages ==> r.scope <= n[p].scope)
         && (n[p].from < MAXHOSTS ==>
              forall r :: r in log && p in r.pages ==> r.from == n[p].from && r.scope == n[p].scope))
  }

  ghost predicate AllCompacted(log: seq<Release>, n: Notices) {
    forall p :: Compacted(log, n, p)
  }

  /** The messages of a release name no page twice, and only the last may name none. */
  predicate PartsOk(parts: seq<set<nat>>) {
    && |parts| > 0 && Apart(parts)
    && (forall i :: 0 <= i < |parts| - 1 ==> parts[i] != {})
  }

  /** The release r is part of one whose other messages, the REL among them, are still to be handled. */
  predicate UnderWay(x: HostState, l: nat, r: Release)
    requires l < |x.chan|
  {
    && Releasing(x, l)
    && x.chan[l][0].epoch == r.epoch && x.chan[l][0].itv == r.itv
    && r.pages != {} && forall i :: 0 <= i < |x.chan[l][0].parts| ==> r.pages !! x.chan[l][0].parts[i]
  }

  /** A release recorded for lock l, against the present state of its sender. */
  predicate ReleaseOk(c: Config, s: State, l: nat, r: Release)
    requires Wf(c, s) && l < c.locks
  {
    && r.from < c.hosts && r.scope <= s.locks[l].scope
    && r.scope <= s.hosts[r.from].myscope[l]
    && r.itv < s.hosts[r.from].itv && r.epoch <= s.hosts[r.from].epoch
    && (r.scope == s.locks[l].scope ==> UnderWay(s.hosts[r.from], l, r))
  }

  /** What the manager still knows of the releases.  Until the REL of a release that is ahead of it has
      made it keep its notices, only parts of that release may be of an epoch it has not reached. */
  predicate LogShape(k: LockState, epoch: nat, noclear: bool) {
    && (forall r :: r in k.log ==> r in k.hist && r !in k.lost)
    && (forall r :: r in k.lost ==> r in k.hist)
    && (forall r :: r in k.hist && r.epoch >= epoch ==> r in k.log || r in k.lost)
    && (!noclear ==> forall r :: r in k.log ==> r.epoch <= epoch || r.scope == k.scope)
  }

  ghost predicate LogOk(c: Config, s: State, l: nat)
    requires Wf(c, s) && l < c.locks
  {
    var k, m := s.locks[l], s.hosts[Manager(c, l)];
    && AllCompacted(k.log, k.notices)
    && LogShape(k, m.epoch, m.noclear)
    && (forall r :: r in k.hist ==> ReleaseOk(c, s, l, r))
  }

  predicate ScopeOk(c: Config, s: State, h: nat, l: nat)
    requires Wf(c, s) && h < c.hosts && l < c.locks
  {
    var x, k := s.hosts[h], s.locks[l];
    && x.myscope[l] <= k.scope
    && (x.lockGrant.Some? && x.lockGrant.value.lock == l ==> x.lockGrant.value.scope == k.scope)
    && (x.phase == Resuming(Acq(l)) || OnStack(x, l) || Releasing(x, l) ==> x.myscope[l] == k.scope)
    && (forall i :: 0 <= i < |x.chan[l]| && x.chan[l][i].RelMsg? ==>
          x.chan[l][i].itv < x.itv && x.chan[l][i].epoch <= x.epoch && PartsOk(x.chan[l][i].parts))
  }

  /** What a grant in flight to host h tells it: of every release of its own epoch that it has not
      seen and that was not lost, each page that is not homed at h and the fact that another host wrote
      it; and it names no page without such a release. */
  ghost predicate LockGrantOk(c: Config, s: State, h: nat, l: nat)
    requires Wf(c, s) && h < c.hosts && l < c.locks
  {
    var x, k := s.hosts[h], s.locks[l];
    x.lockGrant.Some? && x.lockGrant.value.lock == l ==>
      var g := x.lockGrant.value;
      && (forall r :: r in g.log ==> r in k.hist)
      && (forall r :: r in k.hist && r.epoch >= x.epoch ==> (r in g.log <==> r !in k.lost))
      && (forall r :: r in g.log && r.scope > x.myscope[l] ==> Told(c, h, g.notices, r))
      && (forall p :: p in g.notices ==> Founded(g.log, x.myscope[l], p))
  }

  ghost predicate Founded(log: seq<Release>, seen: int, p: nat) {
    exists r :: r in log && r.scope > seen && p in r.pages
  }

  ghost predicate Told(c: Config, h: nat, n: Notices, r: Release)
    requires ValidConfig(c)
  {
    r.from != h && forall p :: p in r.pages && p < c.pages && Remote(c, h, p) ==> p in n && n[p].from != h
  }

  ghost predicate ReleasesOk(c: Config, s: State)
    requires Wf(c, s)
  {
    && (forall l :: 0 <= l < c.locks ==> LogOk(c, s, l))
    && (forall h, l :: 0 <= h < c.hosts && 0 <= l < c.locks ==> ScopeOk(c, s, h, l) && LockGrantOk(c, s, h, l))
  }
}
