/** Scope consistency.  Take a unit that, since the last barrier completed, has been written only inside
    sections of one lock.  The host in such a section sees the last value written; the home has it when
    nobody is; and a copy elsewhere that does not have it is one that the next grant of the lock, or the
    barrier, will invalidate. */
module ProtocolScope {
  import opened Pages
  import opened Protocol
  import opened ProtocolInv
  import opened ProtocolLocks
  import opened ProtocolBarrier
  import opened ProtocolReleases

  /** A unit of a page, and the lock that guards it. */
  datatype Guard = Guard(page: nat, unit: nat, lock: nat)

  predicate Exists(c: Config, g: Guard) { g.page < c.pages && g.unit < UNITS && g.lock < c.locks }

  /** The last value written to the unit, or what it was when the last barrier completed. */
  function Value(s: State, g: Guard): Word
    requires g.page < |s.snapshot| && g.unit < UNITS
  {
    if (g.page, g.unit) in s.latest then s.latest[(g.page, g.unit)].value else s.snapshot[g.page][g.unit]
  }

  /** Every write since then was made inside a section of the lock. */
  predicate Guarded(s: State, g: Guard) {
    (g.page, g.unit) in s.latest ==> g.lock in s.latest[(g.page, g.unit)].locks
  }

  /** No release of the lock that named the page in this epoch was lost. */
  predicate Kept(s: State, g: Guard)
    requires g.lock < |s.locks|
  {
    forall r :: r in s.locks[g.lock].lost && r.epoch == s.barrScope ==> g.page !in r.pages
  }

  // ---------------------------------------------------------------- who still has to be told

  /** The host dirtied the page inside its section of the lock. */
  predicate InSection(x: HostState, g: Guard) {
    exists k :: 1 <= k < |x.stack| && x.stack[k].lock == g.lock && g.page in x.stack[k].dirtied
  }

  predicate Named(parts: seq<set<nat>>, p: nat) { exists k :: 0 <= k < |parts| && p in parts[k] }

  /** The host's release of the lock, still on its way, names the page. */
  predicate Leaving(x: HostState, g: Guard, epoch: nat)
    requires g.lock < |x.chan|
  {
    Releasing(x, g.lock) && x.chan[g.lock][0].epoch == epoch && Named(x.chan[g.lock][0].parts, g.page)
  }

  /** Host j will name the page when it leaves its section, or is doing so. */
  predicate Owes(c: Config, s: State, g: Guard, j: nat)
    requires Wf(c, s) && Exists(c, g) && j < c.hosts
  {
    || InSection(s.hosts[j], g)
    || (OnStack(s.hosts[j], g.lock) && c.homeOf[g.page] == j && HomeDirty(c, s, g.page) && s.rdnt[g.page])
    || Leaving(s.hosts[j], g, s.barrScope)
  }

  /** A release of this epoch that the host has not seen names the page. */
  predicate Unseen(hist: seq<Release>, epoch: nat, seen: int, p: nat) {
    exists r :: r in hist && r.epoch == epoch && r.scope > seen && p in r.pages
  }

  /** The next grant of the lock to host i will tell it that the page has changed. */
  ghost predicate Owed(c: Config, s: State, g: Guard, i: nat)
    requires Wf(c, s) && Exists(c, g) && i < c.hosts
  {
    || (exists j :: 0 <= j < c.hosts && j != i && Owes(c, s, g, j))
    || Unseen(s.locks[g.lock].hist, s.barrScope, s.hosts[i].myscope[g.lock], g.page)
  }

  // ---------------------------------------------------------------- where the value is

  /** The host will invalidate its copy when it handles the barrier grant it has been sent. */
  predicate BarrStale(x: HostState, i: nat, p: nat) {
    x.barrGrant.Some? && p in x.barrGrant.value && x.barrGrant.value[p].from != i
  }

  predicate Fetched(x: HostState, p: nat) { x.pageGrant.Some? && x.pageGrant.value.0 == p }

  /** A host in a section of the lock has the value: in its copy, or on the way to the home, or there. */
  predicate HolderOk(c: Config, s: State, g: Guard, a: nat)
    requires Wf(c, s) && Exists(c, g) && a < c.hosts
  {
    var x, p, u, v := s.hosts[a], g.page, g.unit, Value(s, g);
    OnStack(x, g.lock) ==>
      if !Remote(c, a, p) then s.mem[p][u] == v
      else
        && (x.lines[p].Valid() ==> x.lines[p].data[u] == v && Base(x, p)[u] == HomePlus(s, a, p)[u])
        && (!x.lines[p].Valid() ==> HomePlus(s, a, p)[u] == v)
        && (p in x.diffs ==> InSection(x, g))
        && (Fetched(x, p) ==> x.pageGrant.value.1[u] == v)
  }

  /** Any other host has no change of the unit to send, and a copy of it either has the value or will go. */
  ghost predicate BystanderOk(c: Config, s: State, g: Guard, i: nat)
    requires Wf(c, s) && Exists(c, g) && i < c.hosts
  {
    var x, p, u, v := s.hosts[i], g.page, g.unit, Value(s, g);
    !OnStack(x, g.lock) && Remote(c, i, p) ==>
      && (Unlisted(c, x, p) ==> x.lines[p].data[u] == x.lines[p].twin[u])
      && (p in x.diffs ==> x.diffs[p].page[u] == x.diffs[p].twin[u])
      && (x.lines[p].Valid() && !BarrStale(x, i, p) ==> x.lines[p].data[u] == v || Owed(c, s, g, i))
      && (Fetched(x, p) ==> x.pageGrant.value.1[u] == v || Owed(c, s, g, i))
  }

  ghost predicate ViewOk(c: Config, s: State, g: Guard, i: nat)
    requires Wf(c, s) && Exists(c, g) && i < c.hosts
  {
    HolderOk(c, s, g, i) && BystanderOk(c, s, g, i)
  }

  predicate SomeHolds(s: State, l: nat) { exists a :: 0 <= a < |s.hosts| && OnStack(s.hosts[a], l) }

  ghost predicate Agree(c: Config, s: State, g: Guard)
    requires Wf(c, s) && Exists(c, g)
  {
    && (!SomeHolds(s, g.lock) ==> s.mem[g.page][g.unit] == Value(s, g))
    && forall i :: 0 <= i < c.hosts ==> ViewOk(c, s, g, i)
  }

  // ---------------------------------------------------------------- what holds of every page and lock

  /** The home of the page has put it into its report for the barrier under way. */
  predicate HomeReported(c: Config, s: State, p: nat)
    requires Wf(c, s) && p < c.pages
  {
    var m := c.homeOf[p];
    var x := s.hosts[m];
    || (x.phase.Ending? && x.phase.op == Barr && p !in x.phase.todo && p in x.stack[0].dirtied)
    || (x.barr.Some? && p in x.barr.value)
    || (m in s.reported && p in s.reported[m])
  }

  /** The home knows that the page is shared, or will have all copies of it invalidated. */
  predicate SharedOk(c: Config, s: State, p: nat, i: nat)
    requires Wf(c, s) && p < c.pages && i < c.hosts
  {
    var x := s.hosts[i];
    Remote(c, i, p) && ((x.lines[p].Valid() && !BarrStale(x, i, p)) || Fetched(x, p)) ==> s.rdnt[p] || HomeReported(c, s, p)
  }

  /** A host out of the lock has not seen the scope under way. */
  predicate SeenOk(c: Config, s: State, l: nat, i: nat)
    requires Wf(c, s) && l < c.locks && i < c.hosts
  {
    var x := s.hosts[i];
    x.phase == Resuming(Acq(l)) || OnStack(x, l) || Releasing(x, l) || x.myscope[l] < s.locks[l].scope
  }

  ghost predicate PlaceOk(c: Config, s: State, g: Guard, i: nat)
    requires Wf(c, s) && Exists(c, g) && i < c.hosts
  {
    SharedOk(c, s, g.page, i) && SeenOk(c, s, g.lock, i)
  }

  predicate Disciplined(c: Config, s: State, g: Guard)
    requires Wf(c, s) && Exists(c, g)
  {
    Guarded(s, g) && Kept(s, g)
  }

  ghost predicate ScopeInv(c: Config, s: State, g: Guard)
    requires Wf(c, s) && Exists(c, g)
  {
    && (forall i :: 0 <= i < c.hosts ==> PlaceOk(c, s, g, i))
    && (Disciplined(c, s, g) ==> Agree(c, s, g))
  }

  // ---------------------------------------------------------------- steps of one host

  predicate OnlyHolder(s: State, l: nat, h: nat)
    requires h < |s.hosts|
  {
    OnStack(s.hosts[h], l) && forall i :: 0 <= i < |s.hosts| && i != h ==> !OnStack(s.hosts[i], l)
  }

  /** The unit is as it was at its home, or h alone is in the section. */
  predicate HomeKept(c: Config, s: State, s': State, g: Guard, h: nat)
    requires Wf(c, s) && Wf(c, s') && Exists(c, g) && h < c.hosts
  {
    s'.mem[g.page][g.unit] == s.mem[g.page][g.unit] || OnlyHolder(s, g.lock, h)
  }

  /** Nothing changes but what a lock's manager sends to a host or notes about it. */
  predicate SameView(x: HostState, y: HostState) {
    y == x.(lockGrant := y.lockGrant, noclear := y.noclear)
  }

  /** Every other host will learn of the page at its next grant of the lock. */
  predicate AllUnseen(c: Config, s: State, g: Guard, h: nat)
    requires Wf(c, s) && Exists(c, g)
  {
    forall i :: 0 <= i < c.hosts && i != h ==> Unseen(s.locks[g.lock].hist, s.barrScope, s.hosts[i].myscope[g.lock], g.page)
  }

  /** A step of host h that does not write the unit, forgets no release of the lock, and does not take back
      what h owes. */
  ghost predicate Smooth(c: Config, s: State, s': State, g: Guard, h: nat) {
    && Wf(c, s) && Wf(c, s') && Exists(c, g) && h < c.hosts
    && (forall i :: 0 <= i < c.hosts && i != h ==> SameView(s.hosts[i], s'.hosts[i]))
    && Value(s', g) == Value(s, g) && (Guarded(s', g) ==> Guarded(s, g)) && s'.barrScope == s.barrScope
    && (forall r :: r in s.locks[g.lock].hist ==> r in s'.locks[g.lock].hist)
    && s'.locks[g.lock].lost >= s.locks[g.lock].lost && s'.locks[g.lock].scope >= s.locks[g.lock].scope
    && (c.homeOf[g.page] != h ==> s'.written[g.page] == s.written[g.page] && (s.rdnt[g.page] ==> s'.rdnt[g.page]))
    && (Owes(c, s, g, h) ==> Owes(c, s', g, h) || AllUnseen(c, s', g, h))
  }

  lemma SmoothOwes(c: Config, s: State, s': State, g: Guard, h: nat, j: nat)
    requires Smooth(c, s, s', g, h) && j < c.hosts && j != h && Owes(c, s, g, j)
    ensures Owes(c, s', g, j)
  {
    assert SameView(s.hosts[j], s'.hosts[j]);
  }

  lemma SmoothOwed(c: Config, s: State, s': State, g: Guard, h: nat, i: nat)
    requires Smooth(c, s, s', g, h) && i < c.hosts && Owed(c, s, g, i)
    requires s'.hosts[i].myscope[g.lock] == s.hosts[i].myscope[g.lock]
    ensures Owed(c, s', g, i)
  {
    if j :| 0 <= j < c.hosts && j != i && Owes(c, s, g, j) {
      if j != h { SmoothOwes(c, s, s', g, h, j); }
    }
  }

  lemma SmoothView(c: Config, s: State, s': State, g: Guard, h: nat, i: nat)
    requires Smooth(c, s, s', g, h) && HomeKept(c, s, s', g, h) && i < c.hosts && i != h && ViewOk(c, s, g, i)
    ensures ViewOk(c, s', g, i)
  {
    assert SameView(s.hosts[i], s'.hosts[i]);
    if Owed(c, s, g, i) { SmoothOwed(c, s, s', g, h, i); }
  }

  lemma SameHolders(s: State, s': State, l: nat, h: nat)
    requires h < |s.hosts| == |s'.hosts| && forall i :: 0 <= i < |s.hosts| && i != h ==> SameView(s.hosts[i], s'.hosts[i])
    requires OnStack(s'.hosts[h], l) == OnStack(s.hosts[h], l)
    ensures SomeHolds(s', l) <==> SomeHolds(s, l)
  {
    if a :| 0 <= a < |s.hosts| && OnStack(s.hosts[a], l) { assert OnStack(s'.hosts[a], l); }
    if a :| 0 <= a < |s'.hosts| && OnStack(s'.hosts[a], l) { assert OnStack(s.hosts[a], l); }
  }

  predicate Shared(c: Config, s: State, p: nat)
    requires Wf(c, s) && p < c.pages
  {
    s.rdnt[p] || HomeReported(c, s, p)
  }

  /** A smooth step in which h neither enters nor leaves the section. */
  ghost predicate Gentle(c: Config, s: State, s': State, g: Guard, h: nat) {
    && Smooth(c, s, s', g, h) && PlaceOk(c, s', g, h)
    && OnStack(s'.hosts[h], g.lock) == OnStack(s.hosts[h], g.lock)
    && s'.hosts[h].myscope[g.lock] == s.hosts[h].myscope[g.lock]
    && (Shared(c, s, g.page) ==> Shared(c, s', g.page))
  }

  /** What is left to show of such a step: it keeps the view of host h. */
  ghost predicate ViewKept(c: Config, s: State, s': State, g: Guard, h: nat)
    requires Wf(c, s) && Wf(c, s') && Exists(c, g) && h < c.hosts
  {
    ViewOk(c, s, g, h) && (Owed(c, s, g, h) ==> Owed(c, s', g, h)) ==> HomeKept(c, s, s', g, h) && ViewOk(c, s', g, h)
  }

  /** A smooth step keeps the other hosts' views; what is left is that of h, and the home's when the last
      holder has gone. */
  lemma SmoothAgree(c: Config, s: State, s': State, g: Guard, h: nat)
    requires Smooth(c, s, s', g, h) && HomeKept(c, s, s', g, h) && Agree(c, s, g) && ViewOk(c, s', g, h)
    requires !SomeHolds(s', g.lock) ==> s'.mem[g.page][g.unit] == Value(s', g)
    ensures Agree(c, s', g)
  {
    forall i | 0 <= i < c.hosts ensures ViewOk(c, s', g, i) {
      assert ViewOk(c, s, g, i);
      if i != h { SmoothView(c, s, s', g, h, i); }
    }
  }

  lemma GentleAgree(c: Config, s: State, s': State, g: Guard, h: nat)
    requires Gentle(c, s, s', g, h) && ViewKept(c, s, s', g, h) && Agree(c, s, g)
    ensures Agree(c, s', g)
  {
    assert ViewOk(c, s, g, h);
    if Owed(c, s, g, h) { SmoothOwed(c, s, s', g, h, h); }
    SameHolders(s, s', g.lock, h);
    SmoothAgree(c, s, s', g, h);
  }

  /** Where everybody stands after a smooth step. */
  lemma SmoothPlaces(c: Config, s: State, s': State, g: Guard, h: nat)
    requires Smooth(c, s, s', g, h) && ScopeInv(c, s, g) && PlaceOk(c, s', g, h)
    requires Shared(c, s, g.page) ==> Shared(c, s', g.page)
    ensures forall i :: 0 <= i < c.hosts ==> PlaceOk(c, s', g, i)
  {
    forall i | 0 <= i < c.hosts ensures PlaceOk(c, s', g, i) {
      assert PlaceOk(c, s, g, i);
      if i != h { assert SameView(s.hosts[i], s'.hosts[i]); }
    }
  }

  lemma GentleScope(c: Config, s: State, s': State, g: Guard, h: nat)
    requires Gentle(c, s, s', g, h) && ScopeInv(c, s, g) && (Disciplined(c, s', g) ==> ViewKept(c, s, s', g, h))
    ensures ScopeInv(c, s', g)
  {
    SmoothPlaces(c, s, s', g, h);
    if Disciplined(c, s', g) { GentleAgree(c, s, s', g, h); }
  }

  /** A gentle step that concerns nobody but h, and no lock. */
  ghost predicate Solo(c: Config, s: State, s': State, g: Guard, h: nat) {
    && Wf(c, s) && Wf(c, s') && Exists(c, g) && h < c.hosts
    && s'.hosts == s.hosts[h := s'.hosts[h]] && s'.locks == s.locks
    && Value(s', g) == Value(s, g) && (Guarded(s', g) ==> Guarded(s, g)) && s'.barrScope == s.barrScope
    && (c.homeOf[g.page] != h ==> s'.written[g.page] == s.written[g.page] && (s.rdnt[g.page] ==> s'.rdnt[g.page]))
    && (Owes(c, s, g, h) ==> Owes(c, s', g, h))
    && PlaceOk(c, s', g, h) && OnStack(s'.hosts[h], g.lock) == OnStack(s.hosts[h], g.lock)
    && s'.hosts[h].myscope[g.lock] == s.hosts[h].myscope[g.lock]
    && (Shared(c, s, g.page) ==> Shared(c, s', g.page))
  }

  lemma SoloGentle(c: Config, s: State, s': State, g: Guard, h: nat)
    requires Solo(c, s, s', g, h)
    ensures Gentle(c, s, s', g, h)
  {
    forall i | 0 <= i < c.hosts && i != h ensures SameView(s.hosts[i], s'.hosts[i]) { assert s'.hosts[i] == s.hosts[i]; }
  }

  lemma SoloScope(c: Config, s: State, s': State, g: Guard, h: nat)
    requires Solo(c, s, s', g, h) && ScopeInv(c, s, g) && (Disciplined(c, s', g) ==> ViewKept(c, s, s', g, h))
    ensures ScopeInv(c, s', g)
  {
    SoloGentle(c, s, s', g, h);
    GentleScope(c, s, s', g, h);
  }
}
