/** The tables of one host, updated in place: cache[], home[] and page[].  page[p] tells for page p
    its home host, its slot in home[] (if it is homed here) and its slot in cache[] (if it is cached
    here); the invariant is that these indexes and the slots' addresses say the same. */
module HostTables {

  const CACHEPAGES := 1024
  const HOMEPAGES := 16384
  const MAXHOSTS := 16

  datatype PageState = UNMAP | INV | RO | RW

  /** addr is a page number; it means nothing while the state is UNMAP. */
  datatype CacheSlot = CacheSlot(state: PageState, addr: nat, wtnt: bool)

  datatype Address = Null | Addr(page: nat)

  /** written and barrier are bits 0 and 1 of wtnt: written by this host in this interval, in this
      barrier interval. */
  datatype HomeSlot = HomeSlot(addr: Address, written: bool, barrier: bool, rdnt: bool)

  /** homepid is MAXHOSTS until the page is allocated. */
  datatype PageEntry = PageEntry(homepid: nat, homei: nat, cachei: nat)

  // ---------------------------------------------------------------- choosing a slot

  /** The i-th slot of the set, counted from the slot that the replacement scheme proposes. */
  function Around(start: nat, i: nat): (k: nat)
    requires start < CACHEPAGES && i <= CACHEPAGES
    ensures k < CACHEPAGES
  {
    if start + i < CACHEPAGES then start + i else start + i - CACHEPAGES
  }

  /** How far from `start`, going round, the first slot in the given state lies. */
  function Distance(cache: seq<CacheSlot>, start: nat, st: PageState, i: nat): (d: nat)
    requires |cache| == CACHEPAGES && start < CACHEPAGES && i <= CACHEPAGES
    ensures i <= d <= CACHEPAGES
    decreases CACHEPAGES - i
  {
    if i == CACHEPAGES || cache[Around(start, i)].state == st then i else Distance(cache, start, st, i + 1)
  }

  lemma {:induction false} DistanceIs(cache: seq<CacheSlot>, start: nat, st: PageState, i: nat)
    requires |cache| == CACHEPAGES && start < CACHEPAGES && i <= CACHEPAGES
    ensures var d := Distance(cache, start, st, i);
      && (forall j :: i <= j < d ==> cache[Around(start, j)].state != st)
      && (d < CACHEPAGES ==> cache[Around(start, d)].state == st)
    decreases CACHEPAGES - i
  {
    if i < CACHEPAGES {
      DistanceIs(cache, start, st, i + 1);
    }
  }

  lemma NextAround(start: nat, i: nat)
    requires start < CACHEPAGES && i < CACHEPAGES
    ensures Around(start, i + 1) == (Around(start, i) + 1) % CACHEPAGES
  {
  }

  lemma NextDistance(cache: seq<CacheSlot>, start: nat, st: PageState, i: nat)
    requires |cache| == CACHEPAGES && start < CACHEPAGES && i < CACHEPAGES
    ensures Distance(cache, start, st, i) ==
      if cache[Around(start, i)].state == st then i else Distance(cache, start, st, i + 1)
  {
  }

  datatype Choice = NoSlot | Chosen(slot: nat)

  /** The slot that findposition picks: the first UNMAP one, else the first INV one, else the
      proposed one, unless that is RW. */
  function Pick(cache: seq<CacheSlot>, start: nat): (c: Choice)
    requires |cache| == CACHEPAGES && start < CACHEPAGES
    ensures c.Chosen? ==> c.slot < CACHEPAGES
  {
    var u, v := Distance(cache, start, UNMAP, 0), Distance(cache, start, INV, 0);
    if u < CACHEPAGES then Chosen(Around(start, u))
    else if v < CACHEPAGES then Chosen(Around(start, v))
    else if cache[start].state == RO then Chosen(start)
    else NoSlot
  }

  lemma NoneInState(cache: seq<CacheSlot>, start: nat, st: PageState)
    requires |cache| == CACHEPAGES && start < CACHEPAGES
    ensures Distance(cache, start, st, 0) == CACHEPAGES <==> forall k :: 0 <= k < CACHEPAGES ==> cache[k].state != st
  {
    DistanceIs(cache, start, st, 0);
    if Distance(cache, start, st, 0) == CACHEPAGES {
      forall k | 0 <= k < CACHEPAGES ensures cache[k].state != st {
        var i := if k >= start then k - start else k + CACHEPAGES - start;
        assert Around(start, i) == k;
      }
    }
  }

  /** From any start the pick prefers UNMAP to INV to RO and never evicts a dirty page.  It fails
      exactly when no slot is UNMAP or INV and the proposed slot is RW, even if another is RO. */
  lemma PickPriority(cache: seq<CacheSlot>, start: nat)
    requires |cache| == CACHEPAGES && start < CACHEPAGES
    ensures Pick(cache, start).NoSlot? <==>
      cache[start].state == RW && forall k :: 0 <= k < CACHEPAGES ==> cache[k].state == RO || cache[k].state == RW
    ensures Pick(cache, start).Chosen? ==> var st := cache[Pick(cache, start).slot].state;
      && st != RW
      && (st != UNMAP ==> forall k :: 0 <= k < CACHEPAGES ==> cache[k].state != UNMAP)
      && (st == RO ==> forall k :: 0 <= k < CACHEPAGES ==> cache[k].state != INV)
  {
    NoneInState(cache, start, UNMAP);
    NoneInState(cache, start, INV);
    DistanceIs(cache, start, UNMAP, 0);
    DistanceIs(cache, start, INV, 0);
  }

  // ---------------------------------------------------------------- agreement of the tables

  /** page[].cachei and cache[].addr agree, and only copies that can be read are marked as written. */
  ghost predicate CacheOk(cache: seq<CacheSlot>, page: seq<PageEntry>) {
    && |cache| == CACHEPAGES
    && (forall p :: 0 <= p < |page| && page[p].cachei < CACHEPAGES ==>
      cache[page[p].cachei].state != UNMAP && cache[page[p].cachei].addr == p)
    && (forall k :: 0 <= k < CACHEPAGES && cache[k].state != UNMAP ==>
      cache[k].addr < |page| && page[cache[k].addr].cachei == k)
    && (forall k :: 0 <= k < CACHEPAGES && cache[k].wtnt ==> cache[k].state == RO || cache[k].state == RW)
  }

  /** page[].homei and home[].addr agree, and home[] holds exactly the pages homed here. */
  ghost predicate HomeOk(pid: nat, home: seq<HomeSlot>, page: seq<PageEntry>) {
    && |home| == HOMEPAGES
    && (forall p :: 0 <= p < |page| && page[p].homepid == pid ==>
      page[p].homei < HOMEPAGES && home[page[p].homei].addr == Addr(p))
    && (forall i :: 0 <= i < HOMEPAGES && home[i].addr.Addr? ==>
      var p := home[i].addr.page; p < |page| && page[p].homepid == pid && page[p].homei == i)
  }

  /** And every page has a home that exists, or none yet; a page homed here is not cached here. */
  ghost predicate HomesOk(pid: nat, hosts: nat, home: seq<HomeSlot>, page: seq<PageEntry>) {
    && HomeOk(pid, home, page)
    && (forall p :: 0 <= p < |page| ==> page[p].homepid < hosts || page[p].homepid == MAXHOSTS)
    && (forall p :: 0 <= p < |page| && page[p].homepid == pid ==> page[p].cachei >= CACHEPAGES)
  }

  /** Slot k now belongs to page p, and to no page that had it before. */
  ghost predicate Reserved(cache: seq<CacheSlot>, page: seq<PageEntry>, cache': seq<CacheSlot>, page': seq<PageEntry>,
    p: nat, k: nat)
  {
    && k < |cache| == |cache'| && p < |page| == |page'|
    && cache[k].state != RW && page'[p] == page[p].(cachei := k)
    && cache'[k] == (if cache[k].state == UNMAP then cache[k] else CacheSlot(UNMAP, 0, false))
    && (forall j :: 0 <= j < |cache| && j != k ==> cache'[j] == cache[j])
    && (forall q :: 0 <= q < |page| && q != p ==>
      page'[q] == if cache[k].state != UNMAP && cache[k].addr == q then page[q].(cachei := CACHEPAGES) else page[q])
  }

  /** Agreement except for page p, whose slot is still empty. */
  ghost predicate PendingOk(cache: seq<CacheSlot>, page: seq<PageEntry>, p: nat) {
    && |cache| == CACHEPAGES && p < |page| && page[p].cachei < CACHEPAGES && cache[page[p].cachei].state == UNMAP
    && (forall q :: 0 <= q < |page| && q != p && page[q].cachei < CACHEPAGES ==>
      cache[page[q].cachei].state != UNMAP && cache[page[q].cachei].addr == q)
    && (forall k :: 0 <= k < CACHEPAGES && cache[k].state != UNMAP ==>
      cache[k].addr < |page| && page[cache[k].addr].cachei == k)
    && (forall k :: 0 <= k < CACHEPAGES && cache[k].wtnt ==> cache[k].state == RO || cache[k].state == RW)
  }

  lemma ReservedPending(cache: seq<CacheSlot>, page: seq<PageEntry>, cache': seq<CacheSlot>, page': seq<PageEntry>,
    p: nat, k: nat)
    requires CacheOk(cache, page) && k < CACHEPAGES && p < |page| && page[p].cachei >= CACHEPAGES
    requires Reserved(cache, page, cache', page', p, k)
    ensures PendingOk(cache', page', p)
  {
  }

  lemma PendingFilled(cache: seq<CacheSlot>, page: seq<PageEntry>, p: nat, slot: CacheSlot)
    requires PendingOk(cache, page, p) && slot.addr == p && (slot.state == RO || slot.state == RW)
    ensures CacheOk(cache[page[p].cachei := slot], page)
  {
  }

  /** The access of host pid to page p faults. */
  predicate FaultsIn(pid: nat, cache: seq<CacheSlot>, page: seq<PageEntry>, p: nat, write: bool)
    requires p < |page|
  {
    var k := page[p].cachei;
    page[p].homepid != pid && (k < |cache| ==> cache[k].state == INV || (write && cache[k].state == RO))
  }

  /** What a fault on p leaves: a copy of p, in its slot or in a new one, marked as written if the fault is a
      write or the copy was marked before; the page that had the new slot has none; nothing else changes. */
  ghost predicate Faulted(cache: seq<CacheSlot>, page: seq<PageEntry>, cache': seq<CacheSlot>, page': seq<PageEntry>,
    p: nat, write: bool)
  {
    && p < |page| == |page'| && page'[p].cachei < |cache'| == |cache|
    && var k, added := page'[p].cachei, page[p].cachei >= |cache|;
    && (added || k == page[p].cachei) && page'[p] == page[p].(cachei := k) && (added ==> cache[k].state != RW)
    && cache' == cache[k := CacheSlot(if write then RW else RO, p, write || (!added && cache[k].wtnt))]
    && forall q :: 0 <= q < |page| && q != p ==>
         page'[q] == if added && cache[k].state != UNMAP && cache[k].addr == q then page[q].(cachei := CACHEPAGES) else page[q]
  }

  /** So the access does not fault again, every dirty page stays where it was, and every page keeps its home. */
  lemma FaultedKeeps(pid: nat, cache: seq<CacheSlot>, page: seq<PageEntry>, cache': seq<CacheSlot>, page': seq<PageEntry>,
    p: nat, write: bool)
    requires CacheOk(cache, page) && Faulted(cache, page, cache', page', p, write)
    ensures !FaultsIn(pid, cache', page', p, write)
    ensures forall q :: 0 <= q < |page| ==> page'[q].homepid == page[q].homepid && page'[q].homei == page[q].homei
    ensures forall q :: 0 <= q < |page| && q != p && IsDirty(cache, page, q) ==>
      page'[q] == page[q] && cache'[page[q].cachei] == cache[page[q].cachei]
  {
  }

  lemma ReservedAndFilled(cache: seq<CacheSlot>, page: seq<PageEntry>, cache': seq<CacheSlot>, page': seq<PageEntry>,
    p: nat, k: nat, write: bool)
    requires CacheOk(cache, page) && k < CACHEPAGES && p < |page| && page[p].cachei >= CACHEPAGES
    requires Reserved(cache, page, cache', page', p, k)
    ensures Faulted(cache, page, cache'[k := CacheSlot(if write then RW else RO, p, write)], page', p, write)
  {
  }

  /** A prefetched page q that arrives while p waits for its slot to be marked: everything stays in
      order if and only if q is not given the slot reserved for p. */
  lemma PrefetchSafeIff(cache: seq<CacheSlot>, page: seq<PageEntry>, cache': seq<CacheSlot>, page': seq<PageEntry>,
    p: nat, q: nat, j: nat)
    requires PendingOk(cache, page, p) && q < |page| && q != p && page[q].cachei >= CACHEPAGES
    requires Reserved(cache, page, cache', page', q, j)
    ensures PendingOk(cache'[j := CacheSlot(RO, q, cache'[j].wtnt)], page', p) <==> j != page[p].cachei
    ensures j != page[p].cachei ==> page'[p] == page[p]
  {
  }

  /** Giving a page that is homed elsewhere a slot changes nothing about homes. */
  lemma ReservedHomes(pid: nat, hosts: nat, home: seq<HomeSlot>, cache: seq<CacheSlot>, page: seq<PageEntry>,
    cache': seq<CacheSlot>, page': seq<PageEntry>, q: nat, j: nat)
    requires HomesOk(pid, hosts, home, page) && Reserved(cache, page, cache', page', q, j) && page[q].homepid != pid
    ensures HomesOk(pid, hosts, home, page')
  {
  }

  /** It picks slot k, which counts as UNMAP, exactly if no UNMAP slot comes before it on the way. */
  lemma PicksSlot(cache: seq<CacheSlot>, start: nat, k: nat)
    requires |cache| == CACHEPAGES && start < CACHEPAGES && k < CACHEPAGES && cache[k].state == UNMAP
    ensures var d := if k >= start then k - start else k + CACHEPAGES - start;
      Pick(cache, start) == Chosen(k) <==> forall i :: 0 <= i < d ==> cache[Around(start, i)].state != UNMAP
  {
    var d := if k >= start then k - start else k + CACHEPAGES - start;
    var u := Distance(cache, start, UNMAP, 0);
    DistanceIs(cache, start, UNMAP, 0);
    assert Around(start, d) == k;
    if u < d {
      assert cache[Around(start, u)].state == UNMAP;
    }
  }

  /** And when it is, marking the slot for p leaves q with a slot that holds p. */
  lemma PrefetchClash(cache: seq<CacheSlot>, page: seq<PageEntry>, cache': seq<CacheSlot>, page': seq<PageEntry>,
    p: nat, q: nat, slot: CacheSlot)
    requires PendingOk(cache, page, p) && q < |page| && q != p && page[q].cachei >= CACHEPAGES
    requires Reserved(cache, page, cache', page', q, page[p].cachei) && slot.addr == p
    ensures !CacheOk(cache'[page[p].cachei := slot], page')
  {
    assert page'[q].cachei == page[p].cachei;
  }

  /** Filling a reserved slot completes the agreement; dirty pages have not moved. */
  lemma FilledOk(cache: seq<CacheSlot>, page: seq<PageEntry>, cache': seq<CacheSlot>, page': seq<PageEntry>,
    p: nat, k: nat, slot: CacheSlot)
    requires CacheOk(cache, page) && k < CACHEPAGES && p < |page| && page[p].cachei >= CACHEPAGES
    requires Reserved(cache, page, cache', page', p, k) && slot.addr == p && (slot.state == RO || slot.state == RW)
    ensures CacheOk(cache'[k := slot], page')
    ensures forall q :: 0 <= q < |page| && IsDirty(cache, page, q) ==>
      q != p && page'[q] == page[q] && cache'[k := slot][page[q].cachei] == cache[page[q].cachei]
  {
  }

  /** Page q has come into slot j, read-only; no dirty page was there, and no other slot changed. */
  ghost predicate Brought(cache: seq<CacheSlot>, page: seq<PageEntry>, cache': seq<CacheSlot>, page': seq<PageEntry>,
    q: nat, j: nat)
  {
    && j < |cache| == |cache'| && q < |page| == |page'| && cache[j].state != RW
    && page'[q] == page[q].(cachei := j) && cache' == cache[j := CacheSlot(RO, q, cache[j].state == UNMAP && cache[j].wtnt)]
    && (forall p :: 0 <= p < |page| && p != q ==>
      page'[p] == if cache[j].state != UNMAP && cache[j].addr == p then page[p].(cachei := CACHEPAGES) else page[p])
  }

  lemma ReservedBrought(cache: seq<CacheSlot>, page: seq<PageEntry>, cache': seq<CacheSlot>, page': seq<PageEntry>,
    q: nat, j: nat)
    requires Reserved(cache, page, cache', page', q, j)
    ensures Brought(cache, page, cache'[j := CacheSlot(RO, q, cache'[j].wtnt)], page', q, j)
  {
  }

  /** Both, for a slot that is not the reserved one. */
  lemma PrefetchedOk(pid: nat, hosts: nat, home: seq<HomeSlot>, cache: seq<CacheSlot>, page: seq<PageEntry>,
    cache': seq<CacheSlot>, page': seq<PageEntry>, p: nat, q: nat, j: nat)
    requires PendingOk(cache, page, p) && HomesOk(pid, hosts, home, page) && p != q
    requires Reserved(cache, page, cache', page', q, j) && page[q].homepid != pid && page[q].cachei >= CACHEPAGES
    requires j != page[p].cachei
    ensures var filled := cache'[j := CacheSlot(RO, q, cache'[j].wtnt)];
      PendingOk(filled, page', p) && Brought(cache, page, filled, page', q, j)
    ensures HomesOk(pid, hosts, home, page') && page'[p] == page[p]
  {
    PrefetchSafeIff(cache, page, cache', page', p, q, j);
    ReservedHomes(pid, hosts, home, cache, page, cache', page', q, j);
    ReservedBrought(cache, page, cache', page', q, j);
  }

  predicate IsDirty(cache: seq<CacheSlot>, page: seq<PageEntry>, q: nat)
    requires q < |page|
  {
    page[q].cachei < |cache| && cache[page[q].cachei].state == RW
  }

  class Tables {
    const pid: nat
    const hosts: nat
    const cache: array<CacheSlot>
    const home: array<HomeSlot>
    const page: array<PageEntry>
    const homesize: array<nat>          // hosts[].homesize, in pages

    /** The part of initmem that sets up the tables. */
    constructor (pid: nat, hosts: nat, pages: nat)
      requires pid < hosts <= MAXHOSTS
      ensures Valid() && this.pid == pid && this.hosts == hosts && page.Length == pages
      ensures fresh(cache) && fresh(home) && fresh(page) && fresh(homesize)
      ensures (forall i :: 0 <= i < HOMEPAGES ==> home[i] == HomeSlot(Null, false, false, false))
      ensures (forall k :: 0 <= k < CACHEPAGES ==> cache[k] == CacheSlot(UNMAP, 0, false)) && (forall i :: 0 <= i < hosts ==> homesize[i] == 0)
      ensures forall p :: 0 <= p < pages ==> page[p] == PageEntry(MAXHOSTS, HOMEPAGES, CACHEPAGES)
    {
      this.pid, this.hosts := pid, hosts;
      cache := new CacheSlot[CACHEPAGES](_ => CacheSlot(UNMAP, 0, false));
      home := new HomeSlot[HOMEPAGES](_ => HomeSlot(Null, false, false, false));
      page := new PageEntry[pages](_ => PageEntry(MAXHOSTS, HOMEPAGES, CACHEPAGES));
      homesize := new nat[hosts](_ => 0);
    }

    ghost predicate Shape() {
      cache.Length == CACHEPAGES && home.Length == HOMEPAGES && pid < hosts <= MAXHOSTS && homesize.Length == hosts
    }

    ghost predicate CacheAgrees()
      reads cache, page
    {
      CacheOk(cache[..], page[..])
    }

    ghost predicate Valid()
      reads cache, home, page
    {
      Shape() && CacheAgrees() && HomesOk(pid, hosts, home[..], page[..])
    }

    /** Every slot in use holds a page that exists. */
    ghost predicate Addressed()
      reads cache, page
    {
      forall k :: 0 <= k < cache.Length && cache[k].state != UNMAP ==> cache[k].addr < page.Length
    }

    /** flushpage: the page loses its slot and the slot is free. */
    method FlushPage(cachei: nat)
      requires Shape() && Addressed() && cachei < CACHEPAGES && cache[cachei].state != UNMAP
      modifies cache, page
      ensures Addressed() && (old(CacheAgrees()) ==> CacheAgrees())
      ensures cache[..] == old(cache[..])[cachei := CacheSlot(UNMAP, 0, false)]
      ensures var p := old(cache[cachei].addr);
        p < page.Length && page[..] == old(page[..])[p := old(page[p]).(cachei := CACHEPAGES)]
    {
      var p := cache[cachei].addr;
      page[p] := page[p].(cachei := CACHEPAGES);
      cache[cachei] := CacheSlot(UNMAP, 0, false);
    }

    /** The scanning loop of findposition. */
    method Scan(start: nat) returns (seti: nat, invi: int)
      requires Shape() && start < CACHEPAGES
      ensures var u, v := Distance(cache[..], start, UNMAP, 0), Distance(cache[..], start, INV, 0);
        && seti == Around(start, u)
        && (u == CACHEPAGES ==> invi == if v < CACHEPAGES then Around(start, v) else -1)
    {
      seti, invi := start, -1;
      var i := 0;
      ghost var c := cache[..];
      ghost var u, v := Distance(c, start, UNMAP, 0), Distance(c, start, INV, 0);
      while i < CACHEPAGES && cache[seti].state != UNMAP
        invariant i <= CACHEPAGES && seti == Around(start, i)
        invariant u == Distance(c, start, UNMAP, i)
        invariant if v < i then invi == Around(start, v) else invi == -1 && v == Distance(c, start, INV, i)
      {
        assert c[seti] == cache[seti];
        NextAround(start, i);
        NextDistance(c, start, UNMAP, i);
        NextDistance(c, start, INV, i);
        if invi == -1 && cache[seti].state == INV {
          invi := seti;
        }
        seti := (seti + 1) % CACHEPAGES;
        i := i + 1;
      }
    }

    /** The choice in findposition. */
    method ChooseSlot(start: nat) returns (c: Choice)
      requires Shape() && start < CACHEPAGES
      ensures c == Pick(cache[..], start)
    {
      DistanceIs(cache[..], start, UNMAP, 0);
      DistanceIs(cache[..], start, INV, 0);
      var seti, invi := Scan(start);
      if cache[seti].state != UNMAP && invi != -1 {
        seti := invi;
      }
      c := if cache[seti].state == RW then NoSlot else Chosen(seti);
    }

    /** The rest of findposition: the chosen slot is emptied and reserved for page p. */
    method Reserve(p: nat, k: nat)
      requires Shape() && Addressed() && k < CACHEPAGES && p < page.Length && page[p].cachei >= CACHEPAGES
      requires cache[k].state != RW
      modifies cache, page
      ensures Reserved(old(cache[..]), old(page[..]), cache[..], page[..], p, k)
    {
      if cache[k].state == INV || cache[k].state == RO {
        FlushPage(k);
      }
      page[p] := page[p].(cachei := k);
    }

    /** findposition. */
    method FindPosition(p: nat, start: nat) returns (c: Choice)
      requires Shape() && Addressed() && start < CACHEPAGES && p < page.Length && page[p].cachei >= CACHEPAGES
      modifies cache, page
      ensures c == Pick(old(cache[..]), start)
      ensures c.NoSlot? ==> cache[..] == old(cache[..]) && page[..] == old(page[..])
      ensures c.Chosen? ==> Reserved(old(cache[..]), old(page[..]), cache[..], page[..], p, c.slot)
    {
      c := ChooseSlot(start);
      if c.Chosen? {
        PickPriority(cache[..], start);
        Reserve(p, c.slot);
      }
    }

    /** The access to page p faults. */
    predicate Faults(p: nat, write: bool)
      requires p < page.Length && cache.Length == CACHEPAGES
      reads cache, page
    {
      FaultsIn(pid, cache[..], page[..], p, write)
    }

    /** sigsegv_handler, for a page homed elsewhere that has a cache slot.  getp tells whether the
        page is fetched. */
    method FaultCached(p: nat, write: bool) returns (getp: bool)
      requires Valid() && p < page.Length && Faults(p, write) && page[p].cachei < CACHEPAGES
      modifies cache
      ensures Valid() && Faulted(old(cache[..]), old(page[..]), cache[..], page[..], p, write)
      ensures getp <==> old(cache[page[p].cachei]).state == INV
    {
      var k := page[p].cachei;
      getp := !(write && cache[k].state == RO);
      cache[k] := CacheSlot(if write then RW else RO, p, cache[k].wtnt || write);
    }

    /** Page p has been given a slot that is still empty, and all else is as it should be. */
    ghost predicate Pending(p: nat)
      reads cache, home, page
    {
      && Shape() && p < page.Length && page[p].homepid != pid
      && PendingOk(cache[..], page[..], p) && HomesOk(pid, hosts, home[..], page[..])
    }

    /** sigsegv_handler, for a page homed elsewhere that has no slot, up to the GETP: findposition
        gives it one.  The source does not check that there is one. */
    method FaultReserve(p: nat, start: nat)
      requires Valid() && start < CACHEPAGES && p < page.Length && page[p].homepid != pid
      requires page[p].cachei >= CACHEPAGES && Pick(cache[..], start).Chosen?
      modifies cache, page
      ensures Pending(p)
      ensures Reserved(old(cache[..]), old(page[..]), cache[..], page[..], p, Pick(old(cache[..]), start).slot)
    {
      var c := FindPosition(p, start);
      ReservedPending(old(cache[..]), old(page[..]), cache[..], page[..], p, c.slot);
      ReservedHomes(pid, hosts, home[..], old(cache[..]), old(page[..]), cache[..], page[..], p, c.slot);
    }

    /** The part after the GETP, while the page is on its way: the slot is marked. */
    method FaultFill(p: nat, write: bool)
      requires Pending(p)
      modifies cache
      ensures Valid()
      ensures cache[..] == old(cache[..])[page[p].cachei := CacheSlot(if write then RW else RO, p, write)]
    {
      var k := page[p].cachei;
      var slot := CacheSlot(if write then RW else RO, p, cache[k].wtnt || write);
      PendingFilled(cache[..], page[..], p, slot);
      cache[k] := slot;
    }

    /** Both parts, with nothing in between. */
    method FaultNew(p: nat, write: bool, start: nat)
      requires Valid() && start < CACHEPAGES && p < page.Length && Faults(p, write) && page[p].cachei >= CACHEPAGES
      requires Pick(cache[..], start).Chosen?
      modifies cache, page
      ensures Valid() && Faulted(old(cache[..]), old(page[..]), cache[..], page[..], p, write)
      ensures page[p].cachei == Pick(old(cache[..]), start).slot
    {
      FaultReserve(p, start);
      var k := page[p].cachei;
      ReservedAndFilled(old(cache[..]), old(page[..]), cache[..], page[..], p, k, write);
      FaultFill(p, write);
    }

    /** A page that has come is mapped into slot j. */
    method Bring(q: nat, j: nat)
      requires j < cache.Length
      modifies cache
      ensures cache[..] == old(cache[..])[j := CacheSlot(RO, q, old(cache[..])[j].wtnt)]
    {
      cache[j] := CacheSlot(RO, q, cache[j].wtnt);
    }

    lemma PendingAddressed(p: nat)
      requires Pending(p)
      ensures Addressed()
    {
      assert forall k :: 0 <= k < cache.Length ==> cache[k] == cache[..][k];
    }

    /** getpgrantserver, for a prefetched page q that has no slot: it is given one if there is one. */
    method PrefetchNew(q: nat, start: nat, ghost p: nat)
      requires Pending(p) && start < CACHEPAGES && q < page.Length && q != p && page[q].homepid != pid
      requires page[q].cachei >= CACHEPAGES && Pick(cache[..], start) != Chosen(page[p].cachei)
      modifies cache, page
      ensures Pending(p) && page[p] == old(page[p])
      ensures match Pick(old(cache[..]), start)
        case NoSlot => cache[..] == old(cache[..]) && page[..] == old(page[..])
        case Chosen(j) => Brought(old(cache[..]), old(page[..]), cache[..], page[..], q, j)
    {
      ghost var was, before := cache[..], page[..];
      PendingAddressed(p);
      var c := FindPosition(q, start);
      if c.Chosen? {
        PrefetchedOk(pid, hosts, home[..], was, before, cache[..], page[..], p, q, c.slot);
        Bring(q, c.slot);
      }
    }

    /** getpgrantserver, for any prefetched page q: it may run on the server thread between the two
        parts of a fault on p.  It keeps what the fault relies on, provided that its own findposition
        does not pick the slot reserved for p. */
    method Prefetch(q: nat, start: nat, ghost p: nat)
      requires Pending(p) && start < CACHEPAGES && q < page.Length && q != p && page[q].homepid != pid
      requires page[q].cachei >= CACHEPAGES ==> Pick(cache[..], start) != Chosen(page[p].cachei)
      modifies cache, page
      ensures Pending(p) && page[p] == old(page[p])
      ensures old(page[q]).cachei < CACHEPAGES || Pick(old(cache[..]), start).NoSlot? ==>
        cache[..] == old(cache[..]) && page[..] == old(page[..])
      ensures old(page[q]).cachei >= CACHEPAGES && Pick(old(cache[..]), start).Chosen? ==>
        Brought(old(cache[..]), old(page[..]), cache[..], page[..], q, Pick(old(cache[..]), start).slot)
    {
      if page[q].cachei >= CACHEPAGES {
        PrefetchNew(q, start, p);
      }
    }

    /** The first step of startinterval: written copies become read-only. */
    method StartInterval()
      requires Valid()
      modifies cache
      ensures Valid()
      ensures forall k :: 0 <= k < CACHEPAGES ==>
        cache[k] == if old(cache[k].wtnt) then CacheSlot(RO, old(cache[k].addr), false) else old(cache[k])
    {
      for cachei := 0 to CACHEPAGES
        invariant forall k :: 0 <= k < CACHEPAGES ==>
          cache[k] == if k < cachei && old(cache[k].wtnt) then CacheSlot(RO, old(cache[k].addr), false) else old(cache[k])
      {
        if cache[cachei].wtnt {
          cache[cachei] := CacheSlot(RO, cache[cachei].addr, false);
        }
      }
      StartedOk(old(cache[..]), cache[..], page[..]);
    }
  }

  lemma StartedOk(cache: seq<CacheSlot>, cache': seq<CacheSlot>, page: seq<PageEntry>)
    requires CacheOk(cache, page) && |cache'| == |cache|
    requires forall k :: 0 <= k < CACHEPAGES ==>
      cache'[k] == if cache[k].wtnt then CacheSlot(RO, cache[k].addr, false) else cache[k]
    ensures CacheOk(cache', page)
  {
  }

  /** page[] changed in no home field. */
  lemma HomesKept(pid: nat, home: seq<HomeSlot>, page: seq<PageEntry>, page': seq<PageEntry>)
    requires HomeOk(pid, home, page) && |page'| == |page|
    requires forall q :: 0 <= q < |page| ==> page'[q].homepid == page[q].homepid && page'[q].homei == page[q].homei
    ensures HomeOk(pid, home, page')
  {
  }
}
