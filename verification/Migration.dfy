/** Home migration at a barrier: each host goes through the same granted notices and moves the home of
    a page that a single host wrote, and still caches, to that host. */
module Migration {
  import opened HostTables
  import N = Notices

  /** One entry of INVLD or BARRGRANT; modifypid is MAXHOSTS if several hosts wrote the page. */
  datatype Notice = Notice(page: nat, modifypid: nat, mig: bool)

  predicate Moves(e: Notice) { e.modifypid != MAXHOSTS && e.mig }

  // ---------------------------------------------------------------- free home slots

  function Free(home: seq<HomeSlot>): (n: nat) {
    if home == [] then 0 else Free(home[..|home| - 1]) + if home[|home| - 1].addr == Null then 1 else 0
  }

  lemma {:induction false} FreeUpdate(home: seq<HomeSlot>, i: nat, slot: HomeSlot)
    requires i < |home|
    ensures Free(home[i := slot]) ==
      Free(home) - (if home[i].addr == Null then 1 else 0) + (if slot.addr == Null then 1 else 0)
  {
    var n := |home| - 1;
    if i == n {
      assert home[i := slot][..n] == home[..n];
    } else {
      assert home[i := slot][..n] == home[..n][i := slot];
      FreeUpdate(home[..n], i, slot);
    }
  }

  lemma {:induction false} FreeExists(home: seq<HomeSlot>)
    ensures Free(home) == 0 <==> forall i :: 0 <= i < |home| ==> home[i].addr != Null
  {
    if home != [] {
      FreeExists(home[..|home| - 1]);
    }
  }

  // ---------------------------------------------------------------- one page

  /** The first empty slot of home[]. */
  method FindHome(t: Tables) returns (homei: nat)
    requires t.Valid() && Free(t.home[..]) > 0
    ensures homei < HOMEPAGES && t.home[homei].addr == Null
    ensures forall i :: 0 <= i < homei ==> t.home[i].addr != Null
  {
    FreeExists(t.home[..]);
    assert exists i :: 0 <= i < HOMEPAGES && t.home[..][i].addr == Null;
    homei := 0;
    while homei < HOMEPAGES && t.home[homei].addr != Null
      invariant homei <= HOMEPAGES && forall i :: 0 <= i < homei ==> t.home[i].addr != Null
    {
      homei := homei + 1;
    }
  }

  /** The first cache slot that is UNMAP or INV, or CACHEPAGES. */
  method FindCache(t: Tables) returns (cachei: nat)
    requires t.Valid()
    ensures cachei <= CACHEPAGES
    ensures cachei < CACHEPAGES ==> t.cache[cachei].state == UNMAP || t.cache[cachei].state == INV
    ensures forall k :: 0 <= k < cachei ==> t.cache[k].state == RO || t.cache[k].state == RW
  {
    cachei := 0;
    while cachei < CACHEPAGES && t.cache[cachei].state != UNMAP && t.cache[cachei].state != INV
      invariant cachei <= CACHEPAGES
      invariant forall k :: 0 <= k < cachei ==> t.cache[k].state == RO || t.cache[k].state == RW
    {
      cachei := cachei + 1;
    }
  }

  /** A copy that can be read here. */
  predicate Held(cache: seq<CacheSlot>, page: seq<PageEntry>, p: nat) {
    p < |page| && page[p].cachei < |cache| && (cache[page[p].cachei].state == RO || cache[page[p].cachei].state == RW)
  }

  /** All pages but p keep their home, and the copies that can be read stay the same ones. */
  ghost predicate OthersKept(cache: seq<CacheSlot>, page: seq<PageEntry>, cache': seq<CacheSlot>, page': seq<PageEntry>, p: nat) {
    && |page'| == |page|
    && (forall q :: 0 <= q < |page| && q != p ==> page'[q].homepid == page[q].homepid && page'[q].homei == page[q].homei)
    && (forall q :: 0 <= q < |page| && q != p ==> (Held(cache, page, q) <==> Held(cache', page', q)))
  }

  // ---------------------------------------------------------------- what one entry does

  /** The tables of the host, at one moment. */
  datatype Tab = Tab(cache: seq<CacheSlot>, home: seq<HomeSlot>, page: seq<PageEntry>)

  function TabOf(t: Tables): Tab
    reads t.cache, t.home, t.page
  {
    Tab(t.cache[..], t.home[..], t.page[..])
  }

  predicate FreeSlot(s: CacheSlot) { s.state == UNMAP || s.state == INV }

  predicate Room(cache: seq<CacheSlot>) { exists k :: 0 <= k < |cache| && FreeSlot(cache[k]) }

  /** Page p moves here: it takes the first empty slot of home[] with the mark of its copy, may be cached
      elsewhere, and is no longer cached here. */
  ghost predicate MovedHere(pid: nat, p: nat, a: Tab, b: Tab) {
    && p < |a.page| == |b.page|
    && var k, i := a.page[p].cachei, b.page[p].homei;
    && k < |a.cache| && i < |a.home|
    && a.home[i].addr == Null && (forall j :: 0 <= j < i ==> a.home[j].addr != Null)
    && b.home == a.home[i := HomeSlot(Addr(p), a.cache[k].wtnt, true, true)]
    && b.cache == a.cache[k := CacheSlot(UNMAP, 0, false)]
    && b.page == a.page[p := PageEntry(pid, i, CACHEPAGES)]
  }

  /** What the old home keeps of page p: a read-only copy with the mark of the home page, in the first slot
      that is UNMAP or INV, if there is one. */
  ghost predicate CopyKept(p: nat, written: bool, cache: seq<CacheSlot>, page: seq<PageEntry>, cache': seq<CacheSlot>, page': seq<PageEntry>) {
    && p < |page| == |page'| && |cache'| == |cache|
    && if Room(cache) then
         var k := page'[p].cachei;
         && k < |cache| && FreeSlot(cache[k]) && (forall j :: 0 <= j < k ==> !FreeSlot(cache[j]))
         && cache' == cache[k := CacheSlot(RO, p, written)]
         && forall q :: 0 <= q < |page| && q != p ==>
              page'[q] == if cache[k].state == INV && cache[k].addr == q then page[q].(cachei := CACHEPAGES) else page[q]
       else
         cache' == cache && page'[p].cachei == page[p].cachei && forall q :: 0 <= q < |page| && q != p ==> page'[q] == page[q]
  }

  /** Page p moves from here to host `to`. */
  ghost predicate MovedAway(p: nat, to: nat, a: Tab, b: Tab) {
    && p < |a.page| == |b.page| && a.page[p].homei < |a.home|
    && b.home == a.home[a.page[p].homei := HomeSlot(Null, false, false, false)]
    && b.page[p].homepid == to && b.page[p].homei == HOMEPAGES
    && CopyKept(p, a.home[a.page[p].homei].written, a.cache, a.page, b.cache, b.page)
  }

  /** The cache once a copy of page p has been invalidated. */
  function Without(cache: seq<CacheSlot>, page: seq<PageEntry>, p: nat): seq<CacheSlot>
    requires p < |page|
  {
    if page[p].cachei < |cache| then cache[page[p].cachei := CacheSlot(INV, p, false)] else cache
  }

  /** What one entry does to the tables of host pid. */
  ghost predicate Noticed(pid: nat, e: Notice, a: Tab, b: Tab) {
    && e.page < |a.page|
    && var h := a.page[e.page].homepid;
    if Moves(e) && e.modifypid == pid != h then MovedHere(pid, e.page, a, b)
    else if Moves(e) && e.modifypid != pid == h then MovedAway(e.page, e.modifypid, a, b)
    else
      && b.home == a.home && b.page == (if Moves(e) then a.page[e.page := a.page[e.page].(homepid := e.modifypid)] else a.page)
      && b.cache == if e.modifypid != pid && h != pid then Without(a.cache, a.page, e.page) else a.cache
  }

  /** What a grant does, entry by entry. */
  ghost predicate Handled(pid: nat, es: seq<Notice>, a: Tab, b: Tab) {
    if es == [] then b == a else exists m :: Noticed(pid, es[0], a, m) && Handled(pid, es[1..], m, b)
  }

  /** When the page of an entry leaves this host the copy stays exactly if some slot is UNMAP or INV then. */
  lemma KeptIff(pid: nat, e: Notice, a: Tab, b: Tab)
    requires Noticed(pid, e, a, b) && Moves(e) && e.modifypid != pid == a.page[e.page].homepid
    requires a.page[e.page].cachei >= |a.cache|
    ensures Held(b.cache, b.page, e.page) <==> exists k :: 0 <= k < |a.cache| && a.cache[k].state != RO && a.cache[k].state != RW
    ensures Held(b.cache, b.page, e.page) ==> b.cache[b.page[e.page].cachei] == CacheSlot(RO, e.page, a.home[a.page[e.page].homei].written)
  {
    assert forall k :: 0 <= k < |a.cache| ==> (FreeSlot(a.cache[k]) <==> a.cache[k].state != RO && a.cache[k].state != RW);
  }

  /** A page of another host is held exactly if it can be read without a fault, and dirty exactly if it can
      be written. */
  lemma HeldIsReadable(pid: nat, cache: seq<CacheSlot>, page: seq<PageEntry>, p: nat)
    requires CacheOk(cache, page) && p < |page| && page[p].homepid != pid
    ensures Held(cache, page, p) <==> !FaultsIn(pid, cache, page, p, false)
    ensures IsDirty(cache, page, p) <==> !FaultsIn(pid, cache, page, p, true)
  {
  }

  // ---------------------------------------------------------------- migpage

  /** migpage at the new home. */
  method NewHome(t: Tables, p: nat)
    requires t.Valid() && Held(t.cache[..], t.page[..], p) && t.page[p].homepid != t.pid && Free(t.home[..]) > 0
    modifies t.cache, t.home, t.page
    ensures t.Valid() && t.page[p].homepid == t.pid && OthersKept(old(t.cache[..]), old(t.page[..]), t.cache[..], t.page[..], p)
    ensures Free(t.home[..]) == old(Free(t.home[..])) - 1
    ensures MovedHere(t.pid, p, old(TabOf(t)), TabOf(t))
  {
    var cachei := t.page[p].cachei;
    var homei := FindHome(t);
    var slot := HomeSlot(Addr(p), t.cache[cachei].wtnt, true, true);
    FreeUpdate(t.home[..], homei, slot);
    MovedIn(t.pid, t.hosts, t.cache[..], t.home[..], t.page[..], p, homei, slot);
    t.home[homei] := slot;
    t.cache[cachei] := CacheSlot(UNMAP, 0, false);
    t.page[p] := PageEntry(t.pid, homei, CACHEPAGES);
    assert t.home[..] == old(t.home[..])[homei := slot];
    assert t.page[..] == old(t.page[..])[p := PageEntry(t.pid, homei, CACHEPAGES)];
    assert t.cache[..] == old(t.cache[..])[cachei := CacheSlot(UNMAP, 0, false)];
  }

  /** A page moves from its cache slot to a free home slot. */
  lemma MovedIn(pid: nat, hosts: nat, cache: seq<CacheSlot>, home: seq<HomeSlot>, page: seq<PageEntry>,
    p: nat, homei: nat, slot: HomeSlot)
    requires CacheOk(cache, page) && HomesOk(pid, hosts, home, page) && p < |page| && page[p].cachei < CACHEPAGES
    requires homei < HOMEPAGES && home[homei].addr == Null && slot.addr == Addr(p) && pid < hosts
    requires page[p].homepid != pid
    ensures var page' := page[p := PageEntry(pid, homei, CACHEPAGES)];
      && CacheOk(cache[page[p].cachei := CacheSlot(UNMAP, 0, false)], page')
      && HomesOk(pid, hosts, home[homei := slot], page')
  {
  }

  /** migpage at the old home: the page gets a cache slot if one is UNMAP or INV, and is dropped if not. */
  method KeepCopy(t: Tables, p: nat, written: bool)
    requires t.Shape() && t.CacheAgrees() && p < t.page.Length && t.page[p].cachei >= CACHEPAGES && t.Valid()
    modifies t.cache, t.page
    ensures t.CacheAgrees() && OthersKept(old(t.cache[..]), old(t.page[..]), t.cache[..], t.page[..], p)
    ensures t.page[p].homepid == old(t.page[p].homepid) && t.page[p].homei == old(t.page[p].homei)
    ensures forall q :: 0 <= q < t.page.Length && old(t.page[q].cachei) >= CACHEPAGES && q != p ==> t.page[q].cachei >= CACHEPAGES
    ensures CopyKept(p, written, old(t.cache[..]), old(t.page[..]), t.cache[..], t.page[..])
  {
    var k := FindCache(t);
    if k < CACHEPAGES {
      assert FreeSlot(t.cache[..][k]);
      t.Reserve(p, k);
      var slot := CacheSlot(RO, p, written);
      FilledOk(old(t.cache[..]), old(t.page[..]), t.cache[..], t.page[..], p, k, slot);
      KeptInSlot(old(t.cache[..]), old(t.page[..]), t.cache[..], t.page[..], p, k, written);
      t.cache[k] := slot;
    }
  }

  lemma KeptInSlot(cache: seq<CacheSlot>, page: seq<PageEntry>, cache': seq<CacheSlot>, page': seq<PageEntry>, p: nat, k: nat, written: bool)
    requires Reserved(cache, page, cache', page', p, k) && FreeSlot(cache[k]) && forall j :: 0 <= j < k ==> !FreeSlot(cache[j])
    ensures CopyKept(p, written, cache, page, cache'[k := CacheSlot(RO, p, written)], page')
  {
    assert cache'[k := CacheSlot(RO, p, written)] == cache[k := CacheSlot(RO, p, written)];
  }

  lemma HomeDropped(pid: nat, home: seq<HomeSlot>, page: seq<PageEntry>, page': seq<PageEntry>, p: nat)
    requires HomeOk(pid, home, page) && p < |page| == |page'| && page[p].homepid == pid && page'[p].homepid != pid
    requires forall q :: 0 <= q < |page| && q != p ==> page'[q].homepid == page[q].homepid && page'[q].homei == page[q].homei
    ensures HomeOk(pid, home[page[p].homei := HomeSlot(Null, false, false, false)], page')
  {
  }

  /** The third step at the old home: page p leaves home[]. */
  method DropHome(t: Tables, p: nat, modifypid: nat)
    requires t.Shape() && t.CacheAgrees() && HomeOk(t.pid, t.home[..], t.page[..])
    requires p < t.page.Length && t.page[p].homepid == t.pid != modifypid < t.hosts
    modifies t.home, t.page
    ensures t.CacheAgrees() && HomeOk(t.pid, t.home[..], t.page[..])
    ensures t.page[..] == old(t.page[..])[p := PageEntry(modifypid, HOMEPAGES, old(t.page[p].cachei))]
    ensures Free(t.home[..]) == old(Free(t.home[..])) + 1
    ensures old(t.page[p].homei) < HOMEPAGES && t.home[..] == old(t.home[..])[old(t.page[p].homei) := HomeSlot(Null, false, false, false)]
  {
    var homei, slot := t.page[p].homei, HomeSlot(Null, false, false, false);
    FreeUpdate(t.home[..], homei, slot);
    t.page[p] := PageEntry(modifypid, HOMEPAGES, t.page[p].cachei);
    HomeDropped(t.pid, t.home[..], old(t.page[..]), t.page[..], p);
    t.home[homei] := slot;
    assert t.home[..] == old(t.home[..])[homei := slot];
  }

  method OldHome(t: Tables, p: nat, modifypid: nat)
    requires t.Valid() && p < t.page.Length && t.page[p].homepid == t.pid != modifypid < t.hosts
    modifies t.cache, t.home, t.page
    ensures t.Valid() && t.page[p].homepid == modifypid && OthersKept(old(t.cache[..]), old(t.page[..]), t.cache[..], t.page[..], p)
    ensures Free(t.home[..]) == old(Free(t.home[..])) + 1
    ensures MovedAway(p, modifypid, old(TabOf(t)), TabOf(t))
  {
    KeepCopy(t, p, t.home[t.page[p].homei].written);
    HomesKept(t.pid, t.home[..], old(t.page[..]), t.page[..]);
    ghost var cache, page := t.cache[..], t.page[..];
    DropHome(t, p, modifypid);
    KeptThenSet(old(t.cache[..]), old(t.page[..]), cache, page, t.page[..], p);
    LeftCopy(old(t.cache[..]), old(t.page[..]), cache, page, t.page[..], p, old(t.home[t.page[p].homei].written), modifypid);
  }

  lemma LeftCopy(cache: seq<CacheSlot>, page: seq<PageEntry>, cache': seq<CacheSlot>, mid: seq<PageEntry>, page': seq<PageEntry>,
    p: nat, written: bool, to: nat)
    requires CopyKept(p, written, cache, page, cache', mid) && page' == mid[p := PageEntry(to, HOMEPAGES, mid[p].cachei)]
    ensures CopyKept(p, written, cache, page, cache', page')
  {
  }

  lemma KeptThenSet(cache: seq<CacheSlot>, page: seq<PageEntry>, cache': seq<CacheSlot>, mid: seq<PageEntry>,
    page': seq<PageEntry>, p: nat)
    requires OthersKept(cache, page, cache', mid, p) && p < |mid| == |page'| && page' == mid[p := page'[p]]
    ensures OthersKept(cache, page, cache', page', p)
  {
  }

  /** migpage. */
  method MigPage(t: Tables, p: nat, homepid: nat, modifypid: nat)
    requires t.Valid() && p < t.page.Length && homepid == t.page[p].homepid && modifypid < t.hosts
    requires modifypid == t.pid != homepid ==> Held(t.cache[..], t.page[..], p) && Free(t.home[..]) > 0
    modifies t.cache, t.home, t.page
    ensures t.Valid() && t.page[p].homepid == modifypid && OthersKept(old(t.cache[..]), old(t.page[..]), t.cache[..], t.page[..], p)
    ensures Free(t.home[..]) == old(Free(t.home[..])) +
      if modifypid == t.pid != homepid then -1 else if modifypid != t.pid == homepid then 1 else 0
    ensures modifypid != t.pid && homepid != t.pid ==> Held(t.cache[..], t.page[..], p) == old(Held(t.cache[..], t.page[..], p))
    ensures if modifypid == t.pid != homepid then MovedHere(t.pid, p, old(TabOf(t)), TabOf(t))
      else if modifypid != t.pid == homepid then MovedAway(p, modifypid, old(TabOf(t)), TabOf(t))
      else TabOf(t) == old(TabOf(t)).(page := old(t.page[..])[p := old(t.page[p]).(homepid := modifypid)])
  {
    if modifypid == t.pid && homepid != t.pid {
      NewHome(t, p);
    } else if modifypid != t.pid && homepid == t.pid {
      OldHome(t, p, modifypid);
    } else {
      t.page[p] := t.page[p].(homepid := modifypid);
    }
  }

  // ---------------------------------------------------------------- a whole report and a whole grant

  /** Every entry of a report has the tag that migcheckcache gives it: its page is held here. */
  predicate Tagged(cache: seq<CacheSlot>, page: seq<PageEntry>, es: seq<N.Entry>) {
    forall i :: 0 <= i < |es| ==>
      N.Page(es[i].addr) < |page| && es[i].mig == if Held(cache, page, N.Page(es[i].addr)) then 1 else 0
  }

  /** migcheckcache, before the report leaves; savepage has left every tag 0. */
  method MigCheckCache(t: Tables, es: seq<N.Entry>) returns (tagged: seq<N.Entry>)
    requires t.Valid() && forall i :: 0 <= i < |es| ==> N.Page(es[i].addr) < t.page.Length && es[i].mig == 0
    ensures |tagged| == |es| && Tagged(t.cache[..], t.page[..], tagged)
    ensures forall i :: 0 <= i < |es| ==> tagged[i] == es[i].(mig := tagged[i].mig)
  {
    tagged := [];
    for i := 0 to |es|
      invariant |tagged| == i && Tagged(t.cache[..], t.page[..], tagged)
      invariant forall j :: 0 <= j < i ==> tagged[j] == es[j].(mig := tagged[j].mig)
    {
      var cachei := t.page[N.Page(es[i].addr)].cachei;
      var e := es[i];
      if cachei < CACHEPAGES && (t.cache[cachei].state == RO || t.cache[cachei].state == RW) {
        e := e.(mig := 1);
      }
      tagged := tagged + [e];
    }
  }

  /** Invalidation of a page that another host wrote. */
  method Invalidate(t: Tables, p: nat)
    requires t.Valid() && p < t.page.Length
    modifies t.cache
    ensures t.Valid() && !Held(t.cache[..], t.page[..], p)
    ensures t.cache[..] == Without(old(t.cache[..]), t.page[..], p)
  {
    var cachei := t.page[p].cachei;
    if cachei < CACHEPAGES && t.cache[cachei].state != INV {
      t.cache[cachei] := CacheSlot(INV, p, false);
    }
    assert cachei < CACHEPAGES ==> t.cache[cachei] == CacheSlot(INV, p, false);
  }

  /** Where an entry moves a page to this host, the host holds the page. */
  predicate Ready(pid: nat, cache: seq<CacheSlot>, page: seq<PageEntry>, es: seq<Notice>) {
    forall i :: 0 <= i < |es| && Moves(es[i]) && es[i].modifypid == pid ==>
      es[i].page < |page| && (page[es[i].page].homepid != pid ==> Held(cache, page, es[i].page))
  }

  /** What an entry does to the number of free home slots, for a page whose home is `home`. */
  function Change(e: Notice, home: nat, pid: nat): int {
    if !Moves(e) then 0
    else if e.modifypid == pid != home then -1
    else if e.modifypid != pid == home then 1
    else 0
  }

  /** migpage finds a free home slot whenever it looks for one. */
  predicate Fits(es: seq<Notice>, homes: seq<nat>, pid: nat, free: int)
    requires forall i :: 0 <= i < |es| ==> es[i].page < |homes|
  {
    es == [] || (var left := free + Change(es[0], homes[es[0].page], pid); left >= 0 && Fits(es[1..], homes, pid, left))
  }

  function Homepids(page: seq<PageEntry>): (r: seq<nat>)
    ensures |r| == |page| && forall p :: 0 <= p < |page| ==> r[p] == page[p].homepid
  {
    seq(|page|, p requires 0 <= p < |page| => page[p].homepid)
  }

  predicate Sound(es: seq<Notice>, hosts: nat, pages: nat) {
    && (forall i :: 0 <= i < |es| ==> es[i].page < pages && (es[i].modifypid < hosts || es[i].modifypid == MAXHOSTS))
    && (forall i, j :: 0 <= i < j < |es| ==> es[i].page != es[j].page)
  }

  /** Where the entries move the home of page p. */
  function HomeAfter(es: seq<Notice>, p: nat, was: nat): (h: nat) {
    if es == [] then was
    else HomeAfter(es[1..], p, if Moves(es[0]) && es[0].page == p then es[0].modifypid else was)
  }

  /** Whether page q, whose home was `home`, can still be read at host pid after the entries: not if
      another host wrote it and it is homed elsewhere, and as before if no entry concerns it. */
  predicate CopyAfter(es: seq<Notice>, q: nat, pid: nat, home: nat, was: bool, now: bool) {
    if es == [] then now == was
    else if es[0].page != q then CopyAfter(es[1..], q, pid, home, was, now)
    else if es[0].modifypid != pid && home != pid then !now
    else !Moves(es[0]) && es[0].modifypid == pid ==> now == was
  }

  predicate CopiesAfter(pid: nat, homes: seq<nat>, es: seq<Notice>, cache: seq<CacheSlot>, page: seq<PageEntry>,
    cache': seq<CacheSlot>, page': seq<PageEntry>)
  {
    forall q :: 0 <= q < |homes| ==> CopyAfter(es, q, pid, homes[q], Held(cache, page, q), Held(cache', page', q))
  }

  /** One turn of the loop of invalidate, at a barrier with migration on. */
  method HandleNotice(t: Tables, e: Notice)
    requires t.Valid() && e.page < t.page.Length && (e.modifypid < t.hosts || e.modifypid == MAXHOSTS)
    requires Moves(e) && e.modifypid == t.pid != t.page[e.page].homepid ==> Held(t.cache[..], t.page[..], e.page)
    requires Free(t.home[..]) + Change(e, t.page[e.page].homepid, t.pid) >= 0
    modifies t.cache, t.home, t.page
    ensures t.Valid() && OthersKept(old(t.cache[..]), old(t.page[..]), t.cache[..], t.page[..], e.page)
    ensures t.page[e.page].homepid == if Moves(e) then e.modifypid else old(t.page[e.page].homepid)
    ensures Free(t.home[..]) == old(Free(t.home[..])) + Change(e, old(t.page[e.page].homepid), t.pid)
    ensures e.modifypid != t.pid && old(t.page[e.page].homepid) != t.pid ==> !Held(t.cache[..], t.page[..], e.page)
    ensures e.modifypid == t.pid && !Moves(e) ==>
      Held(t.cache[..], t.page[..], e.page) == old(Held(t.cache[..], t.page[..], e.page))
    ensures Noticed(t.pid, e, old(TabOf(t)), TabOf(t))
  {
    var p := e.page;
    if e.modifypid != t.pid && t.page[p].homepid != t.pid {
      Invalidate(t, p);
      InvalidatedKeeps(t.pid, old(t.cache[..]), t.cache[..], t.page[..], p);
    }
    ghost var mid := t.cache[..];
    if e.modifypid != MAXHOSTS && e.mig {
      MigPage(t, p, t.page[p].homepid, e.modifypid);
    }
    KeptTwice(old(t.cache[..]), mid, old(t.page[..]), t.cache[..], t.page[..], p);
  }

  lemma InvalidatedKeeps(pid: nat, cache: seq<CacheSlot>, cache': seq<CacheSlot>, page: seq<PageEntry>, p: nat)
    requires CacheOk(cache, page) && p < |page| && |cache'| == |cache|
    requires forall k :: 0 <= k < |cache| && k != page[p].cachei ==> cache'[k] == cache[k]
    ensures OthersKept(cache, page, cache', page, p)
  {
  }

  lemma KeptTwice(cache: seq<CacheSlot>, mid: seq<CacheSlot>, page: seq<PageEntry>, cache': seq<CacheSlot>,
    page': seq<PageEntry>, p: nat)
    requires OthersKept(cache, page, mid, page, p) && OthersKept(mid, page, cache', page', p)
    ensures OthersKept(cache, page, cache', page', p)
  {
  }

  lemma Tail(es: seq<Notice>, hosts: nat, pages: nat)
    requires es != [] && Sound(es, hosts, pages)
    ensures Sound(es[1..], hosts, pages)
    ensures forall i :: 0 <= i < |es[1..]| ==> es[1..][i] == es[i + 1] && es[1..][i].page != es[0].page
  {
  }

  /** What the entries that are left need at a host whose homes were `homes` before the grant. */
  ghost predicate Expected(pid: nat, hosts: nat, cache: seq<CacheSlot>, page: seq<PageEntry>, es: seq<Notice>, homes: seq<nat>) {
    && |homes| == |page| && Sound(es, hosts, |homes|) && Ready(pid, cache, page, es)
    && forall i :: 0 <= i < |es| ==> page[es[i].page].homepid == homes[es[i].page]
  }

  /** And home slots. */
  ghost predicate Feasible(pid: nat, hosts: nat, cache: seq<CacheSlot>, home: seq<HomeSlot>, page: seq<PageEntry>,
    es: seq<Notice>, homes: seq<nat>)
  {
    Expected(pid, hosts, cache, page, es, homes) && Fits(es, homes, pid, Free(home))
  }

  ghost predicate CanHandle(t: Tables, es: seq<Notice>, homes: seq<nat>)
    reads t.cache, t.home, t.page
  {
    t.Valid() && Feasible(t.pid, t.hosts, t.cache[..], t.home[..], t.page[..], es, homes)
  }

  lemma StillExpected(pid: nat, hosts: nat, cache: seq<CacheSlot>, page: seq<PageEntry>, cache': seq<CacheSlot>,
    page': seq<PageEntry>, es: seq<Notice>, homes: seq<nat>)
    requires es != [] && Expected(pid, hosts, cache, page, es, homes) && OthersKept(cache, page, cache', page', es[0].page)
    ensures Expected(pid, hosts, cache', page', es[1..], homes)
  {
    Tail(es, hosts, |homes|);
  }

  /** When the first entry has been handled, the others still can be. */
  lemma FirstHandled(pid: nat, hosts: nat, cache: seq<CacheSlot>, home: seq<HomeSlot>, page: seq<PageEntry>,
    cache': seq<CacheSlot>, home': seq<HomeSlot>, page': seq<PageEntry>, es: seq<Notice>, homes: seq<nat>)
    requires es != [] && Feasible(pid, hosts, cache, home, page, es, homes)
    requires OthersKept(cache, page, cache', page', es[0].page)
    requires Free(home') == Free(home) + Change(es[0], homes[es[0].page], pid)
    ensures Feasible(pid, hosts, cache', home', page', es[1..], homes)
  {
    StillExpected(pid, hosts, cache, page, cache', page', es, homes);
  }

  /** The first of the entries that are left. */
  method HandleFirst(t: Tables, es: seq<Notice>, ghost homes: seq<nat>)
    requires es != [] && CanHandle(t, es, homes)
    modifies t.cache, t.home, t.page
    ensures CanHandle(t, es[1..], homes) && HomesOnward(es, old(t.page[..]), es[1..], t.page[..])
    ensures Onward(t.pid, homes, es, old(t.cache[..]), old(t.page[..]), es[1..], t.cache[..], t.page[..])
    ensures Noticed(t.pid, es[0], old(TabOf(t)), TabOf(t))
  {
    HandleNotice(t, es[0]);
    FirstHandled(t.pid, t.hosts, old(t.cache[..]), old(t.home[..]), old(t.page[..]),
                 t.cache[..], t.home[..], t.page[..], es, homes);
    FirstHome(old(t.cache[..]), old(t.page[..]), t.cache[..], t.page[..], es);
    FirstCopy(t.pid, t.hosts, old(t.cache[..]), old(t.page[..]), t.cache[..], t.page[..], es, homes);
  }

  lemma FirstNoticed(pid: nat, es: seq<Notice>, a: Tab, m: Tab)
    requires es != [] && Noticed(pid, es[0], a, m)
    ensures forall b :: Handled(pid, es[1..], m, b) ==> Handled(pid, es, a, b)
  {
  }

  /** And where they move the homes. */
  ghost predicate HomesOnward(es: seq<Notice>, page: seq<PageEntry>, left: seq<Notice>, page': seq<PageEntry>) {
    |page'| == |page| && forall p :: 0 <= p < |page| ==> HomeAfter(left, p, page'[p].homepid) == HomeAfter(es, p, page[p].homepid)
  }

  lemma FirstHome(cache: seq<CacheSlot>, page: seq<PageEntry>, cache': seq<CacheSlot>, page': seq<PageEntry>, es: seq<Notice>)
    requires es != [] && es[0].page < |page| && OthersKept(cache, page, cache', page', es[0].page)
    requires page'[es[0].page].homepid == if Moves(es[0]) then es[0].modifypid else page[es[0].page].homepid
    ensures HomesOnward(es, page, es[1..], page')
  {
  }

  /** What the entries that are left do to the copies from here on, all entries do from the start. */
  ghost predicate Onward(pid: nat, homes: seq<nat>, es: seq<Notice>, cache: seq<CacheSlot>, page: seq<PageEntry>,
    left: seq<Notice>, cache': seq<CacheSlot>, page': seq<PageEntry>)
  {
    && |page'| == |page| == |homes|
    && forall q, now :: 0 <= q < |homes| ==>
      (CopyAfter(left, q, pid, homes[q], Held(cache', page', q), now) ==>
       CopyAfter(es, q, pid, homes[q], Held(cache, page, q), now))
  }

  lemma {:induction false} NotNamed(es: seq<Notice>, q: nat, pid: nat, home: nat, was: bool, now: bool)
    requires forall i :: 0 <= i < |es| ==> es[i].page != q
    ensures CopyAfter(es, q, pid, home, was, now) <==> now == was
  {
    if es != [] {
      NotNamed(es[1..], q, pid, home, was, now);
    }
  }

  lemma FirstCopy(pid: nat, hosts: nat, cache: seq<CacheSlot>, page: seq<PageEntry>, cache': seq<CacheSlot>,
    page': seq<PageEntry>, es: seq<Notice>, homes: seq<nat>)
    requires es != [] && |homes| == |page| && Sound(es, hosts, |homes|) && OthersKept(cache, page, cache', page', es[0].page)
    requires var e := es[0];
      && (e.modifypid != pid && homes[e.page] != pid ==> !Held(cache', page', e.page))
      && (e.modifypid == pid && !Moves(e) ==> Held(cache', page', e.page) == Held(cache, page, e.page))
    ensures Onward(pid, homes, es, cache, page, es[1..], cache', page')
  {
    forall q, now | 0 <= q < |page| && CopyAfter(es[1..], q, pid, homes[q], Held(cache', page', q), now)
      ensures CopyAfter(es, q, pid, homes[q], Held(cache, page, q), now)
    {
      if q == es[0].page {
        Tail(es, hosts, |homes|);
        NotNamed(es[1..], q, pid, homes[q], Held(cache', page', q), now);
      }
    }
  }

  // ---------------------------------------------------------------- when a grant goes through

  /** Every entry finds what it needs at its turn. */
  ghost predicate GoesThrough(pid: nat, es: seq<Notice>, a: Tab) { exists b :: Handled(pid, es, a, b) }

  ghost predicate Sane(pid: nat, hosts: nat, a: Tab) {
    pid < hosts <= MAXHOSTS && CacheOk(a.cache, a.page) && HomesOk(pid, hosts, a.home, a.page)
  }

  lemma CopyKeptKeeps(p: nat, written: bool, cache: seq<CacheSlot>, page: seq<PageEntry>, cache': seq<CacheSlot>, page': seq<PageEntry>)
    requires CacheOk(cache, page) && p < |page| && page[p].cachei >= CACHEPAGES && CopyKept(p, written, cache, page, cache', page')
    ensures CacheOk(cache', page') && OthersKept(cache, page, cache', page', p)
  {
  }

  lemma HomesDropped(pid: nat, hosts: nat, home: seq<HomeSlot>, page: seq<PageEntry>, page': seq<PageEntry>, p: nat)
    requires HomesOk(pid, hosts, home, page) && p < |page| == |page'| && page[p].homepid == pid != page'[p].homepid < hosts
    requires forall q :: 0 <= q < |page| && q != p ==> page'[q].homepid == page[q].homepid && page'[q].homei == page[q].homei
    requires forall q :: 0 <= q < |page| && q != p && page'[q].cachei < CACHEPAGES ==> page[q].cachei < CACHEPAGES
    ensures HomesOk(pid, hosts, home[page[p].homei := HomeSlot(Null, false, false, false)], page')
  {
    HomeDropped(pid, home, page, page', p);
  }

  /** What one entry leaves: sane tables, and no other page touched. */
  ghost predicate Kept(pid: nat, hosts: nat, p: nat, a: Tab, b: Tab) {
    Sane(pid, hosts, b) && OthersKept(a.cache, a.page, b.cache, b.page, p)
  }

  lemma MovedHereKeeps(pid: nat, hosts: nat, p: nat, a: Tab, b: Tab)
    requires Sane(pid, hosts, a) && MovedHere(pid, p, a, b) && a.page[p].homepid != pid
    ensures Kept(pid, hosts, p, a, b) && Free(b.home) == Free(a.home) - 1
  {
    var i := b.page[p].homei;
    FreeUpdate(a.home, i, b.home[i]);
    MovedIn(pid, hosts, a.cache, a.home, a.page, p, i, b.home[i]);
  }

  lemma MovedAwayKeeps(pid: nat, hosts: nat, p: nat, to: nat, a: Tab, b: Tab)
    requires Sane(pid, hosts, a) && MovedAway(p, to, a, b) && a.page[p].homepid == pid != to < hosts
    ensures Kept(pid, hosts, p, a, b) && Free(b.home) == Free(a.home) + 1
  {
    FreeUpdate(a.home, a.page[p].homei, HomeSlot(Null, false, false, false));
    CopyKeptKeeps(p, a.home[a.page[p].homei].written, a.cache, a.page, b.cache, b.page);
    HomesDropped(pid, hosts, a.home, a.page, b.page, p);
  }

  /** One home slot more or less is free if the page moved. */
  lemma NoticedKeeps(pid: nat, hosts: nat, e: Notice, a: Tab, b: Tab)
    requires Sane(pid, hosts, a) && Noticed(pid, e, a, b) && (e.modifypid < hosts || e.modifypid == MAXHOSTS)
    ensures Kept(pid, hosts, e.page, a, b) && Free(b.home) == Free(a.home) + Change(e, a.page[e.page].homepid, pid)
  {
    var h := a.page[e.page].homepid;
    if Moves(e) && e.modifypid == pid != h {
      MovedHereKeeps(pid, hosts, e.page, a, b);
    } else if Moves(e) && e.modifypid != pid == h {
      MovedAwayKeeps(pid, hosts, e.page, e.modifypid, a, b);
    } else {
      InvalidatedKeeps(pid, a.cache, b.cache, a.page, e.page);
    }
  }

  lemma {:induction false} FirstEmpty(home: seq<HomeSlot>) returns (i: nat)
    requires Free(home) > 0
    ensures i < |home| && home[i].addr == Null && forall j :: 0 <= j < i ==> home[j].addr != Null
  {
    var n := |home| - 1;
    if Free(home[..n]) > 0 {
      i := FirstEmpty(home[..n]);
    } else {
      FreeExists(home[..n]);
      i := n;
    }
  }

  lemma {:induction false} FirstFree(cache: seq<CacheSlot>, k: nat) returns (i: nat)
    requires k < |cache| && FreeSlot(cache[k])
    ensures i < |cache| && FreeSlot(cache[i]) && forall j :: 0 <= j < i ==> !FreeSlot(cache[j])
    decreases k
  {
    if j: nat :| j < k && FreeSlot(cache[j]) {
      i := FirstFree(cache, j);
    } else {
      i := k;
    }
  }

  lemma CopyPossible(p: nat, written: bool, to: nat, cache: seq<CacheSlot>, page: seq<PageEntry>)
    returns (cache': seq<CacheSlot>, page': seq<PageEntry>)
    requires p < |page|
    ensures CopyKept(p, written, cache, page, cache', page') && page'[p].homepid == to && page'[p].homei == HOMEPAGES
  {
    if Room(cache) {
      var n :| 0 <= n < |cache| && FreeSlot(cache[n]);
      var k := FirstFree(cache, n);
      cache' := cache[k := CacheSlot(RO, p, written)];
      page' := seq(|page|, q requires 0 <= q < |page| =>
        if q == p then PageEntry(to, HOMEPAGES, k)
        else if cache[k].state == INV && cache[k].addr == q then page[q].(cachei := CACHEPAGES) else page[q]);
    } else {
      cache', page' := cache, page[p := PageEntry(to, HOMEPAGES, page[p].cachei)];
    }
  }

  /** The first entry finds what it needs if there is a home slot for it. */
  lemma NoticePossible(pid: nat, hosts: nat, e: Notice, a: Tab) returns (b: Tab)
    requires Sane(pid, hosts, a) && e.page < |a.page|
    requires Moves(e) && e.modifypid == pid != a.page[e.page].homepid ==> Held(a.cache, a.page, e.page) && Free(a.home) > 0
    ensures Noticed(pid, e, a, b)
  {
    var p, h := e.page, a.page[e.page].homepid;
    if Moves(e) && e.modifypid == pid != h {
      var k := a.page[p].cachei;
      var i := FirstEmpty(a.home);
      b := Tab(a.cache[k := CacheSlot(UNMAP, 0, false)], a.home[i := HomeSlot(Addr(p), a.cache[k].wtnt, true, true)],
               a.page[p := PageEntry(pid, i, CACHEPAGES)]);
    } else if Moves(e) && e.modifypid != pid == h {
      var i := a.page[p].homei;
      var cache, page := CopyPossible(p, a.home[i].written, e.modifypid, a.cache, a.page);
      b := Tab(cache, a.home[i := HomeSlot(Null, false, false, false)], page);
    } else {
      b := Tab(if e.modifypid != pid && h != pid then Without(a.cache, a.page, p) else a.cache, a.home,
               if Moves(e) then a.page[p := a.page[p].(homepid := e.modifypid)] else a.page);
    }
  }

  /** So a grant goes through exactly if counting the free home slots from entry to entry never goes wrong. */
  lemma {:induction false} FitsIff(pid: nat, hosts: nat, es: seq<Notice>, a: Tab, homes: seq<nat>)
    requires Sane(pid, hosts, a) && Expected(pid, hosts, a.cache, a.page, es, homes)
    ensures GoesThrough(pid, es, a) <==> Fits(es, homes, pid, Free(a.home))
    decreases |es|
  {
    if es == [] {
      assert Handled(pid, es, a, a);
    } else {
      if Fits(es, homes, pid, Free(a.home)) {
        var m := NoticePossible(pid, hosts, es[0], a);
        RestFits(pid, hosts, es, a, m, homes);
        FitsIff(pid, hosts, es[1..], m, homes);
        var b :| Handled(pid, es[1..], m, b);
        assert Handled(pid, es, a, b);
      }
      if GoesThrough(pid, es, a) {
        var b :| Handled(pid, es, a, b);
        var m :| Noticed(pid, es[0], a, m) && Handled(pid, es[1..], m, b);
        RestFits(pid, hosts, es, a, m, homes);
        FitsIff(pid, hosts, es[1..], m, homes);
      }
    }
  }

  lemma FitsStep(es: seq<Notice>, homes: seq<nat>, pid: nat, free: nat, left: nat)
    requires es != [] && (forall i :: 0 <= i < |es| ==> es[i].page < |homes|)
    requires left == free + Change(es[0], homes[es[0].page], pid)
    ensures Fits(es, homes, pid, free) <==> Fits(es[1..], homes, pid, left)
  {
  }

  lemma RestFits(pid: nat, hosts: nat, es: seq<Notice>, a: Tab, m: Tab, homes: seq<nat>)
    requires es != [] && Sane(pid, hosts, a) && Expected(pid, hosts, a.cache, a.page, es, homes) && Noticed(pid, es[0], a, m)
    ensures Sane(pid, hosts, m) && Expected(pid, hosts, m.cache, m.page, es[1..], homes)
    ensures Fits(es, homes, pid, Free(a.home)) <==> Fits(es[1..], homes, pid, Free(m.home))
  {
    var e := es[0];
    assert (e.modifypid < hosts || e.modifypid == MAXHOSTS) && a.page[e.page].homepid == homes[e.page];
    NoticedKeeps(pid, hosts, e, a, m);
    FitsStep(es, homes, pid, Free(a.home), Free(m.home));
    StillExpected(pid, hosts, a.cache, a.page, m.cache, m.page, es, homes);
  }

  /** invalidate, over a whole grant: the tables stay consistent, the home of every page is where the
      entries put it, and no copy that another host wrote can be read any more. */
  method HandleGrant(t: Tables, es: seq<Notice>)
    requires CanHandle(t, es, Homepids(t.page[..]))
    modifies t.cache, t.home, t.page
    ensures t.Valid()
    ensures forall p :: 0 <= p < t.page.Length ==> t.page[p].homepid == HomeAfter(es, p, old(t.page[p].homepid))
    ensures CopiesAfter(t.pid, old(Homepids(t.page[..])), es, old(t.cache[..]), old(t.page[..]), t.cache[..], t.page[..])
    ensures Handled(t.pid, es, old(TabOf(t)), TabOf(t))
  {
    var left := es;
    ghost var homes := Homepids(t.page[..]);
    while left != []
      invariant CanHandle(t, left, homes)
      invariant HomesOnward(es, old(t.page[..]), left, t.page[..])
      invariant Onward(t.pid, homes, es, old(t.cache[..]), old(t.page[..]), left, t.cache[..], t.page[..])
      invariant forall b :: Handled(t.pid, left, TabOf(t), b) ==> Handled(t.pid, es, old(TabOf(t)), b)
    {
      ghost var was := TabOf(t);
      HandleFirst(t, left, homes);
      FirstNoticed(t.pid, left, was, TabOf(t));
      left := left[1..];
    }
  }

  // ---------------------------------------------------------------- migarrangehome

  /** The occupied slots, in order. */
  function Occupied(home: seq<HomeSlot>): (r: seq<HomeSlot>)
    ensures |r| == |home| - Free(home)
  {
    if home == [] then []
    else Occupied(home[..|home| - 1]) + if home[|home| - 1].addr == Null then [] else [home[|home| - 1]]
  }

  /** Empty slots at the end do not count. */
  lemma {:induction false} OccupiedBefore(a: seq<HomeSlot>, n: nat)
    requires n <= |a| && forall k :: n <= k < |a| ==> a[k].addr == Null
    ensures Occupied(a) == Occupied(a[..n])
    decreases |a|
  {
    if n == |a| {
      assert a[..n] == a;
    } else {
      OccupiedBefore(a[..|a| - 1], n);
      assert a[..|a| - 1][..n] == a[..n];
    }
  }

  lemma {:induction false} OccupiedAll(a: seq<HomeSlot>)
    requires forall k :: 0 <= k < |a| ==> a[k].addr != Null
    ensures Occupied(a) == a
  {
    if a != [] {
      OccupiedAll(a[..|a| - 1]);
    }
  }

  /** r is home with the entry of slot j moved down, over empty slots, to slot i. */
  ghost predicate MovedDown(home: seq<HomeSlot>, r: seq<HomeSlot>, i: nat, j: nat) {
    && i < j < |home| == |r| && home[j].addr != Null && r[i] == home[j] && r[j].addr == Null
    && (forall k :: i <= k < j ==> home[k].addr == Null)
    && (forall k :: 0 <= k < |home| && k != i && k != j ==> r[k] == home[k])
  }

  lemma OccupiedSnoc(a: seq<HomeSlot>, x: HomeSlot)
    ensures Occupied(a + [x]) == Occupied(a) + if x.addr == Null then [] else [x]
  {
    assert (a + [x])[..|a|] == a;
  }

  lemma MovedLast(home: seq<HomeSlot>, r: seq<HomeSlot>, i: nat, j: nat)
    requires MovedDown(home, r, i, j) && j == |home| - 1
    ensures Occupied(r) == Occupied(home)
  {
    var front, x := home[..i], home[j];
    assert home == home[..j] + [x] && home[..j][..i] == front;
    OccupiedSnoc(home[..j], x);
    OccupiedBefore(home[..j], i);
    assert r[..i + 1] == front + [x];
    OccupiedSnoc(front, x);
    OccupiedBefore(r, i + 1);
  }

  /** Moving an entry down leaves the list of entries as it is. */
  lemma {:induction false} OccupiedMoved(home: seq<HomeSlot>, r: seq<HomeSlot>, i: nat, j: nat)
    requires MovedDown(home, r, i, j)
    ensures Occupied(r) == Occupied(home)
    decreases |home|
  {
    var n := |home| - 1;
    if j < n {
      assert MovedDown(home[..n], r[..n], i, j);
      OccupiedMoved(home[..n], r[..n], i, j);
    } else {
      MovedLast(home, r, i, j);
    }
  }

  lemma MovedOk(pid: nat, hosts: nat, home: seq<HomeSlot>, page: seq<PageEntry>, r: seq<HomeSlot>, i: nat, j: nat)
    requires HomesOk(pid, hosts, home, page) && MovedDown(home, r, i, j)
    ensures var p := home[j].addr.page;
      p < |page| && page[p].homepid == pid && HomesOk(pid, hosts, r, page[p := page[p].(homei := i)])
  {
  }

  /** The inner loop of migarrangehome: the next occupied slot, or HOMEPAGES. */
  method NextOccupied(t: Tables, from: nat) returns (homei: nat)
    requires t.Valid() && from <= HOMEPAGES
    ensures from <= homei <= HOMEPAGES && forall k :: from <= k < homei ==> t.home[k].addr == Null
    ensures homei < HOMEPAGES ==> t.home[homei].addr != Null
  {
    homei := from;
    while homei < HOMEPAGES && t.home[homei].addr == Null
      invariant from <= homei <= HOMEPAGES && forall k :: from <= k < homei ==> t.home[k].addr == Null
    {
      homei := homei + 1;
    }
  }

  /** The entry in slot j moves down to the empty slot i. */
  method MoveEntry(t: Tables, i: nat, j: nat)
    requires t.Valid() && i < j < HOMEPAGES && t.home[j].addr != Null
    requires forall k :: i <= k < j ==> t.home[k].addr == Null
    modifies t.home, t.page
    ensures t.Valid() && Occupied(t.home[..]) == old(Occupied(t.home[..]))
    ensures t.home[i] == old(t.home[j]) && forall k :: 0 <= k < i ==> t.home[k] == old(t.home[k])
    ensures OnlyHomeIndexes(t)
  {
    var p := t.home[..][j].addr.page;
    ghost var was := t.home[..];
    t.home[i] := t.home[j];
    t.home[j] := t.home[j].(addr := Null);
    assert MovedDown(was, t.home[..], i, j);
    OccupiedMoved(was, t.home[..], i, j);
    MovedOk(t.pid, t.hosts, was, t.page[..], t.home[..], i, j);
    t.page[p] := t.page[p].(homei := i);
    assert t.page[..] == old(t.page[..])[p := old(t.page[p]).(homei := i)];
    CacheKept(t.cache[..], old(t.page[..]), t.page[..]);
  }

  lemma CacheKept(cache: seq<CacheSlot>, page: seq<PageEntry>, page': seq<PageEntry>)
    requires CacheOk(cache, page) && |page'| == |page| && forall q :: 0 <= q < |page| ==> page'[q].cachei == page[q].cachei
    ensures CacheOk(cache, page')
  {
  }

  /** No page changes its home or its cache slot. */
  twostate predicate OnlyHomeIndexes(t: Tables)
    reads t.page
  {
    forall p :: 0 <= p < t.page.Length ==>
      t.page[p].homepid == old(t.page[p].homepid) && t.page[p].cachei == old(t.page[p].cachei)
  }

  /** The first n slots, and no others below m, are occupied. */
  ghost predicate Dense(home: seq<HomeSlot>, n: nat, m: nat) {
    && n <= m <= |home| && (forall k :: 0 <= k < n ==> home[k].addr != Null)
    && (forall k :: n <= k < m ==> home[k].addr == Null)
  }

  /** One turn of the outer loop. */
  method ArrangeSlot(t: Tables, i: nat) returns (end: bool)
    requires t.Valid() && i < HOMEPAGES && Dense(t.home[..], i, i)
    modifies t.home, t.page
    ensures t.Valid() && Occupied(t.home[..]) == old(Occupied(t.home[..])) && OnlyHomeIndexes(t)
    ensures if end then Dense(t.home[..], i, HOMEPAGES) else Dense(t.home[..], i + 1, i + 1)
  {
    end := false;
    if t.home[i].addr == Null {
      var homei := NextOccupied(t, i + 1);
      if homei < HOMEPAGES {
        MoveEntry(t, i, homei);
      } else {
        end := true;
      }
    }
    if !end { DenseMore(t.home[..], i); }
  }

  lemma DenseMore(home: seq<HomeSlot>, i: nat)
    requires i < |home| && (forall k :: 0 <= k < i ==> home[k].addr != Null) && home[i].addr != Null
    ensures Dense(home, i + 1, i + 1)
  {
  }

  /** migarrangehome: the entries keep their order and end up in a dense prefix of home[], page[]
      follows, and homesize is their number, except that it is one short when home[] is full. */
  method MigArrangeHome(t: Tables)
    requires t.Valid()
    modifies t.homesize, t.home, t.page
    ensures t.Valid() && OnlyHomeIndexes(t) && Occupied(t.home[..]) == old(Occupied(t.home[..]))
    ensures var entries := old(Occupied(t.home[..]));
      && |entries| <= HOMEPAGES && t.home[..|entries|] == entries
      && Dense(t.home[..], |entries|, HOMEPAGES)
      && t.homesize[t.pid] == if |entries| == HOMEPAGES then HOMEPAGES - 1 else |entries|
  {
    var i, end := 0, false;
    while i < HOMEPAGES && !end
      invariant i <= HOMEPAGES && t.Valid() && Occupied(t.home[..]) == old(Occupied(t.home[..])) && OnlyHomeIndexes(t)
      invariant if end then i > 0 && Dense(t.home[..], i - 1, HOMEPAGES) else Dense(t.home[..], i, i)
    {
      end := ArrangeSlot(t, i);
      i := i + 1;
    }
    DensePrefix(t.home[..], if end then i - 1 else i);
    t.homesize[t.pid] := i - 1;
  }

  lemma DensePrefix(home: seq<HomeSlot>, n: nat)
    requires Dense(home, n, |home|)
    ensures Occupied(home) == home[..n]
  {
    OccupiedBefore(home, n);
    OccupiedAll(home[..n]);
  }
}
