/** jia_alloc3: every host lays out the same home map, block by block round the hosts, and the pages
    homed here fill home[] from the front. */
module Allocation {
  import opened HostTables
  import opened RingMask

  function NextHost(h: nat, hostc: nat): (r: nat)
    requires h < hostc
    ensures r < hostc
  {
    if h + 1 == hostc then 0 else h + 1
  }

  /** home[] is a dense prefix whose length is this host's homesize. */
  ghost predicate Packed(home: seq<HomeSlot>, size: nat) {
    size <= |home| && forall i :: 0 <= i < |home| ==> (home[i].addr.Addr? <==> i < size)
  }

  /** The tables are consistent and nothing from page g on is in use. */
  ghost predicate Ready(t: Tables, g: nat)
    reads t.cache, t.home, t.page, t.homesize
  {
    t.Shape() && Consistent(t.pid, t.hosts, t.cache[..], t.home[..], t.page[..], t.homesize[t.pid], g)
  }

  ghost predicate Consistent(pid: nat, hosts: nat, cache: seq<CacheSlot>, home: seq<HomeSlot>, page: seq<PageEntry>,
    size: nat, g: nat)
  {
    && CacheOk(cache, page) && HomeOk(pid, home, page) && Packed(home, size) && g <= |page|
    && (forall p :: 0 <= p < |page| ==> page[p].homepid < hosts || page[p].homepid == MAXHOSTS)
    && (forall p :: 0 <= p < |page| && page[p].homepid == pid ==> page[p].cachei >= CACHEPAGES)
    && (forall p :: g <= p < |page| ==> page[p].homepid == MAXHOSTS && page[p].cachei >= CACHEPAGES)
  }

  lemma ReadyIsValid(t: Tables, g: nat)
    requires Ready(t, g)
    ensures t.Valid()
  {
    assert forall p :: 0 <= p < t.page.Length ==> t.page[p] == t.page[..][p];
  }

  // ---------------------------------------------------------------- one block

  /** home[] after n pages from g on have been put behind the first `size` entries. */
  ghost predicate Extended(home: seq<HomeSlot>, home': seq<HomeSlot>, size: nat, g: nat, n: nat) {
    && size + n <= |home| == |home'|
    && (forall i :: 0 <= i < |home| ==>
      home'[i] == if size <= i < size + n then home[i].(addr := Addr(g + i - size)) else home[i])
  }

  /** page[] after those pages have been given to host h; on h itself they have their slots. */
  ghost predicate Given(page: seq<PageEntry>, page': seq<PageEntry>, g: nat, n: nat, h: nat, own: bool, size: nat) {
    && g + n <= |page| == |page'|
    && (forall p :: 0 <= p < |page| ==>
      page'[p] == if g <= p < g + n
        then PageEntry(h, if own then size + p - g else page[p].homei, page[p].cachei) else page[p])
  }

  lemma BlockOk(pid: nat, home: seq<HomeSlot>, page: seq<PageEntry>, home': seq<HomeSlot>, page': seq<PageEntry>,
    size: nat, g: nat, n: nat, h: nat)
    requires HomeOk(pid, home, page) && Packed(home, size) && pid < MAXHOSTS
    requires forall p :: g <= p < |page| ==> page[p].homepid == MAXHOSTS
    requires Given(page, page', g, n, h, h == pid, size)
    requires if h == pid then Extended(home, home', size, g, n) else home' == home
    ensures HomeOk(pid, home', page') && Packed(home', if h == pid then size + n else size)
  {
  }

  ghost predicate Indexed(page: seq<PageEntry>, page': seq<PageEntry>, g: nat, n: nat, size: nat) {
    && |page| == |page'|
    && (forall p :: 0 <= p < |page| ==>
      page'[p] == if g <= p < g + n then page[p].(homei := size + p - g) else page[p])
  }

  ghost predicate Homed(page: seq<PageEntry>, page': seq<PageEntry>, g: nat, n: nat, h: nat) {
    && |page| == |page'|
    && (forall p :: 0 <= p < |page| ==> page'[p] == if g <= p < g + n then page[p].(homepid := h) else page[p])
  }

  /** The slots and indexes of a block on its own host. */
  method FillHome(t: Tables, g: nat, n: nat)
    requires t.Shape() && g + n <= t.page.Length && t.homesize[t.pid] + n <= HOMEPAGES
    modifies t.home, t.page
    ensures Extended(old(t.home[..]), t.home[..], t.homesize[t.pid], g, n)
    ensures Indexed(old(t.page[..]), t.page[..], g, n, t.homesize[t.pid])
  {
    var size := t.homesize[t.pid];
    for i := 0 to n
      invariant Extended(old(t.home[..]), t.home[..], size, g, i)
      invariant Indexed(old(t.page[..]), t.page[..], g, i, size)
    {
      t.home[size + i] := t.home[size + i].(addr := Addr(g + i));
      t.page[g + i] := t.page[g + i].(homei := size + i);
    }
  }

  /** The home host of a block, on every host. */
  method SetHome(t: Tables, g: nat, n: nat, h: nat)
    requires g + n <= t.page.Length
    modifies t.page
    ensures Homed(old(t.page[..]), t.page[..], g, n, h)
  {
    for i := 0 to n
      invariant Homed(old(t.page[..]), t.page[..], g, i, h)
    {
      t.page[g + i] := t.page[g + i].(homepid := h);
    }
  }

  lemma BlockGiven(page: seq<PageEntry>, mid: seq<PageEntry>, page': seq<PageEntry>, g: nat, n: nat, h: nat,
    own: bool, size: nat)
    requires g + n <= |page| && (if own then Indexed(page, mid, g, n, size) else mid == page)
    requires Homed(mid, page', g, n, h)
    ensures Given(page, page', g, n, h, own, size)
  {
  }

  lemma BlockConsistent(pid: nat, hosts: nat, cache: seq<CacheSlot>, home: seq<HomeSlot>, page: seq<PageEntry>,
    home': seq<HomeSlot>, page': seq<PageEntry>, size: nat, g: nat, n: nat, h: nat)
    requires Consistent(pid, hosts, cache, home, page, size, g) && pid < hosts <= MAXHOSTS && h < hosts
    requires Given(page, page', g, n, h, h == pid, size)
    requires if h == pid then Extended(home, home', size, g, n) else home' == home
    ensures Consistent(pid, hosts, cache, home', page', if h == pid then size + n else size, g + n)
  {
    BlockOk(pid, home, page, home', page', size, g, n, h);
    BlockCache(cache, page, page', g, n, h, h == pid, size);
  }

  /** One turn of the allocation loop: a block of n pages for host h. */
  method AllocBlock(t: Tables, g: nat, n: nat, h: nat)
    requires Ready(t, g) && h < t.hosts && g + n <= t.page.Length && (h == t.pid ==> t.homesize[h] + n < HOMEPAGES)
    modifies t.home, t.page, t.homesize
    ensures Ready(t, g + n)
    ensures Given(old(t.page[..]), t.page[..], g, n, h, h == t.pid, old(t.homesize[t.pid]))
    ensures t.homesize[..] == old(t.homesize[..])[h := old(t.homesize[h]) + n]
  {
    ghost var size := t.homesize[t.pid];
    if t.pid == h {
      FillHome(t, g, n);
    }
    ghost var mid := t.page[..];
    SetHome(t, g, n, h);
    BlockGiven(old(t.page[..]), mid, t.page[..], g, n, h, h == t.pid, size);
    BlockConsistent(t.pid, t.hosts, t.cache[..], old(t.home[..]), old(t.page[..]), t.home[..], t.page[..], size, g, n, h);
    t.homesize[h] := t.homesize[h] + n;
  }

  lemma BlockCache(cache: seq<CacheSlot>, page: seq<PageEntry>, page': seq<PageEntry>, g: nat, n: nat, h: nat,
    own: bool, size: nat)
    requires CacheOk(cache, page) && Given(page, page', g, n, h, own, size)
    ensures CacheOk(cache, page')
  {
  }

  // ---------------------------------------------------------------- the allocators

  /** The homes of the pages from g on, up to but not including `end`. */
  ghost predicate LaidOut(page: seq<PageEntry>, g: nat, end: nat, homes: seq<nat>) {
    && g + |homes| == end <= |page| && forall k :: 0 <= k < |homes| ==> page[g + k].homepid == homes[k]
  }

  function Block(n: nat, h: nat): (r: seq<nat>)
    ensures |r| == n && forall k :: 0 <= k < n ==> r[k] == h
  {
    seq(n, _ => h)
  }

  /** The homes that alloc3 gives to the pages until `left` pages are covered. */
  function RoundRobin(left: nat, b: nat, h: nat, hostc: nat): (r: seq<nat>)
    requires b > 0 && h < hostc
  {
    if left == 0 then [] else Block(b, h) + RoundRobin(if left > b then left - b else 0, b, NextHost(h, hostc), hostc)
  }

  lemma NextBlock(k: nat, b: nat, h: nat, hostc: nat)
    requires b > 0 && h < hostc && k >= b
    ensures (NextHost(h, hostc) + (k - b) / b) % hostc == (h + k / b) % hostc
  {
    OneBlockLess(k, b);
    var m := (k - b) / b;
    if h + 1 == hostc {
      OneTurnLess(m + hostc, hostc);
    }
  }

  lemma FirstBlock(k: nat, b: nat, h: nat, hostc: nat)
    requires k < b && h < hostc
    ensures (h + k / b) % hostc == h
  {
    assert k / b == 0;
  }

  lemma OneBlockLess(k: nat, b: nat)
    requires b > 0 && k >= b
    ensures (k - b) / b == k / b - 1
  {
    var p, q := (k - b) / b, k / b;
    assert (p + 1) * b == p * b + b;
    SameQuotient(p + 1, q, b, (k - b) % b, k % b);
  }

  lemma OneTurnLess(n: nat, hostc: nat)
    requires hostc > 0 && n >= hostc
    ensures n % hostc == (n - hostc) % hostc
  {
    var q := (n - hostc) / hostc;
    assert (q + 1) * hostc == q * hostc + hostc;
    RemainderIs(n, hostc, q + 1, (n - hostc) % hostc);
  }

  /** The home of the k-th page, block by block. */
  function Owner(k: nat, b: nat, h: nat, hostc: nat): (r: nat)
    requires b > 0 && h < hostc
  {
    if k < b then h else Owner(k - b, b, NextHost(h, hostc), hostc)
  }

  lemma {:induction false} OwnerIs(k: nat, b: nat, h: nat, hostc: nat)
    requires b > 0 && h < hostc
    ensures Owner(k, b, h, hostc) == (h + k / b) % hostc
    decreases k
  {
    if k < b {
      FirstBlock(k, b, h, hostc);
    } else {
      OwnerIs(k - b, b, NextHost(h, hostc), hostc);
      NextBlock(k, b, h, hostc);
    }
  }

  lemma {:induction false} RoundRobinOwner(left: nat, b: nat, h: nat, hostc: nat, k: nat)
    requires b > 0 && h < hostc && k < |RoundRobin(left, b, h, hostc)|
    ensures RoundRobin(left, b, h, hostc)[k] == Owner(k, b, h, hostc)
    decreases left
  {
    if k >= b {
      RoundRobinOwner(if left > b then left - b else 0, b, NextHost(h, hostc), hostc, k - b);
    }
  }

  /** The k-th page is in block k / b, and the blocks go to the hosts in turn. */
  lemma RoundRobinAt(left: nat, b: nat, h: nat, hostc: nat, k: nat)
    requires b > 0 && h < hostc && k < |RoundRobin(left, b, h, hostc)|
    ensures RoundRobin(left, b, h, hostc)[k] == (h + k / b) % hostc
  {
    RoundRobinOwner(left, b, h, hostc, k);
    OwnerIs(k, b, h, hostc);
  }

  lemma {:induction false} RoundRobinCovers(left: nat, b: nat, h: nat, hostc: nat)
    requires b > 0 && h < hostc
    ensures left <= |RoundRobin(left, b, h, hostc)| < left + b
    decreases left
  {
    if left > 0 {
      RoundRobinCovers(if left > b then left - b else 0, b, NextHost(h, hostc), hostc);
    }
  }

  /** The pages that this host gets. */
  function Own(homes: seq<nat>, pid: nat): (n: nat) { multiset(homes)[pid] }

  lemma {:induction false} OwnBlock(n: nat, h: nat, pid: nat)
    ensures Own(Block(n, h), pid) == if h == pid then n else 0
  {
    if n > 0 {
      OwnBlock(n - 1, h, pid);
      assert Block(n, h) == Block(n - 1, h) + [h];
    }
  }

  lemma OwnConcat(a: seq<nat>, b: seq<nat>, pid: nat)
    ensures Own(a + b, pid) == Own(a, pid) + Own(b, pid)
  {
  }

  lemma OwnTurn(homes: seq<nat>, left: nat, b: nat, h: nat, hostc: nat, pid: nat)
    requires left > 0 && b > 0 && h < hostc
    ensures Own(homes + Block(b, h), pid) == Own(homes, pid) + if h == pid then b else 0
    ensures Own(homes + RoundRobin(left, b, h, hostc), pid) >= Own(homes, pid) + if h == pid then b else 0
  {
    var rest := RoundRobin(if left > b then left - b else 0, b, NextHost(h, hostc), hostc);
    OwnBlock(b, h, pid);
    OwnConcat(homes, Block(b, h), pid);
    OwnConcat(Block(b, h), rest, pid);
    OwnConcat(homes, RoundRobin(left, b, h, hostc), pid);
  }

  lemma NextTurn(homes: seq<nat>, left: nat, b: nat, h: nat, hostc: nat)
    requires left > 0 && b > 0 && h < hostc
    ensures homes + RoundRobin(left, b, h, hostc)
      == homes + Block(b, h) + RoundRobin(if left > b then left - b else 0, b, NextHost(h, hostc), hostc)
  {
    var rest := RoundRobin(if left > b then left - b else 0, b, NextHost(h, hostc), hostc);
    assert homes + (Block(b, h) + rest) == homes + Block(b, h) + rest;
  }

  lemma LaidOutMore(page: seq<PageEntry>, page': seq<PageEntry>, g: nat, end: nat, homes: seq<nat>, n: nat, h: nat,
    own: bool, size: nat)
    requires LaidOut(page, g, end, homes) && Given(page, page', end, n, h, own, size)
    ensures LaidOut(page', g, end + n, homes + Block(n, h))
  {
  }

  method AllocTurn(t: Tables, g: nat, end: nat, b: nat, h: nat, ghost homes: seq<nat>) returns (end': nat)
    requires Ready(t, end) && h < t.hosts && end + b <= t.page.Length && (h == t.pid ==> t.homesize[h] + b < HOMEPAGES)
    requires LaidOut(t.page[..], g, end, homes)
    modifies t.home, t.page, t.homesize
    ensures Ready(t, end') && end' == end + b
    ensures LaidOut(t.page[..], g, end', homes + Block(b, h)) && t.page[..g] == old(t.page[..g])
    ensures t.homesize[..] == old(t.homesize[..])[h := old(t.homesize[h]) + b]
  {
    ghost var was, size := t.page[..], t.homesize[t.pid];
    AllocBlock(t, end, b, h);
    LaidOutMore(was, t.page[..], g, end, homes, b, h, h == t.pid, size);
    end' := end + b;
    assert t.page[..g] == was[..g];
  }

  /** jia_alloc3: total pages in blocks of b pages, from starthost on; end is the new globaladdr.  The
      assertion on this host's home pages fails exactly if this host's own blocks do not fit. */
  method Alloc3(t: Tables, globaladdr: nat, total: nat, b: nat, starthost: nat) returns (ok: bool, end: nat)
    requires Ready(t, globaladdr) && b > 0 && starthost < t.hosts
    requires globaladdr + |RoundRobin(total, b, starthost, t.hosts)| <= t.page.Length
    modifies t.home, t.page, t.homesize
    ensures var own := Own(RoundRobin(total, b, starthost, t.hosts), t.pid);
      ok <==> own == 0 || old(t.homesize[t.pid]) + own < HOMEPAGES
    ensures ok ==> t.Valid() && Ready(t, end)
    ensures ok ==> LaidOut(t.page[..], globaladdr, end, RoundRobin(total, b, starthost, t.hosts))
    ensures ok ==> t.homesize[t.pid] == old(t.homesize[t.pid]) + Own(RoundRobin(total, b, starthost, t.hosts), t.pid)
    ensures t.page[..globaladdr] == old(t.page[..globaladdr])
  {
    var homepid: nat, left: nat := starthost, total;
    ok, end := true, globaladdr;
    ghost var homes: seq<nat>, all, size := [], RoundRobin(total, b, starthost, t.hosts), t.homesize[t.pid];
    while left > 0
      invariant ok && homepid < t.hosts && Ready(t, end) && LaidOut(t.page[..], globaladdr, end, homes)
      invariant all == homes + RoundRobin(left, b, homepid, t.hosts)
      invariant t.homesize[t.pid] == size + Own(homes, t.pid) && (Own(homes, t.pid) == 0 || size + Own(homes, t.pid) < HOMEPAGES)
      invariant t.page[..globaladdr] == old(t.page[..globaladdr])
    {
      OwnTurn(homes, left, b, homepid, t.hosts, t.pid);
      NextTurn(homes, left, b, homepid, t.hosts);
      if t.pid == homepid && t.homesize[homepid] + b >= HOMEPAGES {
        ok := false;
        return;
      }
      end := AllocTurn(t, globaladdr, end, b, homepid, homes);
      homes := homes + Block(b, homepid);
      left := if left > b then left - b else 0;
      homepid := NextHost(homepid, t.hosts);
    }
    assert homes + [] == homes;
    ReadyIsValid(t, end);
  }
}
