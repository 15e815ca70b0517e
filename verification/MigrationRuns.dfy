/** Home migration on all hosts together, over any number of barriers, with faults and invalidations in
    between: the manager's list is always one that every host can act on, and all hosts always agree on
    one home per page. */
module MigrationRuns {
  import opened HostTables
  import opened Migration
  import N = Notices
  import L = NoticeLog
  import S = NoticeStream
  import opened Seqs

  // ---------------------------------------------------------------- the granted list

  /** The reports as the manager records them: the lists of the hosts, in order of arrival. */
  function History(lists: seq<seq<N.Entry>>, order: seq<nat>, scope: int): (hist: seq<N.Entry>)
    requires forall i :: 0 <= i < |order| ==> order[i] < |lists|
  {
    if order == [] then []
    else
      var n := |order| - 1;
      History(lists, order[..n], scope) + S.Reports(lists[order[n]], order[n], scope)
  }

  predicate HasEntry(list: seq<N.Entry>, addr: nat, mig: int) {
    exists j :: 0 <= j < |list| && list[j].addr == addr && list[j].mig == mig
  }

  predicate Names(list: seq<N.Entry>, page: nat, mig: bool) {
    exists j :: 0 <= j < |list| && N.Page(list[j].addr) == page && (list[j].mig != 0) == mig
  }

  /** A report in the history comes from its host's list, with its tag. */
  lemma {:induction false} HistoryFrom(lists: seq<seq<N.Entry>>, order: seq<nat>, scope: int, e: N.Entry)
    requires (forall i :: 0 <= i < |order| ==> order[i] < |lists|) && e in History(lists, order, scope)
    ensures e.from < |lists| && HasEntry(lists[e.from], e.addr, e.mig)
  {
    var n := |order| - 1;
    var last := S.Reports(lists[order[n]], order[n], scope);
    if e in last {
      var j :| 0 <= j < |last| && last[j] == e;
      assert lists[order[n]][j].addr == e.addr;
    } else {
      HistoryFrom(lists, order[..n], scope, e);
    }
  }

  /** What BARRGRANT and the INVLD messages before it say. */
  function AsNotices(s: seq<N.Entry>): (es: seq<Notice>)
    ensures |es| == |s|
    ensures forall i :: 0 <= i < |s| ==> es[i] == Notice(N.Page(s[i].addr), s[i].from, s[i].mig != 0)
  {
    seq(|s|, i requires 0 <= i < |s| => Notice(N.Page(s[i].addr), s[i].from, s[i].mig != 0))
  }

  function GrantOf(lists: seq<seq<N.Entry>>, order: seq<nat>, scope: int): (es: seq<Notice>)
    requires forall i :: 0 <= i < |order| ==> order[i] < |lists|
  {
    AsNotices(L.Compact(History(lists, order, scope)))
  }

  /** An entry of the granted list stands for some host's report, and if it names a host then that
      host's own tag is the entry's. */
  lemma GrantedEntry(lists: seq<seq<N.Entry>>, order: seq<nat>, scope: int, i: nat)
    requires (forall k :: 0 <= k < |order| ==> order[k] < |lists|) && |lists| <= MAXHOSTS
    requires i < |GrantOf(lists, order, scope)|
    ensures var e := GrantOf(lists, order, scope)[i];
      && (e.modifypid < |lists| || e.modifypid == MAXHOSTS)
      && (exists h, mig :: 0 <= h < |lists| && Names(lists[h], e.page, mig))
      && (e.modifypid < MAXHOSTS ==> Names(lists[e.modifypid], e.page, e.mig))
  {
    var hist := History(lists, order, scope);
    var s := L.Compact(hist);
    var p := N.Page(s[i].addr);
    L.EntryRemembers(hist, i);
    L.ReportsFromHist(hist, p, 0);
    var r := L.ReportsOf(hist, p)[0];
    HistoryFrom(lists, order, scope, r);
    assert Names(lists[r.from], p, r.mig != 0);
  }

  // ---------------------------------------------------------------- the hosts

  /** The tables of one host at one moment; size is its own homesize. */
  datatype Image = Image(pid: nat, hosts: nat, cache: seq<CacheSlot>, home: seq<HomeSlot>, page: seq<PageEntry>, size: nat)

  function ImageOf(t: Tables): Image
    requires t.pid < t.homesize.Length
    reads t.cache, t.home, t.page, t.homesize
  {
    Image(t.pid, t.hosts, t.cache[..], t.home[..], t.page[..], t.homesize[t.pid])
  }

  /** Tables.Valid, for an image. */
  ghost predicate Consistent(x: Image) { CacheOk(x.cache, x.page) && HomesOk(x.pid, x.hosts, x.home, x.page) }

  /** The host has these homes for all pages. */
  ghost predicate Believes(x: Image, homes: seq<nat>) {
    |x.page| == |homes| && forall p :: 0 <= p < |homes| ==> x.page[p].homepid == homes[p]
  }

  /** All hosts are consistent and agree on the homes. */
  ghost predicate Agreed(xs: seq<Image>, homes: seq<nat>) {
    && 1 <= |xs| <= MAXHOSTS
    && forall i :: 0 <= i < |xs| ==> xs[i].pid == i && xs[i].hosts == |xs| && Consistent(xs[i]) && Believes(xs[i], homes)
  }

  /** home[] is a dense prefix, and homesize is its length, or one less when home[] is full. */
  ghost predicate Packed(x: Image) {
    var n := |Occupied(x.home)|;
    && |x.home| == HOMEPAGES && Dense(x.home, n, HOMEPAGES)
    && (x.size == n || (n == HOMEPAGES && x.size == n - 1))
  }

  /** And all of home[] can be scanned by counting up to homesize. */
  ghost predicate Cluster(xs: seq<Image>, homes: seq<nat>) {
    Agreed(xs, homes) && forall i :: 0 <= i < |xs| ==> Packed(xs[i])
  }

  /** The scan of endinterval goes over each page homed here, except the last one of a full home[]
      that has been arranged. */
  lemma ScanMissesNone(xs: seq<Image>, homes: seq<nat>, p: nat, h: nat)
    requires Cluster(xs, homes) && p < |homes| && homes[p] == h < |xs|
    ensures var x := xs[h]; x.page[p].homei < x.size <==> !(x.size == HOMEPAGES - 1 == x.page[p].homei)
  {
    var x := xs[h];
    assert Consistent(x) && Believes(x, homes) && Packed(x);
    assert x.home[x.page[p].homei].addr == Addr(p);
  }

  /** When hosts agree each page has one home: that host and no other has it in home[], in one slot. */
  lemma OneHomePerPage(xs: seq<Image>, homes: seq<nat>, p: nat, h: nat)
    requires Agreed(xs, homes) && p < |homes| && h < |xs|
    ensures (exists i :: 0 <= i < |xs[h].home| && xs[h].home[i].addr == Addr(p)) <==> h == homes[p]
    ensures forall i, j :: 0 <= i < j < |xs[h].home| && xs[h].home[i].addr == Addr(p) ==> xs[h].home[j].addr != Addr(p)
  {
    var x := xs[h];
    assert Consistent(x) && Believes(x, homes) && x.page[p].homepid == homes[p];
    if homes[p] == h {
      assert x.home[x.page[p].homei].addr == Addr(p);
    }
  }

  /** The list that is granted after every host has tagged its report is one that each host can act
      on: it names each page once, and where it moves a page to a host that host holds the page. */
  lemma GrantIsReady(xs: seq<Image>, homes: seq<nat>, lists: seq<seq<N.Entry>>, order: seq<nat>, scope: int, h: nat)
    requires Agreed(xs, homes) && |lists| == |xs| && h < |xs|
    requires forall i :: 0 <= i < |xs| ==> Tagged(xs[i].cache, xs[i].page, lists[i])
    requires forall k :: 0 <= k < |order| ==> order[k] < |lists|
    ensures Sound(GrantOf(lists, order, scope), |xs|, |homes|)
    ensures Ready(h, xs[h].cache, xs[h].page, GrantOf(lists, order, scope))
  {
    var es := GrantOf(lists, order, scope);
    forall i | 0 <= i < |es|
      ensures es[i].page < |homes| && (es[i].modifypid < |xs| || es[i].modifypid == MAXHOSTS)
      ensures Moves(es[i]) && es[i].modifypid == h ==> Held(xs[h].cache, xs[h].page, es[i].page)
    {
      GrantedEntry(lists, order, scope, i);
      assert Tagged(xs[h].cache, xs[h].page, lists[h]);
      var g, mig :| 0 <= g < |lists| && Names(lists[g], es[i].page, mig);
      assert Tagged(xs[g].cache, xs[g].page, lists[g]) && Believes(xs[g], homes);
    }
  }

  // ---------------------------------------------------------------- one barrier

  /** The homes after a grant. */
  function HomesAfter(es: seq<Notice>, homes: seq<nat>): (r: seq<nat>)
    ensures |r| == |homes| && forall p :: 0 <= p < |homes| ==> r[p] == HomeAfter(es, p, homes[p])
  {
    seq(|homes|, p requires 0 <= p < |homes| => HomeAfter(es, p, homes[p]))
  }

  /** What host x needs to handle the grant without failing an assertion. */
  ghost predicate MayHandle(x: Image, es: seq<Notice>, homes: seq<nat>) {
    && Consistent(x) && Believes(x, homes) && Sound(es, x.hosts, |homes|)
    && Ready(x.pid, x.cache, x.page, es) && Fits(es, homes, x.pid, Free(x.home))
  }

  /** ts shows the images xs, and no two hosts share memory. */
  ghost predicate Shows(ts: seq<Tables>, xs: seq<Image>)
    reads set t | t in ts :: t.cache
    reads set t | t in ts :: t.home
    reads set t | t in ts :: t.page
    reads set t | t in ts :: t.homesize
  {
    && |xs| == |ts| && Apart(ts)
    && forall i :: 0 <= i < |ts| ==> ts[i].Shape() && ImageOf(ts[i]) == xs[i]
  }

  ghost predicate Apart(ts: seq<Tables>) {
    forall i, j :: 0 <= i < j < |ts| ==>
      && ts[i].cache != ts[j].cache && ts[i].home != ts[j].home && ts[i].page != ts[j].page
      && ts[i].homesize != ts[j].homesize
  }

  ghost function Memory(ts: seq<Tables>): (r: set<object>)
    ensures forall i :: 0 <= i < |ts| ==>
      ts[i].cache in r && ts[i].home in r && ts[i].page in r && ts[i].homesize in r
  {
    if ts == [] then {}
    else
      var t := ts[|ts| - 1];
      Memory(ts[..|ts| - 1]) + {t.cache, t.home, t.page, t.homesize}
  }

  lemma Separate(ts: seq<Tables>, i: nat, j: nat)
    requires Apart(ts) && i < |ts| && j < |ts| && i != j
    ensures ts[i].cache != ts[j].cache && ts[i].home != ts[j].home && ts[i].page != ts[j].page
    ensures ts[i].homesize != ts[j].homesize
  {
    assert i < j || j < i;
  }

  function TabIn(x: Image): Tab { Tab(x.cache, x.home, x.page) }

  /** The entries of home[] may have moved together; nothing else has changed. */
  ghost predicate Rearranged(a: Tab, b: Tab) {
    && b.cache == a.cache && Occupied(b.home) == Occupied(a.home) && |b.page| == |a.page|
    && forall q :: 0 <= q < |a.page| ==> b.page[q].homepid == a.page[q].homepid && b.page[q].cachei == a.page[q].cachei
  }

  /** The tables of host x after the grant are what its entries, one after the other, make of them; and x
      can read exactly the copies that it may. */
  ghost predicate CopiesFollow(x: Image, homes: seq<nat>, es: seq<Notice>, y: Image) {
    && CopiesAfter(x.pid, homes, es, x.cache, x.page, y.cache, y.page)
    && exists m :: Handled(x.pid, es, TabIn(x), m) && Rearranged(m, TabIn(y))
  }

  /** Host x has handled the grant and is y. */
  ghost predicate TookGrant(x: Image, homes: seq<nat>, es: seq<Notice>, y: Image) {
    && y == x.(cache := y.cache, home := y.home, page := y.page)
    && Consistent(y) && Believes(y, HomesAfter(es, homes)) && CopiesFollow(x, homes, es, y)
  }

  lemma GrantTaken(x: Image, homes: seq<nat>, es: seq<Notice>, y: Image)
    requires Believes(x, homes) && y == x.(cache := y.cache, home := y.home, page := y.page) && Consistent(y)
    requires |y.page| == |x.page| && forall p :: 0 <= p < |y.page| ==> y.page[p].homepid == HomeAfter(es, p, x.page[p].homepid)
    requires CopiesAfter(x.pid, homes, es, x.cache, x.page, y.cache, y.page) && Handled(x.pid, es, TabIn(x), TabIn(y))
    ensures TookGrant(x, homes, es, y)
  {
    assert Rearranged(TabIn(y), TabIn(y));
  }

  method GrantHere(t: Tables, es: seq<Notice>, ghost homes: seq<nat>, ghost x: Image)
    requires t.Valid() && x == ImageOf(t) && MayHandle(x, es, homes)
    modifies t.cache, t.home, t.page
    ensures TookGrant(x, homes, es, ImageOf(t))
  {
    assert Homepids(t.page[..]) == homes;
    HandleGrant(t, es);
    GrantTaken(x, homes, es, ImageOf(t));
  }

  /** One host handles a grant. */
  method HandleAt(ts: seq<Tables>, i: nat, es: seq<Notice>, ghost homes: seq<nat>, ghost xs: seq<Image>)
    returns (ghost xs': seq<Image>)
    requires Shows(ts, xs) && i < |ts| && MayHandle(xs[i], es, homes)
    modifies ts[i].cache, ts[i].home, ts[i].page
    ensures Shows(ts, xs') && xs' == xs[i := xs'[i]] && TookGrant(xs[i], homes, es, xs'[i])
  {
    var t := ts[i];
    assert ImageOf(t) == xs[i];
    GrantHere(t, es, homes, xs[i]);
    forall j | 0 <= j < |ts| && j != i ensures ImageOf(ts[j]) == xs[j] {
      Separate(ts, i, j);
      assert old(ImageOf(ts[j])) == xs[j];
    }
    xs' := xs[i := ImageOf(t)];
  }

  /** Hosts below n have handled the grant, the others have not. */
  ghost predicate Progress(xs: seq<Image>, es: seq<Notice>, homes: seq<nat>, n: nat) {
    && n <= |xs|
    && (forall i :: 0 <= i < |xs| ==> xs[i].pid == i && xs[i].hosts == |xs|)
    && (forall i :: 0 <= i < n ==> Consistent(xs[i]) && Believes(xs[i], HomesAfter(es, homes)))
    && (forall i :: n <= i < |xs| ==> MayHandle(xs[i], es, homes))
  }

  /** Hosts below n can read what they may after the grant, and the others are as they were. */
  ghost predicate CopiesSoFar(was: seq<Image>, homes: seq<nat>, es: seq<Notice>, xs: seq<Image>, n: nat) {
    && n <= |xs| == |was| && (forall i :: 0 <= i < n ==> CopiesFollow(was[i], homes, es, xs[i]))
    && (forall i :: n <= i < |xs| ==> xs[i] == was[i])
  }

  ghost predicate HandledSoFar(was: seq<Image>, homes: seq<nat>, es: seq<Notice>, xs: seq<Image>, n: nat) {
    Progress(xs, es, homes, n) && CopiesSoFar(was, homes, es, xs, n)
  }

  lemma OneMoreHandled(was: seq<Image>, homes: seq<nat>, es: seq<Notice>, xs: seq<Image>, n: nat, y: Image)
    requires HandledSoFar(was, homes, es, xs, n) && n < |xs| && TookGrant(xs[n], homes, es, y)
    ensures HandledSoFar(was, homes, es, xs[n := y], n + 1)
  {
    OneMoreProgress(xs, es, homes, n, y);
    OneMoreCopies(was, homes, es, xs, n, y);
  }

  lemma OneMoreProgress(xs: seq<Image>, es: seq<Notice>, homes: seq<nat>, n: nat, y: Image)
    requires Progress(xs, es, homes, n) && n < |xs| && y.pid == n && y.hosts == |xs|
    requires Consistent(y) && Believes(y, HomesAfter(es, homes))
    ensures Progress(xs[n := y], es, homes, n + 1)
  {
  }

  lemma OneMoreCopies(was: seq<Image>, homes: seq<nat>, es: seq<Notice>, xs: seq<Image>, n: nat, y: Image)
    requires CopiesSoFar(was, homes, es, xs, n) && n < |xs| && CopiesFollow(xs[n], homes, es, y)
    ensures CopiesSoFar(was, homes, es, xs[n := y], n + 1)
  {
  }

  lemma NoneHandled(xs: seq<Image>, homes: seq<nat>, es: seq<Notice>)
    requires Agreed(xs, homes) && forall i :: 0 <= i < |xs| ==> MayHandle(xs[i], es, homes)
    ensures HandledSoFar(xs, homes, es, xs, 0)
  {
  }

  lemma AllHandled(was: seq<Image>, homes: seq<nat>, es: seq<Notice>, xs: seq<Image>)
    requires Agreed(was, homes) && |was| == |xs| && HandledSoFar(was, homes, es, xs, |xs|)
    ensures Agreed(xs, HomesAfter(es, homes)) && CopiesSoFar(was, homes, es, xs, |was|)
  {
  }

  /** Every host handles the same grant: from agreement on the homes to agreement on the new ones. */
  method HandleEverywhere(ts: seq<Tables>, es: seq<Notice>, ghost homes: seq<nat>, ghost xs: seq<Image>)
    returns (ghost xs': seq<Image>)
    requires Shows(ts, xs) && Agreed(xs, homes) && forall i :: 0 <= i < |xs| ==> MayHandle(xs[i], es, homes)
    modifies Memory(ts)
    ensures Shows(ts, xs') && Agreed(xs', HomesAfter(es, homes)) && CopiesSoFar(xs, homes, es, xs', |xs|)
  {
    xs' := xs;
    NoneHandled(xs, homes, es);
    for i := 0 to |ts|
      invariant Shows(ts, xs') && HandledSoFar(xs, homes, es, xs', i)
    {
      ghost var was := xs';
      xs' := HandleAt(ts, i, es, homes, xs');
      OneMoreHandled(xs, homes, es, was, i, xs'[i]);
    }
    AllHandled(xs, homes, es, xs');
  }

  /** The image of one host may change, as long as the host stays consistent and keeps the homes. */
  lemma OneHost(xs: seq<Image>, homes: seq<nat>, i: nat, y: Image)
    requires Agreed(xs, homes) && i < |xs| && y.pid == i && y.hosts == |xs| && Consistent(y) && Believes(y, homes)
    ensures Agreed(xs[i := y], homes)
    ensures Cluster(xs, homes) && Packed(y) ==> Cluster(xs[i := y], homes)
  {
  }

  /** The same pages can be read, in the same slots. */
  ghost predicate SameCopies(x: Image, y: Image) { y.pid == x.pid && Rearranged(TabIn(x), TabIn(y)) }

  method ArrangeHere(t: Tables)
    requires t.Valid()
    modifies t.homesize, t.home, t.page
    ensures t.Valid() && Packed(ImageOf(t)) && Rearranged(old(TabOf(t)), TabOf(t))
  {
    MigArrangeHome(t);
  }

  /** The same pages, homes and copies, arranged. */
  ghost predicate ArrangedAs(x: Image, y: Image) {
    Consistent(y) && Packed(y) && SameCopies(x, y) && y.hosts == x.hosts
  }

  method ArrangeAt(ts: seq<Tables>, i: nat, ghost xs: seq<Image>) returns (ghost xs': seq<Image>)
    requires Shows(ts, xs) && i < |ts| && Consistent(xs[i])
    modifies ts[i].homesize, ts[i].home, ts[i].page
    ensures Shows(ts, xs') && xs' == xs[i := xs'[i]] && ArrangedAs(xs[i], xs'[i])
  {
    var t := ts[i];
    assert ImageOf(t) == xs[i];
    ArrangeHere(t);
    forall j | 0 <= j < |ts| && j != i ensures ImageOf(ts[j]) == xs[j] {
      Separate(ts, i, j);
      assert old(ImageOf(ts[j])) == xs[j];
    }
    xs' := xs[i := ImageOf(t)];
  }

  /** Hosts below n have arranged their home[], the others are as they were. */
  ghost predicate ArrangedSoFar(was: seq<Image>, homes: seq<nat>, xs: seq<Image>, n: nat) {
    && Agreed(was, homes) && n <= |was| == |xs|
    && (forall i :: 0 <= i < n ==> ArrangedAs(was[i], xs[i]))
    && (forall i :: n <= i < |was| ==> xs[i] == was[i])
  }

  lemma AllArranged(was: seq<Image>, homes: seq<nat>, xs: seq<Image>)
    requires ArrangedSoFar(was, homes, xs, |was|)
    ensures Cluster(xs, homes) && forall j :: 0 <= j < |was| ==> SameCopies(was[j], xs[j])
  {
    forall i | 0 <= i < |xs| ensures xs[i].pid == i && xs[i].hosts == |xs| && Consistent(xs[i]) && Believes(xs[i], homes) && Packed(xs[i]) {
      assert ArrangedAs(was[i], xs[i]) && Believes(was[i], homes);
    }
  }

  /** Every host arranges its home[]. */
  method ArrangeEverywhere(ts: seq<Tables>, ghost homes: seq<nat>, ghost xs: seq<Image>) returns (ghost xs': seq<Image>)
    requires Shows(ts, xs) && Agreed(xs, homes)
    modifies Memory(ts)
    ensures Shows(ts, xs') && Cluster(xs', homes) && |xs'| == |xs| && forall j :: 0 <= j < |xs| ==> SameCopies(xs[j], xs'[j])
  {
    xs' := xs;
    for i := 0 to |ts|
      invariant Shows(ts, xs') && ArrangedSoFar(xs, homes, xs', i)
    {
      assert Consistent(xs[i]);
      xs' := ArrangeAt(ts, i, xs');
    }
    AllArranged(xs, homes, xs');
  }

  /** A report as endinterval leaves it: pages that exist, no tags. */
  predicate Untagged(es: seq<N.Entry>, pages: nat) {
    forall i :: 0 <= i < |es| ==> N.Page(es[i].addr) < pages && es[i].mig == 0
  }

  /** A report with the tags that migcheckcache gives it. */
  function TaggedList(x: Image, es: seq<N.Entry>): (list: seq<N.Entry>)
    ensures |list| == |es|
    ensures forall j :: 0 <= j < |es| ==>
      list[j] == es[j].(mig := if Held(x.cache, x.page, N.Page(es[j].addr)) then 1 else 0)
  {
    seq(|es|, j requires 0 <= j < |es| =>
      es[j].(mig := if Held(x.cache, x.page, N.Page(es[j].addr)) then 1 else 0))
  }

  function TaggedLists(xs: seq<Image>, reports: seq<seq<N.Entry>>): (lists: seq<seq<N.Entry>>)
    requires |reports| == |xs|
    ensures |lists| == |xs| && forall i :: 0 <= i < |xs| ==> lists[i] == TaggedList(xs[i], reports[i])
  {
    seq(|xs|, i requires 0 <= i < |xs| => TaggedList(xs[i], reports[i]))
  }

  lemma TagsAreTrue(x: Image, es: seq<N.Entry>)
    requires Untagged(es, |x.page|)
    ensures Tagged(x.cache, x.page, TaggedList(x, es))
  {
  }

  /** One host tags its report. */
  method TagAt(t: Tables, report: seq<N.Entry>) returns (list: seq<N.Entry>)
    requires t.Valid() && Untagged(report, t.page.Length)
    ensures list == TaggedList(ImageOf(t), report)
  {
    list := MigCheckCache(t, report);
  }

  /** Every host tags its report. */
  method TagEverywhere(ts: seq<Tables>, reports: seq<seq<N.Entry>>, ghost homes: seq<nat>, ghost xs: seq<Image>)
    returns (lists: seq<seq<N.Entry>>)
    requires Shows(ts, xs) && Agreed(xs, homes) && |reports| == |ts|
    requires forall i :: 0 <= i < |ts| ==> Untagged(reports[i], |homes|)
    ensures lists == TaggedLists(xs, reports)
  {
    lists := [];
    for i := 0 to |ts|
      invariant |lists| == i && forall j :: 0 <= j < i ==> lists[j] == TaggedList(xs[j], reports[j])
    {
      assert Consistent(xs[i]) && Believes(xs[i], homes) && ImageOf(ts[i]) == xs[i];
      var list := TagAt(ts[i], reports[i]);
      lists := lists + [list];
    }
  }

  /** The hosts and their reports at a barrier: every host reports, in any order of arrival. */
  predicate Meeting(hosts: nat, pages: nat, reports: seq<seq<N.Entry>>, order: seq<nat>) {
    && |reports| == hosts && (forall i :: 0 <= i < hosts ==> Untagged(reports[i], pages))
    && (forall k :: 0 <= k < |order| ==> order[k] < hosts)
  }

  /** The grant that the reports lead to. */
  function GrantFor(xs: seq<Image>, reports: seq<seq<N.Entry>>, order: seq<nat>, scope: int): seq<Notice>
    requires |reports| == |xs| && forall k :: 0 <= k < |order| ==> order[k] < |xs|
  {
    GrantOf(TaggedLists(xs, reports), order, scope)
  }

  lemma GrantForIsReady(xs: seq<Image>, homes: seq<nat>, reports: seq<seq<N.Entry>>, order: seq<nat>, scope: int, h: nat)
    requires Agreed(xs, homes) && Meeting(|xs|, |homes|, reports, order) && h < |xs|
    ensures Sound(GrantFor(xs, reports, order, scope), |xs|, |homes|)
    ensures Ready(h, xs[h].cache, xs[h].page, GrantFor(xs, reports, order, scope))
  {
    forall i | 0 <= i < |xs| ensures Tagged(xs[i].cache, xs[i].page, TaggedLists(xs, reports)[i]) {
      assert Believes(xs[i], homes);
      TagsAreTrue(xs[i], reports[i]);
    }
    GrantIsReady(xs, homes, TaggedLists(xs, reports), order, scope, h);
  }

  /** On every host each entry finds what it needs at its turn. */
  ghost predicate AllFit(xs: seq<Image>, es: seq<Notice>) {
    forall i :: 0 <= i < |xs| ==> GoesThrough(i, es, TabIn(xs[i]))
  }

  /** Tags and reports everywhere, and the grant; ok tells whether every host finds a free home slot
      whenever it needs one.  Nothing else is needed to handle the grant. */
  method Gather(ts: seq<Tables>, reports: seq<seq<N.Entry>>, order: seq<nat>, scope: int,
    homes: seq<nat>, ghost xs: seq<Image>)
    returns (ok: bool, es: seq<Notice>)
    requires Shows(ts, xs) && Agreed(xs, homes) && Meeting(|ts|, |homes|, reports, order)
    ensures es == GrantFor(xs, reports, order, scope) && Sound(es, |ts|, |homes|)
    ensures ok <==> AllFit(xs, es)
    ensures ok <==> forall i :: 0 <= i < |ts| ==> MayHandle(xs[i], es, homes)
  {
    var lists := TagEverywhere(ts, reports, homes, xs);
    es := GrantOf(lists, order, scope);
    GrantForIsReady(xs, homes, reports, order, scope, 0);
    ok := forall i :: 0 <= i < |ts| ==> Fits(es, homes, i, Free(ts[i].home[..]));
    assert forall i :: 0 <= i < |ts| ==> ts[i].home[..] == xs[i].home;
    FitIsEnough(xs, homes, reports, order, scope);
  }

  lemma FitIsEnough(xs: seq<Image>, homes: seq<nat>, reports: seq<seq<N.Entry>>, order: seq<nat>, scope: int)
    requires Agreed(xs, homes) && Meeting(|xs|, |homes|, reports, order)
    ensures var es := GrantFor(xs, reports, order, scope);
      && Sound(es, |xs|, |homes|)
      && (forall i :: 0 <= i < |xs| ==> (MayHandle(xs[i], es, homes) <==> Fits(es, homes, i, Free(xs[i].home))))
      && (forall i :: 0 <= i < |xs| ==> (GoesThrough(i, es, TabIn(xs[i])) <==> Fits(es, homes, i, Free(xs[i].home))))
  {
    var es := GrantFor(xs, reports, order, scope);
    GrantForIsReady(xs, homes, reports, order, scope, 0);
    forall i | 0 <= i < |xs|
      ensures MayHandle(xs[i], es, homes) <==> Fits(es, homes, i, Free(xs[i].home))
      ensures GoesThrough(i, es, TabIn(xs[i])) <==> Fits(es, homes, i, Free(xs[i].home))
    {
      GrantForIsReady(xs, homes, reports, order, scope, i);
      FitsIff(i, |xs|, es, TabIn(xs[i]), homes);
    }
  }

  lemma SameCopiesFollow(xs: seq<Image>, homes: seq<nat>, es: seq<Notice>, mid: seq<Image>, xs': seq<Image>)
    requires CopiesSoFar(xs, homes, es, mid, |xs|) && |xs'| == |mid| && forall i :: 0 <= i < |mid| ==> |mid[i].page| == |homes|
    requires forall j :: 0 <= j < |mid| ==> SameCopies(mid[j], xs'[j])
    ensures CopiesSoFar(xs, homes, es, xs', |xs|)
  {
    forall i | 0 <= i < |xs| ensures CopiesFollow(xs[i], homes, es, xs'[i]) {
      assert CopiesFollow(xs[i], homes, es, mid[i]) && SameCopies(mid[i], xs'[i]);
      var m :| Handled(xs[i].pid, es, TabIn(xs[i]), m) && Rearranged(m, TabIn(mid[i]));
      assert Rearranged(m, TabIn(xs'[i]));
    }
  }

  /** A whole barrier with migration on: tag, report, grant, move, arrange.  It goes through exactly if
      every host finds a free home slot whenever it needs one; otherwise migpage's assertion fails on
      some host, and nothing is done here. */
  method Barrier(ts: seq<Tables>, reports: seq<seq<N.Entry>>, order: seq<nat>, scope: int,
    homes: seq<nat>, ghost xs: seq<Image>)
    returns (ok: bool, es: seq<Notice>, ghost xs': seq<Image>)
    requires Shows(ts, xs) && Cluster(xs, homes) && Meeting(|ts|, |homes|, reports, order)
    modifies Memory(ts)
    ensures es == GrantFor(xs, reports, order, scope) && Sound(es, |ts|, |homes|) && (ok <==> AllFit(xs, es))
    ensures if ok then Shows(ts, xs') && Cluster(xs', HomesAfter(es, homes)) else Shows(ts, xs) && xs' == xs
    ensures ok ==> CopiesSoFar(xs, homes, es, xs', |xs|)
  {
    ok, es := Gather(ts, reports, order, scope, homes, xs);
    xs' := xs;
    if ok {
      ghost var mid := HandleEverywhere(ts, es, homes, xs);
      xs' := ArrangeEverywhere(ts, HomesAfter(es, homes), mid);
      SameCopiesFollow(xs, homes, es, mid, xs');
    }
  }

  // ---------------------------------------------------------------- any number of barriers

  datatype Event =
    | Access(h: nat, p: nat, write: bool, start: nat)      // a faulting access
    | Stale(h: nat, p: nat)                                // a notice of a lock grant
    | Begin(h: nat)                                        // startinterval
    | Meet(reports: seq<seq<N.Entry>>, order: seq<nat>, scope: int)

  predicate FaultsAt(x: Image, p: nat, write: bool) {
    p < |x.page| && FaultsIn(x.pid, x.cache, x.page, p, write)
  }

  /** The event can happen: hosts and pages exist, the access faults and a slot can be had, and at a
      barrier every host reports. */
  predicate Possible(xs: seq<Image>, ev: Event) {
    match ev
    case Access(h, p, write, start) =>
      && h < |xs| && |xs[h].cache| == CACHEPAGES && start < CACHEPAGES && FaultsAt(xs[h], p, write)
      && (xs[h].page[p].cachei >= CACHEPAGES ==> Pick(xs[h].cache, start).Chosen?)
    case Stale(h, p) => h < |xs| && p < |xs[h].page|
    case Begin(h) => h < |xs|
    case Meet(reports, order, _) => |xs| > 0 && Meeting(|xs|, |xs[0].page|, reports, order)
  }

  /** What an event other than a barrier does on its own host. */
  ghost predicate Local(ev: Event, x: Image, y: Image)
    requires !ev.Meet?
  {
    && y == x.(cache := y.cache, page := y.page)
    && match ev
       case Access(_, p, write, start) =>
         && Faulted(x.cache, x.page, y.cache, y.page, p, write) && |x.cache| == CACHEPAGES && start < CACHEPAGES
         && (x.page[p].cachei >= CACHEPAGES ==> Pick(x.cache, start) == Chosen(y.page[p].cachei))
       case Stale(_, p) => p < |x.page| && y.page == x.page && y.cache == Without(x.cache, x.page, p)
       case Begin(_) => y.page == x.page && Started(x.cache, y.cache)
  }

  /** What a possible event does to the tables and the homes.  ok is false when a barrier runs out of
      home slots. */
  ghost predicate Does(ev: Event, xs: seq<Image>, homes: seq<nat>, ok: bool, xs': seq<Image>, homes': seq<nat>) {
    && Possible(xs, ev)
    && match ev
       case Meet(reports, order, scope) =>
         && var es := GrantFor(xs, reports, order, scope);
         && (ok <==> AllFit(xs, es)) && homes' == (if ok then HomesAfter(es, homes) else homes)
         && (if ok then CopiesSoFar(xs, homes, es, xs', |xs|) else xs' == xs)
       case _ => ok && homes' == homes && |xs'| == |xs| && xs' == xs[ev.h := xs'[ev.h]] && Local(ev, xs[ev.h], xs'[ev.h])
  }

  ghost predicate Started(cache: seq<CacheSlot>, cache': seq<CacheSlot>) {
    && |cache'| == |cache|
    && forall k :: 0 <= k < |cache| ==>
      cache'[k] == if cache[k].wtnt then CacheSlot(RO, cache[k].addr, false) else cache[k]
  }

  /** An event on one host that keeps the host consistent and the homes of all pages. */
  lemma OneCache(ev: Event, xs: seq<Image>, homes: seq<nat>, y: Image)
    requires Cluster(xs, homes) && Possible(xs, ev) && !ev.Meet? && Local(ev, xs[ev.h], y) && Consistent(y)
    ensures Cluster(xs[ev.h := y], homes) && Does(ev, xs, homes, true, xs[ev.h := y], homes)
  {
    assert Believes(xs[ev.h], homes) && Packed(xs[ev.h]);
    assert Believes(y, homes) && Packed(y);
    OneHost(xs, homes, ev.h, y);
  }

  /** An event on the host where it happens. */
  method EventHere(t: Tables, ev: Event)
    requires t.Valid() && !ev.Meet?
    requires match ev
      case Access(_, p, write, start) =>
        && start < CACHEPAGES && p < t.page.Length && t.Faults(p, write)
        && (t.page[p].cachei >= CACHEPAGES ==> Pick(t.cache[..], start).Chosen?)
      case Stale(_, p) => p < t.page.Length
      case Begin(_) => true
    modifies t.cache, t.page
    ensures t.Valid() && Local(ev, old(ImageOf(t)), ImageOf(t))
  {
    match ev
    case Access(_, p, write, start) =>
      if t.page[p].cachei < CACHEPAGES {
        var getp := t.FaultCached(p, write);
      } else {
        t.FaultNew(p, write, start);
      }
    case Stale(_, p) => Invalidate(t, p);
    case Begin(_) => t.StartInterval();
  }

  /** And as the others see it. */
  method EventShown(ts: seq<Tables>, ev: Event, ghost xs: seq<Image>) returns (ghost xs': seq<Image>)
    requires Shows(ts, xs) && Possible(xs, ev) && !ev.Meet? && Consistent(xs[ev.h])
    modifies ts[ev.h].cache, ts[ev.h].page
    ensures Shows(ts, xs') && xs' == xs[ev.h := xs'[ev.h]]
    ensures Local(ev, xs[ev.h], xs'[ev.h]) && Consistent(xs'[ev.h])
  {
    var t := ts[ev.h];
    assert ImageOf(t) == xs[ev.h];
    EventHere(t, ev);
    forall j | 0 <= j < |ts| && j != ev.h ensures ImageOf(ts[j]) == xs[j] {
      Separate(ts, ev.h, j);
      assert old(ImageOf(ts[j])) == xs[j];
    }
    xs' := xs[ev.h := ImageOf(t)];
  }

  method EventAt(ts: seq<Tables>, ev: Event, ghost homes: seq<nat>, ghost xs: seq<Image>) returns (ghost xs': seq<Image>)
    requires Shows(ts, xs) && Cluster(xs, homes) && Possible(xs, ev) && !ev.Meet?
    modifies ts[ev.h].cache, ts[ev.h].page
    ensures Shows(ts, xs') && Cluster(xs', homes) && Does(ev, xs, homes, true, xs', homes)
  {
    xs' := EventShown(ts, ev, xs);
    OneCache(ev, xs, homes, xs'[ev.h]);
  }

  /** One moment of a run: the tables of all hosts and the homes they agree on. */
  datatype Moment = Moment(xs: seq<Image>, homes: seq<nat>)

  /** The moments of a run: event k leads from moment k to moment k + 1; an event that is not possible
      changes nothing.  All hosts are consistent and agree on the homes at every moment. */
  ghost predicate Follows(events: seq<Event>, trace: seq<Moment>) {
    var n := |trace| - 1;
    && 0 <= n <= |events| && Cluster(trace[n].xs, trace[n].homes)
    && (n > 0 ==> Follows(events, trace[..n]) && Led(events[n - 1], trace[n - 1], trace[n]))
  }

  lemma {:induction false} AgreeThroughout(events: seq<Event>, trace: seq<Moment>, k: nat)
    requires Follows(events, trace) && k < |trace|
    ensures Cluster(trace[k].xs, trace[k].homes)
    ensures k > 0 ==> Led(events[k - 1], trace[k - 1], trace[k])
  {
    if k < |trace| - 1 {
      AgreeThroughout(events, trace[..|trace| - 1], k);
    }
  }

  ghost predicate Led(ev: Event, m: Moment, m': Moment) {
    if Possible(m.xs, ev) then Does(ev, m.xs, m.homes, true, m'.xs, m'.homes) else m' == m
  }

  /** A barrier at which some host lacks a free home slot. */
  ghost predicate NoSlot(ev: Event, m: Moment) {
    ev.Meet? && Possible(m.xs, ev) && !AllFit(m.xs, GrantFor(m.xs, ev.reports, ev.order, ev.scope))
  }

  lemma FollowsOn(events: seq<Event>, trace: seq<Moment>, m: Moment)
    requires Follows(events, trace) && |trace| <= |events| && Cluster(m.xs, m.homes)
    requires Led(events[|trace| - 1], trace[|trace| - 1], m)
    ensures Follows(events, trace + [m])
  {
    Snoc(trace, m);
  }

  /** Any sequence of events on any number of hosts.  Every event has its effect, in order, until a
      barrier runs out of home slots; in particular the homes are those of the grants of the barriers so
      far, one after the other.  All hosts stay consistent and agree on the homes at every moment. */
  method Run(ts: seq<Tables>, events: seq<Event>, homes: seq<nat>, ghost xs: seq<Image>)
    returns (homes': seq<nat>, ghost trace: seq<Moment>)
    requires Shows(ts, xs) && Cluster(xs, homes)
    modifies Memory(ts)
    ensures Follows(events, trace) && trace[0] == Moment(xs, homes) && trace[|trace| - 1].homes == homes'
    ensures Shows(ts, trace[|trace| - 1].xs)
    ensures |trace| - 1 < |events| ==> NoSlot(events[|trace| - 1], trace[|trace| - 1])
  {
    homes' := homes;
    trace := [Moment(xs, homes)];
    assert Follows(events, trace);
    for k := 0 to |events|
      invariant Underway(events, trace, Moment(xs, homes), k, homes') && Shows(ts, trace[k].xs)
    {
      var ok;
      ghost var now;
      ok, homes', now := Happen(ts, events[k], homes', trace[k].xs);
      if !ok {
        return;
      }
      OneMoment(events, trace, Moment(xs, homes), k, Moment(now, homes'));
      trace := trace + [Moment(now, homes')];
    }
  }

  /** k events have happened. */
  ghost predicate Underway(events: seq<Event>, trace: seq<Moment>, first: Moment, k: nat, homes: seq<nat>) {
    |trace| == k + 1 && Follows(events, trace) && trace[0] == first && trace[k].homes == homes
  }

  lemma OneMoment(events: seq<Event>, trace: seq<Moment>, first: Moment, k: nat, m: Moment)
    requires k < |events| && |trace| == k + 1 && Underway(events, trace, first, k, trace[k].homes)
    requires Cluster(m.xs, m.homes) && Led(events[k], trace[k], m)
    ensures Underway(events, trace + [m], first, k + 1, m.homes) && (trace + [m])[k + 1] == m
  {
    FollowsOn(events, trace, m);
  }

  function ImagesOf(ts: seq<Tables>): (xs: seq<Image>)
    requires forall i :: 0 <= i < |ts| ==> ts[i].pid < ts[i].homesize.Length
    reads set t | t in ts :: t.cache
    reads set t | t in ts :: t.home
    reads set t | t in ts :: t.page
    reads set t | t in ts :: t.homesize
    ensures |xs| == |ts| && forall i :: 0 <= i < |ts| ==> xs[i] == ImageOf(ts[i])
  {
    if ts == [] then [] else ImagesOf(ts[..|ts| - 1]) + [ImageOf(ts[|ts| - 1])]
  }

  method Happen(ts: seq<Tables>, ev: Event, homes: seq<nat>, ghost xs: seq<Image>)
    returns (ok: bool, homes': seq<nat>, ghost xs': seq<Image>)
    requires Shows(ts, xs) && Cluster(xs, homes)
    modifies Memory(ts)
    ensures Shows(ts, xs') && Cluster(xs', homes')
    ensures ok ==> Led(ev, Moment(xs, homes), Moment(xs', homes'))
    ensures !ok ==> NoSlot(ev, Moment(xs, homes)) && xs' == xs && homes' == homes
  {
    ok, homes', xs' := true, homes, xs;
    var now := ImagesOf(ts);
    if Possible(now, ev) {
      match ev
      case Meet(reports, order, scope) =>
        assert Believes(xs[0], homes);
        var es;
        ok, es, xs' := Barrier(ts, reports, order, scope, homes, xs);
        if ok {
          homes' := HomesAfter(es, homes);
        }
      case _ => xs' := EventAt(ts, ev, homes, xs);
    }
  }
}
