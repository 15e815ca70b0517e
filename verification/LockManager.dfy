/** The manager of one lock as the server thread keeps it: the arrays of waiting hosts, shifted in
    place, the scope, and the linked list of notices.  Its handlers do to these what the protocol's
    steps do to its LockState. */
module LockManager {
  import opened Seqs
  import opened Pages
  import opened Notices
  import opened WriteNotices
  import opened NoticeStream
  import L = NoticeLog
  import R = NoticeRefinement
  import P = Protocol

  // ---------------------------------------------------------------- streams and the protocol's maps

  /** What a grant stream carries is what the log says should be sent. */
  lemma {:induction false} SelectIsSent(s: seq<Entry>, homeOf: nat -> nat, to: nat, acqscope: int)
    ensures Select(LockGrant(acqscope, to), homeOf, s) == L.SentFrom(s, homeOf, to, acqscope)
  {
    if s != [] {
      var k, rest := LockGrant(acqscope, to), s[1..];
      SelectIsSent(rest, homeOf, to, acqscope);
      assert s == [s[0]] + rest && [s[0]][..0] == [];
      SelectConcat(k, homeOf, [s[0]], rest);
      SelectSnoc(k, homeOf, [], s[0]);
      assert [] + [s[0]] == [s[0]];
    }
  }

  /** Hence its meaning is what the protocol grants. */
  lemma StreamMeaning(c: P.Config, s: seq<Entry>, to: nat, acqscope: int)
    requires Distinct(s) && P.ValidConfig(c) && forall i :: 0 <= i < |s| ==> Page(s[i].addr) < c.pages
    ensures R.Meaning(Select(LockGrant(acqscope, to), R.HomeOf(c, to), s)) == P.GrantNotices(c, R.Meaning(s), acqscope, to)
  {
    SelectIsSent(s, R.HomeOf(c, to), to, acqscope);
    R.GrantMeaning(c, s, to, acqscope);
  }

  /** A barrier grant says everything that was listed. */
  lemma BarrierCarries(homeOf: nat -> nat, lock: Word, msgs: seq<seq<Word>>, parts: seq<seq<Entry>>)
    requires StreamOf(Barrier, homeOf, lock, msgs, parts)
    ensures Carried(msgs, lock, NoticesOf(Flat(parts)))
  {
    StreamCarries(Barrier, homeOf, lock, msgs, parts);
    AllWanted(Barrier, homeOf, Flat(parts));
  }

  lemma {:induction false} SendableParts(lists: seq<seq<Entry>>)
    requires AllSendable(Flat(lists))
    ensures ListsSendable(lists)
  {
    if lists != [] {
      var f := Flat(lists);
      assert forall i :: 0 <= i < |lists[0]| ==> f[i] == lists[0][i];
      assert Flat(lists[1..]) == f[|lists[0]|..];
      SendableParts(lists[1..]);
    }
  }

  lemma {:induction false} SavedSendable(s: seq<Entry>, es: seq<Entry>)
    requires AllSendable(s) && AllSendable(es)
    ensures AllSendable(SavedAll(s, es))
  {
    if es != [] {
      SavedSendable(s, es[..|es| - 1]);
    }
  }

  // ---------------------------------------------------------------- the manager

  /** The first n places hold what the places behind them held. */
  predicate MovedUp<T(==)>(s: seq<T>, s': seq<T>, n: nat) {
    |s'| == |s| && n < |s| && forall i :: 0 <= i < n ==> s'[i] == s[i + 1]
  }

  /** The loop of relserver over the two arrays of the queue. */
  method MoveUp(acqs: array<nat>, acqscope: array<int>, n: nat)
    requires n < acqs.Length == acqscope.Length
    modifies acqs, acqscope
    ensures MovedUp(old(acqs[..]), acqs[..], n) && MovedUp(old(acqscope[..]), acqscope[..], n)
  {
    for acqi := 0 to n
      invariant forall j :: 0 <= j < acqi ==> acqs[j] == old(acqs[j + 1]) && acqscope[j] == old(acqscope[j + 1])
      invariant forall j :: acqi <= j < acqs.Length ==> acqs[j] == old(acqs[j]) && acqscope[j] == old(acqscope[j])
    {
      acqs[acqi], acqscope[acqi] := acqs[acqi + 1], acqscope[acqi + 1];
    }
  }

  class Manager {
    const lock: Word
    const acqs: array<nat>
    const acqscope: array<int>
    var acqc: nat
    var scope: int
    const wtntp: Node
    ghost var view: View

    constructor (lock: Word)
      ensures Valid() && this.lock == lock && Queue() == [] && view.Contents() == [] && scope == 0
      ensures fresh(acqs) && fresh(acqscope) && fresh(view.repr)
    {
      this.lock := lock;
      acqs := new nat[MAXHOSTS](_ => 0);
      acqscope := new int[MAXHOSTS](_ => 0);
      acqc, scope := 0, 0;
      var node := new Node(0);
      wtntp := node;
      view := View([node], [[]], {node});
      new;
      assert HoldsAt(wtntp, []);
    }

    ghost predicate Valid()
      reads this, acqs, acqscope, view.repr
    {
      && acqs.Length == acqscope.Length == MAXHOSTS && acqc <= MAXHOSTS
      && IsList(wtntp, view) && AllSendable(view.Contents()) && Distinct(view.Contents())
    }

    /** The hosts that hold or wait for the lock, in order. */
    ghost function Queue(): (q: seq<P.Acquirer>)
      requires acqs.Length == acqscope.Length == MAXHOSTS && acqc <= MAXHOSTS
      reads this, acqs, acqscope
    {
      QueueOf(acqs[..], acqscope[..], acqc)
    }

    /** grantlock: the stream for host `to`. */
    method GrantLock(to: nat, reqscope: int, homeOf: nat -> nat)
      returns (msgs: seq<seq<Word>>, ghost parts: seq<seq<Entry>>)
      requires Valid()
      ensures msgs != [] && StreamOf(LockGrant(reqscope, to), homeOf, lock, msgs, parts)
      ensures Flat(parts) == view.Contents()
      ensures Carried(msgs, lock, NoticesOf(L.SentFrom(view.Contents(), homeOf, to, reqscope)))
    {
      SendableParts(view.lists);
      msgs, parts := SendWtnts(LockGrant(reqscope, to), homeOf, lock, wtntp, view);
      StreamCarries(LockGrant(reqscope, to), homeOf, lock, msgs, parts);
      SelectIsSent(view.Contents(), homeOf, to, reqscope);
    }

    /** acqserver: the host joins the queue and is granted the lock if nobody was before it. */
    method AcqServer(from: nat, reqscope: int, homeOf: nat -> nat)
      returns (granted: bool, msgs: seq<seq<Word>>, ghost parts: seq<seq<Entry>>)
      requires Valid() && acqc < MAXHOSTS
      modifies this`acqc, acqs, acqscope
      ensures Valid() && view == old(view) && Queue() == old(Queue()) + [P.Acquirer(from, reqscope)]
      ensures granted <==> old(Queue()) == []
      ensures granted ==> msgs != [] && StreamOf(LockGrant(reqscope, from), homeOf, lock, msgs, parts)
      ensures granted ==> Flat(parts) == view.Contents()
      ensures granted ==> Carried(msgs, lock, NoticesOf(L.SentFrom(view.Contents(), homeOf, from, reqscope)))
    {
      acqs[acqc], acqscope[acqc] := from, reqscope;
      acqc := acqc + 1;
      QueueGrows(old(acqs[..]), old(acqscope[..]), old(acqc), from, reqscope);
      assert acqs[..] == old(acqs[..])[old(acqc) := from] && acqscope[..] == old(acqscope[..])[old(acqc) := reqscope];
      granted, msgs, parts := false, [], [];
      if acqc == 1 {
        granted := true;
        msgs, parts := GrantLock(acqs[0], acqscope[0], homeOf);
      }
    }

    /** The loop of relserver that moves the waiting hosts up. */
    method Shift()
      requires Valid() && acqc > 0
      modifies this`acqc, acqs, acqscope
      ensures Valid() && view == old(view) && Queue() == old(Queue())[1..]
    {
      ghost var hs, ss := acqs[..], acqscope[..];
      MoveUp(acqs, acqscope, acqc - 1);
      acqc := acqc - 1;
      QueueShifts(hs, ss, acqs[..], acqscope[..], acqc + 1);
    }

    /** recordwtnts on the list of this lock: the entries of one WTNT, REL or BARR. */
    method Record(msg: seq<Word>, from: nat, ghost es: seq<Entry>)
      requires Valid() && from < MAXHOSTS && AllSendable(es) && msg == [lock] + Encode(Report, es)
      modifies this`view, view.repr
      ensures Valid() && fresh(view.repr - old(view.repr))
      ensures view.Contents() == SavedAll(old(view.Contents()), Reports(es, from, scope))
    {
      SavedSendable(view.Contents(), Reports(es, from, scope));
      SavedAllMentions(view.Contents(), Reports(es, from, scope));
      view := RecordWtnts(msg, from, scope, wtntp, view, lock, es);
    }

    /** wtntserver: a message of a report that is not its last is recorded, and that is all. */
    method WtntServer(msg: seq<Word>, from: nat, ghost es: seq<Entry>)
      requires Valid() && from < MAXHOSTS && AllSendable(es) && msg == [lock] + Encode(Report, es)
      modifies this`view, view.repr
      ensures Valid() && fresh(view.repr - old(view.repr)) && Queue() == old(Queue())
      ensures view.Contents() == SavedAll(old(view.Contents()), Reports(es, from, scope))
    {
      Record(msg, from, es);
    }

    /** relserver: the notices of the REL are recorded, the holder leaves the queue, and the next host, if
        there is one, is granted the lock.  noclear says that the host's noclearlocks is set, because the
        sender has seen a barrier (relscope) that this host has not (myscope). */
    method RelServer(msg: seq<Word>, from: nat, relscope: int, myscope: int, homeOf: nat -> nat, ghost es: seq<Entry>)
      returns (noclear: bool, granted: bool, to: nat, grant: seq<seq<Word>>, ghost parts: seq<seq<Entry>>)
      requires Valid() && from < MAXHOSTS && AllSendable(es) && msg == [lock] + Encode(Report, es)
      requires acqc > 0 && acqs[0] == from
      modifies this`acqc, this`scope, this`view, acqs, acqscope, view.repr
      ensures Valid() && fresh(view.repr - old(view.repr)) && scope == old(scope) + 1
      ensures view.Contents() == SavedAll(old(view.Contents()), Reports(es, from, old(scope)))
      ensures Queue() == old(Queue())[1..] && (granted <==> Queue() != []) && (noclear <==> relscope > myscope)
      ensures granted ==> to == Queue()[0].host && grant != []
      ensures granted ==> StreamOf(LockGrant(Queue()[0].scope, to), homeOf, lock, grant, parts)
      ensures granted ==> Flat(parts) == view.Contents()
      ensures granted ==> Carried(grant, lock, NoticesOf(L.SentFrom(view.Contents(), homeOf, to, Queue()[0].scope)))
    {
      noclear := relscope > myscope;
      Record(msg, from, es);
      scope := scope + 1;
      Shift();
      granted, to, grant, parts := false, 0, [], [];
      if acqc > 0 {
        granted, to := true, acqs[0];
        grant, parts := GrantLock(acqs[0], acqscope[0], homeOf);
      }
    }

    /** barrserver, for the lock that stands for the barrier: the notices of the BARR are recorded; the last
        host to arrive has the whole list granted, and emptied. */
    method BarrServer(msg: seq<Word>, from: nat, hostc: nat, homeOf: nat -> nat, ghost es: seq<Entry>)
      returns (last: bool, grant: seq<seq<Word>>, ghost parts: seq<seq<Entry>>)
      requires Valid() && from < MAXHOSTS && AllSendable(es) && msg == [lock] + Encode(Report, es) && acqc < hostc <= MAXHOSTS
      modifies this`acqc, this`scope, this`view, view.repr
      ensures Valid() && fresh(view.repr - old(view.repr)) && (last <==> old(acqc) + 1 == hostc)
      ensures var all := SavedAll(old(view.Contents()), Reports(es, from, old(scope)));
        && (!last ==> view.Contents() == all && acqc == old(acqc) + 1 && scope == old(scope))
        && (last ==> view.Contents() == [] && acqc == 0 && scope == old(scope) + 1)
        && (last ==> grant != [] && StreamOf(Barrier, homeOf, lock, grant, parts) && Flat(parts) == all)
        && (last ==> Carried(grant, lock, NoticesOf(all)))
    {
      Record(msg, from, es);
      acqc := acqc + 1;
      last, grant, parts := acqc == hostc, [], [];
      if last {
        grant, parts := GrantBarr(homeOf);
      }
    }

    /** The last arrival: the scope advances, grantbarr sends the whole list, and it is emptied. */
    method GrantBarr(homeOf: nat -> nat) returns (grant: seq<seq<Word>>, ghost parts: seq<seq<Entry>>)
      requires Valid()
      modifies this`acqc, this`scope, this`view, wtntp
      ensures Valid() && view.repr == old(view.repr) && view.Contents() == [] && acqc == 0 && scope == old(scope) + 1
      ensures grant != [] && StreamOf(Barrier, homeOf, lock, grant, parts) && Flat(parts) == old(view.Contents())
      ensures Carried(grant, lock, NoticesOf(old(view.Contents())))
    {
      SendableParts(view.lists);
      scope := scope + 1;
      grant, parts := SendWtnts(Barrier, homeOf, lock, wtntp, view);
      BarrierCarries(homeOf, lock, grant, parts);
      acqc := 0;
      view := FreeWtntSpace(wtntp, view);
    }

    /** clearlocks, for this lock. */
    method Clear()
      requires Valid()
      modifies this`view, wtntp
      ensures Valid() && view.Contents() == [] && view.repr == old(view.repr) && Queue() == old(Queue())
    {
      view := FreeWtntSpace(wtntp, view);
    }
  }

  function QueueOf(hs: seq<nat>, ss: seq<int>, n: nat): (q: seq<P.Acquirer>)
    requires n <= |hs| == |ss|
    ensures |q| == n && forall i :: 0 <= i < n ==> q[i] == P.Acquirer(hs[i], ss[i])
  {
    seq(n, i requires 0 <= i < n => P.Acquirer(hs[i], ss[i]))
  }

  lemma QueueGrows(hs: seq<nat>, ss: seq<int>, n: nat, h: nat, s: int)
    requires n < |hs| == |ss|
    ensures QueueOf(hs[n := h], ss[n := s], n + 1) == QueueOf(hs, ss, n) + [P.Acquirer(h, s)]
  {
  }

  lemma QueueShifts(hs: seq<nat>, ss: seq<int>, hs': seq<nat>, ss': seq<int>, n: nat)
    requires 0 < n <= |hs| == |ss| && |hs'| == |ss'| == |hs|
    requires MovedUp(hs, hs', n - 1) && MovedUp(ss, ss', n - 1)
    ensures QueueOf(hs', ss', n - 1) == QueueOf(hs, ss, n)[1..]
  {
  }

  // ---------------------------------------------------------------- and the protocol's steps

  function PageSets(parts: seq<seq<Entry>>): (r: seq<set<nat>>)
    ensures |r| == |parts| && forall i :: 0 <= i < |parts| ==> r[i] == R.Pages(parts[i])
  {
    seq(|parts|, i requires 0 <= i < |parts| => R.Pages(parts[i]))
  }

  /** The messages of a report, as sendwtnts splits a list without repeated pages, are the protocol's. */
  lemma StreamIsReport(parts: seq<seq<Entry>>)
    requires Split(parts) && Distinct(Flat(parts))
    ensures P.IsReport(R.Pages(Flat(parts)), PageSets(parts))
  {
    FlatReport(parts);
    forall i | 0 <= i < |parts| ensures |PageSets(parts)[i]| == |parts[i]| {
      DistinctPart(parts, i);
      DistinctPages(parts[i]);
    }
    SameSizes(parts, PageSets(parts));
  }

  lemma SameSizes(parts: seq<seq<Entry>>, sets: seq<set<nat>>)
    requires Split(parts) && |sets| == |parts| && forall i :: 0 <= i < |parts| ==> |sets[i]| == |parts[i]|
    ensures P.Sized(sets)
  {
  }

  lemma {:induction false} FlatReport(parts: seq<seq<Entry>>)
    requires Distinct(Flat(parts))
    ensures P.Union(PageSets(parts)) == R.Pages(Flat(parts)) && P.Apart(PageSets(parts))
  {
    if parts != [] {
      var n := |parts| - 1;
      FlatPrefix(parts, n);
      TakeAll(parts);
      DistinctParts(Flat(parts[..n]), parts[n]);
      FlatReport(parts[..n]);
      SetsSnoc(parts);
      LastApart(PageSets(parts));
    }
  }

  lemma {:induction false} DistinctPart(parts: seq<seq<Entry>>, i: nat)
    requires Distinct(Flat(parts)) && i < |parts|
    ensures Distinct(parts[i])
  {
    if i == 0 {
      DistinctParts(parts[0], Flat(parts[1..]));
    } else {
      DistinctParts(parts[0], Flat(parts[1..]));
      DistinctPart(parts[1..], i - 1);
    }
  }

  lemma SetsSnoc(parts: seq<seq<Entry>>)
    requires parts != []
    ensures PageSets(parts)[..|parts| - 1] == PageSets(parts[..|parts| - 1])
    ensures P.Union(PageSets(parts)) == P.Union(PageSets(parts[..|parts| - 1])) + R.Pages(parts[|parts| - 1])
  {
    assert PageSets(parts)[..|parts| - 1] == PageSets(parts[..|parts| - 1]);
  }

  lemma LastApart(sets: seq<set<nat>>)
    requires sets != [] && P.Apart(sets[..|sets| - 1]) && P.Union(sets[..|sets| - 1]) !! sets[|sets| - 1]
    ensures P.Apart(sets)
  {
    var n := |sets| - 1;
    forall i, j | 0 <= i < j < |sets| ensures sets[i] !! sets[j] {
      assert sets[..n][i] == sets[i];
      if j < n { assert sets[..n][j] == sets[j]; }
    }
  }

  lemma DistinctParts(a: seq<Entry>, b: seq<Entry>)
    requires Distinct(a + b)
    ensures Distinct(a) && Distinct(b) && R.Pages(a) !! R.Pages(b) && R.Pages(a + b) == R.Pages(a) + R.Pages(b)
  {
    var s := a + b;
    assert forall i :: 0 <= i < |a| ==> s[i] == a[i];
    assert forall i :: 0 <= i < |b| ==> s[|a| + i] == b[i];
    forall p: nat ensures p in R.Pages(s) <==> p in R.Pages(a) + R.Pages(b) {
      if Mentions(b, p) {
        var i :| 0 <= i < |b| && Page(b[i].addr) == p;
        assert Page(s[|a| + i].addr) == p;
      }
    }
  }

  lemma {:induction false} DistinctPages(s: seq<Entry>)
    requires Distinct(s)
    ensures |R.Pages(s)| == |s|
  {
    if s != [] {
      DistinctPages(s[..|s| - 1]);
      R.PagesSnoc(s);
    }
  }

  /** What WtntServer records is what the protocol's step for a WTNT records. */
  lemma WtntRefines(was: seq<Entry>, es: seq<Entry>, scope: int, k: P.LockState, from: nat, rest: seq<set<nat>>, epoch: nat, itv: nat)
    requires Distinct(was) && Distinct(es) && k.scope == scope && k.notices == R.Meaning(was)
    ensures var k' := P.PartRecorded(k, from, P.RelMsg([R.Pages(es)] + rest, epoch, itv));
      k' == k.(notices := R.Meaning(SavedAll(was, Reports(es, from, scope))), log := k'.log, hist := k'.hist)
  {
    BarrierRefines(was, es, from, scope);
  }

  /** What RelServer leaves is what the protocol's step for a release leaves. */
  lemma ReleaseRefines(was: seq<Entry>, es: seq<Entry>, now: seq<Entry>, queue: seq<P.Acquirer>, scope: int,
    k: P.LockState, from: nat, epoch: nat, itv: nat)
    requires Distinct(was) && Distinct(es) && now == SavedAll(was, Reports(es, from, scope))
    requires queue != [] && k.acqs == queue && k.scope == scope && k.notices == R.Meaning(was)
    ensures var k' := P.RelRecorded(k, from, P.RelMsg([R.Pages(es)], epoch, itv));
      k'.acqs == queue[1..] && k'.scope == scope + 1 && k'.notices == R.Meaning(now)
  {
    BarrierRefines(was, es, from, scope);
  }

  /** And BarrServer records what the protocol's step for a BARR records. */
  lemma BarrierRefines(was: seq<Entry>, es: seq<Entry>, from: nat, scope: int)
    requires Distinct(was) && Distinct(es)
    ensures R.Meaning(SavedAll(was, Reports(es, from, scope))) == P.Record(R.Meaning(was), R.Pages(es), from, scope)
  {
    var rs := Reports(es, from, scope);
    R.ReportsRecorded(was, rs, from, scope);
    SamePages(es, from, scope);
  }

  /** What a host reads means the notices n: it names exactly their pages, each once, with its writer. */
  ghost predicate Means(ns: seq<Notice>, n: P.Notices) {
    && (forall p: nat :: p in n <==> exists i :: 0 <= i < |ns| && Page(ns[i].addr) == p)
    && (forall i :: 0 <= i < |ns| ==> Page(ns[i].addr) in n && n[Page(ns[i].addr)].from == ns[i].modifypid)
    && (forall i, j :: 0 <= i < j < |ns| ==> Page(ns[i].addr) != Page(ns[j].addr))
  }

  /** The messages of a barrier grant, read one after another, mean the notices that the protocol sends. */
  lemma BarrierMeaning(was: seq<Entry>, es: seq<Entry>, from: nat, scope: int, msgs: seq<seq<Word>>, lock: Word)
    requires Distinct(was) && Distinct(es) && Carried(msgs, lock, NoticesOf(SavedAll(was, Reports(es, from, scope))))
    ensures Means(DecodedAll(msgs, lock), P.Record(R.Meaning(was), R.Pages(es), from, scope))
  {
    BarrierRefines(was, es, from, scope);
    SavedAllMentions(was, Reports(es, from, scope));
    ListMeaning(SavedAll(was, Reports(es, from, scope)), DecodedAll(msgs, lock));
  }

  lemma ListMeaning(all: seq<Entry>, ns: seq<Notice>)
    requires Distinct(all) && ns == NoticesOf(all)
    ensures Means(ns, R.Meaning(all))
  {
    forall p: nat ensures p in R.Meaning(all) <==> exists i :: 0 <= i < |ns| && Page(ns[i].addr) == p {
      if Mentions(all, p) {
        var i :| 0 <= i < |all| && Page(all[i].addr) == p;
        assert Page(ns[i].addr) == p;
      }
    }
    forall i | 0 <= i < |ns|
      ensures Page(ns[i].addr) in R.Meaning(all) && R.Meaning(all)[Page(ns[i].addr)].from == ns[i].modifypid
    {
      R.IndexUnique(all, i);
      assert Page(all[i].addr) == Page(ns[i].addr);
    }
  }

  lemma SamePages(es: seq<Entry>, from: nat, scope: int)
    ensures R.Pages(Reports(es, from, scope)) == R.Pages(es)
  {
    var rs := Reports(es, from, scope);
    forall p: nat ensures p in R.Pages(rs) <==> p in R.Pages(es) {
      if Mentions(es, p) {
        var i :| 0 <= i < |es| && Page(es[i].addr) == p;
        assert Page(rs[i].addr) == p;
      }
      if Mentions(rs, p) {
        var i :| 0 <= i < |rs| && Page(rs[i].addr) == p;
        assert Page(es[i].addr) == p;
      }
    }
  }
}
