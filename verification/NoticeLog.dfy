/** What the compacted list of notices still says about the complete history of reports. */
module NoticeLog {
  import opened Notices

  /** The compacted list that a history of reports leaves. */
  function Compact(hist: seq<Entry>): (s: seq<Entry>)
    ensures Distinct(s) && forall p :: Mentions(s, p) <==> Mentions(hist, p)
  {
    SavedAllMentions([], hist);
    SavedAll([], hist)
  }

  function ReportsOf(hist: seq<Entry>, p: nat): (r: seq<Entry>)
    ensures r == [] <==> !Mentions(hist, p)
  {
    if hist == [] then []
    else
      var n := |hist| - 1;
      assert hist == hist[..n] + [hist[n]];
      MentionsSnoc(hist[..n], hist[n], p);
      ReportsOf(hist[..n], p) + if Page(hist[n].addr) == p then [hist[n]] else []
  }

  /** What one entry remembers of the reports of its page: the address of the first, the scope and
      the tag of the last, and the writer only if there was a single report. */
  predicate Remembers(e: Entry, rs: seq<Entry>) {
    && rs != [] && e.addr == rs[0].addr
    && e.scope == rs[|rs| - 1].scope && e.mig == rs[|rs| - 1].mig
    && e.from == if |rs| == 1 then rs[0].from else MAXHOSTS
  }

  lemma {:induction false} EntryRemembers(hist: seq<Entry>, i: nat)
    requires i < |Compact(hist)|
    ensures Remembers(Compact(hist)[i], ReportsOf(hist, Page(Compact(hist)[i].addr)))
  {
    var n := |hist| - 1;
    var was, e := Compact(hist[..n]), hist[n];
    var k := IndexOf(was, Page(e.addr));
    if k == |was| && i == k {
      assert !Mentions(was, Page(e.addr));
    } else {
      EntryRemembers(hist[..n], i);
      assert Page(Compact(hist)[i].addr) == Page(was[i].addr);
      assert i != k && k < |was| ==> Page(was[i].addr) != Page(was[k].addr);
    }
  }

  /** The entry names a host exactly when that host made the only report of the page. */
  lemma WriterNamed(hist: seq<Entry>, i: nat, h: nat)
    requires i < |Compact(hist)| && h < MAXHOSTS && forall k :: 0 <= k < |hist| ==> hist[k].from < MAXHOSTS
    ensures var rs := ReportsOf(hist, Page(Compact(hist)[i].addr));
      (Compact(hist)[i].from == h <==> |rs| == 1 && rs[0].from == h)
      && (Compact(hist)[i].from == MAXHOSTS <==> |rs| >= 2)
  {
    var p := Page(Compact(hist)[i].addr);
    EntryRemembers(hist, i);
    ReportsFromHist(hist, p, 0);
  }

  lemma {:induction false} ReportsFromHist(hist: seq<Entry>, p: nat, j: nat)
    ensures j < |ReportsOf(hist, p)| ==> ReportsOf(hist, p)[j] in hist && Page(ReportsOf(hist, p)[j].addr) == p
  {
    if hist != [] {
      ReportsFromHist(hist[..|hist| - 1], p, j);
    }
  }

  predicate Ascending(hist: seq<Entry>) {
    forall i, j :: 0 <= i < j < |hist| ==> hist[i].scope <= hist[j].scope
  }

  predicate Newer(s: seq<Entry>, p: nat, scope: int) {
    exists i :: 0 <= i < |s| && Page(s[i].addr) == p && s[i].scope > scope
  }

  /** "Was the page reported after this scope" has the same answer in the list and in the history. */
  lemma {:induction false} AnswersLikeTheLog(hist: seq<Entry>, p: nat, scope: int)
    requires Ascending(hist)
    ensures Newer(Compact(hist), p, scope) <==> Newer(hist, p, scope)
  {
    if hist != [] {
      var n := |hist| - 1;
      AnswersLikeTheLog(hist[..n], p, scope);
      if Newer(hist[..n], p, scope) {
        assert Newer(hist, p, scope);
      }
      NewerSaved(Compact(hist[..n]), hist[n], p, scope);
      assert Newer(hist, p, scope) ==> Newer(hist[..n], p, scope) || (Page(hist[n].addr) == p && hist[n].scope > scope) by {
        assert forall i :: 0 <= i < n ==> hist[..n][i] == hist[i];
      }
      if Newer(hist[..n], p, scope) {
        var i :| 0 <= i < n && Page(hist[..n][i].addr) == p && hist[..n][i].scope > scope;
        assert hist[i].scope <= hist[n].scope;
      }
    }
  }

  lemma NewerSaved(s: seq<Entry>, e: Entry, p: nat, scope: int)
    requires Distinct(s)
    ensures Newer(Saved(s, e), p, scope) <==> if Page(e.addr) == p then e.scope > scope else Newer(s, p, scope)
  {
    var r, k := Saved(s, e), IndexOf(s, Page(e.addr));
    assert Page(r[k].addr) == Page(e.addr) && r[k].scope == e.scope;
    assert forall i :: 0 <= i < |s| && i != k ==> r[i] == s[i] && Page(s[i].addr) != Page(e.addr);
  }

  // ---------------------------------------------------------------- a lock's manager

  /** A lock at its manager: the compacted list, all reports since the list was last cleared
      (history), the scope, the scope of each host's last grant, and the holder. */
  datatype Lock = Lock(list: seq<Entry>, hist: seq<Entry>, scope: int, myscope: map<nat, int>, holder: Holder)
  datatype Holder = Free | HeldBy(host: nat)

  datatype LockStep = Grant(h: nat) | Release(es: seq<Entry>) | Clear

  function AcqScope(m: Lock, h: nat): int { if h in m.myscope then m.myscope[h] else -1 }

  /** What appendlockwtnts sends for an acquisition by h. */
  function Sent(m: Lock, homeOf: nat -> nat, h: nat): (r: seq<Entry>) {
    SentFrom(m.list, homeOf, h, AcqScope(m, h))
  }

  function SentFrom(s: seq<Entry>, homeOf: nat -> nat, h: nat, acqscope: int): (r: seq<Entry>)
    ensures forall e :: e in r <==> e in s && e.scope > acqscope && homeOf(Page(e.addr)) != h
  {
    if s == [] then []
    else
      (if s[0].scope > acqscope && homeOf(Page(s[0].addr)) != h then [s[0]] else [])
      + SentFrom(s[1..], homeOf, h, acqscope)
  }

  predicate LockEnabled(m: Lock, st: LockStep) {
    match st
    case Grant(h) => m.holder == Free && h < MAXHOSTS
    case Release(es) =>
      m.holder.HeldBy? && forall i :: 0 <= i < |es| ==> es[i].from == m.holder.host && es[i].scope == m.scope
    case Clear => true
  }

  function LockNext(m: Lock, st: LockStep): Lock
    requires LockEnabled(m, st)
  {
    match st
    case Grant(h) => m.(holder := HeldBy(h), myscope := m.myscope[h := m.scope])
    case Release(es) => m.(holder := Free, list := SavedAll(m.list, es), hist := m.hist + es, scope := m.scope + 1)
    case Clear => m.(list := [], hist := [])
  }

  ghost predicate LockInv(m: Lock) {
    && m.list == Compact(m.hist) && Ascending(m.hist)
    && (forall i :: 0 <= i < |m.hist| ==> m.hist[i].from < MAXHOSTS && m.hist[i].scope < m.scope)
    && (forall i :: 0 <= i < |m.hist| ==> m.hist[i].scope <= AcqScope(m, m.hist[i].from))
    && (m.holder.HeldBy? ==> m.holder.host < MAXHOSTS && AcqScope(m, m.holder.host) == m.scope)
    && m.scope >= 0 && (forall h :: h in m.myscope ==> m.myscope[h] <= m.scope)
  }

  lemma {:induction false} CompactConcat(a: seq<Entry>, b: seq<Entry>)
    ensures Compact(a + b) == SavedAll(Compact(a), b)
  {
    if b == [] {
      assert a + b == a;
    } else {
      var n := |b| - 1;
      assert (a + b)[..|a| + n] == a + b[..n];
      CompactConcat(a, b[..n]);
    }
  }

  lemma LockStepInv(m: Lock, st: LockStep)
    requires LockInv(m) && LockEnabled(m, st)
    ensures LockInv(LockNext(m, st))
  {
    match st
    case Grant(h) => GrantInv(m, h);
    case Release(es) => ReleaseInv(m, es);
    case Clear =>
  }

  lemma GrantInv(m: Lock, h: nat)
    requires LockInv(m) && LockEnabled(m, Grant(h))
    ensures LockInv(LockNext(m, Grant(h)))
  {
  }

  lemma ReleaseInv(m: Lock, es: seq<Entry>)
    requires LockInv(m) && LockEnabled(m, Release(es))
    ensures LockInv(LockNext(m, Release(es)))
  {
    CompactConcat(m.hist, es);
  }

  /** Nobody else is granted the lock until its holder has released it, and then anybody can be. */
  lemma OneAtATime(m: Lock, h: nat, es: seq<Entry>)
    requires LockEnabled(m, Grant(h)) && forall i :: 0 <= i < |es| ==> es[i].from == h && es[i].scope == m.scope
    ensures var held := LockNext(m, Grant(h));
      && (forall i :: !LockEnabled(held, Grant(i))) && LockEnabled(held, Release(es)) && LockEnabled(held, Clear)
      && forall i :: 0 <= i < MAXHOSTS ==> LockEnabled(LockNext(held, Release(es)), Grant(i))
  {
  }

  ghost predicate LockReachable(m: Lock, n: nat)
    decreases n
  {
    if n == 0 then m == Lock([], [], 0, map[], Free)
    else exists was, st :: LockReachable(was, n - 1) && LockEnabled(was, st) && m == LockNext(was, st)
  }

  lemma {:induction false} LockReachableInv(m: Lock, n: nat)
    requires LockReachable(m, n)
    ensures LockInv(m)
    decreases n
  {
    if n > 0 {
      var was, st :| LockReachable(was, n - 1) && LockEnabled(was, st) && m == LockNext(was, st);
      LockReachableInv(was, n - 1);
      LockStepInv(was, st);
    }
  }

  lemma SentIsNewer(s: seq<Entry>, homeOf: nat -> nat, h: nat, a: int, p: nat)
    ensures Mentions(SentFrom(s, homeOf, h, a), p) <==> Newer(s, p, a) && homeOf(p) != h
  {
    var sent := SentFrom(s, homeOf, h, a);
    if Mentions(sent, p) {
      var i :| 0 <= i < |sent| && Page(sent[i].addr) == p;
      assert sent[i] in sent && sent[i] in s;
    }
    if Newer(s, p, a) && homeOf(p) != h {
      var i :| 0 <= i < |s| && Page(s[i].addr) == p && s[i].scope > a;
      assert s[i] in sent;
    }
  }

  /** An entry that names its writer is no newer than the writer's own last grant. */
  lemma OwnIsOld(m: Lock, i: nat)
    requires LockInv(m) && i < |m.list| && m.list[i].from < MAXHOSTS
    ensures m.list[i].scope <= AcqScope(m, m.list[i].from)
  {
    EntryRemembers(m.hist, i);
    ReportsFromHist(m.hist, Page(m.list[i].addr), 0);
  }

  /** In every run, a grant tells the acquirer of exactly the pages (homed elsewhere) that the full
      history says were reported after its own last grant, each once, and never names the acquirer. */
  lemma GrantsRefineTheLog(m: Lock, n: nat, homeOf: nat -> nat, h: nat, p: nat)
    requires LockReachable(m, n) && h < MAXHOSTS
    ensures Mentions(Sent(m, homeOf, h), p) <==> Newer(m.hist, p, AcqScope(m, h)) && homeOf(p) != h
    ensures Distinct(m.list) && forall e :: e in Sent(m, homeOf, h) ==> e.from != h
  {
    LockReachableInv(m, n);
    AnswersLikeTheLog(m.hist, p, AcqScope(m, h));
    SentIsNewer(m.list, homeOf, h, AcqScope(m, h), p);
    forall e | e in Sent(m, homeOf, h) ensures e.from != h {
      var i :| 0 <= i < |m.list| && m.list[i] == e;
      if e.from == h { OwnIsOld(m, i); }
    }
  }
}
