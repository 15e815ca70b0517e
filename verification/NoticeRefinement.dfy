/** The protocol's map of notices is what the compacted list means: recording a report and
    answering an acquirer on lists are the protocol's operations on maps. */
module NoticeRefinement {
  import opened Seqs
  import N = Notices
  import L = NoticeLog
  import P = Protocol

  function Pages(s: seq<N.Entry>): (r: set<nat>)
    ensures forall p :: p in r <==> N.Mentions(s, p)
  {
    set i | 0 <= i < |s| :: N.Page(s[i].addr)
  }

  lemma MentionsIndex(s: seq<N.Entry>, p: nat)
    ensures N.Mentions(s, p) <==> N.IndexOf(s, p) < |s|
  {
  }

  function At(s: seq<N.Entry>, p: nat): (e: P.Entry)
    requires N.Mentions(s, p)
  {
    MentionsIndex(s, p);
    P.Entry(s[N.IndexOf(s, p)].from, s[N.IndexOf(s, p)].scope)
  }

  /** What a list of notices means. */
  function Meaning(s: seq<N.Entry>): (m: P.Notices) {
    map p | p in Pages(s) :: At(s, p)
  }

  lemma IndexUnique(s: seq<N.Entry>, i: nat)
    requires N.Distinct(s) && i < |s|
    ensures N.IndexOf(s, N.Page(s[i].addr)) == i
  {
  }

  /** One page after one report. */
  lemma OneReportAt(s: seq<N.Entry>, e: N.Entry, p: nat)
    requires N.Distinct(s)
    ensures var m, n := Meaning(N.Saved(s, e)), P.Record(Meaning(s), {N.Page(e.addr)}, e.from, e.scope);
      (p in m <==> p in n) && (p in m ==> m[p] == n[p])
  {
    var r, q := N.Saved(s, e), N.Page(e.addr);
    var k, i := N.IndexOf(s, q), N.IndexOf(s, p);
    MentionsIndex(s, q);
    MentionsIndex(s, p);
    if p == q {
      IndexUnique(r, k);
    } else if i < |s| {
      assert r[i] == s[i];
      IndexUnique(r, i);
    }
  }

  lemma SameMap(m: P.Notices, n: P.Notices)
    requires forall p :: p in m <==> p in n
    requires forall p :: p in m ==> m[p] == n[p]
    ensures m == n
  {
    assert m.Keys == n.Keys;
  }

  lemma OneReport(s: seq<N.Entry>, e: N.Entry)
    requires N.Distinct(s)
    ensures Meaning(N.Saved(s, e)) == P.Record(Meaning(s), {N.Page(e.addr)}, e.from, e.scope)
  {
    var m, n := Meaning(N.Saved(s, e)), P.Record(Meaning(s), {N.Page(e.addr)}, e.from, e.scope);
    forall p: nat ensures (p in m <==> p in n) && (p in m ==> m[p] == n[p]) {
      OneReportAt(s, e, p);
    }
    SameMap(m, n);
  }

  lemma PagesSnoc(es: seq<N.Entry>)
    requires es != []
    ensures Pages(es) == Pages(es[..|es| - 1]) + {N.Page(es[|es| - 1].addr)}
    ensures N.Distinct(es) ==> N.Page(es[|es| - 1].addr) !in Pages(es[..|es| - 1])
  {
    var n := |es| - 1;
    SplitLast(es);
    forall p: nat ensures p in Pages(es) <==> p in Pages(es[..n]) + {N.Page(es[n].addr)} {
      N.MentionsSnoc(es[..n], es[n], p);
    }
  }

  /** recordwtnts on the list is Record on its meaning. */
  lemma {:induction false} ReportsRecorded(s: seq<N.Entry>, es: seq<N.Entry>, from: nat, scope: int)
    requires N.Distinct(s) && N.Distinct(es)
    requires forall i :: 0 <= i < |es| ==> es[i].from == from && es[i].scope == scope
    ensures Meaning(N.SavedAll(s, es)) == P.Record(Meaning(s), Pages(es), from, scope)
  {
    var m := Meaning(s);
    if es == [] {
      RecordNone(m, from, scope);
    } else {
      var n := |es| - 1;
      ReportsRecorded(s, es[..n], from, scope);
      N.SavedAllMentions(s, es[..n]);
      OneReport(N.SavedAll(s, es[..n]), es[n]);
      PagesSnoc(es);
      RecordOneMore(m, Pages(es[..n]), N.Page(es[n].addr), from, scope);
    }
  }

  lemma RecordNone(m: P.Notices, from: nat, scope: int)
    ensures P.Record(m, {}, from, scope) == m
  {
  }

  lemma RecordOneMore(m: P.Notices, ps: set<nat>, q: nat, from: nat, scope: int)
    requires q !in ps
    ensures P.Record(P.Record(m, ps, from, scope), {q}, from, scope) == P.Record(m, ps + {q}, from, scope)
  {
  }

  /** appendlockwtnts on the list is GrantNotices on its meaning. */
  lemma GrantMeaning(c: P.Config, s: seq<N.Entry>, h: nat, acqscope: int)
    requires N.Distinct(s) && P.ValidConfig(c) && forall i :: 0 <= i < |s| ==> N.Page(s[i].addr) < c.pages
    ensures Meaning(L.SentFrom(s, HomeOf(c, h), h, acqscope)) == P.GrantNotices(c, Meaning(s), acqscope, h)
  {
    var m, n := Meaning(L.SentFrom(s, HomeOf(c, h), h, acqscope)), P.GrantNotices(c, Meaning(s), acqscope, h);
    forall p: nat ensures (p in m <==> p in n) && (p in m ==> m[p] == n[p]) {
      GrantAt(c, s, h, acqscope, p);
    }
    SameMap(m, n);
  }

  function HomeAt(c: P.Config, none: nat, p: nat): nat { if p < |c.homeOf| then c.homeOf[p] else none }

  function HomeOf(c: P.Config, none: nat): nat -> nat {
    (p: nat) => HomeAt(c, none, p)
  }

  lemma GrantAt(c: P.Config, s: seq<N.Entry>, h: nat, acqscope: int, p: nat)
    requires N.Distinct(s) && P.ValidConfig(c) && forall i :: 0 <= i < |s| ==> N.Page(s[i].addr) < c.pages
    ensures var m, n := Meaning(L.SentFrom(s, HomeOf(c, h), h, acqscope)), P.GrantNotices(c, Meaning(s), acqscope, h);
      (p in m <==> p in n) && (p in m ==> m[p] == n[p])
  {
    var sent := L.SentFrom(s, HomeOf(c, h), h, acqscope);
    L.SentIsNewer(s, HomeOf(c, h), h, acqscope, p);
    MentionsIndex(s, p);
    MentionsIndex(sent, p);
    if L.Newer(s, p, acqscope) {
      var i :| 0 <= i < |s| && N.Page(s[i].addr) == p && s[i].scope > acqscope;
      IndexUnique(s, i);
    }
    if N.Mentions(sent, p) {
      var e := sent[N.IndexOf(sent, p)];
      assert e in sent;
      var i :| 0 <= i < |s| && s[i] == e;
      IndexUnique(s, i);
    }
  }
}
