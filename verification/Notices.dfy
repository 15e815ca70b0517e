/** Write notices as values: one entry per page, compacted as they are recorded. */
module Notices {
  import opened Seqs

  const PAGESIZE := 4096
  const MAXHOSTS := 16

  datatype Entry = Entry(addr: nat, mig: int, from: nat, scope: int)

  function Page(addr: nat): nat { addr / PAGESIZE }

  predicate Mentions(s: seq<Entry>, page: nat) { exists i :: 0 <= i < |s| && Page(s[i].addr) == page }

  predicate Distinct(s: seq<Entry>) {
    forall i, j :: 0 <= i < j < |s| ==> Page(s[i].addr) != Page(s[j].addr)
  }

  /** The first entry for a page, or |s|. */
  function IndexOf(s: seq<Entry>, page: nat): (i: nat)
    ensures i <= |s| && forall k :: 0 <= k < i ==> Page(s[k].addr) != page
    ensures i < |s| ==> Page(s[i].addr) == page
  {
    if s == [] || Page(s[0].addr) == page then 0 else 1 + IndexOf(s[1..], page)
  }

  /** The list after savewtnt(addr, mig, from, scope): a page that is already there loses its
      writer and keeps its first address. */
  function Saved(s: seq<Entry>, e: Entry): (r: seq<Entry>)
    ensures Distinct(s) ==> Distinct(r)
    ensures forall p :: Mentions(r, p) <==> Mentions(s, p) || p == Page(e.addr)
    ensures var i := IndexOf(s, Page(e.addr));
      && |r| == (if i < |s| then |s| else |s| + 1) && (forall k :: 0 <= k < |s| && k != i ==> r[k] == s[k])
      && r[i] == if i < |s| then Entry(s[i].addr, e.mig, MAXHOSTS, e.scope) else e
  {
    var i := IndexOf(s, Page(e.addr));
    if i == |s| then
      assert (s + [e])[|s|] == e;
      assert forall k :: 0 <= k < |s| ==> (s + [e])[k] == s[k];
      s + [e]
    else
      var r := s[i := Entry(s[i].addr, e.mig, MAXHOSTS, e.scope)];
      assert forall k :: 0 <= k < |s| ==> Page(r[k].addr) == Page(s[k].addr);
      r
  }

  function SavedAll(s: seq<Entry>, es: seq<Entry>): (r: seq<Entry>) {
    if es == [] then s else Saved(SavedAll(s, es[..|es| - 1]), es[|es| - 1])
  }

  lemma SavedAllSnoc(s: seq<Entry>, es: seq<Entry>, e: Entry)
    ensures SavedAll(s, es + [e]) == Saved(SavedAll(s, es), e)
  {
    assert (es + [e])[..|es|] == es;
  }

  /** A sequence of reports keeps pages distinct and adds exactly the pages that it mentions. */
  lemma {:induction false} SavedAllMentions(s: seq<Entry>, es: seq<Entry>)
    ensures Distinct(s) ==> Distinct(SavedAll(s, es))
    ensures forall p :: Mentions(SavedAll(s, es), p) <==> Mentions(s, p) || Mentions(es, p)
  {
    if es != [] {
      var front, e := es[..|es| - 1], es[|es| - 1];
      SplitLast(es);
      SavedAllMentions(s, front);
      forall p ensures Mentions(es, p) <==> Mentions(front, p) || p == Page(e.addr) {
        MentionsSnoc(front, e, p);
      }
    }
  }

  lemma MentionsSnoc(s: seq<Entry>, e: Entry, p: nat)
    ensures Mentions(s + [e], p) <==> Mentions(s, p) || p == Page(e.addr)
  {
    var r := s + [e];
    assert r[|s|] == e;
    assert forall k :: 0 <= k < |s| ==> r[k] == s[k];
  }
}
