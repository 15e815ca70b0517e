/** Where the tables move a page is where the protocol moves it: the granted list, gone through by every
    host, gives the home map of the protocol's migration. */
module MigrationRefinement {
  import N = Notices
  import R = NoticeRefinement
  import H = HostTables
  import M = Migration
  import A = MigrationRuns
  import P = Protocol

  lemma {:induction false} NoneFor(es: seq<M.Notice>, p: nat, was: nat)
    requires forall i :: 0 <= i < |es| ==> es[i].page != p
    ensures M.HomeAfter(es, p, was) == was
  {
    if es != [] {
      NoneFor(es[1..], p, was);
    }
  }

  /** The one entry for a page decides. */
  lemma {:induction false} HomeOfEntry(es: seq<M.Notice>, i: nat, p: nat, was: nat)
    requires i < |es| && es[i].page == p && forall j :: 0 <= j < |es| && j != i ==> es[j].page != p
    ensures M.HomeAfter(es, p, was) == if M.Moves(es[i]) then es[i].modifypid else was
  {
    if i == 0 {
      NoneFor(es[1..], p, if M.Moves(es[0]) then es[0].modifypid else was);
    } else {
      HomeOfEntry(es[1..], i - 1, p, was);
    }
  }

  /** The tag of an entry that names a host: that host held the page when it reported it, and being at
      the barrier since then it still does. */
  ghost predicate TagsTrue(c: P.Config, s: P.State, list: seq<N.Entry>)
    requires P.Wf(c, s)
  {
    forall i :: 0 <= i < |list| && list[i].from < c.hosts && N.Page(list[i].addr) < c.pages ==>
      (list[i].mig != 0 <==> s.hosts[list[i].from].lines[N.Page(list[i].addr)].Valid())
  }

  /** The page's home after the list is the protocol's new home for it. */
  lemma HomesRefine(c: P.Config, s: P.State, list: seq<N.Entry>, p: nat)
    requires P.Wf(c, s) && P.CanMigrate(c, s) && p < c.pages
    requires N.Distinct(list) && R.Meaning(list) == P.Granted(c, s) && TagsTrue(c, s, list)
    requires forall i :: 0 <= i < |list| ==> list[i].from < c.hosts || list[i].from == H.MAXHOSTS
    requires !s.hosts[c.homeOf[p]].lines[p].Valid()
    ensures M.HomeAfter(A.AsNotices(list), p, c.homeOf[p]) == P.NewHome(c, s, p)
  {
    var es, i := A.AsNotices(list), N.IndexOf(list, p);
    R.MentionsIndex(list, p);
    if i < |list| {
      assert R.Meaning(list)[p] == P.Entry(list[i].from, list[i].scope);
      HomeOfEntry(es, i, p, c.homeOf[p]);
    } else {
      forall j | 0 <= j < |es| ensures es[j].page != p {
        assert N.Page(list[j].addr) == es[j].page;
      }
      NoneFor(es, p, c.homeOf[p]);
    }
  }
}
