/** How a report of pages is split over messages. */
module ProtocolReports {
  import opened Protocol
  import opened ProtocolInv

  /** A report is as many messages as its pages need. */
  lemma {:induction false} ReportSize(parts: seq<set<nat>>)
    requires Apart(parts)
    requires forall i :: 0 <= i < |parts| - 1 ==> |parts[i]| == PARTPAGES
    ensures |parts| > 0 ==> |Union(parts)| == (|parts| - 1) * PARTPAGES + |parts[|parts| - 1]|
  {
    if |parts| > 0 {
      var front, last := parts[..|parts| - 1], parts[|parts| - 1];
      ReportSize(front);
      assert Union(front) !! last;
      assert |Union(front) + last| == |Union(front)| + |last|;
    }
  }

  lemma OneMessageIff(pages: set<nat>, parts: seq<set<nat>>)
    requires IsReport(pages, parts)
    ensures |parts| == 1 <==> |pages| <= LASTPAGES
  {
    ReportSize(parts);
  }

  /** Every list of pages can be sent. */
  lemma {:induction false} ReportExists(pages: set<nat>) returns (parts: seq<set<nat>>)
    ensures IsReport(pages, parts)
    decreases |pages|
  {
    if |pages| <= LASTPAGES {
      parts := [pages];
      assert Union(parts) == pages;
    } else {
      var first := SomeOf(pages, PARTPAGES);
      var rest := ReportExists(pages - first);
      parts := [first] + rest;
      FullMessageFirst(pages, first, rest);
    }
  }

  lemma FullMessageFirst(pages: set<nat>, first: set<nat>, rest: seq<set<nat>>)
    requires |pages| > LASTPAGES && first <= pages && |first| == PARTPAGES && |pages - first| == |pages| - PARTPAGES
    requires IsReport(pages - first, rest)
    ensures IsReport(pages, [first] + rest)
  {
    UnionFirst(first, rest);
    assert first + Union(rest) == pages;
    ApartFirst(first, rest);
    OnlyMessage(rest);
    SizedFirst(first, rest);
  }

  lemma SizedFirst(first: set<nat>, rest: seq<set<nat>>)
    requires |rest| > 0 && Sized(rest) && |first| == PARTPAGES && (|rest| == 1 ==> |rest[0]| > LASTPAGES - PARTPAGES)
    ensures Sized([first] + rest)
  {
    var parts := [first] + rest;
    assert forall i :: 0 < i < |parts| ==> parts[i] == rest[i - 1];
  }

  lemma InUnion(parts: seq<set<nat>>, i: nat)
    requires i < |parts|
    ensures parts[i] <= Union(parts)
  {
  }

  lemma ApartFirst(first: set<nat>, rest: seq<set<nat>>)
    requires Apart(rest) && first !! Union(rest)
    ensures Apart([first] + rest)
  {
    var parts := [first] + rest;
    forall i, j | 0 <= i < j < |parts| ensures parts[i] !! parts[j] {
      InUnion(rest, j - 1);
      if i > 0 { assert rest[i - 1] !! rest[j - 1]; }
    }
  }

  lemma OnlyMessage(rest: seq<set<nat>>)
    ensures |rest| == 1 ==> Union(rest) == rest[0]
  {
    if |rest| == 1 { assert Union(rest[..0]) == {}; }
  }

  lemma UnionFirst(first: set<nat>, rest: seq<set<nat>>)
    ensures Union([first] + rest) == first + Union(rest)
  {
    var parts := [first] + rest;
    assert parts[0] == first && forall i :: 0 < i < |parts| ==> parts[i] == rest[i - 1];
    forall p: nat ensures p in Union(parts) <==> p in first + Union(rest) {
      if p in Union(rest) {
        var i :| 0 <= i < |rest| && p in rest[i];
        assert p in parts[i + 1];
      }
    }
  }

  lemma {:induction false} SomeOf(pages: set<nat>, n: nat) returns (some: set<nat>)
    requires n <= |pages|
    ensures some <= pages && |some| == n && |pages - some| == |pages| - n
  {
    if n == 0 {
      some := {};
      assert pages - some == pages;
    } else {
      var few := SomeOf(pages, n - 1);
      var left := pages - few;
      var p :| p in left;
      some := few + {p};
      assert pages - some == left - {p} && |left - {p}| == |left| - 1;
    }
  }

  lemma ReportParts(pages: set<nat>, parts: seq<set<nat>>)
    requires IsReport(pages, parts)
    ensures PartsOk(parts)
  {
    forall i | 0 <= i < |parts| - 1 ensures parts[i] != {} { assert |parts[i]| == PARTPAGES; }
  }

  // ---------------------------------------------------------------- barrier reports in parts

  /** One WTNT or BARR message at the barrier manager. */
  datatype Part = Part(from: nat, pages: set<nat>)

  /** The notices after messages were recorded in this order. */
  function AllRecorded(parts: seq<Part>, scope: int): Notices {
    if parts == [] then map[]
    else Record(AllRecorded(parts[..|parts| - 1], scope), parts[|parts| - 1].pages, parts[|parts| - 1].from, scope)
  }

  /** Host h named page p. */
  predicate Names(parts: seq<Part>, h: nat, p: nat) {
    exists i :: 0 <= i < |parts| && parts[i].from == h && p in parts[i].pages
  }

  /** The messages of hosts that name no page twice, in any interleaving. */
  predicate Interleaved(parts: seq<Part>) {
    && (forall i :: 0 <= i < |parts| ==> parts[i].from < MAXHOSTS)
    && (forall i, j :: 0 <= i < j < |parts| && parts[i].from == parts[j].from ==> parts[i].pages !! parts[j].pages)
  }

  lemma NamesMore(parts: seq<Part>, h: nat, p: nat)
    requires parts != []
    ensures var n := |parts| - 1;
      Names(parts, h, p) <==> Names(parts[..n], h, p) || (h == parts[n].from && p in parts[n].pages)
  {
    var n := |parts| - 1;
    assert forall i :: 0 <= i < n ==> parts[..n][i] == parts[i];
  }

  ghost predicate Sole(parts: seq<Part>, h: nat, p: nat) {
    Names(parts, h, p) && forall i: nat :: Names(parts, i, p) ==> i == h
  }

  ghost predicate Named(parts: seq<Part>, p: nat) { exists h: nat :: Names(parts, h, p) }

  /** The entry of page p: its writer is a host if it is the only one that named the page. */
  ghost predicate EntryOk(parts: seq<Part>, n: Notices, scope: int, p: nat) {
    && (p in n <==> Named(parts, p))
    && (p in n ==> n[p].scope == scope && n[p].from <= MAXHOSTS)
    && (p in n ==> forall h: nat :: h < MAXHOSTS ==> (n[p].from == h <==> Sole(parts, h, p)))
  }

  lemma {:induction false} RecordedEntry(parts: seq<Part>, scope: int, p: nat)
    requires Interleaved(parts)
    ensures EntryOk(parts, AllRecorded(parts, scope), scope, p)
  {
    if parts != [] {
      var k := |parts| - 1;
      RecordedEntry(parts[..k], scope, p);
      forall h: nat ensures Names(parts, h, p) <==> Names(parts[..k], h, p) || (h == parts[k].from && p in parts[k].pages) {
        NamesMore(parts, h, p);
      }
      if p in parts[k].pages {
        assert Names(parts, parts[k].from, p);
        if Named(parts[..k], p) {
          var g: nat :| Names(parts[..k], g, p);
          assert g != parts[k].from && Names(parts, g, p);
        }
      } else {
        assert forall h: nat :: Sole(parts, h, p) <==> Sole(parts[..k], h, p);
      }
    }
  }

  /** However the hosts' reports are split and interleaved, the notices are the same; so they are those of
      every host's report arriving whole. */
  lemma SplitReportsSame(a: seq<Part>, b: seq<Part>, scope: int)
    requires Interleaved(a) && Interleaved(b) && forall h, p: nat :: Names(a, h, p) <==> Names(b, h, p)
    ensures AllRecorded(a, scope) == AllRecorded(b, scope)
  {
    var m, n := AllRecorded(a, scope), AllRecorded(b, scope);
    forall p: nat ensures (p in m <==> p in n) && (p in m ==> m[p] == n[p]) {
      RecordedEntry(a, scope, p);
      RecordedEntry(b, scope, p);
      SameEntry(a, b, m, n, scope, p);
    }
    assert m.Keys == n.Keys;
  }

  lemma SameEntry(a: seq<Part>, b: seq<Part>, m: Notices, n: Notices, scope: int, p: nat)
    requires EntryOk(a, m, scope, p) && EntryOk(b, n, scope, p) && forall h: nat :: Names(a, h, p) <==> Names(b, h, p)
    ensures (p in m <==> p in n) && (p in m ==> m[p] == n[p])
  {
    assert Named(a, p) <==> Named(b, p);
    assert forall h: nat :: Sole(a, h, p) <==> Sole(b, h, p);
    if p in m { SameWriter(a, m[p].from, n[p].from, p); }
  }

  lemma SameWriter(parts: seq<Part>, x: nat, y: nat, p: nat)
    requires x <= MAXHOSTS && y <= MAXHOSTS
    requires forall h: nat :: h < MAXHOSTS ==> (x == h <==> Sole(parts, h, p)) && (y == h <==> Sole(parts, h, p))
    ensures x == y
  {
    if x < MAXHOSTS { assert Sole(parts, x, p); }
    if y < MAXHOSTS { assert Sole(parts, y, p); }
  }
}
