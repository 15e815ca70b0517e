/** Pages as the coherence protocol sees them: 1024 units of four bytes.  A diff carries the units
    in which a dirty page differs from its twin; applying it to another image of the page
    overwrites those units and no others. */
module Pages {

  const UNITS := 1024

  type Word = w: int | 0 <= w < 0x1_0000_0000

  type PageData = d: seq<Word> | |d| == UNITS witness seq(UNITS, _ => 0)

  /** What a home page becomes when the diff of (page, twin) is applied to it. */
  function Merge(base: PageData, page: PageData, twin: PageData): (r: PageData)
    ensures forall u :: 0 <= u < UNITS ==> r[u] == if page[u] != twin[u] then page[u] else base[u]
  {
    seq(UNITS, u requires 0 <= u < UNITS => if page[u] != twin[u] then page[u] else base[u])
  }

  /** Applying a diff to the twin it was taken against restores the dirty page. */
  lemma MergeRestores(page: PageData, twin: PageData)
    ensures Merge(twin, page, twin) == page
  {
    assert forall u :: 0 <= u < UNITS ==> Merge(twin, page, twin)[u] == page[u];
  }

  /** Diffs that change disjoint units may reach the home in either order. */
  lemma DisjointMergesCommute(base: PageData, p1: PageData, t1: PageData, p2: PageData, t2: PageData)
    requires forall u :: 0 <= u < UNITS ==> p1[u] == t1[u] || p2[u] == t2[u]
    ensures Merge(Merge(base, p1, t1), p2, t2) == Merge(Merge(base, p2, t2), p1, t1)
  {
    var a, b := Merge(Merge(base, p1, t1), p2, t2), Merge(Merge(base, p2, t2), p1, t1);
    assert forall u :: 0 <= u < UNITS ==> a[u] == b[u];
  }

  /** Applying the same diff twice is applying it once. */
  lemma MergeIdempotent(base: PageData, page: PageData, twin: PageData)
    ensures Merge(Merge(base, page, twin), page, twin) == Merge(base, page, twin)
  {
    var a, b := Merge(Merge(base, page, twin), page, twin), Merge(base, page, twin);
    assert forall u :: 0 <= u < UNITS ==> a[u] == b[u];
  }
}
