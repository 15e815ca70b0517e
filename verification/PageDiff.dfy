/** The diff of a page: its encoding, and the loop at the home that parses and applies it.

    A diff is | page address (8 bytes) | size of the diff in bytes (4) | then, for each run of
    changed units, | start and length of the run in bytes (2 + 2) | the changed bytes |.
    Every field is a whole number of four-byte words, so buffers are arrays of words and word
    indexes stand for byte offsets divided by four. */
module PageDiff {
  import opened Seqs
  import opened Pages

  const WORDBYTES := 4
  const MAXMSGSIZE := 40960 - 32
  const MAXMSGWORDS := MAXMSGSIZE / WORDBYTES
  const HEAD := 3                       // words before the first run
  const B16 := 0x1_0000
  const B32 := 0x1_0000_0000

  type Address = a: int | 0 <= a < B32 * B32

  // ---------------------------------------------------------------- what a diff says

  /** A maximal run of changed units. */
  datatype Run = Run(start: nat, units: seq<Word>)

  predicate WfRun(r: Run) { r.start < UNITS && r.start + |r.units| <= UNITS }
  predicate WfRuns(runs: seq<Run>) { forall i :: 0 <= i < |runs| ==> WfRun(runs[i]) }

  /** The first unit at or after i in which the page differs from its twin (or, with same, agrees). */
  function Skip(page: seq<Word>, twin: seq<Word>, i: nat, same: bool): (j: nat)
    requires |page| == |twin| && i <= |page|
    ensures i <= j <= |page|
    ensures forall k :: i <= k < j ==> (page[k] == twin[k]) != same
    ensures j < |page| ==> (page[j] == twin[j]) == same
    decreases |page| - i
  {
    if i == |page| || (page[i] == twin[i]) == same then i else Skip(page, twin, i + 1, same)
  }

  /** The runs at or after unit i. */
  function Runs(page: seq<Word>, twin: seq<Word>, i: nat): (r: seq<Run>)
    requires |page| == |twin| == UNITS && i <= UNITS
    ensures WfRuns(r)
    decreases UNITS - i
  {
    var a := Skip(page, twin, i, false);
    if a == UNITS then []
    else
      var b := Skip(page, twin, a, true);
      [Run(a, page[a..b])] + Runs(page, twin, b)
  }

  /** mem with xs written at index lo. */
  function Patch(mem: seq<Word>, lo: nat, xs: seq<Word>): (r: seq<Word>)
    requires lo + |xs| <= |mem|
    ensures |r| == |mem|
    ensures forall k :: 0 <= k < |mem| ==> r[k] == if lo <= k < lo + |xs| then xs[k - lo] else mem[k]
  {
    mem[..lo] + xs + mem[lo + |xs|..]
  }

  /** mem with the runs copied into the page at index `at`, first to last. */
  function Applied(mem: seq<Word>, at: nat, runs: seq<Run>): (r: seq<Word>)
    requires at + UNITS <= |mem| && WfRuns(runs)
    ensures |r| == |mem|
    decreases |runs|
  {
    if runs == [] then mem
    else Applied(Patch(mem, at + runs[0].start, runs[0].units), at, runs[1..])
  }

  /** Word k of mem once the units at or after i in which page and twin differ are written. */
  function Overlaid(mem: seq<Word>, at: nat, page: seq<Word>, twin: seq<Word>, i: nat, k: nat): Word
    requires |page| == |twin| == UNITS && k < |mem|
  {
    if at + i <= k < at + UNITS && page[k - at] != twin[k - at] then page[k - at] else mem[k]
  }

  /** Applying the runs at or after unit i overwrites exactly the changed units at or after i. */
  lemma {:induction false} AppliedWord(mem: seq<Word>, at: nat, page: seq<Word>, twin: seq<Word>, i: nat, k: nat)
    requires at + UNITS <= |mem| && |page| == |twin| == UNITS && i <= UNITS && k < |mem|
    ensures Applied(mem, at, Runs(page, twin, i))[k] == Overlaid(mem, at, page, twin, i, k)
    decreases UNITS - i
  {
    var a := Skip(page, twin, i, false);
    if a < UNITS {
      var b := Skip(page, twin, a, true);
      var run, rest := Run(a, page[a..b]), Runs(page, twin, b);
      OverlaidStep(mem, at, page, twin, i, a, b, k);
      AppliedWord(Patch(mem, at + a, page[a..b]), at, page, twin, b, k);
      AppliedFirst(mem, at, run, rest);
    }
  }

  lemma AppliedFirst(mem: seq<Word>, at: nat, run: Run, rest: seq<Run>)
    requires at + UNITS <= |mem| && WfRun(run) && WfRuns(rest)
    ensures Applied(mem, at, [run] + rest) == Applied(Patch(mem, at + run.start, run.units), at, rest)
  {
    assert ([run] + rest)[1..] == rest;
  }

  lemma OverlaidStep(mem: seq<Word>, at: nat, page: seq<Word>, twin: seq<Word>, i: nat, a: nat, b: nat, k: nat)
    requires at + UNITS <= |mem| && |page| == |twin| == UNITS && i <= a <= b <= UNITS && k < |mem|
    requires forall u :: i <= u < a ==> page[u] == twin[u]
    requires forall u :: a <= u < b ==> page[u] != twin[u]
    ensures Overlaid(Patch(mem, at + a, page[a..b]), at, page, twin, b, k) == Overlaid(mem, at, page, twin, i, k)
  {
  }

  /** Applying the diff of (page, twin) to any base page merges the changed units into it; applied to
      the twin it restores the page. */
  lemma DiffMerges(base: PageData, page: PageData, twin: PageData)
    ensures Applied(base, 0, Runs(page, twin, 0)) == Merge(base, page, twin)
    ensures Applied(twin, 0, Runs(page, twin, 0)) == page
  {
    DiffIsMerge(base, page, twin);
    DiffIsMerge(twin, page, twin);
    MergeRestores(page, twin);
  }

  lemma DiffIsMerge(base: PageData, page: PageData, twin: PageData)
    ensures Applied(base, 0, Runs(page, twin, 0)) == Merge(base, page, twin)
  {
    var r, m := Applied(base, 0, Runs(page, twin, 0)), Merge(base, page, twin);
    forall k | 0 <= k < UNITS ensures r[k] == m[k] {
      AppliedWord(base, 0, page, twin, 0, k);
    }
  }

  /** Diffs of two writers that changed disjoint units of a page may reach its home in either order. */
  lemma DisjointDiffsCommute(base: PageData, p1: PageData, t1: PageData, p2: PageData, t2: PageData)
    requires forall u :: 0 <= u < UNITS ==> p1[u] == t1[u] || p2[u] == t2[u]
    ensures Applied(Applied(base, 0, Runs(p1, t1, 0)), 0, Runs(p2, t2, 0))
         == Applied(Applied(base, 0, Runs(p2, t2, 0)), 0, Runs(p1, t1, 0))
  {
    DiffIsMerge(base, p1, t1);
    DiffIsMerge(base, p2, t2);
    DiffIsMerge(Merge(base, p1, t1), p2, t2);
    DiffIsMerge(Merge(base, p2, t2), p1, t1);
    DisjointMergesCommute(base, p1, t1, p2, t2);
  }

  // ---------------------------------------------------------------- the format

  function Header(start: nat, count: nat): Word
    requires start < UNITS && count <= UNITS
  {
    WORDBYTES * start * B16 + WORDBYTES * count
  }

  function Start(header: Word): nat { header / B16 % B16 / WORDBYTES }
  function Count(header: Word): nat { header % B16 / WORDBYTES }

  lemma HeaderFields(start: nat, count: nat)
    requires start < UNITS && count <= UNITS
    ensures Start(Header(start, count)) == start && Count(Header(start, count)) == count
  {
    var s, n := WORDBYTES * start, WORDBYTES * count;
    assert s * B16 + n == Header(start, count) && 0 <= n < B16 && 0 <= s < B16;
    assert Header(start, count) / B16 == s && Header(start, count) % B16 == n;
  }

  function RunWords(r: Run): (w: seq<Word>)
    requires WfRun(r)
  {
    [Header(r.start, |r.units|)] + r.units
  }

  function BodyWords(runs: seq<Run>): (w: seq<Word>)
    requires WfRuns(runs)
  {
    if runs == [] then [] else RunWords(runs[0]) + BodyWords(runs[1..])
  }

  lemma {:induction false} BodyWordsAppend(xs: seq<Run>, ys: seq<Run>)
    requires WfRuns(xs) && WfRuns(ys)
    ensures BodyWords(xs + ys) == BodyWords(xs) + BodyWords(ys)
  {
    if xs == [] {
      assert xs + ys == ys;
    } else {
      BodyWordsAppend(xs[1..], ys);
      assert (xs + ys)[1..] == xs[1..] + ys;
    }
  }

  /** The words that the runs from unit i on take; a unit that agrees pays for the next header. */
  lemma {:induction false} BodySize(page: seq<Word>, twin: seq<Word>, i: nat)
    requires |page| == |twin| == UNITS && i <= UNITS
    ensures |BodyWords(Runs(page, twin, i))| <= UNITS - i + 1
    ensures i < UNITS && page[i] == twin[i] ==> |BodyWords(Runs(page, twin, i))| <= UNITS - i
    ensures i == UNITS ==> Runs(page, twin, i) == []
    decreases UNITS - i
  {
    var a := Skip(page, twin, i, false);
    if a < UNITS {
      var b := Skip(page, twin, a, true);
      BodySize(page, twin, b);
      assert Runs(page, twin, i)[1..] == Runs(page, twin, b);
      assert |BodyWords(Runs(page, twin, i))| == 1 + (b - a) + |BodyWords(Runs(page, twin, b))|;
    }
  }

  /** A diff as the parser sees it. */
  datatype Diff = Diff(addr: Address, runs: seq<Run>)

  /** The diff of a page: it fits in 4112 bytes. */
  predicate WfDiff(d: Diff) { WfRuns(d.runs) && |BodyWords(d.runs)| <= UNITS + 1 }

  function DiffOf(addr: Address, page: PageData, twin: PageData): (d: Diff)
    ensures WfDiff(d)
  {
    BodySize(page, twin, 0);
    Diff(addr, Runs(page, twin, 0))
  }

  function DiffWords(d: Diff): (w: seq<Word>)
    requires WfDiff(d)
    ensures HEAD <= |w| <= UNITS + 4
  {
    var body := BodyWords(d.runs);
    [d.addr % B32, d.addr / B32, WORDBYTES * (HEAD + |body|)] + body
  }

  /** One page's encoding never exceeds 4112 bytes, and a page changed throughout reaches that. */
  lemma EncodedSize(addr: Address, page: PageData, twin: PageData)
    ensures WORDBYTES * |DiffWords(DiffOf(addr, page, twin))| <= 4112
    ensures (forall u :: 0 <= u < UNITS ==> page[u] != twin[u]) ==>
      WORDBYTES * |DiffWords(DiffOf(addr, page, twin))| == 4112
  {
    if forall u :: 0 <= u < UNITS ==> page[u] != twin[u] {
      assert Skip(page, twin, 0, true) == UNITS;
      BodySize(page, twin, UNITS);
      var runs := Runs(page, twin, 0);
      assert runs == [Run(0, page[0..UNITS])];
      assert BodyWords(runs) == RunWords(runs[0]) + BodyWords([]);
    }
  }

  // ---------------------------------------------------------------- encoding

  method Memcpy(dst: array<Word>, at: nat, src: array<Word>, from: nat, n: nat)
    requires dst != src && at + n <= dst.Length && from + n <= src.Length
    modifies dst
    ensures dst[..] == Patch(old(dst[..]), at, src[from..from + n])
  {
    for k := 0 to n
      invariant dst[..] == Patch(old(dst[..]), at, src[from..from + k])
    {
      dst[at + k] := src[from + k];
    }
  }

  /** The header of a run and its changed units. */
  method PutRun(diff: array<Word>, n: nat, page: array<Word>, start: nat, cnt: nat)
    requires diff != page && page.Length == UNITS && start < UNITS && start + cnt <= UNITS
    requires HEAD <= n && n + 1 + cnt <= diff.Length
    modifies diff
    ensures diff[..n] == old(diff[..n])
    ensures diff[n..n + 1 + cnt] == RunWords(Run(start, page[start..start + cnt]))
  {
    diff[n] := Header(start, cnt);
    Memcpy(diff, n + 1, page, start, cnt);
  }

  /** The run, if any, that one turn of the main loop finds at or after unit i, and where it stops. */
  function Turn(p: seq<Word>, t: seq<Word>, i: nat): (turn: seq<Run>)
    requires |p| == |t| == UNITS && i <= UNITS
    ensures WfRuns(turn)
  {
    var a := Skip(p, t, i, false);
    if a == UNITS then [] else [Run(a, p[a..Skip(p, t, a, true)])]
  }

  function TurnEnd(p: seq<Word>, t: seq<Word>, i: nat): (j: nat)
    requires |p| == |t| == UNITS && i <= UNITS
    ensures i <= j <= UNITS && (i < UNITS ==> i < j)
  {
    Skip(p, t, Skip(p, t, i, false), true)
  }

  lemma EncodingStep(p: seq<Word>, t: seq<Word>, i: nat, done: seq<Run>)
    requires |p| == |t| == UNITS && i <= UNITS && WfRuns(done)
    requires Runs(p, t, 0) == done + Runs(p, t, i)
    ensures var next := done + Turn(p, t, i);
      && WfRuns(next) && Runs(p, t, 0) == next + Runs(p, t, TurnEnd(p, t, i))
      && BodyWords(next) == BodyWords(done) + BodyWords(Turn(p, t, i))
      && |BodyWords(next)| <= UNITS + 1
  {
    var turn, rest := Turn(p, t, i), Runs(p, t, TurnEnd(p, t, i));
    assert Runs(p, t, i) == turn + rest;
    Assoc(done, turn, rest);
    BodyWordsAppend(done, turn);
    BodySize(p, t, 0);
    BodyWordsAppend(done + turn, rest);
  }

  /** The scanning loops of encodediff. */
  method Scan(page: array<Word>, twin: array<Word>, from: nat, same: bool) returns (unit: nat)
    requires page.Length == twin.Length == UNITS && from <= UNITS
    ensures unit == Skip(page[..], twin[..], from, same)
  {
    unit := from;
    while unit < UNITS && (page[unit] == twin[unit]) != same
      invariant from <= unit <= UNITS
      invariant Skip(page[..], twin[..], from, same) == Skip(page[..], twin[..], unit, same)
    {
      unit := unit + 1;
    }
  }

  /** One turn of encodediff's main loop: the next run, if there is one. */
  method EncodeRun(page: array<Word>, twin: array<Word>, unit: nat, diff: array<Word>, n: nat)
    returns (next: nat, m: nat)
    requires page.Length == twin.Length == UNITS && diff != page && diff != twin && unit < UNITS
    requires HEAD <= n && n + 1 + UNITS - unit <= diff.Length
    modifies diff
    ensures next == TurnEnd(page[..], twin[..], unit)
    ensures n <= m <= diff.Length && diff[..n] == old(diff[..n])
    ensures diff[n..m] == BodyWords(Turn(page[..], twin[..], unit))
  {
    var start := Scan(page, twin, unit, false);
    if start < UNITS {
      next := Scan(page, twin, start, true);
      PutRun(diff, n, page, start, next - start);
      m := n + 1 + (next - start);
    } else {
      next, m := start, n;
    }
  }

  lemma Joined(was: seq<Word>, now: seq<Word>, n: nat, m: nat)
    requires HEAD <= n <= m <= |now| == |was| && now[..n] == was[..n]
    ensures now[..HEAD] == was[..HEAD] && now[HEAD..m] == was[HEAD..n] + now[n..m]
  {
    assert now[..HEAD] == now[..n][..HEAD] && was[..HEAD] == was[..n][..HEAD];
    assert now[HEAD..m] == now[..n][HEAD..] + now[n..m];
    assert was[HEAD..n] == was[..n][HEAD..];
  }

  /** The main loop of encodediff: the runs, behind the address and the size. */
  method EncodeBody(page: array<Word>, twin: array<Word>, diff: array<Word>) returns (n: nat)
    requires page.Length == twin.Length == UNITS && diff.Length == MAXMSGWORDS
    requires diff != page && diff != twin
    modifies diff
    ensures HEAD <= n <= HEAD + UNITS + 1 && diff[..HEAD] == old(diff[..HEAD])
    ensures diff[HEAD..n] == BodyWords(Runs(page[..], twin[..], 0))
  {
    ghost var p, t, done, head := page[..], twin[..], [], diff[..HEAD];
    var unit := 0;
    n := HEAD;
    while unit < UNITS
      invariant 0 <= unit <= UNITS && page[..] == p && twin[..] == t && WfRuns(done)
      invariant HEAD <= n <= HEAD + UNITS + 1 && diff[..HEAD] == head
      invariant diff[HEAD..n] == BodyWords(done)
      invariant Runs(p, t, 0) == done + Runs(p, t, unit)
    {
      EncodingStep(p, t, unit, done);
      ghost var was, before := diff[..], n;
      done := done + Turn(p, t, unit);
      unit, n := EncodeRun(page, twin, unit, diff, n);
      Joined(was, diff[..], before, n);
    }
    assert done + [] == done;
  }

  lemma WithSize(head: seq<Word>, was: seq<Word>, now: seq<Word>, n: nat)
    requires HEAD <= n <= |now| == |was| && was[..HEAD] == head && now == was[2 := now[2]]
    ensures now[..n] == [head[0], head[1], now[2]] + was[HEAD..n]
  {
    assert head[0] == was[..HEAD][0] == was[0] && head[1] == was[..HEAD][1] == was[1];
  }

  method EncodeDiff(addr: Address, page: array<Word>, twin: array<Word>, diff: array<Word>) returns (size: nat)
    requires page.Length == twin.Length == UNITS && diff.Length == MAXMSGWORDS
    requires diff != page && diff != twin
    modifies diff
    ensures size == WORDBYTES * |DiffWords(DiffOf(addr, page[..], twin[..]))|
    ensures diff[..size / WORDBYTES] == DiffWords(DiffOf(addr, page[..], twin[..]))
  {
    diff[0], diff[1] := addr % B32, addr / B32;
    ghost var head := diff[..HEAD];
    var n := EncodeBody(page, twin, diff);
    ghost var was := diff[..];
    diff[2] := WORDBYTES * n;
    size := WORDBYTES * n;
    WithSize(head, was, diff[..], n);
  }

  // ---------------------------------------------------------------- applying a message

  predicate AllWf(ds: seq<Diff>) { forall i :: 0 <= i < |ds| ==> WfDiff(ds[i]) }

  function MessageWords(ds: seq<Diff>): (w: seq<Word>)
    requires AllWf(ds)
  {
    if ds == [] then [] else DiffWords(ds[0]) + MessageWords(ds[1..])
  }

  /** The word index of the page, in a memory that starts at address 0. */
  function PageIndex(d: Diff): nat { d.addr / WORDBYTES }

  /** The pages lie in a memory of `words` words. */
  predicate AllFit(ds: seq<Diff>, words: nat) {
    forall i :: 0 <= i < |ds| ==> PageIndex(ds[i]) + UNITS <= words
  }

  function AppliedAll(mem: seq<Word>, ds: seq<Diff>): (r: seq<Word>)
    requires AllWf(ds) && AllFit(ds, |mem|)
    ensures |r| == |mem|
    decreases |ds|
  {
    if ds == [] then mem else AppliedAll(Applied(mem, PageIndex(ds[0]), ds[0].runs), ds[1..])
  }

  lemma FirstRun(runs: seq<Run>, w: seq<Word>)
    requires WfRuns(runs) && w == BodyWords(runs) && |w| > 0
    ensures runs != [] && 1 + |runs[0].units| <= |w|
    ensures Start(w[0]) == runs[0].start && Count(w[0]) == |runs[0].units|
    ensures w[1..1 + |runs[0].units|] == runs[0].units && w[1 + |runs[0].units|..] == BodyWords(runs[1..])
  {
    HeaderFields(runs[0].start, |runs[0].units|);
  }

  /** The same, for a message whose words i..stop are the runs. */
  lemma RunAt(runs: seq<Run>, msg: seq<Word>, i: nat, stop: nat)
    requires i < stop <= |msg| && WfRuns(runs) && msg[i..stop] == BodyWords(runs)
    ensures runs != []
    ensures var n := |runs[0].units|;
      && Start(msg[i]) == runs[0].start && Count(msg[i]) == n && i + 1 + n <= stop
      && msg[i + 1..i + 1 + n] == runs[0].units && msg[i + 1 + n..stop] == BodyWords(runs[1..])
  {
    var w := msg[i..stop];
    FirstRun(runs, w);
    var n := |runs[0].units|;
    SliceSlice(msg, i, stop, 1, 1 + n);
    SliceSlice(msg, i, stop, 1 + n, stop - i);
  }

  /** One turn of diffserver's inner loop: copy the run whose header is at word i. */
  method ApplyRun(data: array<Word>, i: nat, stop: nat, mem: array<Word>, page: nat, ghost runs: seq<Run>)
    returns (next: nat)
    requires i < stop <= data.Length && data != mem && page + UNITS <= mem.Length
    requires WfRuns(runs) && data[i..stop] == BodyWords(runs)
    modifies mem
    ensures runs != [] && i < next <= stop && data[next..stop] == BodyWords(runs[1..])
    ensures mem[..] == Patch(old(mem[..]), page + runs[0].start, runs[0].units)
  {
    RunAt(runs, data[..], i, stop);
    var dsize, doffset := Count(data[i]), Start(data[i]);
    Memcpy(mem, page + doffset, data, i + 1, dsize);
    next := i + 1 + dsize;
  }

  /** The inner loop of diffserver: the runs in words datai..stop of the message. */
  method ApplyRuns(data: array<Word>, datai: nat, stop: nat, mem: array<Word>, page: nat, ghost runs: seq<Run>)
    requires datai <= stop <= data.Length && data != mem && page + UNITS <= mem.Length
    requires WfRuns(runs) && data[datai..stop] == BodyWords(runs)
    modifies mem
    ensures mem[..] == Applied(old(mem[..]), page, runs)
  {
    var i := datai;
    ghost var left := runs;
    while i < stop
      invariant datai <= i <= stop
      invariant WfRuns(left) && data[i..stop] == BodyWords(left)
      invariant Applied(mem[..], page, left) == Applied(old(mem[..]), page, runs)
    {
      ghost var cur := mem[..];
      i := ApplyRun(data, i, stop, mem, page, left);
      assert left == [left[0]] + left[1..];
      AppliedFirst(cur, page, left[0], left[1..]);
      left := left[1..];
    }
    assert left == [];
  }

  lemma FirstDiff(ds: seq<Diff>, w: seq<Word>)
    requires AllWf(ds) && w == MessageWords(ds) && |w| > 0
    ensures ds != [] && |w| >= HEAD
    ensures w[0] + w[1] * B32 == ds[0].addr
    ensures var n := w[2] / WORDBYTES;
      HEAD <= n <= |w| && w[HEAD..n] == BodyWords(ds[0].runs) && w[n..] == MessageWords(ds[1..])
  {
    var d := ds[0];
    assert w == DiffWords(d) + MessageWords(ds[1..]);
    assert w[0] == d.addr % B32 && w[1] == d.addr / B32 && w[2] == WORDBYTES * |DiffWords(d)|;
  }

  lemma DiffAt(ds: seq<Diff>, msg: seq<Word>, i: nat)
    requires i < |msg| && AllWf(ds) && msg[i..] == MessageWords(ds)
    ensures ds != [] && i + HEAD <= |msg|
    ensures msg[i] + msg[i + 1] * B32 == ds[0].addr
    ensures var stop := msg[i + 2] / WORDBYTES + i;
      && i + HEAD <= stop <= |msg|
      && msg[i + HEAD..stop] == BodyWords(ds[0].runs) && msg[stop..] == MessageWords(ds[1..])
  {
    var w := msg[i..];
    FirstDiff(ds, w);
    var n := w[2] / WORDBYTES;
    SliceSlice(msg, i, |msg|, HEAD, n);
    SliceSlice(msg, i, |msg|, n, |w|);
  }

  /** diffserver: the parsing loop, writing the home's memory in place. */
  method DiffServer(data: array<Word>, size: nat, mem: array<Word>, ghost ds: seq<Diff>)
    requires size % WORDBYTES == 0 && size / WORDBYTES <= data.Length && data != mem
    requires AllWf(ds) && AllFit(ds, mem.Length) && data[..size / WORDBYTES] == MessageWords(ds)
    modifies mem
    ensures mem[..] == AppliedAll(old(mem[..]), ds)
  {
    var end, datai := size / WORDBYTES, 0;
    ghost var left, msg, cur := ds, data[..end], mem[..];
    ghost var goal := AppliedAll(cur, ds);
    assert msg[0..] == msg;
    while datai < end
      invariant 0 <= datai <= end && data[..end] == msg && mem[..] == cur
      invariant AllWf(left) && AllFit(left, |cur|) && msg[datai..] == MessageWords(left)
      invariant AppliedAll(cur, left) == goal
    {
      DiffAt(left, msg, datai);
      ghost var d := left[0];
      left := left[1..];
      datai := ApplyDiff(data, datai, msg, mem, d);
      cur := Applied(cur, PageIndex(d), d.runs);
    }
    assert left == [];
  }

  /** One turn of diffserver's outer loop: the diff at word i. */
  method ApplyDiff(data: array<Word>, i: nat, ghost msg: seq<Word>, mem: array<Word>, ghost d: Diff)
    returns (stop: nat)
    requires data != mem && i + HEAD <= |msg| <= data.Length && data[..|msg|] == msg && WfRuns(d.runs)
    requires msg[i] + msg[i + 1] * B32 == d.addr && PageIndex(d) + UNITS <= mem.Length
    requires var stop := msg[i + 2] / WORDBYTES + i;
      i + HEAD <= stop <= |msg| && msg[i + HEAD..stop] == BodyWords(d.runs)
    modifies mem
    ensures stop == msg[i + 2] / WORDBYTES + i && mem[..] == Applied(old(mem[..]), PageIndex(d), d.runs)
  {
    assert data[i] == msg[i] && data[i + 1] == msg[i + 1] && data[i + 2] == msg[i + 2];
    var page := (data[i] + data[i + 1] * B32) / WORDBYTES;
    stop := data[i + 2] / WORDBYTES + i;
    assert stop <= |msg|;
    SliceSlice(data[..], 0, |msg|, i + HEAD, stop);
    ApplyRuns(data, i + HEAD, stop, mem, page, d.runs);
  }
}
