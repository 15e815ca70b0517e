/** The diffs of several writers at one home.  The home applies them in the order in which they arrive;
    where two writers have not changed the same word, only each writer's own order matters. */
module DiffInterleaving {
  import opened Seqs
  import opened Pages
  import opened PageDiff

  /** A diff the home has applied: this writer's own, or another's. */
  datatype Done = Done(own: bool, diff: Diff)

  function Of(log: seq<Done>): (ds: seq<Diff>)
    ensures |ds| == |log| && forall i :: 0 <= i < |log| ==> ds[i] == log[i].diff
  {
    seq(|log|, i requires 0 <= i < |log| => log[i].diff)
  }

  /** The diffs of the one side, in the order in which they were applied. */
  function By(log: seq<Done>, own: bool): (ds: seq<Diff>)
    ensures forall d :: d in ds ==> exists i :: 0 <= i < |log| && log[i].diff == d
  {
    if log == [] then []
    else (if log[0].own == own then [log[0].diff] else []) + By(log[1..], own)
  }

  function Marked(ds: seq<Diff>, own: bool): (r: seq<Done>)
    ensures |r| == |ds| && forall i :: 0 <= i < |ds| ==> r[i] == Done(own, ds[i])
  {
    seq(|ds|, i requires 0 <= i < |ds| => Done(own, ds[i]))
  }

  lemma {:induction false} ByMarked(ds: seq<Diff>, own: bool)
    ensures By(Marked(ds, own), own) == ds && By(Marked(ds, own), !own) == []
  {
    if ds != [] {
      ByMarked(ds[1..], own);
      assert Marked(ds, own)[1..] == Marked(ds[1..], own);
    }
  }

  lemma {:induction false} ByConcat(a: seq<Done>, b: seq<Done>, own: bool)
    ensures By(a + b, own) == By(a, own) + By(b, own)
  {
    if a == [] {
      assert a + b == b;
    } else {
      ByConcat(a[1..], b, own);
      TailOfConcat(a, b);
      Assoc(if a[0].own == own then [a[0].diff] else [], By(a[1..], own), By(b, own));
    }
  }

  /** One more message applied. */
  lemma MessageDone(log: seq<Done>, ds: seq<Diff>, own: bool)
    ensures Of(log + Marked(ds, own)) == Of(log) + ds
    ensures By(log + Marked(ds, own), own) == By(log, own) + ds
    ensures By(log + Marked(ds, own), !own) == By(log, !own)
  {
    ByMarked(ds, own);
    ByConcat(log, Marked(ds, own), own);
    ByConcat(log, Marked(ds, own), !own);
    NoTail(By(log, !own));
  }

  // ---------------------------------------------------------------- one word

  /** The diff carries a new value for word k. */
  predicate Touches(d: Diff, k: nat) {
    exists j :: 0 <= j < |d.runs| && RunTouches(d.runs[j], PageIndex(d), k)
  }

  predicate RunTouches(r: Run, at: nat, k: nat) { at + r.start <= k < at + r.start + |r.units| }

  /** Word k afterwards depends on nothing but word k before, and on that only if no run covers it. */
  lemma {:induction false} RunsLocal(a: seq<Word>, b: seq<Word>, at: nat, runs: seq<Run>, k: nat)
    requires |a| == |b| && at + UNITS <= |a| && WfRuns(runs) && k < |a| && a[k] == b[k]
    ensures Applied(a, at, runs)[k] == Applied(b, at, runs)[k]
    ensures (forall j :: 0 <= j < |runs| ==> !RunTouches(runs[j], at, k)) ==> Applied(a, at, runs)[k] == a[k]
    decreases |runs|
  {
    if runs != [] {
      var r := runs[0];
      RunsLocal(Patch(a, at + r.start, r.units), Patch(b, at + r.start, r.units), at, runs[1..], k);
      assert RunTouches(r, at, k) || Patch(a, at + r.start, r.units)[k] == a[k];
    }
  }

  /** The diff of a page carries exactly the words in which the page differs from its twin. */
  lemma TouchesIff(addr: Address, page: PageData, twin: PageData, k: nat)
    ensures var at := addr / WORDBYTES;
      Touches(DiffOf(addr, page, twin), k) <==> at <= k < at + UNITS && page[k - at] != twin[k - at]
  {
    RunsTouch(page, twin, 0, addr / WORDBYTES, k);
  }

  predicate SomeTouches(runs: seq<Run>, at: nat, k: nat) {
    exists j :: 0 <= j < |runs| && RunTouches(runs[j], at, k)
  }

  lemma {:induction false} RunsTouch(page: PageData, twin: PageData, i: nat, at: nat, k: nat)
    requires i <= UNITS
    ensures SomeTouches(Runs(page, twin, i), at, k) <==> at + i <= k < at + UNITS && page[k - at] != twin[k - at]
    decreases UNITS - i
  {
    var a := Skip(page, twin, i, false);
    if a < UNITS {
      var b := Skip(page, twin, a, true);
      RunsTouch(page, twin, b, at, k);
      FirstTouches(Run(a, page[a..b]), Runs(page, twin, b), at, k);
    }
  }

  lemma FirstTouches(run: Run, rest: seq<Run>, at: nat, k: nat)
    ensures SomeTouches([run] + rest, at, k) <==> RunTouches(run, at, k) || SomeTouches(rest, at, k)
  {
    var runs := [run] + rest;
    assert runs[0] == run && forall j :: 0 <= j < |rest| ==> runs[j + 1] == rest[j];
  }

  predicate NoneTouches(ds: seq<Diff>, k: nat) { forall i :: 0 <= i < |ds| ==> !Touches(ds[i], k) }

  ghost predicate Applicable(log: seq<Done>, words: nat) { AllWf(Of(log)) && AllFit(Of(log), words) }

  lemma SideApplicable(log: seq<Done>, own: bool, words: nat)
    requires Applicable(log, words)
    ensures AllWf(By(log, own)) && AllFit(By(log, own), words)
  {
    forall i | 0 <= i < |By(log, own)| ensures WfDiff(By(log, own)[i]) && PageIndex(By(log, own)[i]) + UNITS <= words {
      var d := By(log, own)[i];
      assert d in By(log, own);
      var j :| 0 <= j < |log| && log[j].diff == d;
      assert Of(log)[j] == d;
    }
  }

  lemma FirstApplied(mem: seq<Word>, ds: seq<Diff>, d: Diff, rest: seq<Diff>)
    requires ds == [d] + rest && AllWf(ds) && AllFit(ds, |mem|)
    ensures WfDiff(d) && PageIndex(d) + UNITS <= |mem| && AllWf(rest) && AllFit(rest, |mem|)
    ensures AppliedAll(mem, ds) == AppliedAll(Applied(mem, PageIndex(d), d.runs), rest)
  {
    assert ds[0] == d && ds[1..] == rest;
    assert forall i :: 0 <= i < |rest| ==> rest[i] == ds[i + 1];
  }

  /** A word that the other side's diffs do not carry ends as if they had not been applied. */
  lemma {:induction false} MixedFrom(a: seq<Word>, b: seq<Word>, log: seq<Done>, own: bool, k: nat)
    requires |a| == |b| && k < |a| && a[k] == b[k] && Applicable(log, |a|) && NoneTouches(By(log, !own), k)
    ensures AllWf(By(log, own)) && AllFit(By(log, own), |b|)
    ensures AppliedAll(a, Of(log))[k] == AppliedAll(b, By(log, own))[k]
    decreases |log|
  {
    SideApplicable(log, own, |b|);
    if log != [] {
      var d, rest := log[0].diff, log[1..];
      assert Of(log) == [d] + Of(rest);
      FirstApplied(a, Of(log), d, Of(rest));
      var a', at := Applied(a, PageIndex(d), d.runs), PageIndex(d);
      RunsLocal(a, b, at, d.runs, k);
      if log[0].own == own {
        assert By(log, own) == [d] + By(rest, own) && By(log, !own) == By(rest, !own);
        FirstApplied(b, By(log, own), d, By(rest, own));
        MixedFrom(a', Applied(b, at, d.runs), rest, own, k);
      } else {
        OtherFirst(log, own, k);
        MixedFrom(a', b, rest, own, k);
      }
    }
  }

  lemma OtherFirst(log: seq<Done>, own: bool, k: nat)
    requires log != [] && log[0].own != own && NoneTouches(By(log, !own), k)
    ensures By(log, own) == By(log[1..], own) && NoneTouches(By(log[1..], !own), k) && !Touches(log[0].diff, k)
  {
    var ds, rest := By(log, !own), By(log[1..], !own);
    assert ds == [log[0].diff] + rest;
    assert ds[0] == log[0].diff && forall i :: 0 <= i < |rest| ==> rest[i] == ds[i + 1];
  }

  /** However the diffs of the two sides are interleaved, a word that only one side carries ends as that
      side's diffs alone would leave it, and a word that neither carries stays. */
  lemma MixedWord(mem: seq<Word>, log: seq<Done>, k: nat)
    requires k < |mem| && Applicable(log, |mem|)
    ensures forall own :: AllWf(By(log, own)) && AllFit(By(log, own), |mem|)
    ensures forall own :: NoneTouches(By(log, !own), k) ==> AppliedAll(mem, Of(log))[k] == AppliedAll(mem, By(log, own))[k]
    ensures NoneTouches(By(log, true), k) && NoneTouches(By(log, false), k) ==> AppliedAll(mem, Of(log))[k] == mem[k]
  {
    forall own ensures AllWf(By(log, own)) && AllFit(By(log, own), |mem|) {
      SideApplicable(log, own, |mem|);
    }
    forall own | NoneTouches(By(log, !own), k) ensures AppliedAll(mem, Of(log))[k] == AppliedAll(mem, By(log, own))[k] {
      MixedFrom(mem, mem, log, own, k);
    }
    if NoneTouches(By(log, true), k) { Untouched(mem, By(log, true), k); }
  }

  lemma {:induction false} Untouched(mem: seq<Word>, ds: seq<Diff>, k: nat)
    requires k < |mem| && AllWf(ds) && AllFit(ds, |mem|) && NoneTouches(ds, k)
    ensures AppliedAll(mem, ds)[k] == mem[k]
    decreases |ds|
  {
    if ds != [] {
      var d := ds[0];
      RunsLocal(mem, mem, PageIndex(d), d.runs, k);
      assert !Touches(d, k);
      Untouched(Applied(mem, PageIndex(d), d.runs), ds[1..], k);
    }
  }
}
