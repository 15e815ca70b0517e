/** Batching of diffs at the end of an interval: the pending message per home, the messages in
    flight, the homes that apply them, the grants that come back and the counter `diffwait`.
    Homes and the network may act whenever the writer is not inside one of its own calls, and the homes
    handle the messages of other writers in between. */
module DiffBatch {
  import opened Seqs
  import opened Pages
  import opened PageDiff
  import opened DiffInterleaving

  datatype Buffer = DiffNull | Pending(words: seq<Word>)

  function Flat(ms: seq<seq<Diff>>): (ds: seq<Diff>)
  {
    if ms == [] then [] else ms[0] + Flat(ms[1..])
  }

  lemma {:induction false} FlatAppend(ms: seq<seq<Diff>>, m: seq<Diff>)
    ensures Flat(ms + [m]) == Flat(ms) + m
  {
    if ms == [] {
      assert ([m])[1..] == [] && Flat([m]) == m + [];
    } else {
      FlatAppend(ms[1..], m);
      assert (ms + [m])[1..] == ms[1..] + [m];
    }
  }

  lemma {:induction false} MessageAppend(ds: seq<Diff>, d: Diff)
    requires AllWf(ds) && WfDiff(d)
    ensures MessageWords(ds + [d]) == MessageWords(ds) + DiffWords(d)
  {
    if ds == [] {
      assert ([d])[1..] == [] && DiffWords(d) + [] == DiffWords(d);
    } else {
      MessageAppend(ds[1..], d);
      TailOfConcat(ds, [d]);
      Assoc(DiffWords(ds[0]), MessageWords(ds[1..]), DiffWords(d));
    }
  }

  lemma {:induction false} AppliedAllAppend(mem: seq<Word>, xs: seq<Diff>, ys: seq<Diff>)
    requires AllWf(xs) && AllWf(ys) && AllFit(xs, |mem|) && AllFit(ys, |mem|)
    ensures AllWf(xs + ys) && AllFit(xs + ys, |mem|)
    ensures AppliedAll(mem, xs + ys) == AppliedAll(AppliedAll(mem, xs), ys)
    decreases |xs|
  {
    if xs == [] {
      assert xs + ys == ys;
    } else {
      var d := xs[0];
      AppliedAllAppend(Applied(mem, PageIndex(d), d.runs), xs[1..], ys);
      TailOfConcat(xs, ys);
    }
  }

  function Sum(xs: seq<nat>): (n: nat)
  {
    if xs == [] then 0 else xs[0] + Sum(xs[1..])
  }

  lemma {:induction false} SumUpdate(xs: seq<nat>, i: nat, x: nat)
    requires i < |xs|
    ensures Sum(xs[i := x]) == Sum(xs) - xs[i] + x
    ensures Sum(xs) >= xs[i]
  {
    if i == 0 {
      assert xs[0 := x][1..] == xs[1..];
    } else {
      SumUpdate(xs[1..], i - 1, x);
      assert xs[i := x][1..] == xs[1..][i - 1 := x];
    }
  }

  lemma {:induction false} SumZero(xs: seq<nat>)
    ensures Sum(xs) == 0 <==> forall i :: 0 <= i < |xs| ==> xs[i] == 0
  {
    if xs != [] {
      SumZero(xs[1..]);
      assert forall i :: 0 < i < |xs| ==> xs[i] == xs[1..][i - 1];
    }
  }

  /** The writer's side of one home: its pending message, the messages the home has not handled
      yet, oldest first, the grants the writer has not handled yet, and the messages of other writers that
      the home has still to handle. */
  datatype Line = Line(buffer: Buffer, out: seq<seq<Word>>, grants: nat, others: seq<seq<Word>>)
  {
    function Load(): nat { |out| + grants }

    /** The home has handled the oldest message, and a grant is on its way back. */
    function Served(): Line
      requires out != []
    {
      Line(buffer, out[1..], grants + 1, others)
    }

    /** What is pending for the home. */
    function Words(): seq<Word> { if buffer.DiffNull? then [] else buffer.words }

    /** The pending message leaves, and b is pending. */
    function Sent(b: Buffer): Line { this.(buffer := b, out := out + [Words()]) }

    /** The pending message has no room for n words more. */
    predicate Full(n: nat) { |Words()| + n > MAXMSGWORDS }

    /** A pending message with room for n words. */
    function Roomy(n: nat): Line { if Full(n) then Sent(Pending([])) else this.(buffer := Pending(Words())) }

    /** Words join the pending message, which is sent first if they do not fit. */
    function Joined(words: seq<Word>): Line {
      if Full(|words|) then Sent(Pending(words)) else this.(buffer := Pending(Words() + words))
    }

    /** senddiffs: a pending message leaves unless it is empty. */
    function Flushed(): Line { if Words() == [] then this.(buffer := DiffNull) else Sent(DiffNull) }

    /** The home has handled a message of another writer. */
    function Heard(): Line
      requires others != []
    {
      this.(others := others[1..])
    }
  }

  lemma RoomThenJoin(ls: seq<Line>, h: nat, words: seq<Word>)
    requires h < |ls|
    ensures var room := ls[h := ls[h].Roomy(|words|)];
      room[h := room[h].(buffer := Pending(room[h].Words() + words))] == ls[h := ls[h].Joined(words)]
  {
    assert [] + words == words;
  }

  function Loads(ls: seq<Line>): (ns: seq<nat>)
    ensures |ns| == |ls| && forall h :: 0 <= h < |ls| ==> ns[h] == ls[h].Load()
  {
    seq(|ls|, h requires 0 <= h < |ls| => ls[h].Load())
  }

  lemma LoadsUpdate(ls: seq<Line>, h: nat, l: Line)
    requires h < |ls|
    ensures Sum(Loads(ls[h := l])) == Sum(Loads(ls)) - ls[h].Load() + l.Load()
    ensures Sum(Loads(ls)) >= ls[h].Load()
  {
    SumUpdate(Loads(ls), h, l.Load());
    assert Loads(ls[h := l]) == Loads(ls)[h := l.Load()];
  }

  function Unserved(ls: seq<Line>): (ns: seq<nat>)
    ensures |ns| == |ls| && forall h :: 0 <= h < |ls| ==> ns[h] == |ls[h].out| + |ls[h].others|
  {
    seq(|ls|, h requires 0 <= h < |ls| => |ls[h].out| + |ls[h].others|)
  }

  lemma UnservedUpdate(ls: seq<Line>, h: nat, l: Line)
    requires h < |ls|
    ensures Sum(Unserved(ls[h := l])) == Sum(Unserved(ls)) - (|ls[h].out| + |ls[h].others|) + (|l.out| + |l.others|)
  {
    SumUpdate(Unserved(ls), h, |l.out| + |l.others|);
    assert Unserved(ls[h := l]) == Unserved(ls)[h := |l.out| + |l.others|];
  }

  /** What has become of the diffs for one home: applied, in flight (by message), or pending; and those
      of other writers that are to come. */
  datatype Traffic = Traffic(log: seq<Done>, flight: seq<seq<Diff>>, pending: seq<Diff>, foreign: seq<seq<Diff>>)
  {
    function Saved(): seq<Diff> { By(log, true) + Flat(flight) + pending }

    /** The other writers' diffs, applied or not. */
    function Others(): seq<Diff> { By(log, false) + Flat(foreign) }
  }

  ghost predicate Good(ds: seq<Diff>, words: nat) { AllWf(ds) && AllFit(ds, words) }

  /** A message of legal size that encodes ds. */
  ghost predicate Encodes(m: seq<Word>, ds: seq<Diff>, words: nat) {
    Good(ds, words) && m == MessageWords(ds) && |m| <= MAXMSGWORDS
  }

  ghost predicate BufferOk(b: Buffer, ds: seq<Diff>, words: nat) {
    if b.DiffNull? then ds == [] else Encodes(b.words, ds, words)
  }

  ghost predicate OutOk(out: seq<seq<Word>>, flight: seq<seq<Diff>>, words: nat) {
    |out| == |flight| && forall i :: 0 <= i < |out| ==> Encodes(out[i], flight[i], words)
  }

  ghost predicate HomeOk(base: seq<Word>, applied: seq<Diff>, mem: seq<Word>) {
    |base| == |mem| && Good(applied, |mem|) && mem == AppliedAll(base, applied)
  }

  ghost predicate LineOk(l: Line, t: Traffic, base: seq<Word>, mem: seq<Word>) {
    && BufferOk(l.buffer, t.pending, |mem|) && OutOk(l.out, t.flight, |mem|) && OutOk(l.others, t.foreign, |mem|)
    && HomeOk(base, Of(t.log), mem)
  }

  /** Moving the pending message into the channel. */
  lemma SendKeeps(l: Line, t: Traffic, base: seq<Word>, mem: seq<Word>, b: Buffer)
    requires LineOk(l, t, base, mem) && l.buffer.Pending? && (b == DiffNull || b == Pending([]))
    ensures var u := t.(flight := t.flight + [t.pending], pending := []);
      LineOk(l.(buffer := b, out := l.out + [l.buffer.words]), u, base, mem) && u.Saved() == t.Saved()
  {
    FlatAppend(t.flight, t.pending);
    var flight' := t.flight + [t.pending];
    assert forall i :: 0 <= i < |t.flight| ==> flight'[i] == t.flight[i];
    Assoc(By(t.log, true), Flat(t.flight), t.pending);
    NoTail(By(t.log, true) + Flat(flight'));
  }

  /** The home takes the writer's oldest message. */
  function Served(t: Traffic): Traffic
    requires t.flight != []
  {
    t.(log := t.log + Marked(t.flight[0], true), flight := t.flight[1..])
  }

  /** The home takes another writer's message. */
  function Heard(t: Traffic): Traffic
    requires t.foreign != []
  {
    t.(log := t.log + Marked(t.foreign[0], false), foreign := t.foreign[1..])
  }

  lemma ApplyMore(base: seq<Word>, applied: seq<Diff>, mem: seq<Word>, ds: seq<Diff>)
    requires HomeOk(base, applied, mem) && Good(ds, |mem|)
    ensures HomeOk(base, applied + ds, AppliedAll(mem, ds))
  {
    AppliedAllAppend(base, applied, ds);
  }

  lemma ServedSaved(t: Traffic)
    requires t.flight != []
    ensures Served(t).Saved() == t.Saved() && Served(t).Others() == t.Others()
  {
    MessageDone(t.log, t.flight[0], true);
    Assoc(By(t.log, true), t.flight[0], Flat(t.flight[1..]));
  }

  lemma HeardSaved(t: Traffic)
    requires t.foreign != []
    ensures Heard(t).Saved() == t.Saved() && Heard(t).Others() == t.Others()
  {
    MessageDone(t.log, t.foreign[0], false);
    Assoc(By(t.log, false), t.foreign[0], Flat(t.foreign[1..]));
  }

  lemma ServeKeeps(l: Line, t: Traffic, base: seq<Word>, mem: seq<Word>)
    requires LineOk(l, t, base, mem) && l.out != []
    ensures t.flight != [] && Encodes(l.out[0], t.flight[0], |mem|)
    ensures LineOk(l.Served(), Served(t), base, AppliedAll(mem, t.flight[0]))
  {
    assert Encodes(l.out[0], t.flight[0], |mem|);
    MessageDone(t.log, t.flight[0], true);
    ApplyMore(base, Of(t.log), mem, t.flight[0]);
  }

  lemma HearKeeps(l: Line, t: Traffic, base: seq<Word>, mem: seq<Word>)
    requires LineOk(l, t, base, mem) && l.others != []
    ensures t.foreign != [] && Encodes(l.others[0], t.foreign[0], |mem|)
    ensures LineOk(l.Heard(), Heard(t), base, AppliedAll(mem, t.foreign[0]))
  {
    assert Encodes(l.others[0], t.foreign[0], |mem|);
    MessageDone(t.log, t.foreign[0], false);
    ApplyMore(base, Of(t.log), mem, t.foreign[0]);
  }

  /** One more diff in the pending message. */
  lemma SaveKeeps(l: Line, t: Traffic, base: seq<Word>, mem: seq<Word>, d: Diff)
    requires LineOk(l, t, base, mem) && l.buffer.Pending? && WfDiff(d) && PageIndex(d) + UNITS <= |mem|
    requires |l.buffer.words| + |DiffWords(d)| <= MAXMSGWORDS
    ensures var u := t.(pending := t.pending + [d]);
      LineOk(l.(buffer := Pending(l.buffer.words + DiffWords(d))), u, base, mem)
      && u.Saved() == t.Saved() + [d]
  {
    MessageAppend(t.pending, d);
  }

  /** Another writer's message joins those on their way. */
  lemma ArriveKeeps(l: Line, t: Traffic, base: seq<Word>, mem: seq<Word>, m: seq<Word>, ds: seq<Diff>)
    requires LineOk(l, t, base, mem) && Encodes(m, ds, |mem|)
    ensures var u := t.(foreign := t.foreign + [ds]);
      LineOk(l.(others := l.others + [m]), u, base, mem) && u.Saved() == t.Saved() && u.Others() == t.Others() + ds
  {
    FlatAppend(t.foreign, ds);
    var foreign' := t.foreign + [ds];
    assert forall i :: 0 <= i < |t.foreign| ==> foreign'[i] == t.foreign[i];
    Assoc(By(t.log, false), Flat(t.foreign), ds);
  }

  /** The diffs saved so far, by home. */
  function SavedOf(ts: seq<Traffic>): (ss: seq<seq<Diff>>)
    ensures |ss| == |ts| && forall h :: 0 <= h < |ts| ==> ss[h] == ts[h].Saved()
  {
    seq(|ts|, h requires 0 <= h < |ts| => ts[h].Saved())
  }

  /** The diffs of other writers that concern this interval, by home. */
  function OthersOf(ts: seq<Traffic>): (ss: seq<seq<Diff>>)
    ensures |ss| == |ts| && forall h :: 0 <= h < |ts| ==> ss[h] == ts[h].Others()
  {
    seq(|ts|, h requires 0 <= h < |ts| => ts[h].Others())
  }

  ghost predicate SameSaved(ts: seq<Traffic>, ts': seq<Traffic>) {
    SavedOf(ts') == SavedOf(ts) && OthersOf(ts') == OthersOf(ts)
  }

  function SavedWithAll(ss: seq<seq<Diff>>, h: nat, ds: seq<Diff>): seq<seq<Diff>>
    requires h < |ss|
  {
    ss[h := ss[h] + ds]
  }

  function SavedWith(ss: seq<seq<Diff>>, h: nat, d: Diff): seq<seq<Diff>>
    requires h < |ss|
  {
    ss[h := ss[h] + [d]]
  }

  /** What the writer sees of the rest: its own buffers, and the diffs it has saved so far. */
  ghost predicate Same(ls: seq<Line>, ts: seq<Traffic>, ls': seq<Line>, ts': seq<Traffic>) {
    && |ls'| == |ls| == |ts'| == |ts| && SameSaved(ts, ts')
    && (forall h :: 0 <= h < |ls| ==> ls'[h].buffer == ls[h].buffer && ts'[h].pending == ts[h].pending)
  }

  /** A cache page: whether it is dirty, its home, its address, its memory and its twin. */
  datatype CachePage = CachePage(wtnt: bool, home: nat, addr: Address, page: array<Word>, twin: array<Word>)

  /** The same, as it stands when the interval ends. */
  datatype Change = Change(wtnt: bool, home: nat, addr: Address, page: PageData, twin: PageData)

  ghost predicate Matches(c: CachePage, ch: Change)
    reads c.page, c.twin
  {
    ch.wtnt == c.wtnt && ch.home == c.home && ch.addr == c.addr && ch.page == c.page[..] && ch.twin == c.twin[..]
  }

  ghost function PagesOf(cache: seq<CachePage>): set<object> {
    (set i | 0 <= i < |cache| :: cache[i].page) + (set i | 0 <= i < |cache| :: cache[i].twin)
  }

  ghost predicate AllMatch(cache: seq<CachePage>, cs: seq<Change>)
    reads PagesOf(cache)
  {
    |cs| == |cache| && forall i :: 0 <= i < |cache| ==> Matches(cache[i], cs[i])
  }

  /** The diffs of the dirty pages of home h, in cache order. */
  function DiffsFor(cs: seq<Change>, h: nat): (ds: seq<Diff>)
  {
    if cs == [] then []
    else DiffsFor(cs[..|cs| - 1], h) + DiffIf(cs[|cs| - 1], h)
  }

  function DiffIf(c: Change, h: nat): seq<Diff> {
    if c.wtnt && c.home == h then [DiffOf(c.addr, c.page, c.twin)] else []
  }

  predicate HomesExist(cs: seq<Change>, hostc: nat) { forall i :: 0 <= i < |cs| ==> cs[i].home < hostc }

  function SavedOne(ss: seq<seq<Diff>>, c: Change): (r: seq<seq<Diff>>)
    requires c.home < |ss|
    ensures |r| == |ss|
  {
    if c.wtnt then SavedWith(ss, c.home, DiffOf(c.addr, c.page, c.twin)) else ss
  }

  function SavedAfter(ss: seq<seq<Diff>>, cs: seq<Change>): (r: seq<seq<Diff>>)
    requires HomesExist(cs, |ss|)
    ensures |r| == |ss|
  {
    if cs == [] then ss else SavedOne(SavedAfter(ss, cs[..|cs| - 1]), cs[|cs| - 1])
  }

  lemma SavedAfterStep(ss: seq<seq<Diff>>, cs: seq<Change>, i: nat)
    requires HomesExist(cs, |ss|) && i < |cs|
    ensures SavedAfter(ss, cs[..i + 1]) == SavedOne(SavedAfter(ss, cs[..i]), cs[i])
  {
    assert cs[..i + 1][..i] == cs[..i];
  }

  lemma {:induction false} SavedAfterAt(ss: seq<seq<Diff>>, cs: seq<Change>, h: nat)
    requires HomesExist(cs, |ss|) && h < |ss|
    ensures SavedAfter(ss, cs)[h] == ss[h] + DiffsFor(cs, h)
  {
    if cs != [] {
      SavedAfterAt(ss, cs[..|cs| - 1], h);
    }
  }

  /** Nothing pending and nothing in flight: everything saved has been applied. */
  lemma Settled(l: Line, t: Traffic, base: seq<Word>, mem: seq<Word>)
    requires LineOk(l, t, base, mem) && l.buffer.DiffNull? && l.Load() == 0
    ensures t.flight == [] && t.pending == [] && t.Saved() == By(t.log, true)
    ensures HomeOk(base, Of(t.log), mem)
  {
    assert t.pending == [] && t.flight == [];
    assert t.Saved() == By(t.log, true) + [] + [];
  }

  /** The account of a home begins anew. */
  function Restarted(t: Traffic): (u: Traffic)
    ensures u.Saved() == [] && u.Others() == Flat(t.foreign)
  {
    Traffic([], [], [], t.foreign)
  }

  lemma RestartKeeps(l: Line, t: Traffic, base: seq<Word>, mem: seq<Word>)
    requires LineOk(l, t, base, mem) && l.buffer.DiffNull? && l.Load() == 0
    ensures LineOk(l, Restarted(t), mem, mem)
  {
    assert Of([]) == [];
  }

  function AllRestarted(ts: seq<Traffic>): (r: seq<Traffic>)
    ensures |r| == |ts| && forall h :: 0 <= h < |ts| ==> r[h] == Restarted(ts[h])
  {
    seq(|ts|, h requires 0 <= h < |ts| => Restarted(ts[h]))
  }

  predicate Quiet(ls: seq<Line>) { forall h :: 0 <= h < |ls| ==> ls[h].buffer == DiffNull && ls[h].Load() == 0 }

  lemma RestartAll(ls: seq<Line>, ts: seq<Traffic>, base: seq<seq<Word>>, mems: seq<seq<Word>>)
    requires AllOk(ls, ts, base, mems) && Quiet(ls)
    ensures AllOk(ls, AllRestarted(ts), mems, mems)
  {
    forall h | 0 <= h < |ls| ensures LineOk(ls[h], AllRestarted(ts)[h], mems[h], mems[h]) {
      RestartKeeps(ls[h], ts[h], base[h], mems[h]);
    }
  }

  /** What became of a home during an interval: the diffs applied there, in order, are the writer's for
      its dirty pages, in cache order, and the first of those that other writers had on their way. */
  ghost predicate Ended(t: Traffic, was: seq<Word>, now: seq<Word>, own: seq<Diff>, others: seq<Diff>) {
    && By(t.log, true) == own && By(t.log, false) + Flat(t.foreign) == others
    && Applicable(t.log, |was|) && now == AppliedAll(was, Of(t.log))
  }

  lemma OneEnded(l: Line, t: Traffic, base: seq<Word>, mem: seq<Word>, own: seq<Diff>, others: seq<Diff>)
    requires LineOk(l, t, base, mem) && l.buffer.DiffNull? && l.Load() == 0 && t.Saved() == own && t.Others() == others
    ensures Ended(t, base, mem, own, others)
  {
    Settled(l, t, base, mem);
  }

  lemma SavedSince(start: seq<Traffic>, ts: seq<Traffic>, cs: seq<Change>, h: nat)
    requires h < |ts| == |start| && HomesExist(cs, |ts|)
    requires SavedOf(ts) == SavedAfter(SavedOf(AllRestarted(start)), cs)
    requires OthersOf(ts) == OthersOf(AllRestarted(start))
    ensures ts[h].Saved() == DiffsFor(cs, h) && ts[h].Others() == Flat(start[h].foreign)
  {
    var ss := SavedOf(AllRestarted(start));
    SavedAfterAt(ss, cs, h);
    assert AllRestarted(start)[h] == Restarted(start[h]) && ss[h] == [];
    assert SavedOf(ts)[h] == [] + DiffsFor(cs, h) == DiffsFor(cs, h);
    assert OthersOf(ts)[h] == OthersOf(AllRestarted(start))[h];
  }

  lemma AllEnded(ls: seq<Line>, start: seq<Traffic>, ts: seq<Traffic>, base: seq<seq<Word>>, mems: seq<seq<Word>>, cs: seq<Change>)
    requires AllOk(ls, ts, base, mems) && Quiet(ls) && HomesExist(cs, |ts|) && |start| == |ts|
    requires SavedOf(ts) == SavedAfter(SavedOf(AllRestarted(start)), cs)
    requires OthersOf(ts) == OthersOf(AllRestarted(start))
    ensures forall h :: 0 <= h < |ts| ==> Ended(ts[h], base[h], mems[h], DiffsFor(cs, h), Flat(start[h].foreign))
  {
    forall h | 0 <= h < |ts| ensures Ended(ts[h], base[h], mems[h], DiffsFor(cs, h), Flat(start[h].foreign)) {
      SavedSince(start, ts, cs, h);
      OneEnded(ls[h], ts[h], base[h], mems[h], DiffsFor(cs, h), Flat(start[h].foreign));
    }
  }

  predicate Covers(c: Change, h: nat, k: nat) {
    c.wtnt && c.home == h && c.addr / WORDBYTES <= k < c.addr / WORDBYTES + UNITS
  }

  lemma OneMore(mem: seq<Word>, ds: seq<Diff>, addr: Address, page: PageData, twin: PageData, k: nat)
    requires Good(ds, |mem|) && addr / WORDBYTES + UNITS <= |mem| && k < |mem|
    ensures var d := DiffOf(addr, page, twin);
      && Good(ds + [d], |mem|)
      && AppliedAll(mem, ds + [d])[k] == Overlaid(AppliedAll(mem, ds), addr / WORDBYTES, page, twin, 0, k)
  {
    var d, m := DiffOf(addr, page, twin), AppliedAll(mem, ds);
    AppliedAllAppend(mem, ds, [d]);
    assert [d][1..] == [];
    assert AppliedAll(m, [d]) == Applied(m, PageIndex(d), d.runs);
    AppliedWord(m, addr / WORDBYTES, page, twin, 0, k);
  }

  /** Word k after the diffs of the last cache page, which may not be dirty or not at home h. */
  lemma LastChange(mem: seq<Word>, cs: seq<Change>, h: nat, k: nat)
    requires cs != [] && Good(DiffsFor(cs, h), |mem|) && k < |mem|
    ensures Good(DiffsFor(cs[..|cs| - 1], h), |mem|)
    ensures AppliedAll(mem, DiffsFor(cs, h))[k] ==
      var was, c := AppliedAll(mem, DiffsFor(cs[..|cs| - 1], h)), cs[|cs| - 1];
      if Covers(c, h, k) then Overlaid(was, c.addr / WORDBYTES, c.page, c.twin, 0, k) else was[k]
  {
    var ds, c := DiffsFor(cs[..|cs| - 1], h), cs[|cs| - 1];
    assert forall i :: 0 <= i < |ds| ==> (ds + DiffIf(c, h))[i] == ds[i];
    if DiffIf(c, h) == [] {
      assert ds + [] == ds;
    } else {
      assert (ds + DiffIf(c, h))[|ds|] == DiffOf(c.addr, c.page, c.twin);
      OneMore(mem, ds, c.addr, c.page, c.twin, k);
    }
  }

  /** The end of an interval leaves every word outside the dirty pages alone. */
  lemma {:induction false} IntervalKeeps(mem: seq<Word>, cs: seq<Change>, h: nat, k: nat)
    requires Good(DiffsFor(cs, h), |mem|) && k < |mem|
    requires forall i :: 0 <= i < |cs| ==> !Covers(cs[i], h, k)
    ensures AppliedAll(mem, DiffsFor(cs, h))[k] == mem[k]
  {
    if cs != [] {
      LastChange(mem, cs, h, k);
      IntervalKeeps(mem, cs[..|cs| - 1], h, k);
    }
  }

  /** A word of a dirty page takes the writer's value if the writer changed it, and keeps the home's
      value otherwise, when no other dirty page overlaps this one. */
  lemma {:induction false} IntervalMerges(mem: seq<Word>, cs: seq<Change>, i: nat, h: nat, k: nat)
    requires Good(DiffsFor(cs, h), |mem|) && i < |cs| && k < |mem| && Covers(cs[i], h, k)
    requires forall j :: 0 <= j < |cs| && j != i ==> !Covers(cs[j], h, k)
    ensures AppliedAll(mem, DiffsFor(cs, h))[k] == Overlaid(mem, cs[i].addr / WORDBYTES, cs[i].page, cs[i].twin, 0, k)
  {
    var n := |cs| - 1;
    LastChange(mem, cs, h, k);
    if i < n {
      IntervalMerges(mem, cs[..n], i, h, k);
    } else {
      IntervalKeeps(mem, cs[..n], h, k);
      SameBase(AppliedAll(mem, DiffsFor(cs[..n], h)), mem, cs[n], k);
    }
  }

  lemma SameBase(a: seq<Word>, b: seq<Word>, c: Change, k: nat)
    requires |a| == |b| && k < |a| && a[k] == b[k]
    ensures Overlaid(a, c.addr / WORDBYTES, c.page, c.twin, 0, k) == Overlaid(b, c.addr / WORDBYTES, c.page, c.twin, 0, k)
  {
  }

  /** The writer's diffs carry word k exactly if it changed the word in a dirty page of home h. */
  predicate Changes(c: Change, h: nat, k: nat) {
    Covers(c, h, k) && c.page[k - c.addr / WORDBYTES] != c.twin[k - c.addr / WORDBYTES]
  }

  lemma {:induction false} CarriedIff(cs: seq<Change>, h: nat, k: nat)
    ensures NoneTouches(DiffsFor(cs, h), k) <==> forall i :: 0 <= i < |cs| ==> !Changes(cs[i], h, k)
  {
    if cs != [] {
      var n := |cs| - 1;
      CarriedIff(cs[..n], h, k);
      OneCarried(cs[n], h, k);
      NoneMore(DiffsFor(cs[..n], h), DiffIf(cs[n], h), k);
      assert forall i :: 0 <= i < n ==> cs[..n][i] == cs[i];
    }
  }

  lemma OneCarried(c: Change, h: nat, k: nat)
    ensures NoneTouches(DiffIf(c, h), k) <==> !Changes(c, h, k)
  {
    TouchesIff(c.addr, c.page, c.twin, k);
    if DiffIf(c, h) != [] {
      assert DiffIf(c, h)[0] == DiffOf(c.addr, c.page, c.twin);
    }
  }

  lemma NoneMore(a: seq<Diff>, b: seq<Diff>, k: nat)
    ensures NoneTouches(a + b, k) <==> NoneTouches(a, k) && NoneTouches(b, k)
  {
    var ds := a + b;
    assert forall i :: 0 <= i < |a| ==> ds[i] == a[i];
    assert forall i :: 0 <= i < |b| ==> ds[|a| + i] == b[i];
  }

  /** A home at the end of an interval, word by word, whatever was applied in between.  Where no other
      writer's diff carries the word, the writer's diffs alone account for it; a word that it did not
      change is as the other writers' diffs alone would leave it. */
  lemma SharedWord(t: Traffic, was: seq<Word>, now: seq<Word>, cs: seq<Change>, others: seq<Diff>, h: nat, k: nat)
    requires Ended(t, was, now, DiffsFor(cs, h), others) && k < |was|
    ensures Good(DiffsFor(cs, h), |was|) && Good(By(t.log, false), |was|) && |now| == |was|
    ensures NoneTouches(By(t.log, false), k) ==> now[k] == AppliedAll(was, DiffsFor(cs, h))[k]
    ensures (forall i :: 0 <= i < |cs| ==> !Changes(cs[i], h, k)) ==> now[k] == AppliedAll(was, By(t.log, false))[k]
  {
    MixedWord(was, t.log, k);
    CarriedIff(cs, h, k);
    assert By(t.log, true) == DiffsFor(cs, h) && By(t.log, !true) == By(t.log, false) && By(t.log, !false) == By(t.log, true);
  }

  /** Hence a word of a dirty page that this writer changed and no other did has its value. */
  lemma ChangedWord(t: Traffic, was: seq<Word>, now: seq<Word>, cs: seq<Change>, others: seq<Diff>, i: nat, h: nat, k: nat)
    requires Ended(t, was, now, DiffsFor(cs, h), others) && i < |cs| && k < |was| && Changes(cs[i], h, k)
    requires (forall j :: 0 <= j < |cs| && j != i ==> !Covers(cs[j], h, k)) && NoneTouches(By(t.log, false), k)
    ensures |now| == |was| && now[k] == cs[i].page[k - cs[i].addr / WORDBYTES]
  {
    SharedWord(t, was, now, cs, others, h, k);
    IntervalMerges(was, cs, i, h, k);
  }

  /** The diff of one page, in a buffer of its own. */
  method EncodePage(d: CachePage) returns (words: seq<Word>)
    requires d.page.Length == d.twin.Length == UNITS
    ensures words == DiffWords(DiffOf(d.addr, d.page[..], d.twin[..])) && |words| <= MAXMSGWORDS
  {
    var diff := new Word[MAXMSGWORDS];
    var size := EncodeDiff(d.addr, d.page, d.twin, diff);
    words := diff[..size / WORDBYTES];
  }

  /** The message reaches the home's memory. */
  method ApplyMessage(m: seq<Word>, mem: array<Word>, ghost ds: seq<Diff>)
    requires Encodes(m, ds, mem.Length)
    modifies mem
    ensures Good(ds, mem.Length) && mem[..] == AppliedAll(old(mem[..]), ds)
  {
    var data := new Word[|m|](i requires 0 <= i < |m| => m[i]);
    assert data[..] == m;
    DiffServer(data, WORDBYTES * |m|, mem, ds);
  }

  // ---------------------------------------------------------------- all homes

  predicate Apart(mem: seq<array<Word>>) { forall g, h :: 0 <= g < h < |mem| ==> mem[g] != mem[h] }

  /** The homes' memories. */
  ghost function Images(mem: seq<array<Word>>): (r: seq<seq<Word>>)
    reads set h | 0 <= h < |mem| :: mem[h]
    ensures |r| == |mem| && forall h :: 0 <= h < |mem| ==> r[h] == mem[h][..]
  {
    seq(|mem|, h requires 0 <= h < |mem| reads if 0 <= h < |mem| then {mem[h]} else {} => mem[h][..])
  }

  method ApplyAt(mem: seq<array<Word>>, h: nat, m: seq<Word>, ghost ds: seq<Diff>)
    requires Apart(mem) && h < |mem| && Encodes(m, ds, mem[h].Length)
    modifies mem[h]
    ensures Good(ds, mem[h].Length) && Images(mem) == old(Images(mem))[h := AppliedAll(old(mem[h][..]), ds)]
  {
    ApplyMessage(m, mem[h], ds);
  }

  ghost predicate AllOk(ls: seq<Line>, ts: seq<Traffic>, base: seq<seq<Word>>, mems: seq<seq<Word>>) {
    && |ls| == |ts| == |base| == |mems|
    && forall h :: 0 <= h < |ls| ==> LineOk(ls[h], ts[h], base[h], mems[h])
  }

  /** The effect of one event at home h on the writer's account. */
  ghost predicate Steps(ls: seq<Line>, ts: seq<Traffic>, base: seq<seq<Word>>, mems: seq<seq<Word>>,
    h: nat, l: Line, t: Traffic, m: seq<Word>)
    requires h < |ls| == |ts| == |mems|
  {
    && AllOk(ls[h := l], ts[h := t], base, mems[h := m])
    && Sum(Loads(ls[h := l])) == Sum(Loads(ls)) - ls[h].Load() + l.Load() && Sum(Loads(ls)) >= ls[h].Load()
    && (t.Saved() == ts[h].Saved() && t.Others() == ts[h].Others() ==> SameSaved(ts, ts[h := t]))
  }

  lemma OneLine(ls: seq<Line>, ts: seq<Traffic>, base: seq<seq<Word>>, mems: seq<seq<Word>>,
    h: nat, l: Line, t: Traffic, m: seq<Word>)
    requires AllOk(ls, ts, base, mems) && h < |ls| && LineOk(l, t, base[h], m)
    ensures Steps(ls, ts, base, mems, h, l, t, m)
  {
    LoadsUpdate(ls, h, l);
    if t.Saved() == ts[h].Saved() && t.Others() == ts[h].Others() { SameSavedAt(ts, h, t); }
  }

  lemma SameSavedAt(ts: seq<Traffic>, h: nat, t: Traffic)
    requires h < |ts| && t.Saved() == ts[h].Saved() && t.Others() == ts[h].Others()
    ensures SameSaved(ts, ts[h := t])
  {
    var us := ts[h := t];
    assert forall g :: 0 <= g < |ts| ==> us[g].Saved() == ts[g].Saved() && us[g].Others() == ts[g].Others();
  }

  lemma Unchanged<T>(s: seq<T>, h: nat)
    requires h < |s|
    ensures s[h := s[h]] == s
  {
  }

  /** Home h handles the writer's oldest message. */
  lemma ServedLine(ls: seq<Line>, ts: seq<Traffic>, base: seq<seq<Word>>, mems: seq<seq<Word>>, h: nat)
    requires AllOk(ls, ts, base, mems) && h < |ls| && ls[h].out != []
    ensures ts[h].flight != [] && Encodes(ls[h].out[0], ts[h].flight[0], |mems[h]|)
    ensures Steps(ls, ts, base, mems, h, ls[h].Served(), Served(ts[h]), AppliedAll(mems[h], ts[h].flight[0]))
    ensures Same(ls, ts, ls[h := ls[h].Served()], ts[h := Served(ts[h])])
  {
    ServeKeeps(ls[h], ts[h], base[h], mems[h]);
    ServedSaved(ts[h]);
    SameSavedAt(ts, h, Served(ts[h]));
    OneLine(ls, ts, base, mems, h, ls[h].Served(), Served(ts[h]), AppliedAll(mems[h], ts[h].flight[0]));
  }

  /** Home h handles another writer's. */
  lemma HeardLine(ls: seq<Line>, ts: seq<Traffic>, base: seq<seq<Word>>, mems: seq<seq<Word>>, h: nat)
    requires AllOk(ls, ts, base, mems) && h < |ls| && ls[h].others != []
    ensures ts[h].foreign != [] && Encodes(ls[h].others[0], ts[h].foreign[0], |mems[h]|)
    ensures Steps(ls, ts, base, mems, h, ls[h].Heard(), Heard(ts[h]), AppliedAll(mems[h], ts[h].foreign[0]))
    ensures Same(ls, ts, ls[h := ls[h].Heard()], ts[h := Heard(ts[h])])
  {
    HearKeeps(ls[h], ts[h], base[h], mems[h]);
    HeardSaved(ts[h]);
    SameSavedAt(ts, h, Heard(ts[h]));
    OneLine(ls, ts, base, mems, h, ls[h].Heard(), Heard(ts[h]), AppliedAll(mems[h], ts[h].foreign[0]));
  }

  lemma ArrivedLine(ls: seq<Line>, ts: seq<Traffic>, base: seq<seq<Word>>, mems: seq<seq<Word>>, h: nat, m: seq<Word>, ds: seq<Diff>)
    requires AllOk(ls, ts, base, mems) && h < |ls| && Encodes(m, ds, |mems[h]|)
    ensures var t := ts[h].(foreign := ts[h].foreign + [ds]);
      && Steps(ls, ts, base, mems, h, ls[h].(others := ls[h].others + [m]), t, mems[h])
      && SavedOf(ts[h := t]) == SavedOf(ts) && OthersOf(ts[h := t]) == SavedWithAll(OthersOf(ts), h, ds)
  {
    ArriveKeeps(ls[h], ts[h], base[h], mems[h], m, ds);
    OneLine(ls, ts, base, mems, h, ls[h].(others := ls[h].others + [m]), ts[h].(foreign := ts[h].foreign + [ds]), mems[h]);
  }

  /** The pending message for home h leaves. */
  lemma SentLine(ls: seq<Line>, ts: seq<Traffic>, base: seq<seq<Word>>, mems: seq<seq<Word>>, h: nat, b: Buffer)
    requires AllOk(ls, ts, base, mems) && h < |ls| && ls[h].buffer.Pending? && (b == DiffNull || b == Pending([]))
    ensures var t := ts[h].(flight := ts[h].flight + [ts[h].pending], pending := []);
      && Steps(ls, ts, base, mems, h, ls[h].(buffer := b, out := ls[h].out + [ls[h].buffer.words]), t, mems[h])
      && SameSaved(ts, ts[h := t])
  {
    var t := ts[h].(flight := ts[h].flight + [ts[h].pending], pending := []);
    SendKeeps(ls[h], ts[h], base[h], mems[h], b);
    OneLine(ls, ts, base, mems, h, ls[h].(buffer := b, out := ls[h].out + [ls[h].buffer.words]), t, mems[h]);
  }

  /** A diff joins it. */
  lemma SavedLine(ls: seq<Line>, ts: seq<Traffic>, base: seq<seq<Word>>, mems: seq<seq<Word>>, h: nat, d: Diff)
    requires AllOk(ls, ts, base, mems) && h < |ls| && ls[h].buffer.Pending?
    requires WfDiff(d) && PageIndex(d) + UNITS <= |mems[h]| && |ls[h].buffer.words| + |DiffWords(d)| <= MAXMSGWORDS
    ensures var t := ts[h].(pending := ts[h].pending + [d]);
      && Steps(ls, ts, base, mems, h, ls[h].(buffer := Pending(ls[h].buffer.words + DiffWords(d))), t, mems[h])
      && SavedOf(ts[h := t]) == SavedWith(SavedOf(ts), h, d) && OthersOf(ts[h := t]) == OthersOf(ts)
  {
    var t := ts[h].(pending := ts[h].pending + [d]);
    SaveKeeps(ls[h], ts[h], base[h], mems[h], d);
    OneLine(ls, ts, base, mems, h, ls[h].(buffer := Pending(ls[h].buffer.words + DiffWords(d))), t, mems[h]);
  }

  /** A buffer is opened or closed while nothing is pending, or a grant is taken. */
  lemma SameTraffic(ls: seq<Line>, ts: seq<Traffic>, base: seq<seq<Word>>, mems: seq<seq<Word>>, h: nat, l: Line)
    requires AllOk(ls, ts, base, mems) && h < |ls| && l.out == ls[h].out && l.others == ls[h].others
    requires l.buffer == ls[h].buffer || (ls[h].buffer == DiffNull && l.buffer == Pending([]))
      || (ls[h].buffer == Pending([]) && l.buffer == DiffNull)
    ensures Steps(ls, ts, base, mems, h, l, ts[h], mems[h]) && AllOk(ls[h := l], ts, base, mems)
    ensures l.buffer == ls[h].buffer ==> Same(ls, ts, ls[h := l], ts)
  {
    if l.buffer == DiffNull && ls[h].buffer == Pending([]) { assert ts[h].pending == []; }
    OneLine(ls, ts, base, mems, h, l, ts[h], mems[h]);
    Unchanged(ts, h);
    Unchanged(mems, h);
  }

  class Writer {
    const hostc: nat
    const mem: seq<array<Word>>
    var diffwait: nat
    var lines: seq<Line>
    ghost var base: seq<seq<Word>>
    ghost var traffic: seq<Traffic>

    ghost function Frame(): set<object> { {this} + set h | 0 <= h < |mem| :: mem[h] }

    ghost predicate Shape()
      reads this
    {
      |mem| == |lines| == |base| == |traffic| == hostc && Apart(mem)
    }

    /** What holds whenever the network, a home or the writer is about to act. */
    ghost predicate Valid()
      reads Frame()
    {
      Shape() && AllOk(lines, traffic, base, Images(mem)) && diffwait == Sum(Loads(lines))
    }

    /** The homes and the network have moved, and the writer has not. */
    twostate predicate Undisturbed()
      reads this
    {
      base == old(base) && Same(old(lines), old(traffic), lines, traffic)
    }

    constructor (mem: seq<array<Word>>)
      requires Apart(mem)
      ensures Valid() && this.mem == mem && diffwait == 0 && base == Images(mem)
      ensures forall h :: 0 <= h < hostc ==>
        lines[h].buffer == DiffNull && traffic[h].Saved() == [] && traffic[h].Others() == []
    {
      this.hostc, this.mem := |mem|, mem;
      diffwait, lines := 0, seq(|mem|, _ => Line(DiffNull, [], 0, []));
      base := Images(mem);
      traffic := seq(|mem|, _ => Traffic([], [], [], []));
      new;
      SumZero(Loads(lines));
      assert Of([]) == [];
    }

    /** A home handles the oldest DIFF of this writer and answers with a DIFFGRANT. */
    method ServeDiff(h: nat)
      requires Valid() && h < hostc && lines[h].out != []
      modifies this`lines, this`traffic, mem[h]
      ensures Valid() && Undisturbed()
      ensures lines == old(lines)[h := old(lines)[h].Served()] && diffwait == old(diffwait)
    {
      var l := lines[h];
      ghost var t := traffic[h];
      ServedLine(lines, traffic, base, Images(mem), h);
      ApplyAt(mem, h, l.out[0], t.flight[0]);
      lines := lines[h := l.Served()];
      traffic := traffic[h := Served(t)];
    }

    /** A message of another writer is on its way to home h. */
    method Arrive(h: nat, m: seq<Word>, ghost ds: seq<Diff>)
      requires Valid() && h < hostc && Encodes(m, ds, mem[h].Length)
      modifies this`lines, this`traffic
      ensures Valid() && base == old(base) && diffwait == old(diffwait) && SavedOf(traffic) == SavedOf(old(traffic))
      ensures lines == old(lines)[h := old(lines[h]).(others := old(lines[h].others) + [m])]
      ensures OthersOf(traffic) == SavedWithAll(OthersOf(old(traffic)), h, ds)
    {
      var l := lines[h].(others := lines[h].others + [m]);
      ArrivedLine(lines, traffic, base, Images(mem), h, m, ds);
      Unchanged(Images(mem), h);
      lines := lines[h := l];
      traffic := traffic[h := traffic[h].(foreign := traffic[h].foreign + [ds])];
    }

    /** A home handles a DIFF of another writer; the grant goes to that writer. */
    method ServeOther(h: nat)
      requires Valid() && h < hostc && lines[h].others != []
      modifies this`lines, this`traffic, mem[h]
      ensures Valid() && Undisturbed()
      ensures lines == old(lines)[h := old(lines)[h].Heard()] && diffwait == old(diffwait)
    {
      var l := lines[h];
      ghost var t := traffic[h];
      HeardLine(lines, traffic, base, Images(mem), h);
      ApplyAt(mem, h, l.others[0], t.foreign[0]);
      lines := lines[h := l.Heard()];
      traffic := traffic[h := Heard(t)];
    }

    /** diffgrantserver. */
    method DiffGrantServer(h: nat)
      requires Valid() && h < hostc && lines[h].grants > 0
      modifies this`lines, this`diffwait
      ensures Valid() && Undisturbed() && diffwait == old(diffwait) - 1
      ensures lines == old(lines)[h := old(lines[h]).(grants := old(lines[h].grants) - 1)]
    {
      var l := lines[h].(grants := lines[h].grants - 1);
      SameTraffic(lines, traffic, base, Images(mem), h, l);
      lines, diffwait := lines[h := l], diffwait - 1;
    }

    ghost predicate CanSave(d: CachePage)
      reads this
    {
      && d.page.Length == d.twin.Length == UNITS && d.page !in mem && d.twin !in mem
      && d.home < |mem| && d.addr / WORDBYTES + UNITS <= mem[d.home].Length
    }

    /** The pending message of home h goes to the outgoing queue. */
    method SendPending(h: nat, b: Buffer)
      requires Valid() && h < hostc && lines[h].buffer.Pending? && (b == DiffNull || b == Pending([]))
      modifies this`lines, this`traffic, this`diffwait
      ensures Valid() && diffwait == old(diffwait) + 1
      ensures lines == old(lines)[h := old(lines[h]).(buffer := b, out := old(lines[h].out) + [old(lines[h].buffer.words)])]
      ensures SameSaved(old(traffic), traffic)
    {
      var l := lines[h].(buffer := b, out := lines[h].out + [lines[h].buffer.words]);
      SentLine(lines, traffic, base, Images(mem), h, b);
      Unchanged(Images(mem), h);
      diffwait, lines := diffwait + 1, lines[h := l];
      traffic := traffic[h := traffic[h].(flight := traffic[h].flight + [traffic[h].pending], pending := [])];
    }

    /** appendmsg, for one encoded diff. */
    method Append(h: nat, words: seq<Word>, ghost d: Diff)
      requires Valid() && h < hostc && lines[h].buffer.Pending?
      requires WfDiff(d) && words == DiffWords(d) && PageIndex(d) + UNITS <= mem[h].Length
      requires |lines[h].buffer.words| + |words| <= MAXMSGWORDS
      modifies this`lines, this`traffic
      ensures Valid()
      ensures lines == old(lines)[h := old(lines[h]).(buffer := Pending(old(lines[h]).Words() + words))]
      ensures OthersOf(traffic) == OthersOf(old(traffic))
      ensures SavedOf(traffic) == SavedWith(SavedOf(old(traffic)), h, d)
    {
      var l := lines[h].(buffer := Pending(lines[h].buffer.words + words));
      SavedLine(lines, traffic, base, Images(mem), h, d);
      Unchanged(Images(mem), h);
      lines := lines[h := l];
      traffic := traffic[h := traffic[h].(pending := traffic[h].pending + [d])];
    }

    /** A message or a grant of home h moves. */
    method NetworkStep(h: nat)
      requires Valid() && h < hostc && (lines[h].Load() > 0 || lines[h].others != [])
      modifies Frame()
      ensures Valid() && Undisturbed()
      ensures diffwait <= old(diffwait)
      ensures diffwait == old(diffwait) ==> Sum(Unserved(lines)) < old(Sum(Unserved(lines)))
    {
      var serve, hear := *, *;
      if lines[h].others != [] && (hear || lines[h].Load() == 0) {
        UnservedUpdate(lines, h, lines[h].Heard());
        ServeOther(h);
      } else if lines[h].grants == 0 || (lines[h].out != [] && serve) {
        UnservedUpdate(lines, h, lines[h].Served());
        ServeDiff(h);
      } else {
        DiffGrantServer(h);
      }
    }

    /** The busy wait on `diffwait`: homes and network move in any order until every grant is in. */
    method AwaitGrants()
      requires Valid()
      modifies Frame()
      ensures Valid() && Undisturbed() && diffwait == 0
      ensures forall h :: 0 <= h < hostc ==> lines[h].Load() == 0
    {
      while diffwait > 0
        invariant Valid() && Undisturbed()
        decreases diffwait, Sum(Unserved(lines))
      {
        SumZero(Loads(lines));
        var h :| 0 <= h < hostc && (lines[h].Load() > 0 || lines[h].others != []);
        NetworkStep(h);
      }
      SumZero(Loads(lines));
      assert forall h :: 0 <= h < hostc ==> Loads(lines)[h] == lines[h].Load();
    }

    /** The start of savediff: home h has a pending message. */
    method OpenBuffer(h: nat)
      requires Valid() && h < hostc
      modifies this`lines
      ensures Valid() && lines == old(lines)[h := old(lines[h]).(buffer := Pending(old(lines[h]).Words()))]
    {
      if lines[h].buffer.DiffNull? {
        SameTraffic(lines, traffic, base, Images(mem), h, lines[h].(buffer := Pending([])));
        lines := lines[h := lines[h].(buffer := Pending([]))];
      }
    }

    /** The first half of savediff: a pending message with room for n words; full tells whether the
        one before had to be sent. */
    method MakeRoom(h: nat, n: nat) returns (full: bool)
      requires Valid() && h < hostc && n <= MAXMSGWORDS
      modifies this`lines, this`traffic, this`diffwait
      ensures Valid() && SameSaved(old(traffic), traffic)
      ensures lines[h].buffer.Pending? && |lines[h].buffer.words| + n <= MAXMSGWORDS
      ensures full <==> |old(lines[h]).Words()| + n > MAXMSGWORDS
      ensures lines == old(lines)[h := old(lines[h]).Roomy(n)]
    {
      OpenBuffer(h);
      full := |lines[h].buffer.words| + n > MAXMSGWORDS;
      if full {
        SendPending(h, Pending([]));
      }
    }

    /** The encoded diff d joins the pending message of home h; full tells whether the one before had to
        be sent. */
    method AddWords(h: nat, words: seq<Word>, ghost d: Diff) returns (full: bool)
      requires Valid() && h < hostc && WfDiff(d) && words == DiffWords(d) && |words| <= MAXMSGWORDS
      requires PageIndex(d) + UNITS <= mem[h].Length
      modifies this`lines, this`traffic, this`diffwait
      ensures Valid() && OthersOf(traffic) == OthersOf(old(traffic))
      ensures (full <==> old(lines[h]).Full(|words|)) && lines == old(lines)[h := old(lines[h]).Joined(words)]
      ensures SavedOf(traffic) == SavedWith(SavedOf(old(traffic)), h, d)
    {
      RoomThenJoin(lines, h, words);
      full := MakeRoom(h, |words|);
      Append(h, words, d);
    }

    /** savediff: the diff of one dirty page joins the pending message of its home; a message that
        would grow too large is sent first, and then every grant is awaited. */
    method SaveDiff(d: CachePage)
      requires Valid() && CanSave(d)
      modifies Frame()
      ensures Valid() && base == old(base)
      ensures forall h :: 0 <= h < hostc && h != d.home ==> lines[h].buffer == old(lines[h].buffer)
      ensures var was, words := old(lines[d.home]), DiffWords(DiffOf(d.addr, old(d.page[..]), old(d.twin[..])));
        if was.Full(|words|) then
          diffwait == 0 && lines[d.home].buffer == Pending(words) && forall h :: 0 <= h < hostc ==> lines[h].Load() == 0
        else lines == old(lines)[d.home := was.Joined(words)]
      ensures OthersOf(traffic) == OthersOf(old(traffic))
      ensures SavedOf(traffic) == SavedWith(SavedOf(old(traffic)), d.home, DiffOf(d.addr, old(d.page[..]), old(d.twin[..])))
    {
      var words := EncodePage(d);
      var full := AddWords(d.home, words, DiffOf(d.addr, d.page[..], d.twin[..]));
      if full {
        AwaitGrants();
      }
    }

    /** One turn of senddiffs. */
    method Flush(h: nat)
      requires Valid() && h < hostc
      modifies this`lines, this`traffic, this`diffwait
      ensures Valid() && SameSaved(old(traffic), traffic)
      ensures lines == old(lines)[h := old(lines[h]).Flushed()]
      ensures lines[h].out == old(lines[h].out) + if old(lines[h]).Words() == [] then [] else [old(lines[h]).Words()]
    {
      if lines[h].buffer.Pending? {
        if |lines[h].buffer.words| > 0 {
          SendPending(h, DiffNull);
        } else {
          var l := lines[h].(buffer := DiffNull);
          SameTraffic(lines, traffic, base, Images(mem), h, l);
          lines := lines[h := l];
        }
      }
    }

    /** senddiffs: every pending message leaves. */
    method SendDiffs()
      requires Valid()
      modifies this`lines, this`traffic, this`diffwait
      ensures Valid() && SameSaved(old(traffic), traffic)
      ensures forall h :: 0 <= h < hostc ==> lines[h] == old(lines[h]).Flushed() && lines[h].buffer == DiffNull
    {
      for hosti := 0 to hostc
        invariant Valid() && SameSaved(old(traffic), traffic)
        invariant forall h :: 0 <= h < hostc ==> lines[h] == if h < hosti then old(lines[h]).Flushed() else old(lines[h])
      {
        Flush(hosti);
      }
    }

    ghost predicate Idle()
      reads this
    {
      Quiet(lines)
    }

    /** savepage, when the page is dirty. */
    method SaveIfDirty(c: CachePage, ghost ch: Change)
      requires Valid() && CanSave(c) && Matches(c, ch)
      modifies Frame()
      ensures Valid() && base == old(base)
      ensures OthersOf(traffic) == OthersOf(old(traffic))
      ensures SavedOf(traffic) == SavedOne(SavedOf(old(traffic)), ch)
    {
      if c.wtnt {
        SaveDiff(c);
      }
    }

    lemma PagesApart(cache: seq<CachePage>)
      requires Shape() && forall i :: 0 <= i < |cache| ==> CanSave(cache[i])
      ensures PagesOf(cache) !! Frame()
    {
    }

    /** One turn of it, for cache page i. */
    method SaveNth(cache: seq<CachePage>, ghost cs: seq<Change>, i: nat, ghost saved: seq<seq<Diff>>)
      requires Valid() && i < |cache| && CanSave(cache[i]) && AllMatch(cache, cs) && PagesOf(cache) !! Frame()
      requires HomesExist(cs, |saved|) && SavedOf(traffic) == SavedAfter(saved, cs[..i])
      modifies Frame()
      ensures Valid() && base == old(base) && OthersOf(traffic) == OthersOf(old(traffic)) && AllMatch(cache, cs)
      ensures SavedOf(traffic) == SavedAfter(saved, cs[..i + 1])
    {
      SavedAfterStep(saved, cs, i);
      SaveIfDirty(cache[i], cs[i]);
    }

    lemma AllHomes(cache: seq<CachePage>, cs: seq<Change>)
      requires Shape() && (forall i :: 0 <= i < |cache| ==> CanSave(cache[i])) && AllMatch(cache, cs)
      ensures HomesExist(cs, hostc) && |SavedOf(traffic)| == hostc
    {
    }

    /** The first loop of endinterval. */
    method SavePages(cache: seq<CachePage>, ghost cs: seq<Change>)
      requires Valid() && (forall i :: 0 <= i < |cache| ==> CanSave(cache[i])) && AllMatch(cache, cs)
      modifies Frame()
      ensures Valid() && base == old(base) && OthersOf(traffic) == OthersOf(old(traffic))
      ensures HomesExist(cs, hostc) && SavedOf(traffic) == SavedAfter(SavedOf(old(traffic)), cs)
    {
      ghost var saved := SavedOf(traffic);
      AllHomes(cache, cs);
      PagesApart(cache);
      for cachei := 0 to |cache|
        invariant Valid() && base == old(base) && OthersOf(traffic) == OthersOf(old(traffic)) && AllMatch(cache, cs)
        invariant SavedOf(traffic) == SavedAfter(saved, cs[..cachei])
      {
        SaveNth(cache, cs, cachei, saved);
      }
      TakeAll(cs);
    }

    /** The account begins anew; nothing moves. */
    ghost method Restart()
      requires Valid() && Idle()
      modifies this`base, this`traffic
      ensures Valid() && base == Images(mem) && traffic == AllRestarted(old(traffic))
    {
      RestartAll(lines, traffic, base, Images(mem));
      base, traffic := Images(mem), AllRestarted(traffic);
    }

    /** The part of endinterval that concerns cached pages: when it returns, every home has applied
        the diff of every dirty page it owns, and perhaps diffs of other writers in between. */
    method EndInterval(cache: seq<CachePage>, ghost cs: seq<Change>)
      requires Valid() && Idle() && (forall i :: 0 <= i < |cache| ==> CanSave(cache[i])) && AllMatch(cache, cs)
      modifies Frame()
      ensures Valid() && Idle() && diffwait == 0
      ensures forall h :: 0 <= h < hostc ==>
        Ended(traffic[h], old(Images(mem))[h], Images(mem)[h], DiffsFor(cs, h), Flat(old(traffic)[h].foreign))
    {
      ghost var start := traffic;
      Restart();
      SavePages(cache, cs);
      SendDiffs();
      AwaitGrants();
      AllEnded(lines, start, traffic, base, Images(mem), cs);
    }
  }
}
