/** The stop-and-wait link from one host to another: the client thread of the sender, the listen
    thread of the receiver, and a network that may lose, duplicate, delay and reorder packets and
    acknowledgements.  The network is the set of everything ever put on it: losing a packet is never
    taking it, duplicating it is taking it twice.  The listener acknowledges a packet first and looks
    at it afterwards, and enqueueing may make it wait, so the two are separate steps. */
module StopAndWait {

  const RETRYNUM := 50
  const M := 0x1_0000_0000              // sequence numbers are 32 bits wide

  type Body = seq<nat>

  /** n is the number of the message (history); no step decides anything by it. */
  datatype Packet = Packet(seqno: nat, body: Body, n: nat)
  datatype Ack = Ack(seqno: nat, n: nat)

  datatype Sender = Idle | Trying(msg: Packet, retries: nat, waiting: bool)

  datatype Listener = Free | Holding(p: Packet)      // acknowledged, not looked at yet

  datatype Link = Link(
    sender: Sender,
    sndSeq: nat,
    rcvSeq: nat,
    listener: Listener,
    packets: set<Packet>,
    acks: set<Ack>,
    sent: seq<Body>,                    // messages taken from the outgoing queue, in order (history)
    delivered: seq<Body>,               // messages put into the incoming queue, in order
    gaveUp: bool)                       // some message exhausted its retries (history)

  datatype Step =
    | Dequeue(body: Body)
    | Transmit
    | Timeout
    | TakeAck(ack: Ack)
    | Answer(p: Packet)
    | Accept

  function Init(): Link { Link(Idle, 0, 0, Free, {}, {}, [], [], false) }

  predicate Enabled(l: Link, st: Step) {
    match st
    case Dequeue(_) => l.sender.Idle?
    case Transmit => l.sender.Trying? && !l.sender.waiting
    case Timeout => l.sender.Trying? && l.sender.waiting
    case TakeAck(ack) => l.sender.Trying? && l.sender.waiting && ack in l.acks
    case Answer(p) => l.listener.Free? && p in l.packets
    case Accept => l.listener.Holding?
  }

  /** The end of the send loop, with or without success. */
  function Finish(l: Link): Link { l.(sender := Idle, sndSeq := (l.sndSeq + 1) % M) }

  /** The packet in the listener's hands is the next one, so it will be enqueued and not dropped. */
  predicate Expected(l: Link) { l.listener.Holding? && l.listener.p.seqno == l.rcvSeq }

  function Apply(l: Link, st: Step): Link
    requires Enabled(l, st)
  {
    match st
    case Dequeue(body) =>
      l.(sender := Trying(Packet(l.sndSeq, body, |l.sent|), 0, false), sent := l.sent + [body])
    case Transmit =>
      l.(packets := l.packets + {l.sender.msg}, sender := l.sender.(waiting := true))
    case Timeout =>
      if l.sender.retries + 1 < RETRYNUM then
        l.(sender := l.sender.(retries := l.sender.retries + 1, waiting := false))
      else Finish(l).(gaveUp := true)
    case TakeAck(ack) =>
      if ack.seqno == (l.sender.msg.seqno + 1) % M then Finish(l) else l
    case Answer(p) =>
      l.(acks := l.acks + {Ack((p.seqno + 1) % M, p.n)}, listener := Holding(p))
    case Accept =>
      if Expected(l) then
        l.(rcvSeq := (l.rcvSeq + 1) % M, delivered := l.delivered + [l.listener.p.body], listener := Free)
      else l.(listener := Free)
  }

  // ---------------------------------------------------------------- runs

  /** The network does not hand over a packet, nor an acknowledgement, that is a whole cycle of
      sequence numbers away from what its reader expects. */
  predicate Young(l: Link, st: Step) {
    match st
    case Answer(p) => |l.delivered| < p.n + M && p.n < |l.delivered| + M
    case TakeAck(ack) => l.sender.Trying? && l.sender.msg.n < ack.n + M
    case _ => true
  }

  ghost predicate IsRun(run: seq<Link>, steps: seq<Step>) {
    && |run| == |steps| + 1 && run[0] == Init()
    && forall i :: 0 <= i < |steps| ==> Enabled(run[i], steps[i]) && run[i + 1] == Apply(run[i], steps[i])
  }

  ghost predicate AllYoung(run: seq<Link>, steps: seq<Step>) {
    |run| == |steps| + 1 && forall i :: 0 <= i < |steps| ==> Young(run[i], steps[i])
  }

  /** The number of messages the sender is done with. */
  function Completed(l: Link): int { |l.sent| - if l.sender.Idle? then 0 else 1 }

  ghost predicate PacketOk(l: Link, p: Packet) {
    p.n < |l.sent| && p.seqno == p.n % M && p.body == l.sent[p.n]
  }

  ghost predicate SafetyInv(l: Link) {
    && l.sndSeq == Completed(l) % M && Completed(l) >= 0
    && (l.sender.Trying? ==> PacketOk(l, l.sender.msg) && l.sender.msg.n == |l.sent| - 1)
    && (forall p :: p in l.packets ==> PacketOk(l, p))
    && (forall a :: a in l.acks ==> a.n < |l.sent| && a.seqno == (a.n + 1) % M)
    && l.delivered <= l.sent && l.rcvSeq == |l.delivered| % M
    && (l.listener.Holding? ==> var p := l.listener.p;
      PacketOk(l, p) && |l.delivered| < p.n + M && p.n < |l.delivered| + M)
  }

  /** The messages delivered, and the one about to be. */
  function Received(l: Link): (n: nat) { |l.delivered| + if Expected(l) then 1 else 0 }

  /** While no send has exhausted its retries. */
  ghost predicate SyncInv(l: Link) {
    && Completed(l) <= Received(l)
    && (forall a :: a in l.acks ==> a.n < Received(l))
    && (l.listener.Holding? ==> l.listener.p.n < Received(l))
  }

  ghost predicate Inv(l: Link) { SafetyInv(l) && (!l.gaveUp ==> SyncInv(l)) }

  /** Two message numbers less than a cycle apart have different sequence numbers. */
  lemma SameSeqno(a: nat, b: nat)
    requires a % M == b % M && a < b + M && b < a + M
    ensures a == b
  {
  }

  lemma NextSeqno(a: nat)
    ensures (a % M + 1) % M == (a + 1) % M
  {
  }

  lemma SentGrows(l: Link, body: Body)
    requires Inv(l) && l.sender.Idle?
    ensures Inv(Apply(l, Dequeue(body)))
  {
    var r := Apply(l, Dequeue(body));
    assert forall p :: p in l.packets ==> PacketOk(l, p);
    assert r.sent[..|l.sent|] == l.sent;
  }

  /** What the listener holds is expected exactly if it is the next message. */
  lemma ExpectedIsNext(l: Link)
    requires SafetyInv(l) && l.listener.Holding?
    ensures Expected(l) <==> l.listener.p.n == |l.delivered|
  {
    if Expected(l) {
      SameSeqno(l.listener.p.n, |l.delivered|);
    }
  }

  lemma AnswerInv(l: Link, p: Packet)
    requires Inv(l) && Enabled(l, Answer(p)) && Young(l, Answer(p))
    ensures Inv(Apply(l, Answer(p)))
  {
    var r := Apply(l, Answer(p));
    assert PacketOk(l, p);
    NextSeqno(p.n);
    assert forall q :: q in r.packets ==> PacketOk(l, q) && PacketOk(r, q);
    ExpectedIsNext(r);
  }

  lemma AcceptInv(l: Link)
    requires Inv(l) && l.listener.Holding?
    ensures Inv(Apply(l, Accept))
  {
    var r := Apply(l, Accept);
    NextSeqno(|l.delivered|);
    ExpectedIsNext(l);
    assert forall q :: q in r.packets ==> PacketOk(l, q) && PacketOk(r, q);
  }

  lemma TakeAckInv(l: Link, ack: Ack)
    requires Inv(l) && Enabled(l, TakeAck(ack)) && Young(l, TakeAck(ack))
    ensures Inv(Apply(l, TakeAck(ack)))
    ensures !l.gaveUp && Apply(l, TakeAck(ack)) != l ==> Received(l) == |l.sent|
  {
    var r, n := Apply(l, TakeAck(ack)), l.sender.msg.n;
    NextSeqno(n);
    NextSeqno(Completed(l));
    if ack.seqno == (l.sender.msg.seqno + 1) % M {
      SameSeqno(ack.n + 1, n + 1);
    }
    assert forall q :: q in r.packets ==> PacketOk(l, q) && PacketOk(r, q);
    if l.listener.Holding? {
      ExpectedIsNext(l);
    }
  }

  lemma SendInv(l: Link, st: Step)
    requires Inv(l) && (st.Transmit? || st.Timeout?) && Enabled(l, st)
    ensures Inv(Apply(l, st))
  {
    var r := Apply(l, st);
    NextSeqno(Completed(l));
    assert forall q :: q in r.packets ==> PacketOk(l, q) && PacketOk(r, q);
  }

  lemma StepInv(l: Link, st: Step)
    requires Inv(l) && Enabled(l, st) && Young(l, st)
    ensures Inv(Apply(l, st))
  {
    match st
    case Dequeue(body) => SentGrows(l, body);
    case Transmit => SendInv(l, st);
    case Timeout => SendInv(l, st);
    case TakeAck(ack) => TakeAckInv(l, ack);
    case Answer(p) => AnswerInv(l, p);
    case Accept => AcceptInv(l);
  }

  lemma {:induction false} RunInv(run: seq<Link>, steps: seq<Step>, i: nat)
    requires IsRun(run, steps) && AllYoung(run, steps) && i < |run|
    ensures Inv(run[i])
  {
    if i > 0 {
      RunInv(run, steps, i - 1);
      StepInv(run[i - 1], steps[i - 1]);
    }
  }

  // ---------------------------------------------------------------- what the link guarantees

  /** Delivered messages are always a prefix of the sent ones: none repeated, none out of order. */
  lemma PrefixDelivery(run: seq<Link>, steps: seq<Step>, i: nat)
    requires IsRun(run, steps) && AllYoung(run, steps) && i < |run|
    ensures run[i].delivered <= run[i].sent
  {
    RunInv(run, steps, i);
  }

  /** While no send has exhausted its retries: an accepted acknowledgement means that everything sent
      has been delivered but for the message that the listener is about to enqueue, and receiver and
      sender differ by at most one message, either way. */
  lemma AckMeansReceived(run: seq<Link>, steps: seq<Step>, i: nat)
    requires IsRun(run, steps) && AllYoung(run, steps) && i < |steps| && !run[i].gaveUp
    ensures |run[i].delivered| - 1 <= Completed(run[i]) <= |run[i].delivered| + 1
    ensures steps[i].TakeAck? && run[i + 1] != run[i] ==>
      run[i].sent == run[i].delivered + if Expected(run[i]) then [run[i].listener.p.body] else []
  {
    RunInv(run, steps, i);
    var l := run[i];
    if l.listener.Holding? {
      ExpectedIsNext(l);
    }
    if steps[i].TakeAck? {
      TakeAckInv(l, steps[i].ack);
    }
  }

  /** So it means delivery exactly if the listener does not hold the message at that moment. */
  lemma AckMeansDeliveredIff(run: seq<Link>, steps: seq<Step>, i: nat)
    requires IsRun(run, steps) && AllYoung(run, steps) && i < |steps| && !run[i].gaveUp
    requires steps[i].TakeAck? && run[i + 1] != run[i]
    ensures run[i].delivered == run[i].sent <==> !Expected(run[i])
  {
    AckMeansReceived(run, steps, i);
  }

  // ---------------------------------------------------------------- trying again

  /** How often the steps transmit, and how often they time out. */
  function Transmits(steps: seq<Step>): nat {
    if steps == [] then 0 else Transmits(steps[..|steps| - 1]) + if steps[|steps| - 1].Transmit? then 1 else 0
  }

  function Timeouts(steps: seq<Step>): nat {
    if steps == [] then 0 else Timeouts(steps[..|steps| - 1]) + if steps[|steps| - 1].Timeout? then 1 else 0
  }

  predicate NoDequeue(steps: seq<Step>) { forall i :: 0 <= i < |steps| ==> !steps[i].Dequeue? }

  /** The message that step d takes from the outgoing queue. */
  function MessageAt(run: seq<Link>, steps: seq<Step>, d: nat): Packet
    requires d < |steps| && d < |run| && steps[d].Dequeue?
  {
    Packet(run[d].sndSeq, steps[d].body, |run[d].sent|)
  }

  /** Step d is the last of the first i that takes a message. */
  predicate LastDequeue(steps: seq<Step>, d: nat, i: nat) {
    d < i <= |steps| && steps[d].Dequeue? && NoDequeue(steps[d + 1..i])
  }

  /** A sender that still tries, against what it has done since it took its message. */
  predicate Attempted(l: Link, msg: Packet, transmits: nat, timeouts: nat) {
    l.sender.Trying? ==>
      && l.sender.msg == msg && timeouts == l.sender.retries < RETRYNUM
      && transmits == l.sender.retries + (if l.sender.waiting then 1 else 0)
      && (l.sender.waiting ==> msg in l.packets)
  }

  lemma AttemptStep(l: Link, st: Step, msg: Packet, transmits: nat, timeouts: nat)
    requires Attempted(l, msg, transmits, timeouts) && Enabled(l, st) && !st.Dequeue?
    ensures Attempted(Apply(l, st), msg, transmits + (if st.Transmit? then 1 else 0), timeouts + (if st.Timeout? then 1 else 0))
    ensures Apply(l, st).sender.Trying? ==> l.sender.Trying?
  {
  }

  ghost predicate Counted(run: seq<Link>, steps: seq<Step>, d: nat, i: nat)
    requires LastDequeue(steps, d, i) && i < |run|
  {
    Attempted(run[i], MessageAt(run, steps, d), Transmits(steps[d + 1..i]), Timeouts(steps[d + 1..i]))
  }

  lemma CountOneMore(steps: seq<Step>, d: nat, i: nat)
    requires d < i < |steps|
    ensures Transmits(steps[d + 1..i + 1]) == Transmits(steps[d + 1..i]) + if steps[i].Transmit? then 1 else 0
    ensures Timeouts(steps[d + 1..i + 1]) == Timeouts(steps[d + 1..i]) + if steps[i].Timeout? then 1 else 0
    ensures NoDequeue(steps[d + 1..i + 1]) ==> NoDequeue(steps[d + 1..i]) && !steps[i].Dequeue?
  {
    var s, s' := steps[d + 1..i], steps[d + 1..i + 1];
    assert s'[..|s'| - 1] == s && s'[|s'| - 1] == steps[i];
    assert forall j :: 0 <= j < |s| ==> s'[j] == s[j];
  }

  lemma {:induction false} Counting(run: seq<Link>, steps: seq<Step>, d: nat, i: nat)
    requires IsRun(run, steps) && LastDequeue(steps, d, i)
    ensures Counted(run, steps, d, i)
    decreases i
  {
    if i == d + 1 {
      assert steps[d + 1..i] == [] && run[i] == Apply(run[d], steps[d]);
    } else {
      CountOneMore(steps, d, i - 1);
      Counting(run, steps, d, i - 1);
      AttemptStep(run[i - 1], steps[i - 1], MessageAt(run, steps, d), Transmits(steps[d + 1..i - 1]), Timeouts(steps[d + 1..i - 1]));
    }
  }

  /** A sender that is trying has taken its message. */
  lemma {:induction false} TakenBefore(run: seq<Link>, steps: seq<Step>, i: nat) returns (d: nat)
    requires IsRun(run, steps) && i < |run| && run[i].sender.Trying?
    ensures LastDequeue(steps, d, i)
  {
    assert i > 0;
    if steps[i - 1].Dequeue? {
      d := i - 1;
      assert steps[d + 1..i] == [];
    } else {
      assert run[i] == Apply(run[i - 1], steps[i - 1]);
      d := TakenBefore(run, steps, i - 1);
      OneMoreStep(steps, d, i - 1);
    }
  }

  /** A sender that is trying has been since it took its message. */
  lemma {:induction false} StaysTrying(run: seq<Link>, steps: seq<Step>, d: nat, i: nat)
    requires IsRun(run, steps) && LastDequeue(steps, d, i) && run[i].sender.Trying?
    ensures forall j :: d < j <= i ==> run[j].sender.Trying?
    decreases i
  {
    if i > d + 1 {
      CountOneMore(steps, d, i - 1);
      assert run[i - 1].sender.Trying? by { assert run[i] == Apply(run[i - 1], steps[i - 1]) && !steps[i - 1].Dequeue?; }
      StaysTrying(run, steps, d, i - 1);
    }
  }

  /** A message leaves the sender in one of two ways: by an acknowledgement that matches it, or, given up,
      by the timeout that completes RETRYNUM of them, after as many transmissions. */
  lemma LeavesSender(run: seq<Link>, steps: seq<Step>, i: nat) returns (d: nat)
    requires IsRun(run, steps) && i < |steps| && run[i].sender.Trying? && run[i + 1].sender.Idle?
    ensures LastDequeue(steps, d, i + 1) && d < i
    ensures Timeouts(steps[d + 1..i + 1]) < RETRYNUM ==>
      && steps[i].TakeAck? && steps[i].ack in run[i].acks
      && steps[i].ack.seqno == (MessageAt(run, steps, d).seqno + 1) % M && run[i + 1].gaveUp == run[i].gaveUp
      && Transmits(steps[d + 1..i + 1]) == Timeouts(steps[d + 1..i + 1]) + 1
    ensures Timeouts(steps[d + 1..i + 1]) >= RETRYNUM ==>
      steps[i].Timeout? && Timeouts(steps[d + 1..i + 1]) == RETRYNUM == Transmits(steps[d + 1..i + 1]) && run[i + 1].gaveUp
  {
    d := TakenBefore(run, steps, i);
    Counting(run, steps, d, i);
    CountOneMore(steps, d, i);
    assert run[i + 1] == Apply(run[i], steps[i]);
    OneMoreStep(steps, d, i);
  }

  lemma OneMoreStep(steps: seq<Step>, d: nat, i: nat)
    requires LastDequeue(steps, d, i) && i < |steps| && !steps[i].Dequeue?
    ensures LastDequeue(steps, d, i + 1)
  {
    var s, s' := steps[d + 1..i], steps[d + 1..i + 1];
    assert forall j :: 0 <= j < |s| ==> s'[j] == s[j];
    assert s'[|s'| - 1] == steps[i];
  }

  /** Before that every timeout is followed by another attempt with the same packet, and every
      transmission puts it on the network. */
  lemma TriesAgain(run: seq<Link>, steps: seq<Step>, d: nat, i: nat)
    requires IsRun(run, steps) && LastDequeue(steps, d, i) && i < |steps|
    ensures steps[i].Timeout? && Timeouts(steps[d + 1..i + 1]) < RETRYNUM ==>
      && run[i + 1].sender == Trying(MessageAt(run, steps, d), Timeouts(steps[d + 1..i + 1]), false)
      && Enabled(run[i + 1], Transmit) && run[i + 1].gaveUp == run[i].gaveUp
    ensures steps[i].Transmit? ==> run[i + 1].packets == run[i].packets + {MessageAt(run, steps, d)}
  {
    Counting(run, steps, d, i);
    CountOneMore(steps, d, i);
    assert run[i + 1] == Apply(run[i], steps[i]);
  }

  /** If a run has given up, it has transmitted some message RETRYNUM times, timed out as often, and
      taken no acknowledgement for it. */
  lemma {:induction false} GivesUpOnlyAfterRetries(run: seq<Link>, steps: seq<Step>, i: nat) returns (d: nat, e: nat)
    requires IsRun(run, steps) && i < |run| && run[i].gaveUp
    ensures e <= i && LastDequeue(steps, d, e)
    ensures Transmits(steps[d + 1..e]) == RETRYNUM == Timeouts(steps[d + 1..e])
    ensures forall j :: d < j < e ==> run[j].sender.Trying?
    decreases i
  {
    assert i > 0;
    assert run[i] == Apply(run[i - 1], steps[i - 1]);
    if run[i - 1].gaveUp {
      d, e := GivesUpOnlyAfterRetries(run, steps, i - 1);
    } else {
      d := LeavesSender(run, steps, i - 1);
      e := i;
      CountOneMore(steps, d, i - 1);
      StaysTrying(run, steps, d, i - 1);
    }
  }

  /** One step more. */
  lemma Longer(run: seq<Link>, steps: seq<Step>, st: Step) returns (run': seq<Link>, steps': seq<Step>)
    requires IsRun(run, steps) && AllYoung(run, steps) && Enabled(run[|run| - 1], st) && Young(run[|run| - 1], st)
    ensures run' == run + [Apply(run[|run| - 1], st)] && steps' == steps + [st]
    ensures IsRun(run', steps') && AllYoung(run', steps') && Inv(run'[|run'| - 1])
  {
    run', steps' := run + [Apply(run[|run| - 1], st)], steps + [st];
    RunInv(run', steps', |run'| - 1);
  }

  /** The sender's packet is on the network and it waits, after one more transmission if need be. */
  lemma Resent(run: seq<Link>, steps: seq<Step>) returns (run': seq<Link>, steps': seq<Step>)
    requires IsRun(run, steps) && AllYoung(run, steps) && run[|run| - 1].sender.Trying?
    ensures IsRun(run', steps') && AllYoung(run', steps') && run <= run' && Inv(run'[|run'| - 1])
    ensures steps' == steps + if run[|run| - 1].sender.waiting then [] else [Transmit]
    ensures var l, r := run[|run| - 1], run'[|run'| - 1];
      r == l.(packets := l.packets + {l.sender.msg}, sender := l.sender.(waiting := true))
  {
    var n := |run| - 1;
    if run[n].sender.waiting {
      var d := TakenBefore(run, steps, n);
      Counting(run, steps, d, n);
      RunInv(run, steps, n);
      run', steps' := run, steps;
      assert run[n].packets == run[n].packets + {run[n].sender.msg};
    } else {
      run', steps' := Longer(run, steps, Transmit);
    }
  }

  /** The listener's hands are free. */
  lemma HandsFree(run: seq<Link>, steps: seq<Step>) returns (run': seq<Link>, steps': seq<Step>)
    requires IsRun(run, steps) && AllYoung(run, steps) && Inv(run[|run| - 1])
    ensures IsRun(run', steps') && AllYoung(run', steps') && run <= run' && Inv(run'[|run'| - 1])
    ensures steps' == steps + if run[|run| - 1].listener.Free? then [] else [Accept]
    ensures var l, r := run[|run| - 1], run'[|run'| - 1];
      r == l.(listener := Free, rcvSeq := r.rcvSeq, delivered := r.delivered)
  {
    run', steps' := run, steps;
    if !run[|run| - 1].listener.Free? {
      run', steps' := Longer(run, steps, Accept);
    }
  }

  /** The packet is handed over, and its acknowledgement comes back. */
  lemma HandedOver(run: seq<Link>, steps: seq<Step>) returns (run': seq<Link>, steps': seq<Step>)
    requires IsRun(run, steps) && AllYoung(run, steps) && Inv(run[|run| - 1])
    requires var l := run[|run| - 1];
      !l.gaveUp && l.sender.Trying? && l.sender.waiting && l.sender.msg in l.packets && l.listener.Free?
    ensures IsRun(run', steps') && AllYoung(run', steps') && run <= run'
    ensures var l, r := run[|run| - 1], run'[|run'| - 1]; var p := l.sender.msg;
      && steps' == steps + [Answer(p), Accept, TakeAck(Ack((p.seqno + 1) % M, p.n))]
      && r.sender.Idle? && !r.gaveUp && r.sent == l.sent == r.delivered
  {
    var l := run[|run| - 1];
    var p := l.sender.msg;
    var run1, steps1 := Longer(run, steps, Answer(p));
    ExpectedIsNext(run1[|run1| - 1]);
    var run2, steps2 := Longer(run1, steps1, Accept);
    run', steps' := Longer(run2, steps2, TakeAck(Ack((p.seqno + 1) % M, p.n)));
    assert run2[|run2| - 1].delivered == l.sent;
  }

  /** What a link that has not given up may do to get its message through. */
  function GetThrough(l: Link): seq<Step>
    requires l.sender.Trying?
  {
    var p := l.sender.msg;
    (if l.sender.waiting then [] else [Transmit]) + (if l.listener.Free? then [] else [Accept])
      + [Answer(p), Accept, TakeAck(Ack((p.seqno + 1) % M, p.n))]
  }

  /** Whatever has been lost so far: as long as the message is not given up it can still be delivered, by one
      more transmission if the last one has timed out, and its acknowledgement taken. */
  lemma StillDelivers(run: seq<Link>, steps: seq<Step>) returns (run': seq<Link>, steps': seq<Step>)
    requires IsRun(run, steps) && AllYoung(run, steps)
    requires run[|run| - 1].sender.Trying? && !run[|run| - 1].gaveUp
    ensures IsRun(run', steps') && AllYoung(run', steps') && run <= run'
    ensures steps' == steps + GetThrough(run[|run| - 1])
    ensures var l, r := run[|run| - 1], run'[|run'| - 1];
      r.sender.Idle? && !r.gaveUp && r.sent == l.sent && r.delivered == l.sent
  {
    var run1, steps1 := Resent(run, steps);
    var run2, steps2 := HandsFree(run1, steps1);
    run', steps' := HandedOver(run2, steps2);
  }

  // ---------------------------------------------------------------- fewer than 2^32 messages

  lemma {:induction false} SentMonotone(run: seq<Link>, steps: seq<Step>, i: nat, j: nat)
    requires IsRun(run, steps) && i <= j < |run|
    ensures run[i].sent <= run[j].sent
  {
    if i < j {
      SentMonotone(run, steps, i, j - 1);
    }
  }

  lemma {:induction false} FewAreYoung(run: seq<Link>, steps: seq<Step>, i: nat)
    requires IsRun(run, steps) && i < |run| && |run[|run| - 1].sent| < M
    ensures Inv(run[i]) && forall j :: 0 <= j < i ==> Young(run[j], steps[j])
  {
    if i > 0 {
      FewAreYoung(run, steps, i - 1);
      SentMonotone(run, steps, i - 1, |run| - 1);
      if steps[i - 1].Answer? {
        assert PacketOk(run[i - 1], steps[i - 1].p);
      }
      StepInv(run[i - 1], steps[i - 1]);
    }
  }

  /** On a link that carries fewer than 2^32 messages every run is one of those above. */
  lemma FewMessages(run: seq<Link>, steps: seq<Step>, i: nat)
    requires IsRun(run, steps) && |run[|run| - 1].sent| < M && i < |run|
    ensures AllYoung(run, steps) && run[i].delivered <= run[i].sent
  {
    FewAreYoung(run, steps, |run| - 1);
    PrefixDelivery(run, steps, i);
  }

  // ---------------------------------------------------------------- and no more

  ghost predicate Reached(l: Link) {
    exists run, steps :: IsRun(run, steps) && run[|run| - 1] == l
  }

  lemma ReachedInit()
    ensures Reached(Init())
  {
    var run, steps: seq<Step> := [Init()], [];
    assert IsRun(run, steps) && run[|run| - 1] == Init();
  }

  lemma ReachedStep(l: Link, st: Step)
    requires Reached(l) && Enabled(l, st)
    ensures Reached(Apply(l, st))
  {
    var run, steps :| IsRun(run, steps) && run[|run| - 1] == l;
    var run', steps' := run + [Apply(l, st)], steps + [st];
    assert IsRun(run', steps') && run'[|run'| - 1] == Apply(l, st);
  }

  /** n messages, each delivered and acknowledged at the first attempt. */
  ghost predicate Smooth(l: Link, n: nat) {
    && Reached(l) && l.sender.Idle? && l.listener.Free? && l.sndSeq == l.rcvSeq == n % M
    && l.sent == l.delivered && |l.sent| == n
    && (n > 0 ==> Packet(0, [], 0) in l.packets)
  }

  /** One more message is on its way. */
  lemma SmoothSend(l: Link, n: nat) returns (r: Link)
    requires Smooth(l, n)
    ensures Reached(r)
    ensures var p := Packet(n % M, [], n);
      r == l.(sender := Trying(p, 0, true), sent := l.sent + [[]], packets := l.packets + {p})
  {
    ReachedStep(l, Dequeue([]));
    r := Apply(l, Dequeue([]));
    ReachedStep(r, Transmit);
    r := Apply(r, Transmit);
  }

  /** A packet that is expected is acknowledged and delivered. */
  lemma Taken(l: Link, p: Packet) returns (r: Link)
    requires Reached(l) && l.listener.Free? && p in l.packets && p.seqno == l.rcvSeq
    ensures Reached(r)
    ensures r == l.(rcvSeq := (l.rcvSeq + 1) % M, delivered := l.delivered + [p.body],
                    acks := l.acks + {Ack((p.seqno + 1) % M, p.n)})
  {
    ReachedStep(l, Answer(p));
    r := Apply(l, Answer(p));
    ReachedStep(r, Accept);
    r := Apply(r, Accept);
  }

  lemma SmoothStep(l: Link, n: nat) returns (r: Link)
    requires Smooth(l, n)
    ensures Smooth(r, n + 1)
  {
    r := SmoothSend(l, n);
    r := Taken(r, r.sender.msg);
    var a := Ack((n % M + 1) % M, n);
    ReachedStep(r, TakeAck(a));
    r := Apply(r, TakeAck(a));
    NextSeqno(n);
  }

  lemma {:induction false} SmoothRun(n: nat) returns (l: Link)
    ensures Smooth(l, n)
    decreases n
  {
    if n == 0 {
      ReachedInit();
      l := Init();
    } else {
      l := SmoothRun(n - 1);
      l := SmoothStep(l, n - 1);
    }
  }

  /** With the 2^32nd message the numbers come round: a late copy of the first packet is accepted,
      and what has been delivered is no prefix of what was sent. */
  lemma WrapBreaksDelivery()
    ensures exists l :: Reached(l) && |l.sent| == M && !(l.delivered <= l.sent)
  {
    var l := SmoothRun(M);
    var p := Packet(0, [], 0);
    var r := Taken(l, p);
    assert Reached(r) && |r.sent| == M && |r.delivered| == M + 1;
  }

  // ---------------------------------------------------------------- acknowledged, not delivered

  /** The first message is acknowledged, the sender takes the acknowledgement and goes on, and the
      listener still waits to enqueue it. */
  lemma AckBeforeDelivery()
    ensures exists l, a ::
      && Reached(l) && !l.gaveUp && |l.sent| == 1 && l.delivered == [] && Expected(l)
      && Enabled(l, TakeAck(a)) && Young(l, TakeAck(a)) && Apply(l, TakeAck(a)).sender.Idle?
  {
    ReachedInit();
    var l := Init();
    ReachedStep(l, Dequeue([]));
    l := Apply(l, Dequeue([]));
    ReachedStep(l, Transmit);
    l := Apply(l, Transmit);
    var p, a := Packet(0, [], 0), Ack(1, 0);
    ReachedStep(l, Answer(p));
    l := Apply(l, Answer(p));
    assert Enabled(l, TakeAck(a)) && Young(l, TakeAck(a));
  }

  // ---------------------------------------------------------------- giving up

  lemma {:induction false} AllLost(l: Link, k: nat) returns (r: Link)
    requires Reached(l) && l.sender.Trying? && !l.sender.waiting && l.sender.retries + k == RETRYNUM && k > 0
    ensures Reached(r) && r == Finish(l).(gaveUp := true, packets := l.packets + {l.sender.msg})
    decreases k
  {
    ReachedStep(l, Transmit);
    var l1 := Apply(l, Transmit);
    ReachedStep(l1, Timeout);
    r := Apply(l1, Timeout);
    if k > 1 {
      r := AllLost(r, k - 1);
    }
  }

  /** Once a message is given up, an accepted acknowledgement no longer means delivery: the receiver
      acknowledges the next message and drops it. */
  lemma GiveUpBreaksAck()
    ensures exists l, a ::
      && Reached(l) && l.gaveUp && |l.sent| == 2 && l.delivered == []
      && Enabled(l, TakeAck(a)) && Apply(l, TakeAck(a)).sender.Idle?
  {
    ReachedInit();
    var l := Init();
    ReachedStep(l, Dequeue([]));
    l := Apply(l, Dequeue([]));
    l := AllLost(l, RETRYNUM);
    ReachedStep(l, Dequeue([]));
    l := Apply(l, Dequeue([]));
    ReachedStep(l, Transmit);
    l := Apply(l, Transmit);
    var p, a := Packet(1, [], 1), Ack(2, 1);
    ReachedStep(l, Answer(p));
    l := Apply(l, Answer(p));
    ReachedStep(l, Accept);
    l := Apply(l, Accept);
    assert Enabled(l, TakeAck(a));
  }
}
