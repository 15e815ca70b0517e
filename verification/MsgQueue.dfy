/** The bounded message queue: a ring of slots, two counting semaphores, a lock at the tail, any
    number of threads that enqueue and one that dequeues and handles.  Each method is one atomic
    step of one thread; every interleaving of the threads is a sequence of such steps. */
module MsgQueue {
  import opened RingMask

  type Msg = seq<nat>

  /** Where a thread is inside enqueue. */
  datatype Producer =
    | Out
    | Admitted(msg: Msg)               // past sem_wait(free_count)
    | Holding(msg: Msg, slot: nat)     // has the tail lock and a slot, nothing copied yet
    | Written                          // message copied, lock released, not yet posted

  datatype TailLock = Unlocked | LockedBy(i: nat)

  /** Where the consumer is in its dequeue-handle-post loop. */
  datatype Consumer = Waiting | Entitled | Handling(slot: nat)

  function Admittees(ps: seq<Producer>): (n: nat) {
    if ps == [] then 0 else Admittees(ps[1..]) + if ps[0].Admitted? then 1 else 0
  }

  /** Producers that have a slot and have not posted it. */
  function Unposted(ps: seq<Producer>): (n: nat) {
    if ps == [] then 0 else Unposted(ps[1..]) + if ps[0].Holding? || ps[0].Written? then 1 else 0
  }

  lemma {:induction false} Moved(ps: seq<Producer>, i: nat, p: Producer)
    requires i < |ps|
    ensures Admittees(ps[i := p]) ==
      Admittees(ps) - (if ps[i].Admitted? then 1 else 0) + (if p.Admitted? then 1 else 0)
    ensures Unposted(ps[i := p]) ==
      Unposted(ps) - (if ps[i].Holding? || ps[i].Written? then 1 else 0) + (if p.Holding? || p.Written? then 1 else 0)
    ensures ps[i].Holding? || ps[i].Written? ==> Unposted(ps) >= 1
  {
    if i == 0 {
      assert ps[0 := p][1..] == ps[1..];
    } else {
      Moved(ps[1..], i - 1, p);
      assert ps[i := p][1..] == ps[1..][i - 1 := p];
    }
  }

  /** The message of a thread that has passed the free semaphore and not taken its slot. */
  function Carried(p: Producer): (m: multiset<Msg>) { if p.Admitted? then multiset{p.msg} else multiset{} }

  /** The messages given to enqueue that have no place in the order yet. */
  function Pending(ps: seq<Producer>): (m: multiset<Msg>) {
    if ps == [] then multiset{} else Carried(ps[0]) + Pending(ps[1..])
  }

  lemma AddLeft<T>(c: multiset<T>, a: multiset<T>, x: multiset<T>, b: multiset<T>, y: multiset<T>)
    requires a + x == b + y
    ensures (c + a) + x == (c + b) + y
  {
    assert (c + a) + x == c + (a + x) && (c + b) + y == c + (b + y);
  }

  lemma Swap<T>(a: multiset<T>, b: multiset<T>, c: multiset<T>)
    ensures (a + b) + c == (c + b) + a
  {
  }

  lemma {:induction false} PendingMoved(ps: seq<Producer>, i: nat, p: Producer)
    requires i < |ps|
    ensures Pending(ps[i := p]) + Carried(ps[i]) == Pending(ps) + Carried(p)
  {
    if i == 0 {
      assert ps[0 := p][1..] == ps[1..];
      Swap(Carried(p), Pending(ps[1..]), Carried(ps[0]));
    } else {
      var rest := ps[1..];
      PendingMoved(rest, i - 1, p);
      assert ps[i := p][1..] == rest[i - 1 := p];
      AddLeft(Carried(ps[0]), Pending(rest[i - 1 := p]), Carried(ps[i]), Pending(rest), Carried(p));
    }
  }

  /** The messages given to enqueue so far. */
  function Messages(order: seq<Msg>, ps: seq<Producer>): (m: multiset<Msg>) { multiset(order) + Pending(ps) }

  /** A thread that goes from p to p' adds y to the messages given and x to the order. */
  lemma MessagesMoved(order: seq<Msg>, x: seq<Msg>, ps: seq<Producer>, i: nat, p: Producer, y: multiset<Msg>)
    requires i < |ps| && Carried(ps[i]) + y == multiset(x) + Carried(p)
    ensures Messages(order + x, ps[i := p]) == Messages(order, ps) + y
  {
    PendingMoved(ps, i, p);
    Balance(multiset(order), multiset(x), Pending(ps[i := p]), Pending(ps), Carried(ps[i]), Carried(p), y);
    assert multiset(order + x) == multiset(order) + multiset(x);
  }

  lemma Balance<T>(o: multiset<T>, x: multiset<T>, a: multiset<T>, b: multiset<T>, c: multiset<T>, d: multiset<T>,
    y: multiset<T>)
    requires a + c == b + d && c + y == x + d
    ensures (o + x) + a == (o + b) + y
  {
    forall e: T ensures ((o + x) + a)[e] == ((o + b) + y)[e] {
      assert (a + c)[e] == (b + d)[e] && (c + y)[e] == (x + d)[e];
    }
  }

  /** The slot of the n-th message. */
  function Slot(n: nat, size: nat): (k: nat)
    requires size > 0
    ensures k < size
  {
    if n < size then n else Slot(n - size, size)
  }

  lemma {:induction false} NextSlot(n: nat, size: nat)
    requires size > 0
    ensures Slot(n + 1, size) == if Slot(n, size) + 1 == size then 0 else Slot(n, size) + 1
    decreases n
  {
    if n >= size {
      NextSlot(n - size, size);
    }
  }

  lemma {:induction false} DistinctSlots(a: nat, b: nat, size: nat)
    requires size > 0 && a < b < a + size
    ensures Slot(a, size) != Slot(b, size)
    decreases a
  {
    if a >= size {
      DistinctSlots(a - size, b - size, size);
    }
  }

  /** The masked index is the slot of the next message. */
  lemma NextIndex(n: nat, size: nat)
    requires size > 0 && IsPow2(size)
    ensures Next(Slot(n, size), size) == Slot(n + 1, size)
  {
    NextWraps(Slot(n, size), size);
    NextSlot(n, size);
  }

  /** The queue at one moment. */
  datatype Shot = Shot(head: nat, tail: nat, freeCount: nat, busyCount: nat, tailLock: TailLock, slots: seq<Msg>,
    producers: seq<Producer>, consumer: Consumer, order: seq<Msg>, handled: seq<Msg>)

  class Queue {
    const size: nat
    const slots: array<Msg>
    var head: nat
    var tail: nat
    var freeCount: nat
    var busyCount: nat
    var tailLock: TailLock
    var producers: seq<Producer>
    var consumer: Consumer
    ghost var order: seq<Msg>          // messages in order of slot acquisition
    ghost var handled: seq<Msg>        // what the consumer found in its slot, when it was done with it

    ghost function Now(): Shot
      reads this, slots
    {
      Shot(head, tail, freeCount, busyCount, tailLock, slots[..], producers, consumer, order, handled)
    }

    /** Messages taken out of the ring, including one that is being handled. */
    ghost function Dequeued(): nat
      reads this
    {
      |handled| + if consumer.Handling? then 1 else 0
    }

    /** Messages whose slot has been filled. */
    ghost function Filled(): int
      reads this
    {
      |order| - if tailLock == Unlocked then 0 else 1
    }

    ghost predicate Counts()
      reads this
    {
      && freeCount + Admittees(producers) + |order| - |handled| == size
      && busyCount + (if consumer.Entitled? then 1 else 0) + Dequeued() + Unposted(producers) == |order|
    }

    ghost predicate Indexes()
      reads this
    {
      && size > 0 && tail == Slot(|order|, size) && head == Slot(Dequeued(), size)
      && (consumer.Handling? ==> consumer.slot == Slot(|handled|, size))
    }

    /** The tail lock is held by the one thread that has a slot to fill, the last one taken. */
    ghost predicate OneHolder()
      reads this
    {
      && size > 0 && (tailLock.LockedBy? ==> tailLock.i < |producers| && |order| > 0)
      && (forall i :: 0 <= i < |producers| ==> (producers[i].Holding? <==> tailLock == LockedBy(i)))
      && (forall i :: 0 <= i < |producers| && producers[i].Holding? ==>
        |order| > 0 && producers[i].msg == order[|order| - 1] && producers[i].slot == Slot(|order| - 1, size))
    }

    ghost predicate Valid()
      reads this, slots
    {
      && size > 0 && IsPow2(size) && slots.Length == size
      && Counts() && Indexes() && OneHolder() && handled <= order
      && (forall n :: |handled| <= n < Filled() ==> slots[Slot(n, size)] == order[n])
    }

    /** init_msg_queue, for any number of threads that will enqueue. */
    constructor (size: nat, threads: nat)
      requires IsPow2(size)
      ensures Valid() && this.size == size && order == [] && handled == [] && fresh(slots)
      ensures producers == seq(threads, _ => Out) && consumer == Waiting
    {
      this.size := size;
      slots := new Msg[size](_ => []);
      head, tail, freeCount, busyCount := 0, 0, size, 0;
      producers, consumer, tailLock := seq(threads, _ => Out), Waiting, Unlocked;
      order, handled := [], [];
      new;
      AllOut(producers);
    }

    /** enqueue: sem_wait(free_count). */
    method WaitFree(i: nat, msg: Msg)
      requires Valid() && i < |producers| && producers[i].Out? && freeCount > 0
      modifies this`producers, this`freeCount
      ensures Valid() && old(freeCount) > 0
      ensures Now() == old(Now()).(producers := old(producers)[i := Admitted(msg)], freeCount := old(freeCount) - 1)
    {
      Moved(producers, i, Admitted(msg));
      freeCount := freeCount - 1;
      producers := producers[i := Admitted(msg)];
    }

    /** enqueue: lock the tail, take its slot, advance it. */
    method TakeSlot(i: nat)
      requires Valid() && i < |producers| && producers[i].Admitted? && tailLock == Unlocked
      modifies this`producers, this`tail, this`order, this`tailLock
      ensures Valid()
      ensures Now() == old(Now()).(order := old(order) + [old(producers[i]).msg], tail := Next(old(tail), size),
        producers := old(producers)[i := Holding(old(producers[i]).msg, old(tail))], tailLock := LockedBy(i))
    {
      var p := Holding(producers[i].msg, tail);
      Moved(producers, i, p);
      NextIndex(|order|, size);
      tail := Next(tail, size);
      order := order + [producers[i].msg];
      producers, tailLock := producers[i := p], LockedBy(i);
    }

    /** enqueue: copy the message into the slot and unlock the tail. */
    method WriteSlot(i: nat)
      requires Valid() && i < |producers| && producers[i].Holding?
      modifies this`producers, this`tailLock, slots
      ensures Valid() && old(producers[i]).slot < size
      ensures Now() == old(Now()).(producers := old(producers)[i := Written], tailLock := Unlocked,
        slots := old(slots[..])[old(producers[i]).slot := old(producers[i]).msg])
      ensures consumer.Handling? ==> slots[consumer.slot] == old(slots[consumer.slot])
    {
      Moved(producers, i, Written);
      ghost var last := |order| - 1;
      forall n | |handled| <= n < last ensures Slot(n, size) != Slot(last, size) {
        DistinctSlots(n, last, size);
      }
      slots[producers[i].slot] := producers[i].msg;
      producers, tailLock := producers[i := Written], Unlocked;
    }

    /** enqueue: sem_post(busy_count). */
    method PostBusy(i: nat)
      requires Valid() && i < |producers| && producers[i].Written?
      modifies this`producers, this`busyCount
      ensures Valid() && Now() == old(Now()).(producers := old(producers)[i := Out], busyCount := old(busyCount) + 1)
    {
      Moved(producers, i, Out);
      busyCount := busyCount + 1;
      producers := producers[i := Out];
    }

    /** The consumer's sem_wait(busy_count). */
    method WaitBusy()
      requires Valid() && consumer.Waiting? && busyCount > 0
      modifies this`consumer, this`busyCount
      ensures Valid() && old(busyCount) > 0
      ensures Now() == old(Now()).(consumer := Entitled, busyCount := old(busyCount) - 1)
    {
      busyCount := busyCount - 1;
      consumer := Entitled;
    }

    /** dequeue: the slot it returns is filled with the oldest message not handled yet. */
    method Dequeue()
      requires Valid() && consumer.Entitled?
      modifies this`consumer, this`head
      ensures Valid() && Now() == old(Now()).(consumer := Handling(old(head)), head := Next(old(head), size))
      ensures |handled| < |order| && slots[consumer.slot] == order[|handled|]
    {
      NextIndex(|handled|, size);
      HolderUnposted();
      consumer := Handling(head);
      head := Next(head, size);
    }

    lemma HolderUnposted()
      requires Valid()
      ensures tailLock.LockedBy? ==> Unposted(producers) >= 1
    {
      if tailLock.LockedBy? {
        Moved(producers, tailLock.i, Out);
      }
    }

    /** The consumer is done with the message, and sem_post(free_count). */
    method PostFree()
      requires Valid() && consumer.Handling?
      modifies this`consumer, this`freeCount, this`handled
      ensures Valid() && old(consumer).slot < size
      ensures Now() == old(Now()).(consumer := Waiting, freeCount := old(freeCount) + 1,
        handled := old(handled) + [old(slots[..])[old(consumer).slot]])
      ensures |old(handled)| < |order| && handled == old(handled) + [order[|old(handled)|]]
    {
      HolderUnposted();
      handled := handled + [slots[consumer.slot]];
      consumer, freeCount := Waiting, freeCount + 1;
    }
  }

  /** One step of one thread: of enqueuer i, or of the consumer. */
  datatype Action =
    | DoWaitFree(i: nat, msg: Msg) | DoTakeSlot(i: nat) | DoWriteSlot(i: nat) | DoPostBusy(i: nat)
    | DoWaitBusy | DoDequeue | DoPostFree

  predicate CanDo(q: Queue, a: Action)
    reads q
  {
    match a
    case DoWaitFree(i, _) => i < |q.producers| && q.producers[i].Out? && q.freeCount > 0
    case DoTakeSlot(i) => i < |q.producers| && q.producers[i].Admitted? && q.tailLock == Unlocked
    case DoWriteSlot(i) => i < |q.producers| && q.producers[i].Holding?
    case DoPostBusy(i) => i < |q.producers| && q.producers[i].Written?
    case DoWaitBusy => q.consumer.Waiting? && q.busyCount > 0
    case DoDequeue => q.consumer.Entitled?
    case DoPostFree => q.consumer.Handling?
  }

  /** The same, of a moment. */
  predicate Able(s: Shot, a: Action) {
    match a
    case DoWaitFree(i, _) => i < |s.producers| && s.producers[i].Out? && s.freeCount > 0
    case DoTakeSlot(i) => i < |s.producers| && s.producers[i].Admitted? && s.tailLock == Unlocked
    case DoWriteSlot(i) => i < |s.producers| && s.producers[i].Holding?
    case DoPostBusy(i) => i < |s.producers| && s.producers[i].Written?
    case DoWaitBusy => s.consumer.Waiting? && s.busyCount > 0
    case DoDequeue => s.consumer.Entitled?
    case DoPostFree => s.consumer.Handling?
  }

  predicate Enqueues(a: Action) { !a.DoWaitBusy? && !a.DoDequeue? && !a.DoPostFree? }

  /** Where a step of enqueue takes the thread. */
  function Then(a: Action, p: Producer, tail: nat): Producer
    requires Enqueues(a) && (a.DoTakeSlot? ==> p.Admitted?)
  {
    match a
    case DoWaitFree(_, msg) => Admitted(msg)
    case DoTakeSlot(_) => Holding(p.msg, tail)
    case DoWriteSlot(_) => Written
    case DoPostBusy(_) => Out
  }

  /** What each step does to the queue, and nothing else. */
  predicate Stepped(a: Action, size: nat, s: Shot, s': Shot) {
    match a
    case DoWaitFree(i, msg) =>
      i < |s.producers| && s.producers[i].Out? && s.freeCount > 0 && s' == s.(producers := s.producers[i := Admitted(msg)], freeCount := s.freeCount - 1)
    case DoTakeSlot(i) =>
      && i < |s.producers| && s.producers[i].Admitted? && s.tail < size
      && s' == s.(order := s.order + [s.producers[i].msg], tail := Next(s.tail, size),
                  producers := s.producers[i := Holding(s.producers[i].msg, s.tail)], tailLock := LockedBy(i))
    case DoWriteSlot(i) =>
      && i < |s.producers| && s.producers[i].Holding? && s.producers[i].slot < |s.slots|
      && s' == s.(producers := s.producers[i := Written], tailLock := Unlocked,
                  slots := s.slots[s.producers[i].slot := s.producers[i].msg])
    case DoPostBusy(i) =>
      i < |s.producers| && s.producers[i].Written? && s' == s.(producers := s.producers[i := Out], busyCount := s.busyCount + 1)
    case DoWaitBusy => s.busyCount > 0 && s' == s.(consumer := Entitled, busyCount := s.busyCount - 1)
    case DoDequeue => s.head < size && s' == s.(consumer := Handling(s.head), head := Next(s.head, size))
    case DoPostFree =>
      && s.consumer.Handling? && s.consumer.slot < |s.slots|
      && s' == s.(consumer := Waiting, freeCount := s.freeCount + 1, handled := s.handled + [s.slots[s.consumer.slot]])
  }

  /** A step of an enqueuer leaves the message that is being handled alone. */
  method DoEnqueue(q: Queue, a: Action)
    requires q.Valid() && CanDo(q, a) && Enqueues(a)
    modifies q, q.slots
    ensures q.Valid() && Stepped(a, q.size, old(q.Now()), q.Now())
    ensures q.consumer.Handling? ==> q.slots[q.consumer.slot] == old(q.slots[q.consumer.slot])
  {
    match a
    case DoWaitFree(i, msg) => q.WaitFree(i, msg);
    case DoTakeSlot(i) => q.TakeSlot(i);
    case DoWriteSlot(i) => q.WriteSlot(i);
    case DoPostBusy(i) => q.PostBusy(i);
  }

  function Gives(a: Action): (given: seq<Msg>) { if a.DoWaitFree? then [a.msg] else [] }

  lemma StepCounts(order: seq<Msg>, ps: seq<Producer>, a: Action, tail: nat)
    requires Enqueues(a) && a.i < |ps|
    requires match a
      case DoWaitFree(i, _) => ps[i].Out?
      case DoTakeSlot(i) => ps[i].Admitted?
      case DoWriteSlot(i) => ps[i].Holding?
      case DoPostBusy(i) => ps[i].Written?
    ensures Messages(order + (if a.DoTakeSlot? then [ps[a.i].msg] else []), ps[a.i := Then(a, ps[a.i], tail)])
      == Messages(order, ps) + multiset(Gives(a))
  {
    MessagesMoved(order, if a.DoTakeSlot? then [ps[a.i].msg] else [], ps, a.i, Then(a, ps[a.i], tail), multiset(Gives(a)));
  }

  /** A step loses no message and gives none twice. */
  lemma StepAccount(a: Action, size: nat, s: Shot, s': Shot)
    requires Stepped(a, size, s, s')
    ensures s.order <= s'.order && s.handled <= s'.handled
    ensures Messages(s'.order, s'.producers) == Messages(s.order, s.producers) + multiset(Gives(a))
  {
    if Enqueues(a) {
      StepCounts(s.order, s.producers, a, s.tail);
      if !a.DoTakeSlot? { assert s.order + [] == s.order; }
    }
  }

  method DoConsume(q: Queue, a: Action)
    requires q.Valid() && CanDo(q, a) && !Enqueues(a)
    modifies q
    ensures q.Valid() && Stepped(a, q.size, old(q.Now()), q.Now())
  {
    match a
    case DoWaitBusy => q.WaitBusy();
    case DoDequeue => q.Dequeue();
    case DoPostFree => q.PostFree();
  }

  /** Every thread is between two calls and the consumer waits at an empty queue. */
  predicate Quiet(q: Queue)
    reads q
  {
    (forall i :: 0 <= i < |q.producers| ==> q.producers[i].Out?) && q.busyCount == 0 && q.consumer.Waiting?
  }

  lemma QuietIsDone(q: Queue)
    requires q.Valid() && Quiet(q)
    ensures q.handled == q.order && Pending(q.producers) == multiset{}
  {
    AllOut(q.producers);
  }

  /** A thread makes its step, or waits when it cannot. */
  method Turn(q: Queue, a: Action) returns (ghost given: seq<Msg>)
    requires q.Valid()
    modifies q, q.slots
    ensures q.Valid() && old(q.order) <= q.order && old(q.handled) <= q.handled
    ensures Messages(q.order, q.producers) == Messages(old(q.order), old(q.producers)) + multiset(given)
    ensures Moves(q.size, a, old(q.Now()), q.Now()) && given == if Able(old(q.Now()), a) then Gives(a) else []
  {
    given := [];
    ghost var was := q.Now();
    if CanDo(q, a) {
      if Enqueues(a) { DoEnqueue(q, a); } else { DoConsume(q, a); }
      given := Gives(a);
      StepAccount(a, q.size, was, q.Now());
    }
  }

  /** The moments of a schedule: each action that can move does its step, the others wait. */
  ghost predicate Played(q: Queue, schedule: seq<Action>, shots: seq<Shot>) {
    && |shots| == |schedule| + 1
    && forall k :: 0 <= k < |schedule| ==> Moves(q.size, schedule[k], shots[k], shots[k + 1])
  }

  ghost predicate Moves(size: nat, a: Action, s: Shot, s': Shot) {
    if Able(s, a) then Stepped(a, size, s, s') else s' == s
  }

  lemma AddsUp<T>(a: multiset<T>, b: multiset<T>, c: multiset<T>, s: seq<T>, t: seq<T>)
    requires b == a + multiset(s) && c == b + multiset(t)
    ensures c == a + multiset(s + t)
  {
  }

  /** Any interleaving: threads that cannot move yet wait.  The messages given to enqueue during the
      run are ordered once each, they are handled at most once, in that order, and what is not handled
      yet is in the ring; when the queue is quiet everything has been handled. */
  method Run(q: Queue, schedule: seq<Action>) returns (ghost given: seq<Msg>, ghost shots: seq<Shot>)
    requires q.Valid()
    modifies q, q.slots
    ensures q.Valid() && old(q.order) <= q.order && old(q.handled) <= q.handled <= q.order
    ensures |q.order| - |q.handled| <= q.size
    ensures Messages(q.order, q.producers) == Messages(old(q.order), old(q.producers)) + multiset(given)
    ensures Quiet(q) ==> q.handled == q.order && Pending(q.producers) == multiset{}
    ensures Played(q, schedule, shots) && shots[0] == old(q.Now()) && shots[|schedule|] == q.Now()
  {
    ghost var before := Messages(q.order, q.producers);
    given, shots := [], [q.Now()];
    for k := 0 to |schedule|
      invariant q.Valid() && old(q.order) <= q.order && old(q.handled) <= q.handled
      invariant Messages(q.order, q.producers) == before + multiset(given)
      invariant Played(q, schedule[..k], shots) && shots[0] == old(q.Now()) && shots[k] == q.Now()
    {
      ghost var now := Messages(q.order, q.producers);
      ghost var more := Turn(q, schedule[k]);
      AddsUp(before, now, Messages(q.order, q.producers), given, more);
      PlayedOn(q, schedule, k, shots, q.Now());
      given, shots := given + more, shots + [q.Now()];
    }
    assert schedule[..|schedule|] == schedule;
    if Quiet(q) {
      QuietIsDone(q);
    }
  }

  lemma PlayedOn(q: Queue, schedule: seq<Action>, k: nat, shots: seq<Shot>, s: Shot)
    requires k < |schedule| && Played(q, schedule[..k], shots) && Moves(q.size, schedule[k], shots[k], s)
    ensures Played(q, schedule[..k + 1], shots + [s])
  {
  }

  // ---------------------------------------------------------------- everything gets handled

  /** How many steps a thread has left before the consumer can have its message, and three more. */
  function Left(p: Producer): nat {
    match p
    case Out => 0
    case Admitted(_) => 6
    case Holding(_, _) => 5
    case Written => 4
  }

  function LeftOf(ps: seq<Producer>): nat { if ps == [] then 0 else Left(ps[0]) + LeftOf(ps[1..]) }

  lemma {:induction false} LeftMoved(ps: seq<Producer>, i: nat, p: Producer)
    requires i < |ps|
    ensures LeftOf(ps[i := p]) == LeftOf(ps) - Left(ps[i]) + Left(p)
    ensures LeftOf(ps) >= Left(ps[i])
  {
    if i == 0 {
      assert ps[0 := p][1..] == ps[1..];
    } else {
      LeftMoved(ps[1..], i - 1, p);
      assert ps[i := p][1..] == ps[1..][i - 1 := p];
    }
  }

  /** The steps left until the queue is quiet, if nothing more is given to it. */
  function Work(s: Shot): nat {
    LeftOf(s.producers) + 3 * s.busyCount + match s.consumer case Waiting => 0 case Entitled => 2 case Handling(_) => 1
  }

  /** Each step but that of a new message brings the end nearer. */
  lemma StepWorks(a: Action, size: nat, s: Shot, s': Shot)
    requires Able(s, a) && Stepped(a, size, s, s') && !a.DoWaitFree?
    ensures Work(s') == Work(s) - 1
  {
    if Enqueues(a) { LeftMoved(s.producers, a.i, s'.producers[a.i]); }
  }

  /** The first thread from i on that is inside enqueue. */
  method FindBusy(q: Queue) returns (i: nat)
    ensures i <= |q.producers| && (i < |q.producers| ==> !q.producers[i].Out?)
    ensures forall k :: 0 <= k < i ==> q.producers[k].Out?
  {
    i := 0;
    while i < |q.producers| && q.producers[i].Out?
      invariant i <= |q.producers| && forall k :: 0 <= k < i ==> q.producers[k].Out?
    {
      i := i + 1;
    }
  }

  /** A step that can be made while the queue is not quiet. */
  method FindStep(q: Queue) returns (a: Action)
    requires q.Valid() && !Quiet(q)
    ensures Able(q.Now(), a) && CanDo(q, a) && !a.DoWaitFree?
  {
    match q.consumer
    case Entitled => a := DoDequeue;
    case Handling(_) => a := DoPostFree;
    case Waiting =>
      if q.busyCount > 0 {
        a := DoWaitBusy;
      } else if q.tailLock.LockedBy? {
        a := DoWriteSlot(q.tailLock.i);
      } else {
        var i := FindBusy(q);
        a := if q.producers[i].Written? then DoPostBusy(i) else DoTakeSlot(i);
      }
  }

  /** If no thread begins another call and those that can move go on, in whatever state they are, every
      message that was given to enqueue is handled, in order, and each once. */
  method Drain(q: Queue)
    requires q.Valid()
    modifies q, q.slots
    ensures q.Valid() && Quiet(q) && old(q.order) <= q.order == q.handled
    ensures multiset(q.handled) == Messages(old(q.order), old(q.producers))
  {
    ghost var all := Messages(q.order, q.producers);
    while !Quiet(q)
      invariant q.Valid() && old(q.order) <= q.order && Messages(q.order, q.producers) == all
      decreases Work(q.Now())
    {
      var a := FindStep(q);
      ghost var was := q.Now();
      ghost var given := Turn(q, a);
      StepWorks(a, q.size, was, q.Now());
      assert multiset(given) == multiset{};
    }
    QuietIsDone(q);
  }

  /** Whatever the threads have done, one of them can move. */
  lemma NoDeadlock(q: Queue) returns (a: Action)
    requires q.Valid() && |q.producers| > 0
    ensures CanDo(q, a)
  {
    var ps := q.producers;
    if q.consumer.Entitled? {
      a := DoDequeue;
    } else if q.consumer.Handling? {
      a := DoPostFree;
    } else if q.busyCount > 0 {
      a := DoWaitBusy;
    } else if q.tailLock.LockedBy? {
      a := DoWriteSlot(q.tailLock.i);
    } else if i :| 0 <= i < |ps| && !ps[i].Out? {
      a := if ps[i].Written? then DoPostBusy(i) else DoTakeSlot(i);
    } else {
      AllOut(ps);
      a := DoWaitFree(0, []);
    }
  }

  lemma {:induction false} AllOut(ps: seq<Producer>)
    requires forall i :: 0 <= i < |ps| ==> ps[i].Out?
    ensures Admittees(ps) == 0 && Unposted(ps) == 0 && Pending(ps) == multiset{}
  {
    if ps != [] {
      AllOut(ps[1..]);
    }
  }
}
