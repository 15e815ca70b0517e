/** Fragmentation of write notices: a list of any length leaves as a stream of messages, whole nodes
    at a time, and is parsed back.  Reports (WTNT...REL, WTNT...BARR) take three words an entry,
    grants (INVLD...ACQGRANT, INVLD...BARRGRANT) four. */
module NoticeStream {
  import opened Seqs
  import opened Pages
  import opened Notices
  import opened WriteNotices
  import D = PageDiff

  const MAX := D.MAXMSGWORDS
  const B32 := D.B32

  datatype Kind = Report | Barrier | LockGrant(acqscope: int, to: nat)

  /** The words that n entries take. */
  function Room(k: Kind, n: nat): nat { if k.Report? then 3 * n else 4 * n }

  predicate Sendable(e: Entry) { e.addr < B32 * B32 && 0 <= e.mig < B32 && e.from < B32 }

  predicate AllSendable(s: seq<Entry>) { forall i :: 0 <= i < |s| ==> Sendable(s[i]) }

  /** The words of one entry. */
  function Words(k: Kind, e: Entry): (w: seq<Word>)
    requires Sendable(e)
    ensures |w| == Room(k, 1)
  {
    [e.addr % B32, e.addr / B32] + (if k.Report? then [] else [e.from]) + [e.mig]
  }

  predicate Wanted(k: Kind, homeOf: nat -> nat, e: Entry) {
    k.LockGrant? ==> e.scope > k.acqscope && homeOf(Page(e.addr)) != k.to
  }

  /** The entries that are sent. */
  function Select(k: Kind, homeOf: nat -> nat, s: seq<Entry>): (r: seq<Entry>)
    ensures |r| <= |s| && (AllSendable(s) ==> AllSendable(r))
  {
    if s == [] then []
    else Select(k, homeOf, s[..|s| - 1]) + if Wanted(k, homeOf, s[|s| - 1]) then [s[|s| - 1]] else []
  }

  lemma {:induction false} SelectConcat(k: Kind, homeOf: nat -> nat, a: seq<Entry>, b: seq<Entry>)
    ensures Select(k, homeOf, a + b) == Select(k, homeOf, a) + Select(k, homeOf, b)
  {
    if b == [] {
      assert a + b == a;
    } else {
      var n := |b| - 1;
      SelectConcat(k, homeOf, a, b[..n]);
      SelectSnoc(k, homeOf, a + b[..n], b[n]);
      SelectSnoc(k, homeOf, b[..n], b[n]);
      SplitLast(b);
      Assoc(a, b[..n], [b[n]]);
      var last := if Wanted(k, homeOf, b[n]) then [b[n]] else [];
      Assoc(Select(k, homeOf, a), Select(k, homeOf, b[..n]), last);
    }
  }

  lemma SelectSnoc(k: Kind, homeOf: nat -> nat, s: seq<Entry>, e: Entry)
    ensures Select(k, homeOf, s + [e]) == Select(k, homeOf, s) + if Wanted(k, homeOf, e) then [e] else []
  {
    assert (s + [e])[..|s|] == s;
  }

  function Encode(k: Kind, s: seq<Entry>): (w: seq<Word>)
    requires AllSendable(s)
    ensures |w| == Room(k, |s|)
  {
    if s == [] then [] else Encode(k, s[..|s| - 1]) + Words(k, s[|s| - 1])
  }

  lemma {:induction false} EncodeConcat(k: Kind, a: seq<Entry>, b: seq<Entry>)
    requires AllSendable(a) && AllSendable(b)
    ensures AllSendable(a + b) && Encode(k, a + b) == Encode(k, a) + Encode(k, b)
  {
    if b == [] {
      assert a + b == a;
    } else {
      var n := |b| - 1;
      EncodeConcat(k, a, b[..n]);
      EncodeSnoc(k, a + b[..n], b[n]);
      EncodeSnoc(k, b[..n], b[n]);
      SplitLast(b);
      Assoc(a, b[..n], [b[n]]);
      Assoc(Encode(k, a), Encode(k, b[..n]), Words(k, b[n]));
    }
  }

  lemma EncodeSnoc(k: Kind, s: seq<Entry>, e: Entry)
    requires AllSendable(s) && Sendable(e)
    ensures AllSendable(s + [e]) && Encode(k, s + [e]) == Encode(k, s) + Words(k, e)
  {
    assert (s + [e])[..|s|] == s;
  }

  /** What the sender appends for the entries s. */
  function Payload(k: Kind, homeOf: nat -> nat, s: seq<Entry>): (w: seq<Word>)
    requires AllSendable(s)
    ensures |w| <= Room(k, |s|)
  {
    Encode(k, Select(k, homeOf, s))
  }

  lemma PayloadConcat(k: Kind, homeOf: nat -> nat, a: seq<Entry>, b: seq<Entry>)
    requires AllSendable(a) && AllSendable(b)
    ensures AllSendable(a + b) && Payload(k, homeOf, a + b) == Payload(k, homeOf, a) + Payload(k, homeOf, b)
  {
    SelectConcat(k, homeOf, a, b);
    EncodeConcat(k, Select(k, homeOf, a), Select(k, homeOf, b));
  }

  // ---------------------------------------------------------------- the append functions

  /** The inner loops: one node. */
  method AppendNode(kind: Kind, homeOf: nat -> nat, msg: seq<Word>, node: Node, ghost held: seq<Entry>)
    returns (msg': seq<Word>)
    requires HoldsAt(node, held) && AllSendable(held) && |msg| + Room(kind, node.wtntc) < MAX
    ensures msg' == msg + Payload(kind, homeOf, held) && |msg'| < MAX
  {
    msg' := msg;
    for wtnti := 0 to node.wtntc
      invariant msg' == msg + Payload(kind, homeOf, held[..wtnti])
    {
      var e := node.entries[wtnti];
      assert held[wtnti] == e;
      AppendOneTo(kind, homeOf, msg, held, wtnti);
      if Wanted(kind, homeOf, e) {
        msg' := msg' + Words(kind, e);
      }
    }
    TakeAll(held);
  }

  lemma AppendOneTo(kind: Kind, homeOf: nat -> nat, msg: seq<Word>, held: seq<Entry>, i: nat)
    requires i < |held| && AllSendable(held)
    ensures msg + Payload(kind, homeOf, held[..i + 1]) ==
      var so := msg + Payload(kind, homeOf, held[..i]);
      if Wanted(kind, homeOf, held[i]) then so + Words(kind, held[i]) else so
  {
    AppendOne(kind, homeOf, held, i);
    if Wanted(kind, homeOf, held[i]) {
      Assoc(msg, Payload(kind, homeOf, held[..i]), Words(kind, held[i]));
    } else {
      NoTail(Payload(kind, homeOf, held[..i]));
    }
  }

  lemma AppendOne(kind: Kind, homeOf: nat -> nat, held: seq<Entry>, i: nat)
    requires i < |held| && AllSendable(held)
    ensures Payload(kind, homeOf, held[..i + 1]) == Payload(kind, homeOf, held[..i])
      + if Wanted(kind, homeOf, held[i]) then Words(kind, held[i]) else []
  {
    assert held[..i + 1][..i] == held[..i];
    var s := Select(kind, homeOf, held[..i]);
    assert (s + [held[i]])[..|s|] == s && s + [] == s;
  }

  lemma {:induction false} FlatSendable(lists: seq<seq<Entry>>)
    requires forall i :: 0 <= i < |lists| ==> AllSendable(lists[i])
    ensures AllSendable(Flat(lists))
  {
    if lists != [] {
      FlatSendable(lists[1..]);
    }
  }

  predicate ListsSendable(lists: seq<seq<Entry>>) { forall i :: 0 <= i < |lists| ==> AllSendable(lists[i]) }

  /** The payload of nodes k..m. */
  function PayloadOf(kind: Kind, homeOf: nat -> nat, lists: seq<seq<Entry>>, k: nat, m: nat): (w: seq<Word>)
    requires k <= m <= |lists| && ListsSendable(lists)
    ensures k == m ==> w == []
  {
    FlatSendable(lists[k..m]);
    Payload(kind, homeOf, Flat(lists[k..m]))
  }

  lemma AppendStep(kind: Kind, homeOf: nat -> nat, lists: seq<seq<Entry>>, k: nat, m: nat)
    requires k <= m < |lists| && ListsSendable(lists)
    ensures PayloadOf(kind, homeOf, lists, k, m + 1)
      == PayloadOf(kind, homeOf, lists, k, m) + Payload(kind, homeOf, lists[m])
  {
    FlatPrefix(lists[k..], m - k);
    assert lists[k..][..m - k + 1] == lists[k..m + 1] && lists[k..][..m - k] == lists[k..m];
    FlatSendable(lists[k..m]);
    FlatSendable(lists[k..m + 1]);
    PayloadConcat(kind, homeOf, Flat(lists[k..m]), lists[m]);
  }

  lemma AppendMore(kind: Kind, homeOf: nat -> nat, msg: seq<Word>, lists: seq<seq<Entry>>, k: nat, m: nat)
    requires k <= m < |lists| && ListsSendable(lists)
    ensures msg + PayloadOf(kind, homeOf, lists, k, m + 1)
      == (msg + PayloadOf(kind, homeOf, lists, k, m)) + Payload(kind, homeOf, lists[m])
  {
    AppendStep(kind, homeOf, lists, k, m);
    Assoc(msg, PayloadOf(kind, homeOf, lists, k, m), Payload(kind, homeOf, lists[m]));
  }

  /** The message is `msg` and the payload of nodes k..m. */
  ghost predicate Carries(kind: Kind, homeOf: nat -> nat, part: seq<Word>, msg: seq<Word>, lists: seq<seq<Entry>>,
    k: nat, m: nat)
  {
    && k <= m <= |lists| && ListsSendable(lists) && |part| <= MAX
    && part == msg + PayloadOf(kind, homeOf, lists, k, m)
  }

  /** Node m is left for the next message. */
  ghost predicate Full(kind: Kind, part: seq<Word>, lists: seq<seq<Entry>>, m: nat) {
    m < |lists| && |part| + Room(kind, |lists[m]|) >= MAX
  }

  /** One turn of the append loop: the whole node is appended if it fits, which it does when the
      message holds the lock only. */
  method AppendTurn(kind: Kind, homeOf: nat -> nat, part: seq<Word>, node: Node,
    ghost msg: seq<Word>, ghost lists: seq<seq<Entry>>, ghost k: nat, ghost m: nat)
    returns (full: bool, part': seq<Word>)
    requires Carries(kind, homeOf, part, msg, lists, k, m) && m < |lists| && HoldsAt(node, lists[m])
    ensures full ==> part' == part && |part| > 1 && Full(kind, part, lists, m)
    ensures !full ==> Carries(kind, homeOf, part', msg, lists, k, m + 1) && |part'| < MAX
  {
    full, part' := true, part;
    if |part| + Room(kind, node.wtntc) < MAX {
      AppendMore(kind, homeOf, msg, lists, k, m);
      full := false;
      part' := AppendNode(kind, homeOf, part, node, lists[m]);
    }
  }

  /** appendstackwtnts, appendbarrwtnts and appendlockwtnts: as many whole nodes as fit, and no fewer. */
  method AppendWtnts(kind: Kind, homeOf: nat -> nat, msg: seq<Word>, ptr: Node?, ghost v: View, ghost k: nat)
    returns (msg': seq<Word>, wnptr: Node?, ghost k': nat)
    requires Valid(v) && ListsSendable(v.lists) && k <= |v.nodes| && ptr == At(v.nodes, k) && 1 <= |msg| <= MAX
    ensures k <= k' <= |v.nodes| && wnptr == At(v.nodes, k') && |msg'| <= MAX
    ensures msg' == msg + PayloadOf(kind, homeOf, v.lists, k, k')
    ensures |msg| == 1 && k < |v.nodes| ==> k < k'
    ensures k' < |v.nodes| ==> Full(kind, msg', v.lists, k')
    ensures k < k' ==> |msg'| < MAX
  {
    var full := false;
    msg', wnptr, k' := msg, ptr, k;
    while wnptr != null && !full
      invariant k' <= |v.nodes| && wnptr == At(v.nodes, k') && Carries(kind, homeOf, msg', msg, v.lists, k, k')
      invariant full ==> Full(kind, msg', v.lists, k') && (|msg| == 1 ==> k < k')
      invariant k < k' ==> |msg'| < MAX
      decreases |v.nodes| - k', !full
    {
      assert HoldsAt(wnptr, v.lists[k']);
      var more := wnptr.more;
      full, msg' := AppendTurn(kind, homeOf, msg', wnptr, msg, v.lists, k, k');
      if !full {
        wnptr, k' := more, k' + 1;
      }
    }
  }

  // ---------------------------------------------------------------- whole streams

  /** The messages of a stream; the last one is the REL, BARR, ACQGRANT or BARRGRANT. */
  ghost predicate StreamOf(kind: Kind, homeOf: nat -> nat, lock: Word, msgs: seq<seq<Word>>, parts: seq<seq<Entry>>) {
    && |msgs| == |parts| && ListsSendable(parts)
    && (forall i :: 0 <= i < |msgs| ==> msgs[i] == [lock] + Payload(kind, homeOf, parts[i]))
    && (forall i :: 0 <= i < |msgs| ==> |msgs[i]| <= MAX)
  }

  /** How a report is split: every message but the last carries six full nodes, and the last what is left,
      which is more than fits behind six full nodes unless it is the only one. */
  const FULLPART := 6 * MAXWTNTS
  const LASTPART := (MAX - 2) / 3

  predicate Split(parts: seq<seq<Entry>>) {
    var n := |parts| - 1;
    && n >= 0 && (forall i :: 0 <= i < n ==> |parts[i]| == FULLPART)
    && |parts[n]| <= LASTPART && (n > 0 ==> |parts[n]| > LASTPART - FULLPART)
  }

  /** The same of the parts sent, when the message being filled has n entries so far. */
  predicate Splitting(parts: seq<seq<Entry>>, n: nat) {
    (forall i :: 0 <= i < |parts| ==> |parts[i]| == FULLPART) && n <= LASTPART && (|parts| > 0 ==> n > LASTPART - FULLPART)
  }

  lemma {:induction false} FullNodes(lists: seq<seq<Entry>>, k: nat, m: nat)
    requires Packed(lists) && k <= m < |lists|
    ensures |Flat(lists[k..m])| == MAXWTNTS * (m - k)
    decreases m - k
  {
    if k < m {
      FullNodes(lists, k + 1, m);
      assert lists[k..m][1..] == lists[k + 1..m];
    }
  }

  lemma ReportLength(homeOf: nat -> nat, lists: seq<seq<Entry>>, k: nat, m: nat)
    requires k <= m <= |lists| && ListsSendable(lists)
    ensures |PayloadOf(Report, homeOf, lists, k, m)| == 3 * |Flat(lists[k..m])|
  {
    FlatSendable(lists[k..m]);
    AllWanted(Report, homeOf, Flat(lists[k..m]));
  }

  /** What one call of appendstackwtnts puts into a message. */
  lemma PartSize(homeOf: nat -> nat, lock: Word, lists: seq<seq<Entry>>, k: nat, m: nat, msg: seq<Word>)
    requires Packed(lists) && ListsSendable(lists) && k < m <= |lists|
    requires msg == [lock] + PayloadOf(Report, homeOf, lists, k, m) && |msg| < MAX
    requires m < |lists| ==> Full(Report, msg, lists, m)
    ensures |Flat(lists[k..m])| <= LASTPART
    ensures m < |lists| ==> |Flat(lists[k..m])| == FULLPART && |lists[m]| > LASTPART - FULLPART
  {
    ReportLength(homeOf, lists, k, m);
    if m < |lists| { FullNodes(lists, k, m); }
  }

  lemma FirstNode(lists: seq<seq<Entry>>, k: nat, m: nat)
    requires k < m <= |lists|
    ensures |Flat(lists[k..m])| >= |lists[k]|
  {
  }

  /** The messages so far carry nodes 0..from, and msg carries nodes from..k. */
  ghost predicate Sending(kind: Kind, homeOf: nat -> nat, lock: Word, msgs: seq<seq<Word>>, parts: seq<seq<Entry>>,
    msg: seq<Word>, lists: seq<seq<Entry>>, from: nat, k: nat)
  {
    && ListsSendable(lists) && from <= k <= |lists| && |msg| <= MAX
    && msg == [lock] + PayloadOf(kind, homeOf, lists, from, k)
    && StreamOf(kind, homeOf, lock, msgs, parts) && Flat(parts) == Flat(lists[..from])
  }

  /** Nodes 0..from are sent in full messages, nodes from..k are in the one being filled, and it is full
      if there are more. */
  predicate SplitSoFar(parts: seq<seq<Entry>>, lists: seq<seq<Entry>>, from: nat, k: nat) {
    && from <= k <= |lists| && Splitting(parts, |Flat(lists[from..k])|)
    && (k < |lists| ==> |Flat(lists[from..k])| == FULLPART && |lists[k]| > LASTPART - FULLPART)
  }

  lemma SplitMore(parts: seq<seq<Entry>>, lists: seq<seq<Entry>>, from: nat, k: nat, m: nat)
    requires SplitSoFar(parts, lists, from, k) && k < m <= |lists| && |Flat(lists[k..m])| <= LASTPART
    requires m < |lists| ==> |Flat(lists[k..m])| == FULLPART && |lists[m]| > LASTPART - FULLPART
    ensures SplitSoFar(parts + [Flat(lists[from..k])], lists, k, m)
  {
    FirstNode(lists, k, m);
  }

  /** What one message carries: nodes k..m, as many as fit. */
  ghost predicate Filled(kind: Kind, homeOf: nat -> nat, lock: Word, lists: seq<seq<Entry>>, k: nat, m: nat, msg: seq<Word>) {
    && ListsSendable(lists) && k < m <= |lists| && msg == [lock] + PayloadOf(kind, homeOf, lists, k, m) && |msg| < MAX
    && (m < |lists| ==> Full(kind, msg, lists, m))
  }

  method FillMessage(kind: Kind, homeOf: nat -> nat, lock: Word, ptr: Node?, ghost v: View, ghost k: nat)
    returns (msg: seq<Word>, wnptr: Node?, ghost m: nat)
    requires Valid(v) && ListsSendable(v.lists) && k < |v.nodes| && ptr == At(v.nodes, k)
    ensures Filled(kind, homeOf, lock, v.lists, k, m, msg) && wnptr == At(v.nodes, m)
  {
    msg, wnptr, m := AppendWtnts(kind, homeOf, [lock], ptr, v, k);
  }

  /** The stream so far, and how it is split if it is a report. */
  ghost predicate Underway(kind: Kind, homeOf: nat -> nat, lock: Word, msgs: seq<seq<Word>>, parts: seq<seq<Entry>>,
    msg: seq<Word>, lists: seq<seq<Entry>>, from: nat, k: nat)
  {
    Sending(kind, homeOf, lock, msgs, parts, msg, lists, from, k) && (kind.Report? ==> SplitSoFar(parts, lists, from, k))
  }

  lemma FirstMessage(kind: Kind, homeOf: nat -> nat, lock: Word, lists: seq<seq<Entry>>, k: nat, msg: seq<Word>)
    requires Packed(lists) && Filled(kind, homeOf, lock, lists, 0, k, msg)
    ensures Underway(kind, homeOf, lock, [], [], msg, lists, 0, k)
  {
    if kind.Report? { PartSize(homeOf, lock, lists, 0, k, msg); }
  }

  lemma NextMessage(kind: Kind, homeOf: nat -> nat, lock: Word, msgs: seq<seq<Word>>, parts: seq<seq<Entry>>,
    msg: seq<Word>, lists: seq<seq<Entry>>, from: nat, k: nat, msg': seq<Word>, k': nat)
    requires Packed(lists) && Underway(kind, homeOf, lock, msgs, parts, msg, lists, from, k)
    requires Filled(kind, homeOf, lock, lists, k, k', msg')
    ensures Underway(kind, homeOf, lock, msgs + [msg], parts + [Flat(lists[from..k])], msg', lists, k, k')
  {
    StreamPush(kind, homeOf, lock, msgs, parts, msg, lists, from, k);
    if kind.Report? {
      PartSize(homeOf, lock, lists, k, k', msg');
      SplitMore(parts, lists, from, k, k');
    }
  }

  lemma LastMessage(kind: Kind, homeOf: nat -> nat, lock: Word, msgs: seq<seq<Word>>, parts: seq<seq<Entry>>,
    msg: seq<Word>, lists: seq<seq<Entry>>, from: nat, k: nat)
    requires Underway(kind, homeOf, lock, msgs, parts, msg, lists, from, k) && k == |lists|
    ensures StreamOf(kind, homeOf, lock, msgs + [msg], parts + [Flat(lists[from..k])])
    ensures Flat(parts + [Flat(lists[from..k])]) == Flat(lists)
    ensures kind.Report? ==> Split(parts + [Flat(lists[from..k])])
  {
    StreamPush(kind, homeOf, lock, msgs, parts, msg, lists, from, k);
    TakeAll(lists);
  }

  /** sendwtnts, grantbarr and grantlock: the whole list, in order, in messages that fit. */
  method SendWtnts(kind: Kind, homeOf: nat -> nat, lock: Word, ptr: Node, ghost v: View)
    returns (msgs: seq<seq<Word>>, ghost parts: seq<seq<Entry>>)
    requires IsList(ptr, v) && ListsSendable(v.lists)
    ensures msgs != [] && StreamOf(kind, homeOf, lock, msgs, parts) && Flat(parts) == v.Contents()
    ensures kind.Report? ==> Split(parts)
  {
    msgs, parts := [], [];
    ghost var k, from := 0, 0;
    var msg, wnptr;
    msg, wnptr, k := FillMessage(kind, homeOf, lock, ptr, v, 0);
    FirstMessage(kind, homeOf, lock, v.lists, k, msg);
    while wnptr != null
      invariant wnptr == At(v.nodes, k) && Underway(kind, homeOf, lock, msgs, parts, msg, v.lists, from, k)
      decreases |v.nodes| - k
    {
      ghost var ms, ps, m, k0 := msgs, parts, msg, k;
      msgs, parts := msgs + [msg], parts + [Flat(v.lists[from..k])];
      msg, wnptr, k := FillMessage(kind, homeOf, lock, wnptr, v, k);
      NextMessage(kind, homeOf, lock, ms, ps, m, v.lists, from, k0, msg, k);
      from := k0;
    }
    LastMessage(kind, homeOf, lock, msgs, parts, msg, v.lists, from, k);
    msgs, parts := msgs + [msg], parts + [Flat(v.lists[from..k])];
  }

  lemma StreamPush(kind: Kind, homeOf: nat -> nat, lock: Word, msgs: seq<seq<Word>>, parts: seq<seq<Entry>>,
    msg: seq<Word>, lists: seq<seq<Entry>>, from: nat, k: nat)
    requires Sending(kind, homeOf, lock, msgs, parts, msg, lists, from, k)
    ensures StreamOf(kind, homeOf, lock, msgs + [msg], parts + [Flat(lists[from..k])])
    ensures Flat(parts + [Flat(lists[from..k])]) == Flat(lists[..k])
  {
    FlatSendable(lists[from..k]);
    StreamGrows(kind, homeOf, lock, msgs, parts, msg, Flat(lists[from..k]));
    FlatSlices(lists, parts, from, k);
  }

  lemma StreamGrows(kind: Kind, homeOf: nat -> nat, lock: Word, msgs: seq<seq<Word>>, parts: seq<seq<Entry>>,
    msg: seq<Word>, part: seq<Entry>)
    requires StreamOf(kind, homeOf, lock, msgs, parts)
    requires AllSendable(part) && msg == [lock] + Payload(kind, homeOf, part) && |msg| <= MAX
    ensures StreamOf(kind, homeOf, lock, msgs + [msg], parts + [part])
  {
  }

  lemma {:induction false} FlatConcat(a: seq<seq<Entry>>, b: seq<seq<Entry>>)
    ensures Flat(a + b) == Flat(a) + Flat(b)
  {
    if a == [] {
      assert a + b == b;
    } else {
      FlatConcat(a[1..], b);
      TailOfConcat(a, b);
      Assoc(a[0], Flat(a[1..]), Flat(b));
    }
  }

  lemma FlatSlices(lists: seq<seq<Entry>>, parts: seq<seq<Entry>>, from: nat, k: nat)
    requires from <= k <= |lists| && Flat(parts) == Flat(lists[..from])
    ensures Flat(parts + [Flat(lists[from..k])]) == Flat(lists[..k])
  {
    var p := Flat(lists[from..k]);
    FlatConcat(parts, [p]);
    assert [p][1..] == [] && p + [] == p;
    FlatConcat(lists[..from], lists[from..k]);
    assert lists[..from] + lists[from..k] == lists[..k];
  }

  // ---------------------------------------------------------------- parsing

  /** Entry i of the payload s lies at words Room(i).. */
  lemma EncodeAt(k: Kind, s: seq<Entry>, i: nat)
    requires AllSendable(s) && i < |s|
    ensures Room(k, i) + Room(k, 1) <= |Encode(k, s)|
    ensures Encode(k, s)[Room(k, i)..Room(k, i) + Room(k, 1)] == Words(k, s[i])
  {
    var a, e, b := s[..i], s[i], s[i + 1..];
    SplitAt(s, i);
    EncodeSnoc(k, a, e);
    EncodeConcat(k, a + [e], b);
    WholeSlice(Encode(k, a), Words(k, e), Encode(k, b));
  }

  lemma MessageAt(k: Kind, lock: Word, msg: seq<Word>, s: seq<Entry>, i: nat)
    requires AllSendable(s) && i < |s| && msg == [lock] + Encode(k, s)
    ensures 1 + Room(k, i) + Room(k, 1) <= |msg|
    ensures msg[1 + Room(k, i)..1 + Room(k, i) + Room(k, 1)] == Words(k, s[i])
  {
    EncodeAt(k, s, i);
    var w := Encode(k, s);
    SliceOfConcat([lock], w, [], Room(k, i), Room(k, i) + Room(k, 1));
    assert [lock] + w + [] == msg;
  }

  function Reported(e: Entry, from: nat, scope: int): Entry { Entry(e.addr, e.mig, from, scope) }

  function Reports(s: seq<Entry>, from: nat, scope: int): (r: seq<Entry>)
    ensures |r| == |s| && forall i :: 0 <= i < |s| ==> r[i] == Reported(s[i], from, scope)
  {
    seq(|s|, i requires 0 <= i < |s| => Reported(s[i], from, scope))
  }

  /** One report read back from the message. */
  method ReadReport(msg: seq<Word>, datai: nat, frompid: nat, scope: int, ghost lock: Word, ghost es: seq<Entry>, ghost i: nat)
    returns (e: Entry)
    requires AllSendable(es) && msg == [lock] + Encode(Report, es) && i < |es| && datai == 1 + 3 * i
    ensures e == Reported(es[i], frompid, scope)
  {
    MessageAt(Report, lock, msg, es, i);
    var w := msg[datai..datai + 3];
    assert w == Words(Report, es[i]);
    e := Entry(w[0] + w[1] * B32, w[2], frompid, scope);
  }

  /** recordwtnts: the entries of one REL, BARR or WTNT message join the list. */
  method RecordWtnts(msg: seq<Word>, frompid: nat, scope: int, ptr: Node, ghost v: View,
    ghost lock: Word, ghost es: seq<Entry>)
    returns (ghost v': View)
    requires IsList(ptr, v) && AllSendable(es) && msg == [lock] + Encode(Report, es)
    modifies v.repr
    ensures IsList(ptr, v') && fresh(v'.repr - v.repr) && v.repr <= v'.repr
    ensures v'.Contents() == SavedAll(v.Contents(), Reports(es, frompid, scope))
  {
    var datai := 1;
    v' := v;
    ghost var i, rs := 0, Reports(es, frompid, scope);
    while datai < |msg|
      invariant i <= |es| && datai == 1 + 3 * i
      invariant IsList(ptr, v') && fresh(v'.repr - v.repr) && v.repr <= v'.repr
      invariant v'.Contents() == SavedAll(v.Contents(), rs[..i])
    {
      var e := ReadReport(msg, datai, frompid, scope, lock, es, i);
      assert rs[..i + 1][..i] == rs[..i];
      v' := SaveWtnt(ptr, e, v');
      datai, i := datai + 3, i + 1;
    }
    TakeAll(rs);
  }

  lemma ReportsConcat(a: seq<Entry>, b: seq<Entry>, from: nat, scope: int)
    ensures Reports(a + b, from, scope) == Reports(a, from, scope) + Reports(b, from, scope)
  {
  }

  /** Reports and barrier grants leave no entry out. */
  lemma {:induction false} AllWanted(kind: Kind, homeOf: nat -> nat, s: seq<Entry>)
    requires !kind.LockGrant?
    ensures Select(kind, homeOf, s) == s
  {
    if s != [] {
      AllWanted(kind, homeOf, s[..|s| - 1]);
    }
  }

  lemma RecordedMore(s: seq<Entry>, parts: seq<seq<Entry>>, i: nat, from: nat, scope: int)
    requires i < |parts|
    ensures SavedAll(s, Reports(Flat(parts[..i + 1]), from, scope))
      == SavedAll(SavedAll(s, Reports(Flat(parts[..i]), from, scope)), Reports(parts[i], from, scope))
  {
    FlatPrefix(parts, i);
    ReportsConcat(Flat(parts[..i]), parts[i], from, scope);
    SavedAllConcat(s, Reports(Flat(parts[..i]), from, scope), Reports(parts[i], from, scope));
  }

  /** The i-th message of a stream. */
  method RecordNext(msg: seq<Word>, frompid: nat, scope: int, ptr: Node, ghost v: View,
    homeOf: nat -> nat, ghost lock: Word, ghost parts: seq<seq<Entry>>, ghost was: seq<Entry>, ghost i: nat)
    returns (ghost v': View)
    requires IsList(ptr, v) && i < |parts| && AllSendable(parts[i]) && msg == [lock] + Payload(Report, homeOf, parts[i])
    requires v.Contents() == SavedAll(was, Reports(Flat(parts[..i]), frompid, scope))
    modifies v.repr
    ensures IsList(ptr, v') && fresh(v'.repr - v.repr) && v.repr <= v'.repr
    ensures v'.Contents() == SavedAll(was, Reports(Flat(parts[..i + 1]), frompid, scope))
  {
    AllWanted(Report, homeOf, parts[i]);
    RecordedMore(was, parts, i, frompid, scope);
    v' := RecordWtnts(msg, frompid, scope, ptr, v, lock, parts[i]);
  }

  /** The manager handles a whole stream from one host: its list becomes what saving the sender's
      entries one by one, in the sender's order, would make it. */
  method RecordStream(msgs: seq<seq<Word>>, frompid: nat, scope: int, ptr: Node, ghost v: View,
    homeOf: nat -> nat, ghost lock: Word, ghost parts: seq<seq<Entry>>)
    returns (ghost v': View)
    requires IsList(ptr, v) && StreamOf(Report, homeOf, lock, msgs, parts)
    modifies v.repr
    ensures IsList(ptr, v') && fresh(v'.repr - v.repr) && v.repr <= v'.repr
    ensures v'.Contents() == SavedAll(v.Contents(), Reports(Flat(parts), frompid, scope))
  {
    v' := v;
    for i := 0 to |msgs|
      invariant IsList(ptr, v') && fresh(v'.repr - v.repr) && v.repr <= v'.repr
      invariant v'.Contents() == SavedAll(v.Contents(), Reports(Flat(parts[..i]), frompid, scope))
    {
      v' := RecordNext(msgs[i], frompid, scope, ptr, v', homeOf, lock, parts, v.Contents(), i);
    }
    TakeAll(parts);
  }

  // ---------------------------------------------------------------- grants

  /** What invalidate reads for one entry of an INVLD, ACQGRANT or BARRGRANT message. */
  datatype Notice = Notice(addr: nat, modifypid: nat, migtag: int)

  function NoticesOf(s: seq<Entry>): (r: seq<Notice>)
    ensures |r| == |s| && forall i :: 0 <= i < |s| ==> r[i] == Notice(s[i].addr, s[i].from, s[i].mig)
  {
    seq(|s|, i requires 0 <= i < |s| => Notice(s[i].addr, s[i].from, s[i].mig))
  }

  method ReadNotice(kind: Kind, msg: seq<Word>, datai: nat, ghost lock: Word, ghost es: seq<Entry>, ghost i: nat)
    returns (n: Notice)
    requires !kind.Report? && AllSendable(es) && msg == [lock] + Encode(kind, es) && i < |es| && datai == 1 + 4 * i
    ensures n == NoticesOf(es)[i]
  {
    MessageAt(kind, lock, msg, es, i);
    var w := msg[datai..datai + 4];
    assert w == Words(kind, es[i]);
    n := Notice(w[0] + w[1] * B32, w[2], w[3]);
  }

  lemma NoticesConcat(a: seq<Entry>, b: seq<Entry>)
    ensures NoticesOf(a + b) == NoticesOf(a) + NoticesOf(b)
  {
  }

  lemma NoticesStep(kind: Kind, homeOf: nat -> nat, parts: seq<seq<Entry>>, i: nat)
    requires i < |parts|
    ensures NoticesOf(Select(kind, homeOf, Flat(parts[..i + 1])))
      == NoticesOf(Select(kind, homeOf, Flat(parts[..i]))) + NoticesOf(Select(kind, homeOf, parts[i]))
  {
    FlatPrefix(parts, i);
    SelectConcat(kind, homeOf, Flat(parts[..i]), parts[i]);
    NoticesConcat(Select(kind, homeOf, Flat(parts[..i])), Select(kind, homeOf, parts[i]));
  }

  /** The parsing loop of invalidate: the entries of one message, in order. */
  method ParseGrant(kind: Kind, msg: seq<Word>, ghost lock: Word, ghost es: seq<Entry>) returns (ns: seq<Notice>)
    requires !kind.Report? && AllSendable(es) && msg == [lock] + Encode(kind, es)
    ensures ns == NoticesOf(es)
  {
    ns := [];
    var datai := 1;
    while datai < |msg|
      invariant |ns| <= |es| && datai == 1 + 4 * |ns| && ns == NoticesOf(es)[..|ns|]
    {
      var n := ReadNotice(kind, msg, datai, lock, es, |ns|);
      ns := ns + [n];
      datai := datai + 4;
    }
  }

  // what the words of a stream say, without regard to how they came to be there

  /** The words behind the lock, four by four. */
  function Decoded(msg: seq<Word>): (r: seq<Notice>)
    requires |msg| >= 1
    ensures |r| == (|msg| - 1) / 4
    ensures forall i :: 0 <= i < |r| ==> r[i] == Notice(msg[4 * i + 1] + msg[4 * i + 2] * B32, msg[4 * i + 3], msg[4 * i + 4])
  {
    seq((|msg| - 1) / 4, i requires 0 <= i < (|msg| - 1) / 4 =>
      Notice(msg[4 * i + 1] + msg[4 * i + 2] * B32, msg[4 * i + 3], msg[4 * i + 4]))
  }

  /** A message of whole entries, behind the lock. */
  predicate Whole(msg: seq<Word>, lock: Word) { 1 <= |msg| <= MAX && msg[0] == lock && |msg| % 4 == 1 }

  predicate AllWhole(msgs: seq<seq<Word>>, lock: Word) { forall i :: 0 <= i < |msgs| ==> Whole(msgs[i], lock) }

  function DecodedAll(msgs: seq<seq<Word>>, lock: Word): (r: seq<Notice>)
    requires AllWhole(msgs, lock)
  {
    if msgs == [] then [] else DecodedAll(msgs[..|msgs| - 1], lock) + Decoded(msgs[|msgs| - 1])
  }

  /** The messages, read one after another, say exactly ns. */
  predicate Carried(msgs: seq<seq<Word>>, lock: Word, ns: seq<Notice>) {
    AllWhole(msgs, lock) && DecodedAll(msgs, lock) == ns
  }

  lemma MessageCarries(kind: Kind, lock: Word, msg: seq<Word>, es: seq<Entry>)
    requires !kind.Report? && AllSendable(es) && msg == [lock] + Encode(kind, es) && |msg| <= MAX
    ensures Whole(msg, lock) && Decoded(msg) == NoticesOf(es)
  {
    forall i | 0 <= i < |es| ensures Decoded(msg)[i] == NoticesOf(es)[i] {
      MessageAt(kind, lock, msg, es, i);
      var w := msg[4 * i + 1..4 * i + 5];
      assert w == Words(kind, es[i]);
      assert w[0] == msg[4 * i + 1] && w[1] == msg[4 * i + 2] && w[2] == msg[4 * i + 3] && w[3] == msg[4 * i + 4];
    }
  }

  lemma {:induction false} StreamCarries(kind: Kind, homeOf: nat -> nat, lock: Word, msgs: seq<seq<Word>>, parts: seq<seq<Entry>>)
    requires !kind.Report? && StreamOf(kind, homeOf, lock, msgs, parts)
    ensures Carried(msgs, lock, NoticesOf(Select(kind, homeOf, Flat(parts))))
  {
    if msgs != [] {
      var n := |msgs| - 1;
      FrontOf(kind, homeOf, lock, msgs, parts);
      StreamCarries(kind, homeOf, lock, msgs[..n], parts[..n]);
      MessageCarries(kind, lock, msgs[n], Select(kind, homeOf, parts[n]));
      NoticesStep(kind, homeOf, parts, n);
      TakeAll(parts);
      AllButLast(msgs, lock);
    }
  }

  lemma FrontOf(kind: Kind, homeOf: nat -> nat, lock: Word, msgs: seq<seq<Word>>, parts: seq<seq<Entry>>)
    requires StreamOf(kind, homeOf, lock, msgs, parts) && msgs != []
    ensures StreamOf(kind, homeOf, lock, msgs[..|msgs| - 1], parts[..|msgs| - 1])
    ensures var n := |msgs| - 1; AllSendable(parts[n]) && msgs[n] == [lock] + Payload(kind, homeOf, parts[n]) && |msgs[n]| <= MAX
  {
  }

  lemma AllButLast(msgs: seq<seq<Word>>, lock: Word)
    requires msgs != [] && AllWhole(msgs[..|msgs| - 1], lock) && Whole(msgs[|msgs| - 1], lock)
    ensures AllWhole(msgs, lock)
  {
    assert forall i :: 0 <= i < |msgs| - 1 ==> msgs[..|msgs| - 1][i] == msgs[i];
  }

  /** The acquirer handles a whole stream: it sees exactly the selected entries, in list order. */
  method ParseStream(kind: Kind, homeOf: nat -> nat, msgs: seq<seq<Word>>, ghost lock: Word, ghost parts: seq<seq<Entry>>)
    returns (ns: seq<Notice>)
    requires !kind.Report? && StreamOf(kind, homeOf, lock, msgs, parts)
    ensures ns == NoticesOf(Select(kind, homeOf, Flat(parts)))
    ensures kind.Barrier? ==> ns == NoticesOf(Flat(parts))
    ensures Carried(msgs, lock, ns)
  {
    ns := [];
    for i := 0 to |msgs|
      invariant ns == NoticesOf(Select(kind, homeOf, Flat(parts[..i])))
    {
      NoticesStep(kind, homeOf, parts, i);
      var more := ParseGrant(kind, msgs[i], lock, Select(kind, homeOf, parts[i]));
      ns := ns + more;
    }
    TakeAll(parts);
    if kind.Barrier? { AllWanted(kind, homeOf, Flat(parts)); }
    StreamCarries(kind, homeOf, lock, msgs, parts);
  }

  // ---------------------------------------------------------------- the guard of appendlockwtnts

  /** A node as the guard sees it, and how many of its entries go to the acquirer. */
  datatype Fill = Fill(count: nat, sent: nat)

  predicate Plausible(nodes: seq<Fill>) { forall i :: 0 <= i < |nodes| ==> nodes[i].sent <= nodes[i].count <= MAXWTNTS }

  /** The guard in appendlockwtnts: it reserves 8 bytes an entry, and 8 more. */
  predicate Passes(size: nat, n: Fill) { size + 8 + 8 * n.count < D.MAXMSGSIZE }

  /** Does some message outgrow its data area, when the nodes from k on are appended to a message of
      `size` bytes?  An entry takes 16 bytes. */
  predicate Outgrows(nodes: seq<Fill>, k: nat, size: nat)
    requires k <= |nodes| && Plausible(nodes)
    decreases |nodes| - k, size
  {
    if k == |nodes| then false
    else if Passes(size, nodes[k]) then
      size + 16 * nodes[k].sent > D.MAXMSGSIZE || Outgrows(nodes, k + 1, size + 16 * nodes[k].sent)
    else Outgrows(nodes, k, 4)
  }

  /** The bytes in the message after a node of which all that is sent fits. */
  function After(n: Fill, size: nat): (b: nat) { (if Passes(size, n) then size else 4) + 16 * n.sent }

  /** The bytes in the message when the guard first looks at node i. */
  function Before(nodes: seq<Fill>, i: nat): (b: nat)
    requires i <= |nodes|
  {
    if i == 0 then 4 else After(nodes[i - 1], Before(nodes, i - 1))
  }

  /** Node i passes the guard and does not fit. */
  predicate Slips(nodes: seq<Fill>, i: nat)
    requires i < |nodes|
  {
    Passes(Before(nodes, i), nodes[i]) && Before(nodes, i) + 16 * nodes[i].sent > D.MAXMSGSIZE
  }

  /** The guard looks at node k with `size` bytes in the message, the first time or in a new message. */
  predicate Looks(nodes: seq<Fill>, k: nat, size: nat)
    requires k <= |nodes|
  {
    size == Before(nodes, k) || (size == 4 && k < |nodes| && !Passes(Before(nodes, k), nodes[k]))
  }

  lemma LookOnce(nodes: seq<Fill>, k: nat, size: nat)
    requires k < |nodes| && Plausible(nodes) && Looks(nodes, k, size)
    ensures Passes(size, nodes[k]) ==> size + 16 * nodes[k].sent == Before(nodes, k + 1)
    ensures Passes(size, nodes[k]) ==> (Slips(nodes, k) <==> size + 16 * nodes[k].sent > D.MAXMSGSIZE)
    ensures !Passes(size, nodes[k]) ==> Looks(nodes, k, 4) && !Slips(nodes, k) && size > 4
  {
  }

  /** Does one of the first k nodes slip? */
  predicate SomeSlips(nodes: seq<Fill>, k: nat)
    requires k <= |nodes|
  {
    exists i :: 0 <= i < k && Slips(nodes, i)
  }

  lemma OneMore(nodes: seq<Fill>, k: nat)
    requires k < |nodes|
    ensures SomeSlips(nodes, k + 1) <==> SomeSlips(nodes, k) || Slips(nodes, k)
  {
  }

  lemma OneNode(nodes: seq<Fill>, k: nat, size: nat)
    requires k < |nodes| && Plausible(nodes)
    ensures Outgrows(nodes, k, size) <==>
      (Passes(size, nodes[k]) && size + 16 * nodes[k].sent > D.MAXMSGSIZE) || Outgrows(nodes, k + 1, After(nodes[k], size))
  {
  }

  /** For any counts and any selection: the grant fails exactly if some node slips through the guard. */
  lemma {:induction false} OutgrowsIff(nodes: seq<Fill>, k: nat)
    requires Plausible(nodes) && k <= |nodes|
    ensures Outgrows(nodes, k, Before(nodes, k)) <==> exists i :: k <= i < |nodes| && Slips(nodes, i)
    decreases |nodes| - k
  {
    if k < |nodes| {
      OneNode(nodes, k, Before(nodes, k));
      OutgrowsIff(nodes, k + 1);
      assert Before(nodes, k + 1) == After(nodes[k], Before(nodes, k));
      if Slips(nodes, k) {
        assert exists i :: k <= i < |nodes| && Slips(nodes, i);
      } else {
        forall i | k <= i < |nodes| && Slips(nodes, i) ensures k + 1 <= i {
          assert i != k;
        }
      }
    }
  }

  function FillOf(homeOf: nat -> nat, to: nat, acqscope: int, held: seq<Entry>): (f: Fill)
    ensures f.count == |held| && f.sent <= f.count
  {
    Fill(|held|, |Select(LockGrant(acqscope, to), homeOf, held)|)
  }

  function FillsOf(homeOf: nat -> nat, to: nat, acqscope: int, lists: seq<seq<Entry>>): (r: seq<Fill>)
    ensures |r| == |lists|
    ensures forall i :: 0 <= i < |lists| ==> r[i] == FillOf(homeOf, to, acqscope, lists[i])
  {
    seq(|lists|, i requires 0 <= i < |lists| => FillOf(homeOf, to, acqscope, lists[i]))
  }

  /** The inner loop of appendlockwtnts, with the assertion of appendmsg. */
  method FillNode(homeOf: nat -> nat, to: nat, acqscope: int, node: Node, size: nat, ghost held: seq<Entry>)
    returns (fits: bool, size': nat)
    requires HoldsAt(node, held) && size <= D.MAXMSGSIZE
    ensures fits <==> size + 16 * FillOf(homeOf, to, acqscope, held).sent <= D.MAXMSGSIZE
    ensures fits ==> size' == size + 16 * FillOf(homeOf, to, acqscope, held).sent
  {
    ghost var kind := LockGrant(acqscope, to);
    fits, size' := true, size;
    for wtnti := 0 to node.wtntc
      invariant fits && size' == size + 16 * |Select(kind, homeOf, held[..wtnti])|
      invariant size' <= D.MAXMSGSIZE
    {
      assert held[wtnti] == node.entries[wtnti] && held[..wtnti + 1] == held[..wtnti] + [held[wtnti]];
      SelectSnoc(kind, homeOf, held[..wtnti], held[wtnti]);
      if node.entries[wtnti].scope > acqscope && homeOf(Page(node.entries[wtnti].addr)) != to {
        if size' + 16 > D.MAXMSGSIZE {
          SelectGrows(kind, homeOf, held, wtnti + 1);
          return false, size';
        }
        size' := size' + 16;
      }
    }
    TakeAll(held);
  }

  lemma SelectGrows(k: Kind, homeOf: nat -> nat, s: seq<Entry>, n: nat)
    requires n <= |s|
    ensures |Select(k, homeOf, s[..n])| <= |Select(k, homeOf, s)|
  {
    SelectConcat(k, homeOf, s[..n], s[n..]);
    assert s[..n] + s[n..] == s;
  }

  lemma AllPlausible(homeOf: nat -> nat, to: nat, acqscope: int, v: View)
    requires Valid(v)
    ensures Plausible(FillsOf(homeOf, to, acqscope, v.lists))
  {
    assert forall i :: 0 <= i < |v.lists| ==> HoldsAt(v.nodes[i], v.lists[i]);
  }

  /** One turn of the loop of appendlockwtnts: the node is appended, or it is left for the next message. */
  method GuardTurn(homeOf: nat -> nat, to: nat, acqscope: int, node: Node, size: nat, ghost held: seq<Entry>, ghost n: Fill)
    returns (passed: bool, fits: bool, size': nat)
    requires HoldsAt(node, held) && size <= D.MAXMSGSIZE && n == FillOf(homeOf, to, acqscope, held)
    ensures passed <==> Passes(size, n)
    ensures fits <==> !passed || size + 16 * n.sent <= D.MAXMSGSIZE
    ensures passed && fits ==> size' == size + 16 * n.sent
    ensures !passed ==> size' == 4
  {
    passed := size + 8 + 8 * node.wtntc < D.MAXMSGSIZE;
    fits, size' := true, 4;
    if passed {
      fits, size' := FillNode(homeOf, to, acqscope, node, size, held);
    }
  }

  /** What holds when the guard is about to look at node k. */
  ghost predicate Guarding(all: seq<Fill>, k: nat, size: nat) {
    k <= |all| && size <= D.MAXMSGSIZE && Looks(all, k, size) && !SomeSlips(all, k)
  }

  /** That turn, when the node is the k-th of the list. */
  method GuardStep(homeOf: nat -> nat, to: nat, acqscope: int, wnptr: Node, size: nat,
    ghost v: View, ghost all: seq<Fill>, ghost k: nat)
    returns (fits: bool, wnptr': Node?, size': nat, ghost k': nat)
    requires Valid(v) && k < |v.nodes| && wnptr == v.nodes[k]
    requires all == FillsOf(homeOf, to, acqscope, v.lists) && Plausible(all) && Guarding(all, k, size)
    ensures !fits ==> SomeSlips(all, |all|)
    ensures fits ==> wnptr' == At(v.nodes, k') && Guarding(all, k', size')
    ensures fits ==> k' == k + 1 || (k' == k && size' < size)
  {
    LookOnce(all, k, size);
    OneMore(all, k);
    assert HoldsAt(wnptr, v.lists[k]);
    wnptr', k' := wnptr.more, k + 1;
    var passed;
    passed, fits, size' := GuardTurn(homeOf, to, acqscope, wnptr, size, v.lists[k], all[k]);
    if !passed {
      wnptr', k' := wnptr, k;
    }
    if !fits {
      SlipsEarlier(all, k + 1);
    }
  }

  lemma SlipsEarlier(nodes: seq<Fill>, k: nat)
    requires k <= |nodes| && SomeSlips(nodes, k)
    ensures SomeSlips(nodes, |nodes|)
  {
  }

  /** grantlock and appendlockwtnts with the guard as written: fits is false when appendmsg's assertion
      fails.  Only sizes are followed. */
  method GrantAsWritten(homeOf: nat -> nat, to: nat, acqscope: int, ptr: Node, ghost v: View) returns (fits: bool)
    requires IsList(ptr, v)
    ensures Plausible(FillsOf(homeOf, to, acqscope, v.lists))
    ensures !fits <==> SomeSlips(FillsOf(homeOf, to, acqscope, v.lists), |v.lists|)
  {
    ghost var all := FillsOf(homeOf, to, acqscope, v.lists);
    AllPlausible(homeOf, to, acqscope, v);
    var wnptr: Node?, size: nat := ptr, 4;
    ghost var k: nat := 0;
    fits := true;
    while wnptr != null
      invariant fits && wnptr == At(v.nodes, k) && Guarding(all, k, size)
      decreases |all| - k, size
    {
      fits, wnptr, size, k := GuardStep(homeOf, to, acqscope, wnptr, size, v, all, k);
      if !fits {
        return;
      }
    }
  }

  /** A list of n entries, all of which go to the acquirer. */
  function AllSent(n: nat): (r: seq<Fill>)
    ensures Plausible(r) && r != []
  {
    if n <= MAXWTNTS then [Fill(n, n)] else [Fill(MAXWTNTS, MAXWTNTS)] + AllSent(n - MAXWTNTS)
  }

  lemma {:induction false} Shifted(n: Fill, nodes: seq<Fill>, k: nat, size: nat)
    requires Plausible([n] + nodes) && Plausible(nodes) && k <= |nodes|
    ensures Outgrows([n] + nodes, k + 1, size) <==> Outgrows(nodes, k, size)
    decreases |nodes| - k, size
  {
    if k < |nodes| {
      if Passes(size, nodes[k]) {
        Shifted(n, nodes, k + 1, size + 16 * nodes[k].sent);
      } else {
        Shifted(n, nodes, k, 4);
      }
    }
  }

  /** Five full nodes bring a message to 40884 bytes; then the guard lets through up to 4 more
      entries, and only 2 fit. */
  const FIVE := 5 * MAXWTNTS

  predicate Fails(n: nat, size: nat) { Outgrows(AllSent(n), 0, size) }

  lemma NearlyFull(n: nat)
    requires n > 0
    ensures Fails(n, 40884) <==> n == 3 || n == 4 || (n > 4 && Fails(n, 4))
  {
    OneNode(AllSent(n), 0, 40884);
    OneNode(AllSent(n), 0, 4);
  }

  lemma OneNodeMore(n: nat, size: nat)
    requires 4 <= size <= 32708
    ensures Fails(n, size) <==> n > MAXWTNTS && Fails(n - MAXWTNTS, size + 16 * MAXWTNTS)
  {
    OneNode(AllSent(n), 0, size);
    if n > MAXWTNTS {
      Shifted(Fill(MAXWTNTS, MAXWTNTS), AllSent(n - MAXWTNTS), 0, size + 16 * MAXWTNTS);
    }
  }

  lemma LaterNodes(n: nat)
    ensures Fails(n, 8180) <==> n > 4 * MAXWTNTS && Fails(n - 4 * MAXWTNTS, 40884)
  {
    OneNodeMore(n, 8180);
    if n > MAXWTNTS { OneNodeMore(n - MAXWTNTS, 16356); }
    if n > 2 * MAXWTNTS { OneNodeMore(n - 2 * MAXWTNTS, 24532); }
    if n > 3 * MAXWTNTS { OneNodeMore(n - 3 * MAXWTNTS, 32708); }
  }

  lemma Fresh(n: nat)
    ensures Fails(n, 4) <==> n > FIVE && Fails(n - FIVE, 40884)
  {
    if n > MAXWTNTS { LaterNodes(n - MAXWTNTS); }
    OneNodeMore(n, 4);
  }

  lemma {:induction false} FailsExactly(n: nat)
    ensures Fails(n, 4) <==> n > FIVE && (n % FIVE == 3 || n % FIVE == 4)
    decreases n
  {
    Fresh(n);
    if n > FIVE {
      var m := n - FIVE;
      NearlyFull(m);
      FailsExactly(m);
      assert m % FIVE == n % FIVE;
    }
  }

  /** When every entry is sent the messages fit exactly if the list does not end with 3 or 4 entries
      behind a positive multiple of 2555; 2558 is the shortest list that fails. */
  lemma LockGuardExact(n: nat)
    ensures SomeSlips(AllSent(n), |AllSent(n)|) <==> n > FIVE && (n % FIVE == 3 || n % FIVE == 4)
  {
    FailsExactly(n);
    OutgrowsIff(AllSent(n), 0);
  }
}
