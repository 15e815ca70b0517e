/** The chained list of write notices of a lock, of the barrier and of each level of the lock stack:
    nodes of 511 entries, updated in place. */
module WriteNotices {
  import opened Seqs
  import opened Notices

  const MAXWTNTS := 511

  /** A node; its entries lie inside it, so two nodes never share them. */
  class Node {
    var wtntc: nat
    var entries: seq<Entry>
    var more: Node?
    ghost const index: nat

    /** newwtnt, for the node with this index in its list. */
    constructor (ghost index: nat)
      ensures wtntc == 0 && more == null && |entries| == MAXWTNTS && this.index == index
    {
      entries := seq(MAXWTNTS, _ => Entry(0, 0, 0, 0));
      wtntc, more := 0, null;
      this.index := index;
    }
  }

  /** A whole list: its nodes in order, what each holds, and the objects it owns. */
  datatype View = View(nodes: seq<Node>, lists: seq<seq<Entry>>, repr: set<Node>)
  {
    function Contents(): seq<Entry> { Flat(lists) }
  }

  /** Node i, or null behind the last. */
  ghost function At(nodes: seq<Node>, i: nat): Node? { if i < |nodes| then nodes[i] else null }

  /** The first wtntc entries of the node are s. */
  ghost predicate HoldsAt(n: Node, s: seq<Entry>)
    reads n`wtntc, n`entries
  {
    |n.entries| == MAXWTNTS && n.wtntc <= MAXWTNTS && n.entries[..n.wtntc] == s
  }

  ghost predicate Owned(v: View) {
    forall i :: 0 <= i < |v.nodes| ==> v.nodes[i] in v.repr && v.nodes[i].index == i
  }

  /** Linked in order, ending in null, no node twice, every node but the last full. */
  ghost predicate Valid(v: View)
    reads v.repr
  {
    && Owned(v) && |v.nodes| == |v.lists| && Packed(v.lists)
    && (forall i {:trigger v.nodes[i].more} :: 0 <= i < |v.nodes| ==> v.nodes[i].more == At(v.nodes, i + 1))
    && (forall i :: 0 <= i < |v.nodes| ==> HoldsAt(v.nodes[i], v.lists[i]))
  }

  /** v is the list whose first node is ptr. */
  ghost predicate IsList(ptr: Node, v: View)
    reads v.repr
  {
    Valid(v) && v.nodes[0] == ptr
  }

  // ---------------------------------------------------------------- lists of lists

  function Flat(lists: seq<seq<Entry>>): (s: seq<Entry>) {
    if lists == [] then [] else lists[0] + Flat(lists[1..])
  }

  /** Every node but the last is full. */
  predicate Packed(lists: seq<seq<Entry>>) {
    && lists != [] && (forall i :: 0 <= i < |lists| - 1 ==> |lists[i]| == MAXWTNTS)
    && |lists[|lists| - 1]| <= MAXWTNTS
  }

  /** The list after the entry e has been put in a free place, or at place (k, i). */
  function AppendTo(lists: seq<seq<Entry>>, e: Entry): (r: seq<seq<Entry>>)
    requires Packed(lists)
    ensures Packed(r)
  {
    var last := |lists| - 1;
    if |lists[last]| < MAXWTNTS then lists[last := lists[last] + [e]] else lists + [[e]]
  }

  lemma {:induction false} AppendFlat(lists: seq<seq<Entry>>, e: Entry)
    requires Packed(lists)
    ensures Flat(AppendTo(lists, e)) == Flat(lists) + [e]
  {
    var r := AppendTo(lists, e);
    if |lists| == 1 {
      if |lists[0]| < MAXWTNTS {
        assert r[1..] == [] && lists[1..] == [];
      } else {
        assert r[1..] == [[e]] && lists[1..] == [] && r[1..][1..] == [];
      }
    } else {
      assert r[0] == lists[0];
      assert r[1..] == AppendTo(lists[1..], e);
      AppendFlat(lists[1..], e);
    }
  }

  /** Where entry i of list k stands in the flat list. */
  function Offset(lists: seq<seq<Entry>>, k: nat): (o: nat)
    requires k < |lists|
  {
    if k == 0 then 0 else |lists[0]| + Offset(lists[1..], k - 1)
  }

  lemma {:induction false} FlatAt(lists: seq<seq<Entry>>, k: nat, i: nat)
    requires k < |lists| && i < |lists[k]|
    ensures Offset(lists, k) + i < |Flat(lists)| && Flat(lists)[Offset(lists, k) + i] == lists[k][i]
  {
    if k > 0 {
      FlatAt(lists[1..], k - 1, i);
    }
  }

  lemma {:induction false} FlatPut(lists: seq<seq<Entry>>, k: nat, i: nat, e: Entry)
    requires k < |lists| && i < |lists[k]|
    ensures Offset(lists, k) + i < |Flat(lists)|
    ensures Flat(lists[k := lists[k][i := e]]) == Flat(lists)[Offset(lists, k) + i := e]
  {
    FlatAt(lists, k, i);
    var r := lists[k := lists[k][i := e]];
    if k == 0 {
      assert r[1..] == lists[1..];
    } else {
      assert r[1..] == lists[1..][k - 1 := lists[k][i := e]];
      FlatPut(lists[1..], k - 1, i, e);
    }
  }

  /** No entry for the page in the first k lists. */
  predicate AbsentBefore(lists: seq<seq<Entry>>, k: nat, page: nat) {
    k <= |lists| && forall j :: 0 <= j < k ==> IndexOf(lists[j], page) == |lists[j]|
  }

  lemma {:induction false} IndexOfFlat(lists: seq<seq<Entry>>, k: nat, page: nat)
    requires AbsentBefore(lists, k, page)
    ensures k == |lists| ==> IndexOf(Flat(lists), page) == |Flat(lists)|
    ensures k < |lists| && IndexOf(lists[k], page) < |lists[k]| ==>
      IndexOf(Flat(lists), page) == Offset(lists, k) + IndexOf(lists[k], page)
  {
    if lists != [] {
      var rest := lists[1..];
      IndexOfConcat(lists[0], Flat(rest), page);
      if k > 0 {
        AbsentInRest(lists, k, page);
        IndexOfFlat(rest, k - 1, page);
      }
    }
  }

  lemma AbsentInRest(lists: seq<seq<Entry>>, k: nat, page: nat)
    requires 0 < k && AbsentBefore(lists, k, page)
    ensures IndexOf(lists[0], page) == |lists[0]| && AbsentBefore(lists[1..], k - 1, page)
    ensures k < |lists| ==> lists[1..][k - 1] == lists[k] && Offset(lists, k) == |lists[0]| + Offset(lists[1..], k - 1)
  {
    assert forall j :: 0 <= j < k - 1 ==> lists[1..][j] == lists[j + 1];
  }

  lemma {:induction false} IndexOfConcat(a: seq<Entry>, b: seq<Entry>, page: nat)
    ensures IndexOf(a + b, page) == if IndexOf(a, page) < |a| then IndexOf(a, page) else |a| + IndexOf(b, page)
  {
    if a == [] {
      assert a + b == b;
    } else {
      TailOfConcat(a, b);
      IndexOfConcat(a[1..], b, page);
    }
  }

  // ---------------------------------------------------------------- savewtnt

  /** The inner loop of step 1 of savewtnt: the place of the page in one node, or its count. */
  method FindInNode(node: Node, addr: nat, ghost held: seq<Entry>) returns (wtnti: nat)
    requires HoldsAt(node, held)
    ensures wtnti == IndexOf(held, Page(addr))
  {
    wtnti := 0;
    while wtnti < node.wtntc && Page(addr) != Page(node.entries[wtnti].addr)
      invariant 0 <= wtnti <= node.wtntc
      invariant IndexOf(held, Page(addr)) == wtnti + IndexOf(held[wtnti..], Page(addr))
    {
      assert held[wtnti] == node.entries[wtnti] && held[wtnti..][1..] == held[wtnti + 1..];
      wtnti := wtnti + 1;
    }
    assert wtnti < |held| ==> held[wtnti] == node.entries[wtnti] == held[wtnti..][0];
  }

  /** Step 1 of savewtnt: the node and the place of the page, or null. */
  method Find(ptr: Node, addr: nat, ghost v: View) returns (wnptr: Node?, wtnti: nat, ghost k: nat)
    requires IsList(ptr, v)
    ensures AbsentBefore(v.lists, k, Page(addr))
    ensures if wnptr == null then k == |v.nodes|
            else k < |v.nodes| && wnptr == v.nodes[k] && wtnti == IndexOf(v.lists[k], Page(addr)) < |v.lists[k]|
  {
    wnptr, wtnti, k := ptr, 0, 0;
    while wnptr != null
      invariant k <= |v.nodes| && wnptr == At(v.nodes, k)
      invariant AbsentBefore(v.lists, k, Page(addr))
      decreases |v.nodes| - k
    {
      assert HoldsAt(wnptr, v.lists[k]);
      wtnti := FindInNode(wnptr, addr, v.lists[k]);
      if wtnti < wnptr.wtntc {
        return;
      }
      wnptr, k := wnptr.more, k + 1;
    }
  }

  /** Writes entry e at place i of a node, which may be the first free place. */
  method PutIn(node: Node, i: nat, e: Entry, ghost held: seq<Entry>)
    requires HoldsAt(node, held) && i <= node.wtntc && i < MAXWTNTS
    modifies node`wtntc, node`entries
    ensures i <= |held| && HoldsAt(node, if i == |held| then held + [e] else held[i := e])
  {
    node.entries := node.entries[i := e];
    if i == node.wtntc {
      node.wtntc := node.wtntc + 1;
    }
  }

  /** The same, for node k of a list. */
  method Put(i: nat, e: Entry, ghost v: View, node: Node, ghost k: nat) returns (ghost v': View)
    requires Valid(v) && k < |v.nodes| && node == v.nodes[k] && HoldsAt(node, v.lists[k])
    requires i < node.wtntc || (i == node.wtntc < MAXWTNTS && k == |v.nodes| - 1)
    modifies node`wtntc, node`entries
    ensures i <= |v.lists[k]|
    ensures v' == v.(lists := v.lists[k := if i == |v.lists[k]| then v.lists[k] + [e] else v.lists[k][i := e]])
    ensures Valid(v')
  {
    PutIn(node, i, e, v.lists[k]);
    v' := v.(lists := v.lists[k := if i == |v.lists[k]| then v.lists[k] + [e] else v.lists[k][i := e]]);
  }

  /** A new last node, holding e. */
  method Extend(last: Node, e: Entry, ghost v: View) returns (ghost v': View)
    requires Valid(v) && last == v.nodes[|v.nodes| - 1] && last.wtntc == MAXWTNTS
    modifies last`more
    ensures Valid(v') && v'.nodes[0] == v.nodes[0] && v'.lists == v.lists + [[e]]
    ensures fresh(v'.repr - v.repr) && v.repr <= v'.repr
  {
    assert HoldsAt(last, v.lists[|v.nodes| - 1]);
    var node := new Node(|v.nodes|);
    PutIn(node, 0, e, []);
    last.more := node;
    v' := View(v.nodes + [node], v.lists + [[e]], v.repr + {node});
  }

  /** The walk of step 2 of savewtnt. */
  method LastFree(ptr: Node, ghost v: View) returns (wnptr: Node)
    requires IsList(ptr, v)
    ensures wnptr == v.nodes[|v.nodes| - 1]
  {
    wnptr := ptr;
    ghost var k := 0;
    while wnptr.wtntc >= MAXWTNTS && wnptr.more != null
      invariant k < |v.nodes| && wnptr == v.nodes[k]
      invariant k < |v.nodes| - 1 ==> wnptr.more == v.nodes[k + 1] && |v.lists[k]| == MAXWTNTS
      decreases |v.nodes| - k
    {
      assert k < |v.nodes| - 1 ==> HoldsAt(v.nodes[k + 1], v.lists[k + 1]);
      wnptr, k := wnptr.more, k + 1;
    }
    assert HoldsAt(wnptr, v.lists[k]);
  }

  /** Step 2 of savewtnt, for a page that is not in the list. */
  method Append(ptr: Node, e: Entry, ghost v: View) returns (ghost v': View)
    requires IsList(ptr, v)
    modifies v.repr
    ensures IsList(ptr, v') && fresh(v'.repr - v.repr) && v.repr <= v'.repr
    ensures v'.Contents() == v.Contents() + [e]
  {
    var last := LastFree(ptr, v);
    ghost var k := |v.nodes| - 1;
    assert HoldsAt(last, v.lists[k]);
    if last.wtntc >= MAXWTNTS {
      v' := Extend(last, e, v);
    } else {
      v' := Put(last.wtntc, e, v, last, k);
    }
    AppendFlat(v.lists, e);
  }

  /** Step 2 of savewtnt, for a page that has an entry. */
  method Overwrite(node: Node, wtnti: nat, e: Entry, ghost v: View, ghost k: nat) returns (ghost v': View)
    requires Valid(v) && k < |v.nodes| && node == v.nodes[k] && wtnti < node.wtntc
    modifies node`wtntc, node`entries
    ensures Valid(v') && v'.nodes == v.nodes && v'.repr == v.repr
    ensures Offset(v.lists, k) + wtnti < |v.Contents()| && wtnti < |v.lists[k]|
    ensures v.Contents()[Offset(v.lists, k) + wtnti] == v.lists[k][wtnti]
    ensures v'.Contents() ==
      v.Contents()[Offset(v.lists, k) + wtnti := Entry(v.lists[k][wtnti].addr, e.mig, MAXHOSTS, e.scope)]
  {
    assert HoldsAt(node, v.lists[k]);
    FlatAt(v.lists, k, wtnti);
    assert node.entries[wtnti] == v.lists[k][wtnti];
    var f := Entry(node.entries[wtnti].addr, e.mig, MAXHOSTS, e.scope);
    v' := Put(wtnti, f, v, node, k);
    FlatPut(v.lists, k, wtnti, f);
  }

  /** savewtnt: the list in place does what Saved does to its contents. */
  method SaveWtnt(ptr: Node, e: Entry, ghost v: View) returns (ghost v': View)
    requires IsList(ptr, v)
    modifies v.repr
    ensures IsList(ptr, v') && fresh(v'.repr - v.repr) && v.repr <= v'.repr
    ensures v'.Contents() == Saved(v.Contents(), e)
  {
    var wnptr, wtnti, k := Find(ptr, e.addr, v);
    IndexOfFlat(v.lists, k, Page(e.addr));
    if wnptr == null {
      v' := Append(ptr, e, v);
    } else {
      v' := Overwrite(wnptr, wtnti, e, v, k);
    }
  }

  /** freewtntspace: only the first node stays, and it is empty. */
  method FreeWtntSpace(ptr: Node, ghost v: View) returns (ghost v': View)
    requires IsList(ptr, v)
    modifies ptr
    ensures IsList(ptr, v') && v'.Contents() == [] && v'.repr == v.repr
  {
    ptr.wtntc, ptr.more := 0, null;
    v' := View([ptr], [[]], v.repr);
    assert ptr.entries[..0] == [] && HoldsAt(ptr, []);
  }

  // ---------------------------------------------------------------- popstack

  /** The inner loop of popstack: one node of the inner level, holding `held`. */
  method MergeNode(outer: Node, inner: Node, ghost held: seq<Entry>, ghost v: View) returns (ghost v': View)
    requires IsList(outer, v) && inner !in v.repr
    requires HoldsAt(inner, held)
    modifies v.repr
    ensures IsList(outer, v') && fresh(v'.repr - v.repr) && v.repr <= v'.repr
    ensures v'.Contents() == SavedAll(v.Contents(), held)
  {
    v' := v;
    for wtnti := 0 to inner.wtntc
      invariant IsList(outer, v') && fresh(v'.repr - v.repr) && v.repr <= v'.repr
      invariant v'.Contents() == SavedAll(v.Contents(), held[..wtnti])
    {
      assert held[..wtnti + 1][..wtnti] == held[..wtnti] && held[wtnti] == inner.entries[wtnti];
      v' := SaveWtnt(outer, inner.entries[wtnti], v');
    }
    TakeAll(held);
  }

  lemma {:induction false} SavedAllConcat(s: seq<Entry>, a: seq<Entry>, b: seq<Entry>)
    ensures SavedAll(s, a + b) == SavedAll(SavedAll(s, a), b)
  {
    if b == [] {
      assert a + b == a;
    } else {
      var front, e := b[..|b| - 1], b[|b| - 1];
      SplitLast(b);
      SavedAllConcat(s, a, front);
      OneMoreSaved(s, a, front, e);
    }
  }

  lemma OneMoreSaved(s: seq<Entry>, a: seq<Entry>, b: seq<Entry>, e: Entry)
    requires SavedAll(s, a + b) == SavedAll(SavedAll(s, a), b)
    ensures SavedAll(s, a + (b + [e])) == SavedAll(SavedAll(s, a), b + [e])
  {
    SavedAllSnoc(s, a + b, e);
    SavedAllSnoc(SavedAll(s, a), b, e);
    Assoc(a, b, [e]);
  }

  lemma {:induction false} FlatPrefix(lists: seq<seq<Entry>>, k: nat)
    requires k < |lists|
    ensures Flat(lists[..k + 1]) == Flat(lists[..k]) + lists[k]
  {
    if k == 0 {
      assert lists[..1][1..] == [];
    } else {
      FlatPrefix(lists[1..], k - 1);
      assert lists[..k + 1][1..] == lists[1..][..k] && lists[..k][1..] == lists[1..][..k - 1];
    }
  }

  lemma MergeStep(s: seq<Entry>, lists: seq<seq<Entry>>, k: nat)
    requires k < |lists|
    ensures SavedAll(SavedAll(s, Flat(lists[..k])), lists[k]) == SavedAll(s, Flat(lists[..k + 1]))
  {
    FlatPrefix(lists, k);
    SavedAllConcat(s, Flat(lists[..k]), lists[k]);
  }

  /** The outer loop of popstack. */
  method MergeLevel(outer: Node, inner: Node, ghost v: View, ghost below: View) returns (ghost v': View)
    requires IsList(outer, v) && IsList(inner, below) && v.repr !! below.repr
    modifies v.repr
    ensures IsList(outer, v') && fresh(v'.repr - v.repr) && v.repr <= v'.repr
    ensures v'.Contents() == SavedAll(v.Contents(), below.Contents())
  {
    v' := v;
    var wnptr: Node? := inner;
    ghost var k := 0;
    while wnptr != null
      invariant k <= |below.nodes| && wnptr == At(below.nodes, k)
      invariant IsList(inner, below)
      invariant IsList(outer, v') && fresh(v'.repr - v.repr) && v.repr <= v'.repr
      invariant v'.Contents() == SavedAll(v.Contents(), Flat(below.lists[..k]))
      decreases |below.nodes| - k
    {
      assert HoldsAt(wnptr, below.lists[k]);
      MergeStep(v.Contents(), below.lists, k);
      v' := MergeNode(outer, wnptr, below.lists[k], v');
      wnptr, k := wnptr.more, k + 1;
    }
    assert below.lists[..k] == below.lists;
  }

  /** popstack: every entry of the inner level is saved at the outer one, and the inner is freed. */
  method PopStack(outer: Node, inner: Node, ghost v: View, ghost below: View)
    returns (ghost v': View, ghost below': View)
    requires IsList(outer, v) && IsList(inner, below) && v.repr !! below.repr
    modifies v.repr, below.repr
    ensures IsList(outer, v') && fresh(v'.repr - v.repr) && v'.repr !! below'.repr
    ensures v'.Contents() == SavedAll(v.Contents(), below.Contents())
    ensures IsList(inner, below') && below'.Contents() == [] && below'.repr == below.repr
  {
    v' := MergeLevel(outer, inner, v, below);
    below' := FreeWtntSpace(inner, below);
  }
}
