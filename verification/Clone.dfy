/** Copying nodes under new names. */
module Clone {
  import opened Workflow
  import opened TreeEdits

  /** A source of names: no name comes twice, none is in use, and none looks like a list key. */
  type Supply = nat -> Id

  ghost predicate IsSupply(uid: Supply, used: set<Id>) {
    && (forall i, j :: i != j ==> uid(i) != uid(j))
    && (forall i :: uid(i) !in used && uid(i) != ROOT)
    && (forall i, j :: uid(i) != ErrorListKey(uid(j)))
  }

  // ---------------------------------------------------------------- rewriting references

  function RemapToken(t: Token, ids: map<Id, Id>): Token {
    if t.Reference? && t.head in ids then Reference(ids[t.head], t.path) else t
  }

  function Remap(expr: Expr, ids: map<Id, Id>): (r: Expr)
    ensures |r| == |expr| && forall i :: 0 <= i < |expr| ==> r[i] == RemapToken(expr[i], ids)
  {
    if expr == [] then [] else [RemapToken(expr[0], ids)] + Remap(expr[1..], ids)
  }

  function RemapConditions(conditions: seq<Condition>, ids: map<Id, Id>): seq<Condition> {
    if conditions == [] then []
    else
      [Condition(conditions[0].op, Remap(conditions[0].left, ids), Remap(conditions[0].right, ids))]
      + RemapConditions(conditions[1..], ids)
  }

  function RemapKind(kind: ListKind, ids: map<Id, Id>): ListKind {
    match kind
    case BranchList(b) => BranchList(b.(conditions := RemapConditions(b.conditions, ids)))
    case _ => kind
  }

  function RemapSteps(steps: seq<Node>, ids: map<Id, Id>): seq<Node>
    decreases steps
  {
    if steps == [] then []
    else
      [steps[0].(config := Remap(steps[0].config, ids), lists := RemapLists(steps[0].lists, ids))]
      + RemapSteps(steps[1..], ids)
  }

  function RemapLists(lists: seq<ChildList>, ids: map<Id, Id>): seq<ChildList>
    decreases lists
  {
    if lists == [] then []
    else
      [ChildList(RemapKind(lists[0].kind, ids), RemapSteps(lists[0].steps, ids))] + RemapLists(lists[1..], ids)
  }

  // ---------------------------------------------------------------- copying

  datatype Copied<T> = Copied(value: T, next: nat, ids: map<Id, Id>)

  /** A node takes a name for itself, then its lists are copied, then its branches take names. */
  function CopyNode(node: Node, uid: Supply, k: nat): Copied<Node>
    decreases node, 0
  {
    var inner := CopyLists(node.lists, uid, k + 1);
    var named := NameBranches(inner.value, uid, inner.next);
    Copied(node.(id := uid(k), ref := None, lists := named.0), named.1, map[node.id := uid(k)] + inner.ids)
  }

  function CopySteps(steps: seq<Node>, uid: Supply, k: nat): Copied<seq<Node>>
    decreases steps, 0
  {
    if steps == [] then Copied([], k, map[])
    else
      var head := CopyNode(steps[0], uid, k);
      var tail := CopySteps(steps[1..], uid, head.next);
      Copied([head.value] + tail.value, tail.next, head.ids + tail.ids)
  }

  function CopyLists(lists: seq<ChildList>, uid: Supply, k: nat): Copied<seq<ChildList>>
    decreases lists, 0
  {
    if lists == [] then Copied([], k, map[])
    else
      var head := CopySteps(lists[0].steps, uid, k);
      var tail := CopyLists(lists[1..], uid, head.next);
      Copied([lists[0].(steps := head.value)] + tail.value, tail.next, head.ids + tail.ids)
  }

  function NameBranches(lists: seq<ChildList>, uid: Supply, k: nat): (seq<ChildList>, nat) {
    if lists == [] then ([], k)
    else
      match lists[0].kind
      case BranchList(b) =>
        var tail := NameBranches(lists[1..], uid, k + 1);
        ([lists[0].(kind := BranchList(b.(id := uid(k))))] + tail.0, tail.1)
      case _ =>
        var tail := NameBranches(lists[1..], uid, k);
        ([lists[0]] + tail.0, tail.1)
  }

  function CloneNodes(nodes: seq<Node>, uid: Supply): Copied<seq<Node>> {
    var c := CopySteps(nodes, uid, 0);
    c.(value := RemapSteps(c.value, c.ids))
  }

  // ---------------------------------------------------------------- copying as it runs

  /** The copier keeps the position in the name source and the table of renamed ids. */
  class Copier {
    const uid: Supply
    var next: nat
    var ids: map<Id, Id>

    constructor (uid: Supply)
      ensures this.uid == uid && next == 0 && ids == map[]
    {
      this.uid := uid;
      next, ids := 0, map[];
    }

    method CopyOne(node: Node) returns (copy: Node)
      modifies this
      ensures copy == CopyNode(node, uid, old(next)).value
      ensures next == CopyNode(node, uid, old(next)).next
      ensures ids == old(ids) + CopyNode(node, uid, old(next)).ids
      decreases node, 0
    {
      var id := uid(next);
      ids, next := ids + map[node.id := id], next + 1;
      var lists := CopyEach(node.lists);
      ghost var inner := CopyLists(node.lists, uid, old(next) + 1);
      MergeAssociates(old(ids), map[node.id := id], inner.ids);
      var named := NameBranches(lists, uid, next);
      next := named.1;
      copy := node.(id := id, ref := None, lists := named.0);
    }

    method Copy(steps: seq<Node>) returns (copy: seq<Node>)
      modifies this
      ensures copy == CopySteps(steps, uid, old(next)).value
      ensures next == CopySteps(steps, uid, old(next)).next
      ensures ids == old(ids) + CopySteps(steps, uid, old(next)).ids
      decreases steps, 0
    {
      if steps == [] {
        return [];
      }
      var head := CopyOne(steps[0]);
      ghost var first := CopyNode(steps[0], uid, old(next));
      var tail := Copy(steps[1..]);
      MergeAssociates(old(ids), first.ids, CopySteps(steps[1..], uid, first.next).ids);
      copy := [head] + tail;
    }

    method CopyEach(lists: seq<ChildList>) returns (copy: seq<ChildList>)
      modifies this
      ensures copy == CopyLists(lists, uid, old(next)).value
      ensures next == CopyLists(lists, uid, old(next)).next
      ensures ids == old(ids) + CopyLists(lists, uid, old(next)).ids
      decreases lists, 0
    {
      if lists == [] {
        return [];
      }
      var head := Copy(lists[0].steps);
      ghost var first := CopySteps(lists[0].steps, uid, old(next));
      var tail := CopyEach(lists[1..]);
      MergeAssociates(old(ids), first.ids, CopyLists(lists[1..], uid, first.next).ids);
      copy := [lists[0].(steps := head)] + tail;
    }

    /** Copies the nodes, and then points the references among them at the copies. */
    method Clone(nodes: seq<Node>) returns (clone: seq<Node>)
      requires next == 0 && ids == map[]
      modifies this
      ensures clone == CloneNodes(nodes, uid).value && ids == CloneNodes(nodes, uid).ids
    {
      var copy := Copy(nodes);
      assert ids == CopySteps(nodes, uid, 0).ids;
      clone := RemapSteps(copy, ids);
    }
  }

  // ---------------------------------------------------------------- the copy is the original, renamed

  /** `b` is `a` with its ids renamed by `ids`, its refs dropped, its references rewritten by `refs`,
      and its branches named anew. */
  predicate Renamed(a: seq<Node>, b: seq<Node>, ids: map<Id, Id>, refs: map<Id, Id>)
    decreases a
  {
    && |a| == |b|
    && (a == [] ||
        (&& a[0].id in ids
         && b[0] == Node(ids[a[0].id], a[0].kind, a[0].connector, a[0].name, None, Remap(a[0].config, refs), b[0].lists)
         && RenamedLists(a[0].lists, b[0].lists, ids, refs)
         && Renamed(a[1..], b[1..], ids, refs)))
  }

  predicate RenamedLists(a: seq<ChildList>, b: seq<ChildList>, ids: map<Id, Id>, refs: map<Id, Id>)
    decreases a
  {
    && |a| == |b|
    && (a == [] ||
        (&& RenamedKind(a[0].kind, b[0].kind, refs)
         && Renamed(a[0].steps, b[0].steps, ids, refs)
         && RenamedLists(a[1..], b[1..], ids, refs)))
  }

  predicate RenamedKind(a: ListKind, b: ListKind, refs: map<Id, Id>) {
    match a
    case BranchList(x) => b.BranchList? && b.branch == x.(id := b.branch.id, conditions := RemapConditions(x.conditions, refs))
    case _ => a == b
  }

  lemma {:induction false} RenamedMore(a: seq<Node>, b: seq<Node>, ids: map<Id, Id>, more: map<Id, Id>, refs: map<Id, Id>)
    requires Renamed(a, b, ids, refs)
    requires forall id :: id in IdsIn(a) && id in ids ==> id in more && more[id] == ids[id]
    ensures Renamed(a, b, more, refs)
    decreases a
  {
    if a != [] {
      RenamedMoreLists(a[0].lists, b[0].lists, ids, more, refs);
      RenamedMore(a[1..], b[1..], ids, more, refs);
    }
  }

  lemma {:induction false} RenamedMoreLists(a: seq<ChildList>, b: seq<ChildList>, ids: map<Id, Id>, more: map<Id, Id>, refs: map<Id, Id>)
    requires RenamedLists(a, b, ids, refs)
    requires forall id :: id in IdsInLists(a) && id in ids ==> id in more && more[id] == ids[id]
    ensures RenamedLists(a, b, more, refs)
    decreases a
  {
    if a != [] {
      RenamedMore(a[0].steps, b[0].steps, ids, more, refs);
      RenamedMoreLists(a[1..], b[1..], ids, more, refs);
    }
  }

  lemma {:induction false} RemapNothing(conditions: seq<Condition>)
    ensures RemapConditions(conditions, map[]) == conditions
  {
    if conditions != [] {
      assert Remap(conditions[0].left, map[]) == conditions[0].left;
      assert Remap(conditions[0].right, map[]) == conditions[0].right;
      RemapNothing(conditions[1..]);
    }
  }

  lemma {:induction false} NamedLists(lists: seq<ChildList>, uid: Supply, k: nat)
    ensures var r := NameBranches(lists, uid, k);
            && |r.0| == |lists| && k <= r.1
            && (forall i :: 0 <= i < |lists| ==> r.0[i].steps == lists[i].steps)
            && IdsInLists(r.0) == IdsInLists(lists)
            && (UniqueIdsInLists(lists) ==> UniqueIdsInLists(r.0))
            && (KeysOkInLists(lists) ==> KeysOkInLists(r.0))
            && (ShapesOkInLists(lists) ==> ShapesOkInLists(r.0))
  {
    if lists != [] {
      NamedLists(lists[1..], uid, if lists[0].kind.BranchList? then k + 1 else k);
      var r := NameBranches(lists, uid, k).0;
      assert r[1..] == NameBranches(lists[1..], uid, if lists[0].kind.BranchList? then k + 1 else k).0;
    }
  }

  lemma {:induction false} NamedRenamed(a: seq<ChildList>, b: seq<ChildList>, uid: Supply, k: nat, ids: map<Id, Id>)
    requires RenamedLists(a, b, ids, map[])
    ensures RenamedLists(a, NameBranches(b, uid, k).0, ids, map[])
    decreases a
  {
    if a != [] {
      var next := if b[0].kind.BranchList? then k + 1 else k;
      NamedRenamed(a[1..], b[1..], uid, next, ids);
      assert NameBranches(b, uid, k).0[1..] == NameBranches(b[1..], uid, next).0;
    }
  }

  function Names(uid: Supply, from: nat, to: nat): set<Id> {
    set j | from <= j < to :: uid(j)
  }

  lemma MergeAssociates(a: map<Id, Id>, b: map<Id, Id>, c: map<Id, Id>)
    ensures (a + b) + c == a + (b + c)
  {
  }

  // Which ids the table covers, and that the names are used up in order.

  lemma {:induction false} CopyCovers(steps: seq<Node>, uid: Supply, k: nat)
    ensures CopySteps(steps, uid, k).ids.Keys == IdsIn(steps) && k <= CopySteps(steps, uid, k).next
    decreases steps, 0
  {
    if steps != [] {
      CopyNodeCovers(steps[0], uid, k);
      CopyCovers(steps[1..], uid, CopyNode(steps[0], uid, k).next);
    }
  }

  lemma {:induction false} CopyNodeCovers(node: Node, uid: Supply, k: nat)
    ensures CopyNode(node, uid, k).ids.Keys == {node.id} + IdsInLists(node.lists) && k < CopyNode(node, uid, k).next
    decreases node, 0
  {
    CopyListsCovers(node.lists, uid, k + 1);
    var inner := CopyLists(node.lists, uid, k + 1);
    NamedLists(inner.value, uid, inner.next);
  }

  lemma {:induction false} CopyListsCovers(lists: seq<ChildList>, uid: Supply, k: nat)
    ensures CopyLists(lists, uid, k).ids.Keys == IdsInLists(lists) && k <= CopyLists(lists, uid, k).next
    decreases lists, 0
  {
    if lists != [] {
      CopyCovers(lists[0].steps, uid, k);
      CopyListsCovers(lists[1..], uid, CopySteps(lists[0].steps, uid, k).next);
    }
  }

  lemma {:induction false} CopyRenames(steps: seq<Node>, uid: Supply, k: nat)
    requires UniqueIds(steps)
    ensures Renamed(steps, CopySteps(steps, uid, k).value, CopySteps(steps, uid, k).ids, map[])
    decreases steps, 0
  {
    if steps != [] {
      var head := CopyNode(steps[0], uid, k);
      var tail := CopySteps(steps[1..], uid, head.next);
      CopyNodeCovers(steps[0], uid, k);
      CopyCovers(steps[1..], uid, head.next);
      CopyNodeRenames(steps[0], uid, k);
      CopyRenames(steps[1..], uid, head.next);
      var ids := head.ids + tail.ids;
      RenamedMoreLists(steps[0].lists, head.value.lists, head.ids, ids, map[]);
      RenamedMore(steps[1..], tail.value, tail.ids, ids, map[]);
      assert ([head.value] + tail.value)[1..] == tail.value;
    }
  }

  lemma {:induction false} CopyNodeRenames(node: Node, uid: Supply, k: nat)
    requires node.id !in IdsInLists(node.lists) && UniqueIdsInLists(node.lists)
    ensures var c := CopyNode(node, uid, k);
            && node.id in c.ids && RenamedLists(node.lists, c.value.lists, c.ids, map[])
            && c.value == Node(c.ids[node.id], node.kind, node.connector, node.name, None, Remap(node.config, map[]), c.value.lists)
    decreases node, 0
  {
    var c := CopyNode(node, uid, k);
    var inner := CopyLists(node.lists, uid, k + 1);
    CopyListsCovers(node.lists, uid, k + 1);
    CopyListsRenames(node.lists, uid, k + 1);
    NamedRenamed(node.lists, inner.value, uid, inner.next, inner.ids);
    RenamedMoreLists(node.lists, c.value.lists, inner.ids, c.ids, map[]);
    assert Remap(node.config, map[]) == node.config;
  }

  lemma {:induction false} CopyListsRenames(lists: seq<ChildList>, uid: Supply, k: nat)
    requires UniqueIdsInLists(lists)
    ensures RenamedLists(lists, CopyLists(lists, uid, k).value, CopyLists(lists, uid, k).ids, map[])
    decreases lists, 0
  {
    if lists != [] {
      var head := CopySteps(lists[0].steps, uid, k);
      var tail := CopyLists(lists[1..], uid, head.next);
      CopyCovers(lists[0].steps, uid, k);
      CopyListsCovers(lists[1..], uid, head.next);
      CopyRenames(lists[0].steps, uid, k);
      CopyListsRenames(lists[1..], uid, head.next);
      var ids := head.ids + tail.ids;
      RenamedMore(lists[0].steps, head.value, head.ids, ids, map[]);
      RenamedMoreLists(lists[1..], tail.value, tail.ids, ids, map[]);
      if lists[0].kind.BranchList? { RemapNothing(lists[0].kind.branch.conditions); }
      assert CopyLists(lists, uid, k).value[1..] == tail.value;
    }
  }

  // ---------------------------------------------------------------- the copy is well formed

  lemma {:induction false} RenamedShapes(a: seq<Node>, b: seq<Node>, ids: map<Id, Id>, refs: map<Id, Id>)
    requires Renamed(a, b, ids, refs) && ShapesOk(a)
    ensures ShapesOk(b)
    decreases a
  {
    if a != [] {
      RenamedShapesInLists(a[0].lists, b[0].lists, ids, refs);
      RenamedKinds(a[0].lists, b[0].lists, ids, refs);
      RenamedShapes(a[1..], b[1..], ids, refs);
    }
  }

  lemma {:induction false} RenamedShapesInLists(a: seq<ChildList>, b: seq<ChildList>, ids: map<Id, Id>, refs: map<Id, Id>)
    requires RenamedLists(a, b, ids, refs) && ShapesOkInLists(a)
    ensures ShapesOkInLists(b)
    decreases a
  {
    if a != [] {
      RenamedShapes(a[0].steps, b[0].steps, ids, refs);
      RenamedShapesInLists(a[1..], b[1..], ids, refs);
    }
  }

  lemma {:induction false} RenamedKinds(a: seq<ChildList>, b: seq<ChildList>, ids: map<Id, Id>, refs: map<Id, Id>)
    requires RenamedLists(a, b, ids, refs)
    ensures BranchCount(a) == BranchCount(b)
    ensures forall i :: 0 <= i < |a| ==> RenamedKind(a[i].kind, b[i].kind, refs)
    decreases a
  {
    if a != [] { RenamedKinds(a[1..], b[1..], ids, refs); }
  }

  lemma NamesApart(uid: Supply, a: nat, b: nat, c: nat, used: set<Id>)
    requires IsSupply(uid, used) && a <= b <= c
    ensures Names(uid, a, b) !! Names(uid, b, c) && Names(uid, a, c) !! used
  {
  }

  predicate HasLoop(lists: seq<ChildList>) { exists i :: 0 <= i < |lists| && lists[i].kind.LoopBody? }

  predicate HasError(lists: seq<ChildList>) { exists i :: 0 <= i < |lists| && lists[i].kind.ErrorList? }

  lemma {:induction false} KeysOfSpecialLists(owner: Id, lists: seq<ChildList>)
    ensures HasLoop(lists) ==> owner in Keys(owner, lists)
    ensures HasError(lists) ==> ErrorListKey(owner) in Keys(owner, lists)
  {
    if lists != [] {
      KeysOfSpecialLists(owner, lists[1..]);
      if i :| 0 <= i < |lists| && lists[i].kind.LoopBody? {
        if i > 0 { assert lists[1..][i - 1] == lists[i]; }
      }
      if i :| 0 <= i < |lists| && lists[i].kind.ErrorList? {
        if i > 0 { assert lists[1..][i - 1] == lists[i]; }
      }
    }
  }

  /** Branches named from `k` on have distinct keys, apart from those of a loop body and an error list. */
  lemma {:induction false} NamedKeys(owner: Id, lists: seq<ChildList>, uid: Supply, own: nat, k: nat, used: set<Id>)
    requires IsSupply(uid, used) && own < k && DistinctKeys(owner, lists)
    ensures var named := NameBranches(lists, uid, k);
            && DistinctKeys(uid(own), named.0) && ROOT !in Keys(uid(own), named.0)
            && forall x :: x in Keys(uid(own), named.0) ==>
                 x in Names(uid, k, named.1) || (x == uid(own) && HasLoop(lists)) || (x == ErrorListKey(uid(own)) && HasError(lists))
  {
    if lists != [] {
      var next := if lists[0].kind.BranchList? then k + 1 else k;
      var named, rest := NameBranches(lists, uid, k), NameBranches(lists[1..], uid, next);
      NamedLists(lists[1..], uid, next);
      NamedKeys(owner, lists[1..], uid, own, next, used);
      assert named.0[1..] == rest.0 && named.1 == rest.1;
      KeysOfSpecialLists(owner, lists[1..]);
      NamesApart(uid, own, own + 1, next, used);
      assert HasLoop(lists[1..]) ==> HasLoop(lists);
      assert HasError(lists[1..]) ==> HasError(lists);
    }
  }

  lemma {:induction false} CopyTreeOk(steps: seq<Node>, uid: Supply, k: nat, used: set<Id>)
    requires IsSupply(uid, used) && KeysOk(steps)
    ensures var c := CopySteps(steps, uid, k);
            IdsIn(c.value) <= Names(uid, k, c.next) && UniqueIds(c.value) && KeysOk(c.value)
    decreases steps, 0
  {
    if steps != [] {
      var head := CopyNode(steps[0], uid, k);
      var tail := CopySteps(steps[1..], uid, head.next);
      CopyNodeCovers(steps[0], uid, k);
      CopyCovers(steps[1..], uid, head.next);
      CopyNodeOk(steps[0], uid, k, used);
      CopyTreeOk(steps[1..], uid, head.next, used);
      NamesApart(uid, k, head.next, tail.next, used);
      assert ([head.value] + tail.value)[1..] == tail.value;
    }
  }

  lemma {:induction false} CopyNodeOk(node: Node, uid: Supply, k: nat, used: set<Id>)
    requires IsSupply(uid, used) && DistinctKeys(node.id, node.lists) && KeysOkInLists(node.lists)
    ensures var c := CopyNode(node, uid, k);
            && {c.value.id} + IdsInLists(c.value.lists) <= Names(uid, k, c.next)
            && c.value.id !in IdsInLists(c.value.lists) && UniqueIdsInLists(c.value.lists)
            && ROOT !in Keys(c.value.id, c.value.lists) && DistinctKeys(c.value.id, c.value.lists) && KeysOkInLists(c.value.lists)
    decreases node, 0
  {
    var inner := CopyLists(node.lists, uid, k + 1);
    CopyListsCovers(node.lists, uid, k + 1);
    CopyListsOk(node.lists, uid, k + 1, used);
    NamedLists(inner.value, uid, inner.next);
    CopyKeepsKeys(node.id, node.lists, uid, k + 1);
    NamedKeys(node.id, inner.value, uid, k, inner.next, used);
    NamesApart(uid, k, k + 1, inner.next, used);
  }

  lemma {:induction false} CopyKeepsKeys(owner: Id, lists: seq<ChildList>, uid: Supply, k: nat)
    ensures Keys(owner, CopyLists(lists, uid, k).value) == Keys(owner, lists)
    ensures DistinctKeys(owner, lists) ==> DistinctKeys(owner, CopyLists(lists, uid, k).value)
    decreases lists
  {
    if lists != [] {
      var head := CopySteps(lists[0].steps, uid, k);
      CopyKeepsKeys(owner, lists[1..], uid, head.next);
      assert CopyLists(lists, uid, k).value[1..] == CopyLists(lists[1..], uid, head.next).value;
    }
  }

  lemma {:induction false} CopyListsOk(lists: seq<ChildList>, uid: Supply, k: nat, used: set<Id>)
    requires IsSupply(uid, used) && KeysOkInLists(lists)
    ensures var c := CopyLists(lists, uid, k);
            IdsInLists(c.value) <= Names(uid, k, c.next) && UniqueIdsInLists(c.value) && KeysOkInLists(c.value)
    decreases lists, 0
  {
    if lists != [] {
      var head := CopySteps(lists[0].steps, uid, k);
      var tail := CopyLists(lists[1..], uid, head.next);
      CopyCovers(lists[0].steps, uid, k);
      CopyListsCovers(lists[1..], uid, head.next);
      CopyTreeOk(lists[0].steps, uid, k, used);
      CopyListsOk(lists[1..], uid, head.next, used);
      NamesApart(uid, k, head.next, tail.next, used);
      assert CopyLists(lists, uid, k).value[1..] == tail.value;
    }
  }

  // ---------------------------------------------------------------- rewriting references keeps the tree

  lemma {:induction false} RemapKeeps(steps: seq<Node>, refs: map<Id, Id>)
    ensures IdsIn(RemapSteps(steps, refs)) == IdsIn(steps)
    ensures UniqueIds(steps) ==> UniqueIds(RemapSteps(steps, refs))
    ensures KeysOk(steps) ==> KeysOk(RemapSteps(steps, refs))
    decreases steps
  {
    if steps != [] {
      RemapKeepsLists(steps[0].id, steps[0].lists, refs);
      RemapKeeps(steps[1..], refs);
      assert RemapSteps(steps, refs)[1..] == RemapSteps(steps[1..], refs);
    }
  }

  lemma {:induction false} RemapKeepsLists(owner: Id, lists: seq<ChildList>, refs: map<Id, Id>)
    ensures IdsInLists(RemapLists(lists, refs)) == IdsInLists(lists)
    ensures UniqueIdsInLists(lists) ==> UniqueIdsInLists(RemapLists(lists, refs))
    ensures KeysOkInLists(lists) ==> KeysOkInLists(RemapLists(lists, refs))
    ensures Keys(owner, RemapLists(lists, refs)) == Keys(owner, lists)
    ensures DistinctKeys(owner, lists) ==> DistinctKeys(owner, RemapLists(lists, refs))
    decreases lists
  {
    if lists != [] {
      RemapKeeps(lists[0].steps, refs);
      RemapKeepsLists(owner, lists[1..], refs);
      assert RemapLists(lists, refs)[1..] == RemapLists(lists[1..], refs);
    }
  }

  lemma {:induction false} RemapRenames(a: seq<Node>, b: seq<Node>, ids: map<Id, Id>, refs: map<Id, Id>)
    requires Renamed(a, b, ids, map[])
    ensures Renamed(a, RemapSteps(b, refs), ids, refs)
    decreases a
  {
    if a != [] {
      assert Remap(a[0].config, map[]) == a[0].config;
      RemapRenamesLists(a[0].lists, b[0].lists, ids, refs);
      RemapRenames(a[1..], b[1..], ids, refs);
      assert RemapSteps(b, refs)[1..] == RemapSteps(b[1..], refs);
    }
  }

  lemma {:induction false} RemapRenamesLists(a: seq<ChildList>, b: seq<ChildList>, ids: map<Id, Id>, refs: map<Id, Id>)
    requires RenamedLists(a, b, ids, map[])
    ensures RenamedLists(a, RemapLists(b, refs), ids, refs)
    decreases a
  {
    if a != [] {
      if a[0].kind.BranchList? { RemapNothing(a[0].kind.branch.conditions); }
      RemapRenames(a[0].steps, b[0].steps, ids, refs);
      RemapRenamesLists(a[1..], b[1..], ids, refs);
      assert RemapLists(b, refs)[1..] == RemapLists(b[1..], refs);
    }
  }

  // ---------------------------------------------------------------- the table of ids

  lemma {:induction false} RenamedIds(a: seq<Node>, b: seq<Node>, ids: map<Id, Id>, refs: map<Id, Id>, x: Id)
    requires Renamed(a, b, ids, refs) && x in IdsIn(a)
    ensures x in ids && ids[x] in IdsIn(b)
    decreases a
  {
    if x in IdsInLists(a[0].lists) {
      RenamedIdsInLists(a[0].lists, b[0].lists, ids, refs, x);
    } else if x in IdsIn(a[1..]) {
      RenamedIds(a[1..], b[1..], ids, refs, x);
    }
  }

  lemma {:induction false} RenamedIdsInLists(a: seq<ChildList>, b: seq<ChildList>, ids: map<Id, Id>, refs: map<Id, Id>, x: Id)
    requires RenamedLists(a, b, ids, refs) && x in IdsInLists(a)
    ensures x in ids && ids[x] in IdsInLists(b)
    decreases a
  {
    if x in IdsIn(a[0].steps) {
      RenamedIds(a[0].steps, b[0].steps, ids, refs, x);
    } else {
      RenamedIdsInLists(a[1..], b[1..], ids, refs, x);
    }
  }

  /** Different nodes have different copies. */
  lemma {:induction false} RenamedApart(a: seq<Node>, b: seq<Node>, ids: map<Id, Id>, refs: map<Id, Id>, x: Id, y: Id)
    requires Renamed(a, b, ids, refs) && UniqueIds(b) && x in IdsIn(a) && y in IdsIn(a) && x != y
    ensures x in ids && y in ids && ids[x] != ids[y]
    decreases a
  {
    RenamedIds(a, b, ids, refs, x);
    RenamedIds(a, b, ids, refs, y);
    var inner := IdsInLists(a[0].lists);
    if x in inner { RenamedIdsInLists(a[0].lists, b[0].lists, ids, refs, x); }
    if y in inner { RenamedIdsInLists(a[0].lists, b[0].lists, ids, refs, y); }
    if x in IdsIn(a[1..]) { RenamedIds(a[1..], b[1..], ids, refs, x); }
    if y in IdsIn(a[1..]) { RenamedIds(a[1..], b[1..], ids, refs, y); }
    if x in inner && y in inner {
      RenamedApartInLists(a[0].lists, b[0].lists, ids, refs, x, y);
    } else if x in IdsIn(a[1..]) && y in IdsIn(a[1..]) {
      RenamedApart(a[1..], b[1..], ids, refs, x, y);
    }
  }

  lemma {:induction false} RenamedApartInLists(a: seq<ChildList>, b: seq<ChildList>, ids: map<Id, Id>, refs: map<Id, Id>, x: Id, y: Id)
    requires RenamedLists(a, b, ids, refs) && UniqueIdsInLists(b) && x in IdsInLists(a) && y in IdsInLists(a) && x != y
    ensures x in ids && y in ids && ids[x] != ids[y]
    decreases a
  {
    RenamedIdsInLists(a, b, ids, refs, x);
    RenamedIdsInLists(a, b, ids, refs, y);
    var first, rest := IdsIn(a[0].steps), IdsInLists(a[1..]);
    if x in first { RenamedIds(a[0].steps, b[0].steps, ids, refs, x); }
    if y in first { RenamedIds(a[0].steps, b[0].steps, ids, refs, y); }
    if x in rest { RenamedIdsInLists(a[1..], b[1..], ids, refs, x); }
    if y in rest { RenamedIdsInLists(a[1..], b[1..], ids, refs, y); }
    if x in first && y in first {
      RenamedApart(a[0].steps, b[0].steps, ids, refs, x, y);
    } else if x in rest && y in rest {
      RenamedApartInLists(a[1..], b[1..], ids, refs, x, y);
    }
  }

  // ---------------------------------------------------------------- the names of branches

  /** The ids of all branches in the tree. */
  function BranchIds(steps: seq<Node>): set<Id> {
    if steps == [] then {} else BranchIdsInLists(steps[0].lists) + BranchIds(steps[1..])
  }

  function BranchIdsInLists(lists: seq<ChildList>): set<Id> {
    if lists == [] then {}
    else
      (if lists[0].kind.BranchList? then {lists[0].kind.branch.id} else {}) + BranchIds(lists[0].steps) + BranchIdsInLists(lists[1..])
  }

  /** The ids of branches further inside, without those of the lists themselves. */
  function BranchIdsWithin(lists: seq<ChildList>): set<Id> {
    if lists == [] then {} else BranchIds(lists[0].steps) + BranchIdsWithin(lists[1..])
  }

  lemma {:induction false} NamedBranchIds(lists: seq<ChildList>, uid: Supply, k: nat)
    ensures var r := NameBranches(lists, uid, k);
            k <= r.1 && BranchIdsInLists(r.0) <= Names(uid, k, r.1) + BranchIdsWithin(lists)
  {
    if lists != [] {
      var next := if lists[0].kind.BranchList? then k + 1 else k;
      NamedBranchIds(lists[1..], uid, next);
      assert NameBranches(lists, uid, k).0[1..] == NameBranches(lists[1..], uid, next).0;
    }
  }

  lemma {:induction false} CopiedBranchIds(steps: seq<Node>, uid: Supply, k: nat)
    ensures BranchIds(CopySteps(steps, uid, k).value) <= Names(uid, k, CopySteps(steps, uid, k).next)
    decreases steps, 0
  {
    if steps != [] {
      var head := CopyNode(steps[0], uid, k);
      CopyNodeCovers(steps[0], uid, k);
      CopyCovers(steps[1..], uid, head.next);
      CopiedBranchIdsInNode(steps[0], uid, k);
      CopiedBranchIds(steps[1..], uid, head.next);
      assert CopySteps(steps, uid, k).value[1..] == CopySteps(steps[1..], uid, head.next).value;
    }
  }

  lemma {:induction false} CopiedBranchIdsInNode(node: Node, uid: Supply, k: nat)
    ensures BranchIdsInLists(CopyNode(node, uid, k).value.lists) <= Names(uid, k, CopyNode(node, uid, k).next)
    decreases node, 0
  {
    var inner := CopyLists(node.lists, uid, k + 1);
    CopyListsCovers(node.lists, uid, k + 1);
    CopiedBranchIdsInLists(node.lists, uid, k + 1);
    NamedBranchIds(inner.value, uid, inner.next);
  }

  lemma {:induction false} CopiedBranchIdsInLists(lists: seq<ChildList>, uid: Supply, k: nat)
    ensures BranchIdsWithin(CopyLists(lists, uid, k).value) <= Names(uid, k, CopyLists(lists, uid, k).next)
    decreases lists, 0
  {
    if lists != [] {
      var head := CopySteps(lists[0].steps, uid, k);
      CopyCovers(lists[0].steps, uid, k);
      CopyListsCovers(lists[1..], uid, head.next);
      CopiedBranchIds(lists[0].steps, uid, k);
      CopiedBranchIdsInLists(lists[1..], uid, head.next);
      assert CopyLists(lists, uid, k).value[1..] == CopyLists(lists[1..], uid, head.next).value;
    }
  }

  lemma {:induction false} RemapKeepsBranchIds(steps: seq<Node>, refs: map<Id, Id>)
    ensures BranchIds(RemapSteps(steps, refs)) == BranchIds(steps)
    decreases steps
  {
    if steps != [] {
      RemapKeepsBranchIdsInLists(steps[0].lists, refs);
      RemapKeepsBranchIds(steps[1..], refs);
      assert RemapSteps(steps, refs)[1..] == RemapSteps(steps[1..], refs);
    }
  }

  lemma {:induction false} RemapKeepsBranchIdsInLists(lists: seq<ChildList>, refs: map<Id, Id>)
    ensures BranchIdsInLists(RemapLists(lists, refs)) == BranchIdsInLists(lists)
    decreases lists
  {
    if lists != [] {
      RemapKeepsBranchIds(lists[0].steps, refs);
      RemapKeepsBranchIdsInLists(lists[1..], refs);
      assert RemapLists(lists, refs)[1..] == RemapLists(lists[1..], refs);
    }
  }

  // ---------------------------------------------------------------- the theorem

  /** Cloning well-formed nodes gives a well-formed tree of unused names, those of its branches
      included: the original, renamed, with the references among the cloned nodes following the
      renaming and all others left alone. */
  lemma CloneIsRenaming(nodes: seq<Node>, uid: Supply, used: set<Id>)
    requires TreeOk(nodes) && IsSupply(uid, used)
    ensures var c := CloneNodes(nodes, uid);
            && TreeOk(c.value) && IdsIn(c.value) !! used && BranchIds(c.value) !! used
            && c.ids.Keys == IdsIn(nodes)
            && Renamed(nodes, c.value, c.ids, c.ids)
            && (forall x, y :: x in c.ids && y in c.ids && x != y ==> c.ids[x] != c.ids[y])
            && (forall x :: x in c.ids ==> exists j :: c.ids[x] == uid(j))
  {
    var copy, c := CopySteps(nodes, uid, 0), CloneNodes(nodes, uid);
    CopyCovers(nodes, uid, 0);
    CopyRenames(nodes, uid, 0);
    CopyTreeOk(nodes, uid, 0, used);
    NamesApart(uid, 0, copy.next, copy.next, used);
    RemapKeeps(copy.value, c.ids);
    CopiedBranchIds(nodes, uid, 0);
    RemapKeepsBranchIds(copy.value, c.ids);
    RemapRenames(nodes, copy.value, c.ids, c.ids);
    RenamedShapes(nodes, c.value, c.ids, c.ids);
    forall x, y | x in c.ids && y in c.ids && x != y
      ensures c.ids[x] != c.ids[y]
    {
      RenamedApart(nodes, c.value, c.ids, c.ids, x, y);
    }
    forall x | x in c.ids
      ensures exists j :: c.ids[x] == uid(j)
    {
      RenamedIds(nodes, copy.value, c.ids, map[], x);
      assert c.ids[x] in Names(uid, 0, copy.next);
    }
  }
}
