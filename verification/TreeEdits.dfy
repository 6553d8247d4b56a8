/** Inserting, locating and removing nodes anywhere in a workflow tree, and the laws that
    make the editor's cut, paste and undo safe: the operations invert one another. */
module TreeEdits {
  import opened Helpers
  import opened Workflow

  /** A position: the list with key `parent` of the node `owner`, and an index into it. */
  datatype Target = Target(parent: Id, owner: Id, index: nat)

  // ---------------------------------------------------------------- operations

  /** Puts a node in front of the given index, or at the end if the list is shorter. */
  function Splice(list: seq<Node>, index: nat, node: Node): seq<Node> {
    list[..Min(index, |list|)] + ([node] + list[Min(index, |list|)..])
  }

  predicate Matches(owner: Id, kind: ListKind, t: Target) {
    Key(owner, kind) == t.parent && owner == t.owner
  }

  function InsertIntoSteps(steps: seq<Node>, t: Target, node: Node): seq<Node>
    decreases steps, 1
  {
    if t.parent == ROOT then Splice(steps, t.index, node) else InsertBelow(steps, t, node)
  }

  function InsertBelow(steps: seq<Node>, t: Target, node: Node): seq<Node>
    decreases steps, 0
  {
    if steps == [] then []
    else
      [steps[0].(lists := InsertIntoLists(steps[0].id, steps[0].lists, t, node))]
      + InsertBelow(steps[1..], t, node)
  }

  function InsertIntoLists(owner: Id, lists: seq<ChildList>, t: Target, node: Node): seq<ChildList>
    decreases lists
  {
    if lists == [] then []
    else
      [lists[0].(steps := if Matches(owner, lists[0].kind, t) then Splice(lists[0].steps, t.index, node)
                          else InsertIntoSteps(lists[0].steps, t, node))]
      + InsertIntoLists(owner, lists[1..], t, node)
  }

  /** Searches the list in order, each node before its own lists. */
  function LocateNode(steps: seq<Node>, id: Id, parent: Id, owner: Id, index: nat): (r: Option<Target>)
    ensures r.Some? <==> id in IdsIn(steps)
    decreases steps
  {
    if steps == [] then None
    else if steps[0].id == id then Some(Target(parent, owner, index))
    else
      var inner := LocateInLists(steps[0].id, steps[0].lists, id);
      if inner.Some? then inner else LocateNode(steps[1..], id, parent, owner, index + 1)
  }

  function LocateInLists(owner: Id, lists: seq<ChildList>, id: Id): (r: Option<Target>)
    ensures r.Some? <==> id in IdsInLists(lists)
    decreases lists
  {
    if lists == [] then None
    else
      var here := LocateNode(lists[0].steps, id, Key(owner, lists[0].kind), owner, 0);
      if here.Some? then here else LocateInLists(owner, lists[1..], id)
  }

  function Locate(steps: seq<Node>, id: Id): Option<Target> {
    LocateNode(steps, id, ROOT, ROOT, 0)
  }

  function RemoveFromSteps(steps: seq<Node>, id: Id): seq<Node> {
    if steps == [] then []
    else if steps[0].id == id then RemoveFromSteps(steps[1..], id)
    else [steps[0].(lists := RemoveFromLists(steps[0].lists, id))] + RemoveFromSteps(steps[1..], id)
  }

  function RemoveFromLists(lists: seq<ChildList>, id: Id): seq<ChildList> {
    if lists == [] then []
    else [lists[0].(steps := RemoveFromSteps(lists[0].steps, id))] + RemoveFromLists(lists[1..], id)
  }

  /** The length of the list that a target names, if the tree has such a list. */
  function SlotLength(steps: seq<Node>, t: Target): Option<nat>
    decreases steps, 1
  {
    if t.parent == ROOT then Some(|steps|) else SlotBelow(steps, t)
  }

  function SlotBelow(steps: seq<Node>, t: Target): (r: Option<nat>)
    ensures r.Some? ==> t.owner in IdsIn(steps)
    decreases steps, 0
  {
    if steps == [] then None
    else if SlotInLists(steps[0].id, steps[0].lists, t).Some? then SlotInLists(steps[0].id, steps[0].lists, t)
    else SlotBelow(steps[1..], t)
  }

  function SlotInLists(owner: Id, lists: seq<ChildList>, t: Target): (r: Option<nat>)
    ensures r.Some? ==> t.owner == owner || t.owner in IdsInLists(lists)
    decreases lists
  {
    if lists == [] then None
    else if Matches(owner, lists[0].kind, t) then Some(|lists[0].steps|)
    else if SlotBelow(lists[0].steps, t).Some? then SlotBelow(lists[0].steps, t)
    else SlotInLists(owner, lists[1..], t)
  }

  /** Where a node inserted at `t` ends up: nowhere if the list does not exist, and at the end of
      the list if the index lies beyond it. */
  function Landing(steps: seq<Node>, t: Target): Option<Target> {
    match SlotLength(steps, t)
    case None => None
    case Some(n) => Some(Target(t.parent, if t.parent == ROOT then ROOT else t.owner, Min(t.index, n)))
  }

  // ---------------------------------------------------------------- removing what was inserted

  lemma {:induction false} RemoveAbsent(steps: seq<Node>, id: Id)
    requires id !in IdsIn(steps)
    ensures RemoveFromSteps(steps, id) == steps
  {
    if steps != [] {
      RemoveAbsentInLists(steps[0].lists, id);
      RemoveAbsent(steps[1..], id);
    }
  }

  lemma {:induction false} RemoveAbsentInLists(lists: seq<ChildList>, id: Id)
    requires id !in IdsInLists(lists)
    ensures RemoveFromLists(lists, id) == lists
  {
    if lists != [] {
      RemoveAbsent(lists[0].steps, id);
      RemoveAbsentInLists(lists[1..], id);
    }
  }

  lemma {:induction false} RemoveConcat(a: seq<Node>, b: seq<Node>, id: Id)
    ensures RemoveFromSteps(a + b, id) == RemoveFromSteps(a, id) + RemoveFromSteps(b, id)
  {
    if a == [] {
      assert a + b == b;
    } else {
      assert (a + b)[1..] == a[1..] + b;
      RemoveConcat(a[1..], b, id);
    }
  }

  lemma RemoveSpliced(list: seq<Node>, index: nat, node: Node)
    requires node.id !in IdsIn(list)
    ensures RemoveFromSteps(Splice(list, index, node), node.id) == list
  {
    var i := Min(index, |list|);
    assert list == list[..i] + list[i..];
    IdsOfConcat(list[..i], list[i..]);
    RemoveConcat(list[..i], [node] + list[i..], node.id);
    RemoveConcat([node], list[i..], node.id);
    RemoveAbsent(list[..i], node.id);
    RemoveAbsent(list[i..], node.id);
  }

  /** Removing a freshly inserted node restores the tree, whatever the target. */
  lemma {:induction false} RemoveInserted(steps: seq<Node>, t: Target, node: Node)
    requires node.id !in IdsIn(steps)
    ensures RemoveFromSteps(InsertIntoSteps(steps, t, node), node.id) == steps
    decreases steps, 1
  {
    if t.parent == ROOT {
      RemoveSpliced(steps, t.index, node);
    } else {
      RemoveInsertedBelow(steps, t, node);
    }
  }

  lemma {:induction false} RemoveInsertedBelow(steps: seq<Node>, t: Target, node: Node)
    requires node.id !in IdsIn(steps)
    ensures RemoveFromSteps(InsertBelow(steps, t, node), node.id) == steps
    decreases steps, 0
  {
    if steps != [] {
      RemoveInsertedInLists(steps[0].id, steps[0].lists, t, node);
      RemoveInsertedBelow(steps[1..], t, node);
      var inserted := InsertBelow(steps, t, node);
      assert inserted[1..] == InsertBelow(steps[1..], t, node);
    }
  }

  lemma {:induction false} RemoveInsertedInLists(owner: Id, lists: seq<ChildList>, t: Target, node: Node)
    requires node.id !in IdsInLists(lists)
    ensures RemoveFromLists(InsertIntoLists(owner, lists, t, node), node.id) == lists
    decreases lists
  {
    if lists != [] {
      if Matches(owner, lists[0].kind, t) {
        RemoveSpliced(lists[0].steps, t.index, node);
      } else {
        RemoveInserted(lists[0].steps, t, node);
      }
      RemoveInsertedInLists(owner, lists[1..], t, node);
      assert InsertIntoLists(owner, lists, t, node)[1..] == InsertIntoLists(owner, lists[1..], t, node);
    }
  }

  // ---------------------------------------------------------------- locating what was inserted

  lemma {:induction false} LocateInPrefix(a: seq<Node>, b: seq<Node>, id: Id, parent: Id, owner: Id, index: nat)
    requires id !in IdsIn(a)
    ensures LocateNode(a + b, id, parent, owner, index) == LocateNode(b, id, parent, owner, index + |a|)
  {
    if a == [] {
      assert a + b == b;
    } else {
      assert (a + b)[1..] == a[1..] + b;
      LocateInPrefix(a[1..], b, id, parent, owner, index + 1);
    }
  }

  lemma LocateSpliced(list: seq<Node>, index: nat, node: Node, parent: Id, owner: Id)
    requires node.id !in IdsIn(list)
    ensures LocateNode(Splice(list, index, node), node.id, parent, owner, 0)
         == Some(Target(parent, owner, Min(index, |list|)))
  {
    var i := Min(index, |list|);
    assert list == list[..i] + list[i..];
    IdsOfConcat(list[..i], list[i..]);
    LocateInPrefix(list[..i], [node] + list[i..], node.id, parent, owner, 0);
  }

  /** A target whose owner is not in the tree leaves the tree alone. */
  lemma {:induction false} InsertNowhere(steps: seq<Node>, t: Target, node: Node)
    requires t.parent != ROOT && t.owner !in IdsIn(steps)
    ensures InsertBelow(steps, t, node) == steps
    decreases steps
  {
    if steps != [] {
      InsertNowhereInLists(steps[0].id, steps[0].lists, t, node);
      InsertNowhere(steps[1..], t, node);
    }
  }

  lemma {:induction false} InsertNowhereInLists(owner: Id, lists: seq<ChildList>, t: Target, node: Node)
    requires t.parent != ROOT && t.owner !in IdsInLists(lists)
    requires t.owner != owner || t.parent !in Keys(owner, lists)
    ensures InsertIntoLists(owner, lists, t, node) == lists
    decreases lists
  {
    if lists != [] {
      InsertNowhere(lists[0].steps, t, node);
      InsertNowhereInLists(owner, lists[1..], t, node);
    }
  }

  lemma {:induction false} IdsAfterInsert(steps: seq<Node>, t: Target, node: Node)
    ensures IdsIn(InsertIntoSteps(steps, t, node)) <= IdsIn(steps) + IdsIn([node])
    decreases steps, 1
  {
    if t.parent == ROOT {
      IdsOfSplice(steps, t.index, node);
    } else {
      IdsAfterInsertBelow(steps, t, node);
    }
  }

  lemma IdsOfSplice(list: seq<Node>, index: nat, node: Node)
    ensures IdsIn(Splice(list, index, node)) == IdsIn(list) + IdsIn([node])
  {
    var i := Min(index, |list|);
    assert list == list[..i] + list[i..];
    IdsOfConcat(list[..i], list[i..]);
    IdsOfConcat(list[..i], [node] + list[i..]);
    IdsOfConcat([node], list[i..]);
  }

  lemma {:induction false} IdsAfterInsertBelow(steps: seq<Node>, t: Target, node: Node)
    ensures IdsIn(InsertBelow(steps, t, node)) <= IdsIn(steps) + IdsIn([node])
    decreases steps, 0
  {
    if steps != [] {
      IdsAfterInsertInLists(steps[0].id, steps[0].lists, t, node);
      IdsAfterInsertBelow(steps[1..], t, node);
      assert InsertBelow(steps, t, node)[1..] == InsertBelow(steps[1..], t, node);
    }
  }

  lemma {:induction false} IdsAfterInsertInLists(owner: Id, lists: seq<ChildList>, t: Target, node: Node)
    ensures IdsInLists(InsertIntoLists(owner, lists, t, node)) <= IdsInLists(lists) + IdsIn([node])
    decreases lists
  {
    if lists != [] {
      if Matches(owner, lists[0].kind, t) {
        IdsOfSplice(lists[0].steps, t.index, node);
      } else {
        IdsAfterInsert(lists[0].steps, t, node);
      }
      IdsAfterInsertInLists(owner, lists[1..], t, node);
      assert InsertIntoLists(owner, lists, t, node)[1..] == InsertIntoLists(owner, lists[1..], t, node);
    }
  }

  /** A freshly inserted node is found exactly where it landed, and nowhere if there was no such list. */
  lemma LocateInserted(steps: seq<Node>, t: Target, node: Node)
    requires UniqueIds(steps) && KeysOk(steps) && node.id !in IdsIn(steps)
    ensures Locate(InsertIntoSteps(steps, t, node), node.id) == Landing(steps, t)
  {
    if t.parent == ROOT {
      LocateSpliced(steps, t.index, node, ROOT, ROOT);
    } else {
      LocateInsertedBelow(steps, t, node, ROOT, ROOT, 0);
    }
  }

  lemma {:induction false} LocateInsertedBelow(steps: seq<Node>, t: Target, node: Node, parent: Id, owner: Id, index: nat)
    requires UniqueIds(steps) && KeysOk(steps) && node.id !in IdsIn(steps) && t.parent != ROOT
    ensures LocateNode(InsertBelow(steps, t, node), node.id, parent, owner, index)
         == match SlotBelow(steps, t)
            case None => None
            case Some(n) => Some(t.(index := Min(t.index, n)))
    decreases steps
  {
    if steps != [] {
      var inserted := InsertBelow(steps, t, node);
      assert inserted[1..] == InsertBelow(steps[1..], t, node);
      LocateInsertedInLists(steps[0].id, steps[0].lists, t, node);
      LocateInsertedBelow(steps[1..], t, node, parent, owner, index + 1);
    }
  }

  lemma {:induction false} LocateInsertedInLists(owner: Id, lists: seq<ChildList>, t: Target, node: Node)
    requires UniqueIdsInLists(lists) && KeysOkInLists(lists) && DistinctKeys(owner, lists)
    requires node.id !in IdsInLists(lists) && owner !in IdsInLists(lists)
    requires t.parent != ROOT
    ensures LocateInLists(owner, InsertIntoLists(owner, lists, t, node), node.id)
         == match SlotInLists(owner, lists, t)
            case None => None
            case Some(n) => Some(t.(index := Min(t.index, n)))
    decreases lists
  {
    if lists != [] {
      var inserted := InsertIntoLists(owner, lists, t, node);
      assert inserted[1..] == InsertIntoLists(owner, lists[1..], t, node);
      if Matches(owner, lists[0].kind, t) {
        LocateSpliced(lists[0].steps, t.index, node, Key(owner, lists[0].kind), owner);
      } else {
        LocateInsertedBelow(lists[0].steps, t, node, Key(owner, lists[0].kind), owner, 0);
      }
      LocateInsertedInLists(owner, lists[1..], t, node);
    }
  }

  // ---------------------------------------------------------------- re-inserting what was removed

  /** Cutting a node and pasting it at the position where it was located restores the tree. */
  lemma {:induction false} ReinsertRemoved(steps: seq<Node>, id: Id)
    requires UniqueIds(steps) && KeysOk(steps) && id in IdsIn(steps)
    ensures Locate(steps, id).Some? && FindNode(steps, id).Some?
    ensures InsertIntoSteps(RemoveFromSteps(steps, id), Locate(steps, id).value, FindNode(steps, id).value) == steps
  {
    ReinsertHere(steps, id, ROOT, ROOT, 0);
    var removed, t, node := RemoveFromSteps(steps, id), Locate(steps, id).value, FindNode(steps, id).value;
    if TopLevel(steps, id) {
      assert InsertIntoSteps(removed, t, node) == Splice(removed, t.index, node);
    } else {
      LocatedBelow(steps, id, ROOT, ROOT, 0);
      assert InsertIntoSteps(removed, t, node) == InsertBelow(removed, t, node);
    }
  }

  predicate TopLevel(steps: seq<Node>, id: Id) {
    steps != [] && (steps[0].id == id || TopLevel(steps[1..], id))
  }

  /** A node that is not at the top is located under an owner of the tree, with one of its keys. */
  lemma {:induction false} LocatedBelow(steps: seq<Node>, id: Id, parent: Id, owner: Id, index: nat)
    requires UniqueIds(steps) && KeysOk(steps) && id in IdsIn(steps) && !TopLevel(steps, id)
    ensures var t := LocateNode(steps, id, parent, owner, index).value;
            t.parent != ROOT && t.owner in IdsIn(steps)
    decreases steps
  {
    if id in IdsInLists(steps[0].lists) {
      LocatedInLists(steps[0].id, steps[0].lists, id);
    } else {
      LocatedBelow(steps[1..], id, parent, owner, index + 1);
    }
  }

  lemma {:induction false} LocatedInLists(owner: Id, lists: seq<ChildList>, id: Id)
    requires UniqueIdsInLists(lists) && KeysOkInLists(lists) && ROOT !in Keys(owner, lists)
    requires id in IdsInLists(lists)
    ensures var t := LocateInLists(owner, lists, id).value;
            t.parent != ROOT && (t.owner in IdsInLists(lists) || (t.owner == owner && t.parent in Keys(owner, lists)))
    decreases lists
  {
    if id in IdsIn(lists[0].steps) {
      if TopLevel(lists[0].steps, id) {
        LocateTop(lists[0].steps, id, Key(owner, lists[0].kind), owner, 0);
      } else {
        LocatedBelow(lists[0].steps, id, Key(owner, lists[0].kind), owner, 0);
      }
    } else {
      LocatedInLists(owner, lists[1..], id);
    }
  }

  function TopIndex(steps: seq<Node>, id: Id): (i: nat)
    requires TopLevel(steps, id)
    ensures i < |steps| && steps[i].id == id
  {
    if steps[0].id == id then 0 else 1 + TopIndex(steps[1..], id)
  }

  lemma {:induction false} TopLevelIn(steps: seq<Node>, id: Id)
    requires TopLevel(steps, id)
    ensures id in IdsIn(steps)
  {
    if steps[0].id != id { TopLevelIn(steps[1..], id); }
  }

  lemma {:induction false} LocateTop(steps: seq<Node>, id: Id, parent: Id, owner: Id, index: nat)
    requires UniqueIds(steps) && TopLevel(steps, id)
    ensures LocateNode(steps, id, parent, owner, index) == Some(Target(parent, owner, index + TopIndex(steps, id)))
    decreases steps
  {
    if steps[0].id != id {
      TopLevelIn(steps[1..], id);
      LocateTop(steps[1..], id, parent, owner, index + 1);
    }
  }

  lemma {:induction false} SpliceTop(steps: seq<Node>, id: Id)
    requires UniqueIds(steps) && TopLevel(steps, id)
    ensures FindNode(steps, id).Some? && Splice(RemoveFromSteps(steps, id), TopIndex(steps, id), FindNode(steps, id).value) == steps
    decreases steps
  {
    TopLevelIn(steps, id);
    var node := FindNode(steps, id).value;
    if steps[0].id == id {
      RemoveAbsent(steps[1..], id);
      assert Splice(steps[1..], 0, node) == [node] + steps[1..];
    } else {
      TopLevelIn(steps[1..], id);
      SpliceTop(steps[1..], id);
      RemoveAbsentInLists(steps[0].lists, id);
      SpliceCons(steps[0], RemoveFromSteps(steps[1..], id), TopIndex(steps[1..], id), node);
    }
  }

  lemma SpliceCons(head: Node, rest: seq<Node>, index: nat, node: Node)
    ensures Splice([head] + rest, index + 1, node) == [head] + Splice(rest, index, node)
  {
    var i := Min(index, |rest|);
    assert ([head] + rest)[..i + 1] == [head] + rest[..i];
    assert ([head] + rest)[i + 1..] == rest[i..];
  }

  /** The general form: either the node sits in this very list, or inserting below restores it. */
  lemma {:induction false} ReinsertHere(steps: seq<Node>, id: Id, parent: Id, owner: Id, index: nat)
    requires UniqueIds(steps) && KeysOk(steps) && id in IdsIn(steps)
    ensures var t, node := LocateNode(steps, id, parent, owner, index).value, FindNode(steps, id).value;
            if TopLevel(steps, id) then
              && t.parent == parent && t.owner == owner && index <= t.index
              && Splice(RemoveFromSteps(steps, id), t.index - index, node) == steps
            else InsertBelow(RemoveFromSteps(steps, id), t, node) == steps
    decreases steps
  {
    if TopLevel(steps, id) {
      LocateTop(steps, id, parent, owner, index);
      SpliceTop(steps, id);
    } else {
      var t, node := LocateNode(steps, id, parent, owner, index).value, FindNode(steps, id).value;
      LocatedBelow(steps, id, parent, owner, index);
      var head, removed := steps[0].(lists := RemoveFromLists(steps[0].lists, id)), RemoveFromSteps(steps, id);
      assert removed[0] == head && removed[1..] == RemoveFromSteps(steps[1..], id);
      if id in IdsInLists(steps[0].lists) {
        LocatedInLists(steps[0].id, steps[0].lists, id);
        ReinsertInLists(steps[0].id, steps[0].lists, id);
        RemoveAbsent(steps[1..], id);
        InsertNowhere(steps[1..], t, node);
      } else {
        LocatedBelow(steps[1..], id, parent, owner, index + 1);
        ReinsertHere(steps[1..], id, parent, owner, index + 1);
        RemoveAbsentInLists(steps[0].lists, id);
        InsertNowhereInLists(steps[0].id, steps[0].lists, t, node);
      }
    }
  }

  lemma {:induction false} ReinsertInLists(owner: Id, lists: seq<ChildList>, id: Id)
    requires UniqueIdsInLists(lists) && KeysOkInLists(lists) && DistinctKeys(owner, lists)
    requires ROOT !in Keys(owner, lists) && owner !in IdsInLists(lists) && id in IdsInLists(lists)
    ensures InsertIntoLists(owner, RemoveFromLists(lists, id), LocateInLists(owner, lists, id).value, FindInLists(lists, id).value)
         == lists
    decreases lists
  {
    var t, node := LocateInLists(owner, lists, id).value, FindInLists(lists, id).value;
    var removed := RemoveFromLists(lists, id);
    assert removed[1..] == RemoveFromLists(lists[1..], id);
    LocatedInLists(owner, lists, id);
    if id in IdsIn(lists[0].steps) {
      RemoveAbsentInLists(lists[1..], id);
      var key := Key(owner, lists[0].kind);
      ReinsertHere(lists[0].steps, id, key, owner, 0);
      if !TopLevel(lists[0].steps, id) {
        LocatedBelow(lists[0].steps, id, key, owner, 0);
      }
      InsertNowhereInLists(owner, lists[1..], t, node);
    } else {
      LocatedInLists(owner, lists[1..], id);
      RemoveAbsent(lists[0].steps, id);
      ReinsertInLists(owner, lists[1..], id);
      InsertNowhere(lists[0].steps, t, node);
    }
  }

  // ---------------------------------------------------------------- edits keep the tree well formed

  lemma {:induction false} KindsAfterInsert(owner: Id, lists: seq<ChildList>, t: Target, node: Node)
    ensures SameKinds(lists, InsertIntoLists(owner, lists, t, node))
    decreases lists
  {
    if lists != [] {
      KindsAfterInsert(owner, lists[1..], t, node);
      assert InsertIntoLists(owner, lists, t, node)[1..] == InsertIntoLists(owner, lists[1..], t, node);
    }
  }

  lemma {:induction false} KindsAfterRemove(lists: seq<ChildList>, id: Id)
    ensures SameKinds(lists, RemoveFromLists(lists, id))
    decreases lists
  {
    if lists != [] {
      KindsAfterRemove(lists[1..], id);
      assert RemoveFromLists(lists, id)[1..] == RemoveFromLists(lists[1..], id);
    }
  }

  predicate TreeOk(steps: seq<Node>) { UniqueIds(steps) && KeysOk(steps) && ShapesOk(steps) }

  lemma {:induction false} KeysAndShapesConcat(a: seq<Node>, b: seq<Node>)
    ensures KeysOk(a + b) <==> KeysOk(a) && KeysOk(b)
    ensures ShapesOk(a + b) <==> ShapesOk(a) && ShapesOk(b)
  {
    if a == [] {
      assert a + b == b;
    } else {
      assert (a + b)[1..] == a[1..] + b;
      KeysAndShapesConcat(a[1..], b);
    }
  }

  // Keys and shapes do not depend on where a node is inserted or removed.

  predicate KeysAndShapes(steps: seq<Node>) { KeysOk(steps) && ShapesOk(steps) }

  predicate KeysAndShapesInLists(lists: seq<ChildList>) { KeysOkInLists(lists) && ShapesOkInLists(lists) }

  lemma SpliceShapes(list: seq<Node>, index: nat, node: Node)
    requires KeysAndShapes(list) && KeysAndShapes([node])
    ensures KeysAndShapes(Splice(list, index, node))
  {
    var i := Min(index, |list|);
    assert list == list[..i] + list[i..];
    KeysAndShapesConcat(list[..i], list[i..]);
    KeysAndShapesConcat([node], list[i..]);
    KeysAndShapesConcat(list[..i], [node] + list[i..]);
  }

  lemma {:induction false} InsertShapes(steps: seq<Node>, t: Target, node: Node)
    requires KeysAndShapes(steps) && KeysAndShapes([node])
    ensures KeysAndShapes(InsertIntoSteps(steps, t, node))
    decreases steps, 1
  {
    if t.parent == ROOT {
      SpliceShapes(steps, t.index, node);
    } else {
      InsertBelowShapes(steps, t, node);
    }
  }

  lemma {:induction false} InsertBelowShapes(steps: seq<Node>, t: Target, node: Node)
    requires KeysAndShapes(steps) && KeysAndShapes([node])
    ensures KeysAndShapes(InsertBelow(steps, t, node))
    decreases steps, 0
  {
    if steps != [] {
      var owner, lists := steps[0].id, steps[0].lists;
      assert InsertBelow(steps, t, node)[1..] == InsertBelow(steps[1..], t, node);
      InsertInListsShapes(owner, lists, t, node);
      KindsAfterInsert(owner, lists, t, node);
      SameKindsSameKeys(owner, lists, InsertIntoLists(owner, lists, t, node));
      SameKindsSameShape(steps[0], InsertBelow(steps, t, node)[0]);
      InsertBelowShapes(steps[1..], t, node);
    }
  }

  lemma {:induction false} InsertInListsShapes(owner: Id, lists: seq<ChildList>, t: Target, node: Node)
    requires KeysAndShapesInLists(lists) && KeysAndShapes([node])
    ensures KeysAndShapesInLists(InsertIntoLists(owner, lists, t, node))
    decreases lists
  {
    if lists != [] {
      assert InsertIntoLists(owner, lists, t, node)[1..] == InsertIntoLists(owner, lists[1..], t, node);
      if Matches(owner, lists[0].kind, t) {
        SpliceShapes(lists[0].steps, t.index, node);
      } else {
        InsertShapes(lists[0].steps, t, node);
      }
      InsertInListsShapes(owner, lists[1..], t, node);
    }
  }

  // Ids stay unique because a node is inserted in one place.

  lemma SpliceUnique(list: seq<Node>, index: nat, node: Node)
    requires UniqueIds(list) && UniqueIds([node]) && IdsIn([node]) !! IdsIn(list)
    ensures UniqueIds(Splice(list, index, node))
  {
    var i := Min(index, |list|);
    var a, b := list[..i], list[i..];
    assert list == a + b;
    UniqueConcat(a, b);
    UniqueConcat([node], b);
    UniqueConcat(a, [node] + b);
    IdsOfConcat([node], b);
    IdsOfConcat(a, b);
  }

  lemma {:induction false} InsertUnique(steps: seq<Node>, t: Target, node: Node)
    requires UniqueIds(steps) && KeysOk(steps) && UniqueIds([node]) && IdsIn([node]) !! IdsIn(steps)
    ensures UniqueIds(InsertIntoSteps(steps, t, node))
    decreases steps, 1
  {
    if t.parent == ROOT {
      SpliceUnique(steps, t.index, node);
    } else {
      InsertBelowUnique(steps, t, node);
    }
  }

  lemma {:induction false} InsertBelowUnique(steps: seq<Node>, t: Target, node: Node)
    requires UniqueIds(steps) && KeysOk(steps) && UniqueIds([node]) && IdsIn([node]) !! IdsIn(steps) && t.parent != ROOT
    ensures UniqueIds(InsertBelow(steps, t, node))
    decreases steps, 0
  {
    if steps != [] {
      var owner, lists := steps[0].id, steps[0].lists;
      assert InsertBelow(steps, t, node)[1..] == InsertBelow(steps[1..], t, node);
      if t.owner == owner || t.owner in IdsInLists(lists) {
        InsertNowhere(steps[1..], t, node);
        InsertInListsUnique(owner, lists, t, node);
        IdsAfterInsertInLists(owner, lists, t, node);
      } else {
        InsertNowhereInLists(owner, lists, t, node);
        InsertBelowUnique(steps[1..], t, node);
        IdsAfterInsertBelow(steps[1..], t, node);
      }
    }
  }

  lemma {:induction false} InsertInListsUnique(owner: Id, lists: seq<ChildList>, t: Target, node: Node)
    requires UniqueIdsInLists(lists) && KeysOkInLists(lists) && DistinctKeys(owner, lists) && owner !in IdsInLists(lists)
    requires UniqueIds([node]) && IdsIn([node]) !! IdsInLists(lists) && t.parent != ROOT
    ensures UniqueIdsInLists(InsertIntoLists(owner, lists, t, node))
    decreases lists
  {
    if lists != [] {
      assert InsertIntoLists(owner, lists, t, node)[1..] == InsertIntoLists(owner, lists[1..], t, node);
      if Matches(owner, lists[0].kind, t) {
        SpliceUnique(lists[0].steps, t.index, node);
        IdsOfSplice(lists[0].steps, t.index, node);
        InsertNowhereInLists(owner, lists[1..], t, node);
      } else if t.owner in IdsIn(lists[0].steps) {
        InsertUnique(lists[0].steps, t, node);
        IdsAfterInsert(lists[0].steps, t, node);
        InsertNowhereInLists(owner, lists[1..], t, node);
      } else {
        InsertNowhere(lists[0].steps, t, node);
        InsertInListsUnique(owner, lists[1..], t, node);
        IdsAfterInsertInLists(owner, lists[1..], t, node);
      }
    }
  }

  lemma {:induction false} RemoveUnique(steps: seq<Node>, id: Id)
    requires UniqueIds(steps)
    ensures UniqueIds(RemoveFromSteps(steps, id)) && IdsIn(RemoveFromSteps(steps, id)) <= IdsIn(steps)
    decreases steps
  {
    if steps != [] {
      RemoveUniqueInLists(steps[0].lists, id);
      RemoveUnique(steps[1..], id);
    }
  }

  lemma {:induction false} RemoveUniqueInLists(lists: seq<ChildList>, id: Id)
    requires UniqueIdsInLists(lists)
    ensures UniqueIdsInLists(RemoveFromLists(lists, id)) && IdsInLists(RemoveFromLists(lists, id)) <= IdsInLists(lists)
    decreases lists
  {
    if lists != [] {
      RemoveUnique(lists[0].steps, id);
      RemoveUniqueInLists(lists[1..], id);
    }
  }

  lemma {:induction false} RemoveShapes(steps: seq<Node>, id: Id)
    requires KeysAndShapes(steps)
    ensures KeysAndShapes(RemoveFromSteps(steps, id))
    decreases steps
  {
    if steps != [] {
      RemoveShapes(steps[1..], id);
      if steps[0].id != id {
        RemoveShapesInLists(steps[0].lists, id);
        KindsAfterRemove(steps[0].lists, id);
        SameKindsSameKeys(steps[0].id, steps[0].lists, RemoveFromLists(steps[0].lists, id));
        SameKindsSameShape(steps[0], RemoveFromSteps(steps, id)[0]);
        assert RemoveFromSteps(steps, id)[1..] == RemoveFromSteps(steps[1..], id);
      }
    }
  }

  lemma {:induction false} RemoveShapesInLists(lists: seq<ChildList>, id: Id)
    requires KeysAndShapesInLists(lists)
    ensures KeysAndShapesInLists(RemoveFromLists(lists, id))
    decreases lists
  {
    if lists != [] {
      RemoveShapes(lists[0].steps, id);
      RemoveShapesInLists(lists[1..], id);
    }
  }

  lemma WellFormedAfterInsert(g: Graph, t: Target, node: Node)
    requires WellFormed(g) && TreeOk([node]) && IdsIn([node]) !! IdsIn(g.steps) + {g.trigger.id}
    ensures WellFormed(g.(steps := InsertIntoSteps(g.steps, t, node)))
  {
    InsertUnique(g.steps, t, node);
    InsertShapes(g.steps, t, node);
    IdsAfterInsert(g.steps, t, node);
  }

  lemma WellFormedAfterRemove(g: Graph, id: Id)
    requires WellFormed(g)
    ensures WellFormed(g.(steps := RemoveFromSteps(g.steps, id)))
  {
    RemoveUnique(g.steps, id);
    RemoveShapes(g.steps, id);
  }

  // ---------------------------------------------------------------- pasting back what was cut

  // If ids are still unique after an insertion that landed, the inserted ids were new.

  lemma SpliceApart(list: seq<Node>, index: nat, node: Node)
    requires UniqueIds(Splice(list, index, node))
    ensures IdsIn([node]) !! IdsIn(list)
  {
    var i := Min(index, |list|);
    var a, b := list[..i], list[i..];
    assert list == a + b;
    IdsOfConcat(a, b);
    IdsOfConcat([node], b);
    UniqueConcat(a, [node] + b);
    UniqueConcat([node], b);
  }

  lemma {:induction false} InsertBelowApart(steps: seq<Node>, t: Target, node: Node)
    requires UniqueIds(steps) && KeysOk(steps) && t.parent != ROOT && SlotBelow(steps, t).Some?
    requires UniqueIds(InsertBelow(steps, t, node))
    ensures IdsIn([node]) !! IdsIn(steps) && IdsIn([node]) <= IdsIn(InsertBelow(steps, t, node))
    decreases steps
  {
    var owner, lists := steps[0].id, steps[0].lists;
    assert InsertBelow(steps, t, node)[1..] == InsertBelow(steps[1..], t, node);
    if SlotInLists(owner, lists, t).Some? {
      InsertNowhere(steps[1..], t, node);
      InsertInListsApart(owner, lists, t, node);
    } else {
      InsertNowhereInLists(owner, lists, t, node);
      InsertBelowApart(steps[1..], t, node);
    }
  }

  lemma {:induction false} InsertInListsApart(owner: Id, lists: seq<ChildList>, t: Target, node: Node)
    requires UniqueIdsInLists(lists) && KeysOkInLists(lists) && DistinctKeys(owner, lists) && owner !in IdsInLists(lists)
    requires t.parent != ROOT && SlotInLists(owner, lists, t).Some?
    requires UniqueIdsInLists(InsertIntoLists(owner, lists, t, node))
    ensures IdsIn([node]) !! IdsInLists(lists) && IdsIn([node]) <= IdsInLists(InsertIntoLists(owner, lists, t, node))
    decreases lists
  {
    assert InsertIntoLists(owner, lists, t, node)[1..] == InsertIntoLists(owner, lists[1..], t, node);
    if Matches(owner, lists[0].kind, t) {
      InsertNowhereInLists(owner, lists[1..], t, node);
      SpliceApart(lists[0].steps, t.index, node);
      IdsOfSplice(lists[0].steps, t.index, node);
    } else if SlotBelow(lists[0].steps, t).Some? {
      InsertNowhereInLists(owner, lists[1..], t, node);
      InsertBelowApart(lists[0].steps, t, node);
    } else {
      InsertNowhere(lists[0].steps, t, node);
      InsertInListsApart(owner, lists[1..], t, node);
    }
  }

  /** Pasting a node under its own ids into a list that exists keeps the workflow well formed if and
      only if none of the ids in its tree is in use. The page looks at the id of the node alone. */
  lemma ReuseIsSafe(g: Graph, t: Target, node: Node)
    requires WellFormed(g) && TreeOk([node]) && SlotLength(g.steps, t).Some?
    ensures WellFormed(g.(steps := InsertIntoSteps(g.steps, t, node)))
       <==> IdsIn([node]) !! IdsIn(g.steps) + {g.trigger.id}
  {
    if IdsIn([node]) !! IdsIn(g.steps) + {g.trigger.id} {
      WellFormedAfterInsert(g, t, node);
    }
    if WellFormed(g.(steps := InsertIntoSteps(g.steps, t, node))) {
      if t.parent == ROOT {
        SpliceApart(g.steps, t.index, node);
        IdsOfSplice(g.steps, t.index, node);
      } else {
        InsertBelowApart(g.steps, t, node);
      }
    }
  }

  /** An action that is in use, and a loop with that action in it, whose own id is not. */
  function OneLeaf(): Graph { Graph(Leaf("trigger", TriggerKind), [Leaf("n", ActionKind)]) }

  function Leaf(id: Id, kind: Kind): Node { Node(id, kind, None, "", None, [], []) }

  function CutLoop(): Node {
    Node("l", LoopKind(false), None, "", None, [], [ChildList(LoopBody, [Leaf("n", ActionKind)])])
  }

  /** The id of the cut node is free, and pasting it back breaks the workflow. */
  lemma ReuseCanBreak()
    ensures WellFormed(OneLeaf()) && TreeOk([CutLoop()]) && CutLoop().id !in IdsIn(OneLeaf().steps) + {OneLeaf().trigger.id}
    ensures !WellFormed(OneLeaf().(steps := InsertIntoSteps(OneLeaf().steps, Target(ROOT, ROOT, 0), CutLoop())))
  {
    var n, l := Leaf("n", ActionKind), CutLoop();
    LeafOk(n);
    LoopOk(l, n);
    assert OneLeaf().steps == [n];
    ReuseIsSafe(OneLeaf(), Target(ROOT, ROOT, 0), l);
    assert "n" in IdsIn([l]) && "n" in IdsIn([n]);
  }

  lemma LeafOk(n: Node)
    requires n.kind.ActionKind? && n.lists == []
    ensures IdsIn([n]) == {n.id} && TreeOk([n])
  {
    assert [n][1..] == [] && IdsInLists(n.lists) == {} && Keys(n.id, n.lists) == {} && DistinctKeys(n.id, n.lists);
    assert UniqueIds([n][1..]) && KeysOk([n][1..]) && ShapesOk([n][1..]);
  }

  lemma LoopOk(l: Node, n: Node)
    requires l.kind.LoopKind? && l.lists == [ChildList(LoopBody, [n])] && TreeOk([n]) && l.id !in IdsIn([n]) && l.id != ROOT
    ensures IdsIn([l]) == {l.id} + IdsIn([n]) && TreeOk([l])
  {
    var rest := l.lists[1..];
    assert [l][1..] == [] && rest == [];
    assert IdsInLists(rest) == {} && UniqueIdsInLists(rest) && Keys(l.id, rest) == {} && DistinctKeys(l.id, rest);
    assert KeysOkInLists(rest) && ShapesOkInLists(rest);
    assert IdsInLists(l.lists) == IdsIn([n]) && UniqueIdsInLists(l.lists) && Keys(l.id, l.lists) == {l.id};
    assert UniqueIds([l][1..]) && KeysOk([l][1..]) && ShapesOk([l][1..]);
  }
}
