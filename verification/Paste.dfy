/** Pasting a clone: what its references mean at the place where it is pasted. */
module Paste {
  import opened Helpers
  import opened Workflow
  import opened TreeEdits
  import opened Scope
  import opened References
  import opened Clone
  import opened Numbering

  // ---------------------------------------------------------------- the scope at a position

  datatype Place = Place(upstream: seq<Id>, loops: seq<Id>)

  function Front(list: seq<Node>, index: nat): seq<Node> { list[..Min(index, |list|)] }

  /** What a node would see if it were inserted at the target. */
  function SlotScope(steps: seq<Node>, before: seq<Id>, loops: seq<Id>, t: Target): (r: Option<Place>)
    ensures r.Some? && t.parent != ROOT ==> t.owner in IdsIn(steps)
  {
    if t.parent == ROOT then Some(Place(before + TopIds(Front(steps, t.index)), loops))
    else SlotScopeBelow(steps, before, loops, t)
  }

  function SlotScopeBelow(steps: seq<Node>, before: seq<Id>, loops: seq<Id>, t: Target): (r: Option<Place>)
    ensures r.Some? ==> t.owner in IdsIn(steps)
    decreases steps
  {
    if steps == [] then None
    else
      var seen := before + [steps[0].id];
      var inner := SlotScopeInLists(steps[0].id, steps[0].lists, seen, loops, t);
      if inner.Some? then inner else SlotScopeBelow(steps[1..], seen, loops, t)
  }

  function SlotScopeInLists(owner: Id, lists: seq<ChildList>, before: seq<Id>, loops: seq<Id>, t: Target): (r: Option<Place>)
    ensures r.Some? ==> t.owner == owner || t.owner in IdsInLists(lists)
    decreases lists
  {
    if lists == [] then None
    else
      var inside := LoopsInside(owner, lists[0].kind, loops);
      if Matches(owner, lists[0].kind, t) then Some(Place(before + TopIds(Front(lists[0].steps, t.index)), inside))
      else
        var below := SlotScopeBelow(lists[0].steps, before, inside, t);
        if below.Some? then below else SlotScopeInLists(owner, lists[1..], before, loops, t)
  }

  lemma {:induction false} VisitConcat(a: seq<Node>, b: seq<Node>, before: seq<Id>, loops: seq<Id>)
    ensures Visit(a + b, before, loops) == Visit(a, before, loops) + Visit(b, before + TopIds(a), loops)
    decreases a
  {
    if a == [] {
      assert a + b == b && before + TopIds(a) == before;
    } else {
      assert (a + b)[1..] == a[1..] + b;
      var seen := before + [a[0].id];
      VisitConcat(a[1..], b, seen, loops);
      assert seen + TopIds(a[1..]) == before + TopIds(a);
    }
  }

  lemma VisitSpliced(list: seq<Node>, index: nat, node: Node, before: seq<Id>, loops: seq<Id>, f: Entry)
    requires f in Visit([node], before + TopIds(Front(list, index)), loops)
    ensures f in Visit(Splice(list, index, node), before, loops)
  {
    var i := Min(index, |list|);
    VisitConcat(list[..i], [node] + list[i..], before, loops);
    VisitConcat([node], list[i..], before + TopIds(list[..i]), loops);
  }

  /** Inserting a node puts its whole traversal, from that scope on, into the traversal of the tree. */
  lemma {:induction false} VisitInserted(steps: seq<Node>, before: seq<Id>, loops: seq<Id>, t: Target, node: Node, f: Entry)
    requires var p := SlotScope(steps, before, loops, t); p.Some? && f in Visit([node], p.value.upstream, p.value.loops)
    ensures f in Visit(InsertIntoSteps(steps, t, node), before, loops)
  {
    if t.parent == ROOT {
      VisitSpliced(steps, t.index, node, before, loops, f);
    } else {
      VisitInsertedBelow(steps, before, loops, t, node, f);
    }
  }

  lemma {:induction false} VisitInsertedBelow(steps: seq<Node>, before: seq<Id>, loops: seq<Id>, t: Target, node: Node, f: Entry)
    requires t.parent != ROOT
    requires var p := SlotScopeBelow(steps, before, loops, t); p.Some? && f in Visit([node], p.value.upstream, p.value.loops)
    ensures f in Visit(InsertBelow(steps, t, node), before, loops)
    decreases steps
  {
    var seen := before + [steps[0].id];
    assert InsertBelow(steps, t, node)[1..] == InsertBelow(steps[1..], t, node);
    if SlotScopeInLists(steps[0].id, steps[0].lists, seen, loops, t).Some? {
      VisitInsertedInLists(steps[0].id, steps[0].lists, seen, loops, t, node, f);
    } else {
      VisitInsertedBelow(steps[1..], seen, loops, t, node, f);
    }
  }

  lemma {:induction false} VisitInsertedInLists(owner: Id, lists: seq<ChildList>, before: seq<Id>, loops: seq<Id>, t: Target, node: Node, f: Entry)
    requires t.parent != ROOT
    requires var p := SlotScopeInLists(owner, lists, before, loops, t); p.Some? && f in Visit([node], p.value.upstream, p.value.loops)
    ensures f in VisitLists(owner, InsertIntoLists(owner, lists, t, node), before, loops)
    decreases lists
  {
    var inside := LoopsInside(owner, lists[0].kind, loops);
    assert InsertIntoLists(owner, lists, t, node)[1..] == InsertIntoLists(owner, lists[1..], t, node);
    if Matches(owner, lists[0].kind, t) {
      VisitSpliced(lists[0].steps, t.index, node, before, inside, f);
    } else if SlotScopeBelow(lists[0].steps, before, inside, t).Some? {
      VisitInsertedBelow(lists[0].steps, before, inside, t, node, f);
    } else {
      VisitInsertedInLists(owner, lists[1..], before, loops, t, node, f);
    }
  }

  // ---------------------------------------------------------------- moving a traversal

  /** Starting the traversal from a larger scope adds that scope in front of every entry. */
  lemma {:induction false} VisitUnder(steps: seq<Node>, p: seq<Id>, q: seq<Id>, before: seq<Id>, loops: seq<Id>, e: Entry)
    requires e in Visit(steps, before, loops)
    ensures Entry(e.id, p + e.upstream, q + e.loops) in Visit(steps, p + before, q + loops)
    decreases steps
  {
    var seen := before + [steps[0].id];
    assert p + seen == (p + before) + [steps[0].id];
    if e in VisitLists(steps[0].id, steps[0].lists, seen, loops) {
      VisitUnderInLists(steps[0].id, steps[0].lists, p, q, seen, loops, e);
    } else if e in Visit(steps[1..], seen, loops) {
      VisitUnder(steps[1..], p, q, seen, loops, e);
    }
  }

  lemma {:induction false} VisitUnderInLists(owner: Id, lists: seq<ChildList>, p: seq<Id>, q: seq<Id>, before: seq<Id>, loops: seq<Id>, e: Entry)
    requires e in VisitLists(owner, lists, before, loops)
    ensures Entry(e.id, p + e.upstream, q + e.loops) in VisitLists(owner, lists, p + before, q + loops)
    decreases lists
  {
    var inside := LoopsInside(owner, lists[0].kind, loops);
    assert q + inside == LoopsInside(owner, lists[0].kind, q + loops);
    if e in Visit(lists[0].steps, before, inside) {
      VisitUnder(lists[0].steps, p, q, before, inside, e);
    } else {
      VisitUnderInLists(owner, lists[1..], p, q, before, loops, e);
    }
  }

  function MapIds(ids: seq<Id>, table: map<Id, Id>): (r: seq<Id>)
    ensures |r| == |ids| && forall i :: 0 <= i < |ids| ==> r[i] == if ids[i] in table then table[ids[i]] else ids[i]
  {
    if ids == [] then [] else [if ids[0] in table then table[ids[0]] else ids[0]] + MapIds(ids[1..], table)
  }

  lemma MapIdsConcat(a: seq<Id>, b: seq<Id>, table: map<Id, Id>)
    ensures MapIds(a + b, table) == MapIds(a, table) + MapIds(b, table)
  {
  }

  function MapEntry(e: Entry, table: map<Id, Id>): Entry
    requires e.id in table
  {
    Entry(table[e.id], MapIds(e.upstream, table), MapIds(e.loops, table))
  }

  /** The traversal of a renamed tree is the renamed traversal. */
  lemma {:induction false} VisitRenamed(a: seq<Node>, b: seq<Node>, ids: map<Id, Id>, refs: map<Id, Id>, before: seq<Id>, loops: seq<Id>, e: Entry)
    requires Renamed(a, b, ids, refs) && e in Visit(a, before, loops)
    ensures e.id in ids && MapEntry(e, ids) in Visit(b, MapIds(before, ids), MapIds(loops, ids))
    decreases a
  {
    EntryIds(a, before, loops, e);
    RenamedIds(a, b, ids, refs, e.id);
    var seen := before + [a[0].id];
    MapIdsConcat(before, [a[0].id], ids);
    assert MapIds(seen, ids) == MapIds(before, ids) + [b[0].id];
    if e in VisitLists(a[0].id, a[0].lists, seen, loops) {
      VisitRenamedLists(a[0].id, b[0].id, a[0].lists, b[0].lists, ids, refs, seen, loops, e);
    } else if e in Visit(a[1..], seen, loops) {
      VisitRenamed(a[1..], b[1..], ids, refs, seen, loops, e);
    }
  }

  lemma {:induction false} VisitRenamedLists(x: Id, y: Id, a: seq<ChildList>, b: seq<ChildList>, ids: map<Id, Id>, refs: map<Id, Id>, before: seq<Id>, loops: seq<Id>, e: Entry)
    requires RenamedLists(a, b, ids, refs) && e in VisitLists(x, a, before, loops) && x in ids && y == ids[x]
    ensures e.id in ids && MapEntry(e, ids) in VisitLists(y, b, MapIds(before, ids), MapIds(loops, ids))
    decreases a
  {
    var inside := LoopsInside(x, a[0].kind, loops);
    MapIdsConcat(loops, [x], ids);
    assert MapIds(inside, ids) == LoopsInside(y, b[0].kind, MapIds(loops, ids));
    if e in Visit(a[0].steps, before, inside) {
      VisitRenamed(a[0].steps, b[0].steps, ids, refs, before, inside, e);
    } else {
      VisitRenamedLists(x, y, a[1..], b[1..], ids, refs, before, loops, e);
    }
  }

  // ---------------------------------------------------------------- a subtree in its workflow

  /** The traversal of a node inside a tree is part of the traversal of the tree, from a scope that
      has nothing of the node itself. */
  lemma {:induction false} VisitPart(steps: seq<Node>, before: seq<Id>, loops: seq<Id>, part: Node) returns (p: Place)
    requires UniqueIds(steps) && part in Preorder(steps)
    requires forall u :: u in before || u in loops ==> u !in IdsIn(steps)
    ensures forall f :: f in Visit([part], p.upstream, p.loops) ==> f in Visit(steps, before, loops)
    ensures forall u :: u in p.upstream || u in p.loops ==> u !in IdsIn([part])
    ensures IdsIn([part]) <= IdsIn(steps)
    decreases steps
  {
    var seen := before + [steps[0].id];
    assert IdsIn([steps[0]]) == {steps[0].id} + IdsInLists(steps[0].lists);
    if part == steps[0] {
      p := Place(before, loops);
      assert steps == [part] + steps[1..];
      VisitConcat([part], steps[1..], before, loops);
    } else if part in PreorderOfLists(steps[0].lists) {
      p := VisitPartInLists(steps[0].id, steps[0].lists, seen, loops, part);
    } else {
      p := VisitPart(steps[1..], seen, loops, part);
    }
  }

  lemma {:induction false} VisitPartInLists(owner: Id, lists: seq<ChildList>, before: seq<Id>, loops: seq<Id>, part: Node) returns (p: Place)
    requires UniqueIdsInLists(lists) && part in PreorderOfLists(lists)
    requires owner !in IdsInLists(lists) && forall u :: u in before || u in loops ==> u !in IdsInLists(lists)
    ensures forall f :: f in Visit([part], p.upstream, p.loops) ==> f in VisitLists(owner, lists, before, loops)
    ensures forall u :: u in p.upstream || u in p.loops ==> u !in IdsIn([part])
    ensures IdsIn([part]) <= IdsInLists(lists)
    decreases lists
  {
    if part in Preorder(lists[0].steps) {
      p := VisitPart(lists[0].steps, before, LoopsInside(owner, lists[0].kind, loops), part);
    } else {
      p := VisitPartInLists(owner, lists[1..], before, loops, part);
    }
  }

  lemma {:induction false} UpstreamInside(steps: seq<Node>, before: seq<Id>, loops: seq<Id>, e: Entry)
    requires e in Visit(steps, before, loops)
    ensures forall u :: u in e.upstream ==> u in before || u in IdsIn(steps)
    ensures forall u :: u in e.loops ==> u in loops || u in IdsIn(steps)
    decreases steps
  {
    var seen := before + [steps[0].id];
    if e in VisitLists(steps[0].id, steps[0].lists, seen, loops) {
      UpstreamInsideLists(steps[0].id, steps[0].lists, seen, loops, e);
    } else if e in Visit(steps[1..], seen, loops) {
      UpstreamInside(steps[1..], seen, loops, e);
    }
  }

  lemma {:induction false} UpstreamInsideLists(owner: Id, lists: seq<ChildList>, before: seq<Id>, loops: seq<Id>, e: Entry)
    requires e in VisitLists(owner, lists, before, loops)
    ensures forall u :: u in e.upstream ==> u in before || u in IdsInLists(lists)
    ensures forall u :: u in e.loops ==> u in loops || u == owner || u in IdsInLists(lists)
    decreases lists
  {
    var inside := LoopsInside(owner, lists[0].kind, loops);
    if e in Visit(lists[0].steps, before, inside) {
      UpstreamInside(lists[0].steps, before, inside, e);
    } else {
      UpstreamInsideLists(owner, lists[1..], before, loops, e);
    }
  }

  // ---------------------------------------------------------------- the theorem

  /** The workflow after a clone of `clip` is pasted at `t`. */
  function Pasted(g: Graph, t: Target, clip: Node, uid: Supply): Graph {
    Insert(g, t, CloneNodes([clip], uid).value[0])
  }

  function PasteScope(g: Graph, t: Target): Option<Place> { SlotScope(g.steps, TriggerScope(g), [], t) }

  /** The names in use: those of the workflow, the clipboard and one more word. */
  function InUse(g: Graph, clip: Node, h: Id): set<Id> {
    IdsIn(g.steps) + {g.trigger.id} + IdsIn([clip]) + {h}
  }

  /** The scope and the loops of an inserted node: those of the position, then those inside its tree. */
  lemma InsertedEntry(g: Graph, t: Target, node: Node, e: Entry)
    requires WellFormed(g) && TreeOk([node]) && IdsIn([node]) !! IdsIn(g.steps) + {g.trigger.id} && PasteScope(g, t).Some?
    requires e in Visit([node], [], [])
    ensures WellFormed(Insert(g, t, node))
    ensures var p, g' := PasteScope(g, t).value, Insert(g, t, node);
            Upstream(g', e.id) == p.upstream + e.upstream && Loops(g', e.id) == p.loops + e.loops
  {
    var p := PasteScope(g, t).value;
    VisitUnder([node], p.upstream, p.loops, [], [], e);
    assert p.upstream + [] == p.upstream && p.loops + [] == p.loops;
    var f := Entry(e.id, p.upstream + e.upstream, p.loops + e.loops);
    VisitInserted(g.steps, TriggerScope(g), [], t, node, f);
    WellFormedAfterInsert(g, t, node);
    ContextOf(Insert(g, t, node), f);
  }

  /** The scope and the loops of a pasted node: those of the position, then what its original saw
      inside the clip, renamed. */
  lemma PastedUpstream(g: Graph, t: Target, clip: Node, uid: Supply, h: Id, e: Entry)
    requires WellFormed(g) && TreeOk([clip]) && IsSupply(uid, InUse(g, clip, h)) && PasteScope(g, t).Some?
    requires e in Visit([clip], [], [])
    ensures WellFormed(Pasted(g, t, clip, uid))
    ensures var ids, p, g' := CloneNodes([clip], uid).ids, PasteScope(g, t).value, Pasted(g, t, clip, uid);
            && e.id in ids
            && Upstream(g', ids[e.id]) == p.upstream + MapIds(e.upstream, ids)
            && Loops(g', ids[e.id]) == p.loops + MapIds(e.loops, ids)
  {
    var clone := CloneNodes([clip], uid);
    CloneIsRenaming([clip], uid, InUse(g, clip, h));
    var node := clone.value[0];
    assert clone.value == [node];
    VisitRenamed([clip], [node], clone.ids, clone.ids, [], [], e);
    InsertedEntry(g, t, node, MapEntry(e, clone.ids));
  }

  lemma {:induction false} PlaceIds(steps: seq<Node>, before: seq<Id>, loops: seq<Id>, t: Target)
    requires SlotScope(steps, before, loops, t).Some?
    ensures forall u :: u in SlotScope(steps, before, loops, t).value.upstream ==> u in before || u in IdsIn(steps)
  {
    if t.parent == ROOT {
      TopIdsIn(steps, t.index);
    } else {
      PlaceIdsBelow(steps, before, loops, t);
    }
  }

  lemma TopIdsIn(list: seq<Node>, index: nat)
    ensures forall u :: u in TopIds(Front(list, index)) ==> u in IdsIn(list)
  {
    forall i | 0 <= i < |Front(list, index)|
      ensures Front(list, index)[i].id in IdsIn(list)
    {
      IdsByNode(list, list[i].id);
      assert list[i].id in IdsIn([list[i]]);
    }
  }

  lemma {:induction false} PlaceIdsBelow(steps: seq<Node>, before: seq<Id>, loops: seq<Id>, t: Target)
    requires SlotScopeBelow(steps, before, loops, t).Some?
    ensures forall u :: u in SlotScopeBelow(steps, before, loops, t).value.upstream ==> u in before || u in IdsIn(steps)
    decreases steps
  {
    var seen := before + [steps[0].id];
    if SlotScopeInLists(steps[0].id, steps[0].lists, seen, loops, t).Some? {
      PlaceIdsInLists(steps[0].id, steps[0].lists, seen, loops, t);
    } else {
      PlaceIdsBelow(steps[1..], seen, loops, t);
    }
  }

  lemma {:induction false} PlaceIdsInLists(owner: Id, lists: seq<ChildList>, before: seq<Id>, loops: seq<Id>, t: Target)
    requires SlotScopeInLists(owner, lists, before, loops, t).Some?
    ensures forall u :: u in SlotScopeInLists(owner, lists, before, loops, t).value.upstream ==> u in before || u in IdsInLists(lists)
    decreases lists
  {
    var inside := LoopsInside(owner, lists[0].kind, loops);
    if Matches(owner, lists[0].kind, t) {
      TopIdsIn(lists[0].steps, t.index);
    } else if SlotScopeBelow(lists[0].steps, before, inside, t).Some? {
      PlaceIdsBelow(lists[0].steps, before, inside, t);
    } else {
      PlaceIdsInLists(owner, lists[1..], before, loops, t);
    }
  }

  /** What node `c` of the clip sees of the clip, and which loops of the clip are around it, in the
      workflow it was copied from. */
  lemma OriginalUpstream(g0: Graph, clip: Node, e: Entry, h: Id)
    requires WellFormed(g0) && clip in Preorder(g0.steps) && e in Visit([clip], [], []) && h in IdsIn([clip])
    ensures h in Upstream(g0, e.id) <==> h in e.upstream
    ensures h in Loops(g0, e.id) <==> h in e.loops
  {
    var p := VisitPart(g0.steps, TriggerScope(g0), [], clip);
    VisitUnder([clip], p.upstream, p.loops, [], [], e);
    assert p.upstream + [] == p.upstream && p.loops + [] == p.loops;
    ContextOf(g0, Entry(e.id, p.upstream + e.upstream, p.loops + e.loops));
  }

  ghost predicate Injective(table: map<Id, Id>) {
    forall x, y :: x in table && y in table && x != y ==> table[x] != table[y]
  }

  lemma MappedMember(list: seq<Id>, table: map<Id, Id>, h: Id)
    requires Injective(table) && h in table && forall u :: u in list ==> u in table
    ensures table[h] in MapIds(list, table) <==> h in list
  {
    var mapped := MapIds(list, table);
    if h in list {
      var i :| 0 <= i < |list| && list[i] == h;
      assert mapped[i] == table[h];
    }
    if table[h] in mapped {
      var i :| 0 <= i < |mapped| && mapped[i] == table[h];
      assert list[i] in list;
    }
  }

  lemma MappedOnlyTo(list: seq<Id>, table: map<Id, Id>, h: Id)
    requires (forall u :: u in list ==> u in table) && h !in table.Values
    ensures h !in MapIds(list, table)
  {
    var mapped := MapIds(list, table);
    forall i | 0 <= i < |mapped|
      ensures mapped[i] != h
    {
      assert list[i] in table;
      assert table[list[i]] in table.Values;
    }
  }

  /** The scope of a pasted node in terms of its original's entry inside the clip. */
  lemma PastedSees(g: Graph, t: Target, clip: Node, uid: Supply, h: Id, e: Entry)
    requires WellFormed(g) && TreeOk([clip]) && PasteScope(g, t).Some? && IsSupply(uid, InUse(g, clip, h))
    requires e in Visit([clip], [], [])
    ensures var ids := CloneNodes([clip], uid).ids;
            && ids.Keys == IdsIn([clip]) && e.id in ids
            && (h in ids ==> (ids[h] in Upstream(Pasted(g, t, clip, uid), ids[e.id]) <==> h in e.upstream))
            && (h !in ids ==> (h in Upstream(Pasted(g, t, clip, uid), ids[e.id]) <==> h in PasteScope(g, t).value.upstream))
  {
    var ids := CloneNodes([clip], uid).ids;
    CloneIsRenaming([clip], uid, InUse(g, clip, h));
    PastedUpstream(g, t, clip, uid, h, e);
    UpstreamInside([clip], [], [], e);
    if h in ids {
      MappedMember(e.upstream, ids, h);
      PlaceIds(g.steps, TriggerScope(g), [], t);
      assert ids[h] !in InUse(g, clip, h);
      assert ids[h] !in PasteScope(g, t).value.upstream;
    } else {
      assert h !in ids.Values;
      MappedOnlyTo(e.upstream, ids, h);
    }
  }

  /** Pasting keeps the meaning of references. Take a reference with head `h` in a copied node whose
      original is `c`. If `h` was copied too, the reference now names the copy of `h`, and it is in
      scope exactly when it was in scope in the workflow that was copied from. Otherwise it still
      names `h`, and it is in scope exactly when `h` is visible at the place of pasting. */
  lemma PasteKeepsMeaning(g0: Graph, g: Graph, t: Target, clip: Node, uid: Supply, c: Id, h: Id, path: string)
    requires WellFormed(g0) && clip in Preorder(g0.steps) && c in IdsIn([clip])
    requires WellFormed(g) && TreeOk([clip]) && PasteScope(g, t).Some? && IsSupply(uid, InUse(g, clip, h))
    ensures var ids, g' := CloneNodes([clip], uid).ids, Pasted(g, t, clip, uid);
            && c in ids
            && (h in IdsIn([clip]) ==>
                  && h in ids && RemapToken(Reference(h, path), ids) == Reference(ids[h], path)
                  && (ids[h] in Upstream(g', ids[c]) <==> h in Upstream(g0, c)))
            && (h !in IdsIn([clip]) ==>
                  && RemapToken(Reference(h, path), ids) == Reference(h, path)
                  && (h in Upstream(g', ids[c]) <==> h in PasteScope(g, t).value.upstream))
  {
    var e := EntryExists([clip], [], [], c);
    PastedSees(g, t, clip, uid, h, e);
    if h in IdsIn([clip]) {
      OriginalUpstream(g0, clip, e, h);
    }
  }

  /** A loop around the node `c` is part of what was copied. */
  ghost predicate LoopCopied(g0: Graph, clip: Node, c: Id) {
    exists l :: l in Loops(g0, c) && l in IdsIn([clip])
  }

  lemma LoopCopiedInside(g0: Graph, clip: Node, e: Entry)
    requires WellFormed(g0) && clip in Preorder(g0.steps) && e in Visit([clip], [], [])
    ensures LoopCopied(g0, clip, e.id) <==> e.loops != []
  {
    UpstreamInside([clip], [], [], e);
    if e.loops != [] {
      assert e.loops[0] in e.loops;
      OriginalUpstream(g0, clip, e, e.loops[0]);
    }
    if LoopCopied(g0, clip, e.id) {
      var l :| l in Loops(g0, e.id) && l in IdsIn([clip]);
      OriginalUpstream(g0, clip, e, l);
    }
  }

  /** A reference to the loop variable is not rewritten, and it is allowed in the pasted node if and
      only if a loop around the original was copied along, or the place of pasting is in a loop. */
  lemma PastedLoopReference(g0: Graph, g: Graph, t: Target, clip: Node, uid: Supply, c: Id, path: string)
    requires WellFormed(g0) && clip in Preorder(g0.steps) && c in IdsIn([clip]) && "loop" !in IdsIn([clip])
    requires WellFormed(g) && TreeOk([clip]) && PasteScope(g, t).Some? && IsSupply(uid, InUse(g, clip, "loop"))
    ensures var ids, g' := CloneNodes([clip], uid).ids, Pasted(g, t, clip, uid);
            var token := RemapToken(Reference("loop", path), ids);
            && c in ids && token == Reference("loop", path)
            && (Allowed(token, Upstream(g', ids[c]), Loops(g', ids[c]))
                <==> LoopCopied(g0, clip, c) || PasteScope(g, t).value.loops != [])
  {
    var e := EntryExists([clip], [], [], c);
    CloneIsRenaming([clip], uid, InUse(g, clip, "loop"));
    PastedUpstream(g, t, clip, uid, "loop", e);
    LoopCopiedInside(g0, clip, e);
  }

  /** A cut node that is pasted back under its own ids, none of which is in use: a reference between
      its nodes is in scope exactly when it was, any other exactly when its node is visible at the
      place of pasting, and one to the loop variable as for a copy. */
  lemma ReuseKeepsMeaning(g0: Graph, g: Graph, t: Target, clip: Node, c: Id, h: Id)
    requires WellFormed(g0) && clip in Preorder(g0.steps) && c in IdsIn([clip])
    requires WellFormed(g) && TreeOk([clip]) && PasteScope(g, t).Some? && IdsIn([clip]) !! IdsIn(g.steps) + {g.trigger.id}
    ensures var g', p := Insert(g, t, clip), PasteScope(g, t).value;
            && (h in IdsIn([clip]) ==> (h in Upstream(g', c) <==> h in Upstream(g0, c)))
            && (h !in IdsIn([clip]) ==> (h in Upstream(g', c) <==> h in p.upstream))
            && (Loops(g', c) != [] <==> LoopCopied(g0, clip, c) || p.loops != [])
  {
    var e := EntryExists([clip], [], [], c);
    InsertedEntry(g, t, clip, e);
    UpstreamInside([clip], [], [], e);
    LoopCopiedInside(g0, clip, e);
    if h in IdsIn([clip]) {
      OriginalUpstream(g0, clip, e, h);
      PlaceIds(g.steps, TriggerScope(g), [], t);
    }
  }

  // ---------------------------------------------------------------- pasting above or below a node

  /** The position next to an anchor; without one, or on the trigger, the very first position. */
  function PasteTarget(g: Graph, anchor: Id, below: bool): Target {
    match Locate(g.steps, anchor)
    case Some(t) => t.(index := t.index + if below then 1 else 0)
    case None => Target(ROOT, ROOT, 0)
  }

  function SeenNextTo(e: Entry, d: nat): seq<Id> {
    if d == 0 then e.upstream else e.upstream + [e.id]
  }

  lemma EntryTop(steps: seq<Node>, before: seq<Id>, loops: seq<Id>, e: Entry, k: nat)
    requires UniqueIds(steps) && e in Visit(steps, before, loops) && k < |steps| && steps[k].id == e.id
    ensures e.upstream == before + TopIds(steps[..k]) && e.loops == loops
  {
    var seen := before + TopIds(steps[..k]);
    assert steps == steps[..k] + steps[k..];
    VisitConcat(steps[..k], steps[k..], before, loops);
    var f := Entry(e.id, seen, loops);
    assert Visit(steps[k..], seen, loops)[0] == f;
    OneEntry(steps, before, loops, e, f);
  }

  lemma {:induction false} TopIdsConcat(a: seq<Node>, b: seq<Node>)
    ensures TopIds(a + b) == TopIds(a) + TopIds(b)
  {
    if a == [] {
      assert a + b == b;
    } else {
      assert (a + b)[1..] == a[1..] + b;
      TopIdsConcat(a[1..], b);
    }
  }

  lemma FrontIds(steps: seq<Node>, k: nat, before: seq<Id>)
    requires k < |steps|
    ensures Front(steps, k) == steps[..k]
    ensures before + TopIds(Front(steps, k + 1)) == (before + TopIds(steps[..k])) + [steps[k].id]
  {
    assert steps[..k + 1] == steps[..k] + [steps[k]];
    TopIdsConcat(steps[..k], [steps[k]]);
    assert TopIds([steps[k]]) == [steps[k].id];
  }

  lemma SeenFrom(steps: seq<Node>, k: nat, before: seq<Id>, loops: seq<Id>, e: Entry, d: nat)
    requires UniqueIds(steps) && e in Visit(steps, before, loops) && k < |steps| && steps[k].id == e.id && d <= 1
    ensures before + TopIds(Front(steps, k + d)) == SeenNextTo(e, d) && loops == e.loops
  {
    EntryTop(steps, before, loops, e, k);
    FrontIds(steps, k, before);
  }

  lemma LocatedAt(steps: seq<Node>, id: Id, key: Id, owner: Id) returns (k: nat)
    requires UniqueIds(steps) && TopLevel(steps, id)
    ensures k < |steps| && steps[k].id == id && LocateNode(steps, id, key, owner, 0) == Some(Target(key, owner, k))
  {
    k := TopIndex(steps, id);
    LocateTop(steps, id, key, owner, 0);
  }

  /** Where a node at the top of a list is located, and what is seen next to it. */
  lemma PlaceOfTop(steps: seq<Node>, before: seq<Id>, loops: seq<Id>, e: Entry, key: Id, owner: Id, d: nat) returns (k: nat)
    requires UniqueIds(steps) && e in Visit(steps, before, loops) && TopLevel(steps, e.id) && d <= 1
    ensures LocateNode(steps, e.id, key, owner, 0) == Some(Target(key, owner, k))
    ensures before + TopIds(Front(steps, k + d)) == SeenNextTo(e, d) && loops == e.loops
  {
    k := LocatedAt(steps, e.id, key, owner);
    SeenFrom(steps, k, before, loops, e, d);
  }

  function Shift(t: Target, d: nat): Target { Target(t.parent, t.owner, t.index + d) }

  /** The node is located in the tree, and the scope next to it is the one its entry gives. */
  predicate Anchored(steps: seq<Node>, before: seq<Id>, loops: seq<Id>, e: Entry, at: Option<Target>, d: nat) {
    && at.Some? && at.value.parent != ROOT && at.value.owner in IdsIn(steps)
    && SlotScopeBelow(steps, before, loops, Shift(at.value, d)) == Some(Place(SeenNextTo(e, d), e.loops))
  }

  predicate AnchoredInLists(owner: Id, lists: seq<ChildList>, before: seq<Id>, loops: seq<Id>, e: Entry, at: Option<Target>, d: nat) {
    && at.Some? && at.value.parent != ROOT
    && (at.value.owner in IdsInLists(lists) || (at.value.owner == owner && at.value.parent in Keys(owner, lists)))
    && SlotScopeInLists(owner, lists, before, loops, Shift(at.value, d)) == Some(Place(SeenNextTo(e, d), e.loops))
  }

  lemma AnchorFromLists(steps: seq<Node>, before: seq<Id>, loops: seq<Id>, e: Entry, parent: Id, owner: Id, index: nat, d: nat)
    requires steps != [] && steps[0].id != e.id
    requires AnchoredInLists(steps[0].id, steps[0].lists, before + [steps[0].id], loops, e, LocateInLists(steps[0].id, steps[0].lists, e.id), d)
    ensures Anchored(steps, before, loops, e, LocateNode(steps, e.id, parent, owner, index), d)
  {
  }

  lemma AnchorFromTail(steps: seq<Node>, before: seq<Id>, loops: seq<Id>, e: Entry, parent: Id, owner: Id, index: nat, d: nat)
    requires steps != [] && steps[0].id != e.id && e.id !in IdsInLists(steps[0].lists)
    requires {steps[0].id} + IdsInLists(steps[0].lists) !! IdsIn(steps[1..])
    requires Anchored(steps[1..], before + [steps[0].id], loops, e, LocateNode(steps[1..], e.id, parent, owner, index + 1), d)
    ensures Anchored(steps, before, loops, e, LocateNode(steps, e.id, parent, owner, index), d)
  {
  }

  lemma {:induction false} AnchorBelow(steps: seq<Node>, before: seq<Id>, loops: seq<Id>, e: Entry, parent: Id, owner: Id, index: nat, d: nat)
    requires UniqueIds(steps) && KeysOk(steps) && e in Visit(steps, before, loops) && !TopLevel(steps, e.id) && d <= 1
    ensures Anchored(steps, before, loops, e, LocateNode(steps, e.id, parent, owner, index), d)
    decreases steps
  {
    var seen, head, lists := before + [steps[0].id], steps[0].id, steps[0].lists;
    if e in VisitLists(head, lists, seen, loops) {
      AnchorInLists(head, lists, seen, loops, e, d);
      AnchorFromLists(steps, before, loops, e, parent, owner, index, d);
    } else {
      EntryIds(steps[1..], seen, loops, e);
      AnchorBelow(steps[1..], seen, loops, e, parent, owner, index + 1, d);
      AnchorFromTail(steps, before, loops, e, parent, owner, index, d);
    }
  }

  lemma {:induction false} AnchorInLists(owner: Id, lists: seq<ChildList>, before: seq<Id>, loops: seq<Id>, e: Entry, d: nat)
    requires UniqueIdsInLists(lists) && KeysOkInLists(lists) && DistinctKeys(owner, lists) && ROOT !in Keys(owner, lists)
    requires owner !in IdsInLists(lists) && e in VisitLists(owner, lists, before, loops) && d <= 1
    ensures AnchoredInLists(owner, lists, before, loops, e, LocateInLists(owner, lists, e.id), d)
    decreases lists
  {
    var inside, key := LoopsInside(owner, lists[0].kind, loops), Key(owner, lists[0].kind);
    if e in Visit(lists[0].steps, before, inside) {
      EntryIds(lists[0].steps, before, inside, e);
      if TopLevel(lists[0].steps, e.id) {
        AnchorFirstTop(owner, lists, before, loops, e, d);
      } else {
        AnchorBelow(lists[0].steps, before, inside, e, key, owner, 0, d);
        AnchorFirstBelow(owner, lists, before, loops, e, d);
      }
    } else {
      EntryIdsInLists(owner, lists[1..], before, loops, e);
      AnchorInLists(owner, lists[1..], before, loops, e, d);
      AnchorRest(owner, lists, before, loops, e, d);
    }
  }

  lemma AnchorFirstTop(owner: Id, lists: seq<ChildList>, before: seq<Id>, loops: seq<Id>, e: Entry, d: nat)
    requires lists != [] && UniqueIds(lists[0].steps) && TopLevel(lists[0].steps, e.id) && d <= 1
    requires e in Visit(lists[0].steps, before, LoopsInside(owner, lists[0].kind, loops)) && ROOT !in Keys(owner, lists)
    ensures AnchoredInLists(owner, lists, before, loops, e, LocateInLists(owner, lists, e.id), d)
  {
    var key, inside := Key(owner, lists[0].kind), LoopsInside(owner, lists[0].kind, loops);
    var k := PlaceOfTop(lists[0].steps, before, inside, e, key, owner, d);
    AnchorHere(owner, lists, before, loops, e, k, d);
  }

  lemma AnchorHere(owner: Id, lists: seq<ChildList>, before: seq<Id>, loops: seq<Id>, e: Entry, k: nat, d: nat)
    requires lists != [] && ROOT !in Keys(owner, lists) && e.loops == LoopsInside(owner, lists[0].kind, loops)
    requires var key := Key(owner, lists[0].kind); LocateNode(lists[0].steps, e.id, key, owner, 0) == Some(Target(key, owner, k))
    requires before + TopIds(Front(lists[0].steps, k + d)) == SeenNextTo(e, d)
    ensures AnchoredInLists(owner, lists, before, loops, e, LocateInLists(owner, lists, e.id), d)
  {
  }

  lemma AnchorFirstBelow(owner: Id, lists: seq<ChildList>, before: seq<Id>, loops: seq<Id>, e: Entry, d: nat)
    requires lists != [] && owner !in IdsIn(lists[0].steps)
    requires Anchored(lists[0].steps, before, LoopsInside(owner, lists[0].kind, loops), e,
                      LocateNode(lists[0].steps, e.id, Key(owner, lists[0].kind), owner, 0), d)
    ensures AnchoredInLists(owner, lists, before, loops, e, LocateInLists(owner, lists, e.id), d)
  {
  }

  lemma AnchorRest(owner: Id, lists: seq<ChildList>, before: seq<Id>, loops: seq<Id>, e: Entry, d: nat)
    requires lists != [] && e.id !in IdsIn(lists[0].steps) && owner !in IdsInLists(lists) && DistinctKeys(owner, lists)
    requires IdsIn(lists[0].steps) !! IdsInLists(lists[1..])
    requires AnchoredInLists(owner, lists[1..], before, loops, e, LocateInLists(owner, lists[1..], e.id), d)
    ensures AnchoredInLists(owner, lists, before, loops, e, LocateInLists(owner, lists, e.id), d)
  {
  }

  /** Pasting above a node gives the pasted node the scope of that node; pasting below it adds the
      node itself; pasting on the trigger leaves the trigger, if it has a connector. */
  lemma PasteNextTo(g: Graph, anchor: Id, below: bool)
    requires WellFormed(g)
    ensures var p := PasteScope(g, PasteTarget(g, anchor, below));
            && p.Some?
            && (anchor in IdsIn(g.steps) ==>
                  && p.value.upstream == (if below then Upstream(g, anchor) + [anchor] else Upstream(g, anchor))
                  && p.value.loops == Loops(g, anchor))
            && (anchor !in IdsIn(g.steps) ==> p.value == Place(TriggerScope(g), []))
  {
    if anchor in IdsIn(g.steps) {
      var e := EntryExists(g.steps, TriggerScope(g), [], anchor);
      ContextOf(g, e);
      var d := if below then 1 else 0;
      if TopLevel(g.steps, anchor) {
        var k := PlaceOfTop(g.steps, TriggerScope(g), [], e, ROOT, ROOT, d);
      } else {
        AnchorBelow(g.steps, TriggerScope(g), [], e, ROOT, ROOT, 0, d);
      }
    } else {
      assert Front(g.steps, 0) == [];
    }
  }

  // ---------------------------------------------------------------- pasting and numbers

  lemma {:induction false} RenamedUnnumbered(a: seq<Node>, b: seq<Node>, ids: map<Id, Id>, refs: map<Id, Id>, m: Label)
    requires Renamed(a, b, ids, refs) && m in LabelsOf(b)
    ensures m.ref.None?
    decreases a
  {
    if m in LabelsOfLists(b[0].lists) {
      RenamedUnnumberedInLists(a[0].lists, b[0].lists, ids, refs, m);
    } else if m in LabelsOf(b[1..]) {
      RenamedUnnumbered(a[1..], b[1..], ids, refs, m);
    }
  }

  lemma {:induction false} RenamedUnnumberedInLists(a: seq<ChildList>, b: seq<ChildList>, ids: map<Id, Id>, refs: map<Id, Id>, m: Label)
    requires RenamedLists(a, b, ids, refs) && m in LabelsOfLists(b)
    ensures m.ref.None?
    decreases a
  {
    if m in LabelsOf(b[0].steps) {
      RenamedUnnumbered(a[0].steps, b[0].steps, ids, refs, m);
    } else {
      RenamedUnnumberedInLists(a[1..], b[1..], ids, refs, m);
    }
  }

  /** Pasting a clone and numbering the result leaves every other node's number alone. */
  lemma PasteKeepsNumbers(g: Graph, t: Target, clip: Node, uid: Supply, l: Label)
    requires WellFormed(g) && Numbered(g) && l in Labels(g) && TreeOk([clip]) && IsSupply(uid, IdsIn(g.steps) + {g.trigger.id})
    ensures l in Labels(WithRefs(Pasted(g, t, clip, uid)))
  {
    var clone := CloneNodes([clip], uid);
    CloneIsRenaming([clip], uid, IdsIn(g.steps) + {g.trigger.id});
    var node := clone.value[0];
    assert clone.value == [node];
    forall m | m in LabelsOf([node]) ensures m.ref.None? { RenamedUnnumbered([clip], [node], clone.ids, clone.ids, m); }
    InsertKeepsNumbers(g, t, node, l);
  }
}
