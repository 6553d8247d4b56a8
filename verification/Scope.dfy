/** Which nodes may be referenced from where, and how edits change that. */
module Scope {
  import opened Helpers
  import opened Workflow
  import opened TreeEdits

  /** What a node can see: the nodes it may reference, in order, and the loops around it. */
  datatype Entry = Entry(id: Id, upstream: seq<Id>, loops: seq<Id>)

  function Visit(steps: seq<Node>, before: seq<Id>, loops: seq<Id>): seq<Entry>
    decreases steps
  {
    if steps == [] then []
    else
      var seen := before + [steps[0].id];
      [Entry(steps[0].id, before, loops)] + VisitLists(steps[0].id, steps[0].lists, seen, loops)
      + Visit(steps[1..], seen, loops)
  }

  function VisitLists(owner: Id, lists: seq<ChildList>, before: seq<Id>, loops: seq<Id>): seq<Entry>
    decreases lists
  {
    if lists == [] then []
    else
      Visit(lists[0].steps, before, LoopsInside(owner, lists[0].kind, loops))
      + VisitLists(owner, lists[1..], before, loops)
  }

  function LoopsInside(owner: Id, kind: ListKind, loops: seq<Id>): seq<Id> {
    if kind.LoopBody? then loops + [owner] else loops
  }

  /** A trigger that has no connector yet has no output to reference. */
  function TriggerScope(g: Graph): seq<Id> {
    if g.trigger.connector.Some? then [g.trigger.id] else []
  }

  function NodeContexts(g: Graph): seq<Entry> {
    [Entry(g.trigger.id, [], [])] + Visit(g.steps, TriggerScope(g), [])
  }

  /** The last entry for an id is the one that a lookup table built from the entries keeps. */
  function Lookup(entries: seq<Entry>, id: Id): (r: Option<Entry>)
    ensures r.Some? ==> r.value in entries && r.value.id == id
  {
    if entries == [] then None
    else if entries[|entries| - 1].id == id then Some(entries[|entries| - 1])
    else Lookup(entries[..|entries| - 1], id)
  }

  function Upstream(g: Graph, id: Id): seq<Id> {
    match Lookup(NodeContexts(g), id) case Some(e) => e.upstream case None => []
  }

  function Loops(g: Graph, id: Id): seq<Id> {
    match Lookup(NodeContexts(g), id) case Some(e) => e.loops case None => []
  }

  // ---------------------------------------------------------------- the traversal as it runs

  /** The traversal with its running variable `before`. */
  method VisitSteps(steps: seq<Node>, upstream: seq<Id>, loops: seq<Id>) returns (entries: seq<Entry>)
    ensures entries == Visit(steps, upstream, loops)
    decreases steps
  {
    entries := [];
    var before := upstream;
    for i := 0 to |steps|
      invariant entries + Visit(steps[i..], before, loops) == Visit(steps, upstream, loops)
    {
      var node := steps[i];
      var inner := VisitEach(node.id, node.lists, before + [node.id], loops);
      ghost var own, rest := [Entry(node.id, before, loops)] + inner, Visit(steps[i + 1..], before + [node.id], loops);
      assert Visit(steps[i..], before, loops) == own + rest by {
        assert steps[i..][0] == node && steps[i..][1..] == steps[i + 1..];
      }
      assert entries + (own + rest) == (entries + own) + rest;
      entries := entries + ([Entry(node.id, before, loops)] + inner);
      before := before + [node.id];
    }
  }

  method VisitEach(owner: Id, lists: seq<ChildList>, before: seq<Id>, loops: seq<Id>) returns (entries: seq<Entry>)
    ensures entries == VisitLists(owner, lists, before, loops)
    decreases lists
  {
    if lists == [] {
      return [];
    }
    var head := VisitSteps(lists[0].steps, before, LoopsInside(owner, lists[0].kind, loops));
    var tail := VisitEach(owner, lists[1..], before, loops);
    entries := head + tail;
  }

  // ---------------------------------------------------------------- one entry for each node

  lemma {:induction false} EntryIds(steps: seq<Node>, before: seq<Id>, loops: seq<Id>, e: Entry)
    requires e in Visit(steps, before, loops)
    ensures e.id in IdsIn(steps)
    decreases steps
  {
    var seen := before + [steps[0].id];
    if e in VisitLists(steps[0].id, steps[0].lists, seen, loops) {
      EntryIdsInLists(steps[0].id, steps[0].lists, seen, loops, e);
    } else if e in Visit(steps[1..], seen, loops) {
      EntryIds(steps[1..], seen, loops, e);
    }
  }

  lemma {:induction false} EntryIdsInLists(owner: Id, lists: seq<ChildList>, before: seq<Id>, loops: seq<Id>, e: Entry)
    requires e in VisitLists(owner, lists, before, loops)
    ensures e.id in IdsInLists(lists)
    decreases lists
  {
    var inside := LoopsInside(owner, lists[0].kind, loops);
    if e in Visit(lists[0].steps, before, inside) {
      EntryIds(lists[0].steps, before, inside, e);
    } else {
      EntryIdsInLists(owner, lists[1..], before, loops, e);
    }
  }

  lemma {:induction false} EntryExists(steps: seq<Node>, before: seq<Id>, loops: seq<Id>, id: Id) returns (e: Entry)
    requires id in IdsIn(steps)
    ensures e in Visit(steps, before, loops) && e.id == id
    decreases steps
  {
    var seen := before + [steps[0].id];
    if steps[0].id == id {
      e := Entry(id, before, loops);
    } else if id in IdsInLists(steps[0].lists) {
      e := EntryExistsInLists(steps[0].id, steps[0].lists, seen, loops, id);
    } else {
      e := EntryExists(steps[1..], seen, loops, id);
    }
  }

  lemma {:induction false} EntryExistsInLists(owner: Id, lists: seq<ChildList>, before: seq<Id>, loops: seq<Id>, id: Id) returns (e: Entry)
    requires id in IdsInLists(lists)
    ensures e in VisitLists(owner, lists, before, loops) && e.id == id
    decreases lists
  {
    if id in IdsIn(lists[0].steps) {
      e := EntryExists(lists[0].steps, before, LoopsInside(owner, lists[0].kind, loops), id);
    } else {
      e := EntryExistsInLists(owner, lists[1..], before, loops, id);
    }
  }

  lemma {:induction false} OneEntry(steps: seq<Node>, before: seq<Id>, loops: seq<Id>, e: Entry, f: Entry)
    requires UniqueIds(steps) && e.id == f.id
    requires e in Visit(steps, before, loops) && f in Visit(steps, before, loops)
    ensures e == f
    decreases steps
  {
    var seen := before + [steps[0].id];
    var inner, rest := VisitLists(steps[0].id, steps[0].lists, seen, loops), Visit(steps[1..], seen, loops);
    if e in inner { EntryIdsInLists(steps[0].id, steps[0].lists, seen, loops, e); }
    if f in inner { EntryIdsInLists(steps[0].id, steps[0].lists, seen, loops, f); }
    if e in rest { EntryIds(steps[1..], seen, loops, e); }
    if f in rest { EntryIds(steps[1..], seen, loops, f); }
    if e in inner && f in inner {
      OneEntryInLists(steps[0].id, steps[0].lists, seen, loops, e, f);
    } else if e in rest && f in rest {
      OneEntry(steps[1..], seen, loops, e, f);
    }
  }

  lemma {:induction false} OneEntryInLists(owner: Id, lists: seq<ChildList>, before: seq<Id>, loops: seq<Id>, e: Entry, f: Entry)
    requires UniqueIdsInLists(lists) && e.id == f.id
    requires e in VisitLists(owner, lists, before, loops) && f in VisitLists(owner, lists, before, loops)
    ensures e == f
    decreases lists
  {
    var inside := LoopsInside(owner, lists[0].kind, loops);
    var first, rest := Visit(lists[0].steps, before, inside), VisitLists(owner, lists[1..], before, loops);
    if e in first { EntryIds(lists[0].steps, before, inside, e); }
    if f in first { EntryIds(lists[0].steps, before, inside, f); }
    if e in rest { EntryIdsInLists(owner, lists[1..], before, loops, e); }
    if f in rest { EntryIdsInLists(owner, lists[1..], before, loops, f); }
    if e in first && f in first {
      OneEntry(lists[0].steps, before, inside, e, f);
    } else {
      OneEntryInLists(owner, lists[1..], before, loops, e, f);
    }
  }

  lemma {:induction false} LookupFinds(entries: seq<Entry>, e: Entry)
    requires e in entries && forall f :: f in entries && f.id == e.id ==> f == e
    ensures Lookup(entries, e.id) == Some(e)
  {
    var last := entries[|entries| - 1];
    if last.id != e.id {
      assert entries == entries[..|entries| - 1] + [last];
      LookupFinds(entries[..|entries| - 1], e);
    }
  }

  /** The table has an entry for every node, and it is the one that the traversal made. */
  lemma ContextOf(g: Graph, e: Entry)
    requires UniqueIds(g.steps) && g.trigger.id !in IdsIn(g.steps)
    requires e in Visit(g.steps, TriggerScope(g), [])
    ensures Lookup(NodeContexts(g), e.id) == Some(e) && Upstream(g, e.id) == e.upstream && Loops(g, e.id) == e.loops
  {
    EntryIds(g.steps, TriggerScope(g), [], e);
    forall f | f in NodeContexts(g) && f.id == e.id
      ensures f == e
    {
      OneEntry(g.steps, TriggerScope(g), [], e, f);
    }
    LookupFinds(NodeContexts(g), e);
  }

  // ---------------------------------------------------------------- what an edit does to scope

  lemma {:induction false} IdsAfterRemove(steps: seq<Node>, id: Id)
    ensures IdsIn(RemoveFromSteps(steps, id)) <= IdsIn(steps) - {id}
    decreases steps
  {
    if steps != [] {
      IdsAfterRemoveInLists(steps[0].lists, id);
      IdsAfterRemove(steps[1..], id);
    }
  }

  lemma {:induction false} IdsAfterRemoveInLists(lists: seq<ChildList>, id: Id)
    ensures IdsInLists(RemoveFromLists(lists, id)) <= IdsInLists(lists) - {id}
    decreases lists
  {
    if lists != [] {
      IdsAfterRemove(lists[0].steps, id);
      IdsAfterRemoveInLists(lists[1..], id);
    }
  }

  /** Removing a node drops exactly its id from the scope of every survivor. */
  lemma {:induction false} RemovedFromScope(steps: seq<Node>, before: seq<Id>, loops: seq<Id>, id: Id, e: Entry, e': Entry)
    requires UniqueIds(steps)
    requires e in Visit(steps, before, loops)
    requires e' in Visit(RemoveFromSteps(steps, id), Without(before, id), loops)
    requires e.id == e'.id
    ensures e'.upstream == Without(e.upstream, id) && e'.loops == e.loops
    decreases steps
  {
    var node, rest := steps[0], RemoveFromSteps(steps[1..], id);
    var seen := before + [node.id];
    WithoutConcat(before, [node.id], id);
    assert Without([node.id], id) == if node.id == id then [] else [node.id];
    IdsAfterRemove(steps[1..], id);
    IdsAfterRemoveInLists(node.lists, id);
    if node.id == id {
      EntryIds(rest, Without(before, id), loops, e');
      if e in VisitLists(node.id, node.lists, seen, loops) {
        EntryIdsInLists(node.id, node.lists, seen, loops, e);
      } else {
        assert Without(seen, id) == Without(before, id) + [] == Without(before, id);
        RemovedFromScope(steps[1..], seen, loops, id, e, e');
      }
    } else {
      var removed := RemoveFromSteps(steps, id);
      var lists' := RemoveFromLists(node.lists, id);
      var seen' := Without(before, id) + [node.id];
      assert removed[0].lists == lists' && removed[1..] == rest;
      var inHead := e in VisitLists(node.id, node.lists, seen, loops);
      var inHead' := e' in VisitLists(node.id, lists', seen', loops);
      if inHead { EntryIdsInLists(node.id, node.lists, seen, loops, e); }
      if inHead' { EntryIdsInLists(node.id, lists', seen', loops, e'); }
      if e in Visit(steps[1..], seen, loops) { EntryIds(steps[1..], seen, loops, e); }
      if e' in Visit(rest, seen', loops) { EntryIds(rest, seen', loops, e'); }
      if inHead && inHead' {
        RemovedFromScopeInLists(node.id, node.lists, seen, loops, id, e, e');
      } else if e in Visit(steps[1..], seen, loops) && e' in Visit(rest, seen', loops) {
        RemovedFromScope(steps[1..], seen, loops, id, e, e');
      }
    }
  }

  lemma {:induction false} RemovedFromScopeInLists(owner: Id, lists: seq<ChildList>, before: seq<Id>, loops: seq<Id>, id: Id, e: Entry, e': Entry)
    requires UniqueIdsInLists(lists)
    requires e in VisitLists(owner, lists, before, loops)
    requires e' in VisitLists(owner, RemoveFromLists(lists, id), Without(before, id), loops)
    requires e.id == e'.id
    ensures e'.upstream == Without(e.upstream, id) && e'.loops == e.loops
    decreases lists
  {
    var first, first' := lists[0].steps, RemoveFromSteps(lists[0].steps, id);
    var rest' := RemoveFromLists(lists[1..], id);
    var before', inside := Without(before, id), LoopsInside(owner, lists[0].kind, loops);
    assert RemoveFromLists(lists, id)[1..] == rest';
    IdsAfterRemove(first, id);
    IdsAfterRemoveInLists(lists[1..], id);
    if e in Visit(first, before, inside) { EntryIds(first, before, inside, e); }
    if e' in Visit(first', before', inside) { EntryIds(first', before', inside, e'); }
    if e in VisitLists(owner, lists[1..], before, loops) { EntryIdsInLists(owner, lists[1..], before, loops, e); }
    if e' in VisitLists(owner, rest', before', loops) { EntryIdsInLists(owner, rest', before', loops, e'); }
    if e in Visit(first, before, inside) && e' in Visit(first', before', inside) {
      RemovedFromScope(first, before, inside, id, e, e');
    } else {
      RemovedFromScopeInLists(owner, lists[1..], before, loops, id, e, e');
    }
  }

  function Delete(g: Graph, id: Id): Graph { g.(steps := RemoveFromSteps(g.steps, id)) }

  function Insert(g: Graph, t: Target, node: Node): Graph { g.(steps := InsertIntoSteps(g.steps, t, node)) }

  /** The entry of a node that stays, before and after a deletion. */
  lemma DeletedEntry(g: Graph, id: Id, e: Entry, e': Entry)
    requires WellFormed(g) && id != g.trigger.id && e.id == e'.id
    requires e in Visit(g.steps, TriggerScope(g), []) && e' in Visit(Delete(g, id).steps, TriggerScope(g), [])
    ensures e'.upstream == Without(e.upstream, id) && e'.loops == e.loops
    ensures Lookup(NodeContexts(g), e.id) == Some(e) && Lookup(NodeContexts(Delete(g, id)), e.id) == Some(e')
  {
    WellFormedAfterRemove(g, id);
    WithoutAbsent(TriggerScope(g), id);
    RemovedFromScope(g.steps, TriggerScope(g), [], id, e, e');
    ContextOf(g, e);
    ContextOf(Delete(g, id), e');
  }

  /** Deleting a node takes its id, and nothing else, out of the scope of every node that stays, and
      leaves the loops around that node. */
  lemma DeletedFromScope(g: Graph, id: Id, n: Id)
    requires WellFormed(g) && id != g.trigger.id
    requires n in IdsIn(Delete(g, id).steps)
    ensures Upstream(Delete(g, id), n) == Without(Upstream(g, n), id) && Loops(Delete(g, id), n) == Loops(g, n)
  {
    IdsAfterRemove(g.steps, id);
    var e := EntryExists(g.steps, TriggerScope(g), [], n);
    var e' := EntryExists(Delete(g, id).steps, TriggerScope(g), [], n);
    DeletedEntry(g, id, e, e');
  }

  /** Inserting a tree of new ids changes the scope of an existing node at most by making the root
      of that tree visible, and leaves the loops around that node. */
  lemma InsertedIntoScope(g: Graph, t: Target, node: Node, n: Id)
    requires WellFormed(g) && n in IdsIn(g.steps)
    requires TreeOk([node]) && IdsIn([node]) !! IdsIn(g.steps) + {g.trigger.id}
    ensures Without(Upstream(Insert(g, t, node), n), node.id) == Upstream(g, n)
    ensures forall u :: u in Upstream(g, n) ==> u in Upstream(Insert(g, t, node), n)
    ensures Loops(Insert(g, t, node), n) == Loops(g, n)
  {
    assert node.id in IdsIn([node]);
    RemoveInserted(g.steps, t, node);
    WellFormedAfterInsert(g, t, node);
    DeletedFromScope(Insert(g, t, node), node.id, n);
  }

  // ---------------------------------------------------------------- the documented rule

  function TopIds(steps: seq<Node>): (ids: seq<Id>)
    ensures |ids| == |steps| && forall i :: 0 <= i < |steps| ==> ids[i] == steps[i].id
  {
    if steps == [] then [] else [steps[0].id] + TopIds(steps[1..])
  }

  /** Within one list, `u` stands at or before the node that is or encloses `n`, and is not `n`. */
  ghost predicate SeesInList(list: seq<Node>, u: Id, n: Id) {
    exists i, j :: 0 <= i <= j < |list| && list[i].id == u && n in IdsIn([list[j]]) && u != n
  }

  /** The rule that the help text gives: a node may reference the nodes before it in its own list,
      and for each node that encloses it, that node and the nodes before it. Nothing inside another
      branch or inside a loop that has ended is visible. */
  ghost predicate Sees(steps: seq<Node>, u: Id, n: Id)
    decreases steps
  {
    SeesInList(steps, u, n) || SeesBelow(steps, u, n)
  }

  ghost predicate SeesBelow(steps: seq<Node>, u: Id, n: Id)
    decreases steps, 0
  {
    exists k :: 0 <= k < |steps| && SeesInLists(steps[k].lists, u, n)
  }

  ghost predicate SeesInLists(lists: seq<ChildList>, u: Id, n: Id)
    decreases lists
  {
    exists l :: 0 <= l < |lists| && Sees(lists[l].steps, u, n)
  }

  lemma {:induction false} IdsByNode(steps: seq<Node>, n: Id)
    ensures n in IdsIn(steps) <==> exists j :: 0 <= j < |steps| && n in IdsIn([steps[j]])
    decreases steps
  {
    if steps != [] {
      IdsByNode(steps[1..], n);
      assert n in IdsIn([steps[0]]) <==> n == steps[0].id || n in IdsInLists(steps[0].lists);
      if j :| 0 <= j < |steps| && n in IdsIn([steps[j]]) {
        if j > 0 { assert steps[1..][j - 1] == steps[j]; }
      }
      if j :| 0 <= j < |steps[1..]| && n in IdsIn([steps[1..][j]]) {
        assert steps[j + 1] == steps[1..][j];
      }
    }
  }

  lemma SeesInListUnfold(steps: seq<Node>, u: Id, n: Id)
    requires steps != []
    ensures SeesInList(steps, u, n)
       <==> (u == steps[0].id && n in IdsIn(steps) && u != n) || SeesInList(steps[1..], u, n)
  {
    IdsByNode(steps, n);
    if i, j :| 0 <= i <= j < |steps| && steps[i].id == u && n in IdsIn([steps[j]]) && u != n {
      if i > 0 { assert steps[1..][i - 1] == steps[i] && steps[1..][j - 1] == steps[j]; }
    }
    if i, j :| 0 <= i <= j < |steps[1..]| && steps[1..][i].id == u && n in IdsIn([steps[1..][j]]) && u != n {
      assert steps[i + 1] == steps[1..][i] && steps[j + 1] == steps[1..][j];
    }
  }

  lemma {:induction false} SeesUnfold(steps: seq<Node>, u: Id, n: Id)
    requires steps != []
    ensures Sees(steps, u, n)
       <==> (u == steps[0].id && n in IdsIn(steps) && u != n) || SeesInLists(steps[0].lists, u, n) || Sees(steps[1..], u, n)
  {
    SeesInListUnfold(steps, u, n);
    if k :| 0 <= k < |steps| && SeesInLists(steps[k].lists, u, n) {
      if k > 0 { assert steps[1..][k - 1] == steps[k]; }
    }
    if k :| 0 <= k < |steps[1..]| && SeesInLists(steps[1..][k].lists, u, n) {
      assert steps[k + 1] == steps[1..][k];
    }
  }

  lemma {:induction false} SeesInListsUnfold(lists: seq<ChildList>, u: Id, n: Id)
    requires lists != []
    ensures SeesInLists(lists, u, n) <==> Sees(lists[0].steps, u, n) || SeesInLists(lists[1..], u, n)
  {
    if l :| 0 <= l < |lists| && Sees(lists[l].steps, u, n) {
      if l > 0 { assert lists[1..][l - 1] == lists[l]; }
    }
    if l :| 0 <= l < |lists[1..]| && Sees(lists[1..][l].steps, u, n) {
      assert lists[l + 1] == lists[1..][l];
    }
  }

  lemma {:induction false} SeesOnlyFromInside(steps: seq<Node>, u: Id, n: Id)
    requires Sees(steps, u, n)
    ensures n in IdsIn(steps)
    decreases steps
  {
    if steps != [] {
      SeesUnfold(steps, u, n);
      if SeesInLists(steps[0].lists, u, n) {
        SeesInListsOnlyFromInside(steps[0].lists, u, n);
      } else if Sees(steps[1..], u, n) {
        SeesOnlyFromInside(steps[1..], u, n);
      }
    }
  }

  lemma {:induction false} SeesInListsOnlyFromInside(lists: seq<ChildList>, u: Id, n: Id)
    requires SeesInLists(lists, u, n)
    ensures n in IdsInLists(lists)
    decreases lists
  {
    if lists != [] {
      SeesInListsUnfold(lists, u, n);
      if Sees(lists[0].steps, u, n) {
        SeesOnlyFromInside(lists[0].steps, u, n);
      } else {
        SeesInListsOnlyFromInside(lists[1..], u, n);
      }
    }
  }

  /** The traversal computes exactly the documented rule. */
  lemma {:induction false} ScopeRule(steps: seq<Node>, before: seq<Id>, loops: seq<Id>, e: Entry, u: Id)
    requires UniqueIds(steps) && e in Visit(steps, before, loops)
    ensures u in e.upstream <==> u in before || Sees(steps, u, e.id)
    decreases steps
  {
    var seen := before + [steps[0].id];
    SeesUnfold(steps, u, e.id);
    EntryIds(steps, before, loops, e);
    if SeesInLists(steps[0].lists, u, e.id) { SeesInListsOnlyFromInside(steps[0].lists, u, e.id); }
    if Sees(steps[1..], u, e.id) { SeesOnlyFromInside(steps[1..], u, e.id); }
    if e in VisitLists(steps[0].id, steps[0].lists, seen, loops) {
      EntryIdsInLists(steps[0].id, steps[0].lists, seen, loops, e);
      ScopeRuleInLists(steps[0].id, steps[0].lists, seen, loops, e, u);
    } else if e in Visit(steps[1..], seen, loops) {
      EntryIds(steps[1..], seen, loops, e);
      ScopeRule(steps[1..], seen, loops, e, u);
    }
  }

  lemma {:induction false} ScopeRuleInLists(owner: Id, lists: seq<ChildList>, before: seq<Id>, loops: seq<Id>, e: Entry, u: Id)
    requires UniqueIdsInLists(lists) && e in VisitLists(owner, lists, before, loops)
    ensures u in e.upstream <==> u in before || SeesInLists(lists, u, e.id)
    decreases lists
  {
    var inside := LoopsInside(owner, lists[0].kind, loops);
    SeesInListsUnfold(lists, u, e.id);
    if Sees(lists[0].steps, u, e.id) { SeesOnlyFromInside(lists[0].steps, u, e.id); }
    if SeesInLists(lists[1..], u, e.id) { SeesInListsOnlyFromInside(lists[1..], u, e.id); }
    if e in Visit(lists[0].steps, before, inside) {
      EntryIds(lists[0].steps, before, inside, e);
      ScopeRule(lists[0].steps, before, inside, e, u);
    } else {
      EntryIdsInLists(owner, lists[1..], before, loops, e);
      ScopeRuleInLists(owner, lists[1..], before, loops, e, u);
    }
  }

  /** A node's upstream is the trigger, once it has a connector, and what the rule lets it see. */
  lemma UpstreamIsTheRule(g: Graph, n: Id, u: Id)
    requires WellFormed(g) && n in IdsIn(g.steps)
    ensures u in Upstream(g, n) <==> (u == g.trigger.id && g.trigger.connector.Some?) || Sees(g.steps, u, n)
  {
    var e := EntryExists(g.steps, TriggerScope(g), [], n);
    ContextOf(g, e);
    ScopeRule(g.steps, TriggerScope(g), [], e, u);
  }
}
