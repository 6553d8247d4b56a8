/** Choosing and linearising one execution of a workflow. Error lists are never entered. */
module RunPath {
  import opened Workflow
  import opened Scope

  /** What is recorded beside a step: the branches entered, and how often a loop around it runs. */
  datatype Meta = Meta(branches: seq<Branch>, iterations: Option<nat>)
  datatype PathStep = PathStep(node: Node, meta: Meta)

  /** A path together with the number of random draws made so far. */
  datatype Flat = Flat(path: seq<PathStep>, pos: nat)

  /** The k-th draw. */
  type Random = nat -> nat

  /** The index below `n` that a draw selects; every index is selected by some draw. */
  function Index(draw: nat, n: nat): (i: nat)
    requires n > 0
    ensures i < n
  {
    if draw < n then draw else 0
  }

  /** Picks a branch of an exclusive node by its position, or leaves the choice open. */
  type Decider = Node -> Option<nat>

  datatype Enter = AllBranches | Only(index: int) | Body

  // ---------------------------------------------------------------- choosing a branch

  /** The first branch whose steps contain the id, error lists included. */
  function BranchHolding(lists: seq<ChildList>, id: Id): (r: Option<nat>)
    ensures r.Some? ==> r.value < BranchCount(lists) && id in IdsIn(lists[r.value].steps)
    ensures r.Some? ==> forall i :: 0 <= i < r.value ==> id !in IdsIn(lists[i].steps)
    ensures r.None? ==> forall i :: 0 <= i < BranchCount(lists) ==> id !in IdsIn(lists[i].steps)
  {
    if lists == [] || !lists[0].kind.BranchList? then None
    else if id in IdsIn(lists[0].steps) then Some(0)
    else match BranchHolding(lists[1..], id) case None => None case Some(i) => Some(i + 1)
  }

  function Forced(node: Node, must: Option<Id>): Option<nat> {
    match must case None => None case Some(id) => BranchHolding(node.lists, id)
  }

  /** The branch that is settled without a draw, if any: the one that holds the node which has to be
      on the path, or else the one the decider picks. A decider that names no branch picks nothing. */
  function Settled(node: Node, must: Option<Id>, decide: Decider): (r: Option<nat>)
    ensures r.Some? ==> r.value < BranchCount(node.lists)
  {
    if Forced(node, must).Some? then Forced(node, must)
    else if decide(node).Some? && decide(node).value < BranchCount(node.lists) then decide(node)
    else None
  }

  function Pick(node: Node, rand: Random, pos: nat, must: Option<Id>, decide: Decider): (i: nat)
    requires BranchCount(node.lists) > 0
    ensures i < BranchCount(node.lists)
  {
    match Settled(node, must, decide)
    case Some(i) => i
    case None => Index(rand(pos), BranchCount(node.lists))
  }

  function Branches(lists: seq<ChildList>): (r: seq<Branch>)
    ensures |r| == BranchCount(lists) && forall i :: 0 <= i < |r| ==> r[i] == lists[i].kind.branch
  {
    if lists == [] || !lists[0].kind.BranchList? then [] else [lists[0].kind.branch] + Branches(lists[1..])
  }

  // ---------------------------------------------------------------- linearising

  function Flatten(steps: seq<Node>, rand: Random, pos: nat, must: Option<Id>, decide: Decider): Flat
    requires ShapesOk(steps)
    decreases steps, 1
  {
    if steps == [] then Flat([], pos)
    else
      var head := FlattenNode(steps[0], rand, pos, must, decide);
      var tail := Flatten(steps[1..], rand, head.pos, must, decide);
      Flat(head.path + tail.path, tail.pos)
  }

  function FlattenNode(node: Node, rand: Random, pos: nat, must: Option<Id>, decide: Decider): (r: Flat)
    requires ShapeOk(node) && ShapesOkInLists(node.lists)
    ensures r.path != [] && r.path[0].node == node
    decreases node, 0
  {
    match node.kind
    case ParallelKind =>
      var inner := FlattenLists(node.lists, AllBranches, rand, pos, must, decide);
      Flat([PathStep(node, Meta(Branches(node.lists), None))] + inner.path, inner.pos)
    case BranchKind =>
      var i := Pick(node, rand, pos, must, decide);
      var drawn := if Settled(node, must, decide).Some? then pos else pos + 1;
      var inner := FlattenLists(node.lists, Only(i), rand, drawn, must, decide);
      Flat([PathStep(node, Meta([node.lists[i].kind.branch], None))] + inner.path, inner.pos)
    case LoopKind(isWhile) =>
      var n := if isWhile then 2 else 3;
      var inner := FlattenLists(node.lists, Body, rand, pos, must, decide);
      Flat([PathStep(node, Meta([], Some(n)))] + Repeated(inner.path, n), inner.pos)
    case _ => Flat([PathStep(node, Meta([], None))], pos)
  }

  predicate Enters(kind: ListKind, enter: Enter) {
    match enter case AllBranches => kind.BranchList? case Only(i) => i == 0 case Body => kind.LoopBody?
  }

  function NextEnter(enter: Enter): Enter {
    match enter case Only(i) => Only(i - 1) case _ => enter
  }

  function FlattenLists(lists: seq<ChildList>, enter: Enter, rand: Random, pos: nat, must: Option<Id>, decide: Decider): Flat
    requires ShapesOkInLists(lists)
    decreases lists, 0
  {
    if lists == [] then Flat([], pos)
    else
      var head := if Enters(lists[0].kind, enter) then Flatten(lists[0].steps, rand, pos, must, decide) else Flat([], pos);
      var tail := FlattenLists(lists[1..], NextEnter(enter), rand, head.pos, must, decide);
      Flat(head.path + tail.path, tail.pos)
  }

  function Repeated(path: seq<PathStep>, n: nat): (r: seq<PathStep>)
    ensures |r| == |path| && forall i :: 0 <= i < |path| ==> r[i] == PathStep(path[i].node, Meta(path[i].meta.branches, Some(n)))
  {
    if path == [] then [] else [path[0].(meta := path[0].meta.(iterations := Some(n)))] + Repeated(path[1..], n)
  }

  function PathIds(path: seq<PathStep>): (ids: seq<Id>)
    ensures |ids| == |path| && forall i :: 0 <= i < |path| ==> ids[i] == path[i].node.id
  {
    if path == [] then [] else [path[0].node.id] + PathIds(path[1..])
  }

  function PathNodes(path: seq<PathStep>): (nodes: seq<Node>)
    ensures |nodes| == |path| && forall i :: 0 <= i < |path| ==> nodes[i] == path[i].node
  {
    if path == [] then [] else [path[0].node] + PathNodes(path[1..])
  }

  lemma PathNodesConcat(a: seq<PathStep>, b: seq<PathStep>)
    ensures PathNodes(a + b) == PathNodes(a) + PathNodes(b)
  {
  }

  /** The lists that a node lets the run enter, and the path inside them. */
  function EnterOf(node: Node, rand: Random, pos: nat, must: Option<Id>, decide: Decider): Enter
    requires ShapeOk(node)
  {
    match node.kind
    case ParallelKind => AllBranches
    case BranchKind => Only(Pick(node, rand, pos, must, decide))
    case LoopKind(_) => Body
    case _ => Only(-1)
  }

  function Drawn(node: Node, pos: nat, must: Option<Id>, decide: Decider): nat {
    if node.kind.BranchKind? && Settled(node, must, decide).None? then pos + 1 else pos
  }

  function Inside(node: Node, rand: Random, pos: nat, must: Option<Id>, decide: Decider): Flat
    requires ShapeOk(node) && ShapesOkInLists(node.lists)
  {
    FlattenLists(node.lists, EnterOf(node, rand, pos, must, decide), rand, Drawn(node, pos, must, decide), must, decide)
  }

  lemma {:induction false} EntersNothing(lists: seq<ChildList>, i: int, rand: Random, pos: nat, must: Option<Id>, decide: Decider)
    requires ShapesOkInLists(lists) && i < 0
    ensures FlattenLists(lists, Only(i), rand, pos, must, decide) == Flat([], pos)
  {
    if lists != [] { EntersNothing(lists[1..], i - 1, rand, pos, must, decide); }
  }

  lemma RepeatedIds(path: seq<PathStep>, n: nat)
    ensures PathIds(Repeated(path, n)) == PathIds(path)
  {
  }

  lemma ConsIds(step: PathStep, path: seq<PathStep>)
    ensures PathIds([step] + path) == [step.node.id] + PathIds(path)
  {
    assert ([step] + path)[1..] == path;
  }

  /** Every kind of node puts itself first and the inside of the lists it enters after that. */
  lemma NodePath(node: Node, rand: Random, pos: nat, must: Option<Id>, decide: Decider)
    requires ShapeOk(node) && ShapesOkInLists(node.lists)
    ensures var r, inner := FlattenNode(node, rand, pos, must, decide), Inside(node, rand, pos, must, decide);
            PathIds(r.path) == [node.id] + PathIds(inner.path) && r.pos == inner.pos && |r.path| == 1 + |inner.path|
  {
    var r, inner := FlattenNode(node, rand, pos, must, decide), Inside(node, rand, pos, must, decide);
    match node.kind {
      case LoopKind(isWhile) =>
        var n := if isWhile then 2 else 3;
        RepeatedIds(inner.path, n);
        ConsIds(r.path[0], Repeated(inner.path, n));
      case BranchKind => ConsIds(r.path[0], inner.path);
      case ParallelKind => ConsIds(r.path[0], inner.path);
      case _ =>
        EntersNothing(node.lists, -1, rand, pos, must, decide);
        ConsIds(r.path[0], []);
    }
  }

  // ---------------------------------------------------------------- which ids a path can have

  /** The ids that some run can reach: all but those under an error list. */
  function Reachable(steps: seq<Node>): set<Id> {
    if steps == [] then {} else {steps[0].id} + ReachableInLists(steps[0].lists) + Reachable(steps[1..])
  }

  function ReachableInLists(lists: seq<ChildList>): set<Id> {
    if lists == [] then {}
    else (if lists[0].kind.ErrorList? then {} else Reachable(lists[0].steps)) + ReachableInLists(lists[1..])
  }

  lemma {:induction false} ReachableIds(steps: seq<Node>)
    ensures Reachable(steps) <= IdsIn(steps)
    decreases steps
  {
    if steps != [] {
      ReachableIdsInLists(steps[0].lists);
      ReachableIds(steps[1..]);
    }
  }

  lemma {:induction false} ReachableIdsInLists(lists: seq<ChildList>)
    ensures ReachableInLists(lists) <= IdsInLists(lists)
    decreases lists
  {
    if lists != [] {
      ReachableIds(lists[0].steps);
      ReachableIdsInLists(lists[1..]);
    }
  }

  /** What a node may enter never includes an error list. */
  predicate Admissible(lists: seq<ChildList>, enter: Enter) {
    match enter
    case Only(i) => 0 <= i < |lists| ==> !lists[i].kind.ErrorList?
    case _ => true
  }

  lemma {:induction false} PathReachable(steps: seq<Node>, rand: Random, pos: nat, must: Option<Id>, decide: Decider)
    requires ShapesOk(steps)
    ensures forall id :: id in PathIds(Flatten(steps, rand, pos, must, decide).path) ==> id in Reachable(steps)
    decreases steps, 1
  {
    if steps != [] {
      var head := FlattenNode(steps[0], rand, pos, must, decide);
      var tail := Flatten(steps[1..], rand, head.pos, must, decide);
      NodePath(steps[0], rand, pos, must, decide);
      PathReachableInLists(steps[0].lists, EnterOf(steps[0], rand, pos, must, decide), rand, Drawn(steps[0], pos, must, decide), must, decide);
      PathReachable(steps[1..], rand, head.pos, must, decide);
      PathIdsConcat(head.path, tail.path);
    }
  }

  lemma {:induction false} PathReachableInLists(lists: seq<ChildList>, enter: Enter, rand: Random, pos: nat, must: Option<Id>, decide: Decider)
    requires ShapesOkInLists(lists) && Admissible(lists, enter)
    ensures forall id :: id in PathIds(FlattenLists(lists, enter, rand, pos, must, decide).path) ==> id in ReachableInLists(lists)
    decreases lists, 0
  {
    if lists != [] {
      var head := if Enters(lists[0].kind, enter) then Flatten(lists[0].steps, rand, pos, must, decide) else Flat([], pos);
      if Enters(lists[0].kind, enter) { PathReachable(lists[0].steps, rand, pos, must, decide); }
      PathReachableInLists(lists[1..], NextEnter(enter), rand, head.pos, must, decide);
      PathIdsConcat(head.path, FlattenLists(lists[1..], NextEnter(enter), rand, head.pos, must, decide).path);
    }
  }

  lemma PathIdsConcat(a: seq<PathStep>, b: seq<PathStep>)
    ensures PathIds(a + b) == PathIds(a) + PathIds(b)
  {
  }

  // ---------------------------------------------------------------- scope soundness

  /** When the id of `e` comes up in `ids`, all that `e` may reference has come before, or was there
      from the start. */
  ghost predicate InScopeOnTime(ids: seq<Id>, before: seq<Id>, e: Entry) {
    forall i, u :: 0 <= i < |ids| && ids[i] == e.id && u in e.upstream ==> u in before || u in ids[..i]
  }

  lemma OnTimeConcat(a: seq<Id>, b: seq<Id>, before: seq<Id>, seen: seq<Id>, e: Entry)
    requires e.id !in a && InScopeOnTime(b, seen, e)
    requires forall u :: u in seen ==> u in before || u in a
    ensures InScopeOnTime(a + b, before, e)
  {
    forall i, u | 0 <= i < |a + b| && (a + b)[i] == e.id && u in e.upstream
      ensures u in before || u in (a + b)[..i]
    {
      assert i >= |a|;
      assert (a + b)[..i] == a + b[..i - |a|];
      assert u in seen || u in b[..i - |a|];
    }
  }

  lemma OnTimeExtend(a: seq<Id>, b: seq<Id>, before: seq<Id>, e: Entry)
    requires e.id !in b && InScopeOnTime(a, before, e)
    ensures InScopeOnTime(a + b, before, e)
  {
    forall i, u | 0 <= i < |a + b| && (a + b)[i] == e.id && u in e.upstream
      ensures u in before || u in (a + b)[..i]
    {
      assert i < |a|;
      assert (a + b)[..i] == a[..i];
    }
  }

  /** Whatever branches a run takes: when it comes to a node, every node that the node may reference
      has come before, or was there from the start. */
  lemma {:induction false} ScopeOnPath(steps: seq<Node>, before: seq<Id>, loops: seq<Id>,
                                       rand: Random, pos: nat, must: Option<Id>, decide: Decider, e: Entry)
    requires UniqueIds(steps) && ShapesOk(steps) && e in Visit(steps, before, loops)
    ensures InScopeOnTime(PathIds(Flatten(steps, rand, pos, must, decide).path), before, e)
    decreases steps, 1
  {
    var node, seen := steps[0], before + [steps[0].id];
    var head := FlattenNode(node, rand, pos, must, decide);
    var enter, drawn := EnterOf(node, rand, pos, must, decide), Drawn(node, pos, must, decide);
    var inner := PathIds(FlattenLists(node.lists, enter, rand, drawn, must, decide).path);
    var tail := Flatten(steps[1..], rand, head.pos, must, decide).path;
    NodePath(node, rand, pos, must, decide);
    PathIdsConcat(head.path, tail);
    assert PathIds(head.path + tail) == [node.id] + inner + PathIds(tail);
    if e in VisitLists(node.id, node.lists, seen, loops) {
      EntryIdsInLists(node.id, node.lists, seen, loops, e);
      PathReachable(steps[1..], rand, head.pos, must, decide);
      ReachableIds(steps[1..]);
      ScopeOnPathInLists(node.id, node.lists, seen, loops, enter, rand, drawn, must, decide, e);
      OnTimeConcat([node.id], inner, before, seen, e);
      OnTimeExtend([node.id] + inner, PathIds(tail), before, e);
    } else if e in Visit(steps[1..], seen, loops) {
      EntryIds(steps[1..], seen, loops, e);
      PathReachableInLists(node.lists, enter, rand, drawn, must, decide);
      ReachableIdsInLists(node.lists);
      ScopeOnPath(steps[1..], seen, loops, rand, head.pos, must, decide, e);
      OnTimeConcat([node.id] + inner, PathIds(tail), before, seen, e);
    }
  }

  lemma {:induction false} ScopeOnPathInLists(owner: Id, lists: seq<ChildList>, before: seq<Id>, loops: seq<Id>, enter: Enter,
                                              rand: Random, pos: nat, must: Option<Id>, decide: Decider, e: Entry)
    requires UniqueIdsInLists(lists) && ShapesOkInLists(lists) && Admissible(lists, enter)
    requires e in VisitLists(owner, lists, before, loops)
    ensures InScopeOnTime(PathIds(FlattenLists(lists, enter, rand, pos, must, decide).path), before, e)
    decreases lists, 0
  {
    var inside := LoopsInside(owner, lists[0].kind, loops);
    var entered := Enters(lists[0].kind, enter);
    var head := if entered then Flatten(lists[0].steps, rand, pos, must, decide) else Flat([], pos);
    var tail := FlattenLists(lists[1..], NextEnter(enter), rand, head.pos, must, decide).path;
    PathIdsConcat(head.path, tail);
    if e in Visit(lists[0].steps, before, inside) {
      EntryIds(lists[0].steps, before, inside, e);
      PathReachableInLists(lists[1..], NextEnter(enter), rand, head.pos, must, decide);
      ReachableIdsInLists(lists[1..]);
      if entered { ScopeOnPath(lists[0].steps, before, inside, rand, pos, must, decide, e); }
      OnTimeExtend(PathIds(head.path), PathIds(tail), before, e);
    } else {
      EntryIdsInLists(owner, lists[1..], before, loops, e);
      if entered { PathReachable(lists[0].steps, rand, pos, must, decide); }
      ReachableIds(lists[0].steps);
      ScopeOnPathInLists(owner, lists[1..], before, loops, NextEnter(enter), rand, head.pos, must, decide, e);
      OnTimeConcat(PathIds(head.path), PathIds(tail), before, before, e);
    }
  }

  // ---------------------------------------------------------------- each node at most once

  predicate Distinct(ids: seq<Id>) {
    forall i, j :: 0 <= i < j < |ids| ==> ids[i] != ids[j]
  }

  lemma DistinctConcat(a: seq<Id>, b: seq<Id>)
    requires Distinct(a) && Distinct(b) && forall x :: x in a ==> x !in b
    ensures Distinct(a + b)
  {
    forall i, j | 0 <= i < j < |a + b|
      ensures (a + b)[i] != (a + b)[j]
    {
      if i < |a| <= j { assert a[i] in a; }
    }
  }

  lemma {:induction false} PathDistinct(steps: seq<Node>, rand: Random, pos: nat, must: Option<Id>, decide: Decider)
    requires UniqueIds(steps) && ShapesOk(steps)
    ensures Distinct(PathIds(Flatten(steps, rand, pos, must, decide).path))
    decreases steps, 1
  {
    if steps != [] {
      var node := steps[0];
      var head := FlattenNode(node, rand, pos, must, decide);
      var enter, drawn := EnterOf(node, rand, pos, must, decide), Drawn(node, pos, must, decide);
      var inner := PathIds(FlattenLists(node.lists, enter, rand, drawn, must, decide).path);
      var tail := Flatten(steps[1..], rand, head.pos, must, decide).path;
      NodePath(node, rand, pos, must, decide);
      PathIdsConcat(head.path, tail);
      PathDistinctInLists(node.lists, enter, rand, drawn, must, decide);
      PathReachableInLists(node.lists, enter, rand, drawn, must, decide);
      ReachableIdsInLists(node.lists);
      DistinctConcat([node.id], inner);
      PathDistinct(steps[1..], rand, head.pos, must, decide);
      PathReachable(steps[1..], rand, head.pos, must, decide);
      ReachableIds(steps[1..]);
      DistinctConcat([node.id] + inner, PathIds(tail));
    }
  }

  lemma {:induction false} PathDistinctInLists(lists: seq<ChildList>, enter: Enter, rand: Random, pos: nat, must: Option<Id>, decide: Decider)
    requires UniqueIdsInLists(lists) && ShapesOkInLists(lists) && Admissible(lists, enter)
    ensures Distinct(PathIds(FlattenLists(lists, enter, rand, pos, must, decide).path))
    decreases lists, 0
  {
    if lists != [] {
      var entered := Enters(lists[0].kind, enter);
      var head := if entered then Flatten(lists[0].steps, rand, pos, must, decide) else Flat([], pos);
      var tail := FlattenLists(lists[1..], NextEnter(enter), rand, head.pos, must, decide).path;
      PathIdsConcat(head.path, tail);
      if entered {
        PathDistinct(lists[0].steps, rand, pos, must, decide);
        PathReachable(lists[0].steps, rand, pos, must, decide);
      }
      ReachableIds(lists[0].steps);
      PathDistinctInLists(lists[1..], NextEnter(enter), rand, head.pos, must, decide);
      PathReachableInLists(lists[1..], NextEnter(enter), rand, head.pos, must, decide);
      ReachableIdsInLists(lists[1..]);
      DistinctConcat(PathIds(head.path), PathIds(tail));
    }
  }

  // ---------------------------------------------------------------- forcing a node onto the path

  predicate EntersAt(lists: seq<ChildList>, enter: Enter, k: nat)
    requires k < |lists|
  {
    match enter
    case AllBranches => lists[k].kind.BranchList?
    case Only(i) => i == k
    case Body => lists[k].kind.LoopBody?
  }

  lemma {:induction false} WhichList(lists: seq<ChildList>, id: Id) returns (k: nat)
    requires id in ReachableInLists(lists)
    ensures k < |lists| && !lists[k].kind.ErrorList? && id in Reachable(lists[k].steps)
  {
    if !lists[0].kind.ErrorList? && id in Reachable(lists[0].steps) {
      k := 0;
    } else {
      k := WhichList(lists[1..], id);
      k := k + 1;
    }
  }

  lemma {:induction false} InOneList(lists: seq<ChildList>, id: Id, i: nat, k: nat)
    requires UniqueIdsInLists(lists) && i < |lists| && k < |lists|
    requires id in IdsIn(lists[i].steps) && id in IdsIn(lists[k].steps)
    ensures i == k && id in IdsInLists(lists)
  {
    if i > 0 && k > 0 {
      InOneList(lists[1..], id, i - 1, k - 1);
    } else if i > 0 {
      InOneList(lists[1..], id, i - 1, i - 1);
    } else if k > 0 {
      InOneList(lists[1..], id, k - 1, k - 1);
    }
  }

  /** A node that has to be on the path, and that lies outside every error list, is on it, whatever
      is drawn and decided. */
  lemma {:induction false} ForcedOnPath(steps: seq<Node>, rand: Random, pos: nat, id: Id, decide: Decider)
    requires UniqueIds(steps) && ShapesOk(steps) && id in Reachable(steps)
    ensures id in PathIds(Flatten(steps, rand, pos, Some(id), decide).path)
    decreases steps, 1
  {
    var node, must := steps[0], Some(id);
    var head := FlattenNode(node, rand, pos, must, decide);
    var tail := Flatten(steps[1..], rand, head.pos, must, decide).path;
    NodePath(node, rand, pos, must, decide);
    PathIdsConcat(head.path, tail);
    if id in ReachableInLists(node.lists) {
      var k := WhichList(node.lists, id);
      ReachableIds(node.lists[k].steps);
      EnteredWhereNeeded(node, rand, pos, id, decide, k);
      ForcedOnPathInLists(node.lists, EnterOf(node, rand, pos, must, decide), rand, Drawn(node, pos, must, decide), id, decide, k);
    } else if id != node.id {
      ForcedOnPath(steps[1..], rand, head.pos, id, decide);
    }
  }

  lemma EnteredWhereNeeded(node: Node, rand: Random, pos: nat, id: Id, decide: Decider, k: nat)
    requires ShapeOk(node) && UniqueIdsInLists(node.lists)
    requires k < |node.lists| && !node.lists[k].kind.ErrorList? && id in IdsIn(node.lists[k].steps)
    ensures EntersAt(node.lists, EnterOf(node, rand, pos, Some(id), decide), k)
  {
    if node.kind.BranchKind? {
      InOneList(node.lists, id, BranchHolding(node.lists, id).value, k);
    }
  }

  lemma {:induction false} ForcedOnPathInLists(lists: seq<ChildList>, enter: Enter, rand: Random, pos: nat, id: Id, decide: Decider, k: nat)
    requires UniqueIdsInLists(lists) && ShapesOkInLists(lists)
    requires k < |lists| && EntersAt(lists, enter, k) && id in Reachable(lists[k].steps)
    ensures id in PathIds(FlattenLists(lists, enter, rand, pos, Some(id), decide).path)
    decreases lists, 0
  {
    var head := if Enters(lists[0].kind, enter) then Flatten(lists[0].steps, rand, pos, Some(id), decide) else Flat([], pos);
    PathIdsConcat(head.path, FlattenLists(lists[1..], NextEnter(enter), rand, head.pos, Some(id), decide).path);
    if k == 0 {
      ForcedOnPath(lists[0].steps, rand, pos, id, decide);
    } else {
      ForcedOnPathInLists(lists[1..], NextEnter(enter), rand, head.pos, id, decide, k - 1);
    }
  }

  /** Forcing works exactly for the nodes outside error lists, and puts them on the path once. */
  lemma ForcedExactly(steps: seq<Node>, rand: Random, pos: nat, id: Id, decide: Decider)
    requires UniqueIds(steps) && ShapesOk(steps)
    ensures var ids := PathIds(Flatten(steps, rand, pos, Some(id), decide).path);
            (id in ids <==> id in Reachable(steps)) && multiset(ids)[id] <= 1
  {
    PathReachable(steps, rand, pos, Some(id), decide);
    if id in Reachable(steps) { ForcedOnPath(steps, rand, pos, id, decide); }
    PathDistinct(steps, rand, pos, Some(id), decide);
    AtMostOnce(PathIds(Flatten(steps, rand, pos, Some(id), decide).path), id);
  }

  lemma {:induction false} AtMostOnce(ids: seq<Id>, id: Id)
    requires Distinct(ids)
    ensures multiset(ids)[id] <= 1
  {
    if ids != [] {
      assert ids == [ids[0]] + ids[1..];
      AtMostOnce(ids[1..], id);
      if ids[0] == id {
        assert forall k :: 0 <= k < |ids[1..]| ==> ids[1..][k] == ids[k + 1];
        assert id !in ids[1..];
      }
    }
  }
}
