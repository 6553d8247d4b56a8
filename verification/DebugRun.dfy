/** Debug runs: the branches are decided from the payload, recorded, and the run is then replayed
    from the record alone. */
module DebugRun {
  import opened Workflow
  import opened RunPath
  import opened PathChoices
  import opened RunTrace

  // ---------------------------------------------------------------- deciding from the payload

  /** Whether a condition holds, for the payload and the variables at hand. */
  type Holds = Condition -> bool

  predicate AnyHolds(conditions: seq<Condition>, holds: Holds) {
    exists i :: 0 <= i < |conditions| && holds(conditions[i])
  }

  predicate AllHold(conditions: seq<Condition>, holds: Holds) {
    forall i :: 0 <= i < |conditions| ==> holds(conditions[i])
  }

  predicate Satisfied(b: Branch, holds: Holds) {
    b.conditions != [] && if b.any then AnyHolds(b.conditions, holds) else AllHold(b.conditions, holds)
  }

  function FirstSatisfied(lists: seq<ChildList>, holds: Holds): (r: Option<nat>)
    ensures r.Some? ==>
              && r.value < BranchCount(lists)
              && !lists[r.value].kind.branch.isDefault && Satisfied(lists[r.value].kind.branch, holds)
              && forall j :: 0 <= j < r.value ==> lists[j].kind.branch.isDefault || !Satisfied(lists[j].kind.branch, holds)
    ensures r.None? ==>
              forall j :: 0 <= j < BranchCount(lists) ==> lists[j].kind.branch.isDefault || !Satisfied(lists[j].kind.branch, holds)
  {
    if lists == [] || !lists[0].kind.BranchList? then None
    else if !lists[0].kind.branch.isDefault && Satisfied(lists[0].kind.branch, holds) then Some(0)
    else match FirstSatisfied(lists[1..], holds) case None => None case Some(i) => Some(i + 1)
  }

  function FirstDefault(lists: seq<ChildList>): (r: Option<nat>)
    ensures r.Some? ==> r.value < BranchCount(lists) && lists[r.value].kind.branch.isDefault
    ensures r.Some? ==> forall j :: 0 <= j < r.value ==> !lists[j].kind.branch.isDefault
    ensures r.None? ==> forall j :: 0 <= j < BranchCount(lists) ==> !lists[j].kind.branch.isDefault
  {
    if lists == [] || !lists[0].kind.BranchList? then None
    else if lists[0].kind.branch.isDefault then Some(0)
    else match FirstDefault(lists[1..]) case None => None case Some(i) => Some(i + 1)
  }

  function BranchDecider(holds: Holds): Decider {
    (node: Node) =>
      if FirstSatisfied(node.lists, holds).Some? then FirstSatisfied(node.lists, holds) else FirstDefault(node.lists)
  }

  // ---------------------------------------------------------------- the debug run

  function Zero(): Random { (k: nat) => 0 }

  function DebugPath(steps: seq<Node>, decide: Decider): seq<PathStep>
    requires ShapesOk(steps)
  {
    Flatten(steps, Zero(), 0, None, decide).path
  }

  /** The record of the branches that were decided on a path. */
  function PicksOn(path: seq<PathStep>, decide: Decider): map<Id, Id> {
    if path == [] then map[]
    else
      var last := path[|path| - 1].node;
      var picks := PicksOn(path[..|path| - 1], decide);
      if last.kind.BranchKind? && Decided(last, decide)
      then picks[last.id := last.lists[decide(last).value].kind.branch.id]
      else picks
  }

  /** The ids under error lists. */
  function UnderError(steps: seq<Node>): set<Id> {
    if steps == [] then {} else UnderErrorInLists(steps[0].lists) + UnderError(steps[1..])
  }

  function UnderErrorInLists(lists: seq<ChildList>): set<Id> {
    if lists == [] then {}
    else (if lists[0].kind.ErrorList? then IdsIn(lists[0].steps) else UnderError(lists[0].steps)) + UnderErrorInLists(lists[1..])
  }

  method RecordPicks(path: seq<PathStep>, decide: Decider) returns (picks: map<Id, Id>)
    ensures picks == PicksOn(path, decide)
  {
    picks := map[];
    for i := 0 to |path|
      invariant picks == PicksOn(path[..i], decide)
    {
      assert path[..i + 1][..i] == path[..i];
      var node := path[i].node;
      if node.kind.BranchKind? && Decided(node, decide) {
        picks := picks[node.id := node.lists[decide(node).value].kind.branch.id];
      }
    }
    assert path[..|path|] == path;
  }

  function OnPath(g: Graph, path: seq<PathStep>): set<Id> {
    {g.trigger.id} + set id | id in PathIds(path)
  }

  ghost predicate NoFault(nodes: seq<Node>, on: set<Id>, fault: Node -> bool) {
    forall n :: n in nodes && n.id in on ==> !fault(n)
  }

  ghost predicate NoActionFault(nodes: seq<Node>, fault: Node -> bool) {
    forall n :: n in nodes && n.kind.ActionKind? ==> !fault(n)
  }

  /** The id belongs to the first of the nodes in `on` that has the fault. */
  ghost predicate FirstFaultIs(nodes: seq<Node>, on: set<Id>, fault: Node -> bool, id: Id) {
    exists k :: 0 <= k < |nodes| && nodes[k].id == id && id in on && fault(nodes[k]) && NoFault(nodes[..k], on, fault)
  }

  ghost predicate FirstActionFaultIs(nodes: seq<Node>, fault: Node -> bool, id: Id) {
    exists k :: 0 <= k < |nodes| && nodes[k].id == id && nodes[k].kind.ActionKind? && fault(nodes[k]) && NoActionFault(nodes[..k], fault)
  }

  /** The first node on the path, and under no error list, that has the given fault. */
  method FirstFault(nodes: seq<Node>, onPath: set<Id>, inError: set<Id>, fault: Node -> bool) returns (failed: Option<Id>)
    ensures failed.Some? ==> FirstFaultIs(nodes, onPath - inError, fault, failed.value)
    ensures failed.None? ==> NoFault(nodes, onPath - inError, fault)
  {
    for i := 0 to |nodes|
      invariant NoFault(nodes[..i], onPath - inError, fault)
    {
      if nodes[i].id in onPath && nodes[i].id !in inError && fault(nodes[i]) {
        return Some(nodes[i].id);
      }
      assert nodes[..i + 1] == nodes[..i] + [nodes[i]];
    }
    assert nodes[..|nodes|] == nodes;
    return None;
  }

  /** The first action on the path that has the given fault. */
  method FirstActionFault(path: seq<PathStep>, fault: Node -> bool) returns (failed: Option<Id>)
    ensures failed.Some? ==> FirstActionFaultIs(PathNodes(path), fault, failed.value)
    ensures failed.None? ==> NoActionFault(PathNodes(path), fault)
  {
    ghost var nodes := PathNodes(path);
    for i := 0 to |path|
      invariant NoActionFault(nodes[..i], fault)
    {
      if path[i].node.kind.ActionKind? && fault(path[i].node) {
        assert nodes[i] == path[i].node;
        return Some(path[i].node.id);
      }
      assert nodes[..i + 1] == nodes[..i] + [path[i].node];
    }
    assert nodes[..|nodes|] == nodes;
    return None;
  }

  /** What the debug run reports as its failed node, and why: the first node on the path, in the
      order of the tree, with a broken connection; if there is none, the first action on the path
      whose data cannot be mapped; and nothing only if there is no such node either. */
  ghost predicate IsFailure(g: Graph, path: seq<PathStep>, broken: Node -> bool, unmappable: Node -> bool,
                            failed: Option<Id>, code: Option<string>)
  {
    match failed
    case Some(id) =>
      if NoFault(AllNodes(g), OnPath(g, path), broken)
      then FirstActionFaultIs(PathNodes(path), unmappable, id) && code == Some("MAPPING_ERROR")
      else FirstFaultIs(AllNodes(g), OnPath(g, path), broken, id) && code == Some("CONNECTION_AUTH_FAILED")
    case None =>
      NoFault(AllNodes(g), OnPath(g, path), broken) && NoActionFault(PathNodes(path), unmappable) && code.None?
  }

  lemma FailureOnPath(g: Graph, path: seq<PathStep>, broken: Node -> bool, unmappable: Node -> bool, id: Id, code: Option<string>)
    requires IsFailure(g, path, broken, unmappable, Some(id), code)
    ensures id in OnPath(g, path)
  {
    var nodes := PathNodes(path);
    if NoFault(AllNodes(g), OnPath(g, path), broken) {
      var k :| 0 <= k < |nodes| && nodes[k].id == id && nodes[k].kind.ActionKind?;
      assert PathIds(path)[k] == id;
    }
  }

  method FindFailure(g: Graph, path: seq<PathStep>, broken: Node -> bool, unmappable: Node -> bool)
    returns (failed: Option<Id>, code: Option<string>)
    requires OnPath(g, path) !! UnderError(g.steps)
    ensures IsFailure(g, path, broken, unmappable, failed, code)
  {
    assert OnPath(g, path) - UnderError(g.steps) == OnPath(g, path);
    failed := FirstFault(AllNodes(g), OnPath(g, path), UnderError(g.steps), broken);
    if failed.Some? {
      return failed, Some("CONNECTION_AUTH_FAILED");
    }
    failed := FirstActionFault(path, unmappable);
    code := if failed.Some? then Some("MAPPING_ERROR") else None;
  }

  /** A run as a debug run leaves it. */
  ghost predicate IsDebugRun(g: Graph, holds: Holds, broken: Node -> bool, unmappable: Node -> bool, run: Run)
    requires WellFormed(g)
  {
    var path := DebugPath(g.steps, BranchDecider(holds));
    && run.branchPicks == Some(PicksOn(path, BranchDecider(holds)))
    && IsFailure(g, path, broken, unmappable, run.failedNode, run.failure)
    && run.status == (if run.failedNode.Some? then Fails else Succeeds)
    && run.pendingNode.None? && run.startNode.None? && run.stopIndex.None?
  }

  function Total(trace: seq<TraceStep>): nat {
    if trace == [] then 0
    else (if trace[0].duration.Some? then trace[0].duration.value else 0) + Total(trace[1..])
  }

  /** Decides the path from the payload, records the picks, notes the node that would fail and why,
      and replays the run to see how long it takes. */
  method MakeDebugRun(g: Graph, holds: Holds, broken: Node -> bool, unmappable: Node -> bool, payload: string,
                      vars: map<string, string>, now: int, rand: Random)
    returns (run: Run, trace: seq<TraceStep>)
    requires WellFormed(g)
    ensures IsDebugRun(g, holds, broken, unmappable, run) && PayloadDecides(DebugPath(g.steps, BranchDecider(holds)), holds)
    ensures run.payload == Some(payload) && run.vars == vars && run.startedAt == now && run.duration == Total(trace)
    ensures var bare := run.(duration := 0);
            var path := FullPath(g, bare, rand);
            && |trace| == |path|
            && forall i :: 0 <= i < |path| ==>
                 trace[i] == StepAt(g, bare, path, MarksOf(bare, path), rand, RunFlat(g, bare, rand).pos, i)
  {
    var decide := BranchDecider(holds);
    var path := DebugPath(g.steps, decide);
    PathClear(g, decide);
    DebugPathDecides(g.steps, holds);
    var picks := RecordPicks(path, decide);
    var failed, code := FindFailure(g, path, broken, unmappable);
    run := Run(if failed.Some? then Fails else Succeeds, failed, None, None, None, Some(picks), Some(payload), vars, code, now, 0);
    trace := BuildRunTrace(g, run, rand);
    ghost var bare := run;
    run := run.(duration := Total(trace));
    assert run.(duration := 0) == bare;
  }

  /** A debug run shows its failure at its failed node if and only if that node is not the trigger. */
  lemma DebugFailureShown(g: Graph, holds: Holds, broken: Node -> bool, unmappable: Node -> bool, run: Run, rand: Random, id: Id)
    requires WellFormed(g) && IsDebugRun(g, holds, broken, unmappable, run) && run.failedNode == Some(id)
    ensures ShownAt(run, FullPath(g, run, rand), id) <==> id != g.trigger.id
  {
    var decide := BranchDecider(holds);
    FailureOnPath(g, DebugPath(g.steps, decide), broken, unmappable, id, run.failure);
    PathReachable(g.steps, Zero(), 0, None, decide);
    ReachableIds(g.steps);
    FailureShownAtNode(g, run, rand, id);
  }

  /** A trigger with a broken connection always is the failed node, so its failure is never shown where it is. */
  lemma BrokenTriggerMisplaced(g: Graph, holds: Holds, broken: Node -> bool, unmappable: Node -> bool, run: Run, rand: Random)
    requires WellFormed(g) && IsDebugRun(g, holds, broken, unmappable, run) && broken(g.trigger)
    ensures run.failedNode == Some(g.trigger.id) && !ShownAt(run, FullPath(g, run, rand), g.trigger.id)
  {
    var nodes, on := AllNodes(g), OnPath(g, DebugPath(g.steps, BranchDecider(holds)));
    assert nodes[0] == g.trigger && nodes[0] in nodes;
    assert !NoFault(nodes, on, broken);
    var k :| 0 <= k < |nodes| && nodes[k].id == run.failedNode.value && NoFault(nodes[..k], on, broken);
    if k > 0 { assert nodes[..k][0] in nodes[..k]; }
    DebugFailureShown(g, holds, broken, unmappable, run, rand, g.trigger.id);
  }

  /** Branch `k` is the one that the payload decides on: the first ordinary branch whose conditions
      hold, else the first default, else simply the first. */
  ghost predicate PayloadBranch(node: Node, k: nat, holds: Holds)
    requires k < BranchCount(node.lists)
  {
    var n, lists := BranchCount(node.lists), node.lists;
    if exists j :: 0 <= j < n && !lists[j].kind.branch.isDefault && Satisfied(lists[j].kind.branch, holds) then
      && !lists[k].kind.branch.isDefault && Satisfied(lists[k].kind.branch, holds)
      && forall j :: 0 <= j < k ==> lists[j].kind.branch.isDefault || !Satisfied(lists[j].kind.branch, holds)
    else if exists j :: 0 <= j < n && lists[j].kind.branch.isDefault then
      lists[k].kind.branch.isDefault && forall j :: 0 <= j < k ==> !lists[j].kind.branch.isDefault
    else k == 0
  }

  /** Every exclusive node on the path shows the branch that the payload decides on. */
  ghost predicate PayloadDecides(path: seq<PathStep>, holds: Holds) {
    forall i :: 0 <= i < |path| && path[i].node.kind.BranchKind? ==>
      exists k :: 0 <= k < BranchCount(path[i].node.lists)
               && path[i].meta.branches == [path[i].node.lists[k].kind.branch] && PayloadBranch(path[i].node, k, holds)
  }

  lemma DebugPathDecides(steps: seq<Node>, holds: Holds)
    requires ShapesOk(steps)
    ensures PayloadDecides(DebugPath(steps, BranchDecider(holds)), holds)
  {
    var decide := BranchDecider(holds);
    var path := DebugPath(steps, decide);
    PathShows(steps, Zero(), 0, None, decide);
    forall i | 0 <= i < |path| && path[i].node.kind.BranchKind?
      ensures exists k :: 0 <= k < BranchCount(path[i].node.lists)
                       && path[i].meta.branches == [path[i].node.lists[k].kind.branch] && PayloadBranch(path[i].node, k, holds)
    {
      assert ShowsChoice(path[i], Zero(), None, decide);
      var node := path[i].node;
      var k :| 0 <= k < BranchCount(node.lists) && path[i].meta.branches == [node.lists[k].kind.branch]
               && ToTake(node, k, Zero(), None, decide);
      TakenByPayload(node, k, holds);
    }
  }

  lemma TakenByPayload(node: Node, k: nat, holds: Holds)
    requires k < BranchCount(node.lists) && ToTake(node, k, Zero(), None, BranchDecider(holds))
    ensures PayloadBranch(node, k, holds)
  {
    var first := FirstSatisfied(node.lists, holds);
    if first.None? {
      assert BranchDecider(holds)(node) == FirstDefault(node.lists);
    }
  }

  lemma PathClear(g: Graph, decide: Decider)
    requires WellFormed(g)
    ensures OnPath(g, DebugPath(g.steps, decide)) !! UnderError(g.steps)
  {
    ErrorsOffPath(g, Zero(), 0, None, decide);
  }

  lemma {:induction false} ReachableNotUnderError(steps: seq<Node>)
    requires UniqueIds(steps)
    ensures Reachable(steps) !! UnderError(steps)
    decreases steps
  {
    if steps != [] {
      ReachableNotUnderErrorInLists(steps[0].lists);
      ReachableNotUnderError(steps[1..]);
      ReachableIds(steps[1..]);
      ReachableIdsInLists(steps[0].lists);
      UnderErrorIds(steps[1..]);
      UnderErrorIdsInLists(steps[0].lists);
    }
  }

  lemma {:induction false} ReachableNotUnderErrorInLists(lists: seq<ChildList>)
    requires UniqueIdsInLists(lists)
    ensures ReachableInLists(lists) !! UnderErrorInLists(lists)
    decreases lists
  {
    if lists != [] {
      ReachableNotUnderError(lists[0].steps);
      ReachableNotUnderErrorInLists(lists[1..]);
      ReachableIds(lists[0].steps);
      ReachableIdsInLists(lists[1..]);
      UnderErrorIds(lists[0].steps);
      UnderErrorIdsInLists(lists[1..]);
    }
  }

  /** No path has a node from an error list on it, so leaving those nodes out loses no fault. */
  lemma ErrorsOffPath(g: Graph, rand: Random, pos: nat, must: Option<Id>, decide: Decider)
    requires WellFormed(g)
    ensures g.trigger.id !in UnderError(g.steps)
    ensures forall id :: id in PathIds(Flatten(g.steps, rand, pos, must, decide).path) ==> id !in UnderError(g.steps)
  {
    UnderErrorIds(g.steps);
    ReachableNotUnderError(g.steps);
    PathReachable(g.steps, rand, pos, must, decide);
  }

  lemma {:induction false} UnderErrorIds(steps: seq<Node>)
    ensures UnderError(steps) <= IdsIn(steps)
    decreases steps
  {
    if steps != [] {
      UnderErrorIdsInLists(steps[0].lists);
      UnderErrorIds(steps[1..]);
    }
  }

  lemma {:induction false} UnderErrorIdsInLists(lists: seq<ChildList>)
    ensures UnderErrorInLists(lists) <= IdsInLists(lists)
    decreases lists
  {
    if lists != [] {
      UnderErrorIds(lists[0].steps);
      UnderErrorIdsInLists(lists[1..]);
    }
  }

  // ---------------------------------------------------------------- the replay follows the debug run

  /** What the replay of a node does not leave to chance: the payload decided it, or there is only
      one branch, or the node that has to be on the path is in the first one. */
  predicate Determined(node: Node, must: Option<Id>, decide: Decider) {
    Decided(node, decide) || BranchCount(node.lists) == 1 || Forced(node, must) == Some(0)
  }

  ghost predicate AllDetermined(nodes: seq<Node>, must: Option<Id>, decide: Decider) {
    forall n :: n in nodes && n.kind.BranchKind? ==> Determined(n, must, decide)
  }

  /** The record says what was decided, and nothing about the other branch nodes. */
  ghost predicate Records(picks: map<Id, Id>, nodes: seq<Node>, decide: Decider) {
    forall n :: n in nodes ==> RecordsNode(picks, n, decide)
  }

  /** The node that has to be on the path either is on it or is not in this tree. */
  predicate OnOrOutside(must: Option<Id>, ids: set<Id>, path: seq<PathStep>) {
    must.Some? && must.value in ids ==> must.value in PathIds(path)
  }

  lemma {:induction false} FindsBranch(owner: Id, lists: seq<ChildList>, i: nat)
    requires DistinctKeys(owner, lists) && i < BranchCount(lists)
    ensures BranchWithId(lists, lists[i].kind.branch.id) == Some(i)
    ensures lists[i].kind.branch.id in Keys(owner, lists)
  {
    if i > 0 { FindsBranch(owner, lists[1..], i - 1); }
  }

  lemma NodesOfNode(node: Node, rand: Random, pos: nat, must: Option<Id>, decide: Decider)
    requires ShapeOk(node) && ShapesOkInLists(node.lists)
    ensures PathNodes(FlattenNode(node, rand, pos, must, decide).path)
         == [node] + PathNodes(Inside(node, rand, pos, must, decide).path)
  {
    var r, inner := FlattenNode(node, rand, pos, must, decide).path, Inside(node, rand, pos, must, decide).path;
    match node.kind {
      case LoopKind(isWhile) => ConsNodes(r[0], Repeated(inner, if isWhile then 2 else 3), inner);
      case BranchKind => ConsNodes(r[0], inner, inner);
      case ParallelKind => ConsNodes(r[0], inner, inner);
      case _ =>
        EntersNothing(node.lists, -1, rand, pos, must, decide);
        ConsNodes(r[0], [], inner);
    }
  }

  lemma ConsNodes(first: PathStep, rest: seq<PathStep>, inner: seq<PathStep>)
    requires |rest| == |inner| && forall i :: 0 <= i < |rest| ==> rest[i].node == inner[i].node
    ensures PathNodes([first] + rest) == [first.node] + PathNodes(inner)
  {
    assert PathNodes(rest) == PathNodes(inner);
    assert ([first] + rest)[1..] == rest;
  }

  lemma {:induction false} EntersOne(lists: seq<ChildList>, i: nat, rand: Random, pos: nat, must: Option<Id>, decide: Decider)
    requires ShapesOkInLists(lists) && i < |lists|
    ensures ShapesOk(lists[i].steps)
    ensures FlattenLists(lists, Only(i), rand, pos, must, decide) == Flatten(lists[i].steps, rand, pos, must, decide)
  {
    if i == 0 {
      var head := Flatten(lists[0].steps, rand, pos, must, decide);
      var tail := FlattenLists(lists[1..], Only(-1), rand, head.pos, must, decide);
      assert FlattenLists(lists, Only(0), rand, pos, must, decide) == Flat(head.path + tail.path, tail.pos);
      EntersNothing(lists[1..], -1, rand, head.pos, must, decide);
    } else {
      var tail := FlattenLists(lists[1..], Only(i - 1), rand, pos, must, decide);
      assert FlattenLists(lists, Only(i), rand, pos, must, decide) == Flat([] + tail.path, tail.pos);
      EntersOne(lists[1..], i - 1, rand, pos, must, decide);
      assert lists[1..][i - 1] == lists[i];
    }
  }

  /** The replay takes the branch that the debug run took. */
  lemma SamePick(node: Node, pos0: nat, rand: Random, pos: nat, must: Option<Id>, decide: Decider, picks: map<Id, Id>)
    requires ShapeOk(node) && ShapesOkInLists(node.lists) && UniqueIdsInLists(node.lists) && DistinctKeys(node.id, node.lists)
    requires node.kind.BranchKind? && Determined(node, must, decide) && RecordsNode(picks, node, decide)
    requires OnOrOutside(must, IdsInLists(node.lists), Inside(node, Zero(), pos0, None, decide).path)
    ensures Pick(node, rand, pos, must, DeciderOf(Some(picks))) == Pick(node, Zero(), pos0, None, decide)
  {
    var i := Pick(node, Zero(), pos0, None, decide);
    if Forced(node, must).Some? {
      var j := Forced(node, must).value;
      var drawn := Drawn(node, pos0, None, decide);
      InOneList(node.lists, must.value, j, j);
      EntersOne(node.lists, i, Zero(), drawn, None, decide);
      PathReachable(node.lists[i].steps, Zero(), drawn, None, decide);
      ReachableIds(node.lists[i].steps);
      InOneList(node.lists, must.value, i, j);
    } else if Decided(node, decide) {
      FindsBranch(node.id, node.lists, i);
    }
  }

  /** The replay of a debug run goes the way the debug run went. */
  lemma {:induction false} ReplaySteps(steps: seq<Node>, pos0: nat, rand: Random, pos: nat, must: Option<Id>, decide: Decider, picks: map<Id, Id>)
    requires UniqueIds(steps) && ShapesOk(steps) && KeysOk(steps)
    requires var debug := Flatten(steps, Zero(), pos0, None, decide).path;
             && OnOrOutside(must, IdsIn(steps), debug)
             && AllDetermined(PathNodes(debug), must, decide) && Records(picks, PathNodes(debug), decide)
    ensures Flatten(steps, rand, pos, must, DeciderOf(Some(picks))).path == Flatten(steps, Zero(), pos0, None, decide).path
    decreases steps, 1
  {
    if steps != [] {
      var node, follow := steps[0], DeciderOf(Some(picks));
      var head := FlattenNode(node, Zero(), pos0, None, decide);
      var tail := Flatten(steps[1..], Zero(), head.pos, None, decide);
      SplitPath(steps, pos0, must, decide);
      PathNodesConcat(head.path, tail.path);
      assert node == PathNodes(head.path)[0];
      ReplayNode(node, pos0, rand, pos, must, decide, picks);
      ReplaySteps(steps[1..], head.pos, rand, FlattenNode(node, rand, pos, must, follow).pos, must, decide, picks);
    }
  }

  /** Where the node that has to be on the path can be: on the part of the path that its part of the
      tree contributes, or outside that part. */
  lemma SplitPath(steps: seq<Node>, pos0: nat, must: Option<Id>, decide: Decider)
    requires steps != [] && UniqueIds(steps) && ShapesOk(steps)
    requires OnOrOutside(must, IdsIn(steps), Flatten(steps, Zero(), pos0, None, decide).path)
    ensures var head := FlattenNode(steps[0], Zero(), pos0, None, decide);
            && OnOrOutside(must, IdsInLists(steps[0].lists), Inside(steps[0], Zero(), pos0, None, decide).path)
            && OnOrOutside(must, IdsIn(steps[1..]), Flatten(steps[1..], Zero(), head.pos, None, decide).path)
  {
    var node := steps[0];
    var head := FlattenNode(node, Zero(), pos0, None, decide);
    PathIdsConcat(head.path, Flatten(steps[1..], Zero(), head.pos, None, decide).path);
    NodePath(node, Zero(), pos0, None, decide);
    PathReachable(steps[1..], Zero(), head.pos, None, decide);
    ReachableIds(steps[1..]);
    PathReachableInLists(node.lists, EnterOf(node, Zero(), pos0, None, decide), Zero(), Drawn(node, pos0, None, decide), None, decide);
    ReachableIdsInLists(node.lists);
  }

  lemma {:induction false} ReplayNode(node: Node, pos0: nat, rand: Random, pos: nat, must: Option<Id>, decide: Decider, picks: map<Id, Id>)
    requires ShapeOk(node) && ShapesOkInLists(node.lists) && UniqueIdsInLists(node.lists)
    requires DistinctKeys(node.id, node.lists) && KeysOkInLists(node.lists)
    requires OnOrOutside(must, IdsInLists(node.lists), Inside(node, Zero(), pos0, None, decide).path)
    requires var nodes := PathNodes(FlattenNode(node, Zero(), pos0, None, decide).path);
             AllDetermined(nodes, must, decide) && Records(picks, nodes, decide)
    ensures FlattenNode(node, rand, pos, must, DeciderOf(Some(picks))).path == FlattenNode(node, Zero(), pos0, None, decide).path
    decreases node, 0
  {
    var follow := DeciderOf(Some(picks));
    var inner := PathNodes(Inside(node, Zero(), pos0, None, decide).path);
    NodesOfNode(node, Zero(), pos0, None, decide);
    PartsHold([node], inner, must, decide, picks);
    assert node in [node];
    if node.kind.BranchKind? { SamePick(node, pos0, rand, pos, must, decide, picks); }
    var enter := EnterOf(node, Zero(), pos0, None, decide);
    assert enter == EnterOf(node, rand, pos, must, follow);
    ReplayLists(node.lists, enter, Drawn(node, pos0, None, decide), rand, Drawn(node, pos, must, follow), must, decide, picks);
    SameInsideSamePath(node, pos0, rand, pos, must, decide, follow);
  }

  lemma PartsHold(a: seq<Node>, b: seq<Node>, must: Option<Id>, decide: Decider, picks: map<Id, Id>)
    requires AllDetermined(a + b, must, decide) && Records(picks, a + b, decide)
    ensures AllDetermined(a, must, decide) && Records(picks, a, decide)
    ensures AllDetermined(b, must, decide) && Records(picks, b, decide)
  {
  }

  /** A node's part of the path follows from what it enters and from the path inside. */
  lemma SameInsideSamePath(node: Node, pos0: nat, rand: Random, pos: nat, must: Option<Id>, decide: Decider, follow: Decider)
    requires ShapeOk(node) && ShapesOkInLists(node.lists)
    requires EnterOf(node, Zero(), pos0, None, decide) == EnterOf(node, rand, pos, must, follow)
    requires Inside(node, Zero(), pos0, None, decide).path == Inside(node, rand, pos, must, follow).path
    ensures FlattenNode(node, rand, pos, must, follow).path == FlattenNode(node, Zero(), pos0, None, decide).path
  {
  }

  lemma {:induction false} ReplayLists(lists: seq<ChildList>, enter: Enter, pos0: nat, rand: Random, pos: nat, must: Option<Id>, decide: Decider, picks: map<Id, Id>)
    requires UniqueIdsInLists(lists) && ShapesOkInLists(lists) && KeysOkInLists(lists) && Admissible(lists, enter)
    requires var debug := FlattenLists(lists, enter, Zero(), pos0, None, decide).path;
             && OnOrOutside(must, IdsInLists(lists), debug)
             && AllDetermined(PathNodes(debug), must, decide) && Records(picks, PathNodes(debug), decide)
    ensures FlattenLists(lists, enter, rand, pos, must, DeciderOf(Some(picks))).path
         == FlattenLists(lists, enter, Zero(), pos0, None, decide).path
    decreases lists, 0
  {
    if lists != [] {
      var follow, entered := DeciderOf(Some(picks)), Enters(lists[0].kind, enter);
      var head := if entered then Flatten(lists[0].steps, Zero(), pos0, None, decide) else Flat([], pos0);
      var head' := if entered then Flatten(lists[0].steps, rand, pos, must, follow) else Flat([], pos);
      var tail := FlattenLists(lists[1..], NextEnter(enter), Zero(), head.pos, None, decide);
      SplitLists(lists, enter, pos0, must, decide, head, tail);
      PathNodesConcat(head.path, tail.path);
      PartsHold(PathNodes(head.path), PathNodes(tail.path), must, decide, picks);
      if entered { ReplaySteps(lists[0].steps, pos0, rand, pos, must, decide, picks); }
      ReplayLists(lists[1..], NextEnter(enter), head.pos, rand, head'.pos, must, decide, picks);
    }
  }

  lemma SplitLists(lists: seq<ChildList>, enter: Enter, pos0: nat, must: Option<Id>, decide: Decider, head: Flat, tail: Flat)
    requires lists != [] && UniqueIdsInLists(lists) && ShapesOkInLists(lists) && Admissible(lists, enter)
    requires head == if Enters(lists[0].kind, enter) then Flatten(lists[0].steps, Zero(), pos0, None, decide) else Flat([], pos0)
    requires tail == FlattenLists(lists[1..], NextEnter(enter), Zero(), head.pos, None, decide)
    requires OnOrOutside(must, IdsInLists(lists), head.path + tail.path)
    ensures Enters(lists[0].kind, enter) ==> OnOrOutside(must, IdsIn(lists[0].steps), head.path)
    ensures OnOrOutside(must, IdsInLists(lists[1..]), tail.path)
  {
    PathIdsConcat(head.path, tail.path);
    if Enters(lists[0].kind, enter) { PathReachable(lists[0].steps, Zero(), pos0, None, decide); }
    ReachableIds(lists[0].steps);
    PathReachableInLists(lists[1..], NextEnter(enter), Zero(), head.pos, None, decide);
    ReachableIdsInLists(lists[1..]);
  }

  // ---------------------------------------------------------------- and only where nothing is left to chance

  function One(): Random { (k: nat) => 1 }

  /** What a path shows of its choices: the nodes and the branches entered. */
  function Trail(path: seq<PathStep>): (r: seq<(Node, seq<Branch>)>)
    ensures |r| == |path| && forall i :: 0 <= i < |path| ==> r[i] == (path[i].node, path[i].meta.branches)
  {
    if path == [] then [] else [(path[0].node, path[0].meta.branches)] + Trail(path[1..])
  }

  lemma TrailConcat(a: seq<PathStep>, b: seq<PathStep>)
    ensures Trail(a + b) == Trail(a) + Trail(b)
  {
  }

  lemma {:induction false} TrailRepeated(path: seq<PathStep>, n: nat)
    ensures Trail(Repeated(path, n)) == Trail(path)
  {
    if path != [] { TrailRepeated(path[1..], n); }
  }

  lemma TrailOfNode(node: Node, rand: Random, pos: nat, must: Option<Id>, decide: Decider)
    requires ShapeOk(node) && ShapesOkInLists(node.lists)
    ensures var r, inner := FlattenNode(node, rand, pos, must, decide).path, Inside(node, rand, pos, must, decide).path;
            Trail(r) == [(node, r[0].meta.branches)] + Trail(inner)
  {
    var r, inner := FlattenNode(node, rand, pos, must, decide).path, Inside(node, rand, pos, must, decide).path;
    NodePath(node, rand, pos, must, decide);
    if node.kind.LoopKind? {
      var n := r[0].meta.iterations.value;
      TrailRepeated(inner, n);
      assert r == [r[0]] + Repeated(inner, n);
      TrailConcat([r[0]], Repeated(inner, n));
    } else {
      assert r == [r[0]] + inner;
      TrailConcat([r[0]], inner);
    }
  }

  ghost predicate TrailWithin(t: seq<(Node, seq<Branch>)>, ids: set<Id>) {
    forall i :: 0 <= i < |t| ==> t[i].0.id in ids
  }

  lemma SplitTrail(a: seq<(Node, seq<Branch>)>, b: seq<(Node, seq<Branch>)>, c: seq<(Node, seq<Branch>)>, d: seq<(Node, seq<Branch>)>,
                   left: set<Id>, right: set<Id>)
    requires TrailWithin(a, left) && TrailWithin(c, left) && TrailWithin(b, right) && TrailWithin(d, right)
    requires left !! right && a + b == c + d
    ensures a == c && b == d
  {
    var t, k := a + b, if |a| < |c| then |a| else |c|;
    assert k < |t| ==> (k < |a| <==> t[k].0.id in left);
    assert k < |t| ==> (k < |c| <==> t[k].0.id in left);
    assert a == (a + b)[..|a|] && c == (c + d)[..|c|];
    assert b == (a + b)[|a|..] && d == (c + d)[|c|..];
  }

  lemma TrailInSteps(steps: seq<Node>, rand: Random, pos: nat, must: Option<Id>, decide: Decider)
    requires ShapesOk(steps)
    ensures TrailWithin(Trail(Flatten(steps, rand, pos, must, decide).path), IdsIn(steps))
  {
    var path := Flatten(steps, rand, pos, must, decide).path;
    PathReachable(steps, rand, pos, must, decide);
    ReachableIds(steps);
    forall i | 0 <= i < |path| ensures path[i].node.id in IdsIn(steps) { assert path[i].node.id == PathIds(path)[i]; }
  }

  lemma TrailInLists(lists: seq<ChildList>, enter: Enter, rand: Random, pos: nat, must: Option<Id>, decide: Decider)
    requires ShapesOkInLists(lists) && Admissible(lists, enter)
    ensures TrailWithin(Trail(FlattenLists(lists, enter, rand, pos, must, decide).path), IdsInLists(lists))
  {
    var path := FlattenLists(lists, enter, rand, pos, must, decide).path;
    PathReachableInLists(lists, enter, rand, pos, must, decide);
    ReachableIdsInLists(lists);
    forall i | 0 <= i < |path| ensures path[i].node.id in IdsInLists(lists) { assert path[i].node.id == PathIds(path)[i]; }
  }

  lemma DeterminedByPick(node: Node, pos0: nat, pos: nat, must: Option<Id>, decide: Decider, picks: map<Id, Id>)
    requires ShapeOk(node) && DistinctKeys(node.id, node.lists) && node.kind.BranchKind? && RecordsNode(picks, node, decide)
    requires var i, j := Pick(node, Zero(), pos0, None, decide), Pick(node, One(), pos, must, DeciderOf(Some(picks)));
             node.lists[i].kind.branch == node.lists[j].kind.branch
    ensures Determined(node, must, decide)
    ensures Pick(node, Zero(), pos0, None, decide) == Pick(node, One(), pos, must, DeciderOf(Some(picks)))
  {
    var i, j := Pick(node, Zero(), pos0, None, decide), Pick(node, One(), pos, must, DeciderOf(Some(picks)));
    FindsBranch(node.id, node.lists, i);
    FindsBranch(node.id, node.lists, j);
  }

  /** If the replay that always draws one shows the same choices, then nothing was left to chance. */
  lemma {:induction false} SameTrailSteps(steps: seq<Node>, pos0: nat, pos: nat, must: Option<Id>, decide: Decider, picks: map<Id, Id>)
    requires UniqueIds(steps) && ShapesOk(steps) && KeysOk(steps)
    requires Records(picks, PathNodes(Flatten(steps, Zero(), pos0, None, decide).path), decide)
    requires Trail(Flatten(steps, One(), pos, must, DeciderOf(Some(picks))).path) == Trail(Flatten(steps, Zero(), pos0, None, decide).path)
    ensures AllDetermined(PathNodes(Flatten(steps, Zero(), pos0, None, decide).path), must, decide)
    decreases steps, 1
  {
    if steps != [] {
      var node, follow := steps[0], DeciderOf(Some(picks));
      var head := FlattenNode(node, Zero(), pos0, None, decide);
      var head' := FlattenNode(node, One(), pos, must, follow);
      var tail := Flatten(steps[1..], Zero(), head.pos, None, decide).path;
      var tail' := Flatten(steps[1..], One(), head'.pos, must, follow).path;
      PathNodesConcat(head.path, tail);
      TrailConcat(head.path, tail);
      TrailConcat(head'.path, tail');
      TrailInNode(node, Zero(), pos0, None, decide);
      TrailInNode(node, One(), pos, must, follow);
      TrailInSteps(steps[1..], Zero(), head.pos, None, decide);
      TrailInSteps(steps[1..], One(), head'.pos, must, follow);
      SplitTrail(Trail(head'.path), Trail(tail'), Trail(head.path), Trail(tail),
                 {node.id} + IdsInLists(node.lists), IdsIn(steps[1..]));
      SameTrailNode(node, pos0, pos, must, decide, picks);
      SameTrailSteps(steps[1..], head.pos, head'.pos, must, decide, picks);
    }
  }

  lemma TrailInNode(node: Node, rand: Random, pos: nat, must: Option<Id>, decide: Decider)
    requires ShapeOk(node) && ShapesOkInLists(node.lists)
    ensures TrailWithin(Trail(FlattenNode(node, rand, pos, must, decide).path), {node.id} + IdsInLists(node.lists))
  {
    TrailOfNode(node, rand, pos, must, decide);
    TrailInLists(node.lists, EnterOf(node, rand, pos, must, decide), rand, Drawn(node, pos, must, decide), must, decide);
  }

  lemma {:induction false} SameTrailNode(node: Node, pos0: nat, pos: nat, must: Option<Id>, decide: Decider, picks: map<Id, Id>)
    requires ShapeOk(node) && ShapesOkInLists(node.lists) && UniqueIdsInLists(node.lists)
    requires DistinctKeys(node.id, node.lists) && KeysOkInLists(node.lists)
    requires Records(picks, PathNodes(FlattenNode(node, Zero(), pos0, None, decide).path), decide)
    requires Trail(FlattenNode(node, One(), pos, must, DeciderOf(Some(picks))).path) == Trail(FlattenNode(node, Zero(), pos0, None, decide).path)
    ensures AllDetermined(PathNodes(FlattenNode(node, Zero(), pos0, None, decide).path), must, decide)
    decreases node, 0
  {
    var follow := DeciderOf(Some(picks));
    var r, r' := FlattenNode(node, Zero(), pos0, None, decide).path, FlattenNode(node, One(), pos, must, follow).path;
    var inner, inner' := Inside(node, Zero(), pos0, None, decide).path, Inside(node, One(), pos, must, follow).path;
    TrailOfNode(node, Zero(), pos0, None, decide);
    TrailOfNode(node, One(), pos, must, follow);
    SameHead((node, r[0].meta.branches), (node, r'[0].meta.branches), Trail(inner), Trail(inner'));
    NodesOfNode(node, Zero(), pos0, None, decide);
    RecordsParts(picks, [node], PathNodes(inner), decide);
    if node.kind.BranchKind? {
      BranchShown(node, Zero(), pos0, None, decide);
      BranchShown(node, One(), pos, must, follow);
      DeterminedByPick(node, pos0, pos, must, decide, picks);
    }
    SameTrailLists(node.lists, EnterOf(node, Zero(), pos0, None, decide), Drawn(node, pos0, None, decide),
                   Drawn(node, pos, must, follow), must, decide, picks);
  }

  lemma SameHead(x: (Node, seq<Branch>), y: (Node, seq<Branch>), a: seq<(Node, seq<Branch>)>, b: seq<(Node, seq<Branch>)>)
    requires [x] + a == [y] + b
    ensures x == y && a == b
  {
    assert ([x] + a)[0] == x && ([y] + b)[0] == y;
    assert ([x] + a)[1..] == a && ([y] + b)[1..] == b;
  }

  lemma RecordsParts(picks: map<Id, Id>, a: seq<Node>, b: seq<Node>, decide: Decider)
    requires Records(picks, a + b, decide)
    ensures Records(picks, a, decide) && Records(picks, b, decide)
  {
  }

  lemma BranchShown(node: Node, rand: Random, pos: nat, must: Option<Id>, decide: Decider)
    requires ShapeOk(node) && ShapesOkInLists(node.lists) && node.kind.BranchKind?
    ensures var b := FlattenNode(node, rand, pos, must, decide).path[0].meta.branches;
            |b| == 1 && b[0] == node.lists[Pick(node, rand, pos, must, decide)].kind.branch
  {
  }

  lemma {:induction false} SameTrailLists(lists: seq<ChildList>, enter: Enter, pos0: nat, pos: nat, must: Option<Id>, decide: Decider, picks: map<Id, Id>)
    requires UniqueIdsInLists(lists) && ShapesOkInLists(lists) && KeysOkInLists(lists) && Admissible(lists, enter)
    requires Records(picks, PathNodes(FlattenLists(lists, enter, Zero(), pos0, None, decide).path), decide)
    requires Trail(FlattenLists(lists, enter, One(), pos, must, DeciderOf(Some(picks))).path)
          == Trail(FlattenLists(lists, enter, Zero(), pos0, None, decide).path)
    ensures AllDetermined(PathNodes(FlattenLists(lists, enter, Zero(), pos0, None, decide).path), must, decide)
    decreases lists, 0
  {
    if lists != [] {
      var follow, entered, next := DeciderOf(Some(picks)), Enters(lists[0].kind, enter), NextEnter(enter);
      var head := if entered then Flatten(lists[0].steps, Zero(), pos0, None, decide) else Flat([], pos0);
      var head' := if entered then Flatten(lists[0].steps, One(), pos, must, follow) else Flat([], pos);
      var tail := FlattenLists(lists[1..], next, Zero(), head.pos, None, decide).path;
      var tail' := FlattenLists(lists[1..], next, One(), head'.pos, must, follow).path;
      PathNodesConcat(head.path, tail);
      TrailConcat(head.path, tail);
      TrailConcat(head'.path, tail');
      if entered {
        TrailInSteps(lists[0].steps, Zero(), pos0, None, decide);
        TrailInSteps(lists[0].steps, One(), pos, must, follow);
      }
      TrailInLists(lists[1..], next, Zero(), head.pos, None, decide);
      TrailInLists(lists[1..], next, One(), head'.pos, must, follow);
      SplitTrail(Trail(head'.path), Trail(tail'), Trail(head.path), Trail(tail), IdsIn(lists[0].steps), IdsInLists(lists[1..]));
      if entered { SameTrailSteps(lists[0].steps, pos0, pos, must, decide, picks); }
      SameTrailLists(lists[1..], next, head.pos, head'.pos, must, decide, picks);
    }
  }

  // ---------------------------------------------------------------- the theorem

  /** The record is right about one node. */
  predicate RecordsNode(picks: map<Id, Id>, n: Node, decide: Decider) {
    n.kind.BranchKind? ==>
      if Decided(n, decide) then n.id in picks && picks[n.id] == n.lists[decide(n).value].kind.branch.id
      else n.id !in picks
  }

  lemma {:induction false} PicksOnlyPath(path: seq<PathStep>, decide: Decider, id: Id)
    requires forall i :: 0 <= i < |path| ==> path[i].node.id != id
    ensures id !in PicksOn(path, decide)
  {
    if path != [] { PicksOnlyPath(path[..|path| - 1], decide, id); }
  }

  lemma {:induction false} PicksRecordAt(path: seq<PathStep>, decide: Decider, i: nat)
    requires i < |path| && forall a, b :: 0 <= a < b < |path| ==> path[a].node.id != path[b].node.id
    ensures RecordsNode(PicksOn(path, decide), path[i].node, decide)
  {
    var front := path[..|path| - 1];
    if i < |front| {
      assert path[i].node.id != path[|front|].node.id;
      PicksRecordAt(front, decide, i);
    } else {
      PicksOnlyPath(front, decide, path[i].node.id);
    }
  }

  lemma PicksRecord(path: seq<PathStep>, decide: Decider)
    requires Distinct(PathIds(path))
    ensures Records(PicksOn(path, decide), PathNodes(path), decide)
  {
    forall a, b | 0 <= a < b < |path| ensures path[a].node.id != path[b].node.id {
      assert PathIds(path)[a] != PathIds(path)[b];
    }
    forall i | 0 <= i < |path| ensures RecordsNode(PicksOn(path, decide), PathNodes(path)[i], decide) {
      PicksRecordAt(path, decide, i);
    }
  }

  /** The path that a replay of the debug run takes, given the node that failed. */
  function ReplayPath(g: Graph, decide: Decider, failed: Option<Id>, rand: Random): seq<PathStep>
    requires WellFormed(g)
  {
    Flatten(g.steps, rand, 0, failed, DeciderOf(Some(PicksOn(DebugPath(g.steps, decide), decide)))).path
  }

  /** Whatever is drawn, the replay takes the path of the debug run, if and only if every exclusive
      node on that path was decided, has a single branch, or holds the failed node in its first one. */
  lemma ReplayIsFaithful(g: Graph, decide: Decider, failed: Option<Id>)
    requires WellFormed(g)
    requires failed.Some? ==> failed.value in OnPath(g, DebugPath(g.steps, decide))
    ensures (forall rand: Random :: ReplayPath(g, decide, failed, rand) == DebugPath(g.steps, decide))
            <==> AllDetermined(PathNodes(DebugPath(g.steps, decide)), failed, decide)
  {
    var debug := DebugPath(g.steps, decide);
    var picks := PicksOn(debug, decide);
    PathDistinct(g.steps, Zero(), 0, None, decide);
    PicksRecord(debug, decide);
    if AllDetermined(PathNodes(debug), failed, decide) {
      forall rand: Random
        ensures ReplayPath(g, decide, failed, rand) == debug
      {
        ReplaySteps(g.steps, 0, rand, 0, failed, decide, picks);
      }
    }
    if forall rand: Random :: ReplayPath(g, decide, failed, rand) == debug {
      assert ReplayPath(g, decide, failed, One()) == debug;
      SameTrailSteps(g.steps, 0, 0, failed, decide, picks);
    }
  }

  /** An exclusive node with two empty branches and no default. */
  function NoDefault(): Graph {
    var b1, b2 := Branch("b1", "", false, [], false), Branch("b2", "", false, [], false);
    Graph(Node("trigger", TriggerKind, None, "", None, [], []),
          [Node("n", BranchKind, None, "", None, [], [ChildList(BranchList(b1), []), ChildList(BranchList(b2), [])])])
  }

  lemma NoDefaultWellFormed()
    ensures WellFormed(NoDefault())
    ensures BranchCount(NoDefault().steps[0].lists) == 2
  {
    var steps := NoDefault().steps;
    assert steps[1..] == [] && |ROOT| == 4;
    TwoEmptyBranches("n", steps[0].lists);
    assert steps[0].lists[2..] == [];
    assert ShapeOk(steps[0]);
  }

  /** Two empty branches with different ids are all that a node needs. */
  lemma TwoEmptyBranches(owner: Id, lists: seq<ChildList>)
    requires |lists| == 2 && lists[0].steps == [] && lists[1].steps == []
    requires lists[0].kind.BranchList? && lists[1].kind.BranchList?
    requires lists[0].kind.branch.id != lists[1].kind.branch.id
    ensures BranchCount(lists) == 2 && IdsInLists(lists) == {} && UniqueIdsInLists(lists)
    ensures Keys(owner, lists) == {lists[0].kind.branch.id, lists[1].kind.branch.id} && DistinctKeys(owner, lists)
    ensures KeysOkInLists(lists) && ShapesOkInLists(lists)
  {
    var rest := lists[1..];
    assert rest[0] == lists[1] && rest[1..] == [];
    assert IdsInLists(rest[1..]) == {} && UniqueIdsInLists(rest[1..]) && UniqueIds(rest[0].steps);
    assert BranchCount(rest) == 1 && IdsInLists(rest) == {} && UniqueIdsInLists(rest);
    assert Keys(owner, rest) == {lists[1].kind.branch.id};
  }

  /** Without a default the replay of a debug run can take another branch than the debug run took. */
  lemma UndecidedReplayDiffers(holds: Holds)
    ensures WellFormed(NoDefault())
    ensures exists rand: Random ::
              ReplayPath(NoDefault(), BranchDecider(holds), None, rand) != DebugPath(NoDefault().steps, BranchDecider(holds))
  {
    var g, decide := NoDefault(), BranchDecider(holds);
    NoDefaultWellFormed();
    var n := g.steps[0];
    var debug := DebugPath(g.steps, decide);
    assert FlattenNode(n, Zero(), 0, None, decide).path[0].node == n;
    assert debug[0].node == n && PathNodes(debug)[0] == n;
    assert decide(n) == None;
    ReplayIsFaithful(g, decide, None);
  }

  /** An exclusive node that has a default branch is always decided. */
  ghost predicate DefaultsOn(nodes: seq<Node>) {
    forall n :: n in nodes && n.kind.BranchKind? ==> FirstDefault(n.lists).Some?
  }

  lemma DefaultsDetermine(nodes: seq<Node>, must: Option<Id>, holds: Holds)
    requires DefaultsOn(nodes)
    ensures AllDetermined(nodes, must, BranchDecider(holds))
  {
  }

  /** When every exclusive node has a default branch, the trace that is built for a debug run shows
      the path that the payload decided, for every payload and every draw. */
  lemma DebugTraceFaithful(g: Graph, holds: Holds, run: Run, rand: Random)
    requires WellFormed(g) && DefaultsOn(PathNodes(DebugPath(g.steps, BranchDecider(holds))))
    requires run.pendingNode.None? && run.startNode.None?
    requires run.branchPicks == Some(PicksOn(DebugPath(g.steps, BranchDecider(holds)), BranchDecider(holds)))
    requires run.failedNode.Some? ==> run.failedNode.value in OnPath(g, DebugPath(g.steps, BranchDecider(holds)))
    ensures FullPath(g, run, rand) == [PathStep(g.trigger, Meta([], None))] + DebugPath(g.steps, BranchDecider(holds))
    ensures PayloadDecides(FullPath(g, run, rand)[1..], holds)
  {
    DebugPathDecides(g.steps, holds);
    DefaultsDetermine(PathNodes(DebugPath(g.steps, BranchDecider(holds))), run.failedNode, holds);
    ReplayIsFaithful(g, BranchDecider(holds), run.failedNode);
    assert ReplayPath(g, BranchDecider(holds), run.failedNode, rand) == DebugPath(g.steps, BranchDecider(holds));
  }
}
