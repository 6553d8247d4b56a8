/** Replaying a run: the path it took, the status of each step and the outputs its inputs were
    resolved against. */
module RunTrace {
  import opened Helpers
  import opened Workflow
  import opened TreeEdits
  import opened Scope
  import opened References
  import opened RunPath

  datatype RunStatus = Succeeds | Fails | TimesOut | Runs | Waits | Stops | Duplicate

  datatype Status = Success | Failed | Timeout | Running | Waiting | Stopped | Deduped | Reused | Skipped | Pending

  /** The sample output of a node is adapted to the payload of the run. */
  datatype Output = Payload(text: string) | Sample(node: Node, payload: Option<string>) | BranchTaken(name: string)

  /** `vars` are the project's variables and `failure` is the code of the failure, as recorded with the run. */
  datatype Run = Run(status: RunStatus, failedNode: Option<Id>, pendingNode: Option<Id>, startNode: Option<Id>,
                     stopIndex: Option<int>, branchPicks: Option<map<Id, Id>>, payload: Option<string>,
                     vars: map<string, string>, failure: Option<string>, startedAt: int, duration: nat)

  /** What becomes of a token: text, the value of a variable, a path into an output, or the token as it is. */
  datatype Resolved = Plain(text: string) | Variable(value: string) | Found(output: Output, path: string) | Unresolved(token: Token)

  datatype Input = TriggerInput(payload: Option<string>) | NodeInput(config: seq<Resolved>)

  datatype TraceStep = TraceStep(node: Node, meta: Meta, status: Status, startedAt: int, duration: Option<nat>,
                                 input: Input, output: Option<Output>, error: Option<string>)

  // ---------------------------------------------------------------- the path of a run

  function MustInclude(run: Run): Option<Id> {
    if run.failedNode.Some? then run.failedNode
    else if run.pendingNode.Some? then run.pendingNode
    else run.startNode
  }

  /** The first branch with the given id. */
  function BranchWithId(lists: seq<ChildList>, id: Id): (r: Option<nat>)
    ensures r.Some? ==> r.value < BranchCount(lists) && lists[r.value].kind.branch.id == id
    ensures r.Some? ==> forall i :: 0 <= i < r.value ==> lists[i].kind.branch.id != id
    ensures r.None? ==> forall i :: 0 <= i < BranchCount(lists) ==> lists[i].kind.branch.id != id
  {
    if lists == [] || !lists[0].kind.BranchList? then None
    else if lists[0].kind.branch.id == id then Some(0)
    else match BranchWithId(lists[1..], id) case None => None case Some(i) => Some(i + 1)
  }

  function DeciderOf(picks: Option<map<Id, Id>>): Decider {
    (node: Node) =>
      if picks.Some? && node.id in picks.value then BranchWithId(node.lists, picks.value[node.id]) else None
  }

  function RunFlat(g: Graph, run: Run, rand: Random): Flat
    requires ShapesOk(g.steps)
  {
    Flatten(g.steps, rand, 0, MustInclude(run), DeciderOf(run.branchPicks))
  }

  function FullPath(g: Graph, run: Run, rand: Random): seq<PathStep>
    requires ShapesOk(g.steps)
  {
    [PathStep(g.trigger, Meta([], None))] + RunFlat(g, run, rand).path
  }

  // ---------------------------------------------------------------- statuses

  function FindIndex(path: seq<PathStep>, id: Id): (r: int)
    ensures -1 <= r < |path|
    ensures r >= 0 ==> path[r].node.id == id && forall i :: 0 <= i < r ==> path[i].node.id != id
    ensures r == -1 ==> forall i :: 0 <= i < |path| ==> path[i].node.id != id
  {
    if path == [] then -1
    else if path[0].node.id == id then 0
    else var r := FindIndex(path[1..], id); if r < 0 then -1 else r + 1
  }

  datatype Marks = Marks(fail: int, stop: int, reuseUntil: int)

  function MarksOf(run: Run, path: seq<PathStep>): Marks {
    var wait := if run.pendingNode.Some? then FindIndex(path, run.pendingNode.value) else -1;
    Marks(
      if run.status == Fails || run.status == TimesOut then
        Max(1, if run.failedNode.Some? then FindIndex(path, run.failedNode.value) else |path| - 1)
      else -1,
      if run.status == Runs || run.status == Waits || run.status == Stops then
        Min(|path| - 1, Max(1, if wait > 0 then wait else if run.stopIndex.Some? then run.stopIndex.value else |path| / 2))
      else -1,
      if run.startNode.Some? then FindIndex(path, run.startNode.value) else -1)
  }

  /** The status of the step at which a run stands still. */
  function Held(s: RunStatus): Status {
    match s case Waits => Waiting case Stops => Stopped case _ => Running
  }

  function StatusAt(run: Run, m: Marks, i: nat): Status {
    if m.reuseUntil > 0 && i < m.reuseUntil then Reused
    else if m.fail >= 0 && i == m.fail then (if run.status == TimesOut then Timeout else Failed)
    else if m.fail >= 0 && i > m.fail then Skipped
    else if m.stop >= 0 && i == m.stop then Held(run.status)
    else if m.stop >= 0 && i > m.stop then Pending
    else Success
  }

  predicate Executed(s: Status) { s != Skipped && s != Pending }

  predicate Produces(s: Status) { s == Success || s == Reused }

  // ---------------------------------------------------------------- outputs and inputs

  function OutputOf(step: PathStep, run: Run): Output {
    if step.node.kind.TriggerKind? && run.payload.Some? then Payload(run.payload.value)
    else if step.node.kind.BranchKind? && step.meta.branches != [] && step.meta.branches[0].name != ""
    then BranchTaken(step.meta.branches[0].name)
    else Sample(step.node, run.payload)
  }

  function TriggerOutput(g: Graph, run: Run): Output {
    if run.payload.Some? then Payload(run.payload.value) else Sample(g.trigger, None)
  }

  /** The outputs recorded before step `i`. */
  function Outs(g: Graph, run: Run, path: seq<PathStep>, m: Marks, i: nat): map<Id, Output>
    requires i <= |path|
  {
    if i == 0 then map[g.trigger.id := TriggerOutput(g, run)]
    else
      var outs := Outs(g, run, path, m, i - 1);
      if Produces(StatusAt(run, m, i - 1)) then outs[path[i - 1].node.id := OutputOf(path[i - 1], run)] else outs
  }

  predicate WordChar(c: char) {
    'a' <= c <= 'z' || 'A' <= c <= 'Z' || '0' <= c <= '9' || c == '_' || c == '-'
  }

  predicate BlankChar(c: char) {
    || '\U{9}' <= c <= '\U{d}' || c == ' ' || c == '\U{a0}' || c == '\U{1680}' || '\U{2000}' <= c <= '\U{200a}'
    || c == '\U{2028}' || c == '\U{2029}' || c == '\U{202f}' || c == '\U{205f}' || c == '\U{3000}' || c == '\U{feff}'
  }

  /** The runner reads only references of the form `head.path`, where the head is made of word
      characters and the path is not empty and has no blanks; the check reads more than that. */
  predicate Readable(token: Token)
    requires token.Reference?
  {
    && token.head != "" && (forall i :: 0 <= i < |token.head| ==> WordChar(token.head[i]))
    && |token.path| > 1 && token.path[0] == '.'
    && (forall i :: 1 <= i < |token.path| ==> !BlankChar(token.path[i]))
  }

  /** The word `config` means the variables, which are looked up by the whole path, and the word
      `trigger` means the payload; any other head is looked up among the outputs. */
  function Resolve(token: Token, run: Run, outs: map<Id, Output>): Resolved {
    match token
    case Text(text) => Plain(text)
    case Reference(head, path) =>
      if !Readable(token) then Unresolved(token)
      else if head == "config" then
        (if path[1..] in run.vars then Variable(run.vars[path[1..]]) else Unresolved(token))
      else if head == "trigger" then
        (if run.payload.Some? then Found(Payload(run.payload.value), path[1..]) else Unresolved(token))
      else if head in outs then Found(outs[head], path[1..])
      else Unresolved(token)
  }

  function ResolveAll(expr: Expr, run: Run, outs: map<Id, Output>): (r: seq<Resolved>)
    ensures |r| == |expr| && forall i :: 0 <= i < |expr| ==> r[i] == Resolve(expr[i], run, outs)
  {
    if expr == [] then [] else [Resolve(expr[0], run, outs)] + ResolveAll(expr[1..], run, outs)
  }

  function InputOf(node: Node, run: Run, outs: map<Id, Output>): Input {
    if node.kind.TriggerKind? then TriggerInput(run.payload) else NodeInput(ResolveAll(node.config, run, outs))
  }

  /** The duration that a draw selects. */
  function StepTime(draw: nat): (d: nat)
    ensures 60 <= d <= 960
  {
    60 + draw % 901
  }

  /** Every step but the trigger draws its duration, after the draws that chose the path. */
  function DurationAt(path: seq<PathStep>, rand: Random, pos: nat, i: nat): nat
    requires i < |path|
  {
    if path[i].node.kind.TriggerKind? then 0 else StepTime(DrawAt(path, rand, pos, i))
  }

  /** The draw for a step: one for each step before it, but for triggers, after the first `pos`. */
  function DrawAt(path: seq<PathStep>, rand: Random, pos: nat, i: nat): nat
    requires i < |path|
  {
    rand(pos + Draws(path, i))
  }

  function Draws(path: seq<PathStep>, i: nat): nat
    requires i <= |path|
  {
    if i == 0 then 0 else Draws(path, i - 1) + if path[i - 1].node.kind.TriggerKind? then 0 else 1
  }

  function Offset(path: seq<PathStep>, rand: Random, pos: nat, i: nat): nat
    requires i <= |path|
  {
    if i == 0 then 0 else Offset(path, rand, pos, i - 1) + DurationAt(path, rand, pos, i - 1)
  }

  predicate FailedStatus(s: Status) { s == Failed || s == Timeout }

  /** The recorded failure, or else what is usual for the status. */
  function ErrorOf(run: Run, status: Status): Option<string> {
    if !FailedStatus(status) then None
    else if run.failure.Some? then run.failure
    else Some(if status == Timeout then "STEP_TIMEOUT" else "UPSTREAM_ERROR")
  }

  /** No duration if the step was not executed, and none of its own if it was reused. */
  function ShownDuration(status: Status, duration: nat): Option<nat> {
    if !Executed(status) then None else if status == Reused then Some(0) else Some(duration)
  }

  function StepAt(g: Graph, run: Run, path: seq<PathStep>, m: Marks, rand: Random, pos: nat, i: nat): TraceStep
    requires i < |path|
  {
    var status := StatusAt(run, m, i);
    TraceStep(
      path[i].node, path[i].meta, status, run.startedAt + Offset(path, rand, pos, i),
      ShownDuration(status, DurationAt(path, rand, pos, i)),
      InputOf(path[i].node, run, Outs(g, run, path, m, i)),
      if Produces(status) then Some(OutputOf(path[i], run)) else None,
      ErrorOf(run, status))
  }

  lemma StepIs(g: Graph, run: Run, path: seq<PathStep>, m: Marks, rand: Random, pos: nat, i: nat,
               duration: nat, startedAt: int, input: Input, output: Option<Output>)
    requires i < |path| && duration == DurationAt(path, rand, pos, i) && startedAt == run.startedAt + Offset(path, rand, pos, i)
    requires input == InputOf(path[i].node, run, Outs(g, run, path, m, i))
    requires output == if Produces(StatusAt(run, m, i)) then Some(OutputOf(path[i], run)) else None
    ensures var status := StatusAt(run, m, i);
            var shown := ShownDuration(status, duration);
            StepAt(g, run, path, m, rand, pos, i)
              == TraceStep(path[i].node, path[i].meta, status, startedAt, shown, input, output, ErrorOf(run, status))
  {
  }

  /** Replays a path step by step, recording outputs and start times as it goes. */
  method Replay(g: Graph, run: Run, path: seq<PathStep>, m: Marks, rand: Random, pos: nat) returns (trace: seq<TraceStep>)
    ensures |trace| == |path|
    ensures forall i :: 0 <= i < |path| ==> trace[i] == StepAt(g, run, path, m, rand, pos, i)
  {
    var outs := map[g.trigger.id := TriggerOutput(g, run)];
    var offset, drawn := 0, pos;
    trace := [];
    for i := 0 to |path|
      invariant |trace| == i
      invariant outs == Outs(g, run, path, m, i)
      invariant offset == Offset(path, rand, pos, i) && drawn == pos + Draws(path, i)
      invariant forall k :: 0 <= k < i ==> trace[k] == StepAt(g, run, path, m, rand, pos, k)
    {
      var node := path[i].node;
      var duration := 0;
      if !node.kind.TriggerKind? {
        duration := StepTime(rand(drawn));
        drawn := drawn + 1;
      }
      assert duration == DurationAt(path, rand, pos, i);
      var startedAt := run.startedAt + offset;
      offset := offset + duration;
      var status := StatusAt(run, m, i);
      var input := InputOf(node, run, outs);
      var output := None;
      if Produces(status) {
        output := Some(OutputOf(path[i], run));
        outs := outs[node.id := output.value];
      }
      var shown := ShownDuration(status, duration);
      StepIs(g, run, path, m, rand, pos, i, duration, startedAt, input, output);
      trace := trace + [TraceStep(node, path[i].meta, status, startedAt, shown, input, output, ErrorOf(run, status))];
    }
  }

  /** The trace of a run; one that was dropped as a duplicate shows its trigger only. */
  method BuildRunTrace(g: Graph, run: Run, rand: Random) returns (trace: seq<TraceStep>)
    requires ShapesOk(g.steps)
    ensures run.status == Duplicate ==>
              trace == [TraceStep(g.trigger, Meta([], None), Deduped, run.startedAt, Some(run.duration), TriggerInput(None),
                                  Some(TriggerOutput(g, run)), None)]
    ensures run.status != Duplicate ==>
              var path := FullPath(g, run, rand);
              && |trace| == |path|
              && forall i :: 0 <= i < |path| ==>
                   trace[i] == StepAt(g, run, path, MarksOf(run, path), rand, RunFlat(g, run, rand).pos, i)
  {
    if run.status == Duplicate {
      trace := [TraceStep(g.trigger, Meta([], None), Deduped, run.startedAt, Some(run.duration), TriggerInput(None),
                          Some(TriggerOutput(g, run)), None)];
    } else {
      var path := FullPath(g, run, rand);
      trace := Replay(g, run, path, MarksOf(run, path), rand, RunFlat(g, run, rand).pos);
    }
  }

  // ---------------------------------------------------------------- checked references resolve

  predicate DistinctSteps(path: seq<PathStep>) {
    forall i, j :: 0 <= i < j < |path| ==> path[i].node.id != path[j].node.id
  }

  /** What is on record: the output of every step before that produced one. */
  lemma {:induction false} OutsRecorded(g: Graph, run: Run, path: seq<PathStep>, m: Marks, i: nat)
    requires i <= |path| && DistinctSteps(path)
    ensures forall j :: 0 <= j < i && Produces(StatusAt(run, m, j)) ==>
              path[j].node.id in Outs(g, run, path, m, i) && Outs(g, run, path, m, i)[path[j].node.id] == OutputOf(path[j], run)
  {
    if i > 0 { OutsRecorded(g, run, path, m, i - 1); }
  }

  /** Nothing is on record but the trigger and nodes of the workflow. */
  lemma {:induction false} OutsOnly(g: Graph, run: Run, rand: Random, m: Marks, i: nat)
    requires ShapesOk(g.steps) && i <= |FullPath(g, run, rand)|
    ensures Outs(g, run, FullPath(g, run, rand), m, i).Keys <= IdsIn(g.steps) + {g.trigger.id}
  {
    if i > 0 {
      OutsOnly(g, run, rand, m, i - 1);
      StepIsNode(g, run, rand, i - 1);
    }
  }

  /** Every step is the trigger, at the front, or a node outside error lists. */
  lemma StepIsNode(g: Graph, run: Run, rand: Random, i: nat)
    requires ShapesOk(g.steps) && i < |FullPath(g, run, rand)|
    ensures var id := FullPath(g, run, rand)[i].node.id;
            if i == 0 then id == g.trigger.id else id in Reachable(g.steps) && id in IdsIn(g.steps)
  {
    if i > 0 {
      var flat := RunFlat(g, run, rand).path;
      assert PathIds(flat)[i - 1] == FullPath(g, run, rand)[i].node.id;
      PathReachable(g.steps, rand, 0, MustInclude(run), DeciderOf(run.branchPicks));
      ReachableIds(g.steps);
    }
  }

  lemma FullPathDistinct(g: Graph, run: Run, rand: Random)
    requires WellFormed(g)
    ensures DistinctSteps(FullPath(g, run, rand))
  {
    var path, flat := FullPath(g, run, rand), RunFlat(g, run, rand).path;
    PathDistinct(g.steps, rand, 0, MustInclude(run), DeciderOf(run.branchPicks));
    forall i, j | 0 <= i < j < |path|
      ensures path[i].node.id != path[j].node.id
    {
      StepIsNode(g, run, rand, j);
      if i > 0 { assert PathIds(flat)[i - 1] != PathIds(flat)[j - 1]; }
    }
  }

  /** Whatever comes before a step that was executed has produced its output. */
  lemma ProducedBefore(run: Run, path: seq<PathStep>, i: nat, j: nat)
    requires j < i && Executed(StatusAt(run, MarksOf(run, path), i))
    ensures Produces(StatusAt(run, MarksOf(run, path), j))
  {
  }

  /** Whatever a node may reference comes before it on the path of the run. */
  lemma UpstreamEarlier(g: Graph, run: Run, rand: Random, i: nat, u: Id) returns (k: nat)
    requires WellFormed(g) && 0 < i < |FullPath(g, run, rand)|
    requires u in Upstream(g, FullPath(g, run, rand)[i].node.id)
    ensures k < i && FullPath(g, run, rand)[k].node.id == u
  {
    var must, decide := MustInclude(run), DeciderOf(run.branchPicks);
    var path := Flatten(g.steps, rand, 0, must, decide).path;
    var ids, id := PathIds(path), path[i - 1].node.id;
    assert FullPath(g, run, rand)[i] == path[i - 1] && ids[i - 1] == id;
    PathReachable(g.steps, rand, 0, must, decide);
    ReachableIds(g.steps);
    var e := EntryExists(g.steps, TriggerScope(g), [], id);
    ContextOf(g, e);
    ScopeOnPath(g.steps, TriggerScope(g), [], rand, 0, must, decide, e);
    if u in TriggerScope(g) {
      k := 0;
    } else {
      assert u in ids[..i - 1];
      var j :| 0 <= j < i - 1 && ids[j] == u;
      k := j + 1;
      assert FullPath(g, run, rand)[k] == path[j];
    }
  }

  /** Scope soundness, from the static check to the run: when a step is executed, whatever its node
      may reference has come before, and the output it gave there is on record. */
  lemma UpstreamRecorded(g: Graph, run: Run, rand: Random, i: nat, u: Id) returns (k: nat)
    requires WellFormed(g)
    requires var path := FullPath(g, run, rand);
             && i < |path| && Executed(StatusAt(run, MarksOf(run, path), i))
             && u in Upstream(g, path[i].node.id)
    ensures var path := FullPath(g, run, rand);
            var outs := Outs(g, run, path, MarksOf(run, path), i);
            k < i && path[k].node.id == u && u in outs && outs[u] == OutputOf(path[k], run)
  {
    var path := FullPath(g, run, rand);
    if i == 0 {
      TriggerSeesNothing(g);
      assert false;
    }
    k := UpstreamEarlier(g, run, rand, i, u);
    ProducedBefore(run, path, i, k);
    FullPathDistinct(g, run, rand);
    OutsRecorded(g, run, path, MarksOf(run, path), i);
  }

  lemma TriggerSeesNothing(g: Graph)
    requires WellFormed(g)
    ensures Upstream(g, g.trigger.id) == []
  {
    forall f | f in NodeContexts(g) && f.id == g.trigger.id
      ensures f == Entry(g.trigger.id, [], [])
    {
      if f in Visit(g.steps, TriggerScope(g), []) { EntryIds(g.steps, TriggerScope(g), [], f); }
    }
    LookupFinds(NodeContexts(g), Entry(g.trigger.id, [], []));
  }

  /** The word is not the id of a node; ids are generated and never take the form of a word. */
  predicate NotAnId(g: Graph, word: string) { word != g.trigger.id && word !in IdsIn(g.steps) }

  /** Why a reference that passes the check is left as it is. */
  predicate LeftAsText(token: Token, run: Run)
    requires token.Reference?
  {
    || !Readable(token)
    || token.head == "loop"
    || (token.head == "trigger" && run.payload.None?)
    || (token.head == "config" && token.path[1..] !in run.vars)
  }

  /** References that pass the check are resolved when the step runs, with four exceptions that a
      caller can see beforehand: a form that the runner does not read, the word `loop`, the word
      `trigger` in a run without a payload, and a variable that the run does not have. */
  lemma CheckedReferencesResolve(g: Graph, run: Run, rand: Random, i: nat, token: Token)
    requires WellFormed(g) && NotAnId(g, "loop")
    requires var path := FullPath(g, run, rand);
             && i < |path| && Executed(StatusAt(run, MarksOf(run, path), i)) && ChecksOut(g, path[i].node)
             && token in path[i].node.config && token.Reference?
    ensures var path := FullPath(g, run, rand);
            Resolve(token, run, Outs(g, run, path, MarksOf(run, path), i)).Unresolved? <==> LeftAsText(token, run)
  {
    var path := FullPath(g, run, rand);
    assert token in RefsIn(path[i].node.config);
    assert token in OwnRefs(path[i].node);
    if token.head == "loop" {
      OutsOnly(g, run, rand, MarksOf(run, path), i);
    } else if token.head != "config" {
      var k := UpstreamRecorded(g, run, rand, i, token.head);
    }
  }

  /** A webhook trigger and one action with the given settings. */
  function OneAction(config: Expr): Graph {
    Graph(Node("trigger", TriggerKind, Some("webhook"), "", None, [], []), [Node("n", ActionKind, None, "", None, config, [])])
  }

  /** The same action as the body of a loop. */
  function LoopedAction(config: Expr): Graph {
    var body := ChildList(LoopBody, OneAction(config).steps);
    OneAction(config).(steps := [Node("l", LoopKind(false), None, "", None, [], [body])])
  }

  /** A successful run without variables. */
  function PlainRun(payload: Option<string>): Run { Run(Succeeds, None, None, None, None, None, payload, map[], None, 0, 0) }

  /** Step `i` of the run is executed, its node passes the check, and the reference stays as it is. */
  ghost predicate PassesUnresolved(g: Graph, run: Run, rand: Random, i: nat, token: Token) {
    && WellFormed(g) && NotAnId(g, "loop")
    && var path := FullPath(g, run, rand);
    && i < |path| && Executed(StatusAt(run, MarksOf(run, path), i)) && ChecksOut(g, path[i].node)
    && token in path[i].node.config && Resolve(token, run, Outs(g, run, path, MarksOf(run, path), i)).Unresolved?
  }

  lemma OneActionOk(config: Expr)
    ensures WellFormed(OneAction(config)) && NotAnId(OneAction(config), "loop") && IdsIn(OneAction(config).steps) == {"n"}
  {
    var g := OneAction(config);
    assert g.steps == [g.steps[0]];
    LeafOk(g.steps[0]);
  }

  lemma LoopedActionOk(config: Expr)
    ensures WellFormed(LoopedAction(config)) && NotAnId(LoopedAction(config), "loop")
  {
    var g, n := LoopedAction(config), OneAction(config).steps[0];
    assert OneAction(config).steps == [n] && g.steps == [g.steps[0]];
    LeafOk(n);
    LoopOk(g.steps[0], n);
  }

  lemma OneActionChecks(payload: Option<string>, rand: Random, token: Token)
    requires token.Reference? && (token.head == "trigger" || token.head == "config")
    ensures WellFormed(OneAction([token])) && NotAnId(OneAction([token]), "loop")
    ensures var g := OneAction([token]);
            var path := FullPath(g, PlainRun(payload), rand);
            |path| == 2 && path[1].node == g.steps[0] && ChecksOut(g, path[1].node)
  {
    var g := OneAction([token]);
    var n := g.steps[0];
    OneActionOk([token]);
    assert g.steps[1..] == [];
    assert Flatten(g.steps, rand, 0, None, DeciderOf(None)).path == [PathStep(n, Meta([], None))];
    var e := Entry("n", ["trigger"], []);
    assert Visit(g.steps, ["trigger"], [])[0] == e;
    ContextOf(g, e);
    assert RefsIn(n.config) == n.config;
  }

  /** The word `trigger` without a payload. */
  lemma TriggerWordUnresolved(rand: Random)
    ensures PassesUnresolved(OneAction([Reference("trigger", ".id")]), PlainRun(None), rand, 1, Reference("trigger", ".id"))
  {
    var token := Reference("trigger", ".id");
    OneActionChecks(None, rand, token);
    CheckedReferencesResolve(OneAction([token]), PlainRun(None), rand, 1, token);
  }

  /** A node that is named without a path, whatever its output. */
  lemma NoPathUnresolved(payload: Option<string>, rand: Random)
    ensures PassesUnresolved(OneAction([Reference("trigger", "")]), PlainRun(payload), rand, 1, Reference("trigger", ""))
  {
    var token := Reference("trigger", "");
    OneActionChecks(payload, rand, token);
    CheckedReferencesResolve(OneAction([token]), PlainRun(payload), rand, 1, token);
  }

  /** A variable that the run does not have. */
  lemma VariableUnresolved(rand: Random)
    ensures PassesUnresolved(OneAction([Reference("config", ".key")]), PlainRun(None), rand, 1, Reference("config", ".key"))
  {
    var token := Reference("config", ".key");
    OneActionChecks(None, rand, token);
    CheckedReferencesResolve(OneAction([token]), PlainRun(None), rand, 1, token);
  }

  /** The word `loop` inside a loop. */
  lemma LoopWordUnresolved(rand: Random)
    ensures PassesUnresolved(LoopedAction([Reference("loop", ".item")]), PlainRun(None), rand, 2, Reference("loop", ".item"))
  {
    var token := Reference("loop", ".item");
    LoopedActionChecks(rand, token);
    CheckedReferencesResolve(LoopedAction([token]), PlainRun(None), rand, 2, token);
  }

  lemma LoopedActionChecks(rand: Random, token: Token)
    requires token.Reference? && token.head == "loop"
    ensures WellFormed(LoopedAction([token])) && NotAnId(LoopedAction([token]), "loop")
    ensures var g, n := LoopedAction([token]), OneAction([token]).steps[0];
            var path := FullPath(g, PlainRun(None), rand);
            |path| == 3 && path[2].node == n && ChecksOut(g, n)
  {
    LoopedActionOk([token]);
    LoopedActionPath(rand, [token]);
    LoopedActionScope([token]);
    assert RefsIn([token]) == [token];
  }

  lemma LoopedActionPath(rand: Random, config: Expr)
    requires WellFormed(LoopedAction(config))
    ensures var path := FullPath(LoopedAction(config), PlainRun(None), rand);
            |path| == 3 && path[2].node == OneAction(config).steps[0]
  {
    var g, inner := LoopedAction(config), OneAction(config).steps;
    var l, n := g.steps[0], inner[0];
    OneActionOk(config);
    assert g.steps[1..] == [] && inner[1..] == [] && l.lists[1..] == [];
    assert Flatten(inner, rand, 0, None, DeciderOf(None)).path == [PathStep(n, Meta([], None))];
    assert FlattenLists(l.lists, Body, rand, 0, None, DeciderOf(None)).path == [PathStep(n, Meta([], None))];
    var whole := FlattenNode(l, rand, 0, None, DeciderOf(None)).path;
    assert |whole| == 2 && whole[1].node == n;
    assert Flatten(g.steps, rand, 0, None, DeciderOf(None)).path == whole + [];
  }

  lemma LoopedActionScope(config: Expr)
    requires WellFormed(LoopedAction(config))
    ensures Lookup(NodeContexts(LoopedAction(config)), "n") == Some(Entry("n", ["trigger", "l"], ["l"]))
  {
    var g, inner := LoopedAction(config), OneAction(config).steps;
    var l := g.steps[0];
    var e := Entry("n", ["trigger", "l"], ["l"]);
    assert Visit(inner, ["trigger", "l"], ["l"])[0] == e;
    assert LoopsInside("l", LoopBody, []) == ["l"] && ["trigger"] + ["l"] == ["trigger", "l"];
    assert VisitLists("l", l.lists, ["trigger", "l"], [])[0] == e;
    assert Visit(g.steps, ["trigger"], [])[1] == e;
    ContextOf(g, e);
  }

  // ---------------------------------------------------------------- the shape of a trace

  predicate Terminal(s: Status) { s == Failed || s == Timeout || s == Running || s == Waiting || s == Stopped }

  /** Every trace reads: reused steps, successful steps, at most one step that ended or holds the
      run, and then only skipped or only pending steps. */
  lemma TraceShape(run: Run, path: seq<PathStep>) returns (a: nat, b: nat, c: nat)
    requires run.status != Duplicate && path != []
    ensures a <= b <= c <= |path| && c <= b + 1
    ensures var m := MarksOf(run, path);
            && (forall i :: 0 <= i < a ==> StatusAt(run, m, i) == Reused)
            && (forall i :: a <= i < b ==> StatusAt(run, m, i) == Success)
            && (forall i :: b <= i < c ==> Terminal(StatusAt(run, m, i)))
            && ((forall i :: c <= i < |path| ==> StatusAt(run, m, i) == Skipped)
                || (forall i :: c <= i < |path| ==> StatusAt(run, m, i) == Pending))
  {
    var m := MarksOf(run, path);
    a := if m.reuseUntil > 0 then m.reuseUntil else 0;
    var end := if m.fail >= 0 then m.fail else if m.stop >= 0 then m.stop else |path|;
    b := if end < a then a else if end < |path| then end else |path|;
    c := if end == b && b < |path| then b + 1 else b;
  }

  /** A failed run shows its failure exactly when the failing position is on the path and not before
      the step from which results were taken anew; it then shows it once. */
  lemma FailureShown(run: Run, path: seq<PathStep>)
    requires (run.status == Fails || run.status == TimesOut) && path != []
    ensures var m := MarksOf(run, path);
            && ((exists i :: 0 <= i < |path| && FailedStatus(StatusAt(run, m, i)))
                <==> m.fail < |path| && m.reuseUntil <= m.fail)
            && forall i, j | 0 <= i < j < |path| :: !(FailedStatus(StatusAt(run, m, i)) && FailedStatus(StatusAt(run, m, j)))
  {
    var m := MarksOf(run, path);
    if m.fail < |path| && m.reuseUntil <= m.fail {
      assert FailedStatus(StatusAt(run, m, m.fail));
    }
  }

  /** A node outside error lists that a run has to include is found on its path, after the trigger. */
  lemma FoundOnPath(g: Graph, run: Run, rand: Random, id: Id)
    requires WellFormed(g) && MustInclude(run) == Some(id) && id in Reachable(g.steps)
    ensures var path := FullPath(g, run, rand); 0 < FindIndex(path, id) && path[FindIndex(path, id)].node.id == id
  {
    var path, flat := FullPath(g, run, rand), RunFlat(g, run, rand);
    ForcedOnPath(g.steps, rand, 0, id, DeciderOf(run.branchPicks));
    ReachableIds(g.steps);
    var k :| 0 <= k < |flat.path| && PathIds(flat.path)[k] == id;
    assert path[k + 1].node.id == id;
    assert path[0].node.id != id;
  }

  /** The failure is shown at the step of the given node. */
  ghost predicate ShownAt(run: Run, path: seq<PathStep>, id: Id) {
    exists i :: 0 <= i < |path| && FailedStatus(StatusAt(run, MarksOf(run, path), i)) && path[i].node.id == id
  }

  /** A failed run shows the failure at its failed node if and only if that node lies outside every
      error list, so that it is not the trigger either, and no results were reused beyond it. The
      failure of the trigger or of a node in an error list is put on the first step instead. */
  lemma FailureShownAtNode(g: Graph, run: Run, rand: Random, id: Id)
    requires WellFormed(g) && (run.status == Fails || run.status == TimesOut) && run.failedNode == Some(id)
    ensures var path := FullPath(g, run, rand);
            var m := MarksOf(run, path);
            && (ShownAt(run, path, id) <==> id in Reachable(g.steps) && m.reuseUntil <= m.fail)
            && (id in Reachable(g.steps) ==> 0 < m.fail < |path| && path[m.fail].node.id == id)
            && (id !in Reachable(g.steps) ==> m.fail == 1)
  {
    var path := FullPath(g, run, rand);
    var m := MarksOf(run, path);
    if id in Reachable(g.steps) {
      FoundOnPath(g, run, rand, id);
      if m.reuseUntil <= m.fail { assert FailedStatus(StatusAt(run, m, m.fail)); }
    } else {
      forall i | 0 < i < |path| ensures path[i].node.id != id {
        StepIsNode(g, run, rand, i);
      }
    }
  }

  /** A run that failed at its trigger. */
  function TriggerFails(): Run { PlainRun(None).(status := Fails, failedNode := Some("trigger")) }

  /** The trigger is shown as successful, and the action after it as failed. */
  lemma TriggerFailureMisplaced(rand: Random)
    ensures WellFormed(OneAction([]))
    ensures var g, run := OneAction([]), TriggerFails();
            var path := FullPath(g, run, rand);
            && |path| == 2 && path[0].node == g.trigger && path[1].node == g.steps[0]
            && StatusAt(run, MarksOf(run, path), 0) == Success && StatusAt(run, MarksOf(run, path), 1) == Failed
  {
    var g := OneAction([]);
    OneActionOk([]);
    assert g.steps[1..] == [];
    assert Flatten(g.steps, rand, 0, Some("trigger"), DeciderOf(None)).path == [PathStep(g.steps[0], Meta([], None))];
  }
}
