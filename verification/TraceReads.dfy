/** What a trace tells its reader: which branches were taken, what every reference became and where
    it was read from, what each step put out, where a run stands, and when each step started. */
module TraceReads {
  import opened Workflow
  import opened Scope
  import opened References
  import opened RunPath
  import opened PathChoices
  import opened RunTrace

  /** The trace that is built for a run which was not dropped as a duplicate. */
  ghost predicate IsTrace(g: Graph, run: Run, rand: Random, trace: seq<TraceStep>)
    requires ShapesOk(g.steps)
  {
    var path := FullPath(g, run, rand);
    && run.status != Duplicate && |trace| == |path|
    && forall i :: 0 <= i < |path| ==>
         trace[i] == StepAt(g, run, path, MarksOf(run, path), rand, RunFlat(g, run, rand).pos, i)
  }

  method TraceOf(g: Graph, run: Run, rand: Random) returns (trace: seq<TraceStep>)
    requires ShapesOk(g.steps) && run.status != Duplicate
    ensures IsTrace(g, run, rand, trace)
  {
    trace := BuildRunTrace(g, run, rand);
  }

  // ---------------------------------------------------------------- branches

  /** Branch `k` is the one that the record names, or that holds the node which has to be shown. */
  ghost predicate RecordedBranch(node: Node, k: nat, run: Run)
    requires k < BranchCount(node.lists)
  {
    var lists, must := node.lists, MustInclude(run);
    if HoldsForced(node, must) then
      && must.value in IdsIn(lists[k].steps)
      && forall j :: 0 <= j < k ==> must.value !in IdsIn(lists[j].steps)
    else if run.branchPicks.Some? && node.id in run.branchPicks.value
            && exists j :: 0 <= j < BranchCount(lists) && lists[j].kind.branch.id == run.branchPicks.value[node.id] then
      lists[k].kind.branch.id == run.branchPicks.value[node.id]
    else true
  }

  /** Every exclusive node in a trace shows the branch that the record names, unless another one
      holds the node that has to be shown. */
  lemma TraceShowsPicks(g: Graph, run: Run, rand: Random, trace: seq<TraceStep>, i: nat) returns (k: nat)
    requires ShapesOk(g.steps) && IsTrace(g, run, rand, trace) && 0 < i < |trace| && trace[i].node.kind.BranchKind?
    ensures k < BranchCount(trace[i].node.lists) && trace[i].meta.branches == [trace[i].node.lists[k].kind.branch]
    ensures RecordedBranch(trace[i].node, k, run)
  {
    var must, decide, flat := MustInclude(run), DeciderOf(run.branchPicks), RunFlat(g, run, rand).path;
    PathShows(g.steps, rand, 0, must, decide);
    var step := flat[i - 1];
    assert FullPath(g, run, rand)[i] == step && ShowsChoice(step, rand, must, decide);
    k :| 0 <= k < BranchCount(step.node.lists) && step.meta.branches == [step.node.lists[k].kind.branch]
         && ToTake(step.node, k, rand, must, decide);
  }

  // ---------------------------------------------------------------- references

  /** What has become of a token of step `i`: an allowed reference to a node reads the output that the
      trace shows for that node in an earlier step. */
  ghost predicate Reads(run: Run, trace: seq<TraceStep>, i: nat, token: Token, r: Resolved)
    requires i <= |trace|
  {
    match token
    case Text(text) => r == Plain(text)
    case Reference(head, path) =>
      if LeftAsText(token, run) then r == Unresolved(token)
      else if head == "config" then r == Variable(run.vars[path[1..]])
      else if head == "trigger" then r == Found(Payload(run.payload.value), path[1..])
      else
        exists k :: 0 <= k < i && trace[k].node.id == head && trace[k].output.Some? && r == Found(trace[k].output.value, path[1..])
  }

  /** The settings of every executed step that passes the check are shown resolved, token by token. */
  lemma TraceReadsAll(g: Graph, run: Run, rand: Random, trace: seq<TraceStep>, i: nat)
    requires WellFormed(g) && NotAnId(g, "loop") && IsTrace(g, run, rand, trace)
    requires i < |trace| && Executed(trace[i].status) && ChecksOut(g, trace[i].node) && !trace[i].node.kind.TriggerKind?
    ensures var config := trace[i].node.config;
            && trace[i].input.NodeInput? && |trace[i].input.config| == |config|
            && forall j :: 0 <= j < |config| ==> Reads(run, trace, i, config[j], trace[i].input.config[j])
  {
    var path := FullPath(g, run, rand);
    var m, config := MarksOf(run, path), trace[i].node.config;
    var outs := Outs(g, run, path, m, i);
    assert trace[i].node == path[i].node && trace[i].status == StatusAt(run, m, i);
    assert trace[i].input == InputOf(path[i].node, run, outs) == NodeInput(ResolveAll(config, run, outs));
    forall j | 0 <= j < |config|
      ensures Reads(run, trace, i, config[j], ResolveAll(config, run, outs)[j])
    {
      TokenReads(g, run, rand, trace, i, config[j]);
    }
  }

  lemma TokenReads(g: Graph, run: Run, rand: Random, trace: seq<TraceStep>, i: nat, token: Token)
    requires WellFormed(g) && NotAnId(g, "loop") && IsTrace(g, run, rand, trace)
    requires i < |trace| && Executed(trace[i].status) && ChecksOut(g, trace[i].node) && token in trace[i].node.config
    ensures var path := FullPath(g, run, rand);
            Reads(run, trace, i, token, Resolve(token, run, Outs(g, run, path, MarksOf(run, path), i)))
  {
    var path := FullPath(g, run, rand);
    assert trace[i].node == path[i].node && trace[i].status == StatusAt(run, MarksOf(run, path), i);
    if token.Reference? {
      CheckedReferencesResolve(g, run, rand, i, token);
      if !LeftAsText(token, run) && token.head != "config" && token.head != "trigger" {
        assert token in RefsIn(path[i].node.config) && token in OwnRefs(path[i].node);
        var k := UpstreamRecorded(g, run, rand, i, token.head);
        ProducedBefore(run, path, i, k);
        assert trace[k].output == Some(OutputOf(path[k], run)) && trace[k].node == path[k].node;
      }
    }
  }

  // ---------------------------------------------------------------- outputs

  /** The trigger's input and output are the payload, if there is one. */
  lemma TriggerShowsPayload(g: Graph, run: Run, rand: Random, trace: seq<TraceStep>)
    requires ShapesOk(g.steps) && IsTrace(g, run, rand, trace) && g.trigger.kind.TriggerKind? && Produces(trace[0].status)
    ensures trace[0].node == g.trigger && trace[0].input == TriggerInput(run.payload)
    ensures trace[0].output == Some(if run.payload.Some? then Payload(run.payload.value) else Sample(g.trigger, None))
  {
  }

  /** An exclusive node puts out the name of the branch it shows, if that has a name; any other node
      its sample, for the payload of the run. */
  lemma NodeShowsOutput(g: Graph, run: Run, rand: Random, trace: seq<TraceStep>, i: nat)
    requires ShapesOk(g.steps) && IsTrace(g, run, rand, trace) && 0 < i < |trace| && !trace[i].node.kind.TriggerKind?
    ensures trace[i].output.Some? <==> trace[i].status == Success || trace[i].status == Reused
    ensures trace[i].output.Some? && trace[i].node.kind.BranchKind? ==>
              exists k :: 0 <= k < BranchCount(trace[i].node.lists) && RecordedBranch(trace[i].node, k, run)
                       && var name := trace[i].node.lists[k].kind.branch.name;
                          trace[i].output.value == if name != "" then BranchTaken(name) else Sample(trace[i].node, run.payload)
    ensures trace[i].output.Some? && !trace[i].node.kind.BranchKind? ==> trace[i].output.value == Sample(trace[i].node, run.payload)
  {
    if trace[i].node.kind.BranchKind? {
      var k := TraceShowsPicks(g, run, rand, trace, i);
    }
  }

  // ---------------------------------------------------------------- where a run stands

  /** The position of a node in the trace. */
  ghost predicate StandsAt(trace: seq<TraceStep>, i: int, id: Id) { 0 <= i < |trace| && trace[i].node.id == id }

  lemma FindsPlace(g: Graph, run: Run, rand: Random, trace: seq<TraceStep>, i: nat, id: Id)
    requires WellFormed(g) && IsTrace(g, run, rand, trace)
    ensures StandsAt(trace, i, id) ==> FindIndex(FullPath(g, run, rand), id) == i
    ensures FindIndex(FullPath(g, run, rand), id) >= 0 ==> StandsAt(trace, FindIndex(FullPath(g, run, rand), id), id)
  {
    var path := FullPath(g, run, rand);
    FullPathDistinct(g, run, rand);
    if StandsAt(trace, i, id) {
      assert path[i].node.id == id;
    }
  }

  /** The steps that are reused are exactly those before the start node. */
  lemma ReusedExactly(g: Graph, run: Run, rand: Random, trace: seq<TraceStep>, i: nat)
    requires WellFormed(g) && IsTrace(g, run, rand, trace) && i < |trace|
    ensures trace[i].status == Reused <==> run.startNode.Some? && exists k :: i < k < |trace| && StandsAt(trace, k, run.startNode.value)
  {
    if run.startNode.Some? {
      var id := run.startNode.value;
      FindsPlace(g, run, rand, trace, 0, id);
      if k :| i < k < |trace| && StandsAt(trace, k, id) { FindsPlace(g, run, rand, trace, k, id); }
    }
  }

  /** What the last executed step of a run that goes on, waits or was stopped shows. */
  predicate ShowsStanding(run: Run, s: Status) {
    && (run.status == Runs ==> s == Running)
    && (run.status == Waits ==> s == Waiting)
    && (run.status == Stops ==> s == Stopped)
  }

  predicate Standing(s: RunStatus) { s == Runs || s == Waits || s == Stops }

  /** The run stands at step `i`: everything before was executed, nothing after. */
  ghost predicate StandsAtStep(run: Run, trace: seq<TraceStep>, i: nat) {
    && i < |trace|
    && (trace[i].status == Reused || ShowsStanding(run, trace[i].status))
    && (forall k :: 0 <= k < i ==> Produces(trace[k].status))
    && (forall k :: i < k < |trace| ==> trace[k].status == Pending || trace[k].status == Reused)
  }

  lemma StandsAtMark(g: Graph, run: Run, rand: Random, trace: seq<TraceStep>, i: nat)
    requires ShapesOk(g.steps) && IsTrace(g, run, rand, trace) && Standing(run.status)
    requires i < |trace| && MarksOf(run, FullPath(g, run, rand)).stop == i
    ensures StandsAtStep(run, trace, i)
  {
  }

  lemma PendingMark(g: Graph, run: Run, rand: Random, id: Id)
    requires WellFormed(g) && Standing(run.status)
    requires run.failedNode.None? && run.pendingNode == Some(id) && id in Reachable(g.steps)
    ensures var path := FullPath(g, run, rand);
            0 < MarksOf(run, path).stop < |path| && path[MarksOf(run, path).stop].node.id == id
  {
    FoundOnPath(g, run, rand, id);
  }

  /** A run that waits at a node stands at that node, wherever it is outside the error lists. */
  lemma StandsAtPending(g: Graph, run: Run, rand: Random, trace: seq<TraceStep>, id: Id) returns (i: nat)
    requires WellFormed(g) && IsTrace(g, run, rand, trace) && Standing(run.status)
    requires run.failedNode.None? && run.pendingNode == Some(id) && id in Reachable(g.steps)
    ensures 0 < i < |trace| && trace[i].node.id == id && StandsAtStep(run, trace, i)
  {
    PendingMark(g, run, rand, id);
    i := MarksOf(run, FullPath(g, run, rand)).stop;
    StandsAtMark(g, run, rand, trace, i);
  }

  /** Otherwise it stands at the recorded step, or in the middle, but after the trigger and on the path. */
  lemma StandsAtRecorded(g: Graph, run: Run, rand: Random, trace: seq<TraceStep>) returns (i: nat)
    requires WellFormed(g) && IsTrace(g, run, rand, trace) && Standing(run.status) && run.pendingNode.None?
    ensures StandsAtStep(run, trace, i)
    ensures var wanted := if run.stopIndex.Some? then run.stopIndex.value else |trace| / 2;
            if wanted >= |trace| || |trace| == 1 then i == |trace| - 1 else if wanted < 1 then i == 1 else i == wanted
  {
    i := MarksOf(run, FullPath(g, run, rand)).stop;
    StandsAtMark(g, run, rand, trace, i);
  }

  /** A run that succeeded shows no other status than success and reuse, and a failure is shown as
      what it was, with the recorded code or the usual one. */
  lemma EndsAsItDid(g: Graph, run: Run, rand: Random, trace: seq<TraceStep>, i: nat)
    requires ShapesOk(g.steps) && IsTrace(g, run, rand, trace) && i < |trace|
    ensures run.status == Succeeds ==> trace[i].status == Success || trace[i].status == Reused
    ensures trace[i].status == Failed ==> run.status == Fails
    ensures trace[i].status == Timeout ==> run.status == TimesOut
    ensures trace[i].error.Some? <==> trace[i].status == Failed || trace[i].status == Timeout
    ensures trace[i].error.Some? && run.failure.Some? ==> trace[i].error == run.failure
    ensures trace[i].error.Some? && run.failure.None? ==>
              trace[i].error == Some(if run.status == TimesOut then "STEP_TIMEOUT" else "UPSTREAM_ERROR")
  {
  }

  // ---------------------------------------------------------------- times

  /** The first step starts with the run, and each next one when the one before is over: the trigger
      takes no time, any other step between 60 and 960. What a step shows as its duration is that
      time, nothing if it was reused, and no duration at all if it was not executed. */
  lemma TraceTimes(g: Graph, run: Run, rand: Random, trace: seq<TraceStep>, i: nat)
    requires ShapesOk(g.steps) && IsTrace(g, run, rand, trace) && i < |trace|
    ensures trace[0].startedAt == run.startedAt
    ensures trace[i].duration.Some? <==> trace[i].status != Skipped && trace[i].status != Pending
    ensures trace[i].status == Reused ==> trace[i].duration == Some(0)
    ensures i + 1 < |trace| ==>
              var gap := trace[i + 1].startedAt - trace[i].startedAt;
              && (if trace[i].node.kind.TriggerKind? then gap == 0 else 60 <= gap <= 960)
              && (trace[i].duration.Some? && trace[i].status != Reused ==> trace[i].duration.value == gap)
  {
  }

  /** Each step starts when the one before is over. */
  lemma GapIsDuration(g: Graph, run: Run, rand: Random, trace: seq<TraceStep>, i: nat)
    requires ShapesOk(g.steps) && IsTrace(g, run, rand, trace) && i + 1 < |trace|
    ensures trace[i + 1].startedAt - trace[i].startedAt
         == DurationAt(FullPath(g, run, rand), rand, RunFlat(g, run, rand).pos, i)
  {
  }

  /** The times are drawn one after the other, after the `pos` draws that chose the path. */
  lemma TimesAreDrawn(path: seq<PathStep>, rand: Random, pos: nat, i: nat)
    requires i < |path|
    ensures DurationAt(path, rand, pos, i) == if path[i].node.kind.TriggerKind? then 0 else StepTime(DrawAt(path, rand, pos, i))
  {
  }

  /** A trigger at the front draws nothing, and each other step draws once. */
  lemma {:induction false} OneDrawEach(path: seq<PathStep>, i: nat)
    requires 0 < i <= |path| && path[0].node.kind.TriggerKind? && forall k :: 0 < k < i ==> !path[k].node.kind.TriggerKind?
    ensures Draws(path, i) == i - 1
  {
    if i > 1 { OneDrawEach(path, i - 1); }
  }
}
