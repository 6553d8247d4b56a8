/** The editor page and the version history: drafts, undo and redo, publishing and rolling back. */
module Editor {
  import opened Helpers
  import opened Workflow
  import opened Numbering

  /** A workflow record; `test` is the version deployed to the test environment, if any. */
  datatype Flow = Flow(graph: Graph, version: nat, published: bool, test: Option<nat>, draftChanged: bool, enabled: bool)

  datatype Env = TestEnv | ProdEnv

  /** A version on record, with the environments it was deployed to. */
  datatype Version = Version(flow: Id, number: nat, snapshot: Graph, rollbackOf: Option<nat>, envs: set<Env>)

  datatype ReleaseStatus = Awaiting | Cancelled | Deployed
  datatype Release = Release(id: Id, flow: Id, status: ReleaseStatus)

  datatype Session = Session(flows: map<Id, Flow>, versions: seq<Version>, releases: seq<Release>,
                             open: Id, past: seq<Graph>, future: seq<Graph>, lastKey: Option<string>, lastAt: int)

  // ---------------------------------------------------------------- versions

  function LatestOf(versions: seq<Version>, id: Id): (n: nat)
    ensures forall v :: v in versions && v.flow == id ==> v.number <= n
    ensures n == 0 || exists v :: v in versions && v.flow == id && v.number == n
  {
    if versions == [] then 0
    else
      var rest := LatestOf(versions[1..], id);
      if versions[0].flow == id && versions[0].number > rest then versions[0].number else rest
  }

  /** One more than every version that the workflow or its history knows of. */
  function NextVersion(versions: seq<Version>, id: Id, flow: Flow): (n: nat)
    ensures n > flow.version && (flow.test.Some? ==> n > flow.test.value)
    ensures n == 1 || n == flow.version + 1 || (flow.test.Some? && n == flow.test.value + 1)
            || exists v :: v in versions && v.flow == id && v.number + 1 == n
    ensures forall v :: v in versions && v.flow == id ==> v.number < n
  {
    Max(Max(flow.version, if flow.test.Some? then flow.test.value else 0), LatestOf(versions, id)) + 1
  }

  function DeploymentOf(flow: Flow, test: bool): Option<nat> {
    if test then flow.test else if flow.published then Some(flow.version) else None
  }

  function FindVersion(versions: seq<Version>, id: Id, number: nat): (r: Option<Version>)
    ensures r.Some? ==> r.value in versions && r.value.flow == id && r.value.number == number
    ensures r.None? ==> forall v :: v in versions && v.flow == id ==> v.number != number
  {
    if versions == [] then None
    else if versions[0].flow == id && versions[0].number == number then Some(versions[0])
    else FindVersion(versions[1..], id, number)
  }

  /** Whether the draft differs from what is deployed; a draft that was never deployed does. */
  predicate DraftDiffers(versions: seq<Version>, id: Id, flow: Flow, staged: bool) {
    match DeploymentOf(flow, staged)
    case None => true
    case Some(n) =>
      match FindVersion(versions, id, n)
      case None => true
      case Some(v) => flow.graph != v.snapshot
  }

  function WithdrawPending(releases: seq<Release>, id: Id): (r: seq<Release>)
    ensures |r| == |releases|
    ensures forall i :: 0 <= i < |r| ==>
              r[i] == if releases[i].flow == id && releases[i].status == Awaiting then releases[i].(status := Cancelled) else releases[i]
  {
    if releases == [] then []
    else
      [if releases[0].flow == id && releases[0].status == Awaiting then releases[0].(status := Cancelled) else releases[0]]
      + WithdrawPending(releases[1..], id)
  }

  /** Marks a release as carried out. */
  function CarryOut(releases: seq<Release>, release: Id): (r: seq<Release>)
    ensures |r| == |releases|
    ensures forall i :: 0 <= i < |r| ==>
              r[i] == if releases[i].id == release then releases[i].(status := Deployed) else releases[i]
  {
    if releases == [] then []
    else
      [if releases[0].id == release then releases[0].(status := Deployed) else releases[0]] + CarryOut(releases[1..], release)
  }

  predicate IsVersion(v: Version, id: Id, number: nat) { v.flow == id && v.number == number }

  /** Notes that a version was deployed to production. */
  function NoteProd(versions: seq<Version>, id: Id, number: nat): (r: seq<Version>)
    ensures |r| == |versions|
    ensures forall i :: 0 <= i < |r| ==>
              r[i] == if IsVersion(versions[i], id, number) then versions[i].(envs := versions[i].envs + {ProdEnv}) else versions[i]
  {
    if versions == [] then []
    else
      [if IsVersion(versions[0], id, number) then versions[0].(envs := versions[0].envs + {ProdEnv}) else versions[0]]
      + NoteProd(versions[1..], id, number)
  }

  // ---------------------------------------------------------------- the steps

  datatype Event =
    | Create(id: Id, graph: Graph)
    | Open(id: Id)
    | Commit(graph: Graph, key: Option<string>, now: int)
    | Undo
    | Redo
    | Publish(id: Id)
    | Rollback(id: Id, to: Version)
    | Promote(id: Id, number: nat, release: Id)
    | Request(id: Id, release: Id)

  /** Whether each workflow's project has a test environment; fixed for the whole run. */
  type Mode = Id -> bool

  /** What the page offers: committing and undoing on the open workflow, rolling back to a version
      of the workflow itself, promoting a known version where there is a test environment. */
  ghost predicate Enabled(s: Session, e: Event, staged: Mode) {
    match e
    case Create(id, g) => WellFormed(g) && id !in s.flows && forall v :: v in s.versions ==> v.flow != id
    case Open(id) => id in s.flows
    case Commit(g, _, _) => s.open in s.flows && WellFormed(g)
    case Undo => s.open in s.flows
    case Redo => s.open in s.flows
    case Publish(id) => id in s.flows
    case Rollback(id, v) => id in s.flows && v in s.versions && v.flow == id
    case Promote(id, n, _) => id in s.flows && staged(id) && FindVersion(s.versions, id, n).Some?
    case Request(id, release) => id in s.flows && forall r :: r in s.releases ==> r.id != release
  }

  function WithDraft(s: Session, graph: Graph, staged: Mode): Session
    requires s.open in s.flows
  {
    var flow := s.flows[s.open].(graph := graph);
    s.(flows := s.flows[s.open := flow.(draftChanged := DraftDiffers(s.versions, s.open, flow, staged(s.open)))])
  }

  function LastForty(past: seq<Graph>): (r: seq<Graph>)
    ensures |r| <= 40 && (|past| <= 40 ==> r == past) && (|past| > 40 ==> |r| == 40 && r == past[|past| - 40..])
  {
    if |past| <= 40 then past else past[|past| - 40..]
  }

  predicate Merges(s: Session, key: Option<string>, now: int) {
    key.Some? && s.lastKey == key && now - s.lastAt < 1000
  }

  function Current(s: Session): Graph
    requires s.open in s.flows
  {
    s.flows[s.open].graph
  }

  /** The record of a workflow that was just published as version `n`. */
  function PublishedFlow(flow: Flow, n: nat, staged: bool): Flow {
    if staged then flow.(test := Some(n), draftChanged := false)
    else flow.(version := n, published := true, draftChanged := false, enabled := true)
  }

  /** The record of a workflow whose old content was just published again as version `n`. */
  function RolledBackFlow(flow: Flow, graph: Graph, n: nat, staged: bool): Flow {
    flow.(graph := graph, version := n, published := true, draftChanged := false,
          test := if staged then Some(n) else flow.test)
  }

  function PublishEnvs(staged: bool): set<Env> { if staged then {TestEnv} else {ProdEnv} }

  function RollbackEnvs(staged: bool): set<Env> { if staged then {TestEnv, ProdEnv} else {ProdEnv} }

  function Step(s: Session, e: Event, staged: Mode): Session
    requires Enabled(s, e, staged)
  {
    match e
    case Create(id, g) => s.(flows := s.flows[id := Flow(WithRefs(g), 0, false, None, true, false)])
    case Open(id) => s.(open := id, past := [], future := [])
    case Commit(g, key, now) =>
      var noted := if Merges(s, key, now) then s else s.(past := LastForty(s.past) + [Current(s)], future := []);
      WithDraft(noted, WithRefs(g), staged).(lastKey := key, lastAt := now)
    case Undo =>
      if s.past == [] then s
      else
        var back := s.(past := s.past[..|s.past| - 1], future := [Current(s)] + s.future);
        WithDraft(back, s.past[|s.past| - 1], staged).(lastKey := None, lastAt := 0)
    case Redo =>
      if s.future == [] then s
      else
        var forth := s.(past := s.past + [Current(s)], future := s.future[1..]);
        WithDraft(forth, s.future[0], staged).(lastKey := None, lastAt := 0)
    case Publish(id) =>
      var flow := s.flows[id];
      var n := NextVersion(s.versions, id, flow);
      s.(flows := s.flows[id := PublishedFlow(flow, n, staged(id))],
         versions := [Version(id, n, flow.graph, None, PublishEnvs(staged(id)))] + s.versions)
    case Rollback(id, v) =>
      var flow := s.flows[id];
      var n := NextVersion(s.versions, id, flow);
      s.(flows := s.flows[id := RolledBackFlow(flow, v.snapshot, n, staged(id))],
         versions := [Version(id, n, v.snapshot, Some(v.number), RollbackEnvs(staged(id)))] + s.versions,
         releases := WithdrawPending(s.releases, id))
    case Promote(id, n, release) =>
      s.(flows := s.flows[id := s.flows[id].(version := n, published := true, enabled := true)],
         versions := NoteProd(s.versions, id, n),
         releases := CarryOut(s.releases, release))
    case Request(id, release) => s.(releases := [Release(release, id, Awaiting)] + s.releases)
  }

  // ---------------------------------------------------------------- the page as it runs

  /** The page with its mutable store and history. */
  class Page {
    var flows: map<Id, Flow>
    var versions: seq<Version>
    var releases: seq<Release>
    var open: Id
    var past: seq<Graph>
    var future: seq<Graph>
    var lastKey: Option<string>
    var lastAt: int
    const staged: Mode

    function State(): Session
      reads this
    {
      Session(flows, versions, releases, open, past, future, lastKey, lastAt)
    }

    constructor (s: Session, staged: Mode)
      ensures State() == s && this.staged == staged
    {
      flows, versions, releases := s.flows, s.versions, s.releases;
      open, past, future, lastKey, lastAt := s.open, s.past, s.future, s.lastKey, s.lastAt;
      this.staged := staged;
    }

    method SetDraft(graph: Graph)
      requires open in flows
      modifies this`flows
      ensures State() == WithDraft(old(State()), graph, staged)
    {
      var flow := flows[open].(graph := graph);
      flows := flows[open := flow.(draftChanged := DraftDiffers(versions, open, flow, staged(open)))];
    }

    method CommitDraft(graph: Graph, key: Option<string>, now: int)
      requires Enabled(State(), Commit(graph, key, now), staged)
      modifies this
      ensures State() == Step(old(State()), Commit(graph, key, now), staged)
    {
      var merge := key.Some? && lastKey == key && now - lastAt < 1000;
      lastKey, lastAt := key, now;
      if !merge {
        past, future := LastForty(past) + [flows[open].graph], [];
      }
      var next := Number(graph);
      SetDraft(next);
    }

    method UndoDraft()
      requires Enabled(State(), Undo, staged)
      modifies this
      ensures State() == Step(old(State()), Undo, staged)
    {
      if past != [] {
        var prev := past[|past| - 1];
        past, future := past[..|past| - 1], [flows[open].graph] + future;
        SetDraft(prev);
        lastKey, lastAt := None, 0;
      }
    }

    method RedoDraft()
      requires Enabled(State(), Redo, staged)
      modifies this
      ensures State() == Step(old(State()), Redo, staged)
    {
      if future != [] {
        var next := future[0];
        past, future := past + [flows[open].graph], future[1..];
        SetDraft(next);
        lastKey, lastAt := None, 0;
      }
    }

    method PublishFlow(id: Id)
      requires Enabled(State(), Publish(id), staged)
      modifies this
      ensures State() == Step(old(State()), Publish(id), staged)
    {
      var flow := flows[id];
      var n := NextVersion(versions, id, flow);
      if staged(id) {
        flows := flows[id := flow.(test := Some(n), draftChanged := false)];
      } else {
        flows := flows[id := flow.(version := n, published := true, draftChanged := false, enabled := true)];
      }
      versions := [Version(id, n, flow.graph, None, PublishEnvs(staged(id)))] + versions;
    }

    method RollbackFlow(id: Id, to: Version)
      requires Enabled(State(), Rollback(id, to), staged)
      modifies this
      ensures State() == Step(old(State()), Rollback(id, to), staged)
    {
      var flow := flows[id];
      var n := NextVersion(versions, id, flow);
      flow := flow.(graph := to.snapshot, version := n, published := true, draftChanged := false);
      if staged(id) {
        flow := flow.(test := Some(n));
      }
      flows := flows[id := flow];
      versions := [Version(id, n, to.snapshot, Some(to.number), RollbackEnvs(staged(id)))] + versions;
      releases := WithdrawPending(releases, id);
    }

    method CreateFlow(id: Id, graph: Graph)
      requires Enabled(State(), Create(id, graph), staged)
      modifies this
      ensures State() == Step(old(State()), Create(id, graph), staged)
    {
      var numbered := Number(graph);
      flows := flows[id := Flow(numbered, 0, false, None, true, false)];
    }

    method PromoteFlow(id: Id, number: nat, release: Id)
      requires Enabled(State(), Promote(id, number, release), staged)
      modifies this
      ensures State() == Step(old(State()), Promote(id, number, release), staged)
    {
      flows := flows[id := flows[id].(version := number, published := true, enabled := true)];
      versions := NoteProd(versions, id, number);
      releases := CarryOut(releases, release);
    }

    /** Whatever is done on the page, one thing after the other, it keeps the invariant. */
    method Perform(e: Event)
      requires Inv(State(), staged) && Enabled(State(), e, staged)
      modifies this
      ensures State() == Step(old(State()), e, staged) && Inv(State(), staged)
    {
      StepKeeps(State(), e, staged);
      match e {
        case Create(id, g) => CreateFlow(id, g);
        case Open(id) => open, past, future := id, [], [];
        case Commit(g, key, now) => CommitDraft(g, key, now);
        case Undo => UndoDraft();
        case Redo => RedoDraft();
        case Publish(id) => PublishFlow(id);
        case Rollback(id, v) => RollbackFlow(id, v);
        case Promote(id, n, release) => PromoteFlow(id, n, release);
        case Request(id, release) => releases := [Release(release, id, Awaiting)] + releases;
      }
    }
  }

  // ---------------------------------------------------------------- the invariant

  /** Newer versions of a workflow stand before older ones and have larger numbers. */
  ghost predicate Decreasing(versions: seq<Version>) {
    forall i, j :: 0 <= i < j < |versions| && versions[i].flow == versions[j].flow ==> versions[i].number > versions[j].number
  }

  /** What holds of every graph the editor ever keeps: it is well formed and its refs are distinct. */
  predicate Sound(g: Graph) { WellFormed(g) && Numbered(g) }

  /** The version is on record, and the record says that it was deployed to the environment. */
  predicate OnRecord(versions: seq<Version>, id: Id, number: nat, env: Env) {
    FindVersion(versions, id, number).Some? && env in FindVersion(versions, id, number).value.envs
  }

  ghost predicate FlowOk(versions: seq<Version>, id: Id, flow: Flow, staged: bool) {
    && (flow.published ==> OnRecord(versions, id, flow.version, ProdEnv))
    && (flow.test.Some? ==> OnRecord(versions, id, flow.test.value, TestEnv))
    && flow.draftChanged == DraftDiffers(versions, id, flow, staged)
    && Sound(flow.graph)
  }

  ghost predicate Inv(s: Session, staged: Mode) {
    && Decreasing(s.versions)
    && (forall id :: id in s.flows ==> FlowOk(s.versions, id, s.flows[id], staged(id)))
    && (forall v :: v in s.versions ==> Sound(v.snapshot))
    && AllSound(s.past) && AllSound(s.future)
    && (s.lastKey.Some? ==> s.future == [])
    && |s.past| + |s.future| <= 41
  }

  lemma FindSkips(v: Version, versions: seq<Version>, id: Id, number: nat)
    requires v.flow != id || v.number != number
    ensures FindVersion([v] + versions, id, number) == FindVersion(versions, id, number)
  {
    assert ([v] + versions)[1..] == versions;
  }

  lemma FindFirst(v: Version, versions: seq<Version>)
    ensures FindVersion([v] + versions, v.flow, v.number) == Some(v)
  {
  }

  /** A new version of one workflow does not touch the standing of another. */
  lemma OthersUntouched(v: Version, versions: seq<Version>, id: Id, flow: Flow, staged: bool)
    requires FlowOk(versions, id, flow, staged) && v.flow != id
    ensures FlowOk([v] + versions, id, flow, staged)
  {
    FindSkips(v, versions, id, flow.version);
    if flow.test.Some? { FindSkips(v, versions, id, flow.test.value); }
  }

  lemma NewestFirst(v: Version, versions: seq<Version>)
    requires Decreasing(versions) && forall w :: w in versions && w.flow == v.flow ==> w.number < v.number
    ensures Decreasing([v] + versions)
  {
    var all := [v] + versions;
    forall i, j | 0 <= i < j < |all| && all[i].flow == all[j].flow
      ensures all[i].number > all[j].number
    {
      assert all[j] == versions[j - 1];
      if i > 0 { assert all[i] == versions[i - 1]; }
    }
  }

  lemma DraftOk(s: Session, graph: Graph, staged: Mode)
    requires s.open in s.flows && Sound(graph)
    requires forall id :: id in s.flows ==> FlowOk(s.versions, id, s.flows[id], staged(id))
    ensures var s' := WithDraft(s, graph, staged);
            forall id :: id in s'.flows ==> FlowOk(s'.versions, id, s'.flows[id], staged(id))
  {
  }

  lemma SoundAfterNumbering(g: Graph)
    requires WellFormed(g)
    ensures Sound(WithRefs(g))
  {
    WellFormedAfterNumbering(g);
    NumberingIsIdempotent(g);
  }

  lemma CreateKeeps(s: Session, id: Id, g: Graph, staged: Mode)
    requires Inv(s, staged) && Enabled(s, Create(id, g), staged)
    ensures Inv(Step(s, Create(id, g), staged), staged)
  {
    SoundAfterNumbering(g);
  }

  lemma CommitKeeps(s: Session, g: Graph, key: Option<string>, now: int, staged: Mode)
    requires Inv(s, staged) && Enabled(s, Commit(g, key, now), staged)
    ensures Inv(Step(s, Commit(g, key, now), staged), staged)
    ensures Step(s, Commit(g, key, now), staged).future == []
  {
    SoundAfterNumbering(g);
    var noted := if Merges(s, key, now) then s else s.(past := LastForty(s.past) + [Current(s)], future := []);
    assert FlowOk(s.versions, s.open, s.flows[s.open], staged(s.open));
    assert forall x :: x in noted.past ==> Sound(x);
    DraftOk(noted, WithRefs(g), staged);
  }

  ghost predicate AllSound(graphs: seq<Graph>) { forall g :: g in graphs ==> Sound(g) }

  /** Moving along the history brings in no other graphs. */
  lemma HistoryMoves(past: seq<Graph>, now: Graph, future: seq<Graph>)
    requires AllSound(past) && AllSound(future) && Sound(now)
    ensures past != [] ==> Sound(past[|past| - 1]) && AllSound(past[..|past| - 1]) && AllSound([now] + future)
    ensures future != [] ==> Sound(future[0]) && AllSound(future[1..]) && AllSound(past + [now])
  {
    if past != [] { assert past[|past| - 1] in past; }
    if future != [] { assert future[0] in future; }
  }

  lemma UndoKeeps(s: Session, staged: Mode)
    requires Inv(s, staged) && s.open in s.flows
    ensures Inv(Step(s, Undo, staged), staged)
  {
    if s.past != [] {
      var back := s.(past := s.past[..|s.past| - 1], future := [Current(s)] + s.future);
      assert FlowOk(s.versions, s.open, s.flows[s.open], staged(s.open));
      HistoryMoves(s.past, Current(s), s.future);
      DraftOk(back, s.past[|s.past| - 1], staged);
    }
  }

  lemma RedoKeeps(s: Session, staged: Mode)
    requires Inv(s, staged) && s.open in s.flows
    ensures Inv(Step(s, Redo, staged), staged)
  {
    if s.future != [] {
      var forth := s.(past := s.past + [Current(s)], future := s.future[1..]);
      assert FlowOk(s.versions, s.open, s.flows[s.open], staged(s.open));
      HistoryMoves(s.past, Current(s), s.future);
      DraftOk(forth, s.future[0], staged);
    }
  }

  /** Putting a new version of one workflow in front, with that workflow's record brought in line. */
  lemma VersionAdded(s: Session, s': Session, v: Version, staged: Mode)
    requires Inv(s, staged) && v.flow in s'.flows && s'.flows == s.flows[v.flow := s'.flows[v.flow]]
    requires s'.versions == [v] + s.versions && Sound(v.snapshot)
    requires forall w :: w in s.versions && w.flow == v.flow ==> w.number < v.number
    requires FlowOk(s'.versions, v.flow, s'.flows[v.flow], staged(v.flow))
    requires s'.past == s.past && s'.future == s.future && s'.lastKey == s.lastKey
    ensures Inv(s', staged)
  {
    NewestFirst(v, s.versions);
    forall x | x in s'.flows
      ensures FlowOk(s'.versions, x, s'.flows[x], staged(x))
    {
      if x != v.flow { OthersUntouched(v, s.versions, x, s.flows[x], staged(x)); }
    }
  }

  lemma PublishedOk(versions: seq<Version>, id: Id, flow: Flow, staged: bool, v: Version)
    requires FlowOk(versions, id, flow, staged) && v == Version(id, NextVersion(versions, id, flow), flow.graph, None, PublishEnvs(staged))
    ensures FlowOk([v] + versions, id, PublishedFlow(flow, v.number, staged), staged)
  {
    FindFirst(v, versions);
    FindSkips(v, versions, id, flow.version);
    if flow.test.Some? { FindSkips(v, versions, id, flow.test.value); }
  }

  lemma RolledBackOk(versions: seq<Version>, id: Id, flow: Flow, staged: bool, v: Version)
    requires FlowOk(versions, id, flow, staged) && v.flow == id && v.number == NextVersion(versions, id, flow) && Sound(v.snapshot)
    requires v.envs == RollbackEnvs(staged)
    ensures FlowOk([v] + versions, id, RolledBackFlow(flow, v.snapshot, v.number, staged), staged)
  {
    FindFirst(v, versions);
    if flow.test.Some? { FindSkips(v, versions, id, flow.test.value); }
  }

  lemma PublishKeeps(s: Session, id: Id, staged: Mode)
    requires Inv(s, staged) && id in s.flows
    ensures Inv(Step(s, Publish(id), staged), staged)
  {
    var flow := s.flows[id];
    var v := Version(id, NextVersion(s.versions, id, flow), flow.graph, None, PublishEnvs(staged(id)));
    PublishedOk(s.versions, id, flow, staged(id), v);
    VersionAdded(s, Step(s, Publish(id), staged), v, staged);
  }

  lemma RollbackKeeps(s: Session, id: Id, to: Version, staged: Mode)
    requires Inv(s, staged) && Enabled(s, Rollback(id, to), staged)
    ensures Inv(Step(s, Rollback(id, to), staged), staged)
  {
    var flow := s.flows[id];
    var v := Version(id, NextVersion(s.versions, id, flow), to.snapshot, Some(to.number), RollbackEnvs(staged(id)));
    RolledBackOk(s.versions, id, flow, staged(id), v);
    VersionAdded(s, Step(s, Rollback(id, to), staged), v, staged);
  }

  lemma {:induction false} FindNoted(versions: seq<Version>, id: Id, n: nat, x: Id, number: nat)
    ensures var was, r := FindVersion(versions, x, number), FindVersion(NoteProd(versions, id, n), x, number);
            if was.None? then r.None?
            else r == Some(if x == id && number == n then was.value.(envs := was.value.envs + {ProdEnv}) else was.value)
  {
    if versions != [] {
      FindNoted(versions[1..], id, n, x, number);
      assert NoteProd(versions, id, n)[1..] == NoteProd(versions[1..], id, n);
    }
  }

  lemma NotedOk(versions: seq<Version>, id: Id, n: nat, x: Id, flow: Flow, staged: bool)
    requires FlowOk(versions, x, flow, staged)
    ensures FlowOk(NoteProd(versions, id, n), x, flow, staged)
  {
    FindNoted(versions, id, n, x, flow.version);
    if flow.test.Some? { FindNoted(versions, id, n, x, flow.test.value); }
  }

  lemma NoteProdExtends(versions: seq<Version>, id: Id, n: nat)
    ensures Extends(versions, NoteProd(versions, id, n))
  {
    var noted := NoteProd(versions, id, n);
    assert noted[0..] == noted;
  }

  lemma NoteProdKeeps(versions: seq<Version>, id: Id, n: nat)
    requires Decreasing(versions) && forall v :: v in versions ==> Sound(v.snapshot)
    ensures Decreasing(NoteProd(versions, id, n)) && forall v :: v in NoteProd(versions, id, n) ==> Sound(v.snapshot)
  {
    var noted := NoteProd(versions, id, n);
    forall v | v in noted
      ensures Sound(v.snapshot)
    {
      var i :| 0 <= i < |noted| && noted[i] == v;
      assert versions[i] in versions && versions[i].snapshot == v.snapshot;
    }
    forall i, j | 0 <= i < j < |noted| && noted[i].flow == noted[j].flow
      ensures noted[i].number > noted[j].number
    {
      assert versions[i].flow == versions[j].flow;
    }
  }

  lemma NoteProdLeaves(versions: seq<Version>, id: Id, n: nat, v: Version)
    requires v in versions && !IsVersion(v, id, n)
    ensures v in NoteProd(versions, id, n)
  {
    var i :| 0 <= i < |versions| && versions[i] == v;
    assert NoteProd(versions, id, n)[i] == v;
  }

  lemma PromotedOk(versions: seq<Version>, id: Id, n: nat, flow: Flow, staged: bool)
    requires FlowOk(versions, id, flow, staged) && staged && FindVersion(versions, id, n).Some?
    ensures FlowOk(NoteProd(versions, id, n), id, flow.(version := n, published := true, enabled := true), staged)
  {
    FindNoted(versions, id, n, id, n);
    if flow.test.Some? { FindNoted(versions, id, n, id, flow.test.value); }
  }

  /** Promoting a version on record to production keeps the invariant. */
  lemma PromoteKeeps(s: Session, id: Id, n: nat, release: Id, staged: Mode)
    requires Inv(s, staged) && Enabled(s, Promote(id, n, release), staged)
    ensures Inv(Step(s, Promote(id, n, release), staged), staged)
  {
    var s' := Step(s, Promote(id, n, release), staged);
    NoteProdKeeps(s.versions, id, n);
    forall x | x in s'.flows
      ensures FlowOk(s'.versions, x, s'.flows[x], staged(x))
    {
      if x == id {
        PromotedOk(s.versions, id, n, s.flows[id], staged(id));
      } else {
        NotedOk(s.versions, id, n, x, s.flows[x], staged(x));
      }
    }
  }

  /** It deploys that version, and leaves the draft and the test environment alone. */
  lemma PromoteDeploys(s: Session, id: Id, n: nat, release: Id, staged: Mode)
    requires Enabled(s, Promote(id, n, release), staged)
    ensures var s' := Step(s, Promote(id, n, release), staged);
            && DeploymentOf(s'.flows[id], false) == Some(n) && OnRecord(s'.versions, id, n, ProdEnv)
            && DeploymentOf(s'.flows[id], true) == DeploymentOf(s.flows[id], true)
            && s'.flows[id].graph == s.flows[id].graph && s'.flows[id].draftChanged == s.flows[id].draftChanged
  {
    FindNoted(s.versions, id, n, id, n);
  }

  /** It notes the deployment on the record of the version and leaves all other records. */
  lemma PromoteNotes(s: Session, id: Id, n: nat, release: Id, staged: Mode, v: Version)
    requires Enabled(s, Promote(id, n, release), staged) && v in s.versions && !IsVersion(v, id, n)
    ensures v in Step(s, Promote(id, n, release), staged).versions
    ensures |Step(s, Promote(id, n, release), staged).versions| == |s.versions|
  {
    NoteProdLeaves(s.versions, id, n, v);
  }

  /** It closes the release and leaves all others. */
  lemma PromoteCloses(s: Session, id: Id, n: nat, release: Id, staged: Mode, r: Release)
    requires Enabled(s, Promote(id, n, release), staged) && r in s.releases
    ensures (if r.id == release then r.(status := Deployed) else r) in Step(s, Promote(id, n, release), staged).releases
  {
    var i :| 0 <= i < |s.releases| && s.releases[i] == r;
    assert CarryOut(s.releases, release)[i] in CarryOut(s.releases, release);
  }

  /** Every step the page offers keeps the invariant. */
  lemma StepKeeps(s: Session, e: Event, staged: Mode)
    requires Inv(s, staged) && Enabled(s, e, staged)
    ensures Inv(Step(s, e, staged), staged)
  {
    match e
    case Create(id, g) => CreateKeeps(s, id, g, staged);
    case Open(_) =>
    case Commit(g, key, now) => CommitKeeps(s, g, key, now, staged);
    case Undo => UndoKeeps(s, staged);
    case Redo => RedoKeeps(s, staged);
    case Publish(id) => PublishKeeps(s, id, staged);
    case Rollback(id, v) => RollbackKeeps(s, id, v, staged);
    case Promote(id, n, release) => PromoteKeeps(s, id, n, release, staged);
    case Request(_, _) =>
  }

  /** Every step adds to the history in front, and changes nothing in it but environments. */
  lemma StepExtends(s: Session, e: Event, staged: Mode)
    requires Enabled(s, e, staged)
    ensures Extends(s.versions, Step(s, e, staged).versions)
  {
    match e {
      case Publish(_) => ExtendsFront(Step(s, e, staged).versions[0], s.versions);
      case Rollback(_, _) => ExtendsFront(Step(s, e, staged).versions[0], s.versions);
      case Promote(id, n, _) => NoteProdExtends(s.versions, id, n);
      case _ => ExtendsItself(s.versions);
    }
  }

  /** A record may only gain environments. */
  predicate SameRecord(v: Version, w: Version) { w == v.(envs := w.envs) && v.envs <= w.envs }

  predicate SameRecords(a: seq<Version>, b: seq<Version>) {
    |a| == |b| && forall i :: 0 <= i < |a| ==> SameRecord(a[i], b[i])
  }

  /** The history `b` has the records of `a` at its end, in order, and what is new in front of them. */
  predicate Extends(a: seq<Version>, b: seq<Version>) {
    |a| <= |b| && SameRecords(a, b[|b| - |a|..])
  }

  lemma ExtendsItself(a: seq<Version>)
    ensures Extends(a, a)
  {
    assert a[0..] == a;
  }

  lemma ExtendsFront(v: Version, a: seq<Version>)
    ensures Extends(a, [v] + a)
  {
    assert ([v] + a)[1..] == a;
  }

  // ---------------------------------------------------------------- whole runs

  ghost predicate CanRun(s: Session, es: seq<Event>, staged: Mode)
    decreases es
  {
    es == [] || (Enabled(s, es[0], staged) && CanRun(Step(s, es[0], staged), es[1..], staged))
  }

  function Run(s: Session, es: seq<Event>, staged: Mode): Session
    requires CanRun(s, es, staged)
    decreases es
  {
    if es == [] then s else Run(Step(s, es[0], staged), es[1..], staged)
  }

  /** Over every run: version numbers stay strictly decreasing, deployed versions stay on record, the
      marker of unpublished changes stays exact, every kept graph stays well formed with distinct
      refs, the history stays bounded, and no version on record is ever dropped or changed, but for
      the environments that it was deployed to. */
  lemma {:induction false} RunKeeps(s: Session, es: seq<Event>, staged: Mode)
    requires Inv(s, staged) && CanRun(s, es, staged)
    ensures Inv(Run(s, es, staged), staged) && Extends(s.versions, Run(s, es, staged).versions)
    decreases es
  {
    if es != [] {
      var next := Step(s, es[0], staged);
      StepKeeps(s, es[0], staged);
      StepExtends(s, es[0], staged);
      RunKeeps(next, es[1..], staged);
      ExtendsTransitive(s.versions, next.versions, Run(s, es, staged).versions);
    }
  }

  lemma ExtendsTransitive(a: seq<Version>, b: seq<Version>, c: seq<Version>)
    requires Extends(a, b) && Extends(b, c)
    ensures Extends(a, c)
  {
    var b', c' := b[|b| - |a|..], c[|c| - |b|..];
    assert c[|c| - |a|..] == c'[|b| - |a|..];
    forall i | 0 <= i < |a|
      ensures SameRecord(a[i], c'[|b| - |a| + i])
    {
      assert SameRecord(a[i], b'[i]) && b'[i] == b[|b| - |a| + i];
    }
  }

  /** The store without any workflow. */
  function EmptyStore(id: Id): Session { Session(map[], [], [], id, [], [], None, 0) }

  /** Whatever is done from the empty store on, the invariant holds. */
  lemma EveryRunKeeps(id: Id, es: seq<Event>, staged: Mode)
    requires CanRun(EmptyStore(id), es, staged)
    ensures Inv(Run(EmptyStore(id), es, staged), staged)
  {
    RunKeeps(EmptyStore(id), es, staged);
  }

  /** Publishing deploys the draft under a new number to the first environment, and leaves the draft,
      the other environment and every release alone. */
  lemma PublishDeploys(s: Session, id: Id, staged: Mode)
    requires Enabled(s, Publish(id), staged)
    ensures var s' := Step(s, Publish(id), staged);
            var flow, n := s'.flows[id], DeploymentOf(s'.flows[id], staged(id));
            && flow.graph == s.flows[id].graph && !flow.draftChanged
            && n.Some? && FindVersion(s.versions, id, n.value).None?
            && (forall v :: v in s.versions && v.flow == id ==> v.number < n.value)
            && FindVersion(s'.versions, id, n.value).Some?
            && FindVersion(s'.versions, id, n.value).value.snapshot == flow.graph
            && DeploymentOf(flow, !staged(id)) == DeploymentOf(s.flows[id], !staged(id))
            && s'.releases == s.releases
  {
    var n := NextVersion(s.versions, id, s.flows[id]);
    FindFirst(Version(id, n, s.flows[id].graph, None, PublishEnvs(staged(id))), s.versions);
  }

  /** Rolling back publishes the old content under a new number, in the production environment and,
      if there is one, in the test environment, and withdraws what was waiting for approval. */
  lemma RollbackDeploys(s: Session, id: Id, to: Version, staged: Mode)
    requires Enabled(s, Rollback(id, to), staged)
    ensures var s' := Step(s, Rollback(id, to), staged);
            var flow := s'.flows[id];
            && flow.graph == to.snapshot && !flow.draftChanged && flow.published
            && flow.version > to.number
            && FindVersion(s'.versions, id, flow.version).Some?
            && FindVersion(s'.versions, id, flow.version).value.snapshot == to.snapshot
            && (staged(id) ==> flow.test == Some(flow.version))
            && (forall r :: r in s'.releases && r.flow == id ==> r.status != Awaiting)
  {
  }

  /** A rollback withdraws no other release. */
  lemma RollbackLeaves(s: Session, id: Id, to: Version, staged: Mode, r: Release)
    requires Enabled(s, Rollback(id, to), staged) && r in s.releases && !(r.flow == id && r.status == Awaiting)
    ensures r in Step(s, Rollback(id, to), staged).releases
  {
    var i :| 0 <= i < |s.releases| && s.releases[i] == r;
    assert WithdrawPending(s.releases, id)[i] == r;
  }

  /** A rollback puts one record in front: the old content under a number larger than all before, with
      the version it goes back to and the environments it was deployed to. */
  lemma RollbackNotes(s: Session, id: Id, to: Version, staged: Mode)
    requires Enabled(s, Rollback(id, to), staged)
    ensures var v := Step(s, Rollback(id, to), staged).versions[0];
            && Step(s, Rollback(id, to), staged).versions == [v] + s.versions
            && v.flow == id && v.snapshot == to.snapshot && v.rollbackOf == Some(to.number)
            && (forall w :: w in s.versions && w.flow == id ==> w.number < v.number)
            && (TestEnv in v.envs <==> staged(id)) && ProdEnv in v.envs
  {
  }

  /** A publication puts one record in front likewise, for the first environment alone. */
  lemma PublishNotes(s: Session, id: Id, staged: Mode)
    requires Enabled(s, Publish(id), staged)
    ensures var v := Step(s, Publish(id), staged).versions[0];
            && Step(s, Publish(id), staged).versions == [v] + s.versions
            && v.flow == id && v.snapshot == s.flows[id].graph && v.rollbackOf.None?
            && (forall w :: w in s.versions && w.flow == id ==> w.number < v.number)
            && v.envs == if staged(id) then {TestEnv} else {ProdEnv}
  {
  }

  /** Opening a workflow starts with an empty history and touches nothing in the store. */
  lemma OpenStarts(s: Session, id: Id, staged: Mode)
    requires Enabled(s, Open(id), staged)
    ensures var s' := Step(s, Open(id), staged);
            && s'.open == id && s'.past == [] && s'.future == []
            && s'.flows == s.flows && s'.versions == s.versions && s'.releases == s.releases
  {
  }

  /** A request adds one release that awaits its decision, and touches nothing else. */
  lemma RequestAdds(s: Session, id: Id, release: Id, staged: Mode)
    requires Enabled(s, Request(id, release), staged)
    ensures Step(s, Request(id, release), staged) == s.(releases := [Release(release, id, Awaiting)] + s.releases)
  {
  }

  /** No step touches the record of any workflow but the one that it is about. */
  lemma OthersStay(s: Session, e: Event, staged: Mode, x: Id)
    requires Enabled(s, e, staged) && x in s.flows
    requires match e
             case Commit(_, _, _) => x != s.open
             case Undo => x != s.open
             case Redo => x != s.open
             case Publish(id) => x != id
             case Rollback(id, _) => x != id
             case Promote(id, _, _) => x != id
             case _ => true
    ensures x in Step(s, e, staged).flows && Step(s, e, staged).flows[x] == s.flows[x]
  {
  }

  // ---------------------------------------------------------------- what a commit does

  /** Nothing but the draft of the open workflow, its marker and the history of the page is changed. */
  ghost predicate OnlyDraft(s: Session, s': Session)
    requires s.open in s.flows
  {
    && s'.open == s.open && s'.versions == s.versions && s'.releases == s.releases && s'.flows.Keys == s.flows.Keys
    && (forall id :: id in s.flows && id != s.open ==> s'.flows[id] == s.flows[id])
    && s'.flows[s.open] == s.flows[s.open].(graph := s'.flows[s.open].graph, draftChanged := s'.flows[s.open].draftChanged)
  }

  /** The draft is the edited graph, but for refs that numbering gives. */
  ghost predicate IsEdit(draft: Graph, edited: Graph) {
    && Bare(draft) == Bare(edited) && Renumbered(Labels(edited), Labels(draft))
    && (Numbered(edited) ==> draft == edited)
  }

  /** A commit puts the edited graph into the draft and touches nothing else. If it continues the
      commit before, the history stays; otherwise the old draft is what undo brings back next, behind
      it are the last forty drafts before, and there is nothing to redo. */
  lemma CommitTakes(s: Session, g: Graph, key: Option<string>, now: int, staged: Mode)
    requires Enabled(s, Commit(g, key, now), staged)
    ensures var s' := Step(s, Commit(g, key, now), staged);
            && OnlyDraft(s, s') && IsEdit(Current(s'), g) && s'.lastKey == key && s'.lastAt == now
            && if key.Some? && s.lastKey == key && now - s.lastAt < 1000
               then s'.past == s.past && s'.future == s.future
               else
                 && s'.past != [] && s'.past[|s'.past| - 1] == Current(s) && s'.future == []
                 && |s'.past| == Min(|s.past|, 40) + 1
                 && s'.past[..|s'.past| - 1] == s.past[|s.past| - (|s'.past| - 1)..]
  {
    NumberingKeepsTheRest(g);
    NumberingIsStable(g);
    NumberedIsFixpoint(g);
    var kept := LastForty(s.past);
    assert (kept + [Current(s)])[..|kept|] == kept;
  }

  /** Undo makes the last draft of the past the draft again, and keeps the one it replaces for redo. */
  lemma UndoTakes(s: Session, staged: Mode)
    requires s.open in s.flows
    ensures var s' := Step(s, Undo, staged);
            && OnlyDraft(s, s')
            && (s.past == [] ==> s' == s)
            && (s.past != [] ==>
                  && s.past == s'.past + [Current(s')] && s'.future == [Current(s)] + s.future
                  && s'.lastKey.None?)
  {
  }

  /** Redo makes the first draft of the future the draft again, and keeps the one it replaces for undo. */
  lemma RedoTakes(s: Session, staged: Mode)
    requires s.open in s.flows
    ensures var s' := Step(s, Redo, staged);
            && OnlyDraft(s, s')
            && (s.future == [] ==> s' == s)
            && (s.future != [] ==>
                  && s.future == [Current(s')] + s'.future && s'.past == s.past + [Current(s)]
                  && s'.lastKey.None?)
  {
  }

  /** A commit that does not continue the one before is taken back by one undo, and brought back by
      one redo. */
  lemma CommitThenUndo(s: Session, g: Graph, key: Option<string>, now: int, staged: Mode)
    requires Enabled(s, Commit(g, key, now), staged) && !Merges(s, key, now)
    ensures var s' := Step(s, Commit(g, key, now), staged);
            var back := Step(s', Undo, staged);
            && Current(back) == Current(s) && back.future == [Current(s')]
            && Current(Step(back, Redo, staged)) == Current(s')
  {
    CommitTakes(s, g, key, now, staged);
    var s' := Step(s, Commit(g, key, now), staged);
    UndoTakes(s', staged);
    RedoTakes(Step(s', Undo, staged), staged);
  }

  /** A new workflow is the given graph but for refs, unpublished and disabled; nothing else changes. */
  lemma CreateStarts(s: Session, id: Id, g: Graph, staged: Mode)
    requires Enabled(s, Create(id, g), staged)
    ensures var s' := Step(s, Create(id, g), staged);
            && s' == s.(flows := s'.flows) && s'.flows.Keys == s.flows.Keys + {id}
            && (forall x :: x in s.flows ==> s'.flows[x] == s.flows[x])
            && s'.flows[id] == Flow(s'.flows[id].graph, 0, false, None, true, false) && IsEdit(s'.flows[id].graph, g)
  {
    NumberingKeepsTheRest(g);
    NumberingIsStable(g);
    NumberedIsFixpoint(g);
  }

  // ---------------------------------------------------------------- undo and redo

  /** Everything that undo and redo can bring back, in order. */
  function Timeline(s: Session): seq<Graph>
    requires s.open in s.flows
  {
    s.past + [Current(s)] + s.future
  }

  /** Undo moves along the timeline without changing it. */
  lemma UndoKeepsTimeline(s: Session, staged: Mode)
    requires s.open in s.flows
    ensures Timeline(Step(s, Undo, staged)) == Timeline(s)
  {
    if s.past != [] {
      MoveBack(s.past, Current(s), s.future);
    }
  }

  /** Redo moves along the timeline without changing it. */
  lemma RedoKeepsTimeline(s: Session, staged: Mode)
    requires s.open in s.flows
    ensures Timeline(Step(s, Redo, staged)) == Timeline(s)
  {
    if s.future != [] {
      MoveForth(s.past, Current(s), s.future);
    }
  }

  lemma MoveBack(past: seq<Graph>, now: Graph, future: seq<Graph>)
    requires past != []
    ensures past[..|past| - 1] + [past[|past| - 1]] + ([now] + future) == past + [now] + future
    ensures past[..|past| - 1] + [past[|past| - 1]] == past && ([now] + future)[1..] == future
  {
  }

  lemma MoveForth(past: seq<Graph>, now: Graph, future: seq<Graph>)
    requires future != []
    ensures (past + [now]) + [future[0]] + future[1..] == past + [now] + future
    ensures (past + [now])[..|past + [now]| - 1] == past && [future[0]] + future[1..] == future
  {
  }

  /** Going to another draft and coming back leaves the record of the workflow as it was. */
  lemma DraftAndBack(s: Session, u: Session, graph: Graph, staged: Mode)
    requires s.open in s.flows && s.flows[s.open].draftChanged == DraftDiffers(s.versions, s.open, s.flows[s.open], staged(s.open))
    requires u.open == s.open && u.versions == s.versions && u.flows == WithDraft(s, graph, staged).flows
    ensures WithDraft(u, Current(s), staged).flows == s.flows
  {
    assert WithDraft(u, Current(s), staged).flows[s.open] == s.flows[s.open];
  }

  /** Undo and then redo is the identity on everything but the memory of the last commit. */
  lemma UndoThenRedo(s: Session, staged: Mode)
    requires Inv(s, staged) && s.open in s.flows && s.past != []
    ensures Step(Step(s, Undo, staged), Redo, staged) == s.(lastKey := None, lastAt := 0)
  {
    assert FlowOk(s.versions, s.open, s.flows[s.open], staged(s.open));
    MoveBack(s.past, Current(s), s.future);
    DraftAndBack(s, Step(s, Undo, staged), s.past[|s.past| - 1], staged);
  }

  /** Redo and then undo likewise. */
  lemma RedoThenUndo(s: Session, staged: Mode)
    requires Inv(s, staged) && s.open in s.flows && s.future != []
    ensures Step(Step(s, Redo, staged), Undo, staged) == s.(lastKey := None, lastAt := 0)
  {
    assert FlowOk(s.versions, s.open, s.flows[s.open], staged(s.open));
    MoveForth(s.past, Current(s), s.future);
    DraftAndBack(s, Step(s, Redo, staged), s.future[0], staged);
  }

  /** Undoing back to what is deployed clears the marker of unpublished changes, and only that does. */
  lemma MarkerIsExact(s: Session, es: seq<Event>, staged: Mode, id: Id)
    requires Inv(s, staged) && CanRun(s, es, staged) && id in Run(s, es, staged).flows
    ensures var s' := Run(s, es, staged);
            var flow := s'.flows[id];
            !flow.draftChanged <==>
              exists v :: v in s'.versions && v.flow == id && DeploymentOf(flow, staged(id)) == Some(v.number) && v.snapshot == flow.graph
  {
    RunKeeps(s, es, staged);
    var s' := Run(s, es, staged);
    var flow := s'.flows[id];
    assert FlowOk(s'.versions, id, flow, staged(id));
    if v :| v in s'.versions && v.flow == id && DeploymentOf(flow, staged(id)) == Some(v.number) && v.snapshot == flow.graph {
      OneVersion(s'.versions, id, v);
    }
  }

  lemma OneVersion(versions: seq<Version>, id: Id, v: Version)
    requires Decreasing(versions) && v in versions && v.flow == id
    ensures FindVersion(versions, id, v.number) == Some(v)
  {
    var w := FindVersion(versions, id, v.number).value;
    var i :| 0 <= i < |versions| && versions[i] == v;
    var j :| 0 <= j < |versions| && versions[j] == w;
  }
}
