/** Stable numbers for nodes: every node carries a ref such as `feishu-1`, which it keeps through edits. */
module Numbering {
  import opened Helpers
  import opened Workflow
  import opened TreeEdits
  import opened Scope

  /** What numbering looks at: a node's id, the prefix its ref has to have, and the ref it carries. */
  datatype Label = Label(id: Id, prefix: string, ref: Option<Ref>)

  function RefPrefix(node: Node): string {
    match node.kind
    case TriggerKind => if node.connector.Some? then node.connector.value + "-trigger" else "trigger"
    case ActionKind => if node.connector.Some? then node.connector.value else "action"
    case BranchKind => "branch"
    case ParallelKind => "branch"
    case LoopKind(isWhile) => if isWhile then "while" else "loop"
    case OtherKind(name) => name
  }

  function LabelOf(node: Node): Label { Label(node.id, RefPrefix(node), node.ref) }

  function LabelsOf(steps: seq<Node>): seq<Label>
    decreases steps
  {
    if steps == [] then [] else [LabelOf(steps[0])] + LabelsOfLists(steps[0].lists) + LabelsOf(steps[1..])
  }

  function LabelsOfLists(lists: seq<ChildList>): seq<Label>
    decreases lists
  {
    if lists == [] then [] else LabelsOf(lists[0].steps) + LabelsOfLists(lists[1..])
  }

  function Labels(g: Graph): seq<Label> { [LabelOf(g.trigger)] + LabelsOf(g.steps) }

  /** The number of a ref, if it is one with the right prefix, and 0 otherwise. */
  function RefNumber(l: Label): nat {
    if l.ref.Some? && l.ref.value.prefix == l.prefix && l.ref.value.number > 0 then l.ref.value.number else 0
  }

  predicate Valid(l: Label) { RefNumber(l) > 0 }

  function Count(counters: map<string, nat>, p: string): nat { if p in counters then counters[p] else 0 }

  /** The largest number in use for each prefix. */
  function Top(ls: seq<Label>): (top: map<string, nat>)
    ensures forall l :: l in ls ==> l.prefix in top && RefNumber(l) <= top[l.prefix]
  {
    if ls == [] then map[]
    else
      var last, top := ls[|ls| - 1], Top(ls[..|ls| - 1]);
      assert forall l :: l in ls ==> l == last || l in ls[..|ls| - 1];
      top[last.prefix := Max(Count(top, last.prefix), RefNumber(last))]
  }

  // ---------------------------------------------------------------- one node after the other

  datatype Progress = Progress(next: map<string, nat>, seen: set<Ref>)
  datatype Fixed<T> = Fixed(value: T, progress: Progress)

  /** Keeps a valid ref that was not seen before; otherwise takes the next number of the prefix. */
  function Fix(l: Label, st: Progress): Fixed<Ref> {
    if !Valid(l) || l.ref.value in st.seen then
      var n := Count(st.next, l.prefix) + 1;
      Fixed(Ref(l.prefix, n), Progress(st.next[l.prefix := n], st.seen + {Ref(l.prefix, n)}))
    else Fixed(l.ref.value, st.(seen := st.seen + {l.ref.value}))
  }

  function FixAll(ls: seq<Label>, st: Progress): (r: seq<Ref>)
    ensures |r| == |ls|
  {
    if ls == [] then [] else [Fix(ls[0], st).value] + FixAll(ls[1..], Fix(ls[0], st).progress)
  }

  function After(ls: seq<Label>, st: Progress): Progress {
    if ls == [] then st else After(ls[1..], Fix(ls[0], st).progress)
  }

  function FixSteps(steps: seq<Node>, st: Progress): Fixed<seq<Node>>
    decreases steps, 0
  {
    if steps == [] then Fixed([], st)
    else
      var head := FixNode(steps[0], st);
      var tail := FixSteps(steps[1..], head.progress);
      Fixed([head.value] + tail.value, tail.progress)
  }

  function FixNode(node: Node, st: Progress): Fixed<Node>
    decreases node, 0
  {
    var own := Fix(LabelOf(node), st);
    var inner := FixLists(node.lists, own.progress);
    Fixed(node.(ref := Some(own.value), lists := inner.value), inner.progress)
  }

  function FixLists(lists: seq<ChildList>, st: Progress): Fixed<seq<ChildList>>
    decreases lists, 0
  {
    if lists == [] then Fixed([], st)
    else
      var head := FixSteps(lists[0].steps, st);
      var tail := FixLists(lists[1..], head.progress);
      Fixed([lists[0].(steps := head.value)] + tail.value, tail.progress)
  }

  function Start(g: Graph): Progress { Progress(Top(Labels(g)), {}) }

  function FixGraph(g: Graph, st: Progress): Graph {
    var trigger := Fix(LabelOf(g.trigger), st);
    Graph(g.trigger.(ref := Some(trigger.value)), FixSteps(g.steps, trigger.progress).value)
  }

  function WithRefs(g: Graph): Graph { FixGraph(g, Start(g)) }

  // ---------------------------------------------------------------- numbering as it runs

  /** The counters and the refs met so far, updated from node to node. */
  class Numberer {
    var next: map<string, nat>
    var seen: set<Ref>

    function State(): Progress
      reads this
    {
      Progress(next, seen)
    }

    constructor (top: map<string, nat>)
      ensures State() == Progress(top, {})
    {
      next, seen := top, {};
    }

    method FixRef(l: Label) returns (ref: Ref)
      modifies this
      ensures Fix(l, old(State())) == Fixed(ref, State())
    {
      if !Valid(l) || l.ref.value in seen {
        next := next[l.prefix := Count(next, l.prefix) + 1];
        ref := Ref(l.prefix, next[l.prefix]);
      } else {
        ref := l.ref.value;
      }
      seen := seen + {ref};
    }

    method FixEach(steps: seq<Node>) returns (r: seq<Node>)
      modifies this
      ensures FixSteps(steps, old(State())) == Fixed(r, State())
      decreases steps, 0
    {
      if steps == [] {
        return [];
      }
      var head := FixOne(steps[0]);
      var tail := FixEach(steps[1..]);
      r := [head] + tail;
    }

    method FixOne(node: Node) returns (r: Node)
      modifies this
      ensures FixNode(node, old(State())) == Fixed(r, State())
      decreases node, 0
    {
      var ref := FixRef(LabelOf(node));
      var lists := FixInside(node.lists);
      r := node.(ref := Some(ref), lists := lists);
    }

    method FixInside(lists: seq<ChildList>) returns (r: seq<ChildList>)
      modifies this
      ensures FixLists(lists, old(State())) == Fixed(r, State())
      decreases lists, 0
    {
      if lists == [] {
        return [];
      }
      var head := FixEach(lists[0].steps);
      var tail := FixInside(lists[1..]);
      r := [lists[0].(steps := head)] + tail;
    }
  }

  method Number(g: Graph) returns (r: Graph)
    ensures r == WithRefs(g)
  {
    var numberer := new Numberer(Top(Labels(g)));
    var ref := numberer.FixRef(LabelOf(g.trigger));
    var steps := numberer.FixEach(g.steps);
    r := Graph(g.trigger.(ref := Some(ref)), steps);
  }

  // ---------------------------------------------------------------- the tree as a list of labels

  /** The labels with their new refs. */
  function Relabel(ls: seq<Label>, refs: seq<Ref>): (r: seq<Label>)
    requires |ls| == |refs|
    ensures |r| == |ls| && forall i :: 0 <= i < |ls| ==> r[i] == ls[i].(ref := Some(refs[i]))
  {
    if ls == [] then [] else [ls[0].(ref := Some(refs[0]))] + Relabel(ls[1..], refs[1..])
  }

  lemma {:induction false} FixAllConcat(a: seq<Label>, b: seq<Label>, st: Progress)
    ensures FixAll(a + b, st) == FixAll(a, st) + FixAll(b, After(a, st)) && After(a + b, st) == After(b, After(a, st))
  {
    if a == [] {
      assert a + b == b;
    } else {
      assert (a + b)[1..] == a[1..] + b;
      FixAllConcat(a[1..], b, Fix(a[0], st).progress);
    }
  }

  lemma RelabelConcat(a: seq<Label>, b: seq<Label>, st: Progress)
    ensures Relabel(a + b, FixAll(a + b, st)) == Relabel(a, FixAll(a, st)) + Relabel(b, FixAll(b, After(a, st)))
  {
    FixAllConcat(a, b, st);
  }

  lemma {:induction false} LabelsFixed(steps: seq<Node>, st: Progress)
    ensures LabelsOf(FixSteps(steps, st).value) == Relabel(LabelsOf(steps), FixAll(LabelsOf(steps), st))
    ensures FixSteps(steps, st).progress == After(LabelsOf(steps), st)
    decreases steps, 0
  {
    if steps != [] {
      var head := FixNode(steps[0], st);
      var own := [LabelOf(steps[0])] + LabelsOfLists(steps[0].lists);
      LabelsFixedNode(steps[0], st);
      LabelsFixed(steps[1..], head.progress);
      FixAllConcat(own, LabelsOf(steps[1..]), st);
      RelabelConcat(own, LabelsOf(steps[1..]), st);
      assert FixSteps(steps, st).value[1..] == FixSteps(steps[1..], head.progress).value;
    }
  }

  lemma RelabelOne(l: Label, st: Progress)
    ensures Relabel([l], FixAll([l], st)) == [l.(ref := Some(Fix(l, st).value))] && After([l], st) == Fix(l, st).progress
  {
    assert FixAll([l], st) == [Fix(l, st).value];
  }

  lemma {:induction false} LabelsFixedNode(node: Node, st: Progress)
    ensures var own, r := [LabelOf(node)] + LabelsOfLists(node.lists), FixNode(node, st);
            && [LabelOf(r.value)] + LabelsOfLists(r.value.lists) == Relabel(own, FixAll(own, st))
            && r.progress == After(own, st)
    decreases node, 0
  {
    var l, inner := LabelOf(node), LabelsOfLists(node.lists);
    RelabelOne(l, st);
    LabelsFixedLists(node.lists, Fix(l, st).progress);
    FixAllConcat([l], inner, st);
    RelabelConcat([l], inner, st);
    assert LabelOf(FixNode(node, st).value) == l.(ref := Some(Fix(l, st).value));
  }

  lemma {:induction false} LabelsFixedLists(lists: seq<ChildList>, st: Progress)
    ensures LabelsOfLists(FixLists(lists, st).value) == Relabel(LabelsOfLists(lists), FixAll(LabelsOfLists(lists), st))
    ensures FixLists(lists, st).progress == After(LabelsOfLists(lists), st)
    decreases lists, 0
  {
    if lists != [] {
      var head := FixSteps(lists[0].steps, st);
      LabelsFixed(lists[0].steps, st);
      LabelsFixedLists(lists[1..], head.progress);
      FixAllConcat(LabelsOf(lists[0].steps), LabelsOfLists(lists[1..]), st);
      RelabelConcat(LabelsOf(lists[0].steps), LabelsOfLists(lists[1..]), st);
      assert FixLists(lists, st).value[1..] == FixLists(lists[1..], head.progress).value;
    }
  }

  lemma LabelsFixedGraph(g: Graph, st: Progress)
    ensures Labels(FixGraph(g, st)) == Relabel(Labels(g), FixAll(Labels(g), st))
  {
    var l := LabelOf(g.trigger);
    RelabelOne(l, st);
    LabelsFixed(g.steps, Fix(l, st).progress);
    RelabelConcat([l], LabelsOf(g.steps), st);
    assert RefPrefix(FixGraph(g, st).trigger) == RefPrefix(g.trigger);
  }

  // ---------------------------------------------------------------- which refs are kept

  /** No counter is behind a ref in use, and none behind a ref already given. */
  ghost predicate Ahead(ls: seq<Label>, st: Progress) {
    && (forall l :: l in ls ==> l.prefix in st.next && RefNumber(l) <= st.next[l.prefix])
    && (forall r :: r in st.seen ==> r.number <= Count(st.next, r.prefix))
  }

  /** Position `i` is the first that holds its ref validly. */
  predicate FirstHolder(ls: seq<Label>, i: nat)
    requires i < |ls|
  {
    Valid(ls[i]) && forall j :: 0 <= j < i ==> !(Valid(ls[j]) && ls[j].ref == ls[i].ref)
  }

  lemma AheadAfter(ls: seq<Label>, st: Progress)
    requires ls != [] && Ahead(ls, st)
    ensures var first := Fix(ls[0], st);
            && Ahead(ls[1..], first.progress)
            && first.value !in st.seen && first.value in first.progress.seen && st.seen <= first.progress.seen
            && first.value.prefix == ls[0].prefix && first.value.number > 0
            && (ls[0].ref == Some(first.value) <==> Valid(ls[0]) && ls[0].ref.value !in st.seen)
            && (forall l :: l in ls[1..] && Valid(l) && l.ref == Some(first.value) ==> ls[0].ref == l.ref && Valid(ls[0]))
  {
    assert ls[0] in ls && forall l :: l in ls[1..] ==> l in ls;
  }

  /** Every node gets a ref of its own prefix that was not given before. */
  lemma {:induction false} RefIsNew(ls: seq<Label>, st: Progress, i: nat)
    requires Ahead(ls, st) && i < |ls|
    ensures var r := FixAll(ls, st)[i]; r.prefix == ls[i].prefix && r.number > 0 && r !in st.seen
  {
    AheadAfter(ls, st);
    if i > 0 { RefIsNew(ls[1..], Fix(ls[0], st).progress, i - 1); }
  }

  /** No ref is given twice. */
  lemma {:induction false} RefsDiffer(ls: seq<Label>, st: Progress, i: nat, j: nat)
    requires Ahead(ls, st) && i < j < |ls|
    ensures FixAll(ls, st)[i] != FixAll(ls, st)[j]
  {
    AheadAfter(ls, st);
    var next := Fix(ls[0], st).progress;
    if i > 0 {
      RefsDiffer(ls[1..], next, i - 1, j - 1);
    } else {
      RefIsNew(ls[1..], next, j - 1);
    }
  }

  /** A node keeps its ref if and only if it is the first to hold it validly. */
  lemma {:induction false} KeptByFirstHolder(ls: seq<Label>, st: Progress, i: nat)
    requires Ahead(ls, st) && i < |ls|
    ensures ls[i].ref == Some(FixAll(ls, st)[i]) <==> FirstHolder(ls, i) && ls[i].ref.value !in st.seen
  {
    AheadAfter(ls, st);
    if i > 0 {
      var first := Fix(ls[0], st);
      KeptByFirstHolder(ls[1..], first.progress, i - 1);
      FirstHolderTail(ls, i);
      assert ls[i] == ls[1..][i - 1] && ls[i] in ls[1..];
      assert FixAll(ls, st)[i] == FixAll(ls[1..], first.progress)[i - 1];
    }
  }

  lemma FirstHolderTail(ls: seq<Label>, i: nat)
    requires 0 < i < |ls|
    ensures FirstHolder(ls, i) <==> FirstHolder(ls[1..], i - 1) && !(Valid(ls[0]) && ls[0].ref == ls[i].ref)
  {
    assert forall j :: 0 < j <= i ==> ls[1..][j - 1] == ls[j];
    if FirstHolder(ls[1..], i - 1) && !(Valid(ls[0]) && ls[0].ref == ls[i].ref) {
      forall j | 0 <= j < i ensures !(Valid(ls[j]) && ls[j].ref == ls[i].ref) {
        if j > 0 { assert ls[1..][j - 1] == ls[j]; }
      }
    }
    if FirstHolder(ls, i) {
      forall j | 0 <= j < i - 1 ensures !(Valid(ls[1..][j]) && ls[1..][j].ref == ls[1..][i - 1].ref) {
        assert ls[1..][j] == ls[j + 1];
      }
    }
  }

  /** Nothing but refs changed; every label has a ref of its own prefix, no two share one, and
      exactly the first valid holder of a ref has kept it. */
  ghost predicate Renumbered(ls: seq<Label>, ls': seq<Label>) {
    && |ls'| == |ls|
    && (forall i :: 0 <= i < |ls| ==> Valid(ls'[i]) && ls'[i] == ls[i].(ref := ls'[i].ref))
    && (forall i, j :: 0 <= i < j < |ls'| ==> ls'[i].ref != ls'[j].ref)
    && (forall i :: 0 <= i < |ls| ==> (ls'[i] == ls[i] <==> FirstHolder(ls, i)))
  }

  lemma RelabelRenumbers(ls: seq<Label>, st: Progress)
    requires Ahead(ls, st) && st.seen == {}
    ensures Renumbered(ls, Relabel(ls, FixAll(ls, st)))
  {
    forall i | 0 <= i < |ls|
      ensures var r := FixAll(ls, st)[i]; r.prefix == ls[i].prefix && r.number > 0 && (ls[i].ref == Some(r) <==> FirstHolder(ls, i))
    {
      RefIsNew(ls, st, i);
      KeptByFirstHolder(ls, st, i);
    }
    forall i, j | 0 <= i < j < |ls| ensures FixAll(ls, st)[i] != FixAll(ls, st)[j] { RefsDiffer(ls, st, i, j); }
  }

  lemma NumberingIsStable(g: Graph)
    ensures Renumbered(Labels(g), Labels(WithRefs(g)))
  {
    var ls, st := Labels(g), Start(g);
    assert Ahead(ls, st);
    LabelsFixedGraph(g, st);
    RelabelRenumbers(ls, st);
  }

  // ---------------------------------------------------------------- which numbers are given

  /** The largest number that the labels hold validly for a prefix. */
  function Highest(ls: seq<Label>, p: string): nat {
    if ls == [] then 0
    else Max(if ls[|ls| - 1].prefix == p then RefNumber(ls[|ls| - 1]) else 0, Highest(ls[..|ls| - 1], p))
  }

  lemma {:induction false} TopIsHighest(ls: seq<Label>, p: string)
    ensures Count(Top(ls), p) == Highest(ls, p)
  {
    if ls != [] { TopIsHighest(ls[..|ls| - 1], p); }
  }

  /** How many labels of a prefix have other refs than before. */
  function Renewed(ls: seq<Label>, refs: seq<Ref>, p: string): nat
    requires |ls| == |refs|
  {
    if ls == [] then 0
    else (if ls[0].prefix == p && ls[0].ref != Some(refs[0]) then 1 else 0) + Renewed(ls[1..], refs[1..], p)
  }

  lemma {:induction false} NewNumber(ls: seq<Label>, st: Progress, i: nat)
    requires Ahead(ls, st) && i < |ls| && ls[i].ref != Some(FixAll(ls, st)[i])
    ensures var refs, p := FixAll(ls, st), ls[i].prefix;
            refs[i].number == Count(st.next, p) + Renewed(ls[..i], refs[..i], p) + 1
  {
    AheadAfter(ls, st);
    if i > 0 {
      var next, refs := Fix(ls[0], st).progress, FixAll(ls, st);
      NewNumber(ls[1..], next, i - 1);
      assert refs[1..] == FixAll(ls[1..], next) && refs[i] == refs[1..][i - 1];
      assert ls[..i][1..] == ls[1..][..i - 1] && refs[..i][1..] == refs[1..][..i - 1];
    }
  }

  /** A node that gets another ref gets the next number of its prefix: one more than the largest in use
      and than those given to the nodes before it. */
  lemma NewNumbersFollow(g: Graph, refs: seq<Ref>, i: nat)
    requires i < |Labels(g)| && |refs| == |Labels(g)|
    requires forall j :: 0 <= j < |refs| && j < |Labels(WithRefs(g))| ==> Labels(WithRefs(g))[j].ref == Some(refs[j])
    requires Labels(g)[i].ref != Some(refs[i])
    ensures var p := Labels(g)[i].prefix;
            refs[i] == Ref(p, Highest(Labels(g), p) + Renewed(Labels(g)[..i], refs[..i], p) + 1)
  {
    var ls, st := Labels(g), Start(g);
    assert Ahead(ls, st);
    LabelsFixedGraph(g, st);
    var ls' := Relabel(ls, FixAll(ls, st));
    forall j | 0 <= j < |refs| ensures refs[j] == FixAll(ls, st)[j] {
      assert ls'[j].ref == Some(refs[j]);
    }
    assert refs == FixAll(ls, st);
    RefIsNew(ls, st, i);
    NewNumber(ls, st, i);
    TopIsHighest(ls, ls[i].prefix);
  }

  // ---------------------------------------------------------------- nothing but refs is changed

  /** The workflow without its refs. */
  function Bare(g: Graph): Graph { Graph(g.trigger.(ref := None), BareSteps(g.steps)) }

  function BareSteps(steps: seq<Node>): seq<Node> {
    if steps == [] then [] else [steps[0].(ref := None, lists := BareLists(steps[0].lists))] + BareSteps(steps[1..])
  }

  function BareLists(lists: seq<ChildList>): seq<ChildList> {
    if lists == [] then [] else [lists[0].(steps := BareSteps(lists[0].steps))] + BareLists(lists[1..])
  }

  lemma {:induction false} FixKeepsBare(steps: seq<Node>, st: Progress)
    ensures BareSteps(FixSteps(steps, st).value) == BareSteps(steps)
    decreases steps
  {
    if steps != [] {
      var head := FixNode(steps[0], st);
      FixKeepsBareLists(steps[0].lists, Fix(LabelOf(steps[0]), st).progress);
      FixKeepsBare(steps[1..], head.progress);
      assert FixSteps(steps, st).value[1..] == FixSteps(steps[1..], head.progress).value;
    }
  }

  lemma {:induction false} FixKeepsBareLists(lists: seq<ChildList>, st: Progress)
    ensures BareLists(FixLists(lists, st).value) == BareLists(lists)
    decreases lists
  {
    if lists != [] {
      var head := FixSteps(lists[0].steps, st);
      FixKeepsBare(lists[0].steps, st);
      FixKeepsBareLists(lists[1..], head.progress);
      assert FixLists(lists, st).value[1..] == FixLists(lists[1..], head.progress).value;
    }
  }

  /** Numbering changes nothing in the whole workflow but refs. */
  lemma NumberingKeepsTheRest(g: Graph)
    ensures Bare(WithRefs(g)) == Bare(g)
  {
    FixKeepsBare(g.steps, Fix(LabelOf(g.trigger), Start(g)).progress);
  }

  // ---------------------------------------------------------------- trees that are numbered already

  predicate NumberedLabels(ls: seq<Label>) {
    && (forall i :: 0 <= i < |ls| ==> Valid(ls[i]))
    && (forall i, j :: 0 <= i < j < |ls| ==> ls[i].ref != ls[j].ref)
  }

  predicate Numbered(g: Graph) { NumberedLabels(Labels(g)) }

  /** The refs given are the refs carried. */
  ghost predicate Unchanged(ls: seq<Label>, st: Progress) {
    Relabel(ls, FixAll(ls, st)) == ls
  }

  lemma UnchangedParts(a: seq<Label>, b: seq<Label>, st: Progress)
    requires Unchanged(a + b, st)
    ensures Unchanged(a, st) && Unchanged(b, After(a, st))
  {
    RelabelConcat(a, b, st);
    var x, y := Relabel(a, FixAll(a, st)), Relabel(b, FixAll(b, After(a, st)));
    assert x == (x + y)[..|a|] && a == (a + b)[..|a|];
    assert y == (x + y)[|a|..] && b == (a + b)[|a|..];
  }

  lemma {:induction false} SameTree(steps: seq<Node>, st: Progress)
    requires Unchanged(LabelsOf(steps), st)
    ensures FixSteps(steps, st).value == steps
    decreases steps, 0
  {
    if steps != [] {
      var own := [LabelOf(steps[0])] + LabelsOfLists(steps[0].lists);
      UnchangedParts(own, LabelsOf(steps[1..]), st);
      LabelsFixedNode(steps[0], st);
      SameNode(steps[0], st);
      SameTree(steps[1..], FixNode(steps[0], st).progress);
    }
  }

  lemma {:induction false} SameNode(node: Node, st: Progress)
    requires Unchanged([LabelOf(node)] + LabelsOfLists(node.lists), st)
    ensures FixNode(node, st).value == node
    decreases node, 0
  {
    var l := LabelOf(node);
    UnchangedParts([l], LabelsOfLists(node.lists), st);
    RelabelOne(l, st);
    assert [l][0] == [l.(ref := Some(Fix(l, st).value))][0];
    SameLists(node.lists, Fix(l, st).progress);
  }

  lemma {:induction false} SameLists(lists: seq<ChildList>, st: Progress)
    requires Unchanged(LabelsOfLists(lists), st)
    ensures FixLists(lists, st).value == lists
    decreases lists, 0
  {
    if lists != [] {
      UnchangedParts(LabelsOf(lists[0].steps), LabelsOfLists(lists[1..]), st);
      LabelsFixed(lists[0].steps, st);
      SameTree(lists[0].steps, st);
      SameLists(lists[1..], FixSteps(lists[0].steps, st).progress);
    }
  }

  lemma NumberedUnchanged(ls: seq<Label>, st: Progress)
    requires NumberedLabels(ls) && Ahead(ls, st) && st.seen == {}
    ensures Unchanged(ls, st)
  {
    forall i | 0 <= i < |ls|
      ensures Relabel(ls, FixAll(ls, st))[i] == ls[i]
    {
      KeptByFirstHolder(ls, st, i);
    }
  }

  lemma RenumberedIsNumbered(ls: seq<Label>, ls': seq<Label>)
    requires Renumbered(ls, ls')
    ensures NumberedLabels(ls')
  {
  }

  /** Numbering leaves a workflow alone if and only if it is numbered. */
  lemma NumberedIsFixpoint(g: Graph)
    ensures Numbered(g) <==> WithRefs(g) == g
  {
    if Numbered(g) {
      NumberedUnchanged(Labels(g), Start(g));
      AllSame(g, Start(g));
    } else {
      NumberingIsStable(g);
      RenumberedIsNumbered(Labels(g), Labels(WithRefs(g)));
    }
  }

  lemma AllSame(g: Graph, st: Progress)
    requires Unchanged(Labels(g), st)
    ensures FixGraph(g, st) == g
  {
    var l := LabelOf(g.trigger);
    UnchangedParts([l], LabelsOf(g.steps), st);
    RelabelOne(l, st);
    assert [l][0] == [l.(ref := Some(Fix(l, st).value))][0];
    SameTree(g.steps, Fix(l, st).progress);
  }

  lemma NumberingIsIdempotent(g: Graph)
    ensures Numbered(WithRefs(g)) && WithRefs(WithRefs(g)) == WithRefs(g)
  {
    NumberingIsStable(g);
    RenumberedIsNumbered(Labels(g), Labels(WithRefs(g)));
    NumberedIsFixpoint(WithRefs(g));
  }

  // ---------------------------------------------------------------- edits do not renumber

  lemma {:induction false} LabelIds(steps: seq<Node>, l: Label)
    requires l in LabelsOf(steps)
    ensures l.id in IdsIn(steps)
    decreases steps
  {
    if l in LabelsOfLists(steps[0].lists) {
      LabelIdsInLists(steps[0].lists, l);
    } else if l in LabelsOf(steps[1..]) {
      LabelIds(steps[1..], l);
    }
  }

  lemma {:induction false} LabelIdsInLists(lists: seq<ChildList>, l: Label)
    requires l in LabelsOfLists(lists)
    ensures l.id in IdsInLists(lists)
    decreases lists
  {
    if l in LabelsOf(lists[0].steps) {
      LabelIds(lists[0].steps, l);
    } else {
      LabelIdsInLists(lists[1..], l);
    }
  }

  predicate DistinctIds(ls: seq<Label>) {
    forall i, j :: 0 <= i < j < |ls| ==> ls[i].id != ls[j].id
  }

  lemma DistinctIdsConcat(a: seq<Label>, b: seq<Label>, left: set<Id>, right: set<Id>)
    requires DistinctIds(a) && DistinctIds(b) && left !! right
    requires (forall l :: l in a ==> l.id in left) && (forall l :: l in b ==> l.id in right)
    ensures DistinctIds(a + b)
  {
    forall i, j | 0 <= i < j < |a + b|
      ensures (a + b)[i].id != (a + b)[j].id
    {
      if i < |a| <= j { assert a[i] in a && b[j - |a|] in b; }
    }
  }

  lemma {:induction false} LabelsDistinct(steps: seq<Node>)
    requires UniqueIds(steps)
    ensures DistinctIds(LabelsOf(steps))
    decreases steps
  {
    if steps != [] {
      var l, inner, rest := LabelOf(steps[0]), LabelsOfLists(steps[0].lists), LabelsOf(steps[1..]);
      LabelsDistinctInLists(steps[0].lists);
      LabelsDistinct(steps[1..]);
      forall x | x in inner ensures x.id in IdsInLists(steps[0].lists) { LabelIdsInLists(steps[0].lists, x); }
      forall x | x in rest ensures x.id in IdsIn(steps[1..]) { LabelIds(steps[1..], x); }
      DistinctIdsConcat([l], inner, {steps[0].id}, IdsInLists(steps[0].lists));
      DistinctIdsConcat([l] + inner, rest, {steps[0].id} + IdsInLists(steps[0].lists), IdsIn(steps[1..]));
    }
  }

  lemma {:induction false} LabelsDistinctInLists(lists: seq<ChildList>)
    requires UniqueIdsInLists(lists)
    ensures DistinctIds(LabelsOfLists(lists))
    decreases lists
  {
    if lists != [] {
      var first, rest := LabelsOf(lists[0].steps), LabelsOfLists(lists[1..]);
      LabelsDistinct(lists[0].steps);
      LabelsDistinctInLists(lists[1..]);
      forall x | x in first ensures x.id in IdsIn(lists[0].steps) { LabelIds(lists[0].steps, x); }
      forall x | x in rest ensures x.id in IdsInLists(lists[1..]) { LabelIdsInLists(lists[1..], x); }
      DistinctIdsConcat(first, rest, IdsIn(lists[0].steps), IdsInLists(lists[1..]));
    }
  }

  lemma GraphLabelsDistinct(g: Graph)
    requires WellFormed(g)
    ensures DistinctIds(Labels(g))
  {
    LabelsDistinct(g.steps);
    forall x | x in LabelsOf(g.steps) ensures x.id in IdsIn(g.steps) { LabelIds(g.steps, x); }
    DistinctIdsConcat([LabelOf(g.trigger)], LabelsOf(g.steps), {g.trigger.id}, IdsIn(g.steps));
  }

  lemma {:induction false} LabelsAfterRemove(steps: seq<Node>, id: Id, l: Label)
    requires l in LabelsOf(RemoveFromSteps(steps, id))
    ensures l in LabelsOf(steps)
    decreases steps
  {
    if steps != [] {
      if steps[0].id == id {
        LabelsAfterRemove(steps[1..], id, l);
      } else {
        assert RemoveFromSteps(steps, id)[1..] == RemoveFromSteps(steps[1..], id);
        if l in LabelsOfLists(RemoveFromLists(steps[0].lists, id)) {
          LabelsAfterRemoveInLists(steps[0].lists, id, l);
        } else if l in LabelsOf(RemoveFromSteps(steps[1..], id)) {
          LabelsAfterRemove(steps[1..], id, l);
        }
      }
    }
  }

  lemma {:induction false} LabelsAfterRemoveInLists(lists: seq<ChildList>, id: Id, l: Label)
    requires l in LabelsOfLists(RemoveFromLists(lists, id))
    ensures l in LabelsOfLists(lists)
    decreases lists
  {
    if lists != [] {
      assert RemoveFromLists(lists, id)[1..] == RemoveFromLists(lists[1..], id);
      if l in LabelsOf(RemoveFromSteps(lists[0].steps, id)) {
        LabelsAfterRemove(lists[0].steps, id, l);
      } else {
        LabelsAfterRemoveInLists(lists[1..], id, l);
      }
    }
  }

  /** Two labels of a numbered workflow with the same ref are the same. */
  lemma OneHolder(ls: seq<Label>, l: Label, m: Label)
    requires NumberedLabels(ls) && l in ls && m in ls && l.ref == m.ref
    ensures l == m
  {
    var i :| 0 <= i < |ls| && ls[i] == l;
    var j :| 0 <= j < |ls| && ls[j] == m;
  }

  /** Labels that all come from a numbered workflow, each at most once, are numbered. */
  lemma NumberedSubset(all: seq<Label>, ls: seq<Label>)
    requires NumberedLabels(all) && DistinctIds(ls) && forall l :: l in ls ==> l in all
    ensures NumberedLabels(ls)
  {
    forall i | 0 <= i < |ls| ensures Valid(ls[i]) {
      assert ls[i] in all;
    }
    forall i, j | 0 <= i < j < |ls| ensures ls[i].ref != ls[j].ref {
      if ls[i].ref == ls[j].ref { OneHolder(all, ls[i], ls[j]); }
    }
  }

  /** Deleting nodes never renumbers the others. */
  lemma DeleteKeepsNumbers(g: Graph, id: Id)
    requires WellFormed(g) && Numbered(g)
    ensures Numbered(Delete(g, id)) && WithRefs(Delete(g, id)) == Delete(g, id)
    ensures forall l :: l in Labels(Delete(g, id)) ==> l in Labels(g)
  {
    var g' := Delete(g, id);
    WellFormedAfterRemove(g, id);
    GraphLabelsDistinct(g');
    forall l | l in Labels(g') ensures l in Labels(g) {
      if l in LabelsOf(g'.steps) { LabelsAfterRemove(g.steps, id, l); }
    }
    NumberedSubset(Labels(g), Labels(g'));
    NumberedIsFixpoint(g');
  }

  lemma {:induction false} LabelsAfterInsert(steps: seq<Node>, t: Target, node: Node, l: Label)
    requires l in LabelsOf(InsertIntoSteps(steps, t, node))
    ensures l in LabelsOf(steps) || l in LabelsOf([node])
    decreases steps, 1
  {
    if t.parent == ROOT {
      LabelsOfSplice(steps, t.index, node);
    } else {
      LabelsAfterInsertBelow(steps, t, node, l);
    }
  }

  lemma {:induction false} LabelsConcat(a: seq<Node>, b: seq<Node>)
    ensures LabelsOf(a + b) == LabelsOf(a) + LabelsOf(b)
  {
    if a == [] {
      assert a + b == b;
    } else {
      assert (a + b)[1..] == a[1..] + b;
      LabelsConcat(a[1..], b);
    }
  }

  lemma LabelsOfSplice(list: seq<Node>, index: nat, node: Node)
    ensures forall l :: l in LabelsOf(Splice(list, index, node)) ==> l in LabelsOf(list) || l in LabelsOf([node])
  {
    var i := Min(index, |list|);
    assert list == list[..i] + list[i..];
    LabelsConcat(list[..i], [node] + list[i..]);
    LabelsConcat([node], list[i..]);
    LabelsConcat(list[..i], list[i..]);
  }

  lemma {:induction false} LabelsAfterInsertBelow(steps: seq<Node>, t: Target, node: Node, l: Label)
    requires l in LabelsOf(InsertBelow(steps, t, node))
    ensures l in LabelsOf(steps) || l in LabelsOf([node])
    decreases steps, 0
  {
    if steps != [] {
      assert InsertBelow(steps, t, node)[1..] == InsertBelow(steps[1..], t, node);
      if l in LabelsOfLists(InsertIntoLists(steps[0].id, steps[0].lists, t, node)) {
        LabelsAfterInsertInLists(steps[0].id, steps[0].lists, t, node, l);
      } else if l in LabelsOf(InsertBelow(steps[1..], t, node)) {
        LabelsAfterInsertBelow(steps[1..], t, node, l);
      }
    }
  }

  lemma {:induction false} LabelsAfterInsertInLists(owner: Id, lists: seq<ChildList>, t: Target, node: Node, l: Label)
    requires l in LabelsOfLists(InsertIntoLists(owner, lists, t, node))
    ensures l in LabelsOfLists(lists) || l in LabelsOf([node])
    decreases lists
  {
    if lists != [] {
      var inserted := InsertIntoLists(owner, lists, t, node);
      assert inserted[1..] == InsertIntoLists(owner, lists[1..], t, node);
      if l in LabelsOf(inserted[0].steps) {
        if Matches(owner, lists[0].kind, t) {
          LabelsOfSplice(lists[0].steps, t.index, node);
        } else {
          LabelsAfterInsert(lists[0].steps, t, node, l);
        }
      } else {
        LabelsAfterInsertInLists(owner, lists[1..], t, node, l);
      }
    }
  }

  /** Inserting a tree of nodes without refs never renumbers the nodes that were there. */
  lemma InsertKeepsNumbers(g: Graph, t: Target, node: Node, l: Label)
    requires WellFormed(g) && Numbered(g) && l in Labels(g)
    requires TreeOk([node]) && IdsIn([node]) !! IdsIn(g.steps) + {g.trigger.id}
    requires forall m :: m in LabelsOf([node]) ==> m.ref.None?
    ensures l in Labels(WithRefs(Insert(g, t, node)))
  {
    var g' := Insert(g, t, node);
    assert node.id in IdsIn([node]);
    RemoveInserted(g.steps, t, node);
    WellFormedAfterInsert(g, t, node);
    GraphLabelsDistinct(g');
    if l in LabelsOf(g.steps) { LabelsAfterRemove(g'.steps, node.id, l); }
    var ls := Labels(g');
    assert l == LabelOf(g'.trigger) || l in LabelsOf(g'.steps);
    assert l in ls;
    var i :| 0 <= i < |ls| && ls[i] == l;
    forall j | 0 <= j < i
      ensures !(Valid(ls[j]) && ls[j].ref == l.ref)
    {
      if Valid(ls[j]) && ls[j].ref == l.ref {
        if ls[j] in LabelsOf(g'.steps) { LabelsAfterInsert(g.steps, t, node, ls[j]); }
        OneHolder(Labels(g), ls[j], l);
        assert false;
      }
    }
    assert Valid(l) by { var k :| 0 <= k < |Labels(g)| && Labels(g)[k] == l; }
    NumberingIsStable(g');
    assert FirstHolder(ls, i);
    assert Labels(WithRefs(g'))[i] == l;
  }

  // ---------------------------------------------------------------- numbering keeps the tree well formed

  lemma {:induction false} FixKeepsIds(steps: seq<Node>, st: Progress)
    ensures var r := FixSteps(steps, st).value; IdsIn(r) == IdsIn(steps) && (UniqueIds(steps) ==> UniqueIds(r))
    decreases steps, 0
  {
    if steps != [] {
      var head := FixNode(steps[0], st);
      FixListsKeepsIds(steps[0].lists, Fix(LabelOf(steps[0]), st).progress);
      FixKeepsIds(steps[1..], head.progress);
      assert FixSteps(steps, st).value[1..] == FixSteps(steps[1..], head.progress).value;
    }
  }

  lemma {:induction false} FixListsKeepsIds(lists: seq<ChildList>, st: Progress)
    ensures var r := FixLists(lists, st).value; IdsInLists(r) == IdsInLists(lists) && (UniqueIdsInLists(lists) ==> UniqueIdsInLists(r))
    decreases lists, 0
  {
    if lists != [] {
      var head := FixSteps(lists[0].steps, st);
      FixKeepsIds(lists[0].steps, st);
      FixListsKeepsIds(lists[1..], head.progress);
      assert FixLists(lists, st).value[1..] == FixLists(lists[1..], head.progress).value;
    }
  }

  lemma {:induction false} FixKeepsShapes(steps: seq<Node>, st: Progress)
    requires KeysAndShapes(steps)
    ensures KeysAndShapes(FixSteps(steps, st).value)
    decreases steps, 0
  {
    if steps != [] {
      var head, inner := FixNode(steps[0], st), Fix(LabelOf(steps[0]), st).progress;
      FixListsKeepsShapes(steps[0].lists, inner);
      FixListsKeepsKinds(steps[0].lists, inner);
      SameKindsSameKeys(steps[0].id, steps[0].lists, head.value.lists);
      SameKindsSameShape(steps[0], head.value);
      FixKeepsShapes(steps[1..], head.progress);
      assert FixSteps(steps, st).value[1..] == FixSteps(steps[1..], head.progress).value;
    }
  }

  lemma {:induction false} FixListsKeepsShapes(lists: seq<ChildList>, st: Progress)
    requires KeysAndShapesInLists(lists)
    ensures KeysAndShapesInLists(FixLists(lists, st).value)
    decreases lists, 0
  {
    if lists != [] {
      var head := FixSteps(lists[0].steps, st);
      FixKeepsShapes(lists[0].steps, st);
      FixListsKeepsShapes(lists[1..], head.progress);
      assert FixLists(lists, st).value[1..] == FixLists(lists[1..], head.progress).value;
    }
  }

  lemma {:induction false} FixListsKeepsKinds(lists: seq<ChildList>, st: Progress)
    ensures SameKinds(lists, FixLists(lists, st).value)
    decreases lists
  {
    if lists != [] {
      var next := FixSteps(lists[0].steps, st).progress;
      FixListsKeepsKinds(lists[1..], next);
      assert FixLists(lists, st).value[1..] == FixLists(lists[1..], next).value;
    }
  }

  lemma WellFormedAfterNumbering(g: Graph)
    requires WellFormed(g)
    ensures WellFormed(WithRefs(g))
  {
    var st := Fix(LabelOf(g.trigger), Start(g)).progress;
    FixKeepsIds(g.steps, st);
    FixKeepsShapes(g.steps, st);
  }
}
