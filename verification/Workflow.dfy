/** The workflow tree: a trigger and a list of nodes, each of which may own further lists.

    A node carries its child lists in the order in which the editor enumerates them: its branches
    (or the body of a loop) first, then the error list if there is one. */
module Workflow {

  datatype Option<+T> = None | Some(value: T)

  type Id = string

  /** The name under which the top-level list is addressed. */
  const ROOT: Id := "root"

  /** Text is kept as a sequence of tokens, a reference being a head (a node id, or one of a few
      reserved words) and the text between it and the closing braces, such as `.record_id`. */
  datatype Token = Text(text: string) | Reference(head: Id, path: string)
  type Expr = seq<Token>

  datatype Condition = Condition(op: string, left: Expr, right: Expr)

  /** A branch without its steps; `any` tells the logic "or" from the logic "and". */
  datatype Branch = Branch(id: Id, name: string, isDefault: bool, conditions: seq<Condition>, any: bool)

  datatype ListKind = BranchList(branch: Branch) | LoopBody | ErrorList
  datatype ChildList = ChildList(kind: ListKind, steps: seq<Node>)

  datatype Kind = TriggerKind | ActionKind | BranchKind | ParallelKind | LoopKind(isWhile: bool) | OtherKind(name: string)

  datatype Ref = Ref(prefix: string, number: int)

  datatype Node = Node(id: Id, kind: Kind, connector: Option<string>, name: string, ref: Option<Ref>,
                       config: Expr, lists: seq<ChildList>)

  datatype Graph = Graph(trigger: Node, steps: seq<Node>)

  // ---------------------------------------------------------------- list keys

  function ErrorListKey(id: Id): Id { id + ":error" }

  /** The key of a child list: a branch is named by its own id, a loop body by the loop. */
  function Key(owner: Id, kind: ListKind): Id {
    match kind
    case BranchList(b) => b.id
    case LoopBody => owner
    case ErrorList => ErrorListKey(owner)
  }

  function Keys(owner: Id, lists: seq<ChildList>): set<Id> {
    if lists == [] then {} else {Key(owner, lists[0].kind)} + Keys(owner, lists[1..])
  }

  predicate DistinctKeys(owner: Id, lists: seq<ChildList>) {
    lists == [] || (Key(owner, lists[0].kind) !in Keys(owner, lists[1..]) && DistinctKeys(owner, lists[1..]))
  }

  // ---------------------------------------------------------------- ids of a tree

  function IdsIn(steps: seq<Node>): set<Id> {
    if steps == [] then {} else {steps[0].id} + IdsInLists(steps[0].lists) + IdsIn(steps[1..])
  }

  function IdsInLists(lists: seq<ChildList>): set<Id> {
    if lists == [] then {} else IdsIn(lists[0].steps) + IdsInLists(lists[1..])
  }

  /** No id occurs twice in the tree. */
  predicate UniqueIds(steps: seq<Node>) {
    steps == [] || (
      && steps[0].id !in IdsInLists(steps[0].lists)
      && UniqueIdsInLists(steps[0].lists)
      && {steps[0].id} + IdsInLists(steps[0].lists) !! IdsIn(steps[1..])
      && UniqueIds(steps[1..]))
  }

  predicate UniqueIdsInLists(lists: seq<ChildList>) {
    lists == [] || (
      && UniqueIds(lists[0].steps)
      && IdsIn(lists[0].steps) !! IdsInLists(lists[1..])
      && UniqueIdsInLists(lists[1..]))
  }

  /** The lists of one node have distinct keys, none of which is the name of the top level. */
  predicate KeysOk(steps: seq<Node>) {
    steps == [] || (
      && ROOT !in Keys(steps[0].id, steps[0].lists)
      && DistinctKeys(steps[0].id, steps[0].lists)
      && KeysOkInLists(steps[0].lists)
      && KeysOk(steps[1..]))
  }

  predicate KeysOkInLists(lists: seq<ChildList>) {
    lists == [] || (KeysOk(lists[0].steps) && KeysOkInLists(lists[1..]))
  }

  // ---------------------------------------------------------------- shapes

  /** How many lists at the front are branches. */
  function BranchCount(lists: seq<ChildList>): (n: nat)
    ensures n <= |lists|
    ensures forall i :: 0 <= i < n ==> lists[i].kind.BranchList?
    ensures n < |lists| ==> !lists[n].kind.BranchList?
  {
    if lists == [] || !lists[0].kind.BranchList? then 0 else 1 + BranchCount(lists[1..])
  }

  predicate OnlyErrorList(lists: seq<ChildList>) {
    lists == [] || (|lists| == 1 && lists[0].kind.ErrorList?)
  }

  /** Exclusive and parallel nodes own at least one branch, a loop owns a body, other nodes own
      nothing, and every node may own an error list besides. */
  predicate ShapeOk(node: Node) {
    match node.kind
    case BranchKind => BranchCount(node.lists) > 0 && OnlyErrorList(node.lists[BranchCount(node.lists)..])
    case ParallelKind => BranchCount(node.lists) > 0 && OnlyErrorList(node.lists[BranchCount(node.lists)..])
    case LoopKind(_) => node.lists != [] && node.lists[0].kind.LoopBody? && OnlyErrorList(node.lists[1..])
    case _ => OnlyErrorList(node.lists)
  }

  predicate ShapesOk(steps: seq<Node>) {
    steps == [] || (ShapeOk(steps[0]) && ShapesOkInLists(steps[0].lists) && ShapesOk(steps[1..]))
  }

  predicate ShapesOkInLists(lists: seq<ChildList>) {
    lists == [] || (ShapesOk(lists[0].steps) && ShapesOkInLists(lists[1..]))
  }

  predicate WellFormed(g: Graph) {
    && g.trigger.lists == []
    && g.trigger.id !in IdsIn(g.steps)
    && UniqueIds(g.steps)
    && KeysOk(g.steps)
    && ShapesOk(g.steps)
  }

  // ---------------------------------------------------------------- walking and finding

  /** The nodes in the order in which `walkNodes` visits them. */
  function Preorder(steps: seq<Node>): seq<Node> {
    if steps == [] then [] else [steps[0]] + PreorderOfLists(steps[0].lists) + Preorder(steps[1..])
  }

  function PreorderOfLists(lists: seq<ChildList>): seq<Node> {
    if lists == [] then [] else Preorder(lists[0].steps) + PreorderOfLists(lists[1..])
  }

  function AllNodes(g: Graph): seq<Node> { [g.trigger] + Preorder(g.steps) }

  /** The last node with the given id that the walk comes across. */
  function FindNode(steps: seq<Node>, id: Id): (r: Option<Node>)
    ensures r.Some? <==> id in IdsIn(steps)
    ensures r.Some? ==> r.value.id == id
  {
    if steps == [] then None
    else if FindNode(steps[1..], id).Some? then FindNode(steps[1..], id)
    else if FindInLists(steps[0].lists, id).Some? then FindInLists(steps[0].lists, id)
    else if steps[0].id == id then Some(steps[0])
    else None
  }

  function FindInLists(lists: seq<ChildList>, id: Id): (r: Option<Node>)
    ensures r.Some? <==> id in IdsInLists(lists)
    ensures r.Some? ==> r.value.id == id
  {
    if lists == [] then None
    else if FindInLists(lists[1..], id).Some? then FindInLists(lists[1..], id)
    else FindNode(lists[0].steps, id)
  }

  // ---------------------------------------------------------------- concatenation

  lemma {:induction false} IdsOfConcat(a: seq<Node>, b: seq<Node>)
    ensures IdsIn(a + b) == IdsIn(a) + IdsIn(b)
  {
    if a == [] {
      assert a + b == b;
    } else {
      assert (a + b)[1..] == a[1..] + b;
      IdsOfConcat(a[1..], b);
    }
  }

  lemma {:induction false} UniqueConcat(a: seq<Node>, b: seq<Node>)
    ensures UniqueIds(a + b) <==> UniqueIds(a) && UniqueIds(b) && IdsIn(a) !! IdsIn(b)
  {
    if a == [] {
      assert a + b == b;
    } else {
      assert (a + b)[1..] == a[1..] + b;
      UniqueConcat(a[1..], b);
      IdsOfConcat(a[1..], b);
    }
  }

  /** The lists agree in everything but their steps. */
  predicate SameKinds(a: seq<ChildList>, b: seq<ChildList>) {
    |a| == |b| && (a == [] || (a[0].kind == b[0].kind && SameKinds(a[1..], b[1..])))
  }

  /** Keys and branch counts depend on the kinds of the lists only. */
  lemma {:induction false} SameKindsSameKeys(owner: Id, a: seq<ChildList>, b: seq<ChildList>)
    requires SameKinds(a, b)
    ensures Keys(owner, a) == Keys(owner, b) && (DistinctKeys(owner, a) <==> DistinctKeys(owner, b))
    ensures BranchCount(a) == BranchCount(b)
  {
    if a != [] { SameKindsSameKeys(owner, a[1..], b[1..]); }
  }

  lemma {:induction false} SameKindsAt(a: seq<ChildList>, b: seq<ChildList>, i: nat)
    requires SameKinds(a, b) && i < |a|
    ensures a[i].kind == b[i].kind
  {
    if i > 0 { SameKindsAt(a[1..], b[1..], i - 1); }
  }

  lemma SameKindsSameShape(a: Node, b: Node)
    requires SameKinds(a.lists, b.lists) && a.kind == b.kind && ShapeOk(a)
    ensures ShapeOk(b)
  {
    SameKindsSameKeys(a.id, a.lists, b.lists);
    var n := BranchCount(a.lists);
    if n < |a.lists| { SameKindsAt(a.lists, b.lists, n); }
    if |a.lists| > 1 { SameKindsAt(a.lists, b.lists, 1); }
  }
}
