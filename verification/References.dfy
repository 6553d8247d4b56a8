/** The check that flags references a node cannot use where it stands. */
module References {
  import opened Helpers
  import opened Workflow
  import opened TreeEdits
  import opened Scope

  function RefsIn(expr: Expr): (r: Expr)
    ensures forall t :: t in r <==> t in expr && t.Reference?
  {
    if expr == [] then []
    else if expr[0].Reference? then [expr[0]] + RefsIn(expr[1..])
    else RefsIn(expr[1..])
  }

  function RefsInConditions(conditions: seq<Condition>): Expr {
    if conditions == [] then []
    else RefsIn(conditions[0].left) + RefsIn(conditions[0].right) + RefsInConditions(conditions[1..])
  }

  function RefsInBranches(lists: seq<ChildList>): Expr {
    if lists == [] || !lists[0].kind.BranchList? then []
    else RefsInConditions(lists[0].kind.branch.conditions) + RefsInBranches(lists[1..])
  }

  /** The references in a node's own settings, not those of the nodes inside it. */
  function OwnRefs(node: Node): Expr {
    RefsIn(node.config) + RefsInBranches(node.lists)
  }

  /** A condition of one of the node's branches has the token on one of its sides. */
  ghost predicate InCondition(lists: seq<ChildList>, t: Token) {
    exists j, c :: 0 <= j < BranchCount(lists) && c in lists[j].kind.branch.conditions && (t in c.left || t in c.right)
  }

  lemma {:induction false} RefsOfConditions(conditions: seq<Condition>, t: Token)
    ensures t in RefsInConditions(conditions) <==> t.Reference? && exists c :: c in conditions && (t in c.left || t in c.right)
  {
    if conditions != [] {
      RefsOfConditions(conditions[1..], t);
      assert conditions == [conditions[0]] + conditions[1..];
    }
  }

  lemma InConditionCons(lists: seq<ChildList>, t: Token)
    requires lists != [] && lists[0].kind.BranchList?
    ensures InCondition(lists, t)
       <==> (exists c :: c in lists[0].kind.branch.conditions && (t in c.left || t in c.right)) || InCondition(lists[1..], t)
  {
    if j, c :| 0 <= j < BranchCount(lists) && c in lists[j].kind.branch.conditions && (t in c.left || t in c.right) {
      if j > 0 { assert lists[1..][j - 1] == lists[j]; }
    }
    if j, c :| 0 <= j < BranchCount(lists[1..]) && c in lists[1..][j].kind.branch.conditions && (t in c.left || t in c.right) {
      assert lists[j + 1] == lists[1..][j];
    }
  }

  lemma {:induction false} RefsOfBranches(lists: seq<ChildList>, t: Token)
    ensures t in RefsInBranches(lists) <==> t.Reference? && InCondition(lists, t)
  {
    if lists != [] && lists[0].kind.BranchList? {
      RefsOfBranches(lists[1..], t);
      RefsOfConditions(lists[0].kind.branch.conditions, t);
      InConditionCons(lists, t);
    }
  }

  /** The references that are checked are those in the node's settings and those in the conditions of
      its branches, and no others. */
  lemma OwnRefsAre(node: Node, t: Token)
    ensures t in OwnRefs(node) <==> t.Reference? && (t in node.config || InCondition(node.lists, t))
  {
    RefsOfBranches(node.lists, t);
  }

  datatype Issue =
    | UnknownVariable(token: Token)
    | OutsideLoop(token: Token)
    | NotUpstream(token: Token, known: bool)

  predicate IsError(issue: Issue) { !issue.UnknownVariable? }

  /** What one reference may name: a project variable, a loop variable inside a loop, or a node upstream. */
  predicate Allowed(token: Token, upstream: seq<Id>, loops: seq<Id>)
    requires token.Reference?
  {
    if token.head == "config" then true
    else if token.head == "loop" then loops != []
    else token.head in upstream
  }

  ghost predicate AllAllowed(refs: Expr, upstream: seq<Id>, loops: seq<Id>) {
    forall t :: t in refs && t.Reference? ==> Allowed(t, upstream, loops)
  }

  function UpToDot(s: string): string { if s == "" || s[0] == '.' then "" else [s[0]] + UpToDot(s[1..]) }

  /** The key of a project variable: what stands between the first dot and the next. */
  function VariableKey(path: string): Option<string> {
    if path == "" then None else if path[0] == '.' then Some(UpToDot(path[1..])) else VariableKey(path[1..])
  }

  predicate KnownVariable(token: Token, vars: set<string>)
    requires token.Reference?
  {
    VariableKey(token.path).Some? && VariableKey(token.path).value in vars
  }

  function IssueFor(t: Token, upstream: seq<Id>, loops: seq<Id>, known: set<Id>, vars: Option<set<string>>): (r: Option<Issue>)
    requires t.Reference?
    ensures r.Some? ==> r.value.token == t
    ensures r.Some? && IsError(r.value) <==> !Allowed(t, upstream, loops)
  {
    if t.head == "config" then
      (if vars.Some? && !KnownVariable(t, vars.value) then Some(UnknownVariable(t)) else None)
    else if t.head == "loop" then
      (if loops == [] then Some(OutsideLoop(t)) else None)
    else
      (if t.head !in upstream then Some(NotUpstream(t, t.head in known)) else None)
  }

  /** Reports each distinct reference once. There is an error if and only if some reference is not
      allowed, and then every such reference has its error; a reference to a variable has a warning
      if and only if the variables are known and it is not among them. */
  method ReferenceIssues(refs: Expr, upstream: seq<Id>, loops: seq<Id>, known: set<Id>, vars: Option<set<string>>)
    returns (issues: seq<Issue>)
    requires forall t :: t in refs ==> t.Reference?
    ensures forall t :: t in refs && !Allowed(t, upstream, loops) ==> exists x :: x in issues && IsError(x) && x.token == t
    ensures forall x :: x in issues && IsError(x) ==> x.token in refs && !Allowed(x.token, upstream, loops)
    ensures (forall x :: x in issues ==> !IsError(x)) <==> AllAllowed(refs, upstream, loops)
    ensures forall i, j :: 0 <= i < j < |issues| ==> issues[i].token != issues[j].token
    ensures forall x :: x in issues && x.NotUpstream? ==> (x.known <==> x.token.head in known)
    ensures forall t :: t in refs ==>
              (UnknownVariable(t) in issues <==> t.head == "config" && vars.Some? && !KnownVariable(t, vars.value))
  {
    issues := [];
    var seen: set<Token> := {};
    for k := 0 to |refs|
      invariant seen == set t | t in refs[..k]
      invariant forall x :: x in issues ==> x.token in seen && IssueFor(x.token, upstream, loops, known, vars) == Some(x)
      invariant forall t :: t in seen && IssueFor(t, upstream, loops, known, vars).Some? ==>
                  IssueFor(t, upstream, loops, known, vars).value in issues
      invariant forall i, j :: 0 <= i < j < |issues| ==> issues[i].token != issues[j].token
    {
      var t := refs[k];
      assert refs[..k + 1] == refs[..k] + [t];
      if t !in seen {
        seen := seen + {t};
        var issue := IssueFor(t, upstream, loops, known, vars);
        if issue.Some? {
          assert forall x :: x in issues ==> x.token != t;
          issues := issues + [issue.value];
        }
      }
    }
    assert refs[..|refs|] == refs;
    forall t | t in refs
      ensures !Allowed(t, upstream, loops) ==> exists x :: x in issues && IsError(x) && x.token == t
      ensures UnknownVariable(t) in issues <==> t.head == "config" && vars.Some? && !KnownVariable(t, vars.value)
    {
      assert t in seen;
      var issue := IssueFor(t, upstream, loops, known, vars);
      assert UnknownVariable(t) in issues ==> UnknownVariable(t).token == t && issue == Some(UnknownVariable(t));
    }
  }

  /** The node passes the reference check in this workflow. */
  ghost predicate ChecksOut(g: Graph, node: Node) {
    match Lookup(NodeContexts(g), node.id)
    case None => false
    case Some(e) => AllAllowed(OwnRefs(node), e.upstream, e.loops)
  }

  // ---------------------------------------------------------------- what an edit does to the check

  lemma {:induction false} SameKindsSameRefs(a: seq<ChildList>, b: seq<ChildList>)
    requires SameKinds(a, b)
    ensures RefsInBranches(a) == RefsInBranches(b)
  {
    if a != [] { SameKindsSameRefs(a[1..], b[1..]); }
  }

  /** A node that stays is what it was, but for the lists inside it. */
  lemma {:induction false} SurvivorOf(steps: seq<Node>, id: Id, n': Node) returns (n: Node)
    requires n' in Preorder(RemoveFromSteps(steps, id))
    ensures n in Preorder(steps) && n' == n.(lists := RemoveFromLists(n.lists, id))
    decreases steps
  {
    if steps[0].id == id {
      n := SurvivorOf(steps[1..], id, n');
    } else {
      var head := steps[0].(lists := RemoveFromLists(steps[0].lists, id));
      assert RemoveFromSteps(steps, id)[1..] == RemoveFromSteps(steps[1..], id);
      if n' == head {
        n := steps[0];
      } else if n' in PreorderOfLists(head.lists) {
        n := SurvivorInLists(steps[0].lists, id, n');
      } else {
        n := SurvivorOf(steps[1..], id, n');
      }
    }
  }

  lemma {:induction false} SurvivorInLists(lists: seq<ChildList>, id: Id, n': Node) returns (n: Node)
    requires n' in PreorderOfLists(RemoveFromLists(lists, id))
    ensures n in PreorderOfLists(lists) && n' == n.(lists := RemoveFromLists(n.lists, id))
    decreases lists
  {
    assert RemoveFromLists(lists, id)[1..] == RemoveFromLists(lists[1..], id);
    if n' in Preorder(RemoveFromSteps(lists[0].steps, id)) {
      n := SurvivorOf(lists[0].steps, id, n');
    } else {
      n := SurvivorInLists(lists[1..], id, n');
    }
  }

  lemma {:induction false} PreorderIds(steps: seq<Node>, n: Node)
    requires n in Preorder(steps)
    ensures n.id in IdsIn(steps)
    decreases steps
  {
    if n in PreorderOfLists(steps[0].lists) {
      PreorderIdsInLists(steps[0].lists, n);
    } else if n in Preorder(steps[1..]) {
      PreorderIds(steps[1..], n);
    }
  }

  lemma {:induction false} PreorderIdsInLists(lists: seq<ChildList>, n: Node)
    requires n in PreorderOfLists(lists)
    ensures n.id in IdsInLists(lists)
    decreases lists
  {
    if n in Preorder(lists[0].steps) {
      PreorderIds(lists[0].steps, n);
    } else {
      PreorderIdsInLists(lists[1..], n);
    }
  }

  /** Some reference in the node's own settings names the node `id`. */
  ghost predicate Names(n: Node, id: Id) {
    exists t :: t in OwnRefs(n) && t.Reference? && t.head == id && id != "config" && id != "loop"
  }

  /** Deleting a node leaves the references of every other node as they are, and the node passes the
      check afterwards if and only if it passed before and does not name the deleted node. */
  lemma DeleteBreaksOnlyItsReferences(g: Graph, id: Id, n': Node) returns (n: Node)
    requires WellFormed(g) && id != g.trigger.id && n' in Preorder(Delete(g, id).steps)
    ensures n in Preorder(g.steps) && n.id == n'.id && OwnRefs(n) == OwnRefs(n')
    ensures ChecksOut(Delete(g, id), n') <==> ChecksOut(g, n) && !Names(n, id)
  {
    var g' := Delete(g, id);
    n := SurvivorOf(g.steps, id, n');
    KindsAfterRemove(n.lists, id);
    SameKindsSameRefs(n.lists, n'.lists);
    PreorderIds(g'.steps, n');
    PreorderIds(g.steps, n);
    var e := EntryExists(g.steps, TriggerScope(g), [], n.id);
    var e' := EntryExists(g'.steps, TriggerScope(g), [], n.id);
    DeletedEntry(g, id, e, e');
    AllowedWithout(OwnRefs(n), e, e', id);
  }

  /** A reference that was allowed still is, if it does not name what is no longer visible. */
  lemma AllowedWithout(refs: Expr, e: Entry, e': Entry, id: Id)
    requires e'.upstream == Without(e.upstream, id) && e'.loops == e.loops
    ensures AllAllowed(refs, e'.upstream, e'.loops)
       <==> AllAllowed(refs, e.upstream, e.loops)
            && !exists t :: t in refs && t.Reference? && t.head == id && id != "config" && id != "loop"
  {
    forall t | t in refs && t.Reference?
      ensures Allowed(t, e'.upstream, e'.loops) <==> Allowed(t, e.upstream, e.loops) && !(t.head == id && id != "config" && id != "loop")
    {
    }
  }

  /** Inserting a tree of new ids leaves the references of every node as they are, and a node that
      passed the check still passes it. */
  lemma InsertBreaksNothing(g: Graph, t: Target, node: Node, n: Node) returns (n': Node)
    requires WellFormed(g) && n in Preorder(g.steps)
    requires TreeOk([node]) && IdsIn([node]) !! IdsIn(g.steps) + {g.trigger.id}
    ensures n' in Preorder(Insert(g, t, node).steps) && n'.id == n.id && OwnRefs(n') == OwnRefs(n)
    ensures ChecksOut(g, n) ==> ChecksOut(Insert(g, t, node), n')
  {
    assert node.id in IdsIn([node]);
    RemoveInserted(g.steps, t, node);
    WellFormedAfterInsert(g, t, node);
    n' := DeleteBreaksOnlyItsReferences(Insert(g, t, node), node.id, n);
  }
}
