/** The panel that edits the branches of an exclusive or parallel node. */
module BranchPanel {
  import opened Workflow
  import opened PathChoices
  import opened DebugRun

  /** A branch: an ordinary one, the default of an exclusive node, or what used to be the default
      before the node was made parallel. Conditions and logic may be absent on an ordinary branch. */
  datatype Item =
    | Normal(id: Id, name: string, steps: seq<Node>, conditions: Option<seq<Condition>>, any: Option<bool>)
    | Default(id: Id, name: string, steps: seq<Node>)
    | Former(id: Id, name: string, steps: seq<Node>)

  datatype Panel = Panel(parallel: bool, items: seq<Item>)

  // ---------------------------------------------------------------- operations

  function NotDefault(items: seq<Item>): seq<Item> {
    if items == [] then [] else if items[0].Default? then NotDefault(items[1..]) else [items[0]] + NotDefault(items[1..])
  }

  /** The default branch, in a list of its own, or nothing. */
  function FirstDefaultItem(items: seq<Item>): seq<Item> {
    if items == [] then [] else if items[0].Default? then [items[0]] else FirstDefaultItem(items[1..])
  }

  const BLANK: Condition := Condition("=", [], [])

  /** A new branch goes behind the others and before the default. */
  function Add(p: Panel, id: Id, name: string): Panel {
    var conditions := if p.parallel then None else Some([BLANK]);
    p.(items := NotDefault(p.items) + [Normal(id, name, [], conditions, Some(false))] + FirstDefaultItem(p.items))
  }

  function Without(items: seq<Item>, id: Id): seq<Item> {
    if items == [] then [] else if items[0].id == id then Without(items[1..], id) else [items[0]] + Without(items[1..], id)
  }

  function Remove(p: Panel, id: Id): Panel { p.(items := Without(p.items, id)) }

  function Swapped(items: seq<Item>, i: nat, j: nat): (r: seq<Item>)
    requires i < |items| && j < |items|
    ensures |r| == |items| && r[i] == items[j] && r[j] == items[i]
    ensures forall k :: 0 <= k < |items| && k != i && k != j ==> r[k] == items[k]
  {
    items[i := items[j]][j := items[i]]
  }

  /** Swaps two neighbours on a copy of the list. */
  method MoveBranch(items: seq<Item>, i: nat, d: int) returns (r: seq<Item>)
    requires i < |items| && (d == 1 || d == -1) && 0 <= i + d < |items|
    ensures |r| == |items| && r[i] == items[i + d] && r[i + d] == items[i]
    ensures forall k :: 0 <= k < |items| && k != i && k != i + d ==> r[k] == items[k]
    ensures r == Swapped(items, i, i + d)
  {
    var a := new Item[|items|](k requires 0 <= k < |items| => items[k]);
    a[i + d], a[i] := a[i], a[i + d];
    r := a[..];
  }

  function Demoted(items: seq<Item>): seq<Item> {
    if items == [] then []
    else [if items[0].Default? then Former(items[0].id, items[0].name, items[0].steps) else items[0]] + Demoted(items[1..])
  }

  function Filled(x: Item): Item {
    if x.Normal? then
      Normal(x.id, x.name, x.steps, Some(if x.conditions.Some? then x.conditions.value else []), Some(if x.any.Some? then x.any.value else false))
    else x
  }

  function NotFormer(items: seq<Item>): seq<Item> {
    if items == [] then [] else if items[0].Former? then NotFormer(items[1..]) else [Filled(items[0])] + NotFormer(items[1..])
  }

  function FirstFormer(items: seq<Item>): (r: Option<Item>)
    ensures r.Some? ==> r.value in items && r.value.Former?
    ensures r.None? ==> forall x :: x in items ==> !x.Former?
  {
    if items == [] then None else if items[0].Former? then Some(items[0]) else FirstFormer(items[1..])
  }

  function ToParallel(p: Panel): Panel { Panel(true, Demoted(p.items)) }

  /** The former default becomes the default again, at the end; without one, a new default is made. */
  function ToExclusive(p: Panel, id: Id, name: string): Panel {
    var former := FirstFormer(p.items);
    var last := if former.Some? then Default(former.value.id, former.value.name, former.value.steps) else Default(id, name, []);
    Panel(false, NotFormer(p.items) + [last])
  }

  // ---------------------------------------------------------------- what the panel offers

  datatype Op =
    | AddOp(id: Id, name: string)
    | MoveOp(index: nat, d: int)
    | RemoveOp(index: nat)
    | ParallelOp
    | ExclusiveOp(id: Id, name: string)

  predicate Apart(items: seq<Item>, id: Id) { forall i :: 0 <= i < |items| ==> items[i].id != id }

  predicate Unused(p: Panel, id: Id) { Apart(p.items, id) }

  /** The buttons that are active: the default cannot be moved or removed, nothing can be moved past
      it, and enough branches have to remain. New names are unused. */
  predicate Enabled(p: Panel, op: Op) {
    match op
    case AddOp(id, _) => Unused(p, id)
    case MoveOp(i, d) =>
      i < |p.items| && !p.items[i].Default? && ((d == -1 && i > 0) || (d == 1 && i < |NotDefault(p.items)| - 1 && i + 1 < |p.items|))
    case RemoveOp(i) => i < |p.items| && !p.items[i].Default? && |NotDefault(p.items)| > if p.parallel then 2 else 1
    case ParallelOp => !p.parallel
    case ExclusiveOp(id, _) => p.parallel && Unused(p, id)
  }

  function Apply(p: Panel, op: Op): Panel
    requires Enabled(p, op)
  {
    match op
    case AddOp(id, name) => Add(p, id, name)
    case MoveOp(i, d) => p.(items := Swapped(p.items, i, i + d))
    case RemoveOp(i) => Remove(p, p.items[i].id)
    case ParallelOp => ToParallel(p)
    case ExclusiveOp(id, name) => ToExclusive(p, id, name)
  }

  // ---------------------------------------------------------------- the invariant

  predicate UniqueItems(items: seq<Item>) {
    forall i, j :: 0 <= i < j < |items| ==> items[i].id != items[j].id
  }

  /** An ordinary branch of an exclusive node, with its conditions. */
  predicate Ordinary(x: Item) { x.Normal? && x.conditions.Some? && x.any.Some? }

  /** An exclusive node ends in its one default branch, after at least one ordinary branch. */
  predicate ExclusiveOk(items: seq<Item>) {
    && |items| >= 2 && items[|items| - 1].Default?
    && forall i :: 0 <= i < |items| - 1 ==> Ordinary(items[i])
  }

  /** A parallel node has at least two branches, no default, and at most one former default. */
  predicate ParallelOk(items: seq<Item>) {
    && |items| >= 2
    && (forall i :: 0 <= i < |items| ==> !items[i].Default?)
    && (forall i, j :: 0 <= i < j < |items| ==> !(items[i].Former? && items[j].Former?))
  }

  predicate PanelOk(p: Panel) {
    UniqueItems(p.items) && if p.parallel then ParallelOk(p.items) else ExclusiveOk(p.items)
  }

  lemma {:induction false} NotDefaultAll(items: seq<Item>)
    requires forall i :: 0 <= i < |items| ==> !items[i].Default?
    ensures NotDefault(items) == items && FirstDefaultItem(items) == []
  {
    if items != [] { NotDefaultAll(items[1..]); }
  }

  /** What the operations make of the branches of an exclusive node. */
  lemma {:induction false} OrdinaryFront(front: seq<Item>, last: Item)
    requires last.Default? && forall i :: 0 <= i < |front| ==> Ordinary(front[i])
    ensures NotDefault(front + [last]) == front && FirstDefaultItem(front + [last]) == [last]
    ensures Demoted(front + [last]) == front + [Former(last.id, last.name, last.steps)]
  {
    if front == [] {
      assert front + [last] == [last];
    } else {
      assert (front + [last])[1..] == front[1..] + [last];
      OrdinaryFront(front[1..], last);
    }
  }

  lemma {:induction false} FormerLast(front: seq<Item>, last: Item)
    requires last.Former? && forall i :: 0 <= i < |front| ==> Ordinary(front[i])
    ensures NotFormer(front + [last]) == front && FirstFormer(front + [last]) == Some(last)
  {
    if front == [] {
      assert front + [last] == [last];
    } else {
      assert (front + [last])[1..] == front[1..] + [last];
      assert Filled(front[0]) == front[0];
      FormerLast(front[1..], last);
    }
  }

  lemma SplitLast(items: seq<Item>)
    requires items != []
    ensures items == items[..|items| - 1] + [items[|items| - 1]]
  {
  }

  lemma NotDefaultFront(items: seq<Item>)
    requires ExclusiveOk(items)
    ensures var n := |items| - 1;
            var last := items[n];
            && items == items[..n] + [last]
            && NotDefault(items) == items[..n] && FirstDefaultItem(items) == [last]
            && Demoted(items) == items[..n] + [Former(last.id, last.name, last.steps)]
  {
    SplitLast(items);
    OrdinaryFront(items[..|items| - 1], items[|items| - 1]);
  }

  lemma AddedUnique(front: seq<Item>, x: Item, back: seq<Item>)
    requires UniqueItems(front + back)
    requires (forall i :: 0 <= i < |front| ==> front[i].id != x.id) && forall i :: 0 <= i < |back| ==> back[i].id != x.id
    ensures UniqueItems(front + [x] + back)
  {
    var was, r, n := front + back, front + [x] + back, |front|;
    forall i, j | 0 <= i < j < |r|
      ensures r[i].id != r[j].id
    {
      var a, b := if i < n then i else i - 1, if j < n then j else j - 1;
      if i != n && j != n { assert was[a].id != was[b].id; }
    }
  }

  lemma AddKeeps(p: Panel, id: Id, name: string)
    requires PanelOk(p) && Unused(p, id)
    ensures PanelOk(Add(p, id, name))
  {
    var x := Normal(id, name, [], if p.parallel then None else Some([BLANK]), Some(false));
    if p.parallel {
      NotDefaultAll(p.items);
      assert p.items + [] == p.items;
      AddedUnique(p.items, x, []);
    } else {
      NotDefaultFront(p.items);
      var n := |p.items| - 1;
      AddedUnique(p.items[..n], x, [p.items[n]]);
    }
  }

  lemma SwappedUnique(items: seq<Item>, i: nat, j: nat)
    requires UniqueItems(items) && i < |items| && j < |items|
    ensures UniqueItems(Swapped(items, i, j))
  {
    var r := Swapped(items, i, j);
    forall a, b | 0 <= a < b < |r|
      ensures r[a].id != r[b].id
    {
      var x := if a == i then j else if a == j then i else a;
      var y := if b == i then j else if b == j then i else b;
      assert r[a] == items[x] && r[b] == items[y];
    }
  }

  lemma SwappedParallel(items: seq<Item>, i: nat, j: nat)
    requires ParallelOk(items) && i < |items| && j < |items|
    ensures ParallelOk(Swapped(items, i, j))
  {
  }

  lemma MoveKeeps(p: Panel, i: nat, d: int)
    requires PanelOk(p) && Enabled(p, MoveOp(i, d))
    ensures PanelOk(Apply(p, MoveOp(i, d)))
  {
    SwappedUnique(p.items, i, i + d);
    if p.parallel {
      SwappedParallel(p.items, i, i + d);
    } else {
      NotDefaultFront(p.items);
      SwappedExclusive(p.items, i, i + d);
    }
  }

  lemma SwappedExclusive(items: seq<Item>, i: nat, j: nat)
    requires ExclusiveOk(items) && i < |items| - 1 && j < |items| - 1
    ensures ExclusiveOk(Swapped(items, i, j))
  {
  }

  function Cut(items: seq<Item>, i: nat): (r: seq<Item>)
    requires i < |items|
    ensures |r| == |items| - 1 && forall k :: 0 <= k < |r| ==> r[k] == items[if k < i then k else k + 1]
  {
    items[..i] + items[i + 1..]
  }

  lemma {:induction false} WithoutConcat(a: seq<Item>, b: seq<Item>, id: Id)
    ensures Without(a + b, id) == Without(a, id) + Without(b, id)
  {
    if a == [] {
      assert a + b == b;
    } else {
      assert (a + b)[1..] == a[1..] + b;
      WithoutConcat(a[1..], b, id);
    }
  }

  lemma WithoutMiddle(a: seq<Item>, x: Item, b: seq<Item>)
    requires Apart(a, x.id) && Apart(b, x.id)
    ensures Without(a + ([x] + b), x.id) == a + b
  {
    WithoutConcat(a, [x] + b, x.id);
    WithoutConcat([x], b, x.id);
    WithoutNone(a, x.id);
    WithoutNone(b, x.id);
  }

  lemma SplitAt(items: seq<Item>, i: nat)
    requires i < |items|
    ensures items == items[..i] + ([items[i]] + items[i + 1..])
  {
  }

  lemma ApartAround(items: seq<Item>, i: nat)
    requires UniqueItems(items) && i < |items|
    ensures Apart(items[..i], items[i].id) && Apart(items[i + 1..], items[i].id)
  {
  }

  lemma WithoutIsCut(items: seq<Item>, i: nat)
    requires UniqueItems(items) && i < |items|
    ensures Without(items, items[i].id) == Cut(items, i)
  {
    SplitAt(items, i);
    ApartAround(items, i);
    WithoutMiddle(items[..i], items[i], items[i + 1..]);
  }

  lemma {:induction false} WithoutNone(items: seq<Item>, id: Id)
    requires Apart(items, id)
    ensures Without(items, id) == items
  {
    if items != [] {
      assert Apart(items[1..], id) by { forall i | 0 <= i < |items[1..]| ensures items[1..][i].id != id { assert items[1..][i] == items[i + 1]; } }
      WithoutNone(items[1..], id);
    }
  }

  lemma CutUnique(items: seq<Item>, i: nat)
    requires UniqueItems(items) && i < |items|
    ensures UniqueItems(Cut(items, i))
  {
    var r := Cut(items, i);
    forall a, b | 0 <= a < b < |r| ensures r[a].id != r[b].id {
      var x, y := if a < i then a else a + 1, if b < i then b else b + 1;
      assert items[x].id != items[y].id;
    }
  }

  lemma CutExclusive(items: seq<Item>, i: nat)
    requires ExclusiveOk(items) && i < |items| - 1 && |items| > 2
    ensures ExclusiveOk(Cut(items, i))
  {
  }

  lemma CutParallel(items: seq<Item>, i: nat)
    requires ParallelOk(items) && i < |items| && |items| > 2
    ensures ParallelOk(Cut(items, i))
  {
    var r := Cut(items, i);
    forall a, b | 0 <= a < b < |r| ensures !(r[a].Former? && r[b].Former?) {
      var x, y := if a < i then a else a + 1, if b < i then b else b + 1;
      assert !(items[x].Former? && items[y].Former?);
    }
  }

  lemma RemoveKeeps(p: Panel, i: nat)
    requires PanelOk(p) && Enabled(p, RemoveOp(i))
    ensures PanelOk(Apply(p, RemoveOp(i)))
  {
    WithoutIsCut(p.items, i);
    CutUnique(p.items, i);
    if p.parallel {
      NotDefaultAll(p.items);
      CutParallel(p.items, i);
    } else {
      NotDefaultFront(p.items);
      CutExclusive(p.items, i);
    }
  }

  lemma DemotedOk(front: seq<Item>, last: Item)
    requires last.Default? && |front| >= 1 && UniqueItems(front + [last]) && forall i :: 0 <= i < |front| ==> Ordinary(front[i])
    ensures var r := front + [Former(last.id, last.name, last.steps)]; UniqueItems(r) && ParallelOk(r)
  {
    var r := front + [Former(last.id, last.name, last.steps)];
    assert forall i :: 0 <= i < |r| ==> r[i].id == (front + [last])[i].id;
  }

  lemma ParallelKeeps(p: Panel)
    requires PanelOk(p) && !p.parallel
    ensures PanelOk(ToParallel(p))
  {
    NotDefaultFront(p.items);
    var n := |p.items| - 1;
    DemotedOk(p.items[..n], p.items[n]);
  }

  // ---------------------------------------------------------------- back to exclusive

  predicate Within(items: seq<Item>, ids: set<Id>) { forall i :: 0 <= i < |items| ==> items[i].id in ids }

  function IdsOf(items: seq<Item>): (r: set<Id>)
    ensures Within(items, r)
  {
    set i | 0 <= i < |items| :: items[i].id
  }

  /** The branches that stay ordinary keep their places and ids. */
  lemma {:induction false} NotFormerOk(items: seq<Item>)
    requires UniqueItems(items) && forall i :: 0 <= i < |items| ==> !items[i].Default?
    ensures var r := NotFormer(items);
            && (forall i :: 0 <= i < |r| ==> Ordinary(r[i])) && Within(r, IdsOf(items)) && UniqueItems(r)
            && forall x :: x in items && x.Former? ==> forall i :: 0 <= i < |r| ==> r[i].id != x.id
  {
    if items != [] {
      var tail, r := items[1..], NotFormer(items);
      NotFormerOk(tail);
      assert forall i :: 0 <= i < |tail| ==> tail[i] == items[i + 1] && tail[i].id != items[0].id;
      assert items[0].id !in IdsOf(tail);
      if !items[0].Former? {
        assert r == [Filled(items[0])] + NotFormer(tail);
        assert forall i :: 0 < i < |r| ==> r[i] == NotFormer(tail)[i - 1];
      }
    }
  }

  lemma {:induction false} NotFormerSize(items: seq<Item>)
    requires forall i, j :: 0 <= i < j < |items| ==> !(items[i].Former? && items[j].Former?)
    ensures |NotFormer(items)| == |items| - (if FirstFormer(items).Some? then 1 else 0)
  {
    if items != [] {
      var tail := items[1..];
      assert forall i :: 0 <= i < |tail| ==> tail[i] == items[i + 1];
      NotFormerSize(tail);
    }
  }

  lemma ExclusiveKeeps(p: Panel, id: Id, name: string)
    requires PanelOk(p) && Enabled(p, ExclusiveOp(id, name))
    ensures PanelOk(ToExclusive(p, id, name))
  {
    NotFormerOk(p.items);
    NotFormerSize(p.items);
    var front := NotFormer(p.items);
    var r := ToExclusive(p, id, name).items;
    var last := r[|front|];
    forall i | 0 <= i < |front| ensures front[i].id != last.id {
      assert front[i].id in IdsOf(p.items);
    }
    assert front == r[..|front|];
  }

  /** Every operation that the panel offers keeps the node well formed. */
  lemma ApplyKeeps(p: Panel, op: Op)
    requires PanelOk(p) && Enabled(p, op)
    ensures PanelOk(Apply(p, op))
  {
    match op
    case AddOp(id, name) => AddKeeps(p, id, name);
    case MoveOp(i, d) => MoveKeeps(p, i, d);
    case RemoveOp(i) => RemoveKeeps(p, i);
    case ParallelOp => ParallelKeeps(p);
    case ExclusiveOp(id, name) => ExclusiveKeeps(p, id, name);
  }

  // ---------------------------------------------------------------- what the operations do

  /** A new branch is empty; on an exclusive node it has one blank condition and stands before the
      default, on a parallel node it has none and comes last. All other branches stay as they are. */
  lemma AddDoes(p: Panel, id: Id, name: string)
    requires PanelOk(p)
    ensures var r, n := Add(p, id, name), |p.items|;
            && r.parallel == p.parallel
            && (p.parallel ==> r.items == p.items + [Normal(id, name, [], None, Some(false))])
            && (!p.parallel ==> r.items == p.items[..n - 1] + [Normal(id, name, [], Some([BLANK]), Some(false)), p.items[n - 1]])
  {
    if p.parallel {
      NotDefaultAll(p.items);
    } else {
      NotDefaultFront(p.items);
    }
  }

  /** Removing takes out the one branch and leaves the others in their order. */
  lemma RemoveDoes(p: Panel, i: nat)
    requires PanelOk(p) && i < |p.items|
    ensures Remove(p, p.items[i].id) == Panel(p.parallel, p.items[..i] + p.items[i + 1..])
  {
    WithoutIsCut(p.items, i);
  }

  /** Making a node parallel leaves every branch in its place, with its name and steps; the default is
      noted as what used to be the default. */
  lemma {:induction false} DemotedDoes(items: seq<Item>)
    ensures |Demoted(items)| == |items|
    ensures forall i :: 0 <= i < |items| ==>
              Demoted(items)[i] == if items[i].Default? then Former(items[i].id, items[i].name, items[i].steps) else items[i]
  {
    if items != [] { DemotedDoes(items[1..]); }
  }

  function FilledAll(items: seq<Item>): (r: seq<Item>)
    ensures |r| == |items| && forall i :: 0 <= i < |r| ==> r[i] == Filled(items[i])
  {
    if items == [] then [] else [Filled(items[0])] + FilledAll(items[1..])
  }

  lemma {:induction false} NotFormerAll(items: seq<Item>)
    requires forall i :: 0 <= i < |items| ==> !items[i].Former?
    ensures NotFormer(items) == FilledAll(items) && FirstFormer(items).None?
  {
    if items != [] { NotFormerAll(items[1..]); }
  }

  lemma {:induction false} NotFormerConcat(a: seq<Item>, b: seq<Item>)
    ensures NotFormer(a + b) == NotFormer(a) + NotFormer(b)
    ensures FirstFormer(a + b) == if FirstFormer(a).Some? then FirstFormer(a) else FirstFormer(b)
  {
    if a == [] {
      assert a + b == b;
    } else {
      assert (a + b)[1..] == a[1..] + b;
      NotFormerConcat(a[1..], b);
    }
  }

  lemma OneFormer(items: seq<Item>, f: nat)
    requires ParallelOk(items) && f < |items| && items[f].Former?
    ensures NotFormer(items) == FilledAll(items[..f]) + FilledAll(items[f + 1..]) && FirstFormer(items) == Some(items[f])
  {
    var a, b := items[..f], items[f + 1..];
    assert items == a + ([items[f]] + b);
    NotFormerConcat(a, [items[f]] + b);
    NotFormerAll(a);
    NotFormerAll(b);
  }

  /** Making a node exclusive puts what used to be the default at the end, as the default again, or
      else a new empty default; the others keep their order and get conditions where they have none. */
  lemma ExclusiveDoes(p: Panel, id: Id, name: string, f: nat)
    requires PanelOk(p) && p.parallel && f <= |p.items|
    requires f < |p.items| ==> p.items[f].Former?
    requires f == |p.items| ==> forall i :: 0 <= i < |p.items| ==> !p.items[i].Former?
    ensures ToExclusive(p, id, name)
         == Panel(false, if f == |p.items| then FilledAll(p.items) + [Default(id, name, [])]
                         else FilledAll(p.items[..f]) + FilledAll(p.items[f + 1..])
                              + [Default(p.items[f].id, p.items[f].name, p.items[f].steps)])
  {
    if f < |p.items| { OneFormer(p.items, f); } else { NotFormerAll(p.items); }
  }

  /** Conditions and logic are filled in where they are missing; nothing else is changed. */
  lemma FilledDoes(x: Item)
    requires x.Normal?
    ensures Filled(x).Normal? && Filled(x).id == x.id && Filled(x).name == x.name && Filled(x).steps == x.steps
    ensures Filled(x).conditions == if x.conditions.Some? then x.conditions else Some([])
    ensures Filled(x).any == if x.any.Some? then x.any else Some(false)
  {
  }

  predicate CanRun(p: Panel, ops: seq<Op>)
    decreases ops
  {
    ops == [] || (Enabled(p, ops[0]) && CanRun(Apply(p, ops[0]), ops[1..]))
  }

  function Run(p: Panel, ops: seq<Op>): Panel
    requires CanRun(p, ops)
    decreases ops
  {
    if ops == [] then p else Run(Apply(p, ops[0]), ops[1..])
  }

  /** From a new node on, through any sequence of operations: an exclusive node has exactly one
      default, at the end, and at least one other branch; a parallel node has no default and at least
      two branches. */
  lemma {:induction false} RunKeeps(p: Panel, ops: seq<Op>)
    requires PanelOk(p) && CanRun(p, ops)
    ensures PanelOk(Run(p, ops))
    decreases ops
  {
    if ops != [] {
      ApplyKeeps(p, ops[0]);
      RunKeeps(Apply(p, ops[0]), ops[1..]);
    }
  }

  /** The branch node that the picker creates. */
  lemma NewNodeOk(a: Id, b: Id, first: string, last: string)
    requires a != b
    ensures PanelOk(Panel(false, [Normal(a, first, [], Some([BLANK]), Some(false)), Default(b, last, [])]))
  {
  }

  // ---------------------------------------------------------------- there and back again

  /** Making a node parallel and exclusive again restores it. */
  lemma ThereAndBack(p: Panel, id: Id, name: string)
    requires PanelOk(p) && !p.parallel
    ensures ToExclusive(ToParallel(p), id, name) == p
  {
    NotDefaultFront(p.items);
    var n := |p.items| - 1;
    var last := p.items[n];
    FormerLast(p.items[..n], Former(last.id, last.name, last.steps));
  }

  // ---------------------------------------------------------------- what this means for debug runs

  function BranchOf(x: Item): Branch {
    match x
    case Normal(id, name, _, conditions, any) =>
      Branch(id, name, false, if conditions.Some? then conditions.value else [], any == Some(true))
    case Default(id, name, _) => Branch(id, name, true, [], false)
    case Former(id, name, _) => Branch(id, name, false, [], false)
  }

  /** The branches as child lists of the node in the tree. */
  function ListsOf(items: seq<Item>): (r: seq<ChildList>)
    ensures |r| == |items| && forall i :: 0 <= i < |r| ==> r[i] == ChildList(BranchList(BranchOf(items[i])), items[i].steps)
  {
    if items == [] then [] else [ChildList(BranchList(BranchOf(items[0])), items[0].steps)] + ListsOf(items[1..])
  }

  lemma {:induction false} AllBranches(items: seq<Item>)
    ensures BranchCount(ListsOf(items)) == |items|
  {
    if items != [] { AllBranches(items[1..]); }
  }

  lemma DefaultFound(items: seq<Item>)
    requires ExclusiveOk(items)
    ensures FirstDefault(ListsOf(items)).Some?
  {
    AllBranches(items);
    assert ListsOf(items)[|items| - 1].kind.branch.isDefault;
  }

  /** However the panel was used, an exclusive node has a branch that the payload decides on, so that
      debug runs are replayed faithfully. */
  lemma AlwaysDecided(p: Panel, ops: seq<Op>, holds: Holds, node: Node)
    requires PanelOk(p) && CanRun(p, ops) && !Run(p, ops).parallel && node.lists == ListsOf(Run(p, ops).items)
    ensures FirstDefault(node.lists).Some? && Decided(node, BranchDecider(holds))
  {
    RunKeeps(p, ops);
    DefaultFound(Run(p, ops).items);
  }
}
