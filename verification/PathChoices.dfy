/** What a path shows, told without following the code that makes it: the branch each exclusive node
    shows, which lists are entered, in what order the nodes come, and how often loops run. */
module PathChoices {
  import opened Workflow
  import opened Scope
  import opened RunPath

  // ---------------------------------------------------------------- the branch that is shown

  /** One of the branches holds the node that has to be on the path. */
  ghost predicate HoldsForced(node: Node, must: Option<Id>) {
    must.Some? && exists j :: 0 <= j < BranchCount(node.lists) && must.value in IdsIn(node.lists[j].steps)
  }

  predicate Decided(node: Node, decide: Decider) {
    decide(node).Some? && decide(node).value < BranchCount(node.lists)
  }

  /** Branch `k` is the one to take: the first that holds the node which has to be on the path, else
      the one that was decided, else one that is drawn. */
  ghost predicate ToTake(node: Node, k: nat, rand: Random, must: Option<Id>, decide: Decider)
    requires k < BranchCount(node.lists)
  {
    if HoldsForced(node, must) then
      && must.value in IdsIn(node.lists[k].steps)
      && forall j :: 0 <= j < k ==> must.value !in IdsIn(node.lists[j].steps)
    else if Decided(node, decide) then k == decide(node).value
    else exists p :: k == Index(rand(p), BranchCount(node.lists))
  }

  /** A parallel node shows all its branches, an exclusive one the one to take, others none. */
  ghost predicate ShowsChoice(s: PathStep, rand: Random, must: Option<Id>, decide: Decider) {
    var lists, shown := s.node.lists, s.meta.branches;
    match s.node.kind
    case ParallelKind => |shown| == BranchCount(lists) && forall j :: 0 <= j < |shown| ==> shown[j] == lists[j].kind.branch
    case BranchKind =>
      exists k :: 0 <= k < BranchCount(lists) && shown == [lists[k].kind.branch] && ToTake(s.node, k, rand, must, decide)
    case _ => shown == []
  }

  ghost predicate AllShow(path: seq<PathStep>, rand: Random, must: Option<Id>, decide: Decider) {
    forall i :: 0 <= i < |path| ==> ShowsChoice(path[i], rand, must, decide)
  }

  predicate SameButLoops(a: seq<PathStep>, b: seq<PathStep>) {
    |a| == |b| && forall i :: 0 <= i < |a| ==> a[i].node == b[i].node && a[i].meta.branches == b[i].meta.branches
  }

  function LoopRounds(node: Node): Option<nat> {
    match node.kind case LoopKind(isWhile) => Some(if isWhile then 2 else 3) case _ => None
  }

  /** A node's part of the path: the node and what is inside, where a loop marks everything. */
  lemma NodeInside(node: Node, rand: Random, pos: nat, must: Option<Id>, decide: Decider)
    requires ShapeOk(node) && ShapesOkInLists(node.lists)
    ensures var r, inner := FlattenNode(node, rand, pos, must, decide), Inside(node, rand, pos, must, decide);
            && SameButLoops(r.path[1..], inner.path)
            && r.path[0].meta.iterations == LoopRounds(node)
            && (LoopRounds(node).None? ==> r.path[1..] == inner.path)
            && (LoopRounds(node).Some? ==> forall i :: 0 <= i < |r.path| ==> r.path[i].meta.iterations == LoopRounds(node))
  {
    var r, inner := FlattenNode(node, rand, pos, must, decide), Inside(node, rand, pos, must, decide);
    match node.kind {
      case LoopKind(isWhile) => assert r.path[1..] == Repeated(inner.path, if isWhile then 2 else 3);
      case BranchKind =>
      case ParallelKind =>
      case _ => EntersNothing(node.lists, -1, rand, pos, must, decide);
    }
  }

  lemma NodeShows(node: Node, rand: Random, pos: nat, must: Option<Id>, decide: Decider)
    requires ShapeOk(node) && ShapesOkInLists(node.lists)
    ensures ShowsChoice(FlattenNode(node, rand, pos, must, decide).path[0], rand, must, decide)
  {
    if node.kind.BranchKind? {
      var k := Pick(node, rand, pos, must, decide);
      assert ToTake(node, k, rand, must, decide);
    }
  }

  /** Whatever is drawn, decided or forced, every node on the path shows the branches to take. */
  lemma {:induction false} PathShows(steps: seq<Node>, rand: Random, pos: nat, must: Option<Id>, decide: Decider)
    requires ShapesOk(steps)
    ensures AllShow(Flatten(steps, rand, pos, must, decide).path, rand, must, decide)
    decreases steps, 1
  {
    if steps != [] {
      var node := steps[0];
      var head := FlattenNode(node, rand, pos, must, decide);
      NodeShows(node, rand, pos, must, decide);
      NodeInside(node, rand, pos, must, decide);
      PathShowsInLists(node.lists, EnterOf(node, rand, pos, must, decide), rand, Drawn(node, pos, must, decide), must, decide);
      ShownAlso(head.path[1..], Inside(node, rand, pos, must, decide).path, rand, must, decide);
      PathShows(steps[1..], rand, head.pos, must, decide);
      assert head.path == [head.path[0]] + head.path[1..];
    }
  }

  lemma {:induction false} PathShowsInLists(lists: seq<ChildList>, enter: Enter, rand: Random, pos: nat, must: Option<Id>, decide: Decider)
    requires ShapesOkInLists(lists)
    ensures AllShow(FlattenLists(lists, enter, rand, pos, must, decide).path, rand, must, decide)
    decreases lists, 0
  {
    if lists != [] {
      var head := if Enters(lists[0].kind, enter) then Flatten(lists[0].steps, rand, pos, must, decide) else Flat([], pos);
      if Enters(lists[0].kind, enter) { PathShows(lists[0].steps, rand, pos, must, decide); }
      PathShowsInLists(lists[1..], NextEnter(enter), rand, head.pos, must, decide);
    }
  }

  lemma ShownAlso(a: seq<PathStep>, b: seq<PathStep>, rand: Random, must: Option<Id>, decide: Decider)
    requires SameButLoops(a, b) && AllShow(b, rand, must, decide)
    ensures AllShow(a, rand, must, decide)
  {
    forall i | 0 <= i < |a| ensures ShowsChoice(a[i], rand, must, decide) {
      assert ShowsChoice(b[i], rand, must, decide);
    }
  }

  // ---------------------------------------------------------------- the lists that are entered

  /** What a step shows says which lists of its node are entered: the branches shown, the body of a
      loop, and never an error list. */
  predicate Entered(s: PathStep, kind: ListKind) {
    kind.LoopBody? || (kind.BranchList? && kind.branch in s.meta.branches)
  }

  /** The nodes of a list are on the path if and only if the list was entered. */
  ghost predicate FollowsShown(s: PathStep, ids: set<Id>) {
    forall l, x :: 0 <= l < |s.node.lists| && x in TopIds(s.node.lists[l].steps) ==>
      (x in ids <==> Entered(s, s.node.lists[l].kind))
  }

  ghost predicate AllFollow(path: seq<PathStep>, ids: set<Id>) {
    forall i :: 0 <= i < |path| ==> FollowsShown(path[i], ids)
  }

  function IdSet(path: seq<PathStep>): (ids: set<Id>)
    ensures forall x :: x in ids <==> x in PathIds(path)
  {
    set x | x in PathIds(path)
  }

  /** Every step of the path stems from the tree. */
  ghost predicate Within(path: seq<PathStep>, ids: set<Id>) {
    forall i :: 0 <= i < |path| ==> path[i].node.id in ids && IdsInLists(path[i].node.lists) <= ids
  }

  lemma {:induction false} TopIdsOf(steps: seq<Node>, x: Id)
    requires x in TopIds(steps)
    ensures x in IdsIn(steps)
  {
    if steps[0].id != x { TopIdsOf(steps[1..], x); }
  }

  lemma {:induction false} TopIdsOfLists(lists: seq<ChildList>, l: nat, x: Id)
    requires l < |lists| && x in TopIds(lists[l].steps)
    ensures x in IdsInLists(lists)
  {
    if l == 0 { TopIdsOf(lists[0].steps, x); } else { TopIdsOfLists(lists[1..], l - 1, x); }
  }

  /** Ids from elsewhere do not matter for what a part of the path shows. */
  lemma FollowsMore(path: seq<PathStep>, own: set<Id>, ids: set<Id>, more: set<Id>)
    requires AllFollow(path, ids) && Within(path, own) && forall x :: x in own ==> (x in ids <==> x in more)
    ensures AllFollow(path, more)
  {
    forall i, l, x | 0 <= i < |path| && 0 <= l < |path[i].node.lists| && x in TopIds(path[i].node.lists[l].steps)
      ensures x in more <==> Entered(path[i], path[i].node.lists[l].kind)
    {
      TopIdsOfLists(path[i].node.lists, l, x);
      assert FollowsShown(path[i], ids);
    }
  }

  lemma FollowsAlso(a: seq<PathStep>, b: seq<PathStep>, ids: set<Id>)
    requires SameButLoops(a, b) && AllFollow(b, ids)
    ensures AllFollow(a, ids)
  {
    forall i | 0 <= i < |a| ensures FollowsShown(a[i], ids) {
      assert FollowsShown(b[i], ids);
    }
  }

  lemma {:induction false} PathWithin(steps: seq<Node>, rand: Random, pos: nat, must: Option<Id>, decide: Decider)
    requires ShapesOk(steps)
    ensures Within(Flatten(steps, rand, pos, must, decide).path, IdsIn(steps))
    decreases steps, 1
  {
    if steps != [] {
      var node := steps[0];
      var head := FlattenNode(node, rand, pos, must, decide);
      NodeInside(node, rand, pos, must, decide);
      PathWithinLists(node.lists, EnterOf(node, rand, pos, must, decide), rand, Drawn(node, pos, must, decide), must, decide);
      PathWithin(steps[1..], rand, head.pos, must, decide);
      assert head.path == [head.path[0]] + head.path[1..];
    }
  }

  lemma {:induction false} PathWithinLists(lists: seq<ChildList>, enter: Enter, rand: Random, pos: nat, must: Option<Id>, decide: Decider)
    requires ShapesOkInLists(lists)
    ensures Within(FlattenLists(lists, enter, rand, pos, must, decide).path, IdsInLists(lists))
    decreases lists, 0
  {
    if lists != [] {
      var head := if Enters(lists[0].kind, enter) then Flatten(lists[0].steps, rand, pos, must, decide) else Flat([], pos);
      if Enters(lists[0].kind, enter) { PathWithin(lists[0].steps, rand, pos, must, decide); }
      PathWithinLists(lists[1..], NextEnter(enter), rand, head.pos, must, decide);
    }
  }

  lemma WithinIds(path: seq<PathStep>, ids: set<Id>)
    requires Within(path, ids)
    ensures IdSet(path) <= ids
  {
    forall x | x in IdSet(path) ensures x in ids {
      var i :| 0 <= i < |PathIds(path)| && PathIds(path)[i] == x;
    }
  }

  /** Whether the `l`-th list is entered. */
  predicate EntersAt(lists: seq<ChildList>, enter: Enter, l: nat)
    requires l < |lists|
  {
    match enter case AllBranches => lists[l].kind.BranchList? case Only(k) => l == k case Body => lists[l].kind.LoopBody?
  }

  lemma IdSetConcat(a: seq<PathStep>, b: seq<PathStep>)
    ensures IdSet(a + b) == IdSet(a) + IdSet(b)
  {
    PathIdsConcat(a, b);
  }

  /** Two parts of a path that stem from different parts of the tree. */
  lemma FollowTogether(a: seq<PathStep>, b: seq<PathStep>, own: set<Id>, others: set<Id>)
    requires AllFollow(a, IdSet(a)) && AllFollow(b, IdSet(b)) && Within(a, own) && Within(b, others) && own !! others
    ensures AllFollow(a + b, IdSet(a + b))
    ensures forall x :: x in own ==> (x in IdSet(a + b) <==> x in IdSet(a))
    ensures forall x :: x in others ==> (x in IdSet(a + b) <==> x in IdSet(b))
  {
    WithinIds(a, own);
    WithinIds(b, others);
    IdSetConcat(a, b);
    FollowsMore(a, own, IdSet(a), IdSet(a + b));
    FollowsMore(b, others, IdSet(b), IdSet(a + b));
    forall i | 0 <= i < |a + b| ensures FollowsShown((a + b)[i], IdSet(a + b)) {
      if i < |a| { assert FollowsShown(a[i], IdSet(a + b)); } else { assert FollowsShown(b[i - |a|], IdSet(a + b)); }
    }
  }

  /** The path has all nodes of the list itself, and below each node on it exactly what that node shows. */
  lemma {:induction false} PathFollows(steps: seq<Node>, rand: Random, pos: nat, must: Option<Id>, decide: Decider)
    requires UniqueIds(steps) && KeysOk(steps) && ShapesOk(steps)
    ensures var path := Flatten(steps, rand, pos, must, decide).path;
            AllFollow(path, IdSet(path)) && forall x :: x in TopIds(steps) ==> x in IdSet(path)
    decreases steps, 1
  {
    if steps != [] {
      var head := FlattenNode(steps[0], rand, pos, must, decide);
      var tail := Flatten(steps[1..], rand, head.pos, must, decide);
      NodeFollows(steps[0], rand, pos, must, decide);
      PathFollows(steps[1..], rand, head.pos, must, decide);
      PathWithin(steps[1..], rand, head.pos, must, decide);
      FollowTogether(head.path, tail.path, {steps[0].id} + IdsInLists(steps[0].lists), IdsIn(steps[1..]));
      forall x | x in TopIds(steps) ensures x in IdSet(head.path + tail.path) {
        if x != steps[0].id { TopIdsOf(steps[1..], x); }
      }
    }
  }

  lemma {:induction false} NodeFollows(node: Node, rand: Random, pos: nat, must: Option<Id>, decide: Decider)
    requires node.id !in IdsInLists(node.lists) && UniqueIdsInLists(node.lists) && DistinctKeys(node.id, node.lists)
    requires KeysOkInLists(node.lists) && ShapeOk(node) && ShapesOkInLists(node.lists)
    ensures var path := FlattenNode(node, rand, pos, must, decide).path;
            AllFollow(path, IdSet(path)) && Within(path, {node.id} + IdsInLists(node.lists)) && node.id in IdSet(path)
    decreases node, 0
  {
    var path := FlattenNode(node, rand, pos, must, decide).path;
    var enter, inner := EnterOf(node, rand, pos, must, decide), Inside(node, rand, pos, must, decide).path;
    NodeInside(node, rand, pos, must, decide);
    PathFollowsInLists(node.lists, enter, rand, Drawn(node, pos, must, decide), must, decide);
    PathWithinLists(node.lists, enter, rand, Drawn(node, pos, must, decide), must, decide);
    forall l | 0 <= l < |node.lists|
      ensures EntersAt(node.lists, enter, l) <==> Entered(path[0], node.lists[l].kind)
    {
      EnteredAsShown(node, rand, pos, must, decide, l);
    }
    HeadFollows(node, path, inner, enter);
    ConsPath(path, inner, IdsInLists(node.lists));
    FollowsMore(inner, IdsInLists(node.lists), IdSet(inner), IdSet(path));
    FollowsAlso(path[1..], inner, IdSet(path));
    FollowsCons(path, IdSet(path));
  }

  lemma FollowsCons(path: seq<PathStep>, ids: set<Id>)
    requires path != [] && FollowsShown(path[0], ids) && AllFollow(path[1..], ids)
    ensures AllFollow(path, ids)
  {
    forall i | 0 <= i < |path| ensures FollowsShown(path[i], ids) {
      if i > 0 { assert FollowsShown(path[1..][i - 1], ids); }
    }
  }

  /** A path that starts with a node and goes on as `inner`. */
  lemma ConsPath(path: seq<PathStep>, inner: seq<PathStep>, own: set<Id>)
    requires path != [] && SameButLoops(path[1..], inner) && Within(inner, own) && own == IdsInLists(path[0].node.lists)
    ensures IdSet(path) == {path[0].node.id} + IdSet(inner) && IdSet(inner) <= own
    ensures PathNodes(path) == [path[0].node] + PathNodes(inner)
    ensures Within(path, {path[0].node.id} + own)
  {
    var rest := path[1..];
    assert path == [path[0]] + rest;
    assert PathNodes(rest) == PathNodes(inner) && PathIds(rest) == PathIds(inner);
    WithinIds(inner, own);
    forall i | 0 <= i < |path|
      ensures path[i].node.id in {path[0].node.id} + own && IdsInLists(path[i].node.lists) <= {path[0].node.id} + own
    {
      if i > 0 { assert path[i] == rest[i - 1] && rest[i - 1].node == inner[i - 1].node; }
    }
  }

  lemma HeadFollows(node: Node, path: seq<PathStep>, inner: seq<PathStep>, enter: Enter)
    requires path != [] && path[0].node == node && SameButLoops(path[1..], inner) && Within(inner, IdsInLists(node.lists))
    requires node.id !in IdsInLists(node.lists) && EnteredOnly(node.lists, enter, IdSet(inner))
    requires forall l :: 0 <= l < |node.lists| ==> (EntersAt(node.lists, enter, l) <==> Entered(path[0], node.lists[l].kind))
    ensures FollowsShown(path[0], IdSet(path))
  {
    ConsPath(path, inner, IdsInLists(node.lists));
    forall l, x | 0 <= l < |node.lists| && x in TopIds(node.lists[l].steps)
      ensures x in IdSet(path) <==> Entered(path[0], node.lists[l].kind)
    {
      TopIdsOfLists(node.lists, l, x);
    }
  }

  /** The lists that are entered are the ones that the node shows. */
  lemma EnteredAsShown(node: Node, rand: Random, pos: nat, must: Option<Id>, decide: Decider, l: nat)
    requires ShapeOk(node) && ShapesOkInLists(node.lists) && DistinctKeys(node.id, node.lists) && l < |node.lists|
    ensures EntersAt(node.lists, EnterOf(node, rand, pos, must, decide), l)
       <==> Entered(FlattenNode(node, rand, pos, must, decide).path[0], node.lists[l].kind)
  {
    var lists, shown := node.lists, FlattenNode(node, rand, pos, must, decide).path[0].meta.branches;
    BranchesFirst(node, l);
    match node.kind {
      case BranchKind =>
        var k := Pick(node, rand, pos, must, decide);
        assert shown == [lists[k].kind.branch];
        if l != k && lists[l].kind.BranchList? { KeysDiffer(node.id, lists, l, k); }
      case ParallelKind =>
        if lists[l].kind.BranchList? { assert shown[l] == lists[l].kind.branch; }
      case _ =>
    }
  }

  /** The branches of a node come first, and only loops have bodies. */
  lemma BranchesFirst(node: Node, l: nat)
    requires ShapeOk(node) && l < |node.lists|
    ensures node.lists[l].kind.BranchList? <==> l < BranchCount(node.lists)
    ensures node.lists[l].kind.LoopBody? ==> node.kind.LoopKind?
    ensures node.lists[l].kind.BranchList? ==> node.kind.BranchKind? || node.kind.ParallelKind?
  {
    var lists, n := node.lists, BranchCount(node.lists);
    if l >= n && (node.kind.BranchKind? || node.kind.ParallelKind?) { assert lists[n..][l - n] == lists[l]; }
    if l > 0 && node.kind.LoopKind? { assert lists[1..][l - 1] == lists[l]; }
  }

  lemma {:induction false} KeysDiffer(owner: Id, lists: seq<ChildList>, a: nat, b: nat)
    requires DistinctKeys(owner, lists) && a < |lists| && b < |lists| && a != b
    ensures Key(owner, lists[a].kind) != Key(owner, lists[b].kind)
  {
    if a > 0 && b > 0 {
      KeysDiffer(owner, lists[1..], a - 1, b - 1);
    } else {
      KeyAmong(owner, lists[1..], if a > 0 then a - 1 else b - 1);
    }
  }

  lemma {:induction false} KeyAmong(owner: Id, lists: seq<ChildList>, i: nat)
    requires i < |lists|
    ensures Key(owner, lists[i].kind) in Keys(owner, lists)
  {
    if i > 0 { KeyAmong(owner, lists[1..], i - 1); }
  }

  /** The nodes of a list are among the ids if and only if the list is entered. */
  ghost predicate EnteredOnly(lists: seq<ChildList>, enter: Enter, ids: set<Id>) {
    forall l, x :: 0 <= l < |lists| && x in TopIds(lists[l].steps) ==> (x in ids <==> EntersAt(lists, enter, l))
  }

  lemma EnteredOnlyCons(lists: seq<ChildList>, enter: Enter, first: set<Id>, rest: set<Id>, ids: set<Id>)
    requires lists != [] && IdsIn(lists[0].steps) !! IdsInLists(lists[1..])
    requires forall x :: x in TopIds(lists[0].steps) ==> (x in first <==> Enters(lists[0].kind, enter))
    requires EnteredOnly(lists[1..], NextEnter(enter), rest)
    requires forall x :: x in IdsIn(lists[0].steps) ==> (x in ids <==> x in first)
    requires forall x :: x in IdsInLists(lists[1..]) ==> (x in ids <==> x in rest)
    ensures EnteredOnly(lists, enter, ids)
  {
    forall l, x | 0 <= l < |lists| && x in TopIds(lists[l].steps)
      ensures x in ids <==> EntersAt(lists, enter, l)
    {
      if l == 0 {
        TopIdsOf(lists[0].steps, x);
      } else {
        assert lists[1..][l - 1] == lists[l];
        TopIdsOfLists(lists[1..], l - 1, x);
        assert x in rest <==> EntersAt(lists[1..], NextEnter(enter), l - 1);
      }
    }
  }

  lemma {:induction false} PathFollowsInLists(lists: seq<ChildList>, enter: Enter, rand: Random, pos: nat, must: Option<Id>, decide: Decider)
    requires UniqueIdsInLists(lists) && KeysOkInLists(lists) && ShapesOkInLists(lists)
    ensures var path := FlattenLists(lists, enter, rand, pos, must, decide).path;
            AllFollow(path, IdSet(path)) && EnteredOnly(lists, enter, IdSet(path))
    decreases lists, 0
  {
    if lists != [] {
      var enters := Enters(lists[0].kind, enter);
      var head := if enters then Flatten(lists[0].steps, rand, pos, must, decide) else Flat([], pos);
      var tail := FlattenLists(lists[1..], NextEnter(enter), rand, head.pos, must, decide);
      if enters {
        PathFollows(lists[0].steps, rand, pos, must, decide);
        PathWithin(lists[0].steps, rand, pos, must, decide);
      }
      PathFollowsInLists(lists[1..], NextEnter(enter), rand, head.pos, must, decide);
      PathWithinLists(lists[1..], NextEnter(enter), rand, head.pos, must, decide);
      FollowTogether(head.path, tail.path, IdsIn(lists[0].steps), IdsInLists(lists[1..]));
      EnteredOnlyCons(lists, enter, IdSet(head.path), IdSet(tail.path), IdSet(head.path + tail.path));
    }
  }

  // ---------------------------------------------------------------- the order of the nodes

  /** The nodes whose id is among the given ones. */
  function Among(nodes: seq<Node>, ids: set<Id>): seq<Node> {
    if nodes == [] then []
    else if nodes[0].id in ids then [nodes[0]] + Among(nodes[1..], ids)
    else Among(nodes[1..], ids)
  }

  lemma {:induction false} AmongConcat(a: seq<Node>, b: seq<Node>, ids: set<Id>)
    ensures Among(a + b, ids) == Among(a, ids) + Among(b, ids)
  {
    if a == [] {
      assert a + b == b;
    } else {
      assert (a + b)[1..] == a[1..] + b;
      AmongConcat(a[1..], b, ids);
    }
  }

  lemma {:induction false} AmongSame(nodes: seq<Node>, ids: set<Id>, more: set<Id>)
    requires forall n :: n in nodes ==> (n.id in ids <==> n.id in more)
    ensures Among(nodes, ids) == Among(nodes, more)
  {
    if nodes != [] { AmongSame(nodes[1..], ids, more); }
  }

  lemma {:induction false} AmongNone(nodes: seq<Node>, ids: set<Id>)
    requires forall n :: n in nodes ==> n.id !in ids
    ensures Among(nodes, ids) == []
  {
    if nodes != [] { AmongNone(nodes[1..], ids); }
  }

  lemma {:induction false} NodesIn(steps: seq<Node>)
    ensures forall n :: n in Preorder(steps) ==> n.id in IdsIn(steps)
    decreases steps
  {
    if steps != [] {
      NodesInLists(steps[0].lists);
      NodesIn(steps[1..]);
    }
  }

  lemma {:induction false} NodesInLists(lists: seq<ChildList>)
    ensures forall n :: n in PreorderOfLists(lists) ==> n.id in IdsInLists(lists)
    decreases lists
  {
    if lists != [] {
      NodesIn(lists[0].steps);
      NodesInLists(lists[1..]);
    }
  }

  /** Two parts of a path that stem from different parts of the tree. */
  lemma OrderTogether(a: seq<PathStep>, b: seq<PathStep>, first: seq<Node>, rest: seq<Node>, own: set<Id>, others: set<Id>)
    requires PathNodes(a) == Among(first, IdSet(a)) && PathNodes(b) == Among(rest, IdSet(b))
    requires Within(a, own) && Within(b, others) && own !! others
    requires (forall n :: n in first ==> n.id in own) && (forall n :: n in rest ==> n.id in others)
    ensures PathNodes(a + b) == Among(first + rest, IdSet(a + b))
  {
    WithinIds(a, own);
    WithinIds(b, others);
    IdSetConcat(a, b);
    AmongSame(first, IdSet(a), IdSet(a + b));
    AmongSame(rest, IdSet(b), IdSet(a + b));
    AmongConcat(first, rest, IdSet(a + b));
    PathNodesConcat(a, b);
  }

  /** The nodes come in the order in which they stand in the tree. */
  lemma {:induction false} PathInOrder(steps: seq<Node>, rand: Random, pos: nat, must: Option<Id>, decide: Decider)
    requires UniqueIds(steps) && ShapesOk(steps)
    ensures var path := Flatten(steps, rand, pos, must, decide).path;
            PathNodes(path) == Among(Preorder(steps), IdSet(path))
    decreases steps, 1
  {
    if steps != [] {
      var node := steps[0];
      var head := FlattenNode(node, rand, pos, must, decide);
      var tail := Flatten(steps[1..], rand, head.pos, must, decide);
      var inner := Inside(node, rand, pos, must, decide).path;
      NodeInside(node, rand, pos, must, decide);
      NodePath(node, rand, pos, must, decide);
      PathInOrderInLists(node.lists, EnterOf(node, rand, pos, must, decide), rand, Drawn(node, pos, must, decide), must, decide);
      PathWithinLists(node.lists, EnterOf(node, rand, pos, must, decide), rand, Drawn(node, pos, must, decide), must, decide);
      PathInOrder(steps[1..], rand, head.pos, must, decide);
      PathWithin(steps[1..], rand, head.pos, must, decide);
      NodesInLists(node.lists);
      NodesIn(steps[1..]);
      NodeInOrder(node, head.path, inner);
      OrderTogether(head.path, tail.path, [node] + PreorderOfLists(node.lists), Preorder(steps[1..]),
                    {node.id} + IdsInLists(node.lists), IdsIn(steps[1..]));
    }
  }

  lemma NodeInOrder(node: Node, path: seq<PathStep>, inner: seq<PathStep>)
    requires path != [] && path[0].node == node && SameButLoops(path[1..], inner)
    requires PathNodes(inner) == Among(PreorderOfLists(node.lists), IdSet(inner)) && Within(inner, IdsInLists(node.lists))
    requires node.id !in IdsInLists(node.lists)
    ensures PathNodes(path) == Among([node] + PreorderOfLists(node.lists), IdSet(path))
    ensures Within(path, {node.id} + IdsInLists(node.lists))
  {
    ConsPath(path, inner, IdsInLists(node.lists));
    NodesInLists(node.lists);
    AmongSame(PreorderOfLists(node.lists), IdSet(inner), IdSet(path));
  }

  lemma {:induction false} PathInOrderInLists(lists: seq<ChildList>, enter: Enter, rand: Random, pos: nat, must: Option<Id>, decide: Decider)
    requires UniqueIdsInLists(lists) && ShapesOkInLists(lists)
    ensures var path := FlattenLists(lists, enter, rand, pos, must, decide).path;
            PathNodes(path) == Among(PreorderOfLists(lists), IdSet(path))
    decreases lists, 0
  {
    if lists != [] {
      var enters := Enters(lists[0].kind, enter);
      var head := if enters then Flatten(lists[0].steps, rand, pos, must, decide) else Flat([], pos);
      var tail := FlattenLists(lists[1..], NextEnter(enter), rand, head.pos, must, decide);
      NodesIn(lists[0].steps);
      NodesInLists(lists[1..]);
      if enters {
        PathInOrder(lists[0].steps, rand, pos, must, decide);
        PathWithin(lists[0].steps, rand, pos, must, decide);
      } else {
        AmongNone(Preorder(lists[0].steps), IdSet(head.path));
      }
      PathInOrderInLists(lists[1..], NextEnter(enter), rand, head.pos, must, decide);
      PathWithinLists(lists[1..], NextEnter(enter), rand, head.pos, must, decide);
      OrderTogether(head.path, tail.path, Preorder(lists[0].steps), PreorderOfLists(lists[1..]),
                    IdsIn(lists[0].steps), IdsInLists(lists[1..]));
    }
  }

  // ---------------------------------------------------------------- how often a step is repeated

  /** How often a node runs: as often as the outermost loop that is or encloses it says. */
  function Rounds(steps: seq<Node>, id: Id): Option<nat> {
    if steps == [] then None
    else if id == steps[0].id || id in IdsInLists(steps[0].lists) then
      (if LoopRounds(steps[0]).Some? then LoopRounds(steps[0]) else RoundsInLists(steps[0].lists, id))
    else Rounds(steps[1..], id)
  }

  function RoundsInLists(lists: seq<ChildList>, id: Id): Option<nat> {
    if lists == [] then None
    else if id in IdsIn(lists[0].steps) then Rounds(lists[0].steps, id)
    else RoundsInLists(lists[1..], id)
  }

  lemma {:induction false} RoundsOutside(lists: seq<ChildList>, id: Id)
    requires id !in IdsInLists(lists)
    ensures RoundsInLists(lists, id) == None
  {
    if lists != [] { RoundsOutside(lists[1..], id); }
  }

  ghost predicate RoundsShown(path: seq<PathStep>, steps: seq<Node>) {
    forall i :: 0 <= i < |path| ==> path[i].meta.iterations == Rounds(steps, path[i].node.id)
  }

  ghost predicate RoundsShownInLists(path: seq<PathStep>, lists: seq<ChildList>) {
    forall i :: 0 <= i < |path| ==> path[i].meta.iterations == RoundsInLists(lists, path[i].node.id)
  }

  lemma RoundsOfTail(path: seq<PathStep>, steps: seq<Node>)
    requires steps != [] && UniqueIds(steps) && RoundsShown(path, steps[1..]) && Within(path, IdsIn(steps[1..]))
    ensures RoundsShown(path, steps)
  {
    forall i | 0 <= i < |path| ensures path[i].meta.iterations == Rounds(steps, path[i].node.id) {
      assert path[i].node.id in IdsIn(steps[1..]);
    }
  }

  lemma RoundsOfFirstList(path: seq<PathStep>, lists: seq<ChildList>)
    requires lists != [] && RoundsShown(path, lists[0].steps) && Within(path, IdsIn(lists[0].steps))
    ensures RoundsShownInLists(path, lists)
  {
  }

  lemma RoundsOfOtherLists(path: seq<PathStep>, lists: seq<ChildList>)
    requires lists != [] && UniqueIdsInLists(lists)
    requires RoundsShownInLists(path, lists[1..]) && Within(path, IdsInLists(lists[1..]))
    ensures RoundsShownInLists(path, lists)
  {
    forall i | 0 <= i < |path| ensures path[i].meta.iterations == RoundsInLists(lists, path[i].node.id) {
      assert path[i].node.id in IdsInLists(lists[1..]);
    }
  }

  lemma RoundsOfNode(path: seq<PathStep>, inner: seq<PathStep>, steps: seq<Node>)
    requires steps != [] && path != [] && path[0].node == steps[0] && SameButLoops(path[1..], inner)
    requires steps[0].id !in IdsInLists(steps[0].lists) && Within(inner, IdsInLists(steps[0].lists))
    requires RoundsShownInLists(inner, steps[0].lists)
    requires path[0].meta.iterations == LoopRounds(steps[0])
    requires LoopRounds(steps[0]).None? ==> path[1..] == inner
    requires LoopRounds(steps[0]).Some? ==> forall i :: 0 <= i < |path| ==> path[i].meta.iterations == LoopRounds(steps[0])
    ensures RoundsShown(path, steps)
  {
    var node := steps[0];
    RoundsOutside(node.lists, node.id);
    forall i | 0 <= i < |path| ensures path[i].meta.iterations == Rounds(steps, path[i].node.id) {
      if i > 0 {
        assert path[1..][i - 1] == path[i] && path[i].node == inner[i - 1].node && path[i].node.id in IdsInLists(node.lists);
        assert inner[i - 1].meta.iterations == RoundsInLists(node.lists, path[i].node.id);
      }
    }
  }

  /** A step shows as many rounds as the outermost loop around it has. */
  lemma {:induction false} PathRounds(steps: seq<Node>, rand: Random, pos: nat, must: Option<Id>, decide: Decider)
    requires UniqueIds(steps) && ShapesOk(steps)
    ensures RoundsShown(Flatten(steps, rand, pos, must, decide).path, steps)
    decreases steps, 1
  {
    if steps != [] {
      var node := steps[0];
      var head := FlattenNode(node, rand, pos, must, decide);
      var tail := Flatten(steps[1..], rand, head.pos, must, decide).path;
      var enter, drawn := EnterOf(node, rand, pos, must, decide), Drawn(node, pos, must, decide);
      NodeInside(node, rand, pos, must, decide);
      PathRoundsInLists(node.lists, enter, rand, drawn, must, decide);
      PathWithinLists(node.lists, enter, rand, drawn, must, decide);
      RoundsOfNode(head.path, Inside(node, rand, pos, must, decide).path, steps);
      PathRounds(steps[1..], rand, head.pos, must, decide);
      PathWithin(steps[1..], rand, head.pos, must, decide);
      RoundsOfTail(tail, steps);
    }
  }

  lemma {:induction false} PathRoundsInLists(lists: seq<ChildList>, enter: Enter, rand: Random, pos: nat, must: Option<Id>, decide: Decider)
    requires UniqueIdsInLists(lists) && ShapesOkInLists(lists)
    ensures RoundsShownInLists(FlattenLists(lists, enter, rand, pos, must, decide).path, lists)
    decreases lists, 0
  {
    if lists != [] {
      var enters := Enters(lists[0].kind, enter);
      var head := if enters then Flatten(lists[0].steps, rand, pos, must, decide) else Flat([], pos);
      var tail := FlattenLists(lists[1..], NextEnter(enter), rand, head.pos, must, decide).path;
      if enters {
        PathRounds(lists[0].steps, rand, pos, must, decide);
        PathWithin(lists[0].steps, rand, pos, must, decide);
      }
      RoundsOfFirstList(head.path, lists);
      PathRoundsInLists(lists[1..], NextEnter(enter), rand, head.pos, must, decide);
      PathWithinLists(lists[1..], NextEnter(enter), rand, head.pos, must, decide);
      RoundsOfOtherLists(tail, lists);
    }
  }
}
