/** Who owns what in the organisation: transferring resources and removing users. */
module Ownership {
  import opened Helpers
  import opened Workflow

  type User = string

  datatype Kind = Workflows | Connections | McpServices | Connectors | Projects | Storages

  /** A resource; `people` are those a connection is shared with, or the developers of a connector. */
  datatype Resource = Resource(id: Id, owner: User, people: seq<User>)

  datatype Role = Owner | Editor | Viewer
  datatype Member = Member(project: Id, user: User, role: Role)

  datatype Org = Org(items: map<Kind, seq<Resource>>, members: seq<Member>, users: seq<User>,
                     pending: seq<User>, contact: Option<User>, receivers: seq<User>)

  datatype Item = Item(kind: Kind, id: Id)

  function Of(s: Org, k: Kind): seq<Resource> { if k in s.items then s.items[k] else [] }

  // ---------------------------------------------------------------- lists of people

  function Dedup(people: seq<User>): (r: seq<User>)
    ensures forall x :: x in r <==> x in people
  {
    if people == [] then []
    else
      var front, last := Dedup(people[..|people| - 1]), people[|people| - 1];
      assert people == people[..|people| - 1] + [last];
      if last in front then front else front + [last]
  }

  // ---------------------------------------------------------------- transfer

  function IdsOf(refs: seq<Item>, k: Kind): set<Id> { set r | r in refs && r.kind == k :: r.id }

  /** The new owner of a connection needs no share; the new owner of a connector becomes a developer. */
  function Hand(k: Kind, x: Resource, to: User): Resource {
    match k
    case Connections => x.(owner := to, people := Without(x.people, to))
    case Connectors => x.(owner := to, people := Dedup([to] + x.people))
    case _ => x.(owner := to)
  }

  function HandAll(k: Kind, list: seq<Resource>, ids: set<Id>, to: User): (r: seq<Resource>)
    ensures |r| == |list| && forall i :: 0 <= i < |list| ==> r[i] == if list[i].id in ids then Hand(k, list[i], to) else list[i]
  {
    if list == [] then []
    else [if list[0].id in ids then Hand(k, list[0], to) else list[0]] + HandAll(k, list[1..], ids, to)
  }

  function OwnerOf(projects: seq<Resource>, id: Id): (r: Option<User>)
    ensures r.Some? ==> exists i :: 0 <= i < |projects| && projects[i].id == id && projects[i].owner == r.value
    ensures r.None? ==> forall i :: 0 <= i < |projects| ==> projects[i].id != id
  {
    if projects == [] then None
    else
      var n := |projects| - 1;
      if projects[n].id == id then Some(projects[n].owner) else OwnerOf(projects[..n], id)
  }

  function Rerole(m: Member, projects: seq<Resource>, ids: set<Id>, to: User): Member {
    if m.project !in ids then m
    else if m.user == to then m.(role := Owner)
    else if OwnerOf(projects, m.project) == Some(m.user) then m.(role := Editor)
    else m
  }

  function Reroled(members: seq<Member>, projects: seq<Resource>, ids: set<Id>, to: User): (r: seq<Member>)
    ensures |r| == |members| && forall i :: 0 <= i < |members| ==> r[i] == Rerole(members[i], projects, ids, to)
  {
    if members == [] then [] else [Rerole(members[0], projects, ids, to)] + Reroled(members[1..], projects, ids, to)
  }

  predicate IsMember(members: seq<Member>, project: Id, u: User) {
    exists i :: 0 <= i < |members| && members[i].project == project && members[i].user == u
  }

  /** One owner membership for each transferred project that the new owner does not belong to yet. */
  function Added(refs: seq<Item>, members: seq<Member>, to: User): (r: seq<Member>)
    ensures forall m :: m in r <==> m.project in IdsOf(refs, Projects) && m.user == to && m.role == Owner && !IsMember(members, m.project, to)
    ensures forall i, j :: 0 <= i < j < |r| ==> r[i].project != r[j].project
  {
    if refs == [] then []
    else
      var front, last := Added(refs[..|refs| - 1], members, to), refs[|refs| - 1];
      var m := Member(last.id, to, Owner);
      assert refs == refs[..|refs| - 1] + [last];
      assert forall id :: id in IdsOf(refs, Projects) <==> id in IdsOf(refs[..|refs| - 1], Projects) || (last.kind == Projects && id == last.id);
      if last.kind == Projects && !IsMember(members, last.id, to) && m !in front then front + [m] else front
  }

  function NewMembers(members: seq<Member>, projects: seq<Resource>, refs: seq<Item>, to: User): seq<Member> {
    Reroled(members, projects, IdsOf(refs, Projects), to) + Added(refs, members, to)
  }

  function Transfer(s: Org, refs: seq<Item>, to: User): Org {
    s.(items := map k | k in s.items :: HandAll(k, s.items[k], IdsOf(refs, k), to),
       members := NewMembers(s.members, Of(s, Projects), refs, to))
  }

  // ---------------------------------------------------------------- removal

  predicate Owns(list: seq<Resource>, id: Id, u: User) {
    exists i :: 0 <= i < |list| && list[i].id == id && list[i].owner == u
  }

  function OwnedIn(k: Kind, list: seq<Resource>, u: User): (r: seq<Item>)
    ensures forall x :: x in r <==> x.kind == k && Owns(list, x.id, u)
  {
    if list == [] then []
    else
      var rest := OwnedIn(k, list[1..], u);
      assert list == [list[0]] + list[1..];
      assert forall id :: Owns(list[1..], id, u) ==> Owns(list, id, u) by {
        forall id | Owns(list[1..], id, u) ensures Owns(list, id, u) {
          var i :| 0 <= i < |list[1..]| && list[1..][i].id == id && list[1..][i].owner == u;
          assert list[i + 1].id == id;
        }
      }
      if list[0].owner == u then [Item(k, list[0].id)] + rest else rest
  }

  function Owned(s: Org, u: User): seq<Item> {
    OwnedIn(Workflows, Of(s, Workflows), u) + OwnedIn(Connections, Of(s, Connections), u)
    + OwnedIn(McpServices, Of(s, McpServices), u) + OwnedIn(Connectors, Of(s, Connectors), u)
    + OwnedIn(Projects, Of(s, Projects), u) + OwnedIn(Storages, Of(s, Storages), u)
  }

  function Forget(k: Kind, x: Resource, u: User): Resource {
    if k == Connections || k == Connectors then x.(people := Without(x.people, u)) else x
  }

  function ForgetAll(k: Kind, list: seq<Resource>, u: User): (r: seq<Resource>)
    ensures |r| == |list| && forall i :: 0 <= i < |list| ==> r[i] == Forget(k, list[i], u)
  {
    if list == [] then [] else [Forget(k, list[0], u)] + ForgetAll(k, list[1..], u)
  }

  function DropMember(members: seq<Member>, u: User): (r: seq<Member>)
    ensures forall m :: m in r <==> m in members && m.user != u
  {
    if members == [] then []
    else if members[0].user == u then DropMember(members[1..], u)
    else [members[0]] + DropMember(members[1..], u)
  }

  function Moved(s: Org, u: User, to: Option<User>): Org {
    if to.Some? && Owned(s, u) != [] then Transfer(s, Owned(s, u), to.value) else s
  }

  function RemoveUser(s: Org, u: User, to: Option<User>): Org {
    var moved := Moved(s, u, to);
    Org(map k | k in moved.items :: ForgetAll(k, moved.items[k], u),
        DropMember(moved.members, u), Without(moved.users, u), Without(moved.pending, u),
        if moved.contact == Some(u) then None else moved.contact, Without(moved.receivers, u))
  }

  // ---------------------------------------------------------------- the invariant

  ghost predicate UniqueMembers(members: seq<Member>) {
    forall i, j :: 0 <= i < j < |members| ==> !(members[i].project == members[j].project && members[i].user == members[j].user)
  }

  /** The members with the owner role of a project are its owner, and the owner is among them. */
  ghost predicate OwnedByOne(p: Resource, members: seq<Member>) {
    && Member(p.id, p.owner, Owner) in members
    && (forall m :: m in members && m.project == p.id && m.role == Owner ==> m.user == p.owner)
  }

  ghost predicate UniqueProjects(projects: seq<Resource>) {
    forall i, j :: 0 <= i < j < |projects| ==> projects[i].id != projects[j].id
  }

  ghost predicate OrgOk(s: Org) {
    && UniqueMembers(s.members)
    && UniqueProjects(Of(s, Projects))
    && (forall p :: p in Of(s, Projects) ==> OwnedByOne(p, s.members))
    && (forall c :: c in Of(s, Connections) ==> c.owner !in c.people)
  }

  // ---------------------------------------------------------------- transfers keep it

  lemma OwnerOfProject(projects: seq<Resource>, i: nat)
    requires UniqueProjects(projects) && i < |projects|
    ensures OwnerOf(projects, projects[i].id) == Some(projects[i].owner)
  {
  }

  lemma OfTransfer(s: Org, refs: seq<Item>, to: User, k: Kind)
    ensures Of(Transfer(s, refs, to), k) == HandAll(k, Of(s, k), IdsOf(refs, k), to)
  {
  }

  lemma NewOwnerListed(projects: seq<Resource>, members: seq<Member>, refs: seq<Item>, to: User, id: Id)
    requires id in IdsOf(refs, Projects)
    ensures Member(id, to, Owner) in NewMembers(members, projects, refs, to)
  {
    var kept, added := Reroled(members, projects, IdsOf(refs, Projects), to), Added(refs, members, to);
    if IsMember(members, id, to) {
      var j :| 0 <= j < |members| && members[j].project == id && members[j].user == to;
      assert kept[j] == Member(id, to, Owner) && kept[j] in kept;
    } else {
      assert Member(id, to, Owner) in added;
    }
  }

  /** A project that changes hands. */
  lemma HandedProject(projects: seq<Resource>, members: seq<Member>, refs: seq<Item>, to: User, i: nat)
    requires UniqueProjects(projects) && i < |projects| && OwnedByOne(projects[i], members)
    requires projects[i].id in IdsOf(refs, Projects)
    ensures OwnedByOne(Hand(Projects, projects[i], to), NewMembers(members, projects, refs, to))
  {
    var p := projects[i];
    OwnerOfProject(projects, i);
    NewOwnerListed(projects, members, refs, to, p.id);
    forall m | m in NewMembers(members, projects, refs, to) && m.project == p.id && m.role == Owner
      ensures m.user == to
    {
      OnlyNewOwner(projects, members, refs, to, p, m);
    }
  }

  lemma OnlyNewOwner(projects: seq<Resource>, members: seq<Member>, refs: seq<Item>, to: User, p: Resource, m: Member)
    requires OwnedByOne(p, members) && OwnerOf(projects, p.id) == Some(p.owner) && p.id in IdsOf(refs, Projects)
    requires m in NewMembers(members, projects, refs, to) && m.project == p.id && m.role == Owner
    ensures m.user == to
  {
    var kept := Reroled(members, projects, IdsOf(refs, Projects), to);
    if m in kept {
      var j :| 0 <= j < |kept| && kept[j] == m;
      assert members[j] in members;
    }
  }

  /** A project that stays where it is. */
  lemma KeptProject(projects: seq<Resource>, members: seq<Member>, refs: seq<Item>, to: User, i: nat)
    requires i < |projects| && OwnedByOne(projects[i], members)
    requires projects[i].id !in IdsOf(refs, Projects)
    ensures OwnedByOne(projects[i], NewMembers(members, projects, refs, to))
  {
    var p, ids := projects[i], IdsOf(refs, Projects);
    var kept, added := Reroled(members, projects, ids, to), Added(refs, members, to);
    var m := Member(p.id, p.owner, Owner);
    var j :| 0 <= j < |members| && members[j] == m;
    assert kept[j] == m;
    assert m in kept + added;
    forall x | x in kept && x.project == p.id && x.role == Owner
      ensures x.user == p.owner
    {
      var l :| 0 <= l < |kept| && kept[l] == x;
      assert members[l] == x;
    }
  }

  lemma MembersStayUnique(projects: seq<Resource>, members: seq<Member>, refs: seq<Item>, to: User)
    requires UniqueMembers(members)
    ensures UniqueMembers(NewMembers(members, projects, refs, to))
  {
    var kept, added := Reroled(members, projects, IdsOf(refs, Projects), to), Added(refs, members, to);
    assert forall i :: 0 <= i < |kept| ==> kept[i].project == members[i].project && kept[i].user == members[i].user;
    forall i, j | 0 <= i < |kept| && 0 <= j < |added|
      ensures !(kept[i].project == added[j].project && kept[i].user == added[j].user)
    {
      AddedIsNew(members, refs, to, i, j);
    }
    UniqueConcatMembers(kept, added);
  }

  lemma AddedIsNew(members: seq<Member>, refs: seq<Item>, to: User, i: nat, j: nat)
    requires i < |members| && j < |Added(refs, members, to)|
    ensures var m := Added(refs, members, to)[j]; !(members[i].project == m.project && members[i].user == m.user)
  {
    assert Added(refs, members, to)[j] in Added(refs, members, to);
  }

  lemma UniqueConcatMembers(a: seq<Member>, b: seq<Member>)
    requires UniqueMembers(a) && (forall i, j :: 0 <= i < j < |b| ==> b[i].project != b[j].project)
    requires forall i, j :: 0 <= i < |a| && 0 <= j < |b| ==> !(a[i].project == b[j].project && a[i].user == b[j].user)
    ensures UniqueMembers(a + b)
  {
  }

  lemma ProjectsStayOwned(projects: seq<Resource>, members: seq<Member>, refs: seq<Item>, to: User)
    requires UniqueProjects(projects) && forall p :: p in projects ==> OwnedByOne(p, members)
    ensures forall p :: p in HandAll(Projects, projects, IdsOf(refs, Projects), to) ==>
              OwnedByOne(p, NewMembers(members, projects, refs, to))
  {
    var r := HandAll(Projects, projects, IdsOf(refs, Projects), to);
    forall p | p in r
      ensures OwnedByOne(p, NewMembers(members, projects, refs, to))
    {
      var i :| 0 <= i < |r| && r[i] == p;
      ProjectStaysOwned(projects, members, refs, to, i);
    }
  }

  lemma HandedProjectsUnique(projects: seq<Resource>, ids: set<Id>, to: User)
    requires UniqueProjects(projects)
    ensures UniqueProjects(HandAll(Projects, projects, ids, to))
  {
  }

  lemma ProjectStaysOwned(projects: seq<Resource>, members: seq<Member>, refs: seq<Item>, to: User, i: nat)
    requires UniqueProjects(projects) && (forall p :: p in projects ==> OwnedByOne(p, members)) && i < |projects|
    ensures OwnedByOne(HandAll(Projects, projects, IdsOf(refs, Projects), to)[i], NewMembers(members, projects, refs, to))
  {
    assert projects[i] in projects;
    if projects[i].id in IdsOf(refs, Projects) {
      HandedProject(projects, members, refs, to, i);
    } else {
      KeptProject(projects, members, refs, to, i);
    }
  }

  lemma ConnectionsStayApart(list: seq<Resource>, ids: set<Id>, to: User)
    requires forall c :: c in list ==> c.owner !in c.people
    ensures forall c :: c in HandAll(Connections, list, ids, to) ==> c.owner !in c.people
  {
    var r := HandAll(Connections, list, ids, to);
    forall i | 0 <= i < |r|
      ensures r[i].owner !in r[i].people
    {
      assert list[i] in list;
    }
  }

  /** A transfer of any resources to anyone keeps the invariant. */
  lemma TransferKeeps(s: Org, refs: seq<Item>, to: User)
    requires OrgOk(s)
    ensures OrgOk(Transfer(s, refs, to))
  {
    MembersStayUnique(Of(s, Projects), s.members, refs, to);
    OfTransfer(s, refs, to, Projects);
    OfTransfer(s, refs, to, Connections);
    HandedProjectsUnique(Of(s, Projects), IdsOf(refs, Projects), to);
    ProjectsStayOwned(Of(s, Projects), s.members, refs, to);
    ConnectionsStayApart(Of(s, Connections), IdsOf(refs, Connections), to);
  }

  /** A transfer loses no resource, moves exactly the named ones, and leaves the rest alone. */
  lemma TransferMoves(s: Org, refs: seq<Item>, to: User, k: Kind)
    ensures var a, b := Of(s, k), Of(Transfer(s, refs, to), k);
            && |a| == |b|
            && forall i :: 0 <= i < |a| ==>
                 && b[i].id == a[i].id
                 && b[i].owner == (if Item(k, a[i].id) in refs then to else a[i].owner)
                 && (Item(k, a[i].id) !in refs ==> b[i] == a[i])
  {
    var a := Of(s, k);
    OfTransfer(s, refs, to, k);
    forall i | 0 <= i < |a|
      ensures a[i].id in IdsOf(refs, k) <==> Item(k, a[i].id) in refs
    {
      if a[i].id in IdsOf(refs, k) {
        var r :| r in refs && r.kind == k && r.id == a[i].id;
        assert r == Item(k, a[i].id);
      }
    }
  }

  /** What a transfer leaves of the people: the new owner of a connection drops out of its shares, the
      new owner of a connector joins its developers, and all others stay. */
  lemma TransferPeople(s: Org, refs: seq<Item>, to: User, k: Kind, i: nat)
    requires i < |Of(s, k)| && Item(k, Of(s, k)[i].id) in refs
    ensures |Of(Transfer(s, refs, to), k)| == |Of(s, k)|
    ensures var was, now := Of(s, k)[i].people, Of(Transfer(s, refs, to), k)[i].people;
            && (k == Connections ==> now == Kept(was, Not(to)))
            && (k == Connectors ==> forall x :: x in now <==> x == to || x in was)
            && (k != Connections && k != Connectors ==> now == was)
  {
    OfTransfer(s, refs, to, k);
    WithoutKeeps(Of(s, k)[i].people, to, to);
    var r := Item(k, Of(s, k)[i].id);
    assert r in refs && r.id in IdsOf(refs, k);
  }

  /** What a transfer makes of the members: in a transferred project the new owner gets the owner
      role, the old one becomes an editor, and everyone else stays as they are; the new owner joins
      the transferred projects that they were not a member of, and nobody else joins. */
  lemma TransferMembers(s: Org, refs: seq<Item>, to: User)
    requires UniqueProjects(Of(s, Projects))
    ensures var a, b := s.members, Transfer(s, refs, to).members;
            && |a| <= |b|
            && (forall i :: 0 <= i < |a| ==>
                  && b[i].project == a[i].project && b[i].user == a[i].user
                  && b[i].role == if Item(Projects, a[i].project) !in refs then a[i].role
                                  else if a[i].user == to then Owner
                                  else if Owns(Of(s, Projects), a[i].project, a[i].user) then Editor
                                  else a[i].role)
            && (forall m :: m in b[|a|..] <==>
                  m.user == to && m.role == Owner && Item(Projects, m.project) in refs && !IsMember(a, m.project, to))
  {
    var ids, projects := IdsOf(refs, Projects), Of(s, Projects);
    forall id
      ensures id in ids <==> Item(Projects, id) in refs
    {
      if id in ids {
        var r :| r in refs && r.kind == Projects && r.id == id;
        assert r == Item(Projects, id);
      }
      if Item(Projects, id) in refs { assert Item(Projects, id).id in ids; }
    }
    forall id, u
      ensures OwnerOf(projects, id) == Some(u) <==> Owns(projects, id, u)
    {
      if Owns(projects, id, u) {
        var i :| 0 <= i < |projects| && projects[i].id == id && projects[i].owner == u;
        OwnerOfProject(projects, i);
      }
    }
    var kept := Reroled(s.members, projects, ids, to);
    assert NewMembers(s.members, projects, refs, to)[|kept|..] == Added(refs, s.members, to);
  }

  // ---------------------------------------------------------------- removals keep it

  lemma OwnedItems(s: Org, u: User, x: Item)
    ensures x in Owned(s, u) <==> Owns(Of(s, x.kind), x.id, u)
  {
  }

  /** A removal is safe if the user owns nothing, or someone else takes over. */
  predicate SafeRemoval(s: Org, u: User, to: Option<User>) {
    Owned(s, u) == [] || (to.Some? && to.value != u)
  }

  ghost predicate OwnsSomething(s: Org, u: User) {
    exists k, i :: 0 <= i < |Of(s, k)| && Of(s, k)[i].owner == u
  }

  lemma OwnedEmpty(s: Org, u: User)
    ensures Owned(s, u) == [] <==> !OwnsSomething(s, u)
  {
    if Owned(s, u) != [] {
      var x := Owned(s, u)[0];
      assert x in Owned(s, u);
      OwnedItems(s, u, x);
      var i :| 0 <= i < |Of(s, x.kind)| && Of(s, x.kind)[i].id == x.id && Of(s, x.kind)[i].owner == u;
    }
    if OwnsSomething(s, u) {
      var k, i :| 0 <= i < |Of(s, k)| && Of(s, k)[i].owner == u;
      assert Owns(Of(s, k), Of(s, k)[i].id, u);
      OwnedItems(s, u, Item(k, Of(s, k)[i].id));
    }
  }

  lemma HandedOver(s: Org, u: User, to: User, k: Kind, i: nat)
    requires i < |Of(s, k)|
    ensures var b := Of(Transfer(s, Owned(s, u), to), k);
            |b| == |Of(s, k)| && (Of(s, k)[i].owner == u ==> b[i].owner == to) && (b[i].owner == u ==> to == u)
  {
    TransferMoves(s, Owned(s, u), to, k);
    OwnedItems(s, u, Item(k, Of(s, k)[i].id));
  }

  /** After the hand-over the user owns nothing, exactly if the removal is safe. */
  lemma MovedOwnsNothing(s: Org, u: User, to: Option<User>)
    ensures OwnsSomething(Moved(s, u, to), u) <==> !SafeRemoval(s, u, to)
  {
    OwnedEmpty(s, u);
    if Owned(s, u) != [] && to.Some? {
      var s' := Moved(s, u, to);
      if OwnsSomething(s', u) {
        var k, i :| 0 <= i < |Of(s', k)| && Of(s', k)[i].owner == u;
        OfTransfer(s, Owned(s, u), to.value, k);
        HandedOver(s, u, to.value, k, i);
      }
      if to.value == u {
        var k, i :| 0 <= i < |Of(s, k)| && Of(s, k)[i].owner == u;
        HandedOver(s, u, u, k, i);
        assert Of(s', k)[i].owner == u;
      }
    }
  }

  /** The user is not an owner, a member, a holder of a share, a developer, or noted anywhere else. */
  ghost predicate Gone(s: Org, u: User) {
    && !OwnsSomething(s, u)
    && (forall m :: m in s.members ==> m.user != u)
    && (forall c :: c in Of(s, Connections) ==> u !in c.people)
    && (forall c :: c in Of(s, Connectors) ==> u !in c.people)
    && u !in s.users && u !in s.pending && s.contact != Some(u) && u !in s.receivers
  }

  lemma OfRemoval(s: Org, u: User, to: Option<User>, k: Kind)
    ensures Of(RemoveUser(s, u, to), k) == ForgetAll(k, Of(Moved(s, u, to), k), u)
  {
  }

  lemma RemovalKeepsOwners(s: Org, u: User, to: Option<User>)
    ensures OwnsSomething(RemoveUser(s, u, to), u) <==> OwnsSomething(Moved(s, u, to), u)
  {
    var moved, s' := Moved(s, u, to), RemoveUser(s, u, to);
    if OwnsSomething(s', u) {
      var k, i :| 0 <= i < |Of(s', k)| && Of(s', k)[i].owner == u;
      OfRemoval(s, u, to, k);
      assert Of(moved, k)[i].owner == u;
    }
    if OwnsSomething(moved, u) {
      var k, i :| 0 <= i < |Of(moved, k)| && Of(moved, k)[i].owner == u;
      OfRemoval(s, u, to, k);
      assert Of(s', k)[i].owner == u;
    }
  }

  lemma NotAmongPeople(list: seq<Resource>, u: User, k: Kind)
    requires k == Connections || k == Connectors
    ensures forall c :: c in ForgetAll(k, list, u) ==> u !in c.people
  {
  }

  /** A removed user is gone if and only if the removal was safe. */
  lemma RemovedIsGone(s: Org, u: User, to: Option<User>)
    ensures Gone(RemoveUser(s, u, to), u) <==> SafeRemoval(s, u, to)
  {
    MovedOwnsNothing(s, u, to);
    RemovalKeepsOwners(s, u, to);
    OfRemoval(s, u, to, Connections);
    OfRemoval(s, u, to, Connectors);
    NotAmongPeople(Of(Moved(s, u, to), Connections), u, Connections);
    NotAmongPeople(Of(Moved(s, u, to), Connectors), u, Connectors);
  }

  // ---------------------------------------------------------------- what a removal leaves

  /** Whoever stays, stays: the lists lose the removed user and nobody else, in their old order. */
  lemma RemovalLeavesUsers(s: Org, u: User, to: Option<User>)
    ensures var s' := RemoveUser(s, u, to);
            && s'.users == Kept(s.users, Not(u)) && s'.pending == Kept(s.pending, Not(u))
            && s'.receivers == Kept(s.receivers, Not(u))
            && s'.contact == if s.contact == Some(u) then None else s.contact
  {
    WithoutKeeps(s.users, u, u);
    WithoutKeeps(s.pending, u, u);
    WithoutKeeps(s.receivers, u, u);
  }

  /** Whether a resource is handed over when the user is removed. */
  predicate HandedOn(s: Org, u: User, to: Option<User>, k: Kind, id: Id) {
    to.Some? && Owns(Of(s, k), id, u)
  }

  lemma MovedResource(s: Org, u: User, to: Option<User>, k: Kind, i: nat)
    requires i < |Of(s, k)|
    ensures |Of(Moved(s, u, to), k)| == |Of(s, k)|
    ensures Of(Moved(s, u, to), k)[i]
         == if HandedOn(s, u, to, k, Of(s, k)[i].id) then Hand(k, Of(s, k)[i], to.value) else Of(s, k)[i]
  {
    var id, refs := Of(s, k)[i].id, Owned(s, u);
    OwnedItems(s, u, Item(k, id));
    if to.Some? && refs != [] {
      OfTransfer(s, refs, to.value, k);
      if Item(k, id) in refs { assert Item(k, id).id in IdsOf(refs, k); }
      if id in IdsOf(refs, k) {
        var r :| r in refs && r.kind == k && r.id == id;
        assert r == Item(k, id);
      }
    }
  }

  lemma ForgottenPeople(k: Kind, x: Resource, u: User)
    ensures Forget(k, x, u).people == if k == Connections || k == Connectors then Kept(x.people, Not(u)) else x.people
  {
    WithoutKeeps(x.people, u, u);
  }

  lemma HandedPeople(k: Kind, x: Resource, to: User, u: User)
    ensures var people := Forget(k, Hand(k, x, to), u).people;
            && (k == Connections ==> people == Kept(x.people, Neither(to, u)))
            && (k == Connectors ==> forall y :: y in people <==> y != u && (y == to || y in x.people))
            && (k != Connections && k != Connectors ==> people == x.people)
  {
    WithoutKeeps(x.people, to, u);
  }

  /** Every resource stays in its place. What the user owned goes to the recipient, if there is one;
      connections and connectors lose the removed user and keep all other people, but for the
      recipient, who drops out of the shares or joins the developers of what was handed over. */
  lemma RemovalLeavesResources(s: Org, u: User, to: Option<User>, k: Kind, i: nat)
    requires i < |Of(s, k)|
    ensures |Of(RemoveUser(s, u, to), k)| == |Of(s, k)|
    ensures var a, b := Of(s, k)[i], Of(RemoveUser(s, u, to), k)[i];
            var handed := HandedOn(s, u, to, k, a.id);
            && b.id == a.id && b.owner == (if handed then to.value else a.owner)
            && (k != Connections && k != Connectors ==> b.people == a.people)
            && ((k == Connections || k == Connectors) && !handed ==> b.people == Kept(a.people, Not(u)))
            && (k == Connections && handed ==> b.people == Kept(a.people, Neither(to.value, u)))
            && (k == Connectors && handed ==> forall x :: x in b.people <==> x != u && (x == to.value || x in a.people))
  {
    OfRemoval(s, u, to, k);
    MovedResource(s, u, to, k, i);
    ForgottenPeople(k, Of(s, k)[i], u);
    if to.Some? { HandedPeople(k, Of(s, k)[i], to.value, u); }
  }

  /** The membership that a member has after the removal. */
  function LeftRole(s: Org, u: User, to: Option<User>, m: Member): Member {
    if HandedOn(s, u, to, Projects, m.project) && to == Some(m.user) then m.(role := Owner) else m
  }

  /** A user joins a project by the removal: the recipient, where the project was handed over. */
  predicate Joins(s: Org, u: User, to: Option<User>, m: Member) {
    HandedOn(s, u, to, Projects, m.project) && m == Member(m.project, to.value, Owner) && !IsMember(s.members, m.project, to.value)
  }

  /** The members afterwards are the members before but for the removed user, with the role they had,
      or that of an owner for the recipient in projects that were handed over; and the recipient
      joins those projects where needed. Nobody else joins or changes. */
  lemma RemovalLeavesMembers(s: Org, u: User, to: Option<User>, m: Member)
    requires UniqueProjects(Of(s, Projects))
    ensures m in RemoveUser(s, u, to).members <==>
              m.user != u && (Joins(s, u, to, m) || exists was :: was in s.members && m == LeftRole(s, u, to, was))
  {
    if to.Some? && Owned(s, u) != [] {
      if m.user != u { HandOverMembers(s, u, to.value, m); }
    } else {
      forall id ensures !HandedOn(s, u, to, Projects, id) {
        OwnedItems(s, u, Item(Projects, id));
      }
    }
  }

  lemma HandOverMember(s: Org, u: User, to: User, i: nat)
    requires UniqueProjects(Of(s, Projects)) && i < |s.members|
    ensures |s.members| <= |Transfer(s, Owned(s, u), to).members|
    ensures var moved := Transfer(s, Owned(s, u), to).members[i];
            moved.user == s.members[i].user && (moved.user != u ==> moved == LeftRole(s, u, Some(to), s.members[i]))
  {
    var m := s.members[i];
    TransferMembers(s, Owned(s, u), to);
    OwnedItems(s, u, Item(Projects, m.project));
    if m.user != u && Owns(Of(s, Projects), m.project, u) && Owns(Of(s, Projects), m.project, m.user) {
      OneOwner(Of(s, Projects), m.project, u, m.user);
    }
  }

  lemma HandOverJoins(s: Org, u: User, to: User, m: Member)
    requires UniqueProjects(Of(s, Projects))
    ensures |s.members| <= |Transfer(s, Owned(s, u), to).members|
    ensures m in Transfer(s, Owned(s, u), to).members[|s.members|..] <==> Joins(s, u, Some(to), m)
  {
    TransferMembers(s, Owned(s, u), to);
    OwnedItems(s, u, Item(Projects, m.project));
  }

  /** A member after the hand-over was one before, or joined by it. */
  lemma MemberCameFrom(s: Org, u: User, to: User, m: Member)
    requires UniqueProjects(Of(s, Projects)) && m in Transfer(s, Owned(s, u), to).members && m.user != u
    ensures Joins(s, u, Some(to), m) || exists was :: was in s.members && m == LeftRole(s, u, Some(to), was)
  {
    var a, moved := s.members, Transfer(s, Owned(s, u), to).members;
    HandOverJoins(s, u, to, m);
    MemberOf(a, moved, m);
    if m !in moved[|a|..] {
      var i :| 0 <= i < |a| && moved[i] == m;
      HandOverMember(s, u, to, i);
      assert a[i] in a;
    }
  }

  lemma MemberStays(s: Org, u: User, to: User, was: Member)
    requires UniqueProjects(Of(s, Projects)) && was in s.members && was.user != u
    ensures LeftRole(s, u, Some(to), was) in Transfer(s, Owned(s, u), to).members
  {
    var i :| 0 <= i < |s.members| && s.members[i] == was;
    HandOverMember(s, u, to, i);
    assert Transfer(s, Owned(s, u), to).members[i] == LeftRole(s, u, Some(to), was);
  }

  lemma HandOverMembers(s: Org, u: User, to: User, m: Member)
    requires UniqueProjects(Of(s, Projects)) && m.user != u
    ensures m in Transfer(s, Owned(s, u), to).members <==>
              Joins(s, u, Some(to), m) || exists was :: was in s.members && m == LeftRole(s, u, Some(to), was)
  {
    HandOverJoins(s, u, to, m);
    MemberOf(s.members, Transfer(s, Owned(s, u), to).members, m);
    if m in Transfer(s, Owned(s, u), to).members { MemberCameFrom(s, u, to, m); }
    if was :| was in s.members && m == LeftRole(s, u, Some(to), was) { MemberStays(s, u, to, was); }
  }

  lemma MemberOf(a: seq<Member>, b: seq<Member>, m: Member)
    requires |a| <= |b|
    ensures m in b <==> m in b[|a|..] || exists i :: 0 <= i < |a| && b[i] == m
  {
    if i :| 0 <= i < |b| && b[i] == m && i >= |a| { assert b[|a|..][i - |a|] == m; }
  }

  lemma OneOwner(projects: seq<Resource>, id: Id, u: User, v: User)
    requires UniqueProjects(projects) && Owns(projects, id, u) && Owns(projects, id, v)
    ensures u == v
  {
  }

  /** One user who owns one workflow. */
  function SingleOwner(): Org { Org(map[Workflows := [Resource("w", "u", [])]], [], ["u"], [], None, []) }

  /** Removed without a recipient, the user is no longer there and still owns the workflow. */
  lemma RemovalLeavesOwner()
    ensures var s := RemoveUser(SingleOwner(), "u", None);
            "u" !in s.users && Of(s, Workflows) == [Resource("w", "u", [])] && !Gone(s, "u")
  {
    var s := RemoveUser(SingleOwner(), "u", None);
    OfRemoval(SingleOwner(), "u", None, Workflows);
    assert Of(s, Workflows)[0].owner == "u";
  }

  lemma {:induction false} DropMemberUnique(members: seq<Member>, u: User)
    requires UniqueMembers(members)
    ensures UniqueMembers(DropMember(members, u))
  {
    if members != [] {
      DropMemberUnique(members[1..], u);
      if members[0].user != u {
        var r := DropMember(members[1..], u);
        forall j | 0 <= j < |r|
          ensures !(members[0].project == r[j].project && members[0].user == r[j].user)
        {
          assert r[j] in r;
          var i :| 0 <= i < |members[1..]| && members[1..][i] == r[j];
          assert members[i + 1] == r[j];
        }
      }
    }
  }

  lemma MovedKeeps(s: Org, u: User, to: Option<User>)
    requires OrgOk(s)
    ensures OrgOk(Moved(s, u, to))
  {
    if to.Some? && Owned(s, u) != [] { TransferKeeps(s, Owned(s, u), to.value); }
  }

  /** A safe removal keeps the invariant. */
  lemma RemovalKeeps(s: Org, u: User, to: Option<User>)
    requires OrgOk(s) && SafeRemoval(s, u, to)
    ensures OrgOk(RemoveUser(s, u, to))
  {
    var moved, s' := Moved(s, u, to), RemoveUser(s, u, to);
    MovedKeeps(s, u, to);
    MovedOwnsNothing(s, u, to);
    DropMemberUnique(moved.members, u);
    OfRemoval(s, u, to, Projects);
    OfRemoval(s, u, to, Connections);
    forall p | p in Of(s', Projects)
      ensures OwnedByOne(p, s'.members)
    {
      var i :| 0 <= i < |Of(s', Projects)| && Of(s', Projects)[i] == p;
      assert Of(moved, Projects)[i] == p && p in Of(moved, Projects);
      assert p.owner != u;
      assert Member(p.id, p.owner, Owner) in s'.members;
    }
    forall c | c in Of(s', Connections)
      ensures c.owner !in c.people
    {
      var i :| 0 <= i < |Of(s', Connections)| && Of(s', Connections)[i] == c;
      assert Of(moved, Connections)[i] in Of(moved, Connections);
    }
  }

  // ---------------------------------------------------------------- whole runs

  datatype Op = TransferOp(refs: seq<Item>, to: User) | RemoveOp(user: User, heir: Option<User>)

  predicate Offered(s: Org, op: Op) { op.RemoveOp? ==> SafeRemoval(s, op.user, op.heir) }

  function Apply(s: Org, op: Op): Org {
    match op case TransferOp(refs, to) => Transfer(s, refs, to) case RemoveOp(u, heir) => RemoveUser(s, u, heir)
  }

  predicate CanRun(s: Org, ops: seq<Op>)
    decreases ops
  {
    ops == [] || (Offered(s, ops[0]) && CanRun(Apply(s, ops[0]), ops[1..]))
  }

  function Run(s: Org, ops: seq<Op>): Org
    requires CanRun(s, ops)
    decreases ops
  {
    if ops == [] then s else Run(Apply(s, ops[0]), ops[1..])
  }

  function Ids(list: seq<Resource>): (r: seq<Id>)
    ensures |r| == |list| && forall i :: 0 <= i < |list| ==> r[i] == list[i].id
  {
    if list == [] then [] else [list[0].id] + Ids(list[1..])
  }

  lemma MovedKeepsIds(s: Org, u: User, to: Option<User>, k: Kind)
    ensures Ids(Of(Moved(s, u, to), k)) == Ids(Of(s, k))
  {
    if to.Some? && Owned(s, u) != [] { TransferMoves(s, Owned(s, u), to.value, k); }
  }

  lemma ApplyKeepsIds(s: Org, op: Op, k: Kind)
    ensures Ids(Of(Apply(s, op), k)) == Ids(Of(s, k))
  {
    match op {
      case TransferOp(refs, to) => TransferMoves(s, refs, to, k);
      case RemoveOp(u, heir) =>
        OfRemoval(s, u, heir, k);
        MovedKeepsIds(s, u, heir, k);
    }
  }

  /** Any sequence of transfers and safe removals keeps every project with exactly one owner, keeps
      connections from being shared with their owners, and loses no resource. */
  lemma {:induction false} RunKeeps(s: Org, ops: seq<Op>)
    requires OrgOk(s) && CanRun(s, ops)
    ensures OrgOk(Run(s, ops)) && forall k :: Ids(Of(Run(s, ops), k)) == Ids(Of(s, k))
    decreases ops
  {
    if ops != [] {
      match ops[0] {
        case TransferOp(refs, to) => TransferKeeps(s, refs, to);
        case RemoveOp(u, heir) => RemovalKeeps(s, u, heir);
      }
      forall k ensures Ids(Of(Apply(s, ops[0]), k)) == Ids(Of(s, k)) { ApplyKeepsIds(s, ops[0], k); }
      RunKeeps(Apply(s, ops[0]), ops[1..]);
    }
  }
}
