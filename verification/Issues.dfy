/** Failed runs grouped into issues: one issue per signature, with a status that a later failure
    reopens. */
module Issues {
  import opened Workflow

  datatype RunStatus = Succeeded | Failed | TimedOut | OtherStatus

  datatype Failure = Failure(code: string, connection: Option<string>)

  /** `isRun` tells real runs from debug runs. */
  datatype Run = Run(id: string, isRun: bool, status: RunStatus, workflow: Id, failedNode: Option<Id>,
                     failure: Option<Failure>, startedAt: int)

  datatype Group = Group(sig: string, runs: seq<Run>)

  /** What people recorded about an issue; a time of zero counts as no time. */
  datatype Saved = Saved(status: Option<string>, resolvedAt: int)

  datatype Issue = Issue(sig: string, runs: seq<Run>, firstAt: int, lastAt: int, status: string, reopened: bool)

  const RESOLVED := "resolved"
  const OPEN := "open"

  // ---------------------------------------------------------------- signatures and groups

  predicate Counts(r: Run) { r.isRun && (r.status == Failed || r.status == TimedOut) && r.failure.Some? }

  function Signature(r: Run): string
    requires r.failure.Some?
  {
    var f := r.failure.value;
    if OnConnection(r) then "conn:" + f.connection.value
    else r.workflow + ":" + (if r.failedNode.Some? then r.failedNode.value else "-") + ":" + f.code
  }

  /** The run failed to authenticate on a connection. */
  predicate OnConnection(r: Run)
    requires r.failure.Some?
  {
    r.failure.value.code == "CONNECTION_AUTH_FAILED" && r.failure.value.connection.Some?
  }

  predicate SamePlace(r: Run, q: Run)
    requires r.failure.Some? && q.failure.Some?
  {
    r.workflow == q.workflow && r.failedNode == q.failedNode && r.failure.value.code == q.failure.value.code
  }

  /** Failures to authenticate share a signature if and only if they concern the same connection,
      whatever the workflow; other failures do if workflow, node and code are the same. */
  lemma SignatureMeans(r: Run, q: Run)
    requires r.failure.Some? && q.failure.Some?
    ensures OnConnection(r) && OnConnection(q) ==>
              (Signature(r) == Signature(q) <==> r.failure.value.connection == q.failure.value.connection)
    ensures !OnConnection(r) && !OnConnection(q) && SamePlace(r, q) ==> Signature(r) == Signature(q)
  {
    var f, h := r.failure.value, q.failure.value;
    if f.connection.Some? && h.connection.Some? {
      assert ("conn:" + f.connection.value)[|"conn:"|..] == f.connection.value;
      assert ("conn:" + h.connection.value)[|"conn:"|..] == h.connection.value;
    }
  }

  predicate HasSignature(r: Run, sig: string) { Counts(r) && Signature(r) == sig }

  /** Appends a run to the group of its signature, or opens a new group at the end. */
  function AddTo(groups: seq<Group>, r: Run): seq<Group>
    requires Counts(r)
  {
    if groups == [] then [Group(Signature(r), [r])]
    else if groups[0].sig == Signature(r) then [Group(groups[0].sig, groups[0].runs + [r])] + groups[1..]
    else [groups[0]] + AddTo(groups[1..], r)
  }

  function GroupUp(runs: seq<Run>): seq<Group> {
    if runs == [] then []
    else
      var last := |runs| - 1;
      if Counts(runs[last]) then AddTo(GroupUp(runs[..last]), runs[last]) else GroupUp(runs[..last])
  }

  // ---------------------------------------------------------------- sorting

  /** A stable sort by falling key. */
  function SortDown<T>(xs: seq<T>, key: T -> int): (r: seq<T>)
    ensures |r| == |xs|
  {
    if xs == [] then [] else Place(xs[0], SortDown(xs[1..], key), key)
  }

  /** Puts `x` in front of the first element that has no larger key. */
  function Place<T>(x: T, xs: seq<T>, key: T -> int): (r: seq<T>)
    ensures |r| == |xs| + 1
  {
    if xs == [] || key(x) >= key(xs[0]) then [x] + xs else [xs[0]] + Place(x, xs[1..], key)
  }

  ghost predicate Falling<T>(xs: seq<T>, key: T -> int) {
    forall i, j :: 0 <= i < j < |xs| ==> key(xs[i]) >= key(xs[j])
  }

  // ---------------------------------------------------------------- issues

  function Started(): Run -> int { (r: Run) => r.startedAt }

  function LastSeen(): Issue -> int { (i: Issue) => i.lastAt }

  function IssueFor(group: Group, saved: map<string, Saved>): (r: Issue)
    requires group.runs != []
    ensures r.sig == group.sig
  {
    var sorted := SortDown(group.runs, Started());
    var known := if group.sig in saved then saved[group.sig] else Saved(None, 0);
    var last := sorted[0].startedAt;
    var reopened := known.status == Some(RESOLVED) && known.resolvedAt != 0 && last > known.resolvedAt;
    Issue(group.sig, sorted, sorted[|sorted| - 1].startedAt, last,
          if reopened then OPEN else if known.status.Some? then known.status.value else OPEN, reopened)
  }

  function IssuesFor(groups: seq<Group>, saved: map<string, Saved>): (r: seq<Issue>)
    requires GroupsOk(groups)
    ensures |r| == |groups| && forall i :: 0 <= i < |r| ==> r[i] == IssueFor(groups[i], saved)
  {
    if groups == [] then []
    else
      assert GroupsOk(groups[1..]);
      [IssueFor(groups[0], saved)] + IssuesFor(groups[1..], saved)
  }

  predicate GroupsOk(groups: seq<Group>) { forall i :: 0 <= i < |groups| ==> groups[i].runs != [] }

  function CollectIssues(runs: seq<Run>, saved: map<string, Saved>): seq<Issue> {
    GroupsAreNonEmpty(runs);
    SortDown(IssuesFor(GroupUp(runs), saved), LastSeen())
  }

  // ---------------------------------------------------------------- the groups

  /** The runs with a signature, in the order of the list. */
  function Select(runs: seq<Run>, sig: string): (r: seq<Run>)
    ensures forall x :: x in r <==> x in runs && HasSignature(x, sig)
  {
    if runs == [] then []
    else
      var last := |runs| - 1;
      assert runs == runs[..last] + [runs[last]];
      Select(runs[..last], sig) + if HasSignature(runs[last], sig) then [runs[last]] else []
  }

  /** The runs of the group with a signature, none if there is no such group. */
  function RunsOf(groups: seq<Group>, sig: string): seq<Run> {
    if groups == [] then [] else if groups[0].sig == sig then groups[0].runs else RunsOf(groups[1..], sig)
  }

  function Signatures(groups: seq<Group>): set<string> {
    if groups == [] then {} else {groups[0].sig} + Signatures(groups[1..])
  }

  predicate DistinctSignatures(groups: seq<Group>) {
    groups == [] || (groups[0].sig !in Signatures(groups[1..]) && DistinctSignatures(groups[1..]))
  }

  predicate AllFilled(groups: seq<Group>) { groups == [] || (groups[0].runs != [] && AllFilled(groups[1..])) }

  lemma {:induction false} AllFilledIsOk(groups: seq<Group>)
    ensures AllFilled(groups) <==> GroupsOk(groups)
  {
    if groups != [] {
      AllFilledIsOk(groups[1..]);
      if GroupsOk(groups[1..]) && groups[0].runs != [] {
        forall i | 0 <= i < |groups| ensures groups[i].runs != [] {
          if i > 0 { assert groups[1..][i - 1] == groups[i]; }
        }
      }
    }
  }

  lemma {:induction false} AddToKeeps(groups: seq<Group>, r: Run, sig: string)
    requires Counts(r)
    ensures AllFilled(groups) ==> AllFilled(AddTo(groups, r))
    ensures Signatures(AddTo(groups, r)) == Signatures(groups) + {Signature(r)}
    ensures DistinctSignatures(groups) ==> DistinctSignatures(AddTo(groups, r))
    ensures RunsOf(AddTo(groups, r), sig) == RunsOf(groups, sig) + if Signature(r) == sig then [r] else []
  {
    if groups != [] && groups[0].sig != Signature(r) { AddToKeeps(groups[1..], r, sig); }
  }

  /** The group of a signature holds exactly the failed runs that have it, in the order of the list. */
  lemma {:induction false} GroupIsSelection(runs: seq<Run>, sig: string)
    ensures AllFilled(GroupUp(runs)) && DistinctSignatures(GroupUp(runs))
    ensures RunsOf(GroupUp(runs), sig) == Select(runs, sig)
  {
    if runs != [] {
      var last := |runs| - 1;
      GroupIsSelection(runs[..last], sig);
      if Counts(runs[last]) { AddToKeeps(GroupUp(runs[..last]), runs[last], sig); }
    }
  }

  lemma GroupsAreNonEmpty(runs: seq<Run>)
    ensures GroupsOk(GroupUp(runs))
  {
    GroupIsSelection(runs, "");
    AllFilledIsOk(GroupUp(runs));
  }

  lemma {:induction false} RunsAt(groups: seq<Group>, i: nat)
    requires DistinctSignatures(groups) && i < |groups|
    ensures RunsOf(groups, groups[i].sig) == groups[i].runs && groups[i].sig in Signatures(groups)
    ensures forall j :: 0 <= j < |groups| && groups[j].sig == groups[i].sig ==> j == i
  {
    if i > 0 {
      RunsAt(groups[1..], i - 1);
    } else {
      forall j | 0 < j < |groups| ensures groups[j].sig != groups[0].sig {
        RunsAt(groups[1..], j - 1);
      }
    }
  }

  lemma {:induction false} GroupWith(groups: seq<Group>, sig: string) returns (i: nat)
    requires RunsOf(groups, sig) != []
    ensures i < |groups| && groups[i].sig == sig
  {
    if groups[0].sig == sig {
      i := 0;
    } else {
      i := GroupWith(groups[1..], sig);
      i := i + 1;
    }
  }

  // ---------------------------------------------------------------- sorting is a permutation

  lemma {:induction false} PlaceKeeps<T>(x: T, xs: seq<T>, key: T -> int)
    ensures multiset(Place(x, xs, key)) == multiset{x} + multiset(xs)
  {
    if xs != [] && key(x) < key(xs[0]) {
      PlaceKeeps(x, xs[1..], key);
      assert xs == [xs[0]] + xs[1..];
    }
  }

  /** Each element has at least the key of the next. */
  predicate Chain<T>(xs: seq<T>, key: T -> int) {
    |xs| < 2 || (key(xs[0]) >= key(xs[1]) && Chain(xs[1..], key))
  }

  lemma {:induction false} ChainAt<T>(xs: seq<T>, key: T -> int, i: nat, j: nat)
    requires Chain(xs, key) && i <= j < |xs|
    ensures key(xs[i]) >= key(xs[j])
  {
    if i > 0 {
      ChainAt(xs[1..], key, i - 1, j - 1);
    } else if j > 0 {
      ChainAt(xs[1..], key, 0, j - 1);
    }
  }

  lemma {:induction false} PlaceChain<T>(x: T, xs: seq<T>, key: T -> int)
    requires Chain(xs, key)
    ensures Chain(Place(x, xs, key), key)
  {
    if xs == [] || key(x) >= key(xs[0]) {
      assert ([x] + xs)[1..] == xs;
    } else {
      PlaceChain(x, xs[1..], key);
      assert Place(x, xs, key)[1..] == Place(x, xs[1..], key);
    }
  }

  lemma {:induction false} SortChain<T>(xs: seq<T>, key: T -> int)
    ensures Chain(SortDown(xs, key), key)
  {
    if xs != [] {
      SortChain(xs[1..], key);
      PlaceChain(xs[0], SortDown(xs[1..], key), key);
    }
  }

  lemma {:induction false} SortPermutes<T>(xs: seq<T>, key: T -> int)
    ensures multiset(SortDown(xs, key)) == multiset(xs)
  {
    if xs != [] {
      SortPermutes(xs[1..], key);
      PlaceKeeps(xs[0], SortDown(xs[1..], key), key);
      assert xs == [xs[0]] + xs[1..];
    }
  }

  lemma SortKeeps<T>(xs: seq<T>, key: T -> int)
    ensures multiset(SortDown(xs, key)) == multiset(xs) && Falling(SortDown(xs, key), key)
  {
    SortPermutes(xs, key);
    SortChain(xs, key);
    var r := SortDown(xs, key);
    forall i, j | 0 <= i < j < |r| ensures key(r[i]) >= key(r[j]) {
      ChainAt(r, key, i, j);
    }
  }

  lemma SortHas<T>(xs: seq<T>, key: T -> int, x: T)
    ensures x in SortDown(xs, key) <==> x in xs
  {
    SortKeeps(xs, key);
    assert x in SortDown(xs, key) <==> x in multiset(SortDown(xs, key));
  }

  // ---------------------------------------------------------------- what the issues say

  /** Each issue is the issue of the failed runs that have its signature, and there is one for each
      signature that a failed run has. */
  lemma IssuesAreSelections(runs: seq<Run>, saved: map<string, Saved>, issue: Issue)
    ensures issue in CollectIssues(runs, saved) <==>
              Select(runs, issue.sig) != [] && issue == IssueFor(Group(issue.sig, Select(runs, issue.sig)), saved)
  {
    var groups := GroupUp(runs);
    GroupsAreNonEmpty(runs);
    var issues := IssuesFor(groups, saved);
    SortHas(issues, LastSeen(), issue);
    GroupIsSelection(runs, issue.sig);
    if issue in issues {
      var i :| 0 <= i < |issues| && issues[i] == issue;
      RunsAt(groups, i);
      assert groups[i] == Group(issue.sig, Select(runs, issue.sig));
    }
    if Select(runs, issue.sig) != [] && issue == IssueFor(Group(issue.sig, Select(runs, issue.sig)), saved) {
      var i := GroupWith(groups, issue.sig);
      RunsAt(groups, i);
      assert groups[i] == Group(issue.sig, Select(runs, issue.sig));
      assert issues[i] == issue;
    }
  }

  /** A run lands in an issue if and only if it failed with the signature of the issue. */
  lemma RunInIssue(runs: seq<Run>, saved: map<string, Saved>, issue: Issue, r: Run)
    requires issue in CollectIssues(runs, saved)
    ensures r in issue.runs <==> r in runs && HasSignature(r, issue.sig)
  {
    IssuesAreSelections(runs, saved, issue);
    SortHas(Select(runs, issue.sig), Started(), r);
  }

  /** Every run that counts lands in exactly one issue. */
  lemma ExactlyOneIssue(runs: seq<Run>, saved: map<string, Saved>, r: Run) returns (home: Issue)
    requires r in runs && Counts(r)
    ensures home in CollectIssues(runs, saved) && r in home.runs
    ensures forall i :: i in CollectIssues(runs, saved) && r in i.runs ==> i == home
  {
    var sig := Signature(r);
    home := IssueFor(Group(sig, Select(runs, sig)), saved);
    IssuesAreSelections(runs, saved, home);
    SortHas(Select(runs, sig), Started(), r);
    forall i | i in CollectIssues(runs, saved) && r in i.runs
      ensures i == home
    {
      RunInIssue(runs, saved, i, r);
      IssuesAreSelections(runs, saved, i);
    }
  }

  function Failures(runs: seq<Run>): seq<Run> {
    if runs == [] then []
    else
      var last := |runs| - 1;
      Failures(runs[..last]) + if Counts(runs[last]) then [runs[last]] else []
  }

  function Members(groups: seq<Group>): multiset<Run> {
    if groups == [] then multiset{} else multiset(groups[0].runs) + Members(groups[1..])
  }

  /** All the runs of all the issues, each as often as it occurs. */
  function MembersOf(issues: seq<Issue>): multiset<Run> {
    if issues == [] then multiset{} else multiset(issues[0].runs) + MembersOf(issues[1..])
  }

  function Sizes(issues: seq<Issue>): nat {
    if issues == [] then 0 else |issues[0].runs| + Sizes(issues[1..])
  }

  lemma {:induction false} AddToMembers(groups: seq<Group>, r: Run)
    requires Counts(r)
    ensures Members(AddTo(groups, r)) == Members(groups) + multiset{r}
  {
    if groups != [] && groups[0].sig != Signature(r) {
      AddToMembers(groups[1..], r);
    }
  }

  lemma {:induction false} GroupMembers(runs: seq<Run>)
    ensures Members(GroupUp(runs)) == multiset(Failures(runs))
  {
    if runs != [] {
      var last := |runs| - 1;
      GroupMembers(runs[..last]);
      if Counts(runs[last]) { AddToMembers(GroupUp(runs[..last]), runs[last]); }
    }
  }

  lemma {:induction false} IssueMembers(groups: seq<Group>, saved: map<string, Saved>)
    requires GroupsOk(groups)
    ensures MembersOf(IssuesFor(groups, saved)) == Members(groups)
  {
    if groups != [] {
      assert GroupsOk(groups[1..]);
      var issues := IssuesFor(groups, saved);
      assert issues[1..] == IssuesFor(groups[1..], saved);
      IssueMembers(groups[1..], saved);
      SortKeeps(groups[0].runs, Started());
    }
  }

  lemma {:induction false} PlaceMembers(x: Issue, xs: seq<Issue>)
    ensures MembersOf(Place(x, xs, LastSeen())) == multiset(x.runs) + MembersOf(xs)
  {
    if xs == [] || LastSeen()(x) >= LastSeen()(xs[0]) {
      assert ([x] + xs)[1..] == xs;
    } else {
      PlaceMembers(x, xs[1..]);
      assert Place(x, xs, LastSeen())[1..] == Place(x, xs[1..], LastSeen());
    }
  }

  lemma {:induction false} SortMembers(xs: seq<Issue>)
    ensures MembersOf(SortDown(xs, LastSeen())) == MembersOf(xs)
  {
    if xs != [] {
      SortMembers(xs[1..]);
      PlaceMembers(xs[0], SortDown(xs[1..], LastSeen()));
    }
  }

  lemma {:induction false} SizesAreMembers(issues: seq<Issue>)
    ensures Sizes(issues) == |MembersOf(issues)|
  {
    if issues != [] { SizesAreMembers(issues[1..]); }
  }

  /** The issues hold the failed runs, none lost and none twice. */
  lemma IssuesPartition(runs: seq<Run>, saved: map<string, Saved>)
    ensures MembersOf(CollectIssues(runs, saved)) == multiset(Failures(runs))
    ensures Sizes(CollectIssues(runs, saved)) == |Failures(runs)|
  {
    GroupsAreNonEmpty(runs);
    GroupMembers(runs);
    IssueMembers(GroupUp(runs), saved);
    SortMembers(IssuesFor(GroupUp(runs), saved));
    SizesAreMembers(CollectIssues(runs, saved));
  }

  lemma EndsBound(sorted: seq<Run>)
    requires Chain(sorted, Started()) && sorted != []
    ensures forall r :: r in sorted ==> sorted[|sorted| - 1].startedAt <= r.startedAt <= sorted[0].startedAt
    ensures sorted[0] in sorted && sorted[|sorted| - 1] in sorted
  {
    forall i | 0 <= i < |sorted|
      ensures sorted[|sorted| - 1].startedAt <= sorted[i].startedAt <= sorted[0].startedAt
    {
      ChainAt(sorted, Started(), 0, i);
      ChainAt(sorted, Started(), i, |sorted| - 1);
    }
  }

  /** The first and the last time bound the start times of the group and are taken in it. */
  lemma TimesBound(runs: seq<Run>, saved: map<string, Saved>, issue: Issue)
    requires issue in CollectIssues(runs, saved)
    ensures forall r :: r in issue.runs ==> issue.firstAt <= r.startedAt <= issue.lastAt
    ensures exists r :: r in issue.runs && r.startedAt == issue.firstAt
    ensures exists r :: r in issue.runs && r.startedAt == issue.lastAt
  {
    IssuesAreSelections(runs, saved, issue);
    SortChain(Select(runs, issue.sig), Started());
    EndsBound(issue.runs);
  }

  /** A resolution that has a time. */
  predicate ResolvedIn(saved: map<string, Saved>, sig: string) {
    sig in saved && saved[sig].status == Some(RESOLVED) && saved[sig].resolvedAt != 0
  }

  function RecordedStatus(saved: map<string, Saved>, sig: string): string {
    if sig in saved && saved[sig].status.Some? then saved[sig].status.value else OPEN
  }

  /** An issue is reopened if and only if it was resolved and a run failed with its signature after
      that. A reopened issue is open, any other has the status that was recorded. */
  lemma ReopenedExactly(runs: seq<Run>, saved: map<string, Saved>, issue: Issue)
    requires issue in CollectIssues(runs, saved)
    ensures issue.reopened <==>
              ResolvedIn(saved, issue.sig)
              && exists r :: r in runs && HasSignature(r, issue.sig) && r.startedAt > saved[issue.sig].resolvedAt
    ensures issue.status == if issue.reopened then OPEN else RecordedStatus(saved, issue.sig)
  {
    IssuesAreSelections(runs, saved, issue);
    TimesBound(runs, saved, issue);
    if issue.reopened {
      var r :| r in issue.runs && r.startedAt == issue.lastAt;
      RunInIssue(runs, saved, issue, r);
      assert r in runs && HasSignature(r, issue.sig);
    }
    if ResolvedIn(saved, issue.sig) {
      forall r | r in runs && HasSignature(r, issue.sig) && r.startedAt > saved[issue.sig].resolvedAt
        ensures issue.reopened
      {
        RunInIssue(runs, saved, issue, r);
      }
    }
  }

  /** The issue that was seen last comes first. */
  lemma LatestFirst(runs: seq<Run>, saved: map<string, Saved>, i: nat, j: nat)
    requires i < j < |CollectIssues(runs, saved)|
    ensures CollectIssues(runs, saved)[i].lastAt >= CollectIssues(runs, saved)[j].lastAt
  {
    GroupsAreNonEmpty(runs);
    var issues := IssuesFor(GroupUp(runs), saved);
    SortKeeps(issues, LastSeen());
    var sorted := SortDown(issues, LastSeen());
    assert LastSeen()(sorted[i]) >= LastSeen()(sorted[j]);
  }

  lemma {:induction false} SelectConcat(a: seq<Run>, b: seq<Run>, sig: string)
    ensures Select(a + b, sig) == Select(a, sig) + Select(b, sig)
  {
    if b == [] {
      assert a + b == a;
    } else {
      assert (a + b)[..|a + b| - 1] == a + b[..|b| - 1];
      SelectConcat(a, b[..|b| - 1], sig);
    }
  }

  lemma SelectWithout(a: seq<Run>, r: Run, b: seq<Run>, sig: string)
    requires !HasSignature(r, sig)
    ensures Select(a + [r] + b, sig) == Select(a + b, sig)
  {
    SelectConcat(a, b, sig);
    SelectConcat(a + [r], b, sig);
    assert (a + [r])[..|a|] == a;
    assert Select(a + [r], sig) == Select(a, sig);
  }

  /** A further run, wherever it is put, changes no issue but the one of its own signature. */
  lemma OtherIssuesUnchanged(a: seq<Run>, r: Run, b: seq<Run>, saved: map<string, Saved>, issue: Issue)
    requires !HasSignature(r, issue.sig)
    ensures issue in CollectIssues(a + [r] + b, saved) <==> issue in CollectIssues(a + b, saved)
  {
    IssuesAreSelections(a + b, saved, issue);
    IssuesAreSelections(a + [r] + b, saved, issue);
    SelectWithout(a, r, b, issue.sig);
  }
}
