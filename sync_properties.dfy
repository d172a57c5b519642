/** What the sync rule guarantees, proved about its specification functions
    `IssueSync.ProcessFrom` and `IssueSync.Sync`. */
module SyncProperties {
  import opened Wrappers
  import opened Statuses
  import opened Responses
  import opened StatusLookup
  import opened IssueSync

  /** Some visit of issue m from position i on made an assignee call that did
      not raise (or needed none). */
  predicate ReplacedFrom(numbers: seq<int>, faults: seq<Fault>, i: nat, m: int)
    requires |numbers| == |faults|
  {
    exists j :: i <= j < |numbers| && numbers[j] == m && !faults[j].assigneeCallFails
  }

  /** Issue n is closed and the selection for `target` is the last one sent for its item. */
  predicate Settled(r: Remote, project: Project, target: Status, n: int)
  {
    && n != 0 && n in r.issues && !r.issues[n].open
    && n in project.itemOf && project.itemOf[n] in r.values
    && Lookup(project.fields, target) == Some(r.values[project.itemOf[n]])
  }

  /** A run changes only the linked issues and their items, and it writes no
      selection other than the one for the plan's status. */
  lemma {:induction false} ProcessWrites(r: Remote, project: Project, plan: Plan, numbers: seq<int>, faults: seq<Fault>, i: nat)
    requires i <= |numbers| == |faults| && Fetched(r, numbers)
    ensures var res := ProcessFrom(r, project, plan, numbers, faults, i).remote;
      && r.values.Keys <= res.values.Keys
      && (forall x :: x in res.values ==>
            (x in r.values && res.values[x] == r.values[x]) || Lookup(project.fields, plan.target) == Some(res.values[x]))
      && (forall m :: m in r.issues && m !in numbers[i..] ==> res.issues[m] == r.issues[m])
      && (forall x :: x in r.values && (forall j :: i <= j < |numbers| && numbers[j] in project.itemOf ==> project.itemOf[numbers[j]] != x)
            ==> res.values[x] == r.values[x])
    decreases |numbers| - i
  {
    if i < |numbers| {
      assert numbers[i..] == [numbers[i]] + numbers[i + 1..];
      var s := Step(r, project, plan, numbers[i], faults[i]);
      if s.outcome.Pass? {
        ProcessWrites(s.remote, project, plan, numbers, faults, i + 1);
      }
    }
  }

  /** A run that completes has written, on the item of every linked issue, the
      selection for the plan's status; so every linked number was truthy, had
      a project item, and the lookup succeeded. */
  lemma {:induction false} ProcessPassWritesStatus(r: Remote, project: Project, plan: Plan, numbers: seq<int>, faults: seq<Fault>, i: nat)
    requires i <= |numbers| == |faults| && Fetched(r, numbers)
    requires ProcessFrom(r, project, plan, numbers, faults, i).outcome == Pass
    ensures var res := ProcessFrom(r, project, plan, numbers, faults, i).remote;
      forall j :: i <= j < |numbers| ==>
        && numbers[j] != 0 && numbers[j] in project.itemOf
        && project.itemOf[numbers[j]] in res.values
        && Lookup(project.fields, plan.target) == Some(res.values[project.itemOf[numbers[j]]])
    decreases |numbers| - i
  {
    if i < |numbers| {
      var s := Step(r, project, plan, numbers[i], faults[i]);
      var issue := ApplyAction(r.issues[numbers[i]], plan.action, faults[i]).value;
      assert StatusWrite(r.issues[numbers[i] := issue], project, plan.target, Some(numbers[i]), None).Ok?;
      ProcessPassWritesStatus(s.remote, project, plan, numbers, faults, i + 1);
      ProcessWrites(s.remote, project, plan, numbers, faults, i + 1);
    }
  }

  /** Under a closing plan no issue is reopened and no assignee changes; a run
      that completes leaves every linked issue closed. */
  lemma {:induction false} ProcessClosesLinked(r: Remote, project: Project, plan: Plan, numbers: seq<int>, faults: seq<Fault>, i: nat)
    requires i <= |numbers| == |faults| && Fetched(r, numbers)
    requires plan.action == Close
    ensures var run := ProcessFrom(r, project, plan, numbers, faults, i);
      && (forall m :: m in r.issues ==> run.remote.issues[m].assignees == r.issues[m].assignees)
      && (forall m :: m in r.issues && !r.issues[m].open ==> !run.remote.issues[m].open)
      && (run.outcome == Pass ==> forall j :: i <= j < |numbers| ==> !run.remote.issues[numbers[j]].open)
    decreases |numbers| - i
  {
    if i < |numbers| {
      var s := Step(r, project, plan, numbers[i], faults[i]);
      if s.outcome.Pass? {
        ProcessClosesLinked(s.remote, project, plan, numbers, faults, i + 1);
      }
    }
  }

  /** Under a non-closing plan every issue keeps its open/closed state, and a
      run that completes leaves each issue's assignees replaced exactly when
      one of its visits made a call that did not raise. */
  lemma {:induction false} ProcessAssignees(r: Remote, project: Project, plan: Plan, numbers: seq<int>, faults: seq<Fault>, i: nat)
    requires i <= |numbers| == |faults| && Fetched(r, numbers)
    requires plan.action != Close
    ensures var run := ProcessFrom(r, project, plan, numbers, faults, i);
      && (forall m :: m in r.issues ==> run.remote.issues[m].open == r.issues[m].open)
      && (run.outcome == Pass ==> forall m :: m in r.issues ==>
            run.remote.issues[m].assignees ==
              if ReplacedFrom(numbers, faults, i, m) then Replacement(plan.action) else r.issues[m].assignees)
    decreases |numbers| - i
  {
    if i < |numbers| {
      var s := Step(r, project, plan, numbers[i], faults[i]);
      if s.outcome.Pass? {
        ProcessAssignees(s.remote, project, plan, numbers, faults, i + 1);
        forall m | m in r.issues
          ensures ReplacedFrom(numbers, faults, i, m) <==>
                  (m == numbers[i] && !faults[i].assigneeCallFails) || ReplacedFrom(numbers, faults, i + 1, m)
        {
          if ReplacedFrom(numbers, faults, i, m) {
            var j :| i <= j < |numbers| && numbers[j] == m && !faults[j].assigneeCallFails;
            if j > i {
              assert ReplacedFrom(numbers, faults, i + 1, m);
            }
          }
        }
      }
    }
  }

  /** A run whose assignee calls may raise, but whose status writes all succeed
      and whose close calls (if any) do not raise, always completes. */
  lemma {:induction false} ProcessCompletes(r: Remote, project: Project, plan: Plan, numbers: seq<int>, faults: seq<Fault>, i: nat)
    requires i <= |numbers| == |faults| && Fetched(r, numbers)
    requires Lookup(project.fields, plan.target).Some?
    requires forall j :: i <= j < |numbers| ==> numbers[j] != 0 && numbers[j] in project.itemOf
    requires plan.action == Close ==> forall j :: i <= j < |numbers| ==> !faults[j].closeFails
    ensures ProcessFrom(r, project, plan, numbers, faults, i).outcome == Pass
    decreases |numbers| - i
  {
    if i < |numbers| {
      var s := Step(r, project, plan, numbers[i], faults[i]);
      assert s.outcome == Pass;
      ProcessCompletes(s.remote, project, plan, numbers, faults, i + 1);
    }
  }

  /** A closing run over issues that are already settled changes nothing,
      whatever the calls would have done. */
  lemma {:induction false} ProcessSettledIsNoOp(r: Remote, project: Project, plan: Plan, numbers: seq<int>, faults: seq<Fault>, i: nat)
    requires i <= |numbers| == |faults| && Fetched(r, numbers)
    requires plan.action == Close
    requires forall j :: i <= j < |numbers| ==> Settled(r, project, plan.target, numbers[j])
    ensures ProcessFrom(r, project, plan, numbers, faults, i) == RunResult(r, Pass)
    decreases |numbers| - i
  {
    if i < |numbers| {
      var n := numbers[i];
      assert r.issues[n := r.issues[n]] == r.issues;
      assert r.values[project.itemOf[n] := r.values[project.itemOf[n]]] == r.values;
      ProcessSettledIsNoOp(r, project, plan, numbers, faults, i + 1);
    }
  }

  /** A merged pull request: when the run completes, every linked issue is
      closed and its item holds the "Done" selection; no assignee changes. */
  lemma SyncMergedClosesAndMarksDone(r: Remote, project: Project, pr: PullRequest, edges: seq<Edge>, faults: seq<Fault>)
    requires |faults| == |LinkedIssues(edges)|
    requires pr.merged
    requires Sync(r, project, pr, edges, faults).outcome == Pass
    ensures var res := Sync(r, project, pr, edges, faults).remote;
      var numbers := Numbers(LinkedIssues(edges));
      && (forall j :: 0 <= j < |numbers| ==> Settled(res, project, Done, numbers[j]))
      && (forall m :: m in r.issues ==> res.issues[m].assignees == r.issues[m].assignees)
  {
    var numbers := Numbers(LinkedIssues(edges));
    ProcessPassWritesStatus(r, project, Decide(pr), numbers, faults, 0);
    ProcessClosesLinked(r, project, Decide(pr), numbers, faults, 0);
  }

  /** Running the merged branch again, with any faults, changes nothing. */
  lemma SyncMergedIdempotent(r: Remote, project: Project, pr: PullRequest, edges: seq<Edge>,
                             faults: seq<Fault>, faults2: seq<Fault>)
    requires |faults| == |faults2| == |LinkedIssues(edges)|
    requires pr.merged
    requires Sync(r, project, pr, edges, faults).outcome == Pass
    ensures var once := Sync(r, project, pr, edges, faults);
      Sync(once.remote, project, pr, edges, faults2) == once
  {
    var numbers := Numbers(LinkedIssues(edges));
    var once := Sync(r, project, pr, edges, faults);
    SyncMergedClosesAndMarksDone(r, project, pr, edges, faults);
    ProcessSettledIsNoOp(once.remote, project, Decide(pr), numbers, faults2, 0);
  }

  /** A pull request closed without merging: when the run completes, every
      linked issue's item holds the "Selected for Development" selection, no
      issue is opened or closed, and an issue's assignees are cleared exactly
      when one of its removal calls did not raise. */
  lemma SyncClosedClearsAssignees(r: Remote, project: Project, pr: PullRequest, edges: seq<Edge>, faults: seq<Fault>)
    requires |faults| == |LinkedIssues(edges)|
    requires !pr.merged && pr.state == Closed
    requires Sync(r, project, pr, edges, faults).outcome == Pass
    ensures var res := Sync(r, project, pr, edges, faults).remote;
      var numbers := Numbers(LinkedIssues(edges));
      && (forall j :: 0 <= j < |numbers| ==>
            numbers[j] in project.itemOf && project.itemOf[numbers[j]] in res.values &&
            Lookup(project.fields, SelectedForDevelopment) == Some(res.values[project.itemOf[numbers[j]]]))
      && (forall m :: m in r.issues ==> res.issues[m].open == r.issues[m].open)
      && (forall m :: m in r.issues ==>
            res.issues[m].assignees == if ReplacedFrom(numbers, faults, 0, m) then {} else r.issues[m].assignees)
  {
    var numbers := Numbers(LinkedIssues(edges));
    ProcessPassWritesStatus(r, project, Decide(pr), numbers, faults, 0);
    ProcessAssignees(r, project, Decide(pr), numbers, faults, 0);
  }

  /** An open pull request: when the run completes, every linked issue's item
      holds the selection for "In Development" if the pull request is a draft
      and "Ready For Review" otherwise, and an issue's assignees become the
      target logins exactly when one of its calls did not raise (an issue that
      already has them needs no call). */
  lemma SyncOpenAssigns(r: Remote, project: Project, pr: PullRequest, edges: seq<Edge>, faults: seq<Fault>)
    requires |faults| == |LinkedIssues(edges)|
    requires !pr.merged && pr.state == Open
    requires Sync(r, project, pr, edges, faults).outcome == Pass
    ensures var res := Sync(r, project, pr, edges, faults).remote;
      var numbers := Numbers(LinkedIssues(edges));
      var target := if pr.draft then InDevelopment else ReadyForReview;
      && (forall j :: 0 <= j < |numbers| ==>
            numbers[j] in project.itemOf && project.itemOf[numbers[j]] in res.values &&
            Lookup(project.fields, target) == Some(res.values[project.itemOf[numbers[j]]]))
      && (forall m :: m in r.issues ==> res.issues[m].open == r.issues[m].open)
      && (forall m :: m in r.issues ==>
            res.issues[m].assignees ==
              if ReplacedFrom(numbers, faults, 0, m) then Elems(TargetAssignees(pr)) else r.issues[m].assignees)
  {
    var numbers := Numbers(LinkedIssues(edges));
    ProcessPassWritesStatus(r, project, Decide(pr), numbers, faults, 0);
    ProcessAssignees(r, project, Decide(pr), numbers, faults, 0);
  }

  /** For a pull request that is not merged, raising assignee calls never stop
      the run: when every linked issue exists, has a truthy number and a
      project item, and the status lookup succeeds, the run completes. */
  lemma SyncToleratesAssigneeFailures(r: Remote, project: Project, pr: PullRequest, edges: seq<Edge>, faults: seq<Fault>)
    requires |faults| == |LinkedIssues(edges)|
    requires !pr.merged
    requires Lookup(project.fields, Decide(pr).target).Some?
    requires forall j :: 0 <= j < |LinkedIssues(edges)| ==>
      var n := LinkedIssues(edges)[j].number; n != 0 && n in r.issues && n in project.itemOf
    ensures Sync(r, project, pr, edges, faults).outcome == Pass
  {
    var numbers := Numbers(LinkedIssues(edges));
    assert Fetched(r, numbers);
    ProcessCompletes(r, project, Decide(pr), numbers, faults, 0);
  }

  /** A merged pull request's run completes when no close call raises, the
      project has a "Done" option, and every linked number is truthy, is an
      issue and has a project item. */
  lemma SyncMergedCompletes(r: Remote, project: Project, pr: PullRequest, edges: seq<Edge>, faults: seq<Fault>)
    requires |faults| == |LinkedIssues(edges)|
    requires pr.merged
    requires forall j :: 0 <= j < |faults| ==> !faults[j].closeFails
    requires Lookup(project.fields, Done).Some?
    requires forall j :: 0 <= j < |LinkedIssues(edges)| ==>
      var n := LinkedIssues(edges)[j].number; n != 0 && n in r.issues && n in project.itemOf
    ensures Sync(r, project, pr, edges, faults).outcome == Pass
  {
    var numbers := Numbers(LinkedIssues(edges));
    assert Fetched(r, numbers);
    ProcessCompletes(r, project, Decide(pr), numbers, faults, 0);
  }

  /** Whatever the pull request, a run touches only the linked issues and
      their items, and writes only the selection for the branch's status. */
  lemma SyncFrame(r: Remote, project: Project, pr: PullRequest, edges: seq<Edge>, faults: seq<Fault>)
    requires |faults| == |LinkedIssues(edges)|
    ensures var res := Sync(r, project, pr, edges, faults).remote;
      var numbers := Numbers(LinkedIssues(edges));
      && (forall m :: m in r.issues && m !in numbers ==> res.issues[m] == r.issues[m])
      && (forall x :: x in r.values && (forall j :: 0 <= j < |numbers| && numbers[j] in project.itemOf ==> project.itemOf[numbers[j]] != x)
            ==> x in res.values && res.values[x] == r.values[x])
      && (forall x :: x in res.values ==>
            (x in r.values && res.values[x] == r.values[x]) || Lookup(project.fields, Decide(pr).target) == Some(res.values[x]))
  {
    var numbers := Numbers(LinkedIssues(edges));
    if FirstMissingFrom(numbers, r.issues, 0).None? {
      assert numbers[0..] == numbers;
      ProcessWrites(r, project, Decide(pr), numbers, faults, 0);
    }
  }

  /** When the project has no option for the branch's status, the run raises
      at the first linked issue, after that issue's close or assignee call and
      before any status is written. */
  lemma SyncStopsAtFirstIssueWithoutStatusOption(r: Remote, project: Project, pr: PullRequest, edges: seq<Edge>, faults: seq<Fault>)
    requires |faults| == |LinkedIssues(edges)|
    requires Lookup(project.fields, Decide(pr).target).None?
    requires forall j :: 0 <= j < |LinkedIssues(edges)| ==> LinkedIssues(edges)[j].number in r.issues
    requires LinkedIssues(edges) != []
    requires var n := LinkedIssues(edges)[0].number; n != 0 && n in project.itemOf
    requires ApplyAction(r.issues[LinkedIssues(edges)[0].number], Decide(pr).action, faults[0]).Some?
    ensures var run := Sync(r, project, pr, edges, faults);
      var n := LinkedIssues(edges)[0].number;
      && run.outcome == Fail(StatusNotFound(Decide(pr).target))
      && run.remote.values == r.values
      && run.remote.issues == r.issues[n := ApplyAction(r.issues[n], Decide(pr).action, faults[0]).value]
  {
  }

  /** `set_issue_status` rejects bad identifiers before it looks at any issue,
      item or field: the error does not depend on them. */
  lemma ArgumentCheckPrecedesLookups(issues: map<int, Issue>, project: Project,
                                     issues2: map<int, Issue>, project2: Project,
                                     status: Status, status2: Status,
                                     number: Option<int>, nodeId: Option<string>)
    requires CheckIdentifier(number, nodeId).Err?
    ensures StatusWrite(issues, project, status, number, nodeId)
         == StatusWrite(issues2, project2, status2, number, nodeId)
         == Err(InvalidArguments(CheckIdentifier(number, nodeId).error))
  {
  }

  /** Issue number 0 is falsy: alone it is rejected as missing, but beside a
      node id it passes the check and is used as the number. */
  lemma IssueNumberZero(nodeId: string)
    requires nodeId != ""
    ensures CheckIdentifier(Some(0), None) == Err(NeitherGiven)
    ensures CheckIdentifier(Some(0), Some(nodeId)) == Ok(ByNumber(0))
  {
  }
}
