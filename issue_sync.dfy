/** `ProjectItemHandler`: the rule that brings the issues a pull request
    closes in line with the pull request's state, and the status write it
    performs for each of them. GitHub is modelled as the state this handler
    reads and changes: the repository's issues and the status values stored
    on the project's items. */
module IssueSync {
  import opened Wrappers
  import opened Statuses
  import opened Responses
  import opened StatusLookup

  /** `pr.state`: GitHub reports "open" or "closed". */
  datatype PrState = Open | Closed

  /** The pull-request snapshot the rule reads. */
  datatype PullRequest = PullRequest(
    merged: bool,
    state: PrState,
    draft: bool,
    assignees: seq<string>,  // logins of the pull request's assignees
    author: string)          // `pr.user.login`

  /** The part of an issue object that the rule reads and edits. */
  datatype Issue = Issue(open: bool, assignees: set<string>)

  /** Whether the calls made for one linked issue raise: closing the issue,
      and the assignee call (`remove_from_assignees` or `edit(assignees=...)`). */
  datatype Fault = Fault(closeFails: bool, assigneeCallFails: bool)

  /** What the rule does to an issue before writing its status. */
  datatype IssueAction =
    | Close                          // close the issue if it is open
    | ClearAssignees                 // remove every assignee
    | Assign(logins: seq<string>)    // replace the assignees with these logins

  /** The branch the rule takes for a pull request. */
  datatype Plan = Plan(target: Status, action: IssueAction)

  /** What the server answers for the project: its single-select fields (the
      cached result of `get_project_fields`), and for each issue number the id
      of the first project item that `get_issue_info` returns for the issue. */
  datatype Project = Project(fields: seq<ProjectField>, itemOf: map<int, string>)

  /** The server state the handler changes: issues by number, and, by item id,
      the status selection last sent for each project item. The answer to the
      mutation is never inspected, so a write the server refuses is recorded
      here all the same. */
  datatype Remote = Remote(issues: map<int, Issue>, values: map<string, Selection>)

  /** The two ValueErrors of `set_issue_status`'s argument check. */
  datatype ArgError = NeitherGiven | BothGiven

  /** Where `set_issue_status` writes: the item of an issue number, or the
      given node id used directly as the item id. */
  datatype Target = ByNumber(number: int) | ByItem(itemId: string)

  /** The exceptions that end a call. */
  datatype SyncError =
    | InvalidArguments(reason: ArgError)  // ValueError from the argument check
    | IssueNotFound(number: int)          // `repo.get_issue` raised
    | NoProjectItem(number: int)          // the issue has no project item: `[0]` raised
    | StatusNotFound(status: Status)      // ValueError from `get_status_field_id`
    | CloseFailed(number: int)            // `edit(state="closed")` raised

  /** A run's final server state and how it ended. */
  datatype RunResult = RunResult(remote: Remote, outcome: Outcome<SyncError>)

  /** Truthiness of `issue_number`: `None` and 0 are false. */
  predicate NumberGiven(number: Option<int>)
  {
    number.Some? && number.value != 0
  }

  /** The argument check of `set_issue_status`. It rejects the call unless
      exactly one identifier is truthy; the branch it then takes tests the
      number against `None` only, so a number 0 passed with a node id is used
      as a number and the node id is ignored. */
  function CheckIdentifier(number: Option<int>, nodeId: Option<string>): (r: Result<Target, ArgError>)
    ensures r == Err(NeitherGiven) <==> !NumberGiven(number) && !Truthy(nodeId)
    ensures r == Err(BothGiven) <==> NumberGiven(number) && Truthy(nodeId)
    ensures r.Ok? ==> (r.value.ByNumber? <==> number.Some?)
    ensures r.Ok? && r.value.ByNumber? ==> r.value.number == number.value
    ensures r.Ok? && r.value.ByItem? ==> Truthy(nodeId) && r.value.itemId == nodeId.value
  {
    if !NumberGiven(number) && !Truthy(nodeId) then Err(NeitherGiven)
    else if NumberGiven(number) && Truthy(nodeId) then Err(BothGiven)
    else if number.Some? then Ok(ByNumber(number.value))
    else Ok(ByItem(nodeId.value))
  }

  /** The item a target names: an issue number goes through `get_issue`, then
      through the issue's first project item. */
  function ResolveItem(issues: map<int, Issue>, itemOf: map<int, string>, t: Target): (r: Result<string, SyncError>)
    ensures r.Err? <==> t.ByNumber? && (t.number !in issues || t.number !in itemOf)
    ensures r.Err? ==> r.error == if t.number !in issues then IssueNotFound(t.number) else NoProjectItem(t.number)
    ensures r.Ok? && t.ByNumber? ==> r.value == itemOf[t.number]
    ensures t.ByItem? ==> r == Ok(t.itemId)
  {
    match t
    case ByItem(id) => Ok(id)
    case ByNumber(n) =>
      if n !in issues then Err(IssueNotFound(n))
      else if n !in itemOf then Err(NoProjectItem(n))
      else Ok(itemOf[n])
  }

  /** What `set_issue_status` writes, and where: the argument check first, then
      the item, then the field and option lookup. */
  function StatusWrite(issues: map<int, Issue>, project: Project, status: Status,
                       number: Option<int>, nodeId: Option<string>): (r: Result<(string, Selection), SyncError>)
    ensures r.Ok? ==> Lookup(project.fields, status) == Some(r.value.1)
    ensures r.Ok? && number.Some? ==> number.value in issues && number.value in project.itemOf &&
                                      r.value.0 == project.itemOf[number.value]
    ensures r.Ok? && number.None? ==> nodeId.Some? && r.value.0 == nodeId.value
    ensures r.Ok? <==> CheckIdentifier(number, nodeId).Ok? &&
                       ResolveItem(issues, project.itemOf, CheckIdentifier(number, nodeId).value).Ok? &&
                       Lookup(project.fields, status).Some?
  {
    match CheckIdentifier(number, nodeId)
    case Err(e) => Err(InvalidArguments(e))
    case Ok(t) =>
      match ResolveItem(issues, project.itemOf, t)
      case Err(e) => Err(e)
      case Ok(item) =>
        match Lookup(project.fields, status)
        case None => Err(StatusNotFound(status))
        case Some(sel) => Ok((item, sel))
  }

  /** The logins a list holds, as a set. */
  function Elems(logins: seq<string>): set<string>
  {
    set x | x in logins
  }

  /** The assignees an open pull request hands to its issues: its own
      assignees, or its author alone when it has none. */
  function TargetAssignees(pr: PullRequest): (logins: seq<string>)
    ensures logins != []
    ensures Elems(logins) <= Elems(pr.assignees) + {pr.author}
    ensures pr.assignees != [] ==> logins == pr.assignees
    ensures pr.assignees == [] ==> Elems(logins) == {pr.author} && |logins| == 1
  {
    if pr.assignees == [] then [pr.author] else pr.assignees
  }

  /** The branch for a pull request, tested in the order merged, then closed,
      then open. */
  function Decide(pr: PullRequest): (p: Plan)
    ensures p.action == Close <==> pr.merged
    ensures p.target == Done <==> pr.merged
    ensures p.action == ClearAssignees <==> !pr.merged && pr.state == Closed
    ensures p.target == SelectedForDevelopment <==> !pr.merged && pr.state == Closed
    ensures p.target == InDevelopment <==> !pr.merged && pr.state == Open && pr.draft
    ensures p.target == ReadyForReview <==> !pr.merged && pr.state == Open && !pr.draft
    ensures p.action.Assign? ==> p.action.logins == TargetAssignees(pr)
  {
    if pr.merged then Plan(Done, Close)
    else if pr.state == Closed then Plan(SelectedForDevelopment, ClearAssignees)
    else
      assert pr.state == Open;
      Plan(if pr.draft then InDevelopment else ReadyForReview, Assign(TargetAssignees(pr)))
  }

  /** The assignee set an action leaves when its assignee call succeeds. */
  function Replacement(action: IssueAction): set<string>
    requires action != Close
  {
    if action == ClearAssignees then {} else Elems(action.logins)
  }

  /** An action's effect on one issue; `None` when the close call raises.
      A failing assignee call is swallowed and leaves the issue as it was. */
  function ApplyAction(issue: Issue, action: IssueAction, fault: Fault): (r: Option<Issue>)
    ensures r.None? <==> action == Close && issue.open && fault.closeFails
    ensures r.Some? ==> r.value.open == (issue.open && action != Close)
    ensures r.Some? && action == Close ==> r.value.assignees == issue.assignees
    ensures r.Some? && action != Close ==>
      r.value.assignees == if fault.assigneeCallFails then issue.assignees else Replacement(action)
    ensures action != Close && issue.assignees == Replacement(action) ==> r == Some(issue)
  {
    match action
    case Close =>
      if !issue.open then Some(issue)
      else if fault.closeFails then None
      else Some(issue.(open := false))
    case ClearAssignees =>
      if issue.assignees != {} && !fault.assigneeCallFails then Some(issue.(assignees := {}))
      else Some(issue)
    case Assign(logins) =>
      if issue.assignees != Elems(logins) && !fault.assigneeCallFails then Some(issue.(assignees := Elems(logins)))
      else Some(issue)
  }

  /** One iteration of the rule's loop: the action on issue n, then the status
      write for it. A raise ends the run with what was done so far. */
  function Step(r: Remote, project: Project, plan: Plan, n: int, fault: Fault): (res: RunResult)
    requires n in r.issues
    ensures res.remote.issues.Keys == r.issues.Keys
  {
    match ApplyAction(r.issues[n], plan.action, fault)
    case None => RunResult(r, Fail(CloseFailed(n)))
    case Some(issue) =>
      var issues := r.issues[n := issue];
      match StatusWrite(issues, project, plan.target, Some(n), None)
      case Err(e) => RunResult(Remote(issues, r.values), Fail(e))
      case Ok(w) => RunResult(Remote(issues, r.values[w.0 := w.1]), Pass)
  }

  /** Every linked number is an issue of the repository. */
  predicate Fetched(r: Remote, numbers: seq<int>)
  {
    forall j :: 0 <= j < |numbers| ==> numbers[j] in r.issues
  }

  /** The rule's loop over the linked issue numbers from position i on. */
  function ProcessFrom(r: Remote, project: Project, plan: Plan, numbers: seq<int>, faults: seq<Fault>, i: nat): (res: RunResult)
    requires i <= |numbers| == |faults|
    requires Fetched(r, numbers)
    ensures res.remote.issues.Keys == r.issues.Keys
    decreases |numbers| - i
  {
    if i == |numbers| then RunResult(r, Pass)
    else
      var s := Step(r, project, plan, numbers[i], faults[i]);
      if s.outcome.Fail? then s
      else ProcessFrom(s.remote, project, plan, numbers, faults, i + 1)
  }

  /** The numbers of the linked issues, in order. */
  function Numbers(linked: seq<IssueRef>): (numbers: seq<int>)
    ensures |numbers| == |linked|
  {
    seq(|linked|, j requires 0 <= j < |linked| => linked[j].number)
  }

  /** The first linked number, from position i on, that is not an issue of the
      repository: where the up-front `get_issue` calls raise. */
  function FirstMissingFrom(numbers: seq<int>, issues: map<int, Issue>, i: nat): (r: Option<int>)
    requires i <= |numbers|
    ensures r.None? <==> forall j :: i <= j < |numbers| ==> numbers[j] in issues
    ensures r.Some? ==> r.value !in issues
    ensures r.Some? ==> exists k :: i <= k < |numbers| && numbers[k] == r.value &&
                                    forall j :: i <= j < k ==> numbers[j] in issues
    decreases |numbers| - i
  {
    if i == |numbers| then None
    else if numbers[i] !in issues then Some(numbers[i])
    else FirstMissingFrom(numbers, issues, i + 1)
  }

  /** `sync_issue_status_with_pr` as a function of the server state: fetch
      every linked issue, then run the branch the pull request selects. */
  function Sync(r: Remote, project: Project, pr: PullRequest, edges: seq<Edge>, faults: seq<Fault>): (run: RunResult)
    requires |faults| == |LinkedIssues(edges)|
    ensures run.remote.issues.Keys == r.issues.Keys
    ensures FirstMissingFrom(Numbers(LinkedIssues(edges)), r.issues, 0).Some? ==>
      run.remote == r && run.outcome.Fail? && run.outcome.error.IssueNotFound?
  {
    var numbers := Numbers(LinkedIssues(edges));
    match FirstMissingFrom(numbers, r.issues, 0)
    case Some(n) => RunResult(r, Fail(IssueNotFound(n)))
    case None => ProcessFrom(r, project, Decide(pr), numbers, faults, 0)
  }

  /** The handler, holding the server state it acts on. */
  class ProjectItemHandler {
    const project: Project
    var issues: map<int, Issue>
    var values: map<string, Selection>

    function State(): Remote
      reads this
    {
      Remote(issues, values)
    }

    /** The field list is filtered once and kept, as the cache on
        `get_project_fields` does. */
    constructor (fieldNodes: seq<FieldNode>, itemOf: map<int, string>,
                 issues: map<int, Issue>, values: map<string, Selection>)
      ensures project == Project(ProjectFields(fieldNodes), itemOf)
      ensures State() == Remote(issues, values)
    {
      project := Project(ProjectFields(fieldNodes), itemOf);
      this.issues := issues;
      this.values := values;
    }

    /** `get_status_field_id`: scan the fields for "Status" and its option named
        after the status; raise when either id is missing or empty. */
    method GetStatusFieldId(status: Status) returns (r: Result<Selection, SyncError>)
      ensures r.Ok? <==> Lookup(project.fields, status).Some?
      ensures r.Ok? ==> r.value == Lookup(project.fields, status).value
      ensures r.Err? ==> r.error == StatusNotFound(status)
    {
      var fields := project.fields;
      var name := Name(status);
      var fieldId: Option<string> := None;
      var optionId: Option<string> := None;
      var i := 0;
      while i < |fields|
        invariant i <= |fields|
        invariant ScanFrom(fields, name, Scan(fieldId, optionId), i) == ScanFrom(fields, name, Scan(None, None), 0)
      {
        var field := fields[i];
        if field.name != StatusFieldName {
          i := i + 1;
          continue;
        }
        fieldId := Some(field.id);
        ghost var before := optionId;
        var k := 0;
        while k < |field.options|
          invariant k <= |field.options|
          invariant FirstMatchFrom(field.options, name, k) == FirstMatchFrom(field.options, name, 0)
          invariant optionId == before
        {
          if field.options[k].name == name {
            optionId := Some(field.options[k].id);
            break;
          }
          k := k + 1;
        }
        i := i + 1;
      }
      if !Truthy(fieldId) || !Truthy(optionId) {
        return Err(StatusNotFound(status));
      }
      r := Ok(Selection(fieldId.value, optionId.value));
    }

    /** `set_field_option`: the mutation that stores a selection on an item. */
    method SetFieldOption(itemId: string, sel: Selection)
      modifies this
      ensures issues == old(issues)
      ensures values == old(values)[itemId := sel]
    {
      values := values[itemId := sel];
    }

    /** `set_issue_status`: check the identifiers, find the item, look up the
        ids, then write. Every raise happens before the write. */
    method SetIssueStatus(status: Status, number: Option<int>, nodeId: Option<string>)
      returns (r: Outcome<SyncError>)
      modifies this
      ensures issues == old(issues)
      ensures match StatusWrite(old(issues), project, status, number, nodeId)
        case Ok(w) => r == Pass && values == old(values)[w.0 := w.1]
        case Err(e) => r == Fail(e) && values == old(values)
    {
      if !NumberGiven(number) && !Truthy(nodeId) {
        return Fail(InvalidArguments(NeitherGiven));
      }
      if NumberGiven(number) && Truthy(nodeId) {
        return Fail(InvalidArguments(BothGiven));
      }
      var itemId: string;
      if number.Some? {
        var n := number.value;
        if n !in issues {
          return Fail(IssueNotFound(n));
        }
        if n !in project.itemOf {
          return Fail(NoProjectItem(n));
        }
        itemId := project.itemOf[n];
      } else {
        itemId := nodeId.value;
      }
      var sel := GetStatusFieldId(status);
      if sel.Err? {
        return Fail(sel.error);
      }
      SetFieldOption(itemId, sel.value);
      r := Pass;
    }

    /** The per-issue calls of one branch: close, clear the assignees, or
        replace them. Only a failing close escapes (`ok` is false). */
    method ApplyToIssue(n: int, action: IssueAction, fault: Fault) returns (ok: bool)
      requires n in issues
      modifies this
      ensures values == old(values)
      ensures ok <==> ApplyAction(old(issues)[n], action, fault).Some?
      ensures ok ==> issues == old(issues)[n := ApplyAction(old(issues)[n], action, fault).value]
      ensures !ok ==> issues == old(issues)
    {
      var issue := issues[n];
      match action {
      case Close =>
        if issue.open {
          if fault.closeFails {
            return false;
          }
          issues := issues[n := issue.(open := false)];
        }
      case ClearAssignees =>
        if issue.assignees != {} {
          if !fault.assigneeCallFails {
            issues := issues[n := issue.(assignees := {})];
          }
        }
      case Assign(logins) =>
        if issue.assignees != Elems(logins) {
          if !fault.assigneeCallFails {
            issues := issues[n := issue.(assignees := Elems(logins))];
          }
        }
      }
      ok := true;
    }

    /** `sync_issue_status_with_pr`. `edges` is the closing-references response
        and `faults[j]` says which calls raise for the j-th linked issue. */
    method SyncIssueStatusWithPr(pr: PullRequest, edges: seq<Edge>, faults: seq<Fault>)
      returns (r: Outcome<SyncError>)
      requires |faults| == |LinkedIssues(edges)|
      modifies this
      ensures var run := Sync(old(State()), project, pr, edges, faults);
        State() == run.remote && r == run.outcome
    {
      var numbers := Numbers(LinkedIssues(edges));
      // fetch every linked issue up front
      var j := 0;
      while j < |numbers|
        invariant j <= |numbers|
        invariant FirstMissingFrom(numbers, issues, j) == FirstMissingFrom(numbers, issues, 0)
      {
        if numbers[j] !in issues {
          return Fail(IssueNotFound(numbers[j]));
        }
        j := j + 1;
      }
      var plan := Decide(pr);
      var i := 0;
      while i < |numbers|
        invariant i <= |numbers|
        invariant issues.Keys == old(issues).Keys
        invariant ProcessFrom(State(), project, plan, numbers, faults, i)
               == ProcessFrom(old(State()), project, plan, numbers, faults, 0)
      {
        var n := numbers[i];
        var ok := ApplyToIssue(n, plan.action, faults[i]);
        if !ok {
          return Fail(CloseFailed(n));
        }
        r := SetIssueStatus(plan.target, Some(n), None);
        if r.Fail? {
          return;
        }
        i := i + 1;
      }
      r := Pass;
    }
  }
}
