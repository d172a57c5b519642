# PR-to-issue status sync, modelled in Dafny

This project models `ProjectItemHandler` from `scripts/pr_issue_sync/pr_issue_sync.py`,
a GitHub Action script that keeps the issues a pull request closes in line with
the pull request's state:

- **merged**: every linked issue is closed (if still open) and its project item
  gets the "Done" status;
- **closed without merging**: every linked issue loses its assignees (a failing
  removal is swallowed) and gets "Selected for Development";
- **open**: every linked issue's assignees are replaced by the pull request's
  assignees, or by its author when it has none (a failing call is swallowed),
  and it gets "In Development" for a draft, "Ready For Review" otherwise.

The status write (`set_issue_status`) checks that exactly one of
`issue_number` / `issue_node_id` is truthy, finds the project item, looks up
the id of the field named "Status" and of its option named after the status
(`get_status_field_id`), and sends the mutation. Two response filters keep only
the non-empty field nodes and the non-null closing-issue nodes.

## Layout

| file | module | what it holds |
|---|---|---|
| `wrappers.dfy` | `Wrappers` | `Option`, `Result`, `Outcome` |
| `statuses.dfy` | `Statuses` | the six status names |
| `responses.dfy` | `Responses` | response records and the two filters |
| `status_lookup.dfy` | `StatusLookup` | the field/option search as functions, and its properties |
| `issue_sync.dfy` | `IssueSync` | argument check, branch choice, per-issue effects, the run as a function, and the class `ProjectItemHandler` whose methods change the server state in place |
| `sync_properties.dfy` | `SyncProperties` | what a run guarantees, by induction over the loop |
| `sync_examples.dfy` | `SyncExamples` | three concrete runs |

GitHub is the state the handler changes: `issues` (issue number to open flag and
assignee set) and `values` (project item id to the field id / option id pair last
sent for it by the status mutation). Since the code never reads the mutation's
answer, "an item holds a selection" below means "that selection was the last one
sent for the item". The server's answers are inputs: the project's fields, the id of
each issue's first project item (`itemOf`), the pull-request snapshot, the
closing-reference edges, and for each linked issue whether its close call and its
assignee call raise (`Fault`). The methods are proved against the functions
(`SyncIssueStatusWithPr` against `Sync`, `GetStatusFieldId` against `Lookup`,
`SetIssueStatus` against `StatusWrite`), and the lemmas are proved about the functions.

In these places the code does something easy to misread, and the model keeps what the code does:

- the close call (line 331) is not wrapped in `try`, so a failing close ends the
  run; only the assignee calls are tolerated;
- when the project has no option for the status, the run raises at the first
  linked issue AFTER that issue's close or assignee call (lines 330-336, 346-354,
  366-372), not before any change (`SyncStopsAtFirstIssueWithoutStatusOption`);
- the argument check uses truthiness, so issue number 0 counts as missing alone
  but, beside a node id, passes and is used as the number (lines 53-57);
- with a node id, the id is passed straight to the mutation as the item id
  (lines 60-63); the model keeps that (`Target.ByItem`);
- `option_id` is not reset between fields, so two fields named "Status" can
  yield one field's id with another field's option
  (`DuplicateStatusFieldsPairForeignOption`).

## Model

| member | source | states |
|---|---|---|
| `Statuses.Name` | scripts/pr_issue_sync/pr_issue_sync.py:34-41 | the six option names; pairwise distinct by `Statuses.NamesDistinct`, used in `StatusLookup.LookupSeparatesStatuses` |
| `Statuses.NamesDistinct` | scripts/pr_issue_sync/pr_issue_sync.py:34-41 | two different statuses have different option names |
| `Responses.ProjectFields` | scripts/pr_issue_sync/pr_issue_sync.py:251 | a field is in the result exactly when a truthy node carries it; never longer than the input |
| `Responses.ProjectFieldsAppend` | scripts/pr_issue_sync/pr_issue_sync.py:251 | filtering commutes with concatenation: kept fields stay in node order |
| `Responses.ProjectFieldsKeepsAll` | scripts/pr_issue_sync/pr_issue_sync.py:251 | when every node is a field, the result is those fields, index by index |
| `Responses.LinkedIssues` | scripts/pr_issue_sync/pr_issue_sync.py:289 | an issue is in the result exactly when some edge carries it as a non-null node; never longer than the input |
| `Responses.LinkedIssuesAppend` | scripts/pr_issue_sync/pr_issue_sync.py:289 | filtering commutes with concatenation: linked issues stay in edge order |
| `Responses.LinkedIssuesKeepsAll` | scripts/pr_issue_sync/pr_issue_sync.py:289 | when every edge has a node, the result is those nodes, index by index |
| `StatusLookup.FirstMatchFrom` | scripts/pr_issue_sync/pr_issue_sync.py:176-179 | the inner loop stops at the first option with the requested name; none exists exactly when it finds nothing |
| `StatusLookup.VisitField` | scripts/pr_issue_sync/pr_issue_sync.py:172-179 | a field with another name changes nothing; a "Status" field sets `field_id` to its id, and `option_id` to a matching option's id when it has one and leaves it as it was otherwise |
| `StatusLookup.ScanFrom` | scripts/pr_issue_sync/pr_issue_sync.py:172-179 | with no "Status" field left both ids stay as they are, otherwise `field_id` is set; exact results in `ScanFieldId` and `ScanOptionId` |
| `StatusLookup.Lookup` | scripts/pr_issue_sync/pr_issue_sync.py:169-183 | a returned pair has non-empty ids and no "Status" field means a raise; characterised by `LookupSound`, `LookupFailsWhenMissing`, `LookupSingleStatusField` |
| `StatusLookup.ScanFieldId` | scripts/pr_issue_sync/pr_issue_sync.py:172-175 | `field_id` ends as the id of the last field named "Status", or unchanged when there is none |
| `StatusLookup.ScanOptionId` | scripts/pr_issue_sync/pr_issue_sync.py:176-179 | `option_id` ends as the id of a matching option inside a "Status" field, or unchanged when no such option exists |
| `StatusLookup.ScanSkipsOtherFields` | scripts/pr_issue_sync/pr_issue_sync.py:173-174 | fields with another name leave both ids unchanged |
| `StatusLookup.LookupSound` | scripts/pr_issue_sync/pr_issue_sync.py:169-183 | a returned pair is non-empty, its field id belongs to the last "Status" field, its option id to an option of a "Status" field named after the status |
| `StatusLookup.LookupFailsWhenMissing` | scripts/pr_issue_sync/pr_issue_sync.py:180-181 | the lookup raises when there is no "Status" field or no "Status" field has the option |
| `StatusLookup.LookupSingleStatusField` | scripts/pr_issue_sync/pr_issue_sync.py:169-183 | with one "Status" field, the result is its id and its first matching option's id, or a raise when either is missing or empty |
| `StatusLookup.LookupSeparatesStatuses` | scripts/pr_issue_sync/pr_issue_sync.py:169-183 | with one "Status" field whose options have distinct ids, two different statuses never resolve to the same option |
| `StatusLookup.DuplicateStatusFieldsPairForeignOption` | scripts/pr_issue_sync/pr_issue_sync.py:169-179 | two "Status" fields can yield the second field's id with the first field's option |
| `IssueSync.CheckIdentifier` | scripts/pr_issue_sync/pr_issue_sync.py:53-61 | raises "neither" exactly when both identifiers are falsy and "both" exactly when both are truthy; otherwise uses the number whenever it is not `None` |
| `IssueSync.ResolveItem` | scripts/pr_issue_sync/pr_issue_sync.py:57-61 | a number raises when `get_issue` finds no issue, then when the issue has no project item (the `[0]` IndexError); otherwise its first item's id; a node id is used as the item id as it is |
| `IssueSync.StatusWrite` | scripts/pr_issue_sync/pr_issue_sync.py:53-63 | succeeds exactly when the check, the item and the lookup all succeed; writes the looked-up selection on the issue's first item or on the given id |
| `IssueSync.TargetAssignees` | scripts/pr_issue_sync/pr_issue_sync.py:310-313 | the pull request's assignees when it has some, otherwise exactly the author; never empty |
| `IssueSync.Decide` | scripts/pr_issue_sync/pr_issue_sync.py:325-360 | "Done" and close exactly when merged; "Selected for Development" and clear exactly when closed unmerged; "In Development" exactly when open and draft, "Ready For Review" exactly when open and not draft |
| `IssueSync.ApplyAction` | scripts/pr_issue_sync/pr_issue_sync.py:327-371 | raises only for a failing close of an open issue; closes open issues; clears or replaces assignees unless the call fails; an issue already holding the target set is left as it is |
| `IssueSync.Step` | scripts/pr_issue_sync/pr_issue_sync.py:327-372 | one iteration never adds or removes issues |
| `IssueSync.ProcessFrom` | scripts/pr_issue_sync/pr_issue_sync.py:327-372 | the loop never adds or removes issues |
| `IssueSync.FirstMissingFrom` | scripts/pr_issue_sync/pr_issue_sync.py:318-320 | finds nothing exactly when every linked number is an issue; otherwise the first linked number, in order, that is not |
| `IssueSync.Sync` | scripts/pr_issue_sync/pr_issue_sync.py:303-372 | a missing linked issue raises before any change; no run adds or removes issues |
| `IssueSync.ProjectItemHandler.constructor` | scripts/pr_issue_sync/pr_issue_sync.py:219-251 | the handler keeps the filtered field list for all later lookups |
| `IssueSync.ProjectItemHandler.GetStatusFieldId` | scripts/pr_issue_sync/pr_issue_sync.py:148-183 | the two loops return what `Lookup` specifies, and raise exactly when it does |
| `IssueSync.ProjectItemHandler.SetFieldOption` | scripts/pr_issue_sync/pr_issue_sync.py:185-217 | the selection is recorded as the last one sent for the item; nothing else changes |
| `IssueSync.ProjectItemHandler.SetIssueStatus` | scripts/pr_issue_sync/pr_issue_sync.py:32-63 | issues never change; the values change exactly as `StatusWrite` says, and not at all when it raises |
| `IssueSync.ProjectItemHandler.ApplyToIssue` | scripts/pr_issue_sync/pr_issue_sync.py:327-371 | the issue changes as `ApplyAction` says; a failing close changes nothing |
| `IssueSync.ProjectItemHandler.SyncIssueStatusWithPr` | scripts/pr_issue_sync/pr_issue_sync.py:291-372 | the final state and outcome are those of `Sync` |
| `SyncProperties.ProcessWrites` | scripts/pr_issue_sync/pr_issue_sync.py:327-372 | the loop changes only linked issues and their items, and writes only the selection for the branch's status |
| `SyncProperties.ProcessPassWritesStatus` | scripts/pr_issue_sync/pr_issue_sync.py:336-372 | a completed loop has written the branch's selection on every linked issue's item |
| `SyncProperties.ProcessClosesLinked` | scripts/pr_issue_sync/pr_issue_sync.py:327-337 | the merged loop never reopens an issue nor touches assignees; when it completes every linked issue is closed |
| `SyncProperties.ProcessAssignees` | scripts/pr_issue_sync/pr_issue_sync.py:343-372 | the other loops keep open/closed state; a completed loop has replaced an issue's assignees exactly when one of its calls did not raise |
| `SyncProperties.ProcessCompletes` | scripts/pr_issue_sync/pr_issue_sync.py:346-372 | raising assignee calls never stop the loop |
| `SyncProperties.ProcessSettledIsNoOp` | scripts/pr_issue_sync/pr_issue_sync.py:330-336 | the merged loop over closed issues already marked "Done" changes nothing |
| `SyncProperties.SyncMergedClosesAndMarksDone` | scripts/pr_issue_sync/pr_issue_sync.py:325-337 | merged, whatever draft and state say: every linked issue ends closed with "Done"; no assignee changes |
| `SyncProperties.SyncMergedIdempotent` | scripts/pr_issue_sync/pr_issue_sync.py:325-337 | running the merged branch again, with any faults, leaves the same state |
| `SyncProperties.SyncClosedClearsAssignees` | scripts/pr_issue_sync/pr_issue_sync.py:338-357 | closed unmerged: every linked issue gets "Selected for Development"; its assignees are cleared exactly when a removal did not raise |
| `SyncProperties.SyncOpenAssigns` | scripts/pr_issue_sync/pr_issue_sync.py:358-372 | open: every linked issue gets "In Development" if draft, else "Ready For Review"; its assignees become the target set exactly when a call did not raise |
| `SyncProperties.SyncToleratesAssigneeFailures` | scripts/pr_issue_sync/pr_issue_sync.py:346-372 | unmerged: failing assignee calls never stop the run when the status writes can succeed |
| `SyncProperties.SyncMergedCompletes` | scripts/pr_issue_sync/pr_issue_sync.py:325-337 | merged: the run completes when no close call raises, "Done" exists and every linked issue has a truthy number and a project item |
| `SyncProperties.SyncFrame` | scripts/pr_issue_sync/pr_issue_sync.py:318-372 | issues not linked and items of no linked issue are unchanged; the only selection written is the branch's |
| `SyncProperties.SyncStopsAtFirstIssueWithoutStatusOption` | scripts/pr_issue_sync/pr_issue_sync.py:327-372 | with no option for the status, the run raises at the first issue, after its close or assignee call and before any status write |
| `SyncProperties.ArgumentCheckPrecedesLookups` | scripts/pr_issue_sync/pr_issue_sync.py:53-58 | bad identifiers raise whatever the issues, items and fields are |
| `SyncProperties.IssueNumberZero` | scripts/pr_issue_sync/pr_issue_sync.py:53-58 | number 0 alone is rejected; with a node id it is used as the number |
| `SyncExamples.MergedExample` | scripts/pr_issue_sync/pr_issue_sync.py:325-337 | a merged run closes the open issue, leaves the closed one, and marks both "Done" |
| `SyncExamples.ClosedExample` | scripts/pr_issue_sync/pr_issue_sync.py:338-357 | a failing removal keeps the assignee and the status is still written |
| `SyncExamples.DraftExample` | scripts/pr_issue_sync/pr_issue_sync.py:309-372 | an open draft without assignees assigns its author and writes "In Development" |

## Left out

- `IssueSync.ProjectItemHandler.SetFieldOption`: records every status mutation as applied. The code only checks the HTTP status (lines 82-86) and discards the mutation's answer (line 63), so a mutation GitHub refuses inside a 200 answer (for instance a node id used as the item id, line 61, or a first project item from another project, line 59) ends the same way; the model cannot tell such a write from one that took effect.
- `run_graphql` and the query and mutation texts (lines 65-146, 185-217, 229-250, 263-288): network I/O. Responses are inputs, and a non-200 answer (which raises) is not modelled.
- `__init__`'s authentication, `get_repo` and `get_project_node_id` (lines 25-30, 88-103): plumbing; the model has one project, so the project node id passed to the mutation is not represented.
- `get_issue_info` (lines 105-146): only its use at line 59 is modelled, as `itemOf`, the id of the first project item the server returns for an issue; which item comes first is the server's choice.
- `repo.get_pull` (line 303): the pull request is given as a snapshot; its failure is not modelled.
- PyGithub calls (`get_issue`, `edit`, `remove_from_assignees`): modelled as updates of the issue map, with `Fault` saying whether a close or assignee call raises; what GitHub does with logins it cannot assign is not modelled (the issue takes the given set).
- `functools.lru_cache` on `get_project_fields` (line 219): the handler keeps the filtered field list from its first response as a constant, which is what every later call sees.
- `main` (lines 375-411): environment variables and `int()` parsing are plumbing.
- All `print` output.
- `StatusLookup.ScanOptionId`: says that the option id comes from a matching option of some "Status" field, not which one when several "Status" fields match; `LookupSingleStatusField` gives the exact result for one "Status" field.
