/** Worked runs of the sync rule on a small project whose "Status" field has
    three options. */
module SyncExamples {
  import opened Wrappers
  import opened Statuses
  import opened Responses
  import opened StatusLookup
  import opened IssueSync

  const Board := Project([ProjectField("F", "Status", [FieldOption("S", "Selected for Development"),
                                                       FieldOption("D", "Done"),
                                                       FieldOption("I", "In Development")])],
                         map[2 := "P2", 5 := "P5", 10 := "P10", 11 := "P11"])

  /** Pull request merged; it closes issue 10 (open) and issue 11 (already
      closed), with a null edge between them. Issue 10 is closed, issue 11 is
      left alone, and both items get "Done". */
  lemma MergedExample()
    ensures Sync(Remote(map[10 := Issue(true, {"alice"}), 11 := Issue(false, {})], map[]), Board,
                 PullRequest(true, Closed, false, [], "bob"),
                 [Edge(Some(IssueRef("N10", "", 10, ""))), Edge(None), Edge(Some(IssueRef("N11", "", 11, "")))],
                 [Fault(false, false), Fault(false, false)])
         == RunResult(Remote(map[10 := Issue(false, {"alice"}), 11 := Issue(false, {})],
                             map["P10" := Selection("F", "D"), "P11" := Selection("F", "D")]), Pass)
  {
  }

  /** Pull request closed without merging; issue 5 is assigned to alice and the
      removal call raises. The assignee stays, the status is still written and
      the run completes. */
  lemma ClosedExample()
    ensures Sync(Remote(map[5 := Issue(true, {"alice"})], map[]), Board,
                 PullRequest(false, Closed, false, [], "bob"),
                 [Edge(Some(IssueRef("N5", "", 5, "")))],
                 [Fault(false, true)])
         == RunResult(Remote(map[5 := Issue(true, {"alice"})], map["P5" := Selection("F", "S")]), Pass)
  {
  }

  /** Open draft pull request without assignees, written by bob: issue 2 is
      assigned to bob and gets "In Development". */
  lemma DraftExample()
    ensures Sync(Remote(map[2 := Issue(true, {})], map[]), Board,
                 PullRequest(false, Open, true, [], "bob"),
                 [Edge(Some(IssueRef("N2", "", 2, "")))],
                 [Fault(false, false)])
         == RunResult(Remote(map[2 := Issue(true, {"bob"})], map["P2" := Selection("F", "I")]), Pass)
  {
  }
}
