/** The status options of the project's single-select "Status" field. */
module Statuses {

  /** The six statuses that `set_issue_status` and `get_status_field_id` accept. */
  datatype Status =
    | SelectedForDevelopment
    | WeeklyBacklog
    | InDevelopment
    | ReadyForReview
    | OnHold
    | Done

  /** The option name under which the project shows a status. */
  function Name(s: Status): string
  {
    match s
    case SelectedForDevelopment => "Selected for Development"
    case WeeklyBacklog => "Weekly Backlog"
    case InDevelopment => "In Development"
    case ReadyForReview => "Ready For Review"
    case OnHold => "On Hold"
    case Done => "Done"
  }

  /** Distinct statuses have distinct option names. */
  lemma NamesDistinct(s: Status, t: Status)
    requires s != t
    ensures Name(s) != Name(t)
  {
  }
}
