/** The three bulk actions of the report admin: each assigns `reviewed` (and
    for two of them `action_taken`) on every selected report, in one update. */
module ModerationAdmin {

  datatype Action = NoAction | Warning | Ban

  datatype Report = Report(id: nat, category: string, reviewed: bool, actionTaken: Action)

  /** The assignments of one bulk action. */
  datatype BulkUpdate = MarkReviewed | TakeWarning | TakeBan

  function Apply(r: Report, u: BulkUpdate): Report {
    match u
    case MarkReviewed => r.(reviewed := true)
    case TakeWarning => r.(actionTaken := Warning, reviewed := true)
    case TakeBan => r.(actionTaken := Ban, reviewed := true)
  }

  /** `queryset.update(...)`: every row whose id is selected gets the update. */
  function UpdateSelected(rows: seq<Report>, selected: set<nat>, u: BulkUpdate): (r: seq<Report>)
    ensures |r| == |rows|
  {
    seq(|rows|, i requires 0 <= i < |rows| => if rows[i].id in selected then Apply(rows[i], u) else rows[i])
  }

  /** What every action does to a selected row, and that unselected rows keep all fields. */
  lemma UpdateEffect(rows: seq<Report>, selected: set<nat>, u: BulkUpdate, i: nat)
    requires i < |rows|
    ensures var r := UpdateSelected(rows, selected, u)[i];
            if rows[i].id in selected then
              && r.reviewed
              && r.id == rows[i].id && r.category == rows[i].category
              && r.actionTaken == (match u
                                   case MarkReviewed => rows[i].actionTaken
                                   case TakeWarning => Warning
                                   case TakeBan => Ban)
            else r == rows[i]
  {
  }

  /** Running an action twice on the same selection is the same as once. */
  lemma UpdateIdempotent(rows: seq<Report>, selected: set<nat>, u: BulkUpdate)
    ensures UpdateSelected(UpdateSelected(rows, selected, u), selected, u) == UpdateSelected(rows, selected, u)
  {
  }

  class ReportTable {
    var reports: seq<Report>

    constructor (reports: seq<Report>)
      ensures this.reports == reports
    {
      this.reports := reports;
    }

    /** `ReportAdmin.mark_as_reviewed`. */
    method MarkAsReviewed(selected: set<nat>)
      modifies this
      ensures reports == UpdateSelected(old(reports), selected, MarkReviewed)
    {
      reports := UpdateSelected(reports, selected, MarkReviewed);
    }

    /** `ReportAdmin.take_warning_action`. */
    method TakeWarningAction(selected: set<nat>)
      modifies this
      ensures reports == UpdateSelected(old(reports), selected, TakeWarning)
    {
      reports := UpdateSelected(reports, selected, TakeWarning);
    }

    /** `ReportAdmin.take_ban_action`. */
    method TakeBanAction(selected: set<nat>)
      modifies this
      ensures reports == UpdateSelected(old(reports), selected, TakeBan)
    {
      reports := UpdateSelected(reports, selected, TakeBan);
    }
  }
}
