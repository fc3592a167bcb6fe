/** The issue detail page (`IssueDetailPage`): the icon and connector of
    each timeline event and the photos section. */
module IssueDetail {
  import opened Types
  import App
  import Review

  datatype TimelineIconKind = CompletedIcon | CurrentIcon | PastIcon

  /** `TimelineIcon`: a Resolved event is always completed; otherwise the
      last event is the current one and every other event a past one. */
  function TimelineIcon(status: EventStatus, isLast: bool): (icon: TimelineIconKind)
    ensures icon == CompletedIcon <==> status == Reached(Resolved)
    ensures icon == CurrentIcon <==> status != Reached(Resolved) && isLast
    ensures icon == PastIcon <==> status != Reached(Resolved) && !isLast
  {
    if status == Reached(Resolved) then CompletedIcon
    else if isLast then CurrentIcon
    else PastIcon
  }

  /** One rendered timeline event: its icon and whether a connector line
      runs down from it. */
  datatype EventRow = EventRow(event: TimelineEvent, icon: TimelineIconKind, connector: bool)

  /** `issue.timeline.map(...)`. */
  function TimelineRows(timeline: seq<TimelineEvent>): (rows: seq<EventRow>)
    ensures |rows| == |timeline|
    ensures forall i :: 0 <= i < |timeline| ==>
      rows[i] == EventRow(timeline[i], TimelineIcon(timeline[i].status, i == |timeline| - 1), i != |timeline| - 1)
  {
    seq(|timeline|, i requires 0 <= i < |timeline| =>
      EventRow(timeline[i], TimelineIcon(timeline[i].status, i == |timeline| - 1), i != |timeline| - 1))
  }

  /** Every event but the last has a connector, and the last has none. */
  lemma ConnectorsAllButLast(timeline: seq<TimelineEvent>)
    requires |timeline| > 0
    ensures var rows := TimelineRows(timeline);
      && !rows[|rows| - 1].connector
      && (forall i :: 0 <= i < |rows| - 1 ==> rows[i].connector)
  {
  }

  /** On an issue whose timeline ends with its status, the last event shows
      as current exactly when the issue is not resolved, and the first event
      (the creation) is never shown as completed. */
  lemma LastEventMatchesStatus(issue: Issue)
    requires TimelineConsistent(issue)
    ensures var rows := TimelineRows(issue.timeline);
      && (rows[|rows| - 1].icon == CurrentIcon <==> issue.status != Resolved)
      && (rows[|rows| - 1].icon == CompletedIcon <==> issue.status == Resolved)
      && rows[0].icon != CompletedIcon
  {
  }

  /** The photos section is shown when the issue has photos. */
  predicate PhotosShown(issue: Issue) {
    |issue.imageUrls| > 0
  }

  /** A submitted report's detail page shows the photos section exactly when
      its review step did, with one picture per photo. */
  lemma PhotosShownAfterSubmit(report: IssueReport, now: nat, today: string, objectUrl: ImageFile -> string)
    ensures var issue := App.BuildIssue(report, now, today, objectUrl);
      && (PhotosShown(issue) <==> Review.PhotosShown(report))
      && |issue.imageUrls| == |report.images|
  {
  }
}
