/** The records of the reporting application: priorities and statuses, the
    draft report the wizard fills in, the classifier's results, timeline
    events and submitted issues. */
module Types {

  datatype Option<+T> = None | Some(value: T)

  /** `a || b` in JavaScript for an optional string: the value when it is
      present and non-empty, otherwise the fallback. */
  function OrElse(o: Option<string>, fallback: string): (r: string)
    ensures (o.Some? && o.value != "") ==> r == o.value
    ensures (o.None? || o.value == "") ==> r == fallback
  {
    if o.Some? && o.value != "" then o.value else fallback
  }

  /** The value a `priority` field holds at run time. The three listed
      constructors are the members of the enum; `Unlisted` is any other text
      the classifier's reply carried, which the cast of the parsed reply to
      the result type lets through. */
  datatype Priority = Low | Medium | High | Unlisted(text: string)
  {
    predicate Listed() { !Unlisted? }
  }

  /** The enum value's text as it appears in the classifier's reply. */
  function PriorityToText(p: Priority): string {
    match p
    case Low => "Low"
    case Medium => "Medium"
    case High => "High"
    case Unlisted(t) => t
  }

  /** Reads a reply's priority text: one of the enum's three values, or
      `Unlisted` carrying the text. */
  function PriorityFromText(s: string): (p: Priority)
    ensures PriorityToText(p) == s
    ensures p.Listed() <==> s in {"Low", "Medium", "High"}
  {
    if s == "Low" then Low
    else if s == "Medium" then Medium
    else if s == "High" then High
    else Unlisted(s)
  }

  /** A priority value whose text could have come from a reply: an
      `Unlisted` text never spells one of the enum's values. */
  predicate Canonical(p: Priority) {
    p.Unlisted? ==> p.text !in {"Low", "Medium", "High"}
  }

  /** Reading back a priority's text gives the priority. */
  lemma PriorityTextRoundTrip(p: Priority)
    requires Canonical(p)
    ensures PriorityFromText(PriorityToText(p)) == p
  {
  }

  datatype Status = Submitted | InProgress | Resolved | Rejected

  /** A timeline event's status: `Status | 'Created'`. */
  datatype EventStatus = Created | Reached(status: Status)

  datatype TimelineEvent = TimelineEvent(status: EventStatus, date: string, description: string)

  /** Latitude and longitude of a pinned location. */
  datatype GeoPoint = GeoPoint(lat: real, lng: real)

  /** A file the user picked; the model never looks inside it. */
  datatype ImageFile = ImageFile(handle: nat)

  /** The draft report (`IssueReport`). Optional fields are `Option`s. */
  datatype IssueReport = IssueReport(
    manualCategory: string,
    customCategory: Option<string>,
    description: string,
    category: Option<string>,
    priority: Option<Priority>,
    summary: Option<string>,
    images: seq<ImageFile>,
    location: Option<GeoPoint>,
    manualLocation: Option<string>,
    isRecurring: Option<bool>,
    additionalNotes: Option<string>)

  /** A `Partial<IssueReport>`: `Some(v)` for a key the partial object
      carries with value `v`, `None` for a key it leaves out. */
  datatype Patch = Patch(
    manualCategory: Option<string>,
    customCategory: Option<string>,
    description: Option<string>,
    category: Option<string>,
    priority: Option<Priority>,
    summary: Option<string>,
    images: Option<seq<ImageFile>>,
    location: Option<GeoPoint>,
    manualLocation: Option<string>,
    isRecurring: Option<bool>,
    additionalNotes: Option<string>)

  const EmptyPatch: Patch :=
    Patch(None, None, None, None, None, None, None, None, None, None, None)

  /** `{ ...d, ...p }`: the keys `p` carries take its values, every other
      field keeps the draft's. */
  function Merge(d: IssueReport, p: Patch): IssueReport {
    IssueReport(
      if p.manualCategory.Some? then p.manualCategory.value else d.manualCategory,
      if p.customCategory.Some? then p.customCategory else d.customCategory,
      if p.description.Some? then p.description.value else d.description,
      if p.category.Some? then p.category else d.category,
      if p.priority.Some? then p.priority else d.priority,
      if p.summary.Some? then p.summary else d.summary,
      if p.images.Some? then p.images.value else d.images,
      if p.location.Some? then p.location else d.location,
      if p.manualLocation.Some? then p.manualLocation else d.manualLocation,
      if p.isRecurring.Some? then p.isRecurring else d.isRecurring,
      if p.additionalNotes.Some? then p.additionalNotes else d.additionalNotes)
  }

  /** The partial object `{ ...p, ...q }`: the keys of both, with `q`'s value
      where both carry a key. */
  function Combine(p: Patch, q: Patch): Patch {
    Patch(
      if q.manualCategory.Some? then q.manualCategory else p.manualCategory,
      if q.customCategory.Some? then q.customCategory else p.customCategory,
      if q.description.Some? then q.description else p.description,
      if q.category.Some? then q.category else p.category,
      if q.priority.Some? then q.priority else p.priority,
      if q.summary.Some? then q.summary else p.summary,
      if q.images.Some? then q.images else p.images,
      if q.location.Some? then q.location else p.location,
      if q.manualLocation.Some? then q.manualLocation else p.manualLocation,
      if q.isRecurring.Some? then q.isRecurring else p.isRecurring,
      if q.additionalNotes.Some? then q.additionalNotes else p.additionalNotes)
  }

  /** Merging nothing changes nothing. */
  lemma MergeEmpty(d: IssueReport)
    ensures Merge(d, EmptyPatch) == d
  {
  }

  /** Merging the same partial object twice is merging it once. */
  lemma MergeIdempotent(d: IssueReport, p: Patch)
    ensures Merge(Merge(d, p), p) == Merge(d, p)
  {
  }

  /** Two merges in a row are one merge of the combined partial object: keys
      only one of them carries keep that one's value, and on a key both carry
      the later value wins. */
  lemma MergeCombine(d: IssueReport, p: Patch, q: Patch)
    ensures Merge(Merge(d, p), q) == Merge(d, Combine(p, q))
  {
  }

  /** No key is carried by both partial objects. */
  predicate Disjoint(p: Patch, q: Patch) {
    && (p.manualCategory.None? || q.manualCategory.None?)
    && (p.customCategory.None? || q.customCategory.None?)
    && (p.description.None? || q.description.None?)
    && (p.category.None? || q.category.None?)
    && (p.priority.None? || q.priority.None?)
    && (p.summary.None? || q.summary.None?)
    && (p.images.None? || q.images.None?)
    && (p.location.None? || q.location.None?)
    && (p.manualLocation.None? || q.manualLocation.None?)
    && (p.isRecurring.None? || q.isRecurring.None?)
    && (p.additionalNotes.None? || q.additionalNotes.None?)
  }

  /** Merges of partial objects with disjoint keys can be applied in either
      order. */
  lemma MergeDisjointCommute(d: IssueReport, p: Patch, q: Patch)
    requires Disjoint(p, q)
    ensures Merge(Merge(d, p), q) == Merge(Merge(d, q), p)
  {
  }

  /** The classifier's answer for a written description. */
  datatype CategorizationResult = CategorizationResult(category: string, priority: Priority, summary: string)

  /** The classifier's answer for a photo. */
  datatype ImageAnalysisResult = ImageAnalysisResult(
    issueDetected: bool,
    category: string,
    description: string,
    priority: Priority,
    summary: string)

  /** What a failed asynchronous call throws: an `Error` with its message,
      or some other value. */
  datatype Thrown = ErrorValue(message: string) | NonErrorValue

  /** `e instanceof Error ? e.message : fallback`. */
  function ErrorText(e: Thrown, fallback: string): (r: string)
    ensures e.ErrorValue? ==> r == e.message
    ensures e.NonErrorValue? ==> r == fallback
  {
    match e
    case ErrorValue(m) => m
    case NonErrorValue => fallback
  }

  /** The outcome of an asynchronous call: its value, or what it threw. */
  datatype Outcome<+T> = Returned(value: T) | Threw(thrown: Thrown)

  /** A submitted issue (`Issue`). */
  datatype Issue = Issue(
    id: string,
    title: string,
    category: string,
    priority: Priority,
    status: Status,
    submittedDate: string,
    timeline: seq<TimelineEvent>,
    description: string,
    imageUrls: seq<string>,
    location: Option<GeoPoint>,
    manualLocation: Option<string>)

  /** The timeline of an issue starts with `Created` and its last event is
      the issue's current status. */
  predicate TimelineConsistent(issue: Issue) {
    && |issue.timeline| > 0
    && issue.timeline[0].status == Created
    && issue.timeline[|issue.timeline| - 1].status == Reached(issue.status)
  }
}
