/** The application shell (`App`): who is signed in, which screen is shown,
    the list of issues, and the handlers the screens call back into. The
    clock, the random source and the object-URL factory are parameters. */
module App {
  import opened Types
  import opened Constants
  import opened Strings

  datatype User = User(name: string, email: string, id: string)

  datatype View = Login | Signup | Dashboard | Reporting | IssueDetail | ImageReporting | Acknowledgement

  /** The display name derived from an e-mail address: the part before the
      first '@', every '.' turned into a space, and the first character of
      every word upper-cased. */
  function DisplayName(email: string): (name: string)
    ensures var local := ReplaceDots(BeforeFirstAt(email));
      && |name| == |BeforeFirstAt(email)|
      && '@' !in name && '.' !in name
      && forall i :: 0 <= i < |name| ==>
           name[i] == if WordStart(local, i) then UpperChar(local[i]) else local[i]
  {
    var local := ReplaceDots(BeforeFirstAt(email));
    CapitalizeWordsAll(local);
    CapitalizeWords(local)
  }

  /** The character-wise description of the capitalising scan, for every
      index at once. */
  lemma CapitalizeWordsAll(s: string)
    ensures forall i :: 0 <= i < |s| ==>
      CapitalizeWords(s)[i] == if WordStart(s, i) then UpperChar(s[i]) else s[i]
  {
    forall i | 0 <= i < |s|
      ensures CapitalizeWords(s)[i] == if WordStart(s, i) then UpperChar(s[i]) else s[i]
    {
      CapitalizeWordsAt(s, i);
    }
  }

  /** The citizen id: "CID-", the clock in milliseconds, "-", and at most six
      characters of the random number's base-36 text from position 2 on. */
  function CitizenId(now: nat, randomBase36: string): (id: string)
    ensures |id| >= 4 + |NatToString(now)| + 1
    ensures id[..4] == "CID-"
    ensures id[4..4 + |NatToString(now)|] == NatToString(now)
    ensures id[4 + |NatToString(now)|] == '-'
    ensures DecimalValue(id[4..4 + |NatToString(now)|]) == now
    ensures |id| <= 4 + |NatToString(now)| + 1 + 6
    ensures id[4 + |NatToString(now)| + 1..] == Substring(randomBase36, 2, 8)
  {
    "CID-" + NatToString(now) + "-" + Substring(randomBase36, 2, 8)
  }

  /** The id of a submitted issue: "IS-" and the last four digits of the
      clock in milliseconds, which denote the clock modulo 10000. */
  function IssueIdFor(now: nat): (id: string)
    ensures |id| >= 3 && id[..3] == "IS-"
    ensures id[3..] == LastChars(NatToString(now), 4)
    ensures DecimalValue(id[3..]) == now % 10000
    ensures |id| <= 7
    ensures now >= 1000 ==> |id| == 7
  {
    NatToStringLength(now);
    LastDigitsValue(now, 4);
    assert Pow10(4) == 10000;
    "IS-" + LastChars(NatToString(now), 4)
  }

  /** A number of at least 1000 has at least four digits. */
  lemma {:induction false} NatToStringLength(n: nat)
    ensures n >= 1000 ==> |NatToString(n)| >= 4
    ensures n >= 100 ==> |NatToString(n)| >= 3
    ensures n >= 10 ==> |NatToString(n)| >= 2
  {
    if n >= 10 {
      NatToStringLength(n / 10);
    }
  }

  /** `reportData.priority || Priority.LOW`: a missing priority, or one whose
      text is empty, becomes Low. */
  function PriorityOrLow(p: Option<Priority>): (q: Priority)
    ensures p.Some? && PriorityToText(p.value) != "" ==> q == p.value
    ensures p.None? || PriorityToText(p.value) == "" ==> q == Low
  {
    if p.Some? && PriorityToText(p.value) != "" then p.value else Low
  }

  const ReportedText: string := "Issue reported by a citizen."
  const ReceivedText: string := "Report received and pending assignment."

  /** The issue built from a submitted draft: the summary, category and
      priority fall back to defaults, the status is Submitted, the timeline
      holds the creation and the receipt on the day of submission, and every
      photo becomes an object URL. */
  function BuildIssue(report: IssueReport, now: nat, today: string, objectUrl: ImageFile -> string): (issue: Issue)
    ensures issue.id == IssueIdFor(now)
    ensures issue.title == OrElse(report.summary, "Untitled Issue")
    ensures issue.category == OrElse(report.category, "Uncategorized")
    ensures issue.priority == PriorityOrLow(report.priority)
    ensures issue.status == Submitted && issue.submittedDate == today
    ensures issue.timeline == [TimelineEvent(Created, today, ReportedText), TimelineEvent(Reached(Submitted), today, ReceivedText)]
    ensures TimelineConsistent(issue)
    ensures issue.description == report.description
    ensures |issue.imageUrls| == |report.images|
    ensures forall i :: 0 <= i < |report.images| ==> issue.imageUrls[i] == objectUrl(report.images[i])
    ensures issue.location == report.location && issue.manualLocation == report.manualLocation
  {
    Issue(
      IssueIdFor(now),
      OrElse(report.summary, "Untitled Issue"),
      OrElse(report.category, "Uncategorized"),
      PriorityOrLow(report.priority),
      Submitted,
      today,
      [TimelineEvent(Created, today, ReportedText), TimelineEvent(Reached(Submitted), today, ReceivedText)],
      report.description,
      seq(|report.images|, i requires 0 <= i < |report.images| => objectUrl(report.images[i])),
      report.location,
      report.manualLocation)
  }

  /** `issues.find(issue => issue.id === id)`: the first issue with the id. */
  function FindIssue(issues: seq<Issue>, id: string): (r: Option<Issue>)
    ensures r.Some? ==> r.value in issues && r.value.id == id
    ensures r.None? <==> forall i :: 0 <= i < |issues| ==> issues[i].id != id
    ensures r.Some? ==> exists k :: 0 <= k < |issues| && issues[k] == r.value
                           && forall j :: 0 <= j < k ==> issues[j].id != id
  {
    if issues == [] then None
    else if issues[0].id == id then Some(issues[0])
    else
      var r := FindIssue(issues[1..], id);
      if r.Some? then
        var k :| 0 <= k < |issues[1..]| && issues[1..][k] == r.value
                 && forall j :: 0 <= j < k ==> issues[1..][j].id != id;
        assert issues[k + 1] == r.value;
        assert forall j :: 0 < j < k + 1 ==> issues[j].id == issues[1..][j - 1].id;
        r
      else r
  }

  /** A newly submitted issue shadows any older issue with the same id. */
  lemma FindNewest(issue: Issue, issues: seq<Issue>)
    ensures FindIssue([issue] + issues, issue.id) == Some(issue)
  {
  }

  /** The four-digit id need not be new: a submission at a clock value
      ending in 2341 gets the id of the first sample issue. */
  lemma IssueIdCanRepeat()
    ensures IssueIdFor(2341) == MockIssues[0].id
  {
    assert NatToString(2) == "2";
    assert NatToString(23) == "23";
    assert NatToString(234) == "234";
    assert NatToString(2341) == "2341";
  }

  /** `suffix` is the tail end of `s`. */
  predicate EndsWith(s: seq<Issue>, suffix: seq<Issue>) {
    |suffix| <= |s| && s[|s| - |suffix|..] == suffix
  }

  lemma EndsWithPrepend(x: Issue, s: seq<Issue>, suffix: seq<Issue>)
    requires EndsWith(s, suffix)
    ensures EndsWith([x] + s, suffix)
  {
    assert ([x] + s)[|[x] + s| - |suffix|..] == s[|s| - |suffix|..];
  }

  /** The issue list keeps the sample issues at its end and every timeline
      in it starts with the creation and ends with the issue's status. */
  predicate IssuesValid(issues: seq<Issue>, samples: seq<Issue>) {
    && EndsWith(issues, samples)
    && forall i :: 0 <= i < |issues| ==> TimelineConsistent(issues[i])
  }

  /** Prepending an issue with a consistent timeline keeps the list valid. */
  lemma PrependValid(x: Issue, issues: seq<Issue>, samples: seq<Issue>)
    requires TimelineConsistent(x)
    requires IssuesValid(issues, samples)
    ensures IssuesValid([x] + issues, samples)
  {
    EndsWithPrepend(x, issues, samples);
    forall i | 0 <= i < |[x] + issues|
      ensures TimelineConsistent(([x] + issues)[i])
    {
      if i > 0 { assert ([x] + issues)[i] == issues[i - 1]; }
    }
  }

  /** What the shell renders. `Blank` is a `null` render. */
  datatype Screen =
    | LoginScreen
    | SignupScreen
    | DashboardScreen(user: User, issues: seq<Issue>)
    | ImageReportingScreen
    | ReportingScreen(initialDataFromImage: Option<ImageAnalysisResult>)
    | IssueDetailScreen(issue: Issue)
    | AcknowledgementScreen(issue: Issue)
    | Blank

  const NoIssueDetectedAlert: string :=
    "AI analysis complete: No civic issue was detected in the uploaded image. Please try another photo or report the issue manually."

  /** The screens whose links or buttons call `setView`, and the views they
      name: the sign-in page offers sign-up, the sign-up page offers sign-in,
      and the dashboard offers the two reporting paths. */
  predicate ViewLink(from: View, to: View) {
    || (from == Login && to == Signup)
    || (from == Signup && to == Login)
    || (from == Dashboard && (to == ImageReporting || to == Reporting))
  }

  /** What every handler of the shell keeps: photo data is only ever a
      detected issue; the sample issues stay at the end of the list; every
      timeline starts with the creation and ends with the issue's status;
      and each screen past sign-in has what it renders — a user, the
      selected issue, the acknowledged issue. */
  ghost predicate ShellValid(
    user: Option<User>, view: View, issues: seq<Issue>, samples: seq<Issue>,
    selectedIssueId: Option<string>, imageAnalysisData: Option<ImageAnalysisResult>,
    newlyCreatedIssue: Option<Issue>)
  {
    && (imageAnalysisData.Some? ==> imageAnalysisData.value.issueDetected)
    && (newlyCreatedIssue.Some? ==> newlyCreatedIssue.value in issues)
    && IssuesValid(issues, samples)
    && (view != Login && view != Signup ==> user.Some?)
    && (view == IssueDetail ==> selectedIssueId.Some? && HasIssue(issues, selectedIssueId.value))
    && (view == Acknowledgement ==> newlyCreatedIssue.Some?)
  }

  /** Some issue in the list has the id. */
  predicate HasIssue(issues: seq<Issue>, id: string) {
    exists i :: 0 <= i < |issues| && issues[i].id == id
  }

  /** Submitting from the wizard keeps the shell valid: the new issue, with
      its consistent timeline, is at the front and is acknowledged. */
  lemma SubmitKeepsValid(
    user: Option<User>, issues: seq<Issue>, samples: seq<Issue>,
    selectedIssueId: Option<string>, imageAnalysisData: Option<ImageAnalysisResult>,
    newlyCreatedIssue: Option<Issue>, newIssue: Issue)
    requires ShellValid(user, Reporting, issues, samples, selectedIssueId, imageAnalysisData, newlyCreatedIssue)
    requires TimelineConsistent(newIssue)
    ensures ShellValid(user, Acknowledgement, [newIssue] + issues, samples, selectedIssueId, imageAnalysisData, Some(newIssue))
  {
    PrependValid(newIssue, issues, samples);
    assert ([newIssue] + issues)[0] == newIssue;
  }

  class App {
    var user: Option<User>
    var view: View
    var issues: seq<Issue>
    var selectedIssueId: Option<string>
    var imageAnalysisData: Option<ImageAnalysisResult>
    var newlyCreatedIssue: Option<Issue>
    /** The issues the list started with. */
    ghost const samples: seq<Issue>

    /** What every handler keeps (see `ShellValid`). */
    ghost predicate Valid()
      reads this
    {
      ShellValid(user, view, issues, samples, selectedIssueId, imageAnalysisData, newlyCreatedIssue)
    }

    /** `renderContent`: the screen for the current view, or a blank render
      when the view's data is missing. */
    function RenderContent(): (s: Screen)
      reads this
      ensures s.Blank? <==>
        || (view == Dashboard && user.None?)
        || (view == IssueDetail && (selectedIssueId.None? || FindIssue(issues, selectedIssueId.value).None?))
        || (view == Acknowledgement && newlyCreatedIssue.None?)
      ensures view == Login ==> s == LoginScreen
      ensures view == Signup ==> s == SignupScreen
      ensures view == ImageReporting ==> s == ImageReportingScreen
      ensures view == Reporting ==> s == ReportingScreen(imageAnalysisData)
      ensures s.DashboardScreen? <==> view == Dashboard && user.Some?
      ensures s.DashboardScreen? ==> s.issues == issues && Some(s.user) == user
      ensures s.IssueDetailScreen? ==> view == IssueDetail && selectedIssueId == Some(s.issue.id) && s.issue in issues
      ensures s.IssueDetailScreen? ==> FindIssue(issues, selectedIssueId.value) == Some(s.issue)
      ensures view == IssueDetail && !s.Blank? ==> s.IssueDetailScreen?
      ensures s.AcknowledgementScreen? <==> view == Acknowledgement && newlyCreatedIssue.Some?
      ensures s.AcknowledgementScreen? ==> newlyCreatedIssue == Some(s.issue)
    {
      match view
      case Login => LoginScreen
      case Signup => SignupScreen
      case Dashboard => if user.Some? then DashboardScreen(user.value, issues) else Blank
      case ImageReporting => ImageReportingScreen
      case Reporting => ReportingScreen(imageAnalysisData)
      case IssueDetail =>
        if selectedIssueId.None? then Blank
        else
          (match FindIssue(issues, selectedIssueId.value)
           case Some(issue) => IssueDetailScreen(issue)
           case None => Blank)
      case Acknowledgement => if newlyCreatedIssue.Some? then AcknowledgementScreen(newlyCreatedIssue.value) else Blank
    }

    constructor ()
      ensures user.None? && view == Login && issues == MockIssues && samples == MockIssues
      ensures selectedIssueId.None? && imageAnalysisData.None? && newlyCreatedIssue.None?
      ensures Valid()
    {
      user := None;
      view := Login;
      issues := MockIssues;
      selectedIssueId := None;
      imageAnalysisData := None;
      newlyCreatedIssue := None;
      samples := MockIssues;
      new;
      MockIssuesShape();
      assert issues[|issues| - |samples|..] == samples;
    }

    /** `handleLogin`, called by the sign-in page with the trimmed e-mail. */
    method HandleLogin(email: string, now: nat, randomBase36: string)
      requires Valid() && view == Login
      modifies this`user, this`view
      ensures user == Some(User(DisplayName(email), email, CitizenId(now, randomBase36)))
      ensures view == Dashboard
      ensures Valid()
    {
      user := Some(User(DisplayName(email), email, CitizenId(now, randomBase36)));
      view := Dashboard;
    }

    /** `handleSignup`, called by the sign-up page with the trimmed name and
      e-mail. */
    method HandleSignup(name: string, email: string, now: nat, randomBase36: string)
      requires Valid() && view == Signup
      modifies this`user, this`view
      ensures user == Some(User(name, email, CitizenId(now, randomBase36)))
      ensures view == Dashboard
      ensures Valid()
    {
      user := Some(User(name, email, CitizenId(now, randomBase36)));
      view := Dashboard;
    }

    /** `handleLogout`. */
    method HandleLogout()
      requires Valid() && view == Dashboard
      modifies this`user, this`view
      ensures user.None? && view == Login
      ensures Valid()
    {
      user := None;
      view := Login;
    }

    /** `handleSelectIssue`, called by the dashboard with the id of an issue
      it lists. */
    method HandleSelectIssue(issueId: string)
      requires Valid() && view == Dashboard
      requires HasIssue(issues, issueId)
      modifies this`selectedIssueId, this`view
      ensures selectedIssueId == Some(issueId) && view == IssueDetail
      ensures Valid()
    {
      selectedIssueId := Some(issueId);
      view := IssueDetail;
    }

    /** `handleBackToDashboard`: clears the selection, the photo data and the
      acknowledged issue. */
    method HandleBackToDashboard()
      requires Valid() && view in {ImageReporting, Reporting, IssueDetail, Acknowledgement}
      modifies this`selectedIssueId, this`imageAnalysisData, this`newlyCreatedIssue, this`view
      ensures selectedIssueId.None? && imageAnalysisData.None? && newlyCreatedIssue.None?
      ensures view == Dashboard
      ensures Valid()
    {
      selectedIssueId := None;
      imageAnalysisData := None;
      newlyCreatedIssue := None;
      view := Dashboard;
    }

    /** `handleImageAnalysisComplete`: a detected issue opens the wizard on
      the photo path; otherwise the user is told and sent back to the
      dashboard. */
    method HandleImageAnalysisComplete(result: ImageAnalysisResult) returns (alert: Option<string>)
      requires Valid() && view == ImageReporting
      modifies this`imageAnalysisData, this`view
      ensures result.issueDetected ==> imageAnalysisData == Some(result) && view == Reporting && alert.None?
      ensures !result.issueDetected ==>
        imageAnalysisData == old(imageAnalysisData) && view == Dashboard && alert == Some(NoIssueDetectedAlert)
      ensures Valid()
    {
      if result.issueDetected {
        imageAnalysisData := Some(result);
        view := Reporting;
        alert := None;
      } else {
        alert := Some(NoIssueDetectedAlert);
        view := Dashboard;
      }
    }

    /** `handleReportSubmit`: the built issue goes to the front of the list
      and is acknowledged. */
    method HandleReportSubmit(report: IssueReport, now: nat, today: string, objectUrl: ImageFile -> string)
      requires Valid() && view == Reporting
      modifies this`issues, this`newlyCreatedIssue, this`view
      ensures issues == [BuildIssue(report, now, today, objectUrl)] + old(issues)
      ensures newlyCreatedIssue == Some(BuildIssue(report, now, today, objectUrl))
      ensures view == Acknowledgement
      ensures Valid()
    {
      var newIssue := BuildIssue(report, now, today, objectUrl);
      Acknowledge(newIssue);
    }

    /** The state updates of `handleReportSubmit` for an issue already built. */
    method Acknowledge(newIssue: Issue)
      requires Valid() && view == Reporting && TimelineConsistent(newIssue)
      modifies this`issues, this`newlyCreatedIssue, this`view
      ensures issues == [newIssue] + old(issues)
      ensures newlyCreatedIssue == Some(newIssue)
      ensures view == Acknowledgement
      ensures Valid()
    {
      SubmitKeepsValid(user, issues, samples, selectedIssueId, imageAnalysisData, newlyCreatedIssue, newIssue);
      issues := [newIssue] + issues;
      newlyCreatedIssue := Some(newIssue);
      view := Acknowledgement;
    }

    /** `setView` as the pages call it. */
    method SetView(v: View)
      requires Valid() && ViewLink(view, v)
      modifies this`view
      ensures view == v
      ensures Valid()
    {
      view := v;
    }
  }

  /** No screen the handlers can reach renders blank: the dashboard always
      has its user, the detail page its issue, the acknowledgement its
      issue. */
  lemma ValidNeverBlank(a: App)
    requires a.Valid()
    ensures !a.RenderContent().Blank?
  {
  }
}
