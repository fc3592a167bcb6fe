/** The dashboard (`DashboardPage`): the search over issue ids, the two
    status counts on the summary cards and the empty-list message. */
module Dashboard {
  import opened Types
  import opened Strings
  import opened Sequences

  /** The search test for one issue: its lower-cased id contains the
      lower-cased, trimmed query. */
  predicate IdMatches(issue: Issue, query: string) {
    Includes(ToLower(issue.id), ToLower(Trim(query)))
  }

  /** The issues whose id matches, in their order. */
  function MatchingIssues(issues: seq<Issue>, query: string): (r: seq<Issue>)
    ensures IsSubsequence(r, issues)
    ensures forall x :: x in r <==> x in issues && IdMatches(x, query)
    ensures forall x :: multiset(r)[x] == if IdMatches(x, query) then multiset(issues)[x] else 0
  {
    if issues == [] then []
    else
      var rest := MatchingIssues(issues[1..], query);
      assert issues == [issues[0]] + issues[1..];
      assert multiset(issues) == multiset{issues[0]} + multiset(issues[1..]);
      if IdMatches(issues[0], query) then
        var r := [issues[0]] + rest;
        assert multiset(r) == multiset{issues[0]} + multiset(rest);
        r
      else
        SkipHead(rest, issues);
        rest
  }

  lemma SkipHead(a: seq<Issue>, b: seq<Issue>)
    requires b != [] && IsSubsequence(a, b[1..])
    ensures IsSubsequence(a, b)
  {
  }

  /** `filteredIssues`: a blank query shows every issue; otherwise the issues
      whose id contains the query, ignoring ASCII case and surrounding white
      space, in their order. */
  function FilteredIssues(issues: seq<Issue>, query: string): (r: seq<Issue>)
    ensures AllSpace(query) ==> r == issues
    ensures IsSubsequence(r, issues)
    ensures !AllSpace(query) ==>
      forall x :: x in r <==> x in issues && exists i :: OccursAt(ToLower(x.id), ToLower(Trim(query)), i)
    ensures !AllSpace(query) ==>
      forall x :: multiset(r)[x] ==
        if exists i :: OccursAt(ToLower(x.id), ToLower(Trim(query)), i) then multiset(issues)[x] else 0
  {
    if Trim(query) == [] then
      SubsequenceReflexive(issues);
      issues
    else
      var r := MatchingIssues(issues, query);
      forall x
        ensures IdMatches(x, query) <==> exists i :: OccursAt(ToLower(x.id), ToLower(Trim(query)), i)
      {
        IncludesIff(ToLower(x.id), ToLower(Trim(query)));
      }
      r
  }

  /** The query's surrounding white space does not matter. */
  lemma FilterIgnoresPadding(issues: seq<Issue>, query: string)
    ensures FilteredIssues(issues, Trim(query)) == FilteredIssues(issues, query)
  {
    TrimIdempotent(query);
    MatchingSameTest(issues, query, Trim(query));
  }

  /** The query's ASCII case does not matter. */
  lemma FilterIgnoresCase(issues: seq<Issue>, query: string)
    ensures FilteredIssues(issues, ToLower(query)) == FilteredIssues(issues, query)
  {
    ToLowerTrim(query);
    ToLowerIdempotent(Trim(query));
    MatchingSameTest(issues, query, ToLower(query));
    assert Trim(ToLower(query)) == [] <==> Trim(query) == [];
  }

  /** Two queries with the same trimmed, lower-cased text select the same
      issues. */
  lemma {:induction false} MatchingSameTest(issues: seq<Issue>, q1: string, q2: string)
    requires ToLower(Trim(q1)) == ToLower(Trim(q2))
    ensures MatchingIssues(issues, q1) == MatchingIssues(issues, q2)
  {
    if issues != [] {
      MatchingSameTest(issues[1..], q1, q2);
    }
  }

  /** How many issues have a status the test accepts. */
  function CountWhere(issues: seq<Issue>, accept: Status -> bool): (n: nat)
    ensures n <= |issues|
  {
    if issues == [] then 0
    else (if accept(issues[0].status) then 1 else 0) + CountWhere(issues[1..], accept)
  }

  predicate IsOpen(s: Status) { s == InProgress || s == Submitted }
  predicate IsResolved(s: Status) { s == Resolved }
  predicate IsRejected(s: Status) { s == Rejected }

  /** `inProgressCount`: issues In Progress or Submitted. */
  function InProgressCount(issues: seq<Issue>): nat {
    CountWhere(issues, IsOpen)
  }

  /** `resolvedCount`: issues Resolved. */
  function ResolvedCount(issues: seq<Issue>): nat {
    CountWhere(issues, IsResolved)
  }

  /** Every issue is counted on exactly one card or is rejected, so the two
      cards never add up to more than the total. */
  lemma {:induction false} CountsPartition(issues: seq<Issue>)
    ensures InProgressCount(issues) + ResolvedCount(issues) + CountWhere(issues, IsRejected) == |issues|
    ensures InProgressCount(issues) + ResolvedCount(issues) <= |issues|
  {
    if issues != [] {
      CountsPartition(issues[1..]);
    }
  }

  /** Counting distributes over prepending one issue; a new Submitted issue
      adds one to the in-progress card and nothing to the resolved card. */
  lemma CountsAfterSubmit(issue: Issue, issues: seq<Issue>)
    requires issue.status == Submitted
    ensures InProgressCount([issue] + issues) == InProgressCount(issues) + 1
    ensures ResolvedCount([issue] + issues) == ResolvedCount(issues)
  {
    assert ([issue] + issues)[1..] == issues;
  }

  const NoMatchMessage: string := "No issues found for this ID."
  const NoIssuesMessage: string := "You haven't reported any issues yet."

  /** The message under an empty list: it tests the raw query, not the
      trimmed one. */
  function EmptyStateMessage(filtered: seq<Issue>, query: string): (m: Option<string>)
    ensures m.Some? <==> filtered == []
    ensures m.Some? ==> (m.value == NoMatchMessage <==> query != "")
    ensures m.Some? ==> (m.value == NoIssuesMessage <==> query == "")
  {
    if filtered == [] then Some(if query != "" then NoMatchMessage else NoIssuesMessage)
    else None
  }

  /** A query of white space only keeps every issue, yet on an empty list it
      gets the no-match message, because the message tests the raw query. */
  lemma BlankQueryMessage()
    ensures FilteredIssues([], " ") == []
    ensures EmptyStateMessage(FilteredIssues([], " "), " ") == Some(NoMatchMessage)
  {
    assert IsSpace(" "[0]);
  }
}
