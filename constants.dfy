/** The static data of the application: the catalog of wizard steps, the
    issue categories and the issues the dashboard starts with. */
module Constants {
  import opened Types

  /** A wizard step: its id and the title the step indicator shows. */
  datatype StepDescriptor = StepDescriptor(id: string, title: string)

  const SelectCategoryId: string := "select_category"
  const SpecifyCategoryId: string := "specify_category"
  const DescribeId: string := "describe"
  const CategorizeId: string := "categorize"
  const MediaId: string := "media"
  const LocationId: string := "location"
  const DetailsId: string := "details"
  const ReviewId: string := "review"

  /** `REPORTING_STEPS`: every step the wizard can show, in order. The
      location step is switched off and is not in the list. */
  const ReportingSteps: seq<StepDescriptor> := [
    StepDescriptor(SelectCategoryId, "Category"),
    StepDescriptor(SpecifyCategoryId, "Specify"),
    StepDescriptor(DescribeId, "Describe"),
    StepDescriptor(CategorizeId, "AI Analysis"),
    StepDescriptor(MediaId, "Add Photos"),
    StepDescriptor(DetailsId, "Add Details"),
    StepDescriptor(ReviewId, "Review & Submit")
  ]

  /** An issue category the user can pick by hand. */
  datatype IssueCategory = IssueCategory(id: string, name: string)

  /** The id of the category that asks for a custom category text. */
  const OtherCategoryId: string := "other"

  /** `ISSUE_CATEGORIES`. */
  const IssueCategories: seq<IssueCategory> := [
    IssueCategory("roads_traffic", "Roads & Traffic"),
    IssueCategory("sanitation", "Waste & Sanitation"),
    IssueCategory("water_sewage", "Water & Sewage"),
    IssueCategory("public_spaces", "Parks & Public Spaces"),
    IssueCategory("electricity", "Electricity & Utilities"),
    IssueCategory("public_safety", "Public Safety"),
    IssueCategory("noise", "Noise Complaint"),
    IssueCategory(OtherCategoryId, "Other")
  ]

  /** `MOCK_ISSUES`: the issues the dashboard lists before anything is
      submitted. */
  const MockIssues: seq<Issue> := [
    Issue(
      "IS-2341", "Large pothole on Main St.", "Roads & Traffic", High, InProgress, "2024-07-28",
      [ TimelineEvent(Created, "2024-07-28", "Issue reported by a citizen."),
        TimelineEvent(Reached(Submitted), "2024-07-28", "Report automatically routed to the Public Works Department."),
        TimelineEvent(Reached(InProgress), "2024-07-29", "A maintenance team has been assigned and is scheduled to inspect the location.") ],
      "There is a massive pothole in the eastbound lane of Main St, right before the intersection with 1st Ave. It is deep and has already caused cars to swerve. It poses a significant danger, especially at night.",
      ["https://picsum.photos/seed/pothole/400/300"],
      Some(GeoPoint(28.6139, 77.2090)), None),
    Issue(
      "IS-2340", "Broken swing at Central Park", "Parks & Public Spaces", Medium, Resolved, "2024-07-25",
      [ TimelineEvent(Created, "2024-07-25", "Issue reported by a concerned parent."),
        TimelineEvent(Reached(Submitted), "2024-07-25", "Report sent to Parks & Recreation Dept."),
        TimelineEvent(Reached(InProgress), "2024-07-26", "Park maintenance staff have cordoned off the area."),
        TimelineEvent(Reached(Resolved), "2024-07-27", "The broken swing has been replaced. The issue is now resolved.") ],
      "One of the swings in the children's playground at Central Park has a broken chain. It is a safety hazard for kids playing in the area.",
      [],
      None, Some("Central Park, near the main fountain.")),
    Issue(
      "IS-2339", "Overflowing dustbin near City Hall", "Waste & Sanitation", Low, Submitted, "2024-07-29",
      [ TimelineEvent(Created, "2024-07-29", "Issue reported by a citizen."),
        TimelineEvent(Reached(Submitted), "2024-07-29", "Report has been forwarded to the Sanitation Department for scheduled pickup.") ],
      "The public trash can on the corner just outside City Hall has been overflowing for two days. It is becoming unsightly and attracting pests.",
      ["https://picsum.photos/seed/trash/400/300"],
      None, None),
    Issue(
      "IS-2338", "Streetlight not working", "Electricity & Utilities", Medium, Resolved, "2024-07-22",
      [ TimelineEvent(Created, "2024-07-22", "Issue reported by a resident."),
        TimelineEvent(Reached(Submitted), "2024-07-22", "Report routed to the Utilities Department."),
        TimelineEvent(Reached(InProgress), "2024-07-23", "A ticket has been created and a technician will be dispatched."),
        TimelineEvent(Reached(Resolved), "2024-07-24", "The streetlight bulb and sensor were replaced. The light is now operational.") ],
      "The streetlight at the corner of Elm Street and Oak Avenue is out. It is very dark at this intersection at night, making it unsafe for pedestrians.",
      [],
      None, None)
  ]

  /** The ids of a list of steps, in order. */
  function StepIds(steps: seq<StepDescriptor>): (ids: seq<string>)
    ensures |ids| == |steps|
    ensures forall i :: 0 <= i < |steps| ==> ids[i] == steps[i].id
  {
    seq(|steps|, i requires 0 <= i < |steps| => steps[i].id)
  }

  predicate Distinct(xs: seq<string>) {
    forall i, j :: 0 <= i < j < |xs| ==> xs[i] != xs[j]
  }

  /** The catalog holds seven steps with distinct ids, in the order the
      wizard walks them, and the location step is not among them. */
  lemma ReportingStepsShape()
    ensures StepIds(ReportingSteps)
         == [SelectCategoryId, SpecifyCategoryId, DescribeId, CategorizeId, MediaId, DetailsId, ReviewId]
    ensures Distinct(StepIds(ReportingSteps))
    ensures LocationId !in StepIds(ReportingSteps)
  {
  }

  /** Category ids are distinct and the "other" category is one of them. */
  lemma IssueCategoriesShape()
    ensures Distinct(seq(|IssueCategories|, i requires 0 <= i < |IssueCategories| => IssueCategories[i].id))
    ensures exists i :: 0 <= i < |IssueCategories| && IssueCategories[i].id == OtherCategoryId
    ensures forall i :: 0 <= i < |IssueCategories| ==> IssueCategories[i].name != ""
  {
    assert IssueCategories[7].id == OtherCategoryId;
  }

  /** Mock issue ids are distinct, and every mock timeline starts with
      `Created` and ends with the issue's status. */
  lemma MockIssuesShape()
    ensures Distinct(seq(|MockIssues|, i requires 0 <= i < |MockIssues| => MockIssues[i].id))
    ensures forall i :: 0 <= i < |MockIssues| ==> TimelineConsistent(MockIssues[i])
  {
  }
}
