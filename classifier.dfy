/** The two calls to the external classifier and what the application does
    with their replies. The classifier itself, the prompt text, the response
    schemas and the JSON parsing are outside the model: each call takes the
    parsed reply, or what was thrown on the way to it, from an oracle. */
module Classifier {
  import opened Types

  /** The one message every failure of the text path turns into. */
  const CategorizeFailureMessage: string := "Failed to categorize issue. Please try again."

  /** The one message every failure of the photo path turns into. */
  const AnalyzeFailureMessage: string := "Failed to analyze image. Please check the file and try again."

  /** `customCategory || manualCategory`: the custom text when it is present
      and non-empty, the manual choice otherwise. */
  function SelectedCategory(manualCategory: string, customCategory: Option<string>): (c: string)
    ensures customCategory.Some? && customCategory.value != "" ==> c == customCategory.value
    ensures customCategory.None? || customCategory.value == "" ==> c == manualCategory
  {
    OrElse(customCategory, manualCategory)
  }

  /** What the text request tells the classifier about the report. */
  datatype CategorizationRequest = CategorizationRequest(selectedCategory: string, description: string)

  /** The text reply after parsing: the priority is still the reply's text. */
  datatype ParsedCategorization = ParsedCategorization(category: string, priority: string, summary: string)

  /** The photo reply after parsing: the priority is still the reply's text. */
  datatype ParsedImageAnalysis = ParsedImageAnalysis(
    issueDetected: bool,
    category: string,
    description: string,
    priority: string,
    summary: string)

  /** `categorizeIssue`: asks the classifier about the description under the
      selected category; the reply's priority is forced into the enum
      (Medium when it names none of the three values) and nothing else in the
      reply is touched; any failure becomes one fixed error. */
  method CategorizeIssue(
    description: string, manualCategory: string, customCategory: Option<string>,
    classify: CategorizationRequest -> Outcome<ParsedCategorization>)
    returns (r: Outcome<CategorizationResult>)
    ensures var reply := classify(CategorizationRequest(SelectedCategory(manualCategory, customCategory), description));
      && (r.Threw? <==> reply.Threw?)
      && (r.Threw? ==> r.thrown == ErrorValue(CategorizeFailureMessage))
      && (r.Returned? ==>
            && r.value.priority.Listed()
            && r.value.category == reply.value.category
            && r.value.summary == reply.value.summary
            && (reply.value.priority in {"Low", "Medium", "High"} ==>
                  PriorityToText(r.value.priority) == reply.value.priority
                  && r.value.priority == PriorityFromText(reply.value.priority))
            && (reply.value.priority !in {"Low", "Medium", "High"} ==> r.value.priority == Medium))
  {
    var selectedCategory := SelectedCategory(manualCategory, customCategory);
    var reply := classify(CategorizationRequest(selectedCategory, description));
    match reply {
      case Threw(_) =>
        r := Threw(ErrorValue(CategorizeFailureMessage));
      case Returned(parsed) =>
        var result := CategorizationResult(parsed.category, PriorityFromText(parsed.priority), parsed.summary);
        if !result.priority.Listed() {
          result := result.(priority := Medium);
        }
        r := Returned(result);
    }
  }

  /** `analyzeIssueFromImage`: asks the classifier about the photo; only when
      the reply says an issue was detected is its priority forced into the
      enum, otherwise the reply comes back as parsed; any failure, including
      reading the file, becomes one fixed error. */
  method AnalyzeIssueFromImage(file: ImageFile, analyze: ImageFile -> Outcome<ParsedImageAnalysis>)
    returns (r: Outcome<ImageAnalysisResult>)
    ensures var reply := analyze(file);
      && (r.Threw? <==> reply.Threw?)
      && (r.Threw? ==> r.thrown == ErrorValue(AnalyzeFailureMessage))
      && (r.Returned? ==>
            && r.value.issueDetected == reply.value.issueDetected
            && r.value.category == reply.value.category
            && r.value.description == reply.value.description
            && r.value.summary == reply.value.summary
            && (reply.value.issueDetected ==> r.value.priority.Listed())
            && (reply.value.issueDetected && reply.value.priority !in {"Low", "Medium", "High"} ==> r.value.priority == Medium)
            && ((!reply.value.issueDetected || reply.value.priority in {"Low", "Medium", "High"})
                ==> PriorityToText(r.value.priority) == reply.value.priority
                    && r.value.priority == PriorityFromText(reply.value.priority)))
  {
    var reply := analyze(file);
    match reply {
      case Threw(_) =>
        r := Threw(ErrorValue(AnalyzeFailureMessage));
      case Returned(parsed) =>
        var result := ImageAnalysisResult(
          parsed.issueDetected, parsed.category, parsed.description,
          PriorityFromText(parsed.priority), parsed.summary);
        if result.issueDetected && !result.priority.Listed() {
          result := result.(priority := Medium);
        }
        r := Returned(result);
    }
  }
}
