# Civic issue reporting — a Dafny model

This project models the logic of a citizen issue-reporting web application
(repository Dinesh12966/SIH, a React/TypeScript single-page app). A citizen
signs in and sees a dashboard of issues. The dashboard can search them by id
and shows two status counts. The citizen reports a new issue in one of two
ways: a step-by-step wizard, or a photo that an AI classifier analyses. The
submitted issue is then added at the front of the list.

What is modelled:

- **`Wizard`**: the reporting wizard (`IssueReporter`).
  - The list of active steps, filtered from the step catalog.
  - The draft report, updated by shallow merges.
  - The bounded `next` and `back` moves.
  - The describe-step submit, which merges the classifier's result or records its error.
  - The effect that seeds the draft from a photo analysis.
  - The per-step `onNext` callbacks and the render guard.
  - It is a class with the component's four state fields.
- **`Classifier`**: what the application does with the classifier's replies.
  - The custom category wins over the manual one.
  - A priority outside the enum is forced to Medium. On the photo path this happens only when an issue was detected.
  - Every failure becomes one fixed message.
- **`App`**: the shell.
  - The views and the handlers that move between them.
  - The display name derived from an e-mail address.
  - The citizen and issue ids.
  - The issue built from a submitted draft and prepended to the list.
  - The lookup of the selected issue.
  - It is a class with the shell's six state fields and an invariant that every handler keeps.
- **`Dashboard`**: the case-insensitive, trimmed id search, the two status counts and the empty-list message.
- **Wizard steps**, one module each:
  - `UploadMedia`: append and remove-by-index.
  - `DescribeIssue`: the length guard, button and hint.
  - `SpecifyCategory`: the trimmed custom category.
  - `AddDetails`: the recurring toggle and trimmed notes.
  - `CategorizeIssue`: the edit/save/cancel toggle, priority style, title and navigation.
  - `Review`: the category label and the optional sections.
- **`StepIndicator`**: each step's state, clip shape and z-order.
- **`ImageReporter`**: the photo page's file pick and analyse transitions.
- **`IssueDetail`**: the timeline icons and connectors, and the photos section.
- **`Login` and `Signup`**: the non-blank guards and the buttons that agree with them.
- **`Constants`**: the step catalog, the category catalog and the sample issues, with their invariants.
- **Shared modules**:
  - `Types`: the records, the `Partial<IssueReport>` merge and the thrown-value message.
  - `Strings`: JavaScript's `trim`, `toLowerCase`, `includes`, `split('@')[0]`, the two `replace` calls, `toString`, `slice(-4)` and `substring`.
  - `Sequences`: order-preserving sub-lists.

The classifier, the clock, the random source, `URL.createObjectURL` and the
outcome of each asynchronous call are all parameters:

- an oracle function from the request to the parsed reply, or to what was thrown;
- `now` and `today` values for the clock;
- a base-36 text for the random source;
- a function from a file to its URL for `URL.createObjectURL`.

Each React handler is one atomic transition. Where a callback uses the step
list of the render that created it, the model uses the list from before the
update.

Two things the code does not do, and the model does not do either:

- After the manual category changes, the code does not move the step index back to 0 when the step it points at leaves the list. `Wizard.IssueReporter.SelectCategory` keeps the index it computed. Past the end, the wizard renders nothing (`Wizard.IssueReporter.Render`).
- The response schema asks the classifier for an empty category and an empty summary when the photo shows no issue (services/geminiService.ts:50 and 63). The code does not check or enforce this. `Classifier.AnalyzeIssueFromImage` passes the reply's fields through unchanged.

## Model

| member | source | states |
|---|---|---|
| Types.OrElse | App.tsx:74-75 | `a \|\| b` on an optional string: the value when present and non-empty, the fallback otherwise |
| Types.PriorityFromText | types.ts:1-5 | reading a reply's priority text gives back that text, and the value is one of the enum's three exactly when the text spells one |
| Types.PriorityTextRoundTrip | types.ts:1-5 | a priority read back from its own text is the same priority |
| Types.MergeEmpty | components/IssueReporter.tsx:73-75 | merging a partial object with no keys leaves the draft unchanged |
| Types.MergeIdempotent | components/IssueReporter.tsx:57-64 | merging the same partial object twice equals merging it once, so the photo seeding is idempotent |
| Types.MergeCombine | components/IssueReporter.tsx:93-96 | two merges in a row equal one merge of the combined partial object, with the later value winning |
| Types.MergeDisjointCommute | components/IssueReporter.tsx:73-75 | merges of partial objects with disjoint keys can be applied in either order |
| Types.ErrorText | components/IssueReporter.tsx:99 | an `Error`'s message, or the fallback for any other thrown value |
| Constants.ReportingStepsShape | constants.ts:3-12 | the catalog's ids are distinct and run select_category, specify_category, describe, categorize, media, details, review; the location step is not one of them |
| Constants.IssueCategoriesShape | constants.ts:14-23 | category ids are distinct, "other" is one of them, and every name is non-empty |
| Constants.MockIssuesShape | constants.ts:26-90 | sample issue ids are distinct; every sample timeline starts with Created and ends with the issue's status |
| Strings.Trim | pages/DashboardPage.tsx:72-73 | `trim` gives a slice whose removed ends are white space and whose own ends are not; it is empty exactly for blank input |
| Strings.Utf16Length | components/steps/DescribeIssueStep.tsx:13 | `length` counts UTF-16 code units: between one and two per character, and exactly one per character when no character is astral |
| Strings.TrimIdempotent | components/steps/SpecifyCategoryStep.tsx:14 | trimming twice equals trimming once |
| Strings.ToLower | pages/DashboardPage.tsx:73 | lower-casing keeps the length, maps each character on its own and leaves no upper-case ASCII letter |
| Strings.ToLowerTrim | pages/DashboardPage.tsx:73 | lower-casing commutes with trimming |
| Strings.IncludesIff | pages/DashboardPage.tsx:73 | `includes` holds exactly when the text occurs at some position |
| Strings.BeforeFirstAt | App.tsx:32 | `split('@')[0]`: a prefix with no '@' that stops at the first '@' or at the end |
| Strings.ReplaceDots | App.tsx:32 | every '.' becomes a space and every other character stays in place |
| Strings.CapitalizeWordsAt | App.tsx:32 | the capitalising scan upper-cases exactly the characters where `\b\w` matches |
| Strings.NatToString | App.tsx:31 | the decimal numeral: at least one digit, all digits, no leading zero, and its digits denote exactly the number |
| Strings.LastDigitsValue | App.tsx:71 | the last k characters of a number's numeral denote the number modulo 10^k |
| Strings.LastChars | App.tsx:71 | `slice(-k)`: the last k characters, or the whole text when it is shorter |
| Strings.Substring | App.tsx:31 | `substring(start, end)` with both ends clamped: at most end-start characters from position start; exactly the slice when end is in range, the rest of the string from start when the string ends before end, empty when start is past the end |
| Classifier.SelectedCategory | services/geminiService.ts:72 | the custom category when it is present and non-empty, the manual category otherwise |
| Classifier.CategorizeIssue | services/geminiService.ts:70-110 | fails exactly when the call fails, always with the one fixed message; on success the priority is in the enum, a listed priority is the one read from its text, any other becomes Medium, and category and summary are as parsed |
| Classifier.AnalyzeIssueFromImage | services/geminiService.ts:114-156 | fails exactly when the call fails, with the one fixed message; every field but the priority is as parsed; the priority is forced into the enum only when an issue was detected, and otherwise is the priority read from the reply's text |
| Wizard.FilterSteps | components/IssueReporter.tsx:43-53 | the derived list is an order-preserving sub-list of the catalog, and a step is in it exactly when the filter keeps it |
| Wizard.FilterAppend | components/IssueReporter.tsx:45-47 | filtering distributes over concatenation |
| Wizard.ImageStepsExact | components/IssueReporter.tsx:44-45 | on the photo path the list is exactly categorize, media, details and review, so select_category, specify_category and describe never appear |
| Wizard.ManualStepsOther | components/IssueReporter.tsx:47-52 | on the manual path with the choice "other", every catalog step is shown |
| Wizard.ManualStepsNotOther | components/IssueReporter.tsx:47-52 | on the manual path with any other choice, every catalog step except specify_category is shown, in catalog order |
| Wizard.StepsShape | components/IssueReporter.tsx:43-53 | the list always has at least four steps; specify_category is in it exactly on the manual path with the choice "other" |
| Wizard.FindStepIndex | components/IssueReporter.tsx:65 | `findIndex`: the first position holding the id, or -1 when there is none |
| Wizard.CatalogStepsHaveScreens | components/IssueReporter.tsx:117-134 | every catalog step has a case in the step switch; the location step's id falls to the default |
| Wizard.IssueReporter.constructor | components/IssueReporter.tsx:16-40 | the wizard starts with the initial draft, no loading, no error and index 0 |
| Wizard.IssueReporter.CurrentStep | components/IssueReporter.tsx:71 | there is a current step exactly when the index is inside the derived list, and it is one of the list's steps |
| Wizard.IssueReporter.Render | components/IssueReporter.tsx:114-141 | the loader while loading; nothing when the index is past the list; otherwise the screen of the current step's id, each of the seven ids with the draft fields its case passes (the custom category, the description, the draft and the photo flag, the images, the draft), and nothing for any other id |
| Wizard.RenderShowsStep | components/IssueReporter.tsx:114-141 | outside loading, with the index inside the list, a step screen is always shown |
| Wizard.IssueReporter.ApplyImageData | components/IssueReporter.tsx:55-68 | with photo data, the five analysed fields are merged into the draft and the index is the first position of categorize; without it nothing changes |
| Wizard.ImagePathScenario | components/IssueReporter.tsx:55-68 | opened with photo data and seeded, the wizard is at index 0 on the categorize step with the analysed description, category and summary in the draft; seeding again leaves the draft and the index as they were |
| Wizard.IssueReporter.UpdateIssueData | components/IssueReporter.tsx:73-75 | the draft becomes the shallow merge of the old draft and the partial object |
| Wizard.IssueReporter.NextStep | components/IssueReporter.tsx:77-81 | the index grows by exactly one before the last step and is unchanged otherwise, so an index inside the list stays inside it |
| Wizard.IssueReporter.PrevStep | components/IssueReporter.tsx:83-88 | after the first step, the index drops by one and the error is cleared; at index 0 nothing changes, the error included |
| Wizard.IssueReporter.SelectCategory | components/IssueReporter.tsx:119 | the manual choice is merged, and the index moves on within the step list the choice was made on |
| Wizard.IssueReporter.SpecifyCategory | components/IssueReporter.tsx:121 | the custom category is merged, the step list is unchanged, and the index moves on within it |
| Wizard.IssueReporter.SubmitDetails | components/IssueReporter.tsx:129 | the details are merged and the index moves on within the list of the render; the list is unchanged unless the details carry a manual category |
| Wizard.IssueReporter.HandleDescriptionSubmit | components/IssueReporter.tsx:90-103 | the description is always stored; a result is merged and the index moves one step on with no error; a failure sets the thrown message as the error and keeps the index and the rest of the draft; loading is off in both cases |
| Wizard.IssueReporter.HandleSubmit | components/IssueReporter.tsx:105-112 | the draft is handed on as it stands and the loader is shown |
| App.DisplayName | App.tsx:32 | the name has the length of the e-mail's local part, holds no '@' and no '.', and upper-cases exactly the characters that start a word once dots are spaces |
| App.CitizenId | App.tsx:31 | "CID-", digits that denote the clock, "-", then exactly `substring(2, 8)` of the random base-36 text, so at most six characters |
| App.IssueIdFor | App.tsx:71 | "IS-" followed by the last four digits of the clock, which denote the clock modulo 10000: at most seven characters, exactly seven from 1000 on |
| App.PriorityOrLow | App.tsx:76 | a missing or empty priority becomes Low; any other is kept |
| App.BuildIssue | App.tsx:70-87 | id from the clock; the title, category and priority defaults; status Submitted; the submission date; a two-event timeline Created then Submitted, consistent with the status; the description, location and manual location copied; one URL per photo, in order |
| App.FindIssue | App.tsx:108 | `find` by exact id: the first issue with the id, or none exactly when no issue has it |
| App.FindNewest | App.tsx:89 | a newly prepended issue is the one found for its id, even when an older issue shares that id |
| App.IssueIdCanRepeat | App.tsx:71 | a clock value ending in 2341 yields the id of the first sample issue, so ids are not unique |
| App.PrependValid | App.tsx:89 | prepending an issue with a consistent timeline keeps the sample issues at the end and every timeline consistent |
| App.App.constructor | App.tsx:22-27 | signed out, on the sign-in view, with the sample issues and nothing selected; the invariant holds |
| App.App.RenderContent | App.tsx:95-115 | a blank render exactly for a dashboard without a user, a detail view without a selected id or without an issue of that id, or an acknowledgement without its issue; login, sign-up, photo reporting and reporting (with the photo data) show their screens; the dashboard shows the user and the list; the detail view shows the first issue with the selected id; the acknowledgement shows the new issue |
| App.ValidNeverBlank | App.tsx:101-111 | in every state the handlers can reach, the shell never renders blank |
| App.App.HandleLogin | App.tsx:30-35 | the user gets the derived display name, the e-mail and a citizen id, and the view becomes the dashboard |
| App.App.HandleSignup | App.tsx:37-41 | the user gets the given name, the e-mail and a citizen id, and the view becomes the dashboard |
| App.App.HandleLogout | App.tsx:43-46 | the user is cleared and the view becomes sign-in |
| App.App.HandleSelectIssue | App.tsx:48-51 | the id is recorded and the view becomes the issue detail |
| App.App.HandleBackToDashboard | App.tsx:53-58 | the selection, the photo data and the acknowledged issue are cleared, and the view becomes the dashboard |
| App.App.HandleImageAnalysisComplete | App.tsx:60-68 | a detected issue is stored and opens the wizard; otherwise the alert text is returned, the view becomes the dashboard and the stored photo data is unchanged |
| App.App.HandleReportSubmit | App.tsx:70-92 | the built issue is prepended with the old list following unchanged, is recorded as the new issue, and the view becomes the acknowledgement |
| App.App.Acknowledge | App.tsx:89-91 | for an issue with a consistent timeline: it is prepended, with the old list following, and acknowledged; the invariant is kept |
| App.SubmitKeepsValid | App.tsx:89-91 | prepending and acknowledging an issue with a consistent timeline keeps the shell's invariant |
| App.App.SetView | pages/DashboardPage.tsx:104-113 | the view becomes the one a page's link names |
| Dashboard.MatchingIssues | pages/DashboardPage.tsx:73 | an order-preserving sub-list holding exactly the issues whose id matches, each as many times as in the list |
| Dashboard.FilteredIssues | pages/DashboardPage.tsx:71-74 | a blank query returns the list unchanged; otherwise an order-preserving sub-list holding exactly the issues whose lower-cased id contains the lower-cased, trimmed query, each as many times as in the list |
| Dashboard.FilterIgnoresPadding | pages/DashboardPage.tsx:72-73 | trimming the query does not change the result |
| Dashboard.FilterIgnoresCase | pages/DashboardPage.tsx:72-73 | lower-casing the query does not change the result |
| Dashboard.MatchingSameTest | pages/DashboardPage.tsx:73 | two queries with the same trimmed, lower-cased text select the same issues |
| Dashboard.CountWhere | pages/DashboardPage.tsx:68-69 | a count is never more than the number of issues |
| Dashboard.CountsPartition | pages/DashboardPage.tsx:68-69 | the in-progress, resolved and rejected counts add up to the total, so the two cards never exceed it |
| Dashboard.CountsAfterSubmit | pages/DashboardPage.tsx:68-69 | a new Submitted issue adds one to the in-progress card and nothing to the resolved card |
| Dashboard.EmptyStateMessage | pages/DashboardPage.tsx:143-145 | a message only for an empty list: the no-match text exactly when the raw query is non-empty, the no-issues text otherwise |
| Dashboard.BlankQueryMessage | pages/DashboardPage.tsx:143-145 | a query of spaces filters nothing out, yet an empty list gets the no-match text |
| UploadMedia.HandleFileChange | components/steps/UploadMediaStep.tsx:14-20 | no update without a file list; otherwise only the images key, holding the old photos then the picked ones, with the lengths adding up |
| UploadMedia.RemoveAt | components/steps/UploadMediaStep.tsx:23 | an in-range index is cut out of the list; an out-of-range index leaves it unchanged |
| UploadMedia.HandleRemoveImage | components/steps/UploadMediaStep.tsx:22-24 | only the images key; for an in-range index, one photo fewer, earlier photos kept, and later photos moved down one place |
| UploadMedia.RemoveLastAdded | components/steps/UploadMediaStep.tsx:18-23 | removing a photo just appended gives the old list back |
| UploadMedia.AddKeepsDuplicates | components/steps/UploadMediaStep.tsx:18 | adding a photo already present keeps both copies |
| DescribeIssue.HandleNext | components/steps/DescribeIssueStep.tsx:12-16 | the text goes on exactly when its trimmed `length`, in UTF-16 code units, exceeds 10, and it goes on untrimmed |
| DescribeIssue.ControlsAgree | components/steps/DescribeIssueStep.tsx:36-43 | the button is enabled exactly when a click hands the text on, and the hint shows exactly when the button is disabled |
| DescribeIssue.GuardIgnoresPadding | components/steps/DescribeIssueStep.tsx:13 | surrounding white space never changes whether the text can be sent |
| DescribeIssue.TenCharactersRefused | components/steps/DescribeIssueStep.tsx:13-42 | a text of ten UTF-16 code units with no white space at its ends is refused while the hint is shown |
| DescribeIssue.AstralCharacterCountsTwice | components/steps/DescribeIssueStep.tsx:13 | ten characters, one of them outside the Basic Multilingual Plane (an emoji), count as more than ten units and pass the guard |
| DescribeIssue.HandleNextAsHinted | components/steps/DescribeIssueStep.tsx:42 | with the guard the hint describes, the text goes on exactly when its trimmed length in UTF-16 code units is at least 10 |
| DescribeIssue.HintedGuardAgrees | components/steps/DescribeIssueStep.tsx:41-43 | with that guard, the hint shows exactly when the text is refused, and a text of ten code units is accepted |
| SpecifyCategory.InitialText | components/steps/SpecifyCategoryStep.tsx:10 | the draft's custom category, or the empty text |
| SpecifyCategory.HandleNext | components/steps/SpecifyCategoryStep.tsx:12-16 | no call exactly for blank input; otherwise the trimmed, non-empty text |
| SpecifyCategory.ButtonMatchesHandler | components/steps/SpecifyCategoryStep.tsx:41 | Next is enabled exactly when a click hands a value on |
| SpecifyCategory.ResubmitSameValue | components/steps/SpecifyCategoryStep.tsx:10-14 | coming back with the stored value and pressing Next again hands on the same value |
| AddDetails.InitialRecurring | components/steps/AddDetailsStep.tsx:11 | the toggle starts on exactly when the draft says the issue recurs |
| AddDetails.InitialNotes | components/steps/AddDetailsStep.tsx:12 | the draft's notes, or the empty text |
| AddDetails.DetailsUpdate | components/steps/AddDetailsStep.tsx:15 | exactly two keys: the toggle as it stands and the trimmed notes |
| AddDetails.AddDetailsForm.constructor | components/steps/AddDetailsStep.tsx:11-12 | the form starts from the draft's toggle and notes, with their defaults |
| AddDetails.AddDetailsForm.ChooseYes | components/steps/AddDetailsStep.tsx:30 | the toggle is on, whatever it was before |
| AddDetails.AddDetailsForm.ChooseNo | components/steps/AddDetailsStep.tsx:39 | the toggle is off, whatever it was before |
| AddDetails.AddDetailsForm.EditNotes | components/steps/AddDetailsStep.tsx:58 | the notes become the typed text |
| AddDetails.AddDetailsForm.HandleNext | components/steps/AddDetailsStep.tsx:14-16 | hands on the form's toggle and trimmed notes |
| AddDetails.ReopenedFormRepeats | components/steps/AddDetailsStep.tsx:11-15 | reopening the step on the merged draft and pressing Next again hands on the same values |
| CategorizeIssue.StyleKey | components/steps/CategorizeIssueStep.tsx:32 | a missing or empty priority uses the Medium style; a listed priority uses its own; a non-empty text outside the enum has no style |
| CategorizeIssue.ClassifiedPrioritiesStyled | components/steps/CategorizeIssueStep.tsx:32 | every priority the classifier can hand the step has a style |
| CategorizeIssue.PathControls | components/steps/CategorizeIssueStep.tsx:34-111 | the photo title goes with the disabled Back button; the editor appears only on the photo path and only while Confirm is disabled |
| CategorizeIssue.CategorizeForm.constructor | components/steps/CategorizeIssueStep.tsx:28-29 | not editing, with the draft's description in the editor |
| CategorizeIssue.CategorizeForm.StartEditing | components/steps/CategorizeIssueStep.tsx:66 | edit mode is on and Confirm is disabled; the editor shows on the photo path |
| CategorizeIssue.CategorizeForm.EditText | components/steps/CategorizeIssueStep.tsx:52 | the editor holds the typed text |
| CategorizeIssue.CategorizeForm.Save | components/steps/CategorizeIssueStep.tsx:39-42 | hands on exactly the edited description and leaves edit mode |
| CategorizeIssue.CategorizeForm.Cancel | components/steps/CategorizeIssueStep.tsx:56 | leaves edit mode, hands nothing on, and keeps the unsaved text |
| CategorizeIssue.SaveChangesOnlyDescription | components/steps/CategorizeIssueStep.tsx:39-40 | merging the saved update changes only the draft's description |
| Review.FindCategory | components/steps/ReviewStep.tsx:12 | `find` by id: a catalog entry with the id, or none exactly when no entry has it |
| Review.CategoryName | components/steps/ReviewStep.tsx:12 | over a catalog with distinct ids and non-empty names: an id in the catalog shows its name, and any other text shows as itself |
| Review.FinalCategory | components/steps/ReviewStep.tsx:13 | the custom category for "other", the resolved name otherwise |
| Review.CatalogCategoriesNamed | components/steps/ReviewStep.tsx:12-13 | every catalog category shows its name, and "other" shows the custom text |
| Review.UnknownCategoryShownRaw | components/steps/ReviewStep.tsx:12-13 | a manual category that is no catalog id, such as one the photo analysis wrote, is shown as it is |
| Review.DetailsShownOnReview | components/steps/ReviewStep.tsx:40-43 | after the details step, "Yes" shows exactly when the toggle was on, and the notes section shows exactly when the notes were not blank |
| Review.PhotosShownOnReview | components/steps/ReviewStep.tsx:49 | after photos are picked, the photos section shows exactly when there is at least one photo; removing the only photo hides it |
| StepIndicator.StateOf | components/StepIndicator.tsx:14-19 | active exactly at the current index, completed exactly before it, upcoming exactly after it |
| StepIndicator.ClipOf | components/StepIndicator.tsx:25-30 | the first-step shape at index 0, wins over the last-step shape; the last-step shape at the last index otherwise; the middle shape elsewhere |
| StepIndicator.Views | components/StepIndicator.tsx:44-52 | one view per step, in order, with its title, state, shape and z-index len − i |
| StepIndicator.ExactlyOneActive | components/StepIndicator.tsx:48-49 | with the index inside the list, exactly one step is active, the earlier ones are completed and the later ones upcoming |
| StepIndicator.ZOrderDecreasing | components/StepIndicator.tsx:45 | z-indices are positive and strictly decreasing along the list |
| StepIndicator.SingleStepClip | components/StepIndicator.tsx:25-30 | a one-step list draws its step with the first-step shape |
| ImageReporter.ImageReporterPage.constructor | pages/ImageReporterPage.tsx:22-25 | no loading, no error, no preview, no file |
| ImageReporter.ImageReporterPage.HandleFileChange | pages/ImageReporterPage.tsx:28-35 | the first picked file becomes the photo, with its preview URL, the error is cleared and Analyze is enabled; with no file nothing changes |
| ImageReporter.ImageReporterPage.HandleAnalyze | pages/ImageReporterPage.tsx:37-51 | with Analyze disabled, only the no-file error is set and loading is unchanged; a result is handed on with the error cleared and the loader still on; a failure sets the thrown message and turns loading off |
| IssueDetail.TimelineIcon | pages/IssueDetailPage.tsx:22-52 | Resolved always gets the completed icon; any other last event gets the current icon; every other event gets the past icon |
| IssueDetail.TimelineRows | pages/IssueDetailPage.tsx:90-96 | one row per event, in order; an event is last exactly at index len − 1, and a connector is drawn exactly for the others |
| IssueDetail.ConnectorsAllButLast | pages/IssueDetailPage.tsx:92 | the last event has no connector and every other event has one |
| IssueDetail.LastEventMatchesStatus | pages/IssueDetailPage.tsx:35-36 | on a consistent timeline the last event shows as current exactly when the issue is not resolved, and as completed exactly when it is; the creation event never shows as completed |
| IssueDetail.PhotosShownAfterSubmit | pages/IssueDetailPage.tsx:123 | a submitted issue's detail page shows photos exactly when its review step did, with one picture per photo |
| Login.HandleSubmit | pages/LoginPage.tsx:14-19 | the call is made exactly when both trimmed fields are non-empty, and it passes the trimmed e-mail |
| Login.ButtonMatchesHandler | pages/LoginPage.tsx:72 | Sign In is enabled exactly when submitting makes the call |
| Login.PasswordNotSent | pages/LoginPage.tsx:17 | any two usable passwords lead to the same call, so the password is not passed on |
| Signup.HandleSubmit | pages/SignupPage.tsx:15-20 | the call is made exactly when all three trimmed fields are non-empty, and it passes the trimmed name and e-mail |
| Signup.ButtonMatchesHandler | pages/SignupPage.tsx:90 | Create Account is enabled exactly when submitting makes the call |
| Signup.PasswordNotSent | pages/SignupPage.tsx:18 | any two usable passwords lead to the same call |
| Signup.SentFieldsTrimmed | pages/SignupPage.tsx:18 | the name and e-mail passed on have no white space at either end |

## Left out

- The AI classifier itself is not modelled. This covers the Gemini client, the prompts, the response schemas, `JSON.parse`, the base-64 reading of the file and the `API_KEY` start-up check. Each call takes the parsed reply, or what was thrown, from an oracle parameter.
- Logging is not modelled: the `console.warn` on a coerced priority and the `console.error` before each fixed failure message (services/geminiService.ts:101, 108, 147 and 154) have no effect on any result.
- `Date.now`, `Math.random`, `new Date()` and `URL.createObjectURL` are parameters. The three date reads in one submission are taken as one `today` value.
- Asynchrony and the React lifecycle are not modelled. This includes the `useMemo` and `useEffect` re-runs, the 1.5-second `setTimeout` before the wizard hands the draft on, and unmounting. Each handler is one atomic transition. `Wizard.IssueReporter.HandleSubmit` shows the loader and returns the draft; the later call to the shell is the shell's `App.App.HandleReportSubmit`.
- `Wizard.IssueReporter.HandleDescriptionSubmit` takes what `categorizeIssue` returned as a parameter. It does not call `Classifier.CategorizeIssue` itself, which specifies that call on its own.
- `ImageReporter.ImageReporterPage.HandleAnalyze` takes the analysis outcome as a parameter in the same way.
- App.App handlers: each one requires the view whose page renders its callback. `HandleSelectIssue` also requires the id of a listed issue. `SetView` only allows the links the sign-in, sign-up and dashboard pages draw. A call from any other state is not modelled.
- `window.alert` is not displayed. `App.App.HandleImageAnalysisComplete` returns its text instead. `window.print` is on the acknowledgement page, which is not part of this model.
- The location and map step is not part of this model: `LocationStep`, `GoogleMapsStep` and the float coordinates. That step is commented out of the catalog. Locations are carried through only as opaque values.
- These files are not part of this model: `Loader`, `AcknowledgementPage`, `SelectCategoryStep` (it only forwards a catalog id), `PasswordInput`, every style, icon and animation, and the image page's loader screen. The `preview` shown under a picked photo is kept only as a state field.
- `length` is modelled as UTF-16 code units (`Strings.Utf16Length`) in the description guard. `slice(-4)` and `substring(2, 8)` (`Strings.LastChars`, `Strings.Substring`) index characters; their inputs, a decimal numeral and base-36 text, are ASCII, where characters and code units coincide. Lone surrogates cannot occur in a Dafny string and are not modelled.
- `toLowerCase` and `toUpperCase` are modelled for ASCII letters only. Other characters are left unchanged. `\w` and `\b` follow JavaScript's non-Unicode classes. `trim` uses the full ECMAScript white-space set.
- `Number.prototype.toString` is modelled for the non-negative integers a clock can give. `toString(36)` of the random number is a parameter.
- The coercion of the parsed reply's priority in place is modelled as an update of a local value. Nothing else holds a reference to that object.
- A `Partial<IssueReport>` is a record of optional keys. No handler in the code sets a key to `undefined`, so that case is not represented.
- Review.FinalCategory: for "other" with no custom category it returns `None`. The page renders that as an empty field; the rendering is not modelled.
- App.App.Valid keeps the sample issues at the end of the list as a ghost constant. Only the handlers' effect on the list is modelled; the React re-render of the dashboard is not.

## Findings

| source | as written | input that shows it | evidently intended | confidence | as-written member | corrected member |
|---|---|---|---|---|---|---|
| components/steps/DescribeIssueStep.tsx:13 | the guard is `description.trim().length > 10`, and the button and hint use `<= 10`, while the hint reads "Please enter at least 10 characters." | a description of exactly ten non-space ASCII characters, such as "abcdefghij": it is refused and the hint asking for at least 10 characters is still shown | accept a trimmed length of at least 10 (`>= 10`), with the hint shown only below 10 | not executed | DescribeIssue.TenCharactersRefused | DescribeIssue.HintedGuardAgrees |
