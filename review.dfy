/** The review step (`ReviewStep`): how the chosen category is named and
    which optional sections are shown. */
module Review {
  import opened Types
  import opened Constants
  import opened Strings
  import AddDetails
  import UploadMedia

  /** The catalog entry with the id, if any. */
  function FindCategory(categories: seq<IssueCategory>, id: string): (c: Option<IssueCategory>)
    ensures c.Some? ==> c.value in categories && c.value.id == id
    ensures c.None? <==> forall i :: 0 <= i < |categories| ==> categories[i].id != id
  {
    if categories == [] then None
    else if categories[0].id == id then Some(categories[0])
    else FindCategory(categories[1..], id)
  }

  /** The ids of a category list are distinct and its names are not empty. */
  predicate WellFormedCatalog(categories: seq<IssueCategory>) {
    && (forall i, j :: 0 <= i < j < |categories| ==> categories[i].id != categories[j].id)
    && (forall i :: 0 <= i < |categories| ==> categories[i].name != "")
  }

  /** `find(...)?.name || manualCategory` over a category list: the name of
      the entry with the id, or the raw text when no entry has it. */
  function CategoryName(categories: seq<IssueCategory>, manualCategory: string): (name: string)
    requires WellFormedCatalog(categories)
    ensures (forall i :: 0 <= i < |categories| ==> categories[i].id != manualCategory) ==>
      name == manualCategory
    ensures forall i :: 0 <= i < |categories| && categories[i].id == manualCategory ==>
      name == categories[i].name
  {
    match FindCategory(categories, manualCategory)
    case None => manualCategory
    case Some(c) => if c.name != "" then c.name else manualCategory
  }

  /** `manualCategoryName`: the name in the application's category catalog. */
  function ManualCategoryName(manualCategory: string): string {
    IssueCategoriesWellFormed();
    CategoryName(IssueCategories, manualCategory)
  }

  lemma IssueCategoriesWellFormed()
    ensures WellFormedCatalog(IssueCategories)
  {
    IssueCategoriesShape();
  }

  /** `finalCategory`: the custom text for "other", the catalog name
      otherwise. `None` renders as an empty field. */
  function FinalCategory(data: IssueReport): (shown: Option<string>)
    ensures data.manualCategory == OtherCategoryId ==> shown == data.customCategory
    ensures data.manualCategory != OtherCategoryId ==> shown == Some(ManualCategoryName(data.manualCategory))
  {
    if data.manualCategory == OtherCategoryId then data.customCategory
    else Some(ManualCategoryName(data.manualCategory))
  }

  /** The recurring field. */
  function RecurringText(data: IssueReport): string {
    if data.isRecurring == Some(true) then "Yes" else "No"
  }

  /** The notes section is shown when there are notes. */
  predicate NotesShown(data: IssueReport) {
    data.additionalNotes.Some? && data.additionalNotes.value != ""
  }

  /** The photos section is shown when there are photos. */
  predicate PhotosShown(data: IssueReport) {
    |data.images| > 0
  }

  /** After the details step the review reads back what was entered there:
      "Yes" exactly when the toggle was on, and the notes section exactly
      when the notes were not blank. */
  lemma DetailsShownOnReview(d: IssueReport, isRecurring: bool, notes: string)
    ensures var d2 := Merge(d, AddDetails.DetailsUpdate(isRecurring, notes));
      && (RecurringText(d2) == "Yes" <==> isRecurring)
      && (RecurringText(d2) == "No" <==> !isRecurring)
      && (NotesShown(d2) <==> !AllSpace(notes))
  {
  }

  /** After photos are picked the photos section is shown exactly when the
      draft held photos or some were picked; removing the only photo hides
      it again. */
  lemma PhotosShownOnReview(d: IssueReport, files: seq<ImageFile>, f: ImageFile)
    ensures PhotosShown(Merge(d, UploadMedia.HandleFileChange(d.images, Some(files)).value))
            <==> |d.images| + |files| > 0
    ensures !PhotosShown(Merge(d.(images := [f]), UploadMedia.HandleRemoveImage([f], 0)))
  {
  }

  /** Every catalog category is shown by its catalog name, and the "other"
      choice by the custom text. */
  lemma CatalogCategoriesNamed(data: IssueReport, i: nat)
    requires i < |IssueCategories| && data.manualCategory == IssueCategories[i].id
    ensures IssueCategories[i].id != OtherCategoryId ==> FinalCategory(data) == Some(IssueCategories[i].name)
    ensures IssueCategories[i].id == OtherCategoryId ==> FinalCategory(data) == data.customCategory
  {
    IssueCategoriesWellFormed();
  }

  /** A text that is no catalog id, such as a category the photo analysis
      named, is shown as it is. */
  lemma UnknownCategoryShownRaw(data: IssueReport)
    requires data.manualCategory != OtherCategoryId
    requires forall i :: 0 <= i < |IssueCategories| ==> IssueCategories[i].id != data.manualCategory
    ensures FinalCategory(data) == Some(data.manualCategory)
  {
    IssueCategoriesWellFormed();
  }
}
