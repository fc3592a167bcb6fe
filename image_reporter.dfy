/** The photo report page (`ImageReporterPage`): picking a photo, then
    sending it to the classifier and handing the answer on. The classifier's
    answer for each file is a parameter. */
module ImageReporter {
  import opened Types

  const NoFileMessage: string := "Please select an image file first."
  const UnknownAnalysisError: string := "An unknown error occurred during analysis."

  class ImageReporterPage {
    var isLoading: bool
    var error: Option<string>
    var preview: Option<string>
    var imageFile: Option<ImageFile>

    constructor ()
      ensures !isLoading && error.None? && preview.None? && imageFile.None?
    {
      isLoading := false;
      error := None;
      preview := None;
      imageFile := None;
    }

    /** The Analyze button is disabled while no photo is chosen. */
    predicate AnalyzeDisabled()
      reads this
    {
      imageFile.None?
    }

    /** `handleFileChange`: the first picked file becomes the photo, with its
      preview URL, and the error is cleared; an empty pick changes nothing. */
    method HandleFileChange(files: Option<seq<ImageFile>>, objectUrl: ImageFile -> string)
      modifies this`error, this`imageFile, this`preview
      ensures files.Some? && |files.value| > 0 ==>
        && imageFile == Some(files.value[0]) && !AnalyzeDisabled()
        && preview == Some(objectUrl(files.value[0]))
        && error.None?
      ensures !(files.Some? && |files.value| > 0) ==>
        imageFile == old(imageFile) && preview == old(preview) && error == old(error)
    {
      if files.Some? && |files.value| > 0 {
        var file := files.value[0];
        error := None;
        imageFile := Some(file);
        preview := Some(objectUrl(file));
      }
    }

    /** `handleAnalyze`, given what the classifier answers for each file:
      without a photo only the error is set; otherwise loading starts, a
      result is handed on with the loader left showing, and a failure turns
      the loader off and shows the message. */
    method HandleAnalyze(analysis: ImageFile -> Outcome<ImageAnalysisResult>)
      returns (handedOn: Option<ImageAnalysisResult>)
      modifies this`isLoading, this`error
      ensures imageFile == old(imageFile) && AnalyzeDisabled() == old(AnalyzeDisabled())
      ensures AnalyzeDisabled() ==>
        && error == Some(NoFileMessage) && isLoading == old(isLoading) && handedOn.None?
      ensures !AnalyzeDisabled() ==> (handedOn.Some? <==> isLoading)
      ensures imageFile.Some? && analysis(imageFile.value).Returned? ==>
        && handedOn == Some(analysis(imageFile.value).value)
        && isLoading && error.None?
      ensures imageFile.Some? && analysis(imageFile.value).Threw? ==>
        && handedOn.None? && !isLoading
        && error == Some(ErrorText(analysis(imageFile.value).thrown, UnknownAnalysisError))
    {
      if imageFile.None? {
        error := Some(NoFileMessage);
        handedOn := None;
        return;
      }
      isLoading := true;
      error := None;
      match analysis(imageFile.value) {
        case Returned(result) =>
          handedOn := Some(result);
        case Threw(e) =>
          error := Some(ErrorText(e, UnknownAnalysisError));
          isLoading := false;
          handedOn := None;
      }
    }
  }
}
