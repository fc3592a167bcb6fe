/** The photo step (`UploadMediaStep`): picking files appends them to the
    draft's photos, removing one filters it out by position. Each handler
    hands the new list on as a partial draft. */
module UploadMedia {
  import opened Types

  /** `handleFileChange`: no update when the input yields no file list;
      otherwise the picked files after the current ones, with nothing
      dropped or merged. */
  function HandleFileChange(images: seq<ImageFile>, files: Option<seq<ImageFile>>): (update: Option<Patch>)
    ensures update.None? <==> files.None?
    ensures update.Some? ==>
      && update.value.images.Some?
      && var added := update.value.images.value;
      && |added| == |images| + |files.value|
      && added[..|images|] == images
      && added[|images|..] == files.value
      && (forall f :: f in images || f in files.value ==> f in added)
    ensures update.Some? ==> update.value == EmptyPatch.(images := update.value.images)
  {
    match files
    case None => None
    case Some(picked) =>
      var added := images + picked;
      assert added[..|images|] == images && added[|images|..] == picked;
      Some(EmptyPatch.(images := Some(added)))
  }

  /** `images.filter((_, index) => index !== indexToRemove)`. */
  function RemoveAt(images: seq<ImageFile>, indexToRemove: int): (r: seq<ImageFile>)
    ensures 0 <= indexToRemove < |images| ==> r == images[..indexToRemove] + images[indexToRemove + 1..]
    ensures !(0 <= indexToRemove < |images|) ==> r == images
    decreases |images|
  {
    if images == [] then []
    else
      var rest := RemoveAt(images[1..], indexToRemove - 1);
      if indexToRemove == 0 then
        rest
      else
        assert 0 < indexToRemove < |images| ==>
          [images[0]] + images[1..][..indexToRemove - 1] == images[..indexToRemove];
        assert [images[0]] + images[1..] == images;
        [images[0]] + rest
  }

  /** `handleRemoveImage`: the list with the photo at the position left out;
      every later photo moves down one place. */
  function HandleRemoveImage(images: seq<ImageFile>, indexToRemove: int): (update: Patch)
    ensures update.images.Some?
    ensures 0 <= indexToRemove < |images| ==>
      && |update.images.value| == |images| - 1
      && (forall j :: 0 <= j < indexToRemove ==> update.images.value[j] == images[j])
      && (forall j :: indexToRemove <= j < |images| - 1 ==> update.images.value[j] == images[j + 1])
    ensures !(0 <= indexToRemove < |images|) ==> update.images.value == images
    ensures update == EmptyPatch.(images := update.images)
  {
    EmptyPatch.(images := Some(RemoveAt(images, indexToRemove)))
  }

  /** Removing a photo just added as the last one gives the list back. */
  lemma RemoveLastAdded(images: seq<ImageFile>, f: ImageFile)
    ensures RemoveAt(images + [f], |images|) == images
  {
    assert (images + [f])[..|images|] == images;
  }

  /** Adding a photo that is already there keeps both copies. */
  lemma AddKeepsDuplicates(images: seq<ImageFile>, f: ImageFile)
    requires f in images
    ensures var added := HandleFileChange(images, Some([f])).value.images.value;
      |added| == |images| + 1 && added[|images|] == f
  {
  }
}
