/**
 * The homepage gallery editor (src/app/admin/gallery/page.tsx): it uploads
 * one image at a time and appends its URL, removes an image by its
 * position, and in both cases saves the new list before showing it.
 */
module GalleryPage {
  import opened Wrappers
  import opened Http
  import opened JsStrings
  import opened JsArrays

  /** The most images the page lets an upload start from. */
  const MaxImages := 8

  /** What the upload endpoint answered: the stored file's URL, or a refusal with its error. */
  datatype UploadAnswer = Uploaded(url: string) | UploadRefused(error: Option<string>)

  /** The upload input and button are enabled: fewer than eight images and no upload running. */
  predicate UploadEnabled(images: seq<string>, uploading: bool) {
    !uploading && |images| < MaxImages
  }

  /** The text of the error `saveGalleryImages` throws for a refused save. */
  function SaveError(save: Answer): (text: string)
    ensures Truthy(save.error) ==> text == save.error.value
    ensures !Truthy(save.error) ==> text == "Failed to save"
  {
    OrDefault(save.error, "Failed to save")
  }

  /** The text of the error the upload step throws for a refused upload. */
  function UploadError(error: Option<string>): (text: string)
    ensures Truthy(error) ==> text == error.value
    ensures !Truthy(error) ==> text == "Upload failed"
  {
    OrDefault(error, "Upload failed")
  }

  /** Removing the image an upload just appended gives back the list before it. */
  lemma RemoveUndoesUpload(images: seq<string>, url: string)
    ensures RemoveAt(images + [url], |images|) == images
  {
    assert (images + [url])[..|images|] == images;
  }

  /** Removing an image by position keeps every other image, in order. */
  lemma RemoveKeepsOthers(images: seq<string>, index: nat)
    requires index < |images|
    ensures RemoveAt(images, index) == images[..index] + images[index + 1..]
    ensures multiset(RemoveAt(images, index)) + multiset{images[index]} == multiset(images)
  {
    assert images == images[..index] + [images[index]] + images[index + 1..];
  }

  /** The page's state. */
  class GalleryAdmin {
    var images: seq<string>
    var uploading: bool
    /** The lists handed to the gallery save request, oldest first. */
    var saves: seq<seq<string>>
    /** The files sent to the upload endpoint, oldest first. */
    var uploads: seq<string>
    /** The URLs sent to the storage delete request (None for an index past the end), oldest first. */
    var deletions: seq<Option<string>>
    var toasts: seq<Toast>

    constructor ()
      ensures images == [] && !uploading
      ensures saves == [] && uploads == [] && deletions == [] && toasts == []
    {
      images, uploading := [], false;
      saves, uploads, deletions, toasts := [], [], [], [];
    }

    /**
     * `loadGalleryImages`, given what the request produced: the stored list,
     * or the empty list when the reply has none; a failure keeps the list and
     * shows a toast.
     */
    method LoadGallery(result: Fetch<Option<seq<string>>>)
      modifies this
      ensures result.Loaded? ==> images == result.value.GetOr([]) && toasts == old(toasts)
      ensures result.Threw? ==>
        images == old(images) && toasts == old(toasts) + [Toast("Failed to load gallery images", false)]
      ensures uploading == old(uploading) && saves == old(saves) && uploads == old(uploads) && deletions == old(deletions)
    {
      match result {
        case Loaded(data) => images := data.GetOr([]);
        case Threw(_) => toasts := toasts + [Toast("Failed to load gallery images", false)];
      }
    }

    /**
     * `saveGalleryImages(list)`: it sends the list; a refused save shows a
     * toast and is reported back as the error to rethrow.
     */
    method SaveGallery(list: seq<string>, save: Answer) returns (failure: Option<string>)
      modifies this
      ensures saves == old(saves) + [list]
      ensures save.ok ==> failure.None? && toasts == old(toasts)
      ensures !save.ok ==> failure == Some(SaveError(save))
      ensures !save.ok ==> toasts == old(toasts) + [Toast("Failed to save gallery images: " + SaveError(save), false)]
      ensures images == old(images) && uploading == old(uploading) && uploads == old(uploads) && deletions == old(deletions)
    {
      saves := saves + [list];
      if save.ok {
        failure := None;
      } else {
        failure := Some(OrDefault(save.error, "Failed to save"));
        toasts := toasts + [Toast("Failed to save gallery images: " + failure.value, false)];
      }
    }

    /**
     * The start of `handleImageUpload` for the selected files: nothing at
     * all when none is selected; otherwise `uploading` is on and the first
     * file is sent.
     */
    method StartUpload(files: seq<string>) returns (started: bool)
      modifies this
      ensures started <==> files != []
      ensures !started ==> uploading == old(uploading) && uploads == old(uploads)
      ensures started ==> uploading && uploads == old(uploads) + [files[0]]
      ensures images == old(images) && saves == old(saves) && deletions == old(deletions) && toasts == old(toasts)
    {
      if files == [] {
        return false;
      }
      uploading := true;
      uploads := uploads + [files[0]];
      started := true;
    }

    /**
     * The rest of `handleImageUpload` once the upload endpoint answered: a
     * stored file's URL is appended to a copy of the list, the copy is saved,
     * and the list shown becomes the copy only when the save succeeds. Any
     * failure leaves the list as it was. `uploading` is off afterwards.
     */
    method FinishUpload(upload: UploadAnswer, save: Answer)
      modifies this
      ensures upload.Uploaded? ==> saves == old(saves) + [old(images) + [upload.url]]
      ensures upload.Uploaded? && save.ok ==>
        images == old(images) + [upload.url] && toasts == old(toasts) + [Toast("Image uploaded successfully", true)]
      ensures upload.Uploaded? && !save.ok ==>
        && images == old(images)
        && toasts == old(toasts) + [Toast("Failed to save gallery images: " + SaveError(save), false),
                                    Toast("Failed to upload image: " + SaveError(save), false)]
      ensures upload.UploadRefused? ==>
        && images == old(images) && saves == old(saves)
        && toasts == old(toasts) + [Toast("Failed to upload image: " + UploadError(upload.error), false)]
      ensures !uploading
      ensures uploads == old(uploads) && deletions == old(deletions)
    {
      match upload {
        case UploadRefused(error) =>
          toasts := toasts + [Toast("Failed to upload image: " + OrDefault(error, "Upload failed"), false)];
        case Uploaded(url) =>
          var newImages := images + [url];
          var failure := SaveGallery(newImages, save);
          if failure.None? {
            images := newImages;
            toasts := toasts + [Toast("Image uploaded successfully", true)];
          } else {
            toasts := toasts + [Toast("Failed to upload image: " + failure.value, false)];
          }
      }
      uploading := false;
    }

    /**
     * `handleImageUpload` from start to end. Started while the page allows
     * it, a successful upload leaves at most eight images.
     */
    method HandleUpload(files: seq<string>, upload: UploadAnswer, save: Answer)
      modifies this
      ensures files == [] ==>
        && images == old(images) && uploading == old(uploading) && saves == old(saves) && toasts == old(toasts)
        && uploads == old(uploads)
      ensures files != [] ==> uploads == old(uploads) + [files[0]] && !uploading
      ensures files != [] && upload.Uploaded? ==> saves == old(saves) + [old(images) + [upload.url]]
      ensures files != [] && upload.Uploaded? && save.ok ==>
        images == old(images) + [upload.url] && toasts == old(toasts) + [Toast("Image uploaded successfully", true)]
      ensures files != [] && upload.Uploaded? && !save.ok ==>
        && images == old(images)
        && toasts == old(toasts) + [Toast("Failed to save gallery images: " + SaveError(save), false),
                                    Toast("Failed to upload image: " + SaveError(save), false)]
      ensures files != [] && upload.UploadRefused? ==>
        && images == old(images) && saves == old(saves)
        && toasts == old(toasts) + [Toast("Failed to upload image: " + UploadError(upload.error), false)]
      ensures deletions == old(deletions)
      ensures UploadEnabled(old(images), old(uploading)) ==> |images| <= MaxImages
    {
      var started := StartUpload(files);
      if started {
        FinishUpload(upload, save);
      }
    }

    /**
     * `removeImage(index)`, given the user's answer to the confirmation and
     * how the save went. Without
     * confirmation nothing happens. Otherwise the file is deleted from
     * storage, and whatever that answered the list without the image is
     * saved; the list shown becomes it only when the save succeeds.
     */
    method RemoveImage(index: int, confirmed: bool, save: Answer)
      modifies this
      ensures !confirmed ==>
        images == old(images) && saves == old(saves) && deletions == old(deletions) && toasts == old(toasts)
      ensures confirmed ==>
        deletions == old(deletions) + [if 0 <= index < |old(images)| then Some(old(images)[index]) else None]
      ensures confirmed ==> saves == old(saves) + [RemoveAt(old(images), index)]
      ensures confirmed && save.ok ==>
        images == RemoveAt(old(images), index) && toasts == old(toasts) + [Toast("Image removed successfully", true)]
      ensures confirmed && !save.ok ==>
        && images == old(images)
        && toasts == old(toasts) + [Toast("Failed to save gallery images: " + SaveError(save), false),
                                    Toast("Failed to remove image", false)]
      ensures uploading == old(uploading) && uploads == old(uploads)
    {
      if !confirmed {
        return;
      }
      var imageToDelete := if 0 <= index < |images| then Some(images[index]) else None;
      var newImages := RemoveAt(images, index);
      deletions := deletions + [imageToDelete];
      var failure := SaveGallery(newImages, save);
      if failure.None? {
        images := newImages;
        toasts := toasts + [Toast("Image removed successfully", true)];
      } else {
        toasts := toasts + [Toast("Failed to remove image", false)];
      }
    }
  }
}
