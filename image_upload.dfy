/** The drag-and-drop upload widget: a bounded list of picked files that can be
    removed, reordered and handed to the page's upload handler. */
module ImageUpload {
  import opened Common
  import opened Splice
  import opened Text

  const DefaultMaxFiles: nat := 5

  /** A picked file; its preview URL is browser state and is not modelled. */
  datatype File = File(name: string, size: nat)

  function TooManyFilesMessage(maxFiles: nat): string
  {
    "You can only upload a maximum of " + NatToString(maxFiles) + " files"
  }

  const NoFilesMessage := "Please select at least one file to upload"

  class Uploader {
    const maxFiles: nat
    var files: seq<File>
    var uploading: bool
    var error: Option<string>

    /** The list never holds more files than allowed. */
    predicate Valid()
      reads this
    {
      |files| <= maxFiles
    }

    /** The component mounted with the `maxFiles` prop; `None` is a prop left
        undefined, which takes the default bound. */
    constructor (maxFiles: Option<nat>)
      ensures maxFiles.Some? ==> this.maxFiles == maxFiles.value
      ensures maxFiles.None? ==> this.maxFiles == DefaultMaxFiles
      ensures files == [] && !uploading && error.None?
      ensures Valid()
    {
      this.maxFiles := if maxFiles.Some? then maxFiles.value else DefaultMaxFiles;
      files := [];
      uploading := false;
      error := None;
    }

    /** `onDrop` with the files the dropzone accepted: all of them are appended in
        order unless that would exceed the bound, in which case none is. */
    method OnDrop(accepted: seq<File>)
      requires Valid()
      modifies this
      ensures Valid()
      ensures |old(files)| + |accepted| > maxFiles ==>
        files == old(files) && error == Some(TooManyFilesMessage(maxFiles))
      ensures |old(files)| + |accepted| <= maxFiles ==>
        files == old(files) + accepted && error.None?
      ensures uploading == old(uploading)
    {
      error := None;
      if |files| + |accepted| > maxFiles {
        error := Some(TooManyFilesMessage(maxFiles));
        return;
      }
      files := files + accepted;
    }

    /** `removeFile(index)` from the preview list. */
    method RemoveFile(index: nat)
      requires Valid() && index < |files|
      modifies this
      ensures Valid()
      ensures files == RemoveAt(old(files), index)
      ensures |files| == |old(files)| - 1
      ensures uploading == old(uploading) && error == old(error)
    {
      files := RemoveAt(files, index);
    }

    /** `handleDragEnd` of the preview list. */
    method DragEnd(source: nat, destination: Option<nat>)
      requires Valid() && source < |files|
      requires destination.Some? ==> destination.value < |files|
      modifies this
      ensures Valid()
      ensures destination.None? ==> files == old(files)
      ensures destination.Some? ==> files == Move(old(files), source, destination.value)
      ensures multiset(files) == multiset(old(files))
      ensures uploading == old(uploading) && error == old(error)
    {
      if destination.None? {
        return;
      }
      MovePermutes(files, source, destination.value);
      files := Move(files, source, destination.value);
    }

    /** `handleUpload` up to its `await`: returns the files given to `onUpload`, or
        `None` when there were none to give. */
    method BeginUpload() returns (request: Option<seq<File>>)
      requires Valid()
      modifies this
      ensures Valid()
      ensures old(files) == [] ==> request.None? && error == Some(NoFilesMessage) && uploading == old(uploading)
      ensures old(files) != [] ==> request == Some(old(files)) && error.None? && uploading
      ensures files == old(files)
    {
      if |files| == 0 {
        error := Some(NoFilesMessage);
        return None;
      }
      uploading := true;
      error := None;
      request := Some(files);
    }

    /** `handleUpload` once `onUpload` settled: success empties the list, failure
        keeps it and reports the error. */
    method UploadSettled(outcome: Outcome<()>)
      requires Valid()
      modifies this
      ensures Valid()
      ensures !uploading
      ensures outcome.Ok? ==> files == [] && error == old(error)
      ensures outcome.Err? ==>
        files == old(files) && error == Some(OrElse(outcome.failure.message, "Failed to upload images"))
    {
      if outcome.Ok? {
        files := [];
      } else {
        error := Some(OrElse(outcome.failure.message, "Failed to upload images"));
      }
      uploading := false;
    }
  }
}
