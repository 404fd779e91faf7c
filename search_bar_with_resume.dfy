/**
 * The search bar with a résumé upload button (SearchBarWithResume.tsx). The
 * awaited `onFileUpload` is split at the await: its outcome is a parameter of
 * `EndFileChange`; the navigation and the three-second banner timer are outside
 * the model, the timer's effect being the explicit `HideSuccess`.
 */
module SearchBarWithResume {
  import opened Wrappers
  import opened ResumeFiles

  const BadType := "Please upload a PDF or DOC file"
  const UploadFailed := "Failed to upload file"

  class Bar {
    var query: string
    var file: Option<UploadFile>
    var uploading: bool
    var uploadSuccess: bool
    var error: Option<string>

    constructor()
      ensures query == "" && file == None && !uploading && !uploadSuccess && error == None
    {
      query := "";
      file := None;
      uploading := false;
      uploadSuccess := false;
      error := None;
    }

    /**
     * The start of `handleFileChange`: nothing selected changes nothing; a file of
     * another type sets the banner and is not uploaded; an allowed file starts the upload.
     */
    method BeginFileChange(selected: Option<UploadFile>) returns (upload: bool)
      modifies this
      ensures upload <==> selected.Some? && Allowed(selected.value)
      ensures selected.None? ==> uploading == old(uploading) && error == old(error)
      ensures selected.Some? && !Allowed(selected.value) ==> error == Some(BadType) && uploading == old(uploading)
      ensures upload ==> uploading && error == None
      ensures file == old(file) && uploadSuccess == old(uploadSuccess) && query == old(query)
    {
      if selected.None? {
        return false;
      }
      if !Allowed(selected.value) {
        error := Some(BadType);
        return false;
      }
      uploading := true;
      error := None;
      return true;
    }

    /** The end of `handleFileChange`: a completed upload stores the file and shows the success banner; a failed one the error. */
    method EndFileChange(selected: UploadFile, uploaded: bool)
      modifies this
      ensures uploaded ==> file == Some(selected) && uploadSuccess && error == old(error)
      ensures !uploaded ==> error == Some(UploadFailed) && file == old(file) && uploadSuccess == old(uploadSuccess)
      ensures !uploading && query == old(query)
    {
      if uploaded {
        file := Some(selected);
        uploadSuccess := true;
      } else {
        error := Some(UploadFailed);
      }
      uploading := false;
    }

    /** The banner timer firing. */
    method HideSuccess()
      modifies this
      ensures !uploadSuccess
      ensures file == old(file) && uploading == old(uploading) && error == old(error) && query == old(query)
    {
      uploadSuccess := false;
    }

    /** `removeFile` */
    method RemoveFile()
      modifies this
      ensures file == None
      ensures uploading == old(uploading) && uploadSuccess == old(uploadSuccess) && error == old(error) && query == old(query)
    {
      file := None;
    }

    /** The search input's `onChange`: only the query changes. */
    method QueryChange(q: string)
      modifies this
      ensures query == q
      ensures file == old(file) && uploading == old(uploading) && uploadSuccess == old(uploadSuccess) && error == old(error)
    {
      query := q;
    }

    /** `handleSubmit`: the query handed to `onSearch`, unchanged. */
    method Submit() returns (searched: string)
      ensures searched == query
    {
      searched := query;
    }
  }
}
