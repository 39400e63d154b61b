/** The batch form: a CSV file uploaded as multipart form data to
    POST /api/classify/file. */
module BatchClassify {
  import opened Api

  const CsvType := "text/csv"
  const FileField := "file"
  const InvalidFileError := "Please select a valid CSV file."
  const NoFileError := "Please select a CSV file to upload"
  const DefaultError := "An error occurred while processing the file"

  /** A multipart body holding exactly one CSV file, under the field "file". */
  predicate IsCsvUpload(d: FormData) {
    |d.entries| == 1 && d.entries[0].0 == FileField && d.entries[0].1.mimeType == CsvType
  }

  /** The multipart body of an upload of f: a fresh form with f appended
      under "file" and nothing else, so a CSV file makes a CSV upload. */
  function UploadOf(f: File): (d: FormData)
    ensures |d.entries| == 1 && d.entries[0] == (FileField, f)
    ensures IsCsvUpload(d) <==> f.mimeType == CsvType
  {
    FormData([(FileField, f)])
  }

  class Form {
    var file: Option<File>
    var loading: bool
    var error: string
    var results: Option<BatchReport>
    /** The value of the file input reached through `fileInputRef`; None while
        the ref is not attached to an element. */
    var inputValue: Option<string>
    /** The uploads the form has sent, oldest first. */
    var requests: seq<FormData>

    /** Only a CSV file is ever held, and only CSV files are ever uploaded. */
    ghost predicate Valid()
      reads this
    {
      (file.Some? ==> file.value.mimeType == CsvType)
      && forall i :: 0 <= i < |requests| ==> IsCsvUpload(requests[i])
    }

    constructor (input: Option<string>)
      ensures Valid()
      ensures file == None && !loading && error == [] && results == None
      ensures inputValue == input && requests == []
    {
      file, loading, error, results := None, false, [], None;
      inputValue, requests := input, [];
    }

    /** handleFileChange, given `e.target.files[0]` (None when the user picked
        nothing). Only the exact media type "text/csv" is accepted. */
    method HandleFileChange(selected: Option<File>)
      requires Valid()
      modifies this`file, this`error
      ensures Valid()
      ensures selected.Some? && selected.value.mimeType == CsvType ==> file == selected && error == []
      ensures !(selected.Some? && selected.value.mimeType == CsvType) ==>
        file == None && error == InvalidFileError
    {
      if selected.Some? && selected.value.mimeType == CsvType {
        file := selected;
        error := [];
      } else {
        file := None;
        error := InvalidFileError;
      }
    }

    /** `disabled={!file || loading}`, negated. On a valid form a live button
        means a click uploads the held file, and that upload is a CSV. */
    predicate SubmitEnabled()
      reads this
      ensures SubmitEnabled() ==> file.Some?
      ensures Valid() && SubmitEnabled() ==> IsCsvUpload(UploadOf(file.value))
    {
      file.Some? && !loading
    }

    /** The transport: a request can only leave while the form is loading. */
    method Send(d: FormData)
      requires loading
      modifies this`requests
      ensures requests == old(requests) + [d]
    {
      requests := requests + [d];
    }

    /** The try/catch/finally around the request: store the body on success,
        the server's message or the default on failure, and clear `loading`
        whichever way the request ended. */
    method Resolve(response: Response<BatchReport>)
      modifies this`results, this`error, this`loading
      ensures !loading
      ensures response.Ok? ==> results == Some(response.data) && error == old(error)
      ensures response.Fail? ==> results == old(results) && error == ErrorMessage(response.message, DefaultError) && error != []
    {
      match response {
        case Ok(data) => results := Some(data);
        case Fail(message) => error := ErrorMessage(message, DefaultError);
      }
      loading := false;
    }

    /** handleSubmit, with the server's answer given as `response`. */
    method HandleSubmit(response: Response<BatchReport>)
      requires Valid()
      modifies this
      ensures Valid()
      ensures file == old(file) && inputValue == old(inputValue)
      ensures file.None? ==>
        error == NoFileError && loading == old(loading) && results == old(results) && requests == old(requests)
      ensures file.Some? ==> requests == old(requests) + [UploadOf(file.value)] && !loading
      ensures file.Some? && response.Ok? ==> results == Some(response.data) && error == []
      ensures file.Some? && response.Fail? ==>
        results == old(results) && error == ErrorMessage(response.message, DefaultError) && error != []
    {
      if file.None? {
        error := NoFileError;
        return;
      }
      loading := true;
      error := [];
      Send(UploadOf(file.value));
      Resolve(response);
    }

    /** resetForm: forgets the file, the report and the error, and empties the
        file input when it is attached. */
    method ResetForm()
      requires Valid()
      modifies this`file, this`results, this`error, this`inputValue
      ensures Valid()
      ensures file == None && results == None && error == []
      ensures inputValue == if old(inputValue).Some? then Some([]) else None
    {
      file := None;
      results := None;
      error := [];
      if inputValue.Some? {
        inputValue := Some([]);
      }
    }
  }
}
