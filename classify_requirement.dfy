/** The single-requirement form: one text field, sent trimmed to
    POST /api/classify. */
module ClassifyRequirement {
  import opened Api
  import opened Text

  const BlankError := "Please enter a requirement to classify"
  const DefaultError := "An error occurred during classification"

  /** Body of POST /api/classify. */
  datatype Payload = Payload(requirement: string)

  class Form {
    var requirement: string
    var loading: bool
    var error: string
    var result: Option<Classification>
    /** The requests the form has sent, oldest first. */
    var requests: seq<Payload>

    constructor ()
      ensures requirement == [] && !loading && error == [] && result == None && requests == []
    {
      requirement, loading, error, result, requests := [], false, [], None, [];
    }

    /** The text input's onChange. */
    method SetRequirement(value: string)
      modifies this`requirement
      ensures requirement == value
    {
      requirement := value;
    }

    /** `disabled={loading || !requirement.trim()}`, negated: the button is
        live exactly when no request is running and the text holds a
        character that is not whitespace, so the blank guard of handleSubmit
        cannot fire on a click. */
    predicate SubmitEnabled()
      reads this
      ensures SubmitEnabled() <==> !loading && exists i :: 0 <= i < |requirement| && !IsWhitespace(requirement[i])
    {
      !loading && !IsBlank(requirement)
    }

    /** The transport: a request can only leave while the form shows it is
        loading. */
    method Send(p: Payload)
      requires loading
      modifies this`requests
      ensures requests == old(requests) + [p]
    {
      requests := requests + [p];
    }

    /** The try/catch/finally around the request: store the body on success,
        the server's message or the default on failure, and clear `loading`
        whichever way the request ended. */
    method Resolve(response: Response<Classification>)
      modifies this`result, this`error, this`loading
      ensures !loading
      ensures response.Ok? ==> result == Some(response.data) && error == old(error)
      ensures response.Fail? ==> result == old(result) && error == ErrorMessage(response.message, DefaultError) && error != []
    {
      match response {
        case Ok(data) => result := Some(data);
        case Fail(message) => error := ErrorMessage(message, DefaultError);
      }
      loading := false;
    }

    /** handleSubmit, with the server's answer given as `response`. */
    method HandleSubmit(response: Response<Classification>)
      modifies this
      ensures requirement == old(requirement)
      ensures IsBlank(requirement) ==>
        error == BlankError && loading == old(loading) && result == old(result) && requests == old(requests)
      ensures !IsBlank(requirement) ==>
        requests == old(requests) + [Payload(Trim(requirement))] && !loading
      ensures !IsBlank(requirement) && response.Ok? ==> result == Some(response.data) && error == []
      ensures !IsBlank(requirement) && response.Fail? ==>
        result == old(result) && error == ErrorMessage(response.message, DefaultError) && error != []
    {
      if IsBlank(requirement) {
        error := BlankError;
        return;
      }
      loading := true;
      error := [];
      Send(Payload(Trim(requirement)));
      Resolve(response);
    }

    /** handleReset: leaves `loading` and the request log alone. */
    method HandleReset()
      modifies this`requirement, this`result, this`error
      ensures requirement == [] && result == None && error == []
    {
      requirement := [];
      result := None;
      error := [];
    }
  }
}
