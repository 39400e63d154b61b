/** The analysis form: a requirement, a result count and a clustering flag,
    sent to POST /api/analyze for classification plus similar requirements. */
module ClassifyAndSearch {
  import opened Api
  import opened Text
  import opened TopN

  const BlankError := "Please enter a requirement"
  const RangeError := "Top N must be between 1 and 20"
  const DefaultError := "An error occurred during analysis"

  /** The `formData` record. */
  datatype Fields = Fields(requirement: string, top_n: Num, use_clustering: bool)

  const InitialFields := Fields([], Int(DefaultTopN), false)

  /** A change event from one of the controls wired to handleChange: the
      requirement textarea reports its `value`, the clustering checkbox its
      `checked`. */
  datatype ChangeEvent = RequirementInput(value: string) | ClusteringToggle(checked: bool)

  /** Body of POST /api/analyze. */
  datatype Payload = Payload(requirement: string, top_n: Num, use_clustering: bool)

  class Form {
    var formData: Fields
    var loading: bool
    var error: string
    var results: Option<Analysis>
    /** The requests the form has sent, oldest first. */
    var requests: seq<Payload>

    /** The count is never out of range: every handler that writes it clamps
        it or restores the default. */
    ghost predicate Valid()
      reads this
    {
      !OutOfRange(formData.top_n)
    }

    constructor ()
      ensures Valid()
      ensures formData == InitialFields && !loading && error == [] && results == None && requests == []
    {
      formData, loading, error, results, requests := InitialFields, false, [], None, [];
    }

    /** handleChange: only the field named by the event changes. */
    method HandleChange(e: ChangeEvent)
      modifies this`formData
      ensures e.RequirementInput? ==> formData == old(formData).(requirement := e.value)
      ensures e.ClusteringToggle? ==> formData == old(formData).(use_clustering := e.checked)
    {
      match e {
        case RequirementInput(value) => formData := formData.(requirement := value);
        case ClusteringToggle(checked) => formData := formData.(use_clustering := checked);
      }
    }

    /** handleTopNChange, given the parsed control text. */
    method HandleTopNChange(parsed: Num)
      modifies this`formData
      ensures Valid()
      ensures formData == old(formData).(top_n := Clamp(parsed))
    {
      formData := formData.(top_n := Clamp(parsed));
    }

    /** What validateForm reports about the current fields, if anything. */
    function Problem(): Option<string>
      reads this
    {
      CheckQuery(formData.requirement, formData.top_n, BlankError, RangeError)
    }

    /** validateForm: reports the first failed check in `error`. On a valid
        form the range check never fails, so only the blank check can. */
    method ValidateForm() returns (ok: bool)
      modifies this`error
      ensures ok <==> Problem() == None
      ensures ok ==> error == old(error)
      ensures !ok ==> Some(error) == Problem()
      ensures Valid() && !ok ==> error == BlankError
    {
      var check := Problem();
      ok := check.None?;
      if !ok {
        error := check.value;
      }
    }

    /** `disabled={loading || !formData.requirement.trim()}`, negated: the
        button is live exactly when no request is running and the text holds
        a character that is not whitespace. On a valid form a click on a live
        button passes validation. */
    predicate SubmitEnabled()
      reads this
      ensures SubmitEnabled() <==>
        !loading && exists i :: 0 <= i < |formData.requirement| && !IsWhitespace(formData.requirement[i])
      ensures Valid() && SubmitEnabled() ==> Problem() == None
    {
      !loading && !IsBlank(formData.requirement)
    }

    /** The transport: a request can only leave while the form is loading. */
    method Send(p: Payload)
      requires loading
      modifies this`requests
      ensures requests == old(requests) + [p]
    {
      requests := requests + [p];
    }

    /** The try/catch/finally around the request: store the body on success,
        the server's message or the default on failure, and clear `loading`
        whichever way the request ended. */
    method Resolve(response: Response<Analysis>)
      modifies this`results, this`error, this`loading
      ensures !loading
      ensures response.Ok? ==> results == Some(response.data) && error == old(error)
      ensures response.Fail? ==> results == old(results) && error == ErrorMessage(response.message, DefaultError) && error != []
    {
      match response {
        case Ok(data) => results := Some(data);
        case Fail(message) => error := ErrorMessage(message, DefaultError);
      }
      loading := false;
    }

    /** handleSubmit, with the server's answer given as `response`. */
    method HandleSubmit(response: Response<Analysis>)
      modifies this
      ensures formData == old(formData)
      ensures old(Valid()) ==> Valid()
      ensures Problem().Some? ==>
        Some(error) == Problem()
        && loading == old(loading) && results == old(results) && requests == old(requests)
      ensures Problem().None? ==>
        requests == old(requests) + [Payload(Trim(formData.requirement), formData.top_n, formData.use_clustering)]
        && !loading
      ensures Problem().None? && response.Ok? ==>
        results == Some(response.data) && error == []
      ensures Problem().None? && response.Fail? ==>
        results == old(results) && error == ErrorMessage(response.message, DefaultError) && error != []
    {
      var ok := ValidateForm();
      if !ok {
        return;
      }
      loading := true;
      error := [];
      Send(Payload(Trim(formData.requirement), formData.top_n, formData.use_clustering));
      Resolve(response);
    }

    /** handleReset: the initial fields, no results, no error. */
    method HandleReset()
      modifies this`formData, this`results, this`error
      ensures Valid()
      ensures formData == InitialFields && results == None && error == []
    {
      formData := InitialFields;
      results := None;
      error := [];
    }
  }
}
