# Requirement classification forms, modelled in Dafny

The front end of the requirements-classification service has four screens.
Each one is a small form state machine over React state hooks:

- classify one requirement (`POST /api/classify`);
- classify a CSV file of requirements (`POST /api/classify/file`);
- classify a requirement and find similar ones (`POST /api/analyze`);
- search for similar requirements (`POST /api/search`).

Each screen is modelled as a class `Form` in its own module. The class fields
mirror the component's `useState` hooks: the input fields, `loading`, `error`
and the stored results. The handlers are methods whose postconditions give
the whole new state. The server is not modelled. A submit handler receives
the server's answer as a parameter `response: Response<D>`, which is either
`Ok(data)` or `Fail(message)`. Every request the form sends is appended to a
`requests` field, so its payload can be checked. A request is sent through a
`Send` method that requires `loading`, which proves that the flag is set
before any request leaves.

Shared modules:

- `Text`: JavaScript's `String.prototype.trim` and the blank test `!s.trim()`,
  with lemmas that characterise exactly what trim removes.
- `Api`: the response model, the error-message fallback
  (`err.response?.data?.message || default`) and the request and response
  bodies.
- `TopN`: the `top_n` number control. It holds the `parseInt` result as
  `Num = Int(n) | NaN`, and it provides the clamp and the validation order
  that both search forms use.

`Scenarios` holds client sessions that work from the contracts alone: a
classification round trip, an upload refused by the server with its own
message, an analysis after clamped edits, and a search answer whose order is
kept.

Facts the model makes explicit:

- `parseInt` of an empty or non-numeric control gives NaN. Every comparison
  with NaN is false, so NaN passes both the clamp and the range check of
  `validateForm`, and the recorded payload holds NaN as the count. (JSON
  serialisation would turn it into `null` on the wire; serialisation is not
  modelled.) `TopN.Clamp` and
  `TopN.CheckQuery` state this; NaN is never treated as clamped.
- The range error of `validateForm` can never be raised in practice. Every
  handler that writes `top_n` either clamps it or restores the default 5. Each
  search form's `Valid()` invariant records this, and `TopN.ChangesKeepRange`
  proves it for any run of edits.
- Three behaviours of the source worth noting:
  - The file type is checked when the file is selected, not when the form is
    submitted. Submit only checks that a file is held.
  - A submission that fails validation leaves `loading` as it was. On the
    other paths `loading` is cleared once the request has finished.
  - The single-requirement reset does not touch `loading`.

## Model

| member | source | states |
|---|---|---|
| Text.TrimStartSpec | src/components/ClassifyRequirement.jsx:14 | leading trim drops exactly the longest whitespace prefix: what is kept is a suffix whose first character is not whitespace |
| Text.TrimEndSpec | src/components/ClassifyRequirement.jsx:24 | trailing trim drops exactly the longest whitespace suffix: what is kept is a prefix whose last character is not whitespace |
| Text.TrimIsInfix | src/components/ClassifyRequirement.jsx:24 | the trimmed requirement is a contiguous piece of the typed text with only whitespace on either side |
| Text.Trim | src/components/ClassifyAndSearch.jsx:61 | `.trim()` never lengthens the text, and the sent requirement neither starts nor ends with whitespace |
| Text.TrimEmptyIffAllWhitespace | src/components/ClassifyRequirement.jsx:14 | trim leaves the empty string exactly when every character is whitespace (both directions) |
| Text.IsBlank | src/components/ClassifyRequirement.jsx:14-17 | the blank test `!s.trim()` holds exactly when every character is whitespace |
| Text.NotBlankWith | src/components/SearchRequirements.jsx:36 | one non-whitespace character is enough to pass the blank guard |
| Text.TrimIdempotent | src/components/SearchRequirements.jsx:59 | trimming the already-trimmed payload changes nothing |
| Api.ErrorMessage | src/components/ClassifyRequirement.jsx:28 | the shown error is the server message when it is a non-empty string, the fixed default when it is absent or empty; it is always one of the two and is never empty when the default is not |
| TopN.Clamp | src/components/ClassifyAndSearch.jsx:25-35 | below 1 gives 1, above 20 gives 20, an in-range value or NaN is kept; the result never fails the range check |
| TopN.OutOfRange | src/components/SearchRequirements.jsx:41 | only an integer can fail the range check (`top_n` below 1 or above 20), and an integer fails it exactly when it lies outside [1, 20]; NaN never fails it |
| TopN.ChangesKeepRange | src/components/ClassifyAndSearch.jsx:25-46 | from any in-range count, no sequence of control edits can make the range check fail; with integer edits the count stays an integer in [1, 20] |
| TopN.FromDefaultStaysInRange | src/components/ClassifyAndSearch.jsx:8-12 | from the initial count 5, any sequence of integer edits keeps the count in [1, 20] |
| TopN.CheckQuery | src/components/ClassifyAndSearch.jsx:37-49 | a form passes validation iff the text is not blank and the count is not out of range; blank text is reported first, the range error only for non-blank text |
| ClassifyRequirement.Form.constructor | src/components/ClassifyRequirement.jsx:7-10 | empty requirement, not loading, no error, no result, no request sent |
| ClassifyRequirement.Form.SetRequirement | src/components/ClassifyRequirement.jsx:54 | typing replaces the requirement and nothing else |
| ClassifyRequirement.Form.SubmitEnabled | src/components/ClassifyRequirement.jsx:63 | the button is live exactly when not loading and the text holds a non-whitespace character, so a click gets past the blank guard |
| ClassifyRequirement.Form.Send | src/components/ClassifyRequirement.jsx:23-25 | a request leaves only while loading, and it is appended to the request log |
| ClassifyRequirement.Form.Resolve | src/components/ClassifyRequirement.jsx:26-31 | success stores the response body, failure keeps the old result and stores the server message or the default; loading is false on both paths |
| ClassifyRequirement.Form.HandleSubmit | src/components/ClassifyRequirement.jsx:12-32 | blank text: the blank error is set, no request is sent, loading and result are unchanged; otherwise exactly one request carrying the trimmed text is sent, then the success or failure state is set and loading ends false |
| ClassifyRequirement.Form.HandleReset | src/components/ClassifyRequirement.jsx:34-38 | requirement empty, no result, no error; loading and the request log are not touched |
| BatchClassify.Form.constructor | src/components/BatchClassify.jsx:8-12 | no file, not loading, no error, no report, nothing uploaded |
| BatchClassify.Form.HandleFileChange | src/components/BatchClassify.jsx:14-23 | a file of type exactly text/csv is held and the error is cleared; anything else, or no file, leaves no file and sets the invalid-file error; the report is untouched |
| BatchClassify.UploadOf | src/components/BatchClassify.jsx:35-36 | the multipart body holds the file under "file" and nothing else; it is a CSV upload exactly when the file's type is text/csv |
| BatchClassify.Form.SubmitEnabled | src/components/BatchClassify.jsx:93 | a live button implies a file is held, and on a valid form its upload is a CSV under field "file" |
| BatchClassify.Form.Send | src/components/BatchClassify.jsx:39-43 | an upload leaves only while loading, and it is appended to the request log |
| BatchClassify.Form.Resolve | src/components/BatchClassify.jsx:44-49 | success stores the report, failure keeps the old report and stores the server message or the default; loading is false on both paths |
| BatchClassify.Form.HandleSubmit | src/components/BatchClassify.jsx:25-50 | no file: the no-file error is set and nothing is uploaded; otherwise exactly one multipart request is sent, holding the selected file as its only field "file", and loading ends false; every upload ever sent is a CSV |
| BatchClassify.Form.ResetForm | src/components/BatchClassify.jsx:52-59 | no file, no report, no error; an attached file input is emptied, a detached one stays detached |
| ClassifyAndSearch.Form.constructor | src/components/ClassifyAndSearch.jsx:8-15 | fields {requirement "", top_n 5, use_clustering false}, not loading, no error, no results |
| ClassifyAndSearch.Form.HandleChange | src/components/ClassifyAndSearch.jsx:17-23 | the textarea sets only the requirement to its value, the checkbox sets only use_clustering to its checked state |
| ClassifyAndSearch.Form.HandleTopNChange | src/components/ClassifyAndSearch.jsx:25-35 | only top_n changes, to the clamped parse result, and the form stays within range |
| ClassifyAndSearch.Form.ValidateForm | src/components/ClassifyAndSearch.jsx:37-49 | succeeds iff the fields pass the checks, otherwise sets the first failing message; on an in-range form only the blank message can appear |
| ClassifyAndSearch.Form.SubmitEnabled | src/components/ClassifyAndSearch.jsx:140 | the button is live exactly when not loading and the text holds a non-whitespace character; on an in-range form a live button implies validation passes |
| ClassifyAndSearch.Form.Send | src/components/ClassifyAndSearch.jsx:60-64 | a request leaves only while loading, and it is appended to the request log |
| ClassifyAndSearch.Form.Resolve | src/components/ClassifyAndSearch.jsx:66-71 | success stores the analysis, failure keeps the old results and stores the server message or the default; loading is false on both paths |
| ClassifyAndSearch.Form.HandleSubmit | src/components/ClassifyAndSearch.jsx:51-72 | a validation failure sets its message and leaves the loading flag, results and request log unchanged; otherwise exactly one request {trimmed requirement, top_n, use_clustering as set} is sent and loading ends false |
| ClassifyAndSearch.Form.HandleReset | src/components/ClassifyAndSearch.jsx:74-82 | fields back to {"", 5, false}, no results, no error |
| SearchRequirements.Form.constructor | src/components/SearchRequirements.jsx:7-13 | fields {requirement "", top_n 5}, not loading, no error, no results |
| SearchRequirements.Form.HandleChange | src/components/SearchRequirements.jsx:15-21 | the textarea sets only the requirement to its value |
| SearchRequirements.Form.HandleTopNChange | src/components/SearchRequirements.jsx:23-33 | only top_n changes, to the clamped parse result, and the form stays within range |
| SearchRequirements.Form.ValidateForm | src/components/SearchRequirements.jsx:35-47 | succeeds iff the fields pass the checks, otherwise sets the first failing message; on an in-range form only the blank message can appear |
| SearchRequirements.Form.SubmitEnabled | src/components/SearchRequirements.jsx:120 | the button is live exactly when not loading and the text holds a non-whitespace character; on an in-range form a live button implies validation passes |
| SearchRequirements.Form.Send | src/components/SearchRequirements.jsx:57-61 | a request leaves only while loading, and it is appended to the request log |
| SearchRequirements.Form.Resolve | src/components/SearchRequirements.jsx:62-68 | success stores the search result, failure keeps the old results and stores the server message or the default; loading is false on both paths |
| SearchRequirements.Form.HandleSubmit | src/components/SearchRequirements.jsx:49-69 | a validation failure sets its message and sends nothing; otherwise exactly one request {trimmed requirement, top_n} is sent, a success stores the body with `requirements` in the server's order, and loading ends false |
| SearchRequirements.Form.HandleReset | src/components/SearchRequirements.jsx:71-78 | fields back to {"", 5}, no results, no error |

## Left out

- Rendering, styling and the tab layout of src/pages/Index.tsx: presentation only. ResultCard, StatBox and ErrorAlert are left out for the same reason; they only render what they are given.
- The transport (axios, URLs, headers, the `FormData` object): these are foreign calls. The model records each payload and takes the answer as a parameter.
- `parseInt`: its result is a parameter of type `Num`. The parsing of the control's text is not modelled.
- React asynchrony: batched state updates, stale `formData` spreads, and a second submission while one is in flight. Each handler is treated as one atomic step, with its setter calls in the order the source makes them.
- The browser's own update of the file input's value when a file is picked. The model only tracks the value that resetForm writes through the ref.
- `handleChange` in both search forms copies any `name` into `formData`. The model covers only the controls wired to it: the requirement textarea and the clustering checkbox. It leaves out JavaScript's dynamic field names and values.
- A truthy `message` that is not a string (a number such as 404, or an object) would be stored as the error as it is. The model keeps `error` a string, so such a message is not modelled.
- Percentages shown on screen (`toFixed(1)`, `Math.round`): floating-point formatting. Confidence and similarity are carried as `real` values and never inspected.
- Server-side facts the client never checks, such as the counts of a batch report adding up, or scores lying in [0, 1].
