/** Client sessions that use only the forms' contracts: each shows what a
    caller of the handlers can conclude after a short run of events. */
module Scenarios {
  import opened Api
  import opened Text
  import opened TopN
  import ClassifyRequirement
  import BatchClassify
  import ClassifyAndSearch
  import SearchRequirements

  /** A successful classification is shown as received; a blank submission
      afterwards sends nothing and keeps the result; reset clears it. */
  method ClassifySession() {
    var text := "The system shall log in users";
    var form := new ClassifyRequirement.Form();
    form.SetRequirement(text);
    NotBlankWith(form.requirement, 0);
    var answer := Classification("Functional", 0.87);
    form.HandleSubmit(Ok(answer));
    assert form.result == Some(answer) && form.error == [] && !form.loading;
    assert |form.requests| == 1;

    form.SetRequirement(" \t ");
    form.HandleSubmit(Fail(None));
    assert |form.requests| == 1 && form.result == Some(answer);
    assert form.error == ClassifyRequirement.BlankError;

    form.HandleReset();
    assert form.requirement == [] && form.result == None && form.error == [];
  }

  /** A rejected file type blocks the upload; a CSV upload that the server
      refuses shows the server's message and keeps nothing pending. */
  method BatchSession(csv: File, image: File)
    requires csv.mimeType == "text/csv" && image.mimeType == "image/png"
  {
    var form := new BatchClassify.Form(Some("C:\\fakepath\\reqs.csv"));
    form.HandleFileChange(Some(image));
    assert form.file == None && form.error == BatchClassify.InvalidFileError;
    form.HandleSubmit(Ok(BatchReport(0, 0, 0, [], [])));
    assert form.requests == [] && form.error == BatchClassify.NoFileError;

    form.HandleFileChange(Some(csv));
    assert form.SubmitEnabled();
    form.HandleSubmit(Fail(Some("file too large")));
    assert form.error == "file too large" && !form.loading && form.results == None;
    assert form.requests == [FormData([("file", csv)])];

    form.ResetForm();
    assert form.file == None && form.inputValue == Some([]);
  }

  /** Edits through the number control clamp the count, the payload carries
      the clamped count and the flag as set, and a transport failure shows
      the default message. */
  method AnalyzeSession() {
    var form := new ClassifyAndSearch.Form();
    form.HandleChange(ClassifyAndSearch.RequirementInput("Pages load in 2 s"));
    form.HandleChange(ClassifyAndSearch.ClusteringToggle(true));
    form.HandleTopNChange(Int(50));
    assert form.formData.top_n == Int(20);
    NotBlankWith(form.formData.requirement, 0);
    form.HandleSubmit(Fail(None));
    assert form.error == ClassifyAndSearch.DefaultError && !form.loading;
    assert |form.requests| == 1 && form.requests[0].top_n == Int(20) && form.requests[0].use_clustering;

    form.HandleReset();
    assert form.formData == ClassifyAndSearch.InitialFields && form.results == None;
  }

  /** A search answer keeps the server's order. */
  method SearchSession() {
    var form := new SearchRequirements.Form();
    form.HandleChange("A");
    form.HandleTopNChange(Int(2));
    NotBlankWith(form.formData.requirement, 0);
    var a := SimilarRequirement(None, "A", 0.9);
    var b := SimilarRequirement(None, "B", 0.5);
    form.HandleSubmit(Ok(SearchResult([a, b])));
    assert form.results.value.requirements == [a, b];
    assert form.requests == [SearchRequirements.Payload("A", Int(2))] by {
      assert Trim("A") == "A";
    }
  }
}
