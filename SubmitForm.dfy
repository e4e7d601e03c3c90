/** The challenge-submission page of javascript-excecutor.js: the checks of the submit handler,
    the error messages it shows, and the file name of a code download. */
module SubmitForm {
  import opened Text

  datatype Field = Title | Description | Difficulty | TestCase(index: nat) | Solution

  /** An error message shown under one input. */
  datatype FieldError = FieldError(field: Field, message: string)

  /** The values of the form's inputs when it is submitted, test cases in page order. */
  datatype FormValues = FormValues(title: string, description: string, difficulty: string,
    testCases: seq<string>, solution: string)

  /** `value.trim() === ''`: the value is white space only. */
  predicate Blank(value: string) {
    forall i :: 0 <= i < |value| ==> IsSpace(value[i])
  }

  lemma BlankIffTrimmedEmpty(value: string)
    ensures Blank(value) <==> Trim(value) == []
  {
  }

  /** `Test case ${index + 1} cannot be empty`: numbered from 1. */
  function TestCaseMessage(index: nat): string {
    "Test case " + NatToString(index + 1) + " cannot be empty"
  }

  function TestCaseError(index: nat): FieldError {
    FieldError(TestCase(index), TestCaseMessage(index))
  }

  /** The errors the `forEach` over the test cases reports, in page order. */
  function TestCaseErrors(testCases: seq<string>): (errs: seq<FieldError>)
    ensures |errs| <= |testCases|
  {
    if testCases == [] then []
    else
      var n := |testCases| - 1;
      TestCaseErrors(testCases[..n]) + (if Blank(testCases[n]) then [TestCaseError(n)] else [])
  }

  /** `e` is the message for an empty test case of `testCases`. */
  predicate ReportsBlank(testCases: seq<string>, e: FieldError) {
    && e.field.TestCase? && e.field.index < |testCases|
    && Blank(testCases[e.field.index])
    && e == TestCaseError(e.field.index)
  }

  /** Every reported test-case error names an empty test case, by its index. */
  lemma {:induction false} TestCaseErrorsSound(testCases: seq<string>)
    ensures forall e :: e in TestCaseErrors(testCases) ==> ReportsBlank(testCases, e)
    decreases |testCases|
  {
    if testCases != [] {
      var n := |testCases| - 1;
      var init := TestCaseErrors(testCases[..n]);
      var last := if Blank(testCases[n]) then [TestCaseError(n)] else [];
      assert TestCaseErrors(testCases) == init + last;
      TestCaseErrorsSound(testCases[..n]);
      forall e | e in init ensures ReportsBlank(testCases, e) {
        assert ReportsBlank(testCases[..n], e);
        assert testCases[..n][e.field.index] == testCases[e.field.index];
      }
    }
  }

  /** Every empty test case is reported. */
  lemma {:induction false} TestCaseErrorsComplete(testCases: seq<string>, i: int)
    requires 0 <= i < |testCases| && Blank(testCases[i])
    ensures TestCaseError(i) in TestCaseErrors(testCases)
    decreases |testCases|
  {
    var n := |testCases| - 1;
    if i < n {
      assert testCases[..n][i] == testCases[i];
      TestCaseErrorsComplete(testCases[..n], i);
    }
  }

  /** `e1` reports a test case that comes before the one `e2` reports. */
  predicate ReportedBefore(e1: FieldError, e2: FieldError) {
    e1.field.TestCase? && e2.field.TestCase? && e1.field.index < e2.field.index
  }

  /** The reports come in page order, one per empty test case. */
  lemma {:induction false} TestCaseErrorsOrdered(testCases: seq<string>)
    ensures forall a, b :: 0 <= a < b < |TestCaseErrors(testCases)| ==>
      ReportedBefore(TestCaseErrors(testCases)[a], TestCaseErrors(testCases)[b])
    decreases |testCases|
  {
    if testCases != [] {
      var n := |testCases| - 1;
      var init := TestCaseErrors(testCases[..n]);
      var last := if Blank(testCases[n]) then [TestCaseError(n)] else [];
      var errs := TestCaseErrors(testCases);
      assert errs == init + last;
      TestCaseErrorsOrdered(testCases[..n]);
      TestCaseErrorsSound(testCases[..n]);
      forall a, b | 0 <= a < b < |errs| ensures ReportedBefore(errs[a], errs[b]) {
        assert errs[a] == init[a];
        if b < |init| {
          assert errs[b] == init[b];
          assert ReportedBefore(init[a], init[b]);
        } else {
          assert init[a] in init && ReportsBlank(testCases[..n], init[a]);
          assert errs[b] == last[b - |init|] == TestCaseError(n);
        }
      }
    }
  }

  /** No test-case error is reported exactly when every test case has content. */
  lemma TestCaseErrorsEmpty(testCases: seq<string>)
    ensures TestCaseErrors(testCases) == [] <==> forall i :: 0 <= i < |testCases| ==> !Blank(testCases[i])
  {
    var errs := TestCaseErrors(testCases);
    TestCaseErrorsSound(testCases);
    if exists i :: 0 <= i < |testCases| && Blank(testCases[i]) {
      var i :| 0 <= i < |testCases| && Blank(testCases[i]);
      TestCaseErrorsComplete(testCases, i);
    }
  }

  /** Every required value is present: title, description and solution once trimmed, the
      difficulty as selected, and every test case once trimmed. */
  predicate FormValid(v: FormValues) {
    && !Blank(v.title)
    && !Blank(v.description)
    && v.difficulty != ""
    && (forall i :: 0 <= i < |v.testCases| ==> !Blank(v.testCases[i]))
    && !Blank(v.solution)
  }

  function TitleDescriptionErrors(v: FormValues): seq<FieldError> {
    (if Blank(v.title) then [FieldError(Title, "Title is required")] else [])
    + (if Blank(v.description) then [FieldError(Description, "Description is required")] else [])
  }

  /** The messages for the three inputs checked before the test cases. */
  function HeadErrors(v: FormValues): seq<FieldError> {
    TitleDescriptionErrors(v)
    + (if v.difficulty == "" then [FieldError(Difficulty, "Please select a difficulty level")] else [])
  }

  /** The messages one submission shows, in the order the handler checks the inputs. */
  function FormErrors(v: FormValues): seq<FieldError> {
    HeadErrors(v)
    + TestCaseErrors(v.testCases)
    + (if Blank(v.solution) then [FieldError(Solution, "Sample solution is required")] else [])
  }

  /** A submission shows no message exactly when the form is valid. */
  lemma FormErrorsEmptyIffValid(v: FormValues)
    ensures FormErrors(v) == [] <==> FormValid(v)
  {
    TestCaseErrorsEmpty(v.testCases);
  }

  /** A form with no test-case input is judged on the other four values only. */
  lemma NoTestCases(v: FormValues)
    requires v.testCases == []
    ensures FormValid(v) <==> !Blank(v.title) && !Blank(v.description) && v.difficulty != "" && !Blank(v.solution)
  {
  }

  /** The `forEach` over the test-case inputs: one message per empty one, in page order. */
  method CheckTestCases(testCases: seq<string>) returns (errs: seq<FieldError>)
    ensures errs == TestCaseErrors(testCases)
  {
    errs := [];
    var index := 0;
    while index < |testCases|
      invariant 0 <= index <= |testCases|
      invariant errs == TestCaseErrors(testCases[..index])
    {
      assert testCases[..index + 1][..index] == testCases[..index];
      if Blank(testCases[index]) {
        errs := errs + [TestCaseError(index)];
      }
      index := index + 1;
    }
    assert testCases[..index] == testCases;
  }

  class ChallengeForm {
    /** The `.error-message` elements on the page. */
    var errors: seq<FieldError>
    /** How many submissions were accepted (each one alerts and resets the form). */
    var accepted: nat

    constructor ()
      ensures errors == [] && accepted == 0
    {
      errors := [];
      accepted := 0;
    }

    /** The submit handler: clear the old messages, check every input in page order, and accept
        the challenge when nothing failed. The new messages depend on this submission alone. */
    method Submit(v: FormValues) returns (isValid: bool)
      modifies this
      ensures errors == FormErrors(v)
      ensures isValid <==> FormValid(v)
      ensures accepted == old(accepted) + (if isValid then 1 else 0)
    {
      isValid := true;
      errors := [];
      if Blank(v.title) {
        errors := errors + [FieldError(Title, "Title is required")];
        isValid := false;
      }
      if Blank(v.description) {
        errors := errors + [FieldError(Description, "Description is required")];
        isValid := false;
      }
      assert errors == TitleDescriptionErrors(v) && (isValid <==> errors == []);
      if v.difficulty == "" {
        errors := errors + [FieldError(Difficulty, "Please select a difficulty level")];
        isValid := false;
      }
      assert errors == HeadErrors(v) && (isValid <==> errors == []);
      var testCaseErrors := CheckTestCases(v.testCases);
      errors := errors + testCaseErrors;
      if testCaseErrors != [] {
        isValid := false;
      }
      assert isValid <==> errors == [];
      if Blank(v.solution) {
        errors := errors + [FieldError(Solution, "Sample solution is required")];
        isValid := false;
      }
      FormErrorsEmptyIffValid(v);
      if isValid {
        accepted := accepted + 1;
      }
    }
  }

  /** The `extensions` table of `getFileExtension`. */
  const Extensions: map<string, string> :=
    map["javascript" := "js", "python" := "py", "java" := "java", "c" := "c", "cpp" := "cpp"]

  /** `getFileExtension`: the table entry for the lowercased language, `txt` when there is none. */
  function GetFileExtension(language: string): (ext: string)
    ensures Lower(language) in Extensions ==> ext == Extensions[Lower(language)]
    ensures Lower(language) !in Extensions ==> ext == "txt"
  {
    var key := Lower(language);
    if key in Extensions then Extensions[key] else "txt"
  }

  /** The extension does not depend on case, and is one of six. */
  lemma GetFileExtensionIgnoresCase(language: string)
    ensures GetFileExtension(Lower(language)) == GetFileExtension(language)
    ensures GetFileExtension(language) in {"js", "py", "java", "c", "cpp", "txt"}
  {
    LowerIdempotent(language);
  }

  /** The download name: `my_code.` and the extension of the selected language, where an empty
      selection stands for `code`. */
  function DownloadName(selected: string): (name: string)
    ensures selected == "" ==> name == "my_code.txt"
    ensures selected != "" ==> name == "my_code." + GetFileExtension(selected)
  {
    assert Lower("code") == "code";
    "my_code." + GetFileExtension(if selected == "" then "code" else selected)
  }

  /** Without a selection, and for a language the table lacks, the download is a `.txt` file;
      a listed language gets its own extension whatever its case. */
  lemma DownloadNames()
    ensures DownloadName("") == "my_code.txt"
    ensures DownloadName("Python") == "my_code.py"
    ensures DownloadName("JavaScript") == "my_code.js"
    ensures DownloadName("C++") == "my_code.txt"
  {
    assert Lower("code") == "code";
    assert Lower("Python") == "python";
    assert Lower("JavaScript") == "javascript";
    assert Lower("C++") == "c++";
  }
}
