/** The behaviours the executor's test suite checks, stated for concrete inputs
    and derived from the general model. */
module Scenarios {
  import opened Wrappers
  import opened Text
  import opened Language
  import opened Config
  import opened Results
  import opened Run

  const Token := "test-api-token-123"
  const Defaults := Settings(Token, 60, false, true)

  /** Construction with a token keeps the defaults; without a token from either
      source, or with a zero timeout, it fails with the source's message. */
  lemma ConstructionScenarios()
    ensures Construct(None, apiToken := Some(Token)) == Ok(Defaults)
    ensures Construct(Some(Token)) == Ok(Defaults)
    ensures Construct(None) == Err(MissingTokenMessage)
    ensures Construct(None, Some(Token), 0) == Err(TimeoutMessage)
    ensures Construct(None, Some(Token), 120, true, false) == Ok(Settings(Token, 120, true, false))
  {
  }

  lemma LowerPHP()
    ensures Lower("PHP") == "php"
  {
    assert Lower("PHP")[0] == 'p' && Lower("PHP")[1] == 'h' && Lower("PHP")[2] == 'p';
  }

  /** "python" and "py" both normalise to "python". */
  lemma NormalizePython()
    ensures Normalize("python") == "python" && Normalize("py") == "python"
  {
    assert IsLower("python"); LowerFixesLower("python");
    assert IsLower("py"); LowerFixesLower("py");
  }

  /** "javascript" normalises to itself. */
  lemma NormalizeJavaScript()
    ensures Normalize("javascript") == "javascript"
  {
    assert IsLower("javascript"); LowerFixesLower("javascript");
  }

  /** "js" normalises to "javascript". */
  lemma NormalizeJs()
    ensures Normalize("js") == "javascript"
  {
    assert IsLower("js"); LowerFixesLower("js");
  }

  /** An unknown label is only lowered: "PHP" becomes "php", and "bash" stays
      "bash", which is not supported. */
  lemma NormalizeUnknown()
    ensures Normalize("PHP") == "php"
    ensures Normalize("bash") == "bash" && !Supported(Normalize("bash"))
  {
    LowerPHP();
    assert IsLower("bash"); LowerFixesLower("bash");
  }

  /** One bash block: exit code 1 and the unsupported-language message. */
  lemma UnsupportedScenario(o: Outcome)
    ensures Execute(Defaults, [CodeBlock("echo 'test'", "bash")], [o])
         == CodeResult(1, "Unsupported language: " + "bash" + ". Supported languages: python, javascript", None)
  {
    NormalizeUnknown();
    UnsupportedLanguageStops(Defaults, [CodeBlock("echo 'test'", "bash")], [o], 0);
  }

  const PythonBlock := CodeBlock("print('test')", "python")

  /** A python block whose execution returns `{'data': 'test output'}` without
      logs: exit code 0, the rendered value under the result header, and the
      execution's id. */
  lemma SuccessScenario()
    ensures Execute(Defaults, [PythonBlock],
                    [Finished(Execution("test-id", None, Some(ReturnValue("{'data': 'test output'}", true)), []))])
         == CodeResult(0, "Execution result:\n" + "{'data': 'test output'}", Some("test-id"))
  {
    var e := Execution("test-id", None, Some(ReturnValue("{'data': 'test output'}", true)), []);
    NormalizePython();
    var steps := Steps(Defaults, [PythonBlock], [Finished(e)]);
    assert ResultText(e) == ResultHeader + "{'data': 'test output'}" by {
      assert HasReturnValue(e) && LogsSuffix([]) == "";
    }
    assert steps[0] == Proceed("test-id", ResultText(e));
    SingleBlockRun(steps);
  }

  /** An execution that reports "Division by zero": exit code 1, the failure
      header followed by the error, and the execution's id. */
  lemma RemoteErrorScenario()
    ensures Execute(Defaults, [PythonBlock], [Finished(Execution("test-id", Some("Division by zero"), None, []))])
         == CodeResult(1, "Execution failed with error:\n" + "Division by zero", Some("test-id"))
  {
    var e := Execution("test-id", Some("Division by zero"), None, []);
    NormalizePython();
    var steps := Steps(Defaults, [PythonBlock], [Finished(e)]);
    assert steps[0] == Failed("test-id", FailureText("Division by zero", []));
    SingleBlockRun(steps);
  }

  /** A `run` call that raises "Network error": exit code 1, the fault message and
      no execution id. */
  lemma NetworkErrorScenario()
    ensures Execute(Defaults, [PythonBlock], [SubmitFault("Network error")])
         == CodeResult(1, "Error executing code: " + "Network error", None)
  {
    NormalizePython();
    var steps := Steps(Defaults, [PythonBlock], [SubmitFault("Network error")]);
    assert steps[0] == SubmitFailed("Network error");
    SingleBlockRun(steps);
  }

  /** Without waiting, a python block is submitted and started, and a following
      bash block then ends the run: the result carries no execution id although
      one block was submitted and received one. */
  lemma UnsupportedAfterSubmission(o: Outcome)
    ensures var s := Defaults.(syncExecution := false);
      var blocks := [PythonBlock, CodeBlock("echo 'test'", "bash")];
      var outcomes := [Finished(Execution("first-id", None, None, [])), o];
      Execute(s, blocks, outcomes).executionId == None && |Submissions(s, blocks, outcomes)| == 1
  {
    var s := Defaults.(syncExecution := false);
    var blocks := [PythonBlock, CodeBlock("echo 'test'", "bash")];
    var outcomes := [Finished(Execution("first-id", None, None, [])), o];
    NormalizePython();
    NormalizeUnknown();
    assert Steps(s, blocks, outcomes)[0].Proceed?;
    UnsupportedLanguageStops(s, blocks, outcomes, 1);
  }
}
