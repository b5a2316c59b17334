/** The values that flow through `execute_code_blocks`: the code blocks it is
    given, what the remote service reports for each, the result it returns
    (`YepCodeCodeResult`), and the texts it builds from them. */
module Results {
  import opened Wrappers
  import opened Text
  import opened Language

  /** `CodeBlock`: source text and a free-form language label. */
  datatype CodeBlock = CodeBlock(code: string, language: string)

  /** One log record of a remote execution, already rendered as text. */
  datatype LogEntry = LogEntry(timestamp: string, level: string, message: string)

  /** A return value as Python's `str()` renders it, with its truthiness. */
  datatype ReturnValue = ReturnValue(rendered: string, truthy: bool)

  /** A remote execution as seen after `wait_for_done` (or right after `run` when
      the executor does not wait). */
  datatype Execution = Execution(id: string, error: Option<string>,
                                 returnValue: Option<ReturnValue>, logs: seq<LogEntry>)

  /** What the remote service does with one submitted block: `run` raises; or it
      returns an execution that completes; or it returns an execution whose
      `wait_for_done` raises. */
  datatype Outcome =
    | SubmitFault(message: string)
    | Finished(execution: Execution)
    | WaitFault(id: string, message: string)

  /** The arguments of one `run` call: code, language, `removeOnDone` and the
      timeout in milliseconds. */
  datatype Submission = Submission(code: string, language: string, removeOnDone: bool, timeoutMs: int)

  /** `YepCodeCodeResult`: exit code, output text and optional execution id. */
  datatype CodeResult = CodeResult(exitCode: int, output: string, executionId: Option<string>)

  /** `if execution.error:` — an error is reported when it is present and non-empty. */
  predicate HasError(e: Execution)
  {
    e.error.Some? && e.error.value != ""
  }

  /** `if execution.return_value:` */
  predicate HasReturnValue(e: Execution)
  {
    e.returnValue.Some? && e.returnValue.value.truthy
  }

  const Separator := "\n===\n"
  const LogsHeader := "\n\nExecution logs:\n"
  const ResultHeader := "Execution result:\n"
  const FailureHeader := "Execution failed with error:\n"
  const FaultPrefix := "Error executing code: "
  const StartedPrefix := "Execution started with ID: "

  /** `f"{log.timestamp} - {log.level}: {log.message}"` */
  function LogLine(log: LogEntry): string
  {
    log.timestamp + " - " + log.level + ": " + log.message
  }

  /** The list comprehension over `execution.logs`: one line per entry, in order. */
  function LogLines(logs: seq<LogEntry>): (r: seq<string>)
    ensures |r| == |logs|
    ensures forall i :: 0 <= i < |logs| ==> r[i] == LogLine(logs[i])
  {
    if logs == [] then [] else [LogLine(logs[0])] + LogLines(logs[1..])
  }

  /** `logs_output`: empty exactly when there are no logs, and otherwise the
      header followed by the log lines joined by newlines. */
  function LogsSuffix(logs: seq<LogEntry>): (r: string)
    ensures r == "" <==> |logs| == 0
    ensures |logs| > 0 ==> |r| > |LogsHeader| && r[..|LogsHeader|] == LogsHeader
  {
    if |logs| == 0 then "" else LogsHeader + Join(LogLines(logs), "\n")
  }

  /** The text a completed, error-free execution contributes in sync mode: the
      result line appears exactly when the return value is truthy, and the text is
      empty exactly when that value is falsy and there are no logs. */
  function ResultText(e: Execution): (r: string)
    ensures HasReturnValue(e) ==> |r| >= |ResultHeader| && r[..|ResultHeader|] == ResultHeader
    ensures !HasReturnValue(e) ==> r == LogsSuffix(e.logs)
    ensures r == "" <==> !HasReturnValue(e) && |e.logs| == 0
  {
    (if HasReturnValue(e) then ResultHeader + e.returnValue.value.rendered else "") + LogsSuffix(e.logs)
  }

  /** The output of a run that stops on a remote error: the header, then the error
      as reported, then the logs. */
  function FailureText(error: string, logs: seq<LogEntry>): (r: string)
    ensures |r| >= |FailureHeader| + |error| && r[..|FailureHeader|] == FailureHeader
    ensures r[|FailureHeader|..|FailureHeader| + |error|] == error
  {
    FailureHeader + error + LogsSuffix(logs)
  }

  /** The text a block contributes when the executor does not wait; the id can be
      read back from it. */
  function StartedText(id: string): (r: string)
    ensures |r| == |StartedPrefix| + |id| && r[..|StartedPrefix|] == StartedPrefix && r[|StartedPrefix|..] == id
  {
    StartedPrefix + id
  }

  /** The output of a run stopped by a raised fault; the message can be read back
      from it. */
  function FaultText(message: string): (r: string)
    ensures |r| == |FaultPrefix| + |message| && r[..|FaultPrefix|] == FaultPrefix && r[|FaultPrefix|..] == message
  {
    FaultPrefix + message
  }

  /** The output of a run stopped by an unsupported language; it quotes the label
      as the block gave it, before normalisation, and lists the supported
      languages as "python, javascript". */
  function UnsupportedText(language: string): (r: string)
    ensures r == "Unsupported language: " + language + ". Supported languages: python, javascript"
  {
    assert SupportedLanguages[1..] == ["javascript"];
    "Unsupported language: " + language + ". Supported languages: " + Join(SupportedLanguages, ", ")
  }

  /** With logs, the suffix is at least as long as the header, every log line and
      the newlines between them. */
  lemma LogsSuffixLength(logs: seq<LogEntry>)
    requires |logs| > 0
    ensures |LogsSuffix(logs)| == |LogsHeader| + TotalLength(LogLines(logs)) + |logs| - 1
  {
  }

  /** The three early-exit texts are pairwise different: their second characters
      differ. */
  lemma StopTextsDiffer(error: string, logs: seq<LogEntry>, message: string, language: string)
    ensures FailureText(error, logs) != FaultText(message)
    ensures FaultText(message) != UnsupportedText(language)
    ensures FailureText(error, logs) != UnsupportedText(language)
  {
    var failure, fault, unsupported := FailureText(error, logs), FaultText(message), UnsupportedText(language);
    assert failure[1] == 'x' by { assert failure[1] == FailureHeader[1]; }
    assert fault[1] == 'r' by { assert fault[1] == FaultPrefix[1]; }
    assert unsupported[1] == 'n';
  }
}
