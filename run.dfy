/** What `execute_code_blocks` computes once the executor is started, stated
    block by block: each block either lets the run go on, contributing a text
    and an execution id, or stops it; the result is determined by the first
    block that stops the run, or by all the texts when none does. */
module Run {
  import opened Wrappers
  import opened Text
  import opened Language
  import opened Config
  import opened Results

  /** The `run` call made for a block: the normalised language, the
      `removeOnDone` flag and the timeout converted to milliseconds. */
  function SubmissionFor(s: Settings, b: CodeBlock): Submission
  {
    Submission(b.code, Normalize(b.language), s.removeOnDone, s.timeout * 1000)
  }

  /** What one block does to the run. */
  datatype BlockStep =
    | Proceed(id: string, text: string)        // the run goes on; the block adds `text`
    | Unsupported(language: string)            // rejected before submission
    | SubmitFailed(message: string)            // `run` raised
    | Failed(id: string, text: string)         // the execution reported an error
    | WaitFailed(id: string, message: string)  // `wait_for_done` raised

  /** The step of a supported block given what the remote service did with it.
      Such a block is always submitted, and it lets the run go on exactly when
      `run` returned and, in sync mode, the execution completed without error. */
  function Classify(s: Settings, o: Outcome): (r: BlockStep)
    ensures !r.Unsupported?
    ensures r.Proceed? <==> !o.SubmitFault? && (s.syncExecution ==> o.Finished? && !HasError(o.execution))
  {
    match o
    case SubmitFault(m) => SubmitFailed(m)
    case WaitFault(id, m) =>
      if s.syncExecution then WaitFailed(id, m) else Proceed(id, StartedText(id))
    case Finished(e) =>
      if !s.syncExecution then Proceed(e.id, StartedText(e.id))
      else if HasError(e) then Failed(e.id, FailureText(e.error.value, e.logs))
      else Proceed(e.id, ResultText(e))
  }

  /** The step of one block, given what the remote service did with it. */
  function Step(s: Settings, b: CodeBlock, o: Outcome): BlockStep
  {
    if !Supported(Normalize(b.language)) then Unsupported(b.language)
    else Classify(s, o)
  }

  /** The steps of all blocks, in input order. Only a prefix of them is ever
      taken: the run ends at the first block that stops it. */
  function Steps(s: Settings, blocks: seq<CodeBlock>, outcomes: seq<Outcome>): seq<BlockStep>
    requires |outcomes| == |blocks|
  {
    seq(|blocks|, i requires 0 <= i < |blocks| => Step(s, blocks[i], outcomes[i]))
  }

  /** Every step before index `k` lets the run go on. */
  predicate ProceedsUpTo(steps: seq<BlockStep>, k: nat)
  {
    k <= |steps| && forall j :: 0 <= j < k ==> steps[j].Proceed?
  }

  /** The index of the first step at or after `i` that stops the run, or
      `|steps|` when none does. */
  function FirstStop(steps: seq<BlockStep>, i: nat): (k: nat)
    requires ProceedsUpTo(steps, i)
    ensures i <= k <= |steps|
    ensures ProceedsUpTo(steps, k)
    ensures k < |steps| ==> !steps[k].Proceed?
    decreases |steps| - i
  {
    if i == |steps| then i
    else if steps[i].Proceed? then FirstStop(steps, i + 1)
    else i
  }

  /** `last_execution_id` once the first `k` blocks have gone through: the id of
      block `k - 1`, or nothing before any block. */
  function LastId(steps: seq<BlockStep>, k: nat): Option<string>
    requires ProceedsUpTo(steps, k)
  {
    if k == 0 then None else Some(steps[k - 1].id)
  }

  /** `outputs` once the first `k` blocks have gone through: their texts in order. */
  function Texts(steps: seq<BlockStep>, k: nat): seq<string>
    requires ProceedsUpTo(steps, k)
  {
    seq(k, j requires 0 <= j < k => steps[j].text)
  }

  /** The result returned when a block stops the run, given the id recorded before
      it: exit code 1; no id for an unsupported language, the recorded id when `run`
      raised, and the id of the stopping execution otherwise. */
  function StopResult(step: BlockStep, lastId: Option<string>): (r: CodeResult)
    requires !step.Proceed?
    ensures r.exitCode == 1
    ensures step.Unsupported? ==> r.executionId == None
    ensures step.SubmitFailed? ==> r.executionId == lastId
    ensures step.Failed? || step.WaitFailed? ==> r.executionId == Some(step.id)
  {
    match step
    case Unsupported(language) => CodeResult(1, UnsupportedText(language), None)
    case SubmitFailed(m) => CodeResult(1, FaultText(m), lastId)
    case Failed(id, text) => CodeResult(1, text, Some(id))
    case WaitFailed(id, m) => CodeResult(1, FaultText(m), Some(id))
  }

  /** The result of a run whose blocks take the given steps: exit code 0 exactly
      when every block goes on, and 1 otherwise. */
  function ResultOf(steps: seq<BlockStep>): (r: CodeResult)
    ensures r.exitCode == if ProceedsUpTo(steps, |steps|) then 0 else 1
  {
    var k := FirstStop(steps, 0);
    if k == |steps| then CodeResult(0, Join(Texts(steps, k), Separator), LastId(steps, k))
    else StopResult(steps[k], LastId(steps, k))
  }

  /** The result of `execute_code_blocks` on a started executor. */
  function Execute(s: Settings, blocks: seq<CodeBlock>, outcomes: seq<Outcome>): (r: CodeResult)
    requires |outcomes| == |blocks|
    ensures r.exitCode == 0 || r.exitCode == 1
    ensures r.exitCode == 0 <==> forall i :: 0 <= i < |blocks| ==> Steps(s, blocks, outcomes)[i].Proceed?
    ensures r.executionId.Some? ==> |Submissions(s, blocks, outcomes)| > 0
  {
    IdOnlyAfterSubmission(Steps(s, blocks, outcomes));
    ResultOf(Steps(s, blocks, outcomes))
  }

  /** How many `run` calls a run makes: every block before the first stop, and the
      stopping block too unless its language stopped it. */
  function SubmittedCount(steps: seq<BlockStep>): (n: nat)
    ensures n <= |steps|
  {
    var k := FirstStop(steps, 0);
    if k < |steps| && !steps[k].Unsupported? then k + 1 else k
  }

  /** The `run` calls for the first `n` blocks, in order. */
  function SubmissionsOf(s: Settings, blocks: seq<CodeBlock>, n: nat): seq<Submission>
    requires n <= |blocks|
  {
    seq(n, j requires 0 <= j < n => SubmissionFor(s, blocks[j]))
  }

  /** Submitting one more block appends its `run` call. */
  lemma SubmissionsExtend(s: Settings, blocks: seq<CodeBlock>, n: nat)
    requires n < |blocks|
    ensures SubmissionsOf(s, blocks, n + 1) == SubmissionsOf(s, blocks, n) + [SubmissionFor(s, blocks[n])]
  {
    assert SubmissionsOf(s, blocks, n + 1)[..n] == SubmissionsOf(s, blocks, n);
  }

  /** The `run` calls made, in order. */
  function Submissions(s: Settings, blocks: seq<CodeBlock>, outcomes: seq<Outcome>): (r: seq<Submission>)
    requires |outcomes| == |blocks|
    ensures |r| <= |blocks|
    ensures forall j :: 0 <= j < |r| ==> r[j] == SubmissionFor(s, blocks[j])
  {
    SubmissionsOf(s, blocks, SubmittedCount(Steps(s, blocks, outcomes)))
  }

  // ---------------------------------------------------------------------------
  // What a run promises, for any sequence of steps

  /** The first stop at or after `i` is the step the caller names when the steps
      before it go on and it stops the run (or it is the end of the list). */
  lemma {:induction false} FirstStopAt(steps: seq<BlockStep>, i: nat, k: nat)
    requires i <= k && ProceedsUpTo(steps, k)
    requires k == |steps| || !steps[k].Proceed?
    ensures FirstStop(steps, i) == k
    decreases k - i
  {
    if i < k {
      FirstStopAt(steps, i + 1, k);
    }
  }

  /** A step that goes on extends the texts and the recorded id of the run so far:
      the loop's `outputs.append(...)` and `last_execution_id = execution.id`. */
  lemma ProceedExtends(steps: seq<BlockStep>, i: nat)
    requires i < |steps| && ProceedsUpTo(steps, i) && steps[i].Proceed?
    ensures ProceedsUpTo(steps, i + 1)
    ensures Texts(steps, i + 1) == Texts(steps, i) + [steps[i].text]
    ensures LastId(steps, i + 1) == Some(steps[i].id)
  {
  }

  /** When every block goes on, the result has exit code 0, the block texts joined
      by the separator in input order, and the id of the last block; every block
      is submitted. */
  lemma CompletedRun(steps: seq<BlockStep>)
    requires ProceedsUpTo(steps, |steps|)
    ensures ResultOf(steps) == CodeResult(0, Join(Texts(steps, |steps|), Separator), LastId(steps, |steps|))
    ensures SubmittedCount(steps) == |steps|
  {
    FirstStopAt(steps, 0, |steps|);
  }

  /** When block `k` is the first to stop the run, the result is that block's stop
      result with exit code 1, and no block after it is submitted. */
  lemma StoppedRun(steps: seq<BlockStep>, k: nat)
    requires k < |steps| && ProceedsUpTo(steps, k) && !steps[k].Proceed?
    ensures ResultOf(steps) == StopResult(steps[k], LastId(steps, k))
    ensures ResultOf(steps).exitCode == 1
    ensures SubmittedCount(steps) == if steps[k].Unsupported? then k else k + 1
  {
    FirstStopAt(steps, 0, k);
  }

  /** A run of one block returns that block's text and id, or its stop result. */
  lemma SingleBlockRun(steps: seq<BlockStep>)
    requires |steps| == 1
    ensures ResultOf(steps)
         == if steps[0].Proceed? then CodeResult(0, steps[0].text, Some(steps[0].id)) else StopResult(steps[0], None)
  {
    if steps[0].Proceed? {
      CompletedRun(steps);
    } else {
      StoppedRun(steps, 0);
    }
  }

  /** A result carries an execution id only if some block was submitted. */
  lemma IdOnlyAfterSubmission(steps: seq<BlockStep>)
    ensures ResultOf(steps).executionId.Some? ==> SubmittedCount(steps) > 0
  {
    var k := FirstStop(steps, 0);
    if k < |steps| {
      StoppedRun(steps, k);
    } else {
      CompletedRun(steps);
    }
  }

  /** Appending a block that goes on to a run in which every block goes on extends
      the output by the separator and that block's text, and makes its id the
      result's: the joined output lists the blocks in input order. */
  lemma CompletedRunExtends(steps: seq<BlockStep>, id: string, text: string)
    requires |steps| > 0 && ProceedsUpTo(steps, |steps|)
    ensures ResultOf(steps + [Proceed(id, text)])
         == CodeResult(0, ResultOf(steps).output + Separator + text, Some(id))
  {
    var longer := steps + [Proceed(id, text)];
    CompletedRun(steps);
    CompletedRun(longer);
    assert Texts(longer, |longer|) == Texts(steps, |steps|) + [text];
    JoinSnoc(Texts(steps, |steps|), text, Separator);
  }

  // ---------------------------------------------------------------------------
  // The same promises stated for blocks and the remote service's answers

  /** `CompletedRun` and `StoppedRun` for blocks: the result of `Execute` and the
      `run` calls made, given where the run ends. */
  lemma RunEndsAt(s: Settings, blocks: seq<CodeBlock>, outcomes: seq<Outcome>, k: nat)
    requires |outcomes| == |blocks|
    requires ProceedsUpTo(Steps(s, blocks, outcomes), k)
    requires k == |blocks| || !Steps(s, blocks, outcomes)[k].Proceed?
    ensures var steps := Steps(s, blocks, outcomes);
      Execute(s, blocks, outcomes)
        == if k == |blocks| then CodeResult(0, Join(Texts(steps, k), Separator), LastId(steps, k))
           else StopResult(steps[k], LastId(steps, k))
    ensures var steps := Steps(s, blocks, outcomes);
      Submissions(s, blocks, outcomes)
        == SubmissionsOf(s, blocks, if k == |blocks| || steps[k].Unsupported? then k else k + 1)
  {
    if k == |blocks| {
      CompletedRun(Steps(s, blocks, outcomes));
    } else {
      StoppedRun(Steps(s, blocks, outcomes), k);
    }
  }

  /** An empty list of blocks gives exit code 0, an empty output and no id, with no
      submission. */
  lemma EmptyRun(s: Settings)
    ensures Execute(s, [], []) == CodeResult(0, "", None)
    ensures Submissions(s, [], []) == []
  {
  }

  /** The first block whose normalised language is neither python nor javascript
      ends the run with exit code 1 and the unsupported-language message naming
      the label as given, and no execution id, even when earlier blocks were
      submitted; neither it nor any later block is submitted. */
  lemma UnsupportedLanguageStops(s: Settings, blocks: seq<CodeBlock>, outcomes: seq<Outcome>, k: nat)
    requires |outcomes| == |blocks|
    requires k < |blocks| && ProceedsUpTo(Steps(s, blocks, outcomes), k)
    requires !Supported(Normalize(blocks[k].language))
    ensures Execute(s, blocks, outcomes) == CodeResult(1, UnsupportedText(blocks[k].language), None)
    ensures |Submissions(s, blocks, outcomes)| == k
  {
    StoppedRun(Steps(s, blocks, outcomes), k);
  }

  /** A `run` call that raises ends the run with the fault's message and the id
      recorded before it: none for the first block, else the previous block's. */
  lemma SubmitFaultStops(s: Settings, blocks: seq<CodeBlock>, outcomes: seq<Outcome>, k: nat, message: string)
    requires |outcomes| == |blocks|
    requires k < |blocks| && ProceedsUpTo(Steps(s, blocks, outcomes), k)
    requires Supported(Normalize(blocks[k].language))
    requires outcomes[k] == SubmitFault(message)
    ensures Execute(s, blocks, outcomes)
         == CodeResult(1, FaultText(message), if k == 0 then None else Some(Steps(s, blocks, outcomes)[k - 1].id))
    ensures |Submissions(s, blocks, outcomes)| == k + 1
  {
    StoppedRun(Steps(s, blocks, outcomes), k);
  }

  /** In sync mode, an execution that reports an error ends the run with the error,
      its logs and that execution's id. */
  lemma RemoteErrorStops(s: Settings, blocks: seq<CodeBlock>, outcomes: seq<Outcome>, k: nat, e: Execution)
    requires |outcomes| == |blocks|
    requires s.syncExecution
    requires k < |blocks| && ProceedsUpTo(Steps(s, blocks, outcomes), k)
    requires Supported(Normalize(blocks[k].language))
    requires outcomes[k] == Finished(e) && HasError(e)
    ensures Execute(s, blocks, outcomes) == CodeResult(1, FailureText(e.error.value, e.logs), Some(e.id))
    ensures |Submissions(s, blocks, outcomes)| == k + 1
  {
    StoppedRun(Steps(s, blocks, outcomes), k);
  }

  /** In sync mode, a `wait_for_done` that raises ends the run with the fault's
      message and the id of the execution being waited for. */
  lemma WaitFaultStops(s: Settings, blocks: seq<CodeBlock>, outcomes: seq<Outcome>, k: nat, id: string, message: string)
    requires |outcomes| == |blocks|
    requires s.syncExecution
    requires k < |blocks| && ProceedsUpTo(Steps(s, blocks, outcomes), k)
    requires Supported(Normalize(blocks[k].language))
    requires outcomes[k] == WaitFault(id, message)
    ensures Execute(s, blocks, outcomes) == CodeResult(1, FaultText(message), Some(id))
    ensures |Submissions(s, blocks, outcomes)| == k + 1
  {
    StoppedRun(Steps(s, blocks, outcomes), k);
  }

  /** A block lets the run go on exactly when its language is supported, its `run`
      call returns, and, in sync mode, the execution completes without error; it
      then records the id of its execution and adds its result text (sync) or the
      started message (async). */
  lemma ProceedIff(s: Settings, b: CodeBlock, o: Outcome)
    ensures Step(s, b, o).Proceed? <==>
      Supported(Normalize(b.language)) && !o.SubmitFault?
      && (s.syncExecution ==> o.Finished? && !HasError(o.execution))
    ensures Step(s, b, o).Proceed? ==>
      var id := if o.Finished? then o.execution.id else o.id;
      Step(s, b, o) == Proceed(id, if s.syncExecution then ResultText(o.execution) else StartedText(id))
  {
  }

  /** Every `run` call is for a block, in input order, with its normalised and
      supported language, the configured `removeOnDone` and `timeout * 1000`
      milliseconds. */
  lemma SubmissionsShape(s: Settings, blocks: seq<CodeBlock>, outcomes: seq<Outcome>)
    requires |outcomes| == |blocks|
    ensures var subs := Submissions(s, blocks, outcomes);
      |subs| <= |blocks|
      && forall j :: 0 <= j < |subs| ==>
           subs[j].code == blocks[j].code && subs[j].language == Normalize(blocks[j].language)
           && Supported(subs[j].language)
           && subs[j].removeOnDone == s.removeOnDone && subs[j].timeoutMs == s.timeout * 1000
  {
    var steps := Steps(s, blocks, outcomes);
    var k := FirstStop(steps, 0);
    var subs := Submissions(s, blocks, outcomes);
    forall j | 0 <= j < |subs| ensures Supported(subs[j].language) {
      if j < k {
        assert steps[j].Proceed?;
      } else {
        assert j == k && !steps[k].Unsupported?;
      }
      assert steps[j] == Step(s, blocks[j], outcomes[j]);
    }
  }
}
