/** `YepCodeCodeExecutor`: an object with a started/stopped lifecycle around a
    runner handle, and the loop that submits code blocks one after another. */
module Executor {
  import opened Wrappers
  import opened Text
  import opened Language
  import opened Config
  import opened Results
  import opened Run

  const NotStartedMessage := "Executor must be started before executing code blocks."
  const InitFailurePrefix := "Failed to initialize YepCode runner: "

  /** The client handle (`YepCodeRun`) built from the API token. */
  class Runner {
    const apiToken: string

    constructor (apiToken: string)
      ensures this.apiToken == apiToken
    {
      this.apiToken := apiToken;
    }
  }

  class CodeExecutor {
    const apiToken: string
    const timeout: int
    const removeOnDone: bool
    const syncExecution: bool
    var started: bool
    var runner: Runner?

    /** The stored settings are valid and the runner is present exactly when the
        executor is started. */
    ghost predicate Valid()
      reads this
    {
      ValidSettings(CurrentSettings()) && (runner != null <==> started)
    }

    /** The four values `__init__` stored. */
    function CurrentSettings(): Settings
    {
      Settings(apiToken, timeout, removeOnDone, syncExecution)
    }

    /** The assignments of `__init__` once its checks have passed. */
    constructor (s: Settings)
      requires ValidSettings(s)
      ensures Valid() && CurrentSettings() == s
      ensures !started && runner == null
    {
      apiToken, timeout, removeOnDone, syncExecution := s.apiToken, s.timeout, s.removeOnDone, s.syncExecution;
      started, runner := false, null;
    }

    /** `__init__`: fails on a timeout below 1 or when neither the argument nor the
        environment gives a token; otherwise a stopped executor holding the
        values. */
    static method Create(env: Option<string>, apiToken: Option<string> := None, timeout: int := 60,
                         removeOnDone: bool := false, syncExecution: bool := true)
      returns (r: Result<CodeExecutor>)
      ensures var c := Construct(env, apiToken, timeout, removeOnDone, syncExecution);
        (r.Err? <==> c.Err?) && (r.Err? ==> r.message == c.message)
        && (r.Ok? ==> fresh(r.value) && r.value.Valid() && r.value.CurrentSettings() == c.value
                      && !r.value.started && r.value.runner == null)
    {
      match Construct(env, apiToken, timeout, removeOnDone, syncExecution)
      case Err(m) => r := Err(m);
      case Ok(s) =>
        var e := new CodeExecutor(s);
        r := Ok(e);
    }

    /** `_to_config`: the record from which `_from_config` rebuilds an executor
        with the same settings, whatever the environment holds. */
    function ToConfig(): (c: ExecutorConfig)
      reads this
      requires Valid()
      ensures forall env :: Config.FromConfig(c, env) == Ok(CurrentSettings())
    {
      Config.ToConfig(CurrentSettings())
    }

    /** `_from_config`: the constructor applied to the record's fields. */
    static method FromConfig(c: ExecutorConfig, env: Option<string>) returns (r: Result<CodeExecutor>)
      ensures (r.Err? <==> Config.FromConfig(c, env).Err?)
      ensures r.Ok? ==> fresh(r.value) && r.value.Valid() && r.value.CurrentSettings() == Config.FromConfig(c, env).value
                        && !r.value.started
    {
      r := Create(env, c.apiToken, c.timeout, c.removeOnDone, c.syncExecution);
    }

    /** `start`: nothing changes on a started executor. Otherwise a new runner is
        built; `initFault` is the message of the exception its construction
        raises, if it does, in which case the executor stays stopped and the
        error is reported. */
    method Start(initFault: Option<string>) returns (err: Option<string>)
      requires Valid()
      modifies this
      ensures Valid()
      ensures old(started) ==> started && runner == old(runner) && err == None
      ensures !old(started) && initFault.Some? ==>
                unchanged(this) && !started && runner == null && err == Some(InitFailurePrefix + initFault.value)
      ensures !old(started) && initFault.None? ==>
                started && fresh(runner) && runner.apiToken == apiToken && err == None
    {
      if started {
        return None;
      }
      if initFault.Some? {
        return Some(InitFailurePrefix + initFault.value);
      }
      runner := new Runner(apiToken);
      started := true;
      err := None;
    }

    /** `stop`: drops the runner; nothing changes on a stopped executor. */
    method Stop()
      requires Valid()
      modifies this
      ensures Valid()
      ensures !started && runner == null
      ensures !old(started) ==> unchanged(this)
    {
      if !started {
        return;
      }
      runner := null;
      started := false;
    }

    /** `restart`: stops the executor if started, then starts it. It ends started
        with a fresh runner unless the runner cannot be built, in which case it
        ends stopped, even if it was started before. */
    method Restart(initFault: Option<string>) returns (err: Option<string>)
      requires Valid()
      modifies this
      ensures Valid()
      ensures started <==> initFault.None?
      ensures started ==> fresh(runner) && runner.apiToken == apiToken && err == None
      ensures initFault.Some? ==> err == Some(InitFailurePrefix + initFault.value)
    {
      if started {
        Stop();
      }
      err := Start(initFault);
    }

    /** The body of the `try` in `execute_code_blocks` for one supported block
        already handed to `run`: what the remote service did with it decides
        whether the run goes on, with which text, or how it stops. */
    method AwaitBlock(outcome: Outcome) returns (step: BlockStep)
      ensures step == Classify(CurrentSettings(), outcome)
      ensures step.Proceed? <==> !outcome.SubmitFault? && (!syncExecution || (outcome.Finished? && !HasError(outcome.execution)))
    {
      match outcome
      case SubmitFault(m) =>
        step := SubmitFailed(m);
      case WaitFault(id, m) =>
        if syncExecution {
          step := WaitFailed(id, m);
        } else {
          step := Proceed(id, StartedText(id));
        }
      case Finished(e) =>
        if syncExecution {
          var logsOutput := LogsSuffix(e.logs);
          if HasError(e) {
            return Failed(e.id, FailureHeader + e.error.value + logsOutput);
          }
          var output := "";
          if HasReturnValue(e) {
            output := ResultHeader + e.returnValue.value.rendered;
          }
          step := Proceed(e.id, output + logsOutput);
        } else {
          step := Proceed(e.id, StartedText(e.id));
        }
    }

    /** `execute_code_blocks`. Refuses to run on a stopped executor. Otherwise
        submits the blocks in order, `outcomes[i]` being what the remote service
        does with block `i` once submitted, and returns the result that
        `Execute` specifies, together with the `run` calls it made. */
    method ExecuteCodeBlocks(blocks: seq<CodeBlock>, outcomes: seq<Outcome>)
      returns (r: Result<CodeResult>, subs: seq<Submission>)
      requires Valid() && |outcomes| == |blocks|
      ensures !started ==> r == Err(NotStartedMessage) && subs == []
      ensures started ==> r == Ok(Execute(CurrentSettings(), blocks, outcomes))
                          && subs == Submissions(CurrentSettings(), blocks, outcomes)
    {
      subs := [];
      if !started {
        return Err(NotStartedMessage), subs;
      }
      if |blocks| == 0 {
        return Ok(CodeResult(0, "", None)), subs;
      }
      var settings := CurrentSettings();
      ghost var steps := Steps(settings, blocks, outcomes);
      var outputs: seq<string> := [];
      var lastId: Option<string> := None;
      for i := 0 to |blocks|
        invariant ProceedsUpTo(steps, i)
        invariant outputs == Texts(steps, i)
        invariant lastId == LastId(steps, i)
        invariant subs == SubmissionsOf(settings, blocks, i)
      {
        var block := blocks[i];
        var lang := Normalize(block.language);
        if lang !in SupportedLanguages {
          assert steps[i] == Unsupported(block.language);
          RunEndsAt(settings, blocks, outcomes, i);
          return Ok(CodeResult(1, UnsupportedText(block.language), None)), subs;
        }
        subs := subs + [Submission(block.code, lang, removeOnDone, timeout * 1000)];
        SubmissionsExtend(settings, blocks, i);
        var step := AwaitBlock(outcomes[i]);
        assert steps[i] == step;
        if !step.Proceed? {
          RunEndsAt(settings, blocks, outcomes, i);
          return Ok(StopResult(step, lastId)), subs;
        }
        outputs := outputs + [step.text];
        lastId := Some(step.id);
        ProceedExtends(steps, i);
      }
      RunEndsAt(settings, blocks, outcomes, |blocks|);
      r := Ok(CodeResult(0, Join(outputs, Separator), lastId));
    }
  }
}
