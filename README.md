# YepCode code executor, modelled in Dafny

This project models `YepCodeCodeExecutor`, the AutoGen code executor that sends
code blocks to YepCode's serverless runtime. The model covers:

- the checks and stored values of its constructor;
- the configuration record it converts to and from;
- the normalisation of language labels;
- the started/stopped lifecycle around its runner handle;
- the loop of `execute_code_blocks`, which submits blocks one by one, folds their
  texts into one output and keeps the last execution id, stopping early on an
  unsupported language, a remote error or a raised fault.

The remote service is not called. What it does with each submitted block is an
input `outcomes: seq<Outcome>`. Each element is one of three cases:

- `run` raises with a message;
- `run` returns an execution with an id, an optional error, an optional rendered
  return value and a list of logs;
- `wait_for_done` raises after the id is known.

Whether building the runner succeeds is an input to `Start`. The value of the
`YEPCODE_API_TOKEN` environment variable is the parameter `env`.

Modules, one per file:

- `Wrappers`: `Option` and `Result`.
- `Text`: `sep.join` and ASCII `str.lower`.
- `Language`: `_normalize_language` and the supported languages.
- `Config`: the constructor's checks as the function `Construct`, and the config
  record with `_to_config` and `_from_config`.
- `Results`: the values that flow through a run (`YepCodeCodeResult` is
  `CodeResult`) and the texts the loop builds.
- `Run`: the result of `execute_code_blocks` stated declaratively. Each block
  takes a step: it goes on with a text and an id, or it stops the run. `Execute`
  is decided by the first stop.
- `Executor`: the class `CodeExecutor`, with the lifecycle methods and the loop
  `ExecuteCodeBlocks`. The loop is proved equal to `Execute` and to the `run`
  calls that `Submissions` specifies.
- `Scenarios`: the concrete cases of the executor's test suite, derived from the
  general lemmas.

An unsupported language returns no execution id, even after earlier blocks were
submitted (`src/autogen_ext_yepcode/_yepcode_executor.py:166-170`); see
`Run.UnsupportedLanguageStops` and `Scenarios.UnsupportedAfterSubmission`.

## Model

| member | source | states |
|---|---|---|
| `Config.ResolveToken` | src/autogen_ext_yepcode/_yepcode_executor.py:115-116 | a token is found exactly when the explicit argument or the environment value is non-empty; a non-empty explicit argument wins over the environment, and a found token is never empty |
| `Config.Construct` | src/autogen_ext_yepcode/_yepcode_executor.py:100-125 | with `__init__`'s defaults (no token, 60 s, keep, wait): a timeout below 1 fails with the timeout message, checked before the token; with no non-empty token from either source it fails with the token message; it succeeds exactly when neither check fails, and then the settings are valid and hold the given timeout and flags and the resolved token |
| `Config.ToConfig` | src/autogen_ext_yepcode/_yepcode_executor.py:279-286 | from the record of valid settings, `_from_config` rebuilds the same token, timeout and flags, whatever the environment holds |
| `Config.FromConfig` | src/autogen_ext_yepcode/_yepcode_executor.py:288-296 | succeeds exactly when the record's timeout is at least 1 and the record or the environment holds a non-empty token, and then keeps the record's timeout and flags |
| `Config.ConfigRoundTripBack` | src/autogen_ext_yepcode/_yepcode_executor.py:279-296 | converting what a config record builds gives back that record, except that an absent or empty token becomes the environment's token |
| `Config.DefaultConfigBuilds` | src/autogen_ext_yepcode/_yepcode_executor.py:37-49 | the default record (no token, 60 s, keep, wait) builds an executor exactly when the environment holds a non-empty token |
| `Executor.Runner.constructor` | src/autogen_ext_yepcode/_yepcode_executor.py:248-249 | the `YepCodeRun` handle holds the API token it was built from |
| `Executor.CodeExecutor.constructor` | src/autogen_ext_yepcode/_yepcode_executor.py:121-125 | stores the validated settings in a stopped executor with no runner |
| `Executor.CodeExecutor.Create` | src/autogen_ext_yepcode/_yepcode_executor.py:100-125 | with `__init__`'s default arguments, fails with the same message as `Construct` when it fails; otherwise gives a fresh, stopped, runner-less executor whose settings are `Construct`'s |
| `Executor.CodeExecutor.ToConfig` | src/autogen_ext_yepcode/_yepcode_executor.py:279-286 | the record it returns rebuilds, through `_from_config`, an executor with the same settings, for any environment |
| `Executor.CodeExecutor.FromConfig` | src/autogen_ext_yepcode/_yepcode_executor.py:288-296 | fails exactly when the constructor on the record's fields fails, and otherwise gives a fresh stopped executor with those settings |
| `Executor.CodeExecutor.Start` | src/autogen_ext_yepcode/_yepcode_executor.py:239-252 | keeps "runner present iff started"; on a started executor nothing changes; when the runner cannot be built nothing changes and the error is the init-failure prefix followed by the fault's message; otherwise it ends started with a fresh runner built from the stored token |
| `Executor.CodeExecutor.Stop` | src/autogen_ext_yepcode/_yepcode_executor.py:254-263 | keeps the invariant and ends stopped with no runner; on a stopped executor nothing changes |
| `Executor.CodeExecutor.Restart` | src/autogen_ext_yepcode/_yepcode_executor.py:230-237 | keeps the invariant; ends started, with a fresh runner built from the stored token, exactly when the runner can be built, and otherwise reports the init failure and ends stopped |
| `Executor.CodeExecutor.AwaitBlock` | src/autogen_ext_yepcode/_yepcode_executor.py:172-224 | for a submitted block, gives the step `Run.Classify` specifies; the run goes on exactly when `run` returned and, in sync mode, the execution completed without error |
| `Executor.CodeExecutor.ExecuteCodeBlocks` | src/autogen_ext_yepcode/_yepcode_executor.py:142-228 | on a stopped executor fails with the not-started message and makes no `run` call; otherwise returns exactly `Run.Execute` and makes exactly the `run` calls of `Run.Submissions`, in order |
| `Text.Join` | src/autogen_ext_yepcode/_yepcode_executor.py:193-227 | the joined text is as long as the parts plus one separator between each pair of neighbours (used for the log lines and the outputs) |
| `Text.JoinSnoc` | src/autogen_ext_yepcode/_yepcode_executor.py:215-227 | joining a list with one more part appends the separator and that part, so appending outputs and joining at the end is joining as you go |
| `Text.LowerChar` | src/autogen_ext_yepcode/_yepcode_executor.py:134 | the result is not an upper-case ASCII letter; an upper-case letter moves to its lower-case counterpart and every other character is kept |
| `Text.Lower` | src/autogen_ext_yepcode/_yepcode_executor.py:134 | the result is lower case, and a lower-case string comes back unchanged |
| `Text.LowerFixesLower` | src/autogen_ext_yepcode/_yepcode_executor.py:134 | a string is lower case exactly when lowering leaves it unchanged |
| `Text.LowerIdempotent` | src/autogen_ext_yepcode/_yepcode_executor.py:134 | lowering twice equals lowering once |
| `Language.Normalize` | src/autogen_ext_yepcode/_yepcode_executor.py:132-140 | the result is lower case; it is "javascript" exactly when the lower-case label is "js" or "javascript", "python" exactly when it is "python" or "py", and so it is supported exactly when the label is one of the four aliases in any case |
| `Language.NormalizeOther` | src/autogen_ext_yepcode/_yepcode_executor.py:139-140 | any other label normalises to its lower-case form, which is not supported |
| `Language.NormalizeIgnoresCase` | src/autogen_ext_yepcode/_yepcode_executor.py:132-140 | labels that differ only in ASCII case normalise alike |
| `Language.NormalizeIdempotent` | src/autogen_ext_yepcode/_yepcode_executor.py:132-140 | normalising twice equals normalising once |
| `Results.LogLines` | src/autogen_ext_yepcode/_yepcode_executor.py:193-198 | one line per log entry, in order, each `"<timestamp> - <level>: <message>"` |
| `Results.LogsSuffix` | src/autogen_ext_yepcode/_yepcode_executor.py:190-198 | empty exactly when there are no logs; otherwise it starts with the logs header |
| `Results.LogsSuffixLength` | src/autogen_ext_yepcode/_yepcode_executor.py:193-198 | with logs, the suffix is as long as the header, every log line and one newline between each two lines |
| `Results.ResultText` | src/autogen_ext_yepcode/_yepcode_executor.py:209-213 | the result header appears exactly when the return value is truthy; a falsy value leaves only the logs suffix; the text is empty exactly when the value is falsy and there are no logs |
| `Results.FailureText` | src/autogen_ext_yepcode/_yepcode_executor.py:202 | starts with the failure header, followed by the error as reported |
| `Results.StartedText` | src/autogen_ext_yepcode/_yepcode_executor.py:217 | the started prefix followed by the id, which can be read back from the text |
| `Results.FaultText` | src/autogen_ext_yepcode/_yepcode_executor.py:222 | the fault prefix followed by the message, which can be read back from the text |
| `Results.UnsupportedText` | src/autogen_ext_yepcode/_yepcode_executor.py:169 | the message names the label as given and lists the supported languages as "python, javascript" |
| `Results.StopTextsDiffer` | src/autogen_ext_yepcode/_yepcode_executor.py:169-222 | the three early-exit texts are pairwise different |
| `Run.Classify` | src/autogen_ext_yepcode/_yepcode_executor.py:174-217 | a submitted block never counts as unsupported, and goes on exactly when `run` returned and, in sync mode, the execution completed without error |
| `Run.StopResult` | src/autogen_ext_yepcode/_yepcode_executor.py:166-224 | exit code 1; no id for an unsupported language, the previously recorded id when `run` raised, and the stopping execution's id for a remote error or a failed wait |
| `Run.ResultOf` | src/autogen_ext_yepcode/_yepcode_executor.py:163-228 | exit code 0 exactly when every block goes on, and 1 otherwise |
| `Run.Execute` | src/autogen_ext_yepcode/_yepcode_executor.py:142-228 | the exit code is 0 or 1, 0 exactly when every block goes on; a result carries an id only if some `run` call was made |
| `Run.Submissions` | src/autogen_ext_yepcode/_yepcode_executor.py:174-182 | at most one `run` call per block, and call `j` is the one for block `j` |
| `Run.FirstStop` | src/autogen_ext_yepcode/_yepcode_executor.py:163 | the index where the run ends: every block before it goes on, and the block at it stops the run unless it is past the end |
| `Run.SubmittedCount` | src/autogen_ext_yepcode/_yepcode_executor.py:166-182 | no more `run` calls than blocks |
| `Run.SubmissionsExtend` | src/autogen_ext_yepcode/_yepcode_executor.py:174-182 | one more submitted block appends one `run` call |
| `Run.FirstStopAt` | src/autogen_ext_yepcode/_yepcode_executor.py:163-224 | the run ends at the block the caller names when all blocks before it go on and it stops the run |
| `Run.ProceedExtends` | src/autogen_ext_yepcode/_yepcode_executor.py:184-217 | a block that goes on appends its text to `outputs` and makes its id `last_execution_id` |
| `Run.CompletedRun` | src/autogen_ext_yepcode/_yepcode_executor.py:226-227 | when no block stops the run, the result has exit code 0, the block texts joined by `"\n===\n"` in input order and the last block's id, and every block is submitted |
| `Run.StoppedRun` | src/autogen_ext_yepcode/_yepcode_executor.py:166-224 | when block `k` is the first to stop, the result is its stop result with exit code 1, and no later block is submitted |
| `Run.SingleBlockRun` | src/autogen_ext_yepcode/_yepcode_executor.py:163-228 | one block gives its own text and id, or its stop result with no earlier id |
| `Run.IdOnlyAfterSubmission` | src/autogen_ext_yepcode/_yepcode_executor.py:161-184 | a result carries an execution id only if some block was submitted |
| `Run.CompletedRunExtends` | src/autogen_ext_yepcode/_yepcode_executor.py:215-227 | one more block that goes on adds the separator and its text to the end of the output and makes its id the result's |
| `Run.RunEndsAt` | src/autogen_ext_yepcode/_yepcode_executor.py:163-228 | the result and the `run` calls, given the block where the run ends or that it completes |
| `Run.EmptyRun` | src/autogen_ext_yepcode/_yepcode_executor.py:157-158 | no blocks give exit code 0, an empty output, no id and no `run` call |
| `Run.UnsupportedLanguageStops` | src/autogen_ext_yepcode/_yepcode_executor.py:163-170 | the first block with an unsupported language ends the run with exit code 1, the message naming its label as given and no id, even after earlier submissions; it and later blocks are not submitted |
| `Run.SubmitFaultStops` | src/autogen_ext_yepcode/_yepcode_executor.py:174-224 | a `run` call that raises ends the run with the fault message and the previous block's id, none for the first block; that block was submitted |
| `Run.RemoteErrorStops` | src/autogen_ext_yepcode/_yepcode_executor.py:186-206 | in sync mode an execution error ends the run with the failure header, the error and the logs suffix, and that execution's id |
| `Run.WaitFaultStops` | src/autogen_ext_yepcode/_yepcode_executor.py:184-224 | in sync mode a `wait_for_done` that raises ends the run with the fault message and the id of the execution being waited for |
| `Run.ProceedIff` | src/autogen_ext_yepcode/_yepcode_executor.py:163-217 | a block goes on exactly when its language is supported, `run` returns and, in sync mode, the execution has no error; it then records its execution's id and adds the result text (sync) or the started message (async) |
| `Run.SubmissionsShape` | src/autogen_ext_yepcode/_yepcode_executor.py:174-182 | every `run` call is for a block, in input order, with its normalised and supported language, the configured `removeOnDone` and the timeout in milliseconds (`timeout * 1000`) |
| `Scenarios.ConstructionScenarios` | tests/test_yepcode_executor.py:14-50 | an explicit or environment token with the defaults; a missing token; a zero timeout; custom settings |
| `Scenarios.LowerPHP` | tests/test_yepcode_executor.py:62 | "PHP" lowers to "php" |
| `Scenarios.NormalizePython` | tests/test_yepcode_executor.py:58-59 | "python" and "py" normalise to "python" |
| `Scenarios.NormalizeJavaScript` | tests/test_yepcode_executor.py:60 | "javascript" normalises to itself |
| `Scenarios.NormalizeJs` | tests/test_yepcode_executor.py:61 | "js" normalises to "javascript" |
| `Scenarios.NormalizeUnknown` | tests/test_yepcode_executor.py:62 | "PHP" normalises to "php", and "bash" is not supported |
| `Scenarios.UnsupportedScenario` | tests/test_yepcode_executor.py:150-160 | a bash block gives exit code 1 and the full unsupported-language message, with no id |
| `Scenarios.SuccessScenario` | tests/test_yepcode_executor.py:164-193 | a python block returning `{'data': 'test output'}` gives exit code 0, the result text and the id "test-id" |
| `Scenarios.RemoteErrorScenario` | tests/test_yepcode_executor.py:197-221 | an execution reporting "Division by zero" gives exit code 1, the failure text and the id "test-id" |
| `Scenarios.NetworkErrorScenario` | tests/test_yepcode_executor.py:225-243 | a `run` call raising "Network error" gives exit code 1, the fault text and no id |
| `Scenarios.UnsupportedAfterSubmission` | src/autogen_ext_yepcode/_yepcode_executor.py:166-170 | without waiting, a python block and then a bash block give a result with no id, although one block was submitted |

## Left out

- `asyncio.to_thread` and async/await: the model is sequential, and the remote calls are the `outcomes` input.
- The `yepcode_run` client (`YepCodeRun`, `YepCodeApiConfig`, `run`, `wait_for_done`) is a foreign library. It is modelled only through the outcome of each submitted block and the `initFault` argument of `Start` and `Restart`.
- The outcomes are given up front, one per block (hence `|outcomes| == |blocks|`). So the remote service's answer cannot depend on the submission's contents; `Submissions` states what is sent.
- `load_dotenv` and `os.getenv`: environment I/O. The environment's token is the `env` parameter.
- The `cancellation_token` parameter is never read by the code.
- The pydantic `BaseModel`/`Field` machinery and the `Component` registration attributes are framework glue. `YepCodeCodeExecutorConfig` is a plain datatype.
- `__aenter__`/`__aexit__` only call `start` and `stop`.
- The `timeout` property only returns the stored value.
- Python's `str()` rendering of return values, errors and exceptions: each is an already-rendered string, and a return value carries its truthiness as a flag.
- `Text.Lower`: lowers ASCII letters only; Python's `str.lower` also maps non-ASCII letters.
- Any other exception raised inside the `try` (for example while reading an execution's fields) is not modelled beyond the two raising calls.
