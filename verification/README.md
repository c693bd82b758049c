# queue-consumer core, modelled in Dafny

The service reads `{jobName, payload}` messages from a queue and turns each one
into a single outbound HTTP call. Around that call it runs a chain of callback
jobs and reports every outcome to a counting probe. This project models the
logic behind that in Dafny and proves what it promises. It covers:

- **Job execution** (`Job::loadCallbacks`, `do`, `fail`, the request-shaping
  helpers).
  - `class Job` keeps its three mutable callback slots, and its methods are
    proved against a value-level protocol, `Execution.Run`, over a resolved
    callback tree.
  - `loadCallbacks` is proved to bind exactly the slots that
    `Registry.ResolveName` resolves.
- **The job registry** (`JobConfigResolver`): the file filter, the validation
  of parsed YAML, the defaults, the merge by job name, the lookup and the
  payload check.
  - `class JobConfigResolver` holds the loaded `Job` objects.
  - Its loops are proved against the pure loader `Registry.LoadAll`.
- **The message handler** (`App\Message\GenericMessageHandler`) and the earlier
  placeholder handler (`App\MessageHandler\GenericMessageHandler`).
  - Each `Invoke` method is proved to make exactly the probe calls, HTTP
    requests and outcome of a value function: `Message.Handle` for the full
    handler, `MessageHandler.Report` for the placeholder.
- **The counting probe** (`JobValidationProbe`). Its `ok`/`failed` counters
  and `last` record are kept consistent with a ghost history of calls.

### Terms used below

- An **execution** (`Execution.Execution`) is what running a job produces:
  - the probe calls it makes;
  - the HTTP requests it attempts;
  - its outcome, which is either `Completed` or `Raised(message)`. `Raised`
    stands for a thrown `RuntimeException`.
- The **world** (`Requests.World`) stands for everything outside the code:
  - the endpoint's answer to each request;
  - the query-string and JSON encoders.
- A **rank** is a map from job names to numbers that every callback edge
  lowers. It witnesses that the callback graph has no cycle.

### Where the tests and the code disagree

`tests/Config/JobConfigResolverTest.php:115` expects
`doesMessagePayloadMatchesJobConfig` to reject a job with no required keys
when the payload has extra keys. The code accepts it, because it only checks
the required keys. The model follows the code: see
`Registry.PayloadMatchesProperties`.

Two places where the code differs from what its design and tests evidently
intend are listed under "## Findings". Each is modelled both as written and
corrected.

## Model

| member | source | states |
|---|---|---|
| Probes.JobValidationProbe.constructor | src/Job/JobValidationProbe.php:8-13 | a new probe has `ok = 0`, `failed = 0`, no `last` record and an empty call history |
| Probes.JobValidationProbe.Ok | src/Job/JobValidationProbe.php:15-19 | `ok` goes up by one, `failed` is unchanged, and `last` is this call, which has no reason |
| Probes.JobValidationProbe.Failed | src/Job/JobValidationProbe.php:21-25 | `failed` goes up by one, `ok` is unchanged, and `last` is this call with its reason |
| Probes.CountsCoverAllCalls | src/Job/JobValidationProbe.php:15-25 | every recorded call is counted as either `ok` or `failed` |
| Probes.JobValidationProbe.CountersMatchCalls | src/Job/JobValidationProbe.php:15-25 | `ok + failed` is the number of calls made, and neither counter is negative |
| Values.PresenceSemanticsDiffer | src/Job/Job.php:165 | `isset` implies `array_key_exists`; they differ exactly on keys whose value is null |
| Definitions.CallbackNames | src/Job/Job.php:30-32 | a name is a callback name of a definition exactly when one of its three slots names it |
| Requests.ProjectCharacterised | src/Job/Job.php:163-168 | the projected parameters are exactly the configured keys with a non-null payload value, each once, each with its payload value |
| Requests.ProjectDistinctIsFilter | src/Job/Job.php:164-168 | with distinct configured keys, the projection is those keys, in order, that have a non-null value |
| Requests.ProjectEmptyIff | src/Job/Job.php:170-172 | the projection is empty exactly when no configured key has a non-null value |
| Requests.MethodNormalised | src/Job/Job.php:122 | the verb is `GET` for an empty or `"0"` method, otherwise the method with each ASCII lower-case letter raised to upper case (`strtoupper`), character by character; it is never empty, has no lower-case letter, and normalising it again changes nothing |
| Requests.UrlDefaulting | src/Job/Job.php:120-121 | with query parameters the URL is `url?query`; without them it is `url`, or `http://localhost` when `url` is empty or `"0"` |
| Requests.RequestFailure | src/Job/Job.php:128-155 | the request succeeds exactly when the answer is the configured status code; otherwise the reason is the cURL-init, cURL-error or `Unexpected status code: N` text |
| Requests.Transport.Execute | src/Job/Job.php:128-151 | one attempt is recorded, and the answer is the world's answer to that request |
| Execution.Fail | src/Job/Job.php:100-112 | `fail` (corrected) always raises `Job request failed: ` plus the original message, and does nothing else when no onFail is bound |
| Execution.FailAsWrittenMasksOriginal | src/Job/Job.php:104-111 | as written, a failing onFail whose message differs replaces the original message in the exception |
| Execution.FailAsWrittenExample | src/Job/Job.php:100-112 | for one concrete job whose request and onFail both fail, the corrected and as-written exceptions differ |
| Execution.OnStartFailureAborts | src/Job/Job.php:62-68 | when onStart raises, neither the main request nor onSuccess runs, the job reports nothing itself, onFail gets the unchanged payload, and the prefix stacks |
| Execution.MainFailureReportsOnce | src/Job/Job.php:71-82 | a failed main request adds exactly one `failed(name, payload, reason)`; onSuccess does not run; onFail gets the payload with `__error_message` set to the reason and every other key kept; the prefixed reason is raised |
| Execution.OnSuccessFailureSuppressesOk | src/Job/Job.php:84-93 | when onSuccess raises, the job's own `ok` is not reported and the prefixed onSuccess failure is raised |
| Execution.CleanRunCompleted | src/Job/Job.php:57-95 | when onStart, the main request and onSuccess all run cleanly, the job completes cleanly and its own `ok` comes last |
| Execution.RaisedMessageHasPrefix | src/Job/Job.php:111 | every exception a job raises starts with `Job request failed: ` |
| Execution.CompletesIffAllSucceed | src/Job/Job.php:57-95 | a job completes exactly when onStart, the main request and onSuccess all succeed along the chain; then it makes one request and one `ok` per job on that path, no `failed`, and its own `ok` comes last |
| Execution.RaisesIffFailureReported | src/Job/Job.php:57-112 | a job raises exactly when some `failed` report was made while it ran |
| Execution.ReportsNameTreeJobs | src/Job/Job.php:57-95 | every report made while running a job names a job of its callback tree |
| Execution.OwnReports | src/Job/Job.php:71-93 | when no callback shares the job's name, the job reports `ok` for itself once if it completes and never otherwise, and `failed` once exactly when its own request failed after onStart completed |
| Registry.ConfigFileSelection | src/Config/JobConfigResolver.php:111-132 | in env `test` only `test.yaml` is loaded; elsewhere a failed listing is an error, and the files are the listed ones except `test.yaml`, in the listed order: removing a `test.yaml` leaves the kept files before it followed by those after it |
| Registry.KeepConfigFilesMembers | src/Config/JobConfigResolver.php:122-129 | outside `test`, the filter keeps exactly the listed files other than `test.yaml`, never adds any, and changes nothing when `test.yaml` is absent |
| Registry.KeepConfigFilesConcat | src/Config/JobConfigResolver.php:122-129 | the filter distributes over concatenation and keeps a single file unless it is `test.yaml` outside `test`, so it keeps the listed order |
| Registry.GetConfigFiles | src/Config/JobConfigResolver.php:111-132 | the filter loop computes `ConfigFiles` |
| Registry.ParseFileRejects | src/Config/JobConfigResolver.php:61-71 | a document is rejected as "not a map" exactly when it is no map with a `jobs` map; any other error names one of its entries |
| Registry.ParseEntriesErrors | src/Config/JobConfigResolver.php:68-100 | a file's entries fail only with an entry error, and that error names one of the entries |
| Registry.ParseJobRejects | src/Config/JobConfigResolver.php:69-99 | which entries are rejected and with which error; an entry loads exactly when it passes the map, string and array checks and the constructor's types |
| Registry.ParseJobDefaults | src/Config/JobConfigResolver.php:87-99 | a loaded definition carries the entry's values, with `log_suffix` defaulting to the job name, the status code to 200, the query and body key lists taken from `query_url_from` and `json_body_from`, and each `on_start`, `on_success`, `on_fail` entry as that callback name when it is a string and as no callback exactly when it is absent or null |
| Registry.AsWrittenDropsCallbacks | src/Config/JobConfigResolver.php:87-99 | as written, no loaded definition names any callback |
| Registry.AsWrittenDropsCallbacksExample | src/Config/JobConfigResolver.php:87-99 | an entry with `on_start: ping` loads without onStart as written, and with it once corrected |
| Registry.LoadFilesConcat | src/Config/JobConfigResolver.php:60-103 | loading two runs of files is loading each and merging, the later run winning and the first error aborting |
| Registry.MergeAssociative | src/Config/JobConfigResolver.php:102 | merging loaded runs is associative, with the first error winning |
| Registry.LaterDocumentsWin | src/Config/JobConfigResolver.php:102 | a later document's definition of a name replaces an earlier one; other names keep theirs |
| Registry.ParseEntriesNamesMatch | src/Config/JobConfigResolver.php:68-99 | a file's loaded definitions are filed under their own names |
| Jobs.ParseJobKeepsName | src/Config/JobConfigResolver.php:87-88 | a loaded definition carries the entry's key as its name |
| Registry.ParseEntriesLookup | src/Config/JobConfigResolver.php:68-100 | with each job name once, exactly the entries' names are loaded, each with the definition its own entry gives |
| Registry.LoadedNamesMatchKeys | src/Config/JobConfigResolver.php:87-88 | every loaded definition is filed under its own name |
| Registry.PayloadMatchesProperties | src/Config/JobConfigResolver.php:32-49 | false for an unknown job; for a known job, true exactly when every required key is a payload key; extra keys never matter; no required keys means true |
| Registry.NullRequiredKeyPassesUnsent | src/Config/JobConfigResolver.php:43 | a required key sent as null passes the check, yet is left out of both the query and the body |
| Registry.SlotSucceedsIff | src/Job/Job.php:38-49 | one slot resolves exactly when every name it reaches is defined; a failure names an undefined reachable job |
| Registry.ResolvedRootFresh | src/Job/Job.php:36-52 | when every definition is filed under its own name, a resolved job carries the name it was looked up by, and no job below it has that name |
| Registry.ResolveSucceedsIff | src/Job/Job.php:36-52 | resolution succeeds exactly when every name it reaches is defined; a failure carries the not-found message of a reachable undefined name |
| Registry.ResolvedShape | src/Job/Job.php:36-52 | a resolved tree fills exactly the named slots, each with the resolved tree of the registry's job of that name |
| Registry.ResolvedRanks | src/Job/Job.php:36-52 | every job of a resolved tree is defined and ranked no higher than the root, and every callback strictly lower |
| Jobs.CollectParams | src/Job/Job.php:163-168 | the `foreach` builds exactly the projection |
| Jobs.LoadFile | src/Config/JobConfigResolver.php:61-100 | one file's loop fails exactly as `ParseFile` does; on success it returns new, unloaded jobs whose definitions are `ParseFile`'s |
| Jobs.LoadEntries | src/Config/JobConfigResolver.php:68-100 | the entry loop fails exactly as `ParseEntries` does, at the first bad entry; on success it returns new, unloaded jobs whose definitions are `ParseEntries`' |
| Jobs.LoadFileList | src/Config/JobConfigResolver.php:60-103 | the file loop with `array_merge` fails exactly as `LoadFiles` does, else returns new, unloaded jobs with its definitions |
| Jobs.LoadedTreeIsResolution | src/Job/Job.php:36-52 | once every slot reachable from a job is bound, the slots form exactly the tree `ResolveName` gives |
| Jobs.Job.LoadCallbacks | src/Job/Job.php:36-52 | the error is resolution's error; on success every slot reachable from the job is bound; no bound slot is unbound; the table stays consistent |
| Jobs.Job.LoadSlot | src/Job/Job.php:38-41 | one block: the slot's lookup error or the callback's loading error; on success the slot is bound and the callback's reach is loaded |
| Jobs.Job.Bind | src/Job/Job.php:39 | binding a named slot to the registry's job of that name keeps the table consistent and only adds bound slots |
| Jobs.Job.LoadTree | src/Job/Job.php:36-52 | `loadCallbacks` as the handler sees it: resolution's error, or the slots now form the resolved tree |
| Jobs.Job.Do | src/Job/Job.php:57-95 | exactly the probe calls, requests and outcome of `Execution.Run` on the tree the slots form |
| Jobs.Job.DoMain | src/Job/Job.php:70-82 | the main request and what follows it, exactly as `Execution.AfterStart` |
| Jobs.Job.DoSuccess | src/Job/Job.php:84-94 | onSuccess and the final `ok`, exactly as `Execution.AfterRequest` |
| Jobs.Job.Fail | src/Job/Job.php:100-112 | `fail` (corrected): exactly the calls, requests and outcome of `Execution.Fail` |
| Jobs.Job.MakeRequest | src/Job/Job.php:118-156 | exactly one request, the one `BuildRequest` describes, is attempted; the verdict is `RequestFailure` of its answer |
| Jobs.Job.BuildQueryUrl | src/Job/Job.php:161-175 | empty for an empty projection, otherwise `?` followed by the encoded projection |
| Jobs.Job.BuildPostBody | src/Job/Job.php:180-198 | `{}` for an empty projection, otherwise the JSON encoding of the projection |
| Jobs.JobConfigResolver.GetJobByName | src/Config/JobConfigResolver.php:23-30 | a job is found exactly for a loaded name, and it is the stored job; an unknown name gives `Job config not found for job name: <name>` |
| Jobs.JobConfigResolver.DoesMessagePayloadMatchesJobConfig | src/Config/JobConfigResolver.php:32-49 | the early-return loop decides `PayloadMatches` |
| Jobs.JobConfigResolver.LoadJobsOnce | src/Config/JobConfigResolver.php:51-106 | nothing changes once loaded; otherwise the error is `LoadAll`'s and nothing is stored, or the stored jobs are new, unloaded and carry `LoadAll`'s definitions |
| Jobs.JobConfigResolver.Create | src/Config/JobConfigResolver.php:18-21 | construction fails exactly when loading fails, with the same error; otherwise the resolver holds `LoadAll`'s definitions with no slot bound |
| Message.UndeliverableAcknowledged | src/Message/GenericMessageHandler.php:23-49 | a message that fails lookup, the payload check or callback loading gets one `failed` report with the right reason, sends nothing and returns normally |
| Message.OnlyRunFailuresRetry | src/Message/GenericMessageHandler.php:51 | the handler throws exactly when the message passed all checks and the job's run raised; the exception has the `fail` prefix, and a `failed` report was made |
| Message.CleanIffJobSucceeds | src/Message/GenericMessageHandler.php:21-52 | no exception and no `failed` report exactly when the message is deliverable and every job on the success path succeeds; then one request and one `ok` per job on that path, the message's job last |
| Message.OwnJobReportsOnce | src/Message/GenericMessageHandler.php:51 | the message's own job reports `ok` once exactly when the run completes, and `failed` once exactly when its own request failed |
| Message.GenericMessageHandler.Invoke | src/Message/GenericMessageHandler.php:21-52 | `__invoke` makes exactly the probe calls, requests and outcome of `Handle` |
| Message.GenericMessageHandler.Reject | src/Message/GenericMessageHandler.php:23-39 | an early exit makes exactly one `failed` report with the given reason |
| Message.GenericMessageHandler.DeliverTo | src/Message/GenericMessageHandler.php:41-51 | loading the callbacks, then `do`: exactly the calls, requests and outcome of `Deliver` |
| Message.GenericMessageHandler.ReportLoadFailure | src/Message/GenericMessageHandler.php:43-48 | a loading error gives one `failed` report with `Failed to load job callbacks: ` plus the error |
| Message.GenericMessageHandler.RunLoaded | src/Message/GenericMessageHandler.php:51 | `do` with the original payload: exactly `Run` on the resolved tree |
| MessageHandler.Report | src/MessageHandler/GenericMessageHandler.php:22-44 | the one report names the message's job and payload; it is `ok` exactly when the payload matches; a `failed` reason says which check failed |
| MessageHandler.SameChecksAsFullHandler | src/MessageHandler/GenericMessageHandler.php:24-38 | the placeholder turns a message away exactly when the full handler does at its first two checks, with the same report, and otherwise reports `ok` |
| MessageHandler.GenericMessageHandler.Invoke | src/MessageHandler/GenericMessageHandler.php:22-44 | exactly one probe call, `Report`; the handler never throws and sends no request |

## Left out

- The cURL transport (`curl_init`, `curl_setopt_array`, `curl_exec`, `curl_getinfo`) is the world's `respond` oracle. The SSL flags and the timeout are not modelled.
- `http_build_query` and `json_encode` are the world's encoders, given the projected ordered key/value list.
- Jobs.Job.BuildPostBody: the `Failed to encode JSON body` branch is not modelled, because the encoder is an oracle that always returns a string.
- Logging (`Logger::info`, `Logger::error`) has no effect on control flow and is not modelled.
- `Yaml::parseFile` and `glob` are I/O. The parsed documents are a parameter (`parse`), and so is the listing (`listed`, `None` when `glob` fails).
- Jobs.JobConfigResolver.LoadJobsOnce: requires documents without integer-like job names, with each job name once, and with string entries in the key lists. PHP's `array_merge` renumbers integer keys, a PHP array cannot hold a key twice, and the `string[]` typing of the key lists is not checked by the source.
- Jobs.Job.LoadCallbacks: requires an acyclic callback graph, witnessed by a rank. The source recurses without end on a cycle, and this model does not describe that.
- Message.GenericMessageHandler.Invoke: requires the registry to be loaded (its constructor loads it) and the callback graph of the loaded jobs to be ranked, as `LoadCallbacks` does.
- The no-op probes (`src/Job/NullJobValidationProbe.php`, `src/Message/NullJobValidationProbe.php`) hold no logic. The probe interface is represented only by `Probes.JobValidationProbe`.
- `src/Config/Job.php`, an older record without callbacks, is not part of this model. `src/Message/GenericMessage.php` is the datatype `Definitions.GenericMessage`.
- The Symfony Messenger wiring, the CLI commands and the ping example are not part of this model.
- Concurrency: one message is handled at a time.
- The resolver loads with the corrected entry parser `Registry.ParseJob`. With the loader as written, no callback name is ever set and `loadCallbacks` does nothing: see "## Findings".
- The heap `Jobs.Job.Fail` implements the corrected `fail`. The as-written behaviour exists only as the value function `Execution.FailAsWritten`.

## Findings

| source | as written | input that shows it | evidently intended | confidence | as-written member | corrected member |
|---|---|---|---|---|---|---|
| src/Job/Job.php:100-112 | `catch (RuntimeException $e)` inside `fail` reuses the parameter name `$e`, so a failing onFail overwrites the original exception, and `fail` raises `Job request failed: ` plus onFail's message | a job whose main request fails with a connection error and whose onFail job also fails: the raised message names the onFail failure, not the original error | onFail's own failure is swallowed and the original failure is re-raised behind the prefix | not executed | Execution.FailAsWrittenMasksOriginal | Execution.Fail |
| src/Config/JobConfigResolver.php:87-99 | the `new Job(...)` call passes no `onStartCallbackName`, `onSuccessCallbackName` or `onFailCallbackName`, so every loaded job has no callbacks | an entry with `on_start: ping` loads with no onStart callback | the `on_start`, `on_success` and `on_fail` entries are read and passed on, as the callback tests expect | not executed | Registry.AsWrittenDropsCallbacksExample | Registry.ParseJobDefaults |
