# Glue runner, glue checker and step runner, modelled in Dafny

This project models the three AWS Lambda functions that start and track the
Glue jobs of a survey-processing pipeline run.

- **Step runner** (`steprunner/steprunner.py`). It reads a pipeline request
  from an SQS message and checks that the snapshot file exists in S3. It
  writes a `SUBMITTED` record to the pipeline-runs table, then starts a Step
  Functions execution. The execution's input names the Glue job (the EMR job
  when the pipeline's `spark` flag is truthy, the Python-shell job
  otherwise) and carries the payload as its `--config`.
- **Glue runner** (`gluerunner/gluerunner.py`). Its handler first drains
  the Step Functions activity. For each task it starts one Glue job with
  `--config` Base64-encoded, records the pair (activity ARN, job run id)
  with the task token in the correlation table, and fails the task when
  the start or the record fails. It then polls the jobs recorded for the
  activity, up to the query limit. It sends a heartbeat for a run still
  starting, running or stopping. For a settled run it reports success or
  failure and deletes the record.
- **Glue checker** (`gluerunner/gluechecker.py`). It is triggered by a Glue
  job state-change event. It looks up the records of that run id, reports
  SUCCEEDED and FAILED/STOPPED/TIMEOUT runs to Step Functions, and deletes
  each record it found.

The model follows the code as written, including its quirks:
- The polling list holds "STARTING" twice.
- A TIMEOUT run in `check_glue_jobs` gets no report but loses its record.
- After a poll that raises, `job_key` keeps the value the previous item
  left in it: that item's key after a settled state, `None` after a polling
  state. It is unbound when the first item's poll raises, and the function
  then raises `UnboundLocalError`.
- A run whose SUCCEEDED timestamps are missing is not reported, because
  `strftime` on `""` raises inside the `try`. Its record is still deleted.
- `message` is unbound when an S3 `ClientError` names neither
  `AccessDenied` nor `NoSuchKey`.
- The glue checker's `except` clause names `dynamodb.exceptions`, which a
  boto3 service resource does not have. A query that raises therefore
  raises `AttributeError` instead of returning (see "## Findings").
- The glue checker deletes with the configured activity ARN, not the ARN
  stored on the found record. A record of another activity is therefore
  never deleted.

Every service call is a parameter. The answer of each call (`Ok(value)` or
`Raised(message)`) is given in advance. A `Cloud` object (glue runner and
glue checker) or a `Backend` object (step runner) applies the answer to the
table it owns and logs the call that was made. Each handler is a `method`
that changes that object. It is proved equal, field by field, to a
specification function of the old state and the answers. The properties of
the specification functions are proved as lemmas. JSON text is handled by
an abstract codec `(dumps, loads)`. Where a property needs it, the codec is
assumed as a lemma hypothesis to read back what it writes. Base64 follows
section 4 of RFC 4648 and is proved to round-trip.

Modules:
- `Wrappers`: `Option` and `Reply`.
- `Json`: the JSON value and the codec.
- `Base64`: the standard alphabet with padding, and the ASCII step.
- `Services`: the correlation table, the calls made, and the `Cloud` class.
- `GlueRunner`, `GlueChecker` and `StepRunner`: the three handlers.

## Model

A row for a method also covers the specification function it is proved
equal to (`Drain`, `Check`, `Run`, `Handle`, `Serve`, `Submit`); those
functions' properties are the lemmas listed beside them.

| member | source | states |
|---|---|---|
| GlueRunner.Shape | gluerunner/gluerunner.py:64-70 | A task input is read in one of two shapes. An object gives the job name from "job" and the arguments from the JSON text under "input". A JSON string gives the arguments from its text and the job name from their "GlueJobName". Conversely, every input of either shape is read. |
| GlueRunner.ParseTaskInput | gluerunner/gluerunner.py:61-80 | A task is accepted exactly when its input is JSON of one of the two shapes, and its "--config" is a string whose JSON names a pipeline run id and a survey. Every other input is refused. |
| GlueRunner.FailTurn | gluerunner/gluerunner.py:108-114 | The `except` branch appends exactly one call, the task failure for the token, and leaves the table alone. The loop then returns, or raises what that call raised. |
| GlueRunner.JobArguments | gluerunner/gluerunner.py:85-87 | The job starts with the task's arguments, with only "--config" replaced by its Base64 text, which decodes back to the original config. |
| GlueRunner.Launch | gluerunner/gluerunner.py:82-114 | The job is started with the task's name, its encoded arguments and the configured capacity, only when the config is ASCII. A record keyed by (activity, run id) is added exactly when the start and the put succeed. Otherwise the task failure is the last call, and the loop returns, or raises if that call raises. |
| GlueRunner.Step | gluerunner/gluerunner.py:43-114 | A turn always fetches one task first. A turn without a task, or with an unreadable input, returns after that fetch alone. The loop goes on exactly when the task starts cleanly, and the new record then holds the job name and the task token. |
| GlueRunner.LaunchSends | gluerunner/gluerunner.py:82-114 | The block sends exactly: the job start when the config is ASCII, then the put of (activity, run id) with the job name and token when the start answered, then the task failure unless the start and the put both succeeded. |
| GlueRunner.StepSends | gluerunner/gluerunner.py:43-114 | A turn with a decoded task sends the fetch, then exactly the calls of `LaunchSends`. A clean turn sends exactly the fetch, the job start with `--config` encoded, and the put of its record. |
| GlueRunner.DrainStartsOnePerTask | gluerunner/gluerunner.py:43-59 | When `k` tasks start cleanly and the next fetch finds no task or raises, the loop returns after `k + 1` fetches and `k` job starts. |
| GlueRunner.DrainEndsAtFailure | gluerunner/gluerunner.py:108-114 | A task failure, if one is sent, is the last call of the loop. |
| GlueRunner.DrainOnlyInserts | gluerunner/gluerunner.py:95-105 | The loop keeps every existing record. It changes no record of another activity, and every key it adds carries the configured activity ARN. |
| GlueRunner.TakeTask | gluerunner/gluerunner.py:43-80 | One pass of the `while True` body changes the table and the call log exactly as `Step` says. |
| GlueRunner.LaunchJob | gluerunner/gluerunner.py:82-114 | The `try`/`except` block changes the table and the call log exactly as `Launch` says. |
| GlueRunner.StartGlueJobs | gluerunner/gluerunner.py:38-114 | `start_glue_jobs` leaves the table, the calls and the exit that the drain loop specifies, so the three lemmas above hold of it. |
| GlueRunner.LogRunId | gluerunner/gluerunner.py:192-197 | The logged run id is a prefix of at most eight characters of the id, followed by "...". |
| GlueRunner.SuccessOutput | gluerunner/gluerunner.py:169-182 | The success output exists exactly when all three timestamps are present. It then holds the job name, the full run id, the state and the three timestamps, and nothing else. |
| GlueRunner.Report | gluerunner/gluerunner.py:165-215 | A SUCCEEDED run with its timestamps gets one success report with the task token. A SUCCEEDED run missing a timestamp gets none. A FAILED or STOPPED run gets one `GlueJobFailedError` failure whose cause holds the job name, run id, state and error message. Any other state gets no report. |
| GlueRunner.FailureCause | gluerunner/gluerunner.py:201-206 | The failure cause holds exactly the job name, the full run id, the state and the error message, which is `""` when the run has none. |
| GlueRunner.PollItem | gluerunner/gluerunner.py:128-227 | Each item first gets `get_job_run`. A polling state sends a heartbeat, clears `job_key` and deletes nothing. A settled state sets `job_key` to (configured ARN, run id), reports as `Report` says, and deletes that key last. A poll that raises leaves `job_key` as the previous item set it, and deletes that key again when it is set. |
| GlueRunner.Reconcile | gluerunner/gluerunner.py:128-227 | The `for` loop raises exactly when `job_key` is read unassigned, that is, when the first item's poll raised. |
| GlueRunner.ReconcileOnlyDeletes | gluerunner/gluerunner.py:222-227 | Every record left after the loop was there before, with the same attributes. |
| GlueRunner.PassTouchesOnlyPage | gluerunner/gluerunner.py:123-126 | The pass only deletes, and every record the query did not return survives it. |
| GlueRunner.PassKeepsUnsettled | gluerunner/gluerunner.py:154-163 | A job still starting, running or stopping, or one whose poll raised, keeps its record. |
| GlueRunner.PassDeletesSettled | gluerunner/gluerunner.py:214-227 | When the pass returns, a job in any other state loses its record if its delete succeeded. This includes SUCCEEDED, FAILED, STOPPED, TIMEOUT and unknown states. |
| GlueRunner.SendReport | gluerunner/gluerunner.py:165-215 | The report branches send exactly the calls `Report` gives and leave the table alone. |
| GlueRunner.ReadRun | gluerunner/gluerunner.py:133-220 | The `try` block polls the run, then sends the heartbeat or the report. It leaves `job_key` cleared for a polling state, set for a settled one, and untouched when the poll raises. It deletes nothing. |
| GlueRunner.PollOne | gluerunner/gluerunner.py:133-227 | The loop body changes the table, the call log and `job_key` exactly as `PollItem` says. |
| GlueRunner.CheckGlueJobs | gluerunner/gluerunner.py:117-227 | `check_glue_jobs` sends the limited query by activity ARN first. It raises what the query raises, and otherwise ends as `Reconcile` says. |
| GlueRunner.Handler | gluerunner/gluerunner.py:237-240 | The handler drains the activity, then reconciles the table the drain left, unless the drain raised. |
| Base64.DecodeEncode | gluerunner/gluerunner.py:85-87 | Base64 decoding inverts encoding for every byte string. |
| Base64.EncodedLength | gluerunner/gluerunner.py:85-87 | The encoding of `n` bytes has `4 * ceil(n / 3)` characters. |
| Base64.EncodedAlphabet | gluerunner/gluerunner.py:85-87 | Every character of an encoding is a letter of the standard alphabet or `=`. |
| Base64.AsciiEncode | gluerunner/gluerunner.py:86 | `encode("ascii")` succeeds exactly on text whose every code is below 128, and gives one byte per character with the same code. |
| Base64.AsciiRoundTrip | gluerunner/gluerunner.py:86-87 | Decoding the ASCII bytes of an ASCII text gives the text back. |
| Base64.ConfigRoundTrip | gluerunner/gluerunner.py:85-87 | An ASCII config, encoded to ASCII Base64, decodes back to itself. |
| Services.AfterPut | gluerunner/gluerunner.py:105 | A successful put stores the record under its key. A put that raises changes nothing. |
| Services.AfterDelete | gluerunner/gluerunner.py:224 | A successful delete removes exactly that key. A delete that raises changes nothing. |
| GlueChecker.LogRunId | gluerunner/gluechecker.py:53 | The logged run id is a prefix of at most eight characters of the id, with nothing appended. |
| GlueChecker.SuccessOutput | gluerunner/gluechecker.py:42-47 | The success output holds exactly the job name, the full run id, the event state and the event time. |
| GlueChecker.FailureCause | gluerunner/gluechecker.py:58-63 | The failure cause holds exactly the job name, the full run id, the event state and the event message. |
| GlueChecker.ReportFor | gluerunner/gluechecker.py:40-69 | SUCCEEDED gets a success report and FAILED, STOPPED and TIMEOUT get a failure report, both carrying the item's token. Any other state gets no report. A failure state without `detail.message` raises `KeyError`. |
| GlueChecker.Resolve | gluerunner/gluechecker.py:36-79 | One item raises exactly when its message is missing or its report raises, and it then deletes nothing. Otherwise its calls are the report `ReportFor` gives, if any, then the delete of (configured ARN, run id). |
| GlueChecker.ResolveAll | gluerunner/gluechecker.py:35-79 | The loop raises exactly when some item raises. It only deletes. When it returns, its calls are each item's report, if any, then that item's delete, item after item. |
| GlueChecker.Handle | gluerunner/gluechecker.py:20-35 | With the `except` clause as intended (`meta.client.exceptions`), the handler first queries by run id. A missing table, or no item found, ends it with that query alone. Any other query error raises. It never adds or changes a record. |
| GlueChecker.HandleAsWritten | gluerunner/gluechecker.py:23-33 | As written, any exception of the query raises `AttributeError` from the `except` clause, a missing table included. A found page is handled as `Handle` says. |
| GlueChecker.MissingTableRaises | gluerunner/gluechecker.py:27-33 | On a missing table the handler as written raises, while the intended handler returns after the query. |
| GlueChecker.HandlerCalls | gluerunner/gluechecker.py:27-79 | When the handler returns, its calls are the query, then each item's calls in turn. |
| GlueChecker.ReportedCallsAt | gluerunner/gluechecker.py:35-77 | For a reported state, item `j` makes its report, then its delete, at position `2 * j` of the items' calls. |
| GlueChecker.UnreportedCallsAt | gluerunner/gluechecker.py:35-77 | For a state that is not reported, item `j` makes only its delete, at position `j`. |
| GlueChecker.HandlerKeepsOthers | gluerunner/gluechecker.py:71-77 | A record whose key is not (configured ARN, found run id) keeps its value. |
| GlueChecker.ForeignRecordSurvives | gluerunner/gluechecker.py:72-76 | A found record of another activity is never deleted. |
| GlueChecker.HandlerDeletesEvery | gluerunner/gluechecker.py:71-79 | When the handler returns, every found item whose delete succeeded is gone. |
| GlueChecker.HandlerReportsOncePerItem | gluerunner/gluechecker.py:40-69 | When the handler returns, for a reported state each found item got exactly one report, sent to its own task token, followed by the delete of its key. The report is a success exactly for SUCCEEDED. Any other state gets only the deletes. |
| GlueChecker.HandlerRaises | gluerunner/gluechecker.py:49-69 | The handler raises exactly when some item raises. It never raises for a state that is not reported. |
| GlueChecker.HandlerClearsRun | gluerunner/gluechecker.py:27-79 | When every record of the run carries the configured ARN and every delete succeeds, no record of the run is left. |
| GlueChecker.RedeliveryFindsNothing | gluerunner/gluechecker.py:27-79 | Under the same conditions, a second delivery of the event finds no item and only queries. |
| GlueChecker.ResolveOne | gluerunner/gluechecker.py:36-79 | The loop body changes the table and the call log exactly as `Resolve` says. |
| GlueChecker.Handler | gluerunner/gluechecker.py:20-79 | The handler changes the table and the call log exactly as `Handle` says. |
| StepRunner.StripSchemeKeeps | steprunner/steprunner.py:21 | A path without "s3://" is left unchanged. |
| StepRunner.StripSchemePrefix | steprunner/steprunner.py:21 | "s3://" followed by a rest free of "s3://" gives that rest. |
| StepRunner.StripSchemeLeavesScheme | steprunner/steprunner.py:21 | One left-to-right pass of the replacement can leave an "s3://" behind: "s3:s3:////" gives "s3://". |
| StepRunner.Split | steprunner/steprunner.py:21 | Splitting gives at least one part, and no part holds the separator. |
| StepRunner.JoinSplit | steprunner/steprunner.py:21-23 | Joining the parts with "/" gives back the split text. |
| StepRunner.SplitS3Path | steprunner/steprunner.py:20-24 | The bucket holds no "/". The bucket, "/" and the key give back the stripped path. When the stripped path has no "/", the bucket is all of it and the key is empty. |
| StepRunner.S3PathRoundTrip | steprunner/steprunner.py:20-24 | "s3://bucket/key" splits back into that bucket and key. |
| StepRunner.FlattenLines | steprunner/steprunner.py:32 | Every newline of the message body becomes a space, and no other character changes. |
| StepRunner.Get | steprunner/steprunner.py:34-39 | Subscripting gives the field when the value is an object holding the key. It raises `KeyError` when the key is missing from an object, and "not subscriptable" on any other value. |
| StepRunner.ParseEvent | steprunner/steprunner.py:32-39 | The event is read exactly when the body is JSON with an object "Payload" holding "pipeline", "run_id", "survey" and "snapshot_location", and its pipeline text decodes to an object holding "environment" and "bpm_queue_url". A body that is not JSON raises. |
| StepRunner.ClientErrorMessage | steprunner/steprunner.py:63-70 | An "AccessDenied" error text gives the access-denied message, else "NoSuchKey" gives the missing-file message. Any other text gives none, so `message` is unbound. |
| StepRunner.Fetch | steprunner/steprunner.py:55-75 | The handler goes on exactly when the snapshot location is a string and the object was fetched. It then fetched the bucket and key `split_s3_path` gives. An "AccessDenied" or "NoSuchKey" `ClientError` ends it with the 400 answer `ClientErrorMessage` gives, and a `ClientError` with neither with the unbound `message`. Any other exception, and a location that is not a string, end it with the 400 "error retrieving" answer. |
| StepRunner.CheckSnapshot | steprunner/steprunner.py:55-75 | The snapshot check sends what `Fetch` says and changes no run record. |
| StepRunner.JobName | steprunner/steprunner.py:77-87 | A truthy `spark` flag picks the EMR job, and any other value picks the Python-shell job. |
| StepRunner.MissingField | steprunner/steprunner.py:99-115 | The metadata can be built exactly when the payload holds the template id, the template version and the client id. |
| StepRunner.Metadata | steprunner/steprunner.py:99-110 | The run record holds exactly seven attributes. Its status is SUBMITTED, its category is the survey, its runtime config is the pipeline text, and the other four fields are copied from the payload. |
| StepRunner.Backend.Put | steprunner/steprunner.py:99-110 | A put is always sent. It stores the item under the run id exactly when it succeeds. |
| StepRunner.ExecutionNameParts | steprunner/steprunner.py:139 | The execution name is "Lambda-Execution-", the run id, then four digits that read back as the random number. |
| StepRunner.DigitsRoundTrip | steprunner/steprunner.py:139 | The decimal text of a number reads back as that number. |
| StepRunner.ExecutionInputDecodes | steprunner/steprunner.py:140-147 | The doubly JSON-encoded execution input is accepted by the glue runner's task parser. The parser gives back the job name, the arguments and the payload's JSON text as the config. |
| StepRunner.Submit | steprunner/steprunner.py:76-115 | A missing `spark` flag raises `KeyError`. A missing metadata field returns its `KeyError` text with nothing sent. A failed put returns the exception's text after the put alone. A successful put records the run under its run id before anything else is sent. |
| StepRunner.Launch | steprunner/steprunner.py:117-155 | An execution is started exactly when the run id is a string. The handler answers `{statusCode: 200, body: executionArn}` exactly when that start succeeds. A failed start answers the exception's text. A run id that is not a string answers the `TypeError` text and starts nothing. |
| StepRunner.Record | steprunner/steprunner.py:77-155 | Writing the record and starting the execution change the runs table and the requests as `Submit` says. |
| StepRunner.HandleAccepts | steprunner/steprunner.py:27-155 | The handler answers 200 exactly when nothing went wrong. It then read the snapshot, wrote the SUBMITTED record under the run id, and started one execution named after the run. |
| StepRunner.UnreadableSnapshotStartsNothing | steprunner/steprunner.py:55-75 | A snapshot that cannot be read writes no record and starts no execution. Its answer is the access-denied or missing-file 400 for those `ClientError`s, and the "error retrieving" 400 for any other exception or a location that is not a string. |
| StepRunner.FailedPutStartsNothing | steprunner/steprunner.py:114-115 | A failed record write returns the exception's text and starts no execution. |
| StepRunner.StartedRunReachesGlueRunner | steprunner/steprunner.py:121-147 | Every execution started carries an input the glue runner decodes into the chosen job. Its config is the payload whose pipeline carries the run id. |
| StepRunner.Proceed | steprunner/steprunner.py:42-155 | After the message is read, a logger that fails raises with no request sent. Otherwise the handler checks the snapshot and submits, changing the runs and the requests as `Serve` says. |
| StepRunner.Handler | steprunner/steprunner.py:27-155 | The handler changes the runs table and the requests, and returns the result, exactly as `Handle` says. |

## Findings

| source | as written | input that shows it | evidently intended | confidence | as-written member | corrected member |
|---|---|---|---|---|---|---|
| gluerunner/gluechecker.py:31 | `except dynamodb.exceptions.ResourceNotFoundException` on a `boto3.resource("dynamodb")`, which has no `exceptions` attribute | a state-change event while the correlation table does not exist: the query raises, the `except` clause raises `AttributeError`, and the handler raises | catch `dynamodb.meta.client.exceptions.ResourceNotFoundException`, log, and return | not executed; high (from boto3's documented resource interface) | GlueChecker.HandleAsWritten, GlueChecker.MissingTableRaises | GlueChecker.Handle |

## Left out

- Boto3 and botocore: clients, retries, time-outs, and the validation of request parameters are not modelled. Each call is one request whose answer is a parameter. The DynamoDB key schema is not checked, including the glue checker's query by `glue_job_run_id` with no index.
- Logging is left out, apart from the truncated run ids the two handlers write. Log levels, the message texts and `get_logger`'s own failure text are not modelled; the step runner's logger answer is a parameter.
- `strftime` is not modelled: a timestamp is its formatted text, and a missing one makes the report step raise.
- The JSON grammar, dict key order and floating-point numbers are not modelled. `json.dumps`/`json.loads` form an abstract codec, and numbers are integers.
- `random.randint(1111, 9999)` is a parameter of the step runner.
- Concurrent invocations and the environment read when a module loads are not modelled. The settings are parameters.
- GlueChecker.Handler: follows the intended `except` clause (`GlueChecker.Handle`); the as-written behaviour on a query error is `GlueChecker.HandleAsWritten`.
- The step runner's SQS envelope `event["Records"][0]["body"]` is taken as present: the model starts from the message body. An event without a record or a body is not modelled.
- The correlation table holds only records the drain loop writes, each with its job name and task token. A stored item missing `glue_job_run_id`, `glue_job_name` or `sfn_task_token`, on which both handlers raise `KeyError`, is not modelled.
- The event fields the glue checker reads are taken as present. A malformed EventBridge event (no `detail`, `state` or `time`) is not modelled.
- The text of Python exceptions is modelled only where it decides an answer or names the failure: `KeyError`, the `TypeError` of concatenating a non-string run id, the `UnboundLocalError` of `job_key` and of `message`, the `AttributeError` of the glue checker's `except` clause, and the handled logger failure. Other `TypeError` kinds are merged into "not JSON" or "not subscriptable". The `UnboundLocalError` text is the one Python 3.10 and earlier print; later versions word it differently.
- The step runner's `else` branch at lines 83-87 and its `Payload` check at lines 130-133 cannot be reached, so they are not modelled.
- The step runner's in-place update of the payload's pipeline (lines 121-122) is modelled by building the updated payload. Python aliasing between the two dictionaries is not modelled.
- The reports `check_glue_jobs` sends are not inputs: their exceptions are caught and only logged, so their answers change nothing.
- The step runner's `handle_exception` and `LambdaFailure` are modelled as one raise carrying the logger's failure message. `general_functions` and `exception_classes` are not part of this model.
- The state machine that hands the execution input to the activity is not part of this model. `StartedRunReachesGlueRunner` states what the glue runner would read if the input arrives unchanged.
- `dynamo_queryrunner` and the rest of the repository are not part of this model.
