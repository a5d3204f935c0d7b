/**
  The step runner: a Lambda function fed by a queue message that submits one
  pipeline run. It checks that the snapshot file can be read, records the
  run as SUBMITTED in the pipeline-runs table, and starts the Step Functions
  state machine whose activity task the glue runner later picks up.
*/
module StepRunner {
  import opened Wrappers
  import opened Json
  import GlueRunner
  import Services

  // ---------------------------------------------------------------------------
  // Strings
  // ---------------------------------------------------------------------------

  predicate StartsWith(s: string, prefix: string) {
    |prefix| <= |s| && s[..|prefix|] == prefix
  }

  /** Python's `part in s` for strings. */
  predicate Contains(s: string, part: string)
    decreases |s|
  {
    StartsWith(s, part) || (s != [] && Contains(s[1..], part))
  }

  const Scheme := "s3://"

  /**
    `s.replace("s3://", "")`: one scan from the left that drops each
    occurrence it meets; text it has already passed is not scanned again.
  */
  function StripScheme(s: string): (r: string)
    ensures |r| <= |s|
    decreases |s|
  {
    if StartsWith(s, Scheme) then StripScheme(s[|Scheme|..])
    else if s == [] then []
    else [s[0]] + StripScheme(s[1..])
  }

  /** Text without the scheme in it comes through unchanged. */
  lemma {:induction false} StripSchemeKeeps(s: string)
    requires !Contains(s, Scheme)
    ensures StripScheme(s) == s
    decreases |s|
  {
    if s != [] {
      StripSchemeKeeps(s[1..]);
      assert [s[0]] + s[1..] == s;
    }
  }

  /** A leading scheme is dropped, and with it the only occurrence. */
  lemma StripSchemePrefix(rest: string)
    requires !Contains(rest, Scheme)
    ensures StripScheme(Scheme + rest) == rest
  {
    assert (Scheme + rest)[..|Scheme|] == Scheme;
    assert (Scheme + rest)[|Scheme|..] == rest;
    StripSchemeKeeps(rest);
  }

  /** The single pass can leave a scheme behind: dropping the inner one joins "s3:" and "//". */
  lemma StripSchemeLeavesScheme()
    ensures StripScheme("s3:" + Scheme + "//") == Scheme
  {
    var slashes := "//";
    var tail := Scheme + slashes;
    var a := [':'] + tail;
    var b := ['3'] + a;
    var c := ['s'] + b;
    StripPasses('/', "/");
    StripPasses('/', []);
    StripDrops(slashes);
    NotScheme(a, 0);
    NotScheme(b, 0);
    assert c[3] == Scheme[0];
    NotScheme(c, 3);
    calc {
      StripScheme(c);
      { StripPasses('s', b); }
      ['s'] + StripScheme(b);
      { StripPasses('3', a); }
      ['s'] + (['3'] + StripScheme(a));
      { StripPasses(':', tail); }
      ['s'] + (['3'] + ([':'] + StripScheme(slashes)));
      ['s'] + (['3'] + ([':'] + slashes));
      Scheme;
    }
    assert "s3:" + Scheme + slashes == c;
  }

  /** Text whose `i`-th character differs from the scheme's does not start with it. */
  lemma NotScheme(s: string, i: nat)
    requires i < |Scheme| && i < |s| && s[i] != Scheme[i]
    ensures !StartsWith(s, Scheme)
  {
    if |Scheme| <= |s| {
      assert s[..|Scheme|][i] == s[i];
    }
  }

  /** A character that does not start the scheme is kept, and the scan moves past it. */
  lemma StripPasses(c: char, rest: string)
    requires !StartsWith([c] + rest, Scheme)
    ensures StripScheme([c] + rest) == [c] + StripScheme(rest)
  {
    assert ([c] + rest)[1..] == rest;
  }

  /** A scheme at the scan position is dropped, and the scan goes on after it. */
  lemma StripDrops(rest: string)
    ensures StripScheme(Scheme + rest) == StripScheme(rest)
  {
    assert (Scheme + rest)[..|Scheme|] == Scheme;
    assert (Scheme + rest)[|Scheme|..] == rest;
  }

  /** `s.split(sep)`: the pieces between separators, at least one, possibly empty. */
  function Split(s: string, sep: char): (r: seq<string>)
    ensures |r| >= 1
    ensures forall i :: 0 <= i < |r| ==> sep !in r[i]
    decreases |s|
  {
    if s == [] then [[]]
    else
      var rest := Split(s[1..], sep);
      if s[0] == sep then [[]] + rest
      else [[s[0]] + rest[0]] + rest[1..]
  }

  /** `sep.join(parts)`. */
  function Join(parts: seq<string>, sep: char): string {
    if |parts| == 0 then []
    else if |parts| == 1 then parts[0]
    else parts[0] + [sep] + Join(parts[1..], sep)
  }

  /** Joining the pieces of a split with the same separator gives the text back. */
  lemma {:induction false} JoinSplit(s: string, sep: char)
    ensures Join(Split(s, sep), sep) == s
    decreases |s|
  {
    if s != [] {
      var rest := Split(s[1..], sep);
      JoinSplit(s[1..], sep);
      if s[0] == sep {
        assert ([[]] + rest)[1..] == rest;
      } else if |rest| > 1 {
        assert ([[s[0]] + rest[0]] + rest[1..])[1..] == rest[1..];
      }
    }
  }

  lemma SeparatorAt(a: string, b: string, sep: char)
    requires sep !in a
    ensures (a + [sep] + b)[|a|] == sep
    ensures forall i :: 0 <= i < |a| ==> (a + [sep] + b)[i] != sep
  {
  }

  /** A text cut at a separator the front does not contain is cut at its first one. */
  lemma FirstSeparator(a: string, b: string, a': string, b': string, sep: char)
    requires sep !in a && sep !in a'
    requires a + [sep] + b == a' + [sep] + b'
    ensures a == a' && b == b'
  {
    var s := a + [sep] + b;
    SeparatorAt(a, b, sep);
    SeparatorAt(a', b', sep);
    assert |a| == |a'|;
    assert a == s[..|a|] == a';
    assert b == s[|a| + 1..] == b';
  }

  /**
    `split_s3_path`: the bucket is the stripped path up to its first "/",
    the key everything after it, or "" when there is no "/".
  */
  function SplitS3Path(path: string): (r: (string, string))
    ensures '/' !in r.0
    ensures '/' in StripScheme(path) ==> r.0 + "/" + r.1 == StripScheme(path)
    ensures '/' !in StripScheme(path) ==> r.0 == StripScheme(path) && r.1 == ""
  {
    var parts := Split(StripScheme(path), '/');
    JoinSplit(StripScheme(path), '/');
    (parts[0], Join(parts[1..], '/'))
  }

  /** A well-formed location splits back into the bucket and key it was written from. */
  lemma S3PathRoundTrip(bucket: string, key: string)
    requires '/' !in bucket && !Contains(bucket + "/" + key, Scheme)
    ensures SplitS3Path(Scheme + bucket + "/" + key) == (bucket, key)
  {
    var path := Scheme + bucket + "/" + key;
    assert path == Scheme + (bucket + "/" + key);
    StripSchemePrefix(bucket + "/" + key);
    assert (bucket + "/" + key)[|bucket|] == '/';
    var r := SplitS3Path(path);
    FirstSeparator(r.0, r.1, bucket, key, '/');
  }

  /** `json_data = body.replace("\n", " ")`. */
  function FlattenLines(body: string): (r: string)
    ensures |r| == |body| && '\n' !in r
    ensures forall i :: 0 <= i < |body| ==> r[i] == if body[i] == '\n' then ' ' else body[i]
    decreases |body|
  {
    if body == [] then []
    else [if body[0] == '\n' then ' ' else body[0]] + FlattenLines(body[1..])
  }

  /** `str(n)` for a natural number: its decimal digits, most significant first. */
  function Digits(n: nat): (r: string)
    ensures |r| >= 1 && forall i :: 0 <= i < |r| ==> '0' <= r[i] <= '9'
    decreases n
  {
    if n < 10 then [('0' as int + n) as char]
    else Digits(n / 10) + [('0' as int + n % 10) as char]
  }

  /** The number a string of decimal digits reads as. */
  function DigitsValue(s: string): nat
    requires forall i :: 0 <= i < |s| ==> '0' <= s[i] <= '9'
  {
    if s == [] then 0 else 10 * DigitsValue(s[..|s| - 1]) + (s[|s| - 1] as int - '0' as int)
  }

  /** Reading the digits of `n` gives `n` back. */
  lemma {:induction false} DigitsRoundTrip(n: nat)
    ensures DigitsValue(Digits(n)) == n
    decreases n
  {
    if n >= 10 {
      DigitsRoundTrip(n / 10);
      var d := Digits(n);
      assert d[..|d| - 1] == Digits(n / 10);
    }
  }

  /** A number of four decimal digits prints as four characters. */
  lemma FourDigits(n: nat)
    requires 1000 <= n <= 9999
    ensures |Digits(n)| == 4
  {
    assert |Digits(n / 1000)| == 1;
    assert Digits(n / 100) == Digits(n / 1000) + [('0' as int + (n / 100) % 10) as char];
    assert Digits(n / 10) == Digits(n / 100) + [('0' as int + (n / 10) % 10) as char];
  }

  // ---------------------------------------------------------------------------
  // Events, answers and effects
  // ---------------------------------------------------------------------------

  /** Why the handler raised instead of returning. */
  datatype Fault =
    | KeyMissing(key: string)           // KeyError on a dict lookup
    | NotSubscriptable(typeName: string) // TypeError: a non-dict value indexed by a key
    | NotJson                            // `json.loads` raised
    | LoggerFailed(message: string)      // LambdaFailure with the handled message
    | Unbound(name: string)              // UnboundLocalError

  /** A value, or the fault that stops the handler where it is computed. */
  datatype Got<+T> = Got(value: T) | Fails(fault: Fault) {
    predicate IsFailure() {
      Fails?
    }

    function PropagateFailure<U>(): Got<U>
      requires Fails?
    {
      Fails(fault)
    }

    function Extract(): T
      requires Got?
    {
      value
    }
  }

  /** `value[key]` on a decoded value. */
  function Get(j: Json, key: string): (r: Got<Json>)
    ensures r.Got? <==> j.Object? && key in j.fields
    ensures r.Got? ==> r.value == j.fields[key]
    ensures j.Object? && key !in j.fields ==> r == Fails(KeyMissing(key))
    ensures !j.Object? ==> r == Fails(NotSubscriptable(TypeName(j)))
  {
    match j
    case Object(fields) => if key in fields then Got(fields[key]) else Fails(KeyMissing(key))
    case _ => Fails(NotSubscriptable(TypeName(j)))
  }

  /** `json.loads(value)` on a decoded value. */
  function Decode(codec: Codec, j: Json): (r: Got<Json>)
    ensures r.Got? <==> LoadsValue(codec, j).Some?
    ensures r.Got? ==> LoadsValue(codec, j) == Some(r.value)
  {
    match LoadsValue(codec, j)
    case Some(v) => Got(v)
    case None => Fails(NotJson)
  }

  /** What the handler keeps of the message once it has read it. */
  datatype Event = Event(
    payload: map<string, Json>,   // event["Payload"]
    pipelineText: Json,           // event["Payload"]["pipeline"] as received: JSON text
    pipeline: map<string, Json>,  // that text decoded
    runId: Json,
    survey: Json,
    snapshot: Json)

  /** steprunner.py:32-39: every read of the message before the logger is set up. */
  function ParseEvent(codec: Codec, body: string): (r: Got<Event>)
    ensures r.Got? ==>
      codec.loads(FlattenLines(body)).Some? && codec.loads(FlattenLines(body)).value.Object?
      && "Payload" in codec.loads(FlattenLines(body)).value.fields
      && codec.loads(FlattenLines(body)).value.fields["Payload"] == Object(r.value.payload)
    ensures r.Got? ==>
      "pipeline" in r.value.payload && r.value.payload["pipeline"] == r.value.pipelineText
      && LoadsValue(codec, r.value.pipelineText) == Some(Object(r.value.pipeline))
      && "environment" in r.value.pipeline && "bpm_queue_url" in r.value.pipeline
    ensures r.Got? ==>
      "run_id" in r.value.payload && r.value.payload["run_id"] == r.value.runId
      && "survey" in r.value.payload && r.value.payload["survey"] == r.value.survey
      && "snapshot_location" in r.value.payload && r.value.payload["snapshot_location"] == r.value.snapshot
    ensures codec.loads(FlattenLines(body)).None? ==> r == Fails(NotJson)
    ensures (codec.loads(FlattenLines(body)).Some? && Field(codec.loads(FlattenLines(body)).value, "Payload").Some?
             && var payload := Field(codec.loads(FlattenLines(body)).value, "Payload").value;
                payload.Object? && "run_id" in payload.fields && "survey" in payload.fields
                && "snapshot_location" in payload.fields && "pipeline" in payload.fields
                && var pipeline := LoadsValue(codec, payload.fields["pipeline"]);
                   pipeline.Some? && pipeline.value.Object?
                   && "environment" in pipeline.value.fields && "bpm_queue_url" in pipeline.value.fields)
      ==> r.Got?
  {
    var event :- (match codec.loads(FlattenLines(body)) case Some(e) => Got(e) case None => Fails(NotJson));
    var payload :- Get(event, "Payload");
    var text :- Get(payload, "pipeline");
    var pipeline :- Decode(codec, text);
    var environment :- Get(pipeline, "environment");
    var runId :- Get(payload, "run_id");
    var survey :- Get(payload, "survey");
    var queue :- Get(pipeline, "bpm_queue_url");
    var snapshot :- Get(payload, "snapshot_location");
    Got(Event(payload.fields, text, pipeline.fields, runId, survey, snapshot))
  }

  /** The environment the handler reads: the state machine and the two Glue job names. */
  datatype Env = Env(stateMachineArn: string, emrJob: string, pyshellJob: string)

  /** How `s3_object.get()` ended. */
  datatype S3Reply = Fetched | ClientError(text: string) | OtherError

  /**
    The answers the handler meets, in order: the logger set-up, the S3 read,
    the metadata put, the execution start, and the random suffix.
  */
  datatype Answers = Answers(logger: Reply<()>, s3: S3Reply, put: Reply<()>, start: Reply<string>, n: nat)

  /** A request the handler sends to S3, DynamoDB or Step Functions. */
  datatype Request =
    | GetObject(bucket: string, key: string)
    | PutRun(item: map<string, Json>)
    | StartExecution(stateMachineArn: string, name: string, input: string)

  /** The pipeline-runs table, by `run_id`. */
  type Runs = map<Json, map<string, Json>>

  /** How the handler ends: it returns a value (a string is a `Str`), or raises. */
  datatype Result = Return(value: Json) | Raise(fault: Fault)

  datatype Effect = Effect(runs: Runs, requests: seq<Request>, result: Result)

  function Then(requests: seq<Request>, e: Effect): Effect {
    Effect(e.runs, requests + e.requests, e.result)
  }

  const AccessDeniedMessage := "There was access denied on the file"
  const NoSuchKeyMessage := "The file doesnt exist in the location"
  const RetrievalMessage := "There was an error retrieving the file"

  /** The message for a `ClientError` with text `text`; `None` leaves `message` unbound. */
  function ClientErrorMessage(text: string): (r: Option<string>)
    ensures Contains(text, "AccessDenied") ==> r == Some(AccessDeniedMessage)
    ensures !Contains(text, "AccessDenied") && Contains(text, "NoSuchKey") ==> r == Some(NoSuchKeyMessage)
    ensures r.None? <==> !Contains(text, "AccessDenied") && !Contains(text, "NoSuchKey")
  {
    if Contains(text, "AccessDenied") then Some(AccessDeniedMessage)
    else if Contains(text, "NoSuchKey") then Some(NoSuchKeyMessage)
    else None
  }

  /** `json.dumps({"statusCode": 400, "body": message})`. */
  function Reject(codec: Codec, message: string): Result {
    Return(Str(codec.dumps(Object(map["statusCode" := Number(400), "body" := Str(message)]))))
  }

  /** One of the three refusals of a snapshot that cannot be read. */
  predicate Refusal(codec: Codec, r: Result) {
    r == Reject(codec, AccessDeniedMessage) || r == Reject(codec, NoSuchKeyMessage) || r == Reject(codec, RetrievalMessage)
  }

  /** `{"statusCode": 200, "body": executionArn}`. */
  function Accepted(executionArn: string): Json {
    Object(map["statusCode" := Number(200), "body" := Str(executionArn)])
  }

  /** The Glue job the run goes to: the Spark one for a truthy flag, the Python shell one otherwise. */
  function JobName(env: Env, spark: Json): (r: string)
    ensures Truthy(spark) ==> r == env.emrJob
    ensures !Truthy(spark) ==> r == env.pyshellJob
  {
    if Truthy(spark) then env.emrJob else env.pyshellJob
  }

  /** The first field of the metadata record the payload lacks, in the order the record reads them. */
  function MissingField(payload: map<string, Json>): (r: Option<string>)
    ensures r.None? <==> "template_id" in payload && "template_version" in payload && "client_id" in payload
    ensures r.Some? ==> r.value in ["template_id", "template_version", "client_id"] && r.value !in payload
  {
    if "template_id" !in payload then Some("template_id")
    else if "template_version" !in payload then Some("template_version")
    else if "client_id" !in payload then Some("client_id")
    else None
  }

  /** The record written to the pipeline-runs table. */
  function Metadata(ev: Event): (r: map<string, Json>)
    requires MissingField(ev.payload).None?
    ensures r.Keys == {"run_id", "category", "template_id", "template_version", "client_id", "run_status", "runtime_config"}
    ensures r["run_status"] == Str("SUBMITTED") && r["run_id"] == ev.runId && r["category"] == ev.survey
    ensures r["runtime_config"] == ev.pipelineText
    ensures forall k :: k in ["template_id", "template_version", "client_id"] ==> r[k] == ev.payload[k]
  {
    map[
      "run_id" := ev.runId,
      "category" := ev.survey,
      "template_id" := ev.payload["template_id"],
      "template_version" := ev.payload["template_version"],
      "client_id" := ev.payload["client_id"],
      "run_status" := Str("SUBMITTED"),
      "runtime_config" := ev.pipelineText]
  }

  /** `str(KeyError(key))`. */
  function KeyErrorText(key: string): string {
    "'" + key + "'"
  }

  /** `str(TypeError)` of `"..." + value` for a value that is not a string. */
  function ConcatErrorText(value: Json): string {
    "can only concatenate str (not \"" + TypeName(value) + "\") to str"
  }

  const ExecutionPrefix := "Lambda-Execution-"

  /** The execution name: the prefix, the run id and the random number. */
  function ExecutionName(runId: string, n: nat): string {
    ExecutionPrefix + runId + Digits(n)
  }

  /** The name can be read back: prefix, then the run id, then the four digits of `n`. */
  lemma ExecutionNameParts(runId: string, n: nat)
    requires 1111 <= n <= 9999
    ensures var name := ExecutionName(runId, n);
      |name| == |ExecutionPrefix| + |runId| + 4
      && name[..|ExecutionPrefix|] == ExecutionPrefix
      && name[|ExecutionPrefix|..|ExecutionPrefix| + |runId|] == runId
      && name[|name| - 4..] == Digits(n) && DigitsValue(name[|name| - 4..]) == n
  {
    FourDigits(n);
    DigitsRoundTrip(n);
    var name := ExecutionName(runId, n);
    assert name[|name| - 4..] == Digits(n);
  }

  /** The payload after steprunner.py:121-122: its pipeline is the decoded one, carrying the run id. */
  function Annotated(ev: Event): map<string, Json> {
    ev.payload["pipeline" := Object(ev.pipeline["run_id" := ev.runId])]
  }

  /** The arguments the glue runner reads from the execution input. */
  function TaskArguments(codec: Codec, jobName: string, payload: map<string, Json>): map<string, Json> {
    map["GlueJobName" := Str(jobName), "--config" := Str(codec.dumps(Object(payload)))]
  }

  /** The execution input: the JSON text of the JSON text of the arguments. */
  function ExecutionInput(codec: Codec, jobName: string, payload: map<string, Json>): string {
    codec.dumps(Str(codec.dumps(Object(TaskArguments(codec, jobName, payload)))))
  }

  /**
    The execution input is what the glue runner's drain loop accepts in its
    second shape: a JSON string holding the arguments, whose "GlueJobName"
    names the job and whose "--config" is the payload's JSON text.
  */
  lemma ExecutionInputDecodes(codec: Codec, jobName: string, payload: map<string, Json>)
    requires RoundTrips(codec)
    requires "pipeline" in payload && payload["pipeline"].Object? && "run_id" in payload["pipeline"].fields
    requires "survey" in payload
    ensures GlueRunner.ParseTaskInput(codec, Some(ExecutionInput(codec, jobName, payload)))
      == Some(GlueRunner.TaskConfig(Str(jobName), TaskArguments(codec, jobName, payload), codec.dumps(Object(payload))))
  {
    var args := TaskArguments(codec, jobName, payload);
    var inner := codec.dumps(Object(args));
    assert codec.loads(codec.dumps(Str(inner))) == Some(Str(inner));
    assert codec.loads(inner) == Some(Object(args));
    assert codec.loads(codec.dumps(Object(payload))) == Some(Object(payload));
    assert GlueRunner.ConfigReadable(codec, codec.dumps(Object(payload)));
    assert GlueRunner.Shape(codec, Str(inner)) == Some((Str(jobName), args));
  }

  // ---------------------------------------------------------------------------
  // The handler, stage by stage
  // ---------------------------------------------------------------------------

  /** steprunner.py:55-75: read the snapshot; `None` to go on, or the result the handler ends with. */
  function Fetch(codec: Codec, ev: Event, s3: S3Reply): (r: (seq<Request>, Option<Result>))
    ensures |r.0| <= 1 && forall i :: 0 <= i < |r.0| ==> r.0[i].GetObject?
    ensures r.1.None? <==> ev.snapshot.Str? && s3.Fetched?
    ensures r.1.Some? ==> Refusal(codec, r.1.value) || r.1.value == Raise(Unbound("message"))
    ensures r.1 == Some(Raise(Unbound("message"))) <==>
      ev.snapshot.Str? && s3.ClientError? && ClientErrorMessage(s3.text).None?
    ensures ev.snapshot.Str? ==> r.0 == [GetObject(SplitS3Path(ev.snapshot.s).0, SplitS3Path(ev.snapshot.s).1)]
    ensures ev.snapshot.Str? && s3.ClientError? && ClientErrorMessage(s3.text).Some? ==>
      r.1 == Some(Reject(codec, ClientErrorMessage(s3.text).value))
    ensures ev.snapshot.Str? && s3.OtherError? ==> r.1 == Some(Reject(codec, RetrievalMessage))
    ensures !ev.snapshot.Str? ==> r == ([], Some(Reject(codec, RetrievalMessage)))
  {
    match ev.snapshot
    case Str(path) =>
      var get := [GetObject(SplitS3Path(path).0, SplitS3Path(path).1)];
      (match s3
       case Fetched => (get, None)
       case ClientError(text) =>
         (match ClientErrorMessage(text)
          case Some(message) => (get, Some(Reject(codec, message)))
          case None => (get, Some(Raise(Unbound("message")))))
       case OtherError => (get, Some(Reject(codec, RetrievalMessage))))
    case _ => ([], Some(Reject(codec, RetrievalMessage)))
  }

  /** steprunner.py:117-155: name the execution, build its input and start it. */
  function Launch(env: Env, codec: Codec, ev: Event, jobName: string, ans: Answers): (r: (seq<Request>, Result))
    ensures |r.0| <= 1
    ensures r.0 != [] <==> ev.runId.Str?
    ensures ev.runId.Str? ==>
      r.0[0] == StartExecution(env.stateMachineArn, ExecutionName(ev.runId.s, ans.n), ExecutionInput(codec, jobName, Annotated(ev)))
    ensures r.1.Return? && r.1.value.Object? <==> ev.runId.Str? && ans.start.Ok?
    ensures ev.runId.Str? && ans.start.Ok? ==> r.1 == Return(Accepted(ans.start.value))
    ensures ev.runId.Str? && ans.start.Raised? ==> r.1 == Return(Str(ans.start.message))
    ensures !ev.runId.Str? ==> r == ([], Return(Str(ConcatErrorText(ev.runId))))
  {
    match ev.runId
    case Str(id) =>
      var start := StartExecution(env.stateMachineArn, ExecutionName(id, ans.n), ExecutionInput(codec, jobName, Annotated(ev)));
      (match ans.start
       case Ok(arn) => ([start], Return(Accepted(arn)))
       case Raised(message) => ([start], Return(Str(message))))
    case _ => ([], Return(Str(ConcatErrorText(ev.runId))))
  }

  /** steprunner.py:77-155, once the snapshot is read: choose the job, record the run, start the execution. */
  function Submit(env: Env, codec: Codec, runs: Runs, ev: Event, ans: Answers): (r: Effect)
    ensures "spark" !in ev.pipeline ==> r == Effect(runs, [], Raise(KeyMissing("spark")))
    ensures "spark" in ev.pipeline && MissingField(ev.payload).Some? ==>
      r == Effect(runs, [], Return(Str(KeyErrorText(MissingField(ev.payload).value))))
    ensures "spark" in ev.pipeline && MissingField(ev.payload).None? && ans.put.Raised? ==>
      r == Effect(runs, [PutRun(Metadata(ev))], Return(Str(ans.put.message)))
    ensures "spark" in ev.pipeline && MissingField(ev.payload).None? && ans.put.Ok? ==>
      r.runs == runs[ev.runId := Metadata(ev)] && |r.requests| >= 1 && r.requests[0] == PutRun(Metadata(ev))
    ensures r.result.Return? && r.result.value.Object? ==> r.runs == runs[ev.runId := Metadata(ev)]
  {
    match Get(Object(ev.pipeline), "spark")
    case Fails(fault) => Effect(runs, [], Raise(fault))
    case Got(spark) =>
      match MissingField(ev.payload)
      case Some(key) => Effect(runs, [], Return(Str(KeyErrorText(key))))
      case None =>
        var put := [PutRun(Metadata(ev))];
        match ans.put
        case Raised(message) => Effect(runs, put, Return(Str(message)))
        case Ok(_) =>
          var launch := Launch(env, codec, ev, JobName(env, spark), ans);
          Effect(runs[ev.runId := Metadata(ev)], put + launch.0, launch.1)
  }

  /** The whole handler for one message body. */
  function Handle(env: Env, codec: Codec, runs: Runs, body: string, ans: Answers): (r: Effect)
  {
    match ParseEvent(codec, body)
    case Fails(fault) => Effect(runs, [], Raise(fault))
    case Got(ev) => Serve(env, codec, runs, ev, ans)
  }

  /** steprunner.py:42-155, once the message is read: the logger, the snapshot check, then the submission. */
  function Serve(env: Env, codec: Codec, runs: Runs, ev: Event, ans: Answers): Effect {
    if ans.logger.Raised? then Effect(runs, [], Raise(LoggerFailed(ans.logger.message)))
    else
      var fetch := Fetch(codec, ev, ans.s3);
      match fetch.1
      case Some(result) => Effect(runs, fetch.0, result)
      case None => Then(fetch.0, Submit(env, codec, runs, ev, ans))
  }

  // ---------------------------------------------------------------------------
  // Properties of the handler
  // ---------------------------------------------------------------------------

  /** Everything the handler needs to go right for the execution to start. */
  predicate Clean(codec: Codec, body: string, ans: Answers) {
    && ParseEvent(codec, body).Got?
    && ans.logger.Ok?
    && ParseEvent(codec, body).value.snapshot.Str?
    && ans.s3.Fetched?
    && "spark" in ParseEvent(codec, body).value.pipeline
    && MissingField(ParseEvent(codec, body).value.payload).None?
    && ans.put.Ok?
    && ParseEvent(codec, body).value.runId.Str?
    && ans.start.Ok?
  }

  /**
    The handler answers `{statusCode: 200, body: executionArn}` exactly when
    nothing went wrong; then it read the snapshot, wrote the SUBMITTED record
    under the run id, and started one execution named after the run.
  */
  lemma HandleAccepts(env: Env, codec: Codec, runs: Runs, body: string, ans: Answers)
    ensures var r := Handle(env, codec, runs, body, ans);
      r.result.Return? && r.result.value.Object? <==> Clean(codec, body, ans)
    ensures Clean(codec, body, ans) ==>
      var ev := ParseEvent(codec, body).value;
      var r := Handle(env, codec, runs, body, ans);
      && r.result == Return(Accepted(ans.start.value))
      && r.runs == runs[ev.runId := Metadata(ev)]
      && |r.requests| == 3
      && r.requests[0] == GetObject(SplitS3Path(ev.snapshot.s).0, SplitS3Path(ev.snapshot.s).1)
      && r.requests[1] == PutRun(Metadata(ev))
      && r.requests[2] == StartExecution(
        env.stateMachineArn,
        ExecutionName(ev.runId.s, ans.n),
        ExecutionInput(codec, JobName(env, ev.pipeline["spark"]), Annotated(ev)))
  {
    if ParseEvent(codec, body).Got? && ans.logger.Ok? {
      var ev := ParseEvent(codec, body).value;
      var fetch := Fetch(codec, ev, ans.s3);
      if fetch.1.Some? {
        assert !fetch.1.value.Return? || fetch.1.value.value.Str?;
      }
    }
  }

  /**
    A snapshot that cannot be read ends the handler with one of the three
    400 answers (or the unbound `message`): no record is written and no
    execution starts.
  */
  lemma UnreadableSnapshotStartsNothing(env: Env, codec: Codec, runs: Runs, body: string, ans: Answers)
    requires ParseEvent(codec, body).Got? && ans.logger.Ok?
    requires !ParseEvent(codec, body).value.snapshot.Str? || !ans.s3.Fetched?
    ensures var r := Handle(env, codec, runs, body, ans);
      r.runs == runs
      && (Refusal(codec, r.result) || r.result == Raise(Unbound("message")))
      && forall i :: 0 <= i < |r.requests| ==> r.requests[i].GetObject?
    ensures var ev := ParseEvent(codec, body).value; var r := Handle(env, codec, runs, body, ans);
      ev.snapshot.Str? && ans.s3.ClientError? && ClientErrorMessage(ans.s3.text).Some? ==>
        r.result == Reject(codec, ClientErrorMessage(ans.s3.text).value)
    ensures var ev := ParseEvent(codec, body).value; var r := Handle(env, codec, runs, body, ans);
      ev.snapshot.Str? && ans.s3.OtherError? ==> r.result == Reject(codec, RetrievalMessage)
    ensures var ev := ParseEvent(codec, body).value; var r := Handle(env, codec, runs, body, ans);
      !ev.snapshot.Str? ==> r.requests == [] && r.result == Reject(codec, RetrievalMessage)
  {
  }

  /**
    A failed metadata write ends the handler with the exception's text: the
    run is not recorded and no execution starts.
  */
  lemma FailedPutStartsNothing(env: Env, codec: Codec, runs: Runs, body: string, ans: Answers)
    requires ParseEvent(codec, body).Got? && ans.logger.Ok?
    requires ParseEvent(codec, body).value.snapshot.Str? && ans.s3.Fetched?
    requires "spark" in ParseEvent(codec, body).value.pipeline
    requires MissingField(ParseEvent(codec, body).value.payload).None?
    requires ans.put.Raised?
    ensures var r := Handle(env, codec, runs, body, ans);
      r.runs == runs && r.result == Return(Str(ans.put.message))
      && forall i :: 0 <= i < |r.requests| ==> !r.requests[i].StartExecution?
  {
  }

  /**
    Every execution the handler starts carries an input the glue runner
    decodes into the chosen job and a config whose pipeline carries the run id.
  */
  lemma StartedRunReachesGlueRunner(env: Env, codec: Codec, runs: Runs, body: string, ans: Answers)
    requires RoundTrips(codec) && Clean(codec, body, ans)
    ensures var ev := ParseEvent(codec, body).value;
      var start := Handle(env, codec, runs, body, ans).requests[2];
      var task := GlueRunner.ParseTaskInput(codec, Some(start.input));
      task.Some? && task.value.jobName == Str(JobName(env, ev.pipeline["spark"]))
      && codec.loads(task.value.config) == Some(Object(Annotated(ev)))
      && Annotated(ev)["pipeline"].fields["run_id"] == ev.runId
  {
    var ev := ParseEvent(codec, body).value;
    HandleAccepts(env, codec, runs, body, ans);
    ExecutionInputDecodes(codec, JobName(env, ev.pipeline["spark"]), Annotated(ev));
    assert codec.loads(codec.dumps(Object(Annotated(ev)))) == Some(Object(Annotated(ev)));
  }

  // ---------------------------------------------------------------------------
  // The handler as it runs
  // ---------------------------------------------------------------------------

  /** The state the step runner changes: the pipeline-runs table and the requests sent. */
  class Backend {
    var runs: Runs
    var requests: seq<Request>

    constructor (initial: Runs)
      ensures runs == initial && requests == []
    {
      runs := initial;
      requests := [];
    }

    method Send(r: Request)
      modifies this
      ensures requests == old(requests) + [r] && runs == old(runs)
    {
      requests := requests + [r];
    }

    /** `put_item`: the record is stored under its run id when the put succeeds. */
    method Put(runId: Json, item: map<string, Json>, reply: Reply<()>) returns (ok: bool)
      modifies this
      ensures ok == reply.Ok?
      ensures requests == old(requests) + [PutRun(item)]
      ensures runs == if ok then old(runs)[runId := item] else old(runs)
    {
      requests := requests + [PutRun(item)];
      ok := reply.Ok?;
      if ok {
        runs := runs[runId := item];
      }
    }
  }

  /** steprunner.py:55-75: split the location, read the snapshot, and choose the refusal when it cannot be read. */
  method CheckSnapshot(codec: Codec, backend: Backend, ev: Event, s3: S3Reply) returns (stop: Option<Result>)
    modifies backend
    ensures backend.runs == old(backend.runs)
    ensures backend.requests == old(backend.requests) + Fetch(codec, ev, s3).0 && stop == Fetch(codec, ev, s3).1
  {
    if !ev.snapshot.Str? {
      return Some(Reject(codec, RetrievalMessage));
    }
    var (bucket, key) := SplitS3Path(ev.snapshot.s);
    backend.Send(GetObject(bucket, key));
    match s3 {
      case Fetched =>
        stop := None;
      case OtherError =>
        stop := Some(Reject(codec, RetrievalMessage));
      case ClientError(text) =>
        var message := ClientErrorMessage(text);
        if message.None? {
          return Some(Raise(Unbound("message")));
        }
        stop := Some(Reject(codec, message.value));
    }
  }

  /** steprunner.py:77-155: choose the job, record the run, insert the run id into the pipeline, start the execution. */
  method Record(env: Env, codec: Codec, backend: Backend, ev: Event, ans: Answers) returns (result: Result)
    modifies backend
    ensures var r := Submit(env, codec, old(backend.runs), ev, ans);
      backend.runs == r.runs && backend.requests == old(backend.requests) + r.requests && result == r.result
  {
    if "spark" !in ev.pipeline {
      return Raise(KeyMissing("spark"));
    }
    var jobName := JobName(env, ev.pipeline["spark"]);

    var missing := MissingField(ev.payload);
    if missing.Some? {
      return Return(Str(KeyErrorText(missing.value)));
    }
    var stored := backend.Put(ev.runId, Metadata(ev), ans.put);
    if !stored {
      return Return(Str(ans.put.message));
    }

    var payload := ev.payload;
    var pipeline := ev.pipeline;
    pipeline := pipeline["run_id" := ev.runId];
    payload := payload["pipeline" := Object(pipeline)];
    if !ev.runId.Str? {
      return Return(Str(ConcatErrorText(ev.runId)));
    }
    var name := ExecutionName(ev.runId.s, ans.n);
    backend.Send(StartExecution(env.stateMachineArn, name, ExecutionInput(codec, jobName, payload)));
    match ans.start {
      case Ok(arn) => result := Return(Accepted(arn));
      case Raised(message) => result := Return(Str(message));
    }
  }

  /** `handler`: the reads of the message, then the rest of the handler. */
  method Handler(env: Env, codec: Codec, backend: Backend, body: string, ans: Answers) returns (result: Result)
    modifies backend
    ensures var r := Handle(env, codec, old(backend.runs), body, ans);
      backend.runs == r.runs && backend.requests == old(backend.requests) + r.requests && result == r.result
  {
    var parsed := ParseEvent(codec, body);
    if parsed.Fails? {
      return Raise(parsed.fault);
    }
    result := Proceed(env, codec, backend, parsed.value, ans);
  }

  /** The logger set-up, the snapshot check, then the submission. */
  method Proceed(env: Env, codec: Codec, backend: Backend, ev: Event, ans: Answers) returns (result: Result)
    modifies backend
    ensures var r := Serve(env, codec, old(backend.runs), ev, ans);
      backend.runs == r.runs && backend.requests == old(backend.requests) + r.requests && result == r.result
  {
    if ans.logger.Raised? {
      return Raise(LoggerFailed(ans.logger.message));
    }
    var stop := CheckSnapshot(codec, backend, ev, ans.s3);
    if stop.Some? {
      return stop.value;
    }
    result := Record(env, codec, backend, ev, ans);
    Services.Associative(old(backend.requests), Fetch(codec, ev, ans.s3).0, Submit(env, codec, old(backend.runs), ev, ans).requests);
  }
}
