/**
  The glue runner Lambda (gluerunner/gluerunner.py). Its handler first drains
  the Step Functions activity, starting one Glue job per task and recording
  the pair (activity, job run) in the correlation table, then polls the jobs
  recorded for the activity, reports finished ones back to Step Functions
  and deletes their records.

  Every service answer is a parameter; the `Cloud` object applies it to the
  correlation table and logs the call that was made.
*/
module GlueRunner {
  import opened Wrappers
  import opened Json
  import opened Services
  import Base64

  /** The environment the Lambda reads when it is loaded. */
  datatype Settings = Settings(activityArn: string, workerName: string, queryLimit: int, capacity: int)

  /** What `get_activity_task` answers: the task token ("" when absent) and the raw input, if any. */
  datatype Task = Task(token: string, input: Option<string>)

  /** The service answers one turn of the drain loop meets, in the order it calls them. */
  datatype Turn = Turn(fetch: Reply<Task>, start: Reply<string>, put: Reply<()>, failure: Reply<()>)

  /** Once the given turns run out, the activity has no task left. */
  const Idle := Turn(Ok(Task("", None)), Raised(""), Raised(""), Raised(""))

  const StartFailure := "Failed to start Glue job. Check Glue Runner logs for more details."

  // ---------------------------------------------------------------------------
  // The drain loop (`start_glue_jobs`)
  // ---------------------------------------------------------------------------

  /** A decoded task: the job name, the job arguments, and the `--config` text among them. */
  datatype TaskConfig = TaskConfig(jobName: Json, arguments: map<string, Json>, config: string)

  /** The `--config` text is JSON naming a pipeline run id and a survey (read only for logging). */
  predicate ConfigReadable(codec: Codec, config: string) {
    match codec.loads(config)
    case Some(Object(vars)) =>
      "pipeline" in vars && vars["pipeline"].Object? && "run_id" in vars["pipeline"].fields && "survey" in vars
    case _ => false
  }

  /**
    The job name and arguments of a task input, in either of its two shapes:
    an object whose "input" is the JSON text of the arguments and whose "job"
    is the job name, or a JSON string holding the JSON text of the arguments,
    which name the job under "GlueJobName". `None` wherever Python raises.
  */
  function Shape(codec: Codec, outer: Json): (r: Option<(Json, map<string, Json>)>)
    ensures r.Some? && outer.Object? ==>
      "input" in outer.fields && "job" in outer.fields && r.value.0 == outer.fields["job"]
      && LoadsValue(codec, outer.fields["input"]) == Some(Object(r.value.1))
    ensures r.Some? && !outer.Object? ==>
      outer.Str? && codec.loads(outer.s) == Some(Object(r.value.1))
      && "GlueJobName" in r.value.1 && r.value.0 == r.value.1["GlueJobName"]
    ensures (outer.Object? && "input" in outer.fields && "job" in outer.fields
             && LoadsValue(codec, outer.fields["input"]).Some? && LoadsValue(codec, outer.fields["input"]).value.Object?)
      ==> r.Some?
    ensures (outer.Str? && codec.loads(outer.s).Some? && codec.loads(outer.s).value.Object?
             && "GlueJobName" in codec.loads(outer.s).value.fields)
      ==> r.Some?
  {
    match outer
    case Object(m) =>
      if "input" in m && "job" in m then
        (match LoadsValue(codec, m["input"])
         case Some(Object(args)) => Some((m["job"], args))
         case _ => None)
      else None
    case Str(inner) =>
      (match codec.loads(inner)
       case Some(Object(args)) => if "GlueJobName" in args then Some((args["GlueJobName"], args)) else None
       case _ => None)
    case _ => None
  }

  /** The parse at the top of each turn: `None` when any step of it raises. */
  function ParseTaskInput(codec: Codec, input: Option<string>): (r: Option<TaskConfig>)
    ensures r.Some? ==> input.Some? && codec.loads(input.value).Some?
    ensures r.Some? ==> Shape(codec, codec.loads(input.value).value) == Some((r.value.jobName, r.value.arguments))
    ensures r.Some? ==> "--config" in r.value.arguments && r.value.arguments["--config"] == Str(r.value.config)
    ensures r.Some? ==> ConfigReadable(codec, r.value.config)
    ensures (input.Some? && codec.loads(input.value).Some? && Shape(codec, codec.loads(input.value).value).Some?
      && var args := Shape(codec, codec.loads(input.value).value).value.1;
         "--config" in args && args["--config"].Str? && ConfigReadable(codec, args["--config"].s)) ==> r.Some?
  {
    if input.None? then None
    else match codec.loads(input.value)
      case None => None
      case Some(outer) =>
        match Shape(codec, outer)
        case None => None
        case Some((name, args)) =>
          if "--config" in args && args["--config"].Str? && ConfigReadable(codec, args["--config"].s) then
            Some(TaskConfig(name, args, args["--config"].s))
          else None
  }

  /** What a turn leads to: another turn, a plain return, or an exception out of the loop. */
  datatype Next = Continue | Stop | Abort(message: string)

  datatype StepResult = StepResult(table: Table, calls: seq<Call>, next: Next)

  /** A turn in which a task arrives and is decoded, so a job start is attempted or failed. */
  predicate Attempted(codec: Codec, turn: Turn) {
    turn.fetch.Ok? && turn.fetch.value.token != "" && ParseTaskInput(codec, turn.fetch.value.input).Some?
  }

  /** An attempted turn whose `--config` text is ASCII, so the job start is called. */
  predicate Encodes(codec: Codec, turn: Turn) {
    Attempted(codec, turn) && Base64.EncodeConfig(ParseTaskInput(codec, turn.fetch.value.input).value.config).Some?
  }

  /** An attempted turn in which the ASCII encoding, the start and the put all succeed. */
  predicate Clean(codec: Codec, turn: Turn) {
    Encodes(codec, turn) && turn.start.Ok? && turn.put.Ok?
  }


  /** The arguments the job starts with: the task's, with `--config` replaced by its encoding. */
  predicate StartedWith(tc: TaskConfig, args: map<string, Json>) {
    args.Keys == tc.arguments.Keys && "--config" in args
    && args["--config"].Str? && Base64.DecodeConfig(args["--config"].s) == Some(tc.config)
    && forall k :: k in args && k != "--config" ==> args[k] == tc.arguments[k]
  }

  /** The `except` branch: the token is failed, and the loop returns, or raises if that call raises. */
  function FailTurn(table: Table, calls: seq<Call>, token: string, reply: Reply<()>): (r: StepResult)
    ensures Fetches(r.calls) == Fetches(calls) && Starts(r.calls) == Starts(calls)
    ensures r.table == table && |r.calls| == |calls| + 1 && r.calls[..|calls|] == calls
    ensures r.calls[|calls|] == SendTaskFailure(token, StartFailure, None)
    ensures r.next == (if reply.Ok? then Stop else Abort(reply.message))
  {
    CountsAppend(calls, [SendTaskFailure(token, StartFailure, None)]);
    StepResult(table, calls + [SendTaskFailure(token, StartFailure, None)], if reply.Ok? then Stop else Abort(reply.message))
  }

  /** The task's arguments with `--config` replaced by its encoding, which decodes back to it. */
  function JobArguments(tc: TaskConfig, encoded: string): (args: map<string, Json>)
    requires "--config" in tc.arguments && Base64.EncodeConfig(tc.config) == Some(encoded)
    ensures StartedWith(tc, args)
    ensures args == tc.arguments["--config" := Str(encoded)]
  {
    Base64.ConfigRoundTrip(tc.config);
    var replaced := tc.arguments["--config" := Str(encoded)];
    assert replaced.Keys == tc.arguments.Keys;
    replaced
  }

  /** A job start for an accepted task that the ASCII encoding, the start and the put let through. */
  predicate Launches(tc: TaskConfig, turn: Turn) {
    Base64.EncodeConfig(tc.config).Some? && turn.start.Ok? && turn.put.Ok?
  }

  /**
    The calls of the `try`/`except` block, in order: the job start when the
    config is ASCII, the put when the start answered a run id, and the task
    failure unless all three went through.
  */
  function LaunchCalls(s: Settings, tc: TaskConfig, token: string, turn: Turn): seq<Call>
    requires "--config" in tc.arguments
  {
    var failure := [SendTaskFailure(token, StartFailure, None)];
    match Base64.EncodeConfig(tc.config)
    case None => failure
    case Some(encoded) =>
      [StartJobRun(tc.jobName, tc.arguments["--config" := Str(encoded)], s.capacity)]
      + (if turn.start.Ok? then [PutItem(Item(Key(s.activityArn, turn.start.value), Record(tc.jobName, token)))] else [])
      + (if Launches(tc, turn) then [] else failure)
  }

  /** The `try` block after a task is decoded: encode `--config`, start the job, record it. */
  function Launch(s: Settings, table: Table, tc: TaskConfig, token: string, turn: Turn): (r: StepResult)
    requires "--config" in tc.arguments
    ensures Fetches(r.calls) == 0 && |r.calls| >= 1
    ensures Starts(r.calls) == if Base64.EncodeConfig(tc.config).Some? then 1 else 0
    ensures r.next.Continue? <==> Launches(tc, turn)
    ensures Launches(tc, turn) ==> r.table == table[Key(s.activityArn, turn.start.value) := Record(tc.jobName, token)]
    ensures !Launches(tc, turn) ==> r.table == table
    ensures Base64.EncodeConfig(tc.config).Some? ==>
      var c := r.calls[0];
      c.StartJobRun? && c.jobName == tc.jobName && c.maxCapacity == s.capacity && StartedWith(tc, c.arguments)
    ensures !Launches(tc, turn) ==>
      r.calls[|r.calls| - 1] == SendTaskFailure(token, StartFailure, None)
      && r.next == (if turn.failure.Ok? then Stop else Abort(turn.failure.message))
    ensures forall j :: 0 <= j < |r.calls| && r.calls[j].SendTaskFailure? ==> j == |r.calls| - 1 && !r.next.Continue?
  {
    match Base64.EncodeConfig(tc.config)
    case None => FailTurn(table, [], token, turn.failure)
    case Some(encoded) =>
      var args := JobArguments(tc, encoded);
      var started := [StartJobRun(tc.jobName, args, s.capacity)];
      CountsOne(started[0]);
      match turn.start
      case Raised(_) => FailTurn(table, started, token, turn.failure)
      case Ok(runId) =>
        var item := Item(Key(s.activityArn, runId), Record(tc.jobName, token));
        var put := started + [PutItem(item)];
        CountsAppend(started, [PutItem(item)]);
        if turn.put.Ok? then StepResult(AfterPut(table, item, turn.put), put, Continue)
        else FailTurn(table, put, token, turn.failure)
  }

  /** One turn of the `while True` loop. */
  function Step(s: Settings, codec: Codec, table: Table, turn: Turn): (r: StepResult)
    ensures |r.calls| >= 1 && r.calls[0] == GetActivityTask(s.activityArn, s.workerName)
    ensures Fetches(r.calls) == 1
    ensures Starts(r.calls) == if Encodes(codec, turn) then 1 else 0
    ensures !Attempted(codec, turn) ==> r == StepResult(table, [GetActivityTask(s.activityArn, s.workerName)], Stop)
    ensures r.next.Continue? <==> Clean(codec, turn)
    ensures Clean(codec, turn) ==>
      var task := turn.fetch.value;
      var tc := ParseTaskInput(codec, task.input).value;
      r.table == table[Key(s.activityArn, turn.start.value) := Record(tc.jobName, task.token)]
    ensures !Clean(codec, turn) ==> r.table == table
    ensures forall j :: 0 <= j < |r.calls| && r.calls[j].SendTaskFailure? ==> j == |r.calls| - 1 && !r.next.Continue?
  {
    var fetch := [GetActivityTask(s.activityArn, s.workerName)];
    CountsOne(fetch[0]);
    if !Attempted(codec, turn) then StepResult(table, fetch, Stop)
    else
      var task := turn.fetch.value;
      var l := Launch(s, table, ParseTaskInput(codec, task.input).value, task.token, turn);
      CountsAppend(fetch, l.calls);
      FailureAfterFetch(fetch[0], l.calls, l.next);
      StepResult(l.table, fetch + l.calls, l.next)
  }

  /** The calls the `try`/`except` block sends are exactly `LaunchCalls`. */
  lemma LaunchSends(s: Settings, table: Table, tc: TaskConfig, token: string, turn: Turn)
    requires "--config" in tc.arguments
    ensures Launch(s, table, tc, token, turn).calls == LaunchCalls(s, tc, token, turn)
  {
  }

  /**
    A turn with a decoded task sends the fetch, then exactly the calls of
    `Launch`; a clean turn sends the fetch, the job start and the put.
  */
  lemma StepSends(s: Settings, codec: Codec, table: Table, turn: Turn)
    requires Attempted(codec, turn)
    ensures Step(s, codec, table, turn).calls == [GetActivityTask(s.activityArn, s.workerName)]
      + LaunchCalls(s, ParseTaskInput(codec, turn.fetch.value.input).value, turn.fetch.value.token, turn)
    ensures Clean(codec, turn) ==>
      var task := turn.fetch.value;
      var tc := ParseTaskInput(codec, task.input).value;
      Step(s, codec, table, turn).calls == [
        GetActivityTask(s.activityArn, s.workerName),
        StartJobRun(tc.jobName, tc.arguments["--config" := Str(Base64.EncodeConfig(tc.config).value)], s.capacity),
        PutItem(Item(Key(s.activityArn, turn.start.value), Record(tc.jobName, task.token)))]
  {
    var task := turn.fetch.value;
    LaunchSends(s, table, ParseTaskInput(codec, task.input).value, task.token, turn);
  }

  /** A failure that is last among a turn's calls stays last once the fetch is put in front. */
  lemma FailureAfterFetch(c: Call, calls: seq<Call>, next: Next)
    requires !c.SendTaskFailure?
    requires forall j :: 0 <= j < |calls| && calls[j].SendTaskFailure? ==> j == |calls| - 1 && !next.Continue?
    ensures forall j :: 0 <= j < |[c] + calls| && ([c] + calls)[j].SendTaskFailure? ==> j == |[c] + calls| - 1 && !next.Continue?
  {
    forall j | 0 <= j < |[c] + calls| && ([c] + calls)[j].SendTaskFailure?
      ensures j == |[c] + calls| - 1 && !next.Continue?
    {
      assert j > 0 && ([c] + calls)[j] == calls[j - 1];
    }
  }

  function TurnAt(turns: seq<Turn>, i: nat): Turn {
    if i < |turns| then turns[i] else Idle
  }

  /** One turn of `start_glue_jobs`, as the value the loop below runs with. */
  function StepOf(s: Settings, codec: Codec): (Table, Turn) -> StepResult {
    (table, turn) => Step(s, codec, table, turn)
  }

  function ExitOf(next: Next): Exit {
    if next.Abort? then Threw(next.message) else Returned
  }

  /**
    The `while True` loop from turn `i` on, for a given turn function. A turn
    goes on only when a task arrived, and past the given turns none does, so
    `i < |turns|` holds whenever the loop goes round again.
  */
  function Loop(step: (Table, Turn) -> StepResult, table: Table, turns: seq<Turn>, i: nat): Outcome
    decreases |turns| - i
  {
    var st := step(table, TurnAt(turns, i));
    if st.next.Continue? && i < |turns| then Then(st.calls, Loop(step, st.table, turns, i + 1))
    else Outcome(st.table, st.calls, ExitOf(st.next))
  }

  /** The whole drain loop of `start_glue_jobs`. */
  function Drain(s: Settings, codec: Codec, table: Table, turns: seq<Turn>): Outcome {
    Loop(StepOf(s, codec), table, turns, 0)
  }

  /** One unfolding of `Loop`. */
  lemma LoopStep(step: (Table, Turn) -> StepResult, table: Table, turns: seq<Turn>, i: nat)
    ensures var st := step(table, TurnAt(turns, i));
      Loop(step, table, turns, i) ==
        if st.next.Continue? && i < |turns| then Then(st.calls, Loop(step, st.table, turns, i + 1))
        else Outcome(st.table, st.calls, ExitOf(st.next))
  {
  }

  /** A turn that starts one job and goes on. */
  predicate Launched(r: StepResult) {
    r.next.Continue? && Starts(r.calls) == 1 && Fetches(r.calls) == 1
  }

  /** A turn that finds no task and returns. */
  predicate Quiet(r: StepResult) {
    r.next == Stop && Starts(r.calls) == 0 && Fetches(r.calls) == 1
  }

  /** A task failure, if the calls hold one, is the last of them. */
  predicate EndsAtFailure(calls: seq<Call>) {
    forall j :: 0 <= j < |calls| && calls[j].SendTaskFailure? ==> j == |calls| - 1
  }

  /** A failure, if a turn sends one, is its last call, and the loop does not go on. */
  predicate FailureLast(r: StepResult) {
    forall j :: 0 <= j < |r.calls| && r.calls[j].SendTaskFailure? ==> j == |r.calls| - 1 && !r.next.Continue?
  }

  /** `after` keeps every record of `before`, changes none of another activity's, and adds only under `arn`. */
  predicate Grows(arn: string, before: Table, after: Table) {
    (forall k :: k in before ==> k in after)
    && (forall k :: k in before && k.activityArn != arn ==> after[k] == before[k])
    && (forall k :: k in after && k !in before ==> k.activityArn == arn)
  }

  lemma {:induction false} LoopCounts(step: (Table, Turn) -> StepResult, table: Table, turns: seq<Turn>, i: nat, k: nat)
    requires i <= k <= |turns|
    requires forall j, t :: i <= j < k ==> Launched(step(t, turns[j]))
    requires forall t :: Quiet(step(t, TurnAt(turns, k)))
    ensures var d := Loop(step, table, turns, i);
      d.exit == Returned && Starts(d.calls) == k - i && Fetches(d.calls) == k - i + 1
    decreases k - i
  {
    var st := step(table, TurnAt(turns, i));
    if i < k {
      assert Launched(st);
      var rest := Loop(step, st.table, turns, i + 1);
      LoopCounts(step, st.table, turns, i + 1, k);
      CountsAppend(st.calls, rest.calls);
    } else {
      assert Quiet(st);
    }
  }

  lemma {:induction false} LoopFailureLast(step: (Table, Turn) -> StepResult, table: Table, turns: seq<Turn>, i: nat)
    requires forall t, turn :: FailureLast(step(t, turn))
    ensures EndsAtFailure(Loop(step, table, turns, i).calls)
    decreases |turns| - i
  {
    var st := step(table, TurnAt(turns, i));
    assert FailureLast(st);
    if st.next.Continue? && i < |turns| {
      var rest := Loop(step, st.table, turns, i + 1);
      LoopFailureLast(step, st.table, turns, i + 1);
      var calls := st.calls + rest.calls;
      forall j | 0 <= j < |calls| && calls[j].SendTaskFailure?
        ensures j == |calls| - 1
      {
        if j >= |st.calls| {
          assert calls[j] == rest.calls[j - |st.calls|];
        }
      }
    }
  }

  lemma {:induction false} LoopGrows(arn: string, step: (Table, Turn) -> StepResult, table: Table, turns: seq<Turn>, i: nat)
    requires forall t, turn :: Grows(arn, t, step(t, turn).table)
    ensures Grows(arn, table, Loop(step, table, turns, i).table)
    decreases |turns| - i
  {
    var st := step(table, TurnAt(turns, i));
    assert Grows(arn, table, st.table);
    if st.next.Continue? && i < |turns| {
      LoopGrows(arn, step, st.table, turns, i + 1);
    }
  }

  lemma StepFacts(s: Settings, codec: Codec, turn: Turn)
    ensures forall t :: FailureLast(StepOf(s, codec)(t, turn)) && Grows(s.activityArn, t, StepOf(s, codec)(t, turn).table)
    ensures Clean(codec, turn) ==> forall t :: Launched(StepOf(s, codec)(t, turn))
    ensures !Attempted(codec, turn) ==> forall t :: Quiet(StepOf(s, codec)(t, turn))
  {
    forall t
      ensures FailureLast(StepOf(s, codec)(t, turn)) && Grows(s.activityArn, t, StepOf(s, codec)(t, turn).table)
      ensures Clean(codec, turn) ==> Launched(StepOf(s, codec)(t, turn))
      ensures !Attempted(codec, turn) ==> Quiet(StepOf(s, codec)(t, turn))
    {
      var r := Step(s, codec, t, turn);
      assert StepOf(s, codec)(t, turn) == r;
    }
  }

  /**
    Without errors the loop starts one job per task: when the first `k`
    turns each bring a task that starts cleanly and turn `k` brings no task
    (or `get_activity_task` raises), the loop fetches `k + 1` times, starts
    `k` jobs and returns.
  */
  lemma DrainStartsOnePerTask(s: Settings, codec: Codec, table: Table, turns: seq<Turn>, k: nat)
    requires k <= |turns|
    requires forall j :: 0 <= j < k ==> Clean(codec, turns[j])
    requires k == |turns| || turns[k].fetch.Raised? || turns[k].fetch.value.token == ""
    ensures var d := Drain(s, codec, table, turns);
      d.exit == Returned && Starts(d.calls) == k && Fetches(d.calls) == k + 1
  {
    forall j, t | 0 <= j < k
      ensures Launched(StepOf(s, codec)(t, turns[j]))
    {
      StepFacts(s, codec, turns[j]);
    }
    StepFacts(s, codec, TurnAt(turns, k));
    LoopCounts(StepOf(s, codec), table, turns, 0, k);
  }

  /** A task failure is always the last call of the loop: after it no task is fetched or started. */
  lemma DrainEndsAtFailure(s: Settings, codec: Codec, table: Table, turns: seq<Turn>)
    ensures EndsAtFailure(Drain(s, codec, table, turns).calls)
  {
    forall t, turn
      ensures FailureLast(StepOf(s, codec)(t, turn))
    {
      StepFacts(s, codec, turn);
    }
    LoopFailureLast(StepOf(s, codec), table, turns, 0);
  }

  /**
    The loop only inserts, and only under its own activity: every record it
    finds stays, records of other activities keep their values, and every new
    key carries the configured activity ARN.
  */
  lemma DrainOnlyInserts(s: Settings, codec: Codec, table: Table, turns: seq<Turn>)
    ensures Grows(s.activityArn, table, Drain(s, codec, table, turns).table)
  {
    forall t, turn
      ensures Grows(s.activityArn, t, StepOf(s, codec)(t, turn).table)
    {
      StepFacts(s, codec, turn);
    }
    LoopGrows(s.activityArn, StepOf(s, codec), table, turns, 0);
  }

  /** One pass through the body of the `while True` loop of `start_glue_jobs`. */
  method TakeTask(s: Settings, codec: Codec, cloud: Cloud, turn: Turn) returns (next: Next)
    modifies cloud
    ensures var st := Step(s, codec, old(cloud.table), turn);
      cloud.table == st.table && cloud.calls == old(cloud.calls) + st.calls && next == st.next
  {
    cloud.Send(GetActivityTask(s.activityArn, s.workerName));
    if turn.fetch.Raised? {
      return Stop;
    }
    var token := turn.fetch.value.token;
    if token == "" {
      return Stop;
    }
    var parsed := ParseTaskInput(codec, turn.fetch.value.input);
    if parsed.None? {
      return Stop;
    }
    next := LaunchJob(s, cloud, parsed.value, token, turn);
    Associative(old(cloud.calls), [GetActivityTask(s.activityArn, s.workerName)],
      Launch(s, old(cloud.table), parsed.value, token, turn).calls);
  }

  /** The `try` block that starts the job, and its `except` branch. */
  method LaunchJob(s: Settings, cloud: Cloud, tc: TaskConfig, token: string, turn: Turn) returns (next: Next)
    requires "--config" in tc.arguments
    modifies cloud
    ensures var l := Launch(s, old(cloud.table), tc, token, turn);
      cloud.table == l.table && cloud.calls == old(cloud.calls) + l.calls && next == l.next
  {
    var args := tc.arguments;
    var encoded := Base64.EncodeConfig(tc.config);
    var failed := true;
    if encoded.Some? {
      args := args["--config" := Str(encoded.value)];
      cloud.Send(StartJobRun(tc.jobName, args, s.capacity));
      if turn.start.Ok? {
        var ok := cloud.Put(Item(Key(s.activityArn, turn.start.value), Record(tc.jobName, token)), turn.put);
        failed := !ok;
      }
    }
    if failed {
      cloud.Send(SendTaskFailure(token, StartFailure, None));
      if turn.failure.Raised? {
        return Abort(turn.failure.message);
      }
      return Stop;
    }
    return Continue;
  }

  /** `start_glue_jobs`: fetch tasks until none is left or something goes wrong. */
  method StartGlueJobs(s: Settings, codec: Codec, cloud: Cloud, turns: seq<Turn>) returns (exit: Exit)
    modifies cloud
    ensures var d := Drain(s, codec, old(cloud.table), turns);
      cloud.table == d.table && cloud.calls == old(cloud.calls) + d.calls && exit == d.exit
  {
    var i := 0;
    ghost var d := Drain(s, codec, cloud.table, turns);
    ghost var done: seq<Call> := [];
    while true
      invariant cloud.calls == old(cloud.calls) + done
      invariant d == Then(done, Loop(StepOf(s, codec), cloud.table, turns, i))
      decreases |turns| - i
    {
      ghost var table := cloud.table;
      ghost var st := Step(s, codec, table, TurnAt(turns, i));
      var next := TakeTask(s, codec, cloud, TurnAt(turns, i));
      LoopStep(StepOf(s, codec), table, turns, i);
      Associative(old(cloud.calls), done, st.calls);
      if !next.Continue? {
        return ExitOf(next);
      }
      ThenThen(done, st.calls, Loop(StepOf(s, codec), st.table, turns, i + 1));
      done := done + st.calls;
      i := i + 1;
    }
  }

  // ---------------------------------------------------------------------------
  // The reconcile pass (`check_glue_jobs`)
  // ---------------------------------------------------------------------------

  /** What the pass reads of a `get_job_run` answer; timestamps as their formatted text. */
  datatype JobRun = JobRun(
    state: string,
    errorMessage: Option<string>,
    startedOn: Option<string>,
    completedOn: Option<string>,
    lastModifiedOn: Option<string>)

  /** The answers met while handling one queried item: the job run, then the delete. */
  datatype Poll = Poll(jobRun: Reply<JobRun>, delete: Reply<()>)

  /** The local `job_key` as it stands between iterations: never assigned, `None`, or a key. */
  datatype JobKey = Unassigned | Cleared | Assigned(key: Key)

  const PollingStates: seq<string> := ["STARTING", "RUNNING", "STARTING", "STOPPING"]
  const FailedStates: seq<string> := ["FAILED", "STOPPED"]
  const JobFailedError := "GlueJobFailedError"
  const UnboundJobKey := "local variable 'job_key' referenced before assignment"

  /** The run id as the pass writes it to its log: the first eight characters, then "...". */
  function LogRunId(id: string): (r: string)
    ensures |r| == (if |id| < 8 then |id| else 8) + 3
    ensures r[..|r| - 3] <= id && r[|r| - 3..] == "..."
  {
    (if |id| < 8 then id else id[..8]) + "..."
  }

  /** The task output of a SUCCEEDED run; `None` when a timestamp is missing (its `strftime` raises). */
  function SuccessOutput(item: Item, run: JobRun): (r: Option<Json>)
    ensures r.Some? <==> run.startedOn.Some? && run.completedOn.Some? && run.lastModifiedOn.Some?
    ensures r.Some? ==>
      r.value.Object? && r.value.fields.Keys ==
        {"GlueJobName", "GlueJobRunId", "GlueJobRunState", "GlueJobStartedOn", "GlueJobCompletedOn", "GlueJobLastModifiedOn"}
    ensures r.Some? ==>
      r.value.fields["GlueJobName"] == item.record.jobName
      && r.value.fields["GlueJobRunId"] == Str(item.key.runId) && r.value.fields["GlueJobRunState"] == Str(run.state)
    ensures r.Some? ==>
      r.value.fields["GlueJobStartedOn"] == Str(run.startedOn.value)
      && r.value.fields["GlueJobCompletedOn"] == Str(run.completedOn.value)
      && r.value.fields["GlueJobLastModifiedOn"] == Str(run.lastModifiedOn.value)
  {
    if run.startedOn.Some? && run.completedOn.Some? && run.lastModifiedOn.Some? then
      Some(Object(map[
        "GlueJobName" := item.record.jobName,
        "GlueJobRunId" := Str(item.key.runId),
        "GlueJobRunState" := Str(run.state),
        "GlueJobStartedOn" := Str(run.startedOn.value),
        "GlueJobCompletedOn" := Str(run.completedOn.value),
        "GlueJobLastModifiedOn" := Str(run.lastModifiedOn.value)]))
    else None
  }

  /** The cause of a FAILED or STOPPED run: the full run id, name, state and error message. */
  function FailureCause(item: Item, run: JobRun): (r: Json)
    ensures r.Object? && r.fields.Keys == {"glue_job_name", "glue_job_run_id", "glue_job_run_state", "glue_job_run_error_msg"}
    ensures r.fields["glue_job_name"] == item.record.jobName && r.fields["glue_job_run_state"] == Str(run.state)
    ensures r.fields["glue_job_run_id"] == Str(item.key.runId)
    ensures r.fields["glue_job_run_error_msg"] == Str(if run.errorMessage.Some? then run.errorMessage.value else "")
  {
    Object(map[
      "glue_job_name" := item.record.jobName,
      "glue_job_run_id" := Str(item.key.runId),
      "glue_job_run_state" := Str(run.state),
      "glue_job_run_error_msg" := Str(if run.errorMessage.Some? then run.errorMessage.value else "")])
  }

  /** A poll that read a run still starting, running or stopping. */
  predicate Polling(poll: Poll) {
    poll.jobRun.Ok? && poll.jobRun.value.state in PollingStates
  }

  /** A poll that read a run no longer starting, running or stopping. */
  predicate Settled(poll: Poll) {
    poll.jobRun.Ok? && poll.jobRun.value.state !in PollingStates
  }

  datatype PollResult = PollResult(table: Table, calls: seq<Call>, jobKey: JobKey)

  /** The report a settled run gets: none for an unknown state or a missing timestamp. */
  function Report(item: Item, run: JobRun): (r: seq<Call>)
    ensures |r| <= 1
    ensures run.state == "SUCCEEDED" && SuccessOutput(item, run).Some? ==>
      r == [SendTaskSuccess(item.record.taskToken, SuccessOutput(item, run).value)]
    ensures run.state in FailedStates ==> r == [SendTaskFailure(item.record.taskToken, JobFailedError, Some(FailureCause(item, run)))]
    ensures run.state != "SUCCEEDED" && run.state !in FailedStates ==> r == []
    ensures run.state == "SUCCEEDED" && SuccessOutput(item, run).None? ==> r == []
  {
    if run.state == "SUCCEEDED" then
      match SuccessOutput(item, run)
      case Some(output) => [SendTaskSuccess(item.record.taskToken, output)]
      case None => []
    else if run.state in FailedStates then
      [SendTaskFailure(item.record.taskToken, JobFailedError, Some(FailureCause(item, run)))]
    else []
  }

  /** One iteration of the `for` loop over the queried items. */
  function PollItem(s: Settings, table: Table, item: Item, poll: Poll, jobKey: JobKey): (r: PollResult)
    ensures |r.calls| >= 1 && r.calls[0] == GetJobRun(item.record.jobName, item.key.runId)
    ensures poll.jobRun.Raised? ==> r.jobKey == jobKey
    ensures poll.jobRun.Raised? ==>
      r.calls == [GetJobRun(item.record.jobName, item.key.runId)] + (if jobKey.Assigned? then [DeleteItem(jobKey.key)] else [])
    ensures Polling(poll) ==>
      r.jobKey == Cleared && r.table == table
      && r.calls == [GetJobRun(item.record.jobName, item.key.runId), SendTaskHeartbeat(item.record.taskToken)]
    ensures Settled(poll) ==> r.jobKey == Assigned(Key(s.activityArn, item.key.runId))
    ensures r.jobKey.Assigned? ==>
      r.table == AfterDelete(table, r.jobKey.key, poll.delete) && r.calls[|r.calls| - 1] == DeleteItem(r.jobKey.key)
    ensures !r.jobKey.Assigned? ==> r.table == table
    ensures Settled(poll) ==> r.calls[1..|r.calls| - 1] == Report(item, poll.jobRun.value)
  {
    var (reported, held) := Polled(s, item, poll, jobKey);
    match held
    case Assigned(key) => PollResult(AfterDelete(table, key, poll.delete), reported + [DeleteItem(key)], held)
    case _ => PollResult(table, reported, held)
  }

  /** The `try` block of one iteration: the calls it makes and the `job_key` it leaves. */
  function Polled(s: Settings, item: Item, poll: Poll, jobKey: JobKey): (seq<Call>, JobKey) {
    var get := [GetJobRun(item.record.jobName, item.key.runId)];
    match poll.jobRun
    case Raised(_) => (get, jobKey)
    case Ok(run) =>
      if run.state in PollingStates then (get + [SendTaskHeartbeat(item.record.taskToken)], Cleared)
      else (get + Report(item, run), Assigned(Key(s.activityArn, item.key.runId)))
  }

  /**
    The `for` loop from item `i` on. The pass raises only where `job_key` is
    read before any iteration assigned it: the first item's poll raised.
  */
  function Reconcile(s: Settings, table: Table, items: seq<Item>, polls: seq<Poll>, i: nat, jobKey: JobKey): (r: Outcome)
    requires |polls| == |items| && i <= |items|
    ensures r.exit.Threw? <==> jobKey.Unassigned? && i < |items| && polls[i].jobRun.Raised?
    decreases |items| - i
  {
    if i == |items| then Outcome(table, [], Returned)
    else
      var p := PollItem(s, table, items[i], polls[i], jobKey);
      if p.jobKey.Unassigned? then Outcome(table, p.calls, Threw(UnboundJobKey))
      else Then(p.calls, Reconcile(s, p.table, items, polls, i + 1, p.jobKey))
  }

  /** The query for the activity's records, then the loop over them. */
  function Check(s: Settings, table: Table, page: Reply<seq<Item>>, polls: seq<Poll>): Outcome
    requires page.Ok? ==> |polls| == |page.value|
  {
    var query := [Query("sfn_activity_arn", s.activityArn, Some(s.queryLimit))];
    match page
    case Raised(message) => Outcome(table, query, Threw(message))
    case Ok(items) => Then(query, Reconcile(s, table, items, polls, 0, Unassigned))
  }

  /** The key the pass deletes for an item once its run is read: the configured ARN and the item's run id. */
  function Owner(s: Settings, item: Item): Key {
    Key(s.activityArn, item.key.runId)
  }

  lemma {:induction false} ReconcileOnlyDeletes(s: Settings, table: Table, items: seq<Item>, polls: seq<Poll>, i: nat, jobKey: JobKey)
    requires |polls| == |items| && i <= |items|
    ensures SubTable(Reconcile(s, table, items, polls, i, jobKey).table, table)
    decreases |items| - i
  {
    if i < |items| {
      var p := PollItem(s, table, items[i], polls[i], jobKey);
      if !p.jobKey.Unassigned? {
        ReconcileOnlyDeletes(s, p.table, items, polls, i + 1, p.jobKey);
      }
    }
  }

  /**
    A record survives the loop from item `i` on when `job_key` does not hold
    its key and no item from `i` on whose run is settled deletes it.
  */
  lemma {:induction false} ReconcileKeeps(s: Settings, table: Table, items: seq<Item>, polls: seq<Poll>, i: nat, jobKey: JobKey, k: Key)
    requires |polls| == |items| && i <= |items|
    requires k in table && jobKey != Assigned(k)
    requires forall m :: i <= m < |items| && Settled(polls[m]) ==> Owner(s, items[m]) != k
    ensures k in Reconcile(s, table, items, polls, i, jobKey).table
    decreases |items| - i
  {
    if i < |items| {
      var p := PollItem(s, table, items[i], polls[i], jobKey);
      if !p.jobKey.Unassigned? {
        ReconcileKeeps(s, p.table, items, polls, i + 1, p.jobKey, k);
      }
    }
  }

  /** An item whose run is settled and whose delete succeeds leaves no record behind, if the loop gets to it. */
  lemma {:induction false} ReconcileDeletes(s: Settings, table: Table, items: seq<Item>, polls: seq<Poll>, i: nat, jobKey: JobKey, m: nat)
    requires |polls| == |items| && i <= m < |items|
    requires Reconcile(s, table, items, polls, i, jobKey).exit == Returned
    requires Settled(polls[m]) && polls[m].delete.Ok?
    ensures Owner(s, items[m]) !in Reconcile(s, table, items, polls, i, jobKey).table
    decreases |items| - i
  {
    var p := PollItem(s, table, items[i], polls[i], jobKey);
    if i < m {
      ReconcileDeletes(s, p.table, items, polls, i + 1, p.jobKey, m);
    } else {
      ReconcileOnlyDeletes(s, p.table, items, polls, i + 1, p.jobKey);
    }
  }

  /** The items a query for `arn` can answer: records of `table` under `arn`, each once, at most `limit` of them. */
  predicate IsPage(table: Table, arn: string, limit: int, items: seq<Item>) {
    |items| <= limit
    && (forall j :: 0 <= j < |items| ==> items[j].key in table && table[items[j].key] == items[j].record)
    && (forall j :: 0 <= j < |items| ==> items[j].key.activityArn == arn)
    && (forall j, k :: 0 <= j < k < |items| ==> items[j].key != items[k].key)
  }

  /**
    The pass only deletes, and only queried records: every record it leaves
    was there before with the same attributes, and every record the query
    did not return is still there.
  */
  lemma PassTouchesOnlyPage(s: Settings, table: Table, items: seq<Item>, polls: seq<Poll>)
    requires IsPage(table, s.activityArn, s.queryLimit, items) && |polls| == |items|
    ensures SubTable(Check(s, table, Ok(items), polls).table, table)
    ensures forall k :: k in table && !InPage(items, k) ==> k in Check(s, table, Ok(items), polls).table
  {
    ReconcileOnlyDeletes(s, table, items, polls, 0, Unassigned);
    forall k | k in table && !InPage(items, k)
      ensures k in Check(s, table, Ok(items), polls).table
    {
      forall m | 0 <= m < |items| && Settled(polls[m])
        ensures Owner(s, items[m]) != k
      {
        assert Owner(s, items[m]) == items[m].key;
      }
      ReconcileKeeps(s, table, items, polls, 0, Unassigned, k);
    }
  }

  /**
    A job still starting, running or stopping, or one whose run could not be
    read, keeps its record: `job_key` is None for it, or still holds an
    earlier item's key.
  */
  lemma PassKeepsUnsettled(s: Settings, table: Table, items: seq<Item>, polls: seq<Poll>, j: nat)
    requires IsPage(table, s.activityArn, s.queryLimit, items) && |polls| == |items|
    requires j < |items| && !Settled(polls[j])
    ensures items[j].key in Check(s, table, Ok(items), polls).table
  {
    forall m | 0 <= m < |items| && Settled(polls[m])
      ensures Owner(s, items[m]) != items[j].key
    {
      assert Owner(s, items[m]) == items[m].key;
    }
    ReconcileKeeps(s, table, items, polls, 0, Unassigned, items[j].key);
  }

  /**
    A job in any other state (SUCCEEDED, FAILED, STOPPED or unknown, and a
    SUCCEEDED run whose report raised) loses its record when the delete
    succeeds, unless the pass raised at its first item.
  */
  lemma PassDeletesSettled(s: Settings, table: Table, items: seq<Item>, polls: seq<Poll>, j: nat)
    requires IsPage(table, s.activityArn, s.queryLimit, items) && |polls| == |items|
    requires j < |items| && Settled(polls[j]) && polls[j].delete.Ok?
    requires Check(s, table, Ok(items), polls).exit == Returned
    ensures items[j].key !in Check(s, table, Ok(items), polls).table
  {
    assert Owner(s, items[j]) == items[j].key;
    ReconcileDeletes(s, table, items, polls, 0, Unassigned, j);
  }

  /** The body of the `for` loop for one item: poll, report, and delete when `job_key` is a key. */
  method PollOne(s: Settings, cloud: Cloud, item: Item, poll: Poll, jobKey: JobKey) returns (held: JobKey)
    modifies cloud
    ensures var p := PollItem(s, old(cloud.table), item, poll, jobKey);
      cloud.table == p.table && cloud.calls == old(cloud.calls) + p.calls && held == p.jobKey
  {
    held := ReadRun(s, cloud, item, poll, jobKey);
    if held.Assigned? {
      var _ := cloud.Delete(held.key, poll.delete);
      Associative(old(cloud.calls), Polled(s, item, poll, jobKey).0, [DeleteItem(held.key)]);
    }
  }

  /** The `try` block: poll the run, then heartbeat or report. */
  method ReadRun(s: Settings, cloud: Cloud, item: Item, poll: Poll, jobKey: JobKey) returns (held: JobKey)
    modifies cloud
    ensures var (calls, key) := Polled(s, item, poll, jobKey);
      cloud.table == old(cloud.table) && cloud.calls == old(cloud.calls) + calls && held == key
  {
    held := jobKey;
    cloud.Send(GetJobRun(item.record.jobName, item.key.runId));
    if poll.jobRun.Ok? {
      var run := poll.jobRun.value;
      held := Assigned(Key(s.activityArn, item.key.runId));
      if run.state in PollingStates {
        held := Cleared;
        cloud.Send(SendTaskHeartbeat(item.record.taskToken));
      } else {
        SendReport(cloud, item, run);
      }
    }
  }

  /** The SUCCEEDED, FAILED/STOPPED and unknown-state branches of the loop body. */
  method SendReport(cloud: Cloud, item: Item, run: JobRun)
    modifies cloud
    ensures cloud.table == old(cloud.table) && cloud.calls == old(cloud.calls) + Report(item, run)
  {
    if run.state == "SUCCEEDED" {
      var output := SuccessOutput(item, run);
      if output.Some? {
        cloud.Send(SendTaskSuccess(item.record.taskToken, output.value));
      }
    } else if run.state in FailedStates {
      cloud.Send(SendTaskFailure(item.record.taskToken, JobFailedError, Some(FailureCause(item, run))));
    }
  }

  /** `check_glue_jobs`: query the activity's records, then poll, report and delete item by item. */
  method CheckGlueJobs(s: Settings, cloud: Cloud, page: Reply<seq<Item>>, polls: seq<Poll>) returns (exit: Exit)
    requires page.Ok? ==> |polls| == |page.value|
    modifies cloud
    ensures var c := Check(s, old(cloud.table), page, polls);
      cloud.table == c.table && cloud.calls == old(cloud.calls) + c.calls && exit == c.exit
  {
    cloud.Send(Query("sfn_activity_arn", s.activityArn, Some(s.queryLimit)));
    if page.Raised? {
      return Threw(page.message);
    }
    var items := page.value;
    ghost var c := Check(s, old(cloud.table), page, polls);
    ghost var done := [Query("sfn_activity_arn", s.activityArn, Some(s.queryLimit))];
    var jobKey := Unassigned;
    for i := 0 to |items|
      invariant cloud.calls == old(cloud.calls) + done
      invariant c == Then(done, Reconcile(s, cloud.table, items, polls, i, jobKey))
    {
      ghost var p := PollItem(s, cloud.table, items[i], polls[i], jobKey);
      jobKey := PollOne(s, cloud, items[i], polls[i], jobKey);
      Associative(old(cloud.calls), done, p.calls);
      if jobKey.Unassigned? {
        return Threw(UnboundJobKey);
      }
      ThenThen(done, p.calls, Reconcile(s, p.table, items, polls, i + 1, p.jobKey));
      done := done + p.calls;
    }
    assert done + [] == done;
    exit := Returned;
  }

  // ---------------------------------------------------------------------------
  // The handler
  // ---------------------------------------------------------------------------

  /** One invocation: the drain loop, then the reconcile pass on the table it left, unless the loop raised. */
  function Run(s: Settings, codec: Codec, table: Table, turns: seq<Turn>, page: Reply<seq<Item>>, polls: seq<Poll>): Outcome
    requires page.Ok? ==> |polls| == |page.value|
  {
    var d := Drain(s, codec, table, turns);
    if d.exit.Threw? then d else Then(d.calls, Check(s, d.table, page, polls))
  }

  /** `handler`: `start_glue_jobs()` then `check_glue_jobs()`. */
  method Handler(s: Settings, codec: Codec, cloud: Cloud, turns: seq<Turn>, page: Reply<seq<Item>>, polls: seq<Poll>)
    returns (exit: Exit)
    requires page.Ok? ==> |polls| == |page.value|
    modifies cloud
    ensures var r := Run(s, codec, old(cloud.table), turns, page, polls);
      cloud.table == r.table && cloud.calls == old(cloud.calls) + r.calls && exit == r.exit
  {
    exit := StartGlueJobs(s, codec, cloud, turns);
    if exit.Threw? {
      return;
    }
    ghost var drained := cloud.table;
    exit := CheckGlueJobs(s, cloud, page, polls);
    Associative(old(cloud.calls), Drain(s, codec, old(cloud.table), turns).calls, Check(s, drained, page, polls).calls);
  }
}
