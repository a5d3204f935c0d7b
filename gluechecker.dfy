/**
  The glue checker: a Lambda function triggered by a Glue job state-change
  event. It looks up the correlation records of the event's run id, reports
  the run's outcome to the waiting Step Functions task, and deletes each
  record it found.
*/
module GlueChecker {
  import opened Wrappers
  import opened Json
  import opened Services

  /** The configuration the checker reads from its environment. */
  datatype Settings = Settings(activityArn: string)

  /** What the handler reads of the event: `detail.jobRunId`, `detail.state`, `detail.message` (may be absent), `time`. */
  datatype Event = Event(runId: string, state: string, message: Option<string>, time: string)

  /** The answer to the query by run id: the items, a missing table, or any other exception. */
  datatype Lookup = Found(items: seq<Item>) | NotFound | Failed(message: string)

  /** The answers met while handling one item: the report call (when one is made), then the delete. */
  datatype Answer = Answer(report: Reply<()>, delete: Reply<()>)

  const FailedStates: seq<string> := ["FAILED", "STOPPED", "TIMEOUT"]
  const JobFailedError := "GlueJobFailedError"
  /** The text of the `KeyError` raised when a failed-run event has no `detail.message`. */
  const MissingMessage := "'message'"
  /**
    The text of the `AttributeError` raised at gluechecker.py:31: a boto3
    service resource has no `exceptions` attribute (the exception classes
    live under `meta.client.exceptions`).
  */
  const NoExceptionsAttribute := "'dynamodb.ServiceResource' object has no attribute 'exceptions'"

  /** The query the handler makes: every record whose `glue_job_run_id` is the event's, with no limit. */
  function LookupCall(event: Event): Call {
    Query("glue_job_run_id", event.runId, None)
  }

  /** The run id as the checker writes it to its log: at most its first eight characters, nothing appended. */
  function LogRunId(id: string): (r: string)
    ensures r <= id
    ensures |r| == (if |id| < 8 then |id| else 8)
  {
    if |id| < 8 then id else id[..8]
  }

  /** The task output of a SUCCEEDED event. */
  function SuccessOutput(item: Item, event: Event): (r: Json)
    ensures r.Object? && r.fields.Keys == {"GlueJobName", "GlueJobRunId", "GlueJobRunState", "GlueJobTime"}
    ensures r.fields["GlueJobName"] == item.record.jobName && r.fields["GlueJobRunState"] == Str(event.state)
    ensures r.fields["GlueJobRunId"] == Str(item.key.runId) && r.fields["GlueJobTime"] == Str(event.time)
  {
    Object(map[
      "GlueJobName" := item.record.jobName,
      "GlueJobRunId" := Str(item.key.runId),
      "GlueJobRunState" := Str(event.state),
      "GlueJobTime" := Str(event.time)])
  }

  /** The cause of a failed run: the full run id, the job name, the state and the event's message. */
  function FailureCause(item: Item, event: Event, message: string): (r: Json)
    ensures r.Object? && r.fields.Keys == {"glue_job_name", "glue_job_run_id", "glue_job_run_state", "glue_job_run_error_msg"}
    ensures r.fields["glue_job_name"] == item.record.jobName && r.fields["glue_job_run_state"] == Str(event.state)
    ensures r.fields["glue_job_run_id"] == Str(item.key.runId) && r.fields["glue_job_run_error_msg"] == Str(message)
  {
    Object(map[
      "glue_job_name" := item.record.jobName,
      "glue_job_run_id" := Str(item.key.runId),
      "glue_job_run_state" := Str(event.state),
      "glue_job_run_error_msg" := Str(message)])
  }

  /** The report step for one item: nothing, one call, or the `KeyError` of a missing message. */
  datatype Report = NoReport | Send(call: Call) | MissingKey

  /** The states that get a report. */
  predicate Reported(event: Event) {
    event.state == "SUCCEEDED" || event.state in FailedStates
  }

  function ReportFor(item: Item, event: Event): (r: Report)
    ensures r.MissingKey? <==> event.state in FailedStates && event.message.None?
    ensures r.NoReport? <==> !Reported(event)
    ensures r.Send? ==> (r.call.SendTaskSuccess? || r.call.SendTaskFailure?) && r.call.token == item.record.taskToken
    ensures r.Send? ==> (r.call.SendTaskSuccess? <==> event.state == "SUCCEEDED")
    ensures r.Send? && r.call.SendTaskSuccess? ==> r.call.output == SuccessOutput(item, event)
    ensures r.Send? && r.call.SendTaskFailure? ==>
      r.call.error == JobFailedError && r.call.cause == Some(FailureCause(item, event, event.message.value))
  {
    if event.state == "SUCCEEDED" then
      Send(SendTaskSuccess(item.record.taskToken, SuccessOutput(item, event)))
    else if event.state in FailedStates then
      match event.message
      case None => MissingKey
      case Some(message) => Send(SendTaskFailure(item.record.taskToken, JobFailedError, Some(FailureCause(item, event, message))))
    else NoReport
  }

  /** The key the checker deletes for an item: the configured ARN and the item's run id. */
  function Owner(s: Settings, item: Item): Key {
    Key(s.activityArn, item.key.runId)
  }

  /** The report call an item gets, if any: the one `ReportFor` sends. */
  function ReportCalls(item: Item, event: Event): seq<Call> {
    if ReportFor(item, event).Send? then [ReportFor(item, event).call] else []
  }

  /** The calls one item makes when it returns: its report, if any, then the delete of its key. */
  function ItemCalls(s: Settings, item: Item, event: Event): seq<Call> {
    ReportCalls(item, event) + [DeleteItem(Owner(s, item))]
  }

  /** The calls the items from `i` on make when none raises, item after item. */
  function AllItemCalls(s: Settings, items: seq<Item>, event: Event, i: nat): seq<Call>
    requires i <= |items|
    decreases |items| - i
  {
    if i == |items| then [] else ItemCalls(s, items[i], event) + AllItemCalls(s, items, event, i + 1)
  }

  /** Handling an item raises: the failed-run message is missing, or the report call raised. */
  predicate Raises(event: Event, answer: Answer) {
    (event.state in FailedStates && event.message.None?) || (Reported(event) && answer.report.Raised?)
  }

  /** One iteration of the `for` loop: report, then delete (a failed delete is logged and ignored). */
  function Resolve(s: Settings, table: Table, item: Item, event: Event, answer: Answer): (r: Outcome)
    ensures r.exit.Threw? <==> Raises(event, answer)
    ensures r.exit.Threw? ==> r.table == table && DeleteItem(Owner(s, item)) !in r.calls
    ensures r.exit.Returned? ==>
      r.table == AfterDelete(table, Owner(s, item), answer.delete)
      && |r.calls| >= 1 && r.calls[|r.calls| - 1] == DeleteItem(Owner(s, item))
    ensures r.exit.Returned? ==> r.calls == ItemCalls(s, item, event)
    ensures Reports(r.calls) == (if Reported(event) && !(event.state in FailedStates && event.message.None?) then 1 else 0)
  {
    var delete := DeleteItem(Owner(s, item));
    CountsOne(delete);
    match ReportFor(item, event)
    case MissingKey => Outcome(table, [], Threw(MissingMessage))
    case Send(call) =>
      CountsOne(call);
      if answer.report.Raised? then Outcome(table, [call], Threw(answer.report.message))
      else
        CountsAppend([call], [delete]);
        Outcome(AfterDelete(table, Owner(s, item), answer.delete), [call, delete], Returned)
    case NoReport => Outcome(AfterDelete(table, Owner(s, item), answer.delete), [delete], Returned)
  }

  /** Some item from `i` on raises when handled. */
  predicate RaisesFrom(event: Event, answers: seq<Answer>, i: nat) {
    exists j :: i <= j < |answers| && Raises(event, answers[j])
  }

  /**
    The `for` loop from item `i` on. It stops at the first item that raises;
    when none does, every item got exactly one report if the state is
    reported, and none otherwise.
  */
  function ResolveAll(s: Settings, table: Table, items: seq<Item>, event: Event, answers: seq<Answer>, i: nat): (r: Outcome)
    requires |answers| == |items| && i <= |items|
    ensures SubTable(r.table, table)
    ensures r.exit.Threw? <==> RaisesFrom(event, answers, i)
    ensures r.exit.Returned? ==> Reports(r.calls) == (if Reported(event) then |items| - i else 0)
    ensures r.exit.Returned? ==> r.calls == AllItemCalls(s, items, event, i)
    decreases |items| - i
  {
    if i == |items| then Outcome(table, [], Returned)
    else
      var o := Resolve(s, table, items[i], event, answers[i]);
      if o.exit.Threw? then o
      else
        var rest := ResolveAll(s, o.table, items, event, answers, i + 1);
        CountsAppend(o.calls, rest.calls);
        assert RaisesFrom(event, answers, i) <==> RaisesFrom(event, answers, i + 1) by {
          if RaisesFrom(event, answers, i) {
            var j :| i <= j < |answers| && Raises(event, answers[j]);
            assert j != i;
          }
        }
        Then(o.calls, rest)
  }

  /**
    `handler` with the `except` clause at gluechecker.py:31 as intended
    (`dynamodb.meta.client.exceptions.ResourceNotFoundException`): the
    query by run id, then the loop over what it found. A missing table ends
    the invocation quietly.
  */
  function Handle(s: Settings, table: Table, event: Event, lookup: Lookup, answers: seq<Answer>): (r: Outcome)
    requires lookup.Found? ==> |answers| == |lookup.items|
    ensures |r.calls| >= 1 && r.calls[0] == LookupCall(event)
    ensures lookup.NotFound? || lookup == Found([]) ==> r == Outcome(table, [LookupCall(event)], Returned)
    ensures lookup.Failed? ==> r == Outcome(table, [LookupCall(event)], Threw(lookup.message))
    ensures SubTable(r.table, table)
  {
    var query := [LookupCall(event)];
    match lookup
    case NotFound => Outcome(table, query, Returned)
    case Failed(message) => Outcome(table, query, Threw(message))
    case Found(items) => Then(query, ResolveAll(s, table, items, event, answers, 0))
  }

  /**
    `handler` as written: evaluating `dynamodb.exceptions` in the `except`
    clause raises `AttributeError` whenever the query raises, so a missing
    table raises like any other query error.
  */
  function HandleAsWritten(s: Settings, table: Table, event: Event, lookup: Lookup, answers: seq<Answer>): (r: Outcome)
    requires lookup.Found? ==> |answers| == |lookup.items|
    ensures !lookup.Found? ==> r == Outcome(table, [LookupCall(event)], Threw(NoExceptionsAttribute))
    ensures lookup.Found? ==> r == Handle(s, table, event, lookup, answers)
  {
    match lookup
    case Found(_) => Handle(s, table, event, lookup, answers)
    case _ => Outcome(table, [LookupCall(event)], Threw(NoExceptionsAttribute))
  }

  /**
    The discrepancy: on a missing table the handler as written raises,
    where the intended handler returns after the query alone.
  */
  lemma MissingTableRaises(s: Settings, table: Table, event: Event)
    ensures HandleAsWritten(s, table, event, NotFound, []).exit == Threw(NoExceptionsAttribute)
    ensures Handle(s, table, event, NotFound, []) == Outcome(table, [LookupCall(event)], Returned)
  {
  }

  lemma {:induction false} ResolveAllDeletes(s: Settings, table: Table, items: seq<Item>, event: Event, answers: seq<Answer>, i: nat, m: nat)
    requires |answers| == |items| && i <= m < |items|
    requires ResolveAll(s, table, items, event, answers, i).exit == Returned
    requires answers[m].delete.Ok?
    ensures Owner(s, items[m]) !in ResolveAll(s, table, items, event, answers, i).table
    decreases |items| - i
  {
    var o := Resolve(s, table, items[i], event, answers[i]);
    if i < m {
      ResolveAllDeletes(s, o.table, items, event, answers, i + 1, m);
    }
  }

  lemma {:induction false} ResolveAllKeeps(s: Settings, table: Table, items: seq<Item>, event: Event, answers: seq<Answer>, i: nat, k: Key)
    requires |answers| == |items| && i <= |items|
    requires k in table
    requires forall m :: i <= m < |items| ==> Owner(s, items[m]) != k
    ensures k in ResolveAll(s, table, items, event, answers, i).table
    decreases |items| - i
  {
    if i < |items| {
      var o := Resolve(s, table, items[i], event, answers[i]);
      if o.exit.Returned? {
        ResolveAllKeeps(s, o.table, items, event, answers, i + 1, k);
      }
    }
  }

  /** Some found item is deleted under key `k`. */
  predicate Matched(s: Settings, items: seq<Item>, k: Key) {
    exists j :: 0 <= j < |items| && Owner(s, items[j]) == k
  }

  /**
    The handler only deletes, and only the keys of found items: every other
    record is left as it was.
  */
  lemma HandlerKeepsOthers(s: Settings, table: Table, event: Event, items: seq<Item>, answers: seq<Answer>, k: Key)
    requires |answers| == |items|
    requires k in table && !Matched(s, items, k)
    ensures k in Handle(s, table, event, Found(items), answers).table
    ensures Handle(s, table, event, Found(items), answers).table[k] == table[k]
  {
    ResolveAllKeeps(s, table, items, event, answers, 0, k);
  }

  /**
    A found record whose ARN is not the configured one is never deleted,
    whatever the event says: the delete names the configured ARN.
  */
  lemma ForeignRecordSurvives(s: Settings, table: Table, event: Event, items: seq<Item>, answers: seq<Answer>, j: nat)
    requires |answers| == |items| && j < |items|
    requires items[j].key in table && items[j].key.activityArn != s.activityArn
    ensures items[j].key in Handle(s, table, event, Found(items), answers).table
  {
    HandlerKeepsOthers(s, table, event, items, answers, items[j].key);
  }

  /**
    When the handler returns, every found item whose delete succeeded is
    gone, whatever the event's state, RUNNING included.
  */
  lemma HandlerDeletesEvery(s: Settings, table: Table, event: Event, items: seq<Item>, answers: seq<Answer>, j: nat)
    requires |answers| == |items| && j < |items|
    requires Handle(s, table, event, Found(items), answers).exit == Returned
    requires answers[j].delete.Ok?
    ensures Owner(s, items[j]) !in Handle(s, table, event, Found(items), answers).table
  {
    ResolveAllDeletes(s, table, items, event, answers, 0, j);
  }

  /** Each item from `i` on makes two calls when the state is reported, and one otherwise. */
  lemma {:induction false} ItemCallsLength(s: Settings, items: seq<Item>, event: Event, i: nat)
    requires i <= |items|
    requires i < |items| ==> !(event.state in FailedStates && event.message.None?)
    ensures |AllItemCalls(s, items, event, i)| == (if Reported(event) then 2 else 1) * (|items| - i)
    decreases |items| - i
  {
    if i < |items| {
      ItemCallsLength(s, items, event, i + 1);
    }
  }

  /** For a reported state, item `j` makes its report, then its delete, at position `2 * (j - i)`. */
  lemma {:induction false} ReportedCallsAt(s: Settings, items: seq<Item>, event: Event, i: nat, j: nat)
    requires i <= j < |items| && Reported(event)
    requires !(event.state in FailedStates && event.message.None?)
    ensures |AllItemCalls(s, items, event, i)| == 2 * (|items| - i)
    ensures ReportFor(items[j], event).Send?
    ensures AllItemCalls(s, items, event, i)[2 * (j - i)] == ReportFor(items[j], event).call
    ensures AllItemCalls(s, items, event, i)[2 * (j - i) + 1] == DeleteItem(Owner(s, items[j]))
    decreases |items| - i
  {
    ItemCallsLength(s, items, event, i);
    ReportedItemCalls(s, items[i], event);
    var rest := AllItemCalls(s, items, event, i + 1);
    if j > i {
      ReportedCallsAt(s, items, event, i + 1, j);
      PairShift(ItemCalls(s, items[i], event), rest, 2 * (j - i - 1));
    }
  }

  lemma PairShift<T>(head: seq<T>, rest: seq<T>, k: nat)
    requires |head| == 2 && k + 1 < |rest|
    ensures (head + rest)[k + 2] == rest[k] && (head + rest)[k + 3] == rest[k + 1]
  {
  }

  /** For a reported state whose failure carries its message, an item makes its report, then its delete. */
  lemma ReportedItemCalls(s: Settings, item: Item, event: Event)
    requires Reported(event) && !(event.state in FailedStates && event.message.None?)
    ensures ReportFor(item, event).Send?
    ensures ItemCalls(s, item, event) == [ReportFor(item, event).call, DeleteItem(Owner(s, item))]
  {
  }

  /** For a state that is not reported, item `j` makes only its delete, at position `j - i`. */
  lemma {:induction false} UnreportedCallsAt(s: Settings, items: seq<Item>, event: Event, i: nat, j: nat)
    requires i <= j < |items| && !Reported(event)
    ensures |AllItemCalls(s, items, event, i)| == |items| - i
    ensures AllItemCalls(s, items, event, i)[j - i] == DeleteItem(Owner(s, items[j]))
    decreases |items| - i
  {
    ItemCallsLength(s, items, event, i);
    if j > i {
      UnreportedCallsAt(s, items, event, i + 1, j);
      assert |ItemCalls(s, items[i], event)| == 1;
    }
  }

  /**
    When the handler returns, it made the query, then each item's calls in
    turn; a failed-run event that got this far carries its message.
  */
  lemma HandlerCalls(s: Settings, table: Table, event: Event, items: seq<Item>, answers: seq<Answer>)
    requires |answers| == |items|
    requires Handle(s, table, event, Found(items), answers).exit == Returned
    ensures Handle(s, table, event, Found(items), answers).calls == [LookupCall(event)] + AllItemCalls(s, items, event, 0)
    ensures Reports(Handle(s, table, event, Found(items), answers).calls) == (if Reported(event) then |items| else 0)
    ensures items != [] ==> !(event.state in FailedStates && event.message.None?)
  {
    CountsOne(LookupCall(event));
    CountsAppend([LookupCall(event)], ResolveAll(s, table, items, event, answers, 0).calls);
    if items != [] {
      assert !Raises(event, answers[0]);
    }
  }

  /**
    When the handler returns, each found item got exactly one report
    (success for SUCCEEDED, failure for FAILED, STOPPED or TIMEOUT) sent to
    its own task token, followed by the delete of its key; any other state
    got no report, only the deletes.
  */
  lemma HandlerReportsOncePerItem(s: Settings, table: Table, event: Event, items: seq<Item>, answers: seq<Answer>)
    requires |answers| == |items|
    requires Handle(s, table, event, Found(items), answers).exit == Returned
    ensures Reports(Handle(s, table, event, Found(items), answers).calls) == (if Reported(event) then |items| else 0)
    ensures var c := Handle(s, table, event, Found(items), answers).calls;
      Reported(event) ==> |c| == 1 + 2 * |items| && forall j :: 0 <= j < |items| ==>
        c[1 + 2 * j] == ReportFor(items[j], event).call && c[1 + 2 * j].token == items[j].record.taskToken
        && (c[1 + 2 * j].SendTaskSuccess? <==> event.state == "SUCCEEDED")
        && c[2 + 2 * j] == DeleteItem(Owner(s, items[j]))
    ensures var c := Handle(s, table, event, Found(items), answers).calls;
      !Reported(event) ==> |c| == 1 + |items| && forall j :: 0 <= j < |items| ==> c[1 + j] == DeleteItem(Owner(s, items[j]))
  {
    HandlerCalls(s, table, event, items, answers);
    ItemCallsLength(s, items, event, 0);
    var c := Handle(s, table, event, Found(items), answers).calls;
    var rest := AllItemCalls(s, items, event, 0);
    assert c == [LookupCall(event)] + rest;
    forall j | 0 <= j < |items|
      ensures Reported(event) ==>
        c[1 + 2 * j] == ReportFor(items[j], event).call && c[1 + 2 * j].token == items[j].record.taskToken
        && (c[1 + 2 * j].SendTaskSuccess? <==> event.state == "SUCCEEDED")
        && c[2 + 2 * j] == DeleteItem(Owner(s, items[j]))
      ensures !Reported(event) ==> c[1 + j] == DeleteItem(Owner(s, items[j]))
    {
      if Reported(event) {
        ReportedCallsAt(s, items, event, 0, j);
        assert c[1 + 2 * j] == rest[2 * j] && c[2 + 2 * j] == rest[2 * j + 1];
      } else {
        UnreportedCallsAt(s, items, event, 0, j);
        assert c[1 + j] == rest[j];
      }
    }
  }

  /**
    The handler raises exactly when some found item raises: a failed-run
    event without a message, or a report call that raised. A state that
    is not reported never raises.
  */
  lemma HandlerRaises(s: Settings, table: Table, event: Event, items: seq<Item>, answers: seq<Answer>)
    requires |answers| == |items|
    ensures Handle(s, table, event, Found(items), answers).exit.Threw? <==> RaisesFrom(event, answers, 0)
    ensures !Reported(event) ==> Handle(s, table, event, Found(items), answers).exit == Returned
  {
  }

  /** `items` are all the records of `table` whose run id is `runId`, as stored. */
  predicate Matches(table: Table, runId: string, items: seq<Item>) {
    (forall j :: 0 <= j < |items| ==> items[j].key in table && table[items[j].key] == items[j].record && items[j].key.runId == runId)
    && (forall k :: k in table && k.runId == runId ==> InPage(items, k))
  }

  lemma FirstMatch(table: Table, runId: string, items: seq<Item>)
    requires Matches(table, runId, items)
    ensures items != [] ==> items[0].key in table && items[0].key.runId == runId
  {
  }

  /**
    When every found record carries the configured ARN and every delete
    succeeds, no record of the run is left: with the ARN fixed, the table
    holds at most one record per run id, and that record is deleted.
  */
  lemma HandlerClearsRun(s: Settings, table: Table, event: Event, items: seq<Item>, answers: seq<Answer>)
    requires Matches(table, event.runId, items) && |answers| == |items|
    requires forall j :: 0 <= j < |items| ==> items[j].key.activityArn == s.activityArn && answers[j].delete.Ok?
    requires Handle(s, table, event, Found(items), answers).exit == Returned
    ensures forall k :: k in Handle(s, table, event, Found(items), answers).table ==> k.runId != event.runId
  {
  }

  /**
    Under the same conditions a second delivery of the event finds nothing,
    so it reports nothing and changes nothing.
  */
  lemma {:induction false} RedeliveryFindsNothing(
    s: Settings, table: Table, event: Event, items: seq<Item>, answers: seq<Answer>,
    again: seq<Item>, answersAgain: seq<Answer>)
    requires Matches(table, event.runId, items) && |answers| == |items|
    requires forall j :: 0 <= j < |items| ==> items[j].key.activityArn == s.activityArn && answers[j].delete.Ok?
    requires Handle(s, table, event, Found(items), answers).exit == Returned
    requires Matches(Handle(s, table, event, Found(items), answers).table, event.runId, again)
    requires |answersAgain| == |again|
    ensures again == []
    ensures var after := Handle(s, table, event, Found(items), answers).table;
      Handle(s, after, event, Found(again), answersAgain) == Outcome(after, [LookupCall(event)], Returned)
  {
    FirstMatch(Handle(s, table, event, Found(items), answers).table, event.runId, again);
    HandlerClearsRun(s, table, event, items, answers);
  }

  /** The body of the `for` loop for one item. */
  method ResolveOne(s: Settings, cloud: Cloud, item: Item, event: Event, answer: Answer) returns (exit: Exit)
    modifies cloud
    ensures var r := Resolve(s, old(cloud.table), item, event, answer);
      cloud.table == r.table && cloud.calls == old(cloud.calls) + r.calls && exit == r.exit
  {
    if event.state == "SUCCEEDED" {
      cloud.Send(SendTaskSuccess(item.record.taskToken, SuccessOutput(item, event)));
      if answer.report.Raised? {
        return Threw(answer.report.message);
      }
    } else if event.state in FailedStates {
      if event.message.None? {
        return Threw(MissingMessage);
      }
      var cause := FailureCause(item, event, event.message.value);
      cloud.Send(SendTaskFailure(item.record.taskToken, JobFailedError, Some(cause)));
      if answer.report.Raised? {
        return Threw(answer.report.message);
      }
    }
    var _ := cloud.Delete(Owner(s, item), answer.delete);
    exit := Returned;
  }

  /** `handler`, with the intended `except` clause: query the records of the event's run id, then report and delete item by item. */
  method Handler(s: Settings, cloud: Cloud, event: Event, lookup: Lookup, answers: seq<Answer>) returns (exit: Exit)
    requires lookup.Found? ==> |answers| == |lookup.items|
    modifies cloud
    ensures var r := Handle(s, old(cloud.table), event, lookup, answers);
      cloud.table == r.table && cloud.calls == old(cloud.calls) + r.calls && exit == r.exit
  {
    cloud.Send(LookupCall(event));
    match lookup
    case NotFound => return Returned;
    case Failed(message) => return Threw(message);
    case Found(items) =>
      ghost var h := Handle(s, old(cloud.table), event, lookup, answers);
      ghost var done := [LookupCall(event)];
      for i := 0 to |items|
        invariant cloud.calls == old(cloud.calls) + done
        invariant h == Then(done, ResolveAll(s, cloud.table, items, event, answers, i))
      {
        ghost var o := Resolve(s, cloud.table, items[i], event, answers[i]);
        exit := ResolveOne(s, cloud, items[i], event, answers[i]);
        Associative(old(cloud.calls), done, o.calls);
        if exit.Threw? {
          return;
        }
        ThenThen(done, o.calls, ResolveAll(s, o.table, items, event, answers, i + 1));
        done := done + o.calls;
      }
      assert done + [] == done;
      exit := Returned;
  }
}
