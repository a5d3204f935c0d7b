/**
  The managed services the glue runner and glue checker talk to, reduced to
  what they observe: the correlation table (a DynamoDB table keyed by
  `sfn_activity_arn` and `glue_job_run_id`) and the log of outbound calls to
  Step Functions, Glue and DynamoDB. What a service answers is passed in as
  a `Reply`; the class below applies the answer to the table and logs the call.
*/
module Services {
  import opened Wrappers
  import opened Json

  /** Primary key of a correlation record: partition key and sort key. */
  datatype Key = Key(activityArn: string, runId: string)

  /** The other attributes: `glue_job_name` and `sfn_task_token`. */
  datatype Record = Record(jobName: Json, taskToken: string)

  /** An item as a query returns it. */
  datatype Item = Item(key: Key, record: Record)

  type Table = map<Key, Record>

  /** One outbound call, with the arguments the source passes. */
  datatype Call =
    | GetActivityTask(activityArn: string, workerName: string)
    | Query(keyName: string, keyValue: string, limit: Option<int>)
    | StartJobRun(jobName: Json, arguments: map<string, Json>, maxCapacity: int)
    | PutItem(item: Item)
    | DeleteItem(key: Key)
    | GetJobRun(jobName: Json, runId: string)
    | SendTaskHeartbeat(token: string)
    | SendTaskSuccess(token: string, output: Json)
    | SendTaskFailure(token: string, error: string, cause: Option<Json>)

  /** How many calls of a log start a job run. */
  function Starts(calls: seq<Call>): nat {
    if calls == [] then 0 else (if calls[0].StartJobRun? then 1 else 0) + Starts(calls[1..])
  }

  /** How many calls of a log fetch an activity task. */
  function Fetches(calls: seq<Call>): nat {
    if calls == [] then 0 else (if calls[0].GetActivityTask? then 1 else 0) + Fetches(calls[1..])
  }

  /** How many calls of a log report a task's outcome to Step Functions. */
  function Reports(calls: seq<Call>): nat {
    if calls == [] then 0
    else (if calls[0].SendTaskSuccess? || calls[0].SendTaskFailure? then 1 else 0) + Reports(calls[1..])
  }

  lemma {:induction false} CountsAppend(a: seq<Call>, b: seq<Call>)
    ensures Starts(a + b) == Starts(a) + Starts(b)
    ensures Fetches(a + b) == Fetches(a) + Fetches(b)
    ensures Reports(a + b) == Reports(a) + Reports(b)
  {
    if a == [] {
      assert a + b == b;
    } else {
      assert (a + b)[0] == a[0];
      assert (a + b)[1..] == a[1..] + b;
      CountsAppend(a[1..], b);
    }
  }

  lemma CountsOne(c: Call)
    ensures Starts([c]) == (if c.StartJobRun? then 1 else 0)
    ensures Fetches([c]) == (if c.GetActivityTask? then 1 else 0)
    ensures Reports([c]) == (if c.SendTaskSuccess? || c.SendTaskFailure? then 1 else 0)
  {
    assert [c][1..] == [];
  }

  /** The table after `put_item(item)` answered `reply`: an insert or overwrite when it succeeded. */
  function AfterPut(table: Table, item: Item, reply: Reply<()>): (t: Table)
    ensures reply.Ok? ==> item.key in t && t[item.key] == item.record
    ensures forall k :: k != item.key ==> (k in t <==> k in table) && (k in t ==> t[k] == table[k])
    ensures reply.Raised? ==> t == table
  {
    if reply.Ok? then table[item.key := item.record] else table
  }

  /** The table after `delete_item(key)` answered `reply`; deleting an absent key is a no-op. */
  function AfterDelete(table: Table, key: Key, reply: Reply<()>): (t: Table)
    ensures reply.Ok? ==> key !in t
    ensures forall k :: k != key ==> (k in t <==> k in table) && (k in t ==> t[k] == table[k])
    ensures reply.Raised? ==> t == table
  {
    if reply.Ok? then table - {key} else table
  }

  /** How a handler invocation ends: normally, or with an exception carrying its text. */
  datatype Exit = Returned | Threw(message: string)

  /** The table and the calls a piece of the handler leaves behind, and how it ended. */
  datatype Outcome = Outcome(table: Table, calls: seq<Call>, exit: Exit)

  /** `calls` happened first, then `o`. */
  function Then(calls: seq<Call>, o: Outcome): Outcome {
    Outcome(o.table, calls + o.calls, o.exit)
  }

  lemma Associative<T>(a: seq<T>, b: seq<T>, c: seq<T>)
    ensures a + b + c == a + (b + c)
  {
  }

  lemma ThenThen(a: seq<Call>, b: seq<Call>, o: Outcome)
    ensures Then(a, Then(b, o)) == Then(a + b, o)
  {
    Associative(a, b, o.calls);
  }

  /** Every record of `after` is a record of `before`, unchanged. */
  predicate SubTable(after: Table, before: Table) {
    forall k :: k in after ==> k in before && after[k] == before[k]
  }

  /** Some queried item carries key `k`. */
  predicate InPage(items: seq<Item>, k: Key) {
    exists j :: 0 <= j < |items| && items[j].key == k
  }

  /** The state the Lambda functions change: the correlation table and the outbound call log. */
  class Cloud {
    var table: Table
    var calls: seq<Call>

    constructor (initial: Table)
      ensures table == initial && calls == []
    {
      table := initial;
      calls := [];
    }

    /** A call whose answer changes nothing the model keeps. */
    method Send(c: Call)
      modifies this
      ensures calls == old(calls) + [c] && table == old(table)
    {
      calls := calls + [c];
    }

    method Put(item: Item, reply: Reply<()>) returns (ok: bool)
      modifies this
      ensures ok == reply.Ok?
      ensures calls == old(calls) + [PutItem(item)]
      ensures table == AfterPut(old(table), item, reply)
    {
      calls := calls + [PutItem(item)];
      ok := reply.Ok?;
      if ok {
        table := table[item.key := item.record];
      }
    }

    method Delete(key: Key, reply: Reply<()>) returns (ok: bool)
      modifies this
      ensures ok == reply.Ok?
      ensures calls == old(calls) + [DeleteItem(key)]
      ensures table == AfterDelete(old(table), key, reply)
    {
      calls := calls + [DeleteItem(key)];
      ok := reply.Ok?;
      if ok {
        table := table - {key};
      }
    }
  }
}
