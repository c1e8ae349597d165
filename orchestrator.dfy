/**
  The task orchestrator: a FIFO queue of tasks, a registry of final results
  keyed by task id, and the retry-with-exponential-backoff transition that
  runs one task once.

  The task bodies (code generation, test runs, deployment, GitHub calls) are
  external; one execution of a body is given to the model as an `Outcome`.
  Sleeping for the backoff delay is replaced by returning the delay.
*/
module Orchestrator {

  datatype Option<T> = None | Some(value: T)

  /** The four values the `status` string of a task takes. */
  datatype Status = Pending | Running | Completed | Failed

  /** A task's payload and a body's result dictionary, both opaque to the orchestrator. */
  type Payload = map<string, string>

  /** What one run of a task body did: returned a result, or raised an exception with a message. */
  datatype Outcome = Returned(result: Payload) | Raised(message: string)

  /** One entry of the results registry: the `"success"` and the `"failed"` dictionaries. */
  datatype Entry = Success(result: Payload) | Failure(error: string)

  /** What one call of execute_task did with the task. */
  datatype Effect =
    | Done(result: Payload)   // body finished (or type unknown): task completed, success recorded
    | Retry(delay: nat)       // body raised, retries left: task re-enqueued after `delay` seconds
    | GiveUp(error: string)   // body raised, retries exhausted: task failed, failure recorded

  /** The task types that have a body; any other type is answered with an error dictionary. */
  const KnownTypes: set<string> := {"code_generation", "test_execution", "deployment", "github_operation"}

  const DefaultPriority: int := 1
  const DefaultMaxRetries: int := 3
  const DefaultMaxParallel: int := 50

  /** The result an unknown task type produces instead of running a body. */
  function UnknownTypeResult(kind: string): (r: Payload)
    ensures r.Keys == {"error"}
  {
    map["error" := "Unknown task type: " + kind]
  }

  function Pow2(n: nat): (p: nat)
    ensures p >= 1
  {
    if n == 0 then 1 else 2 * Pow2(n - 1)
  }

  /** The backoff before a retry: 2 to the power of the retry count just reached. */
  function Backoff(retryCount: nat): nat
  {
    Pow2(retryCount)
  }

  /**
    The effect of one execution of a task of type `kind` whose retry counter
    stands at `retryCount`, when its body would behave as `outcome`.
  */
  function Attempt(kind: string, retryCount: nat, maxRetries: int, outcome: Outcome): (e: Effect)
    ensures e.Done? <==> kind !in KnownTypes || outcome.Returned?
    ensures e.Retry? <==> kind in KnownTypes && outcome.Raised? && retryCount + 1 < maxRetries
    ensures e.GiveUp? <==> kind in KnownTypes && outcome.Raised? && retryCount + 1 >= maxRetries
    ensures kind !in KnownTypes ==> e == Done(UnknownTypeResult(kind))
    ensures e.Retry? ==> e.delay >= 2
  {
    if kind !in KnownTypes then
      Done(UnknownTypeResult(kind))
    else
      match outcome
      case Returned(result) => Done(result)
      case Raised(message) =>
        if retryCount + 1 < maxRetries then Retry(Backoff(retryCount + 1)) else GiveUp(message)
  }

  function Max(a: int, b: int): int
  {
    if a < b then b else a
  }

  /**
    The effects of executing one task again and again, the body behaving as
    `outcomes` says on each run, until the task is completed or has failed
    (or the outcomes run out).
  */
  function Executions(kind: string, retryCount: nat, maxRetries: int, outcomes: seq<Outcome>): (trace: seq<Effect>)
    decreases |outcomes|
  {
    if outcomes == [] then []
    else
      var e := Attempt(kind, retryCount, maxRetries, outcomes[0]);
      if e.Retry? then [e] + Executions(kind, retryCount + 1, maxRetries, outcomes[1..]) else [e]
  }

  /**
    Within one chain of executions of a task (its run and the retries it
    re-enqueues itself), every execution but the last is a retry, so the chain
    completes or fails the task once. Adding a finished task again starts a new chain.
  */
  lemma {:induction false} OnlyLastSettles(kind: string, retryCount: nat, maxRetries: int, outcomes: seq<Outcome>)
    ensures |Executions(kind, retryCount, maxRetries, outcomes)| <= |outcomes|
    ensures forall i :: 0 <= i < |Executions(kind, retryCount, maxRetries, outcomes)| - 1 ==>
              Executions(kind, retryCount, maxRetries, outcomes)[i].Retry?
    decreases |outcomes|
  {
    if outcomes != [] && Attempt(kind, retryCount, maxRetries, outcomes[0]).Retry? {
      OnlyLastSettles(kind, retryCount + 1, maxRetries, outcomes[1..]);
    }
  }

  /**
    Whatever its body does, a task starting with `retryCount` is executed at
    most max(1, maxRetries - retryCount) times; the i-th retry waits 2^(retryCount+1+i).
  */
  lemma {:induction false} ExecutionsBounded(kind: string, retryCount: nat, maxRetries: int, outcomes: seq<Outcome>)
    ensures |Executions(kind, retryCount, maxRetries, outcomes)| <= Max(1, maxRetries - retryCount)
    ensures var trace := Executions(kind, retryCount, maxRetries, outcomes);
      forall i :: 0 <= i < |trace| && trace[i].Retry? ==> trace[i].delay == Pow2(retryCount + 1 + i)
    decreases |outcomes|
  {
    if outcomes != [] && Attempt(kind, retryCount, maxRetries, outcomes[0]).Retry? {
      ExecutionsBounded(kind, retryCount + 1, maxRetries, outcomes[1..]);
      var trace := Executions(kind, retryCount, maxRetries, outcomes);
      var rest := Executions(kind, retryCount + 1, maxRetries, outcomes[1..]);
      assert trace == [Attempt(kind, retryCount, maxRetries, outcomes[0])] + rest;
      forall i | 0 < i < |trace| && trace[i].Retry?
        ensures trace[i].delay == Pow2(retryCount + 1 + i)
      {
        assert trace[i] == rest[i - 1];
      }
    }
  }

  /**
    A task whose body always raises is executed exactly max(1, maxRetries - retryCount)
    times: it is re-enqueued after each run but the last, and the last run fails it
    with the body's message.
  */
  lemma {:induction false} AlwaysFailingExecutions(kind: string, retryCount: nat, maxRetries: int, message: string, outcomes: seq<Outcome>)
    requires kind in KnownTypes
    requires forall i :: 0 <= i < |outcomes| ==> outcomes[i] == Raised(message)
    requires |outcomes| >= Max(1, maxRetries - retryCount)
    ensures |Executions(kind, retryCount, maxRetries, outcomes)| == Max(1, maxRetries - retryCount)
    ensures Executions(kind, retryCount, maxRetries, outcomes)[Max(1, maxRetries - retryCount) - 1] == GiveUp(message)
    decreases |outcomes|
  {
    if retryCount + 1 < maxRetries {
      AlwaysFailingExecutions(kind, retryCount + 1, maxRetries, message, outcomes[1..]);
    }
  }

  /**
    Under the defaults (retry_count 0, max_retries 3) a task that always fails runs
    three times, waiting 2 and then 4 seconds between runs.
  */
  lemma DefaultAlwaysFailing(kind: string, message: string)
    requires kind in KnownTypes
    ensures Executions(kind, 0, DefaultMaxRetries, [Raised(message), Raised(message), Raised(message)])
            == [Retry(2), Retry(4), GiveUp(message)]
  {
    var outcomes := [Raised(message), Raised(message), Raised(message)];
    assert Executions(kind, 2, DefaultMaxRetries, outcomes[2..]) == [GiveUp(message)];
    assert Executions(kind, 1, DefaultMaxRetries, outcomes[1..]) == [Retry(4), GiveUp(message)];
  }

  /** Consecutive backoff delays double. */
  lemma BackoffDoubles(retryCount: nat)
    ensures Backoff(retryCount + 1) == 2 * Backoff(retryCount)
  {
  }

  /**
    An unknown task type is not a failure: whatever its (never called) body
    would do, it completes at once with an error dictionary.
  */
  lemma UnknownTypeCompletes(kind: string, retryCount: nat, maxRetries: int, outcomes: seq<Outcome>)
    requires kind !in KnownTypes && outcomes != []
    ensures Executions(kind, retryCount, maxRetries, outcomes) == [Done(UnknownTypeResult(kind))]
  {
  }

  /** A success rate completed * 100 / total, kept as a fraction num / den. */
  datatype Ratio = Ratio(num: nat, den: nat)

  datatype Stats = Stats(totalTasks: nat, completed: nat, failed: nat, successRate: Ratio, queueSize: nat)

  function SuccessIds(results: map<string, Entry>): set<string>
  {
    set id | id in results && results[id].Success?
  }

  function FailureIds(results: map<string, Entry>): set<string>
  {
    set id | id in results && results[id].Failure?
  }

  /** Every registry entry is either a success or a failure, never both. */
  lemma SuccessesAndFailuresPartition(results: map<string, Entry>)
    ensures SuccessIds(results) + FailureIds(results) == results.Keys
    ensures SuccessIds(results) * FailureIds(results) == {}
    ensures |SuccessIds(results)| + |FailureIds(results)| == |results|
  {
  }

  /** The statistics of a registry and a queue length. */
  function Summarize(results: map<string, Entry>, queueSize: nat): (s: Stats)
    ensures s.totalTasks == |results| && s.queueSize == queueSize
    ensures s.completed == |SuccessIds(results)| && s.failed == |FailureIds(results)|
    ensures s.completed + s.failed == s.totalTasks
    ensures s.successRate.den > 0 && s.successRate.num <= 100 * s.successRate.den
    ensures |results| == 0 ==> s.successRate == Ratio(0, 1)
    ensures |results| > 0 ==> s.successRate == Ratio(100 * s.completed, s.totalTasks)
  {
    SuccessesAndFailuresPartition(results);
    var completed := |SuccessIds(results)|;
    var failed := |FailureIds(results)|;
    assert completed <= |results|;
    var rate := if |results| > 0 then Ratio(100 * completed, |results|) else Ratio(0, 1);
    Stats(|results|, completed, failed, rate, queueSize)
  }

  /** Adding an entry under a new id adds that id to the ids of its own kind only. */
  lemma RecordNewId(results: map<string, Entry>, id: string, e: Entry)
    requires id !in results
    ensures SuccessIds(results[id := e]) == if e.Success? then SuccessIds(results) + {id} else SuccessIds(results)
    ensures FailureIds(results[id := e]) == if e.Failure? then FailureIds(results) + {id} else FailureIds(results)
  {
  }

  /**
    Recording an entry under an id: a new id adds one task to the total and one
    to its own kind's count; an id already present is overwritten, so the total
    counts distinct ids.
  */
  lemma RecordEntry(results: map<string, Entry>, id: string, e: Entry, queueSize: nat)
    ensures var before, after := Summarize(results, queueSize), Summarize(results[id := e], queueSize);
      && (id !in results ==> after.totalTasks == before.totalTasks + 1)
      && (id in results ==> after.totalTasks == before.totalTasks)
      && (id !in results && e.Success? ==> after.completed == before.completed + 1 && after.failed == before.failed)
      && (id !in results && e.Failure? ==> after.failed == before.failed + 1 && after.completed == before.completed)
  {
    if id !in results {
      RecordNewId(results, id, e);
    } else {
      assert results[id := e].Keys == results.Keys;
    }
  }

  /** The `Task` record; `status` and `retryCount` are updated in place by the orchestrator. */
  class Task {
    const id: string
    const kind: string
    const payload: Payload
    const priority: int
    const maxRetries: int
    var retryCount: nat
    var status: Status

    constructor (id: string, kind: string, payload: Payload, priority: int := DefaultPriority,
                 retryCount: nat := 0, maxRetries: int := DefaultMaxRetries, status: Status := Pending)
      ensures this.id == id && this.kind == kind && this.payload == payload
      ensures this.priority == priority && this.retryCount == retryCount
      ensures this.maxRetries == maxRetries && this.status == status
    {
      this.id := id;
      this.kind := kind;
      this.payload := payload;
      this.priority := priority;
      this.retryCount := retryCount;
      this.maxRetries := maxRetries;
      this.status := status;
    }
  }

  class HypervelocityOrchestrator {
    const maxParallel: int
    var queue: seq<Task>
    var results: map<string, Entry>

    constructor (maxParallel: int := DefaultMaxParallel)
      ensures this.maxParallel == maxParallel
      ensures queue == [] && results == map[]
    {
      this.maxParallel := maxParallel;
      queue := [];
      results := map[];
    }

    /** Puts a task at the back of the queue; its priority plays no part. */
    method AddTask(task: Task)
      modifies this
      ensures queue == old(queue) + [task]
      ensures results == old(results)
    {
      queue := queue + [task];
    }

    /** Takes the task at the front of the queue; None stands for the worker's one-second timeout. */
    method NextTask() returns (next: Option<Task>)
      modifies this
      ensures old(queue) == [] ==> next == None && queue == []
      ensures old(queue) != [] ==> next == Some(old(queue)[0]) && queue == old(queue)[1..]
      ensures results == old(results)
    {
      if queue == [] {
        next := None;
      } else {
        next := Some(queue[0]);
        queue := queue[1..];
      }
    }

    /**
      Runs `task` once, its body (when its type has one) behaving as `outcome`.
      The effect is the one `Attempt` describes; the task, the queue and the
      registry change accordingly and in no other way.
    */
    method ExecuteTask(task: Task, outcome: Outcome) returns (effect: Effect)
      modifies this, task
      ensures effect == Attempt(task.kind, old(task.retryCount), task.maxRetries, outcome)
      ensures effect.Done? ==>
        && task.status == Completed && task.retryCount == old(task.retryCount)
        && results == old(results)[task.id := Success(effect.result)] && queue == old(queue)
      ensures effect.Retry? ==>
        && task.status == Running && task.retryCount == old(task.retryCount) + 1
        && effect.delay == Backoff(task.retryCount)
        && results == old(results) && queue == old(queue) + [task]
      ensures effect.GiveUp? ==>
        && task.status == Failed && task.retryCount == old(task.retryCount) + 1
        && results == old(results)[task.id := Failure(effect.error)] && queue == old(queue)
    {
      task.status := Running;
      var body: Outcome;
      if task.kind in KnownTypes {
        body := outcome;
      } else {
        body := Returned(UnknownTypeResult(task.kind));
      }
      match body {
        case Returned(result) =>
          task.status := Completed;
          results := results[task.id := Success(result)];
          effect := Done(result);
        case Raised(message) =>
          task.retryCount := task.retryCount + 1;
          if task.retryCount < task.maxRetries {
            effect := Retry(Backoff(task.retryCount));
            queue := queue + [task];
          } else {
            task.status := Failed;
            results := results[task.id := Failure(message)];
            effect := GiveUp(message);
          }
      }
    }

    /**
      The statistics get_stats reports: every registry entry is counted once,
      as completed or as failed, and the success rate is a percentage.
    */
    function GetStats(): (s: Stats)
      reads this
      ensures s.totalTasks == |results| && s.queueSize == |queue|
      ensures s.completed == |SuccessIds(results)| && s.failed == |FailureIds(results)|
      ensures s.completed + s.failed == s.totalTasks
      ensures s.successRate.den > 0 && s.successRate.num <= 100 * s.successRate.den
      ensures |results| == 0 ==> s.successRate == Ratio(0, 1)
      ensures |results| > 0 ==> s.successRate == Ratio(100 * s.completed, s.totalTasks)
    {
      Summarize(results, |queue|)
    }
  }
}
