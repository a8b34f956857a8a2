/** The two worker steps and the way their partial updates are merged into
    the accumulating `completed_tasks` field, whose reducer is list
    concatenation (`operator.add`). */
module Workers {
  import opened Orchestration

  /** One entry of `completed_tasks`. */
  datatype CompletedTask = CompletedTask(description: string, completed: bool)

  /** `worker_1`: reports its task done, whatever the payload says. */
  function WorkerOne(sub: SubState): seq<CompletedTask> {
    [CompletedTask("Task 1 created", true)]
  }

  /** `worker_2`: reports its task done, whatever the payload says. */
  function WorkerTwo(sub: SubState): seq<CompletedTask> {
    [CompletedTask("Task 2 created", true)]
  }

  /** Runs the worker step a request targets, through the router's mapping
      from label to step; each worker contributes exactly one finished
      entry. */
  function RunDispatch(d: Dispatch): (update: seq<CompletedTask>)
    requires IsWorkerLabel(d.target)
    ensures |update| == 1 && update[0].completed
    ensures update[0].description == (if d.target == Worker1 then "Task 1 created" else "Task 2 created")
  {
    if d.target == Worker1 then WorkerOne(d.payload) else WorkerTwo(d.payload)
  }

  /** The reducer of `completed_tasks`: list concatenation. */
  function Add(current: seq<CompletedTask>, update: seq<CompletedTask>): seq<CompletedTask> {
    current + update
  }

  /** Applies partial updates to the field one after another, in order. */
  function Accumulate(current: seq<CompletedTask>, updates: seq<seq<CompletedTask>>): seq<CompletedTask>
    decreases |updates|
  {
    if |updates| == 0 then current else Accumulate(Add(current, updates[0]), updates[1..])
  }

  /** All entries of a list of updates, in order. */
  function Flatten(updates: seq<seq<CompletedTask>>): seq<CompletedTask> {
    if |updates| == 0 then [] else updates[0] + Flatten(updates[1..])
  }

  /** Merging is lossless and order-keeping: the field ends up as its old
      contents followed by every update's entries, in update order. */
  lemma {:induction false} AccumulateIsAppend(current: seq<CompletedTask>, updates: seq<seq<CompletedTask>>)
    ensures Accumulate(current, updates) == current + Flatten(updates)
    decreases |updates|
  {
    if |updates| > 0 {
      AccumulateIsAppend(current + updates[0], updates[1..]);
      assert current + updates[0] + Flatten(updates[1..]) == current + (updates[0] + Flatten(updates[1..]));
    }
  }

  /** Merging one batch of updates and then another equals merging them as
      a single batch: the reducer is associative, so the split of sibling
      results into merge steps does not change the field. */
  lemma {:induction false} AccumulateSplit(current: seq<CompletedTask>, us: seq<seq<CompletedTask>>, vs: seq<seq<CompletedTask>>)
    ensures Accumulate(current, us + vs) == Accumulate(Accumulate(current, us), vs)
    decreases |us|
  {
    if |us| == 0 {
      assert us + vs == vs;
    } else {
      assert (us + vs)[0] == us[0];
      assert (us + vs)[1..] == us[1..] + vs;
      AccumulateSplit(current + us[0], us[1..], vs);
    }
  }

  /** The partial updates the dispatched workers return, in dispatch order. */
  function Updates(dispatches: seq<Dispatch>): (updates: seq<seq<CompletedTask>>)
    requires forall d :: d in dispatches ==> IsWorkerLabel(d.target)
    ensures |updates| == |dispatches|
    ensures forall k :: 0 <= k < |dispatches| ==> updates[k] == RunDispatch(dispatches[k])
  {
    if |dispatches| == 0 then [] else [RunDispatch(dispatches[0])] + Updates(dispatches[1..])
  }

  /** The join: every dispatched worker's update is merged into the field. */
  function FanIn(current: seq<CompletedTask>, dispatches: seq<Dispatch>): seq<CompletedTask>
    requires forall d :: d in dispatches ==> IsWorkerLabel(d.target)
  {
    Accumulate(current, Updates(dispatches))
  }

  /** Each update of one entry adds exactly one entry. */
  lemma {:induction false} FlattenSingletons(updates: seq<seq<CompletedTask>>)
    requires forall k :: 0 <= k < |updates| ==> |updates[k]| == 1
    ensures |Flatten(updates)| == |updates|
    ensures forall k :: 0 <= k < |updates| ==> Flatten(updates)[k] == updates[k][0]
    decreases |updates|
  {
    if |updates| > 0 {
      FlattenSingletons(updates[1..]);
    }
  }

  /** N dispatched workers add exactly N entries, all marked completed, in
      dispatch order after the existing ones, which are left as they were. */
  lemma FanInAddsOnePerDispatch(current: seq<CompletedTask>, dispatches: seq<Dispatch>)
    requires forall d :: d in dispatches ==> IsWorkerLabel(d.target)
    ensures |FanIn(current, dispatches)| == |current| + |dispatches|
    ensures FanIn(current, dispatches)[..|current|] == current
    ensures forall k :: |current| <= k < |FanIn(current, dispatches)| ==>
      FanIn(current, dispatches)[k] == RunDispatch(dispatches[k - |current|])[0] &&
      FanIn(current, dispatches)[k].completed
  {
    var updates := Updates(dispatches);
    AccumulateIsAppend(current, updates);
    FlattenSingletons(updates);
    var r := FanIn(current, dispatches);
    forall k | |current| <= k < |r|
      ensures r[k] == RunDispatch(dispatches[k - |current|])[0]
    {
      assert r[k] == Flatten(updates)[k - |current|];
    }
  }
}
