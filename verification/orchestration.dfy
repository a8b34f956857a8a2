/** The orchestrator step, which labels every planned task with the agent
    that should run it, and the `assign_tasks` router, which turns the
    labelled tasks into one dispatch request per worker task. */
module Orchestration {
  import opened Text

  /** A task as the planner emits it: only a free-text description. This is
      also the shape of the task handed to a worker in its sub-state. */
  datatype PlannedTask = PlannedTask(description: string)

  /** A task after the orchestrator has set its `agent_name`. */
  datatype LabelledTask = LabelledTask(description: string, agentName: string)

  /** The sub-state a dispatched worker receives: the current task alone. */
  datatype SubState = SubState(currentTask: PlannedTask)

  /** A dynamic dispatch request (a `Send`): run step `target` on `payload`. */
  datatype Dispatch = Dispatch(target: string, payload: SubState)

  const Worker1: string := "worker_1"
  const Worker2: string := "worker_2"
  /** The plain string label "END" (not the graph library's own end node):
      the task is not dispatched to any worker. */
  const EndLabel: string := "END"

  const Pattern1: string := "task 1"
  const Pattern2: string := "task 2"

  /** The labels the router knows as worker steps. */
  predicate IsWorkerLabel(agent: string) {
    agent == Worker1 || agent == Worker2
  }

  lemma LabelsDistinct()
    ensures Worker1 != Worker2 && Worker1 != EndLabel && Worker2 != EndLabel
  {
  }

  /** The classification rule for one description: "task 1" anywhere in the
      lowercased description wins, then "task 2", and everything else is
      labelled "END". */
  function Classify(description: string): (agent: string)
    ensures agent == Worker1 <==> IsSubstring(Pattern1, Lower(description))
    ensures agent == Worker2 <==>
      !IsSubstring(Pattern1, Lower(description)) && IsSubstring(Pattern2, Lower(description))
    ensures agent == EndLabel <==>
      !IsSubstring(Pattern1, Lower(description)) && !IsSubstring(Pattern2, Lower(description))
  {
    LabelsDistinct();
    ContainsIff(Lower(description), Pattern1);
    ContainsIff(Lower(description), Pattern2);
    if Contains(Lower(description), Pattern1) then Worker1
    else if Contains(Lower(description), Pattern2) then Worker2
    else EndLabel
  }

  /** Every label the classifier produces is one of the three known labels. */
  lemma ClassifyRange(description: string)
    ensures Classify(description) in {Worker1, Worker2, EndLabel}
    ensures IsWorkerLabel(Classify(description)) <==> Classify(description) != EndLabel
  {
    LabelsDistinct();
  }

  /** The match ignores ASCII case: a description and its lowercase form get
      the same label. */
  lemma ClassifyIgnoresCase(description: string)
    ensures Classify(Lower(description)) == Classify(description)
  {
    LowerIdempotent(description);
  }

  /** The orchestrator step: one labelled task per planned task, in order,
      with the description untouched and the label chosen by `Classify`. */
  function Orchestrator(planned: seq<PlannedTask>): (tasks: seq<LabelledTask>)
    ensures |tasks| == |planned|
    ensures forall i :: 0 <= i < |planned| ==>
      tasks[i].description == planned[i].description &&
      tasks[i].agentName == Classify(planned[i].description)
  {
    if |planned| == 0 then []
    else
      [LabelledTask(planned[0].description, Classify(planned[0].description))]
      + Orchestrator(planned[1..])
  }

  /** What the router sends for one worker task: the task's label becomes the
      target and only its description travels in the payload. */
  function ToDispatch(task: LabelledTask): Dispatch {
    Dispatch(task.agentName, SubState(PlannedTask(task.description)))
  }

  /** The `assign_tasks` router: one dispatch per task labelled with a worker,
      in input order; tasks with any other label produce nothing. */
  function AssignTasks(tasks: seq<LabelledTask>): (dispatches: seq<Dispatch>)
    ensures |dispatches| <= |tasks|
    ensures forall d :: d in dispatches ==> IsWorkerLabel(d.target)
    ensures forall d :: d in dispatches ==>
      LabelledTask(d.payload.currentTask.description, d.target) in tasks
  {
    if |tasks| == 0 then []
    else
      var rest := AssignTasks(tasks[1..]);
      assert forall t :: t in tasks[1..] ==> t in tasks;
      if IsWorkerLabel(tasks[0].agentName) then [ToDispatch(tasks[0])] + rest else rest
  }

  /** The router distributes over concatenation: splitting the task list
      anywhere and dispatching the halves one after the other gives the
      same requests. With `AssignTasksSingle` this pins down the order. */
  lemma {:induction false} AssignTasksAppend(a: seq<LabelledTask>, b: seq<LabelledTask>)
    ensures AssignTasks(a + b) == AssignTasks(a) + AssignTasks(b)
    decreases |a|
  {
    if |a| == 0 {
      assert a + b == b;
    } else {
      assert (a + b)[0] == a[0];
      assert (a + b)[1..] == a[1..] + b;
      AssignTasksAppend(a[1..], b);
    }
  }

  /** A single task yields one request when its label is a worker and none
      otherwise. */
  lemma AssignTasksSingle(t: LabelledTask)
    ensures AssignTasks([t]) == if IsWorkerLabel(t.agentName) then [ToDispatch(t)] else []
  {
    assert [t][1..] == [];
  }

  /** The positions of the tasks that carry a worker label. */
  function WorkerPositions(tasks: seq<LabelledTask>): set<int> {
    set i | 0 <= i < |tasks| && IsWorkerLabel(tasks[i].agentName)
  }

  /** How many tasks carry a worker label. */
  function WorkerCount(tasks: seq<LabelledTask>): nat {
    |WorkerPositions(tasks)|
  }

  /** The router emits exactly as many requests as there are worker-labelled
      tasks; tasks labelled "END" are silently dropped. */
  lemma {:induction false} AssignTasksCount(tasks: seq<LabelledTask>)
    ensures |AssignTasks(tasks)| == WorkerCount(tasks)
    decreases |tasks|
  {
    if |tasks| > 0 {
      var last := |tasks| - 1;
      var init := tasks[..last];
      assert tasks == init + [tasks[last]];
      AssignTasksAppend(init, [tasks[last]]);
      AssignTasksSingle(tasks[last]);
      AssignTasksCount(init);
      var tail: set<int> := if IsWorkerLabel(tasks[last].agentName) then {last} else {};
      assert WorkerPositions(tasks) == WorkerPositions(init) + tail;
      assert last !in WorkerPositions(init);
    }
  }

  /** When no task carries a worker label the router sends nothing, so the
      fan-out has zero children. */
  lemma {:induction false} AssignTasksNoWorkers(tasks: seq<LabelledTask>)
    requires forall i :: 0 <= i < |tasks| ==> !IsWorkerLabel(tasks[i].agentName)
    ensures AssignTasks(tasks) == []
    ensures WorkerCount(tasks) == 0
    decreases |tasks|
  {
    AssignTasksCount(tasks);
    if |tasks| > 0 {
      AssignTasksNoWorkers(tasks[1..]);
    }
  }

  /** The k-th request comes from the k-th worker-labelled task: the
      requests are the worker tasks' images, in input order. */
  lemma {:induction false} AssignTasksOrder(tasks: seq<LabelledTask>, i: nat)
    requires i < |tasks| && IsWorkerLabel(tasks[i].agentName)
    ensures WorkerCount(tasks[..i]) < |AssignTasks(tasks)|
    ensures AssignTasks(tasks)[WorkerCount(tasks[..i])] == ToDispatch(tasks[i])
  {
    assert tasks == tasks[..i] + ([tasks[i]] + tasks[i + 1..]);
    AssignTasksAppend(tasks[..i], [tasks[i]] + tasks[i + 1..]);
    AssignTasksAppend([tasks[i]], tasks[i + 1..]);
    AssignTasksSingle(tasks[i]);
    AssignTasksCount(tasks[..i]);
  }
}
