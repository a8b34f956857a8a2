/** One run of the workflow: planner, orchestrator, the router's fan-out to
    the workers, the merge of their results into `completed_tasks` at the
    join barrier, and finally the synthesizer. */
module Pipeline {
  import opened Text
  import opened Orchestration
  import opened Workers

  datatype Option<T> = None | Some(value: T)

  /** The synthesizer's result record. */
  datatype SynthesizedOutput = SynthesizedOutput(description: string, synthesized: bool)

  /** The shared run state. */
  datatype State = State(
    mainQuery: string,
    plannedTask: seq<PlannedTask>,
    orchestratedTasks: seq<LabelledTask>,
    completedTasks: seq<CompletedTask>,
    finalOutput: Option<SynthesizedOutput>)

  /** A fresh run starts from the query alone. */
  function Initial(query: string): State {
    State(query, [], [], [], None)
  }

  /** The planner: a fixed two-task plan, whatever the query. */
  function Planner(s: State): seq<PlannedTask> {
    [PlannedTask("Task 1"), PlannedTask("Task 2")]
  }

  /** Runs the steps after the planner on a given plan, up to the join
      barrier: the orchestrator's labels overwrite `orchestrated_tasks`, and
      every dispatched worker's entry is appended to `completed_tasks`. */
  function Execute(s: State, planned: seq<PlannedTask>): State {
    var labelled := Orchestrator(planned);
    var dispatches := AssignTasks(labelled);
    s.(plannedTask := planned,
       orchestratedTasks := labelled,
       completedTasks := FanIn(s.completedTasks, dispatches))
  }

  /** A run on a query, with the planner's own plan, up to the join barrier
      (before the synthesizer). */
  function RunToBarrier(query: string): State {
    var s := Initial(query);
    Execute(s, Planner(s))
  }

  /** The synthesizer: sets `final_output` and hands back the whole state as
      its update, `completed_tasks` included. */
  function Synthesizer(s: State): State {
    s.(finalOutput := Some(SynthesizedOutput("Task 1 and Task 2 created", true)))
  }

  /** Applies a step's update that carries every field: plain fields take the
      update's values, while `completed_tasks` goes through its reducer. */
  function ApplyUpdate(s: State, update: State): State {
    update.(completedTasks := Add(s.completedTasks, update.completedTasks))
  }

  /** A whole run on a query: up to the barrier, then the synthesizer. */
  function Run(query: string): State {
    var barrier := RunToBarrier(query);
    ApplyUpdate(barrier, Synthesizer(barrier))
  }

  /** Because the synthesizer returns the whole state, its update appends
      `completed_tasks` to itself: every entry present at the barrier ends
      up twice, while the other fields are kept and `final_output` is set. */
  lemma SynthesizerRepeatsCompleted(s: State)
    ensures |ApplyUpdate(s, Synthesizer(s)).completedTasks| == 2 * |s.completedTasks|
    ensures ApplyUpdate(s, Synthesizer(s)).completedTasks[..|s.completedTasks|] == s.completedTasks
    ensures ApplyUpdate(s, Synthesizer(s)).completedTasks[|s.completedTasks|..] == s.completedTasks
    ensures ApplyUpdate(s, Synthesizer(s)).finalOutput ==
      Some(SynthesizedOutput("Task 1 and Task 2 created", true))
    ensures ApplyUpdate(s, Synthesizer(s)).mainQuery == s.mainQuery
    ensures ApplyUpdate(s, Synthesizer(s)).plannedTask == s.plannedTask
    ensures ApplyUpdate(s, Synthesizer(s)).orchestratedTasks == s.orchestratedTasks
  {
  }

  /** For any plan, the run adds one completed entry per task the classifier
      sends to a worker, and nothing for tasks labelled "END". */
  lemma ExecuteCompletesWorkerTasks(s: State, planned: seq<PlannedTask>)
    ensures |Execute(s, planned).completedTasks| ==
      |s.completedTasks| + WorkerCount(Orchestrator(planned))
    ensures Execute(s, planned).completedTasks[..|s.completedTasks|] == s.completedTasks
    ensures forall k :: |s.completedTasks| <= k < |Execute(s, planned).completedTasks| ==>
      Execute(s, planned).completedTasks[k].completed
  {
    var labelled := Orchestrator(planned);
    var dispatches := AssignTasks(labelled);
    AssignTasksCount(labelled);
    FanInAddsOnePerDispatch(s.completedTasks, dispatches);
    assert Execute(s, planned).completedTasks == FanIn(s.completedTasks, dispatches);
  }

  /** A plan none of whose tasks mentions "task 1" or "task 2" dispatches
      nothing, and the run still reaches the barrier with the field
      unchanged. */
  lemma ExecuteWithoutWorkerTasks(s: State, planned: seq<PlannedTask>)
    requires forall i :: 0 <= i < |planned| ==>
      !IsSubstring(Pattern1, Lower(planned[i].description)) &&
      !IsSubstring(Pattern2, Lower(planned[i].description))
    ensures AssignTasks(Orchestrator(planned)) == []
    ensures Execute(s, planned).completedTasks == s.completedTasks
  {
    var labelled := Orchestrator(planned);
    LabelsDistinct();
    AssignTasksNoWorkers(labelled);
  }

  /** "Task 1" is classified for worker_1. */
  lemma ClassifyTaskOne()
    ensures Classify("Task 1") == Worker1
  {
    assert Lower("Task 1") == "task 1";
    assert OccursAt(Lower("Task 1"), Pattern1, 0);
  }

  /** "Task 2" is classified for worker_2: it lowercases to "task 2", where
      "task 1" can only sit at index 0 and does not. */
  lemma ClassifyTaskTwo()
    ensures Classify("Task 2") == Worker2
  {
    assert Lower("Task 2") == "task 2";
    assert OccursAt(Lower("Task 2"), Pattern2, 0);
  }

  /** The orchestrator labels the fixed plan worker_1, worker_2. */
  lemma ExampleLabels(query: string)
    ensures Orchestrator(Planner(Initial(query))) ==
      [LabelledTask("Task 1", Worker1), LabelledTask("Task 2", Worker2)]
  {
    ClassifyTaskOne();
    ClassifyTaskTwo();
  }

  /** The router turns those labels into one request per worker, in plan
      order, each carrying only its task's description. */
  lemma ExampleDispatches()
    ensures AssignTasks([LabelledTask("Task 1", Worker1), LabelledTask("Task 2", Worker2)]) ==
      [Dispatch(Worker1, SubState(PlannedTask("Task 1"))),
       Dispatch(Worker2, SubState(PlannedTask("Task 2")))]
  {
    var labelled := [LabelledTask("Task 1", Worker1), LabelledTask("Task 2", Worker2)];
    assert labelled == [labelled[0]] + [labelled[1]];
    AssignTasksAppend([labelled[0]], [labelled[1]]);
    AssignTasksSingle(labelled[0]);
    AssignTasksSingle(labelled[1]);
  }

  /** The end-to-end example up to the barrier: on any query the run
      dispatches worker_1 then worker_2 and the fan-out leaves exactly two
      completed entries. */
  lemma BarrierExample(query: string)
    ensures AssignTasks(RunToBarrier(query).orchestratedTasks) ==
      [Dispatch(Worker1, SubState(PlannedTask("Task 1"))),
       Dispatch(Worker2, SubState(PlannedTask("Task 2")))]
    ensures RunToBarrier(query).completedTasks ==
      [CompletedTask("Task 1 created", true), CompletedTask("Task 2 created", true)]
  {
    ExampleLabels(query);
    ExampleDispatches();
    LabelsDistinct();
    var dispatches := AssignTasks(RunToBarrier(query).orchestratedTasks);
    FanInAddsOnePerDispatch([], dispatches);
  }

  /** The whole run: the synthesizer sets `final_output` and its update
      repeats the two barrier entries, so the run ends with four. */
  lemma RunExample(query: string)
    ensures Run(query).finalOutput == Some(SynthesizedOutput("Task 1 and Task 2 created", true))
    ensures Run(query).completedTasks ==
      [CompletedTask("Task 1 created", true), CompletedTask("Task 2 created", true),
       CompletedTask("Task 1 created", true), CompletedTask("Task 2 created", true)]
  {
    BarrierExample(query);
    SynthesizerRepeatsCompleted(RunToBarrier(query));
  }
}
