# Orchestrator workflow: task classification and fan-out, in Dafny

The workflow is a planner → orchestrator → workers → synthesizer graph. The
planner emits a fixed list of tasks. The orchestrator labels each task with
the agent that should run it, matching substrings in the lowercased
description: "task 1" means `worker_1`, otherwise "task 2" means
`worker_2`, and anything else gets the plain string label "END" (not the
graph library's own `END` node, whose name is `"__end__"`). The
`assign_tasks` router then sends one dispatch request (a LangGraph `Send`)
per worker-labelled task. Each worker appends one finished entry to the
accumulating `completed_tasks` field, whose reducer is list concatenation
(`operator.add`). The synthesizer then sets `final_output` and returns the
whole state as its update. That update includes `completed_tasks`, which the
reducer appends to itself, so every entry present at the join barrier ends
up twice: the fixed plan finishes with four entries, not two.

This project models that logic as pure functions over sequences:

- `text.dfy` (module `Text`): ASCII lowercasing (`Lower`) and Python's
  substring test `p in s` (`Contains`). `Contains` is proved equal to a
  reference definition: "p occurs at some index of s".
- `orchestration.dfy` (module `Orchestration`): the task records, the
  dispatch request, the classification rule `Classify`, the `Orchestrator`
  step and the `AssignTasks` router.
- `workers.dfy` (module `Workers`): the two workers, the `operator.add`
  reducer and the fold of worker updates into `completed_tasks` (`FanIn`).
- `pipeline.dfy` (module `Pipeline`): the run state, the fixed planner, a run
  up to the join barrier (`RunToBarrier`), the synthesizer's whole-state
  update (`Synthesizer`, applied by `ApplyUpdate`), the whole run (`Run`),
  and the end-to-end example.

Modelling choices:

- A planned task has only a description (`PlannedTask`). A labelled task
  also has its `agent_name` (`LabelledTask`). The router reads `agent_name`
  and would raise `KeyError` on a task without one. It only ever reads the
  orchestrator's output, so that error is ruled out by typing rather than
  modelled.
- `Send(target, {"current_task": {"description": d}})` is
  `Dispatch(target, SubState(PlannedTask(d)))`. The payload type has no room
  for `agent_name`, so the label is not forwarded.
- The workers' updates are merged in dispatch order. In the real program
  the join is performed by the graph library.

## Model

| member | source | states |
|---|---|---|
| Text.LowerChar | orchastrator_workflow.py:43 | lowering a character never yields an ASCII capital; only A-Z change, each to its lowercase letter |
| Text.Lower | orchastrator_workflow.py:43 | the lowered description has the same length and is lowered character by character |
| Text.LowerIdempotent | orchastrator_workflow.py:43 | lowering an already lowered description changes nothing |
| Text.ContainsIff | orchastrator_workflow.py:43 | `Text.Contains`, the executable scan used for Python's `in`, is true exactly when the pattern occurs at some index; this includes the empty pattern |
| Orchestration.Classify | orchastrator_workflow.py:43-51 | label is worker_1 iff the lowered description contains "task 1"; worker_2 iff it lacks "task 1" and contains "task 2" (so "task 1" wins when both occur); END iff it contains neither |
| Orchestration.ClassifyRange | orchastrator_workflow.py:43-51 | every label is one of worker_1, worker_2, END; a label names a worker exactly when it is not END |
| Orchestration.ClassifyIgnoresCase | orchastrator_workflow.py:43-46 | a description and its lowercase form get the same label |
| Orchestration.Orchestrator | orchastrator_workflow.py:40-52 | one labelled task per planned task, in order, nothing dropped; each output keeps its description and carries the classifier's label |
| Orchestration.AssignTasks | orchastrator_workflow.py:55-63 | every request targets worker_1 or worker_2 and comes from an input task with that label and the same description; never more requests than tasks, so empty input gives none |
| Orchestration.AssignTasksAppend | orchastrator_workflow.py:56-63 | routing a concatenation of task lists gives the concatenation of the requests, so input order is kept |
| Orchestration.AssignTasksSingle | orchastrator_workflow.py:58-62 | one task yields exactly its `Send`, built by `Orchestration.ToDispatch` (target = its label, payload = its description only), when labelled with a worker, and nothing otherwise |
| Orchestration.AssignTasksCount | orchastrator_workflow.py:56-63 | the number of requests equals the number of positions whose task is labelled worker_1 or worker_2 |
| Orchestration.AssignTasksNoWorkers | orchastrator_workflow.py:57-63 | when no task carries a worker label, there are no requests and the worker count is zero |
| Orchestration.AssignTasksOrder | orchastrator_workflow.py:56-63 | every worker-labelled task yields its request, and the request for the i-th task sits at the position given by the number of worker tasks before it, so input order is kept |
| Workers.RunDispatch | orchastrator_workflow.py:66-73 | a request to worker_1 runs `Workers.WorkerOne` and one to worker_2 runs `Workers.WorkerTwo`; either yields exactly one entry marked completed, whose description names the worker's task ("Task 1 created" / "Task 2 created") |
| Workers.AccumulateIsAppend | orchastrator_workflow.py:27 | merging updates in order with the reducer `Workers.Add` (list concatenation) leaves the old contents followed by every update's entries; nothing is lost or reordered |
| Workers.AccumulateSplit | orchastrator_workflow.py:27 | merging two batches of updates one after the other equals merging them as one batch |
| Workers.FanInAddsOnePerDispatch | orchastrator_workflow.py:66-73 | N dispatched workers add exactly N completed entries, in dispatch order, after the unchanged old entries |
| Pipeline.ExecuteCompletesWorkerTasks | orchastrator_workflow.py:40-73 | for any plan, `Pipeline.Execute` (orchestrator, router, workers, merge) keeps the old entries and adds one completed entry per task classified for a worker |
| Pipeline.ExecuteWithoutWorkerTasks | orchastrator_workflow.py:43-63 | a plan with no "task 1"/"task 2" mention dispatches nothing and leaves completed_tasks unchanged |
| Pipeline.ClassifyTaskOne | orchastrator_workflow.py:43-45 | "Task 1" is labelled worker_1 |
| Pipeline.ClassifyTaskTwo | orchastrator_workflow.py:46-48 | "Task 2" is labelled worker_2 |
| Pipeline.ExampleLabels | orchastrator_workflow.py:37-52 | the fixed plan of `Pipeline.Planner` (["Task 1", "Task 2"], whatever the query) is labelled [worker_1, worker_2] with descriptions kept |
| Pipeline.ExampleDispatches | orchastrator_workflow.py:55-63 | those labelled tasks give exactly [Dispatch(worker_1, "Task 1"), Dispatch(worker_2, "Task 2")] |
| Pipeline.SynthesizerRepeatsCompleted | orchastrator_workflow.py:76-78 | `Pipeline.Synthesizer` returns the whole state, and `Pipeline.ApplyUpdate` runs its `completed_tasks` through the reducer: the field becomes its old contents twice over; `final_output` is set to ("Task 1 and Task 2 created", true) and the other fields are kept |
| Pipeline.BarrierExample | orchastrator_workflow.py:36-73 | on any query the run up to the join barrier dispatches exactly worker_1 then worker_2 and leaves exactly two completed entries |
| Pipeline.RunExample | orchastrator_workflow.py:76-78 | the whole run (`Pipeline.Run`) ends with `final_output` set and four completed entries: the two barrier entries, then the same two again |

## Left out

- Graph construction and compilation with LangGraph (orchastrator_workflow.py:80-101): the library's routing, scheduling and join semantics are not part of the repository. A run is modelled directly as planner, orchestrator, router, workers, merge, synthesizer; a returned update is merged key by key, with `operator.add` for `completed_tasks`.
- The asynchronous entry point and concurrent execution of the workers (orchastrator_workflow.py:109-113): the library schedules them. The model merges worker results in dispatch order.
- Console output in the workers and `main` (orchastrator_workflow.py:67, 72, 111): I/O only.
- Rendering the graph to `graph.png` (orchastrator_workflow.py:103-106): a foreign call plus file I/O.
- The synthesizer's in-place write to its input dict (orchastrator_workflow.py:77): modelled only through the update it returns.
- The in-place mutation of the planner's task dicts (orchastrator_workflow.py:44, 47, 50): the orchestrator is modelled as a function returning new records. Python aliasing is not modelled.
- Text.Lower: lowers ASCII letters only, not the full Unicode `str.lower()`.
- A `None` description (allowed by the `Task` type at line 14) would make `.lower()` raise. The planner never produces one, so descriptions are plain strings.
- The `KeyError` that `assign_tasks` raises on a task without `agent_name` is excluded by typing, as explained above.
- The sub-state's own `completed_tasks` field (line 33) is not part of the dispatch payload. Workers' contributions are modelled as their returned updates.
- Workers.RunDispatch: requires a worker target. A `Send` bypasses the conditional-edge mapping (lines 92-95); it fails inside the library only when its target is not a registered node (lines 81-85). `AssignTasks` only ever targets worker_1 or worker_2, both registered.
- The general graph engine (step registration, edge validation, cycle checks, routing and merge-conflict errors) is not modelled. The repository itself implements none of it; the library provides it.
