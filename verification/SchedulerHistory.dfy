/** The history the scheduler's states carry is that of the run, so the bound on starts is one about its steps. */
module SchedulerHistory {
  import opened Common
  import opened Batching
  import opened Scheduler
  import SchedulerAtMostOnce
  import Runs

  /** The step starts a workflow for the task. */
  predicate StartsTask(s: State, step: Step, id: TaskId) {
    && step.Consume? && step.consume.StartNext? && step.k < |s.consumers|
    && s.consumers[step.k].Starting? && s.consumers[step.k].tasks != [] && s.consumers[step.k].tasks[0].id == id
  }

  /** The step makes an existing task New or Pending. */
  predicate PutsBack(step: Step, id: TaskId) {
    match step
    case Put(other, row) => other == id && (row.status == New || row.status == Pending)
    case WorkflowEnds(other, Some(row)) => other == id && (row.status == New || row.status == Pending)
    case _ => false
  }

  function PutBacks(steps: seq<Step>, id: TaskId): nat {
    if steps == [] then 0
    else PutBacks(steps[..|steps| - 1], id) + if PutsBack(steps[|steps| - 1], id) then 1 else 0
  }

  function Starts(s: State, steps: seq<Step>, id: TaskId): nat {
    if steps == [] then 0 else
      var front := steps[..|steps| - 1];
      Starts(s, front, id) +
        match Runs.After(Next, s, front)
        case None => 0
        case Some(u) => if StartsTask(u, steps[|steps| - 1], id) then 1 else 0
  }

  lemma ProducersLeaveHistory(s: State, pid: nat, action: ProducerAction)
    requires pid in s.producers && Can(s, s.producers[pid], action)
    ensures Produced(s, pid, action).started == s.started && Produced(s, pid, action).putBack == s.putBack
  {
  }

  lemma ConsumersStart(s: State, k: nat, action: ConsumerAction, id: TaskId)
    requires k < |s.consumers| && CanConsume(s.consumers[k], action)
    ensures Consumed(s, k, action).putBack == s.putBack
    ensures Consumed(s, k, action).started[id] == s.started[id] + if StartsTask(s, Consume(k, action), id) then 1 else 0
  {
  }

  lemma PutsRecord(s: State, other: TaskId, row: Row, id: TaskId)
    ensures PutRow(s, other, row).started == s.started
    ensures PutRow(s, other, row).putBack[id] == s.putBack[id] + if PutsBack(Put(other, row), id) then 1 else 0
  {
  }

  lemma StepRecords(s: State, step: Step, id: TaskId)
    requires Next(s, step).Some?
    ensures Next(s, step).value.started[id] == s.started[id] + if StartsTask(s, step, id) then 1 else 0
    ensures Next(s, step).value.putBack[id] == s.putBack[id] + if PutsBack(step, id) then 1 else 0
  {
    match step
    case Produce(pid, action) => ProducersLeaveHistory(s, pid, action);
    case Consume(k, action) => ConsumersStart(s, k, action, id);
    case Put(other, row) => PutsRecord(s, other, row, id);
    case WorkflowEnds(other, outcome) =>
      if outcome.Some? {
        PutsRecord(s.(running := s.running - multiset{other}), other, outcome.value, id);
      }
    case _ =>
  }

  lemma {:induction false} HistoryIsTheRuns(s: State, steps: seq<Step>, t: State, id: TaskId)
    requires Initial(s) && Runs.After(Next, s, steps) == Some(t)
    ensures t.started[id] == Starts(s, steps, id) && t.putBack[id] == PutBacks(steps, id)
    decreases |steps|
  {
    if steps != [] {
      var front := steps[..|steps| - 1];
      var u := Runs.After(Next, s, front).value;
      HistoryIsTheRuns(s, front, u, id);
      StepRecords(u, steps[|steps| - 1], id);
    }
  }

  /**
    In every run whose lock outlives its holder, the steps that start a workflow for a task are at most
    one more than the steps that put it back to New or Pending.
   */
  lemma StartedAtMostOncePerPutBack(s: State, steps: seq<Step>, t: State, id: TaskId)
    requires Initial(s) && Runs.After(Next, s, steps) == Some(t) && Runs.Obeys(Next, LockOutlivesHolder, s, steps)
    ensures Starts(s, steps, id) <= 1 + PutBacks(steps, id)
  {
    HistoryIsTheRuns(s, steps, t, id);
    SchedulerAtMostOnce.AtMostOnce(s, steps, t, id);
  }
}
