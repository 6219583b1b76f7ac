/**
  Producer conservation inside interleaved runs: what one producer's own steps do to the copies of a
  task it fetched, whatever other producers, consumers, workflows and crashes do in between.
 */
module SchedulerLedger {
  import opened Common
  import opened Batching
  import opened Scheduler
  import Runs

  /** Copies of a task whose update was refused, whose update took effect, and that were appended. */
  datatype Ledger = Ledger(refused: nat, flipped: nat, appended: nat)

  const Empty := Ledger(0, 0, 0)

  function Plus(a: Ledger, b: Ledger): Ledger {
    Ledger(a.refused + b.refused, a.flipped + b.flipped, a.appended + b.appended)
  }

  /** What one step of producer `pid`, taken in `s`, enters for the task. */
  function Entered(s: State, step: Step, pid: nat, id: TaskId): Ledger {
    if !(step.Produce? && step.pid == pid && pid in s.producers && Can(s, s.producers[pid], step.produce)) then Empty else
      var p := s.producers[pid];
      match step.produce
      case Update(reply) =>
        var n := Occurs(id, p.todo[0]);
        if reply.Rejected? then Ledger(n, 0, 0) else Ledger(0, n, 0)
      case Append(reply) => Ledger(0, 0, if reply.Rejected? then 0 else Occurs(id, p.batch))
      case _ => Empty
  }

  function LedgerOf(s: State, steps: seq<Step>, pid: nat, id: TaskId): Ledger {
    if steps == [] then Empty else
      var front, last := steps[..|steps| - 1], steps[|steps| - 1];
      match Runs.After(Next, s, front)
      case None => LedgerOf(s, front, pid, id)
      case Some(u) => Plus(LedgerOf(s, front, pid, id), Entered(u, last, pid, id))
  }

  /** The entries are real: appended copies are in the stream, flipped ones Processing, refused ones untouched. */
  lemma EntriesAreReal(s: State, pid: nat, action: ProducerAction, id: TaskId)
    requires pid in s.producers && Can(s, s.producers[pid], action)
    ensures var e, t := Entered(s, Produce(pid, action), pid, id), Produced(s, pid, action);
      && OccursIn(id, t.stream) == OccursIn(id, s.stream) + e.appended
      && (e.flipped > 0 && id in s.table ==> id in t.table && t.table[id] == s.table[id].(status := Processing))
      && (e.refused > 0 ==> t.table == s.table)
  {
    match action
    case Update(reply) => OccursIffMember(id, s.producers[pid].todo[0]);
    case Append(reply) => OccursInAppend(id, s.stream, s.producers[pid].batch);
    case _ =>
  }

  /** Copies the producer has not come to yet. */
  function Todo(id: TaskId, p: Producer): nat {
    match p
    case Flushing(todo) => OccursIn(id, todo)
    case Appending(batch, rest) => OccursIn(id, rest)
    case UpdatingAgain(batch, rest) => OccursIn(id, rest)
    case _ => 0
  }

  /** Copies flipped and about to be appended. */
  function InHand(id: TaskId, p: Producer): nat {
    if p.Appending? then Occurs(id, p.batch) else 0
  }

  predicate AtWork(p: Producer) {
    p.Flushing? || p.Appending? || p.UpdatingAgain?
  }

  /** Of `total` copies fetched, every one is refused, flipped or still to come; only flipped ones are appended. */
  ghost predicate Balanced(s: State, pid: nat, id: TaskId, total: nat, l: Ledger) {
    && pid < s.nextProducer
    && l.refused + l.flipped <= total && l.appended <= l.flipped
    && (pid in s.producers ==>
          && AtWork(s.producers[pid])
          && l.refused + l.flipped + Todo(id, s.producers[pid]) == total
          && l.appended + InHand(id, s.producers[pid]) <= l.flipped)
  }

  lemma OwnStepBalances(s: State, pid: nat, action: ProducerAction, id: TaskId, total: nat, l: Ledger)
    requires Balanced(s, pid, id, total, l) && pid in s.producers && Can(s, s.producers[pid], action)
    ensures Balanced(Produced(s, pid, action), pid, id, total, Plus(l, Entered(s, Produce(pid, action), pid, id)))
  {
  }

  lemma StepBalances(s: State, step: Step, pid: nat, id: TaskId, total: nat, l: Ledger)
    requires Balanced(s, pid, id, total, l) && Next(s, step).Some?
    ensures Balanced(Next(s, step).value, pid, id, total, Plus(l, Entered(s, step, pid, id)))
  {
    if step.Produce? && step.pid == pid {
      OwnStepBalances(s, pid, step.produce, id, total, l);
    } else {
      var t := Next(s, step).value;
      assert s.nextProducer <= t.nextProducer;
      assert pid in t.producers ==> pid in s.producers && t.producers[pid] == s.producers[pid];
    }
  }

  lemma {:induction false} EveryRunBalances(s: State, steps: seq<Step>, t: State, pid: nat, id: TaskId, total: nat)
    requires Balanced(s, pid, id, total, Empty) && Runs.After(Next, s, steps) == Some(t)
    ensures Balanced(t, pid, id, total, LedgerOf(s, steps, pid, id))
    decreases |steps|
  {
    if steps != [] {
      var front, last := steps[..|steps| - 1], steps[|steps| - 1];
      var u := Runs.After(Next, s, front).value;
      EveryRunBalances(s, front, u, pid, id, total);
      StepBalances(u, last, pid, id, total, LedgerOf(s, front, pid, id));
    }
  }

  ghost predicate Numbered(s: State) {
    forall pid :: pid in s.producers ==> pid < s.nextProducer
  }

  lemma StepNumbers(s: State, step: Step)
    requires Numbered(s) && Next(s, step).Some?
    ensures Numbered(Next(s, step).value)
  {
    var t := Next(s, step).value;
    assert s.nextProducer <= t.nextProducer;
    assert step.AcquireLock? || t.producers.Keys <= s.producers.Keys;
  }

  lemma EveryRunNumbers(s: State, steps: seq<Step>, t: State)
    requires Initial(s) && Runs.After(Next, s, steps) == Some(t)
    ensures Numbered(t)
  {
    forall u, step | Numbered(u) && Next(u, step).Some? ensures Numbered(Next(u, step).value) {
      StepNumbers(u, step);
    }
    Runs.AnythingGoes(Next, s, steps);
    Runs.Invariance(Next, Runs.Anything, Numbered, s, steps);
  }

  /**
    From the moment `s` of any run at which a producer holds its batches, whatever anybody else does
    afterwards: no copy of a fetched task is flipped or appended twice, and none is appended without
    having been flipped. When the producer has come to the end, every copy was either refused and
    never appended, or flipped; so a task fetched once ends in exactly one of three ways.
   */
  lemma ConservationInEveryRun(start: State, before: seq<Step>, s: State, steps: seq<Step>, t: State, pid: nat, id: TaskId)
    requires Initial(start) && Runs.After(Next, start, before) == Some(s) && Runs.After(Next, s, steps) == Some(t)
    requires pid in s.producers && s.producers[pid].Flushing?
    ensures var total, l := OccursIn(id, s.producers[pid].todo), LedgerOf(s, steps, pid, id);
      && l.appended <= l.flipped <= l.refused + l.flipped <= total
      && (pid in t.producers && t.producers[pid] == Flushing([]) ==>
            && l.refused + l.flipped == total
            && (total == 1 ==> l == Ledger(1, 0, 0) || l == Ledger(0, 1, 1) || l == Ledger(0, 1, 0)))
  {
    EveryRunNumbers(start, before, s);
    EveryRunBalances(s, steps, t, pid, id, OccursIn(id, s.producers[pid].todo));
  }
}
