/**
  A task is started at most once for each time it was made eligible. The proof counts tokens: a task
  carries one for being eligible and one for each copy of it on its way to a workflow.
 */
module SchedulerAtMostOnce {
  import opened Common
  import opened Batching
  import opened Scheduler
  import Runs

  /** Every live producer holds the lock, so there is at most one. */
  ghost predicate OneProducer(s: State) {
    forall pid :: pid in s.producers ==> s.lock == Some(pid)
  }

  /** The one producer at work; a producer that has fetched nothing claims nothing. */
  function Holder(s: State): Producer {
    if s.lock.Some? && s.lock.value in s.producers then s.producers[s.lock.value] else Locked
  }

  function Bit(b: bool): nat {
    if b then 1 else 0
  }

  predicate IsEligible(s: State, id: TaskId) {
    id in s.table && Eligible(s.table[id].status)
  }

  /** Tokens for being eligible, or for having been read as such by the producer at work. */
  function Claims(status: Option<Status>, id: TaskId, p: Producer): nat {
    var eligible := status.Some? && Eligible(status.value);
    match p
    case LockSet => Bit(eligible)
    case LockDropping => Bit(eligible)
    case Locked => Bit(eligible)
    case FetchedNew(news) =>
      var n := Occurs(id, news);
      n + Bit(eligible && !(status == Some(New) && n > 0))
    case Flushing(todo) => Queued(id, todo, eligible)
    case Appending(batch, rest) => Occurs(id, batch) + Queued(id, rest, eligible)
    case UpdatingAgain(batch, rest) => Queued(id, rest, eligible)
  }

  function Queued(id: TaskId, todo: seq<Batch>, eligible: bool): nat {
    if OccursIn(id, todo) > 0 then OccursIn(id, todo) else Bit(eligible)
  }

  function StatusOf(s: State, id: TaskId): Option<Status> {
    if id in s.table then Some(s.table[id].status) else None
  }

  function Load(id: TaskId, c: Consumer): nat {
    match c
    case Delivered(batch) => Occurs(id, batch)
    case Acknowledged(batch) => Occurs(id, batch)
    case Claiming(tasks) => Occurs(id, tasks)
    case Starting(tasks) => Occurs(id, tasks)
    case Ended => 0
  }

  function LoadAll(id: TaskId, cs: seq<Consumer>): nat {
    if cs == [] then 0 else Load(id, cs[0]) + LoadAll(id, cs[1..])
  }

  function Tokens(s: State, id: TaskId): nat {
    Claims(StatusOf(s, id), id, Holder(s)) + OccursIn(id, s.stream) + LoadAll(id, s.consumers)
  }

  function Budget(s: State, id: TaskId): nat {
    if id in s.table then 1 + s.putBack[id] else 0
  }

  ghost predicate Covered(s: State, id: TaskId) {
    s.started[id] + Tokens(s, id) <= Budget(s, id)
  }

  ghost predicate Inv(s: State) {
    OneProducer(s) && forall id :: Covered(s, id)
  }

  lemma {:induction false} LoadAllConcat(id: TaskId, a: seq<Consumer>, b: seq<Consumer>)
    ensures LoadAll(id, a + b) == LoadAll(id, a) + LoadAll(id, b)
  {
    if a == [] {
      assert a + b == b;
    } else {
      LoadAllConcat(id, a[1..], b);
      assert (a + b)[1..] == a[1..] + b;
    }
  }

  lemma {:induction false} LoadAllReplace(id: TaskId, cs: seq<Consumer>, k: nat, c: Consumer)
    requires k < |cs|
    ensures LoadAll(id, cs[k := c]) + Load(id, cs[k]) == LoadAll(id, cs) + Load(id, c)
  {
    if k == 0 {
      assert cs[k := c][1..] == cs[1..];
    } else {
      LoadAllReplace(id, cs[1..], k - 1, c);
      assert cs[k := c][1..] == cs[1..][k - 1 := c];
    }
  }

  lemma {:induction false} ValidOnlyOccurs(id: TaskId, tasks: seq<Task>)
    ensures Occurs(id, ValidOnly(tasks)) <= Occurs(id, tasks)
  {
    if tasks != [] {
      ValidOnlyOccurs(id, tasks[1..]);
      OccursConcat(id, if IsValidBusinessStatus(tasks[0]) then [tasks[0]] else [], ValidOnly(tasks[1..]));
    }
  }

  /** A query returns a row at most once, and only with the status asked for. */
  lemma {:induction false} SnapshotOccurs(id: TaskId, table: map<TaskId, Row>, ids: seq<TaskId>, status: Status)
    requires QueryResult(table, ids, status)
    ensures Occurs(id, Snapshot(table, ids)) <= 1
    ensures Occurs(id, Snapshot(table, ids)) > 0 ==> id in ids && id in table && table[id].status == status
  {
    if ids != [] {
      SnapshotOccurs(id, table, ids[1..], status);
      assert Snapshot(table, ids)[1..] == Snapshot(table, ids[1..]);
    }
  }

  lemma HasTaskOccurs(id: TaskId, tasks: seq<Task>)
    ensures HasTask(tasks, id) <==> Occurs(id, tasks) > 0
  {
    OccursIffMember(id, tasks);
  }

  /** What a producer's move does to the claims on one task, given the task's status before and after. */
  ghost predicate Passes(s: State, t: State, id: TaskId) {
    && t.started[id] == s.started[id]
    && Tokens(t, id) <= Tokens(s, id)
    && Budget(s, id) <= Budget(t, id)
  }

  lemma FetchPasses(s: State, pid: nat, action: ProducerAction, id: TaskId)
    requires s.lock == Some(pid) && pid in s.producers && Can(s, s.producers[pid], action)
    requires action.FetchNew? || action.FetchPending? || action.FetchFails?
    ensures Passes(s, Produced(s, pid, action), id)
  {
    match action
    case FetchNew(ids) => SnapshotOccurs(id, s.table, ids, New);
    case FetchPending(ids, batchSize) =>
      var news, pending := s.producers[pid].news, Snapshot(s.table, ids);
      SnapshotOccurs(id, s.table, ids, Pending);
      OccursConcat(id, news, pending);
      OccursInChunks(id, news + pending, batchSize);
    case FetchFails =>
  }

  lemma FlipStatus(s: State, tasks: seq<Task>, status: Status, id: TaskId)
    ensures StatusOf(s.(table := SetStatus(s.table, tasks, status)), id) ==
            if Occurs(id, tasks) > 0 && id in s.table then Some(status) else StatusOf(s, id)
  {
    HasTaskOccurs(id, tasks);
  }

  lemma UpdatePasses(s: State, pid: nat, reply: Reply, id: TaskId)
    requires s.lock == Some(pid) && pid in s.producers && Can(s, s.producers[pid], Update(reply))
    ensures Passes(s, Produced(s, pid, Update(reply)), id)
  {
    var todo := s.producers[pid].todo;
    assert OccursIn(id, todo) == Occurs(id, todo[0]) + OccursIn(id, todo[1..]);
    FlipStatus(s, todo[0], Processing, id);
  }

  lemma AppendPasses(s: State, pid: nat, reply: Reply, id: TaskId)
    requires s.lock == Some(pid) && pid in s.producers && Can(s, s.producers[pid], Append(reply))
    ensures Passes(s, Produced(s, pid, Append(reply)), id)
  {
    OccursInAppend(id, s.stream, s.producers[pid].batch);
  }

  lemma UpdateAgainPasses(s: State, pid: nat, reply: Reply, id: TaskId)
    requires s.lock == Some(pid) && pid in s.producers && Can(s, s.producers[pid], UpdateAgain(reply))
    ensures Passes(s, Produced(s, pid, UpdateAgain(reply)), id)
  {
    FlipStatus(s, s.producers[pid].batch, Processing, id);
  }

  lemma LeavePasses(s: State, pid: nat, unlock: bool, id: TaskId)
    requires s.lock == Some(pid) && pid in s.producers
    ensures Passes(s, Leave(s, pid, unlock), id)
  {
  }

  lemma ProducePasses(s: State, pid: nat, action: ProducerAction, id: TaskId)
    requires s.lock == Some(pid) && pid in s.producers && Can(s, s.producers[pid], action)
    ensures Passes(s, Produced(s, pid, action), id)
  {
    match action
    case SetExpiry(ok) =>
    case DropLock(reply) => LeavePasses(s, pid, !reply.Rejected?, id);
    case FetchNew(ids) => FetchPasses(s, pid, action, id);
    case FetchPending(ids, batchSize) => FetchPasses(s, pid, action, id);
    case FetchFails => FetchPasses(s, pid, action, id);
    case Update(reply) => UpdatePasses(s, pid, reply, id);
    case SerializeFails =>
    case Append(reply) => AppendPasses(s, pid, reply, id);
    case UpdateAgain(reply) => UpdateAgainPasses(s, pid, reply, id);
    case Release(reply) => LeavePasses(s, pid, !reply.Rejected?, id);
  }

  /** A status that stops being eligible frees claims, it never creates any. */
  lemma ClaimsMonotone(before: Option<Status>, after: Option<Status>, id: TaskId, p: Producer)
    requires after == before || !(after.Some? && Eligible(after.value))
    ensures Claims(after, id, p) <= Claims(before, id, p)
  {
  }

  lemma ClaimCovers(s: State, k: nat, reply: Reply, id: TaskId)
    requires k < |s.consumers| && s.consumers[k].Claiming? && Covered(s, id)
    ensures Covered(Consumed(s, k, Claim(reply)), id)
  {
    var tasks := s.consumers[k].tasks;
    var flipped := s.(table := SetStatus(s.table, tasks, ProcessStarted));
    LoadAllReplace(id, s.consumers, k, Ended);
    LoadAllReplace(id, s.consumers, k, Starting(tasks));
    FlipStatus(s, tasks, ProcessStarted, id);
    assert Holder(flipped) == Holder(s);
    ClaimsMonotone(StatusOf(s, id), StatusOf(flipped, id), id, Holder(s));
    assert Covered(flipped, id);
  }

  lemma ConsumeCovers(s: State, k: nat, action: ConsumerAction, id: TaskId)
    requires k < |s.consumers| && CanConsume(s.consumers[k], action) && Covered(s, id)
    ensures Covered(Consumed(s, k, action), id)
  {
    var c := s.consumers[k];
    LoadAllReplace(id, s.consumers, k, Ended);
    match action
    case Acknowledge(ok) => LoadAllReplace(id, s.consumers, k, Acknowledged(c.batch));
    case DeleteEntry(ok) =>
      ValidOnlyOccurs(id, c.batch);
      LoadAllReplace(id, s.consumers, k, Claiming(ValidOnly(c.batch)));
    case Claim(reply) => ClaimCovers(s, k, reply, id);
    case StartNext => LoadAllReplace(id, s.consumers, k, Starting(c.tasks[1..]));
    case Done =>
  }

  /** Making a task eligible adds at most the one token it also adds to the budget. */
  lemma PutCovers(s: State, id: TaskId, row: Row, other: TaskId)
    requires id in s.table && Covered(s, other)
    ensures Covered(PutRow(s, id, row), other)
  {
    var t := PutRow(s, id, row);
    assert Holder(t) == Holder(s);
    if other == id && !Eligible(row.status) {
      ClaimsMonotone(StatusOf(s, id), Some(row.status), id, Holder(s));
    } else if other == id {
      PutClaims(StatusOf(s, id), row.status, id, Holder(s));
    }
  }

  lemma PutClaims(before: Option<Status>, after: Status, id: TaskId, p: Producer)
    ensures Claims(Some(after), id, p) <= Claims(before, id, p) + 1
  {
  }

  lemma DeliverCovers(s: State, reply: Reply, id: TaskId)
    requires Next(s, Deliver(reply)).Some? && Covered(s, id)
    ensures Covered(Next(s, Deliver(reply)).value, id)
  {
    LoadAllConcat(id, s.consumers, [Delivered(s.stream[0])]);
  }

  lemma InsertCovers(s: State, id: TaskId, row: Row, other: TaskId)
    requires Next(s, Insert(id, row)).Some? && Covered(s, other)
    ensures Covered(Next(s, Insert(id, row)).value, other)
  {
    if other == id {
      PutClaims(None, New, id, Holder(s));
    }
  }

  lemma WorkflowCovers(s: State, other: TaskId, outcome: Option<Row>, id: TaskId)
    requires Next(s, WorkflowEnds(other, outcome)).Some? && Covered(s, id)
    ensures Covered(Next(s, WorkflowEnds(other, outcome)).value, id)
  {
    if outcome.Some? {
      PutCovers(s.(running := s.running - multiset{other}), other, outcome.value, id);
    }
  }

  lemma AcquireCovers(s: State, reply: Reply, id: TaskId)
    requires OneProducer(s) && Next(s, AcquireLock(reply)).Some? && Covered(s, id)
    ensures Covered(Next(s, AcquireLock(reply)).value, id)
  {
    assert s.producers == map[];
  }

  lemma StepCovers(s: State, step: Step, id: TaskId)
    requires OneProducer(s) && Covered(s, id) && Next(s, step).Some? && LockOutlivesHolder(s, step)
    ensures Covered(Next(s, step).value, id)
  {
    match step
    case Insert(other, row) => InsertCovers(s, other, row, id);
    case Put(other, row) => PutCovers(s, other, row, id);
    case LockExpires =>
    case AcquireLock(reply) => AcquireCovers(s, reply, id);
    case Produce(pid, action) => ProducePasses(s, pid, action, id);
    case ProducerCrash(pid) => LeavePasses(s, pid, false, id);
    case Deliver(reply) => DeliverCovers(s, reply, id);
    case Consume(k, action) => ConsumeCovers(s, k, action, id);
    case ConsumerCrash(k) => LoadAllReplace(id, s.consumers, k, Ended);
    case WorkflowEnds(other, outcome) => WorkflowCovers(s, other, outcome, id);
  }

  lemma OneProducerStep(s: State, step: Step)
    requires OneProducer(s) && Next(s, step).Some? && LockOutlivesHolder(s, step)
    ensures OneProducer(Next(s, step).value)
  {
    var t := Next(s, step).value;
    forall pid | pid in t.producers ensures t.lock == Some(pid) {
      assert step.AcquireLock? || pid in s.producers;
      if step.Produce? {
        assert s.lock == Some(step.pid);
      }
    }
  }

  /**
    In every run whose lock outlives its holder, with any number of producers and consumers, every
    await failing as it likes and rows rewritten by anybody: the number of workflows started for a
    task is at most one plus the number of times it was put back to New or Pending.
   */
  lemma AtMostOnce(s: State, steps: seq<Step>, t: State, id: TaskId)
    requires Initial(s) && Runs.After(Next, s, steps) == Some(t)
    requires Runs.Obeys(Next, LockOutlivesHolder, s, steps)
    ensures t.started[id] <= 1 + t.putBack[id]
  {
    assert Runs.Inductive(Next, LockOutlivesHolder, Inv) by {
      forall u, step | Inv(u) && LockOutlivesHolder(u, step) && Next(u, step).Some? ensures Inv(Next(u, step).value) {
        OneProducerStep(u, step);
        forall id ensures Covered(Next(u, step).value, id) {
          assert Covered(u, id);
          StepCovers(u, step, id);
        }
      }
    }
    forall id ensures Covered(s, id) {
    }
    Runs.Invariance(Next, LockOutlivesHolder, Inv, s, steps);
    assert Covered(t, id);
  }
}
