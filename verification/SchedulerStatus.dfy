/**
  Where a task is decides its status. Assumed of the surroundings: the lock outlives its holder, an
  append reported as failed left no entry, and while a task is on its way only its own workflow
  rewrites its row, as the last thing it does. The row of a task at rest may be rewritten by anybody.
  Then a task is in one place at a time, and the place fixes the status.
 */
module SchedulerStatus {
  import opened Common
  import opened Batching
  import opened Scheduler
  import opened SchedulerAtMostOnce
  import Runs

  /** Copies of a task read by the producer and not yet flipped. */
  function Read(id: TaskId, p: Producer): nat {
    match p
    case FetchedNew(news) => Occurs(id, news)
    case Flushing(todo) => OccursIn(id, todo)
    case Appending(batch, rest) => OccursIn(id, rest)
    case UpdatingAgain(batch, rest) => OccursIn(id, rest)
    case _ => 0
  }

  /** Copies of a task in the batch the producer has flipped and not yet disposed of. */
  function Flipped(id: TaskId, p: Producer): nat {
    match p
    case Appending(batch, rest) => Occurs(id, batch)
    case UpdatingAgain(batch, rest) => Occurs(id, batch)
    case _ => 0
  }

  function Handing(id: TaskId, c: Consumer): nat {
    if c.Starting? then Occurs(id, c.tasks) else 0
  }

  /** Copies with consumers that have already flipped them. */
  function HandingAll(id: TaskId, cs: seq<Consumer>): nat {
    if cs == [] then 0 else Handing(id, cs[0]) + HandingAll(id, cs[1..])
  }

  /** Copies of a task anywhere between being fetched and its workflow's end. */
  function Copies(s: State, id: TaskId): nat {
    Read(id, Holder(s)) + Flipped(id, Holder(s)) + OccursIn(id, s.stream) + LoadAll(id, s.consumers) + s.running[id]
  }

  ghost predicate Disciplined(s: State, step: Step) {
    && LockOutlivesHolder(s, step)
    && (step.Put? ==> Copies(s, step.id) == 0)
    && (step.Produce? && step.produce.Append? ==> !step.produce.reply.Unheard?)
  }

  /** This excludes three things only. */
  lemma DisciplineExcludesOnly(s: State, step: Step)
    ensures !Disciplined(s, step) <==>
      || (step == LockExpires && exists pid :: pid in s.producers && s.lock == Some(pid))
      || (step.Put? && Copies(s, step.id) > 0)
      || (step.Produce? && step.produce == Append(Unheard))
  {
  }

  ghost predicate Placed(s: State, id: TaskId) {
    var status := StatusOf(s, id);
    && Copies(s, id) <= 1
    && (Read(id, Holder(s)) > 0 ==> status == Some(New) || status == Some(Pending))
    && (Read(id, Holder(s)) > 0 && Holder(s).FetchedNew? ==> status == Some(New))
    && (Flipped(id, Holder(s)) + OccursIn(id, s.stream) > 0 ==> status == Some(Processing))
    && HandingAll(id, s.consumers) <= LoadAll(id, s.consumers)
    && (HandingAll(id, s.consumers) < LoadAll(id, s.consumers) ==> status == Some(Processing))
    && (HandingAll(id, s.consumers) + s.running[id] > 0 ==> status == Some(ProcessStarted))
  }

  ghost predicate Inv(s: State) {
    OneProducer(s) && forall id :: Placed(s, id)
  }

  lemma {:induction false} HandingAllConcat(id: TaskId, a: seq<Consumer>, b: seq<Consumer>)
    ensures HandingAll(id, a + b) == HandingAll(id, a) + HandingAll(id, b)
  {
    if a == [] {
      assert a + b == b;
    } else {
      HandingAllConcat(id, a[1..], b);
      assert (a + b)[1..] == a[1..] + b;
    }
  }

  lemma {:induction false} HandingAllReplace(id: TaskId, cs: seq<Consumer>, k: nat, c: Consumer)
    requires k < |cs|
    ensures HandingAll(id, cs[k := c]) + Handing(id, cs[k]) == HandingAll(id, cs) + Handing(id, c)
  {
    if k == 0 {
      assert cs[k := c][1..] == cs[1..];
    } else {
      HandingAllReplace(id, cs[1..], k - 1, c);
      assert cs[k := c][1..] == cs[1..][k - 1 := c];
    }
  }

  lemma {:induction false} HandingWithinLoad(id: TaskId, cs: seq<Consumer>)
    ensures HandingAll(id, cs) <= LoadAll(id, cs)
  {
    if cs != [] {
      HandingWithinLoad(id, cs[1..]);
    }
  }

  lemma FetchPlaces(s: State, pid: nat, action: ProducerAction, id: TaskId)
    requires s.lock == Some(pid) && pid in s.producers && Can(s, s.producers[pid], action) && Placed(s, id)
    requires action.FetchNew? || action.FetchPending? || action.FetchFails?
    ensures Placed(Produced(s, pid, action), id)
    ensures action.FetchPending? ==> Occurs(id, s.producers[pid].news + Snapshot(s.table, action.ids)) <= 1
  {
    match action
    case FetchNew(ids) => SnapshotOccurs(id, s.table, ids, New);
    case FetchPending(ids, batchSize) =>
      var news, pending := s.producers[pid].news, Snapshot(s.table, ids);
      SnapshotOccurs(id, s.table, ids, Pending);
      OccursConcat(id, news, pending);
      OccursInChunks(id, news + pending, batchSize);
    case FetchFails =>
  }

  lemma UpdatePlaces(s: State, pid: nat, reply: Reply, id: TaskId)
    requires s.lock == Some(pid) && pid in s.producers && Can(s, s.producers[pid], Update(reply)) && Placed(s, id)
    ensures Placed(Produced(s, pid, Update(reply)), id)
  {
    var todo := s.producers[pid].todo;
    assert OccursIn(id, todo) == Occurs(id, todo[0]) + OccursIn(id, todo[1..]);
    FlipStatus(s, todo[0], Processing, id);
  }

  lemma AppendPlaces(s: State, pid: nat, reply: Reply, id: TaskId)
    requires s.lock == Some(pid) && pid in s.producers && Can(s, s.producers[pid], Append(reply)) && Placed(s, id)
    requires !reply.Unheard?
    ensures Placed(Produced(s, pid, Append(reply)), id)
  {
    OccursInAppend(id, s.stream, s.producers[pid].batch);
  }

  lemma UpdateAgainPlaces(s: State, pid: nat, reply: Reply, id: TaskId)
    requires s.lock == Some(pid) && pid in s.producers && Can(s, s.producers[pid], UpdateAgain(reply)) && Placed(s, id)
    ensures Placed(Produced(s, pid, UpdateAgain(reply)), id)
  {
    FlipStatus(s, s.producers[pid].batch, Processing, id);
  }

  lemma ProducePlaces(s: State, pid: nat, action: ProducerAction, id: TaskId)
    requires s.lock == Some(pid) && pid in s.producers && Can(s, s.producers[pid], action) && Placed(s, id)
    requires action.Append? ==> !action.reply.Unheard?
    ensures Placed(Produced(s, pid, action), id)
  {
    match action
    case SetExpiry(ok) =>
    case DropLock(reply) =>
    case FetchNew(ids) => FetchPlaces(s, pid, action, id);
    case FetchPending(ids, batchSize) => FetchPlaces(s, pid, action, id);
    case FetchFails => FetchPlaces(s, pid, action, id);
    case Update(reply) => UpdatePlaces(s, pid, reply, id);
    case SerializeFails =>
    case Append(reply) => AppendPlaces(s, pid, reply, id);
    case UpdateAgain(reply) => UpdateAgainPlaces(s, pid, reply, id);
    case Release(reply) =>
  }

  lemma DropPlaces(s: State, k: nat, id: TaskId)
    requires k < |s.consumers| && Placed(s, id)
    ensures Placed(Drop(s, k), id)
  {
    LoadAllReplace(id, s.consumers, k, Ended);
    HandingAllReplace(id, s.consumers, k, Ended);
    HandingWithinLoad(id, s.consumers[k := Ended]);
  }

  lemma ClaimPlaces(s: State, k: nat, reply: Reply, id: TaskId)
    requires k < |s.consumers| && s.consumers[k].Claiming? && Placed(s, id)
    ensures Placed(Consumed(s, k, Claim(reply)), id)
  {
    var tasks := s.consumers[k].tasks;
    LoadAllReplace(id, s.consumers, k, Ended);
    HandingAllReplace(id, s.consumers, k, Ended);
    HandingWithinLoad(id, s.consumers[k := Ended]);
    LoadAllReplace(id, s.consumers, k, Starting(tasks));
    HandingAllReplace(id, s.consumers, k, Starting(tasks));
    FlipStatus(s, tasks, ProcessStarted, id);
  }

  lemma AdvancePlaces(s: State, k: nat, c: Consumer, id: TaskId)
    requires k < |s.consumers| && Placed(s, id)
    requires Load(id, c) <= Load(id, s.consumers[k]) && c.Starting? == s.consumers[k].Starting?
    ensures Placed(s.(consumers := s.consumers[k := c]), id)
  {
    LoadAllReplace(id, s.consumers, k, c);
    HandingAllReplace(id, s.consumers, k, c);
    HandingWithinLoad(id, s.consumers[k := c]);
    LoadAllReplace(id, s.consumers, k, Ended);
    HandingAllReplace(id, s.consumers, k, Ended);
    HandingWithinLoad(id, s.consumers[k := Ended]);
  }

  lemma StartPlaces(s: State, k: nat, id: TaskId)
    requires k < |s.consumers| && s.consumers[k].Starting? && s.consumers[k].tasks != [] && Placed(s, id)
    ensures Placed(Consumed(s, k, StartNext), id)
  {
    var rest := Starting(s.consumers[k].tasks[1..]);
    LoadAllReplace(id, s.consumers, k, rest);
    HandingAllReplace(id, s.consumers, k, rest);
    HandingWithinLoad(id, s.consumers[k := rest]);
  }

  lemma ConsumePlaces(s: State, k: nat, action: ConsumerAction, id: TaskId)
    requires k < |s.consumers| && CanConsume(s.consumers[k], action) && Placed(s, id)
    ensures Placed(Consumed(s, k, action), id)
  {
    var c := s.consumers[k];
    match action
    case Acknowledge(ok) => if ok { AdvancePlaces(s, k, Acknowledged(c.batch), id); } else { DropPlaces(s, k, id); }
    case DeleteEntry(ok) =>
      ValidOnlyOccurs(id, c.batch);
      if ok { AdvancePlaces(s, k, Claiming(ValidOnly(c.batch)), id); } else { DropPlaces(s, k, id); }
    case Claim(reply) => ClaimPlaces(s, k, reply, id);
    case StartNext => StartPlaces(s, k, id);
    case Done => DropPlaces(s, k, id);
  }

  lemma DeliverPlaces(s: State, reply: Reply, id: TaskId)
    requires Next(s, Deliver(reply)).Some? && Placed(s, id)
    ensures Placed(Next(s, Deliver(reply)).value, id)
  {
    LoadAllConcat(id, s.consumers, [Delivered(s.stream[0])]);
    HandingAllConcat(id, s.consumers, [Delivered(s.stream[0])]);
  }

  lemma InsertPlaces(s: State, other: TaskId, row: Row, id: TaskId)
    requires Next(s, Insert(other, row)).Some? && Placed(s, id)
    ensures Placed(Next(s, Insert(other, row)).value, id)
  {
  }

  lemma PutPlaces(s: State, other: TaskId, row: Row, id: TaskId)
    requires other in s.table && Copies(s, other) == 0 && Placed(s, id)
    ensures Placed(PutRow(s, other, row), id)
  {
    assert Holder(PutRow(s, other, row)) == Holder(s);
  }

  lemma WorkflowPlaces(s: State, other: TaskId, outcome: Option<Row>, id: TaskId)
    requires Next(s, WorkflowEnds(other, outcome)).Some? && Placed(s, id)
    ensures Placed(Next(s, WorkflowEnds(other, outcome)).value, id)
  {
    assert Holder(Next(s, WorkflowEnds(other, outcome)).value) == Holder(s);
  }

  lemma StepPlaces(s: State, step: Step, id: TaskId)
    requires OneProducer(s) && Placed(s, id) && Next(s, step).Some? && Disciplined(s, step)
    ensures Placed(Next(s, step).value, id)
  {
    match step
    case Insert(other, row) => InsertPlaces(s, other, row, id);
    case LockExpires =>
    case AcquireLock(reply) => assert s.producers == map[];
    case Produce(pid, action) => ProducePlaces(s, pid, action, id);
    case ProducerCrash(pid) =>
    case Deliver(reply) => DeliverPlaces(s, reply, id);
    case Consume(k, action) => ConsumePlaces(s, k, action, id);
    case ConsumerCrash(k) => DropPlaces(s, k, id);
    case WorkflowEnds(other, outcome) => WorkflowPlaces(s, other, outcome, id);
    case Put(other, row) => PutPlaces(s, other, row, id);
  }

  lemma EveryRunKeepsInv(s: State, steps: seq<Step>, t: State)
    requires Initial(s) && Runs.After(Next, s, steps) == Some(t)
    requires Runs.Obeys(Next, Disciplined, s, steps)
    ensures Inv(t)
  {
    assert Runs.Inductive(Next, Disciplined, Inv) by {
      forall u, step | Inv(u) && Disciplined(u, step) && Next(u, step).Some? ensures Inv(Next(u, step).value) {
        OneProducerStep(u, step);
        forall id ensures Placed(Next(u, step).value, id) {
          assert Placed(u, id);
          StepPlaces(u, step, id);
        }
      }
    }
    forall id ensures Placed(s, id) {
    }
    Runs.Invariance(Next, Disciplined, Inv, s, steps);
  }

  /**
    In every disciplined run: a task in an undelivered entry is Processing; one being handed to a
    workflow, or in the hands of one, is ProcessStarted; a New or Pending one is neither in the
    stream nor with a consumer nor running; and no task is in two places at once.
   */
  lemma PlaceDecidesStatus(s: State, steps: seq<Step>, t: State, id: TaskId)
    requires Initial(s) && Runs.After(Next, s, steps) == Some(t)
    requires Runs.Obeys(Next, Disciplined, s, steps)
    ensures OccursIn(id, t.stream) > 0 ==> StatusOf(t, id) == Some(Processing)
    ensures HandingAll(id, t.consumers) > 0 || id in t.running ==> StatusOf(t, id) == Some(ProcessStarted)
    ensures IsEligible(t, id) ==> OccursIn(id, t.stream) + LoadAll(id, t.consumers) + t.running[id] == 0
    ensures OccursIn(id, t.stream) + LoadAll(id, t.consumers) + t.running[id] <= 1
  {
    EveryRunKeepsInv(s, steps, t);
    assert Placed(t, id);
  }

  /** The two queries of one producer run never yield the same task twice. */
  lemma FetchesAreDisjoint(s: State, steps: seq<Step>, t: State, pid: nat, ids: seq<TaskId>, id: TaskId)
    requires Initial(s) && Runs.After(Next, s, steps) == Some(t)
    requires Runs.Obeys(Next, Disciplined, s, steps)
    requires pid in t.producers && t.producers[pid].FetchedNew? && QueryResult(t.table, ids, Pending)
    ensures Occurs(id, t.producers[pid].news + Snapshot(t.table, ids)) <= 1
  {
    EveryRunKeepsInv(s, steps, t);
    assert Placed(t, id);
    FetchPlaces(t, pid, FetchPending(ids, 1), id);
  }
}
