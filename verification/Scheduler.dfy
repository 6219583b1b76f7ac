/**
  The process tracker: the task table, the producers' lock, the Redis stream with its consumer group,
  and any number of producers, consumers and workflows, interleaved at every await. Each remote
  command may fail, with or without having taken effect, and each process may crash anywhere.

  `started` and `putBack` are history: workflows started, and times a task was made eligible again.
 */
module Scheduler {
  import opened Common
  import opened Batching

  datatype Status = New | Pending | Processing | ProcessStarted | Finish

  datatype Row = Row(status: Status, businessStatus: string)

  datatype Producer =
    | LockSet                                          // key set, about to set its expiry
    | LockDropping                                     // expiry failed, about to delete the key again
    | Locked                                           // about to query the New tasks
    | FetchedNew(news: seq<Task>)                      // about to query the Pending tasks
    | Flushing(todo: seq<Batch>)                       // about to update todo[0], or to release
    | Appending(batch: Batch, rest: seq<Batch>)        // updated, about to append to the stream
    | UpdatingAgain(batch: Batch, rest: seq<Batch>)        // append failed, about to update once more

  datatype Consumer =
    | Delivered(batch: Batch)                          // about to acknowledge
    | Acknowledged(batch: Batch)                       // about to delete the entry
    | Claiming(tasks: seq<Task>)                       // about to flip the valid ones to ProcessStarted
    | Starting(tasks: seq<Task>)                       // spawning one workflow per task
    | Ended                                            // done, failed or crashed

  datatype State = State(
    table: map<TaskId, Row>,
    lock: Option<nat>,
    nextProducer: nat,
    producers: map<nat, Producer>,
    stream: seq<Batch>,                                // entries not delivered to the group yet
    consumers: seq<Consumer>,                          // all that ever received an entry
    running: multiset<TaskId>,
    started: multiset<TaskId>,
    putBack: multiset<TaskId>)

  datatype ProducerAction =
    | SetExpiry(ok: bool)
    | DropLock(reply: Reply)
    | FetchNew(ids: seq<TaskId>)
    | FetchPending(ids: seq<TaskId>, batchSize: nat)
    | FetchFails
    | Update(reply: Reply)
    | SerializeFails
    | Append(reply: Reply)
    | UpdateAgain(reply: Reply)
    | Release(reply: Reply)

  datatype ConsumerAction =
    | Acknowledge(ok: bool)
    | DeleteEntry(ok: bool)
    | Claim(reply: Reply)
    | StartNext
    | Done

  datatype Step =
    | Insert(id: TaskId, row: Row)
    | Put(id: TaskId, row: Row)                        // anybody rewrites a row at any time
    | LockExpires
    | AcquireLock(reply: Reply)
    | Produce(pid: nat, produce: ProducerAction)
    | ProducerCrash(pid: nat)
    | Deliver(reply: Reply)
    | Consume(k: nat, consume: ConsumerAction)
    | ConsumerCrash(k: nat)
    | WorkflowEnds(id: TaskId, outcome: Option<Row>)   // after rewriting its own row, or not

  ghost predicate Initial(s: State) {
    && s.table == map[] && s.lock == None && s.producers == map[] && s.stream == [] && s.consumers == []
    && s.running == multiset{} && s.started == multiset{} && s.putBack == multiset{}
  }

  predicate Eligible(status: Status) {
    status == New || status == Pending
  }

  const VALID_BUSINESS_STATUSES := ["Pending"]

  predicate IsValidBusinessStatus(task: Task) {
    task.businessStatus in VALID_BUSINESS_STATUSES
  }

  function ValidOnly(tasks: seq<Task>): seq<Task> {
    if tasks == [] then []
    else (if IsValidBusinessStatus(tasks[0]) then [tasks[0]] else []) + ValidOnly(tasks[1..])
  }

  predicate HasTask(tasks: seq<Task>, id: TaskId) {
    exists k :: 0 <= k < |tasks| && tasks[k].id == id
  }

  /** UPDATE ... SET status WHERE id IN ids, whatever the status was. */
  function SetStatus(table: map<TaskId, Row>, tasks: seq<Task>, status: Status): map<TaskId, Row> {
    map id | id in table :: if HasTask(tasks, id) then table[id].(status := status) else table[id]
  }

  /** A query's result: distinct rows with the given status. Which ones is up to their schedule times. */
  predicate QueryResult(table: map<TaskId, Row>, ids: seq<TaskId>, status: Status) {
    && (forall i, j :: 0 <= i < j < |ids| ==> ids[i] != ids[j])
    && forall i :: 0 <= i < |ids| ==> ids[i] in table && table[ids[i]].status == status
  }

  function Snapshot(table: map<TaskId, Row>, ids: seq<TaskId>): seq<Task>
    requires forall i :: 0 <= i < |ids| ==> ids[i] in table
  {
    if ids == [] then [] else [Task(ids[0], table[ids[0]].businessStatus)] + Snapshot(table, ids[1..])
  }

  function PutRow(s: State, id: TaskId, row: Row): State {
    s.(table := s.table[id := row],
       putBack := s.putBack + if Eligible(row.status) then multiset{id} else multiset{})
  }

  function TakeLock(s: State, reply: Reply): State {
    match reply
    case Rejected => s
    case Unheard => s.(lock := Some(s.nextProducer), nextProducer := s.nextProducer + 1)
    case Answered => s.(lock := Some(s.nextProducer), nextProducer := s.nextProducer + 1,
                        producers := s.producers[s.nextProducer := LockSet])
  }

  predicate Can(s: State, p: Producer, action: ProducerAction) {
    match p
    case LockSet => action.SetExpiry?
    case LockDropping => action.DropLock?
    case Locked => action.FetchFails? || (action.FetchNew? && QueryResult(s.table, action.ids, New))
    case FetchedNew(news) =>
      || action.FetchFails?
      || (action.FetchPending? && action.batchSize > 0 && QueryResult(s.table, action.ids, Pending))
    case Flushing(todo) => if todo == [] then action.Release? else action.Update?
    case Appending(batch, rest) => action.SerializeFails? || action.Append?
    case UpdatingAgain(batch, rest) => action.UpdateAgain?
  }

  function Move(s: State, pid: nat, p: Producer): State {
    s.(producers := s.producers[pid := p])
  }

  function Leave(s: State, pid: nat, unlock: bool): State {
    s.(producers := s.producers - {pid}, lock := if unlock then None else s.lock)
  }

  function Produced(s: State, pid: nat, action: ProducerAction): State
    requires pid in s.producers && Can(s, s.producers[pid], action)
  {
    var p := s.producers[pid];
    match action
    case SetExpiry(ok) => Move(s, pid, if ok then Locked else LockDropping)
    case DropLock(reply) => Leave(s, pid, !reply.Rejected?)
    case FetchNew(ids) => Move(s, pid, FetchedNew(Snapshot(s.table, ids)))
    case FetchPending(ids, batchSize) =>
      Move(s, pid, Flushing(Chunks(p.news + Snapshot(s.table, ids), batchSize)))
    case FetchFails => Move(s, pid, Flushing([]))
    case Update(reply) =>
      var batch, rest := p.todo[0], p.todo[1..];
      var flipped := s.(table := SetStatus(s.table, batch, Processing));
      (match reply
       case Answered => Move(flipped, pid, Appending(batch, rest))
       case Rejected => Move(s, pid, Flushing(rest))
       case Unheard => Move(flipped, pid, Flushing(rest)))
    case SerializeFails => Move(s, pid, Flushing(p.rest))
    case Append(reply) =>
      var appended := s.(stream := s.stream + [p.batch]);
      (match reply
       case Answered => Move(appended, pid, Flushing(p.rest))
       case Rejected => Move(s, pid, UpdatingAgain(p.batch, p.rest))
       case Unheard => Move(appended, pid, UpdatingAgain(p.batch, p.rest)))
    case UpdateAgain(reply) =>
      var flipped := s.(table := SetStatus(s.table, p.batch, Processing));
      Move(if reply.Rejected? then s else flipped, pid, Flushing(p.rest))
    case Release(reply) => Leave(s, pid, !reply.Rejected?)
  }

  predicate CanConsume(c: Consumer, action: ConsumerAction) {
    match c
    case Delivered(batch) => action.Acknowledge?
    case Acknowledged(batch) => action.DeleteEntry?
    case Claiming(tasks) => action.Claim?
    case Starting(tasks) => if tasks == [] then action.Done? else action.StartNext?
    case Ended => false
  }

  function Drop(s: State, k: nat): State
    requires k < |s.consumers|
  {
    s.(consumers := s.consumers[k := Ended])
  }

  function Consumed(s: State, k: nat, action: ConsumerAction): State
    requires k < |s.consumers| && CanConsume(s.consumers[k], action)
  {
    var c := s.consumers[k];
    match action
    case Acknowledge(ok) => if ok then s.(consumers := s.consumers[k := Acknowledged(c.batch)]) else Drop(s, k)
    case DeleteEntry(ok) => if ok then s.(consumers := s.consumers[k := Claiming(ValidOnly(c.batch))]) else Drop(s, k)
    case Claim(reply) =>
      var flipped := s.(table := SetStatus(s.table, c.tasks, ProcessStarted));
      (match reply
       case Answered => flipped.(consumers := s.consumers[k := Starting(c.tasks)])
       case Rejected => Drop(s, k)
       case Unheard => Drop(flipped, k))
    case StartNext =>
      var id := c.tasks[0].id;
      s.(consumers := s.consumers[k := Starting(c.tasks[1..])],
         running := s.running + multiset{id}, started := s.started + multiset{id})
    case Done => Drop(s, k)
  }

  function Next(s: State, step: Step): Option<State> {
    match step
    case Insert(id, row) =>
      if id in s.table || row.status != New then None else Some(s.(table := s.table[id := row]))
    case Put(id, row) => if id in s.table then Some(PutRow(s, id, row)) else None
    case LockExpires => Some(s.(lock := None))
    case AcquireLock(reply) => if s.lock.Some? then None else Some(TakeLock(s, reply))
    case Produce(pid, action) =>
      if pid in s.producers && Can(s, s.producers[pid], action) then Some(Produced(s, pid, action)) else None
    case ProducerCrash(pid) => if pid in s.producers then Some(Leave(s, pid, false)) else None
    case Deliver(reply) =>
      if s.stream == [] || reply.Rejected? then None else
        var taken := s.(stream := s.stream[1..]);
        Some(if reply.Answered? then taken.(consumers := s.consumers + [Delivered(s.stream[0])]) else taken)
    case Consume(k, action) =>
      if k < |s.consumers| && CanConsume(s.consumers[k], action) then Some(Consumed(s, k, action)) else None
    case ConsumerCrash(k) => if k < |s.consumers| then Some(Drop(s, k)) else None
    case WorkflowEnds(id, outcome) =>
      if id !in s.running || id !in s.table then None else
        var ended := s.(running := s.running - multiset{id});
        Some(if outcome.Some? then PutRow(ended, id, outcome.value) else ended)
  }

  /** The lock never expires while the producer that set it is still at work. */
  ghost predicate LockOutlivesHolder(s: State, step: Step) {
    step.LockExpires? && s.lock.Some? ==> s.lock.value !in s.producers
  }

  /** This excludes one thing only: an expiry under a live holder. */
  lemma OnlyEarlyExpiryIsExcluded(s: State, step: Step)
    ensures LockOutlivesHolder(s, step) <==> !(step == LockExpires && exists pid :: pid in s.producers && s.lock == Some(pid))
  {
  }

  // ---- What the surroundings may do --------------------------------------------------------------

  /** Runs begin with an empty table, a free lock and nobody at work. */
  lemma EmptyTrackerIsInitial(nextProducer: nat)
    ensures Initial(State(map[], None, nextProducer, map[], [], [], multiset{}, multiset{}, multiset{}))
  {
  }

  /** At any moment tasks are inserted, rows rewritten, the lock expires, and anybody crashes. */
  lemma Hazards(s: State, id: TaskId, row: Row, pid: nat, k: nat)
    ensures id !in s.table && row.status == New ==> Next(s, Insert(id, row)) == Some(s.(table := s.table[id := row]))
    ensures id in s.table ==> Next(s, Put(id, row)).Some? && Next(s, Put(id, row)).value.table == s.table[id := row]
    ensures Next(s, LockExpires) == Some(s.(lock := None))
    ensures pid in s.producers ==> Next(s, ProducerCrash(pid)) == Some(s.(producers := s.producers - {pid}))
    ensures k < |s.consumers| ==> Next(s, ConsumerCrash(k)) == Some(s.(consumers := s.consumers[k := Ended]))
    ensures id in s.running && id in s.table ==>
      && Next(s, WorkflowEnds(id, None)) == Some(s.(running := s.running - multiset{id}))
      && Next(s, WorkflowEnds(id, Some(row))).Some?
      && Next(s, WorkflowEnds(id, Some(row))).value.table == s.table[id := row]
  {
  }

  /** An unheard command does to lock, table and stream what an answered one does, and a rejected one does nothing. */
  lemma ProducerRepliesHideEffects(s: State, pid: nat)
    requires pid in s.producers
    ensures TakeLock(s, Unheard).lock == TakeLock(s, Answered).lock == Some(s.nextProducer) && TakeLock(s, Rejected) == s
    ensures s.producers[pid].LockDropping? ==>
      Produced(s, pid, DropLock(Unheard)).lock == None && Produced(s, pid, DropLock(Rejected)).lock == s.lock
    ensures s.producers[pid].Flushing? && s.producers[pid].todo != [] ==>
      && Produced(s, pid, Update(Unheard)).table == Produced(s, pid, Update(Answered)).table
      && Produced(s, pid, Update(Rejected)).table == s.table
    ensures s.producers[pid].Appending? ==>
      && Produced(s, pid, Append(Unheard)).stream == Produced(s, pid, Append(Answered)).stream
      && Produced(s, pid, Append(Rejected)).stream == s.stream
    ensures s.producers[pid].UpdatingAgain? ==>
      && Produced(s, pid, UpdateAgain(Unheard)).table == SetStatus(s.table, s.producers[pid].batch, Processing)
      && Produced(s, pid, UpdateAgain(Answered)).table == SetStatus(s.table, s.producers[pid].batch, Processing)
      && Produced(s, pid, UpdateAgain(Rejected)).table == s.table
    ensures s.producers[pid] == Flushing([]) ==>
      Produced(s, pid, Release(Unheard)).lock == None && Produced(s, pid, Release(Rejected)).lock == s.lock
  {
  }

  lemma ConsumerRepliesHideEffects(s: State, k: nat)
    ensures s.stream != [] ==>
      Next(s, Deliver(Answered)).Some? && Next(s, Deliver(Unheard)) == Some(s.(stream := s.stream[1..]))
    ensures k < |s.consumers| && s.consumers[k].Claiming? ==>
      && Consumed(s, k, Claim(Unheard)).table == Consumed(s, k, Claim(Answered)).table
      && Consumed(s, k, Claim(Rejected)).table == s.table
  {
  }
}
