/**
  The producer's and the consumer's own code, run by one process among others. As in the drainer, the
  shared world is a state of the step system, everybody else may take any number of steps between
  two awaits, and the contracts say that the code only ever takes steps of that system.
 */
module SchedulerCode {
  import opened Common
  import opened Batching
  import opened Scheduler
  import opened SchedulerSelection
  import opened ProducerFlush
  import Runs

  /** How a producer's own calls turn out. */
  datatype ProducerOutcomes = ProducerOutcomes(
    acquire: Reply, expirySet: bool, drop: Reply, newFetched: bool, pendingFetched: bool,
    flush: nat -> Outcome, release: Reply)

  /** How a consumer's own calls turn out. */
  datatype ConsumerOutcomes = ConsumerOutcomes(
    read: Reply, parsed: bool, acknowledged: bool, deleted: bool, claim: Reply)

  function By(pid: nat): Step -> bool {
    (step: Step) => step.Produce? && step.pid == pid
  }

  function LockSteps(pid: nat, o: ProducerOutcomes): seq<Step> {
    if o.expirySet then [Produce(pid, SetExpiry(true))]
    else [Produce(pid, SetExpiry(false))] + [Produce(pid, DropLock(o.drop))]
  }

  function AppendSteps(pid: nat, o: Outcome): seq<Step> {
    if o.append.Answered? then [Produce(pid, Append(o.append))]
    else [Produce(pid, Append(o.append))] + [Produce(pid, UpdateAgain(o.updateAgain))]
  }

  /** What a producer sends for one batch. */
  function BatchSteps(pid: nat, o: Outcome): seq<Step> {
    if !o.update.Answered? then [Produce(pid, Update(o.update))]
    else [Produce(pid, Update(o.update))] + if o.serializes then AppendSteps(pid, o) else [Produce(pid, SerializeFails)]
  }

  function FlushSteps(pid: nat, flush: nat -> Outcome, n: nat): seq<Step> {
    if n == 0 then [] else FlushSteps(pid, flush, n - 1) + BatchSteps(pid, flush(n - 1))
  }

  /** Two queries, unless one of them fails. */
  function FetchSteps(pid: nat, o: ProducerOutcomes, news: seq<TaskId>, pending: seq<TaskId>, batchSize: nat): seq<Step> {
    if !o.newFetched then [Produce(pid, FetchFails)]
    else [Produce(pid, FetchNew(news))] +
         [Produce(pid, if o.pendingFetched then FetchPending(pending, batchSize) else FetchFails)]
  }

  /** What a producer does under the lock, given the rows its queries found and the batches they made. */
  function LockedSteps(pid: nat, o: ProducerOutcomes, batchSize: nat, news: seq<TaskId>, pending: seq<TaskId>, n: nat): seq<Step> {
    FetchSteps(pid, o, news, pending, batchSize) + FlushSteps(pid, o.flush, n) + [Produce(pid, Release(o.release))]
  }

  /** A query's answer: the table it was asked of, and the rows the database chose. */
  datatype Query = Query(at: State, ids: seq<TaskId>)

  ghost predicate Answers(q: Query, status: Status) {
    QueryResult(q.at.table, q.ids, status)
  }

  /** Nothing to flush if a query failed, else the batches of both answers, New before Pending. */
  ghost predicate Fetched(batches: seq<Batch>, o: ProducerOutcomes, batchSize: nat, news: Query, pending: Query)
    requires batchSize > 0
  {
    if o.newFetched && o.pendingFetched then
      && Answers(news, New) && Answers(pending, Pending)
      && batches == Chunks(Snapshot(news.at.table, news.ids) + Snapshot(pending.at.table, pending.ids), batchSize)
    else batches == []
  }

  /** Together the batches hold one task per row of both answers, New rows first, with the rows' business statuses. */
  ghost predicate Carries(batches: seq<Batch>, news: Query, pending: Query) {
    var all, n := Flatten(batches), |news.ids|;
    && |all| == n + |pending.ids|
    && (forall i :: 0 <= i < n ==> IsRow(all[i], news.ids[i], news.at.table))
    && (forall i :: 0 <= i < |pending.ids| ==> IsRow(all[n + i], pending.ids[i], pending.at.table))
  }

  ghost predicate IsRow(task: Task, id: TaskId, table: map<TaskId, Row>) {
    id in table && task.id == id && task.businessStatus == table[id].businessStatus
  }

  lemma FetchedCarries(batches: seq<Batch>, o: ProducerOutcomes, batchSize: nat, news: Query, pending: Query)
    requires batchSize > 0 && Fetched(batches, o, batchSize, news, pending) && o.newFetched && o.pendingFetched
    ensures Carries(batches, news, pending)
    ensures forall k :: 0 <= k < |batches| ==> 0 < |batches[k]| <= batchSize
  {
    var a, b := Snapshot(news.at.table, news.ids), Snapshot(pending.at.table, pending.ids);
    SnapshotRows(news.at.table, news.ids);
    SnapshotRows(pending.at.table, pending.ids);
    ChunksPartition(a + b, batchSize);
  }

  /** `spawned` are the ids of exactly the pending tasks, in order. */
  ghost predicate SpawnsPending(spawned: seq<TaskId>, tasks: seq<Task>) {
    exists kept: seq<Task> :: KeepsPending(kept, tasks) && |spawned| == |kept| && forall i :: 0 <= i < |kept| ==> spawned[i] == kept[i].id
  }

  function As(k: nat): Step -> bool {
    (step: Step) => (step.Consume? && step.k == k) || (step.ConsumerCrash? && step.k == k)
  }

  function SettleSteps(k: nat, o: ConsumerOutcomes): seq<Step> {
    if o.acknowledged then [Consume(k, Acknowledge(true))] + [Consume(k, DeleteEntry(o.deleted))]
    else [Consume(k, Acknowledge(false))]
  }

  function AcceptSteps(k: nat, o: ConsumerOutcomes): seq<Step> {
    if o.parsed then SettleSteps(k, o) else [ConsumerCrash(k)]
  }

  function ClaimSteps(k: nat, o: ConsumerOutcomes): seq<Step> {
    AcceptSteps(k, o) + if o.parsed && o.acknowledged && o.deleted then [Consume(k, Claim(o.claim))] else []
  }

  function StartSteps(k: nat, n: nat): seq<Step> {
    if n == 0 then [] else StartSteps(k, n - 1) + [Consume(k, StartNext)]
  }

  function SpawnSteps(k: nat, n: nat): seq<Step> {
    StartSteps(k, n) + [Consume(k, Done)]
  }

  /** Everything a consumer does after an entry was delivered to it, given how many valid tasks the entry has. */
  function ConsumerSteps(k: nat, o: ConsumerOutcomes, n: nat): seq<Step> {
    ClaimSteps(k, o) +
      if o.parsed && o.acknowledged && o.deleted && o.claim.Answered? then SpawnSteps(k, n) else []
  }

  class Tracker {
    ghost const origin: State
    ghost var taken: seq<Step>
    ghost var own: nat -> seq<Step>
    ghost var ownAs: nat -> seq<Step>
    var now: State

    /** The run so far leads to the present state, and its steps are noted under whoever took them. */
    ghost predicate Valid()
      reads this
    {
      forall who :: Faithful(who)
    }

    ghost predicate Faithful(who: nat)
      reads this
    {
      && Runs.After(Next, origin, taken) == Some(now)
      && own(who) == Runs.Own(By(who), taken)
      && ownAs(who) == Runs.Own(As(who), taken)
    }

    constructor (start: State)
      ensures Valid() && origin == start && now == start && taken == []
    {
      origin, now, taken := start, start, [];
      own := (_: nat) => [];
      ownAs := (_: nat) => [];
    }

    method Take(step: Step)
      requires Valid() && Next(now, step).Some?
      modifies this
      ensures Valid() && now == Next(old(now), step).value && taken == old(taken) + [step]
      ensures forall who :: Own(who) == old(Own(who)) + if By(who)(step) then [step] else []
      ensures forall who :: OwnAs(who) == old(OwnAs(who)) + if As(who)(step) then [step] else []
    {
      assert Faithful(0);
      ghost var before, was, wasAs := taken, own, ownAs;
      Runs.Extend(Next, origin, taken, step);
      now := Next(now, step).value;
      taken := taken + [step];
      own := (who: nat) => was(who) + if By(who)(step) then [step] else [];
      ownAs := (who: nat) => wasAs(who) + if As(who)(step) then [step] else [];
      forall who ensures Faithful(who) {
        assert old(Faithful(who));
        Runs.OwnSnoc(By(who), before, step);
        Runs.OwnSnoc(As(who), before, step);
      }
    }

    ghost function Own(pid: nat): seq<Step>
      reads this
    {
      own(pid)
    }

    method Act(pid: nat, action: ProducerAction)
      requires Valid() && pid in now.producers && Can(now, now.producers[pid], action)
      modifies this
      ensures Valid() && now == Produced(old(now), pid, action) && taken == old(taken) + [Produce(pid, action)]
      ensures Own(pid) == old(Own(pid)) + [Produce(pid, action)]
    {
      Take(Produce(pid, action));
    }

    ghost function OwnAs(k: nat): seq<Step>
      reads this
    {
      ownAs(k)
    }

    method ActAsConsumer(k: nat, action: ConsumerAction)
      requires Valid() && k < |now.consumers| && CanConsume(now.consumers[k], action)
      modifies this
      ensures Valid() && now == Consumed(old(now), k, action) && taken == old(taken) + [Consume(k, action)]
      ensures OwnAs(k) == old(OwnAs(k)) + [Consume(k, action)]
    {
      Take(Consume(k, action));
    }

    /** A state the run has passed through since `before`. */
    ghost predicate Passed(before: seq<Step>, s: State)
      reads this
    {
      Runs.Passed(Next, origin, taken, |before|, s)
    }

    /** Everybody else, while producer `pid` is suspended. Callers rely on the contract alone. */
    method Others(pid: nat)
      requires Valid() && pid in now.producers
      modifies this
      ensures Valid() && old(taken) <= taken && Own(pid) == old(Own(pid))
      ensures pid in now.producers && now.producers[pid] == old(now.producers[pid])
    {
    }

    /** Everybody else, while the `k`-th consumer is suspended. */
    method OtherConsumers(k: nat)
      requires Valid() && k < |now.consumers|
      modifies this
      ensures Valid() && old(taken) <= taken && OwnAs(k) == old(OwnAs(k)) && old(now.started) <= now.started
      ensures k < |now.consumers| && now.consumers[k] == old(now.consumers[k])
    {
    }

    /** The rows the database picks for a status and a time window. Callers rely on the contract alone. */
    method FindProcessesByTimeStatus(status: Status) returns (ids: seq<TaskId>)
      ensures QueryResult(now.table, ids, status)
    {
      ids := [];
    }

    /** EXPIRE on the lock just set; if that fails the key is deleted again. */
    method SetLockExpiry(pid: nat, o: ProducerOutcomes) returns (acquired: bool)
      requires Valid() && pid in now.producers && now.producers[pid] == LockSet
      modifies this
      ensures Valid() && old(taken) <= taken && Own(pid) == old(Own(pid)) + LockSteps(pid, o)
      ensures acquired <==> o.expirySet
      ensures acquired ==> pid in now.producers && now.producers[pid] == Locked
      ensures !acquired ==> pid !in now.producers && (!o.drop.Rejected? ==> now.lock == None)
    {
      Others(pid);
      Act(pid, SetExpiry(o.expirySet));
      acquired := o.expirySet;
      if !acquired {
        Others(pid);
        Act(pid, DropLock(o.drop));
      }
    }

    /** SET NX, then EXPIRE. */
    method AcquirePtLock(o: ProducerOutcomes) returns (acquired: bool, pid: nat)
      requires Valid()
      modifies this
      ensures Valid() && old(taken) <= taken && pid == old(now.nextProducer)
      ensures acquired <==> old(now.lock).None? && o.acquire.Answered? && o.expirySet
      ensures old(now.lock).Some? ==> taken == old(taken)
      ensures old(now.lock).None? && o.acquire.Answered? && !o.expirySet ==>
        pid !in now.producers && (!o.drop.Rejected? ==> now.lock == None)
      ensures acquired ==> pid in now.producers && now.producers[pid] == Locked
      ensures old(now.lock).None? && o.acquire.Answered? ==> Own(pid) == old(Own(now.nextProducer)) + LockSteps(pid, o)
    {
      pid := now.nextProducer;
      if now.lock.Some? {
        return false, pid;
      }
      Take(AcquireLock(o.acquire));
      if !o.acquire.Answered? {
        return false, pid;
      }
      acquired := SetLockExpiry(pid, o);
    }

    /** The first query, asked at some moment of the call. */
    method FetchNewTasks(pid: nat) returns (news: seq<Task>, ghost q: Query)
      requires Valid() && pid in now.producers && now.producers[pid] == Locked
      modifies this
      ensures Valid() && old(taken) <= taken && Own(pid) == old(Own(pid)) + [Produce(pid, FetchNew(q.ids))]
      ensures Passed(old(taken), q.at) && Answers(q, New) && news == Snapshot(q.at.table, q.ids)
      ensures pid in now.producers && now.producers[pid] == FetchedNew(news)
    {
      Others(pid);
      var found := FindProcessesByTimeStatus(New);
      news, q := Snapshot(now.table, found), Query(now, found);
      ghost var before := taken;
      assert Faithful(0);
      Runs.PassingNow(Next, origin, before, |old(taken)|, now);
      Act(pid, FetchNew(found));
      Runs.PassedBefore(Next, origin, before, |old(taken)|, q.at, taken, |old(taken)|);
    }

    /** The second query, and the batches of both answers. */
    method FetchPendingTasks(pid: nat, news: seq<Task>, batchSize: nat) returns (batches: seq<Batch>, ghost q: Query)
      requires Valid() && pid in now.producers && now.producers[pid] == FetchedNew(news) && batchSize > 0
      modifies this
      ensures Valid() && old(taken) <= taken && Own(pid) == old(Own(pid)) + [Produce(pid, FetchPending(q.ids, batchSize))]
      ensures Passed(old(taken), q.at) && Answers(q, Pending)
      ensures batches == Chunks(news + Snapshot(q.at.table, q.ids), batchSize)
      ensures pid in now.producers && now.producers[pid] == Flushing(batches)
    {
      Others(pid);
      var found := FindProcessesByTimeStatus(Pending);
      q := Query(now, found);
      batches := DivideIntoBatches(batchSize, news + Snapshot(now.table, found));
      ghost var before := taken;
      assert Faithful(0);
      Runs.PassingNow(Next, origin, before, |old(taken)|, now);
      Act(pid, FetchPending(found, batchSize));
      Runs.PassedBefore(Next, origin, before, |old(taken)|, q.at, taken, |old(taken)|);
    }

    method FetchFailure(pid: nat)
      requires Valid() && pid in now.producers && (now.producers[pid].Locked? || now.producers[pid].FetchedNew?)
      modifies this
      ensures Valid() && old(taken) <= taken && Own(pid) == old(Own(pid)) + [Produce(pid, FetchFails)]
      ensures pid in now.producers && now.producers[pid] == Flushing([])
    {
      Others(pid);
      Act(pid, FetchFails);
    }

    /** The New tasks, then the Pending ones, each as the table stood at some moment of the call, cut into batches. */
    method FetchProducerTasks(pid: nat, o: ProducerOutcomes, batchSize: nat)
      returns (batches: seq<Batch>, ghost news: Query, ghost pending: Query)
      requires Valid() && pid in now.producers && now.producers[pid] == Locked && batchSize > 0
      modifies this
      ensures Valid() && old(taken) <= taken
      ensures Own(pid) == old(Own(pid)) + FetchSteps(pid, o, news.ids, pending.ids, batchSize)
      ensures pid in now.producers && now.producers[pid] == Flushing(batches)
      ensures Fetched(batches, o, batchSize, news, pending)
      ensures o.newFetched && o.pendingFetched ==> Carries(batches, news, pending)
      ensures o.newFetched && o.pendingFetched ==> Passed(old(taken), news.at) && Passed(old(taken), pending.at)
    {
      news, pending := Query(now, []), Query(now, []);
      if !o.newFetched {
        FetchFailure(pid);
        return [], news, pending;
      }
      var newTasks;
      newTasks, news := FetchNewTasks(pid);
      ghost var before := taken;
      if !o.pendingFetched {
        FetchFailure(pid);
        return [], news, pending;
      }
      batches, pending := FetchPendingTasks(pid, newTasks, batchSize);
      FetchedCarries(batches, o, batchSize, news, pending);
      Runs.PassedBefore(Next, origin, before, |old(taken)|, news.at, taken, |old(taken)|);
      Runs.PassedBefore(Next, origin, taken, |before|, pending.at, taken, |old(taken)|);
    }

    /** UPDATE of the first batch's rows. */
    method SendUpdate(pid: nat, ghost todo: seq<Batch>, o: Outcome)
      requires Valid() && pid in now.producers && now.producers[pid] == Flushing(todo) && todo != []
      modifies this
      ensures Valid() && old(taken) <= taken && Own(pid) == old(Own(pid)) + [Produce(pid, Update(o.update))]
      ensures pid in now.producers &&
        now.producers[pid] == if o.update.Answered? then Appending(todo[0], todo[1..]) else Flushing(todo[1..])
    {
      Others(pid);
      Act(pid, Update(o.update));
    }

    /** XADD. */
    method SendAppend(pid: nat, batch: Batch, ghost rest: seq<Batch>, o: Outcome)
      requires Valid() && pid in now.producers && now.producers[pid] == Appending(batch, rest)
      modifies this
      ensures Valid() && old(taken) <= taken && Own(pid) == old(Own(pid)) + [Produce(pid, Append(o.append))]
      ensures pid in now.producers &&
        now.producers[pid] == if o.append.Answered? then Flushing(rest) else UpdatingAgain(batch, rest)
    {
      Others(pid);
      Act(pid, Append(o.append));
    }

    method SendUpdateAgain(pid: nat, batch: Batch, ghost rest: seq<Batch>, o: Outcome)
      requires Valid() && pid in now.producers && now.producers[pid] == UpdatingAgain(batch, rest)
      modifies this
      ensures Valid() && old(taken) <= taken && Own(pid) == old(Own(pid)) + [Produce(pid, UpdateAgain(o.updateAgain))]
      ensures pid in now.producers && now.producers[pid] == Flushing(rest)
    {
      Others(pid);
      Act(pid, UpdateAgain(o.updateAgain));
    }

    /** After a failed append the same update is sent once more. */
    method AppendOrUpdateAgain(pid: nat, batch: Batch, ghost rest: seq<Batch>, o: Outcome) returns (result: Result<(), ()>)
      requires Valid() && pid in now.producers && now.producers[pid] == Appending(batch, rest)
      modifies this
      ensures Valid() && old(taken) <= taken && Own(pid) == old(Own(pid)) + AppendSteps(pid, o)
      ensures pid in now.producers && now.producers[pid] == Flushing(rest)
      ensures result.Ok? <==> o.append.Answered?
    {
      SendAppend(pid, batch, rest, o);
      if o.append.Answered? {
        return Ok(());
      }
      SendUpdateAgain(pid, batch, rest, o);
      Runs.Chained(old(Own(pid)), [Produce(pid, Append(o.append))], [Produce(pid, UpdateAgain(o.updateAgain))]);
      result := Err(());
    }

    /** An entry that cannot be serialized is given up; otherwise append it. */
    method SerializeAndAppend(pid: nat, batch: Batch, ghost rest: seq<Batch>, o: Outcome) returns (result: Result<(), ()>)
      requires Valid() && pid in now.producers && now.producers[pid] == Appending(batch, rest)
      modifies this
      ensures Valid() && old(taken) <= taken
      ensures Own(pid) == old(Own(pid)) + if o.serializes then AppendSteps(pid, o) else [Produce(pid, SerializeFails)]
      ensures pid in now.producers && now.producers[pid] == Flushing(rest)
      ensures result.Ok? <==> o.serializes && o.append.Answered?
    {
      if o.serializes {
        result := AppendOrUpdateAgain(pid, batch, rest, o);
      } else {
        Act(pid, SerializeFails);
        result := Err(());
      }
    }

    method UpdateStatusAndAppend(pid: nat, batch: Batch, ghost todo: seq<Batch>, o: Outcome) returns (result: Result<(), ()>)
      requires Valid() && pid in now.producers && now.producers[pid] == Flushing(todo)
      requires todo != [] && todo[0] == batch
      modifies this
      ensures Valid() && old(taken) <= taken && Own(pid) == old(Own(pid)) + BatchSteps(pid, o)
      ensures pid in now.producers && now.producers[pid] == Flushing(todo[1..])
      ensures result.Ok? <==> o.update.Answered? && o.serializes && o.append.Answered?
    {
      SendUpdate(pid, todo, o);
      if !o.update.Answered? {
        return Err(());
      }
      result := SerializeAndAppend(pid, batch, todo[1..], o);
      Runs.Chained(old(Own(pid)), [Produce(pid, Update(o.update))],
                   if o.serializes then AppendSteps(pid, o) else [Produce(pid, SerializeFails)]);
    }

    /** Batch after batch, whatever became of the ones before. */
    method FlushAll(pid: nat, batches: seq<Batch>, flush: nat -> Outcome)
      requires Valid() && pid in now.producers && now.producers[pid] == Flushing(batches)
      modifies this
      ensures Valid() && old(taken) <= taken && Own(pid) == old(Own(pid)) + FlushSteps(pid, flush, |batches|)
      ensures pid in now.producers && now.producers[pid] == Flushing([])
    {
      var todo, k := batches, 0;
      ghost var own := Own(pid);
      while todo != []
        invariant Valid() && old(taken) <= taken && k + |todo| == |batches|
        invariant Own(pid) == own + FlushSteps(pid, flush, k)
        invariant pid in now.producers && now.producers[pid] == Flushing(todo)
        decreases |todo|
      {
        var result := UpdateStatusAndAppend(pid, todo[0], todo, flush(k));
        Runs.Chained(own, FlushSteps(pid, flush, k), BatchSteps(pid, flush(k)));
        todo, k := todo[1..], k + 1;
      }
    }

    /** The body run under the lock, and the release that follows whatever it did. */
    method RunLocked(pid: nat, o: ProducerOutcomes, batchSize: nat)
      returns (batches: seq<Batch>, ghost news: Query, ghost pending: Query)
      requires Valid() && pid in now.producers && now.producers[pid] == Locked && batchSize > 0
      modifies this
      ensures Valid() && old(taken) <= taken
      ensures Own(pid) == old(Own(pid)) + LockedSteps(pid, o, batchSize, news.ids, pending.ids, |batches|)
      ensures Fetched(batches, o, batchSize, news, pending)
      ensures o.newFetched && o.pendingFetched ==> Carries(batches, news, pending)
      ensures o.newFetched && o.pendingFetched ==> Passed(old(taken), news.at) && Passed(old(taken), pending.at)
      ensures pid !in now.producers && (!o.release.Rejected? ==> now.lock == None)
    {
      ghost var own := Own(pid);
      batches, news, pending := FetchProducerTasks(pid, o, batchSize);
      ghost var before := taken;
      FlushAll(pid, batches, o.flush);
      Others(pid);
      Act(pid, Release(o.release));
      ThreeInARow(own, FetchSteps(pid, o, news.ids, pending.ids, batchSize), FlushSteps(pid, o.flush, |batches|),
                  [Produce(pid, Release(o.release))]);
      if o.newFetched && o.pendingFetched {
        Runs.PassedBefore(Next, origin, before, |old(taken)|, news.at, taken, |old(taken)|);
        Runs.PassedBefore(Next, origin, before, |old(taken)|, pending.at, taken, |old(taken)|);
      }
    }

    /**
      Lock, fetch, flush every batch, and release whatever happened: the producer's own steps, given
      what its two queries found.
     */
    method RunProducerFlow(o: ProducerOutcomes, batchSize: nat)
      returns (acquired: bool, pid: nat, batches: seq<Batch>, ghost news: Query, ghost pending: Query)
      requires Valid() && batchSize > 0
      modifies this
      ensures Valid() && old(taken) <= taken && pid == old(now.nextProducer)
      ensures acquired <==> old(now.lock).None? && o.acquire.Answered? && o.expirySet
      ensures acquired ==> Own(pid) == old(Own(now.nextProducer)) +
                           (LockSteps(pid, o) + LockedSteps(pid, o, batchSize, news.ids, pending.ids, |batches|))
      ensures acquired ==> Fetched(batches, o, batchSize, news, pending)
      ensures acquired && o.newFetched && o.pendingFetched ==> Carries(batches, news, pending)
      ensures acquired && o.newFetched && o.pendingFetched ==> Passed(old(taken), news.at) && Passed(old(taken), pending.at)
      ensures acquired ==> pid !in now.producers && (!o.release.Rejected? ==> now.lock == None)
    {
      batches, news, pending := [], Query(now, []), Query(now, []);
      acquired, pid := AcquirePtLock(o);
      if !acquired {
        return;
      }
      ghost var start := taken;
      batches, news, pending := RunLocked(pid, o, batchSize);
      Runs.Chained(old(Own(now.nextProducer)), LockSteps(pid, o),
                   LockedSteps(pid, o, batchSize, news.ids, pending.ids, |batches|));
      if o.newFetched && o.pendingFetched {
        Runs.PassedBefore(Next, origin, taken, |start|, news.at, taken, |old(taken)|);
        Runs.PassedBefore(Next, origin, taken, |start|, pending.at, taken, |old(taken)|);
      }
    }

    method SendAcknowledge(k: nat, batch: Batch, o: ConsumerOutcomes)
      requires Valid() && k < |now.consumers| && now.consumers[k] == Delivered(batch)
      modifies this
      ensures Valid() && old(taken) <= taken && OwnAs(k) == old(OwnAs(k)) + [Consume(k, Acknowledge(o.acknowledged))]
      ensures old(now.started) <= now.started
      ensures k < |now.consumers| && now.consumers[k] == if o.acknowledged then Acknowledged(batch) else Ended
    {
      OtherConsumers(k);
      ActAsConsumer(k, Acknowledge(o.acknowledged));
    }

    method SendDelete(k: nat, batch: Batch, o: ConsumerOutcomes)
      requires Valid() && k < |now.consumers| && now.consumers[k] == Acknowledged(batch)
      modifies this
      ensures Valid() && old(taken) <= taken && OwnAs(k) == old(OwnAs(k)) + [Consume(k, DeleteEntry(o.deleted))]
      ensures old(now.started) <= now.started
      ensures k < |now.consumers| && now.consumers[k] == if o.deleted then Claiming(ValidOnly(batch)) else Ended
    {
      OtherConsumers(k);
      ActAsConsumer(k, DeleteEntry(o.deleted));
    }

    /** Acknowledge the delivered entry, then delete it. */
    method Settle(k: nat, batch: Batch, o: ConsumerOutcomes) returns (settled: bool)
      requires Valid() && k < |now.consumers| && now.consumers[k] == Delivered(batch)
      modifies this
      ensures Valid() && old(taken) <= taken && OwnAs(k) == old(OwnAs(k)) + SettleSteps(k, o)
      ensures old(now.started) <= now.started
      ensures settled <==> o.acknowledged && o.deleted
      ensures settled ==> k < |now.consumers| && now.consumers[k] == Claiming(ValidOnly(batch))
    {
      SendAcknowledge(k, batch, o);
      if !o.acknowledged {
        return false;
      }
      SendDelete(k, batch, o);
      Runs.Chained(old(OwnAs(k)), [Consume(k, Acknowledge(true))], [Consume(k, DeleteEntry(o.deleted))]);
      settled := o.deleted;
    }

    /** An entry that does not parse is dropped, one that does is settled. */
    method Accept(k: nat, batch: Batch, o: ConsumerOutcomes) returns (accepted: bool)
      requires Valid() && k < |now.consumers| && now.consumers[k] == Delivered(batch)
      modifies this
      ensures Valid() && old(taken) <= taken && OwnAs(k) == old(OwnAs(k)) + AcceptSteps(k, o)
      ensures old(now.started) <= now.started
      ensures accepted <==> o.parsed && o.acknowledged && o.deleted
      ensures accepted ==> k < |now.consumers| && now.consumers[k] == Claiming(ValidOnly(batch))
    {
      if o.parsed {
        accepted := Settle(k, batch, o);
      } else {
          Take(ConsumerCrash(k));
        accepted := false;
      }
    }

    /** XREADGROUP of one entry, which makes the caller the `k`-th consumer; an empty stream is no error. */
    method ReadEntry(o: ConsumerOutcomes) returns (entry: Result<Option<Batch>, ()>, k: nat)
      requires Valid()
      modifies this
      ensures Valid() && k == old(|now.consumers|)
      ensures taken == old(taken) + if old(now.stream) == [] || o.read.Rejected? then [] else [Deliver(o.read)]
      ensures OwnAs(k) == old(OwnAs(|now.consumers|)) && now.started == old(now.started)
      ensures entry ==
        if !o.read.Answered? then Err(()) else Ok(if old(now.stream) == [] then None else Some(old(now.stream)[0]))
      ensures entry.Ok? && entry.value.Some? ==> k < |now.consumers| && now.consumers[k] == Delivered(entry.value.value)
    {
      k := |now.consumers|;
      if now.stream == [] || o.read.Rejected? {
        return if o.read.Answered? then Ok(None) else Err(()), k;
      }
      entry := if o.read.Answered? then Ok(Some(now.stream[0])) else Err(());
      Take(Deliver(o.read));
    }

    /** Read one entry; parse, acknowledge and delete it. No entry is no batch, a failed call an error. */
    method GetBatches(o: ConsumerOutcomes) returns (batches: Result<seq<Batch>, ()>, k: nat)
      requires Valid()
      modifies this
      ensures Valid() && old(taken) <= taken && old(now.started) <= now.started && k == old(|now.consumers|)
      ensures batches == Received(old(now), o)
      ensures batches.Ok? && batches.value != [] ==>
        k < |now.consumers| && now.consumers[k] == Claiming(ValidOnly(batches.value[0]))
      ensures OwnAs(k) == old(OwnAs(|now.consumers|)) + if Hears(old(now), o) then AcceptSteps(k, o) else []
    {
      var entry;
      entry, k := ReadEntry(o);
      if entry.Err? {
        return Err(()), k;
      }
      if entry.value.None? {
        return Ok([]), k;
      }
      var accepted := Accept(k, entry.value.value, o);
      batches := if accepted then Ok([entry.value.value]) else Err(());
    }

    /** The valid tasks of one batch, flipped to ProcessStarted; none, and `idle`, if there was no batch. */
    method FetchConsumerTasks(o: ConsumerOutcomes) returns (tasks: Result<seq<Task>, ()>, idle: bool, k: nat)
      requires Valid()
      modifies this
      ensures Valid() && old(taken) <= taken && old(now.started) <= now.started && k == old(|now.consumers|)
      ensures tasks == Claimed(old(now), o) && (tasks.Ok? ==> (idle <==> old(now.stream) == []))
      ensures Delivers(old(now), o) ==> KeepsPending(tasks.value, old(now.stream)[0])
      ensures Delivers(old(now), o) ==> k < |now.consumers| && now.consumers[k] == Starting(tasks.value)
      ensures Delivers(old(now), o) ==>
        forall id :: id in now.table && HasTask(tasks.value, id) ==> now.table[id].status == ProcessStarted
      ensures OwnAs(k) == old(OwnAs(|now.consumers|)) + if Hears(old(now), o) then ClaimSteps(k, o) else []
    {
      var batches;
      batches, k := GetBatches(o);
      if batches.Err? {
        return Err(()), false, k;
      }
      idle := batches.value == [];
      if idle {
        return Ok([]), idle, k;
      }
      ValidOnlyKeepsPending(batches.value[0]);
      var claimed := ClaimTasks(k, ValidOnly(batches.value[0]), o);
      Runs.Chained(old(OwnAs(|now.consumers|)), AcceptSteps(k, o), [Consume(k, Claim(o.claim))]);
      tasks := if claimed then Ok(ValidOnly(batches.value[0])) else Err(());
    }

    /** Flip the rows to ProcessStarted. */
    method ClaimTasks(k: nat, tasks: seq<Task>, o: ConsumerOutcomes) returns (claimed: bool)
      requires Valid() && k < |now.consumers| && now.consumers[k] == Claiming(tasks)
      modifies this
      ensures Valid() && old(taken) <= taken && OwnAs(k) == old(OwnAs(k)) + [Consume(k, Claim(o.claim))]
      ensures old(now.started) <= now.started
      ensures claimed <==> o.claim.Answered?
      ensures claimed ==> k < |now.consumers| && now.consumers[k] == Starting(tasks)
      ensures claimed ==> forall id :: id in now.table && HasTask(tasks, id) ==> now.table[id].status == ProcessStarted
    {
      OtherConsumers(k);
      ActAsConsumer(k, Claim(o.claim));
      claimed := o.claim.Answered?;
    }

    method StartOne(k: nat, todo: seq<Task>)
      requires Valid() && k < |now.consumers| && now.consumers[k] == Starting(todo) && todo != []
      modifies this
      ensures Valid() && old(taken) <= taken && OwnAs(k) == old(OwnAs(k)) + [Consume(k, StartNext)]
      ensures old(now.started) + multiset{todo[0].id} <= now.started
      ensures k < |now.consumers| && now.consumers[k] == Starting(todo[1..])
    {
      OtherConsumers(k);
      ActAsConsumer(k, StartNext);
    }

    /** One iteration: start the first task and note its id. */
    method SpawnNext(k: nat, todo: seq<Task>, spawned: seq<TaskId>, ghost bag: multiset<TaskId>) returns (spawned': seq<TaskId>)
      requires Valid() && k < |now.consumers| && now.consumers[k] == Starting(todo) && todo != []
      requires bag + multiset(spawned) <= now.started
      modifies this
      ensures Valid() && old(taken) <= taken && OwnAs(k) == old(OwnAs(k)) + [Consume(k, StartNext)]
      ensures bag + multiset(spawned') <= now.started
      ensures spawned' + Ids(todo[1..]) == spawned + Ids(todo)
      ensures k < |now.consumers| && now.consumers[k] == Starting(todo[1..])
    {
      StartOne(k, todo);
      spawned' := spawned + [todo[0].id];
      Runs.Chained(spawned, [todo[0].id], Ids(todo[1..]));
    }

    /** One workflow per task, in order, and nothing else. */
    method SpawnAll(k: nat, tasks: seq<Task>) returns (spawned: seq<TaskId>)
      requires Valid() && k < |now.consumers| && now.consumers[k] == Starting(tasks)
      modifies this
      ensures Valid() && old(taken) <= taken && OwnAs(k) == old(OwnAs(k)) + StartSteps(k, |tasks|)
      ensures old(now.started) + multiset(spawned) <= now.started
      ensures spawned == Ids(tasks)
      ensures k < |now.consumers| && now.consumers[k] == Starting([])
    {
      var todo := tasks;
      spawned := [];
      ghost var own, n, bag := OwnAs(k), 0, now.started;
      while todo != []
        invariant Valid() && old(taken) <= taken && bag + multiset(spawned) <= now.started
        invariant OwnAs(k) == own + StartSteps(k, n) && n + |todo| == |tasks|
        invariant spawned + Ids(todo) == Ids(tasks)
        invariant k < |now.consumers| && now.consumers[k] == Starting(todo)
        decreases |todo|
      {
        spawned := SpawnNext(k, todo, spawned, bag);
        Runs.Chained(own, StartSteps(k, n), [Consume(k, StartNext)]);
        todo, n := todo[1..], n + 1;
      }
    }

    method SpawnAndFinish(k: nat, tasks: seq<Task>) returns (spawned: seq<TaskId>)
      requires Valid() && k < |now.consumers| && now.consumers[k] == Starting(tasks)
      modifies this
      ensures Valid() && old(taken) <= taken && OwnAs(k) == old(OwnAs(k)) + SpawnSteps(k, |tasks|)
      ensures old(now.started) + multiset(spawned) <= now.started
      ensures spawned == Ids(tasks)
    {
      spawned := SpawnAll(k, tasks);
      ActAsConsumer(k, Done);
      Runs.Chained(old(OwnAs(k)), StartSteps(k, |tasks|), [Consume(k, Done)]);
    }

    /**
      Exactly the valid tasks of the first entry are spawned, in order, or none if the stream was empty or
      any call failed: the consumer's own steps contain one start for each of them and no other. An
      empty stream is Ok, a failed call an error.
     */
    method ConsumerOperations(o: ConsumerOutcomes) returns (result: Result<(), ()>, spawned: seq<TaskId>, k: nat)
      requires Valid()
      modifies this
      ensures Valid() && old(taken) <= taken && k == old(|now.consumers|)
      ensures result.Ok? <==> Claimed(old(now), o).Ok?
      ensures spawned == if Delivers(old(now), o) then Ids(ValidOnly(old(now.stream)[0])) else []
      ensures Delivers(old(now), o) ==> SpawnsPending(spawned, old(now.stream)[0])
      ensures OwnAs(k) == old(OwnAs(|now.consumers|)) + if Hears(old(now), o) then ConsumerSteps(k, o, |spawned|) else []
      ensures old(now.started) + multiset(spawned) <= now.started
    {
      var tasks, idle;
      tasks, idle, k := FetchConsumerTasks(o);
      if tasks.Err? {
        return Err(()), [], k;
      }
      if idle {
        return Ok(()), [], k;
      }
      IdsInOrder(tasks.value);
      spawned := SpawnAndFinish(k, tasks.value);
      Runs.Chained(old(OwnAs(|now.consumers|)), ClaimSteps(k, o), SpawnSteps(k, |spawned|));
      result := Ok(());
    }
  }

  /** An entry is delivered to the caller. */
  predicate Hears(s: State, o: ConsumerOutcomes) {
    s.stream != [] && o.read.Answered?
  }

  /** Every call on the way from the stream to the workflows succeeds. */
  predicate Delivers(s: State, o: ConsumerOutcomes) {
    Hears(s, o) && o.parsed && o.acknowledged && o.deleted && o.claim.Answered?
  }

  /** What a consumer gets out of the stream. */
  function Received(s: State, o: ConsumerOutcomes): Result<seq<Batch>, ()> {
    if !o.read.Answered? then Err(())
    else if s.stream == [] then Ok([])
    else if o.parsed && o.acknowledged && o.deleted then Ok([s.stream[0]])
    else Err(())
  }

  function Claimed(s: State, o: ConsumerOutcomes): Result<seq<Task>, ()> {
    match Received(s, o)
    case Err(_) => Err(())
    case Ok(batches) =>
      if batches == [] then Ok([])
      else if o.claim.Answered? then Ok(ValidOnly(batches[0]))
      else Err(())
  }

  lemma ThreeInARow<T>(start: seq<T>, a: seq<T>, b: seq<T>, c: seq<T>)
    ensures start + a + b + c == start + (a + b + c)
  {
  }

  lemma {:induction false} IdsInOrder(tasks: seq<Task>)
    ensures |Ids(tasks)| == |tasks|
    ensures forall i :: 0 <= i < |tasks| ==> Ids(tasks)[i] == tasks[i].id
  {
    if tasks != [] {
      IdsInOrder(tasks[1..]);
    }
  }

  function Ids(tasks: seq<Task>): seq<TaskId> {
    if tasks == [] then [] else [tasks[0].id] + Ids(tasks[1..])
  }
}
