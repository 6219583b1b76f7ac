/** Runs showing that the assumptions of the scheduler's theorems are needed. */
module SchedulerWitness {
  import opened Common
  import opened Batching
  import opened Scheduler
  import Runs

  /** A state that one live producer has reached, everything else being as in `t`. */
  function With(t: State, p: Producer): State {
    t.(lock := Some(t.nextProducer), nextProducer := t.nextProducer + 1,
       producers := t.producers[t.nextProducer := p])
  }

  /** A producer takes the free lock. */
  lemma LockUp(s: State, steps: seq<Step>, t: State) returns (steps': seq<Step>)
    requires Runs.After(Next, s, steps) == Some(t) && t.lock == None
    ensures Runs.After(Next, s, steps') == Some(With(t, Locked))
  {
    var u;
    steps', u := Runs.Take(Next, s, steps, t, AcquireLock(Answered));
    Moves(t, LockSet, SetExpiry(true), Locked);
    steps', u := Runs.Take(Next, s, steps', With(t, LockSet), Produce(t.nextProducer, SetExpiry(true)));
  }

  /** It fetches the one New task and stands before its only batch. */
  lemma FetchOne(s: State, steps: seq<Step>, t: State, id: TaskId) returns (steps': seq<Step>)
    requires Runs.After(Next, s, steps) == Some(t) && t.lock == None
    requires id in t.table && t.table[id] == Row(New, "Pending")
    ensures Runs.After(Next, s, steps') == Some(With(t, Flushing([[Task(id, "Pending")]])))
  {
    var n, task := t.nextProducer, Task(id, "Pending");
    var u;
    steps' := LockUp(s, steps, t);
    assert Snapshot(t.table, [id]) == [task];
    Moves(t, Locked, FetchNew([id]), FetchedNew([task]));
    steps', u := Runs.Take(Next, s, steps', With(t, Locked), Produce(n, FetchNew([id])));
    assert [task] + Snapshot(t.table, []) == [task];
    Moves(t, FetchedNew([task]), FetchPending([], 1), Flushing([[task]]));
    steps', u := Runs.Take(Next, s, steps', With(t, FetchedNew([task])), Produce(n, FetchPending([], 1)));
  }

  lemma Moves(t: State, p: Producer, action: ProducerAction, p': Producer)
    requires Can(With(t, p), p, action)
    requires Produced(With(t, p), t.nextProducer, action) == Move(With(t, p), t.nextProducer, p')
    ensures Next(With(t, p), Produce(t.nextProducer, action)) == Some(With(t, p'))
  {
    assert t.producers[t.nextProducer := p][t.nextProducer := p'] == t.producers[t.nextProducer := p'];
  }

  function AfterAppend(batch: Batch, reply: Reply): Producer {
    if reply.Answered? then Flushing([]) else UpdatingAgain(batch, [])
  }

  /** A producer that stands before one batch flips and appends it, and may not hear of it. */
  lemma Publish(s: State, steps: seq<Step>, t: State, pid: nat, id: TaskId, reply: Reply)
    returns (steps': seq<Step>, t': State)
    requires Runs.After(Next, s, steps) == Some(t) && id in t.table && !reply.Rejected?
    requires pid in t.producers && t.producers[pid] == Flushing([[Task(id, "Pending")]])
    ensures Runs.After(Next, s, steps') == Some(t')
    ensures t' == t.(table := SetStatus(t.table, [Task(id, "Pending")], Processing),
                     stream := t.stream + [[Task(id, "Pending")]],
                     producers := t.producers[pid := AfterAppend([Task(id, "Pending")], reply)])
  {
    var batch: Batch := [Task(id, "Pending")];
    assert [batch][1..] == [];
    steps', t' := Runs.Take(Next, s, steps, t, Produce(pid, Update(Answered)));
    assert t'.producers[pid] == Appending(batch, []);
    steps', t' := Runs.Take(Next, s, steps', t', Produce(pid, Append(reply)));
    assert t.producers[pid := Appending(batch, [])][pid := AfterAppend(batch, reply)] ==
           t.producers[pid := AfterAppend(batch, reply)];
  }

  /** A state with one more consumer than `t`. */
  function Joined(t: State, c: Consumer): State {
    t.(consumers := t.consumers + [c])
  }

  lemma Consumes(t: State, c: Consumer, action: ConsumerAction, c': Consumer)
    requires CanConsume(c, action)
    requires Consumed(Joined(t, c), |t.consumers|, action).consumers == Joined(t, c).consumers[|t.consumers| := c']
    ensures Consumed(Joined(t, c), |t.consumers|, action).consumers == t.consumers + [c']
    ensures Next(Joined(t, c), Consume(|t.consumers|, action)) == Some(Consumed(Joined(t, c), |t.consumers|, action))
  {
    assert Joined(t, c).consumers[|t.consumers| := c'] == t.consumers + [c'];
  }

  /** A consumer receives the first entry, acknowledges it and deletes it. */
  lemma Receive(s: State, steps: seq<Step>, t: State, batch: Batch) returns (steps': seq<Step>, t': State)
    requires Runs.After(Next, s, steps) == Some(t)
    requires t.stream != [] && t.stream[0] == batch && ValidOnly(batch) == batch
    ensures Runs.After(Next, s, steps') == Some(t')
    ensures t' == Joined(t.(stream := t.stream[1..]), Claiming(batch))
  {
    var k, rest := |t.consumers|, t.(stream := t.stream[1..]);
    steps', t' := Runs.Take(Next, s, steps, t, Deliver(Answered));
    Consumes(rest, Delivered(batch), Acknowledge(true), Acknowledged(batch));
    steps', t' := Runs.Take(Next, s, steps', Joined(rest, Delivered(batch)), Consume(k, Acknowledge(true)));
    Consumes(rest, Acknowledged(batch), DeleteEntry(true), Claiming(batch));
    steps', t' := Runs.Take(Next, s, steps', Joined(rest, Acknowledged(batch)), Consume(k, DeleteEntry(true)));
  }

  /** It flips the task and starts its workflow. */
  lemma Work(s: State, steps: seq<Step>, t: State, id: TaskId) returns (steps': seq<Step>, t': State)
    requires Runs.After(Next, s, steps) == Some(Joined(t, Claiming([Task(id, "Pending")])))
    ensures Runs.After(Next, s, steps') == Some(t')
    ensures t'.stream == t.stream && t'.started == t.started + multiset{id}
    ensures t'.putBack == t.putBack && t'.running == t.running + multiset{id}
    ensures t'.producers == t.producers && t'.table.Keys == t.table.Keys
  {
    var k, batch := |t.consumers|, [Task(id, "Pending")];
    steps', t' := Runs.Take(Next, s, steps, Joined(t, Claiming(batch)), Consume(k, Claim(Answered)));
    assert t'.consumers[k] == Starting(batch);
    steps', t' := Runs.Take(Next, s, steps', t', Consume(k, StartNext));
  }

  lemma ReceiveAndWork(s: State, steps: seq<Step>, t: State, id: TaskId) returns (steps': seq<Step>, t': State)
    requires Runs.After(Next, s, steps) == Some(t) && t.stream != [] && t.stream[0] == [Task(id, "Pending")]
    ensures Runs.After(Next, s, steps') == Some(t')
    ensures t'.stream == t.stream[1..] && t'.started == t.started + multiset{id}
    ensures t'.putBack == t.putBack && t'.running == t.running + multiset{id}
    ensures t'.producers == t.producers && t'.table.Keys == t.table.Keys
  {
    var batch: Batch := [Task(id, "Pending")];
    assert ValidOnly(batch) == batch;
    steps', t' := Receive(s, steps, t, batch);
    steps', t' := Work(s, steps', t.(stream := t.stream[1..]), id);
  }

  lemma InsertAndFetch(s: State, id: TaskId) returns (steps: seq<Step>, t: State)
    requires Initial(s)
    ensures Runs.After(Next, s, steps) == Some(t)
    ensures t == With(s.(table := map[id := Row(New, "Pending")]), Flushing([[Task(id, "Pending")]]))
  {
    var row := Row(New, "Pending");
    var inserted := s.(table := map[id := row]);
    assert Next(s, Insert(id, row)) == Some(inserted);
    steps, t := Runs.Take(Next, s, [], s, Insert(id, row));
    steps := FetchOne(s, steps, inserted, id);
    t := With(inserted, Flushing([[Task(id, "Pending")]]));
  }

  /** The lock expires under a producer that has fetched the task; another one fetches it too. */
  lemma FetchTwice(s: State, id: TaskId) returns (steps: seq<Step>, t: State)
    requires Initial(s)
    ensures Runs.After(Next, s, steps) == Some(t)
    ensures s.nextProducer in t.producers && t.producers[s.nextProducer] == Flushing([[Task(id, "Pending")]])
    ensures s.nextProducer + 1 in t.producers && t.producers[s.nextProducer + 1] == Flushing([[Task(id, "Pending")]])
    ensures id in t.table && t.stream == [] && t.consumers == []
    ensures t.started == multiset{} && t.putBack == multiset{}
  {
    var held;
    steps, held := InsertAndFetch(s, id);
    var freed := held.(lock := None);
    assert freed.nextProducer == s.nextProducer + 1;
    assert Next(held, LockExpires) == Some(freed);
    steps, t := Runs.Take(Next, s, steps, held, LockExpires);
    steps := FetchOne(s, steps, freed, id);
    var p := Flushing([[Task(id, "Pending")]]);
    t := With(freed, p);
    assert t.producers == freed.producers[s.nextProducer + 1 := p];
  }

  /** If the lock expires under a producer at work, a task never put back can be started twice. */
  lemma LockExpiryStartsTwice(s: State, id: TaskId) returns (steps: seq<Step>, t: State)
    requires Initial(s)
    ensures Runs.After(Next, s, steps) == Some(t)
    ensures t.started[id] == 2 && t.putBack[id] == 0
  {
    var batch := [Task(id, "Pending")];
    steps, t := FetchTwice(s, id);
    steps, t := Publish(s, steps, t, s.nextProducer, id, Answered);
    steps, t := Publish(s, steps, t, s.nextProducer + 1, id, Answered);
    assert t.stream == [batch, batch];
    steps, t := ReceiveAndWork(s, steps, t, id);
    assert t.stream == [batch];
    steps, t := ReceiveAndWork(s, steps, t, id);
  }

  lemma UpdateOnceMore(s: State, steps: seq<Step>, t: State, pid: nat, id: TaskId)
    returns (steps': seq<Step>, t': State)
    requires Runs.After(Next, s, steps) == Some(t) && id in t.table
    requires pid in t.producers && t.producers[pid] == UpdatingAgain([Task(id, "Pending")], [])
    ensures Runs.After(Next, s, steps') == Some(t')
    ensures t'.running == t.running && id in t'.table && t'.table[id].status == Processing
  {
    var batch: Batch := [Task(id, "Pending")];
    assert HasTask(batch, id) by {
      assert batch[0].id == id;
    }
    steps', t' := Runs.Take(Next, s, steps, t, Produce(pid, UpdateAgain(Answered)));
  }

  /** An append that took effect unheard lets the repeated update overwrite a running task's status. */
  lemma UnheardAppendUnsettlesStatus(s: State, id: TaskId) returns (steps: seq<Step>, t: State)
    requires Initial(s)
    ensures Runs.After(Next, s, steps) == Some(t)
    ensures id in t.running && id in t.table && t.table[id].status == Processing
  {
    var batch: Batch := [Task(id, "Pending")];
    steps, t := InsertAndFetch(s, id);
    steps, t := Publish(s, steps, t, s.nextProducer, id, Unheard);
    assert t.stream == [batch];
    steps, t := ReceiveAndWork(s, steps, t, id);
    steps, t := UpdateOnceMore(s, steps, t, s.nextProducer, id);
  }

  /** A row rewritten while its task is on its way: the task is Pending and in the stream at once. */
  lemma EarlyRewriteUnsettlesStatus(s: State, id: TaskId) returns (steps: seq<Step>, t: State)
    requires Initial(s)
    ensures Runs.After(Next, s, steps) == Some(t)
    ensures id in t.table && t.table[id].status == Pending && t.stream == [[Task(id, "Pending")]]
  {
    steps, t := InsertAndFetch(s, id);
    steps, t := Publish(s, steps, t, s.nextProducer, id, Answered);
    steps, t := Runs.Take(Next, s, steps, t, Put(id, Row(Pending, "Pending")));
  }
}
