/**
  The sequential account of a flush is the step system's when nobody interferes: taken one after the
  other, a producer's own steps leave exactly the table and the stream that its batches' fates say.
 */
module ProducerAlone {
  import opened Common
  import opened Batching
  import opened Scheduler
  import opened ProducerFlush
  import opened SchedulerCode
  import Runs

  function FatesOf(flush: nat -> Outcome): nat -> Fate {
    (k: nat) => FateOf(flush(k))
  }

  /** The state after one batch. */
  function Flushed(s: State, pid: nat, todo: seq<Batch>, o: Outcome): State
    requires todo != []
  {
    s.(table := FlushedTable(s.table, todo[0], FateOf(o)),
       stream := s.stream + if FateOf(o).Appended? then [todo[0]] else [],
       producers := s.producers[pid := Flushing(todo[1..])])
  }

  lemma OneStep(s: State, a: Step, u: State)
    requires Next(s, a) == Some(u)
    ensures Runs.After(Next, s, [a]) == Some(u)
  {
    assert [a][..0] == [] && Runs.After(Next, s, []) == Some(s);
  }

  lemma TwoSteps(s: State, a: Step, u: State, b: Step, v: State)
    requires Next(s, a) == Some(u) && Next(u, b) == Some(v)
    ensures Runs.After(Next, s, [a] + [b]) == Some(v)
  {
    OneStep(s, a, u);
    assert ([a] + [b])[..1] == [a];
  }

  /** The state once the producer is through with its batch. */
  function Through(s: State, pid: nat, rest: seq<Batch>, entries: seq<Batch>): State {
    s.(stream := s.stream + entries, producers := s.producers[pid := Flushing(rest)])
  }

  lemma UpdateAgainAlone(s: State, pid: nat, batch: Batch, rest: seq<Batch>, o: Outcome)
    requires pid in s.producers && s.producers[pid] == UpdatingAgain(batch, rest)
    requires s.table == SetStatus(s.table, batch, Processing)
    ensures Next(s, Produce(pid, UpdateAgain(o.updateAgain))) == Some(Through(s, pid, rest, []))
  {
    assert s.stream + [] == s.stream;
  }

  lemma FailedAppendAlone(s: State, pid: nat, batch: Batch, rest: seq<Batch>, o: Outcome)
    requires pid in s.producers && s.producers[pid] == Appending(batch, rest) && !o.append.Answered?
    requires s.table == SetStatus(s.table, batch, Processing)
    ensures Runs.After(Next, s, AppendSteps(pid, o)) == Some(Through(s, pid, rest, if o.append.Rejected? then [] else [batch]))
  {
    var u := Produced(s, pid, Append(o.append));
    UpdateAgainAlone(u, pid, batch, rest, o);
    var v := Through(u, pid, rest, []);
    TwoSteps(s, Produce(pid, Append(o.append)), u, Produce(pid, UpdateAgain(o.updateAgain)), v);
    assert s.stream + [] == s.stream && u.stream + [] == u.stream;
    assert u.producers[pid := Flushing(rest)] == s.producers[pid := Flushing(rest)];
  }

  lemma AppendAlone(s: State, pid: nat, batch: Batch, rest: seq<Batch>, o: Outcome)
    requires pid in s.producers && s.producers[pid] == Appending(batch, rest)
    requires s.table == SetStatus(s.table, batch, Processing)
    ensures Runs.After(Next, s, AppendSteps(pid, o)) == Some(Through(s, pid, rest, if o.append.Rejected? then [] else [batch]))
  {
    if o.append.Answered? {
      OneStep(s, Produce(pid, Append(o.append)), Through(s, pid, rest, [batch]));
    } else {
      FailedAppendAlone(s, pid, batch, rest, o);
    }
  }

  function AfterUpdate(pid: nat, o: Outcome): seq<Step> {
    if o.serializes then AppendSteps(pid, o) else [Produce(pid, SerializeFails)]
  }

  lemma SerializeAlone(s: State, pid: nat, batch: Batch, rest: seq<Batch>, o: Outcome)
    requires pid in s.producers && s.producers[pid] == Appending(batch, rest)
    requires s.table == SetStatus(s.table, batch, Processing)
    ensures Runs.After(Next, s, AfterUpdate(pid, o)) ==
      Some(Through(s, pid, rest, if !o.serializes || o.append.Rejected? then [] else [batch]))
  {
    if o.serializes {
      AppendAlone(s, pid, batch, rest, o);
    } else {
      assert s.stream + [] == s.stream;
      OneStep(s, Produce(pid, SerializeFails), Through(s, pid, rest, []));
    }
  }

  lemma UpdatedBatchAlone(s: State, pid: nat, todo: seq<Batch>, o: Outcome)
    requires pid in s.producers && s.producers[pid] == Flushing(todo) && todo != [] && o.update.Answered?
    ensures Runs.After(Next, s, BatchSteps(pid, o)) == Some(Flushed(s, pid, todo, o))
  {
    var update, u := Produce(pid, Update(o.update)), Produced(s, pid, Update(o.update));
    OneStep(s, update, u);
    SetStatusTwice(s.table, todo[0]);
    SerializeAlone(u, pid, todo[0], todo[1..], o);
    Runs.Then(Next, s, [update], u, AfterUpdate(pid, o));
    assert u.producers[pid := Flushing(todo[1..])] == s.producers[pid := Flushing(todo[1..])];
  }

  lemma BatchAlone(s: State, pid: nat, todo: seq<Batch>, o: Outcome)
    requires pid in s.producers && s.producers[pid] == Flushing(todo) && todo != []
    ensures Runs.After(Next, s, BatchSteps(pid, o)) == Some(Flushed(s, pid, todo, o))
  {
    if o.update.Answered? {
      UpdatedBatchAlone(s, pid, todo, o);
    } else {
      assert s.stream + [] == s.stream;
      OneStep(s, Produce(pid, Update(o.update)), Flushed(s, pid, todo, o));
    }
  }

  lemma OneMoreBatch(s: State, pid: nat, flush: nat -> Outcome, k: nat, v: State, u: State)
    requires Runs.After(Next, s, FlushSteps(pid, flush, k)) == Some(v)
    requires Runs.After(Next, v, BatchSteps(pid, flush(k))) == Some(u)
    ensures Runs.After(Next, s, FlushSteps(pid, flush, k + 1)) == Some(u)
  {
    Runs.Then(Next, s, FlushSteps(pid, flush, k), v, BatchSteps(pid, flush(k)));
  }

  /** A batch brings table and stream on towards the same end. */
  lemma Onward(v: State, pid: nat, todo: seq<Batch>, flush: nat -> Outcome, k: nat)
    requires todo != []
    ensures var u, fates := Flushed(v, pid, todo, flush(k)), FatesOf(flush);
      && TableAfter(u.table, todo[1..], fates, k + 1) == TableAfter(v.table, todo, fates, k)
      && u.stream + EntriesAfter(todo[1..], fates, k + 1) == v.stream + EntriesAfter(todo, fates, k)
  {
    var entry := if FatesOf(flush)(k).Appended? then [todo[0]] else [];
    Runs.Chained(v.stream, entry, EntriesAfter(todo[1..], FatesOf(flush), k + 1));
  }

  /** After `k` batches: where the producer stands, and that table and stream are on their way to the end. */
  ghost predicate Halfway(s: State, pid: nat, batches: seq<Batch>, flush: nat -> Outcome, k: nat, u: State)
    requires k <= |batches|
  {
    var todo, fates := batches[k..], FatesOf(flush);
    && pid in u.producers && u.producers[pid] == Flushing(todo)
    && TableAfter(u.table, todo, fates, k) == TableAfter(s.table, batches, fates, 0)
    && u.stream + EntriesAfter(todo, fates, k) == s.stream + EntriesAfter(batches, fates, 0)
  }

  lemma BatchOnTheWay(s: State, pid: nat, batches: seq<Batch>, flush: nat -> Outcome, k: nat, v: State)
    requires k < |batches| && Halfway(s, pid, batches, flush, k, v)
    ensures Halfway(s, pid, batches, flush, k + 1, Flushed(v, pid, batches[k..], flush(k)))
  {
    Onward(v, pid, batches[k..], flush, k);
    assert batches[k..][1..] == batches[k + 1..];
  }

  /** It gets to `u` by flushing `k` of its batches. */
  ghost predicate Gets(s: State, pid: nat, batches: seq<Batch>, flush: nat -> Outcome, k: nat, u: State) {
    k <= |batches| && Runs.After(Next, s, FlushSteps(pid, flush, k)) == Some(u) && Halfway(s, pid, batches, flush, k, u)
  }

  lemma GetsStarted(s: State, pid: nat, batches: seq<Batch>, flush: nat -> Outcome)
    requires pid in s.producers && s.producers[pid] == Flushing(batches)
    ensures Gets(s, pid, batches, flush, 0, s)
  {
    assert FlushSteps(pid, flush, 0) == [];
    assert batches[0..] == batches;
  }

  lemma GetsFurther(s: State, pid: nat, batches: seq<Batch>, flush: nat -> Outcome, k: nat, v: State) returns (u: State)
    requires k < |batches| && Gets(s, pid, batches, flush, k, v)
    ensures Gets(s, pid, batches, flush, k + 1, u)
  {
    u := Flushed(v, pid, batches[k..], flush(k));
    BatchAlone(v, pid, batches[k..], flush(k));
    OneMoreBatch(s, pid, flush, k, v, u);
    BatchOnTheWay(s, pid, batches, flush, k, v);
  }

  lemma BatchesAlone(s: State, pid: nat, batches: seq<Batch>, flush: nat -> Outcome) returns (u: State)
    requires pid in s.producers && s.producers[pid] == Flushing(batches)
    ensures Gets(s, pid, batches, flush, |batches|, u)
  {
    GetsStarted(s, pid, batches, flush);
    u := s;
    var k := 0;
    while k < |batches|
      invariant k <= |batches| && Gets(s, pid, batches, flush, k, u)
    {
      u := GetsFurther(s, pid, batches, flush, k, u);
      k := k + 1;
    }
  }

  /**
    A producer that flushes its batches undisturbed ends with the table and the stream of the
    sequential account, and has nothing left to do.
   */
  lemma FlushAlone(s: State, pid: nat, batches: seq<Batch>, flush: nat -> Outcome) returns (t: State)
    requires pid in s.producers && s.producers[pid] == Flushing(batches)
    ensures Runs.After(Next, s, FlushSteps(pid, flush, |batches|)) == Some(t)
    ensures pid in t.producers && t.producers[pid] == Flushing([])
    ensures t.table == TableAfter(s.table, batches, FatesOf(flush), 0)
    ensures t.stream == s.stream + EntriesAfter(batches, FatesOf(flush), 0)
  {
    t := BatchesAlone(s, pid, batches, flush);
    assert batches[|batches|..] == [];
    assert t.stream + [] == t.stream;
  }
}
