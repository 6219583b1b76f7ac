/** What one producer does with the tasks it fetched, batch by batch, under any pattern of failures. */
module ProducerFlush {
  import opened Common
  import opened Batching
  import opened Scheduler

  /** How the remote calls of one batch turn out. */
  datatype Outcome = Outcome(update: Reply, serializes: bool, append: Reply, updateAgain: Reply)

  datatype Fate =
    | Appended   // flipped, and in the stream
    | Untouched  // neither
    | Stranded   // flipped, but not in the stream

  function FateOf(o: Outcome): Fate {
    if o.update.Rejected? then Untouched
    else if o.update.Answered? && o.serializes && !o.append.Rejected? then Appended
    else Stranded
  }

  function FlushedTable(table: map<TaskId, Row>, batch: Batch, fate: Fate): map<TaskId, Row> {
    if fate.Untouched? then table else SetStatus(table, batch, Processing)
  }

  /** The table after the batches from `k` on, and the entries they leave in the stream. */
  function TableAfter(table: map<TaskId, Row>, batches: seq<Batch>, fates: nat -> Fate, k: nat): map<TaskId, Row>
    decreases |batches|
  {
    if batches == [] then table
    else TableAfter(FlushedTable(table, batches[0], fates(k)), batches[1..], fates, k + 1)
  }

  function EntriesAfter(batches: seq<Batch>, fates: nat -> Fate, k: nat): seq<Batch>
    decreases |batches|
  {
    if batches == [] then []
    else (if fates(k).Appended? then [batches[0]] else []) + EntriesAfter(batches[1..], fates, k + 1)
  }

  class Board {
    var table: map<TaskId, Row>
    var stream: seq<Batch>

    method UpdateStatusAndAppend(batch: Batch, o: Outcome) returns (result: Result<(), ()>)
      modifies this
      ensures table == FlushedTable(old(table), batch, FateOf(o))
      ensures stream == old(stream) + if FateOf(o).Appended? then [batch] else []
      ensures result.Ok? <==> o.update.Answered? && o.serializes && o.append.Answered?
    {
      if !o.update.Rejected? {
        table := SetStatus(table, batch, Processing);
      }
      if !o.update.Answered? {
        return Err(());
      }
      if !o.serializes {
        return Err(());
      }
      if !o.append.Rejected? {
        stream := stream + [batch];
      }
      if o.append.Answered? {
        return Ok(());
      }
      if !o.updateAgain.Rejected? {
        SetStatusTwice(table, batch);
        table := SetStatus(table, batch, Processing);
      }
      result := Err(());
    }

    /** Every batch is tried; the failure of one is logged and does not stop the next. */
    method DivideAndAppendTasks(tasks: seq<Task>, batchSize: nat, outcomes: nat -> Outcome)
      requires batchSize > 0
      modifies this
      ensures var fates := (k: nat) => FateOf(outcomes(k));
        && table == TableAfter(old(table), Chunks(tasks, batchSize), fates, 0)
        && stream == old(stream) + EntriesAfter(Chunks(tasks, batchSize), fates, 0)
    {
      var todo := DivideIntoBatches(batchSize, tasks);
      ghost var fates := (k: nat) => FateOf(outcomes(k));
      ghost var finalTable := TableAfter(table, todo, fates, 0);
      ghost var finalStream := stream + EntriesAfter(todo, fates, 0);
      var k := 0;
      while todo != []
        invariant TableAfter(table, todo, fates, k) == finalTable
        invariant stream + EntriesAfter(todo, fates, k) == finalStream
        decreases |todo|
      {
        ghost var own := if fates(k).Appended? then [todo[0]] else [];
        assert stream + (own + EntriesAfter(todo[1..], fates, k + 1)) == stream + own + EntriesAfter(todo[1..], fates, k + 1);
        var result := UpdateStatusAndAppend(todo[0], outcomes(k));
        todo, k := todo[1..], k + 1;
      }
      assert stream + [] == stream;
    }
  }

  lemma SetStatusTwice(table: map<TaskId, Row>, batch: Batch)
    ensures table.Keys == SetStatus(table, batch, Processing).Keys
    ensures SetStatus(SetStatus(table, batch, Processing), batch, Processing) == SetStatus(table, batch, Processing)
  {
  }

  lemma FlushedRow(table: map<TaskId, Row>, batch: Batch, fate: Fate, id: TaskId)
    requires id in table
    ensures id in FlushedTable(table, batch, fate)
    ensures FlushedTable(table, batch, fate)[id] ==
            if Occurs(id, batch) > 0 && !fate.Untouched? then table[id].(status := Processing) else table[id]
  {
    OccursIffMember(id, batch);
  }

  lemma {:induction false} OthersKeepRows(
    table: map<TaskId, Row>, batches: seq<Batch>, fates: nat -> Fate, k: nat, id: TaskId)
    requires id in table && OccursIn(id, batches) == 0
    ensures id in TableAfter(table, batches, fates, k) && TableAfter(table, batches, fates, k)[id] == table[id]
    ensures OccursIn(id, EntriesAfter(batches, fates, k)) == 0
    decreases |batches|
  {
    if batches != [] {
      FlushedRow(table, batches[0], fates(k), id);
      OthersKeepRows(FlushedTable(table, batches[0], fates(k)), batches[1..], fates, k + 1, id);
      OccursInConcat(id, if fates(k).Appended? then [batches[0]] else [], EntriesAfter(batches[1..], fates, k + 1));
    }
  }

  /** The batch a task travels in. */
  function BatchOf(id: TaskId, batches: seq<Batch>): nat {
    if batches == [] || Occurs(id, batches[0]) > 0 then 0 else 1 + BatchOf(id, batches[1..])
  }

  lemma {:induction false} BatchDecides(
    table: map<TaskId, Row>, batches: seq<Batch>, fates: nat -> Fate, k: nat, id: TaskId)
    requires id in table && OccursIn(id, batches) == 1
    ensures id in TableAfter(table, batches, fates, k)
    ensures var fate, row := fates(k + BatchOf(id, batches)), TableAfter(table, batches, fates, k)[id];
      && OccursIn(id, EntriesAfter(batches, fates, k)) == (if fate.Appended? then 1 else 0)
      && row == if fate.Untouched? then table[id] else table[id].(status := Processing)
    decreases |batches|
  {
    var rest := batches[1..];
    var flushed := FlushedTable(table, batches[0], fates(k));
    FlushedRow(table, batches[0], fates(k), id);
    if Occurs(id, batches[0]) > 0 {
      OthersKeepRows(flushed, rest, fates, k + 1, id);
    } else {
      BatchDecides(flushed, rest, fates, k + 1, id);
    }
    OccursInConcat(id, if fates(k).Appended? then [batches[0]] else [], EntriesAfter(rest, fates, k + 1));
  }

  /**
    Whatever fails where, a task fetched once ends in exactly one of three ways: appended once and
    Processing, never appended with its row unchanged, or Processing and never appended. A task that
    was not fetched keeps its row and is not appended.
   */
  lemma Conservation(table: map<TaskId, Row>, tasks: seq<Task>, batchSize: nat, fates: nat -> Fate, id: TaskId)
    requires batchSize > 0 && id in table && Occurs(id, tasks) <= 1
    ensures id in TableAfter(table, Chunks(tasks, batchSize), fates, 0)
    ensures var row := TableAfter(table, Chunks(tasks, batchSize), fates, 0)[id];
      var copies := OccursIn(id, EntriesAfter(Chunks(tasks, batchSize), fates, 0));
      if Occurs(id, tasks) == 0 then copies == 0 && row == table[id] else
        match fates(BatchOf(id, Chunks(tasks, batchSize)))
        case Appended => copies == 1 && row == table[id].(status := Processing)
        case Untouched => copies == 0 && row == table[id]
        case Stranded => copies == 0 && row == table[id].(status := Processing)
  {
    OccursInChunks(id, tasks, batchSize);
    if Occurs(id, tasks) == 0 {
      OthersKeepRows(table, Chunks(tasks, batchSize), fates, 0, id);
    } else {
      BatchDecides(table, Chunks(tasks, batchSize), fates, 0, id);
    }
  }
}
