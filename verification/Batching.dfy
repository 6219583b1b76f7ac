/** Tasks as they travel in batches, and how a list of them is cut into batches. */
module Batching {

  type TaskId(!new, ==)

  /** The copy of a task's row that a batch carries. */
  datatype Task = Task(id: TaskId, businessStatus: string)

  type Batch = seq<Task>

  /** How often a task occurs in a list of tasks. */
  function Occurs(id: TaskId, tasks: seq<Task>): nat {
    if tasks == [] then 0 else (if tasks[0].id == id then 1 else 0) + Occurs(id, tasks[1..])
  }

  function OccursIn(id: TaskId, batches: seq<Batch>): nat {
    if batches == [] then 0 else Occurs(id, batches[0]) + OccursIn(id, batches[1..])
  }

  lemma {:induction false} OccursConcat(id: TaskId, a: seq<Task>, b: seq<Task>)
    ensures Occurs(id, a + b) == Occurs(id, a) + Occurs(id, b)
  {
    if a == [] {
      assert a + b == b;
    } else {
      OccursConcat(id, a[1..], b);
      assert (a + b)[1..] == a[1..] + b;
    }
  }

  lemma {:induction false} OccursInConcat(id: TaskId, a: seq<Batch>, b: seq<Batch>)
    ensures OccursIn(id, a + b) == OccursIn(id, a) + OccursIn(id, b)
  {
    if a == [] {
      assert a + b == b;
    } else {
      OccursInConcat(id, a[1..], b);
      assert (a + b)[1..] == a[1..] + b;
    }
  }

  lemma OccursInAppend(id: TaskId, a: seq<Batch>, batch: Batch)
    ensures OccursIn(id, a + [batch]) == OccursIn(id, a) + Occurs(id, batch)
  {
    OccursInConcat(id, a, [batch]);
  }

  lemma {:induction false} OccursIffMember(id: TaskId, tasks: seq<Task>)
    ensures Occurs(id, tasks) > 0 <==> exists k :: 0 <= k < |tasks| && tasks[k].id == id
  {
    if tasks != [] {
      OccursIffMember(id, tasks[1..]);
      if k :| 0 <= k < |tasks| && tasks[k].id == id {
        assert k == 0 || tasks[1..][k - 1].id == id;
      }
      if k :| 0 <= k < |tasks[1..]| && tasks[1..][k].id == id {
        assert tasks[k + 1].id == id;
      }
    }
  }

  function Flatten(batches: seq<Batch>): seq<Task> {
    if batches == [] then [] else batches[0] + Flatten(batches[1..])
  }

  lemma {:induction false} OccursInFlatten(id: TaskId, batches: seq<Batch>)
    ensures OccursIn(id, batches) == Occurs(id, Flatten(batches))
  {
    if batches != [] {
      OccursInFlatten(id, batches[1..]);
      OccursConcat(id, batches[0], Flatten(batches[1..]));
    }
  }

  /** `chunks`: consecutive runs of `size` tasks, the last one possibly shorter. */
  function Chunks(tasks: seq<Task>, size: nat): seq<Batch>
    requires size > 0
  {
    if tasks == [] then []
    else if |tasks| <= size then [tasks]
    else [tasks[..size]] + Chunks(tasks[size..], size)
  }

  lemma {:induction false} ChunksFlatten(tasks: seq<Task>, size: nat)
    requires size > 0
    ensures Flatten(Chunks(tasks, size)) == tasks
  {
    if |tasks| > size {
      ChunksFlatten(tasks[size..], size);
      assert tasks[..size] + tasks[size..] == tasks;
      assert Chunks(tasks, size)[1..] == Chunks(tasks[size..], size);
    } else if tasks != [] {
      assert Flatten([tasks]) == tasks + Flatten([]);
    }
  }

  lemma {:induction false} ChunkSize(tasks: seq<Task>, size: nat, k: nat)
    requires size > 0 && k < |Chunks(tasks, size)|
    ensures 0 < |Chunks(tasks, size)[k]| <= size
    ensures k < |Chunks(tasks, size)| - 1 ==> |Chunks(tasks, size)[k]| == size
  {
    if |tasks| > size && k > 0 {
      ChunkSize(tasks[size..], size, k - 1);
    }
  }

  /** Nothing is lost, added or moved; no batch is empty; all but the last are full. */
  lemma ChunksPartition(tasks: seq<Task>, size: nat)
    requires size > 0
    ensures Flatten(Chunks(tasks, size)) == tasks
    ensures forall k :: 0 <= k < |Chunks(tasks, size)| ==> 0 < |Chunks(tasks, size)[k]| <= size
    ensures forall k :: 0 <= k < |Chunks(tasks, size)| - 1 ==> |Chunks(tasks, size)[k]| == size
  {
    ChunksFlatten(tasks, size);
    forall k | 0 <= k < |Chunks(tasks, size)|
      ensures 0 < |Chunks(tasks, size)[k]| <= size
      ensures k < |Chunks(tasks, size)| - 1 ==> |Chunks(tasks, size)[k]| == size
    {
      ChunkSize(tasks, size, k);
    }
  }

  lemma OccursInChunks(id: TaskId, tasks: seq<Task>, size: nat)
    requires size > 0
    ensures OccursIn(id, Chunks(tasks, size)) == Occurs(id, tasks)
  {
    ChunksFlatten(tasks, size);
    OccursInFlatten(id, Chunks(tasks, size));
  }

  /** The fold that pushes one batch per chunk. */
  method DivideIntoBatches(size: nat, tasks: seq<Task>) returns (batches: seq<Batch>)
    requires size > 0  // chunks of size zero panic
    ensures batches == Chunks(tasks, size)
  {
    batches := [];
    var rest := tasks;
    while rest != []
      invariant batches + Chunks(rest, size) == Chunks(tasks, size)
      decreases |rest|
    {
      var n := if |rest| <= size then |rest| else size;
      assert Chunks(rest, size) == [rest[..n]] + Chunks(rest[n..], size) by {
        if |rest| <= size {
          assert rest[..n] == rest && rest[n..] == [];
        }
      }
      batches := batches + [rest[..n]];
      rest := rest[n..];
    }
  }
}
