/** Which tasks the scheduler picks: the rows of a query's answer, and the valid tasks of an entry. */
module SchedulerSelection {
  import opened Common
  import opened Batching
  import opened Scheduler

  // ---- Rows of a query -----------------------------------------------------------------------

  /** One task per row, in the order of the answer, with the row's business status. */
  lemma {:induction false} SnapshotRows(table: map<TaskId, Row>, ids: seq<TaskId>)
    requires forall i :: 0 <= i < |ids| ==> ids[i] in table
    ensures |Snapshot(table, ids)| == |ids|
    ensures forall i :: 0 <= i < |ids| ==> Snapshot(table, ids)[i] == Task(ids[i], table[ids[i]].businessStatus)
  {
    if ids != [] {
      SnapshotRows(table, ids[1..]);
    }
  }

  // ---- Valid tasks of an entry -----------------------------------------------------------------

  ghost predicate Increasing(positions: seq<nat>) {
    forall i, j :: 0 <= i < j < |positions| ==> positions[i] < positions[j]
  }

  /** `kept` are the tasks at these positions, all from `k` on and all pending. */
  ghost predicate StandAt(positions: seq<nat>, kept: seq<Task>, tasks: seq<Task>, k: nat) {
    && |positions| == |kept|
    && forall i :: 0 <= i < |kept| ==>
         k <= positions[i] < |tasks| && kept[i] == tasks[positions[i]] && kept[i].businessStatus == "Pending"
  }

  /** No pending task from `k` on is missing. */
  ghost predicate NoneMissing(positions: seq<nat>, tasks: seq<Task>, k: nat) {
    forall p :: k <= p < |tasks| && tasks[p].businessStatus == "Pending" ==> p in positions
  }

  ghost predicate PendingFrom(positions: seq<nat>, kept: seq<Task>, tasks: seq<Task>, k: nat) {
    Increasing(positions) && StandAt(positions, kept, tasks, k) && NoneMissing(positions, tasks, k)
  }

  /** `kept` are exactly the pending ones among the tasks, each of them, in order. */
  ghost predicate KeepsPending(kept: seq<Task>, tasks: seq<Task>) {
    exists positions :: PendingFrom(positions, kept, tasks, 0)
  }

  lemma FirstStands(positions: seq<nat>, kept: seq<Task>, tasks: seq<Task>, k: nat)
    requires k < |tasks| && tasks[k].businessStatus == "Pending" && StandAt(positions, kept, tasks, k + 1)
    ensures StandAt([k] + positions, [tasks[k]] + kept, tasks, k)
  {
  }

  lemma FirstIncreases(positions: seq<nat>, k: nat)
    requires Increasing(positions) && forall i :: 0 <= i < |positions| ==> k < positions[i]
    ensures Increasing([k] + positions)
  {
  }

  lemma FirstNotMissing(positions: seq<nat>, tasks: seq<Task>, k: nat)
    requires NoneMissing(positions, tasks, k + 1)
    ensures NoneMissing([k] + positions, tasks, k)
  {
    assert ([k] + positions)[0] == k;
  }

  lemma OneMorePending(positions: seq<nat>, kept: seq<Task>, tasks: seq<Task>, k: nat)
    requires k < |tasks| && tasks[k].businessStatus == "Pending" && PendingFrom(positions, kept, tasks, k + 1)
    ensures PendingFrom([k] + positions, [tasks[k]] + kept, tasks, k)
  {
    FirstStands(positions, kept, tasks, k);
    FirstIncreases(positions, k);
    FirstNotMissing(positions, tasks, k);
  }

  lemma {:induction false} ValidFrom(tasks: seq<Task>, k: nat) returns (positions: seq<nat>)
    requires k <= |tasks|
    ensures PendingFrom(positions, ValidOnly(tasks[k..]), tasks, k)
    decreases |tasks| - k
  {
    positions := [];
    if k < |tasks| {
      positions := ValidFrom(tasks, k + 1);
      var rest := ValidOnly(tasks[k + 1..]);
      assert tasks[k..][1..] == tasks[k + 1..] && tasks[k..][0] == tasks[k];
      if tasks[k].businessStatus == "Pending" {
        OneMorePending(positions, rest, tasks, k);
        positions := [k] + positions;
      } else {
        assert [] + rest == rest;
      }
    }
  }

  /** The filter keeps exactly the pending tasks, each of them, in order. */
  lemma ValidOnlyKeepsPending(tasks: seq<Task>)
    ensures KeepsPending(ValidOnly(tasks), tasks)
  {
    var positions := ValidFrom(tasks, 0);
    assert tasks[0..] == tasks;
  }

  lemma {:induction false} ValidOnlyCounts(tasks: seq<Task>, t: Task)
    ensures multiset(ValidOnly(tasks))[t] == if t.businessStatus == "Pending" then multiset(tasks)[t] else 0
  {
    if tasks != [] {
      ValidOnlyCounts(tasks[1..], t);
      assert tasks == [tasks[0]] + tasks[1..];
    }
  }
}
