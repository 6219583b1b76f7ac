/**
  The part of a Redis stream that the drainer uses. Entry ids are strictly increasing in append
  order; an entry whose fields do not deserialize into an operation has `op == None`.
 */
module RedisStream {
  import opened Common

  type Op(!new, ==)

  datatype Entry = Entry(id: nat, op: Option<Op>)

  ghost predicate Ordered(s: seq<Entry>) {
    forall i, j :: 0 <= i < j < |s| ==> s[i].id < s[j].id
  }

  /** XTRIM MINID, exact: every entry below the given id goes, the entry itself stays. */
  function XTrimMinId(s: seq<Entry>, id: nat): (kept: seq<Entry>)
    ensures |kept| <= |s|
  {
    if s == [] then []
    else if s[0].id < id then XTrimMinId(s[1..], id)
    else [s[0]] + XTrimMinId(s[1..], id)
  }

  /** XDEL of a single id. */
  function XDel(s: seq<Entry>, id: nat): seq<Entry> {
    if s == [] then []
    else if s[0].id == id then XDel(s[1..], id)
    else [s[0]] + XDel(s[1..], id)
  }

  /** Trimming what is left of a log at the id of its entry `j` leaves the log from `j` on. */
  lemma {:induction false} TrimLeavesSuffix(log: seq<Entry>, r: nat, j: nat)
    requires Ordered(log) && r <= |log| && j < |log|
    ensures XTrimMinId(log[r..], log[j].id) == log[Max(r, j)..]
    decreases |log| - r
  {
    if r < |log| {
      TrimLeavesSuffix(log, r + 1, j);
      assert log[r..][1..] == log[r + 1..];
      assert log[r..][0] == log[r];
    }
  }

  /** Deleting entry `j` once everything before it is gone removes at most the head. */
  lemma {:induction false} DeleteLeavesSuffix(log: seq<Entry>, r: nat, j: nat)
    requires Ordered(log) && j <= r <= |log| && j < |log|
    ensures XDel(log[r..], log[j].id) == log[Max(r, j + 1)..]
    decreases |log| - r
  {
    if r < |log| {
      DeleteLeavesSuffix(log, r + 1, j);
      assert log[r..][1..] == log[r + 1..];
      assert log[r..][0] == log[r];
    }
  }
}
