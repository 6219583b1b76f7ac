/**
  The drainer's own code, run by one session among others on a shard. The shared world is a state of
  the step system; between any two awaits everybody else may take any number of steps. The contracts
  say that all the code ever does is take steps of that system, in the order it prescribes, so that
  every theorem about runs is a theorem about this code.
 */
module DrainerCode {
  import opened Common
  import opened RedisStream
  import opened DrainerShard
  import DrainerExclusion
  import Runs

  /** Everything a session cannot know in advance: how each of its remote calls turns out. */
  datatype Outcomes = Outcomes(
    readable: bool,                      // whether XREAD gets an answer
    query: nat -> (Verdict, Db),       // the database's answer to the k-th statement, and its new contents
    trim: Reply,
    delete: Reply,
    release: Reply)

  function By(sid: nat): Step -> bool {
    (step: Step) => step.Session? && step.sid == sid
  }

  function Execution(sid: nat, outcomes: Outcomes, k: nat): Step {
    Session(sid, Execute(outcomes.query(k).0, outcomes.query(k).1))
  }

  /** What the entry loop sends from entry `k` on: every statement up to the first that fails. */
  function LoopSteps(sid: nat, entries: seq<Entry>, outcomes: Outcomes, k: nat): seq<Step>
    decreases |entries| - k
  {
    if k >= |entries| || entries[k].op.None? then []
    else if !Settles(entries, outcomes, k) then [Execution(sid, outcomes, k)]
    else [Execution(sid, outcomes, k)] + LoopSteps(sid, entries, outcomes, k + 1)
  }

  function TrimSteps(sid: nat, outcomes: Outcomes): seq<Step> {
    if outcomes.trim.Answered? then [Session(sid, Trim(outcomes.trim))] + [Session(sid, Delete(outcomes.delete))]
    else [Session(sid, Trim(outcomes.trim))]
  }

  function ProcessSteps(sid: nat, entries: seq<Entry>, outcomes: Outcomes, processed: nat): seq<Step> {
    LoopSteps(sid, entries, outcomes, 0) + if processed == 0 then [] else TrimSteps(sid, outcomes)
  }

  /** The whole session, given what it read and how far it got. */
  function DrainSteps(sid: nat, entries: seq<Entry>, outcomes: Outcomes, processed: nat): seq<Step> {
    if entries == [] then [Session(sid, ReadFails)]
    else [Session(sid, Read(|entries|))] + ProcessSteps(sid, entries, outcomes, processed)
  }

  predicate Settles(entries: seq<Entry>, outcomes: Outcomes, k: nat)
    requires k < |entries|
  {
    entries[k].op.Some? && !outcomes.query(k).0.Failed?
  }

  /** How far the entry loop gets, once it has got to `k`. */
  function Progress(entries: seq<Entry>, outcomes: Outcomes, k: nat): nat
    decreases |entries| - k
  {
    if k < |entries| && Settles(entries, outcomes, k) then Progress(entries, outcomes, k + 1) else k
  }

  /** The id of the last of the first `k` entries. */
  function LastId(entries: seq<Entry>, k: nat): Option<nat> {
    if 0 < k <= |entries| then Some(entries[k - 1].id) else None
  }

  /** All entries it passes parse and do not fail, and the one it stops at, if any, does not. */
  lemma {:induction false} ProgressIsLongestPrefix(entries: seq<Entry>, outcomes: Outcomes, k: nat)
    requires k <= |entries|
    ensures k <= Progress(entries, outcomes, k) <= |entries|
    ensures forall i :: k <= i < Progress(entries, outcomes, k) ==> Settles(entries, outcomes, i)
    ensures var p := Progress(entries, outcomes, k); p < |entries| ==> !Settles(entries, outcomes, p)
    decreases |entries| - k
  {
    if k < |entries| && Settles(entries, outcomes, k) {
      ProgressIsLongestPrefix(entries, outcomes, k + 1);
    }
  }

  class Store {
    ghost const origin: State
    ghost var taken: seq<Step>
    ghost var own: nat -> seq<Step>
    var now: State

    /** The run so far leads to the present state, and its steps are noted under whoever took them. */
    ghost predicate Valid()
      reads this
    {
      forall who :: Faithful(who)
    }

    ghost predicate Faithful(who: nat)
      reads this
    {
      && Runs.After(Next, origin, taken) == Some(now)
      && own(who) == Runs.Own(By(who), taken)
    }

    constructor (start: State)
      ensures Valid() && origin == start && now == start && taken == []
    {
      origin, now, taken := start, start, [];
      own := (_: nat) => [];
    }

    method Take(step: Step)
      requires Valid() && Next(now, step).Some?
      modifies this
      ensures Valid() && now == Next(old(now), step).value && taken == old(taken) + [step]
      ensures forall who :: Own(who) == old(Own(who)) + if By(who)(step) then [step] else []
    {
      assert Faithful(0);
      ghost var before, was := taken, own;
      Runs.Extend(Next, origin, taken, step);
      now := Next(now, step).value;
      taken := taken + [step];
      own := (who: nat) => was(who) + if By(who)(step) then [step] else [];
      forall who ensures Faithful(who) {
        assert old(Faithful(who));
        Runs.OwnSnoc(By(who), before, step);
      }
    }

    ghost function Own(sid: nat): seq<Step>
      reads this
    {
      own(sid)
    }

    /** One await of session `sid`. */
    method Act(sid: nat, action: Action)
      requires Valid() && sid in now.sessions && Possible(now, now.sessions[sid], action)
      modifies this
      ensures Valid() && now == Acted(old(now), sid, action) && taken == old(taken) + [Session(sid, action)]
      ensures Own(sid) == old(Own(sid)) + [Session(sid, action)]
    {
      Take(Session(sid, action));
    }

    /** Everybody else, while session `sid` is suspended. Callers rely on the contract alone. */
    method Others(sid: nat)
      requires Valid() && sid in now.sessions
      modifies this
      ensures Valid() && old(taken) <= taken && Own(sid) == old(Own(sid))
      ensures sid in now.sessions && now.sessions[sid] == old(now.sessions[sid])
    {
    }

    /** SET NX on the flag: true exactly when this call set it and heard so. */
    method IsStreamAvailable(reply: Reply) returns (available: bool, sid: nat)
      requires Valid()
      modifies this
      ensures Valid() && taken == old(taken) + if old(now.flag).None? then [Acquire(reply)] else []
      ensures available <==> old(now.flag).None? && reply.Answered?
      ensures available ==> sid in now.sessions && now.sessions[sid] == Picked && now.flag == Some(sid)
    {
      sid := now.nextSession;
      available := now.flag.None? && reply.Answered?;
      if now.flag.None? {
        Take(Acquire(reply));
      }
    }

    /**
      XREAD from the first entry, at the moment `at`, with a COUNT, where 0 means no limit; an empty
      stream is an error like any other.
     */
    method ReadFromStream(sid: nat, maxReadCount: nat, readable: bool) returns (entries: seq<Entry>, ghost at: State)
      requires Valid() && sid in now.sessions && now.sessions[sid] == Picked
      modifies this
      ensures Valid() && old(taken) <= taken && Runs.Passed(Next, origin, taken, |old(taken)|, at)
      ensures entries <= at.stream
      ensures |entries| == if !readable then 0 else if maxReadCount == 0 || |at.stream| < maxReadCount then |at.stream| else maxReadCount
      ensures entries == [] <==> !readable || at.stream == []
      ensures Own(sid) == old(Own(sid)) + [Session(sid, if entries == [] then ReadFails else Read(|entries|))]
      ensures sid in now.sessions &&
        now.sessions[sid] == if entries == [] then Releasing(None) else LoopHead(entries, Removed(at), 0)
    {
      Others(sid);
      at := now;
      ghost var before := taken;
      assert Faithful(0);
      Runs.PassingNow(Next, origin, before, |old(taken)|, at);
      var count := if maxReadCount == 0 || |now.stream| < maxReadCount then |now.stream| else maxReadCount;
      entries := if readable then now.stream[..count] else [];
      Act(sid, if entries == [] then ReadFails else Read(|entries|));
      Runs.PassedBefore(Next, origin, before, |old(taken)|, at, taken, |old(taken)|);
    }

    /** XTRIM at the last processed id. */
    method StreamTrimEntries(sid: nat, outcomes: Outcomes, lastId: nat, ghost read: seq<Entry>, ghost base: nat, ghost next: nat)
      returns (count: nat)
      requires Valid() && sid in now.sessions && now.sessions[sid] == Trimming(read, base, next)
      requires 0 < next <= |read| && read[next - 1].id == lastId
      modifies this
      ensures Valid() && old(taken) <= taken && Own(sid) == old(Own(sid)) + [Session(sid, Trim(outcomes.trim))]
      ensures sid in now.sessions &&
        now.sessions[sid] == if outcomes.trim.Answered? then Deleting(read, base, next, count) else Releasing(None)
    {
      Others(sid);
      Act(sid, Trim(outcomes.trim));
      count := if outcomes.trim.Answered? then now.sessions[sid].trimmed else 0;
    }

    /** XDEL of that id. */
    method StreamDeleteEntries(
      sid: nat, outcomes: Outcomes, lastId: nat, ghost read: seq<Entry>, ghost base: nat, ghost next: nat, ghost count: nat)
      requires Valid() && sid in now.sessions && now.sessions[sid] == Deleting(read, base, next, count)
      requires 0 < next <= |read| && read[next - 1].id == lastId
      modifies this
      ensures Valid() && old(taken) <= taken && Own(sid) == old(Own(sid)) + [Session(sid, Delete(outcomes.delete))]
      ensures sid in now.sessions &&
        now.sessions[sid] == Releasing(if outcomes.delete.Answered? then Some(Report(|read|, next, count + 1)) else None)
    {
      Others(sid);
      Act(sid, Delete(outcomes.delete));
    }

    /** XTRIM, then XDEL; what the caller gets is XTRIM's count plus one. */
    method TrimFromStream(sid: nat, outcomes: Outcomes, lastId: nat, ghost read: seq<Entry>, ghost base: nat, ghost next: nat)
      returns (trimmed: Result<nat, ()>)
      requires Valid() && sid in now.sessions && now.sessions[sid] == Trimming(read, base, next)
      requires 0 < next <= |read| && read[next - 1].id == lastId
      modifies this
      ensures Valid() && old(taken) <= taken && Own(sid) == old(Own(sid)) + TrimSteps(sid, outcomes)
      ensures trimmed.Ok? <==> outcomes.trim.Answered? && outcomes.delete.Answered?
      ensures sid in now.sessions &&
        now.sessions[sid] == Releasing(if trimmed.Ok? then Some(Report(|read|, next, trimmed.value)) else None)
    {
      var count := StreamTrimEntries(sid, outcomes, lastId, read, base, next);
      if !outcomes.trim.Answered? {
        return Err(());
      }
      StreamDeleteEntries(sid, outcomes, lastId, read, base, next, count);
      Runs.Chained(old(Own(sid)), [Session(sid, Trim(outcomes.trim))], [Session(sid, Delete(outcomes.delete))]);
      trimmed := if outcomes.delete.Answered? then Ok(count + 1) else Err(());
    }

    /** One statement; a unique violation counts as settled. */
    method ExecuteQuery(sid: nat, outcomes: Outcomes, entries: seq<Entry>, ghost base: nat, k: nat) returns (settled: bool)
      requires Valid() && sid in now.sessions && k < |entries| && now.sessions[sid] == Executing(entries, base, k)
      modifies this
      ensures Valid() && old(taken) <= taken && Own(sid) == old(Own(sid)) + [Execution(sid, outcomes, k)]
      ensures settled <==> !outcomes.query(k).0.Failed?
      ensures sid in now.sessions &&
        now.sessions[sid] == if settled then LoopHead(entries, base, k + 1) else LeaveLoop(entries, base, k)
    {
      Others(sid);
      var (verdict, db) := outcomes.query(k);
      Act(sid, Execute(verdict, db));
      settled := !verdict.Failed?;
    }

    /** One entry: it must parse, and its statement must not fail. */
    method ProcessEntry(sid: nat, outcomes: Outcomes, entries: seq<Entry>, ghost base: nat, k: nat) returns (settled: bool)
      requires Valid() && sid in now.sessions && k < |entries| && now.sessions[sid] == LoopHead(entries, base, k)
      modifies this
      ensures Valid() && old(taken) <= taken
      ensures if entries[k].op.Some? then Own(sid) == old(Own(sid)) + [Execution(sid, outcomes, k)] else Own(sid) == old(Own(sid))
      ensures settled <==> Settles(entries, outcomes, k)
      ensures sid in now.sessions &&
        now.sessions[sid] == if settled then LoopHead(entries, base, k + 1) else LeaveLoop(entries, base, k)
    {
      settled := false;
      if entries[k].op.Some? {
        settled := ExecuteQuery(sid, outcomes, entries, base, k);
      }
    }

    /** The entry loop stands at its head with `processed` entries behind it; `goal` is what it will have sent. */
    ghost predicate AtEntry(sid: nat, outcomes: Outcomes, entries: seq<Entry>, base: nat, goal: seq<Step>, processed: nat)
      reads this
    {
      && processed <= |entries| && Progress(entries, outcomes, processed) == Progress(entries, outcomes, 0)
      && sid in now.sessions && now.sessions[sid] == LoopHead(entries, base, processed)
      && Own(sid) + LoopSteps(sid, entries, outcomes, processed) == goal
    }

    /** It has left the loop. */
    ghost predicate Left(sid: nat, outcomes: Outcomes, entries: seq<Entry>, base: nat, goal: seq<Step>, processed: nat)
      reads this
    {
      && processed == Progress(entries, outcomes, 0) <= |entries|
      && sid in now.sessions && now.sessions[sid] == LeaveLoop(entries, base, processed)
      && Own(sid) == goal
    }

    method NextEntry(sid: nat, outcomes: Outcomes, entries: seq<Entry>, ghost base: nat, ghost goal: seq<Step>, k: nat)
      returns (settled: bool)
      requires Valid() && k < |entries| && AtEntry(sid, outcomes, entries, base, goal, k)
      modifies this
      ensures Valid() && old(taken) <= taken
      ensures if settled then AtEntry(sid, outcomes, entries, base, goal, k + 1) else Left(sid, outcomes, entries, base, goal, k)
    {
      ghost var own := Own(sid);
      settled := ProcessEntry(sid, outcomes, entries, base, k);
      if settled {
        Runs.Chained(own, [Execution(sid, outcomes, k)], LoopSteps(sid, entries, outcomes, k + 1));
      } else {
        assert own + [] == own;
      }
    }

    lemma EndOfEntries(sid: nat, outcomes: Outcomes, entries: seq<Entry>, base: nat, goal: seq<Step>)
      requires AtEntry(sid, outcomes, entries, base, goal, |entries|)
      ensures Left(sid, outcomes, entries, base, goal, |entries|)
    {
      assert Own(sid) + [] == Own(sid);
    }

    /** One pass over what was read, stopping at the first entry that does not parse or fails. */
    method EntryLoop(sid: nat, outcomes: Outcomes, entries: seq<Entry>, ghost base: nat)
      returns (processed: nat, lastProcessedId: Option<nat>)
      requires Valid() && sid in now.sessions && now.sessions[sid] == LoopHead(entries, base, 0)
      modifies this
      ensures Valid() && old(taken) <= taken
      ensures Left(sid, outcomes, entries, base, old(Own(sid)) + LoopSteps(sid, entries, outcomes, 0), processed)
      ensures lastProcessedId == LastId(entries, processed)
    {
      processed, lastProcessedId := 0, None;
      var going := true;
      ghost var goal := Own(sid) + LoopSteps(sid, entries, outcomes, 0);
      while going && processed < |entries|
        invariant Valid() && old(taken) <= taken && processed <= |entries|
        invariant if going then AtEntry(sid, outcomes, entries, base, goal, processed)
                  else Left(sid, outcomes, entries, base, goal, processed)
        invariant lastProcessedId == LastId(entries, processed)
        decreases going, |entries| - processed
      {
        going := NextEntry(sid, outcomes, entries, base, goal, processed);
        if going {
          lastProcessedId := Some(entries[processed].id);
          processed := processed + 1;
        }
      }
      if going {
        EndOfEntries(sid, outcomes, entries, base, goal);
      }
    }

    /**
      A session reads a prefix of the stream as it stood at one moment, `at`, processes the longest
      prefix of it that goes through, and trims exactly when that is not empty.
     */
    method Drainer(sid: nat, maxReadCount: nat, outcomes: Outcomes) returns (processed: nat, ghost entries: seq<Entry>, ghost at: State)
      requires Valid() && sid in now.sessions && now.sessions[sid] == Picked
      modifies this
      ensures Valid() && old(taken) <= taken && Runs.Passed(Next, origin, taken, |old(taken)|, at)
      ensures entries <= at.stream && processed == Progress(entries, outcomes, 0) <= |entries|
      ensures |entries| ==
        if !outcomes.readable then 0 else if maxReadCount == 0 || |at.stream| < maxReadCount then |at.stream| else maxReadCount
      ensures entries == [] <==> !outcomes.readable || at.stream == []
      ensures Own(sid) == old(Own(sid)) + DrainSteps(sid, entries, outcomes, processed)
      ensures sid in now.sessions && now.sessions[sid].Releasing?
      ensures Initial(origin) && Runs.Obeys(Next, DrainerExclusion.HolderKeepsFlag, origin, taken) ==>
        (now.sessions[sid].report.Some? ==> now.sessions[sid].report.value.trimmed == processed)
    {
      var read;
      read, at := ReadFromStream(sid, maxReadCount, outcomes.readable);
      entries := read;
      if read == [] {
        return 0, entries, at;
      }
      ghost var before := taken;
      processed := Process(sid, outcomes, read, Removed(at));
      Runs.Chained(old(Own(sid)), [Session(sid, Read(|entries|))], ProcessSteps(sid, entries, outcomes, processed));
      Runs.PassedBefore(Next, origin, before, |old(taken)|, at, taken, |old(taken)|);
    }

    /** Everything after a successful read. */
    method Process(sid: nat, outcomes: Outcomes, entries: seq<Entry>, ghost base: nat) returns (processed: nat)
      requires Valid() && sid in now.sessions && now.sessions[sid] == LoopHead(entries, base, 0)
      modifies this
      ensures Valid() && old(taken) <= taken
      ensures processed == Progress(entries, outcomes, 0) <= |entries|
      ensures Own(sid) == old(Own(sid)) + ProcessSteps(sid, entries, outcomes, processed)
      ensures sid in now.sessions && now.sessions[sid].Releasing?
      ensures Initial(origin) && Runs.Obeys(Next, DrainerExclusion.HolderKeepsFlag, origin, taken) ==>
        (now.sessions[sid].report.Some? ==> now.sessions[sid].report.value.trimmed == processed)
    {
      var lastProcessedId;
      ghost var own := Own(sid);
      processed, lastProcessedId := EntryLoop(sid, outcomes, entries, base);
      if lastProcessedId.Some? {
        var trimmed := TrimFromStream(sid, outcomes, lastProcessedId.value, entries, base, processed);
        Runs.Chained(own, LoopSteps(sid, entries, outcomes, 0), TrimSteps(sid, outcomes));
        if trimmed.Ok? && Initial(origin) && Runs.Obeys(Next, DrainerExclusion.HolderKeepsFlag, origin, taken) {
          assert Faithful(0);
          DrainerExclusion.TrimAccounting(origin, taken, now, sid);
        }
      }
    }

    /** Drain, then delete the flag whatever happened. */
    method DrainerHandler(sid: nat, maxReadCount: nat, outcomes: Outcomes)
      returns (result: Result<(), ()>, ghost processed: nat, ghost entries: seq<Entry>, ghost at: State)
      requires Valid() && sid in now.sessions && now.sessions[sid] == Picked
      modifies this
      ensures Valid() && old(taken) <= taken && Runs.Passed(Next, origin, taken, |old(taken)|, at)
      ensures entries <= at.stream && processed == Progress(entries, outcomes, 0) <= |entries|
      ensures |entries| ==
        if !outcomes.readable then 0 else if maxReadCount == 0 || |at.stream| < maxReadCount then |at.stream| else maxReadCount
      ensures entries == [] <==> !outcomes.readable || at.stream == []
      ensures Own(sid) == old(Own(sid)) + DrainSteps(sid, entries, outcomes, processed) + [Session(sid, Release(outcomes.release))]
      ensures sid !in now.sessions
      ensures result.Ok? <==> outcomes.release.Answered?
      ensures !outcomes.release.Rejected? ==> now.flag == None
    {
      processed, entries, at := Drainer(sid, maxReadCount, outcomes);
      ghost var before := taken;
      Others(sid);
      Act(sid, Release(outcomes.release));
      Runs.PassedBefore(Next, origin, before, |old(taken)|, at, taken, |old(taken)|);
      result := if outcomes.release.Answered? then Ok(()) else Err(());
    }
  }
}
