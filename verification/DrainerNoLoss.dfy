/**
  Nothing is lost and nothing is overtaken, whatever the sessions on a shard do to each other: no
  assumption on the flag, on crashes or on replies.
 */
module DrainerNoLoss {
  import opened Common
  import opened RedisStream
  import opened DrainerShard
  import Runs

  /** The stream is the log without a prefix, and the log is in id order. */
  ghost predicate StreamIsSuffix(s: State) {
    && Ordered(s.log)
    && (forall i :: 0 <= i < |s.log| ==> s.log[i].id <= s.lastId)
    && |s.stream| <= |s.log|
    && s.stream == s.log[Removed(s)..]
  }

  /** Exactly the first `m` appended entries have been settled, all of them well formed. */
  ghost predicate SettledTo(s: State, m: nat) {
    && Removed(s) <= m <= |s.log|
    && (forall e :: e in s.journal <==> e in s.log[..m])
    && (forall e :: e in s.journal ==> e.op.Some?)
  }

  /** What a session read is a slice of the log, and it has settled all of it up to `next`. */
  ghost predicate Processed(s: State, m: nat, read: seq<Entry>, base: nat, next: nat) {
    && base <= Removed(s)
    && base + |read| <= |s.log|
    && read == s.log[base..base + |read|]
    && next <= |read| && base + next <= m
  }

  ghost predicate PhaseInv(s: State, m: nat, phase: Phase) {
    match phase
    case Picked => true
    case Executing(read, base, next) =>
      Processed(s, m, read, base, next) && next < |read| && read[next].op.Some?
    case Trimming(read, base, next) => Processed(s, m, read, base, next) && 0 < next
    case Deleting(read, base, next, trimmed) =>
      Processed(s, m, read, base, next) && 0 < next && base + next - 1 <= Removed(s)
    case Releasing(report) => true
  }

  ghost predicate InvAt(s: State, m: nat) {
    && StreamIsSuffix(s)
    && SettledTo(s, m)
    && forall sid :: sid in s.sessions ==> PhaseInv(s, m, s.sessions[sid])
  }

  ghost predicate Inv(s: State) {
    exists m: nat :: InvAt(s, m)
  }

  lemma AppendKeeps(s: State, m: nat, entry: Entry)
    requires InvAt(s, m) && s.lastId < entry.id
    ensures InvAt(Next(s, Append(entry)).value, m)
  {
    var t := Next(s, Append(entry)).value;
    assert t.log[..m] == s.log[..m];
    forall sid | sid in t.sessions ensures PhaseInv(t, m, t.sessions[sid]) {
      var phase := s.sessions[sid];
      assert PhaseInv(s, m, phase);
      if phase.Executing? || phase.Trimming? || phase.Deleting? {
        assert t.log[phase.base..phase.base + |phase.read|] == s.log[phase.base..phase.base + |phase.read|];
      }
    }
  }

  /** Settling an entry that all earlier ones precede extends the settled prefix, or changes nothing. */
  lemma SettleKeeps(s: State, m: nat, i: nat) returns (m': nat)
    requires InvAt(s, m) && i <= m && i < |s.log| && s.log[i].op.Some?
    ensures m' == Max(m, i + 1)
    ensures InvAt(s.(journal := s.journal + [s.log[i]]), m')
  {
    m' := Max(m, i + 1);
    var t := s.(journal := s.journal + [s.log[i]]);
    if i == m {
      assert s.log[..m'] == s.log[..m] + [s.log[i]];
    } else {
      assert s.log[..m][i] == s.log[i];
    }
    assert SettledTo(t, m');
    forall k | k in t.sessions ensures PhaseInv(t, m', t.sessions[k]) {
      assert k in s.sessions && PhaseInv(s, m, s.sessions[k]);
    }
  }

  /** A step that only moves sessions, without giving one anything to account for. */
  lemma QuietKeeps(s: State, m: nat, t: State)
    requires InvAt(s, m)
    requires t.stream == s.stream && t.log == s.log && t.journal == s.journal && t.lastId == s.lastId
    requires forall k :: k in t.sessions ==>
      (k in s.sessions && t.sessions[k] == s.sessions[k]) || PhaseInv(s, m, t.sessions[k])
    ensures InvAt(t, m)
  {
    forall k | k in t.sessions ensures PhaseInv(t, m, t.sessions[k]) {
      assert PhaseInv(s, m, t.sessions[k]);
    }
  }

  lemma MoveKeeps(s: State, m: nat, sid: nat, phase: Phase, db: Db)
    requires InvAt(s, m) && PhaseInv(s, m, phase)
    ensures InvAt(Goto(s.(db := db), sid, phase), m)
  {
    QuietKeeps(s, m, Goto(s.(db := db), sid, phase));
  }

  lemma LoopPhasesInv(s: State, m: nat, read: seq<Entry>, base: nat, next: nat)
    requires Processed(s, m, read, base, next)
    ensures PhaseInv(s, m, LoopHead(read, base, next)) && PhaseInv(s, m, LeaveLoop(read, base, next))
  {
  }

  lemma ExecuteSettles(s: State, m: nat, sid: nat, read: seq<Entry>, base: nat, next: nat, db: Db) returns (m': nat)
    requires InvAt(s, m) && Processed(s, m, read, base, next)
    requires next < |read| && read[next] == s.log[base + next] && read[next].op.Some?
    ensures m' == Max(m, base + next + 1)
    ensures InvAt(Goto(s.(db := db, journal := s.journal + [read[next]]), sid, LoopHead(read, base, next + 1)), m')
  {
    m' := SettleKeeps(s, m, base + next);
    var u := s.(journal := s.journal + [s.log[base + next]]);
    LoopPhasesInv(u, m', read, base, next + 1);
    MoveKeeps(u, m', sid, LoopHead(read, base, next + 1), db);
  }

  lemma ExecuteKeeps(s: State, m: nat, sid: nat, verdict: Verdict, db: Db) returns (m': nat)
    requires InvAt(s, m) && sid in s.sessions && s.sessions[sid].Executing?
    requires PhaseInv(s, m, s.sessions[sid])
    ensures m' == if verdict.Failed? then m else Max(m, s.sessions[sid].base + s.sessions[sid].next + 1)
    ensures InvAt(Executed(s, sid, verdict, db), m')
  {
    var Executing(read, base, next) := s.sessions[sid];
    if verdict.Failed? {
      m' := m;
      LoopPhasesInv(s, m, read, base, next);
      MoveKeeps(s, m, sid, LeaveLoop(read, base, next), db);
    } else {
      m' := ExecuteSettles(s, m, sid, read, base, next, db);
    }
  }

  /** Taking entries off the front keeps everything, as long as only settled ones go. */
  lemma ShortenKeeps(s: State, m: nat, r: nat, sid: nat, phase: Phase)
    requires InvAt(s, m) && sid in s.sessions
    requires Removed(s) <= r <= m
    requires PhaseInv(s.(stream := s.log[r..]), m, phase)
    ensures InvAt(Goto(s.(stream := s.log[r..]), sid, phase), m)
  {
    var t := Goto(s.(stream := s.log[r..]), sid, phase);
    forall k | k in t.sessions ensures PhaseInv(t, m, t.sessions[k]) {
      assert k != sid ==> PhaseInv(s, m, s.sessions[k]);
    }
  }

  /** The trim leaves the log from the last processed entry on; the session may go on to delete that one. */
  lemma TrimShortens(s: State, m: nat, read: seq<Entry>, base: nat, next: nat) returns (r: nat)
    requires StreamIsSuffix(s) && Removed(s) <= m && Processed(s, m, read, base, next) && 0 < next
    ensures Removed(s) <= r <= m && r <= |s.log| && XTrimMinId(s.stream, read[next - 1].id) == s.log[r..]
    ensures forall trimmed :: PhaseInv(s.(stream := s.log[r..]), m, Deleting(read, base, next, trimmed))
  {
    var j := base + next - 1;
    assert read[next - 1] == s.log[j];
    TrimLeavesSuffix(s.log, Removed(s), j);
    r := Max(Removed(s), j);
  }

  lemma TrimKeeps(s: State, m: nat, sid: nat, reply: Reply)
    requires InvAt(s, m) && sid in s.sessions && s.sessions[sid].Trimming?
    requires 0 < s.sessions[sid].next <= |s.sessions[sid].read|
    ensures InvAt(Trimmed(s, sid, reply), m)
  {
    assert PhaseInv(s, m, s.sessions[sid]);
    var Trimming(read, base, next) := s.sessions[sid];
    var phase := Trimmed(s, sid, reply).sessions[sid];
    if reply.Rejected? {
      MoveKeeps(s, m, sid, phase, s.db);
    } else {
      var r := TrimShortens(s, m, read, base, next);
      ShortenKeeps(s, m, r, sid, phase);
    }
  }

  lemma DeleteKeeps(s: State, m: nat, sid: nat, reply: Reply)
    requires InvAt(s, m) && sid in s.sessions && s.sessions[sid].Deleting?
    requires 0 < s.sessions[sid].next <= |s.sessions[sid].read|
    ensures InvAt(Deleted(s, sid, reply), m)
  {
    assert PhaseInv(s, m, s.sessions[sid]);
    var Deleting(read, base, next, trimmed) := s.sessions[sid];
    var j := base + next - 1;
    assert read[next - 1] == s.log[j];
    DeleteLeavesSuffix(s.log, Removed(s), j);
    ShortenKeeps(s, m, if reply.Rejected? then Removed(s) else Max(Removed(s), j + 1), sid, Deleted(s, sid, reply).sessions[sid]);
  }

  lemma ReadKeeps(s: State, m: nat, sid: nat, count: nat)
    requires InvAt(s, m) && sid in s.sessions && 0 < count <= |s.stream|
    ensures InvAt(Goto(s, sid, LoopHead(s.stream[..count], Removed(s), 0)), m)
  {
    var r := Removed(s);
    assert s.stream[..count] == s.log[r..r + count];
    QuietKeeps(s, m, Goto(s, sid, LoopHead(s.stream[..count], r, 0)));
  }

  lemma StepKeeps(s: State, m: nat, step: Step) returns (m': nat)
    requires InvAt(s, m) && Next(s, step).Some?
    ensures InvAt(Next(s, step).value, m')
    ensures Next(s, step).value.journal == s.journal ==> m' == m
    ensures step.Session? && step.action.Execute? && !step.action.verdict.Failed? ==>
      m' == Max(m, s.sessions[step.sid].base + s.sessions[step.sid].next + 1)
  {
    m' := m;
    match step
    case Append(entry) => AppendKeeps(s, m, entry);
    case Session(sid, Read(count)) => ReadKeeps(s, m, sid, count);
    case Session(sid, Execute(verdict, db)) =>
      assert PhaseInv(s, m, s.sessions[sid]);
      m' := ExecuteKeeps(s, m, sid, verdict, db);
    case Session(sid, Trim(reply)) => TrimKeeps(s, m, sid, reply);
    case Session(sid, Delete(reply)) => DeleteKeeps(s, m, sid, reply);
    case _ => QuietKeeps(s, m, Next(s, step).value);
  }

  lemma InvIsInductive()
    ensures Runs.Inductive(Next, Runs.Anything, Inv)
  {
    forall s, step | Inv(s) && Next(s, step).Some? ensures Inv(Next(s, step).value) {
      var m: nat :| InvAt(s, m);
      var m' := StepKeeps(s, m, step);
    }
  }

  lemma EveryRunKeepsInv(s: State, steps: seq<Step>, t: State)
    requires Inv(s) && Runs.After(Next, s, steps) == Some(t)
    ensures Inv(t)
  {
    InvIsInductive();
    Runs.AnythingGoes(Next, s, steps);
    Runs.Invariance(Next, Runs.Anything, Inv, s, steps);
  }

  lemma InitialInv(s: State)
    requires Initial(s)
    ensures Inv(s)
  {
    assert InvAt(s, 0);
  }

  /**
    In every run from an empty shard, whatever overlaps, crashes, expires or goes unanswered: the
    entries that left the stream are a prefix of append order, the entries settled (applied, or
    dropped as unique violations) are a possibly longer prefix, and the stream is all the rest.
   */
  lemma NoLoss(s: State, steps: seq<Step>, t: State) returns (removed: nat, settled: nat)
    requires Initial(s) && Runs.After(Next, s, steps) == Some(t)
    ensures removed <= settled <= |t.log|
    ensures t.stream == t.log[removed..]
    ensures forall e :: e in t.journal <==> e in t.log[..settled]
  {
    InitialInv(s);
    EveryRunKeepsInv(s, steps, t);
    settled :| InvAt(t, settled);
    removed := Removed(t);
  }

  lemma DistinctPositions(log: seq<Entry>, m: nat, i: nat)
    requires Ordered(log) && m <= |log| && i < |log|
    ensures log[i] in log[..m] <==> i < m
  {
    if i < m {
      assert log[..m][i] == log[i];
    } else {
      assert forall k :: 0 <= k < m ==> log[..m][k].id < log[i].id;
    }
  }

  /** No entry is settled while an earlier one is not, so none overtakes one that keeps failing. */
  lemma NeverOvertaken(s: State, steps: seq<Step>, t: State, i: nat, j: nat)
    requires Initial(s) && Runs.After(Next, s, steps) == Some(t)
    requires i < j < |t.log| && t.log[j] in t.journal
    ensures t.log[i] in t.journal
  {
    InitialInv(s);
    EveryRunKeepsInv(s, steps, t);
    var m: nat :| InvAt(t, m);
    DistinctPositions(t.log, m, i);
    DistinctPositions(t.log, m, j);
  }

  /** An entry that does not parse stays in the stream for ever, with everything behind it. */
  lemma MalformedEntryBlocks(s: State, steps: seq<Step>, t: State, i: nat)
    requires Initial(s) && Runs.After(Next, s, steps) == Some(t)
    requires i < |t.log| && t.log[i].op == None
    ensures |t.log| - i <= |t.stream| && t.log[i..] == t.stream[|t.stream| - (|t.log| - i)..]
    ensures forall j :: i <= j < |t.log| ==> t.log[j] !in t.journal
  {
    InitialInv(s);
    EveryRunKeepsInv(s, steps, t);
    var m: nat :| InvAt(t, m);
    DistinctPositions(t.log, m, i);
    forall j | i <= j < |t.log| ensures t.log[j] !in t.journal {
      DistinctPositions(t.log, m, j);
    }
  }
}
