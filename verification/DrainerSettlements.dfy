/**
  How often an entry is executed. As long as no flag expires under a live holder, each settlement of an
  entry beyond the first is paid for by a session that settled it and stopped while it was still in
  the stream.
 */
module DrainerSettlements {
  import opened Common
  import opened RedisStream
  import opened DrainerShard
  import DrainerNoLoss
  import opened DrainerExclusion
  import Runs

  /** What a session has settled and not yet let go of. */
  function SettledBy(phase: Phase): seq<Entry> {
    match phase
    case Executing(read, base, next) => if next <= |read| then read[..next] else []
    case Trimming(read, base, next) => if next <= |read| then read[..next] else []
    case Deleting(read, base, next, trimmed) => if next <= |read| then read[..next] else []
    case _ => []
  }

  ghost predicate Held(s: State, e: Entry) {
    exists sid :: sid in s.sessions && e in SettledBy(s.sessions[sid])
  }

  /** The entry is out of the stream, or a live session has settled it and means to take it out. */
  ghost predicate Spent(s: State, e: Entry) {
    e in s.log && (e !in s.stream || Held(s, e))
  }

  /** A session that settled the entry stops, by a crash or a failed call, and leaves it in the stream. */
  ghost predicate Relapses(s: State, t: State, e: Entry) {
    Held(s, e) && !Held(t, e) && e in t.stream
  }

  ghost function RelapseCount(s: State, steps: seq<Step>, e: Entry): nat {
    if steps == [] then 0 else
      var front := steps[..|steps| - 1];
      RelapseCount(s, front, e) +
        match Runs.After(Next, s, front)
        case None => 0
        case Some(u) =>
          match Next(u, steps[|steps| - 1])
          case None => 0
          case Some(t) => if Relapses(u, t, e) then 1 else 0
  }

  ghost function Bit(b: bool): nat {
    if b then 1 else 0
  }

  function Executions(s: State, e: Entry): nat {
    multiset(s.journal)[e]
  }

  /** One step: executions and relapses together account for what becomes of `Spent`. */
  ghost predicate Accounts(s: State, t: State, e: Entry) {
    Executions(t, e) + Bit(Spent(s, e)) == Executions(s, e) + Bit(Relapses(s, t, e)) + Bit(Spent(t, e))
  }

  lemma HeldByTheOne(s: State, sid: nat, e: Entry)
    requires Exclusive(s) && sid in s.sessions
    ensures Held(s, e) <==> e in SettledBy(s.sessions[sid])
  {
    forall k | k in s.sessions ensures k == sid {
      assert s.flag == Some(k) && s.flag == Some(sid);
    }
  }

  lemma HeldIsSlice(s: State, m: nat, phase: Phase, e: Entry)
    requires DrainerNoLoss.PhaseInv(s, m, phase) && e in SettledBy(phase)
    ensures e in s.log
  {
    var k :| 0 <= k < phase.next && phase.read[k] == e;
    assert phase.read[k] == s.log[phase.base + k];
  }

  lemma HeldIsLogged(s: State, m: nat, e: Entry)
    requires DrainerNoLoss.InvAt(s, m) && Held(s, e)
    ensures e in s.log
  {
    var sid :| sid in s.sessions && e in SettledBy(s.sessions[sid]);
    assert DrainerNoLoss.PhaseInv(s, m, s.sessions[sid]);
    HeldIsSlice(s, m, s.sessions[sid], e);
  }

  /** A step that settles nothing, and takes nothing from the stream but what is held. */
  lemma QuietAccounts(s: State, t: State, e: Entry)
    requires t.journal == s.journal && t.log == s.log
    requires Held(s, e) ==> e in s.log
    requires Held(t, e) ==> Held(s, e)
    requires e in t.stream ==> e in s.stream
    requires e in s.stream && e !in t.stream ==> Held(s, e)
    ensures Accounts(s, t, e)
  {
  }

  lemma AppendAccounts(s: State, m: nat, entry: Entry, e: Entry)
    requires DrainerNoLoss.InvAt(s, m) && s.lastId < entry.id
    ensures Accounts(s, Next(s, Append(entry)).value, e)
  {
    var t := Next(s, Append(entry)).value;
    assert Held(t, e) <==> Held(s, e);
    if Held(s, e) {
      HeldIsLogged(s, m, e);
    }
    assert e in t.log <==> e in s.log || e == entry;
    assert e in t.stream <==> e in s.stream || e == entry;
    assert entry !in s.log;
  }

  /** Settling the next entry: it was in the stream and not held, and now it is held. */
  lemma ExecuteAccounts(s: State, m: nat, sid: nat, verdict: Verdict, db: Db, e: Entry)
    requires DrainerNoLoss.StreamIsSuffix(s) && Exclusive(s)
    requires sid in s.sessions && Possible(s, s.sessions[sid], Execute(verdict, db)) && !verdict.Failed?
    requires DrainerNoLoss.PhaseInv(s, m, s.sessions[sid]) && Accounted(s, s.sessions[sid])
    requires Exclusive(Executed(s, sid, verdict, db))
    ensures Accounts(s, Executed(s, sid, verdict, db), e)
  {
    var t := Executed(s, sid, verdict, db);
    var Executing(read, base, next) := s.sessions[sid];
    HeldByTheOne(s, sid, e);
    HeldByTheOne(t, sid, e);
    assert SettledBy(t.sessions[sid]) == read[..next + 1] == read[..next] + [read[next]];
    NextIsFresh(s, m, read, base, next);
  }

  lemma NextIsFresh(s: State, m: nat, read: seq<Entry>, base: nat, next: nat)
    requires DrainerNoLoss.StreamIsSuffix(s) && DrainerNoLoss.Processed(s, m, read, base, next)
    requires next < |read| && base == Removed(s)
    ensures read[next] in s.log && read[next] in s.stream && read[next] !in read[..next]
  {
    var e := read[next];
    assert e == s.log[base + next] == s.stream[next];
    forall k | 0 <= k < next ensures read[..next][k] != e {
      assert read[k] == s.log[base + k];
    }
  }

  /** What a trim or a delete takes out of the stream, the session holds. */
  lemma TakenIsHeld(s: State, m: nat, read: seq<Entry>, base: nat, next: nat, r: nat, e: Entry)
    requires DrainerNoLoss.StreamIsSuffix(s) && DrainerNoLoss.Processed(s, m, read, base, next)
    requires Removed(s) <= r <= |s.log| && r <= Max(Removed(s), base + next)
    ensures e in s.log[r..] ==> e in s.stream
    ensures e in s.stream && e !in s.log[r..] ==> e in read[..next]
  {
    assert s.stream == s.log[Removed(s)..r] + s.log[r..];
    if e in s.log[Removed(s)..r] {
      var k :| Removed(s) <= k < r && s.log[k] == e;
      assert read[..next][k - base] == e;
    }
  }

  /** A session takes settled entries off the stream, and lets go of all it held or of nothing. */
  lemma ShortenAccounts(s: State, m: nat, sid: nat, r: nat, phase: Phase, e: Entry)
    requires DrainerNoLoss.StreamIsSuffix(s) && Exclusive(s) && sid in s.sessions
    requires DrainerNoLoss.PhaseInv(s, m, s.sessions[sid]) && (s.sessions[sid].Trimming? || s.sessions[sid].Deleting?)
    requires Removed(s) <= r <= |s.log| && r <= Max(Removed(s), s.sessions[sid].base + s.sessions[sid].next)
    requires SettledBy(phase) == SettledBy(s.sessions[sid]) || SettledBy(phase) == []
    ensures Accounts(s, Goto(s.(stream := s.log[r..]), sid, phase), e)
  {
    var p, t := s.sessions[sid], Goto(s.(stream := s.log[r..]), sid, phase);
    HeldByTheOne(s, sid, e);
    HeldByTheOne(t, sid, e);
    if e in SettledBy(p) {
      HeldIsSlice(s, m, p, e);
    }
    TakenIsHeld(s, m, p.read, p.base, p.next, r, e);
    QuietAccounts(s, t, e);
  }

  lemma TrimAccounts(s: State, m: nat, sid: nat, reply: Reply, e: Entry)
    requires DrainerNoLoss.StreamIsSuffix(s) && Removed(s) <= m && Exclusive(s)
    requires sid in s.sessions && Possible(s, s.sessions[sid], Trim(reply))
    requires DrainerNoLoss.PhaseInv(s, m, s.sessions[sid])
    ensures Accounts(s, Trimmed(s, sid, reply), e)
  {
    var p, t := s.sessions[sid], Trimmed(s, sid, reply);
    var j := p.base + p.next - 1;
    assert p.read[p.next - 1] == s.log[j];
    TrimLeavesSuffix(s.log, Removed(s), j);
    var r := if reply.Rejected? then Removed(s) else Max(Removed(s), j);
    assert t == Goto(s.(stream := s.log[r..]), sid, t.sessions[sid]);
    ShortenAccounts(s, m, sid, r, t.sessions[sid], e);
  }

  lemma DeleteAccounts(s: State, m: nat, sid: nat, reply: Reply, e: Entry)
    requires DrainerNoLoss.StreamIsSuffix(s) && Exclusive(s)
    requires sid in s.sessions && Possible(s, s.sessions[sid], Delete(reply))
    requires DrainerNoLoss.PhaseInv(s, m, s.sessions[sid])
    ensures Accounts(s, Deleted(s, sid, reply), e)
  {
    var p, t := s.sessions[sid], Deleted(s, sid, reply);
    var j := p.base + p.next - 1;
    assert p.read[p.next - 1] == s.log[j];
    DeleteLeavesSuffix(s.log, Removed(s), j);
    var r := if reply.Rejected? then Removed(s) else Max(Removed(s), j + 1);
    assert t == Goto(s.(stream := s.log[r..]), sid, t.sessions[sid]);
    ShortenAccounts(s, m, sid, r, t.sessions[sid], e);
  }

  /** Reading, failing to, failing to execute, releasing: the session holds what it held. */
  lemma IdleAccounts(s: State, m: nat, sid: nat, action: Action, e: Entry)
    requires Exclusive(s) && sid in s.sessions && Possible(s, s.sessions[sid], action)
    requires DrainerNoLoss.PhaseInv(s, m, s.sessions[sid])
    requires action.Read? || action.ReadFails? || action.Release? || (action.Execute? && action.verdict.Failed?)
    requires Exclusive(Acted(s, sid, action))
    ensures Accounts(s, Acted(s, sid, action), e)
  {
    var t := Acted(s, sid, action);
    HeldByTheOne(s, sid, e);
    if sid in t.sessions {
      HeldByTheOne(t, sid, e);
      assert SettledBy(t.sessions[sid]) == SettledBy(s.sessions[sid]);
    }
    if e in SettledBy(s.sessions[sid]) {
      HeldIsSlice(s, m, s.sessions[sid], e);
    }
    QuietAccounts(s, t, e);
  }

  lemma SessionAccounts(s: State, m: nat, sid: nat, action: Action, e: Entry)
    requires DrainerNoLoss.StreamIsSuffix(s) && Removed(s) <= m && Exclusive(s)
    requires sid in s.sessions && Possible(s, s.sessions[sid], action)
    requires DrainerNoLoss.PhaseInv(s, m, s.sessions[sid]) && Accounted(s, s.sessions[sid])
    requires Exclusive(Acted(s, sid, action))
    ensures Accounts(s, Acted(s, sid, action), e)
  {
    match action
    case Trim(reply) => TrimAccounts(s, m, sid, reply, e);
    case Delete(reply) => DeleteAccounts(s, m, sid, reply, e);
    case Execute(verdict, db) =>
      if verdict.Failed? { IdleAccounts(s, m, sid, action, e); } else { ExecuteAccounts(s, m, sid, verdict, db, e); }
    case _ => IdleAccounts(s, m, sid, action, e);
  }

  lemma StepAccounts(s: State, step: Step, e: Entry)
    requires AccountInv(s) && HolderKeepsFlag(s, step) && Next(s, step).Some?
    ensures Accounts(s, Next(s, step).value, e)
  {
    var t := Next(s, step).value;
    var m: nat :| DrainerNoLoss.InvAt(s, m);
    AccountStep(s, step);
    match step
    case Append(entry) => AppendAccounts(s, m, entry, e);
    case Session(sid, action) =>
      assert DrainerNoLoss.PhaseInv(s, m, s.sessions[sid]);
      SessionAccounts(s, m, sid, action, e);
    case _ =>
      if Held(s, e) {
        HeldIsLogged(s, m, e);
      }
      QuietAccounts(s, t, e);
  }

  /**
    In every run whose flags outlive their holders, an entry has been executed exactly once for each
    session that settled it and stopped while it was still in the stream, and once more if it is out of
    the stream or in the hands of a live session.
   */
  lemma {:induction false} ExecutedOncePerRelapse(s: State, steps: seq<Step>, t: State, e: Entry)
    requires Initial(s) && Runs.After(Next, s, steps) == Some(t) && Runs.Obeys(Next, HolderKeepsFlag, s, steps)
    ensures Executions(t, e) == RelapseCount(s, steps, e) + Bit(Spent(t, e))
    decreases |steps|
  {
    if steps != [] {
      var front, last := steps[..|steps| - 1], steps[|steps| - 1];
      var u := Runs.After(Next, s, front).value;
      ExecutedOncePerRelapse(s, front, u, e);
      EveryRunAccounts(s, front, u);
      StepAccounts(u, last, e);
    }
  }
}
