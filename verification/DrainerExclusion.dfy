/**
  What the in-use flag buys: as long as no flag expires under a live holder, a shard has one session
  at a time, and that session's trim accounts for exactly the entries it processed.
 */
module DrainerExclusion {
  import opened Common
  import opened RedisStream
  import opened DrainerShard
  import DrainerNoLoss
  import Runs

  /** The flag never expires while the session that set it is still alive. */
  ghost predicate HolderKeepsFlag(s: State, step: Step) {
    step.Expire? && s.flag.Some? ==> s.flag.value !in s.sessions
  }

  /** This excludes one thing only: an expiry under a live holder. */
  lemma OnlyEarlyExpiryIsExcluded(s: State, step: Step)
    ensures HolderKeepsFlag(s, step) <==> !(step == Expire && exists sid :: sid in s.sessions && s.flag == Some(sid))
  {
  }

  /** Every live session holds the flag, so there is at most one. */
  ghost predicate Exclusive(s: State) {
    forall sid :: sid in s.sessions ==> s.flag == Some(sid)
  }

  lemma ExclusiveIsInductive()
    ensures Runs.Inductive(Next, HolderKeepsFlag, Exclusive)
  {
    forall s, step | Exclusive(s) && HolderKeepsFlag(s, step) && Next(s, step).Some?
      ensures Exclusive(Next(s, step).value)
    {
      var t := Next(s, step).value;
      forall sid | sid in t.sessions ensures t.flag == Some(sid) {
        assert step.Acquire? || sid in s.sessions;
        if step.Session? {
          assert s.flag == Some(step.sid);
        }
      }
    }
  }

  /** At most one live session, and it owns the flag it will delete. */
  lemma MutualExclusion(s: State, steps: seq<Step>, t: State, a: nat, b: nat)
    requires Initial(s) && Runs.After(Next, s, steps) == Some(t)
    requires Runs.Obeys(Next, HolderKeepsFlag, s, steps)
    requires a in t.sessions && b in t.sessions
    ensures a == b && t.flag == Some(a)
  {
    ExclusiveIsInductive();
    Runs.Invariance(Next, HolderKeepsFlag, Exclusive, s, steps);
  }

  /** A new session takes the free flag. */
  lemma Joins(s: State, steps: seq<Step>, t: State) returns (steps': seq<Step>, t': State)
    requires Runs.After(Next, s, steps) == Some(t) && t.flag == None
    ensures Runs.After(Next, s, steps') == Some(t')
    ensures t'.sessions == t.sessions[t.nextSession := Picked] && t'.nextSession == t.nextSession + 1
  {
    steps', t' := Runs.Take(Next, s, steps, t, Acquire(Answered));
  }

  /** The assumption is needed: one expiry under a live holder admits a second session. */
  lemma ExpiryAdmitsSecondSession(s: State) returns (steps: seq<Step>, t: State)
    requires Initial(s)
    ensures Runs.After(Next, s, steps) == Some(t)
    ensures s.nextSession in t.sessions && s.nextSession + 1 in t.sessions
  {
    steps, t := Joins(s, [], s);
    steps, t := Runs.Take(Next, s, steps, t, Expire);
    steps, t := Joins(s, steps, t);
  }

  /** Nobody else has trimmed since the live session read, and its own trim is fully counted. */
  ghost predicate Accounted(s: State, phase: Phase) {
    match phase
    case Picked => true
    case Executing(read, base, next) => base == Removed(s)
    case Trimming(read, base, next) => base == Removed(s)
    case Deleting(read, base, next, trimmed) => trimmed + 1 == next <= |read|
    case Releasing(report) => report.Some? ==> report.value.trimmed == report.value.processed <= report.value.read
  }

  ghost predicate AccountInv(s: State) {
    && DrainerNoLoss.Inv(s)
    && Exclusive(s)
    && forall sid :: sid in s.sessions ==> Accounted(s, s.sessions[sid])
  }

  /**
    In any state a run can reach, XTRIM's count plus one is the number of entries processed exactly
    when this session processed a single entry, or nobody trimmed since it read.
   */
  lemma TrimCountExact(s: State, m: nat, sid: nat)
    requires DrainerNoLoss.StreamIsSuffix(s)
    requires sid in s.sessions && s.sessions[sid].Trimming?
    requires DrainerNoLoss.PhaseInv(s, m, s.sessions[sid])
    ensures Trimmed(s, sid, Answered).sessions[sid].Deleting?
    ensures Trimmed(s, sid, Answered).sessions[sid].trimmed + 1 == s.sessions[sid].next <==>
            s.sessions[sid].next == 1 || Removed(s) == s.sessions[sid].base
  {
    var Trimming(read, base, next) := s.sessions[sid];
    assert read[next - 1] == s.log[base + next - 1];
    TrimLeavesSuffix(s.log, Removed(s), base + next - 1);
  }

  lemma AccountedAfter(s: State, m: nat, sid: nat, action: Action)
    requires DrainerNoLoss.StreamIsSuffix(s)
    requires sid in s.sessions && Possible(s, s.sessions[sid], action) && !action.Release?
    requires DrainerNoLoss.PhaseInv(s, m, s.sessions[sid]) && Accounted(s, s.sessions[sid])
    ensures Accounted(Acted(s, sid, action), Acted(s, sid, action).sessions[sid])
  {
    if action.Trim? {
      TrimCountExact(s, m, sid);
    }
  }

  lemma SessionAccounts(s: State, sid: nat, action: Action)
    requires AccountInv(s) && sid in s.sessions && Possible(s, s.sessions[sid], action)
    ensures forall k :: k in Acted(s, sid, action).sessions ==> k == sid && Accounted(Acted(s, sid, action), Acted(s, sid, action).sessions[k])
  {
    var m: nat :| DrainerNoLoss.InvAt(s, m);
    assert DrainerNoLoss.PhaseInv(s, m, s.sessions[sid]) && Accounted(s, s.sessions[sid]);
    assert forall k :: k in s.sessions ==> s.flag == Some(k);
    if !action.Release? {
      AccountedAfter(s, m, sid, action);
    }
  }

  lemma AccountStep(s: State, step: Step)
    requires AccountInv(s) && HolderKeepsFlag(s, step) && Next(s, step).Some?
    ensures AccountInv(Next(s, step).value)
  {
    var t := Next(s, step).value;
    DrainerNoLoss.InvIsInductive();
    ExclusiveIsInductive();
    if step.Session? {
      SessionAccounts(s, step.sid, step.action);
    } else {
      forall sid | sid in t.sessions ensures Accounted(t, t.sessions[sid]) {
        assert sid in s.sessions ==> Accounted(s, s.sessions[sid]);
      }
    }
  }

  lemma EveryRunAccounts(s: State, steps: seq<Step>, t: State)
    requires Initial(s) && Runs.After(Next, s, steps) == Some(t) && Runs.Obeys(Next, HolderKeepsFlag, s, steps)
    ensures AccountInv(t)
  {
    DrainerNoLoss.InitialInv(s);
    forall u, step | AccountInv(u) && HolderKeepsFlag(u, step) && Next(u, step).Some?
      ensures AccountInv(Next(u, step).value)
    {
      AccountStep(u, step);
    }
    Runs.Invariance(Next, HolderKeepsFlag, AccountInv, s, steps);
  }

  /**
    With the flag kept, and entries appended at any moment: the number the session reports as
    trimmed is the number it processed, so it differs from the number read exactly when the entry
    loop was left early.
   */
  lemma TrimAccounting(s: State, steps: seq<Step>, t: State, sid: nat)
    requires Initial(s) && Runs.After(Next, s, steps) == Some(t)
    requires Runs.Obeys(Next, HolderKeepsFlag, s, steps)
    requires sid in t.sessions && t.sessions[sid].Releasing? && t.sessions[sid].report.Some?
    ensures var report := t.sessions[sid].report.value;
            && report.trimmed == report.processed
            && (report.trimmed != report.read <==> report.processed < report.read)
  {
    EveryRunAccounts(s, steps, t);
  }
}
