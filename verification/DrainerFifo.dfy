/**
  When sessions do not overlap and every session that executed something completes its trim, a shard
  is a FIFO applier: each entry's operation is applied exactly once, in append order.
 */
module DrainerFifo {
  import opened Common
  import opened RedisStream
  import opened DrainerShard
  import DrainerNoLoss
  import Runs

  /** The database's own behaviour: the new contents, or `None` for a unique violation. */
  type Sql = (Db, Op) -> Option<Db>

  function ApplyEntry(sql: Sql, db: Db, entry: Entry): Db {
    match entry.op
    case None => db
    case Some(op) => match sql(db, op) case None => db case Some(db') => db'
  }

  function Replay(sql: Sql, db: Db, entries: seq<Entry>): Db {
    if entries == [] then db
    else ApplyEntry(sql, Replay(sql, db, entries[..|entries| - 1]), entries[|entries| - 1])
  }

  /** The specification: a queue whose head is applied to the database. */
  datatype Fifo = Fifo(queue: seq<Entry>, applied: seq<Entry>, db: Db)

  ghost predicate FifoStep(sql: Sql, a: Fifo, b: Fifo) {
    || (exists entry :: b == a.(queue := a.queue + [entry]))
    || (a.queue != [] && b == Fifo(a.queue[1..], a.applied + [a.queue[0]], ApplyEntry(sql, a.db, a.queue[0])))
  }

  /** What the applier promises at each step: nothing leaves the line, and the database stays the fold of what was applied. */
  lemma FifoAppliesInOrder(sql: Sql, db0: Db, a: Fifo, b: Fifo)
    requires FifoStep(sql, a, b) && a.db == Replay(sql, db0, a.applied)
    ensures b.db == Replay(sql, db0, b.applied)
    ensures a.applied <= b.applied && a.applied + a.queue <= b.applied + b.queue
  {
    if a.queue != [] && b == Fifo(a.queue[1..], a.applied + [a.queue[0]], ApplyEntry(sql, a.db, a.queue[0])) {
      ReplaySnoc(sql, db0, a.applied, a.queue[0]);
      assert a.applied + a.queue == a.applied + [a.queue[0]] + a.queue[1..];
    }
  }

  ghost function View(s: State): Fifo
    requires |s.journal| <= |s.log|
  {
    Fifo(s.log[|s.journal|..], s.journal, s.db)
  }

  /** Truthful replies from the database; failed statements leave it as it was. */
  ghost predicate Truthful(sql: Sql, db: Db, op: Op, verdict: Verdict, db': Db) {
    match verdict
    case Applied => sql(db, op) == Some(db')
    case UniqueViolation => sql(db, op) == None && db' == db
    case Failed => db' == db
  }

  ghost predicate Untouched(phase: Phase) {
    phase.Picked? || phase.Releasing? || (phase.Executing? && phase.next == 0)
  }

  ghost predicate Orderly(sql: Sql, s: State, step: Step) {
    match step
    case Append(_) => true
    case OtherWriter(_) => false
    case Expire => true
    case Acquire(_) => s.sessions == map[]
    case Crash(sid) => sid in s.sessions ==> Untouched(s.sessions[sid])
    case Session(sid, action) =>
      match action
      case Execute(verdict, db) =>
        sid in s.sessions && s.sessions[sid].Executing? && s.sessions[sid].next < |s.sessions[sid].read| ==>
          var op := s.sessions[sid].read[s.sessions[sid].next].op;
          op.Some? ==> Truthful(sql, s.db, op.value, verdict, db)
      case Trim(reply) => reply.Answered?
      case Delete(reply) => !reply.Rejected?
      case _ => true
  }

  /** What an orderly run may contain. */
  lemma OrderlyAllows(sql: Sql, s: State, sid: nat, entry: Entry, action: Action)
    ensures Orderly(sql, s, Append(entry)) && Orderly(sql, s, Expire)
    ensures s.sessions == map[] ==> forall reply :: Orderly(sql, s, Acquire(reply))
    ensures action.Read? || action.ReadFails? || action.Release? ==> Orderly(sql, s, Session(sid, action))
    ensures Orderly(sql, s, Session(sid, Trim(Answered)))
    ensures Orderly(sql, s, Session(sid, Delete(Answered))) && Orderly(sql, s, Session(sid, Delete(Unheard)))
    ensures sid in s.sessions && Untouched(s.sessions[sid]) ==> Orderly(sql, s, Crash(sid))
    ensures sid in s.sessions && s.sessions[sid].Executing? && s.sessions[sid].next < |s.sessions[sid].read| ==>
      var op := s.sessions[sid].read[s.sessions[sid].next].op;
      && Orderly(sql, s, Session(sid, Execute(Failed, s.db)))
      && (op.Some? && sql(s.db, op.value) == None ==> Orderly(sql, s, Session(sid, Execute(UniqueViolation, s.db))))
      && (op.Some? && sql(s.db, op.value).Some? ==> Orderly(sql, s, Session(sid, Execute(Applied, sql(s.db, op.value).value))))
  {
  }

  ghost predicate PhaseExact(s: State, phase: Phase) {
    var m := |s.journal|;
    match phase
    case Picked => m == Removed(s)
    case Executing(read, base, next) => base == Removed(s) && m == base + next
    case Trimming(read, base, next) => base == Removed(s) && m == base + next
    case Deleting(read, base, next, trimmed) => m == base + next && Removed(s) == m - 1
    case Releasing(report) => m == Removed(s)
  }

  /** The journal is the log so far, each entry once, and the database is its fold. */
  ghost predicate Ledger(sql: Sql, db0: Db, s: State) {
    && |s.journal| <= |s.log| && s.journal == s.log[..|s.journal|]
    && s.db == Replay(sql, db0, s.journal)
  }

  /** At most one session, at the point of the log its phase says. */
  ghost predicate Solo(s: State) {
    if s.sessions == map[] then |s.journal| == Removed(s)
    else exists sid, phase :: s.sessions == map[sid := phase] && PhaseExact(s, phase)
  }

  ghost predicate FifoInv(sql: Sql, db0: Db, s: State) {
    DrainerNoLoss.InvAt(s, |s.journal|) && Ledger(sql, db0, s) && Solo(s)
  }

  lemma ReplaySnoc(sql: Sql, db: Db, entries: seq<Entry>, entry: Entry)
    ensures Replay(sql, db, entries + [entry]) == ApplyEntry(sql, Replay(sql, db, entries), entry)
  {
    assert (entries + [entry])[..|entries|] == entries;
  }

  lemma HeadMoves(log: seq<Entry>, m: nat)
    requires m < |log|
    ensures log[m..] != [] && log[m..][0] == log[m] && log[m..][1..] == log[m + 1..]
    ensures log[..m + 1] == log[..m] + [log[m]]
  {
  }

  /** Settling an entry is the applier's step. */
  lemma ExecuteRefines(sql: Sql, db0: Db, s: State, m: nat, sid: nat, verdict: Verdict, db: Db)
    requires Ledger(sql, db0, s) && m == |s.journal|
    requires sid in s.sessions && Possible(s, s.sessions[sid], Execute(verdict, db)) && !verdict.Failed?
    requires DrainerNoLoss.PhaseInv(s, m, s.sessions[sid]) && PhaseExact(s, s.sessions[sid])
    requires Orderly(sql, s, Session(sid, Execute(verdict, db)))
    ensures Ledger(sql, db0, Executed(s, sid, verdict, db))
    ensures PhaseExact(Executed(s, sid, verdict, db), Executed(s, sid, verdict, db).sessions[sid])
    ensures FifoStep(sql, View(s), View(Executed(s, sid, verdict, db)))
  {
    var t := Executed(s, sid, verdict, db);
    var Executing(read, base, next) := s.sessions[sid];
    assert read[next] == s.log[m];
    ReplaySnoc(sql, db0, s.journal, read[next]);
    HeadMoves(s.log, m);
  }

  lemma TrimRefines(s: State, m: nat, sid: nat)
    requires DrainerNoLoss.StreamIsSuffix(s) && m == |s.journal|
    requires sid in s.sessions && Possible(s, s.sessions[sid], Trim(Answered))
    requires DrainerNoLoss.PhaseInv(s, m, s.sessions[sid]) && PhaseExact(s, s.sessions[sid])
    ensures PhaseExact(Trimmed(s, sid, Answered), Trimmed(s, sid, Answered).sessions[sid])
  {
    var p := s.sessions[sid];
    assert p.read[p.next - 1] == s.log[p.base + p.next - 1];
    TrimLeavesSuffix(s.log, Removed(s), p.base + p.next - 1);
  }

  lemma DeleteRefines(s: State, m: nat, sid: nat, reply: Reply)
    requires DrainerNoLoss.StreamIsSuffix(s) && m == |s.journal| && !reply.Rejected?
    requires sid in s.sessions && Possible(s, s.sessions[sid], Delete(reply))
    requires DrainerNoLoss.PhaseInv(s, m, s.sessions[sid]) && PhaseExact(s, s.sessions[sid])
    ensures PhaseExact(Deleted(s, sid, reply), Deleted(s, sid, reply).sessions[sid])
  {
    var p := s.sessions[sid];
    assert p.read[p.next - 1] == s.log[p.base + p.next - 1];
    DeleteLeavesSuffix(s.log, Removed(s), p.base + p.next - 1);
  }

  /** Every other action of an orderly session is invisible to the applier. */
  lemma QuietRefines(sql: Sql, s: State, m: nat, sid: nat, action: Action)
    requires DrainerNoLoss.StreamIsSuffix(s) && m == |s.journal|
    requires sid in s.sessions && Possible(s, s.sessions[sid], action) && !action.Release?
    requires action.Execute? ==> action.verdict.Failed?
    requires DrainerNoLoss.PhaseInv(s, m, s.sessions[sid]) && PhaseExact(s, s.sessions[sid])
    requires Orderly(sql, s, Session(sid, action))
    ensures PhaseExact(Acted(s, sid, action), Acted(s, sid, action).sessions[sid])
    ensures Acted(s, sid, action).journal == s.journal && Acted(s, sid, action).log == s.log
    ensures Acted(s, sid, action).db == s.db
  {
    match action
    case Trim(reply) => TrimRefines(s, m, sid);
    case Delete(reply) => DeleteRefines(s, m, sid, reply);
    case _ =>
  }

  lemma SoloMoves(s: State, t: State, sid: nat)
    requires sid in s.sessions && s.sessions == map[sid := s.sessions[sid]]
    requires sid in t.sessions && t.sessions == s.sessions[sid := t.sessions[sid]]
    requires PhaseExact(t, t.sessions[sid])
    ensures Solo(t)
  {
    assert t.sessions == map[sid := t.sessions[sid]];
  }

  lemma SessionStepRefines(sql: Sql, db0: Db, s: State, sid: nat, action: Action)
    requires Ledger(sql, db0, s) && Orderly(sql, s, Session(sid, action))
    requires sid in s.sessions && Possible(s, s.sessions[sid], action)
    requires s.sessions == map[sid := s.sessions[sid]] && PhaseExact(s, s.sessions[sid])
    requires DrainerNoLoss.StreamIsSuffix(s) && DrainerNoLoss.PhaseInv(s, |s.journal|, s.sessions[sid])
    ensures var t := Acted(s, sid, action);
      Ledger(sql, db0, t) && Solo(t) && (View(t) == View(s) || FifoStep(sql, View(s), View(t)))
  {
    var t := Acted(s, sid, action);
    if action.Release? {
      assert t.sessions == map[];
    } else if action.Execute? && !action.verdict.Failed? {
      ExecuteRefines(sql, db0, s, |s.journal|, sid, action.verdict, action.db);
      SoloMoves(s, t, sid);
    } else {
      QuietRefines(sql, s, |s.journal|, sid, action);
      SoloMoves(s, t, sid);
    }
  }

  lemma AppendRefines(sql: Sql, db0: Db, s: State, entry: Entry)
    requires Ledger(sql, db0, s) && Solo(s) && |s.stream| <= |s.log| && s.lastId < entry.id
    ensures var t := Next(s, Append(entry)).value;
      Ledger(sql, db0, t) && Solo(t) && FifoStep(sql, View(s), View(t))
  {
    var t := Next(s, Append(entry)).value;
    assert View(t) == View(s).(queue := View(s).queue + [entry]);
    assert t.log[..|t.journal|] == s.log[..|s.journal|];
    if s.sessions != map[] {
      var sid, phase :| s.sessions == map[sid := phase] && PhaseExact(s, phase);
      assert PhaseExact(t, phase);
    }
  }

  lemma OtherStepRefines(sql: Sql, db0: Db, s: State, step: Step)
    requires FifoInv(sql, db0, s) && Orderly(sql, s, step) && Next(s, step).Some? && !step.Session?
    ensures var t := Next(s, step).value;
      Ledger(sql, db0, t) && Solo(t) && (View(t) == View(s) || FifoStep(sql, View(s), View(t)))
  {
    var t := Next(s, step).value;
    if step.Append? {
      AppendRefines(sql, db0, s, step.entry);
    } else if step.Acquire? && step.reply.Answered? {
      assert t.sessions == map[s.nextSession := Picked];
      assert PhaseExact(t, Picked);
    } else if step.Crash? {
      assert s.sessions == map[step.sid := s.sessions[step.sid]];
      assert t.sessions == map[];
    } else if step.Expire? && s.sessions != map[] {
      var sid, phase :| s.sessions == map[sid := phase] && PhaseExact(s, phase);
      assert t.sessions == map[sid := phase] && PhaseExact(t, phase);
    }
  }

  lemma ExecuteSettlesNext(s: State, sid: nat, verdict: Verdict, db: Db)
    requires DrainerNoLoss.InvAt(s, |s.journal|)
    requires sid in s.sessions && s.sessions[sid].Executing? && PhaseExact(s, s.sessions[sid]) && !verdict.Failed?
    requires DrainerNoLoss.PhaseInv(s, |s.journal|, s.sessions[sid])
    ensures DrainerNoLoss.InvAt(Executed(s, sid, verdict, db), |s.journal| + 1)
    ensures |Executed(s, sid, verdict, db).journal| == |s.journal| + 1
  {
    var m' := DrainerNoLoss.ExecuteKeeps(s, |s.journal|, sid, verdict, db);
  }

  predicate SettlesOne(step: Step) {
    step.Session? && step.action.Execute? && !step.action.verdict.Failed?
  }

  lemma OthersKeepJournal(s: State, step: Step)
    requires Next(s, step).Some? && !SettlesOne(step)
    ensures Next(s, step).value.journal == s.journal
  {
  }

  lemma SettledIsJournal(s: State, step: Step)
    requires DrainerNoLoss.InvAt(s, |s.journal|) && Solo(s) && Next(s, step).Some?
    ensures DrainerNoLoss.InvAt(Next(s, step).value, |Next(s, step).value.journal|)
  {
    if SettlesOne(step) {
      assert PhaseExact(s, s.sessions[step.sid]);
      assert DrainerNoLoss.PhaseInv(s, |s.journal|, s.sessions[step.sid]);
      ExecuteSettlesNext(s, step.sid, step.action.verdict, step.action.db);
    } else {
      OthersKeepJournal(s, step);
      var m' := DrainerNoLoss.StepKeeps(s, |s.journal|, step);
    }
  }

  /** One orderly step of the shard is one step of the FIFO applier, or none. */
  lemma OrderlyStepRefines(sql: Sql, db0: Db, s: State, step: Step)
    requires FifoInv(sql, db0, s) && Orderly(sql, s, step) && Next(s, step).Some?
    ensures FifoInv(sql, db0, Next(s, step).value)
    ensures View(Next(s, step).value) == View(s) || FifoStep(sql, View(s), View(Next(s, step).value))
  {
    SettledIsJournal(s, step);
    if step.Session? {
      assert s.sessions == map[step.sid := s.sessions[step.sid]] && PhaseExact(s, s.sessions[step.sid]);
      assert DrainerNoLoss.PhaseInv(s, |s.journal|, s.sessions[step.sid]);
      SessionStepRefines(sql, db0, s, step.sid, step.action);
    } else {
      OtherStepRefines(sql, db0, s, step);
    }
  }

  /**
    After every orderly run the settled entries are the first appended ones, each once and in order,
    and the database is their fold. Between sessions those are exactly the entries removed.
   */
  lemma RefinesFifoApplier(sql: Sql, s: State, steps: seq<Step>, t: State)
    requires Initial(s) && Runs.After(Next, s, steps) == Some(t)
    requires Runs.Obeys(Next, (u, step) => Orderly(sql, u, step), s, steps)
    ensures |t.journal| <= |t.log| && t.journal == t.log[..|t.journal|]
    ensures t.db == Replay(sql, s.db, t.journal)
    ensures t.sessions == map[] ==>
      Removed(t) <= |t.log| && t.db == Replay(sql, s.db, t.log[..Removed(t)])
  {
    var ok := (u, step) => Orderly(sql, u, step);
    var inv := u => FifoInv(sql, s.db, u);
    forall u, step | inv(u) && ok(u, step) && Next(u, step).Some? ensures inv(Next(u, step).value) {
      OrderlyStepRefines(sql, s.db, u, step);
    }
    assert DrainerNoLoss.InvAt(s, 0);
    Runs.Invariance(Next, ok, inv, s, steps);
    assert inv(t);
  }

  function Holding(t: State, phase: Phase): State {
    t.(flag := Some(t.nextSession), nextSession := t.nextSession + 1, sessions := t.sessions[t.nextSession := phase])
  }

  lemma ReadOne(t: State)
    requires |t.stream| == 1 && t.log == t.stream && t.stream[0].op.Some?
    ensures Next(Holding(t, Picked), Session(t.nextSession, Read(1))) == Some(Holding(t, Executing(t.stream, 0, 0)))
  {
    var n := t.nextSession;
    assert t.stream[..1] == t.stream;
    assert t.sessions[n := Picked][n := Executing(t.stream, 0, 0)] == t.sessions[n := Executing(t.stream, 0, 0)];
  }

  /** A session picks up a shard that holds one good entry, and applies it. */
  lemma PickUpAndApply(s: State, steps: seq<Step>, t: State, db: Db) returns (steps': seq<Step>, t': State)
    requires Runs.After(Next, s, steps) == Some(t)
    requires t.flag == None && |t.stream| == 1 && t.log == t.stream && t.stream[0].op.Some?
    ensures Runs.After(Next, s, steps') == Some(t')
    ensures t'.journal == t.journal + t.stream && t'.stream == t.stream && t'.log == t.log
    ensures t.nextSession in t'.sessions
  {
    var n := t.nextSession;
    steps', t' := Runs.Take(Next, s, steps, t, Acquire(Answered));
    ReadOne(t);
    steps', t' := Runs.Take(Next, s, steps', Holding(t, Picked), Session(n, Read(1)));
    steps', t' := Runs.Take(Next, s, steps', Holding(t, Executing(t.stream, 0, 0)), Session(n, Execute(Applied, db)));
    assert [t.stream[0]] == t.stream;
  }

  /** A crash between executing and trimming is what the order rules out: the entry is applied again. */
  lemma CrashBeforeTrimAppliesTwice(s: State, op: Op, db1: Db, db2: Db) returns (steps: seq<Step>, t: State)
    requires Initial(s)
    ensures Runs.After(Next, s, steps) == Some(t)
    ensures |t.log| == 1 && t.journal == [t.log[0], t.log[0]]
  {
    steps, t := Runs.Take(Next, s, [], s, Append(Entry(s.lastId + 1, Some(op))));
    var n := t.nextSession;
    steps, t := PickUpAndApply(s, steps, t, db1);
    steps, t := Runs.Take(Next, s, steps, t, Crash(n));
    steps, t := Runs.Take(Next, s, steps, t, Expire);
    steps, t := PickUpAndApply(s, steps, t, db2);
  }
}
