/**
  One shard of the drainer: the Redis stream and its in-use flag, the SQL database, and any number
  of sessions, interleaved at every await. A session may crash anywhere, the flag may expire at any
  moment, and every remote command may fail with or without having taken effect.

  `log` (everything ever appended), `journal` (entries in the order they were settled) and a
  session's `base` (how much had left the stream when it read) are history, never consulted.
 */
module DrainerShard {
  import opened Common
  import opened RedisStream

  type Db(!new)

  datatype Verdict = Applied | UniqueViolation | Failed

  /** The line the session logs: entries read, entries processed, entries reported as trimmed. */
  datatype Report = Report(read: nat, processed: nat, trimmed: nat)

  datatype Phase =
    | Picked                                                              // about to XREAD
    | Executing(read: seq<Entry>, base: nat, next: nat)                   // about to execute read[next]
    | Trimming(read: seq<Entry>, base: nat, next: nat)                    // about to XTRIM at read[next-1]
    | Deleting(read: seq<Entry>, base: nat, next: nat, trimmed: nat)      // about to XDEL read[next-1]
    | Releasing(report: Option<Report>)                                   // about to DEL the flag

  datatype State = State(
    stream: seq<Entry>,
    lastId: nat,
    flag: Option<nat>,
    sessions: map<nat, Phase>,
    nextSession: nat,
    db: Db,
    log: seq<Entry>,
    journal: seq<Entry>)

  /** One await of a session. */
  datatype Action =
    | Read(count: nat)
    | ReadFails                                         // also the empty stream
    | Execute(verdict: Verdict, db: Db)
    | Trim(reply: Reply)
    | Delete(reply: Reply)
    | Release(reply: Reply)

  datatype Step =
    | Append(entry: Entry)
    | OtherWriter(db: Db)                               // the database is shared with other shards
    | Expire
    | Acquire(reply: Reply)
    | Session(sid: nat, action: Action)
    | Crash(sid: nat)

  ghost predicate Initial(s: State) {
    s.stream == [] && s.log == [] && s.journal == [] && s.flag == None && s.sessions == map[]
  }

  /** The entry loop is left: trim what was processed, or go straight to releasing the flag. */
  function LeaveLoop(read: seq<Entry>, base: nat, next: nat): Phase {
    if next == 0 then Releasing(None) else Trimming(read, base, next)
  }

  /** The head of the entry loop: it ends with the entries, and at one that does not parse. */
  function LoopHead(read: seq<Entry>, base: nat, next: nat): Phase {
    if next < |read| && read[next].op.Some? then Executing(read, base, next) else LeaveLoop(read, base, next)
  }

  function Goto(s: State, sid: nat, phase: Phase): State {
    s.(sessions := s.sessions[sid := phase])
  }

  function Removed(s: State): nat {
    if |s.stream| <= |s.log| then |s.log| - |s.stream| else 0
  }

  predicate Possible(s: State, phase: Phase, action: Action) {
    match phase
    case Picked =>
      || (action.Read? && 0 < action.count <= |s.stream|)
      || action.ReadFails?
    case Executing(read, base, next) => action.Execute? && next < |read|
    case Trimming(read, base, next) => action.Trim? && 0 < next <= |read|
    case Deleting(read, base, next, trimmed) => action.Delete? && 0 < next <= |read|
    case Releasing(report) => action.Release?
  }

  function Next(s: State, step: Step): Option<State> {
    match step
    case Append(entry) =>
      if entry.id <= s.lastId then None
      else Some(s.(stream := s.stream + [entry], log := s.log + [entry], lastId := entry.id))
    case OtherWriter(db) => Some(s.(db := db))
    case Expire => Some(s.(flag := None))
    case Acquire(reply) =>
      if s.flag.Some? then None else Some(TakeFlag(s, reply))
    case Crash(sid) =>
      if sid in s.sessions then Some(s.(sessions := s.sessions - {sid})) else None
    case Session(sid, action) =>
      if sid in s.sessions && Possible(s, s.sessions[sid], action) then Some(Acted(s, sid, action)) else None
  }

  function TakeFlag(s: State, reply: Reply): State
    requires s.flag.None?
  {
    match reply
    case Rejected => s
    case Unheard => s.(flag := Some(s.nextSession), nextSession := s.nextSession + 1)
    case Answered => s.(flag := Some(s.nextSession), nextSession := s.nextSession + 1,
                        sessions := s.sessions[s.nextSession := Picked])
  }

  function Acted(s: State, sid: nat, action: Action): State
    requires sid in s.sessions && Possible(s, s.sessions[sid], action)
  {
    match action
    case Read(count) => Goto(s, sid, LoopHead(s.stream[..count], Removed(s), 0))
    case ReadFails => Goto(s, sid, Releasing(None))
    case Execute(verdict, db) => Executed(s, sid, verdict, db)
    case Trim(reply) => Trimmed(s, sid, reply)
    case Delete(reply) => Deleted(s, sid, reply)
    case Release(reply) =>
      s.(sessions := s.sessions - {sid}, flag := if reply.Rejected? then s.flag else None)
  }

  function Executed(s: State, sid: nat, verdict: Verdict, db: Db): State
    requires sid in s.sessions && s.sessions[sid].Executing?
    requires s.sessions[sid].next < |s.sessions[sid].read|
  {
    var Executing(read, base, next) := s.sessions[sid];
    if verdict.Failed? then Goto(s.(db := db), sid, LeaveLoop(read, base, next))
    else Goto(s.(db := db, journal := s.journal + [read[next]]), sid, LoopHead(read, base, next + 1))
  }

  function Trimmed(s: State, sid: nat, reply: Reply): State
    requires sid in s.sessions && s.sessions[sid].Trimming?
    requires 0 < s.sessions[sid].next <= |s.sessions[sid].read|
  {
    var Trimming(read, base, next) := s.sessions[sid];
    var kept := XTrimMinId(s.stream, read[next - 1].id);
    match reply
    case Rejected => Goto(s, sid, Releasing(None))
    case Unheard => Goto(s.(stream := kept), sid, Releasing(None))
    case Answered =>
      Goto(s.(stream := kept), sid, Deleting(read, base, next, |s.stream| - |kept|))
  }

  function Deleted(s: State, sid: nat, reply: Reply): State
    requires sid in s.sessions && s.sessions[sid].Deleting?
    requires 0 < s.sessions[sid].next <= |s.sessions[sid].read|
  {
    var Deleting(read, base, next, trimmed) := s.sessions[sid];
    var kept := XDel(s.stream, read[next - 1].id);
    match reply
    case Rejected => Goto(s, sid, Releasing(None))
    case Unheard => Goto(s.(stream := kept), sid, Releasing(None))
    case Answered => Goto(s.(stream := kept), sid, Releasing(Some(Report(|read|, next, trimmed + 1))))
  }

  // ---- What the surroundings may do --------------------------------------------------------------

  /** An empty shard over any database is where runs begin. */
  lemma EmptyShardIsInitial(lastId: nat, nextSession: nat, db: Db)
    ensures Initial(State([], lastId, None, map[], nextSession, db, [], []))
  {
  }

  /** At any moment an entry is appended, the flag expires, a session crashes, another shard writes. */
  lemma Hazards(s: State, entry: Entry, db: Db, sid: nat)
    ensures s.lastId < entry.id ==>
      Next(s, Append(entry)) == Some(s.(stream := s.stream + [entry], log := s.log + [entry], lastId := entry.id))
    ensures Next(s, Expire) == Some(s.(flag := None))
    ensures Next(s, OtherWriter(db)) == Some(s.(db := db))
    ensures sid in s.sessions ==> Next(s, Crash(sid)) == Some(s.(sessions := s.sessions - {sid}))
  {
  }

  /** An unheard command does to Redis what an answered one does, and a rejected one does nothing. */
  lemma RepliesHideEffects(s: State, sid: nat)
    ensures s.flag.None? ==>
      TakeFlag(s, Unheard).flag == TakeFlag(s, Answered).flag == Some(s.nextSession) && TakeFlag(s, Rejected) == s
    ensures sid in s.sessions && Possible(s, s.sessions[sid], Trim(Answered)) ==>
      Trimmed(s, sid, Unheard).stream == Trimmed(s, sid, Answered).stream && Trimmed(s, sid, Rejected).stream == s.stream
    ensures sid in s.sessions && Possible(s, s.sessions[sid], Delete(Answered)) ==>
      Deleted(s, sid, Unheard).stream == Deleted(s, sid, Answered).stream && Deleted(s, sid, Rejected).stream == s.stream
    ensures sid in s.sessions && Possible(s, s.sessions[sid], Release(Answered)) ==>
      Acted(s, sid, Release(Unheard)).flag == None && Acted(s, sid, Release(Rejected)).flag == s.flag
  {
  }
}
