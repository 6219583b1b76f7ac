/**
  The two-level read-through cache: process memory over Redis over the database, with any number of
  reads and redacting writes interleaved at every await, entries that expire or are evicted at any
  moment, and remote calls that fail with or without having taken effect.

  `seen` (every value the database ever held) and `dirty` (keys written since a redact of them last
  returned Ok) are history.
 */
module ReadThroughCache {
  import opened Common

  type Key(!new, ==)
  type Val(!new, ==)

  datatype Read =
    | AskMemory(key: Key)
    | AskRedis(key: Key, push: bool)                 // `push`: the caller also fills the memory cache
    | AskDatabase(key: Key, push: bool)
    | FillRedis(key: Key, value: Val, push: bool)
    | FillMemory(key: Key, value: Val)
    | Answer(key: Key, value: Val)                   // about to return Ok(value)

  datatype Redact =
    | WriteDatabase(key: Key, memory: bool)          // `memory`: the caller handed over the memory cache
    | Invalidate(key: Key, memory: bool)
    | DeleteKey(key: Key, memory: bool)

  datatype State = State(
    db: map<Key, Val>,
    redis: map<Key, Val>,
    memory: map<Key, Val>,
    readers: map<nat, Read>,
    redactors: map<nat, Redact>,
    next: nat,
    seen: set<(Key, Val)>,
    dirty: set<Key>)

  datatype ReadAction =
    | LookInMemory(miss: bool)                       // an entry of another type counts as a miss
    | GetFromRedis(miss: bool)                       // so does one that does not deserialize
    | Fetch
    | SetInRedis(reply: Reply)
    | Push
    | Return

  datatype RedactAction =
    | Write(row: Option<Val>, reply: Reply)          // `None` deletes the row
    | DropFromMemory
    | DeleteFromRedis(reply: Reply)

  datatype Step =
    | BeginRead(key: Key, inMemory: bool)
    | Advance(rid: nat, read: ReadAction)
    | ReadFails(rid: nat)
    | BeginRedact(key: Key, memory: bool)
    | Proceed(rid: nat, redact: RedactAction)
    | RedactFails(rid: nat)
    | Evict(key: Key, fromMemory: bool)

  ghost predicate Initial(s: State) {
    && s.redis == map[] && s.memory == map[] && s.readers == map[] && s.redactors == map[] && s.dirty == {}
    && forall k, v :: (k, v) in s.seen <==> k in s.db && s.db[k] == v
  }

  predicate CanAdvance(s: State, r: Read, action: ReadAction) {
    match r
    case AskMemory(_) => action.LookInMemory?
    case AskRedis(_, _) => action.GetFromRedis?
    case AskDatabase(key, _) => action.Fetch? && key in s.db
    case FillRedis(_, _, _) => action.SetInRedis?
    case FillMemory(_, _) => action.Push?
    case Answer(_, _) => action.Return?
  }

  function At(s: State, rid: nat, r: Read): State {
    s.(readers := s.readers[rid := r])
  }

  function Holding(key: Key, value: Val, push: bool): Read {
    if push then FillMemory(key, value) else Answer(key, value)
  }

  function Found(s: State, rid: nat, key: Key, value: Val, push: bool): State {
    At(s, rid, Holding(key, value, push))
  }

  function Gone(s: State, rid: nat): State {
    s.(readers := s.readers - {rid})
  }

  function Advanced(s: State, rid: nat, action: ReadAction): State
    requires rid in s.readers && CanAdvance(s, s.readers[rid], action)
  {
    var r := s.readers[rid];
    match action
    case LookInMemory(miss) =>
      if r.key in s.memory && !miss then At(s, rid, Answer(r.key, s.memory[r.key])) else At(s, rid, AskRedis(r.key, true))
    case GetFromRedis(miss) =>
      if r.key in s.redis && !miss then Found(s, rid, r.key, s.redis[r.key], r.push)
      else At(s, rid, AskDatabase(r.key, r.push))
    case Fetch => At(s, rid, FillRedis(r.key, s.db[r.key], r.push))
    case SetInRedis(reply) =>
      var filled := s.(redis := s.redis[r.key := r.value]);
      (match reply
       case Answered => Found(filled, rid, r.key, r.value, r.push)
       case Rejected => Gone(s, rid)
       case Unheard => Gone(filled, rid))
    case Push => At(s.(memory := s.memory[r.key := r.value]), rid, Answer(r.key, r.value))
    case Return => Gone(s, rid)
  }

  predicate CanProceed(r: Redact, action: RedactAction) {
    match r
    case WriteDatabase(_, _) => action.Write?
    case Invalidate(_, _) => action.DropFromMemory?
    case DeleteKey(_, _) => action.DeleteFromRedis?
  }

  function Written(s: State, key: Key, row: Option<Val>): State {
    match row
    case None => s.(db := s.db - {key}, dirty := s.dirty + {key})
    case Some(v) => s.(db := s.db[key := v], dirty := s.dirty + {key}, seen := s.seen + {(key, v)})
  }

  function Over(s: State, rid: nat): State {
    s.(redactors := s.redactors - {rid})
  }

  function Proceeded(s: State, rid: nat, action: RedactAction): State
    requires rid in s.redactors && CanProceed(s.redactors[rid], action)
  {
    var r := s.redactors[rid];
    match action
    case Write(row, reply) =>
      (match reply
       case Answered => Written(s, r.key, row).(redactors := s.redactors[rid := Invalidate(r.key, r.memory)])
       case Rejected => Over(s, rid)
       case Unheard => Over(Written(s, r.key, row), rid))
    case DropFromMemory =>
      s.(memory := if r.memory then s.memory - {r.key} else s.memory, redactors := s.redactors[rid := DeleteKey(r.key, r.memory)])
    case DeleteFromRedis(reply) =>
      var deleted := s.(redis := s.redis - {r.key});
      (match reply
       case Answered => Over(deleted.(dirty := s.dirty - {r.key}), rid)
       case Rejected => Over(s, rid)
       case Unheard => Over(deleted, rid))
  }

  function Next(s: State, step: Step): Option<State> {
    match step
    case BeginRead(key, inMemory) =>
      Some(At(s, s.next, if inMemory then AskMemory(key) else AskRedis(key, false)).(next := s.next + 1))
    case Advance(rid, action) =>
      if rid in s.readers && CanAdvance(s, s.readers[rid], action) then Some(Advanced(s, rid, action)) else None
    case ReadFails(rid) => if rid in s.readers then Some(Gone(s, rid)) else None
    case BeginRedact(key, memory) =>
      Some(s.(redactors := s.redactors[s.next := WriteDatabase(key, memory)], next := s.next + 1))
    case Proceed(rid, action) =>
      if rid in s.redactors && CanProceed(s.redactors[rid], action) then Some(Proceeded(s, rid, action)) else None
    case RedactFails(rid) => if rid in s.redactors then Some(Over(s, rid)) else None
    case Evict(key, fromMemory) =>
      Some(if fromMemory then s.(memory := s.memory - {key}) else s.(redis := s.redis - {key}))
  }

  // ---- What the surroundings may do --------------------------------------------------------------

  /** Runs begin with cold caches over any database. */
  lemma ColdCachesAreInitial(db: map<Key, Val>, next: nat)
    ensures Initial(State(db, map[], map[], map[], map[], next, set k | k in db :: (k, db[k]), {}))
  {
  }

  /** At any moment entries are evicted, reads and redacts begin, and their calls fail. */
  lemma Hazards(s: State, key: Key, flag: bool, rid: nat)
    ensures Next(s, Evict(key, true)) == Some(s.(memory := s.memory - {key}))
    ensures Next(s, Evict(key, false)) == Some(s.(redis := s.redis - {key}))
    ensures Next(s, BeginRead(key, flag)).Some? && s.next in Next(s, BeginRead(key, flag)).value.readers
    ensures Next(s, BeginRedact(key, flag)).Some? && s.next in Next(s, BeginRedact(key, flag)).value.redactors
    ensures rid in s.readers ==> Next(s, ReadFails(rid)) == Some(s.(readers := s.readers - {rid}))
    ensures rid in s.redactors ==> Next(s, RedactFails(rid)) == Some(s.(redactors := s.redactors - {rid}))
  {
  }

  /** An unheard command does to Redis and the database what an answered one does, and a rejected one does nothing. */
  lemma RepliesHideEffects(s: State, rid: nat, row: Option<Val>)
    ensures rid in s.readers && s.readers[rid].FillRedis? ==>
      && Advanced(s, rid, SetInRedis(Unheard)).redis == Advanced(s, rid, SetInRedis(Answered)).redis
      && Advanced(s, rid, SetInRedis(Rejected)).redis == s.redis
    ensures rid in s.redactors && s.redactors[rid].WriteDatabase? ==>
      && Proceeded(s, rid, Write(row, Unheard)).db == Proceeded(s, rid, Write(row, Answered)).db
      && Proceeded(s, rid, Write(row, Rejected)).db == s.db
    ensures rid in s.redactors && s.redactors[rid].DeleteKey? ==>
      && Proceeded(s, rid, DeleteFromRedis(Unheard)).redis == Proceeded(s, rid, DeleteFromRedis(Answered)).redis
      && Proceeded(s, rid, DeleteFromRedis(Rejected)).redis == s.redis
  {
  }
}
