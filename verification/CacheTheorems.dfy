/** What the cache promises: no invented values ever, and current values when nothing overlaps. */
module CacheTheorems {
  import opened Common
  import opened ReadThroughCache
  import Runs

  predicate Holds(r: Read) {
    r.FillRedis? || r.FillMemory? || r.Answer?
  }

  // ---- What a step can change ----------------------------------------------------------------

  /** What a read goes on with: its key, and a value it held or found in some layer. */
  ghost predicate Continues(s: State, r: Read, q: Read) {
    && q.key == r.key
    && (Holds(q) ==>
          || (Holds(r) && q.value == r.value)
          || (r.key in s.memory && q.value == s.memory[r.key])
          || (r.key in s.redis && q.value == s.redis[r.key])
          || (r.key in s.db && q.value == s.db[r.key]))
  }

  /** One step of read `rid`: it may store the value it holds, and nothing else changes. */
  ghost predicate ReadMoved(s: State, t: State, rid: nat)
    requires rid in s.readers
  {
    var r := s.readers[rid];
    && t.db == s.db && t.seen == s.seen && t.dirty == s.dirty && t.redactors == s.redactors
    && (t.redis == s.redis || (Holds(r) && t.redis == s.redis[r.key := r.value]))
    && (t.memory == s.memory || (Holds(r) && t.memory == s.memory[r.key := r.value]))
    && (t.readers == s.readers - {rid} ||
        (rid in t.readers && Continues(s, r, t.readers[rid]) && t.readers == s.readers[rid := t.readers[rid]]))
  }

  lemma LookMoves(s: State, rid: nat, action: ReadAction)
    requires rid in s.readers && CanAdvance(s, s.readers[rid], action) && (action.LookInMemory? || action.GetFromRedis?)
    ensures ReadMoved(s, Advanced(s, rid, action), rid)
  {
  }

  lemma SetMoves(s: State, rid: nat, reply: Reply)
    requires rid in s.readers && CanAdvance(s, s.readers[rid], SetInRedis(reply))
    ensures ReadMoved(s, Advanced(s, rid, SetInRedis(reply)), rid)
  {
  }

  lemma PushMoves(s: State, rid: nat)
    requires rid in s.readers && CanAdvance(s, s.readers[rid], Push)
    ensures ReadMoved(s, Advanced(s, rid, Push), rid)
  {
  }

  lemma AdvanceMoves(s: State, rid: nat, action: ReadAction)
    requires rid in s.readers && CanAdvance(s, s.readers[rid], action)
    ensures ReadMoved(s, Advanced(s, rid, action), rid)
  {
    match action
    case LookInMemory(_) => LookMoves(s, rid, action);
    case GetFromRedis(_) => LookMoves(s, rid, action);
    case SetInRedis(reply) => SetMoves(s, rid, reply);
    case Push => PushMoves(s, rid);
    case Fetch =>
    case Return =>
  }

  /** The row of one key is written, and the key becomes dirty. */
  ghost predicate RowWritten(s: State, t: State, key: Key) {
    && t.dirty == s.dirty + {key}
    && ((t.db == s.db - {key} && t.seen == s.seen) ||
        (key in t.db && t.db == s.db[key := t.db[key]] && t.seen == s.seen + {(key, t.db[key])}))
  }

  /** The key becomes clean: deleted from Redis by a redact that was through with the memory. */
  ghost predicate Cleaned(s: State, t: State, r: Redact) {
    r.DeleteKey? && t.dirty == s.dirty - {r.key} && t.redis == s.redis - {r.key} && t.memory == s.memory
  }

  ghost predicate RowsMoved(s: State, t: State, r: Redact) {
    || RowWritten(s, t, r.key)
    || (t.db == s.db && t.seen == s.seen && (t.dirty == s.dirty || Cleaned(s, t, r)))
  }

  /** One step of redact `rid`. */
  ghost predicate RedactMoved(s: State, t: State, rid: nat)
    requires rid in s.redactors
  {
    var r := s.redactors[rid];
    && t.readers == s.readers && RowsMoved(s, t, r)
    && (t.redis == s.redis || t.redis == s.redis - {r.key})
    && (t.memory == s.memory || t.memory == s.memory - {r.key})
    && (t.redactors == s.redactors - {rid} ||
        (rid in t.redactors && t.redactors == s.redactors[rid := t.redactors[rid]] && RedactContinues(t, r, t.redactors[rid])))
  }

  ghost predicate RedactContinues(t: State, r: Redact, q: Redact) {
    q.key == r.key && q.memory == r.memory && (q.DeleteKey? && r.memory ==> r.key !in t.memory)
  }

  lemma WriteMoves(s: State, rid: nat, row: Option<Val>, reply: Reply)
    requires rid in s.redactors && CanProceed(s.redactors[rid], Write(row, reply))
    ensures RedactMoved(s, Proceeded(s, rid, Write(row, reply)), rid)
  {
    var key, t := s.redactors[rid].key, Proceeded(s, rid, Write(row, reply));
    assert RowWritten(s, Written(s, key, row), key);
    assert reply.Rejected? || RowWritten(s, t, key);
  }

  lemma DropMoves(s: State, rid: nat)
    requires rid in s.redactors && CanProceed(s.redactors[rid], DropFromMemory)
    ensures RedactMoved(s, Proceeded(s, rid, DropFromMemory), rid)
  {
  }

  lemma DeleteMoves(s: State, rid: nat, reply: Reply)
    requires rid in s.redactors && CanProceed(s.redactors[rid], DeleteFromRedis(reply))
    ensures RedactMoved(s, Proceeded(s, rid, DeleteFromRedis(reply)), rid)
  {
    assert reply.Answered? ==> Cleaned(s, Proceeded(s, rid, DeleteFromRedis(reply)), s.redactors[rid]);
  }

  lemma ProceedMoves(s: State, rid: nat, action: RedactAction)
    requires rid in s.redactors && CanProceed(s.redactors[rid], action)
    ensures RedactMoved(s, Proceeded(s, rid, action), rid)
  {
    match action
    case Write(row, reply) => WriteMoves(s, rid, row, reply);
    case DropFromMemory => DropMoves(s, rid);
    case DeleteFromRedis(reply) => DeleteMoves(s, rid, reply);
  }

  /** Nothing is written anywhere, and nobody gets further. */
  ghost predicate Shrinks(s: State, t: State) {
    && t.db == s.db && t.seen == s.seen && t.dirty == s.dirty
    && (forall k :: k in t.redis ==> k in s.redis && t.redis[k] == s.redis[k])
    && (forall k :: k in t.memory ==> k in s.memory && t.memory[k] == s.memory[k])
    && (forall k :: k in t.readers ==> k in s.readers && t.readers[k] == s.readers[k])
    && (forall k :: k in t.redactors ==> k in s.redactors && t.redactors[k] == s.redactors[k])
  }

  // ---- No value out of thin air ------------------------------------------------------------

  ghost predicate AllSeen(m: map<Key, Val>, seen: set<(Key, Val)>) {
    forall k :: k in m ==> (k, m[k]) in seen
  }

  ghost predicate ReadSeen(r: Read, seen: set<(Key, Val)>) {
    Holds(r) ==> (r.key, r.value) in seen
  }

  ghost predicate SeenInv(s: State) {
    && AllSeen(s.db, s.seen) && AllSeen(s.redis, s.seen) && AllSeen(s.memory, s.seen)
    && forall rid :: rid in s.readers ==> ReadSeen(s.readers[rid], s.seen)
  }

  lemma AdvanceSeen(s: State, t: State, rid: nat)
    requires SeenInv(s) && rid in s.readers && ReadMoved(s, t, rid)
    ensures SeenInv(t)
  {
    assert ReadSeen(s.readers[rid], s.seen);
    forall k | k in t.readers ensures ReadSeen(t.readers[k], t.seen) {
      assert k in s.readers && ReadSeen(s.readers[k], s.seen);
    }
  }

  lemma ProceedSeen(s: State, t: State, rid: nat)
    requires SeenInv(s) && rid in s.redactors && RedactMoved(s, t, rid)
    ensures SeenInv(t)
  {
    forall k | k in t.readers ensures ReadSeen(t.readers[k], t.seen) {
      assert ReadSeen(s.readers[k], s.seen);
    }
  }

  lemma StepSeen(s: State, step: Step)
    requires SeenInv(s) && Next(s, step).Some?
    ensures SeenInv(Next(s, step).value)
  {
    var t := Next(s, step).value;
    match step
    case Advance(rid, action) => AdvanceMoves(s, rid, action); AdvanceSeen(s, t, rid);
    case Proceed(rid, action) => ProceedMoves(s, rid, action); ProceedSeen(s, t, rid);
    case _ =>
      forall k | k in t.readers ensures ReadSeen(t.readers[k], t.seen) {
        assert k in s.readers ==> ReadSeen(s.readers[k], s.seen);
      }
  }

  /** At some instant of the run the database held this value for this key. */
  ghost predicate WasHeld(s: State, steps: seq<Step>, key: Key, value: Val) {
    exists u :: Runs.Passed(Next, s, steps, 0, u) && key in u.db && u.db[key] == value
  }

  lemma StepSees(s: State, step: Step, key: Key, value: Val)
    requires Next(s, step).Some? && (key, value) in Next(s, step).value.seen
    ensures (key, value) in s.seen || (key in Next(s, step).value.db && Next(s, step).value.db[key] == value)
  {
    match step
    case Advance(rid, action) => AdvanceMoves(s, rid, action);
    case Proceed(rid, action) => ProceedMoves(s, rid, action);
    case _ =>
  }

  lemma {:induction false} SeenWasHeld(s: State, steps: seq<Step>, t: State, key: Key, value: Val)
    requires Initial(s) && Runs.After(Next, s, steps) == Some(t) && (key, value) in t.seen
    ensures WasHeld(s, steps, key, value)
    decreases |steps|
  {
    Runs.PassingNow(Next, s, steps, 0, t);
    if steps != [] && !(key in t.db && t.db[key] == value) {
      var front := steps[..|steps| - 1];
      var u := Runs.After(Next, s, front).value;
      StepSees(u, steps[|steps| - 1], key, value);
      SeenWasHeld(s, front, u, key, value);
      var v :| Runs.Passed(Next, s, front, 0, v) && key in v.db && v.db[key] == value;
      Runs.PassedBefore(Next, s, front, 0, v, steps, 0);
    }
  }

  lemma EveryRunSees(s: State, steps: seq<Step>, t: State)
    requires Initial(s) && Runs.After(Next, s, steps) == Some(t)
    ensures SeenInv(t)
  {
    forall u, step | SeenInv(u) && Next(u, step).Some? ensures SeenInv(Next(u, step).value) {
      StepSeen(u, step);
    }
    Runs.AnythingGoes(Next, s, steps);
    Runs.Invariance(Next, Runs.Anything, SeenInv, s, steps);
  }

  /**
    In every interleaving, overlapping or not: each value in either layer, or in the hands of a read,
    was the database's value for that key at some instant of the run.
   */
  lemma NoThinAir(s: State, steps: seq<Step>, t: State)
    requires Initial(s) && Runs.After(Next, s, steps) == Some(t)
    ensures forall key :: key in t.redis ==> WasHeld(s, steps, key, t.redis[key])
    ensures forall key :: key in t.memory ==> WasHeld(s, steps, key, t.memory[key])
    ensures forall rid :: rid in t.readers && Holds(t.readers[rid]) ==>
      WasHeld(s, steps, t.readers[rid].key, t.readers[rid].value)
  {
    EveryRunSees(s, steps, t);
    forall key | key in t.redis ensures WasHeld(s, steps, key, t.redis[key]) {
      SeenWasHeld(s, steps, t, key, t.redis[key]);
    }
    forall key | key in t.memory ensures WasHeld(s, steps, key, t.memory[key]) {
      SeenWasHeld(s, steps, t, key, t.memory[key]);
    }
    forall rid | rid in t.readers && Holds(t.readers[rid]) ensures WasHeld(s, steps, t.readers[rid].key, t.readers[rid].value) {
      assert ReadSeen(t.readers[rid], t.seen);
      SeenWasHeld(s, steps, t, t.readers[rid].key, t.readers[rid].value);
    }
  }

  // ---- Which keys are dirty ------------------------------------------------------------------

  ghost predicate WritesRow(s: State, step: Step, key: Key) {
    && step.Proceed? && step.redact.Write? && !step.redact.reply.Rejected?
    && step.rid in s.redactors && s.redactors[step.rid].key == key
  }

  ghost predicate RedactsOk(s: State, step: Step, key: Key) {
    && step.Proceed? && step.redact == DeleteFromRedis(Answered)
    && step.rid in s.redactors && s.redactors[step.rid].key == key
  }

  /** The key was written, and since its last write no redact of it returned Ok. */
  ghost predicate Unredacted(s: State, steps: seq<Step>, key: Key) {
    steps != [] &&
      var front, last := steps[..|steps| - 1], steps[|steps| - 1];
      match Runs.After(Next, s, front)
      case None => false
      case Some(u) => WritesRow(u, last, key) || (Unredacted(s, front, key) && !RedactsOk(u, last, key))
  }

  lemma StepDirties(s: State, step: Step, key: Key)
    requires Next(s, step).Some?
    ensures key in Next(s, step).value.dirty <==> WritesRow(s, step, key) || (key in s.dirty && !RedactsOk(s, step, key))
  {
    match step
    case Advance(rid, action) => AdvanceMoves(s, rid, action);
    case Proceed(rid, action) => ProceedDirties(s, rid, action, key);
    case _ =>
  }

  lemma ProceedDirties(s: State, rid: nat, action: RedactAction, key: Key)
    requires rid in s.redactors && CanProceed(s.redactors[rid], action)
    ensures key in Proceeded(s, rid, action).dirty <==>
      WritesRow(s, Proceed(rid, action), key) || (key in s.dirty && !RedactsOk(s, Proceed(rid, action), key))
  {
  }

  lemma {:induction false} DirtyIffUnredacted(s: State, steps: seq<Step>, t: State, key: Key)
    requires Initial(s) && Runs.After(Next, s, steps) == Some(t)
    ensures key in t.dirty <==> Unredacted(s, steps, key)
    decreases |steps|
  {
    if steps != [] {
      var front := steps[..|steps| - 1];
      var u := Runs.After(Next, s, front).value;
      DirtyIffUnredacted(s, front, u, key);
      StepDirties(u, steps[|steps| - 1], key);
    }
  }

  // ---- Coherence ---------------------------------------------------------------------------

  ghost predicate Reading(s: State, key: Key) {
    exists rid :: rid in s.readers && s.readers[rid].key == key
  }

  ghost predicate Redacting(s: State, key: Key) {
    exists rid :: rid in s.redactors && s.redactors[rid].key == key
  }

  /** A read and a redact of one key never overlap, and redacts are given the memory cache. */
  ghost predicate Separate(s: State, step: Step) {
    && (step.BeginRead? ==> !Redacting(s, step.key))
    && (step.BeginRedact? ==> step.memory && !Reading(s, step.key))
  }

  /** This excludes three things only: an overlap begun by either side, and a redact without the memory cache. */
  lemma SeparateExcludesOnly(s: State, step: Step)
    ensures !Separate(s, step) <==>
      || (step.BeginRead? && exists rid :: rid in s.redactors && s.redactors[rid].key == step.key)
      || (step.BeginRedact? && (!step.memory || exists rid :: rid in s.readers && s.readers[rid].key == step.key))
  {
  }

  ghost predicate Current(s: State, key: Key, value: Val) {
    key in s.db && s.db[key] == value
  }

  /** Whatever is held for a clean key is the database's current value. */
  ghost predicate KeyCoherent(s: State, key: Key) {
    key !in s.dirty ==>
      && (key in s.redis ==> Current(s, key, s.redis[key]))
      && (key in s.memory ==> Current(s, key, s.memory[key]))
  }

  ghost predicate ReadCoherent(s: State, r: Read) {
    Holds(r) && r.key !in s.dirty ==> Current(s, r.key, r.value)
  }

  /** A redact that has invalidated the memory leaves nothing there. */
  ghost predicate RedactClears(s: State, r: Redact) {
    r.memory && (r.DeleteKey? ==> r.key !in s.memory)
  }

  ghost predicate CoherentInv(s: State) {
    && (forall key :: KeyCoherent(s, key))
    && (forall rid :: rid in s.readers ==> ReadCoherent(s, s.readers[rid]))
    && (forall rid :: rid in s.redactors ==> RedactClears(s, s.redactors[rid]))
    && Apart(s)
  }

  ghost predicate Apart(s: State) {
    forall a, b :: a in s.readers && b in s.redactors ==> s.readers[a].key != s.redactors[b].key
  }

  lemma ReadKeepsKey(s: State, t: State, rid: nat, key: Key)
    requires rid in s.readers && ReadMoved(s, t, rid) && ReadCoherent(s, s.readers[rid]) && KeyCoherent(s, key)
    ensures KeyCoherent(t, key)
  {
  }

  lemma AdvanceCoherent(s: State, t: State, rid: nat)
    requires CoherentInv(s) && rid in s.readers && ReadMoved(s, t, rid)
    ensures CoherentInv(t)
  {
    var r := s.readers[rid];
    assert ReadCoherent(s, r) && KeyCoherent(s, r.key);
    forall key ensures KeyCoherent(t, key) {
      assert KeyCoherent(s, key);
      ReadKeepsKey(s, t, rid, key);
    }
    forall k | k in t.readers ensures k in s.readers && ReadCoherent(t, t.readers[k]) && t.readers[k].key == s.readers[k].key {
      assert k in s.readers && ReadCoherent(s, s.readers[k]);
    }
    forall k | k in t.redactors ensures RedactClears(t, t.redactors[k]) {
      assert RedactClears(s, s.redactors[k]) && s.redactors[k].key != r.key;
    }
  }

  lemma RedactKeepsKey(s: State, t: State, rid: nat, key: Key)
    requires rid in s.redactors && RedactMoved(s, t, rid) && RedactClears(s, s.redactors[rid]) && KeyCoherent(s, key)
    ensures KeyCoherent(t, key)
  {
  }

  lemma RedactSparesRead(s: State, t: State, rid: nat, r: Read)
    requires rid in s.redactors && RedactMoved(s, t, rid) && ReadCoherent(s, r) && r.key != s.redactors[rid].key
    ensures ReadCoherent(t, r)
  {
  }

  lemma ProceedCoherent(s: State, t: State, rid: nat)
    requires CoherentInv(s) && rid in s.redactors && RedactMoved(s, t, rid)
    ensures CoherentInv(t)
  {
    assert RedactClears(s, s.redactors[rid]);
    forall key ensures KeyCoherent(t, key) {
      assert KeyCoherent(s, key);
      RedactKeepsKey(s, t, rid, key);
    }
    forall k | k in t.readers ensures ReadCoherent(t, t.readers[k]) {
      assert ReadCoherent(s, s.readers[k]);
      RedactSparesRead(s, t, rid, s.readers[k]);
    }
    forall k | k in t.redactors ensures k in s.redactors && RedactClears(t, t.redactors[k]) && t.redactors[k].key == s.redactors[k].key {
      assert k in s.redactors && RedactClears(s, s.redactors[k]);
    }
  }

  lemma ShrinkCoherent(s: State, t: State)
    requires CoherentInv(s) && Shrinks(s, t)
    ensures CoherentInv(t)
  {
    forall k ensures KeyCoherent(t, k) {
      assert KeyCoherent(s, k);
    }
    forall k | k in t.readers ensures ReadCoherent(t, t.readers[k]) {
      assert ReadCoherent(s, s.readers[k]);
    }
    forall k | k in t.redactors ensures RedactClears(t, t.redactors[k]) {
      assert RedactClears(s, s.redactors[k]);
    }
  }

  lemma BeginCoherent(s: State, step: Step)
    requires CoherentInv(s) && Separate(s, step) && (step.BeginRead? || step.BeginRedact?)
    ensures CoherentInv(Next(s, step).value)
  {
    var t := Next(s, step).value;
    forall k ensures KeyCoherent(t, k) {
      assert KeyCoherent(s, k);
    }
    forall k | k in t.readers ensures ReadCoherent(t, t.readers[k]) {
      assert k in s.readers ==> ReadCoherent(s, s.readers[k]);
    }
    forall k | k in t.redactors ensures RedactClears(t, t.redactors[k]) {
      assert k in s.redactors ==> RedactClears(s, s.redactors[k]);
    }
  }

  lemma StepCoherent(s: State, step: Step)
    requires CoherentInv(s) && Separate(s, step) && Next(s, step).Some?
    ensures CoherentInv(Next(s, step).value)
  {
    var t := Next(s, step).value;
    match step
    case Advance(rid, action) => AdvanceMoves(s, rid, action); AdvanceCoherent(s, t, rid);
    case Proceed(rid, action) => ProceedMoves(s, rid, action); ProceedCoherent(s, t, rid);
    case BeginRead(_, _) => BeginCoherent(s, step);
    case BeginRedact(_, _) => BeginCoherent(s, step);
    case _ => ShrinkCoherent(s, t);
  }

  /**
    In every run where reads and redacts of the same key do not overlap, whatever expires or fails and
    however other keys interleave: a read about to return Ok for a key whose last write was redacted
    with Ok returns the database's current value.
   */
  lemma Coherence(s: State, steps: seq<Step>, t: State, rid: nat)
    requires Initial(s) && Runs.After(Next, s, steps) == Some(t)
    requires Runs.Obeys(Next, Separate, s, steps)
    requires rid in t.readers && t.readers[rid].Answer? && t.readers[rid].key !in t.dirty
    ensures t.readers[rid].key in t.db && t.db[t.readers[rid].key] == t.readers[rid].value
  {
    forall u, step | CoherentInv(u) && Separate(u, step) && Next(u, step).Some? ensures CoherentInv(Next(u, step).value) {
      StepCoherent(u, step);
    }
    Runs.Invariance(Next, Separate, CoherentInv, s, steps);
    assert ReadCoherent(t, t.readers[rid]);
  }
}
