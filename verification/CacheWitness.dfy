/** A run showing that a read overlapping a redact of its key can leave a stale value behind. */
module CacheWitness {
  import opened Common
  import opened ReadThroughCache
  import Runs

  /** The read misses Redis and fetches the old value from the database. */
  lemma FetchOld(s: State, key: Key, before: Val) returns (steps: seq<Step>, t: State)
    requires Initial(s) && s.db == map[key := before]
    ensures Runs.After(Next, s, steps) == Some(t)
    ensures t == s.(readers := map[s.next := FillRedis(key, before, false)], next := s.next + 1)
  {
    steps, t := Runs.Take(Next, s, [], s, BeginRead(key, false));
    steps, t := Runs.Take(Next, s, steps, t, Advance(s.next, GetFromRedis(false)));
    steps, t := Runs.Take(Next, s, steps, t, Advance(s.next, Fetch));
    assert t.readers == map[s.next := FillRedis(key, before, false)];
  }

  /** Meanwhile a redact writes the new value. */
  lemma WroteNew(s: State, steps: seq<Step>, t: State, key: Key, after: Val) returns (steps': seq<Step>, t': State)
    requires Runs.After(Next, s, steps) == Some(t) && t.redactors == map[] && t.dirty == {}
    ensures Runs.After(Next, s, steps') == Some(t')
    ensures t'.db == t.db[key := after] && t'.readers == t.readers && t'.dirty == {key}
    ensures t'.redactors == map[t.next := Invalidate(key, true)]
  {
    steps', t' := Runs.Take(Next, s, steps, t, BeginRedact(key, true));
    steps', t' := Runs.Take(Next, s, steps', t', Proceed(t.next, Write(Some(after), Answered)));
  }

  /** It runs to its end and returns Ok. */
  lemma Redacted(s: State, steps: seq<Step>, t: State, key: Key, rid: nat) returns (steps': seq<Step>, t': State)
    requires Runs.After(Next, s, steps) == Some(t) && t.redactors == map[rid := Invalidate(key, true)] && t.dirty == {key}
    ensures Runs.After(Next, s, steps') == Some(t')
    ensures t'.db == t.db && t'.readers == t.readers && t'.dirty == {} && t'.redactors == map[]
  {
    steps', t' := Runs.Take(Next, s, steps, t, Proceed(rid, DropFromMemory));
    assert t'.redactors[rid] == DeleteKey(key, true);
    steps', t' := Runs.Take(Next, s, steps', t', Proceed(rid, DeleteFromRedis(Answered)));
    assert t'.redactors == map[];
  }

  /** The read then stores the old value: no redact is under way, the key is clean, and Redis is stale. */
  lemma OverlapLeavesStaleValue(s: State, key: Key, before: Val, after: Val) returns (steps: seq<Step>, t: State)
    requires Initial(s) && s.db == map[key := before] && before != after
    ensures Runs.After(Next, s, steps) == Some(t)
    ensures t.redactors == map[] && key !in t.dirty
    ensures key in t.redis && key in t.db && t.redis[key] == before != t.db[key]
  {
    steps, t := FetchOld(s, key, before);
    var rid := t.next;
    steps, t := WroteNew(s, steps, t, key, after);
    steps, t := Redacted(s, steps, t, key, rid);
    steps, t := Runs.Take(Next, s, steps, t, Advance(s.next, SetInRedis(Answered)));
  }
}
