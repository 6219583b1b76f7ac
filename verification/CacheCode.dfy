/**
  The cache's own code, run by one caller among others over the shared layers: everybody else may take
  any number of steps between two awaits, and the code only ever takes steps of the step system.
 */
module CacheCode {
  import opened Common
  import opened ReadThroughCache
  import opened CacheTheorems
  import Runs

  datatype RedisReply = Replied | Undecodable | Error

  /** How the calls of one read turn out. */
  datatype ReadOutcomes = ReadOutcomes(memoryTypeMatches: bool, connected: bool, get: RedisReply, fetched: bool, fill: Reply)

  /** How the calls of one redact turn out. */
  datatype RedactOutcomes = RedactOutcomes(write: Reply, connected: bool, delete: Reply)

  /** What a read answers, given the states in which it looked into each layer. */
  function FromDatabase(fetched: State, key: Key, o: ReadOutcomes): Result<Val, ()> {
    if o.fetched && key in fetched.db && o.fill.Answered? then Ok(fetched.db[key]) else Err(())
  }

  function FromRedis(asked: State, fetched: State, key: Key, o: ReadOutcomes): Result<Val, ()> {
    if !o.connected || o.get.Error? then Err(())
    else if key in asked.redis && !o.get.Undecodable? then Ok(asked.redis[key])
    else FromDatabase(fetched, key, o)
  }

  function FromMemory(looked: State, asked: State, fetched: State, key: Key, o: ReadOutcomes): Result<Val, ()> {
    if key in looked.memory && o.memoryTypeMatches then Ok(looked.memory[key])
    else FromRedis(asked, fetched, key, o)
  }

  function By(rid: nat): Step -> bool {
    (step: Step) => (step.Proceed? && step.rid == rid) || (step.RedactFails? && step.rid == rid)
  }

  function DropSteps(rid: nat, o: RedactOutcomes): seq<Step> {
    [Proceed(rid, DropFromMemory)] + [if o.connected then Proceed(rid, DeleteFromRedis(o.delete)) else RedactFails(rid)]
  }

  /** The order of a redact: database, memory, Redis. */
  function RedactSteps(rid: nat, row: Option<Val>, o: RedactOutcomes): seq<Step> {
    [Proceed(rid, Write(row, o.write))] + if o.write.Answered? then DropSteps(rid, o) else []
  }

  /** Whatever else fails, a row that was written is followed by the memory, and then by Redis if it can be reached. */
  lemma RedactOrder(rid: nat, row: Option<Val>, o: RedactOutcomes)
    ensures var steps := RedactSteps(rid, row, o);
      && |steps| == (if o.write.Answered? then 3 else 1)
      && steps[0] == Proceed(rid, Write(row, o.write))
      && (o.write.Answered? ==> steps[1] == Proceed(rid, DropFromMemory))
      && (o.write.Answered? && o.connected ==> steps[2] == Proceed(rid, DeleteFromRedis(o.delete)))
  {
  }

  /** Every call on the way to the database and back succeeds. */
  predicate Reaches(o: ReadOutcomes) {
    o.connected && !o.get.Error? && o.fetched && o.fill.Answered?
  }

  /** The database holds this row for the key, or none. */
  ghost predicate IsRow(s: State, key: Key, row: Option<Val>) {
    match row
    case None => key !in s.db
    case Some(v) => key in s.db && s.db[key] == v
  }

  class Layers {
    ghost const origin: State
    ghost var taken: seq<Step>
    ghost var own: nat -> seq<Step>
    var now: State

    /** The run so far leads to the present state, and its steps are noted under whoever took them. */
    ghost predicate Valid()
      reads this
    {
      forall who :: Faithful(who)
    }

    ghost predicate Faithful(who: nat)
      reads this
    {
      && Runs.After(Next, origin, taken) == Some(now)
      && own(who) == Runs.Own(By(who), taken)
    }

    constructor (start: State)
      ensures Valid() && origin == start && now == start && taken == []
    {
      origin, now, taken := start, start, [];
      own := (_: nat) => [];
    }

    method Take(step: Step)
      requires Valid() && Next(now, step).Some?
      modifies this
      ensures Valid() && now == Next(old(now), step).value && taken == old(taken) + [step]
      ensures forall who :: Own(who) == old(Own(who)) + if By(who)(step) then [step] else []
    {
      assert Faithful(0);
      ghost var before, was := taken, own;
      Runs.Extend(Next, origin, taken, step);
      now := Next(now, step).value;
      taken := taken + [step];
      own := (who: nat) => was(who) + if By(who)(step) then [step] else [];
      forall who ensures Faithful(who) {
        assert old(Faithful(who));
        Runs.OwnSnoc(By(who), before, step);
      }
    }

    method Act(rid: nat, action: ReadAction)
      requires Valid() && rid in now.readers && CanAdvance(now, now.readers[rid], action)
      modifies this
      ensures Valid() && now == Advanced(old(now), rid, action) && taken == old(taken) + [Advance(rid, action)]
    {
      Take(Advance(rid, action));
    }

    ghost function Own(rid: nat): seq<Step>
      reads this
    {
      own(rid)
    }

    /** A state the run has passed through since `before`. */
    ghost predicate Passed(before: seq<Step>, s: State)
      reads this
    {
      Runs.Passed(Next, origin, taken, |before|, s)
    }

    method ActAsRedact(rid: nat, action: RedactAction)
      requires Valid() && rid in now.redactors && CanProceed(now.redactors[rid], action)
      modifies this
      ensures Valid() && now == Proceeded(old(now), rid, action) && taken == old(taken) + [Proceed(rid, action)]
      ensures Own(rid) == old(Own(rid)) + [Proceed(rid, action)]
    {
      Take(Proceed(rid, action));
    }

    method GiveUp(rid: nat)
      requires Valid() && rid in now.redactors
      modifies this
      ensures Valid() && now == Over(old(now), rid) && taken == old(taken) + [RedactFails(rid)]
      ensures Own(rid) == old(Own(rid)) + [RedactFails(rid)]
    {
      Take(RedactFails(rid));
    }

    /** Everybody else, while read `rid` is suspended. Callers rely on the contract alone. */
    method Others(rid: nat)
      requires Valid() && rid in now.readers
      modifies this
      ensures Valid() && old(taken) <= taken
      ensures rid in now.readers && now.readers[rid] == old(now.readers[rid])
    {
    }

    /** Everybody else, while redact `rid` is suspended. */
    method OthersThanRedact(rid: nat)
      requires Valid() && rid in now.redactors
      modifies this
      ensures Valid() && old(taken) <= taken && Own(rid) == old(Own(rid))
      ensures rid in now.redactors && now.redactors[rid] == old(now.redactors[rid])
    {
    }

    /** The value is in hand, about to be stored: SET, and whatever others do before it. */
    method SetKey(rid: nat, o: ReadOutcomes) returns (result: Result<Val, ()>)
      requires Valid() && rid in now.readers && now.readers[rid].FillRedis?
      modifies this
      ensures Valid() && old(taken) <= taken
      ensures var r := old(now.readers[rid]);
        && result == (if o.fill.Answered? then Ok(r.value) else Err(()))
        && (result.Ok? ==> r.key in now.redis && now.redis[r.key] == r.value)
        && (if result.Ok? then rid in now.readers && now.readers[rid] == Holding(r.key, r.value, r.push) else rid !in now.readers)
    {
      Others(rid);
      var value := now.readers[rid].value;
      Act(rid, SetInRedis(o.fill));
      result := if o.fill.Answered? then Ok(value) else Err(());
    }

    /** Fetch from the database, then SET. */
    method GetDataSetRedis(rid: nat, o: ReadOutcomes) returns (result: Result<Val, ()>, ghost fetched: State)
      requires Valid() && rid in now.readers && now.readers[rid].AskDatabase?
      modifies this
      ensures Valid() && old(taken) <= taken && Passed(old(taken), fetched)
      ensures var r := old(now.readers[rid]);
        && result == FromDatabase(fetched, r.key, o)
        && (o.fetched && o.fill.Answered? && r.key in fetched.db ==> result == Ok(fetched.db[r.key]))
        && (result.Ok? ==> r.key in now.redis && now.redis[r.key] == result.value)
        && (if result.Ok? then rid in now.readers && now.readers[rid] == Holding(r.key, result.value, r.push) else rid !in now.readers)
    {
      Others(rid);
      fetched := now;
      ghost var before := taken;
      assert Faithful(0);
      Runs.PassingNow(Next, origin, before, |old(taken)|, fetched);
      if !o.fetched || now.readers[rid].key !in now.db {
        Take(ReadFails(rid));
        result := Err(());
      } else {
        Act(rid, Fetch);
        result := SetKey(rid, o);
      }
      Runs.PassedBefore(Next, origin, before, |old(taken)|, fetched, taken, |old(taken)|);
    }

    /** GET, at the moment `asked`; leaves the read with a value, or at the database. */
    method GetKey(rid: nat, o: ReadOutcomes) returns (hit: Option<Val>, ghost asked: State)
      requires Valid() && rid in now.readers && now.readers[rid].AskRedis?
      modifies this
      ensures Valid() && old(taken) <= taken && Passed(old(taken), asked)
      ensures var r := old(now.readers[rid]);
        && hit == (if r.key in asked.redis && !o.get.Undecodable? then Some(asked.redis[r.key]) else None)
        && rid in now.readers
        && now.readers[rid] == if hit.Some? then Holding(r.key, hit.value, r.push) else AskDatabase(r.key, r.push)
    {
      Others(rid);
      asked := now;
      ghost var before := taken;
      assert Faithful(0);
      Runs.PassingNow(Next, origin, before, |old(taken)|, asked);
      var key := now.readers[rid].key;
      hit := if key in now.redis && !o.get.Undecodable? then Some(now.redis[key]) else None;
      Act(rid, GetFromRedis(o.get.Undecodable?));
      Runs.PassedBefore(Next, origin, before, |old(taken)|, asked, taken, |old(taken)|);
    }

    /** GET; on a miss or an undecodable entry, fetch and fill. */
    method GetOrPopulateRedis(rid: nat, o: ReadOutcomes) returns (result: Result<Val, ()>, ghost asked: State, ghost fetched: State)
      requires Valid() && rid in now.readers && now.readers[rid].AskRedis?
      modifies this
      ensures Valid() && old(taken) <= taken && Passed(old(taken), asked) && Passed(old(taken), fetched)
      ensures var r := old(now.readers[rid]);
        && result == FromRedis(asked, fetched, r.key, o)
        && (o.connected && o.get.Replied? && r.key in asked.redis ==> result == Ok(asked.redis[r.key]))
        && (Reaches(o) && (r.key !in asked.redis || o.get.Undecodable?) && r.key in fetched.db ==> result == Ok(fetched.db[r.key]))
        && (if result.Ok? then rid in now.readers && now.readers[rid] == Holding(r.key, result.value, r.push) else rid !in now.readers)
    {
      asked, fetched := now, now;
      if !o.connected || o.get.Error? {
        assert Faithful(0);
        Runs.PassingNow(Next, origin, old(taken), |old(taken)|, asked);
        Take(ReadFails(rid));
        result := Err(());
        Runs.PassedBefore(Next, origin, old(taken), |old(taken)|, asked, taken, |old(taken)|);
        return;
      }
      var hit;
      hit, asked := GetKey(rid, o);
      fetched := asked;
      if hit.Some? {
        result := Ok(hit.value);
      } else {
        ghost var before := taken;
        result, fetched := GetDataSetRedis(rid, o);
        Runs.PassedBefore(Next, origin, before, |old(taken)|, asked, taken, |old(taken)|);
        Runs.PassedBefore(Next, origin, taken, |before|, fetched, taken, |old(taken)|);
      }
    }

    /** A lookup in memory, at the moment `looked`. */
    method GetVal(key: Key, o: ReadOutcomes) returns (rid: nat, hit: Option<Val>, ghost looked: State)
      requires Valid()
      modifies this
      ensures Valid() && old(taken) <= taken && Passed(old(taken), looked)
      ensures hit == if key in looked.memory && o.memoryTypeMatches then Some(looked.memory[key]) else None
      ensures rid in now.readers && now.readers[rid] == if hit.Some? then Answer(key, hit.value) else AskRedis(key, true)
      ensures hit.Some? ==> key in now.memory && now.memory[key] == hit.value
    {
      rid := now.next;
      Take(BeginRead(key, true));
      Others(rid);
      looked := now;
      ghost var before := taken;
      assert Faithful(0);
      Runs.PassingNow(Next, origin, before, |old(taken)|, looked);
      hit := if key in now.memory && o.memoryTypeMatches then Some(now.memory[key]) else None;
      Act(rid, LookInMemory(!o.memoryTypeMatches));
      Runs.PassedBefore(Next, origin, before, |old(taken)|, looked, taken, |old(taken)|);
    }

    /** From Redis, pushed into memory on the way back. */
    method PopulateMemory(rid: nat, o: ReadOutcomes) returns (result: Result<Val, ()>, ghost asked: State, ghost fetched: State)
      requires Valid() && rid in now.readers && now.readers[rid].AskRedis? && now.readers[rid].push
      modifies this
      ensures Valid() && old(taken) <= taken && Passed(old(taken), asked) && Passed(old(taken), fetched)
      ensures var key := old(now.readers[rid]).key;
        && result == FromRedis(asked, fetched, key, o)
        && (result.Ok? ==> key in now.memory && now.memory[key] == result.value)
        && (if result.Ok? then rid in now.readers && now.readers[rid] == Answer(key, result.value) else rid !in now.readers)
    {
      result, asked, fetched := GetOrPopulateRedis(rid, o);
      ghost var before := taken;
      if result.Ok? {
        Others(rid);
        Act(rid, Push);
      }
      Runs.PassedBefore(Next, origin, before, |old(taken)|, asked, taken, |old(taken)|);
      Runs.PassedBefore(Next, origin, before, |old(taken)|, fetched, taken, |old(taken)|);
    }

    /**
      Memory first, then Redis, then the database, each as it stood at some moment of the call.
      Whatever overlaps, the value returned was once the database's; if no redact of the key
      overlapped, it is the database's now.
     */
    method GetOrPopulateInMemory(key: Key, o: ReadOutcomes)
      returns (rid: nat, result: Result<Val, ()>, ghost looked: State, ghost asked: State, ghost fetched: State)
      requires Valid()
      modifies this
      ensures Valid() && old(taken) <= taken
      ensures Passed(old(taken), looked) && Passed(old(taken), asked) && Passed(old(taken), fetched)
      ensures result == FromMemory(looked, asked, fetched, key, o)
      ensures key in looked.memory && o.memoryTypeMatches ==> result == Ok(looked.memory[key])
      ensures Reaches(o) && key in fetched.db ==> result.Ok?
      ensures Reaches(o) && key in fetched.db && key !in looked.memory && key !in asked.redis ==> result == Ok(fetched.db[key])
      ensures result.Ok? ==> key in now.memory && now.memory[key] == result.value
      ensures result.Err? ==> rid !in now.readers
      ensures result.Ok? ==> rid in now.readers && now.readers[rid] == Answer(key, result.value)
      ensures result.Ok? && Initial(origin) ==> WasHeld(origin, taken, key, result.value)
      ensures result.Ok? && Initial(origin) && Runs.Obeys(Next, Separate, origin, taken) && key !in now.dirty ==>
        key in now.db && now.db[key] == result.value
    {
      var hit;
      rid, hit, looked := GetVal(key, o);
      asked, fetched := looked, looked;
      if hit.Some? {
        result := Ok(hit.value);
      } else {
        ghost var before := taken;
        result, asked, fetched := PopulateMemory(rid, o);
        Runs.PassedBefore(Next, origin, before, |old(taken)|, looked, taken, |old(taken)|);
        Runs.PassedBefore(Next, origin, taken, |before|, asked, taken, |old(taken)|);
        Runs.PassedBefore(Next, origin, taken, |before|, fetched, taken, |old(taken)|);
      }
      if result.Ok? && Initial(origin) {
        ReadIsGood(rid, key, result.value);
      }
    }

    lemma ReadIsGood(rid: nat, key: Key, value: Val)
      requires Valid() && Initial(origin) && rid in now.readers && now.readers[rid] == Answer(key, value)
      ensures WasHeld(origin, taken, key, value)
      ensures Runs.Obeys(Next, Separate, origin, taken) && key !in now.dirty ==> key in now.db && now.db[key] == value
    {
      assert Faithful(0);
      NoThinAir(origin, taken, now);
      if Runs.Obeys(Next, Separate, origin, taken) && key !in now.dirty {
        Coherence(origin, taken, now, rid);
      }
    }

    /** After the write: drop from memory, then delete from Redis. */
    method DropFromBoth(rid: nat, o: RedactOutcomes) returns (result: Result<(), ()>)
      requires Valid() && rid in now.redactors && now.redactors[rid].Invalidate?
      modifies this
      ensures Valid() && old(taken) <= taken && Own(rid) == old(Own(rid)) + DropSteps(rid, o)
      ensures rid !in now.redactors
      ensures result.Ok? <==> o.connected && o.delete.Answered?
      ensures result.Ok? ==> old(now.redactors[rid]).key !in now.redis && old(now.redactors[rid]).key !in now.dirty
    {
      OthersThanRedact(rid);
      ActAsRedact(rid, DropFromMemory);
      if !o.connected {
        GiveUp(rid);
        return Err(());
      }
      OthersThanRedact(rid);
      ActAsRedact(rid, DeleteFromRedis(o.delete));
      result := if o.delete.Answered? then Ok(()) else Err(());
    }

    method StartRedact(key: Key, memory: bool) returns (rid: nat)
      requires Valid()
      modifies this
      ensures Valid() && old(taken) <= taken && rid == old(now.next) && Own(rid) == old(Own(now.next))
      ensures rid in now.redactors && now.redactors[rid] == WriteDatabase(key, memory)
    {
      rid := now.next;
      Take(BeginRedact(key, memory));
    }

    /** A redact begins with the database. */
    method WriteRow(key: Key, row: Option<Val>, memory: bool, o: RedactOutcomes) returns (rid: nat)
      requires Valid()
      modifies this
      ensures Valid() && old(taken) <= taken && rid == old(now.next)
      ensures Own(rid) == old(Own(now.next)) + [Proceed(rid, Write(row, o.write))]
      ensures if o.write.Answered? then rid in now.redactors && now.redactors[rid] == Invalidate(key, memory)
              else rid !in now.redactors
      ensures !o.write.Rejected? ==> IsRow(now, key, row)
    {
      rid := StartRedact(key, memory);
      OthersThanRedact(rid);
      ActAsRedact(rid, Write(row, o.write));
    }

    /** Write, drop from memory, delete from Redis, in this order; Ok only after all three. */
    method RedactCache(key: Key, row: Option<Val>, memory: bool, o: RedactOutcomes)
      returns (rid: nat, result: Result<(), ()>, ghost wrote: State)
      requires Valid()
      modifies this
      ensures Valid() && old(taken) <= taken && rid == old(now.next)
      ensures Own(rid) == old(Own(now.next)) + RedactSteps(rid, row, o)
      ensures Passed(old(taken), wrote) && (!o.write.Rejected? ==> IsRow(wrote, key, row))
      ensures rid !in now.redactors
      ensures result.Ok? <==> o.write.Answered? && o.connected && o.delete.Answered?
      ensures result.Ok? ==> key !in now.redis && key !in now.dirty
    {
      rid := WriteRow(key, row, memory, o);
      wrote := now;
      ghost var before := taken;
      assert Faithful(0);
      Runs.PassingNow(Next, origin, before, |old(taken)|, wrote);
      if !o.write.Answered? {
        return rid, Err(()), wrote;
      }
      result := DropFromBoth(rid, o);
      Runs.PassedBefore(Next, origin, before, |old(taken)|, wrote, taken, |old(taken)|);
      Runs.Chained(old(Own(now.next)), [Proceed(rid, Write(row, o.write))], DropSteps(rid, o));
    }
  }
}
