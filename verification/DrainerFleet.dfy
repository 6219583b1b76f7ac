/**
  All shards over one Redis keyspace and one database. A session of a shard names only that shard's
  stream key and flag key; because all those keys are distinct, every run of the fleet is, shard by
  shard, a run of that shard alone, and what holds of one shard holds of all of them.
 */
module DrainerFleet {
  import opened Common
  import opened RedisStream
  import opened StreamNames
  import Runs
  import Shard = DrainerShard
  import DrainerNoLoss
  import DrainerExclusion

  datatype Value = Flag(holder: nat) | Stream(entries: seq<Entry>)

  /** What concerns a shard and is not in Redis or the database. */
  datatype Local = Local(
    lastId: nat, sessions: map<nat, Shard.Phase>, nextSession: nat, log: seq<Entry>, journal: seq<Entry>)

  datatype Fleet = Fleet(name: string, redis: map<string, Value>, shards: seq<Local>, db: Shard.Db)

  datatype Step = Step(shard: nat, step: Shard.Step)

  function View(f: Fleet, i: nat): Shard.State
    requires i < |f.shards|
  {
    var key, flag, at := StreamName(f.name, i), FlagName(f.name, i), f.shards[i];
    Shard.State(
      if key in f.redis && f.redis[key].Stream? then f.redis[key].entries else [],
      at.lastId,
      if flag in f.redis && f.redis[flag].Flag? then Some(f.redis[flag].holder) else None,
      at.sessions, at.nextSession, f.db, at.log, at.journal)
  }

  function WriteKeys(f: Fleet, i: nat, s: Shard.State): map<string, Value> {
    var redis := f.redis[StreamName(f.name, i) := Stream(s.stream)];
    if s.flag.Some? then redis[FlagName(f.name, i) := Flag(s.flag.value)] else redis - {FlagName(f.name, i)}
  }

  function Write(f: Fleet, i: nat, s: Shard.State): Fleet
    requires i < |f.shards|
  {
    f.(redis := WriteKeys(f, i, s),
       shards := f.shards[i := Local(s.lastId, s.sessions, s.nextSession, s.log, s.journal)],
       db := s.db)
  }

  function Next(f: Fleet, step: Step): Option<Fleet> {
    if step.shard >= |f.shards| then None else
      match Shard.Next(View(f, step.shard), step.step)
      case None => None
      case Some(s) => Some(Write(f, step.shard, s))
  }

  ghost predicate Initial(f: Fleet) {
    f.redis == map[] && forall i :: 0 <= i < |f.shards| ==>
      f.shards[i].sessions == map[] && f.shards[i].log == [] && f.shards[i].journal == []
  }

  /** A shard sees its own step, and of the other shards' steps only the database. */
  lemma WriteThenView(f: Fleet, i: nat, s: Shard.State, j: nat)
    requires i < |f.shards| && j < |f.shards|
    ensures View(Write(f, i, s), j) == if i == j then s else View(f, j).(db := s.db)
  {
    KeysDistinct(f.name, i, j);
    KeysDistinct(f.name, j, i);
    KeysDistinct(f.name, i, i);
  }

  ghost predicate HolderKeepsFlag(f: Fleet, step: Step) {
    step.shard < |f.shards| ==> DrainerExclusion.HolderKeepsFlag(View(f, step.shard), step.step)
  }

  /** The run of one shard inside a run of the fleet. */
  lemma {:induction false} Project(f: Fleet, steps: seq<Step>, g: Fleet, i: nat) returns (own: seq<Shard.Step>)
    requires Runs.After(Next, f, steps) == Some(g) && i < |f.shards|
    ensures |g.shards| == |f.shards|
    ensures Runs.After(Shard.Next, View(f, i), own) == Some(View(g, i))
    ensures Runs.Obeys(Next, HolderKeepsFlag, f, steps) ==>
      Runs.Obeys(Shard.Next, DrainerExclusion.HolderKeepsFlag, View(f, i), own)
    decreases |steps|
  {
    if steps == [] {
      own := [];
    } else {
      var front, last := steps[..|steps| - 1], steps[|steps| - 1];
      var h := Runs.After(Next, f, front).value;
      var before := Project(f, front, h, i);
      var s := Shard.Next(View(h, last.shard), last.step).value;
      WriteThenView(h, last.shard, s, i);
      var mine := if last.shard == i then last.step else Shard.OtherWriter(s.db);
      Runs.Extend(Shard.Next, View(f, i), before, mine);
      own := before + [mine];
      if Runs.Obeys(Next, HolderKeepsFlag, f, steps) {
        Runs.ExtendObeys(Shard.Next, DrainerExclusion.HolderKeepsFlag, View(f, i), before, mine);
      }
    }
  }

  lemma InitialView(f: Fleet, i: nat)
    requires Initial(f) && i < |f.shards|
    ensures Shard.Initial(View(f, i))
  {
  }

  /** No shard of the fleet loses or reorders anything. */
  lemma NoLossOnAnyShard(f: Fleet, steps: seq<Step>, g: Fleet, i: nat) returns (removed: nat, settled: nat)
    requires Initial(f) && Runs.After(Next, f, steps) == Some(g) && i < |f.shards|
    ensures |g.shards| == |f.shards|
    ensures removed <= settled <= |View(g, i).log|
    ensures View(g, i).stream == View(g, i).log[removed..]
    ensures forall e :: e in View(g, i).journal <==> e in View(g, i).log[..settled]
  {
    InitialView(f, i);
    var own := Project(f, steps, g, i);
    removed, settled := DrainerNoLoss.NoLoss(View(f, i), own, View(g, i));
  }

  /** No shard of the fleet has two live sessions, and each holds its own shard's flag. */
  lemma MutualExclusionOnEveryShard(f: Fleet, steps: seq<Step>, g: Fleet, i: nat, a: nat, b: nat)
    requires Initial(f) && Runs.After(Next, f, steps) == Some(g) && i < |f.shards| == |g.shards|
    requires Runs.Obeys(Next, HolderKeepsFlag, f, steps)
    requires a in g.shards[i].sessions && b in g.shards[i].sessions
    ensures a == b
    ensures FlagName(g.name, i) in g.redis && g.redis[FlagName(g.name, i)] == Flag(a)
  {
    InitialView(f, i);
    var own := Project(f, steps, g, i);
    DrainerExclusion.MutualExclusion(View(f, i), own, View(g, i), a, b);
  }

  /** Runs of the fleet begin with an empty keyspace, any number of shards and any database. */
  lemma EmptyFleetIsInitial(name: string, n: nat, db: Shard.Db)
    ensures Initial(Fleet(name, map[], seq(n, _ => Local(0, map[], 0, [], [])), db))
  {
  }
}
