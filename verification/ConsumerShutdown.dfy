/** The consumer's loop, its operation counter and the workflows it spawns, interleaved. */
module ConsumerShutdown {
  import opened Common
  import Runs

  datatype Loop =
    | AtHead
    | Operating                       // counted; about to fetch a batch
    | Spawning(left: nat)             // workflows of the batch still to spawn
    | Joining                         // awaiting every handle
    | Finishing                       // about to decrement
    | Draining                        // a signal arrived; polling the counter
    | Returned

  datatype State = State(
    loop: Loop,
    counter: nat,
    handles: set<nat>,                // of the current operation
    running: set<nat>,                // workflows that have not ended
    nextWorkflow: nat)

  datatype Step =
    | Tick(disabled: bool)            // no signal
    | Signal
    | Fetch(outcome: Option<nat>)     // `None` when any call of the fetch failed
    | Spawn
    | Join
    | Finish
    | Poll
    | WorkflowEnds(id: nat)           // with or without an error

  function Start(): State {
    State(AtHead, 0, {}, {}, 0)
  }

  function Next(s: State, step: Step): Option<State> {
    match step
    case Tick(disabled) =>
      if s.loop != AtHead then None
      else Some(if disabled then s else s.(loop := Operating, counter := s.counter + 1, handles := {}))
    case Signal => if s.loop != AtHead then None else Some(s.(loop := Draining))
    case Fetch(outcome) =>
      if s.loop != Operating then None
      else Some(s.(loop := if outcome.None? then Finishing else Spawning(outcome.value)))
    case Spawn =>
      if !s.loop.Spawning? then None
      else if s.loop.left == 0 then Some(s.(loop := Joining))
      else Some(s.(loop := Spawning(s.loop.left - 1), handles := s.handles + {s.nextWorkflow},
                   running := s.running + {s.nextWorkflow}, nextWorkflow := s.nextWorkflow + 1))
    case Join => if s.loop == Joining && s.handles !! s.running then Some(s.(loop := Finishing)) else None
    case Finish => if s.loop == Finishing && s.counter > 0 then Some(s.(loop := AtHead, counter := s.counter - 1)) else None
    case Poll =>
      if s.loop != Draining then None else Some(if s.counter == 0 then s.(loop := Returned) else s)
    case WorkflowEnds(id) => if id in s.running then Some(s.(running := s.running - {id})) else None
  }

  /** Workflows run only inside the operation that spawned them, and the counter says whether one is under way. */
  ghost predicate Inv(s: State) {
    && s.running <= s.handles
    && (forall id :: id in s.handles ==> id < s.nextWorkflow)
    && s.counter == (if s.loop.AtHead? || s.loop.Draining? || s.loop.Returned? then 0 else 1)
    && (s.loop.Operating? ==> s.handles == {})
    && (!s.loop.Spawning? && !s.loop.Joining? ==> s.running == {})
  }

  lemma StepKeeps(s: State, step: Step)
    requires Inv(s) && Next(s, step).Some?
    ensures Inv(Next(s, step).value)
  {
  }

  /**
    At every head of the loop no operation is counted and every workflow spawned so far has ended;
    so the first poll after a signal returns, and leaves none running. Decrements never underflow.
   */
  lemma NothingRunsAtTheHead(steps: seq<Step>, t: State)
    requires Runs.After(Next, Start(), steps) == Some(t)
    ensures t.loop.AtHead? || t.loop.Draining? || t.loop.Returned? ==> t.counter == 0 && t.running == {}
    ensures t.loop.Finishing? ==> t.running == {} && Next(t, Finish).Some?
    ensures t.loop.Draining? ==> Next(t, Poll) == Some(t.(loop := Returned))
  {
    assert Runs.Inductive(Next, Runs.Anything, Inv) by {
      forall s, step | Inv(s) && Next(s, step).Some? ensures Inv(Next(s, step).value) {
        StepKeeps(s, step);
      }
    }
    Runs.AnythingGoes(Next, Start(), steps);
    Runs.Invariance(Next, Runs.Anything, Inv, Start(), steps);
  }

  /** A fetched batch of `n` tasks: exactly `n` workflows are spawned, one step each, before the join. */
  lemma {:induction false} SpawnsEachTask(s: State, n: nat) returns (t: State)
    requires s.loop == Spawning(n)
    ensures Runs.After(Next, s, seq(n, _ => Spawn)) == Some(t)
    ensures t.loop == Spawning(0) && t.nextWorkflow == s.nextWorkflow + n
    ensures forall id :: id in t.running <==> id in s.running || s.nextWorkflow <= id < s.nextWorkflow + n
    decreases n
  {
    if n == 0 {
      t := s;
    } else {
      var u := Next(s, Spawn).value;
      t := SpawnsEachTask(u, n - 1);
      assert Runs.After(Next, s, [Spawn]) == Some(u) by {
        assert [Spawn][..0] == [] && Runs.After(Next, s, []) == Some(s);
      }
      Runs.Then(Next, s, [Spawn], u, seq(n - 1, _ => Spawn));
      assert [Spawn] + seq(n - 1, _ => Spawn) == seq(n, _ => Spawn);
    }
  }

  lemma FetchSpawnsAll(s: State, n: nat) returns (t: State)
    requires s.loop == Operating
    ensures Next(s, Fetch(Some(n))).Some? && Runs.After(Next, Next(s, Fetch(Some(n))).value, seq(n, _ => Spawn)) == Some(t)
    ensures t.loop == Spawning(0) && t.nextWorkflow == s.nextWorkflow + n
    ensures Next(t, Spawn) == Some(t.(loop := Joining))
  {
    t := SpawnsEachTask(Next(s, Fetch(Some(n))).value, n);
  }
}
