/** The drainer's shutdown: the spawn loop, the handlers' task counter and the listener, interleaved. */
module DrainerShutdown {
  import opened Common
  import Runs

  const U64_RANGE := 0x1_0000_0000_0000_0000

  datatype Loop = AtHead | InBody | Returned

  datatype Listener = Receiving | Polling | Closing

  datatype State = State(
    running: bool,
    loop: Loop,
    listener: Listener,
    active: nat,             // the atomic counter
    spawned: nat,            // handlers started but not yet counted
    inside: nat,             // handlers between their increment and their decrement
    startedAfterClose: nat)  // history

  datatype Step =
    | Check                      // the loop reads `running`
    | Body(available: bool)      // one iteration, starting a handler if the flag was free
    | Enter                      // a handler increments the counter
    | Leave                      // a handler decrements it
    | Receive                    // the listener gets a shutdown signal
    | Poll                       // it reads the counter, and goes on to close on zero
    | Close

  function Start(): State {
    State(true, AtHead, Receiving, 0, 0, 0, 0)
  }

  /** Atomic addition and subtraction wrap around. */
  function Increment(x: nat): nat {
    if x + 1 == U64_RANGE then 0 else x + 1
  }

  function Decrement(x: nat): nat {
    if x == 0 then U64_RANGE - 1 else x - 1
  }

  function Next(s: State, step: Step): Option<State> {
    match step
    case Check =>
      if s.loop != AtHead then None else Some(s.(loop := if s.running then InBody else Returned))
    case Body(available) =>
      if s.loop != InBody then None
      else if !available then Some(s.(loop := AtHead))
      else Some(s.(loop := AtHead, spawned := s.spawned + 1,
                   startedAfterClose := s.startedAfterClose + if s.running then 0 else 1))
    case Enter =>
      if s.spawned == 0 then None
      else Some(s.(spawned := s.spawned - 1, inside := s.inside + 1, active := Increment(s.active)))
    case Leave =>
      if s.inside == 0 then None
      else Some(s.(inside := s.inside - 1, active := Decrement(s.active)))
    case Receive => if s.listener != Receiving then None else Some(s.(listener := Polling))
    case Poll =>
      if s.listener != Polling then None else Some(if s.active == 0 then s.(listener := Closing) else s)
    case Close => if s.listener != Closing then None else Some(s.(running := false, listener := Receiving))
  }

  /** Fewer handlers are alive at once than the counter can count. */
  ghost predicate Countable(s: State, step: Step) {
    s.inside + 1 < U64_RANGE
  }

  ghost predicate Inv(s: State) {
    && s.active == s.inside
    && (s.running ==> s.startedAfterClose == 0 && s.loop != Returned)
    && (!s.running ==> s.startedAfterClose <= 1)
    && (!s.running && s.loop == InBody ==> s.startedAfterClose == 0)
  }

  lemma StepKeeps(s: State, step: Step)
    requires Inv(s) && Countable(s, step) && Next(s, step).Some?
    ensures Inv(Next(s, step).value)
  {
  }

  lemma EveryRunKeepsInv(steps: seq<Step>, t: State)
    requires Runs.After(Next, Start(), steps) == Some(t)
    requires Runs.Obeys(Next, Countable, Start(), steps)
    ensures Inv(t)
  {
    assert Runs.Inductive(Next, Countable, Inv) by {
      forall s, step | Inv(s) && Countable(s, step) && Next(s, step).Some? ensures Inv(Next(s, step).value) {
        StepKeeps(s, step);
      }
    }
    Runs.Invariance(Next, Countable, Inv, Start(), steps);
  }

  /**
    In every interleaving the counter is the number of handler bodies under way, no decrement finds
    it at zero, and at most one session starts after the handler was closed.
   */
  lemma CounterAndClose(steps: seq<Step>, t: State)
    requires Runs.After(Next, Start(), steps) == Some(t)
    requires Runs.Obeys(Next, Countable, Start(), steps)
    ensures t.active == t.inside
    ensures Next(t, Leave).Some? ==> t.active > 0 && Next(t, Leave).value.active == t.active - 1
    ensures t.startedAfterClose <= 1
  {
    EveryRunKeepsInv(steps, t);
  }

  // ---- When a close leaves nobody alive --------------------------------------------------------

  predicate Alive(s: State) {
    s.spawned > 0 || s.inside > 0
  }

  /** Nobody is alive, now or ever after. */
  ghost predicate QuietForGood(s: State) {
    forall steps :: Runs.After(Next, s, steps).Some? ==> !Alive(Runs.After(Next, s, steps).value)
  }

  ghost predicate Stopped(s: State) {
    !s.running && !Alive(s) && s.loop != InBody
  }

  lemma StoppedStaysQuiet(s: State)
    requires Stopped(s)
    ensures QuietForGood(s)
  {
    forall steps | Runs.After(Next, s, steps).Some? ensures !Alive(Runs.After(Next, s, steps).value) {
      assert Runs.Inductive(Next, Runs.Anything, Stopped);
      Runs.AnythingGoes(Next, s, steps);
      Runs.Invariance(Next, Runs.Anything, Stopped, s, steps);
    }
  }

  lemma UnlessOneIsOnItsWay(s: State)
    requires QuietForGood(s)
    ensures !Alive(s) && s.loop != InBody
  {
    assert Runs.After(Next, s, []) == Some(s);
    if s.loop == InBody {
      var steps, t := Runs.Take(Next, s, [], s, Body(true));
      assert Alive(t);
    }
  }

  /**
    When the listener closes, in any run, the drainer is quiet for good if and only if the counter is
    still at zero, no handler waits to be counted, and the spawn loop is not inside an iteration.
   */
  lemma CloseIsFinalIff(steps: seq<Step>, t: State)
    requires Runs.After(Next, Start(), steps) == Some(t)
    requires Runs.Obeys(Next, Countable, Start(), steps)
    requires t.listener == Closing
    ensures QuietForGood(Next(t, Close).value) <==> t.active == 0 && t.spawned == 0 && t.loop != InBody
  {
    EveryRunKeepsInv(steps, t);
    var closed := Next(t, Close).value;
    if t.active == 0 && t.spawned == 0 && t.loop != InBody {
      StoppedStaysQuiet(closed);
    } else if QuietForGood(closed) {
      UnlessOneIsOnItsWay(closed);
    }
  }

  /** Zero active tasks is not zero sessions: a handler not yet counted survives the close. */
  lemma CloseCanMissASpawnedHandler() returns (steps: seq<Step>, t: State)
    ensures Runs.After(Next, Start(), steps) == Some(t)
    ensures !t.running && t.active == 0 && t.spawned == 1
  {
    steps, t := Runs.Take(Next, Start(), [], Start(), Check);
    steps, t := Runs.Take(Next, Start(), steps, t, Body(true));
    steps, t := Runs.Take(Next, Start(), steps, t, Receive);
    steps, t := Runs.Take(Next, Start(), steps, t, Poll);
    steps, t := Runs.Take(Next, Start(), steps, t, Close);
  }

  // ---- What the listener waits for, and the history ----------------------------------------------

  /** The listener goes on to close only from a state in which it read zero. */
  lemma {:induction false} ClosesOnlyAfterZero(steps: seq<Step>, t: State) returns (u: State)
    requires Runs.After(Next, Start(), steps) == Some(t) && t.listener == Closing
    ensures Runs.Passed(Next, Start(), steps, 0, u) && u.listener == Polling && u.active == 0
    decreases |steps|
  {
    if steps == [] {
      assert false;
    } else {
      var front := steps[..|steps| - 1];
      u := Runs.After(Next, Start(), front).value;
      if u.listener == Closing {
        var v := ClosesOnlyAfterZero(front, u);
        Runs.PassedBefore(Next, Start(), front, 0, v, steps, 0);
        u := v;
      } else {
        Runs.PassingNow(Next, Start(), front, 0, u);
        Runs.PassedBefore(Next, Start(), front, 0, u, steps, 0);
      }
    }
  }

  /** Sessions started once the handler was closed. */
  ghost function LateStarts(steps: seq<Step>): nat {
    if steps == [] then 0 else
      var front := steps[..|steps| - 1];
      LateStarts(front) +
        match Runs.After(Next, Start(), front)
        case None => 0
        case Some(u) => if steps[|steps| - 1] == Body(true) && !u.running then 1 else 0
  }

  lemma {:induction false} LateStartsRecorded(steps: seq<Step>, t: State)
    requires Runs.After(Next, Start(), steps) == Some(t)
    ensures t.startedAfterClose == LateStarts(steps)
    decreases |steps|
  {
    if steps != [] {
      LateStartsRecorded(steps[..|steps| - 1], Runs.After(Next, Start(), steps[..|steps| - 1]).value);
    }
  }

  /** At most one iteration of any run starts a session after the close. */
  lemma AtMostOneLateStart(steps: seq<Step>, t: State)
    requires Runs.After(Next, Start(), steps) == Some(t)
    requires Runs.Obeys(Next, Countable, Start(), steps)
    ensures LateStarts(steps) <= 1
  {
    CounterAndClose(steps, t);
    LateStartsRecorded(steps, t);
  }
}
