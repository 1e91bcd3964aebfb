/** One supervised goroutine kept running, one channel operation at a time: the loop that relaunches
    it, the goroutines it has launched, and the world that asks for restarts and ends the context. */
module Tasks {
  import opened Wrappers
  import opened Sets

  /** How a run ended. A run may itself report a goroutine of its own as leaked. */
  datatype Outcome = Leaked | Other

  datatype Stage = Working | Sending(outcome: Outcome) | Gone(outcome: Outcome)

  /** A goroutine, and the one-slot channel made for it when it was launched. */
  datatype Goroutine = Goroutine(stage: Stage, exit: Option<Outcome>)

  /** Where the loop is; down says the context ended. */
  datatype Phase =
    | Checking
    | Draining
    | Launching
    | Waiting
    | Cancelling(down: bool)
    | Unblocking(down: bool)
    | Awaiting(down: bool)
    | Reporting(outcome: Outcome, down: bool)
    | Sleeping
    | Done

  /** Goroutines are named by the order they were launched in. What the loop has told to stop, has
      unblocked, and has given up on are kept, and how many restarts were asked for, how many of
      those before the last drain, and how many the loop acted on. */
  datatype State = State(phase: Phase, goroutines: seq<Goroutine>, restart: bool, ended: bool,
                         restarts: nat, leaks: nat,
                         told: set<nat>, unblocked: set<nat>, abandoned: set<nat>,
                         requests: nat, drained: nat, stops: nat)

  const START := State(Checking, [], false, false, 0, 0, {}, {}, {}, 0, 0, 0)

  datatype Action =
    | AskRestart
    | EndContext
    | Return(id: nat, outcome: Outcome)
    | Send(id: nat)
    | Check
    | Drain
    | Launch
    | SeeExit
    | SeeRestart
    | SeeEnd
    | Cancel
    | Unblock
    | Timeout
    | Report
    | Wake
    | SleepEnded

  /** The goroutine launched last. */
  function Current(s: State): int {
    |s.goroutines| - 1
  }

  predicate Exited(s: State) {
    |s.goroutines| > 0 && s.goroutines[Current(s)].exit.Some?
  }

  predicate Enabled(s: State, a: Action) {
    match a
    case AskRestart => true
    case EndContext => true
    case Return(id, _) => id < |s.goroutines| && s.goroutines[id].stage == Working
    // A send into the buffer: it waits while the slot is taken.
    case Send(id) => id < |s.goroutines| && s.goroutines[id].stage.Sending? && s.goroutines[id].exit == None
    case Check => s.phase == Checking
    case Drain => s.phase == Draining
    case Launch => s.phase == Launching
    case SeeExit => (s.phase == Waiting || s.phase.Awaiting?) && Exited(s)
    case SeeRestart => s.phase == Waiting && s.restart
    case SeeEnd => s.phase == Waiting && s.ended
    case Cancel => s.phase.Cancelling?
    case Unblock => s.phase.Unblocking?
    case Timeout => s.phase.Awaiting?
    case Report => s.phase.Reporting?
    case Wake => s.phase == Sleeping
    case SleepEnded => s.phase == Sleeping && s.ended
  }

  function Put(s: State, id: nat, g: Goroutine): State
    requires id < |s.goroutines|
  {
    s.(goroutines := s.goroutines[id := g])
  }

  /** What the loop learns from the exit channel. Only a stop counts what it learns as a leak. */
  function TakeExit(s: State): State
    requires Exited(s)
  {
    var g := s.goroutines[Current(s)];
    var taken := Put(s, Current(s), g.(exit := None));
    if s.phase.Awaiting? then
      taken.(phase := Reporting(g.exit.value, s.phase.down),
             leaks := if g.exit.value == Leaked then s.leaks + 1 else s.leaks)
    else taken.(phase := Reporting(g.exit.value, false), told := s.told + {|s.goroutines| - 1})
  }

  function Step(s: State, a: Action): State
    requires Enabled(s, a)
  {
    match a
    case AskRestart => s.(restart := true, requests := s.requests + 1)
    case EndContext => s.(ended := true)
    case Return(id, outcome) => Put(s, id, s.goroutines[id].(stage := Sending(outcome)))
    case Send(id) => Put(s, id, Goroutine(Gone(s.goroutines[id].stage.outcome), Some(s.goroutines[id].stage.outcome)))
    case Check => s.(phase := if s.ended then Done else Draining)
    case Drain =>
      if s.goroutines == [] then s.(phase := Launching)
      else s.(phase := Launching, restart := false, drained := s.requests)
    case Launch => s.(phase := Waiting, goroutines := s.goroutines + [Goroutine(Working, None)])
    case SeeExit => TakeExit(s)
    case SeeRestart => s.(phase := Cancelling(false), restart := false, stops := s.stops + 1)
    case SeeEnd => s.(phase := Cancelling(true))
    case Cancel => s.(phase := Unblocking(s.phase.down), told := s.told + LastOf(s))
    case Unblock => s.(phase := Awaiting(s.phase.down), unblocked := s.unblocked + LastOf(s))
    case Timeout =>
      s.(phase := Reporting(Leaked, s.phase.down), leaks := s.leaks + 1, abandoned := s.abandoned + LastOf(s))
    case Report =>
      if s.phase.down || s.ended then s.(phase := Done) else s.(phase := Sleeping, restarts := s.restarts + 1)
    case Wake => s.(phase := Checking)
    case SleepEnded => s.(phase := Done)
  }

  function LastOf(s: State): set<nat> {
    if s.goroutines == [] then {} else {|s.goroutines| - 1}
  }

  predicate Possible(s: State, actions: seq<Action>)
    decreases |actions|
  {
    actions == [] || (Enabled(s, actions[0]) && Possible(Step(s, actions[0]), actions[1..]))
  }

  function Run(s: State, actions: seq<Action>): State
    requires Possible(s, actions)
    decreases |actions|
  {
    if actions == [] then s else Run(Step(s, actions[0]), actions[1..])
  }

  // ---------- what every interleaving keeps ----------

  /** The loop is looking after its last goroutine. */
  predicate Minding(p: Phase) {
    p == Waiting || p.Cancelling? || p.Unblocking? || p.Awaiting?
  }

  /** Nobody waits for this goroutine: it has returned or it was given up on, and it was told to stop. */
  predicate Settled(s: State, id: nat)
    requires id < |s.goroutines|
  {
    (s.goroutines[id].stage.Gone? || id in s.abandoned) && id in s.told
  }

  /** The slot of a goroutine's own channel is free until the goroutine itself has filled it. */
  predicate SlotFree(g: Goroutine) {
    g.exit.Some? ==> g.stage.Gone?
  }

  predicate Kept(s: State, id: nat)
    requires id < |s.goroutines|
  {
    && SlotFree(s.goroutines[id])
    && (id < Current(s) || !Minding(s.phase) ==> Settled(s, id))
    && (id in s.abandoned ==> id in s.told && id in s.unblocked)
  }

  /** How the loop's place fixes its counters. */
  predicate Counters(s: State) {
    && (Minding(s.phase) || s.phase.Reporting? ==> s.restarts == |s.goroutines| - 1)
    && (s.phase in {Checking, Draining, Launching, Sleeping} ==> s.restarts == |s.goroutines|)
    && |s.goroutines| - 1 <= s.restarts <= |s.goroutines|
  }

  /** What has been done for the goroutine being minded. */
  predicate Minded(s: State) {
    && (s.phase.Unblocking? ==> Current(s) in s.told)
    && (s.phase.Awaiting? ==> Current(s) in s.told && Current(s) in s.unblocked)
    && (Minding(s.phase) ==> |s.goroutines| > 0 && Current(s) !in s.abandoned)
    && (Minding(s.phase) && |s.goroutines| > 0 && s.goroutines[Current(s)].stage.Gone? ==> Exited(s))
  }

  /** Requests: each is acted on at most once, and none from before the last drain is. */
  predicate Answered(s: State) {
    && s.stops + (if s.restart then 1 else 0) <= s.requests
    && s.drained <= s.requests && (s.goroutines == [] ==> s.drained == 0)
    && (s.restart && s.phase in {Launching, Waiting} ==> s.drained < s.requests)
  }

  ghost predicate Invariant(s: State) {
    && Counters(s) && Minded(s) && Answered(s)
    && |s.abandoned| <= s.leaks && (forall id <- s.abandoned :: id < |s.goroutines|)
    && forall id :: 0 <= id < |s.goroutines| ==> Kept(s, id)
  }

  lemma KeptKept(s: State, a: Action, id: nat)
    requires Enabled(s, a) && id < |Step(s, a).goroutines|
    requires Counters(s) && Minded(s)
    requires id < |s.goroutines| ==> Kept(s, id)
    requires forall i <- s.abandoned :: i < |s.goroutines|
    ensures Kept(Step(s, a), id)
  {
  }

  lemma CountersKept(s: State, a: Action)
    requires Counters(s) && Minded(s) && Enabled(s, a)
    ensures Counters(Step(s, a))
  {
  }

  lemma MindedKept(s: State, a: Action)
    requires Minded(s) && Enabled(s, a) && forall id <- s.abandoned :: id < |s.goroutines|
    ensures Minded(Step(s, a))
  {
  }

  lemma AnsweredKept(s: State, a: Action)
    requires Answered(s) && Enabled(s, a)
    ensures Answered(Step(s, a))
  {
  }

  lemma StepGoroutines(s: State, a: Action)
    requires Enabled(s, a)
    ensures |s.goroutines| <= |Step(s, a).goroutines|
    ensures Step(s, a).abandoned == if a.Timeout? then s.abandoned + LastOf(s) else s.abandoned
    ensures Step(s, a).leaks >= s.leaks + if a.Timeout? then 1 else 0
  {
  }

  lemma AbandonedKept(s: State, a: Action)
    requires |s.abandoned| <= s.leaks && (forall id <- s.abandoned :: id < |s.goroutines|) && Enabled(s, a)
    ensures |Step(s, a).abandoned| <= Step(s, a).leaks
    ensures forall id <- Step(s, a).abandoned :: id < |Step(s, a).goroutines|
  {
    StepGoroutines(s, a);
    if s.goroutines != [] {
      Larger(s.abandoned, |s.goroutines| - 1);
    } else {
      assert s.abandoned + {} == s.abandoned;
    }
  }

  lemma StepKeeps(s: State, a: Action)
    requires Invariant(s) && Enabled(s, a)
    ensures Invariant(Step(s, a))
  {
    var s' := Step(s, a);
    CountersKept(s, a);
    MindedKept(s, a);
    AnsweredKept(s, a);
    AbandonedKept(s, a);
    forall id | 0 <= id < |s'.goroutines| ensures Kept(s', id) {
      KeptKept(s, a, id);
    }
  }

  lemma {:induction false} RunKeeps(s: State, actions: seq<Action>)
    requires Invariant(s) && Possible(s, actions)
    ensures Invariant(Run(s, actions))
    decreases |actions|
  {
    if actions != [] {
      StepKeeps(s, actions[0]);
      RunKeeps(Step(s, actions[0]), actions[1..]);
    }
  }

  /** The goroutines that have not returned. */
  function Alive(s: State): set<nat> {
    set id: nat | id < |s.goroutines| && !s.goroutines[id].stage.Gone?
  }

  /** Under every interleaving there is at most one goroutine alive that is not counted as leaked, and
      none once supervision is over. */
  lemma AliveBounded(actions: seq<Action>)
    requires Possible(START, actions)
    ensures
      var s := Run(START, actions);
      && |Alive(s)| <= s.leaks + 1
      && (!Minding(s.phase) ==> |Alive(s)| <= s.leaks)
      && |s.goroutines| - 1 <= s.restarts <= |s.goroutines|
  {
    RunKeeps(START, actions);
    InvariantAlive(Run(START, actions));
  }

  lemma InvariantAlive(s: State)
    requires Invariant(s)
    ensures |Alive(s)| <= s.leaks + 1
    ensures !Minding(s.phase) ==> |Alive(s)| <= s.leaks
  {
    forall id <- Alive(s)
      ensures id in s.abandoned + LastOf(s)
      ensures !Minding(s.phase) ==> id in s.abandoned
    {
      assert Kept(s, id);
    }
    Fewer(Alive(s), s.abandoned + LastOf(s));
    if !Minding(s.phase) { Fewer(Alive(s), s.abandoned); }
  }

  /** How many goroutines can still be launched once the context has ended. */
  function Coming(s: State): nat {
    if s.phase == Draining || s.phase == Launching then 1 else 0
  }

  lemma StepEnds(s: State, a: Action)
    requires s.ended && Enabled(s, a)
    ensures Step(s, a).ended && |Step(s, a).goroutines| + Coming(Step(s, a)) <= |s.goroutines| + Coming(s)
    ensures Step(s, a).restarts == s.restarts
  {
  }

  /** Once the context has ended no goroutine is launched any more, whatever happens, but for one that the loop
      was already about to launch, and no restart is counted. */
  lemma {:induction false} LaunchesEnd(s: State, actions: seq<Action>)
    requires s.ended && Possible(s, actions)
    ensures |Run(s, actions).goroutines| <= |s.goroutines| + Coming(s)
    ensures Run(s, actions).ended && Run(s, actions).restarts == s.restarts
    ensures |Run(s, actions).goroutines| + Coming(Run(s, actions)) <= |s.goroutines| + Coming(s)
    decreases |actions|
  {
    if actions != [] {
      StepEnds(s, actions[0]);
      LaunchesEnd(Step(s, actions[0]), actions[1..]);
    }
  }

  // ---------- what counts as leaked ----------

  /** A goroutine that a stop gave up on, or that reported a leak of its own to the stop that waited for it. */
  predicate Leaky(s: State, id: nat)
    requires id < |s.goroutines|
  {
    id in s.unblocked && (id in s.abandoned || s.goroutines[id] == Goroutine(Gone(Leaked), None))
  }

  function AllLeaky(s: State): set<nat> {
    set id: nat | id < |s.goroutines| && Leaky(s, id)
  }

  /** What waits in a goroutine's slot is how it ended. */
  predicate SameOutcome(g: Goroutine) {
    g.exit.Some? ==> g.stage == Gone(g.exit.value)
  }

  /** Only goroutines that were stopped are unblocked, the last one not before it is. */
  ghost predicate Traced(s: State) {
    && (forall id <- s.unblocked :: id < |s.goroutines|)
    && (s.phase == Waiting || s.phase.Cancelling? || s.phase.Unblocking? ==> Current(s) !in s.unblocked)
    && forall id :: 0 <= id < |s.goroutines| ==> SameOutcome(s.goroutines[id])
  }

  lemma StepTraced(s: State, a: Action)
    requires Traced(s) && Counters(s) && Minded(s) && Enabled(s, a)
    ensures Traced(Step(s, a))
  {
  }

  /** This step finds a leak. */
  predicate Finds(s: State, a: Action) {
    || (a.Timeout? && s.phase.Awaiting?)
    || (a.SeeExit? && s.phase.Awaiting? && Exited(s) && s.goroutines[Current(s)].exit == Some(Leaked))
  }

  function Found(s: State, a: Action): set<nat> {
    if Finds(s, a) then LastOf(s) else {}
  }

  /** Goroutine id is leaky in s' if it was in s or is among those found, and not both. */
  ghost predicate Grows(s: State, s': State, found: set<nat>, id: nat)
    requires id < |s'.goroutines|
  {
    && (Leaky(s', id) <==> (id < |s.goroutines| && Leaky(s, id)) || id in found)
    && !(id in found && id < |s.goroutines| && Leaky(s, id))
  }

  lemma StepLeaky(s: State, a: Action, id: nat)
    requires Invariant(s) && Traced(s) && Enabled(s, a) && id < |Step(s, a).goroutines|
    ensures Grows(s, Step(s, a), Found(s, a), id)
  {
    if id < |s.goroutines| {
      assert SameOutcome(s.goroutines[id]);
      if id == Current(s) {
        LeakyCurrent(s, a);
      } else {
        LeakyElsewhere(s, a, id);
      }
    } else {
      LeakyNew(s, a, id);
    }
  }

  lemma LeakyCurrent(s: State, a: Action)
    requires Minded(s) && Traced(s) && Enabled(s, a) && s.goroutines != [] && SameOutcome(s.goroutines[Current(s)])
    ensures |Step(s, a).goroutines| >= |s.goroutines| && Grows(s, Step(s, a), Found(s, a), Current(s))
  {
  }

  lemma LeakyElsewhere(s: State, a: Action, id: nat)
    requires Enabled(s, a) && id < Current(s)
    requires SameOutcome(s.goroutines[id]) && SlotFree(s.goroutines[id])
    ensures |Step(s, a).goroutines| >= |s.goroutines| && Grows(s, Step(s, a), Found(s, a), id)
  {
  }

  lemma LeakyNew(s: State, a: Action, id: nat)
    requires Traced(s) && Enabled(s, a) && |s.goroutines| <= id < |Step(s, a).goroutines|
    ensures Grows(s, Step(s, a), Found(s, a), id)
  {
  }

  lemma GrowsAll(s: State, s': State, found: set<nat>)
    requires |s.goroutines| <= |s'.goroutines| && forall id <- found :: id < |s'.goroutines|
    requires forall id: nat :: id < |s'.goroutines| ==> Grows(s, s', found, id)
    ensures AllLeaky(s') == AllLeaky(s) + found && AllLeaky(s) !! found
  {
    forall id: nat ensures id in AllLeaky(s') <==> id in AllLeaky(s) + found {
      if id < |s'.goroutines| {
        assert Grows(s, s', found, id);
      }
    }
    forall id: nat | id in found ensures id !in AllLeaky(s) {
      assert Grows(s, s', found, id);
    }
  }

  lemma LeakySets(s: State, a: Action)
    requires Invariant(s) && Traced(s) && Enabled(s, a)
    ensures AllLeaky(Step(s, a)) == AllLeaky(s) + Found(s, a) && AllLeaky(s) !! Found(s, a)
  {
    StepGoroutines(s, a);
    forall id: nat | id < |Step(s, a).goroutines| ensures Grows(s, Step(s, a), Found(s, a), id) {
      StepLeaky(s, a, id);
    }
    GrowsAll(s, Step(s, a), Found(s, a));
  }

  lemma LeaksFound(s: State, a: Action)
    requires Minded(s) && Enabled(s, a)
    ensures Step(s, a).leaks == s.leaks + |Found(s, a)|
  {
  }

  lemma StepLeaks(s: State, a: Action)
    requires Invariant(s) && Traced(s) && Enabled(s, a) && s.leaks == |AllLeaky(s)|
    ensures Step(s, a).leaks == |AllLeaky(Step(s, a))|
  {
    LeakySets(s, a);
    LeaksFound(s, a);
  }

  lemma {:induction false} RunLeaks(s: State, actions: seq<Action>)
    requires Invariant(s) && Traced(s) && s.leaks == |AllLeaky(s)| && Possible(s, actions)
    ensures Traced(Run(s, actions)) && Run(s, actions).leaks == |AllLeaky(Run(s, actions))|
    decreases |actions|
  {
    if actions != [] {
      StepKeeps(s, actions[0]);
      StepTraced(s, actions[0]);
      StepLeaks(s, actions[0]);
      RunLeaks(Step(s, actions[0]), actions[1..]);
    }
  }

  /** Under every interleaving the leaks counted are exactly the goroutines that a stop gave up on and those that
      told the stop that waited for them of a leak, each once: none that stopped in time, and none that ended
      by itself. */
  lemma LeaksExact(actions: seq<Action>)
    requires Possible(START, actions)
    ensures Run(START, actions).leaks == |AllLeaky(Run(START, actions))|
  {
    assert AllLeaky(START) == {};
    RunLeaks(START, actions);
  }

  /** A goroutine is launched only when each one before it has returned or been given up on, and
      given up on only after it was told to stop and unblocked, in that order. */
  lemma LaunchesAfter(actions: seq<Action>, id: nat)
    requires Possible(START, actions)
    requires var s := Run(START, actions); s.phase == Launching && id < |s.goroutines|
    ensures
      var s := Run(START, actions);
      && (s.goroutines[id].stage.Gone? || (id in s.abandoned && id in s.unblocked))
      && id in s.told
  {
    RunKeeps(START, actions);
    assert Kept(Run(START, actions), id);
  }

  /** No goroutine ever waits to send its exit, however late it comes back. */
  lemma SendNeverBlocks(actions: seq<Action>, id: nat)
    requires Possible(START, actions)
    requires var s := Run(START, actions); id < |s.goroutines| && s.goroutines[id].stage.Sending?
    ensures Enabled(Run(START, actions), Send(id))
  {
    RunKeeps(START, actions);
    assert Kept(Run(START, actions), id);
  }

  /** One restart is one restart: the loop stops a goroutine at most once for each request, and never
      for one made before it last cleared them. */
  lemma StopsAnswerRequests(actions: seq<Action>)
    requires Possible(START, actions)
    ensures
      var s := Run(START, actions);
      && s.stops <= s.requests
      && (Enabled(s, SeeRestart) ==> s.drained < s.requests && s.stops < s.requests)
  {
    RunKeeps(START, actions);
  }

  /** Supervision never stops by itself before the context ends: the loop can take a step, or its goroutine can. */
  lemma NeverStuck(actions: seq<Action>) returns (a: Action)
    requires Possible(START, actions) && Run(START, actions).phase != Done
    ensures Enabled(Run(START, actions), a) && !a.AskRestart? && !a.EndContext?
  {
    RunKeeps(START, actions);
    var s := Run(START, actions);
    match s.phase
    case Checking => a := Check;
    case Draining => a := Drain;
    case Launching => a := Launch;
    case Waiting =>
      var id: nat := Current(s);
      assert Kept(s, id);
      a := match s.goroutines[id].stage
        case Working => Return(id, Other)
        case Sending(_) => Send(id)
        case Gone(_) => SeeExit;
    case Cancelling(_) => a := Cancel;
    case Unblocking(_) => a := Unblock;
    case Awaiting(_) => a := Timeout;
    case Reporting(_, _) => a := Report;
    case Sleeping => a := Wake;
  }
}
