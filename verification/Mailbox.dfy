/** The newest-value mailbox between a socket's read loop and a stream's goroutine, one critical
    section or channel operation at a time, with any number of goroutines on either side. */
module Mailbox {
  import opened Wrappers
  import opened Sets

  /** A message, and its position among everything delivered. */
  datatype Entry<M> = Entry(at: int, message: M)

  /** The slot and the one-token channel; who has stored and not yet signalled; who has received the
      token and not yet taken; who holds a message and has not yet published it; and the history. */
  datatype State<M> = State(pending: Option<M>, wake: bool,
                            sending: set<nat>, taking: set<nat>, holding: map<nat, Entry<M>>,
                            delivered: seq<M>, taken: seq<Entry<M>>, published: seq<Entry<M>>)

  datatype Action<M> =
    | Store(id: nat, message: M)
    | Send(id: nat)
    | Receive(id: nat)
    | Take(id: nat)
    | Publish(id: nat)

  function Initial<M>(): State<M> {
    State(None, false, {}, {}, map[], [], [], [])
  }

  predicate Enabled<M>(s: State<M>, a: Action<M>) {
    match a
    case Store(id, _) => id !in s.sending
    case Send(id) => id in s.sending
    case Receive(id) => s.wake && id !in s.taking && id !in s.holding
    case Take(id) => id in s.taking
    case Publish(id) => id in s.holding
  }

  /** Sending never blocks: a token already there stands for this message too. Taking finds nothing
      when another consumer came first. */
  function Step<M>(s: State<M>, a: Action<M>): State<M>
    requires Enabled(s, a)
  {
    match a
    case Store(id, m) => s.(pending := Some(m), sending := s.sending + {id}, delivered := s.delivered + [m])
    case Send(id) => s.(wake := true, sending := s.sending - {id})
    case Receive(id) => s.(wake := false, taking := s.taking + {id})
    case Take(id) =>
      var idle := s.(pending := None, taking := s.taking - {id});
      if s.pending.None? then idle
      else
        var e := Entry(|s.delivered| - 1, s.pending.value);
        idle.(holding := s.holding[id := e], taken := s.taken + [e])
    case Publish(id) => s.(holding := s.holding - {id}, published := s.published + [s.holding[id]])
  }

  predicate Possible<M>(s: State<M>, actions: seq<Action<M>>)
    decreases |actions|
  {
    actions == [] || (Enabled(s, actions[0]) && Possible(Step(s, actions[0]), actions[1..]))
  }

  function Run<M>(s: State<M>, actions: seq<Action<M>>): State<M>
    requires Possible(s, actions)
    decreases |actions|
  {
    if actions == [] then s else Run(Step(s, actions[0]), actions[1..])
  }

  // ---------- no lost wakeup ----------

  /** A message waiting is one somebody is about to see. */
  predicate Noticed<M>(s: State<M>) {
    s.pending.Some? ==> s.wake || s.sending != {} || s.taking != {}
  }

  /** What is pending is the newest delivered; with nothing pending the newest has been taken. */
  ghost predicate NewestPending<M>(s: State<M>) {
    if s.delivered == [] then s.pending == None && s.taken == []
    else
      var last := |s.delivered| - 1;
      if s.pending.Some?
      then s.pending.value == s.delivered[last] && (s.taken != [] ==> s.taken[|s.taken| - 1].at < last)
      else s.taken != [] && s.taken[|s.taken| - 1].at == last
  }

  predicate Ascending<M>(entries: seq<Entry<M>>) {
    forall i, j :: 0 <= i < j < |entries| ==> entries[i].at < entries[j].at
  }

  ghost predicate From<M>(entries: seq<Entry<M>>, delivered: seq<M>) {
    forall e <- entries :: 0 <= e.at < |delivered| && delivered[e.at] == e.message
  }

  ghost predicate Invariant<M>(s: State<M>) {
    Noticed(s) && NewestPending(s) && Ascending(s.taken) && From(s.taken, s.delivered)
  }

  lemma AscendingThen<M>(entries: seq<Entry<M>>, e: Entry<M>)
    requires Ascending(entries) && (entries != [] ==> entries[|entries| - 1].at < e.at)
    ensures Ascending(entries + [e])
  {
  }

  lemma FromLonger<M>(entries: seq<Entry<M>>, delivered: seq<M>, m: M)
    requires From(entries, delivered)
    ensures From(entries, delivered + [m])
  {
  }

  lemma StepKeeps<M>(s: State<M>, a: Action<M>)
    requires Invariant(s) && Enabled(s, a)
    ensures Invariant(Step(s, a))
  {
    if a.Store? {
      FromLonger(s.taken, s.delivered, a.message);
      assert a.id in Step(s, a).sending;
    } else if a.Receive? {
      assert a.id in Step(s, a).taking;
    } else if a.Take? && s.pending.Some? {
      AscendingThen(s.taken, Entry(|s.delivered| - 1, s.pending.value));
    }
  }

  lemma {:induction false} RunKeeps<M>(s: State<M>, actions: seq<Action<M>>)
    requires Invariant(s) && Possible(s, actions)
    ensures Invariant(Run(s, actions))
    decreases |actions|
  {
    if actions != [] {
      StepKeeps(s, actions[0]);
      RunKeeps(Step(s, actions[0]), actions[1..]);
    }
  }

  /** Under every interleaving what is taken is a subsequence of what was delivered, in that order. */
  lemma TakenInOrder<M>(actions: seq<Action<M>>)
    requires Possible(Initial<M>(), actions)
    ensures
      var s := Run(Initial<M>(), actions);
      Ascending(s.taken) && From(s.taken, s.delivered)
  {
    RunKeeps(Initial<M>(), actions);
  }

  /** A consumer that takes a message takes the newest there is. */
  lemma TakesNewest<M>(actions: seq<Action<M>>, id: nat)
    requires Possible(Initial<M>(), actions)
    requires Enabled(Run(Initial<M>(), actions), Take(id)) && Run(Initial<M>(), actions).pending.Some?
    ensures
      var s := Run(Initial<M>(), actions);
      s.delivered != [] && Step(s, Take(id)).taken
        == s.taken + [Entry(|s.delivered| - 1, s.delivered[|s.delivered| - 1])]
  {
    RunKeeps(Initial<M>(), actions);
  }

  /** Nobody is in the middle of anything, and there is no token left to receive. */
  predicate Quiet<M>(s: State<M>) {
    !s.wake && s.sending == {} && s.taking == {}
  }

  /** No wakeup is ever lost: when everyone has come to rest, the newest message has been taken. */
  lemma QuietHasTaken<M>(actions: seq<Action<M>>)
    requires Possible(Initial<M>(), actions) && Quiet(Run(Initial<M>(), actions))
    ensures
      var s := Run(Initial<M>(), actions);
      && s.pending == None
      && (s.delivered != [] ==> s.taken != [] && s.taken[|s.taken| - 1].at == |s.delivered| - 1)
  {
    RunKeeps(Initial<M>(), actions);
  }

  // ---------- coming to rest ----------

  /** Steps still to come if nothing more is delivered. */
  function Work<M>(s: State<M>): nat {
    4 * |s.sending| + (if s.wake then 3 else 0) + 2 * |s.taking| + |s.holding.Keys|
  }

  lemma OneKeyMore<K, V>(m: map<K, V>, k: K, v: V)
    ensures |m[k := v].Keys| <= |m.Keys| + 1
  {
    assert m[k := v].Keys == m.Keys + {k};
  }

  lemma StepWorks<M>(s: State<M>, a: Action<M>)
    requires Enabled(s, a) && !a.Store?
    ensures Work(Step(s, a)) < Work(s)
  {
    match a
    case Send(id) => Smaller(s.sending, id);
    case Receive(id) =>
    case Take(id) =>
      Smaller(s.taking, id);
      if s.pending.Some? { OneKeyMore(s.holding, id, Entry(|s.delivered| - 1, s.pending.value)); }
    case Publish(id) =>
      Smaller(s.holding.Keys, id);
      assert (s.holding - {id}).Keys == s.holding.Keys - {id};
  }

  /** Once deliveries stop, every schedule comes to rest within a bounded number of steps, and while
      work is left some goroutine can take a step. */
  lemma {:induction false} ComesToRest<M>(s: State<M>, actions: seq<Action<M>>)
    requires Possible(s, actions) && forall a <- actions :: !a.Store?
    ensures |actions| + Work(Run(s, actions)) <= Work(s)
    decreases |actions|
  {
    if actions != [] {
      StepWorks(s, actions[0]);
      ComesToRest(Step(s, actions[0]), actions[1..]);
    }
  }

  lemma NeverStuck<M>(s: State<M>, consumer: nat) returns (a: Action<M>)
    requires !Quiet(s) && consumer !in s.holding
    ensures Enabled(s, a) && !a.Store?
  {
    if s.sending != {} {
      var id :| id in s.sending;
      a := Send(id);
    } else if s.taking != {} {
      var id :| id in s.taking;
      a := Take(id);
    } else {
      a := Receive(consumer);
    }
  }

  // ---------- what is published ----------

  /** Every step a consumer takes is taken by this one. */
  ghost predicate OneConsumer<M>(actions: seq<Action<M>>, consumer: nat) {
    forall a <- actions :: a.Store? || a.Send? || a.id == consumer
  }

  /** What is published and what is held, in order, is what was taken. */
  ghost predicate InOrder<M>(s: State<M>, consumer: nat) {
    && s.taking <= {consumer} && s.holding.Keys <= {consumer} && (s.taking == {} || s.holding == map[])
    && s.taken == s.published + if consumer in s.holding then [s.holding[consumer]] else []
  }

  lemma StepInOrder<M>(s: State<M>, a: Action<M>, consumer: nat)
    requires InOrder(s, consumer) && Enabled(s, a) && (a.Store? || a.Send? || a.id == consumer)
    ensures InOrder(Step(s, a), consumer)
  {
  }

  lemma {:induction false} RunInOrder<M>(s: State<M>, actions: seq<Action<M>>, consumer: nat)
    requires InOrder(s, consumer) && Possible(s, actions) && OneConsumer(actions, consumer)
    ensures InOrder(Run(s, actions), consumer)
    decreases |actions|
  {
    if actions != [] {
      StepInOrder(s, actions[0], consumer);
      RunInOrder(Step(s, actions[0]), actions[1..], consumer);
    }
  }

  /** With one goroutine on the stream, no price is ever published after a newer one. */
  lemma PublishedInOrder<M>(actions: seq<Action<M>>, consumer: nat)
    requires Possible(Initial<M>(), actions) && OneConsumer(actions, consumer)
    ensures
      var s := Run(Initial<M>(), actions);
      Ascending(s.published) && From(s.published, s.delivered)
  {
    RunKeeps(Initial<M>(), actions);
    RunInOrder(Initial<M>(), actions, consumer);
    var s := Run(Initial<M>(), actions);
    assert forall i :: 0 <= i < |s.published| ==> s.published[i] == s.taken[i];
    assert forall e <- s.published :: e in s.taken;
  }

  /** A leaked goroutine takes a message and holds on to it. */
  function Holds<M>(older: M, leaked: nat): seq<Action<M>> {
    [Store(0, older), Send(0), Receive(leaked), Take(leaked)]
  }

  /** The one that replaces it takes and publishes the next message, and then the leaked one wakes up. */
  function Overtakes<M>(newer: M, leaked: nat, fresher: nat): seq<Action<M>> {
    [Store(0, newer), Send(0), Receive(fresher), Take(fresher), Publish(fresher), Publish(leaked)]
  }

  lemma HoldsRun<M>(older: M, leaked: nat)
    ensures
      var s, e := Initial<M>(), Entry(0, older);
      Possible(s, Holds(older, leaked)) && Run(s, Holds(older, leaked))
        == s.(holding := map[leaked := e], delivered := [older], taken := [e])
  {
    var s0 := Initial<M>();
    var s1 := Step(s0, Store(0, older));
    var s2 := Step(s1, Send(0));
    var s3 := Step(s2, Receive(leaked));
    RunNext(s3, Take(leaked), []);
    RunNext(s2, Receive(leaked), [Take(leaked)]);
    RunNext(s1, Send(0), [Receive(leaked), Take(leaked)]);
    RunNext(s0, Store(0, older), [Send(0), Receive(leaked), Take(leaked)]);
  }

  lemma OvertakesRun<M>(s: State<M>, newer: M, leaked: nat, fresher: nat)
    requires s.sending == s.taking == {} && !s.wake && s.holding.Keys == {leaked} && leaked != fresher
    ensures Possible(s, Overtakes(newer, leaked, fresher)) && Run(s, Overtakes(newer, leaked, fresher)).published
         == s.published + [Entry(|s.delivered|, newer), s.holding[leaked]]
  {
    var s1 := Step(s, Store(0, newer));
    var s2 := Step(s1, Send(0));
    var s3 := Step(s2, Receive(fresher));
    var s4 := Step(s3, Take(fresher));
    var s5 := Step(s4, Publish(fresher));
    RunNext(s5, Publish(leaked), []);
    RunNext(s4, Publish(fresher), [Publish(leaked)]);
    RunNext(s3, Take(fresher), [Publish(fresher), Publish(leaked)]);
    RunNext(s2, Receive(fresher), [Take(fresher), Publish(fresher), Publish(leaked)]);
    RunNext(s1, Send(0), [Receive(fresher), Take(fresher), Publish(fresher), Publish(leaked)]);
    RunNext(s, Store(0, newer), [Send(0), Receive(fresher), Take(fresher), Publish(fresher), Publish(leaked)]);
  }

  /** With a leaked goroutine beside any other it can happen: the leaked one still holds the older. */
  lemma LeakedPublishesLate<M>(older: M, newer: M, leaked: nat, fresher: nat)
    requires leaked != fresher
    ensures
      var actions := Holds(older, leaked) + Overtakes(newer, leaked, fresher);
      Possible(Initial<M>(), actions)
      && Run(Initial<M>(), actions).published == [Entry(1, newer), Entry(0, older)]
  {
    HoldsRun(older, leaked);
    OvertakesRun(Run(Initial<M>(), Holds(older, leaked)), newer, leaked, fresher);
    RunConcat(Initial<M>(), Holds(older, leaked), Overtakes(newer, leaked, fresher));
  }

  /** Every step a consumer takes is taken by one of these. */
  ghost predicate ByConsumers<M>(actions: seq<Action<M>>, consumers: set<nat>) {
    forall a <- actions :: a.Store? || a.Send? || a.id in consumers
  }

  /** Some goroutines always publish in order, whatever the schedule, exactly when there is at most one. */
  lemma PublishedInOrderExact<M>(consumers: set<nat>, older: M, newer: M)
    ensures (forall actions: seq<Action<M>> :: Possible(Initial<M>(), actions) && ByConsumers(actions, consumers) ==>
              Ascending(Run(Initial<M>(), actions).published))
       <==> |consumers| <= 1
  {
    if |consumers| <= 1 {
      var consumer := OnlyOne(consumers);
      forall actions: seq<Action<M>> | Possible(Initial<M>(), actions) && ByConsumers(actions, consumers)
        ensures Ascending(Run(Initial<M>(), actions).published)
      {
        PublishedInOrder(actions, consumer);
      }
    } else {
      var a, b := TwoOf(consumers);
      LeakedPublishesLate(older, newer, a, b);
      var actions := Holds(older, a) + Overtakes(newer, a, b);
      assert ByConsumers(actions, consumers);
      var published := Run(Initial<M>(), actions).published;
      assert published[0].at > published[1].at;
    }
  }

  lemma OnlyOne(ids: set<nat>) returns (id: nat)
    requires |ids| <= 1
    ensures ids <= {id}
  {
    id := 0;
    if ids != {} {
      id :| id in ids;
      Smaller(ids, id);
      assert ids - {id} == {};
    }
  }

  lemma TwoOf(ids: set<nat>) returns (a: nat, b: nat)
    requires |ids| >= 2
    ensures a in ids && b in ids && a != b
  {
    a :| a in ids;
    Smaller(ids, a);
    b :| b in ids - {a};
  }

  lemma RunNext<M>(s: State<M>, a: Action<M>, rest: seq<Action<M>>)
    requires Enabled(s, a) && Possible(Step(s, a), rest)
    ensures Possible(s, [a] + rest) && Run(s, [a] + rest) == Run(Step(s, a), rest)
  {
    assert ([a] + rest)[1..] == rest;
  }

  lemma {:induction false} RunConcat<M>(s: State<M>, first: seq<Action<M>>, rest: seq<Action<M>>)
    requires Possible(s, first) && Possible(Run(s, first), rest)
    ensures Possible(s, first + rest) && Run(s, first + rest) == Run(Run(s, first), rest)
    decreases |first|
  {
    if first == [] {
      assert first + rest == rest;
    } else {
      RunConcat(Step(s, first[0]), first[1..], rest);
      RunNext(s, first[0], first[1..] + rest);
      assert [first[0]] + (first[1..] + rest) == first + rest;
    }
  }

  // ---------- the runner's fields ----------

  /** The mailbox part of a stream's runner, as one goroutine runs it from end to end. */
  class StreamRunner<M(==)> {
    var pending: Option<M>
    var wake: bool

    ghost predicate Shows(s: State<M>)
      reads this
    {
      s.pending == pending && s.wake == wake
    }

    constructor ()
      ensures Shows(Initial<M>())
    {
      pending, wake := None, false;
    }

    /** Delivers without blocking: the newest message replaces one not yet taken. */
    method Deliver(message: M, ghost s: State<M>, ghost id: nat)
      requires Shows(s) && id !in s.sending
      modifies this
      ensures Shows(Step(Step(s, Store(id, message)), Send(id)))
    {
      pending := Some(message);
      if !wake {
        wake := true;
      }
    }

    /** Receives the token, if there is one, and takes what it stands for. */
    method ReceiveAndTake(ghost s: State<M>, ghost id: nat) returns (message: Option<M>)
      requires Shows(s) && id !in s.taking && id !in s.holding
      modifies this
      ensures message == if s.wake then s.pending else None
      ensures Shows(if s.wake then Step(Step(s, Receive(id)), Action.Take(id)) else s)
    {
      if !wake {
        return None;
      }
      wake := false;
      message := Take();
    }

    method Take() returns (message: Option<M>)
      modifies this`pending
      ensures message == old(pending) && pending == None
    {
      message := pending;
      pending := None;
    }
  }
}
