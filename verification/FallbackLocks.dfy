/** The watcher one critical section at a time, with any number of goroutines interleaved: what still
    holds when an expiry, a message and a poll can overlap. */
module FallbackLocks {
  import opened Core
  import opened Sets

  /** Where a poller is in its poll: left counts the messages it has yet to write. */
  datatype Stage = Waiting | Fetching | Asking(left: nat) | Writing(left: nat)

  /** A poller, and how many messages it has written since it stopped owning its stream. */
  datatype Poller = Poller(sp: StreamSpec, stage: Stage, lateWrites: nat)

  /** Pollers are named by their position; every one ever started is kept. Escalations and clearing
      messages are counted per stream. */
  datatype State = State(active: map<StreamSpec, nat>, expired: set<StreamSpec>, pollers: seq<Poller>,
                         escalations: multiset<StreamSpec>, clears: multiset<StreamSpec>)

  const IDLE := State(map[], {}, [], multiset{}, multiset{})

  datatype Action =
    | MarkExpired(sp: StreamSpec)
    | Engage(sp: StreamSpec)
    | Note(sp: StreamSpec)
    | Begin(id: nat)
    | Fetch(id: nat, messages: nat)
    | Ask(id: nat)
    | Write(id: nat, accepted: bool)

  predicate Owns(s: State, id: nat)
    requires id < |s.pollers|
  {
    var sp := s.pollers[id].sp;
    sp in s.active && s.active[sp] == id
  }

  /** Whether a goroutine can take this step. A stopped poller may still begin a poll: a tick and the
      stop signal can be ready together. */
  predicate Enabled(s: State, a: Action) {
    match a
    case Begin(id) => id < |s.pollers| && s.pollers[id].stage == Waiting
    case Fetch(id, _) => id < |s.pollers| && s.pollers[id].stage == Fetching
    case Ask(id) => id < |s.pollers| && s.pollers[id].stage.Asking?
    case Write(id, _) => id < |s.pollers| && s.pollers[id].stage.Writing?
    case _ => true
  }

  function Put(s: State, id: nat, stage: Stage): State
    requires id < |s.pollers|
  {
    s.(pollers := s.pollers[id := s.pollers[id].(stage := stage)])
  }

  function Asks(left: nat): Stage {
    if left == 0 then Waiting else Asking(left)
  }

  /** One step; one that nobody can take changes nothing. */
  function Step(cap: nat, s: State, a: Action): State {
    if !Enabled(s, a) then s else Take(cap, s, a)
  }

  function Take(cap: nat, s: State, a: Action): State
    requires Enabled(s, a)
  {
    match a
    case MarkExpired(sp) =>
      if sp in s.expired then s
      else s.(expired := s.expired + {sp}, escalations := s.escalations + multiset{sp})
    case Engage(sp) =>
      if sp in s.active || |s.active| >= cap then s
      else s.(active := s.active[sp := |s.pollers|], pollers := s.pollers + [Poller(sp, Waiting, 0)])
    case Note(sp) =>
      s.(active := s.active - {sp}, expired := s.expired - {sp},
         clears := if sp in s.expired then s.clears + multiset{sp} else s.clears)
    case Begin(id) => Put(s, id, Fetching)
    case Fetch(id, messages) => Put(s, id, Asks(messages))
    case Ask(id) => Put(s, id, if Owns(s, id) then Writing(s.pollers[id].stage.left) else Waiting)
    case Write(id, accepted) =>
      var p := s.pollers[id];
      var late := if Owns(s, id) then p.lateWrites else p.lateWrites + 1;
      var next := if accepted && p.stage.left > 0 then Asks(p.stage.left - 1) else Waiting;
      s.(pollers := s.pollers[id := Poller(p.sp, next, late)])
  }

  function After(cap: nat, actions: seq<Action>, n: nat): State
    requires n <= |actions|
  {
    if n == 0 then IDLE else Step(cap, After(cap, actions, n - 1), actions[n - 1])
  }

  // ---------- what every interleaving keeps ----------

  /** Each stream has been escalated once for every outage it is in or has come back from. */
  predicate Counted(s: State, sp: StreamSpec) {
    s.escalations[sp] == s.clears[sp] + if sp in s.expired then 1 else 0
  }

  predicate Registered(s: State, sp: StreamSpec)
    requires sp in s.active
  {
    s.active[sp] < |s.pollers| && s.pollers[s.active[sp]].sp == sp
  }

  /** A poller is late at most once: after it has lost its stream it writes only what it had already
      been cleared to write. */
  predicate LateOnce(s: State, id: nat)
    requires id < |s.pollers|
  {
    var p := s.pollers[id];
    && p.lateWrites <= 1
    && (Owns(s, id) ==> p.lateWrites == 0)
    && (p.lateWrites == 1 ==> !p.stage.Writing?)
  }

  ghost predicate Invariant(cap: nat, s: State) {
    && |s.active| <= cap
    && (forall sp <- s.active :: Registered(s, sp))
    && (forall sp :: Counted(s, sp))
    && (forall id :: 0 <= id < |s.pollers| ==> LateOnce(s, id))
  }

  lemma CapKept(cap: nat, s: State, a: Action)
    requires |s.active| <= cap
    ensures |Step(cap, s, a).active| <= cap
  {
    if a.Note? {
      assert (s.active - {a.sp}).Keys == s.active.Keys - {a.sp};
      Smaller(s.active.Keys, a.sp);
      assert |s.active.Keys| == |s.active| && |(s.active - {a.sp}).Keys| == |s.active - {a.sp}|;
    }
  }

  lemma CountKept(cap: nat, s: State, a: Action, sp: StreamSpec)
    requires Counted(s, sp)
    ensures Counted(Step(cap, s, a), sp)
  {
  }

  lemma RegisteredKept(cap: nat, s: State, a: Action, sp: StreamSpec)
    requires sp in Step(cap, s, a).active
    requires sp in s.active ==> Registered(s, sp)
    ensures Registered(Step(cap, s, a), sp)
  {
  }

  lemma LateKept(cap: nat, s: State, a: Action, id: nat)
    requires id < |Step(cap, s, a).pollers|
    requires forall sp <- s.active :: Registered(s, sp)
    requires id < |s.pollers| ==> LateOnce(s, id)
    ensures LateOnce(Step(cap, s, a), id)
  {
  }

  lemma StepKeeps(cap: nat, s: State, a: Action)
    requires Invariant(cap, s)
    ensures Invariant(cap, Step(cap, s, a))
  {
    var s' := Step(cap, s, a);
    CapKept(cap, s, a);
    forall sp ensures Counted(s', sp) {
      CountKept(cap, s, a, sp);
    }
    forall sp <- s'.active ensures Registered(s', sp) {
      RegisteredKept(cap, s, a, sp);
    }
    forall id | 0 <= id < |s'.pollers| ensures LateOnce(s', id) {
      LateKept(cap, s, a, id);
    }
  }

  /** Under every interleaving: polls stay under the cap, every outage escalates exactly once, and no
      poller writes more than one message after losing its stream. */
  lemma {:induction false} RunKeeps(cap: nat, actions: seq<Action>, n: nat)
    requires n <= |actions|
    ensures Invariant(cap, After(cap, actions, n))
  {
    if n > 0 {
      RunKeeps(cap, actions, n - 1);
      StepKeeps(cap, After(cap, actions, n - 1), actions[n - 1]);
    }
  }

  lemma StepNeverReturns(cap: nat, s: State, a: Action, id: nat)
    requires id < |s.pollers| && !Owns(s, id)
    ensures id < |Step(cap, s, a).pollers| && !Owns(Step(cap, s, a), id)
  {
  }

  /** A poller that has lost its stream never owns it again. */
  lemma {:induction false} NeverReturns(cap: nat, actions: seq<Action>, m: nat, n: nat, id: nat)
    requires m <= n <= |actions|
    requires id < |After(cap, actions, m).pollers| && !Owns(After(cap, actions, m), id)
    ensures id < |After(cap, actions, n).pollers| && !Owns(After(cap, actions, n), id)
    decreases n
  {
    if m < n {
      NeverReturns(cap, actions, m, n - 1, id);
      StepNeverReturns(cap, After(cap, actions, n - 1), actions[n - 1], id);
    }
  }

  // ---------- no more than was fetched ----------

  /** What a poller has yet to write of what it fetched. */
  function Left(s: State, id: nat): nat {
    if id < |s.pollers| && (s.pollers[id].stage.Asking? || s.pollers[id].stage.Writing?)
    then s.pollers[id].stage.left else 0
  }

  /** How many messages poller id has fetched in the first n steps, over all its polls. */
  function Fetched(cap: nat, actions: seq<Action>, n: nat, id: nat): nat
    requires n <= |actions|
  {
    if n == 0 then 0
    else
      var a := actions[n - 1];
      Fetched(cap, actions, n - 1, id)
      + if a.Fetch? && a.id == id && Enabled(After(cap, actions, n - 1), a) then a.messages else 0
  }

  /** And how many it has tried to write, whether they were accepted or not. */
  function Written(cap: nat, actions: seq<Action>, n: nat, id: nat): nat
    requires n <= |actions|
  {
    if n == 0 then 0
    else
      var a := actions[n - 1];
      Written(cap, actions, n - 1, id)
      + if a.Write? && a.id == id && Enabled(After(cap, actions, n - 1), a) then 1 else 0
  }

  /** A poller that is asking or writing has something left to write. */
  predicate Pressed(s: State, id: nat) {
    id < |s.pollers| && (s.pollers[id].stage.Asking? || s.pollers[id].stage.Writing?) ==> Left(s, id) > 0
  }

  lemma StepLeft(cap: nat, s: State, a: Action, id: nat)
    requires Pressed(s, id)
    ensures Pressed(Step(cap, s, a), id)
    ensures Left(Step(cap, s, a), id) + (if a.Write? && a.id == id && Enabled(s, a) then 1 else 0)
         <= Left(s, id) + if a.Fetch? && a.id == id && Enabled(s, a) then a.messages else 0
  {
  }

  /** Under every interleaving a poller writes no more messages than it fetched. */
  lemma {:induction false} WritesFetched(cap: nat, actions: seq<Action>, n: nat, id: nat)
    requires n <= |actions|
    ensures Pressed(After(cap, actions, n), id)
    ensures Written(cap, actions, n, id) + Left(After(cap, actions, n), id) <= Fetched(cap, actions, n, id)
  {
    if n > 0 {
      WritesFetched(cap, actions, n - 1, id);
      StepLeft(cap, After(cap, actions, n - 1), actions[n - 1], id);
    }
  }

  // ---------- polled and not expired ----------

  /** No message on sp among the steps after m and before n. */
  predicate NoNote(actions: seq<Action>, m: nat, n: nat, sp: StreamSpec)
    requires n <= |actions|
  {
    forall k :: m < k < n ==> actions[k] != Note(sp)
  }

  /** The expiry of sp marked at step m still stands at step n. */
  predicate Stands(actions: seq<Action>, m: nat, n: nat, sp: StreamSpec)
    requires n <= |actions|
  {
    m < n && actions[m] == MarkExpired(sp) && NoNote(actions, m, n, sp)
  }

  ghost predicate Standing(actions: seq<Action>, n: nat, sp: StreamSpec)
    requires n <= |actions|
  {
    exists m :: Stands(actions, m, n, sp)
  }

  predicate TakesEffect(cap: nat, s: State, a: Action) {
    a.Engage? && a.sp !in s.active && |s.active| < cap
  }

  /** The poller started for sp at step m is still on at step n. */
  predicate Polls(cap: nat, actions: seq<Action>, m: nat, n: nat, sp: StreamSpec)
    requires n <= |actions|
  {
    && m < n && actions[m] == Engage(sp)
    && TakesEffect(cap, After(cap, actions, m), actions[m]) && NoNote(actions, m, n, sp)
  }

  ghost predicate PolledBy(cap: nat, actions: seq<Action>, n: nat, sp: StreamSpec)
    requires n <= |actions|
  {
    exists m :: Polls(cap, actions, m, n, sp)
  }

  lemma NoNoteLonger(actions: seq<Action>, m: nat, n: nat, sp: StreamSpec)
    requires m < n < |actions|
    ensures NoNote(actions, m, n + 1, sp) <==> NoNote(actions, m, n, sp) && actions[n] != Note(sp)
  {
  }

  lemma StandsNext(actions: seq<Action>, n: nat, sp: StreamSpec)
    requires 0 < n <= |actions|
    ensures Standing(actions, n, sp) <==>
      actions[n - 1] == MarkExpired(sp)
      || (actions[n - 1] != Note(sp) && Standing(actions, n - 1, sp))
  {
    forall m | 0 <= m < n - 1
      ensures Stands(actions, m, n, sp) <==> Stands(actions, m, n - 1, sp) && actions[n - 1] != Note(sp)
    {
      NoNoteLonger(actions, m, n - 1, sp);
    }
    assert Stands(actions, n - 1, n, sp) <==> actions[n - 1] == MarkExpired(sp);
    if m :| Stands(actions, m, n, sp) {
      assert m == n - 1 || Stands(actions, m, n - 1, sp);
    }
    if Standing(actions, n - 1, sp) {
      var before := n - 1;
      var m :| Stands(actions, m, before, sp);
      assert actions[n - 1] != Note(sp) ==> Stands(actions, m, n, sp);
    }
  }

  lemma PollsNext(cap: nat, actions: seq<Action>, n: nat, sp: StreamSpec)
    requires 0 < n <= |actions|
    ensures PolledBy(cap, actions, n, sp) <==>
      (actions[n - 1] == Engage(sp) && TakesEffect(cap, After(cap, actions, n - 1), actions[n - 1]))
      || (actions[n - 1] != Note(sp) && PolledBy(cap, actions, n - 1, sp))
  {
    forall m | 0 <= m < n - 1
      ensures Polls(cap, actions, m, n, sp) <==> Polls(cap, actions, m, n - 1, sp) && actions[n - 1] != Note(sp)
    {
      NoNoteLonger(actions, m, n - 1, sp);
    }
    assert Polls(cap, actions, n - 1, n, sp) <==>
      actions[n - 1] == Engage(sp) && TakesEffect(cap, After(cap, actions, n - 1), actions[n - 1]);
    if m :| Polls(cap, actions, m, n, sp) {
      assert m == n - 1 || Polls(cap, actions, m, n - 1, sp);
    }
    if PolledBy(cap, actions, n - 1, sp) {
      var before := n - 1;
      var m :| Polls(cap, actions, m, before, sp);
      assert actions[n - 1] != Note(sp) ==> Polls(cap, actions, m, n, sp);
    }
  }

  /** A stream is expired exactly while some expiry of it stands. */
  lemma {:induction false} ExpiredExact(cap: nat, actions: seq<Action>, n: nat, sp: StreamSpec)
    requires n <= |actions|
    ensures sp in After(cap, actions, n).expired <==> Standing(actions, n, sp)
  {
    if n > 0 {
      ExpiredExact(cap, actions, n - 1, sp);
      StandsNext(actions, n, sp);
    }
  }

  /** And polled exactly while the poller some step started for it is on. */
  lemma {:induction false} ActiveExact(cap: nat, actions: seq<Action>, n: nat, sp: StreamSpec)
    requires n <= |actions|
    ensures sp in After(cap, actions, n).active <==> PolledBy(cap, actions, n, sp)
  {
    if n > 0 {
      ActiveExact(cap, actions, n - 1, sp);
      PollsNext(cap, actions, n, sp);
    }
  }

  predicate PolledExpired(s: State) {
    s.active.Keys <= s.expired
  }

  /** A step that starts polling a stream whose outage is already over. */
  predicate Strays(cap: nat, s: State, a: Action) {
    TakesEffect(cap, s, a) && a.sp !in s.expired
  }

  lemma StepPolledExpired(cap: nat, s: State, a: Action)
    requires PolledExpired(s)
    ensures PolledExpired(Step(cap, s, a)) <==> !Strays(cap, s, a)
  {
    if Strays(cap, s, a) {
      assert a.sp in Step(cap, s, a).active;
    }
  }

  predicate SoundAt(cap: nat, actions: seq<Action>, n: nat)
    requires n <= |actions|
  {
    PolledExpired(After(cap, actions, n))
  }

  predicate StraysAt(cap: nat, actions: seq<Action>, n: nat)
    requires n < |actions|
  {
    Strays(cap, After(cap, actions, n), actions[n])
  }

  /** Under an interleaving polled streams are expired all along exactly when no step strays: no poller
      is started after a message has come between the two critical sections of its expiry. */
  lemma {:induction false} PolledExpiredExact(cap: nat, actions: seq<Action>, n: nat)
    requires n <= |actions|
    ensures (forall m :: 0 <= m <= n ==> SoundAt(cap, actions, m))
       <==> forall m :: 0 <= m < n ==> !StraysAt(cap, actions, m)
  {
    if n == 0 {
      assert SoundAt(cap, actions, 0);
    } else {
      PolledExpiredExact(cap, actions, n - 1);
      SoundNext(cap, actions, n);
    }
  }

  lemma SoundNext(cap: nat, actions: seq<Action>, n: nat)
    requires 0 < n <= |actions|
    ensures SoundAt(cap, actions, n - 1) ==> (SoundAt(cap, actions, n) <==> !StraysAt(cap, actions, n - 1))
  {
    if SoundAt(cap, actions, n - 1) {
      StepPolledExpired(cap, After(cap, actions, n - 1), actions[n - 1]);
    }
  }

  /** A step strays exactly when it starts a poller for a stream no expiry of which still stands. */
  lemma StraysExact(cap: nat, actions: seq<Action>, n: nat)
    requires n < |actions|
    ensures StraysAt(cap, actions, n) <==>
      TakesEffect(cap, After(cap, actions, n), actions[n]) && !Standing(actions, n, actions[n].sp)
  {
    if actions[n].Engage? {
      ExpiredExact(cap, actions, n, actions[n].sp);
    }
  }

  /** At any moment: a stream is polled and not expired exactly when the poller some step started for it
      is on and none of its expiries stands. */
  lemma RecoveredPolledExact(cap: nat, actions: seq<Action>, n: nat, sp: StreamSpec)
    requires n <= |actions|
    ensures
      var s := After(cap, actions, n);
      sp in s.active && sp !in s.expired <==>
        PolledBy(cap, actions, n, sp) && !Standing(actions, n, sp)
  {
    ActiveExact(cap, actions, n, sp);
    ExpiredExact(cap, actions, n, sp);
  }

  /** It happens: a message between the two critical sections of one expiry. */
  lemma OverlapPollsRecovered(cap: nat, sp: StreamSpec)
    requires cap >= 1
    ensures
      var actions := [MarkExpired(sp), Note(sp), Engage(sp)];
      sp in After(cap, actions, 3).active && sp !in After(cap, actions, 3).expired
  {
    var actions := [MarkExpired(sp), Note(sp), Engage(sp)];
    assert After(cap, actions, 1) == Step(cap, IDLE, actions[0]);
    assert After(cap, actions, 2) == Step(cap, After(cap, actions, 1), actions[1]);
    assert After(cap, actions, 2).active == map[];
  }
}
