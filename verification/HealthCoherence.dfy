/** The cache of statuses always agrees with a full recompute, although every event refreshes only
    the instruments it touched. */
module HealthCoherence {
  import opened Wrappers
  import opened Core
  import opened Health

  /** Streams and instruments refer to each other, and every socket named is known. */
  ghost predicate WellFormed(t: State) {
    && DistinctReferences(t.order)
    && (forall i :: 0 <= i < |t.order| ==> Owned(t, i))
    && (forall sp <- t.streams :: Listed(t, sp))
    && (forall sp <- t.streams :: t.streams[sp].socketID == "" || t.streams[sp].socketID in t.sockets)
  }

  ghost predicate DistinctReferences(order: seq<Instrument>) {
    forall i, j :: 0 <= i < j < |order| ==> order[i].reference != order[j].reference
  }

  ghost predicate Owned(t: State, i: nat)
    requires i < |t.order|
  {
    forall sp <- t.order[i].streams :: sp in t.streams && sp.instrument == t.order[i].reference
  }

  ghost predicate Listed(t: State, sp: StreamSpec) {
    exists i :: 0 <= i < |t.order| && sp in t.order[i].streams
  }

  /** The cached status of a stream is what a recompute at r gives. */
  ghost predicate JudgedAt(o: Options, t: State, sp: StreamSpec, r: int)
    requires sp in t.streams
  {
    t.streams[sp].cached == Compute(o, t, t.streams[sp], r)
  }

  ghost predicate Judged(o: Options, t: State, sp: StreamSpec, now: int)
    requires sp in t.streams
  {
    exists r :: r <= now && JudgedAt(o, t, sp, r)
  }

  ghost predicate Folded(t: State, i: nat)
    requires i < |t.order|
  {
    t.order[i].cached == Worst(t.streams, t.order[i].streams)
  }

  /** Every cached status is current: a stream's as of some reading up to now, an instrument's as of
      its streams', and the venue's outright. */
  ghost predicate Coherent(o: Options, t: State, now: int) {
    && WellFormed(t)
    && (forall sp <- t.streams :: Judged(o, t, sp, now))
    && (forall i :: 0 <= i < |t.order| ==> Folded(t, i))
    && (t.order != [] ==> t.venue == ComputeVenue(o, t))
  }

  // ---------- what recomputing depends on ----------

  lemma {:induction false} WorstSame(m: map<StreamSpec, Stream>, m': map<StreamSpec, Stream>, specs: seq<StreamSpec>)
    requires forall sp <- specs :: sp in m && sp in m' && m[sp].cached == m'[sp].cached
    ensures Worst(m, specs) == Worst(m', specs)
  {
    if specs != [] {
      WorstSame(m, m', specs[..|specs| - 1]);
    }
  }

  lemma {:induction false} SocketIDsSame(m: map<StreamSpec, Stream>, m': map<StreamSpec, Stream>,
                                           specs: seq<StreamSpec>)
    requires m.Keys == m'.Keys && forall sp <- m :: m[sp].socketID == m'[sp].socketID
    ensures SocketIDs(m, specs) == SocketIDs(m', specs)
  {
    if specs != [] {
      SocketIDsSame(m, m', specs[..|specs| - 1]);
    }
  }

  lemma {:induction false} SpecificationsSame(a: seq<Instrument>, b: seq<Instrument>)
    requires |a| == |b| && forall i :: 0 <= i < |a| ==> a[i].streams == b[i].streams
    ensures Specifications(a) == Specifications(b)
  {
    if a != [] {
      SpecificationsSame(a[..|a| - 1], b[..|b| - 1]);
    }
  }

  lemma RefreshVenue(o: Options, t: State, touched: set<InstrumentRef>, now: int)
    ensures var t' := Refresh(o, t, touched, now).state;
            t'.venue == ComputeVenue(o, t) && ComputeVenue(o, t') == ComputeVenue(o, t)
  {
    var t' := Refresh(o, t, touched, now).state;
    SocketIDsSame(t.streams, t'.streams, Specifications(t.order));
    SpecificationsSame(t.order, t'.order);
  }

  /** The same streams in the same places, on sockets still known. */
  ghost predicate SameShape(t: State, t': State) {
    && |t.order| == |t'.order|
    && (forall i :: 0 <= i < |t.order| ==>
          t.order[i].reference == t'.order[i].reference && t.order[i].streams == t'.order[i].streams)
    && t.streams.Keys == t'.streams.Keys
    && (forall sp <- t.streams :: t'.streams[sp].socketID == t.streams[sp].socketID)
    && t.sockets.Keys <= t'.sockets.Keys
  }

  lemma ShapeWellFormed(t: State, t': State)
    requires WellFormed(t) && SameShape(t, t')
    ensures WellFormed(t')
  {
    forall i | 0 <= i < |t'.order| ensures Owned(t', i) {
      assert Owned(t, i);
    }
    forall sp <- t'.streams ensures Listed(t', sp) {
      assert Listed(t, sp);
      var i :| 0 <= i < |t.order| && sp in t.order[i].streams;
      assert sp in t'.order[i].streams;
    }
  }

  lemma RefreshShape(o: Options, t: State, touched: set<InstrumentRef>, now: int)
    ensures SameShape(t, Refresh(o, t, touched, now).state)
  {
  }

  lemma RefreshFolds(o: Options, t: State, touched: set<InstrumentRef>, now: int, i: nat)
    requires WellFormed(t) && i < |t.order|
    requires t.order[i].reference !in touched ==> Folded(t, i)
    ensures Folded(Refresh(o, t, touched, now).state, i)
  {
    var t' := Refresh(o, t, touched, now).state;
    assert Owned(t, i);
    if t.order[i].reference !in touched {
      WorstSame(t.streams, t'.streams, t.order[i].streams);
    }
  }

  /** Refreshing what was touched makes everything current, if the rest already was. */
  lemma RefreshCoherent(o: Options, t: State, touched: set<InstrumentRef>, now: int)
    requires WellFormed(t)
    requires forall sp <- t.streams :: sp.instrument !in touched ==> Judged(o, t, sp, now)
    requires forall i :: 0 <= i < |t.order| && t.order[i].reference !in touched ==> Folded(t, i)
    ensures Coherent(o, Refresh(o, t, touched, now).state, now)
  {
    var t' := Refresh(o, t, touched, now).state;
    RefreshShape(o, t, touched, now);
    ShapeWellFormed(t, t');
    RefreshVenue(o, t, touched, now);
    forall sp <- t'.streams ensures Judged(o, t', sp, now) {
      RefreshJudged(o, t, touched, now, sp);
    }
    forall i | 0 <= i < |t'.order| ensures Folded(t', i) {
      RefreshFolds(o, t, touched, now, i);
    }
  }

  lemma RefreshJudged(o: Options, t: State, touched: set<InstrumentRef>, now: int, sp: StreamSpec)
    requires sp in t.streams && (sp.instrument !in touched ==> Judged(o, t, sp, now))
    ensures Judged(o, Refresh(o, t, touched, now).state, sp, now)
    ensures sp.instrument in touched ==> JudgedAt(o, Refresh(o, t, touched, now).state, sp, now)
  {
    var t' := Refresh(o, t, touched, now).state;
    if sp.instrument in touched {
      assert JudgedAt(o, t', sp, now);
    } else {
      var r :| r <= now && JudgedAt(o, t, sp, r);
      assert JudgedAt(o, t', sp, r);
    }
  }

  // ---------- events touch all they move ----------

  lemma MutateStreamShape(t: State, e: Event, now: int)
    requires AboutStream(e)
    ensures SameShape(t, MutateStream(t, e, now).state)
    ensures var t' := MutateStream(t, e, now).state; t' == t.(streams := t'.streams)
  {
  }

  lemma MutateShape(t: State, e: Event, now: int)
    ensures SameShape(t, Mutate(t, e, now).state) && Mutate(t, e, now).state.order == t.order
  {
    if AboutStream(e) {
      MutateStreamShape(t, e, now);
    }
  }

  lemma ListedInAll(t: State, sp: StreamSpec)
    requires WellFormed(t) && sp in t.streams
    ensures sp.instrument in All(t)
  {
    assert Listed(t, sp);
    var i :| 0 <= i < |t.order| && sp in t.order[i].streams;
    assert Owned(t, i);
  }

  lemma MutateStreamTouches(o: Options, t: State, e: Event, now: int, sp: StreamSpec, r: int)
    requires AboutStream(e)
    requires sp in t.streams && sp.instrument !in MutateStream(t, e, now).touched
    ensures var t' := MutateStream(t, e, now).state;
      && t' == t.(streams := t'.streams)
      && sp in t'.streams && t'.streams[sp] == t.streams[sp]
  {
  }

  /** An event leaves alone every stream outside its touched set, and all that its status depends on. */
  lemma MutateTouches(o: Options, t: State, e: Event, now: int, sp: StreamSpec, r: int)
    requires WellFormed(t) && sp in t.streams && sp.instrument !in Mutate(t, e, now).touched
    ensures
      var t' := Mutate(t, e, now).state;
      sp in t'.streams && t'.streams[sp] == t.streams[sp]
      && Compute(o, t', t.streams[sp], r) == Compute(o, t, t.streams[sp], r)
  {
    if AboutStream(e) {
      MutateStreamTouches(o, t, e, now, sp, r);
    } else {
      MutateSharedTouches(o, t, e, now, sp);
    }
  }

  /** An event about no stream in particular leaves a stream it does not touch its record, its socket
      and what all streams share. */
  lemma MutateSharedTouches(o: Options, t: State, e: Event, now: int, sp: StreamSpec)
    requires !AboutStream(e)
    requires WellFormed(t) && sp in t.streams && sp.instrument !in Mutate(t, e, now).touched
    ensures
      var t' := Mutate(t, e, now).state;
      && sp in t'.streams && t'.streams[sp] == t.streams[sp]
      && SocketOf(t', t.streams[sp]) == SocketOf(t, t.streams[sp])
      && t'.metadataOK == t.metadataOK && t'.metadataReason == t.metadataReason && t'.skewMS == t.skewMS
  {
    if e.MetadataState? || e.ClockSkew? {
      ListedInAll(t, sp);
    } else if e.SocketState? {
      assert t.streams[sp].socketID == e.socketID ==> sp.instrument in InstrumentsOn(t, e.socketID);
    }
  }

  /** Every event keeps every cached status current. */
  lemma UpdateCoherent(o: Options, t: State, e: Event, before: int, now: int)
    requires Coherent(o, t, before) && before <= now
    ensures Coherent(o, Update(o, t, e, now).state, now)
  {
    var c := Mutate(t, e, now);
    MutateShape(t, e, now);
    ShapeWellFormed(t, c.state);
    forall sp <- c.state.streams | sp.instrument !in c.touched ensures Judged(o, c.state, sp, now) {
      var r :| r <= before && JudgedAt(o, t, sp, r);
      MutateTouches(o, t, e, now, sp, r);
      assert JudgedAt(o, c.state, sp, r);
    }
    forall i | 0 <= i < |t.order| && t.order[i].reference !in c.touched ensures Folded(c.state, i) {
      assert Folded(t, i) && Owned(t, i);
      forall sp <- t.order[i].streams ensures c.state.streams[sp] == t.streams[sp] {
        MutateTouches(o, t, e, now, sp, now);
      }
      WorstSame(t.streams, c.state.streams, t.order[i].streams);
    }
    if !(e.MetadataState? && !o.metadataRequired) {
      RefreshCoherent(o, c.state, c.touched, now);
    } else {
      LaterCoherent(o, t, before, now);
    }
  }

  lemma LaterCoherent(o: Options, t: State, before: int, now: int)
    requires Coherent(o, t, before) && before <= now
    ensures Coherent(o, t, now)
  {
    forall sp <- t.streams ensures Judged(o, t, sp, now) {
      var r :| r <= before && JudgedAt(o, t, sp, r);
    }
  }

  lemma BeatCoherent(o: Options, t: State, before: int, now: int)
    requires Coherent(o, t, before) && before <= now
    ensures Coherent(o, Beat(o, t, now).state, now)
  {
    LaterCoherent(o, t, before, now);
    RefreshCoherent(o, t, All(t), now);
  }

  // ---------- registration ----------

  /** The instrument list with a place for the stream. */
  lemma RegisteredOrder(o: Options, t: State, sp: StreamSpec, venueSymbol: string, id: string)
    requires WellFormed(t) && sp !in t.streams
    ensures
      var t' := Registered(o, t, sp, venueSymbol, id).state;
      && |t.order| <= |t'.order| <= |t.order| + 1
      && (forall i :: 0 <= i < |t'.order| ==>
           var was := if i < |t.order| then t.order[i].streams else [];
           && t'.order[i].streams == (if t'.order[i].reference == sp.instrument then was + [sp] else was)
           && (i < |t.order| ==>
                t'.order[i].reference == t.order[i].reference && t'.order[i].cached == t.order[i].cached)
           && (i == |t.order| ==> t'.order[i].reference == sp.instrument))
      && DistinctReferences(t'.order)
      && exists i :: 0 <= i < |t'.order| && t'.order[i].reference == sp.instrument
  {
    var t' := Registered(o, t, sp, venueSymbol, id).state;
    if sp.instrument in All(t) {
      var i :| 0 <= i < |t.order| && t.order[i].reference == sp.instrument;
      assert t'.order[i].reference == sp.instrument;
    } else {
      assert forall i :: 0 <= i < |t.order| ==> t.order[i].reference in All(t);
      assert t'.order[|t.order|].reference == sp.instrument;
    }
  }

  lemma RegisteredWellFormed(o: Options, t: State, sp: StreamSpec, venueSymbol: string, id: string)
    requires WellFormed(t) && sp !in t.streams
    ensures WellFormed(Registered(o, t, sp, venueSymbol, id).state)
  {
    var t' := Registered(o, t, sp, venueSymbol, id).state;
    RegisteredOrder(o, t, sp, venueSymbol, id);
    forall i | 0 <= i < |t'.order| ensures Owned(t', i) {
      if i < |t.order| { assert Owned(t, i); }
    }
    forall other <- t'.streams ensures Listed(t', other) {
      if other != sp { assert Listed(t, other); }
      RegisteredListed(o, t, sp, venueSymbol, id, other);
    }
  }

  lemma RegisteredListed(o: Options, t: State, sp: StreamSpec, venueSymbol: string, id: string, other: StreamSpec)
    requires WellFormed(t) && sp !in t.streams && (other == sp || other in t.streams)
    ensures Listed(Registered(o, t, sp, venueSymbol, id).state, other)
  {
    RegisteredOrder(o, t, sp, venueSymbol, id);
    ListedStill(t, Registered(o, t, sp, venueSymbol, id).state, sp, other);
  }

  /** An instrument list that gains one stream lists it and every stream it listed. */
  lemma ListedStill(t: State, t': State, sp: StreamSpec, other: StreamSpec)
    requires |t.order| <= |t'.order| && (other == sp || Listed(t, other))
    requires forall i :: 0 <= i < |t'.order| ==>
      var was := if i < |t.order| then t.order[i].streams else [];
      t'.order[i].streams == (if t'.order[i].reference == sp.instrument then was + [sp] else was)
    requires exists i :: 0 <= i < |t'.order| && t'.order[i].reference == sp.instrument
    ensures Listed(t', other)
  {
    if other == sp {
      var i :| 0 <= i < |t'.order| && t'.order[i].reference == sp.instrument;
      assert sp in t'.order[i].streams;
    } else {
      var i :| 0 <= i < |t.order| && other in t.order[i].streams;
      assert other in t'.order[i].streams;
    }
  }

  lemma RegisteredJudged(o: Options, t: State, sp: StreamSpec, venueSymbol: string, id: string,
                          other: StreamSpec, now: int)
    requires WellFormed(t) && sp !in t.streams && other in t.streams && Judged(o, t, other, now)
    ensures Judged(o, Registered(o, t, sp, venueSymbol, id).state, other, now)
  {
    RegisteredShared(o, t, sp, venueSymbol, id, other);
    var r :| r <= now && JudgedAt(o, t, other, r);
    assert JudgedAt(o, Registered(o, t, sp, venueSymbol, id).state, other, r);
  }

  /** A stream already registered, its socket and what all streams share are left as they were. */
  lemma RegisteredShared(o: Options, t: State, sp: StreamSpec, venueSymbol: string, id: string, other: StreamSpec)
    requires WellFormed(t) && sp !in t.streams && other in t.streams
    ensures
      var t' := Registered(o, t, sp, venueSymbol, id).state;
      && other in t'.streams && t'.streams[other] == t.streams[other]
      && SocketOf(t', t.streams[other]) == SocketOf(t, t.streams[other])
      && t'.metadataOK == t.metadataOK && t'.metadataReason == t.metadataReason && t'.skewMS == t.skewMS
  {
  }

  lemma RegisteredFolded(o: Options, t: State, sp: StreamSpec, venueSymbol: string, id: string, i: nat)
    requires WellFormed(t) && sp !in t.streams && i < |t.order|
    requires t.order[i].reference != sp.instrument && Folded(t, i)
    ensures Folded(Registered(o, t, sp, venueSymbol, id).state, i)
  {
    RegisteredOrder(o, t, sp, venueSymbol, id);
    assert Owned(t, i);
    WorstSame(t.streams, Registered(o, t, sp, venueSymbol, id).state.streams, t.order[i].streams);
  }

  /** Registering a stream keeps every other cached status current. */
  lemma RegisterCoherent(o: Options, t: State, sp: StreamSpec, venueSymbol: string, id: string, before: int, now: int)
    requires Coherent(o, t, before) && before <= now
    ensures Coherent(o, Register(o, t, sp, venueSymbol, id, now), now)
  {
    LaterCoherent(o, t, before, now);
    if sp !in t.streams {
      var t' := Registered(o, t, sp, venueSymbol, id).state;
      RegisteredWellFormed(o, t, sp, venueSymbol, id);
      RegisteredOrder(o, t, sp, venueSymbol, id);
      forall other <- t'.streams | other.instrument != sp.instrument ensures Judged(o, t', other, now) {
        RegisteredJudged(o, t, sp, venueSymbol, id, other, now);
      }
      forall i | 0 <= i < |t'.order| && t'.order[i].reference != sp.instrument ensures Folded(t', i) {
        RegisteredFolded(o, t, sp, venueSymbol, id, i);
      }
      RefreshCoherent(o, t', {sp.instrument}, now);
    }
  }

  // ---------- runs ----------

  datatype Op =
    | Declare(sp: StreamSpec, venueSymbol: string, socketID: string)
    | Happen(event: Event)
    | Heartbeat

  datatype Timed = Timed(op: Op, at: int)

  function Perform(o: Options, t: State, s: Timed): State {
    match s.op
    case Declare(sp, venueSymbol, id) => Register(o, t, sp, venueSymbol, id, s.at)
    case Happen(e) => Update(o, t, e, s.at).state
    case Heartbeat => Beat(o, t, s.at).state
  }

  function Run(o: Options, t: State, steps: seq<Timed>): State
    decreases |steps|
  {
    if steps == [] then t else Run(o, Perform(o, t, steps[0]), steps[1..])
  }

  /** The clock never runs back, and starts no earlier than before. */
  predicate ClockMonotone(before: int, steps: seq<Timed>) {
    && (forall i :: 0 <= i < |steps| ==> before <= steps[i].at)
    && (forall i, j :: 0 <= i <= j < |steps| ==> steps[i].at <= steps[j].at)
  }

  function LastReading(before: int, steps: seq<Timed>): int {
    if steps == [] then before else steps[|steps| - 1].at
  }

  lemma ClockTail(before: int, steps: seq<Timed>)
    requires ClockMonotone(before, steps) && steps != []
    ensures before <= steps[0].at && ClockMonotone(steps[0].at, steps[1..])
    ensures LastReading(steps[0].at, steps[1..]) == LastReading(before, steps)
  {
  }

  lemma PerformCoherent(o: Options, t: State, s: Timed, before: int)
    requires Coherent(o, t, before) && before <= s.at
    ensures Coherent(o, Perform(o, t, s), s.at)
  {
    match s.op
    case Declare(sp, venueSymbol, id) => RegisterCoherent(o, t, sp, venueSymbol, id, before, s.at);
    case Happen(e) => UpdateCoherent(o, t, e, before, s.at);
    case Heartbeat => BeatCoherent(o, t, before, s.at);
  }

  lemma {:induction false} RunCoherentFrom(o: Options, t: State, steps: seq<Timed>, before: int)
    requires Coherent(o, t, before) && ClockMonotone(before, steps)
    ensures Coherent(o, Run(o, t, steps), LastReading(before, steps))
    decreases |steps|
  {
    if steps != [] {
      ClockTail(before, steps);
      PerformCoherent(o, t, steps[0], before);
      RunCoherentFrom(o, Perform(o, t, steps[0]), steps[1..], steps[0].at);
    }
  }

  /** After every run from a fresh tracker, every cached status is current as of the last step. */
  lemma RunCoherent(o: Options, steps: seq<Timed>, start: int)
    requires ClockMonotone(start, steps)
    ensures Coherent(o, Run(o, Fresh(o), steps), LastReading(start, steps))
  {
    RunCoherentFrom(o, Fresh(o), steps, start);
  }

  // ---------- reading the cache ----------

  /** Time alone moves only a stream on fallback, and never for the better. */
  lemma TimeOnlyWorsens(o: Options, t: State, s: Stream, r: int, now: int)
    requires r <= now
    ensures Compute(o, t, s, r).status.Rank() <= Compute(o, t, s, now).status.Rank()
    ensures s.fallbackSince == None ==> Compute(o, t, s, r) == Compute(o, t, s, now)
  {
  }

  lemma JudgedReads(o: Options, t: State, sp: StreamSpec, before: int, now: int)
    requires before <= now && sp in t.streams && Judged(o, t, sp, before)
    ensures t.streams[sp].fallbackSince == None ==> JudgedAt(o, t, sp, now)
    ensures t.streams[sp].cached.status.Rank() <= Compute(o, t, t.streams[sp], now).status.Rank()
  {
    var r :| r <= before && JudgedAt(o, t, sp, r);
    TimeOnlyWorsens(o, t, t.streams[sp], r, now);
  }

  /** At any moment after any run: a stream that is not on fallback has exactly the status a full
      recompute gives now, and one on fallback is at least as bad now as its cached status says. */
  lemma CacheReads(o: Options, steps: seq<Timed>, start: int, sp: StreamSpec, now: int)
    requires ClockMonotone(start, steps) && LastReading(start, steps) <= now
    requires sp in Run(o, Fresh(o), steps).streams
    ensures
      var t := Run(o, Fresh(o), steps);
      var s := t.streams[sp];
      && (s.fallbackSince == None ==> s.cached == Compute(o, t, s, now))
      && s.cached.status.Rank() <= Compute(o, t, s, now).status.Rank()
  {
    RunCoherent(o, steps, start);
    JudgedReads(o, Run(o, Fresh(o), steps), sp, LastReading(start, steps), now);
  }

  /** The heartbeat leaves every stream exactly as a full recompute finds it. */
  lemma BeatRestores(o: Options, t: State, sp: StreamSpec, now: int)
    requires WellFormed(t) && sp in t.streams
    ensures JudgedAt(o, Beat(o, t, now).state, sp, now)
  {
    ListedInAll(t, sp);
    RefreshJudged(o, t, All(t), now, sp);
  }
}
