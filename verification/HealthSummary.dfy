/** What one status for an instrument and one for the venue say about the streams behind them. */
module HealthSummary {
  import opened Wrappers
  import opened Core
  import opened Health
  import opened HealthCoherence

  // ---------- an instrument ----------

  function RankOf(streams: map<StreamSpec, Stream>, sp: StreamSpec): nat {
    if sp in streams then streams[sp].cached.status.Rank() else 0
  }

  /** The first of the channels that are worst off, and not well. */
  predicate Leads(streams: map<StreamSpec, Stream>, specs: seq<StreamSpec>, i: nat)
    requires i < |specs|
  {
    && specs[i] in streams && RankOf(streams, specs[i]) > Healthy.Rank()
    && (forall j :: 0 <= j < |specs| ==> RankOf(streams, specs[j]) <= RankOf(streams, specs[i]))
    && (forall j :: 0 <= j < i ==> RankOf(streams, specs[j]) < RankOf(streams, specs[i]))
  }

  function Named(streams: map<StreamSpec, Stream>, sp: StreamSpec): Verdict
    requires sp in streams
  {
    Verdict(streams[sp].cached.status, ChannelName(sp.channel) + ": " + streams[sp].cached.reason)
  }

  /** An instrument is as bad as its worst channel, and says which: the first registered of those as
      bad. It is healthy just when no channel is worse than that. */
  lemma {:induction false} WorstExact(streams: map<StreamSpec, Stream>, specs: seq<StreamSpec>)
    ensures forall sp <- specs :: RankOf(streams, sp) <= Worst(streams, specs).status.Rank()
    ensures (exists i :: 0 <= i < |specs| && Leads(streams, specs, i)
                      && Worst(streams, specs) == Named(streams, specs[i]))
         || (Worst(streams, specs) == Verdict(Healthy, "")
             && forall sp <- specs :: RankOf(streams, sp) <= Healthy.Rank())
  {
    if specs != [] {
      var n := |specs| - 1;
      var init := specs[..n];
      WorstExact(streams, init);
      assert forall sp <- specs :: sp in init || sp == specs[n];
      assert forall j :: 0 <= j < n ==> init[j] in init;
      if RankOf(streams, specs[n]) > Worst(streams, init).status.Rank() {
        assert Leads(streams, specs, n);
      } else if Worst(streams, init) != Verdict(Healthy, "") {
        var i :| 0 <= i < n && Leads(streams, init, i) && Worst(streams, init) == Named(streams, init[i]);
        LeadsLonger(streams, specs, i);
      }
    }
  }

  lemma LeadsLonger(streams: map<StreamSpec, Stream>, specs: seq<StreamSpec>, i: nat)
    requires i < |specs| - 1 && Leads(streams, specs[..|specs| - 1], i)
    requires RankOf(streams, specs[|specs| - 1]) <= RankOf(streams, specs[i])
    ensures Leads(streams, specs, i)
  {
    var init := specs[..|specs| - 1];
    assert forall j :: 0 <= j < |init| ==> init[j] == specs[j];
  }

  // ---------- the venue ----------

  lemma {:induction false} Specified(order: seq<Instrument>, i: nat, sp: StreamSpec)
    requires i < |order| && sp in order[i].streams
    ensures sp in Specifications(order)
  {
    if i < |order| - 1 {
      Specified(order[..|order| - 1], i, sp);
    }
  }

  lemma {:induction false} SocketListed(streams: map<StreamSpec, Stream>, specs: seq<StreamSpec>, sp: StreamSpec)
    requires sp in specs && sp in streams && streams[sp].socketID != ""
    ensures streams[sp].socketID in SocketIDs(streams, specs)
  {
    var n := |specs| - 1;
    if sp in specs[..n] {
      SocketListed(streams, specs[..n], sp);
    } else {
      assert sp == specs[n];
    }
  }

  predicate InPhase(sockets: map<string, Socket>, id: string, open: bool) {
    id in sockets && if open then sockets[id].phase == CircuitOpen else sockets[id].phase != Connected
  }

  lemma {:induction false} FirstInPhaseExact(sockets: map<string, Socket>, ids: seq<string>, open: bool)
    ensures FirstInPhase(sockets, ids, open).Some? ==>
      FirstInPhase(sockets, ids, open).value in ids && InPhase(sockets, FirstInPhase(sockets, ids, open).value, open)
    ensures (exists id <- ids :: InPhase(sockets, id, open)) ==> FirstInPhase(sockets, ids, open).Some?
  {
    if ids != [] {
      FirstInPhaseExact(sockets, ids[1..], open);
    }
  }

  /** A registered stream is on a socket in this phase; one with no name is on none. */
  predicate SomeInPhase(t: State, open: bool) {
    exists sp <- t.streams :: OnPhase(t, sp, open)
  }

  predicate OnPhase(t: State, sp: StreamSpec, open: bool)
    requires sp in t.streams
  {
    t.streams[sp].socketID != "" && InPhase(t.sockets, t.streams[sp].socketID, open)
  }

  lemma VenuePhase(t: State, open: bool)
    requires WellFormed(t)
    ensures FirstInPhase(t.sockets, SocketIDs(t.streams, Specifications(t.order)), open).Some? <==> SomeInPhase(t, open)
  {
    var ids := SocketIDs(t.streams, Specifications(t.order));
    FirstInPhaseExact(t.sockets, ids, open);
    if FirstInPhase(t.sockets, ids, open).Some? {
      var id := FirstInPhase(t.sockets, ids, open).value;
      var sp :| sp in t.streams && t.streams[sp].socketID == id;
      assert OnPhase(t, sp, open);
    }
    if sp :| sp in t.streams && OnPhase(t, sp, open) {
      assert Listed(t, sp);
      var i :| 0 <= i < |t.order| && sp in t.order[i].streams;
      Specified(t.order, i, sp);
      SocketListed(t.streams, Specifications(t.order), sp);
    }
  }

  /** What the venue alone makes of one stream. */
  function VenuePart(o: Options, t: State, sp: StreamSpec): Status
    requires sp in t.streams
  {
    VenueOnly(o, t, SocketOf(t, t.streams[sp])).status
  }

  predicate VenueStale(o: Options, t: State) {
    !t.metadataOK || SomeInPhase(t, true) || Beyond(t.skewMS, o.skewStaleMS)
  }

  predicate VenueDegraded(o: Options, t: State) {
    t.leaked > 0 || SomeInPhase(t, false) || Beyond(t.skewMS, o.skewDegradedMS)
  }

  /** What the phases of its sockets, and everything streams share, leave of the venue's status. */
  lemma VenueByPhases(o: Options, t: State)
    requires WellFormed(t)
    ensures ComputeVenue(o, t).status ==
      if VenueStale(o, t) then Stale else if VenueDegraded(o, t) then Degraded else Healthy
  {
    VenuePhase(t, true);
    VenuePhase(t, false);
    FirstInPhaseExact(t.sockets, SocketIDs(t.streams, Specifications(t.order)), false);
  }

  /** A stream without a socket reads the state reported under the empty name, which the venue does not
      look at: here it is worse than all that the venue does look at. */
  predicate Unseen(o: Options, t: State, sp: StreamSpec)
    requires sp in t.streams
  {
    && t.streams[sp].socketID == "" && "" in t.sockets && !VenueStale(o, t)
    && (t.sockets[""].phase == CircuitOpen || (t.sockets[""].phase != Connected && !VenueDegraded(o, t)))
  }

  /** The venue is reported no better off than metadata, socket and clock make of a stream, exactly
      unless the stream has no socket and a state reported under no name is worse. */
  lemma VenueCovers(o: Options, t: State, sp: StreamSpec)
    requires WellFormed(t) && sp in t.streams
    ensures VenuePart(o, t, sp).Rank() <= ComputeVenue(o, t).status.Rank() <==> !Unseen(o, t, sp)
  {
    VenueByPhases(o, t);
    if t.streams[sp].socketID != "" {
      assert OnPhase(t, sp, true) ==> SomeInPhase(t, true);
      assert OnPhase(t, sp, false) ==> SomeInPhase(t, false);
    }
  }

  /** With nothing leaked it is no worse off than some stream is. */
  lemma VenueEarned(o: Options, t: State) returns (sp: StreamSpec)
    requires WellFormed(t) && t.streams != map[] && t.leaked <= 0
    ensures sp in t.streams && ComputeVenue(o, t).status.Rank() <= VenuePart(o, t, sp).Rank()
  {
    VenueByPhases(o, t);
    if SomeInPhase(t, true) {
      sp :| sp in t.streams && OnPhase(t, sp, true);
    } else if SomeInPhase(t, false) {
      sp :| sp in t.streams && OnPhase(t, sp, false);
    } else {
      sp :| sp in t.streams;
    }
    assert sp in t.streams;
  }

  /** A stream with no trouble of its own is exactly as well as the venue makes it. */
  lemma OwnTrouble(o: Options, t: State, sp: StreamSpec, now: int)
    requires sp in t.streams
    ensures
      var s := t.streams[sp];
      VenuePart(o, t, sp).Rank() <= Compute(o, t, s, now).status.Rank()
      && (s.fallbackFail == "" && s.fallbackSince == None && !s.expired && !s.rejected
          ==> Compute(o, t, s, now) == VenueOnly(o, t, SocketOf(t, s)))
  {
  }
}
