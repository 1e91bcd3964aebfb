/** What a status and its reason say: which troubles a stream or its venue has, which of them stop a
    consumer from trading, and which one is named when there are several. */
module HealthReasons {
  import opened Wrappers
  import opened Core
  import opened Decimal
  import opened Health
  import opened HealthCoherence
  import opened HealthSummary

  // ---------- one stream ----------

  datatype Trouble =
    | NoMetadata
    | Refused
    | Failed
    | Overlong
    | FarOff
    | Gone
    | Resting
    | Down
    | Off
    | Garbled

  /** The lower, the more it matters. */
  function Urgency(p: Trouble): nat {
    match p
    case NoMetadata => 0
    case Refused => 1
    case Failed => 2
    case Overlong => 3
    case FarOff => 4
    case Gone => 5
    case Resting => 6
    case Down => 7
    case Off => 8
    case Garbled => 9
  }

  /** Whether it says to stop trading, or only to beware. */
  predicate Stops(p: Trouble) {
    p in {NoMetadata, Refused, Failed, Overlong, FarOff, Gone}
  }

  /** The venue's clock is this far ahead or behind; the smallest int64 has no counterpart and never is. */
  predicate Apart(skewMS: int, limit: int) {
    limit > 0 && (skewMS >= limit || (skewMS <= -limit && skewMS != MIN_INT64))
  }

  predicate Has(o: Options, t: State, s: Stream, now: int, p: Trouble) {
    match p
    case NoMetadata => !t.metadataOK
    case Refused => s.socketID in t.sockets && t.sockets[s.socketID].phase == CircuitOpen
    case Failed => s.fallbackFail != ""
    case Overlong =>
      s.fallbackSince.Some? && o.fallbackMaxDuration > 0 && now >= s.fallbackSince.value + o.fallbackMaxDuration
    case FarOff => Apart(t.skewMS, o.skewStaleMS)
    case Gone => s.expired
    case Resting => s.fallbackSince.Some?
    case Down => s.socketID in t.sockets && t.sockets[s.socketID].phase != Connected
    case Off => Apart(t.skewMS, o.skewDegradedMS)
    case Garbled => s.rejected
  }

  function Says(o: Options, t: State, s: Stream, now: int, p: Trouble): string
    requires Has(o, t, s, now, p)
  {
    match p
    case NoMetadata => t.metadataReason
    case Refused => "circuit open"
    case Failed => s.fallbackFail
    case Overlong => "rest fallback for " + o.durationText((now - s.fallbackSince.value) / SECOND * SECOND)
    case FarOff => "clock skew " + FormatInt(t.skewMS) + "ms"
    case Gone => "key expired"
    case Resting => "rest fallback"
    case Down => t.sockets[s.socketID].reason
    case Off => "clock skew " + FormatInt(t.skewMS) + "ms"
    case Garbled => "frame rejected"
  }

  ghost predicate Foremost(o: Options, t: State, s: Stream, now: int, p: Trouble) {
    Has(o, t, s, now, p) && forall q :: Has(o, t, s, now, q) ==> Urgency(p) <= Urgency(q)
  }

  /** A stream is stale exactly when some trouble it has says to stop, healthy exactly when it has none,
      and degraded otherwise; and the reason given is that of the foremost. */
  lemma StatusExact(o: Options, t: State, s: Stream, now: int)
    ensures
      var v := Compute(o, t, s, now);
      && (v.status == Stale <==> exists p :: Has(o, t, s, now, p) && Stops(p))
      && (v == Verdict(Healthy, "") <==> forall p :: !Has(o, t, s, now, p))
      && v.status in {Healthy, Degraded, Stale}
      && (v.status != Healthy ==> exists p :: Foremost(o, t, s, now, p))
      && (forall p :: Foremost(o, t, s, now, p) ==> v.reason == Says(o, t, s, now, p))
  {
    var first := FirstFrom(o, t, s, now, 0);
    if first.Some? {
      assert Foremost(o, t, s, now, first.value);
      FirstSays(o, t, s, now, first.value);
      StopsFirst(o, t, s, now, first.value);
    } else {
      NoTrouble(o, t, s, now);
    }
    forall p | Foremost(o, t, s, now, p)
      ensures Compute(o, t, s, now).reason == Says(o, t, s, now, p)
    {
      FirstSays(o, t, s, now, p);
    }
  }

  function Nth(i: nat): (p: Trouble)
    requires i < 10
    ensures Urgency(p) == i && forall q :: Urgency(q) == i ==> q == p
  {
    [NoMetadata, Refused, Failed, Overlong, FarOff, Gone, Resting, Down, Off, Garbled][i]
  }

  /** The foremost of the troubles from the i-th on. */
  function FirstFrom(o: Options, t: State, s: Stream, now: int, i: nat): (p: Option<Trouble>)
    requires i <= 10
    ensures p == None ==> forall q :: Has(o, t, s, now, q) ==> Urgency(q) < i
    ensures p.Some? ==> Has(o, t, s, now, p.value)
    ensures p.Some? ==> forall q :: Has(o, t, s, now, q) ==> Urgency(q) < i || Urgency(p.value) <= Urgency(q)
    decreases 10 - i
  {
    if i == 10 then None
    else if Has(o, t, s, now, Nth(i)) then Some(Nth(i))
    else FirstFrom(o, t, s, now, i + 1)
  }

  ghost predicate ForemostSays(o: Options, t: State, s: Stream, now: int, p: Trouble) {
    && Has(o, t, s, now, p)
    && Compute(o, t, s, now) == Verdict(if Stops(p) then Stale else Degraded, Says(o, t, s, now, p))
  }

  lemma FirstSays(o: Options, t: State, s: Stream, now: int, p: Trouble)
    requires Foremost(o, t, s, now, p)
    ensures ForemostSays(o, t, s, now, p)
  {
    forall i | 0 <= i < Urgency(p) ensures !Has(o, t, s, now, Nth(i)) {
    }
    assert Nth(0) == NoMetadata && Nth(1) == Refused && Nth(2) == Failed && Nth(3) == Overlong && Nth(4) == FarOff;
    assert Nth(5) == Gone && Nth(6) == Resting && Nth(7) == Down && Nth(8) == Off;
  }

  lemma NoTrouble(o: Options, t: State, s: Stream, now: int)
    requires forall p :: !Has(o, t, s, now, p)
    ensures Compute(o, t, s, now) == Verdict(Healthy, "")
  {
    forall i | 0 <= i < 10 ensures !Has(o, t, s, now, Nth(i)) {
    }
    assert Nth(0) == NoMetadata && Nth(1) == Refused && Nth(2) == Failed && Nth(3) == Overlong && Nth(4) == FarOff;
    assert Nth(5) == Gone && Nth(6) == Resting && Nth(7) == Down && Nth(8) == Off && Nth(9) == Garbled;
  }

  lemma StopsFirst(o: Options, t: State, s: Stream, now: int, p: Trouble)
    requires Foremost(o, t, s, now, p)
    ensures Stops(p) <==> exists q :: Has(o, t, s, now, q) && Stops(q)
  {
    forall q | Has(o, t, s, now, q) && Stops(q) ensures Stops(p) {
      StopsUrgent(p);
      StopsUrgent(q);
    }
  }

  lemma StopsUrgent(p: Trouble)
    ensures Stops(p) <==> Urgency(p) <= 5
  {
  }

  /** A fallback that goes on is a failure: where a stream has no other trouble that says to stop, it
      becomes stale exactly when its fallback has gone on for as long as allowed, whatever it serves. */
  lemma OverlongExact(o: Options, t: State, s: Stream, now: int)
    requires s.fallbackSince.Some? && Compute(o, t, s.(fallbackSince := None), now).status != Stale
    ensures Compute(o, t, s, now).status == Stale <==>
      o.fallbackMaxDuration > 0 && now >= s.fallbackSince.value + o.fallbackMaxDuration
  {
  }

  // ---------- the venue ----------

  /** The j-th stream of the i-th instrument comes earlier, in registration order, than the l-th of the k-th. */
  predicate Earlier(i: nat, j: nat, k: nat, l: nat) {
    i < k || (i == k && j < l)
  }

  predicate OnAt(t: State, i: nat, j: nat, open: bool)
    requires i < |t.order| && j < |t.order[i].streams|
  {
    t.order[i].streams[j] in t.streams && OnPhase(t, t.order[i].streams[j], open)
  }

  /** The first stream, in registration order, that is on a socket in this phase is at i and j. */
  ghost predicate Leading(t: State, i: nat, j: nat, open: bool)
    requires i < |t.order| && j < |t.order[i].streams|
  {
    && OnAt(t, i, j, open)
    && forall k: nat, l: nat ::
         k < |t.order| && l < |t.order[k].streams| && Earlier(k, l, i, j) ==> !OnAt(t, k, l, open)
  }

  lemma {:induction false} FirstAppend(sockets: map<string, Socket>, ids: seq<string>, id: string, open: bool)
    ensures FirstInPhase(sockets, ids + [id], open) ==
      if FirstInPhase(sockets, ids, open).Some? then FirstInPhase(sockets, ids, open)
      else if InPhase(sockets, id, open) then Some(id) else None
  {
    if ids == [] {
      assert ids + [id] == [id];
    } else {
      assert (ids + [id])[1..] == ids[1..] + [id];
      FirstAppend(sockets, ids[1..], id, open);
    }
  }

  /** The k-th of these streams is the first on a socket in this phase. */
  ghost predicate FirstOn(t: State, specs: seq<StreamSpec>, k: nat, open: bool) {
    && k < |specs| && specs[k] in t.streams && OnPhase(t, specs[k], open)
    && forall l :: 0 <= l < k ==> specs[l] in t.streams && !OnPhase(t, specs[l], open)
  }

  lemma {:induction false} FirstOfStreams(t: State, specs: seq<StreamSpec>, open: bool) returns (k: nat)
    requires forall sp <- specs :: sp in t.streams
    requires FirstInPhase(t.sockets, SocketIDs(t.streams, specs), open).Some?
    ensures FirstOn(t, specs, k, open)
    ensures t.streams[specs[k]].socketID == FirstInPhase(t.sockets, SocketIDs(t.streams, specs), open).value
  {
    var n := |specs| - 1;
    var init, id := specs[..n], t.streams[specs[n]].socketID;
    var ids := SocketIDs(t.streams, init);
    FirstAppend(t.sockets, ids, id, open);
    if FirstInPhase(t.sockets, ids, open).Some? {
      k := FirstOfStreams(t, init, open);
    } else {
      k := n;
      forall l | 0 <= l < n ensures !OnPhase(t, specs[l], open) {
        assert init[l] == specs[l];
        NoneListed(t, init, specs[l], open);
      }
    }
  }

  lemma NoneListed(t: State, specs: seq<StreamSpec>, sp: StreamSpec, open: bool)
    requires sp in specs && sp in t.streams
    requires FirstInPhase(t.sockets, SocketIDs(t.streams, specs), open) == None
    ensures !OnPhase(t, sp, open)
  {
    FirstInPhaseExact(t.sockets, SocketIDs(t.streams, specs), open);
    if t.streams[sp].socketID != "" {
      SocketListed(t.streams, specs, sp);
    }
  }

  /** The streams are taken instrument by instrument, in registration order. */
  lemma {:induction false} Position(order: seq<Instrument>, k: nat) returns (i: nat, j: nat)
    requires k < |Specifications(order)|
    ensures i < |order| && j < |order[i].streams| && order[i].streams[j] == Specifications(order)[k]
    ensures forall m: nat, l: nat :: m < |order| && l < |order[m].streams| && Earlier(m, l, i, j) ==>
      order[m].streams[l] in Specifications(order)[..k]
  {
    var n := |order| - 1;
    var before, all := Specifications(order[..n]), Specifications(order);
    if k < |before| {
      i, j := Position(order[..n], k);
      assert before[..k] == all[..k];
    } else {
      i, j := n, k - |before|;
      forall m: nat, l: nat | m < |order| && l < |order[m].streams| && Earlier(m, l, i, j)
        ensures order[m].streams[l] in all[..k]
      {
        if m < n {
          Specified(order[..n], m, order[m].streams[l]);
          assert before == all[..k][..|before|];
        } else {
          assert all[..k][|before| + l] == order[m].streams[l];
        }
      }
    }
  }

  lemma LeadingSocket(t: State, open: bool) returns (i: nat, j: nat)
    requires WellFormed(t) && SomeInPhase(t, open)
    ensures i < |t.order| && j < |t.order[i].streams| && Leading(t, i, j, open)
    ensures FirstInPhase(t.sockets, SocketIDs(t.streams, Specifications(t.order)), open)
         == Some(t.streams[t.order[i].streams[j]].socketID)
  {
    var specs := Specifications(t.order);
    VenuePhase(t, open);
    AllKnown(t);
    var k := FirstOfStreams(t, specs, open);
    i, j := Position(t.order, k);
    forall m: nat, l: nat | m < |t.order| && l < |t.order[m].streams| && Earlier(m, l, i, j)
      ensures !OnAt(t, m, l, open)
    {
      assert t.order[m].streams[l] in specs[..k];
    }
  }

  lemma {:induction false} SpecificationsKnown(t: State, order: seq<Instrument>)
    requires forall i :: 0 <= i < |order| ==> Known(t, order[i])
    ensures forall sp <- Specifications(order) :: sp in t.streams
  {
    if order != [] {
      SpecificationsKnown(t, order[..|order| - 1]);
    }
  }

  predicate Known(t: State, instrument: Instrument) {
    forall sp <- instrument.streams :: sp in t.streams
  }

  lemma AllKnown(t: State)
    requires WellFormed(t)
    ensures forall sp <- Specifications(t.order) :: sp in t.streams
  {
    forall i | 0 <= i < |t.order| ensures Known(t, t.order[i]) {
      assert Owned(t, i);
    }
    SpecificationsKnown(t, t.order);
  }

  /** Nothing the venue knows of says to stop. */
  predicate Tradable(o: Options, t: State) {
    t.metadataOK && !SomeInPhase(t, true) && !Apart(t.skewMS, o.skewStaleMS)
  }

  function LeadingID(t: State, i: nat, j: nat): string
    requires i < |t.order| && j < |t.order[i].streams| && t.order[i].streams[j] in t.streams
  {
    t.streams[t.order[i].streams[j]].socketID
  }

  /** The venue is stale for want of metadata, then for an open circuit, then for its clock, and for nothing
      else. Of several open sockets it names the one registered first. */
  lemma VenueStopped(o: Options, t: State)
    requires WellFormed(t)
    ensures
      var v := ComputeVenue(o, t);
      && (!t.metadataOK ==> v == Verdict(Stale, t.metadataReason))
      && (t.metadataOK && SomeInPhase(t, true) ==> exists i, j ::
            && 0 <= i < |t.order| && 0 <= j < |t.order[i].streams| && Leading(t, i, j, true)
            && v == Verdict(Stale, "circuit open: " + LeadingID(t, i, j)))
      && (t.metadataOK && !SomeInPhase(t, true) && Apart(t.skewMS, o.skewStaleMS) ==>
            v == Verdict(Stale, "clock skew " + FormatInt(t.skewMS) + "ms"))
      && (v.status == Stale <==> !Tradable(o, t))
  {
    VenuePhase(t, true);
    if SomeInPhase(t, true) {
      var i, j := LeadingSocket(t, true);
    }
  }

  /** Otherwise it is degraded for leaked goroutines, then for a socket not connected, then for its clock. */
  lemma VenueWarned(o: Options, t: State)
    requires WellFormed(t) && Tradable(o, t)
    ensures
      var v := ComputeVenue(o, t);
      && (t.leaked > 0 ==> v == Verdict(Degraded, "leaked goroutines: " + FormatInt(t.leaked)))
      && (t.leaked <= 0 && SomeInPhase(t, false) ==> exists i, j ::
            && 0 <= i < |t.order| && 0 <= j < |t.order[i].streams| && Leading(t, i, j, false)
            && v == Verdict(Degraded, "socket " + LeadingID(t, i, j) + " dialing: "
                                      + t.sockets[LeadingID(t, i, j)].reason))
      && (t.leaked <= 0 && !SomeInPhase(t, false) ==>
            v == if Apart(t.skewMS, o.skewDegradedMS)
                 then Verdict(Degraded, "clock skew " + FormatInt(t.skewMS) + "ms") else Verdict(Healthy, ""))
  {
    VenuePhase(t, true);
    VenuePhase(t, false);
    if SomeInPhase(t, false) {
      var i, j := LeadingSocket(t, false);
      LeadingDials(t, i, j);
    }
  }

  lemma LeadingDials(t: State, i: nat, j: nat)
    requires i < |t.order| && j < |t.order[i].streams| && OnAt(t, i, j, false) && !SomeInPhase(t, true)
    ensures t.sockets[LeadingID(t, i, j)].phase.Name() == "dialing"
  {
    assert !OnPhase(t, t.order[i].streams[j], true);
  }
}
