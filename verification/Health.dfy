/** What decides whether a price may be trusted: the state behind every stream, the status computed
    from it, and the cache of statuses that events keep up to date. Times are nanoseconds. */
module Health {
  import opened Wrappers
  import opened Core
  import opened Decimal
  import opened Keys

  const MIN_INT64 := -0x8000_0000_0000_0000
  const SECOND := 1_000_000_000

  datatype Status = Unspecified | Healthy | Degraded | Stale {
    function Rank(): nat {
      match this case Unspecified => 0 case Healthy => 1 case Degraded => 2 case Stale => 3
    }
  }

  datatype Verdict = Verdict(status: Status, reason: string)

  const UNREPORTED := Verdict(Unspecified, "")

  datatype Source = Websocket | Rest

  datatype Phase = Connected | Dialing | CircuitOpen {
    function Name(): string {
      match this case Connected => "connected" case Dialing => "dialing" case CircuitOpen => "circuit_open"
    }
  }

  datatype Socket = Socket(phase: Phase, reason: string)

  /** durationText is how a duration prints. */
  datatype Options = Options(venue: string, fallbackMaxDuration: int, skewDegradedMS: int, skewStaleMS: int,
                             metadataRequired: bool, durationText: int -> string)

  /** One (instrument, channel). An empty fallbackFail means fallback has not failed. */
  datatype Stream = Stream(socketID: string, lastMessage: Option<int>, source: Source, restarts: nat,
                           expired: bool, rejected: bool, fallbackSince: Option<int>, fallbackFail: string,
                           cached: Verdict)

  /** The channels that share one health key, in registration order. */
  datatype Instrument = Instrument(reference: InstrumentRef, venueSymbol: string, key: string,
                                   streams: seq<StreamSpec>, cached: Verdict)

  datatype State = State(streams: map<StreamSpec, Stream>, order: seq<Instrument>, sockets: map<string, Socket>,
                         skewMS: int, leaked: int, reconnects: nat, metadataOK: bool, metadataReason: string,
                         venue: Verdict)

  function Fresh(o: Options): State {
    State(map[], [], map[], 0, 0, 0, !o.metadataRequired, "metadata unavailable", UNREPORTED)
  }

  // ---------- status ----------

  /** Negation wraps at the smallest int64. */
  function Absolute(v: int): int {
    if v < 0 && v != MIN_INT64 then -v else v
  }

  function SocketOf(t: State, s: Stream): Option<Socket> {
    if s.socketID in t.sockets then Some(t.sockets[s.socketID]) else None
  }

  predicate Beyond(skewMS: int, threshold: int) {
    threshold > 0 && Absolute(skewMS) >= threshold
  }

  function SkewText(skewMS: int): string {
    "clock skew " + FormatInt(skewMS) + "ms"
  }

  /** The status of a stream, from its own state and what it shares with the venue. */
  function Judge(o: Options, t: State, socket: Option<Socket>, s: Stream, now: int): Verdict {
    if !t.metadataOK then Verdict(Stale, t.metadataReason)
    else if socket.Some? && socket.value.phase == CircuitOpen then Verdict(Stale, "circuit open")
    else if s.fallbackFail != "" then Verdict(Stale, s.fallbackFail)
    else if Overstayed(o, s, now) then
      Verdict(Stale, "rest fallback for " + o.durationText((now - s.fallbackSince.value) / SECOND * SECOND))
    else if Beyond(t.skewMS, o.skewStaleMS) then Verdict(Stale, SkewText(t.skewMS))
    else if s.expired then Verdict(Stale, "key expired")
    else if s.fallbackSince.Some? then Verdict(Degraded, "rest fallback")
    else if socket.Some? && socket.value.phase != Connected then Verdict(Degraded, socket.value.reason)
    else if Beyond(t.skewMS, o.skewDegradedMS) then Verdict(Degraded, SkewText(t.skewMS))
    else if s.rejected then Verdict(Degraded, "frame rejected")
    else Verdict(Healthy, "")
  }

  /** On fallback for longer than it may be. */
  predicate Overstayed(o: Options, s: Stream, now: int) {
    s.fallbackSince.Some? && o.fallbackMaxDuration > 0 && now - s.fallbackSince.value >= o.fallbackMaxDuration
  }

  function Compute(o: Options, t: State, s: Stream, now: int): Verdict {
    Judge(o, t, SocketOf(t, s), s, now)
  }

  /** The status that metadata, the socket and the clock alone give. */
  function VenueOnly(o: Options, t: State, socket: Option<Socket>): Verdict {
    if !t.metadataOK then Verdict(Stale, t.metadataReason)
    else if socket.Some? && socket.value.phase == CircuitOpen then Verdict(Stale, "circuit open")
    else if Beyond(t.skewMS, o.skewStaleMS) then Verdict(Stale, SkewText(t.skewMS))
    else if socket.Some? && socket.value.phase != Connected then Verdict(Degraded, socket.value.reason)
    else if Beyond(t.skewMS, o.skewDegradedMS) then Verdict(Degraded, SkewText(t.skewMS))
    else Verdict(Healthy, "")
  }

  /** Every registered stream, instrument by instrument. */
  function Specifications(order: seq<Instrument>): seq<StreamSpec> {
    if order == [] then [] else Specifications(order[..|order| - 1]) + order[|order| - 1].streams
  }

  /** The sockets of some streams, in order of first appearance. */
  function SocketIDs(streams: map<StreamSpec, Stream>, specs: seq<StreamSpec>): (ids: seq<string>)
    ensures forall id <- ids :: id != "" && exists sp :: sp in streams && streams[sp].socketID == id
  {
    if specs == [] then []
    else
      var ids, sp := SocketIDs(streams, specs[..|specs| - 1]), specs[|specs| - 1];
      if sp in streams && streams[sp].socketID != "" && streams[sp].socketID !in ids
      then ids + [streams[sp].socketID] else ids
  }

  function FirstInPhase(sockets: map<string, Socket>, ids: seq<string>, open: bool): Option<string> {
    if ids == [] then None
    else if && ids[0] in sockets
            && (if open then sockets[ids[0]].phase == CircuitOpen else sockets[ids[0]].phase != Connected)
    then Some(ids[0])
    else FirstInPhase(sockets, ids[1..], open)
  }

  function ComputeVenue(o: Options, t: State): Verdict {
    var ids := SocketIDs(t.streams, Specifications(t.order));
    var open, down := FirstInPhase(t.sockets, ids, true), FirstInPhase(t.sockets, ids, false);
    if !t.metadataOK then Verdict(Stale, t.metadataReason)
    else if open.Some? then Verdict(Stale, "circuit open: " + open.value)
    else if Beyond(t.skewMS, o.skewStaleMS) then Verdict(Stale, SkewText(t.skewMS))
    else if t.leaked > 0 then Verdict(Degraded, "leaked goroutines: " + FormatInt(t.leaked))
    else if down.Some? && down.value in t.sockets then
      var socket := t.sockets[down.value];
      Verdict(Degraded, "socket " + down.value + " " + socket.phase.Name() + ": " + socket.reason)
    else if Beyond(t.skewMS, o.skewDegradedMS) then Verdict(Degraded, SkewText(t.skewMS))
    else Verdict(Healthy, "")
  }

  /** The worst of some channels' cached statuses, named by the channel it came from. */
  function Worst(streams: map<StreamSpec, Stream>, specs: seq<StreamSpec>): Verdict {
    if specs == [] then Verdict(Healthy, "")
    else
      var worst, sp := Worst(streams, specs[..|specs| - 1]), specs[|specs| - 1];
      if sp in streams && streams[sp].cached.status.Rank() > worst.status.Rank()
      then Verdict(streams[sp].cached.status, ChannelName(sp.channel) + ": " + streams[sp].cached.reason)
      else worst
  }

  // ---------- refreshing the cache ----------

  datatype Snapshot = Snapshot(key: string, verdict: Verdict)

  datatype Outcome = Outcome(state: State, moved: seq<Snapshot>)

  function VenueHealthKey(o: Options): string {
    VenueKey(o.venue, "health")
  }

  function RefreshStreams(o: Options, t: State, touched: set<InstrumentRef>, now: int):
    (streams: map<StreamSpec, Stream>)
    ensures streams.Keys == t.streams.Keys
  {
    map sp | sp in t.streams ::
      if sp.instrument in touched
      then t.streams[sp].(cached := Compute(o, t, t.streams[sp], now))
      else t.streams[sp]
  }

  function RefreshOrder(t: State, streams: map<StreamSpec, Stream>, touched: set<InstrumentRef>):
    (order: seq<Instrument>)
    ensures |order| == |t.order|
  {
    seq(|t.order|, i requires 0 <= i < |t.order| =>
      if t.order[i].reference in touched
      then t.order[i].(cached := Worst(streams, t.order[i].streams))
      else t.order[i])
  }

  /** A snapshot of every instrument whose cached status changed. */
  function Moves(before: seq<Instrument>, after: seq<Instrument>): seq<Snapshot>
    requires |before| == |after|
  {
    if before == [] then []
    else
      var n := |before| - 1;
      Moves(before[..n], after[..n])
      + if after[n].cached != before[n].cached then [Snapshot(after[n].key, after[n].cached)] else []
  }

  function Refresh(o: Options, t: State, touched: set<InstrumentRef>, now: int): Outcome {
    var streams := RefreshStreams(o, t, touched, now);
    var order := RefreshOrder(t, streams, touched);
    var venue := ComputeVenue(o, t);
    Outcome(t.(streams := streams, order := order, venue := venue),
            Moves(t.order, order) + if venue != t.venue then [Snapshot(VenueHealthKey(o), venue)] else [])
  }

  // ---------- events ----------

  datatype Event =
    | Received(sp: StreamSpec)
    | Polled(sp: StreamSpec)
    | KeyExpired(sp: StreamSpec)
    | FrameRejected(socketID: string)
    | StreamRestarted(sp: StreamSpec)
    | FallbackEngaged(sp: StreamSpec)
    | FallbackFailed(sp: StreamSpec, reason: string)
    | FallbackDisengaged(sp: StreamSpec)
    | MetadataState(ok: bool, reason: string)
    | SocketState(socketID: string, phase: Phase, reason: string)
    | Reconnected(socketID: string)
    | ClockSkew(milliseconds: int)
    | Leaked(n: int)

  /** What an event does to the state, and the instruments whose streams may have moved. */
  datatype Change = Change(state: State, touched: set<InstrumentRef>)

  function All(t: State): set<InstrumentRef> {
    set i | 0 <= i < |t.order| :: t.order[i].reference
  }

  function With(t: State, sp: StreamSpec, s: Stream): Change {
    Change(t.(streams := t.streams[sp := s]), {sp.instrument})
  }

  /** Every instrument with a stream on one socket. */
  function InstrumentsOn(t: State, id: string): set<InstrumentRef> {
    set sp | sp in t.streams && t.streams[sp].socketID == id :: sp.instrument
  }

  predicate Rejects(s: Stream, id: string) {
    s.socketID == id && !s.rejected
  }

  /** Marks every stream the socket carries: a frame that did not parse names no channel. */
  function Reject(t: State, id: string): Change {
    Change(t.(streams := map sp | sp in t.streams ::
                if Rejects(t.streams[sp], id) then t.streams[sp].(rejected := true) else t.streams[sp]),
           set sp | sp in t.streams && Rejects(t.streams[sp], id) :: sp.instrument)
  }

  predicate AboutStream(e: Event) {
    e.Received? || e.Polled? || e.KeyExpired? || e.StreamRestarted? || e.FallbackEngaged?
    || e.FallbackFailed? || e.FallbackDisengaged?
  }

  function MutateStream(t: State, e: Event, now: int): Change
    requires AboutStream(e)
  {
    if e.sp !in t.streams then Change(t, {})
    else
      var s := t.streams[e.sp];
      match e
      case Received(sp) =>
        With(t, sp, s.(lastMessage := Some(now), source := Websocket, expired := false, rejected := false))
      case Polled(sp) =>
        With(t, sp, s.(lastMessage := Some(now), source := Rest, expired := false, fallbackFail := ""))
      case KeyExpired(sp) => With(t, sp, s.(expired := true))
      case StreamRestarted(sp) => With(t, sp, s.(restarts := s.restarts + 1))
      case FallbackEngaged(sp) =>
        if s.fallbackSince.Some? then Change(t, {})
        else With(t, sp, s.(fallbackSince := Some(now), source := Rest))
      case FallbackFailed(sp, reason) =>
        if s.fallbackFail == reason then Change(t, {}) else With(t, sp, s.(fallbackFail := reason))
      case FallbackDisengaged(sp) =>
        if s.fallbackSince == None && s.fallbackFail == "" then Change(t, {})
        else With(t, sp, s.(fallbackSince := None, fallbackFail := "", source := Websocket))
  }

  function Mutate(t: State, e: Event, now: int): Change {
    match e
    case FrameRejected(id) => Reject(t, id)
    case MetadataState(ok, reason) =>
      if t.metadataOK == ok && (ok || t.metadataReason == reason) then Change(t, {})
      else Change(t.(metadataOK := ok, metadataReason := if ok then t.metadataReason else reason), All(t))
    case SocketState(id, phase, reason) =>
      if id in t.sockets && t.sockets[id] == Socket(phase, reason) then Change(t, {})
      else Change(t.(sockets := t.sockets[id := Socket(phase, reason)]), InstrumentsOn(t, id))
    case Reconnected(_) => Change(t.(reconnects := t.reconnects + 1), {})
    case ClockSkew(ms) => if t.skewMS == ms then Change(t, {}) else Change(t.(skewMS := ms), All(t))
    case Leaked(n) => Change(t.(leaked := n), {})
    case _ => MutateStream(t, e, now)
  }

  /** One event: change the state, refresh what it touched, publish what moved. */
  function Update(o: Options, t: State, e: Event, now: int): Outcome {
    if e.MetadataState? && !o.metadataRequired then Outcome(t, [])
    else
      var c := Mutate(t, e, now);
      Refresh(o, c.state, c.touched, now)
  }

  // ---------- registration and heartbeat ----------

  function HealthKey(o: Options, reference: InstrumentRef): string {
    Key(o.venue, reference.marketType, reference.Canonical(), CHANNEL_HEALTH)
  }

  function Registered(o: Options, t: State, sp: StreamSpec, venueSymbol: string, id: string): Change {
    var order := if sp.instrument in All(t) then t.order
                 else t.order + [Instrument(sp.instrument, venueSymbol, HealthKey(o, sp.instrument), [], UNREPORTED)];
    var order' := seq(|order|, i requires 0 <= i < |order| =>
      if order[i].reference == sp.instrument then order[i].(streams := order[i].streams + [sp]) else order[i]);
    var s := Stream(id, None, Websocket, 0, false, false, None, "", UNREPORTED);
    var sockets := if id in t.sockets || id == "" then t.sockets
                   else t.sockets[id := Socket(Dialing, "not yet connected")];
    Change(t.(streams := t.streams[sp := s], order := order', sockets := sockets), {sp.instrument})
  }

  /** Declares a stream. What moves is not published: the heartbeat does that. */
  function Register(o: Options, t: State, sp: StreamSpec, venueSymbol: string, id: string, now: int): State {
    if sp in t.streams then t
    else
      var c := Registered(o, t, sp, venueSymbol, id);
      Refresh(o, c.state, c.touched, now).state
  }

  function SnapshotAll(o: Options, t: State): seq<Snapshot> {
    seq(|t.order|, i requires 0 <= i < |t.order| => Snapshot(t.order[i].key, t.order[i].cached))
    + [Snapshot(VenueHealthKey(o), t.venue)]
  }

  /** Refreshes every stream and publishes the whole set. */
  function Beat(o: Options, t: State, now: int): Outcome {
    var t' := Refresh(o, t, All(t), now).state;
    Outcome(t', SnapshotAll(o, t'))
  }
}
