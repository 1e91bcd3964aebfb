/** REST fallback joined to the tracker and to the publish path, one event at a time: what an expired
    key, a poll and a websocket message do, and what every run of them keeps. */
module Fallback {
  import opened Wrappers
  import opened Core
  import opened Health
  import opened HealthCoherence
  import opened Sets

  const REASON_CAPACITY := "fallback at capacity"
  const REASON_POLL := "rest poll failed"
  const REASON_EMPTY := "rest returned no value"

  /** The watcher's limit, and the streams it watches. */
  datatype Settings = Settings(health: Health.Options, maxConcurrentPolls: nat, watched: set<StreamSpec>)

  /** A value published on a data key, with the status it carried. */
  datatype Publication = Publication(sp: StreamSpec, source: Source, verdict: Verdict)

  /** The tracker, the streams polled, those expired, and those some poller has lost: it may have a
      poll in flight still, and may begin another before it sees that it was stopped. */
  datatype Joint = Joint(tracker: State, active: set<StreamSpec>, expired: set<StreamSpec>,
                         retired: set<StreamSpec>, data: seq<Publication>)

  /** How the messages of one poll ended: all written, one with no envelope, or one not accepted. */
  datatype Ending = Done | NoEnvelope | WriteFailed

  /** A poll that could not fetch, or that wrote some messages and then ended. */
  datatype Poll = FetchFailed | Fetched(served: nat, ending: Ending)

  datatype Event =
    | Expired(sp: StreamSpec)
    | Polled(sp: StreamSpec, poll: Poll)
    | LatePolled(sp: StreamSpec, poll: Poll)
    | Message(sp: StreamSpec)
    | Other(event: Health.Event)
    | Heartbeat

  function Tell(s: Settings, j: Joint, e: Health.Event, now: int): Joint {
    j.(tracker := Update(s.health, j.tracker, e, now).state)
  }

  /** The status a value published now carries. */
  function StatusNow(s: Settings, t: State, sp: StreamSpec, now: int): Verdict {
    if sp in t.streams then Compute(s.health, t, t.streams[sp], now) else Verdict(Stale, "stream not registered")
  }

  function Emit(s: Settings, j: Joint, sp: StreamSpec, source: Source, now: int): Joint {
    j.(data := j.data + [Publication(sp, source, StatusNow(s, j.tracker, sp, now))])
  }

  function MarkExpired(s: Settings, j: Joint, sp: StreamSpec, now: int): Joint {
    if sp in j.expired then j
    else Tell(s, j.(expired := j.expired + {sp}), KeyExpired(sp), now)
  }

  /** Starts polling, unless it already is or too many are. */
  function Engage(s: Settings, j: Joint, sp: StreamSpec, now: int): Joint {
    if sp in j.active then j
    else if |j.active| >= s.maxConcurrentPolls then Tell(s, j, FallbackFailed(sp, REASON_CAPACITY), now)
    else Tell(s, j.(active := j.active + {sp}), FallbackEngaged(sp), now)
  }

  function Repeat(serve: Joint -> Joint, j: Joint, n: nat): Joint {
    if n == 0 then j else serve(Repeat(serve, j, n - 1))
  }

  function Serve(s: Settings, j: Joint, sp: StreamSpec, served: nat, now: int): Joint {
    Repeat((k: Joint) => ServeOne(s, k, sp, now), j, served)
  }

  /** One polled value: current again, then written with the status that leaves. */
  function ServeOne(s: Settings, j: Joint, sp: StreamSpec, now: int): Joint {
    Emit(s, Tell(s, j, Health.Event.Polled(sp), now), sp, Rest, now)
  }

  function FinishPoll(s: Settings, j: Joint, sp: StreamSpec, served: nat, ending: Ending, now: int): Joint {
    match ending
    case Done => if served > 0 then j else Tell(s, j, FallbackFailed(sp, REASON_EMPTY), now)
    case NoEnvelope => Tell(s, j, FallbackFailed(sp, REASON_EMPTY), now)
    case WriteFailed => Tell(s, Tell(s, j, Health.Event.Polled(sp), now), FallbackFailed(sp, REASON_POLL), now)
  }

  /** A poll by the poller that owns its stream. */
  function DoPoll(s: Settings, j: Joint, sp: StreamSpec, poll: Poll, now: int): Joint {
    if sp !in j.active then j
    else
      match poll
      case FetchFailed => Tell(s, j, FallbackFailed(sp, REASON_POLL), now)
      case Fetched(served, ending) => FinishPoll(s, Serve(s, j, sp, served, now), sp, served, ending, now)
  }

  /** The polls that end in failure with no message to write. */
  predicate Fails(poll: Poll) {
    poll == FetchFailed || poll == Fetched(0, Done)
  }

  /** A poll by a poller that has lost its stream: whether it still owns it is asked before a message
      is written, and not before a failure is reported. */
  function DoLatePoll(s: Settings, j: Joint, sp: StreamSpec, poll: Poll, now: int): Joint {
    if sp !in j.retired || !Fails(poll) then j
    else Tell(s, j, FallbackFailed(sp, if poll == FetchFailed then REASON_POLL else REASON_EMPTY), now)
  }

  /** A websocket message is the one thing that ends fallback. */
  function Note(s: Settings, j: Joint, sp: StreamSpec, now: int): Joint {
    var j' := j.(active := j.active - {sp}, expired := j.expired - {sp}, retired := j.retired + (j.active * {sp}));
    if sp in j.active || sp in j.expired then Tell(s, j', FallbackDisengaged(sp), now) else j'
  }

  /** The publish path of a websocket message: fallback ends first, then the arrival is recorded,
      then the value goes out with the status that leaves. */
  function Deliver(s: Settings, j: Joint, sp: StreamSpec, now: int): Joint {
    Emit(s, Tell(s, Note(s, j, sp, now), Received(sp), now), sp, Websocket, now)
  }

  function Step(s: Settings, j: Joint, e: Event, now: int): Joint {
    match e
    case Expired(sp) => if sp in s.watched then Engage(s, MarkExpired(s, j, sp, now), sp, now) else j
    case Polled(sp, poll) => DoPoll(s, j, sp, poll, now)
    case LatePolled(sp, poll) => DoLatePoll(s, j, sp, poll, now)
    case Message(sp) => Deliver(s, j, sp, now)
    case Other(event) => Tell(s, j, event, now)
    case Heartbeat => j.(tracker := Beat(s.health, j.tracker, now).state)
  }

  // ---------- what fallback is about ----------

  /** The part of a stream's state that fallback moves. */
  datatype Facts = Facts(since: Option<int>, fail: string, expired: bool)

  function FactsOf(s: Stream): Facts {
    Facts(s.fallbackSince, s.fallbackFail, s.expired)
  }

  /** How an event about a stream moves it. */
  function Affect(f: Facts, e: Health.Event, now: int): Facts {
    match e
    case Received(_) => f.(expired := false)
    case Polled(_) => f.(expired := false, fail := "")
    case KeyExpired(_) => f.(expired := true)
    case FallbackEngaged(_) => if f.since == None then f.(since := Some(now)) else f
    case FallbackFailed(_, reason) => f.(fail := reason)
    case FallbackDisengaged(_) => f.(since := None, fail := "")
    case _ => f
  }

  lemma MutateAffects(t: State, e: Health.Event, now: int, sp: StreamSpec)
    requires sp in t.streams
    ensures sp in Mutate(t, e, now).state.streams
    ensures FactsOf(Mutate(t, e, now).state.streams[sp])
         == if AboutStream(e) && e.sp == sp then Affect(FactsOf(t.streams[sp]), e, now) else FactsOf(t.streams[sp])
  {
  }

  /** Telling the tracker moves one stream's facts, and only as the event says. */
  lemma TellAffects(s: Settings, j: Joint, e: Health.Event, now: int, sp: StreamSpec)
    requires sp in j.tracker.streams
    ensures sp in Tell(s, j, e, now).tracker.streams
    ensures FactsOf(Tell(s, j, e, now).tracker.streams[sp])
         == if AboutStream(e) && e.sp == sp then Affect(FactsOf(j.tracker.streams[sp]), e, now)
            else FactsOf(j.tracker.streams[sp])
  {
    MutateAffects(j.tracker, e, now, sp);
  }

  /** What every stream on the venue shares does not depend on fallback. */
  lemma TellShared(s: Settings, j: Joint, e: Health.Event, now: int)
    requires AboutStream(e)
    ensures
      var t, t' := j.tracker, Tell(s, j, e, now).tracker;
      && t'.metadataOK == t.metadataOK && t'.metadataReason == t.metadataReason
      && t'.sockets == t.sockets && t'.skewMS == t.skewMS
  {
    MutateStreamShape(j.tracker, e, now);
  }

  lemma TellKeys(s: Settings, j: Joint, e: Health.Event, now: int)
    ensures Tell(s, j, e, now).tracker.streams.Keys == j.tracker.streams.Keys
  {
    MutateShape(j.tracker, e, now);
    RefreshShape(s.health, Mutate(j.tracker, e, now).state, Mutate(j.tracker, e, now).touched, now);
  }

  // ---------- the invariant ----------

  /** Events about fallback reach the tracker only through the watcher and the publish path. */
  predicate Legal(e: Event) {
    e.Other? ==> !AboutStream(e.event) || e.event.StreamRestarted?
  }

  /** What the tracker knows of a stream, given what the watcher does about it. A failure outlives an
      outage only where a poller has lost the stream. */
  predicate Agrees(active: bool, expired: bool, retired: bool, f: Facts) {
    && (f.since.Some? <==> active)
    && (active ==> expired)
    && (expired && !active ==> f.fail != "")
    && (!expired ==> !f.expired)
    && (!expired && f.fail != "" ==> retired)
    && f.fail in {"", REASON_CAPACITY, REASON_POLL, REASON_EMPTY}
  }

  predicate AgreesOn(j: Joint, sp: StreamSpec)
    requires sp in j.tracker.streams
  {
    Agrees(sp in j.active, sp in j.expired, sp in j.retired, FactsOf(j.tracker.streams[sp]))
  }

  /** No value served over REST ever went out as healthy. */
  predicate RestHonest(data: seq<Publication>) {
    forall i :: 0 <= i < |data| && data[i].source == Rest ==> data[i].verdict.status in {Degraded, Stale}
  }

  ghost predicate Invariant(s: Settings, j: Joint) {
    && j.active <= s.watched && j.expired <= s.watched <= j.tracker.streams.Keys
    && |j.active| <= s.maxConcurrentPolls
    && (forall sp <- j.tracker.streams :: AgreesOn(j, sp))
    && RestHonest(j.data)
  }

  /** Streams are registered and nothing has expired yet. */
  ghost predicate Initial(s: Settings, j: Joint) {
    && j.active == j.expired == j.retired == {} && j.data == [] && s.watched <= j.tracker.streams.Keys
    && forall sp <- j.tracker.streams :: FactsOf(j.tracker.streams[sp]) == Facts(None, "", false)
  }

  /** From one joint state to the next: only the event's own stream moves, as the event says. */
  ghost predicate Moves(j: Joint, j': Joint, sp: StreamSpec, to: Facts) {
    && j'.tracker.streams.Keys == j.tracker.streams.Keys
    && (forall q <- j.tracker.streams ::
          FactsOf(j'.tracker.streams[q]) == if q == sp then to else FactsOf(j.tracker.streams[q]))
  }

  function At(j: Joint, sp: StreamSpec): Facts {
    if sp in j.tracker.streams then FactsOf(j.tracker.streams[sp]) else Facts(None, "", false)
  }

  lemma TellMoves(s: Settings, j: Joint, e: Health.Event, now: int)
    requires AboutStream(e)
    ensures Moves(j, Tell(s, j, e, now), e.sp, Affect(At(j, e.sp), e, now))
  {
    TellKeys(s, j, e, now);
    forall q <- j.tracker.streams
      ensures FactsOf(Tell(s, j, e, now).tracker.streams[q])
           == if q == e.sp then Affect(At(j, e.sp), e, now) else FactsOf(j.tracker.streams[q])
    {
      TellAffects(s, j, e, now, q);
    }
  }

  lemma MovesThen(j: Joint, k: Joint, l: Joint, sp: StreamSpec, f: Facts, g: Facts)
    requires Moves(j, k, sp, f) && Moves(k, l, sp, g)
    ensures Moves(j, l, sp, g)
    ensures sp in j.tracker.streams ==> At(k, sp) == f && At(l, sp) == g
  {
  }

  lemma Stays(j: Joint, sp: StreamSpec)
    ensures Moves(j, j, sp, At(j, sp))
  {
  }

  /** A stream on fallback is never healthy. */
  lemma OnFallbackNotHealthy(o: Health.Options, t: State, st: Stream, now: int)
    requires st.fallbackSince.Some? || st.fallbackFail != ""
    ensures Compute(o, t, st, now).status in {Degraded, Stale}
    ensures st.fallbackFail != "" ==> Compute(o, t, st, now).status == Stale
  {
  }

  /** From j to j' by serving some values for sp. */
  ghost predicate Served(j: Joint, j': Joint, sp: StreamSpec, served: nat) {
    && Moves(j, j', sp, if served == 0 then At(j, sp) else At(j, sp).(expired := false, fail := ""))
    && j'.active == j.active && j'.expired == j.expired && j'.retired == j.retired
    && (At(j, sp).since.Some? && RestHonest(j.data) ==> RestHonest(j'.data))
    && Wrote(j.data, j'.data, sp, served)
  }

  /** These many values of sp have gone out from REST. */
  predicate Wrote(before: seq<Publication>, after: seq<Publication>, sp: StreamSpec, served: nat) {
    && |after| == |before| + served && after[..|before|] == before
    && forall i :: |before| <= i < |after| ==> after[i].sp == sp && after[i].source == Rest
  }

  lemma ServeOneMoves(s: Settings, j: Joint, sp: StreamSpec, now: int)
    requires sp in j.tracker.streams
    ensures Served(j, ServeOne(s, j, sp, now), sp, 1)
  {
    TellMoves(s, j, Health.Event.Polled(sp), now);
    var t := Tell(s, j, Health.Event.Polled(sp), now).tracker;
    if At(j, sp).since.Some? {
      assert FactsOf(t.streams[sp]).since.Some?;
      OnFallbackNotHealthy(s.health, t, t.streams[sp], now);
    }
  }

  lemma WroteThen(a: seq<Publication>, b: seq<Publication>, c: seq<Publication>, sp: StreamSpec, m: nat, n: nat)
    requires Wrote(a, b, sp, m) && Wrote(b, c, sp, n)
    ensures Wrote(a, c, sp, m + n)
  {
    assert c[..|a|] == c[..|b|][..|a|];
    assert forall i :: 0 <= i < |b| ==> c[i] == c[..|b|][i];
  }

  lemma ServedThen(j: Joint, k: Joint, l: Joint, sp: StreamSpec, served: nat)
    requires sp in j.tracker.streams && Served(j, k, sp, served) && Served(k, l, sp, 1)
    ensures Served(j, l, sp, served + 1)
  {
    WroteThen(j.data, k.data, l.data, sp, served, 1);
    MovesThen(j, k, l, sp, if served == 0 then At(j, sp) else At(j, sp).(expired := false, fail := ""),
              At(k, sp).(expired := false, fail := ""));
  }

  lemma ServedNext(s: Settings, j: Joint, k: Joint, l: Joint, sp: StreamSpec, served: nat, now: int)
    requires sp in j.tracker.streams && Served(j, k, sp, served) && l == ServeOne(s, k, sp, now)
    ensures Served(j, l, sp, served + 1)
  {
    ServeOneMoves(s, k, sp, now);
    ServedThen(j, k, l, sp, served);
  }

  lemma ServedNone(j: Joint, sp: StreamSpec)
    ensures Served(j, j, sp, 0)
  {
    Stays(j, sp);
  }

  /** Whatever serves one value at a time serves as many as it is asked to. */
  lemma {:induction false} RepeatMoves(serve: Joint -> Joint, j: Joint, sp: StreamSpec, served: nat)
    requires forall k, n: nat :: Served(j, k, sp, n) ==> Served(j, serve(k), sp, n + 1)
    ensures Served(j, Repeat(serve, j, served), sp, served)
  {
    if served == 0 {
      ServedNone(j, sp);
    } else {
      RepeatMoves(serve, j, sp, served - 1);
    }
  }

  lemma ServeMoves(s: Settings, j: Joint, sp: StreamSpec, served: nat, now: int)
    requires sp in j.tracker.streams
    ensures Served(j, Serve(s, j, sp, served, now), sp, served)
  {
    var serve := (k: Joint) => ServeOne(s, k, sp, now);
    forall k, n: nat | Served(j, k, sp, n) ensures Served(j, serve(k), sp, n + 1) {
      ServedNext(s, j, k, serve(k), sp, n, now);
    }
    RepeatMoves(serve, j, sp, served);
  }

  lemma WriteFailedMoves(s: Settings, j: Joint, sp: StreamSpec, now: int)
    requires sp in j.tracker.streams
    ensures Moves(j, Tell(s, Tell(s, j, Health.Event.Polled(sp), now), FallbackFailed(sp, REASON_POLL), now), sp,
                  At(j, sp).(expired := false, fail := REASON_POLL))
  {
    var mid := Tell(s, j, Health.Event.Polled(sp), now);
    TellMoves(s, j, Health.Event.Polled(sp), now);
    TellMoves(s, mid, FallbackFailed(sp, REASON_POLL), now);
    MovesThen(j, mid, Tell(s, mid, FallbackFailed(sp, REASON_POLL), now), sp,
              At(j, sp).(expired := false, fail := ""), At(j, sp).(expired := false, fail := REASON_POLL));
  }

  lemma FinishPollMoves(s: Settings, j: Joint, sp: StreamSpec, served: nat, ending: Ending, now: int)
    requires sp in j.tracker.streams
    ensures
      var j', f := FinishPoll(s, j, sp, served, ending, now), At(j, sp);
      && Moves(j, j', sp, match ending
           case Done => if served > 0 then f else f.(fail := REASON_EMPTY)
           case NoEnvelope => f.(fail := REASON_EMPTY)
           case WriteFailed => f.(expired := false, fail := REASON_POLL))
      && j'.active == j.active && j'.expired == j.expired && j'.retired == j.retired && j'.data == j.data
  {
    if ending == WriteFailed {
      WriteFailedMoves(s, j, sp, now);
    } else {
      Stays(j, sp);
      TellMoves(s, j, FallbackFailed(sp, REASON_EMPTY), now);
    }
  }

  /** A step that moves one stream keeps the invariant if that stream still agrees. */
  lemma KeepsInvariant(s: Settings, j: Joint, j': Joint, sp: StreamSpec, to: Facts)
    requires Invariant(s, j) && Moves(j, j', sp, to)
    requires j'.active - {sp} == j.active - {sp} && j'.expired - {sp} == j.expired - {sp}
    requires (sp in j'.expired || sp in j'.active) ==> sp in s.watched
    requires |j'.active| <= s.maxConcurrentPolls && RestHonest(j'.data)
    requires j.retired <= j'.retired
    requires sp in j.tracker.streams ==> Agrees(sp in j'.active, sp in j'.expired, sp in j'.retired, to)
    ensures Invariant(s, j')
  {
    forall q <- j'.tracker.streams ensures AgreesOn(j', q) {
      assert AgreesOn(j, q);
      if q != sp {
        assert q in j'.active <==> q in j'.active - {sp};
        assert q in j.active <==> q in j.active - {sp};
        assert q in j'.expired <==> q in j'.expired - {sp};
        assert q in j.expired <==> q in j.expired - {sp};
      }
    }
    assert j'.active <= (j'.active - {sp}) + {sp};
    assert j'.expired <= (j'.expired - {sp}) + {sp};
  }

  lemma PollKeeps(s: Settings, j: Joint, sp: StreamSpec, poll: Poll, now: int)
    requires Invariant(s, j)
    ensures Invariant(s, DoPoll(s, j, sp, poll, now))
  {
    if sp in j.active {
      assert AgreesOn(j, sp);
      match poll
      case FetchFailed =>
        TellMoves(s, j, FallbackFailed(sp, REASON_POLL), now);
        KeepsInvariant(s, j, DoPoll(s, j, sp, poll, now), sp, At(j, sp).(fail := REASON_POLL));
      case Fetched(served, ending) =>
        var mid, j' := Serve(s, j, sp, served, now), DoPoll(s, j, sp, poll, now);
        ServeMoves(s, j, sp, served, now);
        FinishPollMoves(s, mid, sp, served, ending, now);
        MovesThen(j, mid, j', sp, At(mid, sp), At(j', sp));
        KeepsInvariant(s, j, j', sp, At(j', sp));
    }
  }

  lemma MarkExpiredMoves(s: Settings, j: Joint, sp: StreamSpec, now: int)
    ensures
      var j' := MarkExpired(s, j, sp, now);
      && Moves(j, j', sp, if sp in j.expired then At(j, sp) else At(j, sp).(expired := true))
      && j'.active == j.active && j'.expired == j.expired + {sp} && j'.retired == j.retired && j'.data == j.data
  {
    if sp in j.expired {
      Stays(j, sp);
    } else {
      TellMoves(s, j.(expired := j.expired + {sp}), KeyExpired(sp), now);
    }
  }

  lemma EngageMoves(s: Settings, j: Joint, sp: StreamSpec, now: int)
    ensures
      var j', f := Engage(s, j, sp, now), At(j, sp);
      && Moves(j, j', sp,
           if sp in j.active then f
           else if |j.active| >= s.maxConcurrentPolls then f.(fail := REASON_CAPACITY)
           else if f.since == None then f.(since := Some(now)) else f)
      && j'.expired == j.expired && j'.retired == j.retired && j'.data == j.data
      && j'.active == if |j.active| >= s.maxConcurrentPolls then j.active else j.active + {sp}
  {
    if sp in j.active {
      Stays(j, sp);
    } else if |j.active| >= s.maxConcurrentPolls {
      TellMoves(s, j, FallbackFailed(sp, REASON_CAPACITY), now);
    } else {
      TellMoves(s, j.(active := j.active + {sp}), FallbackEngaged(sp), now);
    }
  }

  /** From j to j' by one expiry of sp: marked, then polled unless already or over the cap. */
  ghost predicate WentOut(s: Settings, j: Joint, j': Joint, sp: StreamSpec, now: int) {
    var f := if sp in j.expired then At(j, sp) else At(j, sp).(expired := true);
    var full := |j.active| >= s.maxConcurrentPolls;
    && Moves(j, j', sp,
         if sp in j.active then f
         else if full then f.(fail := REASON_CAPACITY)
         else if f.since == None then f.(since := Some(now)) else f)
    && j'.expired == j.expired + {sp} && j'.retired == j.retired && j'.data == j.data
    && j'.active == if full then j.active else j.active + {sp}
  }

  lemma ExpiredMoves(s: Settings, j: Joint, sp: StreamSpec, now: int)
    requires sp in j.tracker.streams
    ensures WentOut(s, j, Engage(s, MarkExpired(s, j, sp, now), sp, now), sp, now)
  {
    var mid := MarkExpired(s, j, sp, now);
    var j' := Engage(s, mid, sp, now);
    MarkExpiredMoves(s, j, sp, now);
    EngageMoves(s, mid, sp, now);
    MovesThen(j, mid, j', sp, At(mid, sp), At(j', sp));
  }

  lemma WentOutKeeps(s: Settings, j: Joint, j': Joint, sp: StreamSpec, now: int)
    requires Invariant(s, j) && sp in s.watched && WentOut(s, j, j', sp, now)
    ensures Invariant(s, j')
  {
    assert AgreesOn(j, sp);
    WentOutSets(s, j, j', sp, now);
    KeepsInvariant(s, j, j', sp, At(j', sp));
  }

  lemma WentOutSets(s: Settings, j: Joint, j': Joint, sp: StreamSpec, now: int)
    requires WentOut(s, j, j', sp, now) && |j.active| <= s.maxConcurrentPolls
    ensures |j'.active| <= s.maxConcurrentPolls
    ensures j'.active - {sp} == j.active - {sp} && j'.expired - {sp} == j.expired - {sp}
    ensures sp in j'.expired && (sp in j'.active <==> sp in j.active || |j.active| < s.maxConcurrentPolls)
  {
  }

  lemma ExpiredKeeps(s: Settings, j: Joint, sp: StreamSpec, now: int)
    requires Invariant(s, j) && sp in s.watched
    ensures Invariant(s, Engage(s, MarkExpired(s, j, sp, now), sp, now))
  {
    ExpiredMoves(s, j, sp, now);
    WentOutKeeps(s, j, Engage(s, MarkExpired(s, j, sp, now), sp, now), sp, now);
  }

  /** From j to j' by one websocket message on sp. */
  ghost predicate CameBack(j: Joint, j': Joint, sp: StreamSpec) {
    && Moves(j, j', sp, if sp in j.active || sp in j.expired then Facts(None, "", false)
                        else At(j, sp).(expired := false))
    && j'.active == j.active - {sp} && j'.expired == j.expired - {sp} && j'.retired == j.retired + (j.active * {sp})
    && (RestHonest(j.data) ==> RestHonest(j'.data))
  }

  lemma NoteMoves(s: Settings, j: Joint, sp: StreamSpec, now: int)
    ensures
      var j' := Note(s, j, sp, now);
      && Moves(j, j', sp,
                 if sp in j.active || sp in j.expired then At(j, sp).(since := None, fail := "") else At(j, sp))
      && j'.active == j.active - {sp} && j'.expired == j.expired - {sp}
      && j'.retired == j.retired + (j.active * {sp}) && j'.data == j.data
  {
    var cleared := j.(active := j.active - {sp}, expired := j.expired - {sp}, retired := j.retired + (j.active * {sp}));
    Stays(j, sp);
    TellMoves(s, cleared, FallbackDisengaged(sp), now);
  }

  /** The arrival recorded and its value written. */
  lemma ArriveMoves(s: Settings, j: Joint, sp: StreamSpec, now: int)
    ensures
      var j' := Emit(s, Tell(s, j, Received(sp), now), sp, Websocket, now);
      && Moves(j, j', sp, At(j, sp).(expired := false))
      && j'.active == j.active && j'.expired == j.expired && j'.retired == j.retired
      && (RestHonest(j.data) ==> RestHonest(j'.data))
  {
    TellMoves(s, j, Received(sp), now);
  }

  lemma DeliverMoves(s: Settings, j: Joint, sp: StreamSpec, now: int)
    ensures CameBack(j, Deliver(s, j, sp, now), sp)
  {
    var noted := Note(s, j, sp, now);
    NoteMoves(s, j, sp, now);
    ArriveMoves(s, noted, sp, now);
    MovesThen(j, noted, Deliver(s, j, sp, now), sp, At(noted, sp), At(noted, sp).(expired := false));
  }

  lemma CameBackKeeps(s: Settings, j: Joint, j': Joint, sp: StreamSpec)
    requires Invariant(s, j) && CameBack(j, j', sp)
    ensures Invariant(s, j')
  {
    var to := if sp in j.active || sp in j.expired then Facts(None, "", false) else At(j, sp).(expired := false);
    if sp in j.tracker.streams {
      assert AgreesOn(j, sp);
      assert Agrees(false, false, sp in j'.retired, to);
    }
    Smaller(j.active, sp);
    KeepsInvariant(s, j, j', sp, to);
  }

  lemma DeliverKeeps(s: Settings, j: Joint, sp: StreamSpec, now: int)
    requires Invariant(s, j)
    ensures Invariant(s, Deliver(s, j, sp, now))
  {
    DeliverMoves(s, j, sp, now);
    CameBackKeeps(s, j, Deliver(s, j, sp, now), sp);
  }

  lemma LatePollKeeps(s: Settings, j: Joint, sp: StreamSpec, poll: Poll, now: int)
    requires Invariant(s, j)
    ensures Invariant(s, DoLatePoll(s, j, sp, poll, now))
  {
    if sp in j.retired && Fails(poll) {
      LateFailKeeps(s, j, sp, if poll == FetchFailed then REASON_POLL else REASON_EMPTY, now);
    }
  }

  lemma LateFailKeeps(s: Settings, j: Joint, sp: StreamSpec, reason: string, now: int)
    requires Invariant(s, j) && sp in j.retired && (reason == REASON_POLL || reason == REASON_EMPTY)
    ensures Invariant(s, Tell(s, j, FallbackFailed(sp, reason), now))
  {
    var to := At(j, sp).(fail := reason);
    if sp in j.tracker.streams {
      assert AgreesOn(j, sp);
      assert Agrees(sp in j.active, sp in j.expired, true, to);
    }
    TellMoves(s, j, FallbackFailed(sp, reason), now);
    KeepsInvariant(s, j, Tell(s, j, FallbackFailed(sp, reason), now), sp, to);
  }

  lemma OtherKeeps(s: Settings, j: Joint, e: Health.Event, now: int)
    requires Invariant(s, j) && (!AboutStream(e) || e.StreamRestarted?)
    ensures Invariant(s, Tell(s, j, e, now))
  {
    TellKeys(s, j, e, now);
    forall q <- j.tracker.streams ensures AgreesOn(Tell(s, j, e, now), q) {
      TellAffects(s, j, e, now, q);
      assert AgreesOn(j, q);
    }
  }

  lemma HeartbeatKeeps(s: Settings, j: Joint, now: int)
    requires Invariant(s, j)
    ensures Invariant(s, j.(tracker := Beat(s.health, j.tracker, now).state))
  {
    var t' := Beat(s.health, j.tracker, now).state;
    forall q <- t'.streams ensures AgreesOn(j.(tracker := t'), q) {
      assert AgreesOn(j, q);
    }
  }

  lemma StepKeeps(s: Settings, j: Joint, e: Event, now: int)
    requires Invariant(s, j) && Legal(e)
    ensures Invariant(s, Step(s, j, e, now))
  {
    match e
    case Expired(sp) => if sp in s.watched { ExpiredKeeps(s, j, sp, now); }
    case Polled(sp, poll) => PollKeeps(s, j, sp, poll, now);
    case LatePolled(sp, poll) => LatePollKeeps(s, j, sp, poll, now);
    case Message(sp) => DeliverKeeps(s, j, sp, now);
    case Other(event) => OtherKeeps(s, j, event, now);
    case Heartbeat => HeartbeatKeeps(s, j, now);
  }

  // ---------- runs ----------

  datatype Timed = Timed(event: Event, at: int)

  function Run(s: Settings, j: Joint, steps: seq<Timed>): Joint
    decreases |steps|
  {
    if steps == [] then j else Run(s, Step(s, j, steps[0].event, steps[0].at), steps[1..])
  }

  lemma {:induction false} RunKeeps(s: Settings, j: Joint, steps: seq<Timed>)
    requires Invariant(s, j) && forall x <- steps :: Legal(x.event)
    ensures Invariant(s, Run(s, j, steps))
    decreases |steps|
  {
    if steps != [] {
      StepKeeps(s, j, steps[0].event, steps[0].at);
      RunKeeps(s, Step(s, j, steps[0].event, steps[0].at), steps[1..]);
    }
  }

  /** In every reachable state: polls stay under the cap and only expired streams are polled, exactly
      the polled ones are on fallback, one turned away is stale, and none is healthy while it is out. */
  lemma ReachableSafe(s: Settings, j0: Joint, steps: seq<Timed>, sp: StreamSpec, now: int)
    requires Initial(s, j0) && (forall x <- steps :: Legal(x.event))
    ensures
      var j := Run(s, j0, steps);
      && j.active <= j.expired && |j.active| <= s.maxConcurrentPolls && RestHonest(j.data)
      && (sp in j.expired ==> sp in j.tracker.streams)
      && (sp in j.tracker.streams ==>
            var v := Compute(s.health, j.tracker, j.tracker.streams[sp], now);
            && (j.tracker.streams[sp].fallbackSince.Some? <==> sp in j.active)
            && (sp in j.expired - j.active ==> v.status == Stale)
            && (sp in j.expired ==> v.status in {Degraded, Stale})
            && (j.tracker.streams[sp].fallbackFail != "" ==> v.status == Stale && (sp in j.expired || sp in j.retired)))
  {
    RunKeeps(s, j0, steps);
    var j := Run(s, j0, steps);
    InvariantSafe(s, j, sp, now);
  }

  lemma InvariantSafe(s: Settings, j: Joint, sp: StreamSpec, now: int)
    requires Invariant(s, j)
    ensures j.active <= j.expired
    ensures sp in j.tracker.streams ==>
      var v := Compute(s.health, j.tracker, j.tracker.streams[sp], now);
      && (j.tracker.streams[sp].fallbackSince.Some? <==> sp in j.active)
      && (sp in j.expired - j.active ==> v.status == Stale)
      && (sp in j.expired ==> v.status in {Degraded, Stale})
      && (j.tracker.streams[sp].fallbackFail != "" ==> v.status == Stale && (sp in j.expired || sp in j.retired))
  {
    forall q | q in j.active ensures q in j.expired { assert AgreesOn(j, q); }
    if sp in j.tracker.streams {
      assert AgreesOn(j, sp);
      if sp in j.expired || j.tracker.streams[sp].fallbackFail != "" {
        OnFallbackNotHealthy(s.health, j.tracker, j.tracker.streams[sp], now);
      }
    }
  }

  // ---------- what a poll and an expiry show ----------

  /** The polls that end with their last value written. */
  predicate Refreshes(poll: Poll) {
    poll.Fetched? && poll.served > 0 && poll.ending == Done
  }

  /** Every poll by the poller that owns a stream shows: one that ends without a value written leaves it
      stale, whatever went before, until a poll or a message refreshes it, and says which way it failed;
      one that ends with a value written leaves no failure on it. */
  lemma PollShows(s: Settings, j: Joint, sp: StreamSpec, poll: Poll, at: int, now: int)
    requires sp in j.active && sp in j.tracker.streams
    ensures
      var j' := Step(s, j, Event.Polled(sp, poll), at);
      && sp in j'.tracker.streams && Wrote(j.data, j'.data, sp, if poll.Fetched? then poll.served else 0)
      && (Refreshes(poll) ==> At(j', sp) == At(j, sp).(expired := false, fail := ""))
      && (!Refreshes(poll) ==> Compute(s.health, j'.tracker, j'.tracker.streams[sp], now).status == Stale)
      && (poll == FetchFailed || (poll.Fetched? && poll.ending == WriteFailed) ==>
            At(j', sp).fail == "rest poll failed")
      && (poll.Fetched? && !Refreshes(poll) && poll.ending != WriteFailed ==>
            At(j', sp).fail == "rest returned no value")
  {
    PollFacts(s, j, sp, poll, at);
    var j' := Step(s, j, Event.Polled(sp, poll), at);
    FailedStale(s.health, j'.tracker, j'.tracker.streams[sp], now);
  }

  lemma FailedStale(o: Health.Options, t: State, st: Stream, now: int)
    ensures st.fallbackFail != "" || st.expired ==> Compute(o, t, st, now).status == Stale
  {
  }

  lemma PollFacts(s: Settings, j: Joint, sp: StreamSpec, poll: Poll, at: int)
    requires sp in j.active && sp in j.tracker.streams
    ensures
      var j' := DoPoll(s, j, sp, poll, at);
      && sp in j'.tracker.streams && Wrote(j.data, j'.data, sp, if poll.Fetched? then poll.served else 0)
      && (Refreshes(poll) ==> At(j', sp) == At(j, sp).(expired := false, fail := ""))
      && (poll == FetchFailed || (poll.Fetched? && poll.ending == WriteFailed) ==>
            At(j', sp).fail == "rest poll failed")
      && (poll.Fetched? && !Refreshes(poll) && poll.ending != WriteFailed ==>
            At(j', sp).fail == "rest returned no value")
  {
    match poll
    case FetchFailed => TellMoves(s, j, FallbackFailed(sp, REASON_POLL), at);
    case Fetched(served, ending) =>
      ServeMoves(s, j, sp, served, at);
      FinishPollMoves(s, Serve(s, j, sp, served, at), sp, served, ending, at);
  }

  /** An expiry shows at once: a stream whose key has just expired is stale until a value arrives, and one
      turned away by the cap stays so for that. */
  lemma ExpiryShows(s: Settings, j: Joint, sp: StreamSpec, at: int, now: int)
    requires sp in s.watched && sp in j.tracker.streams
    ensures
      var j' := Step(s, j, Expired(sp), at);
      && sp in j'.tracker.streams && sp in j'.expired
      && (sp !in j.expired || (sp !in j.active && |j.active| >= s.maxConcurrentPolls) ==>
            Compute(s.health, j'.tracker, j'.tracker.streams[sp], now).status == Stale)
      && (sp !in j.active && |j.active| >= s.maxConcurrentPolls ==> At(j', sp).fail == "fallback at capacity")
      && (sp !in j.active && |j.active| < s.maxConcurrentPolls ==> sp in j'.active && At(j', sp).since.Some?)
  {
    ExpiredMoves(s, j, sp, at);
    var j' := Step(s, j, Expired(sp), at);
    FailedStale(s.health, j'.tracker, j'.tracker.streams[sp], now);
  }

  // ---------- recovery ----------

  lemma ReceivedUnmarks(s: Settings, j: Joint, sp: StreamSpec, now: int)
    requires sp in j.tracker.streams
    ensures !Tell(s, j, Received(sp), now).tracker.streams[sp].rejected
  {
  }

  lemma TellSocket(s: Settings, j: Joint, e: Health.Event, now: int, sp: StreamSpec)
    requires AboutStream(e) && sp in j.tracker.streams
    ensures sp in Tell(s, j, e, now).tracker.streams
    ensures Tell(s, j, e, now).tracker.streams[sp].socketID == j.tracker.streams[sp].socketID
  {
    MutateStreamShape(j.tracker, e, now);
  }

  lemma NoteShared(s: Settings, j: Joint, sp: StreamSpec, now: int)
    requires sp in j.tracker.streams
    ensures SameShared(j.tracker, Note(s, j, sp, now).tracker, sp)
  {
    var cleared := j.(active := j.active - {sp}, expired := j.expired - {sp}, retired := j.retired + (j.active * {sp}));
    TellShared(s, cleared, FallbackDisengaged(sp), now);
    TellSocket(s, cleared, FallbackDisengaged(sp), now, sp);
  }

  /** What the guards of a message look at: an outage, or no trace of one. */
  predicate Tended(j: Joint, sp: StreamSpec) {
    sp in j.active || sp in j.expired || (At(j, sp).since == None && At(j, sp).fail == "")
  }

  /** In any state at all, a message wipes fallback off a stream exactly when it is tended. */
  lemma MessageWipes(s: Settings, j: Joint, sp: StreamSpec, at: int)
    requires sp in j.tracker.streams
    ensures
      var j' := Deliver(s, j, sp, at);
      && sp in j'.tracker.streams && sp !in j'.active && sp !in j'.expired
      && (At(j', sp) == Facts(None, "", false) <==> Tended(j, sp))
      && (!Tended(j, sp) ==> At(j', sp) == At(j, sp).(expired := false))
  {
    DeliverMoves(s, j, sp, at);
  }

  /** Metadata and an open circuit come before fallback. */
  predicate Overshadowed(t: State, socket: Option<Socket>) {
    !t.metadataOK || (socket.Some? && socket.value.phase == CircuitOpen)
  }

  /** What a message leaves: a failure stays on a stream that is not out. */
  function AfterMessage(s: Settings, j: Joint, sp: StreamSpec): Verdict
    requires sp in j.tracker.streams
  {
    var st := j.tracker.streams[sp];
    var socket := SocketOf(j.tracker, st);
    if Overshadowed(j.tracker, socket) || sp in j.active || sp in j.expired || st.fallbackFail == ""
    then VenueOnly(s.health, j.tracker, socket) else Verdict(Stale, st.fallbackFail)
  }

  /** One websocket message, whatever came before: the stream's status, and the one its value carries,
      are what metadata, socket and clock alone give exactly when the stream was out or had no failure
      left on it, or metadata or an open circuit come first anyway. Otherwise it stays stale. */
  lemma MessageRecovers(s: Settings, j0: Joint, steps: seq<Timed>, sp: StreamSpec, at: int, now: int)
    requires Initial(s, j0) && (forall x <- steps :: Legal(x.event))
    requires sp in Run(s, j0, steps).tracker.streams
    ensures
      var j := Run(s, j0, steps);
      var j' := Step(s, j, Message(sp), at);
      var socket := SocketOf(j.tracker, j.tracker.streams[sp]);
      && sp in j'.tracker.streams && sp !in j'.active && sp !in j'.expired
      && Compute(s.health, j'.tracker, j'.tracker.streams[sp], now) == AfterMessage(s, j, sp)
      && j'.data == j.data + [Publication(sp, Websocket, AfterMessage(s, j, sp))]
      && (AfterMessage(s, j, sp) == VenueOnly(s.health, j.tracker, socket) <==>
            Overshadowed(j.tracker, socket) || sp in j.active || sp in j.expired
            || j.tracker.streams[sp].fallbackFail == "")
  {
    RunKeeps(s, j0, steps);
    var j := Run(s, j0, steps);
    MessageClears(s, j, sp, at, now);
    MessageClears(s, j, sp, at, at);
    DeliverEmits(s, j, sp, at);
    AfterMessageExact(s, j, sp);
  }

  lemma DeliverEmits(s: Settings, j: Joint, sp: StreamSpec, at: int)
    requires sp in j.tracker.streams
    ensures
      var j' := Deliver(s, j, sp, at);
      && sp in j'.tracker.streams && sp !in j'.active && sp !in j'.expired
      && j'.data == j.data + [Publication(sp, Websocket, Compute(s.health, j'.tracker, j'.tracker.streams[sp], at))]
  {
    DeliverMoves(s, j, sp, at);
  }

  /** No reason for a failed fallback is a reason the venue has. */
  lemma FailShows(o: Health.Options, t: State, socket: Option<Socket>, fail: string)
    requires fail in {"", REASON_CAPACITY, REASON_POLL, REASON_EMPTY} && !Overshadowed(t, socket)
    ensures fail != "" ==> VenueOnly(o, t, socket) != Verdict(Stale, fail)
  {
    assert SkewText(t.skewMS)[0] == 'c';
  }

  lemma AfterMessageExact(s: Settings, j: Joint, sp: StreamSpec)
    requires Invariant(s, j) && sp in j.tracker.streams
    ensures
      var socket := SocketOf(j.tracker, j.tracker.streams[sp]);
      AfterMessage(s, j, sp) == VenueOnly(s.health, j.tracker, socket) <==>
        Overshadowed(j.tracker, socket) || sp in j.active || sp in j.expired
        || j.tracker.streams[sp].fallbackFail == ""
  {
    assert AgreesOn(j, sp);
    var st := j.tracker.streams[sp];
    if !Overshadowed(j.tracker, SocketOf(j.tracker, st)) {
      FailShows(s.health, j.tracker, SocketOf(j.tracker, st), st.fallbackFail);
    }
  }

  /** The status a message leaves in a state that keeps the invariant. */
  lemma MessageClears(s: Settings, j: Joint, sp: StreamSpec, at: int, now: int)
    requires Invariant(s, j) && sp in j.tracker.streams
    ensures
      var j' := Deliver(s, j, sp, at);
      sp in j'.tracker.streams
      && Compute(s.health, j'.tracker, j'.tracker.streams[sp], now) == AfterMessage(s, j, sp)
  {
    var t, t' := j.tracker, Deliver(s, j, sp, at).tracker;
    assert AgreesOn(j, sp);
    MessageWipes(s, j, sp, at);
    DeliverShared(s, j, sp, at);
    SharedJudged(s.health, t, t', sp);
    if Tended(j, sp) {
      PristineJudged(s.health, t', t'.streams[sp], now);
    } else {
      FailedJudged(s.health, t', t'.streams[sp], now);
    }
  }

  lemma FailedJudged(o: Health.Options, t: State, st: Stream, now: int)
    requires st.fallbackFail != ""
    ensures Compute(o, t, st, now) == if Overshadowed(t, SocketOf(t, st)) then VenueOnly(o, t, SocketOf(t, st))
                                      else Verdict(Stale, st.fallbackFail)
  {
  }

  /** Two states in which everything streams share is the same, and the stream's socket too. */
  predicate SameShared(t: State, t': State, sp: StreamSpec) {
    && t'.metadataOK == t.metadataOK && t'.metadataReason == t.metadataReason
    && t'.sockets == t.sockets && t'.skewMS == t.skewMS
    && sp in t.streams && sp in t'.streams && t'.streams[sp].socketID == t.streams[sp].socketID
  }

  lemma SharedJudged(o: Health.Options, t: State, t': State, sp: StreamSpec)
    requires SameShared(t, t', sp)
    ensures VenueOnly(o, t', SocketOf(t', t'.streams[sp])) == VenueOnly(o, t, SocketOf(t, t.streams[sp]))
  {
  }

  lemma DeliverShared(s: Settings, j: Joint, sp: StreamSpec, at: int)
    requires sp in j.tracker.streams
    ensures SameShared(j.tracker, Deliver(s, j, sp, at).tracker, sp)
    ensures !Deliver(s, j, sp, at).tracker.streams[sp].rejected
  {
    NoteShared(s, j, sp, at);
    var noted := Note(s, j, sp, at);
    TellShared(s, noted, Received(sp), at);
    TellSocket(s, noted, Received(sp), at, sp);
    ReceivedUnmarks(s, noted, sp, at);
  }

  lemma PristineJudged(o: Health.Options, t: State, st: Stream, now: int)
    requires FactsOf(st) == Facts(None, "", false) && !st.rejected
    ensures Compute(o, t, st, now) == VenueOnly(o, t, SocketOf(t, st))
  {
  }

  // ---------- what no message ends ----------

  /** Fallback has left its mark on a stream that nobody polls and that is not out. */
  ghost predicate Stuck(j: Joint, sp: StreamSpec) {
    sp in j.tracker.streams && !Tended(j, sp)
  }

  /** A poll that ends after its stream has recovered marks it exactly when it had nothing to write. */
  lemma LateFailureMarks(s: Settings, j: Joint, sp: StreamSpec, poll: Poll, at: int, now: int)
    requires sp in j.active && sp in j.tracker.streams
    ensures
      var late := Step(s, Step(s, j, Message(sp), at), LatePolled(sp, poll), now);
      && (Stuck(late, sp) <==> Fails(poll))
      && (Fails(poll) ==> At(late, sp).fail != "")
  {
    MessageWipes(s, j, sp, at);
    MessageRetires(s, j, sp, at);
    LatePollMarks(s, Deliver(s, j, sp, at), sp, poll, now);
  }

  lemma MessageRetires(s: Settings, j: Joint, sp: StreamSpec, at: int)
    requires sp in j.active
    ensures sp in Deliver(s, j, sp, at).retired
  {
    NoteMoves(s, j, sp, at);
  }

  lemma LatePollMarks(s: Settings, j: Joint, sp: StreamSpec, poll: Poll, now: int)
    requires sp in j.tracker.streams && sp in j.retired && sp !in j.active && sp !in j.expired
    requires At(j, sp) == Facts(None, "", false)
    ensures Stuck(DoLatePoll(s, j, sp, poll, now), sp) <==> Fails(poll)
    ensures Fails(poll) ==> At(DoLatePoll(s, j, sp, poll, now), sp).fail != ""
  {
    TellMoves(s, j, FallbackFailed(sp, if poll == FetchFailed then REASON_POLL else REASON_EMPTY), now);
  }

  /** It happens: one outage, one message, and the poll that was in flight then fails. */
  lemma LateFailureReachable(s: Settings, j0: Joint, sp: StreamSpec, poll: Poll, a: int, b: int, c: int)
    requires Initial(s, j0) && sp in s.watched && s.maxConcurrentPolls > 0 && Fails(poll)
    ensures
      var steps := [Timed.Timed(Expired(sp), a), Timed.Timed(Message(sp), b), Timed.Timed(LatePolled(sp, poll), c)];
      && (forall x <- steps :: Legal(x.event))
      && Stuck(Run(s, j0, steps), sp) && At(Run(s, j0, steps), sp).fail != ""
  {
    ExpiredPolls(s, j0, sp, a);
    LateFailureMarks(s, Step(s, j0, Expired(sp), a), sp, poll, b, c);
    RunThree(s, j0, Timed.Timed(Expired(sp), a), Timed.Timed(Message(sp), b), Timed.Timed(LatePolled(sp, poll), c));
  }

  lemma RunThree(s: Settings, j: Joint, x: Timed, y: Timed, z: Timed)
    ensures Run(s, j, [x, y, z]) == Step(s, Step(s, Step(s, j, x.event, x.at), y.event, y.at), z.event, z.at)
  {
    assert [x, y, z][1..] == [y, z] && [y, z][1..] == [z] && [z][1..] == [];
    var k := Step(s, j, x.event, x.at);
    var l := Step(s, k, y.event, y.at);
    assert Run(s, l, [z]) == Step(s, l, z.event, z.at);
    assert Run(s, k, [y, z]) == Run(s, l, [z]);
  }

  lemma ExpiredPolls(s: Settings, j: Joint, sp: StreamSpec, now: int)
    requires sp in s.watched && sp in j.tracker.streams && |j.active| < s.maxConcurrentPolls
    ensures
      var j' := Step(s, j, Expired(sp), now);
      sp in j'.active && sp in j'.tracker.streams
  {
    ExpiredMoves(s, j, sp, now);
  }

  /** An outage: polled, or expired and waiting for a poller. */
  predicate Out(j: Joint, sp: StreamSpec) {
    sp in j.active || sp in j.expired
  }

  /** An expiry starts an outage, a message ends it, and nothing else does either. */
  lemma StepOut(s: Settings, j: Joint, e: Event, now: int, sp: StreamSpec)
    requires Watched(s, j) && sp in s.watched
    ensures Out(Step(s, j, e, now), sp) == (e == Expired(sp) || (e != Message(sp) && Out(j, sp)))
  {
    match e
    case Expired(q) => if q in s.watched { ExpiredMoves(s, j, q, now); }
    case Polled(q, poll) => PollSets(s, j, q, poll, now);
    case LatePolled(q, poll) =>
    case Message(q) => DeliverMoves(s, j, q, now);
    case Other(event) =>
    case Heartbeat =>
  }

  lemma PollSets(s: Settings, j: Joint, q: StreamSpec, poll: Poll, now: int)
    requires Watched(s, j)
    ensures DoPoll(s, j, q, poll, now).active == j.active && DoPoll(s, j, q, poll, now).expired == j.expired
  {
    if q in j.active && poll.Fetched? {
      ServeMoves(s, j, q, poll.served, now);
      FinishPollMoves(s, Serve(s, j, q, poll.served, now), q, poll.served, poll.ending, now);
    }
  }

  /** The last word on a stream among these steps is a message. */
  ghost predicate EndsInMessage(steps: seq<Timed>, sp: StreamSpec) {
    exists i :: 0 <= i < |steps| && steps[i].event == Message(sp) && NoneLater(steps, i, Expired(sp))
  }

  ghost predicate NoneLater(steps: seq<Timed>, i: int, e: Event) {
    forall k :: i < k < |steps| && 0 <= k ==> steps[k].event != e
  }

  lemma NoneLaterTail(steps: seq<Timed>, i: int, e: Event)
    requires steps != [] && i >= 0
    ensures NoneLater(steps, i + 1, e) <==> NoneLater(steps[1..], i, e)
  {
    if NoneLater(steps[1..], i, e) {
      forall k | i + 1 < k < |steps| ensures steps[k].event != e {
        assert steps[k] == steps[1..][k - 1];
      }
    }
  }

  lemma EndsInMessageTail(steps: seq<Timed>, sp: StreamSpec)
    requires steps != []
    ensures EndsInMessage(steps, sp) <==>
      EndsInMessage(steps[1..], sp) || (steps[0].event == Message(sp) && NoneLater(steps, 0, Expired(sp)))
  {
    forall i | 0 <= i < |steps| - 1 {
      NoneLaterTail(steps, i, Expired(sp));
    }
    if i :| 0 <= i < |steps[1..]| && steps[1..][i].event == Message(sp) && NoneLater(steps[1..], i, Expired(sp)) {
      assert steps[i + 1].event == Message(sp);
    }
    if i :| 0 < i < |steps| && steps[i].event == Message(sp) && NoneLater(steps, i, Expired(sp)) {
      assert NoneLater(steps, i - 1 + 1, Expired(sp)) && steps[1..][i - 1] == steps[i];
    }
  }

  lemma {:induction false} RunOut(s: Settings, j: Joint, steps: seq<Timed>, sp: StreamSpec)
    requires Watched(s, j) && sp in s.watched
    ensures Watched(s, Run(s, j, steps))
    ensures !Out(Run(s, j, steps), sp) <==>
      EndsInMessage(steps, sp) || (!Out(j, sp) && NoneLater(steps, -1, Expired(sp)))
    decreases |steps|
  {
    if steps != [] {
      var e := steps[0].event;
      StepOut(s, j, e, steps[0].at, sp);
      StepWatched(s, j, e, steps[0].at);
      RunOut(s, Step(s, j, e, steps[0].at), steps[1..], sp);
      EndsInMessageTail(steps, sp);
      FirstNone(steps, Expired(sp));
    }
  }

  lemma FirstNone(steps: seq<Timed>, e: Event)
    requires steps != []
    ensures NoneLater(steps, -1, e) <==> steps[0].event != e && NoneLater(steps[1..], -1, e)
    ensures NoneLater(steps, 0, e) <==> NoneLater(steps[1..], -1, e)
  {
    assert forall k :: 0 < k < |steps| ==> steps[k] == steps[1..][k - 1];
  }

  /** Starting to poll takes two critical sections. Whatever happens between them, the second leaves
      the stream on fallback with nobody polling it exactly when the last word on it in between was a
      message: that finds the poller and drops it before fallback has begun. */
  lemma OverlapEngages(s: Settings, j: Joint, between: seq<Timed>, sp: StreamSpec, now: int)
    requires Watched(s, j) && sp in s.watched && sp !in j.active
    ensures
      var inserted := j.(active := j.active + {sp});
      var late := Tell(s, Run(s, inserted, between), FallbackEngaged(sp), now);
      && (Stuck(late, sp) <==> EndsInMessage(between, sp))
      && sp in late.tracker.streams && At(late, sp).since.Some?
  {
    var inserted := j.(active := j.active + {sp});
    RunOut(s, inserted, between, sp);
    EngagedSince(s, Run(s, inserted, between), sp, now);
  }

  lemma EngagedSince(s: Settings, j: Joint, sp: StreamSpec, now: int)
    requires sp in j.tracker.streams
    ensures
      var late := Tell(s, j, FallbackEngaged(sp), now);
      sp in late.tracker.streams && At(late, sp).since.Some? && (Out(late, sp) <==> Out(j, sp))
  {
    TellMoves(s, j, FallbackEngaged(sp), now);
  }

  /** Writing a value takes several critical sections too: the poller asks whether it owns the stream,
      and writes later. Whatever happens in between, a write that fails leaves its mark on a stream with
      nobody polling it exactly when the last word on it in between was a message. */
  lemma OverlapWriteFails(s: Settings, j: Joint, between: seq<Timed>, sp: StreamSpec, now: int)
    requires Watched(s, j) && sp in s.watched && sp in j.active
    ensures
      var late := FinishPoll(s, Run(s, j, between), sp, 0, WriteFailed, now);
      && (Stuck(late, sp) <==> EndsInMessage(between, sp))
      && sp in late.tracker.streams && At(late, sp).fail != ""
  {
    RunOut(s, j, between, sp);
    WriteFailedMoves(s, Run(s, j, between), sp, now);
  }

  lemma PolledKeepsRejected(t: State, sp: StreamSpec, now: int)
    requires sp in t.streams
    ensures sp in Mutate(t, Health.Event.Polled(sp), now).state.streams
    ensures Mutate(t, Health.Event.Polled(sp), now).state.streams[sp].rejected == t.streams[sp].rejected
  {
  }

  lemma ServedShared(s: Settings, j: Joint, sp: StreamSpec, now: int)
    requires sp in j.tracker.streams
    ensures
      var t' := ServeOne(s, j, sp, now).tracker;
      && SameShared(j.tracker, t', sp)
      && t'.streams[sp].rejected == j.tracker.streams[sp].rejected
      && FactsOf(t'.streams[sp]) == At(j, sp).(expired := false, fail := "")
  {
    TellShared(s, j, Health.Event.Polled(sp), now);
    TellSocket(s, j, Health.Event.Polled(sp), now, sp);
    TellMoves(s, j, Health.Event.Polled(sp), now);
    PolledKeepsRejected(j.tracker, sp, now);
  }

  lemma HealthyExact(o: Health.Options, t: State, st: Stream, now: int)
    requires FactsOf(st).fail == "" && !FactsOf(st).expired
    ensures Compute(o, t, st, now).status == Healthy <==>
      st.fallbackSince == None && !st.rejected && VenueOnly(o, t, SocketOf(t, st)).status == Healthy
  {
  }

  /** A value that was cleared to be written goes out as healthy exactly when its stream has meanwhile
      recovered and the venue is well; while a poller serves the stream it never does. */
  lemma OverlapServes(s: Settings, j0: Joint, steps: seq<Timed>, sp: StreamSpec, now: int)
    requires Initial(s, j0) && (forall x <- steps :: Legal(x.event))
    requires sp in Run(s, j0, steps).tracker.streams
    ensures
      var j := Run(s, j0, steps);
      var st := j.tracker.streams[sp];
      var j' := ServeOne(s, j, sp, now);
      && sp in j'.tracker.streams
      && j'.data == j.data + [Publication(sp, Rest, Compute(s.health, j'.tracker, j'.tracker.streams[sp], now))]
      && (Compute(s.health, j'.tracker, j'.tracker.streams[sp], now).status == Healthy <==>
            sp !in j.active && !st.rejected
            && VenueOnly(s.health, j.tracker, SocketOf(j.tracker, st)).status == Healthy)
  {
    RunKeeps(s, j0, steps);
    var j := Run(s, j0, steps);
    assert AgreesOn(j, sp);
    var t' := ServeOne(s, j, sp, now).tracker;
    ServedShared(s, j, sp, now);
    SharedJudged(s.health, j.tracker, t', sp);
    HealthyExact(s.health, t', t'.streams[sp], now);
  }

  lemma TellStuck(s: Settings, j: Joint, e: Health.Event, now: int, sp: StreamSpec)
    requires Stuck(j, sp)
    requires AboutStream(e) && e.sp == sp ==> e.Received? || e.StreamRestarted? || (e.FallbackFailed? && e.reason != "")
    ensures Stuck(Tell(s, j, e, now), sp)
    ensures At(j, sp).fail != "" ==> At(Tell(s, j, e, now), sp).fail != ""
  {
    TellAffects(s, j, e, now, sp);
  }

  /** How little can happen to a stuck stream. */
  ghost predicate StaysStuck(j: Joint, j': Joint, sp: StreamSpec) {
    Stuck(j', sp) && (At(j, sp).fail != "" ==> At(j', sp).fail != "")
  }

  lemma MovesStuck(j: Joint, j': Joint, sp: StreamSpec, q: StreamSpec, to: Facts)
    requires Stuck(j, sp) && q != sp && Moves(j, j', q, to)
    requires sp !in j'.active && sp !in j'.expired
    ensures StaysStuck(j, j', sp)
  {
  }

  lemma PollStuck(s: Settings, j: Joint, q: StreamSpec, poll: Poll, now: int, sp: StreamSpec)
    requires Stuck(j, sp) && forall r <- j.active :: r in j.tracker.streams
    ensures StaysStuck(j, DoPoll(s, j, q, poll, now), sp)
  {
    if q in j.active {
      match poll
      case FetchFailed => TellStuck(s, j, FallbackFailed(q, REASON_POLL), now, sp);
      case Fetched(served, ending) =>
        var mid, j' := Serve(s, j, q, served, now), DoPoll(s, j, q, poll, now);
        ServeMoves(s, j, q, served, now);
        FinishPollMoves(s, mid, q, served, ending, now);
        MovesThen(j, mid, j', q, At(mid, q), At(j', q));
        MovesStuck(j, j', sp, q, At(j', q));
    }
  }

  lemma ExpiredStuck(s: Settings, j: Joint, q: StreamSpec, now: int, sp: StreamSpec)
    requires Stuck(j, sp) && q != sp && q in j.tracker.streams
    ensures StaysStuck(j, Engage(s, MarkExpired(s, j, q, now), q, now), sp)
  {
    var j' := Engage(s, MarkExpired(s, j, q, now), q, now);
    ExpiredMoves(s, j, q, now);
    MovesStuck(j, j', sp, q, At(j', q));
  }

  lemma DeliverStuck(s: Settings, j: Joint, q: StreamSpec, now: int, sp: StreamSpec)
    requires Stuck(j, sp)
    ensures StaysStuck(j, Deliver(s, j, q, now), sp)
  {
    DeliverMoves(s, j, q, now);
    if q != sp {
      MovesStuck(j, Deliver(s, j, q, now), sp, q, if q in j.active || q in j.expired then Facts(None, "", false)
                                                  else At(j, q).(expired := false));
    }
  }

  lemma StepStuck(s: Settings, j: Joint, e: Event, now: int, sp: StreamSpec)
    requires Stuck(j, sp) && Legal(e) && e != Expired(sp) && Watched(s, j)
    ensures StaysStuck(j, Step(s, j, e, now), sp)
  {
    match e
    case Expired(q) => if q in s.watched { ExpiredStuck(s, j, q, now, sp); }
    case Polled(q, poll) => PollStuck(s, j, q, poll, now, sp);
    case LatePolled(q, poll) =>
      if q in j.retired && Fails(poll) {
        TellStuck(s, j, FallbackFailed(q, if poll == FetchFailed then REASON_POLL else REASON_EMPTY), now, sp);
      }
    case Message(q) => DeliverStuck(s, j, q, now, sp);
    case Other(event) => TellStuck(s, j, event, now, sp);
    case Heartbeat =>
  }

  /** Only watched streams are polled, and the tracker knows them. */
  ghost predicate Watched(s: Settings, j: Joint) {
    j.active <= s.watched <= j.tracker.streams.Keys
  }

  lemma StepWatched(s: Settings, j: Joint, e: Event, now: int)
    requires Watched(s, j)
    ensures Watched(s, Step(s, j, e, now))
  {
    match e
    case Expired(q) => if q in s.watched { ExpiredMoves(s, j, q, now); }
    case Polled(q, poll) => PollWatched(s, j, q, poll, now);
    case LatePolled(q, poll) =>
      if q in j.retired && Fails(poll) {
        TellKeys(s, j, FallbackFailed(q, if poll == FetchFailed then REASON_POLL else REASON_EMPTY), now);
      }
    case Message(q) => DeliverMoves(s, j, q, now);
    case Other(event) => TellKeys(s, j, event, now);
    case Heartbeat =>
  }

  lemma PollWatched(s: Settings, j: Joint, q: StreamSpec, poll: Poll, now: int)
    requires Watched(s, j)
    ensures Watched(s, DoPoll(s, j, q, poll, now))
  {
    if q in j.active {
      match poll
      case FetchFailed => TellKeys(s, j, FallbackFailed(q, REASON_POLL), now);
      case Fetched(served, ending) =>
        ServeMoves(s, j, q, served, now);
        FinishPollMoves(s, Serve(s, j, q, served, now), q, served, ending, now);
    }
  }

  lemma {:induction false} RunStuck(s: Settings, j: Joint, steps: seq<Timed>, sp: StreamSpec)
    requires Stuck(j, sp) && Watched(s, j)
    requires forall x <- steps :: Legal(x.event) && x.event != Expired(sp)
    ensures StaysStuck(j, Run(s, j, steps), sp)
    decreases |steps|
  {
    if steps != [] {
      StepStuck(s, j, steps[0].event, steps[0].at, sp);
      StepWatched(s, j, steps[0].event, steps[0].at);
      RunStuck(s, Step(s, j, steps[0].event, steps[0].at), steps[1..], sp);
    }
  }

  /** Until its key next expires no message, poll, heartbeat or other event makes such a stream well:
      with a failure on it it stays stale, and without one it is never better than degraded. */
  lemma StuckUntilExpiry(s: Settings, j: Joint, steps: seq<Timed>, sp: StreamSpec, now: int)
    requires Stuck(j, sp) && Watched(s, j)
    requires forall x <- steps :: Legal(x.event) && x.event != Expired(sp)
    ensures
      var j' := Run(s, j, steps);
      && Stuck(j', sp)
      && Compute(s.health, j'.tracker, j'.tracker.streams[sp], now).status in {Degraded, Stale}
      && (At(j, sp).fail != "" ==> Compute(s.health, j'.tracker, j'.tracker.streams[sp], now).status == Stale)
  {
    RunStuck(s, j, steps, sp);
    var j' := Run(s, j, steps);
    OnFallbackNotHealthy(s.health, j'.tracker, j'.tracker.streams[sp], now);
  }

  /** Once its key has expired again, a message wipes the stream clean, whatever state it was in. */
  lemma ExpiryThenMessage(s: Settings, j: Joint, sp: StreamSpec, at: int, now: int)
    requires sp in s.watched && sp in j.tracker.streams
    ensures
      var j' := Step(s, Step(s, j, Expired(sp), at), Message(sp), now);
      sp in j'.tracker.streams && At(j', sp) == Facts(None, "", false)
  {
    ExpiredOut(s, j, sp, at);
    MessageWipes(s, Step(s, j, Expired(sp), at), sp, now);
  }

  lemma ExpiredOut(s: Settings, j: Joint, sp: StreamSpec, at: int)
    requires sp in s.watched && sp in j.tracker.streams
    ensures
      var j' := Step(s, j, Expired(sp), at);
      sp in j'.expired && sp in j'.tracker.streams
  {
    ExpiredMoves(s, j, sp, at);
  }
}
