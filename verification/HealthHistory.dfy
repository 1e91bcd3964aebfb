/** What the tracker remembers: after any run, each thing it keeps is what the last event that spoke of it said. */
module HealthHistory {
  import opened Wrappers
  import opened Core
  import opened Keys
  import opened Health
  import opened HealthCoherence

  /** r is what the last of these steps to say anything said, or what held before if none did. */
  ghost predicate HoldsLast<T(!new)>(steps: seq<Timed>, said: Timed -> Option<T>, before: T, r: T) {
    || (exists k :: 0 <= k < |steps| && said(steps[k]) == Some(r) && SilentAfter(steps, said, k))
    || (r == before && SilentAfter(steps, said, -1))
  }

  ghost predicate SilentAfter<T(!new)>(steps: seq<Timed>, said: Timed -> Option<T>, k: int)
    requires -1 <= k
  {
    forall j :: k < j < |steps| ==> said(steps[j]) == None
  }

  function Told<T>(told: Option<T>, before: T): T {
    if told.Some? then told.value else before
  }

  lemma HoldsTail<T(!new)>(steps: seq<Timed>, said: Timed -> Option<T>, before: T, r: T)
    requires steps != [] && HoldsLast(steps[1..], said, Told(said(steps[0]), before), r)
    ensures HoldsLast(steps, said, before, r)
  {
    var rest, next := steps[1..], Told(said(steps[0]), before);
    if r == next && SilentAfter(rest, said, -1) {
      SilentTail(steps, said, -1);
      if said(steps[0]).Some? {
        assert said(steps[0]) == Some(r) && SilentAfter(steps, said, 0);
      } else {
        assert SilentAfter(steps, said, -1);
      }
    } else {
      var k :| 0 <= k < |rest| && said(rest[k]) == Some(r) && SilentAfter(rest, said, k);
      SilentTail(steps, said, k);
      assert said(steps[k + 1]) == Some(r) && SilentAfter(steps, said, k + 1);
    }
  }

  lemma SilentTail<T(!new)>(steps: seq<Timed>, said: Timed -> Option<T>, k: int)
    requires steps != [] && -1 <= k && SilentAfter(steps[1..], said, k)
    ensures SilentAfter(steps, said, k + 1)
  {
    forall j | k + 1 < j < |steps| ensures said(steps[j]) == None {
      assert steps[j] == steps[1..][j - 1];
    }
  }

  // ---------- one stream ----------

  function ExpirySaid(sp: StreamSpec, x: Timed): Option<bool> {
    if x.op == Happen(KeyExpired(sp)) then Some(true)
    else if x.op == Happen(Received(sp)) || x.op == Happen(Polled(sp)) then Some(false)
    else None
  }

  function RejectionSaid(sp: StreamSpec, id: string, x: Timed): Option<bool> {
    if x.op == Happen(FrameRejected(id)) then Some(true)
    else if x.op == Happen(Received(sp)) then Some(false)
    else None
  }

  function FailureSaid(sp: StreamSpec, x: Timed): Option<string> {
    if x.op.Happen? && x.op.event.FallbackFailed? && x.op.event.sp == sp then Some(x.op.event.reason)
    else if x.op == Happen(Polled(sp)) || x.op == Happen(FallbackDisengaged(sp)) then Some("")
    else None
  }

  function FallbackSaid(sp: StreamSpec, x: Timed): Option<bool> {
    if x.op == Happen(FallbackEngaged(sp)) then Some(true)
    else if x.op == Happen(FallbackDisengaged(sp)) then Some(false)
    else None
  }

  function HeardSaid(sp: StreamSpec, x: Timed): Option<Option<int>> {
    if x.op == Happen(Received(sp)) || x.op == Happen(Polled(sp)) then Some(Some(x.at)) else None
  }

  function At(t: State, sp: StreamSpec): Stream {
    if sp in t.streams then t.streams[sp] else Stream("", None, Websocket, 0, false, false, None, "", UNREPORTED)
  }

  /** What one step leaves of a stream's record, its cached status aside. */
  function Kept(o: Options, t: State, x: Timed, sp: StreamSpec): Stream
    requires sp in t.streams
  {
    if x.op.Happen? && (x.op.event.MetadataState? ==> o.metadataRequired)
    then At(Mutate(t, x.op.event, x.at).state, sp) else t.streams[sp]
  }

  predicate SameRecord(a: Stream, b: Stream) {
    a == b.(cached := a.cached)
  }

  lemma RefreshKeeps(o: Options, t: State, touched: set<InstrumentRef>, now: int, sp: StreamSpec)
    requires sp in t.streams
    ensures
      var t' := Refresh(o, t, touched, now).state;
      sp in t'.streams && SameRecord(t'.streams[sp], t.streams[sp])
  {
  }

  lemma StepKept(o: Options, t: State, x: Timed, sp: StreamSpec)
    requires sp in t.streams
    ensures sp in Perform(o, t, x).streams && SameRecord(Perform(o, t, x).streams[sp], Kept(o, t, x, sp))
  {
    match x.op
    case Declare(other, venueSymbol, id) =>
      if other !in t.streams {
        var c := Registered(o, t, other, venueSymbol, id);
        RefreshKeeps(o, c.state, c.touched, x.at, sp);
      }
    case Happen(e) =>
      MutateShape(t, e, x.at);
      var c := Mutate(t, e, x.at);
      RefreshKeeps(o, c.state, c.touched, x.at, sp);
    case Heartbeat => RefreshKeeps(o, t, All(t), x.at, sp);
  }

  /** An event about no stream in particular leaves a stream's record alone, but for rejected frames. */
  lemma SharedKeeps(t: State, e: Event, now: int, sp: StreamSpec)
    requires sp in t.streams && !AboutStream(e)
    ensures
      var s := t.streams[sp];
      sp in Mutate(t, e, now).state.streams && Mutate(t, e, now).state.streams[sp]
        == s.(rejected := s.rejected || e == FrameRejected(s.socketID))
  {
  }

  lemma ExpiryTold(t: State, e: Event, now: int, sp: StreamSpec)
    requires sp in t.streams && AboutStream(e)
    ensures
      var s, s' := t.streams[sp], At(MutateStream(t, e, now).state, sp);
      && s'.socketID == s.socketID
      && s'.expired == Told(ExpirySaid(sp, Timed(Happen(e), now)), s.expired)
      && s'.rejected == (s.rejected && e != Received(sp))
  {
  }

  lemma FallbackTold(t: State, e: Event, now: int, sp: StreamSpec)
    requires sp in t.streams && AboutStream(e)
    ensures
      var s, s' := t.streams[sp], At(MutateStream(t, e, now).state, sp);
      && s'.fallbackFail == Told(FailureSaid(sp, Timed(Happen(e), now)), s.fallbackFail)
      && s'.fallbackSince.Some? == Told(FallbackSaid(sp, Timed(Happen(e), now)), s.fallbackSince.Some?)
  {
  }

  lemma HeardTold(t: State, e: Event, now: int, sp: StreamSpec)
    requires sp in t.streams && AboutStream(e)
    ensures
      At(MutateStream(t, e, now).state, sp).lastMessage
        == Told(HeardSaid(sp, Timed(Happen(e), now)), t.streams[sp].lastMessage)
  {
  }

  /** One stream's record after a step says what the step said of it. */
  ghost predicate Says(s: Stream, x: Timed, sp: StreamSpec, s': Stream) {
    && s'.socketID == s.socketID
    && s'.expired == Told(ExpirySaid(sp, x), s.expired)
    && s'.rejected == Told(RejectionSaid(sp, s.socketID, x), s.rejected)
    && s'.fallbackFail == Told(FailureSaid(sp, x), s.fallbackFail)
    && s'.fallbackSince.Some? == Told(FallbackSaid(sp, x), s.fallbackSince.Some?)
    && s'.lastMessage == Told(HeardSaid(sp, x), s.lastMessage)
  }

  lemma StepSays(o: Options, t: State, x: Timed, sp: StreamSpec)
    requires sp in t.streams
    ensures sp in Perform(o, t, x).streams && Says(t.streams[sp], x, sp, Perform(o, t, x).streams[sp])
  {
    StepKept(o, t, x, sp);
    KeptSays(o, t, x, sp);
  }

  lemma KeptSays(o: Options, t: State, x: Timed, sp: StreamSpec)
    requires sp in t.streams
    ensures Says(t.streams[sp], x, sp, Kept(o, t, x, sp))
  {
    if x.op.Happen? {
      var e := x.op.event;
      if AboutStream(e) {
        ExpiryTold(t, e, x.at, sp);
        FallbackTold(t, e, x.at, sp);
        HeardTold(t, e, x.at, sp);
      } else {
        SharedKeeps(t, e, x.at, sp);
      }
    }
  }

  function Expiry(sp: StreamSpec): Timed -> Option<bool> {
    (x: Timed) => ExpirySaid(sp, x)
  }

  function Rejection(sp: StreamSpec, id: string): Timed -> Option<bool> {
    (x: Timed) => RejectionSaid(sp, id, x)
  }

  function Failure(sp: StreamSpec): Timed -> Option<string> {
    (x: Timed) => FailureSaid(sp, x)
  }

  function Resting(sp: StreamSpec): Timed -> Option<bool> {
    (x: Timed) => FallbackSaid(sp, x)
  }

  function Heard(sp: StreamSpec): Timed -> Option<Option<int>> {
    (x: Timed) => HeardSaid(sp, x)
  }

  /** A stream's record after some steps is what the last of them to speak of each part of it said. */
  ghost predicate Recalls(s: Stream, steps: seq<Timed>, sp: StreamSpec, s': Stream) {
    && s'.socketID == s.socketID
    && HoldsLast(steps, Expiry(sp), s.expired, s'.expired)
    && HoldsLast(steps, Rejection(sp, s.socketID), s.rejected, s'.rejected)
    && HoldsLast(steps, Failure(sp), s.fallbackFail, s'.fallbackFail)
    && HoldsLast(steps, Resting(sp), s.fallbackSince.Some?, s'.fallbackSince.Some?)
    && HoldsLast(steps, Heard(sp), s.lastMessage, s'.lastMessage)
  }

  /** After any run a stream is expired if its key has expired with no value since, rejected if a frame of
      its socket was with no message since, failed for the last reason given with no value or message
      since, on fallback if that began with no message since, and last heard of when it last was. */
  lemma {:induction false} StreamRemembers(o: Options, t: State, steps: seq<Timed>, sp: StreamSpec)
    requires sp in t.streams
    ensures sp in Run(o, t, steps).streams
    ensures Recalls(t.streams[sp], steps, sp, Run(o, t, steps).streams[sp])
    decreases |steps|
  {
    if steps != [] {
      var t1 := Perform(o, t, steps[0]);
      StepSays(o, t, steps[0], sp);
      StreamRemembers(o, t1, steps[1..], sp);
      RecallsTail(t.streams[sp], t1.streams[sp], steps, sp, Run(o, t, steps).streams[sp]);
    }
  }

  lemma RecallsTail(s: Stream, s1: Stream, steps: seq<Timed>, sp: StreamSpec, s': Stream)
    requires steps != [] && Says(s, steps[0], sp, s1) && Recalls(s1, steps[1..], sp, s')
    ensures Recalls(s, steps, sp, s')
  {
    HoldsTail(steps, Expiry(sp), s.expired, s'.expired);
    HoldsTail(steps, Rejection(sp, s.socketID), s.rejected, s'.rejected);
    HoldsTail(steps, Failure(sp), s.fallbackFail, s'.fallbackFail);
    HoldsTail(steps, Resting(sp), s.fallbackSince.Some?, s'.fallbackSince.Some?);
    HoldsTail(steps, Heard(sp), s.lastMessage, s'.lastMessage);
  }

  /** Fallback began at step k: that step engaged it and found it off. */
  ghost predicate BeganAt(o: Options, t: State, steps: seq<Timed>, sp: StreamSpec, k: nat)
    requires k < |steps|
  {
    steps[k].op == Happen(FallbackEngaged(sp)) && At(Run(o, t, steps[..k]), sp).fallbackSince == None
  }

  predicate NoneSince(steps: seq<Timed>, k: int, e: Event)
    requires -1 <= k
  {
    forall j :: k < j < |steps| ==> steps[j].op != Happen(e)
  }

  lemma SinceTold(o: Options, t: State, x: Timed, sp: StreamSpec)
    requires sp in t.streams
    ensures sp in Perform(o, t, x).streams
    ensures Perform(o, t, x).streams[sp].fallbackSince ==
      if x.op == Happen(FallbackDisengaged(sp)) then None
      else if x.op == Happen(FallbackEngaged(sp)) && t.streams[sp].fallbackSince == None then Some(x.at)
      else t.streams[sp].fallbackSince
  {
    StepKept(o, t, x, sp);
    if x.op.Happen? {
      if AboutStream(x.op.event) {
        SinceMutated(t, x.op.event, x.at, sp);
      } else {
        SharedKeeps(t, x.op.event, x.at, sp);
      }
    }
  }

  lemma SinceMutated(t: State, e: Event, now: int, sp: StreamSpec)
    requires sp in t.streams && AboutStream(e)
    ensures At(MutateStream(t, e, now).state, sp).fallbackSince ==
      if e == FallbackDisengaged(sp) then None
      else if e == FallbackEngaged(sp) && t.streams[sp].fallbackSince == None then Some(now)
      else t.streams[sp].fallbackSince
  {
  }

  lemma NoneSinceTail(steps: seq<Timed>, k: int, e: Event)
    requires steps != [] && -1 <= k && NoneSince(steps[1..], k, e)
    ensures NoneSince(steps, k + 1, e)
  {
    forall j | k + 1 < j < |steps| ensures steps[j].op != Happen(e) {
      assert steps[j] == steps[1..][j - 1];
    }
  }

  /** A fallback under way began when it was engaged while off, and has not ended since; engaging it again does
      not move its start. */
  lemma {:induction false} FallbackBegan(o: Options, t: State, steps: seq<Timed>, sp: StreamSpec) returns (k: int)
    requires sp in t.streams && At(Run(o, t, steps), sp).fallbackSince.Some?
    ensures -1 <= k < |steps| && NoneSince(steps, k, FallbackDisengaged(sp))
    ensures k == -1 ==> At(Run(o, t, steps), sp).fallbackSince == t.streams[sp].fallbackSince
    ensures k >= 0 ==> BeganAt(o, t, steps, sp, k) && At(Run(o, t, steps), sp).fallbackSince == Some(steps[k].at)
    decreases |steps|
  {
    k := -1;
    if steps != [] {
      SinceTold(o, t, steps[0], sp);
      var t1 := Perform(o, t, steps[0]);
      var l := FallbackBegan(o, t1, steps[1..], sp);
      NoneSinceTail(steps, l, FallbackDisengaged(sp));
      if l >= 0 {
        assert steps[..l + 1][0] == steps[0] && steps[..l + 1][1..] == steps[1..][..l];
        k := l + 1;
      } else if t1.streams[sp].fallbackSince != t.streams[sp].fallbackSince {
        assert steps[..0] == [];
        k := 0;
      }
    }
  }

  // ---------- what all streams share ----------

  function MetadataSaid(o: Options): Timed -> Option<bool> {
    (x: Timed) =>
      if x.op.Happen? && x.op.event.MetadataState? && o.metadataRequired then Some(x.op.event.ok) else None
  }

  function ReasonSaid(o: Options): Timed -> Option<string> {
    (x: Timed) =>
      if x.op.Happen? && x.op.event.MetadataState? && o.metadataRequired && !x.op.event.ok
      then Some(x.op.event.reason) else None
  }

  function SkewSaid(): Timed -> Option<int> {
    (x: Timed) => if x.op.Happen? && x.op.event.ClockSkew? then Some(x.op.event.milliseconds) else None
  }

  function LeaksSaid(): Timed -> Option<int> {
    (x: Timed) => if x.op.Happen? && x.op.event.Leaked? then Some(x.op.event.n) else None
  }

  function SocketSaid(id: string): Timed -> Option<Option<Socket>> {
    (x: Timed) =>
      if x.op.Happen? && x.op.event.SocketState? && x.op.event.socketID == id
      then Some(Some(Socket(x.op.event.phase, x.op.event.reason))) else None
  }

  function SocketAt(t: State, id: string): Option<Socket> {
    if id in t.sockets then Some(t.sockets[id]) else None
  }

  /** Two states with the same metadata, clock and counters. */
  predicate SameShared(t: State, t': State) {
    && t'.metadataOK == t.metadataOK && t'.metadataReason == t.metadataReason
    && t'.skewMS == t.skewMS && t'.leaked == t.leaked && t'.reconnects == t.reconnects
  }

  /** The state an event makes, before anything is refreshed. */
  function Made(o: Options, t: State, x: Timed): State {
    if x.op.Happen? && (x.op.event.MetadataState? ==> o.metadataRequired)
    then Mutate(t, x.op.event, x.at).state else t
  }

  lemma StepMade(o: Options, t: State, x: Timed)
    ensures SameShared(Made(o, t, x), Perform(o, t, x))
    ensures !x.op.Declare? ==> Perform(o, t, x).sockets == Made(o, t, x).sockets
    ensures forall id <- t.sockets :: x.op.Declare? ==>
      id in Perform(o, t, x).sockets && Perform(o, t, x).sockets[id] == t.sockets[id]
  {
    if x.op.Declare? {
      DeclaredShared(o, t, x.op.sp, x.op.venueSymbol, x.op.socketID, x.at);
    }
  }

  lemma DeclaredShared(o: Options, t: State, sp: StreamSpec, venueSymbol: string, id: string, now: int)
    ensures
      var t' := Register(o, t, sp, venueSymbol, id, now);
      && SameShared(t, t')
      && forall known <- t.sockets :: known in t'.sockets && t'.sockets[known] == t.sockets[known]
  {
  }

  /** What one step leaves of what all streams share. */
  ghost predicate SharedSays(o: Options, t: State, x: Timed, t': State) {
    && t'.metadataOK == Told(MetadataSaid(o)(x), t.metadataOK)
    && t'.metadataReason == Told(ReasonSaid(o)(x), t.metadataReason)
    && t'.skewMS == Told(SkewSaid()(x), t.skewMS)
    && t'.leaked == Told(LeaksSaid()(x), t.leaked)
  }

  lemma MadeShared(o: Options, t: State, x: Timed)
    ensures SharedSays(o, t, x, Made(o, t, x))
  {
    if x.op.Happen? {
      if AboutStream(x.op.event) {
        MutateStreamShape(t, x.op.event, x.at);
        StreamSilent(o, x);
      } else {
        SharedMade(o, t, x);
      }
    }
  }

  lemma StreamSilent(o: Options, x: Timed)
    requires x.op.Happen? && AboutStream(x.op.event)
    ensures MetadataSaid(o)(x) == None && ReasonSaid(o)(x) == None && SkewSaid()(x) == None && LeaksSaid()(x) == None
  {
  }

  lemma SharedMade(o: Options, t: State, x: Timed)
    requires x.op.Happen? && !AboutStream(x.op.event)
    ensures SharedSays(o, t, x, Made(o, t, x))
  {
  }

  lemma MadeSocket(o: Options, t: State, x: Timed, id: string)
    ensures SocketAt(Made(o, t, x), id) == Told(SocketSaid(id)(x), SocketAt(t, id))
  {
    if x.op.Happen? && AboutStream(x.op.event) {
      MutateStreamShape(t, x.op.event, x.at);
    }
  }

  lemma StepSocket(o: Options, t: State, x: Timed, id: string)
    requires id in t.sockets || !x.op.Declare?
    ensures SocketAt(Perform(o, t, x), id) == Told(SocketSaid(id)(x), SocketAt(t, id))
  {
    StepMade(o, t, x);
    MadeSocket(o, t, x, id);
  }

  /** What every stream depends on: metadata as last reported, with the last reason why not, whenever metadata is
      required; and the clock's skew and the leaks as last reported. */
  lemma {:induction false} SharedRemembers(o: Options, t: State, steps: seq<Timed>)
    ensures
      var t' := Run(o, t, steps);
      && HoldsLast(steps, MetadataSaid(o), t.metadataOK, t'.metadataOK)
      && HoldsLast(steps, ReasonSaid(o), t.metadataReason, t'.metadataReason)
      && HoldsLast(steps, SkewSaid(), t.skewMS, t'.skewMS)
      && HoldsLast(steps, LeaksSaid(), t.leaked, t'.leaked)
    decreases |steps|
  {
    if steps != [] {
      StepMade(o, t, steps[0]);
      MadeShared(o, t, steps[0]);
      SharedRemembers(o, Perform(o, t, steps[0]), steps[1..]);
      var t' := Run(o, t, steps);
      HoldsTail(steps, MetadataSaid(o), t.metadataOK, t'.metadataOK);
      HoldsTail(steps, ReasonSaid(o), t.metadataReason, t'.metadataReason);
      HoldsTail(steps, SkewSaid(), t.skewMS, t'.skewMS);
      HoldsTail(steps, LeaksSaid(), t.leaked, t'.leaked);
    }
  }

  /** Metadata gates a venue that requires it and no other: from the start, for want of any, until it is first
      reported well. */
  lemma MetadataGate(o: Options, steps: seq<Timed>)
    ensures
      var t := Run(o, Fresh(o), steps);
      && (!o.metadataRequired ==> t.metadataOK)
      && (o.metadataRequired && (forall x <- steps :: MetadataSaid(o)(x) != Some(true)) ==> !t.metadataOK)
      && (o.metadataRequired && (forall x <- steps :: MetadataSaid(o)(x) == None) ==>
            t.metadataReason == "metadata unavailable")
  {
    SharedRemembers(o, Fresh(o), steps);
  }

  /** A socket is what was last reported of it. */
  lemma {:induction false} SocketRemembered(o: Options, t: State, steps: seq<Timed>, id: string)
    requires id in t.sockets || forall x <- steps :: !x.op.Declare?
    ensures HoldsLast(steps, SocketSaid(id), SocketAt(t, id), SocketAt(Run(o, t, steps), id))
    decreases |steps|
  {
    if steps != [] {
      StepSocket(o, t, steps[0], id);
      SocketRemembered(o, Perform(o, t, steps[0]), steps[1..], id);
      HoldsTail(steps, SocketSaid(id), SocketAt(t, id), SocketAt(Run(o, t, steps), id));
    }
  }

  // ---------- where streams start ----------

  /** A stream starts clean when it is first declared, on its socket, which is dialling if nothing is known of it;
      and declaring it again changes nothing. */
  lemma DeclaredClean(o: Options, t: State, sp: StreamSpec, venueSymbol: string, id: string, now: int)
    ensures
      var t' := Register(o, t, sp, venueSymbol, id, now);
      && (sp in t.streams ==> t' == t)
      && (sp !in t.streams ==>
            && t'.streams.Keys == t.streams.Keys + {sp}
            && SameRecord(t'.streams[sp], Stream(id, None, Websocket, 0, false, false, None, "", UNREPORTED))
            && t'.sockets == if id == "" || id in t.sockets then t.sockets
                             else t.sockets[id := Socket(Dialing, "not yet connected")])
  {
    if sp !in t.streams {
      var c := Registered(o, t, sp, venueSymbol, id);
      RefreshKeeps(o, c.state, c.touched, now, sp);
    }
  }

  /** The instrument a stream belongs to. */
  predicate Belongs(t: State, i: nat, sp: StreamSpec) {
    i < |t.order| && t.order[i].reference == sp.instrument
  }

  /** The i-th instrument under the same name and key, with these streams. */
  predicate Keeps(was: Instrument, now: Instrument, streams: seq<StreamSpec>) {
    && now.reference == was.reference && now.key == was.key && now.venueSymbol == was.venueSymbol
    && now.streams == streams
  }

  lemma RegisteredNames(o: Options, t: State, sp: StreamSpec, venueSymbol: string, id: string, i: nat)
    requires i < |t.order|
    ensures
      var order := Registered(o, t, sp, venueSymbol, id).state.order;
      i < |order| && Keeps(t.order[i], order[i], t.order[i].streams + if Belongs(t, i, sp) then [sp] else [])
  {
    assert t.order[i].streams + [] == t.order[i].streams;
  }

  lemma RegisteredNew(o: Options, t: State, sp: StreamSpec, venueSymbol: string, id: string)
    ensures
      var order, n := Registered(o, t, sp, venueSymbol, id).state.order, |t.order|;
      && |order| == n + (if sp.instrument in All(t) then 0 else 1)
      && (sp.instrument !in All(t) ==>
            Keeps(Instrument(sp.instrument, venueSymbol, HealthKey(o, sp.instrument), [], UNREPORTED), order[n], [sp]))
  {
  }

  /** Declaring a stream lists it last under its instrument, which keeps its name and key if it is known, and
      else comes last, under the name given and its own health key; no other instrument changes. */
  lemma DeclaredListed(o: Options, t: State, sp: StreamSpec, venueSymbol: string, id: string, now: int, i: nat)
    requires sp !in t.streams
    ensures
      var order, n := Register(o, t, sp, venueSymbol, id, now).order, |t.order|;
      && |order| == n + (if sp.instrument in All(t) then 0 else 1)
      && (i < n ==> Keeps(t.order[i], order[i], t.order[i].streams + if Belongs(t, i, sp) then [sp] else []))
      && (sp.instrument !in All(t) ==>
            && order[n].reference == sp.instrument && order[n].venueSymbol == venueSymbol
            && order[n].key == Key(o.venue, sp.instrument.marketType, sp.instrument.Canonical(), CHANNEL_HEALTH)
            && order[n].streams == [sp])
  {
    var c := Registered(o, t, sp, venueSymbol, id);
    RegisteredNew(o, t, sp, venueSymbol, id);
    RefreshNames(o, c.state, c.touched, now, |t.order|);
    if i < |t.order| {
      RegisteredNames(o, t, sp, venueSymbol, id, i);
      RefreshNames(o, c.state, c.touched, now, i);
    }
  }

  lemma RefreshNames(o: Options, t: State, touched: set<InstrumentRef>, now: int, i: nat)
    ensures
      var t' := Refresh(o, t, touched, now).state;
      |t'.order| == |t.order| && (i < |t.order| ==> t'.order[i] == t.order[i].(cached := t'.order[i].cached))
  {
  }

  lemma DeclaredStep(o: Options, t: State, x: Timed, sp: StreamSpec)
    ensures sp in Perform(o, t, x).streams <==>
      sp in t.streams || (x.op.Declare? && x.op.sp == sp)
  {
    if x.op.Happen? {
      MutateShape(t, x.op.event, x.at);
    } else if x.op.Declare? {
      DeclaredClean(o, t, x.op.sp, x.op.venueSymbol, x.op.socketID, x.at);
    }
  }

  /** The streams known are exactly those declared. */
  lemma {:induction false} KnownExact(o: Options, t: State, steps: seq<Timed>, sp: StreamSpec)
    ensures sp in Run(o, t, steps).streams <==>
      sp in t.streams || exists x <- steps :: x.op.Declare? && x.op.sp == sp
    decreases |steps|
  {
    if steps != [] {
      DeclaredStep(o, t, steps[0], sp);
      KnownExact(o, Perform(o, t, steps[0]), steps[1..], sp);
      assert forall x <- steps :: x == steps[0] || x in steps[1..];
    }
  }

  // ---------- counts ----------

  function Count(steps: seq<Timed>, e: Event): nat
    decreases |steps|
  {
    if steps == [] then 0 else (if steps[0].op == Happen(e) then 1 else 0) + Count(steps[1..], e)
  }

  function Reconnections(steps: seq<Timed>): nat
    decreases |steps|
  {
    if steps == [] then 0
    else (if steps[0].op.Happen? && steps[0].op.event.Reconnected? then 1 else 0) + Reconnections(steps[1..])
  }

  lemma RestartTold(t: State, e: Event, now: int, sp: StreamSpec)
    requires sp in t.streams && AboutStream(e)
    ensures At(MutateStream(t, e, now).state, sp).restarts
         == t.streams[sp].restarts + if e == StreamRestarted(sp) then 1 else 0
  {
  }

  lemma StepCounts(o: Options, t: State, x: Timed, sp: StreamSpec)
    requires sp in t.streams
    ensures sp in Perform(o, t, x).streams
    ensures Perform(o, t, x).streams[sp].restarts
         == t.streams[sp].restarts + if x.op == Happen(StreamRestarted(sp)) then 1 else 0
  {
    StepKept(o, t, x, sp);
    if x.op.Happen? {
      if AboutStream(x.op.event) {
        RestartTold(t, x.op.event, x.at, sp);
      } else {
        SharedKeeps(t, x.op.event, x.at, sp);
      }
    }
  }

  lemma MadeReconnects(o: Options, t: State, x: Timed)
    ensures Made(o, t, x).reconnects
         == t.reconnects + if x.op.Happen? && x.op.event.Reconnected? then 1 else 0
  {
    if x.op.Happen? && AboutStream(x.op.event) {
      MutateStreamShape(t, x.op.event, x.at);
    }
  }

  /** Restarts and reconnections are counted, each once. */
  lemma {:induction false} CountsExact(o: Options, t: State, steps: seq<Timed>, sp: StreamSpec)
    requires sp in t.streams
    ensures
      var t' := Run(o, t, steps);
      && sp in t'.streams && t'.streams[sp].restarts == t.streams[sp].restarts + Count(steps, StreamRestarted(sp))
      && t'.reconnects == t.reconnects + Reconnections(steps)
    decreases |steps|
  {
    if steps != [] {
      StepCounts(o, t, steps[0], sp);
      StepMade(o, t, steps[0]);
      MadeReconnects(o, t, steps[0]);
      CountsExact(o, Perform(o, t, steps[0]), steps[1..], sp);
    }
  }
}
