/** The tracker object: events change its fields in place, refresh what they touched and publish what
    moved. Each is proved to perform the step of the same name on the tracker's state. */
module HealthTracker {
  import opened Wrappers
  import opened Core
  import opened Decimal
  import opened Health
  import opened HealthCoherence
  import opened HealthPublish

  /** Positions in registration order. */
  predicate Ascending(touched: seq<nat>, n: nat) {
    && (forall j :: 0 <= j < |touched| ==> touched[j] < n)
    && (forall i, j :: 0 <= i < j < |touched| ==> touched[i] < touched[j])
  }

  function References(order: seq<Instrument>, touched: seq<nat>): set<InstrumentRef> {
    set k | k in touched && k < |order| :: order[k].reference
  }

  function UpTo(n: nat): (touched: seq<nat>)
    ensures Ascending(touched, n) && forall k: nat :: k < n ==> k in touched
  {
    if n == 0 then [] else UpTo(n - 1) + [n - 1]
  }

  /** A stream with its status recomputed. */
  function Rejudged(o: Options, t: State, sp: StreamSpec, now: int): Stream
    requires sp in t.streams
  {
    t.streams[sp].(cached := Compute(o, t, t.streams[sp], now))
  }

  /** The streams of t once those in specs are recomputed. */
  ghost predicate Rejudges(o: Options, t: State, specs: seq<StreamSpec>, now: int, streams: map<StreamSpec, Stream>) {
    && streams.Keys == t.streams.Keys
    && forall sp <- t.streams :: streams[sp] == if sp in specs then Rejudged(o, t, sp, now) else t.streams[sp]
  }

  lemma {:induction false} MovesNone(before: seq<Instrument>, after: seq<Instrument>, from: nat)
    requires |before| == |after| && from <= |before|
    requires forall i :: from <= i < |before| ==> after[i].cached == before[i].cached
    ensures Moves(before, after) == Moves(before[..from], after[..from])
  {
    if from < |before| {
      var n := |before| - 1;
      MovesNone(before[..n], after[..n], from);
      assert before[..n][..from] == before[..from] && after[..n][..from] == after[..from];
    } else {
      assert before[..from] == before && after[..from] == after;
    }
  }

  lemma ListedAt(t: State, sp: StreamSpec, k: nat)
    requires WellFormed(t) && sp in t.streams && k < |t.order|
    ensures sp in t.order[k].streams <==> sp.instrument == t.order[k].reference
  {
    assert Listed(t, sp) && Owned(t, k);
    var i :| 0 <= i < |t.order| && sp in t.order[i].streams;
    assert Owned(t, i);
  }

  /** What is cached does not matter to a recompute. */
  lemma RejudgedAgain(o: Options, t: State, t': State, sp: StreamSpec, now: int)
    requires sp in t.streams && sp in t'.streams
    requires t' == t.(streams := t'.streams, order := t'.order, venue := t'.venue)
    requires t'.streams[sp] == t.streams[sp].(cached := t'.streams[sp].cached)
    ensures Rejudged(o, t', sp, now) == Rejudged(o, t, sp, now)
  {
  }

  lemma RejudgesNext(o: Options, t: State, specs: seq<StreamSpec>, j: nat, now: int,
                     streams: map<StreamSpec, Stream>, s: Stream)
    requires j < |specs| && specs[j] in t.streams && Rejudges(o, t, specs[..j], now, streams)
    requires s == Rejudged(o, t, specs[j], now)
    ensures Rejudges(o, t, specs[..j + 1], now, streams[specs[j] := s])
    ensures streams[specs[j]] == s ==> streams[specs[j] := s] == streams
  {
    assert specs[..j + 1] == specs[..j] + [specs[j]];
  }

  lemma RefreshOneStream(o: Options, t: State, done: set<InstrumentRef>, k: nat, now: int,
                         t': State, streams: map<StreamSpec, Stream>, sp: StreamSpec)
    requires WellFormed(t) && k < |t.order| && sp in t.streams
    requires t' == t.(streams := RefreshStreams(o, t, done, now), order := t'.order, venue := t'.venue)
    requires Rejudges(o, t', t.order[k].streams, now, streams)
    ensures streams[sp] ==
      if sp.instrument in done + {t.order[k].reference} then Rejudged(o, t, sp, now) else t.streams[sp]
  {
    ListedAt(t, sp, k);
    RejudgedAgain(o, t, t', sp, now);
  }

  /** Refreshing one more instrument's streams. */
  lemma RefreshOneMore(o: Options, t: State, done: set<InstrumentRef>, k: nat, now: int,
                       t': State, streams: map<StreamSpec, Stream>)
    requires WellFormed(t) && k < |t.order|
    requires t' == t.(streams := RefreshStreams(o, t, done, now), order := t'.order, venue := t'.venue)
    requires Rejudges(o, t', t.order[k].streams, now, streams)
    ensures streams == RefreshStreams(o, t, done + {t.order[k].reference}, now)
  {
    forall sp <- t.streams
      ensures streams[sp] ==
        if sp.instrument in done + {t.order[k].reference} then Rejudged(o, t, sp, now) else t.streams[sp]
    {
      RefreshOneStream(o, t, done, k, now, t', streams, sp);
    }
  }

  /** One more snapshot when one more instrument is refreshed, those between left as they were. */
  lemma MovesNext(before: seq<Instrument>, during: seq<Instrument>, after: seq<Instrument>, from: nat, k: nat)
    requires |before| == |during| == |after| && from <= k < |before| && after == during[k := after[k]]
    requires forall i :: from <= i < k ==> during[i].cached == before[i].cached
    ensures Moves(before[..k + 1], after[..k + 1]) == Moves(before[..from], during[..from])
      + if after[k].cached == before[k].cached then [] else [Snapshot(after[k].key, after[k].cached)]
  {
    MovesNone(before[..k], during[..k], from);
    assert before[..k][..from] == before[..from] && during[..k][..from] == during[..from];
    assert before[..k + 1][..k] == before[..k] && after[..k + 1][..k] == during[..k];
  }

  lemma FoldOneMore(o: Options, t: State, done: set<InstrumentRef>, k: nat, now: int)
    requires WellFormed(t) && k < |t.order| && t.order[k].reference !in done
    ensures
      var was := RefreshStreams(o, t, done, now);
      var streams := RefreshStreams(o, t, done + {t.order[k].reference}, now);
      RefreshOrder(t, streams, done + {t.order[k].reference})
        == RefreshOrder(t, was, done)[k := t.order[k].(cached := Worst(streams, t.order[k].streams))]
  {
    var was := RefreshStreams(o, t, done, now);
    var streams := RefreshStreams(o, t, done + {t.order[k].reference}, now);
    forall i | 0 <= i < |t.order| && i != k
      ensures t.order[i].reference != t.order[k].reference
           && Worst(streams, t.order[i].streams) == Worst(was, t.order[i].streams)
    {
      assert Owned(t, i);
      WorstSame(was, streams, t.order[i].streams);
    }
  }

  lemma ReferencesNext(order: seq<Instrument>, touched: seq<nat>, n: nat)
    requires DistinctReferences(order) && Ascending(touched, |order|) && n < |touched|
    ensures References(order, touched[..n + 1]) == References(order, touched[..n]) + {order[touched[n]].reference}
    ensures order[touched[n]].reference !in References(order, touched[..n])
  {
    assert touched[..n + 1] == touched[..n] + [touched[n]];
    if r :| r in References(order, touched[..n]) && r == order[touched[n]].reference {
      var k :| k in touched[..n] && k < |order| && order[k].reference == r;
      assert k < touched[n];
    }
  }

  lemma AllReferences(t: State)
    ensures References(t.order, UpTo(|t.order|)) == All(t)
  {
  }

  predicate On(t: State, sp: StreamSpec, id: string, unrejected: bool) {
    sp in t.streams && t.streams[sp].socketID == id && !(unrejected && t.streams[sp].rejected)
  }

  ghost predicate AnyOn(t: State, k: nat, id: string, unrejected: bool)
    requires k < |t.order|
  {
    exists m :: 0 <= m < |t.order[k].streams| && On(t, t.order[k].streams[m], id, unrejected)
  }

  lemma OnReferences(t: State, touched: seq<nat>, id: string, unrejected: bool)
    requires WellFormed(t)
    requires forall k :: 0 <= k < |t.order| ==> (k in touched <==> AnyOn(t, k, id, unrejected))
    ensures References(t.order, touched) == set sp | sp in t.streams && On(t, sp, id, unrejected) :: sp.instrument
  {
    forall sp | sp in t.streams && On(t, sp, id, unrejected) ensures sp.instrument in References(t.order, touched) {
      assert Listed(t, sp);
      var k :| 0 <= k < |t.order| && sp in t.order[k].streams;
      assert Owned(t, k) && AnyOn(t, k, id, unrejected);
    }
    forall r <- References(t.order, touched)
      ensures exists sp :: sp in t.streams && On(t, sp, id, unrejected) && sp.instrument == r
    {
      var k :| k in touched && k < |t.order| && t.order[k].reference == r;
      assert AnyOn(t, k, id, unrejected) && Owned(t, k);
    }
  }

  function Mark(s: Stream, id: string): Stream {
    if Rejects(s, id) then s.(rejected := true) else s
  }

  /** The streams in specs that the socket carries are marked. */
  ghost predicate Marks(before: map<StreamSpec, Stream>, after: map<StreamSpec, Stream>,
                        specs: seq<StreamSpec>, id: string) {
    && after.Keys == before.Keys
    && forall sp <- before :: after[sp] == if sp in specs then Mark(before[sp], id) else before[sp]
  }

  ghost predicate ListedBefore(t: State, sp: StreamSpec, n: nat)
    requires n <= |t.order|
  {
    exists i :: 0 <= i < n && sp in t.order[i].streams
  }

  /** The streams of the first n instruments that the socket carries are marked. */
  ghost predicate Marked(t: State, streams: map<StreamSpec, Stream>, n: nat, id: string)
    requires n <= |t.order|
  {
    && streams.Keys == t.streams.Keys
    && forall sp <- t.streams ::
         streams[sp] == if ListedBefore(t, sp, n) then Mark(t.streams[sp], id) else t.streams[sp]
  }

  lemma MarkedNext(t: State, before: map<StreamSpec, Stream>, after: map<StreamSpec, Stream>, n: nat, id: string)
    requires n < |t.order| && Marked(t, before, n, id) && Marks(before, after, t.order[n].streams, id)
    ensures Marked(t, after, n + 1, id)
  {
    forall sp <- t.streams
      ensures ListedBefore(t, sp, n + 1) <==> ListedBefore(t, sp, n) || sp in t.order[n].streams
    {
      if sp in t.order[n].streams {
        assert ListedBefore(t, sp, n + 1);
      } else if ListedBefore(t, sp, n) {
        var i :| 0 <= i < n && sp in t.order[i].streams;
        assert ListedBefore(t, sp, n + 1);
      }
    }
  }

  lemma MarkedAll(t: State, streams: map<StreamSpec, Stream>, id: string)
    requires WellFormed(t) && Marked(t, streams, |t.order|, id)
    ensures streams == Reject(t, id).state.streams
  {
    forall sp <- t.streams ensures streams[sp] == Mark(t.streams[sp], id) {
      assert Listed(t, sp);
      assert ListedBefore(t, sp, |t.order|);
    }
    RejectMarks(t, id);
    assert streams == Reject(t, id).state.streams;
  }

  lemma RejectMarks(t: State, id: string)
    ensures Reject(t, id).state.streams.Keys == t.streams.Keys
    ensures forall sp <- t.streams :: Reject(t, id).state.streams[sp] == Mark(t.streams[sp], id)
  {
  }

  /** Adding the stream to the one instrument it belongs to, new or not. */
  lemma RegisteredAt(o: Options, t: State, sp: StreamSpec, venueSymbol: string, id: string,
                     order: seq<Instrument>, k: nat)
    requires WellFormed(t) && k < |order| && order[k].reference == sp.instrument
    requires
      || order == t.order
      || (&& order == t.order + [Instrument(sp.instrument, venueSymbol, HealthKey(o, sp.instrument), [], UNREPORTED)]
          && k == |t.order| && sp.instrument !in All(t))
    ensures
      var order' := order[k := order[k].(streams := order[k].streams + [sp])];
      order' == Registered(o, t, sp, venueSymbol, id).state.order
      && Ascending([k], |order'|) && References(order', [k]) == {sp.instrument}
  {
    var order' := order[k := order[k].(streams := order[k].streams + [sp])];
    assert k < |t.order| ==> t.order[k].reference in All(t);
    assert forall i :: 0 <= i < |t.order| ==> t.order[i].reference in All(t);
    assert k in [k];
  }

  /** The streams and instruments of t once those in done are refreshed. */
  ghost predicate Partial(o: Options, t: State, done: set<InstrumentRef>, now: int,
                          streams: map<StreamSpec, Stream>, order: seq<Instrument>) {
    streams == RefreshStreams(o, t, done, now) && order == RefreshOrder(t, streams, done)
  }

  /** What changed before position from is in moved, and nothing after it has changed. */
  ghost predicate MovedUpTo(before: seq<Instrument>, after: seq<Instrument>, from: nat, moved: seq<Snapshot>) {
    && |before| == |after| && from <= |before|
    && (forall i :: from <= i < |before| ==> after[i] == before[i])
    && moved == Moves(before[..from], after[..from])
  }

  function MoveAt(before: seq<Instrument>, after: seq<Instrument>, k: nat): seq<Snapshot>
    requires |before| == |after| && k < |before|
  {
    if after[k].cached == before[k].cached then [] else [Snapshot(after[k].key, after[k].cached)]
  }

  lemma MovedNext(before: seq<Instrument>, during: seq<Instrument>, after: seq<Instrument>,
                  from: nat, k: nat, moved: seq<Snapshot>)
    requires MovedUpTo(before, during, from, moved) && from <= k < |before|
    requires |after| == |before| && after == during[k := after[k]]
    ensures MovedUpTo(before, after, k + 1, moved + MoveAt(before, after, k))
  {
    MovesNext(before, during, after, from, k);
  }

  lemma MovedAll(before: seq<Instrument>, after: seq<Instrument>, from: nat, moved: seq<Snapshot>)
    requires MovedUpTo(before, after, from, moved)
    ensures moved == Moves(before, after)
  {
    MovesNone(before, after, from);
  }

  /** How far the first n of the touched positions reach. */
  function Reach(touched: seq<nat>, n: nat): nat
    requires n <= |touched|
  {
    if n == 0 then 0 else touched[n - 1] + 1
  }

  lemma SocketIDsNext(streams: map<StreamSpec, Stream>, done: seq<StreamSpec>, specs: seq<StreamSpec>, j: nat)
    requires j < |specs| && specs[j] in streams
    ensures
      var ids, id := SocketIDs(streams, done + specs[..j]), streams[specs[j]].socketID;
      SocketIDs(streams, done + specs[..j + 1]) == if id != "" && id !in ids then ids + [id] else ids
  {
    var longer := done + specs[..j + 1];
    assert longer[..|longer| - 1] == done + specs[..j];
  }

  /** The first n of the touched instruments are refreshed, and moved holds what changed. */
  ghost predicate Along(o: Options, t: State, t': State, touched: seq<nat>, n: nat, now: int, moved: seq<Snapshot>)
    requires n <= |touched| && Ascending(touched, |t.order|)
  {
    && t' == t.(streams := t'.streams, order := t'.order, venue := t'.venue)
    && Partial(o, t, References(t.order, touched[..n]), now, t'.streams, t'.order)
    && MovedUpTo(t.order, t'.order, Reach(touched, n), moved)
  }

  lemma AlongStart(o: Options, t: State, t': State, touched: seq<nat>, now: int)
    requires Ascending(touched, |t.order|) && t' == t.(venue := t'.venue)
    ensures Along(o, t, t', touched, 0, now, [])
  {
    assert References(t.order, touched[..0]) == {};
    assert RefreshStreams(o, t, {}, now) == t.streams;
  }

  lemma MovedAlong(before: seq<Instrument>, during: seq<Instrument>, after: seq<Instrument>,
                   touched: seq<nat>, n: nat, moved: seq<Snapshot>)
    requires n < |touched| && Ascending(touched, |before|)
    requires MovedUpTo(before, during, Reach(touched, n), moved)
    requires |after| == |before| && after == during[touched[n] := after[touched[n]]]
    ensures MovedUpTo(before, after, Reach(touched, n + 1), moved + MoveAt(before, after, touched[n]))
  {
    MovedNext(before, during, after, Reach(touched, n), touched[n], moved);
  }

  /** One more of the touched instruments refreshed. */
  lemma AlongNext(o: Options, t: State, during: State, after: State, touched: seq<nat>, n: nat, now: int,
                  moved: seq<Snapshot>)
    requires WellFormed(t) && n < |touched| && Ascending(touched, |t.order|)
    requires Along(o, t, during, touched, n, now, moved)
    requires after == t.(streams := after.streams, order := after.order, venue := after.venue)
    requires |after.order| == |t.order| && after.order == during.order[touched[n] := after.order[touched[n]]]
    requires Partial(o, t, References(t.order, touched[..n + 1]), now, after.streams, after.order)
    ensures Along(o, t, after, touched, n + 1, now, moved + MoveAt(t.order, after.order, touched[n]))
  {
    MovedAlong(t.order, during.order, after.order, touched, n, moved);
  }

  lemma AlongEnd(o: Options, t: State, t': State, touched: seq<nat>, now: int, moved: seq<Snapshot>)
    requires Ascending(touched, |t.order|) && Along(o, t, t', touched, |touched|, now, moved)
    ensures Partial(o, t, References(t.order, touched), now, t'.streams, t'.order) && moved == Moves(t.order, t'.order)
  {
    assert touched[..|touched|] == touched;
    MovedAll(t.order, t'.order, Reach(touched, |touched|), moved);
  }

  class Tracker {
    const options: Options
    var streams: map<StreamSpec, Stream>
    var order: seq<Instrument>
    var sockets: map<string, Socket>
    var skewMS: int
    var leaked: int
    var reconnects: nat
    var metadataOK: bool
    var metadataReason: string
    var venue: Verdict
    /** Everything published so far. */
    ghost var published: seq<Snapshot>

    function Current(): State
      reads this
    {
      State(streams, order, sockets, skewMS, leaked, reconnects, metadataOK, metadataReason, venue)
    }

    ghost predicate Valid()
      reads this
    {
      WellFormed(Current())
    }

    constructor (options: Options)
      ensures Valid() && this.options == options && Current() == Fresh(options) && published == []
    {
      this.options := options;
      streams, order, sockets := map[], [], map[];
      skewMS, leaked, reconnects := 0, 0, 0;
      metadataOK, metadataReason, venue := !options.metadataRequired, "metadata unavailable", UNREPORTED;
      published := [];
    }

    // ---------- reading ----------

    /** A stream's status now; one nobody registered has none worth trusting. */
    method StatusOf(sp: StreamSpec, now: int) returns (v: Verdict)
      ensures v == if sp in streams then Compute(options, Current(), streams[sp], now)
                   else Verdict(Stale, "stream not registered")
    {
      if sp !in streams {
        return Verdict(Stale, "stream not registered");
      }
      v := Compute(options, Current(), streams[sp], now);
    }

    /** The socket set in registration order. */
    method CollectSocketIDs() returns (ids: seq<string>)
      requires Valid()
      ensures ids == SocketIDs(streams, Specifications(order))
    {
      ids := [];
      var seen: set<string> := {};
      ghost var done := [];
      for i := 0 to |order|
        invariant done == Specifications(order[..i])
        invariant ids == SocketIDs(streams, done) && forall id :: id in seen <==> id in ids
      {
        assert Owned(Current(), i);
        ids, seen := AppendSocketIDs(order[i].streams, ids, seen, done);
        assert order[..i + 1][..i] == order[..i];
        done := done + order[i].streams;
      }
      assert order[..|order|] == order;
    }

    method AppendSocketIDs(specs: seq<StreamSpec>, ids0: seq<string>, seen0: set<string>, ghost done: seq<StreamSpec>)
      returns (ids: seq<string>, seen: set<string>)
      requires forall sp <- specs :: sp in streams
      requires ids0 == SocketIDs(streams, done) && forall id :: id in seen0 <==> id in ids0
      ensures ids == SocketIDs(streams, done + specs) && forall id :: id in seen <==> id in ids
    {
      ids, seen := ids0, seen0;
      assert done + specs[..0] == done;
      for j := 0 to |specs|
        invariant ids == SocketIDs(streams, done + specs[..j]) && forall id :: id in seen <==> id in ids
      {
        SocketIDsNext(streams, done, specs, j);
        var id := streams[specs[j]].socketID;
        if id != "" && id !in seen {
          seen := seen + {id};
          ids := ids + [id];
        }
      }
      assert specs[..|specs|] == specs;
    }

    method FindInPhase(ids: seq<string>, open: bool) returns (found: Option<string>)
      ensures found == FirstInPhase(sockets, ids, open)
    {
      var i := 0;
      while i < |ids|
        invariant i <= |ids| && FirstInPhase(sockets, ids, open) == FirstInPhase(sockets, ids[i..], open)
      {
        if ids[i] in sockets {
          var phase := sockets[ids[i]].phase;
          if (if open then phase == CircuitOpen else phase != Connected) {
            return Some(ids[i]);
          }
        }
        i := i + 1;
      }
      found := None;
    }

    method VenueStatus() returns (v: Verdict)
      requires Valid()
      ensures v == ComputeVenue(options, Current())
    {
      if !metadataOK {
        return Verdict(Stale, metadataReason);
      }
      var ids := CollectSocketIDs();
      var open := FindInPhase(ids, true);
      if open.Some? {
        return Verdict(Stale, "circuit open: " + open.value);
      }
      if Beyond(skewMS, options.skewStaleMS) {
        return Verdict(Stale, SkewText(skewMS));
      }
      if leaked > 0 {
        return Verdict(Degraded, "leaked goroutines: " + FormatInt(leaked));
      }
      var down := FindInPhase(ids, false);
      if down.Some? && down.value in sockets {
        var socket := sockets[down.value];
        return Verdict(Degraded, "socket " + down.value + " " + socket.phase.Name() + ": " + socket.reason);
      }
      if Beyond(skewMS, options.skewDegradedMS) {
        return Verdict(Degraded, SkewText(skewMS));
      }
      v := Verdict(Healthy, "");
    }

    method WorstOf(specs: seq<StreamSpec>) returns (v: Verdict)
      ensures v == Worst(streams, specs)
    {
      v := Verdict(Healthy, "");
      for j := 0 to |specs|
        invariant v == Worst(streams, specs[..j])
      {
        assert specs[..j + 1][..j] == specs[..j];
        var sp := specs[j];
        if sp in streams && streams[sp].cached.status.Rank() > v.status.Rank() {
          v := Verdict(streams[sp].cached.status, ChannelName(sp.channel) + ": " + streams[sp].cached.reason);
        }
      }
      assert specs[..|specs|] == specs;
    }

    method Find(reference: InstrumentRef) returns (touched: seq<nat>)
      requires DistinctReferences(order)
      ensures Ascending(touched, |order|) && References(order, touched) == {reference} * All(Current())
    {
      for i := 0 to |order|
        invariant forall k :: 0 <= k < i ==> order[k].reference != reference
      {
        if order[i].reference == reference {
          touched := [i];
          assert References(order, touched) == {reference};
          return;
        }
      }
      touched := [];
    }

    // ---------- refreshing ----------

    /** Recomputes the status of the touched instruments' streams and of the venue, and returns a
        snapshot of every verdict that changed. */
    method RefreshTouched(touched: seq<nat>, now: int) returns (moved: seq<Snapshot>)
      requires Valid() && Ascending(touched, |order|)
      modifies this`streams, this`order, this`venue
      ensures Valid()
      ensures
        var r := Refresh(options, old(Current()), References(old(order), touched), now);
        Current() == r.state && moved == r.moved
    {
      ghost var t := Current();
      var before := venue;
      venue := VenueStatus();
      moved := RefreshEach(touched, now, t);
      RefreshShape(options, t, References(t.order, touched), now);
      ShapeWellFormed(t, Current());
      if venue != before {
        moved := moved + [Snapshot(VenueHealthKey(options), venue)];
      }
    }

    method RefreshEach(touched: seq<nat>, now: int, ghost t: State) returns (moved: seq<Snapshot>)
      requires WellFormed(t) && Current() == t.(venue := venue) && Ascending(touched, |t.order|)
      modifies this`streams, this`order
      ensures Partial(options, t, References(t.order, touched), now, streams, order)
      ensures moved == Moves(t.order, order)
    {
      moved := [];
      AlongStart(options, t, Current(), touched, now);
      for n := 0 to |touched|
        invariant Along(options, t, Current(), touched, n, now, moved)
      {
        moved := RefreshNext(touched, n, now, t, moved);
      }
      AlongEnd(options, t, Current(), touched, now, moved);
    }

    method RefreshNext(touched: seq<nat>, n: nat, now: int, ghost t: State, moved: seq<Snapshot>)
      returns (moved': seq<Snapshot>)
      requires WellFormed(t) && n < |touched| && Ascending(touched, |t.order|)
      requires Along(options, t, Current(), touched, n, now, moved)
      modifies this`streams, this`order
      ensures Along(options, t, Current(), touched, n + 1, now, moved')
    {
      ghost var during := Current();
      ReferencesNext(t.order, touched, n);
      var snapshots := RefreshOne(touched[n], now, t, References(t.order, touched[..n]));
      AlongNext(options, t, during, Current(), touched, n, now, moved);
      moved' := moved + snapshots;
    }

    /** Refreshes one instrument, when done are the others already refreshed since t. */
    method RefreshOne(k: nat, now: int, ghost t: State, ghost done: set<InstrumentRef>) returns (moved: seq<Snapshot>)
      requires WellFormed(t) && Current() == t.(streams := streams, order := order, venue := venue)
      requires k < |t.order| && t.order[k].reference !in done
      requires Partial(options, t, done, now, streams, order)
      modifies this`streams, this`order
      ensures Partial(options, t, done + {t.order[k].reference}, now, streams, order)
      ensures |order| == |t.order| && order == old(order)[k := order[k]]
      ensures moved == MoveAt(t.order, order, k)
    {
      assert Owned(t, k);
      ghost var t' := Current();
      RefreshInstrument(k, now);
      RefreshOneMore(options, t, done, k, now, t', streams);
      FoldOneMore(options, t, done, k, now);
      var worst := WorstOf(order[k].streams);
      if worst == order[k].cached {
        assert order == order[k := t.order[k].(cached := worst)];
        return [];
      }
      order := order[k := order[k].(cached := worst)];
      moved := [Snapshot(order[k].key, worst)];
    }

    /** Recomputes the status of one instrument's streams. */
    method RefreshInstrument(k: nat, now: int)
      requires k < |order| && forall sp <- order[k].streams :: sp in streams
      modifies this`streams
      ensures Rejudges(options, old(Current()), order[k].streams, now, streams)
    {
      var specs := order[k].streams;
      for j := 0 to |specs|
        invariant Rejudges(options, old(Current()), specs[..j], now, streams)
      {
        var s := streams[specs[j]];
        var v := Compute(options, Current(), s, now);
        RejudgedAgain(options, old(Current()), Current(), specs[j], now);
        RejudgesNext(options, old(Current()), specs, j, now, streams, s.(cached := v));
        if v != s.cached {
          streams := streams[specs[j] := s.(cached := v)];
        }
      }
      assert specs[..|specs|] == specs;
    }

    // ---------- events ----------

    /** Publishes a batch, skipping what has no status yet. */
    method WriteOut(snapshots: seq<Snapshot>)
      modifies this`published
      ensures published == old(published) + Write(snapshots)
    {
      for n := 0 to |snapshots|
        invariant published == old(published) + Write(snapshots[..n])
      {
        assert snapshots[..n + 1][..n] == snapshots[..n];
        if snapshots[n].verdict.status != Unspecified {
          published := published + [snapshots[n]];
        }
      }
      assert snapshots[..|snapshots|] == snapshots;
    }

    /** The tracker has gone from t, with pub published, through one event. */
    ghost predicate Went(t: State, pub: seq<Snapshot>, e: Event, now: int)
      reads this
    {
      && Valid()
      && Current() == Update(options, t, e, now).state
      && published == pub + Write(Update(options, t, e, now).moved)
    }

    /** The rest of an event once its change has been made: refresh what it touched, publish what moved. */
    method Finish(ghost t: State, ghost e: Event, touched: seq<nat>, now: int)
      requires WellFormed(t) && (e.MetadataState? ==> options.metadataRequired)
      requires Current() == Mutate(t, e, now).state && Ascending(touched, |order|)
      requires References(order, touched) == Mutate(t, e, now).touched
      modifies this
      ensures Went(t, old(published), e, now)
    {
      assert Valid() by {
        MutateShape(t, e, now);
        ShapeWellFormed(t, Current());
      }
      assert Update(options, t, e, now) == Refresh(options, Current(), References(order, touched), now);
      var moved := RefreshTouched(touched, now);
      WriteOut(moved);
    }

    method Received(sp: StreamSpec, now: int)
      requires Valid()
      modifies this
      ensures Went(old(Current()), old(published), Event.Received(sp), now)
    {
      var touched := [];
      if sp in streams {
        touched := Home(sp);
        var heard := streams[sp].(lastMessage := Some(now), source := Websocket, expired := false, rejected := false);
        streams := streams[sp := heard];
      }
      Finish(old(Current()), Event.Received(sp), touched, now);
    }

    method Polled(sp: StreamSpec, now: int)
      requires Valid()
      modifies this
      ensures Went(old(Current()), old(published), Event.Polled(sp), now)
    {
      var touched := [];
      if sp in streams {
        touched := Home(sp);
        var heard := streams[sp].(lastMessage := Some(now), source := Rest, expired := false, fallbackFail := "");
        streams := streams[sp := heard];
      }
      Finish(old(Current()), Event.Polled(sp), touched, now);
    }

    method KeyExpired(sp: StreamSpec, now: int)
      requires Valid()
      modifies this
      ensures Went(old(Current()), old(published), Event.KeyExpired(sp), now)
    {
      var touched := [];
      if sp in streams {
        touched := Home(sp);
        streams := streams[sp := streams[sp].(expired := true)];
      }
      Finish(old(Current()), Event.KeyExpired(sp), touched, now);
    }

    method StreamRestarted(sp: StreamSpec, now: int)
      requires Valid()
      modifies this
      ensures Went(old(Current()), old(published), Event.StreamRestarted(sp), now)
    {
      var touched := [];
      if sp in streams {
        touched := Home(sp);
        streams := streams[sp := streams[sp].(restarts := streams[sp].restarts + 1)];
      }
      Finish(old(Current()), Event.StreamRestarted(sp), touched, now);
    }

    method FallbackEngaged(sp: StreamSpec, now: int)
      requires Valid()
      modifies this
      ensures Went(old(Current()), old(published), Event.FallbackEngaged(sp), now)
    {
      var touched := [];
      if sp in streams && streams[sp].fallbackSince == None {
        touched := Home(sp);
        streams := streams[sp := streams[sp].(fallbackSince := Some(now), source := Rest)];
      }
      Finish(old(Current()), Event.FallbackEngaged(sp), touched, now);
    }

    method FallbackFailed(sp: StreamSpec, reason: string, now: int)
      requires Valid()
      modifies this
      ensures Went(old(Current()), old(published), Event.FallbackFailed(sp, reason), now)
    {
      var touched := [];
      if sp in streams && streams[sp].fallbackFail != reason {
        touched := Home(sp);
        streams := streams[sp := streams[sp].(fallbackFail := reason)];
      }
      Finish(old(Current()), Event.FallbackFailed(sp, reason), touched, now);
    }

    method FallbackDisengaged(sp: StreamSpec, now: int)
      requires Valid()
      modifies this
      ensures Went(old(Current()), old(published), Event.FallbackDisengaged(sp), now)
    {
      var touched := [];
      if sp in streams && !(streams[sp].fallbackSince == None && streams[sp].fallbackFail == "") {
        touched := Home(sp);
        streams := streams[sp := streams[sp].(fallbackSince := None, fallbackFail := "", source := Websocket)];
      }
      Finish(old(Current()), Event.FallbackDisengaged(sp), touched, now);
    }

    /** Does nothing at all when metadata is not a startup requirement. */
    method MetadataState(ok: bool, reason: string, now: int)
      requires Valid()
      modifies this
      ensures Went(old(Current()), old(published), Event.MetadataState(ok, reason), now)
    {
      if !options.metadataRequired {
        assert published == published + Write([]);
        return;
      }
      var touched := [];
      if !(metadataOK == ok && (ok || metadataReason == reason)) {
        metadataOK := ok;
        if !ok {
          metadataReason := reason;
        }
        touched := UpTo(|order|);
        AllReferences(Current());
      }
      Finish(old(Current()), Event.MetadataState(ok, reason), touched, now);
    }

    method SocketState(socketID: string, phase: Phase, reason: string, now: int)
      requires Valid()
      modifies this
      ensures Went(old(Current()), old(published), Event.SocketState(socketID, phase, reason), now)
    {
      var touched := [];
      if !(socketID in sockets && sockets[socketID] == Socket(phase, reason)) {
        sockets := sockets[socketID := Socket(phase, reason)];
        ShapeWellFormed(old(Current()), Current());
        touched := InstrumentsOn(socketID, false);
      }
      Finish(old(Current()), Event.SocketState(socketID, phase, reason), touched, now);
    }

    method Reconnected(socketID: string, now: int)
      requires Valid()
      modifies this
      ensures Went(old(Current()), old(published), Event.Reconnected(socketID), now)
    {
      reconnects := reconnects + 1;
      Finish(old(Current()), Event.Reconnected(socketID), [], now);
    }

    method ClockSkew(milliseconds: int, now: int)
      requires Valid()
      modifies this
      ensures Went(old(Current()), old(published), Event.ClockSkew(milliseconds), now)
    {
      var touched := [];
      if skewMS != milliseconds {
        skewMS := milliseconds;
        touched := UpTo(|order|);
        AllReferences(Current());
      }
      Finish(old(Current()), Event.ClockSkew(milliseconds), touched, now);
    }

    method Leaked(n: int, now: int)
      requires Valid()
      modifies this
      ensures Went(old(Current()), old(published), Event.Leaked(n), now)
    {
      if n != leaked {
        leaked := n;
      }
      Finish(old(Current()), Event.Leaked(n), [], now);
    }

    method FrameRejected(socketID: string, now: int)
      requires Valid()
      modifies this
      ensures Went(old(Current()), old(published), Event.FrameRejected(socketID), now)
    {
      var touched := InstrumentsOn(socketID, true);
      ghost var t := Current();
      for n := 0 to |order|
        invariant Current() == t.(streams := streams) && Marked(t, streams, n, socketID)
        invariant published == old(published)
      {
        assert Owned(t, n);
        ghost var before := streams;
        MarkRejected(order[n].streams, socketID);
        MarkedNext(t, before, streams, n, socketID);
      }
      MarkedAll(t, streams, socketID);
      Finish(t, Event.FrameRejected(socketID), touched, now);
    }

    method MarkRejected(specs: seq<StreamSpec>, socketID: string)
      requires forall sp <- specs :: sp in streams
      modifies this`streams
      ensures Marks(old(streams), streams, specs, socketID)
    {
      for j := 0 to |specs|
        invariant Marks(old(streams), streams, specs[..j], socketID)
      {
        var s := streams[specs[j]];
        if Rejects(s, socketID) {
          streams := streams[specs[j] := s.(rejected := true)];
        }
        assert specs[..j + 1] == specs[..j] + [specs[j]];
      }
      assert specs[..|specs|] == specs;
    }

    /** The position of a stream's instrument. */
    method Home(sp: StreamSpec) returns (touched: seq<nat>)
      requires Valid() && sp in streams
      ensures Ascending(touched, |order|) && References(order, touched) == {sp.instrument}
    {
      touched := Find(sp.instrument);
      ListedInAll(Current(), sp);
    }

    /** The positions of every instrument with a stream on the socket, or with one there that no
        frame has been rejected for yet. */
    method InstrumentsOn(id: string, unrejected: bool) returns (touched: seq<nat>)
      requires Valid()
      ensures Ascending(touched, |order|)
      ensures References(order, touched)
           == set sp | sp in streams && streams[sp].socketID == id && !(unrejected && streams[sp].rejected)
                :: sp.instrument
    {
      touched := [];
      for i := 0 to |order|
        invariant forall j :: 0 <= j < |touched| ==> touched[j] < i
        invariant Ascending(touched, |order|)
        invariant forall k :: 0 <= k < |order| ==>
          (k in touched <==> k < i && AnyOn(Current(), k, id, unrejected))
      {
        assert Owned(Current(), i);
        var found := false;
        for j := 0 to |order[i].streams|
          invariant found <==> exists m :: 0 <= m < j && On(Current(), order[i].streams[m], id, unrejected)
        {
          var s := streams[order[i].streams[j]];
          if s.socketID == id && !(unrejected && s.rejected) {
            found := true;
          }
        }
        if found {
          touched := touched + [i];
        }
      }
      OnReferences(Current(), touched, id, unrejected);
    }

    // ---------- registration and heartbeat ----------

    method Register(sp: StreamSpec, venueSymbol: string, socketID: string, now: int)
      requires Valid()
      modifies this
      ensures Valid() && published == old(published)
      ensures Current() == Health.Register(options, old(Current()), sp, venueSymbol, socketID, now)
    {
      if sp in streams {
        return;
      }
      Declare(sp, venueSymbol, socketID, now);
    }

    /** Declares a stream that is not yet known. */
    method Declare(sp: StreamSpec, venueSymbol: string, socketID: string, now: int)
      requires Valid() && sp !in streams
      modifies this`streams, this`order, this`sockets, this`venue
      ensures Valid() && Current() == Health.Register(options, old(Current()), sp, venueSymbol, socketID, now)
    {
      ghost var t := Current();
      var k := AddStream(sp, venueSymbol, socketID);
      FinishRegister(t, sp, venueSymbol, socketID, k, now);
    }

    method AddStream(sp: StreamSpec, venueSymbol: string, socketID: string) returns (k: nat)
      requires Valid() && sp !in streams
      modifies this`order, this`streams, this`sockets
      ensures Current() == Registered(options, old(Current()), sp, venueSymbol, socketID).state
      ensures Ascending([k], |order|) && References(order, [k]) == {sp.instrument}
    {
      k := PlaceStream(sp, venueSymbol, socketID);
      streams := streams[sp := Stream(socketID, None, Websocket, 0, false, false, None, "", UNREPORTED)];
      if socketID !in sockets && socketID != "" {
        sockets := sockets[socketID := Socket(Dialing, "not yet connected")];
      }
    }

    /** Lists the stream under its instrument. */
    method PlaceStream(sp: StreamSpec, venueSymbol: string, ghost socketID: string) returns (k: nat)
      requires Valid()
      modifies this`order
      ensures order == Registered(options, old(Current()), sp, venueSymbol, socketID).state.order
      ensures Ascending([k], |order|) && References(order, [k]) == {sp.instrument}
    {
      k := InstrumentFor(sp.instrument, venueSymbol);
      RegisteredAt(options, old(Current()), sp, venueSymbol, socketID, order, k);
      order := order[k := order[k].(streams := order[k].streams + [sp])];
    }

    method FinishRegister(ghost t: State, sp: StreamSpec, venueSymbol: string, socketID: string, k: nat, now: int)
      requires WellFormed(t) && sp !in t.streams
      requires Current() == Registered(options, t, sp, venueSymbol, socketID).state
      requires Ascending([k], |order|) && References(order, [k]) == {sp.instrument}
      modifies this`streams, this`order, this`venue
      ensures Valid() && Current() == Health.Register(options, t, sp, venueSymbol, socketID, now)
    {
      RegisteredWellFormed(options, t, sp, venueSymbol, socketID);
      var moved := RefreshTouched([k], now);
    }

    /** Finds or creates the instrument a stream belongs to. */
    method InstrumentFor(reference: InstrumentRef, venueSymbol: string) returns (k: nat)
      requires Valid()
      modifies this`order
      ensures k < |order| && order[k].reference == reference
      ensures order == old(order) || (k == |old(order)| && reference !in All(old(Current()))
        && order == old(order) + [Instrument(reference, venueSymbol, HealthKey(options, reference), [], UNREPORTED)])
    {
      var at := Find(reference);
      if at != [] {
        assert at[0] in at && order[at[0]].reference in References(order, at);
        return at[0];
      }
      assert reference in {reference} * All(Current()) || reference !in All(Current());
      assert References(order, at) == {};
      k := |order|;
      order := order + [Instrument(reference, venueSymbol, HealthKey(options, reference), [], UNREPORTED)];
    }

    /** Refreshes every stream and publishes the whole set. */
    method Beat(now: int)
      requires Valid()
      modifies this
      ensures Valid()
      ensures
        var r := Health.Beat(options, old(Current()), now);
        Current() == r.state && published == old(published) + Write(r.moved)
    {
      AllReferences(Current());
      var moved := RefreshTouched(UpTo(|order|), now);
      var all := CollectSnapshots();
      WriteOut(all);
    }

    method CollectSnapshots() returns (all: seq<Snapshot>)
      ensures all == SnapshotAll(options, Current())
    {
      all := [];
      for i := 0 to |order|
        invariant all == InstrumentSnapshots(order[..i])
      {
        all := all + [Snapshot(order[i].key, order[i].cached)];
      }
      assert order[..|order|] == order;
      all := all + [Snapshot(VenueHealthKey(options), venue)];
    }
  }
}
