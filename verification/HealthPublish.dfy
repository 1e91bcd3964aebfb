/** What a consumer that replays the published health snapshots knows of the tracker. */
module HealthPublish {
  import opened Wrappers
  import opened Core
  import opened Keys
  import opened Text
  import opened Health
  import opened HealthCoherence

  /** A snapshot with no status yet is not published. */
  function Write(snapshots: seq<Snapshot>): seq<Snapshot> {
    if snapshots == [] then []
    else
      var n := |snapshots| - 1;
      Write(snapshots[..n]) + if snapshots[n].verdict.status == Unspecified then [] else [snapshots[n]]
  }

  /** The last verdict published under each key. */
  function Replay(board: map<string, Verdict>, snapshots: seq<Snapshot>): map<string, Verdict> {
    if snapshots == [] then board
    else
      var n := |snapshots| - 1;
      Replay(board, snapshots[..n])[snapshots[n].key := snapshots[n].verdict]
  }

  /** The board shows these verdicts for every instrument and for the venue. */
  ghost predicate ShowsAll(board: map<string, Verdict>, order: seq<Instrument>, venueKey: string, venue: Verdict) {
    && (forall i :: 0 <= i < |order| ==> Shows(board, order[i].key, order[i].cached))
    && Shows(board, venueKey, venue)
  }

  /** The board shows the tracker's own verdicts. */
  ghost predicate InSync(o: Options, t: State, board: map<string, Verdict>) {
    ShowsAll(board, t.order, VenueHealthKey(o), t.venue)
  }

  predicate Shows(board: map<string, Verdict>, key: string, verdict: Verdict) {
    key in board && board[key] == verdict
  }

  /** No two instruments share a health key, nor does any with the venue. */
  ghost predicate DistinctKeys(o: Options, order: seq<Instrument>) {
    DistinctFrom(order, VenueHealthKey(o))
  }

  ghost predicate DistinctFrom(order: seq<Instrument>, venueKey: string) {
    && (forall i, j :: 0 <= i < j < |order| ==> order[i].key != order[j].key)
    && (forall i :: 0 <= i < |order| ==> order[i].key != venueKey)
  }

  ghost predicate SameKeys(before: seq<Instrument>, after: seq<Instrument>) {
    |before| == |after| && forall i :: 0 <= i < |before| ==> before[i].key == after[i].key
  }

  // ---------- nothing is withheld ----------

  lemma {:induction false} WriteAll(snapshots: seq<Snapshot>)
    requires forall s <- snapshots :: s.verdict.status != Unspecified
    ensures Write(snapshots) == snapshots
  {
    if snapshots != [] {
      var n := |snapshots| - 1;
      var init, last := snapshots[..n], snapshots[n];
      assert snapshots == init + [last];
      assert last in snapshots && forall s <- init :: s in snapshots;
      WriteAll(init);
      assert Write(snapshots) == Write(init) + [last];
    }
  }

  /** What is written is what has a status, in the order it came in. */
  lemma {:induction false} WriteExact(snapshots: seq<Snapshot>, s: Snapshot)
    ensures multiset(Write(snapshots))[s] == if s.verdict.status == Unspecified then 0 else multiset(snapshots)[s]
  {
    if snapshots != [] {
      var n := |snapshots| - 1;
      assert snapshots == snapshots[..n] + [snapshots[n]];
      WriteExact(snapshots[..n], s);
    }
  }

  lemma {:induction false} WorstSpecified(streams: map<StreamSpec, Stream>, specs: seq<StreamSpec>)
    ensures Worst(streams, specs).status != Unspecified
  {
    if specs != [] {
      WorstSpecified(streams, specs[..|specs| - 1]);
    }
  }

  /** s is the snapshot of the i-th instrument, whose verdict changed. */
  predicate Moved(before: seq<Instrument>, after: seq<Instrument>, i: nat, s: Snapshot)
    requires i < |before| && |before| == |after|
  {
    after[i].cached != before[i].cached && s == Snapshot(after[i].key, after[i].cached)
  }

  /** Only what changed is in the batch, each with its new verdict. */
  lemma {:induction false} MovesExact(before: seq<Instrument>, after: seq<Instrument>, s: Snapshot)
    requires |before| == |after|
    ensures s in Moves(before, after) <==> exists i :: 0 <= i < |after| && Moved(before, after, i, s)
  {
    if before != [] {
      var n := |before| - 1;
      MovesExact(before[..n], after[..n], s);
      assert forall i :: 0 <= i < n ==> (Moved(before[..n], after[..n], i, s) <==> Moved(before, after, i, s));
      assert s in Moves(before, after) <==> s in Moves(before[..n], after[..n]) || Moved(before, after, n, s);
    }
  }

  /** An event publishes a key just when the verdict under it changed. */
  lemma PublishesChanges(o: Options, t: State, e: Event, now: int, s: Snapshot)
    ensures
      var r := Update(o, t, e, now);
      |r.state.order| == |t.order| && (s in r.moved <==>
        || (exists i :: 0 <= i < |t.order| && Moved(t.order, r.state.order, i, s))
        || (r.state.venue != t.venue && s == Snapshot(VenueHealthKey(o), r.state.venue)))
  {
    if !(e.MetadataState? && !o.metadataRequired) {
      MutateShape(t, e, now);
      MutateVenue(t, e, now);
      MovesExact(t.order, Update(o, t, e, now).state.order, s);
    }
  }

  lemma MovesWritten(before: seq<Instrument>, after: seq<Instrument>)
    requires |before| == |after|
    requires forall i ::
      0 <= i < |after| && after[i].cached != before[i].cached ==> after[i].cached.status != Unspecified
    ensures forall s <- Moves(before, after) :: s.verdict.status != Unspecified
  {
    forall s <- Moves(before, after) ensures s.verdict.status != Unspecified {
      MovesExact(before, after, s);
    }
  }

  lemma RefreshWritesAll(o: Options, t: State, touched: set<InstrumentRef>, now: int)
    ensures Write(Refresh(o, t, touched, now).moved) == Refresh(o, t, touched, now).moved
  {
    var r := Refresh(o, t, touched, now);
    forall i | 0 <= i < |t.order| && r.state.order[i].cached != t.order[i].cached
      ensures r.state.order[i].cached.status != Unspecified
    {
      WorstSpecified(r.state.streams, t.order[i].streams);
    }
    MovesWritten(t.order, r.state.order);
    WriteAll(r.moved);
  }

  lemma UpdateWritesAll(o: Options, t: State, e: Event, now: int)
    ensures Write(Update(o, t, e, now).moved) == Update(o, t, e, now).moved
  {
    if !(e.MetadataState? && !o.metadataRequired) {
      RefreshWritesAll(o, Mutate(t, e, now).state, Mutate(t, e, now).touched, now);
    }
  }

  // ---------- replaying keeps up ----------

  lemma {:induction false} ReplayAppend(board: map<string, Verdict>, a: seq<Snapshot>, b: seq<Snapshot>)
    ensures Replay(board, a + b) == Replay(Replay(board, a), b)
  {
    if b == [] {
      assert a + b == a;
    } else {
      ReplayAppend(board, a, b[..|b| - 1]);
      assert (a + b)[..|a + b| - 1] == a + b[..|b| - 1];
    }
  }

  /** A key no snapshot carries keeps its verdict. */
  lemma {:induction false} ReplayOther(board: map<string, Verdict>, a: seq<Snapshot>, key: string, verdict: Verdict)
    requires forall s <- a :: s.key != key
    ensures Shows(Replay(board, a), key, verdict) <==> Shows(board, key, verdict)
  {
    if a != [] {
      ReplayOther(board, a[..|a| - 1], key, verdict);
    }
  }

  lemma {:induction false} ReplayMoves(board: map<string, Verdict>, before: seq<Instrument>,
                                         after: seq<Instrument>, i: nat)
    requires SameKeys(before, after) && i < |after|
    requires forall j :: 0 <= j < |after| && j != i ==> after[j].key != after[i].key
    requires Shows(board, before[i].key, before[i].cached)
    ensures Shows(Replay(board, Moves(before, after)), after[i].key, after[i].cached)
  {
    var n := |before| - 1;
    var rest := Moves(before[..n], after[..n]);
    var last := if after[n].cached != before[n].cached then [Snapshot(after[n].key, after[n].cached)] else [];
    ReplayAppend(board, rest, last);
    if i < n {
      ReplayMoves(board, before[..n], after[..n], i);
      ReplayOther(Replay(board, rest), last, after[i].key, after[i].cached);
    } else {
      MovesKeys(before[..n], after[..n], after[i].key);
      ReplayOther(board, rest, before[i].key, before[i].cached);
    }
  }

  lemma MovesKeys(before: seq<Instrument>, after: seq<Instrument>, key: string)
    requires |before| == |after| && forall i :: 0 <= i < |after| ==> after[i].key != key
    ensures forall s <- Moves(before, after) :: s.key != key
  {
    forall s <- Moves(before, after) ensures s.key != key {
      MovesExact(before, after, s);
    }
  }

  function VenueMove(venueKey: string, before: Verdict, after: Verdict): seq<Snapshot> {
    if after != before then [Snapshot(venueKey, after)] else []
  }

  /** Publishing what changed keeps a board up to date. */
  lemma MovesShowAll(board: map<string, Verdict>, before: seq<Instrument>, after: seq<Instrument>,
                     venueKey: string, was: Verdict, now: Verdict)
    requires SameKeys(before, after) && DistinctFrom(before, venueKey) && ShowsAll(board, before, venueKey, was)
    ensures ShowsAll(Replay(board, Moves(before, after) + VenueMove(venueKey, was, now)), after, venueKey, now)
  {
    var moves, last := Moves(before, after), VenueMove(venueKey, was, now);
    ReplayAppend(board, moves, last);
    forall i | 0 <= i < |after| ensures Shows(Replay(board, moves + last), after[i].key, after[i].cached) {
      ReplayMoves(board, before, after, i);
      ReplayOther(Replay(board, moves), last, after[i].key, after[i].cached);
    }
    MovesKeys(before, after, venueKey);
    ReplayOther(board, moves, venueKey, was);
  }

  /** Whatever happens, a board in sync stays in sync. */
  lemma UpdateInSync(o: Options, t: State, board: map<string, Verdict>, e: Event, now: int)
    requires DistinctKeys(o, t.order) && InSync(o, t, board)
    ensures
      var r := Update(o, t, e, now);
      SameKeys(t.order, r.state.order) && InSync(o, r.state, Replay(board, Write(r.moved)))
  {
    UpdateWritesAll(o, t, e, now);
    if !(e.MetadataState? && !o.metadataRequired) {
      MutateShape(t, e, now);
      MutateVenue(t, e, now);
      var t' := Update(o, t, e, now).state;
      MovesShowAll(board, t.order, t'.order, VenueHealthKey(o), t.venue, t'.venue);
    }
  }

  lemma MutateVenue(t: State, e: Event, now: int)
    ensures Mutate(t, e, now).state.venue == t.venue
  {
  }

  function InstrumentSnapshots(order: seq<Instrument>): seq<Snapshot> {
    seq(|order|, i requires 0 <= i < |order| => Snapshot(order[i].key, order[i].cached))
  }

  lemma {:induction false} ReplayAll(board: map<string, Verdict>, order: seq<Instrument>, i: nat)
    requires i < |order| && forall j :: 0 <= j < |order| && j != i ==> order[j].key != order[i].key
    ensures Shows(Replay(board, InstrumentSnapshots(order)), order[i].key, order[i].cached)
  {
    var n := |order| - 1;
    assert InstrumentSnapshots(order)[..n] == InstrumentSnapshots(order[..n]);
    if i < n {
      ReplayAll(board, order[..n], i);
    }
  }

  lemma AllShown(board: map<string, Verdict>, order: seq<Instrument>, venueKey: string, venue: Verdict)
    requires DistinctFrom(order, venueKey)
    ensures ShowsAll(Replay(board, InstrumentSnapshots(order) + [Snapshot(venueKey, venue)]), order, venueKey, venue)
  {
    var all, last := InstrumentSnapshots(order), [Snapshot(venueKey, venue)];
    ReplayAppend(board, all, last);
    forall i | 0 <= i < |order| ensures Shows(Replay(board, all + last), order[i].key, order[i].cached) {
      ReplayAll(board, order, i);
      ReplayOther(Replay(board, all), last, order[i].key, order[i].cached);
    }
  }

  /** A heartbeat brings any board into sync, whatever it showed before. */
  lemma BeatInSync(o: Options, t: State, board: map<string, Verdict>, now: int)
    requires DistinctKeys(o, t.order)
    ensures
      var r := Beat(o, t, now);
      SameKeys(t.order, r.state.order) && InSync(o, r.state, Replay(board, Write(r.moved)))
  {
    var r := Beat(o, t, now);
    BeatWritesAll(o, t, now);
    AllShown(board, r.state.order, VenueHealthKey(o), r.state.venue);
  }

  /** A heartbeat writes a snapshot of everything: no verdict is missing by then. */
  lemma BeatWritesAll(o: Options, t: State, now: int)
    ensures
      var r := Beat(o, t, now);
      && SameKeys(t.order, r.state.order)
      && Write(r.moved) == InstrumentSnapshots(r.state.order) + [Snapshot(VenueHealthKey(o), r.state.venue)]
  {
    var r := Beat(o, t, now);
    assert r.moved == InstrumentSnapshots(r.state.order) + [Snapshot(VenueHealthKey(o), r.state.venue)];
    forall i | 0 <= i < |r.state.order| ensures r.state.order[i].cached.status != Unspecified {
      assert t.order[i].reference in All(t);
      WorstSpecified(RefreshStreams(o, t, All(t), now), t.order[i].streams);
    }
    WriteAll(r.moved);
  }

  // ---------- runs ----------

  /** The tracker, and the board of a consumer that replays everything it publishes. */
  datatype World = World(state: State, board: map<string, Verdict>)

  function Start(o: Options): World {
    World(Fresh(o), map[])
  }

  /** What one step publishes; a registration publishes nothing. */
  function Output(o: Options, t: State, s: Timed): seq<Snapshot> {
    match s.op
    case Declare(_, _, _) => []
    case Happen(e) => Write(Update(o, t, e, s.at).moved)
    case Heartbeat => Write(Beat(o, t, s.at).moved)
  }

  function Advance(o: Options, w: World, s: Timed): World {
    World(Perform(o, w.state, s), Replay(w.board, Output(o, w.state, s)))
  }

  function Follow(o: Options, w: World, steps: seq<Timed>): World
    decreases |steps|
  {
    if steps == [] then w else Follow(o, Advance(o, w, steps[0]), steps[1..])
  }

  lemma {:induction false} FollowRuns(o: Options, w: World, steps: seq<Timed>)
    ensures Follow(o, w, steps).state == Run(o, w.state, steps)
    decreases |steps|
  {
    if steps != [] {
      FollowRuns(o, Advance(o, w, steps[0]), steps[1..]);
    }
  }

  ghost predicate Synced(o: Options, w: World) {
    DistinctKeys(o, w.state.order) && InSync(o, w.state, w.board)
  }

  lemma HeartbeatSyncs(o: Options, w: World, at: int)
    requires DistinctKeys(o, w.state.order)
    ensures Synced(o, Advance(o, w, Timed(Heartbeat, at)))
  {
    BeatInSync(o, w.state, w.board, at);
  }

  lemma EventSynced(o: Options, w: World, e: Event, at: int)
    requires Synced(o, w)
    ensures Synced(o, Advance(o, w, Timed(Happen(e), at)))
  {
    UpdateInSync(o, w.state, w.board, e, at);
  }

  lemma {:induction false} FollowSynced(o: Options, w: World, steps: seq<Timed>)
    requires Synced(o, w) && forall s <- steps :: !s.op.Declare?
    ensures Synced(o, Follow(o, w, steps))
    decreases |steps|
  {
    if steps != [] {
      var s := steps[0];
      match s.op {
        case Happen(e) => EventSynced(o, w, e, s.at);
        case Heartbeat => HeartbeatSyncs(o, w, s.at);
      }
      FollowSynced(o, Advance(o, w, s), steps[1..]);
    }
  }

  /** Once registration is over and one heartbeat has run, replaying what was published gives exactly
      the tracker's verdicts after every step, whatever happens. */
  lemma ReplayInSync(o: Options, before: seq<Timed>, at: int, after: seq<Timed>)
    requires DistinctKeys(o, Run(o, Fresh(o), before).order)
    requires forall s <- after :: !s.op.Declare?
    ensures Synced(o, Follow(o, Advance(o, Follow(o, Start(o), before), Timed(Heartbeat, at)), after))
  {
    FollowRuns(o, Start(o), before);
    HeartbeatSyncs(o, Follow(o, Start(o), before), at);
    FollowSynced(o, Advance(o, Follow(o, Start(o), before), Timed(Heartbeat, at)), after);
  }

  /** Instruments with valid names have distinct keys when no two share a market type and symbol:
      the key drops what else tells them apart. */
  lemma DistinctKeysFor(o: Options, order: seq<Instrument>)
    requires forall i :: 0 <= i < |order| ==>
      var r := order[i].reference;
      order[i].key == HealthKey(o, r) && ValidData(o.venue, r.marketType, r.Canonical(), CHANNEL_HEALTH)
    ensures DistinctKeys(o, order) <==>
      forall i, j :: 0 <= i < j < |order| ==>
        order[i].reference.marketType != order[j].reference.marketType
        || Upper(order[i].reference.Canonical()) != Upper(order[j].reference.Canonical())
  {
    forall i, j | 0 <= i < |order| && 0 <= j < |order|
      ensures order[i].key == order[j].key <==>
        order[i].reference.marketType == order[j].reference.marketType
        && Upper(order[i].reference.Canonical()) == Upper(order[j].reference.Canonical())
      ensures order[i].key != VenueHealthKey(o)
    {
      var r, q := order[i].reference, order[j].reference;
      KeysInjective(o.venue, r.marketType, r.Canonical(), CHANNEL_HEALTH,
                    o.venue, q.marketType, q.Canonical(), CHANNEL_HEALTH);
    }
  }

  /** Health goes out under keys of its own: an instrument's ends in health and is no data key of another
      channel, and the venue's is spelled out. */
  lemma HealthKeysOwn(o: Options, r: InstrumentRef, marketType: MarketType, symbol: string, channel: Channel)
    requires ValidData(o.venue, r.marketType, r.Canonical(), CHANNEL_HEALTH)
    ensures HealthKey(o, r) == Key(o.venue, marketType, symbol, channel) ==> ChannelName(channel) == "health"
    ensures VenueHealthKey(o) == "Manooch:" + Upper(o.venue) + ":venue:health"
  {
    KeysInjective(o.venue, r.marketType, r.Canonical(), CHANNEL_HEALTH, o.venue, marketType, symbol, channel);
    VenueKeyText(o.venue, "health");
    assert Lower("HEALTH") == "health" && Lower("health") == "health";
  }
}
