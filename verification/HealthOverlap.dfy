/** What a consumer knows when two events overlap: the state changes under a lock, one event after the
    other, but what they publish is written after the lock is given up. */
module HealthOverlap {
  import opened Health
  import opened HealthCoherence
  import opened HealthPublish

  ghost predicate OnePerKey(a: seq<Snapshot>) {
    forall i, j :: 0 <= i < j < |a| ==> a[i].key != a[j].key
  }

  /** The last write under a key is what it shows. */
  lemma {:induction false} ReplayLast(board: map<string, Verdict>, w: seq<Snapshot>, j: nat)
    requires j < |w| && forall m :: j < m < |w| ==> w[m].key != w[j].key
    ensures Shows(Replay(board, w), w[j].key, w[j].verdict)
  {
    if j < |w| - 1 {
      ReplayLast(board, w[..|w| - 1], j);
    }
  }

  lemma {:induction false} LastUnder(w: seq<Snapshot>, i: nat) returns (j: nat)
    requires i < |w|
    ensures i <= j < |w| && w[j].key == w[i].key && forall m :: j < m < |w| ==> w[m].key != w[j].key
    decreases |w| - i
  {
    j := i;
    if m :| i < m < |w| && w[m].key == w[i].key {
      j := LastUnder(w, m);
    }
  }

  /** Some key whose verdict both events moved has the first event's write after the second's. */
  ghost predicate Overtaken(first: seq<Snapshot>, second: seq<Snapshot>, w: seq<Snapshot>) {
    exists i, j :: 0 <= i < j < |w| && w[i] in second && w[j] in first && w[i].key == w[j].key
  }

  /** No key was moved by both. */
  predicate Apart(first: seq<Snapshot>, second: seq<Snapshot>) {
    forall x, y :: x in first && y in second ==> x.key != y.key
  }

  /** Where the verdict under a key is to end up after two batches. */
  ghost predicate Settles(board: map<string, Verdict>, first: seq<Snapshot>, second: seq<Snapshot>,
                          key: string, verdict: Verdict) {
    && (forall y <- second :: y.key == key ==> y.verdict == verdict)
    && ((forall y <- second :: y.key != key) ==>
          && (forall x <- first :: x.key == key ==> x.verdict == verdict)
          && ((forall x <- first :: x.key != key) ==> Shows(board, key, verdict)))
  }

  lemma {:induction false} OnceIn(a: seq<Snapshot>, s: Snapshot)
    requires OnePerKey(a)
    ensures multiset(a)[s] <= 1
  {
    if a != [] {
      var init := a[..|a| - 1];
      assert a == init + [a[|a| - 1]];
      OnceIn(init, s);
      if s == a[|a| - 1] { assert s !in init; }
    }
  }

  lemma TwiceIn(w: seq<Snapshot>, i: nat, j: nat)
    requires i < j < |w|
    ensures w[i] == w[j] ==> multiset(w)[w[i]] >= 2
  {
    assert w == w[..j] + w[j..];
    assert w[i] in w[..j] && w[j] in w[j..];
    assert w[i] in multiset(w[..j]) && w[j] in multiset(w[j..]);
    assert multiset(w)[w[i]] == multiset(w[..j])[w[i]] + multiset(w[j..])[w[i]];
  }

  lemma SameKeySame(a: seq<Snapshot>, x: Snapshot, y: Snapshot)
    requires OnePerKey(a)
    ensures x in a && y in a && x.key == y.key ==> x == y
  {
  }

  /** The writes of two batches, in any order at all. */
  ghost predicate Orders(first: seq<Snapshot>, second: seq<Snapshot>, w: seq<Snapshot>) {
    multiset(w) == multiset(first) + multiset(second)
  }

  lemma OrderMembers(first: seq<Snapshot>, second: seq<Snapshot>, w: seq<Snapshot>, s: Snapshot)
    requires Orders(first, second, w)
    ensures s in w <==> s in first || s in second
  {
    assert s in w <==> s in multiset(w);
    assert s in first <==> s in multiset(first);
    assert s in second <==> s in multiset(second);
  }

  /** The second event's write of a key is there once. */
  lemma SecondOnce(first: seq<Snapshot>, second: seq<Snapshot>, w: seq<Snapshot>, i: nat, j: nat)
    requires Orders(first, second, w) && OnePerKey(second) && i < j < |w|
    requires w[i] in second && w[i] !in first
    ensures w[i] != w[j]
  {
    OnceIn(second, w[i]);
    TwiceIn(w, i, j);
    assert w[i] in first <==> multiset(first)[w[i]] > 0;
  }

  lemma LastOfFirst(first: seq<Snapshot>, second: seq<Snapshot>, w: seq<Snapshot>, j: nat)
    requires Orders(first, second, w) && !Overtaken(first, second, w)
    requires j < |w| && w[j] !in second && forall m :: j < m < |w| ==> w[m].key != w[j].key
    ensures w[j] in first && forall y <- second :: y.key != w[j].key
  {
    OrderMembers(first, second, w, w[j]);
    forall y <- second ensures y.key != w[j].key {
      OrderMembers(first, second, w, y);
      var m :| 0 <= m < |w| && w[m] == y;
    }
  }

  /** A key whose verdict is to settle does so, unless its first write comes last. */
  lemma SettlesShown(board: map<string, Verdict>, first: seq<Snapshot>, second: seq<Snapshot>, w: seq<Snapshot>,
                     key: string, verdict: Verdict)
    requires Orders(first, second, w) && Settles(board, first, second, key, verdict) && !Overtaken(first, second, w)
    ensures Shows(Replay(board, w), key, verdict)
  {
    if i :| 0 <= i < |w| && w[i].key == key {
      var j := LastUnder(w, i);
      ReplayLast(board, w, j);
      OrderMembers(first, second, w, w[j]);
      if w[j] !in second {
        LastOfFirst(first, second, w, j);
      }
    } else {
      forall s | s in first || s in second ensures s.key != key { OrderMembers(first, second, w, s); }
      ReplayOther(board, w, key, verdict);
    }
  }

  /** And if it does come last, the key shows the verdict that is out of date. */
  lemma OvertakenShown(board: map<string, Verdict>, first: seq<Snapshot>, second: seq<Snapshot>, w: seq<Snapshot>)
      returns (x: Snapshot, y: Snapshot)
    requires Orders(first, second, w) && OnePerKey(first) && OnePerKey(second) && Overtaken(first, second, w)
    requires forall x, y :: x in first && y in second && x.key == y.key ==> x.verdict != y.verdict
    ensures x in first && y in second && x.key == y.key && !Shows(Replay(board, w), y.key, y.verdict)
  {
    var i, j :| 0 <= i < j < |w| && w[i] in second && w[j] in first && w[i].key == w[j].key;
    x, y := w[j], w[i];
    var last := LastUnder(w, j);
    ReplayLast(board, w, last);
    SecondOnce(first, second, w, i, last);
    OrderMembers(first, second, w, w[last]);
    SameKeySame(second, w[i], w[last]);
  }

  /** The batch one event publishes, in the order it is refreshed in. */
  function Batch(o: Options, t: State, e: Event, now: int): seq<Snapshot> {
    Write(Update(o, t, e, now).moved)
  }

  lemma BatchExact(o: Options, t: State, e: Event, now: int, s: Snapshot)
    ensures
      var t' := Update(o, t, e, now).state;
      |t'.order| == |t.order| && (s in Batch(o, t, e, now) <==>
        || (exists i :: 0 <= i < |t.order| && Moved(t.order, t'.order, i, s))
        || (t'.venue != t.venue && s == Snapshot(VenueHealthKey(o), t'.venue)))
  {
    UpdateWritesAll(o, t, e, now);
    PublishesChanges(o, t, e, now, s);
  }

  lemma {:induction false} MovesOnePerKey(before: seq<Instrument>, after: seq<Instrument>)
    requires SameKeys(before, after) && forall i, j :: 0 <= i < j < |after| ==> after[i].key != after[j].key
    ensures OnePerKey(Moves(before, after))
  {
    if before != [] {
      var n := |before| - 1;
      MovesOnePerKey(before[..n], after[..n]);
      MovesKeys(before[..n], after[..n], after[n].key);
    }
  }

  lemma UpdateKeys(o: Options, t: State, e: Event, now: int)
    ensures SameKeys(t.order, Update(o, t, e, now).state.order)
  {
    if !(e.MetadataState? && !o.metadataRequired) {
      MutateShape(t, e, now);
    }
  }

  lemma BatchOnePerKey(o: Options, t: State, e: Event, now: int)
    requires DistinctKeys(o, t.order)
    ensures OnePerKey(Batch(o, t, e, now))
  {
    UpdateWritesAll(o, t, e, now);
    UpdateKeys(o, t, e, now);
    if !(e.MetadataState? && !o.metadataRequired) {
      MutateShape(t, e, now);
      MutateVenue(t, e, now);
      var t' := Update(o, t, e, now).state;
      assert Update(o, t, e, now).moved == Moves(t.order, t'.order) + VenueMove(VenueHealthKey(o), t.venue, t'.venue);
      MovesOnePerKey(t.order, t'.order);
      MovesKeys(t.order, t'.order, VenueHealthKey(o));
    }
  }

  /** Two events, one after the other under the lock, and the tracker they leave. */
  lemma EventsSettle(o: Options, t: State, e: Event, at: int, f: Event, now: int, board: map<string, Verdict>)
    requires DistinctKeys(o, t.order) && InSync(o, t, board)
    ensures
      var mid := Update(o, t, e, at).state;
      var t' := Update(o, mid, f, now).state;
      var first, second := Batch(o, t, e, at), Batch(o, mid, f, now);
      && |t'.order| == |t.order|
      && (forall i :: 0 <= i < |t'.order| ==> Settles(board, first, second, t'.order[i].key, t'.order[i].cached))
      && Settles(board, first, second, VenueHealthKey(o), t'.venue)
  {
    var mid := Update(o, t, e, at).state;
    var t' := Update(o, mid, f, now).state;
    UpdateKeys(o, t, e, at);
    UpdateKeys(o, mid, f, now);
    forall i | 0 <= i < |t'.order|
      ensures Settles(board, Batch(o, t, e, at), Batch(o, mid, f, now), t'.order[i].key, t'.order[i].cached)
    {
      InstrumentSettles(o, t, e, at, f, now, board, i);
    }
    VenueSettles(o, t, e, at, f, now, board);
  }

  /** One event's batch and one instrument: it is there just when its verdict changed. */
  lemma BatchOfInstrument(o: Options, t: State, e: Event, now: int, i: nat)
    requires DistinctKeys(o, t.order) && i < |t.order|
    ensures
      var t' := Update(o, t, e, now).state;
      var s := Snapshot(t.order[i].key, t'.order[i].cached);
      && SameKeys(t.order, t'.order)
      && (s in Batch(o, t, e, now) <==> t'.order[i].cached != t.order[i].cached)
      && (forall x <- Batch(o, t, e, now) :: x.key == t.order[i].key ==> x == s)
  {
    UpdateKeys(o, t, e, now);
    var t' := Update(o, t, e, now).state;
    var venueKey, key := VenueHealthKey(o), t.order[i].key;
    BatchExact(o, t, e, now, Snapshot(key, t'.order[i].cached));
    MovedOnly(t.order, t'.order, i, Snapshot(key, t'.order[i].cached));
    forall x <- Batch(o, t, e, now) ensures x.key == key ==> x == Snapshot(key, t'.order[i].cached) {
      BatchExact(o, t, e, now, x);
      MovedOnly(t.order, t'.order, i, x);
    }
  }

  /** Where keys are distinct, a snapshot under an instrument's key is that instrument's. */
  lemma MovedOnly(before: seq<Instrument>, after: seq<Instrument>, i: nat, s: Snapshot)
    requires SameKeys(before, after) && i < |before|
    requires forall j, k :: 0 <= j < k < |before| ==> before[j].key != before[k].key
    ensures s.key == before[i].key ==>
      ((exists j :: 0 <= j < |before| && Moved(before, after, j, s)) <==> Moved(before, after, i, s))
  {
  }

  lemma BatchOfVenue(o: Options, t: State, e: Event, now: int)
    requires DistinctKeys(o, t.order)
    ensures
      var t' := Update(o, t, e, now).state;
      var s := Snapshot(VenueHealthKey(o), t'.venue);
      && (s in Batch(o, t, e, now) <==> t'.venue != t.venue)
      && (forall x <- Batch(o, t, e, now) :: x.key == VenueHealthKey(o) ==> x == s)
  {
    UpdateKeys(o, t, e, now);
    BatchExact(o, t, e, now, Snapshot(VenueHealthKey(o), Update(o, t, e, now).state.venue));
    forall x <- Batch(o, t, e, now)
      ensures x.key == VenueHealthKey(o) ==> x == Snapshot(VenueHealthKey(o), Update(o, t, e, now).state.venue)
    {
      BatchExact(o, t, e, now, x);
    }
  }

  lemma InstrumentSettles(o: Options, t: State, e: Event, at: int, f: Event, now: int,
                          board: map<string, Verdict>, i: nat)
    requires DistinctKeys(o, t.order) && InSync(o, t, board) && i < |t.order|
    ensures
      var mid := Update(o, t, e, at).state;
      var t' := Update(o, mid, f, now).state;
      |t'.order| == |t.order|
      && Settles(board, Batch(o, t, e, at), Batch(o, mid, f, now), t'.order[i].key, t'.order[i].cached)
  {
    BatchOfInstrument(o, t, e, at, i);
    BatchOfInstrument(o, Update(o, t, e, at).state, f, now, i);
  }

  lemma VenueSettles(o: Options, t: State, e: Event, at: int, f: Event, now: int, board: map<string, Verdict>)
    requires DistinctKeys(o, t.order) && InSync(o, t, board)
    ensures
      var mid := Update(o, t, e, at).state;
      Settles(board, Batch(o, t, e, at), Batch(o, mid, f, now), VenueHealthKey(o), Update(o, mid, f, now).state.venue)
  {
    UpdateKeys(o, t, e, at);
    BatchOfVenue(o, t, e, at);
    BatchOfVenue(o, Update(o, t, e, at).state, f, now);
  }

  /** A key both events moved has been given two verdicts. */
  lemma SharedDiffer(o: Options, t: State, e: Event, at: int, f: Event, now: int, x: Snapshot, y: Snapshot)
    requires DistinctKeys(o, t.order)
    requires x in Batch(o, t, e, at) && y in Batch(o, Update(o, t, e, at).state, f, now) && x.key == y.key
    ensures x.verdict != y.verdict
    ensures
      var t' := Update(o, Update(o, t, e, at).state, f, now).state;
      (y.key == VenueHealthKey(o) && y.verdict == t'.venue)
      || exists i :: 0 <= i < |t'.order| && y.key == t'.order[i].key && y.verdict == t'.order[i].cached
  {
    var mid := Update(o, t, e, at).state;
    var t' := Update(o, mid, f, now).state;
    UpdateKeys(o, t, e, at);
    UpdateKeys(o, mid, f, now);
    BatchExact(o, mid, f, now, y);
    if i :| 0 <= i < |mid.order| && Moved(mid.order, t'.order, i, y) {
      BatchOfInstrument(o, t, e, at, i);
    } else {
      BatchOfVenue(o, t, e, at);
    }
  }

  /** Snapshots are written after the lock is given up, so the writes of two events that overlap may
      come in any order. A consumer in sync before is in sync after exactly when no key that both moved
      had the first event's write last. */
  lemma OverlapExact(o: Options, t: State, e: Event, at: int, f: Event, now: int,
                     board: map<string, Verdict>, w: seq<Snapshot>)
    requires DistinctKeys(o, t.order) && InSync(o, t, board)
    requires Orders(Batch(o, t, e, at), Batch(o, Update(o, t, e, at).state, f, now), w)
    ensures
      var mid := Update(o, t, e, at).state;
      (InSync(o, Update(o, mid, f, now).state, Replay(board, w))
       <==> !Overtaken(Batch(o, t, e, at), Batch(o, mid, f, now), w))
  {
    var mid := Update(o, t, e, at).state;
    var t' := Update(o, mid, f, now).state;
    var first, second := Batch(o, t, e, at), Batch(o, mid, f, now);
    EventsSettle(o, t, e, at, f, now, board);
    if !Overtaken(first, second, w) {
      forall i | 0 <= i < |t'.order| ensures Shows(Replay(board, w), t'.order[i].key, t'.order[i].cached) {
        SettlesShown(board, first, second, w, t'.order[i].key, t'.order[i].cached);
      }
      SettlesShown(board, first, second, w, VenueHealthKey(o), t'.venue);
    } else {
      OvertakenOutOfSync(o, t, e, at, f, now, board, w);
    }
  }

  lemma OvertakenOutOfSync(o: Options, t: State, e: Event, at: int, f: Event, now: int,
                           board: map<string, Verdict>, w: seq<Snapshot>)
    requires DistinctKeys(o, t.order)
    requires Orders(Batch(o, t, e, at), Batch(o, Update(o, t, e, at).state, f, now), w)
    requires Overtaken(Batch(o, t, e, at), Batch(o, Update(o, t, e, at).state, f, now), w)
    ensures !InSync(o, Update(o, Update(o, t, e, at).state, f, now).state, Replay(board, w))
  {
    var mid := Update(o, t, e, at).state;
    var first, second := Batch(o, t, e, at), Batch(o, mid, f, now);
    UpdateKeys(o, t, e, at);
    BatchOnePerKey(o, t, e, at);
    BatchOnePerKey(o, mid, f, now);
    forall x, y | x in first && y in second && x.key == y.key ensures x.verdict != y.verdict {
      SharedDiffer(o, t, e, at, f, now, x, y);
    }
    var x, y := OvertakenShown(board, first, second, w);
    SharedDiffer(o, t, e, at, f, now, x, y);
  }

  /** So two events may overlap freely exactly when they move no key in common. */
  lemma OverlapHarmless(o: Options, t: State, e: Event, at: int, f: Event, now: int, board: map<string, Verdict>)
    requires DistinctKeys(o, t.order) && InSync(o, t, board)
    ensures
      var mid := Update(o, t, e, at).state;
      var first, second := Batch(o, t, e, at), Batch(o, mid, f, now);
      ((forall w :: Orders(first, second, w) ==> InSync(o, Update(o, mid, f, now).state, Replay(board, w)))
       <==> Apart(first, second))
  {
    var mid := Update(o, t, e, at).state;
    var t' := Update(o, mid, f, now).state;
    var first, second := Batch(o, t, e, at), Batch(o, mid, f, now);
    forall w | Orders(first, second, w)
      ensures InSync(o, t', Replay(board, w)) <==> !Overtaken(first, second, w)
    {
      OverlapExact(o, t, e, at, f, now, board, w);
    }
    FreeOrders(first, second);
  }

  /** Some order of writing overtakes exactly when a key is in both batches. */
  lemma FreeOrders(first: seq<Snapshot>, second: seq<Snapshot>)
    ensures (forall w :: Orders(first, second, w) ==> !Overtaken(first, second, w)) <==> Apart(first, second)
  {
    assert multiset(second + first) == multiset(first) + multiset(second);
    assert Orders(first, second, second + first);
    if !Apart(first, second) {
      SwapOvertakes(first, second);
    }
  }

  lemma SwapOvertakes(first: seq<Snapshot>, second: seq<Snapshot>)
    requires !Apart(first, second)
    ensures Overtaken(first, second, second + first)
  {
    var x, y :| x in first && y in second && x.key == y.key;
    var j :| 0 <= j < |first| && first[j] == x;
    var i :| 0 <= i < |second| && second[i] == y;
    var w := second + first;
    assert w[i] == y && w[|second| + j] == x;
  }

  /** What is moved last decides what a key shows. */
  lemma LastShows(board: map<string, Verdict>, first: Snapshot, last: Snapshot)
    requires last.verdict.status != Unspecified && first.verdict.status != Unspecified
    ensures Shows(Replay(board, Write([first]) + Write([last])), last.key, last.verdict)
  {
    WriteAll([first]);
    WriteAll([last]);
    assert ([first] + [last])[..1] == [first];
  }

  /** A tracker with nothing registered on which only the clock has anything to say. */
  predicate Bare(t: State) {
    t.streams == map[] && t.order == [] && t.metadataOK && t.leaked == 0
  }

  lemma BareSkew(o: Options, t: State, ms: int, now: int)
    requires Bare(t) && ms != t.skewMS
    ensures
      var r := Update(o, t, ClockSkew(ms), now);
      && Bare(r.state) && r.state.skewMS == ms
      && r.state.venue == (if Beyond(ms, o.skewStaleMS) then Verdict(Stale, SkewText(ms))
                           else if Beyond(ms, o.skewDegradedMS) then Verdict(Degraded, SkewText(ms))
                           else Verdict(Healthy, ""))
      && r.moved == VenueMove(VenueHealthKey(o), t.venue, r.state.venue)
  {
    var r := Update(o, t, ClockSkew(ms), now);
    assert r.state.streams == map[] && r.state.order == [];
    assert SocketIDs(map[], []) == [];
  }

  /** It happens: a venue whose clock has come right reads as stale, until the next heartbeat. */
  lemma OverlapMisleads(o: Options, board: map<string, Verdict>, now: int)
    requires !o.metadataRequired && o.skewStaleMS > 0
    ensures
      var first := Update(o, Fresh(o), ClockSkew(o.skewStaleMS), now);
      var second := Update(o, first.state, ClockSkew(0), now);
      && second.state.venue == Verdict(Healthy, "")
      && Shows(Replay(board, Write(first.moved) + Write(second.moved)), VenueHealthKey(o), second.state.venue)
      && Shows(Replay(board, Write(second.moved) + Write(first.moved)), VenueHealthKey(o),
               Verdict(Stale, SkewText(o.skewStaleMS)))
  {
    var t := Fresh(o);
    BareSkew(o, t, o.skewStaleMS, now);
    var first := Update(o, t, ClockSkew(o.skewStaleMS), now);
    BareSkew(o, first.state, 0, now);
    var key, stale, healthy := VenueHealthKey(o), Verdict(Stale, SkewText(o.skewStaleMS)), Verdict(Healthy, "");
    LastShows(board, Snapshot(key, stale), Snapshot(key, healthy));
    LastShows(board, Snapshot(key, healthy), Snapshot(key, stale));
  }
}
