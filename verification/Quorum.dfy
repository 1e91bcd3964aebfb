/** When expired keys stop being their streams' problem and become their socket's: the quorum, the
    grace period after a connection came up, and the window expiries count in. */
module Quorum {
  import opened Wrappers
  import opened Core
  import opened Sets

  /** The socket's planned streams, and the durations in nanoseconds. */
  datatype Options = Options(plan: seq<StreamSpec>, connectGrace: int, expiryWindow: int) {
    /** Half the streams, never fewer than two. */
    function Quorum(): (q: nat)
      ensures q >= 2
    {
      if |plan| / 2 > 2 then |plan| / 2 else 2
    }

    function Streams(): set<StreamSpec> {
      set sp | sp in plan
    }
  }

  /** When the live connection came up, if there is one, and when each stream last expired. */
  datatype State = State(connectedAt: Option<int>, expiredAt: map<StreamSpec, int>)

  const DOWN := State(None, map[])

  datatype Event = Connected(at: int) | Closed(at: int) | KeyExpired(at: int, sp: StreamSpec)

  /** What an expiry came to. */
  datatype Tier = Ignored | RestartStream | RedialSocket

  /** An expiry counts only against a connection that has been up for the grace period. */
  predicate Counts(o: Options, s: State, now: int) {
    s.connectedAt.Some? && now - s.connectedAt.value >= o.connectGrace
  }

  /** The expiries still inside the window. */
  function Recent(m: map<StreamSpec, int>, window: int, now: int): map<StreamSpec, int> {
    map sp <- m | now - m[sp] <= window :: m[sp]
  }

  /** The expiries that count once sp has expired too. */
  function Noted(o: Options, s: State, sp: StreamSpec, now: int): map<StreamSpec, int> {
    Recent(s.expiredAt[sp := now], o.expiryWindow, now)
  }

  function TierOf(o: Options, s: State, sp: StreamSpec, now: int): Tier {
    if !Counts(o, s, now) then Ignored
    else if |Noted(o, s, sp, now)| >= o.Quorum() then RedialSocket
    else RestartStream
  }

  function Step(o: Options, s: State, e: Event): State {
    match e
    case Connected(at) => State(Some(at), map[])
    case Closed(_) => s.(connectedAt := None)
    case KeyExpired(at, sp) =>
      match TierOf(o, s, sp, at)
      case Ignored => s
      case RestartStream => s.(expiredAt := Noted(o, s, sp, at))
      case RedialSocket => DOWN
  }

  /** The state once the first n events have happened. */
  function After(o: Options, events: seq<Event>, n: nat): State
    requires n <= |events|
  {
    if n == 0 then DOWN else Step(o, After(o, events, n - 1), events[n - 1])
  }

  predicate Redials(o: Options, events: seq<Event>, i: nat)
    requires i < |events|
  {
    events[i].KeyExpired? && TierOf(o, After(o, events, i), events[i].sp, events[i].at) == RedialSocket
  }

  predicate Accepts(o: Options, events: seq<Event>, i: nat)
    requires i < |events|
  {
    events[i].KeyExpired? && Counts(o, After(o, events, i), events[i].at)
  }

  /** Expiries of the socket's own streams, on a clock that never runs back. */
  ghost predicate Run(o: Options, events: seq<Event>) {
    && (forall i, j :: 0 <= i <= j < |events| ==> events[i].at <= events[j].at)
    && (forall e <- events :: e.KeyExpired? ==> e.sp in o.plan)
  }

  // ---------- below the quorum ----------

  lemma RecentFewer(m: map<StreamSpec, int>, window: int, now: int)
    ensures |Recent(m, window, now)| <= |m|
  {
    Fewer(Recent(m, window, now).Keys, m.Keys);
  }

  lemma NotedFewer(o: Options, s: State, sp: StreamSpec, now: int)
    ensures |Noted(o, s, sp, now)| <= |s.expiredAt| + 1
  {
    var m := s.expiredAt[sp := now];
    RecentFewer(m, o.expiryWindow, now);
    assert m.Keys == s.expiredAt.Keys + {sp};
    assert |m| == |m.Keys| && |s.expiredAt| == |s.expiredAt.Keys|;
  }

  lemma {:induction false} BelowQuorum(o: Options, events: seq<Event>, n: nat)
    requires n <= |events|
    ensures |After(o, events, n).expiredAt| < o.Quorum()
  {
    if n > 0 {
      BelowQuorum(o, events, n - 1);
    }
  }

  // ---------- what a redial rests on ----------

  /** An expiry that leaves the connection up. */
  predicate LeavesUp(o: Options, events: seq<Event>, k: nat)
    requires k < |events|
  {
    events[k].KeyExpired? && !Redials(o, events, k)
  }

  /** Nothing since event c, which brought a connection up, has taken it down by event n. */
  ghost predicate UpSince(o: Options, events: seq<Event>, c: nat, n: nat)
    requires n <= |events|
  {
    && c < n && events[c].Connected?
    && forall k :: c < k < n ==> LeavesUp(o, events, k)
  }

  /** sp expired at event e, while the connection of event c was up and past its grace period. */
  predicate NotedAt(o: Options, events: seq<Event>, c: nat, e: nat, sp: StreamSpec)
    requires c < |events| && e < |events|
  {
    && c < e && events[e].KeyExpired? && events[e].sp == sp
    && events[e].at - events[c].at >= o.connectGrace
  }

  /** Every expiry held was noted against the connection of event c. */
  ghost predicate Grounded(o: Options, events: seq<Event>, c: nat, n: nat, held: map<StreamSpec, int>)
    requires c < n <= |events|
  {
    forall sp <- held :: exists e :: c < e < n && NotedAt(o, events, c, e, sp) && events[e].at == held[sp]
  }

  ghost predicate Explained(o: Options, events: seq<Event>, n: nat, c: nat)
    requires n <= |events|
  {
    var s := After(o, events, n);
    && UpSince(o, events, c, n)
    && s.connectedAt == Some(events[c].at)
    && Grounded(o, events, c, n, s.expiredAt)
  }

  lemma NotedGrounded(o: Options, events: seq<Event>, c: nat, n: nat)
    requires 0 < n <= |events| && events[n - 1].KeyExpired?
    requires Explained(o, events, n - 1, c) && Accepts(o, events, n - 1)
    ensures Grounded(o, events, c, n, Noted(o, After(o, events, n - 1), events[n - 1].sp, events[n - 1].at))
  {
    var s, e := After(o, events, n - 1), events[n - 1];
    var held := Noted(o, s, e.sp, e.at);
    forall sp <- held
      ensures exists i :: c < i < n && NotedAt(o, events, c, i, sp) && events[i].at == held[sp]
    {
      if sp == e.sp {
        assert NotedAt(o, events, c, n - 1, sp);
      } else {
        assert sp in s.expiredAt;
      }
    }
  }

  lemma {:induction false} ConnectionExplained(o: Options, events: seq<Event>, n: nat) returns (c: nat)
    requires n <= |events| && After(o, events, n).connectedAt.Some?
    ensures Explained(o, events, n, c)
  {
    var e := events[n - 1];
    if e.Connected? {
      c := n - 1;
    } else {
      c := ConnectionExplained(o, events, n - 1);
      if Accepts(o, events, n - 1) {
        NotedGrounded(o, events, c, n);
      }
    }
  }

  /** The streams held, and when each expired, as a redial at event i sees them. */
  ghost predicate Together(o: Options, events: seq<Event>, c: nat, i: nat, streams: set<StreamSpec>)
    requires c < i < |events|
  {
    |streams| >= o.Quorum() && Gone(o, events, c, i, streams)
  }

  /** These streams of the socket have expired within the window, all against the connection of event c. */
  ghost predicate Gone(o: Options, events: seq<Event>, c: nat, i: nat, streams: set<StreamSpec>)
    requires c < i < |events|
  {
    && (forall sp <- streams :: sp in o.plan)
    && forall sp <- streams :: exists e ::
         c < e <= i && NotedAt(o, events, c, e, sp) && events[i].at - events[e].at <= o.expiryWindow
  }

  /** A redial happens only on a live connection up for the grace period, when a quorum of distinct
      streams of this socket has expired within the window, all of them against this connection. */
  lemma RedialEarned(o: Options, events: seq<Event>, i: nat) returns (c: nat, streams: set<StreamSpec>)
    requires Run(o, events) && i < |events| && Redials(o, events, i)
    ensures UpSince(o, events, c, i) && events[i].at - events[c].at >= o.connectGrace
    ensures Together(o, events, c, i, streams)
  {
    c := ConnectionExplained(o, events, i);
    NotedGrounded(o, events, c, i + 1);
    var held := Noted(o, After(o, events, i), events[i].sp, events[i].at);
    streams := held.Keys;
    forall sp <- streams
      ensures sp in o.plan
      ensures exists e :: c < e <= i && NotedAt(o, events, c, e, sp) && events[i].at - events[e].at <= o.expiryWindow
    {
      var e :| c < e < i + 1 && NotedAt(o, events, c, e, sp) && events[e].at == held[sp];
      assert events[e] in events;
    }
  }

  lemma {:induction false} UpConnected(o: Options, events: seq<Event>, c: nat, n: nat)
    requires n <= |events| && UpSince(o, events, c, n)
    ensures After(o, events, n).connectedAt == Some(events[c].at)
  {
    if n - 1 > c {
      assert LeavesUp(o, events, n - 1);
      UpConnected(o, events, c, n - 1);
    }
  }

  /** Short of a redial, an expiry is noted, and the ones inside the window stay. */
  lemma StepHolds(o: Options, s: State, other: StreamSpec, now: int, sp: StreamSpec, since: int)
    requires TierOf(o, s, other, now) != RedialSocket && 0 <= now - since <= o.expiryWindow
    requires (sp in s.expiredAt && s.expiredAt[sp] >= since) || (sp == other && Counts(o, s, now))
    ensures
      var held := Step(o, s, KeyExpired(now, other)).expiredAt;
      sp in held && held[sp] >= since
  {
  }

  lemma UpBefore(o: Options, events: seq<Event>, c: nat, n: nat)
    requires c + 1 < n <= |events| && UpSince(o, events, c, n)
    ensures UpSince(o, events, c, n - 1) && LeavesUp(o, events, n - 1)
  {
    assert LeavesUp(o, events, n - 1);
  }

  /** An expiry noted at event e is still held at event n, as long as it is inside the window. */
  lemma {:induction false} StillHeld(o: Options, events: seq<Event>, c: nat, e: nat, n: nat, sp: StreamSpec)
    requires Run(o, events) && n <= |events| && UpSince(o, events, c, n) && e < n
    requires NotedAt(o, events, c, e, sp) && events[n - 1].at - events[e].at <= o.expiryWindow
    ensures sp in After(o, events, n).expiredAt && After(o, events, n).expiredAt[sp] >= events[e].at
  {
    UpBefore(o, events, c, n);
    if n - 1 > e {
      StillHeld(o, events, c, e, n - 1, sp);
    } else {
      UpConnected(o, events, c, n - 1);
    }
    var last := events[n - 1];
    StepHolds(o, After(o, events, n - 1), last.sp, last.at, sp, events[e].at);
    assert last == KeyExpired(last.at, last.sp);
  }

  lemma StillCounts(o: Options, events: seq<Event>, c: nat, e: nat, i: nat, sp: StreamSpec)
    requires Run(o, events) && i < |events| && events[i].KeyExpired? && UpSince(o, events, c, i) && e <= i
    requires NotedAt(o, events, c, e, sp) && events[i].at - events[e].at <= o.expiryWindow
    ensures sp in Noted(o, After(o, events, i), events[i].sp, events[i].at)
  {
    if e < i {
      StillHeld(o, events, c, e, i, sp);
    }
  }

  /** And it always happens then: no expiry inside the window is ever forgotten. */
  lemma RedialForced(o: Options, events: seq<Event>, i: nat, c: nat, streams: set<StreamSpec>)
    requires Run(o, events) && i < |events| && events[i].KeyExpired?
    requires UpSince(o, events, c, i) && events[i].at - events[c].at >= o.connectGrace
    requires Together(o, events, c, i, streams)
    ensures Redials(o, events, i)
  {
    var s := After(o, events, i);
    var held := Noted(o, s, events[i].sp, events[i].at);
    UpConnected(o, events, c, i);
    forall sp <- streams ensures sp in held {
      var e :| c < e <= i && NotedAt(o, events, c, e, sp) && events[i].at - events[e].at <= o.expiryWindow;
      StillCounts(o, events, c, e, i, sp);
    }
    Fewer(streams, held.Keys);
  }

  /** What a redial is for, without the map: a quorum of the live connection's streams gone together. */
  ghost predicate Due(o: Options, events: seq<Event>, i: nat)
    requires i < |events|
  {
    events[i].KeyExpired? && exists c: nat, streams ::
      && UpSince(o, events, c, i) && events[i].at - events[c].at >= o.connectGrace
      && Together(o, events, c, i, streams)
  }

  /** Over any run, an expiry redials the socket exactly when it is due. */
  lemma RedialExact(o: Options, events: seq<Event>, i: nat)
    requires Run(o, events) && i < |events|
    ensures Redials(o, events, i) <==> Due(o, events, i)
  {
    if Redials(o, events, i) {
      var c, streams := RedialEarned(o, events, i);
    }
    if Due(o, events, i) {
      var c: nat, streams :|
        && UpSince(o, events, c, i) && events[i].at - events[c].at >= o.connectGrace
        && Together(o, events, c, i, streams);
      RedialForced(o, events, i, c, streams);
    }
  }

  /** In streams: an expiry redials the socket exactly when at least two of its streams, and at least half of
      those planned, rounded down, have gone together on a connection past its grace period. */
  lemma RedialByHalf(o: Options, events: seq<Event>, i: nat)
    requires Run(o, events) && i < |events| && events[i].KeyExpired?
    ensures Redials(o, events, i) <==> exists c: nat, streams ::
      && UpSince(o, events, c, i) && events[i].at - events[c].at >= o.connectGrace
      && Gone(o, events, c, i, streams) && |streams| >= 2 && 2 * |streams| + 1 >= |o.plan|
  {
    if Redials(o, events, i) {
      var c, streams := RedialEarned(o, events, i);
    }
    if c: nat, streams :|
      && UpSince(o, events, c, i) && events[i].at - events[c].at >= o.connectGrace
      && Gone(o, events, c, i, streams) && |streams| >= 2 && 2 * |streams| + 1 >= |o.plan|
    {
      RedialForced(o, events, i, c, streams);
    }
  }

  /** An expiry is ignored exactly when no connection has been up for the grace period, and restarts its
      stream exactly when one has and no redial is due. */
  lemma TierExact(o: Options, events: seq<Event>, i: nat)
    requires Run(o, events) && i < |events| && events[i].KeyExpired?
    ensures
      var tier := TierOf(o, After(o, events, i), events[i].sp, events[i].at);
      var past := exists c: nat :: UpSince(o, events, c, i) && events[i].at - events[c].at >= o.connectGrace;
      && (tier == Ignored <==> !past)
      && (tier == RestartStream <==> past && !Due(o, events, i))
  {
    RedialExact(o, events, i);
    if After(o, events, i).connectedAt.Some? {
      var c := ConnectionExplained(o, events, i);
    }
    if c: nat :| UpSince(o, events, c, i) && events[i].at - events[c].at >= o.connectGrace {
      UpConnected(o, events, c, i);
    }
  }

  lemma BeforeUp(o: Options, events: seq<Event>, i: nat, c: nat, j: nat)
    requires i < j < |events| && Redials(o, events, i) && UpSince(o, events, c, j)
    ensures i < c
  {
    assert !LeavesUp(o, events, i);
  }

  /** Redials of one socket are at least the grace period apart. */
  lemma RedialsApart(o: Options, events: seq<Event>, i: nat, j: nat)
    requires Run(o, events) && i < j < |events| && Redials(o, events, i) && Redials(o, events, j)
    ensures events[j].at - events[i].at >= o.connectGrace
  {
    var c, _ := RedialEarned(o, events, j);
    BeforeUp(o, events, i, c, j);
    assert events[i].at <= events[c].at;
  }

  /** A socket with fewer distinct streams than its quorum is never redialled: one with a single
      stream, for one. */
  lemma TooFewNeverRedials(o: Options, events: seq<Event>, i: nat)
    requires Run(o, events) && i < |events|
    requires |o.Streams()| < o.Quorum()
    ensures !Redials(o, events, i)
  {
    if Redials(o, events, i) {
      var _, streams := RedialEarned(o, events, i);
      Fewer(streams, o.Streams());
    }
  }

  // ---------- how often ----------

  function Redialled(o: Options, events: seq<Event>, n: nat): nat
    requires n <= |events|
  {
    if n == 0 then 0 else Redialled(o, events, n - 1) + if Redials(o, events, n - 1) then 1 else 0
  }

  function Accepted(o: Options, events: seq<Event>, n: nat): nat
    requires n <= |events|
  {
    if n == 0 then 0 else Accepted(o, events, n - 1) + if Accepts(o, events, n - 1) then 1 else 0
  }

  lemma OneMore(redials: nat, quorum: nat)
    ensures (redials + 1) * quorum == redials * quorum + quorum
  {
  }

  /** Every redial uses up a quorum of accepted expiries, and those held are not yet used. */
  lemma {:induction false} RedialsPaidFor(o: Options, events: seq<Event>, n: nat)
    requires n <= |events|
    ensures Redialled(o, events, n) * o.Quorum() + |After(o, events, n).expiredAt| <= Accepted(o, events, n)
  {
    if n > 0 {
      RedialsPaidFor(o, events, n - 1);
      var s, e := After(o, events, n - 1), events[n - 1];
      if e.KeyExpired? {
        NotedFewer(o, s, e.sp, e.at);
        OneMore(Redialled(o, events, n - 1), o.Quorum());
      }
    }
  }
}
