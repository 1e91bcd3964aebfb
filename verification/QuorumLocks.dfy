/** The quorum one critical section at a time: an escalation decides under the lock and closes the
    connection after giving it up, and anything may happen in between. */
module QuorumLocks {
  import opened Wrappers
  import opened Core
  import Quorum

  /** An escalation that has yet to close: the step that decided it, and the connection it decided on.
      Connections are named by the step that brought them up. */
  datatype Pending = Pending(decided: nat, conn: nat)

  /** The socket, the latest connection, the escalations that have yet to close, and how many steps,
      redials and accepted expiries there have been. */
  datatype State = State(socket: Quorum.State, conn: nat, closing: seq<Pending>,
                         steps: nat, redials: nat, accepted: nat)

  const START := State(Quorum.DOWN, 0, [], 0, 0, 0)

  /** Close takes the k-th of the escalations yet to close, if there is one. */
  datatype Action = Connect(at: int) | Drop(at: int) | Decide(at: int, sp: StreamSpec) | Close(at: int, k: nat)

  /** Deciding to redial clears the expiries but leaves the connection, whichever it then is, to be closed. */
  function Step(o: Quorum.Options, s: State, a: Action): State {
    var next := s.(steps := s.steps + 1);
    match a
    case Connect(at) => next.(socket := Quorum.Step(o, s.socket, Quorum.Connected(at)), conn := s.steps)
    case Drop(at) => next.(socket := Quorum.Step(o, s.socket, Quorum.Closed(at)))
    case Close(at, k) =>
      if k >= |s.closing| then next
      else next.(socket := Quorum.Step(o, s.socket, Quorum.Closed(at)), closing := s.closing[..k] + s.closing[k + 1..])
    case Decide(at, sp) =>
      match Quorum.TierOf(o, s.socket, sp, at)
      case Ignored => next
      case RestartStream =>
        next.(socket := Quorum.Step(o, s.socket, Quorum.KeyExpired(at, sp)), accepted := s.accepted + 1)
      case RedialSocket =>
        next.(socket := s.socket.(expiredAt := map[]), closing := s.closing + [Pending(s.steps, s.conn)],
              redials := s.redials + 1, accepted := s.accepted + 1)
  }

  function After(o: Quorum.Options, actions: seq<Action>, n: nat): State
    requires n <= |actions|
  {
    if n == 0 then START else Step(o, After(o, actions, n - 1), actions[n - 1])
  }

  predicate Redials(o: Quorum.Options, actions: seq<Action>, i: nat)
    requires i < |actions|
  {
    actions[i].Decide?
    && Quorum.TierOf(o, After(o, actions, i).socket, actions[i].sp, actions[i].at) == Quorum.RedialSocket
  }

  predicate Accepts(o: Quorum.Options, actions: seq<Action>, i: nat)
    requires i < |actions|
  {
    actions[i].Decide? && Quorum.Counts(o, After(o, actions, i).socket, actions[i].at)
  }

  /** Step i closes what is connected, if anything is, on behalf of an escalation. */
  predicate Closes(o: Quorum.Options, actions: seq<Action>, i: nat)
    requires i < |actions|
  {
    actions[i].Close? && actions[i].k < |After(o, actions, i).closing|
  }

  /** With nothing in between, deciding and closing are the one step the quorum takes. */
  lemma AtomicEscalation(o: Quorum.Options, s: State, sp: StreamSpec, at: int)
    requires Quorum.TierOf(o, s.socket, sp, at) == Quorum.RedialSocket
    ensures Step(o, Step(o, s, Decide(at, sp)), Close(at, |s.closing|)).socket
         == Quorum.Step(o, s.socket, Quorum.KeyExpired(at, sp))
    ensures Step(o, Step(o, s, Decide(at, sp)), Close(at, |s.closing|)).closing == s.closing
  {
  }

  // ---------- what every interleaving keeps ----------

  /** Expiries held are below the quorum, and not yet paid for a redial. */
  predicate Paid(o: Quorum.Options, s: State) {
    && |s.socket.expiredAt| < o.Quorum()
    && s.redials * o.Quorum() + |s.socket.expiredAt| <= s.accepted
    && |s.closing| <= s.redials
  }

  lemma StepPaid(o: Quorum.Options, s: State, a: Action)
    requires Paid(o, s)
    ensures Paid(o, Step(o, s, a))
  {
    if a.Decide? {
      Quorum.NotedFewer(o, s.socket, a.sp, a.at);
      Quorum.OneMore(s.redials, o.Quorum());
    }
  }

  /** Under every interleaving a redial is still paid for by a quorum of accepted expiries. */
  lemma {:induction false} RunPaid(o: Quorum.Options, actions: seq<Action>, n: nat)
    requires n <= |actions|
    ensures Paid(o, After(o, actions, n))
  {
    if n > 0 {
      RunPaid(o, actions, n - 1);
      StepPaid(o, After(o, actions, n - 1), actions[n - 1]);
    }
  }

  // ---------- which connection is up ----------

  /** A step that leaves what is connected as it is. */
  predicate LeavesUp(o: Quorum.Options, actions: seq<Action>, i: nat)
    requires i < |actions|
  {
    actions[i].Decide? || (actions[i].Close? && !Closes(o, actions, i))
  }

  /** The connection of step m is up at step n. */
  ghost predicate Up(o: Quorum.Options, actions: seq<Action>, m: nat, n: nat)
    requires n <= |actions|
  {
    m < n && actions[m].Connect? && forall k :: m < k < n ==> LeavesUp(o, actions, k)
  }

  lemma UpShorter(o: Quorum.Options, actions: seq<Action>, m: nat, i: nat, n: nat)
    requires m < i <= n <= |actions| && Up(o, actions, m, n)
    ensures Up(o, actions, m, i)
  {
    forall k | m < k < i ensures LeavesUp(o, actions, k) {
      assert m < k < n;
    }
  }

  lemma {:induction false} Counted(o: Quorum.Options, actions: seq<Action>, n: nat)
    requires n <= |actions|
    ensures After(o, actions, n).steps == n
  {
    if n > 0 {
      Counted(o, actions, n - 1);
    }
  }

  lemma {:induction false} UpShows(o: Quorum.Options, actions: seq<Action>, m: nat, n: nat)
    requires n <= |actions| && Up(o, actions, m, n)
    ensures After(o, actions, n).socket.connectedAt == Some(actions[m].at) && After(o, actions, n).conn == m
  {
    Counted(o, actions, n - 1);
    if m < n - 1 {
      assert LeavesUp(o, actions, n - 1);
      UpShorter(o, actions, m, n - 1, n);
      UpShows(o, actions, m, n - 1);
    }
  }

  lemma {:induction false} ShowsUp(o: Quorum.Options, actions: seq<Action>, n: nat)
    requires n <= |actions| && After(o, actions, n).socket.connectedAt.Some?
    ensures Up(o, actions, After(o, actions, n).conn, n)
  {
    Counted(o, actions, n - 1);
    if !actions[n - 1].Connect? {
      ShowsUp(o, actions, n - 1);
      UpLonger(o, actions, After(o, actions, n - 1).conn, n);
    }
  }

  lemma UpLonger(o: Quorum.Options, actions: seq<Action>, m: nat, n: nat)
    requires 0 < n <= |actions| && Up(o, actions, m, n - 1) && LeavesUp(o, actions, n - 1)
    ensures Up(o, actions, m, n)
  {
    forall k | m < k < n ensures LeavesUp(o, actions, k) {
      assert k < n - 1 || k == n - 1;
    }
  }

  /** Every escalation yet to close was decided by a redial, on the connection then up. */
  ghost predicate Grounded(o: Quorum.Options, actions: seq<Action>, n: nat, p: Pending)
    requires n <= |actions|
  {
    p.decided < n && Redials(o, actions, p.decided) && Up(o, actions, p.conn, p.decided)
  }

  lemma {:induction false} PendingGrounded(o: Quorum.Options, actions: seq<Action>, n: nat, p: Pending)
    requires n <= |actions| && p in After(o, actions, n).closing
    ensures Grounded(o, actions, n, p)
  {
    var s := After(o, actions, n - 1);
    Counted(o, actions, n - 1);
    if p in s.closing {
      PendingGrounded(o, actions, n - 1, p);
    } else {
      ShowsUp(o, actions, n - 1);
    }
  }

  // ---------- what a redial rests on, still ----------

  /** sp expired at step e, on the connection of step m and past its grace period. */
  predicate NotedAt(o: Quorum.Options, actions: seq<Action>, m: nat, e: nat, sp: StreamSpec)
    requires m < |actions| && e < |actions|
  {
    m < e && actions[e].Decide? && actions[e].sp == sp && actions[e].at - actions[m].at >= o.connectGrace
  }

  ghost predicate Held(o: Quorum.Options, actions: seq<Action>, m: nat, n: nat, held: map<StreamSpec, int>)
    requires m < n <= |actions|
  {
    forall sp <- held :: exists e :: m < e < n && NotedAt(o, actions, m, e, sp) && actions[e].at == held[sp]
  }

  lemma NotedHeld(o: Quorum.Options, actions: seq<Action>, m: nat, n: nat)
    requires 0 < n <= |actions| && Accepts(o, actions, n - 1) && Up(o, actions, m, n - 1)
    requires Held(o, actions, m, n - 1, After(o, actions, n - 1).socket.expiredAt)
    ensures
      Held(o, actions, m, n, Quorum.Noted(o, After(o, actions, n - 1).socket, actions[n - 1].sp, actions[n - 1].at))
  {
    var s, a := After(o, actions, n - 1), actions[n - 1];
    UpShows(o, actions, m, n - 1);
    var held := Quorum.Noted(o, s.socket, a.sp, a.at);
    forall sp <- held
      ensures exists e :: m < e < n && NotedAt(o, actions, m, e, sp) && actions[e].at == held[sp]
    {
      if sp == a.sp {
        assert NotedAt(o, actions, m, n - 1, sp);
      } else {
        assert sp in s.socket.expiredAt;
      }
    }
  }

  lemma {:induction false} UpHeld(o: Quorum.Options, actions: seq<Action>, m: nat, n: nat)
    requires n <= |actions| && Up(o, actions, m, n)
    ensures Held(o, actions, m, n, After(o, actions, n).socket.expiredAt)
  {
    if m < n - 1 {
      assert LeavesUp(o, actions, n - 1);
      UpShorter(o, actions, m, n - 1, n);
      UpHeld(o, actions, m, n - 1);
      if Accepts(o, actions, n - 1) {
        NotedHeld(o, actions, m, n);
      }
    }
  }

  /** The streams a redial at step i sees gone together on the connection of step m. */
  ghost predicate Together(o: Quorum.Options, actions: seq<Action>, m: nat, i: nat, streams: set<StreamSpec>)
    requires m < i < |actions|
  {
    && |streams| >= o.Quorum()
    && forall sp <- streams :: exists e ::
         m < e <= i && NotedAt(o, actions, m, e, sp) && actions[i].at - actions[e].at <= o.expiryWindow
  }

  /** Under every interleaving a decision to redial rests on a quorum of streams gone together on the
      one connection that is then up, and that has been up for the grace period. */
  lemma DecisionEarned(o: Quorum.Options, actions: seq<Action>, i: nat) returns (m: nat, streams: set<StreamSpec>)
    requires i < |actions| && Redials(o, actions, i)
    ensures Up(o, actions, m, i) && actions[i].at - actions[m].at >= o.connectGrace
    ensures m == After(o, actions, i).conn && Together(o, actions, m, i, streams)
  {
    m := After(o, actions, i).conn;
    ShowsUp(o, actions, i);
    UpShows(o, actions, m, i);
    UpHeld(o, actions, m, i);
    NotedHeld(o, actions, m, i + 1);
    var held := Quorum.Noted(o, After(o, actions, i).socket, actions[i].sp, actions[i].at);
    streams := held.Keys;
    assert |streams| == |held|;
    forall sp <- streams
      ensures exists e :: m < e <= i && NotedAt(o, actions, m, e, sp) && actions[i].at - actions[e].at <= o.expiryWindow
    {
      var e :| m < e < i + 1 && NotedAt(o, actions, m, e, sp) && actions[e].at == held[sp];
    }
  }

  // ---------- the wrong connection ----------

  /** Step c closes a connection other than the one its escalation was decided on. */
  predicate HitsAnother(o: Quorum.Options, actions: seq<Action>, c: nat)
    requires c < |actions| && Closes(o, actions, c)
  {
    var s := After(o, actions, c);
    s.socket.connectedAt.Some? && s.conn != s.closing[actions[c].k].conn
  }

  /** Under every interleaving an escalation closes a connection that did not earn it exactly when one
      came up after it was decided, and is still up. */
  lemma HitsAnotherExact(o: Quorum.Options, actions: seq<Action>, c: nat)
    requires c < |actions| && Closes(o, actions, c)
    ensures
      var p := After(o, actions, c).closing[actions[c].k];
      Grounded(o, actions, c, p)
      && (HitsAnother(o, actions, c) <==> exists m :: p.decided < m < c && Up(o, actions, m, c))
  {
    var s := After(o, actions, c);
    var p := s.closing[actions[c].k];
    PendingGrounded(o, actions, c, p);
    if HitsAnother(o, actions, c) {
      var m := s.conn;
      ShowsUp(o, actions, c);
      if m < p.decided {
        UpShorter(o, actions, m, p.decided, c);
        UpShows(o, actions, m, p.decided);
        UpShows(o, actions, p.conn, p.decided);
      }
      assert p.decided < m < c && Up(o, actions, m, c);
    }
    if m :| p.decided < m < c && Up(o, actions, m, c) {
      UpShows(o, actions, m, c);
    }
  }

  /** From any state with an escalation yet to close: the connection ends by itself, another comes up,
      and that one is closed. */
  lemma NewcomerClosed(o: Quorum.Options, actions: seq<Action>, n: nat)
    requires n + 2 < |actions| && actions[n].Drop? && actions[n + 1].Connect? && actions[n + 2].Close?
    requires actions[n + 2].k < |After(o, actions, n).closing|
    ensures Closes(o, actions, n + 2) && HitsAnother(o, actions, n + 2)
  {
    PendingGrounded(o, actions, n, After(o, actions, n).closing[actions[n + 2].k]);
    Counted(o, actions, n + 1);
    assert After(o, actions, n + 1) == Step(o, After(o, actions, n), actions[n]);
    assert After(o, actions, n + 2) == Step(o, After(o, actions, n + 1), actions[n + 1]);
  }

  // ---------- how far apart redials are ----------

  predicate ClockMonotone(actions: seq<Action>) {
    forall i, j :: 0 <= i <= j < |actions| ==> actions[i].at <= actions[j].at
  }

  /** Decisions to redial are at least the grace period apart whenever anything has taken down, or
      replaced, the first one's connection in between: its own closing does, as it always has when
      one goroutine reports the expiries. */
  lemma DecisionsApart(o: Quorum.Options, actions: seq<Action>, i: nat, x: nat, j: nat)
    requires ClockMonotone(actions) && i < x < j < |actions| && Redials(o, actions, i) && Redials(o, actions, j)
    requires !LeavesUp(o, actions, x)
    ensures actions[j].at - actions[i].at >= o.connectGrace
  {
    var m, _ := DecisionEarned(o, actions, j);
    AfterTakenDown(o, actions, i, x, m, j);
    assert actions[i].at <= actions[m].at;
  }

  lemma AfterTakenDown(o: Quorum.Options, actions: seq<Action>, i: nat, x: nat, m: nat, j: nat)
    requires i < x < j <= |actions| && !LeavesUp(o, actions, x) && Up(o, actions, m, j)
    ensures i < m
  {
  }

  /** What is held of the first k of some streams, all gone at once. */
  function AllAt(streams: seq<StreamSpec>, at: int, k: nat): map<StreamSpec, int>
    requires k <= |streams|
  {
    if k == 0 then map[] else AllAt(streams, at, k - 1)[streams[k - 1] := at]
  }

  lemma {:induction false} AllAtMembers(streams: seq<StreamSpec>, at: int, k: nat, sp: StreamSpec)
    requires k <= |streams|
    ensures sp in AllAt(streams, at, k) <==> exists i :: 0 <= i < k && streams[i] == sp
    ensures sp in AllAt(streams, at, k) ==> AllAt(streams, at, k)[sp] == at
  {
    if k > 0 {
      AllAtMembers(streams, at, k - 1, sp);
    }
  }

  lemma {:induction false} AllAtKeys(streams: seq<StreamSpec>, at: int, k: nat)
    requires k <= |streams| && forall i, j :: 0 <= i < j < |streams| ==> streams[i] != streams[j]
    ensures |AllAt(streams, at, k)| == k
  {
    if k > 0 {
      AllAtKeys(streams, at, k - 1);
      AllAtMembers(streams, at, k - 1, streams[k - 1]);
      OneKeyMore(AllAt(streams, at, k - 1), streams[k - 1], at);
    }
  }

  lemma OneKeyMore(m: map<StreamSpec, int>, sp: StreamSpec, at: int)
    requires sp !in m
    ensures |m[sp := at]| == |m| + 1
  {
    assert m[sp := at].Keys == m.Keys + {sp};
    assert |m| == |m.Keys| && |m[sp := at]| == |m[sp := at].Keys|;
  }

  lemma NotedNext(o: Quorum.Options, s: Quorum.State, streams: seq<StreamSpec>, at: int, k: nat)
    requires k < |streams| && forall i, j :: 0 <= i < j < |streams| ==> streams[i] != streams[j]
    requires o.expiryWindow >= 0 && s.expiredAt == AllAt(streams, at, k)
    ensures Quorum.Noted(o, s, streams[k], at) == AllAt(streams, at, k + 1)
    ensures |AllAt(streams, at, k + 1)| == k + 1
  {
    AllAtKeys(streams, at, k + 1);
    forall sp <- AllAt(streams, at, k) ensures AllAt(streams, at, k)[sp] == at {
      AllAtMembers(streams, at, k, sp);
    }
  }

  /** Straight after a decision its connection is up and nothing is held. */
  ghost predicate JustDecided(o: Quorum.Options, s: State, at: int) {
    Quorum.Counts(o, s.socket, at) && s.socket.expiredAt == map[]
  }

  /** After step i these streams expire one after the other, all at the time of step i. */
  predicate GoTogether(actions: seq<Action>, i: nat, streams: seq<StreamSpec>) {
    i + |streams| < |actions|
    && forall k :: 0 <= k < |streams| ==> Expires(actions, i, streams, k)
  }

  predicate Expires(actions: seq<Action>, i: nat, streams: seq<StreamSpec>, k: nat)
    requires i + |streams| < |actions| && k < |streams|
  {
    actions[i + 1 + k] == Decide(actions[i].at, streams[k])
  }

  lemma {:induction false} ExpiriesHeld(o: Quorum.Options, actions: seq<Action>, i: nat,
                                          streams: seq<StreamSpec>, k: nat)
    requires GoTogether(actions, i, streams) && o.expiryWindow >= 0
    requires JustDecided(o, After(o, actions, i + 1), actions[i].at) && k <= |streams| && k < o.Quorum()
    requires forall i, j :: 0 <= i < j < |streams| ==> streams[i] != streams[j]
    ensures After(o, actions, i + 1 + k).socket
         == After(o, actions, i + 1).socket.(expiredAt := AllAt(streams, actions[i].at, k))
  {
    if k > 0 {
      ExpiriesHeld(o, actions, i, streams, k - 1);
      assert Expires(actions, i, streams, k - 1);
      ExpiryHeld(o, After(o, actions, i + k), streams, actions[i].at, k - 1);
    }
  }

  /** One more of these streams, short of the quorum. */
  lemma ExpiryHeld(o: Quorum.Options, s: State, streams: seq<StreamSpec>, at: int, k: nat)
    requires k < |streams| && k + 1 < o.Quorum() && o.expiryWindow >= 0 && Quorum.Counts(o, s.socket, at)
    requires forall i, j :: 0 <= i < j < |streams| ==> streams[i] != streams[j]
    requires s.socket.expiredAt == AllAt(streams, at, k)
    ensures Step(o, s, Decide(at, streams[k])).socket == s.socket.(expiredAt := AllAt(streams, at, k + 1))
  {
    NotedNext(o, s.socket, streams, at, k);
  }

  lemma DecidedJust(o: Quorum.Options, actions: seq<Action>, i: nat)
    requires i < |actions| && Redials(o, actions, i)
    ensures JustDecided(o, After(o, actions, i + 1), actions[i].at)
  {
  }

  /** And when nothing has, they need not be apart at all: if a further quorum of streams expires at the
      very moment of a decision, before its closing, the last of them decides again. */
  lemma DecisionsTogether(o: Quorum.Options, actions: seq<Action>, i: nat, streams: seq<StreamSpec>)
    requires i < |actions| && Redials(o, actions, i) && GoTogether(actions, i, streams) && o.expiryWindow >= 0
    requires |streams| == o.Quorum() && forall i, j :: 0 <= i < j < |streams| ==> streams[i] != streams[j]
    ensures Redials(o, actions, i + |streams|) && actions[i + |streams|].at == actions[i].at
  {
    var k := |streams| - 1;
    DecidedJust(o, actions, i);
    ExpiriesHeld(o, actions, i, streams, k);
    assert Expires(actions, i, streams, k);
    NotedNext(o, After(o, actions, i + |streams|).socket, streams, actions[i].at, k);
  }
}
