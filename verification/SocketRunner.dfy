/** The runner of one socket: its connection, and the expiries held against it. */
module SocketRunner {
  import opened Wrappers
  import opened Core
  import opened Quorum

  class Conn {
    var closed: bool

    constructor ()
      ensures !closed
    {
      closed := false;
    }

    method Close()
      modifies this
      ensures closed
    {
      closed := true;
    }
  }

  /** What is left of m once the keys outside rest have been swept. */
  function Swept(m: map<StreamSpec, int>, rest: set<StreamSpec>, window: int, now: int): map<StreamSpec, int> {
    map sp <- m | sp in rest || now - m[sp] <= window :: m[sp]
  }

  lemma SweptNext(m: map<StreamSpec, int>, rest: set<StreamSpec>, sp: StreamSpec, window: int, now: int)
    requires sp in rest && rest <= m.Keys
    ensures sp in Swept(m, rest, window, now) && Swept(m, rest, window, now)[sp] == m[sp]
    ensures Swept(m, rest - {sp}, window, now)
         == if now - m[sp] > window then Swept(m, rest, window, now) - {sp} else Swept(m, rest, window, now)
  {
  }

  /** How many the sweep has kept so far. */
  function Kept(m: map<StreamSpec, int>, rest: set<StreamSpec>, window: int, now: int): nat {
    |Recent(m, window, now).Keys - rest|
  }

  lemma KeptNext(m: map<StreamSpec, int>, rest: set<StreamSpec>, sp: StreamSpec, window: int, now: int)
    requires sp in rest && rest <= m.Keys
    ensures Kept(m, rest - {sp}, window, now)
         == Kept(m, rest, window, now) + if now - m[sp] > window then 0 else 1
  {
    var kept := Recent(m, window, now).Keys;
    if now - m[sp] > window {
      assert kept - (rest - {sp}) == kept - rest;
    } else {
      assert kept - (rest - {sp}) == (kept - rest) + {sp};
    }
  }

  lemma SweptEnds(m: map<StreamSpec, int>, window: int, now: int)
    ensures Swept(m, m.Keys, window, now) == m && Kept(m, m.Keys, window, now) == 0
    ensures Swept(m, {}, window, now) == Recent(m, window, now)
    ensures Kept(m, {}, window, now) == |Recent(m, window, now)|
  {
    SweptAll(m, window, now);
    KeptAll(Recent(m, window, now), m);
  }

  lemma SweptAll(m: map<StreamSpec, int>, window: int, now: int)
    ensures Swept(m, m.Keys, window, now) == m && Swept(m, {}, window, now) == Recent(m, window, now)
    ensures Recent(m, window, now).Keys <= m.Keys
  {
  }

  lemma KeptAll(kept: map<StreamSpec, int>, m: map<StreamSpec, int>)
    requires kept.Keys <= m.Keys
    ensures |kept.Keys - m.Keys| == 0 && |kept.Keys - {}| == |kept|
  {
    assert kept.Keys - m.Keys == {} && kept.Keys - {} == kept.Keys;
    assert |kept| == |kept.Keys|;
  }

  class Runner {
    const options: Options
    var connection: Conn?
    var connectedAt: int
    var expiredAt: map<StreamSpec, int>
    /** The one-slot channel that ends a session. */
    var redial: bool

    ghost function Current(): State
      reads this
    {
      State(if connection == null then None else Some(connectedAt), expiredAt)
    }

    constructor (options: Options)
      ensures this.options == options && Current() == DOWN && connection == null && !redial
    {
      this.options := options;
      connection, connectedAt, expiredAt, redial := null, 0, map[], false;
    }

    /** Adopts a new connection and drops the expiries recorded against the one before it. */
    method SetConn(connection: Conn, now: int)
      modifies this
      ensures Current() == Step(options, old(Current()), Connected(now))
      ensures this.connection == connection && redial == old(redial)
    {
      this.connection, connectedAt, expiredAt := connection, now, map[];
    }

    /** Drops the connection and closes it; a second call does nothing. */
    method CloseConn(now: int)
      modifies this, connection
      ensures Current() == Step(options, old(Current()), Closed(now))
      ensures connection == null && redial == old(redial)
      ensures old(connection) != null ==> old(connection).closed
    {
      var was := connection;
      connection, connectedAt := null, 0;
      if was != null {
        was.Close();
      }
    }

    /** Deletes the expiries that have left the window and counts the rest. */
    method Prune(now: int) returns (n: nat)
      modifies this`expiredAt
      ensures expiredAt == Recent(old(expiredAt), options.expiryWindow, now)
      ensures n == |expiredAt|
    {
      ghost var was := expiredAt;
      SweptEnds(was, options.expiryWindow, now);
      var rest := expiredAt.Keys;
      n := 0;
      while rest != {}
        invariant rest <= was.Keys
        invariant expiredAt == Swept(was, rest, options.expiryWindow, now)
        invariant n == Kept(was, rest, options.expiryWindow, now)
        decreases |rest|
      {
        var sp :| sp in rest;
        SweptNext(was, rest, sp, options.expiryWindow, now);
        KeptNext(was, rest, sp, options.expiryWindow, now);
        if now - expiredAt[sp] > options.expiryWindow {
          expiredAt := expiredAt - {sp};
        } else {
          n := n + 1;
        }
        rest := rest - {sp};
      }
    }

    /** Records one expired key and decides which tier it is; a redial closes the connection first
        and then signals the session. */
    method NoteExpiry(sp: StreamSpec, now: int) returns (tier: Tier)
      modifies this, connection
      ensures tier == TierOf(options, old(Current()), sp, now)
      ensures Current() == Step(options, old(Current()), KeyExpired(now, sp))
      ensures tier == RedialSocket ==> old(connection) != null && old(connection).closed && redial
      ensures tier != RedialSocket ==> connection == old(connection) && redial == old(redial)
      ensures tier != RedialSocket && connection != null ==> connection.closed == old(connection.closed)
    {
      if connection == null || now - connectedAt < options.connectGrace {
        return Ignored;
      }
      expiredAt := expiredAt[sp := now];
      var n := Prune(now);
      if n < options.Quorum() {
        return RestartStream;
      }
      expiredAt := map[];
      CloseConn(now);
      redial := true;
      tier := RedialSocket;
    }
  }
}
