/** The watcher object and its pollers, calling the tracker as one event after another. Each method is
    proved to take the joint state through the step of the same name. */
module FallbackWatcher {
  import opened Wrappers
  import opened Core
  import opened Keys
  import opened Health
  import opened HealthTracker
  import Fallback

  /** Serves one stream over REST until it is stopped. */
  class Poller {
    const specification: StreamSpec
    var stopped: bool

    constructor (specification: StreamSpec)
      ensures this.specification == specification && !stopped
    {
      this.specification, stopped := specification, false;
    }
  }

  function StreamKey(venue: string, sp: StreamSpec): string {
    Key(venue, sp.instrument.marketType, sp.instrument.Canonical(), sp.channel)
  }

  /** sp is the first of the streams with key k. */
  ghost predicate FirstUnder(venue: string, specifications: seq<StreamSpec>, k: string, sp: StreamSpec) {
    exists i :: 0 <= i < |specifications| && specifications[i] == sp && StreamKey(venue, sp) == k
                && NoneUnder(venue, specifications[..i], k)
  }

  predicate NoneUnder(venue: string, specifications: seq<StreamSpec>, k: string) {
    forall j :: 0 <= j < |specifications| ==> StreamKey(venue, specifications[j]) != k
  }

  lemma FirstUnderLonger(venue: string, specifications: seq<StreamSpec>, n: nat, k: string, sp: StreamSpec)
    requires n < |specifications|
    requires FirstUnder(venue, specifications[..n], k, sp)
          || (sp == specifications[n] && k == StreamKey(venue, sp) && NoneUnder(venue, specifications[..n], k))
    ensures FirstUnder(venue, specifications[..n + 1], k, sp)
  {
    var longer := specifications[..n + 1];
    if FirstUnder(venue, specifications[..n], k, sp) {
      var i :| 0 <= i < n && specifications[..n][i] == sp && StreamKey(venue, sp) == k
               && NoneUnder(venue, specifications[..n][..i], k);
      assert longer[..i] == specifications[..n][..i] && longer[i] == sp;
    } else {
      assert longer[..n] == specifications[..n] && longer[n] == sp;
    }
  }

  lemma KeptFirst(venue: string, specifications: seq<StreamSpec>, n: nat, keys: map<string, StreamSpec>)
    requires n < |specifications|
    requires forall sp <- specifications[..n] :: StreamKey(venue, sp) in keys
    requires forall k <- keys :: FirstUnder(venue, specifications[..n], k, keys[k])
    ensures forall k <- keys :: FirstUnder(venue, specifications[..n + 1], k, keys[k])
    ensures
      var k := StreamKey(venue, specifications[n]);
      k !in keys ==> FirstUnder(venue, specifications[..n + 1], k, specifications[n])
    ensures forall sp <- specifications[..n + 1] :: sp in specifications[..n] || sp == specifications[n]
  {
    forall k <- keys ensures FirstUnder(venue, specifications[..n + 1], k, keys[k]) {
      FirstUnderLonger(venue, specifications, n, k, keys[k]);
    }
    var k := StreamKey(venue, specifications[n]);
    if k !in keys {
      assert NoneUnder(venue, specifications[..n], k);
      FirstUnderLonger(venue, specifications, n, k, specifications[n]);
    }
    assert specifications[..n + 1] == specifications[..n] + [specifications[n]];
  }

  /** The table from key to stream, and the keys in order: the first stream under a key has it. */
  method BuildKeys(venue: string, specifications: seq<StreamSpec>)
    returns (keys: map<string, StreamSpec>, order: seq<string>)
    ensures forall sp <- specifications :: StreamKey(venue, sp) in keys
    ensures forall k <- keys :: keys[k] in specifications && StreamKey(venue, keys[k]) == k
    ensures forall k <- keys :: FirstUnder(venue, specifications, k, keys[k])
    ensures (forall k :: k in order <==> k in keys) && forall i, j :: 0 <= i < j < |order| ==> order[i] != order[j]
  {
    keys, order := map[], [];
    for n := 0 to |specifications|
      invariant forall sp <- specifications[..n] :: StreamKey(venue, sp) in keys
      invariant forall k <- keys :: FirstUnder(venue, specifications[..n], k, keys[k])
      invariant (forall k :: k in order <==> k in keys) && forall i, j :: 0 <= i < j < |order| ==> order[i] != order[j]
    {
      var k := StreamKey(venue, specifications[n]);
      KeptFirst(venue, specifications, n, keys);
      if k !in keys {
        keys := keys[k := specifications[n]];
        order := order + [k];
      }
    }
    assert specifications[..|specifications|] == specifications;
  }

  class Watcher {
    const tracker: Tracker
    const maxConcurrentPolls: nat
    const keys: map<string, StreamSpec>
    var active: map<StreamSpec, Poller>
    var expired: set<StreamSpec>
    /** Every value published on a data key, every poller ever started, and the streams one has lost. */
    ghost var data: seq<Fallback.Publication>
    ghost var started: set<Poller>
    ghost var retired: set<StreamSpec>

    function Rules(): Fallback.Settings {
      Fallback.Settings(tracker.options, maxConcurrentPolls, keys.Values)
    }

    ghost function Current(): Fallback.Joint
      reads this, tracker
    {
      Fallback.Joint(tracker.Current(), active.Keys, expired, retired, data)
    }

    ghost predicate Valid()
      reads this, tracker
    {
      && tracker.Valid()
      && (forall sp <- active :: active[sp].specification == sp && active[sp] in started)
      && (forall poller <- started :: Owns(poller) || poller.specification in retired)
    }

    /** The poller serving a stream, if there is one. */
    function Polling(sp: StreamSpec): set<Poller>
      reads this
    {
      if sp in active then {active[sp]} else {}
    }

    /** Whether a poller is still the one serving its stream. */
    predicate Owns(poller: Poller)
      reads this
    {
      poller.specification in active && active[poller.specification] == poller
    }

    constructor (tracker: Tracker, keys: map<string, StreamSpec>, maxConcurrentPolls: nat)
      requires tracker.Valid()
      ensures Valid() && this.tracker == tracker && this.maxConcurrentPolls == maxConcurrentPolls && this.keys == keys
      ensures Current() == Fallback.Joint(tracker.Current(), {}, {}, {}, [])
    {
      this.tracker, this.keys, this.maxConcurrentPolls := tracker, keys, maxConcurrentPolls;
      active, expired, data, started, retired := map[], {}, [], {}, {};
    }

    /** Reacts to one key that is gone; anything not in the table is not ours. */
    method OnExpired(key: string, now: int)
      requires Valid()
      modifies this, tracker
      ensures Valid()
      ensures Current() == if key in keys then Fallback.Step(Rules(), old(Current()), Fallback.Expired(keys[key]), now)
                           else old(Current())
    {
      if key in keys {
        assert keys[key] in keys.Values;
        Expired(keys[key], now);
      }
    }

    /** Reports an expiry once per outage, and tries to serve the stream over REST every time. */
    method Expired(sp: StreamSpec, now: int)
      requires Valid()
      modifies this, tracker
      ensures Valid()
      ensures Current() == Fallback.Engage(Rules(), Fallback.MarkExpired(Rules(), old(Current()), sp, now), sp, now)
    {
      Report(sp, now);
      Engage(sp, now);
    }

    method Report(sp: StreamSpec, now: int)
      requires Valid()
      modifies this`expired, tracker
      ensures Valid()
      ensures Current() == Fallback.MarkExpired(Rules(), old(Current()), sp, now)
    {
      var isNew := MarkExpired(sp);
      if isNew {
        tracker.KeyExpired(sp, now);
      }
    }

    method MarkExpired(sp: StreamSpec) returns (isNew: bool)
      modifies this`expired
      ensures isNew <==> sp !in old(expired)
      ensures expired == old(expired) + {sp}
    {
      if sp in expired {
        return false;
      }
      expired := expired + {sp};
      isNew := true;
    }

    method Engage(sp: StreamSpec, now: int)
      requires Valid()
      modifies this`active, this`started, tracker
      ensures Valid() && started >= old(started)
      ensures Current() == Fallback.Engage(Rules(), old(Current()), sp, now)
      ensures forall q <- old(active) :: q in active && active[q] == old(active)[q]
    {
      if sp in active {
        return;
      }
      assert |active.Keys| == |active|;
      if |active| >= maxConcurrentPolls {
        tracker.FallbackFailed(sp, Fallback.REASON_CAPACITY, now);
        return;
      }
      Insert(sp);
      tracker.FallbackEngaged(sp, now);
    }

    /** Gives the stream a poller of its own. */
    method Insert(sp: StreamSpec)
      requires Valid() && sp !in active
      modifies this`active, this`started
      ensures Valid() && started >= old(started)
      ensures Current() == old(Current()).(active := old(Current()).active + {sp})
      ensures forall q <- old(active) :: q in active && active[q] == old(active)[q]
    {
      var poller := new Poller(sp);
      active := active[sp := poller];
      started := started + {poller};
      assert active.Keys == old(active).Keys + {sp};
    }

    /** Ends fallback for a stream a websocket message arrived on. */
    method Note(sp: StreamSpec, now: int)
      requires Valid()
      modifies this, tracker, Polling(sp)
      ensures Valid() && started == old(started)
      ensures Current() == Fallback.Note(Rules(), old(Current()), sp, now)
      ensures forall poller <- old(Polling(sp)) :: poller.stopped
    {
      var hadExpiry := sp in expired;
      var poller := Forget(sp);
      if poller == null {
        if hadExpiry {
          tracker.FallbackDisengaged(sp, now);
        }
        return;
      }
      poller.stopped := true;
      tracker.FallbackDisengaged(sp, now);
    }

    /** Drops what is kept of a stream's outage, and says who was polling it. */
    method Forget(sp: StreamSpec) returns (poller: Poller?)
      requires Valid()
      modifies this`active, this`expired, this`retired
      ensures Valid()
      ensures poller == if sp in old(active) then old(active)[sp] else null
      ensures
        var j := old(Current());
        Current() == j.(active := j.active - {sp}, expired := j.expired - {sp},
                      retired := j.retired + (j.active * {sp}))
    {
      poller := if sp in active then active[sp] else null;
      active := active - {sp};
      expired := expired - {sp};
      if poller != null {
        retired := retired + {sp};
      }
      assert old(active).Keys * {sp} == if poller != null then {sp} else {};
    }

    /** One poll: what it fetched, and how writing that ended. A poller that has lost its stream can be
        in one still; it writes nothing, but reports a failure all the same. */
    method RunPoll(poller: Poller, poll: Fallback.Poll, now: int)
      requires Valid() && poller in started
      modifies this`data, tracker
      ensures Valid()
      ensures Current() ==
        if old(Owns(poller)) then Fallback.DoPoll(Rules(), old(Current()), poller.specification, poll, now)
        else Fallback.DoLatePoll(Rules(), old(Current()), poller.specification, poll, now)
    {
      var sp := poller.specification;
      if poll.FetchFailed? {
        tracker.FallbackFailed(sp, Fallback.REASON_POLL, now);
        return;
      }
      for n := 0 to poll.served
        invariant Valid() && (n > 0 ==> Owns(poller)) && Owns(poller) == old(Owns(poller))
        invariant Current() == Fallback.Serve(Rules(), old(Current()), sp, n, now)
      {
        if !Owns(poller) {
          return;
        }
        ServeOne(sp, now);
      }
      FinishPoll(poller, poll.served, poll.ending, now);
    }

    /** What a poll reports once it has written what it could. */
    method FinishPoll(poller: Poller, served: nat, ending: Fallback.Ending, now: int)
      requires Valid() && (served > 0 ==> Owns(poller))
      modifies tracker
      ensures Valid()
      ensures Current() == if Owns(poller) || ending == Fallback.Done
                           then Fallback.FinishPoll(Rules(), old(Current()), poller.specification, served, ending, now)
                           else old(Current())
    {
      var sp := poller.specification;
      match ending
      case Done =>
        if served == 0 {
          tracker.FallbackFailed(sp, Fallback.REASON_EMPTY, now);
        }
      case NoEnvelope =>
        if Owns(poller) {
          tracker.FallbackFailed(sp, Fallback.REASON_EMPTY, now);
        }
      case WriteFailed =>
        if Owns(poller) {
          tracker.Polled(sp, now);
          tracker.FallbackFailed(sp, Fallback.REASON_POLL, now);
        }
    }

    /** One value: current again, then written. */
    method ServeOne(sp: StreamSpec, now: int)
      requires Valid()
      modifies this`data, tracker
      ensures Valid()
      ensures Current() == Fallback.ServeOne(Rules(), old(Current()), sp, now)
    {
      tracker.Polled(sp, now);
      WriteValue(sp, Rest, now);
    }

    /** Stamps the status the tracker computes now, and writes. */
    method WriteValue(sp: StreamSpec, source: Source, now: int)
      modifies this`data
      ensures Current() == Fallback.Emit(Rules(), old(Current()), sp, source, now)
    {
      var verdict := tracker.StatusOf(sp, now);
      data := data + [Fallback.Publication(sp, source, verdict)];
    }

    /** The publish path of a websocket message. */
    method Deliver(sp: StreamSpec, now: int)
      requires Valid()
      modifies this, tracker, Polling(sp)
      ensures Valid()
      ensures Current() == Fallback.Deliver(Rules(), old(Current()), sp, now)
    {
      Note(sp, now);
      tracker.Received(sp, now);
      WriteValue(sp, Websocket, now);
    }
  }
}
