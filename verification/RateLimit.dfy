/** The in-process request budget: whole units per window, priced in the nanoseconds each unit
    takes to come back and metered by GCRA. */
module RateLimit {
  import opened Wrappers
  import opened Gcra

  datatype LimitKind = RestWeight | WebSocketConnect | Subscriptions

  /** One kind's budget: capacity operations per window. */
  datatype Bucket = Bucket(capacity: int, window: int) {

    function Interval(): int
      requires capacity > 0
    {
      window / capacity
    }

    predicate Valid() {
      capacity > 0 && window > 0 && Interval() > 0
    }

    /** The time that cost units take to come back. */
    function Charge(cost: int): int
      requires capacity > 0
    {
      Interval() * cost
    }

    /** How far the arrival time may run ahead of the clock. */
    function Burst(): int
      requires capacity > 0
    {
      Charge(capacity)
    }

    /** Units in use, partly spent ones included. */
    function Used(tat: Option<int>, now: int): int
      requires Valid()
    {
      if tat == None || tat.value - now <= 0 then 0
      else
        var n := (tat.value - now + Interval() - 1) / Interval();
        if n < capacity then n else capacity
    }
  }

  // ---------- integer arithmetic ----------

  lemma Distribute(x: int, y: int, z: int)
    ensures x * (y + z) == x * y + x * z
  {
  }

  lemma ProductMonotone(x: nat, y: int, z: int)
    ensures y <= z ==> x * y <= x * z
  {
    if y <= z {
      Distribute(x, y, z - y);
      assert x * (z - y) >= 0;
    }
  }

  lemma QuotientCovers(x: int, k: int, rest: nat)
    requires x > 0
    ensures x * k <= rest <==> k <= rest / x
  {
    var q := rest / x;
    assert x * q <= rest < x * (q + 1) by { Distribute(x, q, 1); }
    ProductMonotone(x, q + 1, k);
    ProductMonotone(x, k, q);
  }

  lemma CeilingCovers(x: int, ahead: nat, units: int)
    requires x > 0
    ensures ahead <= x * units <==> (ahead + x - 1) / x <= units
  {
    QuotientCovers(x, units + 1, ahead + x - 1);
    Distribute(x, units, 1);
  }

  lemma ChargeMonotone(b: Bucket, c: int, d: int)
    requires b.Valid() && c <= d
    ensures b.Charge(c) <= b.Charge(d)
  {
    ProductMonotone(b.Interval(), c, d);
  }

  /** A bucket can be enforced just when every operation gets at least one nanosecond. */
  lemma ValidExact(b: Bucket)
    ensures b.Valid() <==> 0 < b.capacity <= b.window
  {
    if b.capacity > 0 && b.window >= 0 {
      QuotientCovers(b.capacity, 1, b.window);
    }
  }

  // ---------- requests ----------

  datatype Request = Request(now: int, cost: nat, deadline: Option<int>)

  function Priced(b: Bucket, r: Request): Call
    requires b.Valid()
  {
    ProductMonotone(b.Interval(), 0, r.cost);
    Call(r.now, r.cost, b.Charge(r.cost), r.deadline)
  }

  function Calls(b: Bucket, requests: seq<Request>): (calls: seq<Call>)
    requires b.Valid()
    ensures |calls| == |requests|
    ensures forall i :: 0 <= i < |calls| ==> calls[i] == Priced(b, requests[i])
  {
    seq(|requests|, i requires 0 <= i < |requests| => Priced(b, requests[i]))
  }

  function Served(b: Bucket, requests: seq<Request>): Limiter
    requires b.Valid()
  {
    Run(b.Burst(), Calls(b, requests))
  }

  /** Every request fits the bucket. */
  predicate Fits(b: Bucket, requests: seq<Request>) {
    forall i :: 0 <= i < |requests| ==> 0 < requests[i].cost <= b.capacity
  }

  /** The units of the grants i..j-1. */
  function Spent(log: seq<Grant>, i: nat, j: nat): nat
    requires i <= j <= |log|
  {
    if i == j then 0 else Spent(log, i, j - 1) + log[j - 1].cost
  }

  lemma {:induction false} SpentPrefix(log: seq<Grant>, g: Grant, i: nat, j: nat)
    requires i <= j <= |log|
    ensures Spent(log + [g], i, j) == Spent(log, i, j)
  {
    if i < j {
      SpentPrefix(log, g, i, j - 1);
    }
  }

  /** Every grant charges what its units cost. */
  predicate Fair(b: Bucket, log: seq<Grant>)
    requires b.Valid()
  {
    forall i :: 0 <= i < |log| ==> log[i].charge == b.Charge(log[i].cost)
  }

  lemma {:induction false} FairCharge(b: Bucket, log: seq<Grant>, i: nat, j: nat)
    requires b.Valid() && Fair(b, log) && i <= j <= |log|
    ensures Charged(log, i, j) == b.Charge(Spent(log, i, j))
  {
    if i < j {
      FairCharge(b, log, i, j - 1);
      Distribute(b.Interval(), Spent(log, i, j - 1), log[j - 1].cost);
    }
  }

  lemma ServedStep(b: Bucket, requests: seq<Request>, r: Request)
    requires b.Valid()
    ensures Served(b, requests + [r]) == Step(b.Burst(), Served(b, requests), Priced(b, r))
  {
    var calls := Calls(b, requests + [r]);
    assert calls[..|calls| - 1] == Calls(b, requests);
  }

  lemma {:induction false} ServedFair(b: Bucket, requests: seq<Request>)
    requires b.Valid()
    ensures Fair(b, Served(b, requests).log)
  {
    if requests == [] {
      assert Calls(b, requests) == [];
    } else {
      ServedFair(b, requests[..|requests| - 1]);
      ServedStep(b, requests[..|requests| - 1], requests[|requests| - 1]);
      assert requests[..|requests| - 1] + [requests[|requests| - 1]] == requests;
    }
  }

  /** In every run, the units of any consecutive grants take no longer to come back than the time
      between the first slot and the last, plus one full bucket. */
  lemma ServedWithinBurst(b: Bucket, requests: seq<Request>, i: nat, j: nat)
    requires b.Valid() && Fits(b, requests) && i <= j < |Served(b, requests).log|
    ensures
      var log := Served(b, requests).log;
      b.Interval() * Spent(log, i, j + 1) <= log[j].start - log[i].start + b.Interval() * b.capacity
  {
    var log := Served(b, requests).log;
    forall k | 0 <= k < |requests| ensures Calls(b, requests)[k].charge <= b.Burst() {
      ChargeMonotone(b, requests[k].cost, b.capacity);
    }
    RunKeepsBound(b.Burst(), Calls(b, requests));
    ServedFair(b, requests);
    FairCharge(b, log, i, j + 1);
    assert WithinBurst(b.Burst(), log, i, j);
  }

  // ---------- how much one window can hold ----------

  /** No span of one window holds more than this many units. */
  predicate AtMostPerWindow(b: Bucket, log: seq<Grant>, limit: int) {
    forall i, j :: 0 <= i <= j < |log| && log[j].start - log[i].start <= b.window ==>
      Spent(log, i, j + 1) <= limit
  }

  function MostPerWindow(b: Bucket): int
    requires b.Valid()
  {
    2 * b.capacity + (b.window % b.capacity) / b.Interval()
  }

  lemma WindowHolds(b: Bucket, requests: seq<Request>)
    requires b.Valid() && Fits(b, requests)
    ensures AtMostPerWindow(b, Served(b, requests).log, MostPerWindow(b))
  {
    var log := Served(b, requests).log;
    forall i, j | 0 <= i <= j < |log| && log[j].start - log[i].start <= b.window
      ensures Spent(log, i, j + 1) <= MostPerWindow(b)
    {
      ServedWithinBurst(b, requests, i, j);
      WindowParts(b);
      UnitsIn(b.Interval(), b.capacity, b.window % b.capacity, Spent(log, i, j + 1));
    }
  }

  lemma WindowParts(b: Bucket)
    requires b.Valid()
    ensures b.window == b.Burst() + b.window % b.capacity
  {
  }

  lemma UnitsIn(interval: int, capacity: int, rest: int, units: int)
    requires interval > 0 && rest >= 0
    requires interval * units <= (interval * capacity + rest) + interval * capacity
    ensures units <= 2 * capacity + rest / interval
  {
    Distribute(interval, units - 2 * capacity, 2 * capacity);
    Distribute(interval, capacity, capacity);
    QuotientCovers(interval, units - 2 * capacity, rest);
  }

  /** Two full bursts and then single units, all asked for at once on a cold bucket. */
  function Burstiest(b: Bucket, extra: nat): seq<Request>
    requires b.Valid()
  {
    if extra == 0 then [] + [Request(0, b.capacity, None)] + [Request(0, b.capacity, None)]
    else Burstiest(b, extra - 1) + [Request(0, 1, None)]
  }

  /** The limiter after two full bursts and then charges of x in all. */
  predicate Drained(burst: int, l: Limiter, x: int) {
    && |l.log| >= 2 && l.log[0].start == 0
    && l.log[|l.log| - 1].start == burst + x
    && l.tat == Some(2 * burst + x)
  }

  lemma DrainedStart(burst: nat, c: Call)
    requires c.now == 0 && c.charge == burst && c.deadline == None
    ensures Drained(burst, Step(burst, Step(burst, COLD, c), c), 0)
    ensures Step(burst, Step(burst, COLD, c), c).log
         == [] + [Grant(0, c.cost, c.charge)] + [Grant(burst, c.cost, c.charge)]
  {
  }

  lemma DrainedStep(burst: nat, l: Limiter, x: nat, c: Call)
    requires Drained(burst, l, x) && c.now == 0 && c.deadline == None
    ensures Drained(burst, Step(burst, l, c), x + c.charge)
    ensures Step(burst, l, c).log == l.log + [Grant(burst + x + c.charge, c.cost, c.charge)]
  {
  }

  lemma BurstiestStart(b: Bucket)
    requires b.Valid()
    ensures
      var l := Served(b, Burstiest(b, 0));
      Drained(b.Burst(), l, 0) && Spent(l.log, 0, |l.log|) == 2 * b.capacity
  {
    var r := Request(0, b.capacity, None);
    ServedStep(b, [], r);
    ServedStep(b, [] + [r], r);
    assert Served(b, []) == COLD;
    DrainedStart(b.Burst(), Priced(b, r));
    var log := Served(b, Burstiest(b, 0)).log;
    assert Spent(log, 0, 1) == b.capacity;
  }

  lemma {:induction false} BurstiestFits(b: Bucket, extra: nat)
    requires b.Valid()
    ensures Fits(b, Burstiest(b, extra))
  {
    if extra > 0 {
      BurstiestFits(b, extra - 1);
    }
  }

  lemma {:induction false} BurstiestRun(b: Bucket, extra: nat)
    requires b.Valid()
    ensures
      var l := Served(b, Burstiest(b, extra));
      Drained(b.Burst(), l, b.Charge(extra)) && Spent(l.log, 0, |l.log|) == 2 * b.capacity + extra
  {
    if extra == 0 {
      BurstiestStart(b);
    } else {
      BurstiestRun(b, extra - 1);
      ServedStep(b, Burstiest(b, extra - 1), Request(0, 1, None));
      DrainedUnit(b, Served(b, Burstiest(b, extra - 1)), extra - 1);
    }
  }

  lemma DrainedUnit(b: Bucket, l: Limiter, extra: nat)
    requires b.Valid() && Drained(b.Burst(), l, b.Charge(extra))
    ensures
      var l' := Step(b.Burst(), l, Priced(b, Request(0, 1, None)));
      Drained(b.Burst(), l', b.Charge(extra + 1)) && Spent(l'.log, 0, |l'.log|) == Spent(l.log, 0, |l.log|) + 1
  {
    ChargeMonotone(b, 0, extra);
    ChargeMonotone(b, 0, b.capacity);
    Distribute(b.Interval(), extra, 1);
    DrainedStep(b.Burst(), l, b.Charge(extra), Priced(b, Request(0, 1, None)));
    SpentPrefix(l.log, Grant(b.Burst() + b.Charge(extra + 1), 1, b.Charge(1)), 0, |l.log|);
  }

  /** The limit is reached, so it is exactly what a window can hold. */
  lemma WindowFills(b: Bucket)
    requires b.Valid()
    ensures
      var requests := Burstiest(b, (b.window % b.capacity) / b.Interval());
      Fits(b, requests) && !AtMostPerWindow(b, Served(b, requests).log, MostPerWindow(b) - 1)
  {
    var rest := b.window % b.capacity;
    var extra := rest / b.Interval();
    BurstiestFits(b, extra);
    BurstiestRun(b, extra);
    var log := Served(b, Burstiest(b, extra)).log;
    WindowParts(b);
    QuotientCovers(b.Interval(), extra, rest);
    assert log[|log| - 1].start - log[0].start <= b.window;
  }

  /** A window never holds more than twice the capacity exactly when the remainder of dividing it
      among the operations is shorter than one interval, as it is whenever capacity <= interval. */
  lemma TwiceCapacityExact(b: Bucket)
    requires b.Valid()
    ensures (forall requests :: Fits(b, requests) ==>
              AtMostPerWindow(b, Served(b, requests).log, 2 * b.capacity))
       <==> b.window % b.capacity < b.Interval()
    ensures b.capacity <= b.Interval() ==> b.window % b.capacity < b.Interval()
  {
    var rest := b.window % b.capacity;
    QuotientCovers(b.Interval(), 1, rest);
    if rest < b.Interval() {
      forall requests | Fits(b, requests)
        ensures AtMostPerWindow(b, Served(b, requests).log, 2 * b.capacity)
      {
        WindowHolds(b, requests);
      }
    } else {
      WindowFills(b);
    }
  }

  /** Used is exact: a request goes through without waiting just when it fits in what is left. */
  lemma UsedExact(b: Bucket, tat: Option<int>, now: int, cost: nat)
    requires b.Valid() && 0 < cost <= b.capacity
    ensures Wait(b.Burst(), tat, now, b.Charge(cost)) == 0 <==> cost <= b.capacity - b.Used(tat, now)
  {
    var ahead := Later(tat, now) - now;
    ChargeMonotone(b, 0, b.capacity - cost);
    Distribute(b.Interval(), cost, b.capacity - cost);
    CeilingCovers(b.Interval(), ahead, b.capacity - cost);
    QuotientCovers(b.Interval(), 1, b.Interval() - 1);
  }

  /** A bucket never reads as less than empty or more than full. */
  lemma UsedWithin(b: Bucket, tat: Option<int>, now: int)
    requires b.Valid()
    ensures 0 <= b.Used(tat, now) <= b.capacity
  {
    if tat.Some? && tat.value > now {
      QuotientCovers(b.Interval(), 0, tat.value - now + b.Interval() - 1);
    }
  }

  /** Whether a cost goes through at once, told from u units being in use. */
  ghost predicate Tells(b: Bucket, tat: Option<int>, now: int, u: int, cost: nat)
    requires b.Valid()
  {
    Wait(b.Burst(), tat, now, b.Charge(cost)) == 0 <==> cost <= b.capacity - u
  }

  /** u units are in use: what is left of the capacity goes through at once, and nothing more does. */
  ghost predicate Occupied(b: Bucket, tat: Option<int>, now: int, u: int)
    requires b.Valid()
  {
    && 0 <= u <= b.capacity
    && forall cost: nat :: 0 < cost <= b.capacity ==> Tells(b, tat, now, u, cost)
  }

  /** Used is the one number of units for which that is so. */
  lemma UsedOnly(b: Bucket, tat: Option<int>, now: int, u: int)
    requires b.Valid()
    ensures Occupied(b, tat, now, u) <==> u == b.Used(tat, now)
  {
    var used := b.Used(tat, now);
    UsedWithin(b, tat, now);
    forall cost: nat | 0 < cost <= b.capacity ensures Tells(b, tat, now, used, cost) {
      UsedExact(b, tat, now, cost);
    }
    if 0 <= u <= b.capacity && u != used {
      var more: nat := b.capacity - if u < used then u else used;
      assert Tells(b, tat, now, used, more) && !Tells(b, tat, now, u, more);
    }
  }

  // ---------- the limiter object ----------

  datatype Verdict = Permitted | WrongVenue | BudgetExhausted | Cancelled

  class LocalLimiter {
    const venue: string
    const buckets: map<LimitKind, Bucket>
    var theoreticalArrivalTime: map<LimitKind, int>
    /** Every grant made so far, per kind. */
    ghost var log: map<LimitKind, seq<Grant>>

    ghost predicate Valid()
      reads this
    {
      forall kind <- buckets :: buckets[kind].Valid() && Tracks(buckets[kind].Burst(), State(kind))
    }

    function Arrival(kind: LimitKind): Option<int>
      reads this
    {
      if kind in theoreticalArrivalTime then Some(theoreticalArrivalTime[kind]) else None
    }

    ghost function State(kind: LimitKind): Limiter
      reads this
    {
      Limiter(Arrival(kind), if kind in log then log[kind] else [])
    }

    constructor (venue: string, buckets: map<LimitKind, Bucket>)
      requires forall kind <- buckets :: buckets[kind].Valid()
      ensures Valid() && this.venue == venue && this.buckets == buckets
      ensures forall kind :: State(kind) == COLD
    {
      this.venue, this.buckets := venue, buckets;
      theoreticalArrivalTime, log := map[], map[];
    }

    /** The arithmetic of a reservation on the timestamp alone. */
    static method Advance(tat: Option<int>, charge: int, burst: int, deadline: Option<int>, now: int)
      returns (wait: int, next: int, ok: bool)
      ensures ok <==> !Gcra.Refuses(burst, tat, now, charge, deadline)
      ensures wait == Gcra.Wait(burst, tat, now, charge) && next == Later(tat, now) + charge
    {
      var arrival := now;
      if tat.Some? && tat.value >= now {
        arrival := tat.value;
      }
      next := arrival + charge;
      wait := next - burst - now;
      if wait < 0 {
        wait := 0;
      }
      ok := !(wait > 0 && deadline.Some? && now + wait > deadline.value);
    }

    /** Takes the next slot, or refuses and changes nothing when waiting for it would pass the deadline. */
    method Reserve(kind: LimitKind, cost: nat, deadline: Option<int>, now: int) returns (wait: int, ok: bool)
      requires Valid() && kind in buckets && 0 < cost <= buckets[kind].capacity
      modifies this
      ensures Valid()
      ensures State(kind) ==
        Step(buckets[kind].Burst(), old(State(kind)), Priced(buckets[kind], Request(now, cost, deadline)))
      ensures forall other :: other != kind ==> State(other) == old(State(other))
      ensures ok <==> !Refuses(buckets[kind].Burst(), old(Arrival(kind)), now, buckets[kind].Charge(cost), deadline)
      ensures ok ==> wait == Wait(buckets[kind].Burst(), old(Arrival(kind)), now, buckets[kind].Charge(cost))
    {
      var bucket := buckets[kind];
      ghost var before, call := State(kind), Priced(bucket, Request(now, cost, deadline));
      var next;
      wait, next, ok := Advance(Arrival(kind), bucket.Charge(cost), bucket.Burst(), deadline, now);
      if !ok {
        return 0, false;
      }
      log := log[kind := before.log + [Grant(now + wait, cost, bucket.Charge(cost))]];
      theoreticalArrivalTime := theoreticalArrivalTime[kind := next];
      assert State(kind) == Step(bucket.Burst(), before, call);
      assert Tracks(bucket.Burst(), State(kind)) by {
        ChargeMonotone(bucket, cost, bucket.capacity);
        StepTracks(bucket.Burst(), before, call);
      }
    }

    /** What is spent and what there is to spend, for one kind. */
    method InUse(venue: string, kind: LimitKind, now: int) returns (used: int, capacity: int)
      requires Valid()
      ensures if kind in buckets && venue == this.venue
              then used == buckets[kind].Used(Arrival(kind), now) && capacity == buckets[kind].capacity
              else used == 0 && capacity == 0
      ensures 0 <= used <= capacity
    {
      if kind !in buckets || venue != this.venue {
        return 0, 0;
      }
      var bucket := buckets[kind];
      UsedWithin(bucket, Arrival(kind), now);
      capacity := bucket.capacity;
      if kind !in theoreticalArrivalTime {
        return 0, capacity;
      }
      var duration := theoreticalArrivalTime[kind] - now;
      if duration <= 0 {
        return 0, capacity;
      }
      used := (duration + bucket.Interval() - 1) / bucket.Interval();
      if used > capacity {
        used := capacity;
      }
    }

    /** Waits for budget or refuses. awake says whether the wait ran to its end; a slot once taken
        stays spent even when it did not. */
    method Allow(venue: string, kind: LimitKind, cost: int, deadline: Option<int>, now: int, awake: bool)
      returns (verdict: Verdict)
      requires Valid()
      modifies this
      ensures Valid()
      ensures forall other :: other != kind ==> State(other) == old(State(other))
      ensures
        if venue != this.venue || cost <= 0 || kind !in buckets then
          State(kind) == old(State(kind)) && verdict == if venue != this.venue then WrongVenue else Permitted
        else if cost > buckets[kind].capacity then
          State(kind) == old(State(kind)) && verdict == BudgetExhausted
        else
          var burst, charge := buckets[kind].Burst(), buckets[kind].Charge(cost);
          && State(kind) == Step(burst, old(State(kind)), Priced(buckets[kind], Request(now, cost, deadline)))
          && verdict == if Refuses(burst, old(Arrival(kind)), now, charge, deadline) then BudgetExhausted
                        else if Wait(burst, old(Arrival(kind)), now, charge) > 0 && !awake then Cancelled
                        else Permitted
    {
      if venue != this.venue {
        return WrongVenue;
      }
      if cost <= 0 || kind !in buckets {
        return Permitted;
      }
      if cost > buckets[kind].capacity {
        return BudgetExhausted;
      }
      var wait, ok := Reserve(kind, cost, deadline, now);
      if !ok {
        return BudgetExhausted;
      }
      if wait <= 0 {
        return Permitted;
      }
      if !awake {
        return Cancelled;
      }
      verdict := Permitted;
    }
  }
}
