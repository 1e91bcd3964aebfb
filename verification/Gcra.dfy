/** The virtual-scheduling form of GCRA (ITU-T I.371, Annex A) in nanoseconds: one theoretical
    arrival time, proved to be the greedy limiter that a full log of grants would give. A request
    has a cost in units and a charge, the time those units take to come back. */
module Gcra {
  import opened Wrappers

  /** One request that reached the bucket, with the clock reading it saw. */
  datatype Call = Call(now: int, cost: nat, charge: nat, deadline: Option<int>)

  /** A granted request: when its slot opens, what it costs and what it charges. */
  datatype Grant = Grant(start: int, cost: nat, charge: nat)

  /** The timestamp the limiter keeps, and the grants it has made. */
  datatype Limiter = Limiter(tat: Option<int>, log: seq<Grant>)

  const COLD := Limiter(None, [])

  // ---------- the limiter on its one timestamp ----------

  function Later(tat: Option<int>, now: int): (t: int)
    ensures t >= now && (t == now || Some(t) == tat)
  {
    if tat == None || tat.value < now then now else tat.value
  }

  /** How long until the slot opens that a charge takes at now. */
  function Wait(burst: int, tat: Option<int>, now: int, charge: int): (w: int)
    ensures w >= 0
  {
    var wait := Later(tat, now) + charge - burst - now;
    if wait < 0 then 0 else wait
  }

  predicate Refuses(burst: int, tat: Option<int>, now: int, charge: int, deadline: Option<int>) {
    var wait := Wait(burst, tat, now, charge);
    wait > 0 && deadline.Some? && now + wait > deadline.value
  }

  function Step(burst: int, l: Limiter, c: Call): Limiter {
    if Refuses(burst, l.tat, c.now, c.charge, c.deadline) then l
    else Limiter(Some(Later(l.tat, c.now) + c.charge),
                 l.log + [Grant(c.now + Wait(burst, l.tat, c.now, c.charge), c.cost, c.charge)])
  }

  function Run(burst: int, calls: seq<Call>): Limiter {
    if calls == [] then COLD else Step(burst, Run(burst, calls[..|calls| - 1]), calls[|calls| - 1])
  }

  // ---------- the limiter on its whole log ----------

  /** What the grants i..j-1 charge in all. */
  function Charged(log: seq<Grant>, i: nat, j: nat): nat
    requires i <= j <= |log|
  {
    if i == j then 0 else Charged(log, i, j - 1) + log[j - 1].charge
  }

  /** The grants i..j overspend the time they span by at most one burst. */
  predicate WithinBurst(burst: int, log: seq<Grant>, i: nat, j: nat)
    requires i <= j < |log|
  {
    Charged(log, i, j + 1) <= log[j].start - log[i].start + burst
  }

  predicate WindowBound(burst: int, log: seq<Grant>) {
    forall i, j :: 0 <= i <= j < |log| ==> WithinBurst(burst, log, i, j)
  }

  predicate StartsInOrder(log: seq<Grant>) {
    forall i, j :: 0 <= i <= j < |log| ==> log[i].start <= log[j].start
  }

  /** The latest time to which any run of grants ending at n has paid for the budget. */
  function HorizonAt(log: seq<Grant>, n: nat): (h: Option<int>)
    requires n <= |log|
    ensures h == None <==> n == 0
  {
    if n == 0 then None
    else Some(Later(HorizonAt(log, n - 1), log[n - 1].start) + log[n - 1].charge)
  }

  function Horizon(log: seq<Grant>): Option<int> {
    HorizonAt(log, |log|)
  }

  /** No run of grants has paid past the horizon. */
  lemma {:induction false} HorizonAbove(log: seq<Grant>, i: nat, n: nat)
    requires i < n <= |log|
    ensures log[i].start + Charged(log, i, n) <= HorizonAt(log, n).value
  {
    if i < n - 1 {
      HorizonAbove(log, i, n - 1);
    }
  }

  /** Some run of grants has paid right up to it. */
  lemma {:induction false} HorizonReached(log: seq<Grant>, n: nat) returns (k: nat)
    requires 0 < n <= |log|
    ensures k < n && log[k].start + Charged(log, k, n) == HorizonAt(log, n).value
  {
    k := n - 1;
    if n > 1 && HorizonAt(log, n - 1).value > log[n - 1].start {
      k := HorizonReached(log, n - 1);
    }
  }

  lemma {:induction false} PrefixSame(log: seq<Grant>, g: Grant, i: nat, j: nat)
    requires i <= j <= |log|
    ensures Charged(log + [g], i, j) == Charged(log, i, j)
    ensures HorizonAt(log + [g], j) == HorizonAt(log, j)
  {
    if i < j {
      PrefixSame(log, g, i, j - 1);
    } else if j > 0 {
      PrefixSame(log, g, j - 1, j - 1);
    }
  }

  /** Appending a grant keeps the bound just when every run up to it has paid within a burst of it. */
  lemma BoundAppend(burst: int, log: seq<Grant>, g: Grant)
    requires WindowBound(burst, log) && g.charge <= burst
    ensures WindowBound(burst, log + [g]) <==>
      (log == [] || Horizon(log).value + g.charge <= g.start + burst)
  {
    var log', n := log + [g], |log|;
    forall i, j | 0 <= i <= j < n ensures WithinBurst(burst, log', i, j) {
      PrefixSame(log, g, i, j + 1);
      assert WithinBurst(burst, log, i, j);
    }
    forall i | 0 <= i < n
      ensures WithinBurst(burst, log', i, n) ==> log[i].start + Charged(log, i, n) + g.charge <= g.start + burst
      ensures Horizon(log).value + g.charge <= g.start + burst ==> WithinBurst(burst, log', i, n)
    {
      PrefixSame(log, g, i, n);
      HorizonAbove(log, i, n);
    }
    assert Charged(log', n, n + 1) == g.charge;
    assert WithinBurst(burst, log', n, n);
    if n > 0 {
      var k := HorizonReached(log, n);
      assert WindowBound(burst, log') ==> WithinBurst(burst, log', k, n);
    }
  }

  /** GCRA is the greedy limiter of its window bound: the slot it gives is the earliest moment at
      which the log may be extended, no sooner and no later. */
  lemma GreedySlot(burst: int, log: seq<Grant>, now: int, cost: nat, charge: nat, t: int)
    requires WindowBound(burst, log) && charge <= burst && t >= now
    ensures WindowBound(burst, log + [Grant(t, cost, charge)])
       <==> t >= now + Wait(burst, Horizon(log), now, charge)
  {
    BoundAppend(burst, log, Grant(t, cost, charge));
  }

  /** A request is refused just when no slot it could wait for keeps the bound. */
  lemma RefusalExact(burst: int, log: seq<Grant>, now: int, cost: nat, charge: nat, deadline: Option<int>)
    requires WindowBound(burst, log) && charge <= burst
    ensures Refuses(burst, Horizon(log), now, charge, deadline) <==>
      deadline.Some? && forall t :: t == now || now <= t <= deadline.value ==>
        !WindowBound(burst, log + [Grant(t, cost, charge)])
  {
    forall t | t >= now
      ensures WindowBound(burst, log + [Grant(t, cost, charge)])
         <==> t >= now + Wait(burst, Horizon(log), now, charge)
    {
      GreedySlot(burst, log, now, cost, charge, t);
    }
    var t := now + Wait(burst, Horizon(log), now, charge);
    assert WindowBound(burst, log + [Grant(t, cost, charge)]);
  }

  // ---------- runs ----------

  /** No charge is more than a whole burst; larger requests never reach the bucket. */
  predicate Fitting(burst: int, calls: seq<Call>) {
    forall i :: 0 <= i < |calls| ==> calls[i].charge <= burst
  }

  predicate ClockMonotone(calls: seq<Call>) {
    forall i, j :: 0 <= i <= j < |calls| ==> calls[i].now <= calls[j].now
  }

  /** The timestamp tells all of the log that the limiter needs. */
  predicate Tracks(burst: int, l: Limiter) {
    l.tat == Horizon(l.log) && WindowBound(burst, l.log)
  }

  lemma StepTracks(burst: int, l: Limiter, c: Call)
    requires Tracks(burst, l) && c.charge <= burst
    ensures Tracks(burst, Step(burst, l, c))
  {
    var t := c.now + Wait(burst, l.tat, c.now, c.charge);
    GreedySlot(burst, l.log, c.now, c.cost, c.charge, t);
    PrefixSame(l.log, Grant(t, c.cost, c.charge), 0, |l.log|);
  }

  /** Whatever is asked, refused or abandoned, in every run and over every stretch of it. */
  lemma {:induction false} RunKeepsBound(burst: int, calls: seq<Call>)
    requires Fitting(burst, calls)
    ensures Tracks(burst, Run(burst, calls))
  {
    if calls != [] {
      RunKeepsBound(burst, calls[..|calls| - 1]);
      StepTracks(burst, Run(burst, calls[..|calls| - 1]), calls[|calls| - 1]);
    }
  }

  /** The last slot given opens by now, or as late as the timestamp allows. */
  predicate LastInReach(burst: int, l: Limiter, now: int) {
    l.log != [] ==>
      var last := l.log[|l.log| - 1].start;
      last <= now || (l.tat.Some? && last <= l.tat.value - burst)
  }

  lemma StepInOrder(burst: int, l: Limiter, c: Call, before: int)
    requires before <= c.now && StartsInOrder(l.log) && LastInReach(burst, l, before)
    ensures StartsInOrder(Step(burst, l, c).log) && LastInReach(burst, Step(burst, l, c), c.now)
  {
    assert l.log != [] ==> l.log[|l.log| - 1].start <= c.now + Wait(burst, l.tat, c.now, c.charge);
  }

  lemma {:induction false} RunInReach(burst: int, calls: seq<Call>)
    requires ClockMonotone(calls) && calls != []
    ensures StartsInOrder(Run(burst, calls).log)
    ensures LastInReach(burst, Run(burst, calls), calls[|calls| - 1].now)
  {
    var init := calls[..|calls| - 1];
    if init != [] {
      RunInReach(burst, init);
    }
    StepInOrder(burst, Run(burst, init), calls[|calls| - 1],
                if init == [] then calls[0].now else calls[|calls| - 2].now);
  }

  /** Slots open in the order they were asked for. */
  lemma RunStartsInOrder(burst: int, calls: seq<Call>)
    requires ClockMonotone(calls)
    ensures StartsInOrder(Run(burst, calls).log)
  {
    if calls != [] {
      RunInReach(burst, calls);
    }
  }

  // ---------- the leaky bucket ----------

  /** The level of a bucket that drains one nanosecond per nanosecond. */
  function Level(tat: Option<int>, now: int): (level: nat) {
    Later(tat, now) - now
  }

  /** A bucket that holds its level and when it was last looked at. */
  datatype Leaky = Leaky(level: nat, at: int) {

    function Drain(now: int): Leaky {
      Leaky(if level - (now - at) > 0 then level - (now - at) else 0, now)
    }

    /** Pours a charge in, unless the overflow would take past the deadline to drain. */
    function Pour(burst: int, c: Call): Leaky {
      var d := Drain(c.now);
      var over := d.level + c.charge - burst;
      if over > 0 && c.deadline.Some? && c.now + over > c.deadline.value then d
      else d.(level := d.level + c.charge)
    }
  }

  function RunLeaky(burst: int, calls: seq<Call>): Leaky
    requires calls != []
  {
    var last := calls[|calls| - 1];
    if |calls| == 1 then Leaky(0, last.now).Pour(burst, last)
    else RunLeaky(burst, calls[..|calls| - 1]).Pour(burst, last)
  }

  /** One timestamp refines the leaky bucket in every run: at any later moment both show the
      same level, and a request waits just for its overflow to drain. */
  lemma {:induction false} RunLeakyRefined(burst: int, calls: seq<Call>, now: int)
    requires calls != [] && ClockMonotone(calls) && now >= calls[|calls| - 1].now
    ensures RunLeaky(burst, calls).at == calls[|calls| - 1].now
    ensures Level(Run(burst, calls).tat, now) == RunLeaky(burst, calls).Drain(now).level
    ensures forall charge :: (
      var over := RunLeaky(burst, calls).Drain(now).level + charge - burst;
      Wait(burst, Run(burst, calls).tat, now, charge) == if over < 0 then 0 else over)
  {
    var init, last := calls[..|calls| - 1], calls[|calls| - 1];
    if init != [] {
      RunLeakyRefined(burst, init, last.now);
    } else {
      assert Run(burst, init) == COLD;
    }
  }
}
