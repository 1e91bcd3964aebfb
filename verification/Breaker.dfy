/** The circuit breaker in front of connection attempts, under the discipline of the socket loop:
    ask, then dial only on a zero answer, then record the outcome. Times are nanoseconds. */
module Breaker {
  import opened Wrappers

  datatype Options = Options(threshold: int, openDuration: int) {
    predicate Enabled() {
      threshold >= 1 && openDuration > 0
    }
  }

  datatype State = State(failures: nat, openedAt: Option<int>, probing: bool)

  const CLOSED := State(0, None, false)

  /** How long the breaker still refuses. */
  function Remaining(o: Options, s: State, now: int): (wait: int)
    ensures wait >= 0
  {
    if s.openedAt == None || o.openDuration - (now - s.openedAt.value) <= 0 then 0
    else o.openDuration - (now - s.openedAt.value)
  }

  /** The wait answered is the shortest after which the breaker no longer refuses. */
  lemma WaitExact(o: Options, s: State, now: int, wait: nat)
    ensures Remaining(o, s, now + wait) == 0 <==> wait >= Remaining(o, s, now)
  {
  }

  /** Asking hands out the probe once the open period has run out. */
  function AfterRetry(o: Options, s: State, now: int): State {
    if s.openedAt == None || Remaining(o, s, now) > 0 then s
    else s.(openedAt := None, probing := true)
  }

  function AfterFail(o: Options, s: State, now: int): State {
    var f := s.failures + 1;
    if o.Enabled() && (s.probing || f >= o.threshold) then State(f, Some(now), false)
    else s.(failures := f)
  }

  // ---------- the probing flag ----------

  datatype Call = Retry(at: int) | Fail(at: int) | Succeed

  function Apply(o: Options, s: State, c: Call): State {
    match c
    case Retry(at) => AfterRetry(o, s, at)
    case Fail(at) => AfterFail(o, s, at)
    case Succeed => CLOSED
  }

  function Run(o: Options, calls: seq<Call>): State {
    if calls == [] then CLOSED else Apply(o, Run(o, calls[..|calls| - 1]), calls[|calls| - 1])
  }

  /** The breaker that keeps no flag: it opens at the threshold and at every failure past it. */
  datatype Plain = Plain(failures: nat, openedAt: Option<int>)

  function ApplyPlain(o: Options, p: Plain, c: Call): Plain {
    match c
    case Retry(at) =>
      if p.openedAt != None && at - p.openedAt.value >= o.openDuration then p.(openedAt := None) else p
    case Fail(at) =>
      var f := p.failures + 1;
      if o.Enabled() && f >= o.threshold then Plain(f, Some(at)) else p.(failures := f)
    case Succeed => Plain(0, None)
  }

  function RunPlain(o: Options, calls: seq<Call>): Plain {
    if calls == [] then Plain(0, None)
    else ApplyPlain(o, RunPlain(o, calls[..|calls| - 1]), calls[|calls| - 1])
  }

  /** Whatever the calls, an open or probing breaker has failed at least threshold times in a row. */
  predicate Earned(o: Options, s: State) {
    s.openedAt.Some? || s.probing ==> o.Enabled() && s.failures >= o.threshold
  }

  /** The flag changes nothing: in every run both breakers agree, so they answer alike at any moment. */
  lemma {:induction false} FlagRedundant(o: Options, calls: seq<Call>)
    ensures
      var s := Run(o, calls);
      Earned(o, s) && RunPlain(o, calls) == Plain(s.failures, s.openedAt)
  {
    if calls != [] {
      FlagRedundant(o, calls[..|calls| - 1]);
    }
  }

  // ---------- the socket loop ----------

  /** One turn of the loop: turned away while open, or dialled from start to end. */
  datatype Round = Refused(at: int) | Dialed(start: int, end: int, ok: bool) {
    function Begin(): int {
      if Refused? then at else start
    }
    function Finish(): int {
      if Refused? then at else end
    }
  }

  function Turn(o: Options, s: State, r: Round): State {
    match r
    case Refused(at) => AfterRetry(o, s, at)
    case Dialed(start, end, ok) => if ok then CLOSED else AfterFail(o, AfterRetry(o, s, start), end)
  }

  function Play(o: Options, rounds: seq<Round>): State {
    if rounds == [] then CLOSED else Turn(o, Play(o, rounds[..|rounds| - 1]), rounds[|rounds| - 1])
  }

  /** The loop obeys every answer, on a clock that never runs back. */
  predicate Obeys(o: Options, rounds: seq<Round>) {
    rounds == [] ||
    var init, r := rounds[..|rounds| - 1], rounds[|rounds| - 1];
    && Obeys(o, init)
    && (init != [] ==> init[|init| - 1].Finish() <= r.Begin())
    && r.Begin() <= r.Finish()
    && (r.Dialed? <==> Remaining(o, Play(o, init), r.Begin()) == 0)
  }

  /** Failed dials since the last that worked. */
  function Streak(rounds: seq<Round>): nat {
    if rounds == [] then 0
    else
      match rounds[|rounds| - 1]
      case Refused(_) => Streak(rounds[..|rounds| - 1])
      case Dialed(_, _, ok) => if ok then 0 else Streak(rounds[..|rounds| - 1]) + 1
  }

  /** When the k-th failure of the streak ended. */
  function FailedAt(rounds: seq<Round>, k: nat): int
    requires 0 < k <= Streak(rounds)
  {
    var last := rounds[|rounds| - 1];
    if last.Dialed? && k == Streak(rounds) then last.end else FailedAt(rounds[..|rounds| - 1], k)
  }

  /** What the breaker remembers of the rounds. */
  predicate Remembers(o: Options, rounds: seq<Round>) {
    var s := Play(o, rounds);
    && s.failures == Streak(rounds)
    && (s.probing ==> s.failures >= o.threshold)
    && (if o.Enabled() && Streak(rounds) >= o.threshold
        then s.openedAt == Some(FailedAt(rounds, Streak(rounds)))
        else s.openedAt == None)
  }

  lemma {:induction false} PlayRemembers(o: Options, rounds: seq<Round>)
    requires Obeys(o, rounds)
    ensures Remembers(o, rounds)
  {
    if rounds != [] {
      PlayRemembers(o, rounds[..|rounds| - 1]);
    }
  }

  /** Failures of one streak past the threshold are at least an open period apart. */
  lemma {:induction false} FailuresApart(o: Options, rounds: seq<Round>, k: nat)
    requires o.threshold >= 1 && o.openDuration > 0 && Obeys(o, rounds) && o.threshold <= k <= Streak(rounds)
    ensures FailedAt(rounds, k) >= FailedAt(rounds, o.threshold) + (k - o.threshold) * o.openDuration
  {
    var init, last := rounds[..|rounds| - 1], rounds[|rounds| - 1];
    if last.Dialed? && k == Streak(rounds) {
      if k > o.threshold {
        PlayRemembers(o, init);
        FailuresApart(o, init, k - 1);
        assert (k - o.threshold) * o.openDuration == (k - 1 - o.threshold) * o.openDuration + o.openDuration;
      }
    } else {
      FailuresApart(o, init, k);
    }
  }

  /** The dial after j more failures than the threshold starts at least j + 1 open periods after the
      failure that reached it: a venue that keeps refusing is knocked at no faster than that. */
  lemma DialsApart(o: Options, rounds: seq<Round>, start: int, end: int, ok: bool)
    requires o.threshold >= 1 && o.openDuration > 0 && Obeys(o, rounds + [Dialed(start, end, ok)])
    requires Streak(rounds) >= o.threshold
    ensures
      var j := Streak(rounds) - o.threshold;
      start >= FailedAt(rounds, o.threshold) + (j + 1) * o.openDuration
  {
    var all := rounds + [Dialed(start, end, ok)];
    assert all[..|all| - 1] == rounds;
    PlayRemembers(o, rounds);
    FailuresApart(o, rounds, Streak(rounds));
    var j := Streak(rounds) - o.threshold;
    assert (j + 1) * o.openDuration == j * o.openDuration + o.openDuration;
  }

  /** Below the threshold, and whenever it is disabled, the breaker never holds a dial back. */
  lemma NeverEarly(o: Options, rounds: seq<Round>, now: int)
    requires Obeys(o, rounds)
    requires o.threshold < 1 || o.openDuration <= 0 || Streak(rounds) < o.threshold
    ensures Remaining(o, Play(o, rounds), now) == 0
  {
    PlayRemembers(o, rounds);
  }

  // ---------- the breaker object ----------

  class Breaker {
    const threshold: int
    const openDuration: int
    var failures: nat
    var openedAt: Option<int>
    var probing: bool

    function Settings(): Options {
      Options(threshold, openDuration)
    }

    function Current(): State
      reads this
    {
      State(failures, openedAt, probing)
    }

    constructor (options: Options)
      ensures Settings() == options && Current() == CLOSED
    {
      threshold, openDuration := options.threshold, options.openDuration;
      failures, openedAt, probing := 0, None, false;
    }

    method Retry(now: int) returns (wait: int)
      modifies this
      ensures wait == Remaining(Settings(), old(Current()), now)
      ensures Current() == AfterRetry(Settings(), old(Current()), now)
    {
      if openedAt == None {
        return 0;
      }
      var duration := openDuration - (now - openedAt.value);
      if duration > 0 {
        return duration;
      }
      openedAt := None;
      probing := true;
      wait := 0;
    }

    method Fail(now: int)
      modifies this
      ensures Current() == AfterFail(Settings(), old(Current()), now)
    {
      failures := failures + 1;
      if !(threshold >= 1 && openDuration > 0) {
        return;
      }
      if probing || failures >= threshold {
        probing := false;
        openedAt := Some(now);
      }
    }

    method Succeed()
      modifies this
      ensures Current() == CLOSED
    {
      failures, probing, openedAt := 0, false, None;
    }

    /** Open says just whether Retry would refuse. */
    method Open(now: int) returns (open: bool)
      ensures open <==> Remaining(Settings(), Current(), now) > 0
    {
      open := openedAt.Some? && now - openedAt.value < openDuration;
    }
  }
}
