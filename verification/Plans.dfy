/** Which streams share a socket: grouped by venue symbol, symbols in order, cut into chunks no larger
    than the venue allows, whatever order the streams came in. */
module Plans {
  import opened Text
  import opened Core
  import opened Symbols
  import opened Order
  import Decimal

  datatype Venue = Binance | Kucoin

  datatype Adapter = Adapter(venue: Venue, overrides: Overrides, maxStreamsPerSocket: nat) {
    function Rules(): Rules {
      if venue == Binance then BINANCE else KUCOIN
    }

    function Name(): string {
      if venue == Binance then "binance" else "kucoin"
    }

    function SocketID(p: nat): string {
      Name() + "-" + Decimal.DigitsOf(p)
    }

    /** What the venue is asked for on behalf of a symbol: one topic carries all its channels. */
    function Topic(symbol: string): string {
      if venue == Binance then Lower(symbol) + "@markPrice@1s" else "/contract/instrument" + ":" + symbol
    }

    /** A stream this adapter can subscribe to. */
    predicate Serves(sp: StreamSpec) {
      sp.instrument.marketType == PERP_LINEAR && sp.channel in {3, 4, 5} && sp.instrument.expiry == ""
    }

    function Symbol(sp: StreamSpec): string
      requires Serves(sp)
    {
      VenueSymbol(Rules(), overrides, sp.instrument).value
    }
  }

  /** What is served is exactly the mark price, the index price and the funding of what the venue has a symbol
      for: linear perpetuals that do not expire. */
  lemma ServesExact(a: Adapter, sp: StreamSpec)
    ensures a.Serves(sp) <==>
      VenueSymbol(a.Rules(), a.overrides, sp.instrument).Some?
      && ChannelName(sp.channel) in {"mark_price", "index_price", "funding"}
    ensures a.Serves(sp) ==> MarketTypeName(sp.instrument.marketType) == "PERP_LINEAR" && sp.instrument.expiry == ""
  {
    ChannelNameOnce(sp.channel, 3);
    ChannelNameOnce(sp.channel, 4);
    ChannelNameOnce(sp.channel, 5);
    PricesNamed();
  }

  /** The names a venue is given, on the venues' own terms. */
  lemma NamesGiven(a: Adapter)
    ensures a.venue == Binance ==> a.Topic("BTCUSDT") == "btcusdt@markPrice@1s" && a.SocketID(0) == "binance-0"
    ensures a.venue == Kucoin ==>
      a.Topic("XBTUSDTM") == "/contract/instrument:XBTUSDTM" && a.SocketID(0) == "kucoin-0"
  {
    assert Lower("BTCUSDT") == "btcusdt";
  }

  datatype SocketPlan = SocketPlan(id: string, specifications: seq<StreamSpec>)

  predicate AllServed(a: Adapter, specs: seq<StreamSpec>) {
    forall sp <- specs :: a.Serves(sp)
  }

  // ---------- grouping ----------

  /** The streams of one symbol, as they came. */
  function OfSymbol(a: Adapter, specs: seq<StreamSpec>, symbol: string): seq<StreamSpec>
    requires AllServed(a, specs)
  {
    if specs == [] then []
    else
      var init, last := specs[..|specs| - 1], specs[|specs| - 1];
      if a.Symbol(last) == symbol then OfSymbol(a, init, symbol) + [last] else OfSymbol(a, init, symbol)
  }

  lemma {:induction false} OfSymbolCount(a: Adapter, specs: seq<StreamSpec>, symbol: string, sp: StreamSpec)
    requires AllServed(a, specs)
    ensures multiset(OfSymbol(a, specs, symbol))[sp]
         == if a.Serves(sp) && a.Symbol(sp) == symbol then multiset(specs)[sp] else 0
  {
    if specs != [] {
      var init, last := specs[..|specs| - 1], specs[|specs| - 1];
      OfSymbolCount(a, init, symbol, sp);
      assert specs == init + [last];
    }
  }

  lemma {:induction false} OfSymbolAll(a: Adapter, specs: seq<StreamSpec>, symbol: string)
    requires AllServed(a, specs) && forall sp <- specs :: a.Symbol(sp) == symbol
    ensures OfSymbol(a, specs, symbol) == specs
  {
    if specs != [] {
      OfSymbolAll(a, specs[..|specs| - 1], symbol);
    }
  }

  predicate ByChannel(group: seq<StreamSpec>) {
    forall i, j :: 0 <= i < j < |group| ==> group[i].channel <= group[j].channel
  }

  /** Streams of one symbol ordered by channel; the order of equal channels is anyone's guess. */
  predicate Group(a: Adapter, specs: seq<StreamSpec>, symbol: string, group: seq<StreamSpec>)
    requires AllServed(a, specs)
  {
    multiset(group) == multiset(OfSymbol(a, specs, symbol)) && ByChannel(group)
  }

  lemma GroupMember(a: Adapter, specs: seq<StreamSpec>, symbol: string, group: seq<StreamSpec>, sp: StreamSpec)
    requires AllServed(a, specs) && Group(a, specs, symbol, group)
    ensures sp in group <==> sp in specs && a.Symbol(sp) == symbol
  {
    OfSymbolCount(a, specs, symbol, sp);
    assert sp in group <==> multiset(group)[sp] > 0;
    assert sp in specs <==> multiset(specs)[sp] > 0;
  }

  // ---------- chunks ----------

  /** Where the p-th chunk starts. */
  function Start(size: nat, p: nat): nat {
    if p == 0 then 0 else Start(size, p - 1) + size
  }

  function End(size: nat, p: nat, n: nat): nat {
    if Start(size, p) + size < n then Start(size, p) + size else n
  }

  lemma {:induction false} StartAhead(size: nat, p: nat, q: nat)
    requires p < q
    ensures Start(size, p) + size <= Start(size, q)
    decreases q
  {
    if p < q - 1 {
      StartAhead(size, p, q - 1);
    }
  }

  /** groups[lo..hi], end to end. */
  function Concat(groups: seq<seq<StreamSpec>>, lo: nat, hi: nat): seq<StreamSpec>
    requires lo <= hi <= |groups|
  {
    if lo == hi then [] else Concat(groups, lo, hi - 1) + groups[hi - 1]
  }

  lemma {:induction false} ConcatMember(groups: seq<seq<StreamSpec>>, lo: nat, hi: nat, sp: StreamSpec)
    requires lo <= hi <= |groups|
    ensures sp in Concat(groups, lo, hi) <==> exists j :: lo <= j < hi && sp in groups[j]
  {
    if lo < hi {
      ConcatMember(groups, lo, hi - 1, sp);
    }
  }

  lemma {:induction false} ConcatJoin(groups: seq<seq<StreamSpec>>, lo: nat, mid: nat, hi: nat)
    requires lo <= mid <= hi <= |groups|
    ensures Concat(groups, lo, mid) + Concat(groups, mid, hi) == Concat(groups, lo, hi)
    decreases hi
  {
    if mid < hi {
      ConcatJoin(groups, lo, mid, hi - 1);
      assert Concat(groups, lo, mid) + (Concat(groups, mid, hi - 1) + groups[hi - 1])
          == (Concat(groups, lo, mid) + Concat(groups, mid, hi - 1)) + groups[hi - 1];
    } else {
      assert Concat(groups, lo, mid) + [] == Concat(groups, lo, mid);
    }
  }

  lemma {:induction false} ConcatPrefix(groups: seq<seq<StreamSpec>>, more: seq<seq<StreamSpec>>, lo: nat, hi: nat)
    requires lo <= hi <= |groups|
    ensures Concat(groups + more, lo, hi) == Concat(groups, lo, hi)
    decreases hi
  {
    if lo < hi {
      ConcatPrefix(groups, more, lo, hi - 1);
    }
  }

  // ---------- the layout ----------

  /** symbols are the venue symbols of the streams, in order. */
  ghost predicate Lists(a: Adapter, specs: seq<StreamSpec>, symbols: seq<string>)
    requires AllServed(a, specs)
  {
    Ascending(symbols) && forall k :: k in symbols <==> exists sp <- specs :: a.Symbol(sp) == k
  }

  predicate Groups(a: Adapter, specs: seq<StreamSpec>, symbols: seq<string>, groups: seq<seq<StreamSpec>>)
    requires AllServed(a, specs)
  {
    |groups| <= |symbols| && forall j :: 0 <= j < |groups| ==> Group(a, specs, symbols[j], groups[j])
  }

  /** The p-th plan carries the p-th chunk of groups. */
  predicate Chunk(a: Adapter, groups: seq<seq<StreamSpec>>, p: nat, plan: SocketPlan) {
    Start(a.maxStreamsPerSocket, p) < |groups|
    && plan == SocketPlan(a.SocketID(p), Concat(groups, Start(a.maxStreamsPerSocket, p),
                                                End(a.maxStreamsPerSocket, p, |groups|)))
  }

  predicate Chunked(a: Adapter, groups: seq<seq<StreamSpec>>, plans: seq<SocketPlan>) {
    && |groups| <= Start(a.maxStreamsPerSocket, |plans|)
    && forall p :: 0 <= p < |plans| ==> Chunk(a, groups, p, plans[p])
  }

  ghost predicate Layout(a: Adapter, specs: seq<StreamSpec>, symbols: seq<string>,
                         groups: seq<seq<StreamSpec>>, plans: seq<SocketPlan>) {
    && AllServed(a, specs) && a.maxStreamsPerSocket > 0
    && Lists(a, specs, symbols) && |groups| == |symbols| && Groups(a, specs, symbols, groups)
    && Chunked(a, groups, plans)
  }

  // ---------- every stream, once ----------

  function Flatten(plans: seq<SocketPlan>): seq<StreamSpec> {
    if plans == [] then [] else Flatten(plans[..|plans| - 1]) + plans[|plans| - 1].specifications
  }

  function Least(m: nat, n: nat): nat {
    if m < n then m else n
  }

  lemma {:induction false} FlattenConcat(a: Adapter, groups: seq<seq<StreamSpec>>, plans: seq<SocketPlan>)
    requires forall p :: 0 <= p < |plans| ==> Chunk(a, groups, p, plans[p])
    ensures Flatten(plans) == Concat(groups, 0, Least(Start(a.maxStreamsPerSocket, |plans|), |groups|))
  {
    if plans != [] {
      var p: nat := |plans| - 1;
      FlattenConcat(a, groups, plans[..p]);
      ChunkJoins(a, groups, p, plans[p]);
    }
  }

  lemma ChunkJoins(a: Adapter, groups: seq<seq<StreamSpec>>, p: nat, plan: SocketPlan)
    requires Chunk(a, groups, p, plan)
    ensures Concat(groups, 0, Least(Start(a.maxStreamsPerSocket, p), |groups|)) + plan.specifications
         == Concat(groups, 0, Least(Start(a.maxStreamsPerSocket, p + 1), |groups|))
  {
    ConcatJoin(groups, 0, Start(a.maxStreamsPerSocket, p), End(a.maxStreamsPerSocket, p, |groups|));
  }

  lemma {:induction false} ConcatCount(a: Adapter, specs: seq<StreamSpec>, symbols: seq<string>,
                                       groups: seq<seq<StreamSpec>>, n: nat, sp: StreamSpec)
    requires AllServed(a, specs) && Groups(a, specs, symbols, groups) && Ascending(symbols) && n <= |groups|
    ensures multiset(Concat(groups, 0, n))[sp]
         == if a.Serves(sp) && a.Symbol(sp) in symbols[..n] then multiset(specs)[sp] else 0
  {
    if n > 0 {
      ConcatCount(a, specs, symbols, groups, n - 1, sp);
      assert Group(a, specs, symbols[n - 1], groups[n - 1]);
      OfSymbolCount(a, specs, symbols[n - 1], sp);
      LastAlone(symbols, n);
    }
  }

  lemma LastAlone(symbols: seq<string>, n: nat)
    requires Ascending(symbols) && 0 < n <= |symbols|
    ensures symbols[n - 1] !in symbols[..n - 1]
    ensures forall k :: k in symbols[..n] <==> k in symbols[..n - 1] || k == symbols[n - 1]
  {
    forall i | 0 <= i < n - 1 ensures symbols[i] != symbols[n - 1] {
      LessTotal(symbols[i], symbols[n - 1]);
    }
    assert symbols[..n] == symbols[..n - 1] + [symbols[n - 1]];
  }

  /** The plans carry every stream asked for, as often as it was asked for, and nothing else. */
  lemma PlansPermute(a: Adapter, specs: seq<StreamSpec>, symbols: seq<string>, groups: seq<seq<StreamSpec>>,
                     plans: seq<SocketPlan>)
    requires Layout(a, specs, symbols, groups, plans)
    ensures multiset(Flatten(plans)) == multiset(specs)
  {
    FlattenConcat(a, groups, plans);
    forall sp ensures multiset(Flatten(plans))[sp] == multiset(specs)[sp] {
      ConcatCount(a, specs, symbols, groups, |groups|, sp);
      assert symbols[..|groups|] == symbols;
      assert sp in specs <==> multiset(specs)[sp] > 0;
    }
  }

  // ---------- one socket for each symbol, in order ----------

  lemma PlanMember(a: Adapter, specs: seq<StreamSpec>, symbols: seq<string>, groups: seq<seq<StreamSpec>>,
                   plans: seq<SocketPlan>, p: nat, sp: StreamSpec) returns (j: nat)
    requires Layout(a, specs, symbols, groups, plans) && p < |plans| && sp in plans[p].specifications
    ensures Start(a.maxStreamsPerSocket, p) <= j < Start(a.maxStreamsPerSocket, p) + a.maxStreamsPerSocket
    ensures j < |symbols| && a.Serves(sp) && a.Symbol(sp) == symbols[j]
  {
    assert Chunk(a, groups, p, plans[p]);
    var lo, hi := Start(a.maxStreamsPerSocket, p), End(a.maxStreamsPerSocket, p, |groups|);
    ConcatMember(groups, lo, hi, sp);
    j :| lo <= j < hi && sp in groups[j];
    assert Group(a, specs, symbols[j], groups[j]);
    GroupMember(a, specs, symbols[j], groups[j], sp);
  }

  /** Symbols ascend from plan to plan, so the streams of one symbol share one socket. */
  lemma PlansAscend(a: Adapter, specs: seq<StreamSpec>, symbols: seq<string>, groups: seq<seq<StreamSpec>>,
                    plans: seq<SocketPlan>, p: nat, q: nat, sp: StreamSpec, sq: StreamSpec)
    requires Layout(a, specs, symbols, groups, plans) && p < q < |plans|
    requires sp in plans[p].specifications && sq in plans[q].specifications
    ensures a.Serves(sp) && a.Serves(sq) && Less(a.Symbol(sp), a.Symbol(sq)) && a.Symbol(sp) != a.Symbol(sq)
  {
    var i := PlanMember(a, specs, symbols, groups, plans, p, sp);
    var j := PlanMember(a, specs, symbols, groups, plans, q, sq);
    StartAhead(a.maxStreamsPerSocket, p, q);
    LessTotal(symbols[i], symbols[j]);
  }

  lemma {:induction false} StartExact(size: nat, p: nat)
    ensures Start(size, p) == p * size
  {
    if p > 0 {
      StartExact(size, p - 1);
      assert p * size == (p - 1) * size + size;
    }
  }

  /** There are as many sockets as the symbols fill, the last one perhaps in part, and no more. */
  lemma SocketsFewest(a: Adapter, specs: seq<StreamSpec>, symbols: seq<string>, groups: seq<seq<StreamSpec>>,
                      plans: seq<SocketPlan>)
    requires Layout(a, specs, symbols, groups, plans)
    ensures |symbols| <= |plans| * a.maxStreamsPerSocket
    ensures plans != [] ==> (|plans| - 1) * a.maxStreamsPerSocket < |symbols|
  {
    StartExact(a.maxStreamsPerSocket, |plans|);
    if plans != [] {
      assert Chunk(a, groups, |plans| - 1, plans[|plans| - 1]);
      StartExact(a.maxStreamsPerSocket, |plans| - 1);
    }
  }

  /** One stream may stand before another on a socket: its symbol comes before, or it is of the same symbol and
      its channel does not come after. */
  predicate Before(a: Adapter, sp: StreamSpec, sq: StreamSpec) {
    && a.Serves(sp) && a.Serves(sq)
    && ((a.Symbol(sp) != a.Symbol(sq) && Less(a.Symbol(sp), a.Symbol(sq)))
        || (a.Symbol(sp) == a.Symbol(sq) && sp.channel <= sq.channel))
  }

  predicate InOrder(a: Adapter, specifications: seq<StreamSpec>) {
    forall i, j :: 0 <= i < j < |specifications| ==> Before(a, specifications[i], specifications[j])
  }

  lemma {:induction false} ConcatInOrder(a: Adapter, specs: seq<StreamSpec>, symbols: seq<string>,
                                         groups: seq<seq<StreamSpec>>, lo: nat, hi: nat)
    requires AllServed(a, specs) && Ascending(symbols) && Groups(a, specs, symbols, groups) && lo <= hi <= |groups|
    ensures InOrder(a, Concat(groups, lo, hi))
  {
    if lo < hi {
      ConcatInOrder(a, specs, symbols, groups, lo, hi - 1);
      var init, last := Concat(groups, lo, hi - 1), groups[hi - 1];
      assert Group(a, specs, symbols[hi - 1], last);
      forall i, j | 0 <= i < j < |init + last| ensures Before(a, (init + last)[i], (init + last)[j]) {
        if j < |init| {
          assert Before(a, init[i], init[j]);
        } else if i < |init| {
          EarlierGroup(a, specs, symbols, groups, lo, hi - 1, init[i], last[j - |init|]);
        } else {
          GroupMember(a, specs, symbols[hi - 1], last, last[i - |init|]);
          GroupMember(a, specs, symbols[hi - 1], last, last[j - |init|]);
        }
      }
    }
  }

  lemma EarlierGroup(a: Adapter, specs: seq<StreamSpec>, symbols: seq<string>, groups: seq<seq<StreamSpec>>,
                     lo: nat, n: nat, sp: StreamSpec, sq: StreamSpec)
    requires AllServed(a, specs) && Ascending(symbols) && Groups(a, specs, symbols, groups) && lo <= n < |groups|
    requires sp in Concat(groups, lo, n) && sq in groups[n]
    ensures Before(a, sp, sq)
  {
    ConcatMember(groups, lo, n, sp);
    var k :| lo <= k < n && sp in groups[k];
    assert Group(a, specs, symbols[k], groups[k]) && Group(a, specs, symbols[n], groups[n]);
    GroupMember(a, specs, symbols[k], groups[k], sp);
    GroupMember(a, specs, symbols[n], groups[n], sq);
    LessTotal(symbols[k], symbols[n]);
  }

  /** On each socket streams stand by symbol, and those of a symbol by channel. */
  lemma PlanInOrder(a: Adapter, specs: seq<StreamSpec>, symbols: seq<string>, groups: seq<seq<StreamSpec>>,
                    plans: seq<SocketPlan>, p: nat)
    requires Layout(a, specs, symbols, groups, plans) && p < |plans|
    ensures InOrder(a, plans[p].specifications)
  {
    assert Chunk(a, groups, p, plans[p]);
    ConcatInOrder(a, specs, symbols, groups, Start(a.maxStreamsPerSocket, p),
                  End(a.maxStreamsPerSocket, p, |groups|));
  }

  // ---------- topics ----------

  /** The first of each, in order. */
  function Distinct(s: seq<string>): seq<string> {
    if s == [] then []
    else
      var d, last := Distinct(s[..|s| - 1]), s[|s| - 1];
      if last in d then d else d + [last]
  }

  function Topics(a: Adapter, specs: seq<StreamSpec>): (topics: seq<string>)
    requires AllServed(a, specs)
    ensures |topics| == |specs|
  {
    seq(|specs|, i requires 0 <= i < |specs| => a.Topic(a.Symbol(specs[i])))
  }

  /** The topics of symbols[lo..hi]. */
  function TopicsOf(a: Adapter, symbols: seq<string>, lo: nat, hi: nat): (topics: seq<string>)
    requires lo <= hi <= |symbols|
    ensures |topics| == hi - lo
  {
    seq(hi - lo, i requires 0 <= i < hi - lo => a.Topic(symbols[lo + i]))
  }

  lemma {:induction false} DistinctSame(s: seq<string>, t: seq<string>, x: string)
    requires t != [] && (forall y <- t :: y == x) && x !in Distinct(s)
    ensures Distinct(s + t) == Distinct(s) + [x]
    decreases |t|
  {
    var init := t[..|t| - 1];
    assert (s + t)[..|s + t| - 1] == s + init;
    assert forall i :: 0 <= i < |t| ==> t[i] in t;
    if init != [] {
      DistinctSame(s, init, x);
    } else {
      assert s + init == s;
    }
  }

  lemma SymbolUpper(a: Adapter, sp: StreamSpec)
    requires a.Serves(sp)
    ensures Upper(a.Symbol(sp)) == a.Symbol(sp)
  {
  }

  /** Different symbols are different topics, although one venue asks for them in lower case. */
  lemma TopicInjective(a: Adapter, k: string, l: string)
    requires Upper(k) == k && Upper(l) == l && a.Topic(k) == a.Topic(l)
    ensures k == l
  {
    if a.venue == Binance {
      EndsWithConcat(Lower(k), "@markPrice@1s");
      EndsWithConcat(Lower(l), "@markPrice@1s");
      LowerInjective(k, l);
    } else {
      var prefix := "/contract/instrument" + ":";
      assert (prefix + k)[|prefix|..] == k && (prefix + l)[|prefix|..] == l;
    }
  }

  lemma LowerInjective(k: string, l: string)
    requires Upper(k) == k && Upper(l) == l && Lower(k) == Lower(l)
    ensures k == l
  {
    assert |k| == |l|;
    forall i | 0 <= i < |k| ensures k[i] == l[i] {
      assert UpperChar(k[i]) == k[i] && UpperChar(l[i]) == l[i] && LowerChar(k[i]) == LowerChar(l[i]);
    }
  }

  lemma TopicsConcat(a: Adapter, s: seq<StreamSpec>, t: seq<StreamSpec>)
    requires AllServed(a, s) && AllServed(a, t)
    ensures AllServed(a, s + t) && Topics(a, s + t) == Topics(a, s) + Topics(a, t)
  {
  }

  /** The listed symbol is in upper case, and its group is not empty and has that symbol's topic alone. */
  lemma GroupTopic(a: Adapter, specs: seq<StreamSpec>, symbols: seq<string>, groups: seq<seq<StreamSpec>>, j: nat)
    requires AllServed(a, specs) && Lists(a, specs, symbols) && Groups(a, specs, symbols, groups) && j < |groups|
    ensures Upper(symbols[j]) == symbols[j] && groups[j] != [] && AllServed(a, groups[j])
    ensures forall y <- Topics(a, groups[j]) :: y == a.Topic(symbols[j])
  {
    var k := symbols[j];
    assert k in symbols;
    var sp :| sp in specs && a.Symbol(sp) == k;
    SymbolUpper(a, sp);
    GroupMember(a, specs, k, groups[j], sp);
    forall other <- groups[j] ensures a.Serves(other) && a.Symbol(other) == k {
      GroupMember(a, specs, k, groups[j], other);
    }
  }

  lemma TopicAlone(a: Adapter, symbols: seq<string>, lo: nat, hi: nat)
    requires lo < hi <= |symbols| && Ascending(symbols) && forall j :: lo <= j < hi ==> Upper(symbols[j]) == symbols[j]
    ensures a.Topic(symbols[hi - 1]) !in TopicsOf(a, symbols, lo, hi - 1)
  {
    forall j | lo <= j < hi - 1 ensures a.Topic(symbols[j]) != a.Topic(symbols[hi - 1]) {
      LessTotal(symbols[j], symbols[hi - 1]);
      if a.Topic(symbols[j]) == a.Topic(symbols[hi - 1]) {
        TopicInjective(a, symbols[j], symbols[hi - 1]);
      }
    }
  }

  lemma {:induction false} ConcatTopics(a: Adapter, specs: seq<StreamSpec>, symbols: seq<string>,
                                        groups: seq<seq<StreamSpec>>, lo: nat, hi: nat)
    requires AllServed(a, specs) && Lists(a, specs, symbols) && Groups(a, specs, symbols, groups)
    requires lo <= hi <= |groups|
    ensures AllServed(a, Concat(groups, lo, hi))
    ensures Distinct(Topics(a, Concat(groups, lo, hi))) == TopicsOf(a, symbols, lo, hi)
    decreases hi
  {
    if lo < hi {
      ConcatTopics(a, specs, symbols, groups, lo, hi - 1);
      forall j | lo <= j < hi ensures Upper(symbols[j]) == symbols[j] {
        GroupTopic(a, specs, symbols, groups, j);
      }
      GroupTopic(a, specs, symbols, groups, hi - 1);
      NextTopic(a, symbols, lo, hi, Concat(groups, lo, hi - 1), groups[hi - 1]);
    }
  }

  /** A group of a new symbol's streams adds that symbol's topic. */
  lemma NextTopic(a: Adapter, symbols: seq<string>, lo: nat, hi: nat, s: seq<StreamSpec>, t: seq<StreamSpec>)
    requires lo < hi <= |symbols| && Ascending(symbols) && forall j :: lo <= j < hi ==> Upper(symbols[j]) == symbols[j]
    requires AllServed(a, s) && Distinct(Topics(a, s)) == TopicsOf(a, symbols, lo, hi - 1)
    requires AllServed(a, t) && t != [] && forall y <- Topics(a, t) :: y == a.Topic(symbols[hi - 1])
    ensures AllServed(a, s + t) && Distinct(Topics(a, s + t)) == TopicsOf(a, symbols, lo, hi)
  {
    TopicAlone(a, symbols, lo, hi);
    TopicsConcat(a, s, t);
    TopicsOfNext(a, symbols, lo, hi);
    AppendDistinct(Topics(a, s), Topics(a, t), a.Topic(symbols[hi - 1]), TopicsOf(a, symbols, lo, hi - 1));
  }

  lemma TopicsOfNext(a: Adapter, symbols: seq<string>, lo: nat, hi: nat)
    requires lo < hi <= |symbols|
    ensures TopicsOf(a, symbols, lo, hi) == TopicsOf(a, symbols, lo, hi - 1) + [a.Topic(symbols[hi - 1])]
  {
  }

  lemma AppendDistinct(s: seq<string>, t: seq<string>, x: string, d: seq<string>)
    requires Distinct(s) == d && x !in d && t != [] && forall y <- t :: y == x
    ensures Distinct(s + t) == d + [x]
  {
    DistinctSame(s, t, x);
  }

  /** What a socket subscribes to, once repeats are dropped, is its chunk of symbols: never more than
      the venue allows. */
  lemma PlanTopics(a: Adapter, specs: seq<StreamSpec>, symbols: seq<string>, groups: seq<seq<StreamSpec>>,
                   plans: seq<SocketPlan>, p: nat)
    requires Layout(a, specs, symbols, groups, plans) && p < |plans|
    ensures AllServed(a, plans[p].specifications)
    ensures
      var topics := Distinct(Topics(a, plans[p].specifications));
      topics == TopicsOf(a, symbols, Start(a.maxStreamsPerSocket, p), End(a.maxStreamsPerSocket, p, |symbols|))
      && 0 < |topics| <= a.maxStreamsPerSocket
  {
    assert Chunk(a, groups, p, plans[p]);
    ConcatTopics(a, specs, symbols, groups, Start(a.maxStreamsPerSocket, p), End(a.maxStreamsPerSocket, p, |groups|));
  }

  // ---------- whatever order the streams came in ----------

  /** No two streams asked for share both symbol and channel. */
  predicate OneEach(a: Adapter, specs: seq<StreamSpec>)
    requires AllServed(a, specs)
  {
    forall x, y :: x in specs && y in specs && a.Symbol(x) == a.Symbol(y) && x.channel == y.channel ==> x == y
  }

  predicate OnePerChannel(g: seq<StreamSpec>) {
    forall x, y :: x in g && y in g && x.channel == y.channel ==> x == y
  }

  lemma SameFirst(g: seq<StreamSpec>, h: seq<StreamSpec>)
    requires multiset(g) == multiset(h) && ByChannel(g) && ByChannel(h) && g != [] && OnePerChannel(g)
    ensures h != [] && g[0] == h[0]
  {
    assert |g| == |multiset(g)| && |h| == |multiset(h)|;
    assert g[0] in multiset(h) && h[0] in multiset(g);
  }

  lemma {:induction false} SortedUnique(g: seq<StreamSpec>, h: seq<StreamSpec>)
    requires multiset(g) == multiset(h) && ByChannel(g) && ByChannel(h) && OnePerChannel(g)
    ensures g == h
    decreases |g|
  {
    if g == [] {
      assert |multiset(h)| == |h|;
    } else {
      SameFirst(g, h);
      SortedTails(g, h);
      SortedUnique(g[1..], h[1..]);
      HeadTail(g, h);
    }
  }

  lemma HeadTail(g: seq<StreamSpec>, h: seq<StreamSpec>)
    requires g != [] && h != [] && g[0] == h[0] && g[1..] == h[1..]
    ensures g == h
  {
    assert g == [g[0]] + g[1..] && h == [h[0]] + h[1..];
  }

  lemma SortedTails(g: seq<StreamSpec>, h: seq<StreamSpec>)
    requires multiset(g) == multiset(h) && ByChannel(g) && ByChannel(h) && OnePerChannel(g)
    requires g != [] && h != [] && g[0] == h[0]
    ensures multiset(g[1..]) == multiset(h[1..]) && ByChannel(g[1..]) && ByChannel(h[1..]) && OnePerChannel(g[1..])
  {
    WithoutFirst(g);
    WithoutFirst(h);
    TailSorted(g);
    TailSorted(h);
  }

  lemma TailSorted(g: seq<StreamSpec>)
    requires ByChannel(g) && g != []
    ensures ByChannel(g[1..]) && (OnePerChannel(g) ==> OnePerChannel(g[1..]))
  {
    assert forall x :: x in g[1..] ==> x in g;
  }

  lemma WithoutFirst(g: seq<StreamSpec>)
    requires g != []
    ensures multiset(g[1..]) == multiset(g) - multiset{g[0]}
  {
    assert g == [g[0]] + g[1..];
  }

  lemma SameMembers(s: seq<StreamSpec>, t: seq<StreamSpec>, sp: StreamSpec)
    requires multiset(s) == multiset(t)
    ensures sp in s <==> sp in t
  {
    assert sp in s <==> sp in multiset(s);
    assert sp in t <==> sp in multiset(t);
  }

  lemma SameGroup(a: Adapter, specs: seq<StreamSpec>, others: seq<StreamSpec>, symbol: string,
                  g: seq<StreamSpec>, h: seq<StreamSpec>)
    requires AllServed(a, specs) && AllServed(a, others) && multiset(specs) == multiset(others) && OneEach(a, specs)
    requires Group(a, specs, symbol, g) && Group(a, others, symbol, h)
    ensures g == h
  {
    forall sp ensures multiset(g)[sp] == multiset(h)[sp] {
      OfSymbolCount(a, specs, symbol, sp);
      OfSymbolCount(a, others, symbol, sp);
    }
    forall x, y | x in g && y in g && x.channel == y.channel ensures x == y {
      GroupMember(a, specs, symbol, g, x);
      GroupMember(a, specs, symbol, g, y);
    }
    SortedUnique(g, h);
  }

  lemma SameSymbols(a: Adapter, specs: seq<StreamSpec>, others: seq<StreamSpec>, symbols: seq<string>,
                    theirs: seq<string>)
    requires AllServed(a, specs) && AllServed(a, others) && multiset(specs) == multiset(others)
    requires Lists(a, specs, symbols) && Lists(a, others, theirs)
    ensures symbols == theirs
  {
    forall sp ensures sp in specs <==> sp in others {
      SameMembers(specs, others, sp);
    }
    AscendingUnique(symbols, theirs);
  }

  lemma ChunkStarts(a: Adapter, groups: seq<seq<StreamSpec>>, plans: seq<SocketPlan>, p: nat)
    requires Chunked(a, groups, plans) && p < |plans|
    ensures Start(a.maxStreamsPerSocket, p) < |groups|
  {
    assert Chunk(a, groups, p, plans[p]);
  }

  lemma SameChunks(a: Adapter, groups: seq<seq<StreamSpec>>, plans: seq<SocketPlan>, others: seq<SocketPlan>)
    requires a.maxStreamsPerSocket > 0 && Chunked(a, groups, plans) && Chunked(a, groups, others)
    ensures plans == others
  {
    if |plans| < |others| {
      ChunkStarts(a, groups, others, |plans|);
    } else if |others| < |plans| {
      ChunkStarts(a, groups, plans, |others|);
    }
    forall p | 0 <= p < |plans| ensures plans[p] == others[p] {
      assert Chunk(a, groups, p, plans[p]) && Chunk(a, groups, p, others[p]);
    }
  }

  /** The same streams in another order give the same plans, as long as no two share both symbol and
      channel. */
  lemma OrderIndependent(a: Adapter, specs: seq<StreamSpec>, symbols: seq<string>, groups: seq<seq<StreamSpec>>,
                         plans: seq<SocketPlan>, specs': seq<StreamSpec>, symbols': seq<string>,
                         groups': seq<seq<StreamSpec>>, plans': seq<SocketPlan>)
    requires Layout(a, specs, symbols, groups, plans) && Layout(a, specs', symbols', groups', plans')
    requires multiset(specs) == multiset(specs') && OneEach(a, specs)
    ensures plans == plans'
  {
    SameSymbols(a, specs, specs', symbols, symbols');
    forall j | 0 <= j < |groups| ensures groups[j] == groups'[j] {
      assert Group(a, specs, symbols[j], groups[j]) && Group(a, specs', symbols'[j], groups'[j]);
      SameGroup(a, specs, specs', symbols[j], groups[j], groups'[j]);
    }
    assert groups == groups';
    SameChunks(a, groups, plans, plans');
  }

  // ---------- streams that share symbol and channel ----------

  function Swapped(g: seq<StreamSpec>, p: nat, q: nat): (h: seq<StreamSpec>)
    requires p < |g| && q < |g|
    ensures |h| == |g|
  {
    g[p := g[q]][q := g[p]]
  }

  lemma SwapCounts(g: seq<StreamSpec>, p: nat, q: nat)
    requires p < |g| && q < |g|
    ensures multiset(Swapped(g, p, q)) == multiset(g)
  {
  }

  lemma SwapSorted(g: seq<StreamSpec>, p: nat, q: nat)
    requires p < |g| && q < |g| && ByChannel(g) && g[p].channel == g[q].channel
    ensures ByChannel(Swapped(g, p, q))
  {
    assert forall i :: 0 <= i < |g| ==> Swapped(g, p, q)[i].channel == g[i].channel;
  }

  /** The same groups, one of them in another order of the same length. */
  predicate SameSizes(groups: seq<seq<StreamSpec>>, others: seq<seq<StreamSpec>>) {
    |groups| == |others| && forall j :: 0 <= j < |groups| ==> |groups[j]| == |others[j]|
  }

  lemma ConcatLast(s: seq<StreamSpec>, t: seq<StreamSpec>, u: seq<StreamSpec>, v: seq<StreamSpec>)
    requires s + t == u + v && |t| == |v|
    ensures s == u && t == v
  {
    assert s == (s + t)[..|s|] && u == (u + v)[..|u|];
    assert t == (s + t)[|s|..] && v == (u + v)[|u|..];
  }

  lemma {:induction false} ConcatCancel(groups: seq<seq<StreamSpec>>, others: seq<seq<StreamSpec>>, n: nat)
    requires SameSizes(groups, others) && n <= |groups| && Concat(groups, 0, n) == Concat(others, 0, n)
    ensures groups[..n] == others[..n]
  {
    if n > 0 {
      ConcatLast(Concat(groups, 0, n - 1), groups[n - 1], Concat(others, 0, n - 1), others[n - 1]);
      ConcatCancel(groups, others, n - 1);
      assert groups[..n] == groups[..n - 1] + [groups[n - 1]] && others[..n] == others[..n - 1] + [others[n - 1]];
    }
  }

  /** Plans cut from two sequences of groups of the same sizes show which they were cut from. */
  lemma PlansShowGroups(a: Adapter, groups: seq<seq<StreamSpec>>, others: seq<seq<StreamSpec>>, plans: seq<SocketPlan>)
    requires SameSizes(groups, others) && Chunked(a, groups, plans) && Chunked(a, others, plans)
    ensures groups == others
  {
    FlattenConcat(a, groups, plans);
    FlattenConcat(a, others, plans);
    ConcatCancel(groups, others, |groups|);
    assert groups[..|groups|] == groups && others[..|others|] == others;
  }

  /** The plans cut from other groups, as many as there are. */
  function Recut(a: Adapter, groups: seq<seq<StreamSpec>>, count: nat): (plans: seq<SocketPlan>)
    requires forall p :: 0 <= p < count ==> Start(a.maxStreamsPerSocket, p) < |groups|
    ensures |plans| == count
  {
    seq(count, p requires 0 <= p < count =>
      SocketPlan(a.SocketID(p),
                 Concat(groups, Start(a.maxStreamsPerSocket, p), End(a.maxStreamsPerSocket, p, |groups|))))
  }

  lemma RecutChunked(a: Adapter, groups: seq<seq<StreamSpec>>, others: seq<seq<StreamSpec>>, plans: seq<SocketPlan>)
    requires Chunked(a, groups, plans) && |others| == |groups|
    ensures forall p :: 0 <= p < |plans| ==> Start(a.maxStreamsPerSocket, p) < |others|
    ensures Chunked(a, others, Recut(a, others, |plans|))
  {
    forall p | 0 <= p < |plans| ensures Start(a.maxStreamsPerSocket, p) < |others| {
      assert Chunk(a, groups, p, plans[p]);
    }
    var recut := Recut(a, others, |plans|);
    forall p | 0 <= p < |recut| ensures Chunk(a, others, p, recut[p]) {
    }
  }

  /** Two streams of one group that sorting does not tell apart, exchanged. */
  lemma TiedGroup(a: Adapter, specs: seq<StreamSpec>, symbol: string, g: seq<StreamSpec>, x: StreamSpec, y: StreamSpec)
      returns (h: seq<StreamSpec>)
    requires AllServed(a, specs) && Group(a, specs, symbol, g)
    requires x in g && y in g && x != y && x.channel == y.channel
    ensures Group(a, specs, symbol, h) && |h| == |g| && h != g
  {
    var p :| 0 <= p < |g| && g[p] == x;
    var q :| 0 <= q < |g| && g[q] == y;
    h := Swapped(g, p, q);
    SwapCounts(g, p, q);
    SwapSorted(g, p, q);
    assert h[p] == y;
  }

  lemma Regrouped(a: Adapter, specs: seq<StreamSpec>, symbols: seq<string>, groups: seq<seq<StreamSpec>>, j: nat,
                  h: seq<StreamSpec>)
    requires AllServed(a, specs) && Groups(a, specs, symbols, groups) && j < |groups|
    requires Group(a, specs, symbols[j], h) && |h| == |groups[j]| && h != groups[j]
    ensures SameSizes(groups, groups[j := h]) && groups[j := h] != groups && Groups(a, specs, symbols, groups[j := h])
  {
    assert groups[j := h][j] == h;
    forall i | 0 <= i < |groups| ensures Group(a, specs, symbols[i], groups[j := h][i]) {
      assert Group(a, specs, symbols[i], groups[i]);
    }
  }

  lemma TiedGroups(a: Adapter, specs: seq<StreamSpec>, symbols: seq<string>, groups: seq<seq<StreamSpec>>)
      returns (others: seq<seq<StreamSpec>>)
    requires AllServed(a, specs) && Lists(a, specs, symbols)
    requires |groups| == |symbols| && Groups(a, specs, symbols, groups)
    requires !OneEach(a, specs)
    ensures SameSizes(groups, others) && Groups(a, specs, symbols, others) && others != groups
  {
    var x, y :| x in specs && y in specs && a.Symbol(x) == a.Symbol(y) && x.channel == y.channel && x != y;
    assert a.Symbol(x) in symbols;
    var j :| 0 <= j < |symbols| && symbols[j] == a.Symbol(x);
    assert Group(a, specs, symbols[j], groups[j]);
    GroupMember(a, specs, symbols[j], groups[j], x);
    GroupMember(a, specs, symbols[j], groups[j], y);
    var h := TiedGroup(a, specs, symbols[j], groups[j], x, y);
    Regrouped(a, specs, symbols, groups, j, h);
    others := groups[j := h];
  }

  /** Where two streams do share both symbol and channel, nothing settles their order: the same streams
      have another layout, with other plans. */
  lemma TiesUnsettled(a: Adapter, specs: seq<StreamSpec>, symbols: seq<string>, groups: seq<seq<StreamSpec>>,
                      plans: seq<SocketPlan>) returns (others: seq<seq<StreamSpec>>, another: seq<SocketPlan>)
    requires Layout(a, specs, symbols, groups, plans) && !OneEach(a, specs)
    ensures Layout(a, specs, symbols, others, another) && another != plans
  {
    others := TiedGroups(a, specs, symbols, groups);
    RecutChunked(a, groups, others, plans);
    another := Recut(a, others, |plans|);
    if another == plans {
      PlansShowGroups(a, groups, others, plans);
    }
  }

  /** So the plans depend on nothing but which streams are asked for exactly when no two share both. */
  lemma SettledExact(a: Adapter, specs: seq<StreamSpec>, symbols: seq<string>, groups: seq<seq<StreamSpec>>,
                     plans: seq<SocketPlan>)
    requires Layout(a, specs, symbols, groups, plans)
    ensures (forall specs', symbols', groups', plans' ::
              Layout(a, specs', symbols', groups', plans') && multiset(specs') == multiset(specs) ==> plans' == plans)
       <==> OneEach(a, specs)
  {
    if OneEach(a, specs) {
      forall specs', symbols', groups', plans'
        | Layout(a, specs', symbols', groups', plans') && multiset(specs') == multiset(specs)
        ensures plans' == plans
      {
        OrderIndependent(a, specs, symbols, groups, plans, specs', symbols', groups', plans');
      }
    } else {
      var others, another := TiesUnsettled(a, specs, symbols, groups, plans);
    }
  }
}
