/** The loops that build the plans: group, sort, cut, and name what each socket subscribes to. */
module Planner {
  import opened Wrappers
  import opened Core
  import opened Symbols
  import opened Order
  import opened Plans
  import Decimal

  // ---------- grouping ----------

  /** bySymbol holds the streams of every symbol there is, as they came. */
  ghost predicate Grouped(a: Adapter, specs: seq<StreamSpec>, bySymbol: map<string, seq<StreamSpec>>)
    requires AllServed(a, specs)
  {
    && (forall k :: k in bySymbol <==> exists sp <- specs :: a.Symbol(sp) == k)
    && (forall k <- bySymbol :: bySymbol[k] == OfSymbol(a, specs, k))
  }

  lemma {:induction false} OfSymbolNone(a: Adapter, specs: seq<StreamSpec>, k: string)
    requires AllServed(a, specs) && forall sp <- specs :: a.Symbol(sp) != k
    ensures OfSymbol(a, specs, k) == []
  {
    if specs != [] {
      OfSymbolNone(a, specs[..|specs| - 1], k);
    }
  }

  lemma GroupedNext(a: Adapter, specs: seq<StreamSpec>, bySymbol: map<string, seq<StreamSpec>>, sp: StreamSpec)
    requires AllServed(a, specs) && Grouped(a, specs, bySymbol) && a.Serves(sp)
    ensures AllServed(a, specs + [sp])
    ensures
      var k := a.Symbol(sp);
      Grouped(a, specs + [sp], bySymbol[k := (if k in bySymbol then bySymbol[k] else []) + [sp]])
  {
    var longer, k := specs + [sp], a.Symbol(sp);
    assert AllServed(a, longer);
    var next := bySymbol[k := (if k in bySymbol then bySymbol[k] else []) + [sp]];
    forall l ensures l in next <==> exists x <- longer :: a.Symbol(x) == l {
      SymbolsNext(a, specs, sp, l);
    }
    forall l <- next ensures next[l] == OfSymbol(a, longer, l) {
      GroupNext(a, specs, sp, l);
      if l !in bySymbol {
        OfSymbolNone(a, specs, l);
      }
    }
  }

  lemma GroupNext(a: Adapter, specs: seq<StreamSpec>, sp: StreamSpec, k: string)
    requires AllServed(a, specs) && a.Serves(sp)
    ensures AllServed(a, specs + [sp])
    ensures OfSymbol(a, specs + [sp], k) == OfSymbol(a, specs, k) + if a.Symbol(sp) == k then [sp] else []
  {
    assert (specs + [sp])[..|specs|] == specs;
  }

  lemma SymbolsNext(a: Adapter, specs: seq<StreamSpec>, sp: StreamSpec, k: string)
    requires AllServed(a, specs) && a.Serves(sp)
    ensures AllServed(a, specs + [sp])
    ensures (exists x <- specs + [sp] :: a.Symbol(x) == k)
       <==> k == a.Symbol(sp) || exists x <- specs :: a.Symbol(x) == k
  {
    assert sp in specs + [sp];
    if exists x <- specs :: a.Symbol(x) == k {
      var x :| x in specs && a.Symbol(x) == k;
      assert x in specs + [sp];
    }
  }

  /** Groups the streams by venue symbol; one the adapter does not serve is an error. */
  method GroupBySymbol(a: Adapter, specs: seq<StreamSpec>) returns (r: Option<map<string, seq<StreamSpec>>>)
    ensures r.Some? <==> AllServed(a, specs)
    ensures r.Some? ==> Grouped(a, specs, r.value)
  {
    var bySymbol: map<string, seq<StreamSpec>> := map[];
    for n := 0 to |specs|
      invariant AllServed(a, specs[..n]) && Grouped(a, specs[..n], bySymbol)
    {
      var sp := specs[n];
      if !a.Serves(sp) {
        return None;
      }
      GroupedNext(a, specs[..n], bySymbol, sp);
      assert specs[..n + 1] == specs[..n] + [sp];
      var k := a.Symbol(sp);
      bySymbol := bySymbol[k := (if k in bySymbol then bySymbol[k] else []) + [sp]];
    }
    assert specs[..|specs|] == specs;
    r := Some(bySymbol);
  }

  // ---------- sorting a group ----------

  function SlotIn(s: seq<StreamSpec>, i: nat, sp: StreamSpec): (t: seq<StreamSpec>)
    requires i <= |s|
    ensures |t| == |s| + 1
    ensures forall m :: 0 <= m < |t| ==> t[m] == if m < i then s[m] else if m == i then sp else s[m - 1]
  {
    s[..i] + [sp] + s[i..]
  }

  lemma SlotCounts(s: seq<StreamSpec>, i: nat, sp: StreamSpec)
    requires i <= |s|
    ensures multiset(SlotIn(s, i, sp)) == multiset(s) + multiset{sp}
  {
    assert s == s[..i] + s[i..];
  }

  lemma SlotSorted(s: seq<StreamSpec>, i: nat, sp: StreamSpec)
    requires ByChannel(s) && i <= |s| && (i > 0 ==> s[i - 1].channel <= sp.channel)
    requires i < |s| ==> sp.channel <= s[i].channel
    ensures ByChannel(SlotIn(s, i, sp))
  {
    assert forall m :: 0 <= m < i ==> s[m].channel <= sp.channel;
    assert forall m :: i <= m < |s| ==> sp.channel <= s[m].channel;
  }

  /** Where sp goes: after everything on its channel or an earlier one. */
  method FindSlot(s: seq<StreamSpec>, sp: StreamSpec) returns (i: nat)
    requires ByChannel(s)
    ensures i <= |s| && (i > 0 ==> s[i - 1].channel <= sp.channel) && (i < |s| ==> sp.channel <= s[i].channel)
  {
    i := |s|;
    while i > 0 && sp.channel < s[i - 1].channel
      invariant i <= |s| && (i < |s| ==> sp.channel <= s[i].channel)
    {
      i := i - 1;
    }
  }

  lemma OneMoreCounted(group: seq<StreamSpec>, n: nat)
    requires n < |group|
    ensures multiset(group[..n + 1]) == multiset(group[..n]) + multiset{group[n]}
  {
    assert group[..n + 1] == group[..n] + [group[n]];
  }

  /** s is the first n of group, sorted. */
  predicate SortedUpTo(group: seq<StreamSpec>, n: nat, s: seq<StreamSpec>)
    requires n <= |group|
  {
    multiset(s) == multiset(group[..n]) && ByChannel(s)
  }

  method SlotNext(ghost group: seq<StreamSpec>, ghost n: nat, s: seq<StreamSpec>, sp: StreamSpec)
    returns (t: seq<StreamSpec>)
    requires n < |group| && sp == group[n] && SortedUpTo(group, n, s)
    ensures SortedUpTo(group, n + 1, t)
  {
    var i := FindSlot(s, sp);
    SlotCounts(s, i, sp);
    SlotSorted(s, i, sp);
    OneMoreCounted(group, n);
    t := SlotIn(s, i, sp);
  }

  method SortByChannel(group: seq<StreamSpec>) returns (s: seq<StreamSpec>)
    ensures multiset(s) == multiset(group) && ByChannel(s)
  {
    s := [];
    for n := 0 to |group|
      invariant SortedUpTo(group, n, s)
    {
      s := SlotNext(group, n, s, group[n]);
    }
    assert group[..|group|] == group;
  }

  // ---------- one plan ----------

  lemma {:induction false} ConcatShift(groups: seq<seq<StreamSpec>>, more: seq<seq<StreamSpec>>, k: nat)
    requires k <= |more|
    ensures Concat(groups + more, |groups|, |groups| + k) == Concat(more, 0, k)
  {
    if k > 0 {
      ConcatShift(groups, more, k - 1);
    }
  }

  /** more are the groups of the symbols from lo on. */
  predicate Filled(a: Adapter, specs: seq<StreamSpec>, symbols: seq<string>, lo: nat, more: seq<seq<StreamSpec>>)
    requires AllServed(a, specs)
  {
    lo + |more| <= |symbols| && forall j :: 0 <= j < |more| ==> Group(a, specs, symbols[lo + j], more[j])
  }

  lemma FilledNext(a: Adapter, specs: seq<StreamSpec>, symbols: seq<string>, lo: nat, more: seq<seq<StreamSpec>>,
                   group: seq<StreamSpec>)
    requires AllServed(a, specs) && Filled(a, specs, symbols, lo, more) && lo + |more| < |symbols|
    requires Group(a, specs, symbols[lo + |more|], group)
    ensures Filled(a, specs, symbols, lo, more + [group])
  {
    forall j | 0 <= j < |more + [group]| ensures Group(a, specs, symbols[lo + j], (more + [group])[j]) {
      if j < |more| {
        assert (more + [group])[j] == more[j];
      } else {
        assert (more + [group])[j] == group && lo + j == lo + |more|;
      }
    }
  }

  lemma ConcatNext(more: seq<seq<StreamSpec>>, group: seq<StreamSpec>)
    ensures Concat(more + [group], 0, |more| + 1) == Concat(more, 0, |more|) + group
  {
    ConcatPrefix(more, [group], 0, |more|);
  }

  /** What has been put on a plan so far, and the groups it came from. */
  ghost predicate Holds(a: Adapter, specs: seq<StreamSpec>, symbols: seq<string>, lo: nat,
                        more: seq<seq<StreamSpec>>, specifications: seq<StreamSpec>)
    requires AllServed(a, specs)
  {
    specifications == Concat(more, 0, |more|) && Filled(a, specs, symbols, lo, more)
  }

  lemma HoldsNext(a: Adapter, specs: seq<StreamSpec>, symbols: seq<string>, lo: nat, more: seq<seq<StreamSpec>>,
                  specifications: seq<StreamSpec>, group: seq<StreamSpec>)
    requires AllServed(a, specs) && Holds(a, specs, symbols, lo, more, specifications) && lo + |more| < |symbols|
    requires Group(a, specs, symbols[lo + |more|], group)
    ensures Holds(a, specs, symbols, lo, more + [group], specifications + group)
  {
    FilledNext(a, specs, symbols, lo, more, group);
    ConcatNext(more, group);
  }

  method SortedGroup(a: Adapter, ghost specs: seq<StreamSpec>, bySymbol: map<string, seq<StreamSpec>>, symbol: string)
    returns (group: seq<StreamSpec>)
    requires AllServed(a, specs) && Grouped(a, specs, bySymbol) && symbol in bySymbol
    ensures Group(a, specs, symbol, group)
  {
    group := SortByChannel(bySymbol[symbol]);
  }

  /** The group that comes next on a plan. */
  method NextGroup(a: Adapter, ghost specs: seq<StreamSpec>, bySymbol: map<string, seq<StreamSpec>>,
                   symbols: seq<string>, lo: nat, j: nat, ghost more: seq<seq<StreamSpec>>,
                   ghost specifications: seq<StreamSpec>)
    returns (group: seq<StreamSpec>)
    requires AllServed(a, specs) && Grouped(a, specs, bySymbol) && forall k <- symbols :: k in bySymbol
    requires j < |symbols| && j == lo + |more| && Holds(a, specs, symbols, lo, more, specifications)
    ensures Holds(a, specs, symbols, lo, more + [group], specifications + group)
  {
    group := SortedGroup(a, specs, bySymbol, symbols[j]);
    HoldsNext(a, specs, symbols, lo, more, specifications, group);
  }

  /** The streams of symbols[lo..hi], group by group, and the groups. */
  method FillPlan(a: Adapter, ghost specs: seq<StreamSpec>, bySymbol: map<string, seq<StreamSpec>>,
                  symbols: seq<string>, lo: nat, hi: nat)
    returns (specifications: seq<StreamSpec>, ghost more: seq<seq<StreamSpec>>)
    requires AllServed(a, specs) && Grouped(a, specs, bySymbol) && lo <= hi <= |symbols|
    requires forall k <- symbols :: k in bySymbol
    ensures |more| == hi - lo && specifications == Concat(more, 0, |more|)
    ensures Filled(a, specs, symbols, lo, more)
  {
    specifications, more := [], [];
    for j := lo to hi
      invariant |more| == j - lo && Holds(a, specs, symbols, lo, more, specifications)
    {
      var group := NextGroup(a, specs, bySymbol, symbols, lo, j, more, specifications);
      specifications := specifications + group;
      more := more + [group];
    }
  }

  lemma ChunkLonger(a: Adapter, groups: seq<seq<StreamSpec>>, more: seq<seq<StreamSpec>>, p: nat, q: nat,
                    plan: SocketPlan)
    requires Chunk(a, groups, p, plan) && p < q && |groups| == Start(a.maxStreamsPerSocket, q)
    ensures Chunk(a, groups + more, p, plan)
  {
    StartAhead(a.maxStreamsPerSocket, p, q);
    var lo := Start(a.maxStreamsPerSocket, p);
    ConcatPrefix(groups, more, lo, lo + a.maxStreamsPerSocket);
  }

  lemma ChunkNew(a: Adapter, groups: seq<seq<StreamSpec>>, more: seq<seq<StreamSpec>>, p: nat)
    requires |groups| == Start(a.maxStreamsPerSocket, p) && 0 < |more| <= a.maxStreamsPerSocket
    ensures Chunk(a, groups + more, p, SocketPlan(a.SocketID(p), Concat(more, 0, |more|)))
  {
    ConcatShift(groups, more, |more|);
  }

  lemma ChunkedNext(a: Adapter, groups: seq<seq<StreamSpec>>, more: seq<seq<StreamSpec>>, plans: seq<SocketPlan>,
                    plan: SocketPlan)
    requires Chunked(a, groups, plans) && |groups| == Start(a.maxStreamsPerSocket, |plans|)
    requires |more| <= a.maxStreamsPerSocket && Chunk(a, groups + more, |plans|, plan)
    ensures Chunked(a, groups + more, plans + [plan])
  {
    forall p | 0 <= p < |plans + [plan]| ensures Chunk(a, groups + more, p, (plans + [plan])[p]) {
      if p < |plans| {
        assert Chunk(a, groups, p, plans[p]);
        ChunkLonger(a, groups, more, p, |plans|, plans[p]);
      }
    }
    assert Start(a.maxStreamsPerSocket, |plans + [plan]|)
        == Start(a.maxStreamsPerSocket, |plans|) + a.maxStreamsPerSocket;
  }

  lemma ChunkedStep(a: Adapter, groups: seq<seq<StreamSpec>>, more: seq<seq<StreamSpec>>, plans: seq<SocketPlan>)
    requires Chunked(a, groups, plans) && |groups| == Start(a.maxStreamsPerSocket, |plans|)
    requires 0 < |more| <= a.maxStreamsPerSocket
    ensures Chunked(a, groups + more, plans + [SocketPlan(a.SocketID(|plans|), Concat(more, 0, |more|))])
  {
    ChunkNew(a, groups, more, |plans|);
    ChunkedNext(a, groups, more, plans, SocketPlan(a.SocketID(|plans|), Concat(more, 0, |more|)));
  }

  lemma GroupsNext(a: Adapter, specs: seq<StreamSpec>, symbols: seq<string>, groups: seq<seq<StreamSpec>>,
                   more: seq<seq<StreamSpec>>)
    requires AllServed(a, specs) && Groups(a, specs, symbols, groups) && Filled(a, specs, symbols, |groups|, more)
    ensures Groups(a, specs, symbols, groups + more)
  {
    forall j | 0 <= j < |groups + more| ensures Group(a, specs, symbols[j], (groups + more)[j]) {
      if j >= |groups| {
        assert Group(a, specs, symbols[|groups| + (j - |groups|)], more[j - |groups|]);
      }
    }
  }

  // ---------- all of them ----------

  /** The plans so far, and the groups they are laid out from. */
  predicate Planned(a: Adapter, specs: seq<StreamSpec>, symbols: seq<string>, groups: seq<seq<StreamSpec>>,
                    plans: seq<SocketPlan>)
    requires AllServed(a, specs)
  {
    && |groups| == Least(Start(a.maxStreamsPerSocket, |plans|), |symbols|)
    && Groups(a, specs, symbols, groups) && Chunked(a, groups, plans)
  }

  lemma PlannedNext(a: Adapter, specs: seq<StreamSpec>, symbols: seq<string>, groups: seq<seq<StreamSpec>>,
                    plans: seq<SocketPlan>, more: seq<seq<StreamSpec>>)
    requires AllServed(a, specs) && Planned(a, specs, symbols, groups, plans)
    requires |groups| == Start(a.maxStreamsPerSocket, |plans|) < |symbols|
    requires Filled(a, specs, symbols, |groups|, more)
    requires 0 < |more| == Least(a.maxStreamsPerSocket, |symbols| - |groups|)
    ensures Planned(a, specs, symbols, groups + more,
                    plans + [SocketPlan(a.SocketID(|plans|), Concat(more, 0, |more|))])
  {
    ChunkedStep(a, groups, more, plans);
    GroupsNext(a, specs, symbols, groups, more);
    NextStart(a.maxStreamsPerSocket, |plans|, |groups|, |more|, |symbols|);
  }

  lemma NextStart(size: nat, p: nat, taken: nat, more: nat, n: nat)
    requires taken == Start(size, p) < n && more == Least(size, n - taken)
    ensures taken + more == Least(Start(size, p + 1), n)
  {
  }

  method NextPlan(a: Adapter, ghost specs: seq<StreamSpec>, bySymbol: map<string, seq<StreamSpec>>,
                  symbols: seq<string>, ghost groups: seq<seq<StreamSpec>>, plans: seq<SocketPlan>, i: nat)
    returns (plan: SocketPlan, ghost more: seq<seq<StreamSpec>>)
    requires a.maxStreamsPerSocket > 0 && AllServed(a, specs) && Grouped(a, specs, bySymbol)
    requires forall k <- symbols :: k in bySymbol
    requires Planned(a, specs, symbols, groups, plans) && i == Start(a.maxStreamsPerSocket, |plans|) < |symbols|
    ensures Planned(a, specs, symbols, groups + more, plans + [plan])
  {
    var hi := if i + a.maxStreamsPerSocket < |symbols| then i + a.maxStreamsPerSocket else |symbols|;
    var specifications;
    specifications, more := FillPlan(a, specs, bySymbol, symbols, i, hi);
    PlannedNext(a, specs, symbols, groups, plans, more);
    plan := SocketPlan(a.SocketID(|plans|), specifications);
  }

  /** Plans the sockets for the streams asked for. The groups and their symbols are what the plans
      are shown to be laid out from. */
  method PlanSubscriptions(a: Adapter, specs: seq<StreamSpec>)
    returns (r: Option<seq<SocketPlan>>, ghost symbols: seq<string>, ghost groups: seq<seq<StreamSpec>>)
    requires a.maxStreamsPerSocket > 0
    ensures r.Some? <==> AllServed(a, specs)
    ensures r.Some? ==> Layout(a, specs, symbols, groups, r.value)
  {
    symbols, groups := [], [];
    var grouped := GroupBySymbol(a, specs);
    if grouped.None? {
      return None, symbols, groups;
    }
    var bySymbol := grouped.value;
    var listed := Sorted(bySymbol.Keys);
    symbols := listed;
    var plans: seq<SocketPlan> := [];
    var i := 0;
    while i < |listed|
      invariant i == Start(a.maxStreamsPerSocket, |plans|) && Planned(a, specs, listed, groups, plans)
      decreases |listed| - i
    {
      var plan, more := NextPlan(a, specs, bySymbol, listed, groups, plans, i);
      plans := plans + [plan];
      groups := groups + more;
      i := i + a.maxStreamsPerSocket;
    }
    r := Some(plans);
  }

  // ---------- subscribing ----------

  /** What one socket subscribes to: each topic once, in plan order. */
  method StreamNames(a: Adapter, specs: seq<StreamSpec>) returns (names: seq<string>)
    requires AllServed(a, specs)
    ensures names == Distinct(Topics(a, specs))
  {
    names := [];
    var seen: set<string> := {};
    for n := 0 to |specs|
      invariant names == Distinct(Topics(a, specs)[..n]) && forall k :: k in seen <==> k in names
    {
      var name := a.Topic(a.Symbol(specs[n]));
      assert Topics(a, specs)[..n + 1][..n] == Topics(a, specs)[..n];
      if name !in seen {
        seen := seen + {name};
        names := names + [name];
      }
    }
    assert Topics(a, specs)[..|specs|] == Topics(a, specs);
  }

  /** No two sockets share an ID. */
  lemma SocketsNamed(a: Adapter, p: nat, q: nat)
    requires a.SocketID(p) == a.SocketID(q)
    ensures p == q
  {
    var prefix := a.Name() + "-";
    assert a.SocketID(p)[|prefix|..] == Decimal.DigitsOf(p) && a.SocketID(q)[|prefix|..] == Decimal.DigitsOf(q);
    assert Decimal.NatOf(Decimal.DigitsOf(p)) == p;
  }
}
