/** What each venue calls an instrument, and how far that can be undone: the name drops the separator,
    so reading it back is a guess at where the quote asset starts. */
module Symbols {
  import opened Wrappers
  import opened Text
  import opened Core

  /** A venue's rule: quote assets in the order they are tried, what is appended, and whether an
      underscore marks a dated contract. */
  datatype Rules = Rules(quotes: seq<string>, suffix: string, underscoreDated: bool) {
    ghost predicate Valid() {
      (forall q <- quotes :: UpperWord(q)) && (suffix != "" ==> UpperWord(suffix))
    }
  }

  const BINANCE := Rules(["USDT", "USDC", "BUSD", "TUSD", "FDUSD", "USD", "BNB", "BTC", "ETH"], "", true)
  const KUCOIN := Rules(["USDT", "USDC", "USD"], "M", false)

  /** Venue symbols stated exactly, by canonical symbol. */
  type Overrides = map<string, string>

  function RuleSymbol(r: Rules, instrument: InstrumentRef): string {
    Upper(Remove(instrument.Canonical(), '_')) + r.suffix
  }

  function VenueSymbol(r: Rules, overrides: Overrides, instrument: InstrumentRef): Option<string> {
    if instrument.marketType != PERP_LINEAR || instrument.expiry != "" then None
    else if instrument.Canonical() in overrides then Some(Upper(overrides[instrument.Canonical()]))
    else Some(RuleSymbol(r, instrument))
  }

  /** The first quote from the n-th on that ends s and leaves something before it. */
  function FirstQuote(quotes: seq<string>, s: string, n: nat): (q: Option<string>)
    requires n <= |quotes|
    ensures q.Some? ==> q.value in quotes && EndsWith(s, q.value) && |q.value| < |s|
    decreases |quotes| - n
  {
    if n == |quotes| then None
    else if EndsWith(s, quotes[n]) && |quotes[n]| < |s| then Some(quotes[n])
    else FirstQuote(quotes, s, n + 1)
  }

  function ParseRule(r: Rules, symbol: string): Option<InstrumentRef> {
    if !EndsWith(symbol, r.suffix) || |symbol| == |r.suffix| then None
    else
      var body := Chop(symbol, |r.suffix|);
      match FirstQuote(r.quotes, body, 0)
      case None => None
      case Some(q) => ParseCanonical(Chop(body, |q|) + "_" + q, PERP_LINEAR)
  }

  /** reverse leads from a venue symbol to the canonical one. */
  function ParseVenueSymbol(r: Rules, reverse: map<string, string>, s: string, marketType: MarketType):
    Option<InstrumentRef>
  {
    var symbol := Upper(Trim(s));
    if marketType != PERP_LINEAR || symbol == "" then None
    else if r.underscoreDated && '_' in symbol then None
    else if symbol in reverse then ParseCanonical(reverse[symbol], marketType)
    else ParseRule(r, symbol)
  }

  lemma VenuesValid()
    ensures BINANCE.Valid() && KUCOIN.Valid()
  {
    forall i | 0 <= i < |BINANCE.quotes| ensures UpperWord(BINANCE.quotes[i]) {
    }
    forall i | 0 <= i < |KUCOIN.quotes| ensures UpperWord(KUCOIN.quotes[i]) {
    }
  }

  // ---------- canonical symbols ----------

  /** A linear perpetual as a canonical symbol gives it. */
  predicate Linear(instrument: InstrumentRef) {
    && UpperWord(instrument.base) && UpperWord(instrument.quote) && instrument.settle == instrument.quote
    && instrument.marketType == PERP_LINEAR && instrument.expiry == ""
  }

  function LinearOf(base: string, quote: string): InstrumentRef {
    InstrumentRef(base, quote, quote, PERP_LINEAR, "")
  }

  lemma CanonicalCut(base: string, quote: string)
    requires '_' !in base
    ensures IndexOf(base + "_" + quote, '_') == |base|
    ensures (base + "_" + quote)[..|base|] == base && (base + "_" + quote)[|base| + 1..] == quote
  {
    assert (base + "_" + quote)[..|base|] == base;
    IndexUnique(base + "_" + quote, '_', |base|);
  }

  /** Whatever two parts are joined, they parse just when both are words, and then to those parts. */
  lemma ParseJoined(base: string, quote: string)
    requires '_' !in quote
    ensures ParseCanonical(base + "_" + quote, PERP_LINEAR)
         == if UpperWord(base) && UpperWord(quote) then Some(LinearOf(base, quote)) else None
  {
    var s := base + "_" + quote;
    if '_' in base {
      var k := IndexOf(base, '_');
      IndexUnique(base, '_', k);
      assert s[k] == '_';
      IndexAtMost(s, '_', k);
      assert s[IndexOf(s, '_') + 1..][|base| - IndexOf(s, '_') - 1] == '_';
    } else {
      CanonicalCut(base, quote);
    }
  }

  lemma ParsedLinear(s: string)
    ensures ParseCanonical(s, PERP_LINEAR).Some? ==>
      Linear(ParseCanonical(s, PERP_LINEAR).value) && ParseCanonical(s, PERP_LINEAR).value.Canonical() == s
  {
  }

  lemma CanonicalParses(instrument: InstrumentRef)
    requires Linear(instrument)
    ensures ParseCanonical(instrument.Canonical(), PERP_LINEAR) == Some(instrument)
    ensures CanonicalSymbol(instrument.Canonical()) && Upper(instrument.Canonical()) == instrument.Canonical()
  {
    ParseJoined(instrument.base, instrument.quote);
    UpperFixed(instrument.Canonical());
  }

  lemma RuleSymbolOf(r: Rules, instrument: InstrumentRef)
    requires Linear(instrument)
    ensures RuleSymbol(r, instrument) == instrument.base + instrument.quote + r.suffix
  {
    var base, quote := instrument.base, instrument.quote;
    RemoveConcat(base + "_", quote, '_');
    RemoveConcat(base, "_", '_');
    RemoveNone(base, '_');
    RemoveNone(quote, '_');
    assert Remove("_", '_') == "";
    assert base + "" == base;
    UpperFixed(base + quote);
  }

  /** Base and quote run together, with an M after them on KuCoin. */
  lemma VenueSymbols(instrument: InstrumentRef)
    requires Linear(instrument)
    ensures VenueSymbol(BINANCE, map[], instrument) == Some(instrument.base + instrument.quote)
    ensures VenueSymbol(KUCOIN, map[], instrument) == Some(instrument.base + instrument.quote + "M")
  {
    RuleSymbolOf(BINANCE, instrument);
    RuleSymbolOf(KUCOIN, instrument);
    assert instrument.base + instrument.quote + "" == instrument.base + instrument.quote;
  }

  /** What looks like a dated contract is refused on Binance, and what does not end in M on KuCoin; and only
      linear perpetuals are read or named at all. */
  lemma Refusals(r: Rules, overrides: Overrides, reverse: map<string, string>, s: string, marketType: MarketType,
                 instrument: InstrumentRef)
    ensures '_' in s ==> ParseVenueSymbol(BINANCE, reverse, s, marketType) == None
    ensures !EndsWith(Upper(Trim(s)), "M") && Upper(Trim(s)) !in reverse ==>
      ParseVenueSymbol(KUCOIN, reverse, s, marketType) == None
    ensures MarketTypeName(marketType) != "PERP_LINEAR" ==> ParseVenueSymbol(r, reverse, s, marketType) == None
    ensures VenueSymbol(r, overrides, instrument).Some? <==>
      MarketTypeName(instrument.marketType) == "PERP_LINEAR" && instrument.expiry == ""
  {
    if '_' in s {
      TrimKeeps(s, '_');
      var i :| 0 <= i < |Trim(s)| && Trim(s)[i] == '_';
      assert Upper(Trim(s))[i] == '_';
    }
  }

  /** Spaces around a venue symbol and the case of its letters do not matter. */
  lemma SpacesAndCase(r: Rules, reverse: map<string, string>, s: string, marketType: MarketType)
    ensures ParseVenueSymbol(r, reverse, Lower(s), marketType) == ParseVenueSymbol(r, reverse, s, marketType)
    ensures forall c <- [' ', '\t', '\n', '\r'] ::
      ParseVenueSymbol(r, reverse, [c] + s, marketType) == ParseVenueSymbol(r, reverse, s, marketType)
      && ParseVenueSymbol(r, reverse, s + [c], marketType) == ParseVenueSymbol(r, reverse, s, marketType)
  {
    TrimLower(s);
    assert Upper(Lower(Trim(s))) == Upper(Trim(s));
    forall c | c in [' ', '\t', '\n', '\r'] ensures Trim([c] + s) == Trim(s) && Trim(s + [c]) == Trim(s) {
      TrimSpace(s, c);
    }
  }

  // ---------- parse, then print ----------

  lemma RuleParsed(r: Rules, symbol: string)
    requires r.Valid() && ParseRule(r, symbol).Some?
    ensures
      var instrument := ParseRule(r, symbol).value;
      Linear(instrument) && RuleSymbol(r, instrument) == symbol
      && instrument.quote in r.quotes
  {
    var body := Chop(symbol, |r.suffix|);
    var q := FirstQuote(r.quotes, body, 0).value;
    ParseJoined(Chop(body, |q|), q);
    RuleSymbolOf(r, LinearOf(Chop(body, |q|), q));
    EndsWithCut(body, q);
    EndsWithCut(symbol, r.suffix);
  }

  /** An instrument read from a venue symbol is called that symbol, trimmed and in upper case. */
  lemma ParseThenPrint(r: Rules, s: string, marketType: MarketType)
    requires r.Valid() && ParseVenueSymbol(r, map[], s, marketType).Some?
    ensures VenueSymbol(r, map[], ParseVenueSymbol(r, map[], s, marketType).value) == Some(Upper(Trim(s)))
  {
    RuleParsed(r, Upper(Trim(s)));
  }

  // ---------- print, then parse ----------

  /** The rule reads base and quote back: the first quote tried that properly ends both is the quote. */
  predicate Splits(r: Rules, instrument: InstrumentRef) {
    FirstQuote(r.quotes, instrument.base + instrument.quote, 0) == Some(instrument.quote)
  }

  lemma RuleRoundTrip(r: Rules, instrument: InstrumentRef)
    requires r.Valid() && Linear(instrument)
    ensures ParseRule(r, RuleSymbol(r, instrument)) == Some(instrument) <==> Splits(r, instrument)
  {
    var base, quote := instrument.base, instrument.quote;
    var body := base + quote;
    RuleSymbolOf(r, instrument);
    EndsWithConcat(body, r.suffix);
    EndsWithConcat(base, quote);
    var q := FirstQuote(r.quotes, body, 0);
    if q.Some? {
      ParseJoined(Chop(body, |q.value|), q.value);
    }
  }

  /** Nothing in such a symbol is trimmed, changed in case, or taken for a dated contract. */
  lemma RuleSymbolClean(r: Rules, instrument: InstrumentRef)
    requires r.Valid() && Linear(instrument)
    ensures
      var t := RuleSymbol(r, instrument);
      Upper(Trim(t)) == t && t != "" && '_' !in t
  {
    RuleSymbolOf(r, instrument);
    TrimFixed(RuleSymbol(r, instrument));
    UpperFixed(RuleSymbol(r, instrument));
  }

  /** Without overrides, printing then parsing gives the instrument back exactly when it is a linear
      perpetual whose quote is the first that could be meant. */
  lemma PrintThenParse(r: Rules, instrument: InstrumentRef)
    requires r.Valid() && VenueSymbol(r, map[], instrument).Some?
    ensures ParseVenueSymbol(r, map[], VenueSymbol(r, map[], instrument).value, PERP_LINEAR) == Some(instrument)
       <==> Linear(instrument) && Splits(r, instrument)
  {
    var t := VenueSymbol(r, map[], instrument).value;
    if Linear(instrument) {
      RuleSymbolClean(r, instrument);
      RuleRoundTrip(r, instrument);
    } else if ParseRule(r, Upper(Trim(t))).Some? {
      RuleParsed(r, Upper(Trim(t)));
    }
  }

  // ---------- the two venues ----------

  lemma {:induction false} FirstQuoteIs(quotes: seq<string>, s: string, n: nat, i: nat)
    requires n <= i < |quotes| && EndsWith(s, quotes[i]) && |quotes[i]| < |s|
    requires forall j :: n <= j < i ==> !(EndsWith(s, quotes[j]) && |quotes[j]| < |s|)
    ensures FirstQuote(quotes, s, n) == Some(quotes[i])
    decreases i - n
  {
    if n < i {
      FirstQuoteIs(quotes, s, n + 1, i);
    }
  }

  lemma {:induction false} FirstQuoteBefore(quotes: seq<string>, s: string, n: nat, i: nat)
    requires n <= i < |quotes| && EndsWith(s, quotes[i]) && |quotes[i]| < |s|
    ensures exists j :: n <= j <= i && FirstQuote(quotes, s, n) == Some(quotes[j])
    decreases i - n
  {
    if n < i && !(EndsWith(s, quotes[n]) && |quotes[n]| < |s|) {
      FirstQuoteBefore(quotes, s, n + 1, i);
    }
  }

  /** Some quote before the i-th properly ends in that one, and base ends in what it has more. */
  predicate Shadowed(quotes: seq<string>, base: string, i: nat)
    requires i < |quotes|
  {
    exists j :: 0 <= j < i && EndsWith(base + quotes[i], quotes[j]) && |quotes[j]| < |base + quotes[i]|
  }

  lemma SplitsExact(r: Rules, base: string, i: nat)
    requires i < |r.quotes| && base != "" && forall j, k :: 0 <= j < k < |r.quotes| ==> r.quotes[j] != r.quotes[k]
    ensures Splits(r, LinearOf(base, r.quotes[i])) <==> !Shadowed(r.quotes, base, i)
  {
    var s := base + r.quotes[i];
    EndsWithConcat(base, r.quotes[i]);
    if Shadowed(r.quotes, base, i) {
      var j :| 0 <= j < i && EndsWith(s, r.quotes[j]) && |r.quotes[j]| < |s|;
      FirstQuoteBefore(r.quotes, s, 0, j);
    } else {
      FirstQuoteIs(r.quotes, s, 0, i);
    }
  }

  /** On Binance a listed quote is read back unless it is USD after a base that ends in B, T or FD:
      then BUSD, TUSD or FDUSD is taken for the quote. */
  lemma BinanceSplits(base: string, quote: string)
    requires base != ""
    ensures Splits(BINANCE, LinearOf(base, quote))
       <==> quote in {"USDT", "USDC", "BUSD", "TUSD", "FDUSD", "USD", "BNB", "BTC", "ETH"}
            && !(quote == "USD" && ((|base| > 1 && (EndsWith(base, "B") || EndsWith(base, "T")))
                                    || (|base| > 2 && EndsWith(base, "FD"))))
  {
    if quote in BINANCE.quotes {
      var i :| 0 <= i < |BINANCE.quotes| && BINANCE.quotes[i] == quote;
      SplitsExact(BINANCE, base, i);
      BinanceShadowed(base, i);
    }
  }

  lemma BinanceShadowed(base: string, i: nat)
    requires base != "" && i < |BINANCE.quotes|
    ensures Shadowed(BINANCE.quotes, base, i)
       <==> i == 5 && ((|base| > 1 && (EndsWith(base, "B") || EndsWith(base, "T")))
                       || (|base| > 2 && EndsWith(base, "FD")))
  {
    var quotes := BINANCE.quotes;
    if i == 5 {
      UsdShadowed(base);
    } else {
      forall j | 0 <= j < i ensures !EndsWith(base + quotes[i], quotes[j]) {
        EndsDiffer(base, quotes[i], quotes[j], if i == 7 && j == 1 then 2 else if j >= 2 && i <= 4 then 4 else 1);
      }
    }
  }

  lemma UsdShadowed(base: string)
    ensures Shadowed(BINANCE.quotes, base, 5)
       <==> (|base| > 1 && (EndsWith(base, "B") || EndsWith(base, "T"))) || (|base| > 2 && EndsWith(base, "FD"))
  {
    var quotes := BINANCE.quotes;
    EndsDiffer(base, "USD", quotes[0], 1);
    EndsDiffer(base, "USD", quotes[1], 1);
    EndsWithMore(base, "B", "USD");
    EndsWithMore(base, "T", "USD");
    EndsWithMore(base, "FD", "USD");
    assert quotes[2] == "B" + "USD" && quotes[3] == "T" + "USD" && quotes[4] == "FD" + "USD" && quotes[5] == "USD";
    assert Shadowed(quotes, base, 5) <==>
      exists j :: 0 <= j < 5 && EndsWith(base + "USD", quotes[j]) && |quotes[j]| < |base + "USD"|;
  }

  /** On KuCoin every listed quote is read back, and no other. */
  lemma KucoinSplits(base: string, quote: string)
    requires base != ""
    ensures Splits(KUCOIN, LinearOf(base, quote)) <==> quote in {"USDT", "USDC", "USD"}
  {
    if quote in KUCOIN.quotes {
      var i :| 0 <= i < |KUCOIN.quotes| && KUCOIN.quotes[i] == quote;
      SplitsExact(KUCOIN, base, i);
      KucoinUnshadowed(base, i);
    }
  }

  lemma KucoinUnshadowed(base: string, i: nat)
    requires i < |KUCOIN.quotes|
    ensures !Shadowed(KUCOIN.quotes, base, i)
  {
    var quotes := KUCOIN.quotes;
    forall j | 0 <= j < i ensures !EndsWith(base + quotes[i], quotes[j]) {
      EndsDiffer(base, quotes[i], quotes[j], 1);
    }
  }

  // ---------- overrides ----------

  /** How one override value is read: as it stands, unless it looks like a dated contract. */
  predicate Readable(r: Rules, value: string) {
    value != "" && Trim(value) == value && !(r.underscoreDated && '_' in value)
  }

  /** Overrides of canonical symbols by readable values, no two the same. */
  ghost predicate Unambiguous(r: Rules, overrides: Overrides) {
    && (forall c <- overrides :: CanonicalSymbol(c) && Readable(r, overrides[c]))
    && (forall c, d :: c in overrides && d in overrides && Upper(overrides[c]) == Upper(overrides[d]) ==> c == d)
  }

  /** reverse leads each override value back to a symbol it stands for. */
  ghost predicate Reverses(reverse: map<string, string>, overrides: Overrides) {
    && (forall c <- overrides :: Upper(overrides[c]) in reverse)
    && (forall t <- reverse :: exists c :: c in overrides && Upper(overrides[c]) == t && reverse[t] == Upper(c))
  }

  /** Built once, in no particular order: where two values are the same either symbol may win. */
  method BuildReverse(overrides: Overrides) returns (reverse: map<string, string>)
    ensures Reverses(reverse, overrides)
  {
    reverse := map[];
    var rest := overrides.Keys;
    while rest != {}
      invariant rest <= overrides.Keys
      invariant forall c <- overrides :: c !in rest ==> Upper(overrides[c]) in reverse
      invariant forall t <- reverse :: exists c ::
        c in overrides && Upper(overrides[c]) == t && reverse[t] == Upper(c)
      decreases |rest|
    {
      var c :| c in rest;
      reverse := reverse[Upper(overrides[c]) := Upper(c)];
      rest := rest - {c};
    }
  }

  lemma ReverseOf(r: Rules, overrides: Overrides, reverse: map<string, string>, c: string)
    requires Unambiguous(r, overrides) && Reverses(reverse, overrides) && c in overrides
    ensures Upper(overrides[c]) in reverse && reverse[Upper(overrides[c])] == c
  {
    CanonicalUpper(c);
  }

  lemma UpperReadable(r: Rules, value: string)
    requires Readable(r, value)
    ensures Upper(value) != "" && !(r.underscoreDated && '_' in Upper(value))
    ensures Upper(Trim(Upper(value))) == Upper(value)
  {
    TrimmedEnds(value);
    TrimFixed(Upper(value));
    assert Upper(Upper(value)) == Upper(value);
  }

  /** Printing then parsing an overridden instrument gives it back, and any other exactly when the
      rule reads it back and no override value spells the same symbol. */
  lemma OverriddenRoundTrip(r: Rules, overrides: Overrides, reverse: map<string, string>, instrument: InstrumentRef)
    requires r.Valid() && Unambiguous(r, overrides) && Reverses(reverse, overrides) && Linear(instrument)
    ensures
      var t := VenueSymbol(r, overrides, instrument);
      t.Some? && (ParseVenueSymbol(r, reverse, t.value, PERP_LINEAR) == Some(instrument)
        <==> instrument.Canonical() in overrides || (t.value !in reverse && Splits(r, instrument)))
  {
    var c := instrument.Canonical();
    CanonicalParses(instrument);
    if c in overrides {
      ReverseOf(r, overrides, reverse, c);
      UpperReadable(r, overrides[c]);
    } else {
      var t := RuleSymbol(r, instrument);
      RuleSymbolClean(r, instrument);
      RuleRoundTrip(r, instrument);
      if t in reverse {
        var d :| d in overrides && Upper(overrides[d]) == t && reverse[t] == Upper(d);
        CanonicalUpper(d);
        ParsedLinear(d);
      }
    }
  }

  /** And parsing then printing still spells the symbol, unless the symbol was read by the rule and
      its instrument is overridden with another. */
  lemma OverriddenParseThenPrint(r: Rules, overrides: Overrides, reverse: map<string, string>, s: string)
    requires r.Valid() && Unambiguous(r, overrides) && Reverses(reverse, overrides)
    requires ParseVenueSymbol(r, reverse, s, PERP_LINEAR).Some?
    ensures
      var instrument := ParseVenueSymbol(r, reverse, s, PERP_LINEAR).value;
      (VenueSymbol(r, overrides, instrument) == Some(Upper(Trim(s))))
        <==> (instrument.Canonical() !in overrides || Upper(Trim(s)) in reverse)
  {
    var t := Upper(Trim(s));
    var instrument := ParseVenueSymbol(r, reverse, s, PERP_LINEAR).value;
    if t in reverse {
      var c :| c in overrides && Upper(overrides[c]) == t && reverse[t] == Upper(c);
      CanonicalUpper(c);
      ParsedLinear(c);
    } else {
      RuleParsed(r, t);
    }
  }
}
