/** The canonical identity types: enum names, instruments and streams. */
module Core {
  import opened Wrappers
  import opened Text

  // The protobuf enums are open: any int32 is a value, few of them have a name.
  type MarketType = int
  type Channel = int

  const MARKET_TYPE_UNSPECIFIED: MarketType := 0
  const PERP_LINEAR: MarketType := 3
  const CHANNEL_UNSPECIFIED: Channel := 0
  const CHANNEL_HEALTH: Channel := 7

  /** The market type's enum name without its MARKET_TYPE_ prefix. */
  function MarketTypeLabel(v: MarketType): Option<string> {
    if v == 0 then Some("UNSPECIFIED")
    else if v == 1 then Some("SPOT")
    else if v == 2 then Some("MARGIN")
    else if v == 3 then Some("PERP_LINEAR")
    else if v == 4 then Some("PERP_INVERSE")
    else if v == 5 then Some("FUTURE_LINEAR")
    else if v == 6 then Some("FUTURE_INVERSE")
    else None
  }

  function MarketTypeValue(name: string): Option<MarketType> {
    if name == "UNSPECIFIED" then Some(0)
    else if name == "SPOT" then Some(1)
    else if name == "MARGIN" then Some(2)
    else if name == "PERP_LINEAR" then Some(3)
    else if name == "PERP_INVERSE" then Some(4)
    else if name == "FUTURE_LINEAR" then Some(5)
    else if name == "FUTURE_INVERSE" then Some(6)
    else None
  }

  /** The channel's enum name without its CHANNEL_ prefix; there is no channel 2. */
  function ChannelLabel(v: Channel): Option<string> {
    if v == 0 then Some("UNSPECIFIED")
    else if v == 1 then Some("ORDERBOOK")
    else if v == 3 then Some("MARK_PRICE")
    else if v == 4 then Some("INDEX_PRICE")
    else if v == 5 then Some("FUNDING")
    else if v == 6 then Some("METADATA")
    else if v == 7 then Some("HEALTH")
    else if v == 8 then Some("RATELIMIT")
    else None
  }

  function ChannelValue(name: string): Option<Channel> {
    if name == "UNSPECIFIED" then Some(0)
    else if name == "ORDERBOOK" then Some(1)
    else if name == "MARK_PRICE" then Some(3)
    else if name == "INDEX_PRICE" then Some(4)
    else if name == "FUNDING" then Some(5)
    else if name == "METADATA" then Some(6)
    else if name == "HEALTH" then Some(7)
    else if name == "RATELIMIT" then Some(8)
    else None
  }

  function MarketTypeName(v: MarketType): string {
    var name := MarketTypeLabel(v);
    if name.Some? then name.value else "UNKNOWN"
  }

  function ParseMarketType(s: string): Option<MarketType> {
    var v := MarketTypeValue(Upper(s));
    if v == Some(MARKET_TYPE_UNSPECIFIED) then None else v
  }

  function ChannelName(v: Channel): string {
    var name := ChannelLabel(v);
    if name.Some? then Lower(name.value) else "unknown"
  }

  function ParseChannel(s: string): Option<Channel> {
    var v := ChannelValue(Upper(s));
    if v == Some(CHANNEL_UNSPECIFIED) then None else v
  }

  /** A value that names something: known, and not the unspecified one. */
  predicate KnownMarketType(v: MarketType) {
    1 <= v <= 6
  }

  predicate KnownChannel(v: Channel) {
    1 <= v <= 8 && v != 2
  }

  /** A market type's name leads back to it just when it is known, and never to another. */
  lemma MarketTypeRoundTrip(v: MarketType)
    ensures ParseMarketType(MarketTypeName(v)) == if KnownMarketType(v) then Some(v) else None
  {
    UpperFixed(MarketTypeName(v));
  }

  lemma ChannelRoundTrip(v: Channel)
    ensures ParseChannel(ChannelName(v)) == if KnownChannel(v) then Some(v) else None
  {
    var name := ChannelLabel(v);
    if name.Some? {
      assert Upper(Lower(name.value)) == name.value;
    } else {
      assert Upper("unknown") == "UNKNOWN";
    }
  }

  /** What parses as a market type is its name, in any case of letters, and nothing else does; and so for a
      channel. */
  lemma NamesExact(s: string, v: int)
    ensures ParseMarketType(s) == Some(v) <==> KnownMarketType(v) && Upper(s) == MarketTypeName(v)
    ensures ParseChannel(s) == Some(v) <==> KnownChannel(v) && Upper(s) == Upper(ChannelName(v))
  {
    ChannelUpper(v);
  }

  lemma ChannelUpper(v: Channel)
    ensures KnownChannel(v) ==> ChannelLabel(v) == Some(Upper(ChannelName(v)))
  {
    if KnownChannel(v) {
      assert Upper(Lower(ChannelLabel(v).value)) == ChannelLabel(v).value;
    }
  }

  /** No two channels share the name of one that is known. */
  lemma ChannelNameOnce(v: Channel, w: Channel)
    requires KnownChannel(w)
    ensures ChannelName(v) == ChannelName(w) ==> v == w
  {
    ChannelRoundTrip(v);
    ChannelRoundTrip(w);
  }

  lemma PricesNamed()
    ensures ChannelName(3) == "mark_price" && ChannelName(4) == "index_price" && ChannelName(5) == "funding"
  {
  }

  // ---------- instruments ----------

  datatype InstrumentRef = InstrumentRef(base: string, quote: string, settle: string,
                                         marketType: MarketType, expiry: string) {
    function Canonical(): string {
      base + "_" + quote
    }
  }

  /** One instrument on one channel: exactly one Redis key. */
  datatype StreamSpec = StreamSpec(instrument: InstrumentRef, channel: Channel)

  /** [A-Z0-9]+_[A-Z0-9]+ */
  predicate CanonicalSymbol(s: string) {
    var k := IndexOf(s, '_');
    k < |s| && UpperWord(s[..k]) && UpperWord(s[k + 1..])
  }

  lemma CanonicalUpper(s: string)
    requires CanonicalSymbol(s)
    ensures Upper(s) == s && ':' !in s
  {
    var k := IndexOf(s, '_');
    assert s == s[..k] + "_" + s[k + 1..];
    UpperFixed(s);
  }

  predicate IsInverse(marketType: MarketType) {
    marketType == 4 || marketType == 6
  }

  predicate IsDerivative(marketType: MarketType) {
    3 <= marketType <= 6
  }

  /** Builds an instrument from its canonical symbol: linear settles in the quote, inverse in the
      base, the rest in neither. */
  function ParseCanonical(s: string, marketType: MarketType): Option<InstrumentRef> {
    if !CanonicalSymbol(s) || marketType == MARKET_TYPE_UNSPECIFIED then None
    else
      var k := IndexOf(s, '_');
      var base, quote := s[..k], s[k + 1..];
      var settle := if IsInverse(marketType) then base else if IsDerivative(marketType) then quote else "";
      Some(InstrumentRef(base, quote, settle, marketType, ""))
  }

  /** A linear contract settles in its quote, an inverse one in its base, and what is no contract in neither. */
  lemma SettleExact(s: string, marketType: MarketType)
    requires ParseCanonical(s, marketType).Some?
    ensures
      var r, name := ParseCanonical(s, marketType).value, MarketTypeName(marketType);
      r.settle == if name in {"PERP_INVERSE", "FUTURE_INVERSE"} then r.base
                  else if name in {"PERP_LINEAR", "FUTURE_LINEAR"} then r.quote else ""
  {
  }
}
