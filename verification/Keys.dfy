/** The Redis key scheme: building keys, and the parser that accepts exactly the keys built well. */
module Keys {
  import opened Wrappers
  import opened Text
  import opened Core

  const PREFIX := "Manooch"
  const VENUE_SCOPE := "venue"

  function Key(venue: string, marketType: MarketType, symbol: string, channel: Channel): string {
    Join([PREFIX, Upper(venue), MarketTypeName(marketType), Upper(symbol), ChannelName(channel)], ':')
  }

  function VenueKey(venue: string, subject: string): string {
    Join([PREFIX, Upper(venue), VENUE_SCOPE, Lower(subject)], ':')
  }

  datatype KeyParts =
    | DataKey(venue: string, marketType: MarketType, symbol: string, channel: Channel)
    | VenueScoped(venue: string, subject: string)
  {
    /** Rebuilds the key. */
    function Text(): string {
      match this
      case DataKey(venue, marketType, symbol, channel) => Key(venue, marketType, symbol, channel)
      case VenueScoped(venue, subject) => VenueKey(venue, subject)
    }
  }

  function ParseKey(s: string): Option<KeyParts> {
    var parts := Split(s, ':');
    if |parts| < 4 || |parts| > 5 || parts[0] != PREFIX || !UpperWord(parts[1]) then None
    else if parts[2] == VENUE_SCOPE then
      if |parts| != 4 || !SnakeWord(parts[3]) then None
      else Some(VenueScoped(parts[1], parts[3]))
    else if |parts| != 5 then None
    else
      var marketType, channel := ParseMarketType(parts[2]), ParseChannel(parts[4]);
      if marketType == None || MarketTypeName(marketType.value) != parts[2] || !CanonicalSymbol(parts[3]) then None
      else if channel == None || ChannelName(channel.value) != parts[4] then None
      else Some(DataKey(parts[1], marketType.value, parts[3], channel.value))
  }

  lemma Five(a: string, b: string, c: string, d: string, e: string, parts: seq<string>)
    requires |parts| == 5 && parts[0] == a && parts[1] == b && parts[2] == c && parts[3] == d && parts[4] == e
    ensures parts == [a, b, c, d, e]
  {
  }

  /** A key that parses is rebuilt exactly by its parts. */
  lemma ParseThenText(s: string)
    requires ParseKey(s).Some?
    ensures ParseKey(s).value.Text() == s
  {
    var parts := Split(s, ':');
    JoinSplit(s, ':');
    UpperFixed(parts[1]);
    match ParseKey(s).value
    case DataKey(_, _, _, _) =>
      CanonicalUpper(parts[3]);
      Five(parts[0], parts[1], parts[2], parts[3], parts[4], parts);
    case VenueScoped(_, _) =>
      LowerFixed(parts[3]);
      assert parts == [parts[0], parts[1], parts[2], parts[3]];
  }

  lemma MarketTypeNames(marketType: MarketType)
    ensures ':' !in MarketTypeName(marketType) && MarketTypeName(marketType) != VENUE_SCOPE
  {
  }

  lemma ChannelNames(channel: Channel)
    ensures ':' !in ChannelName(channel)
  {
  }

  /** The components from which Key builds a key that parses. */
  predicate ValidData(venue: string, marketType: MarketType, symbol: string, channel: Channel) {
    UpperWord(Upper(venue)) && KnownMarketType(marketType) && CanonicalSymbol(Upper(symbol)) && KnownChannel(channel)
  }

  predicate ValidVenueScoped(venue: string, subject: string) {
    UpperWord(Upper(venue)) && SnakeWord(Lower(subject))
  }

  lemma SplitAfter(a: string, rest: seq<string>)
    requires rest != []
    ensures Split(Join([a] + rest, ':'), ':') == Split(a, ':') + Split(Join(rest, ':'), ':')
  {
    assert ([a] + rest)[1..] == rest;
    SplitConcat(a, Join(rest, ':'), ':');
  }

  lemma SplitKey(a: string, b: string, c: string, rest: seq<string>)
    requires rest != [] && ':' !in a && ':' !in c
    ensures Split(Join([a] + ([b] + ([c] + rest)), ':'), ':')
         == [a] + (Split(b, ':') + ([c] + Split(Join(rest, ':'), ':')))
  {
    SplitAfter(c, rest);
    SplitAfter(b, [c] + rest);
    SplitAfter(a, [b] + ([c] + rest));
    SplitNone(a, ':');
    SplitNone(c, ':');
  }

  lemma SplitDataKey(venue: string, marketType: MarketType, symbol: string, channel: Channel)
    ensures Split(Key(venue, marketType, symbol, channel), ':')
         == [PREFIX] + (Split(Upper(venue), ':')
            + ([MarketTypeName(marketType)] + (Split(Upper(symbol), ':') + [ChannelName(channel)])))
  {
    var v, m, s, c := Upper(venue), MarketTypeName(marketType), Upper(symbol), ChannelName(channel);
    MarketTypeNames(marketType);
    ChannelNames(channel);
    assert [PREFIX, v, m, s, c] == [PREFIX] + ([v] + ([m] + [s, c]));
    SplitKey(PREFIX, v, m, [s, c]);
    assert [s, c] == [s] + [c];
    SplitAfter(s, [c]);
    SplitNone(c, ':');
  }

  lemma SplitVenueKey(venue: string, subject: string)
    ensures Split(VenueKey(venue, subject), ':')
         == [PREFIX] + (Split(Upper(venue), ':') + ([VENUE_SCOPE] + Split(Lower(subject), ':')))
  {
    var v, s := Upper(venue), Lower(subject);
    assert [PREFIX, v, VENUE_SCOPE, s] == [PREFIX] + ([v] + ([VENUE_SCOPE] + [s]));
    SplitKey(PREFIX, v, VENUE_SCOPE, [s]);
  }

  /** A built key parses just when every component is valid, and then to those components: a key
      from an unspecified or unknown enum value never does. */
  lemma KeyThenParse(venue: string, marketType: MarketType, symbol: string, channel: Channel)
    ensures ParseKey(Key(venue, marketType, symbol, channel))
         == if ValidData(venue, marketType, symbol, channel)
            then Some(DataKey(Upper(venue), marketType, Upper(symbol), channel)) else None
  {
    var v, s := Upper(venue), Upper(symbol);
    SplitDataKey(venue, marketType, symbol, channel);
    SplitMany(v, ':');
    SplitMany(s, ':');
    if ':' !in v && ':' !in s {
      SplitNone(v, ':');
      SplitNone(s, ':');
      MarketTypeNames(marketType);
      MarketTypeRoundTrip(marketType);
      ChannelRoundTrip(channel);
    } else if CanonicalSymbol(s) {
      CanonicalUpper(s);
    }
  }

  /** The same for venue-wide keys. */
  lemma VenueKeyThenParse(venue: string, subject: string)
    ensures ParseKey(VenueKey(venue, subject))
         == if ValidVenueScoped(venue, subject) then Some(VenueScoped(Upper(venue), Lower(subject))) else None
  {
    var v, s := Upper(venue), Lower(subject);
    var parts := Split(VenueKey(venue, subject), ':');
    SplitVenueKey(venue, subject);
    SplitMany(v, ':');
    SplitMany(s, ':');
    if ':' !in v {
      SplitNone(v, ':');
      if ':' !in s { SplitNone(s, ':'); }
    } else if |parts| == 5 {
      assert parts[3] == VENUE_SCOPE && !CanonicalSymbol(VENUE_SCOPE);
    }
  }

  /** Valid data keys collide only for the same stream, and never with a venue-wide key. */
  lemma KeysInjective(v: string, m: MarketType, s: string, c: Channel,
                      v': string, m': MarketType, s': string, c': Channel)
    requires ValidData(v, m, s, c)
    ensures Key(v, m, s, c) == Key(v', m', s', c') ==>
      Upper(v) == Upper(v') && m == m' && Upper(s) == Upper(s') && c == c'
    ensures forall w, subject :: Key(v, m, s, c) != VenueKey(w, subject)
  {
    KeyThenParse(v, m, s, c);
    KeyThenParse(v', m', s', c');
    forall w, subject ensures Key(v, m, s, c) != VenueKey(w, subject) {
      VenueKeyThenParse(w, subject);
    }
  }

  // ---------- the keys there are ----------

  const MARKETS := {"SPOT", "MARGIN", "PERP_LINEAR", "PERP_INVERSE", "FUTURE_LINEAR", "FUTURE_INVERSE"}
  const CHANNELS := {"orderbook", "mark_price", "index_price", "funding", "metadata", "health", "ratelimit"}

  /** Capital letters and figures, at least one. */
  predicate Capitals(s: string) {
    s != "" && forall c <- s :: 'A' <= c <= 'Z' || '0' <= c <= '9'
  }

  /** Small letters, figures and underscores, at least one. */
  predicate Smalls(s: string) {
    s != "" && forall c <- s :: 'a' <= c <= 'z' || '0' <= c <= '9' || c == '_'
  }

  lemma CapitalsExact(s: string)
    ensures Capitals(s) <==> UpperWord(s)
    ensures Smalls(s) <==> SnakeWord(s)
    ensures Capitals(s) ==> Upper(s) == s && '_' !in s
    ensures Smalls(s) ==> Lower(s) == s
  {
    assert forall i :: 0 <= i < |s| ==> s[i] in s;
    if Capitals(s) { UpperFixed(s); }
    if Smalls(s) { LowerFixed(s); }
  }

  ghost predicate SpellsData(s: string, v: string, m: string, base: string, quote: string, c: string) {
    && Capitals(v) && m in MARKETS && Capitals(base) && Capitals(quote) && c in CHANNELS
    && s == "Manooch:" + v + ":" + m + ":" + base + "_" + quote + ":" + c
  }

  ghost predicate SpellsVenue(s: string, v: string, subject: string) {
    Capitals(v) && Smalls(subject) && s == "Manooch:" + v + ":venue:" + subject
  }

  lemma JoinFive(p: string, v: string, m: string, s: string, c: string)
    ensures Join([p, v, m, s, c], ':') == p + ":" + v + ":" + m + ":" + s + ":" + c
  {
    JoinThree(m, s, c);
    JoinCons(v, [m, s, c], ':');
    JoinCons(p, [v, m, s, c], ':');
    assert [p] + [v, m, s, c] == [p, v, m, s, c] && [v] + [m, s, c] == [v, m, s, c];
    Reassociate(p + ":" + v + ":", m + ":" + s + ":", c);
  }

  lemma JoinThree(m: string, s: string, c: string)
    ensures Join([m, s, c], ':') == m + ":" + (s + ":" + c)
  {
    JoinCons(s, [c], ':');
    JoinCons(m, [s, c], ':');
    assert [m] + [s, c] == [m, s, c] && [s] + [c] == [s, c];
  }

  lemma Reassociate(a: string, b: string, c: string)
    ensures a + (b + c) == a + b + c
  {
  }

  lemma JoinSpelled(v: string, m: string, base: string, quote: string, c: string)
    ensures Join(["Manooch", v, m, base + "_" + quote, c], ':')
         == "Manooch:" + v + ":" + m + ":" + base + "_" + quote + ":" + c
  {
    JoinFive("Manooch", v, m, base + "_" + quote, c);
    assert "Manooch" + ":" == "Manooch:";
    Reassociate("Manooch:" + v + ":" + m + ":", base + "_" + quote, ":" + c);
    Reassociated("Manooch:" + v + ":" + m + ":", base, quote, c);
  }

  lemma Reassociated(a: string, base: string, quote: string, c: string)
    ensures a + (base + "_" + quote) + ":" + c == a + base + "_" + quote + ":" + c
  {
    assert a + (base + "_" + quote) == a + base + "_" + quote;
  }

  lemma VenueKeyText(venue: string, subject: string)
    ensures VenueKey(venue, subject) == "Manooch:" + Upper(venue) + ":venue:" + Lower(subject)
  {
    var v, s := Upper(venue), Lower(subject);
    JoinCons(VENUE_SCOPE, [s], ':');
    JoinCons(v, [VENUE_SCOPE, s], ':');
    JoinCons(PREFIX, [v, VENUE_SCOPE, s], ':');
    assert [PREFIX] + [v, VENUE_SCOPE, s] == [PREFIX, v, VENUE_SCOPE, s];
    assert [v] + [VENUE_SCOPE, s] == [v, VENUE_SCOPE, s] && [VENUE_SCOPE] + [s] == [VENUE_SCOPE, s];
    assert PREFIX + ":" + (v + ":" + ("venue" + ":" + s)) == (PREFIX + ":") + v + (":" + "venue" + ":") + s;
  }

  function MarketOf(name: string): (m: MarketType)
    requires name in MARKETS
    ensures KnownMarketType(m) && MarketTypeName(m) == name
  {
    if name == "SPOT" then 1 else if name == "MARGIN" then 2 else if name == "PERP_LINEAR" then 3
    else if name == "PERP_INVERSE" then 4 else if name == "FUTURE_LINEAR" then 5 else 6
  }

  function ChannelOf(name: string): (c: Channel)
    requires name in CHANNELS
    ensures KnownChannel(c) && ChannelName(c) == name
  {
    if name == "orderbook" then 1 else if name == "mark_price" then 3 else if name == "index_price" then 4
    else if name == "funding" then 5 else if name == "metadata" then 6 else if name == "health" then 7 else 8
  }

  lemma MarketNamed(m: MarketType)
    requires KnownMarketType(m)
    ensures MarketTypeName(m) in MARKETS
  {
  }

  lemma ChannelNamed(c: Channel)
    requires KnownChannel(c)
    ensures ChannelName(c) in CHANNELS
  {
    assert c == ChannelOf("orderbook") || c == ChannelOf("mark_price") || c == ChannelOf("index_price")
      || c == ChannelOf("funding") || c == ChannelOf("metadata") || c == ChannelOf("health")
      || c == ChannelOf("ratelimit");
  }

  /** The keys there are: a string is one exactly when it is so spelled. */
  lemma KeyGrammar(s: string)
    ensures ParseKey(s).Some? <==>
      || (exists v, m, base, quote, c :: SpellsData(s, v, m, base, quote, c))
      || (exists v, subject :: SpellsVenue(s, v, subject))
  {
    if ParseKey(s).Some? {
      ParsedSpells(s);
    }
    if v, m, base, quote, c :| SpellsData(s, v, m, base, quote, c) {
      DataParses(s, v, m, base, quote, c);
    }
    if v, subject :| SpellsVenue(s, v, subject) {
      CapitalsExact(v);
      CapitalsExact(subject);
      VenueKeyText(v, subject);
      VenueKeyThenParse(v, subject);
    }
  }

  lemma DataParses(s: string, v: string, m: string, base: string, quote: string, c: string)
    requires SpellsData(s, v, m, base, quote, c)
    ensures ParseKey(s).Some?
  {
    CapitalsExact(v);
    CanonicalJoined(base, quote);
    KeyThenParse(v, MarketOf(m), base + "_" + quote, ChannelOf(c));
    JoinSpelled(v, m, base, quote, c);
  }

  lemma CanonicalJoined(base: string, quote: string)
    requires Capitals(base) && Capitals(quote)
    ensures
      var s := base + "_" + quote;
      CanonicalSymbol(s) && Upper(s) == s
  {
    var s := base + "_" + quote;
    CapitalsExact(base);
    CapitalsExact(quote);
    assert s[..|base|] == base && s[|base| + 1..] == quote;
    IndexUnique(s, '_', |base|);
    CanonicalUpper(s);
  }

  /** A canonical symbol is two such words with an underscore between them, and gives an instrument exactly when its
      market type is not the unspecified one. */
  lemma SymbolGrammar(s: string, marketType: MarketType, base: string, quote: string)
    ensures
      var r := ParseCanonical(s, marketType);
      (r.Some? && r.value.base == base && r.value.quote == quote) <==>
        MarketTypeName(marketType) != "UNSPECIFIED"
        && Capitals(base) && Capitals(quote) && s == base + "_" + quote
  {
    UnspecifiedNamed(marketType);
    if CanonicalSymbol(s) {
      SymbolCut(s);
    }
    if Capitals(base) && Capitals(quote) && s == base + "_" + quote {
      SymbolJoined(base, quote);
    }
  }

  lemma UnspecifiedNamed(marketType: MarketType)
    ensures MarketTypeName(marketType) == "UNSPECIFIED" <==> marketType == MARKET_TYPE_UNSPECIFIED
  {
  }

  lemma SymbolCut(s: string)
    requires CanonicalSymbol(s)
    ensures
      var k := IndexOf(s, '_');
      k < |s| && Capitals(s[..k]) && Capitals(s[k + 1..]) && s == s[..k] + "_" + s[k + 1..]
  {
    var k := IndexOf(s, '_');
    CapitalsExact(s[..k]);
    CapitalsExact(s[k + 1..]);
    CutAt(s, k);
  }

  lemma SymbolJoined(base: string, quote: string)
    requires Capitals(base) && Capitals(quote)
    ensures
      var s := base + "_" + quote;
      CanonicalSymbol(s) && IndexOf(s, '_') == |base| && s[..|base|] == base && s[|base| + 1..] == quote
  {
    var s := base + "_" + quote;
    CanonicalJoined(base, quote);
    CapitalsExact(base);
    assert s[..|base|] == base && s[|base| + 1..] == quote;
    IndexUnique(s, '_', |base|);
  }

  lemma ParsedSpells(s: string)
    requires ParseKey(s).Some?
    ensures (exists v, m, base, quote, c :: SpellsData(s, v, m, base, quote, c))
      || (exists v, subject :: SpellsVenue(s, v, subject))
  {
    ParseThenText(s);
    match ParseKey(s).value
    case DataKey(v, marketType, symbol, channel) => DataSpells(s, v, marketType, symbol, channel);
    case VenueScoped(v, subject) =>
      CapitalsExact(v);
      CapitalsExact(subject);
      VenueKeyText(v, subject);
      assert SpellsVenue(s, v, subject);
  }

  lemma DataSpells(s: string, v: string, marketType: MarketType, symbol: string, channel: Channel)
    requires UpperWord(v) && KnownMarketType(marketType) && CanonicalSymbol(symbol) && KnownChannel(channel)
    requires s == Key(v, marketType, symbol, channel)
    ensures exists m, base, quote, c :: SpellsData(s, v, m, base, quote, c)
  {
    var k := IndexOf(symbol, '_');
    var base, quote := symbol[..k], symbol[k + 1..];
    CapitalsExact(v);
    CapitalsExact(base);
    CapitalsExact(quote);
    CanonicalUpper(symbol);
    MarketNamed(marketType);
    ChannelNamed(channel);
    CutAt(symbol, k);
    JoinSpelled(v, MarketTypeName(marketType), base, quote, ChannelName(channel));
    assert SpellsData(s, v, MarketTypeName(marketType), base, quote, ChannelName(channel));
  }
}
