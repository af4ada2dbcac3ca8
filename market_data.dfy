/**
 * The market data service (backend/market_data.py): a per-symbol price cache with a
 * 60-second lifetime, a market-summary cache with a 5-minute lifetime, a rate limit of
 * one request per 0.6 seconds, and symbol search. The HTTP responses are inputs; time is
 * a parameter in seconds.
 */
module MarketData {
  import opened Wrappers

  const PriceTtl: real := 60.0
  const StatsTtl: real := 300.0
  const MinInterval: real := 0.6
  /** The top gainer and loser lists of a summary are cut to this many entries. */
  const TopCount: nat := 5

  /** What the price endpoint answered: a price, a non-200 or unsuccessful answer, or an exception. */
  datatype PriceResponse = PriceOk(price: real) | PriceRefused | PriceError

  /** The `data` object of a successful stats answer; every key may be missing. */
  datatype Stats = Stats(
    totalVolume: Option<real>, totalValue: Option<real>, gainers: Option<int>, losers: Option<int>,
    topGainers: Option<seq<string>>, topLosers: Option<seq<string>>)

  datatype StatsResponse = StatsOk(stats: Stats) | StatsRefused | StatsError(message: string)

  /** The market summary; the top lists hold the symbols of the stats entries. */
  datatype MarketSummary =
    | Summary(status: string, index: string, volume: real, value: real, gainers: int, losers: int,
              topGainers: seq<string>, topLosers: seq<string>)
    | Unavailable(status: string, error: string)

  /** The company-info answer used by search: a name when the answer carried one. */
  datatype CompanyInfo = CompanyInfo(name: Option<string>)

  /** A search hit. */
  datatype SearchHit = SearchHit(symbol: string, name: string, price: real, change: real,
                                 changePercent: real, volume: int)

  // ---------------------------------------------------------------------------
  // Rate limit

  /**
   * How long `_rate_limit` sleeps when `elapsed` seconds have passed since the last
   * request: the least non-negative wait after which min_interval has passed.
   */
  function RateLimitWait(elapsed: real): (w: real)
    ensures w >= 0.0 && elapsed + w >= MinInterval
    ensures w > 0.0 ==> elapsed + w == MinInterval
    ensures elapsed >= MinInterval <==> w == 0.0
  {
    if elapsed < MinInterval then MinInterval - elapsed else 0.0
  }

  // ---------------------------------------------------------------------------
  // Summary and search helpers

  /** The first `n` elements of `s`, or all of them when there are fewer (Python's `s[:n]`). */
  function Take<T>(s: seq<T>, n: nat): (r: seq<T>)
    ensures |r| <= n && |r| <= |s|
    ensures |s| <= n ==> r == s
    ensures r == s[..|r|]
  {
    if |s| <= n then s else s[..n]
  }

  predicate SummaryBounded(summary: MarketSummary) {
    summary.Summary? ==> |summary.topGainers| <= TopCount && |summary.topLosers| <= TopCount
  }

  /** The summary built from a successful stats answer. */
  function BuildSummary(stats: Stats): (r: MarketSummary)
    ensures r.Summary? && SummaryBounded(r)
    ensures r.status == "OPEN" && r.index == "KSE-100"
    ensures r.topGainers == Take(stats.topGainers.GetOr([]), TopCount)
    ensures r.topLosers == Take(stats.topLosers.GetOr([]), TopCount)
  {
    Summary("OPEN", "KSE-100", stats.totalVolume.GetOr(0.0), stats.totalValue.GetOr(0.0),
            stats.gainers.GetOr(0), stats.losers.GetOr(0),
            Take(stats.topGainers.GetOr([]), TopCount), Take(stats.topLosers.GetOr([]), TopCount))
  }

  predicate IsLowerAscii(c: char) { 'a' <= c <= 'z' }

  /**
   * The whitespace Python's `str.strip()` removes (`str.isspace`): tab to carriage return,
   * the four information separators, space, next line, no-break space, and the Unicode
   * space and line/paragraph separators.
   */
  predicate IsSpace(c: char) {
    || '\t' <= c <= '\r'
    || '\U{1C}' <= c <= ' '
    || c == '\U{85}' || c == '\U{A0}' || c == '\U{1680}'
    || '\U{2000}' <= c <= '\U{200A}'
    || c == '\U{2028}' || c == '\U{2029}' || c == '\U{202F}' || c == '\U{205F}' || c == '\U{3000}'
  }

  function UpperChar(c: char): (r: char)
    ensures !IsLowerAscii(r)
    ensures !IsLowerAscii(c) ==> r == c
    ensures IsSpace(r) <==> IsSpace(c)
  {
    if IsLowerAscii(c) then (c as int - 32) as char else c
  }

  /** `str.upper()` on ASCII letters. */
  function Upper(s: string): (r: string)
    ensures |r| == |s|
    ensures forall i :: 0 <= i < |s| ==> r[i] == UpperChar(s[i])
  {
    if |s| == 0 then [] else [UpperChar(s[0])] + Upper(s[1..])
  }

  function StripLeft(s: string): (r: string)
    ensures |r| <= |s| && r == s[|s| - |r|..]
    ensures |r| > 0 ==> !IsSpace(r[0])
    ensures forall i :: 0 <= i < |s| - |r| ==> IsSpace(s[i])
  {
    if |s| > 0 && IsSpace(s[0]) then StripLeft(s[1..]) else s
  }

  function StripRight(s: string): (r: string)
    ensures |r| <= |s| && r == s[..|r|]
    ensures |r| > 0 ==> !IsSpace(r[|r| - 1])
    ensures forall i :: |r| <= i < |s| ==> IsSpace(s[i])
  {
    if |s| > 0 && IsSpace(s[|s| - 1]) then StripRight(s[..|s| - 1]) else s
  }

  /** `str.strip()`: leading and trailing whitespace removed. */
  function Strip(s: string): string {
    StripRight(StripLeft(s))
  }

  /** A search query in normal form: no lower-case letter, no surrounding whitespace. */
  predicate IsNormal(s: string) {
    && NoLower(s)
    && (|s| > 0 ==> !IsSpace(s[0]) && !IsSpace(s[|s| - 1]))
  }

  predicate NoLower(s: string) {
    forall i :: 0 <= i < |s| ==> !IsLowerAscii(s[i])
  }

  lemma NoLowerSuffix(s: string, k: nat)
    requires NoLower(s) && k <= |s|
    ensures NoLower(s[k..])
  {
    forall i | 0 <= i < |s| - k ensures !IsLowerAscii(s[k..][i]) {
      assert s[k..][i] == s[k + i];
    }
  }

  lemma NoLowerPrefix(s: string, k: nat)
    requires NoLower(s) && k <= |s|
    ensures NoLower(s[..k])
  {
    forall i | 0 <= i < k ensures !IsLowerAscii(s[..k][i]) {
      assert s[..k][i] == s[i];
    }
  }

  /** Stripping a string without lower-case letters yields a string in normal form. */
  lemma StrippedIsNormal(u: string)
    requires NoLower(u)
    ensures IsNormal(Strip(u))
  {
    var l := StripLeft(u);
    NoLowerSuffix(u, |u| - |l|);
    var r := StripRight(l);
    NoLowerPrefix(l, |r|);
    if |r| > 0 {
      assert r[0] == l[0];
    }
  }

  /** The symbol `search_symbol` looks up: the query upper-cased, then stripped. */
  function Normalize(query: string): (r: string)
    ensures IsNormal(r)
    ensures |r| <= |query|
  {
    StrippedIsNormal(Upper(query));
    Strip(Upper(query))
  }

  lemma {:induction false} StripLeftOfNormal(s: string)
    requires |s| == 0 || !IsSpace(s[0])
    ensures StripLeft(s) == s
  {
  }

  lemma {:induction false} StripRightOfNormal(s: string)
    requires |s| == 0 || !IsSpace(s[|s| - 1])
    ensures StripRight(s) == s
  {
  }

  lemma {:induction false} UpperOfUpper(s: string)
    requires NoLower(s)
    ensures Upper(s) == s
  {
    if |s| > 0 {
      UpperOfUpper(s[1..]);
    }
  }

  /** A normal symbol is its own normal form. */
  lemma NormalizeFixesNormal(s: string)
    requires IsNormal(s)
    ensures Normalize(s) == s
  {
    UpperOfUpper(s);
    StripLeftOfNormal(s);
    StripRightOfNormal(s);
  }

  /** Upper-casing leaves the separator alone and raises the letters. */
  lemma UpperOfSeparated()
    ensures Upper("\U{1F}ogdc") == "\U{1F}OGDC"
  {
    var upper := Upper("\U{1F}ogdc");
    assert upper[0] == '\U{1F}' && upper[1] == 'O' && upper[2] == 'G' && upper[3] == 'D' && upper[4] == 'C';
  }

  /** An information separator before the symbol is whitespace to Python's strip and is removed. */
  lemma SeparatorStripped()
    ensures Normalize("\U{1F}ogdc") == "OGDC"
  {
    UpperOfSeparated();
    var upper := "\U{1F}OGDC";
    assert IsSpace('\U{1F}');
    assert upper[1..] == "OGDC";
    assert StripLeft(upper) == "OGDC" by {
      assert StripLeft(upper) == StripLeft(upper[1..]);
      StripLeftOfNormal("OGDC");
    }
    StripRightOfNormal("OGDC");
  }

  /** Normalising twice is normalising once. */
  lemma NormalizeIdempotent(query: string)
    ensures Normalize(Normalize(query)) == Normalize(query)
  {
    NormalizeFixesNormal(Normalize(query));
  }

  // ---------------------------------------------------------------------------
  // The service

  class MarketDataService {
    /** symbol -> (time cached, price) */
    var priceCache: map<string, (real, real)>
    /** (time cached, summary) of the last successful stats fetch */
    var statsCache: Option<(real, MarketSummary)>
    var lastRequestTime: real

    /** Every cached summary was built from a stats answer, so its top lists are cut to 5. */
    predicate Valid()
      reads this
    {
      statsCache.Some? ==> SummaryBounded(statsCache.value.1)
    }

    /** The cached price of `symbol` when it is younger than price_ttl at `now`. */
    function FreshPrice(symbol: string, now: real): (r: Option<real>)
      reads this
      ensures r.Some? <==> symbol in priceCache && now - priceCache[symbol].0 < PriceTtl
      ensures r.Some? ==> r.value == priceCache[symbol].1
    {
      if symbol in priceCache && now - priceCache[symbol].0 < PriceTtl
      then Some(priceCache[symbol].1) else None
    }

    constructor ()
      ensures priceCache == map[] && statsCache.None? && lastRequestTime == 0.0
      ensures Valid()
    {
      priceCache := map[];
      statsCache := None;
      lastRequestTime := 0.0;
    }

    /**
     * `_rate_limit` at clock reading `now`: waits until min_interval has passed since the
     * last request and stamps the clock after the wait as the new last request time.
     */
    method RateLimit(now: real) returns (waited: real)
      modifies this
      ensures waited == RateLimitWait(now - old(lastRequestTime))
      ensures lastRequestTime == now + waited
      ensures lastRequestTime >= now && lastRequestTime - old(lastRequestTime) >= MinInterval
      ensures priceCache == old(priceCache) && statsCache == old(statsCache)
    {
      waited := RateLimitWait(now - lastRequestTime);
      lastRequestTime := now + waited;
    }

    /**
     * `get_live_price`: a cached price younger than price_ttl is returned without a
     * request; otherwise, after the rate limit, a successful answer is cached and
     * returned, and a failed one returns 0.0 and leaves the cache alone.
     */
    method GetLivePrice(symbol: string, now: real, response: PriceResponse) returns (price: real)
      requires Valid()
      modifies this
      ensures Valid() && statsCache == old(statsCache)
      ensures old(FreshPrice(symbol, now)).Some? ==>
        price == old(FreshPrice(symbol, now)).value && unchanged(this)
      ensures old(FreshPrice(symbol, now)).None? ==>
        lastRequestTime == now + RateLimitWait(now - old(lastRequestTime))
      ensures old(FreshPrice(symbol, now)).None? && response.PriceOk? ==>
        price == response.price && priceCache == old(priceCache)[symbol := (lastRequestTime, price)]
      ensures old(FreshPrice(symbol, now)).None? && !response.PriceOk? ==>
        price == 0.0 && priceCache == old(priceCache)
    {
      var cached := FreshPrice(symbol, now);
      if cached.Some? {
        return cached.value;
      }
      var _ := RateLimit(now);
      match response
      case PriceOk(p) =>
        priceCache := priceCache[symbol := (lastRequestTime, p)];
        price := p;
      case PriceRefused =>
        price := 0.0;
      case PriceError =>
        price := 0.0;
    }

    /**
     * `get_market_summary`: a cached summary younger than stats_ttl is returned without a
     * request; otherwise, after the rate limit, a successful answer is summarised and
     * cached, and a failed one yields an UNKNOWN or ERROR summary and leaves the cache alone.
     */
    method GetMarketSummary(now: real, response: StatsResponse) returns (summary: MarketSummary)
      requires Valid()
      modifies this
      ensures Valid() && priceCache == old(priceCache)
      ensures SummaryBounded(summary)
      ensures old(statsCache).Some? && now - old(statsCache).value.0 < StatsTtl ==>
        summary == old(statsCache).value.1 && unchanged(this)
      ensures !(old(statsCache).Some? && now - old(statsCache).value.0 < StatsTtl) ==>
        && lastRequestTime == now + RateLimitWait(now - old(lastRequestTime))
        && match response
           case StatsOk(stats) =>
             summary == BuildSummary(stats) && statsCache == Some((lastRequestTime, summary))
           case StatsRefused =>
             summary == Unavailable("UNKNOWN", "Failed to fetch stats") && statsCache == old(statsCache)
           case StatsError(message) =>
             summary == Unavailable("ERROR", message) && statsCache == old(statsCache)
    {
      if statsCache.Some? && now - statsCache.value.0 < StatsTtl {
        return statsCache.value.1;
      }
      var _ := RateLimit(now);
      match response
      case StatsOk(stats) =>
        summary := BuildSummary(stats);
        statsCache := Some((lastRequestTime, summary));
      case StatsRefused =>
        summary := Unavailable("UNKNOWN", "Failed to fetch stats");
      case StatsError(message) =>
        summary := Unavailable("ERROR", message);
    }

    /**
     * `search_symbol`: the query is normalised; an empty symbol, or one whose live price is
     * not positive, finds nothing; otherwise one hit carries the symbol, the company name
     * (the symbol when the company answer has none), the price and zero change and volume.
     */
    method SearchSymbol(query: string, now: real, priceResponse: PriceResponse, company: CompanyInfo,
                        companyAt: real) returns (hits: seq<SearchHit>)
      requires Valid()
      modifies this
      ensures Valid() && statsCache == old(statsCache)
      ensures |hits| <= 1
      ensures Normalize(query) == [] ==> hits == [] && unchanged(this)
      ensures |hits| == 1 ==>
        && hits[0].symbol == Normalize(query) && IsNormal(hits[0].symbol)
        && hits[0].price > 0.0
        && hits[0].name == company.name.GetOr(Normalize(query))
        && hits[0].change == 0.0 && hits[0].changePercent == 0.0 && hits[0].volume == 0
      ensures var live := old(FreshPrice(Normalize(query), now)).GetOr(
                            if priceResponse.PriceOk? then priceResponse.price else 0.0);
        Normalize(query) != [] ==>
          && (|hits| == 1 <==> live > 0.0)
          && (|hits| == 1 ==> hits[0].price == live)
      ensures Normalize(query) != [] && old(FreshPrice(Normalize(query), now)).None? && priceResponse.PriceOk? ==>
        && Normalize(query) in priceCache && priceCache[Normalize(query)].1 == priceResponse.price
        && priceCache == old(priceCache)[Normalize(query) := priceCache[Normalize(query)]]
      ensures old(FreshPrice(Normalize(query), now)).Some? || !priceResponse.PriceOk? ==> priceCache == old(priceCache)
    {
      var symbol := Normalize(query);
      if symbol == [] {
        return [];
      }
      var price := GetLivePrice(symbol, now, priceResponse);
      if price > 0.0 {
        var _ := RateLimit(companyAt);  // get_company_info is rate limited too
        hits := [SearchHit(symbol, company.name.GetOr(symbol), price, 0.0, 0.0, 0)];
      } else {
        hits := [];
      }
    }
  }

  /**
   * Two price lookups of one symbol less than price_ttl apart, the first answered by the
   * exchange: the second returns the first price, whatever the exchange would answer then.
   */
  method PriceServedFromCache(service: MarketDataService, symbol: string, now: real, price: real,
                              later: real, laterResponse: PriceResponse) returns (first: real, second: real)
    requires service.Valid() && service.FreshPrice(symbol, now).None?
    requires now <= later && later - (now + RateLimitWait(now - service.lastRequestTime)) < PriceTtl
    modifies service
    ensures first == price && second == price
  {
    first := service.GetLivePrice(symbol, now, PriceOk(price));
    second := service.GetLivePrice(symbol, later, laterResponse);
  }
}
