/**
 * The price service (src/services/prices.ts): a module-level snapshot of
 * USD prices by symbol, kept for ten minutes, and per-symbol lookups that
 * alias testnet tickers to their mainnet ones. The clock (`Date.now()`) is a
 * parameter, and each method is handed the reply its one request would get.
 */
module Prices {
  import opened Wrappers
  import Http

  datatype TokenPrice = TokenPrice(priceUsd: real, symbol: Option<string>)

  /** `PricesResponse`: prices keyed by symbol. */
  type PricesResponse = map<string, TokenPrice>

  /** `CACHE_TTL`, in milliseconds. */
  const CacheTtl: int := 10 * 60 * 1000

  /** `TESTNET_TO_MAINNET` (upper-case keys). */
  const TestnetToMainnet: map<string, string> := map["TBNB" := "BNB", "MATIC" := "POL"]

  /** `getPriceSymbol`: the aliased symbol, or the symbol itself. */
  function PriceSymbol(symbol: string): string
  {
    if symbol in TestnetToMainnet then TestnetToMainnet[symbol] else symbol
  }

  /** `toUpperCase` on one character (ASCII letters only). */
  function UpperChar(c: char): (u: char)
    ensures !('a' <= u <= 'z')
  {
    if 'a' <= c <= 'z' then (c as int - 32) as char else c
  }

  predicate IsUpper(s: string) { forall i :: 0 <= i < |s| ==> !('a' <= s[i] <= 'z') }

  /** `toUpperCase`, character by character. */
  function ToUpper(s: string): (r: string)
    ensures |r| == |s| && IsUpper(r)
    ensures forall i :: 0 <= i < |s| ==> r[i] == UpperChar(s[i])
  {
    if s == [] then [] else [UpperChar(s[0])] + ToUpper(s[1..])
  }

  /** The key `getPrice` looks up and fetches: upper-cased, then aliased. */
  function LookupSymbol(symbol: string): string
  {
    PriceSymbol(ToUpper(symbol))
  }

  /** Whether a snapshot taken at `timestamp` may still be served at `now`. */
  predicate Fresh(data: Option<PricesResponse>, timestamp: int, now: int)
  {
    data.Some? && now - timestamp < CacheTtl
  }

  /**
   * The error path of `fetchPrices`: what a request to the price endpoint
   * resolves to or throws (a `PriceServiceError` carries the status).
   */
  function FetchPrices<T>(reply: Http.Exchange<T>): (r: Result<T, Http.Failure>)
    ensures r.Failure? && r.error.StatusError? <==> reply.Answered? && !Http.IsOk(reply.status)
    ensures r.Failure? && r.error.StatusError? ==>
      r.error.status == reply.status && r.error.message == Http.ErrorText(reply.status, reply.body)
    ensures r.Success? <==> Http.Delivers(reply)
  {
    Http.Receive(reply)
  }

  class PriceCache {
    var data: Option<PricesResponse>
    var timestamp: int

    /** The initial `priceCache`. */
    constructor ()
      ensures data == None && timestamp == 0
    {
      data := None;
      timestamp := 0;
    }

    predicate IsFresh(now: int)
      reads this
    {
      Fresh(data, timestamp, now)
    }

    /**
     * `getAllPrices`: serves the snapshot while it is fresh; otherwise fetches
     * `/prices` and, if that succeeds, replaces the whole snapshot, stamped
     * with the time read before the request. A failed request throws and
     * leaves the cache as it was.
     */
    method GetAllPrices(now: int, reply: Http.Exchange<PricesResponse>)
      returns (request: Option<string>, r: Result<PricesResponse, Http.Failure>)
      modifies this
      ensures old(IsFresh(now)) ==>
        request == None && r == Success(old(data).value) && data == old(data) && timestamp == old(timestamp)
      ensures !old(IsFresh(now)) ==> request == Some("/prices") && r == FetchPrices(reply)
      ensures !old(IsFresh(now)) && r.Success? ==> data == Some(r.value) && timestamp == now
      ensures !old(IsFresh(now)) && r.Failure? ==> data == old(data) && timestamp == old(timestamp)
    {
      if data.Some? && now - timestamp < CacheTtl {
        return None, Success(data.value);
      }
      request := Some("/prices");
      r := FetchPrices(reply);
      if r.Success? {
        data, timestamp := Some(r.value), now;
      }
    }

    /**
     * `getPrice`: reads the snapshot, never writes it. A fresh snapshot that
     * holds the looked-up symbol answers directly; otherwise the aliased
     * symbol is fetched from `/prices/<symbol>`.
     */
    method GetPrice(symbol: string, now: int, reply: Http.Exchange<TokenPrice>)
      returns (request: Option<string>, r: Result<TokenPrice, Http.Failure>)
      ensures var key := LookupSymbol(symbol);
        if IsFresh(now) && key in data.value then request == None && r == Success(data.value[key])
        else request == Some("/prices/" + key) && r == FetchPrices(reply)
    {
      var priceSymbol := PriceSymbol(ToUpper(symbol));
      if data.Some? && now - timestamp < CacheTtl {
        if priceSymbol in data.value {
          return None, Success(data.value[priceSymbol]);
        }
      }
      request := Some("/prices/" + priceSymbol);
      r := FetchPrices(reply);
    }

    /** `getEthPrice`: the USD price found by `getPrice("ETH")`. */
    method GetEthPrice(now: int, reply: Http.Exchange<TokenPrice>)
      returns (request: Option<string>, r: Result<real, Http.Failure>)
      ensures if IsFresh(now) && "ETH" in data.value then request == None && r == Success(data.value["ETH"].priceUsd)
        else request == Some("/prices/ETH") && (r.Success? <==> Http.Delivers(reply))
      ensures r.Success? && request.Some? ==> r.value == reply.body.value.priceUsd
      ensures r.Failure? ==> request == Some("/prices/ETH") && r.error == FetchPrices(reply).error
    {
      EthIsItsOwnKey();
      assert "/prices/" + LookupSymbol("ETH") == "/prices/ETH";
      var price;
      request, price := GetPrice("ETH", now, reply);
      match price
      case Success(p) => r := Success(p.priceUsd);
      case Failure(e) => r := Failure(e);
    }

    /** `clearCache`: back to the initial state. */
    method ClearCache()
      modifies this
      ensures data == None && timestamp == 0
    {
      data, timestamp := None, 0;
    }
  }

  /** The two aliases, and every other symbol maps to itself. */
  lemma PriceSymbolAliases(s: string)
    ensures PriceSymbol("TBNB") == "BNB" && PriceSymbol("MATIC") == "POL"
    ensures s != "TBNB" && s != "MATIC" ==> PriceSymbol(s) == s
    ensures PriceSymbol(PriceSymbol(s)) == PriceSymbol(s)
  {
  }

  lemma {:induction false} ToUpperIdempotent(s: string)
    ensures ToUpper(ToUpper(s)) == ToUpper(s)
  {
    if s != [] {
      ToUpperIdempotent(s[1..]);
      assert ToUpper(s)[1..] == ToUpper(s[1..]);
    }
  }

  /**
   * The lookup ignores case: a symbol and its upper-case form look up the
   * same key, which is itself upper case; `tbnb` and `TBNB` both look up `BNB`.
   */
  lemma LookupIgnoresCase(s: string)
    ensures LookupSymbol(ToUpper(s)) == LookupSymbol(s)
    ensures IsUpper(LookupSymbol(s))
  {
    var u := ToUpper(s);
    ToUpperIdempotent(s);
    assert LookupSymbol(u) == PriceSymbol(u);
    AliasKeepsUpper(u);
  }

  /** The alias of an upper-case symbol is upper case. */
  lemma AliasKeepsUpper(t: string)
    requires IsUpper(t)
    ensures IsUpper(PriceSymbol(t))
  {
    if t in TestnetToMainnet {
      var a := TestnetToMainnet[t];
      assert a == "BNB" || a == "POL";
      assert forall i :: 0 <= i < |a| ==> 'A' <= a[i] <= 'Z';
    }
  }

  /** `tbnb` and `TBNB` both look up `BNB`; `matic` looks up `POL`. */
  lemma LookupExamples()
    ensures LookupSymbol("tbnb") == "BNB" && LookupSymbol("TBNB") == "BNB"
    ensures LookupSymbol("matic") == "POL"
  {
    UpperOfLiteral("tbnb", "TBNB");
    UpperOfLiteral("TBNB", "TBNB");
    UpperOfLiteral("matic", "MATIC");
  }

  lemma UpperOfLiteral(s: string, t: string)
    requires |s| == |t| && forall i :: 0 <= i < |s| ==> UpperChar(s[i]) == t[i]
    ensures ToUpper(s) == t
  {
  }

  lemma EthIsItsOwnKey()
    ensures LookupSymbol("ETH") == "ETH"
  {
    UpperOfLiteral("ETH", "ETH");
  }

  /**
   * Freshness is the strict window [timestamp, timestamp + TTL): an elapsed
   * time equal to the TTL is stale, and the cleared cache is never fresh.
   */
  lemma FreshnessWindow(d: PricesResponse, t: int, now: int)
    ensures Fresh(Some(d), t, now) <==> now < t + CacheTtl
    ensures !Fresh(Some(d), t, t + 600000)
    ensures Fresh(Some(d), t, t + 599999)
    ensures !Fresh(None, 0, now)
  {
  }

  /**
   * A client of the cache: a refresh that succeeds at `now` is served
   * without a request until the TTL has elapsed, and clearing the cache
   * makes the next call fetch again.
   */
  method RefreshThenClear(cache: PriceCache, now: int, later: int, prices: PricesResponse)
    returns (requests: seq<Option<string>>)
    requires now <= later < now + CacheTtl
    modifies cache
    ensures requests == [Some("/prices"), None, Some("/prices")]
    ensures cache.data == None && cache.timestamp == 0
  {
    cache.ClearCache();
    var request, r := cache.GetAllPrices(now, Http.Answered(200, Http.Parsed(prices, None)));
    assert r == Success(prices);
    requests := [request];
    request, r := cache.GetAllPrices(later, Http.Unreachable("offline"));
    assert r == Success(prices);
    requests := requests + [request];
    cache.ClearCache();
    request, r := cache.GetAllPrices(later, Http.Unreachable("offline"));
    assert r.Failure?;
    requests := requests + [request];
  }
}
