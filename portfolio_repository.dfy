/** `PortfolioRepository.fetchPortfolio()` (Stocks/Network/PortfolioRepositoryType.swift):
    cache first, network as fallback, best-effort cache write, then decode.
    The network is an input: `reply` is what `network.fetchData(from: url)` gives if it is
    called. The two JSON decoders are injected as values and kept apart: the cache path uses
    a plain decoder, the network path one that converts snake_case keys. */
module Repository {
  import opened Wrappers
  import opened Model
  import opened AppErrors
  import opened Cache
  import opened NetworkService

  /** The one cache entry the repository uses. */
  const CacheFile: string := "portfolio_cache.json"

  /** What one call produces: its result, the cache directory afterwards, and whether the
      network was asked. */
  datatype FetchOutcome = FetchOutcome(result: Result<seq<Holding>, Thrown>, store: Store, networkCalled: bool)

  /** The cache path: holdings when the probe, the load and the decode all succeed; any
      failure on the way is swallowed into None. */
  function CachedHoldings(s: Store, decodeCached: Decoder): Option<seq<Holding>>
  {
    if !ExistsIn(s, CacheFile) then None
    else match LoadFrom(s, CacheFile)
      case Failure(_) => None
      case Success(data) =>
        match decodeCached(data)
        case Success(resp) => Some(resp.data.userHolding)
        case Failure(_) => None
  }

  /** One call of `fetchPortfolio()` against a cache directory value. */
  function Fetch(s: Store, reply: Result<Bytes, Thrown>, decodePlain: Decoder, decodeSnake: Decoder): FetchOutcome
  {
    match CachedHoldings(s, decodePlain)
    case Some(hs) => FetchOutcome(Success(hs), s, false)
    case None =>
      match reply
      case Failure(e) => FetchOutcome(Failure(e), s, true)
      case Success(data) =>
        var saved := SaveTo(s, data, CacheFile).0;
        match decodeSnake(data)
        case Success(resp) => FetchOutcome(Success(resp.data.userHolding), saved, true)
        case Failure(context) => FetchOutcome(Failure(DecodingError(context)), saved, true)
  }

  /** Cache hit: the cached payload decodes, so its holdings are returned, the network is not
      asked and the cache is not written. */
  lemma CacheHit(s: Store, reply: Result<Bytes, Thrown>, decodePlain: Decoder, decodeSnake: Decoder)
    requires ExistsIn(s, CacheFile) && LoadFrom(s, CacheFile).Success?
    requires decodePlain(LoadFrom(s, CacheFile).value).Success?
    ensures Fetch(s, reply, decodePlain, decodeSnake)
         == FetchOutcome(Success(decodePlain(s.files[CacheFile]).value.data.userHolding), s, false)
  {
  }

  /** A failed load or decode on the cache path is swallowed: the call then behaves exactly
      as if there were no cache entry at all. */
  lemma CacheFailureFallsThrough(s: Store, reply: Result<Bytes, Thrown>, decodePlain: Decoder, decodeSnake: Decoder)
    requires CachedHoldings(s, decodePlain).None?
    ensures var o := Fetch(s, reply, decodePlain, decodeSnake);
            var uncached := Fetch(s.(files := s.files - {CacheFile}), reply, decodePlain, decodeSnake);
            o.result == uncached.result && o.networkCalled && uncached.networkCalled
  {
  }

  /** The network is asked exactly when the cache path fails, and its reply matters only then. */
  lemma NetworkAskedOnlyOnMiss(s: Store, reply1: Result<Bytes, Thrown>, reply2: Result<Bytes, Thrown>,
                               decodePlain: Decoder, decodeSnake: Decoder)
    ensures Fetch(s, reply1, decodePlain, decodeSnake).networkCalled <==> CachedHoldings(s, decodePlain).None?
    ensures !Fetch(s, reply1, decodePlain, decodeSnake).networkCalled ==>
              Fetch(s, reply1, decodePlain, decodeSnake) == Fetch(s, reply2, decodePlain, decodeSnake)
  {
  }

  /** A network failure reaches the caller as thrown, unclassified, and the cache is untouched. */
  lemma NetworkFailurePropagates(s: Store, e: Thrown, decodePlain: Decoder, decodeSnake: Decoder)
    requires CachedHoldings(s, decodePlain).None?
    ensures Fetch(s, Failure(e), decodePlain, decodeSnake) == FetchOutcome(Failure(e), s, true)
  {
  }

  /** Fetched bytes are written to the cache verbatim before decoding, so the entry holds them
      even when the decode then fails; no other file changes. */
  lemma FetchedBytesCached(s: Store, data: Bytes, decodePlain: Decoder, decodeSnake: Decoder, other: string)
    requires CachedHoldings(s, decodePlain).None? && !s.readOnly
    requires other != CacheFile
    ensures LoadFrom(Fetch(s, Success(data), decodePlain, decodeSnake).store, CacheFile) == Success(data)
    ensures LoadFrom(Fetch(s, Success(data), decodePlain, decodeSnake).store, other) == LoadFrom(s, other)
  {
  }

  /** Whether the cache write succeeds never changes the result. */
  lemma SaveFailureIrrelevant(s: Store, reply: Result<Bytes, Thrown>, decodePlain: Decoder, decodeSnake: Decoder)
    ensures Fetch(s.(readOnly := true), reply, decodePlain, decodeSnake).result
         == Fetch(s.(readOnly := false), reply, decodePlain, decodeSnake).result
  {
  }

  /** A response that `fetchData` rejects reaches the caller as its `URLError`, and the cache
      is untouched. */
  lemma RejectedResponseFailsFetch(s: Store, body: Bytes, response: URLResponse, decodePlain: Decoder, decodeSnake: Decoder)
    requires CachedHoldings(s, decodePlain).None? && !Accepted(response)
    ensures Fetch(s, FetchData(Received(body, response)), decodePlain, decodeSnake)
         == FetchOutcome(Failure(URLError(BadServerResponse)), s, true)
  {
  }

  /** Network bytes go through the snake_case decoder only; its failure reaches the caller
      as a DecodingError. */
  lemma NetworkBytesDecodedSnake(s: Store, data: Bytes, decodePlain: Decoder, decodeSnake: Decoder)
    requires CachedHoldings(s, decodePlain).None?
    ensures var r := Fetch(s, Success(data), decodePlain, decodeSnake).result;
            match decodeSnake(data)
            case Success(resp) => r == Success(resp.data.userHolding)
            case Failure(context) => r == Failure(DecodingError(context))
  {
  }

  /** As written, the cache is read with the plain decoder but filled with the network's
      snake_case payload. A payload that only the snake_case decoder accepts is therefore
      cached and then never served: the next call asks the network again, and offline it fails
      although the cache holds a payload that decodes. */
  lemma PlainCacheMissesOwnWrites(s: Store, data: Bytes, e: Thrown, decodePlain: Decoder, decodeSnake: Decoder)
    requires CachedHoldings(s, decodePlain).None? && !s.readOnly
    requires decodePlain(data).Failure? && decodeSnake(data).Success?
    ensures var first := Fetch(s, Success(data), decodePlain, decodeSnake);
            var second := Fetch(first.store, Failure(e), decodePlain, decodeSnake);
            && first.result == Success(decodeSnake(data).value.data.userHolding)
            && second.networkCalled
            && second.result == Failure(e)
  {
  }

  /** Reading the cache with the same snake_case decoder that reads the network makes the
      cache-aside design work: a successful fetch is served from the cache on the next call,
      whatever the network would say, without asking it. */
  lemma SnakeCacheServesOwnWrites(s: Store, data: Bytes, reply: Result<Bytes, Thrown>, decodeSnake: Decoder)
    requires CachedHoldings(s, decodeSnake).None? && !s.readOnly
    requires decodeSnake(data).Success?
    ensures var first := Fetch(s, Success(data), decodeSnake, decodeSnake);
            var second := Fetch(first.store, reply, decodeSnake, decodeSnake);
            && first.result.Success?
            && !second.networkCalled
            && second.result == first.result
            && second.store == first.store
  {
  }

  class PortfolioRepository {
    const cache: CacheService
    const cacheFile: string := CacheFile
    const decodePlain: Decoder
    const decodeSnake: Decoder

    constructor (cache: CacheService, decodePlain: Decoder, decodeSnake: Decoder)
      ensures this.cache == cache
      ensures this.decodePlain == decodePlain && this.decodeSnake == decodeSnake
    {
      this.cache := cache;
      this.decodePlain := decodePlain;
      this.decodeSnake := decodeSnake;
    }

    /** `fetchPortfolio()`; `networkCalled` says whether `reply` was consumed. */
    method FetchPortfolio(reply: Result<Bytes, Thrown>) returns (result: Result<seq<Holding>, Thrown>, networkCalled: bool)
      modifies cache
      ensures var o := Fetch(old(cache.Snapshot()), reply, decodePlain, decodeSnake);
              result == o.result && networkCalled == o.networkCalled && cache.Snapshot() == o.store
    {
      ghost var before := cache.Snapshot();
      var present := cache.Exists(cacheFile);
      if present {
        var loaded := cache.Load(cacheFile);
        if loaded.Success? {
          var decoded := decodePlain(loaded.value);
          if decoded.Success? {
            return Success(decoded.value.data.userHolding), false;
          }
        }
      }
      assert CachedHoldings(before, decodePlain).None?;
      networkCalled := true;
      if reply.Failure? {
        return Failure(reply.error), networkCalled;
      }
      var data := reply.value;
      var _ := cache.Save(data, cacheFile);
      var decoded := decodeSnake(data);
      if decoded.Success? {
        result := Success(decoded.value.data.userHolding);
      } else {
        result := Failure(DecodingError(decoded.error));
      }
    }
  }

  /** A cache entry that decodes is served; the network is not asked. */
  method CacheHitScenario() returns (result: Result<seq<Holding>, Thrown>, networkCalled: bool)
    ensures result == Success([Holding("TST", 1, 100.0, 80.0, 90.0)]) && !networkCalled
  {
    var payload: Bytes := [0x7b, 0x7d];
    var hs := [Holding("TST", 1, 100.0, 80.0, 90.0)];
    var plain := (d: Bytes) => if d == payload then Success(PortfolioResponse(PortfolioData(hs))) else Failure("keyNotFound");
    var snake := (d: Bytes) => Failure("dataCorrupted");
    var cache := new CacheService(map[CacheFile := payload], {}, false);
    var repo := new PortfolioRepository(cache, plain, snake);
    result, networkCalled := repo.FetchPortfolio(Failure(URLError(NotConnectedToInternet)));
  }

  /** A corrupt cache entry is skipped: the network is asked once, its payload is decoded and
      written over the entry, and a refused write would not have changed the result. */
  method CorruptCacheScenario(readOnly: bool) returns (result: Result<seq<Holding>, Thrown>, networkCalled: bool, stored: Bytes)
    ensures result == Success([Holding("TST", 1, 100.0, 80.0, 90.0)]) && networkCalled
    ensures stored == if readOnly then [0x00] else [0x7b, 0x7d]
  {
    var payload: Bytes := [0x7b, 0x7d];
    var hs := [Holding("TST", 1, 100.0, 80.0, 90.0)];
    var plain := (d: Bytes) => Failure("dataCorrupted");
    var snake := (d: Bytes) => if d == payload then Success(PortfolioResponse(PortfolioData(hs))) else Failure("dataCorrupted");
    var cache := new CacheService(map[CacheFile := [0x00]], {}, readOnly);
    var repo := new PortfolioRepository(cache, plain, snake);
    result, networkCalled := repo.FetchPortfolio(Success(payload));
    stored := cache.files[CacheFile];
  }
}
