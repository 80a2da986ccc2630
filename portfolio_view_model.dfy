/** `PortfolioViewModel` (Stocks/ViewModel/PortfolioViewModel.swift): the view state and the
    current holdings. Its computed figures are the folds of module Metrics over `holdings`.
    `load()` runs to completion here: `reply` is what the network would answer if asked. */
module ViewModel {
  import opened Wrappers
  import opened Model
  import opened AppErrors
  import opened Cache
  import opened Repository
  import opened Metrics

  datatype State = Idle | Loading | Loaded | Error(error: Thrown)

  class PortfolioViewModel {
    var holdings: seq<Holding>
    var state: State
    var isSummaryExpanded: bool
    const repo: PortfolioRepository

    constructor (repo: PortfolioRepository)
      ensures holdings == [] && state == Idle && !isSummaryExpanded
      ensures this.repo == repo
    {
      holdings := [];
      state := Idle;
      isSummaryExpanded := false;
      this.repo := repo;
    }

    /** `load()`: on success the holdings are replaced wholesale and the state is `loaded`;
        on failure the state carries the thrown error and the holdings stay as they were. */
    method Load(reply: Result<Bytes, Thrown>)
      modifies this, repo.cache
      ensures var o := Fetch(old(repo.cache.Snapshot()), reply, repo.decodePlain, repo.decodeSnake);
              && repo.cache.Snapshot() == o.store
              && (o.result.Success? ==> holdings == o.result.value && state == Loaded)
              && (o.result.Failure? ==> holdings == old(holdings) && state == Error(o.result.error))
      ensures isSummaryExpanded == old(isSummaryExpanded)
    {
      state := Loading;
      var items, _ := repo.FetchPortfolio(reply);
      match items
      case Success(hs) =>
        holdings := hs;
        state := Loaded;
      case Failure(e) =>
        state := Error(e);
    }
  }

  /** A decoder that accepts exactly one payload. */
  function DecoderFor(payload: Bytes, resp: PortfolioResponse): Decoder {
    (d: Bytes) => if d == payload then Success(resp) else Failure("keyNotFound")
  }

  /** First launch with an empty cache and no connection: the state is an error carrying the
      URLError, and the holdings are still empty. */
  method OfflineFirstLoad() returns (state: State, holdings: seq<Holding>)
    ensures state == Error(URLError(NotConnectedToInternet)) && holdings == []
  {
    var cache := new CacheService(map[], {}, false);
    var none := (d: Bytes) => Failure("dataCorrupted");
    var repo := new PortfolioRepository(cache, none, none);
    var vm := new PortfolioViewModel(repo);
    vm.Load(Failure(URLError(NotConnectedToInternet)));
    state, holdings := vm.state, vm.holdings;
  }

  /** First launch online: the two test positions arrive, the state is `loaded` and the
      figures are 350 / 280 / 70 / 25. */
  method FirstLoadOnline() returns (state: State, holdings: seq<Holding>)
    ensures state == Loaded
    ensures holdings == [Holding("AAA", 2, 150.0, 120.0, 140.0), Holding("BBB", 1, 50.0, 40.0, 45.0)]
    ensures CurrentValue(holdings) == 350.0 && TotalInvestment(holdings) == 280.0
    ensures TotalPNL(holdings) == 70.0 && TodaysPNL(holdings) == 25.0
  {
    var payload: Bytes := [0x7b, 0x7d];
    var hs := [Holding("AAA", 2, 150.0, 120.0, 140.0), Holding("BBB", 1, 50.0, 40.0, 45.0)];
    var cache := new CacheService(map[], {}, false);
    var none := (d: Bytes) => Failure("keyNotFound");
    var repo := new PortfolioRepository(cache, none, DecoderFor(payload, PortfolioResponse(PortfolioData(hs))));
    var vm := new PortfolioViewModel(repo);
    vm.Load(Success(payload));
    state, holdings := vm.state, vm.holdings;
    TwoHoldingsExample();
  }

  /** A failed reload after a successful one keeps the holdings on screen. */
  method ReloadFailureKeepsHoldings() returns (state: State, holdings: seq<Holding>)
    ensures state == Error(URLError(TimedOut))
    ensures holdings == [Holding("FREE", 5, 120.0, 0.0, 100.0)]
  {
    var payload: Bytes := [0x7b, 0x7d];
    var hs := [Holding("FREE", 5, 120.0, 0.0, 100.0)];
    var cache := new CacheService(map[], {}, true);
    var none := (d: Bytes) => Failure("keyNotFound");
    var repo := new PortfolioRepository(cache, none, DecoderFor(payload, PortfolioResponse(PortfolioData(hs))));
    var vm := new PortfolioViewModel(repo);
    vm.Load(Success(payload));
    vm.Load(Failure(URLError(TimedOut)));
    state, holdings := vm.state, vm.holdings;
  }
}
