# Stocks portfolio data path, modelled in Dafny

This project models the data path of the Stocks iOS app. It covers how the portfolio holdings are fetched, kept as view state, and turned into the figures on screen:

- `PortfolioRepository.fetchPortfolio()` reads a cache file first and falls back to the network. It then makes a best-effort write of the fetched bytes to the cache and decodes them.
- `CacheService` is a byte store keyed by file name. Here it is a class whose `files` map is updated in place, plus two fault conditions: files that cannot be read, and a directory that refuses writes. Without them the swallowed cache failures could not happen in the model.
- `NetworkService.fetchData` accepts a response only when it is HTTP with a status in `200..<300`. The URLSession round trip is an input value (`SessionReply`).
- `AppError` has a coarse hand-written `==` and a classification function `map`.
- `PortfolioViewModel` holds `holdings`, `state` (`idle`, `loading`, `loaded`, `error`) and `isSummaryExpanded`. `load()` replaces the holdings on success and keeps them on failure. The computed figures `currentValue`, `totalInvestment`, `totalPNL` and `todaysPNL` are the folds in module `Metrics`, applied to `holdings`.
- From the presentation layer: the percentage and colour arithmetic of `SummaryView.bind`, the expand state of `SummaryView`, and the row figures of `HoldingCell.configure(with:)`.

Prices are exact `real`s and quantities are unbounded `int`s. A call to the network is an input `reply: Result<Bytes, Thrown>`: the answer `network.fetchData(from:)` would give if it were called. `FetchPortfolio` reports through `networkCalled` whether that answer was used. The two JSON decoders are passed in as function values (`Decoder`). The cache path's plain decoder and the network path's snake_case decoder stay separate.

Module per source file: `Model` (Holding.swift, PortfolioResponse.swift), `AppErrors`, `NetworkService`, `Cache`, `Repository`, `Metrics` and `ViewModel` (PortfolioViewModel.swift), `Summary`, `Cell`, `Presentation` (the colour rule that both views share), and `Wrappers` (Option and Result).

Two facts about the code shape the error model:

- `AppError` declares a `map` classifier, but `fetchPortfolio()` and `load()` pass on the raw thrown error and never call `map`. `State.Error` therefore carries a `Thrown`.
- `AppError` declares `server(statusCode:)`, but a non-2xx status throws `URLError(.badServerResponse)`. So `server` is never produced on this path.

## Model

| member | source | states |
|---|---|---|
| AppErrors.Equals | Stocks/Network/AppError.swift:29-44 | two errors are equal exactly when their case tags agree and, for `server`, their status codes agree; payloads of other cases are ignored |
| AppErrors.Map | Stocks/Network/AppError.swift:19-27 | a URLError becomes `network` and a DecodingError becomes `decoding`, each wrapping the original error; anything else becomes `unknown`; `server`, `noData` and `cache` are never produced |
| AppErrors.PayloadIgnored | Stocks/Network/AppError.swift:31-36 | any two `network` errors are equal whatever their causes, and the same holds for `decoding` and for `cache` |
| AppErrors.ServerEqualsIff | Stocks/Network/AppError.swift:38-39 | `server(a) == server(b)` exactly when `a == b` |
| AppErrors.DifferentKindsNeverEqual | Stocks/Network/AppError.swift:41-42 | errors with different case tags are never equal |
| AppErrors.EqualsReflexive | Stocks/Network/AppError.swift:29-44 | every error equals itself |
| AppErrors.EqualsSymmetric | Stocks/Network/AppError.swift:29-44 | `==` is symmetric |
| AppErrors.EqualsTransitive | Stocks/Network/AppError.swift:29-44 | `==` is transitive |
| AppErrors.EqualsCoarserThanIdentity | Stocks/Network/AppError.swift:31-36 | two structurally different network errors (timed out, not connected) compare equal |
| NetworkService.FetchData | Stocks/Network/NetworkServiceType.swift:17-25 | a session error is rethrown unchanged; a received response is accepted exactly when it is HTTP with 200 ≤ status < 300, and then its body is returned verbatim; otherwise `URLError(.badServerResponse)` is thrown |
| NetworkService.StatusBoundaries | Stocks/Network/NetworkServiceType.swift:21 | status 200 and 299 are accepted; 199, 300 and a non-HTTP response are rejected |
| NetworkService.RejectionIsNetworkError | Stocks/Network/NetworkServiceType.swift:21-22 | the error thrown for a rejected response is classified by `AppError.map` as `network` |
| Cache.SaveThenLoad | Stocks/Network/Cache/CacheServiceType.swift:28-36 | after a successful `save(d, f)`, `load(f)` returns exactly `d` |
| Cache.SaveThenExists | Stocks/Network/Cache/CacheServiceType.swift:28-41 | after a successful `save(d, f)`, `exists(f)` holds |
| Cache.SaveReplaces | Stocks/Network/Cache/CacheServiceType.swift:28-31 | a save replaces the previous entry wholesale: the directory afterwards does not depend on the old contents of `f` |
| Cache.SaveKeepsOthers | Stocks/Network/Cache/CacheServiceType.swift:28-31 | a save, successful or not, leaves `load` and `exists` of every other file name unchanged |
| Cache.FailedSaveChangesNothing | Stocks/Network/Cache/CacheServiceType.swift:30 | a refused atomic write throws and leaves the directory as it was |
| Cache.LoadAbsentFails | Stocks/Network/Cache/CacheServiceType.swift:33-36 | loading an absent file name throws |
| Cache.CacheService.constructor | Stocks/Network/Cache/CacheServiceType.swift:20-26 | the service starts over the given directory contents |
| Cache.CacheService.Save | Stocks/Network/Cache/CacheServiceType.swift:28-31 | throws exactly when the directory refuses writes, and then changes nothing; otherwise the entry for the file name becomes the data and nothing else changes |
| Cache.CacheService.Load | Stocks/Network/Cache/CacheServiceType.swift:33-36 | succeeds exactly when the file exists and is readable, returning its bytes; reading changes nothing |
| Cache.CacheService.Exists | Stocks/Network/Cache/CacheServiceType.swift:38-41 | answers whether the file exists; never throws and changes nothing |
| Repository.CacheHit | Stocks/Network/PortfolioRepositoryType.swift:32-36 | when the cache entry exists, loads and decodes with the plain decoder, its `userHolding` is returned, the network is not asked and the cache is not written |
| Repository.CacheFailureFallsThrough | Stocks/Network/PortfolioRepositoryType.swift:32-40 | a load or decode failure on the cache path is swallowed: the result is the same as with no cache entry, and the network is asked |
| Repository.NetworkAskedOnlyOnMiss | Stocks/Network/PortfolioRepositoryType.swift:32-43 | the network is asked, at most once, exactly when the cache path fails; when it is not asked the reply has no influence |
| Repository.NetworkFailurePropagates | Stocks/Network/PortfolioRepositoryType.swift:43 | a network failure reaches the caller as the raw thrown error, and the cache is untouched |
| Repository.FetchedBytesCached | Stocks/Network/PortfolioRepositoryType.swift:43-46 | on network success `portfolio_cache.json` holds exactly the fetched bytes, whatever the decode then does, and no other file changes |
| Repository.SaveFailureIrrelevant | Stocks/Network/PortfolioRepositoryType.swift:46 | whether the cache write succeeds or fails never changes the result |
| Repository.RejectedResponseFailsFetch | Stocks/Network/PortfolioRepositoryType.swift:43 | on a cache miss, a response that `fetchData` rejects makes the call throw `URLError(.badServerResponse)` with the cache unchanged |
| Repository.NetworkBytesDecodedSnake | Stocks/Network/PortfolioRepositoryType.swift:49-52 | network bytes are decoded with the snake_case decoder; its holdings are returned, or its failure is thrown as a DecodingError |
| Repository.PlainCacheMissesOwnWrites | Stocks/Network/PortfolioRepositoryType.swift:32-51 | a payload that only the snake_case decoder accepts is cached by one call but not served to the next: an offline second call fails with the network error |
| Repository.SnakeCacheServesOwnWrites | Stocks/Network/PortfolioRepositoryType.swift:32-51 | with the snake_case decoder on the cache path, the next call after a successful fetch returns the same holdings from the cache without asking the network |
| Repository.PortfolioRepository.constructor | Stocks/Network/PortfolioRepositoryType.swift:16-27 | the repository uses the given cache, the cache file `portfolio_cache.json` and the two decoders |
| Repository.PortfolioRepository.FetchPortfolio | Stocks/Network/PortfolioRepositoryType.swift:29-53 | the result, whether the network was asked, and the cache directory afterwards are those of `Fetch` on the directory before the call |
| Repository.CacheHitScenario | Stocks/Network/PortfolioRepositoryType.swift:32-36 | a cache entry holding one valid holding is returned without asking the network, even while offline |
| Repository.CorruptCacheScenario | Stocks/Network/PortfolioRepositoryType.swift:32-52 | a corrupt cache entry leads to one network call whose payload is decoded and returned; the entry is overwritten unless the write is refused, and either way the result is the same |
| Metrics.EmptyPortfolioIsZero | Stocks/ViewModel/PortfolioViewModel.swift:46-62 | with no holdings, all four figures are 0 |
| Metrics.SumAppend | Stocks/ViewModel/PortfolioViewModel.swift:46-52 | a figure of a concatenated list is the sum of the figures of its parts |
| Metrics.SumOfDifference | Stocks/ViewModel/PortfolioViewModel.swift:54-62 | folding a term-by-term difference gives the difference of the two folds |
| Metrics.ZeroCostMeansNoInvestment | Stocks/ViewModel/PortfolioViewModel.swift:50-52 | when every position's average price is 0, the total investment is 0 |
| Metrics.TodaysPNLAgainstClose | Stocks/ViewModel/PortfolioViewModel.swift:58-62 | today's P&L = current value − Σ close × quantity |
| Metrics.AppendOne | Stocks/ViewModel/PortfolioViewModel.swift:46-62 | appending a holding adds its ltp×qty, avgPrice×qty, (ltp−avgPrice)×qty and (ltp−close)×qty to the four figures |
| Metrics.TwoHoldingsExample | StocksTests/PortfolioViewModelTests.swift:38-63 | AAA(2,150,120,140) and BBB(1,50,40,45) give 350 / 280 / 70 / 25 |
| Metrics.ZeroInvestmentExample | StocksTests/PortfolioViewModelTests.swift:111-124 | FREE(5,120,0,100) gives 600 / 0 / 600 / 100 |
| Metrics.LossExample | StocksTests/PortfolioViewModelTests.swift:98-109 | LOSS(2,50,100,90) gives a total P&L of −100 and a P&L for today of −80 |
| Summary.Bind | Stocks/Views/SummaryView.swift:103-114 | the figures are shown as given; the percentage is 0 when the investment is 0, and otherwise satisfies percent × investment = total × 100; the colour is green exactly when total ≥ 0 |
| Summary.PercentAgreesWithColour | Stocks/Views/SummaryView.swift:108-113 | with a positive investment the colour is green exactly when the percentage is not negative |
| Summary.ZeroCostPortfolioShowsZeroPercent | Stocks/Views/SummaryView.swift:109 | a portfolio whose average prices are all 0 shows 0%, never a division by zero |
| Summary.ExampleSummaries | Stocks/Views/SummaryView.swift:103-113 | the test portfolios show 25% (AAA+BBB); 600 / 0 / 100 / 600 with 0% in green (FREE); and red (LOSS) |
| Summary.SummaryView.constructor | Stocks/Views/SummaryView.swift:24-86 | the view starts collapsed with the details hidden |
| Summary.SummaryView.SetExpanded | Stocks/Views/SummaryView.swift:121-135 | `isExpanded` becomes the argument whatever `animated` is, and the details are hidden exactly when not expanded |
| Summary.SummaryView.Toggle | Stocks/Views/SummaryView.swift:116-119 | flips `isExpanded` and reports the new value to `onToggle` |
| Cell.Configure | Stocks/Views/HoldingCell.swift:97-111 | the row shows the symbol verbatim, the quantity and ltp; its P&L is the position's value minus its cost, 0 for a zero quantity, and is green exactly when ≥ 0 |
| Cell.RowsAddUpToTotalPNL | Stocks/Views/HoldingCell.swift:106 | the row P&Ls summed over the holdings equal the view model's total P&L |
| ViewModel.PortfolioViewModel.constructor | Stocks/ViewModel/PortfolioViewModel.swift:23-31 | a new view model has no holdings, state `idle` and the summary collapsed |
| ViewModel.PortfolioViewModel.Load | Stocks/ViewModel/PortfolioViewModel.swift:34-43 | on success the holdings become exactly the fetched list and the state is `loaded`; on failure the state is `error` with the thrown error and the holdings are unchanged; `isSummaryExpanded` never changes |
| ViewModel.OfflineFirstLoad | StocksTests/PortfolioViewModelTests.swift:65-82 | a first load with no cache and no connection ends in `error(URLError)` with empty holdings |
| ViewModel.FirstLoadOnline | StocksTests/PortfolioViewModelTests.swift:38-63 | a first load that fetches AAA and BBB ends `loaded` with exactly those two holdings and the figures 350 / 280 / 70 / 25 |
| ViewModel.ReloadFailureKeepsHoldings | Stocks/ViewModel/PortfolioViewModel.swift:34-43 | a failed reload after a successful load keeps the loaded holdings and reports the error |

## Findings

| source | as written | input that shows it | evidently intended | confidence | as-written member | corrected member |
|---|---|---|---|---|---|---|
| Stocks/Network/PortfolioRepositoryType.swift:35 | the cache is read with a plain `JSONDecoder`, but the bytes written to it at line 46 are the network payload, which lines 49-51 decode with `.convertFromSnakeCase` | a snake_case payload such as `{"data":{"user_holding":[{"symbol":"TST","quantity":1,"ltp":100,"avg_price":80,"close":90}]}}`, fetched once, then a second call while offline: the plain decode fails on `userHolding`, the network fails, and the call throws although the cache holds a good payload | the cache path decodes with the same snake_case strategy, so a cached payload is served | medium, not executed; it depends on the endpoint serving snake_case keys, as the network decoder's configuration implies | Repository.PlainCacheMissesOwnWrites | Repository.SnakeCacheServesOwnWrites |

The repository is parameterised by its two decoders, so `Fetch` covers both the code as written (`decodePlain` on the cache path) and the corrected configuration (the snake_case decoder on both paths). The scenarios in `Repository` use the as-written wiring: a plain decoder on the cache path and a separate snake_case decoder on the network path.

## Left out

- URLSession I/O, the 20-second request timeout and the endpoint URL: the session's answer is the input `SessionReply`, and the repository's network answer is the input `reply`.
- JSON parsing, Codable synthesis and key conversion: library behaviour, modelled as the injected `Decoder` functions.
- FileManager, the caches-directory lookup and the atomicity of `.atomic` writes under concurrency: the directory is a map. Write and read failures are the `readOnly` and `unreadable` conditions. Only the fault codes the model needs are represented.
- The repository builds its own `CacheService()` over the platform caches directory. Here the service is passed to the constructor and stands for that directory.
- The `PortfolioRepositoryType` and `NetworkServiceType` protocols and the tests' `MockRepo`: Dafny traits are not used. The view model holds a concrete `PortfolioRepository`, and the test scenarios choose its decoders and network reply instead of a mock.
- `async`, `@MainActor` and Combine `@Published`: `load()` runs to completion. The transient `loading` state is assigned but cannot be seen by an observer. The race between overlapping `load()` calls is not modelled.
- `Double` arithmetic: exact reals replace it, and the tests' 0.001 tolerances are dropped. The `%.2f` and "₹" label formatting is dropped; the cell and summary carry the numbers.
- `onToggle` is optional in the source. `Toggle` returns the value it would be called with.
- Layout, fonts, animation, the error alert, ViewController.swift and TopTabView.swift are out of scope.
