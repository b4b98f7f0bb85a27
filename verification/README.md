# Premier League player statistics scrapper — a Dafny model

This project models the core of a small Node.js scrapper. The scrapper pages
through the Premier League statistics API's ranked "goals" listing and
flattens each raw record into `{rank, name, nationality, goals}`. It exports
the players sorted by rank, then rolls them up per nationality (best and
worst rank, best and worst goals, player count, goal total) and exports
those aggregates sorted by name.

Modules:

- `Wrappers` (`wrappers.dfy`): `Option` for `undefined`-able values, and `Result` for the `{err}` envelopes.
- `PremierApi` (`premier_api.dfy`): raw records, server responses, `getApiResults`, `flattenResult` and `getPlayersStats`. The HTTP layer is an oracle `server: nat -> Response` from page index to response.
- `PremierApiProperties`: pagination, error and normalisation properties.
- `NationalityStats` (`nationality_stats.dfy`): the `mapStats` reducer and the left fold `reduce(mapStats, {})`.
- `NationalityStatsProperties`: what the fold computes from `{}` (keys, totals, extremes), commutation of two fold steps, and invariance of the fold under permutation of the players.
- `Ordering`: `Array.prototype.sort` as a stable insertion sort with a comparator, and lexicographic string order.
- `StatsScrapper`: the `sortByRank` and `sortByName` comparators, `Object.values`, and `exportStats` as a method. Its two exporters are opaque functions that return `Written` or `Failed(reason)`.
- `Scenarios`: the concrete values pinned by the repository's tests.

Where the repository's tests expect something the code does not do, the model follows the code:

- The code has no "Nothing to export!" check on an empty player list, although `src/premier-stats-scrapper.test.js:28-33` expects one.
- It calls two exporters, one after the other, and stops after the first failure. `src/premier-stats-scrapper.test.js:35-42` instead expects a single `exportStatsToXLSX` call.
- `rank` and `value` default to 0 only when they are `undefined`, because that is how destructuring defaults work. A `null` or other falsy value would pass through unchanged.
- `mapStats` is not exported from its file, although the test imports it.

`exporter.service.js` as shipped defines only `exportStatsToXLSX`, but the scrapper calls `exportPlayersStats` and `exportNationalitiesStats`. The model treats both calls as opaque sinks.

## Model

| member | source | states |
|---|---|---|
| PremierApi.GetApiResults | src/premier-api.service.js:7-21 | Requests pages `page, page+1, …` consecutively. Every page before the last is well formed and announces a further page. The result is the last page's error (transport, or missing `pageInfo`/`content`); otherwise that page is final and the result is all requested contents concatenated in ascending page order |
| PremierApiProperties.FetchPassesContinuingPages | src/premier-api.service.js:14-17 | The fetch requests more than `k` pages when the first `k` pages are well formed and each announces a next page |
| PremierApiProperties.FetchStopsAtFirstFinalPage | src/premier-api.service.js:11-20 | The fetch requests exactly `k+1` pages when page `k` is the first that is malformed or reports no further page |
| PremierApiProperties.FirstErrorAbortsFetch | src/premier-api.service.js:11-16 | An error on any page reached is the result of the whole fetch and of `getPlayersStats`. Earlier pages' content is discarded: there is no partial success |
| PremierApiProperties.TransportErrorAbortsFetch | src/premier-api.service.js:9-16 | A transport error on any page reached becomes the fetch's error, with the message unchanged |
| PremierApiProperties.SinglePageFetch | src/premier-api.service.js:14-20 | When page 0 is well formed with `numPages <= 1` or missing, only page 0 is requested. Its content, even an empty list, is returned unchanged |
| PremierApiProperties.UniformPagesFetch | src/premier-api.service.js:14-17 | When pages report the same `numPages = k > 1`, exactly pages `0..k-1` are requested, in ascending order, and the result is their contents concatenated in page order |
| PremierApi.Flatten | src/premier-api.service.js:23-32 | Gives `Invalid result` exactly when `owner`, `owner.birth`, `owner.birth.country` or `owner.name` is absent. Otherwise `name = owner.name.display` and `nationality = owner.birth.country.country`; `rank` and `goals` copy `rank` and `value`, each 0 when absent |
| PremierApiProperties.FlattenEncode | src/premier-api.service.js:23-32 | Flattening a record built from a player gives back that player |
| PremierApi.ValidPlayers | src/premier-api.service.js:37 | Map-then-filter keeps at most as many entries as records. It keeps all of them exactly when every record has the required fields |
| PremierApiProperties.ValidPlayersMembership | src/premier-api.service.js:37 | A player is kept exactly when it is the flattening of some input record |
| PremierApiProperties.ValidPlayersAppend | src/premier-api.service.js:37 | The filter distributes over concatenation, so kept players stay in input order |
| PremierApiProperties.ValidPlayersOfContents | src/premier-api.service.js:37 | The players of concatenated pages are each page's valid players, in page order |
| PremierApi.GetPlayersStats | src/premier-api.service.js:34-38 | A fetch error is passed through unchanged. Otherwise the result is the valid flattened records, no more of them than raw records |
| PremierApiProperties.UniformPagesPlayers | src/premier-api.service.js:34-38 | Over `k > 1` uniform pages, `getPlayersStats` returns each page's valid players, page after page |
| Ordering.Insert | src/premier-stats-scrapper.js:48 | Insertion adds exactly one copy of the element and, for a total preorder, keeps the sequence sorted |
| Ordering.Sort | src/premier-stats-scrapper.js:48 | The sort returns a permutation of its input. For a total preorder comparator it is sorted |
| Ordering.LexLeTotal | src/premier-stats-scrapper.js:11-13 | Any two names are comparable |
| Ordering.LexLeTransitive | src/premier-stats-scrapper.js:11-13 | Name order is transitive |
| Ordering.LexLeAntisymmetric | src/premier-stats-scrapper.js:11-13 | Two names ordered both ways are equal |
| StatsScrapper.RankLeTotalPreorder | src/premier-stats-scrapper.js:7-9 | The rank comparator is a total preorder |
| StatsScrapper.NameLeTotalPreorder | src/premier-stats-scrapper.js:11-13 | The name comparator is a total preorder |
| StatsScrapper.SortByRank | src/premier-stats-scrapper.js:7-9 | The exported players are a permutation of the fetched ones, in ascending rank |
| StatsScrapper.SortByName | src/premier-stats-scrapper.js:11-13 | The aggregates are a permutation of the map's values, in ascending name |
| NationalityStats.MapStats | src/premier-stats-scrapper.js:15-37 | A player without a non-empty nationality leaves the map unchanged. Otherwise only its nationality's key is written: a new key gets best = worst = the player's rank and goals, 1 player and the player's goals; an existing key gets min/max ranks, max/min goals, one more player and the goals added. Well-formedness (name = key, best rank <= worst rank, worst goals <= best goals, at least one player) is preserved |
| NationalityStats.ReduceStats | src/premier-stats-scrapper.js:57 | The fold keeps every key it starts with and preserves well-formedness over any sequence of players |
| NationalityStatsProperties.ReduceKeys | src/premier-stats-scrapper.js:57 | Reducing from `{}` gives a key exactly for each non-empty nationality of some player |
| NationalityStatsProperties.ReduceTotals | src/premier-stats-scrapper.js:57 | Each key's `totalPlayers` is the number of its players and `totalGoals` the sum of their goals |
| NationalityStatsProperties.ReduceBounds | src/premier-stats-scrapper.js:57 | Each player's rank lies between its nationality's best and worst rank, and its goals between worst and best goals |
| NationalityStatsProperties.ReduceAttained | src/premier-stats-scrapper.js:57 | Each of the four extremes is attained by a player of that nationality, so the extremes are exactly the min and max |
| NationalityStatsProperties.MapStatsCommuteSameKey | src/premier-stats-scrapper.js:26-34 | Two players of one nationality can be folded in either order |
| NationalityStatsProperties.MapStatsCommuteOtherKeys | src/premier-stats-scrapper.js:26-34 | Two players of different nationalities can be folded in either order |
| NationalityStatsProperties.MapStatsCommute | src/premier-stats-scrapper.js:15-37 | Any two players can be folded in either order |
| NationalityStatsProperties.ReduceMoveToEnd | src/premier-stats-scrapper.js:57 | Moving one player to the end of the list does not change the fold |
| NationalityStatsProperties.ReducePermutation | src/premier-stats-scrapper.js:57 | The fold depends only on the multiset of players, so sorting before reducing does not change the aggregates |
| StatsScrapper.StatsValues | src/premier-stats-scrapper.js:58 | `Object.values` gives each key's value exactly once: the keys visited are all of the map's keys, each once, and the i-th value is the entry of the i-th key |
| StatsScrapper.SortedNationalities | src/premier-stats-scrapper.js:58 | The aggregates exported are one per key, each equal to its map entry and sorted by name |
| StatsScrapper.ExportStats | src/premier-stats-scrapper.js:39-71 | A fetch error ends the run with no export. The players exporter receives the fetched players sorted by rank, and its failure ends the run before the nationalities export. Otherwise the nationalities exporter receives, sorted by name, one aggregate per key of the fold over the fetched players; the run's end stage follows that exporter's result |
| Scenarios.FlattenScenarios | src/premier-api.service.test.js:298-335 | All the flattening examples of the tests: the two valid records with exact fields and 0 defaults, and all seven invalid shapes (`{}` through `{owner: {birth: {country: {}}}}`) |
| Scenarios.UnusableRecordsScenario | src/premier-api.service.test.js:58-84 | Records without the expected shape are all dropped, leaving `[]` |
| Scenarios.MapStatsScenarios | src/premier-stats-scrapper.test.js:126-187 | The reducer examples of the tests: first insertion, two updates of an existing entry, a player without nationality |
| Scenarios.SortScenario | src/premier-stats-scrapper.test.js:86-87 | `[Agüero, Vitor Feijão, Pelé, Maradona]` sorts by rank to `[Pelé, Maradona, Agüero, Vitor Feijão]` |
| Scenarios.ReduceScenario | src/premier-stats-scrapper.test.js:86-104 | The four players aggregate to the exact Argentina and Brazil entries of the test |
| Scenarios.ThreePagesScenario | src/premier-api.service.test.js:281-290 | Three pages announcing `numPages = 3` are requested as 0, 1, 2 and concatenated in order |
| Scenarios.FailingSecondPageScenario | src/premier-api.service.js:14-16 | Page 0 announcing two pages, then a transport failure on page 1, gives that failure, from the fetch and from `getPlayersStats` |

## Left out

- The HTTP request wrapper (superagent) is left out. It is replaced by the page oracle `server`.
- The URL and header construction (`premier-api.service.js:3-5`) is left out. Only the page index reaches the oracle.
- `console.log` and `console.error` logging, the async/await plumbing and the process bootstrap with its exit codes are left out. Every call is sequential and pure.
- The spreadsheet writer is left out. Each exporter is an opaque function of the collection it receives, returning `Written` or `Failed(reason)`. The field-name lists passed alongside the collections are not modelled.
- `PremierApi.GetApiResults`: requires every page's reported `numPages` to be at most a bound, as a termination measure. The source would recurse forever against a server that keeps announcing more pages.
- JavaScript values outside the declared shapes are not modelled, because the core only reads the documented fields. This covers `null` fields, where destructuring throws; non-numeric `numPages`, `rank` or `value`; and `NaN`. A missing `numPages` means "no further page", as the comparison with `undefined - 1` is false.
- `localeCompare` is modelled as lexicographic order on character codes, because locale collation tables are outside the model.
- `StatsScrapper.SortByRank`: states that the result is a sorted permutation, not the stability of `Array.prototype.sort` among equal ranks. The modelled sort is stable, but no lemma states it.
- `NationalityStats.MapStats`: keys are looked up in a Dafny map, so inherited object properties are not modelled. On a plain JavaScript object, a nationality spelled like one of those (`constructor`, for example) would read an inherited value.
- The tests' expectations that contradict the code are not modelled, because the code never produces them. They are a "Nothing to export!" error, a single `exportStatsToXLSX` call, an exported `mapStats`, a returned `result.err` (`src/premier-stats-scrapper.test.js:25`, `:41`) and a returned `'OK'` (`:60`, `:81`, `:110`).
- StatsScrapper.ExportStats: the source's `exportStats` resolves to `undefined` on every handled path (`src/premier-stats-scrapper.js:44`, `:52`, `:67` and the fall-through at `:71`), and `index.js` then exits with code 0 even after a logged failure. The model's `Run.stage`, including `FetchFailed(error)`, records which of those branches ran; it is not a value the source returns. As shipped, the call at `src/premier-stats-scrapper.js:48` throws a `TypeError`: `exportPlayersStats` (and `exportNationalitiesStats`) are `undefined` because `src/exporter.service.js:16-18` exports only `exportStatsToXLSX`. The run therefore rejects and `index.js:6-8` exits with code 1 before any export. Reading `.err` on an exporter that settles to `undefined` or `null` would throw the same way. The model's exporter parameters stand for exporters that exist and settle to a value (`Written` or `Failed(reason)`); neither the missing exports nor those throws are modelled.
