# FindBridge in Dafny

FindBridge is a dashboard that lists cross-chain bridge protocols and blockchain
networks. This project models its client-side logic and proves properties of it:

- **Bridge listing** (`app/page.tsx`):
  - the sorted, duplicate-free list of chain names offered in the "From" and "To" drop-downs;
  - the bridge filter, which combines a case-insensitive search with the two chain drop-downs;
  - the number of paused bridges;
  - the plural of the result count.
- **Chain listing** (`app/chains/page.tsx`):
  - the name search;
  - the sum of the chains' TVL strings, each converted to millions;
  - the number of active chains.
- **Data hooks** (`hooks/useBridges.ts`, `hooks/useChains.ts`, `hooks/useMarketSummary.ts`):
  each hook runs the same load-state machine over `data` / `loading` / `error` / `lastUpdated`.
- **Records** (`types/bridge.ts`): `Bridge`, `ChainData`, `MarketSummary` and the
  `ApiResponse<T>` envelope become datatypes. Optional and nullable fields become `Option`.
  String-literal unions become enumerations.

Files and modules:

| file | module | models |
|---|---|---|
| `types.dfy` | `Types` | the records of `types/bridge.ts` |
| `seqs.dfy` | `Seqs` | `Array.prototype.filter`, counting, subsequences, duplicate-freedom |
| `text.dfy` | `Text` | `toLowerCase` on ASCII letters, `includes`, the default string order of `sort` |
| `sorting.dfy` | `Sorting` | `sort()` on strings, as an insertion sort |
| `bridges_page.dfy` | `BridgesPage` | `app/page.tsx` |
| `chains_page.dfy` | `ChainsPage` | `app/chains/page.tsx` |
| `load_state.dfy` | `LoadState` | the state machine the three hooks share, as spec functions and the class `Resource` |
| `hooks.dfy` | `BridgesHook`, `ChainsHook`, `MarketSummaryHook` | the three hooks |

The chain list is built as the source builds it. A loop over the bridges adds each bridge's
`fromChains` and then its `toChains` to a `Set`. The set is kept as its members in insertion
order. The result is then sorted. `AllChains` proves that the result is strictly increasing,
so it has no duplicates, and that it holds exactly the chains some bridge names.
`StrictlySortedUnique` shows that these two facts fix the result completely.

The hook state lives in the fields of a `Resource` object. Its methods `Begin`, `CompleteOk`
and `CompleteThrow` make the assignments the hooks make, in the same order. The `finally`
clause is the last assignment of both completion methods. Each method's postcondition gives
the new state as a function of the old one. `Fetched` is the whole fetch. Its postcondition
says four things:
- `loading` is false on every path;
- `error` is null exactly when a successful envelope came back;
- a successful envelope replaces the data and the timestamp;
- every other path keeps the data and the timestamp.

The page puts a `B` after the combined TVL, but the sum is in millions: the code does not
divide it by 1000 (app/chains/page.tsx:183). `ChainsPage.TotalTvl` is that sum in millions;
`TotalTvlExample` proves that "$1B" plus "$500M" comes to 1500.

## Model

| member | source | states |
|---|---|---|
| `Types.BridgeStatusLiteral` | types/bridge.ts:10 | a bridge status is exactly one of "active", "paused", "inactive"; the literal is "paused" exactly for the paused status |
| `Types.ChainStatusLiteral` | types/bridge.ts:36 | a chain status is exactly one of "active", "limited"; the literal is "active" exactly for the active status |
| `Seqs.Filter` | app/page.tsx:42 | `filter` keeps an order-preserving subsequence; everything kept passes the predicate; each passing element is kept as often as it occurs |
| `Seqs.Count` | app/page.tsx:194 | the passing count is at most the length; it equals the length iff all pass, and is 0 iff none pass |
| `Seqs.FilterLength` | app/page.tsx:194 | the length of a filtered array is the number of elements that pass |
| `Seqs.FilterIdempotent` | app/chains/page.tsx:20 | filtering twice by the same predicate is filtering once |
| `Text.LowerChar` | app/page.tsx:45 | lower-casing leaves no capital letter and changes only capital letters |
| `Text.Lower` | app/page.tsx:45 | `toLowerCase` keeps the length, replaces each capital letter by its small letter (`LowerChar`), leaves no capital letter and keeps every other character |
| `Text.IncludesIff` | app/page.tsx:45 | `includes(t)` holds iff `t` occurs as a slice at some position |
| `Text.IncludesEmpty` | app/chains/page.tsx:17 | the empty string is included in every string |
| `Text.IncludesChar` | app/chains/page.tsx:21 | `includes("B")` holds iff the character `B` occurs |
| `Text.LessIrreflexive` | app/page.tsx:37 | no string sorts before itself |
| `Text.LessTransitive` | app/page.tsx:37 | the string order of `sort` is transitive |
| `Text.LessTotal` | app/page.tsx:37 | two different strings are ordered one way or the other |
| `Sorting.Insert` | app/page.tsx:37 | inserting into a sorted sequence keeps it sorted and adds exactly that one string |
| `Sorting.Sort` | app/page.tsx:37 | `sort()` returns a sorted permutation of its input |
| `Sorting.SortDistinct` | app/page.tsx:37 | sorting pairwise-different strings gives a strictly increasing sequence of the same strings |
| `Sorting.StrictlySortedUnique` | app/page.tsx:37 | two strictly increasing sequences with the same strings are equal |
| `BridgesPage.SetAdd` | app/page.tsx:34-35 | `Set.add` keeps the members duplicate-free and adds exactly the new name |
| `BridgesPage.AllChains` | app/page.tsx:31-38 | `allChains` is strictly increasing, has no duplicates, holds a name iff some bridge names it in `fromChains` or `toChains`, and is empty for no bridges |
| `BridgesPage.AllChainsExample` | app/page.tsx:31-38 | bridges B→A and A→C give exactly ["A", "B", "C"] |
| `BridgesPage.FilteredBridges` | app/page.tsx:41-57 | `filteredBridges` is an order-preserving subsequence of `bridges`; it holds only bridges that pass all three criteria, and every passing bridge as often as it occurs |
| `BridgesPage.NoCriteriaKeepsAll` | app/page.tsx:44-51 | an empty term with both drop-downs on "all" shows every bridge |
| `BridgesPage.SearchIff` | app/page.tsx:43-46 | a bridge passes the search iff the lower-cased term occurs in its lower-cased name or in one of its lower-cased tokens |
| `BridgesPage.SearchIgnoresCase` | app/page.tsx:45-46 | a term and its lower-cased form select the same bridges |
| `BridgesPage.SearchExample` | app/page.tsx:43-46 | "Across" is found by "across", "ACROSS" and "cro" |
| `BridgesPage.ChainCriteriaSymmetric` | app/page.tsx:48-53 | both drop-downs accept a chain iff it is "all" or on either side of the bridge |
| `BridgesPage.SwapChainsSameResult` | app/page.tsx:48-55 | exchanging the "From" and "To" selections does not change the result |
| `BridgesPage.PausedCount` | app/page.tsx:194 | the paused figure counts the bridges with status "paused"; it is at most the number of bridges and 0 iff none is paused |
| `BridgesPage.BridgeNoun` | app/page.tsx:313 | the noun is "bridge" exactly for a count of one, and "bridges" otherwise |
| `ChainsPage.FilteredChains` | app/chains/page.tsx:17 | `filteredChains` is an order-preserving subsequence of `chains`; it keeps exactly the chains whose lower-cased name contains the lower-cased term |
| `ChainsPage.EmptySearchKeepsAll` | app/chains/page.tsx:17 | an empty term keeps every chain |
| `ChainsPage.ChainSearchIgnoresCase` | app/chains/page.tsx:17 | a term and its lower-cased form select the same chains |
| `ChainsPage.StripUnits` | app/chains/page.tsx:20 | stripping removes every `$`, `B` and `M` and keeps every other character, in order |
| `ChainsPage.StripIdempotent` | app/chains/page.tsx:20 | stripping a stripped string changes nothing |
| `ChainsPage.Multiplier` | app/chains/page.tsx:21 | the multiplier is 1000 iff the string contains `B`, and 1 iff it does not |
| `ChainsPage.ChainTvl` | app/chains/page.tsx:20-22 | one chain's TVL: the parsed value of `totalTVL` with `$`, `B` and `M` removed, times 1000 when `totalTVL` contains `B` and times 1 otherwise |
| `ChainsPage.TotalTvl` | app/chains/page.tsx:19-23 | a left fold from 0 of each chain's parsed, unit-stripped value times its multiplier: 0 for no chains, and never negative when no chain's value is negative |
| `ChainsPage.TotalTvlFirst` | app/chains/page.tsx:19-23 | the left fold equals the first chain's value plus the fold over the rest |
| `ChainsPage.TotalTvlAppend` | app/chains/page.tsx:19-23 | the fold over `a + b` is the fold over `a` plus the fold over `b` |
| `ChainsPage.TotalTvlSmall` | app/chains/page.tsx:19-23 | the fold over no chains is 0; over one chain it is that chain's value in millions |
| `ChainsPage.TotalTvlExample` | app/chains/page.tsx:19-23 | "$1B" and "$500M" add up to 1500 millions |
| `ChainsPage.ActiveCount` | app/chains/page.tsx:196 | the active figure counts the chains with status "active"; it is at most the number of chains, and equal to it iff all are active |
| `ChainsPage.ActivePlusLimited` | app/chains/page.tsx:171-196 | the active chains and the limited chains together make up the "Total Chains" figure |
| `LoadState.Initial` | hooks/useBridges.ts:18-21 | a hook starts loading, with no error and no timestamp |
| `LoadState.EnvelopeError` | hooks/useBridges.ts:37 | a failed envelope's error is used unless it is missing or empty; otherwise the hook's default message is used |
| `LoadState.ThrownError` | hooks/useBridges.ts:40 | a thrown `Error` gives its message; any other thrown value gives "Unknown error occurred" |
| `LoadState.Started` | hooks/useBridges.ts:29-30 | once a fetch begins, `loading` is true and `error` is null; data and timestamp are kept |
| `LoadState.Responded` | hooks/useBridges.ts:33-42 | a success envelope sets the data and the timestamp and leaves the error alone; a failure envelope sets the error and keeps the data and the timestamp; `loading` ends false |
| `LoadState.Caught` | hooks/useBridges.ts:39-42 | a thrown value sets the error, keeps the data and the timestamp, and `loading` ends false |
| `LoadState.Fetched` | hooks/useBridges.ts:27-44 | after a fetch `loading` is false; `error` is null iff a success envelope came back; success sets the data and timestamp, every other path keeps them |
| `LoadState.FetchedForgetsError` | hooks/useBridges.ts:29-30 | the result of a fetch does not depend on the error or the loading flag it starts from |
| `LoadState.FetchedIdempotent` | hooks/useBridges.ts:27-44 | fetching again with the same outcome changes nothing further |
| `LoadState.Resource.constructor` | hooks/useBridges.ts:18-21 | the fields start as the `useState` initialisers set them |
| `LoadState.Resource.Begin` | hooks/useBridges.ts:29-30 | the fields become `Started` of their old values |
| `LoadState.Resource.CompleteOk` | hooks/useBridges.ts:33-42 | the fields become `Responded` of their old values and the envelope |
| `LoadState.Resource.CompleteThrow` | hooks/useBridges.ts:39-42 | the fields become `Caught` of their old values and the thrown value |
| `LoadState.Resource.Fetch` | hooks/useBridges.ts:27-44 | the fields become `Fetched` of their old values and the outcome |
| `BridgesHook.UseBridges` | hooks/useBridges.ts:18-21 | initially `bridges = []`, `loading = true`, `error = null`, `lastUpdated = null` |
| `BridgesHook.FetchBridges` | hooks/useBridges.ts:27-44 | `fetchBridges` is `Fetched` with the default message "Failed to fetch bridges" |
| `BridgesHook.RefreshData` | hooks/useBridges.ts:50-52 | `refreshData` has exactly the effect of `fetchBridges` |
| `ChainsHook.UseChains` | hooks/useChains.ts:8-11 | initially `chains = []`, `loading = true`, `error = null`, `lastUpdated = null` |
| `ChainsHook.FetchChains` | hooks/useChains.ts:13-30 | `fetchChains` is `Fetched` with the default message "Failed to fetch chains" |
| `ChainsHook.RefreshData` | hooks/useChains.ts:32-34 | `refreshData` has exactly the effect of `fetchChains` |
| `MarketSummaryHook.Lift` | hooks/useMarketSummary.ts:33-35 | a summary envelope is stored as a non-null summary; the envelope is otherwise unchanged |
| `MarketSummaryHook.UseMarketSummary` | hooks/useMarketSummary.ts:18-21 | initially `marketSummary = null`, `loading = true`, `error = null`, `lastUpdated = null` |
| `MarketSummaryHook.FetchMarketSummary` | hooks/useMarketSummary.ts:27-44 | `fetchMarketSummary` is `Fetched` with the default message "Failed to fetch market summary" |
| `MarketSummaryHook.RefreshData` | hooks/useMarketSummary.ts:50-52 | `refreshData` has exactly the effect of `fetchMarketSummary` |
| `MarketSummaryHook.SummaryAfterFetch` | hooks/useMarketSummary.ts:33-43 | a success envelope gives its summary and no error; every other path keeps the previous summary and sets an error; `loading` ends false |

## Left out

- `Number.parseFloat` is the parameter `parse: string -> real`. NaN, floating-point rounding and the order-dependence of floating-point sums are not modelled.
- `toFixed(1)` and the display string of the combined TVL (app/chains/page.tsx:183) are not modelled: they are display formatting.
- The number before "bridge"/"bridges" (app/page.tsx:313) is not modelled: it is number formatting. Only the noun is.
- `Text.Lower`: lower-cases only the ASCII letters `A`–`Z`, while `toLowerCase` follows the full Unicode case mapping.
- `Text.Less`: compares Unicode scalar values, while JavaScript compares UTF-16 code units. The two orders differ only for characters outside the Basic Multilingual Plane.
- `Sorting.Sort`: stands for `Array.prototype.sort`, whose algorithm is the engine's own choice. For the duplicate-free input `allChains` sorts, every correct sort gives the same result (`StrictlySortedUnique`).
- The awaited API call is an input to the model: the envelope it returned or the value it threw. The client in lib/api.ts, the network and the route handlers (fixture data behind a delay) are not part of this model.
- React is not modelled: `useState` batching, `useEffect` running the first fetch on mount, and `useMemo`. The fetch on mount is `FetchBridges` / `FetchChains` / `FetchMarketSummary` applied to the initial state.
- The model does not capture concurrency: `Promise.all` in `handleRefresh` (app/page.tsx:59-61), two fetches of one hook in flight at once, and the last-to-finish-wins race between them. Each fetch runs to completion before the next starts.
- The JSX of the pages and of the components is not modelled: it is view templating.
