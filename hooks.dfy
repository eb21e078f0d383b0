/**
 * The three data hooks. Each keeps one `LoadState.Resource`, fetches once
 * on mount, and offers `refreshData`, which runs the same fetch again.
 * They differ in the kind of value, its initial value and the message used
 * when a failed envelope carries none.
 */

/** hooks/useBridges.ts */
module BridgesHook {
  import opened Types
  import opened LoadState

  const FailureMessage := "Failed to fetch bridges"

  /** The state `useBridges` starts with: no bridges, loading, no error, never updated. */
  method UseBridges() returns (h: Resource<seq<Bridge>>)
    ensures fresh(h)
    ensures h.State() == Snapshot([], true, None, None)
  {
    h := new Resource([]);
  }

  /** `fetchBridges` */
  method FetchBridges(h: Resource<seq<Bridge>>, outcome: Outcome<seq<Bridge>>)
    modifies h
    ensures h.State() == Fetched(old(h.State()), outcome, FailureMessage)
  {
    h.Fetch(outcome, FailureMessage);
  }

  /** `refreshData`: exactly the effect of `fetchBridges`. */
  method RefreshData(h: Resource<seq<Bridge>>, outcome: Outcome<seq<Bridge>>)
    modifies h
    ensures h.State() == Fetched(old(h.State()), outcome, FailureMessage)
  {
    FetchBridges(h, outcome);
  }
}

/** hooks/useChains.ts */
module ChainsHook {
  import opened Types
  import opened LoadState

  const FailureMessage := "Failed to fetch chains"

  /** The state `useChains` starts with: no chains, loading, no error, never updated. */
  method UseChains() returns (h: Resource<seq<ChainData>>)
    ensures fresh(h)
    ensures h.State() == Snapshot([], true, None, None)
  {
    h := new Resource([]);
  }

  /** `fetchChains` */
  method FetchChains(h: Resource<seq<ChainData>>, outcome: Outcome<seq<ChainData>>)
    modifies h
    ensures h.State() == Fetched(old(h.State()), outcome, FailureMessage)
  {
    h.Fetch(outcome, FailureMessage);
  }

  /** `refreshData`: exactly the effect of `fetchChains`. */
  method RefreshData(h: Resource<seq<ChainData>>, outcome: Outcome<seq<ChainData>>)
    modifies h
    ensures h.State() == Fetched(old(h.State()), outcome, FailureMessage)
  {
    FetchChains(h, outcome);
  }
}

/**
 * hooks/useMarketSummary.ts. The stored value is `MarketSummary | null`
 * while the envelope carries a `MarketSummary`, so a successful envelope is
 * stored as `Some` of its data.
 */
module MarketSummaryHook {
  import opened Types
  import opened LoadState

  const FailureMessage := "Failed to fetch market summary"

  /** The envelope with its data seen as a `MarketSummary | null`. */
  function Lift(outcome: Outcome<MarketSummary>): (r: Outcome<Option<MarketSummary>>)
    ensures r.Returned? <==> outcome.Returned?
    ensures r.Returned? ==> var (a, b) := (r.response, outcome.response);
      a.data == Some(b.data) && a.success == b.success && a.lastUpdated == b.lastUpdated && a.error == b.error
    ensures r.Threw? ==> r.thrown == outcome.thrown
  {
    match outcome
    case Returned(response) =>
      Returned(ApiResponse(Some(response.data), response.success, response.lastUpdated, response.error))
    case Threw(thrown) => Threw(thrown)
  }

  /** The state `useMarketSummary` starts with: no summary, loading, no error, never updated. */
  method UseMarketSummary() returns (h: Resource<Option<MarketSummary>>)
    ensures fresh(h)
    ensures h.State() == Snapshot(None, true, None, None)
  {
    h := new Resource(None);
  }

  /** `fetchMarketSummary` */
  method FetchMarketSummary(h: Resource<Option<MarketSummary>>, outcome: Outcome<MarketSummary>)
    modifies h
    ensures h.State() == Fetched(old(h.State()), Lift(outcome), FailureMessage)
  {
    h.Fetch(Lift(outcome), FailureMessage);
  }

  /** `refreshData`: exactly the effect of `fetchMarketSummary`. */
  method RefreshData(h: Resource<Option<MarketSummary>>, outcome: Outcome<MarketSummary>)
    modifies h
    ensures h.State() == Fetched(old(h.State()), Lift(outcome), FailureMessage)
  {
    FetchMarketSummary(h, outcome);
  }

  /**
   * After a fetch the summary is the envelope's one if the envelope was
   * successful, and otherwise the previous one; an error is recorded exactly
   * when the envelope was not successful or the call threw.
   */
  lemma SummaryAfterFetch(s: Snapshot<Option<MarketSummary>>, outcome: Outcome<MarketSummary>)
    ensures var t := Fetched(s, Lift(outcome), FailureMessage);
      && !t.loading
      && (outcome.Returned? && outcome.response.success ==> t.data == Some(outcome.response.data) && t.error.None?)
      && (!(outcome.Returned? && outcome.response.success) ==> t.data == s.data && t.error.Some?)
  {
  }
}
