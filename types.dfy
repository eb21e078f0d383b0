/**
 * The records of types/bridge.ts. A TypeScript optional property (`x?: T`)
 * and a nullable one (`T | null`) are both an `Option<T>`; a string-literal
 * union is a datatype with one constructor per literal, and the literal
 * itself is given back by a `...Literal` function, since the pages compare
 * statuses with string equality.
 */
module Types {

  datatype Option<+T> = None | Some(value: T)

  /** `"active" | "paused" | "inactive"` */
  datatype BridgeStatus = Active | Paused | Inactive

  /** `"active" | "limited"` */
  datatype ChainStatus = ChainActive | Limited

  function BridgeStatusLiteral(s: BridgeStatus): (r: string)
    ensures r == "active" || r == "paused" || r == "inactive"
    ensures r == "paused" <==> s == Paused
    ensures r == "active" <==> s == Active
  {
    match s
    case Active => "active"
    case Paused => "paused"
    case Inactive => "inactive"
  }

  function ChainStatusLiteral(s: ChainStatus): (r: string)
    ensures r == "active" || r == "limited"
    ensures r == "active" <==> s == ChainActive
  {
    match s
    case ChainActive => "active"
    case Limited => "limited"
  }

  /** A cross-chain bridge protocol. */
  datatype Bridge = Bridge(
    id: string,
    name: string,
    status: BridgeStatus,
    fromChains: seq<string>,
    toChains: seq<string>,
    supportedTokens: seq<string>,
    transferSpeed: string,
    fee: string,
    link: string,
    tvl: Option<string>,
    volume24h: Option<string>,
    lastUpdated: Option<string>)

  /** A blockchain network and its statistics. */
  datatype ChainData = ChainData(
    id: string,
    name: string,
    icon: string,
    bridges: int,
    totalTVL: string,
    marketShare: real,
    volume24h: string,
    status: ChainStatus,
    lastUpdated: Option<string>)

  /** The `topDestination` object of a market summary. */
  datatype TopDestination = TopDestination(name: string, percentage: string)

  /** Aggregated market statistics. */
  datatype MarketSummary = MarketSummary(
    totalTVL: string,
    totalVolume: string,
    activeBridges: int,
    pausedBridges: Option<int>,
    inactiveBridges: Option<int>,
    topDestination: Option<TopDestination>)

  /** The envelope every endpoint answers with. */
  datatype ApiResponse<T> = ApiResponse(
    data: T,
    success: bool,
    lastUpdated: string,
    error: Option<string>)
}
