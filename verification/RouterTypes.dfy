/** The records the Pathfinder router works on (pathfinder/router/types.go). */
module RouterTypes {

  type ChainId = string
  type Denom = string

  datatype Option<+T> = None | Some(value: T)

  datatype TokenInfo = TokenInfo(
    chainDenom: Denom,     // denom on the chain the route leaves from
    ibcDenom: Denom,       // denom after the transfer
    baseDenom: Denom,
    originChain: ChainId,
    symbol: string,
    decimals: int)

  datatype BasicRoute = BasicRoute(
    toChain: string,
    toChainId: ChainId,
    connectionId: string,
    channelId: string,
    portId: string,
    allowedTokens: map<Denom, TokenInfo>)

  datatype PathfinderChain = PathfinderChain(
    name: string,
    id: ChainId,
    hasPFM: bool,
    broker: bool,
    brokerId: string,
    ibcHooksContract: string,
    bech32Prefix: string,
    nativeTokens: seq<TokenInfo>,
    routes: seq<BasicRoute>)

  datatype RouteRequest = RouteRequest(
    chainFrom: ChainId,
    tokenFromDenom: Denom,
    amountIn: string,
    chainTo: ChainId,
    tokenToDenom: Denom,
    senderAddress: string,
    receiverAddress: string,
    smartRoute: Option<bool>,
    slippageBps: Option<nat>)

  /** Go's two-level map read: a missing outer or inner key is the nil pointer. */
  function Lookup<K, V>(m: map<K, V>, k: K): Option<V> {
    if k in m then Some(m[k]) else None
  }

  function Lookup2<K, L, V>(m: map<K, map<L, V>>, k: K, l: L): Option<V> {
    if k in m && l in m[k] then Some(m[k][l]) else None
  }
}
