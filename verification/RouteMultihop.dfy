/** Routes through a broker with a swap (pathfinder/router/route_multihop.go). Every Go map range
    is a choice in any order; what is proved holds for each. */
module MultiHopRouting {
  import opened RouterTypes
  import opened RouteIndexing

  datatype MultiHopInfo = MultiHopInfo(
    brokerChain: string,
    brokerChainId: ChainId,
    inboundRoutes: seq<BasicRoute>,
    inboundPath: seq<ChainId>,
    outboundRoutes: seq<BasicRoute>,
    tokenIn: TokenInfo,
    tokenOut: TokenInfo,
    tokenOutOnBroker: TokenInfo,
    inboundIntermediateTokens: seq<TokenInfo>,
    intermediateTokens: seq<TokenInfo>,
    swapOnly: bool,
    sourceIsBroker: bool)

  datatype Outbound = Outbound(routes: seq<BasicRoute>, tokenOnBroker: TokenInfo, tokens: seq<TokenInfo>)

  datatype Inbound = Inbound(routes: seq<BasicRoute>, path: seq<ChainId>, tokenIn: TokenInfo, tokens: seq<TokenInfo>)

  // ---------------------------------------------------------------------------------------------
  // What makes a route executable
  // ---------------------------------------------------------------------------------------------

  ghost predicate Allows(r: BasicRoute, d: Denom, t: TokenInfo) {
    Lookup(r.allowedTokens, d) == Some(t)
  }

  ghost predicate Offers(r: BasicRoute, t: TokenInfo) {
    exists d :: Allows(r, d, t)
  }

  ghost predicate Delivers(r: BasicRoute, denom: Denom) {
    exists t :: Offers(r, t) && t.ibcDenom == denom
  }

  /** An indexed route leaving chain a. */
  ghost predicate RouteFrom(ix: IndexMaps, a: ChainId, r: BasicRoute) {
    || Lookup2(ix.chainRoutes, a, r.toChainId) == Some(r)
    || exists k :: Lookup2(ix.chainToBrokerRoutes, a, k) == Some(r)
  }

  ghost predicate OneChainPerBroker(ix: IndexMaps) {
    forall c, c' :: Lookup(ix.brokerChains, c).Some? && Lookup(ix.brokerChains, c) == Lookup(ix.brokerChains, c') ==> c == c'
  }

  /** One or two indexed routes from the source to the broker; each allows the denom the transfer
      before it delivers. */
  ghost predicate InboundOk(ix: IndexMaps, req: RouteRequest, brokerId: string, brokerChainId: ChainId, inb: Inbound) {
    && 1 <= |inb.routes| == |inb.path| <= 2 && |inb.tokens| == |inb.routes| - 1
    && inb.path[0] == req.chainFrom
    && (forall i :: 0 <= i < |inb.routes| ==> RouteFrom(ix, inb.path[i], inb.routes[i]))
    && (forall i :: 0 < i < |inb.routes| ==> inb.routes[i - 1].toChainId == inb.path[i])
    && Lookup(ix.brokerChains, inb.routes[|inb.routes| - 1].toChainId) == Some(brokerId)
    && Allows(inb.routes[0], req.tokenFromDenom, inb.tokenIn)
    && (|inb.routes| == 2 ==>
          && Allows(inb.routes[1], inb.tokenIn.ibcDenom, inb.tokens[0])
          && inb.path[0] != inb.path[1] && inb.path[1] != brokerChainId)
  }

  /** One route, or two through the wanted token's origin chain; the last delivers the wanted denom. */
  ghost predicate OutboundOk(ix: IndexMaps, req: RouteRequest, brokerId: string, brokerChainId: ChainId,
                             tokenOut: TokenInfo, out: Outbound)
  {
    && 1 <= |out.routes| <= 2 && |out.tokens| == |out.routes| - 1
    && Lookup2(ix.brokerRoutes, brokerId, out.routes[0].toChainId) == Some(out.routes[0])
    && out.routes[|out.routes| - 1].toChainId == req.chainTo
    && Offers(out.routes[0], out.tokenOnBroker)
    && (|out.routes| == 1 ==> out.tokenOnBroker.ibcDenom == req.tokenToDenom)
    && (|out.routes| == 2 ==> ViaOrigin(ix, req, brokerChainId, tokenOut, out))
  }

  ghost predicate ViaOrigin(ix: IndexMaps, req: RouteRequest, brokerChainId: ChainId, tokenOut: TokenInfo, out: Outbound)
    requires |out.routes| == 2 && |out.tokens| == 1
  {
    var origin := tokenOut.originChain;
    && out.routes[0].toChainId == origin && origin != brokerChainId && origin != req.chainTo
    && Lookup2(ix.chainRoutes, origin, req.chainTo) == Some(out.routes[1])
    && out.tokenOnBroker.originChain == origin && out.tokenOnBroker.baseDenom == tokenOut.baseDenom
    && Offers(out.routes[1], out.tokens[0]) && out.tokens[0].ibcDenom == req.tokenToDenom
  }

  /** Routes, paths and tokens of a returned MultiHopInfo fit together. */
  ghost predicate Executable(ix: IndexMaps, req: RouteRequest, info: MultiHopInfo) {
    && Lookup(ix.brokerChains, info.brokerChainId) == Some(info.brokerChain)
    && (info.sourceIsBroker <==> req.chainFrom == info.brokerChainId)
    && (info.sourceIsBroker <==> info.inboundRoutes == [])
    && (info.swapOnly <==> req.chainTo == info.brokerChainId)
    && (info.swapOnly <==> info.outboundRoutes == [])
    && Lookup2(ix.denomToTokenInfo, req.chainTo, req.tokenToDenom) == Some(info.tokenOut)
    && (if info.sourceIsBroker
        then Lookup2(ix.denomToTokenInfo, info.brokerChainId, req.tokenFromDenom) == Some(info.tokenIn)
             && info.inboundPath == [] && info.inboundIntermediateTokens == []
        else InboundOk(ix, req, info.brokerChain, info.brokerChainId,
                       Inbound(info.inboundRoutes, info.inboundPath, info.tokenIn, info.inboundIntermediateTokens)))
    && (if info.swapOnly then info.tokenOutOnBroker == info.tokenOut && info.intermediateTokens == []
        else OutboundOk(ix, req, info.brokerChain, info.brokerChainId, info.tokenOut,
                        Outbound(info.outboundRoutes, info.tokenOutOnBroker, info.intermediateTokens)))
    && (info.sourceIsBroker ==> |info.outboundRoutes| <= 1)
  }

  /** The denom in which the input arrives on the broker, as quoted and as put in the memo. */
  function DenomOnBroker(info: MultiHopInfo): Denom {
    if info.sourceIsBroker then info.tokenIn.chainDenom
    else if |info.inboundIntermediateTokens| > 0
    then info.inboundIntermediateTokens[|info.inboundIntermediateTokens| - 1].ibcDenom
    else info.tokenIn.ibcDenom
  }

  // ---------------------------------------------------------------------------------------------
  // When there is a route
  // ---------------------------------------------------------------------------------------------

  ghost predicate DirectInbound(ix: IndexMaps, req: RouteRequest, brokerId: string) {
    var r := Lookup2(ix.chainToBrokerRoutes, req.chainFrom, brokerId);
    r.Some? && req.tokenFromDenom in r.value.allowedTokens
  }

  ghost predicate InboundVia(ix: IndexMaps, source: ChainId, denom: Denom, brokerId: string, brokerChainId: ChainId, mid: ChainId) {
    var second := Lookup2(ix.chainToBrokerRoutes, mid, brokerId);
    var first := Lookup2(ix.chainRoutes, source, mid);
    && second.Some? && mid != source && mid != brokerChainId && first.Some?
    && denom in first.value.allowedTokens
    && first.value.allowedTokens[denom].ibcDenom in second.value.allowedTokens
  }

  ghost predicate CanReachBroker(ix: IndexMaps, req: RouteRequest, brokerId: string, brokerChainId: ChainId) {
    || DirectInbound(ix, req, brokerId)
    || (brokerId != "" && exists mid :: InboundVia(ix, req.chainFrom, req.tokenFromDenom, brokerId, brokerChainId, mid))
  }

  ghost predicate DirectOutbound(ix: IndexMaps, req: RouteRequest, brokerId: string) {
    var r := Lookup2(ix.brokerRoutes, brokerId, req.chainTo);
    r.Some? && Delivers(r.value, req.tokenToDenom)
  }

  ghost predicate OutboundViaOrigin(ix: IndexMaps, req: RouteRequest, brokerId: string, brokerChainId: ChainId, tokenOut: TokenInfo) {
    var origin := tokenOut.originChain;
    var first := Lookup2(ix.brokerRoutes, brokerId, origin);
    var second := Lookup2(ix.chainRoutes, origin, req.chainTo);
    && origin != brokerChainId && origin != req.chainTo && first.Some? && second.Some?
    && (exists t :: Offers(first.value, t) && t.baseDenom == tokenOut.baseDenom && t.originChain == origin)
    && Delivers(second.value, req.tokenToDenom)
  }

  ghost predicate Feasible(ix: IndexMaps, req: RouteRequest, brokerId: string, brokerChainId: ChainId) {
    var tokenOut := Lookup2(ix.denomToTokenInfo, req.chainTo, req.tokenToDenom);
    && tokenOut.Some?
    && (if req.chainFrom == brokerChainId
        then Lookup2(ix.denomToTokenInfo, brokerChainId, req.tokenFromDenom).Some?
        else CanReachBroker(ix, req, brokerId, brokerChainId))
    && (|| req.chainTo == brokerChainId
        || DirectOutbound(ix, req, brokerId)
        || (req.chainFrom != brokerChainId && OutboundViaOrigin(ix, req, brokerId, brokerChainId, tokenOut.value)))
  }

  // ---------------------------------------------------------------------------------------------
  // The finders
  // ---------------------------------------------------------------------------------------------

  /** for _, tokenInfo := range r.AllowedTokens { if tokenInfo.IbcDenom == denom } */
  method FindDelivering(r: BasicRoute, denom: Denom) returns (t: Option<TokenInfo>)
    ensures t.Some? ==> Offers(r, t.value) && t.value.ibcDenom == denom
    ensures t.None? ==> !Delivers(r, denom)
  {
    var rest := r.allowedTokens.Keys;
    while rest != {}
      invariant rest <= r.allowedTokens.Keys
      invariant forall d :: d in r.allowedTokens && d !in rest ==> r.allowedTokens[d].ibcDenom != denom
    {
      var d :| d in rest;
      if r.allowedTokens[d].ibcDenom == denom {
        assert Allows(r, d, r.allowedTokens[d]);
        return Some(r.allowedTokens[d]);
      }
      rest := rest - {d};
    }
    return None;
  }

  method FindUnwinding(r: BasicRoute, baseDenom: Denom, origin: ChainId) returns (t: Option<TokenInfo>)
    ensures t.Some? ==> Offers(r, t.value) && t.value.baseDenom == baseDenom && t.value.originChain == origin
    ensures t.None? ==> forall u :: Offers(r, u) ==> !(u.baseDenom == baseDenom && u.originChain == origin)
  {
    var rest := r.allowedTokens.Keys;
    while rest != {}
      invariant rest <= r.allowedTokens.Keys
      invariant forall d :: d in r.allowedTokens && d !in rest ==>
                  !(r.allowedTokens[d].baseDenom == baseDenom && r.allowedTokens[d].originChain == origin)
    {
      var d :| d in rest;
      if r.allowedTokens[d].baseDenom == baseDenom && r.allowedTokens[d].originChain == origin {
        assert Allows(r, d, r.allowedTokens[d]);
        return Some(r.allowedTokens[d]);
      }
      rest := rest - {d};
    }
    return None;
  }

  method FindMultiHopInboundRoute(ix: IndexMaps, req: RouteRequest, brokerId: string, brokerChainId: ChainId)
    returns (r: Option<Inbound>)
    requires KeyedByTarget(ix) && Lookup(ix.brokerChains, brokerChainId) == Some(brokerId)
    ensures r.Some? ==> InboundOk(ix, req, brokerId, brokerChainId, r.value) && |r.value.routes| == 2
    ensures r.Some? <==>
              (brokerId != "" && exists mid :: InboundVia(ix, req.chainFrom, req.tokenFromDenom, brokerId, brokerChainId, mid))
  {
    if brokerId == "" { return None; }
    var rest := ix.chainToBrokerRoutes.Keys;
    while rest != {}
      invariant rest <= ix.chainToBrokerRoutes.Keys
      invariant forall mid :: mid in ix.chainToBrokerRoutes && mid !in rest ==>
                  !InboundVia(ix, req.chainFrom, req.tokenFromDenom, brokerId, brokerChainId, mid)
    {
      var mid :| mid in rest;
      rest := rest - {mid};
      var brokerRoute := Lookup(ix.chainToBrokerRoutes[mid], brokerId);
      if brokerRoute.None? { continue; }
      if mid == req.chainFrom || mid == brokerChainId { continue; }
      var toMid := FindRouteFromChain(ix, req.chainFrom, mid);
      if toMid.None? { continue; }
      var tokenOnSource := Lookup(toMid.value.allowedTokens, req.tokenFromDenom);
      if tokenOnSource.None? { continue; }
      var tokenOnMid := Lookup(brokerRoute.value.allowedTokens, tokenOnSource.value.ibcDenom);
      if tokenOnMid.None? { continue; }
      assert InboundVia(ix, req.chainFrom, req.tokenFromDenom, brokerId, brokerChainId, mid);
      assert Lookup2(ix.chainToBrokerRoutes, mid, brokerId) == Some(brokerRoute.value);
      return Some(Inbound([toMid.value, brokerRoute.value], [req.chainFrom, mid], tokenOnSource.value, [tokenOnMid.value]));
    }
    return None;
  }

  /** Single hop first, then two hops. */
  method FindInbound(ix: IndexMaps, req: RouteRequest, brokerId: string, brokerChainId: ChainId) returns (r: Option<Inbound>)
    requires KeyedByTarget(ix) && Lookup(ix.brokerChains, brokerChainId) == Some(brokerId)
    ensures r.Some? ==> InboundOk(ix, req, brokerId, brokerChainId, r.value)
    ensures r.Some? <==> CanReachBroker(ix, req, brokerId, brokerChainId)
    ensures r.Some? ==> (|r.value.routes| == 1 <==> DirectInbound(ix, req, brokerId))
  {
    var direct := Lookup2(ix.chainToBrokerRoutes, req.chainFrom, brokerId);
    if direct.Some? {
      var tokenIn := Lookup(direct.value.allowedTokens, req.tokenFromDenom);
      if tokenIn.Some? {
        return Some(Inbound([direct.value], [req.chainFrom], tokenIn.value, []));
      }
    }
    r := FindMultiHopInboundRoute(ix, req, brokerId, brokerChainId);
  }

  method FindSameChainSwapRoute(ix: IndexMaps, req: RouteRequest, brokerId: string, brokerChainId: ChainId)
    returns (r: Option<MultiHopInfo>)
    requires Lookup(ix.brokerChains, brokerChainId) == Some(brokerId)
    requires req.chainFrom == brokerChainId == req.chainTo
    ensures r.Some? ==> Executable(ix, req, r.value) && r.value.brokerChain == brokerId
    ensures r.Some? <==> Feasible(ix, req, brokerId, brokerChainId)
  {
    var tokenIn := Lookup2(ix.denomToTokenInfo, brokerChainId, req.tokenFromDenom);
    if tokenIn.None? { return None; }
    var tokenOut := Lookup2(ix.denomToTokenInfo, brokerChainId, req.tokenToDenom);
    if tokenOut.None? { return None; }
    return Some(MultiHopInfo(brokerId, brokerChainId, [], [], [], tokenIn.value, tokenOut.value, tokenOut.value,
                             [], [], true, true));
  }

  method FindSwapOnlyRoute(ix: IndexMaps, req: RouteRequest, brokerId: string, brokerChainId: ChainId)
    returns (r: Option<MultiHopInfo>)
    requires KeyedByTarget(ix) && Lookup(ix.brokerChains, brokerChainId) == Some(brokerId)
    requires req.chainTo == brokerChainId && req.chainFrom != brokerChainId
    ensures r.Some? ==> Executable(ix, req, r.value) && r.value.brokerChain == brokerId
    ensures r.Some? <==> Feasible(ix, req, brokerId, brokerChainId)
  {
    var tokenOut := Lookup2(ix.denomToTokenInfo, brokerChainId, req.tokenToDenom);
    if tokenOut.None? { return None; }
    var inb := FindInbound(ix, req, brokerId, brokerChainId);
    if inb.None? { return None; }
    return Some(MultiHopInfo(brokerId, brokerChainId, inb.value.routes, inb.value.path, [], inb.value.tokenIn,
                             tokenOut.value, tokenOut.value, inb.value.tokens, [], true, false));
  }

  method FindBrokerAsSourceRoute(ix: IndexMaps, req: RouteRequest, brokerId: string, brokerChainId: ChainId)
    returns (r: Option<MultiHopInfo>)
    requires KeyedByTarget(ix) && Lookup(ix.brokerChains, brokerChainId) == Some(brokerId)
    requires req.chainFrom == brokerChainId && req.chainTo != brokerChainId
    ensures r.Some? ==> Executable(ix, req, r.value) && r.value.brokerChain == brokerId
    ensures r.Some? <==> Feasible(ix, req, brokerId, brokerChainId)
  {
    var tokenIn := Lookup2(ix.denomToTokenInfo, brokerChainId, req.tokenFromDenom);
    if tokenIn.None? { return None; }
    var outboundRoute := Lookup2(ix.brokerRoutes, brokerId, req.chainTo);
    if outboundRoute.None? { return None; }
    var tokenOut := Lookup2(ix.denomToTokenInfo, req.chainTo, req.tokenToDenom);
    if tokenOut.None? { return None; }
    var matching := FindDelivering(outboundRoute.value, req.tokenToDenom);
    if matching.None? { return None; }
    return Some(MultiHopInfo(brokerId, brokerChainId, [], [], [outboundRoute.value], tokenIn.value, tokenOut.value,
                             matching.value, [], [], false, true));
  }

  method FindFullBrokerRoute(ix: IndexMaps, req: RouteRequest, brokerId: string, brokerChainId: ChainId)
    returns (r: Option<MultiHopInfo>)
    requires KeyedByTarget(ix) && Lookup(ix.brokerChains, brokerChainId) == Some(brokerId)
    requires req.chainFrom != brokerChainId && req.chainTo != brokerChainId
    ensures r.Some? ==> Executable(ix, req, r.value) && r.value.brokerChain == brokerId
    ensures r.Some? <==> Feasible(ix, req, brokerId, brokerChainId)
  {
    var tokenOut := Lookup2(ix.denomToTokenInfo, req.chainTo, req.tokenToDenom);
    if tokenOut.None? { return None; }
    var inb := FindInbound(ix, req, brokerId, brokerChainId);
    if inb.None? { return None; }
    var out := FindOutbound(ix, req, brokerId, brokerChainId, tokenOut.value);
    if out.None? { return None; }
    return Some(MultiHopInfo(brokerId, brokerChainId, inb.value.routes, inb.value.path, out.value.routes, inb.value.tokenIn,
                             tokenOut.value, out.value.tokenOnBroker, inb.value.tokens, out.value.tokens, false, false));
  }

  /** Straight to the destination if that works, else by way of the token's origin. */
  method FindOutbound(ix: IndexMaps, req: RouteRequest, brokerId: string, brokerChainId: ChainId, tokenOut: TokenInfo)
    returns (r: Option<Outbound>)
    requires KeyedByTarget(ix)
    ensures r.Some? ==> OutboundOk(ix, req, brokerId, brokerChainId, tokenOut, r.value)
    ensures r.Some? <==> DirectOutbound(ix, req, brokerId) || OutboundViaOrigin(ix, req, brokerId, brokerChainId, tokenOut)
    ensures r.Some? ==> (|r.value.routes| == 1 <==> DirectOutbound(ix, req, brokerId))
  {
    var directOutbound := Lookup2(ix.brokerRoutes, brokerId, req.chainTo);
    if directOutbound.Some? {
      var token := FindDelivering(directOutbound.value, req.tokenToDenom);
      if token.Some? {
        return Some(Outbound([directOutbound.value], token.value, []));
      }
    }
    var origin := tokenOut.originChain;
    if origin == brokerChainId || origin == req.chainTo { return None; }
    var brokerToOrigin := Lookup2(ix.brokerRoutes, brokerId, origin);
    if brokerToOrigin.None? { return None; }
    var tokenOnBroker := FindUnwinding(brokerToOrigin.value, tokenOut.baseDenom, origin);
    if tokenOnBroker.None? { return None; }
    var originToDest := FindRouteFromChain(ix, origin, req.chainTo);
    if originToDest.None? { return None; }
    var tokenOnOrigin := FindDelivering(originToDest.value, req.tokenToDenom);
    if tokenOnOrigin.None? { return None; }
    return Some(Outbound([brokerToOrigin.value, originToDest.value], tokenOnBroker.value, [tokenOnOrigin.value]));
  }

  /** Some chain registered for the broker. */
  method ChainOfBroker(ix: IndexMaps, brokerId: string) returns (r: Option<ChainId>)
    ensures r.Some? ==> Lookup(ix.brokerChains, r.value) == Some(brokerId)
    ensures r.None? ==> forall c :: Lookup(ix.brokerChains, c) != Some(brokerId)
  {
    var rest := ix.brokerChains.Keys;
    while rest != {}
      invariant rest <= ix.brokerChains.Keys
      invariant forall c :: c in ix.brokerChains && c !in rest ==> ix.brokerChains[c] != brokerId
    {
      var c :| c in rest;
      if ix.brokerChains[c] == brokerId { return Some(c); }
      rest := rest - {c};
    }
    return None;
  }

  method FindThroughBroker(ix: IndexMaps, req: RouteRequest, brokerId: string, brokerChainId: ChainId)
    returns (r: Option<MultiHopInfo>)
    requires KeyedByTarget(ix) && Lookup(ix.brokerChains, brokerChainId) == Some(brokerId)
    ensures r.Some? ==> Executable(ix, req, r.value) && r.value.brokerChain == brokerId
    ensures r.Some? <==> Feasible(ix, req, brokerId, brokerChainId)
  {
    var sourceIsBroker := req.chainFrom == brokerChainId;
    var destIsBroker := req.chainTo == brokerChainId;
    if sourceIsBroker && destIsBroker {
      r := FindSameChainSwapRoute(ix, req, brokerId, brokerChainId);
    } else if destIsBroker {
      r := FindSwapOnlyRoute(ix, req, brokerId, brokerChainId);
    } else if sourceIsBroker {
      r := FindBrokerAsSourceRoute(ix, req, brokerId, brokerChainId);
    } else {
      r := FindFullBrokerRoute(ix, req, brokerId, brokerChainId);
    }
  }

  /** A broker is feasible if some chain registered for it is. */
  ghost predicate BrokerFeasible(ix: IndexMaps, req: RouteRequest, brokerId: string) {
    exists c :: c != "" && Lookup(ix.brokerChains, c) == Some(brokerId) && Feasible(ix, req, brokerId, c)
  }

  ghost predicate Listed(infos: seq<MultiHopInfo>, brokerId: string) {
    exists i :: 0 <= i < |infos| && infos[i].brokerChain == brokerId
  }

  ghost predicate AllExecutable(ix: IndexMaps, req: RouteRequest, infos: seq<MultiHopInfo>) {
    forall i {:trigger Executable(ix, req, infos[i])} :: 0 <= i < |infos| ==> Executable(ix, req, infos[i])
  }

  ghost predicate OnePerBroker(infos: seq<MultiHopInfo>) {
    forall i, j :: 0 <= i < j < |infos| ==> infos[i].brokerChain != infos[j].brokerChain
  }

  lemma ListedSnoc(infos: seq<MultiHopInfo>, info: MultiHopInfo, b: string)
    ensures Listed(infos + [info], b) <==> Listed(infos, b) || b == info.brokerChain
  {
    var longer := infos + [info];
    assert longer[|infos|] == info;
    if Listed(infos, b) {
      var i :| 0 <= i < |infos| && infos[i].brokerChain == b;
      assert longer[i].brokerChain == b;
    }
  }

  lemma ExecutableSnoc(ix: IndexMaps, req: RouteRequest, infos: seq<MultiHopInfo>, info: MultiHopInfo)
    requires AllExecutable(ix, req, infos) && Executable(ix, req, info)
    ensures AllExecutable(ix, req, infos + [info])
  {}

  lemma OnePerBrokerSnoc(infos: seq<MultiHopInfo>, info: MultiHopInfo)
    requires OnePerBroker(infos) && !Listed(infos, info.brokerChain)
    ensures OnePerBroker(infos + [info])
  {}

  lemma ListSnoc(ix: IndexMaps, req: RouteRequest, infos: seq<MultiHopInfo>, info: MultiHopInfo)
    requires AllExecutable(ix, req, infos) && Executable(ix, req, info)
    requires OnePerBroker(infos) && !Listed(infos, info.brokerChain)
    ensures AllExecutable(ix, req, infos + [info]) && OnePerBroker(infos + [info])
    ensures forall b :: Listed(infos + [info], b) <==> Listed(infos, b) || b == info.brokerChain
  {
    ExecutableSnoc(ix, req, infos, info);
    OnePerBrokerSnoc(infos, info);
    forall b ensures Listed(infos + [info], b) <==> Listed(infos, b) || b == info.brokerChain {
      ListedSnoc(infos, info, b);
    }
  }

  /** The body of the loop over brokers. */
  method TryBroker(ix: IndexMaps, req: RouteRequest, brokerId: string) returns (info: Option<MultiHopInfo>)
    requires KeyedByTarget(ix)
    ensures info.Some? ==> Executable(ix, req, info.value) && info.value.brokerChain == brokerId && BrokerFeasible(ix, req, brokerId)
    ensures OneChainPerBroker(ix) && info.None? ==> !BrokerFeasible(ix, req, brokerId)
  {
    var chainId := ChainOfBroker(ix, brokerId);
    if chainId.None? || chainId.value == "" { return None; }
    info := FindThroughBroker(ix, req, brokerId, chainId.value);
  }

  /** Every listed route is executable and there is one per feasible broker. */
  method FindMultiHopRoute(ix: IndexMaps, req: RouteRequest) returns (infos: seq<MultiHopInfo>)
    requires KeyedByTarget(ix)
    ensures AllExecutable(ix, req, infos) && OnePerBroker(infos)
    ensures forall b :: Listed(infos, b) ==> b in ix.brokers && BrokerFeasible(ix, req, b)
    ensures OneChainPerBroker(ix) ==> forall b :: b in ix.brokers && BrokerFeasible(ix, req, b) ==> Listed(infos, b)
  {
    infos := [];
    var rest := ix.brokers;
    while rest != {}
      invariant rest <= ix.brokers
      invariant AllExecutable(ix, req, infos) && OnePerBroker(infos)
      invariant forall b :: Listed(infos, b) ==> b in ix.brokers && b !in rest && BrokerFeasible(ix, req, b)
      invariant OneChainPerBroker(ix) ==>
          forall b :: b in ix.brokers && b !in rest && BrokerFeasible(ix, req, b) ==> Listed(infos, b)
    {
      var brokerId :| brokerId in rest;
      var info := TryBroker(ix, req, brokerId);
      if info.Some? {
        ListSnoc(ix, req, infos, info.value);
        infos := infos + [info.value];
      }
      rest := rest - {brokerId};
    }
  }
}
