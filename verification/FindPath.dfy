/** FindPath: direct, then indirect, then brokers in turn (pathfinder/router/pathfinder.go:51-118,
    286-346, 386-667). */
module PathFinding {
  import opened RouterTypes
  import opened RouteIndexing
  import opened IndirectRouting
  import opened MultiHopRouting
  import opened IbcMemo
  import opened RouteResponses
  import opened DenomResolution

  ghost predicate ExecutionOk(pf: Pathfinder, req: RouteRequest, info: MultiHopInfo, result: SwapResult,
                              contract: string, e: BrokerExecutionData)
  {
    if info.sourceIsBroker then ContractExecution(pf, req, info, result, contract, e)
    else MemoExecution(pf, req, info, result, contract, e)
  }

  ghost predicate ExecutionPossible(pf: Pathfinder, req: RouteRequest, info: MultiHopInfo, result: SwapResult, contract: string) {
    if info.sourceIsBroker then Swappable(pf, info, result, contract)
    else MemoPossible(pf, req, info, result, contract)
  }

  /** A broker route is the finder's plan, quoted in the denoms that reach and leave the broker. */
  ghost predicate BrokerRouteBuilt(pf: Pathfinder, req: RouteRequest, info: MultiHopInfo, r: BrokerRoute) {
    && Executable(pf.ix, req, info) && (req.slippageBps.Some? ==> req.slippageBps.value <= 10000)
    && info.brokerChain in pf.clients
    && pf.quote(info.brokerChain, DenomOnBroker(info), req.amountIn, info.tokenOutOnBroker.chainDenom) == Some(r.swap.result)
    && r.path == BrokerPath(req, info)
    && |r.inboundLegs| == |info.inboundRoutes| && InboundLegsOk(req, info, r.inboundLegs)
    && LegsFollow(r.outboundLegs, OutboundPath(info), info.outboundRoutes, r.swap.result.amountOut)
    && OutboundTokens(info, r.swap.tokenOut, r.outboundLegs)
    && r.swap.broker == pf.clients[info.brokerChain].brokerType
    && r.swap.tokenIn == TokenMapping(DenomOnBroker(info), info.tokenIn.baseDenom, info.tokenIn.originChain,
                                      LastToken(info).originChain == info.brokerChainId)
    && r.swap.tokenOut == MappingOf(info.tokenOutOnBroker, info.brokerChainId)
    && (r.outboundSupportsPFM <==>
          info.outboundRoutes != [] && forall i :: 0 <= i < |info.outboundRoutes| - 1 ==> info.outboundRoutes[i].toChainId in pf.ix.pfmChains)
    && var contract := pf.clients[info.brokerChain].contractAddress;
       (r.execution.Some? <==> req.smartRoute == Some(true) && ExecutionPossible(pf, req, info, r.swap.result, contract))
       && (r.execution.Some? ==> ExecutionOk(pf, req, info, r.swap.result, contract, r.execution.value))
  }

  /** The token whose transfer reaches the broker. */
  ghost function LastToken(info: MultiHopInfo): TokenInfo {
    if !info.sourceIsBroker && info.inboundIntermediateTokens != []
    then info.inboundIntermediateTokens[|info.inboundIntermediateTokens| - 1] else info.tokenIn
  }

  method BuildExecution(pf: Pathfinder, req: RouteRequest, info: MultiHopInfo, result: SwapResult,
                        outboundLegs: seq<IBCLeg>, contract: string) returns (r: Result<BrokerExecutionData>)
    requires Executable(pf.ix, req, info)
    requires LegsFollow(outboundLegs, OutboundPath(info), info.outboundRoutes, result.amountOut)
    ensures r.Ok? ==> ExecutionOk(pf, req, info, result, contract, r.value)
    ensures r.Ok? <==> ExecutionPossible(pf, req, info, result, contract)
  {
    var brokerExists := info.brokerChainId in pf.chainsMap;
    if info.sourceIsBroker {
      r := BuildSmartContractExecution(pf, req, info, result, outboundLegs, contract, brokerExists);
    } else if info.swapOnly {
      r := BuildSwapOnlyExecution(pf, req, info, result, contract, brokerExists);
    } else {
      r := BuildSwapAndForwardExecution(pf, req, info, result, outboundLegs, contract, brokerExists);
    }
  }

  /** The quoted input: the user's token, under the denom in which it reaches the broker. */
  method SwapInput(info: MultiHopInfo) returns (tokenIn: TokenMapping)
    ensures tokenIn == TokenMapping(DenomOnBroker(info), info.tokenIn.baseDenom, info.tokenIn.originChain,
                                    LastToken(info).originChain == info.brokerChainId)
  {
    if info.sourceIsBroker { return MappingOf(info.tokenIn, info.brokerChainId); }
    var arriving := if |info.inboundIntermediateTokens| > 0
                    then info.inboundIntermediateTokens[|info.inboundIntermediateTokens| - 1] else info.tokenIn;
    return TokenMapping(arriving.ibcDenom, info.tokenIn.baseDenom, info.tokenIn.originChain,
                        arriving.originChain == info.brokerChainId);
  }

  method BuildBrokerRoute(pf: Pathfinder, req: RouteRequest, info: MultiHopInfo, result: SwapResult, client: BrokerClient)
    returns (r: Result<BrokerRoute>)
    requires Executable(pf.ix, req, info)
    requires info.brokerChain in pf.clients && pf.clients[info.brokerChain] == client
    requires pf.quote(info.brokerChain, DenomOnBroker(info), req.amountIn, info.tokenOutOnBroker.chainDenom) == Some(result)
    ensures r.Err? <==> req.slippageBps.Some? && req.slippageBps.value > 10000
    ensures r.Ok? ==> BrokerRouteBuilt(pf, req, info, r.value)
  {
    if Bps(req) > 10000 { return Err("slippage bps must be less than 10000"); }
    var inboundLegs := BuildInboundLegs(pf, req, info);
    var tokenIn := SwapInput(info);
    var tokenOut := MappingOf(info.tokenOutOnBroker, info.brokerChainId);
    var outboundLegs := BuildOutboundLegs(pf, info, result.amountOut, tokenOut);
    var supportsPFM := false;
    if !info.swapOnly && |info.outboundRoutes| > 0 {
      supportsPFM := OutboundSupportsPFM(pf.ix, info.outboundRoutes);
    }
    var execution: Option<BrokerExecutionData> := None;
    if req.smartRoute == Some(true) {
      var built := BuildExecution(pf, req, info, result, outboundLegs, client.contractAddress);
      if built.Ok? {
        execution := Some(built.value);
      }
    }
    return Ok(BrokerRoute(BrokerPath(req, info), inboundLegs, SwapQuote(client.brokerType, tokenIn, tokenOut, result),
                          outboundLegs, supportsPFM, execution));
  }

  method BuildBrokerSwapResponse(pf: Pathfinder, req: RouteRequest, info: MultiHopInfo) returns (r: Result<BrokerRoute>)
    requires Executable(pf.ix, req, info)
    ensures r.Ok? ==> BrokerRouteBuilt(pf, req, info, r.value)
    ensures r.Ok? <==> BrokerAnswers(pf, req, info)
  {
    if info.brokerChain !in pf.clients { return Err("no client configured for broker"); }
    var result := pf.quote(info.brokerChain, DenomOnBroker(info), req.amountIn, info.tokenOutOnBroker.chainDenom);
    if result.None? { return Err("broker query failed"); }
    r := BuildBrokerRoute(pf, req, info, result.value, pf.clients[info.brokerChain]);
  }

  ghost predicate BrokerAnswers(pf: Pathfinder, req: RouteRequest, info: MultiHopInfo) {
    && info.brokerChain in pf.clients && (req.slippageBps.Some? ==> req.slippageBps.value <= 10000)
    && pf.quote(info.brokerChain, DenomOnBroker(info), req.amountIn, info.tokenOutOnBroker.chainDenom).Some?
  }

  ghost predicate IndirectResponseFor(pf: Pathfinder, req: RouteRequest, r: IndirectRoute) {
    exists info :: IndirectAnswer(pf.ix, req, Some(info)) && IndirectBuilt(pf, req, info, r)
  }

  ghost predicate BrokerResponseFor(pf: Pathfinder, req: RouteRequest, r: BrokerRoute) {
    exists info :: BrokerRouteBuilt(pf, req, info, r)
  }

  /** The leg takes the route, and names the source token as it is known on ChainFrom. */
  ghost predicate DirectLeg(ix: IndexMaps, req: RouteRequest, route: BasicRoute, leg: IBCLeg) {
    var token := Lookup2(ix.denomToTokenInfo, req.chainFrom, req.tokenFromDenom);
    && leg.fromChain == req.chainFrom && leg.toChain == req.chainTo
    && leg.channel == route.channelId && leg.port == route.portId && leg.amount == req.amountIn
    && token.Some? && Names(leg.token, token.value, req.chainFrom)
  }

  /** What a response claims, whatever the answers of the brokers and the order of map ranges. */
  ghost predicate ResponseOk(pf: Pathfinder, req: RouteRequest, resp: RouteResponse) {
    var direct := FindDirectRoute(pf.ix, req);
    && (resp.DirectResponse? <==> direct.Some?)
    && match resp
       case DirectResponse(leg) => direct.Some? && DirectLeg(pf.ix, req, direct.value, leg)
       case IndirectResponse(r) => IndirectResponseFor(pf, req, r)
       case BrokerResponse(r) => IndirectAnswer(pf.ix, req, None) && BrokerResponseFor(pf, req, r)
       case Impossible(_) => IndirectAnswer(pf.ix, req, None)
  }

  method AskBroker(pf: Pathfinder, req: RouteRequest, info: MultiHopInfo) returns (r: Option<BrokerRoute>)
    requires Executable(pf.ix, req, info)
    ensures r.Some? ==> BrokerResponseFor(pf, req, r.value)
    ensures r.Some? <==> BrokerAnswers(pf, req, info)
  {
    var built := BuildBrokerSwapResponse(pf, req, info);
    return if built.Ok? then Some(built.value) else None;
  }

  /** Each candidate in turn, until one answers. */
  method TryBrokers(pf: Pathfinder, req: RouteRequest, infos: seq<MultiHopInfo>) returns (r: Option<BrokerRoute>)
    requires AllExecutable(pf.ix, req, infos)
    ensures r.Some? ==> BrokerResponseFor(pf, req, r.value)
    ensures r.Some? <==> exists i :: 0 <= i < |infos| && BrokerAnswers(pf, req, infos[i])
  {
    var i := 0;
    while i < |infos|
      invariant 0 <= i <= |infos|
      invariant forall j :: 0 <= j < i ==> !BrokerAnswers(pf, req, infos[j])
    {
      r := AskBroker(pf, req, infos[i]);
      if r.Some? { return; }
      i := i + 1;
    }
    return None;
  }

  /** The broker has a route whose quote, or slippage setting, failed. */
  ghost predicate BrokerFailed(pf: Pathfinder, req: RouteRequest, brokerId: string) {
    exists info :: Executable(pf.ix, req, info) && info.brokerChain == brokerId && !BrokerAnswers(pf, req, info)
  }

  method FindPath(pf: Pathfinder, req: RouteRequest) returns (resp: RouteResponse)
    requires KeyedByTarget(pf.ix)
    ensures ResponseOk(pf, req, resp)
    ensures resp.Impossible? && OneChainPerBroker(pf.ix) ==>
              forall b :: b in pf.ix.brokers && BrokerFeasible(pf.ix, req, b) ==> BrokerFailed(pf, req, b)
  {
    var direct := FindDirectRoute(pf.ix, req);
    if direct.Some? {
      var mapping := CreateTokenMapping(pf.ix, req.chainFrom, req.tokenFromDenom);
      return BuildDirectResponse(pf, req, direct.value, mapping);
    }
    var indirect := FindIndirectRoute(pf.ix, req);
    if indirect.Some? {
      var r := BuildIndirectResponse(pf, req, indirect.value);
      return IndirectResponse(r);
    }
    var infos := FindMultiHopRoute(pf.ix, req);
    var r := TryBrokers(pf, req, infos);
    if r.Some? { return BrokerResponse(r.value); }
    forall b | Listed(infos, b) ensures BrokerFailed(pf, req, b) {
      var i :| 0 <= i < |infos| && infos[i].brokerChain == b;
      assert Executable(pf.ix, req, infos[i]) && !BrokerAnswers(pf, req, infos[i]);
    }
    return Impossible("No route found between chains for the requested tokens");
  }
}
