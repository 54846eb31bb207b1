/** Responses and execution data (pathfinder/router/pathfinder.go, address.go). Broker quotes and
    address conversion are arbitrary functions; the clock is one arbitrary timeout. */
module RouteResponses {
  import opened RouterTypes
  import opened RouteIndexing
  import opened IndirectRouting
  import opened MultiHopRouting
  import opened IbcMemo
  import Amounts

  datatype TokenMapping = TokenMapping(chainDenom: Denom, baseDenom: Denom, originChain: ChainId, isNative: bool)

  datatype IBCLeg = IBCLeg(fromChain: ChainId, toChain: ChainId, channel: string, port: string,
                           token: TokenMapping, amount: string)

  datatype SwapResult = SwapResult(amountIn: string, amountOut: string, priceImpact: string,
                                   effectiveFee: string, routeData: RouteData)

  datatype SwapQuote = SwapQuote(broker: string, tokenIn: TokenMapping, tokenOut: TokenMapping, result: SwapResult)

  datatype BrokerExecutionData = BrokerExecutionData(
    memo: Option<Memo>,
    smartContractData: Option<WasmData>,
    ibcReceiver: Option<string>,
    recoverAddress: Option<string>,
    minOutputAmount: string,
    usesWasm: bool)

  datatype BrokerRoute = BrokerRoute(path: seq<ChainId>, inboundLegs: seq<IBCLeg>, swap: SwapQuote,
                                     outboundLegs: seq<IBCLeg>, outboundSupportsPFM: bool,
                                     execution: Option<BrokerExecutionData>)

  datatype IndirectRoute = IndirectRoute(path: seq<ChainId>, legs: seq<IBCLeg>, supportsPFM: bool,
                                         pfmStartChain: ChainId, pfmMemo: Memo)

  datatype RouteResponse =
    | DirectResponse(transfer: IBCLeg)
    | IndirectResponse(indirect: IndirectRoute)
    | BrokerResponse(route: BrokerRoute)
    | Impossible(errorMessage: string)

  datatype BrokerClient = BrokerClient(brokerType: string, contractAddress: string)

  datatype Pathfinder = Pathfinder(
    chainsMap: map<ChainId, PathfinderChain>,
    ix: IndexMaps,
    clients: map<string, BrokerClient>,
    quote: (string, Denom, string, Denom) -> Option<SwapResult>,
    convert: (string, ChainId) -> Option<string>,
    timeout: int)

  /** The mapping names the token as it is known on the chain. */
  predicate Names(m: TokenMapping, t: TokenInfo, chain: ChainId) {
    && m.chainDenom == t.chainDenom && m.baseDenom == t.baseDenom && m.originChain == t.originChain
    && (m.isNative <==> t.originChain == chain)
  }

  function MappingOf(t: TokenInfo, chain: ChainId): (m: TokenMapping)
    ensures Names(m, t, chain)
  {
    TokenMapping(t.chainDenom, t.baseDenom, t.originChain, t.originChain == chain)
  }

  // ---------------------------------------------------------------------------------------------
  // Direct and indirect responses
  // ---------------------------------------------------------------------------------------------

  function BuildDirectResponse(pf: Pathfinder, req: RouteRequest, route: BasicRoute, mapping: TokenMapping): RouteResponse {
    DirectResponse(IBCLeg(req.chainFrom, req.chainTo, route.channelId, route.portId, mapping, req.amountIn))
  }

  /** Legs follow the path over the given routes. */
  ghost predicate LegsFollow(legs: seq<IBCLeg>, path: seq<ChainId>, routes: seq<BasicRoute>, amount: string) {
    && |legs| == |routes| == |path| - 1
    && forall i :: 0 <= i < |legs| ==>
         && legs[i].fromChain == path[i] && legs[i].toChain == path[i + 1]
         && legs[i].channel == routes[i].channelId && legs[i].port == routes[i].portId
         && legs[i].amount == amount
  }

  /** The token mapping of each leg is one the search may hold on the chain it leaves. */
  ghost predicate LegsHold(s: Search, legs: seq<IBCLeg>) {
    forall i :: 0 <= i < |legs| ==> LegHolds(s, legs[i])
  }

  ghost predicate LegHolds(s: Search, leg: IBCLeg) {
    exists t :: LegToken(s, leg, t)
  }

  ghost predicate LegToken(s: Search, leg: IBCLeg, t: TokenInfo) {
    MayHold(s, leg.fromChain, t) && leg.token == MappingOf(t, leg.fromChain)
  }

  method CheckPFMSupport(ix: IndexMaps, path: seq<ChainId>) returns (b: bool)
    ensures b <==> |path| > 2 && forall i :: 0 < i < |path| - 1 ==> path[i] in ix.pfmChains
  {
    if |path| <= 2 { return false; }
    var i := 1;
    while i < |path| - 1
      invariant 1 <= i <= |path| - 1
      invariant forall j :: 0 < j < i ==> path[j] in ix.pfmChains
    {
      if path[i] !in ix.pfmChains { return false; }
      i := i + 1;
    }
    return true;
  }

  /** buildMemo of generatePFMMemo: every forward names the final receiver. */
  function BuildMemo(legs: seq<IBCLeg>, legIndex: nat, receiver: string): Memo
    decreases |legs| - legIndex
  {
    if legIndex >= |legs| then NoMemo
    else ForwardMemo(PFMForward(legs[legIndex].channel, legs[legIndex].port, receiver, 0, 0,
                                BuildMemo(legs, legIndex + 1, receiver)))
  }

  /** Starts after the leg the user sends. */
  function GeneratePFMMemo(legs: seq<IBCLeg>, finalReceiver: string): Memo {
    if legs == [] then NoMemo else BuildMemo(legs, 1, finalReceiver)
  }

  function LegHops(legs: seq<IBCLeg>, receiver: string): (r: seq<IBCHop>)
    ensures |r| == |legs|
  {
    seq(|legs|, i requires 0 <= i < |legs| => IBCHop(legs[i].channel, legs[i].port, receiver, 0))
  }

  /** Forwards that leave retries and timeout unsaid. */
  predicate Unsaid(m: Memo) {
    m.ForwardMemo? ==> m.forward.retries == 0 && m.forward.timeout == 0 && Unsaid(m.forward.next)
  }

  /** The recursive memo forwards along exactly the remaining legs, as BuildNestedForwardMemo would. */
  lemma {:induction false} PFMMemoFlattens(legs: seq<IBCLeg>, k: nat, receiver: string)
    requires k <= |legs|
    ensures Hops(BuildMemo(legs, k, receiver)) == LegHops(legs[k..], receiver)
    ensures Innermost(BuildMemo(legs, k, receiver)) == NoMemo && Unsaid(BuildMemo(legs, k, receiver))
    decreases |legs| - k
  {
    if k < |legs| {
      PFMMemoFlattens(legs, k + 1, receiver);
      assert LegHops(legs[k..], receiver) == [IBCHop(legs[k].channel, legs[k].port, receiver, 0)] + LegHops(legs[k + 1..], receiver);
    }
  }

  lemma PFMMemoMatchesNestedMemo(legs: seq<IBCLeg>, hops: seq<IBCHop>, receiver: string, finalReceiver: string)
    requires legs != [] && |hops| == |legs| - 1
    requires forall i :: 0 <= i < |hops| ==> hops[i].channel == legs[i + 1].channel && hops[i].port == legs[i + 1].port
    ensures var a := Hops(GeneratePFMMemo(legs, receiver)); var b := Hops(Nest(hops, "", finalReceiver, NoMemo));
            |a| == |b| && forall i :: 0 <= i < |a| ==> a[i].channel == b[i].channel && a[i].port == b[i].port
  {
    PFMMemoFlattens(legs, 1, receiver);
    FlattenNest(hops, "", finalReceiver, NoMemo);
  }

  ghost predicate IndirectBuilt(pf: Pathfinder, req: RouteRequest, info: IndirectRouteInfo, r: IndirectRoute) {
    && r.path == info.path && LegsFollow(r.legs, info.path, info.routes, req.amountIn)
    && LegsHold(Search(pf.ix, req.chainFrom, info.token), r.legs)
    && (r.supportsPFM <==> |r.path| > 2 && forall i :: 0 < i < |r.path| - 1 ==> r.path[i] in pf.ix.pfmChains)
    && r.pfmStartChain == req.chainFrom
    && r.pfmMemo == (if r.supportsPFM then GeneratePFMMemo(r.legs, req.receiverAddress) else NoMemo)
  }

  lemma LegsFollowSnoc(legs: seq<IBCLeg>, path: seq<ChainId>, routes: seq<BasicRoute>, amount: string, leg: IBCLeg)
    requires |legs| < |routes| == |path| - 1
    requires LegsFollow(legs, path[..|legs| + 1], routes[..|legs|], amount)
    requires leg.fromChain == path[|legs|] && leg.toChain == path[|legs| + 1] && leg.amount == amount
    requires leg.channel == routes[|legs|].channelId && leg.port == routes[|legs|].portId
    ensures LegsFollow(legs + [leg], path[..|legs| + 2], routes[..|legs| + 1], amount)
  {
    var p, p' := path[..|legs| + 1], path[..|legs| + 2];
    assert forall i :: 0 <= i < |p| ==> p[i] == p'[i];
  }

  lemma LegsHoldSnoc(s: Search, legs: seq<IBCLeg>, leg: IBCLeg, t: TokenInfo)
    requires LegsHold(s, legs) && LegToken(s, leg, t)
    ensures LegsHold(s, legs + [leg])
  {
    assert LegHolds(s, leg);
  }

  method BuildIndirectLegs(pf: Pathfinder, req: RouteRequest, info: IndirectRouteInfo) returns (legs: seq<IBCLeg>)
    requires SoundRoute(Search(pf.ix, req.chainFrom, info.token), req.chainTo, info)
    ensures LegsFollow(legs, info.path, info.routes, req.amountIn)
    ensures LegsHold(Search(pf.ix, req.chainFrom, info.token), legs)
  {
    ghost var s := Search(pf.ix, req.chainFrom, info.token);
    legs := [];
    var i := 0;
    while i < |info.routes|
      invariant 0 <= i <= |info.routes| && |legs| == i
      invariant LegsFollow(legs, info.path[..i + 1], info.routes[..i], req.amountIn)
      invariant LegsHold(s, legs)
    {
      var fromChain := info.path[i];
      var tokenInfo := Some(info.token);
      if i > 0 {
        tokenInfo := FindTokenByOrigin(pf.ix, fromChain, info.token.originChain, info.token.baseDenom);
        assert info.path[0] != info.path[i];
      }
      assert MayHop(s, info.path[i], info.path[i + 1]);
      var leg := IBCLeg(fromChain, info.path[i + 1], info.routes[i].channelId, info.routes[i].portId,
                        MappingOf(tokenInfo.value, fromChain), req.amountIn);
      LegsHoldSnoc(s, legs, leg, tokenInfo.value);
      LegsFollowSnoc(legs, info.path, info.routes, req.amountIn, leg);
      legs := legs + [leg];
      i := i + 1;
    }
    assert info.path[..i + 1] == info.path && info.routes[..i] == info.routes;
  }

  method BuildIndirectResponse(pf: Pathfinder, req: RouteRequest, info: IndirectRouteInfo) returns (r: IndirectRoute)
    requires SoundRoute(Search(pf.ix, req.chainFrom, info.token), req.chainTo, info)
    ensures IndirectBuilt(pf, req, info, r)
  {
    var legs := BuildIndirectLegs(pf, req, info);
    var supportsPFM := CheckPFMSupport(pf.ix, info.path);
    var pfmMemo := NoMemo;
    if supportsPFM && |info.path| > 2 {
      pfmMemo := GeneratePFMMemo(legs, req.receiverAddress);
    }
    r := IndirectRoute(info.path, legs, supportsPFM, req.chainFrom, pfmMemo);
  }

  // ---------------------------------------------------------------------------------------------
  // Broker routes: path and legs
  // ---------------------------------------------------------------------------------------------

  function BrokerPath(req: RouteRequest, info: MultiHopInfo): seq<ChainId> {
    if info.sourceIsBroker && info.swapOnly then [info.brokerChainId]
    else if info.sourceIsBroker then [info.brokerChainId, req.chainTo]
    else if info.swapOnly then info.inboundPath + [info.brokerChainId]
    else info.inboundPath + [info.brokerChainId, req.chainTo]
  }

  ghost predicate InboundLegsOk(req: RouteRequest, info: MultiHopInfo, legs: seq<IBCLeg>) {
    && LegsFollow(legs, info.inboundPath + [info.brokerChainId], info.inboundRoutes, req.amountIn)
    && |legs| <= |info.inboundIntermediateTokens| + 1
    && forall i :: 0 <= i < |legs| ==>
         legs[i].token == MappingOf(if i == 0 then info.tokenIn else info.inboundIntermediateTokens[i - 1], info.inboundPath[i])
  }

  method BuildInboundLegs(pf: Pathfinder, req: RouteRequest, info: MultiHopInfo) returns (legs: seq<IBCLeg>)
    requires |info.inboundRoutes| == |info.inboundPath| && |info.inboundRoutes| <= |info.inboundIntermediateTokens| + 1
    ensures |legs| == |info.inboundRoutes|
    ensures InboundLegsOk(req, info, legs)
  {
    legs := [];
    var i := 0;
    ghost var path := info.inboundPath + [info.brokerChainId];
    while i < |info.inboundRoutes|
      invariant 0 <= i <= |info.inboundRoutes| && |legs| == i
      invariant LegsFollow(legs, path[..i + 1], info.inboundRoutes[..i], req.amountIn)
      invariant forall j :: 0 <= j < i ==>
          legs[j].token == MappingOf(if j == 0 then info.tokenIn else info.inboundIntermediateTokens[j - 1], info.inboundPath[j])
    {
      var route := info.inboundRoutes[i];
      var fromChain := info.inboundPath[i];
      var toChain := if i < |info.inboundRoutes| - 1 then info.inboundPath[i + 1] else info.brokerChainId;
      var token := if i == 0 then info.tokenIn else info.inboundIntermediateTokens[i - 1];
      var leg := IBCLeg(fromChain, toChain, route.channelId, route.portId, MappingOf(token, fromChain), req.amountIn);
      LegsFollowSnoc(legs, path, info.inboundRoutes, req.amountIn, leg);
      legs := legs + [leg];
      i := i + 1;
    }
    assert path[..i + 1] == path && info.inboundRoutes[..i] == info.inboundRoutes;
  }

  /** The chains the outbound routes pass through, broker first. */
  function OutboundPath(info: MultiHopInfo): seq<ChainId> {
    [info.brokerChainId] + seq(|info.outboundRoutes|, i requires 0 <= i < |info.outboundRoutes| => info.outboundRoutes[i].toChainId)
  }

  /** The first leg carries the swapped token; a later one names the intermediate token before it,
      unless it is the last, which names the swapped token again. */
  function OutboundToken(info: MultiHopInfo, swapped: TokenMapping, i: nat): TokenMapping
    requires i < |info.outboundRoutes|
  {
    if 0 < i < |info.intermediateTokens| then MappingOf(info.intermediateTokens[i - 1], info.outboundRoutes[i - 1].toChainId) else swapped
  }

  ghost predicate OutboundTokens(info: MultiHopInfo, swapped: TokenMapping, legs: seq<IBCLeg>) {
    |legs| <= |info.outboundRoutes| && forall i :: 0 <= i < |legs| ==> legs[i].token == OutboundToken(info, swapped, i)
  }

  function OutboundLeg(info: MultiHopInfo, swapped: TokenMapping, amount: string, i: nat): IBCLeg
    requires i < |info.outboundRoutes|
  {
    var route := info.outboundRoutes[i];
    IBCLeg(if i == 0 then info.brokerChainId else info.outboundRoutes[i - 1].toChainId, route.toChainId,
           route.channelId, route.portId, OutboundToken(info, swapped, i), amount)
  }

  lemma OutboundLegsFollow(info: MultiHopInfo, swapped: TokenMapping, amount: string, legs: seq<IBCLeg>)
    requires |legs| == |info.outboundRoutes|
    requires forall i :: 0 <= i < |legs| ==> legs[i] == OutboundLeg(info, swapped, amount, i)
    ensures LegsFollow(legs, OutboundPath(info), info.outboundRoutes, amount) && OutboundTokens(info, swapped, legs)
  {}

  method BuildOutboundLegs(pf: Pathfinder, info: MultiHopInfo, amountOut: string, tokenOutOnBroker: TokenMapping)
    returns (legs: seq<IBCLeg>)
    requires |info.intermediateTokens| <= |info.outboundRoutes|
    ensures LegsFollow(legs, OutboundPath(info), info.outboundRoutes, amountOut)
    ensures OutboundTokens(info, tokenOutOnBroker, legs)
  {
    legs := [];
    var prevChain := info.brokerChainId;
    var i := 0;
    while i < |info.outboundRoutes|
      invariant 0 <= i <= |info.outboundRoutes| && |legs| == i
      invariant prevChain == if i == 0 then info.brokerChainId else info.outboundRoutes[i - 1].toChainId
      invariant forall j :: 0 <= j < i ==> legs[j] == OutboundLeg(info, tokenOutOnBroker, amountOut, j)
    {
      var route := info.outboundRoutes[i];
      var legToken := tokenOutOnBroker;
      if i > 0 && i < |info.intermediateTokens| {
        legToken := MappingOf(info.intermediateTokens[i - 1], prevChain);
      }
      legs := legs + [IBCLeg(prevChain, route.toChainId, route.channelId, route.portId, legToken, amountOut)];
      prevChain := route.toChainId;
      i := i + 1;
    }
    OutboundLegsFollow(info, tokenOutOnBroker, amountOut, legs);
  }

  method OutboundSupportsPFM(ix: IndexMaps, routes: seq<BasicRoute>) returns (b: bool)
    ensures b <==> forall i :: 0 <= i < |routes| - 1 ==> routes[i].toChainId in ix.pfmChains
  {
    var i := 0;
    while i < |routes| - 1
      invariant 0 <= i && (i == 0 || i <= |routes| - 1)
      invariant forall j :: 0 <= j < i ==> routes[j].toChainId in ix.pfmChains
    {
      if routes[i].toChainId !in ix.pfmChains { return false; }
      i := i + 1;
    }
    return true;
  }

  // ---------------------------------------------------------------------------------------------
  // Execution data
  // ---------------------------------------------------------------------------------------------

  /** The slippage minimum, or the quoted amount when it cannot be computed. */
  function MinOutputText(amountOut: string, slippageBps: nat): string {
    var m := Amounts.CalculateMinOutput(amountOut, slippageBps);
    if m.Some? then m.value else amountOut
  }

  function Bps(req: RouteRequest): nat {
    if req.slippageBps.Some? then req.slippageBps.value else 100
  }

  /** The text is the slippage minimum of the quote: for the request's slippage, or 1% if it names none. */
  predicate MinimumFor(req: RouteRequest, result: SwapResult, text: string) {
    Amounts.Minimum(text, result.amountOut, if req.slippageBps.Some? then req.slippageBps.value else 100)
  }

  lemma MinimumIsRight(req: RouteRequest, result: SwapResult)
    ensures MinimumFor(req, result, MinOutputText(result.amountOut, Bps(req)))
  {
    Amounts.CalculatedIsMinimum(result.amountOut, if req.slippageBps.Some? then req.slippageBps.value else 100);
  }

  function ConvertedOr(pf: Pathfinder, address: string, chain: ChainId, fallback: string): string {
    var a := pf.convert(address, chain);
    if a.Some? then a.value else fallback
  }

  function InboundHops(pf: Pathfinder, req: RouteRequest, routes: seq<BasicRoute>): (r: seq<IBCHop>)
    ensures |r| == |routes|
  {
    seq(|routes|, i requires 0 <= i < |routes| =>
      IBCHop(routes[i].channelId, routes[i].portId,
             if i < |routes| - 1 then ConvertedOr(pf, req.receiverAddress, routes[i].toChainId, "") else "",
             pf.timeout))
  }

  method BuildInboundHops(pf: Pathfinder, req: RouteRequest, routes: seq<BasicRoute>) returns (hops: seq<IBCHop>)
    ensures hops == InboundHops(pf, req, routes)
  {
    hops := [];
    var i := 0;
    while i < |routes|
      invariant 0 <= i <= |routes| && hops == InboundHops(pf, req, routes)[..i]
    {
      var receiver := "";
      if i < |routes| - 1 {
        var addr := pf.convert(req.receiverAddress, routes[i].toChainId);
        if addr.Some? {
          receiver := addr.value;
        }
      }
      hops := hops + [IBCHop(routes[i].channelId, routes[i].portId, receiver, pf.timeout)];
      i := i + 1;
    }
  }

  function OutboundHop(pf: Pathfinder, req: RouteRequest, routes: seq<BasicRoute>, i: nat): IBCHop
    requires i < |routes|
  {
    IBCHop(routes[i].channelId, routes[i].portId,
           if i < |routes| - 1 then ConvertedOr(pf, req.receiverAddress, routes[i].toChainId, req.receiverAddress) else req.receiverAddress,
           pf.timeout)
  }

  function OutboundHops(pf: Pathfinder, req: RouteRequest, routes: seq<BasicRoute>): (r: seq<IBCHop>)
    ensures |r| == |routes|
  {
    seq(|routes|, i requires 0 <= i < |routes| => OutboundHop(pf, req, routes, i))
  }

  method BuildOutboundHops(pf: Pathfinder, req: RouteRequest, legs: seq<IBCLeg>, ghost info: MultiHopInfo) returns (hops: seq<IBCHop>)
    requires LegsFollow(legs, OutboundPath(info), info.outboundRoutes, if legs == [] then "" else legs[0].amount)
    ensures hops == OutboundHops(pf, req, info.outboundRoutes)
  {
    hops := [];
    var i := 0;
    while i < |legs|
      invariant 0 <= i <= |legs| && |hops| == i
      invariant forall j :: 0 <= j < i ==> hops[j] == OutboundHop(pf, req, info.outboundRoutes, j)
    {
      var receiver := req.receiverAddress;
      if i < |legs| - 1 {
        var addr := pf.convert(req.receiverAddress, legs[i + 1].fromChain);
        if addr.Some? {
          receiver := addr.value;
        }
      }
      hops := hops + [IBCHop(legs[i].channel, legs[i].port, receiver, pf.timeout)];
      i := i + 1;
    }
  }

  function ParamsFor(pf: Pathfinder, req: RouteRequest, info: MultiHopInfo, result: SwapResult,
                     recover: string, receiver: string): SwapMemoParams
  {
    SwapMemoParams(DenomOnBroker(info), info.tokenOutOnBroker.chainDenom, MinOutputText(result.amountOut, Bps(req)),
                   result.routeData, pf.timeout, recover, receiver)
  }

  /** Staying on the broker means a transfer there; but for more than two inbound hops, which the
      finder never returns, the source names a forward over no channel. */
  function SwapOnlyAction(req: RouteRequest, info: MultiHopInfo, recover: string): PostSwapAction {
    if |info.inboundRoutes| > 2 then IBCTransfer("", req.receiverAddress, NoMemo, recover) else Transfer(req.receiverAddress)
  }

  /** What the contract does after the swap. */
  function PostAction(pf: Pathfinder, req: RouteRequest, info: MultiHopInfo, recover: string): PostSwapAction {
    if info.outboundRoutes == [] then SwapOnlyAction(req, info, recover)
    else
      var hops := OutboundHops(pf, req, info.outboundRoutes);
      IBCTransfer(hops[0].channel, if hops[0].receiver != "" then hops[0].receiver else req.receiverAddress,
                  Nest(hops[1..], "", req.receiverAddress, NoMemo), recover)
  }

  function CallFor(pf: Pathfinder, req: RouteRequest, info: MultiHopInfo, result: SwapResult,
                   contract: string, recover: string): Result<WasmData>
  {
    SwapCall(contract, ParamsFor(pf, req, info, result, recover, req.receiverAddress), PostAction(pf, req, info, recover))
  }

  /** The operations take the pools in order, each handing its output on. */
  ghost predicate ThroughPools(ops: seq<SwapOperation>, pools: seq<Pool>, denomIn: Denom) {
    |ops| == |pools| && forall i :: 0 <= i < |ops| ==>
      ops[i].pool == pools[i].id && ops[i].denomOut == pools[i].tokenOutDenom && ops[i].denomIn == if i == 0 then denomIn else pools[i - 1].tokenOutDenom
  }

  /** What the contract is told: which venue and pools, the minimum, until when, where to send the
      proceeds and, should that fail, whom to refund. */
  ghost predicate CallContents(pf: Pathfinder, req: RouteRequest, info: MultiHopInfo, result: SwapResult,
                               contract: string, recover: string, d: WasmData)
  {
    && d.contract == contract && d.msg.swapVenueName == "osmosis-poolmanager" && d.msg.timeoutTimestamp == pf.timeout
    && result.routeData.Osmosis? && result.routeData.routes != []
    && ThroughPools(d.msg.operations, result.routeData.routes[0].pools, DenomOnBroker(info))
    && d.msg.minAsset.denom == info.tokenOutOnBroker.chainDenom && MinimumFor(req, result, d.msg.minAsset.amount)
    && (info.outboundRoutes == [] && |info.inboundRoutes| <= 2 ==> d.msg.postSwapAction == Transfer(req.receiverAddress))
    && (info.outboundRoutes != [] ==>
          && d.msg.postSwapAction.IBCTransfer? && d.msg.postSwapAction.sourceChannel == info.outboundRoutes[0].channelId
          && d.msg.postSwapAction.recoverAddress == recover
          && (|info.outboundRoutes| == 1 ==> d.msg.postSwapAction.receiver == req.receiverAddress && d.msg.postSwapAction.memo == NoMemo))
  }

  lemma {:induction false} OperationsTakePools(pools: seq<Pool>, denomIn: Denom)
    ensures ThroughPools(Operations(pools, denomIn), pools, denomIn)
  {
    if pools != [] {
      var ops, rest := Operations(pools, denomIn), Operations(pools[1..], pools[0].tokenOutDenom);
      OperationsTakePools(pools[1..], pools[0].tokenOutDenom);
      forall i | 0 < i < |ops|
        ensures ops[i].pool == pools[i].id && ops[i].denomOut == pools[i].tokenOutDenom && ops[i].denomIn == pools[i - 1].tokenOutDenom
      {
        assert ops[i] == rest[i - 1] && pools[1..][i - 1] == pools[i];
      }
    }
  }

  lemma CallIsRight(pf: Pathfinder, req: RouteRequest, info: MultiHopInfo, result: SwapResult, contract: string, recover: string)
    ensures var call := CallFor(pf, req, info, result, contract, recover);
            call.Ok? ==> CallContents(pf, req, info, result, contract, recover, call.value)
                         && call.value.msg.minAsset.amount == MinOutputText(result.amountOut, Bps(req))
  {
    MinimumIsRight(req, result);
    if result.routeData.Osmosis? && result.routeData.routes != [] {
      OperationsTakePools(result.routeData.routes[0].pools, DenomOnBroker(info));
    }
    if |info.outboundRoutes| == 1 {
      assert OutboundHops(pf, req, info.outboundRoutes)[1..] == [];
    }
  }

  /** Execution data for a route that enters the broker over IBC: forwards through all inbound hops
      but the one the user sends, then the swap call. */
  ghost predicate MemoExecution(pf: Pathfinder, req: RouteRequest, info: MultiHopInfo, result: SwapResult,
                                contract: string, e: BrokerExecutionData)
  {
    var recover := pf.convert(req.senderAddress, info.brokerChainId);
    && info.inboundRoutes != [] && recover.Some? && e.recoverAddress == recover
    && var call := CallFor(pf, req, info, result, contract, recover.value);
    && call.Ok? && contract != ""
    && e.memo == Some(Nest(InboundHops(pf, req, info.inboundRoutes)[1..], "pfm", contract, WasmMemo(call.value)))
    && e.smartContractData.None? && e.usesWasm
    && e.ibcReceiver.Some? && e.ibcReceiver == FirstReceiver(pf, req, info, contract)
    && CallContents(pf, req, info, result, contract, recover.value, call.value)
    && e.minOutputAmount == call.value.msg.minAsset.amount
  }

  /** To whom the user's own transfer is addressed. */
  function FirstReceiver(pf: Pathfinder, req: RouteRequest, info: MultiHopInfo, contract: string): Option<string> {
    if info.outboundRoutes == [] && |info.inboundRoutes| == 2
    then pf.convert(req.senderAddress, info.inboundRoutes[0].toChainId)
    else Some(contract)
  }

  /** The broker is configured with a contract and the quote yields swap operations. */
  ghost predicate Swappable(pf: Pathfinder, info: MultiHopInfo, result: SwapResult, contract: string) {
    && info.brokerChainId in pf.chainsMap && contract != ""
    && result.routeData.Osmosis? && OperationsOf(result.routeData, DenomOnBroker(info)) != []
  }

  /** When a route over IBC can be given execution data: the addresses also convert. */
  ghost predicate MemoPossible(pf: Pathfinder, req: RouteRequest, info: MultiHopInfo, result: SwapResult, contract: string) {
    && Swappable(pf, info, result, contract)
    && pf.convert(req.senderAddress, info.brokerChainId).Some? && FirstReceiver(pf, req, info, contract).Some?
  }

  ghost predicate ContractExecution(pf: Pathfinder, req: RouteRequest, info: MultiHopInfo, result: SwapResult,
                                    contract: string, e: BrokerExecutionData)
  {
    var call := CallFor(pf, req, info, result, contract, req.senderAddress);
    && call.Ok? && contract != "" && e.smartContractData == Some(call.value)
    && e.memo.None? && e.ibcReceiver.None? && e.usesWasm
    && CallContents(pf, req, info, result, contract, req.senderAddress, call.value)
    && e.minOutputAmount == call.value.msg.minAsset.amount
  }

  /** The two-hop special case writes out by hand what nesting the second hop gives. */
  lemma HopAndSwapIsNested(contract: string, hops: seq<IBCHop>, p: SwapMemoParams)
    requires |hops| == 2 && hops[1].receiver == "" && hops[1].timeout == p.timeoutTimestamp
    ensures var call := SwapCall(contract, p, Transfer(p.receiverAddress));
            BuildHopAndSwapMemo(contract, hops, SwapAndForwardParams(p, "", p.receiverAddress, NoMemo)) ==
            if call.Ok? then Ok(Nest(hops[1..], PFM_INTERMEDIATE_RECEIVER, contract, WasmMemo(call.value))) else Err(call.error)
  {
    assert hops[1..][1..] == [];
  }

  method BuildSwapOnlyMemo(pf: Pathfinder, req: RouteRequest, info: MultiHopInfo, params: SwapMemoParams, contract: string)
    returns (memo: Result<Memo>)
    requires info.inboundRoutes != []
    requires params.timeoutTimestamp == pf.timeout && params.receiverAddress == req.receiverAddress
    ensures var call := SwapCall(contract, params, SwapOnlyAction(req, info, params.recoverAddress));
            && (memo.Ok? <==> call.Ok?)
            && (memo.Ok? ==> memo.value == Nest(InboundHops(pf, req, info.inboundRoutes)[1..], PFM_INTERMEDIATE_RECEIVER, contract, WasmMemo(call.value)))
  {
    if |info.inboundRoutes| > 1 {
      var hops := BuildInboundHops(pf, req, info.inboundRoutes);
      var forward := SwapAndForwardParams(params, "", req.receiverAddress, NoMemo);
      if |info.inboundRoutes| == 2 {
        memo := BuildHopAndSwapMemo(contract, hops, forward);
        HopAndSwapIsNested(contract, hops, params);
      } else {
        memo := BuildForwardSwapMemo(contract, hops[1..], forward);
      }
    } else {
      memo := BuildSwapMemo(contract, params);
      assert InboundHops(pf, req, info.inboundRoutes)[1..] == [];
    }
  }

  method BuildSwapOnlyExecution(pf: Pathfinder, req: RouteRequest, info: MultiHopInfo, result: SwapResult,
                                contract: string, brokerExists: bool) returns (r: Result<BrokerExecutionData>)
    requires info.inboundRoutes != [] && info.outboundRoutes == [] && !info.sourceIsBroker
    requires brokerExists <==> info.brokerChainId in pf.chainsMap
    ensures r.Ok? ==> MemoExecution(pf, req, info, result, contract, r.value)
    ensures r.Ok? <==> MemoPossible(pf, req, info, result, contract)
  {
    if !brokerExists { return Err("broker chain not found"); }
    if contract == "" { return Err("ibc-hooks contract not configured for broker"); }
    var recover := pf.convert(req.senderAddress, info.brokerChainId);
    if recover.None? { return Err("failed to derive addresses"); }
    var params := ParamsFor(pf, req, info, result, recover.value, req.receiverAddress);
    var memo := BuildSwapOnlyMemo(pf, req, info, params, contract);
    if memo.Err? { return Err(memo.error); }
    var ibcReceiver := contract;
    if |info.inboundRoutes| == 2 {
      var addr := pf.convert(req.senderAddress, info.inboundRoutes[0].toChainId);
      if addr.None? { return Err("failed to convert address"); }
      ibcReceiver := addr.value;
    }
    CallIsRight(pf, req, info, result, contract, recover.value);
    return Ok(BrokerExecutionData(Some(memo.value), None, Some(ibcReceiver), recover, params.minOutputAmount, true));
  }

  method BuildSwapAndForwardExecution(pf: Pathfinder, req: RouteRequest, info: MultiHopInfo, result: SwapResult,
                                      outboundLegs: seq<IBCLeg>, contract: string, brokerExists: bool)
    returns (r: Result<BrokerExecutionData>)
    requires info.inboundRoutes != [] && info.outboundRoutes != [] && !info.sourceIsBroker
    requires brokerExists <==> info.brokerChainId in pf.chainsMap
    requires LegsFollow(outboundLegs, OutboundPath(info), info.outboundRoutes, result.amountOut)
    ensures r.Ok? ==> MemoExecution(pf, req, info, result, contract, r.value)
    ensures r.Ok? <==> MemoPossible(pf, req, info, result, contract)
  {
    if !brokerExists || contract == "" { return Err("ibc-hooks contract not configured for broker"); }
    if |outboundLegs| == 0 { return Err("no outbound legs provided"); }
    var recover := pf.convert(req.senderAddress, info.brokerChainId);
    if recover.None? { return Err("failed to derive addresses"); }
    var firstHopReceiver := req.receiverAddress;
    if |outboundLegs| > 1 {
      firstHopReceiver := ConvertedOr(pf, req.receiverAddress, outboundLegs[0].toChain, req.receiverAddress);
    }
    var params := ParamsFor(pf, req, info, result, recover.value, firstHopReceiver);
    var forward := SwapAndForwardParams(params, outboundLegs[0].channel, firstHopReceiver, NoMemo);
    var hops := BuildInboundHops(pf, req, info.inboundRoutes);
    var memo;
    if |outboundLegs| > 1 {
      var outboundHops := BuildOutboundHops(pf, req, outboundLegs, info);
      var multi := SwapAndMultiHopParams(params, outboundHops, req.receiverAddress);
      if |info.inboundRoutes| > 1 {
        memo := BuildForwardSwapForwardMemo(contract, hops[1..], multi);
      } else {
        memo := BuildSwapAndMultiHopMemo(contract, multi);
      }
    } else {
      assert OutboundHops(pf, req, info.outboundRoutes)[1..] == [];
      if |info.inboundRoutes| > 1 {
        memo := BuildForwardSwapMemo(contract, hops[1..], forward);
      } else {
        memo := BuildSwapAndForwardMemo(contract, forward);
      }
    }
    if memo.Err? { return Err(memo.error); }
    assert |info.inboundRoutes| == 1 ==> hops[1..] == [];
    CallIsRight(pf, req, info, result, contract, recover.value);
    return Ok(BrokerExecutionData(Some(memo.value), None, Some(contract), recover, params.minOutputAmount, true));
  }

  /** What a direct contract call on the broker does after the swap. */
  function ContractAction(req: RouteRequest, legs: seq<IBCLeg>): PostSwapAction {
    if legs == [] then Transfer(req.receiverAddress)
    else IBCTransfer(legs[0].channel, req.receiverAddress, GeneratePFMMemo(legs[1..], req.receiverAddress), req.senderAddress)
  }

  /** For more than one outbound leg, which the finder never returns from the broker, the memo would
      miss a hop: it starts after the second leg, not after the first. */
  lemma ContractMemoMissesAHop(req: RouteRequest, legs: seq<IBCLeg>)
    requires |legs| > 1
    ensures Hops(ContractAction(req, legs).memo) == LegHops(legs[2..], req.receiverAddress)
    ensures |Hops(ContractAction(req, legs).memo)| == |legs| - 2
  {
    PFMMemoFlattens(legs[1..], 1, req.receiverAddress);
    assert legs[1..][1..] == legs[2..];
  }

  /** A direct contract call on the broker. */
  method BuildSmartContractExecution(pf: Pathfinder, req: RouteRequest, info: MultiHopInfo, result: SwapResult,
                                     outboundLegs: seq<IBCLeg>, contract: string, brokerExists: bool)
    returns (r: Result<BrokerExecutionData>)
    requires info.sourceIsBroker && LegsFollow(outboundLegs, OutboundPath(info), info.outboundRoutes, result.amountOut)
    requires brokerExists <==> info.brokerChainId in pf.chainsMap
    ensures r.Ok? <==> Swappable(pf, info, result, contract) && (info.swapOnly || info.outboundRoutes != [])
    ensures r.Ok? ==>
              var params := ParamsFor(pf, req, info, result, req.senderAddress, req.receiverAddress);
              var call := SwapCall(contract, params, ContractAction(req, if info.swapOnly then [] else outboundLegs));
              && call.Ok? && contract != ""
              && r.value == BrokerExecutionData(None, Some(call.value), None, None, params.minOutputAmount, true)
              && MinimumFor(req, result, r.value.minOutputAmount)
    ensures r.Ok? && |info.outboundRoutes| <= 1 && |info.inboundRoutes| <= 2 && (info.swapOnly ==> info.outboundRoutes == []) ==>
              ContractExecution(pf, req, info, result, contract, r.value)
  {
    if !brokerExists { return Err("broker chain not found"); }
    var params := ParamsFor(pf, req, info, result, req.senderAddress, req.receiverAddress);
    var post := Transfer(req.receiverAddress);
    if !info.swapOnly {
      if |outboundLegs| == 0 { return Err("no outbound legs for swap-and-forward"); }
      var forwardMemo := NoMemo;
      if |outboundLegs| > 1 {
        forwardMemo := GeneratePFMMemo(outboundLegs[1..], req.receiverAddress);
      }
      post := IBCTransfer(outboundLegs[0].channel, req.receiverAddress, forwardMemo, req.senderAddress);
      assert |outboundLegs| == 1 ==> OutboundHops(pf, req, info.outboundRoutes)[1..] == [];
    }
    var call := SwapCall(contract, params, post);
    if call.Err? { return Err(call.error); }
    CallIsRight(pf, req, info, result, contract, req.senderAddress);
    MinimumIsRight(req, result);
    return Ok(BrokerExecutionData(None, Some(call.value), None, None, params.minOutputAmount, true));
  }
}
