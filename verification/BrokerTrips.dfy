/** What the compiled memos do: on a network where the route's own channels lead where the route says
    and its inbound tokens arrive as it says, execution data built for the route takes exactly the
    planned channels, swaps once, and ends with the user. Nothing is asked of other routes. */
module BrokerTrips {
  import opened RouterTypes
  import opened RouteIndexing
  import opened MultiHopRouting
  import opened IbcMemo
  import opened PacketMachine
  import opened RouteResponses

  // ---------------------------------------------------------------------------------------------
  // Networks that agree with the configuration
  // ---------------------------------------------------------------------------------------------

  /** The route's channel leads where it says, and its tokens arrive as it says. */
  ghost predicate Truthful(net: Network, a: ChainId, r: BasicRoute) {
    && Wire(net, a, r.channelId) && net.wires[(a, r.channelId)] == r.toChainId
    && forall d, t :: Allows(r, d, t) ==> t.chainDenom == d && net.arrives(a, r.channelId, d) == t.ibcDenom
  }

  ghost predicate BrokerRouteFrom(ix: IndexMaps, c: ChainId, r: BasicRoute) {
    exists b :: Lookup(ix.brokerChains, c) == Some(b) && Lookup2(ix.brokerRoutes, b, r.toChainId) == Some(r)
  }

  ghost predicate NetworkAgrees(net: Network, ix: IndexMaps) {
    && (forall a, r :: RouteFrom(ix, a, r) ==> Truthful(net, a, r))
    && (forall c, r :: BrokerRouteFrom(ix, c, r) ==> Truthful(net, c, r))
    && (forall c, d :: Lookup2(ix.denomToTokenInfo, c, d).Some? ==> Lookup2(ix.denomToTokenInfo, c, d).value.chainDenom == d)
  }

  /** If every configured route is truthful and broker chains are registered, the built index agrees. */
  lemma ConfiguredNetworkAgrees(net: Network, ix: IndexMaps, chains: seq<PathfinderChain>)
    requires Refines(ix, chains) && OneChainPerBroker(ix)
    requires forall l :: l in Links(chains) ==> Truthful(net, l.chain.id, l.route)
    requires forall l :: l in Links(chains) && l.chain.broker ==> Lookup(ix.brokerChains, l.chain.id) == Some(l.chain.brokerId)
    ensures NetworkAgrees(net, ix)
  {
    var links := Links(chains);
    forall a, r | RouteFrom(ix, a, r) ensures Truthful(net, a, r) {
      if Lookup2(ix.chainRoutes, a, r.toChainId) == Some(r) {
        FirstIsFirst(map[], links, Between(a, r.toChainId));
      } else {
        var k :| Lookup2(ix.chainToBrokerRoutes, a, k) == Some(r);
        LastIsLast(ix.brokerChains, links, ToBroker(a, k));
      }
    }
    forall c, r | BrokerRouteFrom(ix, c, r) ensures Truthful(net, c, r) {
      var b :| Lookup(ix.brokerChains, c) == Some(b) && Lookup2(ix.brokerRoutes, b, r.toChainId) == Some(r);
      FirstIsFirst(map[], links, FromBroker(b, r.toChainId));
    }
    forall c, d | Lookup2(ix.denomToTokenInfo, c, d).Some?
      ensures Lookup2(ix.denomToTokenInfo, c, d).value.chainDenom == d
    {
      TokenKeyed(net, chains, c, d);
    }
  }

  lemma TokenKeyed(net: Network, chains: seq<PathfinderChain>, c: ChainId, d: Denom)
    requires forall l :: l in Links(chains) ==> Truthful(net, l.chain.id, l.route)
    requires TokenOf(Links(chains), Natives(chains), c, d).Some?
    ensures TokenOf(Links(chains), Natives(chains), c, d).value.chainDenom == d
  {
    LastIsLast(map[], Links(chains), Carrying(c, d));
    var l := Last(map[], Links(chains), Carrying(c, d));
    if l.Some? {
      assert Allows(l.value.route, d, l.value.route.allowedTokens[d]);
    } else {
      NativeKeyed(Natives(chains), c, d);
    }
  }

  lemma {:induction false} NativeKeyed(natives: seq<Native>, c: ChainId, d: Denom)
    ensures FirstNative(natives, c, d).Some? ==> FirstNative(natives, c, d).value.chainDenom == d
  {
    if natives != [] { NativeKeyed(natives[..|natives| - 1], c, d); }
  }

  // ---------------------------------------------------------------------------------------------
  // The plan
  // ---------------------------------------------------------------------------------------------

  ghost function InboundSends(info: MultiHopInfo): seq<Event>
    requires |info.inboundPath| == |info.inboundRoutes|
  {
    seq(|info.inboundRoutes|, i requires 0 <= i < |info.inboundRoutes| =>
      Sent(info.inboundPath[i], info.inboundRoutes[i].portId, info.inboundRoutes[i].channelId))
  }

  /** The entry point sends over the transfer port; further hops name their own. */
  ghost function OutboundSends(info: MultiHopInfo): seq<Event> {
    seq(|info.outboundRoutes|, i requires 0 <= i < |info.outboundRoutes| =>
      Sent(OutboundPath(info)[i], if i == 0 then "transfer" else info.outboundRoutes[i].portId, info.outboundRoutes[i].channelId))
  }

  ghost function TheSwap(info: MultiHopInfo, result: SwapResult, minimum: string): Event {
    Swapped(info.brokerChainId, OperationsOf(result.routeData, DenomOnBroker(info)), Asset(info.tokenOutOnBroker.chainDenom, minimum))
  }

  ghost predicate InboundPfm(net: Network, info: MultiHopInfo) {
    forall i :: 0 < i < |info.inboundPath| ==> info.inboundPath[i] in net.pfm
  }

  ghost predicate OutboundPfm(net: Network, info: MultiHopInfo) {
    forall i :: 0 <= i < |info.outboundRoutes| - 1 ==> info.outboundRoutes[i].toChainId in net.pfm
  }

  /** The broker's quote turns the denom it was asked about into the denom it was asked for. */
  ghost predicate QuoteAnswers(info: MultiHopInfo, result: SwapResult) {
    && result.routeData.Osmosis? && result.routeData.routes != [] && result.routeData.routes[0].pools != []
    && var pools := result.routeData.routes[0].pools;
       pools[|pools| - 1].tokenOutDenom == info.tokenOutOnBroker.chainDenom
  }

  /** The denom the plan ends in: what the network makes of the swapped denom on the way out. */
  ghost function FinalDenom(net: Network, info: MultiHopInfo): Denom {
    var out, swapped := info.outboundRoutes, info.tokenOutOnBroker.chainDenom;
    if out == [] then swapped
    else
      var first := net.arrives(info.brokerChainId, out[0].channelId, swapped);
      if |out| == 1 then first else net.arrives(out[0].toChainId, out[1].channelId, first)
  }

  // ---------------------------------------------------------------------------------------------
  // In, swap, out
  // ---------------------------------------------------------------------------------------------

  /** The user's transfer of the source token, with the execution's memo and receiver. */
  ghost function Departure(net: Network, req: RouteRequest, info: MultiHopInfo, e: BrokerExecutionData): World
    requires info.inboundRoutes != [] && Wire(net, req.chainFrom, info.inboundRoutes[0].channelId)
    requires e.memo.Some? && e.ibcReceiver.Some?
  {
    UserTransfer(net, req.chainFrom, req.tokenFromDenom, info.inboundRoutes[0].portId, info.inboundRoutes[0].channelId,
                 e.ibcReceiver.value, e.memo.value)
  }

  /** The coin on the broker, addressed to the contract. */
  ghost function AtBroker(info: MultiHopInfo, contract: string, d: WasmData): World
    requires |info.inboundPath| == |info.inboundRoutes|
  {
    World(Coin(info.brokerChainId, DenomOnBroker(info), contract), WasmMemo(d), InboundSends(info))
  }

  ghost predicate Leads(net: Network, a: ChainId, r: BasicRoute) {
    Wire(net, a, r.channelId) && net.wires[(a, r.channelId)] == r.toChainId
  }

  /** The inbound channels lead to the broker, and the one denom each carries arrives as the route
      says; on the broker itself the source token is the one asked for. */
  ghost predicate InboundServed(net: Network, req: RouteRequest, info: MultiHopInfo) {
    var routes := info.inboundRoutes;
    && (routes == [] ==> info.tokenIn.chainDenom == req.tokenFromDenom)
    && (routes != [] ==>
          && routes[|routes| - 1].toChainId == info.brokerChainId
          && Leads(net, req.chainFrom, routes[0])
          && net.arrives(req.chainFrom, routes[0].channelId, req.tokenFromDenom) == info.tokenIn.ibcDenom)
    && (|routes| == 2 && |info.inboundIntermediateTokens| == 1 ==>
          && Leads(net, routes[0].toChainId, routes[1])
          && net.arrives(routes[0].toChainId, routes[1].channelId, info.tokenIn.ibcDenom) == info.inboundIntermediateTokens[0].ibcDenom)
  }

  /** The outbound channels lead where the routes say. */
  ghost predicate OutboundServed(net: Network, info: MultiHopInfo) {
    var routes := info.outboundRoutes;
    && (routes != [] ==> Leads(net, info.brokerChainId, routes[0]))
    && (|routes| == 2 ==> Leads(net, routes[0].toChainId, routes[1]))
  }

  ghost predicate Ready(net: Network, pf: Pathfinder, req: RouteRequest, info: MultiHopInfo, result: SwapResult, contract: string) {
    && Executable(pf.ix, req, info) && InboundServed(net, req, info) && OutboundServed(net, info)
    && QuoteAnswers(info, result) && (info.brokerChainId, contract) in net.contracts
  }

  /** A network that agrees with the whole index serves every route of it, for one chain per broker. */
  lemma AgreeingNetworkServes(net: Network, ix: IndexMaps, req: RouteRequest, info: MultiHopInfo)
    requires Executable(ix, req, info) && NetworkAgrees(net, ix) && OneChainPerBroker(ix)
    ensures InboundServed(net, req, info) && OutboundServed(net, info)
  {
    var inbound, out := info.inboundRoutes, info.outboundRoutes;
    if inbound != [] {
      assert RouteFrom(ix, req.chainFrom, inbound[0]) && Truthful(net, req.chainFrom, inbound[0]);
      assert Allows(inbound[0], req.tokenFromDenom, info.tokenIn);
      if |inbound| == 2 {
        assert RouteFrom(ix, info.inboundPath[1], inbound[1]) && Truthful(net, info.inboundPath[1], inbound[1]);
        assert Allows(inbound[1], info.tokenIn.ibcDenom, info.inboundIntermediateTokens[0]);
      }
    }
    if out != [] {
      assert BrokerRouteFrom(ix, info.brokerChainId, out[0]);
      if |out| == 2 {
        assert RouteFrom(ix, out[0].toChainId, out[1]);
      }
    }
  }

  lemma {:induction false} InboundTrip(net: Network, pf: Pathfinder, req: RouteRequest, info: MultiHopInfo, result: SwapResult,
                    contract: string, e: BrokerExecutionData, d: WasmData)
    requires Ready(net, pf, req, info, result, contract) && !info.sourceIsBroker && contract != ""
    requires e.memo == Some(Nest(InboundHops(pf, req, info.inboundRoutes)[1..], "pfm", contract, WasmMemo(d)))
    requires e.ibcReceiver.Some? && (|info.inboundRoutes| == 1 ==> e.ibcReceiver.value == contract)
    ensures Wire(net, req.chainFrom, info.inboundRoutes[0].channelId)
    ensures InboundPfm(net, info) ==> Run(net, Departure(net, req, info, e)) == Run(net, AtBroker(info, contract, d))
    ensures !InboundPfm(net, info) ==> |Run(net, Departure(net, req, info, e)).log| == 1
  {
    var routes := info.inboundRoutes;
    if |routes| == 1 {
      assert InboundHops(pf, req, routes)[1..] == [];
      assert InboundSends(info) == Departure(net, req, info, e).log;
    } else {
      InboundSecondHop(net, pf, req, info, result, contract, e, d);
    }
  }

  lemma {:induction false} InboundSecondHop(net: Network, pf: Pathfinder, req: RouteRequest, info: MultiHopInfo, result: SwapResult,
                         contract: string, e: BrokerExecutionData, d: WasmData)
    requires Ready(net, pf, req, info, result, contract) && |info.inboundRoutes| == 2 && contract != ""
    requires e.memo == Some(Nest(InboundHops(pf, req, info.inboundRoutes)[1..], "pfm", contract, WasmMemo(d)))
    requires e.ibcReceiver.Some?
    ensures InboundPfm(net, info) ==> Run(net, Departure(net, req, info, e)) == Run(net, AtBroker(info, contract, d))
    ensures !InboundPfm(net, info) ==> |Run(net, Departure(net, req, info, e)).log| == 1
  {
    var routes, hops := info.inboundRoutes, InboundHops(pf, req, info.inboundRoutes);
    var w := Departure(net, req, info, e);
    assert hops[1..] == [hops[1]] && hops[1..][1..] == [];
    if info.inboundPath[1] in net.pfm {
      var w' := Transmit(net, w, hops[1].port, hops[1].channel, contract, WasmMemo(d));
      assert Next(net, w) == Some(w');
      assert InboundSends(info) == w'.log;
    }
  }

  lemma CallIsAccepted(net: Network, pf: Pathfinder, req: RouteRequest, info: MultiHopInfo, result: SwapResult,
                       contract: string, recover: string, d: WasmData)
    requires Ready(net, pf, req, info, result, contract)
    requires CallFor(pf, req, info, result, contract, recover) == Ok(d)
    ensures CallAccepted(net, Coin(info.brokerChainId, DenomOnBroker(info), contract), d)
    ensures d.contract == contract && d.msg.postSwapAction == PostAction(pf, req, info, recover)
    ensures Swapped(info.brokerChainId, d.msg.operations, d.msg.minAsset) == TheSwap(info, result, d.msg.minAsset.amount)
  {
    OperationsAreLinked(result.routeData.routes[0].pools, DenomOnBroker(info));
  }

  /** From the broker: the swap, then exactly the outbound channels. */
  lemma {:induction false} OutboundTrip(net: Network, pf: Pathfinder, req: RouteRequest, info: MultiHopInfo, result: SwapResult,
                     contract: string, recover: string, d: WasmData, w: World)
    requires Ready(net, pf, req, info, result, contract)
    requires CallFor(pf, req, info, result, contract, recover) == Ok(d)
    requires w.coin == Coin(info.brokerChainId, DenomOnBroker(info), contract) && w.memo == WasmMemo(d)
    ensures var log := w.log + [TheSwap(info, result, d.msg.minAsset.amount)];
            && (OutboundPfm(net, info) ==>
                  Run(net, w) == World(Coin(req.chainTo, FinalDenom(net, info), req.receiverAddress), NoMemo, log + OutboundSends(info)))
            && (!OutboundPfm(net, info) ==> |Run(net, w).log| < |log + OutboundSends(info)|)
  {
    CallIsAccepted(net, pf, req, info, result, contract, recover, d);
    var log := w.log + [TheSwap(info, result, d.msg.minAsset.amount)];
    var out := info.outboundRoutes;
    if out == [] {
      RunSwapAndTransfer(net, w, d, req.receiverAddress);
      assert log + OutboundSends(info) == log;
    } else {
      var hops := OutboundHops(pf, req, out);
      var w1 := SwapAndSend(net, w, d);
      assert Next(net, w) == Some(w1);
      assert w1.log == log + [Sent(info.brokerChainId, DEFAULT_PORT, out[0].channelId)];
      if |out| == 1 {
        assert hops[1..] == [];
        assert w1.log == log + OutboundSends(info);
      } else {
        SecondHop(net, pf, req, info, w1, log);
      }
    }
  }

  lemma {:induction false} SecondHop(net: Network, pf: Pathfinder, req: RouteRequest, info: MultiHopInfo, w1: World, log: seq<Event>)
    requires |info.outboundRoutes| == 2
    requires OutboundServed(net, info) && info.outboundRoutes[1].toChainId == req.chainTo
    requires w1.coin.chain == info.outboundRoutes[0].toChainId
    requires w1.coin.denom == net.arrives(info.brokerChainId, info.outboundRoutes[0].channelId, info.tokenOutOnBroker.chainDenom)
    requires w1.memo == Nest(OutboundHops(pf, req, info.outboundRoutes)[1..], "", req.receiverAddress, NoMemo)
    requires w1.log == log + [Sent(info.brokerChainId, DEFAULT_PORT, info.outboundRoutes[0].channelId)]
    ensures OutboundPfm(net, info) ==>
              Run(net, w1) == World(Coin(req.chainTo, FinalDenom(net, info), req.receiverAddress), NoMemo, log + OutboundSends(info))
    ensures !OutboundPfm(net, info) ==> |Run(net, w1).log| < |log + OutboundSends(info)|
  {
    var out, hops := info.outboundRoutes, OutboundHops(pf, req, info.outboundRoutes);
    assert hops[1..] == [hops[1]] && hops[1..][1..] == [];
    if out[0].toChainId in net.pfm {
      var w2 := Transmit(net, w1, hops[1].port, hops[1].channel, req.receiverAddress, NoMemo);
      assert Next(net, w1) == Some(w2);
      assert w2.log == log + OutboundSends(info);
    }
  }

  // ---------------------------------------------------------------------------------------------
  // The theorems
  // ---------------------------------------------------------------------------------------------

  ghost function PlannedLog(info: MultiHopInfo, result: SwapResult, minimum: string): seq<Event>
    requires |info.inboundPath| == |info.inboundRoutes|
  {
    InboundSends(info) + [TheSwap(info, result, minimum)] + OutboundSends(info)
  }

  /** All six shapes that enter the broker over IBC (one or two inbound hops; zero, one or two
      outbound): the run is the plan exactly when the forwarding chains run PFM. The plan swaps for
      the minimum that the request's slippage leaves of the quote. */
  lemma MemoRouteExecutes(net: Network, pf: Pathfinder, req: RouteRequest, info: MultiHopInfo, result: SwapResult,
                          contract: string, e: BrokerExecutionData)
    requires Ready(net, pf, req, info, result, contract) && !info.sourceIsBroker
    requires MemoExecution(pf, req, info, result, contract, e)
    ensures MinimumFor(req, result, e.minOutputAmount)
    ensures Wire(net, req.chainFrom, info.inboundRoutes[0].channelId)
    ensures var end := Run(net, Departure(net, req, info, e));
            && (end.log == PlannedLog(info, result, e.minOutputAmount) <==> InboundPfm(net, info) && OutboundPfm(net, info))
            && (InboundPfm(net, info) && OutboundPfm(net, info) ==>
                  end.memo == NoMemo && end.coin == Coin(req.chainTo, FinalDenom(net, info), req.receiverAddress))
  {
    var recover := pf.convert(req.senderAddress, info.brokerChainId).value;
    var d := CallFor(pf, req, info, result, contract, recover).value;
    InboundTrip(net, pf, req, info, result, contract, e, d);
    OutboundTrip(net, pf, req, info, result, contract, recover, d, AtBroker(info, contract, d));
  }

  /** The two shapes that start on the broker: a contract call with the source token as funds. */
  lemma ContractRouteExecutes(net: Network, pf: Pathfinder, req: RouteRequest, info: MultiHopInfo, result: SwapResult,
                              contract: string, e: BrokerExecutionData)
    requires Ready(net, pf, req, info, result, contract) && info.sourceIsBroker
    requires ContractExecution(pf, req, info, result, contract, e)
    ensures MinimumFor(req, result, e.minOutputAmount)
    ensures var end := Run(net, World(Coin(req.chainFrom, req.tokenFromDenom, contract), WasmMemo(e.smartContractData.value), []));
            && end.log == PlannedLog(info, result, e.minOutputAmount) && end.memo == NoMemo
            && end.coin == Coin(req.chainTo, FinalDenom(net, info), req.receiverAddress)
  {
    var d := e.smartContractData.value;
    var w := World(Coin(req.chainFrom, req.tokenFromDenom, contract), WasmMemo(d), []);
    OutboundTrip(net, pf, req, info, result, contract, req.senderAddress, d, w);
    assert w.log == InboundSends(info);
  }

  /** The outbound denoms arrive as the route's own entries say. */
  ghost predicate OutboundAgrees(net: Network, req: RouteRequest, info: MultiHopInfo) {
    var out := info.outboundRoutes;
    && (out == [] ==> info.tokenOut.chainDenom == req.tokenToDenom)
    && (out != [] ==>
          net.arrives(info.brokerChainId, out[0].channelId, info.tokenOutOnBroker.chainDenom) == info.tokenOutOnBroker.ibcDenom)
    && (|out| == 2 ==>
          forall d, t :: Allows(out[1], d, t) ==> t.chainDenom == d && net.arrives(out[0].toChainId, out[1].channelId, d) == t.ibcDenom)
  }

  lemma AgreeingNetworkDelivers(net: Network, ix: IndexMaps, req: RouteRequest, info: MultiHopInfo)
    requires Executable(ix, req, info) && NetworkAgrees(net, ix)
    ensures OutboundAgrees(net, req, info)
  {
    var out := info.outboundRoutes;
    if out != [] {
      assert BrokerRouteFrom(ix, info.brokerChainId, out[0]);
      var d :| Allows(out[0], d, info.tokenOutOnBroker);
      if |out| == 2 {
        assert RouteFrom(ix, out[0].toChainId, out[1]) && Truthful(net, out[0].toChainId, out[1]);
      }
    }
  }

  /** The user receives the requested denom; through an origin chain, exactly when the second route
      turns what the first one delivers into it. */
  lemma FinalDenomIsRequested(net: Network, ix: IndexMaps, req: RouteRequest, info: MultiHopInfo)
    requires Executable(ix, req, info) && OutboundAgrees(net, req, info)
    ensures |info.outboundRoutes| < 2 ==> FinalDenom(net, info) == req.tokenToDenom
    ensures |info.outboundRoutes| == 2 ==>
              var second, denom := info.outboundRoutes[1], info.tokenOutOnBroker.ibcDenom;
              && FinalDenom(net, info) == net.arrives(info.outboundRoutes[0].toChainId, second.channelId, denom)
              && (denom in second.allowedTokens ==>
                    (FinalDenom(net, info) == req.tokenToDenom <==> second.allowedTokens[denom].ibcDenom == req.tokenToDenom))
              && (denom == info.intermediateTokens[0].chainDenom ==> FinalDenom(net, info) == req.tokenToDenom)
  {
    if |info.outboundRoutes| == 2 {
      var second, denom := info.outboundRoutes[1], info.tokenOutOnBroker.ibcDenom;
      var d :| Allows(second, d, info.intermediateTokens[0]);
      if denom in second.allowedTokens {
        assert Allows(second, denom, second.allowedTokens[denom]);
      }
    }
  }
}
