/** What carrying out the client's steps does on the network: the steps against the planned trips. */
module StepTrips {
  import opened RouterTypes
  import opened IndirectRouting
  import opened MultiHopRouting
  import opened IbcMemo
  import opened PacketMachine
  import opened RouteResponses
  import opened PathFinding
  import opened BrokerTrips
  import opened IndirectTrips
  import opened TransferSteps

  /** The transfer a step makes. */
  ghost function SentBy(step: TransferStep): Event
    requires step.data.TransferData?
  {
    Sent(step.fromChain, step.data.port, step.data.channel)
  }

  /** The world once the user has made it. */
  ghost function MadeBy(net: Network, step: TransferStep, receiver: string): PacketMachine.World
    requires step.data.TransferData? && Wire(net, step.fromChain, step.data.channel)
  {
    UserTransfer(net, step.fromChain, step.data.denom, step.data.port, step.data.channel, receiver, step.data.memo)
  }

  /** Made one by one, the steps of a swap-free route are the transfers its memo would forward along. */
  lemma ManualStepsSendTheLegs(r: IndirectRoute, steps: seq<TransferStep>)
    requires StepsOf(IndirectResponse(r), Manual, steps)
    ensures |steps| == |r.legs| && forall i :: 0 <= i < |steps| ==> steps[i].data.TransferData? && SentBy(steps[i]) == LegSends(r.legs)[i]
  {}

  /** Made one by one, the steps of a broker route are the planned transfers in, a swap of the quoted
      amount of the quoted denom on the broker, and the planned transfers out; the first of these names
      the route's own port, where the contract sends on "transfer". */
  lemma ManualStepsSendThePlan(pf: Pathfinder, req: RouteRequest, info: MultiHopInfo, r: BrokerRoute, steps: seq<TransferStep>)
    requires BrokerRouteBuilt(pf, req, info, r) && BrokerStepsOf(r, Manual, steps)
    ensures var n := |info.inboundRoutes|;
            && |steps| == n + 1 + |info.outboundRoutes| && |info.inboundPath| == n
            && (forall i :: 0 <= i < n ==> steps[..n][i].data.TransferData? && SentBy(steps[..n][i]) == InboundSends(info)[i])
            && steps[n].kind == Swap && steps[n].fromChain == info.brokerChainId
            && steps[n].data == SwapData(r.swap.result.amountIn, DenomOnBroker(info))
            && (forall j :: 0 <= j < |info.outboundRoutes| ==>
                  var step := steps[n + 1..][j];
                  && step.data.TransferData?
                  && SentBy(step) == Sent(OutboundPath(info)[j], info.outboundRoutes[j].portId, info.outboundRoutes[j].channelId)
                  && (j > 0 || info.outboundRoutes[0].portId == "transfer" ==> SentBy(step) == OutboundSends(info)[j]))
  {
    BuiltShape(pf, req, info, r);
    SwapChainIsBroker(req, info, r);
    ManualInbound(req, info, r, steps[..|r.inboundLegs|]);
    ManualOutbound(req, info, r, steps[|r.inboundLegs| + 1..]);
  }

  lemma ManualInbound(req: RouteRequest, info: MultiHopInfo, r: BrokerRoute, steps: seq<TransferStep>)
    requires ClientShape(req, info, r) && TransfersEach(steps, r.inboundLegs)
    ensures forall i :: 0 <= i < |steps| ==> steps[i].data.TransferData? && SentBy(steps[i]) == InboundSends(info)[i]
  {
    forall i | 0 <= i < |steps| ensures steps[i].data.TransferData? && SentBy(steps[i]) == InboundSends(info)[i] {
      assert r.inboundLegs[i].fromChain == (info.inboundPath + [info.brokerChainId])[i];
    }
  }

  lemma ManualOutbound(req: RouteRequest, info: MultiHopInfo, r: BrokerRoute, steps: seq<TransferStep>)
    requires ClientShape(req, info, r) && TransfersEach(steps, r.outboundLegs)
    ensures forall j :: 0 <= j < |steps| ==>
              && steps[j].data.TransferData?
              && SentBy(steps[j]) == Sent(OutboundPath(info)[j], info.outboundRoutes[j].portId, info.outboundRoutes[j].channelId)
              && (j > 0 || info.outboundRoutes[0].portId == "transfer" ==> SentBy(steps[j]) == OutboundSends(info)[j])
  {}

  /** The one step of a swap-free route in smart mode takes every leg in order and ends with the
      receiver on ChainTo, exactly when the intermediate chains run PFM. */
  lemma SmartStepTakesTheLegs(net: Network, pf: Pathfinder, req: RouteRequest, info: IndirectRouteInfo, r: IndirectRoute, steps: seq<TransferStep>)
    requires SoundRoute(Search(pf.ix, req.chainFrom, info.token), req.chainTo, info) && IndirectBuilt(pf, req, info, r)
    requires PathServed(net, info) && r.supportsPFM && StepsOf(IndirectResponse(r), Smart, steps)
    ensures |steps| == 1 && steps[0].data.TransferData? && Wire(net, steps[0].fromChain, steps[0].data.channel)
    ensures var end := Run(net, MadeBy(net, steps[0], req.receiverAddress));
            && (end.log == LegSends(r.legs) <==> IntermediatesForward(net, r.path))
            && (IntermediatesForward(net, r.path) ==> end.coin.chain == req.chainTo && end.coin.receiver == req.receiverAddress)
  {
    IndirectRouteExecutes(net, pf, req, info, r);
  }

  /** The one step of a broker route in smart mode carries out the plan, for the minimum that the
      request's slippage leaves of the quote, exactly when the forwarding chains run PFM. */
  lemma SmartStepCarriesOutThePlan(net: Network, pf: Pathfinder, req: RouteRequest, info: MultiHopInfo, r: BrokerRoute,
                                   contract: string, steps: seq<TransferStep>)
    requires BrokerRouteBuilt(pf, req, info, r) && r.execution.Some? && BrokerStepsOf(r, Smart, steps)
    requires contract == pf.clients[info.brokerChain].contractAddress && Ready(net, pf, req, info, r.swap.result, contract)
    requires !info.sourceIsBroker ==> info.tokenIn.chainDenom == req.tokenFromDenom
    ensures |steps| == 1 && MinimumFor(req, r.swap.result, r.execution.value.minOutputAmount)
    ensures !info.sourceIsBroker ==>
              && steps[0].data.TransferData? && Wire(net, steps[0].fromChain, steps[0].data.channel) && r.execution.value.ibcReceiver.Some?
              && var end := Run(net, MadeBy(net, steps[0], r.execution.value.ibcReceiver.value));
                 end.log == PlannedLog(info, r.swap.result, r.execution.value.minOutputAmount) <==> InboundPfm(net, info) && OutboundPfm(net, info)
    ensures info.sourceIsBroker ==>
              && steps[0].data.ContractData?
              && Run(net, World(Coin(steps[0].fromChain, req.tokenFromDenom, contract), WasmMemo(steps[0].data.contract), [])).log
                   == PlannedLog(info, r.swap.result, r.execution.value.minOutputAmount)
  {
    BuiltShape(pf, req, info, r);
    if info.sourceIsBroker {
      ContractRouteExecutes(net, pf, req, info, r.swap.result, contract, r.execution.value);
    } else {
      MemoRouteExecutes(net, pf, req, info, r.swap.result, contract, r.execution.value);
      StepDeparts(net, req, info, r, steps[0]);
    }
  }

  lemma StepDeparts(net: Network, req: RouteRequest, info: MultiHopInfo, r: BrokerRoute, step: TransferStep)
    requires info.inboundRoutes != [] && InboundLegsOk(req, info, r.inboundLegs) && |r.inboundLegs| == |info.inboundRoutes| == |info.inboundPath|
    requires (info.inboundPath + [info.brokerChainId])[0] == req.chainFrom && info.tokenIn.chainDenom == req.tokenFromDenom
    requires Wire(net, req.chainFrom, info.inboundRoutes[0].channelId)
    requires r.execution.Some? && r.execution.value.memo.Some? && r.execution.value.ibcReceiver.Some?
    requires Transfers(step, r.inboundLegs[0], r.execution.value.memo.value)
    ensures step.fromChain == req.chainFrom && step.data.channel == info.inboundRoutes[0].channelId
    ensures MadeBy(net, step, r.execution.value.ibcReceiver.value) == Departure(net, req, info, r.execution.value)
  {}
}
