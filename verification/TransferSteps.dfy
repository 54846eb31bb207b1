/** Compiling a response into the client's steps (client_app/src/context/transferContext.tsx:531-719,
    client_app/src/hooks/usePathfinderQuery.ts:299-331). */
module TransferSteps {
  import opened RouterTypes
  import opened RouteIndexing
  import opened IndirectRouting
  import opened MultiHopRouting
  import opened IbcMemo
  import opened RouteResponses
  import opened PathFinding

  datatype TransferMode = Manual | Smart
  datatype StepType = IbcTransfer | Swap | MultiHop | WasmExecution | MultiHopSwap
  datatype StepStatus = Pending | Signing | Broadcasting | Confirming | Completed | Failed

  datatype StepData =
    | TransferData(channel: string, port: string, amount: string, denom: Denom, memo: Memo)
    | SwapData(swapAmount: string, swapDenom: Denom)
    | ContractData(contract: WasmData)

  datatype TransferStep = TransferStep(id: string, kind: StepType, fromChain: ChainId, toChain: ChainId, status: StepStatus,
                                       txHash: Option<string>, error: Option<string>, data: StepData,
                                       transferOrder: Option<seq<ChainId>>)

  function NewStep(id: string, kind: StepType, fromChain: ChainId, toChain: ChainId, data: StepData,
                   order: Option<seq<ChainId>>): TransferStep
  {
    TransferStep(id, kind, fromChain, toChain, Pending, None, None, data, order)
  }

  function LegData(leg: IBCLeg, memo: Memo): StepData {
    TransferData(leg.channel, leg.port, leg.amount, leg.token.chainDenom, memo)
  }

  function LegStep(id: string, leg: IBCLeg): TransferStep {
    NewStep(id, IbcTransfer, leg.fromChain, leg.toChain, LegData(leg, NoMemo), None)
  }

  predicate HasContractData(r: BrokerRoute) {
    r.execution.Some? && r.execution.value.usesWasm && r.execution.value.smartContractData.Some?
  }

  predicate HasMemo(r: BrokerRoute) {
    r.execution.Some? && r.execution.value.memo.Some? && r.execution.value.memo.value != NoMemo
  }

  function GetRouteStepCount(resp: RouteResponse, mode: TransferMode): nat {
    match resp
    case Impossible(_) => 0
    case DirectResponse(_) => 1
    case IndirectResponse(r) => if mode == Smart && r.supportsPFM then 1 else |r.legs|
    case BrokerResponse(r) =>
      if mode == Smart && r.execution.Some? && r.execution.value.usesWasm then 1
      else |r.inboundLegs| + 1 + |r.outboundLegs|
  }

  function ExtractChainPath(resp: RouteResponse): seq<ChainId> {
    match resp
    case Impossible(_) => []
    case DirectResponse(leg) => [leg.fromChain, leg.toChain]
    case IndirectResponse(r) => r.path
    case BrokerResponse(r) => r.path
  }

  /** The path shown and stored for a response runs from ChainFrom to ChainTo. */
  lemma ChainPathEnds(pf: Pathfinder, req: RouteRequest, resp: RouteResponse)
    requires ResponseOk(pf, req, resp) && !resp.Impossible?
    ensures var path := ExtractChainPath(resp); |path| > 0 && path[0] == req.chainFrom && path[|path| - 1] == req.chainTo
  {
    match resp {
      case DirectResponse(_) =>
      case IndirectResponse(r) =>
        var info := BuiltIndirect(pf, req, r);
      case BrokerResponse(r) =>
        var info :| BrokerRouteBuilt(pf, req, info, r);
        BuiltShape(pf, req, info, r);
        assert info.outboundRoutes == [] || OutboundPath(info)[|OutboundPath(info)| - 1] == req.chainTo;
    }
  }

  /** Each step starts where the one before ended, from one chain to another. */
  ghost predicate Contiguous(steps: seq<TransferStep>, from: ChainId, to: ChainId) {
    if steps == [] then from == to
    else
      && steps[0].fromChain == from && steps[|steps| - 1].toChain == to
      && forall i :: 0 < i < |steps| ==> steps[i].fromChain == steps[i - 1].toChain
  }

  ghost predicate AllPending(steps: seq<TransferStep>) {
    forall i :: 0 <= i < |steps| ==> steps[i].status == Pending
  }

  // ---------------------------------------------------------------------------------------------
  // What the steps carry
  // ---------------------------------------------------------------------------------------------

  /** The step sends what the leg says, over its channel and port, with the memo. */
  ghost predicate Transfers(step: TransferStep, leg: IBCLeg, memo: Memo) {
    && step.fromChain == leg.fromChain && step.data.TransferData?
    && step.data.channel == leg.channel && step.data.port == leg.port && step.data.amount == leg.amount
    && step.data.denom == leg.token.chainDenom && step.data.memo == memo
  }

  /** One plain transfer per leg. */
  ghost predicate TransfersEach(steps: seq<TransferStep>, legs: seq<IBCLeg>) {
    |steps| == |legs| && forall i :: 0 <= i < |steps| ==>
      steps[i].kind == IbcTransfer && steps[i].toChain == legs[i].toChain && Transfers(steps[i], legs[i], NoMemo)
  }

  /** One transaction for the whole path, to be tracked along it. */
  ghost predicate AllInOne(steps: seq<TransferStep>, kind: StepType, path: seq<ChainId>) {
    |steps| == 1 && |path| > 0 && steps[0].kind == kind && steps[0].transferOrder == Some(path) && steps[0].fromChain == path[0]
  }

  /** The swap as quoted, on the chain the inbound legs lead to. */
  ghost predicate SwapsQuoted(step: TransferStep, r: BrokerRoute) {
    && |r.inboundLegs| < |r.path| && step.kind == Swap && step.fromChain == step.toChain == r.path[|r.inboundLegs|]
    && step.data.SwapData? && step.data.swapAmount == r.swap.result.amountIn && step.data.swapDenom == r.swap.tokenIn.chainDenom
  }

  ghost predicate BrokerStepsOf(r: BrokerRoute, mode: TransferMode, steps: seq<TransferStep>) {
    var e := r.execution;
    if mode == Smart && e.Some? && e.value.usesWasm && e.value.smartContractData.Some? && r.inboundLegs == [] then
      && AllInOne(steps, WasmExecution, r.path) && steps[0].toChain == r.path[|r.path| - 1]
      && steps[0].data == ContractData(e.value.smartContractData.value)
    else if mode == Smart && e.Some? && e.value.memo.Some? && e.value.memo.value != NoMemo then
      && AllInOne(steps, MultiHopSwap, r.path) && |r.path| > 1 && steps[0].toChain == r.path[1]
      && r.inboundLegs != [] && Transfers(steps[0], r.inboundLegs[0], e.value.memo.value)
    else
      var n := |r.inboundLegs|;
      && n < |steps| && TransfersEach(steps[..n], r.inboundLegs)
      && SwapsQuoted(steps[n], r) && TransfersEach(steps[n + 1..], r.outboundLegs)
  }

  /** What the steps for a response send, field by field. */
  ghost predicate StepsOf(resp: RouteResponse, mode: TransferMode, steps: seq<TransferStep>) {
    match resp
    case Impossible(_) => steps == []
    case DirectResponse(leg) => TransfersEach(steps, [leg])
    case IndirectResponse(r) =>
      if mode == Smart && r.supportsPFM then
        && AllInOne(steps, MultiHop, r.path) && |r.path| > 1 && steps[0].toChain == r.path[1]
        && r.legs != [] && Transfers(steps[0], r.legs[0], r.pfmMemo)
      else TransfersEach(steps, r.legs)
    case BrokerResponse(r) => BrokerStepsOf(r, mode, steps)
  }

  /** What a step is to do, however far it has come. */
  datatype Planned = Planned(kind: StepType, fromChain: ChainId, toChain: ChainId, data: StepData, transferOrder: Option<seq<ChainId>>)

  ghost function Plan(steps: seq<TransferStep>): seq<Planned> {
    seq(|steps|, i requires 0 <= i < |steps| =>
      Planned(steps[i].kind, steps[i].fromChain, steps[i].toChain, steps[i].data, steps[i].transferOrder))
  }

  lemma SamePlanned(steps: seq<TransferStep>, steps': seq<TransferStep>, i: nat)
    requires Plan(steps) == Plan(steps') && i < |steps|
    ensures |steps'| == |steps| && steps'[i].kind == steps[i].kind && steps'[i].fromChain == steps[i].fromChain
    ensures steps'[i].toChain == steps[i].toChain && steps'[i].data == steps[i].data && steps'[i].transferOrder == steps[i].transferOrder
  {
    assert |Plan(steps)| == |Plan(steps')| && Plan(steps)[i] == Plan(steps')[i];
  }

  /** Steps with the same plan send the same. */
  lemma SamePlanSendsTheSame(resp: RouteResponse, mode: TransferMode, steps: seq<TransferStep>, steps': seq<TransferStep>)
    requires StepsOf(resp, mode, steps) && Plan(steps) == Plan(steps')
    ensures StepsOf(resp, mode, steps')
  {
    assert |Plan(steps)| == |steps| && |Plan(steps')| == |steps'|;
    forall i | 0 <= i < |steps|
      ensures steps'[i].kind == steps[i].kind && steps'[i].fromChain == steps[i].fromChain && steps'[i].toChain == steps[i].toChain
      ensures steps'[i].data == steps[i].data && steps'[i].transferOrder == steps[i].transferOrder
    {
      SamePlanned(steps, steps', i);
    }
    if resp.BrokerResponse? && |resp.route.inboundLegs| < |steps| {
      var n := |resp.route.inboundLegs|;
      forall i | 0 <= i < n ensures steps[..n][i] == steps[i] && steps'[..n][i] == steps'[i] {}
      forall i | n < i < |steps| ensures steps[n + 1..][i - n - 1] == steps[i] && steps'[n + 1..][i - n - 1] == steps'[i] {}
    }
  }

  ghost predicate AllTransfers(steps: seq<TransferStep>) {
    forall i :: 0 <= i < |steps| ==> steps[i].kind == IbcTransfer
  }

  lemma ContiguousConcat(s: seq<TransferStep>, t: seq<TransferStep>, a: ChainId, b: ChainId, c: ChainId)
    requires Contiguous(s, a, b) && Contiguous(t, b, c)
    ensures Contiguous(s + t, a, c)
  {
    if t == [] {
      assert s + t == s;
    } else if s == [] {
      assert s + t == t;
    } else {
      var u := s + t;
      assert u[|u| - 1] == t[|t| - 1];
      forall i | 0 < i < |u| ensures u[i].fromChain == u[i - 1].toChain {
        if i > |s| { assert u[i] == t[i - |s|] && u[i - 1] == t[i - |s| - 1]; }
      }
    }
  }

  /** legs.forEach((leg, index) => steps.push(...)), with ids numbered from base. */
  method PushLegs(legs: seq<IBCLeg>, prefix: string, base: nat, ghost path: seq<ChainId>, ghost routes: seq<BasicRoute>, ghost amount: string)
    returns (steps: seq<TransferStep>)
    requires LegsFollow(legs, path, routes, amount)
    ensures TransfersEach(steps, legs)
    ensures forall i :: 0 <= i < |legs| ==> steps[i].id == prefix + Amounts.Print(i + base)
    ensures AllTransfers(steps)
    ensures Contiguous(steps, path[0], path[|path| - 1])
    ensures AllPending(steps)
  {
    steps := [];
    var i := 0;
    while i < |legs|
      invariant 0 <= i <= |legs| && |steps| == i
      invariant forall j :: 0 <= j < i ==> steps[j] == LegStep(prefix + Amounts.Print(j + base), legs[j])
    {
      steps := steps + [LegStep(prefix + Amounts.Print(i + base), legs[i])];
      i := i + 1;
    }
    forall j | 0 < j < |steps| ensures steps[j].fromChain == steps[j - 1].toChain {
      assert legs[j - 1].toChain == path[j - 1 + 1];
    }
    if steps != [] {
      assert legs[|legs| - 1].toChain == path[|legs| - 1 + 1];
    }
  }

  /** The parts of an indirect route's shape that the client relies on. */
  ghost predicate IndirectShape(req: RouteRequest, info: IndirectRouteInfo, r: IndirectRoute) {
    && r.path == info.path && LegsFollow(r.legs, info.path, info.routes, req.amountIn)
    && r.path[0] == req.chainFrom && r.path[|r.path| - 1] == req.chainTo
    && r.pfmStartChain == req.chainFrom && (r.supportsPFM ==> |r.path| > 2)
  }

  lemma BuiltIndirect(pf: Pathfinder, req: RouteRequest, r: IndirectRoute) returns (info: IndirectRouteInfo)
    requires IndirectResponseFor(pf, req, r)
    ensures IndirectShape(req, info, r)
  {
    info :| IndirectAnswer(pf.ix, req, Some(info)) && IndirectBuilt(pf, req, info, r);
    AnswerEnds(pf.ix, req, info);
    BuiltIndirectShape(pf, req, info, r);
  }

  lemma BuiltIndirectShape(pf: Pathfinder, req: RouteRequest, info: IndirectRouteInfo, r: IndirectRoute)
    requires IndirectBuilt(pf, req, info, r)
    requires |info.path| > 0 && info.path[0] == req.chainFrom && info.path[|info.path| - 1] == req.chainTo
    ensures IndirectShape(req, info, r)
  {}

  lemma AnswerEnds(ix: IndexMaps, req: RouteRequest, info: IndirectRouteInfo)
    requires IndirectAnswer(ix, req, Some(info))
    ensures |info.path| > 0 && info.path[0] == req.chainFrom && info.path[|info.path| - 1] == req.chainTo
  {}

  method GenerateIndirectSteps(r: IndirectRoute, mode: TransferMode, ghost req: RouteRequest, ghost info: IndirectRouteInfo)
    returns (steps: seq<TransferStep>)
    requires IndirectShape(req, info, r)
    ensures |steps| == GetRouteStepCount(IndirectResponse(r), mode)
    ensures mode == Manual || !r.supportsPFM ==> Contiguous(steps, req.chainFrom, req.chainTo)
    ensures mode == Smart && r.supportsPFM ==> steps[0].fromChain == req.chainFrom
    ensures StepsOf(IndirectResponse(r), mode, steps)
    ensures AllPending(steps)
  {
    if mode == Smart && r.supportsPFM {
      return [NewStep("multi-hop", MultiHop, r.pfmStartChain, r.path[1], LegData(r.legs[0], r.pfmMemo), Some(r.path))];
    }
    steps := PushLegs(r.legs, "leg-", 0, info.path, info.routes, req.amountIn);
  }

  /** The parts of a broker route's shape that the client relies on. */
  ghost predicate ClientShape(req: RouteRequest, info: MultiHopInfo, r: BrokerRoute) {
    && r.path == BrokerPath(req, info)
    && |r.inboundLegs| == |info.inboundRoutes| == |info.inboundPath|
    && LegsFollow(r.inboundLegs, info.inboundPath + [info.brokerChainId], info.inboundRoutes, req.amountIn)
    && LegsFollow(r.outboundLegs, OutboundPath(info), info.outboundRoutes, r.swap.result.amountOut)
    && (info.inboundPath + [info.brokerChainId])[0] == req.chainFrom
    && OutboundPath(info)[|OutboundPath(info)| - 1] == req.chainTo
    && (info.sourceIsBroker <==> info.inboundRoutes == [])
    && (r.execution.Some? ==>
          r.execution.value.usesWasm && (info.sourceIsBroker <==> HasContractData(r)) && (info.sourceIsBroker <==> !HasMemo(r)))
  }

  lemma MemoIsNotEmpty(hops: seq<IBCHop>, mid: string, last: string, d: WasmData)
    ensures Nest(hops, mid, last, WasmMemo(d)) != NoMemo
  {}

  // Away from the broker an execution always carries a memo.
  lemma BuiltMemo(pf: Pathfinder, req: RouteRequest, info: MultiHopInfo, r: BrokerRoute)
    requires BrokerRouteBuilt(pf, req, info, r) && r.execution.Some? && !info.sourceIsBroker
    ensures HasMemo(r) && !HasContractData(r) && r.execution.value.usesWasm
  {
    var contract := pf.clients[info.brokerChain].contractAddress;
    var recover := pf.convert(req.senderAddress, info.brokerChainId).value;
    MemoIsNotEmpty(InboundHops(pf, req, info.inboundRoutes)[1..], "pfm", contract,
                   CallFor(pf, req, info, r.swap.result, contract, recover).value);
  }

  lemma BuiltShape(pf: Pathfinder, req: RouteRequest, info: MultiHopInfo, r: BrokerRoute)
    requires BrokerRouteBuilt(pf, req, info, r)
    ensures ClientShape(req, info, r)
  {
    ExecutableEnds(pf.ix, req, info);
    if r.execution.Some? && !info.sourceIsBroker {
      BuiltMemo(pf, req, info, r);
    }
  }

  lemma ExecutableEnds(ix: IndexMaps, req: RouteRequest, info: MultiHopInfo)
    requires Executable(ix, req, info)
    ensures |info.inboundRoutes| == |info.inboundPath| && (info.sourceIsBroker <==> info.inboundRoutes == [])
    ensures (info.inboundPath + [info.brokerChainId])[0] == req.chainFrom
    ensures OutboundPath(info)[|OutboundPath(info)| - 1] == req.chainTo
  {}

  /** The step for the swap is on chain path[|inboundLegs|]: always the broker. */
  lemma SwapChainIsBroker(req: RouteRequest, info: MultiHopInfo, r: BrokerRoute)
    requires ClientShape(req, info, r)
    ensures |r.inboundLegs| < |r.path| && r.path[|r.inboundLegs|] == info.brokerChainId
  {}

  method GenerateBrokerSteps(r: BrokerRoute, mode: TransferMode, ghost req: RouteRequest, ghost info: MultiHopInfo)
    returns (steps: seq<TransferStep>)
    requires ClientShape(req, info, r)
    ensures |steps| == GetRouteStepCount(BrokerResponse(r), mode)
    ensures mode == Manual || r.execution.None? ==>
              && Contiguous(steps, req.chainFrom, req.chainTo)
              && steps[|r.inboundLegs|].kind == Swap && steps[|r.inboundLegs|].fromChain == info.brokerChainId
              && (forall i :: 0 <= i < |steps| && i != |r.inboundLegs| ==> steps[i].kind == IbcTransfer)
    ensures mode == Smart && r.execution.Some? ==>
              && steps[0].transferOrder == Some(r.path) && steps[0].fromChain == r.path[0] == req.chainFrom
              && steps[0].kind == if info.sourceIsBroker then WasmExecution else MultiHopSwap
    ensures BrokerStepsOf(r, mode, steps)
    ensures AllPending(steps)
  {
    SwapChainIsBroker(req, info, r);
    if mode == Smart && HasContractData(r) && |r.inboundLegs| == 0 {
      return [NewStep("wasm-execution", WasmExecution, r.path[0], r.path[|r.path| - 1],
                      ContractData(r.execution.value.smartContractData.value), Some(r.path))];
    } else if mode == Smart && HasMemo(r) {
      return [NewStep("multi-hop-swap", MultiHopSwap, r.path[0], r.path[1],
                      LegData(r.inboundLegs[0], r.execution.value.memo.value), Some(r.path))];
    }
    steps := GenerateManualBrokerSteps(r, req, info);
  }

  function SwapStep(r: BrokerRoute, chain: ChainId): seq<TransferStep> {
    [NewStep("swap", Swap, chain, chain, SwapData(r.swap.result.amountIn, r.swap.tokenIn.chainDenom), None)]
  }

  /** Manual: separate steps for inbound, swap, outbound. */
  method GenerateManualBrokerSteps(r: BrokerRoute, ghost req: RouteRequest, ghost info: MultiHopInfo) returns (steps: seq<TransferStep>)
    requires ClientShape(req, info, r)
    ensures |steps| == |r.inboundLegs| + 1 + |r.outboundLegs|
    ensures Contiguous(steps, req.chainFrom, req.chainTo) && AllPending(steps)
    ensures TransfersEach(steps[..|r.inboundLegs|], r.inboundLegs) && TransfersEach(steps[|r.inboundLegs| + 1..], r.outboundLegs)
    ensures SwapsQuoted(steps[|r.inboundLegs|], r)
    ensures steps[|r.inboundLegs|].kind == Swap && steps[|r.inboundLegs|].fromChain == info.brokerChainId
    ensures forall i :: 0 <= i < |steps| && i != |r.inboundLegs| ==> steps[i].kind == IbcTransfer
  {
    SwapChainIsBroker(req, info, r);
    var inbound := PushLegs(r.inboundLegs, "inbound-", 1, info.inboundPath + [info.brokerChainId], info.inboundRoutes, req.amountIn);
    var swapChain := r.path[|r.inboundLegs|];
    var swap := SwapStep(r, swapChain);
    var outbound := PushLegs(r.outboundLegs, "outbound-", 0, OutboundPath(info), info.outboundRoutes, r.swap.result.amountOut);
    steps := inbound + swap + outbound;
    SplitSteps(inbound, swap, outbound);
    JoinSteps(inbound, swap, outbound, req.chainFrom, swapChain, req.chainTo);
  }

  lemma SplitSteps(inbound: seq<TransferStep>, swap: seq<TransferStep>, outbound: seq<TransferStep>)
    requires |swap| == 1
    ensures var steps := inbound + swap + outbound;
            steps[..|inbound|] == inbound && steps[|inbound| + 1..] == outbound && steps[|inbound|] == swap[0]
  {}

  lemma JoinSteps(inbound: seq<TransferStep>, swap: seq<TransferStep>, outbound: seq<TransferStep>, a: ChainId, b: ChainId, c: ChainId)
    requires |swap| == 1 && swap[0].kind == Swap && swap[0].fromChain == b && swap[0].toChain == b
    requires Contiguous(inbound, a, b) && Contiguous(outbound, b, c)
    requires AllPending(inbound) && AllPending(swap) && AllPending(outbound)
    requires AllTransfers(inbound) && AllTransfers(outbound)
    ensures var steps := inbound + swap + outbound;
            && Contiguous(steps, a, c) && AllPending(steps) && steps[|inbound|] == swap[0]
            && forall i :: 0 <= i < |steps| && i != |inbound| ==> steps[i].kind == IbcTransfer
  {
    ContiguousConcat(inbound, swap, a, b, b);
    ContiguousConcat(inbound + swap, outbound, a, b, c);
  }

  /** For every response the Pathfinder can build: as many steps as announced, in both modes, each
      sending what its leg, memo, contract call or quote says, and a manual route contiguous from ChainFrom to ChainTo. No branch indexes an empty list. */
  method GenerateStepsFromResponse(resp: RouteResponse, mode: TransferMode, ghost pf: Pathfinder, ghost req: RouteRequest)
    returns (steps: seq<TransferStep>)
    requires ResponseOk(pf, req, resp)
    ensures |steps| == GetRouteStepCount(resp, mode)
    ensures StepsOf(resp, mode, steps)
    ensures mode == Manual && !resp.Impossible? ==> Contiguous(steps, req.chainFrom, req.chainTo)
    ensures AllPending(steps)
  {
    match resp {
      case Impossible(_) => steps := [];
      case DirectResponse(leg) => steps := [LegStep("direct-transfer", leg)];
      case IndirectResponse(r) =>
        ghost var info := BuiltIndirect(pf, req, r);
        steps := GenerateIndirectSteps(r, mode, req, info);
      case BrokerResponse(r) =>
        ghost var info :| BrokerRouteBuilt(pf, req, info, r);
        BuiltShape(pf, req, info, r);
        steps := GenerateBrokerSteps(r, mode, req, info);
    }
  }

  /** The chains execution really passes through: the path misses one exactly when the outbound side
      has two hops. */
  lemma PathListsEveryChain(ix: IndexMaps, req: RouteRequest, info: MultiHopInfo)
    requires Executable(ix, req, info)
    ensures BrokerPath(req, info) == info.inboundPath + OutboundPath(info) <==> |info.outboundRoutes| <= 1
  {
    var out := OutboundPath(info);
    if info.outboundRoutes == [] {
      assert out == [info.brokerChainId];
    } else if |info.outboundRoutes| == 1 {
      assert out == [info.brokerChainId, req.chainTo];
      assert info.sourceIsBroker ==> info.inboundPath + out == out;
    } else {
      assert |BrokerPath(req, info)| < |info.inboundPath + out|;
    }
  }
}
