/** Memo structures and their builders (pathfinder/router/ibc_memo, brokers/osmosis/memo.go,
    brokers/osmosis/types.go). JSON text is not modelled: a memo is the structure it encodes. */
module IbcMemo {
  import opened RouterTypes

  datatype Result<+T> = Ok(value: T) | Err(error: string)

  /** The empty memo, a PFM forward, or an ibc-hooks contract call. */
  datatype Memo = NoMemo | ForwardMemo(forward: PFMForward) | WasmMemo(wasm: WasmData)

  datatype PFMForward = PFMForward(channel: string, port: string, receiver: string,
                                   retries: int, timeout: int, next: Memo)

  datatype WasmData = WasmData(contract: string, msg: SwapAndAction)

  datatype SwapAndAction = SwapAndAction(swapVenueName: string, operations: seq<SwapOperation>,
                                         minAsset: Asset, timeoutTimestamp: int,
                                         postSwapAction: PostSwapAction)

  datatype SwapOperation = SwapOperation(pool: string, denomIn: Denom, denomOut: Denom)

  datatype Asset = Asset(denom: Denom, amount: string)

  datatype PostSwapAction =
    | Transfer(toAddress: string)
    | IBCTransfer(sourceChannel: string, receiver: string, memo: Memo, recoverAddress: string)

  datatype IBCHop = IBCHop(channel: string, port: string, receiver: string, timeout: int)

  const PFM_INTERMEDIATE_RECEIVER := "pfm"
  const DEFAULT_RETRIES := 2
  const DEFAULT_PORT := "transfer"
  const SWAP_VENUE_NAME := "osmosis-poolmanager"

  // ---------------------------------------------------------------------------------------------
  // Nesting and flattening
  // ---------------------------------------------------------------------------------------------

  /** A hop's own receiver if it has one, else the default for its position. */
  function ReceiverOf(hop: IBCHop, isLast: bool, midDefault: string, lastDefault: string): string {
    if hop.receiver != "" then hop.receiver else if isLast then lastDefault else midDefault
  }

  function Resolve(hops: seq<IBCHop>, midDefault: string, lastDefault: string): (r: seq<IBCHop>)
    ensures |r| == |hops|
  {
    seq(|hops|, i requires 0 <= i < |hops| =>
      hops[i].(receiver := ReceiverOf(hops[i], i == |hops| - 1, midDefault, lastDefault)))
  }

  /** Forwards through every hop, then inner. */
  function Nest(hops: seq<IBCHop>, midDefault: string, lastDefault: string, inner: Memo): Memo {
    if hops == [] then inner
    else
      var receiver := ReceiverOf(hops[0], |hops| == 1, midDefault, lastDefault);
      ForwardMemo(PFMForward(hops[0].channel, hops[0].port, receiver, DEFAULT_RETRIES, hops[0].timeout,
                             Nest(hops[1..], midDefault, lastDefault, inner)))
  }

  function Hops(m: Memo): seq<IBCHop> {
    if m.ForwardMemo? then
      [IBCHop(m.forward.channel, m.forward.port, m.forward.receiver, m.forward.timeout)] + Hops(m.forward.next)
    else []
  }

  function Innermost(m: Memo): Memo {
    if m.ForwardMemo? then Innermost(m.forward.next) else m
  }

  predicate DefaultRetries(m: Memo) {
    m.ForwardMemo? ==> m.forward.retries == 2 && DefaultRetries(m.forward.next)
  }

  /** Flattening a nested memo gives back the hops, receivers resolved, and the inner action. */
  lemma {:induction false} FlattenNest(hops: seq<IBCHop>, mid: string, last: string, inner: Memo)
    requires !inner.ForwardMemo?
    ensures Hops(Nest(hops, mid, last, inner)) == Resolve(hops, mid, last)
    ensures Innermost(Nest(hops, mid, last, inner)) == inner
    ensures DefaultRetries(Nest(hops, mid, last, inner))
  {
    if hops != [] {
      FlattenNest(hops[1..], mid, last, inner);
      assert Resolve(hops, mid, last) ==
        [hops[0].(receiver := ReceiverOf(hops[0], |hops| == 1, mid, last))] + Resolve(hops[1..], mid, last);
    }
  }

  /** Nesting what was flattened gives back the memo. */
  lemma {:induction false} NestFlatten(m: Memo)
    requires DefaultRetries(m)
    ensures Nest(Hops(m), "", "", Innermost(m)) == m
  {
    if m.ForwardMemo? {
      NestFlatten(m.forward.next);
      assert Hops(m)[1..] == Hops(m.forward.next);
    }
  }

  /** Builds from the last hop backwards. */
  method BuildNestedForwardMemo(hops: seq<IBCHop>, finalReceiver: string) returns (current: Option<PFMForward>)
    ensures current.None? <==> hops == []
    ensures current.Some? ==> ForwardMemo(current.value) == Nest(hops, "", finalReceiver, NoMemo)
  {
    current := None;
    var i := |hops|;
    while i > 0
      invariant 0 <= i <= |hops|
      invariant current.None? <==> i == |hops|
      invariant current.Some? ==> ForwardMemo(current.value) == Nest(hops[i..], "", finalReceiver, NoMemo)
    {
      i := i - 1;
      var hop := hops[i];
      var receiver := hop.receiver;
      if receiver == "" && i == |hops| - 1 {
        receiver := finalReceiver;
      }
      assert hops[i..][1..] == hops[i + 1..];
      var next := if current.None? then NoMemo else ForwardMemo(current.value);
      current := Some(PFMForward(hop.channel, hop.port, receiver, DEFAULT_RETRIES, hop.timeout, next));
    }
    assert hops[0..] == hops;
  }

  // ---------------------------------------------------------------------------------------------
  // Osmosis route data
  // ---------------------------------------------------------------------------------------------

  datatype Pool = Pool(id: string, tokenOutDenom: Denom)
  datatype SwapRoute = SwapRoute(pools: seq<Pool>)

  /** Broker route data; the memo builders only accept their own kind. */
  datatype RouteData = Osmosis(routes: seq<SwapRoute>) | OtherBroker

  function Operations(pools: seq<Pool>, denomIn: Denom): (r: seq<SwapOperation>)
    ensures |r| == |pools|
  {
    if pools == [] then []
    else [SwapOperation(pools[0].id, denomIn, pools[0].tokenOutDenom)] + Operations(pools[1..], pools[0].tokenOutDenom)
  }

  function OperationsOf(rd: RouteData, denomIn: Denom): seq<SwapOperation> {
    if rd.Osmosis? && rd.routes != [] then Operations(rd.routes[0].pools, denomIn) else []
  }

  /** Operations that hand each output to the next input. */
  ghost predicate Linked(ops: seq<SwapOperation>, denomIn: Denom, denomOut: Denom) {
    && ops != [] && ops[0].denomIn == denomIn && ops[|ops| - 1].denomOut == denomOut
    && forall i :: 0 < i < |ops| ==> ops[i].denomIn == ops[i - 1].denomOut
  }

  lemma {:induction false} OperationsAreLinked(pools: seq<Pool>, denomIn: Denom)
    requires pools != []
    ensures Linked(Operations(pools, denomIn), denomIn, pools[|pools| - 1].tokenOutDenom)
  {
    if |pools| > 1 {
      OperationsAreLinked(pools[1..], pools[0].tokenOutDenom);
      var ops, rest := Operations(pools, denomIn), Operations(pools[1..], pools[0].tokenOutDenom);
      forall i | 0 < i < |ops| ensures ops[i].denomIn == ops[i - 1].denomOut {
        assert ops[i] == rest[i - 1];
        if i > 1 { assert ops[i - 1] == rest[i - 2]; }
      }
    }
  }

  method GetOperationsWithInput(routes: seq<SwapRoute>, tokenInDenom: Denom) returns (operations: seq<SwapOperation>)
    ensures operations == OperationsOf(Osmosis(routes), tokenInDenom)
  {
    if |routes| == 0 || |routes[0].pools| == 0 { return []; }
    var pools := routes[0].pools;
    operations := [];
    var currentDenomIn := tokenInDenom;
    var i := 0;
    assert pools[0..] == pools;
    while i < |pools|
      invariant 0 <= i <= |pools|
      invariant operations + Operations(pools[i..], currentDenomIn) == Operations(pools, tokenInDenom)
    {
      assert pools[i..][1..] == pools[i + 1..];
      operations := operations + [SwapOperation(pools[i].id, currentDenomIn, pools[i].tokenOutDenom)];
      currentDenomIn := pools[i].tokenOutDenom;
      i := i + 1;
    }
  }

  // ---------------------------------------------------------------------------------------------
  // The Osmosis memo builders
  // ---------------------------------------------------------------------------------------------

  datatype SwapMemoParams = SwapMemoParams(tokenInDenom: Denom, tokenOutDenom: Denom, minOutputAmount: string,
                                           routeData: RouteData, timeoutTimestamp: int,
                                           recoverAddress: string, receiverAddress: string)

  datatype SwapAndForwardParams = SwapAndForwardParams(swap: SwapMemoParams, sourceChannel: string,
                                                       forwardReceiver: string, forwardMemo: Memo)

  datatype SwapAndMultiHopParams = SwapAndMultiHopParams(swap: SwapMemoParams, outboundHops: seq<IBCHop>,
                                                         finalReceiver: string)

  /** The contract call every swap memo ends in, or the reason there is none. */
  function SwapCall(contract: string, p: SwapMemoParams, post: PostSwapAction): Result<WasmData> {
    if contract == "" then Err("ibc-hooks contract address not configured")
    else if !p.routeData.Osmosis? then Err("route data is not Osmosis RouteData type")
    else
      var operations := OperationsOf(p.routeData, p.tokenInDenom);
      if operations == [] then Err("no swap operations available")
      else Ok(WasmData(contract, SwapAndAction(SWAP_VENUE_NAME, operations, Asset(p.tokenOutDenom, p.minOutputAmount),
                                               p.timeoutTimestamp, post)))
  }

  function Wasm(call: Result<WasmData>): Result<Memo> {
    if call.Ok? then Ok(WasmMemo(call.value)) else Err(call.error)
  }

  function BuildSwapMemo(contract: string, p: SwapMemoParams): Result<Memo> {
    Wasm(SwapCall(contract, p, Transfer(p.receiverAddress)))
  }

  function ForwardAction(p: SwapAndForwardParams): PostSwapAction {
    IBCTransfer(p.sourceChannel, p.forwardReceiver, p.forwardMemo, p.swap.recoverAddress)
  }

  function BuildSwapAndForwardMemo(contract: string, p: SwapAndForwardParams): Result<Memo> {
    Wasm(SwapCall(contract, p.swap, ForwardAction(p)))
  }

  function MultiHopAction(p: SwapAndMultiHopParams): PostSwapAction
    requires p.outboundHops != []
  {
    var first := p.outboundHops[0];
    IBCTransfer(first.channel, if first.receiver != "" then first.receiver else p.finalReceiver,
                Nest(p.outboundHops[1..], "", p.finalReceiver, NoMemo), p.swap.recoverAddress)
  }

  /** The forward memo for the hops after the first one, as both multi-hop builders compute it. */
  method BuildOutboundForwardMemo(hops: seq<IBCHop>, finalReceiver: string) returns (forwardMemo: Memo)
    requires hops != []
    ensures forwardMemo == Nest(hops[1..], "", finalReceiver, NoMemo)
  {
    forwardMemo := NoMemo;
    if |hops| > 1 {
      var nested := BuildNestedForwardMemo(hops[1..], finalReceiver);
      forwardMemo := ForwardMemo(nested.value);
    }
  }

  method BuildSwapAndMultiHopMemo(contract: string, p: SwapAndMultiHopParams) returns (r: Result<Memo>)
    ensures r.Ok? ==> p.outboundHops != [] && r == Wasm(SwapCall(contract, p.swap, MultiHopAction(p)))
    ensures r.Err? <==> p.outboundHops == [] || SwapCall(contract, p.swap, Transfer("")).Err?
  {
    if contract == "" { return Err("ibc-hooks contract address not configured"); }
    if |p.outboundHops| == 0 { return Err("no outbound hops provided"); }
    var forwardMemo := BuildOutboundForwardMemo(p.outboundHops, p.finalReceiver);
    var firstHopReceiver := p.finalReceiver;
    if p.outboundHops[0].receiver != "" {
      firstHopReceiver := p.outboundHops[0].receiver;
    }
    return Wasm(SwapCall(contract, p.swap,
                         IBCTransfer(p.outboundHops[0].channel, firstHopReceiver, forwardMemo, p.swap.recoverAddress)));
  }

  /** The loop shared by the two forward-swap builders, from the hop closest to the broker outwards. */
  method WrapInForwards(contract: string, inboundHops: seq<IBCHop>, wasm: WasmData) returns (r: Result<Memo>)
    requires contract != ""
    ensures r.Err? <==> inboundHops == []
    ensures r.Ok? ==> r.value == Nest(inboundHops, PFM_INTERMEDIATE_RECEIVER, contract, WasmMemo(wasm))
  {
    var currentNext := WasmMemo(wasm);
    var i := |inboundHops|;
    while i > 0
      invariant 0 <= i <= |inboundHops| && (inboundHops != [] ==> 0 < i)
      invariant currentNext == Nest(inboundHops[i..], PFM_INTERMEDIATE_RECEIVER, contract, WasmMemo(wasm))
    {
      i := i - 1;
      var hop := inboundHops[i];
      var receiver := hop.receiver;
      if receiver == "" && i == |inboundHops| - 1 {
        receiver := contract;
      }
      if receiver == "" {
        receiver := PFM_INTERMEDIATE_RECEIVER;
      }
      assert inboundHops[i..][1..] == inboundHops[i + 1..];
      var forward := PFMForward(hop.channel, hop.port, receiver, DEFAULT_RETRIES, hop.timeout, currentNext);
      if i == 0 {
        assert inboundHops[0..] == inboundHops;
        return Ok(ForwardMemo(forward));
      }
      currentNext := ForwardMemo(forward);
    }
    return Err("unexpected error building forward memo");
  }

  method BuildForwardSwapMemo(contract: string, inboundHops: seq<IBCHop>, p: SwapAndForwardParams) returns (r: Result<Memo>)
    ensures var call := SwapCall(contract, p.swap, ForwardAction(p));
            && (r.Err? <==> inboundHops == [] || call.Err?)
            && (r.Ok? ==> r.value == Nest(inboundHops, PFM_INTERMEDIATE_RECEIVER, contract, WasmMemo(call.value)))
  {
    if contract == "" { return Err("ibc-hooks contract address not configured"); }
    if |inboundHops| == 0 { return Err("no inbound hops provided"); }
    var call := SwapCall(contract, p.swap, ForwardAction(p));
    if call.Err? { return Err(call.error); }
    r := WrapInForwards(contract, inboundHops, call.value);
  }

  method BuildForwardSwapForwardMemo(contract: string, inboundHops: seq<IBCHop>, p: SwapAndMultiHopParams)
    returns (r: Result<Memo>)
    ensures r.Err? <==> inboundHops == [] || p.outboundHops == [] || SwapCall(contract, p.swap, Transfer("")).Err?
    ensures r.Ok? ==> r.value == Nest(inboundHops, PFM_INTERMEDIATE_RECEIVER, contract,
                                      WasmMemo(SwapCall(contract, p.swap, MultiHopAction(p)).value))
  {
    if contract == "" { return Err("ibc-hooks contract address not configured"); }
    if |inboundHops| == 0 { return Err("no inbound hops provided"); }
    var swap := BuildSwapAndMultiHopMemo(contract, p);
    if swap.Err? { return Err(swap.error); }
    r := WrapInForwards(contract, inboundHops, swap.value.wasm);
  }

  /** Two inbound hops, swap, stay on the broker: the memo describes the second hop only. */
  function BuildHopAndSwapMemo(contract: string, inboundHops: seq<IBCHop>, p: SwapAndForwardParams): Result<Memo> {
    if contract == "" then Err("ibc-hooks contract address not configured")
    else if |inboundHops| == 0 then Err("no inbound hops provided ")
    else if |inboundHops| <= 1 then Err("only one inbound hop provided, this is not supported")
    else if |inboundHops| > 2 then Err("more than two inbound hops provided, this is not supported")
    else
      var receiver := if p.swap.receiverAddress == "" then p.forwardReceiver else p.swap.receiverAddress;
      var call := SwapCall(contract, p.swap, Transfer(receiver));
      if call.Err? then Err(call.error)
      else Ok(ForwardMemo(PFMForward(inboundHops[1].channel, inboundHops[1].port, contract, DEFAULT_RETRIES,
                                     p.swap.timeoutTimestamp, WasmMemo(call.value))))
  }
}
