/** An abstract machine for packets that carry memos: packet forwarding on chains that run PFM, and
    contract calls through ibc-hooks. It is the meaning against which the memo builders are proved. */
module PacketMachine {
  import opened RouterTypes
  import opened IbcMemo

  /** wires: where a channel leads; arrives: what a denom becomes when sent over it. */
  datatype Network = Network(
    wires: map<(ChainId, string), ChainId>,
    arrives: (ChainId, string, Denom) -> Denom,
    pfm: set<ChainId>,
    contracts: set<(ChainId, string)>)

  datatype Event =
    | Sent(chain: ChainId, port: string, channel: string)
    | Swapped(chain: ChainId, operations: seq<SwapOperation>, minimum: Asset)

  /** Some tokens on a chain, in the hands of receiver. */
  datatype Coin = Coin(chain: ChainId, denom: Denom, receiver: string)

  datatype World = World(coin: Coin, memo: Memo, log: seq<Event>)

  ghost predicate Wire(net: Network, chain: ChainId, channel: string) {
    (chain, channel) in net.wires
  }

  ghost function Transmit(net: Network, w: World, port: string, channel: string, receiver: string, memo: Memo): World
    requires Wire(net, w.coin.chain, channel)
  {
    World(Coin(net.wires[(w.coin.chain, channel)], net.arrives(w.coin.chain, channel, w.coin.denom), receiver),
          memo, w.log + [Sent(w.coin.chain, port, channel)])
  }

  /** ibc-hooks calls the contract only if the packet was addressed to it, and the entry point
      reverts unless the operations turn the coin it was sent into the minimum asset. */
  ghost predicate CallAccepted(net: Network, coin: Coin, d: WasmData) {
    && coin.receiver == d.contract && (coin.chain, d.contract) in net.contracts
    && Linked(d.msg.operations, coin.denom, d.msg.minAsset.denom)
  }

  ghost function SwapDone(w: World, d: WasmData): World {
    World(w.coin.(denom := d.msg.minAsset.denom), NoMemo,
          w.log + [Swapped(w.coin.chain, d.msg.operations, d.msg.minAsset)])
  }

  /** One step; None when the coin comes to rest. */
  ghost function Next(net: Network, w: World): Option<World> {
    match w.memo
    case NoMemo => None
    case ForwardMemo(f) =>
      if w.coin.chain in net.pfm && Wire(net, w.coin.chain, f.channel)
      then Some(Transmit(net, w, f.port, f.channel, f.receiver, f.next)) else None
    case WasmMemo(d) =>
      if !CallAccepted(net, w.coin, d) then None
      else match d.msg.postSwapAction
        case Transfer(to) => Some(SwapDone(w, d).(coin := SwapDone(w, d).coin.(receiver := to)))
        case IBCTransfer(channel, receiver, memo, _) =>
          if Wire(net, w.coin.chain, channel)
          then Some(Transmit(net, SwapDone(w, d), DEFAULT_PORT, channel, receiver, memo)) else None
  }

  ghost function MemoSize(m: Memo): nat {
    match m
    case NoMemo => 0
    case ForwardMemo(f) => 1 + MemoSize(f.next)
    case WasmMemo(d) => 1 + if d.msg.postSwapAction.IBCTransfer? then MemoSize(d.msg.postSwapAction.memo) else 0
  }

  /** Runs until the coin rests. */
  ghost function Run(net: Network, w: World): World
    decreases MemoSize(w.memo)
  {
    var next := Next(net, w);
    if next.None? then w else Run(net, next.value)
  }

  // ---------------------------------------------------------------------------------------------
  // Riding a list of hops
  // ---------------------------------------------------------------------------------------------

  ghost predicate Wired(net: Network, chain: ChainId, hops: seq<IBCHop>)
    decreases |hops|
  {
    hops == [] ||
    (Wire(net, chain, hops[0].channel) && Wired(net, net.wires[(chain, hops[0].channel)], hops[1..]))
  }

  /** Every chain a packet is forwarded from runs PFM. */
  ghost predicate PfmAlong(net: Network, chain: ChainId, hops: seq<IBCHop>)
    requires Wired(net, chain, hops)
    decreases |hops|
  {
    hops == [] ||
    (chain in net.pfm && PfmAlong(net, net.wires[(chain, hops[0].channel)], hops[1..]))
  }

  /** The coin after the hops, and what the log gains: the intended itinerary. */
  ghost function Ride(net: Network, coin: Coin, hops: seq<IBCHop>): Coin
    requires Wired(net, coin.chain, hops)
    decreases |hops|
  {
    if hops == [] then coin
    else Ride(net, Coin(net.wires[(coin.chain, hops[0].channel)],
                        net.arrives(coin.chain, hops[0].channel, coin.denom), hops[0].receiver), hops[1..])
  }

  ghost function Sends(net: Network, chain: ChainId, hops: seq<IBCHop>): (r: seq<Event>)
    requires Wired(net, chain, hops)
    ensures |r| == |hops|
    ensures forall i :: 0 <= i < |hops| ==> r[i].Sent? && r[i].channel == hops[i].channel && r[i].port == hops[i].port
    decreases |hops|
  {
    if hops == [] then []
    else [Sent(chain, hops[0].port, hops[0].channel)] + Sends(net, net.wires[(chain, hops[0].channel)], hops[1..])
  }

  /** Where a memo's forwards lead, with the action they leave to be done. */
  ghost function Itinerary(net: Network, w: World): World
    requires Wired(net, w.coin.chain, Hops(w.memo))
  {
    World(Ride(net, w.coin, Hops(w.memo)), Innermost(w.memo), w.log + Sends(net, w.coin.chain, Hops(w.memo)))
  }

  /** The machine forwards any memo along exactly its hops, then is left with the innermost action. */
  lemma {:induction false} RunForwards(net: Network, w: World)
    requires Wired(net, w.coin.chain, Hops(w.memo)) && PfmAlong(net, w.coin.chain, Hops(w.memo))
    ensures Run(net, w) == Run(net, Itinerary(net, w))
    decreases w.memo
  {
    if w.memo.ForwardMemo? {
      var w' := ForwardStep(net, w);
      assert w.coin.chain in net.pfm && PfmAlong(net, w'.coin.chain, Hops(w'.memo));
      ItineraryStep(net, w, w');
      RunForwards(net, w');
    } else {
      assert w.log + Sends(net, w.coin.chain, Hops(w.memo)) == w.log;
    }
  }

  lemma ItineraryStep(net: Network, w: World, w': World)
    requires w.memo.ForwardMemo? && Wired(net, w.coin.chain, Hops(w.memo))
    requires w' == Transmit(net, w, w.memo.forward.port, w.memo.forward.channel, w.memo.forward.receiver, w.memo.forward.next)
    requires Hops(w.memo)[1..] == Hops(w'.memo)
    ensures Itinerary(net, w) == Itinerary(net, w')
  {
    var c, hops, rest := w.coin.chain, Hops(w.memo), Hops(w'.memo);
    assert Ride(net, w.coin, hops) == Ride(net, w'.coin, rest);
    SendsStep(net, w, hops);
  }

  lemma SendsStep(net: Network, w: World, hops: seq<IBCHop>)
    requires hops != [] && Wired(net, w.coin.chain, hops)
    ensures w.log + Sends(net, w.coin.chain, hops)
         == (w.log + [Sent(w.coin.chain, hops[0].port, hops[0].channel)])
            + Sends(net, net.wires[(w.coin.chain, hops[0].channel)], hops[1..])
  {}

  lemma ForwardStep(net: Network, w: World) returns (w': World)
    requires w.memo.ForwardMemo? && Wired(net, w.coin.chain, Hops(w.memo))
    ensures Wire(net, w.coin.chain, w.memo.forward.channel)
    ensures w' == Transmit(net, w, w.memo.forward.port, w.memo.forward.channel, w.memo.forward.receiver, w.memo.forward.next)
    ensures Hops(w.memo)[1..] == Hops(w'.memo) && Wired(net, w'.coin.chain, Hops(w'.memo))
    ensures Next(net, w) == if w.coin.chain in net.pfm then Some(w') else None
  {
    var f := w.memo.forward;
    assert Hops(w.memo)[1..] == Hops(f.next);
    w' := Transmit(net, w, f.port, f.channel, f.receiver, f.next);
  }

  /** If some forwarding chain lacks PFM the coin rests there, short of the itinerary. */
  lemma {:induction false} RunStopsShort(net: Network, w: World)
    requires Wired(net, w.coin.chain, Hops(w.memo)) && !PfmAlong(net, w.coin.chain, Hops(w.memo))
    ensures |Run(net, w).log| < |w.log| + |Hops(w.memo)|
    ensures forall e :: e in Run(net, w).log && e !in w.log ==> e.Sent?
    decreases w.memo
  {
    var w' := ForwardStep(net, w);
    if w.coin.chain in net.pfm {
      RunStopsShort(net, w');
    }
  }

  // ---------------------------------------------------------------------------------------------
  // Whole trips: in to the broker, one swap, out to the destination
  // ---------------------------------------------------------------------------------------------

  /** The user's own transfer: it needs no middleware. */
  ghost function UserTransfer(net: Network, chain: ChainId, denom: Denom, port: string, channel: string,
                              receiver: string, memo: Memo): World
    requires Wire(net, chain, channel)
  {
    Transmit(net, World(Coin(chain, denom, ""), NoMemo, []), port, channel, receiver, memo)
  }

  /** Swap at the broker and pay out there. */
  lemma RunSwapAndTransfer(net: Network, w: World, d: WasmData, to: string)
    requires w.memo == WasmMemo(d) && d.msg.postSwapAction == Transfer(to)
    requires CallAccepted(net, w.coin, d)
    ensures Run(net, w) == World(Coin(w.coin.chain, d.msg.minAsset.denom, to), NoMemo,
                                 w.log + [Swapped(w.coin.chain, d.msg.operations, d.msg.minAsset)])
  {
    assert Next(net, w).Some?;
    assert Next(net, Next(net, w).value).None?;
  }

  /** The world just after the contract has swapped and sent the proceeds on. */
  ghost function SwapAndSend(net: Network, w: World, d: WasmData): World
    requires d.msg.postSwapAction.IBCTransfer? && Wire(net, w.coin.chain, d.msg.postSwapAction.sourceChannel)
  {
    var p := d.msg.postSwapAction;
    Transmit(net, SwapDone(w, d), DEFAULT_PORT, p.sourceChannel, p.receiver, p.memo)
  }
}
