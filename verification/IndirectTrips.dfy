/** What the PFM memo of an indirect route does when it is executed. */
module IndirectTrips {
  import opened RouterTypes
  import opened RouteIndexing
  import opened IndirectRouting
  import opened MultiHopRouting
  import opened IbcMemo
  import opened PacketMachine
  import opened RouteResponses
  import opened BrokerTrips

  /** The transfer of each leg, in order. */
  ghost function LegSends(legs: seq<IBCLeg>): seq<Event> {
    seq(|legs|, i requires 0 <= i < |legs| => Sent(legs[i].fromChain, legs[i].port, legs[i].channel))
  }

  ghost predicate LegsWired(net: Network, legs: seq<IBCLeg>) {
    && (forall i :: 0 <= i < |legs| ==> Wire(net, legs[i].fromChain, legs[i].channel)
                                        && net.wires[(legs[i].fromChain, legs[i].channel)] == legs[i].toChain)
    && (forall i :: 0 < i < |legs| ==> legs[i].fromChain == legs[i - 1].toChain)
  }

  ghost predicate SendersForward(net: Network, legs: seq<IBCLeg>) {
    forall i :: 0 <= i < |legs| ==> legs[i].fromChain in net.pfm
  }

  /** What a denom becomes over the legs. */
  ghost function DenomAlong(net: Network, legs: seq<IBCLeg>, denom: Denom): Denom {
    if legs == [] then denom
    else DenomAlong(net, legs[1..], net.arrives(legs[0].fromChain, legs[0].channel, denom))
  }

  /** Hops read off the legs ride along them. */
  lemma {:induction false} LegsRide(net: Network, legs: seq<IBCLeg>, receiver: string, coin: Coin)
    requires LegsWired(net, legs) && (legs != [] ==> coin.chain == legs[0].fromChain)
    ensures Wired(net, coin.chain, LegHops(legs, receiver))
    ensures Sends(net, coin.chain, LegHops(legs, receiver)) == LegSends(legs)
    ensures PfmAlong(net, coin.chain, LegHops(legs, receiver)) <==> SendersForward(net, legs)
    ensures var end := Ride(net, coin, LegHops(legs, receiver));
            if legs == [] then end == coin
            else end == Coin(legs[|legs| - 1].toChain, DenomAlong(net, legs, coin.denom), receiver)
    decreases |legs|
  {
    if legs != [] {
      var rest := legs[1..];
      var hops := LegHops(legs, receiver);
      assert hops[1..] == LegHops(rest, receiver);
      RestWired(net, legs);
      var next := Coin(legs[0].toChain, net.arrives(coin.chain, legs[0].channel, coin.denom), receiver);
      LegsRide(net, rest, receiver, next);
      LegSendsStep(legs);
      assert forall i :: 0 <= i < |legs| ==> legs[i] == if i == 0 then legs[0] else rest[i - 1];
    }
  }

  /** The channels of the route's own path lead along it. */
  ghost predicate PathServed(net: Network, info: IndirectRouteInfo) {
    |info.routes| == |info.path| - 1 &&
    forall i :: 0 <= i < |info.routes| ==>
      Wire(net, info.path[i], info.routes[i].channelId) && net.wires[(info.path[i], info.routes[i].channelId)] == info.path[i + 1]
  }

  /** A network that agrees with the whole index serves every path found in it. */
  lemma AgreeingNetworkServesPath(net: Network, s: Search, to: ChainId, info: IndirectRouteInfo)
    requires NetworkAgrees(net, s.ix) && KeyedByTarget(s.ix) && SoundRoute(s, to, info)
    ensures PathServed(net, info)
  {
    forall i | 0 <= i < |info.routes|
      ensures Wire(net, info.path[i], info.routes[i].channelId) && net.wires[(info.path[i], info.routes[i].channelId)] == info.path[i + 1]
    {
      assert Lookup2(s.ix.chainRoutes, info.path[i], info.path[i + 1]) == Some(info.routes[i]);
      assert RouteFrom(s.ix, info.path[i], info.routes[i]);
      assert Truthful(net, info.path[i], info.routes[i]);
    }
  }

  lemma BuiltLegsWired(net: Network, pf: Pathfinder, req: RouteRequest, info: IndirectRouteInfo, r: IndirectRoute)
    requires PathServed(net, info) && IndirectBuilt(pf, req, info, r)
    ensures LegsWired(net, r.legs)
  {
    forall i | 0 <= i < |r.legs|
      ensures Wire(net, r.legs[i].fromChain, r.legs[i].channel)
      ensures net.wires[(r.legs[i].fromChain, r.legs[i].channel)] == r.legs[i].toChain
    {
      assert Wire(net, info.path[i], info.routes[i].channelId);
      assert r.legs[i].toChain == info.path[i + 1];
    }
  }

  ghost predicate IntermediatesForward(net: Network, path: seq<ChainId>) {
    forall i :: 0 < i < |path| - 1 ==> path[i] in net.pfm
  }

  lemma IntermediatesAreSenders(net: Network, path: seq<ChainId>, legs: seq<IBCLeg>)
    requires |legs| == |path| - 1 > 0 && forall i :: 0 <= i < |legs| ==> legs[i].fromChain == path[i]
    ensures IntermediatesForward(net, path) <==> SendersForward(net, legs[1..])
  {
    var rest := legs[1..];
    assert forall i :: 0 <= i < |rest| ==> rest[i].fromChain == path[i + 1];
    if SendersForward(net, rest) {
      forall i | 0 < i < |path| - 1 ensures path[i] in net.pfm {
        assert rest[i - 1].fromChain == path[i];
      }
    }
  }

  /** The packet the user's transfer over the first leg sends, the memo naming the other legs. */
  ghost function FirstPacket(net: Network, legs: seq<IBCLeg>, receiver: string, denom: Denom): World
    requires legs != [] && LegsWired(net, legs)
  {
    UserTransfer(net, legs[0].fromChain, denom, legs[0].port, legs[0].channel, receiver, GeneratePFMMemo(legs, receiver))
  }

  lemma FirstPacketRides(net: Network, legs: seq<IBCLeg>, receiver: string, denom: Denom)
    requires legs != [] && LegsWired(net, legs)
    ensures var w := FirstPacket(net, legs, receiver, denom);
            var hops := Hops(w.memo);
            && Wired(net, w.coin.chain, hops) && |w.log| + |hops| == |legs|
            && (PfmAlong(net, w.coin.chain, hops) <==> SendersForward(net, legs[1..]))
            && Itinerary(net, w).log == LegSends(legs) && Itinerary(net, w).memo == NoMemo
            && Itinerary(net, w).coin == Coin(legs[|legs| - 1].toChain, DenomAlong(net, legs, denom), receiver)
  {
    var rest, w := legs[1..], FirstPacket(net, legs, receiver, denom);
    FirstPacketHops(net, legs, receiver, denom);
    RestWired(net, legs);
    LegsRide(net, rest, receiver, w.coin);
    LegSendsStep(legs);
  }

  lemma FirstPacketHops(net: Network, legs: seq<IBCLeg>, receiver: string, denom: Denom)
    requires legs != [] && LegsWired(net, legs)
    ensures var w := FirstPacket(net, legs, receiver, denom);
            && Hops(w.memo) == LegHops(legs[1..], receiver) && Innermost(w.memo) == NoMemo
            && w.coin == Coin(legs[0].toChain, net.arrives(legs[0].fromChain, legs[0].channel, denom), receiver)
            && w.log == [Sent(legs[0].fromChain, legs[0].port, legs[0].channel)]
  {
    PFMMemoFlattens(legs, 1, receiver);
  }

  lemma RestWired(net: Network, legs: seq<IBCLeg>)
    requires legs != [] && LegsWired(net, legs)
    ensures LegsWired(net, legs[1..])
    ensures legs[1..] != [] ==> legs[1..][0].fromChain == legs[0].toChain && legs[1..][|legs| - 2] == legs[|legs| - 1]
  {
    assert forall i :: 0 <= i < |legs[1..]| ==> legs[1..][i] == legs[i + 1];
  }

  lemma LegSendsStep(legs: seq<IBCLeg>)
    requires legs != []
    ensures LegSends(legs) == [Sent(legs[0].fromChain, legs[0].port, legs[0].channel)] + LegSends(legs[1..])
  {
    assert forall i :: 0 <= i < |legs[1..]| ==> legs[1..][i] == legs[i + 1];
  }

  /** A wired list of legs, the memo naming all but the first. */
  lemma LegsExecute(net: Network, legs: seq<IBCLeg>, receiver: string, denom: Denom)
    requires legs != [] && LegsWired(net, legs)
    ensures var end := Run(net, FirstPacket(net, legs, receiver, denom));
            var forwarded := SendersForward(net, legs[1..]);
            && (end.log == LegSends(legs) <==> forwarded)
            && (forwarded ==>
                  end.coin == Coin(legs[|legs| - 1].toChain, DenomAlong(net, legs, denom), receiver) && end.memo == NoMemo)
  {
    FirstPacketRides(net, legs, receiver, denom);
    var w := FirstPacket(net, legs, receiver, denom);
    if PfmAlong(net, w.coin.chain, Hops(w.memo)) {
      RunForwards(net, w);
    } else {
      RunStopsShort(net, w);
    }
  }

  /** One signed transfer with the returned memo visits every chain of the path, in order, and ends
      with the receiver on ChainTo, exactly when the intermediate chains run PFM. Only the path's own
      channels need to lead where the route says. */
  lemma IndirectRouteExecutes(net: Network, pf: Pathfinder, req: RouteRequest, info: IndirectRouteInfo, r: IndirectRoute)
    requires SoundRoute(Search(pf.ix, req.chainFrom, info.token), req.chainTo, info) && IndirectBuilt(pf, req, info, r)
    requires PathServed(net, info) && r.supportsPFM
    ensures r.legs != [] && Wire(net, req.chainFrom, r.legs[0].channel)
    ensures var end := Run(net, UserTransfer(net, req.chainFrom, r.legs[0].token.chainDenom, r.legs[0].port, r.legs[0].channel,
                                             req.receiverAddress, r.pfmMemo));
            && (end.log == LegSends(r.legs) <==> IntermediatesForward(net, r.path))
            && (IntermediatesForward(net, r.path) ==>
                  end.coin == Coin(req.chainTo, DenomAlong(net, r.legs, r.legs[0].token.chainDenom), req.receiverAddress)
                  && end.memo == NoMemo)
  {
    BuiltLegsWired(net, pf, req, info, r);
    IntermediatesAreSenders(net, r.path, r.legs);
    LegsExecute(net, r.legs, req.receiverAddress, r.legs[0].token.chainDenom);
  }

  ghost predicate ListedAs(ix: IndexMaps, c: ChainId, d: Denom, t: TokenInfo) {
    var known := Lookup2(ix.denomToTokenInfo, c, d);
    known.Some? && SameOrigin(known.value, t.originChain, t.baseDenom)
  }

  /** Chain c lists at most one denom of the token. */
  ghost predicate OneDenom(ix: IndexMaps, c: ChainId, t: TokenInfo) {
    forall d, d' :: ListedAs(ix, c, d, t) && ListedAs(ix, c, d', t) ==> d == d'
  }

  /** The hop delivers a denom that the next chain lists as the same token. */
  ghost predicate HopKeepsToken(net: Network, ix: IndexMaps, leg: IBCLeg, t: TokenInfo) {
    ListedAs(ix, leg.toChain, net.arrives(leg.fromChain, leg.channel, leg.token.chainDenom), t)
  }

  /** If every hop keeps the token and each chain lists one denom of it, what arrives at a chain is
      what the next leg names, up to the last chain, where it is the one denom listed. */
  lemma {:induction false} LegsNameWhatArrives(net: Network, ix: IndexMaps, legs: seq<IBCLeg>, t: TokenInfo, last: Denom)
    requires legs != []
    requires forall i :: 0 < i < |legs| ==> legs[i].fromChain == legs[i - 1].toChain && ListedAs(ix, legs[i].fromChain, legs[i].token.chainDenom, t)
    requires forall i :: 0 <= i < |legs| ==> HopKeepsToken(net, ix, legs[i], t) && OneDenom(ix, legs[i].toChain, t)
    requires ListedAs(ix, legs[|legs| - 1].toChain, last, t)
    ensures DenomAlong(net, legs, legs[0].token.chainDenom) == last
    decreases |legs|
  {
    var rest := legs[1..];
    var arrived := net.arrives(legs[0].fromChain, legs[0].channel, legs[0].token.chainDenom);
    assert HopKeepsToken(net, ix, legs[0], t) && OneDenom(ix, legs[0].toChain, t);
    if rest == [] {
      assert DenomAlong(net, rest, arrived) == arrived;
    } else {
      assert ListedAs(ix, legs[1].fromChain, legs[1].token.chainDenom, t) && legs[1].fromChain == legs[0].toChain;
      assert forall i :: 0 <= i < |rest| ==> rest[i] == legs[i + 1];
      LegsNameWhatArrives(net, ix, rest, t, last);
    }
  }

  /** So the receiver of an indirect route ends with TokenToDenom. */
  lemma IndirectRouteDelivers(net: Network, pf: Pathfinder, req: RouteRequest, info: IndirectRouteInfo, r: IndirectRoute)
    requires SameToken(pf.ix, req) && info.token == SearchFor(pf.ix, req).token
    requires SoundRoute(SearchFor(pf.ix, req), req.chainTo, info) && IndirectBuilt(pf, req, info, r) && r.legs != []
    requires TokensKeyed(pf.ix)
    requires forall i :: 0 <= i < |r.legs| ==> HopKeepsToken(net, pf.ix, r.legs[i], info.token) && OneDenom(pf.ix, r.legs[i].toChain, info.token)
    ensures DenomAlong(net, r.legs, r.legs[0].token.chainDenom) == req.tokenToDenom
  {
    forall i | 0 < i < |r.legs|
      ensures r.legs[i].fromChain == r.legs[i - 1].toChain && ListedAs(pf.ix, r.legs[i].fromChain, r.legs[i].token.chainDenom, info.token)
    {
      LegTokenIsListed(pf, req, info, r, i);
    }
    assert r.legs[|r.legs| - 1].toChain == req.chainTo;
    assert ListedAs(pf.ix, req.chainTo, req.tokenToDenom, info.token);
    LegsNameWhatArrives(net, pf.ix, r.legs, info.token, req.tokenToDenom);
  }

  /** Index entries are filed under the denom they name. */
  ghost predicate TokensKeyed(ix: IndexMaps) {
    forall c, d :: Lookup2(ix.denomToTokenInfo, c, d).Some? ==> Lookup2(ix.denomToTokenInfo, c, d).value.chainDenom == d
  }

  lemma LegTokenIsListed(pf: Pathfinder, req: RouteRequest, info: IndirectRouteInfo, r: IndirectRoute, i: nat)
    requires SameToken(pf.ix, req) && info.token == SearchFor(pf.ix, req).token && TokensKeyed(pf.ix)
    requires SoundRoute(SearchFor(pf.ix, req), req.chainTo, info) && IndirectBuilt(pf, req, info, r) && 0 < i < |r.legs|
    ensures r.legs[i].fromChain == r.legs[i - 1].toChain
    ensures ListedAs(pf.ix, r.legs[i].fromChain, r.legs[i].token.chainDenom, info.token)
  {
    var s := Search(pf.ix, req.chainFrom, info.token);
    assert info.path[0] != info.path[i] && r.legs[i - 1].toChain == info.path[i - 1 + 1];
    assert LegHolds(s, r.legs[i]);
    var t :| LegToken(s, r.legs[i], t);
    var d :| Lookup2(pf.ix.denomToTokenInfo, info.path[i], d) == Some(t);
  }
}
