/** With which denom a broker route ends, on an index built from a well-formed configuration. */
module FinalDenoms {
  import opened RouterTypes
  import opened RouteIndexing
  import opened RouteBuilding
  import opened ConfigPipeline
  import opened MultiHopRouting
  import opened PacketMachine
  import opened BrokerTrips
  import opened EndToEnd
  import opened Ics20Networks

  /** Routable tokens name native tokens of the chain they say they come from. */
  ghost predicate OriginsAreNative(cfg: Config) {
    forall c, u :: u in RoutableTokens(cfg, c) && u.originChain in cfg.inputs ==> IsNativeDenom(cfg, u.originChain, u.originDenom)
  }

  /** The outbound hops deliver what ICS-20 prescribes for them: the first what its route says, the
      second, which leaves the token's origin, the voucher of a native token. */
  ghost predicate OutboundArrives(net: Network, cfg: Config, hash: DenomHash, port: string, req: RouteRequest, info: MultiHopInfo) {
    var out := info.outboundRoutes;
    && (out != [] ==>
          net.arrives(info.brokerChainId, out[0].channelId, info.tokenOutOnBroker.chainDenom) == info.tokenOutOnBroker.ibcDenom)
    && (|out| == 2 && Lookup2(cfg.channels, out[0].toChainId, req.chainTo).Some? ==>
          var c := Lookup2(cfg.channels, out[0].toChainId, req.chainTo).value;
          forall t :: t in NativeTokens(cfg, out[0].toChainId) ==>
            net.arrives(out[0].toChainId, out[1].channelId, t.denom) == ComputeIBCDenom(hash, port, c.counterpartyChannelId, t.denom))
  }

  lemma {:induction false} BrokersAreRegistered(chains: seq<PathfinderChain>, c: PathfinderChain)
    requires c in chains && c.broker && forall i, j :: 0 <= i < j < |chains| ==> chains[i].id != chains[j].id
    ensures Lookup(BrokerChains(chains), c.id) == Some(c.brokerId)
  {
    var n := |chains| - 1;
    if c != chains[n] {
      assert c in chains[..n];
      BrokersAreRegistered(chains[..n], c);
    }
  }

  /** What the index knows of a denom on a chain comes from one of its built routes or natives. */
  lemma KnownToken(cfg: Config, hash: DenomHash, chains: seq<PathfinderChain>, c: ChainId, d: Denom) returns (l: Option<Link>)
    requires ChainsBuilt(cfg, hash, chains) && TokenOf(Links(chains), Natives(chains), c, d).Some?
    ensures l.Some? ==> l.value in Links(chains) && l.value.chain.id == c && RouteBuilt(cfg, hash, c, l.value.route)
                        && Allows(l.value.route, d, TokenOf(Links(chains), Natives(chains), c, d).value)
    ensures l.None? ==> FirstNative(Natives(chains), c, d) == TokenOf(Links(chains), Natives(chains), c, d)
  {
    l := Last(map[], Links(chains), Carrying(c, d));
    LastIsLast(map[], Links(chains), Carrying(c, d));
    if l.Some? {
      LinkIsBuilt(cfg, hash, chains, l.value);
    }
  }

  lemma NativeMembers(chains: seq<PathfinderChain>, c: ChainId, d: Denom)
    requires FirstNative(Natives(chains), c, d).Some?
    ensures exists k, n :: k in chains && k.id == c && n in k.nativeTokens && n.chainDenom == d && FirstNative(Natives(chains), c, d) == Some(n)
  {
    FirstNativeIsMember(Natives(chains), c, d);
    var n :| n in Natives(chains) && n.chainId == c && n.token.chainDenom == d && FirstNative(Natives(chains), c, d) == Some(n.token);
    NativesMembers(chains, n);
  }

  lemma {:induction false} FirstNativeIsMember(natives: seq<Native>, c: ChainId, d: Denom)
    requires FirstNative(natives, c, d).Some?
    ensures exists n :: n in natives && n.chainId == c && n.token.chainDenom == d && FirstNative(natives, c, d) == Some(n.token)
  {
    var last := natives[|natives| - 1];
    if FirstNative(natives[..|natives| - 1], c, d).Some? {
      FirstNativeIsMember(natives[..|natives| - 1], c, d);
    } else {
      assert last in natives;
    }
  }

  lemma {:induction false} NativesMembers(chains: seq<PathfinderChain>, n: Native)
    requires n in Natives(chains)
    ensures exists k :: k in chains && k.id == n.chainId && n.token in k.nativeTokens
  {
    var m := |chains| - 1;
    if n in Natives(chains[..m]) {
      NativesMembers(chains[..m], n);
    } else {
      assert chains[m] in chains;
    }
  }

  lemma NativeIsHome(cfg: Config, hash: DenomHash, chains: seq<PathfinderChain>, c: ChainId, d: Denom)
    requires ChainsBuilt(cfg, hash, chains)
    ensures FirstNative(Natives(chains), c, d).Some? ==>
              FirstNative(Natives(chains), c, d).value.originChain == c && FirstNative(Natives(chains), c, d).value.baseDenom == d
  {
    if FirstNative(Natives(chains), c, d).Some? {
      NativeMembers(chains, c, d);
      var k, n :| k in chains && k.id == c && n in k.nativeTokens && n.chainDenom == d && FirstNative(Natives(chains), c, d) == Some(n);
      var i :| 0 <= i < |chains| && chains[i] == k;
      assert ChainBuilt(cfg, hash, chains[i]);
    }
  }

  /** A token of another origin is not native where it is. */
  lemma ForeignIsNotNative(cfg: Config, hash: DenomHash, chains: seq<PathfinderChain>, c: ChainId, d: Denom)
    requires NativesOk(cfg, hash) && ChainsBuilt(cfg, hash, chains)
    requires TokenOf(Links(chains), Natives(chains), c, d).Some?
    requires TokenOf(Links(chains), Natives(chains), c, d).value.originChain != c
    ensures !IsNativeDenom(cfg, c, d)
    ensures exists l :: l in Links(chains) && l.chain.id == c && RouteBuilt(cfg, hash, c, l.route)
                        && Allows(l.route, d, TokenOf(Links(chains), Natives(chains), c, d).value)
  {
    NativeIsHome(cfg, hash, chains, c, d);
    var l := KnownToken(cfg, hash, chains, c, d);
    if t :| t in NativeTokens(cfg, c) && t.denom == d {
      NativeEntryAtHome(cfg, hash, c, l.value.route, t);
      assert false;
    }
  }

  /** A token of chain o on a built route to o arrives there under its base denom, which is native. */
  lemma HomewardArrivesAsBase(cfg: Config, hash: DenomHash, from: ChainId, r: BasicRoute, d: Denom)
    requires RouteBuilt(cfg, hash, from, r) && OriginsAreNative(cfg) && OffDiagonal(cfg.channels)
    requires d in r.allowedTokens && r.allowedTokens[d].originChain == r.toChainId != from
    ensures r.allowedTokens[d].ibcDenom == r.allowedTokens[d].baseDenom
    ensures IsNativeDenom(cfg, r.toChainId, r.allowedTokens[d].baseDenom)
  {
    var e := EntryOf(cfg, hash, from, r, d);
  }

  /** If a built route from o offers a denom foreign to its destination and known there as a token of
      o, that denom is the voucher of the token's own base denom. */
  lemma OfferIsVoucher(cfg: Config, hash: DenomHash, port: string, chains: seq<PathfinderChain>, r: BasicRoute, o: ChainId,
                       to: ChainId, wanted: Denom, known: TokenInfo)
    requires WellFormed(cfg, hash, port) && OffDiagonal(cfg.channels) && OriginsAreNative(cfg) && ChainsBuilt(cfg, hash, chains)
    requires RouteBuilt(cfg, hash, o, r) && r.toChainId == to && Delivers(r, wanted)
    requires TokenOf(Links(chains), Natives(chains), to, wanted) == Some(known) && known.originChain == o != to
    ensures wanted == ComputeIBCDenom(hash, port, Lookup2(cfg.channels, o, to).value.counterpartyChannelId, known.baseDenom)
  {
    var c := Lookup2(cfg.channels, o, to).value;
    var t := OfferedFor(r, wanted);
    var d :| Allows(r, d, t);
    var e := EntryOf(cfg, hash, o, r, d);
    ForeignIsNotNative(cfg, hash, chains, to, wanted);
    var x := OfferedVoucher(cfg, hash, port, o, to, c, e, wanted);
    assert RouteBuilding.Swapped(c, Lookup2(cfg.channels, to, o).value);
    var l :| l in Links(chains) && l.chain.id == to && RouteBuilt(cfg, hash, to, l.route) && Allows(l.route, wanted, known);
    VoucherEntryAbroad(cfg, hash, port, o, to, x, l.route);
  }

  lemma OfferedFor(r: BasicRoute, wanted: Denom) returns (t: TokenInfo)
    requires Delivers(r, wanted)
    ensures Offers(r, t) && t.ibcDenom == wanted
  {
    t :| Offers(r, t) && t.ibcDenom == wanted;
  }

  /** Whatever its reason, an entry whose destination denom is not native there names a voucher. */
  lemma OfferedVoucher(cfg: Config, hash: DenomHash, port: string, o: ChainId, to: ChainId, c: ChannelInfo,
                       e: RouteTokenInfo, wanted: Denom) returns (x: Denom)
    requires WellFormed(cfg, hash, port) && OffDiagonal(cfg.channels) && OriginsAreNative(cfg) && to in cfg.inputs
    requires Lookup2(cfg.channels, o, to) == Some(c) && Justified(cfg, hash, o, to, c, e)
    requires e.destinationDenom == wanted && !IsNativeDenom(cfg, to, wanted)
    ensures wanted == ComputeIBCDenom(hash, port, c.counterpartyChannelId, x)
  {
    x := e.sourceDenom;
  }

  /** However the route leaves the broker, the receiver ends with the denom that was asked for. */
  lemma ReceiverGetsTokenToDenom(cfg: Config, hash: DenomHash, port: string, chains: seq<PathfinderChain>, ix: IndexMaps,
                                 net: Network, req: RouteRequest, info: MultiHopInfo)
    requires WellFormed(cfg, hash, port) && OffDiagonal(cfg.channels) && OriginsAreNative(cfg)
    requires ChainsBuilt(cfg, hash, chains) && Refines(ix, chains) && OneChainPerBroker(ix)
    requires Executable(ix, req, info) && OutboundArrives(net, cfg, hash, port, req, info)
    ensures FinalDenom(net, info) == req.tokenToDenom
  {
    if info.outboundRoutes == [] {
      KnownUnderItsDenom(cfg, hash, chains, req.chainTo, req.tokenToDenom);
    } else if |info.outboundRoutes| == 2 {
      TwoHopsDeliver(cfg, hash, port, chains, ix, net, req, info);
    }
  }

  lemma KnownUnderItsDenom(cfg: Config, hash: DenomHash, chains: seq<PathfinderChain>, c: ChainId, d: Denom)
    requires ChainsBuilt(cfg, hash, chains) && TokenOf(Links(chains), Natives(chains), c, d).Some?
    ensures TokenOf(Links(chains), Natives(chains), c, d).value.chainDenom == d
  {
    var l := KnownToken(cfg, hash, chains, c, d);
    if l.Some? {
      var e := EntryOf(cfg, hash, c, l.value.route, d);
    } else {
      NativeKeyed(Natives(chains), c, d);
    }
  }

  lemma TwoHopsDeliver(cfg: Config, hash: DenomHash, port: string, chains: seq<PathfinderChain>, ix: IndexMaps,
                       net: Network, req: RouteRequest, info: MultiHopInfo)
    requires WellFormed(cfg, hash, port) && OffDiagonal(cfg.channels) && OriginsAreNative(cfg)
    requires ChainsBuilt(cfg, hash, chains) && Refines(ix, chains) && OneChainPerBroker(ix)
    requires Executable(ix, req, info) && OutboundArrives(net, cfg, hash, port, req, info) && |info.outboundRoutes| == 2
    ensures FinalDenom(net, info) == req.tokenToDenom
  {
    var out, o, base := info.outboundRoutes, info.tokenOut.originChain, info.tokenOut.baseDenom;
    var first := FirstOutboundLink(cfg, hash, chains, ix, req, info);
    var d :| Allows(out[0], d, info.tokenOutOnBroker);
    HomewardArrivesAsBase(cfg, hash, info.brokerChainId, out[0], d);
    SecondOutboundBuilt(cfg, hash, chains, ix, req, info);
    assert Delivers(out[1], req.tokenToDenom);
    OfferIsVoucher(cfg, hash, port, chains, out[1], o, req.chainTo, req.tokenToDenom, info.tokenOut);
    var t :| t in NativeTokens(cfg, o) && t.denom == base;
  }

  lemma FirstOutboundLink(cfg: Config, hash: DenomHash, chains: seq<PathfinderChain>, ix: IndexMaps,
                          req: RouteRequest, info: MultiHopInfo) returns (l: Link)
    requires ChainsBuilt(cfg, hash, chains) && Refines(ix, chains) && OneChainPerBroker(ix)
    requires Executable(ix, req, info) && info.outboundRoutes != []
    ensures l in Links(chains) && l.chain.id == info.brokerChainId && l.route == info.outboundRoutes[0]
    ensures RouteBuilt(cfg, hash, info.brokerChainId, info.outboundRoutes[0])
  {
    l := BrokerLink(chains, ix, info.brokerChain, info.outboundRoutes[0]);
    LinkMembers(chains, l);
    BrokersAreRegistered(chains, l.chain);
    LinkIsBuilt(cfg, hash, chains, l);
  }

  lemma BrokerLink(chains: seq<PathfinderChain>, ix: IndexMaps, brokerId: string, r: BasicRoute) returns (l: Link)
    requires Refines(ix, chains) && Lookup2(ix.brokerRoutes, brokerId, r.toChainId) == Some(r)
    ensures l in Links(chains) && l.chain.broker && l.chain.brokerId == brokerId && l.route == r
  {
    var q := FromBroker(brokerId, r.toChainId);
    FirstIsFirst(map[], Links(chains), q);
    l := First(map[], Links(chains), q).value;
  }

  lemma SecondOutboundBuilt(cfg: Config, hash: DenomHash, chains: seq<PathfinderChain>, ix: IndexMaps, req: RouteRequest, info: MultiHopInfo)
    requires ChainsBuilt(cfg, hash, chains) && Refines(ix, chains)
    requires Executable(ix, req, info) && |info.outboundRoutes| == 2
    ensures RouteBuilt(cfg, hash, info.tokenOut.originChain, info.outboundRoutes[1])
  {
    var q := Between(info.tokenOut.originChain, req.chainTo);
    FirstIsFirst(map[], Links(chains), q);
    LinkIsBuilt(cfg, hash, chains, First(map[], Links(chains), q).value);
  }

  /** A network that follows ICS-20 delivers so, unless the broker forwards the token again. */
  lemma Ics20NetworkArrives(net: Network, cfg: Config, hash: DenomHash, port: string, chains: seq<PathfinderChain>,
                            ix: IndexMaps, req: RouteRequest, info: MultiHopInfo)
    requires WellFormed(cfg, hash, port) && FollowsIcs20(net, cfg, hash, port)
    requires ChainsBuilt(cfg, hash, chains) && Refines(ix, chains) && OneChainPerBroker(ix) && Executable(ix, req, info)
    requires info.outboundRoutes != [] ==>
               !Reforwards(cfg, info.brokerChainId, info.tokenOutOnBroker.originChain, info.tokenOutOnBroker.baseDenom)
    ensures OutboundArrives(net, cfg, hash, port, req, info)
  {
    if info.outboundRoutes != [] {
      FirstArrives(net, cfg, hash, port, chains, ix, req, info);
      if |info.outboundRoutes| == 2 {
        SecondArrives(net, cfg, hash, port, chains, ix, req, info);
      }
    }
  }

  lemma FirstArrives(net: Network, cfg: Config, hash: DenomHash, port: string, chains: seq<PathfinderChain>,
                     ix: IndexMaps, req: RouteRequest, info: MultiHopInfo)
    requires WellFormed(cfg, hash, port) && FollowsIcs20(net, cfg, hash, port)
    requires ChainsBuilt(cfg, hash, chains) && Refines(ix, chains) && OneChainPerBroker(ix)
    requires Executable(ix, req, info) && info.outboundRoutes != []
    requires !Reforwards(cfg, info.brokerChainId, info.tokenOutOnBroker.originChain, info.tokenOutOnBroker.baseDenom)
    ensures net.arrives(info.brokerChainId, info.outboundRoutes[0].channelId, info.tokenOutOnBroker.chainDenom) == info.tokenOutOnBroker.ibcDenom
  {
    var l := FirstOutboundLink(cfg, hash, chains, ix, req, info);
    assert Offers(info.outboundRoutes[0], info.tokenOutOnBroker);
    OfferArrives(net, cfg, hash, port, info.brokerChainId, info.outboundRoutes[0], info.tokenOutOnBroker);
  }

  lemma SecondArrives(net: Network, cfg: Config, hash: DenomHash, port: string, chains: seq<PathfinderChain>,
                      ix: IndexMaps, req: RouteRequest, info: MultiHopInfo)
    requires FollowsIcs20(net, cfg, hash, port) && ChainsBuilt(cfg, hash, chains) && Refines(ix, chains)
    requires Executable(ix, req, info) && |info.outboundRoutes| == 2
    ensures var o, second := info.outboundRoutes[0].toChainId, info.outboundRoutes[1];
            Lookup2(cfg.channels, o, req.chainTo).Some? &&
            forall t :: t in NativeTokens(cfg, o) ==>
              net.arrives(o, second.channelId, t.denom)
                == ComputeIBCDenom(hash, port, Lookup2(cfg.channels, o, req.chainTo).value.counterpartyChannelId, t.denom)
  {
    SecondOutboundBuilt(cfg, hash, chains, ix, req, info);
    assert info.outboundRoutes[0].toChainId == info.tokenOut.originChain && info.outboundRoutes[1].toChainId == req.chainTo;
    NativesArrive(net, cfg, hash, port, info.outboundRoutes[0].toChainId, info.outboundRoutes[1]);
  }

  lemma OfferArrives(net: Network, cfg: Config, hash: DenomHash, port: string, a: ChainId, r: BasicRoute, t: TokenInfo)
    requires WellFormed(cfg, hash, port) && FollowsIcs20(net, cfg, hash, port)
    requires RouteBuilt(cfg, hash, a, r) && Offers(r, t) && !Reforwards(cfg, a, t.originChain, t.baseDenom)
    ensures net.arrives(a, r.channelId, t.chainDenom) == t.ibcDenom
  {
    var d :| Allows(r, d, t);
    HopArrives(net, cfg, hash, port, a, r, d);
  }

  lemma NativesArrive(net: Network, cfg: Config, hash: DenomHash, port: string, a: ChainId, r: BasicRoute)
    requires FollowsIcs20(net, cfg, hash, port) && RouteBuilt(cfg, hash, a, r)
    ensures forall t :: t in NativeTokens(cfg, a) ==>
              net.arrives(a, r.channelId, t.denom)
                == ComputeIBCDenom(hash, port, Lookup2(cfg.channels, a, r.toChainId).value.counterpartyChannelId, t.denom)
  {
    var c := Lookup2(cfg.channels, a, r.toChainId).value;
    forall t | t in NativeTokens(cfg, a)
      ensures net.arrives(a, r.channelId, t.denom) == ComputeIBCDenom(hash, port, c.counterpartyChannelId, t.denom)
    {
      assert ChannelFollows(net, cfg, hash, port, a, c, r.toChainId, t.denom) && IsNativeDenom(cfg, a, t.denom);
      Arriving(hash, port, c, t.denom);
    }
  }

  /** A built route tells the truth about every token that is not forwarded again. */
  lemma HopArrives(net: Network, cfg: Config, hash: DenomHash, port: string, a: ChainId, r: BasicRoute, d: Denom)
    requires WellFormed(cfg, hash, port) && FollowsIcs20(net, cfg, hash, port)
    requires RouteBuilt(cfg, hash, a, r) && d in r.allowedTokens
    requires !Reforwards(cfg, a, r.allowedTokens[d].originChain, r.allowedTokens[d].baseDenom)
    ensures r.allowedTokens[d].chainDenom == d && net.arrives(a, r.channelId, d) == r.allowedTokens[d].ibcDenom
  {
    var c := Lookup2(cfg.channels, a, r.toChainId).value;
    var e := EntryOf(cfg, hash, a, r, d);
    assert ChannelFollows(net, cfg, hash, port, a, c, r.toChainId, e.baseDenom);
    Arriving(hash, port, c, e.baseDenom);
  }
}
