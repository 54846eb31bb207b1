/** A configuration of four chains in a row, hub - osmo - noble - juno, with the broker on osmo and
    native tokens on hub and noble. It meets the premises of the results about configurations, and the
    router's answer to one request on it is a route whose path is incomplete. */
module FourChains {
  import opened RouterTypes
  import opened RouteBuilding
  import opened ConfigPipeline
  import opened Ics20
  import opened RouteIndexing
  import opened IndirectRouting
  import opened MultiHopRouting
  import opened RouteResponses
  import opened EndToEnd
  import opened Ics20Networks
  import opened FinalDenoms
  import opened IndirectTrips
  import opened IndirectDenoms
  import PacketMachine
  import BrokerTrips

  const PORT := "transfer"
  const ATOM := TokenMeta("uatom", "ATOM", 6, [], "", "")
  const USDC := TokenMeta("uusdc", "USDC", 6, [], "", "")

  const HUB_TO_OSMO := ChannelInfo("hub", "osmo", "channel-0", "channel-1", PORT, "connection-0", "ACTIVE")
  const OSMO_TO_HUB := ChannelInfo("osmo", "hub", "channel-1", "channel-0", PORT, "connection-1", "ACTIVE")
  const OSMO_TO_NOBLE := ChannelInfo("osmo", "noble", "channel-2", "channel-3", PORT, "connection-2", "ACTIVE")
  const NOBLE_TO_OSMO := ChannelInfo("noble", "osmo", "channel-3", "channel-2", PORT, "connection-3", "ACTIVE")
  const NOBLE_TO_JUNO := ChannelInfo("noble", "juno", "channel-4", "channel-5", PORT, "connection-4", "ACTIVE")
  const JUNO_TO_NOBLE := ChannelInfo("juno", "noble", "channel-5", "channel-4", PORT, "connection-5", "ACTIVE")

  const FOUR := Config(
    map["hub" := ChainInput("Hub", "hub", [ATOM]), "osmo" := ChainInput("Osmosis", "osmo", []),
        "noble" := ChainInput("Noble", "noble", [USDC]), "juno" := ChainInput("Juno", "juno", [])],
    map["hub" := map["osmo" := HUB_TO_OSMO], "osmo" := map["hub" := OSMO_TO_HUB, "noble" := OSMO_TO_NOBLE],
        "noble" := map["osmo" := NOBLE_TO_OSMO, "juno" := NOBLE_TO_JUNO], "juno" := map["noble" := JUNO_TO_NOBLE]])

  const NO_BROKER := Traits(true, false, "", "", "cosmos")
  const THE_BROKER := Traits(true, true, "osmosis", "contract", "osmo")
  const TRAITS := map["hub" := NO_BROKER, "osmo" := THE_BROKER, "noble" := NO_BROKER, "juno" := NO_BROKER]

  // ---------------------------------------------------------------------------------------------
  // It is well-formed
  // ---------------------------------------------------------------------------------------------

  function ChannelOf(a: ChainId, b: ChainId): Option<ChannelInfo> {
    if a == "hub" && b == "osmo" then Some(HUB_TO_OSMO)
    else if a == "osmo" && b == "hub" then Some(OSMO_TO_HUB)
    else if a == "osmo" && b == "noble" then Some(OSMO_TO_NOBLE)
    else if a == "noble" && b == "osmo" then Some(NOBLE_TO_OSMO)
    else if a == "noble" && b == "juno" then Some(NOBLE_TO_JUNO)
    else if a == "juno" && b == "noble" then Some(JUNO_TO_NOBLE)
    else None
  }

  lemma Channels(a: ChainId, b: ChainId)
    ensures Lookup2(FOUR.channels, a, b) == ChannelOf(a, b)
  {}

  lemma OwnTokens(c: ChainId)
    ensures NativeTokens(FOUR, c) == (if c == "hub" then [ATOM] else if c == "noble" then [USDC] else [])
    ensures RoutableTokens(FOUR, c) == []
  {
    forall t | t == ATOM || t == USDC ensures NativeOnly([t]) == [t] && RoutableOnly([t]) == [] {
      assert [t][..0] == [];
    }
  }

  lemma BothWays(a: ChainId, b: ChainId)
    requires ChannelOf(a, b).Some?
    ensures ChannelOf(b, a).Some? && Swapped(ChannelOf(a, b).value, ChannelOf(b, a).value) && a != b
    ensures var c := ChannelOf(a, b).value;
            c.fromChainId == a && c.toChainId == b && c.portId == PORT && '/' !in c.channelId
  {}

  lemma OneChannelEach(a: ChainId, b: ChainId, b': ChainId)
    requires ChannelOf(a, b).Some? && ChannelOf(a, b').Some? && ChannelOf(a, b).value.channelId == ChannelOf(a, b').value.channelId
    ensures b == b'
  {
    assert "channel-1"[8] != "channel-2"[8] && "channel-3"[8] != "channel-4"[8];
  }

  lemma ChannelsAreOk()
    ensures Involution(FOUR.channels) && OffDiagonal(FOUR.channels) && NoLoops(FOUR) && ChannelsOk(FOUR, PORT)
  {
    forall a, b ensures Lookup2(FOUR.channels, a, b) == ChannelOf(a, b) {
      Channels(a, b);
    }
    forall a, b | ChannelOf(a, b).Some?
      ensures ChannelOf(b, a).Some? && Swapped(ChannelOf(a, b).value, ChannelOf(b, a).value) && a != b
      ensures var c := ChannelOf(a, b).value; c.fromChainId == a && c.toChainId == b && c.portId == PORT && '/' !in c.channelId
    {
      BothWays(a, b);
    }
    forall a, b, b' | SameChannel(FOUR, a, b, b') ensures b == b' {
      OneChannelEach(a, b, b');
    }
  }

  lemma NamesAreOk()
    ensures NativesOk(FOUR, Prefixed) && TruthfulOrigins(FOUR, Prefixed, PORT) && OriginsAreNative(FOUR)
  {
    forall c ensures NativeTokens(FOUR, c) == (if c == "hub" then [ATOM] else if c == "noble" then [USDC] else [])
                     && RoutableTokens(FOUR, c) == [] {
      OwnTokens(c);
    }
    forall c, t, x | t in NativeTokens(FOUR, c) ensures t.denom != Prefixed(x) {
      assert Prefixed(x)[0] == 'i' && t.denom[0] == 'u';
    }
  }

  lemma FourChainsAreWellFormed()
    ensures WellFormed(FOUR, Prefixed, PORT) && OffDiagonal(FOUR.channels) && NoLoops(FOUR) && OriginsAreNative(FOUR)
    ensures forall c, o, d :: !Reforwards(FOUR, c, o, d)
  {
    PrefixedIsInjective();
    ChannelsAreOk();
    NamesAreOk();
    forall c, o, d ensures !Reforwards(FOUR, c, o, d) {
      OwnTokens(c);
    }
  }

  // ---------------------------------------------------------------------------------------------
  // What the router answers on it
  // ---------------------------------------------------------------------------------------------

  /** What juno and osmo call noble's token, and the request to swap the hub's token for it. */
  const USDC_ON_JUNO: Denom := ComputeIBCDenom(Prefixed, PORT, "channel-5", "uusdc")
  const USDC_ON_OSMO: Denom := ComputeIBCDenom(Prefixed, PORT, "channel-2", "uusdc")
  const ATOM_FOR_USDC := RouteRequest("hub", "uatom", "1000", "juno", USDC_ON_JUNO, "cosmos1sender", "juno1receiver", Some(true), None)

  ghost predicate OsmoIsTheBroker(chains: seq<PathfinderChain>) {
    forall c :: c in chains ==> (c.broker <==> c.id == "osmo") && (c.broker ==> c.brokerId == "osmosis")
  }

  /** Chains built from the configuration, all of it, and an index of them. */
  ghost predicate Indexed(chains: seq<PathfinderChain>, ix: IndexMaps) {
    && ChainsBuilt(FOUR, Prefixed, chains) && Refines(ix, chains) && OsmoIsTheBroker(chains)
    && Present(chains, "hub") && Present(chains, "osmo") && Present(chains, "noble") && Present(chains, "juno")
  }

  lemma {:induction false} BrokersAreChains(chains: seq<PathfinderChain>, x: ChainId)
    requires x in BrokerChains(chains)
    ensures exists c :: c in chains && c.broker && c.id == x && c.brokerId == BrokerChains(chains)[x]
  {
    var m := |chains| - 1;
    assert chains[m] in chains;
    if !(chains[m].broker && chains[m].id == x) { BrokersAreChains(chains[..m], x); }
  }

  lemma OsmoIsRegistered(chains: seq<PathfinderChain>)
    requires OsmoIsTheBroker(chains) && Present(chains, "osmo") && forall i, j :: 0 <= i < j < |chains| ==> chains[i].id != chains[j].id
    ensures Lookup(BrokerChains(chains), "osmo") == Some("osmosis") && "osmosis" in BrokerIds(chains)
  {
    var i :| 0 <= i < |chains| && chains[i].id == "osmo";
    BrokersAreRegistered(chains, chains[i]);
    assert chains[i].brokerId in BrokerIds(chains);
  }

  lemma OneBroker(chains: seq<PathfinderChain>)
    requires OsmoIsTheBroker(chains) && Present(chains, "osmo") && forall i, j :: 0 <= i < j < |chains| ==> chains[i].id != chains[j].id
    ensures BrokerChains(chains) == map["osmo" := "osmosis"] && "osmosis" in BrokerIds(chains)
  {
    OsmoIsRegistered(chains);
    forall x | x in BrokerChains(chains) ensures x == "osmo" {
      OnlyOsmo(chains, x);
    }
  }

  lemma OnlyOsmo(chains: seq<PathfinderChain>, x: ChainId)
    requires OsmoIsTheBroker(chains) && x in BrokerChains(chains)
    ensures x == "osmo"
  {
    BrokersAreChains(chains, x);
  }

  lemma IndexedBroker(chains: seq<PathfinderChain>, ix: IndexMaps)
    requires Indexed(chains, ix)
    ensures ix.brokerChains == map["osmo" := "osmosis"] && "osmosis" in ix.brokers && OneChainPerBroker(ix)
  {
    OneBroker(chains);
  }

  lemma HubReachesOsmo(chains: seq<PathfinderChain>, ix: IndexMaps)
    requires Indexed(chains, ix)
    ensures DirectInbound(ix, ATOM_FOR_USDC, "osmosis")
  {
    IndexedBroker(chains, ix);
    Channels("hub", "osmo");
    var l := LinkExists(FOUR, Prefixed, chains, "hub", "osmo");
    LinkIsBuilt(FOUR, Prefixed, chains, l);
    OwnTokens("hub");
    assert ATOM in NativeTokens(FOUR, "hub") && IsTokenAllowedToChain(ATOM, "osmo");
    Carries(FOUR, Prefixed, "hub", l.route, "uatom");
    var links, q := Links(chains), ToBroker("hub", "osmosis");
    LastIsLast(ix.brokerChains, links, q);
    var i :| 0 <= i < |links| && links[i] == l;
    assert Answers(ix.brokerChains, links[i], q);
    LinkIsUnique(FOUR, Prefixed, chains, l, Last(ix.brokerChains, links, q).value);
  }

  /** osmo's route to noble takes noble's token home. */
  lemma OsmoReachesNoble(chains: seq<PathfinderChain>, ix: IndexMaps) returns (r: BasicRoute, t: TokenInfo)
    requires Indexed(chains, ix)
    ensures Lookup2(ix.brokerRoutes, "osmosis", "noble") == Some(r) == Lookup2(ix.chainRoutes, "osmo", "noble")
    ensures USDC_ON_OSMO in r.allowedTokens
    ensures Offers(r, t) && t.baseDenom == "uusdc" && t.originChain == "noble"
  {
    FourChainsAreWellFormed();
    Channels("osmo", "noble");
    var l := LinkExists(FOUR, Prefixed, chains, "osmo", "noble");
    LinkIsBuilt(FOUR, Prefixed, chains, l);
    r := l.route;
    OwnTokens("noble");
    assert USDC in NativeTokens(FOUR, "noble") && IsTokenAllowedToChain(USDC, "osmo");
    Carries(FOUR, Prefixed, "osmo", r, USDC_ON_OSMO);
    VoucherEntryAbroad(FOUR, Prefixed, PORT, "noble", "osmo", "uusdc", r);
    t := r.allowedTokens[USDC_ON_OSMO];
    assert Allows(r, USDC_ON_OSMO, t);
    OnlyFromOsmo(chains, ix, l);
  }

  lemma SomeAnswer(links: seq<Link>, q: Query, l: Link) returns (first: Link)
    requires l in links && Answers(map[], l, q)
    ensures First(map[], links, q) == Some(first) && first in links && Answers(map[], first, q)
  {
    FirstIsFirst(map[], links, q);
    first := First(map[], links, q).value;
  }

  lemma OnlyFromOsmo(chains: seq<PathfinderChain>, ix: IndexMaps, l: Link)
    requires Indexed(chains, ix) && l in Links(chains) && l.chain.id == "osmo"
    ensures Lookup2(ix.brokerRoutes, "osmosis", l.route.toChainId) == Some(l.route) == Lookup2(ix.chainRoutes, "osmo", l.route.toChainId)
  {
    var hop := SomeAnswer(Links(chains), Between("osmo", l.route.toChainId), l);
    LinkIsUnique(FOUR, Prefixed, chains, l, hop);
    LinkMembers(chains, l);
    var first := SomeAnswer(Links(chains), FromBroker("osmosis", l.route.toChainId), l);
    LinkMembers(chains, first);
    assert first.chain.id == "osmo";
    LinkIsUnique(FOUR, Prefixed, chains, l, first);
  }

  /** noble's native token, asked for on one of its neighbours. */
  function FromNoble(b: ChainId, denom: Denom): RouteRequest {
    RouteRequest("noble", "uusdc", "1000", b, denom, "cosmos1sender", "receiver", None, None)
  }

  lemma NobleTokenIsAsked()
    ensures Asks(FOUR, Prefixed, PORT, "noble", "juno", USDC, FromNoble("juno", USDC_ON_JUNO))
    ensures Asks(FOUR, Prefixed, PORT, "noble", "osmo", USDC, FromNoble("osmo", USDC_ON_OSMO))
  {
    Channels("noble", "juno");
    Channels("noble", "osmo");
    OwnTokens("noble");
    assert USDC in NativeTokens(FOUR, "noble");
  }

  /** noble's route to juno delivers what is asked for, and juno knows it. */
  lemma NobleReachesJuno(chains: seq<PathfinderChain>, ix: IndexMaps) returns (r: BasicRoute)
    requires Indexed(chains, ix)
    ensures Lookup2(ix.chainRoutes, "noble", "juno") == Some(r) && "uusdc" in r.allowedTokens && Delivers(r, USDC_ON_JUNO)
    ensures Lookup2(ix.denomToTokenInfo, "juno", USDC_ON_JUNO).Some?
    ensures SameOrigin(Lookup2(ix.denomToTokenInfo, "juno", USDC_ON_JUNO).value, "noble", "uusdc")
  {
    FourChainsAreWellFormed();
    NobleTokenIsAsked();
    Channels("noble", "juno");
    OwnTokens("noble");
    OwnTokens("juno");
    var home := FromNoble("juno", USDC_ON_JUNO);
    VoucherIsIndexed(FOUR, Prefixed, PORT, chains, ix, "noble", "juno", USDC, home);
    var l := RouteIsIndexed(FOUR, Prefixed, PORT, chains, ix, "noble", "juno", USDC, home);
    r := l.route;
    var e := EntryOf(FOUR, Prefixed, "noble", r, "uusdc");
    assert Allows(r, "uusdc", r.allowedTokens["uusdc"]);
    assert Offers(r, r.allowedTokens["uusdc"]);
  }

  lemma RequestIsFeasible(chains: seq<PathfinderChain>, ix: IndexMaps)
    requires Indexed(chains, ix)
    ensures BrokerFeasible(ix, ATOM_FOR_USDC, "osmosis")
  {
    IndexedBroker(chains, ix);
    HubReachesOsmo(chains, ix);
    var first, t := OsmoReachesNoble(chains, ix);
    var second := NobleReachesJuno(chains, ix);
    var tokenOut := Lookup2(ix.denomToTokenInfo, "juno", USDC_ON_JUNO).value;
    assert OutboundViaOrigin(ix, ATOM_FOR_USDC, "osmosis", "osmo", tokenOut);
    assert CanReachBroker(ix, ATOM_FOR_USDC, "osmosis", "osmo");
    assert Feasible(ix, ATOM_FOR_USDC, "osmosis", "osmo");
  }

  lemma IndexedRouteIsBuilt(chains: seq<PathfinderChain>, ix: IndexMaps, a: ChainId, r: BasicRoute)
    requires ChainsBuilt(FOUR, Prefixed, chains) && Refines(ix, chains) && RouteFrom(ix, a, r)
    ensures RouteBuilt(FOUR, Prefixed, a, r)
  {
    var l := RouteLink(chains, ix, a, r);
    LinkIsBuilt(FOUR, Prefixed, chains, l);
  }

  lemma RouteLink(chains: seq<PathfinderChain>, ix: IndexMaps, a: ChainId, r: BasicRoute) returns (l: Link)
    requires Refines(ix, chains) && RouteFrom(ix, a, r)
    ensures l in Links(chains) && l.chain.id == a && l.route == r
  {
    var links := Links(chains);
    if Lookup2(ix.chainRoutes, a, r.toChainId) == Some(r) {
      FirstIsFirst(map[], links, Between(a, r.toChainId));
      l := First(map[], links, Between(a, r.toChainId)).value;
    } else {
      var k :| Lookup2(ix.chainToBrokerRoutes, a, k) == Some(r);
      LastIsLast(ix.brokerChains, links, ToBroker(a, k));
      l := Last(ix.brokerChains, links, ToBroker(a, k)).value;
    }
  }

  lemma OneNeighbour(a: ChainId, r: BasicRoute)
    requires RouteBuilt(FOUR, Prefixed, a, r)
    ensures a == "hub" ==> r.toChainId == "osmo"
    ensures a == "osmo" ==> r.toChainId == "hub" || r.toChainId == "noble"
  {
    Channels(a, r.toChainId);
  }

  lemma InboundFacts(ix: IndexMaps, req: RouteRequest, info: MultiHopInfo)
    requires Executable(ix, req, info) && !info.sourceIsBroker
    ensures 1 <= |info.inboundRoutes| == |info.inboundPath| <= 2 && info.inboundPath[0] == req.chainFrom
    ensures RouteFrom(ix, req.chainFrom, info.inboundRoutes[0])
    ensures |info.inboundPath| == 2 ==> info.inboundRoutes[0].toChainId == info.inboundPath[1] != info.brokerChainId
  {
    assert RouteFrom(ix, info.inboundPath[0], info.inboundRoutes[0]);
  }

  lemma OutboundFacts(ix: IndexMaps, req: RouteRequest, info: MultiHopInfo)
    requires Executable(ix, req, info) && !info.swapOnly
    ensures 1 <= |info.outboundRoutes| <= 2 && info.outboundRoutes[|info.outboundRoutes| - 1].toChainId == req.chainTo
    ensures Lookup2(ix.brokerRoutes, info.brokerChain, info.outboundRoutes[0].toChainId) == Some(info.outboundRoutes[0])
    ensures |info.outboundRoutes| == 2 ==> info.outboundRoutes[0].toChainId != req.chainTo
  {}

  lemma HubLeadsToOsmo(chains: seq<PathfinderChain>, ix: IndexMaps, r: BasicRoute)
    requires ChainsBuilt(FOUR, Prefixed, chains) && Refines(ix, chains) && RouteFrom(ix, "hub", r)
    ensures r.toChainId == "osmo"
  {
    IndexedRouteIsBuilt(chains, ix, "hub", r);
    OneNeighbour("hub", r);
  }

  lemma OsmoLeadsToNobleOrHub(chains: seq<PathfinderChain>, ix: IndexMaps, r: BasicRoute)
    requires ChainsBuilt(FOUR, Prefixed, chains) && Refines(ix, chains) && OsmoIsTheBroker(chains)
    requires Lookup2(ix.brokerRoutes, "osmosis", r.toChainId) == Some(r)
    ensures r.toChainId == "hub" || r.toChainId == "noble"
  {
    var l := BrokerLink(chains, ix, "osmosis", r);
    LinkMembers(chains, l);
    LinkIsBuilt(FOUR, Prefixed, chains, l);
    OneNeighbour("osmo", r);
  }

  lemma ViaOriginOf(ix: IndexMaps, req: RouteRequest, info: MultiHopInfo)
    requires Executable(ix, req, info) && |info.outboundRoutes| == 2
    ensures Lookup2(ix.denomToTokenInfo, req.chainTo, req.tokenToDenom).Some?
    ensures info.outboundRoutes[0].toChainId == Lookup2(ix.denomToTokenInfo, req.chainTo, req.tokenToDenom).value.originChain
  {}

  lemma BrokerOf(ix: IndexMaps, req: RouteRequest, info: MultiHopInfo)
    requires Executable(ix, req, info) && ix.brokerChains == map["osmo" := "osmosis"]
    ensures info.brokerChainId == "osmo" && info.brokerChain == "osmosis"
    ensures (info.sourceIsBroker <==> req.chainFrom == "osmo") && (info.swapOnly <==> req.chainTo == "osmo")
  {}

  /** What such an index knows around the broker. */
  ghost predicate Surroundings(ix: IndexMaps) {
    && ix.brokerChains == map["osmo" := "osmosis"]
    && (forall r :: RouteFrom(ix, "hub", r) ==> r.toChainId == "osmo")
    && (forall r: BasicRoute :: Lookup2(ix.brokerRoutes, "osmosis", r.toChainId) == Some(r) ==> r.toChainId == "hub" || r.toChainId == "noble")
    && (var known := Lookup2(ix.denomToTokenInfo, "juno", USDC_ON_JUNO); known.Some? && known.value.originChain == "noble")
  }

  lemma IndexedSurroundings(chains: seq<PathfinderChain>, ix: IndexMaps)
    requires Indexed(chains, ix)
    ensures Surroundings(ix)
  {
    IndexedBroker(chains, ix);
    var second := NobleReachesJuno(chains, ix);
    forall r | RouteFrom(ix, "hub", r) ensures r.toChainId == "osmo" {
      HubLeadsToOsmo(chains, ix, r);
    }
    forall r: BasicRoute | Lookup2(ix.brokerRoutes, "osmosis", r.toChainId) == Some(r) ensures r.toChainId == "hub" || r.toChainId == "noble" {
      OsmoLeadsToNobleOrHub(chains, ix, r);
    }
  }

  lemma InboundFromHub(ix: IndexMaps, req: RouteRequest, info: MultiHopInfo)
    requires Surroundings(ix) && Executable(ix, req, info) && req.chainFrom == "hub"
    ensures info.brokerChainId == "osmo" && !info.sourceIsBroker && info.inboundPath == ["hub"]
  {
    BrokerOf(ix, req, info);
    InboundFacts(ix, req, info);
  }

  lemma OutboundOverNoble(ix: IndexMaps, req: RouteRequest, info: MultiHopInfo)
    requires Surroundings(ix) && Executable(ix, req, info) && req.chainTo == "juno" && req.tokenToDenom == USDC_ON_JUNO
    ensures |info.outboundRoutes| == 2 && info.outboundRoutes[0].toChainId == "noble" && info.outboundRoutes[1].toChainId == "juno"
    ensures !info.swapOnly
  {
    BrokerOf(ix, req, info);
    OutboundFacts(ix, req, info);
    if |info.outboundRoutes| == 2 { ViaOriginOf(ix, req, info); }
  }

  /** Every route the router may return goes over one inbound hop and two outbound ones, through
      noble; the path it reports leaves noble out. */
  lemma PathCanMissAChain(chains: seq<PathfinderChain>, ix: IndexMaps, info: MultiHopInfo)
    requires Indexed(chains, ix) && Executable(ix, ATOM_FOR_USDC, info)
    ensures info.inboundPath == ["hub"] && OutboundPath(info) == ["osmo", "noble", "juno"]
    ensures |info.outboundRoutes| == 2 && BrokerPath(ATOM_FOR_USDC, info) == ["hub", "osmo", "juno"]
  {
    IndexedSurroundings(chains, ix);
    InboundFromHub(ix, ATOM_FOR_USDC, info);
    OutboundOverNoble(ix, ATOM_FOR_USDC, info);
    ShapeOf(info);
  }

  lemma ShapeOf(info: MultiHopInfo)
    requires info.brokerChainId == "osmo" && !info.sourceIsBroker && !info.swapOnly
    requires info.inboundPath == ["hub"] && |info.outboundRoutes| == 2
    requires info.outboundRoutes[0].toChainId == "noble" && info.outboundRoutes[1].toChainId == "juno"
    ensures OutboundPath(info) == ["osmo", "noble", "juno"] && BrokerPath(ATOM_FOR_USDC, info) == ["hub", "osmo", "juno"]
  {}

  /** On a network that follows ICS-20 its receiver ends with the denom asked for. */
  lemma ReceiverOnJuno(net: PacketMachine.Network, chains: seq<PathfinderChain>, ix: IndexMaps, info: MultiHopInfo)
    requires Indexed(chains, ix) && Executable(ix, ATOM_FOR_USDC, info) && FollowsIcs20(net, FOUR, Prefixed, PORT)
    ensures OutboundArrives(net, FOUR, Prefixed, PORT, ATOM_FOR_USDC, info)
    ensures BrokerTrips.FinalDenom(net, info) == USDC_ON_JUNO
  {
    FourChainsAreWellFormed();
    IndexedBroker(chains, ix);
    Ics20NetworkArrives(net, FOUR, Prefixed, PORT, chains, ix, ATOM_FOR_USDC, info);
    ReceiverGetsTokenToDenom(FOUR, Prefixed, PORT, chains, ix, net, ATOM_FOR_USDC, info);
  }

  lemma TraitsOf(id: ChainId)
    requires id in TRAITS
    ensures TRAITS[id].broker <==> id == "osmo"
    ensures TRAITS[id].broker ==> TRAITS[id].brokerId == "osmosis"
  {}

  lemma ConvertedTraits(chains: seq<PathfinderChain>)
    requires forall c :: c in chains ==> c.id in TRAITS && HasTraits(c, TRAITS[c.id])
    ensures OsmoIsTheBroker(chains)
  {
    forall c | c in chains ensures (c.broker <==> c.id == "osmo") && (c.broker ==> c.brokerId == "osmosis") {
      TraitsOf(c.id);
    }
  }

  /** Converting, indexing and asking: the router does return such a route, and a network on which its
      receiver ends with the denom asked for exists. */
  method AskFourChains() returns (chains: seq<PathfinderChain>, ix: IndexMaps, info: MultiHopInfo, ghost net: PacketMachine.Network)
    ensures Indexed(chains, ix) && Executable(ix, ATOM_FOR_USDC, info) && |info.outboundRoutes| == 2
    ensures BrokerPath(ATOM_FOR_USDC, info) == ["hub", "osmo", "juno"]
    ensures FollowsIcs20(net, FOUR, Prefixed, PORT) && OutboundArrives(net, FOUR, Prefixed, PORT, ATOM_FOR_USDC, info)
  {
    var ids := ["hub", "juno", "noble", "osmo"];
    assert ids[0] == "hub" && ids[1] == "juno" && ids[2] == "noble" && ids[3] == "osmo";
    var converted := Convert(FOUR, Prefixed, ids, TRAITS);
    chains := converted.value;
    var index := new RouteIndex();
    var ok := index.BuildIndex(chains);
    ix := index.View();
    ConvertedTraits(chains);
    assert Indexed(chains, ix);
    RefinedIndexIsKeyed(ix, chains);
    IndexedBroker(chains, ix);
    RequestIsFeasible(chains, ix);
    var infos := FindMultiHopRoute(ix, ATOM_FOR_USDC);
    assert MultiHopRouting.Listed(infos, "osmosis");
    info := infos[0];
    PathCanMissAChain(chains, ix, info);
    FourChainsAreWellFormed();
    net := Ics20NetworkExists(FOUR, Prefixed, PORT, {});
    ReceiverOnJuno(net, chains, ix, info);
  }

  // ---------------------------------------------------------------------------------------------
  // A swap-free request on it
  // ---------------------------------------------------------------------------------------------

  const OSMO_TO_JUNO := RouteRequest("osmo", USDC_ON_OSMO, "1000", "juno", USDC_ON_JUNO, "osmo1sender", "juno1receiver", None, None)

  lemma UsdcIsKnown(chains: seq<PathfinderChain>, ix: IndexMaps)
    requires Indexed(chains, ix)
    ensures SameToken(ix, OSMO_TO_JUNO) && SearchFor(ix, OSMO_TO_JUNO).token.chainDenom == USDC_ON_OSMO
    ensures SameOrigin(SearchFor(ix, OSMO_TO_JUNO).token, "noble", "uusdc")
  {
    FourChainsAreWellFormed();
    NobleTokenIsAsked();
    VoucherIsIndexed(FOUR, Prefixed, PORT, chains, ix, "noble", "osmo", USDC, FromNoble("osmo", USDC_ON_OSMO));
    VoucherIsIndexed(FOUR, Prefixed, PORT, chains, ix, "noble", "juno", USDC, FromNoble("juno", USDC_ON_JUNO));
    KnownUnderItsDenom(FOUR, Prefixed, chains, "osmo", USDC_ON_OSMO);
  }

  /** All noble can hold of its own token is the native one. */
  lemma UsdcAtHome(chains: seq<PathfinderChain>, ix: IndexMaps, s: Search) returns (t: TokenInfo)
    requires Indexed(chains, ix) && s.ix == ix && s.from != "noble" && SameOrigin(s.token, "noble", "uusdc")
    ensures MayHold(s, "noble", t) && forall u :: MayHold(s, "noble", u) ==> u.chainDenom == "uusdc"
  {
    FourChainsAreWellFormed();
    OwnTokens("noble");
    assert USDC in NativeTokens(FOUR, "noble");
    NativeIsListed(FOUR, Prefixed, chains, ix, s.token);
    t := Lookup2(ix.denomToTokenInfo, "noble", "uusdc").value;
    forall u | MayHold(s, "noble", u) ensures u.chainDenom == "uusdc" {
      var d :| Lookup2(ix.denomToTokenInfo, "noble", d) == Some(u);
      KnownUnderItsDenom(FOUR, Prefixed, chains, "noble", d);
      WhereListed(FOUR, Prefixed, PORT, chains, "noble", d, "noble", "uusdc");
    }
  }

  lemma OverNoble(s: Search, first: BasicRoute, second: BasicRoute, t: TokenInfo)
    requires s.from == "osmo" && Lookup2(s.ix.chainRoutes, "osmo", "noble") == Some(first) && s.token.chainDenom in first.allowedTokens
    requires Lookup2(s.ix.chainRoutes, "noble", "juno") == Some(second) && "uusdc" in second.allowedTokens
    requires MayHold(s, "noble", t) && forall u :: MayHold(s, "noble", u) ==> u.chainDenom == "uusdc"
    ensures MustPath(s, ["osmo", "noble", "juno"])
  {
    assert MayHold(s, "osmo", s.token);
    assert MustHop(s, "osmo", "noble") && MustHop(s, "noble", "juno");
  }

  lemma PathOverNoble(chains: seq<PathfinderChain>, ix: IndexMaps)
    requires Indexed(chains, ix)
    ensures SameToken(ix, OSMO_TO_JUNO) && MustPath(SearchFor(ix, OSMO_TO_JUNO), ["osmo", "noble", "juno"])
  {
    UsdcIsKnown(chains, ix);
    var s := SearchFor(ix, OSMO_TO_JUNO);
    var first, offered := OsmoReachesNoble(chains, ix);
    var second := NobleReachesJuno(chains, ix);
    var t := UsdcAtHome(chains, ix, s);
    OverNoble(s, first, second, t);
  }

  lemma RouteIsFound(chains: seq<PathfinderChain>, ix: IndexMaps, found: Option<IndirectRouteInfo>)
    requires Indexed(chains, ix) && IndirectAnswer(ix, OSMO_TO_JUNO, found)
    ensures SameToken(ix, OSMO_TO_JUNO) && found.Some? && |found.value.path| > 1
    ensures SoundRoute(SearchFor(ix, OSMO_TO_JUNO), "juno", found.value)
  {
    PathOverNoble(chains, ix);
    AnswerExists(ix, OSMO_TO_JUNO, found, ["osmo", "noble", "juno"]);
  }

  lemma AnswerExists(ix: IndexMaps, req: RouteRequest, found: Option<IndirectRouteInfo>, p: seq<ChainId>)
    requires SameToken(ix, req) && IndirectAnswer(ix, req, found) && req.chainFrom != req.chainTo
    requires MustPath(SearchFor(ix, req), p) && p[|p| - 1] == req.chainTo
    ensures found.Some? && |found.value.path| > 1 && SoundRoute(SearchFor(ix, req), req.chainTo, found.value)
  {}

  /** The router finds a swap-free route for it, and its receiver ends with the denom asked for. */
  method AskSwapFree(chains: seq<PathfinderChain>, ix: IndexMaps, ghost net: PacketMachine.Network) returns (r: IndirectRoute)
    requires Indexed(chains, ix) && FollowsIcs20(net, FOUR, Prefixed, PORT)
    ensures r.legs != [] && DenomAlong(net, r.legs, r.legs[0].token.chainDenom) == USDC_ON_JUNO
  {
    var found := FindIndirectRoute(ix, OSMO_TO_JUNO);
    RouteIsFound(chains, ix, found);
    var pf := Pathfinder(map[], ix, map[], (broker, from, id, to) => None, (address, chain) => None, 0);
    r := BuildIndirectResponse(pf, OSMO_TO_JUNO, found.value);
    FourChainsAreWellFormed();
    UnforwardedTokenArrives(net, FOUR, Prefixed, PORT, chains, pf, OSMO_TO_JUNO, found.value, r);
  }
}
