/** With which denom a swap-free route ends, on an index built from a well-formed configuration and a
    network that follows ICS-20. */
module IndirectDenoms {
  import opened RouterTypes
  import opened RouteIndexing
  import opened RouteBuilding
  import opened ConfigPipeline
  import opened IndirectRouting
  import opened PacketMachine
  import opened RouteResponses
  import opened IndirectTrips
  import opened EndToEnd
  import opened Ics20Networks
  import opened FinalDenoms

  /** No chain is connected to itself. */
  ghost predicate NoLoops(cfg: Config) {
    forall c :: Lookup2(cfg.channels, c, c).None?
  }

  /** Where a chain does not forward a token again, it lists it as native at home, else as the voucher
      over its own channel to the token's origin. */
  lemma WhereListed(cfg: Config, hash: DenomHash, port: string, chains: seq<PathfinderChain>, c: ChainId, d: Denom, o: ChainId, base: Denom)
    requires WellFormed(cfg, hash, port) && NoLoops(cfg) && ChainsBuilt(cfg, hash, chains) && !Reforwards(cfg, c, o, base)
    requires TokenOf(Links(chains), Natives(chains), c, d).Some? && SameOrigin(TokenOf(Links(chains), Natives(chains), c, d).value, o, base)
    ensures IsNativeDenom(cfg, o, base)
    ensures c == o ==> d == base
    ensures c != o ==> Lookup2(cfg.channels, c, o).Some? && d == ComputeIBCDenom(hash, port, Lookup2(cfg.channels, c, o).value.channelId, base)
  {
    var l := KnownToken(cfg, hash, chains, c, d);
    if l.Some? {
      var e := EntryOf(cfg, hash, c, l.value.route, d);
      WhereJustified(cfg, hash, port, c, l.value.route.toChainId, e);
    } else {
      NativeIsHome(cfg, hash, chains, c, d);
      FirstNativeIsNative(cfg, hash, chains, c, d);
    }
  }

  lemma WhereJustified(cfg: Config, hash: DenomHash, port: string, c: ChainId, to: ChainId, e: RouteTokenInfo)
    requires ChannelsOk(cfg, port) && NoLoops(cfg) && Lookup2(cfg.channels, c, to).Some?
    requires Justified(cfg, hash, c, to, Lookup2(cfg.channels, c, to).value, e) && !Reforwards(cfg, c, e.originChain, e.baseDenom)
    ensures IsNativeDenom(cfg, e.originChain, e.baseDenom)
    ensures c == e.originChain ==> e.sourceDenom == e.baseDenom
    ensures c != e.originChain ==>
              && Lookup2(cfg.channels, c, e.originChain).Some?
              && e.sourceDenom == ComputeIBCDenom(hash, port, Lookup2(cfg.channels, c, e.originChain).value.channelId, e.baseDenom)
  {}

  lemma FirstNativeIsNative(cfg: Config, hash: DenomHash, chains: seq<PathfinderChain>, c: ChainId, d: Denom)
    requires ChainsBuilt(cfg, hash, chains) && FirstNative(Natives(chains), c, d).Some?
    ensures IsNativeDenom(cfg, c, d)
  {
    NativeMembers(chains, c, d);
    var k, n :| k in chains && k.id == c && n in k.nativeTokens && n.chainDenom == d && FirstNative(Natives(chains), c, d) == Some(n);
    var i :| 0 <= i < |chains| && chains[i] == k;
    assert ChainBuilt(cfg, hash, chains[i]);
  }

  lemma ListedIsPresent(cfg: Config, hash: DenomHash, chains: seq<PathfinderChain>, c: ChainId, d: Denom)
    requires ChainsBuilt(cfg, hash, chains) && TokenOf(Links(chains), Natives(chains), c, d).Some?
    ensures Present(chains, c)
  {
    var l := KnownToken(cfg, hash, chains, c, d);
    if l.Some? {
      LinkMembers(chains, l.value);
    } else {
      NativeMembers(chains, c, d);
    }
  }

  lemma {:induction false} SomeNative(natives: seq<Native>, n: Native)
    requires n in natives
    ensures FirstNative(natives, n.chainId, n.token.chainDenom).Some?
  {
    var m := |natives| - 1;
    if n != natives[m] { SomeNative(natives[..m], n); }
  }

  lemma {:induction false} NativesHave(chains: seq<PathfinderChain>, k: PathfinderChain, t: TokenInfo)
    requires k in chains && t in k.nativeTokens
    ensures Native(k.id, t) in Natives(chains)
  {
    var m := |chains| - 1;
    if k != chains[m] {
      NativesHave(chains[..m], k, t);
    } else {
      var j :| 0 <= j < |k.nativeTokens| && k.nativeTokens[j] == t;
      assert NativesOf(k)[j] == Native(k.id, t);
    }
  }

  /** On its own chain a native token is listed as itself. */
  lemma NativeIsListed(cfg: Config, hash: DenomHash, chains: seq<PathfinderChain>, ix: IndexMaps, t: TokenInfo)
    requires NativesOk(cfg, hash) && ChainsBuilt(cfg, hash, chains) && Refines(ix, chains)
    requires Present(chains, t.originChain) && IsNativeDenom(cfg, t.originChain, t.baseDenom)
    ensures ListedAs(ix, t.originChain, t.baseDenom, t)
  {
    var o, base := t.originChain, t.baseDenom;
    var n :| n in NativeTokens(cfg, o) && n.denom == base;
    NativeIsFound(cfg, hash, chains, o, n);
    var l := KnownToken(cfg, hash, chains, o, base);
    if l.Some? {
      NativeIsIndexed(cfg, hash, chains, ix, o, n, l.value);
    } else {
      NativeIsHome(cfg, hash, chains, o, base);
      assert Lookup2(ix.denomToTokenInfo, o, base) == FirstNative(Natives(chains), o, base);
    }
  }

  lemma NativeIsFound(cfg: Config, hash: DenomHash, chains: seq<PathfinderChain>, o: ChainId, n: TokenMeta)
    requires ChainsBuilt(cfg, hash, chains) && Present(chains, o) && n in NativeTokens(cfg, o)
    ensures FirstNative(Natives(chains), o, n.denom).Some?
  {
    var i :| 0 <= i < |chains| && chains[i].id == o;
    assert ChainBuilt(cfg, hash, chains[i]);
    NativesHave(chains, chains[i], NativeInfo(o, n));
    SomeNative(Natives(chains), Native(o, NativeInfo(o, n)));
  }

  /** A hop from a chain that does not forward the token again keeps it: it leaves home as a voucher
      its neighbour lists, or comes home as the native token. */
  lemma HopKeeps(net: Network, cfg: Config, hash: DenomHash, port: string, chains: seq<PathfinderChain>, ix: IndexMaps,
                 a: ChainId, r: BasicRoute, d: Denom, t: TokenInfo)
    requires WellFormed(cfg, hash, port) && NoLoops(cfg) && ChainsBuilt(cfg, hash, chains) && Refines(ix, chains)
    requires FollowsIcs20(net, cfg, hash, port)
    requires RouteBuilt(cfg, hash, a, r) && d in r.allowedTokens && Present(chains, r.toChainId) && a in cfg.inputs
    requires ListedAs(ix, a, d, t) && !Reforwards(cfg, a, t.originChain, t.baseDenom)
    ensures ListedAs(ix, r.toChainId, net.arrives(a, r.channelId, d), t)
  {
    var b, o, base := r.toChainId, t.originChain, t.baseDenom;
    var c := Lookup2(cfg.channels, a, b).value;
    WhereListed(cfg, hash, port, chains, a, d, o, base);
    assert ChannelFollows(net, cfg, hash, port, a, c, b, base);
    Arriving(hash, port, c, base);
    var e := EntryOf(cfg, hash, a, r, d);
    if a == o {
      LeavesHome(cfg, hash, port, chains, ix, a, b, base, e);
    } else {
      ComesHome(cfg, hash, port, o, a, base, b, e);
      NativeIsListed(cfg, hash, chains, ix, t);
    }
  }

  /** A voucher that is not forwarded again is carried only to its origin. */
  lemma ComesHome(cfg: Config, hash: DenomHash, port: string, o: ChainId, a: ChainId, d: Denom, b: ChainId, e: RouteTokenInfo)
    requires WellFormed(cfg, hash, port) && a != o && Lookup2(cfg.channels, a, o).Some? && Lookup2(cfg.channels, a, b).Some?
    requires Justified(cfg, hash, a, b, Lookup2(cfg.channels, a, b).value, e) && !Reforwards(cfg, a, o, d)
    requires e.sourceDenom == ComputeIBCDenom(hash, port, Lookup2(cfg.channels, a, o).value.channelId, d)
    ensures b == o && ComputeIBCDenom(hash, port, Lookup2(cfg.channels, a, b).value.channelId, d) == e.sourceDenom
  {
    JustifiedVoucher(cfg, hash, port, o, a, d, b, e);
  }

  lemma LeavesHome(cfg: Config, hash: DenomHash, port: string, chains: seq<PathfinderChain>, ix: IndexMaps,
                   a: ChainId, b: ChainId, d: Denom, e: RouteTokenInfo)
    requires WellFormed(cfg, hash, port) && NoLoops(cfg) && ChainsBuilt(cfg, hash, chains) && Refines(ix, chains)
    requires a in cfg.inputs && b in cfg.inputs && Present(chains, b) && IsNativeDenom(cfg, a, d) && Lookup2(cfg.channels, a, b).Some?
    requires Justified(cfg, hash, a, b, Lookup2(cfg.channels, a, b).value, e) && e.sourceDenom == d
    ensures var known := Lookup2(ix.denomToTokenInfo, b, ComputeIBCDenom(hash, port, Lookup2(cfg.channels, a, b).value.counterpartyChannelId, d));
            known.Some? && SameOrigin(known.value, a, d)
  {
    var n :| n in NativeTokens(cfg, a) && n.denom == d;
    var t :| t in NativeTokens(cfg, a) && IsTokenAllowedToChain(t, b) && t.denom == d;
    var voucher := ComputeIBCDenom(hash, port, Lookup2(cfg.channels, a, b).value.counterpartyChannelId, d);
    VoucherIsIndexed(cfg, hash, port, chains, ix, a, b, t, RouteRequest(a, d, "", b, voucher, "", "", None, None));
  }

  lemma ListsOneDenom(cfg: Config, hash: DenomHash, port: string, chains: seq<PathfinderChain>, ix: IndexMaps, c: ChainId, t: TokenInfo)
    requires WellFormed(cfg, hash, port) && NoLoops(cfg) && ChainsBuilt(cfg, hash, chains) && Refines(ix, chains)
    requires !Reforwards(cfg, c, t.originChain, t.baseDenom)
    ensures OneDenom(ix, c, t)
  {
    forall d, d' | ListedAs(ix, c, d, t) && ListedAs(ix, c, d', t) ensures d == d' {
      WhereListed(cfg, hash, port, chains, c, d, t.originChain, t.baseDenom);
      WhereListed(cfg, hash, port, chains, c, d', t.originChain, t.baseDenom);
    }
  }

  lemma BuiltTokensKeyed(cfg: Config, hash: DenomHash, chains: seq<PathfinderChain>, ix: IndexMaps)
    requires ChainsBuilt(cfg, hash, chains) && Refines(ix, chains)
    ensures TokensKeyed(ix)
  {
    forall c, d | Lookup2(ix.denomToTokenInfo, c, d).Some? ensures Lookup2(ix.denomToTokenInfo, c, d).value.chainDenom == d {
      KnownUnderItsDenom(cfg, hash, chains, c, d);
    }
  }

  /** The route of each leg is a built one. */
  lemma LegRoute(cfg: Config, hash: DenomHash, chains: seq<PathfinderChain>, s: Search, to: ChainId, info: IndirectRouteInfo, i: nat)
    requires ChainsBuilt(cfg, hash, chains) && Refines(s.ix, chains) && SoundRoute(s, to, info) && i < |info.routes|
    ensures RouteBuilt(cfg, hash, info.path[i], info.routes[i]) && info.routes[i].toChainId == info.path[i + 1]
    ensures info.path[i] in cfg.inputs && Present(chains, info.path[i])
  {
    var links, q := Links(chains), Between(info.path[i], info.path[i + 1]);
    assert Lookup2(s.ix.chainRoutes, info.path[i], info.path[i + 1]) == Some(info.routes[i]);
    FirstIsFirst(map[], links, q);
    var l := First(map[], links, q).value;
    LinkIsBuilt(cfg, hash, chains, l);
    LinkMembers(chains, l);
    var j :| 0 <= j < |chains| && chains[j] == l.chain;
    assert ChainBuilt(cfg, hash, chains[j]);
  }

  /** It carries a listed denom of the token; the leg names one, too. */
  lemma LegDenom(pf: Pathfinder, req: RouteRequest, info: IndirectRouteInfo, r: IndirectRoute, i: nat) returns (d: Denom)
    requires TokensKeyed(pf.ix) && SameToken(pf.ix, req) && info.token == SearchFor(pf.ix, req).token
    requires SoundRoute(SearchFor(pf.ix, req), req.chainTo, info) && IndirectBuilt(pf, req, info, r) && i < |r.legs|
    ensures d in info.routes[i].allowedTokens && ListedAs(pf.ix, info.path[i], d, info.token)
    ensures ListedAs(pf.ix, info.path[i], r.legs[i].token.chainDenom, info.token)
  {
    var s, a := SearchFor(pf.ix, req), info.path[i];
    assert MayHop(s, info.path[i + 1 - 1], info.path[i + 1]);
    assert Lookup2(pf.ix.chainRoutes, info.path[i], info.path[i + 1]) == Some(info.routes[i]);
    var t :| MayHold(s, a, t) && t.chainDenom in info.routes[i].allowedTokens;
    d := t.chainDenom;
    if i == 0 {
      assert LegHolds(s, r.legs[0]);
    } else {
      assert info.path[0] != info.path[i];
      var k :| Lookup2(pf.ix.denomToTokenInfo, a, k) == Some(t);
      LegTokenIsListed(pf, req, info, r, i);
    }
  }

  /** The receiver of a swap-free route ends with TokenToDenom. Only chains that forward the token
      again need to be vouched for: that what their leg delivers is listed, under one denom. */
  lemma IndirectReceiverGetsTokenToDenom(net: Network, cfg: Config, hash: DenomHash, port: string, chains: seq<PathfinderChain>,
                                         pf: Pathfinder, req: RouteRequest, info: IndirectRouteInfo, r: IndirectRoute)
    requires WellFormed(cfg, hash, port) && NoLoops(cfg) && ChainsBuilt(cfg, hash, chains) && Refines(pf.ix, chains)
    requires FollowsIcs20(net, cfg, hash, port)
    requires SameToken(pf.ix, req) && info.token == SearchFor(pf.ix, req).token
    requires SoundRoute(SearchFor(pf.ix, req), req.chainTo, info) && IndirectBuilt(pf, req, info, r) && r.legs != []
    requires forall i :: 0 <= i < |r.legs| && Reforwards(cfg, r.legs[i].fromChain, info.token.originChain, info.token.baseDenom) ==>
                           HopKeepsToken(net, pf.ix, r.legs[i], info.token)
    requires forall i :: 0 <= i < |r.legs| && Reforwards(cfg, r.legs[i].toChain, info.token.originChain, info.token.baseDenom) ==>
                           OneDenom(pf.ix, r.legs[i].toChain, info.token)
    ensures DenomAlong(net, r.legs, r.legs[0].token.chainDenom) == req.tokenToDenom
  {
    BuiltTokensKeyed(cfg, hash, chains, pf.ix);
    forall i | 0 <= i < |r.legs|
      ensures HopKeepsToken(net, pf.ix, r.legs[i], info.token) && OneDenom(pf.ix, r.legs[i].toChain, info.token)
    {
      if !Reforwards(cfg, r.legs[i].fromChain, info.token.originChain, info.token.baseDenom) {
        LegKeeps(net, cfg, hash, port, chains, pf, req, info, r, i);
      }
      if !Reforwards(cfg, r.legs[i].toChain, info.token.originChain, info.token.baseDenom) {
        ListsOneDenom(cfg, hash, port, chains, pf.ix, r.legs[i].toChain, info.token);
      }
    }
    IndirectRouteDelivers(net, pf, req, info, r);
  }

  /** Where no chain forwards the token again, it always does. */
  lemma UnforwardedTokenArrives(net: Network, cfg: Config, hash: DenomHash, port: string, chains: seq<PathfinderChain>,
                                pf: Pathfinder, req: RouteRequest, info: IndirectRouteInfo, r: IndirectRoute)
    requires WellFormed(cfg, hash, port) && NoLoops(cfg) && ChainsBuilt(cfg, hash, chains) && Refines(pf.ix, chains)
    requires FollowsIcs20(net, cfg, hash, port)
    requires SameToken(pf.ix, req) && info.token == SearchFor(pf.ix, req).token && req.chainFrom != req.chainTo
    requires SoundRoute(SearchFor(pf.ix, req), req.chainTo, info) && IndirectBuilt(pf, req, info, r)
    requires forall c :: !Reforwards(cfg, c, info.token.originChain, info.token.baseDenom)
    ensures r.legs != [] && DenomAlong(net, r.legs, r.legs[0].token.chainDenom) == req.tokenToDenom
  {
    IndirectReceiverGetsTokenToDenom(net, cfg, hash, port, chains, pf, req, info, r);
  }

  lemma LegKeeps(net: Network, cfg: Config, hash: DenomHash, port: string, chains: seq<PathfinderChain>,
                 pf: Pathfinder, req: RouteRequest, info: IndirectRouteInfo, r: IndirectRoute, i: nat)
    requires WellFormed(cfg, hash, port) && NoLoops(cfg) && ChainsBuilt(cfg, hash, chains) && Refines(pf.ix, chains)
    requires FollowsIcs20(net, cfg, hash, port)
    requires SameToken(pf.ix, req) && info.token == SearchFor(pf.ix, req).token
    requires SoundRoute(SearchFor(pf.ix, req), req.chainTo, info) && IndirectBuilt(pf, req, info, r) && i < |r.legs|
    requires !Reforwards(cfg, r.legs[i].fromChain, info.token.originChain, info.token.baseDenom)
    ensures HopKeepsToken(net, pf.ix, r.legs[i], info.token)
  {
    var s := SearchFor(pf.ix, req);
    BuiltTokensKeyed(cfg, hash, chains, pf.ix);
    LegRoute(cfg, hash, chains, s, req.chainTo, info, i);
    var d := LegDenom(pf, req, info, r, i);
    ListsOneDenom(cfg, hash, port, chains, pf.ix, info.path[i], info.token);
    if i + 1 < |r.legs| {
      LegRoute(cfg, hash, chains, s, req.chainTo, info, i + 1);
    } else {
      ListedIsPresent(cfg, hash, chains, req.chainTo, req.tokenToDenom);
    }
    HopKeeps(net, cfg, hash, port, chains, pf.ix, info.path[i], info.routes[i], d, info.token);
  }
}
