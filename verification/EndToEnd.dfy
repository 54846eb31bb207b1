/** Configuration to answer: a native token allowed to a connected chain is found there. */
module EndToEnd {
  import opened RouterTypes
  import opened RouteBuilding
  import opened ConfigPipeline
  import opened Ics20
  import opened RouteIndexing
  import opened IndirectRouting
  import opened RouteResponses
  import opened PathFinding

  /** The well-formedness the configuration validator and registry are meant to give. */
  ghost predicate WellFormed(cfg: Config, hash: DenomHash, port: string) {
    Involution(cfg.channels) && WellNamed(cfg, hash, port)
  }

  ghost predicate WellNamed(cfg: Config, hash: DenomHash, port: string) {
    Injective(hash) && ChannelsOk(cfg, port) && NativesOk(cfg, hash) && TruthfulOrigins(cfg, hash, port)
  }

  /** One port; channel ids without slashes, distinct per counterparty. */
  ghost predicate ChannelsOk(cfg: Config, port: string) {
    && (forall a, b :: Lookup2(cfg.channels, a, b).Some? ==>
          Lookup2(cfg.channels, a, b).value.portId == port && '/' !in Lookup2(cfg.channels, a, b).value.channelId)
    && (forall a, b, b' :: SameChannel(cfg, a, b, b') ==> b == b')
  }

  /** No native denom is a hash; the denoms of one chain are distinct. */
  ghost predicate NativesOk(cfg: Config, hash: DenomHash) {
    && (forall c, t, x :: t in NativeTokens(cfg, c) ==> t.denom != hash(x))
    && (forall c :: DistinctDenoms(NativeTokens(cfg, c)))
    && (forall c, t, u :: t in NativeTokens(cfg, c) && u in RoutableTokens(cfg, c) ==> t.denom != u.denom)
  }

  ghost predicate SameChannel(cfg: Config, a: ChainId, b: ChainId, b': ChainId) {
    && Lookup2(cfg.channels, a, b).Some? && Lookup2(cfg.channels, a, b').Some?
    && Lookup2(cfg.channels, a, b).value.channelId == Lookup2(cfg.channels, a, b').value.channelId
  }

  /** A routable token that is the voucher of some connected chain's token says so. */
  ghost predicate TruthfulOrigins(cfg: Config, hash: DenomHash, port: string) {
    forall c, u, x, d ::
      (u in RoutableTokens(cfg, c) && Lookup2(cfg.channels, c, x).Some?
       && u.denom == ComputeIBCDenom(hash, port, Lookup2(cfg.channels, c, x).value.channelId, d))
      ==> u.originChain == x && u.originDenom == d
  }

  lemma {:induction false} LinkMembers(chains: seq<PathfinderChain>, l: Link)
    ensures l in Links(chains) <==> l.chain in chains && l.route in l.chain.routes
  {
    if chains != [] {
      var n := |chains| - 1;
      LinkMembers(chains[..n], l);
      assert chains == chains[..n] + [chains[n]];
      assert l in LinksOf(chains[n]) <==> l.chain == chains[n] && l.route in chains[n].routes by {
        if l.chain == chains[n] && l.route in chains[n].routes {
          var j :| 0 <= j < |chains[n].routes| && chains[n].routes[j] == l.route;
          assert LinksOf(chains[n])[j] == l;
        }
      }
    }
  }

  /** Every link of the pipeline is a built route. */
  lemma LinkIsBuilt(cfg: Config, hash: DenomHash, chains: seq<PathfinderChain>, l: Link)
    requires ChainsBuilt(cfg, hash, chains) && l in Links(chains)
    ensures RouteBuilt(cfg, hash, l.chain.id, l.route)
  {
    LinkMembers(chains, l);
    var i :| 0 <= i < |chains| && chains[i] == l.chain;
    assert ChainBuilt(cfg, hash, chains[i]);
  }

  /** An entry for d on a built route, with its justification. */
  lemma EntryOf(cfg: Config, hash: DenomHash, from: ChainId, r: BasicRoute, d: Denom) returns (e: RouteTokenInfo)
    requires RouteBuilt(cfg, hash, from, r) && d in r.allowedTokens
    ensures r.allowedTokens[d] == InfoOf(e) && e.sourceDenom == d
    ensures Justified(cfg, hash, from, r.toChainId, Lookup2(cfg.channels, from, r.toChainId).value, e)
  {
    var c := Lookup2(cfg.channels, from, r.toChainId).value;
    var es :| TokensBuilt(cfg, hash, from, r.toChainId, c, es) && Mapped(es, r.allowedTokens);
    e :| e in es && e.sourceDenom == d && r.allowedTokens[d] == InfoOf(e);
    var i :| 0 <= i < |es| && es[i] == e;
    assert Justified(cfg, hash, from, r.toChainId, c, es[i]);
  }

  /** On its own chain, a native denom is only ever listed as itself. */
  lemma NativeEntryAtHome(cfg: Config, hash: DenomHash, from: ChainId, r: BasicRoute, t: TokenMeta)
    requires NativesOk(cfg, hash) && RouteBuilt(cfg, hash, from, r)
    requires t in NativeTokens(cfg, from) && t.denom in r.allowedTokens
    ensures var i := r.allowedTokens[t.denom];
            i.chainDenom == t.denom && i.baseDenom == t.denom && i.originChain == from
  {
    var e := EntryOf(cfg, hash, from, r, t.denom);
    var c := Lookup2(cfg.channels, from, r.toChainId).value;
    if u :| u in NativeTokens(cfg, r.toChainId) && IsTokenAllowedToChain(u, from) && e == UnwindEntry(hash, r.toChainId, c, u) {
      assert false;
    }
  }

  /** On b, the voucher of a's native token is only ever listed with its origin. */
  lemma VoucherEntryAbroad(cfg: Config, hash: DenomHash, port: string, a: ChainId, b: ChainId, d: Denom, r: BasicRoute)
    requires WellFormed(cfg, hash, port) && RouteBuilt(cfg, hash, b, r) && Lookup2(cfg.channels, b, a).Some?
    requires ComputeIBCDenom(hash, port, Lookup2(cfg.channels, b, a).value.channelId, d) in r.allowedTokens
    ensures SameOrigin(r.allowedTokens[ComputeIBCDenom(hash, port, Lookup2(cfg.channels, b, a).value.channelId, d)], a, d)
  {
    var voucher := ComputeIBCDenom(hash, port, Lookup2(cfg.channels, b, a).value.channelId, d);
    var e := EntryOf(cfg, hash, b, r, voucher);
    JustifiedVoucher(cfg, hash, port, a, b, d, r.toChainId, e);
  }

  lemma JustifiedVoucher(cfg: Config, hash: DenomHash, port: string, a: ChainId, b: ChainId, d: Denom, to: ChainId, e: RouteTokenInfo)
    requires WellFormed(cfg, hash, port) && Lookup2(cfg.channels, b, a).Some? && Lookup2(cfg.channels, b, to).Some?
    requires Justified(cfg, hash, b, to, Lookup2(cfg.channels, b, to).value, e)
    requires e.sourceDenom == ComputeIBCDenom(hash, port, Lookup2(cfg.channels, b, a).value.channelId, d)
    ensures e.originChain == a && e.baseDenom == d
  {
    var c := Lookup2(cfg.channels, b, to).value;
    if t :| t in NativeTokens(cfg, b) && e == NativeEntry(hash, b, c, t) {
      assert false;
    } else if t :| t in NativeTokens(cfg, to) && e == UnwindEntry(hash, to, c, t) {
      SameTrace(port, c.channelId, Lookup2(cfg.channels, b, a).value.channelId, t.denom, d);
      assert SameChannel(cfg, b, to, a);
    }
  }

  lemma LinkExists(cfg: Config, hash: DenomHash, chains: seq<PathfinderChain>, a: ChainId, b: ChainId) returns (l: Link)
    requires ChainsBuilt(cfg, hash, chains) && Present(chains, a) && b in cfg.inputs && Lookup2(cfg.channels, a, b).Some?
    ensures l in Links(chains) && l.chain.id == a && l.route.toChainId == b
  {
    var i :| 0 <= i < |chains| && chains[i].id == a;
    assert ChainBuilt(cfg, hash, chains[i]);
    var r :| r in chains[i].routes && r.toChainId == b;
    l := Link(chains[i], r);
    LinkMembers(chains, l);
  }

  lemma LinkIsUnique(cfg: Config, hash: DenomHash, chains: seq<PathfinderChain>, l: Link, l': Link)
    requires ChainsBuilt(cfg, hash, chains) && l in Links(chains) && l' in Links(chains)
    requires l.chain.id == l'.chain.id && l.route.toChainId == l'.route.toChainId
    ensures l == l'
  {
    LinkMembers(chains, l);
    LinkMembers(chains, l');
    var i :| 0 <= i < |chains| && chains[i] == l.chain;
    var k :| 0 <= k < |chains| && chains[k] == l'.chain;
    assert i == k;
    assert ChainBuilt(cfg, hash, chains[i]);
    var m :| 0 <= m < |l.chain.routes| && l.chain.routes[m] == l.route;
    var n :| 0 <= n < |l.chain.routes| && l.chain.routes[n] == l'.route;
    assert m == n;
  }

  lemma Carries(cfg: Config, hash: DenomHash, from: ChainId, r: BasicRoute, d: Denom)
    requires RouteBuilt(cfg, hash, from, r)
    requires forall es :: TokensBuilt(cfg, hash, from, r.toChainId, Lookup2(cfg.channels, from, r.toChainId).value, es) ==> HasSource(es, d)
    ensures d in r.allowedTokens
  {
    var es: seq<RouteTokenInfo> :|
      TokensBuilt(cfg, hash, from, r.toChainId, Lookup2(cfg.channels, from, r.toChainId).value, es) && Mapped(es, r.allowedTokens);
    var i :| 0 <= i < |es| && es[i].sourceDenom == d;
    assert es[i] in es;
  }

  /** A token listed by some route is looked up through a route. */
  lemma TokenThroughRoute(chains: seq<PathfinderChain>, c: ChainId, d: Denom, l0: Link) returns (l: Link)
    requires l0 in Links(chains) && l0.chain.id == c && d in l0.route.allowedTokens
    ensures l in Links(chains) && l.chain.id == c && d in l.route.allowedTokens
    ensures TokenOf(Links(chains), Natives(chains), c, d) == Some(l.route.allowedTokens[d])
  {
    var links := Links(chains);
    LastIsLast(map[], links, Carrying(c, d));
    var i :| 0 <= i < |links| && links[i] == l0;
    assert Answers(map[], links[i], Carrying(c, d));
    l := Last(map[], links, Carrying(c, d)).value;
  }

  /** The request for a's native token on b, under the denom the route builder computed. */
  ghost predicate Asks(cfg: Config, hash: DenomHash, port: string, a: ChainId, b: ChainId, t: TokenMeta, req: RouteRequest) {
    && a != b && Lookup2(cfg.channels, a, b).Some? && a in cfg.inputs && b in cfg.inputs
    && t in NativeTokens(cfg, a) && IsTokenAllowedToChain(t, b)
    && req.chainFrom == a && req.chainTo == b && req.tokenFromDenom == t.denom
    && req.tokenToDenom == ComputeIBCDenom(hash, port, Lookup2(cfg.channels, a, b).value.counterpartyChannelId, t.denom)
  }

  /** The indexed route from a to b is the built one, over the configured channel, and carries the token. */
  lemma RouteIsIndexed(cfg: Config, hash: DenomHash, port: string, chains: seq<PathfinderChain>, ix: IndexMaps,
                       a: ChainId, b: ChainId, t: TokenMeta, req: RouteRequest) returns (l: Link)
    requires ChainsBuilt(cfg, hash, chains) && Refines(ix, chains)
    requires Asks(cfg, hash, port, a, b, t, req) && Present(chains, a)
    ensures l in Links(chains) && LinkCarries(l, a, b, t.denom) && RouteBuilt(cfg, hash, a, l.route)
    ensures Lookup2(ix.chainRoutes, a, b) == Some(l.route)
    ensures l.route.channelId == Lookup2(cfg.channels, a, b).value.channelId && l.route.portId == Lookup2(cfg.channels, a, b).value.portId
  {
    l := LinkExists(cfg, hash, chains, a, b);
    LinkIsBuilt(cfg, hash, chains, l);
    Carries(cfg, hash, a, l.route, t.denom);
    FirstIsFirst(map[], Links(chains), Between(a, b));
    var k :| 0 <= k < |Links(chains)| && Links(chains)[k] == l;
    assert Answers(map[], Links(chains)[k], Between(a, b));
    LinkIsUnique(cfg, hash, chains, l, First(map[], Links(chains), Between(a, b)).value);
  }

  /** On a, the token is known as its own origin. */
  lemma NativeIsIndexed(cfg: Config, hash: DenomHash, chains: seq<PathfinderChain>, ix: IndexMaps, a: ChainId, t: TokenMeta, l: Link)
    requires NativesOk(cfg, hash) && ChainsBuilt(cfg, hash, chains) && Refines(ix, chains)
    requires t in NativeTokens(cfg, a) && l in Links(chains) && l.chain.id == a && t.denom in l.route.allowedTokens
    ensures Lookup2(ix.denomToTokenInfo, a, t.denom).Some?
    ensures var s := Lookup2(ix.denomToTokenInfo, a, t.denom).value;
            s.chainDenom == t.denom && s.baseDenom == t.denom && s.originChain == a
  {
    var seen := TokenThroughRoute(chains, a, t.denom, l);
    LinkIsBuilt(cfg, hash, chains, seen);
    NativeEntryAtHome(cfg, hash, a, seen.route, t);
  }

  /** On b the requested denom is known, with the same origin. */
  lemma VoucherIsIndexed(cfg: Config, hash: DenomHash, port: string, chains: seq<PathfinderChain>, ix: IndexMaps,
                         a: ChainId, b: ChainId, t: TokenMeta, req: RouteRequest)
    requires WellFormed(cfg, hash, port) && ChainsBuilt(cfg, hash, chains) && Refines(ix, chains)
    requires Asks(cfg, hash, port, a, b, t, req) && Present(chains, b)
    ensures Lookup2(ix.denomToTokenInfo, b, req.tokenToDenom).Some?
    ensures SameOrigin(Lookup2(ix.denomToTokenInfo, b, req.tokenToDenom).value, a, t.denom)
  {
    assert Lookup2(cfg.channels, b, a).Some? && Swapped(Lookup2(cfg.channels, a, b).value, Lookup2(cfg.channels, b, a).value);
    var l := LinkExists(cfg, hash, chains, b, a);
    LinkIsBuilt(cfg, hash, chains, l);
    Carries(cfg, hash, b, l.route, req.tokenToDenom);
    var seen := TokenThroughRoute(chains, b, req.tokenToDenom, l);
    LinkIsBuilt(cfg, hash, chains, seen);
    VoucherEntryAbroad(cfg, hash, port, a, b, t.denom, seen.route);
  }

  /** When a route allows the source token and the destination knows it, one hop is the answer. */
  lemma OneHopAnswer(ix: IndexMaps, req: RouteRequest, r: Option<IndirectRouteInfo>, route: BasicRoute)
    requires SameToken(ix, req) && IndirectAnswer(ix, req, r) && req.chainFrom != req.chainTo
    requires Lookup2(ix.chainRoutes, req.chainFrom, req.chainTo) == Some(route)
    requires Lookup2(ix.denomToTokenInfo, req.chainFrom, req.tokenFromDenom).value.chainDenom in route.allowedTokens
    ensures r.Some? && r.value.path == [req.chainFrom, req.chainTo] && r.value.routes == [route]
  {
    var s := SearchFor(ix, req);
    var p := [req.chainFrom, req.chainTo];
    assert MayHold(s, req.chainFrom, s.token);
    assert MustHop(s, p[0], p[1]);
    assert MustPath(s, p) && p[|p| - 1] == req.chainTo;
    assert r.value.path == p;
  }

  /** A token of its own chain, under its own denom. */
  predicate IsSourceToken(token: TokenInfo, a: ChainId, d: Denom) {
    token.chainDenom == d && token.baseDenom == d && token.originChain == a
  }

  /** Whatever FindIndirectRoute answers, it is the one hop from a to b over the configured channel. */
  lemma NativeTokenOneHop(cfg: Config, hash: DenomHash, port: string, chains: seq<PathfinderChain>, ix: IndexMaps,
                          a: ChainId, b: ChainId, t: TokenMeta, req: RouteRequest, r: Option<IndirectRouteInfo>)
    requires WellFormed(cfg, hash, port) && ChainsBuilt(cfg, hash, chains) && Refines(ix, chains)
    requires Asks(cfg, hash, port, a, b, t, req) && Present(chains, a) && Present(chains, b)
    requires IndirectAnswer(ix, req, r)
    ensures r.Some? && r.value.path == [a, b] && |r.value.routes| == 1
    ensures r.value.routes[0].channelId == Lookup2(cfg.channels, a, b).value.channelId
    ensures r.value.routes[0].portId == Lookup2(cfg.channels, a, b).value.portId
    ensures IsSourceToken(r.value.token, a, t.denom)
  {
    var l := RouteIsIndexed(cfg, hash, port, chains, ix, a, b, t, req);
    NativeIsIndexed(cfg, hash, chains, ix, a, t, l);
    VoucherIsIndexed(cfg, hash, port, chains, ix, a, b, t, req);
    OneHopAnswer(ix, req, r, l.route);
  }

  /** The one transfer over the configured channel. */
  ghost predicate SingleTransfer(cfg: Config, a: ChainId, b: ChainId, req: RouteRequest, resp: RouteResponse) {
    && Lookup2(cfg.channels, a, b).Some?
    && (resp.DirectResponse? || (resp.IndirectResponse? && |resp.indirect.legs| == 1))
    && var leg := if resp.DirectResponse? then resp.transfer else resp.indirect.legs[0];
       && leg.fromChain == a && leg.toChain == b && leg.amount == req.amountIn
       && leg.channel == Lookup2(cfg.channels, a, b).value.channelId && leg.port == Lookup2(cfg.channels, a, b).value.portId
       && leg.token == TokenMapping(req.tokenFromDenom, req.tokenFromDenom, a, true)
  }

  lemma DirectIsSingleTransfer(cfg: Config, hash: DenomHash, port: string, chains: seq<PathfinderChain>, pf: Pathfinder,
                               a: ChainId, b: ChainId, t: TokenMeta, req: RouteRequest, resp: RouteResponse)
    requires ChainsBuilt(cfg, hash, chains) && Refines(pf.ix, chains)
    requires PlainLinks(chains) && PlainId(a) && PlainId(b)
    requires Asks(cfg, hash, port, a, b, t, req) && Present(chains, a)
    requires NativesOk(cfg, hash) && ResponseOk(pf, req, resp) && resp.DirectResponse?
    ensures SingleTransfer(cfg, a, b, req, resp)
  {
    var l := RouteIsIndexed(cfg, hash, port, chains, pf.ix, a, b, t, req);
    NativeIsIndexed(cfg, hash, chains, pf.ix, a, t, l);
    DirectIsFound(cfg, hash, port, chains, pf, a, b, t, req, l);
  }

  lemma DirectIsFound(cfg: Config, hash: DenomHash, port: string, chains: seq<PathfinderChain>, pf: Pathfinder,
                      a: ChainId, b: ChainId, t: TokenMeta, req: RouteRequest, l: Link)
    requires ChainsBuilt(cfg, hash, chains) && Refines(pf.ix, chains)
    requires PlainLinks(chains) && PlainId(a) && PlainId(b) && Asks(cfg, hash, port, a, b, t, req)
    requires l in Links(chains) && LinkCarries(l, a, b, t.denom) && FindDirectRoute(pf.ix, req).Some?
    ensures FindDirectRoute(pf.ix, req) == Some(l.route)
  {
    DirectRouteFound(pf.ix, chains, req);
    var l' :| l' in Links(chains) && l'.route == FindDirectRoute(pf.ix, req).value && LinkCarries(l', a, b, t.denom);
    LinkIsUnique(cfg, hash, chains, l, l');
  }

  lemma OneHopIsSingleTransfer(cfg: Config, a: ChainId, b: ChainId, pf: Pathfinder, req: RouteRequest,
                               info: IndirectRouteInfo, resp: RouteResponse)
    requires resp.IndirectResponse? && IndirectBuilt(pf, req, info, resp.indirect)
    requires info.path == [a, b] && |info.routes| == 1 && Lookup2(cfg.channels, a, b).Some?
    requires info.routes[0].channelId == Lookup2(cfg.channels, a, b).value.channelId
    requires info.routes[0].portId == Lookup2(cfg.channels, a, b).value.portId
    requires IsSourceToken(info.token, a, req.tokenFromDenom) && req.chainFrom == a
    ensures SingleTransfer(cfg, a, b, req, resp)
  {
    assert LegHolds(Search(pf.ix, req.chainFrom, info.token), resp.indirect.legs[0]);
    assert resp.indirect.legs[0].toChain == info.path[0 + 1];
  }

  lemma NeverImpossible(cfg: Config, hash: DenomHash, port: string, chains: seq<PathfinderChain>, pf: Pathfinder,
                        a: ChainId, b: ChainId, t: TokenMeta, req: RouteRequest, resp: RouteResponse)
    requires WellFormed(cfg, hash, port) && ChainsBuilt(cfg, hash, chains) && Refines(pf.ix, chains)
    requires Asks(cfg, hash, port, a, b, t, req) && Present(chains, a) && Present(chains, b)
    requires ResponseOk(pf, req, resp)
    ensures resp.DirectResponse? || resp.IndirectResponse?
  {
    if !resp.DirectResponse? && !resp.IndirectResponse? {
      NativeTokenOneHop(cfg, hash, port, chains, pf.ix, a, b, t, req, None);
    }
  }

  /** FindPath answers with a single transfer from a to b over the configured channel, reported as
      direct or as a one-hop indirect route. */
  lemma NativeTokenReachesNeighbour(cfg: Config, hash: DenomHash, port: string, chains: seq<PathfinderChain>, pf: Pathfinder,
                                    a: ChainId, b: ChainId, t: TokenMeta, req: RouteRequest, resp: RouteResponse)
    requires WellFormed(cfg, hash, port) && ChainsBuilt(cfg, hash, chains) && Refines(pf.ix, chains)
    requires PlainLinks(chains) && PlainId(a) && PlainId(b)
    requires Asks(cfg, hash, port, a, b, t, req) && Present(chains, a) && Present(chains, b)
    requires ResponseOk(pf, req, resp)
    ensures SingleTransfer(cfg, a, b, req, resp)
  {
    NeverImpossible(cfg, hash, port, chains, pf, a, b, t, req, resp);
    if resp.DirectResponse? {
      DirectIsSingleTransfer(cfg, hash, port, chains, pf, a, b, t, req, resp);
    } else {
      var info :| IndirectAnswer(pf.ix, req, Some(info)) && IndirectBuilt(pf, req, info, resp.indirect);
      NativeTokenOneHop(cfg, hash, port, chains, pf.ix, a, b, t, req, Some(info));
      OneHopIsSingleTransfer(cfg, a, b, pf, req, info, resp);
    }
  }

  /** Ids that cannot be confused inside a route key make every link's ids so. */
  lemma BuiltLinksArePlain(cfg: Config, hash: DenomHash, chains: seq<PathfinderChain>)
    requires ChainsBuilt(cfg, hash, chains) && forall id :: id in cfg.inputs ==> PlainId(id)
    ensures PlainLinks(chains)
  {
    forall l | l in Links(chains) ensures PlainId(l.chain.id) && PlainId(l.route.toChainId) {
      LinkMembers(chains, l);
      LinkIsBuilt(cfg, hash, chains, l);
    }
  }

  /** The whole pipeline: build and convert the chains, index them, answer a request. Whatever the
      clients, quotes and addresses, a native token allowed to a connected chain gets there. */
  method AnswerFromConfig(cfg: Config, hash: DenomHash, ids: seq<ChainId>, traits: map<ChainId, Traits>,
                          clients: map<string, BrokerClient>, quote: (string, Denom, string, Denom) -> Option<SwapResult>,
                          convert: (string, ChainId) -> Option<string>, timeout: int, req: RouteRequest)
    returns (resp: Option<RouteResponse>)
    requires forall id :: id in ids ==> id in cfg.inputs && id in traits
    requires forall i, j :: 0 <= i < j < |ids| ==> ids[i] != ids[j]
    requires forall id :: id in cfg.inputs ==> PlainId(id)
    ensures resp.None? <==> ids == []
    ensures forall port, t :: WellFormed(cfg, hash, port) && Asks(cfg, hash, port, req.chainFrom, req.chainTo, t, req)
                              && req.chainFrom in ids && req.chainTo in ids ==>
              SingleTransfer(cfg, req.chainFrom, req.chainTo, req, resp.value)
  {
    var converted := Convert(cfg, hash, ids, traits);
    if converted.None? { return None; }
    var answer := AnswerFromChains(cfg, hash, converted.value, clients, quote, convert, timeout, req);
    return Some(answer);
  }

  /** Index the built chains and answer. */
  method AnswerFromChains(cfg: Config, hash: DenomHash, chains: seq<PathfinderChain>, clients: map<string, BrokerClient>,
                          quote: (string, Denom, string, Denom) -> Option<SwapResult>, convert: (string, ChainId) -> Option<string>,
                          timeout: int, req: RouteRequest)
    returns (answer: RouteResponse)
    requires ChainsBuilt(cfg, hash, chains) && chains != [] && forall id :: id in cfg.inputs ==> PlainId(id)
    ensures forall port, t :: WellFormed(cfg, hash, port) && Asks(cfg, hash, port, req.chainFrom, req.chainTo, t, req)
                              && Present(chains, req.chainFrom) && Present(chains, req.chainTo) ==>
              SingleTransfer(cfg, req.chainFrom, req.chainTo, req, answer)
  {
    var index := new RouteIndex();
    var ok := index.BuildIndex(chains);
    RefinedIndexIsKeyed(index.View(), chains);
    var pf := Pathfinder(map c <- chains :: c.id := c, index.View(), clients, quote, convert, timeout);
    answer := FindPath(pf, req);
    BuiltLinksArePlain(cfg, hash, chains);
    forall port, t | WellFormed(cfg, hash, port) && Asks(cfg, hash, port, req.chainFrom, req.chainTo, t, req)
                     && Present(chains, req.chainFrom) && Present(chains, req.chainTo)
      ensures SingleTransfer(cfg, req.chainFrom, req.chainTo, req, answer)
    {
      NativeTokenReachesNeighbour(cfg, hash, port, chains, pf, req.chainFrom, req.chainTo, t, req, answer);
    }
  }

  /** Chains found under different registry names are different chains. */
  lemma DistinctNamesDoNotSelfConnect(inputs: map<ChainId, ChainInput>, byRegistry: map<string, ChainId>, data: ChainIbcData)
    requires forall name :: name in byRegistry ==> byRegistry[name] in inputs && inputs[byRegistry[name]].registry == name
    requires data.chain1.chainName != data.chain2.chainName
    ensures !SelfConnected(byRegistry, data)
  {}

  /** From the chain inputs and the registry on: with no registry entry between a chain and itself,
      the channel map needs no premise of its own. */
  method AnswerFromRegistry(inputs: map<ChainId, ChainInput>, ibcData: seq<ChainIbcData>, hash: DenomHash,
                            ids: seq<ChainId>, traits: map<ChainId, Traits>, clients: map<string, BrokerClient>,
                            quote: (string, Denom, string, Denom) -> Option<SwapResult>, convert: (string, ChainId) -> Option<string>,
                            timeout: int, req: RouteRequest)
    returns (resp: Option<RouteResponse>, cfg: Config)
    requires forall id :: id in ids ==> id in inputs && id in traits
    requires forall i, j :: 0 <= i < j < |ids| ==> ids[i] != ids[j]
    requires forall id :: id in inputs ==> PlainId(id)
    ensures resp.None? <==> ids == []
    ensures cfg.inputs == inputs && OffDiagonal(cfg.channels)
    ensures (forall data :: data in ibcData ==> data.chain1.chainName != data.chain2.chainName) ==>
              && Involution(cfg.channels)
              && forall port, t :: WellNamed(cfg, hash, port) && Asks(cfg, hash, port, req.chainFrom, req.chainTo, t, req)
                                   && req.chainFrom in ids && req.chainTo in ids ==>
                   SingleTransfer(cfg, req.chainFrom, req.chainTo, req, resp.value)
  {
    var builder := new RouteBuilder(inputs, ibcData);
    cfg := Config(inputs, builder.channelMap);
    ConnectAllOffDiagonal(builder.chainByRegistry, ibcData);
    if forall data :: data in ibcData ==> data.chain1.chainName != data.chain2.chainName {
      forall i | 0 <= i < |ibcData| ensures !SelfConnected(builder.chainByRegistry, ibcData[i]) {
        DistinctNamesDoNotSelfConnect(inputs, builder.chainByRegistry, ibcData[i]);
      }
      NoSelfConnection(builder.chainByRegistry, ibcData);
    }
    resp := AnswerFromConfig(cfg, hash, ids, traits, clients, quote, convert, timeout, req);
  }
}
