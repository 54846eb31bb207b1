/** The route index (pathfinder/router/index_build.go, helpers.go, route_direct.go).

    A Link is one configured route together with the chain it leaves from. The index answers
    each kind of query by a map lookup; First and Last answer the same query by scanning the
    links in configuration order. BuildIndex makes the two agree. */
module RouteIndexing {
  import opened RouterTypes

  datatype Link = Link(chain: PathfinderChain, route: BasicRoute)

  datatype Query =
    | ByKey(key: string)
    | Between(from: ChainId, to: ChainId)
    | FromBroker(brokerId: string, dest: ChainId)
    | ToBroker(source: ChainId, broker: string)
    | Carrying(on: ChainId, denom: Denom)

  function RouteKey(fromChain: ChainId, toChain: ChainId, denom: Denom): string {
    fromChain + "->" + toChain + ":" + denom
  }

  ghost predicate Answers(brokerChains: map<ChainId, string>, l: Link, q: Query) {
    match q
    case ByKey(key) =>
      exists d :: d in l.route.allowedTokens && key == RouteKey(l.chain.id, l.route.toChainId, d)
    case Between(from, to) => l.chain.id == from && l.route.toChainId == to
    case FromBroker(brokerId, dest) =>
      l.chain.broker && l.chain.brokerId == brokerId && l.route.toChainId == dest
    case ToBroker(source, broker) =>
      l.chain.id == source && Lookup(brokerChains, l.route.toChainId) == Some(broker)
    case Carrying(on, denom) => l.chain.id == on && denom in l.route.allowedTokens
  }

  ghost function First(brokerChains: map<ChainId, string>, links: seq<Link>, q: Query): Option<Link> {
    if links == [] then None
    else
      var n := |links| - 1;
      var earlier := First(brokerChains, links[..n], q);
      if earlier.Some? then earlier
      else if Answers(brokerChains, links[n], q) then Some(links[n]) else None
  }

  ghost function Last(brokerChains: map<ChainId, string>, links: seq<Link>, q: Query): Option<Link> {
    if links == [] then None
    else
      var n := |links| - 1;
      if Answers(brokerChains, links[n], q) then Some(links[n]) else Last(brokerChains, links[..n], q)
  }

  ghost function RouteIn(l: Option<Link>): Option<BasicRoute> {
    if l.Some? then Some(l.value.route) else None
  }

  /** First and Last mean what their names say. */
  lemma {:induction false} FirstIsFirst(bc: map<ChainId, string>, links: seq<Link>, q: Query)
    ensures First(bc, links, q).None? <==> forall i :: 0 <= i < |links| ==> !Answers(bc, links[i], q)
    ensures First(bc, links, q).Some? ==>
              exists i :: 0 <= i < |links| && links[i] == First(bc, links, q).value
                          && Answers(bc, links[i], q)
                          && forall j :: 0 <= j < i ==> !Answers(bc, links[j], q)
  {
    if links != [] {
      var n := |links| - 1;
      FirstIsFirst(bc, links[..n], q);
      if First(bc, links[..n], q).Some? {
        var i :| 0 <= i < n && links[..n][i] == First(bc, links[..n], q).value
                 && Answers(bc, links[..n][i], q)
                 && forall j :: 0 <= j < i ==> !Answers(bc, links[..n][j], q);
        assert forall j :: 0 <= j < i ==> links[..n][j] == links[j];
        assert links[i] == links[..n][i];
      } else {
        assert forall j :: 0 <= j < n ==> links[..n][j] == links[j];
      }
    }
  }

  lemma {:induction false} LastIsLast(bc: map<ChainId, string>, links: seq<Link>, q: Query)
    ensures Last(bc, links, q).None? <==> forall i :: 0 <= i < |links| ==> !Answers(bc, links[i], q)
    ensures Last(bc, links, q).Some? ==>
              exists i :: 0 <= i < |links| && links[i] == Last(bc, links, q).value
                          && Answers(bc, links[i], q)
                          && forall j :: i < j < |links| ==> !Answers(bc, links[j], q)
  {
    if links != [] {
      var n := |links| - 1;
      LastIsLast(bc, links[..n], q);
      assert forall j :: 0 <= j < n ==> links[..n][j] == links[j];
      if !Answers(bc, links[n], q) && Last(bc, links[..n], q).Some? {
        var i :| 0 <= i < n && links[..n][i] == Last(bc, links[..n], q).value
                 && Answers(bc, links[..n][i], q)
                 && forall j :: i < j < n ==> !Answers(bc, links[..n][j], q);
        assert links[i] == links[..n][i];
      }
    }
  }

  // ---------------------------------------------------------------------------------------------
  // What configuration says, scanned linearly
  // ---------------------------------------------------------------------------------------------

  function LinksOf(chain: PathfinderChain): seq<Link> {
    seq(|chain.routes|, i requires 0 <= i < |chain.routes| => Link(chain, chain.routes[i]))
  }

  function Links(chains: seq<PathfinderChain>): seq<Link> {
    if chains == [] then [] else Links(chains[..|chains| - 1]) + LinksOf(chains[|chains| - 1])
  }

  datatype Native = Native(chainId: ChainId, token: TokenInfo)

  function NativesOf(chain: PathfinderChain): seq<Native> {
    seq(|chain.nativeTokens|, i requires 0 <= i < |chain.nativeTokens| => Native(chain.id, chain.nativeTokens[i]))
  }

  function Natives(chains: seq<PathfinderChain>): seq<Native> {
    if chains == [] then [] else Natives(chains[..|chains| - 1]) + NativesOf(chains[|chains| - 1])
  }

  function FirstNative(natives: seq<Native>, c: ChainId, d: Denom): Option<TokenInfo> {
    if natives == [] then None
    else
      var n := |natives| - 1;
      var earlier := FirstNative(natives[..n], c, d);
      if earlier.Some? then earlier
      else if natives[n].chainId == c && natives[n].token.chainDenom == d then Some(natives[n].token)
      else None
  }

  /** A route entry for the denom wins (the last one configured), else the first native token. */
  ghost function TokenOf(links: seq<Link>, natives: seq<Native>, c: ChainId, d: Denom): Option<TokenInfo> {
    var l := Last(map[], links, Carrying(c, d));
    if l.Some? && d in l.value.route.allowedTokens then Some(l.value.route.allowedTokens[d])
    else FirstNative(natives, c, d)
  }

  function BrokerChains(chains: seq<PathfinderChain>): map<ChainId, string> {
    if chains == [] then map[]
    else
      var c := chains[|chains| - 1];
      var before := BrokerChains(chains[..|chains| - 1]);
      if c.broker then before[c.id := c.brokerId] else before
  }

  function BrokerIds(chains: seq<PathfinderChain>): set<string> {
    set c | c in chains && c.broker :: c.brokerId
  }

  function PfmChains(chains: seq<PathfinderChain>): set<ChainId> {
    set c | c in chains && c.hasPFM :: c.id
  }

  // ---------------------------------------------------------------------------------------------
  // The index
  // ---------------------------------------------------------------------------------------------

  datatype IndexMaps = IndexMaps(
    directRoutes: map<string, BasicRoute>,
    brokerRoutes: map<string, map<ChainId, BasicRoute>>,
    chainToBrokerRoutes: map<ChainId, map<string, BasicRoute>>,
    denomToTokenInfo: map<ChainId, map<Denom, TokenInfo>>,
    brokers: set<string>,
    brokerChains: map<ChainId, string>,
    pfmChains: set<ChainId>,
    chainRoutes: map<ChainId, map<ChainId, BasicRoute>>)

  ghost predicate DirectScan(m: map<string, BasicRoute>, links: seq<Link>) {
    forall k :: Lookup(m, k) == RouteIn(Last(map[], links, ByKey(k)))
  }

  ghost predicate HopScan(m: map<ChainId, map<ChainId, BasicRoute>>, links: seq<Link>) {
    forall a, b :: Lookup2(m, a, b) == RouteIn(First(map[], links, Between(a, b)))
  }

  ghost predicate BrokerScan(m: map<string, map<ChainId, BasicRoute>>, links: seq<Link>) {
    forall b, t :: Lookup2(m, b, t) == RouteIn(First(map[], links, FromBroker(b, t)))
  }

  ghost predicate ToBrokerScan(m: map<ChainId, map<string, BasicRoute>>, bc: map<ChainId, string>, links: seq<Link>) {
    forall a, b :: Lookup2(m, a, b) == RouteIn(Last(bc, links, ToBroker(a, b)))
  }

  ghost predicate TokenScan(m: map<ChainId, map<Denom, TokenInfo>>, links: seq<Link>, natives: seq<Native>) {
    forall c, d :: Lookup2(m, c, d) == TokenOf(links, natives, c, d)
  }

  /** The index answers every query as the linear scan of the configuration does. */
  ghost predicate Refines(ix: IndexMaps, chains: seq<PathfinderChain>) {
    && DirectScan(ix.directRoutes, Links(chains))
    && HopScan(ix.chainRoutes, Links(chains))
    && BrokerScan(ix.brokerRoutes, Links(chains))
    && ToBrokerScan(ix.chainToBrokerRoutes, ix.brokerChains, Links(chains))
    && TokenScan(ix.denomToTokenInfo, Links(chains), Natives(chains))
    && ix.brokers == BrokerIds(chains)
    && ix.brokerChains == BrokerChains(chains)
    && ix.pfmChains == PfmChains(chains)
  }

  lemma Snoc<T>(s: seq<T>, x: T)
    ensures (s + [x])[..|s|] == s && (s + [x])[|s|] == x
  {}

  /** Go's `if _, exists := m[k][l]; !exists { m[k][l] = v }`. */
  function KeepFirst<K, L, V>(m: map<K, map<L, V>>, k: K, l: L, v: V): map<K, map<L, V>>
    requires k in m
  {
    if l in m[k] then m else m[k := m[k][l := v]]
  }

  lemma HopStep(m: map<ChainId, map<ChainId, BasicRoute>>, links: seq<Link>, l: Link)
    requires HopScan(m, links) && l.chain.id in m
    ensures HopScan(KeepFirst(m, l.chain.id, l.route.toChainId, l.route), links + [l])
  {
    Snoc(links, l);
    forall a, b
      ensures Lookup2(KeepFirst(m, l.chain.id, l.route.toChainId, l.route), a, b)
           == RouteIn(First(map[], links + [l], Between(a, b)))
    {
      assert Lookup2(m, a, b) == RouteIn(First(map[], links, Between(a, b)));
    }
  }

  lemma BrokerStep(m: map<string, map<ChainId, BasicRoute>>, links: seq<Link>, l: Link)
    requires BrokerScan(m, links) && (l.chain.broker ==> l.chain.brokerId in m)
    ensures BrokerScan(if l.chain.broker then KeepFirst(m, l.chain.brokerId, l.route.toChainId, l.route) else m, links + [l])
  {
    Snoc(links, l);
    var m' := if l.chain.broker then KeepFirst(m, l.chain.brokerId, l.route.toChainId, l.route) else m;
    forall b, t ensures Lookup2(m', b, t) == RouteIn(First(map[], links + [l], FromBroker(b, t))) {
      assert Lookup2(m, b, t) == RouteIn(First(map[], links, FromBroker(b, t)));
    }
  }

  lemma NativeStep(m: map<ChainId, map<Denom, TokenInfo>>, links: seq<Link>, natives: seq<Native>, n: Native)
    requires TokenScan(m, links, natives) && n.chainId in m
    ensures TokenScan(KeepFirst(m, n.chainId, n.token.chainDenom, n.token), links, natives + [n])
  {
    Snoc(natives, n);
    forall c, d
      ensures Lookup2(KeepFirst(m, n.chainId, n.token.chainDenom, n.token), c, d) == TokenOf(links, natives + [n], c, d)
    {
      assert Lookup2(m, c, d) == TokenOf(links, natives, c, d);
    }
  }

  class RouteIndex {
    var directRoutes: map<string, BasicRoute>
    var brokerRoutes: map<string, map<ChainId, BasicRoute>>
    var chainToBrokerRoutes: map<ChainId, map<string, BasicRoute>>
    var denomToTokenInfo: map<ChainId, map<Denom, TokenInfo>>
    var brokers: set<string>
    var brokerChains: map<ChainId, string>
    var pfmChains: set<ChainId>
    var chainRoutes: map<ChainId, map<ChainId, BasicRoute>>

    function View(): IndexMaps
      reads this
    {
      IndexMaps(directRoutes, brokerRoutes, chainToBrokerRoutes, denomToTokenInfo,
                brokers, brokerChains, pfmChains, chainRoutes)
    }

    constructor ()
      ensures View() == IndexMaps(map[], map[], map[], map[], {}, map[], {}, map[])
    {
      directRoutes, brokerRoutes, chainToBrokerRoutes, denomToTokenInfo := map[], map[], map[], map[];
      brokers, brokerChains, pfmChains, chainRoutes := {}, map[], {}, map[];
    }

    /** On a fresh index, every query is answered as a linear scan of the chains would. */
    method BuildIndex(chains: seq<PathfinderChain>) returns (ok: bool)
      requires View() == IndexMaps(map[], map[], map[], map[], {}, map[], {}, map[])
      modifies this
      ensures ok <==> chains != []
      ensures ok ==> Refines(View(), chains)
      ensures !ok ==> View() == old(View())
    {
      if |chains| == 0 { return false; }
      RegisterBrokers(chains);
      var i := 0;
      while i < |chains|
        invariant 0 <= i <= |chains|
        invariant brokers == BrokerIds(chains) && brokerChains == BrokerChains(chains)
        invariant PfmChains(chains) == pfmChains
        invariant DirectScan(directRoutes, Links(chains[..i]))
        invariant HopScan(chainRoutes, Links(chains[..i]))
        invariant BrokerScan(brokerRoutes, Links(chains[..i]))
        invariant ToBrokerScan(chainToBrokerRoutes, brokerChains, Links(chains[..i]))
        invariant TokenScan(denomToTokenInfo, Links(chains[..i]), Natives(chains[..i]))
      {
        assert chains[..i + 1][..i] == chains[..i];
        var chain := chains[i];
        if chain.hasPFM {
          assert chain.id in PfmChains(chains);
          pfmChains := pfmChains + {chain.id};
        }
        ghost var links := Links(chains[..i]);
        IndexNativeTokens(chain, links, Natives(chains[..i]));
        IndexRoutes(chain, links, Natives(chains[..i]) + NativesOf(chain));
        IndexBrokerRoutes(chain, links);
        i := i + 1;
      }
      assert chains[..i] == chains;
      return true;
    }

    method RegisterBrokers(chains: seq<PathfinderChain>)
      requires brokers == {} && brokerChains == map[] && pfmChains == {}
      modifies this`brokers, this`brokerChains, this`pfmChains
      ensures brokers == BrokerIds(chains)
      ensures brokerChains == BrokerChains(chains)
      ensures pfmChains == PfmChains(chains)
    {
      var i := 0;
      while i < |chains|
        invariant 0 <= i <= |chains|
        invariant brokers == BrokerIds(chains[..i])
        invariant brokerChains == BrokerChains(chains[..i])
        invariant pfmChains == PfmChains(chains[..i])
      {
        var chain := chains[i];
        assert chains[..i + 1] == chains[..i] + [chain];
        Snoc(chains[..i], chain);
        if chain.hasPFM {
          pfmChains := pfmChains + {chain.id};
        }
        if chain.broker {
          brokers := brokers + {chain.brokerId};
          brokerChains := brokerChains[chain.id := chain.brokerId];
        }
        i := i + 1;
      }
      assert chains[..i] == chains;
    }

    method IndexNativeTokens(chain: PathfinderChain, ghost links: seq<Link>, ghost natives: seq<Native>)
      requires TokenScan(denomToTokenInfo, links, natives)
      modifies this`denomToTokenInfo
      ensures TokenScan(denomToTokenInfo, links, natives + NativesOf(chain))
      ensures chain.id in denomToTokenInfo
    {
      if chain.id !in denomToTokenInfo {
        denomToTokenInfo := denomToTokenInfo[chain.id := map[]];
      }
      var k := 0;
      ghost var ns := NativesOf(chain);
      assert natives + ns[..0] == natives;
      while k < |chain.nativeTokens|
        invariant 0 <= k <= |chain.nativeTokens|
        invariant chain.id in denomToTokenInfo
        invariant TokenScan(denomToTokenInfo, links, natives + ns[..k])
      {
        var token := chain.nativeTokens[k];
        assert natives + ns[..k + 1] == (natives + ns[..k]) + [ns[k]];
        NativeStep(denomToTokenInfo, links, natives + ns[..k], ns[k]);
        if token.chainDenom !in denomToTokenInfo[chain.id] {
          denomToTokenInfo := denomToTokenInfo[chain.id := denomToTokenInfo[chain.id][token.chainDenom := token]];
        }
        k := k + 1;
      }
      assert natives + ns[..k] == natives + ns;
    }

    method IndexRoutes(chain: PathfinderChain, ghost links: seq<Link>, ghost natives: seq<Native>)
      requires chain.id in denomToTokenInfo
      requires DirectScan(directRoutes, links) && HopScan(chainRoutes, links)
      requires ToBrokerScan(chainToBrokerRoutes, brokerChains, links)
      requires TokenScan(denomToTokenInfo, links, natives)
      modifies this`directRoutes, this`chainRoutes, this`chainToBrokerRoutes, this`denomToTokenInfo
      ensures DirectScan(directRoutes, links + LinksOf(chain)) && HopScan(chainRoutes, links + LinksOf(chain))
      ensures ToBrokerScan(chainToBrokerRoutes, brokerChains, links + LinksOf(chain))
      ensures TokenScan(denomToTokenInfo, links + LinksOf(chain), natives)
    {
      if chain.id !in chainRoutes {
        chainRoutes := chainRoutes[chain.id := map[]];
      }
      var j := 0;
      ghost var ls := LinksOf(chain);
      assert links + ls[..0] == links;
      while j < |chain.routes|
        invariant 0 <= j <= |chain.routes|
        invariant chain.id in denomToTokenInfo && chain.id in chainRoutes
        invariant DirectScan(directRoutes, links + ls[..j]) && HopScan(chainRoutes, links + ls[..j])
        invariant ToBrokerScan(chainToBrokerRoutes, brokerChains, links + ls[..j])
        invariant TokenScan(denomToTokenInfo, links + ls[..j], natives)
      {
        assert links + ls[..j + 1] == (links + ls[..j]) + [ls[j]];
        IndexRoute(chain, chain.routes[j], links + ls[..j], natives);
        j := j + 1;
      }
      assert links + ls[..j] == links + ls;
    }

    method IndexRoute(chain: PathfinderChain, route: BasicRoute, ghost links: seq<Link>, ghost natives: seq<Native>)
      requires chain.id in denomToTokenInfo && chain.id in chainRoutes
      requires DirectScan(directRoutes, links) && HopScan(chainRoutes, links)
      requires ToBrokerScan(chainToBrokerRoutes, brokerChains, links)
      requires TokenScan(denomToTokenInfo, links, natives)
      modifies this`directRoutes, this`chainRoutes, this`chainToBrokerRoutes, this`denomToTokenInfo
      ensures chain.id in denomToTokenInfo && chain.id in chainRoutes
      ensures var links' := links + [Link(chain, route)];
              && DirectScan(directRoutes, links') && HopScan(chainRoutes, links')
              && ToBrokerScan(chainToBrokerRoutes, brokerChains, links')
              && TokenScan(denomToTokenInfo, links', natives)
    {
      IndexRouteTokens(chain, route, links, natives);
      IndexDirectRoutes(chain, route, links);
      HopStep(chainRoutes, links, Link(chain, route));
      if route.toChainId !in chainRoutes[chain.id] {
        chainRoutes := chainRoutes[chain.id := chainRoutes[chain.id][route.toChainId := route]];
      }
      IndexRouteToBroker(chain, route, links);
    }

    /** Ranges over a Go map: the denoms come in any order. */
    method IndexRouteTokens(chain: PathfinderChain, route: BasicRoute, ghost links: seq<Link>, ghost natives: seq<Native>)
      requires chain.id in denomToTokenInfo
      requires TokenScan(denomToTokenInfo, links, natives)
      modifies this`denomToTokenInfo
      ensures chain.id in denomToTokenInfo
      ensures TokenScan(denomToTokenInfo, links + [Link(chain, route)], natives)
    {
      ghost var tokens := denomToTokenInfo;
      var rest := route.allowedTokens.Keys;
      while rest != {}
        invariant rest <= route.allowedTokens.Keys
        invariant chain.id in denomToTokenInfo
        invariant forall c, d ::
            Lookup2(denomToTokenInfo, c, d) ==
            if c == chain.id && d in route.allowedTokens && d !in rest then Some(route.allowedTokens[d])
            else Lookup2(tokens, c, d)
      {
        var denom :| denom in rest;
        ghost var was := denomToTokenInfo;
        denomToTokenInfo := denomToTokenInfo[chain.id := denomToTokenInfo[chain.id][denom := route.allowedTokens[denom]]];
        rest := rest - {denom};
        assert forall c, d ::
            Lookup2(denomToTokenInfo, c, d) ==
            (if c == chain.id && d == denom then Some(route.allowedTokens[denom]) else Lookup2(was, c, d));
      }
      Snoc(links, Link(chain, route));
    }

    method IndexDirectRoutes(chain: PathfinderChain, route: BasicRoute, ghost links: seq<Link>)
      requires DirectScan(directRoutes, links)
      modifies this`directRoutes
      ensures DirectScan(directRoutes, links + [Link(chain, route)])
    {
      ghost var direct := directRoutes;
      var rest := route.allowedTokens.Keys;
      while rest != {}
        invariant rest <= route.allowedTokens.Keys
        invariant forall k ::
            Lookup(directRoutes, k) ==
            if exists d :: d in route.allowedTokens && d !in rest && k == RouteKey(chain.id, route.toChainId, d)
            then Some(route) else Lookup(direct, k)
      {
        var denom :| denom in rest;
        ghost var was := directRoutes;
        directRoutes := directRoutes[RouteKey(chain.id, route.toChainId, denom) := route];
        ghost var left := rest - {denom};
        forall k ensures Lookup(directRoutes, k) ==
            if exists d :: d in route.allowedTokens && d !in left && k == RouteKey(chain.id, route.toChainId, d)
            then Some(route) else Lookup(direct, k)
        {
          assert Lookup(directRoutes, k) ==
            if k == RouteKey(chain.id, route.toChainId, denom) then Some(route) else Lookup(was, k);
        }
        rest := rest - {denom};
      }
      Snoc(links, Link(chain, route));
    }

    method IndexRouteToBroker(chain: PathfinderChain, route: BasicRoute, ghost links: seq<Link>)
      requires ToBrokerScan(chainToBrokerRoutes, brokerChains, links)
      modifies this`chainToBrokerRoutes
      ensures ToBrokerScan(chainToBrokerRoutes, brokerChains, links + [Link(chain, route)])
    {
      if route.toChainId in brokerChains {
        var brokerId := brokerChains[route.toChainId];
        if chain.id !in chainToBrokerRoutes {
          chainToBrokerRoutes := chainToBrokerRoutes[chain.id := map[]];
        }
        chainToBrokerRoutes := chainToBrokerRoutes[chain.id := chainToBrokerRoutes[chain.id][brokerId := route]];
      }
      Snoc(links, Link(chain, route));
    }

    method IndexBrokerRoutes(chain: PathfinderChain, ghost links: seq<Link>)
      requires BrokerScan(brokerRoutes, links)
      modifies this`brokerRoutes
      ensures BrokerScan(brokerRoutes, links + LinksOf(chain))
    {
      if chain.broker && chain.brokerId !in brokerRoutes {
        brokerRoutes := brokerRoutes[chain.brokerId := map[]];
      }
      ghost var ls := LinksOf(chain);
      assert links + ls[..0] == links;
      var j := 0;
      while j < |chain.routes|
        invariant 0 <= j <= |chain.routes|
        invariant chain.broker ==> chain.brokerId in brokerRoutes
        invariant BrokerScan(brokerRoutes, links + ls[..j])
      {
        var route := chain.routes[j];
        assert links + ls[..j + 1] == (links + ls[..j]) + [ls[j]];
        BrokerStep(brokerRoutes, links + ls[..j], ls[j]);
        if chain.broker && route.toChainId !in brokerRoutes[chain.brokerId] {
          brokerRoutes := brokerRoutes[chain.brokerId := brokerRoutes[chain.brokerId][route.toChainId := route]];
        }
        j := j + 1;
      }
      assert links + ls[..j] == links + ls;
    }
  }

  // ---------------------------------------------------------------------------------------------
  // What the index gives its readers
  // ---------------------------------------------------------------------------------------------

  /** A chain id that cannot be confused with the separators of a route key. */
  ghost predicate PlainId(s: string) {
    && ':' !in s
    && forall i :: 0 <= i < |s| - 1 ==> !(s[i] == '-' && s[i + 1] == '>')
  }

  lemma RouteKeyInjective(a: ChainId, b: ChainId, d: Denom, a': ChainId, b': ChainId, d': Denom)
    requires PlainId(a) && PlainId(b) && PlainId(a') && PlainId(b')
    requires RouteKey(a, b, d) == RouteKey(a', b', d')
    ensures a == a' && b == b' && d == d'
  {
    if |a| < |a'| {
      KeyTooLong(a, b, d, a', b', d');
    } else if |a'| < |a| {
      KeyTooLong(a', b', d', a, b, d);
    }
    var k := RouteKey(a, b, d);
    assert a == k[..|a|] == k[..|a'|] == a';
    var tail, tail' := b + ":" + d, b' + ":" + d';
    assert k == (a + "->") + tail && k == (a' + "->") + tail';
    assert tail == k[|a| + 2..] == tail';
    assert tail[|b|] == ':' && tail'[|b'|] == ':';
    assert b == tail[..|b|] == tail'[..|b'|] == b';
    assert d == tail[|b| + 1..] == tail'[|b'| + 1..] == d';
  }

  lemma KeyTooLong(a: ChainId, b: ChainId, d: Denom, a': ChainId, b': ChainId, d': Denom)
    requires PlainId(a') && |a| < |a'|
    ensures RouteKey(a, b, d) != RouteKey(a', b', d')
  {
    var k, k' := RouteKey(a, b, d), RouteKey(a', b', d');
    var n := |a|;
    assert k[n] == '-' && k[n + 1] == '>';
    if n + 1 < |a'| {
      assert k'[n] == a'[n] && k'[n + 1] == a'[n + 1];
    } else {
      assert k'[n + 1] == '-';
    }
  }

  ghost predicate LinkCarries(l: Link, a: ChainId, b: ChainId, d: Denom) {
    l.chain.id == a && l.route.toChainId == b && d in l.route.allowedTokens
  }

  ghost predicate PlainLinks(chains: seq<PathfinderChain>) {
    forall l :: l in Links(chains) ==> PlainId(l.chain.id) && PlainId(l.route.toChainId)
  }

  /** directRoutes holds exactly the last configured a-to-b route that allows the denom. */
  lemma DirectRouteIsLastCarrier(ix: IndexMaps, chains: seq<PathfinderChain>, a: ChainId, b: ChainId, d: Denom)
    requires Refines(ix, chains) && PlainLinks(chains) && PlainId(a) && PlainId(b)
    ensures var r := Lookup(ix.directRoutes, RouteKey(a, b, d));
            && (r.None? <==> forall l :: l in Links(chains) ==> !LinkCarries(l, a, b, d))
            && (r.Some? ==> exists i :: 0 <= i < |Links(chains)| && Links(chains)[i].route == r.value
                                        && LinkCarries(Links(chains)[i], a, b, d)
                                        && forall j :: i < j < |Links(chains)| ==> !LinkCarries(Links(chains)[j], a, b, d))
  {
    var key := RouteKey(a, b, d);
    var links := Links(chains);
    assert Lookup(ix.directRoutes, key) == RouteIn(Last(map[], links, ByKey(key)));
    LastIsLast(map[], links, ByKey(key));
    forall i | 0 <= i < |links|
      ensures Answers(map[], links[i], ByKey(key)) <==> LinkCarries(links[i], a, b, d)
    {
      var l := links[i];
      assert l in links;
      if Answers(map[], l, ByKey(key)) {
        var d' :| d' in l.route.allowedTokens && key == RouteKey(l.chain.id, l.route.toChainId, d');
        RouteKeyInjective(a, b, d, l.chain.id, l.route.toChainId, d');
      }
    }
  }

  /** Entries of the index are keyed by the destination of the route they hold. */
  ghost predicate KeyedByTarget(ix: IndexMaps) {
    && (forall a, b :: Lookup2(ix.chainRoutes, a, b).Some? ==> Lookup2(ix.chainRoutes, a, b).value.toChainId == b)
    && (forall k, b :: Lookup2(ix.brokerRoutes, k, b).Some? ==> Lookup2(ix.brokerRoutes, k, b).value.toChainId == b)
    && (forall a, k :: Lookup2(ix.chainToBrokerRoutes, a, k).Some? ==>
          Lookup(ix.brokerChains, Lookup2(ix.chainToBrokerRoutes, a, k).value.toChainId) == Some(k))
  }

  lemma RefinedIndexIsKeyed(ix: IndexMaps, chains: seq<PathfinderChain>)
    requires Refines(ix, chains)
    ensures KeyedByTarget(ix)
  {
    var links := Links(chains);
    forall a, b | Lookup2(ix.chainRoutes, a, b).Some?
      ensures Lookup2(ix.chainRoutes, a, b).value.toChainId == b
    {
      FirstIsFirst(map[], links, Between(a, b));
    }
    forall k, b | Lookup2(ix.brokerRoutes, k, b).Some?
      ensures Lookup2(ix.brokerRoutes, k, b).value.toChainId == b
    {
      FirstIsFirst(map[], links, FromBroker(k, b));
    }
    forall a, k | Lookup2(ix.chainToBrokerRoutes, a, k).Some?
      ensures Lookup(ix.brokerChains, Lookup2(ix.chainToBrokerRoutes, a, k).value.toChainId) == Some(k)
    {
      LastIsLast(ix.brokerChains, links, ToBroker(a, k));
    }
  }

  /** Two builds of the same configuration answer alike, whatever order Go's maps were ranged in. */
  lemma IndexIsDeterminate(ix: IndexMaps, ix': IndexMaps, chains: seq<PathfinderChain>)
    requires Refines(ix, chains) && Refines(ix', chains)
    ensures ix.directRoutes == ix'.directRoutes
    ensures forall a, b :: Lookup2(ix.chainRoutes, a, b) == Lookup2(ix'.chainRoutes, a, b)
    ensures forall k, b :: Lookup2(ix.brokerRoutes, k, b) == Lookup2(ix'.brokerRoutes, k, b)
    ensures forall a, k :: Lookup2(ix.chainToBrokerRoutes, a, k) == Lookup2(ix'.chainToBrokerRoutes, a, k)
    ensures forall c, d :: Lookup2(ix.denomToTokenInfo, c, d) == Lookup2(ix'.denomToTokenInfo, c, d)
  {
    forall k ensures (k in ix.directRoutes <==> k in ix'.directRoutes)
                  && (k in ix.directRoutes ==> ix.directRoutes[k] == ix'.directRoutes[k])
    {
      assert Lookup(ix.directRoutes, k) == Lookup(ix'.directRoutes, k);
    }
  }

  /** helpers.go: the first value of the (unordered) Go map whose destination matches. */
  method FindRouteFromChain(ix: IndexMaps, fromChain: ChainId, toChain: ChainId) returns (r: Option<BasicRoute>)
    ensures r.Some? ==> exists k :: Lookup2(ix.chainRoutes, fromChain, k) == r && r.value.toChainId == toChain
    ensures r.None? ==> forall k :: Lookup2(ix.chainRoutes, fromChain, k).Some? ==>
                          Lookup2(ix.chainRoutes, fromChain, k).value.toChainId != toChain
    ensures KeyedByTarget(ix) ==> r == Lookup2(ix.chainRoutes, fromChain, toChain)
  {
    if fromChain !in ix.chainRoutes { return None; }
    var routes := ix.chainRoutes[fromChain];
    var rest := routes.Keys;
    while rest != {}
      invariant rest <= routes.Keys
      invariant forall k :: k in routes && k !in rest ==> routes[k].toChainId != toChain
    {
      var k :| k in rest;
      if routes[k].toChainId == toChain {
        assert Lookup2(ix.chainRoutes, fromChain, k) == Some(routes[k]);
        return Some(routes[k]);
      }
      rest := rest - {k};
    }
    return None;
  }

  // ---------------------------------------------------------------------------------------------
  // route_direct.go
  // ---------------------------------------------------------------------------------------------

  function FindDirectRoute(ix: IndexMaps, req: RouteRequest): Option<BasicRoute> {
    var route := Lookup(ix.directRoutes, RouteKey(req.chainFrom, req.chainTo, req.tokenFromDenom));
    var token := Lookup2(ix.denomToTokenInfo, req.chainFrom, req.tokenFromDenom);
    if route.Some? && token.Some? && token.value.ibcDenom == req.tokenToDenom then route else None
  }

  /** A direct route is reported iff some configured link carries the token and the last indexed
      entry for the denom (over all destinations) delivers the wanted denom. */
  lemma DirectRouteFound(ix: IndexMaps, chains: seq<PathfinderChain>, req: RouteRequest)
    requires Refines(ix, chains) && PlainLinks(chains) && PlainId(req.chainFrom) && PlainId(req.chainTo)
    ensures FindDirectRoute(ix, req).Some? <==>
              && (exists l :: l in Links(chains) && LinkCarries(l, req.chainFrom, req.chainTo, req.tokenFromDenom))
              && TokenOf(Links(chains), Natives(chains), req.chainFrom, req.tokenFromDenom).Some?
              && TokenOf(Links(chains), Natives(chains), req.chainFrom, req.tokenFromDenom).value.ibcDenom == req.tokenToDenom
    ensures FindDirectRoute(ix, req).Some? ==>
              exists l :: l in Links(chains) && l.route == FindDirectRoute(ix, req).value
                          && LinkCarries(l, req.chainFrom, req.chainTo, req.tokenFromDenom)
  {
    DirectRouteIsLastCarrier(ix, chains, req.chainFrom, req.chainTo, req.tokenFromDenom);
    assert Lookup2(ix.denomToTokenInfo, req.chainFrom, req.tokenFromDenom)
        == TokenOf(Links(chains), Natives(chains), req.chainFrom, req.tokenFromDenom);
  }
}
