/** From configuration to answer: the routes of each chain, their conversion to router chains, and
    what the router then finds (config_manager/enriched/route_builder.go:148-178,
    config_manager/output/pathfinder_converter.go, pathfinder/config/chain_loader.go). */
module ConfigPipeline {
  import opened RouterTypes
  import opened RouteBuilding

  datatype RouteConfig = RouteConfig(toChainId: ChainId, toChainName: string, connectionId: string, channelId: string,
                                     portId: string, counterpartyChannelId: string, state: string,
                                     allowedTokens: seq<RouteTokenInfo>)

  ghost predicate RouteConfigured(cfg: Config, hash: DenomHash, from: ChainId, r: RouteConfig) {
    && r.toChainId in cfg.inputs && Lookup2(cfg.channels, from, r.toChainId).Some?
    && var c := Lookup2(cfg.channels, from, r.toChainId).value;
       && r.connectionId == c.connectionId && r.channelId == c.channelId && r.portId == c.portId
       && r.counterpartyChannelId == c.counterpartyChannelId && r.state == c.status
       && r.toChainName == cfg.inputs[r.toChainId].name
       && TokensBuilt(cfg, hash, from, r.toChainId, c, r.allowedTokens)
  }

  /** One route per connected, configured chain. */
  ghost predicate RoutesBuilt(cfg: Config, hash: DenomHash, from: ChainId, routes: seq<RouteConfig>, ids: set<ChainId>) {
    && (forall i {:trigger RouteConfigured(cfg, hash, from, routes[i])} :: 0 <= i < |routes| ==> RouteConfigured(cfg, hash, from, routes[i]))
    && (forall i :: 0 <= i < |routes| ==> routes[i].toChainId in ids)
    && (forall i, j :: 0 <= i < j < |routes| ==> routes[i].toChainId != routes[j].toChainId)
    && (forall to :: to in ids && to in cfg.inputs ==> exists i :: 0 <= i < |routes| && routes[i].toChainId == to)
  }

  lemma RoutesSnoc(cfg: Config, hash: DenomHash, from: ChainId, routes: seq<RouteConfig>, ids: set<ChainId>, r: RouteConfig)
    requires RoutesBuilt(cfg, hash, from, routes, ids) && r.toChainId !in ids && RouteConfigured(cfg, hash, from, r)
    ensures RoutesBuilt(cfg, hash, from, routes + [r], ids + {r.toChainId})
  {
    forall to | to in ids + {r.toChainId} && to in cfg.inputs
      ensures exists i :: 0 <= i < |routes + [r]| && (routes + [r])[i].toChainId == to
    {
      if to == r.toChainId {
        assert (routes + [r])[|routes|].toChainId == to;
      } else {
        var i :| 0 <= i < |routes| && routes[i].toChainId == to;
        assert (routes + [r])[i].toChainId == to;
      }
    }
  }

  method BuildRoutesForChain(cfg: Config, hash: DenomHash, id: ChainId) returns (routes: seq<RouteConfig>)
    ensures RoutesBuilt(cfg, hash, id, routes, if id in cfg.channels then cfg.channels[id].Keys else {})
  {
    routes := [];
    if id !in cfg.channels { return; }
    var channels := cfg.channels[id];
    var rest := channels.Keys;
    while rest != {}
      invariant rest <= channels.Keys
      invariant RoutesBuilt(cfg, hash, id, routes, channels.Keys - rest)
    {
      var to :| to in rest;
      if to in cfg.inputs {
        var c := channels[to];
        var es := BuildAllowedTokensForRoute(cfg, hash, id, to, c);
        var r := RouteConfig(to, cfg.inputs[to].name, c.connectionId, c.channelId, c.portId, c.counterpartyChannelId, c.status, es);
        RoutesSnoc(cfg, hash, id, routes, channels.Keys - rest, r);
        routes := routes + [r];
      }
      assert channels.Keys - (rest - {to}) == (channels.Keys - rest) + {to};
      rest := rest - {to};
    }
  }

  // ---------------------------------------------------------------------------------------------
  // The converter
  // ---------------------------------------------------------------------------------------------

  /** strings.Compare(a, b) < 0 */
  predicate Less(a: string, b: string) {
    if b == "" then false else if a == "" then true
    else a[0] < b[0] || (a[0] == b[0] && Less(a[1..], b[1..]))
  }

  /** a comes before b: it is a proper beginning of b, or has the smaller character where they first differ. */
  ghost predicate Before(a: string, b: string) {
    exists k :: 0 <= k <= |a| && k <= |b| && a[..k] == b[..k]
                && ((k == |a| && k < |b|) || (k < |a| && k < |b| && a[k] < b[k]))
  }

  lemma {:induction false} LessIsBefore(a: string, b: string)
    ensures Less(a, b) <==> Before(a, b)
  {
    if b != "" && a == "" {
      assert a[..0] == b[..0];
    } else if b != "" {
      LessIsBefore(a[1..], b[1..]);
      if a[0] < b[0] { assert a[..0] == b[..0]; }
      if a[0] == b[0] && Before(a[1..], b[1..]) {
        var k :| 0 <= k <= |a[1..]| && k <= |b[1..]| && a[1..][..k] == b[1..][..k]
                 && ((k == |a[1..]| && k < |b[1..]|) || (k < |a[1..]| && k < |b[1..]| && a[1..][k] < b[1..][k]));
        assert a[..k + 1] == [a[0]] + a[1..][..k] && b[..k + 1] == [b[0]] + b[1..][..k];
      }
      if Before(a, b) && a[0] == b[0] {
        var k :| 0 <= k <= |a| && k <= |b| && a[..k] == b[..k]
                 && ((k == |a| && k < |b|) || (k < |a| && k < |b| && a[k] < b[k]));
        assert k > 0;
        assert a[1..][..k - 1] == a[..k][1..];
        assert b[1..][..k - 1] == b[..k][1..];
      }
    }
  }

  function Insert<T>(x: T, s: seq<T>, key: T -> string): (r: seq<T>)
    ensures multiset(r) == multiset(s) + multiset{x}
  {
    if s == [] || !Less(key(x), key(s[|s| - 1])) then s + [x]
    else
      assert s == s[..|s| - 1] + [s[|s| - 1]];
      Insert(x, s[..|s| - 1], key) + [s[|s| - 1]]
  }

  /** slices.SortStableFunc by a string key. */
  function SortStable<T>(s: seq<T>, key: T -> string): (r: seq<T>)
    ensures multiset(r) == multiset(s)
  {
    if s == [] then []
    else
      assert s == s[..|s| - 1] + [s[|s| - 1]];
      Insert(s[|s| - 1], SortStable(s[..|s| - 1], key), key)
  }

  /** No element has a smaller key than one before it. */
  ghost predicate SortedBy<T>(s: seq<T>, key: T -> string) {
    forall i, j :: 0 <= i < j < |s| ==> !Less(key(s[j]), key(s[i]))
  }

  lemma {:induction false} LessIsAsymmetric(a: string, b: string)
    ensures !(Less(a, b) && Less(b, a))
  {
    if a != "" && b != "" { LessIsAsymmetric(a[1..], b[1..]); }
  }

  lemma {:induction false} NotLessIsTransitive(a: string, b: string, c: string)
    requires !Less(b, a) && !Less(c, b)
    ensures !Less(c, a)
  {
    if a != "" && b != "" && c != "" && a[0] == b[0] == c[0] { NotLessIsTransitive(a[1..], b[1..], c[1..]); }
  }

  lemma InsertedMember<T>(x: T, s: seq<T>, key: T -> string, i: nat)
    requires i < |Insert(x, s, key)|
    ensures Insert(x, s, key)[i] == x || Insert(x, s, key)[i] in s
  {
    assert Insert(x, s, key)[i] in multiset(Insert(x, s, key));
  }

  lemma {:induction false} InsertKeepsSorted<T>(x: T, s: seq<T>, key: T -> string)
    requires SortedBy(s, key)
    ensures SortedBy(Insert(x, s, key), key)
  {
    if s == [] || !Less(key(x), key(s[|s| - 1])) {
      forall i | 0 <= i < |s| ensures !Less(key(x), key(s[i])) {
        if i < |s| - 1 { NotLessIsTransitive(key(s[i]), key(s[|s| - 1]), key(x)); }
      }
    } else {
      var init, last := s[..|s| - 1], s[|s| - 1];
      InsertKeepsSorted(x, init, key);
      LessIsAsymmetric(key(x), key(last));
      var r := Insert(x, init, key);
      forall i | 0 <= i < |r| ensures !Less(key(last), key(r[i])) {
        InsertedMember(x, init, key, i);
        if r[i] != x {
          var j :| 0 <= j < |init| && init[j] == r[i];
          assert s[j] == r[i];
        }
      }
    }
  }

  lemma {:induction false} SortStableSorts<T>(s: seq<T>, key: T -> string)
    ensures SortedBy(SortStable(s, key), key)
  {
    if s != [] {
      SortStableSorts(s[..|s| - 1], key);
      InsertKeepsSorted(s[|s| - 1], SortStable(s[..|s| - 1], key), key);
    }
  }

  /** The elements with key k, in order. */
  function WithKey<T>(s: seq<T>, key: T -> string, k: string): seq<T> {
    if s == [] then []
    else WithKey(s[..|s| - 1], key, k) + if key(s[|s| - 1]) == k then [s[|s| - 1]] else []
  }

  lemma {:induction false} LessIsIrreflexive(a: string)
    ensures !Less(a, a)
  {
    if a != "" { LessIsIrreflexive(a[1..]); }
  }

  lemma {:induction false} InsertedLastOfItsKey<T>(x: T, s: seq<T>, key: T -> string, k: string)
    ensures WithKey(Insert(x, s, key), key, k) == WithKey(s, key, k) + if key(x) == k then [x] else []
  {
    if s == [] || !Less(key(x), key(s[|s| - 1])) {
      assert (s + [x])[..|s|] == s;
    } else {
      var init, last := s[..|s| - 1], s[|s| - 1];
      InsertedLastOfItsKey(x, init, key, k);
      LessIsIrreflexive(k);
      assert (Insert(x, init, key) + [last])[..|Insert(x, init, key)|] == Insert(x, init, key);
    }
  }

  /** Elements with equal keys keep their order. */
  lemma {:induction false} SortIsStable<T>(s: seq<T>, key: T -> string, k: string)
    ensures WithKey(SortStable(s, key), key, k) == WithKey(s, key, k)
  {
    if s != [] {
      SortIsStable(s[..|s| - 1], key, k);
      InsertedLastOfItsKey(s[|s| - 1], SortStable(s[..|s| - 1], key), key, k);
    }
  }

  lemma SortStableMembers<T>(s: seq<T>, key: T -> string)
    ensures forall x :: x in SortStable(s, key) <==> x in s
    ensures |SortStable(s, key)| == |s|
  {
    forall x ensures x in SortStable(s, key) <==> x in s {
      assert x in SortStable(s, key) <==> x in multiset(SortStable(s, key));
    }
    assert |multiset(SortStable(s, key))| == |multiset(s)|;
  }

  function InfoOf(e: RouteTokenInfo): TokenInfo {
    TokenInfo(e.sourceDenom, e.destinationDenom, e.baseDenom, e.originChain, e.symbol, e.decimals)
  }

  /** m holds entries of es under their source denoms, and has every source denom. */
  ghost predicate Mapped(es: seq<RouteTokenInfo>, m: map<Denom, TokenInfo>) {
    && (forall e :: e in es ==> e.sourceDenom in m)
    && (forall d :: d in m ==> exists e :: e in es && e.sourceDenom == d && m[d] == InfoOf(e))
  }

  lemma MappedSnoc(es: seq<RouteTokenInfo>, m: map<Denom, TokenInfo>, e: RouteTokenInfo)
    requires Mapped(es, m)
    ensures Mapped(es + [e], m[e.sourceDenom := InfoOf(e)])
  {
    var es', m' := es + [e], m[e.sourceDenom := InfoOf(e)];
    forall d | d in m' ensures exists x :: x in es' && x.sourceDenom == d && m'[d] == InfoOf(x) {
      if d == e.sourceDenom {
        assert e in es';
      } else {
        var x :| x in es && x.sourceDenom == d && m[d] == InfoOf(x);
        assert x in es';
      }
    }
  }

  method ConvertRoute(route: RouteConfig) returns (r: BasicRoute)
    ensures r == BasicRoute(route.toChainName, route.toChainId, route.connectionId, route.channelId, route.portId, r.allowedTokens)
    ensures Mapped(route.allowedTokens, r.allowedTokens)
  {
    var sorted := SortStable(route.allowedTokens, (e: RouteTokenInfo) => e.baseDenom);
    var tokens: map<Denom, TokenInfo> := map[];
    var i := 0;
    while i < |sorted|
      invariant 0 <= i <= |sorted|
      invariant Mapped(sorted[..i], tokens)
    {
      MappedSnoc(sorted[..i], tokens, sorted[i]);
      assert sorted[..i + 1] == sorted[..i] + [sorted[i]];
      tokens := tokens[sorted[i].sourceDenom := InfoOf(sorted[i])];
      i := i + 1;
    }
    assert sorted[..i] == sorted;
    SortStableMembers(route.allowedTokens, (e: RouteTokenInfo) => e.baseDenom);
    r := BasicRoute(route.toChainName, route.toChainId, route.connectionId, route.channelId, route.portId, tokens);
  }

  /** With distinct source denoms the conversion from list to map drops nothing. */
  lemma ConversionDropsNothing(es: seq<RouteTokenInfo>, m: map<Denom, TokenInfo>)
    requires Mapped(es, m) && DistinctSources(es)
    ensures forall e :: e in es ==> m[e.sourceDenom] == InfoOf(e)
    ensures |m| == |es|
  {
    forall e | e in es ensures m[e.sourceDenom] == InfoOf(e) {
      var x :| x in es && x.sourceDenom == e.sourceDenom && m[e.sourceDenom] == InfoOf(x);
      var i :| 0 <= i < |es| && es[i] == e;
      var j :| 0 <= j < |es| && es[j] == x;
      assert i == j;
    }
    KeysCount(es, m.Keys);
    assert |m| == |m.Keys|;
  }

  lemma {:induction false} KeysCount(es: seq<RouteTokenInfo>, keys: set<Denom>)
    requires DistinctSources(es)
    requires forall d :: d in keys <==> HasSource(es, d)
    ensures |keys| == |es|
  {
    if es == [] {
      assert keys == {};
    } else {
      var n := |es| - 1;
      var d := es[n].sourceDenom;
      assert HasSource(es, d);
      forall x ensures x in keys - {d} <==> HasSource(es[..n], x) {
        if HasSource(es[..n], x) {
          var i :| 0 <= i < n && es[..n][i].sourceDenom == x;
          assert es[i].sourceDenom == x;
        }
        if x in keys - {d} {
          var i :| 0 <= i < |es| && es[i].sourceDenom == x;
          assert es[..n][i].sourceDenom == x;
        }
      }
      KeysCount(es[..n], keys - {d});
    }
  }

  // ---------------------------------------------------------------------------------------------
  // Built chains
  // ---------------------------------------------------------------------------------------------

  ghost predicate RouteBuilt(cfg: Config, hash: DenomHash, from: ChainId, r: BasicRoute) {
    && r.toChainId in cfg.inputs && Lookup2(cfg.channels, from, r.toChainId).Some?
    && var c := Lookup2(cfg.channels, from, r.toChainId).value;
       && r.channelId == c.channelId && r.portId == c.portId && r.connectionId == c.connectionId
       && r.toChain == cfg.inputs[r.toChainId].name
       && exists es :: TokensBuilt(cfg, hash, from, r.toChainId, c, es) && Mapped(es, r.allowedTokens)
  }

  /** Listed as the token under its own denom, if allowed; else not at all. */
  ghost predicate ListedUnder(tokens: map<Denom, TokenInfo>, d: Denom, info: TokenInfo, allowed: bool) {
    (d in tokens <==> allowed) && (allowed ==> tokens[d] == info)
  }

  /** What a converted route allows, said over the configuration alone: a token of the sender if and
      only if it may go to the receiver, a native token of the receiver if and only if it may come to
      the sender, each with the denoms, origin, symbol and decimals it has. */
  ghost predicate CarriesExactly(cfg: Config, hash: DenomHash, from: ChainId, r: BasicRoute)
    requires Lookup2(cfg.channels, from, r.toChainId).Some?
  {
    var to, c := r.toChainId, Lookup2(cfg.channels, from, r.toChainId).value;
    && (forall t :: t in NativeTokens(cfg, from) ==>
          ListedUnder(r.allowedTokens, t.denom,
                   TokenInfo(t.denom, ComputeIBCDenom(hash, c.portId, c.counterpartyChannelId, t.denom), t.denom, from, t.symbol, t.exponent),
                   MaySend(t, to)))
    && (forall t :: t in NativeTokens(cfg, to) ==>
          var voucher := ComputeIBCDenom(hash, c.portId, c.channelId, t.denom);
          ListedUnder(r.allowedTokens, voucher, TokenInfo(voucher, t.denom, t.denom, to, t.symbol, t.exponent), MaySend(t, from)))
    && (forall t :: t in RoutableTokens(cfg, from) ==>
          ListedUnder(r.allowedTokens, t.denom,
                   TokenInfo(t.denom, ComputeForwardedTokenDenom(hash, t, c), t.originDenom, t.originChain, t.symbol, t.exponent),
                   MaySend(t, to)))
  }

  lemma BuiltRouteCarries(cfg: Config, hash: DenomHash, from: ChainId, r: BasicRoute)
    requires RouteBuilt(cfg, hash, from, r)
    requires TokensApart(cfg, hash, from, r.toChainId, Lookup2(cfg.channels, from, r.toChainId).value)
    ensures CarriesExactly(cfg, hash, from, r)
  {
    var c := Lookup2(cfg.channels, from, r.toChainId).value;
    var es :| TokensBuilt(cfg, hash, from, r.toChainId, c, es) && Mapped(es, r.allowedTokens);
    TokensAreExact(cfg, hash, from, r.toChainId, c, es);
    forall t | t in NativeTokens(cfg, from) { ListedIsCarried(es, r.allowedTokens, NativeEntry(hash, from, c, t), MaySend(t, r.toChainId)); }
    forall t | t in NativeTokens(cfg, r.toChainId) { ListedIsCarried(es, r.allowedTokens, UnwindEntry(hash, r.toChainId, c, t), MaySend(t, from)); }
    forall t | t in RoutableTokens(cfg, from) { ListedIsCarried(es, r.allowedTokens, RoutableEntry(hash, c, t), MaySend(t, r.toChainId)); }
  }

  lemma ListedIsCarried(es: seq<RouteTokenInfo>, m: map<Denom, TokenInfo>, e: RouteTokenInfo, allowed: bool)
    requires Mapped(es, m) && Lists(es, e, allowed)
    ensures ListedUnder(m, e.sourceDenom, TokenInfo(e.sourceDenom, e.destinationDenom, e.baseDenom, e.originChain, e.symbol, e.decimals), allowed)
  {
    if allowed {
      var i :| 0 <= i < |es| && es[i].sourceDenom == e.sourceDenom;
      assert es[i] in es;
    }
  }

  function NativeInfo(c: ChainId, t: TokenMeta): TokenInfo {
    TokenInfo(t.denom, "", t.denom, c, t.symbol, t.exponent)
  }

  ghost predicate ChainBuilt(cfg: Config, hash: DenomHash, c: PathfinderChain) {
    && c.id in cfg.inputs
    && (forall n :: n in c.nativeTokens ==> exists t :: t in NativeTokens(cfg, c.id) && n == NativeInfo(c.id, t))
    && (forall t :: t in NativeTokens(cfg, c.id) ==> NativeInfo(c.id, t) in c.nativeTokens)
    && ConvertedRoutes(cfg, hash, c.id, c.routes)
  }

  method ConvertNativeTokens(cfg: Config, id: ChainId) returns (infos: seq<TokenInfo>)
    ensures forall n :: n in infos ==> exists t :: t in NativeTokens(cfg, id) && n == NativeInfo(id, t)
    ensures forall t :: t in NativeTokens(cfg, id) ==> NativeInfo(id, t) in infos
    ensures |infos| == |NativeTokens(cfg, id)| && SortedBy(infos, (n: TokenInfo) => n.chainDenom)
  {
    var key := (t: TokenMeta) => t.denom;
    var sorted := SortStable(NativeTokens(cfg, id), key);
    SortStableMembers(NativeTokens(cfg, id), key);
    SortStableSorts(NativeTokens(cfg, id), key);
    infos := [];
    var i := 0;
    while i < |sorted|
      invariant 0 <= i <= |sorted| && |infos| == i
      invariant forall j :: 0 <= j < i ==> infos[j] == NativeInfo(id, sorted[j])
    {
      var t := sorted[i];
      infos := infos + [TokenInfo(t.denom, "", t.denom, id, t.symbol, t.exponent)];
      i := i + 1;
    }
    NativesConverted(id, NativeTokens(cfg, id), sorted, infos);
    forall j, k | 0 <= j < k < |infos| ensures !Less(infos[k].chainDenom, infos[j].chainDenom) {
      assert !Less(key(sorted[k]), key(sorted[j]));
    }
  }

  lemma NativesConverted(id: ChainId, natives: seq<TokenMeta>, sorted: seq<TokenMeta>, infos: seq<TokenInfo>)
    requires forall t :: t in sorted <==> t in natives
    requires |infos| == |sorted| && forall j :: 0 <= j < |infos| ==> infos[j] == NativeInfo(id, sorted[j])
    ensures forall n :: n in infos ==> exists t :: t in natives && n == NativeInfo(id, t)
    ensures forall t :: t in natives ==> NativeInfo(id, t) in infos
  {
    forall n | n in infos ensures exists t :: t in natives && n == NativeInfo(id, t) {
      var j :| 0 <= j < |infos| && infos[j] == n;
      assert sorted[j] in sorted;
    }
    forall t | t in natives ensures NativeInfo(id, t) in infos {
      assert t in sorted;
      var j :| 0 <= j < |sorted| && sorted[j] == t;
      assert infos[j] == NativeInfo(id, t);
    }
  }

  method ConvertRoutes(cfg: Config, hash: DenomHash, id: ChainId, configs: seq<RouteConfig>) returns (routes: seq<BasicRoute>)
    requires forall i :: 0 <= i < |configs| ==> RouteConfigured(cfg, hash, id, configs[i])
    ensures |routes| == |configs|
    ensures forall i :: 0 <= i < |routes| ==> routes[i].toChainId == configs[i].toChainId && RouteBuilt(cfg, hash, id, routes[i])
  {
    routes := [];
    var i := 0;
    while i < |configs|
      invariant 0 <= i <= |configs| && |routes| == i
      invariant forall j :: 0 <= j < i ==> routes[j].toChainId == configs[j].toChainId && RouteBuilt(cfg, hash, id, routes[j])
    {
      var r := ConvertRoute(configs[i]);
      assert TokensBuilt(cfg, hash, id, r.toChainId, Lookup2(cfg.channels, id, r.toChainId).value, configs[i].allowedTokens);
      assert RouteBuilt(cfg, hash, id, r);
      routes := routes + [r];
      i := i + 1;
    }
  }

  ghost predicate ConvertedRoutes(cfg: Config, hash: DenomHash, id: ChainId, routes: seq<BasicRoute>) {
    && (forall r :: r in routes ==> RouteBuilt(cfg, hash, id, r))
    && (forall i, j :: 0 <= i < j < |routes| ==> routes[i].toChainId != routes[j].toChainId)
    && (forall to :: Lookup2(cfg.channels, id, to).Some? && to in cfg.inputs ==> exists r :: r in routes && r.toChainId == to)
  }

  method BuildSortedRoutes(cfg: Config, hash: DenomHash, id: ChainId) returns (routes: seq<BasicRoute>)
    ensures ConvertedRoutes(cfg, hash, id, routes)
    ensures SortedBy(routes, (r: BasicRoute) => r.toChainId)
  {
    var configs := BuildRoutesForChain(cfg, hash, id);
    var key := (r: RouteConfig) => r.toChainId;
    var sorted := SortStable(configs, key);
    SortStableSorts(configs, key);
    SortedRoutes(cfg, hash, id, configs, sorted);
    routes := ConvertRoutes(cfg, hash, id, sorted);
    RoutesConverted(cfg, hash, id, sorted, routes);
    forall i, j | 0 <= i < j < |routes| ensures !Less(routes[j].toChainId, routes[i].toChainId) {
      assert !Less(key(sorted[j]), key(sorted[i]));
    }
  }

  lemma RoutesConverted(cfg: Config, hash: DenomHash, id: ChainId, sorted: seq<RouteConfig>, routes: seq<BasicRoute>)
    requires RoutesBuilt(cfg, hash, id, sorted, if id in cfg.channels then cfg.channels[id].Keys else {})
    requires |routes| == |sorted|
    requires forall i :: 0 <= i < |routes| ==> routes[i].toChainId == sorted[i].toChainId && RouteBuilt(cfg, hash, id, routes[i])
    ensures ConvertedRoutes(cfg, hash, id, routes)
  {
    forall to | Lookup2(cfg.channels, id, to).Some? && to in cfg.inputs ensures exists r :: r in routes && r.toChainId == to {
      var i :| 0 <= i < |sorted| && sorted[i].toChainId == to;
      assert routes[i] in routes;
    }
    forall i, j | 0 <= i < j < |routes| ensures routes[i].toChainId != routes[j].toChainId {
      assert sorted[i].toChainId != sorted[j].toChainId;
    }
  }

  /** What the converter copies from a chain's configuration. */
  datatype Traits = Traits(hasPFM: bool, broker: bool, brokerId: string, contract: string, prefix: string)

  predicate HasTraits(c: PathfinderChain, t: Traits) {
    c.hasPFM == t.hasPFM && c.broker == t.broker && c.brokerId == t.brokerId && c.ibcHooksContract == t.contract && c.bech32Prefix == t.prefix
  }

  /** Build and convert one chain, tokens in the order of denoms and routes in the order of chain ids;
      name, flags and addresses come from the configuration unchanged. */
  method BuildChain(cfg: Config, hash: DenomHash, id: ChainId, t: Traits) returns (c: PathfinderChain)
    requires id in cfg.inputs
    ensures ChainBuilt(cfg, hash, c) && c.id == id && c.name == cfg.inputs[id].name && HasTraits(c, t)
    ensures |c.nativeTokens| == |NativeTokens(cfg, id)|
    ensures SortedBy(c.nativeTokens, (n: TokenInfo) => n.chainDenom) && SortedBy(c.routes, (r: BasicRoute) => r.toChainId)
  {
    var natives := ConvertNativeTokens(cfg, id);
    var routes := BuildSortedRoutes(cfg, hash, id);
    c := PathfinderChain(cfg.inputs[id].name, id, t.hasPFM, t.broker, t.brokerId, t.contract, t.prefix, natives, routes);
  }

  lemma SortedRoutes(cfg: Config, hash: DenomHash, id: ChainId, configs: seq<RouteConfig>, sorted: seq<RouteConfig>)
    requires multiset(sorted) == multiset(configs)
    requires RoutesBuilt(cfg, hash, id, configs, if id in cfg.channels then cfg.channels[id].Keys else {})
    ensures RoutesBuilt(cfg, hash, id, sorted, if id in cfg.channels then cfg.channels[id].Keys else {})
  {
    forall i | 0 <= i < |sorted| ensures sorted[i] in configs {
      assert sorted[i] in multiset(sorted);
    }
    var key := (r: RouteConfig) => r.toChainId;
    assert DistinctBy(configs, key);
    SortKeepsDistinct(configs, sorted, key);
    forall i, j | 0 <= i < j < |sorted| ensures sorted[i].toChainId != sorted[j].toChainId {
      assert key(sorted[i]) != key(sorted[j]);
    }
    forall to | to in (if id in cfg.channels then cfg.channels[id].Keys else {}) && to in cfg.inputs
      ensures exists i :: 0 <= i < |sorted| && sorted[i].toChainId == to
    {
      var i :| 0 <= i < |configs| && configs[i].toChainId == to;
      assert configs[i] in multiset(configs);
      assert configs[i] in sorted;
    }
  }

  lemma TwiceInSequence<T>(s: seq<T>, i: nat, j: nat)
    requires i < j < |s| && s[i] == s[j]
    ensures multiset(s)[s[i]] >= 2
  {
    assert s == s[..j] + [s[j]] + s[j + 1..];
    assert s[i] in s[..j];
  }

  ghost predicate DistinctBy<T>(s: seq<T>, key: T -> string) {
    forall i, j :: 0 <= i < j < |s| ==> key(s[i]) != key(s[j])
  }

  lemma {:induction false} OnceInSequence<T>(s: seq<T>, key: T -> string, x: T)
    requires DistinctBy(s, key)
    ensures multiset(s)[x] <= 1
  {
    if s != [] {
      var n := |s| - 1;
      assert s == s[..n] + [s[n]];
      OnceInSequence(s[..n], key, x);
      forall i | 0 <= i < n ensures s[i] != s[n] {
        assert key(s[i]) != key(s[n]);
      }
      assert s[n] !in s[..n];
    }
  }

  /** Reordering keeps distinct keys distinct. */
  lemma SortKeepsDistinct<T>(s: seq<T>, sorted: seq<T>, key: T -> string)
    requires multiset(sorted) == multiset(s) && DistinctBy(s, key)
    ensures DistinctBy(sorted, key)
  {
    forall i, j | 0 <= i < j < |sorted| ensures key(sorted[i]) != key(sorted[j]) {
      if key(sorted[i]) == key(sorted[j]) {
        assert sorted[i] in multiset(sorted) && sorted[j] in multiset(sorted);
        var m :| 0 <= m < |s| && s[m] == sorted[i];
        var n :| 0 <= n < |s| && s[n] == sorted[j];
        assert key(s[m]) == key(s[n]);
        TwiceInSequence(sorted, i, j);
        OnceInSequence(s, key, sorted[i]);
      }
    }
  }

  // ---------------------------------------------------------------------------------------------
  // All chains
  // ---------------------------------------------------------------------------------------------

  /** The router's chains are the built ones, each once. */
  ghost predicate ChainsBuilt(cfg: Config, hash: DenomHash, chains: seq<PathfinderChain>) {
    && (forall i :: 0 <= i < |chains| ==> ChainBuilt(cfg, hash, chains[i]))
    && (forall i, j :: 0 <= i < j < |chains| ==> chains[i].id != chains[j].id)
  }

  ghost predicate Present(chains: seq<PathfinderChain>, id: ChainId) {
    exists i :: 0 <= i < |chains| && chains[i].id == id
  }

  /** Every route between chains whose tokens are apart carries exactly what the configuration allows. */
  ghost predicate RoutesCarryExactly(cfg: Config, hash: DenomHash, chains: seq<PathfinderChain>) {
    forall k, r :: k in chains && r in k.routes ==>
      && Lookup2(cfg.channels, k.id, r.toChainId).Some?
      && (TokensApart(cfg, hash, k.id, r.toChainId, Lookup2(cfg.channels, k.id, r.toChainId).value) ==> CarriesExactly(cfg, hash, k.id, r))
  }

  lemma BuiltChainsCarry(cfg: Config, hash: DenomHash, chains: seq<PathfinderChain>)
    requires ChainsBuilt(cfg, hash, chains)
    ensures RoutesCarryExactly(cfg, hash, chains)
  {
    forall k, r | k in chains && r in k.routes
      ensures Lookup2(cfg.channels, k.id, r.toChainId).Some?
      ensures TokensApart(cfg, hash, k.id, r.toChainId, Lookup2(cfg.channels, k.id, r.toChainId).value) ==> CarriesExactly(cfg, hash, k.id, r)
    {
      var i :| 0 <= i < |chains| && chains[i] == k;
      assert ChainBuilt(cfg, hash, chains[i]) && RouteBuilt(cfg, hash, k.id, r);
      if TokensApart(cfg, hash, k.id, r.toChainId, Lookup2(cfg.channels, k.id, r.toChainId).value) {
        BuiltRouteCarries(cfg, hash, k.id, r);
      }
    }
  }

  /** Every configured chain, built, converted and sorted by id; no chains are an error. */
  method Convert(cfg: Config, hash: DenomHash, ids: seq<ChainId>, traits: map<ChainId, Traits>)
    returns (converted: Option<seq<PathfinderChain>>)
    requires forall id :: id in ids ==> id in cfg.inputs && id in traits
    requires forall i, j :: 0 <= i < j < |ids| ==> ids[i] != ids[j]
    ensures converted.None? <==> ids == []
    ensures converted.Some? ==>
              var chains := converted.value;
              && ChainsBuilt(cfg, hash, chains) && |chains| == |ids|
              && (forall id :: id in ids ==> Present(chains, id))
              && (forall c :: c in chains ==> c.id in traits && HasTraits(c, traits[c.id]))
              && SortedBy(chains, (c: PathfinderChain) => c.id)
              && RoutesCarryExactly(cfg, hash, chains)
  {
    if |ids| == 0 { return None; }
    var built: seq<PathfinderChain> := [];
    var i := 0;
    while i < |ids|
      invariant 0 <= i <= |ids| && |built| == i
      invariant forall j :: 0 <= j < i ==> ChainBuilt(cfg, hash, built[j]) && built[j].id == ids[j]
      invariant forall j :: 0 <= j < i ==> HasTraits(built[j], traits[ids[j]])
    {
      var c := BuildChain(cfg, hash, ids[i], traits[ids[i]]);
      built := built + [c];
      i := i + 1;
    }
    var chains := SortStable(built, (c: PathfinderChain) => c.id);
    ConvertedChains(cfg, hash, built, ids, traits);
    BuiltChainsCarry(cfg, hash, chains);
    return Some(chains);
  }

  lemma ConvertedChains(cfg: Config, hash: DenomHash, built: seq<PathfinderChain>, ids: seq<ChainId>, traits: map<ChainId, Traits>)
    requires |built| == |ids| && forall i, j :: 0 <= i < j < |ids| ==> ids[i] != ids[j]
    requires forall j :: 0 <= j < |ids| ==> ids[j] in traits && ChainBuilt(cfg, hash, built[j]) && built[j].id == ids[j]
    requires forall j :: 0 <= j < |ids| ==> HasTraits(built[j], traits[ids[j]])
    ensures var chains := SortStable(built, (c: PathfinderChain) => c.id);
            && ChainsBuilt(cfg, hash, chains) && |chains| == |ids|
            && (forall id :: id in ids ==> Present(chains, id))
            && (forall c :: c in chains ==> c.id in traits && HasTraits(c, traits[c.id]))
            && SortedBy(chains, (c: PathfinderChain) => c.id)
  {
    var key := (c: PathfinderChain) => c.id;
    var chains := SortStable(built, key);
    SortStableSorts(built, key);
    SortStableMembers(built, key);
    SortKeepsDistinct(built, chains, key);
    SortedChains(built, chains, ids);
    forall j, k | 0 <= j < k < |chains| ensures chains[j].id != chains[k].id {
      assert key(chains[j]) != key(chains[k]);
    }
    forall j | 0 <= j < |chains| ensures ChainBuilt(cfg, hash, chains[j]) {
      assert chains[j] in built;
    }
  }

  lemma SortedChains(built: seq<PathfinderChain>, chains: seq<PathfinderChain>, ids: seq<ChainId>)
    requires forall c :: c in chains <==> c in built
    requires |built| == |ids| && forall j :: 0 <= j < |built| ==> built[j].id == ids[j]
    ensures forall id :: id in ids ==> Present(chains, id)
  {
    forall id | id in ids ensures Present(chains, id) {
      var j :| 0 <= j < |ids| && ids[j] == id;
      assert built[j] in chains;
      var k :| 0 <= k < |chains| && chains[k] == built[j];
    }
  }
}
