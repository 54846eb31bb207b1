/** Breadth-first search for a swap-free path (pathfinder/router/route_indirect.go).

    findTokenByOrigin ranges over a Go map, so when a chain lists two denoms of one origin the
    token it returns is arbitrary. A hop is therefore of two kinds: it MAY be taken if some choice
    of token is allowed on the route, and it MUST be taken if every choice is. */
module IndirectRouting {
  import opened RouterTypes
  import opened RouteIndexing

  datatype IndirectRouteInfo = IndirectRouteInfo(path: seq<ChainId>, routes: seq<BasicRoute>, token: TokenInfo)

  /** One search: the index, the chain it starts from and the token it carries. */
  datatype Search = Search(ix: IndexMaps, from: ChainId, token: TokenInfo)

  // ---------------------------------------------------------------------------------------------
  // Paths
  // ---------------------------------------------------------------------------------------------

  ghost predicate SameOrigin(t: TokenInfo, originChain: ChainId, baseDenom: Denom) {
    t.originChain == originChain && t.baseDenom == baseDenom
  }

  ghost predicate TokenOn(ix: IndexMaps, c: ChainId, t: TokenInfo) {
    exists d :: Lookup2(ix.denomToTokenInfo, c, d) == Some(t)
  }

  /** The tokens the search can hold on chain c. */
  ghost predicate MayHold(s: Search, c: ChainId, t: TokenInfo) {
    if c == s.from then t == s.token
    else TokenOn(s.ix, c, t) && SameOrigin(t, s.token.originChain, s.token.baseDenom)
  }

  ghost predicate MayHop(s: Search, a: ChainId, b: ChainId) {
    var route := Lookup2(s.ix.chainRoutes, a, b);
    route.Some? && exists t :: MayHold(s, a, t) && t.chainDenom in route.value.allowedTokens
  }

  ghost predicate MustHop(s: Search, a: ChainId, b: ChainId) {
    MayHop(s, a, b) &&
    forall t :: MayHold(s, a, t) ==> t.chainDenom in Lookup2(s.ix.chainRoutes, a, b).value.allowedTokens
  }

  ghost predicate MayPath(s: Search, p: seq<ChainId>) {
    |p| > 0 && p[0] == s.from && forall i :: 0 < i < |p| ==> MayHop(s, p[i - 1], p[i])
  }

  ghost predicate MustPath(s: Search, p: seq<ChainId>) {
    |p| > 0 && p[0] == s.from && forall i :: 0 < i < |p| ==> MustHop(s, p[i - 1], p[i])
  }

  ghost predicate Distinct<T>(p: seq<T>) {
    forall i, j :: 0 <= i < j < |p| ==> p[i] != p[j]
  }

  /** At most one denom per origin on each chain, as far as routes can tell. */
  ghost predicate Unambiguous(s: Search) {
    forall c, t, t' :: MayHold(s, c, t) && MayHold(s, c, t') ==> t.chainDenom == t'.chainDenom
  }

  ghost predicate SameToken(ix: IndexMaps, req: RouteRequest) {
    var src := Lookup2(ix.denomToTokenInfo, req.chainFrom, req.tokenFromDenom);
    var dst := Lookup2(ix.denomToTokenInfo, req.chainTo, req.tokenToDenom);
    src.Some? && dst.Some? && SameOrigin(src.value, dst.value.originChain, dst.value.baseDenom)
  }

  ghost function SearchFor(ix: IndexMaps, req: RouteRequest): Search
    requires SameToken(ix, req)
  {
    Search(ix, req.chainFrom, Lookup2(ix.denomToTokenInfo, req.chainFrom, req.tokenFromDenom).value)
  }

  /** A simple path along indexed routes that allow the token. */
  ghost predicate SoundRoute(s: Search, to: ChainId, r: IndirectRouteInfo) {
    && MayPath(s, r.path) && r.path[|r.path| - 1] == to && Distinct(r.path)
    && |r.routes| == |r.path| - 1
    && (forall i :: 0 <= i < |r.routes| ==> Lookup2(s.ix.chainRoutes, r.path[i], r.path[i + 1]) == Some(r.routes[i]))
    && r.token == s.token
  }

  /** What FindIndirectRoute may answer. */
  ghost predicate IndirectAnswer(ix: IndexMaps, req: RouteRequest, r: Option<IndirectRouteInfo>) {
    if !SameToken(ix, req) then r.None?
    else
      var s := SearchFor(ix, req);
      && (r.Some? ==> SoundRoute(s, req.chainTo, r.value))
      && (forall p :: MustPath(s, p) && p[|p| - 1] == req.chainTo ==> r.Some? && |r.value.path| <= |p|)
  }

  /** With one denom per origin the search is sound, complete and shortest. */
  lemma UnambiguousSearchIsExact(ix: IndexMaps, req: RouteRequest, r: Option<IndirectRouteInfo>)
    requires SameToken(ix, req) && IndirectAnswer(ix, req, r) && Unambiguous(SearchFor(ix, req))
    ensures r.Some? <==> exists p :: MayPath(SearchFor(ix, req), p) && p[|p| - 1] == req.chainTo
    ensures r.Some? ==> SoundRoute(SearchFor(ix, req), req.chainTo, r.value)
    ensures r.Some? ==> forall p :: MayPath(SearchFor(ix, req), p) && p[|p| - 1] == req.chainTo ==> |r.value.path| <= |p|
  {
    var s := SearchFor(ix, req);
    forall a, b | MayHop(s, a, b) ensures MustHop(s, a, b) {
      var t :| MayHold(s, a, t) && t.chainDenom in Lookup2(s.ix.chainRoutes, a, b).value.allowedTokens;
      forall t' | MayHold(s, a, t') ensures t'.chainDenom == t.chainDenom {}
    }
    forall p | MayPath(s, p) ensures MustPath(s, p) {}
  }

  // ---------------------------------------------------------------------------------------------
  // Search nodes
  // ---------------------------------------------------------------------------------------------

  /** The Go pathNode: a nil route and a nil prev come together, on the start node. */
  datatype PathNode = Start(chainId: ChainId) | Via(chainId: ChainId, route: BasicRoute, prev: PathNode)

  ghost function PathTo(n: PathNode): seq<ChainId> {
    match n
    case Start(c) => [c]
    case Via(c, _, prev) => PathTo(prev) + [c]
  }

  ghost function RoutesTo(n: PathNode): seq<BasicRoute> {
    match n
    case Start(_) => []
    case Via(_, route, prev) => RoutesTo(prev) + [route]
  }

  ghost function Depth(n: PathNode): nat {
    match n
    case Start(_) => 0
    case Via(_, _, prev) => Depth(prev) + 1
  }

  ghost predicate NodeOk(s: Search, n: PathNode) {
    match n
    case Start(c) => c == s.from
    case Via(c, route, prev) =>
      && NodeOk(s, prev) && c !in PathTo(prev)
      && MayHop(s, prev.chainId, c) && Lookup2(s.ix.chainRoutes, prev.chainId, c) == Some(route)
  }

  lemma {:induction false} NodeGivesPath(s: Search, n: PathNode)
    requires NodeOk(s, n)
    ensures |PathTo(n)| == Depth(n) + 1 && PathTo(n)[Depth(n)] == n.chainId
    ensures SoundRoute(s, n.chainId, IndirectRouteInfo(PathTo(n), RoutesTo(n), s.token))
  {
    if n.Via? {
      NodeGivesPath(s, n.prev);
      var p, q := PathTo(n.prev), PathTo(n);
      forall i | 0 < i < |q| ensures MayHop(s, q[i - 1], q[i]) {
        if i < |p| { assert q[i - 1] == p[i - 1] && q[i] == p[i]; }
      }
      forall i | 0 <= i < |RoutesTo(n)|
        ensures Lookup2(s.ix.chainRoutes, q[i], q[i + 1]) == Some(RoutesTo(n)[i])
      {
        if i < |p| - 1 { assert q[i] == p[i] && q[i + 1] == p[i + 1]; }
      }
    }
  }

  /** Walks prev pointers, prepending to both slices. */
  method Reconstruct(s: Search, current: PathNode) returns (r: IndirectRouteInfo)
    requires NodeOk(s, current)
    ensures r == IndirectRouteInfo(PathTo(current), RoutesTo(current), s.token)
  {
    var path: seq<ChainId>, routes: seq<BasicRoute> := [], [];
    var node := Some(current);
    while node.Some?
      invariant PathTo(current) == (if node.Some? then PathTo(node.value) else []) + path
      invariant RoutesTo(current) == (if node.Some? then RoutesTo(node.value) else []) + routes
      decreases if node.Some? then Depth(node.value) + 1 else 0
    {
      path := [node.value.chainId] + path;
      match node.value {
        case Start(_) => node := None;
        case Via(_, route, prev) =>
          routes := [route] + routes;
          node := Some(prev);
      }
    }
    return IndirectRouteInfo(path, routes, s.token);
  }

  // ---------------------------------------------------------------------------------------------
  // The breadth-first frontier
  // ---------------------------------------------------------------------------------------------

  ghost predicate PathVisited(n: PathNode, visited: set<ChainId>) {
    forall c {:trigger c in PathTo(n)} :: c in PathTo(n) ==> c in visited
  }

  /** A queued node is a sound partial path over visited chains, not yet taken off the queue. */
  ghost predicate Queued(s: Search, n: PathNode, visited: set<ChainId>, done: set<ChainId>, depth: map<ChainId, nat>) {
    && NodeOk(s, n) && n.chainId in visited && n.chainId !in done
    && n.chainId in depth && depth[n.chainId] == Depth(n)
    && PathVisited(n, visited)
  }

  ghost predicate AllQueued(s: Search, queue: seq<PathNode>, visited: set<ChainId>, done: set<ChainId>, depth: map<ChainId, nat>) {
    forall i {:trigger Queued(s, queue[i], visited, done, depth)} :: 0 <= i < |queue| ==> Queued(s, queue[i], visited, done, depth)
  }

  ghost predicate InQueue(queue: seq<PathNode>, c: ChainId) {
    exists i :: 0 <= i < |queue| && queue[i].chainId == c
  }

  ghost predicate Covered(queue: seq<PathNode>, visited: set<ChainId>, done: set<ChainId>) {
    forall c {:trigger InQueue(queue, c)} :: c in visited && c !in done ==> InQueue(queue, c)
  }

  /** Every chain enters the queue at most once, in order of depth, over at most two levels. */
  ghost predicate Layered(queue: seq<PathNode>, level: nat) {
    && (forall i, j :: 0 <= i < j < |queue| ==> queue[i].chainId != queue[j].chainId && Depth(queue[i]) <= Depth(queue[j]))
    && (forall i :: 0 <= i < |queue| ==> level <= Depth(queue[i]) <= level + 1)
  }

  /** done: the chains taken off the queue. */
  ghost predicate Frontier(s: Search, queue: seq<PathNode>, visited: set<ChainId>, done: set<ChainId>,
                           depth: map<ChainId, nat>, level: nat)
  {
    && depth.Keys == visited && done <= visited
    && AllQueued(s, queue, visited, done, depth)
    && Covered(queue, visited, done)
    && Layered(queue, level)
    && (forall c :: c in done ==> depth[c] <= level)
    && s.from in visited && depth[s.from] == 0
  }

  ghost predicate Expanded(s: Search, visited: set<ChainId>, done: set<ChainId>, depth: map<ChainId, nat>)
    requires depth.Keys == visited && done <= visited
  {
    forall u, v :: u in done && MustHop(s, u, v) ==> v in visited && depth[v] <= depth[u] + 1
  }

  /** A must-path shorter than the frontier stays among the chains already taken off the queue. */
  lemma {:induction false} ShortPathsAreDone(s: Search, queue: seq<PathNode>, visited: set<ChainId>, done: set<ChainId>,
                                             depth: map<ChainId, nat>, level: nat, p: seq<ChainId>)
    requires Frontier(s, queue, visited, done, depth, level) && Expanded(s, visited, done, depth)
    requires MustPath(s, p)
    requires queue == [] || |p| <= Depth(queue[0])
    ensures p[|p| - 1] in done && depth[p[|p| - 1]] < |p|
  {
    var c := p[|p| - 1];
    if |p| > 1 {
      var q := p[..|p| - 1];
      assert forall i :: 0 < i < |q| ==> MustHop(s, p[i - 1], p[i]) ==> MustHop(s, q[i - 1], q[i]);
      ShortPathsAreDone(s, queue, visited, done, depth, level, q);
      assert MustHop(s, q[|q| - 1], c);
    }
    assert c in visited && depth[c] < |p|;
    assert c !in done ==> InQueue(queue, c);
    forall i | 0 <= i < |queue| ensures queue[i].chainId != c {
      assert Queued(s, queue[i], visited, done, depth);
      assert Depth(queue[0]) <= Depth(queue[i]);
    }
  }

  function Targets(ix: IndexMaps): set<ChainId> {
    set a, b | a in ix.chainRoutes && b in ix.chainRoutes[a] :: b
  }

  method FindTokenByOrigin(ix: IndexMaps, chainId: ChainId, originChain: ChainId, baseDenom: Denom)
    returns (r: Option<TokenInfo>)
    ensures r.Some? ==> TokenOn(ix, chainId, r.value) && SameOrigin(r.value, originChain, baseDenom)
    ensures r.None? ==> forall t :: TokenOn(ix, chainId, t) ==> !SameOrigin(t, originChain, baseDenom)
  {
    if chainId !in ix.denomToTokenInfo { return None; }
    var tokens := ix.denomToTokenInfo[chainId];
    var rest := tokens.Keys;
    while rest != {}
      invariant rest <= tokens.Keys
      invariant forall d :: d in tokens && d !in rest ==> !SameOrigin(tokens[d], originChain, baseDenom)
    {
      var d :| d in rest;
      if tokens[d].originChain == originChain && tokens[d].baseDenom == baseDenom {
        assert Lookup2(ix.denomToTokenInfo, chainId, d) == Some(tokens[d]);
        return Some(tokens[d]);
      }
      rest := rest - {d};
    }
    return None;
  }

  lemma EnqueueQueued(s: Search, queue: seq<PathNode>, visited: set<ChainId>, done: set<ChainId>,
                      depth: map<ChainId, nat>, node: PathNode)
    requires node.Via? && AllQueued(s, queue, visited, done, depth) && done <= visited
    requires NodeOk(s, node) && node.chainId !in visited
    requires PathVisited(node.prev, visited)
    ensures AllQueued(s, queue + [node], visited + {node.chainId}, done, depth[node.chainId := Depth(node)])
  {
    var q, v, d := queue + [node], visited + {node.chainId}, depth[node.chainId := Depth(node)];
    forall i | 0 <= i < |q| ensures Queued(s, q[i], v, done, d) {
      if i < |queue| { assert q[i] == queue[i] && Queued(s, queue[i], visited, done, depth); }
    }
  }

  lemma EnqueueCovered(queue: seq<PathNode>, visited: set<ChainId>, done: set<ChainId>, node: PathNode)
    requires Covered(queue, visited, done)
    ensures Covered(queue + [node], visited + {node.chainId}, done)
  {
    var q := queue + [node];
    forall c | c in visited + {node.chainId} && c !in done ensures InQueue(q, c) {
      if c == node.chainId {
        assert q[|queue|].chainId == c;
      } else {
        assert InQueue(queue, c);
        var i :| 0 <= i < |queue| && queue[i].chainId == c;
        assert q[i].chainId == c;
      }
    }
  }

  lemma EnqueueLayered(s: Search, queue: seq<PathNode>, visited: set<ChainId>, done: set<ChainId>,
                       depth: map<ChainId, nat>, node: PathNode)
    requires node.Via? && AllQueued(s, queue, visited, done, depth) && node.chainId !in visited
    requires Layered(queue, Depth(node.prev))
    ensures Layered(queue + [node], Depth(node.prev))
  {
    forall i | 0 <= i < |queue| ensures queue[i].chainId != node.chainId && Depth(queue[i]) <= Depth(node) {
      assert Queued(s, queue[i], visited, done, depth);
    }
  }

  lemma DequeueQueued(s: Search, queue: seq<PathNode>, visited: set<ChainId>, done: set<ChainId>,
                      depth: map<ChainId, nat>, level: nat)
    requires AllQueued(s, queue, visited, done, depth) && Layered(queue, level) && queue != []
    ensures AllQueued(s, queue[1..], visited, done + {queue[0].chainId}, depth)
  {
    var q := queue[1..];
    forall i | 0 <= i < |q| ensures Queued(s, q[i], visited, done + {queue[0].chainId}, depth) {
      assert q[i] == queue[i + 1] && Queued(s, queue[i + 1], visited, done, depth);
      assert queue[0].chainId != queue[i + 1].chainId;
    }
  }

  lemma DequeueCovered(queue: seq<PathNode>, visited: set<ChainId>, done: set<ChainId>)
    requires Covered(queue, visited, done) && queue != []
    ensures Covered(queue[1..], visited, done + {queue[0].chainId})
  {
    forall c | c in visited && c !in done + {queue[0].chainId} ensures InQueue(queue[1..], c) {
      assert InQueue(queue, c);
      var i :| 0 <= i < |queue| && queue[i].chainId == c;
      assert queue[1..][i - 1].chainId == c;
    }
  }

  lemma DequeueLayered(queue: seq<PathNode>, level: nat)
    requires Layered(queue, level) && queue != []
    ensures Layered(queue[1..], Depth(queue[0]))
  {
    forall i | 0 <= i < |queue[1..]| ensures queue[1..][i] == queue[i + 1] {}
  }

  lemma Enqueue(s: Search, queue: seq<PathNode>, visited: set<ChainId>, done: set<ChainId>,
                depth: map<ChainId, nat>, node: PathNode)
    requires node.Via? && Frontier(s, queue, visited, done, depth, Depth(node.prev))
    requires NodeOk(s, node) && node.chainId !in visited
    requires PathVisited(node.prev, visited)
    ensures Frontier(s, queue + [node], visited + {node.chainId}, done, depth[node.chainId := Depth(node)], Depth(node.prev))
  {
    EnqueueQueued(s, queue, visited, done, depth, node);
    EnqueueCovered(queue, visited, done, node);
    EnqueueLayered(s, queue, visited, done, depth, node);
  }

  lemma Dequeue(s: Search, queue: seq<PathNode>, visited: set<ChainId>, done: set<ChainId>,
                depth: map<ChainId, nat>, level: nat)
    requires Frontier(s, queue, visited, done, depth, level) && queue != []
    ensures Frontier(s, queue[1..], visited, done + {queue[0].chainId}, depth, Depth(queue[0]))
    ensures Queued(s, queue[0], visited, done, depth)
  {
    assert Queued(s, queue[0], visited, done, depth);
    DequeueQueued(s, queue, visited, done, depth, level);
    DequeueCovered(queue, visited, done);
    DequeueLayered(queue, level);
  }

  lemma VisitedDepth(s: Search, queue: seq<PathNode>, visited: set<ChainId>, done: set<ChainId>,
                     depth: map<ChainId, nat>, level: nat, v: ChainId)
    requires Frontier(s, queue, visited, done, depth, level) && v in visited
    ensures v in depth && depth[v] <= level + 1
  {
    if v !in done {
      assert InQueue(queue, v);
      var i :| 0 <= i < |queue| && queue[i].chainId == v;
      assert Queued(s, queue[i], visited, done, depth);
    }
  }

  /** Whether the token, under whichever denom the chain happens to list it, may take the route. */
  method TokenAllowed(s: Search, chainId: ChainId, next: ChainId, route: BasicRoute) returns (allowed: bool)
    requires Lookup2(s.ix.chainRoutes, chainId, next) == Some(route)
    ensures allowed ==> MayHop(s, chainId, next)
    ensures !allowed ==> !MustHop(s, chainId, next)
  {
    var token := Some(s.token);
    if chainId != s.from {
      token := FindTokenByOrigin(s.ix, chainId, s.token.originChain, s.token.baseDenom);
    }
    if token.None? { return false; }
    assert MayHold(s, chainId, token.value);
    return token.value.chainDenom in route.allowedTokens;
  }

  /** The neighbour loop of one dequeued node, over a Go map in any order. */
  method ExploreNeighbours(s: Search, current: PathNode, q0: seq<PathNode>, v0: set<ChainId>,
                           ghost done: set<ChainId>, ghost depth0: map<ChainId, nat>)
    returns (queue: seq<PathNode>, visited: set<ChainId>, ghost depth: map<ChainId, nat>)
    requires Frontier(s, q0, v0, done, depth0, Depth(current))
    requires NodeOk(s, current) && current.chainId in done && depth0[current.chainId] == Depth(current)
    requires PathVisited(current, v0)
    ensures Frontier(s, queue, visited, done, depth, Depth(current))
    ensures v0 <= visited <= v0 + Targets(s.ix)
    ensures forall c :: c in v0 ==> depth[c] == depth0[c]
    ensures forall v :: MustHop(s, current.chainId, v) ==> v in visited && depth[v] <= Depth(current) + 1
  {
    queue, visited, depth := q0, v0, depth0;
    if current.chainId !in s.ix.chainRoutes { return; }
    var routes := s.ix.chainRoutes[current.chainId];
    var rest := routes.Keys;
    while rest != {}
      invariant rest <= routes.Keys
      invariant Frontier(s, queue, visited, done, depth, Depth(current))
      invariant v0 <= visited <= v0 + Targets(s.ix)
      invariant forall c :: c in v0 ==> depth[c] == depth0[c]
      invariant forall v :: v in routes && v !in rest && MustHop(s, current.chainId, v) ==> v in visited
    {
      var next :| next in rest;
      rest := rest - {next};
      var route := routes[next];
      if next in visited { continue; }
      var allowed := TokenAllowed(s, current.chainId, next, route);
      if !allowed { continue; }
      Enqueue(s, queue, visited, done, depth, Via(next, route, current));
      visited := visited + {next};
      queue := queue + [Via(next, route, current)];
      depth := depth[next := Depth(current) + 1];
    }
    forall v | MustHop(s, current.chainId, v)
      ensures v in visited && depth[v] <= Depth(current) + 1
    {
      assert v in routes;
      VisitedDepth(s, queue, visited, done, depth, Depth(current), v);
    }
  }

  method FindIndirectRoute(ix: IndexMaps, req: RouteRequest) returns (r: Option<IndirectRouteInfo>)
    ensures IndirectAnswer(ix, req, r)
  {
    var sourceToken := Lookup2(ix.denomToTokenInfo, req.chainFrom, req.tokenFromDenom);
    var destToken := Lookup2(ix.denomToTokenInfo, req.chainTo, req.tokenToDenom);
    if sourceToken.None? || destToken.None? { return None; }
    if sourceToken.value.originChain != destToken.value.originChain
       || sourceToken.value.baseDenom != destToken.value.baseDenom { return None; }

    var s := Search(ix, req.chainFrom, sourceToken.value);
    var queue := [Start(req.chainFrom)];
    var visited := {req.chainFrom};
    ghost var done: set<ChainId> := {};
    ghost var depth: map<ChainId, nat> := map[req.chainFrom := 0];
    ghost var level := 0;
    assert queue[0].chainId == req.chainFrom;
    ghost var all := {req.chainFrom} + Targets(ix);
    while |queue| > 0
      invariant Frontier(s, queue, visited, done, depth, level)
      invariant Expanded(s, visited, done, depth)
      invariant visited <= all && req.chainTo !in done
      decreases all - done
    {
      var current := queue[0];
      Dequeue(s, queue, visited, done, depth, level);
      if current.chainId == req.chainTo {
        forall p | MustPath(s, p) && p[|p| - 1] == req.chainTo ensures Depth(current) + 1 <= |p| {
          if |p| <= Depth(current) {
            ShortPathsAreDone(s, queue, visited, done, depth, level, p);
            assert false;
          }
        }
        NodeGivesPath(s, current);
        var info := Reconstruct(s, current);
        return Some(info);
      }
      assert current.chainId in all - done;
      level := Depth(current);
      done := done + {current.chainId};
      var seen := visited;
      ghost var was := depth;
      queue, visited, depth := ExploreNeighbours(s, current, queue[1..], visited, done, depth);
    }
    forall p | MustPath(s, p) ensures p[|p| - 1] != req.chainTo {
      ShortPathsAreDone(s, queue, visited, done, depth, level, p);
    }
    return None;
  }
}
