/** Computing routes and denoms from configuration (config_manager/enriched/route_builder.go) and
    turning them into router chains (config_manager/output/pathfinder_converter.go). */
module RouteBuilding {
  import opened RouterTypes

  datatype TokenMeta = TokenMeta(denom: Denom, symbol: string, exponent: int, allowedDestinations: seq<ChainId>,
                                 originChain: ChainId, originDenom: Denom)

  datatype ChainInput = ChainInput(name: string, registry: string, tokens: seq<TokenMeta>)

  datatype ChannelInfo = ChannelInfo(fromChainId: ChainId, toChainId: ChainId, channelId: string,
                                     counterpartyChannelId: string, portId: string, connectionId: string, status: string)

  datatype IbcChainData = IbcChainData(chainName: string, connectionId: string)
  datatype ChannelEnd = ChannelEnd(channelId: string, portId: string)
  datatype IbcChannelData = IbcChannelData(chain1: ChannelEnd, chain2: ChannelEnd, preferred: bool, status: string)
  datatype ChainIbcData = ChainIbcData(chain1: IbcChainData, chain2: IbcChainData, channels: seq<IbcChannelData>)

  datatype RouteTokenInfo = RouteTokenInfo(sourceDenom: Denom, destinationDenom: Denom, baseDenom: Denom,
                                           originChain: ChainId, symbol: string, decimals: int)

  /** SHA-256 of a trace, as an "ibc/..." denom. */
  type DenomHash = string -> Denom

  type Channels = map<ChainId, map<ChainId, ChannelInfo>>

  predicate IsNative(t: TokenMeta) { t.originChain == "" }

  function NativeOnly(ts: seq<TokenMeta>): seq<TokenMeta> {
    if ts == [] then []
    else NativeOnly(ts[..|ts| - 1]) + if IsNative(ts[|ts| - 1]) then [ts[|ts| - 1]] else []
  }

  function RoutableOnly(ts: seq<TokenMeta>): seq<TokenMeta> {
    if ts == [] then []
    else RoutableOnly(ts[..|ts| - 1]) + if IsNative(ts[|ts| - 1]) then [] else [ts[|ts| - 1]]
  }

  lemma {:induction false} Categories(ts: seq<TokenMeta>, t: TokenMeta)
    ensures t in NativeOnly(ts) <==> t in ts && t.originChain == ""
    ensures t in RoutableOnly(ts) <==> t in ts && t.originChain != ""
  {
    if ts != [] {
      Categories(ts[..|ts| - 1], t);
      assert ts == ts[..|ts| - 1] + [ts[|ts| - 1]];
    }
  }

  // ---------------------------------------------------------------------------------------------
  // The channel map
  // ---------------------------------------------------------------------------------------------

  function UpperChar(c: char): char { if 'a' <= c <= 'z' then c - 'a' + 'A' else c }

  function Upper(s: string): string {
    seq(|s|, i requires 0 <= i < |s| => UpperChar(s[i]))
  }

  predicate Usable(c: IbcChannelData) {
    c.preferred && (Upper(c.status) == "ACTIVE" || Upper(c.status) == "LIVE")
  }

  function FirstUsable(channels: seq<IbcChannelData>): Option<IbcChannelData> {
    if channels == [] then None
    else if Usable(channels[0]) then Some(channels[0]) else FirstUsable(channels[1..])
  }

  /** s is t, which is in capitals, or has small letters for some of them. */
  ghost predicate Spells(s: string, t: string) {
    |s| == |t| && forall i :: 0 <= i < |s| ==> s[i] == t[i] || ('a' <= s[i] <= 'z' && s[i] as int == t[i] as int + 32)
  }

  lemma UpperSpells(s: string, t: string)
    requires forall i :: 0 <= i < |t| ==> 'A' <= t[i] <= 'Z'
    ensures Upper(s) == t <==> Spells(s, t)
  {
    if Upper(s) == t {
      forall i | 0 <= i < |s| ensures s[i] == t[i] || ('a' <= s[i] <= 'z' && s[i] as int == t[i] as int + 32) {
        assert UpperChar(s[i]) == Upper(s)[i];
      }
    }
  }

  /** The channel used for a registry entry: the first that is preferred and whose status spells
      ACTIVE or LIVE. */
  lemma {:induction false} FirstUsableIs(channels: seq<IbcChannelData>)
    ensures var c := FirstUsable(channels);
            && (c.None? <==> forall k :: 0 <= k < |channels| ==> !InUse(channels[k]))
            && (c.Some? ==> exists k :: 0 <= k < |channels| && channels[k] == c.value && InUse(channels[k])
                                        && forall j :: 0 <= j < k ==> !InUse(channels[j]))
  {
    if channels != [] {
      UpperSpells(channels[0].status, "ACTIVE");
      UpperSpells(channels[0].status, "LIVE");
      FirstUsableIs(channels[1..]);
      assert forall k :: 0 < k < |channels| ==> channels[1..][k - 1] == channels[k];
      if !InUse(channels[0]) && FirstUsable(channels[1..]).Some? {
        var k :| 0 <= k < |channels[1..]| && channels[1..][k] == FirstUsable(channels[1..]).value && InUse(channels[1..][k])
                 && forall j :: 0 <= j < k ==> !InUse(channels[1..][j]);
        assert channels[k + 1] == FirstUsable(channels).value;
        assert forall j :: 0 < j < k + 1 ==> channels[j] == channels[1..][j - 1];
      }
    }
  }

  ghost predicate InUse(c: IbcChannelData) {
    c.preferred && (Spells(c.status, "ACTIVE") || Spells(c.status, "LIVE"))
  }

  /** The registry entry connects a, its first chain, to b, or the other way round. */
  ghost predicate Joins(byRegistry: map<string, ChainId>, data: ChainIbcData, a: ChainId, b: ChainId) {
    && a != "" && b != "" && (exists c :: c in data.channels && InUse(c))
    && ((IdOf(byRegistry, data.chain1.chainName) == a && IdOf(byRegistry, data.chain2.chainName) == b)
        || (IdOf(byRegistry, data.chain1.chainName) == b && IdOf(byRegistry, data.chain2.chainName) == a))
  }

  /** The channel as seen from chain a: its own end, connection and port, the other end as counterparty. */
  ghost predicate SeenFrom(byRegistry: map<string, ChainId>, data: ChainIbcData, a: ChainId, b: ChainId, info: ChannelInfo) {
    exists c :: FirstUsable(data.channels) == Some(c) && info.status == c.status && info.fromChainId == a && info.toChainId == b
                && if IdOf(byRegistry, data.chain1.chainName) == a
                   then info.channelId == c.chain1.channelId && info.counterpartyChannelId == c.chain2.channelId
                        && info.portId == c.chain1.portId && info.connectionId == data.chain1.connectionId
                   else info.channelId == c.chain2.channelId && info.counterpartyChannelId == c.chain1.channelId
                        && info.portId == c.chain2.portId && info.connectionId == data.chain2.connectionId
  }

  ghost predicate LastJoining(byRegistry: map<string, ChainId>, ibcData: seq<ChainIbcData>, a: ChainId, b: ChainId, info: ChannelInfo, i: nat) {
    && i < |ibcData| && Joins(byRegistry, ibcData[i], a, b) && SeenFrom(byRegistry, ibcData[i], a, b, info)
    && forall j :: i < j < |ibcData| ==> !Joins(byRegistry, ibcData[j], a, b)
  }

  /** Between two chains the map holds the channel of the last registry entry that joins them. */
  lemma {:induction false} ChannelMapExact(byRegistry: map<string, ChainId>, ibcData: seq<ChainIbcData>, a: ChainId, b: ChainId)
    requires a != b
    ensures var info := Lookup2(ConnectAll(byRegistry, ibcData), a, b);
            if info.Some? then exists i :: LastJoining(byRegistry, ibcData, a, b, info.value, i)
            else forall i :: 0 <= i < |ibcData| ==> !Joins(byRegistry, ibcData[i], a, b)
  {
    if ibcData != [] {
      var n := |ibcData| - 1;
      var before, data := ConnectAll(byRegistry, ibcData[..n]), ibcData[n];
      var info := Lookup2(Connect(byRegistry, before, data), a, b);
      ChannelMapExact(byRegistry, ibcData[..n], a, b);
      JoinedByOne(byRegistry, before, data, a, b);
      if Joins(byRegistry, data, a, b) {
        assert LastJoining(byRegistry, ibcData, a, b, info.value, n);
      } else if info.Some? {
        var i :| LastJoining(byRegistry, ibcData[..n], a, b, info.value, i);
        StillLast(byRegistry, ibcData, a, b, info.value, i);
      } else {
        assert forall i :: 0 <= i < n ==> ibcData[..n][i] == ibcData[i];
      }
    }
  }

  lemma StillLast(byRegistry: map<string, ChainId>, ibcData: seq<ChainIbcData>, a: ChainId, b: ChainId, info: ChannelInfo, i: nat)
    requires ibcData != [] && LastJoining(byRegistry, ibcData[..|ibcData| - 1], a, b, info, i)
    requires !Joins(byRegistry, ibcData[|ibcData| - 1], a, b)
    ensures LastJoining(byRegistry, ibcData, a, b, info, i)
  {
    var before := ibcData[..|ibcData| - 1];
    forall j | i <= j < |before| ensures ibcData[j] == before[j] {}
  }

  lemma JoinedByOne(byRegistry: map<string, ChainId>, m: Channels, data: ChainIbcData, a: ChainId, b: ChainId)
    requires a != b
    ensures var info := Lookup2(Connect(byRegistry, m, data), a, b);
            if Joins(byRegistry, data, a, b) then info.Some? && SeenFrom(byRegistry, data, a, b, info.value)
            else info == Lookup2(m, a, b)
  {
    FirstUsableIs(data.channels);
    var c := FirstUsable(data.channels);
    assert c.Some? <==> exists x :: x in data.channels && InUse(x);
    if c.Some? {
      JoinedOver(m, IdOf(byRegistry, data.chain1.chainName), IdOf(byRegistry, data.chain2.chainName), data, c.value, a, b);
    }
  }

  lemma JoinedOver(m: Channels, x: ChainId, y: ChainId, data: ChainIbcData, c: IbcChannelData, a: ChainId, b: ChainId)
    requires a != b
    ensures var info := Lookup2(ConnectOne(m, x, y, data, c), a, b);
            info == if x == a && y == b then Some(ChannelInfo(a, b, c.chain1.channelId, c.chain2.channelId, c.chain1.portId, data.chain1.connectionId, c.status))
                    else if x == b && y == a then Some(ChannelInfo(a, b, c.chain2.channelId, c.chain1.channelId, c.chain2.portId, data.chain2.connectionId, c.status))
                    else Lookup2(m, a, b)
  {}

  function Put2(m: Channels, a: ChainId, b: ChainId, c: ChannelInfo): Channels {
    m[a := (if a in m then m[a] else map[])[b := c]]
  }

  function ConnectOne(m: Channels, a: ChainId, b: ChainId, data: ChainIbcData, c: IbcChannelData): Channels {
    var there := Put2(m, a, b, ChannelInfo(a, b, c.chain1.channelId, c.chain2.channelId, c.chain1.portId, data.chain1.connectionId, c.status));
    Put2(there, b, a, ChannelInfo(b, a, c.chain2.channelId, c.chain1.channelId, c.chain2.portId, data.chain2.connectionId, c.status))
  }

  /** The chain id registered under a name; "" if none is. */
  function IdOf(byRegistry: map<string, ChainId>, name: string): ChainId {
    if name in byRegistry then byRegistry[name] else ""
  }

  function Connect(byRegistry: map<string, ChainId>, m: Channels, data: ChainIbcData): Channels {
    var a, b := IdOf(byRegistry, data.chain1.chainName), IdOf(byRegistry, data.chain2.chainName);
    var c := FirstUsable(data.channels);
    if a == "" || b == "" || c.None? then m else ConnectOne(m, a, b, data, c.value)
  }

  function ConnectAll(byRegistry: map<string, ChainId>, ibcData: seq<ChainIbcData>): Channels {
    if ibcData == [] then map[]
    else Connect(byRegistry, ConnectAll(byRegistry, ibcData[..|ibcData| - 1]), ibcData[|ibcData| - 1])
  }

  ghost predicate Swapped(c: ChannelInfo, c': ChannelInfo) {
    && c'.fromChainId == c.toChainId && c'.toChainId == c.fromChainId
    && c'.channelId == c.counterpartyChannelId && c'.counterpartyChannelId == c.channelId
  }

  /** b-to-a exists iff a-to-b does, with channel and counterparty swapped. */
  ghost predicate Involution(m: Channels) {
    forall a, b :: Lookup2(m, a, b).Some? ==>
      Lookup2(m, b, a).Some? && Swapped(Lookup2(m, a, b).value, Lookup2(m, b, a).value)
  }

  ghost predicate OffDiagonal(m: Channels) {
    forall a, b :: Lookup2(m, a, b).Some? ==>
      && Lookup2(m, a, b).value.fromChainId == a && Lookup2(m, a, b).value.toChainId == b
      && (a != b ==> Lookup2(m, b, a).Some? && Swapped(Lookup2(m, a, b).value, Lookup2(m, b, a).value))
  }

  lemma {:induction false} ConnectAllOffDiagonal(byRegistry: map<string, ChainId>, ibcData: seq<ChainIbcData>)
    ensures OffDiagonal(ConnectAll(byRegistry, ibcData))
  {
    if ibcData != [] {
      var before, data := ConnectAll(byRegistry, ibcData[..|ibcData| - 1]), ibcData[|ibcData| - 1];
      ConnectAllOffDiagonal(byRegistry, ibcData[..|ibcData| - 1]);
      var c := FirstUsable(data.channels);
      if c.Some? {
        ConnectOneOffDiagonal(before, IdOf(byRegistry, data.chain1.chainName), IdOf(byRegistry, data.chain2.chainName), data, c.value);
      }
    }
  }

  lemma ConnectOneOffDiagonal(m: Channels, a: ChainId, b: ChainId, data: ChainIbcData, c: IbcChannelData)
    requires OffDiagonal(m)
    ensures OffDiagonal(ConnectOne(m, a, b, data, c))
  {
    var m' := ConnectOne(m, a, b, data, c);
    forall x, y | Lookup2(m', x, y).Some? && !(x == a && y == b) && !(x == b && y == a)
      ensures Lookup2(m, x, y) == Lookup2(m', x, y) && Lookup2(m, y, x) == Lookup2(m', y, x)
    {}
  }

  /** The channel over which the registry last connects chain a to itself. */
  function LastSelfChannel(byRegistry: map<string, ChainId>, ibcData: seq<ChainIbcData>, a: ChainId): Option<IbcChannelData> {
    if ibcData == [] then None
    else
      var data := ibcData[|ibcData| - 1];
      var c := FirstUsable(data.channels);
      if a != "" && IdOf(byRegistry, data.chain1.chainName) == a == IdOf(byRegistry, data.chain2.chainName) && c.Some? then c
      else LastSelfChannel(byRegistry, ibcData[..|ibcData| - 1], a)
  }

  lemma {:induction false} DiagonalIsLastSelfChannel(byRegistry: map<string, ChainId>, ibcData: seq<ChainIbcData>, a: ChainId)
    ensures var entry, c := Lookup2(ConnectAll(byRegistry, ibcData), a, a), LastSelfChannel(byRegistry, ibcData, a);
            && (entry.Some? <==> c.Some?)
            && (entry.Some? ==> entry.value.channelId == c.value.chain2.channelId
                                && entry.value.counterpartyChannelId == c.value.chain1.channelId)
  {
    if ibcData != [] {
      var before, data := ibcData[..|ibcData| - 1], ibcData[|ibcData| - 1];
      DiagonalIsLastSelfChannel(byRegistry, before, a);
      var x, y := IdOf(byRegistry, data.chain1.chainName), IdOf(byRegistry, data.chain2.chainName);
      var c := FirstUsable(data.channels);
      if x != "" && y != "" && c.Some? && !(x == a && y == a) {
        assert Lookup2(ConnectOne(ConnectAll(byRegistry, before), x, y, data, c.value), a, a) == Lookup2(ConnectAll(byRegistry, before), a, a);
      }
    }
  }

  /** The channel map is an involution exactly when the registry's last usable connection of each
      chain to itself, if there is one, has the same channel at both ends. */
  lemma ChannelMapInvolution(byRegistry: map<string, ChainId>, ibcData: seq<ChainIbcData>)
    ensures Involution(ConnectAll(byRegistry, ibcData)) <==> forall a :: SelfConnectionOneEnded(byRegistry, ibcData, a)
  {
    var m := ConnectAll(byRegistry, ibcData);
    ConnectAllOffDiagonal(byRegistry, ibcData);
    forall a ensures SelfConnectionOneEnded(byRegistry, ibcData, a) <==>
                     (Lookup2(m, a, a).Some? ==> Lookup2(m, a, a).value.channelId == Lookup2(m, a, a).value.counterpartyChannelId)
    {
      DiagonalIsLastSelfChannel(byRegistry, ibcData, a);
    }
    if Involution(m) {
      forall a ensures SelfConnectionOneEnded(byRegistry, ibcData, a) {
        assert Lookup2(m, a, a).Some? ==> Swapped(Lookup2(m, a, a).value, Lookup2(m, a, a).value);
      }
    }
  }

  predicate SelfConnectionOneEnded(byRegistry: map<string, ChainId>, ibcData: seq<ChainIbcData>, a: ChainId) {
    var c := LastSelfChannel(byRegistry, ibcData, a);
    c.Some? ==> c.value.chain1.channelId == c.value.chain2.channelId
  }

  const SELF_CONNECTION := ChainIbcData(
    IbcChainData("hub", "connection-1"), IbcChainData("hub", "connection-2"),
    [IbcChannelData(ChannelEnd("channel-1", "transfer"), ChannelEnd("channel-2", "transfer"), true, "ACTIVE")])

  /** A registry for which it is not: the hub connected to itself over channel-1 and channel-2. */
  lemma TwoEndedSelfConnectionBreaksIt()
    ensures !Involution(ConnectAll(map["hub" := "hub-1"], [SELF_CONNECTION]))
  {
    assert Upper("ACTIVE") == "ACTIVE";
    assert FirstUsable(SELF_CONNECTION.channels) == Some(SELF_CONNECTION.channels[0]);
    ChannelMapInvolution(map["hub" := "hub-1"], [SELF_CONNECTION]);
    assert !SelfConnectionOneEnded(map["hub" := "hub-1"], [SELF_CONNECTION], "hub-1");
  }

  ghost predicate SelfConnected(byRegistry: map<string, ChainId>, data: ChainIbcData) {
    IdOf(byRegistry, data.chain1.chainName) == IdOf(byRegistry, data.chain2.chainName) != ""
  }

  lemma {:induction false} NoSelfConnection(byRegistry: map<string, ChainId>, ibcData: seq<ChainIbcData>)
    requires forall i :: 0 <= i < |ibcData| ==> !SelfConnected(byRegistry, ibcData[i])
    ensures forall a :: Lookup2(ConnectAll(byRegistry, ibcData), a, a).None?
    ensures Involution(ConnectAll(byRegistry, ibcData))
  {
    if ibcData != [] {
      var n := |ibcData| - 1;
      var before := ConnectAll(byRegistry, ibcData[..n]);
      NoSelfConnection(byRegistry, ibcData[..n]);
      forall x ensures Lookup2(Connect(byRegistry, before, ibcData[n]), x, x).None? {
        assert Lookup2(before, x, x).None? && !SelfConnected(byRegistry, ibcData[n]);
      }
    }
    ConnectAllOffDiagonal(byRegistry, ibcData);
  }

  // ---------------------------------------------------------------------------------------------
  // Allowed tokens of a route
  // ---------------------------------------------------------------------------------------------

  /** What a token's list of destinations means: none listed, anywhere; "none" alone, nowhere. */
  ghost predicate MaySend(t: TokenMeta, to: ChainId) {
    t.allowedDestinations == [] || (to in t.allowedDestinations && t.allowedDestinations != ["none"])
  }

  predicate Contains(s: seq<ChainId>, x: ChainId) { x in s }

  predicate IsTokenAllowedToChain(t: TokenMeta, to: ChainId): (allowed: bool)
    ensures allowed <==> MaySend(t, to)
  {
    if Contains(t.allowedDestinations, "none") && |t.allowedDestinations| == 1 then false
    else if |t.allowedDestinations| == 0 then true
    else Contains(t.allowedDestinations, to)
  }

  function TraceText(port: string, channel: string, denom: Denom): string {
    port + "/" + channel + "/" + denom
  }

  function ComputeIBCDenom(hash: DenomHash, port: string, channel: string, denom: Denom): Denom {
    hash(TraceText(port, channel, denom))
  }

  function ComputeForwardedTokenDenom(hash: DenomHash, t: TokenMeta, c: ChannelInfo): Denom {
    if c.toChainId == t.originChain then t.originDenom
    else ComputeIBCDenom(hash, c.portId, c.counterpartyChannelId, t.denom)
  }

  function NativeEntry(hash: DenomHash, from: ChainId, c: ChannelInfo, t: TokenMeta): RouteTokenInfo {
    RouteTokenInfo(t.denom, ComputeIBCDenom(hash, c.portId, c.counterpartyChannelId, t.denom), t.denom, from, t.symbol, t.exponent)
  }

  function UnwindEntry(hash: DenomHash, to: ChainId, c: ChannelInfo, t: TokenMeta): RouteTokenInfo {
    RouteTokenInfo(ComputeIBCDenom(hash, c.portId, c.channelId, t.denom), t.denom, t.denom, to, t.symbol, t.exponent)
  }

  function RoutableEntry(hash: DenomHash, c: ChannelInfo, t: TokenMeta): RouteTokenInfo {
    RouteTokenInfo(t.denom, ComputeForwardedTokenDenom(hash, t, c), t.originDenom, t.originChain, t.symbol, t.exponent)
  }

  /** The builder's view of the configuration. */
  datatype Config = Config(inputs: map<ChainId, ChainInput>, channels: Channels)

  function NativeTokens(cfg: Config, c: ChainId): seq<TokenMeta> {
    if c in cfg.inputs then NativeOnly(cfg.inputs[c].tokens) else []
  }

  function RoutableTokens(cfg: Config, c: ChainId): seq<TokenMeta> {
    if c in cfg.inputs then RoutableOnly(cfg.inputs[c].tokens) else []
  }

  /** An entry the route from -> to may carry, and why. */
  ghost predicate Justified(cfg: Config, hash: DenomHash, from: ChainId, to: ChainId, c: ChannelInfo, e: RouteTokenInfo) {
    || (exists t :: t in NativeTokens(cfg, from) && IsTokenAllowedToChain(t, to) && e == NativeEntry(hash, from, c, t))
    || (exists t :: t in NativeTokens(cfg, to) && IsTokenAllowedToChain(t, from) && e == UnwindEntry(hash, to, c, t))
    || (exists t :: t in RoutableTokens(cfg, from) && IsTokenAllowedToChain(t, to) && e == RoutableEntry(hash, c, t))
  }

  ghost predicate HasSource(es: seq<RouteTokenInfo>, d: Denom) {
    exists i :: 0 <= i < |es| && es[i].sourceDenom == d
  }

  ghost predicate DistinctSources(es: seq<RouteTokenInfo>) {
    forall i, j :: 0 <= i < j < |es| ==> es[i].sourceDenom != es[j].sourceDenom
  }

  ghost predicate DistinctDenoms(ts: seq<TokenMeta>) {
    forall i, j :: 0 <= i < j < |ts| ==> ts[i].denom != ts[j].denom
  }

  ghost predicate AllJustified(cfg: Config, hash: DenomHash, from: ChainId, to: ChainId, c: ChannelInfo, es: seq<RouteTokenInfo>) {
    forall i {:trigger Justified(cfg, hash, from, to, c, es[i])} :: 0 <= i < |es| ==> Justified(cfg, hash, from, to, c, es[i])
  }

  /** seen records exactly the source denoms added so far. */
  ghost predicate Recorded(seen: set<Denom>, es: seq<RouteTokenInfo>) {
    forall d :: d in seen <==> HasSource(es, d)
  }

  lemma AppendEntry(seen: set<Denom>, es: seq<RouteTokenInfo>, e: RouteTokenInfo)
    requires Recorded(seen, es)
    ensures Recorded(seen + {e.sourceDenom}, es + [e])
    ensures DistinctSources(es) && e.sourceDenom !in seen ==> DistinctSources(es + [e])
    ensures forall d :: HasSource(es, d) ==> HasSource(es + [e], d)
    ensures HasSource(es + [e], e.sourceDenom)
  {
    var es' := es + [e];
    assert es'[|es|] == e;
    forall d ensures HasSource(es', d) <==> HasSource(es, d) || d == e.sourceDenom {
      if HasSource(es, d) {
        var i :| 0 <= i < |es| && es[i].sourceDenom == d;
        assert es'[i].sourceDenom == d;
      }
    }
    if DistinctSources(es) && e.sourceDenom !in seen {
      forall i | 0 <= i < |es| ensures es[i].sourceDenom != e.sourceDenom {
        assert HasSource(es, es[i].sourceDenom);
      }
    }
  }

  lemma AppendJustified(cfg: Config, hash: DenomHash, from: ChainId, to: ChainId, c: ChannelInfo,
                        es: seq<RouteTokenInfo>, e: RouteTokenInfo)
    requires AllJustified(cfg, hash, from, to, c, es) && Justified(cfg, hash, from, to, c, e)
    ensures AllJustified(cfg, hash, from, to, c, es + [e])
  {}

  lemma NativeJustified(cfg: Config, hash: DenomHash, from: ChainId, to: ChainId, c: ChannelInfo, t: TokenMeta)
    requires t in NativeTokens(cfg, from) && IsTokenAllowedToChain(t, to)
    ensures Justified(cfg, hash, from, to, c, NativeEntry(hash, from, c, t))
  {}

  /** What the finished list contains. */
  ghost predicate Complete(cfg: Config, hash: DenomHash, from: ChainId, to: ChainId, c: ChannelInfo, es: seq<RouteTokenInfo>) {
    && (forall t :: t in NativeTokens(cfg, from) && IsTokenAllowedToChain(t, to) ==> HasSource(es, t.denom))
    && (forall t :: t in NativeTokens(cfg, to) && IsTokenAllowedToChain(t, from) ==>
          HasSource(es, ComputeIBCDenom(hash, c.portId, c.channelId, t.denom)))
    && (forall t :: t in RoutableTokens(cfg, from) && IsTokenAllowedToChain(t, to) ==> HasSource(es, t.denom))
  }

  ghost predicate TokensBuilt(cfg: Config, hash: DenomHash, from: ChainId, to: ChainId, c: ChannelInfo, es: seq<RouteTokenInfo>) {
    && AllJustified(cfg, hash, from, to, c, es)
    && Complete(cfg, hash, from, to, c, es)
    && (DistinctDenoms(NativeTokens(cfg, from)) ==> DistinctSources(es))
  }

  ghost predicate Listed(ts: seq<TokenMeta>, d: Denom) {
    exists t :: t in ts && t.denom == d
  }

  lemma ListedSnoc(ts: seq<TokenMeta>, i: nat)
    requires i < |ts|
    ensures Listed(ts[..i + 1], ts[i].denom)
    ensures forall d :: Listed(ts[..i], d) ==> Listed(ts[..i + 1], d)
    ensures DistinctDenoms(ts) ==> !Listed(ts[..i], ts[i].denom)
  {
    assert ts[..i + 1] == ts[..i] + [ts[i]];
    assert ts[i] in ts[..i + 1];
  }

  /** Native tokens are added without consulting seen. */
  method AddNativeTokens(cfg: Config, hash: DenomHash, from: ChainId, to: ChainId, c: ChannelInfo)
    returns (es: seq<RouteTokenInfo>, seen: set<Denom>)
    ensures Recorded(seen, es) && AllJustified(cfg, hash, from, to, c, es)
    ensures DistinctDenoms(NativeTokens(cfg, from)) ==> DistinctSources(es)
    ensures forall t :: t in NativeTokens(cfg, from) && IsTokenAllowedToChain(t, to) ==> HasSource(es, t.denom)
  {
    es, seen := [], {};
    var tokens := NativeTokens(cfg, from);
    var i := 0;
    while i < |tokens|
      invariant 0 <= i <= |tokens|
      invariant Recorded(seen, es) && AllJustified(cfg, hash, from, to, c, es)
      invariant forall d :: d in seen ==> Listed(tokens[..i], d)
      invariant DistinctDenoms(tokens) ==> DistinctSources(es)
      invariant forall j :: 0 <= j < i && IsTokenAllowedToChain(tokens[j], to) ==> HasSource(es, tokens[j].denom)
    {
      ListedSnoc(tokens, i);
      var t := tokens[i];
      i := i + 1;
      if !IsTokenAllowedToChain(t, to) { continue; }
      var e := RouteTokenInfo(t.denom, ComputeIBCDenom(hash, c.portId, c.counterpartyChannelId, t.denom), t.denom, from, t.symbol, t.exponent);
      NativeJustified(cfg, hash, from, to, c, t);
      AppendJustified(cfg, hash, from, to, c, es, e);
      AppendEntry(seen, es, e);
      es, seen := es + [e], seen + {t.denom};
    }
  }

  method AddUnwindTokens(cfg: Config, hash: DenomHash, from: ChainId, to: ChainId, c: ChannelInfo,
                         es0: seq<RouteTokenInfo>, seen0: set<Denom>) returns (es: seq<RouteTokenInfo>, seen: set<Denom>)
    requires Recorded(seen0, es0) && AllJustified(cfg, hash, from, to, c, es0)
    ensures Recorded(seen, es) && AllJustified(cfg, hash, from, to, c, es)
    ensures DistinctSources(es0) ==> DistinctSources(es)
    ensures forall d :: HasSource(es0, d) ==> HasSource(es, d)
    ensures forall t :: t in NativeTokens(cfg, to) && IsTokenAllowedToChain(t, from) ==>
              HasSource(es, ComputeIBCDenom(hash, c.portId, c.channelId, t.denom))
  {
    es, seen := es0, seen0;
    var tokens := NativeTokens(cfg, to);
    var i := 0;
    while i < |tokens|
      invariant 0 <= i <= |tokens|
      invariant Recorded(seen, es) && AllJustified(cfg, hash, from, to, c, es)
      invariant DistinctSources(es0) ==> DistinctSources(es)
      invariant forall d :: HasSource(es0, d) ==> HasSource(es, d)
      invariant forall j :: 0 <= j < i && IsTokenAllowedToChain(tokens[j], from) ==>
                  HasSource(es, ComputeIBCDenom(hash, c.portId, c.channelId, tokens[j].denom))
    {
      var t := tokens[i];
      i := i + 1;
      if !IsTokenAllowedToChain(t, from) { continue; }
      var denomOnOurChain := ComputeIBCDenom(hash, c.portId, c.channelId, t.denom);
      if denomOnOurChain in seen { continue; }
      var e := RouteTokenInfo(denomOnOurChain, t.denom, t.denom, to, t.symbol, t.exponent);
      assert t in tokens;
      assert Justified(cfg, hash, from, to, c, e);
      AppendEntry(seen, es, e);
      es, seen := es + [e], seen + {denomOnOurChain};
    }
  }

  method AddRoutableTokens(cfg: Config, hash: DenomHash, from: ChainId, to: ChainId, c: ChannelInfo,
                           es0: seq<RouteTokenInfo>, seen0: set<Denom>) returns (es: seq<RouteTokenInfo>)
    requires Recorded(seen0, es0) && AllJustified(cfg, hash, from, to, c, es0)
    ensures AllJustified(cfg, hash, from, to, c, es)
    ensures DistinctSources(es0) ==> DistinctSources(es)
    ensures forall d :: HasSource(es0, d) ==> HasSource(es, d)
    ensures forall t :: t in RoutableTokens(cfg, from) && IsTokenAllowedToChain(t, to) ==> HasSource(es, t.denom)
  {
    es := es0;
    var seen := seen0;
    var tokens := RoutableTokens(cfg, from);
    var i := 0;
    while i < |tokens|
      invariant 0 <= i <= |tokens|
      invariant Recorded(seen, es) && AllJustified(cfg, hash, from, to, c, es)
      invariant DistinctSources(es0) ==> DistinctSources(es)
      invariant forall d :: HasSource(es0, d) ==> HasSource(es, d)
      invariant forall j :: 0 <= j < i && IsTokenAllowedToChain(tokens[j], to) ==> HasSource(es, tokens[j].denom)
    {
      var t := tokens[i];
      i := i + 1;
      if !IsTokenAllowedToChain(t, to) { continue; }
      if t.denom in seen { continue; }
      var e := RouteTokenInfo(t.denom, ComputeForwardedTokenDenom(hash, t, c), t.originDenom, t.originChain, t.symbol, t.exponent);
      assert t in tokens;
      assert Justified(cfg, hash, from, to, c, e);
      AppendEntry(seen, es, e);
      es, seen := es + [e], seen + {t.denom};
    }
  }

  /** No two tokens of the sender share a denom, nor does one with a voucher of the receiver's. */
  ghost predicate TokensApart(cfg: Config, hash: DenomHash, from: ChainId, to: ChainId, c: ChannelInfo) {
    && (forall t, u :: t in NativeTokens(cfg, from) && u in NativeTokens(cfg, from) && t.denom == u.denom ==> t == u)
    && (forall t, u :: t in RoutableTokens(cfg, from) && u in RoutableTokens(cfg, from) && t.denom == u.denom ==> t == u)
    && (forall t, u :: t in NativeTokens(cfg, from) && u in RoutableTokens(cfg, from) ==> t.denom != u.denom)
    && (forall t, u :: t in NativeTokens(cfg, to) && u in NativeTokens(cfg, from) ==> UnwindEntry(hash, to, c, t).sourceDenom != u.denom)
    && (forall t, u :: t in NativeTokens(cfg, to) && u in RoutableTokens(cfg, from) ==> UnwindEntry(hash, to, c, t).sourceDenom != u.denom)
    && (forall t, u | t in NativeTokens(cfg, to) && u in NativeTokens(cfg, to) ::
          UnwindEntry(hash, to, c, t).sourceDenom == UnwindEntry(hash, to, c, u).sourceDenom ==> t == u)
  }

  ghost predicate Lists(es: seq<RouteTokenInfo>, e: RouteTokenInfo, allowed: bool) {
    && (HasSource(es, e.sourceDenom) <==> allowed)
    && (forall x :: x in es && x.sourceDenom == e.sourceDenom ==> x == e)
  }

  /** The route lists a token of the sender if and only if it may go to the receiver, a native token of
      the receiver if and only if it may come to the sender, each as its own entry, and nothing else. */
  ghost predicate ListsExactly(cfg: Config, hash: DenomHash, from: ChainId, to: ChainId, c: ChannelInfo, es: seq<RouteTokenInfo>) {
    && (forall t :: t in NativeTokens(cfg, from) ==> Lists(es, NativeEntry(hash, from, c, t), MaySend(t, to)))
    && (forall t :: t in NativeTokens(cfg, to) ==> Lists(es, UnwindEntry(hash, to, c, t), MaySend(t, from)))
    && (forall t :: t in RoutableTokens(cfg, from) ==> Lists(es, RoutableEntry(hash, c, t), MaySend(t, to)))
    && (forall e :: e in es ==>
          || (exists t :: t in NativeTokens(cfg, from) && e == NativeEntry(hash, from, c, t))
          || (exists t :: t in NativeTokens(cfg, to) && e == UnwindEntry(hash, to, c, t))
          || (exists t :: t in RoutableTokens(cfg, from) && e == RoutableEntry(hash, c, t)))
  }

  lemma TokensAreExact(cfg: Config, hash: DenomHash, from: ChainId, to: ChainId, c: ChannelInfo, es: seq<RouteTokenInfo>)
    requires TokensBuilt(cfg, hash, from, to, c, es) && TokensApart(cfg, hash, from, to, c)
    ensures ListsExactly(cfg, hash, from, to, c, es)
  {
    MembersJustified(cfg, hash, from, to, c, es);
    forall t | t in NativeTokens(cfg, from) ensures Lists(es, NativeEntry(hash, from, c, t), MaySend(t, to)) {
      forall x | x in es && x.sourceDenom == t.denom ensures x == NativeEntry(hash, from, c, t) && MaySend(t, to) {
        NativeReason(cfg, hash, from, to, c, t, x);
      }
    }
    forall t | t in NativeTokens(cfg, to) ensures Lists(es, UnwindEntry(hash, to, c, t), MaySend(t, from)) {
      forall x | x in es && x.sourceDenom == UnwindEntry(hash, to, c, t).sourceDenom
        ensures x == UnwindEntry(hash, to, c, t) && MaySend(t, from)
      {
        UnwindReason(cfg, hash, from, to, c, t, x);
      }
    }
    forall t | t in RoutableTokens(cfg, from) ensures Lists(es, RoutableEntry(hash, c, t), MaySend(t, to)) {
      forall x | x in es && x.sourceDenom == t.denom ensures x == RoutableEntry(hash, c, t) && MaySend(t, to) {
        RoutableReason(cfg, hash, from, to, c, t, x);
      }
    }
  }

  lemma MembersJustified(cfg: Config, hash: DenomHash, from: ChainId, to: ChainId, c: ChannelInfo, es: seq<RouteTokenInfo>)
    requires AllJustified(cfg, hash, from, to, c, es)
    ensures forall e :: e in es ==> Justified(cfg, hash, from, to, c, e)
    ensures forall d :: HasSource(es, d) ==> exists e :: e in es && e.sourceDenom == d
  {
    forall e | e in es ensures Justified(cfg, hash, from, to, c, e) {
      var i :| 0 <= i < |es| && es[i] == e;
      assert Justified(cfg, hash, from, to, c, es[i]);
    }
    forall d | HasSource(es, d) ensures exists e :: e in es && e.sourceDenom == d {
      var i :| 0 <= i < |es| && es[i].sourceDenom == d;
      assert es[i] in es;
    }
  }

  lemma NativeReason(cfg: Config, hash: DenomHash, from: ChainId, to: ChainId, c: ChannelInfo, t: TokenMeta, x: RouteTokenInfo)
    requires TokensApart(cfg, hash, from, to, c) && Justified(cfg, hash, from, to, c, x)
    requires t in NativeTokens(cfg, from) && x.sourceDenom == t.denom
    ensures x == NativeEntry(hash, from, c, t) && MaySend(t, to)
  {}

  lemma UnwindReason(cfg: Config, hash: DenomHash, from: ChainId, to: ChainId, c: ChannelInfo, t: TokenMeta, x: RouteTokenInfo)
    requires TokensApart(cfg, hash, from, to, c) && Justified(cfg, hash, from, to, c, x)
    requires t in NativeTokens(cfg, to) && x.sourceDenom == UnwindEntry(hash, to, c, t).sourceDenom
    ensures x == UnwindEntry(hash, to, c, t) && MaySend(t, from)
  {}

  lemma RoutableReason(cfg: Config, hash: DenomHash, from: ChainId, to: ChainId, c: ChannelInfo, t: TokenMeta, x: RouteTokenInfo)
    requires TokensApart(cfg, hash, from, to, c) && Justified(cfg, hash, from, to, c, x)
    requires t in RoutableTokens(cfg, from) && x.sourceDenom == t.denom
    ensures x == RoutableEntry(hash, c, t) && MaySend(t, to)
  {}

  /** Every entry has its reason, every allowed token its entry, and with distinct native denoms
      (which the configuration validator demands) no two entries share a source denom. */
  method BuildAllowedTokensForRoute(cfg: Config, hash: DenomHash, from: ChainId, to: ChainId, c: ChannelInfo)
    returns (es: seq<RouteTokenInfo>)
    ensures TokensBuilt(cfg, hash, from, to, c, es)
    ensures TokensApart(cfg, hash, from, to, c) ==> ListsExactly(cfg, hash, from, to, c, es)
  {
    var seen;
    es, seen := AddNativeTokens(cfg, hash, from, to, c);
    es, seen := AddUnwindTokens(cfg, hash, from, to, c, es, seen);
    es := AddRoutableTokens(cfg, hash, from, to, c, es, seen);
    if TokensApart(cfg, hash, from, to, c) {
      TokensAreExact(cfg, hash, from, to, c, es);
    }
  }

  // ---------------------------------------------------------------------------------------------
  // Building the lookup maps
  // ---------------------------------------------------------------------------------------------

  method SplitTokens(tokens: seq<TokenMeta>) returns (native: seq<TokenMeta>, routable: seq<TokenMeta>)
    ensures native == NativeOnly(tokens) && routable == RoutableOnly(tokens)
  {
    native, routable := [], [];
    var i := 0;
    while i < |tokens|
      invariant 0 <= i <= |tokens|
      invariant native == NativeOnly(tokens[..i]) && routable == RoutableOnly(tokens[..i])
    {
      assert tokens[..i + 1][..i] == tokens[..i];
      if IsNative(tokens[i]) {
        native := native + [tokens[i]];
      } else {
        routable := routable + [tokens[i]];
      }
      i := i + 1;
    }
    assert tokens[..i] == tokens;
  }

  /** The lookup maps cover exactly the chains ids: their tokens split, each found by registry name. */
  ghost predicate MapsCategorised(inputs: map<ChainId, ChainInput>, byRegistry: map<string, ChainId>,
                                  native: map<ChainId, seq<TokenMeta>>, routable: map<ChainId, seq<TokenMeta>>, ids: set<ChainId>)
  {
    && ids <= inputs.Keys && native.Keys == ids && routable.Keys == ids
    && (forall id :: id in ids ==> native[id] == NativeOnly(inputs[id].tokens))
    && (forall id :: id in ids ==> routable[id] == RoutableOnly(inputs[id].tokens))
    && (forall name :: name in byRegistry ==> byRegistry[name] in ids && inputs[byRegistry[name]].registry == name)
    && (forall id :: id in ids ==> inputs[id].registry in byRegistry)
  }

  lemma CategoriseOne(inputs: map<ChainId, ChainInput>, byRegistry: map<string, ChainId>,
                      native: map<ChainId, seq<TokenMeta>>, routable: map<ChainId, seq<TokenMeta>>, ids: set<ChainId>, id: ChainId)
    requires MapsCategorised(inputs, byRegistry, native, routable, ids) && id in inputs
    ensures MapsCategorised(inputs, byRegistry[inputs[id].registry := id], native[id := NativeOnly(inputs[id].tokens)],
                            routable[id := RoutableOnly(inputs[id].tokens)], ids + {id})
  {}

  class RouteBuilder {
    const inputs: map<ChainId, ChainInput>
    const ibcData: seq<ChainIbcData>
    var chainByRegistry: map<string, ChainId>
    var channelMap: Channels
    var nativeTokens: map<ChainId, seq<TokenMeta>>
    var routableTokens: map<ChainId, seq<TokenMeta>>

    ghost predicate Categorised(ids: set<ChainId>)
      reads this
    {
      MapsCategorised(inputs, chainByRegistry, nativeTokens, routableTokens, ids)
    }

    constructor (inputs: map<ChainId, ChainInput>, ibcData: seq<ChainIbcData>)
      ensures this.inputs == inputs && this.ibcData == ibcData
      ensures Categorised(inputs.Keys)
      ensures channelMap == ConnectAll(chainByRegistry, ibcData)
    {
      this.inputs, this.ibcData := inputs, ibcData;
      chainByRegistry, channelMap, nativeTokens, routableTokens := map[], map[], map[], map[];
      new;
      BuildLookupMaps();
    }

    method BuildLookupMaps()
      requires chainByRegistry == map[] && channelMap == map[] && nativeTokens == map[] && routableTokens == map[]
      modifies this
      ensures Categorised(inputs.Keys)
      ensures channelMap == ConnectAll(chainByRegistry, ibcData)
    {
      var rest := inputs.Keys;
      while rest != {}
        invariant rest <= inputs.Keys && Categorised(inputs.Keys - rest) && channelMap == map[]
      {
        var id :| id in rest;
        rest := rest - {id};
        CategoriseTokens(id);
        assert inputs.Keys - rest == nativeTokens.Keys;
      }
      BuildChannelMap();
    }

    method CategoriseTokens(id: ChainId)
      requires id in inputs && id !in nativeTokens && Categorised(nativeTokens.Keys)
      modifies this`chainByRegistry, this`nativeTokens, this`routableTokens
      ensures Categorised(old(nativeTokens.Keys) + {id})
    {
      var native, routable := SplitTokens(inputs[id].tokens);
      CategoriseOne(inputs, chainByRegistry, nativeTokens, routableTokens, nativeTokens.Keys, id);
      chainByRegistry := chainByRegistry[inputs[id].registry := id];
      nativeTokens := nativeTokens[id := native];
      routableTokens := routableTokens[id := routable];
    }

    method BuildChannelMap()
      requires channelMap == map[]
      modifies this`channelMap
      ensures channelMap == ConnectAll(chainByRegistry, ibcData)
    {
      var i := 0;
      while i < |ibcData|
        invariant 0 <= i <= |ibcData|
        invariant channelMap == ConnectAll(chainByRegistry, ibcData[..i])
      {
        var data := ibcData[i];
        assert ibcData[..i + 1][..i] == ibcData[..i];
        i := i + 1;
        var a, b := IdOf(chainByRegistry, data.chain1.chainName), IdOf(chainByRegistry, data.chain2.chainName);
        if a == "" || b == "" { continue; }
        ConnectFirstUsable(a, b, data);
      }
      assert ibcData[..i] == ibcData;
    }

    /** Only the first preferred active channel is used. */
    method ConnectFirstUsable(a: ChainId, b: ChainId, data: ChainIbcData)
      modifies this`channelMap
      ensures var c := FirstUsable(data.channels);
              channelMap == if c.Some? then ConnectOne(old(channelMap), a, b, data, c.value) else old(channelMap)
    {
      var k := 0;
      assert data.channels[0..] == data.channels;
      while k < |data.channels|
        invariant 0 <= k <= |data.channels|
        invariant channelMap == old(channelMap)
        invariant FirstUsable(data.channels) == FirstUsable(data.channels[k..])
      {
        var c := data.channels[k];
        assert data.channels[k..][1..] == data.channels[k + 1..];
        k := k + 1;
        if !Usable(c) { continue; }
        channelMap := ConnectOne(channelMap, a, b, data, c);
        return;
      }
    }
  }
}
