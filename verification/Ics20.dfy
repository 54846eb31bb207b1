/** The denoms ICS-20 gives (ICS-20 Fungible Token Transfer, "Data Structures" and "Packet relay"),
    as an independent reference for the denoms the route builder computes. */
module Ics20 {
  import opened RouterTypes
  import opened RouteBuilding

  /** A token with the ports and channels it has come through, most recent first. */
  datatype Trace = Base(name: Denom) | Via(port: string, channel: string, inner: Trace)

  function Path(t: Trace): string {
    match t
    case Base(name) => name
    case Via(port, channel, inner) => port + "/" + channel + "/" + Path(inner)
  }

  /** Native tokens keep their name; vouchers are named by the hash of their path. */
  function DenomOnChain(hash: DenomHash, t: Trace): Denom {
    if t.Base? then t.name else hash(Path(t))
  }

  /** Sending back over the channel a voucher came through unwinds it; anything else is wrapped at the receiver. */
  function Transferred(t: Trace, srcPort: string, srcChannel: string, dstPort: string, dstChannel: string): Trace {
    if t.Via? && t.port == srcPort && t.channel == srcChannel then t.inner else Via(dstPort, dstChannel, t)
  }

  ghost predicate Injective(hash: DenomHash) {
    forall x, y :: hash(x) == hash(y) ==> x == y
  }

  lemma TraceTextPort(p: string, q: string, channel: string, d: Denom)
    ensures TraceText(p, channel, d) == TraceText(q, channel, d) <==> p == q
  {
    var rest := "/" + (channel + ("/" + d));
    assert TraceText(p, channel, d) == p + rest && TraceText(q, channel, d) == q + rest;
    if p + rest == q + rest {
      assert p == (p + rest)[..|p|] == (q + rest)[..|q|] == q;
    }
  }

  /** A native entry names what ICS-20 delivers if and only if the far end uses the same port: the
      code prefixes the sender's port where ICS-20 prefixes the receiver's. */
  lemma NativeEntryDelivers(hash: DenomHash, from: ChainId, c: ChannelInfo, t: TokenMeta, farPort: string)
    requires Injective(hash)
    ensures var e := NativeEntry(hash, from, c, t);
            && e.sourceDenom == DenomOnChain(hash, Base(t.denom))
            && (e.destinationDenom == DenomOnChain(hash, Transferred(Base(t.denom), c.portId, c.channelId, farPort, c.counterpartyChannelId))
                <==> farPort == c.portId)
  {
    assert Path(Via(farPort, c.counterpartyChannelId, Base(t.denom))) == TraceText(farPort, c.counterpartyChannelId, t.denom);
    TraceTextPort(farPort, c.portId, c.counterpartyChannelId, t.denom);
  }

  /** An unwind entry names the voucher the destination's token arrives as, and its unwinding. */
  lemma UnwindEntryDelivers(hash: DenomHash, to: ChainId, c: ChannelInfo, t: TokenMeta, farPort: string)
    ensures var e := UnwindEntry(hash, to, c, t); var voucher := Via(c.portId, c.channelId, Base(t.denom));
            && e.sourceDenom == DenomOnChain(hash, voucher)
            && e.destinationDenom == DenomOnChain(hash, Transferred(voucher, c.portId, c.channelId, farPort, c.counterpartyChannelId))
  {
    assert Path(Via(c.portId, c.channelId, Base(t.denom))) == TraceText(c.portId, c.channelId, t.denom);
  }

  /** Out and back over a channel map that is an involution: a native token of a arrives on b under
      the source denom of b's unwind entry if and only if both ends use one port, and that entry
      gives back the original denom, origin and base. */
  lemma OutAndBack(hash: DenomHash, m: Channels, a: ChainId, b: ChainId, t: TokenMeta)
    requires Injective(hash) && Involution(m) && Lookup2(m, a, b).Some?
    ensures var there, back := Lookup2(m, a, b).value, Lookup2(m, b, a).value;
            var out, home := NativeEntry(hash, a, there, t), UnwindEntry(hash, a, back, t);
            && (out.destinationDenom == home.sourceDenom <==> there.portId == back.portId)
            && home.destinationDenom == out.sourceDenom
            && home.originChain == out.originChain && home.baseDenom == out.baseDenom
  {
    var there, back := Lookup2(m, a, b).value, Lookup2(m, b, a).value;
    TraceTextPort(there.portId, back.portId, there.counterpartyChannelId, t.denom);
  }

  lemma SameTrace(port: string, x: string, y: string, d: Denom, d': Denom)
    requires '/' !in x && '/' !in y && TraceText(port, x, d) == TraceText(port, y, d')
    ensures x == y && d == d'
  {
    var tx, ty := x + "/" + d, y + "/" + d';
    assert TraceText(port, x, d) == (port + "/") + tx && TraceText(port, y, d') == (port + "/") + ty;
    assert tx == TraceText(port, x, d)[|port| + 1..] == ty;
    assert tx[|x|] == '/' && ty[|y|] == '/';
    assert |x| == |y|;
    assert x == tx[..|x|] == y && d == tx[|x| + 1..] == d';
  }

  /** A routable voucher that is not sent to its origin chain. The code always wraps it, hashing the
      voucher's own name behind the sender's port. Sent on over another channel, ICS-20 hashes the full
      path behind the receiver's port instead. Sent back over the channel it came through, ICS-20
      unwinds it, so the wrapped text would have to be the text, or its hash the name, of what is
      inside. */
  lemma ForwardedEntryExact(hash: DenomHash, c: ChannelInfo, t: TokenMeta, trace: Trace, farPort: string)
    requires Injective(hash) && trace.Via? && t.denom == DenomOnChain(hash, trace) && c.toChainId != t.originChain
    ensures var right := RoutableEntry(hash, c, t).destinationDenom
                           == DenomOnChain(hash, Transferred(trace, c.portId, c.channelId, farPort, c.counterpartyChannelId));
            var wrapped := TraceText(c.portId, c.counterpartyChannelId, hash(Path(trace)));
            if trace.port == c.portId && trace.channel == c.channelId then
              if trace.inner.Via? then right <==> wrapped == Path(trace.inner) else right <==> hash(wrapped) == trace.inner.name
            else if farPort == c.portId then right <==> hash(Path(trace)) == Path(trace)
            else '/' !in farPort && '/' !in c.portId ==> !right
  {
    var code, ics := TraceText(c.portId, c.counterpartyChannelId, t.denom), TraceText(farPort, c.counterpartyChannelId, Path(trace));
    assert Path(Via(farPort, c.counterpartyChannelId, trace)) == ics;
    if farPort == c.portId {
      TraceTextEnd(farPort, c.counterpartyChannelId, t.denom, Path(trace));
    } else if '/' !in farPort && '/' !in c.portId && code == ics {
      FirstPort(c.portId, farPort, c.counterpartyChannelId, t.denom, Path(trace));
    }
  }

  lemma TraceTextEnd(port: string, channel: string, d: Denom, d': Denom)
    ensures TraceText(port, channel, d) == TraceText(port, channel, d') <==> d == d'
  {
    var prefix := port + "/" + channel + "/";
    assert TraceText(port, channel, d) == prefix + d && TraceText(port, channel, d') == prefix + d';
    assert (prefix + d)[|prefix|..] == d && (prefix + d')[|prefix|..] == d';
  }

  lemma FirstPort(p: string, q: string, channel: string, d: Denom, d': Denom)
    requires '/' !in p && '/' !in q && TraceText(p, channel, d) == TraceText(q, channel, d')
    ensures p == q
  {
    var x := TraceText(p, channel, d);
    assert x[|p|] == '/' && x[|q|] == '/';
    assert x[..|p|] == p && x[..|q|] == q;
  }

  /** Names as the code forms them, "ibc/" and a digest. */
  ghost predicate NamesVouchers(hash: DenomHash) {
    Injective(hash) && forall x :: |hash(x)| >= 4 && hash(x)[..4] == "ibc/"
  }

  /** Made of identifiers, which hold no slash, none of them the port "ibc", down to a native denom
      that is not itself a voucher's name. */
  ghost predicate Plain(t: Trace) {
    match t
    case Base(name) => |name| < 4 || name[..4] != "ibc/"
    case Via(port, channel, inner) => '/' !in port && port != "ibc" && '/' !in channel && Plain(inner)
  }

  lemma FirstSlash(t: Trace)
    requires t.Via? && '/' !in t.port
    ensures |Path(t)| > |t.port| && Path(t)[..|t.port|] == t.port && Path(t)[|t.port|] == '/'
  {
    assert Path(t) == t.port + ("/" + (t.channel + ("/" + Path(t.inner))));
  }

  /** A path never starts like a voucher's name. */
  lemma PathIsNoName(hash: DenomHash, t: Trace, x: string)
    requires NamesVouchers(hash) && Plain(t)
    ensures Path(t) != hash(x)
  {
    var start := hash(x)[..4];
    assert start == "ibc/";
    if t.Via? {
      FirstSlash(t);
      if |t.port| < 3 {
        assert hash(x)[|t.port|] == start[|t.port|] != '/';
      } else if |t.port| == 3 {
        assert hash(x)[..3] == start[..3] == "ibc";
      } else {
        assert hash(x)[3] == start[3] == '/';
        assert Path(t)[..|t.port|][3] == t.port[3];
      }
    }
  }

  /** So for real names and traces a re-forwarded token's entry is wrong wherever it is sent, save to
      its origin chain. */
  lemma ForwardedEntryIsWrong(hash: DenomHash, c: ChannelInfo, t: TokenMeta, trace: Trace, farPort: string)
    requires NamesVouchers(hash) && Plain(trace) && '/' !in c.portId && '/' !in farPort && '/' !in c.counterpartyChannelId
    requires trace.Via? && t.denom == DenomOnChain(hash, trace) && c.toChainId != t.originChain
    ensures RoutableEntry(hash, c, t).destinationDenom
              != DenomOnChain(hash, Transferred(trace, c.portId, c.channelId, farPort, c.counterpartyChannelId))
  {
    ForwardedEntryExact(hash, c, t, trace, farPort);
    PathIsNoName(hash, trace, Path(trace));
    var wrapped := TraceText(c.portId, c.counterpartyChannelId, hash(Path(trace)));
    if trace.inner.Via? && wrapped == Path(trace.inner) {
      var inner := trace.inner;
      assert Path(inner) == TraceText(inner.port, inner.channel, Path(inner.inner));
      SameRest(c.portId, c.counterpartyChannelId, hash(Path(trace)), inner.port, inner.channel, Path(inner.inner));
      PathIsNoName(hash, inner.inner, Path(trace));
    } else if trace.inner.Base? {
      PathIsNoName(hash, trace.inner, wrapped);
    }
  }

  lemma SameRest(p: string, x: string, d: Denom, q: string, y: string, d': Denom)
    requires '/' !in p && '/' !in q && '/' !in x && '/' !in y && TraceText(p, x, d) == TraceText(q, y, d')
    ensures d == d'
  {
    var text := TraceText(p, x, d);
    assert text == p + ("/" + (x + ("/" + d))) && text == q + ("/" + (y + ("/" + d')));
    assert text[|p|] == '/' && text[|q|] == '/';
    assert p == text[..|p|] && q == text[..|q|];
    SameTrace(p, x, y, d, d');
  }

  /** A routable voucher sent to its origin: right exactly when it unwinds to the native token. */
  lemma HomewardEntryExact(hash: DenomHash, c: ChannelInfo, t: TokenMeta, trace: Trace, farPort: string)
    requires trace.Via? && t.denom == DenomOnChain(hash, trace) && c.toChainId == t.originChain
    requires forall x :: hash(x) != t.originDenom
    ensures RoutableEntry(hash, c, t).destinationDenom
              == DenomOnChain(hash, Transferred(trace, c.portId, c.channelId, farPort, c.counterpartyChannelId))
            <==> trace == Via(c.portId, c.channelId, Base(t.originDenom))
  {}

  // ---------------------------------------------------------------------------------------------
  // Inputs at which the computed denoms are wrong
  // ---------------------------------------------------------------------------------------------

  /** An injective stand-in for the hash. */
  function Prefixed(x: string): Denom { "ibc/" + x }

  lemma PrefixedIsInjective()
    ensures Injective(Prefixed)
    ensures forall x :: Prefixed(x) != "uatom"
  {
    forall x, y | Prefixed(x) == Prefixed(y) ensures x == y {
      assert Prefixed(x)[4..] == x && Prefixed(y)[4..] == y;
    }
    forall x ensures Prefixed(x) != "uatom" {
      assert Prefixed(x)[0] != "uatom"[0];
    }
  }

  const NATIVE_ATOM := TokenMeta("uatom", "ATOM", 6, [], "", "")
  const TO_OSMO := ChannelInfo("zone", "osmo", "channel-1", "channel-2", "transfer", "connection-1", "ACTIVE")
  const HUB_ATOM := Via("transfer", "channel-7", Base("uatom"))

  function RoutedAtom(trace: Trace): TokenMeta {
    TokenMeta(DenomOnChain(Prefixed, trace), "ATOM", 6, [], "hub", "uatom")
  }

  /** The hub's token, held on zone over channel-7, sent on to osmo. */
  lemma SentOnIsWrong()
    ensures RoutableEntry(Prefixed, TO_OSMO, RoutedAtom(HUB_ATOM)).destinationDenom
              != DenomOnChain(Prefixed, Transferred(HUB_ATOM, "transfer", "channel-1", "transfer", "channel-2"))
  {
    PrefixedIsInjective();
    ForwardedEntryExact(Prefixed, TO_OSMO, RoutedAtom(HUB_ATOM), HUB_ATOM, "transfer");
    assert |Prefixed(Path(HUB_ATOM))| == 4 + |Path(HUB_ATOM)|;
  }

  /** The same token, which reached zone through osmo, sent back to osmo: wrapped instead of unwound. */
  lemma SentBackIsWrong()
    ensures var trace := Via("transfer", "channel-1", HUB_ATOM);
            RoutableEntry(Prefixed, TO_OSMO, RoutedAtom(trace)).destinationDenom
              != DenomOnChain(Prefixed, Transferred(trace, "transfer", "channel-1", "transfer", "channel-2"))
  {
    var trace := Via("transfer", "channel-1", HUB_ATOM);
    PrefixedIsInjective();
    ForwardedEntryExact(Prefixed, TO_OSMO, RoutedAtom(trace), trace, "transfer");
    assert |TraceText("transfer", "channel-2", Prefixed(Path(trace)))| > |Path(trace)| > |Path(HUB_ATOM)|;
  }

  const TO_HUB := ChannelInfo("zone", "hub", "channel-3", "channel-4", "transfer", "connection-3", "ACTIVE")

  /** The hub's token, held on zone over channel-7, sent home over channel-3: wrapped there, while the
      entry promises the native token. */
  lemma SentHomeIsWrong()
    ensures RoutableEntry(Prefixed, TO_HUB, RoutedAtom(HUB_ATOM)).destinationDenom == "uatom"
    ensures DenomOnChain(Prefixed, Transferred(HUB_ATOM, "transfer", "channel-3", "transfer", "channel-4")) != "uatom"
  {
    PrefixedIsInjective();
    HomewardEntryExact(Prefixed, TO_HUB, RoutedAtom(HUB_ATOM), HUB_ATOM, "transfer");
    assert "channel-7"[8] != "channel-3"[8];
  }

  /** Two ends with different ports: neither what ICS-20 delivers nor what the way back expects. */
  lemma UnequalPortsAreWrong()
    ensures var there := TO_OSMO; var back := ChannelInfo("osmo", "zone", "channel-2", "channel-1", "wasm.osmo", "connection-2", "ACTIVE");
            var out, home := NativeEntry(Prefixed, "zone", there, NATIVE_ATOM), UnwindEntry(Prefixed, "zone", back, NATIVE_ATOM);
            && Swapped(there, back)
            && out.destinationDenom != home.sourceDenom
            && out.destinationDenom != DenomOnChain(Prefixed, Transferred(Base("uatom"), "transfer", "channel-1", "wasm.osmo", "channel-2"))
  {
    PrefixedIsInjective();
    NativeEntryDelivers(Prefixed, "zone", TO_OSMO, NATIVE_ATOM, "wasm.osmo");
    TraceTextPort("transfer", "wasm.osmo", "channel-2", "uatom");
    assert "transfer" != "wasm.osmo";
  }
}
