/** Tracking a broker route along the path its response lists (client_app/src/context/taskProvider.tsx:468-531,
    client_app/src/hooks/useIbcTracking.ts:249-321). */
module TrackedRoutes {
  import opened RouterTypes
  import opened RouteIndexing
  import opened MultiHopRouting
  import opened RouteResponses
  import opened TransferSteps
  import FourChains
  import opened IbcTracking

  /** The chain never shows a receive of the packet. */
  ghost predicate NeverReceived(w: World, chain: ChainId, p: PacketData) {
    forall n: nat, t :: !Confirms(w, n, chain, p, t)
  }

  /** With two outbound hops the listed path goes from the broker straight to ChainTo, while the
      packet leaves the broker for the token's origin. If ChainTo never receives that packet, no
      more than the inbound hops can be confirmed: tracking fails, whatever becomes of the transfer. */
  lemma SkippedChainStopsTracking(ix: IndexMaps, req: RouteRequest, info: MultiHopInfo, w: World, source: Tx, start: nat,
                                  receipts: seq<Receipt>, maxAttempts: nat)
    requires Executable(ix, req, info) && |info.outboundRoutes| == 2
    requires UnbrokenChain(w, BrokerPath(req, info), source, start, receipts, maxAttempts)
    requires |receipts| >= |info.inboundRoutes| && PacketOf(receipts[|info.inboundRoutes| - 1].tx, "send_packet").Some? ==>
               NeverReceived(w, req.chainTo, PacketOf(receipts[|info.inboundRoutes| - 1].tx, "send_packet").value)
    ensures |receipts| <= |info.inboundRoutes| < |BrokerPath(req, info)| - 1
    ensures info.outboundRoutes[0].toChainId != req.chainTo
  {
    var k := |info.inboundRoutes|;
    assert BrokerPath(req, info)[k + 1] == req.chainTo;
    if |receipts| > k {
      LinkNeedsDelivery(w, BrokerPath(req, info), source, start, receipts, maxAttempts, k);
    }
  }

  // A chain of receipts speaks only of the chains it has reached.
  lemma ChainOnPrefix(w: World, path: seq<ChainId>, other: seq<ChainId>, source: Tx, start: nat, receipts: seq<Receipt>, maxAttempts: nat)
    requires UnbrokenChain(w, path, source, start, receipts, maxAttempts) && |receipts| < |other|
    requires forall k :: 0 < k <= |receipts| ==> path[k] == other[k]
    ensures UnbrokenChain(w, other, source, start, receipts, maxAttempts)
  {
    forall k | 0 <= k < |receipts| ensures LinkOk(w, other, source, start, receipts, maxAttempts, k) {
      assert LinkOk(w, path, source, start, receipts, maxAttempts, k);
    }
  }

  /** The chains the transfer really passes through. */
  function ChainsVisited(info: MultiHopInfo): seq<ChainId> {
    info.inboundPath + OutboundPath(info)
  }

  /** Polled from where polling for the last inbound hop ended, ChainTo itself shows the packet that
      left the broker. */
  ghost predicate ShownOnChainTo(w: World, req: RouteRequest, info: MultiHopInfo, source: Tx, start: nat, full: seq<Receipt>, maxAttempts: nat)
    requires |info.inboundRoutes| <= |full|
  {
    var k := |info.inboundRoutes|;
    var packet := PacketOf(Sender(source, full, k), "send_packet");
    packet.Some? && !Undelivered(w, Since(start, full, k), req.chainTo, packet.value, Sender(source, full, k).timestamp, maxAttempts)
  }

  /** When tracking confirms a transfer that did arrive, every chain on its way showing its packet:
      exactly if the outbound side has at most one hop, or ChainTo shows a packet that was addressed
      to the chain the path skips. */
  lemma TrackedExactly(ix: IndexMaps, req: RouteRequest, info: MultiHopInfo, w: World, known: set<ChainId>,
                       source: Tx, start: nat, full: seq<Receipt>, maxAttempts: nat)
    requires Executable(ix, req, info) && FullChain(w, ChainsVisited(info), known, source, start, full, maxAttempts)
    ensures |info.inboundRoutes| <= |full|
    ensures (exists r :: FullChain(w, BrokerPath(req, info), known, source, start, r, maxAttempts))
            <==> |info.outboundRoutes| <= 1 || ShownOnChainTo(w, req, info, source, start, full, maxAttempts)
  {
    PathListsEveryChain(ix, req, info);
    if |info.outboundRoutes| <= 1 {
      assert FullChain(w, BrokerPath(req, info), known, source, start, full, maxAttempts);
    } else {
      TrackedOverTwoHops(ix, req, info, w, known, source, start, full, maxAttempts);
    }
  }

  lemma TrackedOverTwoHops(ix: IndexMaps, req: RouteRequest, info: MultiHopInfo, w: World, known: set<ChainId>,
                           source: Tx, start: nat, full: seq<Receipt>, maxAttempts: nat)
    requires Executable(ix, req, info) && FullChain(w, ChainsVisited(info), known, source, start, full, maxAttempts)
    requires |info.outboundRoutes| == 2
    ensures (exists r :: FullChain(w, BrokerPath(req, info), known, source, start, r, maxAttempts))
            <==> ShownOnChainTo(w, req, info, source, start, full, maxAttempts)
  {
    var k, path := |info.inboundRoutes|, BrokerPath(req, info);
    assert path[k + 1] == req.chainTo == ChainsVisited(info)[k + 2];
    if r :| FullChain(w, path, known, source, start, r, maxAttempts) {
      LinkNeedsDelivery(w, path, source, start, r, maxAttempts, k);
      if k > 0 {
        SameInbound(info, w, path, source, start, r, full, maxAttempts, k - 1);
      }
    }
    if ShownOnChainTo(w, req, info, source, start, full, maxAttempts) {
      var r := ReachChainTo(req, info, w, source, start, full, maxAttempts);
      assert forall j :: 0 < j < |path| ==> path[j] == ChainsVisited(info)[if j <= k then j else j + 1];
      assert FullChain(w, path, known, source, start, r, maxAttempts);
    }
  }

  lemma SameInbound(info: MultiHopInfo, w: World, path: seq<ChainId>, source: Tx, start: nat,
                    r: seq<Receipt>, full: seq<Receipt>, maxAttempts: nat, k: nat)
    requires UnbrokenChain(w, path, source, start, r, maxAttempts) && k < |r|
    requires UnbrokenChain(w, ChainsVisited(info), source, start, full, maxAttempts) && k < |full|
    requires forall j :: 0 < j <= k + 1 ==> path[j] == ChainsVisited(info)[j]
    ensures r[k] == full[k]
  {
    var a, b := r[..k + 1], full[..k + 1];
    ChainPrefix(w, path, source, start, r, maxAttempts, k + 1);
    ChainPrefix(w, ChainsVisited(info), source, start, full, maxAttempts, k + 1);
    ChainOnPrefix(w, ChainsVisited(info), path, source, start, b, maxAttempts);
    ChainsAgree(w, path, source, start, a, b, maxAttempts, k);
  }

  lemma ChainPrefix(w: World, path: seq<ChainId>, source: Tx, start: nat, receipts: seq<Receipt>, maxAttempts: nat, n: nat)
    requires UnbrokenChain(w, path, source, start, receipts, maxAttempts) && n <= |receipts|
    ensures UnbrokenChain(w, path, source, start, receipts[..n], maxAttempts)
  {
    forall k | 0 <= k < n ensures LinkOk(w, path, source, start, receipts[..n], maxAttempts, k) {
      assert LinkOk(w, path, source, start, receipts, maxAttempts, k);
    }
  }

  /** Past the inbound hops, the receipt on ChainTo completes the listed path. */
  lemma ReachChainTo(req: RouteRequest, info: MultiHopInfo, w: World, source: Tx, start: nat,
                     full: seq<Receipt>, maxAttempts: nat) returns (r: seq<Receipt>)
    requires |info.inboundRoutes| == |info.inboundPath| && |info.outboundRoutes| == 2 && !info.swapOnly
    requires info.sourceIsBroker ==> info.inboundPath == []
    requires UnbrokenChain(w, ChainsVisited(info), source, start, full, maxAttempts) && |full| == |ChainsVisited(info)| - 1
    requires ShownOnChainTo(w, req, info, source, start, full, maxAttempts)
    ensures UnbrokenChain(w, BrokerPath(req, info), source, start, r, maxAttempts) && |r| == |BrokerPath(req, info)| - 1
  {
    var k, path := |info.inboundRoutes|, BrokerPath(req, info);
    var before, sender := full[..k], Sender(source, full, k);
    var packet := PacketOf(sender, "send_packet").value;
    ChainPrefix(w, ChainsVisited(info), source, start, full, maxAttempts, k);
    ChainOnPrefix(w, ChainsVisited(info), path, source, start, before, maxAttempts);
    var n: nat, t :| Delivered(w, Since(start, full, k), n, req.chainTo, packet, sender.timestamp, maxAttempts, t);
    var last := Receipt(req.chainTo, packet, sender.timestamp, Since(start, full, k), n + 1, t);
    ChainSnoc(w, path, source, start, before, maxAttempts, last);
    r := before + [last];
  }

  // ---------------------------------------------------------------------------------------------
  // A transfer that arrives and is not tracked
  // ---------------------------------------------------------------------------------------------

  function Sending(n: string): TxEvent { TxEvent("send_packet", [Attribute("packet_sequence", n)]) }

  function Receiving(n: string): TxEvent { TxEvent("recv_packet", [Attribute("packet_sequence", n)]) }

  function Numbered(n: string): PacketData { GatherEventPktData(Sending(n)) }

  const SOURCE := Tx("source", 0, "noon", [Sending("1")])
  const ON_OSMO := Tx("swapped", 0, "noon", [Receiving("1"), Sending("2")])
  const ON_NOBLE := Tx("forwarded", 0, "noon", [Receiving("2"), Sending("3")])
  const ON_JUNO := Tx("arrived", 0, "noon", [Receiving("3")])

  function ShownOn(chain: ChainId): seq<Tx> {
    if chain == "osmo" then [ON_OSMO] else if chain == "noble" then [ON_NOBLE] else if chain == "juno" then [ON_JUNO] else []
  }

  /** Every chain on the way shows its packet to whoever asks, at any time. */
  const DELIVERED := World(
    (n, chain, hash) => Some(SOURCE), (n, chain, query) => Txs(ShownOn(chain)), (n, chain) => true, n => false, time => Some(0))

  const RECEIPTS := [
    Receipt("osmo", Numbered("1"), "noon", 1, 2, ON_OSMO),
    Receipt("noble", Numbered("2"), "noon", 2, 3, ON_NOBLE),
    Receipt("juno", Numbered("3"), "noon", 3, 4, ON_JUNO)]

  const KNOWN := {"hub", "osmo", "noble", "juno"}

  lemma PacketsOf(tx: Tx, received: string, sent: string)
    ensures tx.events == [Receiving(received), Sending(sent)] ==>
              PacketOf(tx, "recv_packet") == Some(Numbered(received)) && PacketOf(tx, "send_packet") == Some(Numbered(sent))
    ensures tx.events == [Receiving(received)] ==> PacketOf(tx, "recv_packet") == Some(Numbered(received))
    ensures tx.events == [Sending(sent)] ==> PacketOf(tx, "send_packet") == Some(Numbered(sent))
  {
    assert "recv_packet"[0] != "send_packet"[0];
    assert GatherEventPktData(Receiving(received)) == Numbered(received);
    if tx.events == [Receiving(received), Sending(sent)] {
      assert tx.events[1..] == [Sending(sent)];
      assert FindEvent([Sending(sent)], "send_packet") == Some(Sending(sent));
    }
  }

  lemma NumberedApart(m: string, n: string)
    ensures Numbered(m).sequence == m
    ensures VerifyPacketData(Numbered(m), Numbered(n)) <==> m == n
  {}

  lemma SeenOn(chain: ChainId, received: string, n: nat, asked: string)
    requires ShownOn(chain) != [] && PacketOf(ShownOn(chain)[0], "recv_packet") == Some(Numbered(received))
    requires ShownOn(chain)[0].timestamp == "noon"
    ensures Confirms(DELIVERED, n, chain, Numbered(asked), "noon") <==> received == asked
  {
    NumberedApart(received, asked);
  }

  lemma Shown()
    ensures PacketOf(SOURCE, "send_packet") == Some(Numbered("1"))
    ensures PacketOf(ON_OSMO, "recv_packet") == Some(Numbered("1")) && PacketOf(ON_OSMO, "send_packet") == Some(Numbered("2"))
    ensures PacketOf(ON_NOBLE, "recv_packet") == Some(Numbered("2")) && PacketOf(ON_NOBLE, "send_packet") == Some(Numbered("3"))
    ensures PacketOf(ON_JUNO, "recv_packet") == Some(Numbered("3"))
  {
    PacketsOf(SOURCE, "", "1");
    PacketsOf(ON_OSMO, "1", "2");
    PacketsOf(ON_NOBLE, "2", "3");
    PacketsOf(ON_JUNO, "3", "");
  }

  lemma Arrives()
    ensures FullChain(DELIVERED, ["hub", "osmo", "noble", "juno"], KNOWN, SOURCE, 1, RECEIPTS, 60)
  {
    var path := ["hub", "osmo", "noble", "juno"];
    Shown();
    forall k | 0 <= k < 3 ensures LinkOk(DELIVERED, path, SOURCE, 1, RECEIPTS, 60, k) {
      var r := RECEIPTS[k];
      SeenOn(r.chain, if k == 0 then "1" else if k == 1 then "2" else "3", k + 1, if k == 0 then "1" else if k == 1 then "2" else "3");
      assert FirstConfirmed(DELIVERED, k + 1, k + 1, r.chain, r.packet, "noon");
    }
  }

  /** The route over two outbound hops that the router returns on the four chains: every packet
      arrives where it was sent, and still tracking cannot succeed. */
  lemma ArrivesUntracked(chains: seq<PathfinderChain>, ix: IndexMaps, info: MultiHopInfo)
    requires FourChains.Indexed(chains, ix) && Executable(ix, FourChains.ATOM_FOR_USDC, info)
    ensures FullChain(DELIVERED, ChainsVisited(info), KNOWN, SOURCE, 1, RECEIPTS, 60)
    ensures forall r :: !FullChain(DELIVERED, BrokerPath(FourChains.ATOM_FOR_USDC, info), KNOWN, SOURCE, 1, r, 60)
  {
    FourChains.PathCanMissAChain(chains, ix, info);
    Arrives();
    Untracked(ix, FourChains.ATOM_FOR_USDC, info);
  }

  lemma Untracked(ix: IndexMaps, req: RouteRequest, info: MultiHopInfo)
    requires Executable(ix, req, info) && req.chainTo == "juno"
    requires |info.outboundRoutes| == 2 && info.inboundPath == ["hub"] && OutboundPath(info) == ["osmo", "noble", "juno"]
    requires FullChain(DELIVERED, ["hub", "osmo", "noble", "juno"], KNOWN, SOURCE, 1, RECEIPTS, 60)
    ensures FullChain(DELIVERED, ChainsVisited(info), KNOWN, SOURCE, 1, RECEIPTS, 60)
    ensures forall r :: !FullChain(DELIVERED, BrokerPath(req, info), KNOWN, SOURCE, 1, r, 60)
  {
    assert ChainsVisited(info) == ["hub", "osmo", "noble", "juno"];
    ExecutableEnds(ix, req, info);
    TrackedExactly(ix, req, info, DELIVERED, KNOWN, SOURCE, 1, RECEIPTS, 60);
    NotShownOnJuno();
  }

  lemma NotShownOnJuno()
    ensures Undelivered(DELIVERED, 2, "juno", Numbered("2"), "noon", 60)
    ensures PacketOf(RECEIPTS[0].tx, "send_packet") == Some(Numbered("2"))
  {
    Shown();
    forall n: nat, t ensures !Delivered(DELIVERED, 2, n, "juno", Numbered("2"), "noon", 60, t) {
      SeenOn("juno", "3", n, "2");
      assert "3"[0] != "2"[0];
    }
  }
}
