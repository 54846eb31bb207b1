/** Following packets across chains (client_app/src/hooks/useIbcTracking.ts,
    client_app/src/hooks/ibcTracking/util.ts). The network answers arbitrarily; time is a count of
    questions asked. */
module IbcTracking {
  import opened RouterTypes

  datatype Attribute = Attribute(key: string, value: string)
  datatype TxEvent = TxEvent(kind: string, attributes: seq<Attribute>)
  datatype Tx = Tx(txhash: string, code: int, timestamp: string, events: seq<TxEvent>)

  datatype PacketData = PacketData(dataHex: string, ordering: string, timeout: string, sequence: string, srcPort: string,
                                   srcChannel: string, dstPort: string, dstChannel: string, connectionId: string)

  datatype QueryResult = Txs(txs: seq<Tx>) | ApiError(code: int) | Nothing

  /** What the outside answers to the n-th question. */
  datatype World = World(
    transaction: (nat, ChainId, string) -> Option<Tx>,
    query: (nat, ChainId, seq<string>) -> QueryResult,
    healthyApi: (nat, ChainId) -> bool,
    interrupted: nat -> bool,
    parseTime: string -> Option<int>)

  const MAX_QUERY_LENGTH := 450

  // ---------------------------------------------------------------------------------------------
  // Packet data
  // ---------------------------------------------------------------------------------------------

  function AttributeValue(attributes: seq<Attribute>, key: string): string {
    if attributes == [] then ""
    else if attributes[0].key == key then attributes[0].value else AttributeValue(attributes[1..], key)
  }

  function GatherEventPktData(e: TxEvent): PacketData {
    PacketData(AttributeValue(e.attributes, "packet_data_hex"), AttributeValue(e.attributes, "packet_channel_ordering"),
               AttributeValue(e.attributes, "packet_timeout_timestamp"), AttributeValue(e.attributes, "packet_sequence"),
               AttributeValue(e.attributes, "packet_src_port"), AttributeValue(e.attributes, "packet_src_channel"),
               AttributeValue(e.attributes, "packet_dst_port"), AttributeValue(e.attributes, "packet_dst_channel"),
               AttributeValue(e.attributes, "connection_id"))
  }

  /** The nine attributes of a packet, as an event lists them. */
  function EventOf(kind: string, p: PacketData): TxEvent {
    TxEvent(kind, [Attribute("packet_data_hex", p.dataHex), Attribute("packet_channel_ordering", p.ordering),
                   Attribute("packet_timeout_timestamp", p.timeout), Attribute("packet_sequence", p.sequence),
                   Attribute("packet_src_port", p.srcPort), Attribute("packet_src_channel", p.srcChannel),
                   Attribute("packet_dst_port", p.dstPort), Attribute("packet_dst_channel", p.dstChannel),
                   Attribute("connection_id", p.connectionId)])
  }

  /** The event holds the attribute with that value, and no other value of it before. */
  ghost predicate FirstValue(attributes: seq<Attribute>, key: string, value: string) {
    exists i :: 0 <= i < |attributes| && attributes[i] == Attribute(key, value) && forall j :: 0 <= j < i ==> attributes[j].key != key
  }

  lemma {:induction false} FirstValueIsRead(attributes: seq<Attribute>, key: string, value: string)
    requires FirstValue(attributes, key, value)
    ensures AttributeValue(attributes, key) == value
  {
    var i :| 0 <= i < |attributes| && attributes[i] == Attribute(key, value) && forall j :: 0 <= j < i ==> attributes[j].key != key;
    if i > 0 {
      assert attributes[1..][i - 1] == attributes[i];
      assert forall j :: 0 <= j < i - 1 ==> attributes[1..][j] == attributes[j + 1];
      FirstValueIsRead(attributes[1..], key, value);
    }
  }

  lemma {:induction false} MissingIsEmpty(attributes: seq<Attribute>, key: string)
    requires forall i :: 0 <= i < |attributes| ==> attributes[i].key != key
    ensures AttributeValue(attributes, key) == ""
  {
    if attributes != [] { MissingIsEmpty(attributes[1..], key); }
  }

  /** An event that lists a packet's attributes, in whatever order and among others, is read as that packet. */
  lemma PacketIsRead(e: TxEvent, p: PacketData)
    requires forall a :: a in EventOf(e.kind, p).attributes ==> FirstValue(e.attributes, a.key, a.value)
    ensures GatherEventPktData(e) == p
  {
    var listed := EventOf(e.kind, p).attributes;
    forall k | 0 <= k < |listed| ensures AttributeValue(e.attributes, listed[k].key) == listed[k].value {
      assert listed[k] in listed;
      FirstValueIsRead(e.attributes, listed[k].key, listed[k].value);
    }
    assert listed[0].key == "packet_data_hex" && listed[1].key == "packet_channel_ordering" && listed[2].key == "packet_timeout_timestamp";
    assert listed[3].key == "packet_sequence" && listed[4].key == "packet_src_port" && listed[5].key == "packet_src_channel";
    assert listed[6].key == "packet_dst_port" && listed[7].key == "packet_dst_channel" && listed[8].key == "connection_id";
  }

  function FindEvent(events: seq<TxEvent>, kind: string): Option<TxEvent> {
    if events == [] then None
    else if events[0].kind == kind then Some(events[0]) else FindEvent(events[1..], kind)
  }

  function PacketOf(tx: Tx, kind: string): Option<PacketData> {
    var e := FindEvent(tx.events, kind);
    if e.Some? then Some(GatherEventPktData(e.value)) else None
  }

  predicate VerifyPacketData(received: PacketData, expected: PacketData) {
    if received.dataHex != expected.dataHex then false
    else received.sequence == expected.sequence && received.srcChannel == expected.srcChannel
         && received.dstChannel == expected.dstChannel
  }

  /** An unparseable time compares false, as NaN does. */
  predicate VerifyTransactionTimestamp(w: World, received: string, source: string) {
    var r, s := w.parseTime(received), w.parseTime(source);
    r.Some? && s.Some? && r.value >= s.value - 10000
  }

  // ---------------------------------------------------------------------------------------------
  // Queries
  // ---------------------------------------------------------------------------------------------

  function Joined(queries: seq<string>): string {
    if queries == [] then "" else if |queries| == 1 then queries[0] else queries[0] + " AND " + Joined(queries[1..])
  }

  function Clause(head: string, value: string): string { head + value + "'" }

  function FullStrategy(p: PacketData): seq<string> {
    [Clause("recv_packet.packet_data_hex='", p.dataHex), Clause("recv_packet.packet_sequence='", p.sequence),
     Clause("recv_packet.packet_src_channel='", p.srcChannel)]
  }

  function ShortStrategy(p: PacketData): seq<string> {
    [Clause("recv_packet.packet_data_hex='", p.dataHex), Clause("recv_packet.packet_sequence='", p.sequence)]
  }

  function ChannelStrategy(p: PacketData): seq<string> {
    [Clause("recv_packet.packet_sequence='", p.sequence), Clause("recv_packet.packet_src_channel='", p.srcChannel),
     Clause("recv_packet.packet_dst_channel='", p.dstChannel), Clause("recv_packet.packet_timeout_timestamp='", p.timeout)]
  }

  /** The most specific that fits; the last is used whatever its length. */
  function StrategyFor(p: PacketData): seq<string> {
    if |Joined(FullStrategy(p))| <= MAX_QUERY_LENGTH then FullStrategy(p)
    else if |Joined(ShortStrategy(p))| <= MAX_QUERY_LENGTH then ShortStrategy(p)
    else ChannelStrategy(p)
  }

  /** The queries say what they look for: data, sequence and source channel if that fits into 450
      characters, else data and sequence, else sequence, channels and timeout. */
  ghost predicate LooksFor(queries: seq<string>, p: PacketData) {
    var data, number := "recv_packet.packet_data_hex='" + p.dataHex + "'", "recv_packet.packet_sequence='" + p.sequence + "'";
    var source, dest := "recv_packet.packet_src_channel='" + p.srcChannel + "'", "recv_packet.packet_dst_channel='" + p.dstChannel + "'";
    var timeout := "recv_packet.packet_timeout_timestamp='" + p.timeout + "'";
    if |data| + 5 + |number| + 5 + |source| <= 450 then queries == [data, number, source]
    else if |data| + 5 + |number| <= 450 then queries == [data, number]
    else queries == [number, source, dest, timeout]
  }

  lemma JoinedLength(a: string, b: string, c: string)
    ensures |Joined([a, b])| == |a| + 5 + |b| && |Joined([a, b, c])| == |a| + 5 + |b| + 5 + |c|
  {
    assert [a, b][1..] == [b] && [a, b, c][1..] == [b, c] && [b, c][1..] == [c];
    assert Joined([b, c]) == b + " AND " + Joined([c]);
  }

  lemma StrategyLooksFor(p: PacketData)
    ensures LooksFor(StrategyFor(p), p)
  {
    var full := FullStrategy(p);
    JoinedLength(full[0], full[1], full[2]);
  }

  /** Although the caller is written for several strategies, there is always exactly one. */
  method BuildQueryStrategies(p: PacketData) returns (strategies: seq<seq<string>>)
    ensures strategies == [StrategyFor(p)] && LooksFor(strategies[0], p)
  {
    StrategyLooksFor(p);
    strategies := [];
    if |Joined(FullStrategy(p))| <= MAX_QUERY_LENGTH {
      return strategies + [FullStrategy(p)];
    }
    if |Joined(ShortStrategy(p))| <= MAX_QUERY_LENGTH {
      return strategies + [ShortStrategy(p)];
    }
    strategies := strategies + [ChannelStrategy(p)];
  }

  /** The transaction receives the packet, and not before sourceTime. */
  predicate Matches(w: World, tx: Tx, p: PacketData, sourceTime: string) {
    && PacketOf(tx, "recv_packet").Some? && VerifyPacketData(PacketOf(tx, "recv_packet").value, p)
    && (sourceTime != "" ==> VerifyTransactionTimestamp(w, tx.timestamp, sourceTime))
  }

  ghost predicate FirstOfKind(events: seq<TxEvent>, kind: string, i: nat) {
    i < |events| && events[i].kind == kind && forall j :: 0 <= j < i ==> events[j].kind != kind
  }

  lemma {:induction false} FoundEventIsFirst(events: seq<TxEvent>, kind: string)
    ensures var e := FindEvent(events, kind);
            if e.Some? then exists i: nat :: FirstOfKind(events, kind, i) && events[i] == e.value
            else forall i :: 0 <= i < |events| ==> events[i].kind != kind
  {
    if events != [] {
      FoundEventIsFirst(events[1..], kind);
      assert forall j :: 0 < j < |events| ==> events[1..][j - 1] == events[j];
      if events[0].kind == kind {
        assert FirstOfKind(events, kind, 0);
      } else if FindEvent(events[1..], kind).Some? {
        var i: nat :| FirstOfKind(events[1..], kind, i) && events[1..][i] == FindEvent(events[1..], kind).value;
        assert FirstOfKind(events, kind, i + 1);
      }
    }
  }

  /** A transaction matches exactly if its first recv_packet event has the packet's data, sequence and
      channels and, when a source time is given, both times parse and it is at most ten seconds earlier. */
  lemma MatchesExactly(w: World, tx: Tx, p: PacketData, sourceTime: string)
    ensures Matches(w, tx, p, sourceTime) <==>
            && (exists i: nat :: FirstOfKind(tx.events, "recv_packet", i) && SamePacket(GatherEventPktData(tx.events[i]), p))
            && (sourceTime != "" ==>
                  && w.parseTime(sourceTime).Some? && w.parseTime(tx.timestamp).Some?
                  && w.parseTime(tx.timestamp).value >= w.parseTime(sourceTime).value - 10_000)
  {
    FoundEventIsFirst(tx.events, "recv_packet");
    forall i: nat, j: nat | FirstOfKind(tx.events, "recv_packet", i) && FirstOfKind(tx.events, "recv_packet", j) ensures i == j {}
  }

  ghost predicate SamePacket(received: PacketData, sent: PacketData) {
    && received.dataHex == sent.dataHex && received.sequence == sent.sequence
    && received.srcChannel == sent.srcChannel && received.dstChannel == sent.dstChannel
  }

  /** Asked as the n-th question, the chain shows a matching transaction first. */
  predicate Confirms(w: World, n: nat, chain: ChainId, p: PacketData, sourceTime: string) {
    w.healthyApi(n, chain) &&
    match w.query(n, chain, StrategyFor(p))
    case Txs(txs) => txs != [] && Matches(w, txs[0], p, sourceTime)
    case _ => false
  }

  function ConfirmingTx(w: World, n: nat, chain: ChainId, p: PacketData, sourceTime: string): Tx
    requires Confirms(w, n, chain, p, sourceTime)
  {
    w.query(n, chain, StrategyFor(p)).txs[0]
  }

  method QueryIbcReceive(w: World, now: nat, chain: ChainId, p: PacketData, sourceTime: string) returns (r: QueryResult)
    ensures r.Txs? <==> Confirms(w, now, chain, p, sourceTime)
    ensures r.Txs? ==> r.txs != [] && r.txs[0] == ConfirmingTx(w, now, chain, p, sourceTime)
  {
    if !w.healthyApi(now, chain) { return ApiError(400); }
    var strategies := BuildQueryStrategies(p);
    var i := 0;
    while i < |strategies|
      invariant 0 <= i <= |strategies|
      invariant i > 0 ==> !Confirms(w, now, chain, p, sourceTime)
    {
      var result := w.query(now, chain, strategies[i]);
      i := i + 1;
      match result {
        case Txs(txs) =>
          if |txs| == 0 { continue; }
          var received := PacketOf(txs[0], "recv_packet");
          if received.None? || !VerifyPacketData(received.value, p) { continue; }
          if sourceTime != "" && !VerifyTransactionTimestamp(w, txs[0].timestamp, sourceTime) { return Nothing; }
          return result;
        case Nothing => continue;
        case ApiError(_) =>
          if i == |strategies| { return result; }
          return Nothing;
      }
    }
    return Nothing;
  }

  // ---------------------------------------------------------------------------------------------
  // One hop
  // ---------------------------------------------------------------------------------------------

  datatype TrackingResult = TrackingResult(success: bool, txHash: string, nextSendPacket: Option<PacketData>, recvTimestamp: string)

  const FAILED := TrackingResult(false, "", None, "")

  /** Polling from question `from` on, the n-th is the first to be confirmed, before any interruption. */
  ghost predicate FirstConfirmed(w: World, from: nat, n: nat, chain: ChainId, p: PacketData, sourceTime: string) {
    && from <= n && Confirms(w, n, chain, p, sourceTime)
    && (forall m: nat :: from <= m <= n ==> !w.interrupted(m))
    && (forall m: nat :: from <= m < n ==> !Confirms(w, m, chain, p, sourceTime))
  }

  /** Polling from question `from` on, within maxAttempts questions, the n-th is the first to be
      confirmed, and shows the successful transaction tx. */
  ghost predicate Delivered(w: World, from: nat, n: nat, chain: ChainId, p: PacketData, sourceTime: string, maxAttempts: nat, tx: Tx) {
    && n < from + maxAttempts && FirstConfirmed(w, from, n, chain, p, sourceTime)
    && ConfirmingTx(w, n, chain, p, sourceTime) == tx && tx.code == 0
  }

  ghost predicate Undelivered(w: World, from: nat, chain: ChainId, p: PacketData, sourceTime: string, maxAttempts: nat) {
    forall n: nat, t :: !Delivered(w, from, n, chain, p, sourceTime, maxAttempts, t)
  }

  /** Polls at most maxAttempts times; succeeds exactly if the packet's delivery can be seen. */
  method WaitForConfirmation(w: World, now: nat, chain: ChainId, p: PacketData, sourceTime: string, maxAttempts: nat)
    returns (r: TrackingResult, after: nat, ghost tx: Option<Tx>)
    ensures now <= after <= now + maxAttempts
    ensures r.success <==> tx.Some?
    ensures r.success ==>
              && after > now && Delivered(w, now, after - 1, chain, p, sourceTime, maxAttempts, tx.value)
              && r.txHash == tx.value.txhash && r.recvTimestamp == tx.value.timestamp
              && r.nextSendPacket == PacketOf(tx.value, "send_packet")
    ensures !r.success ==> Undelivered(w, now, chain, p, sourceTime, maxAttempts)
  {
    after, tx := now, None;
    var attempt := 1;
    while attempt <= maxAttempts
      invariant 1 <= attempt <= maxAttempts + 1 && after == now + attempt - 1
      invariant forall m: nat :: now <= m < after ==> !w.interrupted(m) && !Confirms(w, m, chain, p, sourceTime)
    {
      if w.interrupted(after) { return FAILED, after, None; }
      var received := QueryIbcReceive(w, after, chain, p, sourceTime);
      after := after + 1;
      if received.Txs? && |received.txs| > 0 {
        var found := received.txs[0];
        assert FirstConfirmed(w, now, after - 1, chain, p, sourceTime);
        if found.code == 0 {
          return TrackingResult(true, found.txhash, PacketOf(found, "send_packet"), found.timestamp), after, Some(found);
        } else {
          return TrackingResult(false, found.txhash, None, ""), after, None;
        }
      }
      attempt := attempt + 1;
    }
    return FAILED, after, None;
  }

  // ---------------------------------------------------------------------------------------------
  // Every hop
  // ---------------------------------------------------------------------------------------------

  /** A receive transaction with the packet it was matched against, and the questions from which and
      up to which the chain was polled for it. */
  datatype Receipt = Receipt(chain: ChainId, packet: PacketData, sourceTime: string, since: nat, until: nat, tx: Tx)

  /** Each receipt is on the next chain of the path, succeeded, and receives the packet that the
      transaction before it sent (the first: a packet the source transaction sent); polling for it
      began where polling for the one before ended, the first at question `start`. */
  ghost predicate UnbrokenChain(w: World, path: seq<ChainId>, source: Tx, start: nat, receipts: seq<Receipt>, maxAttempts: nat) {
    && |receipts| < |path|
    && forall k :: 0 <= k < |receipts| ==> LinkOk(w, path, source, start, receipts, maxAttempts, k)
  }

  function Sender(source: Tx, receipts: seq<Receipt>, k: nat): Tx
    requires k <= |receipts|
  {
    if k == 0 then source else receipts[k - 1].tx
  }

  function Since(start: nat, receipts: seq<Receipt>, k: nat): nat
    requires k <= |receipts|
  {
    if k == 0 then start else receipts[k - 1].until
  }

  ghost predicate LinkOk(w: World, path: seq<ChainId>, source: Tx, start: nat, receipts: seq<Receipt>, maxAttempts: nat, k: nat)
    requires k < |receipts| < |path|
  {
    var r, sender := receipts[k], Sender(source, receipts, k);
    && r.chain == path[k + 1] && r.since == Since(start, receipts, k) < r.until
    && PacketOf(sender, "send_packet") == Some(r.packet) && r.sourceTime == sender.timestamp
    && Delivered(w, r.since, r.until - 1, r.chain, r.packet, r.sourceTime, maxAttempts, r.tx)
  }

  /** What a receipt says about its transaction: it is a successful receipt of that very packet. */
  lemma ReceiptReceives(w: World, path: seq<ChainId>, source: Tx, start: nat, receipts: seq<Receipt>, maxAttempts: nat, k: nat)
    requires UnbrokenChain(w, path, source, start, receipts, maxAttempts) && k < |receipts|
    ensures receipts[k].chain == path[k + 1] && receipts[k].tx.code == 0
    ensures PacketOf(Sender(source, receipts, k), "send_packet").Some? && PacketOf(receipts[k].tx, "recv_packet").Some?
    ensures var sent := PacketOf(Sender(source, receipts, k), "send_packet").value;
            var received := PacketOf(receipts[k].tx, "recv_packet").value;
            SamePacket(received, sent)
    ensures var sentAt, receivedAt := Sender(source, receipts, k).timestamp, receipts[k].tx.timestamp;
            sentAt != "" ==>
              w.parseTime(sentAt).Some? && w.parseTime(receivedAt).Some? && w.parseTime(receivedAt).value >= w.parseTime(sentAt).value - 10_000
  {
    assert LinkOk(w, path, source, start, receipts, maxAttempts, k);
  }

  lemma ChainSnoc(w: World, path: seq<ChainId>, source: Tx, start: nat, receipts: seq<Receipt>, maxAttempts: nat, r: Receipt)
    requires UnbrokenChain(w, path, source, start, receipts, maxAttempts) && |receipts| + 1 < |path|
    requires var sender := Sender(source, receipts, |receipts|);
             && r.chain == path[|receipts| + 1] && r.since == Since(start, receipts, |receipts|) < r.until
             && PacketOf(sender, "send_packet") == Some(r.packet) && r.sourceTime == sender.timestamp
             && Delivered(w, r.since, r.until - 1, r.chain, r.packet, r.sourceTime, maxAttempts, r.tx)
    ensures UnbrokenChain(w, path, source, start, receipts + [r], maxAttempts)
  {
    forall k | 0 <= k < |receipts + [r]| ensures LinkOk(w, path, source, start, receipts + [r], maxAttempts, k) {
      if k < |receipts| { assert LinkOk(w, path, source, start, receipts, maxAttempts, k); }
    }
  }

  ghost predicate Sends(tx: Option<Tx>) {
    tx.Some? && PacketOf(tx.value, "send_packet").Some?
  }

  /** The source transaction, asked for at most maxAttempts + 1 times: the first answer that sent a packet. */
  method FetchSource(w: World, now: nat, chain: ChainId, txHash: string, maxAttempts: nat)
    returns (source: Option<Tx>, after: nat)
    ensures now < after <= now + maxAttempts + 1
    ensures forall n: nat :: now <= n < after - 1 ==> !Sends(w.transaction(n, chain, txHash))
    ensures source.Some? ==> Sends(source) && w.transaction(after - 1, chain, txHash) == source
    ensures source.None? ==> after == now + maxAttempts + 1 && !Sends(w.transaction(after - 1, chain, txHash))
  {
    after := now;
    var attempt := 0;
    while attempt <= maxAttempts
      invariant 0 <= attempt <= maxAttempts + 1 && after == now + attempt
      invariant forall n: nat :: now <= n < after ==> !Sends(w.transaction(n, chain, txHash))
    {
      source := w.transaction(after, chain, txHash);
      after := after + 1;
      if source.Some? && PacketOf(source.value, "send_packet").Some? { return; }
      attempt := attempt + 1;
    }
    return None, after;
  }

  /** Reports of completed chains: 1, 2, 3, ... */
  ghost predicate CountsUp(reports: seq<nat>) {
    forall k :: 0 <= k < |reports| ==> reports[k] == k + 1
  }

  /** Questions allowed for k hops. */
  function Budget(k: nat, maxAttempts: nat): nat {
    if k == 0 then 0 else Budget(k - 1, maxAttempts) + maxAttempts
  }

  lemma {:induction false} BudgetGrows(j: nat, k: nat, maxAttempts: nat)
    requires j <= k
    ensures Budget(j, maxAttempts) <= Budget(k, maxAttempts)
  {
    if j < k { BudgetGrows(j, k - 1, maxAttempts); }
  }

  /** Tracking so far: hop receipts, and the packet to look for next. */
  ghost predicate Following(w: World, path: seq<ChainId>, source: Tx, start: nat, receipts: seq<Receipt>, maxAttempts: nat,
                            packet: PacketData, sourceTime: string)
  {
    && UnbrokenChain(w, path, source, start, receipts, maxAttempts)
    && var sender := Sender(source, receipts, |receipts|);
       PacketOf(sender, "send_packet") == Some(packet) && sourceTime == sender.timestamp
  }

  /** Why tracking stops short: the last transaction sent nothing on, the next chain is not
      configured, or polling there, from where polling before it ended, shows no delivery. */
  ghost predicate Stuck(w: World, path: seq<ChainId>, known: set<ChainId>, maxAttempts: nat, source: Tx, start: nat, receipts: seq<Receipt>) {
    && UnbrokenChain(w, path, source, start, receipts, maxAttempts) && |receipts| + 1 < |path|
    && var sender := Sender(source, receipts, |receipts|);
       var packet := PacketOf(sender, "send_packet");
       || packet.None? || path[|receipts| + 1] !in known
       || Undelivered(w, Since(start, receipts, |receipts|), path[|receipts| + 1], packet.value, sender.timestamp, maxAttempts)
  }

  /** One iteration of the hop loop. */
  method TrackHop(w: World, now: nat, path: seq<ChainId>, known: set<ChainId>, maxAttempts: nat, hop: nat,
                  packet: PacketData, sourceTime: string, ghost source: Tx, ghost start: nat, ghost receipts: seq<Receipt>)
    returns (r: TrackingResult, after: nat, ghost receipts': seq<Receipt>)
    requires hop + 1 < |path| && |receipts| == hop && Following(w, path, source, start, receipts, maxAttempts, packet, sourceTime)
    requires now == Since(start, receipts, hop)
    ensures now <= after <= now + maxAttempts
    ensures r.success ==> UnbrokenChain(w, path, source, start, receipts', maxAttempts) && |receipts'| == hop + 1
    ensures r.success ==> r.txHash == receipts'[hop].tx.txhash && after == receipts'[hop].until
    ensures r.success ==> r.nextSendPacket == PacketOf(receipts'[hop].tx, "send_packet")
    ensures r.success ==> r.recvTimestamp == receipts'[hop].tx.timestamp && path[hop + 1] in known
    ensures !r.success ==> receipts' == receipts && Stuck(w, path, known, maxAttempts, source, start, receipts)
  {
    receipts' := receipts;
    if path[hop + 1] !in known { return FAILED, now, receipts; }
    ghost var tx;
    r, after, tx := WaitForConfirmation(w, now, path[hop + 1], packet, sourceTime, maxAttempts);
    if r.success {
      var receipt := Receipt(path[hop + 1], packet, sourceTime, now, after, tx.value);
      ChainSnoc(w, path, source, start, receipts, maxAttempts, receipt);
      receipts' := receipts + [receipt];
    }
  }

  /** Success on a path of n chains rests on n-1 successful receive transactions, one per chain
      after the first, each receiving the packet the one before it sent, and comes exactly if there
      are such; failure names the first hop at which they cannot be continued. Completed counts are reported 1, 2, ..., one
      per confirmed hop, and reach n exactly on success; each hop asks at most maxAttempts times. */
  method TrackSmartTransferMultiHop(w: World, sourceChain: ChainId, sourceTxHash: string, path: seq<ChainId>,
                                    known: set<ChainId>, maxAttempts: nat)
    returns (r: TrackingResult, reports: seq<nat>, after: nat, ghost source: Option<Tx>, ghost start: nat, ghost receipts: seq<Receipt>)
    ensures |path| < 2 ==> r.success && reports == []
    ensures |path| >= 2 && source.Some? ==>
              && 0 < start <= maxAttempts + 1 && w.transaction(start - 1, sourceChain, sourceTxHash) == source && Sends(source)
              && forall n: nat :: n < start - 1 ==> !Sends(w.transaction(n, sourceChain, sourceTxHash))
    ensures |path| >= 2 && source.None? ==> forall n: nat :: n <= maxAttempts ==> !Sends(w.transaction(n, sourceChain, sourceTxHash))
    ensures r.success && |path| >= 2 ==>
              && source.Some? && FullChain(w, path, known, source.value, start, receipts, maxAttempts)
              && r.txHash == receipts[|path| - 2].tx.txhash
    ensures |path| >= 2 && source.Some? ==>
              (r.success <==> exists full :: FullChain(w, path, known, source.value, start, full, maxAttempts))
    ensures !r.success && source.Some? ==> Stuck(w, path, known, maxAttempts, source.value, start, receipts)
    ensures source.None? && |path| >= 2 ==> !r.success && receipts == []
    ensures CountsUp(reports)
    ensures |path| >= 2 ==> |reports| == |receipts| + if r.success then 1 else 0
    ensures after <= maxAttempts + 1 + Budget(|path|, maxAttempts)
  {
    reports, after, source, start, receipts := [], 0, None, 0, [];
    if |path| < 2 { return TrackingResult(true, sourceTxHash, None, ""), reports, after, source, start, receipts; }
    var first;
    first, after := FetchSource(w, 0, sourceChain, sourceTxHash, maxAttempts);
    source, start := first, after;
    if first.None? { return FAILED, reports, after, source, start, receipts; }
    r, reports, after, receipts := FollowPackets(w, after, path, known, maxAttempts, PacketOf(first.value, "send_packet").value,
                                                 first.value.timestamp, first.value);
    if !r.success {
      forall full ensures !FullChain(w, path, known, first.value, start, full, maxAttempts) {
        StuckHasNoFullChain(w, path, known, maxAttempts, first.value, start, receipts, full);
      }
    }
  }

  method FollowPackets(w: World, now: nat, path: seq<ChainId>, known: set<ChainId>, maxAttempts: nat,
                       firstPacket: PacketData, firstTime: string, ghost source: Tx)
    returns (r: TrackingResult, reports: seq<nat>, after: nat, ghost receipts: seq<Receipt>)
    requires |path| >= 2 && Following(w, path, source, now, [], maxAttempts, firstPacket, firstTime)
    ensures r.success ==> FullChain(w, path, known, source, now, receipts, maxAttempts)
    ensures r.success ==> r.txHash == receipts[|path| - 2].tx.txhash
    ensures !r.success ==> Stuck(w, path, known, maxAttempts, source, now, receipts)
    ensures CountsUp(reports) && |reports| == |receipts| + if r.success then 1 else 0
    ensures after <= now + Budget(|path|, maxAttempts)
  {
    reports, after, receipts := [], now, [];
    var packet, sourceTime := firstPacket, firstTime;
    var hop := 0;
    BudgetGrows(0, |path|, maxAttempts);
    while true
      invariant hop < |path| - 1 && |receipts| == hop == |reports|
      invariant after <= now + Budget(hop, maxAttempts) && after == Since(now, receipts, hop)
      invariant Following(w, path, source, now, receipts, maxAttempts, packet, sourceTime) && CountsUp(reports)
      invariant forall k :: 0 < k <= hop ==> path[k] in known
      decreases |path| - hop
    {
      BudgetGrows(hop + 1, |path|, maxAttempts);
      r, after, receipts := TrackHop(w, after, path, known, maxAttempts, hop, packet, sourceTime, source, now, receipts);
      if !r.success { return; }
      reports := reports + [hop + 1];
      hop := hop + 1;
      if hop == |path| - 1 {
        reports := reports + [|path|];
        return;
      }
      if r.nextSendPacket.None? {
        r := r.(success := false);
        return;
      }
      packet, sourceTime := r.nextSendPacket.value, r.recvTimestamp;
    }
  }

  /** Every chain after the first is configured and received what the one before it sent. */
  ghost predicate FullChain(w: World, path: seq<ChainId>, known: set<ChainId>, source: Tx, start: nat, receipts: seq<Receipt>, maxAttempts: nat) {
    && UnbrokenChain(w, path, source, start, receipts, maxAttempts) && |receipts| == |path| - 1
    && forall k :: 0 < k < |path| ==> path[k] in known
  }

  /** There is only one chain of receipts: two agree as far as both go. */
  lemma {:induction false} ChainsAgree(w: World, path: seq<ChainId>, source: Tx, start: nat, a: seq<Receipt>, b: seq<Receipt>, maxAttempts: nat, k: nat)
    requires UnbrokenChain(w, path, source, start, a, maxAttempts) && UnbrokenChain(w, path, source, start, b, maxAttempts)
    requires k < |a| && k < |b|
    ensures a[k] == b[k]
  {
    if k > 0 { ChainsAgree(w, path, source, start, a, b, maxAttempts, k - 1); }
    assert LinkOk(w, path, source, start, a, maxAttempts, k) && LinkOk(w, path, source, start, b, maxAttempts, k);
    FirstIsUnique(w, a[k].since, a[k].until - 1, b[k].until - 1, a[k].chain, a[k].packet, a[k].sourceTime);
  }

  lemma FirstIsUnique(w: World, from: nat, m: nat, n: nat, chain: ChainId, p: PacketData, sourceTime: string)
    requires FirstConfirmed(w, from, m, chain, p, sourceTime) && FirstConfirmed(w, from, n, chain, p, sourceTime)
    ensures m == n
  {}

  lemma LinkNeedsDelivery(w: World, path: seq<ChainId>, source: Tx, start: nat, receipts: seq<Receipt>, maxAttempts: nat, k: nat)
    requires UnbrokenChain(w, path, source, start, receipts, maxAttempts) && k < |receipts|
    ensures var sender := Sender(source, receipts, k);
            var packet := PacketOf(sender, "send_packet");
            packet.Some? && !Undelivered(w, Since(start, receipts, k), path[k + 1], packet.value, sender.timestamp, maxAttempts)
  {
    assert LinkOk(w, path, source, start, receipts, maxAttempts, k);
  }

  /** A transfer reported stuck has no full chain. */
  lemma StuckHasNoFullChain(w: World, path: seq<ChainId>, known: set<ChainId>, maxAttempts: nat, source: Tx, start: nat,
                            receipts: seq<Receipt>, other: seq<Receipt>)
    requires Stuck(w, path, known, maxAttempts, source, start, receipts)
    ensures !FullChain(w, path, known, source, start, other, maxAttempts)
  {
    if FullChain(w, path, known, source, start, other, maxAttempts) {
      var k := |receipts|;
      if k > 0 { ChainsAgree(w, path, source, start, receipts, other, maxAttempts, k - 1); }
      LinkNeedsDelivery(w, path, source, start, other, maxAttempts, k);
    }
  }
}
