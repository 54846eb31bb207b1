/** Networks that move tokens as ICS-20 (Fungible Token Transfer, "Packet relay") prescribes. */
module Ics20Networks {
  import opened RouterTypes
  import opened RouteBuilding
  import opened PacketMachine
  import opened EndToEnd
  import Ics20

  ghost predicate IsNativeDenom(cfg: Config, c: ChainId, d: Denom) {
    exists t :: t in NativeTokens(cfg, c) && t.denom == d
  }

  /** Chain c lists base of chain o as a token to be forwarded again. */
  ghost predicate Reforwards(cfg: Config, c: ChainId, o: ChainId, base: Denom) {
    exists u :: u in RoutableTokens(cfg, c) && u.originChain == o && u.originDenom == base
  }

  /** What ICS-20 makes of a token sent over channel c. */
  ghost function Sent20(hash: DenomHash, port: string, c: ChannelInfo, t: Ics20.Trace): Denom {
    Ics20.DenomOnChain(hash, Ics20.Transferred(t, port, c.channelId, port, c.counterpartyChannelId))
  }

  /** Over every channel, native tokens of the sender and vouchers of the receiver's native tokens
      arrive as ICS-20 says. */
  ghost predicate FollowsIcs20(net: Network, cfg: Config, hash: DenomHash, port: string) {
    forall a, b, d :: Lookup2(cfg.channels, a, b).Some? ==> ChannelFollows(net, cfg, hash, port, a, Lookup2(cfg.channels, a, b).value, b, d)
  }

  ghost predicate ChannelFollows(net: Network, cfg: Config, hash: DenomHash, port: string, a: ChainId, c: ChannelInfo, b: ChainId, d: Denom) {
    var voucher := Ics20.Via(port, c.channelId, Ics20.Base(d));
    && (IsNativeDenom(cfg, a, d) ==> net.arrives(a, c.channelId, d) == Sent20(hash, port, c, Ics20.Base(d)))
    && (IsNativeDenom(cfg, b, d) ==> net.arrives(a, c.channelId, Ics20.DenomOnChain(hash, voucher)) == Sent20(hash, port, c, voucher))
  }

  /** Native tokens leave as vouchers, and these come home as what they were. */
  lemma Arriving(hash: DenomHash, port: string, c: ChannelInfo, d: Denom)
    ensures Sent20(hash, port, c, Ics20.Base(d)) == ComputeIBCDenom(hash, port, c.counterpartyChannelId, d)
    ensures var voucher := Ics20.Via(port, c.channelId, Ics20.Base(d));
            && Ics20.DenomOnChain(hash, voucher) == ComputeIBCDenom(hash, port, c.channelId, d)
            && Sent20(hash, port, c, voucher) == d
  {
    assert Ics20.Path(Ics20.Base(d)) == d;
  }

  // ---------------------------------------------------------------------------------------------
  // There are such networks
  // ---------------------------------------------------------------------------------------------

  ghost predicate LeadsOver(cfg: Config, a: ChainId, channel: string, b: ChainId) {
    Lookup2(cfg.channels, a, b).Some? && Lookup2(cfg.channels, a, b).value.channelId == channel
  }

  ghost predicate VoucherOf(cfg: Config, hash: DenomHash, port: string, b: ChainId, channel: string, d: Denom, x: Denom) {
    IsNativeDenom(cfg, b, x) && d == ComputeIBCDenom(hash, port, channel, x)
  }

  ghost function Arrives20(cfg: Config, hash: DenomHash, port: string, a: ChainId, channel: string, d: Denom): Denom {
    if b :| LeadsOver(cfg, a, channel, b) then
      if IsNativeDenom(cfg, a, d) then ComputeIBCDenom(hash, port, Lookup2(cfg.channels, a, b).value.counterpartyChannelId, d)
      else if x :| VoucherOf(cfg, hash, port, b, channel, d, x) then x else d
    else d
  }

  /** Every well-formed configuration has a network that follows ICS-20. */
  lemma Ics20NetworkExists(cfg: Config, hash: DenomHash, port: string, pfm: set<ChainId>) returns (net: Network)
    requires WellFormed(cfg, hash, port)
    ensures FollowsIcs20(net, cfg, hash, port) && net.pfm == pfm
  {
    net := Network(map[], (a: ChainId, channel: string, d: Denom) => Arrives20(cfg, hash, port, a, channel, d), pfm, {});
    forall a, b, d | Lookup2(cfg.channels, a, b).Some?
      ensures ChannelFollows(net, cfg, hash, port, a, Lookup2(cfg.channels, a, b).value, b, d)
    {
      var c := Lookup2(cfg.channels, a, b).value;
      Arriving(hash, port, c, d);
      NativeArrives(cfg, hash, port, a, b, d);
      VoucherArrives(cfg, hash, port, a, b, d);
    }
  }

  lemma OneWay(cfg: Config, port: string, a: ChainId, b: ChainId)
    requires ChannelsOk(cfg, port) && Lookup2(cfg.channels, a, b).Some?
    ensures var channel := Lookup2(cfg.channels, a, b).value.channelId;
            LeadsOver(cfg, a, channel, b) && forall b' :: LeadsOver(cfg, a, channel, b') ==> b' == b
  {
    var channel := Lookup2(cfg.channels, a, b).value.channelId;
    forall b' | LeadsOver(cfg, a, channel, b') ensures b' == b {
      assert SameChannel(cfg, a, b, b');
    }
  }

  lemma NativeArrives(cfg: Config, hash: DenomHash, port: string, a: ChainId, b: ChainId, d: Denom)
    requires WellFormed(cfg, hash, port) && Lookup2(cfg.channels, a, b).Some?
    ensures var c := Lookup2(cfg.channels, a, b).value;
            IsNativeDenom(cfg, a, d) ==> Arrives20(cfg, hash, port, a, c.channelId, d) == ComputeIBCDenom(hash, port, c.counterpartyChannelId, d)
  {
    OneWay(cfg, port, a, b);
  }

  lemma VoucherArrives(cfg: Config, hash: DenomHash, port: string, a: ChainId, b: ChainId, d: Denom)
    requires WellFormed(cfg, hash, port) && Lookup2(cfg.channels, a, b).Some?
    ensures var c := Lookup2(cfg.channels, a, b).value;
            IsNativeDenom(cfg, b, d) ==> Arrives20(cfg, hash, port, a, c.channelId, ComputeIBCDenom(hash, port, c.channelId, d)) == d
  {
    OneWay(cfg, port, a, b);
    var channel := Lookup2(cfg.channels, a, b).value.channelId;
    var voucher := ComputeIBCDenom(hash, port, channel, d);
    NativeIsNoVoucher(cfg, hash, a, voucher, TraceText(port, channel, d));
    if IsNativeDenom(cfg, b, d) {
      OneVoucher(cfg, hash, port, b, channel, d);
    }
  }

  lemma OneVoucher(cfg: Config, hash: DenomHash, port: string, b: ChainId, channel: string, d: Denom)
    requires Ics20.Injective(hash) && IsNativeDenom(cfg, b, d)
    ensures var voucher := ComputeIBCDenom(hash, port, channel, d);
            VoucherOf(cfg, hash, port, b, channel, voucher, d) && forall x :: VoucherOf(cfg, hash, port, b, channel, voucher, x) ==> x == d
  {
    forall x | VoucherOf(cfg, hash, port, b, channel, ComputeIBCDenom(hash, port, channel, d), x) ensures x == d {
      Ics20.TraceTextEnd(port, channel, x, d);
    }
  }

  lemma NativeIsNoVoucher(cfg: Config, hash: DenomHash, c: ChainId, d: Denom, x: string)
    requires NativesOk(cfg, hash) && d == hash(x)
    ensures !IsNativeDenom(cfg, c, d)
  {}
}
