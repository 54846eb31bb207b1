/** Naming the token of a transfer (pathfinder/router/denom_resolver.go:64-197, 300-320). */
module DenomResolution {
  import opened RouterTypes
  import opened RouteIndexing
  import opened RouteResponses

  /** strings.LastIndex for one character; -1 if there is none. */
  function LastIndex(s: string, c: char): (i: int)
    ensures -1 <= i < |s| && (i >= 0 ==> s[i] == c)
    ensures forall j :: i < j < |s| ==> s[j] != c
  {
    if s == "" then -1
    else if s[|s| - 1] == c then |s| - 1 else LastIndex(s[..|s| - 1], c)
  }

  ghost predicate Matches(ix: IndexMaps, chain: ChainId, d: Denom, base: Denom, origin: ChainId) {
    var known := Lookup2(ix.denomToTokenInfo, chain, d);
    known.Some? && known.value.baseDenom == base && (origin == "" || known.value.originChain == origin)
  }

  /** d is the only denom on the chain with that base denom, and origin if one is named. */
  ghost predicate OnlyMatch(ix: IndexMaps, chain: ChainId, d: Denom, base: Denom, origin: ChainId) {
    Matches(ix, chain, d, base, origin) && forall x :: Matches(ix, chain, x, base, origin) ==> x == d
  }

  /** What is asked for by a readable name: before and after its last "@", if that is not in front. */
  ghost predicate Asked(input: string, base: Denom, origin: ChainId) {
    if exists i :: 0 < i < |input| && input[i] == '@' then input == base + "@" + origin && '@' !in origin && base != ""
    else base == input && origin == ""
  }

  lemma OneReading(input: string, base: Denom, origin: ChainId, base': Denom, origin': ChainId)
    requires Asked(input, base, origin) && Asked(input, base', origin')
    ensures base == base' && origin == origin'
  {
    if exists i :: 0 < i < |input| && input[i] == '@' {
      assert input[|base|] == '@' && input[|base'|] == '@';
      assert forall j :: |base| < j < |input| ==> input[j] == origin[j - |base| - 1];
      assert forall j :: |base'| < j < |input| ==> input[j] == origin'[j - |base'| - 1];
      assert base == input[..|base|] && base' == input[..|base'|];
      assert origin == input[|base| + 1..] && origin' == input[|base'| + 1..];
    }
  }

  /** resolveHumanReadableDenom: the chain's only token with the base denom, if it is the only one. */
  method ResolveHumanReadableDenom(ix: IndexMaps, chain: ChainId, input: string) returns (r: Option<Denom>)
    ensures forall base, origin :: Asked(input, base, origin) ==>
              && (r.Some? ==> OnlyMatch(ix, chain, r.value, base, origin))
              && (r.None? ==> forall d :: !OnlyMatch(ix, chain, d, base, origin))
  {
    if chain !in ix.denomToTokenInfo { return None; }
    var base, wantedOrigin := input, "";
    var idx := LastIndex(input, '@');
    if idx > 0 {
      base, wantedOrigin := input[..idx], input[idx + 1..];
      assert input == base + "@" + wantedOrigin;
    }
    assert Asked(input, base, wantedOrigin);
    var tokens := ix.denomToTokenInfo[chain];
    var matches := MatchesAmong(ix, chain, base, wantedOrigin);
    forall b, o | Asked(input, b, o) ensures b == base && o == wantedOrigin {
      OneReading(input, b, o, base, wantedOrigin);
    }
    forall d ensures OnlyMatch(ix, chain, d, base, wantedOrigin) ==> |matches| == 1 {
      if OnlyMatch(ix, chain, d, base, wantedOrigin) {
        assert matches == {d};
      }
    }
    if |matches| == 1 {
      var d :| d in matches;
      assert |matches - {d}| == 0;
      assert matches == {d};
      return Some(d);
    }
    return None;
  }

  method MatchesAmong(ix: IndexMaps, chain: ChainId, base: Denom, origin: ChainId) returns (matches: set<Denom>)
    requires chain in ix.denomToTokenInfo
    ensures forall d :: d in matches <==> Matches(ix, chain, d, base, origin)
  {
    matches := {};
    var tokens := ix.denomToTokenInfo[chain];
    var rest := tokens.Keys;
    while rest != {}
      invariant rest <= tokens.Keys
      invariant forall d :: d in matches <==> d !in rest && Matches(ix, chain, d, base, origin)
    {
      var d :| d in rest;
      rest := rest - {d};
      if tokens[d].baseDenom == base {
        if origin != "" && tokens[d].originChain != origin { continue; }
        matches := matches + {d};
      }
    }
  }

  /** The mapping names the listed token with denom d. */
  ghost predicate NamesListed(m: TokenMapping, ix: IndexMaps, chain: ChainId, d: Denom) {
    var known := Lookup2(ix.denomToTokenInfo, chain, d);
    && known.Some? && m.baseDenom == known.value.baseDenom && m.originChain == known.value.originChain
    && (m.isNative <==> known.value.originChain == chain)
  }

  /** A listed denom is named as listed; another, unless it is a voucher's name, as the only token it
      can mean by its base denom; else it is taken to be native. */
  method CreateTokenMapping(ix: IndexMaps, chain: ChainId, denom: Denom) returns (m: TokenMapping)
    ensures Lookup2(ix.denomToTokenInfo, chain, denom).Some? ==> Names(m, Lookup2(ix.denomToTokenInfo, chain, denom).value, chain)
    ensures Lookup2(ix.denomToTokenInfo, chain, denom).None? ==>
              if exists base, origin :: !("ibc/" <= denom) && Asked(denom, base, origin) && exists d :: OnlyMatch(ix, chain, d, base, origin)
              then NamesListed(m, ix, chain, m.chainDenom)
                   && forall base, origin :: Asked(denom, base, origin) ==> OnlyMatch(ix, chain, m.chainDenom, base, origin)
              else m == TokenMapping(denom, denom, chain, true)
  {
    var known := Lookup2(ix.denomToTokenInfo, chain, denom);
    if known.Some? { return MappingOf(known.value, chain); }
    if !("ibc/" <= denom) {
      var found := ResolveHumanReadableDenom(ix, chain, denom);
      if found.Some? {
        ghost var base, origin := Reading(denom);
        var info := ix.denomToTokenInfo[chain][found.value];
        return TokenMapping(found.value, info.baseDenom, info.originChain, info.originChain == chain);
      }
    }
    return TokenMapping(denom, denom, chain, true);
  }

  lemma Reading(input: string) returns (base: Denom, origin: ChainId)
    ensures Asked(input, base, origin)
  {
    base, origin := input, "";
    var idx := LastIndex(input, '@');
    if idx > 0 {
      base, origin := input[..idx], input[idx + 1..];
      assert input == base + "@" + origin;
    }
  }
}
