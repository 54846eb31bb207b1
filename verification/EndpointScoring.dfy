/** Consensus scoring of endpoints (config_manager/validator/validator.go). Go maps are ranged in
    any order; the tallies that no check reads (block hash, height, time) are not modelled. */
module EndpointScoring {
  import opened RouterTypes

  datatype Field = FChainId | FLastCommit | FData | FValidators | FNextValidators | FConsensus | FApp | FLastResults | FEvidence | FProposer

  datatype Header = Header(chainId: string, lastCommitHash: string, dataHash: string, validatorsHash: string,
                           nextValidatorsHash: string, consensusHash: string, appHash: string, lastResultsHash: string,
                           evidenceHash: string, proposerAddress: string)

  /** A missing block is a nil pointer under its height. */
  datatype Endpoint = Endpoint(points: int, valid: bool, blockData: map<int, Option<Header>>)

  const FIELDS: seq<Field> := [FChainId, FLastCommit, FData, FValidators, FNextValidators, FConsensus, FApp, FLastResults, FEvidence, FProposer]

  const MISMATCH_PENALTY := 10
  const THRESHOLD := 60

  function Get(h: Header, f: Field): string {
    match f
    case FChainId => h.chainId
    case FLastCommit => h.lastCommitHash
    case FData => h.dataHash
    case FValidators => h.validatorsHash
    case FNextValidators => h.nextValidatorsHash
    case FConsensus => h.consensusHash
    case FApp => h.appHash
    case FLastResults => h.lastResultsHash
    case FEvidence => h.evidenceHash
    case FProposer => h.proposerAddress
  }

  /** The fields tell headers apart. */
  lemma HeaderFields(a: Header, b: Header)
    ensures (forall f :: Get(a, f) == Get(b, f)) <==> a == b
  {
    if forall f :: Get(a, f) == Get(b, f) {
      assert Get(a, FChainId) == Get(b, FChainId) && Get(a, FLastCommit) == Get(b, FLastCommit) && Get(a, FData) == Get(b, FData);
      assert Get(a, FValidators) == Get(b, FValidators) && Get(a, FNextValidators) == Get(b, FNextValidators);
      assert Get(a, FConsensus) == Get(b, FConsensus) && Get(a, FApp) == Get(b, FApp) && Get(a, FLastResults) == Get(b, FLastResults);
      assert Get(a, FEvidence) == Get(b, FEvidence) && Get(a, FProposer) == Get(b, FProposer);
    }
  }

  // ---------------------------------------------------------------------------------------------
  // Votes
  // ---------------------------------------------------------------------------------------------

  type Endpoints = map<string, Endpoint>

  /** A valid endpoint with a block at the height votes with that block's fields. */
  predicate Votes(vs: Endpoints, u: string, height: int) {
    u in vs && vs[u].valid && height in vs[u].blockData && vs[u].blockData[height].Some?
  }

  ghost function Voters(vs: Endpoints, height: int): set<string> {
    set u | u in vs && Votes(vs, u, height)
  }

  predicate VotesFor(vs: Endpoints, u: string, height: int, f: Field, v: string) {
    Votes(vs, u, height) && Get(vs[u].blockData[height].value, f) == v
  }

  ghost function VotersFor(vs: Endpoints, among: set<(string, int)>, height: int, f: Field, v: string): set<string> {
    set u | u in vs && (u, height) in among && VotesFor(vs, u, height, f, v)
  }

  ghost function AllVotes(vs: Endpoints): set<(string, int)> {
    set u, h | u in vs && h in vs[u].blockData && Votes(vs, u, h) :: (u, h)
  }

  lemma IsVote(vs: Endpoints, u: string, height: int)
    ensures (u, height) in AllVotes(vs) <==> Votes(vs, u, height)
  {
    if Votes(vs, u, height) {
      assert u in vs && height in vs[u].blockData;
    }
  }

  type Counts = map<string, nat>
  type Tracker = map<int, map<Field, Counts>>

  function Tally(t: Tracker, height: int, f: Field, v: string): nat {
    if height in t && f in t[height] && v in t[height][f] then t[height][f][v] else 0
  }

  /** The tracker counts exactly the votes cast so far, and holds no zero counts. */
  ghost predicate Tallied(t: Tracker, vs: Endpoints, cast: set<(string, int)>) {
    && (forall h, f, v :: Tally(t, h, f, v) == |VotersFor(vs, cast, h, f, v)|)
    && (forall h :: h in t <==> exists u :: (u, h) in cast)
    && (forall h, f, v :: h in t && f in t[h] && v in t[h][f] ==> t[h][f][v] > 0)
    && (forall h, f :: h in t ==> f in t[h])
  }

  function Increment(c: Counts, v: string): Counts {
    c[v := (if v in c then c[v] else 0) + 1]
  }

  /** The increments for one block: one per field. */
  function AddBlock(t: Tracker, height: int, b: Header): Tracker {
    var soFar := if height in t then t[height] else map[];
    t[height := map f: Field | true :: Increment(if f in soFar then soFar[f] else map[], Get(b, f))]
  }

  lemma VoterAdded(vs: Endpoints, cast: set<(string, int)>, u: string, height: int, h: int, f: Field, v: string)
    requires Votes(vs, u, height) && (u, height) !in cast
    ensures |VotersFor(vs, cast + {(u, height)}, h, f, v)| ==
            |VotersFor(vs, cast, h, f, v)| + if h == height && Get(vs[u].blockData[height].value, f) == v then 1 else 0
  {
    var more, before := VotersFor(vs, cast + {(u, height)}, h, f, v), VotersFor(vs, cast, h, f, v);
    var joins := h == height && VotesFor(vs, u, height, f, v);
    forall x ensures x in more <==> x in before || (joins && x == u) {
      assert (x, h) in cast + {(u, height)} <==> (x, h) in cast || (x == u && h == height);
    }
    if joins {
      assert u !in before;
      assert more == before + {u};
    } else {
      assert more == before;
    }
  }

  lemma BlockTallied(t: Tracker, height: int, b: Header, h: int, f: Field, v: string)
    ensures Tally(AddBlock(t, height, b), h, f, v) == Tally(t, h, f, v) + if h == height && Get(b, f) == v then 1 else 0
  {}

  lemma CastVote(t: Tracker, vs: Endpoints, cast: set<(string, int)>, u: string, height: int)
    requires Tallied(t, vs, cast) && Votes(vs, u, height) && (u, height) !in cast
    ensures Tallied(AddBlock(t, height, vs[u].blockData[height].value), vs, cast + {(u, height)})
  {
    var b, cast' := vs[u].blockData[height].value, cast + {(u, height)};
    var t' := AddBlock(t, height, b);
    forall h, f, v ensures Tally(t', h, f, v) == |VotersFor(vs, cast', h, f, v)| {
      VoterAdded(vs, cast, u, height, h, f, v);
      BlockTallied(t, height, b, h, f, v);
    }
    forall h ensures h in t' <==> exists x :: (x, h) in cast' {
      if h == height { assert (u, h) in cast'; }
      if h in t {
        var x :| (x, h) in cast;
        assert (x, h) in cast';
      }
    }
  }

  /** A non-empty set of heights has a member to range over. */
  lemma SomeHeight(heights: set<int>)
    ensures heights != {} ==> exists h: int :: h in heights
  {
    if forall h: int :: h !in heights {
      assert heights == {};
    }
  }

  /** The first pass over all endpoints. */
  method BuildTracker(vs: Endpoints) returns (t: Tracker)
    ensures Tallied(t, vs, AllVotes(vs))
  {
    t := map[];
    ghost var cast: set<(string, int)> := {};
    assert forall h, f, v :: VotersFor(vs, cast, h, f, v) == {};
    var rest := vs.Keys;
    while rest != {}
      invariant rest <= vs.Keys
      invariant Tallied(t, vs, cast)
      invariant forall u, h :: (u, h) in cast <==> Votes(vs, u, h) && u !in rest
    {
      var u :| u in rest;
      rest := rest - {u};
      if !vs[u].valid { continue; }
      var heights := vs[u].blockData.Keys;
      while heights != {}
        invariant heights <= vs[u].blockData.Keys
        invariant Tallied(t, vs, cast)
        invariant forall x, h :: (x, h) in cast <==> Votes(vs, x, h) && x !in rest && (x == u ==> h !in heights)
      {
        SomeHeight(heights);
        var h :| h in heights;
        heights := heights - {h};
        if vs[u].blockData[h].None? { continue; }
        CastVote(t, vs, cast, u, h);
        t := AddBlock(t, h, vs[u].blockData[h].value);
        cast := cast + {(u, h)};
      }
    }
    forall p: (string, int) ensures p in cast <==> p in AllVotes(vs) {
      assert p == (p.0, p.1);
      IsVote(vs, p.0, p.1);
    }
    assert cast == AllVotes(vs);
  }

  // ---------------------------------------------------------------------------------------------
  // Consensus
  // ---------------------------------------------------------------------------------------------

  /** A value no other outnumbers; which of several is left to the order of the range. */
  method GetMostCommonValue(counts: Counts) returns (mostCommon: string)
    ensures counts == map[] ==> mostCommon == ""
    ensures (forall v :: v in counts ==> counts[v] > 0) && counts != map[] ==> mostCommon in counts
    ensures forall v :: v in counts && counts[v] > 0 ==> mostCommon in counts && counts[v] <= counts[mostCommon]
  {
    mostCommon := "";
    if |counts| == 0 { return; }
    var maxCount := 0;
    var rest := counts.Keys;
    ghost var any :| any in counts;
    while rest != {}
      invariant rest <= counts.Keys
      invariant maxCount > 0 ==> mostCommon in counts && counts[mostCommon] == maxCount
      invariant forall v :: v in counts && v !in rest ==> counts[v] <= maxCount
    {
      var key :| key in rest;
      if counts[key] > maxCount {
        maxCount := counts[key];
        mostCommon := key;
      }
      rest := rest - {key};
    }
  }

  type Consensus = map<int, map<Field, string>>

  /** At every voted height, each field's consensus is a most frequent vote. */
  ghost predicate IsConsensus(c: Consensus, vs: Endpoints) {
    && (forall h :: h in c <==> Voters(vs, h) != {})
    && (forall h, f :: h in c ==> f in c[h])
    && (forall h, f :: h in c ==> MostVoted(vs, h, f, c[h][f]))
  }

  ghost predicate MostVoted(vs: Endpoints, h: int, f: Field, w: string) {
    forall v :: |VotersFor(vs, AllVotes(vs), h, f, v)| <= |VotersFor(vs, AllVotes(vs), h, f, w)|
  }

  ghost predicate TopTally(t: Tracker, h: int, f: Field, w: string) {
    forall v :: Tally(t, h, f, v) <= Tally(t, h, f, w)
  }

  method ConsensusOfFields(counts: map<Field, Counts>) returns (m: map<Field, string>)
    requires forall f :: f in counts
    ensures forall f :: f in m
    ensures forall f, v :: v in counts[f] && counts[f][v] > 0 ==> m[f] in counts[f] && counts[f][v] <= counts[f][m[f]]
  {
    m := map[];
    var i := 0;
    while i < |FIELDS|
      invariant 0 <= i <= |FIELDS|
      invariant forall j :: 0 <= j < i ==> FIELDS[j] in m
      invariant forall f, v :: f in m && v in counts[f] && counts[f][v] > 0 ==> m[f] in counts[f] && counts[f][v] <= counts[f][m[f]]
    {
      var v := GetMostCommonValue(counts[FIELDS[i]]);
      m := m[FIELDS[i] := v];
      i := i + 1;
    }
    forall f ensures f in m {
      var k := AllFields(f);
    }
  }

  lemma AllFields(f: Field) returns (i: nat)
    ensures i < |FIELDS| && FIELDS[i] == f
  {
    i := match f
      case FChainId => 0 case FLastCommit => 1 case FData => 2 case FValidators => 3 case FNextValidators => 4
      case FConsensus => 5 case FApp => 6 case FLastResults => 7 case FEvidence => 8 case FProposer => 9;
  }

  lemma TopIsConsensus(t: Tracker, vs: Endpoints, c: Consensus)
    requires Tallied(t, vs, AllVotes(vs)) && c.Keys == t.Keys
    requires forall h, f :: h in c ==> f in c[h]
    requires forall h, f :: h in c ==> TopTally(t, h, f, c[h][f])
    ensures IsConsensus(c, vs)
  {
    forall h, f | h in c ensures MostVoted(vs, h, f, c[h][f]) {
      assert TopTally(t, h, f, c[h][f]);
      forall v ensures |VotersFor(vs, AllVotes(vs), h, f, v)| <= |VotersFor(vs, AllVotes(vs), h, f, c[h][f])| {
        assert Tally(t, h, f, v) <= Tally(t, h, f, c[h][f]);
      }
    }
    forall h | h in t ensures Voters(vs, h) != {} {
      var u :| (u, h) in AllVotes(vs);
      assert u in Voters(vs, h);
    }
    forall h, u | u in Voters(vs, h) ensures h in t {
      IsVote(vs, u, h);
    }
  }

  method BuildConsensus(t: Tracker, ghost vs: Endpoints) returns (c: Consensus)
    requires Tallied(t, vs, AllVotes(vs))
    ensures IsConsensus(c, vs)
  {
    c := map[];
    var rest := t.Keys;
    while rest != {}
      invariant rest <= t.Keys && c.Keys == t.Keys - rest
      invariant forall h, f :: h in c ==> f in c[h]
      invariant forall h, f :: h in c ==> TopTally(t, h, f, c[h][f])
    {
      SomeHeight(rest);
      var height :| height in rest;
      var fields := ConsensusOfFields(t[height]);
      forall f: Field ensures TopTally(t, height, f, fields[f]) {}
      c := c[height := fields];
      rest := rest - {height};
    }
    TopIsConsensus(t, vs, c);
  }

  /** More than half of the voters at the height agree with block b on every field. */
  ghost predicate Majority(vs: Endpoints, height: int, b: Header) {
    forall f :: 2 * |VotersFor(vs, AllVotes(vs), height, f, Get(b, f))| > |Voters(vs, height)|
  }

  /** A voter votes for one value, so two values cannot both have more than half. */
  lemma OneVoteEach(vs: Endpoints, height: int, f: Field, v: string, v': string)
    requires v != v'
    ensures |VotersFor(vs, AllVotes(vs), height, f, v)| + |VotersFor(vs, AllVotes(vs), height, f, v')| <= |Voters(vs, height)|
  {
    var a, b := VotersFor(vs, AllVotes(vs), height, f, v), VotersFor(vs, AllVotes(vs), height, f, v');
    assert a !! b;
    CardinalityMonotone(a + b, Voters(vs, height));
  }

  /** Then the consensus is theirs, whatever order the maps were ranged in. */
  lemma MajorityIsConsensus(c: Consensus, vs: Endpoints, height: int, b: Header, f: Field)
    requires IsConsensus(c, vs) && height in c && Majority(vs, height, b)
    ensures c[height][f] == Get(b, f)
  {
    var all := AllVotes(vs);
    var chosen := VotersFor(vs, all, height, f, c[height][f]);
    var agreed := VotersFor(vs, all, height, f, Get(b, f));
    assert |agreed| <= |chosen|;
    if c[height][f] != Get(b, f) {
      OneVoteEach(vs, height, f, c[height][f], Get(b, f));
    }
  }

  lemma {:induction false} CardinalityMonotone<T>(a: set<T>, b: set<T>)
    requires a <= b
    ensures |a| <= |b|
  {
    assert b == a + (b - a);
  }

  // ---------------------------------------------------------------------------------------------
  // Scoring
  // ---------------------------------------------------------------------------------------------

  ghost function MissingIn(e: Endpoint, heights: set<int>): set<int> {
    set h | h in heights && h in e.blockData && e.blockData[h].None?
  }

  predicate Mismatch(e: Endpoint, c: Consensus, h: int, f: Field) {
    h in e.blockData && e.blockData[h].Some? && h in c && f in c[h] && c[h][f] != Get(e.blockData[h].value, f)
  }

  ghost function MismatchesIn(e: Endpoint, c: Consensus, heights: set<int>): set<(int, Field)> {
    set h, f: Field | h in heights && Mismatch(e, c, h, f) :: (h, f)
  }

  ghost function Penalties(e: Endpoint, c: Consensus, heights: set<int>): nat {
    |MissingIn(e, heights)| + |MismatchesIn(e, c, heights)|
  }

  /** The checks of one block, in order. */
  method ScoreBlock(e: Endpoint, c: Consensus, h: int, points: int) returns (r: int)
    requires h in e.blockData && e.blockData[h].Some? && h in c && forall f :: f in c[h]
    ensures r == points - 10 * |MismatchesIn(e, c, {h})|
  {
    r := points;
    var i := 0;
    ghost var found: set<(int, Field)> := {};
    while i < |FIELDS|
      invariant 0 <= i <= |FIELDS|
      invariant forall x, f: Field :: (x, f) in found <==> x == h && Mismatch(e, c, h, f) && f in FIELDS[..i]
      invariant r == points - MISMATCH_PENALTY * |found|
    {
      var f := FIELDS[i];
      assert f !in FIELDS[..i] by { FieldsDistinct(i); }
      assert FIELDS[..i + 1] == FIELDS[..i] + [f];
      if c[h][f] != Get(e.blockData[h].value, f) {
        r := r - MISMATCH_PENALTY;
        found := found + {(h, f)};
      }
      i := i + 1;
    }
    forall f: Field ensures f in FIELDS[..i] {
      var k := AllFields(f);
      assert FIELDS[..i][k] == f;
    }
    forall p: (int, Field) ensures p in found <==> p in MismatchesIn(e, c, {h}) {
      IsMismatch(e, c, {h}, p.0, p.1);
    }
    assert found == MismatchesIn(e, c, {h});
  }

  lemma IsMismatch(e: Endpoint, c: Consensus, heights: set<int>, h: int, f: Field)
    ensures (h, f) in MismatchesIn(e, c, heights) <==> h in heights && Mismatch(e, c, h, f)
  {}

  lemma FieldsDistinct(i: nat)
    requires i < |FIELDS|
    ensures FIELDS[i] !in FIELDS[..i]
  {}

  lemma OneMoreHeight(e: Endpoint, c: Consensus, seen: set<int>, h: int)
    requires h !in seen
    ensures Penalties(e, c, seen + {h}) == Penalties(e, c, seen) + Penalties(e, c, {h})
  {
    assert MissingIn(e, seen + {h}) == MissingIn(e, seen) + MissingIn(e, {h});
    assert MissingIn(e, seen) !! MissingIn(e, {h});
    assert MismatchesIn(e, c, seen + {h}) == MismatchesIn(e, c, seen) + MismatchesIn(e, c, {h});
    assert MismatchesIn(e, c, seen) !! MismatchesIn(e, c, {h});
  }

  lemma HeightPenalty(e: Endpoint, c: Consensus, h: int)
    requires h in e.blockData
    ensures e.blockData[h].None? ==> Penalties(e, c, {h}) == 1
    ensures e.blockData[h].Some? ==> MissingIn(e, {h}) == {}
    ensures h !in c ==> MismatchesIn(e, c, {h}) == {}
  {
    if e.blockData[h].None? {
      assert MissingIn(e, {h}) == {h} && MismatchesIn(e, c, {h}) == {};
    }
  }

  /** An endpoint ends with its points less ten per missing block and per mismatched check, and
      stays valid exactly while that is at least sixty. */
  ghost predicate Scored(e: Endpoint, e': Endpoint, c: Consensus) {
    && e' == e.(points := e.points - 10 * Penalties(e, c, e.blockData.Keys), valid := e'.valid)
    && (e'.valid <==> e'.points >= 60)
  }

  method ScoreEndpoint(e: Endpoint, c: Consensus) returns (e': Endpoint)
    requires e.valid && forall h, f :: h in c ==> f in c[h]
    ensures Scored(e, e', c)
  {
    e' := e;
    var rest := e.blockData.Keys;
    ghost var seen: set<int> := {};
    assert MissingIn(e, {}) == {} && MismatchesIn(e, c, {}) == {};
    while rest != {}
      invariant rest <= e.blockData.Keys && seen == e.blockData.Keys - rest
      invariant e' == e.(points := e.points - MISMATCH_PENALTY * Penalties(e, c, seen))
    {
      SomeHeight(rest);
      var h :| h in rest;
      rest := rest - {h};
      OneMoreHeight(e, c, seen, h);
      HeightPenalty(e, c, h);
      seen := seen + {h};
      if e.blockData[h].None? {
        e' := e'.(points := e'.points - MISMATCH_PENALTY);
      } else if h in c {
        var points := ScoreBlock(e, c, h, e'.points);
        e' := e'.(points := points);
      }
    }
    assert seen == e.blockData.Keys;
    if e'.points < THRESHOLD {
      e' := e'.(valid := false);
    }
  }

  /** The endpoints under validation, scored in place. */
  class EndpointTable {
    var validities: Endpoints

    constructor (validities: Endpoints)
      ensures this.validities == validities
    {
      this.validities := validities;
    }

    /** Every valid endpoint is scored against one consensus of all of them; the others are untouched. */
    method ValidateBlockData() returns (ghost consensus: Consensus)
      modifies this
      ensures IsConsensus(consensus, old(validities))
      ensures validities.Keys == old(validities).Keys
      ensures forall u :: u in validities && !old(validities)[u].valid ==> validities[u] == old(validities)[u]
      ensures forall u :: u in validities && old(validities)[u].valid ==> Scored(old(validities)[u], validities[u], consensus)
    {
      var before := validities;
      var t := BuildTracker(before);
      var c := BuildConsensus(t, before);
      consensus := c;
      var rest := before.Keys;
      while rest != {}
        invariant rest <= before.Keys && validities.Keys == before.Keys
        invariant forall u :: u in before && (u in rest || !before[u].valid) ==> validities[u] == before[u]
        invariant forall u :: u in before && u !in rest && before[u].valid ==> Scored(before[u], validities[u], c)
      {
        var u :| u in rest;
        rest := rest - {u};
        if !before[u].valid { continue; }
        var scored := ScoreEndpoint(before[u], c);
        validities := validities[u := scored];
      }
    }
  }

  /** Majority safety: an endpoint whose blocks are the majority's loses points only for missing
      blocks, and so stays valid exactly while those cost it no more than it can spare. */
  lemma AgreeingEndpointIsSafe(vs: Endpoints, c: Consensus, u: string, e': Endpoint, majority: map<int, Header>)
    requires u in vs && vs[u].valid && IsConsensus(c, vs) && Scored(vs[u], e', c)
    requires forall h :: Voters(vs, h) != {} ==> h in majority && Majority(vs, h, majority[h])
    requires forall h :: Votes(vs, u, h) ==> h in majority && vs[u].blockData[h].value == majority[h]
    ensures e'.points == vs[u].points - 10 * |MissingIn(vs[u], vs[u].blockData.Keys)|
    ensures e'.valid <==> vs[u].points - 10 * |MissingIn(vs[u], vs[u].blockData.Keys)| >= 60
  {
    var e := vs[u];
    forall h, f: Field | h in e.blockData && Mismatch(e, c, h, f) ensures false {
      assert u in Voters(vs, h);
      MajorityIsConsensus(c, vs, h, majority[h], f);
    }
    assert MismatchesIn(e, c, e.blockData.Keys) == {};
  }
}
