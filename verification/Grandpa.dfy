/** GRANDPA warp sync: `warp-sync/src/grandpa.rs`. Hashing, signature checks and the decoding of digest
    messages are foreign code and come in as functions. */
module Grandpa {
  import opened Bytes
  import opened Ancestry

  type AuthorityId = seq<Byte>

  datatype Authority = Authority(id: AuthorityId, weight: U64)

  datatype DigestItem = Consensus(engine: seq<Byte>, data: seq<Byte>) | OtherItem

  datatype BlockHeader = BlockHeader(parentHash: Hash, number: U32, stateRoot: Hash, logs: seq<DigestItem>)

  datatype Precommit = Precommit(targetHash: Hash, targetNumber: U32, signature: seq<Byte>, authorityId: AuthorityId)

  datatype Justification = Justification(
    round: U64, targetHash: Hash, targetNumber: U32, precommits: seq<Precommit>, ancestries: seq<BlockHeader>)

  datatype Fragment = Fragment(header: BlockHeader, justification: Justification)

  datatype Response = Response(fragments: seq<Fragment>, isFinished: bool)

  /** Foreign code: the header hash, the signature check of a precommit in a round of a set, and the
      decoding of a consensus message into the authorities it announces. */
  datatype Foreign = Foreign(
    hash: BlockHeader -> Hash,
    verify: (Precommit, U64, nat) -> bool,
    decode: seq<Byte> -> Option<seq<Authority>>)

  datatype State = State(authorities: seq<Authority>, setId: nat, number: U32, hash: Hash, stateRoot: Hash)

  datatype Rejection = CannotDecode | NotAdvancing | WrongHash | WrongNumber | TooLittleWeight | NoAuthorityChange

  // ---------------------------------------------------------------------------
  // Weights
  // ---------------------------------------------------------------------------

  function Total(authorities: seq<Authority>): nat
  {
    if authorities == [] then 0 else Total(authorities[..|authorities| - 1]) + authorities[|authorities| - 1].weight
  }

  /** The map the source collects the list into: a later entry for a key replaces an earlier one. */
  function WeightMap(authorities: seq<Authority>): map<AuthorityId, U64>
  {
    if authorities == [] then map[]
    else
      var a := authorities[|authorities| - 1];
      WeightMap(authorities[..|authorities| - 1])[a.id := a.weight]
  }

  /** The weight of a set of authorities: each key once, with the weight the map holds for it. */
  function WeightIn(authorities: seq<Authority>, s: set<AuthorityId>): nat
  {
    if authorities == [] then 0
    else
      var init, a := authorities[..|authorities| - 1], authorities[|authorities| - 1];
      if a.id in s then a.weight + WeightIn(init, s - {a.id}) else WeightIn(init, s)
  }

  lemma {:induction false} WeightAtMostTotal(authorities: seq<Authority>, s: set<AuthorityId>)
    ensures WeightIn(authorities, s) <= Total(authorities)
  {
    if authorities != [] {
      var init, a := authorities[..|authorities| - 1], authorities[|authorities| - 1];
      WeightAtMostTotal(init, if a.id in s then s - {a.id} else s);
    }
  }

  /** Counting two sets counts their union once and their intersection once more. */
  lemma {:induction false} InclusionExclusion(authorities: seq<Authority>, a: set<AuthorityId>, b: set<AuthorityId>)
    ensures WeightIn(authorities, a) + WeightIn(authorities, b)
            == WeightIn(authorities, a + b) + WeightIn(authorities, a * b)
  {
    if authorities != [] {
      var init, k := authorities[..|authorities| - 1], authorities[|authorities| - 1].id;
      if k in a && k in b {
        InclusionExclusion(init, a - {k}, b - {k});
        assert (a + b) - {k} == (a - {k}) + (b - {k}) && (a * b) - {k} == (a - {k}) * (b - {k});
      } else if k in a {
        InclusionExclusion(init, a - {k}, b);
        assert (a + b) - {k} == (a - {k}) + b && a * b == (a - {k}) * b;
      } else if k in b {
        InclusionExclusion(init, a, b - {k});
        assert (a + b) - {k} == a + (b - {k}) && a * b == a * (b - {k});
      } else {
        InclusionExclusion(init, a, b);
      }
    }
  }

  lemma {:induction false} WeightOfOneMore(authorities: seq<Authority>, s: set<AuthorityId>, id: AuthorityId)
    requires id !in s
    ensures WeightIn(authorities, s + {id})
            == WeightIn(authorities, s) + if id in WeightMap(authorities) then WeightMap(authorities)[id] else 0
  {
    if authorities != [] {
      var init, k := authorities[..|authorities| - 1], authorities[|authorities| - 1].id;
      if k == id {
        assert (s + {id}) - {id} == s;
      } else if k in s {
        assert (s + {id}) - {k} == (s - {k}) + {id};
        WeightOfOneMore(init, s - {k}, id);
      } else {
        WeightOfOneMore(init, s, id);
      }
    }
  }

  lemma {:induction false} WeightMonotone(authorities: seq<Authority>, a: set<AuthorityId>, b: set<AuthorityId>)
    requires a <= b
    ensures WeightIn(authorities, a) <= WeightIn(authorities, b)
  {
    InclusionExclusion(authorities, a, b - a);
    assert a + (b - a) == b;
    assert a * (b - a) == {};
    WeightOfNone(authorities);
  }

  lemma {:induction false} WeightOfNone(authorities: seq<Authority>)
    ensures WeightIn(authorities, {}) == 0
  {
    if authorities != [] { WeightOfNone(authorities[..|authorities| - 1]); }
  }

  // ---------------------------------------------------------------------------
  // Acceptance of a justification
  // ---------------------------------------------------------------------------

  /** The threshold as computed in 64 bits. */
  function Threshold(authorities: seq<Authority>): U64 { ((Total(authorities) % U64_LIMIT) * 2 % U64_LIMIT) / 3 }

  /** Headers among those supplied, each the child of the one before it, that lead from one block to another. */
  ghost predicate Leads(f: Foreign, j: Justification, from: Hash, headers: seq<BlockHeader>, to: Hash)
  {
    && (forall k :: 0 <= k < |headers| ==> headers[k] in j.ancestries)
    && (forall k :: 0 < k < |headers| ==> headers[k].parentHash == f.hash(headers[k - 1]))
    && (if headers == [] then to == from
        else headers[0].parentHash == from && f.hash(headers[|headers| - 1]) == to)
  }

  /** The block is the justification's target or one of its descendants. */
  ghost predicate AtOrAbove(f: Foreign, j: Justification, h: Hash)
  {
    exists headers :: Leads(f, j, j.targetHash, headers, h)
  }

  /** A precommit that may add its weight: it targets the block or a descendant, and verifies. */
  ghost predicate Good(f: Foreign, setId: nat, j: Justification, p: Precommit)
  {
    AtOrAbove(f, j, p.targetHash) && f.verify(p, j.round, setId)
  }

  datatype Tally = Tally(seen: set<AuthorityId>, signed: U64, enough: bool)

  /** What one precommit does to the count: nothing if its authority is unknown or was seen; else the authority is
      seen, and its weight added if the vote is good. */
  ghost function Tallied(f: Foreign, authorities: seq<Authority>, setId: nat, j: Justification, p: Precommit,
                         seen: set<AuthorityId>, signed: U64): Tally
  {
    var weights := WeightMap(authorities);
    if p.authorityId !in weights || p.authorityId in seen then Tally(seen, signed, false)
    else if !Good(f, setId, j, p) then Tally(seen + {p.authorityId}, signed, false)
    else
      var more := (signed + weights[p.authorityId]) % U64_LIMIT;
      Tally(seen + {p.authorityId}, more, more > Threshold(authorities))
  }

  /** The counting loop from `seen` and `signed` on, with its early exit and 64-bit additions. */
  ghost predicate Counting(f: Foreign, authorities: seq<Authority>, setId: nat, j: Justification,
                           rest: seq<Precommit>, seen: set<AuthorityId>, signed: U64)
    decreases |rest|
  {
    rest != [] &&
      var n := Tallied(f, authorities, setId, j, rest[0], seen, signed);
      n.enough || Counting(f, authorities, setId, j, rest[1..], n.seen, n.signed)
  }

  /** `verify_warp_sync_justification` says Ok. */
  ghost predicate Accepts(f: Foreign, authorities: seq<Authority>, setId: nat, j: Justification)
  {
    Counting(f, authorities, setId, j, j.precommits, {}, 0)
  }

  /** The first precommit of an authority, the only one that can count. */
  function FirstVote(precommits: seq<Precommit>, id: AuthorityId): Option<Precommit>
  {
    if precommits == [] then None
    else if precommits[0].authorityId == id then Some(precommits[0])
    else FirstVote(precommits[1..], id)
  }

  ghost predicate Supports(f: Foreign, setId: nat, j: Justification, precommits: seq<Precommit>, id: AuthorityId)
  {
    FirstVote(precommits, id).Some? && Good(f, setId, j, FirstVote(precommits, id).value)
  }

  /** The authorities of the set whose first precommit supports the block. */
  ghost function Supporters(f: Foreign, authorities: seq<Authority>, setId: nat, j: Justification): set<AuthorityId>
  {
    set id | id in WeightMap(authorities) && Supports(f, setId, j, j.precommits, id)
  }

  /** Supporters found from here on, among authorities not yet seen. */
  ghost function Later(f: Foreign, authorities: seq<Authority>, setId: nat, j: Justification,
                       rest: seq<Precommit>, seen: set<AuthorityId>): set<AuthorityId>
  {
    set id | id in WeightMap(authorities) && id !in seen && Supports(f, setId, j, rest, id)
  }

  lemma {:induction false} LaterStep(f: Foreign, authorities: seq<Authority>, setId: nat, j: Justification,
                  rest: seq<Precommit>, seen: set<AuthorityId>)
    requires rest != []
    ensures var p := rest[0];
            var counts := p.authorityId in WeightMap(authorities) && p.authorityId !in seen && Good(f, setId, j, p);
            var seen' := if p.authorityId in WeightMap(authorities) then seen + {p.authorityId} else seen;
            && p.authorityId !in Later(f, authorities, setId, j, rest[1..], seen')
            && Later(f, authorities, setId, j, rest, seen)
               == Later(f, authorities, setId, j, rest[1..], seen') + if counts then {p.authorityId} else {}
  {
  }

  /** The loop with its early exit gives the verdict of the full count: what has been signed plus what
      the remaining supporters would add. */
  lemma {:induction false} EarlyExitIsFullCount(f: Foreign, authorities: seq<Authority>, setId: nat, j: Justification,
                                                rest: seq<Precommit>, seen: set<AuthorityId>, counted: set<AuthorityId>)
    requires Total(authorities) < U64_LIMIT && counted <= seen
    requires WeightIn(authorities, counted) <= Threshold(authorities)
    ensures Counting(f, authorities, setId, j, rest, seen, WeightIn(authorities, counted)) <==>
            WeightIn(authorities, counted + Later(f, authorities, setId, j, rest, seen)) > Threshold(authorities)
    decreases |rest|
  {
    if rest == [] {
      assert Later(f, authorities, setId, j, rest, seen) == {};
      assert counted + {} == counted;
    } else {
      CountStep(f, authorities, setId, j, rest, seen, counted);
    }
  }

  lemma {:induction false} CountStep(f: Foreign, authorities: seq<Authority>, setId: nat, j: Justification,
                                     rest: seq<Precommit>, seen: set<AuthorityId>, counted: set<AuthorityId>)
    requires rest != [] && Total(authorities) < U64_LIMIT && counted <= seen
    requires WeightIn(authorities, counted) <= Threshold(authorities)
    ensures Counting(f, authorities, setId, j, rest, seen, WeightIn(authorities, counted)) <==>
            WeightIn(authorities, counted + Later(f, authorities, setId, j, rest, seen)) > Threshold(authorities)
    decreases |rest|, 1
  {
    var p, weights := rest[0], WeightMap(authorities);
    var id := p.authorityId;
    LaterStep(f, authorities, setId, j, rest, seen);
    if id !in weights || id in seen {
      assert Later(f, authorities, setId, j, rest, seen) == Later(f, authorities, setId, j, rest[1..], seen);
      EarlyExitIsFullCount(f, authorities, setId, j, rest[1..], seen, counted);
    } else if !Good(f, setId, j, p) {
      assert Later(f, authorities, setId, j, rest, seen) == Later(f, authorities, setId, j, rest[1..], seen + {id});
      EarlyExitIsFullCount(f, authorities, setId, j, rest[1..], seen + {id}, counted);
    } else {
      CountGood(f, authorities, setId, j, rest, seen, counted);
    }
  }

  lemma {:induction false} CountGood(f: Foreign, authorities: seq<Authority>, setId: nat, j: Justification,
                                     rest: seq<Precommit>, seen: set<AuthorityId>, counted: set<AuthorityId>)
    requires rest != [] && Total(authorities) < U64_LIMIT && counted <= seen
    requires WeightIn(authorities, counted) <= Threshold(authorities)
    requires rest[0].authorityId in WeightMap(authorities) && rest[0].authorityId !in seen && Good(f, setId, j, rest[0])
    requires Later(f, authorities, setId, j, rest, seen)
             == Later(f, authorities, setId, j, rest[1..], seen + {rest[0].authorityId}) + {rest[0].authorityId}
    ensures Counting(f, authorities, setId, j, rest, seen, WeightIn(authorities, counted)) <==>
            WeightIn(authorities, counted + Later(f, authorities, setId, j, rest, seen)) > Threshold(authorities)
    decreases |rest|, 0
  {
    var id, with := rest[0].authorityId, counted + {rest[0].authorityId};
    var later := Later(f, authorities, setId, j, rest[1..], seen + {id});
    AddedWeight(authorities, counted, id);
    assert with + later == counted + (later + {id});
    if WeightIn(authorities, with) > Threshold(authorities) {
      WeightMonotone(authorities, with, with + later);
    } else {
      EarlyExitIsFullCount(f, authorities, setId, j, rest[1..], seen + {id}, with);
    }
  }

  /** Adding a counted authority's weight does not wrap, since no set weighs more than the total. */
  lemma {:induction false} AddedWeight(authorities: seq<Authority>, counted: set<AuthorityId>, id: AuthorityId)
    requires Total(authorities) < U64_LIMIT && id in WeightMap(authorities) && id !in counted
    ensures (WeightIn(authorities, counted) + WeightMap(authorities)[id]) % U64_LIMIT
            == WeightIn(authorities, counted + {id}) < U64_LIMIT
  {
    WeightOfOneMore(authorities, counted, id);
    WeightAtMostTotal(authorities, counted + {id});
  }

  /** Vote `i` is the first of its authority, is for the block or a descendant, and verifies. */
  ghost predicate CountsAt(f: Foreign, setId: nat, j: Justification, i: nat)
    requires i < |j.precommits|
  {
    && (forall k :: 0 <= k < i ==> j.precommits[k].authorityId != j.precommits[i].authorityId)
    && AtOrAbove(f, j, j.precommits[i].targetHash)
    && f.verify(j.precommits[i], j.round, setId)
  }

  /** The listed authorities with such a vote. */
  ghost function Voters(f: Foreign, authorities: seq<Authority>, setId: nat, j: Justification): set<AuthorityId>
  {
    set a, i | a in authorities && 0 <= i < |j.precommits| && j.precommits[i].authorityId == a.id
      && CountsAt(f, setId, j, i)
      :: a.id
  }

  lemma {:induction false} FirstVoteAt(precommits: seq<Precommit>, id: AuthorityId) returns (i: nat)
    ensures i <= |precommits| && (forall k :: 0 <= k < i ==> precommits[k].authorityId != id)
    ensures if i < |precommits| then precommits[i].authorityId == id && FirstVote(precommits, id) == Some(precommits[i])
            else FirstVote(precommits, id) == None
    decreases |precommits|
  {
    i := 0;
    if precommits != [] && precommits[0].authorityId != id {
      var k := FirstVoteAt(precommits[1..], id);
      i := k + 1;
    }
  }

  lemma {:induction false} ListedInMap(authorities: seq<Authority>, id: AuthorityId)
    ensures id in WeightMap(authorities) <==> exists a :: a in authorities && a.id == id
  {
    if authorities != [] {
      var init, last := authorities[..|authorities| - 1], authorities[|authorities| - 1];
      ListedInMap(init, id);
      assert authorities == init + [last];
    }
  }

  lemma {:induction false} SupportersAreVoters(f: Foreign, authorities: seq<Authority>, setId: nat, j: Justification)
    ensures Supporters(f, authorities, setId, j) == Voters(f, authorities, setId, j)
  {
    forall id ensures id in Supporters(f, authorities, setId, j) <==> id in Voters(f, authorities, setId, j) {
      ListedInMap(authorities, id);
      var i := FirstVoteAt(j.precommits, id);
      if id in Supporters(f, authorities, setId, j) {
        assert CountsAt(f, setId, j, i);
      }
    }
  }

  /** A justification is accepted exactly when the distinct authorities whose first precommit is for the block or a
      descendant of it, by the supplied headers, and verifies weigh more than two thirds of the total, for every
      list whose doubled total fits. */
  lemma {:induction false} AcceptedExactly(f: Foreign, authorities: seq<Authority>, setId: nat, j: Justification)
    requires 2 * Total(authorities) < U64_LIMIT
    ensures Accepts(f, authorities, setId, j) <==>
            WeightIn(authorities, Voters(f, authorities, setId, j)) > 2 * Total(authorities) / 3
  {
    WeightOfNone(authorities);
    EarlyExitIsFullCount(f, authorities, setId, j, j.precommits, {}, {});
    assert {} + Later(f, authorities, setId, j, j.precommits, {}) == Supporters(f, authorities, setId, j);
    SupportersAreVoters(f, authorities, setId, j);
    ThresholdExactly(authorities);
  }

  /** Each key counts once, with the weight of its last entry. */
  lemma {:induction false} LastEntryCounts(authorities: seq<Authority>, i: nat)
    requires i < |authorities| && forall k :: i < k < |authorities| ==> authorities[k].id != authorities[i].id
    ensures WeightIn(authorities, {authorities[i].id}) == authorities[i].weight
  {
    var init, last := authorities[..|authorities| - 1], authorities[|authorities| - 1];
    if i == |authorities| - 1 {
      assert {last.id} - {last.id} == {};
      WeightOfNone(init);
    } else {
      LastEntryCounts(init, i);
    }
  }

  /** The 64-bit threshold is two thirds of the total exactly when the doubled total fits a word. */
  lemma {:induction false} ThresholdExactly(authorities: seq<Authority>)
    ensures Threshold(authorities) == 2 * Total(authorities) / 3 <==> 2 * Total(authorities) < U64_LIMIT
  {
  }

  /** Beyond that bound a sliver of weight is enough: here one part in 2^63. */
  lemma {:induction false} WrappedThresholdAcceptsAlmostNothing(big: AuthorityId, small: AuthorityId, h: Hash,
                                                                s: seq<Byte>)
    requires big != small
    ensures var authorities := [Authority(big, 0x7fff_ffff_ffff_ffff), Authority(small, 1)];
            var f := Foreign(_ => h, (_, _, _) => true, _ => None);
            var j := Justification(0, h, 0, [Precommit(h, 0, s, small)], []);
            && Threshold(authorities) == 0
            && Accepts(f, authorities, 0, j)
            && WeightIn(authorities, Voters(f, authorities, 0, j)) <= 1
  {
    var a, b := Authority(big, 0x7fff_ffff_ffff_ffff), Authority(small, 1);
    var authorities := [a, b];
    var f := Foreign(_ => h, (_, _, _) => true, _ => None);
    var p := Precommit(h, 0, s, small);
    var j := Justification(0, h, 0, [p], []);
    assert authorities[..1] == [a] && [a][..0] == [];
    assert Total([a]) == Total([]) + a.weight;
    assert Total(authorities) == 0x8000_0000_0000_0000;
    assert Leads(f, j, h, [], h);
    assert Good(f, 0, j, p);
    assert WeightMap([a]) == WeightMap([])[big := a.weight];
    assert WeightMap(authorities)[small] == 1;
    assert FirstVote(j.precommits[1..], big) == None;
    assert Supporters(f, authorities, 0, j) <= {small};
    WeightMonotone(authorities, Supporters(f, authorities, 0, j), {small});
    assert {small} - {small} == {};
    WeightOfNone([a]);
    SupportersAreVoters(f, authorities, 0, j);
  }

  /** Quorum intersection: two justifications accepted against one authority list are both supported by
      authorities weighing strictly more than a third of the total, duplicate keys or not. */
  lemma {:induction false} QuorumIntersection(f: Foreign, authorities: seq<Authority>, setId: nat, j1: Justification,
                                              j2: Justification)
    requires 2 * Total(authorities) < U64_LIMIT
    requires Accepts(f, authorities, setId, j1) && Accepts(f, authorities, setId, j2)
    ensures var both := Voters(f, authorities, setId, j1) * Voters(f, authorities, setId, j2);
            3 * WeightIn(authorities, both) > Total(authorities)
  {
    var a, b := Voters(f, authorities, setId, j1), Voters(f, authorities, setId, j2);
    AcceptedExactly(f, authorities, setId, j1);
    AcceptedExactly(f, authorities, setId, j2);
    InclusionExclusion(authorities, a, b);
    WeightAtMostTotal(authorities, a + b);
  }

  // ---------------------------------------------------------------------------
  // Checking a justification
  // ---------------------------------------------------------------------------

  /** The links stand for the headers supplied: each header's hash beside its parent's. */
  ghost predicate LinkUp(f: Foreign, headers: seq<BlockHeader>, links: seq<Link>)
  {
    |links| == |headers|
    && forall i :: 0 <= i < |headers| ==>
         links[i].hash == f.hash(headers[i]) && links[i].parent == headers[i].parentHash
  }

  lemma {:induction false} ChainOfHeaders(f: Foreign, j: Justification, links: seq<Link>, from: Hash,
                                          headers: seq<BlockHeader>, to: Hash)
    requires LinkUp(f, j.ancestries, links) && Leads(f, j, from, headers, to)
    ensures Descends(links, from, to)
    decreases |headers|
  {
    if headers == [] {
      TargetDescends(links, from);
    } else {
      var n := |headers| - 1;
      var init, last := headers[..n], headers[n];
      assert last in j.ancestries;
      var i :| 0 <= i < |j.ancestries| && j.ancestries[i] == last;
      assert links[i] in links;
      assert Leads(f, j, from, init, last.parentHash);
      ChainOfHeaders(f, j, links, from, init, last.parentHash);
      ChildDescends(links, from, links[i]);
    }
  }

  lemma {:induction false} HeadersOfChain(f: Foreign, j: Justification, links: seq<Link>, chain: seq<Hash>)
      returns (headers: seq<BlockHeader>)
    requires LinkUp(f, j.ancestries, links) && IsChain(links, chain)
    ensures Leads(f, j, chain[0], headers, chain[|chain| - 1])
    decreases |chain|
  {
    headers := [];
    if |chain| > 1 {
      var i :| 0 <= i < |links| && links[i] == Link(chain[1], chain[0]);
      var h := j.ancestries[i];
      var rest := HeadersOfChain(f, j, links, chain[1..]);
      headers := [h] + rest;
      if rest != [] { assert headers[1] == rest[0]; }
      forall k | 0 < k < |headers| ensures headers[k].parentHash == f.hash(headers[k - 1]) {
        if k > 1 { assert headers[k] == rest[k - 1] && headers[k - 1] == rest[k - 2]; }
      }
    }
  }

  /** Following the links is following the headers, from parent to child. */
  lemma {:induction false} LinksFollowHeaders(f: Foreign, j: Justification, links: seq<Link>, h: Hash)
    requires LinkUp(f, j.ancestries, links)
    ensures Descends(links, j.targetHash, h) <==> AtOrAbove(f, j, h)
  {
    if Descends(links, j.targetHash, h) {
      var chain :| IsChain(links, chain) && chain[0] == j.targetHash && chain[|chain| - 1] == h;
      var headers := HeadersOfChain(f, j, links, chain);
    }
    if AtOrAbove(f, j, h) {
      var headers :| Leads(f, j, j.targetHash, headers, h);
      ChainOfHeaders(f, j, links, j.targetHash, headers, h);
    }
  }

  /** `verify_warp_sync_justification`. */
  method VerifyJustification(f: Foreign, authorities: seq<Authority>, setId: nat, j: Justification) returns (ok: bool)
    ensures ok <==> Accepts(f, authorities, setId, j)
  {
    var links := [];
    for i := 0 to |j.ancestries|
      invariant LinkUp(f, j.ancestries[..i], links)
    {
      links := links + [Link(f.hash(j.ancestries[i]), j.ancestries[i].parentHash)];
    }
    assert j.ancestries[..|j.ancestries|] == j.ancestries;
    var targets := BuildAncestrySet(links, j.targetHash);
    forall h ensures h in targets <==> AtOrAbove(f, j, h) { LinksFollowHeaders(f, j, links, h); }
    var weights, total := CollectWeights(authorities);
    var threshold := total * 2 % U64_LIMIT / 3;
    ok := CountPrecommits(f, authorities, setId, j, targets, weights, threshold);
  }

  /** The authority map and the total weight, in 64 bits. */
  method CollectWeights(authorities: seq<Authority>) returns (weights: map<AuthorityId, U64>, total: U64)
    ensures weights == WeightMap(authorities) && total == Total(authorities) % U64_LIMIT
  {
    weights, total := map[], 0;
    for i := 0 to |authorities|
      invariant weights == WeightMap(authorities[..i]) && total == Total(authorities[..i]) % U64_LIMIT
    {
      assert authorities[..i + 1][..i] == authorities[..i];
      weights := weights[authorities[i].id := authorities[i].weight];
      total := (total + authorities[i].weight) % U64_LIMIT;
    }
    assert authorities[..|authorities|] == authorities;
  }

  ghost predicate AreTargets(f: Foreign, j: Justification, targets: set<Hash>)
  {
    forall h :: h in targets <==> AtOrAbove(f, j, h)
  }

  /** The two checks on a precommit's vote (lines 161-179). */
  method CheckPrecommit(f: Foreign, setId: nat, j: Justification, targets: set<Hash>, p: Precommit) returns (good: bool)
    requires AreTargets(f, j, targets)
    ensures good <==> Good(f, setId, j, p)
  {
    if p.targetHash !in targets {
      return false;
    }
    return f.verify(p, j.round, setId);
  }

  method CountPrecommits(f: Foreign, authorities: seq<Authority>, setId: nat, j: Justification,
                         targets: set<Hash>, weights: map<AuthorityId, U64>, threshold: U64) returns (ok: bool)
    requires AreTargets(f, j, targets)
    requires weights == WeightMap(authorities) && threshold == Threshold(authorities)
    ensures ok <==> Accepts(f, authorities, setId, j)
  {
    var signed: U64, seen: set<AuthorityId> := 0, {};
    assert j.precommits[0..] == j.precommits;
    for i := 0 to |j.precommits|
      invariant Accepts(f, authorities, setId, j) <==>
                  Counting(f, authorities, setId, j, j.precommits[i..], seen, signed)
    {
      ghost var seen0, signed0 := seen, signed;
      seen, signed, ok := CountOne(
        f, authorities, setId, j, targets, weights, threshold, j.precommits[i], seen, signed);
      CountingNext(f, authorities, setId, j, i, seen0, signed0);
      if ok {
        return true;
      }
    }
    return false;
  }

  /** One turn of the counting loop (lines 136-190). */
  method CountOne(f: Foreign, authorities: seq<Authority>, setId: nat, j: Justification,
                  targets: set<Hash>, weights: map<AuthorityId, U64>, threshold: U64,
                  p: Precommit, seen0: set<AuthorityId>, signed0: U64)
      returns (seen: set<AuthorityId>, signed: U64, enough: bool)
    requires AreTargets(f, j, targets)
    requires weights == WeightMap(authorities) && threshold == Threshold(authorities)
    ensures Tally(seen, signed, enough) == Tallied(f, authorities, setId, j, p, seen0, signed0)
  {
    if p.authorityId !in weights || p.authorityId in seen0 {
      return seen0, signed0, false;
    }
    seen := seen0 + {p.authorityId};
    var good := CheckPrecommit(f, setId, j, targets, p);
    if !good {
      return seen, signed0, false;
    }
    signed := (signed0 + weights[p.authorityId]) % U64_LIMIT;
    enough := signed > threshold;
  }

  lemma {:induction false} CountingNext(f: Foreign, authorities: seq<Authority>, setId: nat, j: Justification, i: nat,
                     seen: set<AuthorityId>, signed: U64)
    requires i < |j.precommits|
    ensures var n := Tallied(f, authorities, setId, j, j.precommits[i], seen, signed);
            Counting(f, authorities, setId, j, j.precommits[i..], seen, signed) <==>
            n.enough || Counting(f, authorities, setId, j, j.precommits[i + 1..], n.seen, n.signed)
  {
    assert j.precommits[i..][1..] == j.precommits[i + 1..];
  }

  // ---------------------------------------------------------------------------
  // Advancing the state
  // ---------------------------------------------------------------------------

  const GRANDPA_ENGINE: seq<Byte> := [70, 82, 78, 75]  // "FRNK"

  /** The first authority change announced in a digest. */
  function ChangeIn(f: Foreign, logs: seq<DigestItem>): Option<seq<Authority>>
  {
    if logs == [] then None
    else if logs[0].Consensus? && logs[0].engine == GRANDPA_ENGINE && f.decode(logs[0].data).Some?
    then f.decode(logs[0].data)
    else ChangeIn(f, logs[1..])
  }

  /** A digest item of GRANDPA's that decodes. */
  predicate Announces(f: Foreign, log: DigestItem)
  {
    log.Consensus? && log.engine == GRANDPA_ENGINE && f.decode(log.data).Some?
  }

  /** It is what the first such item announces, and None if and only if there is none. */
  lemma {:induction false} ChangeIsFirst(f: Foreign, logs: seq<DigestItem>)
    ensures ChangeIn(f, logs) == None <==> forall i :: 0 <= i < |logs| ==> !Announces(f, logs[i])
    ensures forall i :: 0 <= i < |logs| && Announces(f, logs[i]) && (forall k :: 0 <= k < i ==> !Announces(f, logs[k]))
              ==> ChangeIn(f, logs) == f.decode(logs[i].data)
  {
    if logs != [] {
      ChangeIsFirst(f, logs[1..]);
      if !Announces(f, logs[0]) {
        forall i | 0 <= i < |logs| && Announces(f, logs[i]) && (forall k :: 0 <= k < i ==> !Announces(f, logs[k]))
          ensures ChangeIn(f, logs) == f.decode(logs[i].data)
        {
          assert logs[1..][i - 1] == logs[i];
          assert forall k :: 0 <= k < i - 1 ==> logs[1..][k] == logs[k + 1];
        }
        assert forall i :: 0 < i < |logs| ==> logs[i] == logs[1..][i - 1];
      }
    }
  }

  /** `find_warp_sync_grandpa_authority_change`. */
  method FindAuthorityChange(f: Foreign, header: BlockHeader) returns (change: Option<seq<Authority>>)
    ensures change == ChangeIn(f, header.logs)
  {
    for i := 0 to |header.logs|
      invariant ChangeIn(f, header.logs) == ChangeIn(f, header.logs[i..])
    {
      var log := header.logs[i];
      assert header.logs[i..][1..] == header.logs[i + 1..];
      if log.Consensus? && log.engine == GRANDPA_ENGINE {
        var message := f.decode(log.data);
        if message.Some? { return message; }
      }
    }
    return None;
  }

  /** What one fragment does: the checks in the source's order, then the new finalized block and, if the
      header announces one, the next authority set. */
  ghost function Advance(f: Foreign, s: State, fragment: Fragment, isLast: bool): Result<State, Rejection>
  {
    var header, j := fragment.header, fragment.justification;
    var change := ChangeIn(f, header.logs);
    if header.number <= s.number then Err(NotAdvancing)
    else if j.targetHash != f.hash(header) then Err(WrongHash)
    else if j.targetNumber != header.number then Err(WrongNumber)
    else if !Accepts(f, s.authorities, s.setId, j) then Err(TooLittleWeight)
    else if change.None? && !isLast then Err(NoAuthorityChange)
    else
      var t := s.(number := header.number, hash := f.hash(header), stateRoot := header.stateRoot);
      Ok(if change.Some? then t.(setId := s.setId + 1, authorities := change.value) else t)
  }

  predicate IsLast(r: Response, i: nat) { r.isFinished && i + 1 == |r.fragments| }

  /** The state after the first `n` fragments of a response; None if one of them is rejected. */
  ghost function After(f: Foreign, s: State, r: Response, n: nat): Option<State>
    requires n <= |r.fragments|
  {
    if n == 0 then Some(s)
    else match After(f, s, r, n - 1)
      case None => None
      case Some(t) =>
        match Advance(f, t, r.fragments[n - 1], IsLast(r, n - 1))
        case Ok(u) => Some(u)
        case Err(_) => None
  }

  /** The first `n` fragments were accepted and lead to this state. */
  ghost predicate Reached(f: Foreign, s0: State, r: Response, n: nat, s: State)
  {
    n <= |r.fragments| && After(f, s0, r, n) == Some(s)
  }

  class GrandpaState {
    var authorities: seq<Authority>
    var setId: nat
    var finalizedNumber: U32
    var finalizedHash: Hash
    var finalizedStateRoot: Hash

    ghost function Model(): State
      reads this
    {
      State(authorities, setId, finalizedNumber, finalizedHash, finalizedStateRoot)
    }

    constructor (s: State)
      ensures Model() == s
    {
      authorities, setId := s.authorities, s.setId;
      finalizedNumber, finalizedHash, finalizedStateRoot := s.number, s.hash, s.stateRoot;
    }

    /** `process_warp_sync_fragment`: a rejected fragment changes nothing. */
    method ProcessFragment(f: Foreign, fragment: Fragment, isLast: bool) returns (r: Option<Rejection>)
      modifies this
      ensures match Advance(f, old(Model()), fragment, isLast)
              case Ok(s) => r == None && Model() == s
              case Err(e) => r == Some(e) && Model() == old(Model())
    {
      var header, j := fragment.header, fragment.justification;
      if header.number <= finalizedNumber {
        return Some(NotAdvancing);
      }
      var headerHash := f.hash(header);
      if j.targetHash != headerHash {
        return Some(WrongHash);
      }
      if j.targetNumber != header.number {
        return Some(WrongNumber);
      }
      var ok := VerifyJustification(f, authorities, setId, j);
      if !ok {
        return Some(TooLittleWeight);
      }
      var change := FindAuthorityChange(f, header);
      if change.None? && !isLast {
        return Some(NoAuthorityChange);
      }
      finalizedHash := headerHash;
      finalizedStateRoot := header.stateRoot;
      finalizedNumber := header.number;
      if change.Some? {
        setId := setId + 1;
        authorities := change.value;
      }
      return None;
    }

    /** `update_with_warp_sync_response` on decoded bytes: the state is that of the accepted prefix, all
        of it on success; on failure the state reached rejects the next fragment. */
    method Update(f: Foreign, response: Option<Response>) returns (r: Result<bool, Rejection>, ghost accepted: nat)
      modifies this
      ensures response.None? ==> r == Err(CannotDecode) && Model() == old(Model())
      ensures response.Some? ==>
                && accepted <= |response.value.fragments|
                && After(f, old(Model()), response.value, accepted) == Some(Model())
                && (r.Ok? ==> accepted == |response.value.fragments| && r.value == response.value.isFinished)
                && (r.Err? ==>
                      accepted < |response.value.fragments|
                      && Advance(f, Model(), response.value.fragments[accepted], IsLast(response.value, accepted))
                         == Err(r.error))
    {
      accepted := 0;
      if response.None? {
        return Err(CannotDecode), 0;
      }
      var rejected;
      rejected, accepted := ApplyFragments(f, response.value);
      return if rejected.Some? then Err(rejected.value) else Ok(response.value.isFinished), accepted;
    }

    method ApplyFragments(f: Foreign, response: Response) returns (rejected: Option<Rejection>, ghost accepted: nat)
      modifies this
      ensures accepted <= |response.fragments|
      ensures After(f, old(Model()), response, accepted) == Some(Model())
      ensures rejected.None? ==> accepted == |response.fragments|
      ensures rejected.Some? ==>
                accepted < |response.fragments|
                && Advance(f, Model(), response.fragments[accepted], IsLast(response, accepted)) == Err(rejected.value)
    {
      for i := 0 to |response.fragments|
        invariant Reached(f, old(Model()), response, i, Model())
      {
        rejected := OneFragment(f, response, i, old(Model()));
        if rejected.Some? {
          return rejected, i;
        }
      }
      return None, |response.fragments|;
    }

    method OneFragment(f: Foreign, response: Response, i: nat, ghost s0: State) returns (rejected: Option<Rejection>)
      requires i < |response.fragments|
      modifies this
      ensures rejected.Some? ==>
                Model() == old(Model())
                && Advance(f, Model(), response.fragments[i], IsLast(response, i)) == Err(rejected.value)
      ensures rejected.None? && Reached(f, s0, response, i, old(Model())) ==> Reached(f, s0, response, i + 1, Model())
    {
      var isLast := response.isFinished && i == |response.fragments| - 1;
      rejected := ProcessFragment(f, response.fragments[i], isLast);
    }
  }

  // ---------------------------------------------------------------------------
  // What a run guarantees
  // ---------------------------------------------------------------------------

  /** How many of the first `n` fragments announce an authority set. */
  function Changes(f: Foreign, r: Response, n: nat): nat
    requires n <= |r.fragments|
  {
    if n == 0 then 0
    else Changes(f, r, n - 1) + if ChangeIn(f, r.fragments[n - 1].header.logs).Some? then 1 else 0
  }

  /** The set in force after `n` fragments: the one announced last, or the one we started with. */
  function SetAfter(f: Foreign, s: State, r: Response, n: nat): seq<Authority>
    requires n <= |r.fragments|
  {
    if n == 0 then s.authorities
    else match ChangeIn(f, r.fragments[n - 1].header.logs)
      case Some(a) => a
      case None => SetAfter(f, s, r, n - 1)
  }

  /** Whatever prefix of a response was accepted: the finalized block is the last fragment's, the set
      id rose once per announced set, and the set in force is the one announced last. */
  lemma {:induction false} PrefixOutcome(f: Foreign, s: State, r: Response, n: nat)
    requires n <= |r.fragments| && After(f, s, r, n).Some?
    ensures var t := After(f, s, r, n).value;
            && t.setId == s.setId + Changes(f, r, n)
            && t.authorities == SetAfter(f, s, r, n)
            && (n == 0 ==> t == s)
            && (n > 0 ==>
                  var header := r.fragments[n - 1].header;
                  t.number == header.number && t.hash == f.hash(header) && t.stateRoot == header.stateRoot)
            && t.number >= s.number + n
  {
    if n > 0 { PrefixOutcome(f, s, r, n - 1); }
  }

  lemma {:induction false} AdvanceJustified(f: Foreign, s: State, fragment: Fragment, isLast: bool)
    requires Advance(f, s, fragment, isLast).Ok?
    ensures Accepts(f, s.authorities, s.setId, fragment.justification)
    ensures fragment.justification.targetHash == f.hash(fragment.header)
    ensures s.number < Advance(f, s, fragment, isLast).value.number == fragment.header.number
  {
  }

  /** Fragment `k` was accepted, after those before it. */
  ghost predicate AcceptedAt(f: Foreign, s: State, r: Response, k: nat)
    requires k < |r.fragments|
  {
    After(f, s, r, k).Some? && Advance(f, After(f, s, r, k).value, r.fragments[k], IsLast(r, k)).Ok?
  }

  lemma {:induction false} LastAccepted(f: Foreign, s: State, r: Response, k: nat)
    requires k < |r.fragments| && After(f, s, r, k + 1).Some?
    ensures After(f, s, r, k).Some? && AcceptedAt(f, s, r, k)
  {
  }

  lemma {:induction false} PrefixAccepted(f: Foreign, s: State, r: Response, n: nat, k: nat)
    requires k < n <= |r.fragments| && After(f, s, r, n).Some?
    ensures AcceptedAt(f, s, r, k)
  {
    var last: nat := n - 1;
    assert last + 1 == n;
    LastAccepted(f, s, r, last);
    if k < last { PrefixAccepted(f, s, r, last, k); } else { assert k == last; }
  }

  /** Every accepted fragment was justified by the set announced before it, under that set's id, and
      finalizes a strictly higher block. */
  lemma {:induction false} EachFragmentJustified(f: Foreign, s: State, r: Response, n: nat, k: nat)
    requires k < n <= |r.fragments| && After(f, s, r, n).Some?
    ensures After(f, s, r, k).Some?
    ensures var t := After(f, s, r, k).value;
            && t.authorities == SetAfter(f, s, r, k) && t.setId == s.setId + Changes(f, r, k)
            && Accepts(f, t.authorities, t.setId, r.fragments[k].justification)
            && r.fragments[k].justification.targetHash == f.hash(r.fragments[k].header)
            && t.number < r.fragments[k].header.number
  {
    PrefixAccepted(f, s, r, n, k);
    PrefixOutcome(f, s, r, k);
    AdvanceJustified(f, After(f, s, r, k).value, r.fragments[k], IsLast(r, k));
  }

  /** The number a fragment has to exceed. */
  function NumberBefore(s: State, r: Response, k: nat): nat
    requires k < |r.fragments|
  {
    if k == 0 then s.number else r.fragments[k - 1].header.number
  }

  predicate AnnouncesSet(f: Foreign, header: BlockHeader)
  {
    exists i :: 0 <= i < |header.logs| && Announces(f, header.logs[i])
  }

  /** Fragment `k` is in order: it is higher than the one before it, its justification is for its own header, by hash
      and by number, and accepted by the set announced last, under that set's id; and it announces a set, unless it is
      the last of a finished response. */
  ghost predicate InOrder(f: Foreign, s: State, r: Response, k: nat)
    requires k < |r.fragments|
  {
    var header, j := r.fragments[k].header, r.fragments[k].justification;
    && header.number > NumberBefore(s, r, k)
    && j.targetHash == f.hash(header) && j.targetNumber == header.number
    && Accepts(f, SetAfter(f, s, r, k), s.setId + Changes(f, r, k), j)
    && (AnnouncesSet(f, header) || (r.isFinished && k == |r.fragments| - 1))
  }

  /** One fragment, from any state. */
  lemma {:induction false} AdvancesFrom(f: Foreign, t: State, fragment: Fragment, isLast: bool)
    ensures Advance(f, t, fragment, isLast).Ok? <==>
              && fragment.header.number > t.number
              && fragment.justification.targetHash == f.hash(fragment.header)
              && fragment.justification.targetNumber == fragment.header.number
              && Accepts(f, t.authorities, t.setId, fragment.justification)
              && (AnnouncesSet(f, fragment.header) || isLast)
  {
    ChangeIsFirst(f, fragment.header.logs);
  }

  lemma {:induction false} AdvancesExactly(f: Foreign, s: State, r: Response, k: nat, t: State)
    requires k < |r.fragments| && t.number == NumberBefore(s, r, k)
    requires t.authorities == SetAfter(f, s, r, k) && t.setId == s.setId + Changes(f, r, k)
    ensures Advance(f, t, r.fragments[k], IsLast(r, k)).Ok? <==> InOrder(f, s, r, k)
  {
    AdvancesFrom(f, t, r.fragments[k], IsLast(r, k));
  }

  lemma {:induction false} StateBefore(f: Foreign, s: State, r: Response, k: nat, t: State)
    requires k < |r.fragments| && After(f, s, r, k) == Some(t)
    ensures t.number == NumberBefore(s, r, k)
    ensures t.authorities == SetAfter(f, s, r, k) && t.setId == s.setId + Changes(f, r, k)
  {
    PrefixOutcome(f, s, r, k);
  }

  /** The first `n` fragments are accepted if and only if each of them is in order. */
  lemma {:induction false} AcceptedPrefixExactly(f: Foreign, s: State, r: Response, n: nat)
    requires n <= |r.fragments|
    ensures After(f, s, r, n).Some? <==> AllInOrder(f, s, r, n)
  {
    if n > 0 {
      var last: nat := n - 1;
      AcceptedPrefixExactly(f, s, r, last);
      AcceptedSoFar(f, s, r, last);
      assert last + 1 == n;
    }
  }

  ghost predicate AllInOrder(f: Foreign, s: State, r: Response, n: nat)
    requires n <= |r.fragments|
  {
    forall k :: 0 <= k < n ==> InOrder(f, s, r, k)
  }

  lemma {:induction false} AcceptedSoFar(f: Foreign, s: State, r: Response, last: nat)
    requires last < |r.fragments| && (After(f, s, r, last).Some? <==> AllInOrder(f, s, r, last))
    ensures After(f, s, r, last + 1).Some? <==> AllInOrder(f, s, r, last + 1)
  {
    OneMoreAccepted(f, s, r, last);
    OneMoreInOrder(f, s, r, last);
  }

  lemma {:induction false} OneMoreInOrder(f: Foreign, s: State, r: Response, last: nat)
    requires last < |r.fragments|
    ensures AllInOrder(f, s, r, last + 1) <==> AllInOrder(f, s, r, last) && InOrder(f, s, r, last)
  {
  }

  lemma {:induction false} OneMoreAccepted(f: Foreign, s: State, r: Response, k: nat)
    requires k < |r.fragments|
    ensures After(f, s, r, k + 1).Some? <==> After(f, s, r, k).Some? && InOrder(f, s, r, k)
  {
    if After(f, s, r, k).Some? {
      var t := After(f, s, r, k).value;
      StateBefore(f, s, r, k, t);
      AdvancesExactly(f, s, r, k, t);
    }
  }

  /** Which failure is reported, the first in this order: not higher, another block's hash, another number, too little
      weight, no set announced. */
  lemma {:induction false} RejectedBecause(f: Foreign, s: State, fragment: Fragment, isLast: bool)
    ensures var header, j, r := fragment.header, fragment.justification, Advance(f, s, fragment, isLast);
            var higher, own := header.number > s.number, j.targetHash == f.hash(header);
            var numbered, weighty := j.targetNumber == header.number, Accepts(f, s.authorities, s.setId, j);
            && (r == Err(NotAdvancing) <==> !higher)
            && (r == Err(WrongHash) <==> higher && !own)
            && (r == Err(WrongNumber) <==> higher && own && !numbered)
            && (r == Err(TooLittleWeight) <==> higher && own && numbered && !weighty)
            && (r == Err(NoAuthorityChange) <==>
                  higher && own && numbered && weighty && !AnnouncesSet(f, header) && !isLast)
            && r != Err(CannotDecode)
  {
    ChangeIsFirst(f, fragment.header.logs);
  }

  /** A fully accepted response of n fragments raises the set id by n if it is unfinished, and by n or
      n - 1 if it is finished: only the very last fragment may announce nothing. */
  lemma {:induction false} SetIdRise(f: Foreign, s: State, r: Response, n: nat)
    requires n <= |r.fragments| && After(f, s, r, n).Some?
    ensures Changes(f, r, n) <= n
    ensures !r.isFinished || n < |r.fragments| ==> Changes(f, r, n) == n
    ensures n > 0 ==> Changes(f, r, n) >= n - 1
  {
    if n > 0 { SetIdRise(f, s, r, n - 1); }
  }
}
