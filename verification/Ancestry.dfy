/** Which blocks a GRANDPA precommit may vote for: the closure computed by `build_ancestry_set`
    (`warp-sync/src/grandpa.rs`). */
module Ancestry {
  import opened Bytes

  type Hash = seq<Byte>

  /** A supplied header, as its own hash and its parent's. */
  datatype Link = Link(hash: Hash, parent: Hash)

  /** Every block of the chain is the parent of the next one, by a supplied header. */
  predicate IsChain(links: seq<Link>, chain: seq<Hash>)
  {
    |chain| > 0 && (|chain| > 1 ==> Link(chain[1], chain[0]) in links && IsChain(links, chain[1..]))
  }

  ghost predicate Descends(links: seq<Link>, target: Hash, h: Hash)
  {
    exists chain :: IsChain(links, chain) && chain[0] == target && chain[|chain| - 1] == h
  }

  lemma {:induction false} TargetDescends(links: seq<Link>, target: Hash)
    ensures Descends(links, target, target)
  {
    assert IsChain(links, [target]);
  }

  lemma {:induction false} ChainGrows(links: seq<Link>, chain: seq<Hash>, h: Hash)
    requires IsChain(links, chain) && Link(h, chain[|chain| - 1]) in links
    ensures IsChain(links, chain + [h])
    decreases |chain|
  {
    if |chain| == 1 {
      assert (chain + [h])[1..] == [h];
    } else {
      ChainGrows(links, chain[1..], h);
      assert (chain + [h])[1..] == chain[1..] + [h];
    }
  }

  lemma {:induction false} ChildDescends(links: seq<Link>, target: Hash, l: Link)
    requires l in links && Descends(links, target, l.parent)
    ensures Descends(links, target, l.hash)
  {
    var chain :| IsChain(links, chain) && chain[0] == target && chain[|chain| - 1] == l.parent;
    ChainGrows(links, chain, l.hash);
    var longer := chain + [l.hash];
    assert longer[0] == target && longer[|longer| - 1] == l.hash;
  }

  ghost predicate Closed(links: seq<Link>, s: set<Hash>)
  {
    forall l :: l in links && l.parent in s ==> l.hash in s
  }

  lemma {:induction false} ChainStaysInside(links: seq<Link>, s: set<Hash>, chain: seq<Hash>)
    requires Closed(links, s) && IsChain(links, chain) && chain[0] in s
    ensures chain[|chain| - 1] in s
    decreases |chain|
  {
    if |chain| > 1 {
      ChainStaysInside(links, s, chain[1..]);
    }
  }

  lemma {:induction false} ClosedContainsDescendants(links: seq<Link>, target: Hash, s: set<Hash>, h: Hash)
    requires Closed(links, s) && target in s && Descends(links, target, h)
    ensures h in s
  {
    var chain :| IsChain(links, chain) && chain[0] == target && chain[|chain| - 1] == h;
    ChainStaysInside(links, s, chain);
  }

  /** One sweep over the supplied headers. */
  method Sweep(links: seq<Link>, target: Hash, valid0: set<Hash>) returns (valid: set<Hash>, added: bool)
    requires forall h :: h in valid0 ==> Descends(links, target, h)
    ensures valid0 <= valid && (forall h :: h in valid ==> Descends(links, target, h))
    ensures valid <= valid0 + set l | l in links :: l.hash
    ensures added ==> valid != valid0
    ensures !added ==> valid == valid0 && Closed(links, valid)
  {
    valid, added := valid0, false;
    for i := 0 to |links|
      invariant valid0 <= valid && (forall h :: h in valid ==> Descends(links, target, h))
      invariant valid <= valid0 + set l | l in links :: l.hash
      invariant added ==> valid != valid0
      invariant !added ==> valid == valid0 && forall k :: 0 <= k < i && links[k].parent in valid ==>
                  links[k].hash in valid
    {
      var l := links[i];
      if l.parent in valid && l.hash !in valid {
        ChildDescends(links, target, l);
        valid, added := valid + {l.hash}, true;
      }
    }
  }

  /** `build_ancestry_set`: terminates on every list of headers, whatever their order, duplicates or
      cycles, and returns exactly the target and its descendants. */
  method BuildAncestrySet(links: seq<Link>, target: Hash) returns (valid: set<Hash>)
    ensures forall h :: h in valid <==> Descends(links, target, h)
  {
    TargetDescends(links, target);
    valid := {target};
    var added := true;
    ghost var universe := {target} + set l | l in links :: l.hash;
    while added
      invariant target in valid && valid <= universe
      invariant forall h :: h in valid ==> Descends(links, target, h)
      invariant !added ==> Closed(links, valid)
      decreases universe - valid, added
    {
      ghost var valid0 := valid;
      valid, added := Sweep(links, target, valid);
      if added { assert universe - valid < universe - valid0 by { Shrinks(universe, valid0, valid); } }
    }
    forall h | Descends(links, target, h) ensures h in valid {
      ClosedContainsDescendants(links, target, valid, h);
    }
  }

  lemma {:induction false} Shrinks(universe: set<Hash>, a: set<Hash>, b: set<Hash>)
    requires a <= b <= universe && a != b
    ensures universe - b < universe - a
  {
  }
}
