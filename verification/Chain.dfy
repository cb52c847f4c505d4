/** Ordering the issuing certificates a PKI server returned with a leaf certificate. */
module Chain {
  import opened Common

  type Name = string

  /** `der` is the encoded certificate: two certificates are one when it agrees. */
  datatype Cert = Cert(subject: Name, issuer: Name, der: seq<int>)

  datatype Outcome = Ok(chain: seq<Cert>) | NoIssuers

  function NonLeaf(certificates: seq<Cert>, leaf: Cert): seq<Cert> {
    if certificates == [] then []
    else (if certificates[0] != leaf then [certificates[0]] else []) + NonLeaf(certificates[1..], leaf)
  }

  /** The position of the first certificate for a subject. */
  function Find(certificates: seq<Cert>, subject: Name): (r: Option<nat>)
    ensures r.Some? ==> r.value < |certificates| && certificates[r.value].subject == subject
    ensures r.Some? ==> forall k | 0 <= k < r.value :: certificates[k].subject != subject
    ensures r.None? ==> forall k | 0 <= k < |certificates| :: certificates[k].subject != subject
  {
    if certificates == [] then None
    else if certificates[0].subject == subject then Some(0)
    else match Find(certificates[1..], subject)
      case None => None
      case Some(k) => Some(k + 1)
  }

  function Without(certificates: seq<Cert>, k: nat): seq<Cert>
    requires k < |certificates|
  {
    certificates[..k] + certificates[k + 1..]
  }

  /** The issuers in chain order, then whatever the walk did not reach, as it came. */
  method Order(certificates: seq<Cert>, leaf: Cert) returns (r: Outcome)
    ensures r.NoIssuers? <==> forall k | 0 <= k < |certificates| :: certificates[k] == leaf
    ensures r.Ok? ==> r.chain == Ordered(NonLeaf(certificates, leaf), leaf.issuer)
    ensures r.Ok? ==> forall c: Cert :: multiset(r.chain)[c] == if c == leaf then 0 else multiset(certificates)[c]
  {
    hide Ordered, NonLeaf;
    var remaining := NonLeaf(certificates, leaf);
    NothingIsAddedOrLost(certificates, leaf);
    if remaining == [] {
      return NoIssuers;
    }
    ghost var all := remaining;
    var chain: seq<Cert> := [];
    var issuer := leaf.issuer;
    while remaining != []
      invariant chain + Ordered(remaining, issuer) == Ordered(all, leaf.issuer)
      decreases |remaining|
    {
      var position := Find(remaining, issuer);
      OrderedOnce(remaining, issuer);
      if position.None? {
        chain := chain + remaining;
        break;
      }
      var found := remaining[position.value];
      chain := chain + [found];
      remaining := Without(remaining, position.value);
      if found.subject == found.issuer {
        chain := chain + remaining;
        break;
      }
      issuer := found.issuer;
    }
    OrderedOnce([], issuer);
    r := Ok(chain);
  }

  function Ordered(remaining: seq<Cert>, issuer: Name): seq<Cert>
    decreases |remaining|
  {
    match Find(remaining, issuer)
    case None => remaining
    case Some(k) =>
      var found := remaining[k];
      if found.subject == found.issuer then [found] + Without(remaining, k)
      else [found] + Ordered(Without(remaining, k), found.issuer)
  }

  lemma {:induction false} NonLeafKeepsTheOthers(certificates: seq<Cert>, leaf: Cert)
    ensures forall c: Cert :: multiset(NonLeaf(certificates, leaf))[c] == if c == leaf then 0 else multiset(certificates)[c]
  {
    if certificates != [] {
      NonLeafKeepsTheOthers(certificates[1..], leaf);
      assert certificates == [certificates[0]] + certificates[1..];
    }
  }

  lemma {:induction false} NothingButTheLeaf(certificates: seq<Cert>, leaf: Cert)
    ensures NonLeaf(certificates, leaf) == [] <==> forall k | 0 <= k < |certificates| :: certificates[k] == leaf
  {
    if certificates != [] {
      NothingButTheLeaf(certificates[1..], leaf);
      assert forall k | 1 <= k < |certificates| :: certificates[k] == certificates[1..][k - 1];
      if forall k | 0 <= k < |certificates| :: certificates[k] == leaf {
        assert forall k | 0 <= k < |certificates[1..]| :: certificates[1..][k] == certificates[k + 1] == leaf;
      }
    }
  }

  lemma NothingIsAddedOrLost(certificates: seq<Cert>, leaf: Cert)
    ensures NonLeaf(certificates, leaf) == [] <==> forall k | 0 <= k < |certificates| :: certificates[k] == leaf
    ensures forall c: Cert ::
      multiset(Ordered(NonLeaf(certificates, leaf), leaf.issuer))[c] == if c == leaf then 0 else multiset(certificates)[c]
  {
    NothingButTheLeaf(certificates, leaf);
    NonLeafKeepsTheOthers(certificates, leaf);
    OrderedIsAPermutation(NonLeaf(certificates, leaf), leaf.issuer);
  }

  /** One step of the walk. */
  lemma OrderedOnce(remaining: seq<Cert>, issuer: Name)
    ensures var position := Find(remaining, issuer);
      Ordered(remaining, issuer) ==
        if position.None? then remaining
        else var found, rest := remaining[position.value], Without(remaining, position.value);
             [found] + (if found.subject == found.issuer then rest else Ordered(rest, found.issuer))
    ensures Ordered([], issuer) == []
  {
  }

  lemma TakenOut(certificates: seq<Cert>, k: nat)
    requires k < |certificates|
    ensures multiset([certificates[k]] + Without(certificates, k)) == multiset(certificates)
  {
    assert certificates == certificates[..k] + [certificates[k]] + certificates[k + 1..];
  }

  lemma OneLess(certificates: seq<Cert>, k: nat, same: seq<Cert>)
    requires k < |certificates| && multiset(certificates) == multiset(same)
    requires same != [] && certificates[k] == same[0]
    ensures multiset(Without(certificates, k)) == multiset(same[1..])
  {
    TakenOut(certificates, k);
    assert same == [same[0]] + same[1..];
    assert multiset(certificates) == multiset{same[0]} + multiset(Without(certificates, k));
    assert multiset(same) == multiset{same[0]} + multiset(same[1..]);
    assert multiset(same[1..]) == multiset(same) - multiset{same[0]};
    assert multiset(Without(certificates, k)) == multiset(certificates) - multiset{same[0]};
  }

  lemma {:induction false} OrderedIsAPermutation(remaining: seq<Cert>, issuer: Name)
    ensures multiset(Ordered(remaining, issuer)) == multiset(remaining)
    decreases |remaining|
  {
    var position := Find(remaining, issuer);
    if position.Some? {
      var k := position.value;
      TakenOut(remaining, k);
      OrderedIsAPermutation(Without(remaining, k), remaining[k].issuer);
    }
  }

  // ----- the walk at the front of the chain -----

  /** Each certificate is for the issuer of the one before it, the first for `issuer`, and
      only the last may be its own issuer. */
  predicate IsWalk(walk: seq<Cert>, issuer: Name) {
    && (walk != [] ==> walk[0].subject == issuer)
    && (forall k | 0 < k < |walk| :: walk[k].subject == walk[k - 1].issuer)
    && (forall k | 0 <= k < |walk| - 1 :: walk[k].subject != walk[k].issuer)
  }

  /** The issuer a walk still needs. */
  function Wanted(walk: seq<Cert>, issuer: Name): Name {
    if walk == [] then issuer else walk[|walk| - 1].issuer
  }

  predicate IsRoot(walk: seq<Cert>) { walk != [] && walk[|walk| - 1].subject == walk[|walk| - 1].issuer }

  /** How long the walk at the front is. */
  function WalkLength(remaining: seq<Cert>, issuer: Name): (n: nat)
    decreases |remaining|
  {
    match Find(remaining, issuer)
    case None => 0
    case Some(k) =>
      if remaining[k].subject == remaining[k].issuer then 1
      else 1 + WalkLength(Without(remaining, k), remaining[k].issuer)
  }

  /** The chain starts with a walk from the leaf that no remaining certificate can
      continue, unless it reached a root. */
  lemma {:induction false} ChainStartsWithAMaximalWalk(remaining: seq<Cert>, issuer: Name)
    ensures var chain, n := Ordered(remaining, issuer), WalkLength(remaining, issuer);
      && n <= |chain| && IsWalk(chain[..n], issuer)
      && (IsRoot(chain[..n]) || forall k | n <= k < |chain| :: chain[k].subject != Wanted(chain[..n], issuer))
    decreases |remaining|
  {
    var position := Find(remaining, issuer);
    if position.Some? {
      var found, rest := remaining[position.value], Without(remaining, position.value);
      if found.subject != found.issuer {
        ChainStartsWithAMaximalWalk(rest, found.issuer);
        var chain, n := Ordered(rest, found.issuer), WalkLength(rest, found.issuer);
        assert ([found] + chain)[..n + 1] == [found] + chain[..n];
        WalkGrows(found, chain[..n], issuer);
      }
    }
  }

  lemma WalkGrows(first: Cert, walk: seq<Cert>, issuer: Name)
    requires first.subject == issuer && first.subject != first.issuer && IsWalk(walk, first.issuer)
    ensures IsWalk([first] + walk, issuer) && Wanted([first] + walk, issuer) == Wanted(walk, first.issuer)
    ensures IsRoot(walk) ==> IsRoot([first] + walk)
  {
  }

  // ----- the order does not depend on how the certificates came -----

  /** No other certificate is for a subject on the path. */
  predicate Unambiguous(path: seq<Cert>, others: seq<Cert>) {
    && (forall i, j | 0 <= i < j < |path| :: path[i].subject != path[j].subject)
    && (forall i, j | 0 <= i < |path| && 0 <= j < |others| :: path[i].subject != others[j].subject)
  }

  /** A path to its end comes out as that path, in whatever order its certificates and
      any unrelated ones were sent. */
  lemma {:induction false} AnyOrderGivesThePath(remaining: seq<Cert>, issuer: Name, path: seq<Cert>, others: seq<Cert>)
    requires multiset(remaining) == multiset(path + others)
    requires IsWalk(path, issuer) && Unambiguous(path, others)
    ensures path <= Ordered(remaining, issuer)
    decreases |path|
  {
    if path != [] {
      var first := path[0];
      assert first in multiset(remaining);
      var k := Find(remaining, issuer).value;
      FoundIsFirst(remaining, issuer, path, others, k);
      OneLess(remaining, k, path + others);
      assert (path + others)[1..] == path[1..] + others;
      if first.subject != first.issuer {
        AnyOrderGivesThePath(Without(remaining, k), first.issuer, path[1..], others);
      }
    }
  }

  lemma FoundIsFirst(remaining: seq<Cert>, issuer: Name, path: seq<Cert>, others: seq<Cert>, k: nat)
    requires multiset(remaining) == multiset(path + others) && path != []
    requires IsWalk(path, issuer) && Unambiguous(path, others)
    requires k < |remaining| && remaining[k].subject == issuer
    ensures remaining[k] == path[0]
  {
    var found := remaining[k];
    assert found in multiset(remaining);
    assert found in path + others;
  }

  // ----- what the walk did not reach -----

  /** `part` comes from `whole` by leaving certificates out. */
  predicate InOrder(part: seq<Cert>, whole: seq<Cert>)
    decreases |whole|
  {
    if part == [] then true
    else if whole == [] then false
    else if part[0] == whole[0] && InOrder(part[1..], whole[1..]) then true
    else InOrder(part, whole[1..])
  }

  lemma {:induction false} InOrderWithItself(whole: seq<Cert>)
    ensures InOrder(whole, whole)
  {
    if whole != [] { InOrderWithItself(whole[1..]); }
  }

  /** Leaving one more out keeps the order. */
  lemma {:induction false} InOrderWithout(part: seq<Cert>, whole: seq<Cert>, k: nat)
    requires k < |whole| && InOrder(part, Without(whole, k))
    ensures InOrder(part, whole)
    decreases |whole|
  {
    if part != [] && k > 0 {
      assert Without(whole, k)[0] == whole[0] && Without(whole, k)[1..] == Without(whole[1..], k - 1);
      if part[0] == whole[0] && InOrder(part[1..], Without(whole, k)[1..]) {
        InOrderWithout(part[1..], whole[1..], k - 1);
      } else {
        InOrderWithout(part, whole[1..], k - 1);
      }
    } else if part != [] {
      assert Without(whole, 0) == whole[1..];
    }
  }

  /** After the walk come all the other certificates, in the order in which they were sent. */
  lemma {:induction false} RestKeepsItsOrder(remaining: seq<Cert>, issuer: Name)
    ensures var chain, n := Ordered(remaining, issuer), WalkLength(remaining, issuer);
      n <= |chain| && InOrder(chain[n..], remaining)
    decreases |remaining|
  {
    var position := Find(remaining, issuer);
    match position
    case None => InOrderWithItself(remaining);
    case Some(k) =>
      var found, rest := remaining[k], Without(remaining, k);
      if found.subject == found.issuer {
        InOrderWithItself(rest);
        assert Ordered(remaining, issuer)[1..] == rest;
      } else {
        RestKeepsItsOrder(rest, found.issuer);
        var n := WalkLength(rest, found.issuer);
        assert Ordered(remaining, issuer)[1 + n..] == Ordered(rest, found.issuer)[n..];
      }
      InOrderWithout(Ordered(remaining, issuer)[WalkLength(remaining, issuer)..], remaining, k);
  }
}
