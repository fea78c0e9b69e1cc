/** Merkle roots: two ways of computing one, and what a root says about the list behind it. */
module Merkle {
  import opened Basics
  import opened Powers

  type PairHash = (Hash, Hash) -> Hash

  /** The second member of pair `i`: a last odd member is its own partner. */
  function Right(s: seq<Hash>, i: nat): (h: Hash)
    requires 2 * i < |s|
  {
    if 2 * i + 1 < |s| then s[2 * i + 1] else s[2 * i]
  }

  function Layer(hash: PairHash, s: seq<Hash>): (r: seq<Hash>)
    ensures |r| == (|s| + 1) / 2
  {
    seq<Hash>((|s| + 1) / 2, i requires 0 <= i < (|s| + 1) / 2 => hash(s[2 * i], Right(s, i)))
  }

  function Root(hash: PairHash, s: seq<Hash>): (r: Hash)
    decreases |s|
  {
    if s == [] then ZERO_HASH else if |s| == 1 then s[0] else Root(hash, Layer(hash, s))
  }

  lemma {:induction false} LayerJoins(hash: PairHash, a: seq<Hash>, b: seq<Hash>)
    requires |a| % 2 == 0
    ensures Layer(hash, a + b) == Layer(hash, a) + Layer(hash, b)
  {
    var n := |a| / 2;
    assert |Layer(hash, a + b)| == n + |Layer(hash, b)|;
    forall i | 0 <= i < |Layer(hash, a + b)|
      ensures Layer(hash, a + b)[i] == (Layer(hash, a) + Layer(hash, b))[i]
    {
      if i < n {
        assert (a + b)[2 * i] == a[2 * i] && Right(a + b, i) == Right(a, i);
      } else {
        assert (a + b)[2 * i] == b[2 * (i - n)] && Right(a + b, i) == Right(b, i - n);
      }
    }
  }

  /** The root of two lists of one power-of-two length is the hash of their roots, the first one left. */
  lemma {:induction false} RootOfHalves(hash: PairHash, a: seq<Hash>, b: seq<Hash>, k: nat)
    requires |a| == |b| == Pow2(k)
    ensures Root(hash, a + b) == hash(Root(hash, a), Root(hash, b))
    decreases k
  {
    if k == 0 {
      assert (a + b)[0] == a[0] && Right(a + b, 0) == b[0];
      assert Layer(hash, a + b) == [hash(a[0], b[0])];
    } else {
      LayerJoins(hash, a, b);
      RootOfHalves(hash, Layer(hash, a), Layer(hash, b), k - 1);
    }
  }

  /** An even layer that ends in a repeated pair could have come from a shorter list. */
  predicate EndsTwice(s: seq<Hash>) { |s| >= 2 && |s| % 2 == 0 && s[|s| - 2] == s[|s| - 1] }

  predicate Mutated(hash: PairHash, s: seq<Hash>)
    decreases |s|
  {
    |s| > 1 && (EndsTwice(s) || Mutated(hash, Layer(hash, s)))
  }

  function Depth(n: nat): (d: nat) { if n <= 1 then 0 else 1 + Depth((n + 1) / 2) }

  // ---- the two computations ----

  /** Root and mutation flag, layer by layer. */
  method RootWithFlag(hash: PairHash, txids: seq<Hash>) returns (root: Hash, mutated: bool)
    ensures root == Root(hash, txids) && mutated == Mutated(hash, txids)
  {
    if txids == [] { return ZERO_HASH, false; }
    var layer := txids;
    mutated := false;
    while |layer| > 1
      invariant layer != [] && Root(hash, layer) == Root(hash, txids)
      invariant mutated || Mutated(hash, layer) <==> Mutated(hash, txids)
      decreases |layer|
    {
      var next: seq<Hash> := [];
      var size := |layer|;
      ghost var before := mutated;
      var i := 0;
      while i < size
        invariant i % 2 == 0 && 0 <= i <= size + 1 && |next| == i / 2 <= (size + 1) / 2
        invariant forall k :: 0 <= k < |next| ==> next[k] == Layer(hash, layer)[k]
        invariant mutated == (before || (i >= size && EndsTwice(layer)))
      {
        var i2 := if i + 1 < size then i + 1 else i;
        if i2 == i + 1 && i2 + 1 == size && layer[i] == layer[i2] { mutated := true; }
        assert layer[i2] == Right(layer, i / 2);
        next := next + [hash(layer[i], layer[i2])];
        i := i + 2;
      }
      assert next == Layer(hash, layer);
      layer := next;
    }
    root := layer[0];
  }

  /** The root alone, repeating the last member of an odd layer first. */
  method RootByPadding(hash: PairHash, txids: seq<Hash>) returns (root: Hash)
    ensures root == Root(hash, txids)
  {
    if txids == [] { return ZERO_HASH; }
    var layer := txids;
    while |layer| > 1
      invariant layer != [] && Root(hash, layer) == Root(hash, txids)
      decreases |layer|
    {
      ghost var before := layer;
      if |layer| % 2 == 1 { layer := layer + [layer[|layer| - 1]]; }
      var next: seq<Hash> := [];
      for k := 0 to |layer| / 2
        invariant |next| == k && forall j :: 0 <= j < k ==> next[j] == Layer(hash, before)[j]
      {
        assert layer[2 * k] == before[2 * k] && layer[2 * k + 1] == Right(before, k);
        next := next + [hash(layer[2 * k], layer[2 * k + 1])];
      }
      assert next == Layer(hash, before);
      layer := next;
    }
    root := layer[0];
  }

  // ---- what a root says ----

  datatype Collision = Collision(a: Hash, b: Hash, c: Hash, d: Hash)

  /** Two different pairs with one hash. */
  predicate Collides(hash: PairHash, x: Collision) { (x.a, x.b) != (x.c, x.d) && hash(x.a, x.b) == hash(x.c, x.d) }

  predicate SamePairs(s: seq<Hash>, t: seq<Hash>, n: nat)
    requires 2 * n <= |s| + 1 && 2 * n <= |t| + 1
  {
    forall i :: 0 <= i < n ==> s[2 * i] == t[2 * i] && Right(s, i) == Right(t, i)
  }

  /** Equal layers come from equal pairs, or show a collision. */
  lemma {:induction false} PairsOrCollision(hash: PairHash, s: seq<Hash>, t: seq<Hash>, n: nat)
    returns (c: Option<Collision>)
    requires Layer(hash, s) == Layer(hash, t) && n <= |Layer(hash, s)|
    ensures c.None? ==> SamePairs(s, t, n)
    ensures c.Some? ==> Collides(hash, c.value)
    decreases n
  {
    if n == 0 { return None; }
    c := PairsOrCollision(hash, s, t, n - 1);
    if c.None? {
      var i := n - 1;
      assert Layer(hash, s)[i] == hash(s[2 * i], Right(s, i)) && Layer(hash, t)[i] == hash(t[2 * i], Right(t, i));
      if s[2 * i] != t[2 * i] || Right(s, i) != Right(t, i) {
        c := Some(Collision(s[2 * i], Right(s, i), t[2 * i], Right(t, i)));
      }
    }
  }

  /** Lists with the same pairs are the same, unless one of them ends in a repeated pair. */
  lemma SameLists(s: seq<Hash>, t: seq<Hash>)
    requires (|s| + 1) / 2 == (|t| + 1) / 2 && SamePairs(s, t, (|s| + 1) / 2) && !EndsTwice(s) && !EndsTwice(t)
    ensures s == t
  {
    var n := (|s| + 1) / 2;
    if n > 0 {
      var i := n - 1;
      assert s[2 * i] == t[2 * i] && Right(s, i) == Right(t, i);
    }
    assert |s| == |t|;
    forall k | 0 <= k < |s| ensures s[k] == t[k] {
      var i := k / 2;
      assert s[2 * i] == t[2 * i] && Right(s, i) == Right(t, i);
    }
  }

  /** Binding: two lists of one depth with one root, neither flagged, are equal, or two different
      pairs with one hash come to light. */
  lemma {:induction false} Binding(hash: PairHash, s: seq<Hash>, t: seq<Hash>) returns (c: Option<Collision>)
    requires s != [] && t != [] && Depth(|s|) == Depth(|t|) && Root(hash, s) == Root(hash, t)
    requires !Mutated(hash, s) && !Mutated(hash, t)
    ensures c.None? ==> s == t
    ensures c.Some? ==> Collides(hash, c.value)
    decreases |s|
  {
    if |s| == 1 {
      assert |t| == 1;
      return None;
    }
    c := Binding(hash, Layer(hash, s), Layer(hash, t));
    if c.None? {
      c := PairsOrCollision(hash, s, t, |Layer(hash, s)|);
      if c.None? { SameLists(s, t); }
    }
  }

  /** Why the flag is needed: repeating the last member of an odd list keeps its root, and is flagged. */
  lemma RepeatedEnd(hash: PairHash, s: seq<Hash>)
    requires |s| > 1 && |s| % 2 == 1
    ensures var t := s + [s[|s| - 1]]; Root(hash, t) == Root(hash, s) && Mutated(hash, t)
  {
    var t := s + [s[|s| - 1]];
    forall i | 0 <= i < (|s| + 1) / 2 ensures Layer(hash, t)[i] == Layer(hash, s)[i] {
      assert t[2 * i] == s[2 * i] && Right(t, i) == Right(s, i);
    }
    assert Layer(hash, t) == Layer(hash, s);
  }
}
