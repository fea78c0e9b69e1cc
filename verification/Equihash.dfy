/** Equihash verification: the recursive check of the index tree against the flat definition of a
    solution in section 7.7.1 of the Zcash Protocol Specification. */
module Equihash {
  import opened Basics
  import opened Powers

  type Digest = seq<bv8>

  /** A subtree: what is left of its hash, and its indices in order. */
  datatype Node = Node(hash: Digest, indices: seq<u32>)

  datatype Kind = InvalidParams | Collision | OutOfOrder | DuplicateIndices | NonZeroRootHash

  datatype Outcome<+T> = Good(value: T) | Bad(kind: Kind) {
    predicate IsFailure() { Bad? }
    function PropagateFailure<U>(): Outcome<U> requires Bad? { Bad(kind) }
    function Extract(): T requires Good? { value }
  }

  // ---- the recursive check ----

  predicate HasCollision(a: Node, b: Node, len: nat) {
    forall i :: 0 <= i < Min(len, Min(|a.hash|, |b.hash|)) ==> a.hash[i] == b.hash[i]
  }

  predicate DistinctIndices(a: Node, b: Node) {
    forall i, j :: 0 <= i < |a.indices| && 0 <= j < |b.indices| ==> a.indices[i] != b.indices[j]
  }

  predicate IsZero(n: Node, len: nat) { forall i :: 0 <= i < Min(len, |n.hash|) ==> n.hash[i] == 0 }

  function FromChildren(a: Node, b: Node, trim: nat): (n: Node)
    requires a.indices != [] && b.indices != []
  {
    var len := Min(|a.hash|, |b.hash|);
    var kept := if trim < len then len - trim else 0;
    Node(seq(kept, i requires 0 <= i < kept => a.hash[trim + i] ^ b.hash[trim + i]),
         if a.indices[0] < b.indices[0] then a.indices + b.indices else b.indices + a.indices)
  }

  /** `tree_validator`; `leaf` is the expanded hash of one index and `group` the bytes of one collision group. */
  function TreeValidator(group: nat, leaf: u32 -> Digest, indices: seq<u32>): (r: Outcome<Node>)
    requires indices != []
    ensures r.Good? ==> r.value.indices != []
  {
    if |indices| > 1 then
      var mid := |indices| / 2;
      var a :- TreeValidator(group, leaf, indices[..mid]);
      var b :- TreeValidator(group, leaf, indices[mid..]);
      if !HasCollision(a, b, group) then Bad(Collision)
      else if b.indices[0] < a.indices[0] then Bad(OutOfOrder)
      else if !DistinctIndices(a, b) then Bad(DuplicateIndices)
      else Good(FromChildren(a, b, group))
    else Good(Node(leaf(indices[0]), indices))
  }

  function Verify(group: nat, leaf: u32 -> Digest, indices: seq<u32>): (r: Outcome<()>)
    requires indices != []
  {
    var root :- TreeValidator(group, leaf, indices);
    if IsZero(root, group) then Good(()) else Bad(NonZeroRootHash)
  }

  // ---- the flat definition ----

  ghost predicate Uniform(leaf: u32 -> Digest, len: nat) { forall i: u32 :: |leaf(i)| == len }

  function Xor(a: Digest, b: Digest): (x: Digest)
    requires |a| == |b|
    ensures |x| == |a|
  {
    seq(|a|, i requires 0 <= i < |a| => a[i] ^ b[i])
  }

  /** The XOR of the leaves of a list, one after the other. */
  ghost function XorAll(leaf: u32 -> Digest, len: nat, indices: seq<u32>): (x: Digest)
    requires Uniform(leaf, len) && indices != []
    ensures |x| == len
  {
    if |indices| == 1 then leaf(indices[0])
    else Xor(XorAll(leaf, len, indices[..|indices| - 1]), leaf(indices[|indices| - 1]))
  }

  predicate ZeroTo(x: Digest, n: nat) { forall i :: 0 <= i < n && i < |x| ==> x[i] == 0 }

  /** A subtree of height `r`: left half first, and zero on its first `r` collision groups. */
  ghost predicate BlockValid(group: nat, leaf: u32 -> Digest, len: nat, block: seq<u32>, r: nat)
    requires Uniform(leaf, len)
  {
    && r >= 1 && |block| == Pow2(r)
    && block[0] < block[Pow2(r - 1)]
    && ZeroTo(XorAll(leaf, len, block), r * group)
  }

  /** Where subtree number `j` of height `r` starts. */
  function At(r: nat, j: nat): (i: nat) { j * Pow2(r) }

  /** Subtree number `j` of height `r`. */
  function Block(indices: seq<u32>, r: nat, j: nat): (b: seq<u32>)
    requires At(r, j + 1) <= |indices|
  {
    AtGrows(r, j);
    indices[At(r, j)..At(r, j + 1)]
  }

  lemma AtGrows(r: nat, j: nat)
    ensures At(r, j + 1) == At(r, j) + Pow2(r)
  {
  }

  predicate Distinct(indices: seq<u32>) { forall i, j :: 0 <= i < j < |indices| ==> indices[i] != indices[j] }

  ghost predicate SubtreesValid(group: nat, leaf: u32 -> Digest, len: nat, indices: seq<u32>, k: nat)
    requires Uniform(leaf, len) && |indices| == Pow2(k)
  {
    forall r, j :: 1 <= r <= k && 0 <= j && At(r, j + 1) <= |indices| ==>
      BlockValid(group, leaf, len, Block(indices, r, j), r)
  }

  ghost predicate Solution(group: nat, leaf: u32 -> Digest, len: nat, indices: seq<u32>, k: nat)
    requires Uniform(leaf, len) && |indices| == Pow2(k)
  {
    && Distinct(indices) && SubtreesValid(group, leaf, len, indices, k)
    && ZeroTo(XorAll(leaf, len, indices), (k + 1) * group)
  }

  // ---- XOR ----

  lemma XorAssociates(a: Digest, b: Digest, c: Digest)
    requires |a| == |b| == |c|
    ensures Xor(Xor(a, b), c) == Xor(a, Xor(b, c))
  {
  }

  lemma {:induction false} XorSplits(leaf: u32 -> Digest, len: nat, a: seq<u32>, b: seq<u32>)
    requires Uniform(leaf, len) && a != [] && b != []
    ensures XorAll(leaf, len, a + b) == Xor(XorAll(leaf, len, a), XorAll(leaf, len, b))
    decreases |b|
  {
    var n := |b| - 1;
    if n == 0 {
      assert (a + b)[..|a|] == a;
    } else {
      assert (a + b)[..|a| + n] == a + b[..n];
      XorSplits(leaf, len, a, b[..n]);
      XorAssociates(XorAll(leaf, len, a), XorAll(leaf, len, b[..n]), leaf(b[n]));
    }
  }

  lemma XorZero(a: bv8, b: bv8)
    ensures a ^ b == 0 <==> a == b
  {
  }

  // ---- blocks of the two halves ----

  lemma PowSteps(r: nat, k: nat)
    requires r < k
    ensures Pow2(k - 1) == Pow2(k - 1 - r) * Pow2(r) && Pow2(k) == 2 * Pow2(k - 1)
    decreases k
  {
    if r < k - 1 { PowSteps(r, k - 1); }
  }

  lemma AtShifts(r: nat, k: nat, j: nat)
    requires r < k
    ensures At(r, j + Pow2(k - 1 - r)) == At(r, j) + Pow2(k - 1)
    ensures j < Pow2(k - 1 - r) ==> At(r, j + 1) <= Pow2(k - 1)
  {
    PowSteps(r, k);
    var m, s := Pow2(k - 1 - r), Pow2(r);
    assert (j + m) * s == j * s + m * s;
    if j < m { Monotone(j + 1, m, s); }
  }

  lemma Monotone(a: nat, b: nat, s: nat)
    requires a <= b
    ensures a * s <= b * s
  {
    assert (b - a) * s >= 0;
  }

  lemma Slices(indices: seq<u32>, half: nat, lo: nat, hi: nat)
    requires lo <= hi && half + hi <= |indices|
    ensures indices[half..][lo..hi] == indices[half + lo..half + hi]
    ensures hi <= half ==> indices[..half][lo..hi] == indices[lo..hi]
  {
  }

  /** Blocks of the two halves, as blocks of the whole. */
  lemma HalfBlock(indices: seq<u32>, k: nat, r: nat, j: nat)
    requires 1 <= r < k && |indices| == Pow2(k) && At(r, j + 1) <= Pow2(k - 1)
    ensures var half := Pow2(k - 1);
            var i := j + Pow2(k - 1 - r);
            && half < |indices| && At(r, i + 1) <= |indices| && At(r, j + 1) <= |indices|
            && Block(indices, r, j) == Block(indices[..half], r, j)
            && Block(indices, r, i) == Block(indices[half..], r, j)
  {
    PowSteps(r, k);
    AtGrows(r, j);
    AtShifts(r, k, j);
    AtShifts(r, k, j + 1);
    assert j + 1 + Pow2(k - 1 - r) == j + Pow2(k - 1 - r) + 1;
    hide At; hide Pow2;
    Slices(indices, Pow2(k - 1), At(r, j), At(r, j + 1));
  }

  /** Every block of height less than `k` lies in one of the halves. */
  lemma BlockPlace(k: nat, r: nat, j: nat)
    requires 1 <= r < k && At(r, j + 1) <= Pow2(k)
    ensures j < Pow2(k - 1 - r) ==> At(r, j + 1) <= Pow2(k - 1)
    ensures j >= Pow2(k - 1 - r) ==> At(r, j - Pow2(k - 1 - r) + 1) <= Pow2(k - 1)
  {
    var m := Pow2(k - 1 - r);
    AtShifts(r, k, j);
    PowSteps(r, k);
    if j >= m { AtShifts(r, k, j - m + 1); }
  }

  /** The whole list is its only block of full height. */
  lemma WholeBlock(indices: seq<u32>, k: nat, j: nat)
    requires |indices| == Pow2(k) && At(k, j + 1) <= |indices|
    ensures j == 0 && Block(indices, k, 0) == indices
  {
    if j >= 1 { Monotone(2, j + 1, Pow2(k)); }
  }

  lemma FirstBlock(k: nat)
    ensures At(k, 1) == Pow2(k)
  {
  }

  // ---- one level of the tree ----

  /** The subtrees of a list are those of its halves and the list itself. */
  lemma SubtreesSplit(group: nat, leaf: u32 -> Digest, len: nat, indices: seq<u32>, k: nat)
    requires Uniform(leaf, len) && k >= 1 && |indices| == Pow2(k)
    ensures var half := Pow2(k - 1);
            SubtreesValid(group, leaf, len, indices, k) <==>
              && SubtreesValid(group, leaf, len, indices[..half], k - 1)
              && SubtreesValid(group, leaf, len, indices[half..], k - 1)
              && BlockValid(group, leaf, len, indices, k)
  {
    hide BlockValid; hide Block; hide At; hide Uniform;
    var half := Pow2(k - 1);
    var a, b := indices[..half], indices[half..];
    FirstBlock(k);
    WholeBlock(indices, k, 0);
    if SubtreesValid(group, leaf, len, indices, k) {
      assert BlockValid(group, leaf, len, Block(indices, k, 0), k);
      forall r, j | 1 <= r <= k - 1 && 0 <= j && At(r, j + 1) <= |a|
        ensures BlockValid(group, leaf, len, Block(a, r, j), r) && BlockValid(group, leaf, len, Block(b, r, j), r)
      {
        HalfBlock(indices, k, r, j);
        assert BlockValid(group, leaf, len, Block(indices, r, j), r);
        assert BlockValid(group, leaf, len, Block(indices, r, j + Pow2(k - 1 - r)), r);
      }
    }
    if SubtreesValid(group, leaf, len, a, k - 1) && SubtreesValid(group, leaf, len, b, k - 1)
        && BlockValid(group, leaf, len, indices, k) {
      forall r, j | 1 <= r <= k && 0 <= j && At(r, j + 1) <= |indices|
          ensures BlockValid(group, leaf, len, Block(indices, r, j), r) {
        if r == k {
          WholeBlock(indices, k, j);
        } else {
          BlockPlace(k, r, j);
          var m := Pow2(k - 1 - r);
          if j < m {
            HalfBlock(indices, k, r, j);
            assert BlockValid(group, leaf, len, Block(a, r, j), r);
          } else {
            HalfBlock(indices, k, r, j - m);
            assert BlockValid(group, leaf, len, Block(b, r, j - m), r);
          }
        }
      }
    }
  }

  /** A valid tree of height `k` is zero on its first `k` groups. */
  lemma PrefixZero(group: nat, leaf: u32 -> Digest, len: nat, indices: seq<u32>, k: nat)
    requires Uniform(leaf, len) && |indices| == Pow2(k) && SubtreesValid(group, leaf, len, indices, k)
    ensures ZeroTo(XorAll(leaf, len, indices), k * group)
  {
    hide XorAll; hide At; hide Block; hide Uniform; hide ZeroTo;
    if k > 0 {
      FirstBlock(k);
      WholeBlock(indices, k, 0);
      assert BlockValid(group, leaf, len, Block(indices, k, 0), k);
    } else {
      NothingZero(XorAll(leaf, len, indices));
    }
  }

  lemma NothingZero(x: Digest)
    ensures ZeroTo(x, 0)
  {
  }

  /** Two digests agree on the next group exactly when their XOR is zero one group further. */
  lemma CollisionMeans(x: Digest, y: Digest, lo: nat, group: nat)
    requires |x| == |y| && lo + group <= |x| && ZeroTo(x, lo) && ZeroTo(y, lo)
    ensures HasCollision(Node(x[lo..], []), Node(y[lo..], []), group) <==> ZeroTo(Xor(x, y), lo + group)
  {
    var z := Xor(x, y);
    if HasCollision(Node(x[lo..], []), Node(y[lo..], []), group) {
      forall i | 0 <= i < lo + group ensures z[i] == 0 {
        if i >= lo { assert x[lo..][i - lo] == y[lo..][i - lo]; }
        XorZero(x[i], y[i]);
      }
    }
    if ZeroTo(z, lo + group) {
      forall i | 0 <= i < group ensures x[lo..][i] == y[lo..][i] {
        assert z[lo + i] == 0;
        XorZero(x[lo + i], y[lo + i]);
      }
    }
  }

  lemma DistinctSplit(a: seq<u32>, b: seq<u32>)
    ensures Distinct(a + b) <==> Distinct(a) && Distinct(b) && forall i, j :: 0 <= i < |a| && 0 <= j < |b| ==>
              a[i] != b[j]
  {
    var c := a + b;
    if Distinct(c) {
      forall i, j | 0 <= i < j < |a| ensures a[i] != a[j] { assert c[i] != c[j]; }
      forall i, j | 0 <= i < j < |b| ensures b[i] != b[j] { assert c[|a| + i] != c[|a| + j]; }
      forall i, j | 0 <= i < |a| && 0 <= j < |b| ensures a[i] != b[j] { assert c[i] != c[|a| + j]; }
    }
  }

  /** Joining two accepted subtrees drops one more group of the XOR and keeps the index order. */
  lemma Joined(x: Digest, y: Digest, lo: nat, group: nat, a: seq<u32>, b: seq<u32>)
    requires |x| == |y| && lo + group <= |x| && a != [] && b != [] && a[0] < b[0]
    ensures FromChildren(Node(x[lo..], a), Node(y[lo..], b), group) == Node(Xor(x, y)[lo + group..], a + b)
  {
  }

  /** The recursive check accepts exactly the lists that meet the flat definition, and an accepted
      subtree carries exactly the indices it was given. */
  lemma {:induction false} Accepts(group: nat, leaf: u32 -> Digest, len: nat, indices: seq<u32>, k: nat)
    requires Uniform(leaf, len) && |indices| == Pow2(k) && k * group <= len
    ensures var r := TreeValidator(group, leaf, indices);
            && (r.Good? <==> Distinct(indices) && SubtreesValid(group, leaf, len, indices, k))
            && (r.Good? ==> r.value == Node(XorAll(leaf, len, indices)[k * group..], indices))
    decreases k
  {
    hide SubtreesValid; hide XorAll; hide Xor; hide Uniform; hide BlockValid; hide FromChildren; hide HasCollision;
    hide ZeroTo; hide Distinct;
    if k == 0 {
      OneLeaf(group, leaf, len, indices);
    } else {
      var half := Pow2(k - 1);
      var a, b := indices[..half], indices[half..];
      assert |indices| / 2 == half && a + b == indices;
      assert (k - 1) * group + group == k * group;
      Accepts(group, leaf, len, a, k - 1);
      Accepts(group, leaf, len, b, k - 1);
      SubtreesSplit(group, leaf, len, indices, k);
      DistinctSplit(a, b);
      if TreeValidator(group, leaf, a).Good? && TreeValidator(group, leaf, b).Good? {
        JoinAccepts(group, leaf, len, a, b, k);
      }
    }
  }

  lemma OneLeaf(group: nat, leaf: u32 -> Digest, len: nat, indices: seq<u32>)
    requires Uniform(leaf, len) && |indices| == 1
    ensures Distinct(indices) && |indices| == Pow2(0) && SubtreesValid(group, leaf, len, indices, 0)
    ensures TreeValidator(group, leaf, indices) == Good(Node(leaf(indices[0]), indices))
            && XorAll(leaf, len, indices)[0..] == leaf(indices[0])
  {
  }

  lemma JoinAccepts(group: nat, leaf: u32 -> Digest, len: nat, a: seq<u32>, b: seq<u32>, k: nat)
    requires Uniform(leaf, len) && k >= 1 && |a| == |b| == Pow2(k - 1) && k * group <= len
    requires SubtreesValid(group, leaf, len, a, k - 1) && SubtreesValid(group, leaf, len, b, k - 1)
    ensures (k - 1) * group <= len
    ensures var na, nb := Node(XorAll(leaf, len, a)[(k - 1) * group..], a),
            Node(XorAll(leaf, len, b)[(k - 1) * group..], b);
            && (HasCollision(na, nb, group) && !(b[0] < a[0]) && DistinctIndices(na, nb) <==>
                  BlockValid(group, leaf, len, a + b, k) && forall i, j :: 0 <= i < |a| && 0 <= j < |b| ==>
                    a[i] != b[j])
            && (HasCollision(na, nb, group) && a[0] < b[0] ==>
                  FromChildren(na, nb, group) == Node(XorAll(leaf, len, a + b)[k * group..], a + b))
  {
    hide SubtreesValid; hide XorAll; hide Xor; hide Uniform; hide FromChildren; hide HasCollision; hide ZeroTo;
    var x, y, lo := XorAll(leaf, len, a), XorAll(leaf, len, b), (k - 1) * group;
    assert lo + group == k * group;
    PrefixZero(group, leaf, len, a, k - 1);
    PrefixZero(group, leaf, len, b, k - 1);
    XorSplits(leaf, len, a, b);
    CollisionMeans(x, y, lo, group);
    SameCollision(x[lo..], y[lo..], a, b, group);
    if a[0] < b[0] { Joined(x, y, lo, group, a, b); }
  }

  lemma SameCollision(x: Digest, y: Digest, a: seq<u32>, b: seq<u32>, group: nat)
    ensures HasCollision(Node(x, a), Node(y, b), group) == HasCollision(Node(x, []), Node(y, []), group)
  {
  }

  /** Verification of a solution is the flat definition: distinct indices, every subtree ordered and
      colliding, and the XOR of all leaves zero on all `k + 1` groups. */
  lemma VerifyIsFlat(group: nat, leaf: u32 -> Digest, indices: seq<u32>, k: nat)
    requires Uniform(leaf, (k + 1) * group) && |indices| == Pow2(k)
    ensures Verify(group, leaf, indices).Good? <==> Solution(group, leaf, (k + 1) * group, indices, k)
  {
    hide SubtreesValid; hide XorAll; hide Uniform; hide Distinct; hide TreeValidator;
    var len := (k + 1) * group;
    assert len == k * group + group;
    Accepts(group, leaf, len, indices, k);
    if TreeValidator(group, leaf, indices).Good? {
      PrefixZero(group, leaf, len, indices, k);
      LastGroup(XorAll(leaf, len, indices), k * group, group, indices);
    }
  }

  lemma LastGroup(x: Digest, lo: nat, group: nat, indices: seq<u32>)
    requires |x| == lo + group && ZeroTo(x, lo)
    ensures IsZero(Node(x[lo..], indices), group) <==> ZeroTo(x, lo + group)
  {
    if IsZero(Node(x[lo..], indices), group) {
      forall i | lo <= i < lo + group ensures x[i] == 0 { assert x[lo..][i - lo] == 0; }
    }
  }
}
