/** Checking the Equihash solution of a header: its parameters, its indices, the leaves hashed for
    them and the tree over the leaves. */
module Solutions {
  import opened Basics
  import opened Powers
  import opened Expand
  import opened Equihash

  datatype Params = Params(n: nat, k: nat)

  /** `Params::new`. */
  predicate Accepted(p: Params) {
    (p.n % 8 == 0 || p == Params(125, 4)) && 3 <= p.k < p.n && p.n % (p.k + 1) == 0
  }

  /** Parameters a 512-bit hash and the 32-bit accumulator are wide enough for. */
  predicate Usable(p: Params) { Accepted(p) && p.n <= 512 && 8 <= p.n / (p.k + 1) <= 25 }

  function CollisionBits(p: Params): (c: nat)
    requires Accepted(p)
  {
    DivNat(p.n, p.k + 1);
    p.n / (p.k + 1)
  }

  function CollisionBytes(p: Params): (w: nat)
    requires Accepted(p)
  {
    CeilDiv(CollisionBits(p), 8)
  }

  /** How many indices share one hash, and the bytes of it each takes. */
  function PerHash(p: Params): (m: nat)
    requires Usable(p)
    ensures m >= 1
  {
    512 / p.n
  }

  function IndexBytes(p: Params): (len: nat) { CeilDiv(p.n, 8) }

  function HashBytes(p: Params): (len: nat)
    requires Usable(p)
  {
    Slot(PerHash(p), IndexBytes(p))
  }

  ghost predicate Sized(p: Params, hash: u32 -> Bytes)
    requires Usable(p)
  {
    forall i: u32 :: |hash(i)| == HashBytes(p)
  }

  // ---- leaves ----

  /** The first `g` groups of `b` bits of a byte string, `w` bytes each. */
  function Expanded(vin: Bytes, b: nat, w: nat, g: nat): (out: Bytes)
    requires Slot(g, b) <= 8 * |vin|
    ensures |out| == Slot(g, w)
  {
    if g == 0 then []
    else
      Later(g - 1, g, b);
      Later(g - 1, g, w);
      Expanded(vin, b, w, g - 1) + BigEndian(Group(vin, b, g - 1), w)
  }

  lemma {:induction false} WrittenIsExpanded(out: Bytes, vin: Bytes, b: nat, w: nat, g: nat)
    requires Slot(g, b) <= 8 * |vin| && Slot(g, w) <= |out| && Written(out, vin, b, w, g)
    ensures out[..Slot(g, w)] == Expanded(vin, b, w, g)
  {
    hide BigEndian; hide Group; hide Slot;
    if g == 0 {
      ZeroSlot(w);
    } else {
      Later(g - 1, g, b);
      Later(g - 1, g, w);
      WrittenIsExpanded(out, vin, b, w, g - 1);
      assert GroupWritten(out, vin, b, w, g - 1);
      assert out[..Slot(g, w)] == out[..Slot(g - 1, w)] + out[Slot(g - 1, w)..Slot(g, w)];
    }
  }

  lemma SliceFits(i: nat, m: nat, len: nat)
    requires m >= 1
    ensures Slot(i % m, len) + len <= Slot(m, len)
  {
    Later(i % m, m, len);
  }

  /** The bytes an index takes from its hash. */
  function LeafSlice(p: Params, hash: u32 -> Bytes, i: u32): (s: Bytes)
    requires Usable(p) && Sized(p, hash)
    ensures |s| == IndexBytes(p)
  {
    SliceFits(i, PerHash(p), IndexBytes(p));
    DivDown(i, PerHash(p));
    var start := Slot(i % PerHash(p), IndexBytes(p));
    hash(i / PerHash(p))[start..start + IndexBytes(p)]
  }

  lemma DivDown(i: nat, m: nat)
    requires m >= 1
    ensures 0 <= i / m <= i
  {
    DivNat(i, m);
    DivParts(i, m);
    if i / m > i { Scales(m, i, i / m); }
  }

  function AsBits(s: Bytes): (d: Digest)
    ensures |d| == |s|
  {
    seq(|s|, j requires 0 <= j < |s| => s[j] as bv8)
  }

  /** The leaf of an index: the groups of its slice, one after the other. */
  ghost function Leaf(p: Params, hash: u32 -> Bytes): (leaf: u32 -> Digest)
    requires Usable(p) && Sized(p, hash)
    ensures Uniform(leaf, (p.k + 1) * CollisionBytes(p))
  {
    LeafSizes(p.n, p.k);
    (i: u32) => AsBits(Expanded(LeafSlice(p, hash, i), CollisionBits(p), CollisionBytes(p), p.k + 1))
  }

  /** `Node::new`. */
  method NewLeaf(p: Params, hash: u32 -> Bytes, i: u32) returns (d: Digest)
    requires Usable(p) && Sized(p, hash)
    ensures d == Leaf(p, hash)(i)
  {
    hide Written; hide OutLength; hide AsBits;
    LeafSizes(p.n, p.k);
    var slice := LeafSlice(p, hash, i);
    var out := ExpandArray(slice, CollisionBits(p), 0);
    WrittenIsExpanded(out, slice, CollisionBits(p), CollisionBytes(p), p.k + 1);
    assert out[..|out|] == out;
    return AsBits(out);
  }

  // ---- the tree ----

  /** `tree_validator`. */
  method ValidateTree(p: Params, hash: u32 -> Bytes, indices: seq<u32>) returns (r: Outcome<Node>)
    requires Usable(p) && Sized(p, hash) && indices != []
    ensures r == TreeValidator(CollisionBytes(p), Leaf(p, hash), indices)
    decreases |indices|
  {
    hide Leaf; hide HasCollision; hide DistinctIndices; hide FromChildren; hide Sized;
    if |indices| == 1 {
      var leaf := NewLeaf(p, hash, indices[0]);
      return Good(Node(leaf, indices));
    }
    var mid := |indices| / 2;
    var a := ValidateTree(p, hash, indices[..mid]);
    if a.Bad? { return a; }
    var b := ValidateTree(p, hash, indices[mid..]);
    if b.Bad? { return b; }
    if !HasCollision(a.value, b.value, CollisionBytes(p)) { return Bad(Collision); }
    if b.value.indices[0] < a.value.indices[0] { return Bad(OutOfOrder); }
    if !DistinctIndices(a.value, b.value) { return Bad(DuplicateIndices); }
    return Good(FromChildren(a.value, b.value, CollisionBytes(p)));
  }

  // ---- solutions ----

  /** The indices a solution spells: `2^k` groups of bits, one more bit each than a collision group. */
  ghost predicate Spells(p: Params, soln: Bytes, indices: seq<u32>)
    requires Accepted(p)
  {
    |indices| == Pow2(p.k) && forall i :: 0 <= i < |indices| ==> IsGroup(soln, CollisionBits(p) + 1, i, indices[i])
  }

  /** The solution is one of the flat definition, over the leaves hashed for its indices. */
  ghost predicate Solves(p: Params, hash: u32 -> Bytes, indices: seq<u32>)
    requires Usable(p) && Sized(p, hash) && |indices| == Pow2(p.k)
  {
    Solution(CollisionBytes(p), Leaf(p, hash), (p.k + 1) * CollisionBytes(p), indices, p.k)
  }

  /** `is_valid_solution`: a solution is accepted exactly when it has the right length and the indices
      it spells solve the puzzle. */
  method IsValidSolution(p: Params, hash: u32 -> Bytes, soln: Bytes) returns (r: Outcome<()>, ghost indices: seq<u32>)
    requires Accepted(p) ==> Usable(p) && Sized(p, hash)
    ensures r == Bad(InvalidParams) <==> !Accepted(p) || |soln| != Pow2(p.k) * (CollisionBits(p) + 1) / 8
    ensures r != Bad(InvalidParams) ==> Spells(p, soln, indices) && (r.Good? <==> Solves(p, hash, indices))
  {
    hide Solution; hide TreeValidator; hide Leaf; hide Pow2; hide Sized; hide IsGroup; hide IsZero;
    indices := [];
    if !Accepted(p) { return Bad(InvalidParams), []; }
    var read := IndicesFromMinimal(CollisionBits(p), p.k, soln);
    if read.None? { return Bad(InvalidParams), []; }
    indices := read.value;
    VerifyIsFlat(CollisionBytes(p), Leaf(p, hash), indices, p.k);
    KindOfTree(CollisionBytes(p), Leaf(p, hash), indices);
    var root := ValidateTree(p, hash, read.value);
    if root.Bad? { return Bad(root.kind), indices; }
    return if IsZero(root.value, CollisionBytes(p)) then Good(()) else Bad(NonZeroRootHash), indices;
  }

  lemma {:induction false} KindOfTree(group: nat, leaf: u32 -> Digest, indices: seq<u32>)
    requires indices != []
    ensures TreeValidator(group, leaf, indices) != Bad(InvalidParams)
    decreases |indices|
  {
    if |indices| > 1 {
      KindOfTree(group, leaf, indices[..|indices| / 2]);
      KindOfTree(group, leaf, indices[|indices| / 2..]);
    }
  }

  // ---- headers ----

  datatype EquihashError = MissingSolution | UnsupportedSolutionSize | DisallowedParameters | InvalidSolution

  /** The parameters that go with a size. */
  function ParamsOfSize(size: nat): (p: Option<Params>)
    ensures p.Some? ==> Usable(p.value)
  {
    match size
    case 1344 => Some(Params(200, 9))
    case 100 => Some(Params(144, 5))
    case 68 => Some(Params(96, 5))
    case 52 => Some(Params(125, 4))
    case 36 => Some(Params(48, 5))
    case _ => None
  }

  /** Every size is that of the solutions of its parameters. */
  lemma SizeOfSolutions(size: nat)
    requires ParamsOfSize(size).Some?
    ensures var p := ParamsOfSize(size).value; size == Pow2(p.k) * (CollisionBits(p) + 1) / 8
  {
    assert Pow2(4) == 16 && Pow2(5) == 32 && Pow2(9) == 512;
  }

  ghost predicate AllSized(hash: Params -> (u32 -> Bytes)) { forall p :: Usable(p) ==> Sized(p, hash(p)) }

  /** `validate_equihash_solution`: the size decides the parameters, which must be allowed, and the
      solution must be one for them. */
  method ValidateSolution(soln: Bytes, allowed: set<Params>, hash: Params -> (u32 -> Bytes))
    returns (r: Option<EquihashError>, ghost indices: seq<u32>)
    requires AllSized(hash)
    ensures r == Some(MissingSolution) <==> soln == []
    ensures soln != [] ==> (r == Some(UnsupportedSolutionSize) <==> ParamsOfSize(|soln|).None?)
    ensures ParamsOfSize(|soln|).Some? ==>
              var p := ParamsOfSize(|soln|).value;
              if p !in allowed then r == Some(DisallowedParameters)
              else Spells(p, soln, indices) && r == if Solves(p, hash(p), indices) then None else Some(InvalidSolution)
  {
    hide Solves; hide Spells; hide Sized; hide Pow2;
    indices := [];
    if soln == [] { return Some(MissingSolution), []; }
    var p := ParamsOfSize(|soln|);
    if p.None? { return Some(UnsupportedSolutionSize), []; }
    if p.value !in allowed { return Some(DisallowedParameters), []; }
    SizeOfSolutions(|soln|);
    var valid;
    valid, indices := IsValidSolution(p.value, hash(p.value), soln);
    return if valid.Good? then None else Some(InvalidSolution), indices;
  }
}
