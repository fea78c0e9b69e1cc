/** Unpacking bit strings: each group of bits becomes a fixed number of bytes. */
module Expand {
  import opened Basics
  import opened Powers

  const WORD: nat := 0x1_0000_0000

  /** A byte string as a big-endian number. */
  function Value(s: Bytes): (v: nat) {
    if s == [] then 0 else Value(s[..|s| - 1]) * 256 + s[|s| - 1]
  }

  function Slot(i: nat, w: nat): (p: nat) { i * w }

  /** Bits `[i * b, (i + 1) * b)` of a byte string, counted from its front. */
  function Group(s: Bytes, b: nat, i: nat): (g: nat)
    requires Slot(i + 1, b) <= 8 * |s|
  {
    Low(Shr(Value(s), 8 * |s| - Slot(i + 1, b)), b)
  }

  /** The byte of `q` with `m` bytes below it. */
  function Digit(q: nat, m: nat): (d: u8) {
    Bits8();
    Low(Shr(q, 8 * m), 8)
  }

  function BigEndian(q: nat, w: nat): (s: Bytes)
    ensures |s| == w
  {
    seq(w, x requires 0 <= x < w => Digit(q, w - 1 - x))
  }

  // ---- the accumulator ----

  /** A 32-bit shift left by eight with a byte put in: the top byte is lost. */
  function ShiftIn(acc: u32, x: u8): (r: int) { (acc * 256) % WORD + x }

  lemma ShiftsIn(v: nat, x: u8)
    ensures Low(v, 32) < WORD && ShiftIn(Low(v, 32), x) == Low(v * 256 + x, 32)
  {
    PowWord();
    DivParts(v, WORD);
    var q, r := v / WORD, v % WORD;
    DivParts(r * 256, WORD);
    var p, s := r * 256 / WORD, r * 256 % WORD;
    assert s == 256 * (r - p * 0x100_0000);
    assert s + x < WORD;
    DivUnique(v * 256 + x, WORD, 256 * q + p, s + x);
  }

  lemma PowWord()
    ensures Pow2(32) == WORD
  {
    Bits8();
    hide Pow2;
    PowAdd(8, 8);
    PowAdd(16, 16);
  }

  /** A prefix already holds the groups that end inside it. */
  lemma GroupStable(s: Bytes, x: u8, e: nat)
    requires e <= 8 * |s|
    ensures Shr(Value(s + [x]), 8 * |s| + 8 - e) == Shr(Value(s), 8 * |s| - e)
  {
    hide Pow2; hide Shr; hide Low;
    assert (s + [x])[..|s|] == s;
    Bits8();
    JoinedBits(Value(s), x, 8);
    ShrShr(Value(s + [x]), 8, 8 * |s| - e);
  }

  /** As long as the group and what follows it fit a word, the lost bits do not matter. */
  lemma WordHoldsGroup(v: nat, s: nat, b: nat)
    requires s + b <= 32
    ensures Low(Shr(Low(v, 32), s), b) == Low(Shr(v, s), b)
  {
    hide Pow2; hide Shr; hide Low;
    ShrLow(v, s, 32 - s);
    LowLow(Shr(v, s), b, 32 - s - b);
  }

  /** One byte of the group, taken straight from the accumulator by a shift and a mask of `c` ones. */
  lemma ByteOfGroup(acc: nat, s: nat, b: nat, m: nat, c: nat)
    requires 8 * m < b && c == (if b - 8 * m < 8 then b - 8 * m else 8)
    ensures Low(Shr(acc, s + 8 * m), c) == Digit(Low(Shr(acc, s), b), m)
  {
    hide Pow2; hide Shr; hide Low;
    var y := Shr(acc, s);
    var z := Shr(y, 8 * m);
    ShrShr(acc, s, 8 * m);
    ShrLow(y, 8 * m, b - 8 * m);
    if c == 8 {
      LowLow(z, 8, b - 8 * m - 8);
    } else {
      PowGrows(b - 8 * m, 8);
      SmallBits(Low(z, b - 8 * m), 8);
    }
  }

  lemma HighDigitsZero(q: nat, b: nat, m: nat)
    requires q < Pow2(b) && b <= 8 * m
    ensures Digit(q, m) == 0
  {
    hide Pow2; hide Shr; hide Low;
    PowGrows(b, 8 * m);
    SmallBits(q, 8 * m);
    PowGrows(0, 8);
    ZeroBits(8);
  }

  lemma ZeroBits(n: nat)
    ensures Low(0, n) == 0
  {
    hide Pow2;
    DivUnique(0, Pow2(n), 0, 0);
  }

  // ---- the loop ----

  function CeilDiv(a: nat, b: nat): (q: nat)
    requires b > 0
  {
    (a + b - 1) / b
  }

  predicate GroupWritten(out: Bytes, vin: Bytes, b: nat, w: nat, i: nat) {
    && Slot(i + 1, b) <= 8 * |vin| && Slot(i, w) + w <= |out|
    && out[Slot(i, w)..Slot(i, w) + w] == BigEndian(Group(vin, b, i), w)
  }

  /** The first `g` groups are in place. */
  predicate Written(out: Bytes, vin: Bytes, b: nat, w: nat, g: nat) {
    forall i :: 0 <= i < g ==> GroupWritten(out, vin, b, w, i)
  }

  lemma {:induction false} PrefixGroup(vin: Bytes, t: nat, e: nat)
    requires t <= |vin| && e <= 8 * t
    ensures Shr(Value(vin[..t]), 8 * t - e) == Shr(Value(vin), 8 * |vin| - e)
    decreases |vin| - t
  {
    hide Shr; hide Value;
    if t == |vin| {
      assert vin[..t] == vin;
    } else {
      GroupStable(vin[..t], vin[t], e);
      assert vin[..t] + [vin[t]] == vin[..t + 1];
      PrefixGroup(vin, t + 1, e);
    }
  }

  /** Writes one group from the accumulator, most significant byte first, after `pad` zeros. */
  method WriteGroup(vout: array<u8>, j: nat, pad: nat, w: nat, b: nat, acc: u32, s: nat, ghost v: nat)
    requires 8 <= b && w == CeilDiv(b, 8) + pad && j + w <= vout.Length && s + b <= 32 && acc == Low(v, 32)
    requires forall p :: j <= p < j + w ==> vout[p] == 0
    modifies vout
    ensures vout[j..j + w] == BigEndian(Low(Shr(v, s), b), w)
    ensures forall p :: 0 <= p < vout.Length && !(j <= p < j + w) ==> vout[p] == old(vout[p])
  {
    hide Digit; hide Pow2; hide Shr; hide Low;
    ghost var q := Low(Shr(v, s), b);
    WordHoldsGroup(v, s, b);
    for x := pad to w
      invariant forall p :: 0 <= p < vout.Length && !(j <= p < j + w) ==> vout[p] == old(vout[p])
      invariant forall p :: j <= p < j + w && p - j < pad ==> vout[p] == 0
      invariant forall p :: j + pad <= p < j + x ==> vout[p] == Digit(q, w - 1 - (p - j))
    {
      var m := w - x - 1;
      assert 8 * m < b && s + 8 * m < 32;
      var ones := if b - 8 * m < 8 then b - 8 * m else 8;
      ByteOfGroup(acc, s, b, m, ones);
      vout[j + x] := Low(Shr(acc, s + 8 * m), ones);
    }
    forall p | j <= p < j + w ensures vout[p] == Digit(q, w - 1 - (p - j)) {
      if p - j < pad { HighDigitsZero(q, b, w - 1 - (p - j)); }
    }
  }

  /** The room for group `g`: a group of input bits leaves at least its output bytes. */
  lemma RoomFor(g: nat, b: nat, w: nat, len: nat)
    requires b > 0 && Slot(g + 1, b) <= 8 * len
    ensures Slot(g, w) + w <= OutLength(len, b, w)
  {
    var bytes := 8 * w * len;
    DivParts(bytes, b);
    assert (Slot(g, w) + w) * b == w * ((g + 1) * b);
    assert w * ((g + 1) * b) <= w * (8 * len) by {
      if (g + 1) * b < 8 * len && w > 0 { Scales(w, (g + 1) * b, 8 * len); }
    }
    if Slot(g, w) + w > bytes / b { Scales(b, bytes / b, Slot(g, w) + w); }
  }

  lemma Later(i: nat, g: nat, w: nat)
    requires i < g
    ensures Slot(i, w) + w <= Slot(g, w) && Slot(i + 1, w) == Slot(i, w) + w
  {
    if i + 1 < g && w > 0 { Scales(w, i + 1, g); }
  }

  lemma WrittenMore(before: Bytes, after: Bytes, vin: Bytes, b: nat, w: nat, g: nat)
    requires |before| == |after| && Written(before, vin, b, w, g) && Slot(g, w) <= |after|
    requires forall p :: 0 <= p < Slot(g, w) ==> after[p] == before[p]
    requires GroupWritten(after, vin, b, w, g)
    ensures Written(after, vin, b, w, g + 1)
  {
    hide Group; hide BigEndian;
    forall i | 0 <= i < g + 1 ensures GroupWritten(after, vin, b, w, i) {
      if i < g {
        Later(i, g, w);
        assert GroupWritten(before, vin, b, w, i);
        assert after[Slot(i, w)..Slot(i, w) + w] == before[Slot(i, w)..Slot(i, w) + w];
      }
    }
  }

  /** The bits kept over from one byte to the next leave room for eight more in a 32-bit word. At
      26 bits this holds only because what is left over is always even. */
  predicate Leftover(b: nat, bits: nat) { bits < b && (b == 26 ==> bits % 2 == 0) }

  lemma LeftoverSmall(b: nat, bits: nat)
    requires Leftover(b, bits)
    ensures bits < b
  {
  }

  lemma LeftoverStep(b: nat, bits: nat)
    requires 8 <= b <= 26 && Leftover(b, bits)
    ensures if bits + 8 >= b then Leftover(b, bits + 8 - b) && bits + 8 <= 32 else Leftover(b, bits + 8)
  {
  }

  /** The length of the output. */
  function OutLength(len: nat, b: nat, w: nat): (n: nat)
    requires b > 0
  {
    DivNat(8 * w * len, b);
    8 * w * len / b
  }

  predicate ZeroFrom(out: Bytes, n: nat) { forall p :: n <= p < |out| ==> out[p] == 0 }

  method ExpandLoop(vin: Bytes, b: nat, pad: nat, w: nat, outLen: nat) returns (out: Bytes)
    requires 8 <= b <= 26 && w == CeilDiv(b, 8) + pad && outLen == OutLength(|vin|, b, w)
    ensures |out| == outLen && Written(out, vin, b, w, 8 * |vin| / b)
    ensures ZeroFrom(out, Slot(8 * |vin| / b, w))
  {
    hide Group; hide BigEndian; hide Value; hide Shr; hide Low; hide ShiftIn; hide Written; hide Slot; hide OutLength;
    hide Leftover; hide CeilDiv;
    var vout := new u8[outLen](_ => 0);
    var acc: u32, bits: nat, j: nat := 0, 0, 0;
    ghost var g: nat := 0;
    Starts(vin, b, w, vout[..]);
    for t := 0 to |vin|
      invariant acc == Low(Value(vin[..t]), 32) && bits == 8 * t - Slot(g, b) && Leftover(b, bits) && j == Slot(g, w)
      invariant Written(vout[..], vin, b, w, g)
      invariant forall p :: j <= p < vout.Length ==> vout[p] == 0
    {
      ghost var v := Value(vin[..t + 1]);
      ValueSnoc(vin, t);
      ShiftsIn(Value(vin[..t]), vin[t]);
      ShiftsIn(v, 0);
      acc := ShiftIn(acc, vin[t]);
      LeftoverStep(b, bits);
      bits := bits + 8;
      if bits >= b {
        bits := bits - b;
        Later(g, g + 1, b);
        RoomFor(g, b, w, |vin|);
        ghost var before := vout[..];
        WriteGroup(vout, j, pad, w, b, acc, bits, v);
        PrefixGroup(vin, t + 1, Slot(g + 1, b));
        GroupIs(vin, b, g, Low(Shr(v, bits), b));
        WrittenMore(before, vout[..], vin, b, w, g);
        Later(g, g + 1, w);
        j := j + w;
        g := g + 1;
      }
    }
    GroupCount(|vin|, b, g, bits) by { LeftoverSmall(b, bits); }
    out := vout[..];
  }

  lemma WholeGroups(len: nat, b: nat)
    requires b > 0
    ensures Slot(8 * len / b, b) <= 8 * len
  {
    DivParts(8 * len, b);
  }

  lemma GroupCount(len: nat, b: nat, g: nat, bits: nat)
    requires bits == 8 * len - Slot(g, b) && bits < b
    ensures 8 * len / b == g
  {
    DivUnique(8 * len, b, g, bits);
  }

  lemma GroupIs(vin: Bytes, b: nat, g: nat, q: nat)
    requires Slot(g + 1, b) <= 8 * |vin| && q == Low(Shr(Value(vin), 8 * |vin| - Slot(g + 1, b)), b)
    ensures Group(vin, b, g) == q
  {
  }

  lemma Starts(vin: Bytes, b: nat, w: nat, out: Bytes)
    ensures (b >= 8 ==> Leftover(b, 0)) && Value(vin[..0]) == 0 && Low(0, 32) == 0 && Written(out, vin, b, w, 0)
            && Slot(0, w) == 0 && Slot(0, b) == 0
  {
    ZeroBits(32);
  }

  lemma ValueSnoc(vin: Bytes, t: nat)
    requires t < |vin|
    ensures Value(vin[..t + 1]) == Value(vin[..t]) * 256 + vin[t]
  {
    assert vin[..t + 1][..t] == vin[..t];
  }

  // ---- whole bytes ----

  lemma {:induction false} ValueJoin(a: Bytes, s: Bytes)
    ensures Value(a + s) == Value(a) * Pow2(8 * |s|) + Value(s) && Value(s) < Pow2(8 * |s|)
    decreases |s|
  {
    hide Pow2;
    PowZero();
    if s == [] {
      assert a + s == a;
    } else {
      var n := |s| - 1;
      ValueJoin(a, s[..n]);
      assert (a + s)[..|a| + n] == a + s[..n];
      Bits8();
      PowAdd(8 * n, 8);
      JoinStep(Value(a), Pow2(8 * n), Value(s[..n]), s[n]);
    }
  }

  lemma JoinStep(a: nat, p: nat, v: nat, x: u8)
    requires v < p
    ensures (a * p + v) * 256 + x == a * (p * 256) + (v * 256 + x) && v * 256 + x < p * 256
  {
  }

  /** A byte string is the big-endian form of its value. */
  lemma ValueDigits(s: Bytes)
    ensures BigEndian(Value(s), |s|) == s
  {
    hide Value; hide Pow2; hide Shr; hide Low;
    forall x | 0 <= x < |s| ensures Digit(Value(s), |s| - 1 - x) == s[x] {
      var p, t := s[..x + 1], s[x + 1..];
      assert p + t == s;
      ValueJoin(p, t);
      JoinedBits(Value(p), Value(t), 8 * |t|);
      ValueSnoc(s, x);
      Bits8();
      JoinedBits(Value(s[..x]), s[x], 8);
    }
  }

  lemma {:induction false} DigitsValue(q: nat, w: nat)
    requires q < Pow2(8 * w)
    ensures Value(BigEndian(q, w)) == q
    decreases w
  {
    hide Pow2; hide Digit; hide BigEndian;
    PowZero();
    if w > 0 {
      PowAdd(8 * (w - 1), 8);
      Bits8();
      ShorterDigits(q, w);
      DivParts(q, 256);
      QuotientSmall(q, Pow2(8 * (w - 1)));
      DigitsValue(q / 256, w - 1);
    }
  }

  lemma QuotientSmall(q: nat, p: nat)
    requires q < p * 256
    ensures q / 256 < p
  {
  }

  lemma ShorterDigits(q: nat, w: nat)
    requires w > 0
    ensures var s := BigEndian(q, w); s[..w - 1] == BigEndian(q / 256, w - 1) && s[w - 1] == q % 256
  {
    hide Digit;
    var s, t := BigEndian(q, w), BigEndian(q / 256, w - 1);
    forall x | 0 <= x < w - 1 ensures s[x] == t[x] { DigitStep(q, w - 2 - x); }
    DigitStep(q, 0);
  }

  lemma DigitStep(q: nat, m: nat)
    ensures Digit(q, m + 1) == Digit(q / 256, m) && Digit(q, 0) == q % 256
  {
    hide Pow2; hide Shr; hide Low;
    assert 8 * (m + 1) == 8 + 8 * m;
    OneByte(q);
    NoShift(q);
    ShrShr(q, 8, 8 * m);
  }

  lemma OneByte(q: nat)
    ensures Shr(q, 8) == q / 256 && Low(q, 8) == q % 256
  {
    Bits8();
    hide Pow2;
  }

  /** Groups of whole bytes are already in place. */
  lemma AlignedWritten(vin: Bytes, b: nat, w: nat, g: nat)
    requires b == 8 * w && Slot(g, b) <= 8 * |vin|
    ensures Written(vin, vin, b, w, g)
  {
    hide Slot; hide GroupWritten;
    forall i | 0 <= i < g ensures GroupWritten(vin, vin, b, w, i) {
      AlignedSlot(i, b, w);
      if i + 1 < g { Later(i + 1, g, b); }
      AlignedGroup(vin, b, w, i);
    }
  }

  lemma AlignedGroup(vin: Bytes, b: nat, w: nat, i: nat)
    requires b == 8 * w && Slot(i + 1, b) == 8 * Slot(i + 1, w) && Slot(i + 1, b) <= 8 * |vin|
    ensures GroupWritten(vin, vin, b, w, i)
  {
    hide Value; hide Pow2; hide Slot; hide BigEndian; hide Shr; hide Low;
    Later(i, i + 1, w);
    var t := Slot(i + 1, w);
    var s := vin[t - w..t];
    PrefixGroup(vin, t, 8 * t);
    NoShift(Value(vin[..t]));
    assert vin[..t] == vin[..t - w] + s;
    ValueJoin(vin[..t - w], s);
    JoinedBits(Value(vin[..t - w]), Value(s), b);
    GroupIs(vin, b, i, Value(s));
    ValueDigits(s);
  }

  lemma PowZero()
    ensures Pow2(0) == 1
  {
  }

  lemma AlignedSlot(i: nat, b: nat, w: nat)
    requires b == 8 * w
    ensures Slot(i + 1, b) == 8 * Slot(i + 1, w)
  {
    assert (i + 1) * b == 8 * ((i + 1) * w);
  }

  // ---- the two uses ----

  /** `expand_array`: every whole group of `b` bits becomes `w` bytes, padded in front, and zeros fill
      what is left of the output. Inputs so short that input and output have the same length come back
      as they are. */
  method ExpandArray(vin: Bytes, b: nat, pad: nat) returns (out: Bytes)
    requires 8 <= b <= 26
    ensures var w := CeilDiv(b, 8) + pad;
            && |out| == OutLength(|vin|, b, w)
            && (b == 8 * w || |out| != |vin| ==> Written(out, vin, b, w, 8 * |vin| / b))
            && (|out| != |vin| ==> ZeroFrom(out, Slot(8 * |vin| / b, w)))
            && (|out| == |vin| ==> out == vin)
  {
    hide Written; hide OutLength; hide Slot;
    var w := CeilDiv(b, 8) + pad;
    var outLen := OutLength(|vin|, b, w);
    if outLen == |vin| {
      WholeGroups(|vin|, b);
      if b == 8 * w { AlignedWritten(vin, b, w, 8 * |vin| / b); }
      return vin;
    }
    out := ExpandLoop(vin, b, pad, w, outLen);
  }

  /** A leaf of `n` bits, in whole bytes, is `k + 1` groups and expands to exactly those. Its length
      changes unless the groups are whole bytes. */
  lemma LeafSizes(n: nat, k: nat)
    requires (n % 8 == 0 || (n == 125 && k == 4)) && n % (k + 1) == 0 && n / (k + 1) >= 8
    ensures var b, len := n / (k + 1), CeilDiv(n, 8);
            var w := CeilDiv(b, 8);
            && 8 * len / b == k + 1 && Slot(k + 1, b) <= 8 * len
            && OutLength(len, b, w) == (k + 1) * w == Slot(k + 1, w)
            && (b == 8 * w || OutLength(len, b, w) != len)
  {
    var b, len := n / (k + 1), CeilDiv(n, 8);
    var w := CeilDiv(b, 8);
    DivParts(n, k + 1);
    if n % 8 == 0 {
      assert 8 * len == n;
      assert n == (k + 1) * b;
      DivUnique(n, b, k + 1, 0);
      WholeLeaf(n, k + 1, b, w, len);
    }
  }

  lemma WholeLeaf(n: nat, g: nat, b: nat, w: nat, len: nat)
    requires g >= 1 && b >= 1 && 8 * len == n == g * b
    ensures OutLength(len, b, w) == g * w && (g * w == len ==> b == 8 * w)
  {
    assert 8 * w * len == w * (8 * len) == w * (g * b) == (g * w) * b;
    DivUnique(8 * w * len, b, g * w, 0);
    if g * w == len {
      assert g * (8 * w) == g * b;
      if b < 8 * w { Scales(g, b, 8 * w); }
      if 8 * w < b { Scales(g, 8 * w, b); }
    }
  }

  lemma MinimalSize(len: nat, b: nat, k: nat)
    requires 8 <= b <= 26 && k >= 3 && len == Pow2(k) * b / 8
    ensures 8 * len == Slot(Pow2(k), b) && 8 * len / b == Pow2(k) && OutLength(len, b, 4) == 4 * Pow2(k)
            && 4 * Pow2(k) != len
  {
    assert Pow2(3) == 8;
    hide Pow2;
    PowAdd(3, k - 3);
    EightfoldSize(len, b, Pow2(k - 3));
  }

  lemma EightfoldSize(len: nat, b: nat, m: nat)
    requires 8 <= b <= 26 && m >= 1 && len == 8 * m * b / 8
    ensures 8 * len == Slot(8 * m, b) && 8 * len / b == 8 * m && OutLength(len, b, 4) == 4 * (8 * m)
            && 4 * (8 * m) != len
  {
    var x := m * b;
    assert 8 * m * b == 8 * x && len == x;
    DivUnique(8 * len, b, 8 * m, 0);
    assert 32 * len == 32 * m * b;
    DivUnique(32 * len, b, 32 * m, 0);
    Scales(m, b, 32);
  }

  predicate IsGroup(minimal: Bytes, b: nat, i: nat, x: u32) {
    Slot(i + 1, b) <= 8 * |minimal| && x == Group(minimal, b, i)
  }

  /** `indices_from_minimal`: exactly `2^k` indices, each the next `c + 1` bits of the solution. */
  method IndicesFromMinimal(c: nat, k: nat, minimal: Bytes) returns (r: Option<seq<u32>>)
    requires 8 <= c + 1 <= 26 && k >= 3
    ensures r.None? <==> |minimal| != Pow2(k) * (c + 1) / 8
    ensures r.Some? ==> |r.value| == Pow2(k) && 8 * |minimal| == Slot(Pow2(k), c + 1)
    ensures r.Some? ==> forall i :: 0 <= i < |r.value| ==> IsGroup(minimal, c + 1, i, r.value[i])
  {
    hide Pow2; hide IsGroup; hide Slot; hide Value; hide Written;
    if |minimal| != Pow2(k) * (c + 1) / 8 { return None; }
    MinimalSize(|minimal|, c + 1, k);
    var bytes := ExpandArray(minimal, c + 1, 4 - CeilDiv(c + 1, 8));
    var indices := ReadWords(bytes, minimal, c + 1, Pow2(k));
    return Some(indices);
  }

  /** Reads four bytes at a time until fewer are left. */
  method ReadWords(bytes: Bytes, ghost minimal: Bytes, ghost b: nat, ghost n: nat) returns (indices: seq<u32>)
    requires |bytes| == 4 * n && b <= 26 && Written(bytes, minimal, b, 4, n)
    ensures |indices| == n && forall i :: 0 <= i < n ==> IsGroup(minimal, b, i, indices[i])
  {
    hide IsGroup; hide Slot; hide Value; hide Written;
    indices := [];
    var pos: nat := 0;
    ZeroSlot(4);
    while pos + 4 <= |bytes|
      invariant pos == Slot(|indices|, 4) && pos <= |bytes|
      invariant forall i :: 0 <= i < |indices| ==> IsGroup(minimal, b, i, indices[i])
      decreases |bytes| - pos
    {
      FourBytes(|indices|, n);
      GroupRead(bytes, minimal, b, |indices|, n);
      Later(|indices|, |indices| + 1, 4);
      var word := Value(bytes[pos..pos + 4]);
      indices := indices + [word];
      pos := pos + 4;
    }
    AllRead(|indices|, n);
  }

  lemma ZeroSlot(w: nat)
    ensures Slot(0, w) == 0
  {
  }

  lemma FourBytes(i: nat, n: nat)
    requires Slot(i, 4) + 4 <= 4 * n
    ensures i < n
  {
  }

  lemma AllRead(i: nat, n: nat)
    requires 4 * n < Slot(i, 4) + 4 && Slot(i, 4) <= 4 * n
    ensures i == n
  {
  }

  /** The four bytes of a written group read back as the group. */
  lemma GroupRead(out: Bytes, vin: Bytes, b: nat, i: nat, n: nat)
    requires i < n && Written(out, vin, b, 4, n) && b <= 26
    ensures GroupWritten(out, vin, b, 4, i) && Slot(i + 1, b) <= 8 * |vin| && Slot(i, 4) + 4 <= |out|
    ensures Value(out[Slot(i, 4)..Slot(i, 4) + 4]) < WORD && IsGroup(vin, b, i, Value(out[Slot(i, 4)..Slot(i, 4) + 4]))
  {
    assert GroupWritten(out, vin, b, 4, i);
    PowGrows(b, 32);
    PowWord();
    DigitsValue(Group(vin, b, i), 4);
  }
}
