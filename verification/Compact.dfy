/** The compact form of targets and the work they stand for (sections 7.7.4 and 7.7.5 of the Zcash
    Protocol Specification). 256-bit numbers are naturals below `Limit()`. */
module Compact {
  import opened Basics
  import opened Powers

  const MANTISSA: int := 0x80_0000

  function Limit(): (n: nat) { 0x1_0000_0000_0000_0000_0000_0000_0000_0000_0000_0000_0000_0000_0000_0000_0000_0000 }

  lemma Square(n: nat, v: nat, w: nat)
    requires Pow2(n) == v && w == v * v
    ensures Pow2(n + n) == w
  {
    PowAdd(n, n);
  }

  lemma LimitPower()
    ensures Limit() == Pow2(256)
  {
    hide Pow2;
    Bits8();
    Square(8, 0x100, 0x1_0000);
    Square(16, 0x1_0000, 0x1_0000_0000);
    Square(32, 0x1_0000_0000, 0x1_0000_0000_0000_0000);
    Square(64, 0x1_0000_0000_0000_0000, 0x1_0000_0000_0000_0000_0000_0000_0000_0000);
    Square(128, 0x1_0000_0000_0000_0000_0000_0000_0000_0000, Limit());
  }

  datatype CompactError = Negative | Overflow

  datatype Decoded = Target(value: nat) | Rejected(error: CompactError)

  /** A 256-bit shift left: bits past the top are lost. */
  function ShiftLeft(x: nat, n: nat): (r: nat) { x * Pow2(n) % Limit() }

  /** `compact_to_u256`. */
  function Decode(bits: u32): (r: Decoded) {
    var size := bits / 0x100_0000;
    var word := bits % MANTISSA;
    if bits / MANTISSA % 2 != 0 then Rejected(Negative)
    else if size <= 3 then Target(Shr(word, 8 * (3 - size)))
    else if word != 0 && (size > 34 || (word > 0xff && size > 33) || (word > 0xffff && size > 32))
    then Rejected(Overflow)
    else Target(ShiftLeft(word, 8 * (size - 3)))
  }

  function ByteLength(v: nat): (n: nat) { if v == 0 then 0 else 1 + ByteLength(v / 256) }

  /** The leading bytes of a number, moved to the mantissa's place. */
  function Lead(v: nat, size: nat): (c: nat) {
    if size <= 3 then v * Pow2(8 * (3 - size)) else Shr(v, 8 * (size - 3)) % 0x1_0000_0000
  }

  /** Size and mantissa together; a mantissa with its sign bit set gives up a byte. */
  function Pack(size: nat, compact: nat): (bits: nat) {
    if compact / MANTISSA % 2 != 0 then (size + 1) * 0x100_0000 + compact / 256 % MANTISSA
    else size * 0x100_0000 + compact % MANTISSA
  }

  /** `u256_to_compact`. */
  function Encode(v: nat): (bits: nat) {
    if v == 0 then 0 else Pack(ByteLength(v), Lead(v, ByteLength(v)))
  }

  lemma Packed(size: nat, c: nat)
    requires c < 0x100_0000
    ensures Pack(size, c) == if c < MANTISSA then size * 0x100_0000 + c else (size + 1) * 0x100_0000 + c / 256
  {
  }

  // ---- rounding ----

  /** How many low bytes must go for the rest to fit the 23-bit mantissa. */
  function Dropped(v: nat): (d: nat) { if v < MANTISSA then 0 else 1 + Dropped(v / 256) }

  /** The greatest multiple of `p` up to `v`. */
  function Multiple(v: nat, p: nat): (r: nat)
    requires p > 0
  {
    DivNat(v, p);
    v / p * p
  }

  function Round(v: nat): (r: nat) { Multiple(v, Pow2(8 * Dropped(v))) }

  lemma Pow256(n: nat)
    ensures Pow2(8 * (n + 1)) == 256 * Pow2(8 * n) && Pow2(8) == 256 && Pow2(16) == 65536 && Pow2(0) == 1
  {
    assert Pow2(4) == 16;
    PowAdd(4, 4);
    PowAdd(8, 8);
    PowAdd(8, 8 * n);
  }

  /** What is kept has between 15 and 23 bits. */
  lemma {:induction false} KeptBits(v: nat)
    ensures v / Pow2(8 * Dropped(v)) < MANTISSA
    ensures Dropped(v) > 0 ==> v / Pow2(8 * Dropped(v)) >= 0x8000
  {
    var d := Dropped(v);
    Pow256(0);
    if d > 0 {
      KeptBits(v / 256);
      Pow256(d - 1);
      hide Pow2;
      DivDiv(v, 256, Pow2(8 * (d - 1)));
      if d == 1 { DivUnique(v / 256, 1, v / 256, 0); }
    } else {
      DivUnique(v, 1, v, 0);
    }
  }

  lemma DropStep(m: nat, p: nat, x: nat)
    requires p >= 1 && m >= 0x8000 && x < 256 * p
    ensures (m * (256 * p) + x) / 256 == m * p + x / 256 && x / 256 < p && m * (256 * p) + x >= MANTISSA
  {
    DivParts(x, 256);
    assert m * (256 * p) == m * p * 256;
    DivUnique(m * (256 * p) + x, 256, m * p + x / 256, x % 256);
    if m * p < m { Scales(m, p, 1); }
  }

  /** The kept part and the number of dropped bytes determine each other. */
  lemma {:induction false} DroppedIs(m: nat, x: nat, d: nat)
    requires m < MANTISSA && x < Pow2(8 * d) && (d > 0 ==> m >= 0x8000)
    ensures Dropped(m * Pow2(8 * d) + x) == d
    decreases d
  {
    Pow256(0);
    if d > 0 {
      Pow256(d - 1);
      hide Pow2;
      DropStep(m, Pow2(8 * (d - 1)), x);
      DroppedIs(m, x / 256, d - 1);
    } else {
      assert m * 1 + x == m;
    }
  }

  /** Rounding loses less than one part in 2^15, and nothing below 2^23. */
  lemma RoundIsClose(v: nat)
    requires v > 0
    ensures Round(v) <= v && (v - Round(v)) * 0x8000 < Round(v)
  {
    var d := Dropped(v);
    KeptBits(v);
    Pow256(0);
    hide Pow2;
    var p := Pow2(8 * d);
    var m := v / p;
    DivParts(v, p);
    if d == 0 {
      DivUnique(v, 1, v, 0);
    } else {
      assert m * p >= 0x8000 * p by { if m > 0x8000 { Scales(p, 0x8000, m); } }
    }
  }

  lemma {:induction false} DroppedGrows(v: nat, w: nat)
    requires v <= w
    ensures Dropped(v) <= Dropped(w)
    decreases w
  {
    if v >= MANTISSA { DroppedGrows(v / 256, w / 256); }
  }

  lemma DivGrows(v: nat, w: nat, p: nat)
    requires v <= w && p > 0
    ensures v / p <= w / p
  {
    DivParts(v, p);
    DivParts(w, p);
    if w / p < v / p { Scales(p, w / p, v / p); }
  }

  /** A larger number rounds to no less. */
  lemma RoundGrows(v: nat, w: nat)
    requires v <= w
    ensures Round(v) <= Round(w)
  {
    var d, e := Dropped(v), Dropped(w);
    DroppedGrows(v, w);
    KeptBits(v);
    KeptBits(w);
    var p, q := Pow2(8 * d), Pow2(8 * e);
    DivGrows(v, w, p);
    if d == e {
      var a, b := v / p, w / p;
      if a < b { Scales(p, a, b); }
    } else {
      PowAdd(8 * d, 8 * (e - d));
      Pow256(e - d - 1);
      PowGrows(0, 8 * (e - d - 1));
      hide Pow2;
      RoundsApart(v / p, p, w / q, q, Pow2(8 * (e - d)));
    }
  }

  lemma RoundsApart(a: nat, p: nat, b: nat, q: nat, k: nat)
    requires a < MANTISSA && b >= 0x8000 && p >= 1 && k >= 256 && q == p * k
    ensures a * p <= b * q
  {
    assert a * p <= MANTISSA * p by { Scales(p, a, MANTISSA); }
    assert 256 * p <= k * p by { if k > 256 { Scales(p, 256, k); } }
    assert 0x8000 * q <= b * q by { if b > 0x8000 { Scales(q, 0x8000, b); } }
  }

  lemma RoundTwice(v: nat)
    ensures Round(Round(v)) == Round(v)
  {
    var d := Dropped(v);
    var p := Pow2(8 * d);
    var m := v / p;
    KeptBits(v);
    DroppedIs(m, 0, d);
    DivUnique(m * p, p, m, 0);
  }

  /** A multiple of a byte power with a short enough quotient is not changed. */
  lemma {:induction false} RoundExact(m: nat, f: nat)
    requires m < MANTISSA
    ensures Round(m * Pow2(8 * f)) == m * Pow2(8 * f)
    decreases f
  {
    Pow256(0);
    if f > 0 && m < 0x8000 {
      Pow256(f - 1);
      hide Pow2; hide Round;
      assert m * (256 * Pow2(8 * (f - 1))) == m * 256 * Pow2(8 * (f - 1));
      RoundExact(m * 256, f - 1);
    } else {
      DroppedIs(m, 0, f);
      hide Pow2; hide Dropped;
      DivUnique(m * Pow2(8 * f), Pow2(8 * f), m, 0);
    }
  }

  // ---- the codec ----

  lemma {:induction false} LengthBound(v: nat, n: nat)
    requires v < Pow2(8 * n)
    ensures ByteLength(v) <= n
    decreases n
  {
    Pow256(0);
    if v > 0 && n > 0 {
      Pow256(n - 1);
      LengthBound(v / 256, n - 1);
    }
  }

  /** The leading three bytes decide how many bytes go. */
  lemma {:induction false} Leading(v: nat)
    requires ByteLength(v) >= 3
    ensures var m := v / Pow2(8 * (ByteLength(v) - 3));
            m < 0x100_0000 && Dropped(v) == if m < MANTISSA then ByteLength(v) - 3 else ByteLength(v) - 2
  {
    var s := ByteLength(v);
    Pow256(0);
    if s == 3 {
      DivUnique(v, 1, v, 0);
      ThreeBytes(v);
    } else {
      Leading(v / 256);
      Pow256(s - 4);
      FourBytes(v);
      hide Pow2;
      DivDiv(v, 256, Pow2(8 * (s - 4)));
    }
  }

  lemma ThreeBytes(v: nat)
    requires ByteLength(v) == 3
    ensures v < 0x100_0000 && Dropped(v) == if v < MANTISSA then 0 else 1
  {
    assert ByteLength(v / 256) == 2 && ByteLength(v / 256 / 256) == 1 && ByteLength(v / 256 / 256 / 256) == 0;
    assert v / 256 < MANTISSA;
  }

  lemma FourBytes(v: nat)
    requires ByteLength(v) >= 4
    ensures v >= MANTISSA && ByteLength(v / 256) == ByteLength(v) - 1
  {
    assert ByteLength(v / 256) >= 3 && ByteLength(v / 256 / 256) >= 2 && ByteLength(v / 256 / 256 / 256) >= 1;
  }

  lemma ShortLength(v: nat)
    requires 0 < v && ByteLength(v) <= 2
    ensures if ByteLength(v) == 1 then v < 256 else 256 <= v < 65536
  {
    assert ByteLength(v / 256) == ByteLength(v) - 1;
    if ByteLength(v) == 2 { assert ByteLength(v / 256 / 256) == 0; }
  }

  /** The fields of a compact number. */
  lemma Fields(size: nat, word: nat)
    requires size <= 255 && word < MANTISSA
    ensures var bits := size * 0x100_0000 + word;
            bits < U32_LIMIT && bits / 0x100_0000 == size && bits % MANTISSA == word && bits / MANTISSA % 2 == 0
  {
  }

  /** A product below the limit is not cut. */
  lemma Fits(word: nat, n: nat, top: nat, bound: nat)
    requires word < bound && bound == Pow2(top) && n + top <= 256
    ensures ShiftLeft(word, n) == word * Pow2(n)
  {
    hide Pow2;
    LimitPower();
    hide Limit;
    PowAdd(top, n);
    PowGrows(n + top, 256);
    Uncut(word, Pow2(n), bound, Limit());
  }

  lemma Uncut(word: nat, p: nat, bound: nat, limit: nat)
    requires word < bound && p >= 1 && bound * p <= limit
    ensures word * p % limit == word * p
  {
    Scales(p, word, bound);
    DivUnique(word * p, limit, 0, word * p);
  }

  lemma NoLoss(word: nat, n: nat)
    requires (word < MANTISSA && n <= 29) || (word <= 0xffff && n <= 30)
    ensures ShiftLeft(word, 8 * n) == word * Pow2(8 * n)
  {
    Pow256(2);
    Pow256(1);
    hide Pow2; hide ShiftLeft;
    if word <= 0xffff { Fits(word, 8 * n, 16, 65536); } else { Fits(word, 8 * n, 24, 0x100_0000); }
  }

  lemma DecodeLarge(size: nat, word: nat)
    requires 3 <= size <= 33 && word < MANTISSA && (size == 33 ==> word <= 0xffff)
    ensures Decode(size * 0x100_0000 + word) == Target(word * Pow2(8 * (size - 3)))
  {
    Fields(size, word);
    Pow256(0);
    if size == 3 { DivUnique(word, 1, word, 0); } else { NoLoss(word, size - 3); }
  }

  lemma EncodeLarge(v: nat)
    requires v < Limit() && ByteLength(v) >= 3
    ensures var d := Dropped(v);
            && d <= 30 && v / Pow2(8 * d) < MANTISSA && (d == 30 ==> v / Pow2(8 * d) <= 0xffff)
            && Encode(v) == (d + 3) * 0x100_0000 + v / Pow2(8 * d)
  {
    hide Pow2; hide Pack; hide Dropped; hide Limit;
    var s := ByteLength(v);
    LimitLength(v);
    Leading(v);
    KeptBits(v);
    LeadIs(v, s);
    hide ByteLength; hide Lead;
    var m := v / Pow2(8 * (s - 3));
    Packed(s, m);
    Pow256(s - 3);
    DivDiv(v, Pow2(8 * (s - 3)), 256);
  }

  lemma LimitLength(v: nat)
    requires v < Limit()
    ensures ByteLength(v) <= 32
  {
    hide Pow2;
    LimitPower();
    LengthBound(v, 32);
  }

  lemma LeadIs(v: nat, s: nat)
    requires s >= 3 && v / Pow2(8 * (s - 3)) < 0x100_0000
    ensures Lead(v, s) == v / Pow2(8 * (s - 3))
  {
    hide Pow2;
    Pow256(0);
    var m := v / Pow2(8 * (s - 3));
    if s == 3 { DivUnique(v, 1, v, 0); } else { SmallWord(m); }
  }

  lemma SmallWord(m: nat)
    requires m < 0x100_0000
    ensures m % 0x1_0000_0000 == m
  {
  }

  lemma SmallDecode(v: nat, size: nat, scale: nat)
    requires 1 <= size <= 3 && scale == Pow2(8 * (3 - size)) && v * scale < MANTISSA
    ensures Decode(size * 0x100_0000 + v * scale) == Target(v)
  {
    hide Pow2;
    Fields(size, v * scale);
    DivUnique(v * scale, scale, v, 0);
  }

  lemma SmallEncode(v: nat)
    requires 0 < v && ByteLength(v) <= 2
    ensures Encode(v) == if v < 0x80 then 0x100_0000 + v * 65536
                         else if v < 0x8000 then 0x200_0000 + v * 256
                         else 0x300_0000 + v
  {
    hide Pow2; hide Pack;
    ShortLength(v);
    Pow256(0);
    var c := Lead(v, ByteLength(v));
    Packed(ByteLength(v), c);
  }

  lemma SmallRoundTrip(v: nat)
    requires 0 < v && ByteLength(v) <= 2
    ensures 0 <= Encode(v) < U32_LIMIT && Decode(Encode(v)) == Target(v) && Round(v) == v
  {
    ShortLength(v);
    Pow256(0);
    DivUnique(v, 1, v, 0);
    hide Pow2; hide Decode; hide ByteLength; hide Encode;
    SmallEncode(v);
    if v < 0x80 {
      SmallDecode(v, 1, 65536);
    } else if v < 0x8000 {
      SmallDecode(v, 2, 256);
    } else {
      SmallDecode(v, 3, 1);
    }
  }

  /** Decoding what was encoded gives the number rounded down to a 23-bit mantissa. */
  lemma DecodeEncode(v: nat)
    requires 0 < v < Limit()
    ensures 0 <= Encode(v) < U32_LIMIT && Decode(Encode(v)) == Target(Round(v))
  {
    hide Decode; hide Encode; hide Pow2; hide Dropped; hide ByteLength; hide Limit;
    if ByteLength(v) >= 3 {
      EncodeLarge(v);
      var d := Dropped(v);
      DecodeLarge(d + 3, v / Pow2(8 * d));
      Fields(d + 3, v / Pow2(8 * d));
    } else {
      SmallRoundTrip(v);
    }
  }

  /** Encoding and decoding: never up, off by less than one part in 2^15, monotone and idempotent. */
  lemma CodecLaws(v: nat, w: nat)
    requires 0 < v <= w < Limit()
    ensures Encode(v) < U32_LIMIT && Encode(w) < U32_LIMIT
    ensures var r, s := Decode(Encode(v)), Decode(Encode(w));
            && r.Target? && s.Target? && 0 < r.value <= v && (v - r.value) * 0x8000 < r.value && r.value <= s.value
            && Encode(r.value) < U32_LIMIT && Decode(Encode(r.value)) == r
  {
    hide Decode; hide Encode; hide Round; hide Limit; hide Pow2;
    DecodeEncode(v);
    DecodeEncode(w);
    RoundIsClose(v);
    RoundGrows(v, w);
    RoundTwice(v);
    DecodeEncode(Round(v));
  }

  /** Every accepted compact number decodes to a short mantissa times a byte power, below the limit. */
  lemma AcceptedIsShort(bits: u32) returns (m: nat, f: nat)
    requires Decode(bits).Target?
    ensures m < MANTISSA && Decode(bits).value == m * Pow2(8 * f) < Limit()
  {
    hide Pow2; hide ShiftLeft; hide Limit;
    var size, word := bits / 0x100_0000, bits % MANTISSA;
    Pow256(0);
    if size <= 3 {
      m, f := word / Pow2(8 * (3 - size)), 0;
      QuotientShort(word, Pow2(8 * (3 - size)));
      LimitBig();
    } else if word == 0 {
      m, f := 0, 0;
      ZeroShift(8 * (size - 3));
    } else {
      m, f := word, size - 3;
      if word <= 0xff {
        Fits(word, 8 * f, 8, 256);
      } else if word <= 0xffff {
        Fits(word, 8 * f, 16, 65536);
      } else {
        NoLoss(word, f);
      }
      LimitIs(word, 8 * f);
    }
  }

  /** A compact number is refused exactly when it is negative or its value does not fit 256 bits, and
      otherwise read as what it says: a mantissa moved by whole bytes. */
  lemma DecodeExactly(bits: u32)
    ensures var size, word := bits / 0x100_0000, bits % MANTISSA;
            if bits / MANTISSA % 2 != 0 then Decode(bits) == Rejected(Negative)
            else if size <= 3 then Decode(bits) == Target(word / Pow2(8 * (3 - size)))
            else if word * Pow2(8 * (size - 3)) < Limit() then Decode(bits) == Target(word * Pow2(8 * (size - 3)))
            else Decode(bits) == Rejected(Overflow)
  {
    hide Pow2; hide Limit; hide ShiftLeft;
    var size, word := bits / 0x100_0000, bits % MANTISSA;
    Pow256(0);
    if bits / MANTISSA % 2 == 0 && size > 3 && word > 0 {
      var f := size - 3;
      if size > 34 {
        TooLarge(word, 8 * f, 0, 1);
      } else if word > 0xff && size > 33 {
        TooLarge(word, 8 * f, 8, 256);
      } else if word > 0xffff && size > 32 {
        TooLarge(word, 8 * f, 16, 65536);
      } else if word <= 0xff {
        Fits(word, 8 * f, 8, 256);
        Shifted(word, 8 * f);
      } else {
        NoLoss(word, f);
        Shifted(word, 8 * f);
      }
    } else if word == 0 && size > 3 {
      ZeroShift(8 * (size - 3));
      NothingShifted(8 * (size - 3));
    }
  }

  lemma Shifted(x: nat, n: nat)
    requires ShiftLeft(x, n) == x * Pow2(n)
    ensures x * Pow2(n) < Limit()
  {
    hide Pow2;
    DivParts(x * Pow2(n), Limit());
  }

  lemma NothingShifted(n: nat)
    ensures 0 * Pow2(n) == 0 < Limit()
  {
  }

  lemma TooLarge(x: nat, n: nat, k: nat, w: nat)
    requires Pow2(k) == w <= x && n + k >= 256
    ensures x * Pow2(n) >= Limit()
  {
    hide Pow2;
    LimitPower();
    hide Limit;
    PowGrows(256, n + k);
    PowAdd(n, k);
    assert (x - w) * Pow2(n) >= 0;
  }

  lemma QuotientShort(word: nat, p: nat)
    requires p >= 1
    ensures word / p <= word
  {
    DivParts(word, p);
    if word < word / p { Scales(p, word, word / p); }
  }

  lemma LimitBig()
    ensures Limit() >= MANTISSA
  {
  }

  lemma ZeroShift(n: nat)
    ensures ShiftLeft(0, n) == 0 && Limit() > 0
  {
    hide Pow2;
    DivUnique(0, Limit(), 0, 0);
  }

  lemma LimitIs(x: nat, n: nat)
    ensures ShiftLeft(x, n) < Limit()
  {
  }

  lemma AcceptedBelow(bits: u32)
    requires Decode(bits).Target?
    ensures Decode(bits).value < Limit()
  {
    var m, f := AcceptedIsShort(bits);
  }

  /** Re-encoding an accepted compact number keeps its value. */
  lemma ReencodeKeeps(bits: u32)
    requires Decode(bits).Target? && Decode(bits).value > 0
    ensures var v := Decode(bits).value; 0 <= Encode(v) < U32_LIMIT && Decode(Encode(v)) == Target(v)
  {
    hide Decode; hide Encode; hide Pow2; hide Limit; hide Round;
    var m, f := AcceptedIsShort(bits);
    RoundExact(m, f);
    DecodeEncode(Decode(bits).value);
  }

  // ---- work ----

  /** The complement of `t` over `t + 1`, plus one. */
  function Share(limit: nat, t: nat): (w: nat)
    requires t < limit
  {
    DivNat(limit - 1 - t, t + 1);
    (limit - 1 - t) / (t + 1) + 1
  }

  lemma ShareIs(limit: nat, t: nat)
    requires t < limit
    ensures Share(limit, t) == limit / (t + 1)
  {
    DivParts(limit - 1 - t, t + 1);
    var q, r := (limit - 1 - t) / (t + 1), (limit - 1 - t) % (t + 1);
    assert limit == (q + 1) * (t + 1) + r;
    DivUnique(limit, t + 1, q + 1, r);
  }

  /** `block_proof`, in 256-bit arithmetic: the complement of the target over the target plus one, plus one. */
  function BlockProof(bits: u32): (r: Decoded) {
    var d := Decode(bits);
    if d.Rejected? then d
    else if d.value == 0 then Target(0)
    else
      AcceptedBelow(bits);
      Target(Share(Limit(), d.value))
  }

  /** The work of a block is the number of hashes a target takes on average. */
  lemma WorkIsShare(bits: u32)
    requires Decode(bits).Target? && Decode(bits).value > 0
    ensures BlockProof(bits).Target? && BlockProof(bits).value == Limit() / (Decode(bits).value + 1)
  {
    hide Decode; hide Pow2; hide Limit; hide Share;
    AcceptedBelow(bits);
    ShareIs(Limit(), Decode(bits).value);
  }
}
