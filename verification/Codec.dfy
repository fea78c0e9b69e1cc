/** The little-endian encoder and decoder every stored record goes through.
    A decoder is a function from the bytes still unread to a value and the bytes left
    after it, so a cursor is the length of what has been consumed. */
module Codec {
  import opened Basics

  /** The largest length prefix the decoder accepts. */
  const MAX_COMPACT_SIZE: int := 0x0200_0000

  datatype DecodeError = UnexpectedEof | NonCanonicalVarInt | SizeTooLarge | InvalidData | TrailingBytes

  /** The value read and the bytes after it, or the error that stopped the decoder. */
  datatype Parsed<+T> = Got(value: T, rest: Bytes) | Bad(error: DecodeError) {
    predicate IsFailure() { Bad? }
    function PropagateFailure<U>(): Parsed<U> requires Bad? { Bad(error) }
    function Extract(): (T, Bytes) requires Got? { (value, rest) }
  }

  function Pow256(n: nat): (p: int)
    ensures p >= 1
  {
    if n == 0 then 1 else 256 * Pow256(n - 1)
  }

  /** `value.to_le_bytes()` for an `n`-byte integer. */
  function LittleEndian(n: nat, x: nat): (b: Bytes)
    ensures |b| == n
  {
    if n == 0 then [] else [x % 256] + LittleEndian(n - 1, x / 256)
  }

  function FromLittleEndian(b: Bytes): (x: nat) {
    if b == [] then 0 else b[0] + 256 * FromLittleEndian(b[1..])
  }

  lemma {:induction false} LittleEndianRoundTrip(n: nat, x: nat)
    requires x < Pow256(n)
    ensures FromLittleEndian(LittleEndian(n, x)) == x
  {
    if n > 0 {
      assert x / 256 < Pow256(n - 1);
      LittleEndianRoundTrip(n - 1, x / 256);
      var b := LittleEndian(n, x);
      assert b[1..] == LittleEndian(n - 1, x / 256);
    }
  }

  lemma {:induction false} FromLittleEndianBound(b: Bytes)
    ensures FromLittleEndian(b) < Pow256(|b|)
  {
    if b != [] {
      FromLittleEndianBound(b[1..]);
    }
  }

  lemma Widths()
    ensures Pow256(1) == 256
    ensures Pow256(2) == 0x1_0000
    ensures Pow256(4) == U32_LIMIT
    ensures Pow256(8) == U64_LIMIT
  {
    assert Pow256(1) == 256 * Pow256(0);
    assert Pow256(2) == 256 * Pow256(1);
    assert Pow256(3) == 256 * Pow256(2);
    assert Pow256(4) == 256 * Pow256(3);
    assert Pow256(5) == 256 * Pow256(4);
    assert Pow256(6) == 256 * Pow256(5);
    assert Pow256(7) == 256 * Pow256(6);
    assert Pow256(8) == 256 * Pow256(7);
  }

  // ---- readers ----

  function ReadBytes(n: nat, b: Bytes): (r: Parsed<Bytes>)
    ensures r.Got? ==> |r.value| == n && b == r.value + r.rest
  {
    if |b| < n then Bad(UnexpectedEof) else Got(b[..n], b[n..])
  }

  function ReadLittleEndian(n: nat, b: Bytes): (r: Parsed<nat>)
    ensures r.Got? ==> r.value < Pow256(n) && |b| == |r.rest| + n
  {
    var (v, rest) :- ReadBytes(n, b);
    FromLittleEndianBound(v);
    Got(FromLittleEndian(v), rest)
  }

  function ReadU8(b: Bytes): (r: Parsed<u8>) {
    if b == [] then Bad(UnexpectedEof) else Got(b[0], b[1..])
  }

  function ReadU32(b: Bytes): (r: Parsed<u32>) {
    var (v, rest) :- ReadLittleEndian(4, b);
    Widths();
    Got(v, rest)
  }

  /** Two's complement reading of an unsigned 64-bit word. */
  function ToSigned(v: nat): (x: i64)
    requires v < U64_LIMIT
  {
    if v <= I64_MAX then v else v - U64_LIMIT
  }

  function ToUnsigned(x: i64): (v: nat)
    ensures v < U64_LIMIT
  {
    if x >= 0 then x else x + U64_LIMIT
  }

  function ReadI64(b: Bytes): (r: Parsed<i64>) {
    var (v, rest) :- ReadLittleEndian(8, b);
    Widths();
    Got(ToSigned(v), rest)
  }

  function ReadHash(b: Bytes): (r: Parsed<Hash>) {
    var (v, rest) :- ReadBytes(32, b);
    Got(v, rest)
  }

  function Canonical(r: Parsed<nat>, least: nat): (c: Parsed<nat>) {
    if r.Got? && r.value < least then Bad(NonCanonicalVarInt) else r
  }

  /** CompactSize, rejecting non-minimal forms and values above the size limit. */
  function ReadVarInt(b: Bytes): (r: Parsed<nat>) {
    var (prefix, rest) :- ReadU8(b);
    var v := if prefix < 0xfd then Got(prefix, rest)
             else if prefix == 0xfd then Canonical(ReadLittleEndian(2, rest), 0xfd)
             else if prefix == 0xfe then Canonical(ReadLittleEndian(4, rest), 0x1_0000)
             else Canonical(ReadLittleEndian(8, rest), U32_LIMIT);
    if v.Got? && v.value > MAX_COMPACT_SIZE then Bad(SizeTooLarge) else v
  }

  function ReadVarBytes(b: Bytes): (r: Parsed<Bytes>) {
    var (n, rest) :- ReadVarInt(b);
    ReadBytes(n, rest)
  }

  function ReadOutPoint(b: Bytes): (r: Parsed<OutPoint>) {
    var (hash, rest) :- ReadHash(b);
    var (index, rest) :- ReadU32(rest);
    Got(OutPoint(hash, index), rest)
  }

  function ReadOptionalHash(b: Bytes): (r: Parsed<Option<Hash>>) {
    var (flag, rest) :- ReadU8(b);
    if flag == 0 then Got(None, rest)
    else
      var (h, rest) :- ReadHash(rest);
      Got(Some(h), rest)
  }

  // ---- writers ----

  function U32Bytes(x: u32): (b: Bytes) { LittleEndian(4, x) }

  function I64Bytes(x: i64): (b: Bytes) { LittleEndian(8, ToUnsigned(x)) }

  function VarInt(v: nat): (b: Bytes) {
    if v < 0xfd then [v]
    else if v <= 0xffff then [0xfd] + LittleEndian(2, v)
    else if v < U32_LIMIT then [0xfe] + LittleEndian(4, v)
    else [0xff] + LittleEndian(8, v)
  }

  function VarBytes(s: Bytes): (b: Bytes)
    ensures |b| > |s|
  {
    VarInt(|s|) + s
  }

  function OutPointBytes(o: OutPoint): (b: Bytes) { o.hash + U32Bytes(o.index) }

  function FlagByte(f: bool): (b: Bytes) { [if f then 1 else 0] }

  function OptionalHash(h: Option<Hash>): (b: Bytes) {
    match h
    case Some(key) => [1] + key
    case None => [0]
  }

  // ---- one round trip per primitive: the writer's bytes, followed by anything ----

  lemma SplitPrefix(a: Bytes, b: Bytes)
    ensures (a + b)[..|a|] == a
    ensures (a + b)[|a|..] == b
  {
  }

  lemma ReadBytesBack(a: Bytes, rest: Bytes)
    ensures ReadBytes(|a|, a + rest) == Got(a, rest)
  {
    SplitPrefix(a, rest);
  }

  lemma ReadLittleEndianBack(n: nat, x: nat, rest: Bytes)
    requires x < Pow256(n)
    ensures ReadLittleEndian(n, LittleEndian(n, x) + rest) == Got(x, rest)
  {
    ReadBytesBack(LittleEndian(n, x), rest);
    LittleEndianRoundTrip(n, x);
  }

  lemma ReadU32Back(x: u32, rest: Bytes)
    ensures ReadU32(U32Bytes(x) + rest) == Got(x, rest)
  {
    Widths();
    ReadLittleEndianBack(4, x, rest);
  }

  lemma ReadI64Back(x: i64, rest: Bytes)
    ensures ReadI64(I64Bytes(x) + rest) == Got(x, rest)
  {
    Widths();
    ReadLittleEndianBack(8, ToUnsigned(x), rest);
  }

  lemma ReadU8Back(x: u8, rest: Bytes)
    ensures ReadU8([x] + rest) == Got(x, rest)
  {
    assert ([x] + rest)[1..] == rest;
  }

  lemma ReadHashBack(h: Hash, rest: Bytes)
    ensures ReadHash(h + rest) == Got(h, rest)
  {
    ReadBytesBack(h, rest);
  }

  lemma ReadOutPointBack(o: OutPoint, rest: Bytes)
    ensures ReadOutPoint(OutPointBytes(o) + rest) == Got(o, rest)
  {
    assert OutPointBytes(o) + rest == o.hash + (U32Bytes(o.index) + rest);
    ReadHashBack(o.hash, U32Bytes(o.index) + rest);
    ReadU32Back(o.index, rest);
  }

  lemma ReadOptionalHashBack(h: Option<Hash>, rest: Bytes)
    ensures ReadOptionalHash(OptionalHash(h) + rest) == Got(h, rest)
  {
    match h
    case Some(key) =>
      assert OptionalHash(h) + rest == [1] + (key + rest);
      ReadU8Back(1, key + rest);
      ReadHashBack(key, rest);
    case None =>
      ReadU8Back(0, rest);
  }

  lemma ReadPrefixed(prefix: u8, n: nat, v: nat, rest: Bytes)
    requires v < Pow256(n)
    ensures var b := [prefix] + LittleEndian(n, v) + rest;
            var tail := LittleEndian(n, v) + rest;
            ReadU8(b) == Got(prefix, tail) && ReadLittleEndian(n, tail) == Got(v, rest)
  {
    var tail := LittleEndian(n, v) + rest;
    assert [prefix] + LittleEndian(n, v) + rest == [prefix] + tail;
    ReadU8Back(prefix, tail);
    ReadLittleEndianBack(n, v, rest);
  }

  lemma ReadVarIntBack(v: nat, rest: Bytes)
    requires v < U64_LIMIT
    ensures ReadVarInt(VarInt(v) + rest) == if v <= MAX_COMPACT_SIZE then Got(v, rest) else Bad(SizeTooLarge)
  {
    if v < 0xfd {
      ReadU8Back(v, rest);
    } else if v <= 0xffff {
      assert v < Pow256(2) by { Widths(); }
      ReadPrefixed(0xfd, 2, v, rest);
    } else if v < U32_LIMIT {
      assert v < Pow256(4) by { Widths(); }
      ReadPrefixed(0xfe, 4, v, rest);
    } else {
      assert v < Pow256(8) by { Widths(); }
      ReadPrefixed(0xff, 8, v, rest);
    }
  }

  /** A byte string comes back exactly when its length is within the decoder's limit. */
  lemma ReadVarBytesBack(s: Bytes, rest: Bytes)
    requires |s| < U64_LIMIT
    ensures ReadVarBytes(VarBytes(s) + rest) == if |s| <= MAX_COMPACT_SIZE then Got(s, rest) else Bad(SizeTooLarge)
  {
    assert VarBytes(s) + rest == VarInt(|s|) + (s + rest);
    ReadVarIntBack(|s|, s + rest);
    if |s| <= MAX_COMPACT_SIZE {
      ReadBytesBack(s, rest);
    }
  }

  // ---- counted lists ----

  function WriteMany<T>(write: T -> Bytes, items: seq<T>): (b: Bytes) {
    if items == [] then [] else write(items[0]) + WriteMany(write, items[1..])
  }

  function ReadMany<T>(read: Bytes -> Parsed<T>, n: nat, b: Bytes): (r: Parsed<seq<T>>)
    ensures r.Got? ==> |r.value| == n
  {
    if n == 0 then Got([], b)
    else
      var (first, b) :- read(b);
      var (others, b) :- ReadMany(read, n - 1, b);
      Got([first] + others, b)
  }

  /** `read` undoes `write` on the items that fit, whatever follows, and fails on the rest. */
  ghost predicate Reads<T(!new)>(read: Bytes -> Parsed<T>, write: T -> Bytes, fits: T -> bool) {
    forall x, rest {:trigger read(write(x) + rest)} ::
      |write(x)| < U64_LIMIT ==> if fits(x) then read(write(x) + rest) == Got(x, rest) else read(write(x) + rest).Bad?
  }

  /** A list comes back exactly when each of its items does. */
  lemma {:induction false} ReadManyBack<T(!new)>(
    read: Bytes -> Parsed<T>, write: T -> Bytes, fits: T -> bool, items: seq<T>, rest: Bytes)
    requires Reads(read, write, fits)
    requires |WriteMany(write, items)| < U64_LIMIT
    ensures var r := ReadMany(read, |items|, WriteMany(write, items) + rest);
            if forall i :: 0 <= i < |items| ==> fits(items[i]) then r == Got(items, rest) else r.Bad?
  {
    if items != [] {
      var tail := WriteMany(write, items[1..]) + rest;
      assert WriteMany(write, items) + rest == write(items[0]) + tail;
      ReadManyBack(read, write, fits, items[1..], rest);
      assert items == [items[0]] + items[1..];
    }
  }

  /** `len() as u32`: a count keeps only its low 32 bits. */
  function WriteCounted<T>(write: T -> Bytes, items: seq<T>): (b: Bytes) {
    U32Bytes(|items| % U32_LIMIT) + WriteMany(write, items)
  }

  function ReadCounted<T>(read: Bytes -> Parsed<T>, b: Bytes): (r: Parsed<seq<T>>) {
    var (count, b) :- ReadU32(b);
    ReadMany(read, count, b)
  }

  predicate AllFit<T>(fits: T -> bool, items: seq<T>) {
    |items| < U32_LIMIT && forall i :: 0 <= i < |items| ==> fits(items[i])
  }

  /** A counted list comes back exactly when its length fits 32 bits and each item fits. */
  lemma ReadCountedBack<T(!new)>(
    read: Bytes -> Parsed<T>, write: T -> Bytes, fits: T -> bool, items: seq<T>, rest: Bytes)
    requires Reads(read, write, fits)
    requires |WriteMany(write, items)| < U64_LIMIT
    ensures var r := ReadCounted(read, WriteCounted(write, items) + rest);
            if AllFit(fits, items) then r == Got(items, rest) else !(r.Got? && r.value == items)
  {
    hide U32Bytes; hide ReadU32; hide Reads; hide ReadCounted;
    var count: u32 := |items| % U32_LIMIT;
    ReadCount(read, count, WriteMany(write, items), rest);
    if |items| < U32_LIMIT {
      ReadManyBack(read, write, fits, items, rest);
    } else {
      assert count != |items|;
    }
  }

  lemma ReadCount<T>(read: Bytes -> Parsed<T>, count: u32, body: Bytes, rest: Bytes)
    ensures ReadCounted(read, U32Bytes(count) + body + rest) == ReadMany(read, count, body + rest)
  {
    hide ReadU32; hide U32Bytes;
    assert U32Bytes(count) + body + rest == U32Bytes(count) + (body + rest);
    ReadU32Back(count, body + rest);
  }

  // ---- the loops ----

  /** Appends a count and then each item to an encoder's buffer. */
  method AppendCounted<T>(write: T -> Bytes, items: seq<T>, start: Bytes) returns (buf: Bytes)
    ensures buf == start + WriteCounted(write, items)
  {
    hide U32Bytes;
    buf := start + U32Bytes(|items| % U32_LIMIT);
    ghost var head := buf;
    for i := 0 to |items|
      invariant head + WriteMany(write, items) == buf + WriteMany(write, items[i..])
    {
      assert items[i..][1..] == items[i + 1..];
      assert buf + (write(items[i]) + WriteMany(write, items[i + 1..]))
          == buf + write(items[i]) + WriteMany(write, items[i + 1..]);
      buf := buf + write(items[i]);
    }
    assert head + WriteMany(write, items) == start + WriteCounted(write, items);
  }

  ghost function Prepend<T>(done: seq<T>, r: Parsed<seq<T>>): Parsed<seq<T>> {
    if r.Got? then Got(done + r.value, r.rest) else r
  }

  /** Reads a count and then that many items, advancing the cursor past each. */
  method ReadCountedLoop<T>(read: Bytes -> Parsed<T>, b: Bytes) returns (r: Parsed<seq<T>>)
    ensures r == ReadCounted(read, b)
  {
    hide ReadU32;
    var first := ReadU32(b);
    if first.Bad? {
      return Bad(first.error);
    }
    var count, cursor := first.value, first.rest;
    var items: seq<T> := [];
    ghost var whole := ReadMany(read, count, cursor);
    assert whole.Got? ==> [] + whole.value == whole.value;
    for i := 0 to count
      invariant whole == Prepend(items, ReadMany(read, count - i, cursor))
    {
      var item := read(cursor);
      if item.Bad? {
        return Bad(item.error);
      }
      ghost var rest := ReadMany(read, count - i - 1, item.rest);
      if rest.Got? {
        assert items + ([item.value] + rest.value) == items + [item.value] + rest.value;
      }
      items, cursor := items + [item.value], item.rest;
    }
    assert items + [] == items;
    r := Got(items, cursor);
  }
}
