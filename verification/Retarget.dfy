/** The retarget rules. Every 256-bit operation that could leave its range and every index is
    checked in the model: leaving the range is `Panic`, as it is in the node. */
module Retarget {
  import opened Basics
  import opened Powers
  import opened Compact

  datatype HeaderInfo = HeaderInfo(height: int, time: int, bits: u32)

  /** Consensus parameters: `spacing` seconds per block, averaging windows, adjustment limits in
      percent, the ends of the two Equihash transition epochs and the upgrade heights. */
  datatype Rules = Rules(
    powLimit: nat, spacing: int, averaging: nat, maxDown: int, maxUp: int, lwmaWindow: int, epochOneEnd: int,
    epochTwoEnd: int, lwmaHeight: int, acadiaHeight: int, minDifficultyAfter: Option<int>)

  datatype Outcome = Bits(bits: nat) | NonContiguous | BadCompact | Panic

  function LimitTo(p: Rules, x: nat): (v: nat) { if x > p.powLimit then p.powLimit else x }

  /** Clamps to the limit and packs. */
  function Finish(p: Rules, x: nat): (r: Outcome) { if x >= Limit() then Panic else Bits(Encode(LimitTo(p, x))) }

  function Add256(a: nat, b: nat): (s: nat) { SaturatingAdd(a, b, Limit() - 1) }

  function Clamp(x: int, lo: int, hi: int): (r: int) { if x < lo then lo else if x > hi then hi else x }

  /** A signed 64-bit number read as unsigned. */
  function AsU64(x: int): (u: nat) { x % U64_LIMIT }

  function TruncatedDiv(a: int, b: int): (q: int)
    requires b > 0
  {
    if a >= 0 then a / b else 0 - (0 - a) / b
  }

  function Product(a: nat, b: nat): (r: nat) { a * b }

  function Quotient(a: nat, b: nat): (q: nat)
    requires b > 0
  {
    DivNat(a, b);
    a / b
  }

  // ---- medians ----

  function Insert(x: int, s: seq<int>): (r: seq<int>)
    ensures |r| == |s| + 1
  {
    if s == [] || x <= s[0] then [x] + s else [s[0]] + Insert(x, s[1..])
  }

  function Sort(s: seq<int>): (r: seq<int>)
    ensures |r| == |s|
  {
    if s == [] then [] else Insert(s[0], Sort(s[1..]))
  }

  predicate Ordered(s: seq<int>) { forall i, j :: 0 <= i < j < |s| ==> s[i] <= s[j] }

  lemma {:induction false} InsertOrders(x: int, s: seq<int>)
    requires Ordered(s)
    ensures Ordered(Insert(x, s)) && (Insert(x, s)[0] == x || (s != [] && Insert(x, s)[0] == s[0]))
  {
    if s != [] && x > s[0] {
      InsertOrders(x, s[1..]);
      HeadFirst(s[0], Insert(x, s[1..]));
    }
  }

  lemma HeadFirst(x: int, s: seq<int>)
    requires Ordered(s) && (s == [] || x <= s[0])
    ensures Ordered([x] + s)
  {
  }

  lemma {:induction false} InsertAdds(x: int, s: seq<int>)
    ensures multiset(Insert(x, s)) == multiset(s) + multiset{x}
  {
    if s != [] && x > s[0] {
      InsertAdds(x, s[1..]);
      assert s == [s[0]] + s[1..];
    }
  }

  /** The sorted list holds the same numbers in order, so the one in its middle is the median. */
  lemma {:induction false} SortOrders(s: seq<int>)
    ensures Ordered(Sort(s)) && multiset(Sort(s)) == multiset(s)
  {
    if s != [] {
      SortOrders(s[1..]);
      InsertOrders(s[0], Sort(s[1..]));
      InsertAdds(s[0], Sort(s[1..]));
      assert s == [s[0]] + s[1..];
    }
  }

  function Times(hs: seq<HeaderInfo>): (ts: seq<int>)
    ensures |ts| == |hs|
  {
    seq(|hs|, i requires 0 <= i < |hs| => hs[i].time)
  }

  /** The median time of the eleven headers up to `i`, or of fewer at the start. */
  function MedianAt(chain: seq<HeaderInfo>, i: nat): (t: int)
    requires i < |chain|
  {
    var start := if i >= 10 then i - 10 else 0;
    Sort(Times(chain[start..i + 1]))[(i + 1 - start) / 2]
  }

  // ---- digishield ----

  function Span(p: Rules): (s: int) { p.averaging * p.spacing }

  function MinSpan(p: Rules): (s: int) { TruncatedDiv(Span(p) * (100 - p.maxUp), 100) }

  function MaxSpan(p: Rules): (s: int) { TruncatedDiv(Span(p) * (100 + p.maxDown), 100) }

  function ActualSpan(p: Rules, elapsed: int): (s: int) {
    var damped := Span(p) + TruncatedDiv(elapsed - Span(p), 4);
    var raised := if damped < MinSpan(p) then MinSpan(p) else damped;
    if raised > MaxSpan(p) then MaxSpan(p) else raised
  }

  function Digishield(p: Rules, avg: nat, elapsed: int): (r: Outcome) {
    if AsU64(Span(p)) == 0 then Panic
    else Finish(p, Product(Quotient(avg, AsU64(Span(p))), AsU64(ActualSpan(p, elapsed))))
  }

  /** The total of the targets of the first `n` headers. */
  function TotalTarget(hs: seq<HeaderInfo>, n: nat): (r: Option<nat>)
    requires n <= |hs|
  {
    if n == 0 then Some(0)
    else
      var before := TotalTarget(hs, n - 1);
      var d := Decode(hs[n - 1].bits);
      if before.None? || d.Rejected? then None else Some(Add256(before.value, d.value))
  }

  // ---- the linearly weighted averages; `hs` are the last window of headers and the one before ----

  function Weight(p: Rules): (k: int) { p.lwmaWindow * (p.lwmaWindow + 1) * p.spacing / 2 }

  function WeightedTime(p: Rules, hs: seq<HeaderInfo>, j: nat): (w: int)
    requires j < |hs|
  {
    if j == 0 then 0 else WeightedTime(p, hs, j - 1) + Clamp(hs[j].time - hs[j - 1].time, -360, 6 * p.spacing) * j
  }

  function Shares(hs: seq<HeaderInfo>, d: nat, j: nat): (r: Option<nat>)
    requires j < |hs| && d > 0
  {
    if j == 0 then Some(0)
    else
      var before := Shares(hs, d, j - 1);
      var t := Decode(hs[j].bits);
      if before.None? || t.Rejected? then None else Some(Add256(before.value, Quotient(t.value, d)))
  }

  function Lwma(p: Rules, hs: seq<HeaderInfo>): (r: Outcome)
    requires |hs| == p.lwmaWindow + 1
  {
    var k := Weight(p);
    var d := AsU64(k * p.lwmaWindow);
    if d == 0 then Panic
    else
      var sum := Shares(hs, d, p.lwmaWindow);
      if sum.None? then BadCompact
      else
        var w := WeightedTime(p, hs, p.lwmaWindow);
        Finish(p, Product(sum.value, AsU64(if w < TruncatedDiv(k, 10) then TruncatedDiv(k, 10) else w)))
  }

  /** Timestamps pushed so that each is later than the one before. */
  function Stamp(hs: seq<HeaderInfo>, j: nat): (t: int)
    requires j < |hs|
  {
    if j == 0 then hs[0].time
    else if hs[j].time > Stamp(hs, j - 1) then hs[j].time else Stamp(hs, j - 1) + 1
  }

  function SolveTime(p: Rules, hs: seq<HeaderInfo>, j: nat): (t: int)
    requires 0 < j < |hs|
  {
    var gap := Stamp(hs, j) - Stamp(hs, j - 1);
    if 6 * p.spacing < gap then 6 * p.spacing else gap
  }

  function WeightedStamps(p: Rules, hs: seq<HeaderInfo>, j: nat): (w: int)
    requires j < |hs|
  {
    if j == 0 then 0 else WeightedStamps(p, hs, j - 1) + SolveTime(p, hs, j) * j
  }

  /** `mul_div_u256`: quotient and remainder scaled apart so that the product need not fit. */
  function MulDiv(value: nat, mul: nat, div: nat): (r: nat) {
    if div == 0 then Limit() - 1
    else
      var scaled := if Product(Quotient(value, div), mul) < Limit() then Product(Quotient(value, div), mul)
          else Limit() - 1;
      var rest := Quotient(Product(value % div, mul), div);
      if scaled + rest < Limit() then scaled + rest else Limit() - 1
  }

  /** The band around the previous target that the third variant stays in. */
  function Banded(last: nat, next: nat): (r: nat) {
    var top := Add256(last, last / 2);
    var bottom := MulDiv(last, 67, 100);
    var capped := if next > top then top else next;
    if capped < bottom then bottom else capped
  }

  function Lwma3(p: Rules, hs: seq<HeaderInfo>): (r: Outcome)
    requires |hs| == p.lwmaWindow + 1
  {
    var d := AsU64(Weight(p) * p.lwmaWindow);
    if d == 0 then Panic
    else
      var sum := Shares(hs, d, p.lwmaWindow);
      if sum.None? then BadCompact
      else
        var next := Product(sum.value, AsU64(WeightedStamps(p, hs, p.lwmaWindow)));
        var last := if p.lwmaWindow > 0 && Decode(hs[p.lwmaWindow].bits).Target?
            then Decode(hs[p.lwmaWindow].bits).value else 0;
        if next >= Limit() then Panic else Finish(p, Banded(last, next))
  }

  // ---- the rule as a whole ----

  predicate Contiguous(chain: seq<HeaderInfo>) {
    forall i :: 0 <= i < |chain| ==> chain[i].height == chain[0].height + i
  }

  function LwmaOf(p: Rules, chain: seq<HeaderInfo>): (r: Outcome)
    requires chain != []
  {
    if chain[|chain| - 1].height <= p.lwmaWindow then Bits(Encode(p.powLimit))
    else if p.lwmaWindow < 0 || |chain| <= p.lwmaWindow then Panic
    else Lwma(p, chain[|chain| - 1 - p.lwmaWindow..])
  }

  function Lwma3Of(p: Rules, chain: seq<HeaderInfo>): (r: Outcome)
    requires chain != []
  {
    if chain[|chain| - 1].height < p.lwmaWindow then Bits(Encode(p.powLimit))
    else if p.lwmaWindow < 0 || |chain| <= p.lwmaWindow then Panic
    else Lwma3(p, chain[|chain| - 1 - p.lwmaWindow..])
  }

  /** The ramp after the second epoch: a step above the average, wrapping at 256 bits. */
  function Ramp(p: Rules, chain: seq<HeaderInfo>): (r: Outcome)
    requires chain != []
  {
    var base := Lwma3Of(p, chain);
    if !base.Bits? then base
    else if base.bits >= U32_LIMIT || Decode(base.bits).Rejected? then BadCompact
    else
      var full := Decode(base.bits).value;
      var step := (p.epochTwoEnd + 61 - chain[|chain| - 1].height) % U32_LIMIT;
      Bits(Encode(LimitTo(p, (full + Product(full / 32, step) % Limit()) % Limit())))
  }

  function Averaged(p: Rules, chain: seq<HeaderInfo>): (r: Outcome)
    requires chain != []
  {
    var len := |chain|;
    if len <= p.averaging then Bits(Encode(p.powLimit))
    else
      var total := TotalTarget(chain[len - p.averaging..], p.averaging);
      if total.None? then BadCompact
      else if p.averaging == 0 then Panic
      else
        var next := chain[len - 1].height + 1;
        if next < p.lwmaHeight then
          Digishield(p, Quotient(total.value, p.averaging),
                     MedianAt(chain, len - 1) - MedianAt(chain, len - p.averaging - 1))
        else if next < p.acadiaHeight then LwmaOf(p, chain)
        else Lwma3Of(p, chain)
  }

  predicate MinDifficulty(p: Rules, last: HeaderInfo, nextTime: Option<int>) {
    && p.minDifficultyAfter.Some? && last.height >= p.minDifficultyAfter.value
    && nextTime.Some? && nextTime.value > last.time + p.spacing * 2
  }

  /** `get_next_work_required`. */
  function NextWork(p: Rules, chain: seq<HeaderInfo>, nextTime: Option<int>): (r: Outcome) {
    if chain == [] then Bits(Encode(p.powLimit))
    else if !Contiguous(chain) then NonContiguous
    else
      var last := chain[|chain| - 1];
      if p.epochOneEnd - 1 < last.height < p.epochOneEnd + 61 then Bits(Encode(p.powLimit))
      else if p.epochTwoEnd - 1 < last.height < p.epochTwoEnd + 64 then Ramp(p, chain)
      else if MinDifficulty(p, last, nextTime) then Bits(Encode(p.powLimit))
      else Averaged(p, chain)
  }

  // ---- a bounded window is enough ----

  /** Enough of the past for both kinds of average and the median before them. */
  predicate LongEnough(p: Rules, w: nat) { w >= p.averaging + 11 && w >= p.lwmaWindow + 1 }

  lemma SameTail(a: seq<HeaderInfo>, b: seq<HeaderInfo>, w: nat, m: nat)
    requires |b| == w <= |a| && a[|a| - w..] == b && m <= w
    ensures a[|a| - m..] == b[w - m..]
    ensures forall i :: 0 <= i < w ==> a[|a| - w + i] == b[i]
  {
    forall i | 0 <= i < w ensures a[|a| - w + i] == b[i] { assert a[|a| - w..][i] == b[i]; }
  }

  lemma SameMedian(a: seq<HeaderInfo>, b: seq<HeaderInfo>, w: nat, i: nat)
    requires |b| == w <= |a| && a[|a| - w..] == b && 10 <= i < w
    ensures MedianAt(a, |a| - w + i) == MedianAt(b, i)
  {
    hide Sort; hide Times;
    SameTail(a, b, w, w);
    assert a[|a| - w + i - 10..|a| - w + i + 1] == b[i - 10..i + 1];
  }

  lemma SameLwma(p: Rules, chain: seq<HeaderInfo>, tail: seq<HeaderInfo>, w: nat)
    requires |tail| == w <= |chain| && chain[|chain| - w..] == tail && w >= 1 && w >= p.lwmaWindow + 1
    ensures LwmaOf(p, tail) == LwmaOf(p, chain) && Lwma3Of(p, tail) == Lwma3Of(p, chain)
            && tail[w - 1] == chain[|chain| - 1]
  {
    hide Lwma; hide Lwma3; hide Encode;
    SameTail(chain, tail, w, w);
    if p.lwmaWindow >= 0 { SameTail(chain, tail, w, p.lwmaWindow + 1); }
  }

  /** The rule on the last `w` headers is the rule on the whole history, when `w` is long enough. */
  lemma WindowIsEnough(p: Rules, chain: seq<HeaderInfo>, w: nat, nextTime: Option<int>)
    requires Contiguous(chain) && LongEnough(p, w) && w <= |chain|
    ensures NextWork(p, chain[|chain| - w..], nextTime) == NextWork(p, chain, nextTime)
  {
    hide LwmaOf; hide Lwma3Of; hide Encode; hide Decode; hide TotalTarget; hide Digishield; hide MedianAt;
    var tail := chain[|chain| - w..];
    SameLwma(p, chain, tail, w);
    SameTail(chain, tail, w, p.averaging);
    SameMedian(chain, tail, w, w - 1);
    SameMedian(chain, tail, w, w - p.averaging - 1);
  }

  // ---- the rules keep targets within the limit, and nothing overflows ----

  /** What the parameters of every network satisfy. */
  predicate Sound(p: Rules) {
    && 0 < p.powLimit && 6 * p.powLimit < Limit()
    && p.spacing > 0 && p.lwmaWindow > 0 && p.averaging > 0 && 0 <= p.maxUp <= 100 && 0 <= p.maxDown <= 500
    && Weight(p) * p.lwmaWindow < U64_LIMIT && 6 * Weight(p) < U64_LIMIT && 6 * Span(p) < U64_LIMIT
  }

  predicate WithinLimit(p: Rules, bits: nat) {
    bits < U32_LIMIT && Decode(bits).Target? && Decode(bits).value <= p.powLimit
  }

  predicate AllWithin(p: Rules, hs: seq<HeaderInfo>) { forall i :: 0 <= i < |hs| ==> WithinLimit(p, hs[i].bits) }

  predicate Good(p: Rules, r: Outcome) { r.Bits? && WithinLimit(p, r.bits) }

  lemma ZeroDecodes()
    ensures Decode(0) == Target(0)
  {
    hide Pow2;
    DivUnique(0, Pow2(8 * 3), 0, 0);
  }

  lemma EncodedWithin(p: Rules, x: nat)
    requires x <= p.powLimit < Limit()
    ensures WithinLimit(p, Encode(x))
  {
    if x == 0 {
      ZeroDecodes();
    } else {
      hide Encode; hide Decode; hide Limit; hide Round;
      DecodeEncode(x);
      RoundIsClose(x);
    }
  }

  lemma FinishGood(p: Rules, x: nat)
    requires x < Limit() && p.powLimit < Limit()
    ensures Good(p, Finish(p, x))
  {
    hide Encode; hide Decode; hide Limit;
    EncodedWithin(p, LimitTo(p, x));
  }

  function Triangle(n: nat): (t: nat) { if n == 0 then 0 else Triangle(n - 1) + n }

  lemma {:induction false} TriangleIs(n: nat)
    ensures 2 * Triangle(n) == n * (n + 1)
  {
    if n > 0 { TriangleIs(n - 1); }
  }

  lemma WeightIs(p: Rules)
    requires p.lwmaWindow >= 0
    ensures Weight(p) == Triangle(p.lwmaWindow) * p.spacing
  {
    TriangleIs(p.lwmaWindow);
    assert p.lwmaWindow * (p.lwmaWindow + 1) * p.spacing == 2 * (Triangle(p.lwmaWindow) * p.spacing);
  }

  /** A sum of `j` times at most `6 * spacing` stays below six times the weight. */
  lemma AddTime(p: Rules, w: int, x: int, j: nat)
    requires j > 0 && x <= 6 * p.spacing && w <= 6 * (Triangle(j - 1) * p.spacing)
    ensures w + x * j <= 6 * (Triangle(j) * p.spacing)
  {
    assert Triangle(j) * p.spacing == Triangle(j - 1) * p.spacing + j * p.spacing;
    assert x * j <= 6 * p.spacing * j by { assert (6 * p.spacing - x) * j >= 0; }
  }

  lemma {:induction false} TimeBound(p: Rules, hs: seq<HeaderInfo>, j: nat)
    requires j < |hs| && p.spacing > 0
    ensures WeightedTime(p, hs, j) <= 6 * (Triangle(j) * p.spacing)
  {
    hide Triangle;
    NoTriangle(p);
    if j > 0 {
      TimeBound(p, hs, j - 1);
      AddTime(p, WeightedTime(p, hs, j - 1), Clamp(hs[j].time - hs[j - 1].time, -360, 6 * p.spacing), j);
    }
  }

  lemma NoTriangle(p: Rules)
    ensures Triangle(0) * p.spacing == 0
  {
  }

  lemma {:induction false} StampsBound(p: Rules, hs: seq<HeaderInfo>, j: nat)
    requires j < |hs| && p.spacing > 0
    ensures 0 <= WeightedStamps(p, hs, j) <= 6 * (Triangle(j) * p.spacing)
  {
    hide Triangle;
    NoTriangle(p);
    if j > 0 {
      StampsBound(p, hs, j - 1);
      assert SolveTime(p, hs, j) * j >= 0;
      AddTime(p, WeightedStamps(p, hs, j - 1), SolveTime(p, hs, j), j);
    }
  }

  lemma {:induction false} ShareBound(p: Rules, hs: seq<HeaderInfo>, d: nat, j: nat)
    requires j < |hs| && d > 0 && AllWithin(p, hs)
    ensures Shares(hs, d, j).Some? && Shares(hs, d, j).value <= j * Quotient(p.powLimit, d)
  {
    hide Decode; hide Limit;
    if j > 0 {
      ShareBound(p, hs, d, j - 1);
      assert WithinLimit(p, hs[j].bits);
      DivGrows(Decode(hs[j].bits).value, p.powLimit, d);
      var x := p.powLimit / d;
      assert j * x == (j - 1) * x + x;
    }
  }

  lemma {:induction false} TotalBound(p: Rules, hs: seq<HeaderInfo>, n: nat)
    requires n <= |hs| && AllWithin(p, hs)
    ensures TotalTarget(hs, n).Some? && TotalTarget(hs, n).value <= n * p.powLimit
  {
    hide Decode; hide Limit;
    if n > 0 {
      TotalBound(p, hs, n - 1);
      assert WithinLimit(p, hs[n - 1].bits);
      assert n * p.powLimit == (n - 1) * p.powLimit + p.powLimit;
    }
  }

  /** The heart of the bound: shares times weighted time is at most six times the limit. */
  lemma ProductBound(limit: nat, k: nat, n: nat, s: nat, w: nat)
    requires k > 0 && n > 0 && s <= n * (limit / (k * n)) && w <= 6 * k
    ensures s * w <= 6 * limit
  {
    var x := limit / (k * n);
    DivParts(limit, k * n);
    assert s * w <= (n * x) * w by { assert (n * x - s) * w >= 0; }
    assert (n * x) * w <= (n * x) * (6 * k) by { assert (n * x) * (6 * k - w) >= 0; }
    assert (n * x) * (6 * k) == 6 * (x * (k * n));
  }

  lemma LwmaGood(p: Rules, hs: seq<HeaderInfo>)
    requires Sound(p) && |hs| == p.lwmaWindow + 1 && AllWithin(p, hs)
    ensures Good(p, Lwma(p, hs))
  {
    hide Decode; hide Encode; hide Limit; hide Triangle; hide Finish; hide Shares; hide WeightedTime;
    var k, n := Weight(p), p.lwmaWindow;
    WeightIs(p);
    WeightPositive(p);
    TimeBound(p, hs, n);
    ShareBound(p, hs, k * n, n);
    var w := WeightedTime(p, hs, n);
    var used := if w < TruncatedDiv(k, 10) then TruncatedDiv(k, 10) else w;
    assert 0 <= used <= 6 * k;
    SmallU64(k * n);
    SmallU64(used);
    var s := Shares(hs, k * n, n).value;
    ProductBound(p.powLimit, k, n, s, used);
    FinishGood(p, Product(s, used));
  }

  lemma SmallU64(x: int)
    requires 0 <= x < U64_LIMIT
    ensures AsU64(x) == x
  {
  }

  lemma WeightPositive(p: Rules)
    requires p.lwmaWindow > 0 && p.spacing > 0
    ensures Weight(p) > 0 && Weight(p) * p.lwmaWindow > 0
  {
    TriangleIs(p.lwmaWindow);
    WeightIs(p);
    assert Triangle(p.lwmaWindow) > 0;
    assert Triangle(p.lwmaWindow) * p.spacing > 0;
  }

  lemma ScaleParts(q: nat, rest: nat, mul: nat, div: nat)
    requires div > 0 && rest < div && mul <= div
    ensures (q * div + rest) * mul / div == q * mul + rest * mul / div
    ensures q * mul <= q * div && rest * mul / div <= rest
  {
    var x, y := rest * mul / div, rest * mul % div;
    DivParts(rest * mul, div);
    assert (q * div + rest) * mul == (q * mul) * div + rest * mul;
    DivUnique((q * div + rest) * mul, div, q * mul + x, y);
    assert q * (div - mul) >= 0;
    assert rest * (div - mul) >= 0;
    if rest < x { Scales(div, rest, x); }
  }

  lemma QuotientBelow(value: nat, div: nat)
    requires div > 0
    ensures value / div * div + value % div == value
  {
    DivParts(value, div);
  }

  /** Scaling by parts is scaling: the result is the exact quotient, rounded down. */
  lemma MulDivIs(value: nat, mul: nat, div: nat)
    requires value < Limit() && div > 0 && mul <= div
    ensures MulDiv(value, mul, div) == value * mul / div <= value
  {
    hide Limit; hide Product; hide Quotient;
    QuotientBelow(value, div);
    ScaleParts(value / div, value % div, mul, div);
    Named(value, div);
    Named(value % div * mul, div);
    Multiplied(value / div, mul);
    Multiplied(value % div, mul);
    WholeBelow(value / div, div, value % div, value);
  }

  lemma WholeBelow(q: nat, div: nat, rest: nat, value: nat)
    requires div > 0 && q * div + rest == value
    ensures q * div <= value
  {
  }

  lemma Named(a: nat, b: nat)
    requires b > 0
    ensures Quotient(a, b) == a / b
  {
  }

  lemma Multiplied(a: nat, b: nat)
    ensures Product(a, b) == a * b
  {
  }

  /** The third variant moves a target by at most a third down and a half up. */
  lemma Band(p: Rules, last: nat, next: nat)
    requires Sound(p) && last <= p.powLimit
    ensures last * 67 / 100 <= Banded(last, next) <= last + last / 2 < Limit()
    ensures last * 67 / 100 <= next <= last + last / 2 ==> Banded(last, next) == next
  {
    hide Weight; hide Span; hide MulDiv;
    MulDivIs(last, 67, 100);
  }

  lemma Lwma3Good(p: Rules, hs: seq<HeaderInfo>)
    requires Sound(p) && |hs| == p.lwmaWindow + 1 && AllWithin(p, hs)
    ensures Good(p, Lwma3(p, hs))
  {
    hide Decode; hide Encode; hide Limit; hide Triangle; hide Finish; hide Shares; hide WeightedStamps; hide Banded;
    var k, n := Weight(p), p.lwmaWindow;
    WeightIs(p);
    WeightPositive(p);
    StampsBound(p, hs, n);
    ShareBound(p, hs, k * n, n);
    SmallU64(k * n);
    SmallU64(WeightedStamps(p, hs, n));
    ProductBound(p.powLimit, k, n, Shares(hs, k * n, n).value, WeightedStamps(p, hs, n));
    assert WithinLimit(p, hs[n].bits);
    var next := Product(Shares(hs, k * n, n).value, WeightedStamps(p, hs, n));
    Band(p, Decode(hs[n].bits).value, next);
    FinishGood(p, Banded(Decode(hs[n].bits).value, next));
  }

  lemma SpanBounds(p: Rules, elapsed: int)
    requires p.spacing > 0 && p.averaging > 0 && 0 <= p.maxUp <= 100 && 0 <= p.maxDown <= 500
    ensures 0 < Span(p) && 0 <= ActualSpan(p, elapsed) <= 6 * Span(p)
  {
    var s := Span(p);
    assert p.averaging * p.spacing > 0;
    assert 0 <= s * (100 - p.maxUp);
    assert 0 <= s * (100 + p.maxDown) <= s * 600 by { assert s * (500 - p.maxDown) >= 0; }
  }

  lemma DigishieldGood(p: Rules, avg: nat, elapsed: int)
    requires Sound(p) && avg <= p.powLimit
    ensures Good(p, Digishield(p, avg, elapsed))
  {
    hide Decode; hide Encode; hide Limit; hide Finish; hide ActualSpan; hide Weight; hide Product; hide Quotient;
    hide Span; hide AsU64;
    var s, a := Span(p), ActualSpan(p, elapsed);
    SpanBounds(p, elapsed);
    SmallU64(s);
    SmallU64(a);
    SpanProduct(avg, s, a);
    FinishGood(p, Product(Quotient(avg, s), a));
  }

  lemma SpanProduct(avg: nat, s: nat, a: nat)
    requires s > 0 && a <= 6 * s
    ensures Product(Quotient(avg, s), a) <= 6 * avg
  {
    DivParts(avg, s);
    SixTimes(avg / s, s, a);
  }

  lemma SixTimes(q: nat, s: nat, a: nat)
    requires a <= 6 * s
    ensures q * a <= 6 * (q * s)
  {
    assert q * (6 * s - a) >= 0;
  }

  lemma TailWithin(p: Rules, chain: seq<HeaderInfo>, n: nat)
    requires AllWithin(p, chain) && n <= |chain|
    ensures AllWithin(p, chain[|chain| - n..])
  {
    hide WithinLimit;
  }

  /** The chain reaches back far enough: to the first block, or over the window. */
  predicate Reaches(p: Rules, chain: seq<HeaderInfo>) { chain != [] ==> chain[0].height == 0 || |chain| > p.lwmaWindow }

  lemma LwmasGood(p: Rules, chain: seq<HeaderInfo>)
    requires Sound(p) && chain != [] && Contiguous(chain) && Reaches(p, chain) && AllWithin(p, chain)
    ensures Good(p, LwmaOf(p, chain)) && Good(p, Lwma3Of(p, chain))
  {
    hide Decode; hide Encode; hide Limit; hide Lwma; hide Lwma3; hide AllWithin; hide Weight; hide Span;
    var n := p.lwmaWindow;
    EncodedWithin(p, p.powLimit);
    assert chain[|chain| - 1].height == chain[0].height + (|chain| - 1);
    if |chain| > n {
      TailWithin(p, chain, n + 1);
      LwmaGood(p, chain[|chain| - 1 - n..]);
      Lwma3Good(p, chain[|chain| - 1 - n..]);
    }
  }

  lemma RampGood(p: Rules, chain: seq<HeaderInfo>)
    requires Sound(p) && chain != [] && Good(p, Lwma3Of(p, chain))
    ensures Good(p, Ramp(p, chain))
  {
    hide Decode; hide Encode; hide Lwma3Of; hide Weight; hide Span;
    var full := Decode(Lwma3Of(p, chain).bits).value;
    var step := (p.epochTwoEnd + 61 - chain[|chain| - 1].height) % U32_LIMIT;
    EncodedWithin(p, LimitTo(p, (full + Product(full / 32, step) % Limit()) % Limit()));
  }

  lemma AveragedGood(p: Rules, chain: seq<HeaderInfo>)
    requires Sound(p) && chain != [] && Contiguous(chain) && Reaches(p, chain) && AllWithin(p, chain)
    ensures Good(p, Averaged(p, chain))
  {
    hide Decode; hide Encode; hide Limit; hide LwmaOf; hide Lwma3Of; hide Digishield; hide TotalTarget; hide MedianAt;
    hide AllWithin; hide Weight; hide Span;
    EncodedWithin(p, p.powLimit);
    LwmasGood(p, chain);
    var len, n := |chain|, p.averaging;
    if len > n {
      TailWithin(p, chain, n);
      TotalBound(p, chain[len - n..], n);
      var total := TotalTarget(chain[len - n..], n).value;
      AverageBound(total, n, p.powLimit);
      DigishieldGood(p, Quotient(total, n), MedianAt(chain, len - 1) - MedianAt(chain, len - n - 1));
    }
  }

  lemma AverageBound(total: nat, n: nat, limit: nat)
    requires n > 0 && total <= n * limit
    ensures Quotient(total, n) <= limit
  {
    DivParts(total, n);
    if limit < total / n { Scales(n, limit, total / n); }
  }

  /** Retargeting sustains itself: on headers within the limit nothing overflows, no index is out
      of range, and the next bits are within the limit again. */
  lemma NextWorkGood(p: Rules, chain: seq<HeaderInfo>, nextTime: Option<int>)
    requires Sound(p) && Contiguous(chain) && Reaches(p, chain) && AllWithin(p, chain)
    ensures Good(p, NextWork(p, chain, nextTime))
  {
    hide Decode; hide Encode; hide Limit; hide Averaged; hide Ramp; hide AllWithin; hide Weight; hide Span;
    hide Lwma3Of; hide LwmaOf;
    EncodedWithin(p, p.powLimit);
    if chain != [] {
      LwmasGood(p, chain);
      RampGood(p, chain);
      AveragedGood(p, chain);
    }
  }

  /** Every header carries the bits the rule asked for, given the headers before it. */
  predicate Follows(p: Rules, chain: seq<HeaderInfo>) {
    forall i :: 0 < i < |chain| ==> NextWork(p, chain[..i], Some(chain[i].time)) == Bits(chain[i].bits)
  }

  /** So along every chain that follows the rule from a first block within the limit, every target is. */
  lemma {:induction false} ChainWithin(p: Rules, chain: seq<HeaderInfo>)
    requires Sound(p) && Contiguous(chain) && Follows(p, chain)
    requires chain != [] ==> chain[0].height == 0 && WithinLimit(p, chain[0].bits)
    ensures AllWithin(p, chain)
    decreases |chain|
  {
    hide NextWork; hide WithinLimit; hide Sound;
    if |chain| > 1 {
      var n := |chain| - 1;
      var front := chain[..n];
      forall i | 0 < i < n ensures NextWork(p, front[..i], Some(front[i].time)) == Bits(front[i].bits) {
        assert front[..i] == chain[..i];
      }
      ChainWithin(p, front);
      NextWorkGood(p, front, Some(chain[n].time));
    }
  }
}
