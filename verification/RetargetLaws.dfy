/** What the retarget rules do: targets ease when blocks are slow and harden when they are fast, keep
    still when blocks are on time, and newer blocks weigh more. */
module RetargetLaws {
  import opened Basics
  import opened Powers
  import opened Compact
  import opened Retarget

  // ---- medians ----

  function AtMost(s: seq<int>, t: int): (n: nat) {
    if s == [] then 0 else AtMost(s[1..], t) + (if s[0] <= t then 1 else 0)
  }

  function AtLeast(s: seq<int>, t: int): (n: nat) {
    if s == [] then 0 else AtLeast(s[1..], t) + (if s[0] >= t then 1 else 0)
  }

  lemma {:induction false} InsertCounts(x: int, s: seq<int>, t: int)
    ensures AtMost(Insert(x, s), t) == AtMost(s, t) + (if x <= t then 1 else 0)
    ensures AtLeast(Insert(x, s), t) == AtLeast(s, t) + (if x >= t then 1 else 0)
  {
    if s != [] && x > s[0] { InsertCounts(x, s[1..], t); }
  }

  lemma {:induction false} SortCounts(s: seq<int>, t: int)
    ensures AtMost(Sort(s), t) == AtMost(s, t) && AtLeast(Sort(s), t) == AtLeast(s, t)
  {
    if s != [] {
      SortCounts(s[1..], t);
      InsertCounts(s[0], Sort(s[1..]), t);
    }
  }

  lemma {:induction false} OrderedCounts(s: seq<int>, m: nat)
    requires Ordered(s) && m < |s|
    ensures AtMost(s, s[m]) >= m + 1 && AtLeast(s, s[m]) >= |s| - m
  {
    var rest := s[1..];
    if m > 0 {
      OrderedCounts(rest, m - 1);
    } else if rest != [] {
      OrderedCounts(rest, 0);
      AtLeastFalls(rest, s[0], rest[0]);
    }
  }

  lemma {:induction false} AtLeastFalls(s: seq<int>, t: int, u: int)
    requires t <= u
    ensures AtLeast(s, u) <= AtLeast(s, t)
  {
    if s != [] { AtLeastFalls(s[1..], t, u); }
  }

  /** The median of the last eleven times is one of them; more than half of them are no later, and at
      least half no earlier. */
  lemma MedianSplits(chain: seq<HeaderInfo>, i: nat)
    requires i < |chain|
    ensures var ts := Times(chain[if i >= 10 then i - 10 else 0..i + 1]);
            var t := MedianAt(chain, i);
            t in ts && 2 * AtMost(ts, t) > |ts| && 2 * AtLeast(ts, t) >= |ts|
  {
    hide Sort; hide AtMost; hide AtLeast; hide Ordered; hide Times;
    var ts := Times(chain[if i >= 10 then i - 10 else 0..i + 1]);
    var t := MedianAt(chain, i);
    SortOrders(ts);
    OrderedCounts(Sort(ts), |ts| / 2);
    SortCounts(ts, t);
    assert t in multiset(Sort(ts));
  }

  // ---- the damped span ----

  /** The span used lies between the limits. Within them it differs from the span aimed at by a quarter
      of the difference, rounded towards zero, on the same side. */
  lemma DampedSpan(p: Rules, elapsed: int)
    requires Sound(p)
    ensures var aim, used, low, high := Span(p), ActualSpan(p, elapsed), MinSpan(p), MaxSpan(p);
            && low <= aim <= high && low <= used <= high
            && (elapsed >= aim ==> aim <= used && 4 * (used - aim) <= elapsed - aim
                                   && (elapsed - aim < 4 * (used - aim) + 4 || used == high))
            && (elapsed <= aim ==> used <= aim && 4 * (aim - used) <= aim - elapsed
                                   && (aim - elapsed < 4 * (aim - used) + 4 || used == low))
  {
    hide Limit; hide Weight;
    SpanBounds(p, elapsed);
    SpanLimits(Span(p), p.maxUp, p.maxDown);
  }

  lemma SpanLimits(s: int, up: int, down: int)
    requires 0 < s && 0 <= up <= 100 && 0 <= down
    ensures 0 <= TruncatedDiv(s * (100 - up), 100) <= s <= TruncatedDiv(s * (100 + down), 100)
  {
    assert 0 <= s * (100 - up) <= s * 100;
    assert s * 100 <= s * (100 + down);
  }

  /** The limits are the given percentages of the span aimed at, rounded down. */
  lemma SpanPercent(p: Rules)
    requires Sound(p)
    ensures var aim := Span(p);
            && 100 * MinSpan(p) <= aim * (100 - p.maxUp) < 100 * MinSpan(p) + 100
            && 100 * MaxSpan(p) <= aim * (100 + p.maxDown) < 100 * MaxSpan(p) + 100
  {
    hide Limit; hide Weight;
    SpanBounds(p, 0);
    assert 0 <= Span(p) * (100 - p.maxUp) && 0 <= Span(p) * (100 + p.maxDown);
  }

  lemma SpanOnTime(p: Rules)
    requires Sound(p)
    ensures ActualSpan(p, Span(p)) == Span(p)
  {
    hide Limit; hide Weight;
    DampedSpan(p, Span(p));
  }

  lemma SpanGrows(p: Rules, a: int, b: int)
    requires a <= b
    ensures ActualSpan(p, a) <= ActualSpan(p, b)
  {
  }

  // ---- what comes out of a rule ----

  function Max(a: int, b: int): (m: int) { if a < b then b else a }

  /** A number as the compact form keeps it, and within the limit. */
  function Kept(p: Rules, x: int): (v: nat) {
    if x <= 0 then 0 else if x <= p.powLimit then Round(x) else Round(p.powLimit)
  }

  /** The rule answers with a target of this value. */
  predicate Asks(r: Outcome, v: nat) { r.Bits? && r.bits < U32_LIMIT && Decode(r.bits) == Target(v) }

  lemma FinishAsks(p: Rules, x: nat)
    requires x < Limit() && 0 < p.powLimit < Limit()
    ensures Asks(Finish(p, x), Kept(p, x))
  {
    hide Limit; hide Round;
    if LimitTo(p, x) == 0 {
      ZeroDecodes();
    } else {
      hide Encode; hide Decode;
      DecodeEncode(LimitTo(p, x));
    }
  }

  lemma KeptGrows(p: Rules, x: int, y: int)
    requires x <= y
    ensures Kept(p, x) <= Kept(p, y)
  {
    hide Round;
    if 0 < x { RoundGrows(LimitTo(p, x), LimitTo(p, y)); }
  }

  // ---- averages are averages ----

  /** The sum of `f(1)` to `f(n)`. */
  function Sum(n: nat, f: int -> int): (s: int) { if n == 0 then 0 else Sum(n - 1, f) + f(n) }

  lemma {:induction false} SumGrows(n: nat, f: int -> int, g: int -> int)
    requires forall j :: 1 <= j <= n ==> f(j) <= g(j)
    ensures Sum(n, f) <= Sum(n, g)
  {
    if n > 0 { SumGrows(n - 1, f, g); }
  }

  lemma {:induction false} SumSame(n: nat, f: int -> int, g: int -> int)
    requires forall j :: 1 <= j <= n ==> f(j) == g(j)
    ensures Sum(n, f) == Sum(n, g)
  {
    if n > 0 { SumSame(n - 1, f, g); }
  }

  function TargetOf(h: HeaderInfo): (v: nat) { if Decode(h.bits).Target? then Decode(h.bits).value else 0 }

  lemma Targets(p: Rules, hs: seq<HeaderInfo>, i: nat)
    requires AllWithin(p, hs) && i < |hs|
    ensures Decode(hs[i].bits) == Target(TargetOf(hs[i])) && TargetOf(hs[i]) <= p.powLimit
  {
    hide Decode;
    assert WithinLimit(p, hs[i].bits);
  }

  /** The total is the plain sum of the targets: nothing saturates. */
  lemma {:induction false} TotalIsSum(p: Rules, hs: seq<HeaderInfo>, n: nat)
    requires AllWithin(p, hs) && n <= |hs| && n * p.powLimit < Limit()
    ensures var f := (j: int) => if 1 <= j <= |hs| then TargetOf(hs[j - 1]) else 0;
            Sum(n, f) >= 0 && TotalTarget(hs, n) == Some(Sum(n, f))
  {
    hide Decode; hide Limit; hide WithinLimit; hide TargetOf;
    if n > 0 {
      assert (n - 1) * p.powLimit + p.powLimit == n * p.powLimit;
      TotalIsSum(p, hs, n - 1);
      TotalBound(p, hs, n);
      TotalBound(p, hs, n - 1);
      Targets(p, hs, n - 1);
    }
  }

  /** The shares are the plain sum of the targets over the divisor. */
  lemma {:induction false} SharesAreSum(p: Rules, hs: seq<HeaderInfo>, d: nat, n: nat)
    requires AllWithin(p, hs) && n < |hs| && 0 < d && n <= d && p.powLimit < Limit()
    ensures var f := (j: int) => if 0 <= j < |hs| then Quotient(TargetOf(hs[j]), d) else 0;
            Sum(n, f) >= 0 && Shares(hs, d, n) == Some(Sum(n, f))
  {
    hide Decode; hide Limit; hide WithinLimit; hide TargetOf; hide Quotient;
    if n > 0 {
      SharesAreSum(p, hs, d, n - 1);
      ShareBound(p, hs, d, n - 1);
      Targets(p, hs, n);
      SmallShare(p.powLimit, TargetOf(hs[n]), d, n);
    }
  }

  lemma SmallShare(limit: nat, x: nat, d: nat, n: nat)
    requires x <= limit && 0 < n <= d
    ensures (n - 1) * Quotient(limit, d) + Quotient(x, d) <= limit
  {
    DivGrows(x, limit, d);
    DivParts(limit, d);
    var q := limit / d;
    assert (n - 1) * q + q == n * q;
    assert (d - n) * q >= 0;
  }

  /** The solve time of header `j` in the first weighted rule. */
  function Gap(p: Rules, hs: seq<HeaderInfo>, j: int): (t: int) {
    var gap := if 0 < j < |hs| then hs[j].time - hs[j - 1].time else 0;
    if gap > 6 * p.spacing then 6 * p.spacing else Max(gap, -360)
  }

  /** And in the third. */
  function Rise(p: Rules, hs: seq<HeaderInfo>, j: int): (t: int) {
    var gap := if 0 < j < |hs| then Stamp(hs, j) - Stamp(hs, j - 1) else 0;
    if gap > 6 * p.spacing then 6 * p.spacing else gap
  }

  /** The newest block weighs most: solve times count as often as their place in the window. */
  lemma {:induction false} TimeIsSum(p: Rules, hs: seq<HeaderInfo>, n: nat)
    requires n < |hs| && p.spacing > 0
    ensures WeightedTime(p, hs, n) == Sum(n, (j: int) => j * Gap(p, hs, j))
  {
    hide Gap; hide Clamp;
    if n > 0 {
      TimeIsSum(p, hs, n - 1);
      GapIs(p, hs, n);
      Commutes(Gap(p, hs, n), n);
    }
  }

  lemma GapIs(p: Rules, hs: seq<HeaderInfo>, n: nat)
    requires 0 < n < |hs| && p.spacing > 0
    ensures Clamp(hs[n].time - hs[n - 1].time, -360, 6 * p.spacing) == Gap(p, hs, n)
  {
  }

  lemma Commutes(a: int, b: int)
    ensures a * b == b * a
  {
  }

  lemma {:induction false} StampsAreSum(p: Rules, hs: seq<HeaderInfo>, n: nat)
    requires n < |hs|
    ensures WeightedStamps(p, hs, n) == Sum(n, (j: int) => j * Rise(p, hs, j))
  {
    hide Rise; hide SolveTime;
    if n > 0 {
      StampsAreSum(p, hs, n - 1);
      RiseIs(p, hs, n);
      Commutes(Rise(p, hs, n), n);
    }
  }

  lemma RiseIs(p: Rules, hs: seq<HeaderInfo>, n: nat)
    requires 0 < n < |hs|
    ensures SolveTime(p, hs, n) == Rise(p, hs, n)
  {
    hide Stamp;
  }

  lemma {:induction false} EvenSum(n: nat, t: int)
    ensures Sum(n, (j: int) => j * t) == Triangle(n) * t
  {
    if n > 0 {
      EvenSum(n - 1, t);
      assert Triangle(n) * t == Triangle(n - 1) * t + n * t;
    }
  }

  /** A pushed timestamp is the latest that any header up to it, counted forward by seconds, forces. */
  lemma {:induction false} StampIsLatest(hs: seq<HeaderInfo>, j: nat)
    requires j < |hs|
    ensures forall i :: 0 <= i <= j ==> hs[i].time + (j - i) <= Stamp(hs, j)
    ensures exists i :: 0 <= i <= j && hs[i].time + (j - i) == Stamp(hs, j)
  {
    if j > 0 {
      StampIsLatest(hs, j - 1);
      if hs[j].time > Stamp(hs, j - 1) {
        assert hs[j].time + (j - j) == Stamp(hs, j);
      } else {
        var i :| 0 <= i <= j - 1 && hs[i].time + (j - 1 - i) == Stamp(hs, j - 1);
        assert hs[i].time + (j - i) == Stamp(hs, j);
      }
    } else {
      assert hs[0].time + (0 - 0) == Stamp(hs, 0);
    }
  }

  // ---- digishield ----

  /** The target asked for: the average cut to whole spans, times the damped span. */
  lemma DigishieldAsks(p: Rules, avg: nat, elapsed: int)
    requires Sound(p) && avg <= p.powLimit
    ensures Span(p) > 0 && ActualSpan(p, elapsed) >= 0
    ensures Asks(Digishield(p, avg, elapsed), Kept(p, avg / Span(p) * ActualSpan(p, elapsed)))
  {
    hide Decode; hide Encode; hide Limit; hide Finish; hide ActualSpan; hide Weight; hide Product; hide Quotient;
    hide Span; hide AsU64; hide Kept; hide Asks;
    var s, a := Span(p), ActualSpan(p, elapsed);
    SpanBounds(p, elapsed);
    SmallU64(s);
    SmallU64(a);
    SpanProduct(avg, s, a);
    Named(avg, s);
    Multiplied(Quotient(avg, s), a);
    FinishAsks(p, Product(Quotient(avg, s), a));
  }

  /** Slower blocks never make the next one harder. */
  lemma DigishieldEases(p: Rules, avg: nat, a: int, b: int)
    requires Sound(p) && avg <= p.powLimit && a <= b
    ensures exists x, y :: Asks(Digishield(p, avg, a), x) && Asks(Digishield(p, avg, b), y) && x <= y
  {
    hide Limit; hide ActualSpan; hide Weight; hide Span; hide Kept; hide Asks; hide Digishield;
    DigishieldAsks(p, avg, a);
    DigishieldAsks(p, avg, b);
    SpanGrows(p, a, b);
    var q := avg / Span(p);
    DivNat(avg, Span(p));
    TimesGrows(q, ActualSpan(p, a), ActualSpan(p, b));
    KeptGrows(p, q * ActualSpan(p, a), q * ActualSpan(p, b));
  }

  lemma TimesGrows(q: nat, x: int, y: int)
    requires x <= y
    ensures q * x <= q * y
  {
    assert q * (y - x) >= 0;
  }

  /** Blocks on time keep the average, cut to whole spans. */
  lemma DigishieldSteady(p: Rules, avg: nat)
    requires Sound(p) && avg <= p.powLimit
    ensures Span(p) > 0 && Asks(Digishield(p, avg, Span(p)), Kept(p, avg - avg % Span(p)))
  {
    hide Limit; hide ActualSpan; hide Weight; hide Span; hide Kept; hide Asks; hide Digishield;
    DigishieldAsks(p, avg, Span(p));
    SpanOnTime(p);
    DivParts(avg, Span(p));
  }

  // ---- the weighted averages ----

  /** The sum of shares times the weighted time, which is never below a tenth of its steady value. */
  lemma LwmaAsks(p: Rules, hs: seq<HeaderInfo>)
    requires Sound(p) && |hs| == p.lwmaWindow + 1 && AllWithin(p, hs)
    ensures var n, k := p.lwmaWindow, Weight(p);
            && k > 0 && k * n > 0 && Shares(hs, k * n, n).Some?
            && var w := Max(WeightedTime(p, hs, n), k / 10);
               w >= 0 && Asks(Lwma(p, hs), Kept(p, Shares(hs, k * n, n).value * w))
  {
    hide Decode; hide Encode; hide Limit; hide Triangle; hide Finish; hide Shares; hide WeightedTime; hide Kept;
    hide Asks;
    var k, n := Weight(p), p.lwmaWindow;
    WeightIs(p);
    WeightPositive(p);
    TimeBound(p, hs, n);
    ShareBound(p, hs, k * n, n);
    var w := WeightedTime(p, hs, n);
    var used := if w < TruncatedDiv(k, 10) then TruncatedDiv(k, 10) else w;
    assert 0 <= used <= 6 * k;
    SmallU64(k * n);
    SmallU64(used);
    var s := Shares(hs, k * n, n).value;
    ProductBound(p.powLimit, k, n, s, used);
    FinishAsks(p, Product(s, used));
  }

  /** Two windows with the same targets. */
  predicate SameBits(a: seq<HeaderInfo>, b: seq<HeaderInfo>) {
    |a| == |b| && forall i :: 0 <= i < |a| ==> a[i].bits == b[i].bits
  }

  lemma {:induction false} SameShares(a: seq<HeaderInfo>, b: seq<HeaderInfo>, d: nat, n: nat)
    requires SameBits(a, b) && n < |a| && d > 0
    ensures Shares(a, d, n) == Shares(b, d, n)
  {
    hide Decode; hide Limit;
    if n > 0 { SameShares(a, b, d, n - 1); }
  }

  lemma WithinSame(p: Rules, a: seq<HeaderInfo>, b: seq<HeaderInfo>)
    requires SameBits(a, b) && AllWithin(p, a)
    ensures AllWithin(p, b)
  {
    hide WithinLimit;
    forall i | 0 <= i < |b| ensures WithinLimit(p, b[i].bits) { assert WithinLimit(p, a[i].bits); }
  }

  /** Longer solve times, at whatever places, never make the next block harder. */
  lemma LwmaEases(p: Rules, a: seq<HeaderInfo>, b: seq<HeaderInfo>)
    requires Sound(p) && |a| == p.lwmaWindow + 1 && AllWithin(p, a) && SameBits(a, b)
    requires forall j :: 1 <= j <= p.lwmaWindow ==> Gap(p, a, j) <= Gap(p, b, j)
    ensures exists x, y :: Asks(Lwma(p, a), x) && Asks(Lwma(p, b), y) && x <= y
  {
    hide Limit; hide Weight; hide Kept; hide Asks; hide Lwma; hide AllWithin; hide Shares; hide WeightedTime; hide Gap;
    hide SameBits; hide Sum; hide Span;
    var n, k := p.lwmaWindow, Weight(p);
    WithinSame(p, a, b);
    SameLength(a, b);
    LwmaAsks(p, a);
    LwmaAsks(p, b);
    SameShares(a, b, k * n, n);
    TimeIsSum(p, a, n);
    TimeIsSum(p, b, n);
    WeightedMore(p, a, b, n);
    var s := Shares(a, k * n, n).value;
    var x, y := Max(WeightedTime(p, a, n), k / 10), Max(WeightedTime(p, b, n), k / 10);
    TimesGrows(s, x, y);
    KeptGrows(p, s * x, s * y);
  }

  lemma SameLength(a: seq<HeaderInfo>, b: seq<HeaderInfo>)
    requires SameBits(a, b)
    ensures |a| == |b|
  {
  }

  lemma WeightedMore(p: Rules, a: seq<HeaderInfo>, b: seq<HeaderInfo>, n: nat)
    requires forall j :: 1 <= j <= n ==> Gap(p, a, j) <= Gap(p, b, j)
    ensures Sum(n, (j: int) => j * Gap(p, a, j)) <= Sum(n, (j: int) => j * Gap(p, b, j))
  {
    hide Gap;
    forall j | 1 <= j <= n ensures j * Gap(p, a, j) <= j * Gap(p, b, j) {
      TimesGrows(j, Gap(p, a, j), Gap(p, b, j));
    }
    SumGrows(n, (j: int) => j * Gap(p, a, j), (j: int) => j * Gap(p, b, j));
  }

  /** A window of blocks on time, all with one target: the target is kept, cut to whole shares. */
  lemma LwmaSteady(p: Rules, hs: seq<HeaderInfo>, v: nat)
    requires Sound(p) && |hs| == p.lwmaWindow + 1 && AllWithin(p, hs)
    requires forall j :: 1 <= j < |hs| ==> hs[j].time == hs[j - 1].time + p.spacing && TargetOf(hs[j]) == v
    ensures var d := Weight(p) * p.lwmaWindow; d > 0 && Asks(Lwma(p, hs), Kept(p, v - v % d))
  {
    hide Limit; hide Kept; hide Asks; hide Lwma; hide AllWithin; hide Shares; hide WeightedTime; hide TargetOf;
    hide Sum; hide Span; hide Weight;
    var n, k := p.lwmaWindow, Weight(p);
    LwmaAsks(p, hs);
    TimeIsSum(p, hs, n);
    SumSame(n, (j: int) => j * Gap(p, hs, j), (j: int) => j * p.spacing);
    EvenSum(n, p.spacing);
    WeightIs(p);
    EvenShares(p, hs, v);
    WholeShares(v, k, n);
  }

  lemma WholeShares(v: nat, k: nat, n: nat)
    requires k > 0 && n > 0
    ensures k * n > 0 && n * Quotient(v, k * n) * k == v - v % (k * n)
  {
    assert k * n > 0;
    DivParts(v, k * n);
    var q := v / (k * n);
    assert n * q * k == q * (k * n);
  }

  /** The shares of equal targets. */
  lemma EvenShares(p: Rules, hs: seq<HeaderInfo>, v: nat)
    requires Sound(p) && |hs| == p.lwmaWindow + 1 && AllWithin(p, hs)
    requires forall j :: 1 <= j < |hs| ==> TargetOf(hs[j]) == v
    ensures var n, k := p.lwmaWindow, Weight(p);
            k > 0 && k * n > 0 && Shares(hs, k * n, n) == Some(n * Quotient(v, k * n))
  {
    hide Limit; hide AllWithin; hide Shares; hide TargetOf; hide Quotient; hide Weight; hide Span;
    var n, k := p.lwmaWindow, Weight(p);
    WeightPositive(p);
    assert n <= k * n by { assert (k - 1) * n >= 0; }
    SharesAreSum(p, hs, k * n, n);
    var q := Quotient(v, k * n);
    SumSame(n, (j: int) => if 0 <= j < |hs| then Quotient(TargetOf(hs[j]), k * n) else 0, _ => q);
    ConstantSum(n, q);
  }

  lemma {:induction false} ConstantSum(n: nat, q: int)
    ensures Sum(n, _ => q) == n * q
  {
    if n > 0 { ConstantSum(n - 1, q); }
  }

  /** The third variant: shares times weighted time, kept in the band around the last target. */
  lemma Lwma3Asks(p: Rules, hs: seq<HeaderInfo>)
    requires Sound(p) && |hs| == p.lwmaWindow + 1 && AllWithin(p, hs)
    ensures var n, k := p.lwmaWindow, Weight(p);
            && k > 0 && k * n > 0 && Shares(hs, k * n, n).Some? && WeightedStamps(p, hs, n) >= 0
            && var next := Product(Shares(hs, k * n, n).value, WeightedStamps(p, hs, n));
               Asks(Lwma3(p, hs), Kept(p, Banded(TargetOf(hs[n]), next)))
  {
    hide Decode; hide Encode; hide Limit; hide Triangle; hide Finish; hide Shares; hide WeightedStamps; hide Banded;
    hide Kept; hide Asks;
    var k, n := Weight(p), p.lwmaWindow;
    WeightIs(p);
    WeightPositive(p);
    StampsBound(p, hs, n);
    ShareBound(p, hs, k * n, n);
    SmallU64(k * n);
    SmallU64(WeightedStamps(p, hs, n));
    ProductBound(p.powLimit, k, n, Shares(hs, k * n, n).value, WeightedStamps(p, hs, n));
    Targets(p, hs, n);
    var next := Product(Shares(hs, k * n, n).value, WeightedStamps(p, hs, n));
    Band(p, TargetOf(hs[n]), next);
    FinishAsks(p, Banded(TargetOf(hs[n]), next));
  }

  lemma BandGrows(p: Rules, last: nat, x: nat, y: nat)
    requires Sound(p) && last <= p.powLimit && x <= y
    ensures Banded(last, x) <= Banded(last, y)
  {
    hide MulDiv; hide Weight; hide Span;
  }

  lemma Lwma3Eases(p: Rules, a: seq<HeaderInfo>, b: seq<HeaderInfo>)
    requires Sound(p) && |a| == p.lwmaWindow + 1 && AllWithin(p, a) && SameBits(a, b)
    requires forall j :: 1 <= j <= p.lwmaWindow ==> Rise(p, a, j) <= Rise(p, b, j)
    ensures exists x, y :: Asks(Lwma3(p, a), x) && Asks(Lwma3(p, b), y) && x <= y
  {
    hide Limit; hide Weight; hide Kept; hide Asks; hide Lwma3; hide AllWithin; hide Shares; hide WeightedStamps;
    hide Rise; hide Sum; hide Span; hide Banded; hide Decode; hide Product;
    var n, k := p.lwmaWindow, Weight(p);
    WithinSame(p, a, b);
    Lwma3Asks(p, a);
    Lwma3Asks(p, b);
    SameShares(a, b, k * n, n);
    StampsAreSum(p, a, n);
    StampsAreSum(p, b, n);
    RisesMore(p, a, b, n);
    var s := Shares(a, k * n, n).value;
    var x, y := WeightedStamps(p, a, n), WeightedStamps(p, b, n);
    TimesGrows(s, x, y);
    Multiplied(s, x);
    Multiplied(s, y);
    Targets(p, a, n);
    BandGrows(p, TargetOf(a[n]), Product(s, x), Product(s, y));
    KeptGrows(p, Banded(TargetOf(a[n]), Product(s, x)), Banded(TargetOf(a[n]), Product(s, y)));
  }

  lemma RisesMore(p: Rules, a: seq<HeaderInfo>, b: seq<HeaderInfo>, n: nat)
    requires forall j :: 1 <= j <= n ==> Rise(p, a, j) <= Rise(p, b, j)
    ensures Sum(n, (j: int) => j * Rise(p, a, j)) <= Sum(n, (j: int) => j * Rise(p, b, j))
  {
    hide Rise;
    forall j | 1 <= j <= n ensures j * Rise(p, a, j) <= j * Rise(p, b, j) {
      TimesGrows(j, Rise(p, a, j), Rise(p, b, j));
    }
    SumGrows(n, (j: int) => j * Rise(p, a, j), (j: int) => j * Rise(p, b, j));
  }

  lemma {:induction false} StampsOnTime(p: Rules, hs: seq<HeaderInfo>, j: nat)
    requires j < |hs| && p.spacing > 0
    requires forall i :: 1 <= i < |hs| ==> hs[i].time == hs[i - 1].time + p.spacing
    ensures Stamp(hs, j) == hs[j].time
  {
    if j > 0 { StampsOnTime(p, hs, j - 1); }
  }

  /** Blocks on time, all with one target: it is kept, cut to whole shares, though never below the band. */
  lemma Lwma3Steady(p: Rules, hs: seq<HeaderInfo>, v: nat)
    requires Sound(p) && |hs| == p.lwmaWindow + 1 && AllWithin(p, hs)
    requires forall j :: 1 <= j < |hs| ==> hs[j].time == hs[j - 1].time + p.spacing && TargetOf(hs[j]) == v
    ensures var d := Weight(p) * p.lwmaWindow; d > 0 && Asks(Lwma3(p, hs), Kept(p, Max(v - v % d, v * 67 / 100)))
  {
    hide Limit; hide Kept; hide Asks; hide Lwma3; hide AllWithin; hide Shares; hide WeightedStamps; hide TargetOf;
    hide Sum; hide Span; hide Weight; hide Banded;
    var n, k := p.lwmaWindow, Weight(p);
    Lwma3Asks(p, hs);
    StampsAreSum(p, hs, n);
    forall j | 1 <= j <= n ensures Rise(p, hs, j) == p.spacing {
      StampsOnTime(p, hs, j);
      StampsOnTime(p, hs, j - 1);
    }
    SumSame(n, (j: int) => j * Rise(p, hs, j), (j: int) => j * p.spacing);
    EvenSum(n, p.spacing);
    WeightIs(p);
    EvenShares(p, hs, v);
    WholeShares(v, k, n);
    Multiplied(n * Quotient(v, k * n), k);
    Targets(p, hs, n);
    BandBelow(p, v, v - v % (k * n));
  }

  lemma BandBelow(p: Rules, last: nat, next: nat)
    requires Sound(p) && next <= last <= p.powLimit
    ensures Banded(last, next) == Max(next, last * 67 / 100)
  {
    hide Weight; hide Span; hide MulDiv; hide Limit;
    MulDivIs(last, 67, 100);
  }

  // ---- the rule as a whole ----

  /** The next block is in none of the special ranges, and there are headers enough to average. */
  predicate Ordinary(p: Rules, chain: seq<HeaderInfo>, nextTime: Option<int>) {
    && |chain| > p.averaging && Contiguous(chain)
    && var last := chain[|chain| - 1];
       && !(p.epochOneEnd <= last.height <= p.epochOneEnd + 60)
       && !(p.epochTwoEnd <= last.height <= p.epochTwoEnd + 63)
       && !(&& p.minDifficultyAfter.Some? && last.height >= p.minDifficultyAfter.value
            && nextTime.Some? && nextTime.value - last.time > 2 * p.spacing)
  }

  /** The last `n` headers. */
  function Last(chain: seq<HeaderInfo>, n: nat): (hs: seq<HeaderInfo>)
    requires n <= |chain|
    ensures |hs| == n
  {
    chain[|chain| - n..]
  }

  /** How long the averaging window took, by medians. */
  function Elapsed(p: Rules, chain: seq<HeaderInfo>): (t: int)
    requires |chain| > p.averaging
  {
    MedianAt(chain, |chain| - 1) - MedianAt(chain, |chain| - 1 - p.averaging)
  }

  function Average(p: Rules, chain: seq<HeaderInfo>): (avg: nat)
    requires |chain| >= p.averaging > 0
  {
    var total := TotalTarget(Last(chain, p.averaging), p.averaging);
    if total.Some? then Quotient(total.value, p.averaging) else 0
  }

  /** Which rule answers: up to a first height the average damped by medians, up to a second the weighted
      average, from then on its third variant; the easiest target below the height of the window. */
  lemma RuleByHeight(p: Rules, chain: seq<HeaderInfo>, nextTime: Option<int>)
    requires Sound(p) && AllWithin(p, chain) && Ordinary(p, chain, nextTime) && Reaches(p, chain)
    ensures var next, n, r := chain[|chain| - 1].height + 1, p.lwmaWindow, NextWork(p, chain, nextTime);
            && (next < p.lwmaHeight ==> r == Digishield(p, Average(p, chain), Elapsed(p, chain)))
            && (p.lwmaHeight <= next < p.acadiaHeight ==>
                  if next <= n + 1 then Asks(r, Kept(p, p.powLimit))
                  else n < |chain| && r == Lwma(p, Last(chain, n + 1)))
            && (p.lwmaHeight <= next && p.acadiaHeight <= next ==>
                  if next <= n then Asks(r, Kept(p, p.powLimit))
                  else n < |chain| && r == Lwma3(p, Last(chain, n + 1)))
  {
    hide Limit; hide Weight; hide Span; hide AllWithin; hide Digishield; hide Lwma; hide Lwma3; hide MedianAt;
    hide TotalTarget; hide Encode; hide Asks; hide Kept;
    TailWithin(p, chain, p.averaging);
    TotalBound(p, Last(chain, p.averaging), p.averaging);
    FinishAsks(p, p.powLimit);
    assert chain[|chain| - 1].height == chain[0].height + |chain| - 1;
  }

  /** The easiest target is asked for just after the first epoch, of a chain too short to average, and
      where a late block may be easy. */
  lemma EasiestWhere(p: Rules, chain: seq<HeaderInfo>, nextTime: Option<int>)
    requires Sound(p) && Contiguous(chain)
    requires || chain == [] || p.epochOneEnd <= chain[|chain| - 1].height <= p.epochOneEnd + 60
             || (&& !(p.epochTwoEnd <= chain[|chain| - 1].height <= p.epochTwoEnd + 63)
                 && (|| |chain| <= p.averaging
                     || (&& p.minDifficultyAfter.Some? && chain[|chain| - 1].height >= p.minDifficultyAfter.value
                         && nextTime.Some? && nextTime.value - chain[|chain| - 1].time > 2 * p.spacing)))
    ensures Asks(NextWork(p, chain, nextTime), Kept(p, p.powLimit))
  {
    hide Limit; hide Weight; hide Span; hide Encode; hide Decode; hide Asks; hide Kept; hide Ramp;
    FinishAsks(p, p.powLimit);
  }

  lemma AverageWithin(p: Rules, chain: seq<HeaderInfo>)
    requires Sound(p) && AllWithin(p, chain) && |chain| >= p.averaging
    ensures Average(p, chain) <= p.powLimit
  {
    hide Limit; hide Weight; hide Span; hide AllWithin; hide TotalTarget;
    TailWithin(p, chain, p.averaging);
    TotalBound(p, Last(chain, p.averaging), p.averaging);
    AverageBound(TotalTarget(Last(chain, p.averaging), p.averaging).value, p.averaging, p.powLimit);
  }

  /** The average of equal targets is that target. */
  lemma AverageEven(p: Rules, chain: seq<HeaderInfo>, v: nat)
    requires Sound(p) && AllWithin(p, chain) && |chain| >= p.averaging && p.averaging * p.powLimit < Limit()
    requires forall i :: |chain| - p.averaging <= i < |chain| ==> TargetOf(chain[i]) == v
    ensures Average(p, chain) == v
  {
    hide Limit; hide Weight; hide Span; hide AllWithin; hide TotalTarget; hide TargetOf; hide Sum;
    var n := p.averaging;
    var hs := Last(chain, n);
    TailWithin(p, chain, n);
    TotalIsSum(p, hs, n);
    SumSame(n, (j: int) => if 1 <= j <= |hs| then TargetOf(hs[j - 1]) else 0, _ => v);
    ConstantSum(n, v);
    DivUnique(n * v, n, v, 0);
  }

  lemma {:induction false} SameTotal(a: seq<HeaderInfo>, b: seq<HeaderInfo>, n: nat)
    requires SameBits(a, b) && n <= |a|
    ensures TotalTarget(a, n) == TotalTarget(b, n)
  {
    hide Decode; hide Limit;
    if n > 0 { SameTotal(a, b, n - 1); }
  }

  /** Before the weighted rules: of two chains with the same heights and targets, the one whose window
      took longer never gets the harder next block. */
  lemma NextEases(p: Rules, a: seq<HeaderInfo>, b: seq<HeaderInfo>, nextA: Option<int>, nextB: Option<int>)
    requires Sound(p) && AllWithin(p, a) && SameBits(a, b) && Ordinary(p, a, nextA) && Ordinary(p, b, nextB)
    requires a[0].height == b[0].height && a[|a| - 1].height + 1 < p.lwmaHeight && Reaches(p, a)
    requires Elapsed(p, a) <= Elapsed(p, b)
    ensures exists x, y :: Asks(NextWork(p, a, nextA), x) && Asks(NextWork(p, b, nextB), y) && x <= y
  {
    hide Limit; hide Weight; hide Span; hide AllWithin; hide Digishield; hide MedianAt; hide TotalTarget; hide NextWork;
    hide Asks; hide Ordinary; hide Sound;
    SameEnd(p, a, b, nextA, nextB);
    WithinSame(p, a, b);
    RuleByHeight(p, a, nextA);
    RuleByHeight(p, b, nextB);
    SoundParts(p);
    AverageWithin(p, a);
    SameTotal(Last(a, p.averaging), Last(b, p.averaging), p.averaging);
    DigishieldEases(p, Average(p, a), Elapsed(p, a), Elapsed(p, b));
  }

  lemma SoundParts(p: Rules)
    requires Sound(p)
    ensures p.averaging > 0
  {
  }

  lemma SameEnd(p: Rules, a: seq<HeaderInfo>, b: seq<HeaderInfo>, nextA: Option<int>, nextB: Option<int>)
    requires SameBits(a, b) && Ordinary(p, a, nextA) && Ordinary(p, b, nextB) && a[0].height == b[0].height
    ensures a[|a| - 1].height == b[|b| - 1].height && |a| > p.averaging
  {
  }

  /** And a window that took just as long as it should keeps the average, cut to whole spans. */
  lemma NextSteady(p: Rules, chain: seq<HeaderInfo>, nextTime: Option<int>)
    requires Sound(p) && AllWithin(p, chain) && Ordinary(p, chain, nextTime) && Reaches(p, chain)
    requires chain[|chain| - 1].height + 1 < p.lwmaHeight && Elapsed(p, chain) == Span(p)
    ensures Span(p) > 0
            && Asks(NextWork(p, chain, nextTime), Kept(p, Average(p, chain) - Average(p, chain) % Span(p)))
  {
    hide Limit; hide Weight; hide Span; hide AllWithin; hide Digishield; hide MedianAt; hide TotalTarget; hide NextWork;
    hide Asks; hide Kept;
    RuleByHeight(p, chain, nextTime);
    AverageWithin(p, chain);
    DigishieldSteady(p, Average(p, chain));
  }

  /** The ramp after the second epoch: while its step is not negative, so many 32nds above the weighted
      average, at most the limit. */
  lemma RampAsks(p: Rules, chain: seq<HeaderInfo>, nextTime: Option<int>, v: nat)
    requires Sound(p) && chain != [] && Contiguous(chain) && Asks(Lwma3Of(p, chain), v) && v <= p.powLimit
    requires var last := chain[|chain| - 1].height;
             && p.epochTwoEnd <= last <= p.epochTwoEnd + 61 && !(p.epochOneEnd <= last <= p.epochOneEnd + 60)
    ensures var step := p.epochTwoEnd + 61 - chain[|chain| - 1].height;
            Asks(NextWork(p, chain, nextTime), Kept(p, v + v / 32 * step))
  {
    hide Limit; hide Weight; hide Span; hide Encode; hide Decode; hide Kept; hide Lwma3Of; hide Averaged; hide Ramp;
    hide Asks;
    var step := p.epochTwoEnd + 61 - chain[|chain| - 1].height;
    StepSmall(v, step);
    RampIs(p, chain, v, step);
    FinishAsks(p, v + v / 32 * step);
  }

  lemma RampIs(p: Rules, chain: seq<HeaderInfo>, v: nat, step: nat)
    requires chain != [] && Asks(Lwma3Of(p, chain), v) && 0 <= step <= 61
             && step == p.epochTwoEnd + 61 - chain[|chain| - 1].height
    requires v / 32 * step >= 0 && Product(v / 32, step) == v / 32 * step && v + v / 32 * step < Limit()
    ensures Ramp(p, chain) == Finish(p, v + v / 32 * step)
  {
    hide Limit; hide Encode; hide Decode; hide Lwma3Of; hide Product;
    DivUnique(step, U32_LIMIT, 0, step);
    NoWrap(v, Product(v / 32, step));
  }

  lemma NoWrap(x: nat, y: nat)
    requires x + y < Limit()
    ensures (x + y % Limit()) % Limit() == x + y
  {
    DivUnique(y, Limit(), 0, y);
    DivUnique(x + y, Limit(), 0, x + y);
  }

  lemma StepSmall(v: nat, step: nat)
    requires step <= 61 && 6 * v < Limit()
    ensures v / 32 * step >= 0 && Product(v / 32, step) == v / 32 * step && v + v / 32 * step <= 6 * v
  {
    hide Limit;
    assert 32 * (v / 32) <= v;
    TimesGrows(v / 32, step, 61);
    assert v / 32 * 61 == 61 * (v / 32);
  }
}
