/** The retarget rules as the node computes them, loop by loop. */
module RetargetLoops {
  import opened Basics
  import opened Compact
  import opened Retarget

  lemma {:induction false} SharesFail(hs: seq<HeaderInfo>, d: nat, i: nat, j: nat)
    requires i <= j < |hs| && d > 0 && Shares(hs, d, i).None?
    ensures Shares(hs, d, j).None?
    decreases j
  {
    hide Decode; hide Limit;
    if i < j { SharesFail(hs, d, i, j - 1); }
  }

  lemma {:induction false} TotalFails(hs: seq<HeaderInfo>, i: nat, n: nat)
    requires i <= n <= |hs| && TotalTarget(hs, i).None?
    ensures TotalTarget(hs, n).None?
    decreases n
  {
    hide Decode; hide Limit;
    if i < n { TotalFails(hs, i, n - 1); }
  }

  /** One pass over the window by height, the header before it at hand for the first gap. */
  method LwmaNext(p: Rules, chain: seq<HeaderInfo>) returns (r: Outcome)
    requires chain != [] && Contiguous(chain)
    ensures r == LwmaOf(p, chain)
  {
    hide Decode; hide Encode; hide Limit; hide Finish; hide Add256;
    var n, k := p.lwmaWindow, Weight(p);
    var height := chain[|chain| - 1].height;
    if height <= n { return Bits(Encode(p.powLimit)); }
    if n < 0 || |chain| <= n { return Panic; }
    ghost var hs := chain[|chain| - 1 - n..];
    var divisor := AsU64(k * n);
    if divisor == 0 { return Panic; }
    var base := chain[0].height;
    var sum: nat, weighted: int, j: nat := 0, 0, 0;
    var i := height - n + 1;
    while i <= height
      invariant 0 <= j <= n && i == height - n + 1 + j
      invariant weighted == WeightedTime(p, hs, j) && Shares(hs, divisor, j) == Some(sum)
      decreases height + 1 - i
    {
      var block, prev := chain[i - base], chain[i - 1 - base];
      assert block == hs[j + 1] && prev == hs[j];
      j := j + 1;
      weighted := weighted + Clamp(block.time - prev.time, -360, 6 * p.spacing) * j;
      var target := Decode(block.bits);
      if target.Rejected? {
        SharesFail(hs, divisor, j, n);
        return BadCompact;
      }
      sum := Add256(sum, Quotient(target.value, divisor));
      i := i + 1;
    }
    if weighted < TruncatedDiv(k, 10) { weighted := TruncatedDiv(k, 10); }
    return Finish(p, Product(sum, AsU64(weighted)));
  }

  /** The same with timestamps forced to rise and the result held near the last target. */
  method Lwma3Next(p: Rules, chain: seq<HeaderInfo>) returns (r: Outcome)
    requires chain != [] && Contiguous(chain)
    ensures r == Lwma3Of(p, chain)
  {
    hide Decode; hide Encode; hide Limit; hide Finish; hide Add256; hide Banded;
    var n := p.lwmaWindow;
    var height := chain[|chain| - 1].height;
    if height < n { return Bits(Encode(p.powLimit)); }
    if n < 0 || |chain| <= n { return Panic; }
    ghost var hs := chain[|chain| - 1 - n..];
    var divisor := AsU64(Weight(p) * n);
    if divisor == 0 { return Panic; }
    var base := chain[0].height;
    var sum: nat, last: nat, weighted: int, j: nat := 0, 0, 0, 0;
    var previous := chain[height - n - base].time;
    assert previous == hs[0].time;
    var i := height - n + 1;
    while i <= height
      invariant 0 <= j <= n && i == height - n + 1 + j
      invariant previous == Stamp(hs, j) && weighted == WeightedStamps(p, hs, j) && Shares(hs, divisor, j) == Some(sum)
      invariant last == if 0 < j == n && Decode(hs[n].bits).Target? then Decode(hs[n].bits).value else 0
      decreases height + 1 - i
    {
      var block := chain[i - base];
      assert block == hs[j + 1];
      var this' := if block.time > previous then block.time else previous + 1;
      var solve := if 6 * p.spacing < this' - previous then 6 * p.spacing else this' - previous;
      previous := this';
      j := j + 1;
      weighted := weighted + solve * j;
      var target := Decode(block.bits);
      if target.Rejected? {
        SharesFail(hs, divisor, j, n);
        return BadCompact;
      }
      sum := Add256(sum, Quotient(target.value, divisor));
      if i == height { last := target.value; }
      i := i + 1;
    }
    var next := Product(sum, AsU64(weighted));
    if next >= Limit() { return Panic; }
    return Finish(p, Banded(last, next));
  }

  method SumTargets(hs: seq<HeaderInfo>) returns (r: Option<nat>)
    ensures r == TotalTarget(hs, |hs|)
  {
    hide Decode; hide Limit; hide Add256;
    var total := 0;
    for i := 0 to |hs|
      invariant TotalTarget(hs, i) == Some(total)
    {
      var target := Decode(hs[i].bits);
      if target.Rejected? {
        TotalFails(hs, i + 1, |hs|);
        return None;
      }
      total := Add256(total, target.value);
    }
    return Some(total);
  }

  method CheckContiguous(chain: seq<HeaderInfo>) returns (ok: bool)
    ensures ok == Contiguous(chain)
  {
    for i := 0 to |chain|
      invariant forall k :: 0 <= k < i ==> chain[k].height == chain[0].height + k
    {
      if chain[i].height != chain[0].height + i { return false; }
    }
    return true;
  }

  method NextRequired(p: Rules, chain: seq<HeaderInfo>, nextTime: Option<int>) returns (r: Outcome)
    ensures r == NextWork(p, chain, nextTime)
  {
    hide Decode; hide Encode; hide LwmaOf; hide Lwma3Of; hide Digishield; hide TotalTarget; hide MedianAt;
    if chain == [] { return Bits(Encode(p.powLimit)); }
    var ok := CheckContiguous(chain);
    if !ok { return NonContiguous; }
    var last := chain[|chain| - 1];
    if p.epochOneEnd - 1 < last.height < p.epochOneEnd + 61 { return Bits(Encode(p.powLimit)); }
    if p.epochTwoEnd - 1 < last.height < p.epochTwoEnd + 64 {
      var base := Lwma3Next(p, chain);
      if !base.Bits? { return base; }
      if base.bits >= U32_LIMIT || Decode(base.bits).Rejected? { return BadCompact; }
      var full := Decode(base.bits).value;
      var step := (p.epochTwoEnd + 61 - last.height) % U32_LIMIT;
      return Bits(Encode(LimitTo(p, (full + Product(full / 32, step) % Limit()) % Limit())));
    }
    if MinDifficulty(p, last, nextTime) { return Bits(Encode(p.powLimit)); }
    var len := |chain|;
    if len <= p.averaging { return Bits(Encode(p.powLimit)); }
    var total := SumTargets(chain[len - p.averaging..]);
    if total.None? { return BadCompact; }
    if p.averaging == 0 { return Panic; }
    if last.height + 1 < p.lwmaHeight {
      return Digishield(p, Quotient(total.value, p.averaging),
                        MedianAt(chain, len - 1) - MedianAt(chain, len - p.averaging - 1));
    }
    if last.height + 1 < p.acadiaHeight { r := LwmaNext(p, chain); } else { r := Lwma3Next(p, chain); }
  }
}
