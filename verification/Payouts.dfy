/** The payments a coinbase must make, and the schedule they come from. */
module Payouts {
  import opened Basics
  import opened Chain
  import opened Sequential
  import opened Rewind
  import opened Powers
  import ConnectBlock

  // ---- matching outputs with expected payments ----

  function Occurs(s: seq<TxOut>, v: TxOut): (n: nat) {
    if s == [] then 0 else Occurs(s[..|s| - 1], v) + (if s[|s| - 1] == v then 1 else 0)
  }

  lemma {:induction false} OccursIs(s: seq<TxOut>, v: TxOut)
    ensures Occurs(s, v) == multiset(s)[v]
  {
    if s != [] {
      OccursIs(s[..|s| - 1], v);
      assert s == s[..|s| - 1] + [s[|s| - 1]];
    }
  }

  /** How many of the first `n` payments of this kind are marked. */
  function Marked(payouts: seq<TxOut>, flags: seq<bool>, v: TxOut, n: nat): (k: nat)
    requires n <= |payouts| == |flags|
  {
    if n == 0 then 0 else Marked(payouts, flags, v, n - 1) + (if flags[n - 1] && payouts[n - 1] == v then 1 else 0)
  }

  lemma {:induction false} MarkedBound(payouts: seq<TxOut>, flags: seq<bool>, v: TxOut, n: nat)
    requires n <= |payouts| == |flags|
    ensures Marked(payouts, flags, v, n) <= Occurs(payouts[..n], v)
    ensures (forall j :: 0 <= j < n && payouts[j] == v ==> flags[j])
            <==> Marked(payouts, flags, v, n) == Occurs(payouts[..n], v)
  {
    if n > 0 {
      MarkedBound(payouts, flags, v, n - 1);
      assert payouts[..n][..n - 1] == payouts[..n - 1];
    }
  }

  lemma {:induction false} MarkOne(payouts: seq<TxOut>, flags: seq<bool>, v: TxOut, j: nat, n: nat)
    requires n <= |payouts| == |flags| && j < |flags| && !flags[j]
    ensures Marked(payouts, flags[j := true], v, n) == Marked(payouts, flags, v, n)
            + (if j < n && payouts[j] == v then 1 else 0)
  {
    if n > 0 { MarkOne(payouts, flags, v, j, n - 1); }
  }

  /** Of every kind, as many payments are marked as there have been outputs for. */
  ghost predicate MatchedTo(payouts: seq<TxOut>, flags: seq<bool>, outs: seq<TxOut>) {
    |flags| == |payouts| && forall v :: Marked(payouts, flags, v, |payouts|) == Min(Occurs(payouts, v), Occurs(outs, v))
  }

  lemma MatchStep(payouts: seq<TxOut>, flags: seq<bool>, outs: seq<TxOut>, i: nat, j: Option<nat>)
    requires i < |outs| && MatchedTo(payouts, flags, outs[..i])
    requires j.None? ==> forall k :: 0 <= k < |payouts| && payouts[k] == outs[i] ==> flags[k]
    requires j.Some? ==> j.value < |payouts| && !flags[j.value] && payouts[j.value] == outs[i]
    ensures MatchedTo(payouts, if j.Some? then flags[j.value := true] else flags, outs[..i + 1])
  {
    var n := |payouts|;
    assert outs[..i + 1][..i] == outs[..i] && payouts[..n] == payouts;
    var after := if j.Some? then flags[j.value := true] else flags;
    forall v ensures Marked(payouts, after, v, n) == Min(Occurs(payouts, v), Occurs(outs[..i + 1], v)) {
      assert Marked(payouts, flags, v, n) == Min(Occurs(payouts, v), Occurs(outs[..i], v));
      MarkedBound(payouts, flags, v, n);
      if j.Some? {
        MarkOne(payouts, flags, v, j.value, n);
        MarkedBound(payouts, after, v, n);
      }
    }
  }

  /** An output takes a payment exactly when fewer like it came before than there are payments of its kind. */
  lemma TakesMeans(payouts: seq<TxOut>, flags: seq<bool>, outs: seq<TxOut>, i: nat, j: Option<nat>)
    requires i < |outs| && MatchedTo(payouts, flags, outs[..i])
    requires j.None? ==> forall k :: 0 <= k < |payouts| && payouts[k] == outs[i] ==> flags[k]
    requires j.Some? ==> j.value < |payouts| && !flags[j.value] && payouts[j.value] == outs[i]
    ensures j.Some? <==> Occurs(outs[..i], outs[i]) < Occurs(payouts, outs[i])
  {
    assert payouts[..|payouts|] == payouts;
    MarkedBound(payouts, flags, outs[i], |payouts|);
    assert Marked(payouts, flags, outs[i], |payouts|) == Min(Occurs(payouts, outs[i]), Occurs(outs[..i], outs[i]));
  }

  /** The first unmarked payment equal to an output. */
  method FindPayout(payouts: seq<TxOut>, flags: seq<bool>, out: TxOut) returns (j: Option<nat>)
    requires |flags| == |payouts|
    ensures j.None? ==> forall k :: 0 <= k < |payouts| && payouts[k] == out ==> flags[k]
    ensures j.Some? ==> j.value < |payouts| && !flags[j.value] && payouts[j.value] == out
  {
    for k := 0 to |payouts|
      invariant forall m :: 0 <= m < k && payouts[m] == out ==> flags[m]
    {
      if !flags[k] && out.value == payouts[k].value && out.script == payouts[k].script { return Some(k); }
    }
    return None;
  }

  lemma {:induction false} NoneMarked(outs: seq<TxOut>, flags: seq<bool>, v: TxOut, n: nat)
    requires n <= |outs| == |flags| && forall j :: 0 <= j < |flags| ==> !flags[j]
    ensures Marked(outs, flags, v, n) == 0
  {
    if n > 0 { NoneMarked(outs, flags, v, n - 1); }
  }

  datatype Verdict = Verdict(approved: seq<bool>, used: seq<bool>, devPaid: bool)

  predicate PaysDev(out: TxOut, dev: Bytes, remainder: int) { out.script == dev && out.value >= remainder }

  /** An output that took no payment pays the fund. */
  ghost predicate SpareForDev(outs: seq<TxOut>, used: seq<bool>, dev: Bytes, remainder: int)
    requires |used| == |outs|
  {
    exists i :: 0 <= i < |outs| && !used[i] && PaysDev(outs[i], dev, remainder)
  }

  lemma NoSpare(outs: seq<TxOut>, dev: Bytes, remainder: int)
    ensures !SpareForDev(outs[..0], [], dev, remainder)
  {
  }

  lemma SpareMore(outs: seq<TxOut>, used: seq<bool>, i: nat, took: bool, dev: Bytes, remainder: int)
    requires |used| == i < |outs|
    ensures SpareForDev(outs[..i + 1], used + [took], dev, remainder)
            <==> SpareForDev(outs[..i], used, dev, remainder) || (!took && PaysDev(outs[i], dev, remainder))
  {
    var more := used + [took];
    if k :| 0 <= k < i && !used[k] && PaysDev(outs[..i][k], dev, remainder) {
      assert !more[k] && outs[..i + 1][k] == outs[..i][k];
    }
    if !took && PaysDev(outs[i], dev, remainder) { assert !more[i] && outs[..i + 1][i] == outs[i]; }
    if k :| 0 <= k < i + 1 && !more[k] && PaysDev(outs[..i + 1][k], dev, remainder) {
      if k < i { assert !used[k] && outs[..i][k] == outs[..i + 1][k]; }
    }
  }

  /** The greedy pass over the outputs: each takes the first open payment it matches; an output that
      takes none may be the development fund's. */
  method Approve(outs: seq<TxOut>, payouts: seq<TxOut>, dev: Option<Bytes>, remainder: int) returns (r: Verdict)
    ensures MatchedTo(payouts, r.approved, outs) && |r.used| == |outs|
    ensures forall i :: 0 <= i < |outs| ==> (r.used[i] <==> Occurs(outs[..i], outs[i]) < Occurs(payouts, outs[i]))
    ensures r.devPaid <==> dev.Some? && SpareForDev(outs, r.used, dev.value, remainder)
  {
    hide MatchedTo; hide Occurs; hide SpareForDev;
    var approved := seq(|payouts|, _ => false);
    var used: seq<bool> := [];
    var devPaid := false;
    MatchStart(payouts, approved, outs);
    if dev.Some? { NoSpare(outs, dev.value, remainder); }
    for i := 0 to |outs|
      invariant |approved| == |payouts| && |used| == i && MatchedTo(payouts, approved, outs[..i])
      invariant forall k :: 0 <= k < i ==> (used[k] <==> Occurs(outs[..k], outs[k]) < Occurs(payouts, outs[k]))
      invariant devPaid <==> dev.Some? && SpareForDev(outs[..i], used, dev.value, remainder)
    {
      var j := FindPayout(payouts, approved, outs[i]);
      MatchStep(payouts, approved, outs, i, j);
      TakesMeans(payouts, approved, outs, i, j);
      if dev.Some? { SpareMore(outs, used, i, j.Some?, dev.value, remainder); }
      if j.Some? { approved := approved[j.value := true]; }
      used := used + [j.Some?];
      if dev.Some? && !devPaid && !used[i] && outs[i].script == dev.value && outs[i].value >= remainder {
        devPaid := true;
      }
    }
    assert outs[..|outs|] == outs;
    return Verdict(approved, used, devPaid);
  }

  lemma MatchStart(payouts: seq<TxOut>, flags: seq<bool>, outs: seq<TxOut>)
    requires |flags| == |payouts| && forall j :: 0 <= j < |flags| ==> !flags[j]
    ensures MatchedTo(payouts, flags, outs[..0])
  {
    forall v ensures Marked(payouts, flags, v, |payouts|) == Min(Occurs(payouts, v), Occurs(outs[..0], v)) {
      NoneMarked(payouts, flags, v, |payouts|);
    }
  }

  /** Every payment is approved exactly when the coinbase contains them all, counted with multiplicity. */
  lemma ApprovedMeans(payouts: seq<TxOut>, flags: seq<bool>, outs: seq<TxOut>)
    requires MatchedTo(payouts, flags, outs)
    ensures (forall j :: 0 <= j < |flags| ==> flags[j]) <==> multiset(payouts) <= multiset(outs)
  {
    var n := |payouts|;
    assert payouts[..n] == payouts;
    forall v ensures multiset(payouts)[v] == Occurs(payouts, v) && multiset(outs)[v] == Occurs(outs, v) {
      OccursIs(payouts, v);
      OccursIs(outs, v);
    }
    if forall j :: 0 <= j < |flags| ==> flags[j] {
      forall v ensures Occurs(payouts, v) <= Occurs(outs, v) {
        MarkedBound(payouts, flags, v, n);
        assert Marked(payouts, flags, v, n) == Min(Occurs(payouts, v), Occurs(outs, v));
      }
    }
    if multiset(payouts) <= multiset(outs) {
      forall j | 0 <= j < |flags| ensures flags[j] {
        var v := payouts[j];
        MarkedBound(payouts, flags, v, n);
        assert Marked(payouts, flags, v, n) == Min(Occurs(payouts, v), Occurs(outs, v));
        assert multiset(payouts)[v] <= multiset(outs)[v];
      }
    }
  }

  // ---- the check as a whole ----

  predicate NoNegative(outs: seq<TxOut>) { forall i :: 0 <= i < |outs| ==> outs[i].value >= 0 }

  /** What is left of the subsidy for the development fund, if it stays a 64-bit number. */
  function Remainder(payouts: seq<TxOut>, subsidy: i64, n: nat): (r: Result<i64>)
    requires n <= |payouts|
  {
    if n == 0 then Ok(subsidy)
    else
      var before :- Remainder(payouts, subsidy, n - 1);
      CheckedI64(before - payouts[n - 1].value)
  }

  lemma {:induction false} RemainderIs(payouts: seq<TxOut>, subsidy: i64, n: nat)
    requires n <= |payouts| && Remainder(payouts, subsidy, n).Ok?
    ensures Remainder(payouts, subsidy, n).value == subsidy - SumOut(payouts[..n])
  {
    if n > 0 {
      RemainderIs(payouts, subsidy, n - 1);
      assert payouts[..n][..n - 1] == payouts[..n - 1];
    }
  }

  lemma {:induction false} RemainderFails(payouts: seq<TxOut>, subsidy: i64, i: nat, n: nat)
    requires i <= n <= |payouts| && Remainder(payouts, subsidy, i).Err?
    ensures Remainder(payouts, subsidy, n).Err?
    decreases n
  {
    if i < n { RemainderFails(payouts, subsidy, i, n - 1); }
  }

  lemma {:induction false} RemainderOk(payouts: seq<TxOut>, subsidy: i64, n: nat)
    requires n <= |payouts|
    ensures Remainder(payouts, subsidy, n).Ok? <==> forall k :: 0 <= k <= n ==> InI64(subsidy - SumOut(payouts[..k]))
  {
    if n > 0 {
      RemainderOk(payouts, subsidy, n - 1);
      if Remainder(payouts, subsidy, n - 1).Ok? {
        RemainderIs(payouts, subsidy, n - 1);
        assert payouts[..n][..n - 1] == payouts[..n - 1];
      }
    }
  }

  /** When a coinbase is accepted, said without the order of its outputs: what is left of the subsidy
      after each payment is a 64-bit number, all payments are made, and beyond them one output pays
      the fund at least what is left. */
  ghost predicate PayoutsAccepted(outs: seq<TxOut>, payouts: seq<TxOut>, dev: Option<Bytes>, subsidy: i64) {
    && (forall k :: 0 <= k <= |payouts| ==> InI64(subsidy - SumOut(payouts[..k])))
    && multiset(payouts) <= multiset(outs)
    && (dev.Some? ==>
          exists v :: && v in multiset(outs) - multiset(payouts) && v.script == dev.value
                      && v.value >= subsidy - SumOut(payouts))
  }

  lemma {:induction false} LastOccurrence(outs: seq<TxOut>, v: TxOut) returns (i: nat)
    requires Occurs(outs, v) > 0
    ensures i < |outs| && outs[i] == v && Occurs(outs[..i], v) == Occurs(outs, v) - 1
    decreases |outs|
  {
    var n := |outs| - 1;
    if outs[n] == v { return n; }
    i := LastOccurrence(outs[..n], v);
    assert outs[..n][..i] == outs[..i];
  }

  lemma {:induction false} OccursPrefix(outs: seq<TxOut>, i: nat, n: nat)
    requires i < n <= |outs|
    ensures Occurs(outs[..i], outs[i]) < Occurs(outs[..n], outs[i])
    decreases n
  {
    assert outs[..n][..n - 1] == outs[..n - 1];
    if i < n - 1 { OccursPrefix(outs, i, n - 1); }
  }

  /** Some output is left over for the fund exactly when one lies beyond the payments. */
  lemma LeftOver(outs: seq<TxOut>, payouts: seq<TxOut>, used: seq<bool>, dev: Bytes, remainder: int)
    requires |used| == |outs|
    requires forall i :: 0 <= i < |outs| ==> (used[i] <==> Occurs(outs[..i], outs[i]) < Occurs(payouts, outs[i]))
    ensures SpareForDev(outs, used, dev, remainder)
            <==> exists v :: v in multiset(outs) - multiset(payouts) && PaysDev(v, dev, remainder)
  {
    hide Occurs;
    if i :| 0 <= i < |outs| && !used[i] && PaysDev(outs[i], dev, remainder) {
      OccursPrefix(outs, i, |outs|);
      assert outs[..|outs|] == outs;
      OccursIs(outs, outs[i]);
      OccursIs(payouts, outs[i]);
      assert outs[i] in multiset(outs) - multiset(payouts);
    }
    if v :| v in multiset(outs) - multiset(payouts) && PaysDev(v, dev, remainder) {
      OccursIs(outs, v);
      OccursIs(payouts, v);
      var i := LastOccurrence(outs, v);
      assert !used[i];
    }
  }

  /** The verdict of the pass says whether the coinbase is accepted. */
  lemma VerdictMeans(outs: seq<TxOut>, payouts: seq<TxOut>, dev: Option<Bytes>, subsidy: i64, v: Verdict)
    requires Remainder(payouts, subsidy, |payouts|).Ok? && MatchedTo(payouts, v.approved, outs) && |v.used| == |outs|
    requires forall i :: 0 <= i < |outs| ==> (v.used[i] <==> Occurs(outs[..i], outs[i]) < Occurs(payouts, outs[i]))
    requires v.devPaid <==>
               dev.Some? && SpareForDev(outs, v.used, dev.value, Remainder(payouts, subsidy, |payouts|).value)
    ensures |v.approved| == |payouts|
    ensures PayoutsAccepted(outs, payouts, dev, subsidy)
            <==> (dev.Some? ==> v.devPaid) && forall j :: 0 <= j < |v.approved| ==> v.approved[j]
  {
    hide Occurs; hide SumOut; hide Remainder; hide Marked;
    ApprovedMeans(payouts, v.approved, outs);
    RemainderOk(payouts, subsidy, |payouts|);
    RemainderIs(payouts, subsidy, |payouts|);
    assert payouts[..|payouts|] == payouts;
    if dev.Some? { LeftOver(outs, payouts, v.used, dev.value, subsidy - SumOut(payouts)); }
  }

  /** `check_deterministic_fluxnode_payouts`; `dev` is the fund's script once the fund is active. */
  method CheckPayouts(outs: seq<TxOut>, payouts: seq<TxOut>, dev: Option<Bytes>, subsidy: i64) returns (ok: bool)
    ensures ok <==> PayoutsAccepted(outs, payouts, dev, subsidy)
    ensures ok && dev.Some? && NoNegative(outs) ==> SumOut(outs) >= subsidy
  {
    hide MatchedTo; hide SumOut; hide PayoutsAccepted; hide PaysDev; hide Occurs;
    if payouts == [] && dev.None? { NoPayouts(outs, subsidy); return true; }
    var remainder: i64 := subsidy;
    for n := 0 to |payouts|
      invariant Remainder(payouts, subsidy, n) == Ok(remainder)
    {
      if !InI64(remainder - payouts[n].value) {
        RemainderFails(payouts, subsidy, n + 1, |payouts|);
        NotAccepted(outs, payouts, dev, subsidy);
        return false;
      }
      remainder := remainder - payouts[n].value;
    }
    var v := Approve(outs, payouts, dev, remainder);
    VerdictMeans(outs, payouts, dev, subsidy, v);
    if dev.Some? && !v.devPaid { return false; }
    for j := 0 to |v.approved|
      invariant forall k :: 0 <= k < j ==> v.approved[k]
    {
      if !v.approved[j] { return false; }
    }
    if dev.Some? && NoNegative(outs) { AcceptedPaysSubsidy(outs, payouts, dev.value, subsidy); }
    return true;
  }

  lemma NotAccepted(outs: seq<TxOut>, payouts: seq<TxOut>, dev: Option<Bytes>, subsidy: i64)
    requires Remainder(payouts, subsidy, |payouts|).Err?
    ensures !PayoutsAccepted(outs, payouts, dev, subsidy)
  {
    RemainderOk(payouts, subsidy, |payouts|);
  }

  lemma NoPayouts(outs: seq<TxOut>, subsidy: i64)
    ensures PayoutsAccepted(outs, [], None, subsidy)
  {
  }

  /** An accepted coinbase pays at least the subsidy: the payments are among its outputs, and one
      more output takes what they leave. */
  lemma AcceptedPaysSubsidy(outs: seq<TxOut>, payouts: seq<TxOut>, dev: Bytes, subsidy: i64)
    requires PayoutsAccepted(outs, payouts, Some(dev), subsidy) && NoNegative(outs)
    ensures SumOut(outs) >= subsidy
  {
    hide SumOut;
    var v :| && v in multiset(outs) - multiset(payouts) && v.script == dev && v.value >= subsidy - SumOut(payouts);
    SumWithin(payouts + [v], outs);
    SumSnoc(payouts, v);
  }

  lemma SumSnoc(s: seq<TxOut>, v: TxOut)
    ensures SumOut(s + [v]) == SumOut(s) + v.value
  {
    assert (s + [v])[..|s|] == s;
  }

  lemma {:induction false} SumRemove(s: seq<TxOut>, i: nat)
    requires i < |s|
    ensures SumOut(s) == SumOut(s[..i] + s[i + 1..]) + s[i].value
  {
    var n := |s| - 1;
    if i < n {
      SumRemove(s[..n], i);
      assert s[..n][..i] + s[..n][i + 1..] == (s[..i] + s[i + 1..])[..n - 1];
    } else {
      assert s[..i] + s[i + 1..] == s[..n];
    }
  }

  lemma WithoutOne(part: seq<TxOut>, i: nat, outs: seq<TxOut>)
    requires i < |part| && outs != [] && part[i] == outs[|outs| - 1] && multiset(part) <= multiset(outs)
    ensures multiset(part[..i] + part[i + 1..]) <= multiset(outs[..|outs| - 1])
  {
    var n := |outs| - 1;
    var rest := part[..i] + part[i + 1..];
    assert outs == outs[..n] + [outs[n]];
    assert part == part[..i] + [part[i]] + part[i + 1..];
    forall v ensures multiset(rest)[v] <= multiset(outs[..n])[v] {
      assert multiset(part)[v] == multiset(rest)[v] + multiset{part[i]}[v];
      assert multiset(outs)[v] == multiset(outs[..n])[v] + multiset{part[i]}[v];
    }
  }

  lemma WithoutLast(part: seq<TxOut>, outs: seq<TxOut>)
    requires outs != [] && outs[|outs| - 1] !in part && multiset(part) <= multiset(outs)
    ensures multiset(part) <= multiset(outs[..|outs| - 1])
  {
    var n := |outs| - 1;
    assert outs == outs[..n] + [outs[n]];
  }

  /** A part of the outputs, counted with multiplicity, adds up to no more than all of them. */
  lemma {:induction false} SumWithin(part: seq<TxOut>, outs: seq<TxOut>)
    requires multiset(part) <= multiset(outs) && NoNegative(outs)
    ensures SumOut(part) <= SumOut(outs)
    decreases |outs|
  {
    if outs != [] {
      var n := |outs| - 1;
      if outs[n] in part {
        var i :| 0 <= i < |part| && part[i] == outs[n];
        WithoutOne(part, i, outs);
        SumWithin(part[..i] + part[i + 1..], outs[..n]);
        SumRemove(part, i);
      } else {
        WithoutLast(part, outs);
        SumWithin(part, outs[..n]);
      }
    }
  }

  lemma {:induction false} SumOldPositive(js: seq<JoinSplit>)
    requires forall i :: 0 <= i < |js| ==> js[i].vpubOld >= 0
    ensures SumOld(js) >= 0
  {
    if js != [] { SumOldPositive(js[..|js| - 1]); }
  }

  /** The coinbase of a connected block above height 2 pays no more transparently than subsidy, fees
      and scheduled funds together. */
  lemma CoinbaseBound(env: Env, view: View, block: Block, h: u32, location: nat, paid: seq<OutPoint>, run: Run)
    requires block.txs != [] && h > 2 && ConnectView(env, view, block, h, location, paid).Ok?
    requires StepTxs(env, view, block, h, location, |block.txs|) == Ok(run)
    ensures SumOut(block.txs[0].vout) <= env.subsidy(h) + run.totals.fees + env.extraFunds(h)
  {
    hide ConnectView; hide StepTxs; hide PayNodes; hide NewAnchors; hide NewTree; hide NewStats; hide NewPools;
    hide SumOut; hide SumOld;
    var run', nodes, t := ConnectedRun(env, view, block, h, location, paid);
    ConnectBlock.FirstInRange(env, view, block, h, location, |block.txs|);
    SumOldPositive(block.txs[0].joinSplits);
  }

  /** Above height 2, an accepted coinbase with the fund active pays at least the subsidy, and no
      more than subsidy, fees and scheduled funds. */
  lemma CoinbaseBetween(env: Env, view: View, block: Block, h: u32, location: nat, paid: seq<OutPoint>, run: Run,
                        payouts: seq<TxOut>, dev: Bytes)
    requires block.txs != [] && h > 2 && ConnectView(env, view, block, h, location, paid).Ok?
    requires StepTxs(env, view, block, h, location, |block.txs|) == Ok(run)
    requires InI64(env.subsidy(h)) && PayoutsAccepted(block.txs[0].vout, payouts, Some(dev), env.subsidy(h))
    ensures env.subsidy(h) <= SumOut(block.txs[0].vout) <= env.subsidy(h) + run.totals.fees + env.extraFunds(h)
  {
    hide ConnectView; hide StepTxs; hide SumOut; hide PayoutsAccepted;
    CoinbaseBound(env, view, block, h, location, paid, run);
    ConnectBlock.FirstInRange(env, view, block, h, location, |block.txs|);
    AcceptedPaysSubsidy(block.txs[0].vout, payouts, dev, env.subsidy(h));
  }

  // ---- the schedule ----

  /** The subsidy after `n` yearly cuts of a tenth. */
  function Cut(subsidy: nat, n: nat): (s: nat) { if n == 0 then subsidy else Cut(subsidy, n - 1) * 9 / 10 }

  lemma {:induction false} CutsShrink(subsidy: nat, m: nat, n: nat)
    requires m <= n
    ensures Cut(subsidy, n) <= Cut(subsidy, m) <= subsidy
    decreases n
  {
    if m < n { CutsShrink(subsidy, m, n - 1); } else if n > 0 { CutsShrink(subsidy, m - 1, n - 1); }
  }

  function Power(b: nat, n: nat): (p: nat) { if n == 0 then 1 else b * Power(b, n - 1) }

  /** Rounding down at every cut loses less than ten units in all: the subsidy is nine tenths to the
      power of the cuts, within that. */
  lemma {:induction false} CutsAreTenths(subsidy: nat, n: nat)
    ensures Power(10, n) * Cut(subsidy, n) <= Power(9, n) * subsidy
    ensures Power(9, n) * subsidy < Power(10, n) * (Cut(subsidy, n) + 10)
  {
    if n > 0 {
      CutsAreTenths(subsidy, n - 1);
      CutsOnce(Power(9, n - 1), Power(10, n - 1), subsidy, Cut(subsidy, n - 1), Cut(subsidy, n));
    }
  }

  lemma CutsOnce(nines: nat, tens: nat, subsidy: nat, c: nat, d: nat)
    requires d == c * 9 / 10 && tens * c <= nines * subsidy < tens * (c + 10)
    ensures 10 * tens * d <= 9 * nines * subsidy < 10 * tens * (d + 10)
  {
    Regrouped(tens, c, 10);
    Regrouped(tens, d, 10);
    Regrouped(nines, subsidy, 9);
    var x, y, z := nines * subsidy, tens * c, tens * d;
    TenthOff(tens, c, d);
    assert 10 * z <= 9 * y <= 9 * x < 9 * y + 90 * tens <= 10 * z + 99 * tens;
  }

  lemma Regrouped(a: nat, b: nat, k: nat)
    ensures k * a * b == k * (a * b) && a * (b + k) == a * b + k * a && k * a * (b + k) == k * (a * b) + k * k * a
  {
  }

  lemma TenthOff(tens: nat, c: nat, d: nat)
    requires 10 * d <= 9 * c <= 10 * d + 9
    ensures 10 * (tens * d) <= 9 * (tens * c) <= 10 * (tens * d) + 9 * tens
  {
    Scaled(tens, 10 * d, 9 * c);
    Scaled(tens, 9 * c, 10 * d + 9);
  }

  lemma Scaled(t: nat, x: int, y: int)
    requires x <= y
    ensures t * x <= t * y
  {
    assert t * (y - x) >= 0;
  }

  method PonSubsidy(initial: nat, sinceActivation: nat, interval: nat, maxCuts: nat) returns (s: nat)
    requires interval > 0
    ensures s == Cut(initial, if sinceActivation / interval < maxCuts then sinceActivation / interval else maxCuts)
            <= initial
  {
    var cuts := if sinceActivation / interval < maxCuts then sinceActivation / interval else maxCuts;
    s := initial;
    for i := 0 to cuts
      invariant s == Cut(initial, i)
    {
      s := s * 9 / 10;
    }
    CutsShrink(initial, 0, cuts);
  }

  function TierBase(tier: int): (b: nat) {
    if tier == 1 then COIN else if tier == 2 then 35 * COIN / 10 else if tier == 3 then 9 * COIN else 0
  }

  /** A tier's share of the subsidy: one, three and a half, or nine parts in fourteen. */
  function TierShare(value: nat, tier: int): (s: nat) { value * TierBase(tier) / (14 * COIN) }

  /** The shares are two, seven and eighteen parts in twenty-eight, rounded down, and leave at least the
      last part for the development fund. */
  lemma SharesFit(value: nat)
    ensures 28 * TierShare(value, 1) <= 2 * value < 28 * TierShare(value, 1) + 28
    ensures 28 * TierShare(value, 2) <= 7 * value < 28 * TierShare(value, 2) + 28
    ensures 28 * TierShare(value, 3) <= 18 * value < 28 * TierShare(value, 3) + 28
    ensures TierShare(value, 1) + TierShare(value, 2) + TierShare(value, 3) + value / 28 <= value
  {
    ShareOf(value, 1, 2);
    ShareOf(value, 2, 7);
    ShareOf(value, 3, 18);
  }

  lemma ShareOf(value: nat, tier: int, parts: nat)
    requires TierBase(tier) * 2 == parts * COIN
    ensures 28 * TierShare(value, tier) <= parts * value < 28 * TierShare(value, tier) + 28
  {
    var base := TierBase(tier);
    DivParts(value * base, 14 * COIN);
    assert 2 * (value * base) == value * parts * COIN;
  }

  /** A height is in the swap pool's schedule exactly when it is one of its multiples. */
  method SwapPoolHeight(height: int, start: int, interval: nat, times: nat) returns (r: bool)
    ensures r <==> exists i :: 0 <= i < times && height == start + interval * i
  {
    if height < start { return false; }
    if height > start + interval * times {
      forall i | 0 <= i < times ensures height != start + interval * i { assert interval * (times - i) >= 0; }
      return false;
    }
    for i := 0 to times
      invariant forall k :: 0 <= k < i ==> height != start + interval * k
    {
      if height == start + interval * i { return true; }
    }
    return false;
  }
}
