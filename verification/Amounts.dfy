/** The loops that add up and check the amounts and shielded parts of one transaction. */
module Amounts {
  import opened Basics
  import opened Chain
  import opened Sequential
  import opened Reversal

  lemma {:induction false} SumOldBounds(js: seq<JoinSplit>, n: nat)
    requires n <= |js| && forall i :: 0 <= i < |js| ==> MoneyRange(js[i].vpubOld)
    ensures 0 <= SumOld(js[..n]) <= SumOld(js)
    decreases |js|
  {
    if n < |js| {
      SumOldBounds(js[..|js| - 1], n);
      assert js[..|js| - 1][..n] == js[..n];
    } else {
      assert js[..n] == js;
      if n > 0 {
        SumOldBounds(js[..n - 1], n - 1);
        assert js[..n - 1][..n - 1] == js[..n - 1];
      }
    }
  }

  lemma {:induction false} SumNewBounds(js: seq<JoinSplit>, n: nat)
    requires n <= |js| && forall i :: 0 <= i < |js| ==> MoneyRange(js[i].vpubNew)
    ensures 0 <= SumNew(js[..n]) <= SumNew(js)
    decreases |js|
  {
    if n < |js| {
      SumNewBounds(js[..|js| - 1], n);
      assert js[..|js| - 1][..n] == js[..n];
    } else {
      assert js[..n] == js;
      if n > 0 {
        SumNewBounds(js[..n - 1], n - 1);
        assert js[..n - 1][..n - 1] == js[..n - 1];
      }
    }
  }

  predicate AllOutputsLegal(outs: seq<TxOut>) { forall i :: 0 <= i < |outs| ==> MoneyRange(outs[i].value) }

  predicate AllOldLegal(js: seq<JoinSplit>) { forall i :: 0 <= i < |js| ==> MoneyRange(js[i].vpubOld) }

  predicate AllNewLegal(js: seq<JoinSplit>) { forall i :: 0 <= i < |js| ==> MoneyRange(js[i].vpubNew) }

  /** Transparent outputs, with the running total checked at every step. */
  method AddOutputs(outs: seq<TxOut>) returns (r: Result<int>)
    ensures r == if AllOutputsLegal(outs) && MoneyRange(SumOut(outs)) then Ok(SumOut(outs)) else Err(ValueOutOfRange)
  {
    var total: int := 0;
    for i := 0 to |outs|
      invariant total == SumOut(outs[..i]) && MoneyRange(total) && AllOutputsLegal(outs[..i])
    {
      if outs[i].value < 0 || outs[i].value > MAX_MONEY { return Err(ValueOutOfRange); }
      total := total + outs[i].value;
      assert outs[..i + 1][..i] == outs[..i];
      if !MoneyRange(total) {
        if AllOutputsLegal(outs) { SumOutBounds(outs, i + 1); }
        return Err(ValueOutOfRange);
      }
    }
    assert outs[..|outs|] == outs;
    return Ok(total);
  }

  method AddOld(js: seq<JoinSplit>, start: int) returns (r: Result<int>)
    requires MoneyRange(start)
    ensures r == if AllOldLegal(js) && MoneyRange(start + SumOld(js)) then Ok(start + SumOld(js))
            else Err(ValueOutOfRange)
  {
    var total := start;
    for i := 0 to |js|
      invariant total == start + SumOld(js[..i]) && MoneyRange(total) && AllOldLegal(js[..i])
    {
      total := total + js[i].vpubOld;
      assert js[..i + 1][..i] == js[..i];
      if !MoneyRange(js[i].vpubOld) || !MoneyRange(total) {
        if AllOldLegal(js) { SumOldBounds(js, i + 1); }
        return Err(ValueOutOfRange);
      }
    }
    assert js[..|js|] == js;
    return Ok(total);
  }

  method AddNew(js: seq<JoinSplit>, start: int) returns (r: Result<int>)
    requires MoneyRange(start)
    ensures r == if AllNewLegal(js) && MoneyRange(start + SumNew(js)) then Ok(start + SumNew(js))
            else Err(ValueOutOfRange)
  {
    var total := start;
    for i := 0 to |js|
      invariant total == start + SumNew(js[..i]) && MoneyRange(total) && AllNewLegal(js[..i])
    {
      total := total + js[i].vpubNew;
      assert js[..i + 1][..i] == js[..i];
      if !MoneyRange(js[i].vpubNew) || !MoneyRange(total) {
        if AllNewLegal(js) { SumNewBounds(js, i + 1); }
        return Err(ValueOutOfRange);
      }
    }
    assert js[..|js|] == js;
    return Ok(total);
  }

  lemma PartsNonNegative(tx: Tx)
    ensures AllOutputsLegal(tx.vout) ==> SumOut(tx.vout) >= 0
    ensures AllOldLegal(tx.joinSplits) ==> SumOld(tx.joinSplits) >= 0
    ensures AllNewLegal(tx.joinSplits) ==> SumNew(tx.joinSplits) >= 0
  {
    if AllOutputsLegal(tx.vout) { SumOutBounds(tx.vout, 0); }
    if AllOldLegal(tx.joinSplits) { SumOldBounds(tx.joinSplits, 0); }
    if AllNewLegal(tx.joinSplits) { SumNewBounds(tx.joinSplits, 0); }
  }

  /** `tx_value_out`: succeeds exactly when every amount and the grand total are legal amounts. */
  method TxValueOut(tx: Tx) returns (r: Result<i64>)
    ensures r == if OutputsInRange(tx) then Ok(ValueOut(tx)) else Err(ValueOutOfRange)
  {
    hide SumOut; hide SumOld;
    PartsNonNegative(tx);
    var outs := AddOutputs(tx.vout);
    if outs.Err? { return Err(ValueOutOfRange); }
    var total := outs.value;
    if tx.valueBalance <= 0 {
      total := total - tx.valueBalance;
      if !MoneyRange(0 - tx.valueBalance) || !MoneyRange(total) { return Err(ValueOutOfRange); }
    }
    var entered := AddOld(tx.joinSplits, total);
    if entered.Err? { return Err(ValueOutOfRange); }
    return Ok(entered.value);
  }

  /** `tx_shielded_value_in`: the value a transaction takes out of the pools. */
  method TxShieldedIn(tx: Tx) returns (r: Result<i64>)
    ensures r == if ShieldedInRange(tx) then Ok(ShieldedIn(tx)) else Err(ValueOutOfRange)
  {
    hide SumNew;
    PartsNonNegative(tx);
    var total: int := 0;
    if tx.valueBalance >= 0 {
      total := tx.valueBalance;
      if !MoneyRange(total) { return Err(ValueOutOfRange); }
    }
    var left := AddNew(tx.joinSplits, total);
    if left.Err? { return Err(ValueOutOfRange); }
    return Ok(left.value);
  }

  /** Marks nullifiers as seen in this block, rejecting repeats and ones already spent. */
  method SeeNullifiers(before: set<(Pool, Hash)>, seen: set<(Pool, Hash)>, pool: Pool, hs: seq<Hash>)
    returns (r: Result<set<(Pool, Hash)>>)
    requires before !! seen
    ensures var spec := AddNullifiers(before, before + seen, pool, hs);
            if r.Err? then spec == Err(r.error) else spec == Ok(before + r.value) && before !! r.value
  {
    var s := seen;
    assert hs[0..] == hs;
    for i := 0 to |hs|
      invariant before !! s
      invariant AddNullifiers(before, before + seen, pool, hs) == AddNullifiers(before, before + s, pool, hs[i..])
    {
      assert hs[i..][0] == hs[i] && hs[i..][1..] == hs[i + 1..];
      if (pool, hs[i]) in s { return Err(DuplicateNullifier); }
      if (pool, hs[i]) in before { return Err(NullifierSpent); }
      assert before + s + {(pool, hs[i])} == before + (s + {(pool, hs[i])});
      s := s + {(pool, hs[i])};
    }
    return Ok(s);
  }

  method AppendCommitments(env: Env, pool: Pool, tree: Bytes, hs: seq<Hash>) returns (r: Result<Bytes>)
    ensures r == AppendAll(env, pool, tree, hs)
  {
    var t := tree;
    assert hs[0..] == hs;
    for i := 0 to |hs|
      invariant AppendAll(env, pool, tree, hs) == AppendAll(env, pool, t, hs[i..])
    {
      assert hs[i..][0] == hs[i] && hs[i..][1..] == hs[i + 1..];
      var next := env.append(pool, t, hs[i]);
      if next.None? { return Err(TreeFull); }
      t := next.value;
    }
    return Ok(t);
  }

  /** The tree a joinsplit builds on: an earlier one of the same transaction, the empty tree, or a stored anchor. */
  method FindAnchor(env: Env, db: Db, inner: map<Hash, Bytes>, anchor: Hash) returns (r: Result<Bytes>)
    ensures r == AnchorTree(env, ViewOf(env, db), inner, anchor)
  {
    if anchor in inner { return Ok(inner[anchor]); }
    if anchor == EmptyRoot(env, Sprout) { return Ok(env.emptyTree(Sprout)); }
    if anchor in db.sproutAnchors { return Ok(db.sproutAnchors[anchor]); }
    return Err(AnchorNotFound);
  }

  method CheckJoinSplits(env: Env, db: Db, js: seq<JoinSplit>, seen: set<(Pool, Hash)>, start: i64)
    returns (r: Result<(set<(Pool, Hash)>, i64)>)
    requires db.nulls !! seen
    ensures var spec := JoinSplits(env, ViewOf(env, db), js, db.nulls + seen, map[], start);
            if r.Err? then spec == Err(r.error)
            else spec == Ok((db.nulls + r.value.0, r.value.1)) && db.nulls !! r.value.0
  {
    hide AddNullifiers; hide AppendAll; hide AnchorTree; hide ViewOf;
    ghost var view := ViewOf(env, db);
    SeesNulls(env, db);
    ghost var spec := JoinSplits(env, view, js, db.nulls + seen, map[], start);
    var s, sprout: i64 := seen, start;
    var inner: map<Hash, Bytes> := map[];
    assert js[0..] == js;
    for i := 0 to |js|
      invariant db.nulls !! s
      invariant spec == JoinSplits(env, view, js[i..], db.nulls + s, inner, sprout)
    {
      assert js[i..][0] == js[i] && js[i..][1..] == js[i + 1..];
      if !InI64(sprout + js[i].vpubOld) { return Err(ValueOutOfRange); }
      if !InI64(sprout + js[i].vpubOld - js[i].vpubNew) { return Err(ValueOutOfRange); }
      var s' := SeeNullifiers(db.nulls, s, Sprout, js[i].nullifiers);
      if s'.Err? { return Err(s'.error); }
      var base := FindAnchor(env, db, inner, js[i].anchor);
      if base.Err? { return Err(base.error); }
      var grown := AppendCommitments(env, Sprout, base.value, js[i].commitments);
      if grown.Err? { return Err(grown.error); }
      s, sprout, inner := s'.value, sprout + js[i].vpubOld - js[i].vpubNew,
          inner[env.root(Sprout, grown.value) := grown.value];
    }
    return Ok((s, sprout));
  }

  lemma SeesNulls(env: Env, db: Db)
    ensures ViewOf(env, db).nulls == db.nulls
  {
  }

  method CheckSpends(env: Env, db: Db, spends: seq<ShieldedSpend>, seen: set<(Pool, Hash)>)
    returns (r: Result<set<(Pool, Hash)>>)
    requires db.nulls !! seen
    ensures var spec := Spends(env, ViewOf(env, db), spends, db.nulls + seen);
            if r.Err? then spec == Err(r.error) else spec == Ok(db.nulls + r.value) && db.nulls !! r.value
  {
    ghost var view := ViewOf(env, db);
    ghost var spec := Spends(env, view, spends, db.nulls + seen);
    SeesNulls(env, db);
    hide AddNullifiers;
    var s := seen;
    assert spends[0..] == spends;
    for i := 0 to |spends|
      invariant db.nulls !! s
      invariant spec == Spends(env, view, spends[i..], db.nulls + s)
    {
      assert spends[i..][0] == spends[i] && spends[i..][1..] == spends[i + 1..];
      var s' := SeeNullifiers(db.nulls, s, Sapling, [spends[i].nullifier]);
      if s'.Err? { return Err(s'.error); }
      if spends[i].anchor != EmptyRoot(env, Sapling) && spends[i].anchor !in db.saplingAnchors {
        return Err(AnchorNotFound);
      }
      s := s'.value;
    }
    return Ok(s);
  }
}
