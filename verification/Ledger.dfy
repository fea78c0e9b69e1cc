/** The columns that follow transparent coins: unspent outputs, the spent index, the
    address outpoint and delta indexes and the transaction index, as one keyed store with
    a batch of writes applied in order. */
module Ledger {
  import opened Basics
  import opened Undo

  datatype Key =
    | Utxo(o: OutPoint)
    | Spent(o: OutPoint)
    | AddrOut(script: Hash, o: OutPoint)
    | Delta(script: Hash, height: nat, txIndex: nat, txid: Hash, index: nat, spending: bool)
    | TxAt(txid: Hash)

  datatype Value =
    | Coin(entry: UtxoEntry)
    | SpentBy(txid: Hash, input: nat, height: nat, satoshis: int, addrType: nat, addrHash: Bytes)
    | Mark
    | Amount(satoshis: int)
    | Location(location: nat, index: nat)

  type Store = map<Key, Value>

  datatype Op = Put(key: Key, value: Value) | Del(key: Key)

  function ApplyOp(s: Store, op: Op): (t: Store) {
    match op
    case Put(k, v) => s[k := v]
    case Del(k) => s - {k}
  }

  /** A batch takes effect in order, so the last write to a key wins. */
  function Apply(s: Store, ops: seq<Op>): (t: Store) {
    if ops == [] then s else ApplyOp(Apply(s, ops[..|ops| - 1]), ops[|ops| - 1])
  }

  function Keys(ops: seq<Op>): (ks: set<Key>) {
    set i | 0 <= i < |ops| :: ops[i].key
  }

  lemma ApplySnoc(s: Store, ops: seq<Op>, op: Op)
    ensures Apply(s, ops + [op]) == ApplyOp(Apply(s, ops), op)
  {
    assert (ops + [op])[..|ops|] == ops;
  }

  lemma ApplyOne(s: Store, a: Op)
    ensures Apply(s, [a]) == ApplyOp(s, a)
  {
    assert [a] == [] + [a];
    ApplySnoc(s, [], a);
  }

  /** A batch made of an optional write, a write and a group of writes. */
  lemma ApplyParts(s: Store, a: seq<Op>, b: seq<Op>, c: seq<Op>, d: seq<Op>)
    ensures Apply(s, a + b + c + d) == Apply(Apply(Apply(Apply(s, a), b), c), d)
  {
    ApplyConcat(s, a, b);
    ApplyConcat(s, a + b, c);
    ApplyConcat(s, a + b + c, d);
  }

  lemma {:induction false} ApplyConcat(s: Store, a: seq<Op>, b: seq<Op>)
    ensures Apply(s, a + b) == Apply(Apply(s, a), b)
  {
    if b == [] {
      assert a + b == a;
    } else {
      var front := b[..|b| - 1];
      ApplyConcat(s, a, front);
      assert (a + b)[..|a + b| - 1] == a + front;
    }
  }

  lemma {:induction false} ApplyFrame(s: Store, ops: seq<Op>, k: Key)
    requires k !in Keys(ops)
    ensures k in Apply(s, ops) <==> k in s
    ensures k in s ==> Apply(s, ops)[k] == s[k]
  {
    if ops != [] {
      var front := ops[..|ops| - 1];
      assert forall x :: x in Keys(front) ==> x in Keys(ops);
      ApplyFrame(s, front, k);
      assert ops[|ops| - 1].key in Keys(ops);
    }
  }

  predicate DelsOnly(ops: seq<Op>) {
    forall i :: 0 <= i < |ops| ==> ops[i].Del?
  }

  /** A batch of deletions removes exactly its keys. */
  lemma {:induction false} ApplyDels(s: Store, ops: seq<Op>)
    requires DelsOnly(ops)
    ensures Apply(s, ops) == s - Keys(ops)
  {
    if ops != [] {
      var front := ops[..|ops| - 1];
      var last := ops[|ops| - 1];
      ApplyDels(s, front);
      assert Keys(ops) == Keys(front) + {last.key};
    }
  }

  /** Whatever a batch writes on absent keys is undone by deleting those keys, in any order. */
  lemma DelsUndo(s: Store, ops: seq<Op>, undo: seq<Op>)
    requires DelsOnly(undo)
    requires Keys(undo) == Keys(ops)
    requires s.Keys !! Keys(ops)
    ensures Apply(Apply(s, ops), undo) == s
  {
    var t := Apply(s, ops);
    ApplyDels(t, undo);
    forall k ensures k in t - Keys(undo) <==> k in s
             ensures k in s ==> (t - Keys(undo))[k] == s[k]
    {
      if k !in Keys(ops) {
        ApplyFrame(s, ops, k);
      }
    }
    assert t - Keys(undo) == s;
  }
}
