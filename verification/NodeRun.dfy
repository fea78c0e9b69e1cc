/** The chain state with its payments cache: which nodes every block pays, over any run of connects,
    disconnects and restarts. */
module NodeRun {
  import opened Basics
  import opened Undo
  import opened Ledger
  import opened Chain
  import opened Sequential
  import opened Room
  import opened Rewind
  import opened Validate
  import opened ActiveChain
  import opened Sizes
  import opened Linked
  import opened ConnectBlock
  import opened Disconnect
  import opened ChainRun
  import opened Expiry
  import opened Payees
  import opened Payments
  import opened Fairness
  import opened Records
  import opened NodeChain
  import opened Payouts

  type Choice = (int, int) -> Option<OutPoint>

  /** Block `h` pays, tier by tier, the nodes that had waited longest before it; below the height of
      the first payments it pays none. */
  ghost predicate DueAt(env: Env, np: NodeParams, start: int, links: Links, next: Choice, h: nat)
    requires h < |links|
  {
    Replay(env, links[..h]).Ok? && if h == 0 || h < start then links[h].paid == []
        else Scheduled(env, np, links, next, h)
  }

  /** Every block marked in `due` pays the nodes that had waited longest. */
  ghost predicate AllDue(env: Env, np: NodeParams, start: int, links: Links, next: Choice, due: seq<bool>) {
    |due| == |links| && forall h :: 0 <= h < |links| && due[h] ==> DueAt(env, np, start, links, next, h)
  }

  /** What is true of a block does not depend on later ones. */
  lemma DuePrefix(env: Env, np: NodeParams, start: int, links: Links, links': Links, next: Choice, next': Choice,
                  h: nat)
    requires h < |links| && h < |links'| && links[..h] == links'[..h] && links[h] == links'[h]
    requires forall tier :: next(h, tier) == next'(h, tier)
    requires DueAt(env, np, start, links, next, h)
    ensures DueAt(env, np, start, links', next', h)
  {
    hide IsNext; hide Replay;
    if h != 0 && h >= start {
      assert Scheduled(env, np, links, next, h);
      var view := State(env, links, h);
      forall tier | 1 <= tier <= 3 ensures IsNext(np, view.nodes, view.ledger, tier, h - 1, next'(h, tier)) {
        assert IsNext(np, view.nodes, view.ledger, tier, h - 1, next(h, tier));
      }
    }
  }

  // ---- the payouts of a block ----

  /** What a payout is made of: where payments start, the amount of a tier, the script a node is paid
      to, and the fund's script once it is active. */
  datatype PayRules = PayRules(
    start: int, share: (nat, int) -> i64, script: (UtxoEntry, Meta) -> Option<Bytes>, dev: nat -> Option<Bytes>)

  datatype Payout = Payout(tier: int, o: OutPoint, out: TxOut)

  function ScriptOf(rules: PayRules, db: Db, o: OutPoint): (s: Option<Bytes>) {
    if o in db.nodes && Utxo(o) in db.ledger && db.ledger[Utxo(o)].Coin?
    then rules.script(db.ledger[Utxo(o)].entry, MetaOf(db.nodes[o])) else None
  }

  function Pay(rules: PayRules, db: Db, h: nat, tier: int, pick: Option<OutPoint>): (r: Result<seq<Payout>>) {
    if pick.None? then Ok([])
    else if ScriptOf(rules, db, pick.value).None? then Err(NoPayeeScript)
    else Ok([Payout(tier, pick.value, TxOut(rules.share(h, tier), ScriptOf(rules, db, pick.value).value))])
  }

  /** The payouts to the chosen nodes, tier by tier. */
  function PayAll(rules: PayRules, db: Db, h: nat, picks: seq<Option<OutPoint>>): (r: Result<seq<Payout>>) {
    if picks == [] then Ok([])
    else
      var before :- PayAll(rules, db, h, picks[..|picks| - 1]);
      var last :- Pay(rules, db, h, |picks|, picks[|picks| - 1]);
      Ok(before + last)
  }

  function Outs(list: seq<Payout>): (outs: seq<TxOut>)
    ensures |outs| == |list| && forall i :: 0 <= i < |list| ==> outs[i] == list[i].out
  {
    seq<TxOut>(|list|, i requires 0 <= i < |list| => list[i].out)
  }

  function Nodes(list: seq<Payout>): (s: seq<OutPoint>)
    ensures |s| == |list| && forall i :: 0 <= i < |list| ==> s[i] == list[i].o
  {
    seq<OutPoint>(|list|, i requires 0 <= i < |list| => list[i].o)
  }

  function Flat(picks: seq<Option<OutPoint>>): (s: seq<OutPoint>) {
    if picks == [] then [] else Flat(picks[..|picks| - 1]) + Listed(picks[|picks| - 1])
  }

  lemma {:induction false} PaidNodes(rules: PayRules, db: Db, h: nat, picks: seq<Option<OutPoint>>)
    requires PayAll(rules, db, h, picks).Ok?
    ensures Nodes(PayAll(rules, db, h, picks).value) == Flat(picks) && |Flat(picks)| <= |picks|
  {
    if picks != [] { PaidNodes(rules, db, h, picks[..|picks| - 1]); }
  }

  lemma FlatThree(picks: seq<Option<OutPoint>>)
    requires |picks| == 3
    ensures Flat(picks) == Listed(picks[0]) + Listed(picks[1]) + Listed(picks[2])
  {
    assert picks[..2][..1] == picks[..1] && picks[..1][..0] == [];
    assert Flat(picks[..1]) == Listed(picks[0]);
  }

  /** The nodes chosen for the tiers from the first on are the next of a state. */
  ghost predicate AllNext(np: NodeParams, db: Db, p: u32, picks: seq<Option<OutPoint>>) {
    forall i :: 0 <= i < |picks| ==> IsNext(np, db.nodes, db.ledger, i + 1, p, picks[i])
  }

  ghost predicate AllPayable(np: NodeParams, db: Db, p: int, picks: seq<Option<OutPoint>>) {
    forall i :: 0 <= i < |picks| && picks[i].Some? ==>
      0 <= p < U32_LIMIT && Eligible(np, db.nodes, db.ledger, i + 1, p, picks[i].value)
  }

  lemma PickMore(rules: PayRules, db: Db, h: nat, picks: seq<Option<OutPoint>>, o: Option<OutPoint>, list: seq<Payout>)
    requires PayAll(rules, db, h, picks) == Ok(list)
    ensures PayAll(rules, db, h, picks + [o]) ==
            if o.None? then Ok(list)
            else if ScriptOf(rules, db, o.value).None? then Err(NoPayeeScript)
            else Ok(list + [Payout(|picks| + 1, o.value, TxOut(rules.share(h, |picks| + 1),
                                                               ScriptOf(rules, db, o.value).value))])
    ensures Flat(picks + [o]) == Flat(picks) + Listed(o)
  {
    hide ScriptOf;
    assert (picks + [o])[..|picks|] == picks;
    assert list + [] == list;
  }

  lemma NextMore(np: NodeParams, db: Db, p: u32, picks: seq<Option<OutPoint>>, o: Option<OutPoint>)
    requires AllNext(np, db, p, picks) && IsNext(np, db.nodes, db.ledger, |picks| + 1, p, o)
    ensures AllNext(np, db, p, picks + [o])
  {
    hide IsNext;
  }

  lemma PayableMore(np: NodeParams, db: Db, p: int, picks: seq<Option<OutPoint>>, o: Option<OutPoint>)
    requires AllPayable(np, db, p, picks)
    requires o.Some? ==> 0 <= p < U32_LIMIT && Eligible(np, db.nodes, db.ledger, |picks| + 1, p, o.value)
    ensures AllPayable(np, db, p, picks + [o])
  {
    hide Eligible;
  }

  function Noted(next: Choice, h: nat, picks: seq<Option<OutPoint>>): (r: Choice) {
    (x: int, tier: int) => if x == h && 1 <= tier <= |picks| then picks[tier - 1] else next(x, tier)
  }

  lemma NodesViewed(env: Env, db: Db)
    ensures ViewOf(env, db).nodes == db.nodes && ViewOf(env, db).ledger == db.ledger
  {
  }

  lemma DueNew(env: Env, np: NodeParams, start: int, db: Db, links: Links, next: Choice, link: Link, links': Links,
               picks: seq<Option<OutPoint>>)
    requires links' == links + [link] && Replay(env, links) == Ok(ViewOf(env, db))
    requires if |links| == 0 || |links| < start then link.paid == []
             else |picks| == 3 && link.paid == Flat(picks) && AllNext(np, db, |links| - 1, picks)
    ensures DueAt(env, np, start, links', Noted(next, |links|, picks), |links|)
  {
    hide IsNext; hide Replay; hide Flat; hide ViewOf;
    var view := ViewOf(env, db);
    NodesViewed(env, db);
    assert links'[..|links|] == links;
    if |links| != 0 && |links| >= start {
      var now := Noted(next, |links|, picks);
      FlatThree(picks);
      forall tier | 1 <= tier <= 3 ensures IsNext(np, view.nodes, view.ledger, tier, |links| - 1, now(|links|, tier)) {
        assert picks[tier - 1] == now(|links|, tier);
      }
    }
  }

  /** The node at `c` could be paid in `tier` by every block from `first` to `last`. */
  ghost predicate Waits(env: Env, np: NodeParams, links: Links, tier: int, c: OutPoint, first: nat, last: nat) {
    forall h :: first <= h <= last ==>
      1 <= h <= |links| && Replay(env, links[..h]).Ok? && EligibleAt(env, np, links, tier, h, c)
  }

  /** The block subsidy is a 64-bit number. */
  ghost predicate SmallSubsidies(env: Env) { forall h: nat :: InI64(env.subsidy(h)) }

  /** How connecting an admitted block ends: it needs a script for every payee, a coinbase that makes
      the payouts, and transactions that connect with these payments. */
  ghost predicate Outcome(env: Env, rules: PayRules, db: Db, block: Block, h: u32, location: nat,
                          picks: seq<Option<OutPoint>>, r: Result<()>)
    requires block.txs != [] && InI64(env.subsidy(h))
  {
    var list := PayAll(rules, db, h, picks);
    if list.Err? then r == Err(list.error)
    else if !PayoutsAccepted(block.txs[0].vout, Outs(list.value), rules.dev(h), env.subsidy(h))
    then r == Err(PayoutMissing)
    else NoClash(db.ledger, block) ==>
           var spec := ConnectView(env, ViewOf(env, db), block, h, location, Nodes(list.value));
           if spec.Err? then r == Err(spec.error) else r.Ok?
  }

  class Node {
    const env: Env
    const np: NodeParams
    const rules: PayRules
    var payments: PaymentState
    ghost var links: Links
    ghost var top: nat
    ghost var next: Choice
    /** Block by block: was it connected with a cache that had seen no disconnect? */
    ghost var due: seq<bool>
    /** The cache has seen no disconnect since it was filled. */
    ghost var straight: bool

    ghost predicate Valid()
      reads this, payments
    {
      && ShortTrees(env) && SmallSubsidies(env) && NodeRules(env, np) && payments.np == np && payments.Coherent()
      && OnChain(env, payments.db, links, top)
      && (straight ==> payments.Valid() && payments.from <= |links| - 1)
      && |due| == |links| && AllDue(env, np, rules.start, links, next, due)
    }

    constructor (env: Env, np: NodeParams, rules: PayRules)
      requires ShortTrees(env) && SmallSubsidies(env) && NodeRules(env, np)
      ensures Valid() && fresh(payments) && links == [] && payments.db == EMPTY_DB && straight
      ensures this.env == env && this.np == np && this.rules == rules
    {
      this.env := env;
      this.np := np;
      this.rules := rules;
      payments := new PaymentState(np, EMPTY_DB, -1);
      links := [];
      top := 0;
      next := (_, _) => None;
      due := [];
      straight := true;
      new;
      EmptyOnChain(env);
    }

    /** The node is started again on the same store: the cache is filled anew. */
    method Restart()
      requires Valid()
      modifies this
      ensures Valid() && fresh(payments) && straight && payments.db == old(payments.db)
      ensures links == old(links) && top == old(top) && due == old(due) && next == old(next)
    {
      hide OnChain; hide NodeRules; hide ShortTrees; hide Sane; hide AllDue; hide Agrees; hide Reflects; hide Complete;
      hide Filed;
      SaneOnChain(env, np, payments.db, links, top);
      payments := new PaymentState(np, payments.db, |links| - 1);
      straight := true;
    }

    /** `expected_fluxnode_payouts`: the next payee of each tier, from the height payments start. */
    method ExpectedPayouts(h: nat) returns (r: Result<seq<Payout>>, ghost picks: seq<Option<OutPoint>>)
      requires payments.Coherent() && h <= I32_MAX
      modifies payments
      ensures payments.Coherent() && payments.db == old(payments.db)
      ensures r == PayAll(rules, payments.db, h, picks) && |picks| <= 3
              && (r.Ok? ==> |picks| == if h < rules.start then 0 else 3)
      ensures AllPayable(payments.np, payments.db, h - 1, picks) && (h == 0 ==> Flat(picks) == [])
      ensures old(payments.Valid()) && old(payments.from) <= h - 1 ==>
                payments.Valid() && payments.from <= h - 1 && (0 < h ==>
                                                                 AllNext(payments.np, payments.db, h - 1, picks))
    {
      hide IsNext; hide Eligible; hide Sane; hide Agrees; hide Reflects; hide Complete; hide Filed; hide NextHeld;
      hide MetaOf; hide PayAll; hide Flat; hide AllNext; hide AllPayable;
      picks := [];
      NoPicks(payments.np, rules, payments.db, h);
      if h < rules.start { return Ok([]), picks; }
      ghost var good := payments.Valid() && payments.from <= h - 1;
      var list := [];
      for tier := 1 to 4
        invariant payments.Coherent() && payments.db == old(payments.db) && |picks| == tier - 1
        invariant PayAll(rules, payments.db, h, picks) == Ok(list) && (h == 0 ==> Flat(picks) == [])
        invariant AllPayable(payments.np, payments.db, h - 1, picks)
        invariant good ==>
                    payments.Valid() && payments.from <= h - 1
                        && (0 < h ==> AllNext(payments.np, payments.db, h - 1, picks))
      {
        var o, meta := payments.NextPayee(tier, h - 1);
        PickMore(rules, payments.db, h, picks, o, list);
        PayableMore(payments.np, payments.db, h - 1, picks, o);
        if good && 0 < h { NextMore(payments.np, payments.db, h - 1, picks, o); }
        picks := picks + [o];
        if o.Some? {
          IsPayable(payments.np, payments.db, tier, h - 1, o.value);
          var script := rules.script(payments.db.ledger[Utxo(o.value)].entry, meta.value);
          if script.None? { return Err(NoPayeeScript), picks; }
          list := list + [Payout(tier, o.value, TxOut(rules.share(h, tier), script.value))];
        }
      }
      return Ok(list), picks;
    }

    /** Connects a block whose coinbase makes the expected payouts, and commits its batch to store and
        cache. As long as no block has been disconnected, the payees are those a scan of all records
        would choose; they can always be paid. */
    method Connect(block: Block, h: nat, location: nat) returns (r: Result<()>, ghost picks: seq<Option<OutPoint>>)
      requires Valid() && |links| < I32_MAX && h <= I32_MAX && HashesBind(env, payments.db, links, block, location)
      modifies this, payments
      ensures payments == old(payments) && straight == old(straight)
      ensures Admit(env, old(payments.db), block, h).Err? ==> r == Err(Admit(env, old(payments.db), block, h).error)
      ensures Admit(env, old(payments.db), block, h).Ok? ==>
                && block.txs != [] && Outcome(env, rules, old(payments.db), block, h, location, picks, r)
                && AllPayable(np, old(payments.db), h - 1, picks)
                && (straight && 0 < h ==> AllNext(np, old(payments.db), h - 1, picks))
      ensures r.Err? ==> Valid() && payments.db == old(payments.db) && links == old(links) && due == old(due)
      ensures r.Ok? ==> && |picks| == (if h < rules.start then 0 else 3) && due == old(due) + [straight]
                        && links == old(links) + [Link(block, location, Flat(picks))]
      ensures r.Ok? ==>
                TipColumns(old(payments.db), payments.db, block, h, location,
                           Admit(env, old(payments.db), block, h).value)
      ensures r.Ok? && BlockIds(block) !! Ids(old(links)) ==> Valid()
    {
      hide OnChain; hide HashesBind; hide Admit; hide ConnectView; hide ViewOf; hide ConnectedDb; hide Commit;
      hide NoClash; hide Replay; hide ShortTrees; hide NodeRules; hide TipColumns; hide Keeping; hide Ids;
      hide BlockIds; hide Sane; hide AllDue; hide AllNext; hide Agrees; hide Reflects; hide Complete; hide Filed;
      hide AllPayable; hide FiledPuts; hide Forward; hide Flat; hide PayAll; hide PayoutsAccepted;
      picks := [];
      ghost var db := payments.db;
      var admitted := CheckAdmit(env, payments.db, block, h);
      if admitted.Err? { return Err(admitted.error), picks; }
      AdmittedPlace(env, db, links, top, block, h, location);
      AdmittedBlock(env, db, block, h);
      var list;
      list, picks := ExpectedPayouts(h);
      if list.Err? { return Err(list.error), picks; }
      var ok := CheckPayouts(block.txs[0].vout, Outs(list.value), rules.dev(h), env.subsidy(h));
      if !ok { return Err(PayoutMissing), picks; }
      PaidNodes(rules, db, h, picks);
      var paid := Nodes(list.value);
      var batch := ConnectTip(env, payments.db, block, h, location, paid);
      if batch.Err? { return Err(batch.error), picks; }
      ghost var link := Link(block, location, paid);
      ghost var links': Links := links + [link];
      ghost var top' := if top > |links| then top else |links| + 1;
      if BlockIds(block) !! Ids(links) {
        Extends(env, np, db, links, links', top, top', block, h, location, paid, batch);
        OnChainView(env, db, links, top);
        DueGrows(env, np, rules.start, db, links, links', next, link, picks, due, straight);
      }
      Advance(batch.value, h, links', top', Noted(next, h, picks));
      return Ok(()), picks;
    }

    /** Commits the batch of a connected block. */
    method Advance(batch: Batch, h: nat, ghost links': Links, ghost top': nat, ghost next': Choice)
      requires Valid() && |links'| == |links| + 1 == h + 1 && Keeping(payments.db, batch)
      modifies this, payments
      ensures payments == old(payments) && straight == old(straight) && payments.db == Commit(old(payments.db), batch)
      ensures links == links' && top == top' && next == next' && due == old(due) + [straight]
      ensures && OnChain(env, payments.db, links, top) && Forward(old(payments.db), payments.db)
              && Sane(np, payments.db.nodes, payments.db.ledger, h) && AllDue(env, np, rules.start, links, next, due)
              ==> Valid()
    {
      hide OnChain; hide Commit; hide ShortTrees; hide NodeRules; hide Keeping; hide Sane; hide AllDue; hide Agrees;
      hide Reflects; hide Complete; hide Filed; hide FiledPuts; hide Forward; hide Followed;
      KeepingFiled(payments.db, batch);
      payments.CommitBatch(batch, h);
      links := links';
      top := top';
      next := next';
      due := due + [straight];
    }

    /** Disconnects the tip. The cache stays an index of stored records; that it is right is not known
        until the node is restarted. */
    method Disconnect(hash: Hash) returns (r: Result<()>)
      requires Valid()
      modifies this, payments
      ensures Valid() && payments == old(payments) && top == old(top)
      ensures r.Err? ==>
                payments.db == old(payments.db) && links == old(links) && due == old(due) && straight == old(straight)
      ensures r.Ok? ==>
                links == WithoutTip(old(links)) && |old(due)| > 0 && due == old(due)[..|old(due)| - 1] && !straight
      ensures r.Ok? <==> TipHash(old(links)) == Some(hash) && hash in old(payments.db).undos
      ensures r.Ok? ==>
                && |links| < |old(links)| && payments.initialized == old(payments.initialized)
                && SameOutside(Written(old(links)[|links|]), old(payments.Now()), payments.Now(), old(payments.db),
                               payments.db)
    {
      hide OnChain; hide FindTarget; hide DisconnectView; hide ViewOf; hide DisconnectedDb; hide Commit; hide Replay;
      hide ShortTrees; hide Step; hide NodeRules; hide Sane; hide AllDue; hide Agrees; hide Reflects; hide Complete;
      hide Filed; hide FiledPuts; hide Forward; hide RecordsFiled; hide Within; hide UndoKeys; hide Written;
      hide SameOutside; hide Followed;
      ghost var db := payments.db;
      TargetFound(env, db, links, top, hash);
      var batch := DisconnectTip(env, payments.db, hash);
      if links != [] { TipTakenBack(env, db, links, top); TipHeader(env, db, links, top); }
      if batch.Err? { return Err(batch.error); }
      ghost var n := |links| - 1;
      DisconnectedParts(env, db, Commit(db, batch.value), hash, Replay(env, links[..n]).value);
      DisconnectStep(env, db, links, top, Commit(db, batch.value));
      TipWritten(env, np, db, links, top, payments.Now(), batch.value);
      DueShrinks(env, np, rules.start, links, next, due);
      payments.CommitBatch(batch.value, n);
      links := links[..n];
      due := due[..n];
      straight := false;
      return Ok(());
    }

    /** The cache is not right across a disconnect. Once the tip is taken back, a node whose coin it
        spent and whose record it did not write has its coin again and its record as it was; if the
        cache had dropped the node, it is still dropped, and no payee asked of the cache is then right
        where that node is next. */
    method DisconnectForgets(hash: Hash, ghost c: OutPoint, ghost k: nat, ghost x: nat) returns (r: Result<()>)
      requires Valid() && payments.initialized && TipHash(links) == Some(hash) && hash in payments.db.undos
      requires c in payments.db.nodes && c !in payments.metas
      requires links != [] && SpendsAt(links[|links| - 1].block, k, x, c) && c !in Written(links[|links| - 1])
      modifies this, payments
      ensures r.Ok? && Valid() && payments == old(payments) && links == WithoutTip(old(links))
      ensures Lookup(payments.db.nodes, c) == old(Lookup(payments.db.nodes, c))
      ensures Gone(payments.db.ledger, old(payments.db.ledger), c) && c !in payments.metas
      ensures forall tier: int, p: u32 :: IsNext(np, payments.db.nodes, payments.db.ledger, tier, p, Some(c)) ==>
                !payments.NextCached(tier, p)
    {
      hide OnChain; hide NodeRules; hide ShortTrees; hide Sane; hide AllDue; hide Agrees; hide Reflects; hide Complete;
      hide Filed; hide SameOutside; hide Written; hide IsNext; hide NextHeld; hide Gone;
      ghost var db, cache, was := payments.db, payments.Now(), links;
      r := Disconnect(hash);
      OutsideMeans(Written(was[|links|]), cache, payments.Now(), db, payments.db, c);
      SpentByTip(env, np, db, was, payments.db, top, c, k, x);
      forall tier: int, p: u32 | IsNext(np, payments.db.nodes, payments.db.ledger, tier, p, Some(c))
        ensures !payments.NextCached(tier, p)
      {
        NotHeld(np, payments.metas, payments.db, c, tier, p);
      }
    }

    /** Who has expired, of the node as it runs: a stored node that no block has started or confirmed, to
        the tip, for the whole gap allowed at some height, and no other. */
    lemma OverdueRun(c: OutPoint)
      requires Valid() && c in payments.db.nodes && |links| <= I32_MAX
      ensures Overdue(np.ups, |links| - 1, payments.db.nodes[c].lastConfirmedHeight) <==>
                exists x: u32 :: x < |links| && Silent(links, c, x - CountAt(np.ups, x))
    {
      hide NodeRules; hide ShortTrees; hide Sane; hide Agrees; hide Reflects; hide Complete; hide Filed; hide Replay;
      hide OnChain; hide Overdue; hide Silent; hide AllDue; hide ViewOf;
      ValidOnChain(env, payments.db, links, top);
      RecordsViewed(env, payments.db, links, top);
      OverdueExactly(env, np.ups, links, c);
    }

    /** Fairness, of the node as it runs: while the cache has seen no disconnect, between two payments
        to one node of a tier every other node of the tier that stays eligible is paid. */
    lemma FairRun(tier: int, a: OutPoint, b: OutPoint, first: nat, second: nat)
      requires Valid() && 1 <= tier <= 3 && a != b && 1 <= first < second < |links| && rules.start <= first
      requires |due| == |links| && forall h :: first <= h <= second ==> due[h]
      requires Waits(env, np, links, tier, b, first, second)
      requires Waits(env, np, links, tier, a, first, first) && a in links[first].paid
      requires Waits(env, np, links, tier, a, second, second) && a in links[second].paid
      ensures exists h :: first < h < second && b in links[h].paid
    {
      hide NodeRules; hide ShortTrees; hide Sane; hide Agrees; hide Reflects; hide Complete; hide Filed;
      hide EligibleAt; hide Scheduled; hide DistinctCollaterals; hide Replay;
      ValidOnChain(env, payments.db, links, top);
      forall h | first <= h <= second ensures Scheduled(env, np, links, next, h) {
        assert DueAt(env, np, rules.start, links, next, h);
      }
      PaidIn(env, np, links, next, first, tier, a);
      PaidIn(env, np, links, next, second, tier, a);
      Fair(env, np, links, next, tier, a, b, first, second);
      var h :| first < h < second && next(h, tier) == Some(b);
      PaidIn(env, np, links, next, h, tier, b);
    }
  }

  lemma NoPicks(np: NodeParams, rules: PayRules, db: Db, h: nat)
    ensures PayAll(rules, db, h, []) == Ok([]) && Flat([]) == [] && AllPayable(np, db, h - 1, [])
    ensures 0 < h < U32_LIMIT ==> AllNext(np, db, h - 1, [])
  {
  }

  lemma RecordsViewed(env: Env, db: Db, links: Links, top: nat)
    requires OnChain(env, db, links, top)
    ensures Replay(env, links).Ok? && Replay(env, links).value.nodes == db.nodes
  {
  }

  lemma IsPayable(np: NodeParams, db: Db, tier: int, p: u32, o: OutPoint)
    requires Eligible(np, db.nodes, db.ledger, tier, p, o)
    ensures o in db.nodes && Utxo(o) in db.ledger && db.ledger[Utxo(o)].Coin?
  {
  }

  lemma ValidOnChain(env: Env, db: Db, links: Links, top: nat)
    requires OnChain(env, db, links, top)
    ensures Replay(env, links).Ok? && ValidLinks(links)
  {
    hide Replay; hide Stored; hide NewRoots; hide HeaderTree; hide DistinctChain; hide BlockSize; hide MerkleRight;
    hide DistinctCollaterals;
    forall i | 0 <= i < |links| ensures DistinctCollaterals(links[i].block.txs) { assert GoodLink(env, links[i]); }
  }

  lemma SaneOnChain(env: Env, np: NodeParams, db: Db, links: Links, top: nat)
    requires NodeRules(env, np) && OnChain(env, db, links, top)
    ensures Sane(np, db.nodes, db.ledger, |links| - 1) && Filed(db.nodes)
  {
    hide NodeRules; hide Replay; hide Stored; hide NewRoots; hide HeaderTree; hide DistinctChain; hide GoodLink;
    hide RecordsRight;
    ReplayRight(env, np, links);
    RightIsSane(np, Ids(links), ViewOf(env, db), |links| - 1);
    hide StartedRight;
  }

  /** A connected block of new transactions: the chain grows, no coin comes back, and the records are
      those of a chain. */
  lemma Extends(env: Env, np: NodeParams, db: Db, links: Links, links': Links, top: nat, top': nat, block: Block,
                h: u32, location: nat, paid: seq<OutPoint>, batch: Result<Batch>)
    requires NodeRules(env, np) && OnChain(env, db, links, top) && HashesBind(env, db, links, block, location)
    requires h == |links| < I32_MAX && block.txs != [] && BlockIds(block) !! Ids(links) && |paid| <= 3
    requires links' == links + [Link(block, location, paid)] && top' == if top > |links| then top else |links| + 1
    requires Admit(env, db, block, h).Ok? && batch.Ok?
    requires NoClash(db.ledger, block) ==> ConnectAgrees(env, db, block, h, location, Admit(env, db, block, h).value,
                                                         ConnectView(env, ViewOf(env, db), block, h, location, paid),
                                                             batch)
    ensures var after := Commit(db, batch.value);
            OnChain(env, after, links', top') && Forward(db, after) && Sane(np, after.nodes, after.ledger, h)
  {
    hide OnChain; hide HashesBind; hide Admit; hide ConnectView; hide ViewOf; hide ConnectedDb; hide Commit;
    hide NoClash; hide Replay; hide NodeRules; hide Ids; hide BlockIds; hide Sane; hide Forward; hide DistinctChain;
    AdmittedIsReady(env, db, links, top, block, h, location);
    var c := ConnectView(env, ViewOf(env, db), block, h, location, paid).value;
    var after := Commit(db, batch.value);
    ConnectStep(env, db, links, links', top, block, h, location, paid, Admit(env, db, block, h).value, c, after);
    ConnectedParts(env, db, after, block, h, location, Admit(env, db, block, h).value, c);
    OnChainView(env, db, links, top);
    OnChainDistinct(env, db, links, top);
    BlockForward(env, np, links, Link(block, location, paid), db, after);
    SaneOnChain(env, np, after, links', top');
  }

  lemma DueGrows(env: Env, np: NodeParams, start: int, db: Db, links: Links, links': Links, next: Choice, link: Link,
                 picks: seq<Option<OutPoint>>, due: seq<bool>, straight: bool)
    requires links' == links + [link] && Replay(env, links) == Ok(ViewOf(env, db))
             && AllDue(env, np, start, links, next, due)
    requires straight ==> if |links| == 0 || |links| < start then link.paid == []
                          else |picks| == 3 && link.paid == Flat(picks) && AllNext(np, db, |links| - 1, picks)
    ensures AllDue(env, np, start, links', Noted(next, |links|, picks), due + [straight])
  {
    hide DueAt; hide Replay; hide ViewOf; hide AllNext; hide Flat;
    var next' := Noted(next, |links|, picks);
    forall h | 0 <= h < |links'| && (due + [straight])[h] ensures DueAt(env, np, start, links', next', h) {
      if h < |links| {
        assert links'[..h] == links[..h];
        DuePrefix(env, np, start, links, links', next, next', h);
      } else {
        DueNew(env, np, start, db, links, next, link, links', picks);
      }
    }
  }

  lemma DueShrinks(env: Env, np: NodeParams, start: int, links: Links, next: Choice, due: seq<bool>)
    requires links != [] && AllDue(env, np, start, links, next, due)
    ensures AllDue(env, np, start, links[..|links| - 1], next, due[..|links| - 1])
  {
    hide DueAt;
    forall h | 0 <= h < |links| - 1 && due[h] ensures DueAt(env, np, start, links[..|links| - 1], next, h) {
      assert links[..|links| - 1][..h] == links[..h];
      DuePrefix(env, np, start, links, links[..|links| - 1], next, next, h);
    }
  }

  /** Taking the tip back touches no record, stored or cached, but those the tip wrote. */
  lemma TipWritten(env: Env, np: NodeParams, db: Db, links: Links, top: nat, c: Cache, batch: Batch)
    requires NodeRules(env, np) && OnChain(env, db, links, top) && links != [] && |c.byTier| == 3
    requires Step(env, links, |links| - 1).Ok? && var undo := Step(env, links, |links| - 1).value.undo;
             (RecordsFiled(undo) ==> Within(batch, UndoKeys(undo)))
    ensures FiledPuts(batch)
    ensures SameOutside(Written(links[|links| - 1]), c, c, db, Commit(db, batch))
    ensures SameOutside(Written(links[|links| - 1]), c, Followed(c, batch), db, Commit(db, batch))
  {
    hide NodeRules; hide Replay; hide Stored; hide NewRoots; hide HeaderTree; hide GoodLink; hide RecordsRight;
    hide ConnectView; hide RecordsFiled; hide Filed; hide Ids; hide BlockIds; hide Hashes; hide ViewOf; hide Within;
    hide UndoKeys; hide Written; hide Followed; hide Commit;
    var n := |links| - 1;
    ReplayPrefix(env, links, n);
    var before := Replay(env, links[..n]).value;
    ReplayRight(env, np, links[..n]);
    RightIsFiled(np, Ids(links[..n]), before, n - 1);
    BlockUndoWithin(env, before, links[n], n);
    var undo := Step(env, links, n).value.undo;
    WithinFiled(batch, UndoKeys(undo));
    WithinLeaves(c, db, batch, UndoKeys(undo));
  }

  lemma OutsideMeans(keys: set<OutPoint>, c: Cache, d: Cache, db: Db, after: Db, o: OutPoint)
    requires SameOutside(keys, c, d, db, after) && o !in keys
    ensures (o in d.metas <==> o in c.metas) && Lookup(after.nodes, o) == Lookup(db.nodes, o)
  {
  }

  lemma NotHeld(np: NodeParams, metas: map<OutPoint, Meta>, db: Db, c: OutPoint, tier: int, p: u32)
    requires c in db.nodes && c !in metas && IsNext(np, db.nodes, db.ledger, tier, p, Some(c))
    ensures !NextHeld(np, metas, db.nodes, db.ledger, tier, p)
  {
    hide IsNext;
  }

  /** A node's coin that the tip spends was made before the tip, and taking the tip back restores it. */
  lemma SpentByTip(env: Env, np: NodeParams, db: Db, links: Links, back: Db, top: nat, c: OutPoint, k: nat, x: nat)
    requires NodeRules(env, np) && OnChain(env, db, links, top) && links != []
    requires OnChain(env, back, links[..|links| - 1], top) && c in back.nodes
    requires SpendsAt(links[|links| - 1].block, k, x, c)
    ensures Gone(back.ledger, db.ledger, c)
  {
    hide NodeRules; hide Replay; hide Stored; hide NewRoots; hide HeaderTree; hide GoodLink; hide RecordsRight;
    hide ConnectView; hide Ids; hide BlockIds; hide Hashes; hide SpendsAt; hide Gone; hide DistinctChain;
    var n := |links| - 1;
    assert links[..n + 1] == links;
    ReplayPrefix(env, links, n);
    var before := Replay(env, links[..n]).value;
    ReplayRight(env, np, links[..n]);
    RightIsMade(np, Ids(links[..n]), before, n - 1, c);
    LastIsNew(links);
    BlockSpend(env, before, links[n].block, n, links[n].location, links[n].paid, k, x, c);
  }

  lemma RightIsMade(np: NodeParams, ids: set<Hash>, view: View, from: int, c: OutPoint)
    requires RecordsRight(np, ids, view, from) && c in view.nodes
    ensures c.hash in ids
  {
    assert RecordRight(np, ids, view.ledger, c, view.nodes[c], from);
  }

  lemma RightIsFiled(np: NodeParams, ids: set<Hash>, view: View, from: int)
    requires RecordsRight(np, ids, view, from)
    ensures Filed(view.nodes)
  {
    hide StartedRight;
    RightIsSane(np, ids, view, from);
  }
}
