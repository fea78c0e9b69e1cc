/** What a block does to node records, field by field, and which nodes stay alive along a chain. */
module Records {
  import opened Basics
  import opened Undo
  import opened Chain
  import opened Sequential
  import opened Rewind
  import opened Validate
  import opened ActiveChain
  import opened Expiry
  import opened Fairness

  // ---- one block ----

  /** What identifies a node and its collateral. */
  predicate SameNode(a: NodeRecord, b: NodeRecord) {
    && a.collateral == b.collateral && a.tier == b.tier && a.startHeight == b.startHeight
    && a.collateralValue == b.collateralValue && a.operatorKey == b.operatorKey
    && a.collateralKey == b.collateralKey && a.redeemScript == b.redeemScript && a.delegates == b.delegates
  }

  /** A confirmation dates the record and renews its address. The first one, which is not an update,
      confirms it. */
  predicate Confirmed(was: NodeRecord, now: NodeRecord, kind: u8, ip: Bytes, h: u32, paid: bool) {
    && SameNode(was, now) && now.ip == ip && now.lastConfirmedHeight == h
    && (kind == 0 || (kind == 1 && was.confirmedHeight > 0))
    && now.confirmedHeight == (if was.confirmedHeight > 0 then was.confirmedHeight else h)
    && now.lastPaidHeight == (if paid then h else was.lastPaidHeight)
  }

  /** A start makes a new record, of the tier and amount its validation found, that waits for its first
      confirmation. Delegates of an earlier record stay unless they are replaced. */
  predicate Started(was: Option<NodeRecord>, now: NodeRecord, t: NodeTx, meta: StartMeta, h: u32, paid: bool)
    requires t.Start?
  {
    && now.collateral == t.collateral && now.tier == meta.tier && now.collateralValue == meta.value
    && now.startHeight == now.lastConfirmedHeight == h && now.confirmedHeight == 0 && now.ip == []
    && now.lastPaidHeight == (if paid then h else 0)
    && now.operatorKey == t.operatorKey && now.collateralKey == t.collateralKey && now.redeemScript == t.redeemScript
    && now.delegates == match t.delegates
                        case Replace(k) => Some(k)
                        case Clear => None
                        case Keep => if was.Some? then was.value.delegates else None
  }

  /** What a node transaction makes of the record of its collateral. */
  predicate Becomes(t: NodeTx, was: Option<NodeRecord>, now: Option<NodeRecord>, meta: Option<StartMeta>, h: u32,
                    paid: bool) {
    match t
    case Start(_, _, _, _, _) => meta.Some? && now.Some? && Started(was, now.value, t, meta.value, h, paid)
    case Confirm(_, kind, ip) =>
      if was.None? then now == None && !paid else now.Some? && Confirmed(was.value, now.value, kind, ip, h, paid)
  }

  lemma WriteBecomes(t: NodeTx, h: u32, meta: Option<StartMeta>, nodes: map<OutPoint, NodeRecord>)
    requires NodeWrite(t, Lookup(nodes, t.collateral), h, meta).Ok?
    ensures Becomes(t, Lookup(nodes, t.collateral), Lookup(NodeMap(Some(t), h, meta, nodes), t.collateral), meta, h,
                    false)
  {
  }

  /** The transactions that are refused, each with its error. */
  lemma WriteRefused(t: NodeTx, current: Option<NodeRecord>, h: u32, meta: Option<StartMeta>)
    ensures var r := NodeWrite(t, current, h, meta);
            && (r == Err(NodeMetaMissing) <==> t.Start? && meta.None?)
            && (r == Err(ConfirmBeforeInitial) <==>
                  t.Confirm? && t.updateType == 1 && current.Some? && current.value.confirmedHeight == 0)
            && (r == Err(BadUpdateType) <==> t.Confirm? && t.updateType > 1 && current.Some?)
            && (r.Err? ==> r.error in {NodeMetaMissing, ConfirmBeforeInitial, BadUpdateType})
  {
  }

  lemma WriteLeaves(t: NodeTx, h: u32, meta: Option<StartMeta>, nodes: map<OutPoint, NodeRecord>, c: OutPoint)
    requires c != t.collateral
    ensures Lookup(NodeMap(Some(t), h, meta, nodes), c) == Lookup(nodes, c)
  {
  }

  /** One transaction changes the record of its own collateral only. */
  lemma TxLeaves(env: Env, view: View, block: Block, h: u32, location: nat, j: nat, run: Run, c: OutPoint)
    requires j < |block.txs| && StepTx(env, view, block, h, location, j, run).Ok? && !Touches(block.txs[j], c)
    ensures Lookup(StepTx(env, view, block, h, location, j, run).value.nodes, c) == Lookup(run.nodes, c)
  {
    hide StepTx; hide NodeMap; hide Lookup; hide NodeWrite; hide CheckNode;
    var meta := StepNodes(env, view, block, h, location, j, run);
    var t := block.txs[j].node;
    if t.Some? { WriteLeaves(t.value, h, meta, run.nodes, c); } else { SameNodes(h, meta, run.nodes); }
  }

  lemma {:induction false} TxsLeave(env: Env, view: View, block: Block, h: u32, location: nat, n: nat, c: OutPoint)
    requires n <= |block.txs| && StepTxs(env, view, block, h, location, n).Ok?
    requires forall k :: 0 <= k < n ==> !Touches(block.txs[k], c)
    ensures Lookup(StepTxs(env, view, block, h, location, n).value.nodes, c) == Lookup(view.nodes, c)
  {
    hide StepTx; hide Lookup; hide Touches;
    if n > 0 {
      TxsLeave(env, view, block, h, location, n - 1, c);
      TxLeaves(env, view, block, h, location, n - 1, StepTxs(env, view, block, h, location, n - 1).value, c);
    }
  }

  lemma OthersLeave(txs: seq<Tx>, j: nat)
    requires j < |txs| && txs[j].node.Some? && DistinctCollaterals(txs)
    ensures forall k :: 0 <= k < |txs| && k != j ==> !Touches(txs[k], txs[j].node.value.collateral)
  {
  }

  lemma {:induction false} TxsBecome(env: Env, view: View, block: Block, h: u32, location: nat, n: nat, j: nat)
    returns (meta: Option<StartMeta>)
    requires j < n <= |block.txs| && StepTxs(env, view, block, h, location, n).Ok? && DistinctCollaterals(block.txs)
             && block.txs[j].node.Some?
    ensures CheckNode(env, view, block, h, j) == Ok(meta)
    ensures var t := block.txs[j].node.value;
            Becomes(t, Lookup(view.nodes, t.collateral),
                    Lookup(StepTxs(env, view, block, h, location, n).value.nodes, t.collateral), meta, h, false)
  {
    hide StepTx; hide Lookup; hide Touches; hide NodeMap; hide CheckNode; hide Becomes; hide NodeWrite;
    OthersLeave(block.txs, j);
    var run, t := StepTxs(env, view, block, h, location, n - 1).value, block.txs[j].node.value;
    hide DistinctCollaterals;
    if j == n - 1 {
      TxsLeave(env, view, block, h, location, j, t.collateral);
      meta := StepNodes(env, view, block, h, location, j, run);
      WriteBecomes(t, h, meta, run.nodes);
    } else {
      meta := TxsBecome(env, view, block, h, location, n - 1, j);
      TxLeaves(env, view, block, h, location, n - 1, run, t.collateral);
    }
  }

  lemma PaidBecomes(t: NodeTx, was: Option<NodeRecord>, now: NodeRecord, meta: Option<StartMeta>, h: u32)
    requires Becomes(t, was, Some(now), meta, h, false)
    ensures Becomes(t, was, Some(now.(lastPaidHeight := h)), meta, h, true)
  {
  }

  /** A node transaction of an accepted block: a confirmation of a record dates it, a start makes it
      anew as its validation says, and a confirmation of no record does nothing. */
  lemma BlockBecomes(env: Env, view: View, block: Block, h: u32, location: nat, paid: seq<OutPoint>, j: nat)
    returns (meta: Option<StartMeta>)
    requires block.txs != [] && ConnectView(env, view, block, h, location, paid).Ok? && DistinctCollaterals(block.txs)
    requires j < |block.txs| && block.txs[j].node.Some?
    ensures env.nodeCheck(view.ledger, view.nodes, block, h, j) == Some(meta)
    ensures var t := block.txs[j].node.value;
            var after := ConnectView(env, view, block, h, location, paid).value.view.nodes;
            Becomes(t, Lookup(view.nodes, t.collateral), Lookup(after, t.collateral), meta, h, t.collateral in paid)
  {
    hide ConnectView; hide StepTxs; hide PayNodes; hide NewAnchors; hide NewTree; hide ValueOut; hide NewStats;
    hide NewPools; hide Becomes; hide DistinctCollaterals;
    var run, nodes, _ := ConnectedRun(env, view, block, h, location, paid);
    meta := TxsBecome(env, view, block, h, location, |block.txs|, j);
    var t := block.txs[j].node.value;
    PaidAre(h, paid, run.nodes, [], t.collateral);
    if t.collateral in paid {
      PaidBecomes(t, Lookup(view.nodes, t.collateral), run.nodes[t.collateral], meta, h);
    }
  }

  /** A record no transaction of the block names only changes by being paid. */
  lemma BlockLeaves(env: Env, view: View, block: Block, h: u32, location: nat, paid: seq<OutPoint>, c: OutPoint)
    requires block.txs != [] && ConnectView(env, view, block, h, location, paid).Ok?
    requires forall k :: 0 <= k < |block.txs| ==> !Touches(block.txs[k], c)
    ensures var now := Lookup(ConnectView(env, view, block, h, location, paid).value.view.nodes, c);
            if c in paid then c in view.nodes && now == Some(view.nodes[c].(lastPaidHeight := h))
                else now == Lookup(view.nodes, c)
  {
    hide ConnectView; hide StepTxs; hide PayNodes; hide NewAnchors; hide NewTree; hide ValueOut; hide NewStats;
    hide NewPools; hide Touches;
    var run, nodes, _ := ConnectedRun(env, view, block, h, location, paid);
    TxsLeave(env, view, block, h, location, |block.txs|, c);
    PaidAre(h, paid, run.nodes, [], c);
  }

  // ---- along a chain ----

  /** The block starts or confirms the node at `c`. */
  ghost predicate Names(link: Link, c: OutPoint) {
    exists k :: 0 <= k < |link.block.txs| && Touches(link.block.txs[k], c)
  }

  /** No block from height `from` on starts or confirms the node. */
  ghost predicate Silent(links: Links, c: OutPoint, from: int) {
    forall i :: 0 <= i < |links| && from <= i ==> !Names(links[i], c)
  }

  lemma SilentMore(links: Links, c: OutPoint, from: int)
    requires links != [] && Silent(links[..|links| - 1], c, from) && !Names(links[|links| - 1], c)
    ensures Silent(links, c, from)
  {
    var n := |links| - 1;
    forall i | 0 <= i < |links| && from <= i ensures !Names(links[i], c) { assert i < n ==> links[..n][i] == links[i]; }
  }

  /** A record is dated by the last block that started or confirmed its node. */
  lemma {:induction false} LastNamed(env: Env, links: Links, c: OutPoint)
    requires Replay(env, links).Ok? && ValidLinks(links) && c in Replay(env, links).value.nodes
    ensures var last := Replay(env, links).value.nodes[c].lastConfirmedHeight;
            last < |links| && Names(links[last], c) && Silent(links, c, last + 1)
    decreases |links|
  {
    hide ConnectView; hide DistinctCollaterals; hide Names; hide Silent;
    if links != [] {
      var n := |links| - 1;
      var link, before := links[n], Replay(env, links[..n]).value;
      assert DistinctCollaterals(link.block.txs);
      if Names(link, c) {
        NamedRecord(env, before, link, n, c);
        NothingAfter(links, c);
      } else {
        UnnamedRecord(env, before, link, n, c);
        LastNamed(env, links[..n], c);
        SilentMore(links, c, before.nodes[c].lastConfirmedHeight + 1);
      }
    }
  }

  lemma NothingAfter(links: Links, c: OutPoint)
    ensures Silent(links, c, |links|)
  {
  }

  lemma NamedRecord(env: Env, view: View, link: Link, h: u32, c: OutPoint)
    requires link.block.txs != [] && ConnectView(env, view, link.block, h, link.location, link.paid).Ok?
             && DistinctCollaterals(link.block.txs) && Names(link, c)
    ensures var after := ConnectView(env, view, link.block, h, link.location, link.paid).value.view.nodes;
            c in after ==> after[c].lastConfirmedHeight == h
  {
    hide ConnectView; hide DistinctCollaterals;
    var k :| 0 <= k < |link.block.txs| && Touches(link.block.txs[k], c);
    var meta := BlockBecomes(env, view, link.block, h, link.location, link.paid, k);
  }

  lemma UnnamedRecord(env: Env, view: View, link: Link, h: u32, c: OutPoint)
    requires link.block.txs != [] && ConnectView(env, view, link.block, h, link.location, link.paid).Ok?
             && !Names(link, c)
    ensures var after := ConnectView(env, view, link.block, h, link.location, link.paid).value.view.nodes;
            (c in after <==> c in view.nodes)
            && (c in after ==> after[c].lastConfirmedHeight == view.nodes[c].lastConfirmedHeight)
  {
    hide ConnectView; hide Touches;
    BlockLeaves(env, view, link.block, h, link.location, link.paid, c);
  }

  /** Who expires: after any chain a node is overdue if and only if it has been silent, to the tip, for
      the whole gap allowed at some height. A node confirmed in every allowed gap never is. */
  lemma OverdueExactly(env: Env, ups: Upgrades, links: Links, c: OutPoint)
    requires Replay(env, links).Ok? && ValidLinks(links) && c in Replay(env, links).value.nodes && |links| <= I32_MAX
    ensures Overdue(ups, |links| - 1, Replay(env, links).value.nodes[c].lastConfirmedHeight) <==>
              exists x: u32 :: x < |links| && Silent(links, c, x - CountAt(ups, x))
  {
    hide Replay; hide Names; hide Count;
    LastNamed(env, links, c);
    var last := Replay(env, links).value.nodes[c].lastConfirmedHeight;
    var p := |links| - 1;
    if Overdue(ups, p, last) {
      var x: u32 :| last < x <= p && x - last > CountAt(ups, x);
      assert x < |links| && Silent(links, c, x - CountAt(ups, x));
    }
    if x: u32 :| x < |links| && Silent(links, c, x - CountAt(ups, x)) {
      assert Names(links[last], c);
      assert last < x - CountAt(ups, x);
      assert last < x <= p && x - last > CountAt(ups, x);
    }
  }
}
