/** Round-robin fairness of node payments along a chain. */
module Fairness {
  import opened Basics
  import opened Undo
  import opened Chain
  import opened Sequential
  import opened Rewind
  import opened Validate
  import opened ActiveChain
  import opened Expiry
  import opened Payees
  import Connect
  import Reversal

  // ---- what one block does to one record ----

  /** A start resets a record; a confirmation dates it, and its first one confirms it. */
  predicate NodeStep(was: Option<NodeRecord>, now: Option<NodeRecord>, h: u32) {
    || now == was
    || (now.Some? && now.value.confirmedHeight == 0 && now.value.lastPaidHeight == 0)
    || (was.Some? && now.Some? && now.value.lastPaidHeight == was.value.lastPaidHeight
        && now.value.tier == was.value.tier
        && now.value.collateral == was.value.collateral
        && (now.value.confirmedHeight == was.value.confirmedHeight
            || (was.value.confirmedHeight == 0 && now.value.confirmedHeight == h)))
  }

  predicate Touches(tx: Tx, c: OutPoint) { tx.node.Some? && tx.node.value.collateral == c }

  function NodeMap(t: Option<NodeTx>, h: u32, meta: Option<StartMeta>,
                   nodes: map<OutPoint, NodeRecord>): (r: map<OutPoint, NodeRecord>) {
    if t.None? then nodes
    else match NodeWrite(t.value, Lookup(nodes, t.value.collateral), h, meta)
         case Ok(Some(n)) => nodes[t.value.collateral := n]
         case _ => nodes
  }

  lemma StepNodes(env: Env, view: View, block: Block, h: u32, location: nat, j: nat, run: Run)
    returns (meta: Option<StartMeta>)
    requires j < |block.txs| && StepTx(env, view, block, h, location, j, run).Ok?
    ensures CheckNode(env, view, block, h, j) == Ok(meta)
    ensures StepTx(env, view, block, h, location, j, run).value.nodes == NodeMap(block.txs[j].node, h, meta, run.nodes)
    ensures block.txs[j].node.Some? ==>
              NodeWrite(block.txs[j].node.value, Lookup(run.nodes, block.txs[j].node.value.collateral), h, meta).Ok?
  {
    hide OutputsInRange; hide ShieldedInRange; hide CheckShielded; hide SpendTx; hide NodeWrite; hide GrowTrees;
    hide CreateOutputs;
    var tx := block.txs[j];
    meta := CheckNode(env, view, block, h, j).value;
    hide CheckNode;
    var checked := CheckShielded(env, view, tx, run).value;
    Reversal.ShieldedFrame(env, view, tx, run);
    var paid := SpendTx(env, h, j, tx, checked).value;
    Connect.SpendTxFrame(env, h, j, tx, checked);
    var noded := ApplyNode(tx.node, h, meta, paid).value;
    Reversal.TreesFrame(env, tx, noded);
    Connect.CreateFrame(env, h, j, tx, location, GrowTrees(env, tx, noded).value);
  }

  lemma WriteSteps(t: NodeTx, h: u32, meta: Option<StartMeta>, nodes: map<OutPoint, NodeRecord>, c: OutPoint)
    ensures Lookup(NodeMap(Some(t), h, meta, nodes), c) == Lookup(nodes, c)
            || (t.collateral == c && NodeStep(Lookup(nodes, c), Lookup(NodeMap(Some(t), h, meta, nodes), c), h))
  {
  }

  /** A block's transactions touch each record at most once. */
  lemma {:induction false} TxsStep(env: Env, view: View, block: Block, h: u32, location: nat, n: nat, c: OutPoint)
    requires n <= |block.txs| && StepTxs(env, view, block, h, location, n).Ok? && DistinctCollaterals(block.txs)
    ensures var now := Lookup(StepTxs(env, view, block, h, location, n).value.nodes, c);
            || now == Lookup(view.nodes, c)
            || (NodeStep(Lookup(view.nodes, c), now, h) && exists k :: 0 <= k < n && Touches(block.txs[k], c))
  {
    hide StepTx; hide NodeMap; hide NodeStep; hide Lookup;
    if n > 0 {
      TxsStep(env, view, block, h, location, n - 1, c);
      var run := StepTxs(env, view, block, h, location, n - 1).value;
      var meta := StepNodes(env, view, block, h, location, n - 1, run);
      var t := block.txs[n - 1].node;
      if t.Some? {
        WriteSteps(t.value, h, meta, run.nodes, c);
        assert t.value.collateral == c ==> Touches(block.txs[n - 1], c);
      } else {
        SameNodes(h, meta, run.nodes);
      }
    }
  }

  lemma SameNodes(h: u32, meta: Option<StartMeta>, nodes: map<OutPoint, NodeRecord>)
    ensures NodeMap(None, h, meta, nodes) == nodes
  {
  }

  lemma {:induction false} PaidAre(h: u32, paid: seq<OutPoint>, nodes: map<OutPoint, NodeRecord>, undo: seq<NodeUndo>,
                                   c: OutPoint)
    requires PayNodes(h, paid, nodes, undo).Ok?
    ensures var after := PayNodes(h, paid, nodes, undo).value.0;
            if c in paid then c in nodes && Lookup(after, c) == Some(nodes[c].(lastPaidHeight := h))
                else Lookup(after, c) == Lookup(nodes, c)
    decreases |paid|
  {
    if paid != [] {
      var n := nodes[paid[0]];
      PaidAre(h, paid[1..], nodes[paid[0] := n.(lastPaidHeight := h)], undo + [NodeUndo(paid[0], Some(n))], c);
    }
  }

  /** What a connected block does to the record at `c`. */
  lemma BlockSteps(env: Env, view: View, block: Block, h: u32, location: nat, paid: seq<OutPoint>, c: OutPoint)
    returns (mid: Option<NodeRecord>)
    requires block.txs != [] && ConnectView(env, view, block, h, location, paid).Ok? && DistinctCollaterals(block.txs)
    ensures NodeStep(Lookup(view.nodes, c), mid, h)
    ensures var now := Lookup(ConnectView(env, view, block, h, location, paid).value.view.nodes, c);
            if c in paid then mid.Some? && now == Some(mid.value.(lastPaidHeight := h)) else now == mid
  {
    hide ConnectView; hide StepTxs; hide PayNodes; hide NewAnchors; hide NewTree; hide ValueOut; hide NewStats;
    hide NewPools;
    var run, nodes, t := ConnectedRun(env, view, block, h, location, paid);
    TxsStep(env, view, block, h, location, |block.txs|, c);
    PaidAre(h, paid, run.nodes, [], c);
    mid := Lookup(run.nodes, c);
  }

  // ---- along a chain ----

  predicate ValidLinks(links: Links) { forall i :: 0 <= i < |links| ==> DistinctCollaterals(links[i].block.txs) }

  /** Heights recorded for a node are heights of the chain. */
  predicate Below(n: Option<NodeRecord>, h: int) {
    n.Some? ==> n.value.confirmedHeight < h && n.value.lastPaidHeight < h
  }

  lemma {:induction false} RecordsBelow(env: Env, links: Links, c: OutPoint)
    requires Replay(env, links).Ok? && ValidLinks(links)
    ensures Below(Lookup(Replay(env, links).value.nodes, c), |links|)
    decreases |links|
  {
    hide ConnectView; hide DistinctCollaterals;
    if links != [] {
      var n := |links| - 1;
      RecordsBelow(env, links[..n], c);
      assert DistinctCollaterals(links[n].block.txs);
      var mid := BlockSteps(env, Replay(env, links[..n]).value, links[n].block, n, links[n].location, links[n].paid, c);
    }
  }

  /** Not paid or confirmed before height `h`. */
  predicate Late(n: Option<NodeRecord>, h: int) {
    n.Some? ==> n.value.lastPaidHeight >= h || (n.value.lastPaidHeight == 0
                                                && (n.value.confirmedHeight == 0 || n.value.confirmedHeight >= h))
  }

  function State(env: Env, links: Links, h: nat): (v: View)
    requires h <= |links| && Replay(env, links[..h]).Ok?
  {
    Replay(env, links[..h]).value
  }

  /** Block `h` takes the state before it to the state after it. */
  lemma {:induction false} StateStep(env: Env, links: Links, h: nat)
    requires h < |links| && Replay(env, links).Ok?
    ensures Replay(env, links[..h]).Ok? && Replay(env, links[..h + 1]).Ok?
    ensures var c := ConnectView(env, State(env, links, h), links[h].block, h, links[h].location, links[h].paid);
            c.Ok? && c.value.view == State(env, links, h + 1)
    decreases |links|
  {
    hide ConnectView;
    var n := |links| - 1;
    if h == n {
      assert links[..n + 1] == links;
    } else {
      assert links[..n][..h] == links[..h] && links[..n][..h + 1] == links[..h + 1] && links[..n][h] == links[h];
      StateStep(env, links[..n], h);
    }
  }

  function Listed(r: Option<OutPoint>): (s: seq<OutPoint>) { if r.Some? then [r.value] else [] }

  /** Block `h` pays, tier by tier, the nodes that have waited longest. */
  ghost predicate Scheduled(env: Env, np: NodeParams, links: Links, next: (int, int) -> Option<OutPoint>, h: nat)
    requires 1 <= h < |links| && Replay(env, links[..h]).Ok?
  {
    var view := State(env, links, h);
    && (forall tier :: 1 <= tier <= 3 ==> IsNext(np, view.nodes, view.ledger, tier, h - 1, next(h, tier)))
    && links[h].paid == Listed(next(h, 1)) + Listed(next(h, 2)) + Listed(next(h, 3))
  }

  ghost predicate EligibleAt(env: Env, np: NodeParams, links: Links, tier: int, h: nat, c: OutPoint)
    requires 1 <= h <= |links| && Replay(env, links[..h]).Ok?
  {
    var view := State(env, links, h);
    Eligible(np, view.nodes, view.ledger, tier, h - 1, c)
  }

  lemma PaidIn(env: Env, np: NodeParams, links: Links, next: (int, int) -> Option<OutPoint>, h: nat, tier: int,
               c: OutPoint)
    requires 1 <= h < |links| && Replay(env, links[..h]).Ok? && Scheduled(env, np, links, next, h)
    requires 1 <= tier <= 3
    ensures next(h, tier) == Some(c) ==> c in links[h].paid
    ensures EligibleAt(env, np, links, tier, h, c) && c in links[h].paid ==> next(h, tier) == Some(c)
  {
    hide Replay; hide Overdue; hide MatchesTier; hide GoesFirst;
    var view := State(env, links, h);
    assert IsNext(np, view.nodes, view.ledger, 1, h - 1, next(h, 1));
    assert IsNext(np, view.nodes, view.ledger, 2, h - 1, next(h, 2));
    assert IsNext(np, view.nodes, view.ledger, 3, h - 1, next(h, 3));
  }

  /** A node just paid goes to the back of the queue and stays behind that height. */
  lemma {:induction false} StaysLate(env: Env, np: NodeParams, links: Links, next: (int, int) -> Option<OutPoint>,
                                     tier: int, a: OutPoint, from: nat, h: nat)
    requires Replay(env, links).Ok? && ValidLinks(links) && 1 <= from < h <= |links| && 1 <= tier <= 3
    requires Replay(env, links[..from]).Ok? && Scheduled(env, np, links, next, from) && next(from, tier) == Some(a)
    ensures Replay(env, links[..h]).Ok? && Late(Lookup(State(env, links, h).nodes, a), from)
    decreases h
  {
    hide ConnectView; hide Replay; hide DistinctCollaterals; hide Scheduled;
    StateStep(env, links, h - 1);
    assert DistinctCollaterals(links[h - 1].block.txs);
    var link := links[h - 1];
    var mid := BlockSteps(env, State(env, links, h - 1), link.block, h - 1, link.location, link.paid, a);
    if h - 1 > from {
      StaysLate(env, np, links, next, tier, a, from, h - 1);
    } else {
      PaidIn(env, np, links, next, from, tier, a);
    }
  }

  /** The height a node has been waiting from. */
  function Since(nodes: map<OutPoint, NodeRecord>, c: OutPoint): (h: int) {
    if c in nodes then WaitsFrom(nodes[c]) else 0
  }

  /** A node that stays eligible and is not paid keeps its place. */
  lemma KeepsPlace(env: Env, np: NodeParams, links: Links, next: (int, int) -> Option<OutPoint>, tier: int,
                   b: OutPoint, h: nat)
    requires Replay(env, links).Ok? && ValidLinks(links) && 1 <= h < |links| && 1 <= tier <= 3
    requires Replay(env, links[..h]).Ok? && Replay(env, links[..h + 1]).Ok? && Scheduled(env, np, links, next, h)
    requires EligibleAt(env, np, links, tier, h, b) && EligibleAt(env, np, links, tier, h + 1, b)
             && next(h, tier) != Some(b)
    ensures Since(State(env, links, h + 1).nodes, b) == Since(State(env, links, h).nodes, b)
  {
    hide ConnectView; hide Replay; hide DistinctCollaterals; hide Scheduled; hide Overdue; hide MatchesTier;
    StateStep(env, links, h);
    assert DistinctCollaterals(links[h].block.txs);
    var mid := BlockSteps(env, State(env, links, h), links[h].block, h, links[h].location, links[h].paid, b);
    PaidIn(env, np, links, next, h, tier, b);
  }

  lemma {:induction false} KeepsPlaceTo(env: Env, np: NodeParams, links: Links, next: (int, int) -> Option<OutPoint>,
                                        tier: int, b: OutPoint, from: nat, h: nat)
    requires Replay(env, links).Ok? && ValidLinks(links) && 1 <= from <= h < |links| && 1 <= tier <= 3
    requires forall i :: from <= i <= h ==>
               Replay(env, links[..i]).Ok? && Scheduled(env, np, links, next, i)
                   && EligibleAt(env, np, links, tier, i, b)
    requires forall i :: from <= i < h ==> next(i, tier) != Some(b)
    ensures Since(State(env, links, h).nodes, b) == Since(State(env, links, from).nodes, b)
    decreases h
  {
    hide Replay; hide Scheduled; hide EligibleAt; hide Since; hide State;
    if from < h {
      assert Scheduled(env, np, links, next, h - 1) && EligibleAt(env, np, links, tier, h - 1, b);
      KeepsPlaceTo(env, np, links, next, tier, b, from, h - 1);
      KeepsPlace(env, np, links, next, tier, b, h - 1);
    }
  }

  lemma BelowAt(env: Env, links: Links, h: nat, c: OutPoint)
    requires h <= |links| && Replay(env, links[..h]).Ok? && ValidLinks(links)
    ensures Below(Lookup(State(env, links, h).nodes, c), h)
  {
    hide Replay;
    RecordsBelow(env, links[..h], c);
  }

  /** Fairness: between two payments to one node in a tier, every other node of the tier that
      stayed eligible throughout is paid. */
  lemma Fair(env: Env, np: NodeParams, links: Links, next: (int, int) -> Option<OutPoint>, tier: int, a: OutPoint,
             b: OutPoint, first: nat, second: nat)
    requires Replay(env, links).Ok? && ValidLinks(links) && 1 <= first < second < |links| && 1 <= tier <= 3 && a != b
    requires forall h :: first <= h <= second ==> Replay(env, links[..h]).Ok? && Scheduled(env, np, links, next, h)
    requires next(first, tier) == Some(a) && next(second, tier) == Some(a)
    requires forall h :: first <= h <= second ==> EligibleAt(env, np, links, tier, h, b)
    ensures exists h :: first < h < second && next(h, tier) == Some(b)
  {
    hide Replay; hide Scheduled; hide EligibleAt; hide State;
    assert Scheduled(env, np, links, next, first) && Scheduled(env, np, links, next, second);
    if forall h :: first < h < second ==> next(h, tier) != Some(b) {
      KeepsPlaceTo(env, np, links, next, tier, b, first, second);
      StaysLate(env, np, links, next, tier, a, first, second);
      BelowAt(env, links, first, b);
      WaitedLonger(env, np, links, next, tier, a, b, first, second);
    }
  }

  /** At the second payment the other node would have been ahead. */
  lemma WaitedLonger(env: Env, np: NodeParams, links: Links, next: (int, int) -> Option<OutPoint>, tier: int,
                     a: OutPoint, b: OutPoint, first: nat, second: nat)
    requires 1 <= first < second < |links| && 1 <= tier <= 3 && a != b
    requires Replay(env, links[..first]).Ok? && Replay(env, links[..second]).Ok?
             && Scheduled(env, np, links, next, second)
    requires EligibleAt(env, np, links, tier, first, b) && EligibleAt(env, np, links, tier, second, b)
    requires Below(Lookup(State(env, links, first).nodes, b), first)
             && Late(Lookup(State(env, links, second).nodes, a), first)
    requires Since(State(env, links, second).nodes, b) == Since(State(env, links, first).nodes, b)
    ensures next(second, tier) != Some(a)
  {
    hide Replay; hide State; hide Overdue; hide MatchesTier; hide SmallerAtFirst;
    var view := State(env, links, second);
    assert IsNext(np, view.nodes, view.ledger, tier, second - 1, next(second, tier));
  }
}
