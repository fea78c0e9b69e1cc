/** The node's chain state over any run of connects and disconnects. */
module ChainRun {
  import opened Basics
  import opened Codec
  import opened Undo
  import opened Ledger
  import opened Chain
  import opened Sequential
  import opened Reversal
  import opened Rewind
  import opened Room
  import opened ActiveChain
  import opened TakeBack
  import opened Validate
  import opened Sizes
  import opened Linked
  import opened ConnectBlock
  import opened Disconnect
  import Supply

  /** Block `i` of the chain, connected to the state before it. */
  function Step(env: Env, links: Links, i: nat): (r: Result<Connected>)
    requires i < |links|
  {
    var before :- Replay(env, links[..i]);
    ConnectView(env, before, links[i].block, i, links[i].location, links[i].paid)
  }

  function PrevOf(links: seq<Link>, i: nat): (h: Hash)
    requires i <= |links|
  {
    if i == 0 then ZERO_HASH else links[i - 1].block.hash
  }

  /** Header entries form a tree under the genesis block. */
  ghost predicate HeaderTree(db: Db) {
    && ZERO_HASH !in db.headers
    && forall x :: x in db.headers ==>
         if db.headers[x].prev == ZERO_HASH then db.headers[x].height == 0
         else db.headers[x].prev in db.headers && db.headers[x].height == db.headers[db.headers[x].prev].height + 1
  }

  /** Header, body and, unless pruned, undo record of one block of the chain. */
  ghost predicate Stored(env: Env, db: Db, links: Links, i: nat)
    requires i < |links|
  {
    var b := links[i].block;
    && b.prev == PrevOf(links, i)
    && b.hash in db.headers && db.headers[b.hash].height == i && db.headers[b.hash].prev == b.prev
    && db.headers[b.hash].hasBlock
    && b.hash in db.blocks && db.blocks[b.hash] == StoredBlock(b, links[i].location)
    && (b.hash in db.undos ==> Step(env, links, i).Ok? && db.undos[b.hash] == UndoBytes(Step(env, links, i).value.undo))
  }

  /** Commitment roots along the chain do not repeat. */
  ghost predicate NewRoots(env: Env, links: Links, i: nat)
    requires i < |links|
  {
    Replay(env, links[..i]).Ok? ==> FreshRoots(env, Replay(env, links[..i]).value, links[i].block, i, links[i].location)
  }

  /** What validation saw to: sizes, the Merkle root, the first transaction and distinct collaterals. */
  predicate GoodLink(env: Env, link: Link) {
    && BlockSize(link.block) <= MAX_BLOCK_SIZE && |link.paid| <= MAX_BLOCK_SIZE
    && MerkleRight(env, link.block) && link.block.txs != [] && IsCoinbase(link.block.txs[0])
    && DistinctCollaterals(link.block.txs)
  }

  /** The database is the one that connecting exactly this chain leaves. `top` is the greatest
      length the chain has had: only blocks more than 41 below it have lost their undo record. */
  ghost predicate OnChain(env: Env, db: Db, links: Links, top: nat) {
    && DistinctChain(links) && Replay(env, links) == Ok(ViewOf(env, db)) && HeaderTree(db)
    && (forall i :: 0 <= i < |links| ==> Stored(env, db, links, i))
    && (forall i :: 0 <= i < |links| ==> NewRoots(env, links, i))
    && (forall i :: 0 <= i < |links| ==> GoodLink(env, links[i]))
    && |links| <= top && (forall i :: 0 <= i < |links| && i + 41 >= top ==> links[i].block.hash in db.undos)
  }

  /** What the code takes for granted about a block it is handed: a hash stands for one header, and
      a commitment root for one tree. */
  ghost predicate HashesBind(env: Env, db: Db, links: Links, block: Block, location: nat) {
    && block.hash != ZERO_HASH
    && (block.hash in db.headers ==> db.headers[block.hash].prev == block.prev)
    && (|links| <= I32_MAX ==> FreshRoots(env, ViewOf(env, db), block, |links|, location))
  }

  // ---- small facts ----

  lemma {:induction false} ReplayPrefix(env: Env, links: Links, i: nat)
    requires i <= |links| && Replay(env, links).Ok?
    ensures Replay(env, links[..i]).Ok?
    ensures i < |links| ==> Step(env, links, i).Ok? && Replay(env, links[..i + 1]) == Ok(Step(env, links, i).value.view)
    decreases |links|
  {
    hide ConnectView;
    var n := |links| - 1;
    if i == |links| {
      assert links[..i] == links;
    } else if i == n {
      assert links[..n + 1] == links;
    } else {
      assert links[..n][..i] == links[..i] && links[..n][..i + 1] == links[..i + 1];
      ReplayPrefix(env, links[..n], i);
    }
  }

  lemma {:induction false} ReplaySmall(env: Env, links: Links)
    requires ShortTrees(env) && Replay(env, links).Ok? && forall i :: 0 <= i < |links| ==> GoodLink(env, links[i])
    ensures SmallView(Replay(env, links).value)
    decreases |links|
  {
    hide ConnectView; hide SmallView; hide ShortTrees; hide BlockSize;
    if links == [] {
      EmptySmall(env);
    } else {
      var n := |links| - 1;
      ReplaySmall(env, links[..n]);
      assert GoodLink(env, links[n]);
      BlockSmall(env, Replay(env, links[..n]).value, links[n].block, n, links[n].location, links[n].paid);
    }
  }

  lemma EmptySmall(env: Env)
    requires ShortTrees(env)
    ensures SmallView(EmptyView(env))
  {
  }

  lemma TipKnown(env: Env, db: Db, links: Links)
    requires DistinctChain(links) && Replay(env, links) == Ok(ViewOf(env, db))
    ensures Reached(env, links, ViewOf(env, db))
    ensures BestBlock(db) == if links == [] then None else Some(links[|links| - 1].block.hash)
  {
    hide Sound; hide Supply.Counted; hide KnowsIds; hide Replay; hide DistinctChain;
    ReplayReached(env, links);
  }

  // ---- connecting ----

  /** An admitted block is the child of the tip and one higher. */
  lemma AdmittedPlace(env: Env, db: Db, links: Links, top: nat, block: Block, h: nat, location: nat)
    requires OnChain(env, db, links, top) && HashesBind(env, db, links, block, location) && Admit(env, db, block, h).Ok?
    ensures h == |links| && block.prev == PrevOf(links, |links|)
    ensures var header := Admit(env, db, block, h).value; header.prev == block.prev && header.height == h
  {
    hide ValidBlock; hide DistinctChain; hide Replay; hide NewRoots; hide GoodLink; hide Ids; hide FreshRoots;
    hide UndoBytes; hide Reached; hide ViewOf; hide Step;
    TipKnown(env, db, links);
    if links != [] { assert Stored(env, db, links, |links| - 1); }
  }

  lemma AdmittedIsNew(env: Env, db: Db, links: Links, block: Block, h: nat, location: nat)
    requires HashesBind(env, db, links, block, location) && Admit(env, db, block, h).Ok?
    requires h == |links| && forall i :: 0 <= i < |links| ==> Stored(env, db, links, i)
    ensures block.hash !in Hashes(links)
  {
    hide ValidBlock; hide Ids; hide FreshRoots; hide UndoBytes; hide ViewOf; hide Step;
    forall i | 0 <= i < |links| ensures links[i].block.hash != block.hash { assert Stored(env, db, links, i); }
  }

  lemma HeaderTreeKept(env: Env, db: Db, links: Links, top: nat, block: Block, h: nat, location: nat, after: Db)
    requires OnChain(env, db, links, top) && HashesBind(env, db, links, block, location) && Admit(env, db, block, h).Ok?
    requires after.headers == db.headers[block.hash := Admit(env, db, block, h).value.(hasBlock := true)]
    ensures HeaderTree(after)
  {
    hide ValidBlock; hide DistinctChain; hide Replay; hide NewRoots; hide GoodLink; hide Ids; hide FreshRoots;
    hide UndoBytes;
  }

  lemma StepKept(env: Env, links: Links, next: Link, i: nat)
    requires i < |links| && |links| < I32_MAX && next.block.txs != []
    ensures Step(env, links + [next], i) == Step(env, links, i)
    ensures (links + [next])[i] == links[i] && PrevOf(links + [next], i) == PrevOf(links, i)
            && (links + [next])[..i] == links[..i]
  {
    hide ConnectView; hide Replay;
    assert (links + [next])[..i] == links[..i];
  }

  lemma StoredKept(env: Env, db: Db, links: Links, block: Block, h: nat, location: nat, paid: seq<OutPoint>,
                   c: Connected, after: Db, header: Header, i: nat)
    requires i < |links| && |links| < I32_MAX && block.txs != []
    requires Stored(env, db, links, i) && block.hash != links[i].block.hash
    requires ConnectedDb(env, db, after, block, h, location, header, c)
    ensures Stored(env, after, links + [Link(block, location, paid)], i)
  {
    hide ViewOf; hide UndoBytes; hide Step; hide Pruned; hide PrevOf;
    StepKept(env, links, Link(block, location, paid), i);
  }

  lemma ReplayNext(env: Env, links: Links, next: Link, view: View)
    requires |links| < I32_MAX && next.block.txs != [] && Replay(env, links) == Ok(view)
    ensures Step(env, links + [next], |links|) == ConnectView(env, view, next.block, |links|, next.location, next.paid)
    ensures Step(env, links + [next], |links|).Ok? ==>
              Replay(env, links + [next]) == Ok(Step(env, links + [next], |links|).value.view)
  {
    hide ConnectView;
    assert (links + [next])[..|links|] == links;
  }

  lemma StoredNew(env: Env, db: Db, links: Links, block: Block, location: nat, paid: seq<OutPoint>, c: Connected,
                  after: Db, header: Header)
    requires |links| < I32_MAX && block.txs != [] && Replay(env, links) == Ok(ViewOf(env, db))
    requires ConnectView(env, ViewOf(env, db), block, |links|, location, paid) == Ok(c)
    requires ConnectedDb(env, db, after, block, |links|, location, header, c)
    requires header.height == |links| && header.prev == block.prev && block.prev == PrevOf(links, |links|)
    ensures Stored(env, after, links + [Link(block, location, paid)], |links|)
  {
    hide ViewOf; hide UndoBytes; hide Step; hide Pruned; hide ConnectView; hide Replay;
    ReplayNext(env, links, Link(block, location, paid), ViewOf(env, db));
    assert PrevOf(links + [Link(block, location, paid)], |links|) == PrevOf(links, |links|);
  }

  lemma RetainedKept(env: Env, db: Db, links: Links, top: nat, block: Block, location: nat, paid: seq<OutPoint>,
                     c: Connected, after: Db, header: Header)
    requires OnChain(env, db, links, top) && |links| < I32_MAX && block.txs != []
    requires ConnectedDb(env, db, after, block, |links|, location, header, c) && block.hash !in Hashes(links)
    ensures var links' := links + [Link(block, location, paid)];
            var top' := if top > |links| then top else |links| + 1;
            forall i :: 0 <= i < |links'| && i + 41 >= top' ==> links'[i].block.hash in after.undos
  {
    hide Stored; hide NewRoots; hide GoodLink; hide DistinctChain; hide Replay; hide HeaderTree; hide UndoBytes;
    hide Reached;
    TipKnown(env, db, links);
    KnownHeights(env, db, links);
    var links' := links + [Link(block, location, paid)];
    var top' := if top > |links| then top else |links| + 1;
    forall i | 0 <= i < |links'| && i + 41 >= top' ensures links'[i].block.hash in after.undos {
      NotPruned(db, links, i, links'[i].block.hash);
    }
  }

  lemma KnownHeights(env: Env, db: Db, links: Links)
    requires Reached(env, links, ViewOf(env, db))
    ensures forall p :: p in db.heights ==> p < |links| && db.heights[p] == links[p].block.hash
  {
    hide Sound; hide Supply.Counted; hide KnowsIds;
  }

  lemma {:induction false} HashesApart(links: seq<Link>, i: nat, k: nat)
    requires DistinctChain(links) && i < k < |links|
    ensures links[i].block.hash != links[k].block.hash
    decreases |links|
  {
    var n := |links| - 1;
    if k < n {
      HashesApart(links[..n], i, k);
    } else {
      assert links[..n][i] == links[i];
      assert links[i].block.hash in Hashes(links[..n]);
    }
  }

  /** The pruned block is at least 41 below the new one, so none of the kept ones. */
  lemma NotPruned(db: Db, links: Links, i: nat, hash: Hash)
    requires DistinctChain(links) && i <= |links| && i + 41 >= |links| + 1
    requires hash == if i < |links| then links[i].block.hash else hash
    requires i == |links| ==> hash !in Hashes(links)
    requires forall p :: p in db.heights ==> p < |links| && db.heights[p] == links[p].block.hash
    ensures hash !in Pruned(db, |links|)
  {
    hide DistinctChain; hide Hashes;
    var p := |links| - (MaxReorgDepth(|links|) + 1);
    if 0 <= p && p in db.heights {
      if i < |links| { HashesApart(links, p, i); } else { HashIn(links, p); }
    }
  }

  /** Connecting a block extends the chain. */
  lemma ConnectStep(env: Env, db: Db, links: Links, links': Links, top: nat, block: Block, h: u32, location: nat,
                    paid: seq<OutPoint>, header: Header, c: Connected, after: Db)
    requires block.txs != [] && links' == links + [Link(block, location, paid)] && |paid| <= MAX_BLOCK_SIZE
    requires OnChain(env, db, links, top) && HashesBind(env, db, links, block, location)
             && Admit(env, db, block, h) == Ok(header)
    requires BlockIds(block) !! Ids(links)
    requires ConnectView(env, ViewOf(env, db), block, h, location, paid) == Ok(c)
    requires ConnectedDb(env, db, after, block, h, location, header, c)
    ensures OnChain(env, after, links', if top > |links| then top else |links| + 1)
  {
    hide Admit; hide ConnectView; hide Replay; hide HeaderTree; hide Stored; hide NewRoots; hide GoodLink;
    hide HashesBind; hide ConnectedDb; hide ViewOf; hide UndoBytes; hide DistinctIds; hide Step; hide DistinctChain;
    hide Hashes; hide ValidBlock; hide PrevOf; hide Ids; hide BlockIds;
    var next := Link(block, location, paid);
    AdmittedPlace(env, db, links, top, block, h, location);
    AdmittedIsNew(env, db, links, block, h, location);
    ConnectedParts(env, db, after, block, h, location, header, c);
    HeaderTreeKept(env, db, links, top, block, h, location, after);
    ReplayNext(env, links, next, ViewOf(env, db));
    RetainedKept(env, db, links, top, block, location, paid, c, after, header);
    AdmittedBlock(env, db, block, h);
    ChainGrows(links, block, next);
    AllStored(env, db, links, links', block, location, paid, header, c, after);
    AllRoots(env, db, links, next);
    AllGood(env, links, next, h);
  }

  lemma AllRoots(env: Env, db: Db, links: Links, next: Link)
    requires |links| < I32_MAX && next.block.txs != [] && Replay(env, links) == Ok(ViewOf(env, db))
    requires HashesBind(env, db, links, next.block, next.location) && forall i :: 0 <= i < |links| ==>
               NewRoots(env, links, i)
    ensures forall i :: 0 <= i < |links| + 1 ==> NewRoots(env, links + [next], i)
  {
    hide NewRoots; hide HashesBind; hide Replay; hide ViewOf; hide Step; hide PrevOf;
    forall i | 0 <= i < |links| + 1 ensures NewRoots(env, links + [next], i) {
      if i < |links| {
        StepKept(env, links, next, i);
        RootsKept(env, links, links + [next], i);
      } else {
        RootsNew(env, db, links, next);
      }
    }
  }

  lemma AllGood(env: Env, links: Links, next: Link, h: nat)
    requires ValidBlock(env, next.block, h) && |next.paid| <= MAX_BLOCK_SIZE && forall i :: 0 <= i < |links| ==>
               GoodLink(env, links[i])
    ensures forall i :: 0 <= i < |links| + 1 ==> GoodLink(env, (links + [next])[i])
  {
    hide GoodLink; hide ValidBlock;
    SmallNew(env, next.block, h, next);
  }

  lemma AllStored(env: Env, db: Db, links: Links, links': Links, block: Block, location: nat, paid: seq<OutPoint>,
                  header: Header, c: Connected, after: Db)
    requires block.txs != [] && links' == links + [Link(block, location, paid)] && block.hash !in Hashes(links)
    requires Replay(env, links) == Ok(ViewOf(env, db)) && forall i :: 0 <= i < |links| ==> Stored(env, db, links, i)
    requires ConnectView(env, ViewOf(env, db), block, |links|, location, paid) == Ok(c)
    requires ConnectedDb(env, db, after, block, |links|, location, header, c)
    requires header.height == |links| && header.prev == block.prev && block.prev == PrevOf(links, |links|)
    ensures forall i :: 0 <= i < |links'| ==> Stored(env, after, links', i)
  {
    hide ConnectView; hide Replay; hide Stored; hide ConnectedDb; hide ViewOf; hide Hashes; hide PrevOf;
    forall i | 0 <= i < |links'| ensures Stored(env, after, links', i) {
      if i < |links| {
        HashIn(links, i);
        StoredKept(env, db, links, block, |links|, location, paid, c, after, header, i);
      } else {
        StoredNew(env, db, links, block, location, paid, c, after, header);
      }
    }
  }

  lemma ConnectedParts(env: Env, db: Db, after: Db, block: Block, h: nat, location: nat, header: Header, c: Connected)
    requires ConnectedDb(env, db, after, block, h, location, header, c)
    ensures ViewOf(env, after) == c.view && after.headers == db.headers[block.hash := header.(hasBlock := true)]
  {
  }

  lemma AdmittedBlock(env: Env, db: Db, block: Block, h: nat)
    requires Admit(env, db, block, h).Ok?
    ensures ValidBlock(env, block, h) && DistinctIds(block.txs) && block.txs != []
  {
  }

  lemma HashIn(links: seq<Link>, i: nat)
    requires i < |links|
    ensures links[i].block.hash in Hashes(links)
  {
  }

  lemma ChainGrows(links: Links, block: Block, next: Link)
    requires DistinctChain(links) && BlockIds(block) !! Ids(links) && next.block == block
    requires DistinctIds(block.txs) && block.hash !in Hashes(links)
    ensures DistinctChain(links + [next])
  {
    hide DistinctIds;
    assert (links + [next])[..|links|] == links;
  }

  lemma RootsKept(env: Env, links: Links, links': Links, i: nat)
    requires i < |links| && i < |links'| && links'[..i] == links[..i] && links'[i] == links[i]
             && NewRoots(env, links, i)
    ensures NewRoots(env, links', i)
  {
  }

  lemma RootsNew(env: Env, db: Db, links: Links, next: Link)
    requires |links| < I32_MAX && next.block.txs != [] && Replay(env, links) == Ok(ViewOf(env, db))
    requires HashesBind(env, db, links, next.block, next.location)
    ensures NewRoots(env, links + [next], |links|)
  {
    hide FreshRoots; hide Replay; hide ViewOf;
    assert (links + [next])[..|links|] == links;
  }

  lemma SmallNew(env: Env, block: Block, h: nat, next: Link)
    requires ValidBlock(env, block, h) && next.block == block && |next.paid| <= MAX_BLOCK_SIZE
    ensures GoodLink(env, next)
  {
  }

  // ---- disconnecting ----

  /** The tip's columns hold what was stored for the last block of the chain. */
  lemma TargetFound(env: Env, db: Db, links: Links, top: nat, hash: Hash)
    requires OnChain(env, db, links, top) && ShortTrees(env)
    ensures FindTarget(db, hash).Ok? <==> links != [] && hash == links[|links| - 1].block.hash && hash in db.undos
    ensures FindTarget(db, hash).Ok? ==>
              var n := |links| - 1;
              && Step(env, links, n).Ok?
              && FindTarget(db, hash).value == Target(links[n].block, db.headers[hash], Step(env, links, n).value.undo)
  {
    hide UndoBytes; hide ReadUndo; hide NewRoots; hide ConnectView; hide DistinctChain; hide HeaderTree; hide ViewOf;
    hide Replay; hide ShortTrees; hide Reached; hide Step; hide PrevOf; hide GoodLink;
    TipKnown(env, db, links);
    if links != [] && hash == links[|links| - 1].block.hash && hash in db.undos {
      assert Stored(env, db, links, |links| - 1);
      LastUndo(env, db, links, top);
    }
  }

  lemma LastUndo(env: Env, db: Db, links: Links, top: nat)
    requires OnChain(env, db, links, top) && ShortTrees(env) && links != []
    ensures Step(env, links, |links| - 1).Ok?
    ensures var u := Step(env, links, |links| - 1).value.undo; ReadUndo(UndoBytes(u)) == Got(u, [])
  {
    hide UndoBytes; hide ReadUndo; hide NewRoots; hide ConnectView; hide DistinctChain; hide HeaderTree; hide Stored;
    hide ViewOf; hide Replay; hide ShortTrees; hide SmallView; hide SmallBlockUndo; hide BlockSize;
    var n := |links| - 1;
    ReplayPrefix(env, links, n);
    assert GoodLink(env, links[n]);
    forall i | 0 <= i < n ensures GoodLink(env, links[..n][i]) { assert GoodLink(env, links[i]); }
    ReplaySmall(env, links[..n]);
    BlockSmall(env, Replay(env, links[..n]).value, links[n].block, n, links[n].location, links[n].paid);
    UndoReadBack(Step(env, links, n).value.undo);
  }

  /** Taking the tip back gives the state before it. */
  lemma TipTakenBack(env: Env, db: Db, links: Links, top: nat)
    requires OnChain(env, db, links, top) && links != []
    ensures var n := |links| - 1;
            && Step(env, links, n).Ok? && Replay(env, links[..n]).Ok?
            && DisconnectView(env, ViewOf(env, db), links[n].block, n, Step(env, links, n).value.undo,
                              TipOf(db, links[n].block.prev))
               == Replay(env, links[..n])
  {
    hide UndoBytes; hide ConnectView; hide HeaderTree; hide ViewOf; hide Replay; hide DisconnectView; hide FreshRoots;
    hide Sound; hide Fresh; hide DistinctIds; hide Supply.Counted; hide KnowsIds;
    var n := |links| - 1;
    ReplayPrefix(env, links, n);
    assert links[..n + 1] == links;
    var before := Replay(env, links[..n]).value;
    LastIsNew(links);
    ReplayReached(env, links[..n]);
    NewBlockIsFresh(env, links[..n], before, links[n].block);
    assert NewRoots(env, links, n);
    Rewind.RoundTrip(env, before, links[n].block, n, links[n].location, links[n].paid);
    TipBefore(env, db, links, top, before);
  }

  lemma TipBefore(env: Env, db: Db, links: Links, top: nat, before: View)
    requires OnChain(env, db, links, top) && links != [] && Reached(env, links[..|links| - 1], before)
    ensures before.tip == TipOf(db, links[|links| - 1].block.prev)
  {
    hide UndoBytes; hide Step; hide ViewOf; hide Replay; hide DistinctChain; hide NewRoots; hide GoodLink; hide Sound;
    hide KnowsIds; hide Supply.Counted;
    var n := |links| - 1;
    assert Stored(env, db, links, n);
    if n > 0 { assert Stored(env, db, links, n - 1); }
  }

  lemma StoredShrunk(env: Env, db: Db, links: Links, n: nat, after: Db, i: nat)
    requires i < n < |links| && Stored(env, db, links, i) && links[i].block.hash != links[n].block.hash
    requires after.headers == db.headers && after.blocks == db.blocks && after.undos == db.undos - {links[n].block.hash}
    ensures Stored(env, after, links[..n], i)
  {
    hide UndoBytes; hide ConnectView; hide Replay;
    assert links[..n][..i] == links[..i];
  }

  /** Disconnecting the tip shortens the chain by one block. */
  lemma DisconnectStep(env: Env, db: Db, links: Links, top: nat, after: Db)
    requires OnChain(env, db, links, top) && links != [] && Replay(env, links[..|links| - 1]) == Ok(ViewOf(env, after))
    requires after.headers == db.headers && after.blocks == db.blocks
             && after.undos == db.undos - {links[|links| - 1].block.hash}
    ensures OnChain(env, after, links[..|links| - 1], top)
  {
    hide UndoBytes; hide Replay; hide ViewOf; hide Stored; hide GoodLink; hide NewRoots; hide DistinctChain; hide Ids;
    hide BlockIds; hide Hashes; hide HeaderTree;
    HeaderTreeSame(db, after);
    var n := |links| - 1;
    var links' := links[..n];
    LastIsNew(links);
    forall i | 0 <= i < n
      ensures Stored(env, after, links', i) && NewRoots(env, links', i) && GoodLink(env, links'[i])
      ensures links'[i].block.hash != links[n].block.hash && links'[i] == links[i]
    {
      HashIn(links', i);
      StoredShrunk(env, db, links, n, after, i);
      assert NewRoots(env, links, i) && GoodLink(env, links[i]);
      assert links'[..i] == links[..i];
      RootsKept(env, links, links', i);
    }
  }

  lemma HeaderTreeSame(db: Db, after: Db)
    requires HeaderTree(db) && after.headers == db.headers
    ensures HeaderTree(after)
  {
  }

  // ---- runs ----

  const EMPTY_DB: Db :=
    Db(map[], map[], {}, map[], map[], map[], map[], map[], {}, None, Stats(0, 0), Pools(0, 0), map[], map[], map[])

  lemma EmptyOnChain(env: Env)
    ensures OnChain(env, EMPTY_DB, [], 0)
  {
    assert ViewOf(env, EMPTY_DB) == EmptyView(env);
  }

  function TipHash(links: seq<Link>): (h: Option<Hash>) {
    if links == [] then None else Some(links[|links| - 1].block.hash)
  }

  function WithoutTip(links: Links): (r: Links) { if links == [] then [] else links[..|links| - 1] }

  /** The chain state: the stored columns, and the chain they stand for. */
  class ChainState {
    const env: Env
    var db: Db
    ghost var links: Links
    ghost var top: nat

    /** Whatever blocks were connected and disconnected before, the state is the one of the active chain. */
    ghost predicate Valid()
      reads this
    {
      ShortTrees(env) && OnChain(env, db, links, top)
    }

    constructor (env: Env)
      requires ShortTrees(env)
      ensures Valid() && links == [] && this.env == env && db == EMPTY_DB
    {
      this.env := env;
      db := EMPTY_DB;
      links := [];
      top := 0;
      new;
      EmptyOnChain(env);
    }

    /** Connects a block and commits its batch, or leaves the state alone. A block is connected as
        sequential processing says, unless it spends what it re-creates. The state stays the one of
        the active chain if no transaction of the block is on it already. */
    method Connect(block: Block, h: nat, location: nat, paid: seq<OutPoint>) returns (r: Result<()>)
      requires Valid() && |links| < I32_MAX && h <= I32_MAX && |paid| <= MAX_BLOCK_SIZE
      requires HashesBind(env, db, links, block, location)
      modifies this
      ensures r.Err? ==> Valid() && db == old(db) && links == old(links) && top == old(top)
      ensures r.Ok? ==>
                Admit(env, old(db), block, h).Ok? && block.txs != []
                    && links == old(links) + [Link(block, location, paid)]
      ensures r.Ok? ==> TipColumns(old(db), db, block, h, location, Admit(env, old(db), block, h).value)
      ensures r.Ok? && BlockIds(block) !! Ids(old(links)) ==> Valid()
      ensures NoClash(old(db).ledger, block) && Admit(env, old(db), block, h).Ok? ==>
                (r.Ok? <==> ConnectView(env, ViewOf(env, old(db)), block, h, location, paid).Ok?)
      ensures NoClash(old(db).ledger, block) && r.Ok? ==> Replay(env, links) == Ok(ViewOf(env, db))
    {
      hide OnChain; hide HashesBind; hide Admit; hide ConnectView; hide ViewOf; hide ConnectedDb; hide Commit;
      hide NoClash; hide Replay; hide ShortTrees; hide TipColumns; hide Keeping; hide Ids; hide BlockIds;
      var batch := ConnectTip(env, db, block, h, location, paid);
      if batch.Err? { return Err(batch.error); }
      AdmittedBlock(env, db, block, h);
      ghost var links' := links + [Link(block, location, paid)];
      ghost var after := Commit(db, batch.value);
      if BlockIds(block) !! Ids(links) { AdmittedIsReady(env, db, links, top, block, h, location); }
      if NoClash(db.ledger, block) {
        ghost var c := ConnectView(env, ViewOf(env, db), block, h, location, paid).value;
        AdmittedPlace(env, db, links, top, block, h, location);
        ConnectedParts(env, db, after, block, h, location, Admit(env, db, block, h).value, c);
        OnChainView(env, db, links, top);
        ReplayNext(env, links, Link(block, location, paid), ViewOf(env, db));
        if BlockIds(block) !! Ids(links) {
          ConnectStep(env, db, links, links', top, block, h, location, paid, Admit(env, db, block, h).value, c, after);
        }
      }
      top := if top > |links| then top else |links| + 1;
      links := links';
      db := Commit(db, batch.value);
      return Ok(());
    }

    /** Disconnects the tip and commits the batch. It fails only if `hash` is not the tip or its undo
        record has been pruned, and the last 41 blocks below the highest tip ever seen are not. */
    method Disconnect(hash: Hash) returns (r: Result<()>)
      requires Valid()
      modifies this
      ensures Valid() && top == old(top)
      ensures r.Err? ==> db == old(db) && links == old(links)
      ensures r.Ok? ==> links == WithoutTip(old(links)) && Replay(env, links) == Ok(ViewOf(env, db))
      ensures r.Ok? <==> TipHash(old(links)) == Some(hash) && hash in old(db).undos
      ensures TipHash(old(links)) == Some(hash) && |old(links)| + 40 >= top ==> r.Ok?
    {
      hide OnChain; hide FindTarget; hide DisconnectView; hide ViewOf; hide DisconnectedDb; hide Commit; hide Replay;
      hide ShortTrees; hide Step;
      TargetFound(env, db, links, top, hash);
      Retained(env, db, links, top);
      var batch := DisconnectTip(env, db, hash);
      if links != [] { TipTakenBack(env, db, links, top); TipHeader(env, db, links, top); }
      if batch.Err? { return Err(batch.error); }
      ghost var n := |links| - 1;
      DisconnectedParts(env, db, Commit(db, batch.value), hash, Replay(env, links[..n]).value);
      DisconnectStep(env, db, links, top, Commit(db, batch.value));
      links := links[..n];
      db := Commit(db, batch.value);
      return Ok(());
    }
  }

  lemma AdmittedIsReady(env: Env, db: Db, links: Links, top: nat, block: Block, h: nat, location: nat)
    requires OnChain(env, db, links, top) && HashesBind(env, db, links, block, location) && Admit(env, db, block, h).Ok?
    requires BlockIds(block) !! Ids(links)
    ensures NoClash(db.ledger, block)
  {
    hide Admit; hide Replay; hide Stored; hide NewRoots; hide GoodLink; hide HeaderTree; hide DistinctChain;
    hide Reached; hide Ids; hide DistinctIds; hide Unknown; hide FreshRoots; hide Hashes;
    AdmittedPlace(env, db, links, top, block, h, location);
    AdmittedIsNew(env, db, links, block, h, location);
    AdmittedBlock(env, db, block, h);
    TipKnown(env, db, links);
    NewBlockIsFresh(env, links, ViewOf(env, db), block);
    FreshParts(env, db, block, |links|);
    NewHasNoClash(db.ledger, block);
  }

  lemma FreshParts(env: Env, db: Db, block: Block, h: nat)
    requires Fresh(ViewOf(env, db), block, h)
    ensures NewIds(db.ledger, block.txs, 0)
  {
  }

  lemma OnChainView(env: Env, db: Db, links: Links, top: nat)
    requires OnChain(env, db, links, top)
    ensures Replay(env, links) == Ok(ViewOf(env, db))
  {
  }

  lemma Retained(env: Env, db: Db, links: Links, top: nat)
    requires OnChain(env, db, links, top)
    ensures links != [] && |links| + 40 >= top ==> links[|links| - 1].block.hash in db.undos
  {
    hide Stored; hide Replay; hide ViewOf; hide DistinctChain; hide NewRoots; hide GoodLink; hide HeaderTree;
    if links != [] && |links| - 1 + 41 >= top { assert links[|links| - 1].block.hash in db.undos; }
  }

  lemma TipHeader(env: Env, db: Db, links: Links, top: nat)
    requires OnChain(env, db, links, top) && links != []
    ensures var b := links[|links| - 1].block;
            b.hash in db.headers && db.headers[b.hash].height == |links| - 1 && db.headers[b.hash].prev == b.prev
  {
    hide Replay; hide ViewOf; hide DistinctChain; hide NewRoots; hide GoodLink; hide HeaderTree; hide UndoBytes;
    hide Step;
    assert Stored(env, db, links, |links| - 1);
  }

  lemma DisconnectedParts(env: Env, db: Db, after: Db, hash: Hash, view: View)
    requires DisconnectedDb(env, db, after, hash, view)
    ensures ViewOf(env, after) == view && after.headers == db.headers && after.blocks == db.blocks
            && after.undos == db.undos - {hash}
  {
  }

  // ---- there and back ----

  /** No transaction of the block is in the transaction index. */
  predicate NoneIndexed(s: Store, block: Block) { forall j :: 0 <= j < |block.txs| ==> TxAt(block.txs[j].id) !in s }

  ghost predicate Restored(env: Env, db: Db, back: Result<Db>) {
    back.Ok? && ViewOf(env, back.value) == ViewOf(env, db)
  }

  /** Connects a block on any reachable database and takes it back. Whatever indexes are kept, the
      state before is restored exactly when the block is reversible, which the code does not check. A
      block of transactions that are not on the chain always is. With the transaction index on, it is
      exactly when none of its transactions is indexed; with no index at all, when every coin it makes
      again was spent before or is spent first by the block itself. */
  method ConnectAndBack(env: Env, db: Db, block: Block, h: nat, location: nat, paid: seq<OutPoint>, ghost links: Links,
                        ghost top: nat)
    returns (mid: Result<Db>, back: Result<Db>)
    requires ShortTrees(env) && OnChain(env, db, links, top) && HashesBind(env, db, links, block, location)
    requires |links| < I32_MAX && h <= I32_MAX && |paid| <= MAX_BLOCK_SIZE
    ensures mid.Err? ==> back == Err(mid.error)
    ensures NoClash(db.ledger, block) ==>
              (mid.Ok? <==> Admit(env, db, block, h).Ok?
                            && ConnectView(env, ViewOf(env, db), block, h, location, paid).Ok?)
    ensures mid.Ok? ==> BestBlock(mid.value) == Some(block.hash) && DistinctSpends(block)
    ensures mid.Ok? ==> (Restored(env, db, back) <==> Reversible(env, db.ledger, block))
    ensures mid.Ok? && BlockIds(block) !! Ids(links) ==> Restored(env, db, back)
    ensures mid.Ok? && env.options.indexTx ==> (Restored(env, db, back) <==> NoneIndexed(db.ledger, block))
  {
    hide OnChain; hide HashesBind; hide Admit; hide ConnectView; hide ViewOf; hide ConnectedDb; hide Commit;
    hide NoClash; hide Replay; hide ShortTrees; hide TipColumns; hide Keeping; hide Ids; hide BlockIds;
    hide NoneIndexed; hide FindTarget; hide DisconnectView; hide DisconnectedDb; hide BestBlock; hide Reversible;
    hide DistinctSpends; hide Roomy;
    var batch := ConnectTip(env, db, block, h, location, paid);
    if batch.Err? { return Err(batch.error), Err(batch.error); }
    var after := Commit(db, batch.value);
    ghost var header := Admit(env, db, block, h).value;
    AdmittedBlock(env, db, block, h);
    TipIsBest(db, after, block, h, location, header);
    var undone := DisconnectTip(env, after, block.hash);
    back := if undone.Err? then Err(undone.error) else Ok(Commit(after, undone.value));
    AdmittedPlace(env, db, links, top, block, h, location);
    ReversibleHasRoom(env, db, links, top, block);
    NewHasRoom(env, db, links, top, block, h, location);
    if NoClash(db.ledger, block) && Roomy(env, db.ledger, block, |links|, 0, 0) {
      RoomIsRestored(env, db, links, top, block, h, location, paid, header,
                     ConnectView(env, ViewOf(env, db), block, h, location, paid).value, after, undone);
    }
    if !Reversible(env, db.ledger, block) {
      LostForGood(env, db, block, h, location, header, after, undone);
    }
    if env.options.indexTx { IndexedIsOnChain(env, db, links, top, block); }
    return Ok(after), back;
  }

  lemma ReversibleHasRoom(env: Env, db: Db, links: Links, top: nat, block: Block)
    requires OnChain(env, db, links, top) && DistinctSpends(block)
    ensures Reversible(env, db.ledger, block) ==>
              NoClash(db.ledger, block) && Roomy(env, db.ledger, block, |links|, 0, 0)
    ensures env.options.indexTx && !NoneIndexed(db.ledger, block) ==> !Reversible(env, db.ledger, block)
  {
    hide Replay; hide Stored; hide NewRoots; hide GoodLink; hide HeaderTree; hide DistinctChain; hide Roomy;
    hide AddressRows; hide DeltasBelow; hide DistinctSpends; hide Coins; hide NoClash; hide RootKnown;
    hide Supply.Counted; hide KnowsIds; hide KnowsBlocks;
    TipKnown(env, db, links);
    ReplayRows(env, links);
    LedgerViewed(env, db);
    if Reversible(env, db.ledger, block) {
      hide Reversible;
      ReversibleHasNoClash(env, db.ledger, block);
      ReversibleIsRoomy(env, db.ledger, block, |links|);
    }
  }

  lemma NewHasRoom(env: Env, db: Db, links: Links, top: nat, block: Block, h: nat, location: nat)
    requires OnChain(env, db, links, top) && HashesBind(env, db, links, block, location) && Admit(env, db, block, h).Ok?
    ensures BlockIds(block) !! Ids(links) ==> NoClash(db.ledger, block) && Roomy(env, db.ledger, block, |links|, 0, 0)
  {
    hide Admit; hide Replay; hide Stored; hide NewRoots; hide GoodLink; hide HeaderTree; hide DistinctChain;
    hide Reached; hide Ids; hide BlockIds; hide DistinctIds; hide Unknown; hide FreshRoots; hide Hashes; hide Roomy;
    hide NoClash; hide Coins; hide NewIds; hide NewBlock;
    if BlockIds(block) !! Ids(links) {
      AdmittedIsReady(env, db, links, top, block, h, location);
      AdmittedPlace(env, db, links, top, block, h, location);
      AdmittedIsNew(env, db, links, block, h, location);
      AdmittedBlock(env, db, block, h);
      TipKnown(env, db, links);
      NewBlockIsFresh(env, links, ViewOf(env, db), block);
      ReachedParts(env, links, ViewOf(env, db), block);
      LedgerViewed(env, db);
      NewIsRoomy(env, db.ledger, block, |links|);
    }
  }

  lemma TipIsBest(db: Db, after: Db, block: Block, h: nat, location: nat, header: Header)
    requires TipColumns(db, after, block, h, location, header)
    ensures BestBlock(after) == Some(block.hash)
  {
  }

  lemma IndexedIsOnChain(env: Env, db: Db, links: Links, top: nat, block: Block)
    requires OnChain(env, db, links, top) && env.options.indexTx
    ensures NoneIndexed(db.ledger, block) <==> BlockIds(block) !! Ids(links)
  {
    hide Replay; hide Stored; hide NewRoots; hide GoodLink; hide HeaderTree; hide DistinctChain; hide Ids; hide Sound;
    hide Supply.Counted; hide KnowsBlocks; hide Unknown;
    TipKnown(env, db, links);
    RowsOfIds(env, ViewOf(env, db).ledger, Ids(links));
    if BlockIds(block) !! Ids(links) {
      forall j | 0 <= j < |block.txs| ensures TxAt(block.txs[j].id) !in db.ledger {
        assert block.txs[j].id in BlockIds(block);
      }
    }
  }

  lemma RowsOfIds(env: Env, s: Store, ids: set<Hash>)
    requires KnowsIds(env, s, ids) && env.options.indexTx
    ensures forall id: Hash :: TxAt(id) in s <==> id in ids
  {
    forall id: Hash | id !in ids ensures TxAt(id) !in s { assert Unknown(s, id); assert Mentions(TxAt(id), id); }
  }

  lemma NewUndoKept(env: Env, db: Db, links: Links, top: nat, block: Block, h: nat, location: nat, header: Header,
                    c: Connected, after: Db)
    requires OnChain(env, db, links, top) && HashesBind(env, db, links, block, location)
             && Admit(env, db, block, h) == Ok(header)
    requires ConnectedDb(env, db, after, block, h, location, header, c)
    ensures block.hash in after.undos
  {
    hide Stored; hide NewRoots; hide GoodLink; hide DistinctChain; hide Replay; hide HeaderTree; hide UndoBytes;
    hide Reached; hide ViewOf; hide Hashes; hide Admit; hide HashesBind; hide Pruned;
    AdmittedPlace(env, db, links, top, block, h, location);
    AdmittedIsNew(env, db, links, block, h, location);
    TipKnown(env, db, links);
    KnownHeights(env, db, links);
    NotPruned(db, links, |links|, block.hash);
  }

  /** The stored columns of the new tip: its header, its body, and its undo record as it was written. */
  lemma NewTarget(env: Env, db: Db, links: Links, top: nat, block: Block, h: u32, location: nat, paid: seq<OutPoint>,
                  header: Header, c: Connected, after: Db)
    requires ShortTrees(env) && OnChain(env, db, links, top) && HashesBind(env, db, links, block, location)
    requires block.txs != [] && |paid| <= MAX_BLOCK_SIZE && Admit(env, db, block, h) == Ok(header)
    requires ConnectView(env, ViewOf(env, db), block, h, location, paid) == Ok(c)
    requires ConnectedDb(env, db, after, block, h, location, header, c)
    ensures FindTarget(after, block.hash) == Ok(Target(block, header.(hasBlock := true), c.undo))
    ensures TipOf(after, header.prev) == ViewOf(env, db).tip && header.height == h == |links|
    ensures block.hash !in Hashes(links)
  {
    hide ConnectView; hide Admit; hide HashesBind; hide UndoBytes; hide ReadUndo; hide ShortTrees; hide Replay;
    hide Stored; hide NewRoots; hide GoodLink; hide DistinctChain; hide HeaderTree; hide SmallView; hide SmallBlockUndo;
    hide BlockSize; hide ValidBlock; hide Hashes; hide Reached; hide Pruned; hide Tree; hide KnownAnchors;
    AdmittedPlace(env, db, links, top, block, h, location);
    AdmittedIsNew(env, db, links, block, h, location);
    NewUndoKept(env, db, links, top, block, h, location, header, c, after);
    ReplaySmall(env, links);
    AdmittedBlock(env, db, block, h);
    SizeOf(env, block, h);
    BlockSmall(env, ViewOf(env, db), block, h, location, paid);
    UndoReadBack(c.undo);
    TipKnown(env, db, links);
    NotZero(env, db, links, block, location);
    PrevTip(env, db, links, top, block, after, header);
    ConnectedTip(env, ViewOf(env, db), block, h, location, paid);
  }

  lemma NotZero(env: Env, db: Db, links: Links, block: Block, location: nat)
    requires HashesBind(env, db, links, block, location)
    ensures block.hash != ZERO_HASH
  {
  }

  lemma ConnectedTip(env: Env, view: View, block: Block, h: u32, location: nat, paid: seq<OutPoint>)
    requires block.txs != [] && ConnectView(env, view, block, h, location, paid).Ok?
    ensures ConnectView(env, view, block, h, location, paid).value.view.tip == Some(block.hash)
  {
    hide ConnectView; hide StepTxs; hide PayNodes; hide NewAnchors; hide NewTree; hide ValueOut; hide NewStats;
    hide NewPools;
    var run, nodes, t := ConnectedRun(env, view, block, h, location, paid);
  }

  lemma SizeOf(env: Env, block: Block, h: nat)
    requires ValidBlock(env, block, h)
    ensures BlockSize(block) <= MAX_BLOCK_SIZE
  {
  }

  lemma PrevTip(env: Env, db: Db, links: Links, top: nat, block: Block, after: Db, header: Header)
    requires OnChain(env, db, links, top) && header.prev == PrevOf(links, |links|) && block.hash != ZERO_HASH
    requires after.headers == db.headers[block.hash := header.(hasBlock := true)]
    ensures TipOf(after, header.prev) == BestBlock(db) == ViewOf(env, db).tip
  {
    hide Replay; hide NewRoots; hide GoodLink; hide DistinctChain; hide UndoBytes; hide Step; hide Reached;
    TipKnown(env, db, links);
    if links != [] { assert Stored(env, db, links, |links| - 1); }
  }

  /** A block whose rows are new is taken back. */
  lemma RoomIsRestored(env: Env, db: Db, links: Links, top: nat, block: Block, h: u32, location: nat,
                       paid: seq<OutPoint>, header: Header, c: Connected, after: Db, undone: Result<Batch>)
    requires ShortTrees(env) && OnChain(env, db, links, top) && HashesBind(env, db, links, block, location)
    requires block.txs != [] && |links| < I32_MAX && |paid| <= MAX_BLOCK_SIZE
    requires Roomy(env, db.ledger, block, |links|, 0, 0)
    requires Admit(env, db, block, h) == Ok(header)
    requires ConnectView(env, ViewOf(env, db), block, h, location, paid) == Ok(c)
    requires ConnectedDb(env, db, after, block, h, location, header, c)
    requires FindTarget(after, block.hash).Ok? ==>
               var t := FindTarget(after, block.hash).value;
               DisconnectAgrees(env, after, block.hash,
                                DisconnectView(env, ViewOf(env, after), t.block, t.header.height, t.undo,
                                               TipOf(after, t.header.prev)), undone)
    ensures undone.Ok? && ViewOf(env, Commit(after, undone.value)) == ViewOf(env, db)
  {
    hide OnChain; hide HashesBind; hide Admit; hide ConnectView; hide ViewOf; hide ConnectedDb; hide Commit;
    hide Replay; hide ShortTrees; hide FindTarget; hide DisconnectView; hide DisconnectedDb; hide Roomy; hide Sound;
    hide NewBlock;
    hide FreshRoots; hide DistinctIds; hide Hashes; hide Reached; hide DistinctChain;
    NewTarget(env, db, links, top, block, h, location, paid, header, c, after);
    ConnectedParts(env, db, after, block, h, location, header, c);
    AdmittedBlock(env, db, block, h);
    OnChainView(env, db, links, top);
    OnChainDistinct(env, db, links, top);
    TipKnown(env, db, links);
    ReachedPlace(env, links, ViewOf(env, db), block);
    LedgerViewed(env, db);
    RootsBind(env, db, links, block, location);
    RoundTripInRoom(env, ViewOf(env, db), block, h, location, paid);
    DisconnectedParts(env, after, Commit(after, undone.value), block.hash, ViewOf(env, db));
  }

  lemma OnChainDistinct(env: Env, db: Db, links: Links, top: nat)
    requires OnChain(env, db, links, top)
    ensures DistinctChain(links)
  {
  }

  lemma RootsBind(env: Env, db: Db, links: Links, block: Block, location: nat)
    requires HashesBind(env, db, links, block, location)
    ensures FreshRoots(env, ViewOf(env, db), block, |links|, location)
  {
  }

  /** A block that is not reversible leaves another ledger. */
  lemma LostForGood(env: Env, db: Db, block: Block, h: nat, location: nat, header: Header, after: Db,
                    undone: Result<Batch>)
    requires !Reversible(env, db.ledger, block) && TipColumns(db, after, block, h, location, header)
    requires FindTarget(after, block.hash).Err? ==> undone == Err(FindTarget(after, block.hash).error)
    requires FindTarget(after, block.hash).Ok? ==>
               var t := FindTarget(after, block.hash).value;
               DisconnectAgrees(env, after, block.hash,
                                DisconnectView(env, ViewOf(env, after), t.block, t.header.height, t.undo,
                                               TipOf(after, t.header.prev)), undone)
    ensures undone.Err? || ViewOf(env, Commit(after, undone.value)) != ViewOf(env, db)
  {
    hide Commit; hide DisconnectView; hide ViewOf; hide ReadUndo; hide Reversible;
    if undone.Ok? {
      var t := FindTarget(after, block.hash).value;
      NotRestored(env, db.ledger, ViewOf(env, after), t.block, t.header.height, t.undo, TipOf(after, t.header.prev));
      LedgerViewed(env, db);
    }
  }

  lemma LedgerViewed(env: Env, db: Db)
    ensures ViewOf(env, db).ledger == db.ledger
  {
  }
}
