/** The time index: along every chain, blocks have strictly rising times that follow their headers'. */
module Timestamps {
  import opened Basics
  import opened Chain
  import opened Sequential
  import opened Rewind
  import opened ActiveChain
  import opened ChainRun

  const LAST_TIME: u32 := U32_LIMIT - 1

  /** Every block names the one before it, and none has the hash that stands for no block. */
  predicate Joined(links: Links) {
    forall i :: 0 <= i < |links| ==> links[i].block.prev == PrevOf(links, i) && links[i].block.hash != ZERO_HASH
  }

  /** A block's time is its header's, or one second after the block before if that is later. */
  predicate TimeRight(links: Links, view: View, i: nat)
    requires i < |links|
  {
    var x := links[i].block.hash;
    && x in view.times && (view.times[x], x) in view.timeIndex
    && if i == 0 then view.times[x] == links[0].block.time
       else
         var prev := links[i - 1].block.hash;
         prev in view.times && view.times[x] == Later(links[i].block.time, view.times[prev])
  }

  /** The later of `t` and the second after `prev`, within 32 bits. */
  function Later(t: u32, prev: u32): (r: u32)
    ensures r >= t && (r > prev || r == LAST_TIME)
  {
    if prev < LAST_TIME && t < prev + 1 then prev + 1 else if prev == LAST_TIME then LAST_TIME else t
  }

  /** In every chain state with the time index on, the times of all blocks are right, so they rise until
      the end of the 32-bit range. */
  lemma {:induction false} TimesRise(env: Env, links: Links)
    requires Replay(env, links).Ok? && DistinctChain(links) && Joined(links) && env.options.indexTime
    ensures forall i :: 0 <= i < |links| ==> TimeRight(links, Replay(env, links).value, i)
    decreases |links|
  {
    hide ConnectView; hide BlockIds; hide Ids; hide Hashes; hide TimeRight; hide Joined;
    if links != [] {
      JoinedFront(links);
      LastIsNew(links);
      hide DistinctChain;
      TimesRise(env, links[..|links| - 1]);
      TimesNext(env, links);
    }
  }

  lemma TimesNext(env: Env, links: Links)
    requires links != [] && Replay(env, links).Ok? && Joined(links) && env.options.indexTime
    requires var front := links[..|links| - 1];
             && Replay(env, front).Ok? && links[|links| - 1].block.hash !in Hashes(front)
             && forall i :: 0 <= i < |front| ==> TimeRight(front, Replay(env, front).value, i)
    ensures forall i :: 0 <= i < |links| ==> TimeRight(links, Replay(env, links).value, i)
  {
    hide Replay; hide Hashes; hide TimeRight; hide Joined;
    var n := |links| - 1;
    var front := links[..n];
    if n > 0 {
      HashIn(front, n - 1);
      assert TimeRight(front, Replay(env, front).value, n - 1);
    }
    LastTime(env, links);
    forall i | 0 <= i < n ensures TimeRight(links, Replay(env, links).value, i) {
      assert TimeRight(front, Replay(env, front).value, i);
      HashIn(front, i);
      if i > 0 { HashIn(front, i - 1); }
      TimeKept(env, links, i);
    }
  }

  lemma JoinedFront(links: Links)
    requires Joined(links) && links != []
    ensures Joined(links[..|links| - 1])
  {
    var front := links[..|links| - 1];
    forall i | 0 <= i < |front|
      ensures front[i].block.prev == PrevOf(front, i) && front[i].block.hash != ZERO_HASH
    {
      assert links[i].block.prev == PrevOf(links, i);
    }
  }

  /** What the last block adds to the index. */
  lemma TimeAdded(env: Env, links: Links)
    requires links != [] && Replay(env, links).Ok? && env.options.indexTime
    ensures var n := |links| - 1;
            var before, after, block := Replay(env, links[..n]).value, Replay(env, links).value, links[n].block;
            && after.times == before.times[block.hash := LogicalTime(before, block)]
            && after.timeIndex == before.timeIndex + {(LogicalTime(before, block), block.hash)}
  {
    hide ConnectView; hide StepTxs; hide PayNodes; hide NewAnchors; hide NewTree; hide ValueOut; hide NewStats;
    hide NewPools; hide LogicalTime;
    var n := |links| - 1;
    var before := Replay(env, links[..n]).value;
    var run, nodes, t := ConnectedRun(env, before, links[n].block, n, links[n].location, links[n].paid);
  }

  lemma TimeKept(env: Env, links: Links, i: nat)
    requires Replay(env, links).Ok? && env.options.indexTime && i < |links| - 1
    requires TimeRight(links[..|links| - 1], Replay(env, links[..|links| - 1]).value, i)
    requires links[i].block.hash != links[|links| - 1].block.hash
             && (i > 0 ==> links[i - 1].block.hash != links[|links| - 1].block.hash)
    ensures TimeRight(links, Replay(env, links).value, i)
  {
    hide Replay; hide LogicalTime;
    TimeAdded(env, links);
  }

  lemma LastTime(env: Env, links: Links)
    requires links != [] && Replay(env, links).Ok? && env.options.indexTime && Joined(links)
    requires |links| > 1 ==> TimeRight(links[..|links| - 1], Replay(env, links[..|links| - 1]).value, |links| - 2)
    requires |links| > 1 ==> links[|links| - 1].block.hash != links[|links| - 2].block.hash
    ensures TimeRight(links, Replay(env, links).value, |links| - 1)
  {
    hide Replay;
    TimeAdded(env, links);
    var n := |links| - 1;
    assert links[n].block.prev == PrevOf(links, n);
    if n > 0 { assert links[n - 1].block.hash != ZERO_HASH; }
  }

  /** The chain of every database the node reaches is joined. */
  lemma OnChainJoined(env: Env, db: Db, links: Links, top: nat)
    requires OnChain(env, db, links, top)
    ensures Joined(links)
  {
    hide Replay; hide ViewOf; hide DistinctChain; hide NewRoots; hide GoodLink; hide Step;
    forall i | 0 <= i < |links|
      ensures links[i].block.prev == PrevOf(links, i) && links[i].block.hash != ZERO_HASH
    {
      assert Stored(env, db, links, i);
    }
  }
}
