/** Sliding windows over the header chain, kept instead of walking back from the tip each time. */
module Windows {
  import opened Basics
  import opened Retarget
  import opened HeaderIndex
  import RetargetLoops

  function Info(e: Entry): (i: HeaderInfo) { HeaderInfo(e.height, e.time, e.bits) }

  /** The last `count` headers up to `tip`, oldest first; fewer when the genesis block is reached. */
  function Collected(hs: Index, tip: Hash, count: nat): (r: Option<seq<HeaderInfo>>)
    decreases count
  {
    if count == 0 then Some([])
    else if tip !in hs then None
    else if hs[tip].height == 0 then Some([Info(hs[tip])])
    else
      var before := Collected(hs, hs[tip].prev, count - 1);
      if before.None? then None else Some(before.value + [Info(hs[tip])])
  }

  function Reversed(s: seq<HeaderInfo>): (r: seq<HeaderInfo>)
    ensures |r| == |s|
  {
    if s == [] then [] else Reversed(s[1..]) + [s[0]]
  }

  lemma {:induction false} ReversedSnoc(s: seq<HeaderInfo>, x: HeaderInfo)
    ensures Reversed(s + [x]) == [x] + Reversed(s)
  {
    if s != [] {
      ReversedSnoc(s[1..], x);
      assert (s + [x])[1..] == s[1..] + [x];
      assert [x] + Reversed(s) == [x] + Reversed(s[1..]) + [s[0]];
    } else {
      assert s + [x] == [x] && Reversed(s) == [];
    }
  }

  function Joined(front: Option<seq<HeaderInfo>>, back: seq<HeaderInfo>): (r: Option<seq<HeaderInfo>>) {
    if front.None? then None else Some(front.value + back)
  }

  /** `collect_headers`: walks back pushing, then reverses. */
  method CollectHeaders(hs: Index, tip: Hash, count: nat) returns (r: Option<seq<HeaderInfo>>)
    ensures r == Collected(hs, tip, count)
  {
    var headers: seq<HeaderInfo> := [];
    var current: Hash := tip;
    assert Joined(Collected(hs, tip, count), Reversed([])) == Collected(hs, tip, count) by {
      assert Collected(hs, tip, count).Some? ==>
        Collected(hs, tip, count).value + [] == Collected(hs, tip, count).value;
    }
    for i := 0 to count
      invariant Collected(hs, tip, count) == Joined(Collected(hs, current, count - i), Reversed(headers))
    {
      if current !in hs { return None; }
      var entry := hs[current];
      ReversedSnoc(headers, Info(entry));
      ghost var before := Collected(hs, entry.prev, count - i - 1);
      assert before.Some? ==>
        before.value + [Info(entry)] + Reversed(headers) == before.value + ([Info(entry)] + Reversed(headers));
      headers := headers + [Info(entry)];
      if entry.height == 0 { return Some(Reversed(headers)); }
      current := entry.prev;
    }
    assert [] + Reversed(headers) == Reversed(headers);
    return Some(Reversed(headers));
  }

  // ---- shorter and longer walks ----

  /** A walk one shorter drops the oldest header, unless the walk had ended at the genesis block. */
  lemma {:induction false} OneLess(hs: Index, tip: Hash, m: nat)
    requires Collected(hs, tip, m + 1).Some?
    ensures var s := Collected(hs, tip, m + 1).value;
            |s| <= m + 1 && Collected(hs, tip, m) == Some(if |s| == m + 1 then s[1..] else s)
    decreases m
  {
    if m == 0 {
      assert Collected(hs, hs[tip].prev, 0) == Some([]);
    } else if hs[tip].height > 0 {
      OneLess(hs, hs[tip].prev, m - 1);
      var t := Collected(hs, hs[tip].prev, m).value;
      assert |t| > 0 ==> (t + [Info(hs[tip])])[1..] == t[1..] + [Info(hs[tip])];
    }
  }

  /** Adding a header does not change walks from the old ones. */
  lemma {:induction false} WalkKept(hs: Index, x: Hash, e: Entry, tip: Hash, count: nat)
    requires AllLinked(hs) && x !in hs && (tip in hs || count == 0)
    ensures Collected(hs[x := e], tip, count) == Collected(hs, tip, count) && Collected(hs, tip, count).Some?
    decreases count
  {
    if count > 0 {
      assert Linked(hs, tip);
      if hs[tip].height > 0 { WalkKept(hs, x, e, hs[tip].prev, count - 1); }
    }
  }

  /** The whole chain up to a header. */
  function Whole(hs: Index, tip: Hash): (r: Option<seq<HeaderInfo>>)
    requires tip in hs
  {
    Collected(hs, tip, hs[tip].height + 1)
  }

  lemma {:induction false} WholeIs(hs: Index, tip: Hash)
    requires AllLinked(hs) && tip in hs
    ensures Whole(hs, tip).Some?
    ensures var s := Whole(hs, tip).value;
            |s| == hs[tip].height + 1 && (forall i :: 0 <= i < |s| ==> s[i].height == i) && s[|s| - 1] == Info(hs[tip])
    decreases hs[tip].height
  {
    assert Linked(hs, tip);
    if hs[tip].height > 0 { WholeIs(hs, hs[tip].prev); }
  }

  /** Walking further than the genesis block finds nothing more. */
  lemma {:induction false} Enough(hs: Index, tip: Hash, count: nat)
    requires AllLinked(hs) && tip in hs && count >= hs[tip].height + 1
    ensures Collected(hs, tip, count) == Whole(hs, tip)
    decreases hs[tip].height
  {
    assert Linked(hs, tip);
    if hs[tip].height > 0 { Enough(hs, hs[tip].prev, count - 1); }
  }

  /** A walk is the end of the whole chain. */
  lemma {:induction false} WalkIsSuffix(hs: Index, tip: Hash, count: nat)
    requires AllLinked(hs) && tip in hs && count <= hs[tip].height + 1
    ensures Whole(hs, tip).Some? && count <= |Whole(hs, tip).value|
    ensures var s := Whole(hs, tip).value; Collected(hs, tip, count) == Some(s[|s| - count..])
    decreases hs[tip].height + 1 - count
  {
    WholeIs(hs, tip);
    var s := Whole(hs, tip).value;
    if count == |s| {
      assert s[0..] == s;
    } else {
      WalkIsSuffix(hs, tip, count + 1);
      OneLess(hs, tip, count);
      assert s[|s| - count - 1..][1..] == s[|s| - count..];
    }
  }

  // ---- the window ----

  class HeaderWindow {
    var tip: Hash
    var window: seq<HeaderInfo>
    const size: nat

    /** The window is what walking back from its tip would collect. */
    ghost predicate Matches(hs: Index)
      reads this
    {
      size > 0 && tip in hs && Collected(hs, tip, size) == Some(window)
    }

    constructor (hs: Index, tip: Hash, size: nat)
      requires AllLinked(hs) && tip in hs && size > 0
      ensures Matches(hs) && this.tip == tip && this.size == size
    {
      this.tip := tip;
      this.size := size;
      this.window := [];
      new;
      WalkFinds(hs, tip, size);
      var chain := CollectHeaders(hs, tip, size);
      if chain.Some? { window := chain.value; }
    }

    /** A new header on the tip slides the window. */
    method Advance(hash: Hash, e: Entry, ghost hs: Index)
      requires Matches(hs) && AllLinked(hs) && hash !in hs && e.prev == tip && e.height > 0
      modifies this
      ensures tip == hash && Matches(hs[hash := e])
    {
      hide Collected; hide AllLinked;
      SlideIs(hs, tip, size, window, hash, e);
      ghost var pushed := window + [Info(e)];
      tip := hash;
      window := window + [Info(e)];
      while |window| > size
        invariant tip == hash && |window| <= |pushed| && window == pushed[|pushed| - |window|..]
        invariant |window| >= (if |pushed| > size then size else |pushed|)
        decreases |window|
      {
        window := window[1..];
      }
    }

    /** The bits asked for on the window are those asked for on the whole history. */
    method ExpectedBits(p: Rules, nextTime: int, ghost hs: Index) returns (r: Outcome)
      requires Matches(hs) && AllLinked(hs) && LongEnough(p, size)
      ensures Whole(hs, tip).Some? && r == NextWork(p, Whole(hs, tip).value, Some(nextTime))
    {
      r := RetargetLoops.NextRequired(p, window, Some(nextTime));
      WindowBits(p, hs, tip, size, window, nextTime);
    }

    /** The median time on a window of eleven is that of the whole history. */
    method MedianTime(ghost hs: Index) returns (t: int)
      requires Matches(hs) && AllLinked(hs) && size == 11
      ensures Whole(hs, tip).Some? && Whole(hs, tip).value != []
              && t == MedianAt(Whole(hs, tip).value, |Whole(hs, tip).value| - 1)
    {
      WindowMedian(hs, tip, window);
      t := Sort(Times(window))[|window| / 2];
    }
  }

  lemma SlideIs(hs: Index, tip: Hash, size: nat, window: seq<HeaderInfo>, hash: Hash, e: Entry)
    requires AllLinked(hs) && size > 0 && tip in hs && Collected(hs, tip, size) == Some(window) && hash !in hs
             && e.prev == tip && e.height > 0
    ensures var pushed := window + [Info(e)];
            && |pushed| <= size + 1
            && Collected(hs[hash := e], hash, size) == Some(pushed[if |pushed| > size then 1 else 0..])
  {
    WalkKept(hs, hash, e, tip, size - 1);
    OneLess(hs, tip, size - 1);
    var pushed := window + [Info(e)];
    if |pushed| > size { assert pushed[1..] == window[1..] + [Info(e)]; } else { assert pushed[0..] == pushed; }
  }

  lemma WalkFinds(hs: Index, tip: Hash, count: nat)
    requires AllLinked(hs) && tip in hs
    ensures Collected(hs, tip, count).Some?
  {
    if count <= hs[tip].height + 1 { WalkIsSuffix(hs, tip, count); } else { Enough(hs, tip, count); WholeIs(hs, tip); }
  }

  lemma WindowBits(p: Rules, hs: Index, tip: Hash, size: nat, window: seq<HeaderInfo>, nextTime: int)
    requires AllLinked(hs) && tip in hs && Collected(hs, tip, size) == Some(window) && LongEnough(p, size)
    ensures Whole(hs, tip).Some?
    ensures NextWork(p, window, Some(nextTime)) == NextWork(p, Whole(hs, tip).value, Some(nextTime))
  {
    hide NextWork; hide Collected;
    WholeIs(hs, tip);
    var s := Whole(hs, tip).value;
    if size <= |s| {
      WalkIsSuffix(hs, tip, size);
      WindowIsEnough(p, s, size, Some(nextTime));
    } else {
      Enough(hs, tip, size);
    }
  }

  lemma WindowMedian(hs: Index, tip: Hash, window: seq<HeaderInfo>)
    requires AllLinked(hs) && tip in hs && Collected(hs, tip, 11) == Some(window)
    ensures Whole(hs, tip).Some? && Whole(hs, tip).value != [] && window != []
    ensures Sort(Times(window))[|window| / 2] == MedianAt(Whole(hs, tip).value, |Whole(hs, tip).value| - 1)
  {
    hide Sort; hide Times; hide Collected;
    WholeIs(hs, tip);
    var s := Whole(hs, tip).value;
    if 11 <= |s| {
      WalkIsSuffix(hs, tip, 11);
      assert s[|s| - 11..] == s[|s| - 11..|s|];
    } else {
      Enough(hs, tip, 11);
      assert s[0..|s|] == s;
    }
  }
}
