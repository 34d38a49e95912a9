/**
 The offline telemetry buffer. When it outgrows its limit it keeps its first and last snapshot and
 every other one in between, so that what it holds still spans the whole offline period.
 */
module SnapshotBuffer {
  import opened Basics

  // ---- ordered subsequences ----

  /** `s` consists of the elements of `t` at the strictly increasing positions `at`. */
  ghost predicate Picks<T(!new)>(at: seq<nat>, s: seq<T>, t: seq<T>) {
    && |at| == |s|
    && (forall k | 0 <= k < |at| :: at[k] < |t| && s[k] == t[at[k]])
    && (forall j, k | 0 <= j < k < |at| :: at[j] < at[k])
  }

  ghost predicate Subsequence<T(!new)>(s: seq<T>, t: seq<T>) {
    exists at: seq<nat> :: Picks(at, s, t)
  }

  lemma SubsequenceOfItself<T(!new)>(s: seq<T>)
    ensures Subsequence(s, s)
  {
    assert Picks(seq(|s|, k => k), s, s);
  }

  lemma SubsequenceTrans<T(!new)>(r: seq<T>, s: seq<T>, t: seq<T>)
    requires Subsequence(r, s) && Subsequence(s, t)
    ensures Subsequence(r, t)
  {
    var a: seq<nat> :| Picks(a, r, s);
    var b: seq<nat> :| Picks(b, s, t);
    assert Picks(seq(|a|, k requires 0 <= k < |a| => b[a[k]]), r, t);
  }

  lemma SubsequenceAppend<T(!new)>(s: seq<T>, t: seq<T>, x: T)
    requires Subsequence(s, t)
    ensures Subsequence(s + [x], t + [x])
  {
    var a: seq<nat> :| Picks(a, s, t);
    assert Picks(a + [|t|], s + [x], t + [x]);
  }

  // ---- subsampling ----

  /** The elements at positions `from`, `from + 2`, ... before the last position. */
  function EveryOther<T>(s: seq<T>, from: nat): seq<T>
    decreases |s| - from
  {
    if from + 1 < |s| then [s[from]] + EveryOther(s, from + 2) else []
  }

  function Subsample<T>(s: seq<T>): seq<T> {
    if |s| < 3 then s else [s[0]] + EveryOther(s, 1) + [s[|s| - 1]]
  }

  /** Which position of `n` the subsample keeps at its position `k`. */
  function Kept(n: nat, k: nat): nat
    requires n >= 3 && k < (n - 1) / 2 + 2
  {
    if k == 0 then 0 else if k == (n - 1) / 2 + 1 then n - 1 else 2 * k - 1
  }

  lemma {:induction false} EveryOtherAt<T(!new)>(s: seq<T>, from: nat)
    requires from + 1 <= |s|
    ensures |EveryOther(s, from)| == (|s| - from) / 2
    ensures forall k | 0 <= k < (|s| - from) / 2 :: EveryOther(s, from)[k] == s[from + 2 * k]
    decreases |s| - from
  {
    if from + 2 < |s| {
      EveryOtherAt(s, from + 2);
    }
  }

  lemma SubsampleAt<T(!new)>(s: seq<T>, k: nat)
    requires |s| >= 3 && k < (|s| - 1) / 2 + 2
    ensures |Subsample(s)| == (|s| - 1) / 2 + 2 && Subsample(s)[k] == s[Kept(|s|, k)]
  {
    EveryOtherAt(s, 1);
    var middle := EveryOther(s, 1);
    assert Subsample(s) == [s[0]] + middle + [s[|s| - 1]];
    if 0 < k <= |middle| {
      assert Subsample(s)[k] == middle[k - 1];
    }
  }

  lemma SubsampleIsSubsequence<T(!new)>(s: seq<T>)
    ensures Subsequence(Subsample(s), s)
  {
    if |s| < 3 {
      SubsequenceOfItself(s);
    } else {
      var n := |s|;
      var at := seq((n - 1) / 2 + 2, k requires 0 <= k < (n - 1) / 2 + 2 => Kept(n, k));
      forall k | 0 <= k < |at|
        ensures |Subsample(s)| == |at| && Subsample(s)[k] == s[at[k]]
      {
        SubsampleAt(s, k);
      }
      SubsampleAt(s, 0);
      assert Picks(at, Subsample(s), s);
    }
  }

  /** Both ends survive, and three or more snapshots never become more. */
  lemma SubsampleKeepsEnds<T(!new)>(s: seq<T>)
    requires s != []
    ensures 0 < |Subsample(s)| <= |s| && Subsample(s)[0] == s[0] && Subsample(s)[|Subsample(s)| - 1] == s[|s| - 1]
    ensures |s| > 3 ==> |Subsample(s)| < |s|
  {
    if |s| >= 3 {
      SubsampleAt(s, 0);
    }
  }

  // ---- what the buffer holds ----

  function Limit(items: seq<Item>, maxSize: int): seq<Item> {
    if maxSize > 0 && |items| > maxSize then Subsample(items) else items
  }

  /** The buffer after it was loaded with `loaded` and the snapshots `added` were added one by one. */
  function AddAll(loaded: seq<Item>, added: seq<Item>, maxSize: int): seq<Item> {
    if added == [] then loaded
    else Limit(AddAll(loaded, added[..|added| - 1], maxSize) + [added[|added| - 1]], maxSize)
  }

  /** `items` spans `history`: an ordered subsequence with the same first and last snapshot. */
  ghost predicate Spans(items: seq<Item>, history: seq<Item>) {
    && Subsequence(items, history) && (items == [] <==> history == [])
    && (items != [] ==> items[0] == history[0] && items[|items| - 1] == history[|history| - 1])
  }

  function Max(a: int, b: int): int {
    if a < b then b else a
  }

  lemma AddKeepsSpan(items: seq<Item>, history: seq<Item>, x: Item, maxSize: int)
    requires Spans(items, history)
    ensures Spans(Limit(items + [x], maxSize), history + [x])
  {
    SubsequenceAppend(items, history, x);
    SubsampleKeepsEnds(items + [x]);
    SubsampleIsSubsequence(items + [x]);
    SubsequenceTrans(Subsample(items + [x]), items + [x], history + [x]);
  }

  lemma AddKeepsSize(items: seq<Item>, x: Item, maxSize: int, bound: int)
    requires maxSize > 0 && maxSize <= bound && 3 <= bound && |items| <= bound
    ensures |Limit(items + [x], maxSize)| <= bound
  {
    SubsampleKeepsEnds(items + [x]);
  }

  /** However many snapshots are added, the buffer spans everything loaded or added. */
  lemma {:induction false} BufferSpansEverything(loaded: seq<Item>, added: seq<Item>, maxSize: int)
    ensures Spans(AddAll(loaded, added, maxSize), loaded + added)
  {
    if added == [] {
      assert loaded + added == loaded;
      SubsequenceOfItself(loaded);
    } else {
      var n := |added| - 1;
      BufferSpansEverything(loaded, added[..n], maxSize);
      AddKeepsSpan(AddAll(loaded, added[..n], maxSize), loaded + added[..n], added[n], maxSize);
      AppendOne(loaded, added);
    }
  }

  lemma AppendOne(loaded: seq<Item>, added: seq<Item>)
    requires added != []
    ensures loaded + added[..|added| - 1] + [added[|added| - 1]] == loaded + added
  {
  }

  /**
   With a positive limit the buffer never exceeds the largest of the limit, three and the loaded
   size; without one it keeps everything.
   */
  lemma {:induction false} BufferStaysSmall(loaded: seq<Item>, added: seq<Item>, maxSize: int)
    ensures maxSize > 0 ==> |AddAll(loaded, added, maxSize)| <= Max(Max(maxSize, 3), |loaded|)
    ensures maxSize <= 0 ==> AddAll(loaded, added, maxSize) == loaded + added
  {
    if added != [] {
      var n := |added| - 1;
      BufferStaysSmall(loaded, added[..n], maxSize);
      BoundKept(AddAll(loaded, added[..n], maxSize), added[n], maxSize, |loaded|);
      AppendOne(loaded, added);
    }
  }

  lemma {:induction false} FewAreAllKept(loaded: seq<Item>, added: seq<Item>, maxSize: int)
    requires |loaded| + |added| <= 3
    ensures AddAll(loaded, added, maxSize) == loaded + added
  {
    if added != [] {
      var n := |added| - 1;
      FewAreAllKept(loaded, added[..n], maxSize);
      AppendOne(loaded, added);
      ThreeSubsampleToThree(loaded + added);
    }
  }

  /**
   All snapshots are kept exactly when together they are within the limit, or no more than three; otherwise some are
   dropped as soon as one is added.
   */
  lemma {:induction false} AllKeptIff(loaded: seq<Item>, added: seq<Item>, maxSize: int)
    requires maxSize > 0
    ensures var total := |loaded| + |added|;
            && (AddAll(loaded, added, maxSize) == loaded + added <==> added == [] || total <= Max(maxSize, 3))
            && (added != [] && total > Max(maxSize, 3) ==> |AddAll(loaded, added, maxSize)| < total)
  {
    if added == [] {
      assert loaded + added == loaded;
    } else {
      var n := |added| - 1;
      var held := AddAll(loaded, added[..n], maxSize);
      AllKeptIff(loaded, added[..n], maxSize);
      AppendOne(loaded, added);
      OneAdd(held, added[n], maxSize);
      assert AddAll(loaded, added, maxSize) == AddAll(held, [added[n]], maxSize) by {
        assert AddAll(held, [added[n]][..0], maxSize) == held;
      }
    }
  }

  /**
   One snapshot more is kept with all others while they are within the limit, or no more than three. Otherwise of
   the `n` snapshots there are then, the first, the last, and those at odd positions stay.
   */
  lemma OneAdd(items: seq<Item>, x: Item, maxSize: int)
    requires maxSize > 0
    ensures var all := items + [x];
            var t := AddAll(items, [x], maxSize);
            if |all| <= Max(maxSize, 3) then t == all
            else
              && |t| == (|all| - 1) / 2 + 2 < |all|
              && t[0] == all[0] && t[|t| - 1] == x
              && forall k | 0 < k < |t| - 1 :: t[k] == all[2 * k - 1]
  {
    var all := items + [x];
    assert AddAll(items, [x][..0], maxSize) == items;
    if |all| <= 3 {
      ThreeSubsampleToThree(all);
    } else {
      forall k | 0 <= k < (|all| - 1) / 2 + 2
        ensures |Subsample(all)| == (|all| - 1) / 2 + 2 && Subsample(all)[k] == all[Kept(|all|, k)]
      {
        SubsampleAt(all, k);
      }
      SubsampleAt(all, 0);
    }
  }

  lemma ThreeSubsampleToThree(s: seq<Item>)
    requires |s| <= 3
    ensures Subsample(s) == s
  {
    if |s| == 3 {
      assert EveryOther(s, 1) == [s[1]];
    }
  }

  /**
   The buffer stays within a positive limit whatever is added exactly when the limit is three or more and it was
   loaded within it.
   */
  lemma WithinLimitIff(loaded: seq<Item>, maxSize: int, x: Item)
    requires maxSize > 0
    ensures (forall added :: |AddAll(loaded, added, maxSize)| <= maxSize) <==> (maxSize >= 3 && |loaded| <= maxSize)
  {
    if maxSize >= 3 && |loaded| <= maxSize {
      forall added
        ensures |AddAll(loaded, added, maxSize)| <= maxSize
      {
        BufferStaysSmall(loaded, added, maxSize);
      }
    } else if |loaded| > maxSize {
      assert AddAll(loaded, [], maxSize) == loaded;
    } else {
      var added := seq(3 - |loaded|, k => x);
      FewAreAllKept(loaded, added, maxSize);
      assert |AddAll(loaded, added, maxSize)| == 3;
    }
  }

  lemma BoundKept(items: seq<Item>, x: Item, maxSize: int, loaded: nat)
    requires maxSize > 0 ==> |items| <= Max(Max(maxSize, 3), loaded)
    ensures maxSize > 0 ==> |Limit(items + [x], maxSize)| <= Max(Max(maxSize, 3), loaded)
  {
    if maxSize > 0 {
      AddKeepsSize(items, x, maxSize, Max(Max(maxSize, 3), loaded));
    }
  }

  // ---- the object ----

  datatype Stamp = Absolute(text: string) | Relative(offset: int)
  datatype Item = Item(data: string, stamp: Stamp, session: string)
  datatype Sample = Sample(data: string, stamp: Stamp)

  /** The clock at the time of a flush; `project` turns a relative stamp into an absolute one if it can. */
  datatype Clock = Clock(session: string, valid: bool, project: Stamp -> Option<Stamp>)

  predicate Sendable(c: Clock, i: Item) {
    i.stamp.Relative? ==> i.session == c.session
  }

  function Projected(c: Clock, i: Item): Sample {
    Sample(i.data, if i.stamp.Relative? && c.valid && c.project(i.stamp).Some? then c.project(i.stamp).value
        else i.stamp)
  }

  /** What a flush sends: relative stamps of other sessions are left out, the others projected. */
  function Batch(c: Clock, items: seq<Item>): seq<Sample> {
    if items == [] then []
    else
      var rest := Batch(c, items[..|items| - 1]);
      var last := items[|items| - 1];
      if Sendable(c, last) then rest + [Projected(c, last)] else rest
  }

  /** The items at the positions `at`, and no others, are of this session or have an absolute time. */
  ghost predicate Chooses(at: seq<nat>, c: Clock, items: seq<Item>) {
    && (forall k | 0 <= k < |at| :: at[k] < |items|)
    && (forall j, k | 0 <= j < k < |at| :: at[j] < at[k])
    && (forall i: nat :: i in at <==> i < |items| && (items[i].stamp.Absolute? || items[i].session == c.session))
  }

  /**
   A batch holds, in order, exactly the items of this session or with an absolute time. Their data is unchanged, and
   so is their time, but a relative one that a valid clock can project is projected.
   */
  lemma {:induction false} BatchIsProjection(c: Clock, items: seq<Item>) returns (at: seq<nat>)
    ensures Chooses(at, c, items) && |Batch(c, items)| == |at|
    ensures forall k | 0 <= k < |at| ::
              var i := items[at[k]];
              && Batch(c, items)[k].data == i.data
              && Batch(c, items)[k].stamp == if i.stamp.Relative? && c.valid && c.project(i.stamp).Some?
                                             then c.project(i.stamp).value else i.stamp
  {
    if items == [] {
      return [];
    }
    var n := |items| - 1;
    at := BatchIsProjection(c, items[..n]);
    assert forall k | 0 <= k < |at| :: items[at[k]] == items[..n][at[k]];
    if items[n].stamp.Absolute? || items[n].session == c.session {
      at := at + [n];
    }
  }

  method SubsampleLoop(items: seq<Item>) returns (out: seq<Item>)
    ensures out == Subsample(items)
  {
    if |items| < 3 {
      return items;
    }
    out := [items[0]];
    var i := 1;
    while i < |items| - 1
      invariant 1 <= i <= |items|
      invariant out + EveryOther(items, i) == [items[0]] + EveryOther(items, 1)
    {
      out := out + [items[i]];
      i := i + 2;
    }
    out := out + [items[|items| - 1]];
  }

  class Buffer {
    const enabled: bool
    const maxSize: int
    var items: seq<Item>
    /** Everything loaded or added since the buffer was last emptied, and the size it was loaded with. */
    ghost var history: seq<Item>
    ghost const loaded: nat

    ghost predicate Valid()
      reads this
    {
      && Spans(items, history)
      && (maxSize > 0 ==> |items| <= Max(Max(maxSize, 3), loaded))
    }

    constructor (enabled: bool, maxSize: int, stored: seq<Item>)
      ensures Valid() && items == history == stored && loaded == |stored|
      ensures this.enabled == enabled && this.maxSize == maxSize
    {
      this.enabled, this.maxSize := enabled, maxSize;
      items, history, loaded := stored, stored, |stored|;
      SubsequenceOfItself(stored);
    }

    method Add(x: Item)
      requires Valid()
      modifies this
      ensures Valid()
      ensures enabled ==> items == Limit(old(items) + [x], maxSize) && history == old(history) + [x]
      ensures !enabled ==> items == old(items) && history == old(history)
    {
      if !enabled {
        return;
      }
      AddKeepsSpan(items, history, x, maxSize);
      BoundKept(items, x, maxSize, loaded);
      items := items + [x];
      if maxSize > 0 && |items| > maxSize {
        items := SubsampleLoop(items);
      }
      history := history + [x];
    }

    /** A flush either sends the whole batch and empties the buffer, or keeps everything. */
    method Flush(clock: Clock, connected: bool, accepted: bool) returns (sent: Option<seq<Sample>>)
      requires Valid()
      modifies this
      ensures Valid()
      ensures sent.Some? <==> enabled && connected && accepted && Batch(clock, old(items)) != []
      ensures sent.Some? ==> sent.value == Batch(clock, old(items)) && items == [] && history == []
      ensures sent.None? && (!enabled || !connected || Batch(clock, old(items)) != []) ==>
                items == old(items) && history == old(history)
      ensures enabled && connected && Batch(clock, old(items)) == [] ==> items == [] && history == []
    {
      sent := None;
      if !enabled || |items| == 0 || !connected {
        return;
      }
      var batch := [];
      for i := 0 to |items|
        invariant batch == Batch(clock, items[..i])
      {
        assert items[..i + 1][..i] == items[..i];
        var it := items[i];
        var stamp := it.stamp;
        if stamp.Relative? {
          if it.session != clock.session {
            continue;
          }
          if clock.valid {
            var projected := clock.project(stamp);
            if projected.Some? {
              stamp := projected.value;
            }
          }
        }
        batch := batch + [Sample(it.data, stamp)];
      }
      assert items[..|items|] == items;
      if batch != [] && !accepted {
        return;
      }
      if batch != [] {
        sent := Some(batch);
      }
      items, history := [], [];
      SubsequenceOfItself<Item>([]);
    }
  }
}
