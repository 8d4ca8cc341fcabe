/** How a run's input items are grouped into batches.

    The assembler asks a helper of the package for its batches; that helper is not
    part of this model. `Chunks` is the grouping this model assumes for it, and
    `Concat` relates batches back to the items they hold. */
module Batching {

  /** All the elements of `ss`, in order; built from the back, the way a loop over the
      batches accumulates it. */
  function Concat<T>(ss: seq<seq<T>>): seq<T>
  {
    if ss == [] then [] else Concat(ss[..|ss| - 1]) + ss[|ss| - 1]
  }

  /** The number of elements in the batches before batch `i`. */
  function Offset<T>(ss: seq<seq<T>>, i: nat): nat
    requires i <= |ss|
  {
    |Concat(ss[..i])|
  }

  /** Taking one more batch appends that batch and moves the offset past it. */
  lemma OffsetStep<T>(ss: seq<seq<T>>, i: nat)
    requires i < |ss|
    ensures Concat(ss[..i + 1]) == Concat(ss[..i]) + ss[i]
    ensures Offset(ss, i + 1) == Offset(ss, i) + |ss[i]|
  {
    assert ss[..i + 1][..i] == ss[..i];
  }

  /** Concatenating from the front gives the same sequence as from the back. */
  lemma {:induction false} ConcatCons<T>(s: seq<T>, ss: seq<seq<T>>)
    ensures Concat([s] + ss) == s + Concat(ss)
    decreases |ss|
  {
    if ss == [] {
      assert ([s] + ss)[..0] == [];
    } else {
      var n := |ss|;
      var all := [s] + ss;
      var init := ss[..n - 1];
      assert all[..n] == [s] + init;
      assert all[n] == ss[n - 1];
      assert Concat(all) == Concat([s] + init) + ss[n - 1];
      ConcatCons(s, init);
      assert Concat(ss) == Concat(init) + ss[n - 1];
    }
  }

  /** Consecutive groups of `batchSize` items, the last one possibly shorter; the whole
      input as one group when `batchSize <= 0`; no group at all for empty input. Nothing
      is dropped, duplicated or reordered. */
  function Chunks<T>(items: seq<T>, batchSize: int := 0): (r: seq<seq<T>>)
    ensures Concat(r) == items
    decreases |items|
  {
    if items == [] then []
    else if batchSize <= 0 || |items| <= batchSize then
      assert [items][..0] == [];
      [items]
    else
      var rest := Chunks(items[batchSize..], batchSize);
      ConcatCons(items[..batchSize], rest);
      assert items[..batchSize] + items[batchSize..] == items;
      [items[..batchSize]] + rest
  }

  /** No group is empty; with a positive batch size every group but the last holds
      exactly `batchSize` items and the last at most that many; otherwise there is a
      single group, or none for empty input. */
  lemma {:induction false} ChunkSizes<T>(items: seq<T>, batchSize: int)
    ensures forall i | 0 <= i < |Chunks(items, batchSize)| :: 0 < |Chunks(items, batchSize)[i]|
    ensures batchSize > 0 ==>
      forall i | 0 <= i < |Chunks(items, batchSize)| :: |Chunks(items, batchSize)[i]| <= batchSize
    ensures batchSize > 0 ==>
      forall i | 0 <= i < |Chunks(items, batchSize)| - 1 :: |Chunks(items, batchSize)[i]| == batchSize
    ensures batchSize <= 0 ==> |Chunks(items, batchSize)| == if items == [] then 0 else 1
    decreases |items|
  {
    if items != [] && batchSize > 0 && |items| > batchSize {
      var rest := Chunks(items[batchSize..], batchSize);
      ChunkSizes(items[batchSize..], batchSize);
      assert Chunks(items, batchSize) == [items[..batchSize]] + rest;
      forall i | 1 <= i < |rest| + 1 ensures Chunks(items, batchSize)[i] == rest[i - 1] {
      }
    }
  }

  /** With a positive batch size the number of groups is the ceiling of
      `|items| / batchSize`: the least count whose groups can hold every item. */
  lemma {:induction false} ChunkCount<T>(items: seq<T>, batchSize: int)
    requires batchSize > 0
    ensures |items| <= |Chunks(items, batchSize)| * batchSize < |items| + batchSize
    decreases |items|
  {
    if items != [] && |items| > batchSize {
      var k := |Chunks(items[batchSize..], batchSize)|;
      ChunkCount(items[batchSize..], batchSize);
      assert |Chunks(items, batchSize)| == k + 1;
      assert (k + 1) * batchSize == k * batchSize + batchSize;
    }
  }
}
