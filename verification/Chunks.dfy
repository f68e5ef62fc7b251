/** helpers/utilities/utils.ts: `chunk`. */
module Chunks {

  /** JavaScript's `slice(from, to)`: the end is cut at the array's length. */
  function Slice<T>(arr: seq<T>, from: nat, to: nat): seq<T>
    requires from <= |arr| && from <= to
  {
    arr[from..if to <= |arr| then to else |arr|]
  }

  /**
    The reduce from index `i` on: an index divisible by the size contributes a slice. With size 0 the
    remainder is NaN, so every index contributes an empty slice.
   */
  function ChunkFrom<T>(arr: seq<T>, size: nat, i: nat): seq<seq<T>>
    requires i <= |arr|
    decreases |arr| - i
  {
    if i == |arr| then []
    else if size == 0 || i % size == 0 then [Slice(arr, i, i + size)] + ChunkFrom(arr, size, i + 1)
    else ChunkFrom(arr, size, i + 1)
  }

  function Chunk<T>(arr: seq<T>, size: nat): seq<seq<T>> {
    ChunkFrom(arr, size, 0)
  }

  function Flatten<T>(parts: seq<seq<T>>): seq<T> {
    if parts == [] then [] else parts[0] + Flatten(parts[1..])
  }

  /** The next index at or after `i` at which a chunk starts, or the end. */
  function NextStart(i: nat, size: nat, n: nat): (k: nat)
    requires size > 0 && i <= n
    ensures i <= k <= n
    ensures k < n ==> k % size == 0
    ensures forall j :: i <= j < k ==> j % size != 0
    decreases n - i
  {
    if i == n || i % size == 0 then i else NextStart(i + 1, size, n)
  }

  /** Remainders are unique. */
  lemma RemainderUnique(x: int, q: int, r: int, size: nat)
    requires size > 0 && x == q * size + r && 0 <= r < size
    ensures x % size == r
  {
    var d, m := x / size, x % size;
    assert (q - d) * size == m - r;
    if q != d {
      ProductAtLeast(q - d, size);
    }
  }

  lemma ProductAtLeast(k: int, size: nat)
    requires k != 0
    ensures k * size >= size || k * size <= -(size as int)
  {
  }

  lemma RemainderStep(i: nat, size: nat, j: nat)
    requires size > 0 && i % size == 0 && j <= size
    ensures (i + j) % size == if j == size then 0 else j
  {
    var q := i / size;
    if j == size {
      assert i + j == (q + 1) * size + 0;
      RemainderUnique(i + j, q + 1, 0, size);
    } else {
      assert i + j == q * size + j;
      RemainderUnique(i + j, q, j, size);
    }
  }

  /** From a chunk start the next one is `size` further. */
  lemma NextStartStep(i: nat, size: nat, n: nat)
    requires size > 0 && i < n && i % size == 0
    ensures NextStart(i + 1, size, n) == if i + size <= n then i + size else n
  {
    var k := NextStart(i + 1, size, n);
    if k < i + size {
      RemainderStep(i, size, k - i);
    } else if i + size <= n {
      RemainderStep(i, size, size);
    }
  }

  lemma {:induction false} FlattenCons<T>(head: seq<T>, tail: seq<seq<T>>)
    ensures Flatten([head] + tail) == head + Flatten(tail)
  {
    assert ([head] + tail)[1..] == tail;
  }

  /** A chunk ends where the next one starts, or at the end of the array. */
  lemma {:induction false} SliceMeets<T>(arr: seq<T>, i: nat, size: nat, next: nat)
    requires i < |arr| && next == (if i + size <= |arr| then i + size else |arr|)
    ensures Slice(arr, i, i + size) + arr[next..] == arr[i..]
  {
  }

  lemma {:induction false} ChunkSizes<T>(arr: seq<T>, size: nat, i: nat)
    requires size > 0 && i <= |arr|
    ensures forall c :: c in ChunkFrom(arr, size, i) ==> 0 < |c| <= size
    decreases |arr| - i
  {
    if i < |arr| {
      ChunkSizes(arr, size, i + 1);
    }
  }

  /** A chunk and what follows the next start are what follows its own start. */
  lemma {:induction false} ChunkStarts<T>(arr: seq<T>, size: nat, i: nat)
    requires size > 0 && i < |arr| && i % size == 0
    ensures NextStart(i, size, |arr|) == i
    ensures Slice(arr, i, i + size) + arr[NextStart(i + 1, size, |arr|)..] == arr[i..]
  {
    NextStartStep(i, size, |arr|);
    SliceMeets(arr, i, size, NextStart(i + 1, size, |arr|));
  }

  lemma {:induction false} ChunkFromFlattens<T>(arr: seq<T>, size: nat, i: nat)
    requires size > 0 && i <= |arr|
    ensures Flatten(ChunkFrom(arr, size, i)) == arr[NextStart(i, size, |arr|)..]
    decreases |arr| - i
  {
    if i < |arr| {
      ChunkFromFlattens(arr, size, i + 1);
      if i % size == 0 {
        ChunkStarts(arr, size, i);
        FlattenCons(Slice(arr, i, i + size), ChunkFrom(arr, size, i + 1));
      }
    }
  }

  /** All chunks but the last are full. */
  lemma {:induction false} ChunksFull<T>(arr: seq<T>, size: nat, i: nat)
    requires size > 0 && i <= |arr|
    ensures var parts := ChunkFrom(arr, size, i);
      && (parts != [] ==> NextStart(i, size, |arr|) < |arr|)
      && forall k :: 0 <= k < |parts| - 1 ==> |parts[k]| == size
    decreases |arr| - i
  {
    if i < |arr| {
      ChunksFull(arr, size, i + 1);
      if i % size == 0 {
        NextStartStep(i, size, |arr|);
        var tail := ChunkFrom(arr, size, i + 1);
        assert ChunkFrom(arr, size, i) == [Slice(arr, i, i + size)] + tail;
      }
    }
  }

  /** Every element occurs in exactly one chunk, in order; no chunk is empty and all but the last are full. */
  lemma ChunkFlattens<T>(arr: seq<T>, size: nat)
    requires size > 0
    ensures Flatten(Chunk(arr, size)) == arr
    ensures forall c :: c in Chunk(arr, size) ==> 0 < |c| <= size
    ensures forall k :: 0 <= k < |Chunk(arr, size)| - 1 ==> |Chunk(arr, size)[k]| == size
  {
    ChunkFromFlattens(arr, size, 0);
    ChunkSizes(arr, size, 0);
    ChunksFull(arr, size, 0);
    assert NextStart(0, size, |arr|) == 0 by {
      assert 0 % size == 0;
    }
    assert arr[0..] == arr;
  }

  lemma {:induction false} ChunkZeroFrom<T>(arr: seq<T>, i: nat)
    requires i <= |arr|
    ensures Flatten(ChunkFrom(arr, 0, i)) == []
    decreases |arr| - i
  {
    if i < |arr| {
      ChunkZeroFrom(arr, i + 1);
      var tail := ChunkFrom(arr, 0, i + 1);
      assert Slice(arr, i, i + 0) == [];
      assert ([Slice(arr, i, i + 0)] + tail)[1..] == tail;
    }
  }

  /** `chunk` flattens back to its input exactly when the size is positive or there is nothing to cut. */
  lemma ChunkFlattensIff<T>(arr: seq<T>, size: nat)
    ensures Flatten(Chunk(arr, size)) == arr <==> size > 0 || arr == []
  {
    if size > 0 {
      ChunkFlattens(arr, size);
    } else {
      ChunkZeroFrom(arr, 0);
    }
  }

  /** With size 1 every element is a chunk of its own. */
  lemma {:induction false} ChunkOnes<T>(arr: seq<T>, i: nat)
    requires i <= |arr|
    ensures ChunkFrom(arr, 1, i) == seq(|arr| - i, j requires 0 <= j < |arr| - i => [arr[i + j]])
    decreases |arr| - i
  {
    if i < |arr| {
      ChunkOnes(arr, i + 1);
      assert i % 1 == 0;
      assert Slice(arr, i, i + 1) == [arr[i]];
    }
  }
}
