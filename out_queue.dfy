/** The output queue of the real-time engine as values: an ordered sequence of
    blocks of frames, its total frame count, the frames it holds in order, and
    the removal of frames from the front (splitting the front block when only
    part of it is needed). */
module OutQueue {

  import opened Common

  /** One abstract frame; the model does not distinguish channels. */
  type Frame = real
  type Block = seq<Frame>

  /** Sum of the lengths of the queued blocks. */
  function Total(q: seq<Block>): nat
  {
    if q == [] then 0 else |q[0]| + Total(q[1..])
  }

  /** The queued frames in playback order. */
  function Flatten(q: seq<Block>): (r: seq<Frame>)
    ensures |r| == Total(q)
  {
    if q == [] then [] else q[0] + Flatten(q[1..])
  }

  /** The source never queues an empty block. */
  ghost predicate NoEmptyBlocks(q: seq<Block>)
  {
    forall i :: 0 <= i < |q| ==> |q[i]| > 0
  }

  /** The queue after `n` frames have been consumed from its front. */
  function Drop(q: seq<Block>, n: nat): seq<Block>
    decreases |q|
  {
    if n == 0 || q == [] then q
    else if n >= |q[0]| then Drop(q[1..], n - |q[0]|)
    else [q[0][n..]] + q[1..]
  }

  lemma ConcatAssoc(a: seq<Frame>, b: seq<Frame>, c: seq<Frame>)
    ensures a + (b + c) == (a + b) + c
  {
  }

  lemma {:induction false} FlattenAppend(q: seq<Block>, b: Block)
    ensures Flatten(q + [b]) == Flatten(q) + b
    ensures Total(q + [b]) == Total(q) + |b|
  {
    if q == [] {
      assert q + [b] == [b];
    } else {
      assert (q + [b])[1..] == q[1..] + [b];
      FlattenAppend(q[1..], b);
    }
  }

  /** Consuming `n` frames, when the queue holds at least `n`, leaves exactly
      the frames after the first `n`, in the same order. */
  lemma {:induction false} DropFlattenWithin(q: seq<Block>, n: nat)
    requires n <= Total(q)
    ensures Flatten(Drop(q, n)) == Flatten(q)[n..]
    ensures Total(Drop(q, n)) == Total(q) - n
    decreases |q|
  {
    if n == 0 || q == [] {
    } else if n >= |q[0]| {
      DropFlattenWithin(q[1..], n - |q[0]|);
      assert Flatten(q) == q[0] + Flatten(q[1..]);
    } else {
      var r := [q[0][n..]] + q[1..];
      assert r[1..] == q[1..];
      assert Flatten(r) == q[0][n..] + Flatten(q[1..]);
    }
  }

  /** Consuming at least as many frames as are queued leaves none. */
  lemma {:induction false} DropPast(q: seq<Block>, n: nat)
    requires n >= Total(q)
    ensures Flatten(Drop(q, n)) == []
    decreases |q|
  {
    if n == 0 || q == [] {
      assert |Flatten(q)| == 0;
    } else {
      DropPast(q[1..], n - |q[0]|);
    }
  }

  /** No frame is lost, duplicated or reordered by consuming `n` of them. */
  lemma {:induction false} DropFlatten(q: seq<Block>, n: nat)
    ensures Flatten(Drop(q, n)) == Flatten(q)[MinInt(n, Total(q))..]
    ensures Total(Drop(q, n)) == Total(q) - MinInt(n, Total(q))
  {
    if n <= Total(q) {
      DropFlattenWithin(q, n);
    } else {
      DropPast(q, n);
    }
  }

  /** Splitting keeps the unconsumed suffix of a partly used front block at the
      front, and never leaves an empty block behind. */
  lemma {:induction false} DropFront(q: seq<Block>, n: nat)
    requires q != [] && 0 < n <= |q[0]|
    ensures n == |q[0]| ==> Drop(q, n) == q[1..]
    ensures n < |q[0]| ==> Drop(q, n) == [q[0][n..]] + q[1..]
  {
    if n == |q[0]| {
      assert Drop(q, n) == Drop(q[1..], 0);
    }
  }

  lemma {:induction false} DropNoEmpty(q: seq<Block>, n: nat)
    requires NoEmptyBlocks(q)
    ensures NoEmptyBlocks(Drop(q, n))
    decreases |q|
  {
    if n == 0 || q == [] {
    } else if n >= |q[0]| {
      DropNoEmpty(q[1..], n - |q[0]|);
    } else {
    }
  }

  /** Consuming `a` frames and then `b` more is consuming `a + b`. */
  lemma {:induction false} DropDrop(q: seq<Block>, a: nat, b: nat)
    requires NoEmptyBlocks(q)
    ensures Drop(Drop(q, a), b) == Drop(q, a + b)
    decreases |q|
  {
    if a == 0 || q == [] {
    } else if a >= |q[0]| {
      DropDrop(q[1..], a - |q[0]|, b);
    } else {
      var r := [q[0][a..]] + q[1..];
      assert r[0] == q[0][a..] && r[1..] == q[1..];
      if b == 0 {
      } else if b >= |r[0]| {
        assert a + b >= |q[0]|;
        assert Drop(r, b) == Drop(q[1..], b - |r[0]|);
      } else {
        assert q[0][a..][b..] == q[0][a + b..];
      }
    }
  }
}
