/** Concatenation of a sequence of blocks, shared by the row building loop
    (one block per cottage and duration) and by `array_chunk`. */
module Seqs {

  /** The blocks of `ss` laid end to end, in order. */
  function Flatten<T>(ss: seq<seq<T>>): seq<T>
  {
    if ss == [] then [] else Flatten(ss[..|ss| - 1]) + ss[|ss| - 1]
  }

  /** Total number of elements of the blocks of `ss`. */
  function TotalLength<T>(ss: seq<seq<T>>): nat
  {
    if ss == [] then 0 else TotalLength(ss[..|ss| - 1]) + |ss[|ss| - 1]|
  }

  lemma {:induction false} FlattenLength<T>(ss: seq<seq<T>>)
    ensures |Flatten(ss)| == TotalLength(ss)
  {
    if ss != [] {
      FlattenLength(ss[..|ss| - 1]);
    }
  }

  /** Flattening distributes over concatenation of block lists. */
  lemma {:induction false} FlattenConcat<T>(xs: seq<seq<T>>, ys: seq<seq<T>>)
    ensures Flatten(xs + ys) == Flatten(xs) + Flatten(ys)
  {
    if ys == [] {
      assert xs + ys == xs;
    } else {
      var zs := xs + ys;
      assert zs[..|zs| - 1] == xs + ys[..|ys| - 1];
      FlattenConcat(xs, ys[..|ys| - 1]);
    }
  }

  /** An element of the flattening belongs to one of the blocks, and each
      element of each block appears in the flattening. */
  lemma {:induction false} FlattenMembership<T>(ss: seq<seq<T>>, x: T)
    ensures x in Flatten(ss) <==> exists k :: 0 <= k < |ss| && x in ss[k]
  {
    if ss != [] {
      var init := ss[..|ss| - 1];
      FlattenMembership(init, x);
      if x in Flatten(ss) && x !in ss[|ss| - 1] {
        var k :| 0 <= k < |init| && x in init[k];
        assert x in ss[k];
      }
      if exists k :: 0 <= k < |ss| && x in ss[k] {
        var k :| 0 <= k < |ss| && x in ss[k];
        if k < |init| {
          assert x in init[k];
        }
      }
    }
  }

  /** Removing one block from a list of blocks removes exactly its elements
      from the flattening, and leaves the rest in place. */
  lemma {:induction false} FlattenWithout<T>(ss: seq<seq<T>>, k: nat)
    requires k < |ss|
    ensures Flatten(ss) == Flatten(ss[..k]) + ss[k] + Flatten(ss[k + 1..])
  {
    var front := ss[..k + 1];
    assert ss == front + ss[k + 1..];
    FlattenConcat(front, ss[k + 1..]);
    assert front[..|front| - 1] == ss[..k];
  }

  /** A prefix of the blocks one block longer flattens to one block more. */
  lemma FlattenPrefixStep<T>(ss: seq<seq<T>>, n: nat)
    requires n < |ss|
    ensures Flatten(ss[..n + 1]) == Flatten(ss[..n]) + ss[n]
  {
    assert ss[..n + 1][..n] == ss[..n];
  }
}
