/** Concatenation of a list of sequences, as a `for` loop that copies chunk after chunk produces it. */
module Seqs {

  function Flatten<T>(xss: seq<seq<T>>): (r: seq<T>)
  {
    if |xss| == 0 then [] else Flatten(xss[..|xss| - 1]) + xss[|xss| - 1]
  }

  /** The combined length of the chunks: `reduce((s, b) => s + b.length, 0)`. */
  function TotalLength<T>(xss: seq<seq<T>>): nat
  {
    if |xss| == 0 then 0 else TotalLength(xss[..|xss| - 1]) + |xss[|xss| - 1]|
  }

  lemma {:induction false} FlattenLength<T>(xss: seq<seq<T>>)
    ensures |Flatten(xss)| == TotalLength(xss)
  {
    if |xss| > 0 {
      FlattenLength(xss[..|xss| - 1]);
    }
  }

  /** Flattening a prefix one chunk longer appends that chunk. */
  lemma FlattenPrefix<T>(xss: seq<seq<T>>, j: nat)
    requires j < |xss|
    ensures Flatten(xss[..j + 1]) == Flatten(xss[..j]) + xss[j]
    ensures TotalLength(xss[..j + 1]) == TotalLength(xss[..j]) + |xss[j]|
  {
    assert xss[..j + 1][..j] == xss[..j];
  }

  /** A prefix holds no more elements than the whole. */
  lemma {:induction false} PrefixTotal<T>(xss: seq<seq<T>>, j: nat)
    requires j <= |xss|
    ensures TotalLength(xss[..j]) <= TotalLength(xss)
  {
    if j < |xss| {
      var init := xss[..|xss| - 1];
      assert init[..j] == xss[..j];
      PrefixTotal(init, j);
    } else {
      assert xss[..j] == xss;
    }
  }

  /** A slice of a block read through the sequence the block sits in. */
  lemma SliceWithin<T>(f: seq<T>, off: nat, m: seq<T>, i: nat, j: nat)
    requires off + |m| <= |f| && f[off..off + |m|] == m
    requires i <= j <= |m|
    ensures f[off + i..off + j] == m[i..j]
  {
    forall k | 0 <= k < j - i ensures f[off + i..off + j][k] == m[i..j][k] {
      assert f[off + i + k] == f[off..off + |m|][i + k];
    }
  }
}
