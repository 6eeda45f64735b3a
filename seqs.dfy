/** Generic facts about sequences of lines, stated over an abstract element type
    so that proofs about long, concrete line lists do not have to look inside
    them. */
module Seqs {

  /** The concatenation of a list of blocks, in order. */
  function Flatten<T>(blocks: seq<seq<T>>): seq<T>
  {
    if blocks == [] then [] else Flatten(blocks[..|blocks| - 1]) + blocks[|blocks| - 1]
  }

  /** Every block has the same length `n`. */
  predicate Uniform<T>(blocks: seq<seq<T>>, n: nat) {
    forall i :: 0 <= i < |blocks| ==> |blocks[i]| == n
  }

  lemma AppendAssoc<T>(a: seq<T>, b: seq<T>, c: seq<T>)
    ensures (a + b) + c == a + (b + c)
  {
  }

  lemma SliceLeft<T>(a: seq<T>, b: seq<T>, i: nat, j: nat)
    requires i <= j <= |a|
    ensures (a + b)[i..j] == a[i..j]
  {
  }

  lemma SliceRight<T>(a: seq<T>, b: seq<T>, i: nat, j: nat)
    requires i <= j <= |b|
    ensures (a + b)[|a| + i .. |a| + j] == b[i..j]
  {
  }

  /** Appending a block appends its elements. */
  lemma FlattenSnoc<T>(blocks: seq<seq<T>>, b: seq<T>)
    ensures Flatten(blocks + [b]) == Flatten(blocks) + b
  {
    assert (blocks + [b])[..|blocks|] == blocks;
  }

  /** Blocks of length `n` take `n` elements each. */
  lemma {:induction false} FlattenLength<T>(blocks: seq<seq<T>>, n: nat)
    requires Uniform(blocks, n)
    ensures |Flatten(blocks)| == n * |blocks|
    decreases |blocks|
  {
    if blocks != [] {
      FlattenLength(blocks[..|blocks| - 1], n);
      assert n * |blocks| == n * (|blocks| - 1) + n;
    }
  }

  lemma {:induction false} MulStep(n: nat, k: nat, m: nat)
    requires k < m
    ensures n * k + n <= n * m
    decreases m - k
  {
    assert n * m == n * (m - 1) + n;
    if k < m - 1 {
      MulStep(n, k, m - 1);
    }
  }

  /** Concatenation distributes over joining two lists of blocks. */
  lemma {:induction false} FlattenAppend<T>(a: seq<seq<T>>, b: seq<seq<T>>)
    ensures Flatten(a + b) == Flatten(a) + Flatten(b)
    decreases |b|
  {
    if b == [] {
      assert a + b == a;
    } else {
      var init, last := b[..|b| - 1], b[|b| - 1];
      assert a + b == (a + init) + [last];
      FlattenSnoc(a + init, last);
      FlattenAppend(a, init);
      FlattenSnoc(init, last);
      AppendAssoc(Flatten(a), Flatten(init), last);
    }
  }

  lemma SplitAround<T>(s: seq<T>, k: nat)
    requires k < |s|
    ensures s == s[..k] + ([s[k]] + s[k + 1..])
  {
  }

  lemma FlattenSingle<T>(b: seq<T>)
    ensures Flatten([b]) == b
  {
    assert [b][..0] == [];
  }

  /** The concatenation splits around block `k`. */
  lemma FlattenSplit<T>(blocks: seq<seq<T>>, k: nat)
    requires k < |blocks|
    ensures Flatten(blocks) == Flatten(blocks[..k]) + (blocks[k] + Flatten(blocks[k + 1..]))
  {
    var pre, post := blocks[..k], blocks[k + 1..];
    SplitAround(blocks, k);
    FlattenAppend(pre, [blocks[k]] + post);
    FlattenAppend([blocks[k]], post);
    FlattenSingle(blocks[k]);
  }

  /** With blocks of length `n`, block `k` occupies elements `n * k` up to
      `n * k + n` of the concatenation. */
  lemma FlattenBlock<T>(blocks: seq<seq<T>>, n: nat, k: nat)
    requires Uniform(blocks, n) && k < |blocks|
    ensures |Flatten(blocks)| == n * |blocks| && n * k + n <= |Flatten(blocks)|
    ensures Flatten(blocks)[n * k .. n * k + n] == blocks[k]
  {
    var a, b, c := Flatten(blocks[..k]), blocks[k], Flatten(blocks[k + 1..]);
    FlattenSplit(blocks, k);
    FlattenLength(blocks[..k], n);
    FlattenLength(blocks, n);
    MulStep(n, k, |blocks|);
    assert |a| == n * k && |b| == n;
    SliceRight(a, b + c, 0, n);
    SliceLeft(b, c, 0, n);
    assert b[0..n] == b;
  }

  /** A comprehension over 23 name-value pairs, spelled out as a display. */
  lemma Zip23(f: (string, int) -> string, names: seq<string>, values: seq<int>,
      n0: string, n1: string, n2: string, n3: string, n4: string, n5: string, n6: string, n7: string, n8: string, n9: string, n10: string, n11: string, n12: string, n13: string, n14: string, n15: string, n16: string, n17: string, n18: string, n19: string, n20: string, n21: string, n22: string,
      v0: int, v1: int, v2: int, v3: int, v4: int, v5: int, v6: int, v7: int, v8: int, v9: int, v10: int, v11: int, v12: int, v13: int, v14: int, v15: int, v16: int, v17: int, v18: int, v19: int, v20: int, v21: int, v22: int)
    requires names == [n0, n1, n2, n3, n4, n5, n6, n7, n8, n9, n10, n11, n12, n13, n14, n15, n16, n17, n18, n19, n20, n21, n22]
    requires values == [v0, v1, v2, v3, v4, v5, v6, v7, v8, v9, v10, v11, v12, v13, v14, v15, v16, v17, v18, v19, v20, v21, v22]
    ensures seq(23, i requires 0 <= i < 23 => f(names[i], values[i])) ==
      [f(n0, v0),
       f(n1, v1),
       f(n2, v2),
       f(n3, v3),
       f(n4, v4),
       f(n5, v5),
       f(n6, v6),
       f(n7, v7),
       f(n8, v8),
       f(n9, v9),
       f(n10, v10),
       f(n11, v11),
       f(n12, v12),
       f(n13, v13),
       f(n14, v14),
       f(n15, v15),
       f(n16, v16),
       f(n17, v17),
       f(n18, v18),
       f(n19, v19),
       f(n20, v20),
       f(n21, v21),
       f(n22, v22)]
  {
  }

  /** A comprehension over 15 name-value pairs, spelled out as a display. */
  lemma Zip15(f: (string, int) -> string, names: seq<string>, values: seq<int>,
      n0: string, n1: string, n2: string, n3: string, n4: string, n5: string, n6: string, n7: string, n8: string, n9: string, n10: string, n11: string, n12: string, n13: string, n14: string,
      v0: int, v1: int, v2: int, v3: int, v4: int, v5: int, v6: int, v7: int, v8: int, v9: int, v10: int, v11: int, v12: int, v13: int, v14: int)
    requires names == [n0, n1, n2, n3, n4, n5, n6, n7, n8, n9, n10, n11, n12, n13, n14]
    requires values == [v0, v1, v2, v3, v4, v5, v6, v7, v8, v9, v10, v11, v12, v13, v14]
    ensures seq(15, i requires 0 <= i < 15 => f(names[i], values[i])) ==
      [f(n0, v0),
       f(n1, v1),
       f(n2, v2),
       f(n3, v3),
       f(n4, v4),
       f(n5, v5),
       f(n6, v6),
       f(n7, v7),
       f(n8, v8),
       f(n9, v9),
       f(n10, v10),
       f(n11, v11),
       f(n12, v12),
       f(n13, v13),
       f(n14, v14)]
  {
  }

  /** 23 elements as a display and as the run of single appends that 23
      writes in a row produce. */
  lemma Nest23(x0: string, x1: string, x2: string, x3: string, x4: string, x5: string, x6: string, x7: string, x8: string, x9: string, x10: string, x11: string, x12: string, x13: string, x14: string, x15: string, x16: string, x17: string, x18: string, x19: string, x20: string, x21: string, x22: string)
    ensures [x0, x1, x2, x3, x4, x5, x6, x7, x8, x9, x10, x11, x12, x13, x14, x15, x16, x17, x18, x19, x20, x21, x22] ==
      [] + [x0] + [x1] + [x2] + [x3] + [x4] + [x5] + [x6] + [x7]
      + [x8] + [x9] + [x10] + [x11] + [x12] + [x13] + [x14] + [x15]
      + [x16] + [x17] + [x18] + [x19] + [x20] + [x21] + [x22]
  {
  }

  /** 15 elements as a display and as the run of single appends that 15
      writes in a row produce. */
  lemma Nest15(x0: string, x1: string, x2: string, x3: string, x4: string, x5: string, x6: string, x7: string, x8: string, x9: string, x10: string, x11: string, x12: string, x13: string, x14: string)
    ensures [x0, x1, x2, x3, x4, x5, x6, x7, x8, x9, x10, x11, x12, x13, x14] ==
      [] + [x0] + [x1] + [x2] + [x3] + [x4] + [x5] + [x6] + [x7]
      + [x8] + [x9] + [x10] + [x11] + [x12] + [x13] + [x14]
  {
  }
}
