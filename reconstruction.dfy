/** What `treeSlice.treeNode` computes, as functions: the heap-indexed
    decoding `Build`, the split of the array into levels of 1, 2, 4, ...
    entries, and how one level's nodes are made from the level below. */
module Reconstruction {
  import opened TreeValues
  import opened Normalization

  /** The tree a heap-indexed array describes from index `i`: entry `i`'s
      children sit at `2 * i + 1` and `2 * i + 2`; a null or a missing entry
      is no node. */
  function Build(a: seq<NilInt>, i: nat): Tree
    decreases |a| - i
  {
    if i >= |a| || a[i].isNull then Nil
    else Node(a[i].value, Build(a, 2 * i + 1), Build(a, 2 * i + 2))
  }

  /** The subtree found at heap index `j` of `t`, following left links for
      odd indices and right links for even ones. */
  function Subtree(t: Tree, j: nat): Tree
  {
    if j == 0 then t
    else match Subtree(t, (j - 1) / 2)
      case Nil => Nil
      case Node(_, l, r) => if j % 2 == 1 then l else r
  }

  /** Index of the first entry of level `k`. */
  function LevelStart(k: nat): nat
  {
    Pow2(k) - 1
  }

  /** Level `k` of `a`: up to 2^k entries starting at `LevelStart(k)`. */
  function Level(a: seq<NilInt>, k: nat): seq<NilInt>
  {
    a[Min(LevelStart(k), |a|)..Min(LevelStart(k + 1), |a|)]
  }

  /** The given levels, concatenated in order. */
  function Concat(levels: seq<seq<NilInt>>): seq<NilInt>
  {
    if levels == [] then [] else Concat(levels[..|levels| - 1]) + levels[|levels| - 1]
  }

  /** The entry at `k` of `next`, or no node when `next` is too short. */
  function ChildAt(next: seq<Tree>, k: nat): Tree
  {
    if k < |next| then next[k] else Nil
  }

  /** The node made for token `v` at position `p` of its level, whose
      children come from positions `2 * p` and `2 * p + 1` of the level
      below. */
  function MakeNode(v: NilInt, next: seq<Tree>, p: nat): Tree
  {
    if v.isNull then Nil else Node(v.value, ChildAt(next, 2 * p), ChildAt(next, 2 * p + 1))
  }

  /** The first `n` levels, concatenated, are the first `LevelStart(n)`
      entries of the array. */
  lemma {:induction false} LevelsConcat(a: seq<NilInt>, n: nat)
    ensures Concat(seq(n, k requires 0 <= k => Level(a, k))) == a[..Min(LevelStart(n), |a|)]
  {
    if n > 0 {
      var ls := seq(n, k requires 0 <= k => Level(a, k));
      assert ls[..n - 1] == seq(n - 1, k requires 0 <= k => Level(a, k));
      LevelsConcat(a, n - 1);
      assert LevelStart(n - 1) <= LevelStart(n);
      assert a[..Min(LevelStart(n - 1), |a|)] + Level(a, n - 1) == a[..Min(LevelStart(n), |a|)];
    }
  }

  /** Level 0 is the root alone; level `k` holds 2^k entries, or what is
      left of the array when that is fewer. */
  lemma LevelSize(a: seq<NilInt>, k: nat)
    requires |a| > 0
    ensures Level(a, 0) == [a[0]]
    ensures LevelStart(k) <= |a| ==> |Level(a, k)| == Min(Pow2(k), |a| - LevelStart(k))
  {
  }

  /** The heap children of the entry at position `p` of level `n` are the
      entries at positions `2 * p` and `2 * p + 1` of level `n + 1`. */
  lemma ChildIndex(n: nat, p: nat)
    ensures 2 * (LevelStart(n) + p) + 1 == LevelStart(n + 1) + 2 * p
    ensures 2 * (LevelStart(n) + p) + 2 == LevelStart(n + 1) + 2 * p + 1
  {
  }

  /** `row` holds the heap decodings of the entries of level `m`. */
  ghost predicate LevelBuilt(a: seq<NilInt>, m: nat, row: seq<Tree>)
  {
    |row| == |Level(a, m)| &&
    forall q :: 0 <= q < |row| ==> row[q] == Build(a, LevelStart(m) + q)
  }

  /** One level of the bottom-up construction: if `next` holds the heap
      decodings of every entry of level `n + 1` (or is empty when level
      `n + 1` has no entries), then the node made for position `p` of level
      `n` is the heap decoding of its entry. */
  lemma {:induction false} MakeNodeIsBuild(a: seq<NilInt>, n: nat, next: seq<Tree>, p: nat)
    requires p < |Level(a, n)|
    requires LevelBuilt(a, n + 1, next)
    ensures MakeNode(Level(a, n)[p], next, p) == Build(a, LevelStart(n) + p)
  {
    var j := LevelStart(n) + p;
    ChildIndex(n, p);
    assert Pow2(n + 1) == 2 * Pow2(n);
    assert Level(a, n)[p] == a[j];
    if 2 * p >= |next| {
      assert 2 * j + 1 >= |a|;
    }
    if 2 * p + 1 >= |next| {
      assert 2 * j + 2 >= |a|;
    }
  }

  /** The parent index `(j - 1) / 2` of a heap index `j > 0`: `j` is its
      left child exactly when `j` is odd. */
  lemma ParentIndex(j: nat)
    requires j > 0
    ensures j % 2 == 1 ==> j == 2 * ((j - 1) / 2) + 1
    ensures j % 2 == 0 ==> j == 2 * ((j - 1) / 2) + 2
  {
  }

  /** Every heap index of the decoded tree holds what `Build` decodes from
      that index, once every null whose first child slot is inside the
      array has null children: so each present entry becomes exactly the
      node at its heap position, with its own value, and each null or
      missing entry becomes no node. */
  lemma {:induction false} BuildPlacesEveryEntry(a: seq<NilInt>, j: nat)
    requires NullsExpanded(a)
    ensures Subtree(Build(a, 0), j) == Build(a, j)
  {
    if j > 0 {
      var p := (j - 1) / 2;
      ParentIndex(j);
      BuildPlacesEveryEntry(a, p);
      if p < |a| && !a[p].isNull {
        assert Subtree(Build(a, 0), p) == Node(a[p].value, Build(a, 2 * p + 1), Build(a, 2 * p + 2));
      } else {
        NoChildUnderNull(a, p, j);
      }
    }
  }

  /** Below a null or missing entry of an expanded array nothing is
      decoded. */
  lemma NoChildUnderNull(a: seq<NilInt>, p: nat, j: nat)
    requires NullsExpanded(a)
    requires p >= |a| || a[p].isNull
    requires j == 2 * p + 1 || j == 2 * p + 2
    ensures Build(a, j) == Nil
  {
    if j < |a| {
      assert a[j].isNull;
    }
  }
}
