/** `treeSlice`, the token array that `normalize` grows in place and
    `treeNode` folds into a tree, and `GetTreeNode`, which runs the two. */
module TreeSlices {
  import opened TreeValues
  import opened Normalization
  import opened Reconstruction
  import opened CompactEncoding

  /** The index of the first entry of level `lvl`, summed level by level. */
  method LevelIndex(lvl: nat) returns (levelIndex0: nat)
    ensures levelIndex0 == LevelStart(lvl)
  {
    levelIndex0 := 0;
    for l := 0 to lvl
      invariant levelIndex0 == Pow2(l) - 1
    {
      levelIndex0 := levelIndex0 + Pow2(l);
    }
  }

  /** Copies one level's values two at a time, the last one alone when the
      level has odd length. */
  method PairUp(values: seq<NilInt>) returns (row: seq<NilInt>)
    ensures row == values
  {
    row := [];
    var i := 0;
    while i < |values|
      invariant i % 2 == 0 && i <= |values| + 1
      invariant row == values[..Min(i, |values|)]
    {
      if i + 1 < |values| {
        row := row + [values[i], values[i + 1]];
      } else {
        row := row + [values[i]];
      }
      i := i + 2;
    }
  }

  /** Makes the nodes of one level from its tokens and the nodes of the
      level below (`next`, empty below the deepest level). */
  method BuildRow(values: seq<NilInt>, next: seq<Tree>) returns (row: seq<Tree>)
    ensures |row| == |values|
    ensures forall p :: 0 <= p < |values| ==> row[p] == MakeNode(values[p], next, p)
  {
    row := seq(|values|, _ => Nil);
    for index := 0 to |values|
      invariant |row| == |values|
      invariant forall p :: 0 <= p < index ==> row[p] == MakeNode(values[p], next, p)
    {
      var v := values[index];
      var l, r := Nil, Nil;
      if |next| - 1 >= index * 2 && next[index * 2] != Nil {
        l := next[index * 2];
      }
      if |next| - 1 >= index * 2 + 1 && next[index * 2 + 1] != Nil {
        r := next[index * 2 + 1];
      }
      if v.isNull {
        row := row[index := Nil];
      } else {
        row := row[index := Node(v.value, l, r)];
      }
    }
  }

  class TreeSlice {
    var items: seq<NilInt>

    constructor (tokens: seq<NilInt>)
      ensures items == tokens
    {
      items := tokens;
    }

    /** Makes room for two entries at `pos` by growing the array and
        shifting the tail right, then writes two nulls there. */
    method InsertNullPair(pos: nat)
      requires pos <= |items|
      modifies this
      ensures items == InsertNils(old(items), pos)
    {
      items := items + [NewNil(), NewNil()];
      items := items[..pos + 2] + items[pos..|items| - 2];
      items := items[pos := NewNil()][pos + 1 := NewNil()];
    }

    /** Inserts the null children of nulls that the compact encoding
        leaves out, scanning from `start`; `lvl` is the level `start` is
        taken to be on. The recursive restart after an insertion is the
        loop going on at `i + 1` with the level bookkeeping recomputed
        from the current level, as the restarted call does. */
    method Normalize(start: nat, lvl: nat)
      requires Halts(items, start)
      modifies this
      ensures items == Normalized(old(items), start)
    {
      var levelIndex0 := LevelIndex(lvl);
      var limit := Pow2(lvl);
      var level := lvl;
      ghost var fuel: nat :| Run(items, start, fuel).Some?;
      ghost var result := Run(items, start, fuel).value;
      NormalizedByRun(items, start, fuel);
      var i: nat := start;
      while i < |items|
        invariant levelIndex0 == LevelStart(level) && limit == Pow2(level)
        invariant Run(items, i, fuel) == Some(result)
        invariant result == Normalized(old(items), start)
        decreases fuel, |items| - i
      {
        if items[i].isNull {
          var posAddNull := levelIndex0 + limit + (i - levelIndex0) * 2;
          assert posAddNull == 2 * i + 1;
          if |items| > posAddNull {
            InsertNullPair(posAddNull);
            // the restarted scan: normalize(i + 1, lvl)
            levelIndex0 := LevelIndex(level);
            limit := Pow2(level);
            i := i + 1;
            fuel := fuel - 1;
            continue;
          } else {
            return;
          }
        }
        if i - levelIndex0 == limit {
          levelIndex0 := i;
          limit := 2 * limit;
          level := level + 1;
        }
        i := i + 1;
      }
    }

    /** Splits the array into levels of 1, 2, 4, ... entries and builds
        the tree bottom-up, level by level. */
    method TreeNode() returns (res: TreeResult)
      requires |items| > 0
      ensures items[0].isNull ==> res == Err(WrongRoot)
      ensures !items[0].isNull ==> res == Ok(Build(items, 0))
      ensures res.Ok? ==> res.root.Node? && res.root.val == items[0].value
    {
      if items[0].isNull {
        return Err(WrongRoot);
      }
      var byLvl := SplitLevels(items);
      var root := BuildBottomUp(items, byLvl);
      return Ok(root);
    }
  }

  /** Cuts `items` into levels: the root alone, then up to 2^lvl entries
      per level from what is left. */
  method SplitLevels(items: seq<NilInt>) returns (byLvl: seq<seq<NilInt>>)
    requires |items| > 0
    ensures |byLvl| >= 1
    ensures LevelStart(|byLvl| - 1) < |items| <= LevelStart(|byLvl|)
    ensures forall k :: 0 <= k < |byLvl| ==> byLvl[k] == Level(items, k)
  {
    var lvl := 1;
    var tmp := items[1..];
    byLvl := [[items[0]]];
    while |tmp| != 0
      invariant 1 <= lvl == |byLvl|
      invariant LevelStart(lvl - 1) < |items|
      invariant tmp == items[Min(LevelStart(lvl), |items|)..]
      invariant forall k :: 0 <= k < lvl ==> byLvl[k] == Level(items, k)
      decreases |tmp|
    {
      var end := Pow2(lvl);
      if end >= |tmp| {
        end := |tmp|;
      }
      var values := tmp[..end];
      tmp := tmp[end..];
      var row := PairUp(values);
      byLvl := byLvl + [row];
      lvl := lvl + 1;
    }
  }

  /** Builds the nodes of every level, deepest first; the root is the one
      node of level 0. */
  method BuildBottomUp(items: seq<NilInt>, byLvl: seq<seq<NilInt>>) returns (root: Tree)
    requires |byLvl| >= 1
    requires LevelStart(|byLvl| - 1) < |items| <= LevelStart(|byLvl|)
    requires forall k :: 0 <= k < |byLvl| ==> byLvl[k] == Level(items, k)
    ensures root == Build(items, 0)
  {
    var top := |byLvl| - 1;
    // the level below the deepest one is absent, read as no nodes
    var nodeByLvl: seq<seq<Tree>> := seq(|byLvl| + 1, _ => []);
    var n := top;
    while n >= 0
      invariant -1 <= n <= top
      invariant |nodeByLvl| == |byLvl| + 1
      invariant nodeByLvl[top + 1] == []
      invariant forall m :: n < m <= top ==> LevelBuilt(items, m, nodeByLvl[m])
    {
      var next := nodeByLvl[n + 1];
      assert LevelBuilt(items, n + 1, next) by {
        if n == top {
          assert |Level(items, n + 1)| == 0;
        }
      }
      var row := BuildRow(byLvl[n], next);
      forall p | 0 <= p < |row|
        ensures row[p] == Build(items, LevelStart(n) + p)
      {
        MakeNodeIsBuild(items, n, next, p);
      }
      assert LevelBuilt(items, n, row);
      nodeByLvl := nodeByLvl[n := row];
      n := n - 1;
    }
    assert LevelBuilt(items, 0, nodeByLvl[0]);
    assert |nodeByLvl[0]| == 1;
    root := nodeByLvl[0][0];
  }

  /** Normalizes the tokens, then rebuilds the tree from them. The tokens
      must form a well-formed compact list, which is exactly when the
      normalization stops (`HaltsIffWellFormed`). */
  method GetTreeNode(tokens: seq<NilInt>) returns (res: TreeResult)
    requires |tokens| > 0
    requires WellFormed(tokens)
    ensures Halts(tokens, 0)
    ensures tokens[0].isNull ==> res == Err(WrongRoot)
    ensures !tokens[0].isNull ==> res == Ok(Compact(tokens, 0))
    ensures !tokens[0].isNull ==> res == Ok(Build(Normalized(tokens, 0), 0))
    ensures res.Ok? ==> forall j: nat :: Subtree(res.root, j) == Build(Normalized(tokens, 0), j)
  {
    NormalizeDecodesCompact(tokens);
    var treeVals := new TreeSlice(tokens);
    treeVals.Normalize(0, 0);
    ghost var fuel: nat :| Run(tokens, 0, fuel).Some?;
    NormalizedByRun(tokens, 0, fuel);
    RunKeepsPrefix(tokens, 0, fuel, treeVals.items);
    assert treeVals.items[0] == tokens[0];
    RunExpandsNulls(tokens, 0, fuel, treeVals.items);
    forall j: nat
      ensures Subtree(Build(treeVals.items, 0), j) == Build(treeVals.items, j)
    {
      BuildPlacesEveryEntry(treeVals.items, j);
    }
    res := treeVals.TreeNode();
  }
}
