/** The compact level-order encoding that `normalize` expands. In it the
    children of a null are left out, so the present token of rank `r` (the
    `r`-th present token, counting from 0) has its children at `2 * r + 1`
    and `2 * r + 2`. On every well-formed compact list the scan stops, and
    the heap decoding of what it leaves is the breadth-first decoding of
    the list. */
module CompactEncoding {
  import opened TreeValues
  import opened Normalization
  import opened Reconstruction

  /** The number of present tokens before index `p`. */
  function Rank(a: seq<NilInt>, p: nat): nat
    requires p <= |a|
  {
    |NonNulls(a[..p])|
  }

  /** Every token after the root fills a child slot of an earlier present
      token: slot `j` belongs to the present token of rank `(j - 1) / 2`,
      and that token comes before `j`. */
  ghost predicate WellFormed(a: seq<NilInt>)
  {
    forall j :: 1 <= j < |a| ==> Rank(a, j) > (j - 1) / 2
  }

  /** In a well-formed list the children of a token come after it. */
  lemma ChildSlotAfter(a: seq<NilInt>, p: nat)
    requires WellFormed(a) && p < |a|
    ensures 2 * Rank(a, p) + 1 > p
  {
    if p > 0 {
      assert Rank(a, p) > (p - 1) / 2;
    }
  }

  /** The breadth-first decoding of a compact list from index `p`: a null
      or a missing token is no node; the present token of rank `r` gets the
      decodings of slots `2 * r + 1` and `2 * r + 2` as children. */
  ghost function Compact(a: seq<NilInt>, p: nat): Tree
    requires WellFormed(a)
    decreases |a| - p
  {
    if p >= |a| || a[p].isNull then Nil
    else
      ChildSlotAfter(a, p);
      Node(a[p].value, Compact(a, 2 * Rank(a, p) + 1), Compact(a, 2 * Rank(a, p) + 2))
  }

  /** Once the scan has reached `i`, the tokens before `p` that own child
      slots: every token before `i`, nulls included (theirs are the two
      inserted nulls), and the present tokens from `i` on. */
  function Owners(b: seq<NilInt>, i: nat, p: nat): nat
    requires i <= |b| && p <= |b|
  {
    if p <= i then p else i + |NonNulls(b[i..p])|
  }

  /** The tree the array describes halfway through the scan, with the scan
      at `i`: the token at `p` owning the `k`-th pair of child slots has
      its children at `2 * k + 1` and `2 * k + 2`. A slot at or before its
      owner is read as no node; in a well-formed list that does not
      happen. */
  function MidScan(b: seq<NilInt>, i: nat, p: nat): Tree
    requires i <= |b|
    decreases |b| - p
  {
    if p >= |b| || b[p].isNull then Nil
    else
      var c := 2 * Owners(b, i, p) + 1;
      if c <= p then Nil
      else Node(b[p].value, MidScan(b, i, c), MidScan(b, i, c + 1))
  }

  /** Before the scan starts, the owners of child slots are the present
      tokens, so the mid-scan tree is the breadth-first decoding. */
  lemma {:induction false} MidScanAtStart(a: seq<NilInt>, p: nat)
    requires WellFormed(a)
    ensures MidScan(a, 0, p) == Compact(a, p)
    decreases |a| - p
  {
    if p < |a| && !a[p].isNull {
      assert a[0..p] == a[..p];
      assert Owners(a, 0, p) == Rank(a, p);
      ChildSlotAfter(a, p);
      MidScanAtStart(a, 2 * Rank(a, p) + 1);
      MidScanAtStart(a, 2 * Rank(a, p) + 2);
    }
  }

  /** Where the scan stops, the mid-scan tree is the heap decoding: every
      token before `i` has its children at `2p+1` and `2p+2`, and every
      present token after `i` has child slots past the end in both
      readings. */
  lemma {:induction false} MidScanAtStop(b: seq<NilInt>, i: nat, p: nat)
    requires i <= |b|
    requires i == |b| || (b[i].isNull && 2 * i + 1 >= |b|)
    ensures MidScan(b, i, p) == Build(b, p)
    decreases |b| - p
  {
    if p < |b| && !b[p].isNull {
      if p < i {
        MidScanAtStop(b, i, 2 * p + 1);
        MidScanAtStop(b, i, 2 * p + 2);
      } else {
        assert Owners(b, i, p) >= i;
      }
    }
  }

  /** A null token contributes nothing to the present values. */
  lemma NonNullsSkipNull(b: seq<NilInt>, i: nat, p: nat)
    requires i < p <= |b| && b[i].isNull
    ensures NonNulls(b[i..p]) == NonNulls(b[i + 1..p])
  {
    assert b[i..p][1..] == b[i + 1..p];
  }

  /** A present token contributes its value. */
  lemma NonNullsSkipPresent(b: seq<NilInt>, i: nat, p: nat)
    requires i < p <= |b| && !b[i].isNull
    ensures |NonNulls(b[i..p])| == |NonNulls(b[i + 1..p])| + 1
  {
    assert b[i..p][1..] == b[i + 1..p];
  }

  /** Passing a present token changes no owner count. */
  lemma OwnersSkipPresent(b: seq<NilInt>, i: nat, p: nat)
    requires i < |b| && !b[i].isNull && p <= |b|
    ensures Owners(b, i + 1, p) == Owners(b, i, p)
  {
    if p > i + 1 {
      NonNullsSkipPresent(b, i, p);
    } else if p == i + 1 {
      NonNullsSkipPresent(b, i, p);
      assert b[i + 1..p] == [];
    }
  }

  /** Passing a present token leaves the mid-scan tree as it is. */
  lemma {:induction false} MidScanSkipPresent(b: seq<NilInt>, i: nat, p: nat)
    requires i < |b| && !b[i].isNull
    ensures MidScan(b, i + 1, p) == MidScan(b, i, p)
    decreases |b| - p
  {
    if p < |b| && !b[p].isNull {
      OwnersSkipPresent(b, i, p);
      var c := 2 * Owners(b, i, p) + 1;
      if c > p {
        MidScanSkipPresent(b, i, c);
        MidScanSkipPresent(b, i, c + 1);
      }
    }
  }

  /** Where index `p` moves when two nulls are inserted at `2 * i + 1`. */
  function Shift(i: nat, p: nat): nat
  {
    if p < 2 * i + 1 then p else p + 2
  }

  /** After the insertion for the null at `i`, that null owns one more
      pair of slots: every token after `i` has one more owner before it. */
  lemma OwnersAfterInsert(b: seq<NilInt>, i: nat, p: nat)
    requires i < p <= |b| && b[i].isNull && 2 * i + 1 < |b|
    ensures Owners(InsertNils(b, 2 * i + 1), i + 1, Shift(i, p)) == Owners(b, i, p) + 1
  {
    var b' := InsertNils(b, 2 * i + 1);
    NonNullsSkipNull(b, i, p);
    if p >= 2 * i + 1 {
      InsertNilsSlice(b, 2 * i + 1, i + 1, p);
      NonNullsInsertNils(b[i + 1..p], i);
    } else if p > i + 1 {
      assert b'[i + 1..p] == b[i + 1..p];
    } else {
      assert b[i + 1..p] == [];
    }
  }

  /** A slice around the insertion point is the slice of the original
      array with the two nulls inserted. */
  lemma InsertNilsSlice(b: seq<NilInt>, pos: nat, lo: nat, hi: nat)
    requires lo <= pos <= hi <= |b|
    ensures InsertNils(b, pos)[lo..hi + 2] == InsertNils(b[lo..hi], pos - lo)
  {
    var s := b[lo..hi];
    assert s[..pos - lo] == b[lo..pos];
    assert s[pos - lo..] == b[pos..hi];
    assert InsertNils(b, pos)[lo..hi + 2] == b[lo..pos] + [NewNil(), NewNil()] + b[pos..hi];
  }

  /** After the insertion for the null at `i`, a token other than that
      null sits at its shifted index and finds its child slots at the
      shifted indices of the old ones. */
  lemma ChildrenAfterInsert(b: seq<NilInt>, i: nat, p: nat)
    requires i < |b| && b[i].isNull && 2 * i + 1 < |b|
    requires p < |b| && p != i
    ensures var b' := InsertNils(b, 2 * i + 1);
      var c := 2 * Owners(b, i, p) + 1;
      Shift(i, p) < |b'| && b'[Shift(i, p)] == b[p] &&
      2 * Owners(b', i + 1, Shift(i, p)) + 1 == Shift(i, c) &&
      Shift(i, c + 1) == Shift(i, c) + 1
  {
    if p > i {
      OwnersAfterInsert(b, i, p);
    }
  }

  /** One node of the insertion step: if the subtrees at the child slots
      of the token at `p` are kept, so is the subtree at `p`. */
  lemma MidScanInsertNode(b: seq<NilInt>, i: nat, p: nat)
    requires i < |b| && b[i].isNull && 2 * i + 1 < |b|
    requires p < |b| && !b[p].isNull
    requires var c := 2 * Owners(b, i, p) + 1;
      c > p ==>
        MidScan(InsertNils(b, 2 * i + 1), i + 1, Shift(i, c)) == MidScan(b, i, c) &&
        MidScan(InsertNils(b, 2 * i + 1), i + 1, Shift(i, c + 1)) == MidScan(b, i, c + 1)
    ensures MidScan(InsertNils(b, 2 * i + 1), i + 1, Shift(i, p)) == MidScan(b, i, p)
  {
    ChildrenAfterInsert(b, i, p);
  }

  /** A null or missing token stays one after the insertion. */
  lemma MidScanInsertNil(b: seq<NilInt>, i: nat, p: nat)
    requires i < |b| && b[i].isNull && 2 * i + 1 < |b|
    requires p >= |b| || b[p].isNull
    ensures MidScan(InsertNils(b, 2 * i + 1), i + 1, Shift(i, p)) == MidScan(b, i, p)
  {
    if p < |b| {
      assert InsertNils(b, 2 * i + 1)[Shift(i, p)] == b[p];
    }
  }

  /** The insertion for the null at `i`, followed by the step to `i + 1`,
      leaves the mid-scan tree as it is, every token moved by `Shift`. */
  lemma {:induction false} MidScanInsert(b: seq<NilInt>, i: nat, p: nat)
    requires i < |b| && b[i].isNull && 2 * i + 1 < |b|
    ensures MidScan(InsertNils(b, 2 * i + 1), i + 1, Shift(i, p)) == MidScan(b, i, p)
    decreases |b| - p
  {
    if p < |b| && !b[p].isNull {
      var c := 2 * Owners(b, i, p) + 1;
      if c > p {
        MidScanInsert(b, i, c);
        MidScanInsert(b, i, c + 1);
      }
      MidScanInsertNode(b, i, p);
    } else {
      MidScanInsertNil(b, i, p);
    }
  }

  /** A halting scan from `i` leaves the array whose heap decoding is the
      mid-scan tree at `i`. */
  lemma {:induction false} RunDecodesMidScan(b: seq<NilInt>, i: nat, fuel: nat, r: seq<NilInt>)
    requires i <= |b| && Run(b, i, fuel) == Some(r)
    ensures Build(r, 0) == MidScan(b, i, 0)
    decreases fuel, |b| - i
  {
    if i == |b| {
      MidScanAtStop(b, i, 0);
    } else if !b[i].isNull {
      RunDecodesMidScan(b, i + 1, fuel, r);
      MidScanSkipPresent(b, i, 0);
    } else if |b| > 2 * i + 1 {
      RunDecodesMidScan(InsertNils(b, 2 * i + 1), i + 1, fuel - 1, r);
      MidScanInsert(b, i, 0);
    } else {
      MidScanAtStop(b, i, 0);
    }
  }

  /** With the scan at `i`, every slot after `i` has its owner before it. */
  ghost predicate ScanWellFormed(b: seq<NilInt>, i: nat)
    requires i <= |b|
  {
    forall j :: i < j < |b| ==> Owners(b, i, j) > (j - 1) / 2
  }

  /** The first index from `i` on that holds a present token, or the
      length when there is none. */
  function NextPresent(b: seq<NilInt>, i: nat): (q: nat)
    requires i <= |b|
    ensures i <= q <= |b|
    decreases |b| - i
  {
    if i == |b| || !b[i].isNull then i else NextPresent(b, i + 1)
  }

  lemma {:induction false} NextPresentIs(b: seq<NilInt>, i: nat, q: nat)
    requires i <= q <= |b|
    requires forall k :: i <= k < q ==> b[k].isNull
    requires q == |b| || !b[q].isNull
    ensures NextPresent(b, i) == q
    decreases q - i
  {
    if i < q {
      NextPresentIs(b, i + 1, q);
    }
  }

  lemma {:induction false} NextPresentSkipsNulls(b: seq<NilInt>, i: nat)
    requires i <= |b|
    ensures forall k :: i <= k < NextPresent(b, i) ==> b[k].isNull
    ensures NextPresent(b, i) == |b| || !b[NextPresent(b, i)].isNull
    decreases |b| - i
  {
    if i < |b| && b[i].isNull {
      NextPresentSkipsNulls(b, i + 1);
    }
  }

  /** A run of nulls has no present values. */
  lemma {:induction false} NonNullsOfNulls(s: seq<NilInt>)
    requires forall k :: 0 <= k < |s| ==> s[k].isNull
    ensures NonNulls(s) == []
  {
    if s != [] {
      NonNullsOfNulls(s[1..]);
    }
  }

  /** Every scan step keeps the scan well formed. */
  lemma ScanWellFormedSkip(b: seq<NilInt>, i: nat)
    requires i < |b| && !b[i].isNull && ScanWellFormed(b, i)
    ensures ScanWellFormed(b, i + 1)
  {
    var k := i + 1;
    forall j | k < j < |b|
      ensures Owners(b, k, j) > (j - 1) / 2
    {
      OwnersSkipPresent(b, i, j);
    }
  }

  lemma ScanWellFormedInsert(b: seq<NilInt>, i: nat)
    requires i < |b| && b[i].isNull && 2 * i + 1 < |b| && ScanWellFormed(b, i)
    ensures ScanWellFormed(InsertNils(b, 2 * i + 1), i + 1)
  {
    var b' := InsertNils(b, 2 * i + 1);
    var k := i + 1;
    forall j | k < j < |b'|
      ensures Owners(b', k, j) > (j - 1) / 2
    {
      if j >= 2 * i + 3 {
        OwnersAfterInsert(b, i, j - 2);
        assert Shift(i, j - 2) == j;
      }
    }
  }

  /** At a null with room for its children in a well-formed scan, a
      present token follows, at or before `2 * i`. */
  lemma NextPresentNear(b: seq<NilInt>, i: nat)
    requires i < |b| && b[i].isNull && 2 * i + 1 < |b| && ScanWellFormed(b, i)
    ensures NextPresent(b, i) < |b| && NextPresent(b, i) <= 2 * i
  {
    var q := NextPresent(b, i);
    NextPresentSkipsNulls(b, i);
    if q == |b| {
      OwnersOverNulls(b, i, |b| - 1);
      assert false;
    }
    OwnersOverNulls(b, i, q);
  }

  /** Nulls from the scan position on own no child slots. */
  lemma OwnersOverNulls(b: seq<NilInt>, i: nat, j: nat)
    requires i <= j <= |b|
    requires forall k :: i <= k < j ==> b[k].isNull
    ensures Owners(b, i, j) == i
  {
    NonNullsOfNulls(b[i..j]);
  }

  /** The insertion for the null at `i` neither adds present tokens after
      the scan position nor moves the next one. */
  lemma InsertKeepsMeasure(b: seq<NilInt>, i: nat)
    requires i < |b| && b[i].isNull && 2 * i + 1 < |b| && ScanWellFormed(b, i)
    ensures |NonNulls(InsertNils(b, 2 * i + 1)[i + 1..])| == |NonNulls(b[i..])|
    ensures NextPresent(InsertNils(b, 2 * i + 1), i + 1) == NextPresent(b, i)
  {
    var b' := InsertNils(b, 2 * i + 1);
    NextPresentNear(b, i);
    NextPresentSkipsNulls(b, i);
    NextPresentIs(b', i + 1, NextPresent(b, i));
    NonNullsSkipNull(b, i, |b|);
    InsertNilsSlice(b, 2 * i + 1, i + 1, |b|);
    NonNullsInsertNils(b[i + 1..|b|], i);
    assert b'[i + 1..] == b'[i + 1..|b| + 2];
    assert b[i..] == b[i..|b|];
  }

  /** A well-formed scan stops. A present token is passed for good; at a
      null with room for its children the next present token lies at or
      before `2 * i`, so the insertion does not move it and the scan comes
      one step closer to it; a null after the last present token has its
      child slots past the end. */
  lemma {:induction false} ScanHalts(b: seq<NilInt>, i: nat)
    requires i <= |b| && ScanWellFormed(b, i)
    ensures Halts(b, i)
    decreases |NonNulls(b[i..])|, NextPresent(b, i) - i
  {
    if i == |b| {
      assert Run(b, i, 0).Some?;
    } else if !b[i].isNull {
      NonNullsSkipPresent(b, i, |b|);
      assert b[i..] == b[i..|b|] && b[i + 1..] == b[i + 1..|b|];
      ScanWellFormedSkip(b, i);
      ScanHalts(b, i + 1);
      var f: nat :| Run(b, i + 1, f).Some?;
      assert Run(b, i, f) == Run(b, i + 1, f);
    } else if |b| > 2 * i + 1 {
      var b' := InsertNils(b, 2 * i + 1);
      InsertKeepsMeasure(b, i);
      NextPresentNear(b, i);
      ScanWellFormedInsert(b, i);
      ScanHalts(b', i + 1);
      var f: nat :| Run(b', i + 1, f).Some?;
      assert Run(b, i, f + 1) == Run(b', i + 1, f);
    } else {
      assert Run(b, i, 0) == Some(b);
    }
  }

  /** A scan that stops was well formed at every step: at the stop every
      slot after `i` has an owner before it, and each step back keeps it. */
  lemma {:induction false} RunNeedsWellFormed(b: seq<NilInt>, i: nat, fuel: nat, r: seq<NilInt>)
    requires i <= |b| && Run(b, i, fuel) == Some(r)
    ensures ScanWellFormed(b, i)
    decreases fuel, |b| - i
  {
    if i == |b| {
    } else if !b[i].isNull {
      RunNeedsWellFormed(b, i + 1, fuel, r);
      forall j | i < j < |b|
        ensures Owners(b, i, j) > (j - 1) / 2
      {
        OwnersSkipPresent(b, i, j);
      }
    } else if |b| > 2 * i + 1 {
      var b' := InsertNils(b, 2 * i + 1);
      RunNeedsWellFormed(b', i + 1, fuel - 1, r);
      forall j | i < j < |b|
        ensures Owners(b, i, j) > (j - 1) / 2
      {
        if j >= 2 * i + 1 {
          OwnersAfterInsert(b, i, j);
          assert Owners(b', i + 1, j + 2) > (j + 1) / 2;
        }
      }
    } else {
    }
  }

  /** On every well-formed compact list the scan stops, and the heap
      decoding of the array it leaves is the breadth-first decoding of the
      list: the normalization inserts exactly the null children the
      compact encoding left out. */
  lemma NormalizeDecodesCompact(a: seq<NilInt>)
    requires WellFormed(a)
    ensures Halts(a, 0)
    ensures Build(Normalized(a, 0), 0) == Compact(a, 0)
  {
    forall j | 0 < j < |a|
      ensures Owners(a, 0, j) > (j - 1) / 2
    {
      assert a[0..j] == a[..j];
      assert Rank(a, j) > (j - 1) / 2;
    }
    ScanHalts(a, 0);
    var fuel: nat :| Run(a, 0, fuel).Some?;
    NormalizedByRun(a, 0, fuel);
    RunDecodesMidScan(a, 0, fuel, Normalized(a, 0));
    MidScanAtStart(a, 0);
  }

  /** The scan stops on exactly the well-formed compact lists. */
  lemma HaltsIffWellFormed(a: seq<NilInt>)
    ensures Halts(a, 0) <==> WellFormed(a)
  {
    if Halts(a, 0) {
      var fuel: nat :| Run(a, 0, fuel).Some?;
      RunNeedsWellFormed(a, 0, fuel, Run(a, 0, fuel).value);
      forall j | 1 <= j < |a|
        ensures Rank(a, j) > (j - 1) / 2
      {
        assert a[0..j] == a[..j];
        assert Owners(a, 0, j) > (j - 1) / 2;
      }
    }
    if WellFormed(a) {
      NormalizeDecodesCompact(a);
    }
  }
}
