/** The effect of `treeSlice.normalize` on the token array, as functions.

    Whatever level the scan is on, the insertion index of the source,
    `levelIndex0 + limit + (i - levelIndex0) * 2`, equals `2 * i + 1`
    because `limit == levelIndex0 + 1` always holds. So one scan step is:
    a present token is skipped; a null at `i` whose first child slot
    `2 * i + 1` lies inside the array gets two nulls inserted there and the
    scan goes on at `i + 1`; any other null ends the scan.

    The scan does not end on every input (see `Diverges`), so `Run` carries
    `fuel`, the number of insertions it may still perform, and answers `None`
    when that runs out. */
module Normalization {
  import opened TreeValues

  /** The array after two nulls are inserted at `pos`, all later entries
      moving two places right. */
  function InsertNils(a: seq<NilInt>, pos: nat): (r: seq<NilInt>)
    requires pos <= |a|
    ensures |r| == |a| + 2
  {
    a[..pos] + [NewNil(), NewNil()] + a[pos..]
  }

  /** The entries before `pos` stay where they are, those from `pos` on
      move two places right. */
  lemma InsertNilsShifts(a: seq<NilInt>, pos: nat)
    requires pos <= |a|
    ensures forall k :: 0 <= k < pos ==> InsertNils(a, pos)[k] == a[k]
    ensures forall k :: pos <= k < |a| ==> InsertNils(a, pos)[k + 2] == a[k]
  {
  }

  /** The scan from index `i` with at most `fuel` insertions: `None` when
      it needs more. */
  function Run(a: seq<NilInt>, i: nat, fuel: nat): Option<seq<NilInt>>
    decreases fuel, |a| - i
  {
    if i >= |a| then Some(a)
    else if !a[i].isNull then Run(a, i + 1, fuel)
    else if |a| > 2 * i + 1 then
      if fuel == 0 then None else Run(InsertNils(a, 2 * i + 1), i + 1, fuel - 1)
    else Some(a)
  }

  /** The scan from `i` stops on `a`. */
  ghost predicate Halts(a: seq<NilInt>, i: nat)
  {
    exists fuel: nat :: Run(a, i, fuel).Some?
  }

  /** The array the scan from `i` leaves behind. */
  ghost function Normalized(a: seq<NilInt>, i: nat): seq<NilInt>
    requires Halts(a, i)
  {
    var fuel: nat :| Run(a, i, fuel).Some?;
    Run(a, i, fuel).value
  }

  /** Every null below index `n` has both child slots inside the array,
      and both hold nulls. */
  ghost predicate NullsExpandedBelow(a: seq<NilInt>, n: nat)
  {
    forall j :: 0 <= j < n && j < |a| && a[j].isNull ==>
      2 * j + 2 < |a| && a[2 * j + 1].isNull && a[2 * j + 2].isNull
  }

  /** The heap shape `normalize` leaves: a null whose first child slot lies
      inside the array has nulls in both child slots. */
  ghost predicate NullsExpanded(a: seq<NilInt>)
  {
    forall j :: 0 <= j < |a| && a[j].isNull && 2 * j + 1 < |a| ==>
      2 * j + 2 < |a| && a[2 * j + 1].isNull && a[2 * j + 2].isNull
  }

  /** The values of the present tokens, in order. */
  function NonNulls(a: seq<NilInt>): seq<int>
  {
    if a == [] then []
    else (if a[0].isNull then [] else [a[0].value]) + NonNulls(a[1..])
  }

  lemma {:induction false} NonNullsAppend(x: seq<NilInt>, y: seq<NilInt>)
    ensures NonNulls(x + y) == NonNulls(x) + NonNulls(y)
  {
    if x == [] {
      assert x + y == y;
    } else {
      assert (x + y)[1..] == x[1..] + y;
      NonNullsAppend(x[1..], y);
    }
  }

  lemma {:induction false} NonNullsInsertNils(a: seq<NilInt>, pos: nat)
    requires pos <= |a|
    ensures NonNulls(InsertNils(a, pos)) == NonNulls(a)
  {
    var pair := [NewNil(), NewNil()];
    assert NonNulls(pair) == [] by {
      assert pair[1..] == [NewNil()];
      assert [NewNil()][1..] == [];
    }
    calc {
      NonNulls(InsertNils(a, pos));
      { NonNullsAppend(a[..pos] + pair, a[pos..]); }
      NonNulls(a[..pos] + pair) + NonNulls(a[pos..]);
      { NonNullsAppend(a[..pos], pair); }
      NonNulls(a[..pos]) + NonNulls(a[pos..]);
      { NonNullsAppend(a[..pos], a[pos..]); assert a[..pos] + a[pos..] == a; }
      NonNulls(a);
    }
  }

  /** The multiset `m` with `k` more null markers. */
  function AddNils(m: multiset<NilInt>, k: nat): multiset<NilInt>
  {
    m[NewNil() := m[NewNil()] + k]
  }

  /** Inserting two nulls adds two null markers to the multiset of tokens. */
  lemma MultisetInsertNils(a: seq<NilInt>, pos: nat)
    requires pos <= |a|
    ensures multiset(InsertNils(a, pos)) == AddNils(multiset(a), 2)
  {
    assert a[..pos] + a[pos..] == a;
    calc {
      multiset(InsertNils(a, pos));
      multiset(a[..pos]) + multiset([NewNil(), NewNil()]) + multiset(a[pos..]);
      multiset(a) + multiset{NewNil(), NewNil()};
    }
  }

  /** A halting scan only inserts tokens two at a time, the present values
      keep their order and the last token stays last. */
  lemma {:induction false} RunKeepsNonNulls(a: seq<NilInt>, i: nat, fuel: nat, r: seq<NilInt>)
    requires Run(a, i, fuel) == Some(r)
    ensures |r| >= |a| && (|r| - |a|) % 2 == 0
    ensures NonNulls(r) == NonNulls(a)
    ensures |a| > 0 ==> r[|r| - 1] == a[|a| - 1]
    decreases fuel, |a| - i
  {
    if i < |a| && !a[i].isNull {
      RunKeepsNonNulls(a, i + 1, fuel, r);
    } else if i < |a| && |a| > 2 * i + 1 {
      var b := InsertNils(a, 2 * i + 1);
      RunKeepsNonNulls(b, i + 1, fuel - 1, r);
      NonNullsInsertNils(a, 2 * i + 1);
      assert b[|b| - 1] == a[|a| - 1];
    }
  }

  /** What a halting scan inserts are null markers and nothing else: the
      multiset of tokens grows by `NewNil()` copies alone. */
  lemma {:induction false} RunAddsOnlyNils(a: seq<NilInt>, i: nat, fuel: nat, r: seq<NilInt>)
    requires Run(a, i, fuel) == Some(r)
    ensures |r| >= |a| && multiset(r) == AddNils(multiset(a), |r| - |a|)
    decreases fuel, |a| - i
  {
    if i < |a| && !a[i].isNull {
      RunAddsOnlyNils(a, i + 1, fuel, r);
    } else if i < |a| && |a| > 2 * i + 1 {
      var b := InsertNils(a, 2 * i + 1);
      RunAddsOnlyNils(b, i + 1, fuel - 1, r);
      MultisetInsertNils(a, 2 * i + 1);
    }
  }

  /** `r` is `a` with null markers inserted: the entries of `a`, nulls
      included, appear in `r` in their order, and every other entry of `r`
      is `NewNil()`. */
  predicate NullsInsertedInto(a: seq<NilInt>, r: seq<NilInt>)
    decreases |r|
  {
    if r == [] then a == []
    else
      (a != [] && r[0] == a[0] && NullsInsertedInto(a[1..], r[1..])) ||
      (r[0] == NewNil() && NullsInsertedInto(a, r[1..]))
  }

  lemma {:induction false} NullsInsertedIntoSelf(a: seq<NilInt>)
    ensures NullsInsertedInto(a, a)
    decreases |a|
  {
    if a != [] {
      NullsInsertedIntoSelf(a[1..]);
    }
  }

  lemma NilsBeforeAll(a: seq<NilInt>)
    ensures NullsInsertedInto(a, [NewNil(), NewNil()] + a)
  {
    var r1 := [NewNil()] + a;
    assert ([NewNil(), NewNil()] + a)[1..] == r1 && r1[1..] == a;
    NullsInsertedIntoSelf(a);
  }

  /** One insertion of a null pair is an insertion of nulls. */
  lemma {:induction false} InsertNilsInsertsNulls(a: seq<NilInt>, pos: nat)
    requires pos <= |a|
    ensures NullsInsertedInto(a, InsertNils(a, pos))
    decreases pos
  {
    var r := InsertNils(a, pos);
    if pos == 0 {
      NilsBeforeAll(a);
      assert r == [NewNil(), NewNil()] + a;
    } else {
      var t := InsertNils(a[1..], pos - 1);
      InsertNilsInsertsNulls(a[1..], pos - 1);
      assert a[..pos][1..] == a[1..][..pos - 1];
      assert a[pos..] == a[1..][pos - 1..];
      assert r[1..] == a[..pos][1..] + [NewNil(), NewNil()] + a[pos..];
      assert r[1..] == t;
      assert r[0] == a[0];
    }
  }

  /** Inserting nulls twice is inserting nulls once. */
  lemma {:induction false} NullsInsertedIntoTrans(a: seq<NilInt>, b: seq<NilInt>, c: seq<NilInt>)
    requires NullsInsertedInto(a, b) && NullsInsertedInto(b, c)
    ensures NullsInsertedInto(a, c)
    decreases |c|
  {
    if c == [] {
    } else if b != [] && c[0] == b[0] && NullsInsertedInto(b[1..], c[1..]) {
      if a != [] && b[0] == a[0] && NullsInsertedInto(a[1..], b[1..]) {
        NullsInsertedIntoTrans(a[1..], b[1..], c[1..]);
      } else {
        NullsInsertedIntoTrans(a, b[1..], c[1..]);
      }
    } else {
      NullsInsertedIntoTrans(a, b, c[1..]);
    }
  }

  /** A halting scan leaves every input entry, nulls included, in its
      relative place and adds null markers only. */
  lemma {:induction false} RunInsertsOnlyNulls(a: seq<NilInt>, i: nat, fuel: nat, r: seq<NilInt>)
    requires Run(a, i, fuel) == Some(r)
    ensures NullsInsertedInto(a, r)
    decreases fuel, |a| - i
  {
    if i < |a| && !a[i].isNull {
      RunInsertsOnlyNulls(a, i + 1, fuel, r);
    } else if i < |a| && |a| > 2 * i + 1 {
      var b := InsertNils(a, 2 * i + 1);
      RunInsertsOnlyNulls(b, i + 1, fuel - 1, r);
      InsertNilsInsertsNulls(a, 2 * i + 1);
      NullsInsertedIntoTrans(a, b, r);
    } else {
      NullsInsertedIntoSelf(a);
    }
  }

  /** Entries before `2 * i + 1` never move once the scan has reached `i`:
      later insertions all happen at `2 * j + 1` for some `j >= i`. */
  lemma {:induction false} RunKeepsPrefix(a: seq<NilInt>, i: nat, fuel: nat, r: seq<NilInt>)
    requires Run(a, i, fuel) == Some(r)
    ensures |r| >= |a| && r[..Min(2 * i + 1, |a|)] == a[..Min(2 * i + 1, |a|)]
    decreases fuel, |a| - i
  {
    if i >= |a| {
    } else if !a[i].isNull {
      RunKeepsPrefix(a, i + 1, fuel, r);
      assert r[..Min(2 * i + 1, |a|)] == r[..Min(2 * i + 3, |a|)][..Min(2 * i + 1, |a|)];
    } else if |a| > 2 * i + 1 {
      var b := InsertNils(a, 2 * i + 1);
      RunKeepsPrefix(b, i + 1, fuel - 1, r);
      assert r[..2 * i + 1] == r[..2 * i + 3][..2 * i + 1];
      assert b[..2 * i + 1] == a[..2 * i + 1];
    } else {
    }
  }

  /** Inserting the two null children of the null at `i` extends the
      expanded prefix past `i`. */
  lemma ExpandOneNull(a: seq<NilInt>, i: nat)
    requires NullsExpandedBelow(a, i)
    requires i < |a| && a[i].isNull && |a| > 2 * i + 1
    ensures NullsExpandedBelow(InsertNils(a, 2 * i + 1), i + 1)
  {
    var b := InsertNils(a, 2 * i + 1);
    forall j | 0 <= j < i + 1 && j < |b| && b[j].isNull
      ensures 2 * j + 2 < |b| && b[2 * j + 1].isNull && b[2 * j + 2].isNull
    {
      if j < i {
        assert b[j] == a[j] && b[2 * j + 1] == a[2 * j + 1] && b[2 * j + 2] == a[2 * j + 2];
      } else {
        assert b[2 * j + 1] == NewNil() && b[2 * j + 2] == NewNil();
      }
    }
  }

  /** When the scan stops, every null it passed has null children in both
      child slots, and every null it did not reach has its first child slot
      past the end of the array. */
  lemma {:induction false} RunExpandsNulls(a: seq<NilInt>, i: nat, fuel: nat, r: seq<NilInt>)
    requires NullsExpandedBelow(a, i)
    requires Run(a, i, fuel) == Some(r)
    ensures NullsExpanded(r)
    decreases fuel, |a| - i
  {
    if i >= |a| {
    } else if !a[i].isNull {
      RunExpandsNulls(a, i + 1, fuel, r);
    } else if |a| > 2 * i + 1 {
      ExpandOneNull(a, i);
      RunExpandsNulls(InsertNils(a, 2 * i + 1), i + 1, fuel - 1, r);
    } else {
    }
  }

  /** More fuel never changes a result that was reached. */
  lemma {:induction false} RunMoreFuel(a: seq<NilInt>, i: nat, fuel: nat, more: nat)
    requires Run(a, i, fuel).Some?
    requires fuel <= more
    ensures Run(a, i, more) == Run(a, i, fuel)
    decreases fuel, |a| - i
  {
    if i >= |a| {
    } else if !a[i].isNull {
      RunMoreFuel(a, i + 1, fuel, more);
    } else if |a| > 2 * i + 1 {
      RunMoreFuel(InsertNils(a, 2 * i + 1), i + 1, fuel - 1, more - 1);
    } else {
    }
  }

  /** Any fuel that makes the scan stop gives `Normalized`. */
  lemma NormalizedByRun(a: seq<NilInt>, i: nat, fuel: nat)
    requires Run(a, i, fuel).Some?
    ensures Halts(a, i) && Normalized(a, i) == Run(a, i, fuel).value
  {
    var f: nat :| Run(a, i, f).Some? && Normalized(a, i) == Run(a, i, f).value;
    if f <= fuel {
      RunMoreFuel(a, i, f, fuel);
    } else {
      RunMoreFuel(a, i, fuel, f);
    }
  }

  /** The scan never stops once it stands on a null with nulls up to its
      first child slot `2 * i + 1`, and that slot lies inside the array: the
      two nulls inserted there are reached again before any other token. */
  lemma {:induction false} Diverges(a: seq<NilInt>, i: nat, fuel: nat)
    requires 2 * i + 1 < |a|
    requires forall j :: i <= j <= 2 * i ==> a[j].isNull
    ensures Run(a, i, fuel) == None
    decreases fuel
  {
    if fuel > 0 {
      var b := InsertNils(a, 2 * i + 1);
      forall j | i + 1 <= j <= 2 * (i + 1)
        ensures b[j].isNull
      {
        if j <= 2 * i {
          assert b[j] == a[j];
        } else {
          assert b[j] == NewNil();
        }
      }
      Diverges(b, i + 1, fuel - 1);
    }
  }
}
