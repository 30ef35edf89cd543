/** The normalization cases the repository's tests spell out, and inputs
    on which the scan never stops. */
module NormalizeExamples {
  import opened TreeValues
  import opened Normalization

  /** 8,3,10,1,6,null,14,null,null,4,7,13: the null at index 5 gets its two
      null children at indices 11 and 12, before the 13. */
  lemma NormalizeInsertsBeforeLast()
    ensures var a := [NewInt(8), NewInt(3), NewInt(10), NewInt(1), NewInt(6), NewNil(),
                      NewInt(14), NewNil(), NewNil(), NewInt(4), NewInt(7), NewInt(13)];
      Halts(a, 0) &&
      Normalized(a, 0) == [NewInt(8), NewInt(3), NewInt(10), NewInt(1), NewInt(6), NewNil(),
                           NewInt(14), NewNil(), NewNil(), NewInt(4), NewInt(7), NewNil(),
                           NewNil(), NewInt(13)]
  {
    var a := [NewInt(8), NewInt(3), NewInt(10), NewInt(1), NewInt(6), NewNil(),
              NewInt(14), NewNil(), NewNil(), NewInt(4), NewInt(7), NewInt(13)];
    var b := InsertNils(a, 11);
    assert Run(a, 0, 1) == Run(b, 6, 0);
    assert Run(b, 6, 0) == Some(b);
    NormalizedByRun(a, 0, 1);
  }

  /** 3,5,1,6,2,9,8,null,null,7,4 is left as it is: the first null's child
      slot 15 lies past the end. */
  lemma NormalizeKeepsFullHeap()
    ensures var a := [NewInt(3), NewInt(5), NewInt(1), NewInt(6), NewInt(2), NewInt(9),
                      NewInt(8), NewNil(), NewNil(), NewInt(7), NewInt(4)];
      Halts(a, 0) && Normalized(a, 0) == a
  {
    var a := [NewInt(3), NewInt(5), NewInt(1), NewInt(6), NewInt(2), NewInt(9),
              NewInt(8), NewNil(), NewNil(), NewInt(7), NewInt(4)];
    assert Run(a, 0, 0) == Some(a);
    NormalizedByRun(a, 0, 0);
  }

  /** A trailing null beyond the children of the last present entry makes
      the scan never return: it keeps inserting on 1,null,null,null. */
  lemma NeverStopsOnExtraTrailingNull()
    ensures !Halts([NewInt(1), NewNil(), NewNil(), NewNil()], 0)
  {
    var a := [NewInt(1), NewNil(), NewNil(), NewNil()];
    forall fuel: nat
      ensures Run(a, 0, fuel) == None
    {
      Diverges(a, 1, fuel);
    }
  }

  /** With a null root the scan stops only when the root is the whole
      input: so the "wrong root value" error of the pipeline is reached on
      the single token null and on nothing else. */
  lemma NullRootHaltsOnlyAlone(a: seq<NilInt>)
    requires |a| > 0 && a[0].isNull
    ensures Halts(a, 0) <==> |a| == 1
  {
    if |a| == 1 {
      assert Run(a, 0, 0) == Some(a);
    } else {
      forall fuel: nat
        ensures Run(a, 0, fuel) == None
      {
        Diverges(a, 0, fuel);
      }
    }
  }

  /** Normalizing twice is not normalizing once: 1,null,2,null,3 becomes
      1,null,2,null,null,null,3, and a second scan of that never stops. */
  lemma NormalizeTwiceNeverStops()
    ensures var a := [NewInt(1), NewNil(), NewInt(2), NewNil(), NewInt(3)];
      Halts(a, 0) &&
      Normalized(a, 0) == [NewInt(1), NewNil(), NewInt(2), NewNil(), NewNil(), NewNil(), NewInt(3)] &&
      !Halts(Normalized(a, 0), 0)
  {
    var a := [NewInt(1), NewNil(), NewInt(2), NewNil(), NewInt(3)];
    var b := InsertNils(a, 3);
    assert b == [NewInt(1), NewNil(), NewInt(2), NewNil(), NewNil(), NewNil(), NewInt(3)];
    assert Run(a, 0, 1) == Run(b, 2, 0);
    assert Run(b, 2, 0) == Some(b);
    NormalizedByRun(a, 0, 1);
    var c := InsertNils(b, 3);
    forall fuel: nat
      ensures Run(b, 0, fuel) == None
    {
      if fuel > 0 {
        assert Run(b, 0, fuel) == Run(b, 1, fuel);
        assert Run(b, 1, fuel) == Run(c, 2, fuel - 1);
        assert c[2] == NewInt(2);
        assert Run(c, 2, fuel - 1) == Run(c, 3, fuel - 1);
        Diverges(c, 3, fuel - 1);
      }
    }
  }
}
