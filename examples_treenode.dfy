/** The trees the repository's tests expect from whole token lists:
    normalization followed by the heap decoding gives each of them. */
module TreeNodeExamples {
  import opened TreeValues
  import opened Normalization
  import opened Reconstruction

  /** 1,2,3 normalizes to 1,2,3. */
  lemma NormalizeThreeNodes()
    ensures var a := [NewInt(1), NewInt(2), NewInt(3)];
      Halts(a, 0) && Normalized(a, 0) == [NewInt(1), NewInt(2), NewInt(3)]
  {
    var a := [NewInt(1), NewInt(2), NewInt(3)];
    assert Run(a, 0, 0) == Run(a, 1, 0);
    assert Run(a, 1, 0) == Run(a, 2, 0);
    assert Run(a, 2, 0) == Run(a, 3, 0);
    assert Run(a, 3, 0) == Some(a);
    NormalizedByRun(a, 0, 0);
  }

  /** 1,2,3: root 1 with leaves 2 and 3. */
  lemma GetTreeNodeThreeNodes()
    ensures var a := [NewInt(1), NewInt(2), NewInt(3)];
      Halts(a, 0) && Build(Normalized(a, 0), 0) == Node(1, Node(2, Nil, Nil), Node(3, Nil, Nil))
  {
    NormalizeThreeNodes();
    var h := [NewInt(1), NewInt(2), NewInt(3)];
    assert Build(h, 2) == Node(3, Nil, Nil);
    assert Build(h, 1) == Node(2, Nil, Nil);
    assert Build(h, 0) == Node(1, Node(2, Nil, Nil), Node(3, Nil, Nil));
  }

  /** The token list 1,null,2,null,3,null,4,null,5 that the scan starts from. */
  const RightChainStep0: seq<NilInt> := [NewInt(1), NewNil(), NewInt(2), NewNil(), NewInt(3), NewNil(), NewInt(4), NewNil(), NewInt(5)]
  /** After 1 insertion: the null at index 1 has its children at 3 and 4. */
  const RightChainStep1: seq<NilInt> := [NewInt(1), NewNil(), NewInt(2), NewNil(), NewNil(), NewNil(), NewInt(3), NewNil(), NewInt(4), NewNil(), NewInt(5)]
  /** After 2 insertions: the null at index 3 has its children at 7 and 8. */
  const RightChainStep2: seq<NilInt> := [NewInt(1), NewNil(), NewInt(2), NewNil(), NewNil(), NewNil(), NewInt(3), NewNil(), NewNil(), NewNil(), NewInt(4), NewNil(), NewInt(5)]
  /** After 3 insertions: the null at index 4 has its children at 9 and 10. */
  const RightChainStep3: seq<NilInt> := [NewInt(1), NewNil(), NewInt(2), NewNil(), NewNil(), NewNil(), NewInt(3), NewNil(), NewNil(), NewNil(), NewNil(), NewNil(), NewInt(4), NewNil(), NewInt(5)]
  /** After 4 insertions: the null at index 5 has its children at 11 and 12. */
  const RightChainStep4: seq<NilInt> := [NewInt(1), NewNil(), NewInt(2), NewNil(), NewNil(), NewNil(), NewInt(3), NewNil(), NewNil(), NewNil(), NewNil(), NewNil(), NewNil(), NewNil(), NewInt(4), NewNil(), NewInt(5)]
  /** After 5 insertions: the null at index 7 has its children at 15 and 16. */
  const RightChainStep5: seq<NilInt> := [NewInt(1), NewNil(), NewInt(2), NewNil(), NewNil(), NewNil(), NewInt(3), NewNil(), NewNil(), NewNil(), NewNil(), NewNil(), NewNil(), NewNil(), NewInt(4), NewNil(), NewNil(), NewNil(), NewInt(5)]
  /** After 6 insertions: the null at index 8 has its children at 17 and 18. */
  const RightChainStep6: seq<NilInt> := [NewInt(1), NewNil(), NewInt(2), NewNil(), NewNil(), NewNil(), NewInt(3), NewNil(), NewNil(), NewNil(), NewNil(), NewNil(), NewNil(), NewNil(), NewInt(4), NewNil(), NewNil(), NewNil(), NewNil(), NewNil(), NewInt(5)]
  /** After 7 insertions: the null at index 9 has its children at 19 and 20. */
  const RightChainStep7: seq<NilInt> := [NewInt(1), NewNil(), NewInt(2), NewNil(), NewNil(), NewNil(), NewInt(3), NewNil(), NewNil(), NewNil(), NewNil(), NewNil(), NewNil(), NewNil(), NewInt(4), NewNil(), NewNil(), NewNil(), NewNil(), NewNil(), NewNil(), NewNil(), NewInt(5)]
  /** After 8 insertions: the null at index 10 has its children at 21 and 22. */
  const RightChainStep8: seq<NilInt> := [NewInt(1), NewNil(), NewInt(2), NewNil(), NewNil(), NewNil(), NewInt(3), NewNil(), NewNil(), NewNil(), NewNil(), NewNil(), NewNil(), NewNil(), NewInt(4), NewNil(), NewNil(), NewNil(), NewNil(), NewNil(), NewNil(), NewNil(), NewNil(), NewNil(), NewInt(5)]
  /** After 9 insertions: the null at index 11 has its children at 23 and 24. */
  const RightChainStep9: seq<NilInt> := [NewInt(1), NewNil(), NewInt(2), NewNil(), NewNil(), NewNil(), NewInt(3), NewNil(), NewNil(), NewNil(), NewNil(), NewNil(), NewNil(), NewNil(), NewInt(4), NewNil(), NewNil(), NewNil(), NewNil(), NewNil(), NewNil(), NewNil(), NewNil(), NewNil(), NewNil(), NewNil(), NewInt(5)]
  /** After 10 insertions: the null at index 12 has its children at 25 and 26. */
  const RightChainStep10: seq<NilInt> := [NewInt(1), NewNil(), NewInt(2), NewNil(), NewNil(), NewNil(), NewInt(3), NewNil(), NewNil(), NewNil(), NewNil(), NewNil(), NewNil(), NewNil(), NewInt(4), NewNil(), NewNil(), NewNil(), NewNil(), NewNil(), NewNil(), NewNil(), NewNil(), NewNil(), NewNil(), NewNil(), NewNil(), NewNil(), NewInt(5)]
  /** After 11 insertions: the null at index 13 has its children at 27 and 28. */
  const RightChainStep11: seq<NilInt> := [NewInt(1), NewNil(), NewInt(2), NewNil(), NewNil(), NewNil(), NewInt(3), NewNil(), NewNil(), NewNil(), NewNil(), NewNil(), NewNil(), NewNil(), NewInt(4), NewNil(), NewNil(), NewNil(), NewNil(), NewNil(), NewNil(), NewNil(), NewNil(), NewNil(), NewNil(), NewNil(), NewNil(), NewNil(), NewNil(), NewNil(), NewInt(5)]

  /** The scan from index 0 goes on to the null at index 1 and inserts its two children, giving RightChainStep1. */
  lemma RightChainScan0()
    ensures Run(RightChainStep0, 0, 11) == Run(RightChainStep1, 2, 10)
  {
    assert Run(RightChainStep0, 0, 11) == Run(RightChainStep0, 1, 11);
    assert Run(RightChainStep0, 1, 11) == Run(RightChainStep1, 2, 10) by {
      assert RightChainStep0[..3] == [NewInt(1), NewNil(), NewInt(2)];
      assert RightChainStep0[3..] == [NewNil(), NewInt(3), NewNil(), NewInt(4), NewNil(), NewInt(5)];
      assert InsertNils(RightChainStep0, 3) == RightChainStep1;
    }
  }

  /** The scan from index 2 goes on to the null at index 3 and inserts its two children, giving RightChainStep2. */
  lemma RightChainScan1()
    ensures Run(RightChainStep1, 2, 10) == Run(RightChainStep2, 4, 9)
  {
    assert Run(RightChainStep1, 2, 10) == Run(RightChainStep1, 3, 10);
    assert Run(RightChainStep1, 3, 10) == Run(RightChainStep2, 4, 9) by {
      assert RightChainStep1[..7] == [NewInt(1), NewNil(), NewInt(2), NewNil(), NewNil(), NewNil(), NewInt(3)];
      assert RightChainStep1[7..] == [NewNil(), NewInt(4), NewNil(), NewInt(5)];
      assert InsertNils(RightChainStep1, 7) == RightChainStep2;
    }
  }

  /** The scan from index 4 goes on to the null at index 4 and inserts its two children, giving RightChainStep3. */
  lemma RightChainScan2()
    ensures Run(RightChainStep2, 4, 9) == Run(RightChainStep3, 5, 8)
  {
    assert Run(RightChainStep2, 4, 9) == Run(RightChainStep3, 5, 8) by {
      assert RightChainStep2[..9] == [NewInt(1), NewNil(), NewInt(2), NewNil(), NewNil(), NewNil(), NewInt(3), NewNil(), NewNil()];
      assert RightChainStep2[9..] == [NewNil(), NewInt(4), NewNil(), NewInt(5)];
      assert InsertNils(RightChainStep2, 9) == RightChainStep3;
    }
  }

  /** The scan from index 5 goes on to the null at index 5 and inserts its two children, giving RightChainStep4. */
  lemma RightChainScan3()
    ensures Run(RightChainStep3, 5, 8) == Run(RightChainStep4, 6, 7)
  {
    assert Run(RightChainStep3, 5, 8) == Run(RightChainStep4, 6, 7) by {
      assert RightChainStep3[..11] == [NewInt(1), NewNil(), NewInt(2), NewNil(), NewNil(), NewNil(), NewInt(3), NewNil(), NewNil(), NewNil(), NewNil()];
      assert RightChainStep3[11..] == [NewNil(), NewInt(4), NewNil(), NewInt(5)];
      assert InsertNils(RightChainStep3, 11) == RightChainStep4;
    }
  }

  /** The scan from index 6 goes on to the null at index 7 and inserts its two children, giving RightChainStep5. */
  lemma RightChainScan4()
    ensures Run(RightChainStep4, 6, 7) == Run(RightChainStep5, 8, 6)
  {
    assert Run(RightChainStep4, 6, 7) == Run(RightChainStep4, 7, 7);
    assert Run(RightChainStep4, 7, 7) == Run(RightChainStep5, 8, 6) by {
      assert RightChainStep4[..15] == [NewInt(1), NewNil(), NewInt(2), NewNil(), NewNil(), NewNil(), NewInt(3), NewNil(), NewNil(), NewNil(), NewNil(), NewNil(), NewNil(), NewNil(), NewInt(4)];
      assert RightChainStep4[15..] == [NewNil(), NewInt(5)];
      assert InsertNils(RightChainStep4, 15) == RightChainStep5;
    }
  }

  /** The scan from index 8 goes on to the null at index 8 and inserts its two children, giving RightChainStep6. */
  lemma RightChainScan5()
    ensures Run(RightChainStep5, 8, 6) == Run(RightChainStep6, 9, 5)
  {
    assert Run(RightChainStep5, 8, 6) == Run(RightChainStep6, 9, 5) by {
      assert RightChainStep5[..17] == [NewInt(1), NewNil(), NewInt(2), NewNil(), NewNil(), NewNil(), NewInt(3), NewNil(), NewNil(), NewNil(), NewNil(), NewNil(), NewNil(), NewNil(), NewInt(4), NewNil(), NewNil()];
      assert RightChainStep5[17..] == [NewNil(), NewInt(5)];
      assert InsertNils(RightChainStep5, 17) == RightChainStep6;
    }
  }

  /** The scan from index 9 goes on to the null at index 9 and inserts its two children, giving RightChainStep7. */
  lemma RightChainScan6()
    ensures Run(RightChainStep6, 9, 5) == Run(RightChainStep7, 10, 4)
  {
    assert Run(RightChainStep6, 9, 5) == Run(RightChainStep7, 10, 4) by {
      assert RightChainStep6[..19] == [NewInt(1), NewNil(), NewInt(2), NewNil(), NewNil(), NewNil(), NewInt(3), NewNil(), NewNil(), NewNil(), NewNil(), NewNil(), NewNil(), NewNil(), NewInt(4), NewNil(), NewNil(), NewNil(), NewNil()];
      assert RightChainStep6[19..] == [NewNil(), NewInt(5)];
      assert InsertNils(RightChainStep6, 19) == RightChainStep7;
    }
  }

  /** The scan from index 10 goes on to the null at index 10 and inserts its two children, giving RightChainStep8. */
  lemma RightChainScan7()
    ensures Run(RightChainStep7, 10, 4) == Run(RightChainStep8, 11, 3)
  {
    assert Run(RightChainStep7, 10, 4) == Run(RightChainStep8, 11, 3) by {
      assert RightChainStep7[..21] == [NewInt(1), NewNil(), NewInt(2), NewNil(), NewNil(), NewNil(), NewInt(3), NewNil(), NewNil(), NewNil(), NewNil(), NewNil(), NewNil(), NewNil(), NewInt(4), NewNil(), NewNil(), NewNil(), NewNil(), NewNil(), NewNil()];
      assert RightChainStep7[21..] == [NewNil(), NewInt(5)];
      assert InsertNils(RightChainStep7, 21) == RightChainStep8;
    }
  }

  /** The scan from index 11 goes on to the null at index 11 and inserts its two children, giving RightChainStep9. */
  lemma RightChainScan8()
    ensures Run(RightChainStep8, 11, 3) == Run(RightChainStep9, 12, 2)
  {
    assert Run(RightChainStep8, 11, 3) == Run(RightChainStep9, 12, 2) by {
      assert RightChainStep8[..23] == [NewInt(1), NewNil(), NewInt(2), NewNil(), NewNil(), NewNil(), NewInt(3), NewNil(), NewNil(), NewNil(), NewNil(), NewNil(), NewNil(), NewNil(), NewInt(4), NewNil(), NewNil(), NewNil(), NewNil(), NewNil(), NewNil(), NewNil(), NewNil()];
      assert RightChainStep8[23..] == [NewNil(), NewInt(5)];
      assert InsertNils(RightChainStep8, 23) == RightChainStep9;
    }
  }

  /** The scan from index 12 goes on to the null at index 12 and inserts its two children, giving RightChainStep10. */
  lemma RightChainScan9()
    ensures Run(RightChainStep9, 12, 2) == Run(RightChainStep10, 13, 1)
  {
    assert Run(RightChainStep9, 12, 2) == Run(RightChainStep10, 13, 1) by {
      assert RightChainStep9[..25] == [NewInt(1), NewNil(), NewInt(2), NewNil(), NewNil(), NewNil(), NewInt(3), NewNil(), NewNil(), NewNil(), NewNil(), NewNil(), NewNil(), NewNil(), NewInt(4), NewNil(), NewNil(), NewNil(), NewNil(), NewNil(), NewNil(), NewNil(), NewNil(), NewNil(), NewNil()];
      assert RightChainStep9[25..] == [NewNil(), NewInt(5)];
      assert InsertNils(RightChainStep9, 25) == RightChainStep10;
    }
  }

  /** The scan from index 13 goes on to the null at index 13 and inserts its two children, giving RightChainStep11. */
  lemma RightChainScan10()
    ensures Run(RightChainStep10, 13, 1) == Run(RightChainStep11, 14, 0)
  {
    assert Run(RightChainStep10, 13, 1) == Run(RightChainStep11, 14, 0) by {
      assert RightChainStep10[..27] == [NewInt(1), NewNil(), NewInt(2), NewNil(), NewNil(), NewNil(), NewInt(3), NewNil(), NewNil(), NewNil(), NewNil(), NewNil(), NewNil(), NewNil(), NewInt(4), NewNil(), NewNil(), NewNil(), NewNil(), NewNil(), NewNil(), NewNil(), NewNil(), NewNil(), NewNil(), NewNil(), NewNil()];
      assert RightChainStep10[27..] == [NewNil(), NewInt(5)];
      assert InsertNils(RightChainStep10, 27) == RightChainStep11;
    }
  }

  /** From index 14 the scan over RightChainStep11 inserts nothing more: it stops at the null at index 15, whose child slot lies past the end. */
  lemma RightChainScan11()
    ensures Run(RightChainStep11, 14, 0) == Some(RightChainStep11)
  {
    assert Run(RightChainStep11, 14, 0) == Run(RightChainStep11, 15, 0);
    assert Run(RightChainStep11, 15, 0) == Some(RightChainStep11);
  }

  /** 1,null,2,null,3,null,4,null,5 normalizes to 1,null,2,null,null,null,3,null,null,null,null,null,null,null,4,null,null,null,null,null,null,null,null,null,null,null,null,null,null,null,5. */
  lemma NormalizeRightChain()
    ensures var a := [NewInt(1), NewNil(), NewInt(2), NewNil(), NewInt(3), NewNil(), NewInt(4), NewNil(), NewInt(5)];
      Halts(a, 0) && Normalized(a, 0) == [NewInt(1), NewNil(), NewInt(2), NewNil(), NewNil(), NewNil(), NewInt(3), NewNil(), NewNil(), NewNil(), NewNil(), NewNil(), NewNil(), NewNil(), NewInt(4), NewNil(), NewNil(), NewNil(), NewNil(), NewNil(), NewNil(), NewNil(), NewNil(), NewNil(), NewNil(), NewNil(), NewNil(), NewNil(), NewNil(), NewNil(), NewInt(5)]
  {
    var a := [NewInt(1), NewNil(), NewInt(2), NewNil(), NewInt(3), NewNil(), NewInt(4), NewNil(), NewInt(5)];
    RightChainScan0();
    RightChainScan1();
    RightChainScan2();
    RightChainScan3();
    RightChainScan4();
    RightChainScan5();
    RightChainScan6();
    RightChainScan7();
    RightChainScan8();
    RightChainScan9();
    RightChainScan10();
    RightChainScan11();
    NormalizedByRun(a, 0, 11);
  }

  /** The heap decoding of the normalized 1,null,2,null,3,null,4,null,5 from index 30. */
  lemma DecodeRightChainAt30()
    ensures Build([NewInt(1), NewNil(), NewInt(2), NewNil(), NewNil(), NewNil(), NewInt(3), NewNil(), NewNil(), NewNil(), NewNil(), NewNil(), NewNil(), NewNil(), NewInt(4), NewNil(), NewNil(), NewNil(), NewNil(), NewNil(), NewNil(), NewNil(), NewNil(), NewNil(), NewNil(), NewNil(), NewNil(), NewNil(), NewNil(), NewNil(), NewInt(5)], 30) == Node(5, Nil, Nil)
  {
    var h := [NewInt(1), NewNil(), NewInt(2), NewNil(), NewNil(), NewNil(), NewInt(3), NewNil(), NewNil(), NewNil(), NewNil(), NewNil(), NewNil(), NewNil(), NewInt(4), NewNil(), NewNil(), NewNil(), NewNil(), NewNil(), NewNil(), NewNil(), NewNil(), NewNil(), NewNil(), NewNil(), NewNil(), NewNil(), NewNil(), NewNil(), NewInt(5)];
    assert Build(h, 61) == Nil;
    assert Build(h, 62) == Nil;
    assert Build(h, 30) == Node(5, Nil, Nil);
  }

  /** The heap decoding of the normalized 1,null,2,null,3,null,4,null,5 from index 14. */
  lemma DecodeRightChainAt14()
    ensures Build([NewInt(1), NewNil(), NewInt(2), NewNil(), NewNil(), NewNil(), NewInt(3), NewNil(), NewNil(), NewNil(), NewNil(), NewNil(), NewNil(), NewNil(), NewInt(4), NewNil(), NewNil(), NewNil(), NewNil(), NewNil(), NewNil(), NewNil(), NewNil(), NewNil(), NewNil(), NewNil(), NewNil(), NewNil(), NewNil(), NewNil(), NewInt(5)], 14) == Node(4, Nil, Node(5, Nil, Nil))
  {
    var h := [NewInt(1), NewNil(), NewInt(2), NewNil(), NewNil(), NewNil(), NewInt(3), NewNil(), NewNil(), NewNil(), NewNil(), NewNil(), NewNil(), NewNil(), NewInt(4), NewNil(), NewNil(), NewNil(), NewNil(), NewNil(), NewNil(), NewNil(), NewNil(), NewNil(), NewNil(), NewNil(), NewNil(), NewNil(), NewNil(), NewNil(), NewInt(5)];
    assert Build(h, 29) == Nil;
    DecodeRightChainAt30();
    assert Build(h, 14) == Node(4, Nil, Node(5, Nil, Nil));
  }

  /** The heap decoding of the normalized 1,null,2,null,3,null,4,null,5 from index 6. */
  lemma DecodeRightChainAt6()
    ensures Build([NewInt(1), NewNil(), NewInt(2), NewNil(), NewNil(), NewNil(), NewInt(3), NewNil(), NewNil(), NewNil(), NewNil(), NewNil(), NewNil(), NewNil(), NewInt(4), NewNil(), NewNil(), NewNil(), NewNil(), NewNil(), NewNil(), NewNil(), NewNil(), NewNil(), NewNil(), NewNil(), NewNil(), NewNil(), NewNil(), NewNil(), NewInt(5)], 6) == Node(3, Nil, Node(4, Nil, Node(5, Nil, Nil)))
  {
    var h := [NewInt(1), NewNil(), NewInt(2), NewNil(), NewNil(), NewNil(), NewInt(3), NewNil(), NewNil(), NewNil(), NewNil(), NewNil(), NewNil(), NewNil(), NewInt(4), NewNil(), NewNil(), NewNil(), NewNil(), NewNil(), NewNil(), NewNil(), NewNil(), NewNil(), NewNil(), NewNil(), NewNil(), NewNil(), NewNil(), NewNil(), NewInt(5)];
    assert Build(h, 13) == Nil;
    DecodeRightChainAt14();
    assert Build(h, 6) == Node(3, Nil, Node(4, Nil, Node(5, Nil, Nil)));
  }

  /** The heap decoding of the normalized 1,null,2,null,3,null,4,null,5 from index 2. */
  lemma DecodeRightChainAt2()
    ensures Build([NewInt(1), NewNil(), NewInt(2), NewNil(), NewNil(), NewNil(), NewInt(3), NewNil(), NewNil(), NewNil(), NewNil(), NewNil(), NewNil(), NewNil(), NewInt(4), NewNil(), NewNil(), NewNil(), NewNil(), NewNil(), NewNil(), NewNil(), NewNil(), NewNil(), NewNil(), NewNil(), NewNil(), NewNil(), NewNil(), NewNil(), NewInt(5)], 2) == Node(2, Nil, Node(3, Nil, Node(4, Nil, Node(5, Nil, Nil))))
  {
    var h := [NewInt(1), NewNil(), NewInt(2), NewNil(), NewNil(), NewNil(), NewInt(3), NewNil(), NewNil(), NewNil(), NewNil(), NewNil(), NewNil(), NewNil(), NewInt(4), NewNil(), NewNil(), NewNil(), NewNil(), NewNil(), NewNil(), NewNil(), NewNil(), NewNil(), NewNil(), NewNil(), NewNil(), NewNil(), NewNil(), NewNil(), NewInt(5)];
    assert Build(h, 5) == Nil;
    DecodeRightChainAt6();
    assert Build(h, 2) == Node(2, Nil, Node(3, Nil, Node(4, Nil, Node(5, Nil, Nil))));
  }

  /** The heap decoding of the normalized 1,null,2,null,3,null,4,null,5 from index 0. */
  lemma DecodeRightChain()
    ensures Build([NewInt(1), NewNil(), NewInt(2), NewNil(), NewNil(), NewNil(), NewInt(3), NewNil(), NewNil(), NewNil(), NewNil(), NewNil(), NewNil(), NewNil(), NewInt(4), NewNil(), NewNil(), NewNil(), NewNil(), NewNil(), NewNil(), NewNil(), NewNil(), NewNil(), NewNil(), NewNil(), NewNil(), NewNil(), NewNil(), NewNil(), NewInt(5)], 0) == Node(1, Nil, Node(2, Nil, Node(3, Nil, Node(4, Nil, Node(5, Nil, Nil)))))
  {
    var h := [NewInt(1), NewNil(), NewInt(2), NewNil(), NewNil(), NewNil(), NewInt(3), NewNil(), NewNil(), NewNil(), NewNil(), NewNil(), NewNil(), NewNil(), NewInt(4), NewNil(), NewNil(), NewNil(), NewNil(), NewNil(), NewNil(), NewNil(), NewNil(), NewNil(), NewNil(), NewNil(), NewNil(), NewNil(), NewNil(), NewNil(), NewInt(5)];
    assert Build(h, 1) == Nil;
    DecodeRightChainAt2();
    assert Build(h, 0) == Node(1, Nil, Node(2, Nil, Node(3, Nil, Node(4, Nil, Node(5, Nil, Nil)))));
  }

  /** 1,null,2,null,3,null,4,null,5: the right-only chain 1, 2, 3, 4, 5. */
  lemma GetTreeNodeRightChain()
    ensures var a := [NewInt(1), NewNil(), NewInt(2), NewNil(), NewInt(3), NewNil(), NewInt(4), NewNil(), NewInt(5)];
      Halts(a, 0) && Build(Normalized(a, 0), 0) == Node(1, Nil, Node(2, Nil, Node(3, Nil, Node(4, Nil, Node(5, Nil, Nil)))))
  {
    NormalizeRightChain();
    DecodeRightChain();
  }

  /** 3,5,1,6,7,4,2,null,null,null,null,null,null,9,8 normalizes to 3,5,1,6,7,4,2,null,null,null,null,null,null,9,8. */
  lemma NormalizeOmittedSubtree()
    ensures var a := [NewInt(3), NewInt(5), NewInt(1), NewInt(6), NewInt(7), NewInt(4), NewInt(2), NewNil(), NewNil(), NewNil(), NewNil(), NewNil(), NewNil(), NewInt(9), NewInt(8)];
      Halts(a, 0) && Normalized(a, 0) == [NewInt(3), NewInt(5), NewInt(1), NewInt(6), NewInt(7), NewInt(4), NewInt(2), NewNil(), NewNil(), NewNil(), NewNil(), NewNil(), NewNil(), NewInt(9), NewInt(8)]
  {
    var a := [NewInt(3), NewInt(5), NewInt(1), NewInt(6), NewInt(7), NewInt(4), NewInt(2), NewNil(), NewNil(), NewNil(), NewNil(), NewNil(), NewNil(), NewInt(9), NewInt(8)];
    assert Run(a, 0, 0) == Run(a, 1, 0);
    assert Run(a, 1, 0) == Run(a, 2, 0);
    assert Run(a, 2, 0) == Run(a, 3, 0);
    assert Run(a, 3, 0) == Run(a, 4, 0);
    assert Run(a, 4, 0) == Run(a, 5, 0);
    assert Run(a, 5, 0) == Run(a, 6, 0);
    assert Run(a, 6, 0) == Run(a, 7, 0);
    assert Run(a, 7, 0) == Some(a);
    NormalizedByRun(a, 0, 0);
  }

  /** 3,5,1,6,7,4,2,null,null,null,null,null,null,9,8: 3 with children 5
      (leaves 6, 7) and 1 (leaf 4, and 2 with leaves 9 and 8). */
  lemma GetTreeNodeOmittedSubtree()
    ensures var a := [NewInt(3), NewInt(5), NewInt(1), NewInt(6), NewInt(7), NewInt(4), NewInt(2), NewNil(), NewNil(), NewNil(), NewNil(), NewNil(), NewNil(), NewInt(9), NewInt(8)];
      Halts(a, 0) && Build(Normalized(a, 0), 0) == Node(3, Node(5, Node(6, Nil, Nil), Node(7, Nil, Nil)), Node(1, Node(4, Nil, Nil), Node(2, Node(9, Nil, Nil), Node(8, Nil, Nil))))
  {
    NormalizeOmittedSubtree();
    var h := [NewInt(3), NewInt(5), NewInt(1), NewInt(6), NewInt(7), NewInt(4), NewInt(2), NewNil(), NewNil(), NewNil(), NewNil(), NewNil(), NewNil(), NewInt(9), NewInt(8)];
    assert Build(h, 14) == Node(8, Nil, Nil);
    assert Build(h, 13) == Node(9, Nil, Nil);
    assert Build(h, 12) == Nil;
    assert Build(h, 11) == Nil;
    assert Build(h, 10) == Nil;
    assert Build(h, 9) == Nil;
    assert Build(h, 8) == Nil;
    assert Build(h, 7) == Nil;
    assert Build(h, 6) == Node(2, Node(9, Nil, Nil), Node(8, Nil, Nil));
    assert Build(h, 5) == Node(4, Nil, Nil);
    assert Build(h, 4) == Node(7, Nil, Nil);
    assert Build(h, 3) == Node(6, Nil, Nil);
    assert Build(h, 2) == Node(1, Node(4, Nil, Nil), Node(2, Node(9, Nil, Nil), Node(8, Nil, Nil)));
    assert Build(h, 1) == Node(5, Node(6, Nil, Nil), Node(7, Nil, Nil));
    assert Build(h, 0) == Node(3, Node(5, Node(6, Nil, Nil), Node(7, Nil, Nil)), Node(1, Node(4, Nil, Nil), Node(2, Node(9, Nil, Nil), Node(8, Nil, Nil))));
  }

}
