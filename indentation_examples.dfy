/** Concrete runs of the indentation post-processor of tests/indentation_sensitive.rs. */
module IndentationExamples {

  import opened Wrappers
  import R = RawStream
  import I = IndentationSensitive

  /** The raw tokens of "a\n b\n    c\n        d\n  e": blocks at levels 1, 4 and 8, then a
      line at level 2, which matches none of them. */
  const MisalignedRaw: R.Stream<I.RawToken> := R.Stream(seq(9, i requires 0 <= i => MisalignedTok(i)), None)

  function MisalignedTok(i: nat): R.Spanned<I.RawToken>
  {
    if i == 0 then R.Spanned(0, I.RawToken.Identifier("a"), 1)
    else if i == 1 then R.Spanned(1, I.RawToken.Indent("\n "), 3)
    else if i == 2 then R.Spanned(3, I.RawToken.Identifier("b"), 4)
    else if i == 3 then R.Spanned(4, I.RawToken.Indent("\n    "), 9)
    else if i == 4 then R.Spanned(9, I.RawToken.Identifier("c"), 10)
    else if i == 5 then R.Spanned(10, I.RawToken.Indent("\n        "), 19)
    else if i == 6 then R.Spanned(19, I.RawToken.Identifier("d"), 20)
    else if i == 7 then R.Spanned(20, I.RawToken.Indent("\n  "), 23)
    else R.Spanned(23, I.RawToken.Identifier("e"), 24)
  }

  lemma MisalignedRawValid()
    ensures I.ValidRaw(MisalignedRaw)
  {
    MisalignedRawFrom0();
    I.ValidRawOf(MisalignedRaw.toks);
  }

  lemma MisalignedRawFrom0()
    ensures R.InOrderFrom(MisalignedRaw.toks, 0, 0) && I.TextsNonEmpty(MisalignedRaw.toks, 0)
  {
    var t := MisalignedRaw.toks;
    MisalignedRawFrom3();
    assert R.InOrderFrom(t, 2, 3) && I.TextsNonEmpty(t, 2);
    assert R.InOrderFrom(t, 1, 1) && I.TextsNonEmpty(t, 1);
    assert R.InOrderFrom(t, 0, 0) && I.TextsNonEmpty(t, 0);
  }

  lemma MisalignedRawFrom3()
    ensures R.InOrderFrom(MisalignedRaw.toks, 3, 4) && I.TextsNonEmpty(MisalignedRaw.toks, 3)
  {
    var t := MisalignedRaw.toks;
    MisalignedRawFrom6();
    assert R.InOrderFrom(t, 5, 10) && I.TextsNonEmpty(t, 5);
    assert R.InOrderFrom(t, 4, 9) && I.TextsNonEmpty(t, 4);
    assert R.InOrderFrom(t, 3, 4) && I.TextsNonEmpty(t, 3);
  }

  lemma MisalignedRawFrom6()
    ensures R.InOrderFrom(MisalignedRaw.toks, 6, 19) && I.TextsNonEmpty(MisalignedRaw.toks, 6)
  {
    var t := MisalignedRaw.toks;
    assert R.InOrderFrom(t, 8, 23) && I.TextsNonEmpty(t, 8);
    assert R.InOrderFrom(t, 7, 20) && I.TextsNonEmpty(t, 7);
    assert R.InOrderFrom(t, 6, 19) && I.TextsNonEmpty(t, 6);
  }


  /** As written, the misaligned line closes three blocks but only two `Dedent`s come out
      for them: the run ends with `None` after four `Indent`s and three `Dedent`s. */
  lemma MisalignedAsWritten()
    ensures I.ValidRaw(MisalignedRaw)
    ensures I.Outputs(MisalignedRaw, I.Initial, I.AsWritten, 14) ==
            [
              Some(I.Ok(I.Token.Identifier("a"))),
              Some(I.Ok(I.Token.Indent)),
              Some(I.Ok(I.Token.Identifier("b"))),
              Some(I.Ok(I.Token.Indent)),
              Some(I.Ok(I.Token.Identifier("c")))]
            + ([
              Some(I.Ok(I.Token.Indent)),
              Some(I.Ok(I.Token.Identifier("d"))),
              Some(I.Err(I.MisalignedIndentation(20))),
              Some(I.Ok(I.Token.Dedent)),
              Some(I.Ok(I.Token.Dedent))]
            + ([
              Some(I.Ok(I.Token.Indent)),
              Some(I.Ok(I.Token.Identifier("e"))),
              Some(I.Ok(I.Token.Dedent)),
              None]))
    ensures I.Net(I.Outputs(MisalignedRaw, I.Initial, I.AsWritten, 14)) == 1
  {
    MisalignedRawValid();
    AsWrittenCall0To5();
    AsWrittenCall5To10();
    AsWrittenCall10To14();
    I.OutputsSplit(MisalignedRaw, I.IterState(8, [2], 0, [I.Token.Indent]), I.AsWritten, 4, 0);
    I.OutputsSplit(MisalignedRaw, I.IterState(5, [1, 4], 0, []), I.AsWritten, 5, 4);
    I.OutputsSplit(MisalignedRaw, I.Initial, I.AsWritten, 5, 9);
    MisalignedNet();
  }

  lemma AsWrittenCall0()
    requires I.ValidRaw(MisalignedRaw)
    ensures I.NextSpec(MisalignedRaw, I.Initial, I.AsWritten) == (Some(I.Ok(I.Token.Identifier("a"))), I.IterState(1, [], 0, []))
  {
    assert I.Consume(MisalignedRaw, I.Initial, I.AsWritten) == I.Return(Some(I.Ok(I.Token.Identifier("a"))), I.IterState(1, [], 0, []));
  }

  lemma AsWrittenCall1()
    requires I.ValidRaw(MisalignedRaw)
    ensures I.NextSpec(MisalignedRaw, I.IterState(1, [], 0, []), I.AsWritten) == (Some(I.Ok(I.Token.Indent)), I.IterState(2, [1], 0, []))
  {
    assert I.Consume(MisalignedRaw, I.IterState(1, [], 0, []), I.AsWritten) == I.Return(Some(I.Ok(I.Token.Indent)), I.IterState(2, [1], 0, []));
  }

  lemma AsWrittenCall2()
    requires I.ValidRaw(MisalignedRaw)
    ensures I.NextSpec(MisalignedRaw, I.IterState(2, [1], 0, []), I.AsWritten) == (Some(I.Ok(I.Token.Identifier("b"))), I.IterState(3, [1], 0, []))
  {
    assert I.Consume(MisalignedRaw, I.IterState(2, [1], 0, []), I.AsWritten) == I.Return(Some(I.Ok(I.Token.Identifier("b"))), I.IterState(3, [1], 0, []));
  }

  lemma AsWrittenCall3()
    requires I.ValidRaw(MisalignedRaw)
    ensures I.NextSpec(MisalignedRaw, I.IterState(3, [1], 0, []), I.AsWritten) == (Some(I.Ok(I.Token.Indent)), I.IterState(4, [1, 4], 0, []))
  {
    assert I.Consume(MisalignedRaw, I.IterState(3, [1], 0, []), I.AsWritten) == I.Return(Some(I.Ok(I.Token.Indent)), I.IterState(4, [1, 4], 0, []));
  }

  lemma AsWrittenCall4()
    requires I.ValidRaw(MisalignedRaw)
    ensures I.NextSpec(MisalignedRaw, I.IterState(4, [1, 4], 0, []), I.AsWritten) == (Some(I.Ok(I.Token.Identifier("c"))), I.IterState(5, [1, 4], 0, []))
  {
    assert I.Consume(MisalignedRaw, I.IterState(4, [1, 4], 0, []), I.AsWritten) == I.Return(Some(I.Ok(I.Token.Identifier("c"))), I.IterState(5, [1, 4], 0, []));
  }

  lemma AsWrittenCall5()
    requires I.ValidRaw(MisalignedRaw)
    ensures I.NextSpec(MisalignedRaw, I.IterState(5, [1, 4], 0, []), I.AsWritten) == (Some(I.Ok(I.Token.Indent)), I.IterState(6, [1, 4, 8], 0, []))
  {
    assert I.Consume(MisalignedRaw, I.IterState(5, [1, 4], 0, []), I.AsWritten) == I.Return(Some(I.Ok(I.Token.Indent)), I.IterState(6, [1, 4, 8], 0, []));
  }

  lemma AsWrittenCall6()
    requires I.ValidRaw(MisalignedRaw)
    ensures I.NextSpec(MisalignedRaw, I.IterState(6, [1, 4, 8], 0, []), I.AsWritten) == (Some(I.Ok(I.Token.Identifier("d"))), I.IterState(7, [1, 4, 8], 0, []))
  {
    assert I.Consume(MisalignedRaw, I.IterState(6, [1, 4, 8], 0, []), I.AsWritten) == I.Return(Some(I.Ok(I.Token.Identifier("d"))), I.IterState(7, [1, 4, 8], 0, []));
  }

  lemma AsWrittenCall7()
    requires I.ValidRaw(MisalignedRaw)
    ensures I.NextSpec(MisalignedRaw, I.IterState(7, [1, 4, 8], 0, []), I.AsWritten) == (Some(I.Err(I.MisalignedIndentation(20))), I.IterState(8, [2], 0, [I.Dedent, I.Dedent, I.Token.Indent]))
  {
    assert I.Pop([1, 4, 8]) == [1, 4];
    assert I.Pop([1, 4]) == [1];
    assert [] + [I.Dedent] == [I.Dedent];
    assert [] + [2] == [2];
    assert [I.Dedent] + [I.Dedent, I.Token.Indent] == [I.Dedent, I.Dedent, I.Token.Indent];
    assert I.Pop([1]) == [];
    assert I.DedentLoop([1], 2, [I.Dedent], 20, I.AsWritten) == ([2], [I.Dedent, I.Dedent, I.Token.Indent], I.Err(I.MisalignedIndentation(20)));
    assert I.DedentLoop([1, 4], 2, [], 20, I.AsWritten) == ([2], [I.Dedent, I.Dedent, I.Token.Indent], I.Err(I.MisalignedIndentation(20)));
    assert I.Consume(MisalignedRaw, I.IterState(7, [1, 4, 8], 0, []), I.AsWritten) == I.Return(Some(I.Err(I.MisalignedIndentation(20))), I.IterState(8, [2], 0, [I.Dedent, I.Dedent, I.Token.Indent]));
  }

  lemma AsWrittenCall8()
    requires I.ValidRaw(MisalignedRaw)
    ensures I.NextSpec(MisalignedRaw, I.IterState(8, [2], 0, [I.Dedent, I.Dedent, I.Token.Indent]), I.AsWritten) == (Some(I.Ok(I.Token.Dedent)), I.IterState(8, [2], 0, [I.Dedent, I.Token.Indent]))
  {
    assert [I.Dedent, I.Dedent, I.Token.Indent][1..] == [I.Dedent, I.Token.Indent];
  }

  lemma AsWrittenCall9()
    requires I.ValidRaw(MisalignedRaw)
    ensures I.NextSpec(MisalignedRaw, I.IterState(8, [2], 0, [I.Dedent, I.Token.Indent]), I.AsWritten) == (Some(I.Ok(I.Token.Dedent)), I.IterState(8, [2], 0, [I.Token.Indent]))
  {
    assert [I.Dedent, I.Token.Indent][1..] == [I.Token.Indent];
  }

  lemma AsWrittenCall10()
    requires I.ValidRaw(MisalignedRaw)
    ensures I.NextSpec(MisalignedRaw, I.IterState(8, [2], 0, [I.Token.Indent]), I.AsWritten) == (Some(I.Ok(I.Token.Indent)), I.IterState(8, [2], 0, []))
  {
    assert [I.Token.Indent][1..] == [];
  }

  lemma AsWrittenCall11()
    requires I.ValidRaw(MisalignedRaw)
    ensures I.NextSpec(MisalignedRaw, I.IterState(8, [2], 0, []), I.AsWritten) == (Some(I.Ok(I.Token.Identifier("e"))), I.IterState(9, [2], 0, []))
  {
    assert I.Consume(MisalignedRaw, I.IterState(8, [2], 0, []), I.AsWritten) == I.Return(Some(I.Ok(I.Token.Identifier("e"))), I.IterState(9, [2], 0, []));
  }

  lemma AsWrittenCall12()
    requires I.ValidRaw(MisalignedRaw)
    ensures I.NextSpec(MisalignedRaw, I.IterState(9, [2], 0, []), I.AsWritten) == (Some(I.Ok(I.Token.Dedent)), I.IterState(9, [], 0, []))
  {
    assert Repeat(I.Dedent, 0) == [];
    assert [] + Repeat(I.Dedent, 0) == [];
    assert I.AtEnd(MisalignedRaw, I.IterState(9, [2], 0, [])) == (Some(I.Ok(I.Token.Dedent)), I.IterState(9, [], 0, []));
    assert I.Loop(MisalignedRaw, I.IterState(9, [2], 0, []), I.AsWritten) == I.AtEnd(MisalignedRaw, I.IterState(9, [2], 0, []));
  }

  lemma AsWrittenCall13()
    requires I.ValidRaw(MisalignedRaw)
    ensures I.NextSpec(MisalignedRaw, I.IterState(9, [], 0, []), I.AsWritten) == (None, I.IterState(9, [], 0, []))
  {
    assert I.AtEnd(MisalignedRaw, I.IterState(9, [], 0, [])) == (None, I.IterState(9, [], 0, []));
    assert I.Loop(MisalignedRaw, I.IterState(9, [], 0, []), I.AsWritten) == I.AtEnd(MisalignedRaw, I.IterState(9, [], 0, []));
  }

  lemma AsWrittenCall0To5()
    requires I.ValidRaw(MisalignedRaw)
    ensures I.After(MisalignedRaw, I.Initial, I.AsWritten, 5) == I.IterState(5, [1, 4], 0, [])
    ensures I.Outputs(MisalignedRaw, I.Initial, I.AsWritten, 5) == [
              Some(I.Ok(I.Token.Identifier("a"))),
              Some(I.Ok(I.Token.Indent)),
              Some(I.Ok(I.Token.Identifier("b"))),
              Some(I.Ok(I.Token.Indent)),
              Some(I.Ok(I.Token.Identifier("c")))]
  {
    AsWrittenCall0();
    AsWrittenCall1();
    AsWrittenCall2();
    AsWrittenCall3();
    AsWrittenCall4();
    assert I.Outputs(MisalignedRaw, I.IterState(4, [1, 4], 0, []), I.AsWritten, 1) == [Some(I.Ok(I.Token.Identifier("c")))] + I.Outputs(MisalignedRaw, I.IterState(5, [1, 4], 0, []), I.AsWritten, 0);
    assert I.After(MisalignedRaw, I.IterState(4, [1, 4], 0, []), I.AsWritten, 1) == I.After(MisalignedRaw, I.IterState(5, [1, 4], 0, []), I.AsWritten, 0);
    assert I.Outputs(MisalignedRaw, I.IterState(3, [1], 0, []), I.AsWritten, 2) == [Some(I.Ok(I.Token.Indent))] + I.Outputs(MisalignedRaw, I.IterState(4, [1, 4], 0, []), I.AsWritten, 1);
    assert I.After(MisalignedRaw, I.IterState(3, [1], 0, []), I.AsWritten, 2) == I.After(MisalignedRaw, I.IterState(4, [1, 4], 0, []), I.AsWritten, 1);
    assert I.Outputs(MisalignedRaw, I.IterState(2, [1], 0, []), I.AsWritten, 3) == [Some(I.Ok(I.Token.Identifier("b")))] + I.Outputs(MisalignedRaw, I.IterState(3, [1], 0, []), I.AsWritten, 2);
    assert I.After(MisalignedRaw, I.IterState(2, [1], 0, []), I.AsWritten, 3) == I.After(MisalignedRaw, I.IterState(3, [1], 0, []), I.AsWritten, 2);
    assert I.Outputs(MisalignedRaw, I.IterState(1, [], 0, []), I.AsWritten, 4) == [Some(I.Ok(I.Token.Indent))] + I.Outputs(MisalignedRaw, I.IterState(2, [1], 0, []), I.AsWritten, 3);
    assert I.After(MisalignedRaw, I.IterState(1, [], 0, []), I.AsWritten, 4) == I.After(MisalignedRaw, I.IterState(2, [1], 0, []), I.AsWritten, 3);
    assert I.Outputs(MisalignedRaw, I.Initial, I.AsWritten, 5) == [Some(I.Ok(I.Token.Identifier("a")))] + I.Outputs(MisalignedRaw, I.IterState(1, [], 0, []), I.AsWritten, 4);
    assert I.After(MisalignedRaw, I.Initial, I.AsWritten, 5) == I.After(MisalignedRaw, I.IterState(1, [], 0, []), I.AsWritten, 4);
  }

  lemma AsWrittenCall5To10()
    requires I.ValidRaw(MisalignedRaw)
    ensures I.After(MisalignedRaw, I.IterState(5, [1, 4], 0, []), I.AsWritten, 5) == I.IterState(8, [2], 0, [I.Token.Indent])
    ensures I.Outputs(MisalignedRaw, I.IterState(5, [1, 4], 0, []), I.AsWritten, 5) == [
              Some(I.Ok(I.Token.Indent)),
              Some(I.Ok(I.Token.Identifier("d"))),
              Some(I.Err(I.MisalignedIndentation(20))),
              Some(I.Ok(I.Token.Dedent)),
              Some(I.Ok(I.Token.Dedent))]
  {
    AsWrittenCall5();
    AsWrittenCall6();
    AsWrittenCall7();
    AsWrittenCall8();
    AsWrittenCall9();
    assert I.Outputs(MisalignedRaw, I.IterState(8, [2], 0, [I.Dedent, I.Token.Indent]), I.AsWritten, 1) == [Some(I.Ok(I.Token.Dedent))] + I.Outputs(MisalignedRaw, I.IterState(8, [2], 0, [I.Token.Indent]), I.AsWritten, 0);
    assert I.After(MisalignedRaw, I.IterState(8, [2], 0, [I.Dedent, I.Token.Indent]), I.AsWritten, 1) == I.After(MisalignedRaw, I.IterState(8, [2], 0, [I.Token.Indent]), I.AsWritten, 0);
    assert I.Outputs(MisalignedRaw, I.IterState(8, [2], 0, [I.Dedent, I.Dedent, I.Token.Indent]), I.AsWritten, 2) == [Some(I.Ok(I.Token.Dedent))] + I.Outputs(MisalignedRaw, I.IterState(8, [2], 0, [I.Dedent, I.Token.Indent]), I.AsWritten, 1);
    assert I.After(MisalignedRaw, I.IterState(8, [2], 0, [I.Dedent, I.Dedent, I.Token.Indent]), I.AsWritten, 2) == I.After(MisalignedRaw, I.IterState(8, [2], 0, [I.Dedent, I.Token.Indent]), I.AsWritten, 1);
    assert I.Outputs(MisalignedRaw, I.IterState(7, [1, 4, 8], 0, []), I.AsWritten, 3) == [Some(I.Err(I.MisalignedIndentation(20)))] + I.Outputs(MisalignedRaw, I.IterState(8, [2], 0, [I.Dedent, I.Dedent, I.Token.Indent]), I.AsWritten, 2);
    assert I.After(MisalignedRaw, I.IterState(7, [1, 4, 8], 0, []), I.AsWritten, 3) == I.After(MisalignedRaw, I.IterState(8, [2], 0, [I.Dedent, I.Dedent, I.Token.Indent]), I.AsWritten, 2);
    assert I.Outputs(MisalignedRaw, I.IterState(6, [1, 4, 8], 0, []), I.AsWritten, 4) == [Some(I.Ok(I.Token.Identifier("d")))] + I.Outputs(MisalignedRaw, I.IterState(7, [1, 4, 8], 0, []), I.AsWritten, 3);
    assert I.After(MisalignedRaw, I.IterState(6, [1, 4, 8], 0, []), I.AsWritten, 4) == I.After(MisalignedRaw, I.IterState(7, [1, 4, 8], 0, []), I.AsWritten, 3);
    assert I.Outputs(MisalignedRaw, I.IterState(5, [1, 4], 0, []), I.AsWritten, 5) == [Some(I.Ok(I.Token.Indent))] + I.Outputs(MisalignedRaw, I.IterState(6, [1, 4, 8], 0, []), I.AsWritten, 4);
    assert I.After(MisalignedRaw, I.IterState(5, [1, 4], 0, []), I.AsWritten, 5) == I.After(MisalignedRaw, I.IterState(6, [1, 4, 8], 0, []), I.AsWritten, 4);
  }

  lemma AsWrittenCall10To14()
    requires I.ValidRaw(MisalignedRaw)
    ensures I.After(MisalignedRaw, I.IterState(8, [2], 0, [I.Token.Indent]), I.AsWritten, 4) == I.IterState(9, [], 0, [])
    ensures I.Outputs(MisalignedRaw, I.IterState(8, [2], 0, [I.Token.Indent]), I.AsWritten, 4) == [
              Some(I.Ok(I.Token.Indent)),
              Some(I.Ok(I.Token.Identifier("e"))),
              Some(I.Ok(I.Token.Dedent)),
              None]
  {
    AsWrittenCall10();
    AsWrittenCall11();
    AsWrittenCall12();
    AsWrittenCall13();
    assert I.Outputs(MisalignedRaw, I.IterState(9, [], 0, []), I.AsWritten, 1) == [None] + I.Outputs(MisalignedRaw, I.IterState(9, [], 0, []), I.AsWritten, 0);
    assert I.After(MisalignedRaw, I.IterState(9, [], 0, []), I.AsWritten, 1) == I.After(MisalignedRaw, I.IterState(9, [], 0, []), I.AsWritten, 0);
    assert I.Outputs(MisalignedRaw, I.IterState(9, [2], 0, []), I.AsWritten, 2) == [Some(I.Ok(I.Token.Dedent))] + I.Outputs(MisalignedRaw, I.IterState(9, [], 0, []), I.AsWritten, 1);
    assert I.After(MisalignedRaw, I.IterState(9, [2], 0, []), I.AsWritten, 2) == I.After(MisalignedRaw, I.IterState(9, [], 0, []), I.AsWritten, 1);
    assert I.Outputs(MisalignedRaw, I.IterState(8, [2], 0, []), I.AsWritten, 3) == [Some(I.Ok(I.Token.Identifier("e")))] + I.Outputs(MisalignedRaw, I.IterState(9, [2], 0, []), I.AsWritten, 2);
    assert I.After(MisalignedRaw, I.IterState(8, [2], 0, []), I.AsWritten, 3) == I.After(MisalignedRaw, I.IterState(9, [2], 0, []), I.AsWritten, 2);
    assert I.Outputs(MisalignedRaw, I.IterState(8, [2], 0, [I.Token.Indent]), I.AsWritten, 4) == [Some(I.Ok(I.Token.Indent))] + I.Outputs(MisalignedRaw, I.IterState(8, [2], 0, []), I.AsWritten, 3);
    assert I.After(MisalignedRaw, I.IterState(8, [2], 0, [I.Token.Indent]), I.AsWritten, 4) == I.After(MisalignedRaw, I.IterState(8, [2], 0, []), I.AsWritten, 3);
  }

  lemma MisalignedNet()
    ensures I.Net([
                Some(I.Ok(I.Token.Identifier("a"))),
                Some(I.Ok(I.Token.Indent)),
                Some(I.Ok(I.Token.Identifier("b"))),
                Some(I.Ok(I.Token.Indent)),
                Some(I.Ok(I.Token.Identifier("c")))]
              + ([
                Some(I.Ok(I.Token.Indent)),
                Some(I.Ok(I.Token.Identifier("d"))),
                Some(I.Err(I.MisalignedIndentation(20))),
                Some(I.Ok(I.Token.Dedent)),
                Some(I.Ok(I.Token.Dedent))]
              + ([
                Some(I.Ok(I.Token.Indent)),
                Some(I.Ok(I.Token.Identifier("e"))),
                Some(I.Ok(I.Token.Dedent)),
                None]))) == 1
  {
    AsWrittenNet0();
    AsWrittenNet1();
    AsWrittenNet2();
    I.NetAppend([
      Some(I.Ok(I.Token.Indent)),
      Some(I.Ok(I.Token.Identifier("d"))),
      Some(I.Err(I.MisalignedIndentation(20))),
      Some(I.Ok(I.Token.Dedent)),
      Some(I.Ok(I.Token.Dedent))], [
      Some(I.Ok(I.Token.Indent)),
      Some(I.Ok(I.Token.Identifier("e"))),
      Some(I.Ok(I.Token.Dedent)),
      None]);
    I.NetAppend([
      Some(I.Ok(I.Token.Identifier("a"))),
      Some(I.Ok(I.Token.Indent)),
      Some(I.Ok(I.Token.Identifier("b"))),
      Some(I.Ok(I.Token.Indent)),
      Some(I.Ok(I.Token.Identifier("c")))], [
      Some(I.Ok(I.Token.Indent)),
      Some(I.Ok(I.Token.Identifier("d"))),
      Some(I.Err(I.MisalignedIndentation(20))),
      Some(I.Ok(I.Token.Dedent)),
      Some(I.Ok(I.Token.Dedent))] + ([
      Some(I.Ok(I.Token.Indent)),
      Some(I.Ok(I.Token.Identifier("e"))),
      Some(I.Ok(I.Token.Dedent)),
      None]));
  }


  lemma AsWrittenNet0()
    ensures I.Net([
                Some(I.Ok(I.Token.Identifier("a"))),
                Some(I.Ok(I.Token.Indent)),
                Some(I.Ok(I.Token.Identifier("b"))),
                Some(I.Ok(I.Token.Indent)),
                Some(I.Ok(I.Token.Identifier("c")))]) == 2
  {
    var o := [
      Some(I.Ok(I.Token.Identifier("a"))),
      Some(I.Ok(I.Token.Indent)),
      Some(I.Ok(I.Token.Identifier("b"))),
      Some(I.Ok(I.Token.Indent)),
      Some(I.Ok(I.Token.Identifier("c")))];
    assert I.Net(o[4..]) == I.Delta(o[4]) + I.Net(o[5..]);
    assert I.Net(o[3..]) == I.Delta(o[3]) + I.Net(o[4..]);
    assert I.Net(o[2..]) == I.Delta(o[2]) + I.Net(o[3..]);
    assert I.Net(o[1..]) == I.Delta(o[1]) + I.Net(o[2..]);
    assert I.Net(o[0..]) == I.Delta(o[0]) + I.Net(o[1..]);
    assert o[0..] == o && o[5..] == [];
  }

  lemma AsWrittenNet1()
    ensures I.Net([
                Some(I.Ok(I.Token.Indent)),
                Some(I.Ok(I.Token.Identifier("d"))),
                Some(I.Err(I.MisalignedIndentation(20))),
                Some(I.Ok(I.Token.Dedent)),
                Some(I.Ok(I.Token.Dedent))]) == -1
  {
    var o := [
      Some(I.Ok(I.Token.Indent)),
      Some(I.Ok(I.Token.Identifier("d"))),
      Some(I.Err(I.MisalignedIndentation(20))),
      Some(I.Ok(I.Token.Dedent)),
      Some(I.Ok(I.Token.Dedent))];
    assert I.Net(o[4..]) == I.Delta(o[4]) + I.Net(o[5..]);
    assert I.Net(o[3..]) == I.Delta(o[3]) + I.Net(o[4..]);
    assert I.Net(o[2..]) == I.Delta(o[2]) + I.Net(o[3..]);
    assert I.Net(o[1..]) == I.Delta(o[1]) + I.Net(o[2..]);
    assert I.Net(o[0..]) == I.Delta(o[0]) + I.Net(o[1..]);
    assert o[0..] == o && o[5..] == [];
  }

  lemma AsWrittenNet2()
    ensures I.Net([
                Some(I.Ok(I.Token.Indent)),
                Some(I.Ok(I.Token.Identifier("e"))),
                Some(I.Ok(I.Token.Dedent)),
                None]) == 0
  {
    var o := [
      Some(I.Ok(I.Token.Indent)),
      Some(I.Ok(I.Token.Identifier("e"))),
      Some(I.Ok(I.Token.Dedent)),
      None];
    assert I.Net(o[3..]) == I.Delta(o[3]) + I.Net(o[4..]);
    assert I.Net(o[2..]) == I.Delta(o[2]) + I.Net(o[3..]);
    assert I.Net(o[1..]) == I.Delta(o[1]) + I.Net(o[2..]);
    assert I.Net(o[0..]) == I.Delta(o[0]) + I.Net(o[1..]);
    assert o[0..] == o && o[4..] == [];
  }

  /** As corrected, the same input ends with one `Dedent` per `Indent`. */
  lemma MisalignedCorrected()
    ensures I.ValidRaw(MisalignedRaw)
    ensures I.Outputs(MisalignedRaw, I.Initial, I.Corrected, 15) ==
            [
              Some(I.Ok(I.Token.Identifier("a"))),
              Some(I.Ok(I.Token.Indent)),
              Some(I.Ok(I.Token.Identifier("b"))),
              Some(I.Ok(I.Token.Indent)),
              Some(I.Ok(I.Token.Identifier("c")))]
            + ([
              Some(I.Ok(I.Token.Indent)),
              Some(I.Ok(I.Token.Identifier("d"))),
              Some(I.Err(I.MisalignedIndentation(20))),
              Some(I.Ok(I.Token.Dedent)),
              Some(I.Ok(I.Token.Dedent))]
            + ([
              Some(I.Ok(I.Token.Indent)),
              Some(I.Ok(I.Token.Identifier("e"))),
              Some(I.Ok(I.Token.Dedent)),
              Some(I.Ok(I.Token.Dedent)),
              None]))
  {
    MisalignedRawValid();
    CorrectedCall0To5();
    CorrectedCall5To10();
    CorrectedCall10To15();
    I.OutputsSplit(MisalignedRaw, I.IterState(8, [1, 2], 0, [I.Token.Indent]), I.Corrected, 5, 0);
    I.OutputsSplit(MisalignedRaw, I.IterState(5, [1, 4], 0, []), I.Corrected, 5, 5);
    I.OutputsSplit(MisalignedRaw, I.Initial, I.Corrected, 5, 10);
  }

  lemma CorrectedCall0()
    requires I.ValidRaw(MisalignedRaw)
    ensures I.NextSpec(MisalignedRaw, I.Initial, I.Corrected) == (Some(I.Ok(I.Token.Identifier("a"))), I.IterState(1, [], 0, []))
  {
    assert I.Consume(MisalignedRaw, I.Initial, I.Corrected) == I.Return(Some(I.Ok(I.Token.Identifier("a"))), I.IterState(1, [], 0, []));
  }

  lemma CorrectedCall1()
    requires I.ValidRaw(MisalignedRaw)
    ensures I.NextSpec(MisalignedRaw, I.IterState(1, [], 0, []), I.Corrected) == (Some(I.Ok(I.Token.Indent)), I.IterState(2, [1], 0, []))
  {
    assert I.Consume(MisalignedRaw, I.IterState(1, [], 0, []), I.Corrected) == I.Return(Some(I.Ok(I.Token.Indent)), I.IterState(2, [1], 0, []));
  }

  lemma CorrectedCall2()
    requires I.ValidRaw(MisalignedRaw)
    ensures I.NextSpec(MisalignedRaw, I.IterState(2, [1], 0, []), I.Corrected) == (Some(I.Ok(I.Token.Identifier("b"))), I.IterState(3, [1], 0, []))
  {
    assert I.Consume(MisalignedRaw, I.IterState(2, [1], 0, []), I.Corrected) == I.Return(Some(I.Ok(I.Token.Identifier("b"))), I.IterState(3, [1], 0, []));
  }

  lemma CorrectedCall3()
    requires I.ValidRaw(MisalignedRaw)
    ensures I.NextSpec(MisalignedRaw, I.IterState(3, [1], 0, []), I.Corrected) == (Some(I.Ok(I.Token.Indent)), I.IterState(4, [1, 4], 0, []))
  {
    assert I.Consume(MisalignedRaw, I.IterState(3, [1], 0, []), I.Corrected) == I.Return(Some(I.Ok(I.Token.Indent)), I.IterState(4, [1, 4], 0, []));
  }

  lemma CorrectedCall4()
    requires I.ValidRaw(MisalignedRaw)
    ensures I.NextSpec(MisalignedRaw, I.IterState(4, [1, 4], 0, []), I.Corrected) == (Some(I.Ok(I.Token.Identifier("c"))), I.IterState(5, [1, 4], 0, []))
  {
    assert I.Consume(MisalignedRaw, I.IterState(4, [1, 4], 0, []), I.Corrected) == I.Return(Some(I.Ok(I.Token.Identifier("c"))), I.IterState(5, [1, 4], 0, []));
  }

  lemma CorrectedCall5()
    requires I.ValidRaw(MisalignedRaw)
    ensures I.NextSpec(MisalignedRaw, I.IterState(5, [1, 4], 0, []), I.Corrected) == (Some(I.Ok(I.Token.Indent)), I.IterState(6, [1, 4, 8], 0, []))
  {
    assert I.Consume(MisalignedRaw, I.IterState(5, [1, 4], 0, []), I.Corrected) == I.Return(Some(I.Ok(I.Token.Indent)), I.IterState(6, [1, 4, 8], 0, []));
  }

  lemma CorrectedCall6()
    requires I.ValidRaw(MisalignedRaw)
    ensures I.NextSpec(MisalignedRaw, I.IterState(6, [1, 4, 8], 0, []), I.Corrected) == (Some(I.Ok(I.Token.Identifier("d"))), I.IterState(7, [1, 4, 8], 0, []))
  {
    assert I.Consume(MisalignedRaw, I.IterState(6, [1, 4, 8], 0, []), I.Corrected) == I.Return(Some(I.Ok(I.Token.Identifier("d"))), I.IterState(7, [1, 4, 8], 0, []));
  }

  lemma CorrectedCall7()
    requires I.ValidRaw(MisalignedRaw)
    ensures I.NextSpec(MisalignedRaw, I.IterState(7, [1, 4, 8], 0, []), I.Corrected) == (Some(I.Err(I.MisalignedIndentation(20))), I.IterState(8, [1, 2], 0, [I.Dedent, I.Dedent, I.Token.Indent]))
  {
    assert I.Pop([1, 4, 8]) == [1, 4];
    assert I.Pop([1, 4]) == [1];
    assert [] + [I.Dedent] == [I.Dedent];
    assert [1] + [2] == [1, 2];
    assert [I.Dedent] + [I.Dedent, I.Token.Indent] == [I.Dedent, I.Dedent, I.Token.Indent];
    assert I.Pop([1]) == [];
    assert I.DedentLoop([1], 2, [I.Dedent], 20, I.Corrected) == ([1, 2], [I.Dedent, I.Dedent, I.Token.Indent], I.Err(I.MisalignedIndentation(20)));
    assert I.DedentLoop([1, 4], 2, [], 20, I.Corrected) == ([1, 2], [I.Dedent, I.Dedent, I.Token.Indent], I.Err(I.MisalignedIndentation(20)));
    assert I.Consume(MisalignedRaw, I.IterState(7, [1, 4, 8], 0, []), I.Corrected) == I.Return(Some(I.Err(I.MisalignedIndentation(20))), I.IterState(8, [1, 2], 0, [I.Dedent, I.Dedent, I.Token.Indent]));
  }

  lemma CorrectedCall8()
    requires I.ValidRaw(MisalignedRaw)
    ensures I.NextSpec(MisalignedRaw, I.IterState(8, [1, 2], 0, [I.Dedent, I.Dedent, I.Token.Indent]), I.Corrected) == (Some(I.Ok(I.Token.Dedent)), I.IterState(8, [1, 2], 0, [I.Dedent, I.Token.Indent]))
  {
    assert [I.Dedent, I.Dedent, I.Token.Indent][1..] == [I.Dedent, I.Token.Indent];
  }

  lemma CorrectedCall9()
    requires I.ValidRaw(MisalignedRaw)
    ensures I.NextSpec(MisalignedRaw, I.IterState(8, [1, 2], 0, [I.Dedent, I.Token.Indent]), I.Corrected) == (Some(I.Ok(I.Token.Dedent)), I.IterState(8, [1, 2], 0, [I.Token.Indent]))
  {
    assert [I.Dedent, I.Token.Indent][1..] == [I.Token.Indent];
  }

  lemma CorrectedCall10()
    requires I.ValidRaw(MisalignedRaw)
    ensures I.NextSpec(MisalignedRaw, I.IterState(8, [1, 2], 0, [I.Token.Indent]), I.Corrected) == (Some(I.Ok(I.Token.Indent)), I.IterState(8, [1, 2], 0, []))
  {
    assert [I.Token.Indent][1..] == [];
  }

  lemma CorrectedCall11()
    requires I.ValidRaw(MisalignedRaw)
    ensures I.NextSpec(MisalignedRaw, I.IterState(8, [1, 2], 0, []), I.Corrected) == (Some(I.Ok(I.Token.Identifier("e"))), I.IterState(9, [1, 2], 0, []))
  {
    assert I.Consume(MisalignedRaw, I.IterState(8, [1, 2], 0, []), I.Corrected) == I.Return(Some(I.Ok(I.Token.Identifier("e"))), I.IterState(9, [1, 2], 0, []));
  }

  lemma CorrectedCall12()
    requires I.ValidRaw(MisalignedRaw)
    ensures I.NextSpec(MisalignedRaw, I.IterState(9, [1, 2], 0, []), I.Corrected) == (Some(I.Ok(I.Token.Dedent)), I.IterState(9, [], 0, [I.Dedent]))
  {
    assert Repeat(I.Dedent, 1) == [I.Dedent];
    assert [] + Repeat(I.Dedent, 1) == [I.Dedent];
    assert I.AtEnd(MisalignedRaw, I.IterState(9, [1, 2], 0, [])) == (Some(I.Ok(I.Token.Dedent)), I.IterState(9, [], 0, [I.Dedent]));
    assert I.Loop(MisalignedRaw, I.IterState(9, [1, 2], 0, []), I.Corrected) == I.AtEnd(MisalignedRaw, I.IterState(9, [1, 2], 0, []));
  }

  lemma CorrectedCall13()
    requires I.ValidRaw(MisalignedRaw)
    ensures I.NextSpec(MisalignedRaw, I.IterState(9, [], 0, [I.Dedent]), I.Corrected) == (Some(I.Ok(I.Token.Dedent)), I.IterState(9, [], 0, []))
  {
    assert [I.Dedent][1..] == [];
  }

  lemma CorrectedCall14()
    requires I.ValidRaw(MisalignedRaw)
    ensures I.NextSpec(MisalignedRaw, I.IterState(9, [], 0, []), I.Corrected) == (None, I.IterState(9, [], 0, []))
  {
    assert I.AtEnd(MisalignedRaw, I.IterState(9, [], 0, [])) == (None, I.IterState(9, [], 0, []));
    assert I.Loop(MisalignedRaw, I.IterState(9, [], 0, []), I.Corrected) == I.AtEnd(MisalignedRaw, I.IterState(9, [], 0, []));
  }

  lemma CorrectedCall0To5()
    requires I.ValidRaw(MisalignedRaw)
    ensures I.After(MisalignedRaw, I.Initial, I.Corrected, 5) == I.IterState(5, [1, 4], 0, [])
    ensures I.Outputs(MisalignedRaw, I.Initial, I.Corrected, 5) == [
              Some(I.Ok(I.Token.Identifier("a"))),
              Some(I.Ok(I.Token.Indent)),
              Some(I.Ok(I.Token.Identifier("b"))),
              Some(I.Ok(I.Token.Indent)),
              Some(I.Ok(I.Token.Identifier("c")))]
  {
    CorrectedCall0();
    CorrectedCall1();
    CorrectedCall2();
    CorrectedCall3();
    CorrectedCall4();
    assert I.Outputs(MisalignedRaw, I.IterState(4, [1, 4], 0, []), I.Corrected, 1) == [Some(I.Ok(I.Token.Identifier("c")))] + I.Outputs(MisalignedRaw, I.IterState(5, [1, 4], 0, []), I.Corrected, 0);
    assert I.After(MisalignedRaw, I.IterState(4, [1, 4], 0, []), I.Corrected, 1) == I.After(MisalignedRaw, I.IterState(5, [1, 4], 0, []), I.Corrected, 0);
    assert I.Outputs(MisalignedRaw, I.IterState(3, [1], 0, []), I.Corrected, 2) == [Some(I.Ok(I.Token.Indent))] + I.Outputs(MisalignedRaw, I.IterState(4, [1, 4], 0, []), I.Corrected, 1);
    assert I.After(MisalignedRaw, I.IterState(3, [1], 0, []), I.Corrected, 2) == I.After(MisalignedRaw, I.IterState(4, [1, 4], 0, []), I.Corrected, 1);
    assert I.Outputs(MisalignedRaw, I.IterState(2, [1], 0, []), I.Corrected, 3) == [Some(I.Ok(I.Token.Identifier("b")))] + I.Outputs(MisalignedRaw, I.IterState(3, [1], 0, []), I.Corrected, 2);
    assert I.After(MisalignedRaw, I.IterState(2, [1], 0, []), I.Corrected, 3) == I.After(MisalignedRaw, I.IterState(3, [1], 0, []), I.Corrected, 2);
    assert I.Outputs(MisalignedRaw, I.IterState(1, [], 0, []), I.Corrected, 4) == [Some(I.Ok(I.Token.Indent))] + I.Outputs(MisalignedRaw, I.IterState(2, [1], 0, []), I.Corrected, 3);
    assert I.After(MisalignedRaw, I.IterState(1, [], 0, []), I.Corrected, 4) == I.After(MisalignedRaw, I.IterState(2, [1], 0, []), I.Corrected, 3);
    assert I.Outputs(MisalignedRaw, I.Initial, I.Corrected, 5) == [Some(I.Ok(I.Token.Identifier("a")))] + I.Outputs(MisalignedRaw, I.IterState(1, [], 0, []), I.Corrected, 4);
    assert I.After(MisalignedRaw, I.Initial, I.Corrected, 5) == I.After(MisalignedRaw, I.IterState(1, [], 0, []), I.Corrected, 4);
  }

  lemma CorrectedCall5To10()
    requires I.ValidRaw(MisalignedRaw)
    ensures I.After(MisalignedRaw, I.IterState(5, [1, 4], 0, []), I.Corrected, 5) == I.IterState(8, [1, 2], 0, [I.Token.Indent])
    ensures I.Outputs(MisalignedRaw, I.IterState(5, [1, 4], 0, []), I.Corrected, 5) == [
              Some(I.Ok(I.Token.Indent)),
              Some(I.Ok(I.Token.Identifier("d"))),
              Some(I.Err(I.MisalignedIndentation(20))),
              Some(I.Ok(I.Token.Dedent)),
              Some(I.Ok(I.Token.Dedent))]
  {
    CorrectedCall5();
    CorrectedCall6();
    CorrectedCall7();
    CorrectedCall8();
    CorrectedCall9();
    assert I.Outputs(MisalignedRaw, I.IterState(8, [1, 2], 0, [I.Dedent, I.Token.Indent]), I.Corrected, 1) == [Some(I.Ok(I.Token.Dedent))] + I.Outputs(MisalignedRaw, I.IterState(8, [1, 2], 0, [I.Token.Indent]), I.Corrected, 0);
    assert I.After(MisalignedRaw, I.IterState(8, [1, 2], 0, [I.Dedent, I.Token.Indent]), I.Corrected, 1) == I.After(MisalignedRaw, I.IterState(8, [1, 2], 0, [I.Token.Indent]), I.Corrected, 0);
    assert I.Outputs(MisalignedRaw, I.IterState(8, [1, 2], 0, [I.Dedent, I.Dedent, I.Token.Indent]), I.Corrected, 2) == [Some(I.Ok(I.Token.Dedent))] + I.Outputs(MisalignedRaw, I.IterState(8, [1, 2], 0, [I.Dedent, I.Token.Indent]), I.Corrected, 1);
    assert I.After(MisalignedRaw, I.IterState(8, [1, 2], 0, [I.Dedent, I.Dedent, I.Token.Indent]), I.Corrected, 2) == I.After(MisalignedRaw, I.IterState(8, [1, 2], 0, [I.Dedent, I.Token.Indent]), I.Corrected, 1);
    assert I.Outputs(MisalignedRaw, I.IterState(7, [1, 4, 8], 0, []), I.Corrected, 3) == [Some(I.Err(I.MisalignedIndentation(20)))] + I.Outputs(MisalignedRaw, I.IterState(8, [1, 2], 0, [I.Dedent, I.Dedent, I.Token.Indent]), I.Corrected, 2);
    assert I.After(MisalignedRaw, I.IterState(7, [1, 4, 8], 0, []), I.Corrected, 3) == I.After(MisalignedRaw, I.IterState(8, [1, 2], 0, [I.Dedent, I.Dedent, I.Token.Indent]), I.Corrected, 2);
    assert I.Outputs(MisalignedRaw, I.IterState(6, [1, 4, 8], 0, []), I.Corrected, 4) == [Some(I.Ok(I.Token.Identifier("d")))] + I.Outputs(MisalignedRaw, I.IterState(7, [1, 4, 8], 0, []), I.Corrected, 3);
    assert I.After(MisalignedRaw, I.IterState(6, [1, 4, 8], 0, []), I.Corrected, 4) == I.After(MisalignedRaw, I.IterState(7, [1, 4, 8], 0, []), I.Corrected, 3);
    assert I.Outputs(MisalignedRaw, I.IterState(5, [1, 4], 0, []), I.Corrected, 5) == [Some(I.Ok(I.Token.Indent))] + I.Outputs(MisalignedRaw, I.IterState(6, [1, 4, 8], 0, []), I.Corrected, 4);
    assert I.After(MisalignedRaw, I.IterState(5, [1, 4], 0, []), I.Corrected, 5) == I.After(MisalignedRaw, I.IterState(6, [1, 4, 8], 0, []), I.Corrected, 4);
  }

  lemma CorrectedCall10To15()
    requires I.ValidRaw(MisalignedRaw)
    ensures I.After(MisalignedRaw, I.IterState(8, [1, 2], 0, [I.Token.Indent]), I.Corrected, 5) == I.IterState(9, [], 0, [])
    ensures I.Outputs(MisalignedRaw, I.IterState(8, [1, 2], 0, [I.Token.Indent]), I.Corrected, 5) == [
              Some(I.Ok(I.Token.Indent)),
              Some(I.Ok(I.Token.Identifier("e"))),
              Some(I.Ok(I.Token.Dedent)),
              Some(I.Ok(I.Token.Dedent)),
              None]
  {
    CorrectedCall10();
    CorrectedCall11();
    CorrectedCall12();
    CorrectedCall13();
    CorrectedCall14();
    assert I.Outputs(MisalignedRaw, I.IterState(9, [], 0, []), I.Corrected, 1) == [None] + I.Outputs(MisalignedRaw, I.IterState(9, [], 0, []), I.Corrected, 0);
    assert I.After(MisalignedRaw, I.IterState(9, [], 0, []), I.Corrected, 1) == I.After(MisalignedRaw, I.IterState(9, [], 0, []), I.Corrected, 0);
    assert I.Outputs(MisalignedRaw, I.IterState(9, [], 0, [I.Dedent]), I.Corrected, 2) == [Some(I.Ok(I.Token.Dedent))] + I.Outputs(MisalignedRaw, I.IterState(9, [], 0, []), I.Corrected, 1);
    assert I.After(MisalignedRaw, I.IterState(9, [], 0, [I.Dedent]), I.Corrected, 2) == I.After(MisalignedRaw, I.IterState(9, [], 0, []), I.Corrected, 1);
    assert I.Outputs(MisalignedRaw, I.IterState(9, [1, 2], 0, []), I.Corrected, 3) == [Some(I.Ok(I.Token.Dedent))] + I.Outputs(MisalignedRaw, I.IterState(9, [], 0, [I.Dedent]), I.Corrected, 2);
    assert I.After(MisalignedRaw, I.IterState(9, [1, 2], 0, []), I.Corrected, 3) == I.After(MisalignedRaw, I.IterState(9, [], 0, [I.Dedent]), I.Corrected, 2);
    assert I.Outputs(MisalignedRaw, I.IterState(8, [1, 2], 0, []), I.Corrected, 4) == [Some(I.Ok(I.Token.Identifier("e")))] + I.Outputs(MisalignedRaw, I.IterState(9, [1, 2], 0, []), I.Corrected, 3);
    assert I.After(MisalignedRaw, I.IterState(8, [1, 2], 0, []), I.Corrected, 4) == I.After(MisalignedRaw, I.IterState(9, [1, 2], 0, []), I.Corrected, 3);
    assert I.Outputs(MisalignedRaw, I.IterState(8, [1, 2], 0, [I.Token.Indent]), I.Corrected, 5) == [Some(I.Ok(I.Token.Indent))] + I.Outputs(MisalignedRaw, I.IterState(8, [1, 2], 0, []), I.Corrected, 4);
    assert I.After(MisalignedRaw, I.IterState(8, [1, 2], 0, [I.Token.Indent]), I.Corrected, 5) == I.After(MisalignedRaw, I.IterState(8, [1, 2], 0, []), I.Corrected, 4);
  }

  /** The raw tokens of the input of the test at tests/indentation_sensitive.rs:161-209. */
  const TestRaw: R.Stream<I.RawToken> := R.Stream(seq(29, i requires 0 <= i => TestTok(i)), None)

  function TestTok(i: nat): R.Spanned<I.RawToken>
  {
    if i == 0 then R.Spanned(0, I.RawToken.Indent("\n"), 1)
    else if i == 1 then R.Spanned(1, I.RawToken.Identifier("foo"), 4)
    else if i == 2 then R.Spanned(4, I.RawToken.Indent("\n    "), 9)
    else if i == 3 then R.Spanned(9, I.RawToken.Identifier("bar"), 12)
    else if i == 4 then R.Spanned(12, I.RawToken.Indent("\n        "), 21)
    else if i == 5 then R.Spanned(21, I.RawToken.Identifier("baz"), 24)
    else if i == 6 then R.Spanned(24, I.RawToken.Indent("\n  "), 27)
    else if i == 7 then R.Spanned(27, I.RawToken.Identifier("bar"), 30)
    else if i == 8 then R.Spanned(30, I.RawToken.Whitespace("  "), 32)
    else if i == 9 then R.Spanned(39, I.RawToken.Indent("\n "), 41)
    else if i == 10 then R.Spanned(43, I.RawToken.Indent("\n  "), 46)
    else if i == 11 then R.Spanned(46, I.RawToken.Identifier("bar"), 49)
    else if i == 12 then R.Spanned(49, I.RawToken.Whitespace(" "), 50)
    else if i == 13 then R.Spanned(50, I.RawToken.LBracket, 51)
    else if i == 14 then R.Spanned(51, I.RawToken.Indent("\n    "), 56)
    else if i == 15 then R.Spanned(56, I.RawToken.Identifier("x"), 57)
    else if i == 16 then R.Spanned(57, I.RawToken.Comma, 58)
    else if i == 17 then R.Spanned(58, I.RawToken.Indent("\n    "), 63)
    else if i == 18 then R.Spanned(63, I.RawToken.Identifier("y"), 64)
    else if i == 19 then R.Spanned(64, I.RawToken.Comma, 65)
    else if i == 20 then R.Spanned(65, I.RawToken.Indent("\n    "), 70)
    else if i == 21 then R.Spanned(70, I.RawToken.Identifier("z"), 71)
    else if i == 22 then R.Spanned(71, I.RawToken.Comma, 72)
    else if i == 23 then R.Spanned(72, I.RawToken.Indent("\n  "), 75)
    else if i == 24 then R.Spanned(75, I.RawToken.RBracket, 76)
    else if i == 25 then R.Spanned(76, I.RawToken.Indent("\n  "), 79)
    else if i == 26 then R.Spanned(79, I.RawToken.Identifier("bar"), 82)
    else if i == 27 then R.Spanned(82, I.RawToken.Indent("\n    "), 87)
    else R.Spanned(87, I.RawToken.Identifier("baz"), 90)
  }

  lemma TestRawValid()
    ensures I.ValidRaw(TestRaw)
  {
    TestRawFrom0();
    I.ValidRawOf(TestRaw.toks);
  }

  lemma TestRawFrom0()
    ensures R.InOrderFrom(TestRaw.toks, 0, 0) && I.TextsNonEmpty(TestRaw.toks, 0)
  {
    var t := TestRaw.toks;
    TestRawFrom3();
    assert R.InOrderFrom(t, 2, 4) && I.TextsNonEmpty(t, 2);
    assert R.InOrderFrom(t, 1, 1) && I.TextsNonEmpty(t, 1);
    assert R.InOrderFrom(t, 0, 0) && I.TextsNonEmpty(t, 0);
  }

  lemma TestRawFrom3()
    ensures R.InOrderFrom(TestRaw.toks, 3, 9) && I.TextsNonEmpty(TestRaw.toks, 3)
  {
    var t := TestRaw.toks;
    TestRawFrom6();
    assert R.InOrderFrom(t, 5, 21) && I.TextsNonEmpty(t, 5);
    assert R.InOrderFrom(t, 4, 12) && I.TextsNonEmpty(t, 4);
    assert R.InOrderFrom(t, 3, 9) && I.TextsNonEmpty(t, 3);
  }

  lemma TestRawFrom6()
    ensures R.InOrderFrom(TestRaw.toks, 6, 24) && I.TextsNonEmpty(TestRaw.toks, 6)
  {
    var t := TestRaw.toks;
    TestRawFrom9();
    assert R.InOrderFrom(t, 8, 30) && I.TextsNonEmpty(t, 8);
    assert R.InOrderFrom(t, 7, 27) && I.TextsNonEmpty(t, 7);
    assert R.InOrderFrom(t, 6, 24) && I.TextsNonEmpty(t, 6);
  }

  lemma TestRawFrom9()
    ensures R.InOrderFrom(TestRaw.toks, 9, 32) && I.TextsNonEmpty(TestRaw.toks, 9)
  {
    var t := TestRaw.toks;
    TestRawFrom12();
    assert R.InOrderFrom(t, 11, 46) && I.TextsNonEmpty(t, 11);
    assert R.InOrderFrom(t, 10, 41) && I.TextsNonEmpty(t, 10);
    assert R.InOrderFrom(t, 9, 32) && I.TextsNonEmpty(t, 9);
  }

  lemma TestRawFrom12()
    ensures R.InOrderFrom(TestRaw.toks, 12, 49) && I.TextsNonEmpty(TestRaw.toks, 12)
  {
    var t := TestRaw.toks;
    TestRawFrom15();
    assert R.InOrderFrom(t, 14, 51) && I.TextsNonEmpty(t, 14);
    assert R.InOrderFrom(t, 13, 50) && I.TextsNonEmpty(t, 13);
    assert R.InOrderFrom(t, 12, 49) && I.TextsNonEmpty(t, 12);
  }

  lemma TestRawFrom15()
    ensures R.InOrderFrom(TestRaw.toks, 15, 56) && I.TextsNonEmpty(TestRaw.toks, 15)
  {
    var t := TestRaw.toks;
    TestRawFrom18();
    assert R.InOrderFrom(t, 17, 58) && I.TextsNonEmpty(t, 17);
    assert R.InOrderFrom(t, 16, 57) && I.TextsNonEmpty(t, 16);
    assert R.InOrderFrom(t, 15, 56) && I.TextsNonEmpty(t, 15);
  }

  lemma TestRawFrom18()
    ensures R.InOrderFrom(TestRaw.toks, 18, 63) && I.TextsNonEmpty(TestRaw.toks, 18)
  {
    var t := TestRaw.toks;
    TestRawFrom21();
    assert R.InOrderFrom(t, 20, 65) && I.TextsNonEmpty(t, 20);
    assert R.InOrderFrom(t, 19, 64) && I.TextsNonEmpty(t, 19);
    assert R.InOrderFrom(t, 18, 63) && I.TextsNonEmpty(t, 18);
  }

  lemma TestRawFrom21()
    ensures R.InOrderFrom(TestRaw.toks, 21, 70) && I.TextsNonEmpty(TestRaw.toks, 21)
  {
    var t := TestRaw.toks;
    TestRawFrom24();
    assert R.InOrderFrom(t, 23, 72) && I.TextsNonEmpty(t, 23);
    assert R.InOrderFrom(t, 22, 71) && I.TextsNonEmpty(t, 22);
    assert R.InOrderFrom(t, 21, 70) && I.TextsNonEmpty(t, 21);
  }

  lemma TestRawFrom24()
    ensures R.InOrderFrom(TestRaw.toks, 24, 75) && I.TextsNonEmpty(TestRaw.toks, 24)
  {
    var t := TestRaw.toks;
    TestRawFrom27();
    assert R.InOrderFrom(t, 26, 79) && I.TextsNonEmpty(t, 26);
    assert R.InOrderFrom(t, 25, 76) && I.TextsNonEmpty(t, 25);
    assert R.InOrderFrom(t, 24, 75) && I.TextsNonEmpty(t, 24);
  }

  lemma TestRawFrom27()
    ensures R.InOrderFrom(TestRaw.toks, 27, 82) && I.TextsNonEmpty(TestRaw.toks, 27)
  {
    var t := TestRaw.toks;
    assert R.InOrderFrom(t, 28, 87) && I.TextsNonEmpty(t, 28);
    assert R.InOrderFrom(t, 27, 82) && I.TextsNonEmpty(t, 27);
  }


  /** The test's expected tokens, then `None`; here the extra pop of the misaligned branch
      acts on an empty stack, so both revisions agree. */
  lemma TestExpected(rev: I.Revision)
    ensures I.ValidRaw(TestRaw)
    ensures I.Outputs(TestRaw, I.Initial, rev, 25) ==
            [
              Some(I.Ok(I.Token.Identifier("foo"))),
              Some(I.Ok(I.Token.Indent)),
              Some(I.Ok(I.Token.Identifier("bar"))),
              Some(I.Ok(I.Token.Indent)),
              Some(I.Ok(I.Token.Identifier("baz")))]
            + ([
              Some(I.Err(I.MisalignedIndentation(24))),
              Some(I.Ok(I.Token.Dedent)),
              Some(I.Ok(I.Token.Dedent)),
              Some(I.Ok(I.Token.Indent)),
              Some(I.Ok(I.Token.Identifier("bar")))]
            + ([
              Some(I.Ok(I.Token.Identifier("bar"))),
              Some(I.Ok(I.Token.LBracket)),
              Some(I.Ok(I.Token.Identifier("x"))),
              Some(I.Ok(I.Token.Comma)),
              Some(I.Ok(I.Token.Identifier("y")))]
            + ([
              Some(I.Ok(I.Token.Comma)),
              Some(I.Ok(I.Token.Identifier("z"))),
              Some(I.Ok(I.Token.Comma)),
              Some(I.Ok(I.Token.RBracket)),
              Some(I.Ok(I.Token.Identifier("bar")))]
            + ([
              Some(I.Ok(I.Token.Indent)),
              Some(I.Ok(I.Token.Identifier("baz"))),
              Some(I.Ok(I.Token.Dedent)),
              Some(I.Ok(I.Token.Dedent)),
              None]))))
  {
    TestRawValid();
    TestCall0To5(rev);
    TestCall5To10(rev);
    TestCall10To15(rev);
    TestCall15To20(rev);
    TestCall20To25(rev);
    I.OutputsSplit(TestRaw, I.IterState(27, [2], 0, []), rev, 5, 0);
    I.OutputsSplit(TestRaw, I.IterState(19, [2], 1, []), rev, 5, 5);
    I.OutputsSplit(TestRaw, I.IterState(8, [2], 0, []), rev, 5, 10);
    I.OutputsSplit(TestRaw, I.IterState(6, [4, 8], 0, []), rev, 5, 15);
    I.OutputsSplit(TestRaw, I.Initial, rev, 5, 20);
  }

  lemma TestCall0(rev: I.Revision)
    requires I.ValidRaw(TestRaw)
    ensures I.NextSpec(TestRaw, I.Initial, rev) == (Some(I.Ok(I.Token.Identifier("foo"))), I.IterState(2, [], 0, []))
  {
    assert I.Consume(TestRaw, I.Initial, rev) == I.Continue(I.IterState(1, [], 0, []));
    assert I.Consume(TestRaw, I.IterState(1, [], 0, []), rev) == I.Return(Some(I.Ok(I.Token.Identifier("foo"))), I.IterState(2, [], 0, []));
    assert I.Loop(TestRaw, I.Initial, rev) == I.Loop(TestRaw, I.IterState(1, [], 0, []), rev);
  }

  lemma TestCall1(rev: I.Revision)
    requires I.ValidRaw(TestRaw)
    ensures I.NextSpec(TestRaw, I.IterState(2, [], 0, []), rev) == (Some(I.Ok(I.Token.Indent)), I.IterState(3, [4], 0, []))
  {
    assert I.Consume(TestRaw, I.IterState(2, [], 0, []), rev) == I.Return(Some(I.Ok(I.Token.Indent)), I.IterState(3, [4], 0, []));
  }

  lemma TestCall2(rev: I.Revision)
    requires I.ValidRaw(TestRaw)
    ensures I.NextSpec(TestRaw, I.IterState(3, [4], 0, []), rev) == (Some(I.Ok(I.Token.Identifier("bar"))), I.IterState(4, [4], 0, []))
  {
    assert I.Consume(TestRaw, I.IterState(3, [4], 0, []), rev) == I.Return(Some(I.Ok(I.Token.Identifier("bar"))), I.IterState(4, [4], 0, []));
  }

  lemma TestCall3(rev: I.Revision)
    requires I.ValidRaw(TestRaw)
    ensures I.NextSpec(TestRaw, I.IterState(4, [4], 0, []), rev) == (Some(I.Ok(I.Token.Indent)), I.IterState(5, [4, 8], 0, []))
  {
    assert I.Consume(TestRaw, I.IterState(4, [4], 0, []), rev) == I.Return(Some(I.Ok(I.Token.Indent)), I.IterState(5, [4, 8], 0, []));
  }

  lemma TestCall4(rev: I.Revision)
    requires I.ValidRaw(TestRaw)
    ensures I.NextSpec(TestRaw, I.IterState(5, [4, 8], 0, []), rev) == (Some(I.Ok(I.Token.Identifier("baz"))), I.IterState(6, [4, 8], 0, []))
  {
    assert I.Consume(TestRaw, I.IterState(5, [4, 8], 0, []), rev) == I.Return(Some(I.Ok(I.Token.Identifier("baz"))), I.IterState(6, [4, 8], 0, []));
  }

  lemma TestCall5(rev: I.Revision)
    requires I.ValidRaw(TestRaw)
    ensures I.NextSpec(TestRaw, I.IterState(6, [4, 8], 0, []), rev) == (Some(I.Err(I.MisalignedIndentation(24))), I.IterState(7, [2], 0, [I.Dedent, I.Dedent, I.Token.Indent]))
  {
    assert I.Pop([4, 8]) == [4];
    assert I.Pop([4]) == [];
    assert [] + [I.Dedent] == [I.Dedent];
    assert I.Consume(TestRaw, I.IterState(6, [4, 8], 0, []), rev) == I.Return(Some(I.Err(I.MisalignedIndentation(24))), I.IterState(7, [2], 0, [I.Dedent, I.Dedent, I.Token.Indent]));
  }

  lemma TestCall6(rev: I.Revision)
    requires I.ValidRaw(TestRaw)
    ensures I.NextSpec(TestRaw, I.IterState(7, [2], 0, [I.Dedent, I.Dedent, I.Token.Indent]), rev) == (Some(I.Ok(I.Token.Dedent)), I.IterState(7, [2], 0, [I.Dedent, I.Token.Indent]))
  {
    assert [I.Dedent, I.Dedent, I.Token.Indent][1..] == [I.Dedent, I.Token.Indent];
  }

  lemma TestCall7(rev: I.Revision)
    requires I.ValidRaw(TestRaw)
    ensures I.NextSpec(TestRaw, I.IterState(7, [2], 0, [I.Dedent, I.Token.Indent]), rev) == (Some(I.Ok(I.Token.Dedent)), I.IterState(7, [2], 0, [I.Token.Indent]))
  {
    assert [I.Dedent, I.Token.Indent][1..] == [I.Token.Indent];
  }

  lemma TestCall8(rev: I.Revision)
    requires I.ValidRaw(TestRaw)
    ensures I.NextSpec(TestRaw, I.IterState(7, [2], 0, [I.Token.Indent]), rev) == (Some(I.Ok(I.Token.Indent)), I.IterState(7, [2], 0, []))
  {
    assert [I.Token.Indent][1..] == [];
  }

  lemma TestCall9(rev: I.Revision)
    requires I.ValidRaw(TestRaw)
    ensures I.NextSpec(TestRaw, I.IterState(7, [2], 0, []), rev) == (Some(I.Ok(I.Token.Identifier("bar"))), I.IterState(8, [2], 0, []))
  {
    assert I.Consume(TestRaw, I.IterState(7, [2], 0, []), rev) == I.Return(Some(I.Ok(I.Token.Identifier("bar"))), I.IterState(8, [2], 0, []));
  }

  lemma TestCall10(rev: I.Revision)
    requires I.ValidRaw(TestRaw)
    ensures I.NextSpec(TestRaw, I.IterState(8, [2], 0, []), rev) == (Some(I.Ok(I.Token.Identifier("bar"))), I.IterState(12, [2], 0, []))
  {
    assert I.Consume(TestRaw, I.IterState(8, [2], 0, []), rev) == I.Continue(I.IterState(9, [2], 0, []));
    assert I.Consume(TestRaw, I.IterState(9, [2], 0, []), rev) == I.Continue(I.IterState(10, [2], 0, []));
    assert I.Consume(TestRaw, I.IterState(10, [2], 0, []), rev) == I.Continue(I.IterState(11, [2], 0, []));
    assert I.Consume(TestRaw, I.IterState(11, [2], 0, []), rev) == I.Return(Some(I.Ok(I.Token.Identifier("bar"))), I.IterState(12, [2], 0, []));
    assert I.Loop(TestRaw, I.IterState(10, [2], 0, []), rev) == I.Loop(TestRaw, I.IterState(11, [2], 0, []), rev);
    assert I.Loop(TestRaw, I.IterState(9, [2], 0, []), rev) == I.Loop(TestRaw, I.IterState(10, [2], 0, []), rev);
    assert I.Loop(TestRaw, I.IterState(8, [2], 0, []), rev) == I.Loop(TestRaw, I.IterState(9, [2], 0, []), rev);
  }

  lemma TestCall11(rev: I.Revision)
    requires I.ValidRaw(TestRaw)
    ensures I.NextSpec(TestRaw, I.IterState(12, [2], 0, []), rev) == (Some(I.Ok(I.Token.LBracket)), I.IterState(14, [2], 1, []))
  {
    assert I.Consume(TestRaw, I.IterState(12, [2], 0, []), rev) == I.Continue(I.IterState(13, [2], 0, []));
    assert I.Consume(TestRaw, I.IterState(13, [2], 0, []), rev) == I.Return(Some(I.Ok(I.Token.LBracket)), I.IterState(14, [2], 1, []));
    assert I.Loop(TestRaw, I.IterState(12, [2], 0, []), rev) == I.Loop(TestRaw, I.IterState(13, [2], 0, []), rev);
  }

  lemma TestCall12(rev: I.Revision)
    requires I.ValidRaw(TestRaw)
    ensures I.NextSpec(TestRaw, I.IterState(14, [2], 1, []), rev) == (Some(I.Ok(I.Token.Identifier("x"))), I.IterState(16, [2], 1, []))
  {
    assert I.Consume(TestRaw, I.IterState(14, [2], 1, []), rev) == I.Continue(I.IterState(15, [2], 1, []));
    assert I.Consume(TestRaw, I.IterState(15, [2], 1, []), rev) == I.Return(Some(I.Ok(I.Token.Identifier("x"))), I.IterState(16, [2], 1, []));
    assert I.Loop(TestRaw, I.IterState(14, [2], 1, []), rev) == I.Loop(TestRaw, I.IterState(15, [2], 1, []), rev);
  }

  lemma TestCall13(rev: I.Revision)
    requires I.ValidRaw(TestRaw)
    ensures I.NextSpec(TestRaw, I.IterState(16, [2], 1, []), rev) == (Some(I.Ok(I.Token.Comma)), I.IterState(17, [2], 1, []))
  {
    assert I.Consume(TestRaw, I.IterState(16, [2], 1, []), rev) == I.Return(Some(I.Ok(I.Token.Comma)), I.IterState(17, [2], 1, []));
  }

  lemma TestCall14(rev: I.Revision)
    requires I.ValidRaw(TestRaw)
    ensures I.NextSpec(TestRaw, I.IterState(17, [2], 1, []), rev) == (Some(I.Ok(I.Token.Identifier("y"))), I.IterState(19, [2], 1, []))
  {
    assert I.Consume(TestRaw, I.IterState(17, [2], 1, []), rev) == I.Continue(I.IterState(18, [2], 1, []));
    assert I.Consume(TestRaw, I.IterState(18, [2], 1, []), rev) == I.Return(Some(I.Ok(I.Token.Identifier("y"))), I.IterState(19, [2], 1, []));
    assert I.Loop(TestRaw, I.IterState(17, [2], 1, []), rev) == I.Loop(TestRaw, I.IterState(18, [2], 1, []), rev);
  }

  lemma TestCall15(rev: I.Revision)
    requires I.ValidRaw(TestRaw)
    ensures I.NextSpec(TestRaw, I.IterState(19, [2], 1, []), rev) == (Some(I.Ok(I.Token.Comma)), I.IterState(20, [2], 1, []))
  {
    assert I.Consume(TestRaw, I.IterState(19, [2], 1, []), rev) == I.Return(Some(I.Ok(I.Token.Comma)), I.IterState(20, [2], 1, []));
  }

  lemma TestCall16(rev: I.Revision)
    requires I.ValidRaw(TestRaw)
    ensures I.NextSpec(TestRaw, I.IterState(20, [2], 1, []), rev) == (Some(I.Ok(I.Token.Identifier("z"))), I.IterState(22, [2], 1, []))
  {
    assert I.Consume(TestRaw, I.IterState(20, [2], 1, []), rev) == I.Continue(I.IterState(21, [2], 1, []));
    assert I.Consume(TestRaw, I.IterState(21, [2], 1, []), rev) == I.Return(Some(I.Ok(I.Token.Identifier("z"))), I.IterState(22, [2], 1, []));
    assert I.Loop(TestRaw, I.IterState(20, [2], 1, []), rev) == I.Loop(TestRaw, I.IterState(21, [2], 1, []), rev);
  }

  lemma TestCall17(rev: I.Revision)
    requires I.ValidRaw(TestRaw)
    ensures I.NextSpec(TestRaw, I.IterState(22, [2], 1, []), rev) == (Some(I.Ok(I.Token.Comma)), I.IterState(23, [2], 1, []))
  {
    assert I.Consume(TestRaw, I.IterState(22, [2], 1, []), rev) == I.Return(Some(I.Ok(I.Token.Comma)), I.IterState(23, [2], 1, []));
  }

  lemma TestCall18(rev: I.Revision)
    requires I.ValidRaw(TestRaw)
    ensures I.NextSpec(TestRaw, I.IterState(23, [2], 1, []), rev) == (Some(I.Ok(I.Token.RBracket)), I.IterState(25, [2], 0, []))
  {
    assert I.Consume(TestRaw, I.IterState(23, [2], 1, []), rev) == I.Continue(I.IterState(24, [2], 1, []));
    assert I.Consume(TestRaw, I.IterState(24, [2], 1, []), rev) == I.Return(Some(I.Ok(I.Token.RBracket)), I.IterState(25, [2], 0, []));
    assert I.Loop(TestRaw, I.IterState(23, [2], 1, []), rev) == I.Loop(TestRaw, I.IterState(24, [2], 1, []), rev);
  }

  lemma TestCall19(rev: I.Revision)
    requires I.ValidRaw(TestRaw)
    ensures I.NextSpec(TestRaw, I.IterState(25, [2], 0, []), rev) == (Some(I.Ok(I.Token.Identifier("bar"))), I.IterState(27, [2], 0, []))
  {
    assert I.Consume(TestRaw, I.IterState(25, [2], 0, []), rev) == I.Continue(I.IterState(26, [2], 0, []));
    assert I.Consume(TestRaw, I.IterState(26, [2], 0, []), rev) == I.Return(Some(I.Ok(I.Token.Identifier("bar"))), I.IterState(27, [2], 0, []));
    assert I.Loop(TestRaw, I.IterState(25, [2], 0, []), rev) == I.Loop(TestRaw, I.IterState(26, [2], 0, []), rev);
  }

  lemma TestCall20(rev: I.Revision)
    requires I.ValidRaw(TestRaw)
    ensures I.NextSpec(TestRaw, I.IterState(27, [2], 0, []), rev) == (Some(I.Ok(I.Token.Indent)), I.IterState(28, [2, 4], 0, []))
  {
    assert I.Consume(TestRaw, I.IterState(27, [2], 0, []), rev) == I.Return(Some(I.Ok(I.Token.Indent)), I.IterState(28, [2, 4], 0, []));
  }

  lemma TestCall21(rev: I.Revision)
    requires I.ValidRaw(TestRaw)
    ensures I.NextSpec(TestRaw, I.IterState(28, [2, 4], 0, []), rev) == (Some(I.Ok(I.Token.Identifier("baz"))), I.IterState(29, [2, 4], 0, []))
  {
    assert I.Consume(TestRaw, I.IterState(28, [2, 4], 0, []), rev) == I.Return(Some(I.Ok(I.Token.Identifier("baz"))), I.IterState(29, [2, 4], 0, []));
  }

  lemma TestCall22(rev: I.Revision)
    requires I.ValidRaw(TestRaw)
    ensures I.NextSpec(TestRaw, I.IterState(29, [2, 4], 0, []), rev) == (Some(I.Ok(I.Token.Dedent)), I.IterState(29, [], 0, [I.Dedent]))
  {
    assert Repeat(I.Dedent, 1) == [I.Dedent];
    assert [] + Repeat(I.Dedent, 1) == [I.Dedent];
    assert I.AtEnd(TestRaw, I.IterState(29, [2, 4], 0, [])) == (Some(I.Ok(I.Token.Dedent)), I.IterState(29, [], 0, [I.Dedent]));
    assert I.Loop(TestRaw, I.IterState(29, [2, 4], 0, []), rev) == I.AtEnd(TestRaw, I.IterState(29, [2, 4], 0, []));
  }

  lemma TestCall23(rev: I.Revision)
    requires I.ValidRaw(TestRaw)
    ensures I.NextSpec(TestRaw, I.IterState(29, [], 0, [I.Dedent]), rev) == (Some(I.Ok(I.Token.Dedent)), I.IterState(29, [], 0, []))
  {
    assert [I.Dedent][1..] == [];
  }

  lemma TestCall24(rev: I.Revision)
    requires I.ValidRaw(TestRaw)
    ensures I.NextSpec(TestRaw, I.IterState(29, [], 0, []), rev) == (None, I.IterState(29, [], 0, []))
  {
    assert I.AtEnd(TestRaw, I.IterState(29, [], 0, [])) == (None, I.IterState(29, [], 0, []));
    assert I.Loop(TestRaw, I.IterState(29, [], 0, []), rev) == I.AtEnd(TestRaw, I.IterState(29, [], 0, []));
  }

  lemma TestCall0To5(rev: I.Revision)
    requires I.ValidRaw(TestRaw)
    ensures I.After(TestRaw, I.Initial, rev, 5) == I.IterState(6, [4, 8], 0, [])
    ensures I.Outputs(TestRaw, I.Initial, rev, 5) == [
              Some(I.Ok(I.Token.Identifier("foo"))),
              Some(I.Ok(I.Token.Indent)),
              Some(I.Ok(I.Token.Identifier("bar"))),
              Some(I.Ok(I.Token.Indent)),
              Some(I.Ok(I.Token.Identifier("baz")))]
  {
    TestCall0(rev);
    TestCall1(rev);
    TestCall2(rev);
    TestCall3(rev);
    TestCall4(rev);
    assert I.Outputs(TestRaw, I.IterState(5, [4, 8], 0, []), rev, 1) == [Some(I.Ok(I.Token.Identifier("baz")))] + I.Outputs(TestRaw, I.IterState(6, [4, 8], 0, []), rev, 0);
    assert I.After(TestRaw, I.IterState(5, [4, 8], 0, []), rev, 1) == I.After(TestRaw, I.IterState(6, [4, 8], 0, []), rev, 0);
    assert I.Outputs(TestRaw, I.IterState(4, [4], 0, []), rev, 2) == [Some(I.Ok(I.Token.Indent))] + I.Outputs(TestRaw, I.IterState(5, [4, 8], 0, []), rev, 1);
    assert I.After(TestRaw, I.IterState(4, [4], 0, []), rev, 2) == I.After(TestRaw, I.IterState(5, [4, 8], 0, []), rev, 1);
    assert I.Outputs(TestRaw, I.IterState(3, [4], 0, []), rev, 3) == [Some(I.Ok(I.Token.Identifier("bar")))] + I.Outputs(TestRaw, I.IterState(4, [4], 0, []), rev, 2);
    assert I.After(TestRaw, I.IterState(3, [4], 0, []), rev, 3) == I.After(TestRaw, I.IterState(4, [4], 0, []), rev, 2);
    assert I.Outputs(TestRaw, I.IterState(2, [], 0, []), rev, 4) == [Some(I.Ok(I.Token.Indent))] + I.Outputs(TestRaw, I.IterState(3, [4], 0, []), rev, 3);
    assert I.After(TestRaw, I.IterState(2, [], 0, []), rev, 4) == I.After(TestRaw, I.IterState(3, [4], 0, []), rev, 3);
    assert I.Outputs(TestRaw, I.Initial, rev, 5) == [Some(I.Ok(I.Token.Identifier("foo")))] + I.Outputs(TestRaw, I.IterState(2, [], 0, []), rev, 4);
    assert I.After(TestRaw, I.Initial, rev, 5) == I.After(TestRaw, I.IterState(2, [], 0, []), rev, 4);
  }

  lemma TestCall5To10(rev: I.Revision)
    requires I.ValidRaw(TestRaw)
    ensures I.After(TestRaw, I.IterState(6, [4, 8], 0, []), rev, 5) == I.IterState(8, [2], 0, [])
    ensures I.Outputs(TestRaw, I.IterState(6, [4, 8], 0, []), rev, 5) == [
              Some(I.Err(I.MisalignedIndentation(24))),
              Some(I.Ok(I.Token.Dedent)),
              Some(I.Ok(I.Token.Dedent)),
              Some(I.Ok(I.Token.Indent)),
              Some(I.Ok(I.Token.Identifier("bar")))]
  {
    TestCall5(rev);
    TestCall6(rev);
    TestCall7(rev);
    TestCall8(rev);
    TestCall9(rev);
    assert I.Outputs(TestRaw, I.IterState(7, [2], 0, []), rev, 1) == [Some(I.Ok(I.Token.Identifier("bar")))] + I.Outputs(TestRaw, I.IterState(8, [2], 0, []), rev, 0);
    assert I.After(TestRaw, I.IterState(7, [2], 0, []), rev, 1) == I.After(TestRaw, I.IterState(8, [2], 0, []), rev, 0);
    assert I.Outputs(TestRaw, I.IterState(7, [2], 0, [I.Token.Indent]), rev, 2) == [Some(I.Ok(I.Token.Indent))] + I.Outputs(TestRaw, I.IterState(7, [2], 0, []), rev, 1);
    assert I.After(TestRaw, I.IterState(7, [2], 0, [I.Token.Indent]), rev, 2) == I.After(TestRaw, I.IterState(7, [2], 0, []), rev, 1);
    assert I.Outputs(TestRaw, I.IterState(7, [2], 0, [I.Dedent, I.Token.Indent]), rev, 3) == [Some(I.Ok(I.Token.Dedent))] + I.Outputs(TestRaw, I.IterState(7, [2], 0, [I.Token.Indent]), rev, 2);
    assert I.After(TestRaw, I.IterState(7, [2], 0, [I.Dedent, I.Token.Indent]), rev, 3) == I.After(TestRaw, I.IterState(7, [2], 0, [I.Token.Indent]), rev, 2);
    assert I.Outputs(TestRaw, I.IterState(7, [2], 0, [I.Dedent, I.Dedent, I.Token.Indent]), rev, 4) == [Some(I.Ok(I.Token.Dedent))] + I.Outputs(TestRaw, I.IterState(7, [2], 0, [I.Dedent, I.Token.Indent]), rev, 3);
    assert I.After(TestRaw, I.IterState(7, [2], 0, [I.Dedent, I.Dedent, I.Token.Indent]), rev, 4) == I.After(TestRaw, I.IterState(7, [2], 0, [I.Dedent, I.Token.Indent]), rev, 3);
    assert I.Outputs(TestRaw, I.IterState(6, [4, 8], 0, []), rev, 5) == [Some(I.Err(I.MisalignedIndentation(24)))] + I.Outputs(TestRaw, I.IterState(7, [2], 0, [I.Dedent, I.Dedent, I.Token.Indent]), rev, 4);
    assert I.After(TestRaw, I.IterState(6, [4, 8], 0, []), rev, 5) == I.After(TestRaw, I.IterState(7, [2], 0, [I.Dedent, I.Dedent, I.Token.Indent]), rev, 4);
  }

  lemma TestCall10To15(rev: I.Revision)
    requires I.ValidRaw(TestRaw)
    ensures I.After(TestRaw, I.IterState(8, [2], 0, []), rev, 5) == I.IterState(19, [2], 1, [])
    ensures I.Outputs(TestRaw, I.IterState(8, [2], 0, []), rev, 5) == [
              Some(I.Ok(I.Token.Identifier("bar"))),
              Some(I.Ok(I.Token.LBracket)),
              Some(I.Ok(I.Token.Identifier("x"))),
              Some(I.Ok(I.Token.Comma)),
              Some(I.Ok(I.Token.Identifier("y")))]
  {
    TestCall10(rev);
    TestCall11(rev);
    TestCall12(rev);
    TestCall13(rev);
    TestCall14(rev);
    assert I.Outputs(TestRaw, I.IterState(17, [2], 1, []), rev, 1) == [Some(I.Ok(I.Token.Identifier("y")))] + I.Outputs(TestRaw, I.IterState(19, [2], 1, []), rev, 0);
    assert I.After(TestRaw, I.IterState(17, [2], 1, []), rev, 1) == I.After(TestRaw, I.IterState(19, [2], 1, []), rev, 0);
    assert I.Outputs(TestRaw, I.IterState(16, [2], 1, []), rev, 2) == [Some(I.Ok(I.Token.Comma))] + I.Outputs(TestRaw, I.IterState(17, [2], 1, []), rev, 1);
    assert I.After(TestRaw, I.IterState(16, [2], 1, []), rev, 2) == I.After(TestRaw, I.IterState(17, [2], 1, []), rev, 1);
    assert I.Outputs(TestRaw, I.IterState(14, [2], 1, []), rev, 3) == [Some(I.Ok(I.Token.Identifier("x")))] + I.Outputs(TestRaw, I.IterState(16, [2], 1, []), rev, 2);
    assert I.After(TestRaw, I.IterState(14, [2], 1, []), rev, 3) == I.After(TestRaw, I.IterState(16, [2], 1, []), rev, 2);
    assert I.Outputs(TestRaw, I.IterState(12, [2], 0, []), rev, 4) == [Some(I.Ok(I.Token.LBracket))] + I.Outputs(TestRaw, I.IterState(14, [2], 1, []), rev, 3);
    assert I.After(TestRaw, I.IterState(12, [2], 0, []), rev, 4) == I.After(TestRaw, I.IterState(14, [2], 1, []), rev, 3);
    assert I.Outputs(TestRaw, I.IterState(8, [2], 0, []), rev, 5) == [Some(I.Ok(I.Token.Identifier("bar")))] + I.Outputs(TestRaw, I.IterState(12, [2], 0, []), rev, 4);
    assert I.After(TestRaw, I.IterState(8, [2], 0, []), rev, 5) == I.After(TestRaw, I.IterState(12, [2], 0, []), rev, 4);
  }

  lemma TestCall15To20(rev: I.Revision)
    requires I.ValidRaw(TestRaw)
    ensures I.After(TestRaw, I.IterState(19, [2], 1, []), rev, 5) == I.IterState(27, [2], 0, [])
    ensures I.Outputs(TestRaw, I.IterState(19, [2], 1, []), rev, 5) == [
              Some(I.Ok(I.Token.Comma)),
              Some(I.Ok(I.Token.Identifier("z"))),
              Some(I.Ok(I.Token.Comma)),
              Some(I.Ok(I.Token.RBracket)),
              Some(I.Ok(I.Token.Identifier("bar")))]
  {
    TestCall15(rev);
    TestCall16(rev);
    TestCall17(rev);
    TestCall18(rev);
    TestCall19(rev);
    assert I.Outputs(TestRaw, I.IterState(25, [2], 0, []), rev, 1) == [Some(I.Ok(I.Token.Identifier("bar")))] + I.Outputs(TestRaw, I.IterState(27, [2], 0, []), rev, 0);
    assert I.After(TestRaw, I.IterState(25, [2], 0, []), rev, 1) == I.After(TestRaw, I.IterState(27, [2], 0, []), rev, 0);
    assert I.Outputs(TestRaw, I.IterState(23, [2], 1, []), rev, 2) == [Some(I.Ok(I.Token.RBracket))] + I.Outputs(TestRaw, I.IterState(25, [2], 0, []), rev, 1);
    assert I.After(TestRaw, I.IterState(23, [2], 1, []), rev, 2) == I.After(TestRaw, I.IterState(25, [2], 0, []), rev, 1);
    assert I.Outputs(TestRaw, I.IterState(22, [2], 1, []), rev, 3) == [Some(I.Ok(I.Token.Comma))] + I.Outputs(TestRaw, I.IterState(23, [2], 1, []), rev, 2);
    assert I.After(TestRaw, I.IterState(22, [2], 1, []), rev, 3) == I.After(TestRaw, I.IterState(23, [2], 1, []), rev, 2);
    assert I.Outputs(TestRaw, I.IterState(20, [2], 1, []), rev, 4) == [Some(I.Ok(I.Token.Identifier("z")))] + I.Outputs(TestRaw, I.IterState(22, [2], 1, []), rev, 3);
    assert I.After(TestRaw, I.IterState(20, [2], 1, []), rev, 4) == I.After(TestRaw, I.IterState(22, [2], 1, []), rev, 3);
    assert I.Outputs(TestRaw, I.IterState(19, [2], 1, []), rev, 5) == [Some(I.Ok(I.Token.Comma))] + I.Outputs(TestRaw, I.IterState(20, [2], 1, []), rev, 4);
    assert I.After(TestRaw, I.IterState(19, [2], 1, []), rev, 5) == I.After(TestRaw, I.IterState(20, [2], 1, []), rev, 4);
  }

  lemma TestCall20To25(rev: I.Revision)
    requires I.ValidRaw(TestRaw)
    ensures I.After(TestRaw, I.IterState(27, [2], 0, []), rev, 5) == I.IterState(29, [], 0, [])
    ensures I.Outputs(TestRaw, I.IterState(27, [2], 0, []), rev, 5) == [
              Some(I.Ok(I.Token.Indent)),
              Some(I.Ok(I.Token.Identifier("baz"))),
              Some(I.Ok(I.Token.Dedent)),
              Some(I.Ok(I.Token.Dedent)),
              None]
  {
    TestCall20(rev);
    TestCall21(rev);
    TestCall22(rev);
    TestCall23(rev);
    TestCall24(rev);
    assert I.Outputs(TestRaw, I.IterState(29, [], 0, []), rev, 1) == [None] + I.Outputs(TestRaw, I.IterState(29, [], 0, []), rev, 0);
    assert I.After(TestRaw, I.IterState(29, [], 0, []), rev, 1) == I.After(TestRaw, I.IterState(29, [], 0, []), rev, 0);
    assert I.Outputs(TestRaw, I.IterState(29, [], 0, [I.Dedent]), rev, 2) == [Some(I.Ok(I.Token.Dedent))] + I.Outputs(TestRaw, I.IterState(29, [], 0, []), rev, 1);
    assert I.After(TestRaw, I.IterState(29, [], 0, [I.Dedent]), rev, 2) == I.After(TestRaw, I.IterState(29, [], 0, []), rev, 1);
    assert I.Outputs(TestRaw, I.IterState(29, [2, 4], 0, []), rev, 3) == [Some(I.Ok(I.Token.Dedent))] + I.Outputs(TestRaw, I.IterState(29, [], 0, [I.Dedent]), rev, 2);
    assert I.After(TestRaw, I.IterState(29, [2, 4], 0, []), rev, 3) == I.After(TestRaw, I.IterState(29, [], 0, [I.Dedent]), rev, 2);
    assert I.Outputs(TestRaw, I.IterState(28, [2, 4], 0, []), rev, 4) == [Some(I.Ok(I.Token.Identifier("baz")))] + I.Outputs(TestRaw, I.IterState(29, [2, 4], 0, []), rev, 3);
    assert I.After(TestRaw, I.IterState(28, [2, 4], 0, []), rev, 4) == I.After(TestRaw, I.IterState(29, [2, 4], 0, []), rev, 3);
    assert I.Outputs(TestRaw, I.IterState(27, [2], 0, []), rev, 5) == [Some(I.Ok(I.Token.Indent))] + I.Outputs(TestRaw, I.IterState(28, [2, 4], 0, []), rev, 4);
    assert I.After(TestRaw, I.IterState(27, [2], 0, []), rev, 5) == I.After(TestRaw, I.IterState(28, [2, 4], 0, []), rev, 4);
  }
}
