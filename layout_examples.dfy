/** Concrete runs of the layout post-processor of tests/layout_rules.rs, on raw tokens
    written out by hand as the raw lexer of that file produces them: `in` is declared
    before the identifier rule, so it lexes as the keyword, and a comment is skipped,
    leaving a gap between the spans around it. Each test's run is proved call by call
    (`...CallK`), two calls at a time (`...CallKToM`), and then as a whole. */
module LayoutExamples {

  import opened Wrappers
  import R = RawStream
  import L = LayoutRules

  /** The raw tokens of the input of `test`: a `let` block on lines of its own, a deeper continuation
      line, a misaligned comment and an `in` at column 0. */
  const LayoutRaw: R.Stream<L.RawToken> := R.Stream(seq(23, i requires 0 <= i => LayoutTok(i)), None)

  function LayoutTok(i: nat): R.Spanned<L.RawToken>
  {
    if i == 0 then R.Spanned(0, L.RawToken.Indent("\n"), 1)
    else if i == 1 then R.Spanned(1, L.RawToken.Let, 4)
    else if i == 2 then R.Spanned(4, L.RawToken.Indent("\n  "), 7)
    else if i == 3 then R.Spanned(7, L.RawToken.Identifier("x"), 8)
    else if i == 4 then R.Spanned(8, L.RawToken.Whitespace(" "), 9)
    else if i == 5 then R.Spanned(9, L.RawToken.ColonEqual, 11)
    else if i == 6 then R.Spanned(11, L.RawToken.Whitespace(" "), 12)
    else if i == 7 then R.Spanned(12, L.RawToken.Identifier("x"), 13)
    else if i == 8 then R.Spanned(13, L.RawToken.Indent("\n    "), 18)
    else if i == 9 then R.Spanned(18, L.RawToken.Identifier("y"), 19)
    else if i == 10 then R.Spanned(19, L.RawToken.Whitespace(" "), 20)
    else if i == 11 then R.Spanned(20, L.RawToken.Identifier("y"), 21)
    else if i == 12 then R.Spanned(21, L.RawToken.Indent("\n "), 23)
    else if i == 13 then R.Spanned(49, L.RawToken.Indent("\n  "), 52)
    else if i == 14 then R.Spanned(52, L.RawToken.Identifier("z"), 53)
    else if i == 15 then R.Spanned(53, L.RawToken.Whitespace(" "), 54)
    else if i == 16 then R.Spanned(54, L.RawToken.ColonEqual, 56)
    else if i == 17 then R.Spanned(56, L.RawToken.Whitespace(" "), 57)
    else if i == 18 then R.Spanned(57, L.RawToken.Identifier("z"), 58)
    else if i == 19 then R.Spanned(58, L.RawToken.Indent("\n"), 59)
    else if i == 20 then R.Spanned(59, L.RawToken.In, 61)
    else if i == 21 then R.Spanned(61, L.RawToken.Whitespace(" "), 62)
    else R.Spanned(62, L.RawToken.Identifier("x"), 63)
  }

  lemma LayoutRawValid()
    ensures L.ValidRaw(LayoutRaw)
  {
    LayoutRawFrom0();
    L.ValidRawOf(LayoutRaw.toks);
  }

  lemma LayoutRawFrom0()
    ensures R.InOrderFrom(LayoutRaw.toks, 0, 0) && L.TextsNonEmpty(LayoutRaw.toks, 0)
  {
    var t := LayoutRaw.toks;
    LayoutRawFrom3();
    assert R.InOrderFrom(t, 2, 4) && L.TextsNonEmpty(t, 2);
    assert R.InOrderFrom(t, 1, 1) && L.TextsNonEmpty(t, 1);
    assert R.InOrderFrom(t, 0, 0) && L.TextsNonEmpty(t, 0);
  }

  lemma LayoutRawFrom3()
    ensures R.InOrderFrom(LayoutRaw.toks, 3, 7) && L.TextsNonEmpty(LayoutRaw.toks, 3)
  {
    var t := LayoutRaw.toks;
    LayoutRawFrom6();
    assert R.InOrderFrom(t, 5, 9) && L.TextsNonEmpty(t, 5);
    assert R.InOrderFrom(t, 4, 8) && L.TextsNonEmpty(t, 4);
    assert R.InOrderFrom(t, 3, 7) && L.TextsNonEmpty(t, 3);
  }

  lemma LayoutRawFrom6()
    ensures R.InOrderFrom(LayoutRaw.toks, 6, 11) && L.TextsNonEmpty(LayoutRaw.toks, 6)
  {
    var t := LayoutRaw.toks;
    LayoutRawFrom9();
    assert R.InOrderFrom(t, 8, 13) && L.TextsNonEmpty(t, 8);
    assert R.InOrderFrom(t, 7, 12) && L.TextsNonEmpty(t, 7);
    assert R.InOrderFrom(t, 6, 11) && L.TextsNonEmpty(t, 6);
  }

  lemma LayoutRawFrom9()
    ensures R.InOrderFrom(LayoutRaw.toks, 9, 18) && L.TextsNonEmpty(LayoutRaw.toks, 9)
  {
    var t := LayoutRaw.toks;
    LayoutRawFrom12();
    assert R.InOrderFrom(t, 11, 20) && L.TextsNonEmpty(t, 11);
    assert R.InOrderFrom(t, 10, 19) && L.TextsNonEmpty(t, 10);
    assert R.InOrderFrom(t, 9, 18) && L.TextsNonEmpty(t, 9);
  }

  lemma LayoutRawFrom12()
    ensures R.InOrderFrom(LayoutRaw.toks, 12, 21) && L.TextsNonEmpty(LayoutRaw.toks, 12)
  {
    var t := LayoutRaw.toks;
    LayoutRawFrom15();
    assert R.InOrderFrom(t, 14, 52) && L.TextsNonEmpty(t, 14);
    assert R.InOrderFrom(t, 13, 23) && L.TextsNonEmpty(t, 13);
    assert R.InOrderFrom(t, 12, 21) && L.TextsNonEmpty(t, 12);
  }

  lemma LayoutRawFrom15()
    ensures R.InOrderFrom(LayoutRaw.toks, 15, 53) && L.TextsNonEmpty(LayoutRaw.toks, 15)
  {
    var t := LayoutRaw.toks;
    LayoutRawFrom18();
    assert R.InOrderFrom(t, 17, 56) && L.TextsNonEmpty(t, 17);
    assert R.InOrderFrom(t, 16, 54) && L.TextsNonEmpty(t, 16);
    assert R.InOrderFrom(t, 15, 53) && L.TextsNonEmpty(t, 15);
  }

  lemma LayoutRawFrom18()
    ensures R.InOrderFrom(LayoutRaw.toks, 18, 57) && L.TextsNonEmpty(LayoutRaw.toks, 18)
  {
    var t := LayoutRaw.toks;
    LayoutRawFrom21();
    assert R.InOrderFrom(t, 20, 59) && L.TextsNonEmpty(t, 20);
    assert R.InOrderFrom(t, 19, 58) && L.TextsNonEmpty(t, 19);
    assert R.InOrderFrom(t, 18, 57) && L.TextsNonEmpty(t, 18);
  }

  lemma LayoutRawFrom21()
    ensures R.InOrderFrom(LayoutRaw.toks, 21, 61) && L.TextsNonEmpty(LayoutRaw.toks, 21)
  {
    var t := LayoutRaw.toks;
    assert R.InOrderFrom(t, 22, 62) && L.TextsNonEmpty(t, 22);
    assert R.InOrderFrom(t, 21, 61) && L.TextsNonEmpty(t, 21);
  }

  /** The tokens `test` (tests/layout_rules.rs:217-250) expects, then `None`. */
  lemma LayoutExpected()
    ensures L.ValidRaw(LayoutRaw)
    ensures L.Outputs(LayoutRaw, L.Initial, 15) ==
            [
              Some(L.Ok(L.Token.Let)), Some(L.Ok(L.VLBrace)), Some(L.Ok(L.Token.Identifier("x"))), Some(L.Ok(L.Token.ColonEqual)),
              Some(L.Ok(L.Token.Identifier("x"))), Some(L.Ok(L.Token.Identifier("y"))), Some(L.Ok(L.Token.Identifier("y"))), Some(L.Ok(L.VSemicolon)),
              Some(L.Ok(L.Token.Identifier("z"))), Some(L.Ok(L.Token.ColonEqual)), Some(L.Ok(L.Token.Identifier("z"))), Some(L.Ok(L.VRBrace)),
              Some(L.Ok(L.Token.In)), Some(L.Ok(L.Token.Identifier("x"))), None]
  {
    LayoutRawValid();
    LayoutRuns();
    LayoutRegroup();
  }

  lemma LayoutRegroup()
    ensures [Some(L.Ok(L.Token.Let)), Some(L.Ok(L.VLBrace))]
            + ([Some(L.Ok(L.Token.Identifier("x"))), Some(L.Ok(L.Token.ColonEqual))]
            + ([Some(L.Ok(L.Token.Identifier("x"))), Some(L.Ok(L.Token.Identifier("y")))]
            + ([Some(L.Ok(L.Token.Identifier("y"))), Some(L.Ok(L.VSemicolon))]
            + ([Some(L.Ok(L.Token.Identifier("z"))), Some(L.Ok(L.Token.ColonEqual))]
            + ([Some(L.Ok(L.Token.Identifier("z"))), Some(L.Ok(L.VRBrace))]
            + ([Some(L.Ok(L.Token.In)), Some(L.Ok(L.Token.Identifier("x")))]
            + ([None]))))))) ==
            [Some(L.Ok(L.Token.Let)), Some(L.Ok(L.VLBrace)), Some(L.Ok(L.Token.Identifier("x"))), Some(L.Ok(L.Token.ColonEqual)), Some(L.Ok(L.Token.Identifier("x"))), Some(L.Ok(L.Token.Identifier("y"))), Some(L.Ok(L.Token.Identifier("y"))), Some(L.Ok(L.VSemicolon)), Some(L.Ok(L.Token.Identifier("z"))), Some(L.Ok(L.Token.ColonEqual)), Some(L.Ok(L.Token.Identifier("z"))), Some(L.Ok(L.VRBrace)), Some(L.Ok(L.Token.In)), Some(L.Ok(L.Token.Identifier("x"))), None]
  {
  }

  /** The run, two calls at a time. */
  lemma LayoutRuns()
    requires L.ValidRaw(LayoutRaw)
    ensures L.Outputs(LayoutRaw, L.Initial, 15) ==
            [Some(L.Ok(L.Token.Let)), Some(L.Ok(L.VLBrace))]
            + ([Some(L.Ok(L.Token.Identifier("x"))), Some(L.Ok(L.Token.ColonEqual))]
            + ([Some(L.Ok(L.Token.Identifier("x"))), Some(L.Ok(L.Token.Identifier("y")))]
            + ([Some(L.Ok(L.Token.Identifier("y"))), Some(L.Ok(L.VSemicolon))]
            + ([Some(L.Ok(L.Token.Identifier("z"))), Some(L.Ok(L.Token.ColonEqual))]
            + ([Some(L.Ok(L.Token.Identifier("z"))), Some(L.Ok(L.VRBrace))]
            + ([Some(L.Ok(L.Token.In)), Some(L.Ok(L.Token.Identifier("x")))]
            + ([None])))))))
  {
    LayoutCall0To2();
    LayoutCall2To4();
    LayoutCall4To6();
    LayoutCall6To8();
    LayoutCall8To10();
    LayoutCall10To12();
    LayoutCall12To14();
    LayoutCall14To15();
    L.OutputsSplit(LayoutRaw, L.IterState(23, [], None, 4, []), 1, 0);
    L.OutputsSplit(LayoutRaw, L.IterState(21, [], None, 2, [L.Token.In]), 2, 1);
    L.OutputsSplit(LayoutRaw, L.IterState(17, [L.Layout.Let(2)], None, 6, []), 2, 3);
    L.OutputsSplit(LayoutRaw, L.IterState(14, [L.Layout.Let(2)], None, 2, []), 2, 5);
    L.OutputsSplit(LayoutRaw, L.IterState(10, [L.Layout.Let(2)], None, 5, []), 2, 7);
    L.OutputsSplit(LayoutRaw, L.IterState(6, [L.Layout.Let(2)], None, 6, []), 2, 9);
    L.OutputsSplit(LayoutRaw, L.IterState(2, [], Some(L.Layout.Let(0)), 3, []), 2, 11);
    L.OutputsSplit(LayoutRaw, L.Initial, 2, 13);
  }

  lemma LayoutCall0()
    requires L.ValidRaw(LayoutRaw)
    ensures L.NextSpec(LayoutRaw, L.Initial) == (Some(L.Ok(L.Token.Let)), L.IterState(2, [], Some(L.Layout.Let(0)), 3, [L.VLBrace]))
  {
    assert LayoutRaw.toks[0] == R.Spanned(0, L.RawToken.Indent("\n"), 1);
    assert L.Advance(L.Initial, R.Spanned(0, L.RawToken.Indent("\n"), 1)) == L.IterState(1, [], None, 1, []);
    assert L.OnIndentStep(LayoutRaw, 0, L.IterState(1, [], None, 1, [])) == L.Continue(L.IterState(1, [], None, 0, []));
    assert L.Consume(LayoutRaw, L.Initial) == L.Continue(L.IterState(1, [], None, 0, []));
    assert L.Consume(LayoutRaw, L.IterState(1, [], None, 0, [])) == L.Return(Some(L.Ok(L.Token.Let)), L.IterState(2, [], Some(L.Layout.Let(0)), 3, [L.VLBrace]));
    assert L.Loop(LayoutRaw, L.Initial) == L.Loop(LayoutRaw, L.IterState(1, [], None, 0, []));
  }

  lemma LayoutCall1()
    requires L.ValidRaw(LayoutRaw)
    ensures L.NextSpec(LayoutRaw, L.IterState(2, [], Some(L.Layout.Let(0)), 3, [L.VLBrace])) == (Some(L.Ok(L.VLBrace)), L.IterState(2, [], Some(L.Layout.Let(0)), 3, []))
  {
    assert [L.VLBrace][1..] == [];
  }

  lemma LayoutCall2()
    requires L.ValidRaw(LayoutRaw)
    ensures L.NextSpec(LayoutRaw, L.IterState(2, [], Some(L.Layout.Let(0)), 3, [])) == (Some(L.Ok(L.Token.Identifier("x"))), L.IterState(4, [L.Layout.Let(2)], None, 3, []))
  {
    assert LayoutRaw.toks[2] == R.Spanned(4, L.RawToken.Indent("\n  "), 7);
    assert L.Advance(L.IterState(2, [], Some(L.Layout.Let(0)), 3, []), R.Spanned(4, L.RawToken.Indent("\n  "), 7)) == L.IterState(3, [], Some(L.Layout.Let(0)), 6, []);
    assert L.OnIndentStep(LayoutRaw, 2, L.IterState(3, [], Some(L.Layout.Let(0)), 6, [])) == L.Continue(L.IterState(3, [], Some(L.Layout.Let(0)), 2, []));
    assert L.Consume(LayoutRaw, L.IterState(2, [], Some(L.Layout.Let(0)), 3, [])) == L.Continue(L.IterState(3, [], Some(L.Layout.Let(0)), 2, []));
    assert L.Consume(LayoutRaw, L.IterState(3, [], Some(L.Layout.Let(0)), 2, [])) == L.Return(Some(L.Ok(L.Token.Identifier("x"))), L.IterState(4, [L.Layout.Let(2)], None, 3, []));
    assert L.Loop(LayoutRaw, L.IterState(2, [], Some(L.Layout.Let(0)), 3, [])) == L.Loop(LayoutRaw, L.IterState(3, [], Some(L.Layout.Let(0)), 2, []));
  }

  lemma LayoutCall3()
    requires L.ValidRaw(LayoutRaw)
    ensures L.NextSpec(LayoutRaw, L.IterState(4, [L.Layout.Let(2)], None, 3, [])) == (Some(L.Ok(L.Token.ColonEqual)), L.IterState(6, [L.Layout.Let(2)], None, 6, []))
  {
    assert L.Consume(LayoutRaw, L.IterState(4, [L.Layout.Let(2)], None, 3, [])) == L.Continue(L.IterState(5, [L.Layout.Let(2)], None, 4, []));
    assert L.Consume(LayoutRaw, L.IterState(5, [L.Layout.Let(2)], None, 4, [])) == L.Return(Some(L.Ok(L.Token.ColonEqual)), L.IterState(6, [L.Layout.Let(2)], None, 6, []));
    assert L.Loop(LayoutRaw, L.IterState(4, [L.Layout.Let(2)], None, 3, [])) == L.Loop(LayoutRaw, L.IterState(5, [L.Layout.Let(2)], None, 4, []));
  }

  lemma LayoutCall4()
    requires L.ValidRaw(LayoutRaw)
    ensures L.NextSpec(LayoutRaw, L.IterState(6, [L.Layout.Let(2)], None, 6, [])) == (Some(L.Ok(L.Token.Identifier("x"))), L.IterState(8, [L.Layout.Let(2)], None, 8, []))
  {
    assert L.Consume(LayoutRaw, L.IterState(6, [L.Layout.Let(2)], None, 6, [])) == L.Continue(L.IterState(7, [L.Layout.Let(2)], None, 7, []));
    assert L.Consume(LayoutRaw, L.IterState(7, [L.Layout.Let(2)], None, 7, [])) == L.Return(Some(L.Ok(L.Token.Identifier("x"))), L.IterState(8, [L.Layout.Let(2)], None, 8, []));
    assert L.Loop(LayoutRaw, L.IterState(6, [L.Layout.Let(2)], None, 6, [])) == L.Loop(LayoutRaw, L.IterState(7, [L.Layout.Let(2)], None, 7, []));
  }

  lemma LayoutCall5()
    requires L.ValidRaw(LayoutRaw)
    ensures L.NextSpec(LayoutRaw, L.IterState(8, [L.Layout.Let(2)], None, 8, [])) == (Some(L.Ok(L.Token.Identifier("y"))), L.IterState(10, [L.Layout.Let(2)], None, 5, []))
  {
    assert LayoutRaw.toks[8] == R.Spanned(13, L.RawToken.Indent("\n    "), 18);
    assert L.Advance(L.IterState(8, [L.Layout.Let(2)], None, 8, []), R.Spanned(13, L.RawToken.Indent("\n    "), 18)) == L.IterState(9, [L.Layout.Let(2)], None, 13, []);
    assert L.OnIndentStep(LayoutRaw, 4, L.IterState(9, [L.Layout.Let(2)], None, 13, [])) == L.Continue(L.IterState(9, [L.Layout.Let(2)], None, 4, []));
    assert L.Consume(LayoutRaw, L.IterState(8, [L.Layout.Let(2)], None, 8, [])) == L.Continue(L.IterState(9, [L.Layout.Let(2)], None, 4, []));
    assert L.Consume(LayoutRaw, L.IterState(9, [L.Layout.Let(2)], None, 4, [])) == L.Return(Some(L.Ok(L.Token.Identifier("y"))), L.IterState(10, [L.Layout.Let(2)], None, 5, []));
    assert L.Loop(LayoutRaw, L.IterState(8, [L.Layout.Let(2)], None, 8, [])) == L.Loop(LayoutRaw, L.IterState(9, [L.Layout.Let(2)], None, 4, []));
  }

  lemma LayoutCall6()
    requires L.ValidRaw(LayoutRaw)
    ensures L.NextSpec(LayoutRaw, L.IterState(10, [L.Layout.Let(2)], None, 5, [])) == (Some(L.Ok(L.Token.Identifier("y"))), L.IterState(12, [L.Layout.Let(2)], None, 7, []))
  {
    assert L.Consume(LayoutRaw, L.IterState(10, [L.Layout.Let(2)], None, 5, [])) == L.Continue(L.IterState(11, [L.Layout.Let(2)], None, 6, []));
    assert L.Consume(LayoutRaw, L.IterState(11, [L.Layout.Let(2)], None, 6, [])) == L.Return(Some(L.Ok(L.Token.Identifier("y"))), L.IterState(12, [L.Layout.Let(2)], None, 7, []));
    assert L.Loop(LayoutRaw, L.IterState(10, [L.Layout.Let(2)], None, 5, [])) == L.Loop(LayoutRaw, L.IterState(11, [L.Layout.Let(2)], None, 6, []));
  }

  lemma LayoutCall7()
    requires L.ValidRaw(LayoutRaw)
    ensures L.NextSpec(LayoutRaw, L.IterState(12, [L.Layout.Let(2)], None, 7, [])) == (Some(L.Ok(L.VSemicolon)), L.IterState(14, [L.Layout.Let(2)], None, 2, []))
  {
    assert LayoutRaw.toks[12] == R.Spanned(21, L.RawToken.Indent("\n "), 23);
    assert L.Advance(L.IterState(12, [L.Layout.Let(2)], None, 7, []), R.Spanned(21, L.RawToken.Indent("\n "), 23)) == L.IterState(13, [L.Layout.Let(2)], None, 9, []);
    assert L.OnIndentStep(LayoutRaw, 1, L.IterState(13, [L.Layout.Let(2)], None, 9, [])) == L.Continue(L.IterState(13, [L.Layout.Let(2)], None, 1, []));
    assert L.Consume(LayoutRaw, L.IterState(12, [L.Layout.Let(2)], None, 7, [])) == L.Continue(L.IterState(13, [L.Layout.Let(2)], None, 1, []));
    assert LayoutRaw.toks[13] == R.Spanned(49, L.RawToken.Indent("\n  "), 52);
    assert L.Advance(L.IterState(13, [L.Layout.Let(2)], None, 1, []), R.Spanned(49, L.RawToken.Indent("\n  "), 52)) == L.IterState(14, [L.Layout.Let(2)], None, 4, []);
    assert L.OnIndentStep(LayoutRaw, 2, L.IterState(14, [L.Layout.Let(2)], None, 4, [])) == L.Return(Some(L.Ok(L.VSemicolon)), L.IterState(14, [L.Layout.Let(2)], None, 2, []));
    assert L.Consume(LayoutRaw, L.IterState(13, [L.Layout.Let(2)], None, 1, [])) == L.Return(Some(L.Ok(L.VSemicolon)), L.IterState(14, [L.Layout.Let(2)], None, 2, []));
    assert L.Loop(LayoutRaw, L.IterState(12, [L.Layout.Let(2)], None, 7, [])) == L.Loop(LayoutRaw, L.IterState(13, [L.Layout.Let(2)], None, 1, []));
  }

  lemma LayoutCall8()
    requires L.ValidRaw(LayoutRaw)
    ensures L.NextSpec(LayoutRaw, L.IterState(14, [L.Layout.Let(2)], None, 2, [])) == (Some(L.Ok(L.Token.Identifier("z"))), L.IterState(15, [L.Layout.Let(2)], None, 3, []))
  {
    assert L.Consume(LayoutRaw, L.IterState(14, [L.Layout.Let(2)], None, 2, [])) == L.Return(Some(L.Ok(L.Token.Identifier("z"))), L.IterState(15, [L.Layout.Let(2)], None, 3, []));
  }

  lemma LayoutCall9()
    requires L.ValidRaw(LayoutRaw)
    ensures L.NextSpec(LayoutRaw, L.IterState(15, [L.Layout.Let(2)], None, 3, [])) == (Some(L.Ok(L.Token.ColonEqual)), L.IterState(17, [L.Layout.Let(2)], None, 6, []))
  {
    assert L.Consume(LayoutRaw, L.IterState(15, [L.Layout.Let(2)], None, 3, [])) == L.Continue(L.IterState(16, [L.Layout.Let(2)], None, 4, []));
    assert L.Consume(LayoutRaw, L.IterState(16, [L.Layout.Let(2)], None, 4, [])) == L.Return(Some(L.Ok(L.Token.ColonEqual)), L.IterState(17, [L.Layout.Let(2)], None, 6, []));
    assert L.Loop(LayoutRaw, L.IterState(15, [L.Layout.Let(2)], None, 3, [])) == L.Loop(LayoutRaw, L.IterState(16, [L.Layout.Let(2)], None, 4, []));
  }

  lemma LayoutCall10()
    requires L.ValidRaw(LayoutRaw)
    ensures L.NextSpec(LayoutRaw, L.IterState(17, [L.Layout.Let(2)], None, 6, [])) == (Some(L.Ok(L.Token.Identifier("z"))), L.IterState(19, [L.Layout.Let(2)], None, 8, []))
  {
    assert L.Consume(LayoutRaw, L.IterState(17, [L.Layout.Let(2)], None, 6, [])) == L.Continue(L.IterState(18, [L.Layout.Let(2)], None, 7, []));
    assert L.Consume(LayoutRaw, L.IterState(18, [L.Layout.Let(2)], None, 7, [])) == L.Return(Some(L.Ok(L.Token.Identifier("z"))), L.IterState(19, [L.Layout.Let(2)], None, 8, []));
    assert L.Loop(LayoutRaw, L.IterState(17, [L.Layout.Let(2)], None, 6, [])) == L.Loop(LayoutRaw, L.IterState(18, [L.Layout.Let(2)], None, 7, []));
  }

  lemma LayoutCall11()
    requires L.ValidRaw(LayoutRaw)
    ensures L.NextSpec(LayoutRaw, L.IterState(19, [L.Layout.Let(2)], None, 8, [])) == (Some(L.Ok(L.VRBrace)), L.IterState(21, [], None, 2, [L.Token.In]))
  {
    assert LayoutRaw.toks[19] == R.Spanned(58, L.RawToken.Indent("\n"), 59);
    assert L.Advance(L.IterState(19, [L.Layout.Let(2)], None, 8, []), R.Spanned(58, L.RawToken.Indent("\n"), 59)) == L.IterState(20, [L.Layout.Let(2)], None, 9, []);
    assert L.OnIndentStep(LayoutRaw, 0, L.IterState(20, [L.Layout.Let(2)], None, 9, [])) == L.Continue(L.IterState(20, [L.Layout.Let(2)], None, 0, []));
    assert L.Consume(LayoutRaw, L.IterState(19, [L.Layout.Let(2)], None, 8, [])) == L.Continue(L.IterState(20, [L.Layout.Let(2)], None, 0, []));
    assert LayoutRaw.toks[20] == R.Spanned(59, L.RawToken.In, 61);
    assert L.Advance(L.IterState(20, [L.Layout.Let(2)], None, 0, []), R.Spanned(59, L.RawToken.In, 61)) == L.IterState(21, [L.Layout.Let(2)], None, 2, []);
    assert L.CloseStep(L.IterState(21, [L.Layout.Let(2)], None, 2, []), false) == L.Return(Some(L.Ok(L.VRBrace)), L.IterState(21, [], None, 2, [L.Token.In]));
    assert L.Consume(LayoutRaw, L.IterState(20, [L.Layout.Let(2)], None, 0, [])) == L.Return(Some(L.Ok(L.VRBrace)), L.IterState(21, [], None, 2, [L.Token.In]));
    assert L.Loop(LayoutRaw, L.IterState(19, [L.Layout.Let(2)], None, 8, [])) == L.Loop(LayoutRaw, L.IterState(20, [L.Layout.Let(2)], None, 0, []));
  }

  lemma LayoutCall12()
    requires L.ValidRaw(LayoutRaw)
    ensures L.NextSpec(LayoutRaw, L.IterState(21, [], None, 2, [L.Token.In])) == (Some(L.Ok(L.Token.In)), L.IterState(21, [], None, 2, []))
  {
    assert [L.Token.In][1..] == [];
  }

  lemma LayoutCall13()
    requires L.ValidRaw(LayoutRaw)
    ensures L.NextSpec(LayoutRaw, L.IterState(21, [], None, 2, [])) == (Some(L.Ok(L.Token.Identifier("x"))), L.IterState(23, [], None, 4, []))
  {
    assert L.Consume(LayoutRaw, L.IterState(21, [], None, 2, [])) == L.Continue(L.IterState(22, [], None, 3, []));
    assert L.Consume(LayoutRaw, L.IterState(22, [], None, 3, [])) == L.Return(Some(L.Ok(L.Token.Identifier("x"))), L.IterState(23, [], None, 4, []));
    assert L.Loop(LayoutRaw, L.IterState(21, [], None, 2, [])) == L.Loop(LayoutRaw, L.IterState(22, [], None, 3, []));
  }

  lemma LayoutCall14()
    requires L.ValidRaw(LayoutRaw)
    ensures L.NextSpec(LayoutRaw, L.IterState(23, [], None, 4, [])) == (None, L.IterState(23, [], None, 4, []))
  {
    assert L.AtEnd(LayoutRaw, L.IterState(23, [], None, 4, [])) == (None, L.IterState(23, [], None, 4, []));
    assert L.Loop(LayoutRaw, L.IterState(23, [], None, 4, [])) == L.AtEnd(LayoutRaw, L.IterState(23, [], None, 4, []));
  }

  lemma LayoutCall0To2()
    requires L.ValidRaw(LayoutRaw)
    ensures L.After(LayoutRaw, L.Initial, 2) == L.IterState(2, [], Some(L.Layout.Let(0)), 3, [])
    ensures L.Outputs(LayoutRaw, L.Initial, 2) == [Some(L.Ok(L.Token.Let)), Some(L.Ok(L.VLBrace))]
  {
    assert L.Outputs(LayoutRaw, L.IterState(2, [], Some(L.Layout.Let(0)), 3, [L.VLBrace]), 1) == [Some(L.Ok(L.VLBrace))] + L.Outputs(LayoutRaw, L.IterState(2, [], Some(L.Layout.Let(0)), 3, []), 0) &&
           L.After(LayoutRaw, L.IterState(2, [], Some(L.Layout.Let(0)), 3, [L.VLBrace]), 1) == L.After(LayoutRaw, L.IterState(2, [], Some(L.Layout.Let(0)), 3, []), 0) by {
      LayoutCall1();
      L.OutputsStep(LayoutRaw, L.IterState(2, [], Some(L.Layout.Let(0)), 3, [L.VLBrace]), 1, Some(L.Ok(L.VLBrace)), L.IterState(2, [], Some(L.Layout.Let(0)), 3, []));
    }
    assert L.Outputs(LayoutRaw, L.Initial, 2) == [Some(L.Ok(L.Token.Let))] + L.Outputs(LayoutRaw, L.IterState(2, [], Some(L.Layout.Let(0)), 3, [L.VLBrace]), 1) &&
           L.After(LayoutRaw, L.Initial, 2) == L.After(LayoutRaw, L.IterState(2, [], Some(L.Layout.Let(0)), 3, [L.VLBrace]), 1) by {
      LayoutCall0();
      L.OutputsStep(LayoutRaw, L.Initial, 2, Some(L.Ok(L.Token.Let)), L.IterState(2, [], Some(L.Layout.Let(0)), 3, [L.VLBrace]));
    }
  }

  lemma LayoutCall2To4()
    requires L.ValidRaw(LayoutRaw)
    ensures L.After(LayoutRaw, L.IterState(2, [], Some(L.Layout.Let(0)), 3, []), 2) == L.IterState(6, [L.Layout.Let(2)], None, 6, [])
    ensures L.Outputs(LayoutRaw, L.IterState(2, [], Some(L.Layout.Let(0)), 3, []), 2) == [Some(L.Ok(L.Token.Identifier("x"))), Some(L.Ok(L.Token.ColonEqual))]
  {
    assert L.Outputs(LayoutRaw, L.IterState(4, [L.Layout.Let(2)], None, 3, []), 1) == [Some(L.Ok(L.Token.ColonEqual))] + L.Outputs(LayoutRaw, L.IterState(6, [L.Layout.Let(2)], None, 6, []), 0) &&
           L.After(LayoutRaw, L.IterState(4, [L.Layout.Let(2)], None, 3, []), 1) == L.After(LayoutRaw, L.IterState(6, [L.Layout.Let(2)], None, 6, []), 0) by {
      LayoutCall3();
      L.OutputsStep(LayoutRaw, L.IterState(4, [L.Layout.Let(2)], None, 3, []), 1, Some(L.Ok(L.Token.ColonEqual)), L.IterState(6, [L.Layout.Let(2)], None, 6, []));
    }
    assert L.Outputs(LayoutRaw, L.IterState(2, [], Some(L.Layout.Let(0)), 3, []), 2) == [Some(L.Ok(L.Token.Identifier("x")))] + L.Outputs(LayoutRaw, L.IterState(4, [L.Layout.Let(2)], None, 3, []), 1) &&
           L.After(LayoutRaw, L.IterState(2, [], Some(L.Layout.Let(0)), 3, []), 2) == L.After(LayoutRaw, L.IterState(4, [L.Layout.Let(2)], None, 3, []), 1) by {
      LayoutCall2();
      L.OutputsStep(LayoutRaw, L.IterState(2, [], Some(L.Layout.Let(0)), 3, []), 2, Some(L.Ok(L.Token.Identifier("x"))), L.IterState(4, [L.Layout.Let(2)], None, 3, []));
    }
  }

  lemma LayoutCall4To6()
    requires L.ValidRaw(LayoutRaw)
    ensures L.After(LayoutRaw, L.IterState(6, [L.Layout.Let(2)], None, 6, []), 2) == L.IterState(10, [L.Layout.Let(2)], None, 5, [])
    ensures L.Outputs(LayoutRaw, L.IterState(6, [L.Layout.Let(2)], None, 6, []), 2) == [Some(L.Ok(L.Token.Identifier("x"))), Some(L.Ok(L.Token.Identifier("y")))]
  {
    assert L.Outputs(LayoutRaw, L.IterState(8, [L.Layout.Let(2)], None, 8, []), 1) == [Some(L.Ok(L.Token.Identifier("y")))] + L.Outputs(LayoutRaw, L.IterState(10, [L.Layout.Let(2)], None, 5, []), 0) &&
           L.After(LayoutRaw, L.IterState(8, [L.Layout.Let(2)], None, 8, []), 1) == L.After(LayoutRaw, L.IterState(10, [L.Layout.Let(2)], None, 5, []), 0) by {
      LayoutCall5();
      L.OutputsStep(LayoutRaw, L.IterState(8, [L.Layout.Let(2)], None, 8, []), 1, Some(L.Ok(L.Token.Identifier("y"))), L.IterState(10, [L.Layout.Let(2)], None, 5, []));
    }
    assert L.Outputs(LayoutRaw, L.IterState(6, [L.Layout.Let(2)], None, 6, []), 2) == [Some(L.Ok(L.Token.Identifier("x")))] + L.Outputs(LayoutRaw, L.IterState(8, [L.Layout.Let(2)], None, 8, []), 1) &&
           L.After(LayoutRaw, L.IterState(6, [L.Layout.Let(2)], None, 6, []), 2) == L.After(LayoutRaw, L.IterState(8, [L.Layout.Let(2)], None, 8, []), 1) by {
      LayoutCall4();
      L.OutputsStep(LayoutRaw, L.IterState(6, [L.Layout.Let(2)], None, 6, []), 2, Some(L.Ok(L.Token.Identifier("x"))), L.IterState(8, [L.Layout.Let(2)], None, 8, []));
    }
  }

  lemma LayoutCall6To8()
    requires L.ValidRaw(LayoutRaw)
    ensures L.After(LayoutRaw, L.IterState(10, [L.Layout.Let(2)], None, 5, []), 2) == L.IterState(14, [L.Layout.Let(2)], None, 2, [])
    ensures L.Outputs(LayoutRaw, L.IterState(10, [L.Layout.Let(2)], None, 5, []), 2) == [Some(L.Ok(L.Token.Identifier("y"))), Some(L.Ok(L.VSemicolon))]
  {
    assert L.Outputs(LayoutRaw, L.IterState(12, [L.Layout.Let(2)], None, 7, []), 1) == [Some(L.Ok(L.VSemicolon))] + L.Outputs(LayoutRaw, L.IterState(14, [L.Layout.Let(2)], None, 2, []), 0) &&
           L.After(LayoutRaw, L.IterState(12, [L.Layout.Let(2)], None, 7, []), 1) == L.After(LayoutRaw, L.IterState(14, [L.Layout.Let(2)], None, 2, []), 0) by {
      LayoutCall7();
      L.OutputsStep(LayoutRaw, L.IterState(12, [L.Layout.Let(2)], None, 7, []), 1, Some(L.Ok(L.VSemicolon)), L.IterState(14, [L.Layout.Let(2)], None, 2, []));
    }
    assert L.Outputs(LayoutRaw, L.IterState(10, [L.Layout.Let(2)], None, 5, []), 2) == [Some(L.Ok(L.Token.Identifier("y")))] + L.Outputs(LayoutRaw, L.IterState(12, [L.Layout.Let(2)], None, 7, []), 1) &&
           L.After(LayoutRaw, L.IterState(10, [L.Layout.Let(2)], None, 5, []), 2) == L.After(LayoutRaw, L.IterState(12, [L.Layout.Let(2)], None, 7, []), 1) by {
      LayoutCall6();
      L.OutputsStep(LayoutRaw, L.IterState(10, [L.Layout.Let(2)], None, 5, []), 2, Some(L.Ok(L.Token.Identifier("y"))), L.IterState(12, [L.Layout.Let(2)], None, 7, []));
    }
  }

  lemma LayoutCall8To10()
    requires L.ValidRaw(LayoutRaw)
    ensures L.After(LayoutRaw, L.IterState(14, [L.Layout.Let(2)], None, 2, []), 2) == L.IterState(17, [L.Layout.Let(2)], None, 6, [])
    ensures L.Outputs(LayoutRaw, L.IterState(14, [L.Layout.Let(2)], None, 2, []), 2) == [Some(L.Ok(L.Token.Identifier("z"))), Some(L.Ok(L.Token.ColonEqual))]
  {
    assert L.Outputs(LayoutRaw, L.IterState(15, [L.Layout.Let(2)], None, 3, []), 1) == [Some(L.Ok(L.Token.ColonEqual))] + L.Outputs(LayoutRaw, L.IterState(17, [L.Layout.Let(2)], None, 6, []), 0) &&
           L.After(LayoutRaw, L.IterState(15, [L.Layout.Let(2)], None, 3, []), 1) == L.After(LayoutRaw, L.IterState(17, [L.Layout.Let(2)], None, 6, []), 0) by {
      LayoutCall9();
      L.OutputsStep(LayoutRaw, L.IterState(15, [L.Layout.Let(2)], None, 3, []), 1, Some(L.Ok(L.Token.ColonEqual)), L.IterState(17, [L.Layout.Let(2)], None, 6, []));
    }
    assert L.Outputs(LayoutRaw, L.IterState(14, [L.Layout.Let(2)], None, 2, []), 2) == [Some(L.Ok(L.Token.Identifier("z")))] + L.Outputs(LayoutRaw, L.IterState(15, [L.Layout.Let(2)], None, 3, []), 1) &&
           L.After(LayoutRaw, L.IterState(14, [L.Layout.Let(2)], None, 2, []), 2) == L.After(LayoutRaw, L.IterState(15, [L.Layout.Let(2)], None, 3, []), 1) by {
      LayoutCall8();
      L.OutputsStep(LayoutRaw, L.IterState(14, [L.Layout.Let(2)], None, 2, []), 2, Some(L.Ok(L.Token.Identifier("z"))), L.IterState(15, [L.Layout.Let(2)], None, 3, []));
    }
  }

  lemma LayoutCall10To12()
    requires L.ValidRaw(LayoutRaw)
    ensures L.After(LayoutRaw, L.IterState(17, [L.Layout.Let(2)], None, 6, []), 2) == L.IterState(21, [], None, 2, [L.Token.In])
    ensures L.Outputs(LayoutRaw, L.IterState(17, [L.Layout.Let(2)], None, 6, []), 2) == [Some(L.Ok(L.Token.Identifier("z"))), Some(L.Ok(L.VRBrace))]
  {
    assert L.Outputs(LayoutRaw, L.IterState(19, [L.Layout.Let(2)], None, 8, []), 1) == [Some(L.Ok(L.VRBrace))] + L.Outputs(LayoutRaw, L.IterState(21, [], None, 2, [L.Token.In]), 0) &&
           L.After(LayoutRaw, L.IterState(19, [L.Layout.Let(2)], None, 8, []), 1) == L.After(LayoutRaw, L.IterState(21, [], None, 2, [L.Token.In]), 0) by {
      LayoutCall11();
      L.OutputsStep(LayoutRaw, L.IterState(19, [L.Layout.Let(2)], None, 8, []), 1, Some(L.Ok(L.VRBrace)), L.IterState(21, [], None, 2, [L.Token.In]));
    }
    assert L.Outputs(LayoutRaw, L.IterState(17, [L.Layout.Let(2)], None, 6, []), 2) == [Some(L.Ok(L.Token.Identifier("z")))] + L.Outputs(LayoutRaw, L.IterState(19, [L.Layout.Let(2)], None, 8, []), 1) &&
           L.After(LayoutRaw, L.IterState(17, [L.Layout.Let(2)], None, 6, []), 2) == L.After(LayoutRaw, L.IterState(19, [L.Layout.Let(2)], None, 8, []), 1) by {
      LayoutCall10();
      L.OutputsStep(LayoutRaw, L.IterState(17, [L.Layout.Let(2)], None, 6, []), 2, Some(L.Ok(L.Token.Identifier("z"))), L.IterState(19, [L.Layout.Let(2)], None, 8, []));
    }
  }

  lemma LayoutCall12To14()
    requires L.ValidRaw(LayoutRaw)
    ensures L.After(LayoutRaw, L.IterState(21, [], None, 2, [L.Token.In]), 2) == L.IterState(23, [], None, 4, [])
    ensures L.Outputs(LayoutRaw, L.IterState(21, [], None, 2, [L.Token.In]), 2) == [Some(L.Ok(L.Token.In)), Some(L.Ok(L.Token.Identifier("x")))]
  {
    assert L.Outputs(LayoutRaw, L.IterState(21, [], None, 2, []), 1) == [Some(L.Ok(L.Token.Identifier("x")))] + L.Outputs(LayoutRaw, L.IterState(23, [], None, 4, []), 0) &&
           L.After(LayoutRaw, L.IterState(21, [], None, 2, []), 1) == L.After(LayoutRaw, L.IterState(23, [], None, 4, []), 0) by {
      LayoutCall13();
      L.OutputsStep(LayoutRaw, L.IterState(21, [], None, 2, []), 1, Some(L.Ok(L.Token.Identifier("x"))), L.IterState(23, [], None, 4, []));
    }
    assert L.Outputs(LayoutRaw, L.IterState(21, [], None, 2, [L.Token.In]), 2) == [Some(L.Ok(L.Token.In))] + L.Outputs(LayoutRaw, L.IterState(21, [], None, 2, []), 1) &&
           L.After(LayoutRaw, L.IterState(21, [], None, 2, [L.Token.In]), 2) == L.After(LayoutRaw, L.IterState(21, [], None, 2, []), 1) by {
      LayoutCall12();
      L.OutputsStep(LayoutRaw, L.IterState(21, [], None, 2, [L.Token.In]), 2, Some(L.Ok(L.Token.In)), L.IterState(21, [], None, 2, []));
    }
  }

  lemma LayoutCall14To15()
    requires L.ValidRaw(LayoutRaw)
    ensures L.After(LayoutRaw, L.IterState(23, [], None, 4, []), 1) == L.IterState(23, [], None, 4, [])
    ensures L.Outputs(LayoutRaw, L.IterState(23, [], None, 4, []), 1) == [None]
  {
    assert L.Outputs(LayoutRaw, L.IterState(23, [], None, 4, []), 1) == [None] + L.Outputs(LayoutRaw, L.IterState(23, [], None, 4, []), 0) &&
           L.After(LayoutRaw, L.IterState(23, [], None, 4, []), 1) == L.After(LayoutRaw, L.IterState(23, [], None, 4, []), 0) by {
      LayoutCall14();
      L.OutputsStep(LayoutRaw, L.IterState(23, [], None, 4, []), 1, None, L.IterState(23, [], None, 4, []));
    }
  }

  /** The raw tokens of the input of `test1`: the first binding on the line of the `let`. */
  const SameColumnRaw: R.Stream<L.RawToken> := R.Stream(seq(23, i requires 0 <= i => SameColumnTok(i)), None)

  function SameColumnTok(i: nat): R.Spanned<L.RawToken>
  {
    if i == 0 then R.Spanned(0, L.RawToken.Indent("\n"), 1)
    else if i == 1 then R.Spanned(1, L.RawToken.Let, 4)
    else if i == 2 then R.Spanned(4, L.RawToken.Whitespace("   "), 7)
    else if i == 3 then R.Spanned(7, L.RawToken.Identifier("x"), 8)
    else if i == 4 then R.Spanned(8, L.RawToken.Whitespace(" "), 9)
    else if i == 5 then R.Spanned(9, L.RawToken.ColonEqual, 11)
    else if i == 6 then R.Spanned(11, L.RawToken.Whitespace(" "), 12)
    else if i == 7 then R.Spanned(12, L.RawToken.Identifier("x"), 13)
    else if i == 8 then R.Spanned(13, L.RawToken.Indent("\n          "), 24)
    else if i == 9 then R.Spanned(24, L.RawToken.Identifier("y"), 25)
    else if i == 10 then R.Spanned(25, L.RawToken.Whitespace(" "), 26)
    else if i == 11 then R.Spanned(26, L.RawToken.Identifier("y"), 27)
    else if i == 12 then R.Spanned(27, L.RawToken.Indent("\n   "), 31)
    else if i == 13 then R.Spanned(57, L.RawToken.Indent("\n      "), 64)
    else if i == 14 then R.Spanned(64, L.RawToken.Identifier("z"), 65)
    else if i == 15 then R.Spanned(65, L.RawToken.Whitespace(" "), 66)
    else if i == 16 then R.Spanned(66, L.RawToken.ColonEqual, 68)
    else if i == 17 then R.Spanned(68, L.RawToken.Whitespace(" "), 69)
    else if i == 18 then R.Spanned(69, L.RawToken.Identifier("z"), 70)
    else if i == 19 then R.Spanned(70, L.RawToken.Indent("\n"), 71)
    else if i == 20 then R.Spanned(71, L.RawToken.In, 73)
    else if i == 21 then R.Spanned(73, L.RawToken.Whitespace(" "), 74)
    else R.Spanned(74, L.RawToken.Identifier("x"), 75)
  }

  lemma SameColumnRawValid()
    ensures L.ValidRaw(SameColumnRaw)
  {
    SameColumnRawFrom0();
    L.ValidRawOf(SameColumnRaw.toks);
  }

  lemma SameColumnRawFrom0()
    ensures R.InOrderFrom(SameColumnRaw.toks, 0, 0) && L.TextsNonEmpty(SameColumnRaw.toks, 0)
  {
    var t := SameColumnRaw.toks;
    SameColumnRawFrom3();
    assert R.InOrderFrom(t, 2, 4) && L.TextsNonEmpty(t, 2);
    assert R.InOrderFrom(t, 1, 1) && L.TextsNonEmpty(t, 1);
    assert R.InOrderFrom(t, 0, 0) && L.TextsNonEmpty(t, 0);
  }

  lemma SameColumnRawFrom3()
    ensures R.InOrderFrom(SameColumnRaw.toks, 3, 7) && L.TextsNonEmpty(SameColumnRaw.toks, 3)
  {
    var t := SameColumnRaw.toks;
    SameColumnRawFrom6();
    assert R.InOrderFrom(t, 5, 9) && L.TextsNonEmpty(t, 5);
    assert R.InOrderFrom(t, 4, 8) && L.TextsNonEmpty(t, 4);
    assert R.InOrderFrom(t, 3, 7) && L.TextsNonEmpty(t, 3);
  }

  lemma SameColumnRawFrom6()
    ensures R.InOrderFrom(SameColumnRaw.toks, 6, 11) && L.TextsNonEmpty(SameColumnRaw.toks, 6)
  {
    var t := SameColumnRaw.toks;
    SameColumnRawFrom9();
    assert R.InOrderFrom(t, 8, 13) && L.TextsNonEmpty(t, 8);
    assert R.InOrderFrom(t, 7, 12) && L.TextsNonEmpty(t, 7);
    assert R.InOrderFrom(t, 6, 11) && L.TextsNonEmpty(t, 6);
  }

  lemma SameColumnRawFrom9()
    ensures R.InOrderFrom(SameColumnRaw.toks, 9, 24) && L.TextsNonEmpty(SameColumnRaw.toks, 9)
  {
    var t := SameColumnRaw.toks;
    SameColumnRawFrom12();
    assert R.InOrderFrom(t, 11, 26) && L.TextsNonEmpty(t, 11);
    assert R.InOrderFrom(t, 10, 25) && L.TextsNonEmpty(t, 10);
    assert R.InOrderFrom(t, 9, 24) && L.TextsNonEmpty(t, 9);
  }

  lemma SameColumnRawFrom12()
    ensures R.InOrderFrom(SameColumnRaw.toks, 12, 27) && L.TextsNonEmpty(SameColumnRaw.toks, 12)
  {
    var t := SameColumnRaw.toks;
    SameColumnRawFrom15();
    assert R.InOrderFrom(t, 14, 64) && L.TextsNonEmpty(t, 14);
    assert R.InOrderFrom(t, 13, 31) && L.TextsNonEmpty(t, 13);
    assert R.InOrderFrom(t, 12, 27) && L.TextsNonEmpty(t, 12);
  }

  lemma SameColumnRawFrom15()
    ensures R.InOrderFrom(SameColumnRaw.toks, 15, 65) && L.TextsNonEmpty(SameColumnRaw.toks, 15)
  {
    var t := SameColumnRaw.toks;
    SameColumnRawFrom18();
    assert R.InOrderFrom(t, 17, 68) && L.TextsNonEmpty(t, 17);
    assert R.InOrderFrom(t, 16, 66) && L.TextsNonEmpty(t, 16);
    assert R.InOrderFrom(t, 15, 65) && L.TextsNonEmpty(t, 15);
  }

  lemma SameColumnRawFrom18()
    ensures R.InOrderFrom(SameColumnRaw.toks, 18, 69) && L.TextsNonEmpty(SameColumnRaw.toks, 18)
  {
    var t := SameColumnRaw.toks;
    SameColumnRawFrom21();
    assert R.InOrderFrom(t, 20, 71) && L.TextsNonEmpty(t, 20);
    assert R.InOrderFrom(t, 19, 70) && L.TextsNonEmpty(t, 19);
    assert R.InOrderFrom(t, 18, 69) && L.TextsNonEmpty(t, 18);
  }

  lemma SameColumnRawFrom21()
    ensures R.InOrderFrom(SameColumnRaw.toks, 21, 73) && L.TextsNonEmpty(SameColumnRaw.toks, 21)
  {
    var t := SameColumnRaw.toks;
    assert R.InOrderFrom(t, 22, 74) && L.TextsNonEmpty(t, 22);
    assert R.InOrderFrom(t, 21, 73) && L.TextsNonEmpty(t, 21);
  }

  /** The tokens `test1` (tests/layout_rules.rs:252-285) expects, then `None`. */
  lemma SameColumnExpected()
    ensures L.ValidRaw(SameColumnRaw)
    ensures L.Outputs(SameColumnRaw, L.Initial, 15) ==
            [
              Some(L.Ok(L.Token.Let)), Some(L.Ok(L.VLBrace)), Some(L.Ok(L.Token.Identifier("x"))), Some(L.Ok(L.Token.ColonEqual)),
              Some(L.Ok(L.Token.Identifier("x"))), Some(L.Ok(L.Token.Identifier("y"))), Some(L.Ok(L.Token.Identifier("y"))), Some(L.Ok(L.VSemicolon)),
              Some(L.Ok(L.Token.Identifier("z"))), Some(L.Ok(L.Token.ColonEqual)), Some(L.Ok(L.Token.Identifier("z"))), Some(L.Ok(L.VRBrace)),
              Some(L.Ok(L.Token.In)), Some(L.Ok(L.Token.Identifier("x"))), None]
  {
    SameColumnRawValid();
    SameColumnRuns();
    SameColumnRegroup();
  }

  lemma SameColumnRegroup()
    ensures [Some(L.Ok(L.Token.Let)), Some(L.Ok(L.VLBrace))]
            + ([Some(L.Ok(L.Token.Identifier("x"))), Some(L.Ok(L.Token.ColonEqual))]
            + ([Some(L.Ok(L.Token.Identifier("x"))), Some(L.Ok(L.Token.Identifier("y")))]
            + ([Some(L.Ok(L.Token.Identifier("y"))), Some(L.Ok(L.VSemicolon))]
            + ([Some(L.Ok(L.Token.Identifier("z"))), Some(L.Ok(L.Token.ColonEqual))]
            + ([Some(L.Ok(L.Token.Identifier("z"))), Some(L.Ok(L.VRBrace))]
            + ([Some(L.Ok(L.Token.In)), Some(L.Ok(L.Token.Identifier("x")))]
            + ([None]))))))) ==
            [Some(L.Ok(L.Token.Let)), Some(L.Ok(L.VLBrace)), Some(L.Ok(L.Token.Identifier("x"))), Some(L.Ok(L.Token.ColonEqual)), Some(L.Ok(L.Token.Identifier("x"))), Some(L.Ok(L.Token.Identifier("y"))), Some(L.Ok(L.Token.Identifier("y"))), Some(L.Ok(L.VSemicolon)), Some(L.Ok(L.Token.Identifier("z"))), Some(L.Ok(L.Token.ColonEqual)), Some(L.Ok(L.Token.Identifier("z"))), Some(L.Ok(L.VRBrace)), Some(L.Ok(L.Token.In)), Some(L.Ok(L.Token.Identifier("x"))), None]
  {
  }

  /** The run, two calls at a time. */
  lemma SameColumnRuns()
    requires L.ValidRaw(SameColumnRaw)
    ensures L.Outputs(SameColumnRaw, L.Initial, 15) ==
            [Some(L.Ok(L.Token.Let)), Some(L.Ok(L.VLBrace))]
            + ([Some(L.Ok(L.Token.Identifier("x"))), Some(L.Ok(L.Token.ColonEqual))]
            + ([Some(L.Ok(L.Token.Identifier("x"))), Some(L.Ok(L.Token.Identifier("y")))]
            + ([Some(L.Ok(L.Token.Identifier("y"))), Some(L.Ok(L.VSemicolon))]
            + ([Some(L.Ok(L.Token.Identifier("z"))), Some(L.Ok(L.Token.ColonEqual))]
            + ([Some(L.Ok(L.Token.Identifier("z"))), Some(L.Ok(L.VRBrace))]
            + ([Some(L.Ok(L.Token.In)), Some(L.Ok(L.Token.Identifier("x")))]
            + ([None])))))))
  {
    SameColumnCall0To2();
    SameColumnCall2To4();
    SameColumnCall4To6();
    SameColumnCall6To8();
    SameColumnCall8To10();
    SameColumnCall10To12();
    SameColumnCall12To14();
    SameColumnCall14To15();
    L.OutputsSplit(SameColumnRaw, L.IterState(23, [], None, 4, []), 1, 0);
    L.OutputsSplit(SameColumnRaw, L.IterState(21, [], None, 2, [L.Token.In]), 2, 1);
    L.OutputsSplit(SameColumnRaw, L.IterState(17, [L.Layout.Let(6)], None, 10, []), 2, 3);
    L.OutputsSplit(SameColumnRaw, L.IterState(14, [L.Layout.Let(6)], None, 6, []), 2, 5);
    L.OutputsSplit(SameColumnRaw, L.IterState(10, [L.Layout.Let(6)], None, 11, []), 2, 7);
    L.OutputsSplit(SameColumnRaw, L.IterState(6, [L.Layout.Let(6)], None, 10, []), 2, 9);
    L.OutputsSplit(SameColumnRaw, L.IterState(2, [], Some(L.Layout.Let(0)), 3, []), 2, 11);
    L.OutputsSplit(SameColumnRaw, L.Initial, 2, 13);
  }

  lemma SameColumnCall0()
    requires L.ValidRaw(SameColumnRaw)
    ensures L.NextSpec(SameColumnRaw, L.Initial) == (Some(L.Ok(L.Token.Let)), L.IterState(2, [], Some(L.Layout.Let(0)), 3, [L.VLBrace]))
  {
    assert SameColumnRaw.toks[0] == R.Spanned(0, L.RawToken.Indent("\n"), 1);
    assert L.Advance(L.Initial, R.Spanned(0, L.RawToken.Indent("\n"), 1)) == L.IterState(1, [], None, 1, []);
    assert L.OnIndentStep(SameColumnRaw, 0, L.IterState(1, [], None, 1, [])) == L.Continue(L.IterState(1, [], None, 0, []));
    assert L.Consume(SameColumnRaw, L.Initial) == L.Continue(L.IterState(1, [], None, 0, []));
    assert L.Consume(SameColumnRaw, L.IterState(1, [], None, 0, [])) == L.Return(Some(L.Ok(L.Token.Let)), L.IterState(2, [], Some(L.Layout.Let(0)), 3, [L.VLBrace]));
    assert L.Loop(SameColumnRaw, L.Initial) == L.Loop(SameColumnRaw, L.IterState(1, [], None, 0, []));
  }

  lemma SameColumnCall1()
    requires L.ValidRaw(SameColumnRaw)
    ensures L.NextSpec(SameColumnRaw, L.IterState(2, [], Some(L.Layout.Let(0)), 3, [L.VLBrace])) == (Some(L.Ok(L.VLBrace)), L.IterState(2, [], Some(L.Layout.Let(0)), 3, []))
  {
    assert [L.VLBrace][1..] == [];
  }

  lemma SameColumnCall2()
    requires L.ValidRaw(SameColumnRaw)
    ensures L.NextSpec(SameColumnRaw, L.IterState(2, [], Some(L.Layout.Let(0)), 3, [])) == (Some(L.Ok(L.Token.Identifier("x"))), L.IterState(4, [L.Layout.Let(6)], None, 7, []))
  {
    assert L.Consume(SameColumnRaw, L.IterState(2, [], Some(L.Layout.Let(0)), 3, [])) == L.Continue(L.IterState(3, [], Some(L.Layout.Let(0)), 6, []));
    assert L.Consume(SameColumnRaw, L.IterState(3, [], Some(L.Layout.Let(0)), 6, [])) == L.Return(Some(L.Ok(L.Token.Identifier("x"))), L.IterState(4, [L.Layout.Let(6)], None, 7, []));
    assert L.Loop(SameColumnRaw, L.IterState(2, [], Some(L.Layout.Let(0)), 3, [])) == L.Loop(SameColumnRaw, L.IterState(3, [], Some(L.Layout.Let(0)), 6, []));
  }

  lemma SameColumnCall3()
    requires L.ValidRaw(SameColumnRaw)
    ensures L.NextSpec(SameColumnRaw, L.IterState(4, [L.Layout.Let(6)], None, 7, [])) == (Some(L.Ok(L.Token.ColonEqual)), L.IterState(6, [L.Layout.Let(6)], None, 10, []))
  {
    assert L.Consume(SameColumnRaw, L.IterState(4, [L.Layout.Let(6)], None, 7, [])) == L.Continue(L.IterState(5, [L.Layout.Let(6)], None, 8, []));
    assert L.Consume(SameColumnRaw, L.IterState(5, [L.Layout.Let(6)], None, 8, [])) == L.Return(Some(L.Ok(L.Token.ColonEqual)), L.IterState(6, [L.Layout.Let(6)], None, 10, []));
    assert L.Loop(SameColumnRaw, L.IterState(4, [L.Layout.Let(6)], None, 7, [])) == L.Loop(SameColumnRaw, L.IterState(5, [L.Layout.Let(6)], None, 8, []));
  }

  lemma SameColumnCall4()
    requires L.ValidRaw(SameColumnRaw)
    ensures L.NextSpec(SameColumnRaw, L.IterState(6, [L.Layout.Let(6)], None, 10, [])) == (Some(L.Ok(L.Token.Identifier("x"))), L.IterState(8, [L.Layout.Let(6)], None, 12, []))
  {
    assert L.Consume(SameColumnRaw, L.IterState(6, [L.Layout.Let(6)], None, 10, [])) == L.Continue(L.IterState(7, [L.Layout.Let(6)], None, 11, []));
    assert L.Consume(SameColumnRaw, L.IterState(7, [L.Layout.Let(6)], None, 11, [])) == L.Return(Some(L.Ok(L.Token.Identifier("x"))), L.IterState(8, [L.Layout.Let(6)], None, 12, []));
    assert L.Loop(SameColumnRaw, L.IterState(6, [L.Layout.Let(6)], None, 10, [])) == L.Loop(SameColumnRaw, L.IterState(7, [L.Layout.Let(6)], None, 11, []));
  }

  lemma SameColumnCall5()
    requires L.ValidRaw(SameColumnRaw)
    ensures L.NextSpec(SameColumnRaw, L.IterState(8, [L.Layout.Let(6)], None, 12, [])) == (Some(L.Ok(L.Token.Identifier("y"))), L.IterState(10, [L.Layout.Let(6)], None, 11, []))
  {
    assert SameColumnRaw.toks[8] == R.Spanned(13, L.RawToken.Indent("\n          "), 24);
    assert L.Advance(L.IterState(8, [L.Layout.Let(6)], None, 12, []), R.Spanned(13, L.RawToken.Indent("\n          "), 24)) == L.IterState(9, [L.Layout.Let(6)], None, 23, []);
    assert L.OnIndentStep(SameColumnRaw, 10, L.IterState(9, [L.Layout.Let(6)], None, 23, [])) == L.Continue(L.IterState(9, [L.Layout.Let(6)], None, 10, []));
    assert L.Consume(SameColumnRaw, L.IterState(8, [L.Layout.Let(6)], None, 12, [])) == L.Continue(L.IterState(9, [L.Layout.Let(6)], None, 10, []));
    assert L.Consume(SameColumnRaw, L.IterState(9, [L.Layout.Let(6)], None, 10, [])) == L.Return(Some(L.Ok(L.Token.Identifier("y"))), L.IterState(10, [L.Layout.Let(6)], None, 11, []));
    assert L.Loop(SameColumnRaw, L.IterState(8, [L.Layout.Let(6)], None, 12, [])) == L.Loop(SameColumnRaw, L.IterState(9, [L.Layout.Let(6)], None, 10, []));
  }

  lemma SameColumnCall6()
    requires L.ValidRaw(SameColumnRaw)
    ensures L.NextSpec(SameColumnRaw, L.IterState(10, [L.Layout.Let(6)], None, 11, [])) == (Some(L.Ok(L.Token.Identifier("y"))), L.IterState(12, [L.Layout.Let(6)], None, 13, []))
  {
    assert L.Consume(SameColumnRaw, L.IterState(10, [L.Layout.Let(6)], None, 11, [])) == L.Continue(L.IterState(11, [L.Layout.Let(6)], None, 12, []));
    assert L.Consume(SameColumnRaw, L.IterState(11, [L.Layout.Let(6)], None, 12, [])) == L.Return(Some(L.Ok(L.Token.Identifier("y"))), L.IterState(12, [L.Layout.Let(6)], None, 13, []));
    assert L.Loop(SameColumnRaw, L.IterState(10, [L.Layout.Let(6)], None, 11, [])) == L.Loop(SameColumnRaw, L.IterState(11, [L.Layout.Let(6)], None, 12, []));
  }

  lemma SameColumnCall7()
    requires L.ValidRaw(SameColumnRaw)
    ensures L.NextSpec(SameColumnRaw, L.IterState(12, [L.Layout.Let(6)], None, 13, [])) == (Some(L.Ok(L.VSemicolon)), L.IterState(14, [L.Layout.Let(6)], None, 6, []))
  {
    assert SameColumnRaw.toks[12] == R.Spanned(27, L.RawToken.Indent("\n   "), 31);
    assert L.Advance(L.IterState(12, [L.Layout.Let(6)], None, 13, []), R.Spanned(27, L.RawToken.Indent("\n   "), 31)) == L.IterState(13, [L.Layout.Let(6)], None, 17, []);
    assert L.OnIndentStep(SameColumnRaw, 3, L.IterState(13, [L.Layout.Let(6)], None, 17, [])) == L.Continue(L.IterState(13, [L.Layout.Let(6)], None, 3, []));
    assert L.Consume(SameColumnRaw, L.IterState(12, [L.Layout.Let(6)], None, 13, [])) == L.Continue(L.IterState(13, [L.Layout.Let(6)], None, 3, []));
    assert SameColumnRaw.toks[13] == R.Spanned(57, L.RawToken.Indent("\n      "), 64);
    assert L.Advance(L.IterState(13, [L.Layout.Let(6)], None, 3, []), R.Spanned(57, L.RawToken.Indent("\n      "), 64)) == L.IterState(14, [L.Layout.Let(6)], None, 10, []);
    assert L.OnIndentStep(SameColumnRaw, 6, L.IterState(14, [L.Layout.Let(6)], None, 10, [])) == L.Return(Some(L.Ok(L.VSemicolon)), L.IterState(14, [L.Layout.Let(6)], None, 6, []));
    assert L.Consume(SameColumnRaw, L.IterState(13, [L.Layout.Let(6)], None, 3, [])) == L.Return(Some(L.Ok(L.VSemicolon)), L.IterState(14, [L.Layout.Let(6)], None, 6, []));
    assert L.Loop(SameColumnRaw, L.IterState(12, [L.Layout.Let(6)], None, 13, [])) == L.Loop(SameColumnRaw, L.IterState(13, [L.Layout.Let(6)], None, 3, []));
  }

  lemma SameColumnCall8()
    requires L.ValidRaw(SameColumnRaw)
    ensures L.NextSpec(SameColumnRaw, L.IterState(14, [L.Layout.Let(6)], None, 6, [])) == (Some(L.Ok(L.Token.Identifier("z"))), L.IterState(15, [L.Layout.Let(6)], None, 7, []))
  {
    assert L.Consume(SameColumnRaw, L.IterState(14, [L.Layout.Let(6)], None, 6, [])) == L.Return(Some(L.Ok(L.Token.Identifier("z"))), L.IterState(15, [L.Layout.Let(6)], None, 7, []));
  }

  lemma SameColumnCall9()
    requires L.ValidRaw(SameColumnRaw)
    ensures L.NextSpec(SameColumnRaw, L.IterState(15, [L.Layout.Let(6)], None, 7, [])) == (Some(L.Ok(L.Token.ColonEqual)), L.IterState(17, [L.Layout.Let(6)], None, 10, []))
  {
    assert L.Consume(SameColumnRaw, L.IterState(15, [L.Layout.Let(6)], None, 7, [])) == L.Continue(L.IterState(16, [L.Layout.Let(6)], None, 8, []));
    assert L.Consume(SameColumnRaw, L.IterState(16, [L.Layout.Let(6)], None, 8, [])) == L.Return(Some(L.Ok(L.Token.ColonEqual)), L.IterState(17, [L.Layout.Let(6)], None, 10, []));
    assert L.Loop(SameColumnRaw, L.IterState(15, [L.Layout.Let(6)], None, 7, [])) == L.Loop(SameColumnRaw, L.IterState(16, [L.Layout.Let(6)], None, 8, []));
  }

  lemma SameColumnCall10()
    requires L.ValidRaw(SameColumnRaw)
    ensures L.NextSpec(SameColumnRaw, L.IterState(17, [L.Layout.Let(6)], None, 10, [])) == (Some(L.Ok(L.Token.Identifier("z"))), L.IterState(19, [L.Layout.Let(6)], None, 12, []))
  {
    assert L.Consume(SameColumnRaw, L.IterState(17, [L.Layout.Let(6)], None, 10, [])) == L.Continue(L.IterState(18, [L.Layout.Let(6)], None, 11, []));
    assert L.Consume(SameColumnRaw, L.IterState(18, [L.Layout.Let(6)], None, 11, [])) == L.Return(Some(L.Ok(L.Token.Identifier("z"))), L.IterState(19, [L.Layout.Let(6)], None, 12, []));
    assert L.Loop(SameColumnRaw, L.IterState(17, [L.Layout.Let(6)], None, 10, [])) == L.Loop(SameColumnRaw, L.IterState(18, [L.Layout.Let(6)], None, 11, []));
  }

  lemma SameColumnCall11()
    requires L.ValidRaw(SameColumnRaw)
    ensures L.NextSpec(SameColumnRaw, L.IterState(19, [L.Layout.Let(6)], None, 12, [])) == (Some(L.Ok(L.VRBrace)), L.IterState(21, [], None, 2, [L.Token.In]))
  {
    assert SameColumnRaw.toks[19] == R.Spanned(70, L.RawToken.Indent("\n"), 71);
    assert L.Advance(L.IterState(19, [L.Layout.Let(6)], None, 12, []), R.Spanned(70, L.RawToken.Indent("\n"), 71)) == L.IterState(20, [L.Layout.Let(6)], None, 13, []);
    assert L.OnIndentStep(SameColumnRaw, 0, L.IterState(20, [L.Layout.Let(6)], None, 13, [])) == L.Continue(L.IterState(20, [L.Layout.Let(6)], None, 0, []));
    assert L.Consume(SameColumnRaw, L.IterState(19, [L.Layout.Let(6)], None, 12, [])) == L.Continue(L.IterState(20, [L.Layout.Let(6)], None, 0, []));
    assert SameColumnRaw.toks[20] == R.Spanned(71, L.RawToken.In, 73);
    assert L.Advance(L.IterState(20, [L.Layout.Let(6)], None, 0, []), R.Spanned(71, L.RawToken.In, 73)) == L.IterState(21, [L.Layout.Let(6)], None, 2, []);
    assert L.CloseStep(L.IterState(21, [L.Layout.Let(6)], None, 2, []), false) == L.Return(Some(L.Ok(L.VRBrace)), L.IterState(21, [], None, 2, [L.Token.In]));
    assert L.Consume(SameColumnRaw, L.IterState(20, [L.Layout.Let(6)], None, 0, [])) == L.Return(Some(L.Ok(L.VRBrace)), L.IterState(21, [], None, 2, [L.Token.In]));
    assert L.Loop(SameColumnRaw, L.IterState(19, [L.Layout.Let(6)], None, 12, [])) == L.Loop(SameColumnRaw, L.IterState(20, [L.Layout.Let(6)], None, 0, []));
  }

  lemma SameColumnCall12()
    requires L.ValidRaw(SameColumnRaw)
    ensures L.NextSpec(SameColumnRaw, L.IterState(21, [], None, 2, [L.Token.In])) == (Some(L.Ok(L.Token.In)), L.IterState(21, [], None, 2, []))
  {
    assert [L.Token.In][1..] == [];
  }

  lemma SameColumnCall13()
    requires L.ValidRaw(SameColumnRaw)
    ensures L.NextSpec(SameColumnRaw, L.IterState(21, [], None, 2, [])) == (Some(L.Ok(L.Token.Identifier("x"))), L.IterState(23, [], None, 4, []))
  {
    assert L.Consume(SameColumnRaw, L.IterState(21, [], None, 2, [])) == L.Continue(L.IterState(22, [], None, 3, []));
    assert L.Consume(SameColumnRaw, L.IterState(22, [], None, 3, [])) == L.Return(Some(L.Ok(L.Token.Identifier("x"))), L.IterState(23, [], None, 4, []));
    assert L.Loop(SameColumnRaw, L.IterState(21, [], None, 2, [])) == L.Loop(SameColumnRaw, L.IterState(22, [], None, 3, []));
  }

  lemma SameColumnCall14()
    requires L.ValidRaw(SameColumnRaw)
    ensures L.NextSpec(SameColumnRaw, L.IterState(23, [], None, 4, [])) == (None, L.IterState(23, [], None, 4, []))
  {
    assert L.AtEnd(SameColumnRaw, L.IterState(23, [], None, 4, [])) == (None, L.IterState(23, [], None, 4, []));
    assert L.Loop(SameColumnRaw, L.IterState(23, [], None, 4, [])) == L.AtEnd(SameColumnRaw, L.IterState(23, [], None, 4, []));
  }

  lemma SameColumnCall0To2()
    requires L.ValidRaw(SameColumnRaw)
    ensures L.After(SameColumnRaw, L.Initial, 2) == L.IterState(2, [], Some(L.Layout.Let(0)), 3, [])
    ensures L.Outputs(SameColumnRaw, L.Initial, 2) == [Some(L.Ok(L.Token.Let)), Some(L.Ok(L.VLBrace))]
  {
    assert L.Outputs(SameColumnRaw, L.IterState(2, [], Some(L.Layout.Let(0)), 3, [L.VLBrace]), 1) == [Some(L.Ok(L.VLBrace))] + L.Outputs(SameColumnRaw, L.IterState(2, [], Some(L.Layout.Let(0)), 3, []), 0) &&
           L.After(SameColumnRaw, L.IterState(2, [], Some(L.Layout.Let(0)), 3, [L.VLBrace]), 1) == L.After(SameColumnRaw, L.IterState(2, [], Some(L.Layout.Let(0)), 3, []), 0) by {
      SameColumnCall1();
      L.OutputsStep(SameColumnRaw, L.IterState(2, [], Some(L.Layout.Let(0)), 3, [L.VLBrace]), 1, Some(L.Ok(L.VLBrace)), L.IterState(2, [], Some(L.Layout.Let(0)), 3, []));
    }
    assert L.Outputs(SameColumnRaw, L.Initial, 2) == [Some(L.Ok(L.Token.Let))] + L.Outputs(SameColumnRaw, L.IterState(2, [], Some(L.Layout.Let(0)), 3, [L.VLBrace]), 1) &&
           L.After(SameColumnRaw, L.Initial, 2) == L.After(SameColumnRaw, L.IterState(2, [], Some(L.Layout.Let(0)), 3, [L.VLBrace]), 1) by {
      SameColumnCall0();
      L.OutputsStep(SameColumnRaw, L.Initial, 2, Some(L.Ok(L.Token.Let)), L.IterState(2, [], Some(L.Layout.Let(0)), 3, [L.VLBrace]));
    }
  }

  lemma SameColumnCall2To4()
    requires L.ValidRaw(SameColumnRaw)
    ensures L.After(SameColumnRaw, L.IterState(2, [], Some(L.Layout.Let(0)), 3, []), 2) == L.IterState(6, [L.Layout.Let(6)], None, 10, [])
    ensures L.Outputs(SameColumnRaw, L.IterState(2, [], Some(L.Layout.Let(0)), 3, []), 2) == [Some(L.Ok(L.Token.Identifier("x"))), Some(L.Ok(L.Token.ColonEqual))]
  {
    assert L.Outputs(SameColumnRaw, L.IterState(4, [L.Layout.Let(6)], None, 7, []), 1) == [Some(L.Ok(L.Token.ColonEqual))] + L.Outputs(SameColumnRaw, L.IterState(6, [L.Layout.Let(6)], None, 10, []), 0) &&
           L.After(SameColumnRaw, L.IterState(4, [L.Layout.Let(6)], None, 7, []), 1) == L.After(SameColumnRaw, L.IterState(6, [L.Layout.Let(6)], None, 10, []), 0) by {
      SameColumnCall3();
      L.OutputsStep(SameColumnRaw, L.IterState(4, [L.Layout.Let(6)], None, 7, []), 1, Some(L.Ok(L.Token.ColonEqual)), L.IterState(6, [L.Layout.Let(6)], None, 10, []));
    }
    assert L.Outputs(SameColumnRaw, L.IterState(2, [], Some(L.Layout.Let(0)), 3, []), 2) == [Some(L.Ok(L.Token.Identifier("x")))] + L.Outputs(SameColumnRaw, L.IterState(4, [L.Layout.Let(6)], None, 7, []), 1) &&
           L.After(SameColumnRaw, L.IterState(2, [], Some(L.Layout.Let(0)), 3, []), 2) == L.After(SameColumnRaw, L.IterState(4, [L.Layout.Let(6)], None, 7, []), 1) by {
      SameColumnCall2();
      L.OutputsStep(SameColumnRaw, L.IterState(2, [], Some(L.Layout.Let(0)), 3, []), 2, Some(L.Ok(L.Token.Identifier("x"))), L.IterState(4, [L.Layout.Let(6)], None, 7, []));
    }
  }

  lemma SameColumnCall4To6()
    requires L.ValidRaw(SameColumnRaw)
    ensures L.After(SameColumnRaw, L.IterState(6, [L.Layout.Let(6)], None, 10, []), 2) == L.IterState(10, [L.Layout.Let(6)], None, 11, [])
    ensures L.Outputs(SameColumnRaw, L.IterState(6, [L.Layout.Let(6)], None, 10, []), 2) == [Some(L.Ok(L.Token.Identifier("x"))), Some(L.Ok(L.Token.Identifier("y")))]
  {
    assert L.Outputs(SameColumnRaw, L.IterState(8, [L.Layout.Let(6)], None, 12, []), 1) == [Some(L.Ok(L.Token.Identifier("y")))] + L.Outputs(SameColumnRaw, L.IterState(10, [L.Layout.Let(6)], None, 11, []), 0) &&
           L.After(SameColumnRaw, L.IterState(8, [L.Layout.Let(6)], None, 12, []), 1) == L.After(SameColumnRaw, L.IterState(10, [L.Layout.Let(6)], None, 11, []), 0) by {
      SameColumnCall5();
      L.OutputsStep(SameColumnRaw, L.IterState(8, [L.Layout.Let(6)], None, 12, []), 1, Some(L.Ok(L.Token.Identifier("y"))), L.IterState(10, [L.Layout.Let(6)], None, 11, []));
    }
    assert L.Outputs(SameColumnRaw, L.IterState(6, [L.Layout.Let(6)], None, 10, []), 2) == [Some(L.Ok(L.Token.Identifier("x")))] + L.Outputs(SameColumnRaw, L.IterState(8, [L.Layout.Let(6)], None, 12, []), 1) &&
           L.After(SameColumnRaw, L.IterState(6, [L.Layout.Let(6)], None, 10, []), 2) == L.After(SameColumnRaw, L.IterState(8, [L.Layout.Let(6)], None, 12, []), 1) by {
      SameColumnCall4();
      L.OutputsStep(SameColumnRaw, L.IterState(6, [L.Layout.Let(6)], None, 10, []), 2, Some(L.Ok(L.Token.Identifier("x"))), L.IterState(8, [L.Layout.Let(6)], None, 12, []));
    }
  }

  lemma SameColumnCall6To8()
    requires L.ValidRaw(SameColumnRaw)
    ensures L.After(SameColumnRaw, L.IterState(10, [L.Layout.Let(6)], None, 11, []), 2) == L.IterState(14, [L.Layout.Let(6)], None, 6, [])
    ensures L.Outputs(SameColumnRaw, L.IterState(10, [L.Layout.Let(6)], None, 11, []), 2) == [Some(L.Ok(L.Token.Identifier("y"))), Some(L.Ok(L.VSemicolon))]
  {
    assert L.Outputs(SameColumnRaw, L.IterState(12, [L.Layout.Let(6)], None, 13, []), 1) == [Some(L.Ok(L.VSemicolon))] + L.Outputs(SameColumnRaw, L.IterState(14, [L.Layout.Let(6)], None, 6, []), 0) &&
           L.After(SameColumnRaw, L.IterState(12, [L.Layout.Let(6)], None, 13, []), 1) == L.After(SameColumnRaw, L.IterState(14, [L.Layout.Let(6)], None, 6, []), 0) by {
      SameColumnCall7();
      L.OutputsStep(SameColumnRaw, L.IterState(12, [L.Layout.Let(6)], None, 13, []), 1, Some(L.Ok(L.VSemicolon)), L.IterState(14, [L.Layout.Let(6)], None, 6, []));
    }
    assert L.Outputs(SameColumnRaw, L.IterState(10, [L.Layout.Let(6)], None, 11, []), 2) == [Some(L.Ok(L.Token.Identifier("y")))] + L.Outputs(SameColumnRaw, L.IterState(12, [L.Layout.Let(6)], None, 13, []), 1) &&
           L.After(SameColumnRaw, L.IterState(10, [L.Layout.Let(6)], None, 11, []), 2) == L.After(SameColumnRaw, L.IterState(12, [L.Layout.Let(6)], None, 13, []), 1) by {
      SameColumnCall6();
      L.OutputsStep(SameColumnRaw, L.IterState(10, [L.Layout.Let(6)], None, 11, []), 2, Some(L.Ok(L.Token.Identifier("y"))), L.IterState(12, [L.Layout.Let(6)], None, 13, []));
    }
  }

  lemma SameColumnCall8To10()
    requires L.ValidRaw(SameColumnRaw)
    ensures L.After(SameColumnRaw, L.IterState(14, [L.Layout.Let(6)], None, 6, []), 2) == L.IterState(17, [L.Layout.Let(6)], None, 10, [])
    ensures L.Outputs(SameColumnRaw, L.IterState(14, [L.Layout.Let(6)], None, 6, []), 2) == [Some(L.Ok(L.Token.Identifier("z"))), Some(L.Ok(L.Token.ColonEqual))]
  {
    assert L.Outputs(SameColumnRaw, L.IterState(15, [L.Layout.Let(6)], None, 7, []), 1) == [Some(L.Ok(L.Token.ColonEqual))] + L.Outputs(SameColumnRaw, L.IterState(17, [L.Layout.Let(6)], None, 10, []), 0) &&
           L.After(SameColumnRaw, L.IterState(15, [L.Layout.Let(6)], None, 7, []), 1) == L.After(SameColumnRaw, L.IterState(17, [L.Layout.Let(6)], None, 10, []), 0) by {
      SameColumnCall9();
      L.OutputsStep(SameColumnRaw, L.IterState(15, [L.Layout.Let(6)], None, 7, []), 1, Some(L.Ok(L.Token.ColonEqual)), L.IterState(17, [L.Layout.Let(6)], None, 10, []));
    }
    assert L.Outputs(SameColumnRaw, L.IterState(14, [L.Layout.Let(6)], None, 6, []), 2) == [Some(L.Ok(L.Token.Identifier("z")))] + L.Outputs(SameColumnRaw, L.IterState(15, [L.Layout.Let(6)], None, 7, []), 1) &&
           L.After(SameColumnRaw, L.IterState(14, [L.Layout.Let(6)], None, 6, []), 2) == L.After(SameColumnRaw, L.IterState(15, [L.Layout.Let(6)], None, 7, []), 1) by {
      SameColumnCall8();
      L.OutputsStep(SameColumnRaw, L.IterState(14, [L.Layout.Let(6)], None, 6, []), 2, Some(L.Ok(L.Token.Identifier("z"))), L.IterState(15, [L.Layout.Let(6)], None, 7, []));
    }
  }

  lemma SameColumnCall10To12()
    requires L.ValidRaw(SameColumnRaw)
    ensures L.After(SameColumnRaw, L.IterState(17, [L.Layout.Let(6)], None, 10, []), 2) == L.IterState(21, [], None, 2, [L.Token.In])
    ensures L.Outputs(SameColumnRaw, L.IterState(17, [L.Layout.Let(6)], None, 10, []), 2) == [Some(L.Ok(L.Token.Identifier("z"))), Some(L.Ok(L.VRBrace))]
  {
    assert L.Outputs(SameColumnRaw, L.IterState(19, [L.Layout.Let(6)], None, 12, []), 1) == [Some(L.Ok(L.VRBrace))] + L.Outputs(SameColumnRaw, L.IterState(21, [], None, 2, [L.Token.In]), 0) &&
           L.After(SameColumnRaw, L.IterState(19, [L.Layout.Let(6)], None, 12, []), 1) == L.After(SameColumnRaw, L.IterState(21, [], None, 2, [L.Token.In]), 0) by {
      SameColumnCall11();
      L.OutputsStep(SameColumnRaw, L.IterState(19, [L.Layout.Let(6)], None, 12, []), 1, Some(L.Ok(L.VRBrace)), L.IterState(21, [], None, 2, [L.Token.In]));
    }
    assert L.Outputs(SameColumnRaw, L.IterState(17, [L.Layout.Let(6)], None, 10, []), 2) == [Some(L.Ok(L.Token.Identifier("z")))] + L.Outputs(SameColumnRaw, L.IterState(19, [L.Layout.Let(6)], None, 12, []), 1) &&
           L.After(SameColumnRaw, L.IterState(17, [L.Layout.Let(6)], None, 10, []), 2) == L.After(SameColumnRaw, L.IterState(19, [L.Layout.Let(6)], None, 12, []), 1) by {
      SameColumnCall10();
      L.OutputsStep(SameColumnRaw, L.IterState(17, [L.Layout.Let(6)], None, 10, []), 2, Some(L.Ok(L.Token.Identifier("z"))), L.IterState(19, [L.Layout.Let(6)], None, 12, []));
    }
  }

  lemma SameColumnCall12To14()
    requires L.ValidRaw(SameColumnRaw)
    ensures L.After(SameColumnRaw, L.IterState(21, [], None, 2, [L.Token.In]), 2) == L.IterState(23, [], None, 4, [])
    ensures L.Outputs(SameColumnRaw, L.IterState(21, [], None, 2, [L.Token.In]), 2) == [Some(L.Ok(L.Token.In)), Some(L.Ok(L.Token.Identifier("x")))]
  {
    assert L.Outputs(SameColumnRaw, L.IterState(21, [], None, 2, []), 1) == [Some(L.Ok(L.Token.Identifier("x")))] + L.Outputs(SameColumnRaw, L.IterState(23, [], None, 4, []), 0) &&
           L.After(SameColumnRaw, L.IterState(21, [], None, 2, []), 1) == L.After(SameColumnRaw, L.IterState(23, [], None, 4, []), 0) by {
      SameColumnCall13();
      L.OutputsStep(SameColumnRaw, L.IterState(21, [], None, 2, []), 1, Some(L.Ok(L.Token.Identifier("x"))), L.IterState(23, [], None, 4, []));
    }
    assert L.Outputs(SameColumnRaw, L.IterState(21, [], None, 2, [L.Token.In]), 2) == [Some(L.Ok(L.Token.In))] + L.Outputs(SameColumnRaw, L.IterState(21, [], None, 2, []), 1) &&
           L.After(SameColumnRaw, L.IterState(21, [], None, 2, [L.Token.In]), 2) == L.After(SameColumnRaw, L.IterState(21, [], None, 2, []), 1) by {
      SameColumnCall12();
      L.OutputsStep(SameColumnRaw, L.IterState(21, [], None, 2, [L.Token.In]), 2, Some(L.Ok(L.Token.In)), L.IterState(21, [], None, 2, []));
    }
  }

  lemma SameColumnCall14To15()
    requires L.ValidRaw(SameColumnRaw)
    ensures L.After(SameColumnRaw, L.IterState(23, [], None, 4, []), 1) == L.IterState(23, [], None, 4, [])
    ensures L.Outputs(SameColumnRaw, L.IterState(23, [], None, 4, []), 1) == [None]
  {
    assert L.Outputs(SameColumnRaw, L.IterState(23, [], None, 4, []), 1) == [None] + L.Outputs(SameColumnRaw, L.IterState(23, [], None, 4, []), 0) &&
           L.After(SameColumnRaw, L.IterState(23, [], None, 4, []), 1) == L.After(SameColumnRaw, L.IterState(23, [], None, 4, []), 0) by {
      SameColumnCall14();
      L.OutputsStep(SameColumnRaw, L.IterState(23, [], None, 4, []), 1, None, L.IterState(23, [], None, 4, []));
    }
  }

  /** The raw tokens of the input of `test_let_in_same_line`: two `let` blocks on one line, each closed
      by its `in`. */
  const SameLineRaw: R.Stream<L.RawToken> := R.Stream(seq(21, i requires 0 <= i => SameLineTok(i)), None)

  function SameLineTok(i: nat): R.Spanned<L.RawToken>
  {
    if i == 0 then R.Spanned(0, L.RawToken.Let, 3)
    else if i == 1 then R.Spanned(3, L.RawToken.Whitespace(" "), 4)
    else if i == 2 then R.Spanned(4, L.RawToken.Identifier("x"), 5)
    else if i == 3 then R.Spanned(5, L.RawToken.Whitespace(" "), 6)
    else if i == 4 then R.Spanned(6, L.RawToken.ColonEqual, 8)
    else if i == 5 then R.Spanned(8, L.RawToken.Whitespace(" "), 9)
    else if i == 6 then R.Spanned(9, L.RawToken.Let, 12)
    else if i == 7 then R.Spanned(12, L.RawToken.Whitespace(" "), 13)
    else if i == 8 then R.Spanned(13, L.RawToken.Identifier("y"), 14)
    else if i == 9 then R.Spanned(14, L.RawToken.Whitespace(" "), 15)
    else if i == 10 then R.Spanned(15, L.RawToken.ColonEqual, 17)
    else if i == 11 then R.Spanned(17, L.RawToken.Whitespace(" "), 18)
    else if i == 12 then R.Spanned(18, L.RawToken.Identifier("x"), 19)
    else if i == 13 then R.Spanned(19, L.RawToken.Whitespace(" "), 20)
    else if i == 14 then R.Spanned(20, L.RawToken.In, 22)
    else if i == 15 then R.Spanned(22, L.RawToken.Whitespace(" "), 23)
    else if i == 16 then R.Spanned(23, L.RawToken.Identifier("y"), 24)
    else if i == 17 then R.Spanned(24, L.RawToken.Whitespace(" "), 25)
    else if i == 18 then R.Spanned(25, L.RawToken.In, 27)
    else if i == 19 then R.Spanned(27, L.RawToken.Whitespace(" "), 28)
    else R.Spanned(28, L.RawToken.Identifier("x"), 29)
  }

  lemma SameLineRawValid()
    ensures L.ValidRaw(SameLineRaw)
  {
    SameLineRawFrom0();
    L.ValidRawOf(SameLineRaw.toks);
  }

  lemma SameLineRawFrom0()
    ensures R.InOrderFrom(SameLineRaw.toks, 0, 0) && L.TextsNonEmpty(SameLineRaw.toks, 0)
  {
    var t := SameLineRaw.toks;
    SameLineRawFrom3();
    assert R.InOrderFrom(t, 2, 4) && L.TextsNonEmpty(t, 2);
    assert R.InOrderFrom(t, 1, 3) && L.TextsNonEmpty(t, 1);
    assert R.InOrderFrom(t, 0, 0) && L.TextsNonEmpty(t, 0);
  }

  lemma SameLineRawFrom3()
    ensures R.InOrderFrom(SameLineRaw.toks, 3, 5) && L.TextsNonEmpty(SameLineRaw.toks, 3)
  {
    var t := SameLineRaw.toks;
    SameLineRawFrom6();
    assert R.InOrderFrom(t, 5, 8) && L.TextsNonEmpty(t, 5);
    assert R.InOrderFrom(t, 4, 6) && L.TextsNonEmpty(t, 4);
    assert R.InOrderFrom(t, 3, 5) && L.TextsNonEmpty(t, 3);
  }

  lemma SameLineRawFrom6()
    ensures R.InOrderFrom(SameLineRaw.toks, 6, 9) && L.TextsNonEmpty(SameLineRaw.toks, 6)
  {
    var t := SameLineRaw.toks;
    SameLineRawFrom9();
    assert R.InOrderFrom(t, 8, 13) && L.TextsNonEmpty(t, 8);
    assert R.InOrderFrom(t, 7, 12) && L.TextsNonEmpty(t, 7);
    assert R.InOrderFrom(t, 6, 9) && L.TextsNonEmpty(t, 6);
  }

  lemma SameLineRawFrom9()
    ensures R.InOrderFrom(SameLineRaw.toks, 9, 14) && L.TextsNonEmpty(SameLineRaw.toks, 9)
  {
    var t := SameLineRaw.toks;
    SameLineRawFrom12();
    assert R.InOrderFrom(t, 11, 17) && L.TextsNonEmpty(t, 11);
    assert R.InOrderFrom(t, 10, 15) && L.TextsNonEmpty(t, 10);
    assert R.InOrderFrom(t, 9, 14) && L.TextsNonEmpty(t, 9);
  }

  lemma SameLineRawFrom12()
    ensures R.InOrderFrom(SameLineRaw.toks, 12, 18) && L.TextsNonEmpty(SameLineRaw.toks, 12)
  {
    var t := SameLineRaw.toks;
    SameLineRawFrom15();
    assert R.InOrderFrom(t, 14, 20) && L.TextsNonEmpty(t, 14);
    assert R.InOrderFrom(t, 13, 19) && L.TextsNonEmpty(t, 13);
    assert R.InOrderFrom(t, 12, 18) && L.TextsNonEmpty(t, 12);
  }

  lemma SameLineRawFrom15()
    ensures R.InOrderFrom(SameLineRaw.toks, 15, 22) && L.TextsNonEmpty(SameLineRaw.toks, 15)
  {
    var t := SameLineRaw.toks;
    SameLineRawFrom18();
    assert R.InOrderFrom(t, 17, 24) && L.TextsNonEmpty(t, 17);
    assert R.InOrderFrom(t, 16, 23) && L.TextsNonEmpty(t, 16);
    assert R.InOrderFrom(t, 15, 22) && L.TextsNonEmpty(t, 15);
  }

  lemma SameLineRawFrom18()
    ensures R.InOrderFrom(SameLineRaw.toks, 18, 25) && L.TextsNonEmpty(SameLineRaw.toks, 18)
  {
    var t := SameLineRaw.toks;
    assert R.InOrderFrom(t, 20, 28) && L.TextsNonEmpty(t, 20);
    assert R.InOrderFrom(t, 19, 27) && L.TextsNonEmpty(t, 19);
    assert R.InOrderFrom(t, 18, 25) && L.TextsNonEmpty(t, 18);
  }

  /** The tokens `test_let_in_same_line` (tests/layout_rules.rs:287-313) expects, then `None`. */
  lemma SameLineExpected()
    ensures L.ValidRaw(SameLineRaw)
    ensures L.Outputs(SameLineRaw, L.Initial, 16) ==
            [
              Some(L.Ok(L.Token.Let)), Some(L.Ok(L.VLBrace)), Some(L.Ok(L.Token.Identifier("x"))), Some(L.Ok(L.Token.ColonEqual)),
              Some(L.Ok(L.Token.Let)), Some(L.Ok(L.VLBrace)), Some(L.Ok(L.Token.Identifier("y"))), Some(L.Ok(L.Token.ColonEqual)),
              Some(L.Ok(L.Token.Identifier("x"))), Some(L.Ok(L.VRBrace)), Some(L.Ok(L.Token.In)), Some(L.Ok(L.Token.Identifier("y"))),
              Some(L.Ok(L.VRBrace)), Some(L.Ok(L.Token.In)), Some(L.Ok(L.Token.Identifier("x"))), None]
  {
    SameLineRawValid();
    SameLineRuns();
    SameLineRegroup();
  }

  lemma SameLineRegroup()
    ensures [Some(L.Ok(L.Token.Let)), Some(L.Ok(L.VLBrace))]
            + ([Some(L.Ok(L.Token.Identifier("x"))), Some(L.Ok(L.Token.ColonEqual))]
            + ([Some(L.Ok(L.Token.Let)), Some(L.Ok(L.VLBrace))]
            + ([Some(L.Ok(L.Token.Identifier("y"))), Some(L.Ok(L.Token.ColonEqual))]
            + ([Some(L.Ok(L.Token.Identifier("x"))), Some(L.Ok(L.VRBrace))]
            + ([Some(L.Ok(L.Token.In)), Some(L.Ok(L.Token.Identifier("y")))]
            + ([Some(L.Ok(L.VRBrace)), Some(L.Ok(L.Token.In))]
            + ([Some(L.Ok(L.Token.Identifier("x"))), None]))))))) ==
            [Some(L.Ok(L.Token.Let)), Some(L.Ok(L.VLBrace)), Some(L.Ok(L.Token.Identifier("x"))), Some(L.Ok(L.Token.ColonEqual)), Some(L.Ok(L.Token.Let)), Some(L.Ok(L.VLBrace)), Some(L.Ok(L.Token.Identifier("y"))), Some(L.Ok(L.Token.ColonEqual)), Some(L.Ok(L.Token.Identifier("x"))), Some(L.Ok(L.VRBrace)), Some(L.Ok(L.Token.In)), Some(L.Ok(L.Token.Identifier("y"))), Some(L.Ok(L.VRBrace)), Some(L.Ok(L.Token.In)), Some(L.Ok(L.Token.Identifier("x"))), None]
  {
  }

  /** The run, two calls at a time. */
  lemma SameLineRuns()
    requires L.ValidRaw(SameLineRaw)
    ensures L.Outputs(SameLineRaw, L.Initial, 16) ==
            [Some(L.Ok(L.Token.Let)), Some(L.Ok(L.VLBrace))]
            + ([Some(L.Ok(L.Token.Identifier("x"))), Some(L.Ok(L.Token.ColonEqual))]
            + ([Some(L.Ok(L.Token.Let)), Some(L.Ok(L.VLBrace))]
            + ([Some(L.Ok(L.Token.Identifier("y"))), Some(L.Ok(L.Token.ColonEqual))]
            + ([Some(L.Ok(L.Token.Identifier("x"))), Some(L.Ok(L.VRBrace))]
            + ([Some(L.Ok(L.Token.In)), Some(L.Ok(L.Token.Identifier("y")))]
            + ([Some(L.Ok(L.VRBrace)), Some(L.Ok(L.Token.In))]
            + ([Some(L.Ok(L.Token.Identifier("x"))), None])))))))
  {
    SameLineCall0To2();
    SameLineCall2To4();
    SameLineCall4To6();
    SameLineCall6To8();
    SameLineCall8To10();
    SameLineCall10To12();
    SameLineCall12To14();
    SameLineCall14To16();
    L.OutputsSplit(SameLineRaw, L.IterState(19, [], None, 27, []), 2, 0);
    L.OutputsSplit(SameLineRaw, L.IterState(17, [L.Layout.Let(4)], None, 24, []), 2, 2);
    L.OutputsSplit(SameLineRaw, L.IterState(15, [L.Layout.Let(4)], None, 22, [L.Token.In]), 2, 4);
    L.OutputsSplit(SameLineRaw, L.IterState(11, [L.Layout.Let(4), L.Layout.Let(13)], None, 17, []), 2, 6);
    L.OutputsSplit(SameLineRaw, L.IterState(7, [L.Layout.Let(4)], Some(L.Layout.Let(0)), 12, []), 2, 8);
    L.OutputsSplit(SameLineRaw, L.IterState(5, [L.Layout.Let(4)], None, 8, []), 2, 10);
    L.OutputsSplit(SameLineRaw, L.IterState(1, [], Some(L.Layout.Let(0)), 3, []), 2, 12);
    L.OutputsSplit(SameLineRaw, L.Initial, 2, 14);
  }

  lemma SameLineCall0()
    requires L.ValidRaw(SameLineRaw)
    ensures L.NextSpec(SameLineRaw, L.Initial) == (Some(L.Ok(L.Token.Let)), L.IterState(1, [], Some(L.Layout.Let(0)), 3, [L.VLBrace]))
  {
    assert L.Consume(SameLineRaw, L.Initial) == L.Return(Some(L.Ok(L.Token.Let)), L.IterState(1, [], Some(L.Layout.Let(0)), 3, [L.VLBrace]));
  }

  lemma SameLineCall1()
    requires L.ValidRaw(SameLineRaw)
    ensures L.NextSpec(SameLineRaw, L.IterState(1, [], Some(L.Layout.Let(0)), 3, [L.VLBrace])) == (Some(L.Ok(L.VLBrace)), L.IterState(1, [], Some(L.Layout.Let(0)), 3, []))
  {
    assert [L.VLBrace][1..] == [];
  }

  lemma SameLineCall2()
    requires L.ValidRaw(SameLineRaw)
    ensures L.NextSpec(SameLineRaw, L.IterState(1, [], Some(L.Layout.Let(0)), 3, [])) == (Some(L.Ok(L.Token.Identifier("x"))), L.IterState(3, [L.Layout.Let(4)], None, 5, []))
  {
    assert L.Consume(SameLineRaw, L.IterState(1, [], Some(L.Layout.Let(0)), 3, [])) == L.Continue(L.IterState(2, [], Some(L.Layout.Let(0)), 4, []));
    assert L.Consume(SameLineRaw, L.IterState(2, [], Some(L.Layout.Let(0)), 4, [])) == L.Return(Some(L.Ok(L.Token.Identifier("x"))), L.IterState(3, [L.Layout.Let(4)], None, 5, []));
    assert L.Loop(SameLineRaw, L.IterState(1, [], Some(L.Layout.Let(0)), 3, [])) == L.Loop(SameLineRaw, L.IterState(2, [], Some(L.Layout.Let(0)), 4, []));
  }

  lemma SameLineCall3()
    requires L.ValidRaw(SameLineRaw)
    ensures L.NextSpec(SameLineRaw, L.IterState(3, [L.Layout.Let(4)], None, 5, [])) == (Some(L.Ok(L.Token.ColonEqual)), L.IterState(5, [L.Layout.Let(4)], None, 8, []))
  {
    assert L.Consume(SameLineRaw, L.IterState(3, [L.Layout.Let(4)], None, 5, [])) == L.Continue(L.IterState(4, [L.Layout.Let(4)], None, 6, []));
    assert L.Consume(SameLineRaw, L.IterState(4, [L.Layout.Let(4)], None, 6, [])) == L.Return(Some(L.Ok(L.Token.ColonEqual)), L.IterState(5, [L.Layout.Let(4)], None, 8, []));
    assert L.Loop(SameLineRaw, L.IterState(3, [L.Layout.Let(4)], None, 5, [])) == L.Loop(SameLineRaw, L.IterState(4, [L.Layout.Let(4)], None, 6, []));
  }

  lemma SameLineCall4()
    requires L.ValidRaw(SameLineRaw)
    ensures L.NextSpec(SameLineRaw, L.IterState(5, [L.Layout.Let(4)], None, 8, [])) == (Some(L.Ok(L.Token.Let)), L.IterState(7, [L.Layout.Let(4)], Some(L.Layout.Let(0)), 12, [L.VLBrace]))
  {
    assert L.Consume(SameLineRaw, L.IterState(5, [L.Layout.Let(4)], None, 8, [])) == L.Continue(L.IterState(6, [L.Layout.Let(4)], None, 9, []));
    assert L.Consume(SameLineRaw, L.IterState(6, [L.Layout.Let(4)], None, 9, [])) == L.Return(Some(L.Ok(L.Token.Let)), L.IterState(7, [L.Layout.Let(4)], Some(L.Layout.Let(0)), 12, [L.VLBrace]));
    assert L.Loop(SameLineRaw, L.IterState(5, [L.Layout.Let(4)], None, 8, [])) == L.Loop(SameLineRaw, L.IterState(6, [L.Layout.Let(4)], None, 9, []));
  }

  lemma SameLineCall5()
    requires L.ValidRaw(SameLineRaw)
    ensures L.NextSpec(SameLineRaw, L.IterState(7, [L.Layout.Let(4)], Some(L.Layout.Let(0)), 12, [L.VLBrace])) == (Some(L.Ok(L.VLBrace)), L.IterState(7, [L.Layout.Let(4)], Some(L.Layout.Let(0)), 12, []))
  {
    assert [L.VLBrace][1..] == [];
  }

  lemma SameLineCall6()
    requires L.ValidRaw(SameLineRaw)
    ensures L.NextSpec(SameLineRaw, L.IterState(7, [L.Layout.Let(4)], Some(L.Layout.Let(0)), 12, [])) == (Some(L.Ok(L.Token.Identifier("y"))), L.IterState(9, [L.Layout.Let(4), L.Layout.Let(13)], None, 14, []))
  {
    assert L.Consume(SameLineRaw, L.IterState(7, [L.Layout.Let(4)], Some(L.Layout.Let(0)), 12, [])) == L.Continue(L.IterState(8, [L.Layout.Let(4)], Some(L.Layout.Let(0)), 13, []));
    assert L.Consume(SameLineRaw, L.IterState(8, [L.Layout.Let(4)], Some(L.Layout.Let(0)), 13, [])) == L.Return(Some(L.Ok(L.Token.Identifier("y"))), L.IterState(9, [L.Layout.Let(4), L.Layout.Let(13)], None, 14, []));
    assert L.Loop(SameLineRaw, L.IterState(7, [L.Layout.Let(4)], Some(L.Layout.Let(0)), 12, [])) == L.Loop(SameLineRaw, L.IterState(8, [L.Layout.Let(4)], Some(L.Layout.Let(0)), 13, []));
  }

  lemma SameLineCall7()
    requires L.ValidRaw(SameLineRaw)
    ensures L.NextSpec(SameLineRaw, L.IterState(9, [L.Layout.Let(4), L.Layout.Let(13)], None, 14, [])) == (Some(L.Ok(L.Token.ColonEqual)), L.IterState(11, [L.Layout.Let(4), L.Layout.Let(13)], None, 17, []))
  {
    assert L.Consume(SameLineRaw, L.IterState(9, [L.Layout.Let(4), L.Layout.Let(13)], None, 14, [])) == L.Continue(L.IterState(10, [L.Layout.Let(4), L.Layout.Let(13)], None, 15, []));
    assert L.Consume(SameLineRaw, L.IterState(10, [L.Layout.Let(4), L.Layout.Let(13)], None, 15, [])) == L.Return(Some(L.Ok(L.Token.ColonEqual)), L.IterState(11, [L.Layout.Let(4), L.Layout.Let(13)], None, 17, []));
    assert L.Loop(SameLineRaw, L.IterState(9, [L.Layout.Let(4), L.Layout.Let(13)], None, 14, [])) == L.Loop(SameLineRaw, L.IterState(10, [L.Layout.Let(4), L.Layout.Let(13)], None, 15, []));
  }

  lemma SameLineCall8()
    requires L.ValidRaw(SameLineRaw)
    ensures L.NextSpec(SameLineRaw, L.IterState(11, [L.Layout.Let(4), L.Layout.Let(13)], None, 17, [])) == (Some(L.Ok(L.Token.Identifier("x"))), L.IterState(13, [L.Layout.Let(4), L.Layout.Let(13)], None, 19, []))
  {
    assert L.Consume(SameLineRaw, L.IterState(11, [L.Layout.Let(4), L.Layout.Let(13)], None, 17, [])) == L.Continue(L.IterState(12, [L.Layout.Let(4), L.Layout.Let(13)], None, 18, []));
    assert L.Consume(SameLineRaw, L.IterState(12, [L.Layout.Let(4), L.Layout.Let(13)], None, 18, [])) == L.Return(Some(L.Ok(L.Token.Identifier("x"))), L.IterState(13, [L.Layout.Let(4), L.Layout.Let(13)], None, 19, []));
    assert L.Loop(SameLineRaw, L.IterState(11, [L.Layout.Let(4), L.Layout.Let(13)], None, 17, [])) == L.Loop(SameLineRaw, L.IterState(12, [L.Layout.Let(4), L.Layout.Let(13)], None, 18, []));
  }

  lemma SameLineCall9()
    requires L.ValidRaw(SameLineRaw)
    ensures L.NextSpec(SameLineRaw, L.IterState(13, [L.Layout.Let(4), L.Layout.Let(13)], None, 19, [])) == (Some(L.Ok(L.VRBrace)), L.IterState(15, [L.Layout.Let(4)], None, 22, [L.Token.In]))
  {
    assert L.Consume(SameLineRaw, L.IterState(13, [L.Layout.Let(4), L.Layout.Let(13)], None, 19, [])) == L.Continue(L.IterState(14, [L.Layout.Let(4), L.Layout.Let(13)], None, 20, []));
    assert SameLineRaw.toks[14] == R.Spanned(20, L.RawToken.In, 22);
    assert L.Advance(L.IterState(14, [L.Layout.Let(4), L.Layout.Let(13)], None, 20, []), R.Spanned(20, L.RawToken.In, 22)) == L.IterState(15, [L.Layout.Let(4), L.Layout.Let(13)], None, 22, []);
    assert L.CloseStep(L.IterState(15, [L.Layout.Let(4), L.Layout.Let(13)], None, 22, []), false) == L.Return(Some(L.Ok(L.VRBrace)), L.IterState(15, [L.Layout.Let(4)], None, 22, [L.Token.In]));
    assert L.Consume(SameLineRaw, L.IterState(14, [L.Layout.Let(4), L.Layout.Let(13)], None, 20, [])) == L.Return(Some(L.Ok(L.VRBrace)), L.IterState(15, [L.Layout.Let(4)], None, 22, [L.Token.In]));
    assert L.Loop(SameLineRaw, L.IterState(13, [L.Layout.Let(4), L.Layout.Let(13)], None, 19, [])) == L.Loop(SameLineRaw, L.IterState(14, [L.Layout.Let(4), L.Layout.Let(13)], None, 20, []));
  }

  lemma SameLineCall10()
    requires L.ValidRaw(SameLineRaw)
    ensures L.NextSpec(SameLineRaw, L.IterState(15, [L.Layout.Let(4)], None, 22, [L.Token.In])) == (Some(L.Ok(L.Token.In)), L.IterState(15, [L.Layout.Let(4)], None, 22, []))
  {
    assert [L.Token.In][1..] == [];
  }

  lemma SameLineCall11()
    requires L.ValidRaw(SameLineRaw)
    ensures L.NextSpec(SameLineRaw, L.IterState(15, [L.Layout.Let(4)], None, 22, [])) == (Some(L.Ok(L.Token.Identifier("y"))), L.IterState(17, [L.Layout.Let(4)], None, 24, []))
  {
    assert L.Consume(SameLineRaw, L.IterState(15, [L.Layout.Let(4)], None, 22, [])) == L.Continue(L.IterState(16, [L.Layout.Let(4)], None, 23, []));
    assert L.Consume(SameLineRaw, L.IterState(16, [L.Layout.Let(4)], None, 23, [])) == L.Return(Some(L.Ok(L.Token.Identifier("y"))), L.IterState(17, [L.Layout.Let(4)], None, 24, []));
    assert L.Loop(SameLineRaw, L.IterState(15, [L.Layout.Let(4)], None, 22, [])) == L.Loop(SameLineRaw, L.IterState(16, [L.Layout.Let(4)], None, 23, []));
  }

  lemma SameLineCall12()
    requires L.ValidRaw(SameLineRaw)
    ensures L.NextSpec(SameLineRaw, L.IterState(17, [L.Layout.Let(4)], None, 24, [])) == (Some(L.Ok(L.VRBrace)), L.IterState(19, [], None, 27, [L.Token.In]))
  {
    assert L.Consume(SameLineRaw, L.IterState(17, [L.Layout.Let(4)], None, 24, [])) == L.Continue(L.IterState(18, [L.Layout.Let(4)], None, 25, []));
    assert SameLineRaw.toks[18] == R.Spanned(25, L.RawToken.In, 27);
    assert L.Advance(L.IterState(18, [L.Layout.Let(4)], None, 25, []), R.Spanned(25, L.RawToken.In, 27)) == L.IterState(19, [L.Layout.Let(4)], None, 27, []);
    assert L.CloseStep(L.IterState(19, [L.Layout.Let(4)], None, 27, []), false) == L.Return(Some(L.Ok(L.VRBrace)), L.IterState(19, [], None, 27, [L.Token.In]));
    assert L.Consume(SameLineRaw, L.IterState(18, [L.Layout.Let(4)], None, 25, [])) == L.Return(Some(L.Ok(L.VRBrace)), L.IterState(19, [], None, 27, [L.Token.In]));
    assert L.Loop(SameLineRaw, L.IterState(17, [L.Layout.Let(4)], None, 24, [])) == L.Loop(SameLineRaw, L.IterState(18, [L.Layout.Let(4)], None, 25, []));
  }

  lemma SameLineCall13()
    requires L.ValidRaw(SameLineRaw)
    ensures L.NextSpec(SameLineRaw, L.IterState(19, [], None, 27, [L.Token.In])) == (Some(L.Ok(L.Token.In)), L.IterState(19, [], None, 27, []))
  {
    assert [L.Token.In][1..] == [];
  }

  lemma SameLineCall14()
    requires L.ValidRaw(SameLineRaw)
    ensures L.NextSpec(SameLineRaw, L.IterState(19, [], None, 27, [])) == (Some(L.Ok(L.Token.Identifier("x"))), L.IterState(21, [], None, 29, []))
  {
    assert L.Consume(SameLineRaw, L.IterState(19, [], None, 27, [])) == L.Continue(L.IterState(20, [], None, 28, []));
    assert L.Consume(SameLineRaw, L.IterState(20, [], None, 28, [])) == L.Return(Some(L.Ok(L.Token.Identifier("x"))), L.IterState(21, [], None, 29, []));
    assert L.Loop(SameLineRaw, L.IterState(19, [], None, 27, [])) == L.Loop(SameLineRaw, L.IterState(20, [], None, 28, []));
  }

  lemma SameLineCall15()
    requires L.ValidRaw(SameLineRaw)
    ensures L.NextSpec(SameLineRaw, L.IterState(21, [], None, 29, [])) == (None, L.IterState(21, [], None, 29, []))
  {
    assert L.AtEnd(SameLineRaw, L.IterState(21, [], None, 29, [])) == (None, L.IterState(21, [], None, 29, []));
    assert L.Loop(SameLineRaw, L.IterState(21, [], None, 29, [])) == L.AtEnd(SameLineRaw, L.IterState(21, [], None, 29, []));
  }

  lemma SameLineCall0To2()
    requires L.ValidRaw(SameLineRaw)
    ensures L.After(SameLineRaw, L.Initial, 2) == L.IterState(1, [], Some(L.Layout.Let(0)), 3, [])
    ensures L.Outputs(SameLineRaw, L.Initial, 2) == [Some(L.Ok(L.Token.Let)), Some(L.Ok(L.VLBrace))]
  {
    assert L.Outputs(SameLineRaw, L.IterState(1, [], Some(L.Layout.Let(0)), 3, [L.VLBrace]), 1) == [Some(L.Ok(L.VLBrace))] + L.Outputs(SameLineRaw, L.IterState(1, [], Some(L.Layout.Let(0)), 3, []), 0) &&
           L.After(SameLineRaw, L.IterState(1, [], Some(L.Layout.Let(0)), 3, [L.VLBrace]), 1) == L.After(SameLineRaw, L.IterState(1, [], Some(L.Layout.Let(0)), 3, []), 0) by {
      SameLineCall1();
      L.OutputsStep(SameLineRaw, L.IterState(1, [], Some(L.Layout.Let(0)), 3, [L.VLBrace]), 1, Some(L.Ok(L.VLBrace)), L.IterState(1, [], Some(L.Layout.Let(0)), 3, []));
    }
    assert L.Outputs(SameLineRaw, L.Initial, 2) == [Some(L.Ok(L.Token.Let))] + L.Outputs(SameLineRaw, L.IterState(1, [], Some(L.Layout.Let(0)), 3, [L.VLBrace]), 1) &&
           L.After(SameLineRaw, L.Initial, 2) == L.After(SameLineRaw, L.IterState(1, [], Some(L.Layout.Let(0)), 3, [L.VLBrace]), 1) by {
      SameLineCall0();
      L.OutputsStep(SameLineRaw, L.Initial, 2, Some(L.Ok(L.Token.Let)), L.IterState(1, [], Some(L.Layout.Let(0)), 3, [L.VLBrace]));
    }
  }

  lemma SameLineCall2To4()
    requires L.ValidRaw(SameLineRaw)
    ensures L.After(SameLineRaw, L.IterState(1, [], Some(L.Layout.Let(0)), 3, []), 2) == L.IterState(5, [L.Layout.Let(4)], None, 8, [])
    ensures L.Outputs(SameLineRaw, L.IterState(1, [], Some(L.Layout.Let(0)), 3, []), 2) == [Some(L.Ok(L.Token.Identifier("x"))), Some(L.Ok(L.Token.ColonEqual))]
  {
    assert L.Outputs(SameLineRaw, L.IterState(3, [L.Layout.Let(4)], None, 5, []), 1) == [Some(L.Ok(L.Token.ColonEqual))] + L.Outputs(SameLineRaw, L.IterState(5, [L.Layout.Let(4)], None, 8, []), 0) &&
           L.After(SameLineRaw, L.IterState(3, [L.Layout.Let(4)], None, 5, []), 1) == L.After(SameLineRaw, L.IterState(5, [L.Layout.Let(4)], None, 8, []), 0) by {
      SameLineCall3();
      L.OutputsStep(SameLineRaw, L.IterState(3, [L.Layout.Let(4)], None, 5, []), 1, Some(L.Ok(L.Token.ColonEqual)), L.IterState(5, [L.Layout.Let(4)], None, 8, []));
    }
    assert L.Outputs(SameLineRaw, L.IterState(1, [], Some(L.Layout.Let(0)), 3, []), 2) == [Some(L.Ok(L.Token.Identifier("x")))] + L.Outputs(SameLineRaw, L.IterState(3, [L.Layout.Let(4)], None, 5, []), 1) &&
           L.After(SameLineRaw, L.IterState(1, [], Some(L.Layout.Let(0)), 3, []), 2) == L.After(SameLineRaw, L.IterState(3, [L.Layout.Let(4)], None, 5, []), 1) by {
      SameLineCall2();
      L.OutputsStep(SameLineRaw, L.IterState(1, [], Some(L.Layout.Let(0)), 3, []), 2, Some(L.Ok(L.Token.Identifier("x"))), L.IterState(3, [L.Layout.Let(4)], None, 5, []));
    }
  }

  lemma SameLineCall4To6()
    requires L.ValidRaw(SameLineRaw)
    ensures L.After(SameLineRaw, L.IterState(5, [L.Layout.Let(4)], None, 8, []), 2) == L.IterState(7, [L.Layout.Let(4)], Some(L.Layout.Let(0)), 12, [])
    ensures L.Outputs(SameLineRaw, L.IterState(5, [L.Layout.Let(4)], None, 8, []), 2) == [Some(L.Ok(L.Token.Let)), Some(L.Ok(L.VLBrace))]
  {
    assert L.Outputs(SameLineRaw, L.IterState(7, [L.Layout.Let(4)], Some(L.Layout.Let(0)), 12, [L.VLBrace]), 1) == [Some(L.Ok(L.VLBrace))] + L.Outputs(SameLineRaw, L.IterState(7, [L.Layout.Let(4)], Some(L.Layout.Let(0)), 12, []), 0) &&
           L.After(SameLineRaw, L.IterState(7, [L.Layout.Let(4)], Some(L.Layout.Let(0)), 12, [L.VLBrace]), 1) == L.After(SameLineRaw, L.IterState(7, [L.Layout.Let(4)], Some(L.Layout.Let(0)), 12, []), 0) by {
      SameLineCall5();
      L.OutputsStep(SameLineRaw, L.IterState(7, [L.Layout.Let(4)], Some(L.Layout.Let(0)), 12, [L.VLBrace]), 1, Some(L.Ok(L.VLBrace)), L.IterState(7, [L.Layout.Let(4)], Some(L.Layout.Let(0)), 12, []));
    }
    assert L.Outputs(SameLineRaw, L.IterState(5, [L.Layout.Let(4)], None, 8, []), 2) == [Some(L.Ok(L.Token.Let))] + L.Outputs(SameLineRaw, L.IterState(7, [L.Layout.Let(4)], Some(L.Layout.Let(0)), 12, [L.VLBrace]), 1) &&
           L.After(SameLineRaw, L.IterState(5, [L.Layout.Let(4)], None, 8, []), 2) == L.After(SameLineRaw, L.IterState(7, [L.Layout.Let(4)], Some(L.Layout.Let(0)), 12, [L.VLBrace]), 1) by {
      SameLineCall4();
      L.OutputsStep(SameLineRaw, L.IterState(5, [L.Layout.Let(4)], None, 8, []), 2, Some(L.Ok(L.Token.Let)), L.IterState(7, [L.Layout.Let(4)], Some(L.Layout.Let(0)), 12, [L.VLBrace]));
    }
  }

  lemma SameLineCall6To8()
    requires L.ValidRaw(SameLineRaw)
    ensures L.After(SameLineRaw, L.IterState(7, [L.Layout.Let(4)], Some(L.Layout.Let(0)), 12, []), 2) == L.IterState(11, [L.Layout.Let(4), L.Layout.Let(13)], None, 17, [])
    ensures L.Outputs(SameLineRaw, L.IterState(7, [L.Layout.Let(4)], Some(L.Layout.Let(0)), 12, []), 2) == [Some(L.Ok(L.Token.Identifier("y"))), Some(L.Ok(L.Token.ColonEqual))]
  {
    assert L.Outputs(SameLineRaw, L.IterState(9, [L.Layout.Let(4), L.Layout.Let(13)], None, 14, []), 1) == [Some(L.Ok(L.Token.ColonEqual))] + L.Outputs(SameLineRaw, L.IterState(11, [L.Layout.Let(4), L.Layout.Let(13)], None, 17, []), 0) &&
           L.After(SameLineRaw, L.IterState(9, [L.Layout.Let(4), L.Layout.Let(13)], None, 14, []), 1) == L.After(SameLineRaw, L.IterState(11, [L.Layout.Let(4), L.Layout.Let(13)], None, 17, []), 0) by {
      SameLineCall7();
      L.OutputsStep(SameLineRaw, L.IterState(9, [L.Layout.Let(4), L.Layout.Let(13)], None, 14, []), 1, Some(L.Ok(L.Token.ColonEqual)), L.IterState(11, [L.Layout.Let(4), L.Layout.Let(13)], None, 17, []));
    }
    assert L.Outputs(SameLineRaw, L.IterState(7, [L.Layout.Let(4)], Some(L.Layout.Let(0)), 12, []), 2) == [Some(L.Ok(L.Token.Identifier("y")))] + L.Outputs(SameLineRaw, L.IterState(9, [L.Layout.Let(4), L.Layout.Let(13)], None, 14, []), 1) &&
           L.After(SameLineRaw, L.IterState(7, [L.Layout.Let(4)], Some(L.Layout.Let(0)), 12, []), 2) == L.After(SameLineRaw, L.IterState(9, [L.Layout.Let(4), L.Layout.Let(13)], None, 14, []), 1) by {
      SameLineCall6();
      L.OutputsStep(SameLineRaw, L.IterState(7, [L.Layout.Let(4)], Some(L.Layout.Let(0)), 12, []), 2, Some(L.Ok(L.Token.Identifier("y"))), L.IterState(9, [L.Layout.Let(4), L.Layout.Let(13)], None, 14, []));
    }
  }

  lemma SameLineCall8To10()
    requires L.ValidRaw(SameLineRaw)
    ensures L.After(SameLineRaw, L.IterState(11, [L.Layout.Let(4), L.Layout.Let(13)], None, 17, []), 2) == L.IterState(15, [L.Layout.Let(4)], None, 22, [L.Token.In])
    ensures L.Outputs(SameLineRaw, L.IterState(11, [L.Layout.Let(4), L.Layout.Let(13)], None, 17, []), 2) == [Some(L.Ok(L.Token.Identifier("x"))), Some(L.Ok(L.VRBrace))]
  {
    assert L.Outputs(SameLineRaw, L.IterState(13, [L.Layout.Let(4), L.Layout.Let(13)], None, 19, []), 1) == [Some(L.Ok(L.VRBrace))] + L.Outputs(SameLineRaw, L.IterState(15, [L.Layout.Let(4)], None, 22, [L.Token.In]), 0) &&
           L.After(SameLineRaw, L.IterState(13, [L.Layout.Let(4), L.Layout.Let(13)], None, 19, []), 1) == L.After(SameLineRaw, L.IterState(15, [L.Layout.Let(4)], None, 22, [L.Token.In]), 0) by {
      SameLineCall9();
      L.OutputsStep(SameLineRaw, L.IterState(13, [L.Layout.Let(4), L.Layout.Let(13)], None, 19, []), 1, Some(L.Ok(L.VRBrace)), L.IterState(15, [L.Layout.Let(4)], None, 22, [L.Token.In]));
    }
    assert L.Outputs(SameLineRaw, L.IterState(11, [L.Layout.Let(4), L.Layout.Let(13)], None, 17, []), 2) == [Some(L.Ok(L.Token.Identifier("x")))] + L.Outputs(SameLineRaw, L.IterState(13, [L.Layout.Let(4), L.Layout.Let(13)], None, 19, []), 1) &&
           L.After(SameLineRaw, L.IterState(11, [L.Layout.Let(4), L.Layout.Let(13)], None, 17, []), 2) == L.After(SameLineRaw, L.IterState(13, [L.Layout.Let(4), L.Layout.Let(13)], None, 19, []), 1) by {
      SameLineCall8();
      L.OutputsStep(SameLineRaw, L.IterState(11, [L.Layout.Let(4), L.Layout.Let(13)], None, 17, []), 2, Some(L.Ok(L.Token.Identifier("x"))), L.IterState(13, [L.Layout.Let(4), L.Layout.Let(13)], None, 19, []));
    }
  }

  lemma SameLineCall10To12()
    requires L.ValidRaw(SameLineRaw)
    ensures L.After(SameLineRaw, L.IterState(15, [L.Layout.Let(4)], None, 22, [L.Token.In]), 2) == L.IterState(17, [L.Layout.Let(4)], None, 24, [])
    ensures L.Outputs(SameLineRaw, L.IterState(15, [L.Layout.Let(4)], None, 22, [L.Token.In]), 2) == [Some(L.Ok(L.Token.In)), Some(L.Ok(L.Token.Identifier("y")))]
  {
    assert L.Outputs(SameLineRaw, L.IterState(15, [L.Layout.Let(4)], None, 22, []), 1) == [Some(L.Ok(L.Token.Identifier("y")))] + L.Outputs(SameLineRaw, L.IterState(17, [L.Layout.Let(4)], None, 24, []), 0) &&
           L.After(SameLineRaw, L.IterState(15, [L.Layout.Let(4)], None, 22, []), 1) == L.After(SameLineRaw, L.IterState(17, [L.Layout.Let(4)], None, 24, []), 0) by {
      SameLineCall11();
      L.OutputsStep(SameLineRaw, L.IterState(15, [L.Layout.Let(4)], None, 22, []), 1, Some(L.Ok(L.Token.Identifier("y"))), L.IterState(17, [L.Layout.Let(4)], None, 24, []));
    }
    assert L.Outputs(SameLineRaw, L.IterState(15, [L.Layout.Let(4)], None, 22, [L.Token.In]), 2) == [Some(L.Ok(L.Token.In))] + L.Outputs(SameLineRaw, L.IterState(15, [L.Layout.Let(4)], None, 22, []), 1) &&
           L.After(SameLineRaw, L.IterState(15, [L.Layout.Let(4)], None, 22, [L.Token.In]), 2) == L.After(SameLineRaw, L.IterState(15, [L.Layout.Let(4)], None, 22, []), 1) by {
      SameLineCall10();
      L.OutputsStep(SameLineRaw, L.IterState(15, [L.Layout.Let(4)], None, 22, [L.Token.In]), 2, Some(L.Ok(L.Token.In)), L.IterState(15, [L.Layout.Let(4)], None, 22, []));
    }
  }

  lemma SameLineCall12To14()
    requires L.ValidRaw(SameLineRaw)
    ensures L.After(SameLineRaw, L.IterState(17, [L.Layout.Let(4)], None, 24, []), 2) == L.IterState(19, [], None, 27, [])
    ensures L.Outputs(SameLineRaw, L.IterState(17, [L.Layout.Let(4)], None, 24, []), 2) == [Some(L.Ok(L.VRBrace)), Some(L.Ok(L.Token.In))]
  {
    assert L.Outputs(SameLineRaw, L.IterState(19, [], None, 27, [L.Token.In]), 1) == [Some(L.Ok(L.Token.In))] + L.Outputs(SameLineRaw, L.IterState(19, [], None, 27, []), 0) &&
           L.After(SameLineRaw, L.IterState(19, [], None, 27, [L.Token.In]), 1) == L.After(SameLineRaw, L.IterState(19, [], None, 27, []), 0) by {
      SameLineCall13();
      L.OutputsStep(SameLineRaw, L.IterState(19, [], None, 27, [L.Token.In]), 1, Some(L.Ok(L.Token.In)), L.IterState(19, [], None, 27, []));
    }
    assert L.Outputs(SameLineRaw, L.IterState(17, [L.Layout.Let(4)], None, 24, []), 2) == [Some(L.Ok(L.VRBrace))] + L.Outputs(SameLineRaw, L.IterState(19, [], None, 27, [L.Token.In]), 1) &&
           L.After(SameLineRaw, L.IterState(17, [L.Layout.Let(4)], None, 24, []), 2) == L.After(SameLineRaw, L.IterState(19, [], None, 27, [L.Token.In]), 1) by {
      SameLineCall12();
      L.OutputsStep(SameLineRaw, L.IterState(17, [L.Layout.Let(4)], None, 24, []), 2, Some(L.Ok(L.VRBrace)), L.IterState(19, [], None, 27, [L.Token.In]));
    }
  }

  lemma SameLineCall14To16()
    requires L.ValidRaw(SameLineRaw)
    ensures L.After(SameLineRaw, L.IterState(19, [], None, 27, []), 2) == L.IterState(21, [], None, 29, [])
    ensures L.Outputs(SameLineRaw, L.IterState(19, [], None, 27, []), 2) == [Some(L.Ok(L.Token.Identifier("x"))), None]
  {
    assert L.Outputs(SameLineRaw, L.IterState(21, [], None, 29, []), 1) == [None] + L.Outputs(SameLineRaw, L.IterState(21, [], None, 29, []), 0) &&
           L.After(SameLineRaw, L.IterState(21, [], None, 29, []), 1) == L.After(SameLineRaw, L.IterState(21, [], None, 29, []), 0) by {
      SameLineCall15();
      L.OutputsStep(SameLineRaw, L.IterState(21, [], None, 29, []), 1, None, L.IterState(21, [], None, 29, []));
    }
    assert L.Outputs(SameLineRaw, L.IterState(19, [], None, 27, []), 2) == [Some(L.Ok(L.Token.Identifier("x")))] + L.Outputs(SameLineRaw, L.IterState(21, [], None, 29, []), 1) &&
           L.After(SameLineRaw, L.IterState(19, [], None, 27, []), 2) == L.After(SameLineRaw, L.IterState(21, [], None, 29, []), 1) by {
      SameLineCall14();
      L.OutputsStep(SameLineRaw, L.IterState(19, [], None, 27, []), 2, Some(L.Ok(L.Token.Identifier("x"))), L.IterState(21, [], None, 29, []));
    }
  }

  /** The raw tokens of the input of `test_nested_let`: an inner `let` closed by an `in` on the next line. */
  const NestedLetRaw: R.Stream<L.RawToken> := R.Stream(seq(22, i requires 0 <= i => NestedLetTok(i)), None)

  function NestedLetTok(i: nat): R.Spanned<L.RawToken>
  {
    if i == 0 then R.Spanned(0, L.RawToken.Indent("\n"), 1)
    else if i == 1 then R.Spanned(1, L.RawToken.Let, 4)
    else if i == 2 then R.Spanned(4, L.RawToken.Whitespace(" "), 5)
    else if i == 3 then R.Spanned(5, L.RawToken.Identifier("x"), 6)
    else if i == 4 then R.Spanned(6, L.RawToken.Whitespace(" "), 7)
    else if i == 5 then R.Spanned(7, L.RawToken.ColonEqual, 9)
    else if i == 6 then R.Spanned(9, L.RawToken.Whitespace(" "), 10)
    else if i == 7 then R.Spanned(10, L.RawToken.Let, 13)
    else if i == 8 then R.Spanned(13, L.RawToken.Whitespace(" "), 14)
    else if i == 9 then R.Spanned(14, L.RawToken.Identifier("y"), 15)
    else if i == 10 then R.Spanned(15, L.RawToken.Whitespace(" "), 16)
    else if i == 11 then R.Spanned(16, L.RawToken.ColonEqual, 18)
    else if i == 12 then R.Spanned(18, L.RawToken.Whitespace(" "), 19)
    else if i == 13 then R.Spanned(19, L.RawToken.Identifier("y"), 20)
    else if i == 14 then R.Spanned(20, L.RawToken.Indent("\n         "), 30)
    else if i == 15 then R.Spanned(30, L.RawToken.In, 32)
    else if i == 16 then R.Spanned(32, L.RawToken.Whitespace(" "), 33)
    else if i == 17 then R.Spanned(33, L.RawToken.Identifier("y"), 34)
    else if i == 18 then R.Spanned(34, L.RawToken.Indent("\n"), 35)
    else if i == 19 then R.Spanned(35, L.RawToken.In, 37)
    else if i == 20 then R.Spanned(37, L.RawToken.Whitespace(" "), 38)
    else R.Spanned(38, L.RawToken.Identifier("x"), 39)
  }

  lemma NestedLetRawValid()
    ensures L.ValidRaw(NestedLetRaw)
  {
    NestedLetRawFrom0();
    L.ValidRawOf(NestedLetRaw.toks);
  }

  lemma NestedLetRawFrom0()
    ensures R.InOrderFrom(NestedLetRaw.toks, 0, 0) && L.TextsNonEmpty(NestedLetRaw.toks, 0)
  {
    var t := NestedLetRaw.toks;
    NestedLetRawFrom3();
    assert R.InOrderFrom(t, 2, 4) && L.TextsNonEmpty(t, 2);
    assert R.InOrderFrom(t, 1, 1) && L.TextsNonEmpty(t, 1);
    assert R.InOrderFrom(t, 0, 0) && L.TextsNonEmpty(t, 0);
  }

  lemma NestedLetRawFrom3()
    ensures R.InOrderFrom(NestedLetRaw.toks, 3, 5) && L.TextsNonEmpty(NestedLetRaw.toks, 3)
  {
    var t := NestedLetRaw.toks;
    NestedLetRawFrom6();
    assert R.InOrderFrom(t, 5, 7) && L.TextsNonEmpty(t, 5);
    assert R.InOrderFrom(t, 4, 6) && L.TextsNonEmpty(t, 4);
    assert R.InOrderFrom(t, 3, 5) && L.TextsNonEmpty(t, 3);
  }

  lemma NestedLetRawFrom6()
    ensures R.InOrderFrom(NestedLetRaw.toks, 6, 9) && L.TextsNonEmpty(NestedLetRaw.toks, 6)
  {
    var t := NestedLetRaw.toks;
    NestedLetRawFrom9();
    assert R.InOrderFrom(t, 8, 13) && L.TextsNonEmpty(t, 8);
    assert R.InOrderFrom(t, 7, 10) && L.TextsNonEmpty(t, 7);
    assert R.InOrderFrom(t, 6, 9) && L.TextsNonEmpty(t, 6);
  }

  lemma NestedLetRawFrom9()
    ensures R.InOrderFrom(NestedLetRaw.toks, 9, 14) && L.TextsNonEmpty(NestedLetRaw.toks, 9)
  {
    var t := NestedLetRaw.toks;
    NestedLetRawFrom12();
    assert R.InOrderFrom(t, 11, 16) && L.TextsNonEmpty(t, 11);
    assert R.InOrderFrom(t, 10, 15) && L.TextsNonEmpty(t, 10);
    assert R.InOrderFrom(t, 9, 14) && L.TextsNonEmpty(t, 9);
  }

  lemma NestedLetRawFrom12()
    ensures R.InOrderFrom(NestedLetRaw.toks, 12, 18) && L.TextsNonEmpty(NestedLetRaw.toks, 12)
  {
    var t := NestedLetRaw.toks;
    NestedLetRawFrom15();
    assert R.InOrderFrom(t, 14, 20) && L.TextsNonEmpty(t, 14);
    assert R.InOrderFrom(t, 13, 19) && L.TextsNonEmpty(t, 13);
    assert R.InOrderFrom(t, 12, 18) && L.TextsNonEmpty(t, 12);
  }

  lemma NestedLetRawFrom15()
    ensures R.InOrderFrom(NestedLetRaw.toks, 15, 30) && L.TextsNonEmpty(NestedLetRaw.toks, 15)
  {
    var t := NestedLetRaw.toks;
    NestedLetRawFrom18();
    assert R.InOrderFrom(t, 17, 33) && L.TextsNonEmpty(t, 17);
    assert R.InOrderFrom(t, 16, 32) && L.TextsNonEmpty(t, 16);
    assert R.InOrderFrom(t, 15, 30) && L.TextsNonEmpty(t, 15);
  }

  lemma NestedLetRawFrom18()
    ensures R.InOrderFrom(NestedLetRaw.toks, 18, 34) && L.TextsNonEmpty(NestedLetRaw.toks, 18)
  {
    var t := NestedLetRaw.toks;
    NestedLetRawFrom21();
    assert R.InOrderFrom(t, 20, 37) && L.TextsNonEmpty(t, 20);
    assert R.InOrderFrom(t, 19, 35) && L.TextsNonEmpty(t, 19);
    assert R.InOrderFrom(t, 18, 34) && L.TextsNonEmpty(t, 18);
  }

  lemma NestedLetRawFrom21()
    ensures R.InOrderFrom(NestedLetRaw.toks, 21, 38) && L.TextsNonEmpty(NestedLetRaw.toks, 21)
  {
    var t := NestedLetRaw.toks;
    assert R.InOrderFrom(t, 21, 38) && L.TextsNonEmpty(t, 21);
  }

  /** The tokens `test_nested_let` (tests/layout_rules.rs:315-346) expects, then `None`. */
  lemma NestedLetExpected()
    ensures L.ValidRaw(NestedLetRaw)
    ensures L.Outputs(NestedLetRaw, L.Initial, 16) ==
            [
              Some(L.Ok(L.Token.Let)), Some(L.Ok(L.VLBrace)), Some(L.Ok(L.Token.Identifier("x"))), Some(L.Ok(L.Token.ColonEqual)),
              Some(L.Ok(L.Token.Let)), Some(L.Ok(L.VLBrace)), Some(L.Ok(L.Token.Identifier("y"))), Some(L.Ok(L.Token.ColonEqual)),
              Some(L.Ok(L.Token.Identifier("y"))), Some(L.Ok(L.VRBrace)), Some(L.Ok(L.Token.In)), Some(L.Ok(L.Token.Identifier("y"))),
              Some(L.Ok(L.VRBrace)), Some(L.Ok(L.Token.In)), Some(L.Ok(L.Token.Identifier("x"))), None]
  {
    NestedLetRawValid();
    NestedLetRuns();
    NestedLetRegroup();
  }

  lemma NestedLetRegroup()
    ensures [Some(L.Ok(L.Token.Let)), Some(L.Ok(L.VLBrace))]
            + ([Some(L.Ok(L.Token.Identifier("x"))), Some(L.Ok(L.Token.ColonEqual))]
            + ([Some(L.Ok(L.Token.Let)), Some(L.Ok(L.VLBrace))]
            + ([Some(L.Ok(L.Token.Identifier("y"))), Some(L.Ok(L.Token.ColonEqual))]
            + ([Some(L.Ok(L.Token.Identifier("y"))), Some(L.Ok(L.VRBrace))]
            + ([Some(L.Ok(L.Token.In)), Some(L.Ok(L.Token.Identifier("y")))]
            + ([Some(L.Ok(L.VRBrace)), Some(L.Ok(L.Token.In))]
            + ([Some(L.Ok(L.Token.Identifier("x"))), None]))))))) ==
            [Some(L.Ok(L.Token.Let)), Some(L.Ok(L.VLBrace)), Some(L.Ok(L.Token.Identifier("x"))), Some(L.Ok(L.Token.ColonEqual)), Some(L.Ok(L.Token.Let)), Some(L.Ok(L.VLBrace)), Some(L.Ok(L.Token.Identifier("y"))), Some(L.Ok(L.Token.ColonEqual)), Some(L.Ok(L.Token.Identifier("y"))), Some(L.Ok(L.VRBrace)), Some(L.Ok(L.Token.In)), Some(L.Ok(L.Token.Identifier("y"))), Some(L.Ok(L.VRBrace)), Some(L.Ok(L.Token.In)), Some(L.Ok(L.Token.Identifier("x"))), None]
  {
  }

  /** The run, two calls at a time. */
  lemma NestedLetRuns()
    requires L.ValidRaw(NestedLetRaw)
    ensures L.Outputs(NestedLetRaw, L.Initial, 16) ==
            [Some(L.Ok(L.Token.Let)), Some(L.Ok(L.VLBrace))]
            + ([Some(L.Ok(L.Token.Identifier("x"))), Some(L.Ok(L.Token.ColonEqual))]
            + ([Some(L.Ok(L.Token.Let)), Some(L.Ok(L.VLBrace))]
            + ([Some(L.Ok(L.Token.Identifier("y"))), Some(L.Ok(L.Token.ColonEqual))]
            + ([Some(L.Ok(L.Token.Identifier("y"))), Some(L.Ok(L.VRBrace))]
            + ([Some(L.Ok(L.Token.In)), Some(L.Ok(L.Token.Identifier("y")))]
            + ([Some(L.Ok(L.VRBrace)), Some(L.Ok(L.Token.In))]
            + ([Some(L.Ok(L.Token.Identifier("x"))), None])))))))
  {
    NestedLetCall0To2();
    NestedLetCall2To4();
    NestedLetCall4To6();
    NestedLetCall6To8();
    NestedLetCall8To10();
    NestedLetCall10To12();
    NestedLetCall12To14();
    NestedLetCall14To16();
    L.OutputsSplit(NestedLetRaw, L.IterState(20, [], None, 2, []), 2, 0);
    L.OutputsSplit(NestedLetRaw, L.IterState(18, [L.Layout.Let(4)], None, 13, []), 2, 2);
    L.OutputsSplit(NestedLetRaw, L.IterState(16, [L.Layout.Let(4)], None, 11, [L.Token.In]), 2, 4);
    L.OutputsSplit(NestedLetRaw, L.IterState(12, [L.Layout.Let(4), L.Layout.Let(13)], None, 17, []), 2, 6);
    L.OutputsSplit(NestedLetRaw, L.IterState(8, [L.Layout.Let(4)], Some(L.Layout.Let(0)), 12, []), 2, 8);
    L.OutputsSplit(NestedLetRaw, L.IterState(6, [L.Layout.Let(4)], None, 8, []), 2, 10);
    L.OutputsSplit(NestedLetRaw, L.IterState(2, [], Some(L.Layout.Let(0)), 3, []), 2, 12);
    L.OutputsSplit(NestedLetRaw, L.Initial, 2, 14);
  }

  lemma NestedLetCall0()
    requires L.ValidRaw(NestedLetRaw)
    ensures L.NextSpec(NestedLetRaw, L.Initial) == (Some(L.Ok(L.Token.Let)), L.IterState(2, [], Some(L.Layout.Let(0)), 3, [L.VLBrace]))
  {
    assert NestedLetRaw.toks[0] == R.Spanned(0, L.RawToken.Indent("\n"), 1);
    assert L.Advance(L.Initial, R.Spanned(0, L.RawToken.Indent("\n"), 1)) == L.IterState(1, [], None, 1, []);
    assert L.OnIndentStep(NestedLetRaw, 0, L.IterState(1, [], None, 1, [])) == L.Continue(L.IterState(1, [], None, 0, []));
    assert L.Consume(NestedLetRaw, L.Initial) == L.Continue(L.IterState(1, [], None, 0, []));
    assert L.Consume(NestedLetRaw, L.IterState(1, [], None, 0, [])) == L.Return(Some(L.Ok(L.Token.Let)), L.IterState(2, [], Some(L.Layout.Let(0)), 3, [L.VLBrace]));
    assert L.Loop(NestedLetRaw, L.Initial) == L.Loop(NestedLetRaw, L.IterState(1, [], None, 0, []));
  }

  lemma NestedLetCall1()
    requires L.ValidRaw(NestedLetRaw)
    ensures L.NextSpec(NestedLetRaw, L.IterState(2, [], Some(L.Layout.Let(0)), 3, [L.VLBrace])) == (Some(L.Ok(L.VLBrace)), L.IterState(2, [], Some(L.Layout.Let(0)), 3, []))
  {
    assert [L.VLBrace][1..] == [];
  }

  lemma NestedLetCall2()
    requires L.ValidRaw(NestedLetRaw)
    ensures L.NextSpec(NestedLetRaw, L.IterState(2, [], Some(L.Layout.Let(0)), 3, [])) == (Some(L.Ok(L.Token.Identifier("x"))), L.IterState(4, [L.Layout.Let(4)], None, 5, []))
  {
    assert L.Consume(NestedLetRaw, L.IterState(2, [], Some(L.Layout.Let(0)), 3, [])) == L.Continue(L.IterState(3, [], Some(L.Layout.Let(0)), 4, []));
    assert L.Consume(NestedLetRaw, L.IterState(3, [], Some(L.Layout.Let(0)), 4, [])) == L.Return(Some(L.Ok(L.Token.Identifier("x"))), L.IterState(4, [L.Layout.Let(4)], None, 5, []));
    assert L.Loop(NestedLetRaw, L.IterState(2, [], Some(L.Layout.Let(0)), 3, [])) == L.Loop(NestedLetRaw, L.IterState(3, [], Some(L.Layout.Let(0)), 4, []));
  }

  lemma NestedLetCall3()
    requires L.ValidRaw(NestedLetRaw)
    ensures L.NextSpec(NestedLetRaw, L.IterState(4, [L.Layout.Let(4)], None, 5, [])) == (Some(L.Ok(L.Token.ColonEqual)), L.IterState(6, [L.Layout.Let(4)], None, 8, []))
  {
    assert L.Consume(NestedLetRaw, L.IterState(4, [L.Layout.Let(4)], None, 5, [])) == L.Continue(L.IterState(5, [L.Layout.Let(4)], None, 6, []));
    assert L.Consume(NestedLetRaw, L.IterState(5, [L.Layout.Let(4)], None, 6, [])) == L.Return(Some(L.Ok(L.Token.ColonEqual)), L.IterState(6, [L.Layout.Let(4)], None, 8, []));
    assert L.Loop(NestedLetRaw, L.IterState(4, [L.Layout.Let(4)], None, 5, [])) == L.Loop(NestedLetRaw, L.IterState(5, [L.Layout.Let(4)], None, 6, []));
  }

  lemma NestedLetCall4()
    requires L.ValidRaw(NestedLetRaw)
    ensures L.NextSpec(NestedLetRaw, L.IterState(6, [L.Layout.Let(4)], None, 8, [])) == (Some(L.Ok(L.Token.Let)), L.IterState(8, [L.Layout.Let(4)], Some(L.Layout.Let(0)), 12, [L.VLBrace]))
  {
    assert L.Consume(NestedLetRaw, L.IterState(6, [L.Layout.Let(4)], None, 8, [])) == L.Continue(L.IterState(7, [L.Layout.Let(4)], None, 9, []));
    assert L.Consume(NestedLetRaw, L.IterState(7, [L.Layout.Let(4)], None, 9, [])) == L.Return(Some(L.Ok(L.Token.Let)), L.IterState(8, [L.Layout.Let(4)], Some(L.Layout.Let(0)), 12, [L.VLBrace]));
    assert L.Loop(NestedLetRaw, L.IterState(6, [L.Layout.Let(4)], None, 8, [])) == L.Loop(NestedLetRaw, L.IterState(7, [L.Layout.Let(4)], None, 9, []));
  }

  lemma NestedLetCall5()
    requires L.ValidRaw(NestedLetRaw)
    ensures L.NextSpec(NestedLetRaw, L.IterState(8, [L.Layout.Let(4)], Some(L.Layout.Let(0)), 12, [L.VLBrace])) == (Some(L.Ok(L.VLBrace)), L.IterState(8, [L.Layout.Let(4)], Some(L.Layout.Let(0)), 12, []))
  {
    assert [L.VLBrace][1..] == [];
  }

  lemma NestedLetCall6()
    requires L.ValidRaw(NestedLetRaw)
    ensures L.NextSpec(NestedLetRaw, L.IterState(8, [L.Layout.Let(4)], Some(L.Layout.Let(0)), 12, [])) == (Some(L.Ok(L.Token.Identifier("y"))), L.IterState(10, [L.Layout.Let(4), L.Layout.Let(13)], None, 14, []))
  {
    assert L.Consume(NestedLetRaw, L.IterState(8, [L.Layout.Let(4)], Some(L.Layout.Let(0)), 12, [])) == L.Continue(L.IterState(9, [L.Layout.Let(4)], Some(L.Layout.Let(0)), 13, []));
    assert L.Consume(NestedLetRaw, L.IterState(9, [L.Layout.Let(4)], Some(L.Layout.Let(0)), 13, [])) == L.Return(Some(L.Ok(L.Token.Identifier("y"))), L.IterState(10, [L.Layout.Let(4), L.Layout.Let(13)], None, 14, []));
    assert L.Loop(NestedLetRaw, L.IterState(8, [L.Layout.Let(4)], Some(L.Layout.Let(0)), 12, [])) == L.Loop(NestedLetRaw, L.IterState(9, [L.Layout.Let(4)], Some(L.Layout.Let(0)), 13, []));
  }

  lemma NestedLetCall7()
    requires L.ValidRaw(NestedLetRaw)
    ensures L.NextSpec(NestedLetRaw, L.IterState(10, [L.Layout.Let(4), L.Layout.Let(13)], None, 14, [])) == (Some(L.Ok(L.Token.ColonEqual)), L.IterState(12, [L.Layout.Let(4), L.Layout.Let(13)], None, 17, []))
  {
    assert L.Consume(NestedLetRaw, L.IterState(10, [L.Layout.Let(4), L.Layout.Let(13)], None, 14, [])) == L.Continue(L.IterState(11, [L.Layout.Let(4), L.Layout.Let(13)], None, 15, []));
    assert L.Consume(NestedLetRaw, L.IterState(11, [L.Layout.Let(4), L.Layout.Let(13)], None, 15, [])) == L.Return(Some(L.Ok(L.Token.ColonEqual)), L.IterState(12, [L.Layout.Let(4), L.Layout.Let(13)], None, 17, []));
    assert L.Loop(NestedLetRaw, L.IterState(10, [L.Layout.Let(4), L.Layout.Let(13)], None, 14, [])) == L.Loop(NestedLetRaw, L.IterState(11, [L.Layout.Let(4), L.Layout.Let(13)], None, 15, []));
  }

  lemma NestedLetCall8()
    requires L.ValidRaw(NestedLetRaw)
    ensures L.NextSpec(NestedLetRaw, L.IterState(12, [L.Layout.Let(4), L.Layout.Let(13)], None, 17, [])) == (Some(L.Ok(L.Token.Identifier("y"))), L.IterState(14, [L.Layout.Let(4), L.Layout.Let(13)], None, 19, []))
  {
    assert L.Consume(NestedLetRaw, L.IterState(12, [L.Layout.Let(4), L.Layout.Let(13)], None, 17, [])) == L.Continue(L.IterState(13, [L.Layout.Let(4), L.Layout.Let(13)], None, 18, []));
    assert L.Consume(NestedLetRaw, L.IterState(13, [L.Layout.Let(4), L.Layout.Let(13)], None, 18, [])) == L.Return(Some(L.Ok(L.Token.Identifier("y"))), L.IterState(14, [L.Layout.Let(4), L.Layout.Let(13)], None, 19, []));
    assert L.Loop(NestedLetRaw, L.IterState(12, [L.Layout.Let(4), L.Layout.Let(13)], None, 17, [])) == L.Loop(NestedLetRaw, L.IterState(13, [L.Layout.Let(4), L.Layout.Let(13)], None, 18, []));
  }

  lemma NestedLetCall9()
    requires L.ValidRaw(NestedLetRaw)
    ensures L.NextSpec(NestedLetRaw, L.IterState(14, [L.Layout.Let(4), L.Layout.Let(13)], None, 19, [])) == (Some(L.Ok(L.VRBrace)), L.IterState(16, [L.Layout.Let(4)], None, 11, [L.Token.In]))
  {
    assert NestedLetRaw.toks[14] == R.Spanned(20, L.RawToken.Indent("\n         "), 30);
    assert L.Advance(L.IterState(14, [L.Layout.Let(4), L.Layout.Let(13)], None, 19, []), R.Spanned(20, L.RawToken.Indent("\n         "), 30)) == L.IterState(15, [L.Layout.Let(4), L.Layout.Let(13)], None, 29, []);
    assert L.OnIndentStep(NestedLetRaw, 9, L.IterState(15, [L.Layout.Let(4), L.Layout.Let(13)], None, 29, [])) == L.Continue(L.IterState(15, [L.Layout.Let(4), L.Layout.Let(13)], None, 9, []));
    assert L.Consume(NestedLetRaw, L.IterState(14, [L.Layout.Let(4), L.Layout.Let(13)], None, 19, [])) == L.Continue(L.IterState(15, [L.Layout.Let(4), L.Layout.Let(13)], None, 9, []));
    assert NestedLetRaw.toks[15] == R.Spanned(30, L.RawToken.In, 32);
    assert L.Advance(L.IterState(15, [L.Layout.Let(4), L.Layout.Let(13)], None, 9, []), R.Spanned(30, L.RawToken.In, 32)) == L.IterState(16, [L.Layout.Let(4), L.Layout.Let(13)], None, 11, []);
    assert L.CloseStep(L.IterState(16, [L.Layout.Let(4), L.Layout.Let(13)], None, 11, []), false) == L.Return(Some(L.Ok(L.VRBrace)), L.IterState(16, [L.Layout.Let(4)], None, 11, [L.Token.In]));
    assert L.Consume(NestedLetRaw, L.IterState(15, [L.Layout.Let(4), L.Layout.Let(13)], None, 9, [])) == L.Return(Some(L.Ok(L.VRBrace)), L.IterState(16, [L.Layout.Let(4)], None, 11, [L.Token.In]));
    assert L.Loop(NestedLetRaw, L.IterState(14, [L.Layout.Let(4), L.Layout.Let(13)], None, 19, [])) == L.Loop(NestedLetRaw, L.IterState(15, [L.Layout.Let(4), L.Layout.Let(13)], None, 9, []));
  }

  lemma NestedLetCall10()
    requires L.ValidRaw(NestedLetRaw)
    ensures L.NextSpec(NestedLetRaw, L.IterState(16, [L.Layout.Let(4)], None, 11, [L.Token.In])) == (Some(L.Ok(L.Token.In)), L.IterState(16, [L.Layout.Let(4)], None, 11, []))
  {
    assert [L.Token.In][1..] == [];
  }

  lemma NestedLetCall11()
    requires L.ValidRaw(NestedLetRaw)
    ensures L.NextSpec(NestedLetRaw, L.IterState(16, [L.Layout.Let(4)], None, 11, [])) == (Some(L.Ok(L.Token.Identifier("y"))), L.IterState(18, [L.Layout.Let(4)], None, 13, []))
  {
    assert L.Consume(NestedLetRaw, L.IterState(16, [L.Layout.Let(4)], None, 11, [])) == L.Continue(L.IterState(17, [L.Layout.Let(4)], None, 12, []));
    assert L.Consume(NestedLetRaw, L.IterState(17, [L.Layout.Let(4)], None, 12, [])) == L.Return(Some(L.Ok(L.Token.Identifier("y"))), L.IterState(18, [L.Layout.Let(4)], None, 13, []));
    assert L.Loop(NestedLetRaw, L.IterState(16, [L.Layout.Let(4)], None, 11, [])) == L.Loop(NestedLetRaw, L.IterState(17, [L.Layout.Let(4)], None, 12, []));
  }

  lemma NestedLetCall12()
    requires L.ValidRaw(NestedLetRaw)
    ensures L.NextSpec(NestedLetRaw, L.IterState(18, [L.Layout.Let(4)], None, 13, [])) == (Some(L.Ok(L.VRBrace)), L.IterState(20, [], None, 2, [L.Token.In]))
  {
    assert NestedLetRaw.toks[18] == R.Spanned(34, L.RawToken.Indent("\n"), 35);
    assert L.Advance(L.IterState(18, [L.Layout.Let(4)], None, 13, []), R.Spanned(34, L.RawToken.Indent("\n"), 35)) == L.IterState(19, [L.Layout.Let(4)], None, 14, []);
    assert L.OnIndentStep(NestedLetRaw, 0, L.IterState(19, [L.Layout.Let(4)], None, 14, [])) == L.Continue(L.IterState(19, [L.Layout.Let(4)], None, 0, []));
    assert L.Consume(NestedLetRaw, L.IterState(18, [L.Layout.Let(4)], None, 13, [])) == L.Continue(L.IterState(19, [L.Layout.Let(4)], None, 0, []));
    assert NestedLetRaw.toks[19] == R.Spanned(35, L.RawToken.In, 37);
    assert L.Advance(L.IterState(19, [L.Layout.Let(4)], None, 0, []), R.Spanned(35, L.RawToken.In, 37)) == L.IterState(20, [L.Layout.Let(4)], None, 2, []);
    assert L.CloseStep(L.IterState(20, [L.Layout.Let(4)], None, 2, []), false) == L.Return(Some(L.Ok(L.VRBrace)), L.IterState(20, [], None, 2, [L.Token.In]));
    assert L.Consume(NestedLetRaw, L.IterState(19, [L.Layout.Let(4)], None, 0, [])) == L.Return(Some(L.Ok(L.VRBrace)), L.IterState(20, [], None, 2, [L.Token.In]));
    assert L.Loop(NestedLetRaw, L.IterState(18, [L.Layout.Let(4)], None, 13, [])) == L.Loop(NestedLetRaw, L.IterState(19, [L.Layout.Let(4)], None, 0, []));
  }

  lemma NestedLetCall13()
    requires L.ValidRaw(NestedLetRaw)
    ensures L.NextSpec(NestedLetRaw, L.IterState(20, [], None, 2, [L.Token.In])) == (Some(L.Ok(L.Token.In)), L.IterState(20, [], None, 2, []))
  {
    assert [L.Token.In][1..] == [];
  }

  lemma NestedLetCall14()
    requires L.ValidRaw(NestedLetRaw)
    ensures L.NextSpec(NestedLetRaw, L.IterState(20, [], None, 2, [])) == (Some(L.Ok(L.Token.Identifier("x"))), L.IterState(22, [], None, 4, []))
  {
    assert L.Consume(NestedLetRaw, L.IterState(20, [], None, 2, [])) == L.Continue(L.IterState(21, [], None, 3, []));
    assert L.Consume(NestedLetRaw, L.IterState(21, [], None, 3, [])) == L.Return(Some(L.Ok(L.Token.Identifier("x"))), L.IterState(22, [], None, 4, []));
    assert L.Loop(NestedLetRaw, L.IterState(20, [], None, 2, [])) == L.Loop(NestedLetRaw, L.IterState(21, [], None, 3, []));
  }

  lemma NestedLetCall15()
    requires L.ValidRaw(NestedLetRaw)
    ensures L.NextSpec(NestedLetRaw, L.IterState(22, [], None, 4, [])) == (None, L.IterState(22, [], None, 4, []))
  {
    assert L.AtEnd(NestedLetRaw, L.IterState(22, [], None, 4, [])) == (None, L.IterState(22, [], None, 4, []));
    assert L.Loop(NestedLetRaw, L.IterState(22, [], None, 4, [])) == L.AtEnd(NestedLetRaw, L.IterState(22, [], None, 4, []));
  }

  lemma NestedLetCall0To2()
    requires L.ValidRaw(NestedLetRaw)
    ensures L.After(NestedLetRaw, L.Initial, 2) == L.IterState(2, [], Some(L.Layout.Let(0)), 3, [])
    ensures L.Outputs(NestedLetRaw, L.Initial, 2) == [Some(L.Ok(L.Token.Let)), Some(L.Ok(L.VLBrace))]
  {
    assert L.Outputs(NestedLetRaw, L.IterState(2, [], Some(L.Layout.Let(0)), 3, [L.VLBrace]), 1) == [Some(L.Ok(L.VLBrace))] + L.Outputs(NestedLetRaw, L.IterState(2, [], Some(L.Layout.Let(0)), 3, []), 0) &&
           L.After(NestedLetRaw, L.IterState(2, [], Some(L.Layout.Let(0)), 3, [L.VLBrace]), 1) == L.After(NestedLetRaw, L.IterState(2, [], Some(L.Layout.Let(0)), 3, []), 0) by {
      NestedLetCall1();
      L.OutputsStep(NestedLetRaw, L.IterState(2, [], Some(L.Layout.Let(0)), 3, [L.VLBrace]), 1, Some(L.Ok(L.VLBrace)), L.IterState(2, [], Some(L.Layout.Let(0)), 3, []));
    }
    assert L.Outputs(NestedLetRaw, L.Initial, 2) == [Some(L.Ok(L.Token.Let))] + L.Outputs(NestedLetRaw, L.IterState(2, [], Some(L.Layout.Let(0)), 3, [L.VLBrace]), 1) &&
           L.After(NestedLetRaw, L.Initial, 2) == L.After(NestedLetRaw, L.IterState(2, [], Some(L.Layout.Let(0)), 3, [L.VLBrace]), 1) by {
      NestedLetCall0();
      L.OutputsStep(NestedLetRaw, L.Initial, 2, Some(L.Ok(L.Token.Let)), L.IterState(2, [], Some(L.Layout.Let(0)), 3, [L.VLBrace]));
    }
  }

  lemma NestedLetCall2To4()
    requires L.ValidRaw(NestedLetRaw)
    ensures L.After(NestedLetRaw, L.IterState(2, [], Some(L.Layout.Let(0)), 3, []), 2) == L.IterState(6, [L.Layout.Let(4)], None, 8, [])
    ensures L.Outputs(NestedLetRaw, L.IterState(2, [], Some(L.Layout.Let(0)), 3, []), 2) == [Some(L.Ok(L.Token.Identifier("x"))), Some(L.Ok(L.Token.ColonEqual))]
  {
    assert L.Outputs(NestedLetRaw, L.IterState(4, [L.Layout.Let(4)], None, 5, []), 1) == [Some(L.Ok(L.Token.ColonEqual))] + L.Outputs(NestedLetRaw, L.IterState(6, [L.Layout.Let(4)], None, 8, []), 0) &&
           L.After(NestedLetRaw, L.IterState(4, [L.Layout.Let(4)], None, 5, []), 1) == L.After(NestedLetRaw, L.IterState(6, [L.Layout.Let(4)], None, 8, []), 0) by {
      NestedLetCall3();
      L.OutputsStep(NestedLetRaw, L.IterState(4, [L.Layout.Let(4)], None, 5, []), 1, Some(L.Ok(L.Token.ColonEqual)), L.IterState(6, [L.Layout.Let(4)], None, 8, []));
    }
    assert L.Outputs(NestedLetRaw, L.IterState(2, [], Some(L.Layout.Let(0)), 3, []), 2) == [Some(L.Ok(L.Token.Identifier("x")))] + L.Outputs(NestedLetRaw, L.IterState(4, [L.Layout.Let(4)], None, 5, []), 1) &&
           L.After(NestedLetRaw, L.IterState(2, [], Some(L.Layout.Let(0)), 3, []), 2) == L.After(NestedLetRaw, L.IterState(4, [L.Layout.Let(4)], None, 5, []), 1) by {
      NestedLetCall2();
      L.OutputsStep(NestedLetRaw, L.IterState(2, [], Some(L.Layout.Let(0)), 3, []), 2, Some(L.Ok(L.Token.Identifier("x"))), L.IterState(4, [L.Layout.Let(4)], None, 5, []));
    }
  }

  lemma NestedLetCall4To6()
    requires L.ValidRaw(NestedLetRaw)
    ensures L.After(NestedLetRaw, L.IterState(6, [L.Layout.Let(4)], None, 8, []), 2) == L.IterState(8, [L.Layout.Let(4)], Some(L.Layout.Let(0)), 12, [])
    ensures L.Outputs(NestedLetRaw, L.IterState(6, [L.Layout.Let(4)], None, 8, []), 2) == [Some(L.Ok(L.Token.Let)), Some(L.Ok(L.VLBrace))]
  {
    assert L.Outputs(NestedLetRaw, L.IterState(8, [L.Layout.Let(4)], Some(L.Layout.Let(0)), 12, [L.VLBrace]), 1) == [Some(L.Ok(L.VLBrace))] + L.Outputs(NestedLetRaw, L.IterState(8, [L.Layout.Let(4)], Some(L.Layout.Let(0)), 12, []), 0) &&
           L.After(NestedLetRaw, L.IterState(8, [L.Layout.Let(4)], Some(L.Layout.Let(0)), 12, [L.VLBrace]), 1) == L.After(NestedLetRaw, L.IterState(8, [L.Layout.Let(4)], Some(L.Layout.Let(0)), 12, []), 0) by {
      NestedLetCall5();
      L.OutputsStep(NestedLetRaw, L.IterState(8, [L.Layout.Let(4)], Some(L.Layout.Let(0)), 12, [L.VLBrace]), 1, Some(L.Ok(L.VLBrace)), L.IterState(8, [L.Layout.Let(4)], Some(L.Layout.Let(0)), 12, []));
    }
    assert L.Outputs(NestedLetRaw, L.IterState(6, [L.Layout.Let(4)], None, 8, []), 2) == [Some(L.Ok(L.Token.Let))] + L.Outputs(NestedLetRaw, L.IterState(8, [L.Layout.Let(4)], Some(L.Layout.Let(0)), 12, [L.VLBrace]), 1) &&
           L.After(NestedLetRaw, L.IterState(6, [L.Layout.Let(4)], None, 8, []), 2) == L.After(NestedLetRaw, L.IterState(8, [L.Layout.Let(4)], Some(L.Layout.Let(0)), 12, [L.VLBrace]), 1) by {
      NestedLetCall4();
      L.OutputsStep(NestedLetRaw, L.IterState(6, [L.Layout.Let(4)], None, 8, []), 2, Some(L.Ok(L.Token.Let)), L.IterState(8, [L.Layout.Let(4)], Some(L.Layout.Let(0)), 12, [L.VLBrace]));
    }
  }

  lemma NestedLetCall6To8()
    requires L.ValidRaw(NestedLetRaw)
    ensures L.After(NestedLetRaw, L.IterState(8, [L.Layout.Let(4)], Some(L.Layout.Let(0)), 12, []), 2) == L.IterState(12, [L.Layout.Let(4), L.Layout.Let(13)], None, 17, [])
    ensures L.Outputs(NestedLetRaw, L.IterState(8, [L.Layout.Let(4)], Some(L.Layout.Let(0)), 12, []), 2) == [Some(L.Ok(L.Token.Identifier("y"))), Some(L.Ok(L.Token.ColonEqual))]
  {
    assert L.Outputs(NestedLetRaw, L.IterState(10, [L.Layout.Let(4), L.Layout.Let(13)], None, 14, []), 1) == [Some(L.Ok(L.Token.ColonEqual))] + L.Outputs(NestedLetRaw, L.IterState(12, [L.Layout.Let(4), L.Layout.Let(13)], None, 17, []), 0) &&
           L.After(NestedLetRaw, L.IterState(10, [L.Layout.Let(4), L.Layout.Let(13)], None, 14, []), 1) == L.After(NestedLetRaw, L.IterState(12, [L.Layout.Let(4), L.Layout.Let(13)], None, 17, []), 0) by {
      NestedLetCall7();
      L.OutputsStep(NestedLetRaw, L.IterState(10, [L.Layout.Let(4), L.Layout.Let(13)], None, 14, []), 1, Some(L.Ok(L.Token.ColonEqual)), L.IterState(12, [L.Layout.Let(4), L.Layout.Let(13)], None, 17, []));
    }
    assert L.Outputs(NestedLetRaw, L.IterState(8, [L.Layout.Let(4)], Some(L.Layout.Let(0)), 12, []), 2) == [Some(L.Ok(L.Token.Identifier("y")))] + L.Outputs(NestedLetRaw, L.IterState(10, [L.Layout.Let(4), L.Layout.Let(13)], None, 14, []), 1) &&
           L.After(NestedLetRaw, L.IterState(8, [L.Layout.Let(4)], Some(L.Layout.Let(0)), 12, []), 2) == L.After(NestedLetRaw, L.IterState(10, [L.Layout.Let(4), L.Layout.Let(13)], None, 14, []), 1) by {
      NestedLetCall6();
      L.OutputsStep(NestedLetRaw, L.IterState(8, [L.Layout.Let(4)], Some(L.Layout.Let(0)), 12, []), 2, Some(L.Ok(L.Token.Identifier("y"))), L.IterState(10, [L.Layout.Let(4), L.Layout.Let(13)], None, 14, []));
    }
  }

  lemma NestedLetCall8To10()
    requires L.ValidRaw(NestedLetRaw)
    ensures L.After(NestedLetRaw, L.IterState(12, [L.Layout.Let(4), L.Layout.Let(13)], None, 17, []), 2) == L.IterState(16, [L.Layout.Let(4)], None, 11, [L.Token.In])
    ensures L.Outputs(NestedLetRaw, L.IterState(12, [L.Layout.Let(4), L.Layout.Let(13)], None, 17, []), 2) == [Some(L.Ok(L.Token.Identifier("y"))), Some(L.Ok(L.VRBrace))]
  {
    assert L.Outputs(NestedLetRaw, L.IterState(14, [L.Layout.Let(4), L.Layout.Let(13)], None, 19, []), 1) == [Some(L.Ok(L.VRBrace))] + L.Outputs(NestedLetRaw, L.IterState(16, [L.Layout.Let(4)], None, 11, [L.Token.In]), 0) &&
           L.After(NestedLetRaw, L.IterState(14, [L.Layout.Let(4), L.Layout.Let(13)], None, 19, []), 1) == L.After(NestedLetRaw, L.IterState(16, [L.Layout.Let(4)], None, 11, [L.Token.In]), 0) by {
      NestedLetCall9();
      L.OutputsStep(NestedLetRaw, L.IterState(14, [L.Layout.Let(4), L.Layout.Let(13)], None, 19, []), 1, Some(L.Ok(L.VRBrace)), L.IterState(16, [L.Layout.Let(4)], None, 11, [L.Token.In]));
    }
    assert L.Outputs(NestedLetRaw, L.IterState(12, [L.Layout.Let(4), L.Layout.Let(13)], None, 17, []), 2) == [Some(L.Ok(L.Token.Identifier("y")))] + L.Outputs(NestedLetRaw, L.IterState(14, [L.Layout.Let(4), L.Layout.Let(13)], None, 19, []), 1) &&
           L.After(NestedLetRaw, L.IterState(12, [L.Layout.Let(4), L.Layout.Let(13)], None, 17, []), 2) == L.After(NestedLetRaw, L.IterState(14, [L.Layout.Let(4), L.Layout.Let(13)], None, 19, []), 1) by {
      NestedLetCall8();
      L.OutputsStep(NestedLetRaw, L.IterState(12, [L.Layout.Let(4), L.Layout.Let(13)], None, 17, []), 2, Some(L.Ok(L.Token.Identifier("y"))), L.IterState(14, [L.Layout.Let(4), L.Layout.Let(13)], None, 19, []));
    }
  }

  lemma NestedLetCall10To12()
    requires L.ValidRaw(NestedLetRaw)
    ensures L.After(NestedLetRaw, L.IterState(16, [L.Layout.Let(4)], None, 11, [L.Token.In]), 2) == L.IterState(18, [L.Layout.Let(4)], None, 13, [])
    ensures L.Outputs(NestedLetRaw, L.IterState(16, [L.Layout.Let(4)], None, 11, [L.Token.In]), 2) == [Some(L.Ok(L.Token.In)), Some(L.Ok(L.Token.Identifier("y")))]
  {
    assert L.Outputs(NestedLetRaw, L.IterState(16, [L.Layout.Let(4)], None, 11, []), 1) == [Some(L.Ok(L.Token.Identifier("y")))] + L.Outputs(NestedLetRaw, L.IterState(18, [L.Layout.Let(4)], None, 13, []), 0) &&
           L.After(NestedLetRaw, L.IterState(16, [L.Layout.Let(4)], None, 11, []), 1) == L.After(NestedLetRaw, L.IterState(18, [L.Layout.Let(4)], None, 13, []), 0) by {
      NestedLetCall11();
      L.OutputsStep(NestedLetRaw, L.IterState(16, [L.Layout.Let(4)], None, 11, []), 1, Some(L.Ok(L.Token.Identifier("y"))), L.IterState(18, [L.Layout.Let(4)], None, 13, []));
    }
    assert L.Outputs(NestedLetRaw, L.IterState(16, [L.Layout.Let(4)], None, 11, [L.Token.In]), 2) == [Some(L.Ok(L.Token.In))] + L.Outputs(NestedLetRaw, L.IterState(16, [L.Layout.Let(4)], None, 11, []), 1) &&
           L.After(NestedLetRaw, L.IterState(16, [L.Layout.Let(4)], None, 11, [L.Token.In]), 2) == L.After(NestedLetRaw, L.IterState(16, [L.Layout.Let(4)], None, 11, []), 1) by {
      NestedLetCall10();
      L.OutputsStep(NestedLetRaw, L.IterState(16, [L.Layout.Let(4)], None, 11, [L.Token.In]), 2, Some(L.Ok(L.Token.In)), L.IterState(16, [L.Layout.Let(4)], None, 11, []));
    }
  }

  lemma NestedLetCall12To14()
    requires L.ValidRaw(NestedLetRaw)
    ensures L.After(NestedLetRaw, L.IterState(18, [L.Layout.Let(4)], None, 13, []), 2) == L.IterState(20, [], None, 2, [])
    ensures L.Outputs(NestedLetRaw, L.IterState(18, [L.Layout.Let(4)], None, 13, []), 2) == [Some(L.Ok(L.VRBrace)), Some(L.Ok(L.Token.In))]
  {
    assert L.Outputs(NestedLetRaw, L.IterState(20, [], None, 2, [L.Token.In]), 1) == [Some(L.Ok(L.Token.In))] + L.Outputs(NestedLetRaw, L.IterState(20, [], None, 2, []), 0) &&
           L.After(NestedLetRaw, L.IterState(20, [], None, 2, [L.Token.In]), 1) == L.After(NestedLetRaw, L.IterState(20, [], None, 2, []), 0) by {
      NestedLetCall13();
      L.OutputsStep(NestedLetRaw, L.IterState(20, [], None, 2, [L.Token.In]), 1, Some(L.Ok(L.Token.In)), L.IterState(20, [], None, 2, []));
    }
    assert L.Outputs(NestedLetRaw, L.IterState(18, [L.Layout.Let(4)], None, 13, []), 2) == [Some(L.Ok(L.VRBrace))] + L.Outputs(NestedLetRaw, L.IterState(20, [], None, 2, [L.Token.In]), 1) &&
           L.After(NestedLetRaw, L.IterState(18, [L.Layout.Let(4)], None, 13, []), 2) == L.After(NestedLetRaw, L.IterState(20, [], None, 2, [L.Token.In]), 1) by {
      NestedLetCall12();
      L.OutputsStep(NestedLetRaw, L.IterState(18, [L.Layout.Let(4)], None, 13, []), 2, Some(L.Ok(L.VRBrace)), L.IterState(20, [], None, 2, [L.Token.In]));
    }
  }

  lemma NestedLetCall14To16()
    requires L.ValidRaw(NestedLetRaw)
    ensures L.After(NestedLetRaw, L.IterState(20, [], None, 2, []), 2) == L.IterState(22, [], None, 4, [])
    ensures L.Outputs(NestedLetRaw, L.IterState(20, [], None, 2, []), 2) == [Some(L.Ok(L.Token.Identifier("x"))), None]
  {
    assert L.Outputs(NestedLetRaw, L.IterState(22, [], None, 4, []), 1) == [None] + L.Outputs(NestedLetRaw, L.IterState(22, [], None, 4, []), 0) &&
           L.After(NestedLetRaw, L.IterState(22, [], None, 4, []), 1) == L.After(NestedLetRaw, L.IterState(22, [], None, 4, []), 0) by {
      NestedLetCall15();
      L.OutputsStep(NestedLetRaw, L.IterState(22, [], None, 4, []), 1, None, L.IterState(22, [], None, 4, []));
    }
    assert L.Outputs(NestedLetRaw, L.IterState(20, [], None, 2, []), 2) == [Some(L.Ok(L.Token.Identifier("x")))] + L.Outputs(NestedLetRaw, L.IterState(22, [], None, 4, []), 1) &&
           L.After(NestedLetRaw, L.IterState(20, [], None, 2, []), 2) == L.After(NestedLetRaw, L.IterState(22, [], None, 4, []), 1) by {
      NestedLetCall14();
      L.OutputsStep(NestedLetRaw, L.IterState(20, [], None, 2, []), 2, Some(L.Ok(L.Token.Identifier("x"))), L.IterState(22, [], None, 4, []));
    }
  }

  /** The raw tokens of the input of `test_by_layout`: nested `by` blocks closed by smaller indentations,
      and at the end of input. */
  const ByLayoutRaw: R.Stream<L.RawToken> := R.Stream(seq(31, i requires 0 <= i => ByLayoutTok(i)), None)

  function ByLayoutTok(i: nat): R.Spanned<L.RawToken>
  {
    if i == 0 then R.Spanned(0, L.RawToken.Indent("\n"), 1)
    else if i == 1 then R.Spanned(1, L.RawToken.By, 3)
    else if i == 2 then R.Spanned(3, L.RawToken.Whitespace(" "), 4)
    else if i == 3 then R.Spanned(4, L.RawToken.Identifier("foo"), 7)
    else if i == 4 then R.Spanned(7, L.RawToken.Whitespace(" "), 8)
    else if i == 5 then R.Spanned(8, L.RawToken.By, 10)
    else if i == 6 then R.Spanned(10, L.RawToken.Indent("\n  "), 13)
    else if i == 7 then R.Spanned(13, L.RawToken.Identifier("x"), 14)
    else if i == 8 then R.Spanned(14, L.RawToken.Indent("\n    "), 19)
    else if i == 9 then R.Spanned(19, L.RawToken.Identifier("y"), 20)
    else if i == 10 then R.Spanned(20, L.RawToken.Indent("\n  "), 23)
    else if i == 11 then R.Spanned(23, L.RawToken.Identifier("z"), 24)
    else if i == 12 then R.Spanned(24, L.RawToken.Indent("\n"), 25)
    else if i == 13 then R.Spanned(60, L.RawToken.Indent("\n"), 61)
    else if i == 14 then R.Spanned(61, L.RawToken.Identifier("bar"), 64)
    else if i == 15 then R.Spanned(64, L.RawToken.Whitespace(" "), 65)
    else if i == 16 then R.Spanned(65, L.RawToken.By, 67)
    else if i == 17 then R.Spanned(67, L.RawToken.Whitespace(" "), 68)
    else if i == 18 then R.Spanned(68, L.RawToken.Identifier("foo"), 71)
    else if i == 19 then R.Spanned(71, L.RawToken.Whitespace(" "), 72)
    else if i == 20 then R.Spanned(72, L.RawToken.By, 74)
    else if i == 21 then R.Spanned(74, L.RawToken.Indent("\n            "), 87)
    else if i == 22 then R.Spanned(87, L.RawToken.Identifier("x"), 88)
    else if i == 23 then R.Spanned(88, L.RawToken.Indent("\n                "), 105)
    else if i == 24 then R.Spanned(105, L.RawToken.Identifier("y"), 106)
    else if i == 25 then R.Spanned(106, L.RawToken.Indent("\n            "), 119)
    else if i == 26 then R.Spanned(119, L.RawToken.Identifier("z"), 120)
    else if i == 27 then R.Spanned(120, L.RawToken.Indent("\n       "), 128)
    else if i == 28 then R.Spanned(162, L.RawToken.Indent("\n       "), 170)
    else if i == 29 then R.Spanned(170, L.RawToken.Identifier("bar"), 173)
    else R.Spanned(173, L.RawToken.Indent("\n"), 174)
  }

  lemma ByLayoutRawValid()
    ensures L.ValidRaw(ByLayoutRaw)
  {
    ByLayoutRawFrom0();
    L.ValidRawOf(ByLayoutRaw.toks);
  }

  lemma ByLayoutRawFrom0()
    ensures R.InOrderFrom(ByLayoutRaw.toks, 0, 0) && L.TextsNonEmpty(ByLayoutRaw.toks, 0)
  {
    var t := ByLayoutRaw.toks;
    ByLayoutRawFrom3();
    assert R.InOrderFrom(t, 2, 3) && L.TextsNonEmpty(t, 2);
    assert R.InOrderFrom(t, 1, 1) && L.TextsNonEmpty(t, 1);
    assert R.InOrderFrom(t, 0, 0) && L.TextsNonEmpty(t, 0);
  }

  lemma ByLayoutRawFrom3()
    ensures R.InOrderFrom(ByLayoutRaw.toks, 3, 4) && L.TextsNonEmpty(ByLayoutRaw.toks, 3)
  {
    var t := ByLayoutRaw.toks;
    ByLayoutRawFrom6();
    assert R.InOrderFrom(t, 5, 8) && L.TextsNonEmpty(t, 5);
    assert R.InOrderFrom(t, 4, 7) && L.TextsNonEmpty(t, 4);
    assert R.InOrderFrom(t, 3, 4) && L.TextsNonEmpty(t, 3);
  }

  lemma ByLayoutRawFrom6()
    ensures R.InOrderFrom(ByLayoutRaw.toks, 6, 10) && L.TextsNonEmpty(ByLayoutRaw.toks, 6)
  {
    var t := ByLayoutRaw.toks;
    ByLayoutRawFrom9();
    assert R.InOrderFrom(t, 8, 14) && L.TextsNonEmpty(t, 8);
    assert R.InOrderFrom(t, 7, 13) && L.TextsNonEmpty(t, 7);
    assert R.InOrderFrom(t, 6, 10) && L.TextsNonEmpty(t, 6);
  }

  lemma ByLayoutRawFrom9()
    ensures R.InOrderFrom(ByLayoutRaw.toks, 9, 19) && L.TextsNonEmpty(ByLayoutRaw.toks, 9)
  {
    var t := ByLayoutRaw.toks;
    ByLayoutRawFrom12();
    assert R.InOrderFrom(t, 11, 23) && L.TextsNonEmpty(t, 11);
    assert R.InOrderFrom(t, 10, 20) && L.TextsNonEmpty(t, 10);
    assert R.InOrderFrom(t, 9, 19) && L.TextsNonEmpty(t, 9);
  }

  lemma ByLayoutRawFrom12()
    ensures R.InOrderFrom(ByLayoutRaw.toks, 12, 24) && L.TextsNonEmpty(ByLayoutRaw.toks, 12)
  {
    var t := ByLayoutRaw.toks;
    ByLayoutRawFrom15();
    assert R.InOrderFrom(t, 14, 61) && L.TextsNonEmpty(t, 14);
    assert R.InOrderFrom(t, 13, 25) && L.TextsNonEmpty(t, 13);
    assert R.InOrderFrom(t, 12, 24) && L.TextsNonEmpty(t, 12);
  }

  lemma ByLayoutRawFrom15()
    ensures R.InOrderFrom(ByLayoutRaw.toks, 15, 64) && L.TextsNonEmpty(ByLayoutRaw.toks, 15)
  {
    var t := ByLayoutRaw.toks;
    ByLayoutRawFrom18();
    assert R.InOrderFrom(t, 17, 67) && L.TextsNonEmpty(t, 17);
    assert R.InOrderFrom(t, 16, 65) && L.TextsNonEmpty(t, 16);
    assert R.InOrderFrom(t, 15, 64) && L.TextsNonEmpty(t, 15);
  }

  lemma ByLayoutRawFrom18()
    ensures R.InOrderFrom(ByLayoutRaw.toks, 18, 68) && L.TextsNonEmpty(ByLayoutRaw.toks, 18)
  {
    var t := ByLayoutRaw.toks;
    ByLayoutRawFrom21();
    assert R.InOrderFrom(t, 20, 72) && L.TextsNonEmpty(t, 20);
    assert R.InOrderFrom(t, 19, 71) && L.TextsNonEmpty(t, 19);
    assert R.InOrderFrom(t, 18, 68) && L.TextsNonEmpty(t, 18);
  }

  lemma ByLayoutRawFrom21()
    ensures R.InOrderFrom(ByLayoutRaw.toks, 21, 74) && L.TextsNonEmpty(ByLayoutRaw.toks, 21)
  {
    var t := ByLayoutRaw.toks;
    ByLayoutRawFrom24();
    assert R.InOrderFrom(t, 23, 88) && L.TextsNonEmpty(t, 23);
    assert R.InOrderFrom(t, 22, 87) && L.TextsNonEmpty(t, 22);
    assert R.InOrderFrom(t, 21, 74) && L.TextsNonEmpty(t, 21);
  }

  lemma ByLayoutRawFrom24()
    ensures R.InOrderFrom(ByLayoutRaw.toks, 24, 105) && L.TextsNonEmpty(ByLayoutRaw.toks, 24)
  {
    var t := ByLayoutRaw.toks;
    ByLayoutRawFrom27();
    assert R.InOrderFrom(t, 26, 119) && L.TextsNonEmpty(t, 26);
    assert R.InOrderFrom(t, 25, 106) && L.TextsNonEmpty(t, 25);
    assert R.InOrderFrom(t, 24, 105) && L.TextsNonEmpty(t, 24);
  }

  lemma ByLayoutRawFrom27()
    ensures R.InOrderFrom(ByLayoutRaw.toks, 27, 120) && L.TextsNonEmpty(ByLayoutRaw.toks, 27)
  {
    var t := ByLayoutRaw.toks;
    ByLayoutRawFrom30();
    assert R.InOrderFrom(t, 29, 170) && L.TextsNonEmpty(t, 29);
    assert R.InOrderFrom(t, 28, 128) && L.TextsNonEmpty(t, 28);
    assert R.InOrderFrom(t, 27, 120) && L.TextsNonEmpty(t, 27);
  }

  lemma ByLayoutRawFrom30()
    ensures R.InOrderFrom(ByLayoutRaw.toks, 30, 173) && L.TextsNonEmpty(ByLayoutRaw.toks, 30)
  {
    var t := ByLayoutRaw.toks;
    assert R.InOrderFrom(t, 30, 173) && L.TextsNonEmpty(t, 30);
  }

  /** The tokens `test_by_layout` (tests/layout_rules.rs:348-396) expects, then `None`. */
  lemma ByLayoutExpected()
    ensures L.ValidRaw(ByLayoutRaw)
    ensures L.Outputs(ByLayoutRaw, L.Initial, 25) ==
            [
              Some(L.Ok(L.Token.By)), Some(L.Ok(L.VLBrace)), Some(L.Ok(L.Token.Identifier("foo"))), Some(L.Ok(L.Token.By)),
              Some(L.Ok(L.VLBrace)), Some(L.Ok(L.Token.Identifier("x"))), Some(L.Ok(L.Token.Identifier("y"))), Some(L.Ok(L.VSemicolon)),
              Some(L.Ok(L.Token.Identifier("z"))), Some(L.Ok(L.VRBrace)), Some(L.Ok(L.VRBrace)), Some(L.Ok(L.Token.Identifier("bar"))),
              Some(L.Ok(L.Token.By)), Some(L.Ok(L.VLBrace)), Some(L.Ok(L.Token.Identifier("foo"))), Some(L.Ok(L.Token.By)),
              Some(L.Ok(L.VLBrace)), Some(L.Ok(L.Token.Identifier("x"))), Some(L.Ok(L.Token.Identifier("y"))), Some(L.Ok(L.VSemicolon)),
              Some(L.Ok(L.Token.Identifier("z"))), Some(L.Ok(L.VRBrace)), Some(L.Ok(L.Token.Identifier("bar"))), Some(L.Ok(L.VRBrace)),
              None]
  {
    ByLayoutRawValid();
    ByLayoutRuns();
    ByLayoutRegroup();
  }

  lemma ByLayoutRegroup()
    ensures [Some(L.Ok(L.Token.By)), Some(L.Ok(L.VLBrace))]
            + ([Some(L.Ok(L.Token.Identifier("foo"))), Some(L.Ok(L.Token.By))]
            + ([Some(L.Ok(L.VLBrace)), Some(L.Ok(L.Token.Identifier("x")))]
            + ([Some(L.Ok(L.Token.Identifier("y"))), Some(L.Ok(L.VSemicolon))]
            + ([Some(L.Ok(L.Token.Identifier("z"))), Some(L.Ok(L.VRBrace))]
            + ([Some(L.Ok(L.VRBrace)), Some(L.Ok(L.Token.Identifier("bar")))]
            + ([Some(L.Ok(L.Token.By)), Some(L.Ok(L.VLBrace))]
            + ([Some(L.Ok(L.Token.Identifier("foo"))), Some(L.Ok(L.Token.By))]
            + ([Some(L.Ok(L.VLBrace)), Some(L.Ok(L.Token.Identifier("x")))]
            + ([Some(L.Ok(L.Token.Identifier("y"))), Some(L.Ok(L.VSemicolon))]
            + ([Some(L.Ok(L.Token.Identifier("z"))), Some(L.Ok(L.VRBrace))]
            + ([Some(L.Ok(L.Token.Identifier("bar"))), Some(L.Ok(L.VRBrace))]
            + ([None])))))))))))) ==
            [Some(L.Ok(L.Token.By)), Some(L.Ok(L.VLBrace)), Some(L.Ok(L.Token.Identifier("foo"))), Some(L.Ok(L.Token.By)), Some(L.Ok(L.VLBrace)), Some(L.Ok(L.Token.Identifier("x"))), Some(L.Ok(L.Token.Identifier("y"))), Some(L.Ok(L.VSemicolon)), Some(L.Ok(L.Token.Identifier("z"))), Some(L.Ok(L.VRBrace)), Some(L.Ok(L.VRBrace)), Some(L.Ok(L.Token.Identifier("bar"))), Some(L.Ok(L.Token.By)), Some(L.Ok(L.VLBrace)), Some(L.Ok(L.Token.Identifier("foo"))), Some(L.Ok(L.Token.By)), Some(L.Ok(L.VLBrace)), Some(L.Ok(L.Token.Identifier("x"))), Some(L.Ok(L.Token.Identifier("y"))), Some(L.Ok(L.VSemicolon)), Some(L.Ok(L.Token.Identifier("z"))), Some(L.Ok(L.VRBrace)), Some(L.Ok(L.Token.Identifier("bar"))), Some(L.Ok(L.VRBrace)), None]
  {
  }

  /** The run, two calls at a time. */
  lemma ByLayoutRuns()
    requires L.ValidRaw(ByLayoutRaw)
    ensures L.Outputs(ByLayoutRaw, L.Initial, 25) ==
            [Some(L.Ok(L.Token.By)), Some(L.Ok(L.VLBrace))]
            + ([Some(L.Ok(L.Token.Identifier("foo"))), Some(L.Ok(L.Token.By))]
            + ([Some(L.Ok(L.VLBrace)), Some(L.Ok(L.Token.Identifier("x")))]
            + ([Some(L.Ok(L.Token.Identifier("y"))), Some(L.Ok(L.VSemicolon))]
            + ([Some(L.Ok(L.Token.Identifier("z"))), Some(L.Ok(L.VRBrace))]
            + ([Some(L.Ok(L.VRBrace)), Some(L.Ok(L.Token.Identifier("bar")))]
            + ([Some(L.Ok(L.Token.By)), Some(L.Ok(L.VLBrace))]
            + ([Some(L.Ok(L.Token.Identifier("foo"))), Some(L.Ok(L.Token.By))]
            + ([Some(L.Ok(L.VLBrace)), Some(L.Ok(L.Token.Identifier("x")))]
            + ([Some(L.Ok(L.Token.Identifier("y"))), Some(L.Ok(L.VSemicolon))]
            + ([Some(L.Ok(L.Token.Identifier("z"))), Some(L.Ok(L.VRBrace))]
            + ([Some(L.Ok(L.Token.Identifier("bar"))), Some(L.Ok(L.VRBrace))]
            + ([None]))))))))))))
  {
    ByLayoutCall0To2();
    ByLayoutCall2To4();
    ByLayoutCall4To6();
    ByLayoutCall6To8();
    ByLayoutCall8To10();
    ByLayoutCall10To12();
    ByLayoutCall12To14();
    ByLayoutCall14To16();
    ByLayoutCall16To18();
    ByLayoutCall18To20();
    ByLayoutCall20To22();
    ByLayoutCall22To24();
    ByLayoutCall24To25();
    L.OutputsSplit(ByLayoutRaw, L.IterState(31, [], None, 0, []), 1, 0);
    L.OutputsSplit(ByLayoutRaw, L.IterState(29, [L.Other(7)], None, 7, []), 2, 1);
    L.OutputsSplit(ByLayoutRaw, L.IterState(26, [L.Other(7), L.Other(12)], None, 12, []), 2, 3);
    L.OutputsSplit(ByLayoutRaw, L.IterState(23, [L.Other(7), L.Other(12)], None, 13, []), 2, 5);
    L.OutputsSplit(ByLayoutRaw, L.IterState(21, [L.Other(7)], Some(L.Other(0)), 13, [L.VLBrace]), 2, 7);
    L.OutputsSplit(ByLayoutRaw, L.IterState(17, [], Some(L.Other(0)), 6, []), 2, 9);
    L.OutputsSplit(ByLayoutRaw, L.IterState(15, [], None, 3, []), 2, 11);
    L.OutputsSplit(ByLayoutRaw, L.IterState(14, [], None, 0, [L.VRBrace]), 2, 13);
    L.OutputsSplit(ByLayoutRaw, L.IterState(11, [L.Other(3), L.Other(2)], None, 2, []), 2, 15);
    L.OutputsSplit(ByLayoutRaw, L.IterState(8, [L.Other(3), L.Other(2)], None, 3, []), 2, 17);
    L.OutputsSplit(ByLayoutRaw, L.IterState(6, [L.Other(3)], Some(L.Other(0)), 9, [L.VLBrace]), 2, 19);
    L.OutputsSplit(ByLayoutRaw, L.IterState(2, [], Some(L.Other(0)), 2, []), 2, 21);
    L.OutputsSplit(ByLayoutRaw, L.Initial, 2, 23);
  }

  lemma ByLayoutCall0()
    requires L.ValidRaw(ByLayoutRaw)
    ensures L.NextSpec(ByLayoutRaw, L.Initial) == (Some(L.Ok(L.Token.By)), L.IterState(2, [], Some(L.Other(0)), 2, [L.VLBrace]))
  {
    assert ByLayoutRaw.toks[0] == R.Spanned(0, L.RawToken.Indent("\n"), 1);
    assert L.Advance(L.Initial, R.Spanned(0, L.RawToken.Indent("\n"), 1)) == L.IterState(1, [], None, 1, []);
    assert L.OnIndentStep(ByLayoutRaw, 0, L.IterState(1, [], None, 1, [])) == L.Continue(L.IterState(1, [], None, 0, []));
    assert L.Consume(ByLayoutRaw, L.Initial) == L.Continue(L.IterState(1, [], None, 0, []));
    assert L.Consume(ByLayoutRaw, L.IterState(1, [], None, 0, [])) == L.Return(Some(L.Ok(L.Token.By)), L.IterState(2, [], Some(L.Other(0)), 2, [L.VLBrace]));
    assert L.Loop(ByLayoutRaw, L.Initial) == L.Loop(ByLayoutRaw, L.IterState(1, [], None, 0, []));
  }

  lemma ByLayoutCall1()
    requires L.ValidRaw(ByLayoutRaw)
    ensures L.NextSpec(ByLayoutRaw, L.IterState(2, [], Some(L.Other(0)), 2, [L.VLBrace])) == (Some(L.Ok(L.VLBrace)), L.IterState(2, [], Some(L.Other(0)), 2, []))
  {
    assert [L.VLBrace][1..] == [];
  }

  lemma ByLayoutCall2()
    requires L.ValidRaw(ByLayoutRaw)
    ensures L.NextSpec(ByLayoutRaw, L.IterState(2, [], Some(L.Other(0)), 2, [])) == (Some(L.Ok(L.Token.Identifier("foo"))), L.IterState(4, [L.Other(3)], None, 6, []))
  {
    assert L.Consume(ByLayoutRaw, L.IterState(2, [], Some(L.Other(0)), 2, [])) == L.Continue(L.IterState(3, [], Some(L.Other(0)), 3, []));
    assert L.Consume(ByLayoutRaw, L.IterState(3, [], Some(L.Other(0)), 3, [])) == L.Return(Some(L.Ok(L.Token.Identifier("foo"))), L.IterState(4, [L.Other(3)], None, 6, []));
    assert L.Loop(ByLayoutRaw, L.IterState(2, [], Some(L.Other(0)), 2, [])) == L.Loop(ByLayoutRaw, L.IterState(3, [], Some(L.Other(0)), 3, []));
  }

  lemma ByLayoutCall3()
    requires L.ValidRaw(ByLayoutRaw)
    ensures L.NextSpec(ByLayoutRaw, L.IterState(4, [L.Other(3)], None, 6, [])) == (Some(L.Ok(L.Token.By)), L.IterState(6, [L.Other(3)], Some(L.Other(0)), 9, [L.VLBrace]))
  {
    assert L.Consume(ByLayoutRaw, L.IterState(4, [L.Other(3)], None, 6, [])) == L.Continue(L.IterState(5, [L.Other(3)], None, 7, []));
    assert L.Consume(ByLayoutRaw, L.IterState(5, [L.Other(3)], None, 7, [])) == L.Return(Some(L.Ok(L.Token.By)), L.IterState(6, [L.Other(3)], Some(L.Other(0)), 9, [L.VLBrace]));
    assert L.Loop(ByLayoutRaw, L.IterState(4, [L.Other(3)], None, 6, [])) == L.Loop(ByLayoutRaw, L.IterState(5, [L.Other(3)], None, 7, []));
  }

  lemma ByLayoutCall4()
    requires L.ValidRaw(ByLayoutRaw)
    ensures L.NextSpec(ByLayoutRaw, L.IterState(6, [L.Other(3)], Some(L.Other(0)), 9, [L.VLBrace])) == (Some(L.Ok(L.VLBrace)), L.IterState(6, [L.Other(3)], Some(L.Other(0)), 9, []))
  {
    assert [L.VLBrace][1..] == [];
  }

  lemma ByLayoutCall5()
    requires L.ValidRaw(ByLayoutRaw)
    ensures L.NextSpec(ByLayoutRaw, L.IterState(6, [L.Other(3)], Some(L.Other(0)), 9, [])) == (Some(L.Ok(L.Token.Identifier("x"))), L.IterState(8, [L.Other(3), L.Other(2)], None, 3, []))
  {
    assert ByLayoutRaw.toks[6] == R.Spanned(10, L.RawToken.Indent("\n  "), 13);
    assert L.Advance(L.IterState(6, [L.Other(3)], Some(L.Other(0)), 9, []), R.Spanned(10, L.RawToken.Indent("\n  "), 13)) == L.IterState(7, [L.Other(3)], Some(L.Other(0)), 12, []);
    assert L.OnIndentStep(ByLayoutRaw, 2, L.IterState(7, [L.Other(3)], Some(L.Other(0)), 12, [])) == L.Continue(L.IterState(7, [L.Other(3)], Some(L.Other(0)), 2, []));
    assert L.Consume(ByLayoutRaw, L.IterState(6, [L.Other(3)], Some(L.Other(0)), 9, [])) == L.Continue(L.IterState(7, [L.Other(3)], Some(L.Other(0)), 2, []));
    assert L.Consume(ByLayoutRaw, L.IterState(7, [L.Other(3)], Some(L.Other(0)), 2, [])) == L.Return(Some(L.Ok(L.Token.Identifier("x"))), L.IterState(8, [L.Other(3), L.Other(2)], None, 3, []));
    assert L.Loop(ByLayoutRaw, L.IterState(6, [L.Other(3)], Some(L.Other(0)), 9, [])) == L.Loop(ByLayoutRaw, L.IterState(7, [L.Other(3)], Some(L.Other(0)), 2, []));
  }

  lemma ByLayoutCall6()
    requires L.ValidRaw(ByLayoutRaw)
    ensures L.NextSpec(ByLayoutRaw, L.IterState(8, [L.Other(3), L.Other(2)], None, 3, [])) == (Some(L.Ok(L.Token.Identifier("y"))), L.IterState(10, [L.Other(3), L.Other(2)], None, 5, []))
  {
    assert ByLayoutRaw.toks[8] == R.Spanned(14, L.RawToken.Indent("\n    "), 19);
    assert L.Advance(L.IterState(8, [L.Other(3), L.Other(2)], None, 3, []), R.Spanned(14, L.RawToken.Indent("\n    "), 19)) == L.IterState(9, [L.Other(3), L.Other(2)], None, 8, []);
    assert L.OnIndentStep(ByLayoutRaw, 4, L.IterState(9, [L.Other(3), L.Other(2)], None, 8, [])) == L.Continue(L.IterState(9, [L.Other(3), L.Other(2)], None, 4, []));
    assert L.Consume(ByLayoutRaw, L.IterState(8, [L.Other(3), L.Other(2)], None, 3, [])) == L.Continue(L.IterState(9, [L.Other(3), L.Other(2)], None, 4, []));
    assert L.Consume(ByLayoutRaw, L.IterState(9, [L.Other(3), L.Other(2)], None, 4, [])) == L.Return(Some(L.Ok(L.Token.Identifier("y"))), L.IterState(10, [L.Other(3), L.Other(2)], None, 5, []));
    assert L.Loop(ByLayoutRaw, L.IterState(8, [L.Other(3), L.Other(2)], None, 3, [])) == L.Loop(ByLayoutRaw, L.IterState(9, [L.Other(3), L.Other(2)], None, 4, []));
  }

  lemma ByLayoutCall7()
    requires L.ValidRaw(ByLayoutRaw)
    ensures L.NextSpec(ByLayoutRaw, L.IterState(10, [L.Other(3), L.Other(2)], None, 5, [])) == (Some(L.Ok(L.VSemicolon)), L.IterState(11, [L.Other(3), L.Other(2)], None, 2, []))
  {
    assert ByLayoutRaw.toks[10] == R.Spanned(20, L.RawToken.Indent("\n  "), 23);
    assert L.Advance(L.IterState(10, [L.Other(3), L.Other(2)], None, 5, []), R.Spanned(20, L.RawToken.Indent("\n  "), 23)) == L.IterState(11, [L.Other(3), L.Other(2)], None, 8, []);
    assert L.OnIndentStep(ByLayoutRaw, 2, L.IterState(11, [L.Other(3), L.Other(2)], None, 8, [])) == L.Return(Some(L.Ok(L.VSemicolon)), L.IterState(11, [L.Other(3), L.Other(2)], None, 2, []));
    assert L.Consume(ByLayoutRaw, L.IterState(10, [L.Other(3), L.Other(2)], None, 5, [])) == L.Return(Some(L.Ok(L.VSemicolon)), L.IterState(11, [L.Other(3), L.Other(2)], None, 2, []));
  }

  lemma ByLayoutCall8()
    requires L.ValidRaw(ByLayoutRaw)
    ensures L.NextSpec(ByLayoutRaw, L.IterState(11, [L.Other(3), L.Other(2)], None, 2, [])) == (Some(L.Ok(L.Token.Identifier("z"))), L.IterState(12, [L.Other(3), L.Other(2)], None, 3, []))
  {
    assert L.Consume(ByLayoutRaw, L.IterState(11, [L.Other(3), L.Other(2)], None, 2, [])) == L.Return(Some(L.Ok(L.Token.Identifier("z"))), L.IterState(12, [L.Other(3), L.Other(2)], None, 3, []));
  }

  lemma ByLayoutCall9()
    requires L.ValidRaw(ByLayoutRaw)
    ensures L.NextSpec(ByLayoutRaw, L.IterState(12, [L.Other(3), L.Other(2)], None, 3, [])) == (Some(L.Ok(L.VRBrace)), L.IterState(14, [], None, 0, [L.VRBrace]))
  {
    assert ByLayoutRaw.toks[12] == R.Spanned(24, L.RawToken.Indent("\n"), 25);
    assert L.Advance(L.IterState(12, [L.Other(3), L.Other(2)], None, 3, []), R.Spanned(24, L.RawToken.Indent("\n"), 25)) == L.IterState(13, [L.Other(3), L.Other(2)], None, 4, []);
    assert L.OnIndentStep(ByLayoutRaw, 0, L.IterState(13, [L.Other(3), L.Other(2)], None, 4, [])) == L.Continue(L.IterState(13, [L.Other(3), L.Other(2)], None, 0, []));
    assert L.Consume(ByLayoutRaw, L.IterState(12, [L.Other(3), L.Other(2)], None, 3, [])) == L.Continue(L.IterState(13, [L.Other(3), L.Other(2)], None, 0, []));
    assert ByLayoutRaw.toks[13] == R.Spanned(60, L.RawToken.Indent("\n"), 61);
    assert L.Advance(L.IterState(13, [L.Other(3), L.Other(2)], None, 0, []), R.Spanned(60, L.RawToken.Indent("\n"), 61)) == L.IterState(14, [L.Other(3), L.Other(2)], None, 1, []);
    assert L.OnIndentStep(ByLayoutRaw, 0, L.IterState(14, [L.Other(3), L.Other(2)], None, 1, [])) == L.Return(Some(L.Ok(L.VRBrace)), L.IterState(14, [], None, 0, [L.VRBrace]));
    assert L.Consume(ByLayoutRaw, L.IterState(13, [L.Other(3), L.Other(2)], None, 0, [])) == L.Return(Some(L.Ok(L.VRBrace)), L.IterState(14, [], None, 0, [L.VRBrace]));
    assert L.Loop(ByLayoutRaw, L.IterState(12, [L.Other(3), L.Other(2)], None, 3, [])) == L.Loop(ByLayoutRaw, L.IterState(13, [L.Other(3), L.Other(2)], None, 0, []));
  }

  lemma ByLayoutCall10()
    requires L.ValidRaw(ByLayoutRaw)
    ensures L.NextSpec(ByLayoutRaw, L.IterState(14, [], None, 0, [L.VRBrace])) == (Some(L.Ok(L.VRBrace)), L.IterState(14, [], None, 0, []))
  {
    assert [L.VRBrace][1..] == [];
  }

  lemma ByLayoutCall11()
    requires L.ValidRaw(ByLayoutRaw)
    ensures L.NextSpec(ByLayoutRaw, L.IterState(14, [], None, 0, [])) == (Some(L.Ok(L.Token.Identifier("bar"))), L.IterState(15, [], None, 3, []))
  {
    assert L.Consume(ByLayoutRaw, L.IterState(14, [], None, 0, [])) == L.Return(Some(L.Ok(L.Token.Identifier("bar"))), L.IterState(15, [], None, 3, []));
  }

  lemma ByLayoutCall12()
    requires L.ValidRaw(ByLayoutRaw)
    ensures L.NextSpec(ByLayoutRaw, L.IterState(15, [], None, 3, [])) == (Some(L.Ok(L.Token.By)), L.IterState(17, [], Some(L.Other(0)), 6, [L.VLBrace]))
  {
    assert L.Consume(ByLayoutRaw, L.IterState(15, [], None, 3, [])) == L.Continue(L.IterState(16, [], None, 4, []));
    assert L.Consume(ByLayoutRaw, L.IterState(16, [], None, 4, [])) == L.Return(Some(L.Ok(L.Token.By)), L.IterState(17, [], Some(L.Other(0)), 6, [L.VLBrace]));
    assert L.Loop(ByLayoutRaw, L.IterState(15, [], None, 3, [])) == L.Loop(ByLayoutRaw, L.IterState(16, [], None, 4, []));
  }

  lemma ByLayoutCall13()
    requires L.ValidRaw(ByLayoutRaw)
    ensures L.NextSpec(ByLayoutRaw, L.IterState(17, [], Some(L.Other(0)), 6, [L.VLBrace])) == (Some(L.Ok(L.VLBrace)), L.IterState(17, [], Some(L.Other(0)), 6, []))
  {
    assert [L.VLBrace][1..] == [];
  }

  lemma ByLayoutCall14()
    requires L.ValidRaw(ByLayoutRaw)
    ensures L.NextSpec(ByLayoutRaw, L.IterState(17, [], Some(L.Other(0)), 6, [])) == (Some(L.Ok(L.Token.Identifier("foo"))), L.IterState(19, [L.Other(7)], None, 10, []))
  {
    assert L.Consume(ByLayoutRaw, L.IterState(17, [], Some(L.Other(0)), 6, [])) == L.Continue(L.IterState(18, [], Some(L.Other(0)), 7, []));
    assert L.Consume(ByLayoutRaw, L.IterState(18, [], Some(L.Other(0)), 7, [])) == L.Return(Some(L.Ok(L.Token.Identifier("foo"))), L.IterState(19, [L.Other(7)], None, 10, []));
    assert L.Loop(ByLayoutRaw, L.IterState(17, [], Some(L.Other(0)), 6, [])) == L.Loop(ByLayoutRaw, L.IterState(18, [], Some(L.Other(0)), 7, []));
  }

  lemma ByLayoutCall15()
    requires L.ValidRaw(ByLayoutRaw)
    ensures L.NextSpec(ByLayoutRaw, L.IterState(19, [L.Other(7)], None, 10, [])) == (Some(L.Ok(L.Token.By)), L.IterState(21, [L.Other(7)], Some(L.Other(0)), 13, [L.VLBrace]))
  {
    assert L.Consume(ByLayoutRaw, L.IterState(19, [L.Other(7)], None, 10, [])) == L.Continue(L.IterState(20, [L.Other(7)], None, 11, []));
    assert L.Consume(ByLayoutRaw, L.IterState(20, [L.Other(7)], None, 11, [])) == L.Return(Some(L.Ok(L.Token.By)), L.IterState(21, [L.Other(7)], Some(L.Other(0)), 13, [L.VLBrace]));
    assert L.Loop(ByLayoutRaw, L.IterState(19, [L.Other(7)], None, 10, [])) == L.Loop(ByLayoutRaw, L.IterState(20, [L.Other(7)], None, 11, []));
  }

  lemma ByLayoutCall16()
    requires L.ValidRaw(ByLayoutRaw)
    ensures L.NextSpec(ByLayoutRaw, L.IterState(21, [L.Other(7)], Some(L.Other(0)), 13, [L.VLBrace])) == (Some(L.Ok(L.VLBrace)), L.IterState(21, [L.Other(7)], Some(L.Other(0)), 13, []))
  {
    assert [L.VLBrace][1..] == [];
  }

  lemma ByLayoutCall17()
    requires L.ValidRaw(ByLayoutRaw)
    ensures L.NextSpec(ByLayoutRaw, L.IterState(21, [L.Other(7)], Some(L.Other(0)), 13, [])) == (Some(L.Ok(L.Token.Identifier("x"))), L.IterState(23, [L.Other(7), L.Other(12)], None, 13, []))
  {
    assert ByLayoutRaw.toks[21] == R.Spanned(74, L.RawToken.Indent("\n            "), 87);
    assert L.Advance(L.IterState(21, [L.Other(7)], Some(L.Other(0)), 13, []), R.Spanned(74, L.RawToken.Indent("\n            "), 87)) == L.IterState(22, [L.Other(7)], Some(L.Other(0)), 26, []);
    assert L.OnIndentStep(ByLayoutRaw, 12, L.IterState(22, [L.Other(7)], Some(L.Other(0)), 26, [])) == L.Continue(L.IterState(22, [L.Other(7)], Some(L.Other(0)), 12, []));
    assert L.Consume(ByLayoutRaw, L.IterState(21, [L.Other(7)], Some(L.Other(0)), 13, [])) == L.Continue(L.IterState(22, [L.Other(7)], Some(L.Other(0)), 12, []));
    assert L.Consume(ByLayoutRaw, L.IterState(22, [L.Other(7)], Some(L.Other(0)), 12, [])) == L.Return(Some(L.Ok(L.Token.Identifier("x"))), L.IterState(23, [L.Other(7), L.Other(12)], None, 13, []));
    assert L.Loop(ByLayoutRaw, L.IterState(21, [L.Other(7)], Some(L.Other(0)), 13, [])) == L.Loop(ByLayoutRaw, L.IterState(22, [L.Other(7)], Some(L.Other(0)), 12, []));
  }

  lemma ByLayoutCall18()
    requires L.ValidRaw(ByLayoutRaw)
    ensures L.NextSpec(ByLayoutRaw, L.IterState(23, [L.Other(7), L.Other(12)], None, 13, [])) == (Some(L.Ok(L.Token.Identifier("y"))), L.IterState(25, [L.Other(7), L.Other(12)], None, 17, []))
  {
    assert ByLayoutRaw.toks[23] == R.Spanned(88, L.RawToken.Indent("\n                "), 105);
    assert L.Advance(L.IterState(23, [L.Other(7), L.Other(12)], None, 13, []), R.Spanned(88, L.RawToken.Indent("\n                "), 105)) == L.IterState(24, [L.Other(7), L.Other(12)], None, 30, []);
    assert L.OnIndentStep(ByLayoutRaw, 16, L.IterState(24, [L.Other(7), L.Other(12)], None, 30, [])) == L.Continue(L.IterState(24, [L.Other(7), L.Other(12)], None, 16, []));
    assert L.Consume(ByLayoutRaw, L.IterState(23, [L.Other(7), L.Other(12)], None, 13, [])) == L.Continue(L.IterState(24, [L.Other(7), L.Other(12)], None, 16, []));
    assert L.Consume(ByLayoutRaw, L.IterState(24, [L.Other(7), L.Other(12)], None, 16, [])) == L.Return(Some(L.Ok(L.Token.Identifier("y"))), L.IterState(25, [L.Other(7), L.Other(12)], None, 17, []));
    assert L.Loop(ByLayoutRaw, L.IterState(23, [L.Other(7), L.Other(12)], None, 13, [])) == L.Loop(ByLayoutRaw, L.IterState(24, [L.Other(7), L.Other(12)], None, 16, []));
  }

  lemma ByLayoutCall19()
    requires L.ValidRaw(ByLayoutRaw)
    ensures L.NextSpec(ByLayoutRaw, L.IterState(25, [L.Other(7), L.Other(12)], None, 17, [])) == (Some(L.Ok(L.VSemicolon)), L.IterState(26, [L.Other(7), L.Other(12)], None, 12, []))
  {
    assert ByLayoutRaw.toks[25] == R.Spanned(106, L.RawToken.Indent("\n            "), 119);
    assert L.Advance(L.IterState(25, [L.Other(7), L.Other(12)], None, 17, []), R.Spanned(106, L.RawToken.Indent("\n            "), 119)) == L.IterState(26, [L.Other(7), L.Other(12)], None, 30, []);
    assert L.OnIndentStep(ByLayoutRaw, 12, L.IterState(26, [L.Other(7), L.Other(12)], None, 30, [])) == L.Return(Some(L.Ok(L.VSemicolon)), L.IterState(26, [L.Other(7), L.Other(12)], None, 12, []));
    assert L.Consume(ByLayoutRaw, L.IterState(25, [L.Other(7), L.Other(12)], None, 17, [])) == L.Return(Some(L.Ok(L.VSemicolon)), L.IterState(26, [L.Other(7), L.Other(12)], None, 12, []));
  }

  lemma ByLayoutCall20()
    requires L.ValidRaw(ByLayoutRaw)
    ensures L.NextSpec(ByLayoutRaw, L.IterState(26, [L.Other(7), L.Other(12)], None, 12, [])) == (Some(L.Ok(L.Token.Identifier("z"))), L.IterState(27, [L.Other(7), L.Other(12)], None, 13, []))
  {
    assert L.Consume(ByLayoutRaw, L.IterState(26, [L.Other(7), L.Other(12)], None, 12, [])) == L.Return(Some(L.Ok(L.Token.Identifier("z"))), L.IterState(27, [L.Other(7), L.Other(12)], None, 13, []));
  }

  lemma ByLayoutCall21()
    requires L.ValidRaw(ByLayoutRaw)
    ensures L.NextSpec(ByLayoutRaw, L.IterState(27, [L.Other(7), L.Other(12)], None, 13, [])) == (Some(L.Ok(L.VRBrace)), L.IterState(29, [L.Other(7)], None, 7, []))
  {
    assert ByLayoutRaw.toks[27] == R.Spanned(120, L.RawToken.Indent("\n       "), 128);
    assert L.Advance(L.IterState(27, [L.Other(7), L.Other(12)], None, 13, []), R.Spanned(120, L.RawToken.Indent("\n       "), 128)) == L.IterState(28, [L.Other(7), L.Other(12)], None, 21, []);
    assert L.OnIndentStep(ByLayoutRaw, 7, L.IterState(28, [L.Other(7), L.Other(12)], None, 21, [])) == L.Continue(L.IterState(28, [L.Other(7), L.Other(12)], None, 7, []));
    assert L.Consume(ByLayoutRaw, L.IterState(27, [L.Other(7), L.Other(12)], None, 13, [])) == L.Continue(L.IterState(28, [L.Other(7), L.Other(12)], None, 7, []));
    assert ByLayoutRaw.toks[28] == R.Spanned(162, L.RawToken.Indent("\n       "), 170);
    assert L.Advance(L.IterState(28, [L.Other(7), L.Other(12)], None, 7, []), R.Spanned(162, L.RawToken.Indent("\n       "), 170)) == L.IterState(29, [L.Other(7), L.Other(12)], None, 15, []);
    assert L.OnIndentStep(ByLayoutRaw, 7, L.IterState(29, [L.Other(7), L.Other(12)], None, 15, [])) == L.Return(Some(L.Ok(L.VRBrace)), L.IterState(29, [L.Other(7)], None, 7, []));
    assert L.Consume(ByLayoutRaw, L.IterState(28, [L.Other(7), L.Other(12)], None, 7, [])) == L.Return(Some(L.Ok(L.VRBrace)), L.IterState(29, [L.Other(7)], None, 7, []));
    assert L.Loop(ByLayoutRaw, L.IterState(27, [L.Other(7), L.Other(12)], None, 13, [])) == L.Loop(ByLayoutRaw, L.IterState(28, [L.Other(7), L.Other(12)], None, 7, []));
  }

  lemma ByLayoutCall22()
    requires L.ValidRaw(ByLayoutRaw)
    ensures L.NextSpec(ByLayoutRaw, L.IterState(29, [L.Other(7)], None, 7, [])) == (Some(L.Ok(L.Token.Identifier("bar"))), L.IterState(30, [L.Other(7)], None, 10, []))
  {
    assert L.Consume(ByLayoutRaw, L.IterState(29, [L.Other(7)], None, 7, [])) == L.Return(Some(L.Ok(L.Token.Identifier("bar"))), L.IterState(30, [L.Other(7)], None, 10, []));
  }

  lemma ByLayoutCall23()
    requires L.ValidRaw(ByLayoutRaw)
    ensures L.NextSpec(ByLayoutRaw, L.IterState(30, [L.Other(7)], None, 10, [])) == (Some(L.Ok(L.VRBrace)), L.IterState(31, [], None, 0, []))
  {
    assert ByLayoutRaw.toks[30] == R.Spanned(173, L.RawToken.Indent("\n"), 174);
    assert L.Advance(L.IterState(30, [L.Other(7)], None, 10, []), R.Spanned(173, L.RawToken.Indent("\n"), 174)) == L.IterState(31, [L.Other(7)], None, 11, []);
    assert L.OnIndentStep(ByLayoutRaw, 0, L.IterState(31, [L.Other(7)], None, 11, [])) == L.Return(Some(L.Ok(L.VRBrace)), L.IterState(31, [], None, 0, []));
    assert L.Consume(ByLayoutRaw, L.IterState(30, [L.Other(7)], None, 10, [])) == L.Return(Some(L.Ok(L.VRBrace)), L.IterState(31, [], None, 0, []));
  }

  lemma ByLayoutCall24()
    requires L.ValidRaw(ByLayoutRaw)
    ensures L.NextSpec(ByLayoutRaw, L.IterState(31, [], None, 0, [])) == (None, L.IterState(31, [], None, 0, []))
  {
    assert L.AtEnd(ByLayoutRaw, L.IterState(31, [], None, 0, [])) == (None, L.IterState(31, [], None, 0, []));
    assert L.Loop(ByLayoutRaw, L.IterState(31, [], None, 0, [])) == L.AtEnd(ByLayoutRaw, L.IterState(31, [], None, 0, []));
  }

  lemma ByLayoutCall0To2()
    requires L.ValidRaw(ByLayoutRaw)
    ensures L.After(ByLayoutRaw, L.Initial, 2) == L.IterState(2, [], Some(L.Other(0)), 2, [])
    ensures L.Outputs(ByLayoutRaw, L.Initial, 2) == [Some(L.Ok(L.Token.By)), Some(L.Ok(L.VLBrace))]
  {
    assert L.Outputs(ByLayoutRaw, L.IterState(2, [], Some(L.Other(0)), 2, [L.VLBrace]), 1) == [Some(L.Ok(L.VLBrace))] + L.Outputs(ByLayoutRaw, L.IterState(2, [], Some(L.Other(0)), 2, []), 0) &&
           L.After(ByLayoutRaw, L.IterState(2, [], Some(L.Other(0)), 2, [L.VLBrace]), 1) == L.After(ByLayoutRaw, L.IterState(2, [], Some(L.Other(0)), 2, []), 0) by {
      ByLayoutCall1();
      L.OutputsStep(ByLayoutRaw, L.IterState(2, [], Some(L.Other(0)), 2, [L.VLBrace]), 1, Some(L.Ok(L.VLBrace)), L.IterState(2, [], Some(L.Other(0)), 2, []));
    }
    assert L.Outputs(ByLayoutRaw, L.Initial, 2) == [Some(L.Ok(L.Token.By))] + L.Outputs(ByLayoutRaw, L.IterState(2, [], Some(L.Other(0)), 2, [L.VLBrace]), 1) &&
           L.After(ByLayoutRaw, L.Initial, 2) == L.After(ByLayoutRaw, L.IterState(2, [], Some(L.Other(0)), 2, [L.VLBrace]), 1) by {
      ByLayoutCall0();
      L.OutputsStep(ByLayoutRaw, L.Initial, 2, Some(L.Ok(L.Token.By)), L.IterState(2, [], Some(L.Other(0)), 2, [L.VLBrace]));
    }
  }

  lemma ByLayoutCall2To4()
    requires L.ValidRaw(ByLayoutRaw)
    ensures L.After(ByLayoutRaw, L.IterState(2, [], Some(L.Other(0)), 2, []), 2) == L.IterState(6, [L.Other(3)], Some(L.Other(0)), 9, [L.VLBrace])
    ensures L.Outputs(ByLayoutRaw, L.IterState(2, [], Some(L.Other(0)), 2, []), 2) == [Some(L.Ok(L.Token.Identifier("foo"))), Some(L.Ok(L.Token.By))]
  {
    assert L.Outputs(ByLayoutRaw, L.IterState(4, [L.Other(3)], None, 6, []), 1) == [Some(L.Ok(L.Token.By))] + L.Outputs(ByLayoutRaw, L.IterState(6, [L.Other(3)], Some(L.Other(0)), 9, [L.VLBrace]), 0) &&
           L.After(ByLayoutRaw, L.IterState(4, [L.Other(3)], None, 6, []), 1) == L.After(ByLayoutRaw, L.IterState(6, [L.Other(3)], Some(L.Other(0)), 9, [L.VLBrace]), 0) by {
      ByLayoutCall3();
      L.OutputsStep(ByLayoutRaw, L.IterState(4, [L.Other(3)], None, 6, []), 1, Some(L.Ok(L.Token.By)), L.IterState(6, [L.Other(3)], Some(L.Other(0)), 9, [L.VLBrace]));
    }
    assert L.Outputs(ByLayoutRaw, L.IterState(2, [], Some(L.Other(0)), 2, []), 2) == [Some(L.Ok(L.Token.Identifier("foo")))] + L.Outputs(ByLayoutRaw, L.IterState(4, [L.Other(3)], None, 6, []), 1) &&
           L.After(ByLayoutRaw, L.IterState(2, [], Some(L.Other(0)), 2, []), 2) == L.After(ByLayoutRaw, L.IterState(4, [L.Other(3)], None, 6, []), 1) by {
      ByLayoutCall2();
      L.OutputsStep(ByLayoutRaw, L.IterState(2, [], Some(L.Other(0)), 2, []), 2, Some(L.Ok(L.Token.Identifier("foo"))), L.IterState(4, [L.Other(3)], None, 6, []));
    }
  }

  lemma ByLayoutCall4To6()
    requires L.ValidRaw(ByLayoutRaw)
    ensures L.After(ByLayoutRaw, L.IterState(6, [L.Other(3)], Some(L.Other(0)), 9, [L.VLBrace]), 2) == L.IterState(8, [L.Other(3), L.Other(2)], None, 3, [])
    ensures L.Outputs(ByLayoutRaw, L.IterState(6, [L.Other(3)], Some(L.Other(0)), 9, [L.VLBrace]), 2) == [Some(L.Ok(L.VLBrace)), Some(L.Ok(L.Token.Identifier("x")))]
  {
    assert L.Outputs(ByLayoutRaw, L.IterState(6, [L.Other(3)], Some(L.Other(0)), 9, []), 1) == [Some(L.Ok(L.Token.Identifier("x")))] + L.Outputs(ByLayoutRaw, L.IterState(8, [L.Other(3), L.Other(2)], None, 3, []), 0) &&
           L.After(ByLayoutRaw, L.IterState(6, [L.Other(3)], Some(L.Other(0)), 9, []), 1) == L.After(ByLayoutRaw, L.IterState(8, [L.Other(3), L.Other(2)], None, 3, []), 0) by {
      ByLayoutCall5();
      L.OutputsStep(ByLayoutRaw, L.IterState(6, [L.Other(3)], Some(L.Other(0)), 9, []), 1, Some(L.Ok(L.Token.Identifier("x"))), L.IterState(8, [L.Other(3), L.Other(2)], None, 3, []));
    }
    assert L.Outputs(ByLayoutRaw, L.IterState(6, [L.Other(3)], Some(L.Other(0)), 9, [L.VLBrace]), 2) == [Some(L.Ok(L.VLBrace))] + L.Outputs(ByLayoutRaw, L.IterState(6, [L.Other(3)], Some(L.Other(0)), 9, []), 1) &&
           L.After(ByLayoutRaw, L.IterState(6, [L.Other(3)], Some(L.Other(0)), 9, [L.VLBrace]), 2) == L.After(ByLayoutRaw, L.IterState(6, [L.Other(3)], Some(L.Other(0)), 9, []), 1) by {
      ByLayoutCall4();
      L.OutputsStep(ByLayoutRaw, L.IterState(6, [L.Other(3)], Some(L.Other(0)), 9, [L.VLBrace]), 2, Some(L.Ok(L.VLBrace)), L.IterState(6, [L.Other(3)], Some(L.Other(0)), 9, []));
    }
  }

  lemma ByLayoutCall6To8()
    requires L.ValidRaw(ByLayoutRaw)
    ensures L.After(ByLayoutRaw, L.IterState(8, [L.Other(3), L.Other(2)], None, 3, []), 2) == L.IterState(11, [L.Other(3), L.Other(2)], None, 2, [])
    ensures L.Outputs(ByLayoutRaw, L.IterState(8, [L.Other(3), L.Other(2)], None, 3, []), 2) == [Some(L.Ok(L.Token.Identifier("y"))), Some(L.Ok(L.VSemicolon))]
  {
    assert L.Outputs(ByLayoutRaw, L.IterState(10, [L.Other(3), L.Other(2)], None, 5, []), 1) == [Some(L.Ok(L.VSemicolon))] + L.Outputs(ByLayoutRaw, L.IterState(11, [L.Other(3), L.Other(2)], None, 2, []), 0) &&
           L.After(ByLayoutRaw, L.IterState(10, [L.Other(3), L.Other(2)], None, 5, []), 1) == L.After(ByLayoutRaw, L.IterState(11, [L.Other(3), L.Other(2)], None, 2, []), 0) by {
      ByLayoutCall7();
      L.OutputsStep(ByLayoutRaw, L.IterState(10, [L.Other(3), L.Other(2)], None, 5, []), 1, Some(L.Ok(L.VSemicolon)), L.IterState(11, [L.Other(3), L.Other(2)], None, 2, []));
    }
    assert L.Outputs(ByLayoutRaw, L.IterState(8, [L.Other(3), L.Other(2)], None, 3, []), 2) == [Some(L.Ok(L.Token.Identifier("y")))] + L.Outputs(ByLayoutRaw, L.IterState(10, [L.Other(3), L.Other(2)], None, 5, []), 1) &&
           L.After(ByLayoutRaw, L.IterState(8, [L.Other(3), L.Other(2)], None, 3, []), 2) == L.After(ByLayoutRaw, L.IterState(10, [L.Other(3), L.Other(2)], None, 5, []), 1) by {
      ByLayoutCall6();
      L.OutputsStep(ByLayoutRaw, L.IterState(8, [L.Other(3), L.Other(2)], None, 3, []), 2, Some(L.Ok(L.Token.Identifier("y"))), L.IterState(10, [L.Other(3), L.Other(2)], None, 5, []));
    }
  }

  lemma ByLayoutCall8To10()
    requires L.ValidRaw(ByLayoutRaw)
    ensures L.After(ByLayoutRaw, L.IterState(11, [L.Other(3), L.Other(2)], None, 2, []), 2) == L.IterState(14, [], None, 0, [L.VRBrace])
    ensures L.Outputs(ByLayoutRaw, L.IterState(11, [L.Other(3), L.Other(2)], None, 2, []), 2) == [Some(L.Ok(L.Token.Identifier("z"))), Some(L.Ok(L.VRBrace))]
  {
    assert L.Outputs(ByLayoutRaw, L.IterState(12, [L.Other(3), L.Other(2)], None, 3, []), 1) == [Some(L.Ok(L.VRBrace))] + L.Outputs(ByLayoutRaw, L.IterState(14, [], None, 0, [L.VRBrace]), 0) &&
           L.After(ByLayoutRaw, L.IterState(12, [L.Other(3), L.Other(2)], None, 3, []), 1) == L.After(ByLayoutRaw, L.IterState(14, [], None, 0, [L.VRBrace]), 0) by {
      ByLayoutCall9();
      L.OutputsStep(ByLayoutRaw, L.IterState(12, [L.Other(3), L.Other(2)], None, 3, []), 1, Some(L.Ok(L.VRBrace)), L.IterState(14, [], None, 0, [L.VRBrace]));
    }
    assert L.Outputs(ByLayoutRaw, L.IterState(11, [L.Other(3), L.Other(2)], None, 2, []), 2) == [Some(L.Ok(L.Token.Identifier("z")))] + L.Outputs(ByLayoutRaw, L.IterState(12, [L.Other(3), L.Other(2)], None, 3, []), 1) &&
           L.After(ByLayoutRaw, L.IterState(11, [L.Other(3), L.Other(2)], None, 2, []), 2) == L.After(ByLayoutRaw, L.IterState(12, [L.Other(3), L.Other(2)], None, 3, []), 1) by {
      ByLayoutCall8();
      L.OutputsStep(ByLayoutRaw, L.IterState(11, [L.Other(3), L.Other(2)], None, 2, []), 2, Some(L.Ok(L.Token.Identifier("z"))), L.IterState(12, [L.Other(3), L.Other(2)], None, 3, []));
    }
  }

  lemma ByLayoutCall10To12()
    requires L.ValidRaw(ByLayoutRaw)
    ensures L.After(ByLayoutRaw, L.IterState(14, [], None, 0, [L.VRBrace]), 2) == L.IterState(15, [], None, 3, [])
    ensures L.Outputs(ByLayoutRaw, L.IterState(14, [], None, 0, [L.VRBrace]), 2) == [Some(L.Ok(L.VRBrace)), Some(L.Ok(L.Token.Identifier("bar")))]
  {
    assert L.Outputs(ByLayoutRaw, L.IterState(14, [], None, 0, []), 1) == [Some(L.Ok(L.Token.Identifier("bar")))] + L.Outputs(ByLayoutRaw, L.IterState(15, [], None, 3, []), 0) &&
           L.After(ByLayoutRaw, L.IterState(14, [], None, 0, []), 1) == L.After(ByLayoutRaw, L.IterState(15, [], None, 3, []), 0) by {
      ByLayoutCall11();
      L.OutputsStep(ByLayoutRaw, L.IterState(14, [], None, 0, []), 1, Some(L.Ok(L.Token.Identifier("bar"))), L.IterState(15, [], None, 3, []));
    }
    assert L.Outputs(ByLayoutRaw, L.IterState(14, [], None, 0, [L.VRBrace]), 2) == [Some(L.Ok(L.VRBrace))] + L.Outputs(ByLayoutRaw, L.IterState(14, [], None, 0, []), 1) &&
           L.After(ByLayoutRaw, L.IterState(14, [], None, 0, [L.VRBrace]), 2) == L.After(ByLayoutRaw, L.IterState(14, [], None, 0, []), 1) by {
      ByLayoutCall10();
      L.OutputsStep(ByLayoutRaw, L.IterState(14, [], None, 0, [L.VRBrace]), 2, Some(L.Ok(L.VRBrace)), L.IterState(14, [], None, 0, []));
    }
  }

  lemma ByLayoutCall12To14()
    requires L.ValidRaw(ByLayoutRaw)
    ensures L.After(ByLayoutRaw, L.IterState(15, [], None, 3, []), 2) == L.IterState(17, [], Some(L.Other(0)), 6, [])
    ensures L.Outputs(ByLayoutRaw, L.IterState(15, [], None, 3, []), 2) == [Some(L.Ok(L.Token.By)), Some(L.Ok(L.VLBrace))]
  {
    assert L.Outputs(ByLayoutRaw, L.IterState(17, [], Some(L.Other(0)), 6, [L.VLBrace]), 1) == [Some(L.Ok(L.VLBrace))] + L.Outputs(ByLayoutRaw, L.IterState(17, [], Some(L.Other(0)), 6, []), 0) &&
           L.After(ByLayoutRaw, L.IterState(17, [], Some(L.Other(0)), 6, [L.VLBrace]), 1) == L.After(ByLayoutRaw, L.IterState(17, [], Some(L.Other(0)), 6, []), 0) by {
      ByLayoutCall13();
      L.OutputsStep(ByLayoutRaw, L.IterState(17, [], Some(L.Other(0)), 6, [L.VLBrace]), 1, Some(L.Ok(L.VLBrace)), L.IterState(17, [], Some(L.Other(0)), 6, []));
    }
    assert L.Outputs(ByLayoutRaw, L.IterState(15, [], None, 3, []), 2) == [Some(L.Ok(L.Token.By))] + L.Outputs(ByLayoutRaw, L.IterState(17, [], Some(L.Other(0)), 6, [L.VLBrace]), 1) &&
           L.After(ByLayoutRaw, L.IterState(15, [], None, 3, []), 2) == L.After(ByLayoutRaw, L.IterState(17, [], Some(L.Other(0)), 6, [L.VLBrace]), 1) by {
      ByLayoutCall12();
      L.OutputsStep(ByLayoutRaw, L.IterState(15, [], None, 3, []), 2, Some(L.Ok(L.Token.By)), L.IterState(17, [], Some(L.Other(0)), 6, [L.VLBrace]));
    }
  }

  lemma ByLayoutCall14To16()
    requires L.ValidRaw(ByLayoutRaw)
    ensures L.After(ByLayoutRaw, L.IterState(17, [], Some(L.Other(0)), 6, []), 2) == L.IterState(21, [L.Other(7)], Some(L.Other(0)), 13, [L.VLBrace])
    ensures L.Outputs(ByLayoutRaw, L.IterState(17, [], Some(L.Other(0)), 6, []), 2) == [Some(L.Ok(L.Token.Identifier("foo"))), Some(L.Ok(L.Token.By))]
  {
    assert L.Outputs(ByLayoutRaw, L.IterState(19, [L.Other(7)], None, 10, []), 1) == [Some(L.Ok(L.Token.By))] + L.Outputs(ByLayoutRaw, L.IterState(21, [L.Other(7)], Some(L.Other(0)), 13, [L.VLBrace]), 0) &&
           L.After(ByLayoutRaw, L.IterState(19, [L.Other(7)], None, 10, []), 1) == L.After(ByLayoutRaw, L.IterState(21, [L.Other(7)], Some(L.Other(0)), 13, [L.VLBrace]), 0) by {
      ByLayoutCall15();
      L.OutputsStep(ByLayoutRaw, L.IterState(19, [L.Other(7)], None, 10, []), 1, Some(L.Ok(L.Token.By)), L.IterState(21, [L.Other(7)], Some(L.Other(0)), 13, [L.VLBrace]));
    }
    assert L.Outputs(ByLayoutRaw, L.IterState(17, [], Some(L.Other(0)), 6, []), 2) == [Some(L.Ok(L.Token.Identifier("foo")))] + L.Outputs(ByLayoutRaw, L.IterState(19, [L.Other(7)], None, 10, []), 1) &&
           L.After(ByLayoutRaw, L.IterState(17, [], Some(L.Other(0)), 6, []), 2) == L.After(ByLayoutRaw, L.IterState(19, [L.Other(7)], None, 10, []), 1) by {
      ByLayoutCall14();
      L.OutputsStep(ByLayoutRaw, L.IterState(17, [], Some(L.Other(0)), 6, []), 2, Some(L.Ok(L.Token.Identifier("foo"))), L.IterState(19, [L.Other(7)], None, 10, []));
    }
  }

  lemma ByLayoutCall16To18()
    requires L.ValidRaw(ByLayoutRaw)
    ensures L.After(ByLayoutRaw, L.IterState(21, [L.Other(7)], Some(L.Other(0)), 13, [L.VLBrace]), 2) == L.IterState(23, [L.Other(7), L.Other(12)], None, 13, [])
    ensures L.Outputs(ByLayoutRaw, L.IterState(21, [L.Other(7)], Some(L.Other(0)), 13, [L.VLBrace]), 2) == [Some(L.Ok(L.VLBrace)), Some(L.Ok(L.Token.Identifier("x")))]
  {
    assert L.Outputs(ByLayoutRaw, L.IterState(21, [L.Other(7)], Some(L.Other(0)), 13, []), 1) == [Some(L.Ok(L.Token.Identifier("x")))] + L.Outputs(ByLayoutRaw, L.IterState(23, [L.Other(7), L.Other(12)], None, 13, []), 0) &&
           L.After(ByLayoutRaw, L.IterState(21, [L.Other(7)], Some(L.Other(0)), 13, []), 1) == L.After(ByLayoutRaw, L.IterState(23, [L.Other(7), L.Other(12)], None, 13, []), 0) by {
      ByLayoutCall17();
      L.OutputsStep(ByLayoutRaw, L.IterState(21, [L.Other(7)], Some(L.Other(0)), 13, []), 1, Some(L.Ok(L.Token.Identifier("x"))), L.IterState(23, [L.Other(7), L.Other(12)], None, 13, []));
    }
    assert L.Outputs(ByLayoutRaw, L.IterState(21, [L.Other(7)], Some(L.Other(0)), 13, [L.VLBrace]), 2) == [Some(L.Ok(L.VLBrace))] + L.Outputs(ByLayoutRaw, L.IterState(21, [L.Other(7)], Some(L.Other(0)), 13, []), 1) &&
           L.After(ByLayoutRaw, L.IterState(21, [L.Other(7)], Some(L.Other(0)), 13, [L.VLBrace]), 2) == L.After(ByLayoutRaw, L.IterState(21, [L.Other(7)], Some(L.Other(0)), 13, []), 1) by {
      ByLayoutCall16();
      L.OutputsStep(ByLayoutRaw, L.IterState(21, [L.Other(7)], Some(L.Other(0)), 13, [L.VLBrace]), 2, Some(L.Ok(L.VLBrace)), L.IterState(21, [L.Other(7)], Some(L.Other(0)), 13, []));
    }
  }

  lemma ByLayoutCall18To20()
    requires L.ValidRaw(ByLayoutRaw)
    ensures L.After(ByLayoutRaw, L.IterState(23, [L.Other(7), L.Other(12)], None, 13, []), 2) == L.IterState(26, [L.Other(7), L.Other(12)], None, 12, [])
    ensures L.Outputs(ByLayoutRaw, L.IterState(23, [L.Other(7), L.Other(12)], None, 13, []), 2) == [Some(L.Ok(L.Token.Identifier("y"))), Some(L.Ok(L.VSemicolon))]
  {
    assert L.Outputs(ByLayoutRaw, L.IterState(25, [L.Other(7), L.Other(12)], None, 17, []), 1) == [Some(L.Ok(L.VSemicolon))] + L.Outputs(ByLayoutRaw, L.IterState(26, [L.Other(7), L.Other(12)], None, 12, []), 0) &&
           L.After(ByLayoutRaw, L.IterState(25, [L.Other(7), L.Other(12)], None, 17, []), 1) == L.After(ByLayoutRaw, L.IterState(26, [L.Other(7), L.Other(12)], None, 12, []), 0) by {
      ByLayoutCall19();
      L.OutputsStep(ByLayoutRaw, L.IterState(25, [L.Other(7), L.Other(12)], None, 17, []), 1, Some(L.Ok(L.VSemicolon)), L.IterState(26, [L.Other(7), L.Other(12)], None, 12, []));
    }
    assert L.Outputs(ByLayoutRaw, L.IterState(23, [L.Other(7), L.Other(12)], None, 13, []), 2) == [Some(L.Ok(L.Token.Identifier("y")))] + L.Outputs(ByLayoutRaw, L.IterState(25, [L.Other(7), L.Other(12)], None, 17, []), 1) &&
           L.After(ByLayoutRaw, L.IterState(23, [L.Other(7), L.Other(12)], None, 13, []), 2) == L.After(ByLayoutRaw, L.IterState(25, [L.Other(7), L.Other(12)], None, 17, []), 1) by {
      ByLayoutCall18();
      L.OutputsStep(ByLayoutRaw, L.IterState(23, [L.Other(7), L.Other(12)], None, 13, []), 2, Some(L.Ok(L.Token.Identifier("y"))), L.IterState(25, [L.Other(7), L.Other(12)], None, 17, []));
    }
  }

  lemma ByLayoutCall20To22()
    requires L.ValidRaw(ByLayoutRaw)
    ensures L.After(ByLayoutRaw, L.IterState(26, [L.Other(7), L.Other(12)], None, 12, []), 2) == L.IterState(29, [L.Other(7)], None, 7, [])
    ensures L.Outputs(ByLayoutRaw, L.IterState(26, [L.Other(7), L.Other(12)], None, 12, []), 2) == [Some(L.Ok(L.Token.Identifier("z"))), Some(L.Ok(L.VRBrace))]
  {
    assert L.Outputs(ByLayoutRaw, L.IterState(27, [L.Other(7), L.Other(12)], None, 13, []), 1) == [Some(L.Ok(L.VRBrace))] + L.Outputs(ByLayoutRaw, L.IterState(29, [L.Other(7)], None, 7, []), 0) &&
           L.After(ByLayoutRaw, L.IterState(27, [L.Other(7), L.Other(12)], None, 13, []), 1) == L.After(ByLayoutRaw, L.IterState(29, [L.Other(7)], None, 7, []), 0) by {
      ByLayoutCall21();
      L.OutputsStep(ByLayoutRaw, L.IterState(27, [L.Other(7), L.Other(12)], None, 13, []), 1, Some(L.Ok(L.VRBrace)), L.IterState(29, [L.Other(7)], None, 7, []));
    }
    assert L.Outputs(ByLayoutRaw, L.IterState(26, [L.Other(7), L.Other(12)], None, 12, []), 2) == [Some(L.Ok(L.Token.Identifier("z")))] + L.Outputs(ByLayoutRaw, L.IterState(27, [L.Other(7), L.Other(12)], None, 13, []), 1) &&
           L.After(ByLayoutRaw, L.IterState(26, [L.Other(7), L.Other(12)], None, 12, []), 2) == L.After(ByLayoutRaw, L.IterState(27, [L.Other(7), L.Other(12)], None, 13, []), 1) by {
      ByLayoutCall20();
      L.OutputsStep(ByLayoutRaw, L.IterState(26, [L.Other(7), L.Other(12)], None, 12, []), 2, Some(L.Ok(L.Token.Identifier("z"))), L.IterState(27, [L.Other(7), L.Other(12)], None, 13, []));
    }
  }

  lemma ByLayoutCall22To24()
    requires L.ValidRaw(ByLayoutRaw)
    ensures L.After(ByLayoutRaw, L.IterState(29, [L.Other(7)], None, 7, []), 2) == L.IterState(31, [], None, 0, [])
    ensures L.Outputs(ByLayoutRaw, L.IterState(29, [L.Other(7)], None, 7, []), 2) == [Some(L.Ok(L.Token.Identifier("bar"))), Some(L.Ok(L.VRBrace))]
  {
    assert L.Outputs(ByLayoutRaw, L.IterState(30, [L.Other(7)], None, 10, []), 1) == [Some(L.Ok(L.VRBrace))] + L.Outputs(ByLayoutRaw, L.IterState(31, [], None, 0, []), 0) &&
           L.After(ByLayoutRaw, L.IterState(30, [L.Other(7)], None, 10, []), 1) == L.After(ByLayoutRaw, L.IterState(31, [], None, 0, []), 0) by {
      ByLayoutCall23();
      L.OutputsStep(ByLayoutRaw, L.IterState(30, [L.Other(7)], None, 10, []), 1, Some(L.Ok(L.VRBrace)), L.IterState(31, [], None, 0, []));
    }
    assert L.Outputs(ByLayoutRaw, L.IterState(29, [L.Other(7)], None, 7, []), 2) == [Some(L.Ok(L.Token.Identifier("bar")))] + L.Outputs(ByLayoutRaw, L.IterState(30, [L.Other(7)], None, 10, []), 1) &&
           L.After(ByLayoutRaw, L.IterState(29, [L.Other(7)], None, 7, []), 2) == L.After(ByLayoutRaw, L.IterState(30, [L.Other(7)], None, 10, []), 1) by {
      ByLayoutCall22();
      L.OutputsStep(ByLayoutRaw, L.IterState(29, [L.Other(7)], None, 7, []), 2, Some(L.Ok(L.Token.Identifier("bar"))), L.IterState(30, [L.Other(7)], None, 10, []));
    }
  }

  lemma ByLayoutCall24To25()
    requires L.ValidRaw(ByLayoutRaw)
    ensures L.After(ByLayoutRaw, L.IterState(31, [], None, 0, []), 1) == L.IterState(31, [], None, 0, [])
    ensures L.Outputs(ByLayoutRaw, L.IterState(31, [], None, 0, []), 1) == [None]
  {
    assert L.Outputs(ByLayoutRaw, L.IterState(31, [], None, 0, []), 1) == [None] + L.Outputs(ByLayoutRaw, L.IterState(31, [], None, 0, []), 0) &&
           L.After(ByLayoutRaw, L.IterState(31, [], None, 0, []), 1) == L.After(ByLayoutRaw, L.IterState(31, [], None, 0, []), 0) by {
      ByLayoutCall24();
      L.OutputsStep(ByLayoutRaw, L.IterState(31, [], None, 0, []), 1, None, L.IterState(31, [], None, 0, []));
    }
  }

  /** The raw tokens of the input of `test_let_by_layout`: a `by` block inside a `let` block, both closed
      by `in`. */
  const LetByRaw: R.Stream<L.RawToken> := R.Stream(seq(19, i requires 0 <= i => LetByTok(i)), None)

  function LetByTok(i: nat): R.Spanned<L.RawToken>
  {
    if i == 0 then R.Spanned(0, L.RawToken.Let, 3)
    else if i == 1 then R.Spanned(3, L.RawToken.Whitespace(" "), 4)
    else if i == 2 then R.Spanned(4, L.RawToken.Identifier("x"), 5)
    else if i == 3 then R.Spanned(5, L.RawToken.Whitespace(" "), 6)
    else if i == 4 then R.Spanned(6, L.RawToken.ColonEqual, 8)
    else if i == 5 then R.Spanned(8, L.RawToken.Whitespace(" "), 9)
    else if i == 6 then R.Spanned(9, L.RawToken.Identifier("g"), 10)
    else if i == 7 then R.Spanned(10, L.RawToken.Whitespace(" "), 11)
    else if i == 8 then R.Spanned(11, L.RawToken.By, 13)
    else if i == 9 then R.Spanned(13, L.RawToken.Indent("\n  "), 16)
    else if i == 10 then R.Spanned(16, L.RawToken.Identifier("y"), 17)
    else if i == 11 then R.Spanned(17, L.RawToken.Indent("\n  "), 20)
    else if i == 12 then R.Spanned(20, L.RawToken.Identifier("z"), 21)
    else if i == 13 then R.Spanned(21, L.RawToken.Indent("\n"), 22)
    else if i == 14 then R.Spanned(22, L.RawToken.In, 24)
    else if i == 15 then R.Spanned(24, L.RawToken.Whitespace(" "), 25)
    else if i == 16 then R.Spanned(25, L.RawToken.Identifier("f"), 26)
    else if i == 17 then R.Spanned(26, L.RawToken.Whitespace(" "), 27)
    else R.Spanned(27, L.RawToken.Identifier("x"), 28)
  }

  lemma LetByRawValid()
    ensures L.ValidRaw(LetByRaw)
  {
    LetByRawFrom0();
    L.ValidRawOf(LetByRaw.toks);
  }

  lemma LetByRawFrom0()
    ensures R.InOrderFrom(LetByRaw.toks, 0, 0) && L.TextsNonEmpty(LetByRaw.toks, 0)
  {
    var t := LetByRaw.toks;
    LetByRawFrom3();
    assert R.InOrderFrom(t, 2, 4) && L.TextsNonEmpty(t, 2);
    assert R.InOrderFrom(t, 1, 3) && L.TextsNonEmpty(t, 1);
    assert R.InOrderFrom(t, 0, 0) && L.TextsNonEmpty(t, 0);
  }

  lemma LetByRawFrom3()
    ensures R.InOrderFrom(LetByRaw.toks, 3, 5) && L.TextsNonEmpty(LetByRaw.toks, 3)
  {
    var t := LetByRaw.toks;
    LetByRawFrom6();
    assert R.InOrderFrom(t, 5, 8) && L.TextsNonEmpty(t, 5);
    assert R.InOrderFrom(t, 4, 6) && L.TextsNonEmpty(t, 4);
    assert R.InOrderFrom(t, 3, 5) && L.TextsNonEmpty(t, 3);
  }

  lemma LetByRawFrom6()
    ensures R.InOrderFrom(LetByRaw.toks, 6, 9) && L.TextsNonEmpty(LetByRaw.toks, 6)
  {
    var t := LetByRaw.toks;
    LetByRawFrom9();
    assert R.InOrderFrom(t, 8, 11) && L.TextsNonEmpty(t, 8);
    assert R.InOrderFrom(t, 7, 10) && L.TextsNonEmpty(t, 7);
    assert R.InOrderFrom(t, 6, 9) && L.TextsNonEmpty(t, 6);
  }

  lemma LetByRawFrom9()
    ensures R.InOrderFrom(LetByRaw.toks, 9, 13) && L.TextsNonEmpty(LetByRaw.toks, 9)
  {
    var t := LetByRaw.toks;
    LetByRawFrom12();
    assert R.InOrderFrom(t, 11, 17) && L.TextsNonEmpty(t, 11);
    assert R.InOrderFrom(t, 10, 16) && L.TextsNonEmpty(t, 10);
    assert R.InOrderFrom(t, 9, 13) && L.TextsNonEmpty(t, 9);
  }

  lemma LetByRawFrom12()
    ensures R.InOrderFrom(LetByRaw.toks, 12, 20) && L.TextsNonEmpty(LetByRaw.toks, 12)
  {
    var t := LetByRaw.toks;
    LetByRawFrom15();
    assert R.InOrderFrom(t, 14, 22) && L.TextsNonEmpty(t, 14);
    assert R.InOrderFrom(t, 13, 21) && L.TextsNonEmpty(t, 13);
    assert R.InOrderFrom(t, 12, 20) && L.TextsNonEmpty(t, 12);
  }

  lemma LetByRawFrom15()
    ensures R.InOrderFrom(LetByRaw.toks, 15, 24) && L.TextsNonEmpty(LetByRaw.toks, 15)
  {
    var t := LetByRaw.toks;
    LetByRawFrom18();
    assert R.InOrderFrom(t, 17, 26) && L.TextsNonEmpty(t, 17);
    assert R.InOrderFrom(t, 16, 25) && L.TextsNonEmpty(t, 16);
    assert R.InOrderFrom(t, 15, 24) && L.TextsNonEmpty(t, 15);
  }

  lemma LetByRawFrom18()
    ensures R.InOrderFrom(LetByRaw.toks, 18, 27) && L.TextsNonEmpty(LetByRaw.toks, 18)
  {
    var t := LetByRaw.toks;
    assert R.InOrderFrom(t, 18, 27) && L.TextsNonEmpty(t, 18);
  }

  /** The tokens `test_let_by_layout` (tests/layout_rules.rs:398-429) expects, then `None`. */
  lemma LetByExpected()
    ensures L.ValidRaw(LetByRaw)
    ensures L.Outputs(LetByRaw, L.Initial, 16) ==
            [
              Some(L.Ok(L.Token.Let)), Some(L.Ok(L.VLBrace)), Some(L.Ok(L.Token.Identifier("x"))), Some(L.Ok(L.Token.ColonEqual)),
              Some(L.Ok(L.Token.Identifier("g"))), Some(L.Ok(L.Token.By)), Some(L.Ok(L.VLBrace)), Some(L.Ok(L.Token.Identifier("y"))),
              Some(L.Ok(L.VSemicolon)), Some(L.Ok(L.Token.Identifier("z"))), Some(L.Ok(L.VRBrace)), Some(L.Ok(L.VRBrace)),
              Some(L.Ok(L.Token.In)), Some(L.Ok(L.Token.Identifier("f"))), Some(L.Ok(L.Token.Identifier("x"))), None]
  {
    LetByRawValid();
    LetByRuns();
    LetByRegroup();
  }

  lemma LetByRegroup()
    ensures [Some(L.Ok(L.Token.Let)), Some(L.Ok(L.VLBrace))]
            + ([Some(L.Ok(L.Token.Identifier("x"))), Some(L.Ok(L.Token.ColonEqual))]
            + ([Some(L.Ok(L.Token.Identifier("g"))), Some(L.Ok(L.Token.By))]
            + ([Some(L.Ok(L.VLBrace)), Some(L.Ok(L.Token.Identifier("y")))]
            + ([Some(L.Ok(L.VSemicolon)), Some(L.Ok(L.Token.Identifier("z")))]
            + ([Some(L.Ok(L.VRBrace)), Some(L.Ok(L.VRBrace))]
            + ([Some(L.Ok(L.Token.In)), Some(L.Ok(L.Token.Identifier("f")))]
            + ([Some(L.Ok(L.Token.Identifier("x"))), None]))))))) ==
            [Some(L.Ok(L.Token.Let)), Some(L.Ok(L.VLBrace)), Some(L.Ok(L.Token.Identifier("x"))), Some(L.Ok(L.Token.ColonEqual)), Some(L.Ok(L.Token.Identifier("g"))), Some(L.Ok(L.Token.By)), Some(L.Ok(L.VLBrace)), Some(L.Ok(L.Token.Identifier("y"))), Some(L.Ok(L.VSemicolon)), Some(L.Ok(L.Token.Identifier("z"))), Some(L.Ok(L.VRBrace)), Some(L.Ok(L.VRBrace)), Some(L.Ok(L.Token.In)), Some(L.Ok(L.Token.Identifier("f"))), Some(L.Ok(L.Token.Identifier("x"))), None]
  {
  }

  /** The run, two calls at a time. */
  lemma LetByRuns()
    requires L.ValidRaw(LetByRaw)
    ensures L.Outputs(LetByRaw, L.Initial, 16) ==
            [Some(L.Ok(L.Token.Let)), Some(L.Ok(L.VLBrace))]
            + ([Some(L.Ok(L.Token.Identifier("x"))), Some(L.Ok(L.Token.ColonEqual))]
            + ([Some(L.Ok(L.Token.Identifier("g"))), Some(L.Ok(L.Token.By))]
            + ([Some(L.Ok(L.VLBrace)), Some(L.Ok(L.Token.Identifier("y")))]
            + ([Some(L.Ok(L.VSemicolon)), Some(L.Ok(L.Token.Identifier("z")))]
            + ([Some(L.Ok(L.VRBrace)), Some(L.Ok(L.VRBrace))]
            + ([Some(L.Ok(L.Token.In)), Some(L.Ok(L.Token.Identifier("f")))]
            + ([Some(L.Ok(L.Token.Identifier("x"))), None])))))))
  {
    LetByCall0To2();
    LetByCall2To4();
    LetByCall4To6();
    LetByCall6To8();
    LetByCall8To10();
    LetByCall10To12();
    LetByCall12To14();
    LetByCall14To16();
    L.OutputsSplit(LetByRaw, L.IterState(17, [], None, 4, []), 2, 0);
    L.OutputsSplit(LetByRaw, L.IterState(15, [], None, 2, [L.Token.In]), 2, 2);
    L.OutputsSplit(LetByRaw, L.IterState(13, [L.Layout.Let(4), L.Other(2)], None, 3, []), 2, 4);
    L.OutputsSplit(LetByRaw, L.IterState(11, [L.Layout.Let(4), L.Other(2)], None, 3, []), 2, 6);
    L.OutputsSplit(LetByRaw, L.IterState(9, [L.Layout.Let(4)], Some(L.Other(0)), 13, [L.VLBrace]), 2, 8);
    L.OutputsSplit(LetByRaw, L.IterState(5, [L.Layout.Let(4)], None, 8, []), 2, 10);
    L.OutputsSplit(LetByRaw, L.IterState(1, [], Some(L.Layout.Let(0)), 3, []), 2, 12);
    L.OutputsSplit(LetByRaw, L.Initial, 2, 14);
  }

  lemma LetByCall0()
    requires L.ValidRaw(LetByRaw)
    ensures L.NextSpec(LetByRaw, L.Initial) == (Some(L.Ok(L.Token.Let)), L.IterState(1, [], Some(L.Layout.Let(0)), 3, [L.VLBrace]))
  {
    assert L.Consume(LetByRaw, L.Initial) == L.Return(Some(L.Ok(L.Token.Let)), L.IterState(1, [], Some(L.Layout.Let(0)), 3, [L.VLBrace]));
  }

  lemma LetByCall1()
    requires L.ValidRaw(LetByRaw)
    ensures L.NextSpec(LetByRaw, L.IterState(1, [], Some(L.Layout.Let(0)), 3, [L.VLBrace])) == (Some(L.Ok(L.VLBrace)), L.IterState(1, [], Some(L.Layout.Let(0)), 3, []))
  {
    assert [L.VLBrace][1..] == [];
  }

  lemma LetByCall2()
    requires L.ValidRaw(LetByRaw)
    ensures L.NextSpec(LetByRaw, L.IterState(1, [], Some(L.Layout.Let(0)), 3, [])) == (Some(L.Ok(L.Token.Identifier("x"))), L.IterState(3, [L.Layout.Let(4)], None, 5, []))
  {
    assert L.Consume(LetByRaw, L.IterState(1, [], Some(L.Layout.Let(0)), 3, [])) == L.Continue(L.IterState(2, [], Some(L.Layout.Let(0)), 4, []));
    assert L.Consume(LetByRaw, L.IterState(2, [], Some(L.Layout.Let(0)), 4, [])) == L.Return(Some(L.Ok(L.Token.Identifier("x"))), L.IterState(3, [L.Layout.Let(4)], None, 5, []));
    assert L.Loop(LetByRaw, L.IterState(1, [], Some(L.Layout.Let(0)), 3, [])) == L.Loop(LetByRaw, L.IterState(2, [], Some(L.Layout.Let(0)), 4, []));
  }

  lemma LetByCall3()
    requires L.ValidRaw(LetByRaw)
    ensures L.NextSpec(LetByRaw, L.IterState(3, [L.Layout.Let(4)], None, 5, [])) == (Some(L.Ok(L.Token.ColonEqual)), L.IterState(5, [L.Layout.Let(4)], None, 8, []))
  {
    assert L.Consume(LetByRaw, L.IterState(3, [L.Layout.Let(4)], None, 5, [])) == L.Continue(L.IterState(4, [L.Layout.Let(4)], None, 6, []));
    assert L.Consume(LetByRaw, L.IterState(4, [L.Layout.Let(4)], None, 6, [])) == L.Return(Some(L.Ok(L.Token.ColonEqual)), L.IterState(5, [L.Layout.Let(4)], None, 8, []));
    assert L.Loop(LetByRaw, L.IterState(3, [L.Layout.Let(4)], None, 5, [])) == L.Loop(LetByRaw, L.IterState(4, [L.Layout.Let(4)], None, 6, []));
  }

  lemma LetByCall4()
    requires L.ValidRaw(LetByRaw)
    ensures L.NextSpec(LetByRaw, L.IterState(5, [L.Layout.Let(4)], None, 8, [])) == (Some(L.Ok(L.Token.Identifier("g"))), L.IterState(7, [L.Layout.Let(4)], None, 10, []))
  {
    assert L.Consume(LetByRaw, L.IterState(5, [L.Layout.Let(4)], None, 8, [])) == L.Continue(L.IterState(6, [L.Layout.Let(4)], None, 9, []));
    assert L.Consume(LetByRaw, L.IterState(6, [L.Layout.Let(4)], None, 9, [])) == L.Return(Some(L.Ok(L.Token.Identifier("g"))), L.IterState(7, [L.Layout.Let(4)], None, 10, []));
    assert L.Loop(LetByRaw, L.IterState(5, [L.Layout.Let(4)], None, 8, [])) == L.Loop(LetByRaw, L.IterState(6, [L.Layout.Let(4)], None, 9, []));
  }

  lemma LetByCall5()
    requires L.ValidRaw(LetByRaw)
    ensures L.NextSpec(LetByRaw, L.IterState(7, [L.Layout.Let(4)], None, 10, [])) == (Some(L.Ok(L.Token.By)), L.IterState(9, [L.Layout.Let(4)], Some(L.Other(0)), 13, [L.VLBrace]))
  {
    assert L.Consume(LetByRaw, L.IterState(7, [L.Layout.Let(4)], None, 10, [])) == L.Continue(L.IterState(8, [L.Layout.Let(4)], None, 11, []));
    assert L.Consume(LetByRaw, L.IterState(8, [L.Layout.Let(4)], None, 11, [])) == L.Return(Some(L.Ok(L.Token.By)), L.IterState(9, [L.Layout.Let(4)], Some(L.Other(0)), 13, [L.VLBrace]));
    assert L.Loop(LetByRaw, L.IterState(7, [L.Layout.Let(4)], None, 10, [])) == L.Loop(LetByRaw, L.IterState(8, [L.Layout.Let(4)], None, 11, []));
  }

  lemma LetByCall6()
    requires L.ValidRaw(LetByRaw)
    ensures L.NextSpec(LetByRaw, L.IterState(9, [L.Layout.Let(4)], Some(L.Other(0)), 13, [L.VLBrace])) == (Some(L.Ok(L.VLBrace)), L.IterState(9, [L.Layout.Let(4)], Some(L.Other(0)), 13, []))
  {
    assert [L.VLBrace][1..] == [];
  }

  lemma LetByCall7()
    requires L.ValidRaw(LetByRaw)
    ensures L.NextSpec(LetByRaw, L.IterState(9, [L.Layout.Let(4)], Some(L.Other(0)), 13, [])) == (Some(L.Ok(L.Token.Identifier("y"))), L.IterState(11, [L.Layout.Let(4), L.Other(2)], None, 3, []))
  {
    assert LetByRaw.toks[9] == R.Spanned(13, L.RawToken.Indent("\n  "), 16);
    assert L.Advance(L.IterState(9, [L.Layout.Let(4)], Some(L.Other(0)), 13, []), R.Spanned(13, L.RawToken.Indent("\n  "), 16)) == L.IterState(10, [L.Layout.Let(4)], Some(L.Other(0)), 16, []);
    assert L.OnIndentStep(LetByRaw, 2, L.IterState(10, [L.Layout.Let(4)], Some(L.Other(0)), 16, [])) == L.Continue(L.IterState(10, [L.Layout.Let(4)], Some(L.Other(0)), 2, []));
    assert L.Consume(LetByRaw, L.IterState(9, [L.Layout.Let(4)], Some(L.Other(0)), 13, [])) == L.Continue(L.IterState(10, [L.Layout.Let(4)], Some(L.Other(0)), 2, []));
    assert L.Consume(LetByRaw, L.IterState(10, [L.Layout.Let(4)], Some(L.Other(0)), 2, [])) == L.Return(Some(L.Ok(L.Token.Identifier("y"))), L.IterState(11, [L.Layout.Let(4), L.Other(2)], None, 3, []));
    assert L.Loop(LetByRaw, L.IterState(9, [L.Layout.Let(4)], Some(L.Other(0)), 13, [])) == L.Loop(LetByRaw, L.IterState(10, [L.Layout.Let(4)], Some(L.Other(0)), 2, []));
  }

  lemma LetByCall8()
    requires L.ValidRaw(LetByRaw)
    ensures L.NextSpec(LetByRaw, L.IterState(11, [L.Layout.Let(4), L.Other(2)], None, 3, [])) == (Some(L.Ok(L.VSemicolon)), L.IterState(12, [L.Layout.Let(4), L.Other(2)], None, 2, []))
  {
    assert LetByRaw.toks[11] == R.Spanned(17, L.RawToken.Indent("\n  "), 20);
    assert L.Advance(L.IterState(11, [L.Layout.Let(4), L.Other(2)], None, 3, []), R.Spanned(17, L.RawToken.Indent("\n  "), 20)) == L.IterState(12, [L.Layout.Let(4), L.Other(2)], None, 6, []);
    assert L.OnIndentStep(LetByRaw, 2, L.IterState(12, [L.Layout.Let(4), L.Other(2)], None, 6, [])) == L.Return(Some(L.Ok(L.VSemicolon)), L.IterState(12, [L.Layout.Let(4), L.Other(2)], None, 2, []));
    assert L.Consume(LetByRaw, L.IterState(11, [L.Layout.Let(4), L.Other(2)], None, 3, [])) == L.Return(Some(L.Ok(L.VSemicolon)), L.IterState(12, [L.Layout.Let(4), L.Other(2)], None, 2, []));
  }

  lemma LetByCall9()
    requires L.ValidRaw(LetByRaw)
    ensures L.NextSpec(LetByRaw, L.IterState(12, [L.Layout.Let(4), L.Other(2)], None, 2, [])) == (Some(L.Ok(L.Token.Identifier("z"))), L.IterState(13, [L.Layout.Let(4), L.Other(2)], None, 3, []))
  {
    assert L.Consume(LetByRaw, L.IterState(12, [L.Layout.Let(4), L.Other(2)], None, 2, [])) == L.Return(Some(L.Ok(L.Token.Identifier("z"))), L.IterState(13, [L.Layout.Let(4), L.Other(2)], None, 3, []));
  }

  lemma LetByCall10()
    requires L.ValidRaw(LetByRaw)
    ensures L.NextSpec(LetByRaw, L.IterState(13, [L.Layout.Let(4), L.Other(2)], None, 3, [])) == (Some(L.Ok(L.VRBrace)), L.IterState(15, [], None, 2, [L.VRBrace, L.Token.In]))
  {
    assert LetByRaw.toks[13] == R.Spanned(21, L.RawToken.Indent("\n"), 22);
    assert L.Advance(L.IterState(13, [L.Layout.Let(4), L.Other(2)], None, 3, []), R.Spanned(21, L.RawToken.Indent("\n"), 22)) == L.IterState(14, [L.Layout.Let(4), L.Other(2)], None, 4, []);
    assert L.OnIndentStep(LetByRaw, 0, L.IterState(14, [L.Layout.Let(4), L.Other(2)], None, 4, [])) == L.Continue(L.IterState(14, [L.Layout.Let(4), L.Other(2)], None, 0, []));
    assert L.Consume(LetByRaw, L.IterState(13, [L.Layout.Let(4), L.Other(2)], None, 3, [])) == L.Continue(L.IterState(14, [L.Layout.Let(4), L.Other(2)], None, 0, []));
    assert LetByRaw.toks[14] == R.Spanned(22, L.RawToken.In, 24);
    assert L.Advance(L.IterState(14, [L.Layout.Let(4), L.Other(2)], None, 0, []), R.Spanned(22, L.RawToken.In, 24)) == L.IterState(15, [L.Layout.Let(4), L.Other(2)], None, 2, []);
    assert L.CloseStep(L.IterState(15, [L.Layout.Let(4), L.Other(2)], None, 2, []), false) == L.Return(Some(L.Ok(L.VRBrace)), L.IterState(15, [], None, 2, [L.VRBrace, L.Token.In]));
    assert L.Consume(LetByRaw, L.IterState(14, [L.Layout.Let(4), L.Other(2)], None, 0, [])) == L.Return(Some(L.Ok(L.VRBrace)), L.IterState(15, [], None, 2, [L.VRBrace, L.Token.In]));
    assert L.Loop(LetByRaw, L.IterState(13, [L.Layout.Let(4), L.Other(2)], None, 3, [])) == L.Loop(LetByRaw, L.IterState(14, [L.Layout.Let(4), L.Other(2)], None, 0, []));
  }

  lemma LetByCall11()
    requires L.ValidRaw(LetByRaw)
    ensures L.NextSpec(LetByRaw, L.IterState(15, [], None, 2, [L.VRBrace, L.Token.In])) == (Some(L.Ok(L.VRBrace)), L.IterState(15, [], None, 2, [L.Token.In]))
  {
    assert [L.VRBrace, L.Token.In][1..] == [L.Token.In];
  }

  lemma LetByCall12()
    requires L.ValidRaw(LetByRaw)
    ensures L.NextSpec(LetByRaw, L.IterState(15, [], None, 2, [L.Token.In])) == (Some(L.Ok(L.Token.In)), L.IterState(15, [], None, 2, []))
  {
    assert [L.Token.In][1..] == [];
  }

  lemma LetByCall13()
    requires L.ValidRaw(LetByRaw)
    ensures L.NextSpec(LetByRaw, L.IterState(15, [], None, 2, [])) == (Some(L.Ok(L.Token.Identifier("f"))), L.IterState(17, [], None, 4, []))
  {
    assert L.Consume(LetByRaw, L.IterState(15, [], None, 2, [])) == L.Continue(L.IterState(16, [], None, 3, []));
    assert L.Consume(LetByRaw, L.IterState(16, [], None, 3, [])) == L.Return(Some(L.Ok(L.Token.Identifier("f"))), L.IterState(17, [], None, 4, []));
    assert L.Loop(LetByRaw, L.IterState(15, [], None, 2, [])) == L.Loop(LetByRaw, L.IterState(16, [], None, 3, []));
  }

  lemma LetByCall14()
    requires L.ValidRaw(LetByRaw)
    ensures L.NextSpec(LetByRaw, L.IterState(17, [], None, 4, [])) == (Some(L.Ok(L.Token.Identifier("x"))), L.IterState(19, [], None, 6, []))
  {
    assert L.Consume(LetByRaw, L.IterState(17, [], None, 4, [])) == L.Continue(L.IterState(18, [], None, 5, []));
    assert L.Consume(LetByRaw, L.IterState(18, [], None, 5, [])) == L.Return(Some(L.Ok(L.Token.Identifier("x"))), L.IterState(19, [], None, 6, []));
    assert L.Loop(LetByRaw, L.IterState(17, [], None, 4, [])) == L.Loop(LetByRaw, L.IterState(18, [], None, 5, []));
  }

  lemma LetByCall15()
    requires L.ValidRaw(LetByRaw)
    ensures L.NextSpec(LetByRaw, L.IterState(19, [], None, 6, [])) == (None, L.IterState(19, [], None, 6, []))
  {
    assert L.AtEnd(LetByRaw, L.IterState(19, [], None, 6, [])) == (None, L.IterState(19, [], None, 6, []));
    assert L.Loop(LetByRaw, L.IterState(19, [], None, 6, [])) == L.AtEnd(LetByRaw, L.IterState(19, [], None, 6, []));
  }

  lemma LetByCall0To2()
    requires L.ValidRaw(LetByRaw)
    ensures L.After(LetByRaw, L.Initial, 2) == L.IterState(1, [], Some(L.Layout.Let(0)), 3, [])
    ensures L.Outputs(LetByRaw, L.Initial, 2) == [Some(L.Ok(L.Token.Let)), Some(L.Ok(L.VLBrace))]
  {
    assert L.Outputs(LetByRaw, L.IterState(1, [], Some(L.Layout.Let(0)), 3, [L.VLBrace]), 1) == [Some(L.Ok(L.VLBrace))] + L.Outputs(LetByRaw, L.IterState(1, [], Some(L.Layout.Let(0)), 3, []), 0) &&
           L.After(LetByRaw, L.IterState(1, [], Some(L.Layout.Let(0)), 3, [L.VLBrace]), 1) == L.After(LetByRaw, L.IterState(1, [], Some(L.Layout.Let(0)), 3, []), 0) by {
      LetByCall1();
      L.OutputsStep(LetByRaw, L.IterState(1, [], Some(L.Layout.Let(0)), 3, [L.VLBrace]), 1, Some(L.Ok(L.VLBrace)), L.IterState(1, [], Some(L.Layout.Let(0)), 3, []));
    }
    assert L.Outputs(LetByRaw, L.Initial, 2) == [Some(L.Ok(L.Token.Let))] + L.Outputs(LetByRaw, L.IterState(1, [], Some(L.Layout.Let(0)), 3, [L.VLBrace]), 1) &&
           L.After(LetByRaw, L.Initial, 2) == L.After(LetByRaw, L.IterState(1, [], Some(L.Layout.Let(0)), 3, [L.VLBrace]), 1) by {
      LetByCall0();
      L.OutputsStep(LetByRaw, L.Initial, 2, Some(L.Ok(L.Token.Let)), L.IterState(1, [], Some(L.Layout.Let(0)), 3, [L.VLBrace]));
    }
  }

  lemma LetByCall2To4()
    requires L.ValidRaw(LetByRaw)
    ensures L.After(LetByRaw, L.IterState(1, [], Some(L.Layout.Let(0)), 3, []), 2) == L.IterState(5, [L.Layout.Let(4)], None, 8, [])
    ensures L.Outputs(LetByRaw, L.IterState(1, [], Some(L.Layout.Let(0)), 3, []), 2) == [Some(L.Ok(L.Token.Identifier("x"))), Some(L.Ok(L.Token.ColonEqual))]
  {
    assert L.Outputs(LetByRaw, L.IterState(3, [L.Layout.Let(4)], None, 5, []), 1) == [Some(L.Ok(L.Token.ColonEqual))] + L.Outputs(LetByRaw, L.IterState(5, [L.Layout.Let(4)], None, 8, []), 0) &&
           L.After(LetByRaw, L.IterState(3, [L.Layout.Let(4)], None, 5, []), 1) == L.After(LetByRaw, L.IterState(5, [L.Layout.Let(4)], None, 8, []), 0) by {
      LetByCall3();
      L.OutputsStep(LetByRaw, L.IterState(3, [L.Layout.Let(4)], None, 5, []), 1, Some(L.Ok(L.Token.ColonEqual)), L.IterState(5, [L.Layout.Let(4)], None, 8, []));
    }
    assert L.Outputs(LetByRaw, L.IterState(1, [], Some(L.Layout.Let(0)), 3, []), 2) == [Some(L.Ok(L.Token.Identifier("x")))] + L.Outputs(LetByRaw, L.IterState(3, [L.Layout.Let(4)], None, 5, []), 1) &&
           L.After(LetByRaw, L.IterState(1, [], Some(L.Layout.Let(0)), 3, []), 2) == L.After(LetByRaw, L.IterState(3, [L.Layout.Let(4)], None, 5, []), 1) by {
      LetByCall2();
      L.OutputsStep(LetByRaw, L.IterState(1, [], Some(L.Layout.Let(0)), 3, []), 2, Some(L.Ok(L.Token.Identifier("x"))), L.IterState(3, [L.Layout.Let(4)], None, 5, []));
    }
  }

  lemma LetByCall4To6()
    requires L.ValidRaw(LetByRaw)
    ensures L.After(LetByRaw, L.IterState(5, [L.Layout.Let(4)], None, 8, []), 2) == L.IterState(9, [L.Layout.Let(4)], Some(L.Other(0)), 13, [L.VLBrace])
    ensures L.Outputs(LetByRaw, L.IterState(5, [L.Layout.Let(4)], None, 8, []), 2) == [Some(L.Ok(L.Token.Identifier("g"))), Some(L.Ok(L.Token.By))]
  {
    assert L.Outputs(LetByRaw, L.IterState(7, [L.Layout.Let(4)], None, 10, []), 1) == [Some(L.Ok(L.Token.By))] + L.Outputs(LetByRaw, L.IterState(9, [L.Layout.Let(4)], Some(L.Other(0)), 13, [L.VLBrace]), 0) &&
           L.After(LetByRaw, L.IterState(7, [L.Layout.Let(4)], None, 10, []), 1) == L.After(LetByRaw, L.IterState(9, [L.Layout.Let(4)], Some(L.Other(0)), 13, [L.VLBrace]), 0) by {
      LetByCall5();
      L.OutputsStep(LetByRaw, L.IterState(7, [L.Layout.Let(4)], None, 10, []), 1, Some(L.Ok(L.Token.By)), L.IterState(9, [L.Layout.Let(4)], Some(L.Other(0)), 13, [L.VLBrace]));
    }
    assert L.Outputs(LetByRaw, L.IterState(5, [L.Layout.Let(4)], None, 8, []), 2) == [Some(L.Ok(L.Token.Identifier("g")))] + L.Outputs(LetByRaw, L.IterState(7, [L.Layout.Let(4)], None, 10, []), 1) &&
           L.After(LetByRaw, L.IterState(5, [L.Layout.Let(4)], None, 8, []), 2) == L.After(LetByRaw, L.IterState(7, [L.Layout.Let(4)], None, 10, []), 1) by {
      LetByCall4();
      L.OutputsStep(LetByRaw, L.IterState(5, [L.Layout.Let(4)], None, 8, []), 2, Some(L.Ok(L.Token.Identifier("g"))), L.IterState(7, [L.Layout.Let(4)], None, 10, []));
    }
  }

  lemma LetByCall6To8()
    requires L.ValidRaw(LetByRaw)
    ensures L.After(LetByRaw, L.IterState(9, [L.Layout.Let(4)], Some(L.Other(0)), 13, [L.VLBrace]), 2) == L.IterState(11, [L.Layout.Let(4), L.Other(2)], None, 3, [])
    ensures L.Outputs(LetByRaw, L.IterState(9, [L.Layout.Let(4)], Some(L.Other(0)), 13, [L.VLBrace]), 2) == [Some(L.Ok(L.VLBrace)), Some(L.Ok(L.Token.Identifier("y")))]
  {
    assert L.Outputs(LetByRaw, L.IterState(9, [L.Layout.Let(4)], Some(L.Other(0)), 13, []), 1) == [Some(L.Ok(L.Token.Identifier("y")))] + L.Outputs(LetByRaw, L.IterState(11, [L.Layout.Let(4), L.Other(2)], None, 3, []), 0) &&
           L.After(LetByRaw, L.IterState(9, [L.Layout.Let(4)], Some(L.Other(0)), 13, []), 1) == L.After(LetByRaw, L.IterState(11, [L.Layout.Let(4), L.Other(2)], None, 3, []), 0) by {
      LetByCall7();
      L.OutputsStep(LetByRaw, L.IterState(9, [L.Layout.Let(4)], Some(L.Other(0)), 13, []), 1, Some(L.Ok(L.Token.Identifier("y"))), L.IterState(11, [L.Layout.Let(4), L.Other(2)], None, 3, []));
    }
    assert L.Outputs(LetByRaw, L.IterState(9, [L.Layout.Let(4)], Some(L.Other(0)), 13, [L.VLBrace]), 2) == [Some(L.Ok(L.VLBrace))] + L.Outputs(LetByRaw, L.IterState(9, [L.Layout.Let(4)], Some(L.Other(0)), 13, []), 1) &&
           L.After(LetByRaw, L.IterState(9, [L.Layout.Let(4)], Some(L.Other(0)), 13, [L.VLBrace]), 2) == L.After(LetByRaw, L.IterState(9, [L.Layout.Let(4)], Some(L.Other(0)), 13, []), 1) by {
      LetByCall6();
      L.OutputsStep(LetByRaw, L.IterState(9, [L.Layout.Let(4)], Some(L.Other(0)), 13, [L.VLBrace]), 2, Some(L.Ok(L.VLBrace)), L.IterState(9, [L.Layout.Let(4)], Some(L.Other(0)), 13, []));
    }
  }

  lemma LetByCall8To10()
    requires L.ValidRaw(LetByRaw)
    ensures L.After(LetByRaw, L.IterState(11, [L.Layout.Let(4), L.Other(2)], None, 3, []), 2) == L.IterState(13, [L.Layout.Let(4), L.Other(2)], None, 3, [])
    ensures L.Outputs(LetByRaw, L.IterState(11, [L.Layout.Let(4), L.Other(2)], None, 3, []), 2) == [Some(L.Ok(L.VSemicolon)), Some(L.Ok(L.Token.Identifier("z")))]
  {
    assert L.Outputs(LetByRaw, L.IterState(12, [L.Layout.Let(4), L.Other(2)], None, 2, []), 1) == [Some(L.Ok(L.Token.Identifier("z")))] + L.Outputs(LetByRaw, L.IterState(13, [L.Layout.Let(4), L.Other(2)], None, 3, []), 0) &&
           L.After(LetByRaw, L.IterState(12, [L.Layout.Let(4), L.Other(2)], None, 2, []), 1) == L.After(LetByRaw, L.IterState(13, [L.Layout.Let(4), L.Other(2)], None, 3, []), 0) by {
      LetByCall9();
      L.OutputsStep(LetByRaw, L.IterState(12, [L.Layout.Let(4), L.Other(2)], None, 2, []), 1, Some(L.Ok(L.Token.Identifier("z"))), L.IterState(13, [L.Layout.Let(4), L.Other(2)], None, 3, []));
    }
    assert L.Outputs(LetByRaw, L.IterState(11, [L.Layout.Let(4), L.Other(2)], None, 3, []), 2) == [Some(L.Ok(L.VSemicolon))] + L.Outputs(LetByRaw, L.IterState(12, [L.Layout.Let(4), L.Other(2)], None, 2, []), 1) &&
           L.After(LetByRaw, L.IterState(11, [L.Layout.Let(4), L.Other(2)], None, 3, []), 2) == L.After(LetByRaw, L.IterState(12, [L.Layout.Let(4), L.Other(2)], None, 2, []), 1) by {
      LetByCall8();
      L.OutputsStep(LetByRaw, L.IterState(11, [L.Layout.Let(4), L.Other(2)], None, 3, []), 2, Some(L.Ok(L.VSemicolon)), L.IterState(12, [L.Layout.Let(4), L.Other(2)], None, 2, []));
    }
  }

  lemma LetByCall10To12()
    requires L.ValidRaw(LetByRaw)
    ensures L.After(LetByRaw, L.IterState(13, [L.Layout.Let(4), L.Other(2)], None, 3, []), 2) == L.IterState(15, [], None, 2, [L.Token.In])
    ensures L.Outputs(LetByRaw, L.IterState(13, [L.Layout.Let(4), L.Other(2)], None, 3, []), 2) == [Some(L.Ok(L.VRBrace)), Some(L.Ok(L.VRBrace))]
  {
    assert L.Outputs(LetByRaw, L.IterState(15, [], None, 2, [L.VRBrace, L.Token.In]), 1) == [Some(L.Ok(L.VRBrace))] + L.Outputs(LetByRaw, L.IterState(15, [], None, 2, [L.Token.In]), 0) &&
           L.After(LetByRaw, L.IterState(15, [], None, 2, [L.VRBrace, L.Token.In]), 1) == L.After(LetByRaw, L.IterState(15, [], None, 2, [L.Token.In]), 0) by {
      LetByCall11();
      L.OutputsStep(LetByRaw, L.IterState(15, [], None, 2, [L.VRBrace, L.Token.In]), 1, Some(L.Ok(L.VRBrace)), L.IterState(15, [], None, 2, [L.Token.In]));
    }
    assert L.Outputs(LetByRaw, L.IterState(13, [L.Layout.Let(4), L.Other(2)], None, 3, []), 2) == [Some(L.Ok(L.VRBrace))] + L.Outputs(LetByRaw, L.IterState(15, [], None, 2, [L.VRBrace, L.Token.In]), 1) &&
           L.After(LetByRaw, L.IterState(13, [L.Layout.Let(4), L.Other(2)], None, 3, []), 2) == L.After(LetByRaw, L.IterState(15, [], None, 2, [L.VRBrace, L.Token.In]), 1) by {
      LetByCall10();
      L.OutputsStep(LetByRaw, L.IterState(13, [L.Layout.Let(4), L.Other(2)], None, 3, []), 2, Some(L.Ok(L.VRBrace)), L.IterState(15, [], None, 2, [L.VRBrace, L.Token.In]));
    }
  }

  lemma LetByCall12To14()
    requires L.ValidRaw(LetByRaw)
    ensures L.After(LetByRaw, L.IterState(15, [], None, 2, [L.Token.In]), 2) == L.IterState(17, [], None, 4, [])
    ensures L.Outputs(LetByRaw, L.IterState(15, [], None, 2, [L.Token.In]), 2) == [Some(L.Ok(L.Token.In)), Some(L.Ok(L.Token.Identifier("f")))]
  {
    assert L.Outputs(LetByRaw, L.IterState(15, [], None, 2, []), 1) == [Some(L.Ok(L.Token.Identifier("f")))] + L.Outputs(LetByRaw, L.IterState(17, [], None, 4, []), 0) &&
           L.After(LetByRaw, L.IterState(15, [], None, 2, []), 1) == L.After(LetByRaw, L.IterState(17, [], None, 4, []), 0) by {
      LetByCall13();
      L.OutputsStep(LetByRaw, L.IterState(15, [], None, 2, []), 1, Some(L.Ok(L.Token.Identifier("f"))), L.IterState(17, [], None, 4, []));
    }
    assert L.Outputs(LetByRaw, L.IterState(15, [], None, 2, [L.Token.In]), 2) == [Some(L.Ok(L.Token.In))] + L.Outputs(LetByRaw, L.IterState(15, [], None, 2, []), 1) &&
           L.After(LetByRaw, L.IterState(15, [], None, 2, [L.Token.In]), 2) == L.After(LetByRaw, L.IterState(15, [], None, 2, []), 1) by {
      LetByCall12();
      L.OutputsStep(LetByRaw, L.IterState(15, [], None, 2, [L.Token.In]), 2, Some(L.Ok(L.Token.In)), L.IterState(15, [], None, 2, []));
    }
  }

  lemma LetByCall14To16()
    requires L.ValidRaw(LetByRaw)
    ensures L.After(LetByRaw, L.IterState(17, [], None, 4, []), 2) == L.IterState(19, [], None, 6, [])
    ensures L.Outputs(LetByRaw, L.IterState(17, [], None, 4, []), 2) == [Some(L.Ok(L.Token.Identifier("x"))), None]
  {
    assert L.Outputs(LetByRaw, L.IterState(19, [], None, 6, []), 1) == [None] + L.Outputs(LetByRaw, L.IterState(19, [], None, 6, []), 0) &&
           L.After(LetByRaw, L.IterState(19, [], None, 6, []), 1) == L.After(LetByRaw, L.IterState(19, [], None, 6, []), 0) by {
      LetByCall15();
      L.OutputsStep(LetByRaw, L.IterState(19, [], None, 6, []), 1, None, L.IterState(19, [], None, 6, []));
    }
    assert L.Outputs(LetByRaw, L.IterState(17, [], None, 4, []), 2) == [Some(L.Ok(L.Token.Identifier("x")))] + L.Outputs(LetByRaw, L.IterState(19, [], None, 6, []), 1) &&
           L.After(LetByRaw, L.IterState(17, [], None, 4, []), 2) == L.After(LetByRaw, L.IterState(19, [], None, 6, []), 1) by {
      LetByCall14();
      L.OutputsStep(LetByRaw, L.IterState(17, [], None, 4, []), 2, Some(L.Ok(L.Token.Identifier("x"))), L.IterState(19, [], None, 6, []));
    }
  }

  /** The raw tokens of the input of `test_let_by_single_line`: `in` closes a `by` block and a `let`
      block on the same line. */
  const LetBySingleLineRaw: R.Stream<L.RawToken> := R.Stream(seq(17, i requires 0 <= i => LetBySingleLineTok(i)), None)

  function LetBySingleLineTok(i: nat): R.Spanned<L.RawToken>
  {
    if i == 0 then R.Spanned(0, L.RawToken.Let, 3)
    else if i == 1 then R.Spanned(3, L.RawToken.Whitespace(" "), 4)
    else if i == 2 then R.Spanned(4, L.RawToken.Identifier("x"), 5)
    else if i == 3 then R.Spanned(5, L.RawToken.Whitespace(" "), 6)
    else if i == 4 then R.Spanned(6, L.RawToken.ColonEqual, 8)
    else if i == 5 then R.Spanned(8, L.RawToken.Whitespace(" "), 9)
    else if i == 6 then R.Spanned(9, L.RawToken.Identifier("p"), 10)
    else if i == 7 then R.Spanned(10, L.RawToken.Whitespace(" "), 11)
    else if i == 8 then R.Spanned(11, L.RawToken.By, 13)
    else if i == 9 then R.Spanned(13, L.RawToken.Whitespace(" "), 14)
    else if i == 10 then R.Spanned(14, L.RawToken.Identifier("a"), 15)
    else if i == 11 then R.Spanned(15, L.RawToken.Whitespace(" "), 16)
    else if i == 12 then R.Spanned(16, L.RawToken.Identifier("b"), 17)
    else if i == 13 then R.Spanned(17, L.RawToken.Whitespace(" "), 18)
    else if i == 14 then R.Spanned(18, L.RawToken.In, 20)
    else if i == 15 then R.Spanned(20, L.RawToken.Whitespace(" "), 21)
    else R.Spanned(21, L.RawToken.Identifier("x"), 22)
  }

  lemma LetBySingleLineRawValid()
    ensures L.ValidRaw(LetBySingleLineRaw)
  {
    LetBySingleLineRawFrom0();
    L.ValidRawOf(LetBySingleLineRaw.toks);
  }

  lemma LetBySingleLineRawFrom0()
    ensures R.InOrderFrom(LetBySingleLineRaw.toks, 0, 0) && L.TextsNonEmpty(LetBySingleLineRaw.toks, 0)
  {
    var t := LetBySingleLineRaw.toks;
    LetBySingleLineRawFrom3();
    assert R.InOrderFrom(t, 2, 4) && L.TextsNonEmpty(t, 2);
    assert R.InOrderFrom(t, 1, 3) && L.TextsNonEmpty(t, 1);
    assert R.InOrderFrom(t, 0, 0) && L.TextsNonEmpty(t, 0);
  }

  lemma LetBySingleLineRawFrom3()
    ensures R.InOrderFrom(LetBySingleLineRaw.toks, 3, 5) && L.TextsNonEmpty(LetBySingleLineRaw.toks, 3)
  {
    var t := LetBySingleLineRaw.toks;
    LetBySingleLineRawFrom6();
    assert R.InOrderFrom(t, 5, 8) && L.TextsNonEmpty(t, 5);
    assert R.InOrderFrom(t, 4, 6) && L.TextsNonEmpty(t, 4);
    assert R.InOrderFrom(t, 3, 5) && L.TextsNonEmpty(t, 3);
  }

  lemma LetBySingleLineRawFrom6()
    ensures R.InOrderFrom(LetBySingleLineRaw.toks, 6, 9) && L.TextsNonEmpty(LetBySingleLineRaw.toks, 6)
  {
    var t := LetBySingleLineRaw.toks;
    LetBySingleLineRawFrom9();
    assert R.InOrderFrom(t, 8, 11) && L.TextsNonEmpty(t, 8);
    assert R.InOrderFrom(t, 7, 10) && L.TextsNonEmpty(t, 7);
    assert R.InOrderFrom(t, 6, 9) && L.TextsNonEmpty(t, 6);
  }

  lemma LetBySingleLineRawFrom9()
    ensures R.InOrderFrom(LetBySingleLineRaw.toks, 9, 13) && L.TextsNonEmpty(LetBySingleLineRaw.toks, 9)
  {
    var t := LetBySingleLineRaw.toks;
    LetBySingleLineRawFrom12();
    assert R.InOrderFrom(t, 11, 15) && L.TextsNonEmpty(t, 11);
    assert R.InOrderFrom(t, 10, 14) && L.TextsNonEmpty(t, 10);
    assert R.InOrderFrom(t, 9, 13) && L.TextsNonEmpty(t, 9);
  }

  lemma LetBySingleLineRawFrom12()
    ensures R.InOrderFrom(LetBySingleLineRaw.toks, 12, 16) && L.TextsNonEmpty(LetBySingleLineRaw.toks, 12)
  {
    var t := LetBySingleLineRaw.toks;
    LetBySingleLineRawFrom15();
    assert R.InOrderFrom(t, 14, 18) && L.TextsNonEmpty(t, 14);
    assert R.InOrderFrom(t, 13, 17) && L.TextsNonEmpty(t, 13);
    assert R.InOrderFrom(t, 12, 16) && L.TextsNonEmpty(t, 12);
  }

  lemma LetBySingleLineRawFrom15()
    ensures R.InOrderFrom(LetBySingleLineRaw.toks, 15, 20) && L.TextsNonEmpty(LetBySingleLineRaw.toks, 15)
  {
    var t := LetBySingleLineRaw.toks;
    assert R.InOrderFrom(t, 16, 21) && L.TextsNonEmpty(t, 16);
    assert R.InOrderFrom(t, 15, 20) && L.TextsNonEmpty(t, 15);
  }

  /** The tokens `test_let_by_single_line` (tests/layout_rules.rs:431-456) expects, then `None`. */
  lemma LetBySingleLineExpected()
    ensures L.ValidRaw(LetBySingleLineRaw)
    ensures L.Outputs(LetBySingleLineRaw, L.Initial, 14) ==
            [
              Some(L.Ok(L.Token.Let)), Some(L.Ok(L.VLBrace)), Some(L.Ok(L.Token.Identifier("x"))), Some(L.Ok(L.Token.ColonEqual)),
              Some(L.Ok(L.Token.Identifier("p"))), Some(L.Ok(L.Token.By)), Some(L.Ok(L.VLBrace)), Some(L.Ok(L.Token.Identifier("a"))),
              Some(L.Ok(L.Token.Identifier("b"))), Some(L.Ok(L.VRBrace)), Some(L.Ok(L.VRBrace)), Some(L.Ok(L.Token.In)),
              Some(L.Ok(L.Token.Identifier("x"))), None]
  {
    LetBySingleLineRawValid();
    LetBySingleLineRuns();
    LetBySingleLineRegroup();
  }

  lemma LetBySingleLineRegroup()
    ensures [Some(L.Ok(L.Token.Let)), Some(L.Ok(L.VLBrace))]
            + ([Some(L.Ok(L.Token.Identifier("x"))), Some(L.Ok(L.Token.ColonEqual))]
            + ([Some(L.Ok(L.Token.Identifier("p"))), Some(L.Ok(L.Token.By))]
            + ([Some(L.Ok(L.VLBrace)), Some(L.Ok(L.Token.Identifier("a")))]
            + ([Some(L.Ok(L.Token.Identifier("b"))), Some(L.Ok(L.VRBrace))]
            + ([Some(L.Ok(L.VRBrace)), Some(L.Ok(L.Token.In))]
            + ([Some(L.Ok(L.Token.Identifier("x"))), None])))))) ==
            [Some(L.Ok(L.Token.Let)), Some(L.Ok(L.VLBrace)), Some(L.Ok(L.Token.Identifier("x"))), Some(L.Ok(L.Token.ColonEqual)), Some(L.Ok(L.Token.Identifier("p"))), Some(L.Ok(L.Token.By)), Some(L.Ok(L.VLBrace)), Some(L.Ok(L.Token.Identifier("a"))), Some(L.Ok(L.Token.Identifier("b"))), Some(L.Ok(L.VRBrace)), Some(L.Ok(L.VRBrace)), Some(L.Ok(L.Token.In)), Some(L.Ok(L.Token.Identifier("x"))), None]
  {
  }

  /** The run, two calls at a time. */
  lemma LetBySingleLineRuns()
    requires L.ValidRaw(LetBySingleLineRaw)
    ensures L.Outputs(LetBySingleLineRaw, L.Initial, 14) ==
            [Some(L.Ok(L.Token.Let)), Some(L.Ok(L.VLBrace))]
            + ([Some(L.Ok(L.Token.Identifier("x"))), Some(L.Ok(L.Token.ColonEqual))]
            + ([Some(L.Ok(L.Token.Identifier("p"))), Some(L.Ok(L.Token.By))]
            + ([Some(L.Ok(L.VLBrace)), Some(L.Ok(L.Token.Identifier("a")))]
            + ([Some(L.Ok(L.Token.Identifier("b"))), Some(L.Ok(L.VRBrace))]
            + ([Some(L.Ok(L.VRBrace)), Some(L.Ok(L.Token.In))]
            + ([Some(L.Ok(L.Token.Identifier("x"))), None]))))))
  {
    LetBySingleLineCall0To2();
    LetBySingleLineCall2To4();
    LetBySingleLineCall4To6();
    LetBySingleLineCall6To8();
    LetBySingleLineCall8To10();
    LetBySingleLineCall10To12();
    LetBySingleLineCall12To14();
    L.OutputsSplit(LetBySingleLineRaw, L.IterState(15, [], None, 20, []), 2, 0);
    L.OutputsSplit(LetBySingleLineRaw, L.IterState(15, [], None, 20, [L.VRBrace, L.Token.In]), 2, 2);
    L.OutputsSplit(LetBySingleLineRaw, L.IterState(11, [L.Layout.Let(4), L.Other(14)], None, 15, []), 2, 4);
    L.OutputsSplit(LetBySingleLineRaw, L.IterState(9, [L.Layout.Let(4)], Some(L.Other(0)), 13, [L.VLBrace]), 2, 6);
    L.OutputsSplit(LetBySingleLineRaw, L.IterState(5, [L.Layout.Let(4)], None, 8, []), 2, 8);
    L.OutputsSplit(LetBySingleLineRaw, L.IterState(1, [], Some(L.Layout.Let(0)), 3, []), 2, 10);
    L.OutputsSplit(LetBySingleLineRaw, L.Initial, 2, 12);
  }

  lemma LetBySingleLineCall0()
    requires L.ValidRaw(LetBySingleLineRaw)
    ensures L.NextSpec(LetBySingleLineRaw, L.Initial) == (Some(L.Ok(L.Token.Let)), L.IterState(1, [], Some(L.Layout.Let(0)), 3, [L.VLBrace]))
  {
    assert L.Consume(LetBySingleLineRaw, L.Initial) == L.Return(Some(L.Ok(L.Token.Let)), L.IterState(1, [], Some(L.Layout.Let(0)), 3, [L.VLBrace]));
  }

  lemma LetBySingleLineCall1()
    requires L.ValidRaw(LetBySingleLineRaw)
    ensures L.NextSpec(LetBySingleLineRaw, L.IterState(1, [], Some(L.Layout.Let(0)), 3, [L.VLBrace])) == (Some(L.Ok(L.VLBrace)), L.IterState(1, [], Some(L.Layout.Let(0)), 3, []))
  {
    assert [L.VLBrace][1..] == [];
  }

  lemma LetBySingleLineCall2()
    requires L.ValidRaw(LetBySingleLineRaw)
    ensures L.NextSpec(LetBySingleLineRaw, L.IterState(1, [], Some(L.Layout.Let(0)), 3, [])) == (Some(L.Ok(L.Token.Identifier("x"))), L.IterState(3, [L.Layout.Let(4)], None, 5, []))
  {
    assert L.Consume(LetBySingleLineRaw, L.IterState(1, [], Some(L.Layout.Let(0)), 3, [])) == L.Continue(L.IterState(2, [], Some(L.Layout.Let(0)), 4, []));
    assert L.Consume(LetBySingleLineRaw, L.IterState(2, [], Some(L.Layout.Let(0)), 4, [])) == L.Return(Some(L.Ok(L.Token.Identifier("x"))), L.IterState(3, [L.Layout.Let(4)], None, 5, []));
    assert L.Loop(LetBySingleLineRaw, L.IterState(1, [], Some(L.Layout.Let(0)), 3, [])) == L.Loop(LetBySingleLineRaw, L.IterState(2, [], Some(L.Layout.Let(0)), 4, []));
  }

  lemma LetBySingleLineCall3()
    requires L.ValidRaw(LetBySingleLineRaw)
    ensures L.NextSpec(LetBySingleLineRaw, L.IterState(3, [L.Layout.Let(4)], None, 5, [])) == (Some(L.Ok(L.Token.ColonEqual)), L.IterState(5, [L.Layout.Let(4)], None, 8, []))
  {
    assert L.Consume(LetBySingleLineRaw, L.IterState(3, [L.Layout.Let(4)], None, 5, [])) == L.Continue(L.IterState(4, [L.Layout.Let(4)], None, 6, []));
    assert L.Consume(LetBySingleLineRaw, L.IterState(4, [L.Layout.Let(4)], None, 6, [])) == L.Return(Some(L.Ok(L.Token.ColonEqual)), L.IterState(5, [L.Layout.Let(4)], None, 8, []));
    assert L.Loop(LetBySingleLineRaw, L.IterState(3, [L.Layout.Let(4)], None, 5, [])) == L.Loop(LetBySingleLineRaw, L.IterState(4, [L.Layout.Let(4)], None, 6, []));
  }

  lemma LetBySingleLineCall4()
    requires L.ValidRaw(LetBySingleLineRaw)
    ensures L.NextSpec(LetBySingleLineRaw, L.IterState(5, [L.Layout.Let(4)], None, 8, [])) == (Some(L.Ok(L.Token.Identifier("p"))), L.IterState(7, [L.Layout.Let(4)], None, 10, []))
  {
    assert L.Consume(LetBySingleLineRaw, L.IterState(5, [L.Layout.Let(4)], None, 8, [])) == L.Continue(L.IterState(6, [L.Layout.Let(4)], None, 9, []));
    assert L.Consume(LetBySingleLineRaw, L.IterState(6, [L.Layout.Let(4)], None, 9, [])) == L.Return(Some(L.Ok(L.Token.Identifier("p"))), L.IterState(7, [L.Layout.Let(4)], None, 10, []));
    assert L.Loop(LetBySingleLineRaw, L.IterState(5, [L.Layout.Let(4)], None, 8, [])) == L.Loop(LetBySingleLineRaw, L.IterState(6, [L.Layout.Let(4)], None, 9, []));
  }

  lemma LetBySingleLineCall5()
    requires L.ValidRaw(LetBySingleLineRaw)
    ensures L.NextSpec(LetBySingleLineRaw, L.IterState(7, [L.Layout.Let(4)], None, 10, [])) == (Some(L.Ok(L.Token.By)), L.IterState(9, [L.Layout.Let(4)], Some(L.Other(0)), 13, [L.VLBrace]))
  {
    assert L.Consume(LetBySingleLineRaw, L.IterState(7, [L.Layout.Let(4)], None, 10, [])) == L.Continue(L.IterState(8, [L.Layout.Let(4)], None, 11, []));
    assert L.Consume(LetBySingleLineRaw, L.IterState(8, [L.Layout.Let(4)], None, 11, [])) == L.Return(Some(L.Ok(L.Token.By)), L.IterState(9, [L.Layout.Let(4)], Some(L.Other(0)), 13, [L.VLBrace]));
    assert L.Loop(LetBySingleLineRaw, L.IterState(7, [L.Layout.Let(4)], None, 10, [])) == L.Loop(LetBySingleLineRaw, L.IterState(8, [L.Layout.Let(4)], None, 11, []));
  }

  lemma LetBySingleLineCall6()
    requires L.ValidRaw(LetBySingleLineRaw)
    ensures L.NextSpec(LetBySingleLineRaw, L.IterState(9, [L.Layout.Let(4)], Some(L.Other(0)), 13, [L.VLBrace])) == (Some(L.Ok(L.VLBrace)), L.IterState(9, [L.Layout.Let(4)], Some(L.Other(0)), 13, []))
  {
    assert [L.VLBrace][1..] == [];
  }

  lemma LetBySingleLineCall7()
    requires L.ValidRaw(LetBySingleLineRaw)
    ensures L.NextSpec(LetBySingleLineRaw, L.IterState(9, [L.Layout.Let(4)], Some(L.Other(0)), 13, [])) == (Some(L.Ok(L.Token.Identifier("a"))), L.IterState(11, [L.Layout.Let(4), L.Other(14)], None, 15, []))
  {
    assert L.Consume(LetBySingleLineRaw, L.IterState(9, [L.Layout.Let(4)], Some(L.Other(0)), 13, [])) == L.Continue(L.IterState(10, [L.Layout.Let(4)], Some(L.Other(0)), 14, []));
    assert L.Consume(LetBySingleLineRaw, L.IterState(10, [L.Layout.Let(4)], Some(L.Other(0)), 14, [])) == L.Return(Some(L.Ok(L.Token.Identifier("a"))), L.IterState(11, [L.Layout.Let(4), L.Other(14)], None, 15, []));
    assert L.Loop(LetBySingleLineRaw, L.IterState(9, [L.Layout.Let(4)], Some(L.Other(0)), 13, [])) == L.Loop(LetBySingleLineRaw, L.IterState(10, [L.Layout.Let(4)], Some(L.Other(0)), 14, []));
  }

  lemma LetBySingleLineCall8()
    requires L.ValidRaw(LetBySingleLineRaw)
    ensures L.NextSpec(LetBySingleLineRaw, L.IterState(11, [L.Layout.Let(4), L.Other(14)], None, 15, [])) == (Some(L.Ok(L.Token.Identifier("b"))), L.IterState(13, [L.Layout.Let(4), L.Other(14)], None, 17, []))
  {
    assert L.Consume(LetBySingleLineRaw, L.IterState(11, [L.Layout.Let(4), L.Other(14)], None, 15, [])) == L.Continue(L.IterState(12, [L.Layout.Let(4), L.Other(14)], None, 16, []));
    assert L.Consume(LetBySingleLineRaw, L.IterState(12, [L.Layout.Let(4), L.Other(14)], None, 16, [])) == L.Return(Some(L.Ok(L.Token.Identifier("b"))), L.IterState(13, [L.Layout.Let(4), L.Other(14)], None, 17, []));
    assert L.Loop(LetBySingleLineRaw, L.IterState(11, [L.Layout.Let(4), L.Other(14)], None, 15, [])) == L.Loop(LetBySingleLineRaw, L.IterState(12, [L.Layout.Let(4), L.Other(14)], None, 16, []));
  }

  lemma LetBySingleLineCall9()
    requires L.ValidRaw(LetBySingleLineRaw)
    ensures L.NextSpec(LetBySingleLineRaw, L.IterState(13, [L.Layout.Let(4), L.Other(14)], None, 17, [])) == (Some(L.Ok(L.VRBrace)), L.IterState(15, [], None, 20, [L.VRBrace, L.Token.In]))
  {
    assert L.Consume(LetBySingleLineRaw, L.IterState(13, [L.Layout.Let(4), L.Other(14)], None, 17, [])) == L.Continue(L.IterState(14, [L.Layout.Let(4), L.Other(14)], None, 18, []));
    assert LetBySingleLineRaw.toks[14] == R.Spanned(18, L.RawToken.In, 20);
    assert L.Advance(L.IterState(14, [L.Layout.Let(4), L.Other(14)], None, 18, []), R.Spanned(18, L.RawToken.In, 20)) == L.IterState(15, [L.Layout.Let(4), L.Other(14)], None, 20, []);
    assert L.CloseStep(L.IterState(15, [L.Layout.Let(4), L.Other(14)], None, 20, []), false) == L.Return(Some(L.Ok(L.VRBrace)), L.IterState(15, [], None, 20, [L.VRBrace, L.Token.In]));
    assert L.Consume(LetBySingleLineRaw, L.IterState(14, [L.Layout.Let(4), L.Other(14)], None, 18, [])) == L.Return(Some(L.Ok(L.VRBrace)), L.IterState(15, [], None, 20, [L.VRBrace, L.Token.In]));
    assert L.Loop(LetBySingleLineRaw, L.IterState(13, [L.Layout.Let(4), L.Other(14)], None, 17, [])) == L.Loop(LetBySingleLineRaw, L.IterState(14, [L.Layout.Let(4), L.Other(14)], None, 18, []));
  }

  lemma LetBySingleLineCall10()
    requires L.ValidRaw(LetBySingleLineRaw)
    ensures L.NextSpec(LetBySingleLineRaw, L.IterState(15, [], None, 20, [L.VRBrace, L.Token.In])) == (Some(L.Ok(L.VRBrace)), L.IterState(15, [], None, 20, [L.Token.In]))
  {
    assert [L.VRBrace, L.Token.In][1..] == [L.Token.In];
  }

  lemma LetBySingleLineCall11()
    requires L.ValidRaw(LetBySingleLineRaw)
    ensures L.NextSpec(LetBySingleLineRaw, L.IterState(15, [], None, 20, [L.Token.In])) == (Some(L.Ok(L.Token.In)), L.IterState(15, [], None, 20, []))
  {
    assert [L.Token.In][1..] == [];
  }

  lemma LetBySingleLineCall12()
    requires L.ValidRaw(LetBySingleLineRaw)
    ensures L.NextSpec(LetBySingleLineRaw, L.IterState(15, [], None, 20, [])) == (Some(L.Ok(L.Token.Identifier("x"))), L.IterState(17, [], None, 22, []))
  {
    assert L.Consume(LetBySingleLineRaw, L.IterState(15, [], None, 20, [])) == L.Continue(L.IterState(16, [], None, 21, []));
    assert L.Consume(LetBySingleLineRaw, L.IterState(16, [], None, 21, [])) == L.Return(Some(L.Ok(L.Token.Identifier("x"))), L.IterState(17, [], None, 22, []));
    assert L.Loop(LetBySingleLineRaw, L.IterState(15, [], None, 20, [])) == L.Loop(LetBySingleLineRaw, L.IterState(16, [], None, 21, []));
  }

  lemma LetBySingleLineCall13()
    requires L.ValidRaw(LetBySingleLineRaw)
    ensures L.NextSpec(LetBySingleLineRaw, L.IterState(17, [], None, 22, [])) == (None, L.IterState(17, [], None, 22, []))
  {
    assert L.AtEnd(LetBySingleLineRaw, L.IterState(17, [], None, 22, [])) == (None, L.IterState(17, [], None, 22, []));
    assert L.Loop(LetBySingleLineRaw, L.IterState(17, [], None, 22, [])) == L.AtEnd(LetBySingleLineRaw, L.IterState(17, [], None, 22, []));
  }

  lemma LetBySingleLineCall0To2()
    requires L.ValidRaw(LetBySingleLineRaw)
    ensures L.After(LetBySingleLineRaw, L.Initial, 2) == L.IterState(1, [], Some(L.Layout.Let(0)), 3, [])
    ensures L.Outputs(LetBySingleLineRaw, L.Initial, 2) == [Some(L.Ok(L.Token.Let)), Some(L.Ok(L.VLBrace))]
  {
    assert L.Outputs(LetBySingleLineRaw, L.IterState(1, [], Some(L.Layout.Let(0)), 3, [L.VLBrace]), 1) == [Some(L.Ok(L.VLBrace))] + L.Outputs(LetBySingleLineRaw, L.IterState(1, [], Some(L.Layout.Let(0)), 3, []), 0) &&
           L.After(LetBySingleLineRaw, L.IterState(1, [], Some(L.Layout.Let(0)), 3, [L.VLBrace]), 1) == L.After(LetBySingleLineRaw, L.IterState(1, [], Some(L.Layout.Let(0)), 3, []), 0) by {
      LetBySingleLineCall1();
      L.OutputsStep(LetBySingleLineRaw, L.IterState(1, [], Some(L.Layout.Let(0)), 3, [L.VLBrace]), 1, Some(L.Ok(L.VLBrace)), L.IterState(1, [], Some(L.Layout.Let(0)), 3, []));
    }
    assert L.Outputs(LetBySingleLineRaw, L.Initial, 2) == [Some(L.Ok(L.Token.Let))] + L.Outputs(LetBySingleLineRaw, L.IterState(1, [], Some(L.Layout.Let(0)), 3, [L.VLBrace]), 1) &&
           L.After(LetBySingleLineRaw, L.Initial, 2) == L.After(LetBySingleLineRaw, L.IterState(1, [], Some(L.Layout.Let(0)), 3, [L.VLBrace]), 1) by {
      LetBySingleLineCall0();
      L.OutputsStep(LetBySingleLineRaw, L.Initial, 2, Some(L.Ok(L.Token.Let)), L.IterState(1, [], Some(L.Layout.Let(0)), 3, [L.VLBrace]));
    }
  }

  lemma LetBySingleLineCall2To4()
    requires L.ValidRaw(LetBySingleLineRaw)
    ensures L.After(LetBySingleLineRaw, L.IterState(1, [], Some(L.Layout.Let(0)), 3, []), 2) == L.IterState(5, [L.Layout.Let(4)], None, 8, [])
    ensures L.Outputs(LetBySingleLineRaw, L.IterState(1, [], Some(L.Layout.Let(0)), 3, []), 2) == [Some(L.Ok(L.Token.Identifier("x"))), Some(L.Ok(L.Token.ColonEqual))]
  {
    assert L.Outputs(LetBySingleLineRaw, L.IterState(3, [L.Layout.Let(4)], None, 5, []), 1) == [Some(L.Ok(L.Token.ColonEqual))] + L.Outputs(LetBySingleLineRaw, L.IterState(5, [L.Layout.Let(4)], None, 8, []), 0) &&
           L.After(LetBySingleLineRaw, L.IterState(3, [L.Layout.Let(4)], None, 5, []), 1) == L.After(LetBySingleLineRaw, L.IterState(5, [L.Layout.Let(4)], None, 8, []), 0) by {
      LetBySingleLineCall3();
      L.OutputsStep(LetBySingleLineRaw, L.IterState(3, [L.Layout.Let(4)], None, 5, []), 1, Some(L.Ok(L.Token.ColonEqual)), L.IterState(5, [L.Layout.Let(4)], None, 8, []));
    }
    assert L.Outputs(LetBySingleLineRaw, L.IterState(1, [], Some(L.Layout.Let(0)), 3, []), 2) == [Some(L.Ok(L.Token.Identifier("x")))] + L.Outputs(LetBySingleLineRaw, L.IterState(3, [L.Layout.Let(4)], None, 5, []), 1) &&
           L.After(LetBySingleLineRaw, L.IterState(1, [], Some(L.Layout.Let(0)), 3, []), 2) == L.After(LetBySingleLineRaw, L.IterState(3, [L.Layout.Let(4)], None, 5, []), 1) by {
      LetBySingleLineCall2();
      L.OutputsStep(LetBySingleLineRaw, L.IterState(1, [], Some(L.Layout.Let(0)), 3, []), 2, Some(L.Ok(L.Token.Identifier("x"))), L.IterState(3, [L.Layout.Let(4)], None, 5, []));
    }
  }

  lemma LetBySingleLineCall4To6()
    requires L.ValidRaw(LetBySingleLineRaw)
    ensures L.After(LetBySingleLineRaw, L.IterState(5, [L.Layout.Let(4)], None, 8, []), 2) == L.IterState(9, [L.Layout.Let(4)], Some(L.Other(0)), 13, [L.VLBrace])
    ensures L.Outputs(LetBySingleLineRaw, L.IterState(5, [L.Layout.Let(4)], None, 8, []), 2) == [Some(L.Ok(L.Token.Identifier("p"))), Some(L.Ok(L.Token.By))]
  {
    assert L.Outputs(LetBySingleLineRaw, L.IterState(7, [L.Layout.Let(4)], None, 10, []), 1) == [Some(L.Ok(L.Token.By))] + L.Outputs(LetBySingleLineRaw, L.IterState(9, [L.Layout.Let(4)], Some(L.Other(0)), 13, [L.VLBrace]), 0) &&
           L.After(LetBySingleLineRaw, L.IterState(7, [L.Layout.Let(4)], None, 10, []), 1) == L.After(LetBySingleLineRaw, L.IterState(9, [L.Layout.Let(4)], Some(L.Other(0)), 13, [L.VLBrace]), 0) by {
      LetBySingleLineCall5();
      L.OutputsStep(LetBySingleLineRaw, L.IterState(7, [L.Layout.Let(4)], None, 10, []), 1, Some(L.Ok(L.Token.By)), L.IterState(9, [L.Layout.Let(4)], Some(L.Other(0)), 13, [L.VLBrace]));
    }
    assert L.Outputs(LetBySingleLineRaw, L.IterState(5, [L.Layout.Let(4)], None, 8, []), 2) == [Some(L.Ok(L.Token.Identifier("p")))] + L.Outputs(LetBySingleLineRaw, L.IterState(7, [L.Layout.Let(4)], None, 10, []), 1) &&
           L.After(LetBySingleLineRaw, L.IterState(5, [L.Layout.Let(4)], None, 8, []), 2) == L.After(LetBySingleLineRaw, L.IterState(7, [L.Layout.Let(4)], None, 10, []), 1) by {
      LetBySingleLineCall4();
      L.OutputsStep(LetBySingleLineRaw, L.IterState(5, [L.Layout.Let(4)], None, 8, []), 2, Some(L.Ok(L.Token.Identifier("p"))), L.IterState(7, [L.Layout.Let(4)], None, 10, []));
    }
  }

  lemma LetBySingleLineCall6To8()
    requires L.ValidRaw(LetBySingleLineRaw)
    ensures L.After(LetBySingleLineRaw, L.IterState(9, [L.Layout.Let(4)], Some(L.Other(0)), 13, [L.VLBrace]), 2) == L.IterState(11, [L.Layout.Let(4), L.Other(14)], None, 15, [])
    ensures L.Outputs(LetBySingleLineRaw, L.IterState(9, [L.Layout.Let(4)], Some(L.Other(0)), 13, [L.VLBrace]), 2) == [Some(L.Ok(L.VLBrace)), Some(L.Ok(L.Token.Identifier("a")))]
  {
    assert L.Outputs(LetBySingleLineRaw, L.IterState(9, [L.Layout.Let(4)], Some(L.Other(0)), 13, []), 1) == [Some(L.Ok(L.Token.Identifier("a")))] + L.Outputs(LetBySingleLineRaw, L.IterState(11, [L.Layout.Let(4), L.Other(14)], None, 15, []), 0) &&
           L.After(LetBySingleLineRaw, L.IterState(9, [L.Layout.Let(4)], Some(L.Other(0)), 13, []), 1) == L.After(LetBySingleLineRaw, L.IterState(11, [L.Layout.Let(4), L.Other(14)], None, 15, []), 0) by {
      LetBySingleLineCall7();
      L.OutputsStep(LetBySingleLineRaw, L.IterState(9, [L.Layout.Let(4)], Some(L.Other(0)), 13, []), 1, Some(L.Ok(L.Token.Identifier("a"))), L.IterState(11, [L.Layout.Let(4), L.Other(14)], None, 15, []));
    }
    assert L.Outputs(LetBySingleLineRaw, L.IterState(9, [L.Layout.Let(4)], Some(L.Other(0)), 13, [L.VLBrace]), 2) == [Some(L.Ok(L.VLBrace))] + L.Outputs(LetBySingleLineRaw, L.IterState(9, [L.Layout.Let(4)], Some(L.Other(0)), 13, []), 1) &&
           L.After(LetBySingleLineRaw, L.IterState(9, [L.Layout.Let(4)], Some(L.Other(0)), 13, [L.VLBrace]), 2) == L.After(LetBySingleLineRaw, L.IterState(9, [L.Layout.Let(4)], Some(L.Other(0)), 13, []), 1) by {
      LetBySingleLineCall6();
      L.OutputsStep(LetBySingleLineRaw, L.IterState(9, [L.Layout.Let(4)], Some(L.Other(0)), 13, [L.VLBrace]), 2, Some(L.Ok(L.VLBrace)), L.IterState(9, [L.Layout.Let(4)], Some(L.Other(0)), 13, []));
    }
  }

  lemma LetBySingleLineCall8To10()
    requires L.ValidRaw(LetBySingleLineRaw)
    ensures L.After(LetBySingleLineRaw, L.IterState(11, [L.Layout.Let(4), L.Other(14)], None, 15, []), 2) == L.IterState(15, [], None, 20, [L.VRBrace, L.Token.In])
    ensures L.Outputs(LetBySingleLineRaw, L.IterState(11, [L.Layout.Let(4), L.Other(14)], None, 15, []), 2) == [Some(L.Ok(L.Token.Identifier("b"))), Some(L.Ok(L.VRBrace))]
  {
    assert L.Outputs(LetBySingleLineRaw, L.IterState(13, [L.Layout.Let(4), L.Other(14)], None, 17, []), 1) == [Some(L.Ok(L.VRBrace))] + L.Outputs(LetBySingleLineRaw, L.IterState(15, [], None, 20, [L.VRBrace, L.Token.In]), 0) &&
           L.After(LetBySingleLineRaw, L.IterState(13, [L.Layout.Let(4), L.Other(14)], None, 17, []), 1) == L.After(LetBySingleLineRaw, L.IterState(15, [], None, 20, [L.VRBrace, L.Token.In]), 0) by {
      LetBySingleLineCall9();
      L.OutputsStep(LetBySingleLineRaw, L.IterState(13, [L.Layout.Let(4), L.Other(14)], None, 17, []), 1, Some(L.Ok(L.VRBrace)), L.IterState(15, [], None, 20, [L.VRBrace, L.Token.In]));
    }
    assert L.Outputs(LetBySingleLineRaw, L.IterState(11, [L.Layout.Let(4), L.Other(14)], None, 15, []), 2) == [Some(L.Ok(L.Token.Identifier("b")))] + L.Outputs(LetBySingleLineRaw, L.IterState(13, [L.Layout.Let(4), L.Other(14)], None, 17, []), 1) &&
           L.After(LetBySingleLineRaw, L.IterState(11, [L.Layout.Let(4), L.Other(14)], None, 15, []), 2) == L.After(LetBySingleLineRaw, L.IterState(13, [L.Layout.Let(4), L.Other(14)], None, 17, []), 1) by {
      LetBySingleLineCall8();
      L.OutputsStep(LetBySingleLineRaw, L.IterState(11, [L.Layout.Let(4), L.Other(14)], None, 15, []), 2, Some(L.Ok(L.Token.Identifier("b"))), L.IterState(13, [L.Layout.Let(4), L.Other(14)], None, 17, []));
    }
  }

  lemma LetBySingleLineCall10To12()
    requires L.ValidRaw(LetBySingleLineRaw)
    ensures L.After(LetBySingleLineRaw, L.IterState(15, [], None, 20, [L.VRBrace, L.Token.In]), 2) == L.IterState(15, [], None, 20, [])
    ensures L.Outputs(LetBySingleLineRaw, L.IterState(15, [], None, 20, [L.VRBrace, L.Token.In]), 2) == [Some(L.Ok(L.VRBrace)), Some(L.Ok(L.Token.In))]
  {
    assert L.Outputs(LetBySingleLineRaw, L.IterState(15, [], None, 20, [L.Token.In]), 1) == [Some(L.Ok(L.Token.In))] + L.Outputs(LetBySingleLineRaw, L.IterState(15, [], None, 20, []), 0) &&
           L.After(LetBySingleLineRaw, L.IterState(15, [], None, 20, [L.Token.In]), 1) == L.After(LetBySingleLineRaw, L.IterState(15, [], None, 20, []), 0) by {
      LetBySingleLineCall11();
      L.OutputsStep(LetBySingleLineRaw, L.IterState(15, [], None, 20, [L.Token.In]), 1, Some(L.Ok(L.Token.In)), L.IterState(15, [], None, 20, []));
    }
    assert L.Outputs(LetBySingleLineRaw, L.IterState(15, [], None, 20, [L.VRBrace, L.Token.In]), 2) == [Some(L.Ok(L.VRBrace))] + L.Outputs(LetBySingleLineRaw, L.IterState(15, [], None, 20, [L.Token.In]), 1) &&
           L.After(LetBySingleLineRaw, L.IterState(15, [], None, 20, [L.VRBrace, L.Token.In]), 2) == L.After(LetBySingleLineRaw, L.IterState(15, [], None, 20, [L.Token.In]), 1) by {
      LetBySingleLineCall10();
      L.OutputsStep(LetBySingleLineRaw, L.IterState(15, [], None, 20, [L.VRBrace, L.Token.In]), 2, Some(L.Ok(L.VRBrace)), L.IterState(15, [], None, 20, [L.Token.In]));
    }
  }

  lemma LetBySingleLineCall12To14()
    requires L.ValidRaw(LetBySingleLineRaw)
    ensures L.After(LetBySingleLineRaw, L.IterState(15, [], None, 20, []), 2) == L.IterState(17, [], None, 22, [])
    ensures L.Outputs(LetBySingleLineRaw, L.IterState(15, [], None, 20, []), 2) == [Some(L.Ok(L.Token.Identifier("x"))), None]
  {
    assert L.Outputs(LetBySingleLineRaw, L.IterState(17, [], None, 22, []), 1) == [None] + L.Outputs(LetBySingleLineRaw, L.IterState(17, [], None, 22, []), 0) &&
           L.After(LetBySingleLineRaw, L.IterState(17, [], None, 22, []), 1) == L.After(LetBySingleLineRaw, L.IterState(17, [], None, 22, []), 0) by {
      LetBySingleLineCall13();
      L.OutputsStep(LetBySingleLineRaw, L.IterState(17, [], None, 22, []), 1, None, L.IterState(17, [], None, 22, []));
    }
    assert L.Outputs(LetBySingleLineRaw, L.IterState(15, [], None, 20, []), 2) == [Some(L.Ok(L.Token.Identifier("x")))] + L.Outputs(LetBySingleLineRaw, L.IterState(17, [], None, 22, []), 1) &&
           L.After(LetBySingleLineRaw, L.IterState(15, [], None, 20, []), 2) == L.After(LetBySingleLineRaw, L.IterState(17, [], None, 22, []), 1) by {
      LetBySingleLineCall12();
      L.OutputsStep(LetBySingleLineRaw, L.IterState(15, [], None, 20, []), 2, Some(L.Ok(L.Token.Identifier("x"))), L.IterState(17, [], None, 22, []));
    }
  }

  /** The raw tokens of the input of `test_parens`: parentheses, inside which indentation is ignored. */
  const ParensRaw: R.Stream<L.RawToken> := R.Stream(seq(45, i requires 0 <= i => ParensTok(i)), None)

  function ParensTok(i: nat): R.Spanned<L.RawToken>
  {
    if i == 0 then R.Spanned(0, L.RawToken.Indent("\n"), 1)
    else if i == 1 then R.Spanned(1, L.RawToken.Let, 4)
    else if i == 2 then R.Spanned(4, L.RawToken.Whitespace(" "), 5)
    else if i == 3 then R.Spanned(5, L.RawToken.Identifier("x"), 6)
    else if i == 4 then R.Spanned(6, L.RawToken.Whitespace(" "), 7)
    else if i == 5 then R.Spanned(7, L.RawToken.ColonEqual, 9)
    else if i == 6 then R.Spanned(9, L.RawToken.Whitespace(" "), 10)
    else if i == 7 then R.Spanned(10, L.RawToken.Identifier("f"), 11)
    else if i == 8 then R.Spanned(11, L.RawToken.Whitespace(" "), 12)
    else if i == 9 then R.Spanned(12, L.RawToken.LParen, 13)
    else if i == 10 then R.Spanned(13, L.RawToken.Identifier("g"), 14)
    else if i == 11 then R.Spanned(14, L.RawToken.Indent("\n           "), 26)
    else if i == 12 then R.Spanned(26, L.RawToken.Identifier("y"), 27)
    else if i == 13 then R.Spanned(27, L.RawToken.RParen, 28)
    else if i == 14 then R.Spanned(28, L.RawToken.Whitespace(" "), 29)
    else if i == 15 then R.Spanned(29, L.RawToken.LParen, 30)
    else if i == 16 then R.Spanned(30, L.RawToken.Let, 33)
    else if i == 17 then R.Spanned(33, L.RawToken.Whitespace(" "), 34)
    else if i == 18 then R.Spanned(34, L.RawToken.Identifier("z"), 35)
    else if i == 19 then R.Spanned(35, L.RawToken.Whitespace(" "), 36)
    else if i == 20 then R.Spanned(36, L.RawToken.ColonEqual, 38)
    else if i == 21 then R.Spanned(38, L.RawToken.Whitespace(" "), 39)
    else if i == 22 then R.Spanned(39, L.RawToken.Identifier("w"), 40)
    else if i == 23 then R.Spanned(40, L.RawToken.Indent("\n               "), 56)
    else if i == 24 then R.Spanned(56, L.RawToken.In, 58)
    else if i == 25 then R.Spanned(58, L.RawToken.Whitespace(" "), 59)
    else if i == 26 then R.Spanned(59, L.RawToken.Identifier("z"), 60)
    else if i == 27 then R.Spanned(60, L.RawToken.RParen, 61)
    else if i == 28 then R.Spanned(61, L.RawToken.Indent("\n    "), 66)
    else if i == 29 then R.Spanned(66, L.RawToken.Identifier("y"), 67)
    else if i == 30 then R.Spanned(67, L.RawToken.Whitespace(" "), 68)
    else if i == 31 then R.Spanned(68, L.RawToken.ColonEqual, 70)
    else if i == 32 then R.Spanned(70, L.RawToken.Whitespace(" "), 71)
    else if i == 33 then R.Spanned(71, L.RawToken.LParen, 72)
    else if i == 34 then R.Spanned(72, L.RawToken.Identifier("a"), 73)
    else if i == 35 then R.Spanned(73, L.RawToken.Whitespace(" "), 74)
    else if i == 36 then R.Spanned(74, L.RawToken.Identifier("b"), 75)
    else if i == 37 then R.Spanned(75, L.RawToken.Indent("\n"), 76)
    else if i == 38 then R.Spanned(113, L.RawToken.Indent("\n"), 114)
    else if i == 39 then R.Spanned(114, L.RawToken.Identifier("c"), 115)
    else if i == 40 then R.Spanned(115, L.RawToken.RParen, 116)
    else if i == 41 then R.Spanned(116, L.RawToken.Indent("\n"), 117)
    else if i == 42 then R.Spanned(117, L.RawToken.In, 119)
    else if i == 43 then R.Spanned(119, L.RawToken.Whitespace(" "), 120)
    else R.Spanned(120, L.RawToken.Identifier("x"), 121)
  }

  lemma ParensRawValid()
    ensures L.ValidRaw(ParensRaw)
  {
    ParensRawFrom0();
    L.ValidRawOf(ParensRaw.toks);
  }

  lemma ParensRawFrom0()
    ensures R.InOrderFrom(ParensRaw.toks, 0, 0) && L.TextsNonEmpty(ParensRaw.toks, 0)
  {
    var t := ParensRaw.toks;
    ParensRawFrom3();
    assert R.InOrderFrom(t, 2, 4) && L.TextsNonEmpty(t, 2);
    assert R.InOrderFrom(t, 1, 1) && L.TextsNonEmpty(t, 1);
    assert R.InOrderFrom(t, 0, 0) && L.TextsNonEmpty(t, 0);
  }

  lemma ParensRawFrom3()
    ensures R.InOrderFrom(ParensRaw.toks, 3, 5) && L.TextsNonEmpty(ParensRaw.toks, 3)
  {
    var t := ParensRaw.toks;
    ParensRawFrom6();
    assert R.InOrderFrom(t, 5, 7) && L.TextsNonEmpty(t, 5);
    assert R.InOrderFrom(t, 4, 6) && L.TextsNonEmpty(t, 4);
    assert R.InOrderFrom(t, 3, 5) && L.TextsNonEmpty(t, 3);
  }

  lemma ParensRawFrom6()
    ensures R.InOrderFrom(ParensRaw.toks, 6, 9) && L.TextsNonEmpty(ParensRaw.toks, 6)
  {
    var t := ParensRaw.toks;
    ParensRawFrom9();
    assert R.InOrderFrom(t, 8, 11) && L.TextsNonEmpty(t, 8);
    assert R.InOrderFrom(t, 7, 10) && L.TextsNonEmpty(t, 7);
    assert R.InOrderFrom(t, 6, 9) && L.TextsNonEmpty(t, 6);
  }

  lemma ParensRawFrom9()
    ensures R.InOrderFrom(ParensRaw.toks, 9, 12) && L.TextsNonEmpty(ParensRaw.toks, 9)
  {
    var t := ParensRaw.toks;
    ParensRawFrom12();
    assert R.InOrderFrom(t, 11, 14) && L.TextsNonEmpty(t, 11);
    assert R.InOrderFrom(t, 10, 13) && L.TextsNonEmpty(t, 10);
    assert R.InOrderFrom(t, 9, 12) && L.TextsNonEmpty(t, 9);
  }

  lemma ParensRawFrom12()
    ensures R.InOrderFrom(ParensRaw.toks, 12, 26) && L.TextsNonEmpty(ParensRaw.toks, 12)
  {
    var t := ParensRaw.toks;
    ParensRawFrom15();
    assert R.InOrderFrom(t, 14, 28) && L.TextsNonEmpty(t, 14);
    assert R.InOrderFrom(t, 13, 27) && L.TextsNonEmpty(t, 13);
    assert R.InOrderFrom(t, 12, 26) && L.TextsNonEmpty(t, 12);
  }

  lemma ParensRawFrom15()
    ensures R.InOrderFrom(ParensRaw.toks, 15, 29) && L.TextsNonEmpty(ParensRaw.toks, 15)
  {
    var t := ParensRaw.toks;
    ParensRawFrom18();
    assert R.InOrderFrom(t, 17, 33) && L.TextsNonEmpty(t, 17);
    assert R.InOrderFrom(t, 16, 30) && L.TextsNonEmpty(t, 16);
    assert R.InOrderFrom(t, 15, 29) && L.TextsNonEmpty(t, 15);
  }

  lemma ParensRawFrom18()
    ensures R.InOrderFrom(ParensRaw.toks, 18, 34) && L.TextsNonEmpty(ParensRaw.toks, 18)
  {
    var t := ParensRaw.toks;
    ParensRawFrom21();
    assert R.InOrderFrom(t, 20, 36) && L.TextsNonEmpty(t, 20);
    assert R.InOrderFrom(t, 19, 35) && L.TextsNonEmpty(t, 19);
    assert R.InOrderFrom(t, 18, 34) && L.TextsNonEmpty(t, 18);
  }

  lemma ParensRawFrom21()
    ensures R.InOrderFrom(ParensRaw.toks, 21, 38) && L.TextsNonEmpty(ParensRaw.toks, 21)
  {
    var t := ParensRaw.toks;
    ParensRawFrom24();
    assert R.InOrderFrom(t, 23, 40) && L.TextsNonEmpty(t, 23);
    assert R.InOrderFrom(t, 22, 39) && L.TextsNonEmpty(t, 22);
    assert R.InOrderFrom(t, 21, 38) && L.TextsNonEmpty(t, 21);
  }

  lemma ParensRawFrom24()
    ensures R.InOrderFrom(ParensRaw.toks, 24, 56) && L.TextsNonEmpty(ParensRaw.toks, 24)
  {
    var t := ParensRaw.toks;
    ParensRawFrom27();
    assert R.InOrderFrom(t, 26, 59) && L.TextsNonEmpty(t, 26);
    assert R.InOrderFrom(t, 25, 58) && L.TextsNonEmpty(t, 25);
    assert R.InOrderFrom(t, 24, 56) && L.TextsNonEmpty(t, 24);
  }

  lemma ParensRawFrom27()
    ensures R.InOrderFrom(ParensRaw.toks, 27, 60) && L.TextsNonEmpty(ParensRaw.toks, 27)
  {
    var t := ParensRaw.toks;
    ParensRawFrom30();
    assert R.InOrderFrom(t, 29, 66) && L.TextsNonEmpty(t, 29);
    assert R.InOrderFrom(t, 28, 61) && L.TextsNonEmpty(t, 28);
    assert R.InOrderFrom(t, 27, 60) && L.TextsNonEmpty(t, 27);
  }

  lemma ParensRawFrom30()
    ensures R.InOrderFrom(ParensRaw.toks, 30, 67) && L.TextsNonEmpty(ParensRaw.toks, 30)
  {
    var t := ParensRaw.toks;
    ParensRawFrom33();
    assert R.InOrderFrom(t, 32, 70) && L.TextsNonEmpty(t, 32);
    assert R.InOrderFrom(t, 31, 68) && L.TextsNonEmpty(t, 31);
    assert R.InOrderFrom(t, 30, 67) && L.TextsNonEmpty(t, 30);
  }

  lemma ParensRawFrom33()
    ensures R.InOrderFrom(ParensRaw.toks, 33, 71) && L.TextsNonEmpty(ParensRaw.toks, 33)
  {
    var t := ParensRaw.toks;
    ParensRawFrom36();
    assert R.InOrderFrom(t, 35, 73) && L.TextsNonEmpty(t, 35);
    assert R.InOrderFrom(t, 34, 72) && L.TextsNonEmpty(t, 34);
    assert R.InOrderFrom(t, 33, 71) && L.TextsNonEmpty(t, 33);
  }

  lemma ParensRawFrom36()
    ensures R.InOrderFrom(ParensRaw.toks, 36, 74) && L.TextsNonEmpty(ParensRaw.toks, 36)
  {
    var t := ParensRaw.toks;
    ParensRawFrom39();
    assert R.InOrderFrom(t, 38, 76) && L.TextsNonEmpty(t, 38);
    assert R.InOrderFrom(t, 37, 75) && L.TextsNonEmpty(t, 37);
    assert R.InOrderFrom(t, 36, 74) && L.TextsNonEmpty(t, 36);
  }

  lemma ParensRawFrom39()
    ensures R.InOrderFrom(ParensRaw.toks, 39, 114) && L.TextsNonEmpty(ParensRaw.toks, 39)
  {
    var t := ParensRaw.toks;
    ParensRawFrom42();
    assert R.InOrderFrom(t, 41, 116) && L.TextsNonEmpty(t, 41);
    assert R.InOrderFrom(t, 40, 115) && L.TextsNonEmpty(t, 40);
    assert R.InOrderFrom(t, 39, 114) && L.TextsNonEmpty(t, 39);
  }

  lemma ParensRawFrom42()
    ensures R.InOrderFrom(ParensRaw.toks, 42, 117) && L.TextsNonEmpty(ParensRaw.toks, 42)
  {
    var t := ParensRaw.toks;
    assert R.InOrderFrom(t, 44, 120) && L.TextsNonEmpty(t, 44);
    assert R.InOrderFrom(t, 43, 119) && L.TextsNonEmpty(t, 43);
    assert R.InOrderFrom(t, 42, 117) && L.TextsNonEmpty(t, 42);
  }

  /** The tokens `test_parens` (tests/layout_rules.rs:458-508) expects, then `None`. */
  lemma ParensExpected()
    ensures L.ValidRaw(ParensRaw)
    ensures L.Outputs(ParensRaw, L.Initial, 31) ==
            [
              Some(L.Ok(L.Token.Let)), Some(L.Ok(L.VLBrace)), Some(L.Ok(L.Token.Identifier("x"))), Some(L.Ok(L.Token.ColonEqual)),
              Some(L.Ok(L.Token.Identifier("f"))), Some(L.Ok(L.Token.LParen)), Some(L.Ok(L.Token.Identifier("g"))), Some(L.Ok(L.Token.Identifier("y"))),
              Some(L.Ok(L.Token.RParen)), Some(L.Ok(L.Token.LParen)), Some(L.Ok(L.Token.Let)), Some(L.Ok(L.VLBrace)),
              Some(L.Ok(L.Token.Identifier("z"))), Some(L.Ok(L.Token.ColonEqual)), Some(L.Ok(L.Token.Identifier("w"))), Some(L.Ok(L.VRBrace)),
              Some(L.Ok(L.Token.In)), Some(L.Ok(L.Token.Identifier("z"))), Some(L.Ok(L.Token.RParen)), Some(L.Ok(L.VSemicolon)),
              Some(L.Ok(L.Token.Identifier("y"))), Some(L.Ok(L.Token.ColonEqual)), Some(L.Ok(L.Token.LParen)), Some(L.Ok(L.Token.Identifier("a"))),
              Some(L.Ok(L.Token.Identifier("b"))), Some(L.Ok(L.Token.Identifier("c"))), Some(L.Ok(L.Token.RParen)), Some(L.Ok(L.VRBrace)),
              Some(L.Ok(L.Token.In)), Some(L.Ok(L.Token.Identifier("x"))), None]
  {
    ParensRawValid();
    ParensRuns();
    ParensRegroup();
  }

  lemma ParensRegroup()
    ensures [Some(L.Ok(L.Token.Let)), Some(L.Ok(L.VLBrace))]
            + ([Some(L.Ok(L.Token.Identifier("x"))), Some(L.Ok(L.Token.ColonEqual))]
            + ([Some(L.Ok(L.Token.Identifier("f"))), Some(L.Ok(L.Token.LParen))]
            + ([Some(L.Ok(L.Token.Identifier("g"))), Some(L.Ok(L.Token.Identifier("y")))]
            + ([Some(L.Ok(L.Token.RParen)), Some(L.Ok(L.Token.LParen))]
            + ([Some(L.Ok(L.Token.Let)), Some(L.Ok(L.VLBrace))]
            + ([Some(L.Ok(L.Token.Identifier("z"))), Some(L.Ok(L.Token.ColonEqual))]
            + ([Some(L.Ok(L.Token.Identifier("w"))), Some(L.Ok(L.VRBrace))]
            + ([Some(L.Ok(L.Token.In)), Some(L.Ok(L.Token.Identifier("z")))]
            + ([Some(L.Ok(L.Token.RParen)), Some(L.Ok(L.VSemicolon))]
            + ([Some(L.Ok(L.Token.Identifier("y"))), Some(L.Ok(L.Token.ColonEqual))]
            + ([Some(L.Ok(L.Token.LParen)), Some(L.Ok(L.Token.Identifier("a")))]
            + ([Some(L.Ok(L.Token.Identifier("b"))), Some(L.Ok(L.Token.Identifier("c")))]
            + ([Some(L.Ok(L.Token.RParen)), Some(L.Ok(L.VRBrace))]
            + ([Some(L.Ok(L.Token.In)), Some(L.Ok(L.Token.Identifier("x")))]
            + ([None]))))))))))))))) ==
            [Some(L.Ok(L.Token.Let)), Some(L.Ok(L.VLBrace)), Some(L.Ok(L.Token.Identifier("x"))), Some(L.Ok(L.Token.ColonEqual)), Some(L.Ok(L.Token.Identifier("f"))), Some(L.Ok(L.Token.LParen)), Some(L.Ok(L.Token.Identifier("g"))), Some(L.Ok(L.Token.Identifier("y"))), Some(L.Ok(L.Token.RParen)), Some(L.Ok(L.Token.LParen)), Some(L.Ok(L.Token.Let)), Some(L.Ok(L.VLBrace)), Some(L.Ok(L.Token.Identifier("z"))), Some(L.Ok(L.Token.ColonEqual)), Some(L.Ok(L.Token.Identifier("w"))), Some(L.Ok(L.VRBrace)), Some(L.Ok(L.Token.In)), Some(L.Ok(L.Token.Identifier("z"))), Some(L.Ok(L.Token.RParen)), Some(L.Ok(L.VSemicolon)), Some(L.Ok(L.Token.Identifier("y"))), Some(L.Ok(L.Token.ColonEqual)), Some(L.Ok(L.Token.LParen)), Some(L.Ok(L.Token.Identifier("a"))), Some(L.Ok(L.Token.Identifier("b"))), Some(L.Ok(L.Token.Identifier("c"))), Some(L.Ok(L.Token.RParen)), Some(L.Ok(L.VRBrace)), Some(L.Ok(L.Token.In)), Some(L.Ok(L.Token.Identifier("x"))), None]
  {
  }

  /** The run, two calls at a time. */
  lemma ParensRuns()
    requires L.ValidRaw(ParensRaw)
    ensures L.Outputs(ParensRaw, L.Initial, 31) ==
            [Some(L.Ok(L.Token.Let)), Some(L.Ok(L.VLBrace))]
            + ([Some(L.Ok(L.Token.Identifier("x"))), Some(L.Ok(L.Token.ColonEqual))]
            + ([Some(L.Ok(L.Token.Identifier("f"))), Some(L.Ok(L.Token.LParen))]
            + ([Some(L.Ok(L.Token.Identifier("g"))), Some(L.Ok(L.Token.Identifier("y")))]
            + ([Some(L.Ok(L.Token.RParen)), Some(L.Ok(L.Token.LParen))]
            + ([Some(L.Ok(L.Token.Let)), Some(L.Ok(L.VLBrace))]
            + ([Some(L.Ok(L.Token.Identifier("z"))), Some(L.Ok(L.Token.ColonEqual))]
            + ([Some(L.Ok(L.Token.Identifier("w"))), Some(L.Ok(L.VRBrace))]
            + ([Some(L.Ok(L.Token.In)), Some(L.Ok(L.Token.Identifier("z")))]
            + ([Some(L.Ok(L.Token.RParen)), Some(L.Ok(L.VSemicolon))]
            + ([Some(L.Ok(L.Token.Identifier("y"))), Some(L.Ok(L.Token.ColonEqual))]
            + ([Some(L.Ok(L.Token.LParen)), Some(L.Ok(L.Token.Identifier("a")))]
            + ([Some(L.Ok(L.Token.Identifier("b"))), Some(L.Ok(L.Token.Identifier("c")))]
            + ([Some(L.Ok(L.Token.RParen)), Some(L.Ok(L.VRBrace))]
            + ([Some(L.Ok(L.Token.In)), Some(L.Ok(L.Token.Identifier("x")))]
            + ([None])))))))))))))))
  {
    ParensCall0To2();
    ParensCall2To4();
    ParensCall4To6();
    ParensCall6To8();
    ParensCall8To10();
    ParensCall10To12();
    ParensCall12To14();
    ParensCall14To16();
    ParensCall16To18();
    ParensCall18To20();
    ParensCall20To22();
    ParensCall22To24();
    ParensCall24To26();
    ParensCall26To28();
    ParensCall28To30();
    ParensCall30To31();
    L.OutputsSplit(ParensRaw, L.IterState(45, [], None, 4, []), 1, 0);
    L.OutputsSplit(ParensRaw, L.IterState(43, [], None, 2, [L.Token.In]), 2, 1);
    L.OutputsSplit(ParensRaw, L.IterState(40, [L.Layout.Let(4), L.Paren], None, 1, []), 2, 3);
    L.OutputsSplit(ParensRaw, L.IterState(35, [L.Layout.Let(4), L.Paren], None, 11, []), 2, 5);
    L.OutputsSplit(ParensRaw, L.IterState(32, [L.Layout.Let(4)], None, 8, []), 2, 7);
    L.OutputsSplit(ParensRaw, L.IterState(29, [L.Layout.Let(4)], None, 4, []), 2, 9);
    L.OutputsSplit(ParensRaw, L.IterState(27, [L.Layout.Let(4), L.Paren], None, 19, []), 2, 11);
    L.OutputsSplit(ParensRaw, L.IterState(25, [L.Layout.Let(4), L.Paren], None, 17, [L.Token.In]), 2, 13);
    L.OutputsSplit(ParensRaw, L.IterState(21, [L.Layout.Let(4), L.Paren, L.Layout.Let(19)], None, 23, []), 2, 15);
    L.OutputsSplit(ParensRaw, L.IterState(17, [L.Layout.Let(4), L.Paren], Some(L.Layout.Let(0)), 18, []), 2, 17);
    L.OutputsSplit(ParensRaw, L.IterState(16, [L.Layout.Let(4), L.Paren], None, 15, []), 2, 19);
    L.OutputsSplit(ParensRaw, L.IterState(13, [L.Layout.Let(4), L.Paren], None, 12, []), 2, 21);
    L.OutputsSplit(ParensRaw, L.IterState(10, [L.Layout.Let(4), L.Paren], None, 12, []), 2, 23);
    L.OutputsSplit(ParensRaw, L.IterState(6, [L.Layout.Let(4)], None, 8, []), 2, 25);
    L.OutputsSplit(ParensRaw, L.IterState(2, [], Some(L.Layout.Let(0)), 3, []), 2, 27);
    L.OutputsSplit(ParensRaw, L.Initial, 2, 29);
  }

  lemma ParensCall0()
    requires L.ValidRaw(ParensRaw)
    ensures L.NextSpec(ParensRaw, L.Initial) == (Some(L.Ok(L.Token.Let)), L.IterState(2, [], Some(L.Layout.Let(0)), 3, [L.VLBrace]))
  {
    assert ParensRaw.toks[0] == R.Spanned(0, L.RawToken.Indent("\n"), 1);
    assert L.Advance(L.Initial, R.Spanned(0, L.RawToken.Indent("\n"), 1)) == L.IterState(1, [], None, 1, []);
    assert L.OnIndentStep(ParensRaw, 0, L.IterState(1, [], None, 1, [])) == L.Continue(L.IterState(1, [], None, 0, []));
    assert L.Consume(ParensRaw, L.Initial) == L.Continue(L.IterState(1, [], None, 0, []));
    assert L.Consume(ParensRaw, L.IterState(1, [], None, 0, [])) == L.Return(Some(L.Ok(L.Token.Let)), L.IterState(2, [], Some(L.Layout.Let(0)), 3, [L.VLBrace]));
    assert L.Loop(ParensRaw, L.Initial) == L.Loop(ParensRaw, L.IterState(1, [], None, 0, []));
  }

  lemma ParensCall1()
    requires L.ValidRaw(ParensRaw)
    ensures L.NextSpec(ParensRaw, L.IterState(2, [], Some(L.Layout.Let(0)), 3, [L.VLBrace])) == (Some(L.Ok(L.VLBrace)), L.IterState(2, [], Some(L.Layout.Let(0)), 3, []))
  {
    assert [L.VLBrace][1..] == [];
  }

  lemma ParensCall2()
    requires L.ValidRaw(ParensRaw)
    ensures L.NextSpec(ParensRaw, L.IterState(2, [], Some(L.Layout.Let(0)), 3, [])) == (Some(L.Ok(L.Token.Identifier("x"))), L.IterState(4, [L.Layout.Let(4)], None, 5, []))
  {
    assert L.Consume(ParensRaw, L.IterState(2, [], Some(L.Layout.Let(0)), 3, [])) == L.Continue(L.IterState(3, [], Some(L.Layout.Let(0)), 4, []));
    assert L.Consume(ParensRaw, L.IterState(3, [], Some(L.Layout.Let(0)), 4, [])) == L.Return(Some(L.Ok(L.Token.Identifier("x"))), L.IterState(4, [L.Layout.Let(4)], None, 5, []));
    assert L.Loop(ParensRaw, L.IterState(2, [], Some(L.Layout.Let(0)), 3, [])) == L.Loop(ParensRaw, L.IterState(3, [], Some(L.Layout.Let(0)), 4, []));
  }

  lemma ParensCall3()
    requires L.ValidRaw(ParensRaw)
    ensures L.NextSpec(ParensRaw, L.IterState(4, [L.Layout.Let(4)], None, 5, [])) == (Some(L.Ok(L.Token.ColonEqual)), L.IterState(6, [L.Layout.Let(4)], None, 8, []))
  {
    assert L.Consume(ParensRaw, L.IterState(4, [L.Layout.Let(4)], None, 5, [])) == L.Continue(L.IterState(5, [L.Layout.Let(4)], None, 6, []));
    assert L.Consume(ParensRaw, L.IterState(5, [L.Layout.Let(4)], None, 6, [])) == L.Return(Some(L.Ok(L.Token.ColonEqual)), L.IterState(6, [L.Layout.Let(4)], None, 8, []));
    assert L.Loop(ParensRaw, L.IterState(4, [L.Layout.Let(4)], None, 5, [])) == L.Loop(ParensRaw, L.IterState(5, [L.Layout.Let(4)], None, 6, []));
  }

  lemma ParensCall4()
    requires L.ValidRaw(ParensRaw)
    ensures L.NextSpec(ParensRaw, L.IterState(6, [L.Layout.Let(4)], None, 8, [])) == (Some(L.Ok(L.Token.Identifier("f"))), L.IterState(8, [L.Layout.Let(4)], None, 10, []))
  {
    assert L.Consume(ParensRaw, L.IterState(6, [L.Layout.Let(4)], None, 8, [])) == L.Continue(L.IterState(7, [L.Layout.Let(4)], None, 9, []));
    assert L.Consume(ParensRaw, L.IterState(7, [L.Layout.Let(4)], None, 9, [])) == L.Return(Some(L.Ok(L.Token.Identifier("f"))), L.IterState(8, [L.Layout.Let(4)], None, 10, []));
    assert L.Loop(ParensRaw, L.IterState(6, [L.Layout.Let(4)], None, 8, [])) == L.Loop(ParensRaw, L.IterState(7, [L.Layout.Let(4)], None, 9, []));
  }

  lemma ParensCall5()
    requires L.ValidRaw(ParensRaw)
    ensures L.NextSpec(ParensRaw, L.IterState(8, [L.Layout.Let(4)], None, 10, [])) == (Some(L.Ok(L.Token.LParen)), L.IterState(10, [L.Layout.Let(4), L.Paren], None, 12, []))
  {
    assert L.Consume(ParensRaw, L.IterState(8, [L.Layout.Let(4)], None, 10, [])) == L.Continue(L.IterState(9, [L.Layout.Let(4)], None, 11, []));
    assert L.Consume(ParensRaw, L.IterState(9, [L.Layout.Let(4)], None, 11, [])) == L.Return(Some(L.Ok(L.Token.LParen)), L.IterState(10, [L.Layout.Let(4), L.Paren], None, 12, []));
    assert L.Loop(ParensRaw, L.IterState(8, [L.Layout.Let(4)], None, 10, [])) == L.Loop(ParensRaw, L.IterState(9, [L.Layout.Let(4)], None, 11, []));
  }

  lemma ParensCall6()
    requires L.ValidRaw(ParensRaw)
    ensures L.NextSpec(ParensRaw, L.IterState(10, [L.Layout.Let(4), L.Paren], None, 12, [])) == (Some(L.Ok(L.Token.Identifier("g"))), L.IterState(11, [L.Layout.Let(4), L.Paren], None, 13, []))
  {
    assert L.Consume(ParensRaw, L.IterState(10, [L.Layout.Let(4), L.Paren], None, 12, [])) == L.Return(Some(L.Ok(L.Token.Identifier("g"))), L.IterState(11, [L.Layout.Let(4), L.Paren], None, 13, []));
  }

  lemma ParensCall7()
    requires L.ValidRaw(ParensRaw)
    ensures L.NextSpec(ParensRaw, L.IterState(11, [L.Layout.Let(4), L.Paren], None, 13, [])) == (Some(L.Ok(L.Token.Identifier("y"))), L.IterState(13, [L.Layout.Let(4), L.Paren], None, 12, []))
  {
    assert ParensRaw.toks[11] == R.Spanned(14, L.RawToken.Indent("\n           "), 26);
    assert L.Advance(L.IterState(11, [L.Layout.Let(4), L.Paren], None, 13, []), R.Spanned(14, L.RawToken.Indent("\n           "), 26)) == L.IterState(12, [L.Layout.Let(4), L.Paren], None, 25, []);
    assert L.OnIndentStep(ParensRaw, 11, L.IterState(12, [L.Layout.Let(4), L.Paren], None, 25, [])) == L.Continue(L.IterState(12, [L.Layout.Let(4), L.Paren], None, 11, []));
    assert L.Consume(ParensRaw, L.IterState(11, [L.Layout.Let(4), L.Paren], None, 13, [])) == L.Continue(L.IterState(12, [L.Layout.Let(4), L.Paren], None, 11, []));
    assert L.Consume(ParensRaw, L.IterState(12, [L.Layout.Let(4), L.Paren], None, 11, [])) == L.Return(Some(L.Ok(L.Token.Identifier("y"))), L.IterState(13, [L.Layout.Let(4), L.Paren], None, 12, []));
    assert L.Loop(ParensRaw, L.IterState(11, [L.Layout.Let(4), L.Paren], None, 13, [])) == L.Loop(ParensRaw, L.IterState(12, [L.Layout.Let(4), L.Paren], None, 11, []));
  }

  lemma ParensCall8()
    requires L.ValidRaw(ParensRaw)
    ensures L.NextSpec(ParensRaw, L.IterState(13, [L.Layout.Let(4), L.Paren], None, 12, [])) == (Some(L.Ok(L.Token.RParen)), L.IterState(14, [L.Layout.Let(4)], None, 13, []))
  {
    assert ParensRaw.toks[13] == R.Spanned(27, L.RawToken.RParen, 28);
    assert L.Advance(L.IterState(13, [L.Layout.Let(4), L.Paren], None, 12, []), R.Spanned(27, L.RawToken.RParen, 28)) == L.IterState(14, [L.Layout.Let(4), L.Paren], None, 13, []);
    assert L.CloseStep(L.IterState(14, [L.Layout.Let(4), L.Paren], None, 13, []), true) == L.Return(Some(L.Ok(L.Token.RParen)), L.IterState(14, [L.Layout.Let(4)], None, 13, []));
    assert L.Consume(ParensRaw, L.IterState(13, [L.Layout.Let(4), L.Paren], None, 12, [])) == L.Return(Some(L.Ok(L.Token.RParen)), L.IterState(14, [L.Layout.Let(4)], None, 13, []));
  }

  lemma ParensCall9()
    requires L.ValidRaw(ParensRaw)
    ensures L.NextSpec(ParensRaw, L.IterState(14, [L.Layout.Let(4)], None, 13, [])) == (Some(L.Ok(L.Token.LParen)), L.IterState(16, [L.Layout.Let(4), L.Paren], None, 15, []))
  {
    assert L.Consume(ParensRaw, L.IterState(14, [L.Layout.Let(4)], None, 13, [])) == L.Continue(L.IterState(15, [L.Layout.Let(4)], None, 14, []));
    assert L.Consume(ParensRaw, L.IterState(15, [L.Layout.Let(4)], None, 14, [])) == L.Return(Some(L.Ok(L.Token.LParen)), L.IterState(16, [L.Layout.Let(4), L.Paren], None, 15, []));
    assert L.Loop(ParensRaw, L.IterState(14, [L.Layout.Let(4)], None, 13, [])) == L.Loop(ParensRaw, L.IterState(15, [L.Layout.Let(4)], None, 14, []));
  }

  lemma ParensCall10()
    requires L.ValidRaw(ParensRaw)
    ensures L.NextSpec(ParensRaw, L.IterState(16, [L.Layout.Let(4), L.Paren], None, 15, [])) == (Some(L.Ok(L.Token.Let)), L.IterState(17, [L.Layout.Let(4), L.Paren], Some(L.Layout.Let(0)), 18, [L.VLBrace]))
  {
    assert L.Consume(ParensRaw, L.IterState(16, [L.Layout.Let(4), L.Paren], None, 15, [])) == L.Return(Some(L.Ok(L.Token.Let)), L.IterState(17, [L.Layout.Let(4), L.Paren], Some(L.Layout.Let(0)), 18, [L.VLBrace]));
  }

  lemma ParensCall11()
    requires L.ValidRaw(ParensRaw)
    ensures L.NextSpec(ParensRaw, L.IterState(17, [L.Layout.Let(4), L.Paren], Some(L.Layout.Let(0)), 18, [L.VLBrace])) == (Some(L.Ok(L.VLBrace)), L.IterState(17, [L.Layout.Let(4), L.Paren], Some(L.Layout.Let(0)), 18, []))
  {
    assert [L.VLBrace][1..] == [];
  }

  lemma ParensCall12()
    requires L.ValidRaw(ParensRaw)
    ensures L.NextSpec(ParensRaw, L.IterState(17, [L.Layout.Let(4), L.Paren], Some(L.Layout.Let(0)), 18, [])) == (Some(L.Ok(L.Token.Identifier("z"))), L.IterState(19, [L.Layout.Let(4), L.Paren, L.Layout.Let(19)], None, 20, []))
  {
    assert L.Consume(ParensRaw, L.IterState(17, [L.Layout.Let(4), L.Paren], Some(L.Layout.Let(0)), 18, [])) == L.Continue(L.IterState(18, [L.Layout.Let(4), L.Paren], Some(L.Layout.Let(0)), 19, []));
    assert L.Consume(ParensRaw, L.IterState(18, [L.Layout.Let(4), L.Paren], Some(L.Layout.Let(0)), 19, [])) == L.Return(Some(L.Ok(L.Token.Identifier("z"))), L.IterState(19, [L.Layout.Let(4), L.Paren, L.Layout.Let(19)], None, 20, []));
    assert L.Loop(ParensRaw, L.IterState(17, [L.Layout.Let(4), L.Paren], Some(L.Layout.Let(0)), 18, [])) == L.Loop(ParensRaw, L.IterState(18, [L.Layout.Let(4), L.Paren], Some(L.Layout.Let(0)), 19, []));
  }

  lemma ParensCall13()
    requires L.ValidRaw(ParensRaw)
    ensures L.NextSpec(ParensRaw, L.IterState(19, [L.Layout.Let(4), L.Paren, L.Layout.Let(19)], None, 20, [])) == (Some(L.Ok(L.Token.ColonEqual)), L.IterState(21, [L.Layout.Let(4), L.Paren, L.Layout.Let(19)], None, 23, []))
  {
    assert L.Consume(ParensRaw, L.IterState(19, [L.Layout.Let(4), L.Paren, L.Layout.Let(19)], None, 20, [])) == L.Continue(L.IterState(20, [L.Layout.Let(4), L.Paren, L.Layout.Let(19)], None, 21, []));
    assert L.Consume(ParensRaw, L.IterState(20, [L.Layout.Let(4), L.Paren, L.Layout.Let(19)], None, 21, [])) == L.Return(Some(L.Ok(L.Token.ColonEqual)), L.IterState(21, [L.Layout.Let(4), L.Paren, L.Layout.Let(19)], None, 23, []));
    assert L.Loop(ParensRaw, L.IterState(19, [L.Layout.Let(4), L.Paren, L.Layout.Let(19)], None, 20, [])) == L.Loop(ParensRaw, L.IterState(20, [L.Layout.Let(4), L.Paren, L.Layout.Let(19)], None, 21, []));
  }

  lemma ParensCall14()
    requires L.ValidRaw(ParensRaw)
    ensures L.NextSpec(ParensRaw, L.IterState(21, [L.Layout.Let(4), L.Paren, L.Layout.Let(19)], None, 23, [])) == (Some(L.Ok(L.Token.Identifier("w"))), L.IterState(23, [L.Layout.Let(4), L.Paren, L.Layout.Let(19)], None, 25, []))
  {
    assert L.Consume(ParensRaw, L.IterState(21, [L.Layout.Let(4), L.Paren, L.Layout.Let(19)], None, 23, [])) == L.Continue(L.IterState(22, [L.Layout.Let(4), L.Paren, L.Layout.Let(19)], None, 24, []));
    assert L.Consume(ParensRaw, L.IterState(22, [L.Layout.Let(4), L.Paren, L.Layout.Let(19)], None, 24, [])) == L.Return(Some(L.Ok(L.Token.Identifier("w"))), L.IterState(23, [L.Layout.Let(4), L.Paren, L.Layout.Let(19)], None, 25, []));
    assert L.Loop(ParensRaw, L.IterState(21, [L.Layout.Let(4), L.Paren, L.Layout.Let(19)], None, 23, [])) == L.Loop(ParensRaw, L.IterState(22, [L.Layout.Let(4), L.Paren, L.Layout.Let(19)], None, 24, []));
  }

  lemma ParensCall15()
    requires L.ValidRaw(ParensRaw)
    ensures L.NextSpec(ParensRaw, L.IterState(23, [L.Layout.Let(4), L.Paren, L.Layout.Let(19)], None, 25, [])) == (Some(L.Ok(L.VRBrace)), L.IterState(25, [L.Layout.Let(4), L.Paren], None, 17, [L.Token.In]))
  {
    assert ParensRaw.toks[23] == R.Spanned(40, L.RawToken.Indent("\n               "), 56);
    assert L.Advance(L.IterState(23, [L.Layout.Let(4), L.Paren, L.Layout.Let(19)], None, 25, []), R.Spanned(40, L.RawToken.Indent("\n               "), 56)) == L.IterState(24, [L.Layout.Let(4), L.Paren, L.Layout.Let(19)], None, 41, []);
    assert L.OnIndentStep(ParensRaw, 15, L.IterState(24, [L.Layout.Let(4), L.Paren, L.Layout.Let(19)], None, 41, [])) == L.Continue(L.IterState(24, [L.Layout.Let(4), L.Paren, L.Layout.Let(19)], None, 15, []));
    assert L.Consume(ParensRaw, L.IterState(23, [L.Layout.Let(4), L.Paren, L.Layout.Let(19)], None, 25, [])) == L.Continue(L.IterState(24, [L.Layout.Let(4), L.Paren, L.Layout.Let(19)], None, 15, []));
    assert ParensRaw.toks[24] == R.Spanned(56, L.RawToken.In, 58);
    assert L.Advance(L.IterState(24, [L.Layout.Let(4), L.Paren, L.Layout.Let(19)], None, 15, []), R.Spanned(56, L.RawToken.In, 58)) == L.IterState(25, [L.Layout.Let(4), L.Paren, L.Layout.Let(19)], None, 17, []);
    assert L.CloseStep(L.IterState(25, [L.Layout.Let(4), L.Paren, L.Layout.Let(19)], None, 17, []), false) == L.Return(Some(L.Ok(L.VRBrace)), L.IterState(25, [L.Layout.Let(4), L.Paren], None, 17, [L.Token.In]));
    assert L.Consume(ParensRaw, L.IterState(24, [L.Layout.Let(4), L.Paren, L.Layout.Let(19)], None, 15, [])) == L.Return(Some(L.Ok(L.VRBrace)), L.IterState(25, [L.Layout.Let(4), L.Paren], None, 17, [L.Token.In]));
    assert L.Loop(ParensRaw, L.IterState(23, [L.Layout.Let(4), L.Paren, L.Layout.Let(19)], None, 25, [])) == L.Loop(ParensRaw, L.IterState(24, [L.Layout.Let(4), L.Paren, L.Layout.Let(19)], None, 15, []));
  }

  lemma ParensCall16()
    requires L.ValidRaw(ParensRaw)
    ensures L.NextSpec(ParensRaw, L.IterState(25, [L.Layout.Let(4), L.Paren], None, 17, [L.Token.In])) == (Some(L.Ok(L.Token.In)), L.IterState(25, [L.Layout.Let(4), L.Paren], None, 17, []))
  {
    assert [L.Token.In][1..] == [];
  }

  lemma ParensCall17()
    requires L.ValidRaw(ParensRaw)
    ensures L.NextSpec(ParensRaw, L.IterState(25, [L.Layout.Let(4), L.Paren], None, 17, [])) == (Some(L.Ok(L.Token.Identifier("z"))), L.IterState(27, [L.Layout.Let(4), L.Paren], None, 19, []))
  {
    assert L.Consume(ParensRaw, L.IterState(25, [L.Layout.Let(4), L.Paren], None, 17, [])) == L.Continue(L.IterState(26, [L.Layout.Let(4), L.Paren], None, 18, []));
    assert L.Consume(ParensRaw, L.IterState(26, [L.Layout.Let(4), L.Paren], None, 18, [])) == L.Return(Some(L.Ok(L.Token.Identifier("z"))), L.IterState(27, [L.Layout.Let(4), L.Paren], None, 19, []));
    assert L.Loop(ParensRaw, L.IterState(25, [L.Layout.Let(4), L.Paren], None, 17, [])) == L.Loop(ParensRaw, L.IterState(26, [L.Layout.Let(4), L.Paren], None, 18, []));
  }

  lemma ParensCall18()
    requires L.ValidRaw(ParensRaw)
    ensures L.NextSpec(ParensRaw, L.IterState(27, [L.Layout.Let(4), L.Paren], None, 19, [])) == (Some(L.Ok(L.Token.RParen)), L.IterState(28, [L.Layout.Let(4)], None, 20, []))
  {
    assert ParensRaw.toks[27] == R.Spanned(60, L.RawToken.RParen, 61);
    assert L.Advance(L.IterState(27, [L.Layout.Let(4), L.Paren], None, 19, []), R.Spanned(60, L.RawToken.RParen, 61)) == L.IterState(28, [L.Layout.Let(4), L.Paren], None, 20, []);
    assert L.CloseStep(L.IterState(28, [L.Layout.Let(4), L.Paren], None, 20, []), true) == L.Return(Some(L.Ok(L.Token.RParen)), L.IterState(28, [L.Layout.Let(4)], None, 20, []));
    assert L.Consume(ParensRaw, L.IterState(27, [L.Layout.Let(4), L.Paren], None, 19, [])) == L.Return(Some(L.Ok(L.Token.RParen)), L.IterState(28, [L.Layout.Let(4)], None, 20, []));
  }

  lemma ParensCall19()
    requires L.ValidRaw(ParensRaw)
    ensures L.NextSpec(ParensRaw, L.IterState(28, [L.Layout.Let(4)], None, 20, [])) == (Some(L.Ok(L.VSemicolon)), L.IterState(29, [L.Layout.Let(4)], None, 4, []))
  {
    assert ParensRaw.toks[28] == R.Spanned(61, L.RawToken.Indent("\n    "), 66);
    assert L.Advance(L.IterState(28, [L.Layout.Let(4)], None, 20, []), R.Spanned(61, L.RawToken.Indent("\n    "), 66)) == L.IterState(29, [L.Layout.Let(4)], None, 25, []);
    assert L.OnIndentStep(ParensRaw, 4, L.IterState(29, [L.Layout.Let(4)], None, 25, [])) == L.Return(Some(L.Ok(L.VSemicolon)), L.IterState(29, [L.Layout.Let(4)], None, 4, []));
    assert L.Consume(ParensRaw, L.IterState(28, [L.Layout.Let(4)], None, 20, [])) == L.Return(Some(L.Ok(L.VSemicolon)), L.IterState(29, [L.Layout.Let(4)], None, 4, []));
  }

  lemma ParensCall20()
    requires L.ValidRaw(ParensRaw)
    ensures L.NextSpec(ParensRaw, L.IterState(29, [L.Layout.Let(4)], None, 4, [])) == (Some(L.Ok(L.Token.Identifier("y"))), L.IterState(30, [L.Layout.Let(4)], None, 5, []))
  {
    assert L.Consume(ParensRaw, L.IterState(29, [L.Layout.Let(4)], None, 4, [])) == L.Return(Some(L.Ok(L.Token.Identifier("y"))), L.IterState(30, [L.Layout.Let(4)], None, 5, []));
  }

  lemma ParensCall21()
    requires L.ValidRaw(ParensRaw)
    ensures L.NextSpec(ParensRaw, L.IterState(30, [L.Layout.Let(4)], None, 5, [])) == (Some(L.Ok(L.Token.ColonEqual)), L.IterState(32, [L.Layout.Let(4)], None, 8, []))
  {
    assert L.Consume(ParensRaw, L.IterState(30, [L.Layout.Let(4)], None, 5, [])) == L.Continue(L.IterState(31, [L.Layout.Let(4)], None, 6, []));
    assert L.Consume(ParensRaw, L.IterState(31, [L.Layout.Let(4)], None, 6, [])) == L.Return(Some(L.Ok(L.Token.ColonEqual)), L.IterState(32, [L.Layout.Let(4)], None, 8, []));
    assert L.Loop(ParensRaw, L.IterState(30, [L.Layout.Let(4)], None, 5, [])) == L.Loop(ParensRaw, L.IterState(31, [L.Layout.Let(4)], None, 6, []));
  }

  lemma ParensCall22()
    requires L.ValidRaw(ParensRaw)
    ensures L.NextSpec(ParensRaw, L.IterState(32, [L.Layout.Let(4)], None, 8, [])) == (Some(L.Ok(L.Token.LParen)), L.IterState(34, [L.Layout.Let(4), L.Paren], None, 10, []))
  {
    assert L.Consume(ParensRaw, L.IterState(32, [L.Layout.Let(4)], None, 8, [])) == L.Continue(L.IterState(33, [L.Layout.Let(4)], None, 9, []));
    assert L.Consume(ParensRaw, L.IterState(33, [L.Layout.Let(4)], None, 9, [])) == L.Return(Some(L.Ok(L.Token.LParen)), L.IterState(34, [L.Layout.Let(4), L.Paren], None, 10, []));
    assert L.Loop(ParensRaw, L.IterState(32, [L.Layout.Let(4)], None, 8, [])) == L.Loop(ParensRaw, L.IterState(33, [L.Layout.Let(4)], None, 9, []));
  }

  lemma ParensCall23()
    requires L.ValidRaw(ParensRaw)
    ensures L.NextSpec(ParensRaw, L.IterState(34, [L.Layout.Let(4), L.Paren], None, 10, [])) == (Some(L.Ok(L.Token.Identifier("a"))), L.IterState(35, [L.Layout.Let(4), L.Paren], None, 11, []))
  {
    assert L.Consume(ParensRaw, L.IterState(34, [L.Layout.Let(4), L.Paren], None, 10, [])) == L.Return(Some(L.Ok(L.Token.Identifier("a"))), L.IterState(35, [L.Layout.Let(4), L.Paren], None, 11, []));
  }

  lemma ParensCall24()
    requires L.ValidRaw(ParensRaw)
    ensures L.NextSpec(ParensRaw, L.IterState(35, [L.Layout.Let(4), L.Paren], None, 11, [])) == (Some(L.Ok(L.Token.Identifier("b"))), L.IterState(37, [L.Layout.Let(4), L.Paren], None, 13, []))
  {
    assert L.Consume(ParensRaw, L.IterState(35, [L.Layout.Let(4), L.Paren], None, 11, [])) == L.Continue(L.IterState(36, [L.Layout.Let(4), L.Paren], None, 12, []));
    assert L.Consume(ParensRaw, L.IterState(36, [L.Layout.Let(4), L.Paren], None, 12, [])) == L.Return(Some(L.Ok(L.Token.Identifier("b"))), L.IterState(37, [L.Layout.Let(4), L.Paren], None, 13, []));
    assert L.Loop(ParensRaw, L.IterState(35, [L.Layout.Let(4), L.Paren], None, 11, [])) == L.Loop(ParensRaw, L.IterState(36, [L.Layout.Let(4), L.Paren], None, 12, []));
  }

  lemma ParensCall25()
    requires L.ValidRaw(ParensRaw)
    ensures L.NextSpec(ParensRaw, L.IterState(37, [L.Layout.Let(4), L.Paren], None, 13, [])) == (Some(L.Ok(L.Token.Identifier("c"))), L.IterState(40, [L.Layout.Let(4), L.Paren], None, 1, []))
  {
    assert ParensRaw.toks[37] == R.Spanned(75, L.RawToken.Indent("\n"), 76);
    assert L.Advance(L.IterState(37, [L.Layout.Let(4), L.Paren], None, 13, []), R.Spanned(75, L.RawToken.Indent("\n"), 76)) == L.IterState(38, [L.Layout.Let(4), L.Paren], None, 14, []);
    assert L.OnIndentStep(ParensRaw, 0, L.IterState(38, [L.Layout.Let(4), L.Paren], None, 14, [])) == L.Continue(L.IterState(38, [L.Layout.Let(4), L.Paren], None, 0, []));
    assert L.Consume(ParensRaw, L.IterState(37, [L.Layout.Let(4), L.Paren], None, 13, [])) == L.Continue(L.IterState(38, [L.Layout.Let(4), L.Paren], None, 0, []));
    assert ParensRaw.toks[38] == R.Spanned(113, L.RawToken.Indent("\n"), 114);
    assert L.Advance(L.IterState(38, [L.Layout.Let(4), L.Paren], None, 0, []), R.Spanned(113, L.RawToken.Indent("\n"), 114)) == L.IterState(39, [L.Layout.Let(4), L.Paren], None, 1, []);
    assert L.OnIndentStep(ParensRaw, 0, L.IterState(39, [L.Layout.Let(4), L.Paren], None, 1, [])) == L.Continue(L.IterState(39, [L.Layout.Let(4), L.Paren], None, 0, []));
    assert L.Consume(ParensRaw, L.IterState(38, [L.Layout.Let(4), L.Paren], None, 0, [])) == L.Continue(L.IterState(39, [L.Layout.Let(4), L.Paren], None, 0, []));
    assert L.Consume(ParensRaw, L.IterState(39, [L.Layout.Let(4), L.Paren], None, 0, [])) == L.Return(Some(L.Ok(L.Token.Identifier("c"))), L.IterState(40, [L.Layout.Let(4), L.Paren], None, 1, []));
    assert L.Loop(ParensRaw, L.IterState(37, [L.Layout.Let(4), L.Paren], None, 13, [])) == L.Loop(ParensRaw, L.IterState(38, [L.Layout.Let(4), L.Paren], None, 0, []));
    assert L.Loop(ParensRaw, L.IterState(38, [L.Layout.Let(4), L.Paren], None, 0, [])) == L.Loop(ParensRaw, L.IterState(39, [L.Layout.Let(4), L.Paren], None, 0, []));
  }

  lemma ParensCall26()
    requires L.ValidRaw(ParensRaw)
    ensures L.NextSpec(ParensRaw, L.IterState(40, [L.Layout.Let(4), L.Paren], None, 1, [])) == (Some(L.Ok(L.Token.RParen)), L.IterState(41, [L.Layout.Let(4)], None, 2, []))
  {
    assert ParensRaw.toks[40] == R.Spanned(115, L.RawToken.RParen, 116);
    assert L.Advance(L.IterState(40, [L.Layout.Let(4), L.Paren], None, 1, []), R.Spanned(115, L.RawToken.RParen, 116)) == L.IterState(41, [L.Layout.Let(4), L.Paren], None, 2, []);
    assert L.CloseStep(L.IterState(41, [L.Layout.Let(4), L.Paren], None, 2, []), true) == L.Return(Some(L.Ok(L.Token.RParen)), L.IterState(41, [L.Layout.Let(4)], None, 2, []));
    assert L.Consume(ParensRaw, L.IterState(40, [L.Layout.Let(4), L.Paren], None, 1, [])) == L.Return(Some(L.Ok(L.Token.RParen)), L.IterState(41, [L.Layout.Let(4)], None, 2, []));
  }

  lemma ParensCall27()
    requires L.ValidRaw(ParensRaw)
    ensures L.NextSpec(ParensRaw, L.IterState(41, [L.Layout.Let(4)], None, 2, [])) == (Some(L.Ok(L.VRBrace)), L.IterState(43, [], None, 2, [L.Token.In]))
  {
    assert ParensRaw.toks[41] == R.Spanned(116, L.RawToken.Indent("\n"), 117);
    assert L.Advance(L.IterState(41, [L.Layout.Let(4)], None, 2, []), R.Spanned(116, L.RawToken.Indent("\n"), 117)) == L.IterState(42, [L.Layout.Let(4)], None, 3, []);
    assert L.OnIndentStep(ParensRaw, 0, L.IterState(42, [L.Layout.Let(4)], None, 3, [])) == L.Continue(L.IterState(42, [L.Layout.Let(4)], None, 0, []));
    assert L.Consume(ParensRaw, L.IterState(41, [L.Layout.Let(4)], None, 2, [])) == L.Continue(L.IterState(42, [L.Layout.Let(4)], None, 0, []));
    assert ParensRaw.toks[42] == R.Spanned(117, L.RawToken.In, 119);
    assert L.Advance(L.IterState(42, [L.Layout.Let(4)], None, 0, []), R.Spanned(117, L.RawToken.In, 119)) == L.IterState(43, [L.Layout.Let(4)], None, 2, []);
    assert L.CloseStep(L.IterState(43, [L.Layout.Let(4)], None, 2, []), false) == L.Return(Some(L.Ok(L.VRBrace)), L.IterState(43, [], None, 2, [L.Token.In]));
    assert L.Consume(ParensRaw, L.IterState(42, [L.Layout.Let(4)], None, 0, [])) == L.Return(Some(L.Ok(L.VRBrace)), L.IterState(43, [], None, 2, [L.Token.In]));
    assert L.Loop(ParensRaw, L.IterState(41, [L.Layout.Let(4)], None, 2, [])) == L.Loop(ParensRaw, L.IterState(42, [L.Layout.Let(4)], None, 0, []));
  }

  lemma ParensCall28()
    requires L.ValidRaw(ParensRaw)
    ensures L.NextSpec(ParensRaw, L.IterState(43, [], None, 2, [L.Token.In])) == (Some(L.Ok(L.Token.In)), L.IterState(43, [], None, 2, []))
  {
    assert [L.Token.In][1..] == [];
  }

  lemma ParensCall29()
    requires L.ValidRaw(ParensRaw)
    ensures L.NextSpec(ParensRaw, L.IterState(43, [], None, 2, [])) == (Some(L.Ok(L.Token.Identifier("x"))), L.IterState(45, [], None, 4, []))
  {
    assert L.Consume(ParensRaw, L.IterState(43, [], None, 2, [])) == L.Continue(L.IterState(44, [], None, 3, []));
    assert L.Consume(ParensRaw, L.IterState(44, [], None, 3, [])) == L.Return(Some(L.Ok(L.Token.Identifier("x"))), L.IterState(45, [], None, 4, []));
    assert L.Loop(ParensRaw, L.IterState(43, [], None, 2, [])) == L.Loop(ParensRaw, L.IterState(44, [], None, 3, []));
  }

  lemma ParensCall30()
    requires L.ValidRaw(ParensRaw)
    ensures L.NextSpec(ParensRaw, L.IterState(45, [], None, 4, [])) == (None, L.IterState(45, [], None, 4, []))
  {
    assert L.AtEnd(ParensRaw, L.IterState(45, [], None, 4, [])) == (None, L.IterState(45, [], None, 4, []));
    assert L.Loop(ParensRaw, L.IterState(45, [], None, 4, [])) == L.AtEnd(ParensRaw, L.IterState(45, [], None, 4, []));
  }

  lemma ParensCall0To2()
    requires L.ValidRaw(ParensRaw)
    ensures L.After(ParensRaw, L.Initial, 2) == L.IterState(2, [], Some(L.Layout.Let(0)), 3, [])
    ensures L.Outputs(ParensRaw, L.Initial, 2) == [Some(L.Ok(L.Token.Let)), Some(L.Ok(L.VLBrace))]
  {
    assert L.Outputs(ParensRaw, L.IterState(2, [], Some(L.Layout.Let(0)), 3, [L.VLBrace]), 1) == [Some(L.Ok(L.VLBrace))] + L.Outputs(ParensRaw, L.IterState(2, [], Some(L.Layout.Let(0)), 3, []), 0) &&
           L.After(ParensRaw, L.IterState(2, [], Some(L.Layout.Let(0)), 3, [L.VLBrace]), 1) == L.After(ParensRaw, L.IterState(2, [], Some(L.Layout.Let(0)), 3, []), 0) by {
      ParensCall1();
      L.OutputsStep(ParensRaw, L.IterState(2, [], Some(L.Layout.Let(0)), 3, [L.VLBrace]), 1, Some(L.Ok(L.VLBrace)), L.IterState(2, [], Some(L.Layout.Let(0)), 3, []));
    }
    assert L.Outputs(ParensRaw, L.Initial, 2) == [Some(L.Ok(L.Token.Let))] + L.Outputs(ParensRaw, L.IterState(2, [], Some(L.Layout.Let(0)), 3, [L.VLBrace]), 1) &&
           L.After(ParensRaw, L.Initial, 2) == L.After(ParensRaw, L.IterState(2, [], Some(L.Layout.Let(0)), 3, [L.VLBrace]), 1) by {
      ParensCall0();
      L.OutputsStep(ParensRaw, L.Initial, 2, Some(L.Ok(L.Token.Let)), L.IterState(2, [], Some(L.Layout.Let(0)), 3, [L.VLBrace]));
    }
  }

  lemma ParensCall2To4()
    requires L.ValidRaw(ParensRaw)
    ensures L.After(ParensRaw, L.IterState(2, [], Some(L.Layout.Let(0)), 3, []), 2) == L.IterState(6, [L.Layout.Let(4)], None, 8, [])
    ensures L.Outputs(ParensRaw, L.IterState(2, [], Some(L.Layout.Let(0)), 3, []), 2) == [Some(L.Ok(L.Token.Identifier("x"))), Some(L.Ok(L.Token.ColonEqual))]
  {
    assert L.Outputs(ParensRaw, L.IterState(4, [L.Layout.Let(4)], None, 5, []), 1) == [Some(L.Ok(L.Token.ColonEqual))] + L.Outputs(ParensRaw, L.IterState(6, [L.Layout.Let(4)], None, 8, []), 0) &&
           L.After(ParensRaw, L.IterState(4, [L.Layout.Let(4)], None, 5, []), 1) == L.After(ParensRaw, L.IterState(6, [L.Layout.Let(4)], None, 8, []), 0) by {
      ParensCall3();
      L.OutputsStep(ParensRaw, L.IterState(4, [L.Layout.Let(4)], None, 5, []), 1, Some(L.Ok(L.Token.ColonEqual)), L.IterState(6, [L.Layout.Let(4)], None, 8, []));
    }
    assert L.Outputs(ParensRaw, L.IterState(2, [], Some(L.Layout.Let(0)), 3, []), 2) == [Some(L.Ok(L.Token.Identifier("x")))] + L.Outputs(ParensRaw, L.IterState(4, [L.Layout.Let(4)], None, 5, []), 1) &&
           L.After(ParensRaw, L.IterState(2, [], Some(L.Layout.Let(0)), 3, []), 2) == L.After(ParensRaw, L.IterState(4, [L.Layout.Let(4)], None, 5, []), 1) by {
      ParensCall2();
      L.OutputsStep(ParensRaw, L.IterState(2, [], Some(L.Layout.Let(0)), 3, []), 2, Some(L.Ok(L.Token.Identifier("x"))), L.IterState(4, [L.Layout.Let(4)], None, 5, []));
    }
  }

  lemma ParensCall4To6()
    requires L.ValidRaw(ParensRaw)
    ensures L.After(ParensRaw, L.IterState(6, [L.Layout.Let(4)], None, 8, []), 2) == L.IterState(10, [L.Layout.Let(4), L.Paren], None, 12, [])
    ensures L.Outputs(ParensRaw, L.IterState(6, [L.Layout.Let(4)], None, 8, []), 2) == [Some(L.Ok(L.Token.Identifier("f"))), Some(L.Ok(L.Token.LParen))]
  {
    assert L.Outputs(ParensRaw, L.IterState(8, [L.Layout.Let(4)], None, 10, []), 1) == [Some(L.Ok(L.Token.LParen))] + L.Outputs(ParensRaw, L.IterState(10, [L.Layout.Let(4), L.Paren], None, 12, []), 0) &&
           L.After(ParensRaw, L.IterState(8, [L.Layout.Let(4)], None, 10, []), 1) == L.After(ParensRaw, L.IterState(10, [L.Layout.Let(4), L.Paren], None, 12, []), 0) by {
      ParensCall5();
      L.OutputsStep(ParensRaw, L.IterState(8, [L.Layout.Let(4)], None, 10, []), 1, Some(L.Ok(L.Token.LParen)), L.IterState(10, [L.Layout.Let(4), L.Paren], None, 12, []));
    }
    assert L.Outputs(ParensRaw, L.IterState(6, [L.Layout.Let(4)], None, 8, []), 2) == [Some(L.Ok(L.Token.Identifier("f")))] + L.Outputs(ParensRaw, L.IterState(8, [L.Layout.Let(4)], None, 10, []), 1) &&
           L.After(ParensRaw, L.IterState(6, [L.Layout.Let(4)], None, 8, []), 2) == L.After(ParensRaw, L.IterState(8, [L.Layout.Let(4)], None, 10, []), 1) by {
      ParensCall4();
      L.OutputsStep(ParensRaw, L.IterState(6, [L.Layout.Let(4)], None, 8, []), 2, Some(L.Ok(L.Token.Identifier("f"))), L.IterState(8, [L.Layout.Let(4)], None, 10, []));
    }
  }

  lemma ParensCall6To8()
    requires L.ValidRaw(ParensRaw)
    ensures L.After(ParensRaw, L.IterState(10, [L.Layout.Let(4), L.Paren], None, 12, []), 2) == L.IterState(13, [L.Layout.Let(4), L.Paren], None, 12, [])
    ensures L.Outputs(ParensRaw, L.IterState(10, [L.Layout.Let(4), L.Paren], None, 12, []), 2) == [Some(L.Ok(L.Token.Identifier("g"))), Some(L.Ok(L.Token.Identifier("y")))]
  {
    assert L.Outputs(ParensRaw, L.IterState(11, [L.Layout.Let(4), L.Paren], None, 13, []), 1) == [Some(L.Ok(L.Token.Identifier("y")))] + L.Outputs(ParensRaw, L.IterState(13, [L.Layout.Let(4), L.Paren], None, 12, []), 0) &&
           L.After(ParensRaw, L.IterState(11, [L.Layout.Let(4), L.Paren], None, 13, []), 1) == L.After(ParensRaw, L.IterState(13, [L.Layout.Let(4), L.Paren], None, 12, []), 0) by {
      ParensCall7();
      L.OutputsStep(ParensRaw, L.IterState(11, [L.Layout.Let(4), L.Paren], None, 13, []), 1, Some(L.Ok(L.Token.Identifier("y"))), L.IterState(13, [L.Layout.Let(4), L.Paren], None, 12, []));
    }
    assert L.Outputs(ParensRaw, L.IterState(10, [L.Layout.Let(4), L.Paren], None, 12, []), 2) == [Some(L.Ok(L.Token.Identifier("g")))] + L.Outputs(ParensRaw, L.IterState(11, [L.Layout.Let(4), L.Paren], None, 13, []), 1) &&
           L.After(ParensRaw, L.IterState(10, [L.Layout.Let(4), L.Paren], None, 12, []), 2) == L.After(ParensRaw, L.IterState(11, [L.Layout.Let(4), L.Paren], None, 13, []), 1) by {
      ParensCall6();
      L.OutputsStep(ParensRaw, L.IterState(10, [L.Layout.Let(4), L.Paren], None, 12, []), 2, Some(L.Ok(L.Token.Identifier("g"))), L.IterState(11, [L.Layout.Let(4), L.Paren], None, 13, []));
    }
  }

  lemma ParensCall8To10()
    requires L.ValidRaw(ParensRaw)
    ensures L.After(ParensRaw, L.IterState(13, [L.Layout.Let(4), L.Paren], None, 12, []), 2) == L.IterState(16, [L.Layout.Let(4), L.Paren], None, 15, [])
    ensures L.Outputs(ParensRaw, L.IterState(13, [L.Layout.Let(4), L.Paren], None, 12, []), 2) == [Some(L.Ok(L.Token.RParen)), Some(L.Ok(L.Token.LParen))]
  {
    assert L.Outputs(ParensRaw, L.IterState(14, [L.Layout.Let(4)], None, 13, []), 1) == [Some(L.Ok(L.Token.LParen))] + L.Outputs(ParensRaw, L.IterState(16, [L.Layout.Let(4), L.Paren], None, 15, []), 0) &&
           L.After(ParensRaw, L.IterState(14, [L.Layout.Let(4)], None, 13, []), 1) == L.After(ParensRaw, L.IterState(16, [L.Layout.Let(4), L.Paren], None, 15, []), 0) by {
      ParensCall9();
      L.OutputsStep(ParensRaw, L.IterState(14, [L.Layout.Let(4)], None, 13, []), 1, Some(L.Ok(L.Token.LParen)), L.IterState(16, [L.Layout.Let(4), L.Paren], None, 15, []));
    }
    assert L.Outputs(ParensRaw, L.IterState(13, [L.Layout.Let(4), L.Paren], None, 12, []), 2) == [Some(L.Ok(L.Token.RParen))] + L.Outputs(ParensRaw, L.IterState(14, [L.Layout.Let(4)], None, 13, []), 1) &&
           L.After(ParensRaw, L.IterState(13, [L.Layout.Let(4), L.Paren], None, 12, []), 2) == L.After(ParensRaw, L.IterState(14, [L.Layout.Let(4)], None, 13, []), 1) by {
      ParensCall8();
      L.OutputsStep(ParensRaw, L.IterState(13, [L.Layout.Let(4), L.Paren], None, 12, []), 2, Some(L.Ok(L.Token.RParen)), L.IterState(14, [L.Layout.Let(4)], None, 13, []));
    }
  }

  lemma ParensCall10To12()
    requires L.ValidRaw(ParensRaw)
    ensures L.After(ParensRaw, L.IterState(16, [L.Layout.Let(4), L.Paren], None, 15, []), 2) == L.IterState(17, [L.Layout.Let(4), L.Paren], Some(L.Layout.Let(0)), 18, [])
    ensures L.Outputs(ParensRaw, L.IterState(16, [L.Layout.Let(4), L.Paren], None, 15, []), 2) == [Some(L.Ok(L.Token.Let)), Some(L.Ok(L.VLBrace))]
  {
    assert L.Outputs(ParensRaw, L.IterState(17, [L.Layout.Let(4), L.Paren], Some(L.Layout.Let(0)), 18, [L.VLBrace]), 1) == [Some(L.Ok(L.VLBrace))] + L.Outputs(ParensRaw, L.IterState(17, [L.Layout.Let(4), L.Paren], Some(L.Layout.Let(0)), 18, []), 0) &&
           L.After(ParensRaw, L.IterState(17, [L.Layout.Let(4), L.Paren], Some(L.Layout.Let(0)), 18, [L.VLBrace]), 1) == L.After(ParensRaw, L.IterState(17, [L.Layout.Let(4), L.Paren], Some(L.Layout.Let(0)), 18, []), 0) by {
      ParensCall11();
      L.OutputsStep(ParensRaw, L.IterState(17, [L.Layout.Let(4), L.Paren], Some(L.Layout.Let(0)), 18, [L.VLBrace]), 1, Some(L.Ok(L.VLBrace)), L.IterState(17, [L.Layout.Let(4), L.Paren], Some(L.Layout.Let(0)), 18, []));
    }
    assert L.Outputs(ParensRaw, L.IterState(16, [L.Layout.Let(4), L.Paren], None, 15, []), 2) == [Some(L.Ok(L.Token.Let))] + L.Outputs(ParensRaw, L.IterState(17, [L.Layout.Let(4), L.Paren], Some(L.Layout.Let(0)), 18, [L.VLBrace]), 1) &&
           L.After(ParensRaw, L.IterState(16, [L.Layout.Let(4), L.Paren], None, 15, []), 2) == L.After(ParensRaw, L.IterState(17, [L.Layout.Let(4), L.Paren], Some(L.Layout.Let(0)), 18, [L.VLBrace]), 1) by {
      ParensCall10();
      L.OutputsStep(ParensRaw, L.IterState(16, [L.Layout.Let(4), L.Paren], None, 15, []), 2, Some(L.Ok(L.Token.Let)), L.IterState(17, [L.Layout.Let(4), L.Paren], Some(L.Layout.Let(0)), 18, [L.VLBrace]));
    }
  }

  lemma ParensCall12To14()
    requires L.ValidRaw(ParensRaw)
    ensures L.After(ParensRaw, L.IterState(17, [L.Layout.Let(4), L.Paren], Some(L.Layout.Let(0)), 18, []), 2) == L.IterState(21, [L.Layout.Let(4), L.Paren, L.Layout.Let(19)], None, 23, [])
    ensures L.Outputs(ParensRaw, L.IterState(17, [L.Layout.Let(4), L.Paren], Some(L.Layout.Let(0)), 18, []), 2) == [Some(L.Ok(L.Token.Identifier("z"))), Some(L.Ok(L.Token.ColonEqual))]
  {
    assert L.Outputs(ParensRaw, L.IterState(19, [L.Layout.Let(4), L.Paren, L.Layout.Let(19)], None, 20, []), 1) == [Some(L.Ok(L.Token.ColonEqual))] + L.Outputs(ParensRaw, L.IterState(21, [L.Layout.Let(4), L.Paren, L.Layout.Let(19)], None, 23, []), 0) &&
           L.After(ParensRaw, L.IterState(19, [L.Layout.Let(4), L.Paren, L.Layout.Let(19)], None, 20, []), 1) == L.After(ParensRaw, L.IterState(21, [L.Layout.Let(4), L.Paren, L.Layout.Let(19)], None, 23, []), 0) by {
      ParensCall13();
      L.OutputsStep(ParensRaw, L.IterState(19, [L.Layout.Let(4), L.Paren, L.Layout.Let(19)], None, 20, []), 1, Some(L.Ok(L.Token.ColonEqual)), L.IterState(21, [L.Layout.Let(4), L.Paren, L.Layout.Let(19)], None, 23, []));
    }
    assert L.Outputs(ParensRaw, L.IterState(17, [L.Layout.Let(4), L.Paren], Some(L.Layout.Let(0)), 18, []), 2) == [Some(L.Ok(L.Token.Identifier("z")))] + L.Outputs(ParensRaw, L.IterState(19, [L.Layout.Let(4), L.Paren, L.Layout.Let(19)], None, 20, []), 1) &&
           L.After(ParensRaw, L.IterState(17, [L.Layout.Let(4), L.Paren], Some(L.Layout.Let(0)), 18, []), 2) == L.After(ParensRaw, L.IterState(19, [L.Layout.Let(4), L.Paren, L.Layout.Let(19)], None, 20, []), 1) by {
      ParensCall12();
      L.OutputsStep(ParensRaw, L.IterState(17, [L.Layout.Let(4), L.Paren], Some(L.Layout.Let(0)), 18, []), 2, Some(L.Ok(L.Token.Identifier("z"))), L.IterState(19, [L.Layout.Let(4), L.Paren, L.Layout.Let(19)], None, 20, []));
    }
  }

  lemma ParensCall14To16()
    requires L.ValidRaw(ParensRaw)
    ensures L.After(ParensRaw, L.IterState(21, [L.Layout.Let(4), L.Paren, L.Layout.Let(19)], None, 23, []), 2) == L.IterState(25, [L.Layout.Let(4), L.Paren], None, 17, [L.Token.In])
    ensures L.Outputs(ParensRaw, L.IterState(21, [L.Layout.Let(4), L.Paren, L.Layout.Let(19)], None, 23, []), 2) == [Some(L.Ok(L.Token.Identifier("w"))), Some(L.Ok(L.VRBrace))]
  {
    assert L.Outputs(ParensRaw, L.IterState(23, [L.Layout.Let(4), L.Paren, L.Layout.Let(19)], None, 25, []), 1) == [Some(L.Ok(L.VRBrace))] + L.Outputs(ParensRaw, L.IterState(25, [L.Layout.Let(4), L.Paren], None, 17, [L.Token.In]), 0) &&
           L.After(ParensRaw, L.IterState(23, [L.Layout.Let(4), L.Paren, L.Layout.Let(19)], None, 25, []), 1) == L.After(ParensRaw, L.IterState(25, [L.Layout.Let(4), L.Paren], None, 17, [L.Token.In]), 0) by {
      ParensCall15();
      L.OutputsStep(ParensRaw, L.IterState(23, [L.Layout.Let(4), L.Paren, L.Layout.Let(19)], None, 25, []), 1, Some(L.Ok(L.VRBrace)), L.IterState(25, [L.Layout.Let(4), L.Paren], None, 17, [L.Token.In]));
    }
    assert L.Outputs(ParensRaw, L.IterState(21, [L.Layout.Let(4), L.Paren, L.Layout.Let(19)], None, 23, []), 2) == [Some(L.Ok(L.Token.Identifier("w")))] + L.Outputs(ParensRaw, L.IterState(23, [L.Layout.Let(4), L.Paren, L.Layout.Let(19)], None, 25, []), 1) &&
           L.After(ParensRaw, L.IterState(21, [L.Layout.Let(4), L.Paren, L.Layout.Let(19)], None, 23, []), 2) == L.After(ParensRaw, L.IterState(23, [L.Layout.Let(4), L.Paren, L.Layout.Let(19)], None, 25, []), 1) by {
      ParensCall14();
      L.OutputsStep(ParensRaw, L.IterState(21, [L.Layout.Let(4), L.Paren, L.Layout.Let(19)], None, 23, []), 2, Some(L.Ok(L.Token.Identifier("w"))), L.IterState(23, [L.Layout.Let(4), L.Paren, L.Layout.Let(19)], None, 25, []));
    }
  }

  lemma ParensCall16To18()
    requires L.ValidRaw(ParensRaw)
    ensures L.After(ParensRaw, L.IterState(25, [L.Layout.Let(4), L.Paren], None, 17, [L.Token.In]), 2) == L.IterState(27, [L.Layout.Let(4), L.Paren], None, 19, [])
    ensures L.Outputs(ParensRaw, L.IterState(25, [L.Layout.Let(4), L.Paren], None, 17, [L.Token.In]), 2) == [Some(L.Ok(L.Token.In)), Some(L.Ok(L.Token.Identifier("z")))]
  {
    assert L.Outputs(ParensRaw, L.IterState(25, [L.Layout.Let(4), L.Paren], None, 17, []), 1) == [Some(L.Ok(L.Token.Identifier("z")))] + L.Outputs(ParensRaw, L.IterState(27, [L.Layout.Let(4), L.Paren], None, 19, []), 0) &&
           L.After(ParensRaw, L.IterState(25, [L.Layout.Let(4), L.Paren], None, 17, []), 1) == L.After(ParensRaw, L.IterState(27, [L.Layout.Let(4), L.Paren], None, 19, []), 0) by {
      ParensCall17();
      L.OutputsStep(ParensRaw, L.IterState(25, [L.Layout.Let(4), L.Paren], None, 17, []), 1, Some(L.Ok(L.Token.Identifier("z"))), L.IterState(27, [L.Layout.Let(4), L.Paren], None, 19, []));
    }
    assert L.Outputs(ParensRaw, L.IterState(25, [L.Layout.Let(4), L.Paren], None, 17, [L.Token.In]), 2) == [Some(L.Ok(L.Token.In))] + L.Outputs(ParensRaw, L.IterState(25, [L.Layout.Let(4), L.Paren], None, 17, []), 1) &&
           L.After(ParensRaw, L.IterState(25, [L.Layout.Let(4), L.Paren], None, 17, [L.Token.In]), 2) == L.After(ParensRaw, L.IterState(25, [L.Layout.Let(4), L.Paren], None, 17, []), 1) by {
      ParensCall16();
      L.OutputsStep(ParensRaw, L.IterState(25, [L.Layout.Let(4), L.Paren], None, 17, [L.Token.In]), 2, Some(L.Ok(L.Token.In)), L.IterState(25, [L.Layout.Let(4), L.Paren], None, 17, []));
    }
  }

  lemma ParensCall18To20()
    requires L.ValidRaw(ParensRaw)
    ensures L.After(ParensRaw, L.IterState(27, [L.Layout.Let(4), L.Paren], None, 19, []), 2) == L.IterState(29, [L.Layout.Let(4)], None, 4, [])
    ensures L.Outputs(ParensRaw, L.IterState(27, [L.Layout.Let(4), L.Paren], None, 19, []), 2) == [Some(L.Ok(L.Token.RParen)), Some(L.Ok(L.VSemicolon))]
  {
    assert L.Outputs(ParensRaw, L.IterState(28, [L.Layout.Let(4)], None, 20, []), 1) == [Some(L.Ok(L.VSemicolon))] + L.Outputs(ParensRaw, L.IterState(29, [L.Layout.Let(4)], None, 4, []), 0) &&
           L.After(ParensRaw, L.IterState(28, [L.Layout.Let(4)], None, 20, []), 1) == L.After(ParensRaw, L.IterState(29, [L.Layout.Let(4)], None, 4, []), 0) by {
      ParensCall19();
      L.OutputsStep(ParensRaw, L.IterState(28, [L.Layout.Let(4)], None, 20, []), 1, Some(L.Ok(L.VSemicolon)), L.IterState(29, [L.Layout.Let(4)], None, 4, []));
    }
    assert L.Outputs(ParensRaw, L.IterState(27, [L.Layout.Let(4), L.Paren], None, 19, []), 2) == [Some(L.Ok(L.Token.RParen))] + L.Outputs(ParensRaw, L.IterState(28, [L.Layout.Let(4)], None, 20, []), 1) &&
           L.After(ParensRaw, L.IterState(27, [L.Layout.Let(4), L.Paren], None, 19, []), 2) == L.After(ParensRaw, L.IterState(28, [L.Layout.Let(4)], None, 20, []), 1) by {
      ParensCall18();
      L.OutputsStep(ParensRaw, L.IterState(27, [L.Layout.Let(4), L.Paren], None, 19, []), 2, Some(L.Ok(L.Token.RParen)), L.IterState(28, [L.Layout.Let(4)], None, 20, []));
    }
  }

  lemma ParensCall20To22()
    requires L.ValidRaw(ParensRaw)
    ensures L.After(ParensRaw, L.IterState(29, [L.Layout.Let(4)], None, 4, []), 2) == L.IterState(32, [L.Layout.Let(4)], None, 8, [])
    ensures L.Outputs(ParensRaw, L.IterState(29, [L.Layout.Let(4)], None, 4, []), 2) == [Some(L.Ok(L.Token.Identifier("y"))), Some(L.Ok(L.Token.ColonEqual))]
  {
    assert L.Outputs(ParensRaw, L.IterState(30, [L.Layout.Let(4)], None, 5, []), 1) == [Some(L.Ok(L.Token.ColonEqual))] + L.Outputs(ParensRaw, L.IterState(32, [L.Layout.Let(4)], None, 8, []), 0) &&
           L.After(ParensRaw, L.IterState(30, [L.Layout.Let(4)], None, 5, []), 1) == L.After(ParensRaw, L.IterState(32, [L.Layout.Let(4)], None, 8, []), 0) by {
      ParensCall21();
      L.OutputsStep(ParensRaw, L.IterState(30, [L.Layout.Let(4)], None, 5, []), 1, Some(L.Ok(L.Token.ColonEqual)), L.IterState(32, [L.Layout.Let(4)], None, 8, []));
    }
    assert L.Outputs(ParensRaw, L.IterState(29, [L.Layout.Let(4)], None, 4, []), 2) == [Some(L.Ok(L.Token.Identifier("y")))] + L.Outputs(ParensRaw, L.IterState(30, [L.Layout.Let(4)], None, 5, []), 1) &&
           L.After(ParensRaw, L.IterState(29, [L.Layout.Let(4)], None, 4, []), 2) == L.After(ParensRaw, L.IterState(30, [L.Layout.Let(4)], None, 5, []), 1) by {
      ParensCall20();
      L.OutputsStep(ParensRaw, L.IterState(29, [L.Layout.Let(4)], None, 4, []), 2, Some(L.Ok(L.Token.Identifier("y"))), L.IterState(30, [L.Layout.Let(4)], None, 5, []));
    }
  }

  lemma ParensCall22To24()
    requires L.ValidRaw(ParensRaw)
    ensures L.After(ParensRaw, L.IterState(32, [L.Layout.Let(4)], None, 8, []), 2) == L.IterState(35, [L.Layout.Let(4), L.Paren], None, 11, [])
    ensures L.Outputs(ParensRaw, L.IterState(32, [L.Layout.Let(4)], None, 8, []), 2) == [Some(L.Ok(L.Token.LParen)), Some(L.Ok(L.Token.Identifier("a")))]
  {
    assert L.Outputs(ParensRaw, L.IterState(34, [L.Layout.Let(4), L.Paren], None, 10, []), 1) == [Some(L.Ok(L.Token.Identifier("a")))] + L.Outputs(ParensRaw, L.IterState(35, [L.Layout.Let(4), L.Paren], None, 11, []), 0) &&
           L.After(ParensRaw, L.IterState(34, [L.Layout.Let(4), L.Paren], None, 10, []), 1) == L.After(ParensRaw, L.IterState(35, [L.Layout.Let(4), L.Paren], None, 11, []), 0) by {
      ParensCall23();
      L.OutputsStep(ParensRaw, L.IterState(34, [L.Layout.Let(4), L.Paren], None, 10, []), 1, Some(L.Ok(L.Token.Identifier("a"))), L.IterState(35, [L.Layout.Let(4), L.Paren], None, 11, []));
    }
    assert L.Outputs(ParensRaw, L.IterState(32, [L.Layout.Let(4)], None, 8, []), 2) == [Some(L.Ok(L.Token.LParen))] + L.Outputs(ParensRaw, L.IterState(34, [L.Layout.Let(4), L.Paren], None, 10, []), 1) &&
           L.After(ParensRaw, L.IterState(32, [L.Layout.Let(4)], None, 8, []), 2) == L.After(ParensRaw, L.IterState(34, [L.Layout.Let(4), L.Paren], None, 10, []), 1) by {
      ParensCall22();
      L.OutputsStep(ParensRaw, L.IterState(32, [L.Layout.Let(4)], None, 8, []), 2, Some(L.Ok(L.Token.LParen)), L.IterState(34, [L.Layout.Let(4), L.Paren], None, 10, []));
    }
  }

  lemma ParensCall24To26()
    requires L.ValidRaw(ParensRaw)
    ensures L.After(ParensRaw, L.IterState(35, [L.Layout.Let(4), L.Paren], None, 11, []), 2) == L.IterState(40, [L.Layout.Let(4), L.Paren], None, 1, [])
    ensures L.Outputs(ParensRaw, L.IterState(35, [L.Layout.Let(4), L.Paren], None, 11, []), 2) == [Some(L.Ok(L.Token.Identifier("b"))), Some(L.Ok(L.Token.Identifier("c")))]
  {
    assert L.Outputs(ParensRaw, L.IterState(37, [L.Layout.Let(4), L.Paren], None, 13, []), 1) == [Some(L.Ok(L.Token.Identifier("c")))] + L.Outputs(ParensRaw, L.IterState(40, [L.Layout.Let(4), L.Paren], None, 1, []), 0) &&
           L.After(ParensRaw, L.IterState(37, [L.Layout.Let(4), L.Paren], None, 13, []), 1) == L.After(ParensRaw, L.IterState(40, [L.Layout.Let(4), L.Paren], None, 1, []), 0) by {
      ParensCall25();
      L.OutputsStep(ParensRaw, L.IterState(37, [L.Layout.Let(4), L.Paren], None, 13, []), 1, Some(L.Ok(L.Token.Identifier("c"))), L.IterState(40, [L.Layout.Let(4), L.Paren], None, 1, []));
    }
    assert L.Outputs(ParensRaw, L.IterState(35, [L.Layout.Let(4), L.Paren], None, 11, []), 2) == [Some(L.Ok(L.Token.Identifier("b")))] + L.Outputs(ParensRaw, L.IterState(37, [L.Layout.Let(4), L.Paren], None, 13, []), 1) &&
           L.After(ParensRaw, L.IterState(35, [L.Layout.Let(4), L.Paren], None, 11, []), 2) == L.After(ParensRaw, L.IterState(37, [L.Layout.Let(4), L.Paren], None, 13, []), 1) by {
      ParensCall24();
      L.OutputsStep(ParensRaw, L.IterState(35, [L.Layout.Let(4), L.Paren], None, 11, []), 2, Some(L.Ok(L.Token.Identifier("b"))), L.IterState(37, [L.Layout.Let(4), L.Paren], None, 13, []));
    }
  }

  lemma ParensCall26To28()
    requires L.ValidRaw(ParensRaw)
    ensures L.After(ParensRaw, L.IterState(40, [L.Layout.Let(4), L.Paren], None, 1, []), 2) == L.IterState(43, [], None, 2, [L.Token.In])
    ensures L.Outputs(ParensRaw, L.IterState(40, [L.Layout.Let(4), L.Paren], None, 1, []), 2) == [Some(L.Ok(L.Token.RParen)), Some(L.Ok(L.VRBrace))]
  {
    assert L.Outputs(ParensRaw, L.IterState(41, [L.Layout.Let(4)], None, 2, []), 1) == [Some(L.Ok(L.VRBrace))] + L.Outputs(ParensRaw, L.IterState(43, [], None, 2, [L.Token.In]), 0) &&
           L.After(ParensRaw, L.IterState(41, [L.Layout.Let(4)], None, 2, []), 1) == L.After(ParensRaw, L.IterState(43, [], None, 2, [L.Token.In]), 0) by {
      ParensCall27();
      L.OutputsStep(ParensRaw, L.IterState(41, [L.Layout.Let(4)], None, 2, []), 1, Some(L.Ok(L.VRBrace)), L.IterState(43, [], None, 2, [L.Token.In]));
    }
    assert L.Outputs(ParensRaw, L.IterState(40, [L.Layout.Let(4), L.Paren], None, 1, []), 2) == [Some(L.Ok(L.Token.RParen))] + L.Outputs(ParensRaw, L.IterState(41, [L.Layout.Let(4)], None, 2, []), 1) &&
           L.After(ParensRaw, L.IterState(40, [L.Layout.Let(4), L.Paren], None, 1, []), 2) == L.After(ParensRaw, L.IterState(41, [L.Layout.Let(4)], None, 2, []), 1) by {
      ParensCall26();
      L.OutputsStep(ParensRaw, L.IterState(40, [L.Layout.Let(4), L.Paren], None, 1, []), 2, Some(L.Ok(L.Token.RParen)), L.IterState(41, [L.Layout.Let(4)], None, 2, []));
    }
  }

  lemma ParensCall28To30()
    requires L.ValidRaw(ParensRaw)
    ensures L.After(ParensRaw, L.IterState(43, [], None, 2, [L.Token.In]), 2) == L.IterState(45, [], None, 4, [])
    ensures L.Outputs(ParensRaw, L.IterState(43, [], None, 2, [L.Token.In]), 2) == [Some(L.Ok(L.Token.In)), Some(L.Ok(L.Token.Identifier("x")))]
  {
    assert L.Outputs(ParensRaw, L.IterState(43, [], None, 2, []), 1) == [Some(L.Ok(L.Token.Identifier("x")))] + L.Outputs(ParensRaw, L.IterState(45, [], None, 4, []), 0) &&
           L.After(ParensRaw, L.IterState(43, [], None, 2, []), 1) == L.After(ParensRaw, L.IterState(45, [], None, 4, []), 0) by {
      ParensCall29();
      L.OutputsStep(ParensRaw, L.IterState(43, [], None, 2, []), 1, Some(L.Ok(L.Token.Identifier("x"))), L.IterState(45, [], None, 4, []));
    }
    assert L.Outputs(ParensRaw, L.IterState(43, [], None, 2, [L.Token.In]), 2) == [Some(L.Ok(L.Token.In))] + L.Outputs(ParensRaw, L.IterState(43, [], None, 2, []), 1) &&
           L.After(ParensRaw, L.IterState(43, [], None, 2, [L.Token.In]), 2) == L.After(ParensRaw, L.IterState(43, [], None, 2, []), 1) by {
      ParensCall28();
      L.OutputsStep(ParensRaw, L.IterState(43, [], None, 2, [L.Token.In]), 2, Some(L.Ok(L.Token.In)), L.IterState(43, [], None, 2, []));
    }
  }

  lemma ParensCall30To31()
    requires L.ValidRaw(ParensRaw)
    ensures L.After(ParensRaw, L.IterState(45, [], None, 4, []), 1) == L.IterState(45, [], None, 4, [])
    ensures L.Outputs(ParensRaw, L.IterState(45, [], None, 4, []), 1) == [None]
  {
    assert L.Outputs(ParensRaw, L.IterState(45, [], None, 4, []), 1) == [None] + L.Outputs(ParensRaw, L.IterState(45, [], None, 4, []), 0) &&
           L.After(ParensRaw, L.IterState(45, [], None, 4, []), 1) == L.After(ParensRaw, L.IterState(45, [], None, 4, []), 0) by {
      ParensCall30();
      L.OutputsStep(ParensRaw, L.IterState(45, [], None, 4, []), 1, None, L.IterState(45, [], None, 4, []));
    }
  }

  /** The raw tokens of the input of `test_by_in_parens`: a `)` closes the `by` block opened inside its
      parenthesis. */
  const ByInParensRaw: R.Stream<L.RawToken> := R.Stream(seq(20, i requires 0 <= i => ByInParensTok(i)), None)

  function ByInParensTok(i: nat): R.Spanned<L.RawToken>
  {
    if i == 0 then R.Spanned(0, L.RawToken.Indent("\n"), 1)
    else if i == 1 then R.Spanned(53, L.RawToken.Indent("\n"), 54)
    else if i == 2 then R.Spanned(54, L.RawToken.Identifier("f"), 55)
    else if i == 3 then R.Spanned(55, L.RawToken.Whitespace(" "), 56)
    else if i == 4 then R.Spanned(56, L.RawToken.LParen, 57)
    else if i == 5 then R.Spanned(57, L.RawToken.Identifier("a"), 58)
    else if i == 6 then R.Spanned(58, L.RawToken.Whitespace(" "), 59)
    else if i == 7 then R.Spanned(59, L.RawToken.By, 61)
    else if i == 8 then R.Spanned(61, L.RawToken.Whitespace(" "), 62)
    else if i == 9 then R.Spanned(62, L.RawToken.Identifier("y"), 63)
    else if i == 10 then R.Spanned(63, L.RawToken.Whitespace(" "), 64)
    else if i == 11 then R.Spanned(64, L.RawToken.LParen, 65)
    else if i == 12 then R.Spanned(65, L.RawToken.Identifier("foo"), 68)
    else if i == 13 then R.Spanned(68, L.RawToken.Whitespace(" "), 69)
    else if i == 14 then R.Spanned(69, L.RawToken.Identifier("bar"), 72)
    else if i == 15 then R.Spanned(72, L.RawToken.RParen, 73)
    else if i == 16 then R.Spanned(73, L.RawToken.RParen, 74)
    else if i == 17 then R.Spanned(74, L.RawToken.Whitespace(" "), 75)
    else if i == 18 then R.Spanned(75, L.RawToken.Identifier("b"), 76)
    else R.Spanned(76, L.RawToken.Indent("\n"), 77)
  }

  lemma ByInParensRawValid()
    ensures L.ValidRaw(ByInParensRaw)
  {
    ByInParensRawFrom0();
    L.ValidRawOf(ByInParensRaw.toks);
  }

  lemma ByInParensRawFrom0()
    ensures R.InOrderFrom(ByInParensRaw.toks, 0, 0) && L.TextsNonEmpty(ByInParensRaw.toks, 0)
  {
    var t := ByInParensRaw.toks;
    ByInParensRawFrom3();
    assert R.InOrderFrom(t, 2, 54) && L.TextsNonEmpty(t, 2);
    assert R.InOrderFrom(t, 1, 1) && L.TextsNonEmpty(t, 1);
    assert R.InOrderFrom(t, 0, 0) && L.TextsNonEmpty(t, 0);
  }

  lemma ByInParensRawFrom3()
    ensures R.InOrderFrom(ByInParensRaw.toks, 3, 55) && L.TextsNonEmpty(ByInParensRaw.toks, 3)
  {
    var t := ByInParensRaw.toks;
    ByInParensRawFrom6();
    assert R.InOrderFrom(t, 5, 57) && L.TextsNonEmpty(t, 5);
    assert R.InOrderFrom(t, 4, 56) && L.TextsNonEmpty(t, 4);
    assert R.InOrderFrom(t, 3, 55) && L.TextsNonEmpty(t, 3);
  }

  lemma ByInParensRawFrom6()
    ensures R.InOrderFrom(ByInParensRaw.toks, 6, 58) && L.TextsNonEmpty(ByInParensRaw.toks, 6)
  {
    var t := ByInParensRaw.toks;
    ByInParensRawFrom9();
    assert R.InOrderFrom(t, 8, 61) && L.TextsNonEmpty(t, 8);
    assert R.InOrderFrom(t, 7, 59) && L.TextsNonEmpty(t, 7);
    assert R.InOrderFrom(t, 6, 58) && L.TextsNonEmpty(t, 6);
  }

  lemma ByInParensRawFrom9()
    ensures R.InOrderFrom(ByInParensRaw.toks, 9, 62) && L.TextsNonEmpty(ByInParensRaw.toks, 9)
  {
    var t := ByInParensRaw.toks;
    ByInParensRawFrom12();
    assert R.InOrderFrom(t, 11, 64) && L.TextsNonEmpty(t, 11);
    assert R.InOrderFrom(t, 10, 63) && L.TextsNonEmpty(t, 10);
    assert R.InOrderFrom(t, 9, 62) && L.TextsNonEmpty(t, 9);
  }

  lemma ByInParensRawFrom12()
    ensures R.InOrderFrom(ByInParensRaw.toks, 12, 65) && L.TextsNonEmpty(ByInParensRaw.toks, 12)
  {
    var t := ByInParensRaw.toks;
    ByInParensRawFrom15();
    assert R.InOrderFrom(t, 14, 69) && L.TextsNonEmpty(t, 14);
    assert R.InOrderFrom(t, 13, 68) && L.TextsNonEmpty(t, 13);
    assert R.InOrderFrom(t, 12, 65) && L.TextsNonEmpty(t, 12);
  }

  lemma ByInParensRawFrom15()
    ensures R.InOrderFrom(ByInParensRaw.toks, 15, 72) && L.TextsNonEmpty(ByInParensRaw.toks, 15)
  {
    var t := ByInParensRaw.toks;
    ByInParensRawFrom18();
    assert R.InOrderFrom(t, 17, 74) && L.TextsNonEmpty(t, 17);
    assert R.InOrderFrom(t, 16, 73) && L.TextsNonEmpty(t, 16);
    assert R.InOrderFrom(t, 15, 72) && L.TextsNonEmpty(t, 15);
  }

  lemma ByInParensRawFrom18()
    ensures R.InOrderFrom(ByInParensRaw.toks, 18, 75) && L.TextsNonEmpty(ByInParensRaw.toks, 18)
  {
    var t := ByInParensRaw.toks;
    assert R.InOrderFrom(t, 19, 76) && L.TextsNonEmpty(t, 19);
    assert R.InOrderFrom(t, 18, 75) && L.TextsNonEmpty(t, 18);
  }

  /** The tokens `test_by_in_parens` (tests/layout_rules.rs:510-539) expects, then `None`. */
  lemma ByInParensExpected()
    ensures L.ValidRaw(ByInParensRaw)
    ensures L.Outputs(ByInParensRaw, L.Initial, 14) ==
            [
              Some(L.Ok(L.Token.Identifier("f"))), Some(L.Ok(L.Token.LParen)), Some(L.Ok(L.Token.Identifier("a"))), Some(L.Ok(L.Token.By)),
              Some(L.Ok(L.VLBrace)), Some(L.Ok(L.Token.Identifier("y"))), Some(L.Ok(L.Token.LParen)), Some(L.Ok(L.Token.Identifier("foo"))),
              Some(L.Ok(L.Token.Identifier("bar"))), Some(L.Ok(L.Token.RParen)), Some(L.Ok(L.VRBrace)), Some(L.Ok(L.Token.RParen)),
              Some(L.Ok(L.Token.Identifier("b"))), None]
  {
    ByInParensRawValid();
    ByInParensRuns();
    ByInParensRegroup();
  }

  lemma ByInParensRegroup()
    ensures [Some(L.Ok(L.Token.Identifier("f"))), Some(L.Ok(L.Token.LParen))]
            + ([Some(L.Ok(L.Token.Identifier("a"))), Some(L.Ok(L.Token.By))]
            + ([Some(L.Ok(L.VLBrace)), Some(L.Ok(L.Token.Identifier("y")))]
            + ([Some(L.Ok(L.Token.LParen)), Some(L.Ok(L.Token.Identifier("foo")))]
            + ([Some(L.Ok(L.Token.Identifier("bar"))), Some(L.Ok(L.Token.RParen))]
            + ([Some(L.Ok(L.VRBrace)), Some(L.Ok(L.Token.RParen))]
            + ([Some(L.Ok(L.Token.Identifier("b"))), None])))))) ==
            [Some(L.Ok(L.Token.Identifier("f"))), Some(L.Ok(L.Token.LParen)), Some(L.Ok(L.Token.Identifier("a"))), Some(L.Ok(L.Token.By)), Some(L.Ok(L.VLBrace)), Some(L.Ok(L.Token.Identifier("y"))), Some(L.Ok(L.Token.LParen)), Some(L.Ok(L.Token.Identifier("foo"))), Some(L.Ok(L.Token.Identifier("bar"))), Some(L.Ok(L.Token.RParen)), Some(L.Ok(L.VRBrace)), Some(L.Ok(L.Token.RParen)), Some(L.Ok(L.Token.Identifier("b"))), None]
  {
  }

  /** The run, two calls at a time. */
  lemma ByInParensRuns()
    requires L.ValidRaw(ByInParensRaw)
    ensures L.Outputs(ByInParensRaw, L.Initial, 14) ==
            [Some(L.Ok(L.Token.Identifier("f"))), Some(L.Ok(L.Token.LParen))]
            + ([Some(L.Ok(L.Token.Identifier("a"))), Some(L.Ok(L.Token.By))]
            + ([Some(L.Ok(L.VLBrace)), Some(L.Ok(L.Token.Identifier("y")))]
            + ([Some(L.Ok(L.Token.LParen)), Some(L.Ok(L.Token.Identifier("foo")))]
            + ([Some(L.Ok(L.Token.Identifier("bar"))), Some(L.Ok(L.Token.RParen))]
            + ([Some(L.Ok(L.VRBrace)), Some(L.Ok(L.Token.RParen))]
            + ([Some(L.Ok(L.Token.Identifier("b"))), None]))))))
  {
    ByInParensCall0To2();
    ByInParensCall2To4();
    ByInParensCall4To6();
    ByInParensCall6To8();
    ByInParensCall8To10();
    ByInParensCall10To12();
    ByInParensCall12To14();
    L.OutputsSplit(ByInParensRaw, L.IterState(17, [], None, 20, []), 2, 0);
    L.OutputsSplit(ByInParensRaw, L.IterState(16, [L.Paren, L.Other(8)], None, 19, []), 2, 2);
    L.OutputsSplit(ByInParensRaw, L.IterState(13, [L.Paren, L.Other(8), L.Paren], None, 14, []), 2, 4);
    L.OutputsSplit(ByInParensRaw, L.IterState(10, [L.Paren, L.Other(8)], None, 9, []), 2, 6);
    L.OutputsSplit(ByInParensRaw, L.IterState(8, [L.Paren], Some(L.Other(0)), 7, [L.VLBrace]), 2, 8);
    L.OutputsSplit(ByInParensRaw, L.IterState(5, [L.Paren], None, 3, []), 2, 10);
    L.OutputsSplit(ByInParensRaw, L.Initial, 2, 12);
  }

  lemma ByInParensCall0()
    requires L.ValidRaw(ByInParensRaw)
    ensures L.NextSpec(ByInParensRaw, L.Initial) == (Some(L.Ok(L.Token.Identifier("f"))), L.IterState(3, [], None, 1, []))
  {
    assert ByInParensRaw.toks[0] == R.Spanned(0, L.RawToken.Indent("\n"), 1);
    assert L.Advance(L.Initial, R.Spanned(0, L.RawToken.Indent("\n"), 1)) == L.IterState(1, [], None, 1, []);
    assert L.OnIndentStep(ByInParensRaw, 0, L.IterState(1, [], None, 1, [])) == L.Continue(L.IterState(1, [], None, 0, []));
    assert L.Consume(ByInParensRaw, L.Initial) == L.Continue(L.IterState(1, [], None, 0, []));
    assert ByInParensRaw.toks[1] == R.Spanned(53, L.RawToken.Indent("\n"), 54);
    assert L.Advance(L.IterState(1, [], None, 0, []), R.Spanned(53, L.RawToken.Indent("\n"), 54)) == L.IterState(2, [], None, 1, []);
    assert L.OnIndentStep(ByInParensRaw, 0, L.IterState(2, [], None, 1, [])) == L.Continue(L.IterState(2, [], None, 0, []));
    assert L.Consume(ByInParensRaw, L.IterState(1, [], None, 0, [])) == L.Continue(L.IterState(2, [], None, 0, []));
    assert L.Consume(ByInParensRaw, L.IterState(2, [], None, 0, [])) == L.Return(Some(L.Ok(L.Token.Identifier("f"))), L.IterState(3, [], None, 1, []));
    assert L.Loop(ByInParensRaw, L.Initial) == L.Loop(ByInParensRaw, L.IterState(1, [], None, 0, []));
    assert L.Loop(ByInParensRaw, L.IterState(1, [], None, 0, [])) == L.Loop(ByInParensRaw, L.IterState(2, [], None, 0, []));
  }

  lemma ByInParensCall1()
    requires L.ValidRaw(ByInParensRaw)
    ensures L.NextSpec(ByInParensRaw, L.IterState(3, [], None, 1, [])) == (Some(L.Ok(L.Token.LParen)), L.IterState(5, [L.Paren], None, 3, []))
  {
    assert L.Consume(ByInParensRaw, L.IterState(3, [], None, 1, [])) == L.Continue(L.IterState(4, [], None, 2, []));
    assert L.Consume(ByInParensRaw, L.IterState(4, [], None, 2, [])) == L.Return(Some(L.Ok(L.Token.LParen)), L.IterState(5, [L.Paren], None, 3, []));
    assert L.Loop(ByInParensRaw, L.IterState(3, [], None, 1, [])) == L.Loop(ByInParensRaw, L.IterState(4, [], None, 2, []));
  }

  lemma ByInParensCall2()
    requires L.ValidRaw(ByInParensRaw)
    ensures L.NextSpec(ByInParensRaw, L.IterState(5, [L.Paren], None, 3, [])) == (Some(L.Ok(L.Token.Identifier("a"))), L.IterState(6, [L.Paren], None, 4, []))
  {
    assert L.Consume(ByInParensRaw, L.IterState(5, [L.Paren], None, 3, [])) == L.Return(Some(L.Ok(L.Token.Identifier("a"))), L.IterState(6, [L.Paren], None, 4, []));
  }

  lemma ByInParensCall3()
    requires L.ValidRaw(ByInParensRaw)
    ensures L.NextSpec(ByInParensRaw, L.IterState(6, [L.Paren], None, 4, [])) == (Some(L.Ok(L.Token.By)), L.IterState(8, [L.Paren], Some(L.Other(0)), 7, [L.VLBrace]))
  {
    assert L.Consume(ByInParensRaw, L.IterState(6, [L.Paren], None, 4, [])) == L.Continue(L.IterState(7, [L.Paren], None, 5, []));
    assert L.Consume(ByInParensRaw, L.IterState(7, [L.Paren], None, 5, [])) == L.Return(Some(L.Ok(L.Token.By)), L.IterState(8, [L.Paren], Some(L.Other(0)), 7, [L.VLBrace]));
    assert L.Loop(ByInParensRaw, L.IterState(6, [L.Paren], None, 4, [])) == L.Loop(ByInParensRaw, L.IterState(7, [L.Paren], None, 5, []));
  }

  lemma ByInParensCall4()
    requires L.ValidRaw(ByInParensRaw)
    ensures L.NextSpec(ByInParensRaw, L.IterState(8, [L.Paren], Some(L.Other(0)), 7, [L.VLBrace])) == (Some(L.Ok(L.VLBrace)), L.IterState(8, [L.Paren], Some(L.Other(0)), 7, []))
  {
    assert [L.VLBrace][1..] == [];
  }

  lemma ByInParensCall5()
    requires L.ValidRaw(ByInParensRaw)
    ensures L.NextSpec(ByInParensRaw, L.IterState(8, [L.Paren], Some(L.Other(0)), 7, [])) == (Some(L.Ok(L.Token.Identifier("y"))), L.IterState(10, [L.Paren, L.Other(8)], None, 9, []))
  {
    assert L.Consume(ByInParensRaw, L.IterState(8, [L.Paren], Some(L.Other(0)), 7, [])) == L.Continue(L.IterState(9, [L.Paren], Some(L.Other(0)), 8, []));
    assert L.Consume(ByInParensRaw, L.IterState(9, [L.Paren], Some(L.Other(0)), 8, [])) == L.Return(Some(L.Ok(L.Token.Identifier("y"))), L.IterState(10, [L.Paren, L.Other(8)], None, 9, []));
    assert L.Loop(ByInParensRaw, L.IterState(8, [L.Paren], Some(L.Other(0)), 7, [])) == L.Loop(ByInParensRaw, L.IterState(9, [L.Paren], Some(L.Other(0)), 8, []));
  }

  lemma ByInParensCall6()
    requires L.ValidRaw(ByInParensRaw)
    ensures L.NextSpec(ByInParensRaw, L.IterState(10, [L.Paren, L.Other(8)], None, 9, [])) == (Some(L.Ok(L.Token.LParen)), L.IterState(12, [L.Paren, L.Other(8), L.Paren], None, 11, []))
  {
    assert L.Consume(ByInParensRaw, L.IterState(10, [L.Paren, L.Other(8)], None, 9, [])) == L.Continue(L.IterState(11, [L.Paren, L.Other(8)], None, 10, []));
    assert L.Consume(ByInParensRaw, L.IterState(11, [L.Paren, L.Other(8)], None, 10, [])) == L.Return(Some(L.Ok(L.Token.LParen)), L.IterState(12, [L.Paren, L.Other(8), L.Paren], None, 11, []));
    assert L.Loop(ByInParensRaw, L.IterState(10, [L.Paren, L.Other(8)], None, 9, [])) == L.Loop(ByInParensRaw, L.IterState(11, [L.Paren, L.Other(8)], None, 10, []));
  }

  lemma ByInParensCall7()
    requires L.ValidRaw(ByInParensRaw)
    ensures L.NextSpec(ByInParensRaw, L.IterState(12, [L.Paren, L.Other(8), L.Paren], None, 11, [])) == (Some(L.Ok(L.Token.Identifier("foo"))), L.IterState(13, [L.Paren, L.Other(8), L.Paren], None, 14, []))
  {
    assert L.Consume(ByInParensRaw, L.IterState(12, [L.Paren, L.Other(8), L.Paren], None, 11, [])) == L.Return(Some(L.Ok(L.Token.Identifier("foo"))), L.IterState(13, [L.Paren, L.Other(8), L.Paren], None, 14, []));
  }

  lemma ByInParensCall8()
    requires L.ValidRaw(ByInParensRaw)
    ensures L.NextSpec(ByInParensRaw, L.IterState(13, [L.Paren, L.Other(8), L.Paren], None, 14, [])) == (Some(L.Ok(L.Token.Identifier("bar"))), L.IterState(15, [L.Paren, L.Other(8), L.Paren], None, 18, []))
  {
    assert L.Consume(ByInParensRaw, L.IterState(13, [L.Paren, L.Other(8), L.Paren], None, 14, [])) == L.Continue(L.IterState(14, [L.Paren, L.Other(8), L.Paren], None, 15, []));
    assert L.Consume(ByInParensRaw, L.IterState(14, [L.Paren, L.Other(8), L.Paren], None, 15, [])) == L.Return(Some(L.Ok(L.Token.Identifier("bar"))), L.IterState(15, [L.Paren, L.Other(8), L.Paren], None, 18, []));
    assert L.Loop(ByInParensRaw, L.IterState(13, [L.Paren, L.Other(8), L.Paren], None, 14, [])) == L.Loop(ByInParensRaw, L.IterState(14, [L.Paren, L.Other(8), L.Paren], None, 15, []));
  }

  lemma ByInParensCall9()
    requires L.ValidRaw(ByInParensRaw)
    ensures L.NextSpec(ByInParensRaw, L.IterState(15, [L.Paren, L.Other(8), L.Paren], None, 18, [])) == (Some(L.Ok(L.Token.RParen)), L.IterState(16, [L.Paren, L.Other(8)], None, 19, []))
  {
    assert ByInParensRaw.toks[15] == R.Spanned(72, L.RawToken.RParen, 73);
    assert L.Advance(L.IterState(15, [L.Paren, L.Other(8), L.Paren], None, 18, []), R.Spanned(72, L.RawToken.RParen, 73)) == L.IterState(16, [L.Paren, L.Other(8), L.Paren], None, 19, []);
    assert L.CloseStep(L.IterState(16, [L.Paren, L.Other(8), L.Paren], None, 19, []), true) == L.Return(Some(L.Ok(L.Token.RParen)), L.IterState(16, [L.Paren, L.Other(8)], None, 19, []));
    assert L.Consume(ByInParensRaw, L.IterState(15, [L.Paren, L.Other(8), L.Paren], None, 18, [])) == L.Return(Some(L.Ok(L.Token.RParen)), L.IterState(16, [L.Paren, L.Other(8)], None, 19, []));
  }

  lemma ByInParensCall10()
    requires L.ValidRaw(ByInParensRaw)
    ensures L.NextSpec(ByInParensRaw, L.IterState(16, [L.Paren, L.Other(8)], None, 19, [])) == (Some(L.Ok(L.VRBrace)), L.IterState(17, [], None, 20, [L.Token.RParen]))
  {
    assert ByInParensRaw.toks[16] == R.Spanned(73, L.RawToken.RParen, 74);
    assert L.Advance(L.IterState(16, [L.Paren, L.Other(8)], None, 19, []), R.Spanned(73, L.RawToken.RParen, 74)) == L.IterState(17, [L.Paren, L.Other(8)], None, 20, []);
    assert L.CloseStep(L.IterState(17, [L.Paren, L.Other(8)], None, 20, []), true) == L.Return(Some(L.Ok(L.VRBrace)), L.IterState(17, [], None, 20, [L.Token.RParen]));
    assert L.Consume(ByInParensRaw, L.IterState(16, [L.Paren, L.Other(8)], None, 19, [])) == L.Return(Some(L.Ok(L.VRBrace)), L.IterState(17, [], None, 20, [L.Token.RParen]));
  }

  lemma ByInParensCall11()
    requires L.ValidRaw(ByInParensRaw)
    ensures L.NextSpec(ByInParensRaw, L.IterState(17, [], None, 20, [L.Token.RParen])) == (Some(L.Ok(L.Token.RParen)), L.IterState(17, [], None, 20, []))
  {
    assert [L.Token.RParen][1..] == [];
  }

  lemma ByInParensCall12()
    requires L.ValidRaw(ByInParensRaw)
    ensures L.NextSpec(ByInParensRaw, L.IterState(17, [], None, 20, [])) == (Some(L.Ok(L.Token.Identifier("b"))), L.IterState(19, [], None, 22, []))
  {
    assert L.Consume(ByInParensRaw, L.IterState(17, [], None, 20, [])) == L.Continue(L.IterState(18, [], None, 21, []));
    assert L.Consume(ByInParensRaw, L.IterState(18, [], None, 21, [])) == L.Return(Some(L.Ok(L.Token.Identifier("b"))), L.IterState(19, [], None, 22, []));
    assert L.Loop(ByInParensRaw, L.IterState(17, [], None, 20, [])) == L.Loop(ByInParensRaw, L.IterState(18, [], None, 21, []));
  }

  lemma ByInParensCall13()
    requires L.ValidRaw(ByInParensRaw)
    ensures L.NextSpec(ByInParensRaw, L.IterState(19, [], None, 22, [])) == (None, L.IterState(20, [], None, 0, []))
  {
    assert ByInParensRaw.toks[19] == R.Spanned(76, L.RawToken.Indent("\n"), 77);
    assert L.Advance(L.IterState(19, [], None, 22, []), R.Spanned(76, L.RawToken.Indent("\n"), 77)) == L.IterState(20, [], None, 23, []);
    assert L.OnIndentStep(ByInParensRaw, 0, L.IterState(20, [], None, 23, [])) == L.Continue(L.IterState(20, [], None, 0, []));
    assert L.Consume(ByInParensRaw, L.IterState(19, [], None, 22, [])) == L.Continue(L.IterState(20, [], None, 0, []));
    assert L.AtEnd(ByInParensRaw, L.IterState(20, [], None, 0, [])) == (None, L.IterState(20, [], None, 0, []));
    assert L.Loop(ByInParensRaw, L.IterState(20, [], None, 0, [])) == L.AtEnd(ByInParensRaw, L.IterState(20, [], None, 0, []));
    assert L.Loop(ByInParensRaw, L.IterState(19, [], None, 22, [])) == L.Loop(ByInParensRaw, L.IterState(20, [], None, 0, []));
  }

  lemma ByInParensCall0To2()
    requires L.ValidRaw(ByInParensRaw)
    ensures L.After(ByInParensRaw, L.Initial, 2) == L.IterState(5, [L.Paren], None, 3, [])
    ensures L.Outputs(ByInParensRaw, L.Initial, 2) == [Some(L.Ok(L.Token.Identifier("f"))), Some(L.Ok(L.Token.LParen))]
  {
    assert L.Outputs(ByInParensRaw, L.IterState(3, [], None, 1, []), 1) == [Some(L.Ok(L.Token.LParen))] + L.Outputs(ByInParensRaw, L.IterState(5, [L.Paren], None, 3, []), 0) &&
           L.After(ByInParensRaw, L.IterState(3, [], None, 1, []), 1) == L.After(ByInParensRaw, L.IterState(5, [L.Paren], None, 3, []), 0) by {
      ByInParensCall1();
      L.OutputsStep(ByInParensRaw, L.IterState(3, [], None, 1, []), 1, Some(L.Ok(L.Token.LParen)), L.IterState(5, [L.Paren], None, 3, []));
    }
    assert L.Outputs(ByInParensRaw, L.Initial, 2) == [Some(L.Ok(L.Token.Identifier("f")))] + L.Outputs(ByInParensRaw, L.IterState(3, [], None, 1, []), 1) &&
           L.After(ByInParensRaw, L.Initial, 2) == L.After(ByInParensRaw, L.IterState(3, [], None, 1, []), 1) by {
      ByInParensCall0();
      L.OutputsStep(ByInParensRaw, L.Initial, 2, Some(L.Ok(L.Token.Identifier("f"))), L.IterState(3, [], None, 1, []));
    }
  }

  lemma ByInParensCall2To4()
    requires L.ValidRaw(ByInParensRaw)
    ensures L.After(ByInParensRaw, L.IterState(5, [L.Paren], None, 3, []), 2) == L.IterState(8, [L.Paren], Some(L.Other(0)), 7, [L.VLBrace])
    ensures L.Outputs(ByInParensRaw, L.IterState(5, [L.Paren], None, 3, []), 2) == [Some(L.Ok(L.Token.Identifier("a"))), Some(L.Ok(L.Token.By))]
  {
    assert L.Outputs(ByInParensRaw, L.IterState(6, [L.Paren], None, 4, []), 1) == [Some(L.Ok(L.Token.By))] + L.Outputs(ByInParensRaw, L.IterState(8, [L.Paren], Some(L.Other(0)), 7, [L.VLBrace]), 0) &&
           L.After(ByInParensRaw, L.IterState(6, [L.Paren], None, 4, []), 1) == L.After(ByInParensRaw, L.IterState(8, [L.Paren], Some(L.Other(0)), 7, [L.VLBrace]), 0) by {
      ByInParensCall3();
      L.OutputsStep(ByInParensRaw, L.IterState(6, [L.Paren], None, 4, []), 1, Some(L.Ok(L.Token.By)), L.IterState(8, [L.Paren], Some(L.Other(0)), 7, [L.VLBrace]));
    }
    assert L.Outputs(ByInParensRaw, L.IterState(5, [L.Paren], None, 3, []), 2) == [Some(L.Ok(L.Token.Identifier("a")))] + L.Outputs(ByInParensRaw, L.IterState(6, [L.Paren], None, 4, []), 1) &&
           L.After(ByInParensRaw, L.IterState(5, [L.Paren], None, 3, []), 2) == L.After(ByInParensRaw, L.IterState(6, [L.Paren], None, 4, []), 1) by {
      ByInParensCall2();
      L.OutputsStep(ByInParensRaw, L.IterState(5, [L.Paren], None, 3, []), 2, Some(L.Ok(L.Token.Identifier("a"))), L.IterState(6, [L.Paren], None, 4, []));
    }
  }

  lemma ByInParensCall4To6()
    requires L.ValidRaw(ByInParensRaw)
    ensures L.After(ByInParensRaw, L.IterState(8, [L.Paren], Some(L.Other(0)), 7, [L.VLBrace]), 2) == L.IterState(10, [L.Paren, L.Other(8)], None, 9, [])
    ensures L.Outputs(ByInParensRaw, L.IterState(8, [L.Paren], Some(L.Other(0)), 7, [L.VLBrace]), 2) == [Some(L.Ok(L.VLBrace)), Some(L.Ok(L.Token.Identifier("y")))]
  {
    assert L.Outputs(ByInParensRaw, L.IterState(8, [L.Paren], Some(L.Other(0)), 7, []), 1) == [Some(L.Ok(L.Token.Identifier("y")))] + L.Outputs(ByInParensRaw, L.IterState(10, [L.Paren, L.Other(8)], None, 9, []), 0) &&
           L.After(ByInParensRaw, L.IterState(8, [L.Paren], Some(L.Other(0)), 7, []), 1) == L.After(ByInParensRaw, L.IterState(10, [L.Paren, L.Other(8)], None, 9, []), 0) by {
      ByInParensCall5();
      L.OutputsStep(ByInParensRaw, L.IterState(8, [L.Paren], Some(L.Other(0)), 7, []), 1, Some(L.Ok(L.Token.Identifier("y"))), L.IterState(10, [L.Paren, L.Other(8)], None, 9, []));
    }
    assert L.Outputs(ByInParensRaw, L.IterState(8, [L.Paren], Some(L.Other(0)), 7, [L.VLBrace]), 2) == [Some(L.Ok(L.VLBrace))] + L.Outputs(ByInParensRaw, L.IterState(8, [L.Paren], Some(L.Other(0)), 7, []), 1) &&
           L.After(ByInParensRaw, L.IterState(8, [L.Paren], Some(L.Other(0)), 7, [L.VLBrace]), 2) == L.After(ByInParensRaw, L.IterState(8, [L.Paren], Some(L.Other(0)), 7, []), 1) by {
      ByInParensCall4();
      L.OutputsStep(ByInParensRaw, L.IterState(8, [L.Paren], Some(L.Other(0)), 7, [L.VLBrace]), 2, Some(L.Ok(L.VLBrace)), L.IterState(8, [L.Paren], Some(L.Other(0)), 7, []));
    }
  }

  lemma ByInParensCall6To8()
    requires L.ValidRaw(ByInParensRaw)
    ensures L.After(ByInParensRaw, L.IterState(10, [L.Paren, L.Other(8)], None, 9, []), 2) == L.IterState(13, [L.Paren, L.Other(8), L.Paren], None, 14, [])
    ensures L.Outputs(ByInParensRaw, L.IterState(10, [L.Paren, L.Other(8)], None, 9, []), 2) == [Some(L.Ok(L.Token.LParen)), Some(L.Ok(L.Token.Identifier("foo")))]
  {
    assert L.Outputs(ByInParensRaw, L.IterState(12, [L.Paren, L.Other(8), L.Paren], None, 11, []), 1) == [Some(L.Ok(L.Token.Identifier("foo")))] + L.Outputs(ByInParensRaw, L.IterState(13, [L.Paren, L.Other(8), L.Paren], None, 14, []), 0) &&
           L.After(ByInParensRaw, L.IterState(12, [L.Paren, L.Other(8), L.Paren], None, 11, []), 1) == L.After(ByInParensRaw, L.IterState(13, [L.Paren, L.Other(8), L.Paren], None, 14, []), 0) by {
      ByInParensCall7();
      L.OutputsStep(ByInParensRaw, L.IterState(12, [L.Paren, L.Other(8), L.Paren], None, 11, []), 1, Some(L.Ok(L.Token.Identifier("foo"))), L.IterState(13, [L.Paren, L.Other(8), L.Paren], None, 14, []));
    }
    assert L.Outputs(ByInParensRaw, L.IterState(10, [L.Paren, L.Other(8)], None, 9, []), 2) == [Some(L.Ok(L.Token.LParen))] + L.Outputs(ByInParensRaw, L.IterState(12, [L.Paren, L.Other(8), L.Paren], None, 11, []), 1) &&
           L.After(ByInParensRaw, L.IterState(10, [L.Paren, L.Other(8)], None, 9, []), 2) == L.After(ByInParensRaw, L.IterState(12, [L.Paren, L.Other(8), L.Paren], None, 11, []), 1) by {
      ByInParensCall6();
      L.OutputsStep(ByInParensRaw, L.IterState(10, [L.Paren, L.Other(8)], None, 9, []), 2, Some(L.Ok(L.Token.LParen)), L.IterState(12, [L.Paren, L.Other(8), L.Paren], None, 11, []));
    }
  }

  lemma ByInParensCall8To10()
    requires L.ValidRaw(ByInParensRaw)
    ensures L.After(ByInParensRaw, L.IterState(13, [L.Paren, L.Other(8), L.Paren], None, 14, []), 2) == L.IterState(16, [L.Paren, L.Other(8)], None, 19, [])
    ensures L.Outputs(ByInParensRaw, L.IterState(13, [L.Paren, L.Other(8), L.Paren], None, 14, []), 2) == [Some(L.Ok(L.Token.Identifier("bar"))), Some(L.Ok(L.Token.RParen))]
  {
    assert L.Outputs(ByInParensRaw, L.IterState(15, [L.Paren, L.Other(8), L.Paren], None, 18, []), 1) == [Some(L.Ok(L.Token.RParen))] + L.Outputs(ByInParensRaw, L.IterState(16, [L.Paren, L.Other(8)], None, 19, []), 0) &&
           L.After(ByInParensRaw, L.IterState(15, [L.Paren, L.Other(8), L.Paren], None, 18, []), 1) == L.After(ByInParensRaw, L.IterState(16, [L.Paren, L.Other(8)], None, 19, []), 0) by {
      ByInParensCall9();
      L.OutputsStep(ByInParensRaw, L.IterState(15, [L.Paren, L.Other(8), L.Paren], None, 18, []), 1, Some(L.Ok(L.Token.RParen)), L.IterState(16, [L.Paren, L.Other(8)], None, 19, []));
    }
    assert L.Outputs(ByInParensRaw, L.IterState(13, [L.Paren, L.Other(8), L.Paren], None, 14, []), 2) == [Some(L.Ok(L.Token.Identifier("bar")))] + L.Outputs(ByInParensRaw, L.IterState(15, [L.Paren, L.Other(8), L.Paren], None, 18, []), 1) &&
           L.After(ByInParensRaw, L.IterState(13, [L.Paren, L.Other(8), L.Paren], None, 14, []), 2) == L.After(ByInParensRaw, L.IterState(15, [L.Paren, L.Other(8), L.Paren], None, 18, []), 1) by {
      ByInParensCall8();
      L.OutputsStep(ByInParensRaw, L.IterState(13, [L.Paren, L.Other(8), L.Paren], None, 14, []), 2, Some(L.Ok(L.Token.Identifier("bar"))), L.IterState(15, [L.Paren, L.Other(8), L.Paren], None, 18, []));
    }
  }

  lemma ByInParensCall10To12()
    requires L.ValidRaw(ByInParensRaw)
    ensures L.After(ByInParensRaw, L.IterState(16, [L.Paren, L.Other(8)], None, 19, []), 2) == L.IterState(17, [], None, 20, [])
    ensures L.Outputs(ByInParensRaw, L.IterState(16, [L.Paren, L.Other(8)], None, 19, []), 2) == [Some(L.Ok(L.VRBrace)), Some(L.Ok(L.Token.RParen))]
  {
    assert L.Outputs(ByInParensRaw, L.IterState(17, [], None, 20, [L.Token.RParen]), 1) == [Some(L.Ok(L.Token.RParen))] + L.Outputs(ByInParensRaw, L.IterState(17, [], None, 20, []), 0) &&
           L.After(ByInParensRaw, L.IterState(17, [], None, 20, [L.Token.RParen]), 1) == L.After(ByInParensRaw, L.IterState(17, [], None, 20, []), 0) by {
      ByInParensCall11();
      L.OutputsStep(ByInParensRaw, L.IterState(17, [], None, 20, [L.Token.RParen]), 1, Some(L.Ok(L.Token.RParen)), L.IterState(17, [], None, 20, []));
    }
    assert L.Outputs(ByInParensRaw, L.IterState(16, [L.Paren, L.Other(8)], None, 19, []), 2) == [Some(L.Ok(L.VRBrace))] + L.Outputs(ByInParensRaw, L.IterState(17, [], None, 20, [L.Token.RParen]), 1) &&
           L.After(ByInParensRaw, L.IterState(16, [L.Paren, L.Other(8)], None, 19, []), 2) == L.After(ByInParensRaw, L.IterState(17, [], None, 20, [L.Token.RParen]), 1) by {
      ByInParensCall10();
      L.OutputsStep(ByInParensRaw, L.IterState(16, [L.Paren, L.Other(8)], None, 19, []), 2, Some(L.Ok(L.VRBrace)), L.IterState(17, [], None, 20, [L.Token.RParen]));
    }
  }

  lemma ByInParensCall12To14()
    requires L.ValidRaw(ByInParensRaw)
    ensures L.After(ByInParensRaw, L.IterState(17, [], None, 20, []), 2) == L.IterState(20, [], None, 0, [])
    ensures L.Outputs(ByInParensRaw, L.IterState(17, [], None, 20, []), 2) == [Some(L.Ok(L.Token.Identifier("b"))), None]
  {
    assert L.Outputs(ByInParensRaw, L.IterState(19, [], None, 22, []), 1) == [None] + L.Outputs(ByInParensRaw, L.IterState(20, [], None, 0, []), 0) &&
           L.After(ByInParensRaw, L.IterState(19, [], None, 22, []), 1) == L.After(ByInParensRaw, L.IterState(20, [], None, 0, []), 0) by {
      ByInParensCall13();
      L.OutputsStep(ByInParensRaw, L.IterState(19, [], None, 22, []), 1, None, L.IterState(20, [], None, 0, []));
    }
    assert L.Outputs(ByInParensRaw, L.IterState(17, [], None, 20, []), 2) == [Some(L.Ok(L.Token.Identifier("b")))] + L.Outputs(ByInParensRaw, L.IterState(19, [], None, 22, []), 1) &&
           L.After(ByInParensRaw, L.IterState(17, [], None, 20, []), 2) == L.After(ByInParensRaw, L.IterState(19, [], None, 22, []), 1) by {
      ByInParensCall12();
      L.OutputsStep(ByInParensRaw, L.IterState(17, [], None, 20, []), 2, Some(L.Ok(L.Token.Identifier("b"))), L.IterState(19, [], None, 22, []));
    }
  }

  /** The raw tokens of "let": a `let` at the end of input. */
  const OpenLetRaw: R.Stream<L.RawToken> := R.Stream(seq(1, i requires 0 <= i => OpenLetTok(i)), None)

  function OpenLetTok(i: nat): R.Spanned<L.RawToken>
  {
    R.Spanned(0, L.RawToken.Let, 3)
  }

  lemma OpenLetRawValid()
    ensures L.ValidRaw(OpenLetRaw)
  {
    OpenLetRawFrom0();
    L.ValidRawOf(OpenLetRaw.toks);
  }

  lemma OpenLetRawFrom0()
    ensures R.InOrderFrom(OpenLetRaw.toks, 0, 0) && L.TextsNonEmpty(OpenLetRaw.toks, 0)
  {
    var t := OpenLetRaw.toks;
    assert R.InOrderFrom(t, 0, 0) && L.TextsNonEmpty(t, 0);
  }

  /** A `let` at the end of input is announced by a `VLBrace`, but its layout is still pending
      when the raw stream ends, so no `VRBrace` ever closes it. */
  lemma OpenLetExpected()
    ensures L.ValidRaw(OpenLetRaw)
    ensures L.Outputs(OpenLetRaw, L.Initial, 3) ==
            [
              Some(L.Ok(L.Token.Let)), Some(L.Ok(L.VLBrace)), None]
  {
    OpenLetRawValid();
    OpenLetRuns();
    OpenLetRegroup();
  }

  lemma OpenLetRegroup()
    ensures [Some(L.Ok(L.Token.Let)), Some(L.Ok(L.VLBrace))]
            + ([None]) ==
            [Some(L.Ok(L.Token.Let)), Some(L.Ok(L.VLBrace)), None]
  {
  }

  /** The run, two calls at a time. */
  lemma OpenLetRuns()
    requires L.ValidRaw(OpenLetRaw)
    ensures L.Outputs(OpenLetRaw, L.Initial, 3) ==
            [Some(L.Ok(L.Token.Let)), Some(L.Ok(L.VLBrace))]
            + ([None])
  {
    OpenLetCall0To2();
    OpenLetCall2To3();
    L.OutputsSplit(OpenLetRaw, L.IterState(1, [], Some(L.Layout.Let(0)), 3, []), 1, 0);
    L.OutputsSplit(OpenLetRaw, L.Initial, 2, 1);
  }

  lemma OpenLetCall0()
    requires L.ValidRaw(OpenLetRaw)
    ensures L.NextSpec(OpenLetRaw, L.Initial) == (Some(L.Ok(L.Token.Let)), L.IterState(1, [], Some(L.Layout.Let(0)), 3, [L.VLBrace]))
  {
    assert L.Consume(OpenLetRaw, L.Initial) == L.Return(Some(L.Ok(L.Token.Let)), L.IterState(1, [], Some(L.Layout.Let(0)), 3, [L.VLBrace]));
  }

  lemma OpenLetCall1()
    requires L.ValidRaw(OpenLetRaw)
    ensures L.NextSpec(OpenLetRaw, L.IterState(1, [], Some(L.Layout.Let(0)), 3, [L.VLBrace])) == (Some(L.Ok(L.VLBrace)), L.IterState(1, [], Some(L.Layout.Let(0)), 3, []))
  {
    assert [L.VLBrace][1..] == [];
  }

  lemma OpenLetCall2()
    requires L.ValidRaw(OpenLetRaw)
    ensures L.NextSpec(OpenLetRaw, L.IterState(1, [], Some(L.Layout.Let(0)), 3, [])) == (None, L.IterState(1, [], Some(L.Layout.Let(0)), 3, []))
  {
    assert L.AtEnd(OpenLetRaw, L.IterState(1, [], Some(L.Layout.Let(0)), 3, [])) == (None, L.IterState(1, [], Some(L.Layout.Let(0)), 3, []));
    assert L.Loop(OpenLetRaw, L.IterState(1, [], Some(L.Layout.Let(0)), 3, [])) == L.AtEnd(OpenLetRaw, L.IterState(1, [], Some(L.Layout.Let(0)), 3, []));
  }

  lemma OpenLetCall0To2()
    requires L.ValidRaw(OpenLetRaw)
    ensures L.After(OpenLetRaw, L.Initial, 2) == L.IterState(1, [], Some(L.Layout.Let(0)), 3, [])
    ensures L.Outputs(OpenLetRaw, L.Initial, 2) == [Some(L.Ok(L.Token.Let)), Some(L.Ok(L.VLBrace))]
  {
    assert L.Outputs(OpenLetRaw, L.IterState(1, [], Some(L.Layout.Let(0)), 3, [L.VLBrace]), 1) == [Some(L.Ok(L.VLBrace))] + L.Outputs(OpenLetRaw, L.IterState(1, [], Some(L.Layout.Let(0)), 3, []), 0) &&
           L.After(OpenLetRaw, L.IterState(1, [], Some(L.Layout.Let(0)), 3, [L.VLBrace]), 1) == L.After(OpenLetRaw, L.IterState(1, [], Some(L.Layout.Let(0)), 3, []), 0) by {
      OpenLetCall1();
      L.OutputsStep(OpenLetRaw, L.IterState(1, [], Some(L.Layout.Let(0)), 3, [L.VLBrace]), 1, Some(L.Ok(L.VLBrace)), L.IterState(1, [], Some(L.Layout.Let(0)), 3, []));
    }
    assert L.Outputs(OpenLetRaw, L.Initial, 2) == [Some(L.Ok(L.Token.Let))] + L.Outputs(OpenLetRaw, L.IterState(1, [], Some(L.Layout.Let(0)), 3, [L.VLBrace]), 1) &&
           L.After(OpenLetRaw, L.Initial, 2) == L.After(OpenLetRaw, L.IterState(1, [], Some(L.Layout.Let(0)), 3, [L.VLBrace]), 1) by {
      OpenLetCall0();
      L.OutputsStep(OpenLetRaw, L.Initial, 2, Some(L.Ok(L.Token.Let)), L.IterState(1, [], Some(L.Layout.Let(0)), 3, [L.VLBrace]));
    }
  }

  lemma OpenLetCall2To3()
    requires L.ValidRaw(OpenLetRaw)
    ensures L.After(OpenLetRaw, L.IterState(1, [], Some(L.Layout.Let(0)), 3, []), 1) == L.IterState(1, [], Some(L.Layout.Let(0)), 3, [])
    ensures L.Outputs(OpenLetRaw, L.IterState(1, [], Some(L.Layout.Let(0)), 3, []), 1) == [None]
  {
    assert L.Outputs(OpenLetRaw, L.IterState(1, [], Some(L.Layout.Let(0)), 3, []), 1) == [None] + L.Outputs(OpenLetRaw, L.IterState(1, [], Some(L.Layout.Let(0)), 3, []), 0) &&
           L.After(OpenLetRaw, L.IterState(1, [], Some(L.Layout.Let(0)), 3, []), 1) == L.After(OpenLetRaw, L.IterState(1, [], Some(L.Layout.Let(0)), 3, []), 0) by {
      OpenLetCall2();
      L.OutputsStep(OpenLetRaw, L.IterState(1, [], Some(L.Layout.Let(0)), 3, []), 1, None, L.IterState(1, [], Some(L.Layout.Let(0)), 3, []));
    }
  }

  /** The raw tokens of "(": a parenthesis left open at the end of input. */
  const OpenParenRaw: R.Stream<L.RawToken> := R.Stream(seq(1, i requires 0 <= i => OpenParenTok(i)), None)

  function OpenParenTok(i: nat): R.Spanned<L.RawToken>
  {
    R.Spanned(0, L.RawToken.LParen, 1)
  }

  lemma OpenParenRawValid()
    ensures L.ValidRaw(OpenParenRaw)
  {
    OpenParenRawFrom0();
    L.ValidRawOf(OpenParenRaw.toks);
  }

  lemma OpenParenRawFrom0()
    ensures R.InOrderFrom(OpenParenRaw.toks, 0, 0) && L.TextsNonEmpty(OpenParenRaw.toks, 0)
  {
    var t := OpenParenRaw.toks;
    assert R.InOrderFrom(t, 0, 0) && L.TextsNonEmpty(t, 0);
  }

  /** A parenthesis left open at the end of input is drained with the other layouts and
      closed by a `VRBrace` that no `VLBrace` opened. */
  lemma OpenParenExpected()
    ensures L.ValidRaw(OpenParenRaw)
    ensures L.Outputs(OpenParenRaw, L.Initial, 3) ==
            [
              Some(L.Ok(L.Token.LParen)), Some(L.Ok(L.VRBrace)), None]
  {
    OpenParenRawValid();
    OpenParenRuns();
    OpenParenRegroup();
  }

  lemma OpenParenRegroup()
    ensures [Some(L.Ok(L.Token.LParen)), Some(L.Ok(L.VRBrace))]
            + ([None]) ==
            [Some(L.Ok(L.Token.LParen)), Some(L.Ok(L.VRBrace)), None]
  {
  }

  /** The run, two calls at a time. */
  lemma OpenParenRuns()
    requires L.ValidRaw(OpenParenRaw)
    ensures L.Outputs(OpenParenRaw, L.Initial, 3) ==
            [Some(L.Ok(L.Token.LParen)), Some(L.Ok(L.VRBrace))]
            + ([None])
  {
    OpenParenCall0To2();
    OpenParenCall2To3();
    L.OutputsSplit(OpenParenRaw, L.IterState(1, [], None, 1, []), 1, 0);
    L.OutputsSplit(OpenParenRaw, L.Initial, 2, 1);
  }

  lemma OpenParenCall0()
    requires L.ValidRaw(OpenParenRaw)
    ensures L.NextSpec(OpenParenRaw, L.Initial) == (Some(L.Ok(L.Token.LParen)), L.IterState(1, [L.Paren], None, 1, []))
  {
    assert L.Consume(OpenParenRaw, L.Initial) == L.Return(Some(L.Ok(L.Token.LParen)), L.IterState(1, [L.Paren], None, 1, []));
  }

  lemma OpenParenCall1()
    requires L.ValidRaw(OpenParenRaw)
    ensures L.NextSpec(OpenParenRaw, L.IterState(1, [L.Paren], None, 1, [])) == (Some(L.Ok(L.VRBrace)), L.IterState(1, [], None, 1, []))
  {
    assert [] + Repeat(L.VRBrace, 0) == [];
    assert L.AtEnd(OpenParenRaw, L.IterState(1, [L.Paren], None, 1, [])) == (Some(L.Ok(L.VRBrace)), L.IterState(1, [], None, 1, []));
    assert L.Loop(OpenParenRaw, L.IterState(1, [L.Paren], None, 1, [])) == L.AtEnd(OpenParenRaw, L.IterState(1, [L.Paren], None, 1, []));
  }

  lemma OpenParenCall2()
    requires L.ValidRaw(OpenParenRaw)
    ensures L.NextSpec(OpenParenRaw, L.IterState(1, [], None, 1, [])) == (None, L.IterState(1, [], None, 1, []))
  {
    assert L.AtEnd(OpenParenRaw, L.IterState(1, [], None, 1, [])) == (None, L.IterState(1, [], None, 1, []));
    assert L.Loop(OpenParenRaw, L.IterState(1, [], None, 1, [])) == L.AtEnd(OpenParenRaw, L.IterState(1, [], None, 1, []));
  }

  lemma OpenParenCall0To2()
    requires L.ValidRaw(OpenParenRaw)
    ensures L.After(OpenParenRaw, L.Initial, 2) == L.IterState(1, [], None, 1, [])
    ensures L.Outputs(OpenParenRaw, L.Initial, 2) == [Some(L.Ok(L.Token.LParen)), Some(L.Ok(L.VRBrace))]
  {
    assert L.Outputs(OpenParenRaw, L.IterState(1, [L.Paren], None, 1, []), 1) == [Some(L.Ok(L.VRBrace))] + L.Outputs(OpenParenRaw, L.IterState(1, [], None, 1, []), 0) &&
           L.After(OpenParenRaw, L.IterState(1, [L.Paren], None, 1, []), 1) == L.After(OpenParenRaw, L.IterState(1, [], None, 1, []), 0) by {
      OpenParenCall1();
      L.OutputsStep(OpenParenRaw, L.IterState(1, [L.Paren], None, 1, []), 1, Some(L.Ok(L.VRBrace)), L.IterState(1, [], None, 1, []));
    }
    assert L.Outputs(OpenParenRaw, L.Initial, 2) == [Some(L.Ok(L.Token.LParen))] + L.Outputs(OpenParenRaw, L.IterState(1, [L.Paren], None, 1, []), 1) &&
           L.After(OpenParenRaw, L.Initial, 2) == L.After(OpenParenRaw, L.IterState(1, [L.Paren], None, 1, []), 1) by {
      OpenParenCall0();
      L.OutputsStep(OpenParenRaw, L.Initial, 2, Some(L.Ok(L.Token.LParen)), L.IterState(1, [L.Paren], None, 1, []));
    }
  }

  lemma OpenParenCall2To3()
    requires L.ValidRaw(OpenParenRaw)
    ensures L.After(OpenParenRaw, L.IterState(1, [], None, 1, []), 1) == L.IterState(1, [], None, 1, [])
    ensures L.Outputs(OpenParenRaw, L.IterState(1, [], None, 1, []), 1) == [None]
  {
    assert L.Outputs(OpenParenRaw, L.IterState(1, [], None, 1, []), 1) == [None] + L.Outputs(OpenParenRaw, L.IterState(1, [], None, 1, []), 0) &&
           L.After(OpenParenRaw, L.IterState(1, [], None, 1, []), 1) == L.After(OpenParenRaw, L.IterState(1, [], None, 1, []), 0) by {
      OpenParenCall2();
      L.OutputsStep(OpenParenRaw, L.IterState(1, [], None, 1, []), 1, None, L.IterState(1, [], None, 1, []));
    }
  }
}
