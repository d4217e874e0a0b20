module FloatingExample {
  /* A worked example of the masker: decimal and negative decimal bounds of
     `BETWEEN` are masked whole. `FloatingQuery` is the statement as written,
     cut into pieces of whitespace and one token each, and `FloatingCleaned`
     is the expected text cut into the rendered output tokens;
     `FloatingTokens` and `FloatingMasked` are the tokens before and after
     masking. The proof follows the pieces: each piece lexes to its token,
     each masking step is computed on a short window of tokens that ends with
     an ordinary word, and each output token renders as its expected piece. */
  import opened Passes
  import opened SqlText
  import opened SqlLexer
  import opened SqlMasker
  import opened SqlMaskSplit
  import opened SqlPieces

  /** The statement of test_clean_floating_numbers. */
  const FloatingQuery1: seq<string> := ["\n        SELECT", " *", " FROM", " a"]
  const FloatingQuery2: seq<string> := ["\n        WHERE", " (", "a.lat", " BETWEEN", " 12.4567", " AND", " 38.0678", ")", " AND"]
  const FloatingQuery3: seq<string> := ["\n        (", "a.lng", " BETWEEN", " -", "70.487", " AND", " -", "87.790", ")"]
  const FloatingQuery4: seq<string> := ["\n      "]
  const FloatingQuery: seq<string> :=
    FloatingQuery1 + FloatingQuery2 + FloatingQuery3 + FloatingQuery4

  const FloatingCleaned1: seq<string> := ["SELECT", " *", " FROM", " a", " WHERE", " (", "a.lat", " BETWEEN"]
  const FloatingCleaned2: seq<string> := [" ???", " AND", " ???", ")", " AND", " (", "a.lng", " BETWEEN"]
  const FloatingCleaned3: seq<string> := [" ???", " AND", " ???", ")"]
  const FloatingCleaned: seq<string> :=
    FloatingCleaned1 + FloatingCleaned2 + FloatingCleaned3

  ghost const FloatingTokens1: seq<Token> := [Token(false, Word("SELECT")), Token(true, Sym("*")), Token(true, Word("FROM")), Token(true, Word("a")), Token(true, Word("WHERE")), Token(true, Sym("("))]
  ghost const FloatingTokens2: seq<Token> := [Token(false, Word("a.lat")), Token(true, Word("BETWEEN")), Token(true, Num("12.4567")), Token(true, Word("AND")), Token(true, Num("38.0678")), Token(false, Sym(")"))]
  ghost const FloatingTokens3: seq<Token> := [Token(true, Word("AND")), Token(true, Sym("(")), Token(false, Word("a.lng")), Token(true, Word("BETWEEN")), Token(true, Sym("-")), Token(false, Num("70.487"))]
  ghost const FloatingTokens4: seq<Token> := [Token(true, Word("AND")), Token(true, Sym("-")), Token(false, Num("87.790")), Token(false, Sym(")"))]
  ghost const FloatingTokens: seq<Token> :=
    FloatingTokens1 + FloatingTokens2 + FloatingTokens3 + FloatingTokens4

  ghost const FloatingMasked1: seq<Token> := [Token(false, Word("SELECT")), Token(true, Sym("*")), Token(true, Word("FROM")), Token(true, Word("a")), Token(true, Word("WHERE")), Token(true, Sym("("))]
  ghost const FloatingMasked2: seq<Token> := [Token(false, Word("a.lat")), Token(true, Word("BETWEEN")), Token(true, Masked), Token(true, Word("AND")), Token(true, Masked), Token(false, Sym(")"))]
  ghost const FloatingMasked3: seq<Token> := [Token(true, Word("AND")), Token(true, Sym("(")), Token(false, Word("a.lng")), Token(true, Word("BETWEEN")), Token(true, Masked), Token(true, Word("AND"))]
  ghost const FloatingMasked4: seq<Token> := [Token(true, Masked), Token(false, Sym(")"))]
  ghost const FloatingMasked: seq<Token> :=
    FloatingMasked1 + FloatingMasked2 + FloatingMasked3 + FloatingMasked4

  lemma FloatingPiece0()
    ensures PieceOf("\n        SELECT", "\n        ", Token(false, Word("SELECT")))
  {
  }

  lemma FloatingPiece1()
    ensures PieceOf(" *", " ", Token(true, Sym("*")))
    ensures Adjacent(Token(false, Word("SELECT")), Token(true, Sym("*")))
  {
  }

  lemma FloatingPiece2()
    ensures PieceOf(" FROM", " ", Token(true, Word("FROM")))
    ensures Adjacent(Token(true, Sym("*")), Token(true, Word("FROM")))
  {
  }

  lemma FloatingPiece3()
    ensures PieceOf(" a", " ", Token(true, Word("a")))
    ensures Adjacent(Token(true, Word("FROM")), Token(true, Word("a")))
  {
  }

  lemma FloatingPiece4()
    ensures PieceOf("\n        WHERE", "\n        ", Token(true, Word("WHERE")))
    ensures Adjacent(Token(true, Word("a")), Token(true, Word("WHERE")))
  {
  }

  lemma FloatingPiece5()
    ensures PieceOf(" (", " ", Token(true, Sym("(")))
    ensures Adjacent(Token(true, Word("WHERE")), Token(true, Sym("(")))
  {
  }

  lemma FloatingPieces1(qs: seq<string>, ts: seq<Token>)
    requires Agrees(qs, FloatingQuery) && Agrees(ts, FloatingTokens)
    ensures |qs| == 23 && |ts| == 22
    ensures qs[0] == "\n        SELECT"
    ensures qs[1] == " *"
    ensures qs[2] == " FROM"
    ensures qs[3] == " a"
    ensures qs[4] == "\n        WHERE"
    ensures qs[5] == " ("
    ensures ts[0] == Token(false, Word("SELECT"))
    ensures ts[1] == Token(true, Sym("*"))
    ensures ts[2] == Token(true, Word("FROM"))
    ensures ts[3] == Token(true, Word("a"))
    ensures ts[4] == Token(true, Word("WHERE"))
    ensures ts[5] == Token(true, Sym("("))
  {
    assert qs[0] == FloatingQuery[0];
    assert qs[1] == FloatingQuery[1];
    assert qs[2] == FloatingQuery[2];
    assert qs[3] == FloatingQuery[3];
    assert qs[4] == FloatingQuery[4];
    assert qs[5] == FloatingQuery[5];
    assert ts[0] == FloatingTokens[0];
    assert ts[1] == FloatingTokens[1];
    assert ts[2] == FloatingTokens[2];
    assert ts[3] == FloatingTokens[3];
    assert ts[4] == FloatingTokens[4];
    assert ts[5] == FloatingTokens[5];
  }

  lemma FloatingLexed1(qs: seq<string>, ts: seq<Token>)
    requires Agrees(qs, FloatingQuery) && Agrees(ts, FloatingTokens)
    ensures Built(qs, ts, 6)
  {
    FloatingPieces1(qs, ts);
    FloatingPiece0();
    FloatingPiece1();
    FloatingPiece2();
    FloatingPiece3();
    FloatingPiece4();
    FloatingPiece5();
    PieceFirst(qs, ts, "\n        ", "\n        SELECT", Token(false, Word("SELECT")));
    PieceNext(qs, ts, 1, " ", " *", Token(false, Word("SELECT")), Token(true, Sym("*")));
    PieceNext(qs, ts, 2, " ", " FROM", Token(true, Sym("*")), Token(true, Word("FROM")));
    PieceNext(qs, ts, 3, " ", " a", Token(true, Word("FROM")), Token(true, Word("a")));
    PieceNext(qs, ts, 4, "\n        ", "\n        WHERE", Token(true, Word("a")), Token(true, Word("WHERE")));
    PieceNext(qs, ts, 5, " ", " (", Token(true, Word("WHERE")), Token(true, Sym("(")));
  }

  lemma FloatingPiece6()
    ensures PieceOf("a.lat", "", Token(false, Word("a.lat")))
    ensures Adjacent(Token(true, Sym("(")), Token(false, Word("a.lat")))
  {
  }

  lemma FloatingPiece7()
    ensures PieceOf(" BETWEEN", " ", Token(true, Word("BETWEEN")))
    ensures Adjacent(Token(false, Word("a.lat")), Token(true, Word("BETWEEN")))
  {
  }

  lemma FloatingPiece8()
    ensures PieceOf(" 12.4567", " ", Token(true, Num("12.4567")))
    ensures Adjacent(Token(true, Word("BETWEEN")), Token(true, Num("12.4567")))
  {
  }

  lemma FloatingPiece9()
    ensures PieceOf(" AND", " ", Token(true, Word("AND")))
    ensures Adjacent(Token(true, Num("12.4567")), Token(true, Word("AND")))
  {
  }

  lemma FloatingPiece10()
    ensures PieceOf(" 38.0678", " ", Token(true, Num("38.0678")))
    ensures Adjacent(Token(true, Word("AND")), Token(true, Num("38.0678")))
  {
  }

  lemma FloatingPiece11()
    ensures PieceOf(")", "", Token(false, Sym(")")))
    ensures Adjacent(Token(true, Num("38.0678")), Token(false, Sym(")")))
  {
  }

  lemma FloatingPieces2(qs: seq<string>, ts: seq<Token>)
    requires Agrees(qs, FloatingQuery) && Agrees(ts, FloatingTokens)
    ensures |qs| == 23 && |ts| == 22
    ensures qs[6] == "a.lat"
    ensures qs[7] == " BETWEEN"
    ensures qs[8] == " 12.4567"
    ensures qs[9] == " AND"
    ensures qs[10] == " 38.0678"
    ensures qs[11] == ")"
    ensures ts[5] == Token(true, Sym("("))
    ensures ts[6] == Token(false, Word("a.lat"))
    ensures ts[7] == Token(true, Word("BETWEEN"))
    ensures ts[8] == Token(true, Num("12.4567"))
    ensures ts[9] == Token(true, Word("AND"))
    ensures ts[10] == Token(true, Num("38.0678"))
    ensures ts[11] == Token(false, Sym(")"))
  {
    assert qs[6] == FloatingQuery[6];
    assert qs[7] == FloatingQuery[7];
    assert qs[8] == FloatingQuery[8];
    assert qs[9] == FloatingQuery[9];
    assert qs[10] == FloatingQuery[10];
    assert qs[11] == FloatingQuery[11];
    assert ts[5] == FloatingTokens[5];
    assert ts[6] == FloatingTokens[6];
    assert ts[7] == FloatingTokens[7];
    assert ts[8] == FloatingTokens[8];
    assert ts[9] == FloatingTokens[9];
    assert ts[10] == FloatingTokens[10];
    assert ts[11] == FloatingTokens[11];
  }

  lemma FloatingLexed2(qs: seq<string>, ts: seq<Token>)
    requires Agrees(qs, FloatingQuery) && Agrees(ts, FloatingTokens)
    requires Built(qs, ts, 6)
    ensures Built(qs, ts, 12)
  {
    FloatingPieces2(qs, ts);
    FloatingPiece5();
    FloatingPiece6();
    FloatingPiece7();
    FloatingPiece8();
    FloatingPiece9();
    FloatingPiece10();
    FloatingPiece11();
    PieceNext(qs, ts, 6, "", "a.lat", Token(true, Sym("(")), Token(false, Word("a.lat")));
    PieceNext(qs, ts, 7, " ", " BETWEEN", Token(false, Word("a.lat")), Token(true, Word("BETWEEN")));
    PieceNext(qs, ts, 8, " ", " 12.4567", Token(true, Word("BETWEEN")), Token(true, Num("12.4567")));
    PieceNext(qs, ts, 9, " ", " AND", Token(true, Num("12.4567")), Token(true, Word("AND")));
    PieceNext(qs, ts, 10, " ", " 38.0678", Token(true, Word("AND")), Token(true, Num("38.0678")));
    PieceNext(qs, ts, 11, "", ")", Token(true, Num("38.0678")), Token(false, Sym(")")));
  }

  lemma FloatingPiece12()
    ensures PieceOf(" AND", " ", Token(true, Word("AND")))
    ensures Adjacent(Token(false, Sym(")")), Token(true, Word("AND")))
  {
  }

  lemma FloatingPiece13()
    ensures PieceOf("\n        (", "\n        ", Token(true, Sym("(")))
    ensures Adjacent(Token(true, Word("AND")), Token(true, Sym("(")))
  {
  }

  lemma FloatingPiece14()
    ensures PieceOf("a.lng", "", Token(false, Word("a.lng")))
    ensures Adjacent(Token(true, Sym("(")), Token(false, Word("a.lng")))
  {
  }

  lemma FloatingPiece15()
    ensures PieceOf(" BETWEEN", " ", Token(true, Word("BETWEEN")))
    ensures Adjacent(Token(false, Word("a.lng")), Token(true, Word("BETWEEN")))
  {
  }

  lemma FloatingPiece16()
    ensures PieceOf(" -", " ", Token(true, Sym("-")))
    ensures Adjacent(Token(true, Word("BETWEEN")), Token(true, Sym("-")))
  {
  }

  lemma FloatingPiece17()
    ensures PieceOf("70.487", "", Token(false, Num("70.487")))
    ensures Adjacent(Token(true, Sym("-")), Token(false, Num("70.487")))
  {
  }

  lemma FloatingPieces3(qs: seq<string>, ts: seq<Token>)
    requires Agrees(qs, FloatingQuery) && Agrees(ts, FloatingTokens)
    ensures |qs| == 23 && |ts| == 22
    ensures qs[12] == " AND"
    ensures qs[13] == "\n        ("
    ensures qs[14] == "a.lng"
    ensures qs[15] == " BETWEEN"
    ensures qs[16] == " -"
    ensures qs[17] == "70.487"
    ensures ts[11] == Token(false, Sym(")"))
    ensures ts[12] == Token(true, Word("AND"))
    ensures ts[13] == Token(true, Sym("("))
    ensures ts[14] == Token(false, Word("a.lng"))
    ensures ts[15] == Token(true, Word("BETWEEN"))
    ensures ts[16] == Token(true, Sym("-"))
    ensures ts[17] == Token(false, Num("70.487"))
  {
    assert qs[12] == FloatingQuery[12];
    assert qs[13] == FloatingQuery[13];
    assert qs[14] == FloatingQuery[14];
    assert qs[15] == FloatingQuery[15];
    assert qs[16] == FloatingQuery[16];
    assert qs[17] == FloatingQuery[17];
    assert ts[11] == FloatingTokens[11];
    assert ts[12] == FloatingTokens[12];
    assert ts[13] == FloatingTokens[13];
    assert ts[14] == FloatingTokens[14];
    assert ts[15] == FloatingTokens[15];
    assert ts[16] == FloatingTokens[16];
    assert ts[17] == FloatingTokens[17];
  }

  lemma FloatingLexed3(qs: seq<string>, ts: seq<Token>)
    requires Agrees(qs, FloatingQuery) && Agrees(ts, FloatingTokens)
    requires Built(qs, ts, 12)
    ensures Built(qs, ts, 18)
  {
    FloatingPieces3(qs, ts);
    FloatingPiece11();
    FloatingPiece12();
    FloatingPiece13();
    FloatingPiece14();
    FloatingPiece15();
    FloatingPiece16();
    FloatingPiece17();
    PieceNext(qs, ts, 12, " ", " AND", Token(false, Sym(")")), Token(true, Word("AND")));
    PieceNext(qs, ts, 13, "\n        ", "\n        (", Token(true, Word("AND")), Token(true, Sym("(")));
    PieceNext(qs, ts, 14, "", "a.lng", Token(true, Sym("(")), Token(false, Word("a.lng")));
    PieceNext(qs, ts, 15, " ", " BETWEEN", Token(false, Word("a.lng")), Token(true, Word("BETWEEN")));
    PieceNext(qs, ts, 16, " ", " -", Token(true, Word("BETWEEN")), Token(true, Sym("-")));
    PieceNext(qs, ts, 17, "", "70.487", Token(true, Sym("-")), Token(false, Num("70.487")));
  }

  lemma FloatingPiece18()
    ensures PieceOf(" AND", " ", Token(true, Word("AND")))
    ensures Adjacent(Token(false, Num("70.487")), Token(true, Word("AND")))
  {
  }

  lemma FloatingPiece19()
    ensures PieceOf(" -", " ", Token(true, Sym("-")))
    ensures Adjacent(Token(true, Word("AND")), Token(true, Sym("-")))
  {
  }

  lemma FloatingPiece20()
    ensures PieceOf("87.790", "", Token(false, Num("87.790")))
    ensures Adjacent(Token(true, Sym("-")), Token(false, Num("87.790")))
  {
  }

  lemma FloatingPiece21()
    ensures PieceOf(")", "", Token(false, Sym(")")))
    ensures Adjacent(Token(false, Num("87.790")), Token(false, Sym(")")))
  {
  }

  lemma FloatingPieces4(qs: seq<string>, ts: seq<Token>)
    requires Agrees(qs, FloatingQuery) && Agrees(ts, FloatingTokens)
    ensures |qs| == 23 && |ts| == 22
    ensures qs[18] == " AND"
    ensures qs[19] == " -"
    ensures qs[20] == "87.790"
    ensures qs[21] == ")"
    ensures qs[22] == "\n      " && AllSpace(qs[22])
    ensures ts[17] == Token(false, Num("70.487"))
    ensures ts[18] == Token(true, Word("AND"))
    ensures ts[19] == Token(true, Sym("-"))
    ensures ts[20] == Token(false, Num("87.790"))
    ensures ts[21] == Token(false, Sym(")"))
  {
    assert qs[18] == FloatingQuery[18];
    assert qs[19] == FloatingQuery[19];
    assert qs[20] == FloatingQuery[20];
    assert qs[21] == FloatingQuery[21];
    assert qs[22] == FloatingQuery[22];
    assert ts[17] == FloatingTokens[17];
    assert ts[18] == FloatingTokens[18];
    assert ts[19] == FloatingTokens[19];
    assert ts[20] == FloatingTokens[20];
    assert ts[21] == FloatingTokens[21];
  }

  lemma FloatingLexed4(qs: seq<string>, ts: seq<Token>)
    requires Agrees(qs, FloatingQuery) && Agrees(ts, FloatingTokens)
    requires Built(qs, ts, 18)
    ensures Built(qs, ts, 22)
    ensures qs[22] == "\n      " && AllSpace(qs[22])
  {
    FloatingPieces4(qs, ts);
    FloatingPiece17();
    FloatingPiece18();
    FloatingPiece19();
    FloatingPiece20();
    FloatingPiece21();
    PieceNext(qs, ts, 18, " ", " AND", Token(false, Num("70.487")), Token(true, Word("AND")));
    PieceNext(qs, ts, 19, " ", " -", Token(true, Word("AND")), Token(true, Sym("-")));
    PieceNext(qs, ts, 20, "", "87.790", Token(true, Sym("-")), Token(false, Num("87.790")));
    PieceNext(qs, ts, 21, "", ")", Token(false, Num("87.790")), Token(false, Sym(")")));
  }

  lemma FloatingLexing(qs: seq<string>, ts: seq<Token>)
    requires Agrees(qs, FloatingQuery) && Agrees(ts, FloatingTokens)
    ensures Squish(Join(qs)) == Render(ts) && Lex(Render(ts)) == ts
  {
    FloatingLexed1(qs, ts);
    FloatingLexed2(qs, ts);
    FloatingLexed3(qs, ts);
    FloatingLexed4(qs, ts);
    PiecesEnd(qs, ts);
  }

  lemma FloatingRewrite13()
    ensures Rewrite([Token(true, Sym("(")), Token(false, Word("a.lng"))], false) == Edit([Token(true, Sym("("))], 1)
    ensures Mode([Token(true, Sym("(")), Token(false, Word("a.lng"))][..1], false) == false && PlainEnd([Token(true, Sym("(")), Token(false, Word("a.lng"))])
  {
    var z := [Token(true, Sym("(")), Token(false, Word("a.lng"))];
    ModeFirst(z, false);
  }

  lemma FloatingRewrite14()
    ensures Rewrite([Token(false, Word("a.lng"))], false) == Edit([Token(false, Word("a.lng"))], 1)
    ensures Mode([Token(false, Word("a.lng"))][..1], false) == false && PlainEnd([Token(false, Word("a.lng"))])
  {
    var z := [Token(false, Word("a.lng"))];
    ModeFirst(z, false);
  }

  lemma FloatingBetween15()
    ensures IsKeyword(Token(true, Word("BETWEEN")), "BETWEEN") && OperandLen([Token(true, Word("BETWEEN")), Token(true, Sym("-")), Token(false, Num("70.487")), Token(true, Word("AND")), Token(true, Sym("-")), Token(false, Num("87.790")), Token(false, Sym(")"))][1..]) == 2
  {
  }

  lemma FloatingAnd15()
    ensures IsKeyword(Token(true, Word("AND")), "AND") && OperandLen([Token(true, Word("BETWEEN")), Token(true, Sym("-")), Token(false, Num("70.487")), Token(true, Word("AND")), Token(true, Sym("-")), Token(false, Num("87.790")), Token(false, Sym(")"))][4..]) == 2
  {
  }

  lemma FloatingRewrite15()
    ensures Rewrite([Token(true, Word("BETWEEN")), Token(true, Sym("-")), Token(false, Num("70.487")), Token(true, Word("AND")), Token(true, Sym("-")), Token(false, Num("87.790")), Token(false, Sym(")"))], false) == Edit([Token(true, Word("BETWEEN")), Token(true, Masked), Token(true, Word("AND")), Token(true, Masked)], 6)
  {
    var z := [Token(true, Word("BETWEEN")), Token(true, Sym("-")), Token(false, Num("70.487")), Token(true, Word("AND")), Token(true, Sym("-")), Token(false, Num("87.790")), Token(false, Sym(")"))];
    FloatingBetween15();
    FloatingAnd15();
    BetweenAt(z, false, 2, 2);
  }

  lemma FloatingMode15()
    ensures Mode([Token(true, Word("BETWEEN")), Token(true, Sym("-")), Token(false, Num("70.487")), Token(true, Word("AND")), Token(true, Sym("-")), Token(false, Num("87.790")), Token(false, Sym(")"))][..6], false) == false
  {
    var z := [Token(true, Word("BETWEEN")), Token(true, Sym("-")), Token(false, Num("70.487")), Token(true, Word("AND")), Token(true, Sym("-")), Token(false, Num("87.790")), Token(false, Sym(")"))];
    QuietMode(z[..6], false);
  }

  lemma FloatingRewrite21()
    ensures Rewrite([Token(false, Sym(")"))], false) == Edit([Token(false, Sym(")"))], 1)
    ensures Mode([Token(false, Sym(")"))][..1], false) == false
  {
    var z := [Token(false, Sym(")"))];
    ModeFirst(z, false);
  }

  lemma FloatingWindow13(ts: seq<Token>, out: seq<Token>)
    requires Agrees(ts, FloatingTokens) && Agrees(out, FloatingMasked)
    ensures |ts| == 22 && |out| == 20
    ensures ts[13..15] == [Token(true, Sym("(")), Token(false, Word("a.lng"))]
    ensures out[13..14] == [Token(true, Sym("("))]
  {
    assert ts[13] == FloatingTokens[13] == Token(true, Sym("("));
    assert ts[14] == FloatingTokens[14] == Token(false, Word("a.lng"));
    assert out[13] == FloatingMasked[13] == Token(true, Sym("("));
  }

  lemma FloatingWindow14(ts: seq<Token>, out: seq<Token>)
    requires Agrees(ts, FloatingTokens) && Agrees(out, FloatingMasked)
    ensures |ts| == 22 && |out| == 20
    ensures ts[14..15] == [Token(false, Word("a.lng"))]
    ensures out[14..15] == [Token(false, Word("a.lng"))]
  {
    assert ts[14] == FloatingTokens[14] == Token(false, Word("a.lng"));
    assert out[14] == FloatingMasked[14] == Token(false, Word("a.lng"));
  }

  lemma FloatingWindow15(ts: seq<Token>, out: seq<Token>)
    requires Agrees(ts, FloatingTokens) && Agrees(out, FloatingMasked)
    ensures |ts| == 22 && |out| == 20
    ensures ts[15..22] == [Token(true, Word("BETWEEN")), Token(true, Sym("-")), Token(false, Num("70.487")), Token(true, Word("AND")), Token(true, Sym("-")), Token(false, Num("87.790")), Token(false, Sym(")"))]
    ensures out[15..19] == [Token(true, Word("BETWEEN")), Token(true, Masked), Token(true, Word("AND")), Token(true, Masked)]
  {
    assert ts[15] == FloatingTokens[15] == Token(true, Word("BETWEEN"));
    assert ts[16] == FloatingTokens[16] == Token(true, Sym("-"));
    assert ts[17] == FloatingTokens[17] == Token(false, Num("70.487"));
    assert ts[18] == FloatingTokens[18] == Token(true, Word("AND"));
    assert ts[19] == FloatingTokens[19] == Token(true, Sym("-"));
    assert ts[20] == FloatingTokens[20] == Token(false, Num("87.790"));
    assert ts[21] == FloatingTokens[21] == Token(false, Sym(")"));
    assert out[15] == FloatingMasked[15] == Token(true, Word("BETWEEN"));
    assert out[16] == FloatingMasked[16] == Token(true, Masked);
    assert out[17] == FloatingMasked[17] == Token(true, Word("AND"));
    assert out[18] == FloatingMasked[18] == Token(true, Masked);
  }

  lemma FloatingWindow21(ts: seq<Token>, out: seq<Token>)
    requires Agrees(ts, FloatingTokens) && Agrees(out, FloatingMasked)
    ensures |ts| == 22 && |out| == 20
    ensures ts[21..22] == [Token(false, Sym(")"))]
    ensures out[19..20] == [Token(false, Sym(")"))]
  {
    assert ts[21] == FloatingTokens[21] == Token(false, Sym(")"));
    assert out[19] == FloatingMasked[19] == Token(false, Sym(")"));
  }

  lemma FloatingStep13(ts: seq<Token>, out: seq<Token>)
    requires Agrees(ts, FloatingTokens) && Agrees(out, FloatingMasked)
    requires MaskedFrom(ts, out, 14, 14, false)
    ensures MaskedFrom(ts, out, 13, 13, false)
  {
    FloatingRewrite13();
    FloatingWindow13(ts, out);
    MaskAt(ts, out, 13, 13, false,
      [Token(true, Sym("(")), Token(false, Word("a.lng"))],
      Step([Token(true, Sym("("))], 1, false));
  }

  lemma FloatingStep14(ts: seq<Token>, out: seq<Token>)
    requires Agrees(ts, FloatingTokens) && Agrees(out, FloatingMasked)
    requires MaskedFrom(ts, out, 15, 15, false)
    ensures MaskedFrom(ts, out, 14, 14, false)
  {
    FloatingRewrite14();
    FloatingWindow14(ts, out);
    MaskAt(ts, out, 14, 14, false,
      [Token(false, Word("a.lng"))],
      Step([Token(false, Word("a.lng"))], 1, false));
  }

  lemma FloatingStep15(ts: seq<Token>, out: seq<Token>)
    requires Agrees(ts, FloatingTokens) && Agrees(out, FloatingMasked)
    requires MaskedFrom(ts, out, 21, 19, false)
    ensures MaskedFrom(ts, out, 15, 15, false)
  {
    FloatingRewrite15();
    FloatingMode15();
    FloatingWindow15(ts, out);
    MaskAt(ts, out, 15, 15, false,
      [Token(true, Word("BETWEEN")), Token(true, Sym("-")), Token(false, Num("70.487")), Token(true, Word("AND")), Token(true, Sym("-")), Token(false, Num("87.790")), Token(false, Sym(")"))],
      Step([Token(true, Word("BETWEEN")), Token(true, Masked), Token(true, Word("AND")), Token(true, Masked)], 6, false));
  }

  lemma FloatingStep21(ts: seq<Token>, out: seq<Token>)
    requires Agrees(ts, FloatingTokens) && Agrees(out, FloatingMasked)
    ensures MaskedFrom(ts, out, 21, 19, false)
  {
    FloatingRewrite21();
    FloatingWindow21(ts, out);
    MaskedEnd(ts, out, false);
    MaskAt(ts, out, 21, 19, false,
      [Token(false, Sym(")"))],
      Step([Token(false, Sym(")"))], 1, false));
  }

  lemma FloatingRewrite5()
    ensures Rewrite([Token(true, Sym("(")), Token(false, Word("a.lat"))], false) == Edit([Token(true, Sym("("))], 1)
    ensures Mode([Token(true, Sym("(")), Token(false, Word("a.lat"))][..1], false) == false && PlainEnd([Token(true, Sym("(")), Token(false, Word("a.lat"))])
  {
    var z := [Token(true, Sym("(")), Token(false, Word("a.lat"))];
    ModeFirst(z, false);
  }

  lemma FloatingRewrite6()
    ensures Rewrite([Token(false, Word("a.lat"))], false) == Edit([Token(false, Word("a.lat"))], 1)
    ensures Mode([Token(false, Word("a.lat"))][..1], false) == false && PlainEnd([Token(false, Word("a.lat"))])
  {
    var z := [Token(false, Word("a.lat"))];
    ModeFirst(z, false);
  }

  lemma FloatingBetween7()
    ensures IsKeyword(Token(true, Word("BETWEEN")), "BETWEEN") && OperandLen([Token(true, Word("BETWEEN")), Token(true, Num("12.4567")), Token(true, Word("AND")), Token(true, Num("38.0678")), Token(false, Sym(")")), Token(true, Word("AND")), Token(true, Sym("(")), Token(false, Word("a.lng"))][1..]) == 1
  {
  }

  lemma FloatingAnd7()
    ensures IsKeyword(Token(true, Word("AND")), "AND") && OperandLen([Token(true, Word("BETWEEN")), Token(true, Num("12.4567")), Token(true, Word("AND")), Token(true, Num("38.0678")), Token(false, Sym(")")), Token(true, Word("AND")), Token(true, Sym("(")), Token(false, Word("a.lng"))][3..]) == 1
  {
  }

  lemma FloatingRewrite7()
    ensures Rewrite([Token(true, Word("BETWEEN")), Token(true, Num("12.4567")), Token(true, Word("AND")), Token(true, Num("38.0678")), Token(false, Sym(")")), Token(true, Word("AND")), Token(true, Sym("(")), Token(false, Word("a.lng"))], false) == Edit([Token(true, Word("BETWEEN")), Token(true, Masked), Token(true, Word("AND")), Token(true, Masked)], 4)
  {
    var z := [Token(true, Word("BETWEEN")), Token(true, Num("12.4567")), Token(true, Word("AND")), Token(true, Num("38.0678")), Token(false, Sym(")")), Token(true, Word("AND")), Token(true, Sym("(")), Token(false, Word("a.lng"))];
    FloatingBetween7();
    FloatingAnd7();
    BetweenAt(z, false, 1, 1);
  }

  lemma FloatingMode7()
    ensures Mode([Token(true, Word("BETWEEN")), Token(true, Num("12.4567")), Token(true, Word("AND")), Token(true, Num("38.0678")), Token(false, Sym(")")), Token(true, Word("AND")), Token(true, Sym("(")), Token(false, Word("a.lng"))][..4], false) == false && PlainEnd([Token(true, Word("BETWEEN")), Token(true, Num("12.4567")), Token(true, Word("AND")), Token(true, Num("38.0678")), Token(false, Sym(")")), Token(true, Word("AND")), Token(true, Sym("(")), Token(false, Word("a.lng"))])
  {
    var z := [Token(true, Word("BETWEEN")), Token(true, Num("12.4567")), Token(true, Word("AND")), Token(true, Num("38.0678")), Token(false, Sym(")")), Token(true, Word("AND")), Token(true, Sym("(")), Token(false, Word("a.lng"))];
    QuietMode(z[..4], false);
  }

  lemma FloatingRewrite11()
    ensures Rewrite([Token(false, Sym(")")), Token(true, Word("AND")), Token(true, Sym("(")), Token(false, Word("a.lng"))], false) == Edit([Token(false, Sym(")"))], 1)
    ensures Mode([Token(false, Sym(")")), Token(true, Word("AND")), Token(true, Sym("(")), Token(false, Word("a.lng"))][..1], false) == false && PlainEnd([Token(false, Sym(")")), Token(true, Word("AND")), Token(true, Sym("(")), Token(false, Word("a.lng"))])
  {
    var z := [Token(false, Sym(")")), Token(true, Word("AND")), Token(true, Sym("(")), Token(false, Word("a.lng"))];
    ModeFirst(z, false);
  }

  lemma FloatingRewrite12()
    ensures Rewrite([Token(true, Word("AND")), Token(true, Sym("(")), Token(false, Word("a.lng"))], false) == Edit([Token(true, Word("AND"))], 1)
    ensures Mode([Token(true, Word("AND")), Token(true, Sym("(")), Token(false, Word("a.lng"))][..1], false) == false && PlainEnd([Token(true, Word("AND")), Token(true, Sym("(")), Token(false, Word("a.lng"))])
  {
    var z := [Token(true, Word("AND")), Token(true, Sym("(")), Token(false, Word("a.lng"))];
    ModeFirst(z, false);
  }

  lemma FloatingWindow5(ts: seq<Token>, out: seq<Token>)
    requires Agrees(ts, FloatingTokens) && Agrees(out, FloatingMasked)
    ensures |ts| == 22 && |out| == 20
    ensures ts[5..7] == [Token(true, Sym("(")), Token(false, Word("a.lat"))]
    ensures out[5..6] == [Token(true, Sym("("))]
  {
    assert ts[5] == FloatingTokens[5] == Token(true, Sym("("));
    assert ts[6] == FloatingTokens[6] == Token(false, Word("a.lat"));
    assert out[5] == FloatingMasked[5] == Token(true, Sym("("));
  }

  lemma FloatingWindow6(ts: seq<Token>, out: seq<Token>)
    requires Agrees(ts, FloatingTokens) && Agrees(out, FloatingMasked)
    ensures |ts| == 22 && |out| == 20
    ensures ts[6..7] == [Token(false, Word("a.lat"))]
    ensures out[6..7] == [Token(false, Word("a.lat"))]
  {
    assert ts[6] == FloatingTokens[6] == Token(false, Word("a.lat"));
    assert out[6] == FloatingMasked[6] == Token(false, Word("a.lat"));
  }

  lemma FloatingWindow7(ts: seq<Token>, out: seq<Token>)
    requires Agrees(ts, FloatingTokens) && Agrees(out, FloatingMasked)
    ensures |ts| == 22 && |out| == 20
    ensures ts[7..15] == [Token(true, Word("BETWEEN")), Token(true, Num("12.4567")), Token(true, Word("AND")), Token(true, Num("38.0678")), Token(false, Sym(")")), Token(true, Word("AND")), Token(true, Sym("(")), Token(false, Word("a.lng"))]
    ensures out[7..11] == [Token(true, Word("BETWEEN")), Token(true, Masked), Token(true, Word("AND")), Token(true, Masked)]
  {
    assert ts[7] == FloatingTokens[7] == Token(true, Word("BETWEEN"));
    assert ts[8] == FloatingTokens[8] == Token(true, Num("12.4567"));
    assert ts[9] == FloatingTokens[9] == Token(true, Word("AND"));
    assert ts[10] == FloatingTokens[10] == Token(true, Num("38.0678"));
    assert ts[11] == FloatingTokens[11] == Token(false, Sym(")"));
    assert ts[12] == FloatingTokens[12] == Token(true, Word("AND"));
    assert ts[13] == FloatingTokens[13] == Token(true, Sym("("));
    assert ts[14] == FloatingTokens[14] == Token(false, Word("a.lng"));
    assert out[7] == FloatingMasked[7] == Token(true, Word("BETWEEN"));
    assert out[8] == FloatingMasked[8] == Token(true, Masked);
    assert out[9] == FloatingMasked[9] == Token(true, Word("AND"));
    assert out[10] == FloatingMasked[10] == Token(true, Masked);
  }

  lemma FloatingWindow11(ts: seq<Token>, out: seq<Token>)
    requires Agrees(ts, FloatingTokens) && Agrees(out, FloatingMasked)
    ensures |ts| == 22 && |out| == 20
    ensures ts[11..15] == [Token(false, Sym(")")), Token(true, Word("AND")), Token(true, Sym("(")), Token(false, Word("a.lng"))]
    ensures out[11..12] == [Token(false, Sym(")"))]
  {
    assert ts[11] == FloatingTokens[11] == Token(false, Sym(")"));
    assert ts[12] == FloatingTokens[12] == Token(true, Word("AND"));
    assert ts[13] == FloatingTokens[13] == Token(true, Sym("("));
    assert ts[14] == FloatingTokens[14] == Token(false, Word("a.lng"));
    assert out[11] == FloatingMasked[11] == Token(false, Sym(")"));
  }

  lemma FloatingWindow12(ts: seq<Token>, out: seq<Token>)
    requires Agrees(ts, FloatingTokens) && Agrees(out, FloatingMasked)
    ensures |ts| == 22 && |out| == 20
    ensures ts[12..15] == [Token(true, Word("AND")), Token(true, Sym("(")), Token(false, Word("a.lng"))]
    ensures out[12..13] == [Token(true, Word("AND"))]
  {
    assert ts[12] == FloatingTokens[12] == Token(true, Word("AND"));
    assert ts[13] == FloatingTokens[13] == Token(true, Sym("("));
    assert ts[14] == FloatingTokens[14] == Token(false, Word("a.lng"));
    assert out[12] == FloatingMasked[12] == Token(true, Word("AND"));
  }

  lemma FloatingStep5(ts: seq<Token>, out: seq<Token>)
    requires Agrees(ts, FloatingTokens) && Agrees(out, FloatingMasked)
    requires MaskedFrom(ts, out, 6, 6, false)
    ensures MaskedFrom(ts, out, 5, 5, false)
  {
    FloatingRewrite5();
    FloatingWindow5(ts, out);
    MaskAt(ts, out, 5, 5, false,
      [Token(true, Sym("(")), Token(false, Word("a.lat"))],
      Step([Token(true, Sym("("))], 1, false));
  }

  lemma FloatingStep6(ts: seq<Token>, out: seq<Token>)
    requires Agrees(ts, FloatingTokens) && Agrees(out, FloatingMasked)
    requires MaskedFrom(ts, out, 7, 7, false)
    ensures MaskedFrom(ts, out, 6, 6, false)
  {
    FloatingRewrite6();
    FloatingWindow6(ts, out);
    MaskAt(ts, out, 6, 6, false,
      [Token(false, Word("a.lat"))],
      Step([Token(false, Word("a.lat"))], 1, false));
  }

  lemma FloatingStep7(ts: seq<Token>, out: seq<Token>)
    requires Agrees(ts, FloatingTokens) && Agrees(out, FloatingMasked)
    requires MaskedFrom(ts, out, 11, 11, false)
    ensures MaskedFrom(ts, out, 7, 7, false)
  {
    FloatingRewrite7();
    FloatingMode7();
    FloatingWindow7(ts, out);
    MaskAt(ts, out, 7, 7, false,
      [Token(true, Word("BETWEEN")), Token(true, Num("12.4567")), Token(true, Word("AND")), Token(true, Num("38.0678")), Token(false, Sym(")")), Token(true, Word("AND")), Token(true, Sym("(")), Token(false, Word("a.lng"))],
      Step([Token(true, Word("BETWEEN")), Token(true, Masked), Token(true, Word("AND")), Token(true, Masked)], 4, false));
  }

  lemma FloatingStep11(ts: seq<Token>, out: seq<Token>)
    requires Agrees(ts, FloatingTokens) && Agrees(out, FloatingMasked)
    requires MaskedFrom(ts, out, 12, 12, false)
    ensures MaskedFrom(ts, out, 11, 11, false)
  {
    FloatingRewrite11();
    FloatingWindow11(ts, out);
    MaskAt(ts, out, 11, 11, false,
      [Token(false, Sym(")")), Token(true, Word("AND")), Token(true, Sym("(")), Token(false, Word("a.lng"))],
      Step([Token(false, Sym(")"))], 1, false));
  }

  lemma FloatingStep12(ts: seq<Token>, out: seq<Token>)
    requires Agrees(ts, FloatingTokens) && Agrees(out, FloatingMasked)
    requires MaskedFrom(ts, out, 13, 13, false)
    ensures MaskedFrom(ts, out, 12, 12, false)
  {
    FloatingRewrite12();
    FloatingWindow12(ts, out);
    MaskAt(ts, out, 12, 12, false,
      [Token(true, Word("AND")), Token(true, Sym("(")), Token(false, Word("a.lng"))],
      Step([Token(true, Word("AND"))], 1, false));
  }

  lemma FloatingRewrite0()
    ensures Rewrite([Token(false, Word("SELECT"))], false) == Edit([Token(false, Word("SELECT"))], 1)
    ensures Mode([Token(false, Word("SELECT"))][..1], false) == false && PlainEnd([Token(false, Word("SELECT"))])
  {
    var z := [Token(false, Word("SELECT"))];
    ModeFirst(z, false);
  }

  lemma FloatingRewrite1()
    ensures Rewrite([Token(true, Sym("*")), Token(true, Word("FROM"))], false) == Edit([Token(true, Sym("*"))], 1)
    ensures Mode([Token(true, Sym("*")), Token(true, Word("FROM"))][..1], false) == false && PlainEnd([Token(true, Sym("*")), Token(true, Word("FROM"))])
  {
    var z := [Token(true, Sym("*")), Token(true, Word("FROM"))];
    ModeFirst(z, false);
  }

  lemma FloatingRewrite2()
    ensures Rewrite([Token(true, Word("FROM"))], false) == Edit([Token(true, Word("FROM"))], 1)
    ensures Mode([Token(true, Word("FROM"))][..1], false) == false && PlainEnd([Token(true, Word("FROM"))])
  {
    var z := [Token(true, Word("FROM"))];
    ModeFirst(z, false);
  }

  lemma FloatingRewrite3()
    ensures Rewrite([Token(true, Word("a"))], false) == Edit([Token(true, Word("a"))], 1)
    ensures Mode([Token(true, Word("a"))][..1], false) == false && PlainEnd([Token(true, Word("a"))])
  {
    var z := [Token(true, Word("a"))];
    ModeFirst(z, false);
  }

  lemma FloatingRewrite4()
    ensures Rewrite([Token(true, Word("WHERE"))], false) == Edit([Token(true, Word("WHERE"))], 1)
    ensures Mode([Token(true, Word("WHERE"))][..1], false) == false && PlainEnd([Token(true, Word("WHERE"))])
  {
    var z := [Token(true, Word("WHERE"))];
    ModeFirst(z, false);
  }

  lemma FloatingWindow0(ts: seq<Token>, out: seq<Token>)
    requires Agrees(ts, FloatingTokens) && Agrees(out, FloatingMasked)
    ensures |ts| == 22 && |out| == 20
    ensures ts[0..1] == [Token(false, Word("SELECT"))]
    ensures out[0..1] == [Token(false, Word("SELECT"))]
  {
    assert ts[0] == FloatingTokens[0] == Token(false, Word("SELECT"));
    assert out[0] == FloatingMasked[0] == Token(false, Word("SELECT"));
  }

  lemma FloatingWindow1(ts: seq<Token>, out: seq<Token>)
    requires Agrees(ts, FloatingTokens) && Agrees(out, FloatingMasked)
    ensures |ts| == 22 && |out| == 20
    ensures ts[1..3] == [Token(true, Sym("*")), Token(true, Word("FROM"))]
    ensures out[1..2] == [Token(true, Sym("*"))]
  {
    assert ts[1] == FloatingTokens[1] == Token(true, Sym("*"));
    assert ts[2] == FloatingTokens[2] == Token(true, Word("FROM"));
    assert out[1] == FloatingMasked[1] == Token(true, Sym("*"));
  }

  lemma FloatingWindow2(ts: seq<Token>, out: seq<Token>)
    requires Agrees(ts, FloatingTokens) && Agrees(out, FloatingMasked)
    ensures |ts| == 22 && |out| == 20
    ensures ts[2..3] == [Token(true, Word("FROM"))]
    ensures out[2..3] == [Token(true, Word("FROM"))]
  {
    assert ts[2] == FloatingTokens[2] == Token(true, Word("FROM"));
    assert out[2] == FloatingMasked[2] == Token(true, Word("FROM"));
  }

  lemma FloatingWindow3(ts: seq<Token>, out: seq<Token>)
    requires Agrees(ts, FloatingTokens) && Agrees(out, FloatingMasked)
    ensures |ts| == 22 && |out| == 20
    ensures ts[3..4] == [Token(true, Word("a"))]
    ensures out[3..4] == [Token(true, Word("a"))]
  {
    assert ts[3] == FloatingTokens[3] == Token(true, Word("a"));
    assert out[3] == FloatingMasked[3] == Token(true, Word("a"));
  }

  lemma FloatingWindow4(ts: seq<Token>, out: seq<Token>)
    requires Agrees(ts, FloatingTokens) && Agrees(out, FloatingMasked)
    ensures |ts| == 22 && |out| == 20
    ensures ts[4..5] == [Token(true, Word("WHERE"))]
    ensures out[4..5] == [Token(true, Word("WHERE"))]
  {
    assert ts[4] == FloatingTokens[4] == Token(true, Word("WHERE"));
    assert out[4] == FloatingMasked[4] == Token(true, Word("WHERE"));
  }

  lemma FloatingStep0(ts: seq<Token>, out: seq<Token>)
    requires Agrees(ts, FloatingTokens) && Agrees(out, FloatingMasked)
    requires MaskedFrom(ts, out, 1, 1, false)
    ensures MaskedFrom(ts, out, 0, 0, false)
  {
    FloatingRewrite0();
    FloatingWindow0(ts, out);
    MaskAt(ts, out, 0, 0, false,
      [Token(false, Word("SELECT"))],
      Step([Token(false, Word("SELECT"))], 1, false));
  }

  lemma FloatingStep1(ts: seq<Token>, out: seq<Token>)
    requires Agrees(ts, FloatingTokens) && Agrees(out, FloatingMasked)
    requires MaskedFrom(ts, out, 2, 2, false)
    ensures MaskedFrom(ts, out, 1, 1, false)
  {
    FloatingRewrite1();
    FloatingWindow1(ts, out);
    MaskAt(ts, out, 1, 1, false,
      [Token(true, Sym("*")), Token(true, Word("FROM"))],
      Step([Token(true, Sym("*"))], 1, false));
  }

  lemma FloatingStep2(ts: seq<Token>, out: seq<Token>)
    requires Agrees(ts, FloatingTokens) && Agrees(out, FloatingMasked)
    requires MaskedFrom(ts, out, 3, 3, false)
    ensures MaskedFrom(ts, out, 2, 2, false)
  {
    FloatingRewrite2();
    FloatingWindow2(ts, out);
    MaskAt(ts, out, 2, 2, false,
      [Token(true, Word("FROM"))],
      Step([Token(true, Word("FROM"))], 1, false));
  }

  lemma FloatingStep3(ts: seq<Token>, out: seq<Token>)
    requires Agrees(ts, FloatingTokens) && Agrees(out, FloatingMasked)
    requires MaskedFrom(ts, out, 4, 4, false)
    ensures MaskedFrom(ts, out, 3, 3, false)
  {
    FloatingRewrite3();
    FloatingWindow3(ts, out);
    MaskAt(ts, out, 3, 3, false,
      [Token(true, Word("a"))],
      Step([Token(true, Word("a"))], 1, false));
  }

  lemma FloatingStep4(ts: seq<Token>, out: seq<Token>)
    requires Agrees(ts, FloatingTokens) && Agrees(out, FloatingMasked)
    requires MaskedFrom(ts, out, 5, 5, false)
    ensures MaskedFrom(ts, out, 4, 4, false)
  {
    FloatingRewrite4();
    FloatingWindow4(ts, out);
    MaskAt(ts, out, 4, 4, false,
      [Token(true, Word("WHERE"))],
      Step([Token(true, Word("WHERE"))], 1, false));
  }

  lemma FloatingMasking(ts: seq<Token>, out: seq<Token>)
    requires Agrees(ts, FloatingTokens) && Agrees(out, FloatingMasked)
    ensures MaskedFrom(ts, out, 0, 0, false)
  {
    FloatingStep21(ts, out);
    FloatingStep15(ts, out);
    FloatingStep14(ts, out);
    FloatingStep13(ts, out);
    FloatingStep12(ts, out);
    FloatingStep11(ts, out);
    FloatingStep7(ts, out);
    FloatingStep6(ts, out);
    FloatingStep5(ts, out);
    FloatingStep4(ts, out);
    FloatingStep3(ts, out);
    FloatingStep2(ts, out);
    FloatingStep1(ts, out);
    FloatingStep0(ts, out);
  }

  lemma FloatingOutput1(out: seq<Token>, es: seq<string>)
    requires Agrees(out, FloatingMasked) && Agrees(es, FloatingCleaned)
    ensures |out| == 20 && |es| == 20
    ensures es[0] == RenderToken(out[0])
    ensures es[1] == RenderToken(out[1])
    ensures es[2] == RenderToken(out[2])
    ensures es[3] == RenderToken(out[3])
  {
    assert out[0] == FloatingMasked[0] == Token(false, Word("SELECT"));
    assert es[0] == FloatingCleaned[0] == "SELECT";
    assert out[1] == FloatingMasked[1] == Token(true, Sym("*"));
    assert es[1] == FloatingCleaned[1] == " *";
    assert out[2] == FloatingMasked[2] == Token(true, Word("FROM"));
    assert es[2] == FloatingCleaned[2] == " FROM";
    assert out[3] == FloatingMasked[3] == Token(true, Word("a"));
    assert es[3] == FloatingCleaned[3] == " a";
  }

  lemma FloatingRendered1(out: seq<Token>, es: seq<string>)
    requires Agrees(out, FloatingMasked) && Agrees(es, FloatingCleaned)
    ensures Rendered(out, es, 4)
  {
    FloatingOutput1(out, es);
    RenderedStart(out, es);
    RenderedNext(out, es, 0);
    RenderedNext(out, es, 1);
    RenderedNext(out, es, 2);
    RenderedNext(out, es, 3);
  }

  lemma FloatingOutput2(out: seq<Token>, es: seq<string>)
    requires Agrees(out, FloatingMasked) && Agrees(es, FloatingCleaned)
    ensures |out| == 20 && |es| == 20
    ensures es[4] == RenderToken(out[4])
    ensures es[5] == RenderToken(out[5])
    ensures es[6] == RenderToken(out[6])
    ensures es[7] == RenderToken(out[7])
  {
    assert out[4] == FloatingMasked[4] == Token(true, Word("WHERE"));
    assert es[4] == FloatingCleaned[4] == " WHERE";
    assert out[5] == FloatingMasked[5] == Token(true, Sym("("));
    assert es[5] == FloatingCleaned[5] == " (";
    assert out[6] == FloatingMasked[6] == Token(false, Word("a.lat"));
    assert es[6] == FloatingCleaned[6] == "a.lat";
    assert out[7] == FloatingMasked[7] == Token(true, Word("BETWEEN"));
    assert es[7] == FloatingCleaned[7] == " BETWEEN";
  }

  lemma FloatingRendered2(out: seq<Token>, es: seq<string>)
    requires Agrees(out, FloatingMasked) && Agrees(es, FloatingCleaned)
    requires Rendered(out, es, 4)
    ensures Rendered(out, es, 8)
  {
    FloatingOutput2(out, es);
    RenderedNext(out, es, 4);
    RenderedNext(out, es, 5);
    RenderedNext(out, es, 6);
    RenderedNext(out, es, 7);
  }

  lemma FloatingOutput3(out: seq<Token>, es: seq<string>)
    requires Agrees(out, FloatingMasked) && Agrees(es, FloatingCleaned)
    ensures |out| == 20 && |es| == 20
    ensures es[8] == RenderToken(out[8])
    ensures es[9] == RenderToken(out[9])
    ensures es[10] == RenderToken(out[10])
    ensures es[11] == RenderToken(out[11])
  {
    assert out[8] == FloatingMasked[8] == Token(true, Masked);
    assert es[8] == FloatingCleaned[8] == " ???";
    assert out[9] == FloatingMasked[9] == Token(true, Word("AND"));
    assert es[9] == FloatingCleaned[9] == " AND";
    assert out[10] == FloatingMasked[10] == Token(true, Masked);
    assert es[10] == FloatingCleaned[10] == " ???";
    assert out[11] == FloatingMasked[11] == Token(false, Sym(")"));
    assert es[11] == FloatingCleaned[11] == ")";
  }

  lemma FloatingRendered3(out: seq<Token>, es: seq<string>)
    requires Agrees(out, FloatingMasked) && Agrees(es, FloatingCleaned)
    requires Rendered(out, es, 8)
    ensures Rendered(out, es, 12)
  {
    FloatingOutput3(out, es);
    RenderedNext(out, es, 8);
    RenderedNext(out, es, 9);
    RenderedNext(out, es, 10);
    RenderedNext(out, es, 11);
  }

  lemma FloatingOutput4(out: seq<Token>, es: seq<string>)
    requires Agrees(out, FloatingMasked) && Agrees(es, FloatingCleaned)
    ensures |out| == 20 && |es| == 20
    ensures es[12] == RenderToken(out[12])
    ensures es[13] == RenderToken(out[13])
    ensures es[14] == RenderToken(out[14])
    ensures es[15] == RenderToken(out[15])
  {
    assert out[12] == FloatingMasked[12] == Token(true, Word("AND"));
    assert es[12] == FloatingCleaned[12] == " AND";
    assert out[13] == FloatingMasked[13] == Token(true, Sym("("));
    assert es[13] == FloatingCleaned[13] == " (";
    assert out[14] == FloatingMasked[14] == Token(false, Word("a.lng"));
    assert es[14] == FloatingCleaned[14] == "a.lng";
    assert out[15] == FloatingMasked[15] == Token(true, Word("BETWEEN"));
    assert es[15] == FloatingCleaned[15] == " BETWEEN";
  }

  lemma FloatingRendered4(out: seq<Token>, es: seq<string>)
    requires Agrees(out, FloatingMasked) && Agrees(es, FloatingCleaned)
    requires Rendered(out, es, 12)
    ensures Rendered(out, es, 16)
  {
    FloatingOutput4(out, es);
    RenderedNext(out, es, 12);
    RenderedNext(out, es, 13);
    RenderedNext(out, es, 14);
    RenderedNext(out, es, 15);
  }

  lemma FloatingOutput5(out: seq<Token>, es: seq<string>)
    requires Agrees(out, FloatingMasked) && Agrees(es, FloatingCleaned)
    ensures |out| == 20 && |es| == 20
    ensures es[16] == RenderToken(out[16])
    ensures es[17] == RenderToken(out[17])
    ensures es[18] == RenderToken(out[18])
    ensures es[19] == RenderToken(out[19])
  {
    assert out[16] == FloatingMasked[16] == Token(true, Masked);
    assert es[16] == FloatingCleaned[16] == " ???";
    assert out[17] == FloatingMasked[17] == Token(true, Word("AND"));
    assert es[17] == FloatingCleaned[17] == " AND";
    assert out[18] == FloatingMasked[18] == Token(true, Masked);
    assert es[18] == FloatingCleaned[18] == " ???";
    assert out[19] == FloatingMasked[19] == Token(false, Sym(")"));
    assert es[19] == FloatingCleaned[19] == ")";
  }

  lemma FloatingRendered5(out: seq<Token>, es: seq<string>)
    requires Agrees(out, FloatingMasked) && Agrees(es, FloatingCleaned)
    requires Rendered(out, es, 16)
    ensures Rendered(out, es, 20)
  {
    FloatingOutput5(out, es);
    RenderedNext(out, es, 16);
    RenderedNext(out, es, 17);
    RenderedNext(out, es, 18);
    RenderedNext(out, es, 19);
  }

  lemma FloatingRendering(out: seq<Token>, es: seq<string>)
    requires Agrees(out, FloatingMasked) && Agrees(es, FloatingCleaned)
    ensures Rendered(out, es, |out|) && |es| == |out|
  {
    FloatingRendered1(out, es);
    FloatingRendered2(out, es);
    FloatingRendered3(out, es);
    FloatingRendered4(out, es);
    FloatingRendered5(out, es);
  }

  lemma FloatingByPieces(qs: seq<string>, ts: seq<Token>, out: seq<Token>, es: seq<string>)
    requires Agrees(qs, FloatingQuery) && Agrees(ts, FloatingTokens)
    requires Agrees(out, FloatingMasked) && Agrees(es, FloatingCleaned)
    ensures CleanSqlQuery(Join(qs)) == Join(es)
  {
    FloatingLexing(qs, ts);
    FloatingMasking(ts, out);
    FloatingRendering(out, es);
    CleanByPieces(qs, ts, out, es);
  }

  lemma CleanFloatingNumbers()
    ensures CleanSqlQuery(Join(FloatingQuery)) == Join(FloatingCleaned)
  {
    FloatingByPieces(FloatingQuery, FloatingTokens, FloatingMasked, FloatingCleaned);
  }
}
