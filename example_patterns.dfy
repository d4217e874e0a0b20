module PatternsExample {
  /* A worked example of the masker: the operands of `LIKE` and `SIMILAR TO`
     are masked. `PatternsQuery` is the statement as written, cut into pieces
     of whitespace and one token each, and `PatternsCleaned` is the expected
     text cut into the rendered output tokens; `PatternsTokens` and
     `PatternsMasked` are the tokens before and after masking. The proof
     follows the pieces: each piece lexes to its token, each masking step is
     computed on a short window of tokens that ends with an ordinary word,
     and each output token renders as its expected piece. */
  import opened Passes
  import opened SqlText
  import opened SqlLexer
  import opened SqlMasker
  import opened SqlMaskSplit
  import opened SqlPieces

  /** The statement of test_clean_pattern_matching. */
  const PatternsQuery1: seq<string> := ["\n        SELECT", " users.", "*", " FROM", " users"]
  const PatternsQuery2: seq<string> := ["\n        WHERE", " users.name", " LIKE", " '%test%'", " AND", " NOT", " SIMILAR", " TO", " '%test ppp'"]
  const PatternsQuery3: seq<string> := ["\n      "]
  const PatternsQuery: seq<string> :=
    PatternsQuery1 + PatternsQuery2 + PatternsQuery3

  const PatternsCleaned1: seq<string> := ["SELECT", " users.", "*", " FROM", " users", " WHERE", " users.name", " LIKE"]
  const PatternsCleaned2: seq<string> := [" ???", " AND", " NOT", " SIMILAR", " TO", " ???"]
  const PatternsCleaned: seq<string> :=
    PatternsCleaned1 + PatternsCleaned2

  ghost const PatternsTokens1: seq<Token> := [Token(false, Word("SELECT")), Token(true, Word("users.")), Token(false, Sym("*")), Token(true, Word("FROM")), Token(true, Word("users")), Token(true, Word("WHERE"))]
  ghost const PatternsTokens2: seq<Token> := [Token(true, Word("users.name")), Token(true, Word("LIKE")), Token(true, Quoted("%test%")), Token(true, Word("AND")), Token(true, Word("NOT")), Token(true, Word("SIMILAR"))]
  ghost const PatternsTokens3: seq<Token> := [Token(true, Word("TO")), Token(true, Quoted("%test ppp"))]
  ghost const PatternsTokens: seq<Token> :=
    PatternsTokens1 + PatternsTokens2 + PatternsTokens3

  ghost const PatternsMasked1: seq<Token> := [Token(false, Word("SELECT")), Token(true, Word("users.")), Token(false, Sym("*")), Token(true, Word("FROM")), Token(true, Word("users")), Token(true, Word("WHERE"))]
  ghost const PatternsMasked2: seq<Token> := [Token(true, Word("users.name")), Token(true, Word("LIKE")), Token(true, Masked), Token(true, Word("AND")), Token(true, Word("NOT")), Token(true, Word("SIMILAR"))]
  ghost const PatternsMasked3: seq<Token> := [Token(true, Word("TO")), Token(true, Masked)]
  ghost const PatternsMasked: seq<Token> :=
    PatternsMasked1 + PatternsMasked2 + PatternsMasked3

  lemma PatternsPiece0()
    ensures PieceOf("\n        SELECT", "\n        ", Token(false, Word("SELECT")))
  {
  }

  lemma PatternsPiece1()
    ensures PieceOf(" users.", " ", Token(true, Word("users.")))
    ensures Adjacent(Token(false, Word("SELECT")), Token(true, Word("users.")))
  {
  }

  lemma PatternsPiece2()
    ensures PieceOf("*", "", Token(false, Sym("*")))
    ensures Adjacent(Token(true, Word("users.")), Token(false, Sym("*")))
  {
  }

  lemma PatternsPiece3()
    ensures PieceOf(" FROM", " ", Token(true, Word("FROM")))
    ensures Adjacent(Token(false, Sym("*")), Token(true, Word("FROM")))
  {
  }

  lemma PatternsPiece4()
    ensures PieceOf(" users", " ", Token(true, Word("users")))
    ensures Adjacent(Token(true, Word("FROM")), Token(true, Word("users")))
  {
  }

  lemma PatternsPiece5()
    ensures PieceOf("\n        WHERE", "\n        ", Token(true, Word("WHERE")))
    ensures Adjacent(Token(true, Word("users")), Token(true, Word("WHERE")))
  {
  }

  lemma PatternsPieces1(qs: seq<string>, ts: seq<Token>)
    requires Agrees(qs, PatternsQuery) && Agrees(ts, PatternsTokens)
    ensures |qs| == 15 && |ts| == 14
    ensures qs[0] == "\n        SELECT"
    ensures qs[1] == " users."
    ensures qs[2] == "*"
    ensures qs[3] == " FROM"
    ensures qs[4] == " users"
    ensures qs[5] == "\n        WHERE"
    ensures ts[0] == Token(false, Word("SELECT"))
    ensures ts[1] == Token(true, Word("users."))
    ensures ts[2] == Token(false, Sym("*"))
    ensures ts[3] == Token(true, Word("FROM"))
    ensures ts[4] == Token(true, Word("users"))
    ensures ts[5] == Token(true, Word("WHERE"))
  {
    assert qs[0] == PatternsQuery[0];
    assert qs[1] == PatternsQuery[1];
    assert qs[2] == PatternsQuery[2];
    assert qs[3] == PatternsQuery[3];
    assert qs[4] == PatternsQuery[4];
    assert qs[5] == PatternsQuery[5];
    assert ts[0] == PatternsTokens[0];
    assert ts[1] == PatternsTokens[1];
    assert ts[2] == PatternsTokens[2];
    assert ts[3] == PatternsTokens[3];
    assert ts[4] == PatternsTokens[4];
    assert ts[5] == PatternsTokens[5];
  }

  lemma PatternsLexed1(qs: seq<string>, ts: seq<Token>)
    requires Agrees(qs, PatternsQuery) && Agrees(ts, PatternsTokens)
    ensures Built(qs, ts, 6)
  {
    PatternsPieces1(qs, ts);
    PatternsPiece0();
    PatternsPiece1();
    PatternsPiece2();
    PatternsPiece3();
    PatternsPiece4();
    PatternsPiece5();
    PieceFirst(qs, ts, "\n        ", "\n        SELECT", Token(false, Word("SELECT")));
    PieceNext(qs, ts, 1, " ", " users.", Token(false, Word("SELECT")), Token(true, Word("users.")));
    PieceNext(qs, ts, 2, "", "*", Token(true, Word("users.")), Token(false, Sym("*")));
    PieceNext(qs, ts, 3, " ", " FROM", Token(false, Sym("*")), Token(true, Word("FROM")));
    PieceNext(qs, ts, 4, " ", " users", Token(true, Word("FROM")), Token(true, Word("users")));
    PieceNext(qs, ts, 5, "\n        ", "\n        WHERE", Token(true, Word("users")), Token(true, Word("WHERE")));
  }

  lemma PatternsPiece6()
    ensures PieceOf(" users.name", " ", Token(true, Word("users.name")))
    ensures Adjacent(Token(true, Word("WHERE")), Token(true, Word("users.name")))
  {
  }

  lemma PatternsPiece7()
    ensures PieceOf(" LIKE", " ", Token(true, Word("LIKE")))
    ensures Adjacent(Token(true, Word("users.name")), Token(true, Word("LIKE")))
  {
  }

  lemma PatternsPiece8()
    ensures PieceOf(" '%test%'", " ", Token(true, Quoted("%test%")))
    ensures Adjacent(Token(true, Word("LIKE")), Token(true, Quoted("%test%")))
  {
    QuotedShaped("%test%");
  }

  lemma PatternsPiece9()
    ensures PieceOf(" AND", " ", Token(true, Word("AND")))
    ensures Adjacent(Token(true, Quoted("%test%")), Token(true, Word("AND")))
  {
  }

  lemma PatternsPiece10()
    ensures PieceOf(" NOT", " ", Token(true, Word("NOT")))
    ensures Adjacent(Token(true, Word("AND")), Token(true, Word("NOT")))
  {
  }

  lemma PatternsPiece11()
    ensures PieceOf(" SIMILAR", " ", Token(true, Word("SIMILAR")))
    ensures Adjacent(Token(true, Word("NOT")), Token(true, Word("SIMILAR")))
  {
  }

  lemma PatternsPieces2(qs: seq<string>, ts: seq<Token>)
    requires Agrees(qs, PatternsQuery) && Agrees(ts, PatternsTokens)
    ensures |qs| == 15 && |ts| == 14
    ensures qs[6] == " users.name"
    ensures qs[7] == " LIKE"
    ensures qs[8] == " '%test%'"
    ensures qs[9] == " AND"
    ensures qs[10] == " NOT"
    ensures qs[11] == " SIMILAR"
    ensures ts[5] == Token(true, Word("WHERE"))
    ensures ts[6] == Token(true, Word("users.name"))
    ensures ts[7] == Token(true, Word("LIKE"))
    ensures ts[8] == Token(true, Quoted("%test%"))
    ensures ts[9] == Token(true, Word("AND"))
    ensures ts[10] == Token(true, Word("NOT"))
    ensures ts[11] == Token(true, Word("SIMILAR"))
  {
    assert qs[6] == PatternsQuery[6];
    assert qs[7] == PatternsQuery[7];
    assert qs[8] == PatternsQuery[8];
    assert qs[9] == PatternsQuery[9];
    assert qs[10] == PatternsQuery[10];
    assert qs[11] == PatternsQuery[11];
    assert ts[5] == PatternsTokens[5];
    assert ts[6] == PatternsTokens[6];
    assert ts[7] == PatternsTokens[7];
    assert ts[8] == PatternsTokens[8];
    assert ts[9] == PatternsTokens[9];
    assert ts[10] == PatternsTokens[10];
    assert ts[11] == PatternsTokens[11];
  }

  lemma PatternsLexed2(qs: seq<string>, ts: seq<Token>)
    requires Agrees(qs, PatternsQuery) && Agrees(ts, PatternsTokens)
    requires Built(qs, ts, 6)
    ensures Built(qs, ts, 12)
  {
    PatternsPieces2(qs, ts);
    PatternsPiece5();
    PatternsPiece6();
    PatternsPiece7();
    PatternsPiece8();
    PatternsPiece9();
    PatternsPiece10();
    PatternsPiece11();
    PieceNext(qs, ts, 6, " ", " users.name", Token(true, Word("WHERE")), Token(true, Word("users.name")));
    PieceNext(qs, ts, 7, " ", " LIKE", Token(true, Word("users.name")), Token(true, Word("LIKE")));
    PieceNext(qs, ts, 8, " ", " '%test%'", Token(true, Word("LIKE")), Token(true, Quoted("%test%")));
    PieceNext(qs, ts, 9, " ", " AND", Token(true, Quoted("%test%")), Token(true, Word("AND")));
    PieceNext(qs, ts, 10, " ", " NOT", Token(true, Word("AND")), Token(true, Word("NOT")));
    PieceNext(qs, ts, 11, " ", " SIMILAR", Token(true, Word("NOT")), Token(true, Word("SIMILAR")));
  }

  lemma PatternsPiece12()
    ensures PieceOf(" TO", " ", Token(true, Word("TO")))
    ensures Adjacent(Token(true, Word("SIMILAR")), Token(true, Word("TO")))
  {
  }

  lemma PatternsPiece13()
    ensures PieceOf(" '%test ppp'", " ", Token(true, Quoted("%test ppp")))
  {
    QuotedShaped("%test ppp");
  }

  lemma PatternsAdjacent13()
    ensures Adjacent(Token(true, Word("TO")), Token(true, Quoted("%test ppp")))
  {
  }

  lemma PatternsPieces3(qs: seq<string>, ts: seq<Token>)
    requires Agrees(qs, PatternsQuery) && Agrees(ts, PatternsTokens)
    ensures |qs| == 15 && |ts| == 14
    ensures qs[12] == " TO"
    ensures qs[13] == " '%test ppp'"
    ensures qs[14] == "\n      " && AllSpace(qs[14])
    ensures ts[11] == Token(true, Word("SIMILAR"))
    ensures ts[12] == Token(true, Word("TO"))
    ensures ts[13] == Token(true, Quoted("%test ppp"))
  {
    assert qs[12] == PatternsQuery[12];
    assert qs[13] == PatternsQuery[13];
    assert qs[14] == PatternsQuery[14];
    assert ts[11] == PatternsTokens[11];
    assert ts[12] == PatternsTokens[12];
    assert ts[13] == PatternsTokens[13];
  }

  lemma PatternsLexed3(qs: seq<string>, ts: seq<Token>)
    requires Agrees(qs, PatternsQuery) && Agrees(ts, PatternsTokens)
    requires Built(qs, ts, 12)
    ensures Built(qs, ts, 14)
    ensures qs[14] == "\n      " && AllSpace(qs[14])
  {
    PatternsPieces3(qs, ts);
    PatternsPiece11();
    PatternsPiece12();
    PatternsPiece13();
    PatternsAdjacent13();
    PieceNext(qs, ts, 12, " ", " TO", Token(true, Word("SIMILAR")), Token(true, Word("TO")));
    PieceNext(qs, ts, 13, " ", " '%test ppp'", Token(true, Word("TO")), Token(true, Quoted("%test ppp")));
  }

  lemma PatternsLexing(qs: seq<string>, ts: seq<Token>)
    requires Agrees(qs, PatternsQuery) && Agrees(ts, PatternsTokens)
    ensures Squish(Join(qs)) == Render(ts) && Lex(Render(ts)) == ts
  {
    PatternsLexed1(qs, ts);
    PatternsLexed2(qs, ts);
    PatternsLexed3(qs, ts);
    PiecesEnd(qs, ts);
  }

  lemma PatternsRewrite11()
    ensures Rewrite([Token(true, Word("SIMILAR")), Token(true, Word("TO")), Token(true, Quoted("%test ppp"))], false) == Edit([Token(true, Word("SIMILAR")), Token(true, Word("TO")), Token(true, Masked)], 3)
  {
  }

  lemma PatternsMode11()
    ensures Mode([Token(true, Word("SIMILAR")), Token(true, Word("TO")), Token(true, Quoted("%test ppp"))][..3], false) == false
  {
    var z := [Token(true, Word("SIMILAR")), Token(true, Word("TO")), Token(true, Quoted("%test ppp"))];
    QuietMode(z[..3], false);
  }

  lemma PatternsWindow11(ts: seq<Token>, out: seq<Token>)
    requires Agrees(ts, PatternsTokens) && Agrees(out, PatternsMasked)
    ensures |ts| == 14 && |out| == 14
    ensures ts[11..14] == [Token(true, Word("SIMILAR")), Token(true, Word("TO")), Token(true, Quoted("%test ppp"))]
    ensures out[11..14] == [Token(true, Word("SIMILAR")), Token(true, Word("TO")), Token(true, Masked)]
  {
    assert ts[11] == PatternsTokens[11] == Token(true, Word("SIMILAR"));
    assert ts[12] == PatternsTokens[12] == Token(true, Word("TO"));
    assert ts[13] == PatternsTokens[13] == Token(true, Quoted("%test ppp"));
    assert out[11] == PatternsMasked[11] == Token(true, Word("SIMILAR"));
    assert out[12] == PatternsMasked[12] == Token(true, Word("TO"));
    assert out[13] == PatternsMasked[13] == Token(true, Masked);
  }

  lemma PatternsStep11(ts: seq<Token>, out: seq<Token>)
    requires Agrees(ts, PatternsTokens) && Agrees(out, PatternsMasked)
    ensures MaskedFrom(ts, out, 11, 11, false)
  {
    PatternsRewrite11();
    PatternsMode11();
    PatternsWindow11(ts, out);
    MaskedEnd(ts, out, false);
    MaskAt(ts, out, 11, 11, false,
      [Token(true, Word("SIMILAR")), Token(true, Word("TO")), Token(true, Quoted("%test ppp"))],
      Step([Token(true, Word("SIMILAR")), Token(true, Word("TO")), Token(true, Masked)], 3, false));
  }

  lemma PatternsRewrite5()
    ensures Rewrite([Token(true, Word("WHERE"))], false) == Edit([Token(true, Word("WHERE"))], 1)
    ensures Mode([Token(true, Word("WHERE"))][..1], false) == false && PlainEnd([Token(true, Word("WHERE"))])
  {
    var z := [Token(true, Word("WHERE"))];
    ModeFirst(z, false);
  }

  lemma PatternsRewrite6()
    ensures Rewrite([Token(true, Word("users.name"))], false) == Edit([Token(true, Word("users.name"))], 1)
    ensures Mode([Token(true, Word("users.name"))][..1], false) == false && PlainEnd([Token(true, Word("users.name"))])
  {
    var z := [Token(true, Word("users.name"))];
    ModeFirst(z, false);
  }

  lemma PatternsRewrite7()
    ensures Rewrite([Token(true, Word("LIKE")), Token(true, Quoted("%test%")), Token(true, Word("AND")), Token(true, Word("NOT"))], false) == Edit([Token(true, Word("LIKE")), Token(true, Masked)], 2)
    ensures Mode([Token(true, Word("LIKE")), Token(true, Quoted("%test%")), Token(true, Word("AND")), Token(true, Word("NOT"))][..2], false) == false && PlainEnd([Token(true, Word("LIKE")), Token(true, Quoted("%test%")), Token(true, Word("AND")), Token(true, Word("NOT"))])
  {
    var z := [Token(true, Word("LIKE")), Token(true, Quoted("%test%")), Token(true, Word("AND")), Token(true, Word("NOT"))];
    QuietMode(z[..2], false);
  }

  lemma PatternsRewrite9()
    ensures Rewrite([Token(true, Word("AND")), Token(true, Word("NOT"))], false) == Edit([Token(true, Word("AND"))], 1)
    ensures Mode([Token(true, Word("AND")), Token(true, Word("NOT"))][..1], false) == false && PlainEnd([Token(true, Word("AND")), Token(true, Word("NOT"))])
  {
    var z := [Token(true, Word("AND")), Token(true, Word("NOT"))];
    ModeFirst(z, false);
  }

  lemma PatternsRewrite10()
    ensures Rewrite([Token(true, Word("NOT"))], false) == Edit([Token(true, Word("NOT"))], 1)
    ensures Mode([Token(true, Word("NOT"))][..1], false) == false && PlainEnd([Token(true, Word("NOT"))])
  {
    var z := [Token(true, Word("NOT"))];
    ModeFirst(z, false);
  }

  lemma PatternsWindow5(ts: seq<Token>, out: seq<Token>)
    requires Agrees(ts, PatternsTokens) && Agrees(out, PatternsMasked)
    ensures |ts| == 14 && |out| == 14
    ensures ts[5..6] == [Token(true, Word("WHERE"))]
    ensures out[5..6] == [Token(true, Word("WHERE"))]
  {
    assert ts[5] == PatternsTokens[5] == Token(true, Word("WHERE"));
    assert out[5] == PatternsMasked[5] == Token(true, Word("WHERE"));
  }

  lemma PatternsWindow6(ts: seq<Token>, out: seq<Token>)
    requires Agrees(ts, PatternsTokens) && Agrees(out, PatternsMasked)
    ensures |ts| == 14 && |out| == 14
    ensures ts[6..7] == [Token(true, Word("users.name"))]
    ensures out[6..7] == [Token(true, Word("users.name"))]
  {
    assert ts[6] == PatternsTokens[6] == Token(true, Word("users.name"));
    assert out[6] == PatternsMasked[6] == Token(true, Word("users.name"));
  }

  lemma PatternsWindow7(ts: seq<Token>, out: seq<Token>)
    requires Agrees(ts, PatternsTokens) && Agrees(out, PatternsMasked)
    ensures |ts| == 14 && |out| == 14
    ensures ts[7..11] == [Token(true, Word("LIKE")), Token(true, Quoted("%test%")), Token(true, Word("AND")), Token(true, Word("NOT"))]
    ensures out[7..9] == [Token(true, Word("LIKE")), Token(true, Masked)]
  {
    assert ts[7] == PatternsTokens[7] == Token(true, Word("LIKE"));
    assert ts[8] == PatternsTokens[8] == Token(true, Quoted("%test%"));
    assert ts[9] == PatternsTokens[9] == Token(true, Word("AND"));
    assert ts[10] == PatternsTokens[10] == Token(true, Word("NOT"));
    assert out[7] == PatternsMasked[7] == Token(true, Word("LIKE"));
    assert out[8] == PatternsMasked[8] == Token(true, Masked);
  }

  lemma PatternsWindow9(ts: seq<Token>, out: seq<Token>)
    requires Agrees(ts, PatternsTokens) && Agrees(out, PatternsMasked)
    ensures |ts| == 14 && |out| == 14
    ensures ts[9..11] == [Token(true, Word("AND")), Token(true, Word("NOT"))]
    ensures out[9..10] == [Token(true, Word("AND"))]
  {
    assert ts[9] == PatternsTokens[9] == Token(true, Word("AND"));
    assert ts[10] == PatternsTokens[10] == Token(true, Word("NOT"));
    assert out[9] == PatternsMasked[9] == Token(true, Word("AND"));
  }

  lemma PatternsWindow10(ts: seq<Token>, out: seq<Token>)
    requires Agrees(ts, PatternsTokens) && Agrees(out, PatternsMasked)
    ensures |ts| == 14 && |out| == 14
    ensures ts[10..11] == [Token(true, Word("NOT"))]
    ensures out[10..11] == [Token(true, Word("NOT"))]
  {
    assert ts[10] == PatternsTokens[10] == Token(true, Word("NOT"));
    assert out[10] == PatternsMasked[10] == Token(true, Word("NOT"));
  }

  lemma PatternsStep5(ts: seq<Token>, out: seq<Token>)
    requires Agrees(ts, PatternsTokens) && Agrees(out, PatternsMasked)
    requires MaskedFrom(ts, out, 6, 6, false)
    ensures MaskedFrom(ts, out, 5, 5, false)
  {
    PatternsRewrite5();
    PatternsWindow5(ts, out);
    MaskAt(ts, out, 5, 5, false,
      [Token(true, Word("WHERE"))],
      Step([Token(true, Word("WHERE"))], 1, false));
  }

  lemma PatternsStep6(ts: seq<Token>, out: seq<Token>)
    requires Agrees(ts, PatternsTokens) && Agrees(out, PatternsMasked)
    requires MaskedFrom(ts, out, 7, 7, false)
    ensures MaskedFrom(ts, out, 6, 6, false)
  {
    PatternsRewrite6();
    PatternsWindow6(ts, out);
    MaskAt(ts, out, 6, 6, false,
      [Token(true, Word("users.name"))],
      Step([Token(true, Word("users.name"))], 1, false));
  }

  lemma PatternsStep7(ts: seq<Token>, out: seq<Token>)
    requires Agrees(ts, PatternsTokens) && Agrees(out, PatternsMasked)
    requires MaskedFrom(ts, out, 9, 9, false)
    ensures MaskedFrom(ts, out, 7, 7, false)
  {
    PatternsRewrite7();
    PatternsWindow7(ts, out);
    MaskAt(ts, out, 7, 7, false,
      [Token(true, Word("LIKE")), Token(true, Quoted("%test%")), Token(true, Word("AND")), Token(true, Word("NOT"))],
      Step([Token(true, Word("LIKE")), Token(true, Masked)], 2, false));
  }

  lemma PatternsStep9(ts: seq<Token>, out: seq<Token>)
    requires Agrees(ts, PatternsTokens) && Agrees(out, PatternsMasked)
    requires MaskedFrom(ts, out, 10, 10, false)
    ensures MaskedFrom(ts, out, 9, 9, false)
  {
    PatternsRewrite9();
    PatternsWindow9(ts, out);
    MaskAt(ts, out, 9, 9, false,
      [Token(true, Word("AND")), Token(true, Word("NOT"))],
      Step([Token(true, Word("AND"))], 1, false));
  }

  lemma PatternsStep10(ts: seq<Token>, out: seq<Token>)
    requires Agrees(ts, PatternsTokens) && Agrees(out, PatternsMasked)
    requires MaskedFrom(ts, out, 11, 11, false)
    ensures MaskedFrom(ts, out, 10, 10, false)
  {
    PatternsRewrite10();
    PatternsWindow10(ts, out);
    MaskAt(ts, out, 10, 10, false,
      [Token(true, Word("NOT"))],
      Step([Token(true, Word("NOT"))], 1, false));
  }

  lemma PatternsRewrite0()
    ensures Rewrite([Token(false, Word("SELECT"))], false) == Edit([Token(false, Word("SELECT"))], 1)
    ensures Mode([Token(false, Word("SELECT"))][..1], false) == false && PlainEnd([Token(false, Word("SELECT"))])
  {
    var z := [Token(false, Word("SELECT"))];
    ModeFirst(z, false);
  }

  lemma PatternsRewrite1()
    ensures Rewrite([Token(true, Word("users."))], false) == Edit([Token(true, Word("users."))], 1)
    ensures Mode([Token(true, Word("users."))][..1], false) == false && PlainEnd([Token(true, Word("users."))])
  {
    var z := [Token(true, Word("users."))];
    ModeFirst(z, false);
  }

  lemma PatternsRewrite2()
    ensures Rewrite([Token(false, Sym("*")), Token(true, Word("FROM"))], false) == Edit([Token(false, Sym("*"))], 1)
    ensures Mode([Token(false, Sym("*")), Token(true, Word("FROM"))][..1], false) == false && PlainEnd([Token(false, Sym("*")), Token(true, Word("FROM"))])
  {
    var z := [Token(false, Sym("*")), Token(true, Word("FROM"))];
    ModeFirst(z, false);
  }

  lemma PatternsRewrite3()
    ensures Rewrite([Token(true, Word("FROM"))], false) == Edit([Token(true, Word("FROM"))], 1)
    ensures Mode([Token(true, Word("FROM"))][..1], false) == false && PlainEnd([Token(true, Word("FROM"))])
  {
    var z := [Token(true, Word("FROM"))];
    ModeFirst(z, false);
  }

  lemma PatternsRewrite4()
    ensures Rewrite([Token(true, Word("users"))], false) == Edit([Token(true, Word("users"))], 1)
    ensures Mode([Token(true, Word("users"))][..1], false) == false && PlainEnd([Token(true, Word("users"))])
  {
    var z := [Token(true, Word("users"))];
    ModeFirst(z, false);
  }

  lemma PatternsWindow0(ts: seq<Token>, out: seq<Token>)
    requires Agrees(ts, PatternsTokens) && Agrees(out, PatternsMasked)
    ensures |ts| == 14 && |out| == 14
    ensures ts[0..1] == [Token(false, Word("SELECT"))]
    ensures out[0..1] == [Token(false, Word("SELECT"))]
  {
    assert ts[0] == PatternsTokens[0] == Token(false, Word("SELECT"));
    assert out[0] == PatternsMasked[0] == Token(false, Word("SELECT"));
  }

  lemma PatternsWindow1(ts: seq<Token>, out: seq<Token>)
    requires Agrees(ts, PatternsTokens) && Agrees(out, PatternsMasked)
    ensures |ts| == 14 && |out| == 14
    ensures ts[1..2] == [Token(true, Word("users."))]
    ensures out[1..2] == [Token(true, Word("users."))]
  {
    assert ts[1] == PatternsTokens[1] == Token(true, Word("users."));
    assert out[1] == PatternsMasked[1] == Token(true, Word("users."));
  }

  lemma PatternsWindow2(ts: seq<Token>, out: seq<Token>)
    requires Agrees(ts, PatternsTokens) && Agrees(out, PatternsMasked)
    ensures |ts| == 14 && |out| == 14
    ensures ts[2..4] == [Token(false, Sym("*")), Token(true, Word("FROM"))]
    ensures out[2..3] == [Token(false, Sym("*"))]
  {
    assert ts[2] == PatternsTokens[2] == Token(false, Sym("*"));
    assert ts[3] == PatternsTokens[3] == Token(true, Word("FROM"));
    assert out[2] == PatternsMasked[2] == Token(false, Sym("*"));
  }

  lemma PatternsWindow3(ts: seq<Token>, out: seq<Token>)
    requires Agrees(ts, PatternsTokens) && Agrees(out, PatternsMasked)
    ensures |ts| == 14 && |out| == 14
    ensures ts[3..4] == [Token(true, Word("FROM"))]
    ensures out[3..4] == [Token(true, Word("FROM"))]
  {
    assert ts[3] == PatternsTokens[3] == Token(true, Word("FROM"));
    assert out[3] == PatternsMasked[3] == Token(true, Word("FROM"));
  }

  lemma PatternsWindow4(ts: seq<Token>, out: seq<Token>)
    requires Agrees(ts, PatternsTokens) && Agrees(out, PatternsMasked)
    ensures |ts| == 14 && |out| == 14
    ensures ts[4..5] == [Token(true, Word("users"))]
    ensures out[4..5] == [Token(true, Word("users"))]
  {
    assert ts[4] == PatternsTokens[4] == Token(true, Word("users"));
    assert out[4] == PatternsMasked[4] == Token(true, Word("users"));
  }

  lemma PatternsStep0(ts: seq<Token>, out: seq<Token>)
    requires Agrees(ts, PatternsTokens) && Agrees(out, PatternsMasked)
    requires MaskedFrom(ts, out, 1, 1, false)
    ensures MaskedFrom(ts, out, 0, 0, false)
  {
    PatternsRewrite0();
    PatternsWindow0(ts, out);
    MaskAt(ts, out, 0, 0, false,
      [Token(false, Word("SELECT"))],
      Step([Token(false, Word("SELECT"))], 1, false));
  }

  lemma PatternsStep1(ts: seq<Token>, out: seq<Token>)
    requires Agrees(ts, PatternsTokens) && Agrees(out, PatternsMasked)
    requires MaskedFrom(ts, out, 2, 2, false)
    ensures MaskedFrom(ts, out, 1, 1, false)
  {
    PatternsRewrite1();
    PatternsWindow1(ts, out);
    MaskAt(ts, out, 1, 1, false,
      [Token(true, Word("users."))],
      Step([Token(true, Word("users."))], 1, false));
  }

  lemma PatternsStep2(ts: seq<Token>, out: seq<Token>)
    requires Agrees(ts, PatternsTokens) && Agrees(out, PatternsMasked)
    requires MaskedFrom(ts, out, 3, 3, false)
    ensures MaskedFrom(ts, out, 2, 2, false)
  {
    PatternsRewrite2();
    PatternsWindow2(ts, out);
    MaskAt(ts, out, 2, 2, false,
      [Token(false, Sym("*")), Token(true, Word("FROM"))],
      Step([Token(false, Sym("*"))], 1, false));
  }

  lemma PatternsStep3(ts: seq<Token>, out: seq<Token>)
    requires Agrees(ts, PatternsTokens) && Agrees(out, PatternsMasked)
    requires MaskedFrom(ts, out, 4, 4, false)
    ensures MaskedFrom(ts, out, 3, 3, false)
  {
    PatternsRewrite3();
    PatternsWindow3(ts, out);
    MaskAt(ts, out, 3, 3, false,
      [Token(true, Word("FROM"))],
      Step([Token(true, Word("FROM"))], 1, false));
  }

  lemma PatternsStep4(ts: seq<Token>, out: seq<Token>)
    requires Agrees(ts, PatternsTokens) && Agrees(out, PatternsMasked)
    requires MaskedFrom(ts, out, 5, 5, false)
    ensures MaskedFrom(ts, out, 4, 4, false)
  {
    PatternsRewrite4();
    PatternsWindow4(ts, out);
    MaskAt(ts, out, 4, 4, false,
      [Token(true, Word("users"))],
      Step([Token(true, Word("users"))], 1, false));
  }

  lemma PatternsMasking(ts: seq<Token>, out: seq<Token>)
    requires Agrees(ts, PatternsTokens) && Agrees(out, PatternsMasked)
    ensures MaskedFrom(ts, out, 0, 0, false)
  {
    PatternsStep11(ts, out);
    PatternsStep10(ts, out);
    PatternsStep9(ts, out);
    PatternsStep7(ts, out);
    PatternsStep6(ts, out);
    PatternsStep5(ts, out);
    PatternsStep4(ts, out);
    PatternsStep3(ts, out);
    PatternsStep2(ts, out);
    PatternsStep1(ts, out);
    PatternsStep0(ts, out);
  }

  lemma PatternsOutput1(out: seq<Token>, es: seq<string>)
    requires Agrees(out, PatternsMasked) && Agrees(es, PatternsCleaned)
    ensures |out| == 14 && |es| == 14
    ensures es[0] == RenderToken(out[0])
    ensures es[1] == RenderToken(out[1])
    ensures es[2] == RenderToken(out[2])
    ensures es[3] == RenderToken(out[3])
  {
    assert out[0] == PatternsMasked[0] == Token(false, Word("SELECT"));
    assert es[0] == PatternsCleaned[0] == "SELECT";
    assert out[1] == PatternsMasked[1] == Token(true, Word("users."));
    assert es[1] == PatternsCleaned[1] == " users.";
    assert out[2] == PatternsMasked[2] == Token(false, Sym("*"));
    assert es[2] == PatternsCleaned[2] == "*";
    assert out[3] == PatternsMasked[3] == Token(true, Word("FROM"));
    assert es[3] == PatternsCleaned[3] == " FROM";
  }

  lemma PatternsRendered1(out: seq<Token>, es: seq<string>)
    requires Agrees(out, PatternsMasked) && Agrees(es, PatternsCleaned)
    ensures Rendered(out, es, 4)
  {
    PatternsOutput1(out, es);
    RenderedStart(out, es);
    RenderedNext(out, es, 0);
    RenderedNext(out, es, 1);
    RenderedNext(out, es, 2);
    RenderedNext(out, es, 3);
  }

  lemma PatternsOutput2(out: seq<Token>, es: seq<string>)
    requires Agrees(out, PatternsMasked) && Agrees(es, PatternsCleaned)
    ensures |out| == 14 && |es| == 14
    ensures es[4] == RenderToken(out[4])
    ensures es[5] == RenderToken(out[5])
    ensures es[6] == RenderToken(out[6])
    ensures es[7] == RenderToken(out[7])
  {
    assert out[4] == PatternsMasked[4] == Token(true, Word("users"));
    assert es[4] == PatternsCleaned[4] == " users";
    assert out[5] == PatternsMasked[5] == Token(true, Word("WHERE"));
    assert es[5] == PatternsCleaned[5] == " WHERE";
    assert out[6] == PatternsMasked[6] == Token(true, Word("users.name"));
    assert es[6] == PatternsCleaned[6] == " users.name";
    assert out[7] == PatternsMasked[7] == Token(true, Word("LIKE"));
    assert es[7] == PatternsCleaned[7] == " LIKE";
  }

  lemma PatternsRendered2(out: seq<Token>, es: seq<string>)
    requires Agrees(out, PatternsMasked) && Agrees(es, PatternsCleaned)
    requires Rendered(out, es, 4)
    ensures Rendered(out, es, 8)
  {
    PatternsOutput2(out, es);
    RenderedNext(out, es, 4);
    RenderedNext(out, es, 5);
    RenderedNext(out, es, 6);
    RenderedNext(out, es, 7);
  }

  lemma PatternsOutput3(out: seq<Token>, es: seq<string>)
    requires Agrees(out, PatternsMasked) && Agrees(es, PatternsCleaned)
    ensures |out| == 14 && |es| == 14
    ensures es[8] == RenderToken(out[8])
    ensures es[9] == RenderToken(out[9])
    ensures es[10] == RenderToken(out[10])
    ensures es[11] == RenderToken(out[11])
  {
    assert out[8] == PatternsMasked[8] == Token(true, Masked);
    assert es[8] == PatternsCleaned[8] == " ???";
    assert out[9] == PatternsMasked[9] == Token(true, Word("AND"));
    assert es[9] == PatternsCleaned[9] == " AND";
    assert out[10] == PatternsMasked[10] == Token(true, Word("NOT"));
    assert es[10] == PatternsCleaned[10] == " NOT";
    assert out[11] == PatternsMasked[11] == Token(true, Word("SIMILAR"));
    assert es[11] == PatternsCleaned[11] == " SIMILAR";
  }

  lemma PatternsRendered3(out: seq<Token>, es: seq<string>)
    requires Agrees(out, PatternsMasked) && Agrees(es, PatternsCleaned)
    requires Rendered(out, es, 8)
    ensures Rendered(out, es, 12)
  {
    PatternsOutput3(out, es);
    RenderedNext(out, es, 8);
    RenderedNext(out, es, 9);
    RenderedNext(out, es, 10);
    RenderedNext(out, es, 11);
  }

  lemma PatternsOutput4(out: seq<Token>, es: seq<string>)
    requires Agrees(out, PatternsMasked) && Agrees(es, PatternsCleaned)
    ensures |out| == 14 && |es| == 14
    ensures es[12] == RenderToken(out[12])
    ensures es[13] == RenderToken(out[13])
  {
    assert out[12] == PatternsMasked[12] == Token(true, Word("TO"));
    assert es[12] == PatternsCleaned[12] == " TO";
    assert out[13] == PatternsMasked[13] == Token(true, Masked);
    assert es[13] == PatternsCleaned[13] == " ???";
  }

  lemma PatternsRendered4(out: seq<Token>, es: seq<string>)
    requires Agrees(out, PatternsMasked) && Agrees(es, PatternsCleaned)
    requires Rendered(out, es, 12)
    ensures Rendered(out, es, 14)
  {
    PatternsOutput4(out, es);
    RenderedNext(out, es, 12);
    RenderedNext(out, es, 13);
  }

  lemma PatternsRendering(out: seq<Token>, es: seq<string>)
    requires Agrees(out, PatternsMasked) && Agrees(es, PatternsCleaned)
    ensures Rendered(out, es, |out|) && |es| == |out|
  {
    PatternsRendered1(out, es);
    PatternsRendered2(out, es);
    PatternsRendered3(out, es);
    PatternsRendered4(out, es);
  }

  lemma PatternsByPieces(qs: seq<string>, ts: seq<Token>, out: seq<Token>, es: seq<string>)
    requires Agrees(qs, PatternsQuery) && Agrees(ts, PatternsTokens)
    requires Agrees(out, PatternsMasked) && Agrees(es, PatternsCleaned)
    ensures CleanSqlQuery(Join(qs)) == Join(es)
  {
    PatternsLexing(qs, ts);
    PatternsMasking(ts, out);
    PatternsRendering(out, es);
    CleanByPieces(qs, ts, out, es);
  }

  lemma CleanPatternMatching()
    ensures CleanSqlQuery(Join(PatternsQuery)) == Join(PatternsCleaned)
  {
    PatternsByPieces(PatternsQuery, PatternsTokens, PatternsMasked, PatternsCleaned);
  }
}
