module ValuesExample {
  /* A worked example of the masker: elements of `VALUES` tuples and the
     argument of `nextval` are masked; `DEFAULT` stays. `ValuesQuery` is the
     statement as written, cut into pieces of whitespace and one token each,
     and `ValuesCleaned` is the expected text cut into the rendered output
     tokens; `ValuesTokens` and `ValuesMasked` are the tokens before and
     after masking. The proof follows the pieces: each piece lexes to its
     token, each masking step is computed on a short window of tokens that
     ends with an ordinary word, and each output token renders as its
     expected piece. */
  import opened Passes
  import opened SqlText
  import opened SqlLexer
  import opened SqlMasker
  import opened SqlMaskSplit
  import opened SqlPieces

  /** The statement of test_clean_values. */
  const ValuesQuery1: seq<string> := ["\n        INSERT", " INTO", " users", " VALUES"]
  const ValuesQuery2: seq<string> := ["\n        (", "nextval", "(", "'id_seq'", ")", ",", " 'a'", ",", " 105", ",", " DEFAULT", ")", ","]
  const ValuesQuery3: seq<string> := ["\n        (", "nextval", "(", "'id_seq'", ")", ",", " 'b'", ",", " 9100", ",", " DEFAULT", ")", ";"]
  const ValuesQuery4: seq<string> := ["\n      "]
  const ValuesQuery: seq<string> :=
    ValuesQuery1 + ValuesQuery2 + ValuesQuery3 + ValuesQuery4

  const ValuesCleaned1: seq<string> := ["INSERT", " INTO", " users", " VALUES", " (", "nextval", "(", "???"]
  const ValuesCleaned2: seq<string> := [")", ",", " ???", ",", " ???", ",", " DEFAULT", ")"]
  const ValuesCleaned3: seq<string> := [",", " (", "nextval", "(", "???", ")", ",", " ???"]
  const ValuesCleaned4: seq<string> := [",", " ???", ",", " DEFAULT", ")", ";"]
  const ValuesCleaned: seq<string> :=
    ValuesCleaned1 + ValuesCleaned2 + ValuesCleaned3 + ValuesCleaned4

  ghost const ValuesTokens1: seq<Token> := [Token(false, Word("INSERT")), Token(true, Word("INTO")), Token(true, Word("users")), Token(true, Word("VALUES")), Token(true, Sym("(")), Token(false, Word("nextval"))]
  ghost const ValuesTokens2: seq<Token> := [Token(false, Sym("(")), Token(false, Quoted("id_seq")), Token(false, Sym(")")), Token(false, Sym(",")), Token(true, Quoted("a")), Token(false, Sym(","))]
  ghost const ValuesTokens3: seq<Token> := [Token(true, Num("105")), Token(false, Sym(",")), Token(true, Word("DEFAULT")), Token(false, Sym(")")), Token(false, Sym(",")), Token(true, Sym("("))]
  ghost const ValuesTokens4: seq<Token> := [Token(false, Word("nextval")), Token(false, Sym("(")), Token(false, Quoted("id_seq")), Token(false, Sym(")")), Token(false, Sym(",")), Token(true, Quoted("b"))]
  ghost const ValuesTokens5: seq<Token> := [Token(false, Sym(",")), Token(true, Num("9100")), Token(false, Sym(",")), Token(true, Word("DEFAULT")), Token(false, Sym(")")), Token(false, Sym(";"))]
  ghost const ValuesTokens: seq<Token> :=
    ValuesTokens1 + ValuesTokens2 + ValuesTokens3 + ValuesTokens4 + ValuesTokens5

  ghost const ValuesMasked1: seq<Token> := [Token(false, Word("INSERT")), Token(true, Word("INTO")), Token(true, Word("users")), Token(true, Word("VALUES")), Token(true, Sym("(")), Token(false, Word("nextval"))]
  ghost const ValuesMasked2: seq<Token> := [Token(false, Sym("(")), Token(false, Masked), Token(false, Sym(")")), Token(false, Sym(",")), Token(true, Masked), Token(false, Sym(","))]
  ghost const ValuesMasked3: seq<Token> := [Token(true, Masked), Token(false, Sym(",")), Token(true, Word("DEFAULT")), Token(false, Sym(")")), Token(false, Sym(",")), Token(true, Sym("("))]
  ghost const ValuesMasked4: seq<Token> := [Token(false, Word("nextval")), Token(false, Sym("(")), Token(false, Masked), Token(false, Sym(")")), Token(false, Sym(",")), Token(true, Masked)]
  ghost const ValuesMasked5: seq<Token> := [Token(false, Sym(",")), Token(true, Masked), Token(false, Sym(",")), Token(true, Word("DEFAULT")), Token(false, Sym(")")), Token(false, Sym(";"))]
  ghost const ValuesMasked: seq<Token> :=
    ValuesMasked1 + ValuesMasked2 + ValuesMasked3 + ValuesMasked4 + ValuesMasked5

  lemma ValuesPiece0()
    ensures PieceOf("\n        INSERT", "\n        ", Token(false, Word("INSERT")))
  {
  }

  lemma ValuesPiece1()
    ensures PieceOf(" INTO", " ", Token(true, Word("INTO")))
    ensures Adjacent(Token(false, Word("INSERT")), Token(true, Word("INTO")))
  {
  }

  lemma ValuesPiece2()
    ensures PieceOf(" users", " ", Token(true, Word("users")))
    ensures Adjacent(Token(true, Word("INTO")), Token(true, Word("users")))
  {
  }

  lemma ValuesPiece3()
    ensures PieceOf(" VALUES", " ", Token(true, Word("VALUES")))
    ensures Adjacent(Token(true, Word("users")), Token(true, Word("VALUES")))
  {
  }

  lemma ValuesPiece4()
    ensures PieceOf("\n        (", "\n        ", Token(true, Sym("(")))
    ensures Adjacent(Token(true, Word("VALUES")), Token(true, Sym("(")))
  {
  }

  lemma ValuesPiece5()
    ensures PieceOf("nextval", "", Token(false, Word("nextval")))
    ensures Adjacent(Token(true, Sym("(")), Token(false, Word("nextval")))
  {
  }

  lemma ValuesPieces1(qs: seq<string>, ts: seq<Token>)
    requires Agrees(qs, ValuesQuery) && Agrees(ts, ValuesTokens)
    ensures |qs| == 31 && |ts| == 30
    ensures qs[0] == "\n        INSERT"
    ensures qs[1] == " INTO"
    ensures qs[2] == " users"
    ensures qs[3] == " VALUES"
    ensures qs[4] == "\n        ("
    ensures qs[5] == "nextval"
    ensures ts[0] == Token(false, Word("INSERT"))
    ensures ts[1] == Token(true, Word("INTO"))
    ensures ts[2] == Token(true, Word("users"))
    ensures ts[3] == Token(true, Word("VALUES"))
    ensures ts[4] == Token(true, Sym("("))
    ensures ts[5] == Token(false, Word("nextval"))
  {
    assert qs[0] == ValuesQuery[0];
    assert qs[1] == ValuesQuery[1];
    assert qs[2] == ValuesQuery[2];
    assert qs[3] == ValuesQuery[3];
    assert qs[4] == ValuesQuery[4];
    assert qs[5] == ValuesQuery[5];
    assert ts[0] == ValuesTokens[0];
    assert ts[1] == ValuesTokens[1];
    assert ts[2] == ValuesTokens[2];
    assert ts[3] == ValuesTokens[3];
    assert ts[4] == ValuesTokens[4];
    assert ts[5] == ValuesTokens[5];
  }

  lemma ValuesLexed1(qs: seq<string>, ts: seq<Token>)
    requires Agrees(qs, ValuesQuery) && Agrees(ts, ValuesTokens)
    ensures Built(qs, ts, 6)
  {
    ValuesPieces1(qs, ts);
    ValuesPiece0();
    ValuesPiece1();
    ValuesPiece2();
    ValuesPiece3();
    ValuesPiece4();
    ValuesPiece5();
    PieceFirst(qs, ts, "\n        ", "\n        INSERT", Token(false, Word("INSERT")));
    PieceNext(qs, ts, 1, " ", " INTO", Token(false, Word("INSERT")), Token(true, Word("INTO")));
    PieceNext(qs, ts, 2, " ", " users", Token(true, Word("INTO")), Token(true, Word("users")));
    PieceNext(qs, ts, 3, " ", " VALUES", Token(true, Word("users")), Token(true, Word("VALUES")));
    PieceNext(qs, ts, 4, "\n        ", "\n        (", Token(true, Word("VALUES")), Token(true, Sym("(")));
    PieceNext(qs, ts, 5, "", "nextval", Token(true, Sym("(")), Token(false, Word("nextval")));
  }

  lemma ValuesPiece6()
    ensures PieceOf("(", "", Token(false, Sym("(")))
    ensures Adjacent(Token(false, Word("nextval")), Token(false, Sym("(")))
  {
  }

  lemma ValuesPiece7()
    ensures PieceOf("'id_seq'", "", Token(false, Quoted("id_seq")))
    ensures Adjacent(Token(false, Sym("(")), Token(false, Quoted("id_seq")))
  {
    QuotedShaped("id_seq");
  }

  lemma ValuesPiece8()
    ensures PieceOf(")", "", Token(false, Sym(")")))
    ensures Adjacent(Token(false, Quoted("id_seq")), Token(false, Sym(")")))
  {
  }

  lemma ValuesPiece9()
    ensures PieceOf(",", "", Token(false, Sym(",")))
    ensures Adjacent(Token(false, Sym(")")), Token(false, Sym(",")))
  {
  }

  lemma ValuesPiece10()
    ensures PieceOf(" 'a'", " ", Token(true, Quoted("a")))
    ensures Adjacent(Token(false, Sym(",")), Token(true, Quoted("a")))
  {
    QuotedShaped("a");
  }

  lemma ValuesPiece11()
    ensures PieceOf(",", "", Token(false, Sym(",")))
    ensures Adjacent(Token(true, Quoted("a")), Token(false, Sym(",")))
  {
  }

  lemma ValuesPieces2(qs: seq<string>, ts: seq<Token>)
    requires Agrees(qs, ValuesQuery) && Agrees(ts, ValuesTokens)
    ensures |qs| == 31 && |ts| == 30
    ensures qs[6] == "("
    ensures qs[7] == "'id_seq'"
    ensures qs[8] == ")"
    ensures qs[9] == ","
    ensures qs[10] == " 'a'"
    ensures qs[11] == ","
    ensures ts[5] == Token(false, Word("nextval"))
    ensures ts[6] == Token(false, Sym("("))
    ensures ts[7] == Token(false, Quoted("id_seq"))
    ensures ts[8] == Token(false, Sym(")"))
    ensures ts[9] == Token(false, Sym(","))
    ensures ts[10] == Token(true, Quoted("a"))
    ensures ts[11] == Token(false, Sym(","))
  {
    assert qs[6] == ValuesQuery[6];
    assert qs[7] == ValuesQuery[7];
    assert qs[8] == ValuesQuery[8];
    assert qs[9] == ValuesQuery[9];
    assert qs[10] == ValuesQuery[10];
    assert qs[11] == ValuesQuery[11];
    assert ts[5] == ValuesTokens[5];
    assert ts[6] == ValuesTokens[6];
    assert ts[7] == ValuesTokens[7];
    assert ts[8] == ValuesTokens[8];
    assert ts[9] == ValuesTokens[9];
    assert ts[10] == ValuesTokens[10];
    assert ts[11] == ValuesTokens[11];
  }

  lemma ValuesLexed2(qs: seq<string>, ts: seq<Token>)
    requires Agrees(qs, ValuesQuery) && Agrees(ts, ValuesTokens)
    requires Built(qs, ts, 6)
    ensures Built(qs, ts, 12)
  {
    ValuesPieces2(qs, ts);
    ValuesPiece5();
    ValuesPiece6();
    ValuesPiece7();
    ValuesPiece8();
    ValuesPiece9();
    ValuesPiece10();
    ValuesPiece11();
    PieceNext(qs, ts, 6, "", "(", Token(false, Word("nextval")), Token(false, Sym("(")));
    PieceNext(qs, ts, 7, "", "'id_seq'", Token(false, Sym("(")), Token(false, Quoted("id_seq")));
    PieceNext(qs, ts, 8, "", ")", Token(false, Quoted("id_seq")), Token(false, Sym(")")));
    PieceNext(qs, ts, 9, "", ",", Token(false, Sym(")")), Token(false, Sym(",")));
    PieceNext(qs, ts, 10, " ", " 'a'", Token(false, Sym(",")), Token(true, Quoted("a")));
    PieceNext(qs, ts, 11, "", ",", Token(true, Quoted("a")), Token(false, Sym(",")));
  }

  lemma ValuesPiece12()
    ensures PieceOf(" 105", " ", Token(true, Num("105")))
    ensures Adjacent(Token(false, Sym(",")), Token(true, Num("105")))
  {
  }

  lemma ValuesPiece13()
    ensures PieceOf(",", "", Token(false, Sym(",")))
    ensures Adjacent(Token(true, Num("105")), Token(false, Sym(",")))
  {
  }

  lemma ValuesPiece14()
    ensures PieceOf(" DEFAULT", " ", Token(true, Word("DEFAULT")))
    ensures Adjacent(Token(false, Sym(",")), Token(true, Word("DEFAULT")))
  {
  }

  lemma ValuesPiece15()
    ensures PieceOf(")", "", Token(false, Sym(")")))
    ensures Adjacent(Token(true, Word("DEFAULT")), Token(false, Sym(")")))
  {
  }

  lemma ValuesPiece16()
    ensures PieceOf(",", "", Token(false, Sym(",")))
    ensures Adjacent(Token(false, Sym(")")), Token(false, Sym(",")))
  {
  }

  lemma ValuesPiece17()
    ensures PieceOf("\n        (", "\n        ", Token(true, Sym("(")))
    ensures Adjacent(Token(false, Sym(",")), Token(true, Sym("(")))
  {
  }

  lemma ValuesPieces3(qs: seq<string>, ts: seq<Token>)
    requires Agrees(qs, ValuesQuery) && Agrees(ts, ValuesTokens)
    ensures |qs| == 31 && |ts| == 30
    ensures qs[12] == " 105"
    ensures qs[13] == ","
    ensures qs[14] == " DEFAULT"
    ensures qs[15] == ")"
    ensures qs[16] == ","
    ensures qs[17] == "\n        ("
    ensures ts[11] == Token(false, Sym(","))
    ensures ts[12] == Token(true, Num("105"))
    ensures ts[13] == Token(false, Sym(","))
    ensures ts[14] == Token(true, Word("DEFAULT"))
    ensures ts[15] == Token(false, Sym(")"))
    ensures ts[16] == Token(false, Sym(","))
    ensures ts[17] == Token(true, Sym("("))
  {
    assert qs[12] == ValuesQuery[12];
    assert qs[13] == ValuesQuery[13];
    assert qs[14] == ValuesQuery[14];
    assert qs[15] == ValuesQuery[15];
    assert qs[16] == ValuesQuery[16];
    assert qs[17] == ValuesQuery[17];
    assert ts[11] == ValuesTokens[11];
    assert ts[12] == ValuesTokens[12];
    assert ts[13] == ValuesTokens[13];
    assert ts[14] == ValuesTokens[14];
    assert ts[15] == ValuesTokens[15];
    assert ts[16] == ValuesTokens[16];
    assert ts[17] == ValuesTokens[17];
  }

  lemma ValuesLexed3(qs: seq<string>, ts: seq<Token>)
    requires Agrees(qs, ValuesQuery) && Agrees(ts, ValuesTokens)
    requires Built(qs, ts, 12)
    ensures Built(qs, ts, 18)
  {
    ValuesPieces3(qs, ts);
    ValuesPiece11();
    ValuesPiece12();
    ValuesPiece13();
    ValuesPiece14();
    ValuesPiece15();
    ValuesPiece16();
    ValuesPiece17();
    PieceNext(qs, ts, 12, " ", " 105", Token(false, Sym(",")), Token(true, Num("105")));
    PieceNext(qs, ts, 13, "", ",", Token(true, Num("105")), Token(false, Sym(",")));
    PieceNext(qs, ts, 14, " ", " DEFAULT", Token(false, Sym(",")), Token(true, Word("DEFAULT")));
    PieceNext(qs, ts, 15, "", ")", Token(true, Word("DEFAULT")), Token(false, Sym(")")));
    PieceNext(qs, ts, 16, "", ",", Token(false, Sym(")")), Token(false, Sym(",")));
    PieceNext(qs, ts, 17, "\n        ", "\n        (", Token(false, Sym(",")), Token(true, Sym("(")));
  }

  lemma ValuesPiece18()
    ensures PieceOf("nextval", "", Token(false, Word("nextval")))
    ensures Adjacent(Token(true, Sym("(")), Token(false, Word("nextval")))
  {
  }

  lemma ValuesPiece19()
    ensures PieceOf("(", "", Token(false, Sym("(")))
    ensures Adjacent(Token(false, Word("nextval")), Token(false, Sym("(")))
  {
  }

  lemma ValuesPiece20()
    ensures PieceOf("'id_seq'", "", Token(false, Quoted("id_seq")))
    ensures Adjacent(Token(false, Sym("(")), Token(false, Quoted("id_seq")))
  {
    QuotedShaped("id_seq");
  }

  lemma ValuesPiece21()
    ensures PieceOf(")", "", Token(false, Sym(")")))
    ensures Adjacent(Token(false, Quoted("id_seq")), Token(false, Sym(")")))
  {
  }

  lemma ValuesPiece22()
    ensures PieceOf(",", "", Token(false, Sym(",")))
    ensures Adjacent(Token(false, Sym(")")), Token(false, Sym(",")))
  {
  }

  lemma ValuesPiece23()
    ensures PieceOf(" 'b'", " ", Token(true, Quoted("b")))
    ensures Adjacent(Token(false, Sym(",")), Token(true, Quoted("b")))
  {
    QuotedShaped("b");
  }

  lemma ValuesPieces4(qs: seq<string>, ts: seq<Token>)
    requires Agrees(qs, ValuesQuery) && Agrees(ts, ValuesTokens)
    ensures |qs| == 31 && |ts| == 30
    ensures qs[18] == "nextval"
    ensures qs[19] == "("
    ensures qs[20] == "'id_seq'"
    ensures qs[21] == ")"
    ensures qs[22] == ","
    ensures qs[23] == " 'b'"
    ensures ts[17] == Token(true, Sym("("))
    ensures ts[18] == Token(false, Word("nextval"))
    ensures ts[19] == Token(false, Sym("("))
    ensures ts[20] == Token(false, Quoted("id_seq"))
    ensures ts[21] == Token(false, Sym(")"))
    ensures ts[22] == Token(false, Sym(","))
    ensures ts[23] == Token(true, Quoted("b"))
  {
    assert qs[18] == ValuesQuery[18];
    assert qs[19] == ValuesQuery[19];
    assert qs[20] == ValuesQuery[20];
    assert qs[21] == ValuesQuery[21];
    assert qs[22] == ValuesQuery[22];
    assert qs[23] == ValuesQuery[23];
    assert ts[17] == ValuesTokens[17];
    assert ts[18] == ValuesTokens[18];
    assert ts[19] == ValuesTokens[19];
    assert ts[20] == ValuesTokens[20];
    assert ts[21] == ValuesTokens[21];
    assert ts[22] == ValuesTokens[22];
    assert ts[23] == ValuesTokens[23];
  }

  lemma ValuesLexed4(qs: seq<string>, ts: seq<Token>)
    requires Agrees(qs, ValuesQuery) && Agrees(ts, ValuesTokens)
    requires Built(qs, ts, 18)
    ensures Built(qs, ts, 24)
  {
    ValuesPieces4(qs, ts);
    ValuesPiece17();
    ValuesPiece18();
    ValuesPiece19();
    ValuesPiece20();
    ValuesPiece21();
    ValuesPiece22();
    ValuesPiece23();
    PieceNext(qs, ts, 18, "", "nextval", Token(true, Sym("(")), Token(false, Word("nextval")));
    PieceNext(qs, ts, 19, "", "(", Token(false, Word("nextval")), Token(false, Sym("(")));
    PieceNext(qs, ts, 20, "", "'id_seq'", Token(false, Sym("(")), Token(false, Quoted("id_seq")));
    PieceNext(qs, ts, 21, "", ")", Token(false, Quoted("id_seq")), Token(false, Sym(")")));
    PieceNext(qs, ts, 22, "", ",", Token(false, Sym(")")), Token(false, Sym(",")));
    PieceNext(qs, ts, 23, " ", " 'b'", Token(false, Sym(",")), Token(true, Quoted("b")));
  }

  lemma ValuesPiece24()
    ensures PieceOf(",", "", Token(false, Sym(",")))
    ensures Adjacent(Token(true, Quoted("b")), Token(false, Sym(",")))
  {
  }

  lemma ValuesPiece25()
    ensures PieceOf(" 9100", " ", Token(true, Num("9100")))
    ensures Adjacent(Token(false, Sym(",")), Token(true, Num("9100")))
  {
  }

  lemma ValuesPiece26()
    ensures PieceOf(",", "", Token(false, Sym(",")))
    ensures Adjacent(Token(true, Num("9100")), Token(false, Sym(",")))
  {
  }

  lemma ValuesPiece27()
    ensures PieceOf(" DEFAULT", " ", Token(true, Word("DEFAULT")))
    ensures Adjacent(Token(false, Sym(",")), Token(true, Word("DEFAULT")))
  {
  }

  lemma ValuesPiece28()
    ensures PieceOf(")", "", Token(false, Sym(")")))
    ensures Adjacent(Token(true, Word("DEFAULT")), Token(false, Sym(")")))
  {
  }

  lemma ValuesPiece29()
    ensures PieceOf(";", "", Token(false, Sym(";")))
    ensures Adjacent(Token(false, Sym(")")), Token(false, Sym(";")))
  {
  }

  lemma ValuesPieces5(qs: seq<string>, ts: seq<Token>)
    requires Agrees(qs, ValuesQuery) && Agrees(ts, ValuesTokens)
    ensures |qs| == 31 && |ts| == 30
    ensures qs[24] == ","
    ensures qs[25] == " 9100"
    ensures qs[26] == ","
    ensures qs[27] == " DEFAULT"
    ensures qs[28] == ")"
    ensures qs[29] == ";"
    ensures qs[30] == "\n      " && AllSpace(qs[30])
    ensures ts[23] == Token(true, Quoted("b"))
    ensures ts[24] == Token(false, Sym(","))
    ensures ts[25] == Token(true, Num("9100"))
    ensures ts[26] == Token(false, Sym(","))
    ensures ts[27] == Token(true, Word("DEFAULT"))
    ensures ts[28] == Token(false, Sym(")"))
    ensures ts[29] == Token(false, Sym(";"))
  {
    assert qs[24] == ValuesQuery[24];
    assert qs[25] == ValuesQuery[25];
    assert qs[26] == ValuesQuery[26];
    assert qs[27] == ValuesQuery[27];
    assert qs[28] == ValuesQuery[28];
    assert qs[29] == ValuesQuery[29];
    assert qs[30] == ValuesQuery[30];
    assert ts[23] == ValuesTokens[23];
    assert ts[24] == ValuesTokens[24];
    assert ts[25] == ValuesTokens[25];
    assert ts[26] == ValuesTokens[26];
    assert ts[27] == ValuesTokens[27];
    assert ts[28] == ValuesTokens[28];
    assert ts[29] == ValuesTokens[29];
  }

  lemma ValuesLexed5(qs: seq<string>, ts: seq<Token>)
    requires Agrees(qs, ValuesQuery) && Agrees(ts, ValuesTokens)
    requires Built(qs, ts, 24)
    ensures Built(qs, ts, 30)
    ensures qs[30] == "\n      " && AllSpace(qs[30])
  {
    ValuesPieces5(qs, ts);
    ValuesPiece23();
    ValuesPiece24();
    ValuesPiece25();
    ValuesPiece26();
    ValuesPiece27();
    ValuesPiece28();
    ValuesPiece29();
    PieceNext(qs, ts, 24, "", ",", Token(true, Quoted("b")), Token(false, Sym(",")));
    PieceNext(qs, ts, 25, " ", " 9100", Token(false, Sym(",")), Token(true, Num("9100")));
    PieceNext(qs, ts, 26, "", ",", Token(true, Num("9100")), Token(false, Sym(",")));
    PieceNext(qs, ts, 27, " ", " DEFAULT", Token(false, Sym(",")), Token(true, Word("DEFAULT")));
    PieceNext(qs, ts, 28, "", ")", Token(true, Word("DEFAULT")), Token(false, Sym(")")));
    PieceNext(qs, ts, 29, "", ";", Token(false, Sym(")")), Token(false, Sym(";")));
  }

  lemma ValuesLexing(qs: seq<string>, ts: seq<Token>)
    requires Agrees(qs, ValuesQuery) && Agrees(ts, ValuesTokens)
    ensures Squish(Join(qs)) == Render(ts) && Lex(Render(ts)) == ts
  {
    ValuesLexed1(qs, ts);
    ValuesLexed2(qs, ts);
    ValuesLexed3(qs, ts);
    ValuesLexed4(qs, ts);
    ValuesLexed5(qs, ts);
    PiecesEnd(qs, ts);
  }

  lemma ValuesRewrite28()
    ensures Rewrite([Token(false, Sym(")")), Token(false, Sym(";"))], true) == Edit([Token(false, Sym(")"))], 1)
    ensures Mode([Token(false, Sym(")")), Token(false, Sym(";"))][..1], true) == true
  {
    var z := [Token(false, Sym(")")), Token(false, Sym(";"))];
    ModeFirst(z, true);
  }

  lemma ValuesRewrite29()
    ensures Rewrite([Token(false, Sym(";"))], true) == Edit([Token(false, Sym(";"))], 1)
    ensures Mode([Token(false, Sym(";"))][..1], true) == false
  {
    var z := [Token(false, Sym(";"))];
    ModeFirst(z, true);
  }

  lemma ValuesWindow28(ts: seq<Token>, out: seq<Token>)
    requires Agrees(ts, ValuesTokens) && Agrees(out, ValuesMasked)
    ensures |ts| == 30 && |out| == 30
    ensures ts[28..30] == [Token(false, Sym(")")), Token(false, Sym(";"))]
    ensures out[28..29] == [Token(false, Sym(")"))]
  {
    assert ts[28] == ValuesTokens[28] == Token(false, Sym(")"));
    assert ts[29] == ValuesTokens[29] == Token(false, Sym(";"));
    assert out[28] == ValuesMasked[28] == Token(false, Sym(")"));
  }

  lemma ValuesWindow29(ts: seq<Token>, out: seq<Token>)
    requires Agrees(ts, ValuesTokens) && Agrees(out, ValuesMasked)
    ensures |ts| == 30 && |out| == 30
    ensures ts[29..30] == [Token(false, Sym(";"))]
    ensures out[29..30] == [Token(false, Sym(";"))]
  {
    assert ts[29] == ValuesTokens[29] == Token(false, Sym(";"));
    assert out[29] == ValuesMasked[29] == Token(false, Sym(";"));
  }

  lemma ValuesStep28(ts: seq<Token>, out: seq<Token>)
    requires Agrees(ts, ValuesTokens) && Agrees(out, ValuesMasked)
    requires MaskedFrom(ts, out, 29, 29, true)
    ensures MaskedFrom(ts, out, 28, 28, true)
  {
    ValuesRewrite28();
    ValuesWindow28(ts, out);
    MaskAt(ts, out, 28, 28, true,
      [Token(false, Sym(")")), Token(false, Sym(";"))],
      Step([Token(false, Sym(")"))], 1, true));
  }

  lemma ValuesStep29(ts: seq<Token>, out: seq<Token>)
    requires Agrees(ts, ValuesTokens) && Agrees(out, ValuesMasked)
    ensures MaskedFrom(ts, out, 29, 29, true)
  {
    ValuesRewrite29();
    ValuesWindow29(ts, out);
    MaskedEnd(ts, out, false);
    MaskAt(ts, out, 29, 29, true,
      [Token(false, Sym(";"))],
      Step([Token(false, Sym(";"))], 1, false));
  }

  lemma ValuesRewrite19()
    ensures Rewrite([Token(false, Sym("(")), Token(false, Quoted("id_seq")), Token(false, Sym(")")), Token(false, Sym(",")), Token(true, Quoted("b")), Token(false, Sym(",")), Token(true, Num("9100")), Token(false, Sym(",")), Token(true, Word("DEFAULT"))], true) == Edit([Token(false, Sym("(")), Token(false, Masked), Token(false, Sym(")"))], 3)
    ensures Mode([Token(false, Sym("(")), Token(false, Quoted("id_seq")), Token(false, Sym(")")), Token(false, Sym(",")), Token(true, Quoted("b")), Token(false, Sym(",")), Token(true, Num("9100")), Token(false, Sym(",")), Token(true, Word("DEFAULT"))][..3], true) == true && PlainEnd([Token(false, Sym("(")), Token(false, Quoted("id_seq")), Token(false, Sym(")")), Token(false, Sym(",")), Token(true, Quoted("b")), Token(false, Sym(",")), Token(true, Num("9100")), Token(false, Sym(",")), Token(true, Word("DEFAULT"))])
  {
    var z := [Token(false, Sym("(")), Token(false, Quoted("id_seq")), Token(false, Sym(")")), Token(false, Sym(",")), Token(true, Quoted("b")), Token(false, Sym(",")), Token(true, Num("9100")), Token(false, Sym(",")), Token(true, Word("DEFAULT"))];
    ListTailOf(z[1..], 2);
    QuietMode(z[..3], true);
  }

  lemma ValuesRewrite22()
    ensures Rewrite([Token(false, Sym(",")), Token(true, Quoted("b")), Token(false, Sym(",")), Token(true, Num("9100")), Token(false, Sym(",")), Token(true, Word("DEFAULT"))], true) == Edit([Token(false, Sym(",")), Token(true, Masked)], 2)
    ensures Mode([Token(false, Sym(",")), Token(true, Quoted("b")), Token(false, Sym(",")), Token(true, Num("9100")), Token(false, Sym(",")), Token(true, Word("DEFAULT"))][..2], true) == true && PlainEnd([Token(false, Sym(",")), Token(true, Quoted("b")), Token(false, Sym(",")), Token(true, Num("9100")), Token(false, Sym(",")), Token(true, Word("DEFAULT"))])
  {
    var z := [Token(false, Sym(",")), Token(true, Quoted("b")), Token(false, Sym(",")), Token(true, Num("9100")), Token(false, Sym(",")), Token(true, Word("DEFAULT"))];
    QuietMode(z[..2], true);
  }

  lemma ValuesRewrite24()
    ensures Rewrite([Token(false, Sym(",")), Token(true, Num("9100")), Token(false, Sym(",")), Token(true, Word("DEFAULT"))], true) == Edit([Token(false, Sym(",")), Token(true, Masked)], 2)
    ensures Mode([Token(false, Sym(",")), Token(true, Num("9100")), Token(false, Sym(",")), Token(true, Word("DEFAULT"))][..2], true) == true && PlainEnd([Token(false, Sym(",")), Token(true, Num("9100")), Token(false, Sym(",")), Token(true, Word("DEFAULT"))])
  {
    var z := [Token(false, Sym(",")), Token(true, Num("9100")), Token(false, Sym(",")), Token(true, Word("DEFAULT"))];
    QuietMode(z[..2], true);
  }

  lemma ValuesRewrite26()
    ensures Rewrite([Token(false, Sym(",")), Token(true, Word("DEFAULT"))], true) == Edit([Token(false, Sym(","))], 1)
    ensures Mode([Token(false, Sym(",")), Token(true, Word("DEFAULT"))][..1], true) == true && PlainEnd([Token(false, Sym(",")), Token(true, Word("DEFAULT"))])
  {
    var z := [Token(false, Sym(",")), Token(true, Word("DEFAULT"))];
    ModeFirst(z, true);
  }

  lemma ValuesRewrite27()
    ensures Rewrite([Token(true, Word("DEFAULT"))], true) == Edit([Token(true, Word("DEFAULT"))], 1)
    ensures Mode([Token(true, Word("DEFAULT"))][..1], true) == true && PlainEnd([Token(true, Word("DEFAULT"))])
  {
    var z := [Token(true, Word("DEFAULT"))];
    ModeFirst(z, true);
  }

  lemma ValuesWindow19(ts: seq<Token>, out: seq<Token>)
    requires Agrees(ts, ValuesTokens) && Agrees(out, ValuesMasked)
    ensures |ts| == 30 && |out| == 30
    ensures ts[19..28] == [Token(false, Sym("(")), Token(false, Quoted("id_seq")), Token(false, Sym(")")), Token(false, Sym(",")), Token(true, Quoted("b")), Token(false, Sym(",")), Token(true, Num("9100")), Token(false, Sym(",")), Token(true, Word("DEFAULT"))]
    ensures out[19..22] == [Token(false, Sym("(")), Token(false, Masked), Token(false, Sym(")"))]
  {
    assert ts[19] == ValuesTokens[19] == Token(false, Sym("("));
    assert ts[20] == ValuesTokens[20] == Token(false, Quoted("id_seq"));
    assert ts[21] == ValuesTokens[21] == Token(false, Sym(")"));
    assert ts[22] == ValuesTokens[22] == Token(false, Sym(","));
    assert ts[23] == ValuesTokens[23] == Token(true, Quoted("b"));
    assert ts[24] == ValuesTokens[24] == Token(false, Sym(","));
    assert ts[25] == ValuesTokens[25] == Token(true, Num("9100"));
    assert ts[26] == ValuesTokens[26] == Token(false, Sym(","));
    assert ts[27] == ValuesTokens[27] == Token(true, Word("DEFAULT"));
    assert out[19] == ValuesMasked[19] == Token(false, Sym("("));
    assert out[20] == ValuesMasked[20] == Token(false, Masked);
    assert out[21] == ValuesMasked[21] == Token(false, Sym(")"));
  }

  lemma ValuesWindow22(ts: seq<Token>, out: seq<Token>)
    requires Agrees(ts, ValuesTokens) && Agrees(out, ValuesMasked)
    ensures |ts| == 30 && |out| == 30
    ensures ts[22..28] == [Token(false, Sym(",")), Token(true, Quoted("b")), Token(false, Sym(",")), Token(true, Num("9100")), Token(false, Sym(",")), Token(true, Word("DEFAULT"))]
    ensures out[22..24] == [Token(false, Sym(",")), Token(true, Masked)]
  {
    assert ts[22] == ValuesTokens[22] == Token(false, Sym(","));
    assert ts[23] == ValuesTokens[23] == Token(true, Quoted("b"));
    assert ts[24] == ValuesTokens[24] == Token(false, Sym(","));
    assert ts[25] == ValuesTokens[25] == Token(true, Num("9100"));
    assert ts[26] == ValuesTokens[26] == Token(false, Sym(","));
    assert ts[27] == ValuesTokens[27] == Token(true, Word("DEFAULT"));
    assert out[22] == ValuesMasked[22] == Token(false, Sym(","));
    assert out[23] == ValuesMasked[23] == Token(true, Masked);
  }

  lemma ValuesWindow24(ts: seq<Token>, out: seq<Token>)
    requires Agrees(ts, ValuesTokens) && Agrees(out, ValuesMasked)
    ensures |ts| == 30 && |out| == 30
    ensures ts[24..28] == [Token(false, Sym(",")), Token(true, Num("9100")), Token(false, Sym(",")), Token(true, Word("DEFAULT"))]
    ensures out[24..26] == [Token(false, Sym(",")), Token(true, Masked)]
  {
    assert ts[24] == ValuesTokens[24] == Token(false, Sym(","));
    assert ts[25] == ValuesTokens[25] == Token(true, Num("9100"));
    assert ts[26] == ValuesTokens[26] == Token(false, Sym(","));
    assert ts[27] == ValuesTokens[27] == Token(true, Word("DEFAULT"));
    assert out[24] == ValuesMasked[24] == Token(false, Sym(","));
    assert out[25] == ValuesMasked[25] == Token(true, Masked);
  }

  lemma ValuesWindow26(ts: seq<Token>, out: seq<Token>)
    requires Agrees(ts, ValuesTokens) && Agrees(out, ValuesMasked)
    ensures |ts| == 30 && |out| == 30
    ensures ts[26..28] == [Token(false, Sym(",")), Token(true, Word("DEFAULT"))]
    ensures out[26..27] == [Token(false, Sym(","))]
  {
    assert ts[26] == ValuesTokens[26] == Token(false, Sym(","));
    assert ts[27] == ValuesTokens[27] == Token(true, Word("DEFAULT"));
    assert out[26] == ValuesMasked[26] == Token(false, Sym(","));
  }

  lemma ValuesWindow27(ts: seq<Token>, out: seq<Token>)
    requires Agrees(ts, ValuesTokens) && Agrees(out, ValuesMasked)
    ensures |ts| == 30 && |out| == 30
    ensures ts[27..28] == [Token(true, Word("DEFAULT"))]
    ensures out[27..28] == [Token(true, Word("DEFAULT"))]
  {
    assert ts[27] == ValuesTokens[27] == Token(true, Word("DEFAULT"));
    assert out[27] == ValuesMasked[27] == Token(true, Word("DEFAULT"));
  }

  lemma ValuesStep19(ts: seq<Token>, out: seq<Token>)
    requires Agrees(ts, ValuesTokens) && Agrees(out, ValuesMasked)
    requires MaskedFrom(ts, out, 22, 22, true)
    ensures MaskedFrom(ts, out, 19, 19, true)
  {
    ValuesRewrite19();
    ValuesWindow19(ts, out);
    MaskAt(ts, out, 19, 19, true,
      [Token(false, Sym("(")), Token(false, Quoted("id_seq")), Token(false, Sym(")")), Token(false, Sym(",")), Token(true, Quoted("b")), Token(false, Sym(",")), Token(true, Num("9100")), Token(false, Sym(",")), Token(true, Word("DEFAULT"))],
      Step([Token(false, Sym("(")), Token(false, Masked), Token(false, Sym(")"))], 3, true));
  }

  lemma ValuesStep22(ts: seq<Token>, out: seq<Token>)
    requires Agrees(ts, ValuesTokens) && Agrees(out, ValuesMasked)
    requires MaskedFrom(ts, out, 24, 24, true)
    ensures MaskedFrom(ts, out, 22, 22, true)
  {
    ValuesRewrite22();
    ValuesWindow22(ts, out);
    MaskAt(ts, out, 22, 22, true,
      [Token(false, Sym(",")), Token(true, Quoted("b")), Token(false, Sym(",")), Token(true, Num("9100")), Token(false, Sym(",")), Token(true, Word("DEFAULT"))],
      Step([Token(false, Sym(",")), Token(true, Masked)], 2, true));
  }

  lemma ValuesStep24(ts: seq<Token>, out: seq<Token>)
    requires Agrees(ts, ValuesTokens) && Agrees(out, ValuesMasked)
    requires MaskedFrom(ts, out, 26, 26, true)
    ensures MaskedFrom(ts, out, 24, 24, true)
  {
    ValuesRewrite24();
    ValuesWindow24(ts, out);
    MaskAt(ts, out, 24, 24, true,
      [Token(false, Sym(",")), Token(true, Num("9100")), Token(false, Sym(",")), Token(true, Word("DEFAULT"))],
      Step([Token(false, Sym(",")), Token(true, Masked)], 2, true));
  }

  lemma ValuesStep26(ts: seq<Token>, out: seq<Token>)
    requires Agrees(ts, ValuesTokens) && Agrees(out, ValuesMasked)
    requires MaskedFrom(ts, out, 27, 27, true)
    ensures MaskedFrom(ts, out, 26, 26, true)
  {
    ValuesRewrite26();
    ValuesWindow26(ts, out);
    MaskAt(ts, out, 26, 26, true,
      [Token(false, Sym(",")), Token(true, Word("DEFAULT"))],
      Step([Token(false, Sym(","))], 1, true));
  }

  lemma ValuesStep27(ts: seq<Token>, out: seq<Token>)
    requires Agrees(ts, ValuesTokens) && Agrees(out, ValuesMasked)
    requires MaskedFrom(ts, out, 28, 28, true)
    ensures MaskedFrom(ts, out, 27, 27, true)
  {
    ValuesRewrite27();
    ValuesWindow27(ts, out);
    MaskAt(ts, out, 27, 27, true,
      [Token(true, Word("DEFAULT"))],
      Step([Token(true, Word("DEFAULT"))], 1, true));
  }

  lemma ValuesRewrite14()
    ensures Rewrite([Token(true, Word("DEFAULT"))], true) == Edit([Token(true, Word("DEFAULT"))], 1)
    ensures Mode([Token(true, Word("DEFAULT"))][..1], true) == true && PlainEnd([Token(true, Word("DEFAULT"))])
  {
    var z := [Token(true, Word("DEFAULT"))];
    ModeFirst(z, true);
  }

  lemma ValuesRewrite15()
    ensures Rewrite([Token(false, Sym(")")), Token(false, Sym(",")), Token(true, Sym("(")), Token(false, Word("nextval"))], true) == Edit([Token(false, Sym(")"))], 1)
    ensures Mode([Token(false, Sym(")")), Token(false, Sym(",")), Token(true, Sym("(")), Token(false, Word("nextval"))][..1], true) == true && PlainEnd([Token(false, Sym(")")), Token(false, Sym(",")), Token(true, Sym("(")), Token(false, Word("nextval"))])
  {
    var z := [Token(false, Sym(")")), Token(false, Sym(",")), Token(true, Sym("(")), Token(false, Word("nextval"))];
    ModeFirst(z, true);
  }

  lemma ValuesRewrite16()
    ensures Rewrite([Token(false, Sym(",")), Token(true, Sym("(")), Token(false, Word("nextval"))], true) == Edit([Token(false, Sym(","))], 1)
    ensures Mode([Token(false, Sym(",")), Token(true, Sym("(")), Token(false, Word("nextval"))][..1], true) == true && PlainEnd([Token(false, Sym(",")), Token(true, Sym("(")), Token(false, Word("nextval"))])
  {
    var z := [Token(false, Sym(",")), Token(true, Sym("(")), Token(false, Word("nextval"))];
    ModeFirst(z, true);
  }

  lemma ValuesRewrite17()
    ensures Rewrite([Token(true, Sym("(")), Token(false, Word("nextval"))], true) == Edit([Token(true, Sym("("))], 1)
    ensures Mode([Token(true, Sym("(")), Token(false, Word("nextval"))][..1], true) == true && PlainEnd([Token(true, Sym("(")), Token(false, Word("nextval"))])
  {
    var z := [Token(true, Sym("(")), Token(false, Word("nextval"))];
    ModeFirst(z, true);
  }

  lemma ValuesRewrite18()
    ensures Rewrite([Token(false, Word("nextval"))], true) == Edit([Token(false, Word("nextval"))], 1)
    ensures Mode([Token(false, Word("nextval"))][..1], true) == true && PlainEnd([Token(false, Word("nextval"))])
  {
    var z := [Token(false, Word("nextval"))];
    ModeFirst(z, true);
  }

  lemma ValuesWindow14(ts: seq<Token>, out: seq<Token>)
    requires Agrees(ts, ValuesTokens) && Agrees(out, ValuesMasked)
    ensures |ts| == 30 && |out| == 30
    ensures ts[14..15] == [Token(true, Word("DEFAULT"))]
    ensures out[14..15] == [Token(true, Word("DEFAULT"))]
  {
    assert ts[14] == ValuesTokens[14] == Token(true, Word("DEFAULT"));
    assert out[14] == ValuesMasked[14] == Token(true, Word("DEFAULT"));
  }

  lemma ValuesWindow15(ts: seq<Token>, out: seq<Token>)
    requires Agrees(ts, ValuesTokens) && Agrees(out, ValuesMasked)
    ensures |ts| == 30 && |out| == 30
    ensures ts[15..19] == [Token(false, Sym(")")), Token(false, Sym(",")), Token(true, Sym("(")), Token(false, Word("nextval"))]
    ensures out[15..16] == [Token(false, Sym(")"))]
  {
    assert ts[15] == ValuesTokens[15] == Token(false, Sym(")"));
    assert ts[16] == ValuesTokens[16] == Token(false, Sym(","));
    assert ts[17] == ValuesTokens[17] == Token(true, Sym("("));
    assert ts[18] == ValuesTokens[18] == Token(false, Word("nextval"));
    assert out[15] == ValuesMasked[15] == Token(false, Sym(")"));
  }

  lemma ValuesWindow16(ts: seq<Token>, out: seq<Token>)
    requires Agrees(ts, ValuesTokens) && Agrees(out, ValuesMasked)
    ensures |ts| == 30 && |out| == 30
    ensures ts[16..19] == [Token(false, Sym(",")), Token(true, Sym("(")), Token(false, Word("nextval"))]
    ensures out[16..17] == [Token(false, Sym(","))]
  {
    assert ts[16] == ValuesTokens[16] == Token(false, Sym(","));
    assert ts[17] == ValuesTokens[17] == Token(true, Sym("("));
    assert ts[18] == ValuesTokens[18] == Token(false, Word("nextval"));
    assert out[16] == ValuesMasked[16] == Token(false, Sym(","));
  }

  lemma ValuesWindow17(ts: seq<Token>, out: seq<Token>)
    requires Agrees(ts, ValuesTokens) && Agrees(out, ValuesMasked)
    ensures |ts| == 30 && |out| == 30
    ensures ts[17..19] == [Token(true, Sym("(")), Token(false, Word("nextval"))]
    ensures out[17..18] == [Token(true, Sym("("))]
  {
    assert ts[17] == ValuesTokens[17] == Token(true, Sym("("));
    assert ts[18] == ValuesTokens[18] == Token(false, Word("nextval"));
    assert out[17] == ValuesMasked[17] == Token(true, Sym("("));
  }

  lemma ValuesWindow18(ts: seq<Token>, out: seq<Token>)
    requires Agrees(ts, ValuesTokens) && Agrees(out, ValuesMasked)
    ensures |ts| == 30 && |out| == 30
    ensures ts[18..19] == [Token(false, Word("nextval"))]
    ensures out[18..19] == [Token(false, Word("nextval"))]
  {
    assert ts[18] == ValuesTokens[18] == Token(false, Word("nextval"));
    assert out[18] == ValuesMasked[18] == Token(false, Word("nextval"));
  }

  lemma ValuesStep14(ts: seq<Token>, out: seq<Token>)
    requires Agrees(ts, ValuesTokens) && Agrees(out, ValuesMasked)
    requires MaskedFrom(ts, out, 15, 15, true)
    ensures MaskedFrom(ts, out, 14, 14, true)
  {
    ValuesRewrite14();
    ValuesWindow14(ts, out);
    MaskAt(ts, out, 14, 14, true,
      [Token(true, Word("DEFAULT"))],
      Step([Token(true, Word("DEFAULT"))], 1, true));
  }

  lemma ValuesStep15(ts: seq<Token>, out: seq<Token>)
    requires Agrees(ts, ValuesTokens) && Agrees(out, ValuesMasked)
    requires MaskedFrom(ts, out, 16, 16, true)
    ensures MaskedFrom(ts, out, 15, 15, true)
  {
    ValuesRewrite15();
    ValuesWindow15(ts, out);
    MaskAt(ts, out, 15, 15, true,
      [Token(false, Sym(")")), Token(false, Sym(",")), Token(true, Sym("(")), Token(false, Word("nextval"))],
      Step([Token(false, Sym(")"))], 1, true));
  }

  lemma ValuesStep16(ts: seq<Token>, out: seq<Token>)
    requires Agrees(ts, ValuesTokens) && Agrees(out, ValuesMasked)
    requires MaskedFrom(ts, out, 17, 17, true)
    ensures MaskedFrom(ts, out, 16, 16, true)
  {
    ValuesRewrite16();
    ValuesWindow16(ts, out);
    MaskAt(ts, out, 16, 16, true,
      [Token(false, Sym(",")), Token(true, Sym("(")), Token(false, Word("nextval"))],
      Step([Token(false, Sym(","))], 1, true));
  }

  lemma ValuesStep17(ts: seq<Token>, out: seq<Token>)
    requires Agrees(ts, ValuesTokens) && Agrees(out, ValuesMasked)
    requires MaskedFrom(ts, out, 18, 18, true)
    ensures MaskedFrom(ts, out, 17, 17, true)
  {
    ValuesRewrite17();
    ValuesWindow17(ts, out);
    MaskAt(ts, out, 17, 17, true,
      [Token(true, Sym("(")), Token(false, Word("nextval"))],
      Step([Token(true, Sym("("))], 1, true));
  }

  lemma ValuesStep18(ts: seq<Token>, out: seq<Token>)
    requires Agrees(ts, ValuesTokens) && Agrees(out, ValuesMasked)
    requires MaskedFrom(ts, out, 19, 19, true)
    ensures MaskedFrom(ts, out, 18, 18, true)
  {
    ValuesRewrite18();
    ValuesWindow18(ts, out);
    MaskAt(ts, out, 18, 18, true,
      [Token(false, Word("nextval"))],
      Step([Token(false, Word("nextval"))], 1, true));
  }

  lemma ValuesRewrite5()
    ensures Rewrite([Token(false, Word("nextval"))], true) == Edit([Token(false, Word("nextval"))], 1)
    ensures Mode([Token(false, Word("nextval"))][..1], true) == true && PlainEnd([Token(false, Word("nextval"))])
  {
    var z := [Token(false, Word("nextval"))];
    ModeFirst(z, true);
  }

  lemma ValuesRewrite6()
    ensures Rewrite([Token(false, Sym("(")), Token(false, Quoted("id_seq")), Token(false, Sym(")")), Token(false, Sym(",")), Token(true, Quoted("a")), Token(false, Sym(",")), Token(true, Num("105")), Token(false, Sym(",")), Token(true, Word("DEFAULT"))], true) == Edit([Token(false, Sym("(")), Token(false, Masked), Token(false, Sym(")"))], 3)
    ensures Mode([Token(false, Sym("(")), Token(false, Quoted("id_seq")), Token(false, Sym(")")), Token(false, Sym(",")), Token(true, Quoted("a")), Token(false, Sym(",")), Token(true, Num("105")), Token(false, Sym(",")), Token(true, Word("DEFAULT"))][..3], true) == true && PlainEnd([Token(false, Sym("(")), Token(false, Quoted("id_seq")), Token(false, Sym(")")), Token(false, Sym(",")), Token(true, Quoted("a")), Token(false, Sym(",")), Token(true, Num("105")), Token(false, Sym(",")), Token(true, Word("DEFAULT"))])
  {
    var z := [Token(false, Sym("(")), Token(false, Quoted("id_seq")), Token(false, Sym(")")), Token(false, Sym(",")), Token(true, Quoted("a")), Token(false, Sym(",")), Token(true, Num("105")), Token(false, Sym(",")), Token(true, Word("DEFAULT"))];
    ListTailOf(z[1..], 2);
    QuietMode(z[..3], true);
  }

  lemma ValuesRewrite9()
    ensures Rewrite([Token(false, Sym(",")), Token(true, Quoted("a")), Token(false, Sym(",")), Token(true, Num("105")), Token(false, Sym(",")), Token(true, Word("DEFAULT"))], true) == Edit([Token(false, Sym(",")), Token(true, Masked)], 2)
    ensures Mode([Token(false, Sym(",")), Token(true, Quoted("a")), Token(false, Sym(",")), Token(true, Num("105")), Token(false, Sym(",")), Token(true, Word("DEFAULT"))][..2], true) == true && PlainEnd([Token(false, Sym(",")), Token(true, Quoted("a")), Token(false, Sym(",")), Token(true, Num("105")), Token(false, Sym(",")), Token(true, Word("DEFAULT"))])
  {
    var z := [Token(false, Sym(",")), Token(true, Quoted("a")), Token(false, Sym(",")), Token(true, Num("105")), Token(false, Sym(",")), Token(true, Word("DEFAULT"))];
    QuietMode(z[..2], true);
  }

  lemma ValuesRewrite11()
    ensures Rewrite([Token(false, Sym(",")), Token(true, Num("105")), Token(false, Sym(",")), Token(true, Word("DEFAULT"))], true) == Edit([Token(false, Sym(",")), Token(true, Masked)], 2)
    ensures Mode([Token(false, Sym(",")), Token(true, Num("105")), Token(false, Sym(",")), Token(true, Word("DEFAULT"))][..2], true) == true && PlainEnd([Token(false, Sym(",")), Token(true, Num("105")), Token(false, Sym(",")), Token(true, Word("DEFAULT"))])
  {
    var z := [Token(false, Sym(",")), Token(true, Num("105")), Token(false, Sym(",")), Token(true, Word("DEFAULT"))];
    QuietMode(z[..2], true);
  }

  lemma ValuesRewrite13()
    ensures Rewrite([Token(false, Sym(",")), Token(true, Word("DEFAULT"))], true) == Edit([Token(false, Sym(","))], 1)
    ensures Mode([Token(false, Sym(",")), Token(true, Word("DEFAULT"))][..1], true) == true && PlainEnd([Token(false, Sym(",")), Token(true, Word("DEFAULT"))])
  {
    var z := [Token(false, Sym(",")), Token(true, Word("DEFAULT"))];
    ModeFirst(z, true);
  }

  lemma ValuesWindow5(ts: seq<Token>, out: seq<Token>)
    requires Agrees(ts, ValuesTokens) && Agrees(out, ValuesMasked)
    ensures |ts| == 30 && |out| == 30
    ensures ts[5..6] == [Token(false, Word("nextval"))]
    ensures out[5..6] == [Token(false, Word("nextval"))]
  {
    assert ts[5] == ValuesTokens[5] == Token(false, Word("nextval"));
    assert out[5] == ValuesMasked[5] == Token(false, Word("nextval"));
  }

  lemma ValuesWindow6(ts: seq<Token>, out: seq<Token>)
    requires Agrees(ts, ValuesTokens) && Agrees(out, ValuesMasked)
    ensures |ts| == 30 && |out| == 30
    ensures ts[6..15] == [Token(false, Sym("(")), Token(false, Quoted("id_seq")), Token(false, Sym(")")), Token(false, Sym(",")), Token(true, Quoted("a")), Token(false, Sym(",")), Token(true, Num("105")), Token(false, Sym(",")), Token(true, Word("DEFAULT"))]
    ensures out[6..9] == [Token(false, Sym("(")), Token(false, Masked), Token(false, Sym(")"))]
  {
    assert ts[6] == ValuesTokens[6] == Token(false, Sym("("));
    assert ts[7] == ValuesTokens[7] == Token(false, Quoted("id_seq"));
    assert ts[8] == ValuesTokens[8] == Token(false, Sym(")"));
    assert ts[9] == ValuesTokens[9] == Token(false, Sym(","));
    assert ts[10] == ValuesTokens[10] == Token(true, Quoted("a"));
    assert ts[11] == ValuesTokens[11] == Token(false, Sym(","));
    assert ts[12] == ValuesTokens[12] == Token(true, Num("105"));
    assert ts[13] == ValuesTokens[13] == Token(false, Sym(","));
    assert ts[14] == ValuesTokens[14] == Token(true, Word("DEFAULT"));
    assert out[6] == ValuesMasked[6] == Token(false, Sym("("));
    assert out[7] == ValuesMasked[7] == Token(false, Masked);
    assert out[8] == ValuesMasked[8] == Token(false, Sym(")"));
  }

  lemma ValuesWindow9(ts: seq<Token>, out: seq<Token>)
    requires Agrees(ts, ValuesTokens) && Agrees(out, ValuesMasked)
    ensures |ts| == 30 && |out| == 30
    ensures ts[9..15] == [Token(false, Sym(",")), Token(true, Quoted("a")), Token(false, Sym(",")), Token(true, Num("105")), Token(false, Sym(",")), Token(true, Word("DEFAULT"))]
    ensures out[9..11] == [Token(false, Sym(",")), Token(true, Masked)]
  {
    assert ts[9] == ValuesTokens[9] == Token(false, Sym(","));
    assert ts[10] == ValuesTokens[10] == Token(true, Quoted("a"));
    assert ts[11] == ValuesTokens[11] == Token(false, Sym(","));
    assert ts[12] == ValuesTokens[12] == Token(true, Num("105"));
    assert ts[13] == ValuesTokens[13] == Token(false, Sym(","));
    assert ts[14] == ValuesTokens[14] == Token(true, Word("DEFAULT"));
    assert out[9] == ValuesMasked[9] == Token(false, Sym(","));
    assert out[10] == ValuesMasked[10] == Token(true, Masked);
  }

  lemma ValuesWindow11(ts: seq<Token>, out: seq<Token>)
    requires Agrees(ts, ValuesTokens) && Agrees(out, ValuesMasked)
    ensures |ts| == 30 && |out| == 30
    ensures ts[11..15] == [Token(false, Sym(",")), Token(true, Num("105")), Token(false, Sym(",")), Token(true, Word("DEFAULT"))]
    ensures out[11..13] == [Token(false, Sym(",")), Token(true, Masked)]
  {
    assert ts[11] == ValuesTokens[11] == Token(false, Sym(","));
    assert ts[12] == ValuesTokens[12] == Token(true, Num("105"));
    assert ts[13] == ValuesTokens[13] == Token(false, Sym(","));
    assert ts[14] == ValuesTokens[14] == Token(true, Word("DEFAULT"));
    assert out[11] == ValuesMasked[11] == Token(false, Sym(","));
    assert out[12] == ValuesMasked[12] == Token(true, Masked);
  }

  lemma ValuesWindow13(ts: seq<Token>, out: seq<Token>)
    requires Agrees(ts, ValuesTokens) && Agrees(out, ValuesMasked)
    ensures |ts| == 30 && |out| == 30
    ensures ts[13..15] == [Token(false, Sym(",")), Token(true, Word("DEFAULT"))]
    ensures out[13..14] == [Token(false, Sym(","))]
  {
    assert ts[13] == ValuesTokens[13] == Token(false, Sym(","));
    assert ts[14] == ValuesTokens[14] == Token(true, Word("DEFAULT"));
    assert out[13] == ValuesMasked[13] == Token(false, Sym(","));
  }

  lemma ValuesStep5(ts: seq<Token>, out: seq<Token>)
    requires Agrees(ts, ValuesTokens) && Agrees(out, ValuesMasked)
    requires MaskedFrom(ts, out, 6, 6, true)
    ensures MaskedFrom(ts, out, 5, 5, true)
  {
    ValuesRewrite5();
    ValuesWindow5(ts, out);
    MaskAt(ts, out, 5, 5, true,
      [Token(false, Word("nextval"))],
      Step([Token(false, Word("nextval"))], 1, true));
  }

  lemma ValuesStep6(ts: seq<Token>, out: seq<Token>)
    requires Agrees(ts, ValuesTokens) && Agrees(out, ValuesMasked)
    requires MaskedFrom(ts, out, 9, 9, true)
    ensures MaskedFrom(ts, out, 6, 6, true)
  {
    ValuesRewrite6();
    ValuesWindow6(ts, out);
    MaskAt(ts, out, 6, 6, true,
      [Token(false, Sym("(")), Token(false, Quoted("id_seq")), Token(false, Sym(")")), Token(false, Sym(",")), Token(true, Quoted("a")), Token(false, Sym(",")), Token(true, Num("105")), Token(false, Sym(",")), Token(true, Word("DEFAULT"))],
      Step([Token(false, Sym("(")), Token(false, Masked), Token(false, Sym(")"))], 3, true));
  }

  lemma ValuesStep9(ts: seq<Token>, out: seq<Token>)
    requires Agrees(ts, ValuesTokens) && Agrees(out, ValuesMasked)
    requires MaskedFrom(ts, out, 11, 11, true)
    ensures MaskedFrom(ts, out, 9, 9, true)
  {
    ValuesRewrite9();
    ValuesWindow9(ts, out);
    MaskAt(ts, out, 9, 9, true,
      [Token(false, Sym(",")), Token(true, Quoted("a")), Token(false, Sym(",")), Token(true, Num("105")), Token(false, Sym(",")), Token(true, Word("DEFAULT"))],
      Step([Token(false, Sym(",")), Token(true, Masked)], 2, true));
  }

  lemma ValuesStep11(ts: seq<Token>, out: seq<Token>)
    requires Agrees(ts, ValuesTokens) && Agrees(out, ValuesMasked)
    requires MaskedFrom(ts, out, 13, 13, true)
    ensures MaskedFrom(ts, out, 11, 11, true)
  {
    ValuesRewrite11();
    ValuesWindow11(ts, out);
    MaskAt(ts, out, 11, 11, true,
      [Token(false, Sym(",")), Token(true, Num("105")), Token(false, Sym(",")), Token(true, Word("DEFAULT"))],
      Step([Token(false, Sym(",")), Token(true, Masked)], 2, true));
  }

  lemma ValuesStep13(ts: seq<Token>, out: seq<Token>)
    requires Agrees(ts, ValuesTokens) && Agrees(out, ValuesMasked)
    requires MaskedFrom(ts, out, 14, 14, true)
    ensures MaskedFrom(ts, out, 13, 13, true)
  {
    ValuesRewrite13();
    ValuesWindow13(ts, out);
    MaskAt(ts, out, 13, 13, true,
      [Token(false, Sym(",")), Token(true, Word("DEFAULT"))],
      Step([Token(false, Sym(","))], 1, true));
  }

  lemma ValuesRewrite0()
    ensures Rewrite([Token(false, Word("INSERT"))], false) == Edit([Token(false, Word("INSERT"))], 1)
    ensures Mode([Token(false, Word("INSERT"))][..1], false) == false && PlainEnd([Token(false, Word("INSERT"))])
  {
    var z := [Token(false, Word("INSERT"))];
    ModeFirst(z, false);
  }

  lemma ValuesRewrite1()
    ensures Rewrite([Token(true, Word("INTO"))], false) == Edit([Token(true, Word("INTO"))], 1)
    ensures Mode([Token(true, Word("INTO"))][..1], false) == false && PlainEnd([Token(true, Word("INTO"))])
  {
    var z := [Token(true, Word("INTO"))];
    ModeFirst(z, false);
  }

  lemma ValuesRewrite2()
    ensures Rewrite([Token(true, Word("users"))], false) == Edit([Token(true, Word("users"))], 1)
    ensures Mode([Token(true, Word("users"))][..1], false) == false && PlainEnd([Token(true, Word("users"))])
  {
    var z := [Token(true, Word("users"))];
    ModeFirst(z, false);
  }

  lemma ValuesRewrite3()
    ensures Rewrite([Token(true, Word("VALUES"))], false) == Edit([Token(true, Word("VALUES"))], 1)
    ensures Mode([Token(true, Word("VALUES"))][..1], false) == true && PlainEnd([Token(true, Word("VALUES"))])
  {
    var z := [Token(true, Word("VALUES"))];
    ModeFirst(z, false);
  }

  lemma ValuesRewrite4()
    ensures Rewrite([Token(true, Sym("(")), Token(false, Word("nextval"))], true) == Edit([Token(true, Sym("("))], 1)
    ensures Mode([Token(true, Sym("(")), Token(false, Word("nextval"))][..1], true) == true && PlainEnd([Token(true, Sym("(")), Token(false, Word("nextval"))])
  {
    var z := [Token(true, Sym("(")), Token(false, Word("nextval"))];
    ModeFirst(z, true);
  }

  lemma ValuesWindow0(ts: seq<Token>, out: seq<Token>)
    requires Agrees(ts, ValuesTokens) && Agrees(out, ValuesMasked)
    ensures |ts| == 30 && |out| == 30
    ensures ts[0..1] == [Token(false, Word("INSERT"))]
    ensures out[0..1] == [Token(false, Word("INSERT"))]
  {
    assert ts[0] == ValuesTokens[0] == Token(false, Word("INSERT"));
    assert out[0] == ValuesMasked[0] == Token(false, Word("INSERT"));
  }

  lemma ValuesWindow1(ts: seq<Token>, out: seq<Token>)
    requires Agrees(ts, ValuesTokens) && Agrees(out, ValuesMasked)
    ensures |ts| == 30 && |out| == 30
    ensures ts[1..2] == [Token(true, Word("INTO"))]
    ensures out[1..2] == [Token(true, Word("INTO"))]
  {
    assert ts[1] == ValuesTokens[1] == Token(true, Word("INTO"));
    assert out[1] == ValuesMasked[1] == Token(true, Word("INTO"));
  }

  lemma ValuesWindow2(ts: seq<Token>, out: seq<Token>)
    requires Agrees(ts, ValuesTokens) && Agrees(out, ValuesMasked)
    ensures |ts| == 30 && |out| == 30
    ensures ts[2..3] == [Token(true, Word("users"))]
    ensures out[2..3] == [Token(true, Word("users"))]
  {
    assert ts[2] == ValuesTokens[2] == Token(true, Word("users"));
    assert out[2] == ValuesMasked[2] == Token(true, Word("users"));
  }

  lemma ValuesWindow3(ts: seq<Token>, out: seq<Token>)
    requires Agrees(ts, ValuesTokens) && Agrees(out, ValuesMasked)
    ensures |ts| == 30 && |out| == 30
    ensures ts[3..4] == [Token(true, Word("VALUES"))]
    ensures out[3..4] == [Token(true, Word("VALUES"))]
  {
    assert ts[3] == ValuesTokens[3] == Token(true, Word("VALUES"));
    assert out[3] == ValuesMasked[3] == Token(true, Word("VALUES"));
  }

  lemma ValuesWindow4(ts: seq<Token>, out: seq<Token>)
    requires Agrees(ts, ValuesTokens) && Agrees(out, ValuesMasked)
    ensures |ts| == 30 && |out| == 30
    ensures ts[4..6] == [Token(true, Sym("(")), Token(false, Word("nextval"))]
    ensures out[4..5] == [Token(true, Sym("("))]
  {
    assert ts[4] == ValuesTokens[4] == Token(true, Sym("("));
    assert ts[5] == ValuesTokens[5] == Token(false, Word("nextval"));
    assert out[4] == ValuesMasked[4] == Token(true, Sym("("));
  }

  lemma ValuesStep0(ts: seq<Token>, out: seq<Token>)
    requires Agrees(ts, ValuesTokens) && Agrees(out, ValuesMasked)
    requires MaskedFrom(ts, out, 1, 1, false)
    ensures MaskedFrom(ts, out, 0, 0, false)
  {
    ValuesRewrite0();
    ValuesWindow0(ts, out);
    MaskAt(ts, out, 0, 0, false,
      [Token(false, Word("INSERT"))],
      Step([Token(false, Word("INSERT"))], 1, false));
  }

  lemma ValuesStep1(ts: seq<Token>, out: seq<Token>)
    requires Agrees(ts, ValuesTokens) && Agrees(out, ValuesMasked)
    requires MaskedFrom(ts, out, 2, 2, false)
    ensures MaskedFrom(ts, out, 1, 1, false)
  {
    ValuesRewrite1();
    ValuesWindow1(ts, out);
    MaskAt(ts, out, 1, 1, false,
      [Token(true, Word("INTO"))],
      Step([Token(true, Word("INTO"))], 1, false));
  }

  lemma ValuesStep2(ts: seq<Token>, out: seq<Token>)
    requires Agrees(ts, ValuesTokens) && Agrees(out, ValuesMasked)
    requires MaskedFrom(ts, out, 3, 3, false)
    ensures MaskedFrom(ts, out, 2, 2, false)
  {
    ValuesRewrite2();
    ValuesWindow2(ts, out);
    MaskAt(ts, out, 2, 2, false,
      [Token(true, Word("users"))],
      Step([Token(true, Word("users"))], 1, false));
  }

  lemma ValuesStep3(ts: seq<Token>, out: seq<Token>)
    requires Agrees(ts, ValuesTokens) && Agrees(out, ValuesMasked)
    requires MaskedFrom(ts, out, 4, 4, true)
    ensures MaskedFrom(ts, out, 3, 3, false)
  {
    ValuesRewrite3();
    ValuesWindow3(ts, out);
    MaskAt(ts, out, 3, 3, false,
      [Token(true, Word("VALUES"))],
      Step([Token(true, Word("VALUES"))], 1, true));
  }

  lemma ValuesStep4(ts: seq<Token>, out: seq<Token>)
    requires Agrees(ts, ValuesTokens) && Agrees(out, ValuesMasked)
    requires MaskedFrom(ts, out, 5, 5, true)
    ensures MaskedFrom(ts, out, 4, 4, true)
  {
    ValuesRewrite4();
    ValuesWindow4(ts, out);
    MaskAt(ts, out, 4, 4, true,
      [Token(true, Sym("(")), Token(false, Word("nextval"))],
      Step([Token(true, Sym("("))], 1, true));
  }

  lemma ValuesMasking(ts: seq<Token>, out: seq<Token>)
    requires Agrees(ts, ValuesTokens) && Agrees(out, ValuesMasked)
    ensures MaskedFrom(ts, out, 0, 0, false)
  {
    ValuesStep29(ts, out);
    ValuesStep28(ts, out);
    ValuesStep27(ts, out);
    ValuesStep26(ts, out);
    ValuesStep24(ts, out);
    ValuesStep22(ts, out);
    ValuesStep19(ts, out);
    ValuesStep18(ts, out);
    ValuesStep17(ts, out);
    ValuesStep16(ts, out);
    ValuesStep15(ts, out);
    ValuesStep14(ts, out);
    ValuesStep13(ts, out);
    ValuesStep11(ts, out);
    ValuesStep9(ts, out);
    ValuesStep6(ts, out);
    ValuesStep5(ts, out);
    ValuesStep4(ts, out);
    ValuesStep3(ts, out);
    ValuesStep2(ts, out);
    ValuesStep1(ts, out);
    ValuesStep0(ts, out);
  }

  lemma ValuesOutput1(out: seq<Token>, es: seq<string>)
    requires Agrees(out, ValuesMasked) && Agrees(es, ValuesCleaned)
    ensures |out| == 30 && |es| == 30
    ensures es[0] == RenderToken(out[0])
    ensures es[1] == RenderToken(out[1])
    ensures es[2] == RenderToken(out[2])
    ensures es[3] == RenderToken(out[3])
  {
    assert out[0] == ValuesMasked[0] == Token(false, Word("INSERT"));
    assert es[0] == ValuesCleaned[0] == "INSERT";
    assert out[1] == ValuesMasked[1] == Token(true, Word("INTO"));
    assert es[1] == ValuesCleaned[1] == " INTO";
    assert out[2] == ValuesMasked[2] == Token(true, Word("users"));
    assert es[2] == ValuesCleaned[2] == " users";
    assert out[3] == ValuesMasked[3] == Token(true, Word("VALUES"));
    assert es[3] == ValuesCleaned[3] == " VALUES";
  }

  lemma ValuesRendered1(out: seq<Token>, es: seq<string>)
    requires Agrees(out, ValuesMasked) && Agrees(es, ValuesCleaned)
    ensures Rendered(out, es, 4)
  {
    ValuesOutput1(out, es);
    RenderedStart(out, es);
    RenderedNext(out, es, 0);
    RenderedNext(out, es, 1);
    RenderedNext(out, es, 2);
    RenderedNext(out, es, 3);
  }

  lemma ValuesOutput2(out: seq<Token>, es: seq<string>)
    requires Agrees(out, ValuesMasked) && Agrees(es, ValuesCleaned)
    ensures |out| == 30 && |es| == 30
    ensures es[4] == RenderToken(out[4])
    ensures es[5] == RenderToken(out[5])
    ensures es[6] == RenderToken(out[6])
    ensures es[7] == RenderToken(out[7])
  {
    assert out[4] == ValuesMasked[4] == Token(true, Sym("("));
    assert es[4] == ValuesCleaned[4] == " (";
    assert out[5] == ValuesMasked[5] == Token(false, Word("nextval"));
    assert es[5] == ValuesCleaned[5] == "nextval";
    assert out[6] == ValuesMasked[6] == Token(false, Sym("("));
    assert es[6] == ValuesCleaned[6] == "(";
    assert out[7] == ValuesMasked[7] == Token(false, Masked);
    assert es[7] == ValuesCleaned[7] == "???";
  }

  lemma ValuesRendered2(out: seq<Token>, es: seq<string>)
    requires Agrees(out, ValuesMasked) && Agrees(es, ValuesCleaned)
    requires Rendered(out, es, 4)
    ensures Rendered(out, es, 8)
  {
    ValuesOutput2(out, es);
    RenderedNext(out, es, 4);
    RenderedNext(out, es, 5);
    RenderedNext(out, es, 6);
    RenderedNext(out, es, 7);
  }

  lemma ValuesOutput3(out: seq<Token>, es: seq<string>)
    requires Agrees(out, ValuesMasked) && Agrees(es, ValuesCleaned)
    ensures |out| == 30 && |es| == 30
    ensures es[8] == RenderToken(out[8])
    ensures es[9] == RenderToken(out[9])
    ensures es[10] == RenderToken(out[10])
    ensures es[11] == RenderToken(out[11])
  {
    assert out[8] == ValuesMasked[8] == Token(false, Sym(")"));
    assert es[8] == ValuesCleaned[8] == ")";
    assert out[9] == ValuesMasked[9] == Token(false, Sym(","));
    assert es[9] == ValuesCleaned[9] == ",";
    assert out[10] == ValuesMasked[10] == Token(true, Masked);
    assert es[10] == ValuesCleaned[10] == " ???";
    assert out[11] == ValuesMasked[11] == Token(false, Sym(","));
    assert es[11] == ValuesCleaned[11] == ",";
  }

  lemma ValuesRendered3(out: seq<Token>, es: seq<string>)
    requires Agrees(out, ValuesMasked) && Agrees(es, ValuesCleaned)
    requires Rendered(out, es, 8)
    ensures Rendered(out, es, 12)
  {
    ValuesOutput3(out, es);
    RenderedNext(out, es, 8);
    RenderedNext(out, es, 9);
    RenderedNext(out, es, 10);
    RenderedNext(out, es, 11);
  }

  lemma ValuesOutput4(out: seq<Token>, es: seq<string>)
    requires Agrees(out, ValuesMasked) && Agrees(es, ValuesCleaned)
    ensures |out| == 30 && |es| == 30
    ensures es[12] == RenderToken(out[12])
    ensures es[13] == RenderToken(out[13])
    ensures es[14] == RenderToken(out[14])
    ensures es[15] == RenderToken(out[15])
  {
    assert out[12] == ValuesMasked[12] == Token(true, Masked);
    assert es[12] == ValuesCleaned[12] == " ???";
    assert out[13] == ValuesMasked[13] == Token(false, Sym(","));
    assert es[13] == ValuesCleaned[13] == ",";
    assert out[14] == ValuesMasked[14] == Token(true, Word("DEFAULT"));
    assert es[14] == ValuesCleaned[14] == " DEFAULT";
    assert out[15] == ValuesMasked[15] == Token(false, Sym(")"));
    assert es[15] == ValuesCleaned[15] == ")";
  }

  lemma ValuesRendered4(out: seq<Token>, es: seq<string>)
    requires Agrees(out, ValuesMasked) && Agrees(es, ValuesCleaned)
    requires Rendered(out, es, 12)
    ensures Rendered(out, es, 16)
  {
    ValuesOutput4(out, es);
    RenderedNext(out, es, 12);
    RenderedNext(out, es, 13);
    RenderedNext(out, es, 14);
    RenderedNext(out, es, 15);
  }

  lemma ValuesOutput5(out: seq<Token>, es: seq<string>)
    requires Agrees(out, ValuesMasked) && Agrees(es, ValuesCleaned)
    ensures |out| == 30 && |es| == 30
    ensures es[16] == RenderToken(out[16])
    ensures es[17] == RenderToken(out[17])
    ensures es[18] == RenderToken(out[18])
    ensures es[19] == RenderToken(out[19])
  {
    assert out[16] == ValuesMasked[16] == Token(false, Sym(","));
    assert es[16] == ValuesCleaned[16] == ",";
    assert out[17] == ValuesMasked[17] == Token(true, Sym("("));
    assert es[17] == ValuesCleaned[17] == " (";
    assert out[18] == ValuesMasked[18] == Token(false, Word("nextval"));
    assert es[18] == ValuesCleaned[18] == "nextval";
    assert out[19] == ValuesMasked[19] == Token(false, Sym("("));
    assert es[19] == ValuesCleaned[19] == "(";
  }

  lemma ValuesRendered5(out: seq<Token>, es: seq<string>)
    requires Agrees(out, ValuesMasked) && Agrees(es, ValuesCleaned)
    requires Rendered(out, es, 16)
    ensures Rendered(out, es, 20)
  {
    ValuesOutput5(out, es);
    RenderedNext(out, es, 16);
    RenderedNext(out, es, 17);
    RenderedNext(out, es, 18);
    RenderedNext(out, es, 19);
  }

  lemma ValuesOutput6(out: seq<Token>, es: seq<string>)
    requires Agrees(out, ValuesMasked) && Agrees(es, ValuesCleaned)
    ensures |out| == 30 && |es| == 30
    ensures es[20] == RenderToken(out[20])
    ensures es[21] == RenderToken(out[21])
    ensures es[22] == RenderToken(out[22])
    ensures es[23] == RenderToken(out[23])
  {
    assert out[20] == ValuesMasked[20] == Token(false, Masked);
    assert es[20] == ValuesCleaned[20] == "???";
    assert out[21] == ValuesMasked[21] == Token(false, Sym(")"));
    assert es[21] == ValuesCleaned[21] == ")";
    assert out[22] == ValuesMasked[22] == Token(false, Sym(","));
    assert es[22] == ValuesCleaned[22] == ",";
    assert out[23] == ValuesMasked[23] == Token(true, Masked);
    assert es[23] == ValuesCleaned[23] == " ???";
  }

  lemma ValuesRendered6(out: seq<Token>, es: seq<string>)
    requires Agrees(out, ValuesMasked) && Agrees(es, ValuesCleaned)
    requires Rendered(out, es, 20)
    ensures Rendered(out, es, 24)
  {
    ValuesOutput6(out, es);
    RenderedNext(out, es, 20);
    RenderedNext(out, es, 21);
    RenderedNext(out, es, 22);
    RenderedNext(out, es, 23);
  }

  lemma ValuesOutput7(out: seq<Token>, es: seq<string>)
    requires Agrees(out, ValuesMasked) && Agrees(es, ValuesCleaned)
    ensures |out| == 30 && |es| == 30
    ensures es[24] == RenderToken(out[24])
    ensures es[25] == RenderToken(out[25])
    ensures es[26] == RenderToken(out[26])
    ensures es[27] == RenderToken(out[27])
  {
    assert out[24] == ValuesMasked[24] == Token(false, Sym(","));
    assert es[24] == ValuesCleaned[24] == ",";
    assert out[25] == ValuesMasked[25] == Token(true, Masked);
    assert es[25] == ValuesCleaned[25] == " ???";
    assert out[26] == ValuesMasked[26] == Token(false, Sym(","));
    assert es[26] == ValuesCleaned[26] == ",";
    assert out[27] == ValuesMasked[27] == Token(true, Word("DEFAULT"));
    assert es[27] == ValuesCleaned[27] == " DEFAULT";
  }

  lemma ValuesRendered7(out: seq<Token>, es: seq<string>)
    requires Agrees(out, ValuesMasked) && Agrees(es, ValuesCleaned)
    requires Rendered(out, es, 24)
    ensures Rendered(out, es, 28)
  {
    ValuesOutput7(out, es);
    RenderedNext(out, es, 24);
    RenderedNext(out, es, 25);
    RenderedNext(out, es, 26);
    RenderedNext(out, es, 27);
  }

  lemma ValuesOutput8(out: seq<Token>, es: seq<string>)
    requires Agrees(out, ValuesMasked) && Agrees(es, ValuesCleaned)
    ensures |out| == 30 && |es| == 30
    ensures es[28] == RenderToken(out[28])
    ensures es[29] == RenderToken(out[29])
  {
    assert out[28] == ValuesMasked[28] == Token(false, Sym(")"));
    assert es[28] == ValuesCleaned[28] == ")";
    assert out[29] == ValuesMasked[29] == Token(false, Sym(";"));
    assert es[29] == ValuesCleaned[29] == ";";
  }

  lemma ValuesRendered8(out: seq<Token>, es: seq<string>)
    requires Agrees(out, ValuesMasked) && Agrees(es, ValuesCleaned)
    requires Rendered(out, es, 28)
    ensures Rendered(out, es, 30)
  {
    ValuesOutput8(out, es);
    RenderedNext(out, es, 28);
    RenderedNext(out, es, 29);
  }

  lemma ValuesRendering(out: seq<Token>, es: seq<string>)
    requires Agrees(out, ValuesMasked) && Agrees(es, ValuesCleaned)
    ensures Rendered(out, es, |out|) && |es| == |out|
  {
    ValuesRendered1(out, es);
    ValuesRendered2(out, es);
    ValuesRendered3(out, es);
    ValuesRendered4(out, es);
    ValuesRendered5(out, es);
    ValuesRendered6(out, es);
    ValuesRendered7(out, es);
    ValuesRendered8(out, es);
  }

  lemma ValuesByPieces(qs: seq<string>, ts: seq<Token>, out: seq<Token>, es: seq<string>)
    requires Agrees(qs, ValuesQuery) && Agrees(ts, ValuesTokens)
    requires Agrees(out, ValuesMasked) && Agrees(es, ValuesCleaned)
    ensures CleanSqlQuery(Join(qs)) == Join(es)
  {
    ValuesLexing(qs, ts);
    ValuesMasking(ts, out);
    ValuesRendering(out, es);
    CleanByPieces(qs, ts, out, es);
  }

  lemma CleanValues()
    ensures CleanSqlQuery(Join(ValuesQuery)) == Join(ValuesCleaned)
  {
    ValuesByPieces(ValuesQuery, ValuesTokens, ValuesMasked, ValuesCleaned);
  }
}
