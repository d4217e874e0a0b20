module LowerCaseExample {
  /* A worked example of the masker: keywords are recognised in lower case
     and keep their case in the output. `LowerCaseQuery` is the statement as
     written, cut into pieces of whitespace and one token each, and
     `LowerCaseCleaned` is the expected text cut into the rendered output
     tokens; `LowerCaseTokens` and `LowerCaseMasked` are the tokens before
     and after masking. The proof follows the pieces: each piece lexes to its
     token, each masking step is computed on a short window of tokens that
     ends with an ordinary word, and each output token renders as its
     expected piece. */
  import opened Passes
  import opened SqlText
  import opened SqlLexer
  import opened SqlMasker
  import opened SqlMaskSplit
  import opened SqlPieces

  /** The statement of test_clean_sql_query_is_case_insensitive. */
  const LowerCaseQuery1: seq<string> := ["\n        SELECT", " *", " FROM", " a"]
  const LowerCaseQuery2: seq<string> := ["\n        where", " a.id", " =", " 1", " AND", " a.uid", " !=", " 'bbb'"]
  const LowerCaseQuery3: seq<string> := ["\n        (", "a.num", " >", " 1", " AND", " a.num", " <", " 3", ")", " AND"]
  const LowerCaseQuery4: seq<string> := ["\n        (", "start_date", " >=", " '2010-01-01'", " AND", " end_date", " <=", " '2010-10-01'", ")", " AND"]
  const LowerCaseQuery5: seq<string> := ["\n        a.total", " between", " 0", " and", " 100"]
  const LowerCaseQuery6: seq<string> := ["\n      "]
  const LowerCaseQuery: seq<string> :=
    LowerCaseQuery1 + LowerCaseQuery2 + LowerCaseQuery3 + LowerCaseQuery4 + LowerCaseQuery5 + LowerCaseQuery6

  const LowerCaseCleaned1: seq<string> := ["SELECT", " *", " FROM", " a", " where", " a.id", " =", " ???"]
  const LowerCaseCleaned2: seq<string> := [" AND", " a.uid", " !=", " ???", " (", "a.num", " >", " ???"]
  const LowerCaseCleaned3: seq<string> := [" AND", " a.num", " <", " ???", ")", " AND", " (", "start_date"]
  const LowerCaseCleaned4: seq<string> := [" >=", " ???", " AND", " end_date", " <=", " ???", ")", " AND"]
  const LowerCaseCleaned5: seq<string> := [" a.total", " between", " ???", " and", " ???"]
  const LowerCaseCleaned: seq<string> :=
    LowerCaseCleaned1 + LowerCaseCleaned2 + LowerCaseCleaned3 + LowerCaseCleaned4 + LowerCaseCleaned5

  ghost const LowerCaseTokens1: seq<Token> := [Token(false, Word("SELECT")), Token(true, Sym("*")), Token(true, Word("FROM")), Token(true, Word("a")), Token(true, Word("where")), Token(true, Word("a.id"))]
  ghost const LowerCaseTokens2: seq<Token> := [Token(true, Sym("=")), Token(true, Num("1")), Token(true, Word("AND")), Token(true, Word("a.uid")), Token(true, Sym("!=")), Token(true, Quoted("bbb"))]
  ghost const LowerCaseTokens3: seq<Token> := [Token(true, Sym("(")), Token(false, Word("a.num")), Token(true, Sym(">")), Token(true, Num("1")), Token(true, Word("AND")), Token(true, Word("a.num"))]
  ghost const LowerCaseTokens4: seq<Token> := [Token(true, Sym("<")), Token(true, Num("3")), Token(false, Sym(")")), Token(true, Word("AND")), Token(true, Sym("(")), Token(false, Word("start_date"))]
  ghost const LowerCaseTokens5: seq<Token> := [Token(true, Sym(">=")), Token(true, Quoted("2010-01-01")), Token(true, Word("AND")), Token(true, Word("end_date")), Token(true, Sym("<=")), Token(true, Quoted("2010-10-01"))]
  ghost const LowerCaseTokens6: seq<Token> := [Token(false, Sym(")")), Token(true, Word("AND")), Token(true, Word("a.total")), Token(true, Word("between")), Token(true, Num("0")), Token(true, Word("and"))]
  ghost const LowerCaseTokens7: seq<Token> := [Token(true, Num("100"))]
  ghost const LowerCaseTokens: seq<Token> :=
    LowerCaseTokens1 + LowerCaseTokens2 + LowerCaseTokens3 + LowerCaseTokens4 + LowerCaseTokens5 + LowerCaseTokens6
    + LowerCaseTokens7

  ghost const LowerCaseMasked1: seq<Token> := [Token(false, Word("SELECT")), Token(true, Sym("*")), Token(true, Word("FROM")), Token(true, Word("a")), Token(true, Word("where")), Token(true, Word("a.id"))]
  ghost const LowerCaseMasked2: seq<Token> := [Token(true, Sym("=")), Token(true, Masked), Token(true, Word("AND")), Token(true, Word("a.uid")), Token(true, Sym("!=")), Token(true, Masked)]
  ghost const LowerCaseMasked3: seq<Token> := [Token(true, Sym("(")), Token(false, Word("a.num")), Token(true, Sym(">")), Token(true, Masked), Token(true, Word("AND")), Token(true, Word("a.num"))]
  ghost const LowerCaseMasked4: seq<Token> := [Token(true, Sym("<")), Token(true, Masked), Token(false, Sym(")")), Token(true, Word("AND")), Token(true, Sym("(")), Token(false, Word("start_date"))]
  ghost const LowerCaseMasked5: seq<Token> := [Token(true, Sym(">=")), Token(true, Masked), Token(true, Word("AND")), Token(true, Word("end_date")), Token(true, Sym("<=")), Token(true, Masked)]
  ghost const LowerCaseMasked6: seq<Token> := [Token(false, Sym(")")), Token(true, Word("AND")), Token(true, Word("a.total")), Token(true, Word("between")), Token(true, Masked), Token(true, Word("and"))]
  ghost const LowerCaseMasked7: seq<Token> := [Token(true, Masked)]
  ghost const LowerCaseMasked: seq<Token> :=
    LowerCaseMasked1 + LowerCaseMasked2 + LowerCaseMasked3 + LowerCaseMasked4 + LowerCaseMasked5 + LowerCaseMasked6
    + LowerCaseMasked7

  lemma LowerCasePiece0()
    ensures PieceOf("\n        SELECT", "\n        ", Token(false, Word("SELECT")))
  {
  }

  lemma LowerCasePiece1()
    ensures PieceOf(" *", " ", Token(true, Sym("*")))
    ensures Adjacent(Token(false, Word("SELECT")), Token(true, Sym("*")))
  {
  }

  lemma LowerCasePiece2()
    ensures PieceOf(" FROM", " ", Token(true, Word("FROM")))
    ensures Adjacent(Token(true, Sym("*")), Token(true, Word("FROM")))
  {
  }

  lemma LowerCasePiece3()
    ensures PieceOf(" a", " ", Token(true, Word("a")))
    ensures Adjacent(Token(true, Word("FROM")), Token(true, Word("a")))
  {
  }

  lemma LowerCasePiece4()
    ensures PieceOf("\n        where", "\n        ", Token(true, Word("where")))
    ensures Adjacent(Token(true, Word("a")), Token(true, Word("where")))
  {
  }

  lemma LowerCasePiece5()
    ensures PieceOf(" a.id", " ", Token(true, Word("a.id")))
    ensures Adjacent(Token(true, Word("where")), Token(true, Word("a.id")))
  {
  }

  lemma LowerCasePieces1(qs: seq<string>, ts: seq<Token>)
    requires Agrees(qs, LowerCaseQuery) && Agrees(ts, LowerCaseTokens)
    ensures |qs| == 38 && |ts| == 37
    ensures qs[0] == "\n        SELECT"
    ensures qs[1] == " *"
    ensures qs[2] == " FROM"
    ensures qs[3] == " a"
    ensures qs[4] == "\n        where"
    ensures qs[5] == " a.id"
    ensures ts[0] == Token(false, Word("SELECT"))
    ensures ts[1] == Token(true, Sym("*"))
    ensures ts[2] == Token(true, Word("FROM"))
    ensures ts[3] == Token(true, Word("a"))
    ensures ts[4] == Token(true, Word("where"))
    ensures ts[5] == Token(true, Word("a.id"))
  {
    assert qs[0] == LowerCaseQuery[0];
    assert qs[1] == LowerCaseQuery[1];
    assert qs[2] == LowerCaseQuery[2];
    assert qs[3] == LowerCaseQuery[3];
    assert qs[4] == LowerCaseQuery[4];
    assert qs[5] == LowerCaseQuery[5];
    assert ts[0] == LowerCaseTokens[0];
    assert ts[1] == LowerCaseTokens[1];
    assert ts[2] == LowerCaseTokens[2];
    assert ts[3] == LowerCaseTokens[3];
    assert ts[4] == LowerCaseTokens[4];
    assert ts[5] == LowerCaseTokens[5];
  }

  lemma LowerCaseLexed1(qs: seq<string>, ts: seq<Token>)
    requires Agrees(qs, LowerCaseQuery) && Agrees(ts, LowerCaseTokens)
    ensures Built(qs, ts, 6)
  {
    LowerCasePieces1(qs, ts);
    LowerCasePiece0();
    LowerCasePiece1();
    LowerCasePiece2();
    LowerCasePiece3();
    LowerCasePiece4();
    LowerCasePiece5();
    PieceFirst(qs, ts, "\n        ", "\n        SELECT", Token(false, Word("SELECT")));
    PieceNext(qs, ts, 1, " ", " *", Token(false, Word("SELECT")), Token(true, Sym("*")));
    PieceNext(qs, ts, 2, " ", " FROM", Token(true, Sym("*")), Token(true, Word("FROM")));
    PieceNext(qs, ts, 3, " ", " a", Token(true, Word("FROM")), Token(true, Word("a")));
    PieceNext(qs, ts, 4, "\n        ", "\n        where", Token(true, Word("a")), Token(true, Word("where")));
    PieceNext(qs, ts, 5, " ", " a.id", Token(true, Word("where")), Token(true, Word("a.id")));
  }

  lemma LowerCasePiece6()
    ensures PieceOf(" =", " ", Token(true, Sym("=")))
    ensures Adjacent(Token(true, Word("a.id")), Token(true, Sym("=")))
  {
  }

  lemma LowerCasePiece7()
    ensures PieceOf(" 1", " ", Token(true, Num("1")))
    ensures Adjacent(Token(true, Sym("=")), Token(true, Num("1")))
  {
  }

  lemma LowerCasePiece8()
    ensures PieceOf(" AND", " ", Token(true, Word("AND")))
    ensures Adjacent(Token(true, Num("1")), Token(true, Word("AND")))
  {
  }

  lemma LowerCasePiece9()
    ensures PieceOf(" a.uid", " ", Token(true, Word("a.uid")))
    ensures Adjacent(Token(true, Word("AND")), Token(true, Word("a.uid")))
  {
  }

  lemma LowerCasePiece10()
    ensures PieceOf(" !=", " ", Token(true, Sym("!=")))
    ensures Adjacent(Token(true, Word("a.uid")), Token(true, Sym("!=")))
  {
  }

  lemma LowerCasePiece11()
    ensures PieceOf(" 'bbb'", " ", Token(true, Quoted("bbb")))
    ensures Adjacent(Token(true, Sym("!=")), Token(true, Quoted("bbb")))
  {
    QuotedShaped("bbb");
  }

  lemma LowerCasePieces2(qs: seq<string>, ts: seq<Token>)
    requires Agrees(qs, LowerCaseQuery) && Agrees(ts, LowerCaseTokens)
    ensures |qs| == 38 && |ts| == 37
    ensures qs[6] == " ="
    ensures qs[7] == " 1"
    ensures qs[8] == " AND"
    ensures qs[9] == " a.uid"
    ensures qs[10] == " !="
    ensures qs[11] == " 'bbb'"
    ensures ts[5] == Token(true, Word("a.id"))
    ensures ts[6] == Token(true, Sym("="))
    ensures ts[7] == Token(true, Num("1"))
    ensures ts[8] == Token(true, Word("AND"))
    ensures ts[9] == Token(true, Word("a.uid"))
    ensures ts[10] == Token(true, Sym("!="))
    ensures ts[11] == Token(true, Quoted("bbb"))
  {
    assert qs[6] == LowerCaseQuery[6];
    assert qs[7] == LowerCaseQuery[7];
    assert qs[8] == LowerCaseQuery[8];
    assert qs[9] == LowerCaseQuery[9];
    assert qs[10] == LowerCaseQuery[10];
    assert qs[11] == LowerCaseQuery[11];
    assert ts[5] == LowerCaseTokens[5];
    assert ts[6] == LowerCaseTokens[6];
    assert ts[7] == LowerCaseTokens[7];
    assert ts[8] == LowerCaseTokens[8];
    assert ts[9] == LowerCaseTokens[9];
    assert ts[10] == LowerCaseTokens[10];
    assert ts[11] == LowerCaseTokens[11];
  }

  lemma LowerCaseLexed2(qs: seq<string>, ts: seq<Token>)
    requires Agrees(qs, LowerCaseQuery) && Agrees(ts, LowerCaseTokens)
    requires Built(qs, ts, 6)
    ensures Built(qs, ts, 12)
  {
    LowerCasePieces2(qs, ts);
    LowerCasePiece5();
    LowerCasePiece6();
    LowerCasePiece7();
    LowerCasePiece8();
    LowerCasePiece9();
    LowerCasePiece10();
    LowerCasePiece11();
    PieceNext(qs, ts, 6, " ", " =", Token(true, Word("a.id")), Token(true, Sym("=")));
    PieceNext(qs, ts, 7, " ", " 1", Token(true, Sym("=")), Token(true, Num("1")));
    PieceNext(qs, ts, 8, " ", " AND", Token(true, Num("1")), Token(true, Word("AND")));
    PieceNext(qs, ts, 9, " ", " a.uid", Token(true, Word("AND")), Token(true, Word("a.uid")));
    PieceNext(qs, ts, 10, " ", " !=", Token(true, Word("a.uid")), Token(true, Sym("!=")));
    PieceNext(qs, ts, 11, " ", " 'bbb'", Token(true, Sym("!=")), Token(true, Quoted("bbb")));
  }

  lemma LowerCasePiece12()
    ensures PieceOf("\n        (", "\n        ", Token(true, Sym("(")))
    ensures Adjacent(Token(true, Quoted("bbb")), Token(true, Sym("(")))
  {
  }

  lemma LowerCasePiece13()
    ensures PieceOf("a.num", "", Token(false, Word("a.num")))
    ensures Adjacent(Token(true, Sym("(")), Token(false, Word("a.num")))
  {
  }

  lemma LowerCasePiece14()
    ensures PieceOf(" >", " ", Token(true, Sym(">")))
    ensures Adjacent(Token(false, Word("a.num")), Token(true, Sym(">")))
  {
  }

  lemma LowerCasePiece15()
    ensures PieceOf(" 1", " ", Token(true, Num("1")))
    ensures Adjacent(Token(true, Sym(">")), Token(true, Num("1")))
  {
  }

  lemma LowerCasePiece16()
    ensures PieceOf(" AND", " ", Token(true, Word("AND")))
    ensures Adjacent(Token(true, Num("1")), Token(true, Word("AND")))
  {
  }

  lemma LowerCasePiece17()
    ensures PieceOf(" a.num", " ", Token(true, Word("a.num")))
    ensures Adjacent(Token(true, Word("AND")), Token(true, Word("a.num")))
  {
  }

  lemma LowerCasePieces3(qs: seq<string>, ts: seq<Token>)
    requires Agrees(qs, LowerCaseQuery) && Agrees(ts, LowerCaseTokens)
    ensures |qs| == 38 && |ts| == 37
    ensures qs[12] == "\n        ("
    ensures qs[13] == "a.num"
    ensures qs[14] == " >"
    ensures qs[15] == " 1"
    ensures qs[16] == " AND"
    ensures qs[17] == " a.num"
    ensures ts[11] == Token(true, Quoted("bbb"))
    ensures ts[12] == Token(true, Sym("("))
    ensures ts[13] == Token(false, Word("a.num"))
    ensures ts[14] == Token(true, Sym(">"))
    ensures ts[15] == Token(true, Num("1"))
    ensures ts[16] == Token(true, Word("AND"))
    ensures ts[17] == Token(true, Word("a.num"))
  {
    assert qs[12] == LowerCaseQuery[12];
    assert qs[13] == LowerCaseQuery[13];
    assert qs[14] == LowerCaseQuery[14];
    assert qs[15] == LowerCaseQuery[15];
    assert qs[16] == LowerCaseQuery[16];
    assert qs[17] == LowerCaseQuery[17];
    assert ts[11] == LowerCaseTokens[11];
    assert ts[12] == LowerCaseTokens[12];
    assert ts[13] == LowerCaseTokens[13];
    assert ts[14] == LowerCaseTokens[14];
    assert ts[15] == LowerCaseTokens[15];
    assert ts[16] == LowerCaseTokens[16];
    assert ts[17] == LowerCaseTokens[17];
  }

  lemma LowerCaseLexed3(qs: seq<string>, ts: seq<Token>)
    requires Agrees(qs, LowerCaseQuery) && Agrees(ts, LowerCaseTokens)
    requires Built(qs, ts, 12)
    ensures Built(qs, ts, 18)
  {
    LowerCasePieces3(qs, ts);
    LowerCasePiece11();
    LowerCasePiece12();
    LowerCasePiece13();
    LowerCasePiece14();
    LowerCasePiece15();
    LowerCasePiece16();
    LowerCasePiece17();
    PieceNext(qs, ts, 12, "\n        ", "\n        (", Token(true, Quoted("bbb")), Token(true, Sym("(")));
    PieceNext(qs, ts, 13, "", "a.num", Token(true, Sym("(")), Token(false, Word("a.num")));
    PieceNext(qs, ts, 14, " ", " >", Token(false, Word("a.num")), Token(true, Sym(">")));
    PieceNext(qs, ts, 15, " ", " 1", Token(true, Sym(">")), Token(true, Num("1")));
    PieceNext(qs, ts, 16, " ", " AND", Token(true, Num("1")), Token(true, Word("AND")));
    PieceNext(qs, ts, 17, " ", " a.num", Token(true, Word("AND")), Token(true, Word("a.num")));
  }

  lemma LowerCasePiece18()
    ensures PieceOf(" <", " ", Token(true, Sym("<")))
    ensures Adjacent(Token(true, Word("a.num")), Token(true, Sym("<")))
  {
  }

  lemma LowerCasePiece19()
    ensures PieceOf(" 3", " ", Token(true, Num("3")))
    ensures Adjacent(Token(true, Sym("<")), Token(true, Num("3")))
  {
  }

  lemma LowerCasePiece20()
    ensures PieceOf(")", "", Token(false, Sym(")")))
    ensures Adjacent(Token(true, Num("3")), Token(false, Sym(")")))
  {
  }

  lemma LowerCasePiece21()
    ensures PieceOf(" AND", " ", Token(true, Word("AND")))
    ensures Adjacent(Token(false, Sym(")")), Token(true, Word("AND")))
  {
  }

  lemma LowerCasePiece22()
    ensures PieceOf("\n        (", "\n        ", Token(true, Sym("(")))
    ensures Adjacent(Token(true, Word("AND")), Token(true, Sym("(")))
  {
  }

  lemma LowerCasePiece23()
    ensures PieceOf("start_date", "", Token(false, Word("start_date")))
    ensures Adjacent(Token(true, Sym("(")), Token(false, Word("start_date")))
  {
  }

  lemma LowerCasePieces4(qs: seq<string>, ts: seq<Token>)
    requires Agrees(qs, LowerCaseQuery) && Agrees(ts, LowerCaseTokens)
    ensures |qs| == 38 && |ts| == 37
    ensures qs[18] == " <"
    ensures qs[19] == " 3"
    ensures qs[20] == ")"
    ensures qs[21] == " AND"
    ensures qs[22] == "\n        ("
    ensures qs[23] == "start_date"
    ensures ts[17] == Token(true, Word("a.num"))
    ensures ts[18] == Token(true, Sym("<"))
    ensures ts[19] == Token(true, Num("3"))
    ensures ts[20] == Token(false, Sym(")"))
    ensures ts[21] == Token(true, Word("AND"))
    ensures ts[22] == Token(true, Sym("("))
    ensures ts[23] == Token(false, Word("start_date"))
  {
    assert qs[18] == LowerCaseQuery[18];
    assert qs[19] == LowerCaseQuery[19];
    assert qs[20] == LowerCaseQuery[20];
    assert qs[21] == LowerCaseQuery[21];
    assert qs[22] == LowerCaseQuery[22];
    assert qs[23] == LowerCaseQuery[23];
    assert ts[17] == LowerCaseTokens[17];
    assert ts[18] == LowerCaseTokens[18];
    assert ts[19] == LowerCaseTokens[19];
    assert ts[20] == LowerCaseTokens[20];
    assert ts[21] == LowerCaseTokens[21];
    assert ts[22] == LowerCaseTokens[22];
    assert ts[23] == LowerCaseTokens[23];
  }

  lemma LowerCaseLexed4(qs: seq<string>, ts: seq<Token>)
    requires Agrees(qs, LowerCaseQuery) && Agrees(ts, LowerCaseTokens)
    requires Built(qs, ts, 18)
    ensures Built(qs, ts, 24)
  {
    LowerCasePieces4(qs, ts);
    LowerCasePiece17();
    LowerCasePiece18();
    LowerCasePiece19();
    LowerCasePiece20();
    LowerCasePiece21();
    LowerCasePiece22();
    LowerCasePiece23();
    PieceNext(qs, ts, 18, " ", " <", Token(true, Word("a.num")), Token(true, Sym("<")));
    PieceNext(qs, ts, 19, " ", " 3", Token(true, Sym("<")), Token(true, Num("3")));
    PieceNext(qs, ts, 20, "", ")", Token(true, Num("3")), Token(false, Sym(")")));
    PieceNext(qs, ts, 21, " ", " AND", Token(false, Sym(")")), Token(true, Word("AND")));
    PieceNext(qs, ts, 22, "\n        ", "\n        (", Token(true, Word("AND")), Token(true, Sym("(")));
    PieceNext(qs, ts, 23, "", "start_date", Token(true, Sym("(")), Token(false, Word("start_date")));
  }

  lemma LowerCasePiece24()
    ensures PieceOf(" >=", " ", Token(true, Sym(">=")))
    ensures Adjacent(Token(false, Word("start_date")), Token(true, Sym(">=")))
  {
  }

  lemma LowerCasePiece25()
    ensures PieceOf(" '2010-01-01'", " ", Token(true, Quoted("2010-01-01")))
  {
    QuotedShaped("2010-01-01");
  }

  lemma LowerCaseAdjacent25()
    ensures Adjacent(Token(true, Sym(">=")), Token(true, Quoted("2010-01-01")))
  {
  }

  lemma LowerCasePiece26()
    ensures PieceOf(" AND", " ", Token(true, Word("AND")))
    ensures Adjacent(Token(true, Quoted("2010-01-01")), Token(true, Word("AND")))
  {
  }

  lemma LowerCasePiece27()
    ensures PieceOf(" end_date", " ", Token(true, Word("end_date")))
    ensures Adjacent(Token(true, Word("AND")), Token(true, Word("end_date")))
  {
  }

  lemma LowerCasePiece28()
    ensures PieceOf(" <=", " ", Token(true, Sym("<=")))
    ensures Adjacent(Token(true, Word("end_date")), Token(true, Sym("<=")))
  {
  }

  lemma LowerCasePiece29()
    ensures PieceOf(" '2010-10-01'", " ", Token(true, Quoted("2010-10-01")))
  {
    QuotedShaped("2010-10-01");
  }

  lemma LowerCaseAdjacent29()
    ensures Adjacent(Token(true, Sym("<=")), Token(true, Quoted("2010-10-01")))
  {
  }

  lemma LowerCasePieces5(qs: seq<string>, ts: seq<Token>)
    requires Agrees(qs, LowerCaseQuery) && Agrees(ts, LowerCaseTokens)
    ensures |qs| == 38 && |ts| == 37
    ensures qs[24] == " >="
    ensures qs[25] == " '2010-01-01'"
    ensures qs[26] == " AND"
    ensures qs[27] == " end_date"
    ensures qs[28] == " <="
    ensures qs[29] == " '2010-10-01'"
    ensures ts[23] == Token(false, Word("start_date"))
    ensures ts[24] == Token(true, Sym(">="))
    ensures ts[25] == Token(true, Quoted("2010-01-01"))
    ensures ts[26] == Token(true, Word("AND"))
    ensures ts[27] == Token(true, Word("end_date"))
    ensures ts[28] == Token(true, Sym("<="))
    ensures ts[29] == Token(true, Quoted("2010-10-01"))
  {
    assert qs[24] == LowerCaseQuery[24];
    assert qs[25] == LowerCaseQuery[25];
    assert qs[26] == LowerCaseQuery[26];
    assert qs[27] == LowerCaseQuery[27];
    assert qs[28] == LowerCaseQuery[28];
    assert qs[29] == LowerCaseQuery[29];
    assert ts[23] == LowerCaseTokens[23];
    assert ts[24] == LowerCaseTokens[24];
    assert ts[25] == LowerCaseTokens[25];
    assert ts[26] == LowerCaseTokens[26];
    assert ts[27] == LowerCaseTokens[27];
    assert ts[28] == LowerCaseTokens[28];
    assert ts[29] == LowerCaseTokens[29];
  }

  lemma LowerCaseLexed5(qs: seq<string>, ts: seq<Token>)
    requires Agrees(qs, LowerCaseQuery) && Agrees(ts, LowerCaseTokens)
    requires Built(qs, ts, 24)
    ensures Built(qs, ts, 30)
  {
    LowerCasePieces5(qs, ts);
    LowerCasePiece23();
    LowerCasePiece24();
    LowerCasePiece25();
    LowerCaseAdjacent25();
    LowerCasePiece26();
    LowerCasePiece27();
    LowerCasePiece28();
    LowerCasePiece29();
    LowerCaseAdjacent29();
    PieceNext(qs, ts, 24, " ", " >=", Token(false, Word("start_date")), Token(true, Sym(">=")));
    PieceNext(qs, ts, 25, " ", " '2010-01-01'", Token(true, Sym(">=")), Token(true, Quoted("2010-01-01")));
    PieceNext(qs, ts, 26, " ", " AND", Token(true, Quoted("2010-01-01")), Token(true, Word("AND")));
    PieceNext(qs, ts, 27, " ", " end_date", Token(true, Word("AND")), Token(true, Word("end_date")));
    PieceNext(qs, ts, 28, " ", " <=", Token(true, Word("end_date")), Token(true, Sym("<=")));
    PieceNext(qs, ts, 29, " ", " '2010-10-01'", Token(true, Sym("<=")), Token(true, Quoted("2010-10-01")));
  }

  lemma LowerCasePiece30()
    ensures PieceOf(")", "", Token(false, Sym(")")))
    ensures Adjacent(Token(true, Quoted("2010-10-01")), Token(false, Sym(")")))
  {
  }

  lemma LowerCasePiece31()
    ensures PieceOf(" AND", " ", Token(true, Word("AND")))
    ensures Adjacent(Token(false, Sym(")")), Token(true, Word("AND")))
  {
  }

  lemma LowerCasePiece32()
    ensures PieceOf("\n        a.total", "\n        ", Token(true, Word("a.total")))
    ensures Adjacent(Token(true, Word("AND")), Token(true, Word("a.total")))
  {
  }

  lemma LowerCasePiece33()
    ensures PieceOf(" between", " ", Token(true, Word("between")))
    ensures Adjacent(Token(true, Word("a.total")), Token(true, Word("between")))
  {
  }

  lemma LowerCasePiece34()
    ensures PieceOf(" 0", " ", Token(true, Num("0")))
    ensures Adjacent(Token(true, Word("between")), Token(true, Num("0")))
  {
  }

  lemma LowerCasePiece35()
    ensures PieceOf(" and", " ", Token(true, Word("and")))
    ensures Adjacent(Token(true, Num("0")), Token(true, Word("and")))
  {
  }

  lemma LowerCasePieces6(qs: seq<string>, ts: seq<Token>)
    requires Agrees(qs, LowerCaseQuery) && Agrees(ts, LowerCaseTokens)
    ensures |qs| == 38 && |ts| == 37
    ensures qs[30] == ")"
    ensures qs[31] == " AND"
    ensures qs[32] == "\n        a.total"
    ensures qs[33] == " between"
    ensures qs[34] == " 0"
    ensures qs[35] == " and"
    ensures ts[29] == Token(true, Quoted("2010-10-01"))
    ensures ts[30] == Token(false, Sym(")"))
    ensures ts[31] == Token(true, Word("AND"))
    ensures ts[32] == Token(true, Word("a.total"))
    ensures ts[33] == Token(true, Word("between"))
    ensures ts[34] == Token(true, Num("0"))
    ensures ts[35] == Token(true, Word("and"))
  {
    assert qs[30] == LowerCaseQuery[30];
    assert qs[31] == LowerCaseQuery[31];
    assert qs[32] == LowerCaseQuery[32];
    assert qs[33] == LowerCaseQuery[33];
    assert qs[34] == LowerCaseQuery[34];
    assert qs[35] == LowerCaseQuery[35];
    assert ts[29] == LowerCaseTokens[29];
    assert ts[30] == LowerCaseTokens[30];
    assert ts[31] == LowerCaseTokens[31];
    assert ts[32] == LowerCaseTokens[32];
    assert ts[33] == LowerCaseTokens[33];
    assert ts[34] == LowerCaseTokens[34];
    assert ts[35] == LowerCaseTokens[35];
  }

  lemma LowerCaseLexed6(qs: seq<string>, ts: seq<Token>)
    requires Agrees(qs, LowerCaseQuery) && Agrees(ts, LowerCaseTokens)
    requires Built(qs, ts, 30)
    ensures Built(qs, ts, 36)
  {
    LowerCasePieces6(qs, ts);
    LowerCasePiece29();
    LowerCasePiece30();
    LowerCasePiece31();
    LowerCasePiece32();
    LowerCasePiece33();
    LowerCasePiece34();
    LowerCasePiece35();
    PieceNext(qs, ts, 30, "", ")", Token(true, Quoted("2010-10-01")), Token(false, Sym(")")));
    PieceNext(qs, ts, 31, " ", " AND", Token(false, Sym(")")), Token(true, Word("AND")));
    PieceNext(qs, ts, 32, "\n        ", "\n        a.total", Token(true, Word("AND")), Token(true, Word("a.total")));
    PieceNext(qs, ts, 33, " ", " between", Token(true, Word("a.total")), Token(true, Word("between")));
    PieceNext(qs, ts, 34, " ", " 0", Token(true, Word("between")), Token(true, Num("0")));
    PieceNext(qs, ts, 35, " ", " and", Token(true, Num("0")), Token(true, Word("and")));
  }

  lemma LowerCasePiece36()
    ensures PieceOf(" 100", " ", Token(true, Num("100")))
    ensures Adjacent(Token(true, Word("and")), Token(true, Num("100")))
  {
  }

  lemma LowerCasePieces7(qs: seq<string>, ts: seq<Token>)
    requires Agrees(qs, LowerCaseQuery) && Agrees(ts, LowerCaseTokens)
    ensures |qs| == 38 && |ts| == 37
    ensures qs[36] == " 100"
    ensures qs[37] == "\n      " && AllSpace(qs[37])
    ensures ts[35] == Token(true, Word("and"))
    ensures ts[36] == Token(true, Num("100"))
  {
    assert qs[36] == LowerCaseQuery[36];
    assert qs[37] == LowerCaseQuery[37];
    assert ts[35] == LowerCaseTokens[35];
    assert ts[36] == LowerCaseTokens[36];
  }

  lemma LowerCaseLexed7(qs: seq<string>, ts: seq<Token>)
    requires Agrees(qs, LowerCaseQuery) && Agrees(ts, LowerCaseTokens)
    requires Built(qs, ts, 36)
    ensures Built(qs, ts, 37)
    ensures qs[37] == "\n      " && AllSpace(qs[37])
  {
    LowerCasePieces7(qs, ts);
    LowerCasePiece35();
    LowerCasePiece36();
    PieceNext(qs, ts, 36, " ", " 100", Token(true, Word("and")), Token(true, Num("100")));
  }

  lemma LowerCaseLexing(qs: seq<string>, ts: seq<Token>)
    requires Agrees(qs, LowerCaseQuery) && Agrees(ts, LowerCaseTokens)
    ensures Squish(Join(qs)) == Render(ts) && Lex(Render(ts)) == ts
  {
    LowerCaseLexed1(qs, ts);
    LowerCaseLexed2(qs, ts);
    LowerCaseLexed3(qs, ts);
    LowerCaseLexed4(qs, ts);
    LowerCaseLexed5(qs, ts);
    LowerCaseLexed6(qs, ts);
    LowerCaseLexed7(qs, ts);
    PiecesEnd(qs, ts);
  }

  lemma LowerCaseRewrite31()
    ensures Rewrite([Token(true, Word("AND")), Token(true, Word("a.total"))], false) == Edit([Token(true, Word("AND"))], 1)
    ensures Mode([Token(true, Word("AND")), Token(true, Word("a.total"))][..1], false) == false && PlainEnd([Token(true, Word("AND")), Token(true, Word("a.total"))])
  {
    var z := [Token(true, Word("AND")), Token(true, Word("a.total"))];
    ModeFirst(z, false);
  }

  lemma LowerCaseRewrite32()
    ensures Rewrite([Token(true, Word("a.total"))], false) == Edit([Token(true, Word("a.total"))], 1)
    ensures Mode([Token(true, Word("a.total"))][..1], false) == false && PlainEnd([Token(true, Word("a.total"))])
  {
    var z := [Token(true, Word("a.total"))];
    ModeFirst(z, false);
  }

  lemma LowerCaseBetween33()
    ensures IsKeyword(Token(true, Word("between")), "BETWEEN") && OperandLen([Token(true, Word("between")), Token(true, Num("0")), Token(true, Word("and")), Token(true, Num("100"))][1..]) == 1
  {
  }

  lemma LowerCaseAnd33()
    ensures IsKeyword(Token(true, Word("and")), "AND") && OperandLen([Token(true, Word("between")), Token(true, Num("0")), Token(true, Word("and")), Token(true, Num("100"))][3..]) == 1
  {
  }

  lemma LowerCaseRewrite33()
    ensures Rewrite([Token(true, Word("between")), Token(true, Num("0")), Token(true, Word("and")), Token(true, Num("100"))], false) == Edit([Token(true, Word("between")), Token(true, Masked), Token(true, Word("and")), Token(true, Masked)], 4)
  {
    var z := [Token(true, Word("between")), Token(true, Num("0")), Token(true, Word("and")), Token(true, Num("100"))];
    LowerCaseBetween33();
    LowerCaseAnd33();
    BetweenAt(z, false, 1, 1);
  }

  lemma LowerCaseMode33()
    ensures Mode([Token(true, Word("between")), Token(true, Num("0")), Token(true, Word("and")), Token(true, Num("100"))][..4], false) == false
  {
    var z := [Token(true, Word("between")), Token(true, Num("0")), Token(true, Word("and")), Token(true, Num("100"))];
    QuietMode(z[..4], false);
  }

  lemma LowerCaseWindow31(ts: seq<Token>, out: seq<Token>)
    requires Agrees(ts, LowerCaseTokens) && Agrees(out, LowerCaseMasked)
    ensures |ts| == 37 && |out| == 37
    ensures ts[31..33] == [Token(true, Word("AND")), Token(true, Word("a.total"))]
    ensures out[31..32] == [Token(true, Word("AND"))]
  {
    assert ts[31] == LowerCaseTokens[31] == Token(true, Word("AND"));
    assert ts[32] == LowerCaseTokens[32] == Token(true, Word("a.total"));
    assert out[31] == LowerCaseMasked[31] == Token(true, Word("AND"));
  }

  lemma LowerCaseWindow32(ts: seq<Token>, out: seq<Token>)
    requires Agrees(ts, LowerCaseTokens) && Agrees(out, LowerCaseMasked)
    ensures |ts| == 37 && |out| == 37
    ensures ts[32..33] == [Token(true, Word("a.total"))]
    ensures out[32..33] == [Token(true, Word("a.total"))]
  {
    assert ts[32] == LowerCaseTokens[32] == Token(true, Word("a.total"));
    assert out[32] == LowerCaseMasked[32] == Token(true, Word("a.total"));
  }

  lemma LowerCaseWindow33(ts: seq<Token>, out: seq<Token>)
    requires Agrees(ts, LowerCaseTokens) && Agrees(out, LowerCaseMasked)
    ensures |ts| == 37 && |out| == 37
    ensures ts[33..37] == [Token(true, Word("between")), Token(true, Num("0")), Token(true, Word("and")), Token(true, Num("100"))]
    ensures out[33..37] == [Token(true, Word("between")), Token(true, Masked), Token(true, Word("and")), Token(true, Masked)]
  {
    assert ts[33] == LowerCaseTokens[33] == Token(true, Word("between"));
    assert ts[34] == LowerCaseTokens[34] == Token(true, Num("0"));
    assert ts[35] == LowerCaseTokens[35] == Token(true, Word("and"));
    assert ts[36] == LowerCaseTokens[36] == Token(true, Num("100"));
    assert out[33] == LowerCaseMasked[33] == Token(true, Word("between"));
    assert out[34] == LowerCaseMasked[34] == Token(true, Masked);
    assert out[35] == LowerCaseMasked[35] == Token(true, Word("and"));
    assert out[36] == LowerCaseMasked[36] == Token(true, Masked);
  }

  lemma LowerCaseStep31(ts: seq<Token>, out: seq<Token>)
    requires Agrees(ts, LowerCaseTokens) && Agrees(out, LowerCaseMasked)
    requires MaskedFrom(ts, out, 32, 32, false)
    ensures MaskedFrom(ts, out, 31, 31, false)
  {
    LowerCaseRewrite31();
    LowerCaseWindow31(ts, out);
    MaskAt(ts, out, 31, 31, false,
      [Token(true, Word("AND")), Token(true, Word("a.total"))],
      Step([Token(true, Word("AND"))], 1, false));
  }

  lemma LowerCaseStep32(ts: seq<Token>, out: seq<Token>)
    requires Agrees(ts, LowerCaseTokens) && Agrees(out, LowerCaseMasked)
    requires MaskedFrom(ts, out, 33, 33, false)
    ensures MaskedFrom(ts, out, 32, 32, false)
  {
    LowerCaseRewrite32();
    LowerCaseWindow32(ts, out);
    MaskAt(ts, out, 32, 32, false,
      [Token(true, Word("a.total"))],
      Step([Token(true, Word("a.total"))], 1, false));
  }

  lemma LowerCaseStep33(ts: seq<Token>, out: seq<Token>)
    requires Agrees(ts, LowerCaseTokens) && Agrees(out, LowerCaseMasked)
    ensures MaskedFrom(ts, out, 33, 33, false)
  {
    LowerCaseRewrite33();
    LowerCaseMode33();
    LowerCaseWindow33(ts, out);
    MaskedEnd(ts, out, false);
    MaskAt(ts, out, 33, 33, false,
      [Token(true, Word("between")), Token(true, Num("0")), Token(true, Word("and")), Token(true, Num("100"))],
      Step([Token(true, Word("between")), Token(true, Masked), Token(true, Word("and")), Token(true, Masked)], 4, false));
  }

  lemma LowerCaseRewrite24()
    ensures Rewrite([Token(true, Sym(">=")), Token(true, Quoted("2010-01-01")), Token(true, Word("AND")), Token(true, Word("end_date"))], false) == Edit([Token(true, Sym(">=")), Token(true, Masked)], 2)
    ensures Mode([Token(true, Sym(">=")), Token(true, Quoted("2010-01-01")), Token(true, Word("AND")), Token(true, Word("end_date"))][..2], false) == false && PlainEnd([Token(true, Sym(">=")), Token(true, Quoted("2010-01-01")), Token(true, Word("AND")), Token(true, Word("end_date"))])
  {
    var z := [Token(true, Sym(">=")), Token(true, Quoted("2010-01-01")), Token(true, Word("AND")), Token(true, Word("end_date"))];
    QuietMode(z[..2], false);
  }

  lemma LowerCaseRewrite26()
    ensures Rewrite([Token(true, Word("AND")), Token(true, Word("end_date"))], false) == Edit([Token(true, Word("AND"))], 1)
    ensures Mode([Token(true, Word("AND")), Token(true, Word("end_date"))][..1], false) == false && PlainEnd([Token(true, Word("AND")), Token(true, Word("end_date"))])
  {
    var z := [Token(true, Word("AND")), Token(true, Word("end_date"))];
    ModeFirst(z, false);
  }

  lemma LowerCaseRewrite27()
    ensures Rewrite([Token(true, Word("end_date"))], false) == Edit([Token(true, Word("end_date"))], 1)
    ensures Mode([Token(true, Word("end_date"))][..1], false) == false && PlainEnd([Token(true, Word("end_date"))])
  {
    var z := [Token(true, Word("end_date"))];
    ModeFirst(z, false);
  }

  lemma LowerCaseRewrite28()
    ensures Rewrite([Token(true, Sym("<=")), Token(true, Quoted("2010-10-01")), Token(false, Sym(")")), Token(true, Word("AND")), Token(true, Word("a.total"))], false) == Edit([Token(true, Sym("<=")), Token(true, Masked)], 2)
    ensures Mode([Token(true, Sym("<=")), Token(true, Quoted("2010-10-01")), Token(false, Sym(")")), Token(true, Word("AND")), Token(true, Word("a.total"))][..2], false) == false && PlainEnd([Token(true, Sym("<=")), Token(true, Quoted("2010-10-01")), Token(false, Sym(")")), Token(true, Word("AND")), Token(true, Word("a.total"))])
  {
    var z := [Token(true, Sym("<=")), Token(true, Quoted("2010-10-01")), Token(false, Sym(")")), Token(true, Word("AND")), Token(true, Word("a.total"))];
    QuietMode(z[..2], false);
  }

  lemma LowerCaseRewrite30()
    ensures Rewrite([Token(false, Sym(")")), Token(true, Word("AND")), Token(true, Word("a.total"))], false) == Edit([Token(false, Sym(")"))], 1)
    ensures Mode([Token(false, Sym(")")), Token(true, Word("AND")), Token(true, Word("a.total"))][..1], false) == false && PlainEnd([Token(false, Sym(")")), Token(true, Word("AND")), Token(true, Word("a.total"))])
  {
    var z := [Token(false, Sym(")")), Token(true, Word("AND")), Token(true, Word("a.total"))];
    ModeFirst(z, false);
  }

  lemma LowerCaseWindow24(ts: seq<Token>, out: seq<Token>)
    requires Agrees(ts, LowerCaseTokens) && Agrees(out, LowerCaseMasked)
    ensures |ts| == 37 && |out| == 37
    ensures ts[24..28] == [Token(true, Sym(">=")), Token(true, Quoted("2010-01-01")), Token(true, Word("AND")), Token(true, Word("end_date"))]
    ensures out[24..26] == [Token(true, Sym(">=")), Token(true, Masked)]
  {
    assert ts[24] == LowerCaseTokens[24] == Token(true, Sym(">="));
    assert ts[25] == LowerCaseTokens[25] == Token(true, Quoted("2010-01-01"));
    assert ts[26] == LowerCaseTokens[26] == Token(true, Word("AND"));
    assert ts[27] == LowerCaseTokens[27] == Token(true, Word("end_date"));
    assert out[24] == LowerCaseMasked[24] == Token(true, Sym(">="));
    assert out[25] == LowerCaseMasked[25] == Token(true, Masked);
  }

  lemma LowerCaseWindow26(ts: seq<Token>, out: seq<Token>)
    requires Agrees(ts, LowerCaseTokens) && Agrees(out, LowerCaseMasked)
    ensures |ts| == 37 && |out| == 37
    ensures ts[26..28] == [Token(true, Word("AND")), Token(true, Word("end_date"))]
    ensures out[26..27] == [Token(true, Word("AND"))]
  {
    assert ts[26] == LowerCaseTokens[26] == Token(true, Word("AND"));
    assert ts[27] == LowerCaseTokens[27] == Token(true, Word("end_date"));
    assert out[26] == LowerCaseMasked[26] == Token(true, Word("AND"));
  }

  lemma LowerCaseWindow27(ts: seq<Token>, out: seq<Token>)
    requires Agrees(ts, LowerCaseTokens) && Agrees(out, LowerCaseMasked)
    ensures |ts| == 37 && |out| == 37
    ensures ts[27..28] == [Token(true, Word("end_date"))]
    ensures out[27..28] == [Token(true, Word("end_date"))]
  {
    assert ts[27] == LowerCaseTokens[27] == Token(true, Word("end_date"));
    assert out[27] == LowerCaseMasked[27] == Token(true, Word("end_date"));
  }

  lemma LowerCaseWindow28(ts: seq<Token>, out: seq<Token>)
    requires Agrees(ts, LowerCaseTokens) && Agrees(out, LowerCaseMasked)
    ensures |ts| == 37 && |out| == 37
    ensures ts[28..33] == [Token(true, Sym("<=")), Token(true, Quoted("2010-10-01")), Token(false, Sym(")")), Token(true, Word("AND")), Token(true, Word("a.total"))]
    ensures out[28..30] == [Token(true, Sym("<=")), Token(true, Masked)]
  {
    assert ts[28] == LowerCaseTokens[28] == Token(true, Sym("<="));
    assert ts[29] == LowerCaseTokens[29] == Token(true, Quoted("2010-10-01"));
    assert ts[30] == LowerCaseTokens[30] == Token(false, Sym(")"));
    assert ts[31] == LowerCaseTokens[31] == Token(true, Word("AND"));
    assert ts[32] == LowerCaseTokens[32] == Token(true, Word("a.total"));
    assert out[28] == LowerCaseMasked[28] == Token(true, Sym("<="));
    assert out[29] == LowerCaseMasked[29] == Token(true, Masked);
  }

  lemma LowerCaseWindow30(ts: seq<Token>, out: seq<Token>)
    requires Agrees(ts, LowerCaseTokens) && Agrees(out, LowerCaseMasked)
    ensures |ts| == 37 && |out| == 37
    ensures ts[30..33] == [Token(false, Sym(")")), Token(true, Word("AND")), Token(true, Word("a.total"))]
    ensures out[30..31] == [Token(false, Sym(")"))]
  {
    assert ts[30] == LowerCaseTokens[30] == Token(false, Sym(")"));
    assert ts[31] == LowerCaseTokens[31] == Token(true, Word("AND"));
    assert ts[32] == LowerCaseTokens[32] == Token(true, Word("a.total"));
    assert out[30] == LowerCaseMasked[30] == Token(false, Sym(")"));
  }

  lemma LowerCaseStep24(ts: seq<Token>, out: seq<Token>)
    requires Agrees(ts, LowerCaseTokens) && Agrees(out, LowerCaseMasked)
    requires MaskedFrom(ts, out, 26, 26, false)
    ensures MaskedFrom(ts, out, 24, 24, false)
  {
    LowerCaseRewrite24();
    LowerCaseWindow24(ts, out);
    MaskAt(ts, out, 24, 24, false,
      [Token(true, Sym(">=")), Token(true, Quoted("2010-01-01")), Token(true, Word("AND")), Token(true, Word("end_date"))],
      Step([Token(true, Sym(">=")), Token(true, Masked)], 2, false));
  }

  lemma LowerCaseStep26(ts: seq<Token>, out: seq<Token>)
    requires Agrees(ts, LowerCaseTokens) && Agrees(out, LowerCaseMasked)
    requires MaskedFrom(ts, out, 27, 27, false)
    ensures MaskedFrom(ts, out, 26, 26, false)
  {
    LowerCaseRewrite26();
    LowerCaseWindow26(ts, out);
    MaskAt(ts, out, 26, 26, false,
      [Token(true, Word("AND")), Token(true, Word("end_date"))],
      Step([Token(true, Word("AND"))], 1, false));
  }

  lemma LowerCaseStep27(ts: seq<Token>, out: seq<Token>)
    requires Agrees(ts, LowerCaseTokens) && Agrees(out, LowerCaseMasked)
    requires MaskedFrom(ts, out, 28, 28, false)
    ensures MaskedFrom(ts, out, 27, 27, false)
  {
    LowerCaseRewrite27();
    LowerCaseWindow27(ts, out);
    MaskAt(ts, out, 27, 27, false,
      [Token(true, Word("end_date"))],
      Step([Token(true, Word("end_date"))], 1, false));
  }

  lemma LowerCaseStep28(ts: seq<Token>, out: seq<Token>)
    requires Agrees(ts, LowerCaseTokens) && Agrees(out, LowerCaseMasked)
    requires MaskedFrom(ts, out, 30, 30, false)
    ensures MaskedFrom(ts, out, 28, 28, false)
  {
    LowerCaseRewrite28();
    LowerCaseWindow28(ts, out);
    MaskAt(ts, out, 28, 28, false,
      [Token(true, Sym("<=")), Token(true, Quoted("2010-10-01")), Token(false, Sym(")")), Token(true, Word("AND")), Token(true, Word("a.total"))],
      Step([Token(true, Sym("<=")), Token(true, Masked)], 2, false));
  }

  lemma LowerCaseStep30(ts: seq<Token>, out: seq<Token>)
    requires Agrees(ts, LowerCaseTokens) && Agrees(out, LowerCaseMasked)
    requires MaskedFrom(ts, out, 31, 31, false)
    ensures MaskedFrom(ts, out, 30, 30, false)
  {
    LowerCaseRewrite30();
    LowerCaseWindow30(ts, out);
    MaskAt(ts, out, 30, 30, false,
      [Token(false, Sym(")")), Token(true, Word("AND")), Token(true, Word("a.total"))],
      Step([Token(false, Sym(")"))], 1, false));
  }

  lemma LowerCaseRewrite18()
    ensures Rewrite([Token(true, Sym("<")), Token(true, Num("3")), Token(false, Sym(")")), Token(true, Word("AND")), Token(true, Sym("(")), Token(false, Word("start_date"))], false) == Edit([Token(true, Sym("<")), Token(true, Masked)], 2)
    ensures Mode([Token(true, Sym("<")), Token(true, Num("3")), Token(false, Sym(")")), Token(true, Word("AND")), Token(true, Sym("(")), Token(false, Word("start_date"))][..2], false) == false && PlainEnd([Token(true, Sym("<")), Token(true, Num("3")), Token(false, Sym(")")), Token(true, Word("AND")), Token(true, Sym("(")), Token(false, Word("start_date"))])
  {
    var z := [Token(true, Sym("<")), Token(true, Num("3")), Token(false, Sym(")")), Token(true, Word("AND")), Token(true, Sym("(")), Token(false, Word("start_date"))];
    QuietMode(z[..2], false);
  }

  lemma LowerCaseRewrite20()
    ensures Rewrite([Token(false, Sym(")")), Token(true, Word("AND")), Token(true, Sym("(")), Token(false, Word("start_date"))], false) == Edit([Token(false, Sym(")"))], 1)
    ensures Mode([Token(false, Sym(")")), Token(true, Word("AND")), Token(true, Sym("(")), Token(false, Word("start_date"))][..1], false) == false && PlainEnd([Token(false, Sym(")")), Token(true, Word("AND")), Token(true, Sym("(")), Token(false, Word("start_date"))])
  {
    var z := [Token(false, Sym(")")), Token(true, Word("AND")), Token(true, Sym("(")), Token(false, Word("start_date"))];
    ModeFirst(z, false);
  }

  lemma LowerCaseRewrite21()
    ensures Rewrite([Token(true, Word("AND")), Token(true, Sym("(")), Token(false, Word("start_date"))], false) == Edit([Token(true, Word("AND"))], 1)
    ensures Mode([Token(true, Word("AND")), Token(true, Sym("(")), Token(false, Word("start_date"))][..1], false) == false && PlainEnd([Token(true, Word("AND")), Token(true, Sym("(")), Token(false, Word("start_date"))])
  {
    var z := [Token(true, Word("AND")), Token(true, Sym("(")), Token(false, Word("start_date"))];
    ModeFirst(z, false);
  }

  lemma LowerCaseRewrite22()
    ensures Rewrite([Token(true, Sym("(")), Token(false, Word("start_date"))], false) == Edit([Token(true, Sym("("))], 1)
    ensures Mode([Token(true, Sym("(")), Token(false, Word("start_date"))][..1], false) == false && PlainEnd([Token(true, Sym("(")), Token(false, Word("start_date"))])
  {
    var z := [Token(true, Sym("(")), Token(false, Word("start_date"))];
    ModeFirst(z, false);
  }

  lemma LowerCaseRewrite23()
    ensures Rewrite([Token(false, Word("start_date"))], false) == Edit([Token(false, Word("start_date"))], 1)
    ensures Mode([Token(false, Word("start_date"))][..1], false) == false && PlainEnd([Token(false, Word("start_date"))])
  {
    var z := [Token(false, Word("start_date"))];
    ModeFirst(z, false);
  }

  lemma LowerCaseWindow18(ts: seq<Token>, out: seq<Token>)
    requires Agrees(ts, LowerCaseTokens) && Agrees(out, LowerCaseMasked)
    ensures |ts| == 37 && |out| == 37
    ensures ts[18..24] == [Token(true, Sym("<")), Token(true, Num("3")), Token(false, Sym(")")), Token(true, Word("AND")), Token(true, Sym("(")), Token(false, Word("start_date"))]
    ensures out[18..20] == [Token(true, Sym("<")), Token(true, Masked)]
  {
    assert ts[18] == LowerCaseTokens[18] == Token(true, Sym("<"));
    assert ts[19] == LowerCaseTokens[19] == Token(true, Num("3"));
    assert ts[20] == LowerCaseTokens[20] == Token(false, Sym(")"));
    assert ts[21] == LowerCaseTokens[21] == Token(true, Word("AND"));
    assert ts[22] == LowerCaseTokens[22] == Token(true, Sym("("));
    assert ts[23] == LowerCaseTokens[23] == Token(false, Word("start_date"));
    assert out[18] == LowerCaseMasked[18] == Token(true, Sym("<"));
    assert out[19] == LowerCaseMasked[19] == Token(true, Masked);
  }

  lemma LowerCaseWindow20(ts: seq<Token>, out: seq<Token>)
    requires Agrees(ts, LowerCaseTokens) && Agrees(out, LowerCaseMasked)
    ensures |ts| == 37 && |out| == 37
    ensures ts[20..24] == [Token(false, Sym(")")), Token(true, Word("AND")), Token(true, Sym("(")), Token(false, Word("start_date"))]
    ensures out[20..21] == [Token(false, Sym(")"))]
  {
    assert ts[20] == LowerCaseTokens[20] == Token(false, Sym(")"));
    assert ts[21] == LowerCaseTokens[21] == Token(true, Word("AND"));
    assert ts[22] == LowerCaseTokens[22] == Token(true, Sym("("));
    assert ts[23] == LowerCaseTokens[23] == Token(false, Word("start_date"));
    assert out[20] == LowerCaseMasked[20] == Token(false, Sym(")"));
  }

  lemma LowerCaseWindow21(ts: seq<Token>, out: seq<Token>)
    requires Agrees(ts, LowerCaseTokens) && Agrees(out, LowerCaseMasked)
    ensures |ts| == 37 && |out| == 37
    ensures ts[21..24] == [Token(true, Word("AND")), Token(true, Sym("(")), Token(false, Word("start_date"))]
    ensures out[21..22] == [Token(true, Word("AND"))]
  {
    assert ts[21] == LowerCaseTokens[21] == Token(true, Word("AND"));
    assert ts[22] == LowerCaseTokens[22] == Token(true, Sym("("));
    assert ts[23] == LowerCaseTokens[23] == Token(false, Word("start_date"));
    assert out[21] == LowerCaseMasked[21] == Token(true, Word("AND"));
  }

  lemma LowerCaseWindow22(ts: seq<Token>, out: seq<Token>)
    requires Agrees(ts, LowerCaseTokens) && Agrees(out, LowerCaseMasked)
    ensures |ts| == 37 && |out| == 37
    ensures ts[22..24] == [Token(true, Sym("(")), Token(false, Word("start_date"))]
    ensures out[22..23] == [Token(true, Sym("("))]
  {
    assert ts[22] == LowerCaseTokens[22] == Token(true, Sym("("));
    assert ts[23] == LowerCaseTokens[23] == Token(false, Word("start_date"));
    assert out[22] == LowerCaseMasked[22] == Token(true, Sym("("));
  }

  lemma LowerCaseWindow23(ts: seq<Token>, out: seq<Token>)
    requires Agrees(ts, LowerCaseTokens) && Agrees(out, LowerCaseMasked)
    ensures |ts| == 37 && |out| == 37
    ensures ts[23..24] == [Token(false, Word("start_date"))]
    ensures out[23..24] == [Token(false, Word("start_date"))]
  {
    assert ts[23] == LowerCaseTokens[23] == Token(false, Word("start_date"));
    assert out[23] == LowerCaseMasked[23] == Token(false, Word("start_date"));
  }

  lemma LowerCaseStep18(ts: seq<Token>, out: seq<Token>)
    requires Agrees(ts, LowerCaseTokens) && Agrees(out, LowerCaseMasked)
    requires MaskedFrom(ts, out, 20, 20, false)
    ensures MaskedFrom(ts, out, 18, 18, false)
  {
    LowerCaseRewrite18();
    LowerCaseWindow18(ts, out);
    MaskAt(ts, out, 18, 18, false,
      [Token(true, Sym("<")), Token(true, Num("3")), Token(false, Sym(")")), Token(true, Word("AND")), Token(true, Sym("(")), Token(false, Word("start_date"))],
      Step([Token(true, Sym("<")), Token(true, Masked)], 2, false));
  }

  lemma LowerCaseStep20(ts: seq<Token>, out: seq<Token>)
    requires Agrees(ts, LowerCaseTokens) && Agrees(out, LowerCaseMasked)
    requires MaskedFrom(ts, out, 21, 21, false)
    ensures MaskedFrom(ts, out, 20, 20, false)
  {
    LowerCaseRewrite20();
    LowerCaseWindow20(ts, out);
    MaskAt(ts, out, 20, 20, false,
      [Token(false, Sym(")")), Token(true, Word("AND")), Token(true, Sym("(")), Token(false, Word("start_date"))],
      Step([Token(false, Sym(")"))], 1, false));
  }

  lemma LowerCaseStep21(ts: seq<Token>, out: seq<Token>)
    requires Agrees(ts, LowerCaseTokens) && Agrees(out, LowerCaseMasked)
    requires MaskedFrom(ts, out, 22, 22, false)
    ensures MaskedFrom(ts, out, 21, 21, false)
  {
    LowerCaseRewrite21();
    LowerCaseWindow21(ts, out);
    MaskAt(ts, out, 21, 21, false,
      [Token(true, Word("AND")), Token(true, Sym("(")), Token(false, Word("start_date"))],
      Step([Token(true, Word("AND"))], 1, false));
  }

  lemma LowerCaseStep22(ts: seq<Token>, out: seq<Token>)
    requires Agrees(ts, LowerCaseTokens) && Agrees(out, LowerCaseMasked)
    requires MaskedFrom(ts, out, 23, 23, false)
    ensures MaskedFrom(ts, out, 22, 22, false)
  {
    LowerCaseRewrite22();
    LowerCaseWindow22(ts, out);
    MaskAt(ts, out, 22, 22, false,
      [Token(true, Sym("(")), Token(false, Word("start_date"))],
      Step([Token(true, Sym("("))], 1, false));
  }

  lemma LowerCaseStep23(ts: seq<Token>, out: seq<Token>)
    requires Agrees(ts, LowerCaseTokens) && Agrees(out, LowerCaseMasked)
    requires MaskedFrom(ts, out, 24, 24, false)
    ensures MaskedFrom(ts, out, 23, 23, false)
  {
    LowerCaseRewrite23();
    LowerCaseWindow23(ts, out);
    MaskAt(ts, out, 23, 23, false,
      [Token(false, Word("start_date"))],
      Step([Token(false, Word("start_date"))], 1, false));
  }

  lemma LowerCaseRewrite12()
    ensures Rewrite([Token(true, Sym("(")), Token(false, Word("a.num"))], false) == Edit([Token(true, Sym("("))], 1)
    ensures Mode([Token(true, Sym("(")), Token(false, Word("a.num"))][..1], false) == false && PlainEnd([Token(true, Sym("(")), Token(false, Word("a.num"))])
  {
    var z := [Token(true, Sym("(")), Token(false, Word("a.num"))];
    ModeFirst(z, false);
  }

  lemma LowerCaseRewrite13()
    ensures Rewrite([Token(false, Word("a.num"))], false) == Edit([Token(false, Word("a.num"))], 1)
    ensures Mode([Token(false, Word("a.num"))][..1], false) == false && PlainEnd([Token(false, Word("a.num"))])
  {
    var z := [Token(false, Word("a.num"))];
    ModeFirst(z, false);
  }

  lemma LowerCaseRewrite14()
    ensures Rewrite([Token(true, Sym(">")), Token(true, Num("1")), Token(true, Word("AND")), Token(true, Word("a.num"))], false) == Edit([Token(true, Sym(">")), Token(true, Masked)], 2)
    ensures Mode([Token(true, Sym(">")), Token(true, Num("1")), Token(true, Word("AND")), Token(true, Word("a.num"))][..2], false) == false && PlainEnd([Token(true, Sym(">")), Token(true, Num("1")), Token(true, Word("AND")), Token(true, Word("a.num"))])
  {
    var z := [Token(true, Sym(">")), Token(true, Num("1")), Token(true, Word("AND")), Token(true, Word("a.num"))];
    QuietMode(z[..2], false);
  }

  lemma LowerCaseRewrite16()
    ensures Rewrite([Token(true, Word("AND")), Token(true, Word("a.num"))], false) == Edit([Token(true, Word("AND"))], 1)
    ensures Mode([Token(true, Word("AND")), Token(true, Word("a.num"))][..1], false) == false && PlainEnd([Token(true, Word("AND")), Token(true, Word("a.num"))])
  {
    var z := [Token(true, Word("AND")), Token(true, Word("a.num"))];
    ModeFirst(z, false);
  }

  lemma LowerCaseRewrite17()
    ensures Rewrite([Token(true, Word("a.num"))], false) == Edit([Token(true, Word("a.num"))], 1)
    ensures Mode([Token(true, Word("a.num"))][..1], false) == false && PlainEnd([Token(true, Word("a.num"))])
  {
    var z := [Token(true, Word("a.num"))];
    ModeFirst(z, false);
  }

  lemma LowerCaseWindow12(ts: seq<Token>, out: seq<Token>)
    requires Agrees(ts, LowerCaseTokens) && Agrees(out, LowerCaseMasked)
    ensures |ts| == 37 && |out| == 37
    ensures ts[12..14] == [Token(true, Sym("(")), Token(false, Word("a.num"))]
    ensures out[12..13] == [Token(true, Sym("("))]
  {
    assert ts[12] == LowerCaseTokens[12] == Token(true, Sym("("));
    assert ts[13] == LowerCaseTokens[13] == Token(false, Word("a.num"));
    assert out[12] == LowerCaseMasked[12] == Token(true, Sym("("));
  }

  lemma LowerCaseWindow13(ts: seq<Token>, out: seq<Token>)
    requires Agrees(ts, LowerCaseTokens) && Agrees(out, LowerCaseMasked)
    ensures |ts| == 37 && |out| == 37
    ensures ts[13..14] == [Token(false, Word("a.num"))]
    ensures out[13..14] == [Token(false, Word("a.num"))]
  {
    assert ts[13] == LowerCaseTokens[13] == Token(false, Word("a.num"));
    assert out[13] == LowerCaseMasked[13] == Token(false, Word("a.num"));
  }

  lemma LowerCaseWindow14(ts: seq<Token>, out: seq<Token>)
    requires Agrees(ts, LowerCaseTokens) && Agrees(out, LowerCaseMasked)
    ensures |ts| == 37 && |out| == 37
    ensures ts[14..18] == [Token(true, Sym(">")), Token(true, Num("1")), Token(true, Word("AND")), Token(true, Word("a.num"))]
    ensures out[14..16] == [Token(true, Sym(">")), Token(true, Masked)]
  {
    assert ts[14] == LowerCaseTokens[14] == Token(true, Sym(">"));
    assert ts[15] == LowerCaseTokens[15] == Token(true, Num("1"));
    assert ts[16] == LowerCaseTokens[16] == Token(true, Word("AND"));
    assert ts[17] == LowerCaseTokens[17] == Token(true, Word("a.num"));
    assert out[14] == LowerCaseMasked[14] == Token(true, Sym(">"));
    assert out[15] == LowerCaseMasked[15] == Token(true, Masked);
  }

  lemma LowerCaseWindow16(ts: seq<Token>, out: seq<Token>)
    requires Agrees(ts, LowerCaseTokens) && Agrees(out, LowerCaseMasked)
    ensures |ts| == 37 && |out| == 37
    ensures ts[16..18] == [Token(true, Word("AND")), Token(true, Word("a.num"))]
    ensures out[16..17] == [Token(true, Word("AND"))]
  {
    assert ts[16] == LowerCaseTokens[16] == Token(true, Word("AND"));
    assert ts[17] == LowerCaseTokens[17] == Token(true, Word("a.num"));
    assert out[16] == LowerCaseMasked[16] == Token(true, Word("AND"));
  }

  lemma LowerCaseWindow17(ts: seq<Token>, out: seq<Token>)
    requires Agrees(ts, LowerCaseTokens) && Agrees(out, LowerCaseMasked)
    ensures |ts| == 37 && |out| == 37
    ensures ts[17..18] == [Token(true, Word("a.num"))]
    ensures out[17..18] == [Token(true, Word("a.num"))]
  {
    assert ts[17] == LowerCaseTokens[17] == Token(true, Word("a.num"));
    assert out[17] == LowerCaseMasked[17] == Token(true, Word("a.num"));
  }

  lemma LowerCaseStep12(ts: seq<Token>, out: seq<Token>)
    requires Agrees(ts, LowerCaseTokens) && Agrees(out, LowerCaseMasked)
    requires MaskedFrom(ts, out, 13, 13, false)
    ensures MaskedFrom(ts, out, 12, 12, false)
  {
    LowerCaseRewrite12();
    LowerCaseWindow12(ts, out);
    MaskAt(ts, out, 12, 12, false,
      [Token(true, Sym("(")), Token(false, Word("a.num"))],
      Step([Token(true, Sym("("))], 1, false));
  }

  lemma LowerCaseStep13(ts: seq<Token>, out: seq<Token>)
    requires Agrees(ts, LowerCaseTokens) && Agrees(out, LowerCaseMasked)
    requires MaskedFrom(ts, out, 14, 14, false)
    ensures MaskedFrom(ts, out, 13, 13, false)
  {
    LowerCaseRewrite13();
    LowerCaseWindow13(ts, out);
    MaskAt(ts, out, 13, 13, false,
      [Token(false, Word("a.num"))],
      Step([Token(false, Word("a.num"))], 1, false));
  }

  lemma LowerCaseStep14(ts: seq<Token>, out: seq<Token>)
    requires Agrees(ts, LowerCaseTokens) && Agrees(out, LowerCaseMasked)
    requires MaskedFrom(ts, out, 16, 16, false)
    ensures MaskedFrom(ts, out, 14, 14, false)
  {
    LowerCaseRewrite14();
    LowerCaseWindow14(ts, out);
    MaskAt(ts, out, 14, 14, false,
      [Token(true, Sym(">")), Token(true, Num("1")), Token(true, Word("AND")), Token(true, Word("a.num"))],
      Step([Token(true, Sym(">")), Token(true, Masked)], 2, false));
  }

  lemma LowerCaseStep16(ts: seq<Token>, out: seq<Token>)
    requires Agrees(ts, LowerCaseTokens) && Agrees(out, LowerCaseMasked)
    requires MaskedFrom(ts, out, 17, 17, false)
    ensures MaskedFrom(ts, out, 16, 16, false)
  {
    LowerCaseRewrite16();
    LowerCaseWindow16(ts, out);
    MaskAt(ts, out, 16, 16, false,
      [Token(true, Word("AND")), Token(true, Word("a.num"))],
      Step([Token(true, Word("AND"))], 1, false));
  }

  lemma LowerCaseStep17(ts: seq<Token>, out: seq<Token>)
    requires Agrees(ts, LowerCaseTokens) && Agrees(out, LowerCaseMasked)
    requires MaskedFrom(ts, out, 18, 18, false)
    ensures MaskedFrom(ts, out, 17, 17, false)
  {
    LowerCaseRewrite17();
    LowerCaseWindow17(ts, out);
    MaskAt(ts, out, 17, 17, false,
      [Token(true, Word("a.num"))],
      Step([Token(true, Word("a.num"))], 1, false));
  }

  lemma LowerCaseRewrite5()
    ensures Rewrite([Token(true, Word("a.id"))], false) == Edit([Token(true, Word("a.id"))], 1)
    ensures Mode([Token(true, Word("a.id"))][..1], false) == false && PlainEnd([Token(true, Word("a.id"))])
  {
    var z := [Token(true, Word("a.id"))];
    ModeFirst(z, false);
  }

  lemma LowerCaseRewrite6()
    ensures Rewrite([Token(true, Sym("=")), Token(true, Num("1")), Token(true, Word("AND")), Token(true, Word("a.uid"))], false) == Edit([Token(true, Sym("=")), Token(true, Masked)], 2)
    ensures Mode([Token(true, Sym("=")), Token(true, Num("1")), Token(true, Word("AND")), Token(true, Word("a.uid"))][..2], false) == false && PlainEnd([Token(true, Sym("=")), Token(true, Num("1")), Token(true, Word("AND")), Token(true, Word("a.uid"))])
  {
    var z := [Token(true, Sym("=")), Token(true, Num("1")), Token(true, Word("AND")), Token(true, Word("a.uid"))];
    QuietMode(z[..2], false);
  }

  lemma LowerCaseRewrite8()
    ensures Rewrite([Token(true, Word("AND")), Token(true, Word("a.uid"))], false) == Edit([Token(true, Word("AND"))], 1)
    ensures Mode([Token(true, Word("AND")), Token(true, Word("a.uid"))][..1], false) == false && PlainEnd([Token(true, Word("AND")), Token(true, Word("a.uid"))])
  {
    var z := [Token(true, Word("AND")), Token(true, Word("a.uid"))];
    ModeFirst(z, false);
  }

  lemma LowerCaseRewrite9()
    ensures Rewrite([Token(true, Word("a.uid"))], false) == Edit([Token(true, Word("a.uid"))], 1)
    ensures Mode([Token(true, Word("a.uid"))][..1], false) == false && PlainEnd([Token(true, Word("a.uid"))])
  {
    var z := [Token(true, Word("a.uid"))];
    ModeFirst(z, false);
  }

  lemma LowerCaseRewrite10()
    ensures Rewrite([Token(true, Sym("!=")), Token(true, Quoted("bbb")), Token(true, Sym("(")), Token(false, Word("a.num"))], false) == Edit([Token(true, Sym("!=")), Token(true, Masked)], 2)
    ensures Mode([Token(true, Sym("!=")), Token(true, Quoted("bbb")), Token(true, Sym("(")), Token(false, Word("a.num"))][..2], false) == false && PlainEnd([Token(true, Sym("!=")), Token(true, Quoted("bbb")), Token(true, Sym("(")), Token(false, Word("a.num"))])
  {
    var z := [Token(true, Sym("!=")), Token(true, Quoted("bbb")), Token(true, Sym("(")), Token(false, Word("a.num"))];
    QuietMode(z[..2], false);
  }

  lemma LowerCaseWindow5(ts: seq<Token>, out: seq<Token>)
    requires Agrees(ts, LowerCaseTokens) && Agrees(out, LowerCaseMasked)
    ensures |ts| == 37 && |out| == 37
    ensures ts[5..6] == [Token(true, Word("a.id"))]
    ensures out[5..6] == [Token(true, Word("a.id"))]
  {
    assert ts[5] == LowerCaseTokens[5] == Token(true, Word("a.id"));
    assert out[5] == LowerCaseMasked[5] == Token(true, Word("a.id"));
  }

  lemma LowerCaseWindow6(ts: seq<Token>, out: seq<Token>)
    requires Agrees(ts, LowerCaseTokens) && Agrees(out, LowerCaseMasked)
    ensures |ts| == 37 && |out| == 37
    ensures ts[6..10] == [Token(true, Sym("=")), Token(true, Num("1")), Token(true, Word("AND")), Token(true, Word("a.uid"))]
    ensures out[6..8] == [Token(true, Sym("=")), Token(true, Masked)]
  {
    assert ts[6] == LowerCaseTokens[6] == Token(true, Sym("="));
    assert ts[7] == LowerCaseTokens[7] == Token(true, Num("1"));
    assert ts[8] == LowerCaseTokens[8] == Token(true, Word("AND"));
    assert ts[9] == LowerCaseTokens[9] == Token(true, Word("a.uid"));
    assert out[6] == LowerCaseMasked[6] == Token(true, Sym("="));
    assert out[7] == LowerCaseMasked[7] == Token(true, Masked);
  }

  lemma LowerCaseWindow8(ts: seq<Token>, out: seq<Token>)
    requires Agrees(ts, LowerCaseTokens) && Agrees(out, LowerCaseMasked)
    ensures |ts| == 37 && |out| == 37
    ensures ts[8..10] == [Token(true, Word("AND")), Token(true, Word("a.uid"))]
    ensures out[8..9] == [Token(true, Word("AND"))]
  {
    assert ts[8] == LowerCaseTokens[8] == Token(true, Word("AND"));
    assert ts[9] == LowerCaseTokens[9] == Token(true, Word("a.uid"));
    assert out[8] == LowerCaseMasked[8] == Token(true, Word("AND"));
  }

  lemma LowerCaseWindow9(ts: seq<Token>, out: seq<Token>)
    requires Agrees(ts, LowerCaseTokens) && Agrees(out, LowerCaseMasked)
    ensures |ts| == 37 && |out| == 37
    ensures ts[9..10] == [Token(true, Word("a.uid"))]
    ensures out[9..10] == [Token(true, Word("a.uid"))]
  {
    assert ts[9] == LowerCaseTokens[9] == Token(true, Word("a.uid"));
    assert out[9] == LowerCaseMasked[9] == Token(true, Word("a.uid"));
  }

  lemma LowerCaseWindow10(ts: seq<Token>, out: seq<Token>)
    requires Agrees(ts, LowerCaseTokens) && Agrees(out, LowerCaseMasked)
    ensures |ts| == 37 && |out| == 37
    ensures ts[10..14] == [Token(true, Sym("!=")), Token(true, Quoted("bbb")), Token(true, Sym("(")), Token(false, Word("a.num"))]
    ensures out[10..12] == [Token(true, Sym("!=")), Token(true, Masked)]
  {
    assert ts[10] == LowerCaseTokens[10] == Token(true, Sym("!="));
    assert ts[11] == LowerCaseTokens[11] == Token(true, Quoted("bbb"));
    assert ts[12] == LowerCaseTokens[12] == Token(true, Sym("("));
    assert ts[13] == LowerCaseTokens[13] == Token(false, Word("a.num"));
    assert out[10] == LowerCaseMasked[10] == Token(true, Sym("!="));
    assert out[11] == LowerCaseMasked[11] == Token(true, Masked);
  }

  lemma LowerCaseStep5(ts: seq<Token>, out: seq<Token>)
    requires Agrees(ts, LowerCaseTokens) && Agrees(out, LowerCaseMasked)
    requires MaskedFrom(ts, out, 6, 6, false)
    ensures MaskedFrom(ts, out, 5, 5, false)
  {
    LowerCaseRewrite5();
    LowerCaseWindow5(ts, out);
    MaskAt(ts, out, 5, 5, false,
      [Token(true, Word("a.id"))],
      Step([Token(true, Word("a.id"))], 1, false));
  }

  lemma LowerCaseStep6(ts: seq<Token>, out: seq<Token>)
    requires Agrees(ts, LowerCaseTokens) && Agrees(out, LowerCaseMasked)
    requires MaskedFrom(ts, out, 8, 8, false)
    ensures MaskedFrom(ts, out, 6, 6, false)
  {
    LowerCaseRewrite6();
    LowerCaseWindow6(ts, out);
    MaskAt(ts, out, 6, 6, false,
      [Token(true, Sym("=")), Token(true, Num("1")), Token(true, Word("AND")), Token(true, Word("a.uid"))],
      Step([Token(true, Sym("=")), Token(true, Masked)], 2, false));
  }

  lemma LowerCaseStep8(ts: seq<Token>, out: seq<Token>)
    requires Agrees(ts, LowerCaseTokens) && Agrees(out, LowerCaseMasked)
    requires MaskedFrom(ts, out, 9, 9, false)
    ensures MaskedFrom(ts, out, 8, 8, false)
  {
    LowerCaseRewrite8();
    LowerCaseWindow8(ts, out);
    MaskAt(ts, out, 8, 8, false,
      [Token(true, Word("AND")), Token(true, Word("a.uid"))],
      Step([Token(true, Word("AND"))], 1, false));
  }

  lemma LowerCaseStep9(ts: seq<Token>, out: seq<Token>)
    requires Agrees(ts, LowerCaseTokens) && Agrees(out, LowerCaseMasked)
    requires MaskedFrom(ts, out, 10, 10, false)
    ensures MaskedFrom(ts, out, 9, 9, false)
  {
    LowerCaseRewrite9();
    LowerCaseWindow9(ts, out);
    MaskAt(ts, out, 9, 9, false,
      [Token(true, Word("a.uid"))],
      Step([Token(true, Word("a.uid"))], 1, false));
  }

  lemma LowerCaseStep10(ts: seq<Token>, out: seq<Token>)
    requires Agrees(ts, LowerCaseTokens) && Agrees(out, LowerCaseMasked)
    requires MaskedFrom(ts, out, 12, 12, false)
    ensures MaskedFrom(ts, out, 10, 10, false)
  {
    LowerCaseRewrite10();
    LowerCaseWindow10(ts, out);
    MaskAt(ts, out, 10, 10, false,
      [Token(true, Sym("!=")), Token(true, Quoted("bbb")), Token(true, Sym("(")), Token(false, Word("a.num"))],
      Step([Token(true, Sym("!=")), Token(true, Masked)], 2, false));
  }

  lemma LowerCaseRewrite0()
    ensures Rewrite([Token(false, Word("SELECT"))], false) == Edit([Token(false, Word("SELECT"))], 1)
    ensures Mode([Token(false, Word("SELECT"))][..1], false) == false && PlainEnd([Token(false, Word("SELECT"))])
  {
    var z := [Token(false, Word("SELECT"))];
    ModeFirst(z, false);
  }

  lemma LowerCaseRewrite1()
    ensures Rewrite([Token(true, Sym("*")), Token(true, Word("FROM"))], false) == Edit([Token(true, Sym("*"))], 1)
    ensures Mode([Token(true, Sym("*")), Token(true, Word("FROM"))][..1], false) == false && PlainEnd([Token(true, Sym("*")), Token(true, Word("FROM"))])
  {
    var z := [Token(true, Sym("*")), Token(true, Word("FROM"))];
    ModeFirst(z, false);
  }

  lemma LowerCaseRewrite2()
    ensures Rewrite([Token(true, Word("FROM"))], false) == Edit([Token(true, Word("FROM"))], 1)
    ensures Mode([Token(true, Word("FROM"))][..1], false) == false && PlainEnd([Token(true, Word("FROM"))])
  {
    var z := [Token(true, Word("FROM"))];
    ModeFirst(z, false);
  }

  lemma LowerCaseRewrite3()
    ensures Rewrite([Token(true, Word("a"))], false) == Edit([Token(true, Word("a"))], 1)
    ensures Mode([Token(true, Word("a"))][..1], false) == false && PlainEnd([Token(true, Word("a"))])
  {
    var z := [Token(true, Word("a"))];
    ModeFirst(z, false);
  }

  lemma LowerCaseRewrite4()
    ensures Rewrite([Token(true, Word("where"))], false) == Edit([Token(true, Word("where"))], 1)
    ensures Mode([Token(true, Word("where"))][..1], false) == false && PlainEnd([Token(true, Word("where"))])
  {
    var z := [Token(true, Word("where"))];
    ModeFirst(z, false);
  }

  lemma LowerCaseWindow0(ts: seq<Token>, out: seq<Token>)
    requires Agrees(ts, LowerCaseTokens) && Agrees(out, LowerCaseMasked)
    ensures |ts| == 37 && |out| == 37
    ensures ts[0..1] == [Token(false, Word("SELECT"))]
    ensures out[0..1] == [Token(false, Word("SELECT"))]
  {
    assert ts[0] == LowerCaseTokens[0] == Token(false, Word("SELECT"));
    assert out[0] == LowerCaseMasked[0] == Token(false, Word("SELECT"));
  }

  lemma LowerCaseWindow1(ts: seq<Token>, out: seq<Token>)
    requires Agrees(ts, LowerCaseTokens) && Agrees(out, LowerCaseMasked)
    ensures |ts| == 37 && |out| == 37
    ensures ts[1..3] == [Token(true, Sym("*")), Token(true, Word("FROM"))]
    ensures out[1..2] == [Token(true, Sym("*"))]
  {
    assert ts[1] == LowerCaseTokens[1] == Token(true, Sym("*"));
    assert ts[2] == LowerCaseTokens[2] == Token(true, Word("FROM"));
    assert out[1] == LowerCaseMasked[1] == Token(true, Sym("*"));
  }

  lemma LowerCaseWindow2(ts: seq<Token>, out: seq<Token>)
    requires Agrees(ts, LowerCaseTokens) && Agrees(out, LowerCaseMasked)
    ensures |ts| == 37 && |out| == 37
    ensures ts[2..3] == [Token(true, Word("FROM"))]
    ensures out[2..3] == [Token(true, Word("FROM"))]
  {
    assert ts[2] == LowerCaseTokens[2] == Token(true, Word("FROM"));
    assert out[2] == LowerCaseMasked[2] == Token(true, Word("FROM"));
  }

  lemma LowerCaseWindow3(ts: seq<Token>, out: seq<Token>)
    requires Agrees(ts, LowerCaseTokens) && Agrees(out, LowerCaseMasked)
    ensures |ts| == 37 && |out| == 37
    ensures ts[3..4] == [Token(true, Word("a"))]
    ensures out[3..4] == [Token(true, Word("a"))]
  {
    assert ts[3] == LowerCaseTokens[3] == Token(true, Word("a"));
    assert out[3] == LowerCaseMasked[3] == Token(true, Word("a"));
  }

  lemma LowerCaseWindow4(ts: seq<Token>, out: seq<Token>)
    requires Agrees(ts, LowerCaseTokens) && Agrees(out, LowerCaseMasked)
    ensures |ts| == 37 && |out| == 37
    ensures ts[4..5] == [Token(true, Word("where"))]
    ensures out[4..5] == [Token(true, Word("where"))]
  {
    assert ts[4] == LowerCaseTokens[4] == Token(true, Word("where"));
    assert out[4] == LowerCaseMasked[4] == Token(true, Word("where"));
  }

  lemma LowerCaseStep0(ts: seq<Token>, out: seq<Token>)
    requires Agrees(ts, LowerCaseTokens) && Agrees(out, LowerCaseMasked)
    requires MaskedFrom(ts, out, 1, 1, false)
    ensures MaskedFrom(ts, out, 0, 0, false)
  {
    LowerCaseRewrite0();
    LowerCaseWindow0(ts, out);
    MaskAt(ts, out, 0, 0, false,
      [Token(false, Word("SELECT"))],
      Step([Token(false, Word("SELECT"))], 1, false));
  }

  lemma LowerCaseStep1(ts: seq<Token>, out: seq<Token>)
    requires Agrees(ts, LowerCaseTokens) && Agrees(out, LowerCaseMasked)
    requires MaskedFrom(ts, out, 2, 2, false)
    ensures MaskedFrom(ts, out, 1, 1, false)
  {
    LowerCaseRewrite1();
    LowerCaseWindow1(ts, out);
    MaskAt(ts, out, 1, 1, false,
      [Token(true, Sym("*")), Token(true, Word("FROM"))],
      Step([Token(true, Sym("*"))], 1, false));
  }

  lemma LowerCaseStep2(ts: seq<Token>, out: seq<Token>)
    requires Agrees(ts, LowerCaseTokens) && Agrees(out, LowerCaseMasked)
    requires MaskedFrom(ts, out, 3, 3, false)
    ensures MaskedFrom(ts, out, 2, 2, false)
  {
    LowerCaseRewrite2();
    LowerCaseWindow2(ts, out);
    MaskAt(ts, out, 2, 2, false,
      [Token(true, Word("FROM"))],
      Step([Token(true, Word("FROM"))], 1, false));
  }

  lemma LowerCaseStep3(ts: seq<Token>, out: seq<Token>)
    requires Agrees(ts, LowerCaseTokens) && Agrees(out, LowerCaseMasked)
    requires MaskedFrom(ts, out, 4, 4, false)
    ensures MaskedFrom(ts, out, 3, 3, false)
  {
    LowerCaseRewrite3();
    LowerCaseWindow3(ts, out);
    MaskAt(ts, out, 3, 3, false,
      [Token(true, Word("a"))],
      Step([Token(true, Word("a"))], 1, false));
  }

  lemma LowerCaseStep4(ts: seq<Token>, out: seq<Token>)
    requires Agrees(ts, LowerCaseTokens) && Agrees(out, LowerCaseMasked)
    requires MaskedFrom(ts, out, 5, 5, false)
    ensures MaskedFrom(ts, out, 4, 4, false)
  {
    LowerCaseRewrite4();
    LowerCaseWindow4(ts, out);
    MaskAt(ts, out, 4, 4, false,
      [Token(true, Word("where"))],
      Step([Token(true, Word("where"))], 1, false));
  }

  lemma LowerCaseMasking(ts: seq<Token>, out: seq<Token>)
    requires Agrees(ts, LowerCaseTokens) && Agrees(out, LowerCaseMasked)
    ensures MaskedFrom(ts, out, 0, 0, false)
  {
    LowerCaseStep33(ts, out);
    LowerCaseStep32(ts, out);
    LowerCaseStep31(ts, out);
    LowerCaseStep30(ts, out);
    LowerCaseStep28(ts, out);
    LowerCaseStep27(ts, out);
    LowerCaseStep26(ts, out);
    LowerCaseStep24(ts, out);
    LowerCaseStep23(ts, out);
    LowerCaseStep22(ts, out);
    LowerCaseStep21(ts, out);
    LowerCaseStep20(ts, out);
    LowerCaseStep18(ts, out);
    LowerCaseStep17(ts, out);
    LowerCaseStep16(ts, out);
    LowerCaseStep14(ts, out);
    LowerCaseStep13(ts, out);
    LowerCaseStep12(ts, out);
    LowerCaseStep10(ts, out);
    LowerCaseStep9(ts, out);
    LowerCaseStep8(ts, out);
    LowerCaseStep6(ts, out);
    LowerCaseStep5(ts, out);
    LowerCaseStep4(ts, out);
    LowerCaseStep3(ts, out);
    LowerCaseStep2(ts, out);
    LowerCaseStep1(ts, out);
    LowerCaseStep0(ts, out);
  }

  lemma LowerCaseOutput1(out: seq<Token>, es: seq<string>)
    requires Agrees(out, LowerCaseMasked) && Agrees(es, LowerCaseCleaned)
    ensures |out| == 37 && |es| == 37
    ensures es[0] == RenderToken(out[0])
    ensures es[1] == RenderToken(out[1])
    ensures es[2] == RenderToken(out[2])
    ensures es[3] == RenderToken(out[3])
  {
    assert out[0] == LowerCaseMasked[0] == Token(false, Word("SELECT"));
    assert es[0] == LowerCaseCleaned[0] == "SELECT";
    assert out[1] == LowerCaseMasked[1] == Token(true, Sym("*"));
    assert es[1] == LowerCaseCleaned[1] == " *";
    assert out[2] == LowerCaseMasked[2] == Token(true, Word("FROM"));
    assert es[2] == LowerCaseCleaned[2] == " FROM";
    assert out[3] == LowerCaseMasked[3] == Token(true, Word("a"));
    assert es[3] == LowerCaseCleaned[3] == " a";
  }

  lemma LowerCaseRendered1(out: seq<Token>, es: seq<string>)
    requires Agrees(out, LowerCaseMasked) && Agrees(es, LowerCaseCleaned)
    ensures Rendered(out, es, 4)
  {
    LowerCaseOutput1(out, es);
    RenderedStart(out, es);
    RenderedNext(out, es, 0);
    RenderedNext(out, es, 1);
    RenderedNext(out, es, 2);
    RenderedNext(out, es, 3);
  }

  lemma LowerCaseOutput2(out: seq<Token>, es: seq<string>)
    requires Agrees(out, LowerCaseMasked) && Agrees(es, LowerCaseCleaned)
    ensures |out| == 37 && |es| == 37
    ensures es[4] == RenderToken(out[4])
    ensures es[5] == RenderToken(out[5])
    ensures es[6] == RenderToken(out[6])
    ensures es[7] == RenderToken(out[7])
  {
    assert out[4] == LowerCaseMasked[4] == Token(true, Word("where"));
    assert es[4] == LowerCaseCleaned[4] == " where";
    assert out[5] == LowerCaseMasked[5] == Token(true, Word("a.id"));
    assert es[5] == LowerCaseCleaned[5] == " a.id";
    assert out[6] == LowerCaseMasked[6] == Token(true, Sym("="));
    assert es[6] == LowerCaseCleaned[6] == " =";
    assert out[7] == LowerCaseMasked[7] == Token(true, Masked);
    assert es[7] == LowerCaseCleaned[7] == " ???";
  }

  lemma LowerCaseRendered2(out: seq<Token>, es: seq<string>)
    requires Agrees(out, LowerCaseMasked) && Agrees(es, LowerCaseCleaned)
    requires Rendered(out, es, 4)
    ensures Rendered(out, es, 8)
  {
    LowerCaseOutput2(out, es);
    RenderedNext(out, es, 4);
    RenderedNext(out, es, 5);
    RenderedNext(out, es, 6);
    RenderedNext(out, es, 7);
  }

  lemma LowerCaseOutput3(out: seq<Token>, es: seq<string>)
    requires Agrees(out, LowerCaseMasked) && Agrees(es, LowerCaseCleaned)
    ensures |out| == 37 && |es| == 37
    ensures es[8] == RenderToken(out[8])
    ensures es[9] == RenderToken(out[9])
    ensures es[10] == RenderToken(out[10])
    ensures es[11] == RenderToken(out[11])
  {
    assert out[8] == LowerCaseMasked[8] == Token(true, Word("AND"));
    assert es[8] == LowerCaseCleaned[8] == " AND";
    assert out[9] == LowerCaseMasked[9] == Token(true, Word("a.uid"));
    assert es[9] == LowerCaseCleaned[9] == " a.uid";
    assert out[10] == LowerCaseMasked[10] == Token(true, Sym("!="));
    assert es[10] == LowerCaseCleaned[10] == " !=";
    assert out[11] == LowerCaseMasked[11] == Token(true, Masked);
    assert es[11] == LowerCaseCleaned[11] == " ???";
  }

  lemma LowerCaseRendered3(out: seq<Token>, es: seq<string>)
    requires Agrees(out, LowerCaseMasked) && Agrees(es, LowerCaseCleaned)
    requires Rendered(out, es, 8)
    ensures Rendered(out, es, 12)
  {
    LowerCaseOutput3(out, es);
    RenderedNext(out, es, 8);
    RenderedNext(out, es, 9);
    RenderedNext(out, es, 10);
    RenderedNext(out, es, 11);
  }

  lemma LowerCaseOutput4(out: seq<Token>, es: seq<string>)
    requires Agrees(out, LowerCaseMasked) && Agrees(es, LowerCaseCleaned)
    ensures |out| == 37 && |es| == 37
    ensures es[12] == RenderToken(out[12])
    ensures es[13] == RenderToken(out[13])
    ensures es[14] == RenderToken(out[14])
    ensures es[15] == RenderToken(out[15])
  {
    assert out[12] == LowerCaseMasked[12] == Token(true, Sym("("));
    assert es[12] == LowerCaseCleaned[12] == " (";
    assert out[13] == LowerCaseMasked[13] == Token(false, Word("a.num"));
    assert es[13] == LowerCaseCleaned[13] == "a.num";
    assert out[14] == LowerCaseMasked[14] == Token(true, Sym(">"));
    assert es[14] == LowerCaseCleaned[14] == " >";
    assert out[15] == LowerCaseMasked[15] == Token(true, Masked);
    assert es[15] == LowerCaseCleaned[15] == " ???";
  }

  lemma LowerCaseRendered4(out: seq<Token>, es: seq<string>)
    requires Agrees(out, LowerCaseMasked) && Agrees(es, LowerCaseCleaned)
    requires Rendered(out, es, 12)
    ensures Rendered(out, es, 16)
  {
    LowerCaseOutput4(out, es);
    RenderedNext(out, es, 12);
    RenderedNext(out, es, 13);
    RenderedNext(out, es, 14);
    RenderedNext(out, es, 15);
  }

  lemma LowerCaseOutput5(out: seq<Token>, es: seq<string>)
    requires Agrees(out, LowerCaseMasked) && Agrees(es, LowerCaseCleaned)
    ensures |out| == 37 && |es| == 37
    ensures es[16] == RenderToken(out[16])
    ensures es[17] == RenderToken(out[17])
    ensures es[18] == RenderToken(out[18])
    ensures es[19] == RenderToken(out[19])
  {
    assert out[16] == LowerCaseMasked[16] == Token(true, Word("AND"));
    assert es[16] == LowerCaseCleaned[16] == " AND";
    assert out[17] == LowerCaseMasked[17] == Token(true, Word("a.num"));
    assert es[17] == LowerCaseCleaned[17] == " a.num";
    assert out[18] == LowerCaseMasked[18] == Token(true, Sym("<"));
    assert es[18] == LowerCaseCleaned[18] == " <";
    assert out[19] == LowerCaseMasked[19] == Token(true, Masked);
    assert es[19] == LowerCaseCleaned[19] == " ???";
  }

  lemma LowerCaseRendered5(out: seq<Token>, es: seq<string>)
    requires Agrees(out, LowerCaseMasked) && Agrees(es, LowerCaseCleaned)
    requires Rendered(out, es, 16)
    ensures Rendered(out, es, 20)
  {
    LowerCaseOutput5(out, es);
    RenderedNext(out, es, 16);
    RenderedNext(out, es, 17);
    RenderedNext(out, es, 18);
    RenderedNext(out, es, 19);
  }

  lemma LowerCaseOutput6(out: seq<Token>, es: seq<string>)
    requires Agrees(out, LowerCaseMasked) && Agrees(es, LowerCaseCleaned)
    ensures |out| == 37 && |es| == 37
    ensures es[20] == RenderToken(out[20])
    ensures es[21] == RenderToken(out[21])
    ensures es[22] == RenderToken(out[22])
    ensures es[23] == RenderToken(out[23])
  {
    assert out[20] == LowerCaseMasked[20] == Token(false, Sym(")"));
    assert es[20] == LowerCaseCleaned[20] == ")";
    assert out[21] == LowerCaseMasked[21] == Token(true, Word("AND"));
    assert es[21] == LowerCaseCleaned[21] == " AND";
    assert out[22] == LowerCaseMasked[22] == Token(true, Sym("("));
    assert es[22] == LowerCaseCleaned[22] == " (";
    assert out[23] == LowerCaseMasked[23] == Token(false, Word("start_date"));
    assert es[23] == LowerCaseCleaned[23] == "start_date";
  }

  lemma LowerCaseRendered6(out: seq<Token>, es: seq<string>)
    requires Agrees(out, LowerCaseMasked) && Agrees(es, LowerCaseCleaned)
    requires Rendered(out, es, 20)
    ensures Rendered(out, es, 24)
  {
    LowerCaseOutput6(out, es);
    RenderedNext(out, es, 20);
    RenderedNext(out, es, 21);
    RenderedNext(out, es, 22);
    RenderedNext(out, es, 23);
  }

  lemma LowerCaseOutput7(out: seq<Token>, es: seq<string>)
    requires Agrees(out, LowerCaseMasked) && Agrees(es, LowerCaseCleaned)
    ensures |out| == 37 && |es| == 37
    ensures es[24] == RenderToken(out[24])
    ensures es[25] == RenderToken(out[25])
    ensures es[26] == RenderToken(out[26])
    ensures es[27] == RenderToken(out[27])
  {
    assert out[24] == LowerCaseMasked[24] == Token(true, Sym(">="));
    assert es[24] == LowerCaseCleaned[24] == " >=";
    assert out[25] == LowerCaseMasked[25] == Token(true, Masked);
    assert es[25] == LowerCaseCleaned[25] == " ???";
    assert out[26] == LowerCaseMasked[26] == Token(true, Word("AND"));
    assert es[26] == LowerCaseCleaned[26] == " AND";
    assert out[27] == LowerCaseMasked[27] == Token(true, Word("end_date"));
    assert es[27] == LowerCaseCleaned[27] == " end_date";
  }

  lemma LowerCaseRendered7(out: seq<Token>, es: seq<string>)
    requires Agrees(out, LowerCaseMasked) && Agrees(es, LowerCaseCleaned)
    requires Rendered(out, es, 24)
    ensures Rendered(out, es, 28)
  {
    LowerCaseOutput7(out, es);
    RenderedNext(out, es, 24);
    RenderedNext(out, es, 25);
    RenderedNext(out, es, 26);
    RenderedNext(out, es, 27);
  }

  lemma LowerCaseOutput8(out: seq<Token>, es: seq<string>)
    requires Agrees(out, LowerCaseMasked) && Agrees(es, LowerCaseCleaned)
    ensures |out| == 37 && |es| == 37
    ensures es[28] == RenderToken(out[28])
    ensures es[29] == RenderToken(out[29])
    ensures es[30] == RenderToken(out[30])
    ensures es[31] == RenderToken(out[31])
  {
    assert out[28] == LowerCaseMasked[28] == Token(true, Sym("<="));
    assert es[28] == LowerCaseCleaned[28] == " <=";
    assert out[29] == LowerCaseMasked[29] == Token(true, Masked);
    assert es[29] == LowerCaseCleaned[29] == " ???";
    assert out[30] == LowerCaseMasked[30] == Token(false, Sym(")"));
    assert es[30] == LowerCaseCleaned[30] == ")";
    assert out[31] == LowerCaseMasked[31] == Token(true, Word("AND"));
    assert es[31] == LowerCaseCleaned[31] == " AND";
  }

  lemma LowerCaseRendered8(out: seq<Token>, es: seq<string>)
    requires Agrees(out, LowerCaseMasked) && Agrees(es, LowerCaseCleaned)
    requires Rendered(out, es, 28)
    ensures Rendered(out, es, 32)
  {
    LowerCaseOutput8(out, es);
    RenderedNext(out, es, 28);
    RenderedNext(out, es, 29);
    RenderedNext(out, es, 30);
    RenderedNext(out, es, 31);
  }

  lemma LowerCaseOutput9(out: seq<Token>, es: seq<string>)
    requires Agrees(out, LowerCaseMasked) && Agrees(es, LowerCaseCleaned)
    ensures |out| == 37 && |es| == 37
    ensures es[32] == RenderToken(out[32])
    ensures es[33] == RenderToken(out[33])
    ensures es[34] == RenderToken(out[34])
    ensures es[35] == RenderToken(out[35])
  {
    assert out[32] == LowerCaseMasked[32] == Token(true, Word("a.total"));
    assert es[32] == LowerCaseCleaned[32] == " a.total";
    assert out[33] == LowerCaseMasked[33] == Token(true, Word("between"));
    assert es[33] == LowerCaseCleaned[33] == " between";
    assert out[34] == LowerCaseMasked[34] == Token(true, Masked);
    assert es[34] == LowerCaseCleaned[34] == " ???";
    assert out[35] == LowerCaseMasked[35] == Token(true, Word("and"));
    assert es[35] == LowerCaseCleaned[35] == " and";
  }

  lemma LowerCaseRendered9(out: seq<Token>, es: seq<string>)
    requires Agrees(out, LowerCaseMasked) && Agrees(es, LowerCaseCleaned)
    requires Rendered(out, es, 32)
    ensures Rendered(out, es, 36)
  {
    LowerCaseOutput9(out, es);
    RenderedNext(out, es, 32);
    RenderedNext(out, es, 33);
    RenderedNext(out, es, 34);
    RenderedNext(out, es, 35);
  }

  lemma LowerCaseOutput10(out: seq<Token>, es: seq<string>)
    requires Agrees(out, LowerCaseMasked) && Agrees(es, LowerCaseCleaned)
    ensures |out| == 37 && |es| == 37
    ensures es[36] == RenderToken(out[36])
  {
    assert out[36] == LowerCaseMasked[36] == Token(true, Masked);
    assert es[36] == LowerCaseCleaned[36] == " ???";
  }

  lemma LowerCaseRendered10(out: seq<Token>, es: seq<string>)
    requires Agrees(out, LowerCaseMasked) && Agrees(es, LowerCaseCleaned)
    requires Rendered(out, es, 36)
    ensures Rendered(out, es, 37)
  {
    LowerCaseOutput10(out, es);
    RenderedNext(out, es, 36);
  }

  lemma LowerCaseRendering(out: seq<Token>, es: seq<string>)
    requires Agrees(out, LowerCaseMasked) && Agrees(es, LowerCaseCleaned)
    ensures Rendered(out, es, |out|) && |es| == |out|
  {
    LowerCaseRendered1(out, es);
    LowerCaseRendered2(out, es);
    LowerCaseRendered3(out, es);
    LowerCaseRendered4(out, es);
    LowerCaseRendered5(out, es);
    LowerCaseRendered6(out, es);
    LowerCaseRendered7(out, es);
    LowerCaseRendered8(out, es);
    LowerCaseRendered9(out, es);
    LowerCaseRendered10(out, es);
  }

  lemma LowerCaseByPieces(qs: seq<string>, ts: seq<Token>, out: seq<Token>, es: seq<string>)
    requires Agrees(qs, LowerCaseQuery) && Agrees(ts, LowerCaseTokens)
    requires Agrees(out, LowerCaseMasked) && Agrees(es, LowerCaseCleaned)
    ensures CleanSqlQuery(Join(qs)) == Join(es)
  {
    LowerCaseLexing(qs, ts);
    LowerCaseMasking(ts, out);
    LowerCaseRendering(out, es);
    CleanByPieces(qs, ts, out, es);
  }

  lemma CleanCaseInsensitive()
    ensures CleanSqlQuery(Join(LowerCaseQuery)) == Join(LowerCaseCleaned)
  {
    LowerCaseByPieces(LowerCaseQuery, LowerCaseTokens, LowerCaseMasked, LowerCaseCleaned);
  }
}
