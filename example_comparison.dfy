module ComparisonExample {
  /* A worked example of the masker: operands of comparison operators, of
     `BETWEEN ... AND ...`, of `LIMIT` and of `OFFSET` are masked; the
     keywords stay. `ComparisonQuery` is the statement as written, cut into
     pieces of whitespace and one token each, and `ComparisonCleaned` is the
     expected text cut into the rendered output tokens; `ComparisonTokens`
     and `ComparisonMasked` are the tokens before and after masking. The
     proof follows the pieces: each piece lexes to its token, each masking
     step is computed on a short window of tokens that ends with an ordinary
     word, and each output token renders as its expected piece. */
  import opened Passes
  import opened SqlText
  import opened SqlLexer
  import opened SqlMasker
  import opened SqlMaskSplit
  import opened SqlPieces

  /** The statement of test_clean_values_from_comparison_operators. */
  const ComparisonQuery1: seq<string> := ["\n        SELECT", " *", " FROM", " a"]
  const ComparisonQuery2: seq<string> := ["\n        WHERE", " a.id", " =", " 1", " AND", " a.uid", " !=", " 'bbb'"]
  const ComparisonQuery3: seq<string> := ["\n        (", "a.num", " >", " 1", " AND", " a.num", " <", " 3", ")", " AND"]
  const ComparisonQuery4: seq<string> := ["\n        (", "start_date", " >=", " '2010-01-01'", " AND", " end_date", " <=", " '2010-10-01'", ")", " AND"]
  const ComparisonQuery5: seq<string> := ["\n        a.total", " BETWEEN", " 0", " AND", " 100", " LIMIT", " 25", " OFFSET", " 0"]
  const ComparisonQuery6: seq<string> := ["\n      "]
  const ComparisonQuery: seq<string> :=
    ComparisonQuery1 + ComparisonQuery2 + ComparisonQuery3 + ComparisonQuery4 + ComparisonQuery5 + ComparisonQuery6

  const ComparisonCleaned1: seq<string> := ["SELECT", " *", " FROM", " a", " WHERE", " a.id", " =", " ???"]
  const ComparisonCleaned2: seq<string> := [" AND", " a.uid", " !=", " ???", " (", "a.num", " >", " ???"]
  const ComparisonCleaned3: seq<string> := [" AND", " a.num", " <", " ???", ")", " AND", " (", "start_date"]
  const ComparisonCleaned4: seq<string> := [" >=", " ???", " AND", " end_date", " <=", " ???", ")", " AND"]
  const ComparisonCleaned5: seq<string> := [" a.total", " BETWEEN", " ???", " AND", " ???", " LIMIT", " ???", " OFFSET"]
  const ComparisonCleaned6: seq<string> := [" ???"]
  const ComparisonCleaned: seq<string> :=
    ComparisonCleaned1 + ComparisonCleaned2 + ComparisonCleaned3 + ComparisonCleaned4 + ComparisonCleaned5 + ComparisonCleaned6

  ghost const ComparisonTokens1: seq<Token> := [Token(false, Word("SELECT")), Token(true, Sym("*")), Token(true, Word("FROM")), Token(true, Word("a")), Token(true, Word("WHERE")), Token(true, Word("a.id"))]
  ghost const ComparisonTokens2: seq<Token> := [Token(true, Sym("=")), Token(true, Num("1")), Token(true, Word("AND")), Token(true, Word("a.uid")), Token(true, Sym("!=")), Token(true, Quoted("bbb"))]
  ghost const ComparisonTokens3: seq<Token> := [Token(true, Sym("(")), Token(false, Word("a.num")), Token(true, Sym(">")), Token(true, Num("1")), Token(true, Word("AND")), Token(true, Word("a.num"))]
  ghost const ComparisonTokens4: seq<Token> := [Token(true, Sym("<")), Token(true, Num("3")), Token(false, Sym(")")), Token(true, Word("AND")), Token(true, Sym("(")), Token(false, Word("start_date"))]
  ghost const ComparisonTokens5: seq<Token> := [Token(true, Sym(">=")), Token(true, Quoted("2010-01-01")), Token(true, Word("AND")), Token(true, Word("end_date")), Token(true, Sym("<=")), Token(true, Quoted("2010-10-01"))]
  ghost const ComparisonTokens6: seq<Token> := [Token(false, Sym(")")), Token(true, Word("AND")), Token(true, Word("a.total")), Token(true, Word("BETWEEN")), Token(true, Num("0")), Token(true, Word("AND"))]
  ghost const ComparisonTokens7: seq<Token> := [Token(true, Num("100")), Token(true, Word("LIMIT")), Token(true, Num("25")), Token(true, Word("OFFSET")), Token(true, Num("0"))]
  ghost const ComparisonTokens: seq<Token> :=
    ComparisonTokens1 + ComparisonTokens2 + ComparisonTokens3 + ComparisonTokens4 + ComparisonTokens5 + ComparisonTokens6
    + ComparisonTokens7

  ghost const ComparisonMasked1: seq<Token> := [Token(false, Word("SELECT")), Token(true, Sym("*")), Token(true, Word("FROM")), Token(true, Word("a")), Token(true, Word("WHERE")), Token(true, Word("a.id"))]
  ghost const ComparisonMasked2: seq<Token> := [Token(true, Sym("=")), Token(true, Masked), Token(true, Word("AND")), Token(true, Word("a.uid")), Token(true, Sym("!=")), Token(true, Masked)]
  ghost const ComparisonMasked3: seq<Token> := [Token(true, Sym("(")), Token(false, Word("a.num")), Token(true, Sym(">")), Token(true, Masked), Token(true, Word("AND")), Token(true, Word("a.num"))]
  ghost const ComparisonMasked4: seq<Token> := [Token(true, Sym("<")), Token(true, Masked), Token(false, Sym(")")), Token(true, Word("AND")), Token(true, Sym("(")), Token(false, Word("start_date"))]
  ghost const ComparisonMasked5: seq<Token> := [Token(true, Sym(">=")), Token(true, Masked), Token(true, Word("AND")), Token(true, Word("end_date")), Token(true, Sym("<=")), Token(true, Masked)]
  ghost const ComparisonMasked6: seq<Token> := [Token(false, Sym(")")), Token(true, Word("AND")), Token(true, Word("a.total")), Token(true, Word("BETWEEN")), Token(true, Masked), Token(true, Word("AND"))]
  ghost const ComparisonMasked7: seq<Token> := [Token(true, Masked), Token(true, Word("LIMIT")), Token(true, Masked), Token(true, Word("OFFSET")), Token(true, Masked)]
  ghost const ComparisonMasked: seq<Token> :=
    ComparisonMasked1 + ComparisonMasked2 + ComparisonMasked3 + ComparisonMasked4 + ComparisonMasked5 + ComparisonMasked6
    + ComparisonMasked7

  lemma ComparisonPiece0()
    ensures PieceOf("\n        SELECT", "\n        ", Token(false, Word("SELECT")))
  {
  }

  lemma ComparisonPiece1()
    ensures PieceOf(" *", " ", Token(true, Sym("*")))
    ensures Adjacent(Token(false, Word("SELECT")), Token(true, Sym("*")))
  {
  }

  lemma ComparisonPiece2()
    ensures PieceOf(" FROM", " ", Token(true, Word("FROM")))
    ensures Adjacent(Token(true, Sym("*")), Token(true, Word("FROM")))
  {
  }

  lemma ComparisonPiece3()
    ensures PieceOf(" a", " ", Token(true, Word("a")))
    ensures Adjacent(Token(true, Word("FROM")), Token(true, Word("a")))
  {
  }

  lemma ComparisonPiece4()
    ensures PieceOf("\n        WHERE", "\n        ", Token(true, Word("WHERE")))
    ensures Adjacent(Token(true, Word("a")), Token(true, Word("WHERE")))
  {
  }

  lemma ComparisonPiece5()
    ensures PieceOf(" a.id", " ", Token(true, Word("a.id")))
    ensures Adjacent(Token(true, Word("WHERE")), Token(true, Word("a.id")))
  {
  }

  lemma ComparisonPieces1(qs: seq<string>, ts: seq<Token>)
    requires Agrees(qs, ComparisonQuery) && Agrees(ts, ComparisonTokens)
    ensures |qs| == 42 && |ts| == 41
    ensures qs[0] == "\n        SELECT"
    ensures qs[1] == " *"
    ensures qs[2] == " FROM"
    ensures qs[3] == " a"
    ensures qs[4] == "\n        WHERE"
    ensures qs[5] == " a.id"
    ensures ts[0] == Token(false, Word("SELECT"))
    ensures ts[1] == Token(true, Sym("*"))
    ensures ts[2] == Token(true, Word("FROM"))
    ensures ts[3] == Token(true, Word("a"))
    ensures ts[4] == Token(true, Word("WHERE"))
    ensures ts[5] == Token(true, Word("a.id"))
  {
    assert qs[0] == ComparisonQuery[0];
    assert qs[1] == ComparisonQuery[1];
    assert qs[2] == ComparisonQuery[2];
    assert qs[3] == ComparisonQuery[3];
    assert qs[4] == ComparisonQuery[4];
    assert qs[5] == ComparisonQuery[5];
    assert ts[0] == ComparisonTokens[0];
    assert ts[1] == ComparisonTokens[1];
    assert ts[2] == ComparisonTokens[2];
    assert ts[3] == ComparisonTokens[3];
    assert ts[4] == ComparisonTokens[4];
    assert ts[5] == ComparisonTokens[5];
  }

  lemma ComparisonLexed1(qs: seq<string>, ts: seq<Token>)
    requires Agrees(qs, ComparisonQuery) && Agrees(ts, ComparisonTokens)
    ensures Built(qs, ts, 6)
  {
    ComparisonPieces1(qs, ts);
    ComparisonPiece0();
    ComparisonPiece1();
    ComparisonPiece2();
    ComparisonPiece3();
    ComparisonPiece4();
    ComparisonPiece5();
    PieceFirst(qs, ts, "\n        ", "\n        SELECT", Token(false, Word("SELECT")));
    PieceNext(qs, ts, 1, " ", " *", Token(false, Word("SELECT")), Token(true, Sym("*")));
    PieceNext(qs, ts, 2, " ", " FROM", Token(true, Sym("*")), Token(true, Word("FROM")));
    PieceNext(qs, ts, 3, " ", " a", Token(true, Word("FROM")), Token(true, Word("a")));
    PieceNext(qs, ts, 4, "\n        ", "\n        WHERE", Token(true, Word("a")), Token(true, Word("WHERE")));
    PieceNext(qs, ts, 5, " ", " a.id", Token(true, Word("WHERE")), Token(true, Word("a.id")));
  }

  lemma ComparisonPiece6()
    ensures PieceOf(" =", " ", Token(true, Sym("=")))
    ensures Adjacent(Token(true, Word("a.id")), Token(true, Sym("=")))
  {
  }

  lemma ComparisonPiece7()
    ensures PieceOf(" 1", " ", Token(true, Num("1")))
    ensures Adjacent(Token(true, Sym("=")), Token(true, Num("1")))
  {
  }

  lemma ComparisonPiece8()
    ensures PieceOf(" AND", " ", Token(true, Word("AND")))
    ensures Adjacent(Token(true, Num("1")), Token(true, Word("AND")))
  {
  }

  lemma ComparisonPiece9()
    ensures PieceOf(" a.uid", " ", Token(true, Word("a.uid")))
    ensures Adjacent(Token(true, Word("AND")), Token(true, Word("a.uid")))
  {
  }

  lemma ComparisonPiece10()
    ensures PieceOf(" !=", " ", Token(true, Sym("!=")))
    ensures Adjacent(Token(true, Word("a.uid")), Token(true, Sym("!=")))
  {
  }

  lemma ComparisonPiece11()
    ensures PieceOf(" 'bbb'", " ", Token(true, Quoted("bbb")))
    ensures Adjacent(Token(true, Sym("!=")), Token(true, Quoted("bbb")))
  {
    QuotedShaped("bbb");
  }

  lemma ComparisonPieces2(qs: seq<string>, ts: seq<Token>)
    requires Agrees(qs, ComparisonQuery) && Agrees(ts, ComparisonTokens)
    ensures |qs| == 42 && |ts| == 41
    ensures qs[6] == " ="
    ensures qs[7] == " 1"
    ensures qs[8] == " AND"
    ensures qs[9] == " a.uid"
    ensures qs[10] == " !="
    ensures qs[11] == " 'bbb'"
    ensures ts[5] == Token(true, Word("a.id"))
    ensures ts[6] == Token(true, Sym("="))
    ensures ts[7] == Token(true, Num("1"))
    ensures ts[8] == Token(true, Word("AND"))
    ensures ts[9] == Token(true, Word("a.uid"))
    ensures ts[10] == Token(true, Sym("!="))
    ensures ts[11] == Token(true, Quoted("bbb"))
  {
    assert qs[6] == ComparisonQuery[6];
    assert qs[7] == ComparisonQuery[7];
    assert qs[8] == ComparisonQuery[8];
    assert qs[9] == ComparisonQuery[9];
    assert qs[10] == ComparisonQuery[10];
    assert qs[11] == ComparisonQuery[11];
    assert ts[5] == ComparisonTokens[5];
    assert ts[6] == ComparisonTokens[6];
    assert ts[7] == ComparisonTokens[7];
    assert ts[8] == ComparisonTokens[8];
    assert ts[9] == ComparisonTokens[9];
    assert ts[10] == ComparisonTokens[10];
    assert ts[11] == ComparisonTokens[11];
  }

  lemma ComparisonLexed2(qs: seq<string>, ts: seq<Token>)
    requires Agrees(qs, ComparisonQuery) && Agrees(ts, ComparisonTokens)
    requires Built(qs, ts, 6)
    ensures Built(qs, ts, 12)
  {
    ComparisonPieces2(qs, ts);
    ComparisonPiece5();
    ComparisonPiece6();
    ComparisonPiece7();
    ComparisonPiece8();
    ComparisonPiece9();
    ComparisonPiece10();
    ComparisonPiece11();
    PieceNext(qs, ts, 6, " ", " =", Token(true, Word("a.id")), Token(true, Sym("=")));
    PieceNext(qs, ts, 7, " ", " 1", Token(true, Sym("=")), Token(true, Num("1")));
    PieceNext(qs, ts, 8, " ", " AND", Token(true, Num("1")), Token(true, Word("AND")));
    PieceNext(qs, ts, 9, " ", " a.uid", Token(true, Word("AND")), Token(true, Word("a.uid")));
    PieceNext(qs, ts, 10, " ", " !=", Token(true, Word("a.uid")), Token(true, Sym("!=")));
    PieceNext(qs, ts, 11, " ", " 'bbb'", Token(true, Sym("!=")), Token(true, Quoted("bbb")));
  }

  lemma ComparisonPiece12()
    ensures PieceOf("\n        (", "\n        ", Token(true, Sym("(")))
    ensures Adjacent(Token(true, Quoted("bbb")), Token(true, Sym("(")))
  {
  }

  lemma ComparisonPiece13()
    ensures PieceOf("a.num", "", Token(false, Word("a.num")))
    ensures Adjacent(Token(true, Sym("(")), Token(false, Word("a.num")))
  {
  }

  lemma ComparisonPiece14()
    ensures PieceOf(" >", " ", Token(true, Sym(">")))
    ensures Adjacent(Token(false, Word("a.num")), Token(true, Sym(">")))
  {
  }

  lemma ComparisonPiece15()
    ensures PieceOf(" 1", " ", Token(true, Num("1")))
    ensures Adjacent(Token(true, Sym(">")), Token(true, Num("1")))
  {
  }

  lemma ComparisonPiece16()
    ensures PieceOf(" AND", " ", Token(true, Word("AND")))
    ensures Adjacent(Token(true, Num("1")), Token(true, Word("AND")))
  {
  }

  lemma ComparisonPiece17()
    ensures PieceOf(" a.num", " ", Token(true, Word("a.num")))
    ensures Adjacent(Token(true, Word("AND")), Token(true, Word("a.num")))
  {
  }

  lemma ComparisonPieces3(qs: seq<string>, ts: seq<Token>)
    requires Agrees(qs, ComparisonQuery) && Agrees(ts, ComparisonTokens)
    ensures |qs| == 42 && |ts| == 41
    ensures qs[12] == "\n        ("
    ensures qs[13] == "a.num"
    ensures qs[14] == " >"
    ensures qs[15] == " 1"
    ensures qs[16] == " AND"
    ensures qs[17] == " a.num"
    ensures ts[11] == Token(true, Quoted("bbb"))
    ensures ts[12] == Token(true, Sym("("))
    ensures ts[13] == Token(false, Word("a.num"))
    ensures ts[14] == Token(true, Sym(">"))
    ensures ts[15] == Token(true, Num("1"))
    ensures ts[16] == Token(true, Word("AND"))
    ensures ts[17] == Token(true, Word("a.num"))
  {
    assert qs[12] == ComparisonQuery[12];
    assert qs[13] == ComparisonQuery[13];
    assert qs[14] == ComparisonQuery[14];
    assert qs[15] == ComparisonQuery[15];
    assert qs[16] == ComparisonQuery[16];
    assert qs[17] == ComparisonQuery[17];
    assert ts[11] == ComparisonTokens[11];
    assert ts[12] == ComparisonTokens[12];
    assert ts[13] == ComparisonTokens[13];
    assert ts[14] == ComparisonTokens[14];
    assert ts[15] == ComparisonTokens[15];
    assert ts[16] == ComparisonTokens[16];
    assert ts[17] == ComparisonTokens[17];
  }

  lemma ComparisonLexed3(qs: seq<string>, ts: seq<Token>)
    requires Agrees(qs, ComparisonQuery) && Agrees(ts, ComparisonTokens)
    requires Built(qs, ts, 12)
    ensures Built(qs, ts, 18)
  {
    ComparisonPieces3(qs, ts);
    ComparisonPiece11();
    ComparisonPiece12();
    ComparisonPiece13();
    ComparisonPiece14();
    ComparisonPiece15();
    ComparisonPiece16();
    ComparisonPiece17();
    PieceNext(qs, ts, 12, "\n        ", "\n        (", Token(true, Quoted("bbb")), Token(true, Sym("(")));
    PieceNext(qs, ts, 13, "", "a.num", Token(true, Sym("(")), Token(false, Word("a.num")));
    PieceNext(qs, ts, 14, " ", " >", Token(false, Word("a.num")), Token(true, Sym(">")));
    PieceNext(qs, ts, 15, " ", " 1", Token(true, Sym(">")), Token(true, Num("1")));
    PieceNext(qs, ts, 16, " ", " AND", Token(true, Num("1")), Token(true, Word("AND")));
    PieceNext(qs, ts, 17, " ", " a.num", Token(true, Word("AND")), Token(true, Word("a.num")));
  }

  lemma ComparisonPiece18()
    ensures PieceOf(" <", " ", Token(true, Sym("<")))
    ensures Adjacent(Token(true, Word("a.num")), Token(true, Sym("<")))
  {
  }

  lemma ComparisonPiece19()
    ensures PieceOf(" 3", " ", Token(true, Num("3")))
    ensures Adjacent(Token(true, Sym("<")), Token(true, Num("3")))
  {
  }

  lemma ComparisonPiece20()
    ensures PieceOf(")", "", Token(false, Sym(")")))
    ensures Adjacent(Token(true, Num("3")), Token(false, Sym(")")))
  {
  }

  lemma ComparisonPiece21()
    ensures PieceOf(" AND", " ", Token(true, Word("AND")))
    ensures Adjacent(Token(false, Sym(")")), Token(true, Word("AND")))
  {
  }

  lemma ComparisonPiece22()
    ensures PieceOf("\n        (", "\n        ", Token(true, Sym("(")))
    ensures Adjacent(Token(true, Word("AND")), Token(true, Sym("(")))
  {
  }

  lemma ComparisonPiece23()
    ensures PieceOf("start_date", "", Token(false, Word("start_date")))
    ensures Adjacent(Token(true, Sym("(")), Token(false, Word("start_date")))
  {
  }

  lemma ComparisonPieces4(qs: seq<string>, ts: seq<Token>)
    requires Agrees(qs, ComparisonQuery) && Agrees(ts, ComparisonTokens)
    ensures |qs| == 42 && |ts| == 41
    ensures qs[18] == " <"
    ensures qs[19] == " 3"
    ensures qs[20] == ")"
    ensures qs[21] == " AND"
    ensures qs[22] == "\n        ("
    ensures qs[23] == "start_date"
    ensures ts[17] == Token(true, Word("a.num"))
    ensures ts[18] == Token(true, Sym("<"))
    ensures ts[19] == Token(true, Num("3"))
    ensures ts[20] == Token(false, Sym(")"))
    ensures ts[21] == Token(true, Word("AND"))
    ensures ts[22] == Token(true, Sym("("))
    ensures ts[23] == Token(false, Word("start_date"))
  {
    assert qs[18] == ComparisonQuery[18];
    assert qs[19] == ComparisonQuery[19];
    assert qs[20] == ComparisonQuery[20];
    assert qs[21] == ComparisonQuery[21];
    assert qs[22] == ComparisonQuery[22];
    assert qs[23] == ComparisonQuery[23];
    assert ts[17] == ComparisonTokens[17];
    assert ts[18] == ComparisonTokens[18];
    assert ts[19] == ComparisonTokens[19];
    assert ts[20] == ComparisonTokens[20];
    assert ts[21] == ComparisonTokens[21];
    assert ts[22] == ComparisonTokens[22];
    assert ts[23] == ComparisonTokens[23];
  }

  lemma ComparisonLexed4(qs: seq<string>, ts: seq<Token>)
    requires Agrees(qs, ComparisonQuery) && Agrees(ts, ComparisonTokens)
    requires Built(qs, ts, 18)
    ensures Built(qs, ts, 24)
  {
    ComparisonPieces4(qs, ts);
    ComparisonPiece17();
    ComparisonPiece18();
    ComparisonPiece19();
    ComparisonPiece20();
    ComparisonPiece21();
    ComparisonPiece22();
    ComparisonPiece23();
    PieceNext(qs, ts, 18, " ", " <", Token(true, Word("a.num")), Token(true, Sym("<")));
    PieceNext(qs, ts, 19, " ", " 3", Token(true, Sym("<")), Token(true, Num("3")));
    PieceNext(qs, ts, 20, "", ")", Token(true, Num("3")), Token(false, Sym(")")));
    PieceNext(qs, ts, 21, " ", " AND", Token(false, Sym(")")), Token(true, Word("AND")));
    PieceNext(qs, ts, 22, "\n        ", "\n        (", Token(true, Word("AND")), Token(true, Sym("(")));
    PieceNext(qs, ts, 23, "", "start_date", Token(true, Sym("(")), Token(false, Word("start_date")));
  }

  lemma ComparisonPiece24()
    ensures PieceOf(" >=", " ", Token(true, Sym(">=")))
    ensures Adjacent(Token(false, Word("start_date")), Token(true, Sym(">=")))
  {
  }

  lemma ComparisonPiece25()
    ensures PieceOf(" '2010-01-01'", " ", Token(true, Quoted("2010-01-01")))
  {
    QuotedShaped("2010-01-01");
  }

  lemma ComparisonAdjacent25()
    ensures Adjacent(Token(true, Sym(">=")), Token(true, Quoted("2010-01-01")))
  {
  }

  lemma ComparisonPiece26()
    ensures PieceOf(" AND", " ", Token(true, Word("AND")))
    ensures Adjacent(Token(true, Quoted("2010-01-01")), Token(true, Word("AND")))
  {
  }

  lemma ComparisonPiece27()
    ensures PieceOf(" end_date", " ", Token(true, Word("end_date")))
    ensures Adjacent(Token(true, Word("AND")), Token(true, Word("end_date")))
  {
  }

  lemma ComparisonPiece28()
    ensures PieceOf(" <=", " ", Token(true, Sym("<=")))
    ensures Adjacent(Token(true, Word("end_date")), Token(true, Sym("<=")))
  {
  }

  lemma ComparisonPiece29()
    ensures PieceOf(" '2010-10-01'", " ", Token(true, Quoted("2010-10-01")))
  {
    QuotedShaped("2010-10-01");
  }

  lemma ComparisonAdjacent29()
    ensures Adjacent(Token(true, Sym("<=")), Token(true, Quoted("2010-10-01")))
  {
  }

  lemma ComparisonPieces5(qs: seq<string>, ts: seq<Token>)
    requires Agrees(qs, ComparisonQuery) && Agrees(ts, ComparisonTokens)
    ensures |qs| == 42 && |ts| == 41
    ensures qs[24] == " >="
    ensures qs[25] == " '2010-01-01'"
    ensures qs[26] == " AND"
    ensures qs[27] == " end_date"
    ensures qs[28] == " <="
    ensures qs[29] == " '2010-10-01'"
    ensures ts[23] == Token(false, Word("start_date"))
    ensures ts[24] == Token(true, Sym(">="))
    ensures ts[25] == Token(true, Quoted("2010-01-01"))
    ensures ts[26] == Token(true, Word("AND"))
    ensures ts[27] == Token(true, Word("end_date"))
    ensures ts[28] == Token(true, Sym("<="))
    ensures ts[29] == Token(true, Quoted("2010-10-01"))
  {
    assert qs[24] == ComparisonQuery[24];
    assert qs[25] == ComparisonQuery[25];
    assert qs[26] == ComparisonQuery[26];
    assert qs[27] == ComparisonQuery[27];
    assert qs[28] == ComparisonQuery[28];
    assert qs[29] == ComparisonQuery[29];
    assert ts[23] == ComparisonTokens[23];
    assert ts[24] == ComparisonTokens[24];
    assert ts[25] == ComparisonTokens[25];
    assert ts[26] == ComparisonTokens[26];
    assert ts[27] == ComparisonTokens[27];
    assert ts[28] == ComparisonTokens[28];
    assert ts[29] == ComparisonTokens[29];
  }

  lemma ComparisonLexed5(qs: seq<string>, ts: seq<Token>)
    requires Agrees(qs, ComparisonQuery) && Agrees(ts, ComparisonTokens)
    requires Built(qs, ts, 24)
    ensures Built(qs, ts, 30)
  {
    ComparisonPieces5(qs, ts);
    ComparisonPiece23();
    ComparisonPiece24();
    ComparisonPiece25();
    ComparisonAdjacent25();
    ComparisonPiece26();
    ComparisonPiece27();
    ComparisonPiece28();
    ComparisonPiece29();
    ComparisonAdjacent29();
    PieceNext(qs, ts, 24, " ", " >=", Token(false, Word("start_date")), Token(true, Sym(">=")));
    PieceNext(qs, ts, 25, " ", " '2010-01-01'", Token(true, Sym(">=")), Token(true, Quoted("2010-01-01")));
    PieceNext(qs, ts, 26, " ", " AND", Token(true, Quoted("2010-01-01")), Token(true, Word("AND")));
    PieceNext(qs, ts, 27, " ", " end_date", Token(true, Word("AND")), Token(true, Word("end_date")));
    PieceNext(qs, ts, 28, " ", " <=", Token(true, Word("end_date")), Token(true, Sym("<=")));
    PieceNext(qs, ts, 29, " ", " '2010-10-01'", Token(true, Sym("<=")), Token(true, Quoted("2010-10-01")));
  }

  lemma ComparisonPiece30()
    ensures PieceOf(")", "", Token(false, Sym(")")))
    ensures Adjacent(Token(true, Quoted("2010-10-01")), Token(false, Sym(")")))
  {
  }

  lemma ComparisonPiece31()
    ensures PieceOf(" AND", " ", Token(true, Word("AND")))
    ensures Adjacent(Token(false, Sym(")")), Token(true, Word("AND")))
  {
  }

  lemma ComparisonPiece32()
    ensures PieceOf("\n        a.total", "\n        ", Token(true, Word("a.total")))
    ensures Adjacent(Token(true, Word("AND")), Token(true, Word("a.total")))
  {
  }

  lemma ComparisonPiece33()
    ensures PieceOf(" BETWEEN", " ", Token(true, Word("BETWEEN")))
    ensures Adjacent(Token(true, Word("a.total")), Token(true, Word("BETWEEN")))
  {
  }

  lemma ComparisonPiece34()
    ensures PieceOf(" 0", " ", Token(true, Num("0")))
    ensures Adjacent(Token(true, Word("BETWEEN")), Token(true, Num("0")))
  {
  }

  lemma ComparisonPiece35()
    ensures PieceOf(" AND", " ", Token(true, Word("AND")))
    ensures Adjacent(Token(true, Num("0")), Token(true, Word("AND")))
  {
  }

  lemma ComparisonPieces6(qs: seq<string>, ts: seq<Token>)
    requires Agrees(qs, ComparisonQuery) && Agrees(ts, ComparisonTokens)
    ensures |qs| == 42 && |ts| == 41
    ensures qs[30] == ")"
    ensures qs[31] == " AND"
    ensures qs[32] == "\n        a.total"
    ensures qs[33] == " BETWEEN"
    ensures qs[34] == " 0"
    ensures qs[35] == " AND"
    ensures ts[29] == Token(true, Quoted("2010-10-01"))
    ensures ts[30] == Token(false, Sym(")"))
    ensures ts[31] == Token(true, Word("AND"))
    ensures ts[32] == Token(true, Word("a.total"))
    ensures ts[33] == Token(true, Word("BETWEEN"))
    ensures ts[34] == Token(true, Num("0"))
    ensures ts[35] == Token(true, Word("AND"))
  {
    assert qs[30] == ComparisonQuery[30];
    assert qs[31] == ComparisonQuery[31];
    assert qs[32] == ComparisonQuery[32];
    assert qs[33] == ComparisonQuery[33];
    assert qs[34] == ComparisonQuery[34];
    assert qs[35] == ComparisonQuery[35];
    assert ts[29] == ComparisonTokens[29];
    assert ts[30] == ComparisonTokens[30];
    assert ts[31] == ComparisonTokens[31];
    assert ts[32] == ComparisonTokens[32];
    assert ts[33] == ComparisonTokens[33];
    assert ts[34] == ComparisonTokens[34];
    assert ts[35] == ComparisonTokens[35];
  }

  lemma ComparisonLexed6(qs: seq<string>, ts: seq<Token>)
    requires Agrees(qs, ComparisonQuery) && Agrees(ts, ComparisonTokens)
    requires Built(qs, ts, 30)
    ensures Built(qs, ts, 36)
  {
    ComparisonPieces6(qs, ts);
    ComparisonPiece29();
    ComparisonPiece30();
    ComparisonPiece31();
    ComparisonPiece32();
    ComparisonPiece33();
    ComparisonPiece34();
    ComparisonPiece35();
    PieceNext(qs, ts, 30, "", ")", Token(true, Quoted("2010-10-01")), Token(false, Sym(")")));
    PieceNext(qs, ts, 31, " ", " AND", Token(false, Sym(")")), Token(true, Word("AND")));
    PieceNext(qs, ts, 32, "\n        ", "\n        a.total", Token(true, Word("AND")), Token(true, Word("a.total")));
    PieceNext(qs, ts, 33, " ", " BETWEEN", Token(true, Word("a.total")), Token(true, Word("BETWEEN")));
    PieceNext(qs, ts, 34, " ", " 0", Token(true, Word("BETWEEN")), Token(true, Num("0")));
    PieceNext(qs, ts, 35, " ", " AND", Token(true, Num("0")), Token(true, Word("AND")));
  }

  lemma ComparisonPiece36()
    ensures PieceOf(" 100", " ", Token(true, Num("100")))
    ensures Adjacent(Token(true, Word("AND")), Token(true, Num("100")))
  {
  }

  lemma ComparisonPiece37()
    ensures PieceOf(" LIMIT", " ", Token(true, Word("LIMIT")))
    ensures Adjacent(Token(true, Num("100")), Token(true, Word("LIMIT")))
  {
  }

  lemma ComparisonPiece38()
    ensures PieceOf(" 25", " ", Token(true, Num("25")))
    ensures Adjacent(Token(true, Word("LIMIT")), Token(true, Num("25")))
  {
  }

  lemma ComparisonPiece39()
    ensures PieceOf(" OFFSET", " ", Token(true, Word("OFFSET")))
    ensures Adjacent(Token(true, Num("25")), Token(true, Word("OFFSET")))
  {
  }

  lemma ComparisonPiece40()
    ensures PieceOf(" 0", " ", Token(true, Num("0")))
    ensures Adjacent(Token(true, Word("OFFSET")), Token(true, Num("0")))
  {
  }

  lemma ComparisonPieces7(qs: seq<string>, ts: seq<Token>)
    requires Agrees(qs, ComparisonQuery) && Agrees(ts, ComparisonTokens)
    ensures |qs| == 42 && |ts| == 41
    ensures qs[36] == " 100"
    ensures qs[37] == " LIMIT"
    ensures qs[38] == " 25"
    ensures qs[39] == " OFFSET"
    ensures qs[40] == " 0"
    ensures qs[41] == "\n      " && AllSpace(qs[41])
    ensures ts[35] == Token(true, Word("AND"))
    ensures ts[36] == Token(true, Num("100"))
    ensures ts[37] == Token(true, Word("LIMIT"))
    ensures ts[38] == Token(true, Num("25"))
    ensures ts[39] == Token(true, Word("OFFSET"))
    ensures ts[40] == Token(true, Num("0"))
  {
    assert qs[36] == ComparisonQuery[36];
    assert qs[37] == ComparisonQuery[37];
    assert qs[38] == ComparisonQuery[38];
    assert qs[39] == ComparisonQuery[39];
    assert qs[40] == ComparisonQuery[40];
    assert qs[41] == ComparisonQuery[41];
    assert ts[35] == ComparisonTokens[35];
    assert ts[36] == ComparisonTokens[36];
    assert ts[37] == ComparisonTokens[37];
    assert ts[38] == ComparisonTokens[38];
    assert ts[39] == ComparisonTokens[39];
    assert ts[40] == ComparisonTokens[40];
  }

  lemma ComparisonLexed7(qs: seq<string>, ts: seq<Token>)
    requires Agrees(qs, ComparisonQuery) && Agrees(ts, ComparisonTokens)
    requires Built(qs, ts, 36)
    ensures Built(qs, ts, 41)
    ensures qs[41] == "\n      " && AllSpace(qs[41])
  {
    ComparisonPieces7(qs, ts);
    ComparisonPiece35();
    ComparisonPiece36();
    ComparisonPiece37();
    ComparisonPiece38();
    ComparisonPiece39();
    ComparisonPiece40();
    PieceNext(qs, ts, 36, " ", " 100", Token(true, Word("AND")), Token(true, Num("100")));
    PieceNext(qs, ts, 37, " ", " LIMIT", Token(true, Num("100")), Token(true, Word("LIMIT")));
    PieceNext(qs, ts, 38, " ", " 25", Token(true, Word("LIMIT")), Token(true, Num("25")));
    PieceNext(qs, ts, 39, " ", " OFFSET", Token(true, Num("25")), Token(true, Word("OFFSET")));
    PieceNext(qs, ts, 40, " ", " 0", Token(true, Word("OFFSET")), Token(true, Num("0")));
  }

  lemma ComparisonLexing(qs: seq<string>, ts: seq<Token>)
    requires Agrees(qs, ComparisonQuery) && Agrees(ts, ComparisonTokens)
    ensures Squish(Join(qs)) == Render(ts) && Lex(Render(ts)) == ts
  {
    ComparisonLexed1(qs, ts);
    ComparisonLexed2(qs, ts);
    ComparisonLexed3(qs, ts);
    ComparisonLexed4(qs, ts);
    ComparisonLexed5(qs, ts);
    ComparisonLexed6(qs, ts);
    ComparisonLexed7(qs, ts);
    PiecesEnd(qs, ts);
  }

  lemma ComparisonRewrite31()
    ensures Rewrite([Token(true, Word("AND")), Token(true, Word("a.total"))], false) == Edit([Token(true, Word("AND"))], 1)
    ensures Mode([Token(true, Word("AND")), Token(true, Word("a.total"))][..1], false) == false && PlainEnd([Token(true, Word("AND")), Token(true, Word("a.total"))])
  {
    var z := [Token(true, Word("AND")), Token(true, Word("a.total"))];
    ModeFirst(z, false);
  }

  lemma ComparisonRewrite32()
    ensures Rewrite([Token(true, Word("a.total"))], false) == Edit([Token(true, Word("a.total"))], 1)
    ensures Mode([Token(true, Word("a.total"))][..1], false) == false && PlainEnd([Token(true, Word("a.total"))])
  {
    var z := [Token(true, Word("a.total"))];
    ModeFirst(z, false);
  }

  lemma ComparisonBetween33()
    ensures IsKeyword(Token(true, Word("BETWEEN")), "BETWEEN") && OperandLen([Token(true, Word("BETWEEN")), Token(true, Num("0")), Token(true, Word("AND")), Token(true, Num("100")), Token(true, Word("LIMIT")), Token(true, Num("25")), Token(true, Word("OFFSET")), Token(true, Num("0"))][1..]) == 1
  {
  }

  lemma ComparisonAnd33()
    ensures IsKeyword(Token(true, Word("AND")), "AND") && OperandLen([Token(true, Word("BETWEEN")), Token(true, Num("0")), Token(true, Word("AND")), Token(true, Num("100")), Token(true, Word("LIMIT")), Token(true, Num("25")), Token(true, Word("OFFSET")), Token(true, Num("0"))][3..]) == 1
  {
  }

  lemma ComparisonRewrite33()
    ensures Rewrite([Token(true, Word("BETWEEN")), Token(true, Num("0")), Token(true, Word("AND")), Token(true, Num("100")), Token(true, Word("LIMIT")), Token(true, Num("25")), Token(true, Word("OFFSET")), Token(true, Num("0"))], false) == Edit([Token(true, Word("BETWEEN")), Token(true, Masked), Token(true, Word("AND")), Token(true, Masked)], 4)
  {
    var z := [Token(true, Word("BETWEEN")), Token(true, Num("0")), Token(true, Word("AND")), Token(true, Num("100")), Token(true, Word("LIMIT")), Token(true, Num("25")), Token(true, Word("OFFSET")), Token(true, Num("0"))];
    ComparisonBetween33();
    ComparisonAnd33();
    BetweenAt(z, false, 1, 1);
  }

  lemma ComparisonMode33()
    ensures Mode([Token(true, Word("BETWEEN")), Token(true, Num("0")), Token(true, Word("AND")), Token(true, Num("100")), Token(true, Word("LIMIT")), Token(true, Num("25")), Token(true, Word("OFFSET")), Token(true, Num("0"))][..4], false) == false
  {
    var z := [Token(true, Word("BETWEEN")), Token(true, Num("0")), Token(true, Word("AND")), Token(true, Num("100")), Token(true, Word("LIMIT")), Token(true, Num("25")), Token(true, Word("OFFSET")), Token(true, Num("0"))];
    QuietMode(z[..4], false);
  }

  lemma ComparisonRewrite37()
    ensures Rewrite([Token(true, Word("LIMIT")), Token(true, Num("25")), Token(true, Word("OFFSET")), Token(true, Num("0"))], false) == Edit([Token(true, Word("LIMIT")), Token(true, Masked)], 2)
    ensures Mode([Token(true, Word("LIMIT")), Token(true, Num("25")), Token(true, Word("OFFSET")), Token(true, Num("0"))][..2], false) == false
  {
    var z := [Token(true, Word("LIMIT")), Token(true, Num("25")), Token(true, Word("OFFSET")), Token(true, Num("0"))];
    QuietMode(z[..2], false);
  }

  lemma ComparisonRewrite39()
    ensures Rewrite([Token(true, Word("OFFSET")), Token(true, Num("0"))], false) == Edit([Token(true, Word("OFFSET")), Token(true, Masked)], 2)
    ensures Mode([Token(true, Word("OFFSET")), Token(true, Num("0"))][..2], false) == false
  {
    var z := [Token(true, Word("OFFSET")), Token(true, Num("0"))];
    QuietMode(z[..2], false);
  }

  lemma ComparisonWindow31(ts: seq<Token>, out: seq<Token>)
    requires Agrees(ts, ComparisonTokens) && Agrees(out, ComparisonMasked)
    ensures |ts| == 41 && |out| == 41
    ensures ts[31..33] == [Token(true, Word("AND")), Token(true, Word("a.total"))]
    ensures out[31..32] == [Token(true, Word("AND"))]
  {
    assert ts[31] == ComparisonTokens[31] == Token(true, Word("AND"));
    assert ts[32] == ComparisonTokens[32] == Token(true, Word("a.total"));
    assert out[31] == ComparisonMasked[31] == Token(true, Word("AND"));
  }

  lemma ComparisonWindow32(ts: seq<Token>, out: seq<Token>)
    requires Agrees(ts, ComparisonTokens) && Agrees(out, ComparisonMasked)
    ensures |ts| == 41 && |out| == 41
    ensures ts[32..33] == [Token(true, Word("a.total"))]
    ensures out[32..33] == [Token(true, Word("a.total"))]
  {
    assert ts[32] == ComparisonTokens[32] == Token(true, Word("a.total"));
    assert out[32] == ComparisonMasked[32] == Token(true, Word("a.total"));
  }

  lemma ComparisonWindow33(ts: seq<Token>, out: seq<Token>)
    requires Agrees(ts, ComparisonTokens) && Agrees(out, ComparisonMasked)
    ensures |ts| == 41 && |out| == 41
    ensures ts[33..41] == [Token(true, Word("BETWEEN")), Token(true, Num("0")), Token(true, Word("AND")), Token(true, Num("100")), Token(true, Word("LIMIT")), Token(true, Num("25")), Token(true, Word("OFFSET")), Token(true, Num("0"))]
    ensures out[33..37] == [Token(true, Word("BETWEEN")), Token(true, Masked), Token(true, Word("AND")), Token(true, Masked)]
  {
    assert ts[33] == ComparisonTokens[33] == Token(true, Word("BETWEEN"));
    assert ts[34] == ComparisonTokens[34] == Token(true, Num("0"));
    assert ts[35] == ComparisonTokens[35] == Token(true, Word("AND"));
    assert ts[36] == ComparisonTokens[36] == Token(true, Num("100"));
    assert ts[37] == ComparisonTokens[37] == Token(true, Word("LIMIT"));
    assert ts[38] == ComparisonTokens[38] == Token(true, Num("25"));
    assert ts[39] == ComparisonTokens[39] == Token(true, Word("OFFSET"));
    assert ts[40] == ComparisonTokens[40] == Token(true, Num("0"));
    assert out[33] == ComparisonMasked[33] == Token(true, Word("BETWEEN"));
    assert out[34] == ComparisonMasked[34] == Token(true, Masked);
    assert out[35] == ComparisonMasked[35] == Token(true, Word("AND"));
    assert out[36] == ComparisonMasked[36] == Token(true, Masked);
  }

  lemma ComparisonWindow37(ts: seq<Token>, out: seq<Token>)
    requires Agrees(ts, ComparisonTokens) && Agrees(out, ComparisonMasked)
    ensures |ts| == 41 && |out| == 41
    ensures ts[37..41] == [Token(true, Word("LIMIT")), Token(true, Num("25")), Token(true, Word("OFFSET")), Token(true, Num("0"))]
    ensures out[37..39] == [Token(true, Word("LIMIT")), Token(true, Masked)]
  {
    assert ts[37] == ComparisonTokens[37] == Token(true, Word("LIMIT"));
    assert ts[38] == ComparisonTokens[38] == Token(true, Num("25"));
    assert ts[39] == ComparisonTokens[39] == Token(true, Word("OFFSET"));
    assert ts[40] == ComparisonTokens[40] == Token(true, Num("0"));
    assert out[37] == ComparisonMasked[37] == Token(true, Word("LIMIT"));
    assert out[38] == ComparisonMasked[38] == Token(true, Masked);
  }

  lemma ComparisonWindow39(ts: seq<Token>, out: seq<Token>)
    requires Agrees(ts, ComparisonTokens) && Agrees(out, ComparisonMasked)
    ensures |ts| == 41 && |out| == 41
    ensures ts[39..41] == [Token(true, Word("OFFSET")), Token(true, Num("0"))]
    ensures out[39..41] == [Token(true, Word("OFFSET")), Token(true, Masked)]
  {
    assert ts[39] == ComparisonTokens[39] == Token(true, Word("OFFSET"));
    assert ts[40] == ComparisonTokens[40] == Token(true, Num("0"));
    assert out[39] == ComparisonMasked[39] == Token(true, Word("OFFSET"));
    assert out[40] == ComparisonMasked[40] == Token(true, Masked);
  }

  lemma ComparisonStep31(ts: seq<Token>, out: seq<Token>)
    requires Agrees(ts, ComparisonTokens) && Agrees(out, ComparisonMasked)
    requires MaskedFrom(ts, out, 32, 32, false)
    ensures MaskedFrom(ts, out, 31, 31, false)
  {
    ComparisonRewrite31();
    ComparisonWindow31(ts, out);
    MaskAt(ts, out, 31, 31, false,
      [Token(true, Word("AND")), Token(true, Word("a.total"))],
      Step([Token(true, Word("AND"))], 1, false));
  }

  lemma ComparisonStep32(ts: seq<Token>, out: seq<Token>)
    requires Agrees(ts, ComparisonTokens) && Agrees(out, ComparisonMasked)
    requires MaskedFrom(ts, out, 33, 33, false)
    ensures MaskedFrom(ts, out, 32, 32, false)
  {
    ComparisonRewrite32();
    ComparisonWindow32(ts, out);
    MaskAt(ts, out, 32, 32, false,
      [Token(true, Word("a.total"))],
      Step([Token(true, Word("a.total"))], 1, false));
  }

  lemma ComparisonStep33(ts: seq<Token>, out: seq<Token>)
    requires Agrees(ts, ComparisonTokens) && Agrees(out, ComparisonMasked)
    requires MaskedFrom(ts, out, 37, 37, false)
    ensures MaskedFrom(ts, out, 33, 33, false)
  {
    ComparisonRewrite33();
    ComparisonMode33();
    ComparisonWindow33(ts, out);
    MaskAt(ts, out, 33, 33, false,
      [Token(true, Word("BETWEEN")), Token(true, Num("0")), Token(true, Word("AND")), Token(true, Num("100")), Token(true, Word("LIMIT")), Token(true, Num("25")), Token(true, Word("OFFSET")), Token(true, Num("0"))],
      Step([Token(true, Word("BETWEEN")), Token(true, Masked), Token(true, Word("AND")), Token(true, Masked)], 4, false));
  }

  lemma ComparisonStep37(ts: seq<Token>, out: seq<Token>)
    requires Agrees(ts, ComparisonTokens) && Agrees(out, ComparisonMasked)
    requires MaskedFrom(ts, out, 39, 39, false)
    ensures MaskedFrom(ts, out, 37, 37, false)
  {
    ComparisonRewrite37();
    ComparisonWindow37(ts, out);
    MaskAt(ts, out, 37, 37, false,
      [Token(true, Word("LIMIT")), Token(true, Num("25")), Token(true, Word("OFFSET")), Token(true, Num("0"))],
      Step([Token(true, Word("LIMIT")), Token(true, Masked)], 2, false));
  }

  lemma ComparisonStep39(ts: seq<Token>, out: seq<Token>)
    requires Agrees(ts, ComparisonTokens) && Agrees(out, ComparisonMasked)
    ensures MaskedFrom(ts, out, 39, 39, false)
  {
    ComparisonRewrite39();
    ComparisonWindow39(ts, out);
    MaskedEnd(ts, out, false);
    MaskAt(ts, out, 39, 39, false,
      [Token(true, Word("OFFSET")), Token(true, Num("0"))],
      Step([Token(true, Word("OFFSET")), Token(true, Masked)], 2, false));
  }

  lemma ComparisonRewrite24()
    ensures Rewrite([Token(true, Sym(">=")), Token(true, Quoted("2010-01-01")), Token(true, Word("AND")), Token(true, Word("end_date"))], false) == Edit([Token(true, Sym(">=")), Token(true, Masked)], 2)
    ensures Mode([Token(true, Sym(">=")), Token(true, Quoted("2010-01-01")), Token(true, Word("AND")), Token(true, Word("end_date"))][..2], false) == false && PlainEnd([Token(true, Sym(">=")), Token(true, Quoted("2010-01-01")), Token(true, Word("AND")), Token(true, Word("end_date"))])
  {
    var z := [Token(true, Sym(">=")), Token(true, Quoted("2010-01-01")), Token(true, Word("AND")), Token(true, Word("end_date"))];
    QuietMode(z[..2], false);
  }

  lemma ComparisonRewrite26()
    ensures Rewrite([Token(true, Word("AND")), Token(true, Word("end_date"))], false) == Edit([Token(true, Word("AND"))], 1)
    ensures Mode([Token(true, Word("AND")), Token(true, Word("end_date"))][..1], false) == false && PlainEnd([Token(true, Word("AND")), Token(true, Word("end_date"))])
  {
    var z := [Token(true, Word("AND")), Token(true, Word("end_date"))];
    ModeFirst(z, false);
  }

  lemma ComparisonRewrite27()
    ensures Rewrite([Token(true, Word("end_date"))], false) == Edit([Token(true, Word("end_date"))], 1)
    ensures Mode([Token(true, Word("end_date"))][..1], false) == false && PlainEnd([Token(true, Word("end_date"))])
  {
    var z := [Token(true, Word("end_date"))];
    ModeFirst(z, false);
  }

  lemma ComparisonRewrite28()
    ensures Rewrite([Token(true, Sym("<=")), Token(true, Quoted("2010-10-01")), Token(false, Sym(")")), Token(true, Word("AND")), Token(true, Word("a.total"))], false) == Edit([Token(true, Sym("<=")), Token(true, Masked)], 2)
    ensures Mode([Token(true, Sym("<=")), Token(true, Quoted("2010-10-01")), Token(false, Sym(")")), Token(true, Word("AND")), Token(true, Word("a.total"))][..2], false) == false && PlainEnd([Token(true, Sym("<=")), Token(true, Quoted("2010-10-01")), Token(false, Sym(")")), Token(true, Word("AND")), Token(true, Word("a.total"))])
  {
    var z := [Token(true, Sym("<=")), Token(true, Quoted("2010-10-01")), Token(false, Sym(")")), Token(true, Word("AND")), Token(true, Word("a.total"))];
    QuietMode(z[..2], false);
  }

  lemma ComparisonRewrite30()
    ensures Rewrite([Token(false, Sym(")")), Token(true, Word("AND")), Token(true, Word("a.total"))], false) == Edit([Token(false, Sym(")"))], 1)
    ensures Mode([Token(false, Sym(")")), Token(true, Word("AND")), Token(true, Word("a.total"))][..1], false) == false && PlainEnd([Token(false, Sym(")")), Token(true, Word("AND")), Token(true, Word("a.total"))])
  {
    var z := [Token(false, Sym(")")), Token(true, Word("AND")), Token(true, Word("a.total"))];
    ModeFirst(z, false);
  }

  lemma ComparisonWindow24(ts: seq<Token>, out: seq<Token>)
    requires Agrees(ts, ComparisonTokens) && Agrees(out, ComparisonMasked)
    ensures |ts| == 41 && |out| == 41
    ensures ts[24..28] == [Token(true, Sym(">=")), Token(true, Quoted("2010-01-01")), Token(true, Word("AND")), Token(true, Word("end_date"))]
    ensures out[24..26] == [Token(true, Sym(">=")), Token(true, Masked)]
  {
    assert ts[24] == ComparisonTokens[24] == Token(true, Sym(">="));
    assert ts[25] == ComparisonTokens[25] == Token(true, Quoted("2010-01-01"));
    assert ts[26] == ComparisonTokens[26] == Token(true, Word("AND"));
    assert ts[27] == ComparisonTokens[27] == Token(true, Word("end_date"));
    assert out[24] == ComparisonMasked[24] == Token(true, Sym(">="));
    assert out[25] == ComparisonMasked[25] == Token(true, Masked);
  }

  lemma ComparisonWindow26(ts: seq<Token>, out: seq<Token>)
    requires Agrees(ts, ComparisonTokens) && Agrees(out, ComparisonMasked)
    ensures |ts| == 41 && |out| == 41
    ensures ts[26..28] == [Token(true, Word("AND")), Token(true, Word("end_date"))]
    ensures out[26..27] == [Token(true, Word("AND"))]
  {
    assert ts[26] == ComparisonTokens[26] == Token(true, Word("AND"));
    assert ts[27] == ComparisonTokens[27] == Token(true, Word("end_date"));
    assert out[26] == ComparisonMasked[26] == Token(true, Word("AND"));
  }

  lemma ComparisonWindow27(ts: seq<Token>, out: seq<Token>)
    requires Agrees(ts, ComparisonTokens) && Agrees(out, ComparisonMasked)
    ensures |ts| == 41 && |out| == 41
    ensures ts[27..28] == [Token(true, Word("end_date"))]
    ensures out[27..28] == [Token(true, Word("end_date"))]
  {
    assert ts[27] == ComparisonTokens[27] == Token(true, Word("end_date"));
    assert out[27] == ComparisonMasked[27] == Token(true, Word("end_date"));
  }

  lemma ComparisonWindow28(ts: seq<Token>, out: seq<Token>)
    requires Agrees(ts, ComparisonTokens) && Agrees(out, ComparisonMasked)
    ensures |ts| == 41 && |out| == 41
    ensures ts[28..33] == [Token(true, Sym("<=")), Token(true, Quoted("2010-10-01")), Token(false, Sym(")")), Token(true, Word("AND")), Token(true, Word("a.total"))]
    ensures out[28..30] == [Token(true, Sym("<=")), Token(true, Masked)]
  {
    assert ts[28] == ComparisonTokens[28] == Token(true, Sym("<="));
    assert ts[29] == ComparisonTokens[29] == Token(true, Quoted("2010-10-01"));
    assert ts[30] == ComparisonTokens[30] == Token(false, Sym(")"));
    assert ts[31] == ComparisonTokens[31] == Token(true, Word("AND"));
    assert ts[32] == ComparisonTokens[32] == Token(true, Word("a.total"));
    assert out[28] == ComparisonMasked[28] == Token(true, Sym("<="));
    assert out[29] == ComparisonMasked[29] == Token(true, Masked);
  }

  lemma ComparisonWindow30(ts: seq<Token>, out: seq<Token>)
    requires Agrees(ts, ComparisonTokens) && Agrees(out, ComparisonMasked)
    ensures |ts| == 41 && |out| == 41
    ensures ts[30..33] == [Token(false, Sym(")")), Token(true, Word("AND")), Token(true, Word("a.total"))]
    ensures out[30..31] == [Token(false, Sym(")"))]
  {
    assert ts[30] == ComparisonTokens[30] == Token(false, Sym(")"));
    assert ts[31] == ComparisonTokens[31] == Token(true, Word("AND"));
    assert ts[32] == ComparisonTokens[32] == Token(true, Word("a.total"));
    assert out[30] == ComparisonMasked[30] == Token(false, Sym(")"));
  }

  lemma ComparisonStep24(ts: seq<Token>, out: seq<Token>)
    requires Agrees(ts, ComparisonTokens) && Agrees(out, ComparisonMasked)
    requires MaskedFrom(ts, out, 26, 26, false)
    ensures MaskedFrom(ts, out, 24, 24, false)
  {
    ComparisonRewrite24();
    ComparisonWindow24(ts, out);
    MaskAt(ts, out, 24, 24, false,
      [Token(true, Sym(">=")), Token(true, Quoted("2010-01-01")), Token(true, Word("AND")), Token(true, Word("end_date"))],
      Step([Token(true, Sym(">=")), Token(true, Masked)], 2, false));
  }

  lemma ComparisonStep26(ts: seq<Token>, out: seq<Token>)
    requires Agrees(ts, ComparisonTokens) && Agrees(out, ComparisonMasked)
    requires MaskedFrom(ts, out, 27, 27, false)
    ensures MaskedFrom(ts, out, 26, 26, false)
  {
    ComparisonRewrite26();
    ComparisonWindow26(ts, out);
    MaskAt(ts, out, 26, 26, false,
      [Token(true, Word("AND")), Token(true, Word("end_date"))],
      Step([Token(true, Word("AND"))], 1, false));
  }

  lemma ComparisonStep27(ts: seq<Token>, out: seq<Token>)
    requires Agrees(ts, ComparisonTokens) && Agrees(out, ComparisonMasked)
    requires MaskedFrom(ts, out, 28, 28, false)
    ensures MaskedFrom(ts, out, 27, 27, false)
  {
    ComparisonRewrite27();
    ComparisonWindow27(ts, out);
    MaskAt(ts, out, 27, 27, false,
      [Token(true, Word("end_date"))],
      Step([Token(true, Word("end_date"))], 1, false));
  }

  lemma ComparisonStep28(ts: seq<Token>, out: seq<Token>)
    requires Agrees(ts, ComparisonTokens) && Agrees(out, ComparisonMasked)
    requires MaskedFrom(ts, out, 30, 30, false)
    ensures MaskedFrom(ts, out, 28, 28, false)
  {
    ComparisonRewrite28();
    ComparisonWindow28(ts, out);
    MaskAt(ts, out, 28, 28, false,
      [Token(true, Sym("<=")), Token(true, Quoted("2010-10-01")), Token(false, Sym(")")), Token(true, Word("AND")), Token(true, Word("a.total"))],
      Step([Token(true, Sym("<=")), Token(true, Masked)], 2, false));
  }

  lemma ComparisonStep30(ts: seq<Token>, out: seq<Token>)
    requires Agrees(ts, ComparisonTokens) && Agrees(out, ComparisonMasked)
    requires MaskedFrom(ts, out, 31, 31, false)
    ensures MaskedFrom(ts, out, 30, 30, false)
  {
    ComparisonRewrite30();
    ComparisonWindow30(ts, out);
    MaskAt(ts, out, 30, 30, false,
      [Token(false, Sym(")")), Token(true, Word("AND")), Token(true, Word("a.total"))],
      Step([Token(false, Sym(")"))], 1, false));
  }

  lemma ComparisonRewrite18()
    ensures Rewrite([Token(true, Sym("<")), Token(true, Num("3")), Token(false, Sym(")")), Token(true, Word("AND")), Token(true, Sym("(")), Token(false, Word("start_date"))], false) == Edit([Token(true, Sym("<")), Token(true, Masked)], 2)
    ensures Mode([Token(true, Sym("<")), Token(true, Num("3")), Token(false, Sym(")")), Token(true, Word("AND")), Token(true, Sym("(")), Token(false, Word("start_date"))][..2], false) == false && PlainEnd([Token(true, Sym("<")), Token(true, Num("3")), Token(false, Sym(")")), Token(true, Word("AND")), Token(true, Sym("(")), Token(false, Word("start_date"))])
  {
    var z := [Token(true, Sym("<")), Token(true, Num("3")), Token(false, Sym(")")), Token(true, Word("AND")), Token(true, Sym("(")), Token(false, Word("start_date"))];
    QuietMode(z[..2], false);
  }

  lemma ComparisonRewrite20()
    ensures Rewrite([Token(false, Sym(")")), Token(true, Word("AND")), Token(true, Sym("(")), Token(false, Word("start_date"))], false) == Edit([Token(false, Sym(")"))], 1)
    ensures Mode([Token(false, Sym(")")), Token(true, Word("AND")), Token(true, Sym("(")), Token(false, Word("start_date"))][..1], false) == false && PlainEnd([Token(false, Sym(")")), Token(true, Word("AND")), Token(true, Sym("(")), Token(false, Word("start_date"))])
  {
    var z := [Token(false, Sym(")")), Token(true, Word("AND")), Token(true, Sym("(")), Token(false, Word("start_date"))];
    ModeFirst(z, false);
  }

  lemma ComparisonRewrite21()
    ensures Rewrite([Token(true, Word("AND")), Token(true, Sym("(")), Token(false, Word("start_date"))], false) == Edit([Token(true, Word("AND"))], 1)
    ensures Mode([Token(true, Word("AND")), Token(true, Sym("(")), Token(false, Word("start_date"))][..1], false) == false && PlainEnd([Token(true, Word("AND")), Token(true, Sym("(")), Token(false, Word("start_date"))])
  {
    var z := [Token(true, Word("AND")), Token(true, Sym("(")), Token(false, Word("start_date"))];
    ModeFirst(z, false);
  }

  lemma ComparisonRewrite22()
    ensures Rewrite([Token(true, Sym("(")), Token(false, Word("start_date"))], false) == Edit([Token(true, Sym("("))], 1)
    ensures Mode([Token(true, Sym("(")), Token(false, Word("start_date"))][..1], false) == false && PlainEnd([Token(true, Sym("(")), Token(false, Word("start_date"))])
  {
    var z := [Token(true, Sym("(")), Token(false, Word("start_date"))];
    ModeFirst(z, false);
  }

  lemma ComparisonRewrite23()
    ensures Rewrite([Token(false, Word("start_date"))], false) == Edit([Token(false, Word("start_date"))], 1)
    ensures Mode([Token(false, Word("start_date"))][..1], false) == false && PlainEnd([Token(false, Word("start_date"))])
  {
    var z := [Token(false, Word("start_date"))];
    ModeFirst(z, false);
  }

  lemma ComparisonWindow18(ts: seq<Token>, out: seq<Token>)
    requires Agrees(ts, ComparisonTokens) && Agrees(out, ComparisonMasked)
    ensures |ts| == 41 && |out| == 41
    ensures ts[18..24] == [Token(true, Sym("<")), Token(true, Num("3")), Token(false, Sym(")")), Token(true, Word("AND")), Token(true, Sym("(")), Token(false, Word("start_date"))]
    ensures out[18..20] == [Token(true, Sym("<")), Token(true, Masked)]
  {
    assert ts[18] == ComparisonTokens[18] == Token(true, Sym("<"));
    assert ts[19] == ComparisonTokens[19] == Token(true, Num("3"));
    assert ts[20] == ComparisonTokens[20] == Token(false, Sym(")"));
    assert ts[21] == ComparisonTokens[21] == Token(true, Word("AND"));
    assert ts[22] == ComparisonTokens[22] == Token(true, Sym("("));
    assert ts[23] == ComparisonTokens[23] == Token(false, Word("start_date"));
    assert out[18] == ComparisonMasked[18] == Token(true, Sym("<"));
    assert out[19] == ComparisonMasked[19] == Token(true, Masked);
  }

  lemma ComparisonWindow20(ts: seq<Token>, out: seq<Token>)
    requires Agrees(ts, ComparisonTokens) && Agrees(out, ComparisonMasked)
    ensures |ts| == 41 && |out| == 41
    ensures ts[20..24] == [Token(false, Sym(")")), Token(true, Word("AND")), Token(true, Sym("(")), Token(false, Word("start_date"))]
    ensures out[20..21] == [Token(false, Sym(")"))]
  {
    assert ts[20] == ComparisonTokens[20] == Token(false, Sym(")"));
    assert ts[21] == ComparisonTokens[21] == Token(true, Word("AND"));
    assert ts[22] == ComparisonTokens[22] == Token(true, Sym("("));
    assert ts[23] == ComparisonTokens[23] == Token(false, Word("start_date"));
    assert out[20] == ComparisonMasked[20] == Token(false, Sym(")"));
  }

  lemma ComparisonWindow21(ts: seq<Token>, out: seq<Token>)
    requires Agrees(ts, ComparisonTokens) && Agrees(out, ComparisonMasked)
    ensures |ts| == 41 && |out| == 41
    ensures ts[21..24] == [Token(true, Word("AND")), Token(true, Sym("(")), Token(false, Word("start_date"))]
    ensures out[21..22] == [Token(true, Word("AND"))]
  {
    assert ts[21] == ComparisonTokens[21] == Token(true, Word("AND"));
    assert ts[22] == ComparisonTokens[22] == Token(true, Sym("("));
    assert ts[23] == ComparisonTokens[23] == Token(false, Word("start_date"));
    assert out[21] == ComparisonMasked[21] == Token(true, Word("AND"));
  }

  lemma ComparisonWindow22(ts: seq<Token>, out: seq<Token>)
    requires Agrees(ts, ComparisonTokens) && Agrees(out, ComparisonMasked)
    ensures |ts| == 41 && |out| == 41
    ensures ts[22..24] == [Token(true, Sym("(")), Token(false, Word("start_date"))]
    ensures out[22..23] == [Token(true, Sym("("))]
  {
    assert ts[22] == ComparisonTokens[22] == Token(true, Sym("("));
    assert ts[23] == ComparisonTokens[23] == Token(false, Word("start_date"));
    assert out[22] == ComparisonMasked[22] == Token(true, Sym("("));
  }

  lemma ComparisonWindow23(ts: seq<Token>, out: seq<Token>)
    requires Agrees(ts, ComparisonTokens) && Agrees(out, ComparisonMasked)
    ensures |ts| == 41 && |out| == 41
    ensures ts[23..24] == [Token(false, Word("start_date"))]
    ensures out[23..24] == [Token(false, Word("start_date"))]
  {
    assert ts[23] == ComparisonTokens[23] == Token(false, Word("start_date"));
    assert out[23] == ComparisonMasked[23] == Token(false, Word("start_date"));
  }

  lemma ComparisonStep18(ts: seq<Token>, out: seq<Token>)
    requires Agrees(ts, ComparisonTokens) && Agrees(out, ComparisonMasked)
    requires MaskedFrom(ts, out, 20, 20, false)
    ensures MaskedFrom(ts, out, 18, 18, false)
  {
    ComparisonRewrite18();
    ComparisonWindow18(ts, out);
    MaskAt(ts, out, 18, 18, false,
      [Token(true, Sym("<")), Token(true, Num("3")), Token(false, Sym(")")), Token(true, Word("AND")), Token(true, Sym("(")), Token(false, Word("start_date"))],
      Step([Token(true, Sym("<")), Token(true, Masked)], 2, false));
  }

  lemma ComparisonStep20(ts: seq<Token>, out: seq<Token>)
    requires Agrees(ts, ComparisonTokens) && Agrees(out, ComparisonMasked)
    requires MaskedFrom(ts, out, 21, 21, false)
    ensures MaskedFrom(ts, out, 20, 20, false)
  {
    ComparisonRewrite20();
    ComparisonWindow20(ts, out);
    MaskAt(ts, out, 20, 20, false,
      [Token(false, Sym(")")), Token(true, Word("AND")), Token(true, Sym("(")), Token(false, Word("start_date"))],
      Step([Token(false, Sym(")"))], 1, false));
  }

  lemma ComparisonStep21(ts: seq<Token>, out: seq<Token>)
    requires Agrees(ts, ComparisonTokens) && Agrees(out, ComparisonMasked)
    requires MaskedFrom(ts, out, 22, 22, false)
    ensures MaskedFrom(ts, out, 21, 21, false)
  {
    ComparisonRewrite21();
    ComparisonWindow21(ts, out);
    MaskAt(ts, out, 21, 21, false,
      [Token(true, Word("AND")), Token(true, Sym("(")), Token(false, Word("start_date"))],
      Step([Token(true, Word("AND"))], 1, false));
  }

  lemma ComparisonStep22(ts: seq<Token>, out: seq<Token>)
    requires Agrees(ts, ComparisonTokens) && Agrees(out, ComparisonMasked)
    requires MaskedFrom(ts, out, 23, 23, false)
    ensures MaskedFrom(ts, out, 22, 22, false)
  {
    ComparisonRewrite22();
    ComparisonWindow22(ts, out);
    MaskAt(ts, out, 22, 22, false,
      [Token(true, Sym("(")), Token(false, Word("start_date"))],
      Step([Token(true, Sym("("))], 1, false));
  }

  lemma ComparisonStep23(ts: seq<Token>, out: seq<Token>)
    requires Agrees(ts, ComparisonTokens) && Agrees(out, ComparisonMasked)
    requires MaskedFrom(ts, out, 24, 24, false)
    ensures MaskedFrom(ts, out, 23, 23, false)
  {
    ComparisonRewrite23();
    ComparisonWindow23(ts, out);
    MaskAt(ts, out, 23, 23, false,
      [Token(false, Word("start_date"))],
      Step([Token(false, Word("start_date"))], 1, false));
  }

  lemma ComparisonRewrite12()
    ensures Rewrite([Token(true, Sym("(")), Token(false, Word("a.num"))], false) == Edit([Token(true, Sym("("))], 1)
    ensures Mode([Token(true, Sym("(")), Token(false, Word("a.num"))][..1], false) == false && PlainEnd([Token(true, Sym("(")), Token(false, Word("a.num"))])
  {
    var z := [Token(true, Sym("(")), Token(false, Word("a.num"))];
    ModeFirst(z, false);
  }

  lemma ComparisonRewrite13()
    ensures Rewrite([Token(false, Word("a.num"))], false) == Edit([Token(false, Word("a.num"))], 1)
    ensures Mode([Token(false, Word("a.num"))][..1], false) == false && PlainEnd([Token(false, Word("a.num"))])
  {
    var z := [Token(false, Word("a.num"))];
    ModeFirst(z, false);
  }

  lemma ComparisonRewrite14()
    ensures Rewrite([Token(true, Sym(">")), Token(true, Num("1")), Token(true, Word("AND")), Token(true, Word("a.num"))], false) == Edit([Token(true, Sym(">")), Token(true, Masked)], 2)
    ensures Mode([Token(true, Sym(">")), Token(true, Num("1")), Token(true, Word("AND")), Token(true, Word("a.num"))][..2], false) == false && PlainEnd([Token(true, Sym(">")), Token(true, Num("1")), Token(true, Word("AND")), Token(true, Word("a.num"))])
  {
    var z := [Token(true, Sym(">")), Token(true, Num("1")), Token(true, Word("AND")), Token(true, Word("a.num"))];
    QuietMode(z[..2], false);
  }

  lemma ComparisonRewrite16()
    ensures Rewrite([Token(true, Word("AND")), Token(true, Word("a.num"))], false) == Edit([Token(true, Word("AND"))], 1)
    ensures Mode([Token(true, Word("AND")), Token(true, Word("a.num"))][..1], false) == false && PlainEnd([Token(true, Word("AND")), Token(true, Word("a.num"))])
  {
    var z := [Token(true, Word("AND")), Token(true, Word("a.num"))];
    ModeFirst(z, false);
  }

  lemma ComparisonRewrite17()
    ensures Rewrite([Token(true, Word("a.num"))], false) == Edit([Token(true, Word("a.num"))], 1)
    ensures Mode([Token(true, Word("a.num"))][..1], false) == false && PlainEnd([Token(true, Word("a.num"))])
  {
    var z := [Token(true, Word("a.num"))];
    ModeFirst(z, false);
  }

  lemma ComparisonWindow12(ts: seq<Token>, out: seq<Token>)
    requires Agrees(ts, ComparisonTokens) && Agrees(out, ComparisonMasked)
    ensures |ts| == 41 && |out| == 41
    ensures ts[12..14] == [Token(true, Sym("(")), Token(false, Word("a.num"))]
    ensures out[12..13] == [Token(true, Sym("("))]
  {
    assert ts[12] == ComparisonTokens[12] == Token(true, Sym("("));
    assert ts[13] == ComparisonTokens[13] == Token(false, Word("a.num"));
    assert out[12] == ComparisonMasked[12] == Token(true, Sym("("));
  }

  lemma ComparisonWindow13(ts: seq<Token>, out: seq<Token>)
    requires Agrees(ts, ComparisonTokens) && Agrees(out, ComparisonMasked)
    ensures |ts| == 41 && |out| == 41
    ensures ts[13..14] == [Token(false, Word("a.num"))]
    ensures out[13..14] == [Token(false, Word("a.num"))]
  {
    assert ts[13] == ComparisonTokens[13] == Token(false, Word("a.num"));
    assert out[13] == ComparisonMasked[13] == Token(false, Word("a.num"));
  }

  lemma ComparisonWindow14(ts: seq<Token>, out: seq<Token>)
    requires Agrees(ts, ComparisonTokens) && Agrees(out, ComparisonMasked)
    ensures |ts| == 41 && |out| == 41
    ensures ts[14..18] == [Token(true, Sym(">")), Token(true, Num("1")), Token(true, Word("AND")), Token(true, Word("a.num"))]
    ensures out[14..16] == [Token(true, Sym(">")), Token(true, Masked)]
  {
    assert ts[14] == ComparisonTokens[14] == Token(true, Sym(">"));
    assert ts[15] == ComparisonTokens[15] == Token(true, Num("1"));
    assert ts[16] == ComparisonTokens[16] == Token(true, Word("AND"));
    assert ts[17] == ComparisonTokens[17] == Token(true, Word("a.num"));
    assert out[14] == ComparisonMasked[14] == Token(true, Sym(">"));
    assert out[15] == ComparisonMasked[15] == Token(true, Masked);
  }

  lemma ComparisonWindow16(ts: seq<Token>, out: seq<Token>)
    requires Agrees(ts, ComparisonTokens) && Agrees(out, ComparisonMasked)
    ensures |ts| == 41 && |out| == 41
    ensures ts[16..18] == [Token(true, Word("AND")), Token(true, Word("a.num"))]
    ensures out[16..17] == [Token(true, Word("AND"))]
  {
    assert ts[16] == ComparisonTokens[16] == Token(true, Word("AND"));
    assert ts[17] == ComparisonTokens[17] == Token(true, Word("a.num"));
    assert out[16] == ComparisonMasked[16] == Token(true, Word("AND"));
  }

  lemma ComparisonWindow17(ts: seq<Token>, out: seq<Token>)
    requires Agrees(ts, ComparisonTokens) && Agrees(out, ComparisonMasked)
    ensures |ts| == 41 && |out| == 41
    ensures ts[17..18] == [Token(true, Word("a.num"))]
    ensures out[17..18] == [Token(true, Word("a.num"))]
  {
    assert ts[17] == ComparisonTokens[17] == Token(true, Word("a.num"));
    assert out[17] == ComparisonMasked[17] == Token(true, Word("a.num"));
  }

  lemma ComparisonStep12(ts: seq<Token>, out: seq<Token>)
    requires Agrees(ts, ComparisonTokens) && Agrees(out, ComparisonMasked)
    requires MaskedFrom(ts, out, 13, 13, false)
    ensures MaskedFrom(ts, out, 12, 12, false)
  {
    ComparisonRewrite12();
    ComparisonWindow12(ts, out);
    MaskAt(ts, out, 12, 12, false,
      [Token(true, Sym("(")), Token(false, Word("a.num"))],
      Step([Token(true, Sym("("))], 1, false));
  }

  lemma ComparisonStep13(ts: seq<Token>, out: seq<Token>)
    requires Agrees(ts, ComparisonTokens) && Agrees(out, ComparisonMasked)
    requires MaskedFrom(ts, out, 14, 14, false)
    ensures MaskedFrom(ts, out, 13, 13, false)
  {
    ComparisonRewrite13();
    ComparisonWindow13(ts, out);
    MaskAt(ts, out, 13, 13, false,
      [Token(false, Word("a.num"))],
      Step([Token(false, Word("a.num"))], 1, false));
  }

  lemma ComparisonStep14(ts: seq<Token>, out: seq<Token>)
    requires Agrees(ts, ComparisonTokens) && Agrees(out, ComparisonMasked)
    requires MaskedFrom(ts, out, 16, 16, false)
    ensures MaskedFrom(ts, out, 14, 14, false)
  {
    ComparisonRewrite14();
    ComparisonWindow14(ts, out);
    MaskAt(ts, out, 14, 14, false,
      [Token(true, Sym(">")), Token(true, Num("1")), Token(true, Word("AND")), Token(true, Word("a.num"))],
      Step([Token(true, Sym(">")), Token(true, Masked)], 2, false));
  }

  lemma ComparisonStep16(ts: seq<Token>, out: seq<Token>)
    requires Agrees(ts, ComparisonTokens) && Agrees(out, ComparisonMasked)
    requires MaskedFrom(ts, out, 17, 17, false)
    ensures MaskedFrom(ts, out, 16, 16, false)
  {
    ComparisonRewrite16();
    ComparisonWindow16(ts, out);
    MaskAt(ts, out, 16, 16, false,
      [Token(true, Word("AND")), Token(true, Word("a.num"))],
      Step([Token(true, Word("AND"))], 1, false));
  }

  lemma ComparisonStep17(ts: seq<Token>, out: seq<Token>)
    requires Agrees(ts, ComparisonTokens) && Agrees(out, ComparisonMasked)
    requires MaskedFrom(ts, out, 18, 18, false)
    ensures MaskedFrom(ts, out, 17, 17, false)
  {
    ComparisonRewrite17();
    ComparisonWindow17(ts, out);
    MaskAt(ts, out, 17, 17, false,
      [Token(true, Word("a.num"))],
      Step([Token(true, Word("a.num"))], 1, false));
  }

  lemma ComparisonRewrite5()
    ensures Rewrite([Token(true, Word("a.id"))], false) == Edit([Token(true, Word("a.id"))], 1)
    ensures Mode([Token(true, Word("a.id"))][..1], false) == false && PlainEnd([Token(true, Word("a.id"))])
  {
    var z := [Token(true, Word("a.id"))];
    ModeFirst(z, false);
  }

  lemma ComparisonRewrite6()
    ensures Rewrite([Token(true, Sym("=")), Token(true, Num("1")), Token(true, Word("AND")), Token(true, Word("a.uid"))], false) == Edit([Token(true, Sym("=")), Token(true, Masked)], 2)
    ensures Mode([Token(true, Sym("=")), Token(true, Num("1")), Token(true, Word("AND")), Token(true, Word("a.uid"))][..2], false) == false && PlainEnd([Token(true, Sym("=")), Token(true, Num("1")), Token(true, Word("AND")), Token(true, Word("a.uid"))])
  {
    var z := [Token(true, Sym("=")), Token(true, Num("1")), Token(true, Word("AND")), Token(true, Word("a.uid"))];
    QuietMode(z[..2], false);
  }

  lemma ComparisonRewrite8()
    ensures Rewrite([Token(true, Word("AND")), Token(true, Word("a.uid"))], false) == Edit([Token(true, Word("AND"))], 1)
    ensures Mode([Token(true, Word("AND")), Token(true, Word("a.uid"))][..1], false) == false && PlainEnd([Token(true, Word("AND")), Token(true, Word("a.uid"))])
  {
    var z := [Token(true, Word("AND")), Token(true, Word("a.uid"))];
    ModeFirst(z, false);
  }

  lemma ComparisonRewrite9()
    ensures Rewrite([Token(true, Word("a.uid"))], false) == Edit([Token(true, Word("a.uid"))], 1)
    ensures Mode([Token(true, Word("a.uid"))][..1], false) == false && PlainEnd([Token(true, Word("a.uid"))])
  {
    var z := [Token(true, Word("a.uid"))];
    ModeFirst(z, false);
  }

  lemma ComparisonRewrite10()
    ensures Rewrite([Token(true, Sym("!=")), Token(true, Quoted("bbb")), Token(true, Sym("(")), Token(false, Word("a.num"))], false) == Edit([Token(true, Sym("!=")), Token(true, Masked)], 2)
    ensures Mode([Token(true, Sym("!=")), Token(true, Quoted("bbb")), Token(true, Sym("(")), Token(false, Word("a.num"))][..2], false) == false && PlainEnd([Token(true, Sym("!=")), Token(true, Quoted("bbb")), Token(true, Sym("(")), Token(false, Word("a.num"))])
  {
    var z := [Token(true, Sym("!=")), Token(true, Quoted("bbb")), Token(true, Sym("(")), Token(false, Word("a.num"))];
    QuietMode(z[..2], false);
  }

  lemma ComparisonWindow5(ts: seq<Token>, out: seq<Token>)
    requires Agrees(ts, ComparisonTokens) && Agrees(out, ComparisonMasked)
    ensures |ts| == 41 && |out| == 41
    ensures ts[5..6] == [Token(true, Word("a.id"))]
    ensures out[5..6] == [Token(true, Word("a.id"))]
  {
    assert ts[5] == ComparisonTokens[5] == Token(true, Word("a.id"));
    assert out[5] == ComparisonMasked[5] == Token(true, Word("a.id"));
  }

  lemma ComparisonWindow6(ts: seq<Token>, out: seq<Token>)
    requires Agrees(ts, ComparisonTokens) && Agrees(out, ComparisonMasked)
    ensures |ts| == 41 && |out| == 41
    ensures ts[6..10] == [Token(true, Sym("=")), Token(true, Num("1")), Token(true, Word("AND")), Token(true, Word("a.uid"))]
    ensures out[6..8] == [Token(true, Sym("=")), Token(true, Masked)]
  {
    assert ts[6] == ComparisonTokens[6] == Token(true, Sym("="));
    assert ts[7] == ComparisonTokens[7] == Token(true, Num("1"));
    assert ts[8] == ComparisonTokens[8] == Token(true, Word("AND"));
    assert ts[9] == ComparisonTokens[9] == Token(true, Word("a.uid"));
    assert out[6] == ComparisonMasked[6] == Token(true, Sym("="));
    assert out[7] == ComparisonMasked[7] == Token(true, Masked);
  }

  lemma ComparisonWindow8(ts: seq<Token>, out: seq<Token>)
    requires Agrees(ts, ComparisonTokens) && Agrees(out, ComparisonMasked)
    ensures |ts| == 41 && |out| == 41
    ensures ts[8..10] == [Token(true, Word("AND")), Token(true, Word("a.uid"))]
    ensures out[8..9] == [Token(true, Word("AND"))]
  {
    assert ts[8] == ComparisonTokens[8] == Token(true, Word("AND"));
    assert ts[9] == ComparisonTokens[9] == Token(true, Word("a.uid"));
    assert out[8] == ComparisonMasked[8] == Token(true, Word("AND"));
  }

  lemma ComparisonWindow9(ts: seq<Token>, out: seq<Token>)
    requires Agrees(ts, ComparisonTokens) && Agrees(out, ComparisonMasked)
    ensures |ts| == 41 && |out| == 41
    ensures ts[9..10] == [Token(true, Word("a.uid"))]
    ensures out[9..10] == [Token(true, Word("a.uid"))]
  {
    assert ts[9] == ComparisonTokens[9] == Token(true, Word("a.uid"));
    assert out[9] == ComparisonMasked[9] == Token(true, Word("a.uid"));
  }

  lemma ComparisonWindow10(ts: seq<Token>, out: seq<Token>)
    requires Agrees(ts, ComparisonTokens) && Agrees(out, ComparisonMasked)
    ensures |ts| == 41 && |out| == 41
    ensures ts[10..14] == [Token(true, Sym("!=")), Token(true, Quoted("bbb")), Token(true, Sym("(")), Token(false, Word("a.num"))]
    ensures out[10..12] == [Token(true, Sym("!=")), Token(true, Masked)]
  {
    assert ts[10] == ComparisonTokens[10] == Token(true, Sym("!="));
    assert ts[11] == ComparisonTokens[11] == Token(true, Quoted("bbb"));
    assert ts[12] == ComparisonTokens[12] == Token(true, Sym("("));
    assert ts[13] == ComparisonTokens[13] == Token(false, Word("a.num"));
    assert out[10] == ComparisonMasked[10] == Token(true, Sym("!="));
    assert out[11] == ComparisonMasked[11] == Token(true, Masked);
  }

  lemma ComparisonStep5(ts: seq<Token>, out: seq<Token>)
    requires Agrees(ts, ComparisonTokens) && Agrees(out, ComparisonMasked)
    requires MaskedFrom(ts, out, 6, 6, false)
    ensures MaskedFrom(ts, out, 5, 5, false)
  {
    ComparisonRewrite5();
    ComparisonWindow5(ts, out);
    MaskAt(ts, out, 5, 5, false,
      [Token(true, Word("a.id"))],
      Step([Token(true, Word("a.id"))], 1, false));
  }

  lemma ComparisonStep6(ts: seq<Token>, out: seq<Token>)
    requires Agrees(ts, ComparisonTokens) && Agrees(out, ComparisonMasked)
    requires MaskedFrom(ts, out, 8, 8, false)
    ensures MaskedFrom(ts, out, 6, 6, false)
  {
    ComparisonRewrite6();
    ComparisonWindow6(ts, out);
    MaskAt(ts, out, 6, 6, false,
      [Token(true, Sym("=")), Token(true, Num("1")), Token(true, Word("AND")), Token(true, Word("a.uid"))],
      Step([Token(true, Sym("=")), Token(true, Masked)], 2, false));
  }

  lemma ComparisonStep8(ts: seq<Token>, out: seq<Token>)
    requires Agrees(ts, ComparisonTokens) && Agrees(out, ComparisonMasked)
    requires MaskedFrom(ts, out, 9, 9, false)
    ensures MaskedFrom(ts, out, 8, 8, false)
  {
    ComparisonRewrite8();
    ComparisonWindow8(ts, out);
    MaskAt(ts, out, 8, 8, false,
      [Token(true, Word("AND")), Token(true, Word("a.uid"))],
      Step([Token(true, Word("AND"))], 1, false));
  }

  lemma ComparisonStep9(ts: seq<Token>, out: seq<Token>)
    requires Agrees(ts, ComparisonTokens) && Agrees(out, ComparisonMasked)
    requires MaskedFrom(ts, out, 10, 10, false)
    ensures MaskedFrom(ts, out, 9, 9, false)
  {
    ComparisonRewrite9();
    ComparisonWindow9(ts, out);
    MaskAt(ts, out, 9, 9, false,
      [Token(true, Word("a.uid"))],
      Step([Token(true, Word("a.uid"))], 1, false));
  }

  lemma ComparisonStep10(ts: seq<Token>, out: seq<Token>)
    requires Agrees(ts, ComparisonTokens) && Agrees(out, ComparisonMasked)
    requires MaskedFrom(ts, out, 12, 12, false)
    ensures MaskedFrom(ts, out, 10, 10, false)
  {
    ComparisonRewrite10();
    ComparisonWindow10(ts, out);
    MaskAt(ts, out, 10, 10, false,
      [Token(true, Sym("!=")), Token(true, Quoted("bbb")), Token(true, Sym("(")), Token(false, Word("a.num"))],
      Step([Token(true, Sym("!=")), Token(true, Masked)], 2, false));
  }

  lemma ComparisonRewrite0()
    ensures Rewrite([Token(false, Word("SELECT"))], false) == Edit([Token(false, Word("SELECT"))], 1)
    ensures Mode([Token(false, Word("SELECT"))][..1], false) == false && PlainEnd([Token(false, Word("SELECT"))])
  {
    var z := [Token(false, Word("SELECT"))];
    ModeFirst(z, false);
  }

  lemma ComparisonRewrite1()
    ensures Rewrite([Token(true, Sym("*")), Token(true, Word("FROM"))], false) == Edit([Token(true, Sym("*"))], 1)
    ensures Mode([Token(true, Sym("*")), Token(true, Word("FROM"))][..1], false) == false && PlainEnd([Token(true, Sym("*")), Token(true, Word("FROM"))])
  {
    var z := [Token(true, Sym("*")), Token(true, Word("FROM"))];
    ModeFirst(z, false);
  }

  lemma ComparisonRewrite2()
    ensures Rewrite([Token(true, Word("FROM"))], false) == Edit([Token(true, Word("FROM"))], 1)
    ensures Mode([Token(true, Word("FROM"))][..1], false) == false && PlainEnd([Token(true, Word("FROM"))])
  {
    var z := [Token(true, Word("FROM"))];
    ModeFirst(z, false);
  }

  lemma ComparisonRewrite3()
    ensures Rewrite([Token(true, Word("a"))], false) == Edit([Token(true, Word("a"))], 1)
    ensures Mode([Token(true, Word("a"))][..1], false) == false && PlainEnd([Token(true, Word("a"))])
  {
    var z := [Token(true, Word("a"))];
    ModeFirst(z, false);
  }

  lemma ComparisonRewrite4()
    ensures Rewrite([Token(true, Word("WHERE"))], false) == Edit([Token(true, Word("WHERE"))], 1)
    ensures Mode([Token(true, Word("WHERE"))][..1], false) == false && PlainEnd([Token(true, Word("WHERE"))])
  {
    var z := [Token(true, Word("WHERE"))];
    ModeFirst(z, false);
  }

  lemma ComparisonWindow0(ts: seq<Token>, out: seq<Token>)
    requires Agrees(ts, ComparisonTokens) && Agrees(out, ComparisonMasked)
    ensures |ts| == 41 && |out| == 41
    ensures ts[0..1] == [Token(false, Word("SELECT"))]
    ensures out[0..1] == [Token(false, Word("SELECT"))]
  {
    assert ts[0] == ComparisonTokens[0] == Token(false, Word("SELECT"));
    assert out[0] == ComparisonMasked[0] == Token(false, Word("SELECT"));
  }

  lemma ComparisonWindow1(ts: seq<Token>, out: seq<Token>)
    requires Agrees(ts, ComparisonTokens) && Agrees(out, ComparisonMasked)
    ensures |ts| == 41 && |out| == 41
    ensures ts[1..3] == [Token(true, Sym("*")), Token(true, Word("FROM"))]
    ensures out[1..2] == [Token(true, Sym("*"))]
  {
    assert ts[1] == ComparisonTokens[1] == Token(true, Sym("*"));
    assert ts[2] == ComparisonTokens[2] == Token(true, Word("FROM"));
    assert out[1] == ComparisonMasked[1] == Token(true, Sym("*"));
  }

  lemma ComparisonWindow2(ts: seq<Token>, out: seq<Token>)
    requires Agrees(ts, ComparisonTokens) && Agrees(out, ComparisonMasked)
    ensures |ts| == 41 && |out| == 41
    ensures ts[2..3] == [Token(true, Word("FROM"))]
    ensures out[2..3] == [Token(true, Word("FROM"))]
  {
    assert ts[2] == ComparisonTokens[2] == Token(true, Word("FROM"));
    assert out[2] == ComparisonMasked[2] == Token(true, Word("FROM"));
  }

  lemma ComparisonWindow3(ts: seq<Token>, out: seq<Token>)
    requires Agrees(ts, ComparisonTokens) && Agrees(out, ComparisonMasked)
    ensures |ts| == 41 && |out| == 41
    ensures ts[3..4] == [Token(true, Word("a"))]
    ensures out[3..4] == [Token(true, Word("a"))]
  {
    assert ts[3] == ComparisonTokens[3] == Token(true, Word("a"));
    assert out[3] == ComparisonMasked[3] == Token(true, Word("a"));
  }

  lemma ComparisonWindow4(ts: seq<Token>, out: seq<Token>)
    requires Agrees(ts, ComparisonTokens) && Agrees(out, ComparisonMasked)
    ensures |ts| == 41 && |out| == 41
    ensures ts[4..5] == [Token(true, Word("WHERE"))]
    ensures out[4..5] == [Token(true, Word("WHERE"))]
  {
    assert ts[4] == ComparisonTokens[4] == Token(true, Word("WHERE"));
    assert out[4] == ComparisonMasked[4] == Token(true, Word("WHERE"));
  }

  lemma ComparisonStep0(ts: seq<Token>, out: seq<Token>)
    requires Agrees(ts, ComparisonTokens) && Agrees(out, ComparisonMasked)
    requires MaskedFrom(ts, out, 1, 1, false)
    ensures MaskedFrom(ts, out, 0, 0, false)
  {
    ComparisonRewrite0();
    ComparisonWindow0(ts, out);
    MaskAt(ts, out, 0, 0, false,
      [Token(false, Word("SELECT"))],
      Step([Token(false, Word("SELECT"))], 1, false));
  }

  lemma ComparisonStep1(ts: seq<Token>, out: seq<Token>)
    requires Agrees(ts, ComparisonTokens) && Agrees(out, ComparisonMasked)
    requires MaskedFrom(ts, out, 2, 2, false)
    ensures MaskedFrom(ts, out, 1, 1, false)
  {
    ComparisonRewrite1();
    ComparisonWindow1(ts, out);
    MaskAt(ts, out, 1, 1, false,
      [Token(true, Sym("*")), Token(true, Word("FROM"))],
      Step([Token(true, Sym("*"))], 1, false));
  }

  lemma ComparisonStep2(ts: seq<Token>, out: seq<Token>)
    requires Agrees(ts, ComparisonTokens) && Agrees(out, ComparisonMasked)
    requires MaskedFrom(ts, out, 3, 3, false)
    ensures MaskedFrom(ts, out, 2, 2, false)
  {
    ComparisonRewrite2();
    ComparisonWindow2(ts, out);
    MaskAt(ts, out, 2, 2, false,
      [Token(true, Word("FROM"))],
      Step([Token(true, Word("FROM"))], 1, false));
  }

  lemma ComparisonStep3(ts: seq<Token>, out: seq<Token>)
    requires Agrees(ts, ComparisonTokens) && Agrees(out, ComparisonMasked)
    requires MaskedFrom(ts, out, 4, 4, false)
    ensures MaskedFrom(ts, out, 3, 3, false)
  {
    ComparisonRewrite3();
    ComparisonWindow3(ts, out);
    MaskAt(ts, out, 3, 3, false,
      [Token(true, Word("a"))],
      Step([Token(true, Word("a"))], 1, false));
  }

  lemma ComparisonStep4(ts: seq<Token>, out: seq<Token>)
    requires Agrees(ts, ComparisonTokens) && Agrees(out, ComparisonMasked)
    requires MaskedFrom(ts, out, 5, 5, false)
    ensures MaskedFrom(ts, out, 4, 4, false)
  {
    ComparisonRewrite4();
    ComparisonWindow4(ts, out);
    MaskAt(ts, out, 4, 4, false,
      [Token(true, Word("WHERE"))],
      Step([Token(true, Word("WHERE"))], 1, false));
  }

  lemma ComparisonMasking(ts: seq<Token>, out: seq<Token>)
    requires Agrees(ts, ComparisonTokens) && Agrees(out, ComparisonMasked)
    ensures MaskedFrom(ts, out, 0, 0, false)
  {
    ComparisonStep39(ts, out);
    ComparisonStep37(ts, out);
    ComparisonStep33(ts, out);
    ComparisonStep32(ts, out);
    ComparisonStep31(ts, out);
    ComparisonStep30(ts, out);
    ComparisonStep28(ts, out);
    ComparisonStep27(ts, out);
    ComparisonStep26(ts, out);
    ComparisonStep24(ts, out);
    ComparisonStep23(ts, out);
    ComparisonStep22(ts, out);
    ComparisonStep21(ts, out);
    ComparisonStep20(ts, out);
    ComparisonStep18(ts, out);
    ComparisonStep17(ts, out);
    ComparisonStep16(ts, out);
    ComparisonStep14(ts, out);
    ComparisonStep13(ts, out);
    ComparisonStep12(ts, out);
    ComparisonStep10(ts, out);
    ComparisonStep9(ts, out);
    ComparisonStep8(ts, out);
    ComparisonStep6(ts, out);
    ComparisonStep5(ts, out);
    ComparisonStep4(ts, out);
    ComparisonStep3(ts, out);
    ComparisonStep2(ts, out);
    ComparisonStep1(ts, out);
    ComparisonStep0(ts, out);
  }

  lemma ComparisonOutput1(out: seq<Token>, es: seq<string>)
    requires Agrees(out, ComparisonMasked) && Agrees(es, ComparisonCleaned)
    ensures |out| == 41 && |es| == 41
    ensures es[0] == RenderToken(out[0])
    ensures es[1] == RenderToken(out[1])
    ensures es[2] == RenderToken(out[2])
    ensures es[3] == RenderToken(out[3])
  {
    assert out[0] == ComparisonMasked[0] == Token(false, Word("SELECT"));
    assert es[0] == ComparisonCleaned[0] == "SELECT";
    assert out[1] == ComparisonMasked[1] == Token(true, Sym("*"));
    assert es[1] == ComparisonCleaned[1] == " *";
    assert out[2] == ComparisonMasked[2] == Token(true, Word("FROM"));
    assert es[2] == ComparisonCleaned[2] == " FROM";
    assert out[3] == ComparisonMasked[3] == Token(true, Word("a"));
    assert es[3] == ComparisonCleaned[3] == " a";
  }

  lemma ComparisonRendered1(out: seq<Token>, es: seq<string>)
    requires Agrees(out, ComparisonMasked) && Agrees(es, ComparisonCleaned)
    ensures Rendered(out, es, 4)
  {
    ComparisonOutput1(out, es);
    RenderedStart(out, es);
    RenderedNext(out, es, 0);
    RenderedNext(out, es, 1);
    RenderedNext(out, es, 2);
    RenderedNext(out, es, 3);
  }

  lemma ComparisonOutput2(out: seq<Token>, es: seq<string>)
    requires Agrees(out, ComparisonMasked) && Agrees(es, ComparisonCleaned)
    ensures |out| == 41 && |es| == 41
    ensures es[4] == RenderToken(out[4])
    ensures es[5] == RenderToken(out[5])
    ensures es[6] == RenderToken(out[6])
    ensures es[7] == RenderToken(out[7])
  {
    assert out[4] == ComparisonMasked[4] == Token(true, Word("WHERE"));
    assert es[4] == ComparisonCleaned[4] == " WHERE";
    assert out[5] == ComparisonMasked[5] == Token(true, Word("a.id"));
    assert es[5] == ComparisonCleaned[5] == " a.id";
    assert out[6] == ComparisonMasked[6] == Token(true, Sym("="));
    assert es[6] == ComparisonCleaned[6] == " =";
    assert out[7] == ComparisonMasked[7] == Token(true, Masked);
    assert es[7] == ComparisonCleaned[7] == " ???";
  }

  lemma ComparisonRendered2(out: seq<Token>, es: seq<string>)
    requires Agrees(out, ComparisonMasked) && Agrees(es, ComparisonCleaned)
    requires Rendered(out, es, 4)
    ensures Rendered(out, es, 8)
  {
    ComparisonOutput2(out, es);
    RenderedNext(out, es, 4);
    RenderedNext(out, es, 5);
    RenderedNext(out, es, 6);
    RenderedNext(out, es, 7);
  }

  lemma ComparisonOutput3(out: seq<Token>, es: seq<string>)
    requires Agrees(out, ComparisonMasked) && Agrees(es, ComparisonCleaned)
    ensures |out| == 41 && |es| == 41
    ensures es[8] == RenderToken(out[8])
    ensures es[9] == RenderToken(out[9])
    ensures es[10] == RenderToken(out[10])
    ensures es[11] == RenderToken(out[11])
  {
    assert out[8] == ComparisonMasked[8] == Token(true, Word("AND"));
    assert es[8] == ComparisonCleaned[8] == " AND";
    assert out[9] == ComparisonMasked[9] == Token(true, Word("a.uid"));
    assert es[9] == ComparisonCleaned[9] == " a.uid";
    assert out[10] == ComparisonMasked[10] == Token(true, Sym("!="));
    assert es[10] == ComparisonCleaned[10] == " !=";
    assert out[11] == ComparisonMasked[11] == Token(true, Masked);
    assert es[11] == ComparisonCleaned[11] == " ???";
  }

  lemma ComparisonRendered3(out: seq<Token>, es: seq<string>)
    requires Agrees(out, ComparisonMasked) && Agrees(es, ComparisonCleaned)
    requires Rendered(out, es, 8)
    ensures Rendered(out, es, 12)
  {
    ComparisonOutput3(out, es);
    RenderedNext(out, es, 8);
    RenderedNext(out, es, 9);
    RenderedNext(out, es, 10);
    RenderedNext(out, es, 11);
  }

  lemma ComparisonOutput4(out: seq<Token>, es: seq<string>)
    requires Agrees(out, ComparisonMasked) && Agrees(es, ComparisonCleaned)
    ensures |out| == 41 && |es| == 41
    ensures es[12] == RenderToken(out[12])
    ensures es[13] == RenderToken(out[13])
    ensures es[14] == RenderToken(out[14])
    ensures es[15] == RenderToken(out[15])
  {
    assert out[12] == ComparisonMasked[12] == Token(true, Sym("("));
    assert es[12] == ComparisonCleaned[12] == " (";
    assert out[13] == ComparisonMasked[13] == Token(false, Word("a.num"));
    assert es[13] == ComparisonCleaned[13] == "a.num";
    assert out[14] == ComparisonMasked[14] == Token(true, Sym(">"));
    assert es[14] == ComparisonCleaned[14] == " >";
    assert out[15] == ComparisonMasked[15] == Token(true, Masked);
    assert es[15] == ComparisonCleaned[15] == " ???";
  }

  lemma ComparisonRendered4(out: seq<Token>, es: seq<string>)
    requires Agrees(out, ComparisonMasked) && Agrees(es, ComparisonCleaned)
    requires Rendered(out, es, 12)
    ensures Rendered(out, es, 16)
  {
    ComparisonOutput4(out, es);
    RenderedNext(out, es, 12);
    RenderedNext(out, es, 13);
    RenderedNext(out, es, 14);
    RenderedNext(out, es, 15);
  }

  lemma ComparisonOutput5(out: seq<Token>, es: seq<string>)
    requires Agrees(out, ComparisonMasked) && Agrees(es, ComparisonCleaned)
    ensures |out| == 41 && |es| == 41
    ensures es[16] == RenderToken(out[16])
    ensures es[17] == RenderToken(out[17])
    ensures es[18] == RenderToken(out[18])
    ensures es[19] == RenderToken(out[19])
  {
    assert out[16] == ComparisonMasked[16] == Token(true, Word("AND"));
    assert es[16] == ComparisonCleaned[16] == " AND";
    assert out[17] == ComparisonMasked[17] == Token(true, Word("a.num"));
    assert es[17] == ComparisonCleaned[17] == " a.num";
    assert out[18] == ComparisonMasked[18] == Token(true, Sym("<"));
    assert es[18] == ComparisonCleaned[18] == " <";
    assert out[19] == ComparisonMasked[19] == Token(true, Masked);
    assert es[19] == ComparisonCleaned[19] == " ???";
  }

  lemma ComparisonRendered5(out: seq<Token>, es: seq<string>)
    requires Agrees(out, ComparisonMasked) && Agrees(es, ComparisonCleaned)
    requires Rendered(out, es, 16)
    ensures Rendered(out, es, 20)
  {
    ComparisonOutput5(out, es);
    RenderedNext(out, es, 16);
    RenderedNext(out, es, 17);
    RenderedNext(out, es, 18);
    RenderedNext(out, es, 19);
  }

  lemma ComparisonOutput6(out: seq<Token>, es: seq<string>)
    requires Agrees(out, ComparisonMasked) && Agrees(es, ComparisonCleaned)
    ensures |out| == 41 && |es| == 41
    ensures es[20] == RenderToken(out[20])
    ensures es[21] == RenderToken(out[21])
    ensures es[22] == RenderToken(out[22])
    ensures es[23] == RenderToken(out[23])
  {
    assert out[20] == ComparisonMasked[20] == Token(false, Sym(")"));
    assert es[20] == ComparisonCleaned[20] == ")";
    assert out[21] == ComparisonMasked[21] == Token(true, Word("AND"));
    assert es[21] == ComparisonCleaned[21] == " AND";
    assert out[22] == ComparisonMasked[22] == Token(true, Sym("("));
    assert es[22] == ComparisonCleaned[22] == " (";
    assert out[23] == ComparisonMasked[23] == Token(false, Word("start_date"));
    assert es[23] == ComparisonCleaned[23] == "start_date";
  }

  lemma ComparisonRendered6(out: seq<Token>, es: seq<string>)
    requires Agrees(out, ComparisonMasked) && Agrees(es, ComparisonCleaned)
    requires Rendered(out, es, 20)
    ensures Rendered(out, es, 24)
  {
    ComparisonOutput6(out, es);
    RenderedNext(out, es, 20);
    RenderedNext(out, es, 21);
    RenderedNext(out, es, 22);
    RenderedNext(out, es, 23);
  }

  lemma ComparisonOutput7(out: seq<Token>, es: seq<string>)
    requires Agrees(out, ComparisonMasked) && Agrees(es, ComparisonCleaned)
    ensures |out| == 41 && |es| == 41
    ensures es[24] == RenderToken(out[24])
    ensures es[25] == RenderToken(out[25])
    ensures es[26] == RenderToken(out[26])
    ensures es[27] == RenderToken(out[27])
  {
    assert out[24] == ComparisonMasked[24] == Token(true, Sym(">="));
    assert es[24] == ComparisonCleaned[24] == " >=";
    assert out[25] == ComparisonMasked[25] == Token(true, Masked);
    assert es[25] == ComparisonCleaned[25] == " ???";
    assert out[26] == ComparisonMasked[26] == Token(true, Word("AND"));
    assert es[26] == ComparisonCleaned[26] == " AND";
    assert out[27] == ComparisonMasked[27] == Token(true, Word("end_date"));
    assert es[27] == ComparisonCleaned[27] == " end_date";
  }

  lemma ComparisonRendered7(out: seq<Token>, es: seq<string>)
    requires Agrees(out, ComparisonMasked) && Agrees(es, ComparisonCleaned)
    requires Rendered(out, es, 24)
    ensures Rendered(out, es, 28)
  {
    ComparisonOutput7(out, es);
    RenderedNext(out, es, 24);
    RenderedNext(out, es, 25);
    RenderedNext(out, es, 26);
    RenderedNext(out, es, 27);
  }

  lemma ComparisonOutput8(out: seq<Token>, es: seq<string>)
    requires Agrees(out, ComparisonMasked) && Agrees(es, ComparisonCleaned)
    ensures |out| == 41 && |es| == 41
    ensures es[28] == RenderToken(out[28])
    ensures es[29] == RenderToken(out[29])
    ensures es[30] == RenderToken(out[30])
    ensures es[31] == RenderToken(out[31])
  {
    assert out[28] == ComparisonMasked[28] == Token(true, Sym("<="));
    assert es[28] == ComparisonCleaned[28] == " <=";
    assert out[29] == ComparisonMasked[29] == Token(true, Masked);
    assert es[29] == ComparisonCleaned[29] == " ???";
    assert out[30] == ComparisonMasked[30] == Token(false, Sym(")"));
    assert es[30] == ComparisonCleaned[30] == ")";
    assert out[31] == ComparisonMasked[31] == Token(true, Word("AND"));
    assert es[31] == ComparisonCleaned[31] == " AND";
  }

  lemma ComparisonRendered8(out: seq<Token>, es: seq<string>)
    requires Agrees(out, ComparisonMasked) && Agrees(es, ComparisonCleaned)
    requires Rendered(out, es, 28)
    ensures Rendered(out, es, 32)
  {
    ComparisonOutput8(out, es);
    RenderedNext(out, es, 28);
    RenderedNext(out, es, 29);
    RenderedNext(out, es, 30);
    RenderedNext(out, es, 31);
  }

  lemma ComparisonOutput9(out: seq<Token>, es: seq<string>)
    requires Agrees(out, ComparisonMasked) && Agrees(es, ComparisonCleaned)
    ensures |out| == 41 && |es| == 41
    ensures es[32] == RenderToken(out[32])
    ensures es[33] == RenderToken(out[33])
    ensures es[34] == RenderToken(out[34])
    ensures es[35] == RenderToken(out[35])
  {
    assert out[32] == ComparisonMasked[32] == Token(true, Word("a.total"));
    assert es[32] == ComparisonCleaned[32] == " a.total";
    assert out[33] == ComparisonMasked[33] == Token(true, Word("BETWEEN"));
    assert es[33] == ComparisonCleaned[33] == " BETWEEN";
    assert out[34] == ComparisonMasked[34] == Token(true, Masked);
    assert es[34] == ComparisonCleaned[34] == " ???";
    assert out[35] == ComparisonMasked[35] == Token(true, Word("AND"));
    assert es[35] == ComparisonCleaned[35] == " AND";
  }

  lemma ComparisonRendered9(out: seq<Token>, es: seq<string>)
    requires Agrees(out, ComparisonMasked) && Agrees(es, ComparisonCleaned)
    requires Rendered(out, es, 32)
    ensures Rendered(out, es, 36)
  {
    ComparisonOutput9(out, es);
    RenderedNext(out, es, 32);
    RenderedNext(out, es, 33);
    RenderedNext(out, es, 34);
    RenderedNext(out, es, 35);
  }

  lemma ComparisonOutput10(out: seq<Token>, es: seq<string>)
    requires Agrees(out, ComparisonMasked) && Agrees(es, ComparisonCleaned)
    ensures |out| == 41 && |es| == 41
    ensures es[36] == RenderToken(out[36])
    ensures es[37] == RenderToken(out[37])
    ensures es[38] == RenderToken(out[38])
    ensures es[39] == RenderToken(out[39])
  {
    assert out[36] == ComparisonMasked[36] == Token(true, Masked);
    assert es[36] == ComparisonCleaned[36] == " ???";
    assert out[37] == ComparisonMasked[37] == Token(true, Word("LIMIT"));
    assert es[37] == ComparisonCleaned[37] == " LIMIT";
    assert out[38] == ComparisonMasked[38] == Token(true, Masked);
    assert es[38] == ComparisonCleaned[38] == " ???";
    assert out[39] == ComparisonMasked[39] == Token(true, Word("OFFSET"));
    assert es[39] == ComparisonCleaned[39] == " OFFSET";
  }

  lemma ComparisonRendered10(out: seq<Token>, es: seq<string>)
    requires Agrees(out, ComparisonMasked) && Agrees(es, ComparisonCleaned)
    requires Rendered(out, es, 36)
    ensures Rendered(out, es, 40)
  {
    ComparisonOutput10(out, es);
    RenderedNext(out, es, 36);
    RenderedNext(out, es, 37);
    RenderedNext(out, es, 38);
    RenderedNext(out, es, 39);
  }

  lemma ComparisonOutput11(out: seq<Token>, es: seq<string>)
    requires Agrees(out, ComparisonMasked) && Agrees(es, ComparisonCleaned)
    ensures |out| == 41 && |es| == 41
    ensures es[40] == RenderToken(out[40])
  {
    assert out[40] == ComparisonMasked[40] == Token(true, Masked);
    assert es[40] == ComparisonCleaned[40] == " ???";
  }

  lemma ComparisonRendered11(out: seq<Token>, es: seq<string>)
    requires Agrees(out, ComparisonMasked) && Agrees(es, ComparisonCleaned)
    requires Rendered(out, es, 40)
    ensures Rendered(out, es, 41)
  {
    ComparisonOutput11(out, es);
    RenderedNext(out, es, 40);
  }

  lemma ComparisonRendering(out: seq<Token>, es: seq<string>)
    requires Agrees(out, ComparisonMasked) && Agrees(es, ComparisonCleaned)
    ensures Rendered(out, es, |out|) && |es| == |out|
  {
    ComparisonRendered1(out, es);
    ComparisonRendered2(out, es);
    ComparisonRendered3(out, es);
    ComparisonRendered4(out, es);
    ComparisonRendered5(out, es);
    ComparisonRendered6(out, es);
    ComparisonRendered7(out, es);
    ComparisonRendered8(out, es);
    ComparisonRendered9(out, es);
    ComparisonRendered10(out, es);
    ComparisonRendered11(out, es);
  }

  lemma ComparisonByPieces(qs: seq<string>, ts: seq<Token>, out: seq<Token>, es: seq<string>)
    requires Agrees(qs, ComparisonQuery) && Agrees(ts, ComparisonTokens)
    requires Agrees(out, ComparisonMasked) && Agrees(es, ComparisonCleaned)
    ensures CleanSqlQuery(Join(qs)) == Join(es)
  {
    ComparisonLexing(qs, ts);
    ComparisonMasking(ts, out);
    ComparisonRendering(out, es);
    CleanByPieces(qs, ts, out, es);
  }

  lemma CleanComparisonOperators()
    ensures CleanSqlQuery(Join(ComparisonQuery)) == Join(ComparisonCleaned)
  {
    ComparisonByPieces(ComparisonQuery, ComparisonTokens, ComparisonMasked, ComparisonCleaned);
  }
}
