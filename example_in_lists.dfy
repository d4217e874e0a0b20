module InListsExample {
  /* A worked example of the masker: parenthesised lists of literals become
     `(???)`, each list on its own. `InListsQuery` is the statement as
     written, cut into pieces of whitespace and one token each, and
     `InListsCleaned` is the expected text cut into the rendered output
     tokens; `InListsTokens` and `InListsMasked` are the tokens before and
     after masking. The proof follows the pieces: each piece lexes to its
     token, each masking step is computed on a short window of tokens that
     ends with an ordinary word, and each output token renders as its
     expected piece. */
  import opened Passes
  import opened SqlText
  import opened SqlLexer
  import opened SqlMasker
  import opened SqlMaskSplit
  import opened SqlPieces

  /** The statement of test_should_concatenate_in_parameters and test_clean_values_from_where_in_clause. */
  const InListsQuery1: seq<string> := ["\n        SELECT", " *", " FROM", " a"]
  const InListsQuery2: seq<string> := ["\n        WHERE", " a.id", " IN", " ("]
  const InListsQuery3: seq<string> := ["\n          SELECT", " b.id", " FROM", " b", " WHERE", " b.id", " IN", " (", "1", ",", "2", ",", "3", ",", "4", ")"]
  const InListsQuery4: seq<string> := ["\n          AND", " b.uid", " IN", " (", "'aaaa'", ",", " 'bbbb'", ")"]
  const InListsQuery5: seq<string> := ["\n        )", " AND", " a.xid", " IN", " (", "11", ",", " 22", ",", " 33", ")"]
  const InListsQuery6: seq<string> := ["\n      "]
  const InListsQuery: seq<string> :=
    InListsQuery1 + InListsQuery2 + InListsQuery3 + InListsQuery4 + InListsQuery5 + InListsQuery6

  const InListsCleaned1: seq<string> := ["SELECT", " *", " FROM", " a", " WHERE", " a.id", " IN", " ("]
  const InListsCleaned2: seq<string> := [" SELECT", " b.id", " FROM", " b", " WHERE", " b.id", " IN", " ("]
  const InListsCleaned3: seq<string> := ["???", ")", " AND", " b.uid", " IN", " (", "???", ")"]
  const InListsCleaned4: seq<string> := [" )", " AND", " a.xid", " IN", " (", "???", ")"]
  const InListsCleaned: seq<string> :=
    InListsCleaned1 + InListsCleaned2 + InListsCleaned3 + InListsCleaned4

  ghost const InListsTokens1: seq<Token> := [Token(false, Word("SELECT")), Token(true, Sym("*")), Token(true, Word("FROM")), Token(true, Word("a")), Token(true, Word("WHERE")), Token(true, Word("a.id"))]
  ghost const InListsTokens2: seq<Token> := [Token(true, Word("IN")), Token(true, Sym("(")), Token(true, Word("SELECT")), Token(true, Word("b.id")), Token(true, Word("FROM")), Token(true, Word("b"))]
  ghost const InListsTokens3: seq<Token> := [Token(true, Word("WHERE")), Token(true, Word("b.id")), Token(true, Word("IN")), Token(true, Sym("(")), Token(false, Num("1")), Token(false, Sym(","))]
  ghost const InListsTokens4: seq<Token> := [Token(false, Num("2")), Token(false, Sym(",")), Token(false, Num("3")), Token(false, Sym(",")), Token(false, Num("4")), Token(false, Sym(")"))]
  ghost const InListsTokens5: seq<Token> := [Token(true, Word("AND")), Token(true, Word("b.uid")), Token(true, Word("IN")), Token(true, Sym("(")), Token(false, Quoted("aaaa")), Token(false, Sym(","))]
  ghost const InListsTokens6: seq<Token> := [Token(true, Quoted("bbbb")), Token(false, Sym(")")), Token(true, Sym(")")), Token(true, Word("AND")), Token(true, Word("a.xid")), Token(true, Word("IN"))]
  ghost const InListsTokens7: seq<Token> := [Token(true, Sym("(")), Token(false, Num("11")), Token(false, Sym(",")), Token(true, Num("22")), Token(false, Sym(",")), Token(true, Num("33"))]
  ghost const InListsTokens8: seq<Token> := [Token(false, Sym(")"))]
  ghost const InListsTokens: seq<Token> :=
    InListsTokens1 + InListsTokens2 + InListsTokens3 + InListsTokens4 + InListsTokens5 + InListsTokens6
    + InListsTokens7 + InListsTokens8

  ghost const InListsMasked1: seq<Token> := [Token(false, Word("SELECT")), Token(true, Sym("*")), Token(true, Word("FROM")), Token(true, Word("a")), Token(true, Word("WHERE")), Token(true, Word("a.id"))]
  ghost const InListsMasked2: seq<Token> := [Token(true, Word("IN")), Token(true, Sym("(")), Token(true, Word("SELECT")), Token(true, Word("b.id")), Token(true, Word("FROM")), Token(true, Word("b"))]
  ghost const InListsMasked3: seq<Token> := [Token(true, Word("WHERE")), Token(true, Word("b.id")), Token(true, Word("IN")), Token(true, Sym("(")), Token(false, Masked), Token(false, Sym(")"))]
  ghost const InListsMasked4: seq<Token> := [Token(true, Word("AND")), Token(true, Word("b.uid")), Token(true, Word("IN")), Token(true, Sym("(")), Token(false, Masked), Token(false, Sym(")"))]
  ghost const InListsMasked5: seq<Token> := [Token(true, Sym(")")), Token(true, Word("AND")), Token(true, Word("a.xid")), Token(true, Word("IN")), Token(true, Sym("(")), Token(false, Masked)]
  ghost const InListsMasked6: seq<Token> := [Token(false, Sym(")"))]
  ghost const InListsMasked: seq<Token> :=
    InListsMasked1 + InListsMasked2 + InListsMasked3 + InListsMasked4 + InListsMasked5 + InListsMasked6

  lemma InListsPiece0()
    ensures PieceOf("\n        SELECT", "\n        ", Token(false, Word("SELECT")))
  {
  }

  lemma InListsPiece1()
    ensures PieceOf(" *", " ", Token(true, Sym("*")))
    ensures Adjacent(Token(false, Word("SELECT")), Token(true, Sym("*")))
  {
  }

  lemma InListsPiece2()
    ensures PieceOf(" FROM", " ", Token(true, Word("FROM")))
    ensures Adjacent(Token(true, Sym("*")), Token(true, Word("FROM")))
  {
  }

  lemma InListsPiece3()
    ensures PieceOf(" a", " ", Token(true, Word("a")))
    ensures Adjacent(Token(true, Word("FROM")), Token(true, Word("a")))
  {
  }

  lemma InListsPiece4()
    ensures PieceOf("\n        WHERE", "\n        ", Token(true, Word("WHERE")))
    ensures Adjacent(Token(true, Word("a")), Token(true, Word("WHERE")))
  {
  }

  lemma InListsPiece5()
    ensures PieceOf(" a.id", " ", Token(true, Word("a.id")))
    ensures Adjacent(Token(true, Word("WHERE")), Token(true, Word("a.id")))
  {
  }

  lemma InListsPieces1(qs: seq<string>, ts: seq<Token>)
    requires Agrees(qs, InListsQuery) && Agrees(ts, InListsTokens)
    ensures |qs| == 44 && |ts| == 43
    ensures qs[0] == "\n        SELECT"
    ensures qs[1] == " *"
    ensures qs[2] == " FROM"
    ensures qs[3] == " a"
    ensures qs[4] == "\n        WHERE"
    ensures qs[5] == " a.id"
    ensures ts[0] == Token(false, Word("SELECT"))
    ensures ts[1] == Token(true, Sym("*"))
    ensures ts[2] == Token(true, Word("FROM"))
    ensures ts[3] == Token(true, Word("a"))
    ensures ts[4] == Token(true, Word("WHERE"))
    ensures ts[5] == Token(true, Word("a.id"))
  {
    assert qs[0] == InListsQuery[0];
    assert qs[1] == InListsQuery[1];
    assert qs[2] == InListsQuery[2];
    assert qs[3] == InListsQuery[3];
    assert qs[4] == InListsQuery[4];
    assert qs[5] == InListsQuery[5];
    assert ts[0] == InListsTokens[0];
    assert ts[1] == InListsTokens[1];
    assert ts[2] == InListsTokens[2];
    assert ts[3] == InListsTokens[3];
    assert ts[4] == InListsTokens[4];
    assert ts[5] == InListsTokens[5];
  }

  lemma InListsLexed1(qs: seq<string>, ts: seq<Token>)
    requires Agrees(qs, InListsQuery) && Agrees(ts, InListsTokens)
    ensures Built(qs, ts, 6)
  {
    InListsPieces1(qs, ts);
    InListsPiece0();
    InListsPiece1();
    InListsPiece2();
    InListsPiece3();
    InListsPiece4();
    InListsPiece5();
    PieceFirst(qs, ts, "\n        ", "\n        SELECT", Token(false, Word("SELECT")));
    PieceNext(qs, ts, 1, " ", " *", Token(false, Word("SELECT")), Token(true, Sym("*")));
    PieceNext(qs, ts, 2, " ", " FROM", Token(true, Sym("*")), Token(true, Word("FROM")));
    PieceNext(qs, ts, 3, " ", " a", Token(true, Word("FROM")), Token(true, Word("a")));
    PieceNext(qs, ts, 4, "\n        ", "\n        WHERE", Token(true, Word("a")), Token(true, Word("WHERE")));
    PieceNext(qs, ts, 5, " ", " a.id", Token(true, Word("WHERE")), Token(true, Word("a.id")));
  }

  lemma InListsPiece6()
    ensures PieceOf(" IN", " ", Token(true, Word("IN")))
    ensures Adjacent(Token(true, Word("a.id")), Token(true, Word("IN")))
  {
  }

  lemma InListsPiece7()
    ensures PieceOf(" (", " ", Token(true, Sym("(")))
    ensures Adjacent(Token(true, Word("IN")), Token(true, Sym("(")))
  {
  }

  lemma InListsPiece8()
    ensures PieceOf("\n          SELECT", "\n          ", Token(true, Word("SELECT")))
    ensures Adjacent(Token(true, Sym("(")), Token(true, Word("SELECT")))
  {
  }

  lemma InListsPiece9()
    ensures PieceOf(" b.id", " ", Token(true, Word("b.id")))
    ensures Adjacent(Token(true, Word("SELECT")), Token(true, Word("b.id")))
  {
  }

  lemma InListsPiece10()
    ensures PieceOf(" FROM", " ", Token(true, Word("FROM")))
    ensures Adjacent(Token(true, Word("b.id")), Token(true, Word("FROM")))
  {
  }

  lemma InListsPiece11()
    ensures PieceOf(" b", " ", Token(true, Word("b")))
    ensures Adjacent(Token(true, Word("FROM")), Token(true, Word("b")))
  {
  }

  lemma InListsPieces2(qs: seq<string>, ts: seq<Token>)
    requires Agrees(qs, InListsQuery) && Agrees(ts, InListsTokens)
    ensures |qs| == 44 && |ts| == 43
    ensures qs[6] == " IN"
    ensures qs[7] == " ("
    ensures qs[8] == "\n          SELECT"
    ensures qs[9] == " b.id"
    ensures qs[10] == " FROM"
    ensures qs[11] == " b"
    ensures ts[5] == Token(true, Word("a.id"))
    ensures ts[6] == Token(true, Word("IN"))
    ensures ts[7] == Token(true, Sym("("))
    ensures ts[8] == Token(true, Word("SELECT"))
    ensures ts[9] == Token(true, Word("b.id"))
    ensures ts[10] == Token(true, Word("FROM"))
    ensures ts[11] == Token(true, Word("b"))
  {
    assert qs[6] == InListsQuery[6];
    assert qs[7] == InListsQuery[7];
    assert qs[8] == InListsQuery[8];
    assert qs[9] == InListsQuery[9];
    assert qs[10] == InListsQuery[10];
    assert qs[11] == InListsQuery[11];
    assert ts[5] == InListsTokens[5];
    assert ts[6] == InListsTokens[6];
    assert ts[7] == InListsTokens[7];
    assert ts[8] == InListsTokens[8];
    assert ts[9] == InListsTokens[9];
    assert ts[10] == InListsTokens[10];
    assert ts[11] == InListsTokens[11];
  }

  lemma InListsLexed2(qs: seq<string>, ts: seq<Token>)
    requires Agrees(qs, InListsQuery) && Agrees(ts, InListsTokens)
    requires Built(qs, ts, 6)
    ensures Built(qs, ts, 12)
  {
    InListsPieces2(qs, ts);
    InListsPiece5();
    InListsPiece6();
    InListsPiece7();
    InListsPiece8();
    InListsPiece9();
    InListsPiece10();
    InListsPiece11();
    PieceNext(qs, ts, 6, " ", " IN", Token(true, Word("a.id")), Token(true, Word("IN")));
    PieceNext(qs, ts, 7, " ", " (", Token(true, Word("IN")), Token(true, Sym("(")));
    PieceNext(qs, ts, 8, "\n          ", "\n          SELECT", Token(true, Sym("(")), Token(true, Word("SELECT")));
    PieceNext(qs, ts, 9, " ", " b.id", Token(true, Word("SELECT")), Token(true, Word("b.id")));
    PieceNext(qs, ts, 10, " ", " FROM", Token(true, Word("b.id")), Token(true, Word("FROM")));
    PieceNext(qs, ts, 11, " ", " b", Token(true, Word("FROM")), Token(true, Word("b")));
  }

  lemma InListsPiece12()
    ensures PieceOf(" WHERE", " ", Token(true, Word("WHERE")))
    ensures Adjacent(Token(true, Word("b")), Token(true, Word("WHERE")))
  {
  }

  lemma InListsPiece13()
    ensures PieceOf(" b.id", " ", Token(true, Word("b.id")))
    ensures Adjacent(Token(true, Word("WHERE")), Token(true, Word("b.id")))
  {
  }

  lemma InListsPiece14()
    ensures PieceOf(" IN", " ", Token(true, Word("IN")))
    ensures Adjacent(Token(true, Word("b.id")), Token(true, Word("IN")))
  {
  }

  lemma InListsPiece15()
    ensures PieceOf(" (", " ", Token(true, Sym("(")))
    ensures Adjacent(Token(true, Word("IN")), Token(true, Sym("(")))
  {
  }

  lemma InListsPiece16()
    ensures PieceOf("1", "", Token(false, Num("1")))
    ensures Adjacent(Token(true, Sym("(")), Token(false, Num("1")))
  {
  }

  lemma InListsPiece17()
    ensures PieceOf(",", "", Token(false, Sym(",")))
    ensures Adjacent(Token(false, Num("1")), Token(false, Sym(",")))
  {
  }

  lemma InListsPieces3(qs: seq<string>, ts: seq<Token>)
    requires Agrees(qs, InListsQuery) && Agrees(ts, InListsTokens)
    ensures |qs| == 44 && |ts| == 43
    ensures qs[12] == " WHERE"
    ensures qs[13] == " b.id"
    ensures qs[14] == " IN"
    ensures qs[15] == " ("
    ensures qs[16] == "1"
    ensures qs[17] == ","
    ensures ts[11] == Token(true, Word("b"))
    ensures ts[12] == Token(true, Word("WHERE"))
    ensures ts[13] == Token(true, Word("b.id"))
    ensures ts[14] == Token(true, Word("IN"))
    ensures ts[15] == Token(true, Sym("("))
    ensures ts[16] == Token(false, Num("1"))
    ensures ts[17] == Token(false, Sym(","))
  {
    assert qs[12] == InListsQuery[12];
    assert qs[13] == InListsQuery[13];
    assert qs[14] == InListsQuery[14];
    assert qs[15] == InListsQuery[15];
    assert qs[16] == InListsQuery[16];
    assert qs[17] == InListsQuery[17];
    assert ts[11] == InListsTokens[11];
    assert ts[12] == InListsTokens[12];
    assert ts[13] == InListsTokens[13];
    assert ts[14] == InListsTokens[14];
    assert ts[15] == InListsTokens[15];
    assert ts[16] == InListsTokens[16];
    assert ts[17] == InListsTokens[17];
  }

  lemma InListsLexed3(qs: seq<string>, ts: seq<Token>)
    requires Agrees(qs, InListsQuery) && Agrees(ts, InListsTokens)
    requires Built(qs, ts, 12)
    ensures Built(qs, ts, 18)
  {
    InListsPieces3(qs, ts);
    InListsPiece11();
    InListsPiece12();
    InListsPiece13();
    InListsPiece14();
    InListsPiece15();
    InListsPiece16();
    InListsPiece17();
    PieceNext(qs, ts, 12, " ", " WHERE", Token(true, Word("b")), Token(true, Word("WHERE")));
    PieceNext(qs, ts, 13, " ", " b.id", Token(true, Word("WHERE")), Token(true, Word("b.id")));
    PieceNext(qs, ts, 14, " ", " IN", Token(true, Word("b.id")), Token(true, Word("IN")));
    PieceNext(qs, ts, 15, " ", " (", Token(true, Word("IN")), Token(true, Sym("(")));
    PieceNext(qs, ts, 16, "", "1", Token(true, Sym("(")), Token(false, Num("1")));
    PieceNext(qs, ts, 17, "", ",", Token(false, Num("1")), Token(false, Sym(",")));
  }

  lemma InListsPiece18()
    ensures PieceOf("2", "", Token(false, Num("2")))
    ensures Adjacent(Token(false, Sym(",")), Token(false, Num("2")))
  {
  }

  lemma InListsPiece19()
    ensures PieceOf(",", "", Token(false, Sym(",")))
    ensures Adjacent(Token(false, Num("2")), Token(false, Sym(",")))
  {
  }

  lemma InListsPiece20()
    ensures PieceOf("3", "", Token(false, Num("3")))
    ensures Adjacent(Token(false, Sym(",")), Token(false, Num("3")))
  {
  }

  lemma InListsPiece21()
    ensures PieceOf(",", "", Token(false, Sym(",")))
    ensures Adjacent(Token(false, Num("3")), Token(false, Sym(",")))
  {
  }

  lemma InListsPiece22()
    ensures PieceOf("4", "", Token(false, Num("4")))
    ensures Adjacent(Token(false, Sym(",")), Token(false, Num("4")))
  {
  }

  lemma InListsPiece23()
    ensures PieceOf(")", "", Token(false, Sym(")")))
    ensures Adjacent(Token(false, Num("4")), Token(false, Sym(")")))
  {
  }

  lemma InListsPieces4(qs: seq<string>, ts: seq<Token>)
    requires Agrees(qs, InListsQuery) && Agrees(ts, InListsTokens)
    ensures |qs| == 44 && |ts| == 43
    ensures qs[18] == "2"
    ensures qs[19] == ","
    ensures qs[20] == "3"
    ensures qs[21] == ","
    ensures qs[22] == "4"
    ensures qs[23] == ")"
    ensures ts[17] == Token(false, Sym(","))
    ensures ts[18] == Token(false, Num("2"))
    ensures ts[19] == Token(false, Sym(","))
    ensures ts[20] == Token(false, Num("3"))
    ensures ts[21] == Token(false, Sym(","))
    ensures ts[22] == Token(false, Num("4"))
    ensures ts[23] == Token(false, Sym(")"))
  {
    assert qs[18] == InListsQuery[18];
    assert qs[19] == InListsQuery[19];
    assert qs[20] == InListsQuery[20];
    assert qs[21] == InListsQuery[21];
    assert qs[22] == InListsQuery[22];
    assert qs[23] == InListsQuery[23];
    assert ts[17] == InListsTokens[17];
    assert ts[18] == InListsTokens[18];
    assert ts[19] == InListsTokens[19];
    assert ts[20] == InListsTokens[20];
    assert ts[21] == InListsTokens[21];
    assert ts[22] == InListsTokens[22];
    assert ts[23] == InListsTokens[23];
  }

  lemma InListsLexed4(qs: seq<string>, ts: seq<Token>)
    requires Agrees(qs, InListsQuery) && Agrees(ts, InListsTokens)
    requires Built(qs, ts, 18)
    ensures Built(qs, ts, 24)
  {
    InListsPieces4(qs, ts);
    InListsPiece17();
    InListsPiece18();
    InListsPiece19();
    InListsPiece20();
    InListsPiece21();
    InListsPiece22();
    InListsPiece23();
    PieceNext(qs, ts, 18, "", "2", Token(false, Sym(",")), Token(false, Num("2")));
    PieceNext(qs, ts, 19, "", ",", Token(false, Num("2")), Token(false, Sym(",")));
    PieceNext(qs, ts, 20, "", "3", Token(false, Sym(",")), Token(false, Num("3")));
    PieceNext(qs, ts, 21, "", ",", Token(false, Num("3")), Token(false, Sym(",")));
    PieceNext(qs, ts, 22, "", "4", Token(false, Sym(",")), Token(false, Num("4")));
    PieceNext(qs, ts, 23, "", ")", Token(false, Num("4")), Token(false, Sym(")")));
  }

  lemma InListsPiece24()
    ensures PieceOf("\n          AND", "\n          ", Token(true, Word("AND")))
    ensures Adjacent(Token(false, Sym(")")), Token(true, Word("AND")))
  {
  }

  lemma InListsPiece25()
    ensures PieceOf(" b.uid", " ", Token(true, Word("b.uid")))
    ensures Adjacent(Token(true, Word("AND")), Token(true, Word("b.uid")))
  {
  }

  lemma InListsPiece26()
    ensures PieceOf(" IN", " ", Token(true, Word("IN")))
    ensures Adjacent(Token(true, Word("b.uid")), Token(true, Word("IN")))
  {
  }

  lemma InListsPiece27()
    ensures PieceOf(" (", " ", Token(true, Sym("(")))
    ensures Adjacent(Token(true, Word("IN")), Token(true, Sym("(")))
  {
  }

  lemma InListsPiece28()
    ensures PieceOf("'aaaa'", "", Token(false, Quoted("aaaa")))
    ensures Adjacent(Token(true, Sym("(")), Token(false, Quoted("aaaa")))
  {
    QuotedShaped("aaaa");
  }

  lemma InListsPiece29()
    ensures PieceOf(",", "", Token(false, Sym(",")))
    ensures Adjacent(Token(false, Quoted("aaaa")), Token(false, Sym(",")))
  {
  }

  lemma InListsPieces5(qs: seq<string>, ts: seq<Token>)
    requires Agrees(qs, InListsQuery) && Agrees(ts, InListsTokens)
    ensures |qs| == 44 && |ts| == 43
    ensures qs[24] == "\n          AND"
    ensures qs[25] == " b.uid"
    ensures qs[26] == " IN"
    ensures qs[27] == " ("
    ensures qs[28] == "'aaaa'"
    ensures qs[29] == ","
    ensures ts[23] == Token(false, Sym(")"))
    ensures ts[24] == Token(true, Word("AND"))
    ensures ts[25] == Token(true, Word("b.uid"))
    ensures ts[26] == Token(true, Word("IN"))
    ensures ts[27] == Token(true, Sym("("))
    ensures ts[28] == Token(false, Quoted("aaaa"))
    ensures ts[29] == Token(false, Sym(","))
  {
    assert qs[24] == InListsQuery[24];
    assert qs[25] == InListsQuery[25];
    assert qs[26] == InListsQuery[26];
    assert qs[27] == InListsQuery[27];
    assert qs[28] == InListsQuery[28];
    assert qs[29] == InListsQuery[29];
    assert ts[23] == InListsTokens[23];
    assert ts[24] == InListsTokens[24];
    assert ts[25] == InListsTokens[25];
    assert ts[26] == InListsTokens[26];
    assert ts[27] == InListsTokens[27];
    assert ts[28] == InListsTokens[28];
    assert ts[29] == InListsTokens[29];
  }

  lemma InListsLexed5(qs: seq<string>, ts: seq<Token>)
    requires Agrees(qs, InListsQuery) && Agrees(ts, InListsTokens)
    requires Built(qs, ts, 24)
    ensures Built(qs, ts, 30)
  {
    InListsPieces5(qs, ts);
    InListsPiece23();
    InListsPiece24();
    InListsPiece25();
    InListsPiece26();
    InListsPiece27();
    InListsPiece28();
    InListsPiece29();
    PieceNext(qs, ts, 24, "\n          ", "\n          AND", Token(false, Sym(")")), Token(true, Word("AND")));
    PieceNext(qs, ts, 25, " ", " b.uid", Token(true, Word("AND")), Token(true, Word("b.uid")));
    PieceNext(qs, ts, 26, " ", " IN", Token(true, Word("b.uid")), Token(true, Word("IN")));
    PieceNext(qs, ts, 27, " ", " (", Token(true, Word("IN")), Token(true, Sym("(")));
    PieceNext(qs, ts, 28, "", "'aaaa'", Token(true, Sym("(")), Token(false, Quoted("aaaa")));
    PieceNext(qs, ts, 29, "", ",", Token(false, Quoted("aaaa")), Token(false, Sym(",")));
  }

  lemma InListsPiece30()
    ensures PieceOf(" 'bbbb'", " ", Token(true, Quoted("bbbb")))
    ensures Adjacent(Token(false, Sym(",")), Token(true, Quoted("bbbb")))
  {
    QuotedShaped("bbbb");
  }

  lemma InListsPiece31()
    ensures PieceOf(")", "", Token(false, Sym(")")))
    ensures Adjacent(Token(true, Quoted("bbbb")), Token(false, Sym(")")))
  {
  }

  lemma InListsPiece32()
    ensures PieceOf("\n        )", "\n        ", Token(true, Sym(")")))
    ensures Adjacent(Token(false, Sym(")")), Token(true, Sym(")")))
  {
  }

  lemma InListsPiece33()
    ensures PieceOf(" AND", " ", Token(true, Word("AND")))
    ensures Adjacent(Token(true, Sym(")")), Token(true, Word("AND")))
  {
  }

  lemma InListsPiece34()
    ensures PieceOf(" a.xid", " ", Token(true, Word("a.xid")))
    ensures Adjacent(Token(true, Word("AND")), Token(true, Word("a.xid")))
  {
  }

  lemma InListsPiece35()
    ensures PieceOf(" IN", " ", Token(true, Word("IN")))
    ensures Adjacent(Token(true, Word("a.xid")), Token(true, Word("IN")))
  {
  }

  lemma InListsPieces6(qs: seq<string>, ts: seq<Token>)
    requires Agrees(qs, InListsQuery) && Agrees(ts, InListsTokens)
    ensures |qs| == 44 && |ts| == 43
    ensures qs[30] == " 'bbbb'"
    ensures qs[31] == ")"
    ensures qs[32] == "\n        )"
    ensures qs[33] == " AND"
    ensures qs[34] == " a.xid"
    ensures qs[35] == " IN"
    ensures ts[29] == Token(false, Sym(","))
    ensures ts[30] == Token(true, Quoted("bbbb"))
    ensures ts[31] == Token(false, Sym(")"))
    ensures ts[32] == Token(true, Sym(")"))
    ensures ts[33] == Token(true, Word("AND"))
    ensures ts[34] == Token(true, Word("a.xid"))
    ensures ts[35] == Token(true, Word("IN"))
  {
    assert qs[30] == InListsQuery[30];
    assert qs[31] == InListsQuery[31];
    assert qs[32] == InListsQuery[32];
    assert qs[33] == InListsQuery[33];
    assert qs[34] == InListsQuery[34];
    assert qs[35] == InListsQuery[35];
    assert ts[29] == InListsTokens[29];
    assert ts[30] == InListsTokens[30];
    assert ts[31] == InListsTokens[31];
    assert ts[32] == InListsTokens[32];
    assert ts[33] == InListsTokens[33];
    assert ts[34] == InListsTokens[34];
    assert ts[35] == InListsTokens[35];
  }

  lemma InListsLexed6(qs: seq<string>, ts: seq<Token>)
    requires Agrees(qs, InListsQuery) && Agrees(ts, InListsTokens)
    requires Built(qs, ts, 30)
    ensures Built(qs, ts, 36)
  {
    InListsPieces6(qs, ts);
    InListsPiece29();
    InListsPiece30();
    InListsPiece31();
    InListsPiece32();
    InListsPiece33();
    InListsPiece34();
    InListsPiece35();
    PieceNext(qs, ts, 30, " ", " 'bbbb'", Token(false, Sym(",")), Token(true, Quoted("bbbb")));
    PieceNext(qs, ts, 31, "", ")", Token(true, Quoted("bbbb")), Token(false, Sym(")")));
    PieceNext(qs, ts, 32, "\n        ", "\n        )", Token(false, Sym(")")), Token(true, Sym(")")));
    PieceNext(qs, ts, 33, " ", " AND", Token(true, Sym(")")), Token(true, Word("AND")));
    PieceNext(qs, ts, 34, " ", " a.xid", Token(true, Word("AND")), Token(true, Word("a.xid")));
    PieceNext(qs, ts, 35, " ", " IN", Token(true, Word("a.xid")), Token(true, Word("IN")));
  }

  lemma InListsPiece36()
    ensures PieceOf(" (", " ", Token(true, Sym("(")))
    ensures Adjacent(Token(true, Word("IN")), Token(true, Sym("(")))
  {
  }

  lemma InListsPiece37()
    ensures PieceOf("11", "", Token(false, Num("11")))
    ensures Adjacent(Token(true, Sym("(")), Token(false, Num("11")))
  {
  }

  lemma InListsPiece38()
    ensures PieceOf(",", "", Token(false, Sym(",")))
    ensures Adjacent(Token(false, Num("11")), Token(false, Sym(",")))
  {
  }

  lemma InListsPiece39()
    ensures PieceOf(" 22", " ", Token(true, Num("22")))
    ensures Adjacent(Token(false, Sym(",")), Token(true, Num("22")))
  {
  }

  lemma InListsPiece40()
    ensures PieceOf(",", "", Token(false, Sym(",")))
    ensures Adjacent(Token(true, Num("22")), Token(false, Sym(",")))
  {
  }

  lemma InListsPiece41()
    ensures PieceOf(" 33", " ", Token(true, Num("33")))
    ensures Adjacent(Token(false, Sym(",")), Token(true, Num("33")))
  {
  }

  lemma InListsPieces7(qs: seq<string>, ts: seq<Token>)
    requires Agrees(qs, InListsQuery) && Agrees(ts, InListsTokens)
    ensures |qs| == 44 && |ts| == 43
    ensures qs[36] == " ("
    ensures qs[37] == "11"
    ensures qs[38] == ","
    ensures qs[39] == " 22"
    ensures qs[40] == ","
    ensures qs[41] == " 33"
    ensures ts[35] == Token(true, Word("IN"))
    ensures ts[36] == Token(true, Sym("("))
    ensures ts[37] == Token(false, Num("11"))
    ensures ts[38] == Token(false, Sym(","))
    ensures ts[39] == Token(true, Num("22"))
    ensures ts[40] == Token(false, Sym(","))
    ensures ts[41] == Token(true, Num("33"))
  {
    assert qs[36] == InListsQuery[36];
    assert qs[37] == InListsQuery[37];
    assert qs[38] == InListsQuery[38];
    assert qs[39] == InListsQuery[39];
    assert qs[40] == InListsQuery[40];
    assert qs[41] == InListsQuery[41];
    assert ts[35] == InListsTokens[35];
    assert ts[36] == InListsTokens[36];
    assert ts[37] == InListsTokens[37];
    assert ts[38] == InListsTokens[38];
    assert ts[39] == InListsTokens[39];
    assert ts[40] == InListsTokens[40];
    assert ts[41] == InListsTokens[41];
  }

  lemma InListsLexed7(qs: seq<string>, ts: seq<Token>)
    requires Agrees(qs, InListsQuery) && Agrees(ts, InListsTokens)
    requires Built(qs, ts, 36)
    ensures Built(qs, ts, 42)
  {
    InListsPieces7(qs, ts);
    InListsPiece35();
    InListsPiece36();
    InListsPiece37();
    InListsPiece38();
    InListsPiece39();
    InListsPiece40();
    InListsPiece41();
    PieceNext(qs, ts, 36, " ", " (", Token(true, Word("IN")), Token(true, Sym("(")));
    PieceNext(qs, ts, 37, "", "11", Token(true, Sym("(")), Token(false, Num("11")));
    PieceNext(qs, ts, 38, "", ",", Token(false, Num("11")), Token(false, Sym(",")));
    PieceNext(qs, ts, 39, " ", " 22", Token(false, Sym(",")), Token(true, Num("22")));
    PieceNext(qs, ts, 40, "", ",", Token(true, Num("22")), Token(false, Sym(",")));
    PieceNext(qs, ts, 41, " ", " 33", Token(false, Sym(",")), Token(true, Num("33")));
  }

  lemma InListsPiece42()
    ensures PieceOf(")", "", Token(false, Sym(")")))
    ensures Adjacent(Token(true, Num("33")), Token(false, Sym(")")))
  {
  }

  lemma InListsPieces8(qs: seq<string>, ts: seq<Token>)
    requires Agrees(qs, InListsQuery) && Agrees(ts, InListsTokens)
    ensures |qs| == 44 && |ts| == 43
    ensures qs[42] == ")"
    ensures qs[43] == "\n      " && AllSpace(qs[43])
    ensures ts[41] == Token(true, Num("33"))
    ensures ts[42] == Token(false, Sym(")"))
  {
    assert qs[42] == InListsQuery[42];
    assert qs[43] == InListsQuery[43];
    assert ts[41] == InListsTokens[41];
    assert ts[42] == InListsTokens[42];
  }

  lemma InListsLexed8(qs: seq<string>, ts: seq<Token>)
    requires Agrees(qs, InListsQuery) && Agrees(ts, InListsTokens)
    requires Built(qs, ts, 42)
    ensures Built(qs, ts, 43)
    ensures qs[43] == "\n      " && AllSpace(qs[43])
  {
    InListsPieces8(qs, ts);
    InListsPiece41();
    InListsPiece42();
    PieceNext(qs, ts, 42, "", ")", Token(true, Num("33")), Token(false, Sym(")")));
  }

  lemma InListsLexing(qs: seq<string>, ts: seq<Token>)
    requires Agrees(qs, InListsQuery) && Agrees(ts, InListsTokens)
    ensures Squish(Join(qs)) == Render(ts) && Lex(Render(ts)) == ts
  {
    InListsLexed1(qs, ts);
    InListsLexed2(qs, ts);
    InListsLexed3(qs, ts);
    InListsLexed4(qs, ts);
    InListsLexed5(qs, ts);
    InListsLexed6(qs, ts);
    InListsLexed7(qs, ts);
    InListsLexed8(qs, ts);
    PiecesEnd(qs, ts);
  }

  lemma InListsRewrite32()
    ensures Rewrite([Token(true, Sym(")")), Token(true, Word("AND")), Token(true, Word("a.xid"))], false) == Edit([Token(true, Sym(")"))], 1)
    ensures Mode([Token(true, Sym(")")), Token(true, Word("AND")), Token(true, Word("a.xid"))][..1], false) == false && PlainEnd([Token(true, Sym(")")), Token(true, Word("AND")), Token(true, Word("a.xid"))])
  {
    var z := [Token(true, Sym(")")), Token(true, Word("AND")), Token(true, Word("a.xid"))];
    ModeFirst(z, false);
  }

  lemma InListsRewrite33()
    ensures Rewrite([Token(true, Word("AND")), Token(true, Word("a.xid"))], false) == Edit([Token(true, Word("AND"))], 1)
    ensures Mode([Token(true, Word("AND")), Token(true, Word("a.xid"))][..1], false) == false && PlainEnd([Token(true, Word("AND")), Token(true, Word("a.xid"))])
  {
    var z := [Token(true, Word("AND")), Token(true, Word("a.xid"))];
    ModeFirst(z, false);
  }

  lemma InListsRewrite34()
    ensures Rewrite([Token(true, Word("a.xid"))], false) == Edit([Token(true, Word("a.xid"))], 1)
    ensures Mode([Token(true, Word("a.xid"))][..1], false) == false && PlainEnd([Token(true, Word("a.xid"))])
  {
    var z := [Token(true, Word("a.xid"))];
    ModeFirst(z, false);
  }

  lemma InListsRewrite35()
    ensures Rewrite([Token(true, Word("IN"))], false) == Edit([Token(true, Word("IN"))], 1)
    ensures Mode([Token(true, Word("IN"))][..1], false) == false && PlainEnd([Token(true, Word("IN"))])
  {
    var z := [Token(true, Word("IN"))];
    ModeFirst(z, false);
  }

  lemma InListsRewrite36()
    ensures Rewrite([Token(true, Sym("(")), Token(false, Num("11")), Token(false, Sym(",")), Token(true, Num("22")), Token(false, Sym(",")), Token(true, Num("33")), Token(false, Sym(")"))], false) == Edit([Token(true, Sym("(")), Token(false, Masked), Token(false, Sym(")"))], 7)
    ensures Mode([Token(true, Sym("(")), Token(false, Num("11")), Token(false, Sym(",")), Token(true, Num("22")), Token(false, Sym(",")), Token(true, Num("33")), Token(false, Sym(")"))][..7], false) == false
  {
    var z := [Token(true, Sym("(")), Token(false, Num("11")), Token(false, Sym(",")), Token(true, Num("22")), Token(false, Sym(",")), Token(true, Num("33")), Token(false, Sym(")"))];
    ListTailOf(z[1..], 6);
    QuietMode(z[..7], false);
  }

  lemma InListsWindow32(ts: seq<Token>, out: seq<Token>)
    requires Agrees(ts, InListsTokens) && Agrees(out, InListsMasked)
    ensures |ts| == 43 && |out| == 31
    ensures ts[32..35] == [Token(true, Sym(")")), Token(true, Word("AND")), Token(true, Word("a.xid"))]
    ensures out[24..25] == [Token(true, Sym(")"))]
  {
    assert ts[32] == InListsTokens[32] == Token(true, Sym(")"));
    assert ts[33] == InListsTokens[33] == Token(true, Word("AND"));
    assert ts[34] == InListsTokens[34] == Token(true, Word("a.xid"));
    assert out[24] == InListsMasked[24] == Token(true, Sym(")"));
  }

  lemma InListsWindow33(ts: seq<Token>, out: seq<Token>)
    requires Agrees(ts, InListsTokens) && Agrees(out, InListsMasked)
    ensures |ts| == 43 && |out| == 31
    ensures ts[33..35] == [Token(true, Word("AND")), Token(true, Word("a.xid"))]
    ensures out[25..26] == [Token(true, Word("AND"))]
  {
    assert ts[33] == InListsTokens[33] == Token(true, Word("AND"));
    assert ts[34] == InListsTokens[34] == Token(true, Word("a.xid"));
    assert out[25] == InListsMasked[25] == Token(true, Word("AND"));
  }

  lemma InListsWindow34(ts: seq<Token>, out: seq<Token>)
    requires Agrees(ts, InListsTokens) && Agrees(out, InListsMasked)
    ensures |ts| == 43 && |out| == 31
    ensures ts[34..35] == [Token(true, Word("a.xid"))]
    ensures out[26..27] == [Token(true, Word("a.xid"))]
  {
    assert ts[34] == InListsTokens[34] == Token(true, Word("a.xid"));
    assert out[26] == InListsMasked[26] == Token(true, Word("a.xid"));
  }

  lemma InListsWindow35(ts: seq<Token>, out: seq<Token>)
    requires Agrees(ts, InListsTokens) && Agrees(out, InListsMasked)
    ensures |ts| == 43 && |out| == 31
    ensures ts[35..36] == [Token(true, Word("IN"))]
    ensures out[27..28] == [Token(true, Word("IN"))]
  {
    assert ts[35] == InListsTokens[35] == Token(true, Word("IN"));
    assert out[27] == InListsMasked[27] == Token(true, Word("IN"));
  }

  lemma InListsWindow36(ts: seq<Token>, out: seq<Token>)
    requires Agrees(ts, InListsTokens) && Agrees(out, InListsMasked)
    ensures |ts| == 43 && |out| == 31
    ensures ts[36..43] == [Token(true, Sym("(")), Token(false, Num("11")), Token(false, Sym(",")), Token(true, Num("22")), Token(false, Sym(",")), Token(true, Num("33")), Token(false, Sym(")"))]
    ensures out[28..31] == [Token(true, Sym("(")), Token(false, Masked), Token(false, Sym(")"))]
  {
    assert ts[36] == InListsTokens[36] == Token(true, Sym("("));
    assert ts[37] == InListsTokens[37] == Token(false, Num("11"));
    assert ts[38] == InListsTokens[38] == Token(false, Sym(","));
    assert ts[39] == InListsTokens[39] == Token(true, Num("22"));
    assert ts[40] == InListsTokens[40] == Token(false, Sym(","));
    assert ts[41] == InListsTokens[41] == Token(true, Num("33"));
    assert ts[42] == InListsTokens[42] == Token(false, Sym(")"));
    assert out[28] == InListsMasked[28] == Token(true, Sym("("));
    assert out[29] == InListsMasked[29] == Token(false, Masked);
    assert out[30] == InListsMasked[30] == Token(false, Sym(")"));
  }

  lemma InListsStep32(ts: seq<Token>, out: seq<Token>)
    requires Agrees(ts, InListsTokens) && Agrees(out, InListsMasked)
    requires MaskedFrom(ts, out, 33, 25, false)
    ensures MaskedFrom(ts, out, 32, 24, false)
  {
    InListsRewrite32();
    InListsWindow32(ts, out);
    MaskAt(ts, out, 32, 24, false,
      [Token(true, Sym(")")), Token(true, Word("AND")), Token(true, Word("a.xid"))],
      Step([Token(true, Sym(")"))], 1, false));
  }

  lemma InListsStep33(ts: seq<Token>, out: seq<Token>)
    requires Agrees(ts, InListsTokens) && Agrees(out, InListsMasked)
    requires MaskedFrom(ts, out, 34, 26, false)
    ensures MaskedFrom(ts, out, 33, 25, false)
  {
    InListsRewrite33();
    InListsWindow33(ts, out);
    MaskAt(ts, out, 33, 25, false,
      [Token(true, Word("AND")), Token(true, Word("a.xid"))],
      Step([Token(true, Word("AND"))], 1, false));
  }

  lemma InListsStep34(ts: seq<Token>, out: seq<Token>)
    requires Agrees(ts, InListsTokens) && Agrees(out, InListsMasked)
    requires MaskedFrom(ts, out, 35, 27, false)
    ensures MaskedFrom(ts, out, 34, 26, false)
  {
    InListsRewrite34();
    InListsWindow34(ts, out);
    MaskAt(ts, out, 34, 26, false,
      [Token(true, Word("a.xid"))],
      Step([Token(true, Word("a.xid"))], 1, false));
  }

  lemma InListsStep35(ts: seq<Token>, out: seq<Token>)
    requires Agrees(ts, InListsTokens) && Agrees(out, InListsMasked)
    requires MaskedFrom(ts, out, 36, 28, false)
    ensures MaskedFrom(ts, out, 35, 27, false)
  {
    InListsRewrite35();
    InListsWindow35(ts, out);
    MaskAt(ts, out, 35, 27, false,
      [Token(true, Word("IN"))],
      Step([Token(true, Word("IN"))], 1, false));
  }

  lemma InListsStep36(ts: seq<Token>, out: seq<Token>)
    requires Agrees(ts, InListsTokens) && Agrees(out, InListsMasked)
    ensures MaskedFrom(ts, out, 36, 28, false)
  {
    InListsRewrite36();
    InListsWindow36(ts, out);
    MaskedEnd(ts, out, false);
    MaskAt(ts, out, 36, 28, false,
      [Token(true, Sym("(")), Token(false, Num("11")), Token(false, Sym(",")), Token(true, Num("22")), Token(false, Sym(",")), Token(true, Num("33")), Token(false, Sym(")"))],
      Step([Token(true, Sym("(")), Token(false, Masked), Token(false, Sym(")"))], 7, false));
  }

  lemma InListsRewrite15()
    ensures Rewrite([Token(true, Sym("(")), Token(false, Num("1")), Token(false, Sym(",")), Token(false, Num("2")), Token(false, Sym(",")), Token(false, Num("3")), Token(false, Sym(",")), Token(false, Num("4")), Token(false, Sym(")")), Token(true, Word("AND")), Token(true, Word("b.uid"))], false) == Edit([Token(true, Sym("(")), Token(false, Masked), Token(false, Sym(")"))], 9)
  {
    var z := [Token(true, Sym("(")), Token(false, Num("1")), Token(false, Sym(",")), Token(false, Num("2")), Token(false, Sym(",")), Token(false, Num("3")), Token(false, Sym(",")), Token(false, Num("4")), Token(false, Sym(")")), Token(true, Word("AND")), Token(true, Word("b.uid"))];
    ListTailOf(z[1..], 8);
  }

  lemma InListsMode15()
    ensures Mode([Token(true, Sym("(")), Token(false, Num("1")), Token(false, Sym(",")), Token(false, Num("2")), Token(false, Sym(",")), Token(false, Num("3")), Token(false, Sym(",")), Token(false, Num("4")), Token(false, Sym(")")), Token(true, Word("AND")), Token(true, Word("b.uid"))][..9], false) == false && PlainEnd([Token(true, Sym("(")), Token(false, Num("1")), Token(false, Sym(",")), Token(false, Num("2")), Token(false, Sym(",")), Token(false, Num("3")), Token(false, Sym(",")), Token(false, Num("4")), Token(false, Sym(")")), Token(true, Word("AND")), Token(true, Word("b.uid"))])
  {
    var z := [Token(true, Sym("(")), Token(false, Num("1")), Token(false, Sym(",")), Token(false, Num("2")), Token(false, Sym(",")), Token(false, Num("3")), Token(false, Sym(",")), Token(false, Num("4")), Token(false, Sym(")")), Token(true, Word("AND")), Token(true, Word("b.uid"))];
    QuietMode(z[..9], false);
  }

  lemma InListsRewrite24()
    ensures Rewrite([Token(true, Word("AND")), Token(true, Word("b.uid"))], false) == Edit([Token(true, Word("AND"))], 1)
    ensures Mode([Token(true, Word("AND")), Token(true, Word("b.uid"))][..1], false) == false && PlainEnd([Token(true, Word("AND")), Token(true, Word("b.uid"))])
  {
    var z := [Token(true, Word("AND")), Token(true, Word("b.uid"))];
    ModeFirst(z, false);
  }

  lemma InListsRewrite25()
    ensures Rewrite([Token(true, Word("b.uid"))], false) == Edit([Token(true, Word("b.uid"))], 1)
    ensures Mode([Token(true, Word("b.uid"))][..1], false) == false && PlainEnd([Token(true, Word("b.uid"))])
  {
    var z := [Token(true, Word("b.uid"))];
    ModeFirst(z, false);
  }

  lemma InListsRewrite26()
    ensures Rewrite([Token(true, Word("IN"))], false) == Edit([Token(true, Word("IN"))], 1)
    ensures Mode([Token(true, Word("IN"))][..1], false) == false && PlainEnd([Token(true, Word("IN"))])
  {
    var z := [Token(true, Word("IN"))];
    ModeFirst(z, false);
  }

  lemma InListsRewrite27()
    ensures Rewrite([Token(true, Sym("(")), Token(false, Quoted("aaaa")), Token(false, Sym(",")), Token(true, Quoted("bbbb")), Token(false, Sym(")")), Token(true, Sym(")")), Token(true, Word("AND")), Token(true, Word("a.xid"))], false) == Edit([Token(true, Sym("(")), Token(false, Masked), Token(false, Sym(")"))], 5)
    ensures Mode([Token(true, Sym("(")), Token(false, Quoted("aaaa")), Token(false, Sym(",")), Token(true, Quoted("bbbb")), Token(false, Sym(")")), Token(true, Sym(")")), Token(true, Word("AND")), Token(true, Word("a.xid"))][..5], false) == false && PlainEnd([Token(true, Sym("(")), Token(false, Quoted("aaaa")), Token(false, Sym(",")), Token(true, Quoted("bbbb")), Token(false, Sym(")")), Token(true, Sym(")")), Token(true, Word("AND")), Token(true, Word("a.xid"))])
  {
    var z := [Token(true, Sym("(")), Token(false, Quoted("aaaa")), Token(false, Sym(",")), Token(true, Quoted("bbbb")), Token(false, Sym(")")), Token(true, Sym(")")), Token(true, Word("AND")), Token(true, Word("a.xid"))];
    ListTailOf(z[1..], 4);
    QuietMode(z[..5], false);
  }

  lemma InListsWindow15(ts: seq<Token>, out: seq<Token>)
    requires Agrees(ts, InListsTokens) && Agrees(out, InListsMasked)
    ensures |ts| == 43 && |out| == 31
    ensures ts[15..26] == [Token(true, Sym("(")), Token(false, Num("1")), Token(false, Sym(",")), Token(false, Num("2")), Token(false, Sym(",")), Token(false, Num("3")), Token(false, Sym(",")), Token(false, Num("4")), Token(false, Sym(")")), Token(true, Word("AND")), Token(true, Word("b.uid"))]
    ensures out[15..18] == [Token(true, Sym("(")), Token(false, Masked), Token(false, Sym(")"))]
  {
    assert ts[15] == InListsTokens[15] == Token(true, Sym("("));
    assert ts[16] == InListsTokens[16] == Token(false, Num("1"));
    assert ts[17] == InListsTokens[17] == Token(false, Sym(","));
    assert ts[18] == InListsTokens[18] == Token(false, Num("2"));
    assert ts[19] == InListsTokens[19] == Token(false, Sym(","));
    assert ts[20] == InListsTokens[20] == Token(false, Num("3"));
    assert ts[21] == InListsTokens[21] == Token(false, Sym(","));
    assert ts[22] == InListsTokens[22] == Token(false, Num("4"));
    assert ts[23] == InListsTokens[23] == Token(false, Sym(")"));
    assert ts[24] == InListsTokens[24] == Token(true, Word("AND"));
    assert ts[25] == InListsTokens[25] == Token(true, Word("b.uid"));
    assert out[15] == InListsMasked[15] == Token(true, Sym("("));
    assert out[16] == InListsMasked[16] == Token(false, Masked);
    assert out[17] == InListsMasked[17] == Token(false, Sym(")"));
  }

  lemma InListsWindow24(ts: seq<Token>, out: seq<Token>)
    requires Agrees(ts, InListsTokens) && Agrees(out, InListsMasked)
    ensures |ts| == 43 && |out| == 31
    ensures ts[24..26] == [Token(true, Word("AND")), Token(true, Word("b.uid"))]
    ensures out[18..19] == [Token(true, Word("AND"))]
  {
    assert ts[24] == InListsTokens[24] == Token(true, Word("AND"));
    assert ts[25] == InListsTokens[25] == Token(true, Word("b.uid"));
    assert out[18] == InListsMasked[18] == Token(true, Word("AND"));
  }

  lemma InListsWindow25(ts: seq<Token>, out: seq<Token>)
    requires Agrees(ts, InListsTokens) && Agrees(out, InListsMasked)
    ensures |ts| == 43 && |out| == 31
    ensures ts[25..26] == [Token(true, Word("b.uid"))]
    ensures out[19..20] == [Token(true, Word("b.uid"))]
  {
    assert ts[25] == InListsTokens[25] == Token(true, Word("b.uid"));
    assert out[19] == InListsMasked[19] == Token(true, Word("b.uid"));
  }

  lemma InListsWindow26(ts: seq<Token>, out: seq<Token>)
    requires Agrees(ts, InListsTokens) && Agrees(out, InListsMasked)
    ensures |ts| == 43 && |out| == 31
    ensures ts[26..27] == [Token(true, Word("IN"))]
    ensures out[20..21] == [Token(true, Word("IN"))]
  {
    assert ts[26] == InListsTokens[26] == Token(true, Word("IN"));
    assert out[20] == InListsMasked[20] == Token(true, Word("IN"));
  }

  lemma InListsWindow27(ts: seq<Token>, out: seq<Token>)
    requires Agrees(ts, InListsTokens) && Agrees(out, InListsMasked)
    ensures |ts| == 43 && |out| == 31
    ensures ts[27..35] == [Token(true, Sym("(")), Token(false, Quoted("aaaa")), Token(false, Sym(",")), Token(true, Quoted("bbbb")), Token(false, Sym(")")), Token(true, Sym(")")), Token(true, Word("AND")), Token(true, Word("a.xid"))]
    ensures out[21..24] == [Token(true, Sym("(")), Token(false, Masked), Token(false, Sym(")"))]
  {
    assert ts[27] == InListsTokens[27] == Token(true, Sym("("));
    assert ts[28] == InListsTokens[28] == Token(false, Quoted("aaaa"));
    assert ts[29] == InListsTokens[29] == Token(false, Sym(","));
    assert ts[30] == InListsTokens[30] == Token(true, Quoted("bbbb"));
    assert ts[31] == InListsTokens[31] == Token(false, Sym(")"));
    assert ts[32] == InListsTokens[32] == Token(true, Sym(")"));
    assert ts[33] == InListsTokens[33] == Token(true, Word("AND"));
    assert ts[34] == InListsTokens[34] == Token(true, Word("a.xid"));
    assert out[21] == InListsMasked[21] == Token(true, Sym("("));
    assert out[22] == InListsMasked[22] == Token(false, Masked);
    assert out[23] == InListsMasked[23] == Token(false, Sym(")"));
  }

  lemma InListsStep15(ts: seq<Token>, out: seq<Token>)
    requires Agrees(ts, InListsTokens) && Agrees(out, InListsMasked)
    requires MaskedFrom(ts, out, 24, 18, false)
    ensures MaskedFrom(ts, out, 15, 15, false)
  {
    InListsRewrite15();
    InListsMode15();
    InListsWindow15(ts, out);
    MaskAt(ts, out, 15, 15, false,
      [Token(true, Sym("(")), Token(false, Num("1")), Token(false, Sym(",")), Token(false, Num("2")), Token(false, Sym(",")), Token(false, Num("3")), Token(false, Sym(",")), Token(false, Num("4")), Token(false, Sym(")")), Token(true, Word("AND")), Token(true, Word("b.uid"))],
      Step([Token(true, Sym("(")), Token(false, Masked), Token(false, Sym(")"))], 9, false));
  }

  lemma InListsStep24(ts: seq<Token>, out: seq<Token>)
    requires Agrees(ts, InListsTokens) && Agrees(out, InListsMasked)
    requires MaskedFrom(ts, out, 25, 19, false)
    ensures MaskedFrom(ts, out, 24, 18, false)
  {
    InListsRewrite24();
    InListsWindow24(ts, out);
    MaskAt(ts, out, 24, 18, false,
      [Token(true, Word("AND")), Token(true, Word("b.uid"))],
      Step([Token(true, Word("AND"))], 1, false));
  }

  lemma InListsStep25(ts: seq<Token>, out: seq<Token>)
    requires Agrees(ts, InListsTokens) && Agrees(out, InListsMasked)
    requires MaskedFrom(ts, out, 26, 20, false)
    ensures MaskedFrom(ts, out, 25, 19, false)
  {
    InListsRewrite25();
    InListsWindow25(ts, out);
    MaskAt(ts, out, 25, 19, false,
      [Token(true, Word("b.uid"))],
      Step([Token(true, Word("b.uid"))], 1, false));
  }

  lemma InListsStep26(ts: seq<Token>, out: seq<Token>)
    requires Agrees(ts, InListsTokens) && Agrees(out, InListsMasked)
    requires MaskedFrom(ts, out, 27, 21, false)
    ensures MaskedFrom(ts, out, 26, 20, false)
  {
    InListsRewrite26();
    InListsWindow26(ts, out);
    MaskAt(ts, out, 26, 20, false,
      [Token(true, Word("IN"))],
      Step([Token(true, Word("IN"))], 1, false));
  }

  lemma InListsStep27(ts: seq<Token>, out: seq<Token>)
    requires Agrees(ts, InListsTokens) && Agrees(out, InListsMasked)
    requires MaskedFrom(ts, out, 32, 24, false)
    ensures MaskedFrom(ts, out, 27, 21, false)
  {
    InListsRewrite27();
    InListsWindow27(ts, out);
    MaskAt(ts, out, 27, 21, false,
      [Token(true, Sym("(")), Token(false, Quoted("aaaa")), Token(false, Sym(",")), Token(true, Quoted("bbbb")), Token(false, Sym(")")), Token(true, Sym(")")), Token(true, Word("AND")), Token(true, Word("a.xid"))],
      Step([Token(true, Sym("(")), Token(false, Masked), Token(false, Sym(")"))], 5, false));
  }

  lemma InListsRewrite10()
    ensures Rewrite([Token(true, Word("FROM"))], false) == Edit([Token(true, Word("FROM"))], 1)
    ensures Mode([Token(true, Word("FROM"))][..1], false) == false && PlainEnd([Token(true, Word("FROM"))])
  {
    var z := [Token(true, Word("FROM"))];
    ModeFirst(z, false);
  }

  lemma InListsRewrite11()
    ensures Rewrite([Token(true, Word("b"))], false) == Edit([Token(true, Word("b"))], 1)
    ensures Mode([Token(true, Word("b"))][..1], false) == false && PlainEnd([Token(true, Word("b"))])
  {
    var z := [Token(true, Word("b"))];
    ModeFirst(z, false);
  }

  lemma InListsRewrite12()
    ensures Rewrite([Token(true, Word("WHERE"))], false) == Edit([Token(true, Word("WHERE"))], 1)
    ensures Mode([Token(true, Word("WHERE"))][..1], false) == false && PlainEnd([Token(true, Word("WHERE"))])
  {
    var z := [Token(true, Word("WHERE"))];
    ModeFirst(z, false);
  }

  lemma InListsRewrite13()
    ensures Rewrite([Token(true, Word("b.id"))], false) == Edit([Token(true, Word("b.id"))], 1)
    ensures Mode([Token(true, Word("b.id"))][..1], false) == false && PlainEnd([Token(true, Word("b.id"))])
  {
    var z := [Token(true, Word("b.id"))];
    ModeFirst(z, false);
  }

  lemma InListsRewrite14()
    ensures Rewrite([Token(true, Word("IN"))], false) == Edit([Token(true, Word("IN"))], 1)
    ensures Mode([Token(true, Word("IN"))][..1], false) == false && PlainEnd([Token(true, Word("IN"))])
  {
    var z := [Token(true, Word("IN"))];
    ModeFirst(z, false);
  }

  lemma InListsWindow10(ts: seq<Token>, out: seq<Token>)
    requires Agrees(ts, InListsTokens) && Agrees(out, InListsMasked)
    ensures |ts| == 43 && |out| == 31
    ensures ts[10..11] == [Token(true, Word("FROM"))]
    ensures out[10..11] == [Token(true, Word("FROM"))]
  {
    assert ts[10] == InListsTokens[10] == Token(true, Word("FROM"));
    assert out[10] == InListsMasked[10] == Token(true, Word("FROM"));
  }

  lemma InListsWindow11(ts: seq<Token>, out: seq<Token>)
    requires Agrees(ts, InListsTokens) && Agrees(out, InListsMasked)
    ensures |ts| == 43 && |out| == 31
    ensures ts[11..12] == [Token(true, Word("b"))]
    ensures out[11..12] == [Token(true, Word("b"))]
  {
    assert ts[11] == InListsTokens[11] == Token(true, Word("b"));
    assert out[11] == InListsMasked[11] == Token(true, Word("b"));
  }

  lemma InListsWindow12(ts: seq<Token>, out: seq<Token>)
    requires Agrees(ts, InListsTokens) && Agrees(out, InListsMasked)
    ensures |ts| == 43 && |out| == 31
    ensures ts[12..13] == [Token(true, Word("WHERE"))]
    ensures out[12..13] == [Token(true, Word("WHERE"))]
  {
    assert ts[12] == InListsTokens[12] == Token(true, Word("WHERE"));
    assert out[12] == InListsMasked[12] == Token(true, Word("WHERE"));
  }

  lemma InListsWindow13(ts: seq<Token>, out: seq<Token>)
    requires Agrees(ts, InListsTokens) && Agrees(out, InListsMasked)
    ensures |ts| == 43 && |out| == 31
    ensures ts[13..14] == [Token(true, Word("b.id"))]
    ensures out[13..14] == [Token(true, Word("b.id"))]
  {
    assert ts[13] == InListsTokens[13] == Token(true, Word("b.id"));
    assert out[13] == InListsMasked[13] == Token(true, Word("b.id"));
  }

  lemma InListsWindow14(ts: seq<Token>, out: seq<Token>)
    requires Agrees(ts, InListsTokens) && Agrees(out, InListsMasked)
    ensures |ts| == 43 && |out| == 31
    ensures ts[14..15] == [Token(true, Word("IN"))]
    ensures out[14..15] == [Token(true, Word("IN"))]
  {
    assert ts[14] == InListsTokens[14] == Token(true, Word("IN"));
    assert out[14] == InListsMasked[14] == Token(true, Word("IN"));
  }

  lemma InListsStep10(ts: seq<Token>, out: seq<Token>)
    requires Agrees(ts, InListsTokens) && Agrees(out, InListsMasked)
    requires MaskedFrom(ts, out, 11, 11, false)
    ensures MaskedFrom(ts, out, 10, 10, false)
  {
    InListsRewrite10();
    InListsWindow10(ts, out);
    MaskAt(ts, out, 10, 10, false,
      [Token(true, Word("FROM"))],
      Step([Token(true, Word("FROM"))], 1, false));
  }

  lemma InListsStep11(ts: seq<Token>, out: seq<Token>)
    requires Agrees(ts, InListsTokens) && Agrees(out, InListsMasked)
    requires MaskedFrom(ts, out, 12, 12, false)
    ensures MaskedFrom(ts, out, 11, 11, false)
  {
    InListsRewrite11();
    InListsWindow11(ts, out);
    MaskAt(ts, out, 11, 11, false,
      [Token(true, Word("b"))],
      Step([Token(true, Word("b"))], 1, false));
  }

  lemma InListsStep12(ts: seq<Token>, out: seq<Token>)
    requires Agrees(ts, InListsTokens) && Agrees(out, InListsMasked)
    requires MaskedFrom(ts, out, 13, 13, false)
    ensures MaskedFrom(ts, out, 12, 12, false)
  {
    InListsRewrite12();
    InListsWindow12(ts, out);
    MaskAt(ts, out, 12, 12, false,
      [Token(true, Word("WHERE"))],
      Step([Token(true, Word("WHERE"))], 1, false));
  }

  lemma InListsStep13(ts: seq<Token>, out: seq<Token>)
    requires Agrees(ts, InListsTokens) && Agrees(out, InListsMasked)
    requires MaskedFrom(ts, out, 14, 14, false)
    ensures MaskedFrom(ts, out, 13, 13, false)
  {
    InListsRewrite13();
    InListsWindow13(ts, out);
    MaskAt(ts, out, 13, 13, false,
      [Token(true, Word("b.id"))],
      Step([Token(true, Word("b.id"))], 1, false));
  }

  lemma InListsStep14(ts: seq<Token>, out: seq<Token>)
    requires Agrees(ts, InListsTokens) && Agrees(out, InListsMasked)
    requires MaskedFrom(ts, out, 15, 15, false)
    ensures MaskedFrom(ts, out, 14, 14, false)
  {
    InListsRewrite14();
    InListsWindow14(ts, out);
    MaskAt(ts, out, 14, 14, false,
      [Token(true, Word("IN"))],
      Step([Token(true, Word("IN"))], 1, false));
  }

  lemma InListsRewrite5()
    ensures Rewrite([Token(true, Word("a.id"))], false) == Edit([Token(true, Word("a.id"))], 1)
    ensures Mode([Token(true, Word("a.id"))][..1], false) == false && PlainEnd([Token(true, Word("a.id"))])
  {
    var z := [Token(true, Word("a.id"))];
    ModeFirst(z, false);
  }

  lemma InListsRewrite6()
    ensures Rewrite([Token(true, Word("IN"))], false) == Edit([Token(true, Word("IN"))], 1)
    ensures Mode([Token(true, Word("IN"))][..1], false) == false && PlainEnd([Token(true, Word("IN"))])
  {
    var z := [Token(true, Word("IN"))];
    ModeFirst(z, false);
  }

  lemma InListsRewrite7()
    ensures Rewrite([Token(true, Sym("(")), Token(true, Word("SELECT"))], false) == Edit([Token(true, Sym("("))], 1)
    ensures Mode([Token(true, Sym("(")), Token(true, Word("SELECT"))][..1], false) == false && PlainEnd([Token(true, Sym("(")), Token(true, Word("SELECT"))])
  {
    var z := [Token(true, Sym("(")), Token(true, Word("SELECT"))];
    ModeFirst(z, false);
  }

  lemma InListsRewrite8()
    ensures Rewrite([Token(true, Word("SELECT"))], false) == Edit([Token(true, Word("SELECT"))], 1)
    ensures Mode([Token(true, Word("SELECT"))][..1], false) == false && PlainEnd([Token(true, Word("SELECT"))])
  {
    var z := [Token(true, Word("SELECT"))];
    ModeFirst(z, false);
  }

  lemma InListsRewrite9()
    ensures Rewrite([Token(true, Word("b.id"))], false) == Edit([Token(true, Word("b.id"))], 1)
    ensures Mode([Token(true, Word("b.id"))][..1], false) == false && PlainEnd([Token(true, Word("b.id"))])
  {
    var z := [Token(true, Word("b.id"))];
    ModeFirst(z, false);
  }

  lemma InListsWindow5(ts: seq<Token>, out: seq<Token>)
    requires Agrees(ts, InListsTokens) && Agrees(out, InListsMasked)
    ensures |ts| == 43 && |out| == 31
    ensures ts[5..6] == [Token(true, Word("a.id"))]
    ensures out[5..6] == [Token(true, Word("a.id"))]
  {
    assert ts[5] == InListsTokens[5] == Token(true, Word("a.id"));
    assert out[5] == InListsMasked[5] == Token(true, Word("a.id"));
  }

  lemma InListsWindow6(ts: seq<Token>, out: seq<Token>)
    requires Agrees(ts, InListsTokens) && Agrees(out, InListsMasked)
    ensures |ts| == 43 && |out| == 31
    ensures ts[6..7] == [Token(true, Word("IN"))]
    ensures out[6..7] == [Token(true, Word("IN"))]
  {
    assert ts[6] == InListsTokens[6] == Token(true, Word("IN"));
    assert out[6] == InListsMasked[6] == Token(true, Word("IN"));
  }

  lemma InListsWindow7(ts: seq<Token>, out: seq<Token>)
    requires Agrees(ts, InListsTokens) && Agrees(out, InListsMasked)
    ensures |ts| == 43 && |out| == 31
    ensures ts[7..9] == [Token(true, Sym("(")), Token(true, Word("SELECT"))]
    ensures out[7..8] == [Token(true, Sym("("))]
  {
    assert ts[7] == InListsTokens[7] == Token(true, Sym("("));
    assert ts[8] == InListsTokens[8] == Token(true, Word("SELECT"));
    assert out[7] == InListsMasked[7] == Token(true, Sym("("));
  }

  lemma InListsWindow8(ts: seq<Token>, out: seq<Token>)
    requires Agrees(ts, InListsTokens) && Agrees(out, InListsMasked)
    ensures |ts| == 43 && |out| == 31
    ensures ts[8..9] == [Token(true, Word("SELECT"))]
    ensures out[8..9] == [Token(true, Word("SELECT"))]
  {
    assert ts[8] == InListsTokens[8] == Token(true, Word("SELECT"));
    assert out[8] == InListsMasked[8] == Token(true, Word("SELECT"));
  }

  lemma InListsWindow9(ts: seq<Token>, out: seq<Token>)
    requires Agrees(ts, InListsTokens) && Agrees(out, InListsMasked)
    ensures |ts| == 43 && |out| == 31
    ensures ts[9..10] == [Token(true, Word("b.id"))]
    ensures out[9..10] == [Token(true, Word("b.id"))]
  {
    assert ts[9] == InListsTokens[9] == Token(true, Word("b.id"));
    assert out[9] == InListsMasked[9] == Token(true, Word("b.id"));
  }

  lemma InListsStep5(ts: seq<Token>, out: seq<Token>)
    requires Agrees(ts, InListsTokens) && Agrees(out, InListsMasked)
    requires MaskedFrom(ts, out, 6, 6, false)
    ensures MaskedFrom(ts, out, 5, 5, false)
  {
    InListsRewrite5();
    InListsWindow5(ts, out);
    MaskAt(ts, out, 5, 5, false,
      [Token(true, Word("a.id"))],
      Step([Token(true, Word("a.id"))], 1, false));
  }

  lemma InListsStep6(ts: seq<Token>, out: seq<Token>)
    requires Agrees(ts, InListsTokens) && Agrees(out, InListsMasked)
    requires MaskedFrom(ts, out, 7, 7, false)
    ensures MaskedFrom(ts, out, 6, 6, false)
  {
    InListsRewrite6();
    InListsWindow6(ts, out);
    MaskAt(ts, out, 6, 6, false,
      [Token(true, Word("IN"))],
      Step([Token(true, Word("IN"))], 1, false));
  }

  lemma InListsStep7(ts: seq<Token>, out: seq<Token>)
    requires Agrees(ts, InListsTokens) && Agrees(out, InListsMasked)
    requires MaskedFrom(ts, out, 8, 8, false)
    ensures MaskedFrom(ts, out, 7, 7, false)
  {
    InListsRewrite7();
    InListsWindow7(ts, out);
    MaskAt(ts, out, 7, 7, false,
      [Token(true, Sym("(")), Token(true, Word("SELECT"))],
      Step([Token(true, Sym("("))], 1, false));
  }

  lemma InListsStep8(ts: seq<Token>, out: seq<Token>)
    requires Agrees(ts, InListsTokens) && Agrees(out, InListsMasked)
    requires MaskedFrom(ts, out, 9, 9, false)
    ensures MaskedFrom(ts, out, 8, 8, false)
  {
    InListsRewrite8();
    InListsWindow8(ts, out);
    MaskAt(ts, out, 8, 8, false,
      [Token(true, Word("SELECT"))],
      Step([Token(true, Word("SELECT"))], 1, false));
  }

  lemma InListsStep9(ts: seq<Token>, out: seq<Token>)
    requires Agrees(ts, InListsTokens) && Agrees(out, InListsMasked)
    requires MaskedFrom(ts, out, 10, 10, false)
    ensures MaskedFrom(ts, out, 9, 9, false)
  {
    InListsRewrite9();
    InListsWindow9(ts, out);
    MaskAt(ts, out, 9, 9, false,
      [Token(true, Word("b.id"))],
      Step([Token(true, Word("b.id"))], 1, false));
  }

  lemma InListsRewrite0()
    ensures Rewrite([Token(false, Word("SELECT"))], false) == Edit([Token(false, Word("SELECT"))], 1)
    ensures Mode([Token(false, Word("SELECT"))][..1], false) == false && PlainEnd([Token(false, Word("SELECT"))])
  {
    var z := [Token(false, Word("SELECT"))];
    ModeFirst(z, false);
  }

  lemma InListsRewrite1()
    ensures Rewrite([Token(true, Sym("*")), Token(true, Word("FROM"))], false) == Edit([Token(true, Sym("*"))], 1)
    ensures Mode([Token(true, Sym("*")), Token(true, Word("FROM"))][..1], false) == false && PlainEnd([Token(true, Sym("*")), Token(true, Word("FROM"))])
  {
    var z := [Token(true, Sym("*")), Token(true, Word("FROM"))];
    ModeFirst(z, false);
  }

  lemma InListsRewrite2()
    ensures Rewrite([Token(true, Word("FROM"))], false) == Edit([Token(true, Word("FROM"))], 1)
    ensures Mode([Token(true, Word("FROM"))][..1], false) == false && PlainEnd([Token(true, Word("FROM"))])
  {
    var z := [Token(true, Word("FROM"))];
    ModeFirst(z, false);
  }

  lemma InListsRewrite3()
    ensures Rewrite([Token(true, Word("a"))], false) == Edit([Token(true, Word("a"))], 1)
    ensures Mode([Token(true, Word("a"))][..1], false) == false && PlainEnd([Token(true, Word("a"))])
  {
    var z := [Token(true, Word("a"))];
    ModeFirst(z, false);
  }

  lemma InListsRewrite4()
    ensures Rewrite([Token(true, Word("WHERE"))], false) == Edit([Token(true, Word("WHERE"))], 1)
    ensures Mode([Token(true, Word("WHERE"))][..1], false) == false && PlainEnd([Token(true, Word("WHERE"))])
  {
    var z := [Token(true, Word("WHERE"))];
    ModeFirst(z, false);
  }

  lemma InListsWindow0(ts: seq<Token>, out: seq<Token>)
    requires Agrees(ts, InListsTokens) && Agrees(out, InListsMasked)
    ensures |ts| == 43 && |out| == 31
    ensures ts[0..1] == [Token(false, Word("SELECT"))]
    ensures out[0..1] == [Token(false, Word("SELECT"))]
  {
    assert ts[0] == InListsTokens[0] == Token(false, Word("SELECT"));
    assert out[0] == InListsMasked[0] == Token(false, Word("SELECT"));
  }

  lemma InListsWindow1(ts: seq<Token>, out: seq<Token>)
    requires Agrees(ts, InListsTokens) && Agrees(out, InListsMasked)
    ensures |ts| == 43 && |out| == 31
    ensures ts[1..3] == [Token(true, Sym("*")), Token(true, Word("FROM"))]
    ensures out[1..2] == [Token(true, Sym("*"))]
  {
    assert ts[1] == InListsTokens[1] == Token(true, Sym("*"));
    assert ts[2] == InListsTokens[2] == Token(true, Word("FROM"));
    assert out[1] == InListsMasked[1] == Token(true, Sym("*"));
  }

  lemma InListsWindow2(ts: seq<Token>, out: seq<Token>)
    requires Agrees(ts, InListsTokens) && Agrees(out, InListsMasked)
    ensures |ts| == 43 && |out| == 31
    ensures ts[2..3] == [Token(true, Word("FROM"))]
    ensures out[2..3] == [Token(true, Word("FROM"))]
  {
    assert ts[2] == InListsTokens[2] == Token(true, Word("FROM"));
    assert out[2] == InListsMasked[2] == Token(true, Word("FROM"));
  }

  lemma InListsWindow3(ts: seq<Token>, out: seq<Token>)
    requires Agrees(ts, InListsTokens) && Agrees(out, InListsMasked)
    ensures |ts| == 43 && |out| == 31
    ensures ts[3..4] == [Token(true, Word("a"))]
    ensures out[3..4] == [Token(true, Word("a"))]
  {
    assert ts[3] == InListsTokens[3] == Token(true, Word("a"));
    assert out[3] == InListsMasked[3] == Token(true, Word("a"));
  }

  lemma InListsWindow4(ts: seq<Token>, out: seq<Token>)
    requires Agrees(ts, InListsTokens) && Agrees(out, InListsMasked)
    ensures |ts| == 43 && |out| == 31
    ensures ts[4..5] == [Token(true, Word("WHERE"))]
    ensures out[4..5] == [Token(true, Word("WHERE"))]
  {
    assert ts[4] == InListsTokens[4] == Token(true, Word("WHERE"));
    assert out[4] == InListsMasked[4] == Token(true, Word("WHERE"));
  }

  lemma InListsStep0(ts: seq<Token>, out: seq<Token>)
    requires Agrees(ts, InListsTokens) && Agrees(out, InListsMasked)
    requires MaskedFrom(ts, out, 1, 1, false)
    ensures MaskedFrom(ts, out, 0, 0, false)
  {
    InListsRewrite0();
    InListsWindow0(ts, out);
    MaskAt(ts, out, 0, 0, false,
      [Token(false, Word("SELECT"))],
      Step([Token(false, Word("SELECT"))], 1, false));
  }

  lemma InListsStep1(ts: seq<Token>, out: seq<Token>)
    requires Agrees(ts, InListsTokens) && Agrees(out, InListsMasked)
    requires MaskedFrom(ts, out, 2, 2, false)
    ensures MaskedFrom(ts, out, 1, 1, false)
  {
    InListsRewrite1();
    InListsWindow1(ts, out);
    MaskAt(ts, out, 1, 1, false,
      [Token(true, Sym("*")), Token(true, Word("FROM"))],
      Step([Token(true, Sym("*"))], 1, false));
  }

  lemma InListsStep2(ts: seq<Token>, out: seq<Token>)
    requires Agrees(ts, InListsTokens) && Agrees(out, InListsMasked)
    requires MaskedFrom(ts, out, 3, 3, false)
    ensures MaskedFrom(ts, out, 2, 2, false)
  {
    InListsRewrite2();
    InListsWindow2(ts, out);
    MaskAt(ts, out, 2, 2, false,
      [Token(true, Word("FROM"))],
      Step([Token(true, Word("FROM"))], 1, false));
  }

  lemma InListsStep3(ts: seq<Token>, out: seq<Token>)
    requires Agrees(ts, InListsTokens) && Agrees(out, InListsMasked)
    requires MaskedFrom(ts, out, 4, 4, false)
    ensures MaskedFrom(ts, out, 3, 3, false)
  {
    InListsRewrite3();
    InListsWindow3(ts, out);
    MaskAt(ts, out, 3, 3, false,
      [Token(true, Word("a"))],
      Step([Token(true, Word("a"))], 1, false));
  }

  lemma InListsStep4(ts: seq<Token>, out: seq<Token>)
    requires Agrees(ts, InListsTokens) && Agrees(out, InListsMasked)
    requires MaskedFrom(ts, out, 5, 5, false)
    ensures MaskedFrom(ts, out, 4, 4, false)
  {
    InListsRewrite4();
    InListsWindow4(ts, out);
    MaskAt(ts, out, 4, 4, false,
      [Token(true, Word("WHERE"))],
      Step([Token(true, Word("WHERE"))], 1, false));
  }

  lemma InListsMasking(ts: seq<Token>, out: seq<Token>)
    requires Agrees(ts, InListsTokens) && Agrees(out, InListsMasked)
    ensures MaskedFrom(ts, out, 0, 0, false)
  {
    InListsStep36(ts, out);
    InListsStep35(ts, out);
    InListsStep34(ts, out);
    InListsStep33(ts, out);
    InListsStep32(ts, out);
    InListsStep27(ts, out);
    InListsStep26(ts, out);
    InListsStep25(ts, out);
    InListsStep24(ts, out);
    InListsStep15(ts, out);
    InListsStep14(ts, out);
    InListsStep13(ts, out);
    InListsStep12(ts, out);
    InListsStep11(ts, out);
    InListsStep10(ts, out);
    InListsStep9(ts, out);
    InListsStep8(ts, out);
    InListsStep7(ts, out);
    InListsStep6(ts, out);
    InListsStep5(ts, out);
    InListsStep4(ts, out);
    InListsStep3(ts, out);
    InListsStep2(ts, out);
    InListsStep1(ts, out);
    InListsStep0(ts, out);
  }

  lemma InListsOutput1(out: seq<Token>, es: seq<string>)
    requires Agrees(out, InListsMasked) && Agrees(es, InListsCleaned)
    ensures |out| == 31 && |es| == 31
    ensures es[0] == RenderToken(out[0])
    ensures es[1] == RenderToken(out[1])
    ensures es[2] == RenderToken(out[2])
    ensures es[3] == RenderToken(out[3])
  {
    assert out[0] == InListsMasked[0] == Token(false, Word("SELECT"));
    assert es[0] == InListsCleaned[0] == "SELECT";
    assert out[1] == InListsMasked[1] == Token(true, Sym("*"));
    assert es[1] == InListsCleaned[1] == " *";
    assert out[2] == InListsMasked[2] == Token(true, Word("FROM"));
    assert es[2] == InListsCleaned[2] == " FROM";
    assert out[3] == InListsMasked[3] == Token(true, Word("a"));
    assert es[3] == InListsCleaned[3] == " a";
  }

  lemma InListsRendered1(out: seq<Token>, es: seq<string>)
    requires Agrees(out, InListsMasked) && Agrees(es, InListsCleaned)
    ensures Rendered(out, es, 4)
  {
    InListsOutput1(out, es);
    RenderedStart(out, es);
    RenderedNext(out, es, 0);
    RenderedNext(out, es, 1);
    RenderedNext(out, es, 2);
    RenderedNext(out, es, 3);
  }

  lemma InListsOutput2(out: seq<Token>, es: seq<string>)
    requires Agrees(out, InListsMasked) && Agrees(es, InListsCleaned)
    ensures |out| == 31 && |es| == 31
    ensures es[4] == RenderToken(out[4])
    ensures es[5] == RenderToken(out[5])
    ensures es[6] == RenderToken(out[6])
    ensures es[7] == RenderToken(out[7])
  {
    assert out[4] == InListsMasked[4] == Token(true, Word("WHERE"));
    assert es[4] == InListsCleaned[4] == " WHERE";
    assert out[5] == InListsMasked[5] == Token(true, Word("a.id"));
    assert es[5] == InListsCleaned[5] == " a.id";
    assert out[6] == InListsMasked[6] == Token(true, Word("IN"));
    assert es[6] == InListsCleaned[6] == " IN";
    assert out[7] == InListsMasked[7] == Token(true, Sym("("));
    assert es[7] == InListsCleaned[7] == " (";
  }

  lemma InListsRendered2(out: seq<Token>, es: seq<string>)
    requires Agrees(out, InListsMasked) && Agrees(es, InListsCleaned)
    requires Rendered(out, es, 4)
    ensures Rendered(out, es, 8)
  {
    InListsOutput2(out, es);
    RenderedNext(out, es, 4);
    RenderedNext(out, es, 5);
    RenderedNext(out, es, 6);
    RenderedNext(out, es, 7);
  }

  lemma InListsOutput3(out: seq<Token>, es: seq<string>)
    requires Agrees(out, InListsMasked) && Agrees(es, InListsCleaned)
    ensures |out| == 31 && |es| == 31
    ensures es[8] == RenderToken(out[8])
    ensures es[9] == RenderToken(out[9])
    ensures es[10] == RenderToken(out[10])
    ensures es[11] == RenderToken(out[11])
  {
    assert out[8] == InListsMasked[8] == Token(true, Word("SELECT"));
    assert es[8] == InListsCleaned[8] == " SELECT";
    assert out[9] == InListsMasked[9] == Token(true, Word("b.id"));
    assert es[9] == InListsCleaned[9] == " b.id";
    assert out[10] == InListsMasked[10] == Token(true, Word("FROM"));
    assert es[10] == InListsCleaned[10] == " FROM";
    assert out[11] == InListsMasked[11] == Token(true, Word("b"));
    assert es[11] == InListsCleaned[11] == " b";
  }

  lemma InListsRendered3(out: seq<Token>, es: seq<string>)
    requires Agrees(out, InListsMasked) && Agrees(es, InListsCleaned)
    requires Rendered(out, es, 8)
    ensures Rendered(out, es, 12)
  {
    InListsOutput3(out, es);
    RenderedNext(out, es, 8);
    RenderedNext(out, es, 9);
    RenderedNext(out, es, 10);
    RenderedNext(out, es, 11);
  }

  lemma InListsOutput4(out: seq<Token>, es: seq<string>)
    requires Agrees(out, InListsMasked) && Agrees(es, InListsCleaned)
    ensures |out| == 31 && |es| == 31
    ensures es[12] == RenderToken(out[12])
    ensures es[13] == RenderToken(out[13])
    ensures es[14] == RenderToken(out[14])
    ensures es[15] == RenderToken(out[15])
  {
    assert out[12] == InListsMasked[12] == Token(true, Word("WHERE"));
    assert es[12] == InListsCleaned[12] == " WHERE";
    assert out[13] == InListsMasked[13] == Token(true, Word("b.id"));
    assert es[13] == InListsCleaned[13] == " b.id";
    assert out[14] == InListsMasked[14] == Token(true, Word("IN"));
    assert es[14] == InListsCleaned[14] == " IN";
    assert out[15] == InListsMasked[15] == Token(true, Sym("("));
    assert es[15] == InListsCleaned[15] == " (";
  }

  lemma InListsRendered4(out: seq<Token>, es: seq<string>)
    requires Agrees(out, InListsMasked) && Agrees(es, InListsCleaned)
    requires Rendered(out, es, 12)
    ensures Rendered(out, es, 16)
  {
    InListsOutput4(out, es);
    RenderedNext(out, es, 12);
    RenderedNext(out, es, 13);
    RenderedNext(out, es, 14);
    RenderedNext(out, es, 15);
  }

  lemma InListsOutput5(out: seq<Token>, es: seq<string>)
    requires Agrees(out, InListsMasked) && Agrees(es, InListsCleaned)
    ensures |out| == 31 && |es| == 31
    ensures es[16] == RenderToken(out[16])
    ensures es[17] == RenderToken(out[17])
    ensures es[18] == RenderToken(out[18])
    ensures es[19] == RenderToken(out[19])
  {
    assert out[16] == InListsMasked[16] == Token(false, Masked);
    assert es[16] == InListsCleaned[16] == "???";
    assert out[17] == InListsMasked[17] == Token(false, Sym(")"));
    assert es[17] == InListsCleaned[17] == ")";
    assert out[18] == InListsMasked[18] == Token(true, Word("AND"));
    assert es[18] == InListsCleaned[18] == " AND";
    assert out[19] == InListsMasked[19] == Token(true, Word("b.uid"));
    assert es[19] == InListsCleaned[19] == " b.uid";
  }

  lemma InListsRendered5(out: seq<Token>, es: seq<string>)
    requires Agrees(out, InListsMasked) && Agrees(es, InListsCleaned)
    requires Rendered(out, es, 16)
    ensures Rendered(out, es, 20)
  {
    InListsOutput5(out, es);
    RenderedNext(out, es, 16);
    RenderedNext(out, es, 17);
    RenderedNext(out, es, 18);
    RenderedNext(out, es, 19);
  }

  lemma InListsOutput6(out: seq<Token>, es: seq<string>)
    requires Agrees(out, InListsMasked) && Agrees(es, InListsCleaned)
    ensures |out| == 31 && |es| == 31
    ensures es[20] == RenderToken(out[20])
    ensures es[21] == RenderToken(out[21])
    ensures es[22] == RenderToken(out[22])
    ensures es[23] == RenderToken(out[23])
  {
    assert out[20] == InListsMasked[20] == Token(true, Word("IN"));
    assert es[20] == InListsCleaned[20] == " IN";
    assert out[21] == InListsMasked[21] == Token(true, Sym("("));
    assert es[21] == InListsCleaned[21] == " (";
    assert out[22] == InListsMasked[22] == Token(false, Masked);
    assert es[22] == InListsCleaned[22] == "???";
    assert out[23] == InListsMasked[23] == Token(false, Sym(")"));
    assert es[23] == InListsCleaned[23] == ")";
  }

  lemma InListsRendered6(out: seq<Token>, es: seq<string>)
    requires Agrees(out, InListsMasked) && Agrees(es, InListsCleaned)
    requires Rendered(out, es, 20)
    ensures Rendered(out, es, 24)
  {
    InListsOutput6(out, es);
    RenderedNext(out, es, 20);
    RenderedNext(out, es, 21);
    RenderedNext(out, es, 22);
    RenderedNext(out, es, 23);
  }

  lemma InListsOutput7(out: seq<Token>, es: seq<string>)
    requires Agrees(out, InListsMasked) && Agrees(es, InListsCleaned)
    ensures |out| == 31 && |es| == 31
    ensures es[24] == RenderToken(out[24])
    ensures es[25] == RenderToken(out[25])
    ensures es[26] == RenderToken(out[26])
    ensures es[27] == RenderToken(out[27])
  {
    assert out[24] == InListsMasked[24] == Token(true, Sym(")"));
    assert es[24] == InListsCleaned[24] == " )";
    assert out[25] == InListsMasked[25] == Token(true, Word("AND"));
    assert es[25] == InListsCleaned[25] == " AND";
    assert out[26] == InListsMasked[26] == Token(true, Word("a.xid"));
    assert es[26] == InListsCleaned[26] == " a.xid";
    assert out[27] == InListsMasked[27] == Token(true, Word("IN"));
    assert es[27] == InListsCleaned[27] == " IN";
  }

  lemma InListsRendered7(out: seq<Token>, es: seq<string>)
    requires Agrees(out, InListsMasked) && Agrees(es, InListsCleaned)
    requires Rendered(out, es, 24)
    ensures Rendered(out, es, 28)
  {
    InListsOutput7(out, es);
    RenderedNext(out, es, 24);
    RenderedNext(out, es, 25);
    RenderedNext(out, es, 26);
    RenderedNext(out, es, 27);
  }

  lemma InListsOutput8(out: seq<Token>, es: seq<string>)
    requires Agrees(out, InListsMasked) && Agrees(es, InListsCleaned)
    ensures |out| == 31 && |es| == 31
    ensures es[28] == RenderToken(out[28])
    ensures es[29] == RenderToken(out[29])
    ensures es[30] == RenderToken(out[30])
  {
    assert out[28] == InListsMasked[28] == Token(true, Sym("("));
    assert es[28] == InListsCleaned[28] == " (";
    assert out[29] == InListsMasked[29] == Token(false, Masked);
    assert es[29] == InListsCleaned[29] == "???";
    assert out[30] == InListsMasked[30] == Token(false, Sym(")"));
    assert es[30] == InListsCleaned[30] == ")";
  }

  lemma InListsRendered8(out: seq<Token>, es: seq<string>)
    requires Agrees(out, InListsMasked) && Agrees(es, InListsCleaned)
    requires Rendered(out, es, 28)
    ensures Rendered(out, es, 31)
  {
    InListsOutput8(out, es);
    RenderedNext(out, es, 28);
    RenderedNext(out, es, 29);
    RenderedNext(out, es, 30);
  }

  lemma InListsRendering(out: seq<Token>, es: seq<string>)
    requires Agrees(out, InListsMasked) && Agrees(es, InListsCleaned)
    ensures Rendered(out, es, |out|) && |es| == |out|
  {
    InListsRendered1(out, es);
    InListsRendered2(out, es);
    InListsRendered3(out, es);
    InListsRendered4(out, es);
    InListsRendered5(out, es);
    InListsRendered6(out, es);
    InListsRendered7(out, es);
    InListsRendered8(out, es);
  }

  lemma InListsByPieces(qs: seq<string>, ts: seq<Token>, out: seq<Token>, es: seq<string>)
    requires Agrees(qs, InListsQuery) && Agrees(ts, InListsTokens)
    requires Agrees(out, InListsMasked) && Agrees(es, InListsCleaned)
    ensures CleanSqlQuery(Join(qs)) == Join(es)
  {
    InListsLexing(qs, ts);
    InListsMasking(ts, out);
    InListsRendering(out, es);
    CleanByPieces(qs, ts, out, es);
  }

  lemma CleanInParameters()
    ensures CleanSqlQuery(Join(InListsQuery)) == Join(InListsCleaned)
  {
    InListsByPieces(InListsQuery, InListsTokens, InListsMasked, InListsCleaned);
  }
}
