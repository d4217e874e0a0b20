module TrackingExample {
  /* The statements of the tracking tests, cleaned, and the tests themselves
     run against the handler. None of these statements holds a literal value,
     so the masker leaves each as it is; the cleaning proofs follow the
     pieces as in the other worked examples. */
  import opened Passes
  import opened SqlText
  import opened SqlLexer
  import opened SqlMasker
  import opened SqlMaskSplit
  import opened SqlPieces
  import opened SqlHandler

  /** The statement "SELECT * FROM users". */
  const UsersQuery1: seq<string> := ["SELECT", " *", " FROM", " users", ""]
  const UsersQuery: seq<string> :=
    UsersQuery1

  const UsersCleaned1: seq<string> := ["SELECT", " *", " FROM", " users"]
  const UsersCleaned: seq<string> :=
    UsersCleaned1

  ghost const UsersTokens1: seq<Token> := [Token(false, Word("SELECT")), Token(true, Sym("*")), Token(true, Word("FROM")), Token(true, Word("users"))]
  ghost const UsersTokens: seq<Token> :=
    UsersTokens1

  ghost const UsersMasked1: seq<Token> := [Token(false, Word("SELECT")), Token(true, Sym("*")), Token(true, Word("FROM")), Token(true, Word("users"))]
  ghost const UsersMasked: seq<Token> :=
    UsersMasked1

  lemma UsersPiece0()
    ensures PieceOf("SELECT", "", Token(false, Word("SELECT")))
  {
  }

  lemma UsersPiece1()
    ensures PieceOf(" *", " ", Token(true, Sym("*")))
    ensures Adjacent(Token(false, Word("SELECT")), Token(true, Sym("*")))
  {
  }

  lemma UsersPiece2()
    ensures PieceOf(" FROM", " ", Token(true, Word("FROM")))
    ensures Adjacent(Token(true, Sym("*")), Token(true, Word("FROM")))
  {
  }

  lemma UsersPiece3()
    ensures PieceOf(" users", " ", Token(true, Word("users")))
    ensures Adjacent(Token(true, Word("FROM")), Token(true, Word("users")))
  {
  }

  lemma UsersPieces1(qs: seq<string>, ts: seq<Token>)
    requires Agrees(qs, UsersQuery) && Agrees(ts, UsersTokens)
    ensures |qs| == 5 && |ts| == 4
    ensures qs[0] == "SELECT"
    ensures qs[1] == " *"
    ensures qs[2] == " FROM"
    ensures qs[3] == " users"
    ensures qs[4] == "" && AllSpace(qs[4])
    ensures ts[0] == Token(false, Word("SELECT"))
    ensures ts[1] == Token(true, Sym("*"))
    ensures ts[2] == Token(true, Word("FROM"))
    ensures ts[3] == Token(true, Word("users"))
  {
    assert qs[0] == UsersQuery[0];
    assert qs[1] == UsersQuery[1];
    assert qs[2] == UsersQuery[2];
    assert qs[3] == UsersQuery[3];
    assert qs[4] == UsersQuery[4];
    assert ts[0] == UsersTokens[0];
    assert ts[1] == UsersTokens[1];
    assert ts[2] == UsersTokens[2];
    assert ts[3] == UsersTokens[3];
  }

  lemma UsersLexed1(qs: seq<string>, ts: seq<Token>)
    requires Agrees(qs, UsersQuery) && Agrees(ts, UsersTokens)
    ensures Built(qs, ts, 4)
    ensures qs[4] == "" && AllSpace(qs[4])
  {
    UsersPieces1(qs, ts);
    UsersPiece0();
    UsersPiece1();
    UsersPiece2();
    UsersPiece3();
    PieceFirst(qs, ts, "", "SELECT", Token(false, Word("SELECT")));
    PieceNext(qs, ts, 1, " ", " *", Token(false, Word("SELECT")), Token(true, Sym("*")));
    PieceNext(qs, ts, 2, " ", " FROM", Token(true, Sym("*")), Token(true, Word("FROM")));
    PieceNext(qs, ts, 3, " ", " users", Token(true, Word("FROM")), Token(true, Word("users")));
  }

  lemma UsersLexing(qs: seq<string>, ts: seq<Token>)
    requires Agrees(qs, UsersQuery) && Agrees(ts, UsersTokens)
    ensures Squish(Join(qs)) == Render(ts) && Lex(Render(ts)) == ts
  {
    UsersLexed1(qs, ts);
    PiecesEnd(qs, ts);
  }

  lemma UsersRewrite0()
    ensures Rewrite([Token(false, Word("SELECT"))], false) == Edit([Token(false, Word("SELECT"))], 1)
    ensures Mode([Token(false, Word("SELECT"))][..1], false) == false && PlainEnd([Token(false, Word("SELECT"))])
  {
    var z := [Token(false, Word("SELECT"))];
    ModeFirst(z, false);
  }

  lemma UsersRewrite1()
    ensures Rewrite([Token(true, Sym("*")), Token(true, Word("FROM"))], false) == Edit([Token(true, Sym("*"))], 1)
    ensures Mode([Token(true, Sym("*")), Token(true, Word("FROM"))][..1], false) == false && PlainEnd([Token(true, Sym("*")), Token(true, Word("FROM"))])
  {
    var z := [Token(true, Sym("*")), Token(true, Word("FROM"))];
    ModeFirst(z, false);
  }

  lemma UsersRewrite2()
    ensures Rewrite([Token(true, Word("FROM"))], false) == Edit([Token(true, Word("FROM"))], 1)
    ensures Mode([Token(true, Word("FROM"))][..1], false) == false && PlainEnd([Token(true, Word("FROM"))])
  {
    var z := [Token(true, Word("FROM"))];
    ModeFirst(z, false);
  }

  lemma UsersRewrite3()
    ensures Rewrite([Token(true, Word("users"))], false) == Edit([Token(true, Word("users"))], 1)
    ensures Mode([Token(true, Word("users"))][..1], false) == false && PlainEnd([Token(true, Word("users"))])
  {
    var z := [Token(true, Word("users"))];
    ModeFirst(z, false);
  }

  lemma UsersWindow0(ts: seq<Token>, out: seq<Token>)
    requires Agrees(ts, UsersTokens) && Agrees(out, UsersMasked)
    ensures |ts| == 4 && |out| == 4
    ensures ts[0..1] == [Token(false, Word("SELECT"))]
    ensures out[0..1] == [Token(false, Word("SELECT"))]
  {
    assert ts[0] == UsersTokens[0] == Token(false, Word("SELECT"));
    assert out[0] == UsersMasked[0] == Token(false, Word("SELECT"));
  }

  lemma UsersWindow1(ts: seq<Token>, out: seq<Token>)
    requires Agrees(ts, UsersTokens) && Agrees(out, UsersMasked)
    ensures |ts| == 4 && |out| == 4
    ensures ts[1..3] == [Token(true, Sym("*")), Token(true, Word("FROM"))]
    ensures out[1..2] == [Token(true, Sym("*"))]
  {
    assert ts[1] == UsersTokens[1] == Token(true, Sym("*"));
    assert ts[2] == UsersTokens[2] == Token(true, Word("FROM"));
    assert out[1] == UsersMasked[1] == Token(true, Sym("*"));
  }

  lemma UsersWindow2(ts: seq<Token>, out: seq<Token>)
    requires Agrees(ts, UsersTokens) && Agrees(out, UsersMasked)
    ensures |ts| == 4 && |out| == 4
    ensures ts[2..3] == [Token(true, Word("FROM"))]
    ensures out[2..3] == [Token(true, Word("FROM"))]
  {
    assert ts[2] == UsersTokens[2] == Token(true, Word("FROM"));
    assert out[2] == UsersMasked[2] == Token(true, Word("FROM"));
  }

  lemma UsersWindow3(ts: seq<Token>, out: seq<Token>)
    requires Agrees(ts, UsersTokens) && Agrees(out, UsersMasked)
    ensures |ts| == 4 && |out| == 4
    ensures ts[3..4] == [Token(true, Word("users"))]
    ensures out[3..4] == [Token(true, Word("users"))]
  {
    assert ts[3] == UsersTokens[3] == Token(true, Word("users"));
    assert out[3] == UsersMasked[3] == Token(true, Word("users"));
  }

  lemma UsersStep0(ts: seq<Token>, out: seq<Token>)
    requires Agrees(ts, UsersTokens) && Agrees(out, UsersMasked)
    requires MaskedFrom(ts, out, 1, 1, false)
    ensures MaskedFrom(ts, out, 0, 0, false)
  {
    UsersRewrite0();
    UsersWindow0(ts, out);
    MaskAt(ts, out, 0, 0, false,
      [Token(false, Word("SELECT"))],
      Step([Token(false, Word("SELECT"))], 1, false));
  }

  lemma UsersStep1(ts: seq<Token>, out: seq<Token>)
    requires Agrees(ts, UsersTokens) && Agrees(out, UsersMasked)
    requires MaskedFrom(ts, out, 2, 2, false)
    ensures MaskedFrom(ts, out, 1, 1, false)
  {
    UsersRewrite1();
    UsersWindow1(ts, out);
    MaskAt(ts, out, 1, 1, false,
      [Token(true, Sym("*")), Token(true, Word("FROM"))],
      Step([Token(true, Sym("*"))], 1, false));
  }

  lemma UsersStep2(ts: seq<Token>, out: seq<Token>)
    requires Agrees(ts, UsersTokens) && Agrees(out, UsersMasked)
    requires MaskedFrom(ts, out, 3, 3, false)
    ensures MaskedFrom(ts, out, 2, 2, false)
  {
    UsersRewrite2();
    UsersWindow2(ts, out);
    MaskAt(ts, out, 2, 2, false,
      [Token(true, Word("FROM"))],
      Step([Token(true, Word("FROM"))], 1, false));
  }

  lemma UsersStep3(ts: seq<Token>, out: seq<Token>)
    requires Agrees(ts, UsersTokens) && Agrees(out, UsersMasked)
    ensures MaskedFrom(ts, out, 3, 3, false)
  {
    UsersRewrite3();
    UsersWindow3(ts, out);
    MaskedEnd(ts, out, false);
    MaskAt(ts, out, 3, 3, false,
      [Token(true, Word("users"))],
      Step([Token(true, Word("users"))], 1, false));
  }

  lemma UsersMasking(ts: seq<Token>, out: seq<Token>)
    requires Agrees(ts, UsersTokens) && Agrees(out, UsersMasked)
    ensures MaskedFrom(ts, out, 0, 0, false)
  {
    UsersStep3(ts, out);
    UsersStep2(ts, out);
    UsersStep1(ts, out);
    UsersStep0(ts, out);
  }

  lemma UsersOutput1(out: seq<Token>, es: seq<string>)
    requires Agrees(out, UsersMasked) && Agrees(es, UsersCleaned)
    ensures |out| == 4 && |es| == 4
    ensures es[0] == RenderToken(out[0])
    ensures es[1] == RenderToken(out[1])
    ensures es[2] == RenderToken(out[2])
    ensures es[3] == RenderToken(out[3])
  {
    assert out[0] == UsersMasked[0] == Token(false, Word("SELECT"));
    assert es[0] == UsersCleaned[0] == "SELECT";
    assert out[1] == UsersMasked[1] == Token(true, Sym("*"));
    assert es[1] == UsersCleaned[1] == " *";
    assert out[2] == UsersMasked[2] == Token(true, Word("FROM"));
    assert es[2] == UsersCleaned[2] == " FROM";
    assert out[3] == UsersMasked[3] == Token(true, Word("users"));
    assert es[3] == UsersCleaned[3] == " users";
  }

  lemma UsersRendered1(out: seq<Token>, es: seq<string>)
    requires Agrees(out, UsersMasked) && Agrees(es, UsersCleaned)
    ensures Rendered(out, es, 4)
  {
    UsersOutput1(out, es);
    RenderedStart(out, es);
    RenderedNext(out, es, 0);
    RenderedNext(out, es, 1);
    RenderedNext(out, es, 2);
    RenderedNext(out, es, 3);
  }

  lemma UsersRendering(out: seq<Token>, es: seq<string>)
    requires Agrees(out, UsersMasked) && Agrees(es, UsersCleaned)
    ensures Rendered(out, es, |out|) && |es| == |out|
  {
    UsersRendered1(out, es);
  }

  lemma UsersByPieces(qs: seq<string>, ts: seq<Token>, out: seq<Token>, es: seq<string>)
    requires Agrees(qs, UsersQuery) && Agrees(ts, UsersTokens)
    requires Agrees(out, UsersMasked) && Agrees(es, UsersCleaned)
    ensures CleanSqlQuery(Join(qs)) == Join(es)
  {
    UsersLexing(qs, ts);
    UsersMasking(ts, out);
    UsersRendering(out, es);
    CleanByPieces(qs, ts, out, es);
  }

  lemma CleanUsers()
    ensures CleanSqlQuery(Join(UsersQuery)) == Join(UsersCleaned)
  {
    UsersByPieces(UsersQuery, UsersTokens, UsersMasked, UsersCleaned);
  }

  /** The statement "select * from Users". */
  const UsersMixedQuery1: seq<string> := ["select", " *", " from", " Users", ""]
  const UsersMixedQuery: seq<string> :=
    UsersMixedQuery1

  const UsersMixedCleaned1: seq<string> := ["select", " *", " from", " Users"]
  const UsersMixedCleaned: seq<string> :=
    UsersMixedCleaned1

  ghost const UsersMixedTokens1: seq<Token> := [Token(false, Word("select")), Token(true, Sym("*")), Token(true, Word("from")), Token(true, Word("Users"))]
  ghost const UsersMixedTokens: seq<Token> :=
    UsersMixedTokens1

  ghost const UsersMixedMasked1: seq<Token> := [Token(false, Word("select")), Token(true, Sym("*")), Token(true, Word("from")), Token(true, Word("Users"))]
  ghost const UsersMixedMasked: seq<Token> :=
    UsersMixedMasked1

  lemma UsersMixedPiece0()
    ensures PieceOf("select", "", Token(false, Word("select")))
  {
  }

  lemma UsersMixedPiece1()
    ensures PieceOf(" *", " ", Token(true, Sym("*")))
    ensures Adjacent(Token(false, Word("select")), Token(true, Sym("*")))
  {
  }

  lemma UsersMixedPiece2()
    ensures PieceOf(" from", " ", Token(true, Word("from")))
    ensures Adjacent(Token(true, Sym("*")), Token(true, Word("from")))
  {
  }

  lemma UsersMixedPiece3()
    ensures PieceOf(" Users", " ", Token(true, Word("Users")))
    ensures Adjacent(Token(true, Word("from")), Token(true, Word("Users")))
  {
  }

  lemma UsersMixedPieces1(qs: seq<string>, ts: seq<Token>)
    requires Agrees(qs, UsersMixedQuery) && Agrees(ts, UsersMixedTokens)
    ensures |qs| == 5 && |ts| == 4
    ensures qs[0] == "select"
    ensures qs[1] == " *"
    ensures qs[2] == " from"
    ensures qs[3] == " Users"
    ensures qs[4] == "" && AllSpace(qs[4])
    ensures ts[0] == Token(false, Word("select"))
    ensures ts[1] == Token(true, Sym("*"))
    ensures ts[2] == Token(true, Word("from"))
    ensures ts[3] == Token(true, Word("Users"))
  {
    assert qs[0] == UsersMixedQuery[0];
    assert qs[1] == UsersMixedQuery[1];
    assert qs[2] == UsersMixedQuery[2];
    assert qs[3] == UsersMixedQuery[3];
    assert qs[4] == UsersMixedQuery[4];
    assert ts[0] == UsersMixedTokens[0];
    assert ts[1] == UsersMixedTokens[1];
    assert ts[2] == UsersMixedTokens[2];
    assert ts[3] == UsersMixedTokens[3];
  }

  lemma UsersMixedLexed1(qs: seq<string>, ts: seq<Token>)
    requires Agrees(qs, UsersMixedQuery) && Agrees(ts, UsersMixedTokens)
    ensures Built(qs, ts, 4)
    ensures qs[4] == "" && AllSpace(qs[4])
  {
    UsersMixedPieces1(qs, ts);
    UsersMixedPiece0();
    UsersMixedPiece1();
    UsersMixedPiece2();
    UsersMixedPiece3();
    PieceFirst(qs, ts, "", "select", Token(false, Word("select")));
    PieceNext(qs, ts, 1, " ", " *", Token(false, Word("select")), Token(true, Sym("*")));
    PieceNext(qs, ts, 2, " ", " from", Token(true, Sym("*")), Token(true, Word("from")));
    PieceNext(qs, ts, 3, " ", " Users", Token(true, Word("from")), Token(true, Word("Users")));
  }

  lemma UsersMixedLexing(qs: seq<string>, ts: seq<Token>)
    requires Agrees(qs, UsersMixedQuery) && Agrees(ts, UsersMixedTokens)
    ensures Squish(Join(qs)) == Render(ts) && Lex(Render(ts)) == ts
  {
    UsersMixedLexed1(qs, ts);
    PiecesEnd(qs, ts);
  }

  lemma UsersMixedRewrite0()
    ensures Rewrite([Token(false, Word("select"))], false) == Edit([Token(false, Word("select"))], 1)
    ensures Mode([Token(false, Word("select"))][..1], false) == false && PlainEnd([Token(false, Word("select"))])
  {
    var z := [Token(false, Word("select"))];
    ModeFirst(z, false);
  }

  lemma UsersMixedRewrite1()
    ensures Rewrite([Token(true, Sym("*")), Token(true, Word("from"))], false) == Edit([Token(true, Sym("*"))], 1)
    ensures Mode([Token(true, Sym("*")), Token(true, Word("from"))][..1], false) == false && PlainEnd([Token(true, Sym("*")), Token(true, Word("from"))])
  {
    var z := [Token(true, Sym("*")), Token(true, Word("from"))];
    ModeFirst(z, false);
  }

  lemma UsersMixedRewrite2()
    ensures Rewrite([Token(true, Word("from"))], false) == Edit([Token(true, Word("from"))], 1)
    ensures Mode([Token(true, Word("from"))][..1], false) == false && PlainEnd([Token(true, Word("from"))])
  {
    var z := [Token(true, Word("from"))];
    ModeFirst(z, false);
  }

  lemma UsersMixedRewrite3()
    ensures Rewrite([Token(true, Word("Users"))], false) == Edit([Token(true, Word("Users"))], 1)
    ensures Mode([Token(true, Word("Users"))][..1], false) == false && PlainEnd([Token(true, Word("Users"))])
  {
    var z := [Token(true, Word("Users"))];
    ModeFirst(z, false);
  }

  lemma UsersMixedWindow0(ts: seq<Token>, out: seq<Token>)
    requires Agrees(ts, UsersMixedTokens) && Agrees(out, UsersMixedMasked)
    ensures |ts| == 4 && |out| == 4
    ensures ts[0..1] == [Token(false, Word("select"))]
    ensures out[0..1] == [Token(false, Word("select"))]
  {
    assert ts[0] == UsersMixedTokens[0] == Token(false, Word("select"));
    assert out[0] == UsersMixedMasked[0] == Token(false, Word("select"));
  }

  lemma UsersMixedWindow1(ts: seq<Token>, out: seq<Token>)
    requires Agrees(ts, UsersMixedTokens) && Agrees(out, UsersMixedMasked)
    ensures |ts| == 4 && |out| == 4
    ensures ts[1..3] == [Token(true, Sym("*")), Token(true, Word("from"))]
    ensures out[1..2] == [Token(true, Sym("*"))]
  {
    assert ts[1] == UsersMixedTokens[1] == Token(true, Sym("*"));
    assert ts[2] == UsersMixedTokens[2] == Token(true, Word("from"));
    assert out[1] == UsersMixedMasked[1] == Token(true, Sym("*"));
  }

  lemma UsersMixedWindow2(ts: seq<Token>, out: seq<Token>)
    requires Agrees(ts, UsersMixedTokens) && Agrees(out, UsersMixedMasked)
    ensures |ts| == 4 && |out| == 4
    ensures ts[2..3] == [Token(true, Word("from"))]
    ensures out[2..3] == [Token(true, Word("from"))]
  {
    assert ts[2] == UsersMixedTokens[2] == Token(true, Word("from"));
    assert out[2] == UsersMixedMasked[2] == Token(true, Word("from"));
  }

  lemma UsersMixedWindow3(ts: seq<Token>, out: seq<Token>)
    requires Agrees(ts, UsersMixedTokens) && Agrees(out, UsersMixedMasked)
    ensures |ts| == 4 && |out| == 4
    ensures ts[3..4] == [Token(true, Word("Users"))]
    ensures out[3..4] == [Token(true, Word("Users"))]
  {
    assert ts[3] == UsersMixedTokens[3] == Token(true, Word("Users"));
    assert out[3] == UsersMixedMasked[3] == Token(true, Word("Users"));
  }

  lemma UsersMixedStep0(ts: seq<Token>, out: seq<Token>)
    requires Agrees(ts, UsersMixedTokens) && Agrees(out, UsersMixedMasked)
    requires MaskedFrom(ts, out, 1, 1, false)
    ensures MaskedFrom(ts, out, 0, 0, false)
  {
    UsersMixedRewrite0();
    UsersMixedWindow0(ts, out);
    MaskAt(ts, out, 0, 0, false,
      [Token(false, Word("select"))],
      Step([Token(false, Word("select"))], 1, false));
  }

  lemma UsersMixedStep1(ts: seq<Token>, out: seq<Token>)
    requires Agrees(ts, UsersMixedTokens) && Agrees(out, UsersMixedMasked)
    requires MaskedFrom(ts, out, 2, 2, false)
    ensures MaskedFrom(ts, out, 1, 1, false)
  {
    UsersMixedRewrite1();
    UsersMixedWindow1(ts, out);
    MaskAt(ts, out, 1, 1, false,
      [Token(true, Sym("*")), Token(true, Word("from"))],
      Step([Token(true, Sym("*"))], 1, false));
  }

  lemma UsersMixedStep2(ts: seq<Token>, out: seq<Token>)
    requires Agrees(ts, UsersMixedTokens) && Agrees(out, UsersMixedMasked)
    requires MaskedFrom(ts, out, 3, 3, false)
    ensures MaskedFrom(ts, out, 2, 2, false)
  {
    UsersMixedRewrite2();
    UsersMixedWindow2(ts, out);
    MaskAt(ts, out, 2, 2, false,
      [Token(true, Word("from"))],
      Step([Token(true, Word("from"))], 1, false));
  }

  lemma UsersMixedStep3(ts: seq<Token>, out: seq<Token>)
    requires Agrees(ts, UsersMixedTokens) && Agrees(out, UsersMixedMasked)
    ensures MaskedFrom(ts, out, 3, 3, false)
  {
    UsersMixedRewrite3();
    UsersMixedWindow3(ts, out);
    MaskedEnd(ts, out, false);
    MaskAt(ts, out, 3, 3, false,
      [Token(true, Word("Users"))],
      Step([Token(true, Word("Users"))], 1, false));
  }

  lemma UsersMixedMasking(ts: seq<Token>, out: seq<Token>)
    requires Agrees(ts, UsersMixedTokens) && Agrees(out, UsersMixedMasked)
    ensures MaskedFrom(ts, out, 0, 0, false)
  {
    UsersMixedStep3(ts, out);
    UsersMixedStep2(ts, out);
    UsersMixedStep1(ts, out);
    UsersMixedStep0(ts, out);
  }

  lemma UsersMixedOutput1(out: seq<Token>, es: seq<string>)
    requires Agrees(out, UsersMixedMasked) && Agrees(es, UsersMixedCleaned)
    ensures |out| == 4 && |es| == 4
    ensures es[0] == RenderToken(out[0])
    ensures es[1] == RenderToken(out[1])
    ensures es[2] == RenderToken(out[2])
    ensures es[3] == RenderToken(out[3])
  {
    assert out[0] == UsersMixedMasked[0] == Token(false, Word("select"));
    assert es[0] == UsersMixedCleaned[0] == "select";
    assert out[1] == UsersMixedMasked[1] == Token(true, Sym("*"));
    assert es[1] == UsersMixedCleaned[1] == " *";
    assert out[2] == UsersMixedMasked[2] == Token(true, Word("from"));
    assert es[2] == UsersMixedCleaned[2] == " from";
    assert out[3] == UsersMixedMasked[3] == Token(true, Word("Users"));
    assert es[3] == UsersMixedCleaned[3] == " Users";
  }

  lemma UsersMixedRendered1(out: seq<Token>, es: seq<string>)
    requires Agrees(out, UsersMixedMasked) && Agrees(es, UsersMixedCleaned)
    ensures Rendered(out, es, 4)
  {
    UsersMixedOutput1(out, es);
    RenderedStart(out, es);
    RenderedNext(out, es, 0);
    RenderedNext(out, es, 1);
    RenderedNext(out, es, 2);
    RenderedNext(out, es, 3);
  }

  lemma UsersMixedRendering(out: seq<Token>, es: seq<string>)
    requires Agrees(out, UsersMixedMasked) && Agrees(es, UsersMixedCleaned)
    ensures Rendered(out, es, |out|) && |es| == |out|
  {
    UsersMixedRendered1(out, es);
  }

  lemma UsersMixedByPieces(qs: seq<string>, ts: seq<Token>, out: seq<Token>, es: seq<string>)
    requires Agrees(qs, UsersMixedQuery) && Agrees(ts, UsersMixedTokens)
    requires Agrees(out, UsersMixedMasked) && Agrees(es, UsersMixedCleaned)
    ensures CleanSqlQuery(Join(qs)) == Join(es)
  {
    UsersMixedLexing(qs, ts);
    UsersMixedMasking(ts, out);
    UsersMixedRendering(out, es);
    CleanByPieces(qs, ts, out, es);
  }

  lemma CleanUsersMixed()
    ensures CleanSqlQuery(Join(UsersMixedQuery)) == Join(UsersMixedCleaned)
  {
    UsersMixedByPieces(UsersMixedQuery, UsersMixedTokens, UsersMixedMasked, UsersMixedCleaned);
  }

  /** The statement "select id from products". */
  const ProductsQuery1: seq<string> := ["select", " id", " from", " products", ""]
  const ProductsQuery: seq<string> :=
    ProductsQuery1

  const ProductsCleaned1: seq<string> := ["select", " id", " from", " products"]
  const ProductsCleaned: seq<string> :=
    ProductsCleaned1

  ghost const ProductsTokens1: seq<Token> := [Token(false, Word("select")), Token(true, Word("id")), Token(true, Word("from")), Token(true, Word("products"))]
  ghost const ProductsTokens: seq<Token> :=
    ProductsTokens1

  ghost const ProductsMasked1: seq<Token> := [Token(false, Word("select")), Token(true, Word("id")), Token(true, Word("from")), Token(true, Word("products"))]
  ghost const ProductsMasked: seq<Token> :=
    ProductsMasked1

  lemma ProductsPiece0()
    ensures PieceOf("select", "", Token(false, Word("select")))
  {
  }

  lemma ProductsPiece1()
    ensures PieceOf(" id", " ", Token(true, Word("id")))
    ensures Adjacent(Token(false, Word("select")), Token(true, Word("id")))
  {
  }

  lemma ProductsPiece2()
    ensures PieceOf(" from", " ", Token(true, Word("from")))
    ensures Adjacent(Token(true, Word("id")), Token(true, Word("from")))
  {
  }

  lemma ProductsPiece3()
    ensures PieceOf(" products", " ", Token(true, Word("products")))
    ensures Adjacent(Token(true, Word("from")), Token(true, Word("products")))
  {
  }

  lemma ProductsPieces1(qs: seq<string>, ts: seq<Token>)
    requires Agrees(qs, ProductsQuery) && Agrees(ts, ProductsTokens)
    ensures |qs| == 5 && |ts| == 4
    ensures qs[0] == "select"
    ensures qs[1] == " id"
    ensures qs[2] == " from"
    ensures qs[3] == " products"
    ensures qs[4] == "" && AllSpace(qs[4])
    ensures ts[0] == Token(false, Word("select"))
    ensures ts[1] == Token(true, Word("id"))
    ensures ts[2] == Token(true, Word("from"))
    ensures ts[3] == Token(true, Word("products"))
  {
    assert qs[0] == ProductsQuery[0];
    assert qs[1] == ProductsQuery[1];
    assert qs[2] == ProductsQuery[2];
    assert qs[3] == ProductsQuery[3];
    assert qs[4] == ProductsQuery[4];
    assert ts[0] == ProductsTokens[0];
    assert ts[1] == ProductsTokens[1];
    assert ts[2] == ProductsTokens[2];
    assert ts[3] == ProductsTokens[3];
  }

  lemma ProductsLexed1(qs: seq<string>, ts: seq<Token>)
    requires Agrees(qs, ProductsQuery) && Agrees(ts, ProductsTokens)
    ensures Built(qs, ts, 4)
    ensures qs[4] == "" && AllSpace(qs[4])
  {
    ProductsPieces1(qs, ts);
    ProductsPiece0();
    ProductsPiece1();
    ProductsPiece2();
    ProductsPiece3();
    PieceFirst(qs, ts, "", "select", Token(false, Word("select")));
    PieceNext(qs, ts, 1, " ", " id", Token(false, Word("select")), Token(true, Word("id")));
    PieceNext(qs, ts, 2, " ", " from", Token(true, Word("id")), Token(true, Word("from")));
    PieceNext(qs, ts, 3, " ", " products", Token(true, Word("from")), Token(true, Word("products")));
  }

  lemma ProductsLexing(qs: seq<string>, ts: seq<Token>)
    requires Agrees(qs, ProductsQuery) && Agrees(ts, ProductsTokens)
    ensures Squish(Join(qs)) == Render(ts) && Lex(Render(ts)) == ts
  {
    ProductsLexed1(qs, ts);
    PiecesEnd(qs, ts);
  }

  lemma ProductsRewrite0()
    ensures Rewrite([Token(false, Word("select"))], false) == Edit([Token(false, Word("select"))], 1)
    ensures Mode([Token(false, Word("select"))][..1], false) == false && PlainEnd([Token(false, Word("select"))])
  {
    var z := [Token(false, Word("select"))];
    ModeFirst(z, false);
  }

  lemma ProductsRewrite1()
    ensures Rewrite([Token(true, Word("id"))], false) == Edit([Token(true, Word("id"))], 1)
    ensures Mode([Token(true, Word("id"))][..1], false) == false && PlainEnd([Token(true, Word("id"))])
  {
    var z := [Token(true, Word("id"))];
    ModeFirst(z, false);
  }

  lemma ProductsRewrite2()
    ensures Rewrite([Token(true, Word("from"))], false) == Edit([Token(true, Word("from"))], 1)
    ensures Mode([Token(true, Word("from"))][..1], false) == false && PlainEnd([Token(true, Word("from"))])
  {
    var z := [Token(true, Word("from"))];
    ModeFirst(z, false);
  }

  lemma ProductsRewrite3()
    ensures Rewrite([Token(true, Word("products"))], false) == Edit([Token(true, Word("products"))], 1)
    ensures Mode([Token(true, Word("products"))][..1], false) == false && PlainEnd([Token(true, Word("products"))])
  {
    var z := [Token(true, Word("products"))];
    ModeFirst(z, false);
  }

  lemma ProductsWindow0(ts: seq<Token>, out: seq<Token>)
    requires Agrees(ts, ProductsTokens) && Agrees(out, ProductsMasked)
    ensures |ts| == 4 && |out| == 4
    ensures ts[0..1] == [Token(false, Word("select"))]
    ensures out[0..1] == [Token(false, Word("select"))]
  {
    assert ts[0] == ProductsTokens[0] == Token(false, Word("select"));
    assert out[0] == ProductsMasked[0] == Token(false, Word("select"));
  }

  lemma ProductsWindow1(ts: seq<Token>, out: seq<Token>)
    requires Agrees(ts, ProductsTokens) && Agrees(out, ProductsMasked)
    ensures |ts| == 4 && |out| == 4
    ensures ts[1..2] == [Token(true, Word("id"))]
    ensures out[1..2] == [Token(true, Word("id"))]
  {
    assert ts[1] == ProductsTokens[1] == Token(true, Word("id"));
    assert out[1] == ProductsMasked[1] == Token(true, Word("id"));
  }

  lemma ProductsWindow2(ts: seq<Token>, out: seq<Token>)
    requires Agrees(ts, ProductsTokens) && Agrees(out, ProductsMasked)
    ensures |ts| == 4 && |out| == 4
    ensures ts[2..3] == [Token(true, Word("from"))]
    ensures out[2..3] == [Token(true, Word("from"))]
  {
    assert ts[2] == ProductsTokens[2] == Token(true, Word("from"));
    assert out[2] == ProductsMasked[2] == Token(true, Word("from"));
  }

  lemma ProductsWindow3(ts: seq<Token>, out: seq<Token>)
    requires Agrees(ts, ProductsTokens) && Agrees(out, ProductsMasked)
    ensures |ts| == 4 && |out| == 4
    ensures ts[3..4] == [Token(true, Word("products"))]
    ensures out[3..4] == [Token(true, Word("products"))]
  {
    assert ts[3] == ProductsTokens[3] == Token(true, Word("products"));
    assert out[3] == ProductsMasked[3] == Token(true, Word("products"));
  }

  lemma ProductsStep0(ts: seq<Token>, out: seq<Token>)
    requires Agrees(ts, ProductsTokens) && Agrees(out, ProductsMasked)
    requires MaskedFrom(ts, out, 1, 1, false)
    ensures MaskedFrom(ts, out, 0, 0, false)
  {
    ProductsRewrite0();
    ProductsWindow0(ts, out);
    MaskAt(ts, out, 0, 0, false,
      [Token(false, Word("select"))],
      Step([Token(false, Word("select"))], 1, false));
  }

  lemma ProductsStep1(ts: seq<Token>, out: seq<Token>)
    requires Agrees(ts, ProductsTokens) && Agrees(out, ProductsMasked)
    requires MaskedFrom(ts, out, 2, 2, false)
    ensures MaskedFrom(ts, out, 1, 1, false)
  {
    ProductsRewrite1();
    ProductsWindow1(ts, out);
    MaskAt(ts, out, 1, 1, false,
      [Token(true, Word("id"))],
      Step([Token(true, Word("id"))], 1, false));
  }

  lemma ProductsStep2(ts: seq<Token>, out: seq<Token>)
    requires Agrees(ts, ProductsTokens) && Agrees(out, ProductsMasked)
    requires MaskedFrom(ts, out, 3, 3, false)
    ensures MaskedFrom(ts, out, 2, 2, false)
  {
    ProductsRewrite2();
    ProductsWindow2(ts, out);
    MaskAt(ts, out, 2, 2, false,
      [Token(true, Word("from"))],
      Step([Token(true, Word("from"))], 1, false));
  }

  lemma ProductsStep3(ts: seq<Token>, out: seq<Token>)
    requires Agrees(ts, ProductsTokens) && Agrees(out, ProductsMasked)
    ensures MaskedFrom(ts, out, 3, 3, false)
  {
    ProductsRewrite3();
    ProductsWindow3(ts, out);
    MaskedEnd(ts, out, false);
    MaskAt(ts, out, 3, 3, false,
      [Token(true, Word("products"))],
      Step([Token(true, Word("products"))], 1, false));
  }

  lemma ProductsMasking(ts: seq<Token>, out: seq<Token>)
    requires Agrees(ts, ProductsTokens) && Agrees(out, ProductsMasked)
    ensures MaskedFrom(ts, out, 0, 0, false)
  {
    ProductsStep3(ts, out);
    ProductsStep2(ts, out);
    ProductsStep1(ts, out);
    ProductsStep0(ts, out);
  }

  lemma ProductsOutput1(out: seq<Token>, es: seq<string>)
    requires Agrees(out, ProductsMasked) && Agrees(es, ProductsCleaned)
    ensures |out| == 4 && |es| == 4
    ensures es[0] == RenderToken(out[0])
    ensures es[1] == RenderToken(out[1])
    ensures es[2] == RenderToken(out[2])
    ensures es[3] == RenderToken(out[3])
  {
    assert out[0] == ProductsMasked[0] == Token(false, Word("select"));
    assert es[0] == ProductsCleaned[0] == "select";
    assert out[1] == ProductsMasked[1] == Token(true, Word("id"));
    assert es[1] == ProductsCleaned[1] == " id";
    assert out[2] == ProductsMasked[2] == Token(true, Word("from"));
    assert es[2] == ProductsCleaned[2] == " from";
    assert out[3] == ProductsMasked[3] == Token(true, Word("products"));
    assert es[3] == ProductsCleaned[3] == " products";
  }

  lemma ProductsRendered1(out: seq<Token>, es: seq<string>)
    requires Agrees(out, ProductsMasked) && Agrees(es, ProductsCleaned)
    ensures Rendered(out, es, 4)
  {
    ProductsOutput1(out, es);
    RenderedStart(out, es);
    RenderedNext(out, es, 0);
    RenderedNext(out, es, 1);
    RenderedNext(out, es, 2);
    RenderedNext(out, es, 3);
  }

  lemma ProductsRendering(out: seq<Token>, es: seq<string>)
    requires Agrees(out, ProductsMasked) && Agrees(es, ProductsCleaned)
    ensures Rendered(out, es, |out|) && |es| == |out|
  {
    ProductsRendered1(out, es);
  }

  lemma ProductsByPieces(qs: seq<string>, ts: seq<Token>, out: seq<Token>, es: seq<string>)
    requires Agrees(qs, ProductsQuery) && Agrees(ts, ProductsTokens)
    requires Agrees(out, ProductsMasked) && Agrees(es, ProductsCleaned)
    ensures CleanSqlQuery(Join(qs)) == Join(es)
  {
    ProductsLexing(qs, ts);
    ProductsMasking(ts, out);
    ProductsRendering(out, es);
    CleanByPieces(qs, ts, out, es);
  }

  lemma CleanProducts()
    ensures CleanSqlQuery(Join(ProductsQuery)) == Join(ProductsCleaned)
  {
    ProductsByPieces(ProductsQuery, ProductsTokens, ProductsMasked, ProductsCleaned);
  }

  /** The statement "SELECT t.oid, t.typname FROM pg_type as t WHERE t.typname IN (test1, test2, test3)". */
  const TypesQuery1: seq<string> := ["SELECT", " t.oid", ",", " t.typname", " FROM", " pg_type"]
  const TypesQuery2: seq<string> := [" as", " t", " WHERE", " t.typname", " IN", " ("]
  const TypesQuery3: seq<string> := ["test1", ",", " test2", ",", " test3", ")"]
  const TypesQuery4: seq<string> := [""]
  const TypesQuery: seq<string> :=
    TypesQuery1 + TypesQuery2 + TypesQuery3 + TypesQuery4

  const TypesCleaned1: seq<string> := ["SELECT", " t.oid", ",", " t.typname", " FROM", " pg_type", " as", " t"]
  const TypesCleaned2: seq<string> := [" WHERE", " t.typname", " IN", " (", "test1", ",", " test2", ","]
  const TypesCleaned3: seq<string> := [" test3", ")"]
  const TypesCleaned: seq<string> :=
    TypesCleaned1 + TypesCleaned2 + TypesCleaned3

  ghost const TypesTokens1: seq<Token> := [Token(false, Word("SELECT")), Token(true, Word("t.oid")), Token(false, Sym(",")), Token(true, Word("t.typname")), Token(true, Word("FROM")), Token(true, Word("pg_type"))]
  ghost const TypesTokens2: seq<Token> := [Token(true, Word("as")), Token(true, Word("t")), Token(true, Word("WHERE")), Token(true, Word("t.typname")), Token(true, Word("IN")), Token(true, Sym("("))]
  ghost const TypesTokens3: seq<Token> := [Token(false, Word("test1")), Token(false, Sym(",")), Token(true, Word("test2")), Token(false, Sym(",")), Token(true, Word("test3")), Token(false, Sym(")"))]
  ghost const TypesTokens: seq<Token> :=
    TypesTokens1 + TypesTokens2 + TypesTokens3

  ghost const TypesMasked1: seq<Token> := [Token(false, Word("SELECT")), Token(true, Word("t.oid")), Token(false, Sym(",")), Token(true, Word("t.typname")), Token(true, Word("FROM")), Token(true, Word("pg_type"))]
  ghost const TypesMasked2: seq<Token> := [Token(true, Word("as")), Token(true, Word("t")), Token(true, Word("WHERE")), Token(true, Word("t.typname")), Token(true, Word("IN")), Token(true, Sym("("))]
  ghost const TypesMasked3: seq<Token> := [Token(false, Word("test1")), Token(false, Sym(",")), Token(true, Word("test2")), Token(false, Sym(",")), Token(true, Word("test3")), Token(false, Sym(")"))]
  ghost const TypesMasked: seq<Token> :=
    TypesMasked1 + TypesMasked2 + TypesMasked3

  lemma TypesPiece0()
    ensures PieceOf("SELECT", "", Token(false, Word("SELECT")))
  {
  }

  lemma TypesPiece1()
    ensures PieceOf(" t.oid", " ", Token(true, Word("t.oid")))
    ensures Adjacent(Token(false, Word("SELECT")), Token(true, Word("t.oid")))
  {
  }

  lemma TypesPiece2()
    ensures PieceOf(",", "", Token(false, Sym(",")))
    ensures Adjacent(Token(true, Word("t.oid")), Token(false, Sym(",")))
  {
  }

  lemma TypesPiece3()
    ensures PieceOf(" t.typname", " ", Token(true, Word("t.typname")))
    ensures Adjacent(Token(false, Sym(",")), Token(true, Word("t.typname")))
  {
  }

  lemma TypesPiece4()
    ensures PieceOf(" FROM", " ", Token(true, Word("FROM")))
    ensures Adjacent(Token(true, Word("t.typname")), Token(true, Word("FROM")))
  {
  }

  lemma TypesPiece5()
    ensures PieceOf(" pg_type", " ", Token(true, Word("pg_type")))
    ensures Adjacent(Token(true, Word("FROM")), Token(true, Word("pg_type")))
  {
  }

  lemma TypesPieces1(qs: seq<string>, ts: seq<Token>)
    requires Agrees(qs, TypesQuery) && Agrees(ts, TypesTokens)
    ensures |qs| == 19 && |ts| == 18
    ensures qs[0] == "SELECT"
    ensures qs[1] == " t.oid"
    ensures qs[2] == ","
    ensures qs[3] == " t.typname"
    ensures qs[4] == " FROM"
    ensures qs[5] == " pg_type"
    ensures ts[0] == Token(false, Word("SELECT"))
    ensures ts[1] == Token(true, Word("t.oid"))
    ensures ts[2] == Token(false, Sym(","))
    ensures ts[3] == Token(true, Word("t.typname"))
    ensures ts[4] == Token(true, Word("FROM"))
    ensures ts[5] == Token(true, Word("pg_type"))
  {
    assert qs[0] == TypesQuery[0];
    assert qs[1] == TypesQuery[1];
    assert qs[2] == TypesQuery[2];
    assert qs[3] == TypesQuery[3];
    assert qs[4] == TypesQuery[4];
    assert qs[5] == TypesQuery[5];
    assert ts[0] == TypesTokens[0];
    assert ts[1] == TypesTokens[1];
    assert ts[2] == TypesTokens[2];
    assert ts[3] == TypesTokens[3];
    assert ts[4] == TypesTokens[4];
    assert ts[5] == TypesTokens[5];
  }

  lemma TypesLexed1(qs: seq<string>, ts: seq<Token>)
    requires Agrees(qs, TypesQuery) && Agrees(ts, TypesTokens)
    ensures Built(qs, ts, 6)
  {
    TypesPieces1(qs, ts);
    TypesPiece0();
    TypesPiece1();
    TypesPiece2();
    TypesPiece3();
    TypesPiece4();
    TypesPiece5();
    PieceFirst(qs, ts, "", "SELECT", Token(false, Word("SELECT")));
    PieceNext(qs, ts, 1, " ", " t.oid", Token(false, Word("SELECT")), Token(true, Word("t.oid")));
    PieceNext(qs, ts, 2, "", ",", Token(true, Word("t.oid")), Token(false, Sym(",")));
    PieceNext(qs, ts, 3, " ", " t.typname", Token(false, Sym(",")), Token(true, Word("t.typname")));
    PieceNext(qs, ts, 4, " ", " FROM", Token(true, Word("t.typname")), Token(true, Word("FROM")));
    PieceNext(qs, ts, 5, " ", " pg_type", Token(true, Word("FROM")), Token(true, Word("pg_type")));
  }

  lemma TypesPiece6()
    ensures PieceOf(" as", " ", Token(true, Word("as")))
    ensures Adjacent(Token(true, Word("pg_type")), Token(true, Word("as")))
  {
  }

  lemma TypesPiece7()
    ensures PieceOf(" t", " ", Token(true, Word("t")))
    ensures Adjacent(Token(true, Word("as")), Token(true, Word("t")))
  {
  }

  lemma TypesPiece8()
    ensures PieceOf(" WHERE", " ", Token(true, Word("WHERE")))
    ensures Adjacent(Token(true, Word("t")), Token(true, Word("WHERE")))
  {
  }

  lemma TypesPiece9()
    ensures PieceOf(" t.typname", " ", Token(true, Word("t.typname")))
    ensures Adjacent(Token(true, Word("WHERE")), Token(true, Word("t.typname")))
  {
  }

  lemma TypesPiece10()
    ensures PieceOf(" IN", " ", Token(true, Word("IN")))
    ensures Adjacent(Token(true, Word("t.typname")), Token(true, Word("IN")))
  {
  }

  lemma TypesPiece11()
    ensures PieceOf(" (", " ", Token(true, Sym("(")))
    ensures Adjacent(Token(true, Word("IN")), Token(true, Sym("(")))
  {
  }

  lemma TypesPieces2(qs: seq<string>, ts: seq<Token>)
    requires Agrees(qs, TypesQuery) && Agrees(ts, TypesTokens)
    ensures |qs| == 19 && |ts| == 18
    ensures qs[6] == " as"
    ensures qs[7] == " t"
    ensures qs[8] == " WHERE"
    ensures qs[9] == " t.typname"
    ensures qs[10] == " IN"
    ensures qs[11] == " ("
    ensures ts[5] == Token(true, Word("pg_type"))
    ensures ts[6] == Token(true, Word("as"))
    ensures ts[7] == Token(true, Word("t"))
    ensures ts[8] == Token(true, Word("WHERE"))
    ensures ts[9] == Token(true, Word("t.typname"))
    ensures ts[10] == Token(true, Word("IN"))
    ensures ts[11] == Token(true, Sym("("))
  {
    assert qs[6] == TypesQuery[6];
    assert qs[7] == TypesQuery[7];
    assert qs[8] == TypesQuery[8];
    assert qs[9] == TypesQuery[9];
    assert qs[10] == TypesQuery[10];
    assert qs[11] == TypesQuery[11];
    assert ts[5] == TypesTokens[5];
    assert ts[6] == TypesTokens[6];
    assert ts[7] == TypesTokens[7];
    assert ts[8] == TypesTokens[8];
    assert ts[9] == TypesTokens[9];
    assert ts[10] == TypesTokens[10];
    assert ts[11] == TypesTokens[11];
  }

  lemma TypesLexed2(qs: seq<string>, ts: seq<Token>)
    requires Agrees(qs, TypesQuery) && Agrees(ts, TypesTokens)
    requires Built(qs, ts, 6)
    ensures Built(qs, ts, 12)
  {
    TypesPieces2(qs, ts);
    TypesPiece5();
    TypesPiece6();
    TypesPiece7();
    TypesPiece8();
    TypesPiece9();
    TypesPiece10();
    TypesPiece11();
    PieceNext(qs, ts, 6, " ", " as", Token(true, Word("pg_type")), Token(true, Word("as")));
    PieceNext(qs, ts, 7, " ", " t", Token(true, Word("as")), Token(true, Word("t")));
    PieceNext(qs, ts, 8, " ", " WHERE", Token(true, Word("t")), Token(true, Word("WHERE")));
    PieceNext(qs, ts, 9, " ", " t.typname", Token(true, Word("WHERE")), Token(true, Word("t.typname")));
    PieceNext(qs, ts, 10, " ", " IN", Token(true, Word("t.typname")), Token(true, Word("IN")));
    PieceNext(qs, ts, 11, " ", " (", Token(true, Word("IN")), Token(true, Sym("(")));
  }

  lemma TypesPiece12()
    ensures PieceOf("test1", "", Token(false, Word("test1")))
    ensures Adjacent(Token(true, Sym("(")), Token(false, Word("test1")))
  {
  }

  lemma TypesPiece13()
    ensures PieceOf(",", "", Token(false, Sym(",")))
    ensures Adjacent(Token(false, Word("test1")), Token(false, Sym(",")))
  {
  }

  lemma TypesPiece14()
    ensures PieceOf(" test2", " ", Token(true, Word("test2")))
    ensures Adjacent(Token(false, Sym(",")), Token(true, Word("test2")))
  {
  }

  lemma TypesPiece15()
    ensures PieceOf(",", "", Token(false, Sym(",")))
    ensures Adjacent(Token(true, Word("test2")), Token(false, Sym(",")))
  {
  }

  lemma TypesPiece16()
    ensures PieceOf(" test3", " ", Token(true, Word("test3")))
    ensures Adjacent(Token(false, Sym(",")), Token(true, Word("test3")))
  {
  }

  lemma TypesPiece17()
    ensures PieceOf(")", "", Token(false, Sym(")")))
    ensures Adjacent(Token(true, Word("test3")), Token(false, Sym(")")))
  {
  }

  lemma TypesPieces3(qs: seq<string>, ts: seq<Token>)
    requires Agrees(qs, TypesQuery) && Agrees(ts, TypesTokens)
    ensures |qs| == 19 && |ts| == 18
    ensures qs[12] == "test1"
    ensures qs[13] == ","
    ensures qs[14] == " test2"
    ensures qs[15] == ","
    ensures qs[16] == " test3"
    ensures qs[17] == ")"
    ensures qs[18] == "" && AllSpace(qs[18])
    ensures ts[11] == Token(true, Sym("("))
    ensures ts[12] == Token(false, Word("test1"))
    ensures ts[13] == Token(false, Sym(","))
    ensures ts[14] == Token(true, Word("test2"))
    ensures ts[15] == Token(false, Sym(","))
    ensures ts[16] == Token(true, Word("test3"))
    ensures ts[17] == Token(false, Sym(")"))
  {
    assert qs[12] == TypesQuery[12];
    assert qs[13] == TypesQuery[13];
    assert qs[14] == TypesQuery[14];
    assert qs[15] == TypesQuery[15];
    assert qs[16] == TypesQuery[16];
    assert qs[17] == TypesQuery[17];
    assert qs[18] == TypesQuery[18];
    assert ts[11] == TypesTokens[11];
    assert ts[12] == TypesTokens[12];
    assert ts[13] == TypesTokens[13];
    assert ts[14] == TypesTokens[14];
    assert ts[15] == TypesTokens[15];
    assert ts[16] == TypesTokens[16];
    assert ts[17] == TypesTokens[17];
  }

  lemma TypesLexed3(qs: seq<string>, ts: seq<Token>)
    requires Agrees(qs, TypesQuery) && Agrees(ts, TypesTokens)
    requires Built(qs, ts, 12)
    ensures Built(qs, ts, 18)
    ensures qs[18] == "" && AllSpace(qs[18])
  {
    TypesPieces3(qs, ts);
    TypesPiece11();
    TypesPiece12();
    TypesPiece13();
    TypesPiece14();
    TypesPiece15();
    TypesPiece16();
    TypesPiece17();
    PieceNext(qs, ts, 12, "", "test1", Token(true, Sym("(")), Token(false, Word("test1")));
    PieceNext(qs, ts, 13, "", ",", Token(false, Word("test1")), Token(false, Sym(",")));
    PieceNext(qs, ts, 14, " ", " test2", Token(false, Sym(",")), Token(true, Word("test2")));
    PieceNext(qs, ts, 15, "", ",", Token(true, Word("test2")), Token(false, Sym(",")));
    PieceNext(qs, ts, 16, " ", " test3", Token(false, Sym(",")), Token(true, Word("test3")));
    PieceNext(qs, ts, 17, "", ")", Token(true, Word("test3")), Token(false, Sym(")")));
  }

  lemma TypesLexing(qs: seq<string>, ts: seq<Token>)
    requires Agrees(qs, TypesQuery) && Agrees(ts, TypesTokens)
    ensures Squish(Join(qs)) == Render(ts) && Lex(Render(ts)) == ts
  {
    TypesLexed1(qs, ts);
    TypesLexed2(qs, ts);
    TypesLexed3(qs, ts);
    PiecesEnd(qs, ts);
  }

  lemma TypesRewrite15()
    ensures Rewrite([Token(false, Sym(",")), Token(true, Word("test3"))], false) == Edit([Token(false, Sym(","))], 1)
    ensures Mode([Token(false, Sym(",")), Token(true, Word("test3"))][..1], false) == false && PlainEnd([Token(false, Sym(",")), Token(true, Word("test3"))])
  {
    var z := [Token(false, Sym(",")), Token(true, Word("test3"))];
    ModeFirst(z, false);
  }

  lemma TypesRewrite16()
    ensures Rewrite([Token(true, Word("test3"))], false) == Edit([Token(true, Word("test3"))], 1)
    ensures Mode([Token(true, Word("test3"))][..1], false) == false && PlainEnd([Token(true, Word("test3"))])
  {
    var z := [Token(true, Word("test3"))];
    ModeFirst(z, false);
  }

  lemma TypesRewrite17()
    ensures Rewrite([Token(false, Sym(")"))], false) == Edit([Token(false, Sym(")"))], 1)
    ensures Mode([Token(false, Sym(")"))][..1], false) == false
  {
    var z := [Token(false, Sym(")"))];
    ModeFirst(z, false);
  }

  lemma TypesWindow15(ts: seq<Token>, out: seq<Token>)
    requires Agrees(ts, TypesTokens) && Agrees(out, TypesMasked)
    ensures |ts| == 18 && |out| == 18
    ensures ts[15..17] == [Token(false, Sym(",")), Token(true, Word("test3"))]
    ensures out[15..16] == [Token(false, Sym(","))]
  {
    assert ts[15] == TypesTokens[15] == Token(false, Sym(","));
    assert ts[16] == TypesTokens[16] == Token(true, Word("test3"));
    assert out[15] == TypesMasked[15] == Token(false, Sym(","));
  }

  lemma TypesWindow16(ts: seq<Token>, out: seq<Token>)
    requires Agrees(ts, TypesTokens) && Agrees(out, TypesMasked)
    ensures |ts| == 18 && |out| == 18
    ensures ts[16..17] == [Token(true, Word("test3"))]
    ensures out[16..17] == [Token(true, Word("test3"))]
  {
    assert ts[16] == TypesTokens[16] == Token(true, Word("test3"));
    assert out[16] == TypesMasked[16] == Token(true, Word("test3"));
  }

  lemma TypesWindow17(ts: seq<Token>, out: seq<Token>)
    requires Agrees(ts, TypesTokens) && Agrees(out, TypesMasked)
    ensures |ts| == 18 && |out| == 18
    ensures ts[17..18] == [Token(false, Sym(")"))]
    ensures out[17..18] == [Token(false, Sym(")"))]
  {
    assert ts[17] == TypesTokens[17] == Token(false, Sym(")"));
    assert out[17] == TypesMasked[17] == Token(false, Sym(")"));
  }

  lemma TypesStep15(ts: seq<Token>, out: seq<Token>)
    requires Agrees(ts, TypesTokens) && Agrees(out, TypesMasked)
    requires MaskedFrom(ts, out, 16, 16, false)
    ensures MaskedFrom(ts, out, 15, 15, false)
  {
    TypesRewrite15();
    TypesWindow15(ts, out);
    MaskAt(ts, out, 15, 15, false,
      [Token(false, Sym(",")), Token(true, Word("test3"))],
      Step([Token(false, Sym(","))], 1, false));
  }

  lemma TypesStep16(ts: seq<Token>, out: seq<Token>)
    requires Agrees(ts, TypesTokens) && Agrees(out, TypesMasked)
    requires MaskedFrom(ts, out, 17, 17, false)
    ensures MaskedFrom(ts, out, 16, 16, false)
  {
    TypesRewrite16();
    TypesWindow16(ts, out);
    MaskAt(ts, out, 16, 16, false,
      [Token(true, Word("test3"))],
      Step([Token(true, Word("test3"))], 1, false));
  }

  lemma TypesStep17(ts: seq<Token>, out: seq<Token>)
    requires Agrees(ts, TypesTokens) && Agrees(out, TypesMasked)
    ensures MaskedFrom(ts, out, 17, 17, false)
  {
    TypesRewrite17();
    TypesWindow17(ts, out);
    MaskedEnd(ts, out, false);
    MaskAt(ts, out, 17, 17, false,
      [Token(false, Sym(")"))],
      Step([Token(false, Sym(")"))], 1, false));
  }

  lemma TypesRewrite10()
    ensures Rewrite([Token(true, Word("IN"))], false) == Edit([Token(true, Word("IN"))], 1)
    ensures Mode([Token(true, Word("IN"))][..1], false) == false && PlainEnd([Token(true, Word("IN"))])
  {
    var z := [Token(true, Word("IN"))];
    ModeFirst(z, false);
  }

  lemma TypesRewrite11()
    ensures Rewrite([Token(true, Sym("(")), Token(false, Word("test1"))], false) == Edit([Token(true, Sym("("))], 1)
    ensures Mode([Token(true, Sym("(")), Token(false, Word("test1"))][..1], false) == false && PlainEnd([Token(true, Sym("(")), Token(false, Word("test1"))])
  {
    var z := [Token(true, Sym("(")), Token(false, Word("test1"))];
    ModeFirst(z, false);
  }

  lemma TypesRewrite12()
    ensures Rewrite([Token(false, Word("test1"))], false) == Edit([Token(false, Word("test1"))], 1)
    ensures Mode([Token(false, Word("test1"))][..1], false) == false && PlainEnd([Token(false, Word("test1"))])
  {
    var z := [Token(false, Word("test1"))];
    ModeFirst(z, false);
  }

  lemma TypesRewrite13()
    ensures Rewrite([Token(false, Sym(",")), Token(true, Word("test2"))], false) == Edit([Token(false, Sym(","))], 1)
    ensures Mode([Token(false, Sym(",")), Token(true, Word("test2"))][..1], false) == false && PlainEnd([Token(false, Sym(",")), Token(true, Word("test2"))])
  {
    var z := [Token(false, Sym(",")), Token(true, Word("test2"))];
    ModeFirst(z, false);
  }

  lemma TypesRewrite14()
    ensures Rewrite([Token(true, Word("test2"))], false) == Edit([Token(true, Word("test2"))], 1)
    ensures Mode([Token(true, Word("test2"))][..1], false) == false && PlainEnd([Token(true, Word("test2"))])
  {
    var z := [Token(true, Word("test2"))];
    ModeFirst(z, false);
  }

  lemma TypesWindow10(ts: seq<Token>, out: seq<Token>)
    requires Agrees(ts, TypesTokens) && Agrees(out, TypesMasked)
    ensures |ts| == 18 && |out| == 18
    ensures ts[10..11] == [Token(true, Word("IN"))]
    ensures out[10..11] == [Token(true, Word("IN"))]
  {
    assert ts[10] == TypesTokens[10] == Token(true, Word("IN"));
    assert out[10] == TypesMasked[10] == Token(true, Word("IN"));
  }

  lemma TypesWindow11(ts: seq<Token>, out: seq<Token>)
    requires Agrees(ts, TypesTokens) && Agrees(out, TypesMasked)
    ensures |ts| == 18 && |out| == 18
    ensures ts[11..13] == [Token(true, Sym("(")), Token(false, Word("test1"))]
    ensures out[11..12] == [Token(true, Sym("("))]
  {
    assert ts[11] == TypesTokens[11] == Token(true, Sym("("));
    assert ts[12] == TypesTokens[12] == Token(false, Word("test1"));
    assert out[11] == TypesMasked[11] == Token(true, Sym("("));
  }

  lemma TypesWindow12(ts: seq<Token>, out: seq<Token>)
    requires Agrees(ts, TypesTokens) && Agrees(out, TypesMasked)
    ensures |ts| == 18 && |out| == 18
    ensures ts[12..13] == [Token(false, Word("test1"))]
    ensures out[12..13] == [Token(false, Word("test1"))]
  {
    assert ts[12] == TypesTokens[12] == Token(false, Word("test1"));
    assert out[12] == TypesMasked[12] == Token(false, Word("test1"));
  }

  lemma TypesWindow13(ts: seq<Token>, out: seq<Token>)
    requires Agrees(ts, TypesTokens) && Agrees(out, TypesMasked)
    ensures |ts| == 18 && |out| == 18
    ensures ts[13..15] == [Token(false, Sym(",")), Token(true, Word("test2"))]
    ensures out[13..14] == [Token(false, Sym(","))]
  {
    assert ts[13] == TypesTokens[13] == Token(false, Sym(","));
    assert ts[14] == TypesTokens[14] == Token(true, Word("test2"));
    assert out[13] == TypesMasked[13] == Token(false, Sym(","));
  }

  lemma TypesWindow14(ts: seq<Token>, out: seq<Token>)
    requires Agrees(ts, TypesTokens) && Agrees(out, TypesMasked)
    ensures |ts| == 18 && |out| == 18
    ensures ts[14..15] == [Token(true, Word("test2"))]
    ensures out[14..15] == [Token(true, Word("test2"))]
  {
    assert ts[14] == TypesTokens[14] == Token(true, Word("test2"));
    assert out[14] == TypesMasked[14] == Token(true, Word("test2"));
  }

  lemma TypesStep10(ts: seq<Token>, out: seq<Token>)
    requires Agrees(ts, TypesTokens) && Agrees(out, TypesMasked)
    requires MaskedFrom(ts, out, 11, 11, false)
    ensures MaskedFrom(ts, out, 10, 10, false)
  {
    TypesRewrite10();
    TypesWindow10(ts, out);
    MaskAt(ts, out, 10, 10, false,
      [Token(true, Word("IN"))],
      Step([Token(true, Word("IN"))], 1, false));
  }

  lemma TypesStep11(ts: seq<Token>, out: seq<Token>)
    requires Agrees(ts, TypesTokens) && Agrees(out, TypesMasked)
    requires MaskedFrom(ts, out, 12, 12, false)
    ensures MaskedFrom(ts, out, 11, 11, false)
  {
    TypesRewrite11();
    TypesWindow11(ts, out);
    MaskAt(ts, out, 11, 11, false,
      [Token(true, Sym("(")), Token(false, Word("test1"))],
      Step([Token(true, Sym("("))], 1, false));
  }

  lemma TypesStep12(ts: seq<Token>, out: seq<Token>)
    requires Agrees(ts, TypesTokens) && Agrees(out, TypesMasked)
    requires MaskedFrom(ts, out, 13, 13, false)
    ensures MaskedFrom(ts, out, 12, 12, false)
  {
    TypesRewrite12();
    TypesWindow12(ts, out);
    MaskAt(ts, out, 12, 12, false,
      [Token(false, Word("test1"))],
      Step([Token(false, Word("test1"))], 1, false));
  }

  lemma TypesStep13(ts: seq<Token>, out: seq<Token>)
    requires Agrees(ts, TypesTokens) && Agrees(out, TypesMasked)
    requires MaskedFrom(ts, out, 14, 14, false)
    ensures MaskedFrom(ts, out, 13, 13, false)
  {
    TypesRewrite13();
    TypesWindow13(ts, out);
    MaskAt(ts, out, 13, 13, false,
      [Token(false, Sym(",")), Token(true, Word("test2"))],
      Step([Token(false, Sym(","))], 1, false));
  }

  lemma TypesStep14(ts: seq<Token>, out: seq<Token>)
    requires Agrees(ts, TypesTokens) && Agrees(out, TypesMasked)
    requires MaskedFrom(ts, out, 15, 15, false)
    ensures MaskedFrom(ts, out, 14, 14, false)
  {
    TypesRewrite14();
    TypesWindow14(ts, out);
    MaskAt(ts, out, 14, 14, false,
      [Token(true, Word("test2"))],
      Step([Token(true, Word("test2"))], 1, false));
  }

  lemma TypesRewrite5()
    ensures Rewrite([Token(true, Word("pg_type"))], false) == Edit([Token(true, Word("pg_type"))], 1)
    ensures Mode([Token(true, Word("pg_type"))][..1], false) == false && PlainEnd([Token(true, Word("pg_type"))])
  {
    var z := [Token(true, Word("pg_type"))];
    ModeFirst(z, false);
  }

  lemma TypesRewrite6()
    ensures Rewrite([Token(true, Word("as"))], false) == Edit([Token(true, Word("as"))], 1)
    ensures Mode([Token(true, Word("as"))][..1], false) == false && PlainEnd([Token(true, Word("as"))])
  {
    var z := [Token(true, Word("as"))];
    ModeFirst(z, false);
  }

  lemma TypesRewrite7()
    ensures Rewrite([Token(true, Word("t"))], false) == Edit([Token(true, Word("t"))], 1)
    ensures Mode([Token(true, Word("t"))][..1], false) == false && PlainEnd([Token(true, Word("t"))])
  {
    var z := [Token(true, Word("t"))];
    ModeFirst(z, false);
  }

  lemma TypesRewrite8()
    ensures Rewrite([Token(true, Word("WHERE"))], false) == Edit([Token(true, Word("WHERE"))], 1)
    ensures Mode([Token(true, Word("WHERE"))][..1], false) == false && PlainEnd([Token(true, Word("WHERE"))])
  {
    var z := [Token(true, Word("WHERE"))];
    ModeFirst(z, false);
  }

  lemma TypesRewrite9()
    ensures Rewrite([Token(true, Word("t.typname"))], false) == Edit([Token(true, Word("t.typname"))], 1)
    ensures Mode([Token(true, Word("t.typname"))][..1], false) == false && PlainEnd([Token(true, Word("t.typname"))])
  {
    var z := [Token(true, Word("t.typname"))];
    ModeFirst(z, false);
  }

  lemma TypesWindow5(ts: seq<Token>, out: seq<Token>)
    requires Agrees(ts, TypesTokens) && Agrees(out, TypesMasked)
    ensures |ts| == 18 && |out| == 18
    ensures ts[5..6] == [Token(true, Word("pg_type"))]
    ensures out[5..6] == [Token(true, Word("pg_type"))]
  {
    assert ts[5] == TypesTokens[5] == Token(true, Word("pg_type"));
    assert out[5] == TypesMasked[5] == Token(true, Word("pg_type"));
  }

  lemma TypesWindow6(ts: seq<Token>, out: seq<Token>)
    requires Agrees(ts, TypesTokens) && Agrees(out, TypesMasked)
    ensures |ts| == 18 && |out| == 18
    ensures ts[6..7] == [Token(true, Word("as"))]
    ensures out[6..7] == [Token(true, Word("as"))]
  {
    assert ts[6] == TypesTokens[6] == Token(true, Word("as"));
    assert out[6] == TypesMasked[6] == Token(true, Word("as"));
  }

  lemma TypesWindow7(ts: seq<Token>, out: seq<Token>)
    requires Agrees(ts, TypesTokens) && Agrees(out, TypesMasked)
    ensures |ts| == 18 && |out| == 18
    ensures ts[7..8] == [Token(true, Word("t"))]
    ensures out[7..8] == [Token(true, Word("t"))]
  {
    assert ts[7] == TypesTokens[7] == Token(true, Word("t"));
    assert out[7] == TypesMasked[7] == Token(true, Word("t"));
  }

  lemma TypesWindow8(ts: seq<Token>, out: seq<Token>)
    requires Agrees(ts, TypesTokens) && Agrees(out, TypesMasked)
    ensures |ts| == 18 && |out| == 18
    ensures ts[8..9] == [Token(true, Word("WHERE"))]
    ensures out[8..9] == [Token(true, Word("WHERE"))]
  {
    assert ts[8] == TypesTokens[8] == Token(true, Word("WHERE"));
    assert out[8] == TypesMasked[8] == Token(true, Word("WHERE"));
  }

  lemma TypesWindow9(ts: seq<Token>, out: seq<Token>)
    requires Agrees(ts, TypesTokens) && Agrees(out, TypesMasked)
    ensures |ts| == 18 && |out| == 18
    ensures ts[9..10] == [Token(true, Word("t.typname"))]
    ensures out[9..10] == [Token(true, Word("t.typname"))]
  {
    assert ts[9] == TypesTokens[9] == Token(true, Word("t.typname"));
    assert out[9] == TypesMasked[9] == Token(true, Word("t.typname"));
  }

  lemma TypesStep5(ts: seq<Token>, out: seq<Token>)
    requires Agrees(ts, TypesTokens) && Agrees(out, TypesMasked)
    requires MaskedFrom(ts, out, 6, 6, false)
    ensures MaskedFrom(ts, out, 5, 5, false)
  {
    TypesRewrite5();
    TypesWindow5(ts, out);
    MaskAt(ts, out, 5, 5, false,
      [Token(true, Word("pg_type"))],
      Step([Token(true, Word("pg_type"))], 1, false));
  }

  lemma TypesStep6(ts: seq<Token>, out: seq<Token>)
    requires Agrees(ts, TypesTokens) && Agrees(out, TypesMasked)
    requires MaskedFrom(ts, out, 7, 7, false)
    ensures MaskedFrom(ts, out, 6, 6, false)
  {
    TypesRewrite6();
    TypesWindow6(ts, out);
    MaskAt(ts, out, 6, 6, false,
      [Token(true, Word("as"))],
      Step([Token(true, Word("as"))], 1, false));
  }

  lemma TypesStep7(ts: seq<Token>, out: seq<Token>)
    requires Agrees(ts, TypesTokens) && Agrees(out, TypesMasked)
    requires MaskedFrom(ts, out, 8, 8, false)
    ensures MaskedFrom(ts, out, 7, 7, false)
  {
    TypesRewrite7();
    TypesWindow7(ts, out);
    MaskAt(ts, out, 7, 7, false,
      [Token(true, Word("t"))],
      Step([Token(true, Word("t"))], 1, false));
  }

  lemma TypesStep8(ts: seq<Token>, out: seq<Token>)
    requires Agrees(ts, TypesTokens) && Agrees(out, TypesMasked)
    requires MaskedFrom(ts, out, 9, 9, false)
    ensures MaskedFrom(ts, out, 8, 8, false)
  {
    TypesRewrite8();
    TypesWindow8(ts, out);
    MaskAt(ts, out, 8, 8, false,
      [Token(true, Word("WHERE"))],
      Step([Token(true, Word("WHERE"))], 1, false));
  }

  lemma TypesStep9(ts: seq<Token>, out: seq<Token>)
    requires Agrees(ts, TypesTokens) && Agrees(out, TypesMasked)
    requires MaskedFrom(ts, out, 10, 10, false)
    ensures MaskedFrom(ts, out, 9, 9, false)
  {
    TypesRewrite9();
    TypesWindow9(ts, out);
    MaskAt(ts, out, 9, 9, false,
      [Token(true, Word("t.typname"))],
      Step([Token(true, Word("t.typname"))], 1, false));
  }

  lemma TypesRewrite0()
    ensures Rewrite([Token(false, Word("SELECT"))], false) == Edit([Token(false, Word("SELECT"))], 1)
    ensures Mode([Token(false, Word("SELECT"))][..1], false) == false && PlainEnd([Token(false, Word("SELECT"))])
  {
    var z := [Token(false, Word("SELECT"))];
    ModeFirst(z, false);
  }

  lemma TypesRewrite1()
    ensures Rewrite([Token(true, Word("t.oid"))], false) == Edit([Token(true, Word("t.oid"))], 1)
    ensures Mode([Token(true, Word("t.oid"))][..1], false) == false && PlainEnd([Token(true, Word("t.oid"))])
  {
    var z := [Token(true, Word("t.oid"))];
    ModeFirst(z, false);
  }

  lemma TypesRewrite2()
    ensures Rewrite([Token(false, Sym(",")), Token(true, Word("t.typname"))], false) == Edit([Token(false, Sym(","))], 1)
    ensures Mode([Token(false, Sym(",")), Token(true, Word("t.typname"))][..1], false) == false && PlainEnd([Token(false, Sym(",")), Token(true, Word("t.typname"))])
  {
    var z := [Token(false, Sym(",")), Token(true, Word("t.typname"))];
    ModeFirst(z, false);
  }

  lemma TypesRewrite3()
    ensures Rewrite([Token(true, Word("t.typname"))], false) == Edit([Token(true, Word("t.typname"))], 1)
    ensures Mode([Token(true, Word("t.typname"))][..1], false) == false && PlainEnd([Token(true, Word("t.typname"))])
  {
    var z := [Token(true, Word("t.typname"))];
    ModeFirst(z, false);
  }

  lemma TypesRewrite4()
    ensures Rewrite([Token(true, Word("FROM"))], false) == Edit([Token(true, Word("FROM"))], 1)
    ensures Mode([Token(true, Word("FROM"))][..1], false) == false && PlainEnd([Token(true, Word("FROM"))])
  {
    var z := [Token(true, Word("FROM"))];
    ModeFirst(z, false);
  }

  lemma TypesWindow0(ts: seq<Token>, out: seq<Token>)
    requires Agrees(ts, TypesTokens) && Agrees(out, TypesMasked)
    ensures |ts| == 18 && |out| == 18
    ensures ts[0..1] == [Token(false, Word("SELECT"))]
    ensures out[0..1] == [Token(false, Word("SELECT"))]
  {
    assert ts[0] == TypesTokens[0] == Token(false, Word("SELECT"));
    assert out[0] == TypesMasked[0] == Token(false, Word("SELECT"));
  }

  lemma TypesWindow1(ts: seq<Token>, out: seq<Token>)
    requires Agrees(ts, TypesTokens) && Agrees(out, TypesMasked)
    ensures |ts| == 18 && |out| == 18
    ensures ts[1..2] == [Token(true, Word("t.oid"))]
    ensures out[1..2] == [Token(true, Word("t.oid"))]
  {
    assert ts[1] == TypesTokens[1] == Token(true, Word("t.oid"));
    assert out[1] == TypesMasked[1] == Token(true, Word("t.oid"));
  }

  lemma TypesWindow2(ts: seq<Token>, out: seq<Token>)
    requires Agrees(ts, TypesTokens) && Agrees(out, TypesMasked)
    ensures |ts| == 18 && |out| == 18
    ensures ts[2..4] == [Token(false, Sym(",")), Token(true, Word("t.typname"))]
    ensures out[2..3] == [Token(false, Sym(","))]
  {
    assert ts[2] == TypesTokens[2] == Token(false, Sym(","));
    assert ts[3] == TypesTokens[3] == Token(true, Word("t.typname"));
    assert out[2] == TypesMasked[2] == Token(false, Sym(","));
  }

  lemma TypesWindow3(ts: seq<Token>, out: seq<Token>)
    requires Agrees(ts, TypesTokens) && Agrees(out, TypesMasked)
    ensures |ts| == 18 && |out| == 18
    ensures ts[3..4] == [Token(true, Word("t.typname"))]
    ensures out[3..4] == [Token(true, Word("t.typname"))]
  {
    assert ts[3] == TypesTokens[3] == Token(true, Word("t.typname"));
    assert out[3] == TypesMasked[3] == Token(true, Word("t.typname"));
  }

  lemma TypesWindow4(ts: seq<Token>, out: seq<Token>)
    requires Agrees(ts, TypesTokens) && Agrees(out, TypesMasked)
    ensures |ts| == 18 && |out| == 18
    ensures ts[4..5] == [Token(true, Word("FROM"))]
    ensures out[4..5] == [Token(true, Word("FROM"))]
  {
    assert ts[4] == TypesTokens[4] == Token(true, Word("FROM"));
    assert out[4] == TypesMasked[4] == Token(true, Word("FROM"));
  }

  lemma TypesStep0(ts: seq<Token>, out: seq<Token>)
    requires Agrees(ts, TypesTokens) && Agrees(out, TypesMasked)
    requires MaskedFrom(ts, out, 1, 1, false)
    ensures MaskedFrom(ts, out, 0, 0, false)
  {
    TypesRewrite0();
    TypesWindow0(ts, out);
    MaskAt(ts, out, 0, 0, false,
      [Token(false, Word("SELECT"))],
      Step([Token(false, Word("SELECT"))], 1, false));
  }

  lemma TypesStep1(ts: seq<Token>, out: seq<Token>)
    requires Agrees(ts, TypesTokens) && Agrees(out, TypesMasked)
    requires MaskedFrom(ts, out, 2, 2, false)
    ensures MaskedFrom(ts, out, 1, 1, false)
  {
    TypesRewrite1();
    TypesWindow1(ts, out);
    MaskAt(ts, out, 1, 1, false,
      [Token(true, Word("t.oid"))],
      Step([Token(true, Word("t.oid"))], 1, false));
  }

  lemma TypesStep2(ts: seq<Token>, out: seq<Token>)
    requires Agrees(ts, TypesTokens) && Agrees(out, TypesMasked)
    requires MaskedFrom(ts, out, 3, 3, false)
    ensures MaskedFrom(ts, out, 2, 2, false)
  {
    TypesRewrite2();
    TypesWindow2(ts, out);
    MaskAt(ts, out, 2, 2, false,
      [Token(false, Sym(",")), Token(true, Word("t.typname"))],
      Step([Token(false, Sym(","))], 1, false));
  }

  lemma TypesStep3(ts: seq<Token>, out: seq<Token>)
    requires Agrees(ts, TypesTokens) && Agrees(out, TypesMasked)
    requires MaskedFrom(ts, out, 4, 4, false)
    ensures MaskedFrom(ts, out, 3, 3, false)
  {
    TypesRewrite3();
    TypesWindow3(ts, out);
    MaskAt(ts, out, 3, 3, false,
      [Token(true, Word("t.typname"))],
      Step([Token(true, Word("t.typname"))], 1, false));
  }

  lemma TypesStep4(ts: seq<Token>, out: seq<Token>)
    requires Agrees(ts, TypesTokens) && Agrees(out, TypesMasked)
    requires MaskedFrom(ts, out, 5, 5, false)
    ensures MaskedFrom(ts, out, 4, 4, false)
  {
    TypesRewrite4();
    TypesWindow4(ts, out);
    MaskAt(ts, out, 4, 4, false,
      [Token(true, Word("FROM"))],
      Step([Token(true, Word("FROM"))], 1, false));
  }

  lemma TypesMasking(ts: seq<Token>, out: seq<Token>)
    requires Agrees(ts, TypesTokens) && Agrees(out, TypesMasked)
    ensures MaskedFrom(ts, out, 0, 0, false)
  {
    TypesStep17(ts, out);
    TypesStep16(ts, out);
    TypesStep15(ts, out);
    TypesStep14(ts, out);
    TypesStep13(ts, out);
    TypesStep12(ts, out);
    TypesStep11(ts, out);
    TypesStep10(ts, out);
    TypesStep9(ts, out);
    TypesStep8(ts, out);
    TypesStep7(ts, out);
    TypesStep6(ts, out);
    TypesStep5(ts, out);
    TypesStep4(ts, out);
    TypesStep3(ts, out);
    TypesStep2(ts, out);
    TypesStep1(ts, out);
    TypesStep0(ts, out);
  }

  lemma TypesOutput1(out: seq<Token>, es: seq<string>)
    requires Agrees(out, TypesMasked) && Agrees(es, TypesCleaned)
    ensures |out| == 18 && |es| == 18
    ensures es[0] == RenderToken(out[0])
    ensures es[1] == RenderToken(out[1])
    ensures es[2] == RenderToken(out[2])
    ensures es[3] == RenderToken(out[3])
  {
    assert out[0] == TypesMasked[0] == Token(false, Word("SELECT"));
    assert es[0] == TypesCleaned[0] == "SELECT";
    assert out[1] == TypesMasked[1] == Token(true, Word("t.oid"));
    assert es[1] == TypesCleaned[1] == " t.oid";
    assert out[2] == TypesMasked[2] == Token(false, Sym(","));
    assert es[2] == TypesCleaned[2] == ",";
    assert out[3] == TypesMasked[3] == Token(true, Word("t.typname"));
    assert es[3] == TypesCleaned[3] == " t.typname";
  }

  lemma TypesRendered1(out: seq<Token>, es: seq<string>)
    requires Agrees(out, TypesMasked) && Agrees(es, TypesCleaned)
    ensures Rendered(out, es, 4)
  {
    TypesOutput1(out, es);
    RenderedStart(out, es);
    RenderedNext(out, es, 0);
    RenderedNext(out, es, 1);
    RenderedNext(out, es, 2);
    RenderedNext(out, es, 3);
  }

  lemma TypesOutput2(out: seq<Token>, es: seq<string>)
    requires Agrees(out, TypesMasked) && Agrees(es, TypesCleaned)
    ensures |out| == 18 && |es| == 18
    ensures es[4] == RenderToken(out[4])
    ensures es[5] == RenderToken(out[5])
    ensures es[6] == RenderToken(out[6])
    ensures es[7] == RenderToken(out[7])
  {
    assert out[4] == TypesMasked[4] == Token(true, Word("FROM"));
    assert es[4] == TypesCleaned[4] == " FROM";
    assert out[5] == TypesMasked[5] == Token(true, Word("pg_type"));
    assert es[5] == TypesCleaned[5] == " pg_type";
    assert out[6] == TypesMasked[6] == Token(true, Word("as"));
    assert es[6] == TypesCleaned[6] == " as";
    assert out[7] == TypesMasked[7] == Token(true, Word("t"));
    assert es[7] == TypesCleaned[7] == " t";
  }

  lemma TypesRendered2(out: seq<Token>, es: seq<string>)
    requires Agrees(out, TypesMasked) && Agrees(es, TypesCleaned)
    requires Rendered(out, es, 4)
    ensures Rendered(out, es, 8)
  {
    TypesOutput2(out, es);
    RenderedNext(out, es, 4);
    RenderedNext(out, es, 5);
    RenderedNext(out, es, 6);
    RenderedNext(out, es, 7);
  }

  lemma TypesOutput3(out: seq<Token>, es: seq<string>)
    requires Agrees(out, TypesMasked) && Agrees(es, TypesCleaned)
    ensures |out| == 18 && |es| == 18
    ensures es[8] == RenderToken(out[8])
    ensures es[9] == RenderToken(out[9])
    ensures es[10] == RenderToken(out[10])
    ensures es[11] == RenderToken(out[11])
  {
    assert out[8] == TypesMasked[8] == Token(true, Word("WHERE"));
    assert es[8] == TypesCleaned[8] == " WHERE";
    assert out[9] == TypesMasked[9] == Token(true, Word("t.typname"));
    assert es[9] == TypesCleaned[9] == " t.typname";
    assert out[10] == TypesMasked[10] == Token(true, Word("IN"));
    assert es[10] == TypesCleaned[10] == " IN";
    assert out[11] == TypesMasked[11] == Token(true, Sym("("));
    assert es[11] == TypesCleaned[11] == " (";
  }

  lemma TypesRendered3(out: seq<Token>, es: seq<string>)
    requires Agrees(out, TypesMasked) && Agrees(es, TypesCleaned)
    requires Rendered(out, es, 8)
    ensures Rendered(out, es, 12)
  {
    TypesOutput3(out, es);
    RenderedNext(out, es, 8);
    RenderedNext(out, es, 9);
    RenderedNext(out, es, 10);
    RenderedNext(out, es, 11);
  }

  lemma TypesOutput4(out: seq<Token>, es: seq<string>)
    requires Agrees(out, TypesMasked) && Agrees(es, TypesCleaned)
    ensures |out| == 18 && |es| == 18
    ensures es[12] == RenderToken(out[12])
    ensures es[13] == RenderToken(out[13])
    ensures es[14] == RenderToken(out[14])
    ensures es[15] == RenderToken(out[15])
  {
    assert out[12] == TypesMasked[12] == Token(false, Word("test1"));
    assert es[12] == TypesCleaned[12] == "test1";
    assert out[13] == TypesMasked[13] == Token(false, Sym(","));
    assert es[13] == TypesCleaned[13] == ",";
    assert out[14] == TypesMasked[14] == Token(true, Word("test2"));
    assert es[14] == TypesCleaned[14] == " test2";
    assert out[15] == TypesMasked[15] == Token(false, Sym(","));
    assert es[15] == TypesCleaned[15] == ",";
  }

  lemma TypesRendered4(out: seq<Token>, es: seq<string>)
    requires Agrees(out, TypesMasked) && Agrees(es, TypesCleaned)
    requires Rendered(out, es, 12)
    ensures Rendered(out, es, 16)
  {
    TypesOutput4(out, es);
    RenderedNext(out, es, 12);
    RenderedNext(out, es, 13);
    RenderedNext(out, es, 14);
    RenderedNext(out, es, 15);
  }

  lemma TypesOutput5(out: seq<Token>, es: seq<string>)
    requires Agrees(out, TypesMasked) && Agrees(es, TypesCleaned)
    ensures |out| == 18 && |es| == 18
    ensures es[16] == RenderToken(out[16])
    ensures es[17] == RenderToken(out[17])
  {
    assert out[16] == TypesMasked[16] == Token(true, Word("test3"));
    assert es[16] == TypesCleaned[16] == " test3";
    assert out[17] == TypesMasked[17] == Token(false, Sym(")"));
    assert es[17] == TypesCleaned[17] == ")";
  }

  lemma TypesRendered5(out: seq<Token>, es: seq<string>)
    requires Agrees(out, TypesMasked) && Agrees(es, TypesCleaned)
    requires Rendered(out, es, 16)
    ensures Rendered(out, es, 18)
  {
    TypesOutput5(out, es);
    RenderedNext(out, es, 16);
    RenderedNext(out, es, 17);
  }

  lemma TypesRendering(out: seq<Token>, es: seq<string>)
    requires Agrees(out, TypesMasked) && Agrees(es, TypesCleaned)
    ensures Rendered(out, es, |out|) && |es| == |out|
  {
    TypesRendered1(out, es);
    TypesRendered2(out, es);
    TypesRendered3(out, es);
    TypesRendered4(out, es);
    TypesRendered5(out, es);
  }

  lemma TypesByPieces(qs: seq<string>, ts: seq<Token>, out: seq<Token>, es: seq<string>)
    requires Agrees(qs, TypesQuery) && Agrees(ts, TypesTokens)
    requires Agrees(out, TypesMasked) && Agrees(es, TypesCleaned)
    ensures CleanSqlQuery(Join(qs)) == Join(es)
  {
    TypesLexing(qs, ts);
    TypesMasking(ts, out);
    TypesRendering(out, es);
    CleanByPieces(qs, ts, out, es);
  }

  lemma CleanTypes()
    ensures CleanSqlQuery(Join(TypesQuery)) == Join(TypesCleaned)
  {
    TypesByPieces(TypesQuery, TypesTokens, TypesMasked, TypesCleaned);
  }

  /** The joined text opens with its first two pieces. */
  lemma JoinFront(ps: seq<string>) returns (rest: string)
    requires 2 <= |ps|
    ensures Join(ps) == ps[0] + ps[1] + rest
  {
    JoinCons(ps);
    JoinCons(ps[1..]);
    assert ps[1..][0] == ps[1] && ps[1..][1..] == ps[2..];
    rest := Join(ps[2..]);
  }

  /** A statement whose first piece is a word and whose second piece opens
      with whitespace runs the command that word names. */
  lemma CommandOfPieces(qs: seq<string>)
    requires 2 <= |qs| && qs[0] != [] && NoSpaceFrom(qs[0], 0)
    requires qs[1] != [] && IsSpace(qs[1][0])
    ensures Command(Join(qs)) == Upper(qs[0])
  {
    var rest := JoinFront(qs);
    assert "" + qs[0] + (qs[1] + rest) == Join(qs);
    CommandOf("", qs[0], qs[1] + rest);
  }

  /** The character of a statement's key at position `j` of the second
      piece of its cleaned text. */
  lemma KeyHead(q: string, es: seq<string>, j: nat)
    requires CleanSqlQuery(q) == Join(es)
    requires 2 <= |es| && j < |es[1]|
    ensures |es[0]| + j < |Key(q)| && Key(q)[|es[0]| + j] == LowerChar(es[1][j])
  {
    var rest := JoinFront(es);
    LowerAt(Join(es));
    assert Join(es)[|es[0]| + j] == es[1][j];
  }

  lemma UsersCommand(qs: seq<string>)
    requires Agrees(qs, UsersQuery)
    ensures Command(Join(qs)) == "SELECT"
  {
    EqualsUpperIsUpper("SELECT", "SELECT");
    assert qs[0] == UsersQuery[0] == "SELECT";
    assert qs[1] == UsersQuery[1] == " *";
    CommandOfPieces(qs);
  }

  lemma UsersMixedCommand(qs: seq<string>)
    requires Agrees(qs, UsersMixedQuery)
    ensures Command(Join(qs)) == "SELECT"
  {
    EqualsUpperIsUpper("select", "SELECT");
    assert qs[0] == UsersMixedQuery[0] == "select";
    assert qs[1] == UsersMixedQuery[1] == " *";
    CommandOfPieces(qs);
  }

  lemma ProductsCommand(qs: seq<string>)
    requires Agrees(qs, ProductsQuery)
    ensures Command(Join(qs)) == "SELECT"
  {
    EqualsUpperIsUpper("select", "SELECT");
    assert qs[0] == ProductsQuery[0] == "select";
    assert qs[1] == ProductsQuery[1] == " id";
    CommandOfPieces(qs);
  }

  lemma TypesCommand(qs: seq<string>)
    requires Agrees(qs, TypesQuery)
    ensures Command(Join(qs)) == "SELECT"
  {
    EqualsUpperIsUpper("SELECT", "SELECT");
    assert qs[0] == TypesQuery[0] == "SELECT";
    assert qs[1] == TypesQuery[1] == " t.oid";
    CommandOfPieces(qs);
  }

  /** Every statement of the tracking tests runs the SELECT command. */
  lemma SelectCommands()
    ensures Command(Join(UsersQuery)) == "SELECT"
    ensures Command(Join(UsersMixedQuery)) == "SELECT"
    ensures Command(Join(ProductsQuery)) == "SELECT"
    ensures Command(Join(TypesQuery)) == "SELECT"
  {
    UsersCommand(UsersQuery);
    UsersMixedCommand(UsersMixedQuery);
    ProductsCommand(ProductsQuery);
    TypesCommand(TypesQuery);
  }

  /** A handler tracking SELECT accepts a SELECT statement. */
  lemma SelectAdmits(q: string, config: Option<Config>)
    requires Command(q) == "SELECT" && config == Some(Config(true, ["SELECT"]))
    ensures Accepts(config, q)
  {
    EqualsUpperIsUpper("SELECT", "SELECT");
    assert Upper(config.value.trackedSqlCommand[0]) == "SELECT";
  }

  /** A handler tracking INSERT and SELECT accepts a SELECT statement. */
  lemma BothAdmit(q: string, config: Option<Config>)
    requires Command(q) == "SELECT" && config == Some(Config(true, ["INSERT", "SELECT"]))
    ensures Accepts(config, q)
  {
    EqualsUpperIsUpper("SELECT", "SELECT");
    assert Upper(config.value.trackedSqlCommand[1]) == "SELECT";
  }

  /** A handler tracking only INSERT turns a SELECT statement away. */
  lemma InsertRejects(q: string, config: Option<Config>)
    requires Command(q) == "SELECT" && config == Some(Config(true, ["INSERT"]))
    ensures !Accepts(config, q)
  {
    EqualsUpperIsUpper("INSERT", "INSERT");
    assert Upper(config.value.trackedSqlCommand[0]) == "INSERT";
  }

  lemma LowerAlike(a: string, b: string)
    requires |a| == |b| && SameLowerFrom(a, b, 0)
    ensures Lower(a) == Lower(b)
  {
    SameLower(a, b, 0);
    assert a[0..] == a && b[0..] == b;
  }

  lemma SameLowerFour(ps: seq<string>, qs: seq<string>)
    requires |ps| == |qs| == 4
    requires Lower(ps[0]) == Lower(qs[0]) && Lower(ps[1]) == Lower(qs[1])
    requires Lower(ps[2]) == Lower(qs[2]) && Lower(ps[3]) == Lower(qs[3])
    ensures Lower(Join(ps)) == Lower(Join(qs))
  {
    JoinSameLower(ps, qs);
  }

  /** The cleaned pieces of the two spellings fold alike, piece by piece. */
  lemma UsersSpellings(ps: seq<string>, qs: seq<string>)
    requires |ps| == |qs| == 4 && ps[1] == qs[1]
    requires ps[0] == "SELECT" && ps[2] == " FROM" && ps[3] == " users"
    requires qs[0] == "select" && qs[2] == " from" && qs[3] == " Users"
    ensures Lower(Join(ps)) == Lower(Join(qs))
  {
    LowerAlike("SELECT", "select");
    LowerAlike(" FROM", " from");
    LowerAlike(" users", " Users");
    SameLowerFour(ps, qs);
  }

  /** Statements whose cleaned texts fold alike have one key. */
  lemma KeysAlike(q1: string, q2: string, ps: seq<string>, qs: seq<string>)
    requires CleanSqlQuery(q1) == Join(ps) && CleanSqlQuery(q2) == Join(qs)
    requires Lower(Join(ps)) == Lower(Join(qs))
    ensures Key(q1) == Key(q2)
  {
  }

  /** The two spellings of the users query share one key. */
  lemma UsersSameKey()
    ensures Key(Join(UsersQuery)) == Key(Join(UsersMixedQuery))
  {
    CleanUsers();
    CleanUsersMixed();
    var ps, qs := UsersCleaned, UsersMixedCleaned;
    assert ps[0] == "SELECT" && ps[1] == " *" && ps[2] == " FROM" && ps[3] == " users";
    assert qs[0] == "select" && qs[1] == " *" && qs[2] == " from" && qs[3] == " Users";
    UsersSpellings(ps, qs);
    KeysAlike(Join(UsersQuery), Join(UsersMixedQuery), ps, qs);
  }

  /** The eighth character of a key whose cleaned text opens with a piece of
      six characters followed by `p`. */
  lemma KeyEighth(q: string, es: seq<string>, p: string, c: char)
    requires 2 <= |es| && |es[0]| == 6 && es[1] == p && 1 < |p| && p[1] == c && !IsUpper(c)
    requires CleanSqlQuery(q) == Join(es)
    ensures 7 < |Key(q)| && Key(q)[7] == c
  {
    KeyHead(q, es, 1);
  }

  lemma UsersKey(q: string)
    requires CleanSqlQuery(q) == Join(UsersCleaned)
    ensures 7 < |Key(q)| && Key(q)[7] == '*'
  {
    assert |UsersCleaned[0]| == 6 && UsersCleaned[1] == " *";
    KeyEighth(q, UsersCleaned, " *", '*');
  }

  lemma ProductsKey(q: string)
    requires CleanSqlQuery(q) == Join(ProductsCleaned)
    ensures 7 < |Key(q)| && Key(q)[7] == 'i'
  {
    assert |ProductsCleaned[0]| == 6 && ProductsCleaned[1] == " id";
    KeyEighth(q, ProductsCleaned, " id", 'i');
  }

  lemma TypesHead()
    ensures 2 <= |TypesCleaned| && TypesCleaned[0] == "SELECT" && TypesCleaned[1] == " t.oid"
  {
    assert |TypesCleaned1| == 8;
  }

  /** The statements of test_should_track_sql_command_in_the_list run SELECT
      and have three different keys. */
  lemma ListedStatements()
    ensures Command(Join(UsersQuery)) == Command(Join(ProductsQuery)) == Command(Join(TypesQuery)) == "SELECT"
    ensures Key(Join(UsersQuery)) != Key(Join(ProductsQuery))
    ensures Key(Join(TypesQuery)) != Key(Join(UsersQuery)) && Key(Join(TypesQuery)) != Key(Join(ProductsQuery))
  {
    SelectCommands();
    CleanUsers();
    UsersKey(Join(UsersQuery));
    CleanProducts();
    ProductsKey(Join(ProductsQuery));
    CleanTypes();
    TypesHead();
    KeyEighth(Join(TypesQuery), TypesCleaned, " t.oid", 't');
  }

  /** The statements of test_query_count_should_be_case_insensitive run
      SELECT and share one key. */
  lemma SpelledStatements()
    ensures Command(Join(UsersQuery)) == Command(Join(UsersMixedQuery)) == "SELECT"
    ensures Key(Join(UsersQuery)) == Key(Join(UsersMixedQuery))
  {
    SelectCommands();
    UsersSameKey();
  }

  /** test_should_track_sql_command_in_the_list: with SELECT tracked, each of
      three SELECT statements with different keys adds a key to the
      handler's table (`Handler.Call` updates the table as `Track` does).
      `ListedStatements` shows that the test's statements meet the
      requirements. */
  lemma TrackListedCommand(q1: string, q2: string, q3: string)
    requires Command(q1) == Command(q2) == Command(q3) == "SELECT"
    requires Key(q1) != Key(q2) && Key(q3) != Key(q1) && Key(q3) != Key(q2)
    ensures var config := Some(Config(true, ["SELECT"]));
      var d1 := Track(map[], config, Payload(Some(q1)));
      var d2 := Track(d1, config, Payload(Some(q2)));
      var d3 := Track(d2, config, Payload(Some(q3)));
      |d1.Keys| == 1 && |d2.Keys| == 2 && |d3.Keys| == 3
  {
    var config := Some(Config(true, ["SELECT"]));
    SelectAdmits(q1, config);
    SelectAdmits(q2, config);
    SelectAdmits(q3, config);
    ThreeTracked(config, q1, q2, q3);
  }

  lemma ThreeTracked(config: Option<Config>, q1: string, q2: string, q3: string)
    requires Accepts(config, q1) && Accepts(config, q2) && Accepts(config, q3)
    requires Key(q1) != Key(q2) && Key(q3) != Key(q1) && Key(q3) != Key(q2)
    ensures var d1 := Track(map[], config, Payload(Some(q1)));
      var d2 := Track(d1, config, Payload(Some(q2)));
      var d3 := Track(d2, config, Payload(Some(q3)));
      |d1.Keys| == 1 && |d2.Keys| == 2 && |d3.Keys| == 3
  {
    var d1 := Track(map[], config, Payload(Some(q1)));
    var d2 := Track(d1, config, Payload(Some(q2)));
    TrackKeys(map[], config, q1);
    assert d1.Keys == {Key(q1)};
    TrackKeys(d1, config, q2);
    assert d2.Keys == {Key(q1), Key(q2)};
    TrackKeys(d2, config, q3);
  }

  /** test_should_not_track_sql_command_not_in_the_list: with only INSERT
      tracked, SELECT statements leave the handler's table empty.
      `SelectCommands` shows that the test's statements run SELECT. */
  lemma IgnoreUnlistedCommand(q1: string, q2: string)
    requires Command(q1) == Command(q2) == "SELECT"
    ensures var config := Some(Config(true, ["INSERT"]));
      var d1 := Track(map[], config, Payload(Some(q1)));
      |d1.Keys| == 0 && |Track(d1, config, Payload(Some(q2))).Keys| == 0
  {
    var config := Some(Config(true, ["INSERT"]));
    InsertRejects(q1, config);
    InsertRejects(q2, config);
  }

  /** Counting one key twice into an empty table. */
  lemma OneKeyTwice(d: map<string, Record>, k: string)
    requires d == Count(Count(map[], k), k)
    ensures |d.Keys| == 1 && k in d && d[k].count == 2
  {
    assert d.Keys == {k};
  }

  /** test_query_count_should_be_case_insensitive: with INSERT and SELECT
      tracked, two SELECT statements with one key leave one row in the
      handler's table, counted twice. `SpelledStatements` shows that the
      test's two spellings meet the requirements. */
  lemma CountCaseInsensitively(q1: string, q2: string)
    requires Command(q1) == Command(q2) == "SELECT" && Key(q1) == Key(q2)
    ensures var config := Some(Config(true, ["INSERT", "SELECT"]));
      var d := Track(Track(map[], config, Payload(Some(q1))), config, Payload(Some(q2)));
      |d.Keys| == 1 && Key(q1) in d && d[Key(q1)].count == 2
  {
    var config := Some(Config(true, ["INSERT", "SELECT"]));
    BothAdmit(q1, config);
    BothAdmit(q2, config);
    CountTwice(config, q1, q2);
  }

  /** Two accepted statements with one key leave one row, counted twice. */
  lemma CountTwice(config: Option<Config>, q1: string, q2: string)
    requires Accepts(config, q1) && Accepts(config, q2) && Key(q1) == Key(q2)
    ensures var d := Track(Track(map[], config, Payload(Some(q1))), config, Payload(Some(q2)));
      |d.Keys| == 1 && Key(q1) in d && d[Key(q1)].count == 2
  {
    var d1 := Track(map[], config, Payload(Some(q1)));
    assert d1 == Count(map[], Key(q1));
    var d2 := Track(d1, config, Payload(Some(q2)));
    assert d2 == Count(d1, Key(q1));
    OneKeyTwice(d2, Key(q1));
  }

  /** test_should_track_sql_command_in_the_list, on the test's statements. */
  lemma TrackInTheList()
    ensures var config := Some(Config(true, ["SELECT"]));
      var d1 := Track(map[], config, Payload(Some(Join(UsersQuery))));
      var d2 := Track(d1, config, Payload(Some(Join(ProductsQuery))));
      var d3 := Track(d2, config, Payload(Some(Join(TypesQuery))));
      |d1.Keys| == 1 && |d2.Keys| == 2 && |d3.Keys| == 3
  {
    ListedStatements();
    TrackListedCommand(Join(UsersQuery), Join(ProductsQuery), Join(TypesQuery));
  }

  /** test_should_not_track_sql_command_not_in_the_list, on the test's statements. */
  lemma IgnoreOutsideTheList()
    ensures var config := Some(Config(true, ["INSERT"]));
      var d1 := Track(map[], config, Payload(Some(Join(UsersQuery))));
      |d1.Keys| == 0 && |Track(d1, config, Payload(Some(Join(ProductsQuery)))).Keys| == 0
  {
    SelectCommands();
    IgnoreUnlistedCommand(Join(UsersQuery), Join(ProductsQuery));
  }

  /** test_query_count_should_be_case_insensitive, on the test's statements. */
  lemma CountBothSpellings()
    ensures var config := Some(Config(true, ["INSERT", "SELECT"]));
      var d := Track(Track(map[], config, Payload(Some(Join(UsersQuery)))), config, Payload(Some(Join(UsersMixedQuery))));
      |d.Keys| == 1 && Key(Join(UsersQuery)) in d && d[Key(Join(UsersQuery))].count == 2
  {
    SpelledStatements();
    CountCaseInsensitively(Join(UsersQuery), Join(UsersMixedQuery));
  }

  /** Three calls of a handler, one per statement: the number of keys after
      each call is the size of the table `Track` gives. */
  method KeysOfThree(config: Option<Config>, q1: string, q2: string, q3: string) returns (counts: seq<nat>)
    ensures var d1 := Track(map[], config, Payload(Some(q1)));
      var d2 := Track(d1, config, Payload(Some(q2)));
      counts == [|d1.Keys|, |d2.Keys|, |Track(d2, config, Payload(Some(q3))).Keys|]
  {
    var handler := new Handler(config);
    handler.Call(Payload(Some(q1)));
    var first := |handler.data.Keys|;
    handler.Call(Payload(Some(q2)));
    var second := |handler.data.Keys|;
    handler.Call(Payload(Some(q3)));
    counts := [first, second, |handler.data.Keys|];
  }

  /** test_should_track_sql_command_in_the_list through a handler: the
      number of keys after each call. */
  method KeysInTheList() returns (counts: seq<nat>)
    ensures counts == [1, 2, 3]
  {
    TrackInTheList();
    counts := KeysOfThree(Some(Config(true, ["SELECT"])), Join(UsersQuery), Join(ProductsQuery), Join(TypesQuery));
  }

  /** test_should_not_track_sql_command_not_in_the_list through a handler:
      the number of keys after each call. */
  method KeysOutsideTheList() returns (counts: seq<nat>)
    ensures counts == [0, 0]
  {
    var handler := new Handler(Some(Config(true, ["INSERT"])));
    IgnoreOutsideTheList();
    handler.Call(Payload(Some(Join(UsersQuery))));
    var first := |handler.data.Keys|;
    handler.Call(Payload(Some(Join(ProductsQuery))));
    counts := [first, |handler.data.Keys|];
  }

  /** test_query_count_should_be_case_insensitive through a handler: the
      number of keys, and the count of the one key. */
  method KeysOfBothSpellings() returns (keys: nat, count: nat)
    ensures keys == 1 && count == 2
  {
    var handler := new Handler(Some(Config(true, ["INSERT", "SELECT"])));
    CountBothSpellings();
    handler.Call(Payload(Some(Join(UsersQuery))));
    handler.Call(Payload(Some(Join(UsersMixedQuery))));
    keys := |handler.data.Keys|;
    var key := Key(Join(UsersQuery));
    count := handler.data[key].count;
  }
}
