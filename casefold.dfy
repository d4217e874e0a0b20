/** Case folding and the normalizer: lower-casing a statement before
    cleaning it gives the lower-cased cleaned statement. Every stage of
    `CleanSqlQuery` commutes with `Lower`: squishing, lexing (token
    boundaries do not depend on case), masking (keywords are recognised in
    any case) and rendering. */
module SqlCaseFold {
  import opened SqlText
  import opened Passes
  import opened SqlLexer
  import opened SqlMasker

  function LowerLexeme(x: Lexeme): Lexeme {
    match x
    case Word(w) => Word(Lower(w))
    case Num(d) => Num(Lower(d))
    case Quoted(b) => Quoted(Lower(b))
    case Sym(o) => Sym(Lower(o))
    case Masked => Masked
  }

  function LowerToken(t: Token): Token {
    Token(t.spaced, LowerLexeme(t.lexeme))
  }

  function LowerTokens(ts: seq<Token>): seq<Token> {
    Map(LowerToken, ts)
  }

  /** Text without letters, which case folding leaves alone. */
  predicate LetterFree(o: string) {
    forall k :: 0 <= k < |o| ==> !IsLetter(o[k])
  }

  lemma LowerSlice(s: string, a: nat, b: nat)
    requires a <= b <= |s|
    ensures |Lower(s)| == |s| && Lower(s)[a..b] == Lower(s[a..b])
  {
    LowerAt(s);
    LowerAt(s[a..b]);
  }

  lemma LowerLetterFree(o: string)
    requires LetterFree(o)
    ensures Lower(o) == o
  {
    LowerAt(o);
  }

  /** Folding cannot produce letter-free text from anything but itself. */
  lemma SymLower(x: Lexeme, o: string)
    requires LetterFree(o)
    ensures LowerLexeme(x) == Sym(o) <==> x == Sym(o)
  {
    if x == Sym(o) {
      LowerLetterFree(o);
    }
    if LowerLexeme(x) == Sym(o) {
      var p := x.op;
      LowerAt(p);
      forall k | 0 <= k < |p|
        ensures p[k] == o[k]
      {
        assert LowerChar(p[k]) == o[k];
      }
    }
  }

  lemma TextLower(x: Lexeme)
    ensures Text(LowerLexeme(x)) == Lower(Text(x))
  {
    match x
    case Quoted(b) =>
      LowerLetterFree("'");
      LowerAppend("'" + b, "'");
      LowerAppend("'", b);
    case Masked =>
      LowerLetterFree(Placeholder);
    case _ =>
  }

  lemma MapSlice(ts: seq<Token>, a: nat, b: nat)
    requires a <= b <= |ts|
    ensures LowerTokens(ts)[a..b] == LowerTokens(ts[a..b])
  {
  }

  /** Rendering commutes with case folding. */
  lemma {:induction false} RenderLower(ts: seq<Token>)
    ensures Render(LowerTokens(ts)) == Lower(Render(ts))
    decreases |ts|
  {
    if ts != [] {
      var t, us := ts[0], LowerTokens(ts);
      MapSlice(ts, 1, |ts|);
      assert ts[1..|ts|] == ts[1..] && us[1..|ts|] == us[1..];
      RenderLower(ts[1..]);
      TokenTextLower(t);
      LowerAppend(RenderToken(t), Render(ts[1..]));
      assert Render(us) == RenderToken(us[0]) + Render(us[1..]);
    }
  }

  lemma TokenTextLower(t: Token)
    ensures RenderToken(LowerToken(t)) == Lower(RenderToken(t))
  {
    TextLower(t.lexeme);
    LowerLetterFree(Gap(t.spaced));
    LowerAppend(Gap(t.spaced), Text(t.lexeme));
  }

  // The lexer

  lemma {:induction false} RunLower(x: string, p: char -> bool)
    requires forall k :: 0 <= k < |x| ==> p(LowerChar(x[k])) == p(x[k])
    ensures Run(Lower(x), p) == Run(x, p)
    decreases |x|
  {
    if x != [] {
      assert Lower(x)[1..] == Lower(x[1..]);
      RunLower(x[1..], p);
    }
  }

  lemma {:induction false} FindLower(x: string, c: char)
    requires !IsLetter(c)
    ensures Find(Lower(x), c) == Find(x, c)
    decreases |x|
  {
    if x != [] {
      assert Lower(x)[1..] == Lower(x[1..]);
      FindLower(x[1..], c);
    }
  }

  /** A lexeme scanned as a run of `p` characters, folded. */
  lemma RunScanLower(x: string, p: char -> bool)
    requires forall k :: 0 <= k < |x| ==> p(LowerChar(x[k])) == p(x[k])
    ensures |Lower(x)| == |x| && Run(Lower(x), p) == Run(x, p)
    ensures Lower(x)[..Run(x, p)] == Lower(x[..Run(x, p)])
  {
    RunLower(x, p);
    LowerSlice(x, 0, Run(x, p));
  }

  lemma QuotedScanLower(x: string)
    requires x != [] && x[0] == '\''
    ensures |Lower(x)| == |x| && Lower(x)[0] == '\''
    ensures Scan(Lower(x)) == Scanned(LowerLexeme(Scan(x).lexeme), Scan(x).len)
  {
    var y := Lower(x);
    LowerAt(x);
    LowerSlice(x, 1, |x|);
    assert x[1..|x|] == x[1..] && y[1..|x|] == y[1..];
    FindLower(x[1..], '\'');
    var k := Find(x[1..], '\'');
    if k < |x| - 1 {
      QuotedFoundLower(x, k);
    } else {
      QuotedLoneLower(x);
    }
  }

  /** A quoted string closed at `k + 1`, folded. */
  lemma QuotedFoundLower(x: string, k: nat)
    requires x != [] && x[0] == '\'' && k == Find(x[1..], '\'') && k < |x| - 1
    requires |Lower(x)| == |x| && Lower(x)[0] == '\'' && Find(Lower(x)[1..], '\'') == k
    ensures Scan(Lower(x)) == Scanned(LowerLexeme(Scan(x).lexeme), Scan(x).len)
  {
    var y := Lower(x);
    assert Scan(x) == Scanned(Quoted(x[1..k + 1]), k + 2);
    assert Scan(y) == Scanned(Quoted(y[1..k + 1]), k + 2);
    LowerSlice(x, 1, k + 1);
  }

  /** A quote with no closing quote, folded. */
  lemma QuotedLoneLower(x: string)
    requires x != [] && x[0] == '\'' && Find(x[1..], '\'') == |x| - 1
    requires |Lower(x)| == |x| && Lower(x)[0] == '\'' && Find(Lower(x)[1..], '\'') == |x| - 1
    ensures Scan(Lower(x)) == Scanned(LowerLexeme(Scan(x).lexeme), Scan(x).len)
  {
    assert Scan(x) == Scanned(Sym("'"), 1);
    assert Scan(Lower(x)) == Scanned(Sym("'"), 1);
    LowerLetterFree("'");
  }

  /** Scanning folded text finds the folded lexeme, of the same length. */
  lemma ScanLower(x: string)
    requires x != [] && x[0] != ' '
    ensures Lower(x) != [] && Lower(x)[0] != ' '
    ensures Scan(Lower(x)) == Scanned(LowerLexeme(Scan(x).lexeme), Scan(x).len)
  {
    LowerAt(x);
    var c := x[0];
    assert Lower(x)[0] == LowerChar(c);
    if IsWordStart(c) {
      RunScanLower(x, IsWordChar);
    } else if IsDigit(c) {
      RunScanLower(x, IsNumChar);
    } else if c == '\'' {
      QuotedScanLower(x);
    } else if IsOpChar(c) {
      RunScanLower(x, IsOpChar);
    } else {
      assert Lower([c]) == [LowerChar(c)];
    }
  }

  lemma LexStepAtLower(s: string, j: nat, sp: bool)
    requires j < |s|
    ensures Advances(LexStep) && |Lower(s)| == |s|
    ensures MapsStep(LexStep, s, Lower(s), LowerToken, j, sp)
  {
    LexAdvances();
    LowerAt(s);
    if s[j] != ' ' {
      LowerSlice(s, j, |s|);
      assert s[j..|s|] == s[j..] && Lower(s)[j..|s|] == Lower(s)[j..];
      ScanLower(s[j..]);
      var r := Scan(s[j..]);
      assert Map(LowerToken, [Token(sp, r.lexeme)]) == [Token(sp, LowerLexeme(r.lexeme))];
    } else {
      assert Map(LowerToken, []) == [];
    }
  }

  lemma LexStepLower(s: string)
    ensures Advances(LexStep) && |Lower(s)| == |s|
    ensures forall j: nat, sp: bool | j < |s| :: MapsStep(LexStep, s, Lower(s), LowerToken, j, sp)
  {
    LexAdvances();
    LowerAt(s);
    forall j: nat, sp: bool | j < |s|
      ensures MapsStep(LexStep, s, Lower(s), LowerToken, j, sp)
    {
      LexStepAtLower(s, j, sp);
    }
  }

  /** Lexing commutes with case folding. */
  lemma LexLower(s: string)
    ensures Lex(Lower(s)) == LowerTokens(Lex(s))
  {
    LexAdvances();
    LowerAt(s);
    LexStepLower(s);
    PassMap(LexStep, s, Lower(s), LowerToken, 0, false);
  }

  // The masker

  /** Every test a masking rule makes of a token gives the same answer on
      the folded token. */
  lemma TokenLower(t: Token)
    ensures IsSign(LowerToken(t)) == IsSign(t)
    ensures IsLiteral(LowerToken(t)) == IsLiteral(t)
    ensures IsComparison(LowerToken(t)) == IsComparison(t)
    ensures IsListSeparator(LowerToken(t)) == IsListSeparator(t)
    ensures IsElementEnd(LowerToken(t)) == IsElementEnd(t)
    ensures LowerToken(t).lexeme == Sym("(") <==> t.lexeme == Sym("(")
    ensures LowerToken(t).lexeme == Sym(")") <==> t.lexeme == Sym(")")
    ensures LowerToken(t).lexeme == Sym(",") <==> t.lexeme == Sym(",")
    ensures LowerToken(t).lexeme == Sym(";") <==> t.lexeme == Sym(";")
  {
    PunctuationLower(t);
    OperatorLower(t);
  }

  lemma PunctuationLower(t: Token)
    ensures IsListSeparator(LowerToken(t)) == IsListSeparator(t)
    ensures IsElementEnd(LowerToken(t)) == IsElementEnd(t)
    ensures LowerToken(t).lexeme == Sym("(") <==> t.lexeme == Sym("(")
    ensures LowerToken(t).lexeme == Sym(")") <==> t.lexeme == Sym(")")
    ensures LowerToken(t).lexeme == Sym(",") <==> t.lexeme == Sym(",")
    ensures LowerToken(t).lexeme == Sym(";") <==> t.lexeme == Sym(";")
  {
    var x := t.lexeme;
    SymLower(x, "(");
    SymLower(x, ")");
    SymLower(x, ",");
    SymLower(x, ";");
  }

  lemma OperatorLower(t: Token)
    ensures IsSign(LowerToken(t)) == IsSign(t)
    ensures IsLiteral(LowerToken(t)) == IsLiteral(t)
    ensures IsComparison(LowerToken(t)) == IsComparison(t)
  {
    var x := t.lexeme;
    SymLower(x, "-");
    SymLower(x, "+");
    SymLower(x, "=");
    SymLower(x, "!=");
    SymLower(x, "<>");
    SymLower(x, "<");
    SymLower(x, ">");
    SymLower(x, "<=");
    SymLower(x, ">=");
  }

  lemma KeywordLower(t: Token, kw: string)
    ensures IsKeyword(LowerToken(t), kw) == IsKeyword(t, kw)
  {
    if t.lexeme.Word? {
      EqualsUpperIsUpper(Lower(t.lexeme.w), kw);
      EqualsUpperIsUpper(t.lexeme.w, kw);
      UpperLower(t.lexeme.w);
    }
  }

  lemma OperandTriggerLower(t: Token)
    ensures IsOperandTrigger(LowerToken(t)) == IsOperandTrigger(t)
  {
    TokenLower(t);
    KeywordLower(t, "LIMIT");
    KeywordLower(t, "OFFSET");
    KeywordLower(t, "LIKE");
  }

  lemma OperandLenLower(ts: seq<Token>)
    ensures OperandLen(LowerTokens(ts)) == OperandLen(ts)
  {
    if ts != [] {
      TokenLower(ts[0]);
    }
  }

  /** Folding commutes with dropping a prefix. */
  lemma DropLower(ts: seq<Token>, k: nat)
    requires k <= |ts|
    ensures LowerTokens(ts)[k..] == LowerTokens(ts[k..])
  {
    MapSlice(ts, k, |ts|);
    assert ts[k..|ts|] == ts[k..] && LowerTokens(ts)[k..|ts|] == LowerTokens(ts)[k..];
  }

  lemma {:induction false} ListTailLower(ts: seq<Token>)
    ensures ListTail(LowerTokens(ts)) == ListTail(ts)
    decreases |ts|
  {
    OperandLenLower(ts);
    var k := OperandLen(ts);
    if 0 < k < |ts| {
      ListSepLower(ts, k);
      ListTailLower(ts[k + 1..]);
    }
  }

  /** The separator at `k` of a literal list, and what follows it, folded. */
  lemma ListSepLower(ts: seq<Token>, k: nat)
    requires k < |ts|
    ensures var tl := LowerTokens(ts);
      && (tl[k].lexeme == Sym(")") <==> ts[k].lexeme == Sym(")"))
      && (tl[k].lexeme == Sym(",") <==> ts[k].lexeme == Sym(","))
      && tl[k + 1..] == LowerTokens(ts[k + 1..])
  {
    SymLower(ts[k].lexeme, ")");
    SymLower(ts[k].lexeme, ",");
    DropLower(ts, k + 1);
  }

  function LowerEdit(e: Edit): Edit {
    Edit(LowerTokens(e.out), e.used)
  }

  function LowerRule(r: Option<Edit>): Option<Edit> {
    if r.Some? then Some(LowerEdit(r.value)) else None
  }

  lemma HoleLower(spaced: bool)
    ensures LowerToken(Hole(spaced)) == Hole(spaced)
  {
  }

  lemma CloseLower()
    ensures LowerToken(Token(false, Sym(")"))) == Token(false, Sym(")"))
  {
    LowerLetterFree(")");
  }

  lemma ListRuleLower(z: seq<Token>)
    requires z != []
    ensures ListRule(LowerTokens(z)) == LowerRule(ListRule(z))
  {
    var zl := LowerTokens(z);
    SymLower(z[0].lexeme, "(");
    assert zl[0].lexeme == Sym("(") <==> z[0].lexeme == Sym("(");
    if 1 < |z| {
      DropLower(z, 1);
      ListTailLower(z[1..]);
      assert ListTail(zl[1..]) == ListTail(z[1..]);
    }
    if ListRule(z).Some? {
      HoleLower(false);
      CloseLower();
      LowerThree(z[0], Hole(false), Token(false, Sym(")")));
    }
  }

  lemma LowerThree(a: Token, b: Token, c: Token)
    ensures LowerTokens([a, b, c]) == [LowerToken(a), LowerToken(b), LowerToken(c)]
  {
  }

  lemma OperandRuleLower(z: seq<Token>)
    requires z != []
    ensures OperandRule(LowerTokens(z)) == LowerRule(OperandRule(z))
  {
    OperandTriggerLower(z[0]);
    DropLower(z, 1);
    OperandLenLower(z[1..]);
    if OperandRule(z).Some? {
      HoleLower(z[1].spaced);
      var out := [z[0], Hole(z[1].spaced)];
      assert LowerTokens(out) == [LowerToken(z[0]), Hole(z[1].spaced)];
    }
  }

  lemma BetweenRuleLower(z: seq<Token>)
    requires z != []
    ensures BetweenRule(LowerTokens(z)) == LowerRule(BetweenRule(z))
  {
    if 1 < |z| {
      BetweenFrontLower(z);
      if IsKeyword(z[0], "BETWEEN") && OperandLen(z[1..]) > 0 {
        var k := 1 + OperandLen(z[1..]);
        if k + 1 < |z| && IsKeyword(z[k], "AND") && OperandLen(z[k + 1..]) > 0 {
          BetweenAndLower(z, k);
        } else if k + 1 < |z| {
          BetweenNoAndLower(z, k);
        } else {
          BetweenShortLower(z, k);
        }
      }
    }
  }

  /** `BETWEEN` and its lower bound, folded. */
  lemma BetweenFrontLower(z: seq<Token>)
    requires 1 < |z|
    ensures var zl := LowerTokens(z);
      && zl[0] == LowerToken(z[0]) && zl[1].spaced == z[1].spaced
      && IsKeyword(zl[0], "BETWEEN") == IsKeyword(z[0], "BETWEEN")
      && OperandLen(zl[1..]) == OperandLen(z[1..])
  {
    KeywordLower(z[0], "BETWEEN");
    DropLower(z, 1);
    OperandLenLower(z[1..]);
  }

  /** `AND` at `k` and the upper bound, folded. */
  lemma BetweenBackLower(z: seq<Token>, k: nat)
    requires k + 1 < |z|
    ensures var zl := LowerTokens(z);
      && zl[k] == LowerToken(z[k]) && zl[k + 1].spaced == z[k + 1].spaced
      && IsKeyword(zl[k], "AND") == IsKeyword(z[k], "AND")
      && OperandLen(zl[k + 1..]) == OperandLen(z[k + 1..])
  {
    KeywordLower(z[k], "AND");
    DropLower(z, k + 1);
    OperandLenLower(z[k + 1..]);
  }

  /** `BETWEEN` with both bounds, the upper one at `k + 1`, folded. */
  lemma BetweenAndLower(z: seq<Token>, k: nat)
    requires 1 < |z| && IsKeyword(z[0], "BETWEEN") && OperandLen(z[1..]) > 0
    requires k == 1 + OperandLen(z[1..])
    requires k + 1 < |z| && IsKeyword(z[k], "AND") && OperandLen(z[k + 1..]) > 0
    ensures BetweenRule(LowerTokens(z)) == LowerRule(BetweenRule(z))
  {
    var used := k + 1 + OperandLen(z[k + 1..]);
    var out := [z[0], Hole(z[1].spaced), z[k], Hole(z[k + 1].spaced)];
    assert BetweenRule(z) == Some(Edit(out, used));
    var zl := LowerTokens(z);
    BetweenFrontLower(z);
    BetweenBackLower(z, k);
    assert BetweenRule(zl) == Some(Edit([zl[0], Hole(zl[1].spaced), zl[k], Hole(zl[k + 1].spaced)], used));
    LowerFour(z[0], Hole(z[1].spaced), z[k], Hole(z[k + 1].spaced));
    HoleLower(z[1].spaced);
    HoleLower(z[k + 1].spaced);
  }

  lemma LowerFour(a: Token, b: Token, c: Token, d: Token)
    ensures LowerTokens([a, b, c, d]) == [LowerToken(a), LowerToken(b), LowerToken(c), LowerToken(d)]
  {
  }

  /** The lower bound of `BETWEEN` ends the statement. */
  lemma BetweenShortLower(z: seq<Token>, k: nat)
    requires 1 < |z| && IsKeyword(z[0], "BETWEEN") && OperandLen(z[1..]) > 0
    requires k == 1 + OperandLen(z[1..]) && |z| <= k + 1
    ensures BetweenRule(LowerTokens(z)) == LowerRule(BetweenRule(z))
  {
    var zl := LowerTokens(z);
    assert BetweenRule(z) == Some(Edit([z[0], Hole(z[1].spaced)], k));
    BetweenFrontLower(z);
    assert BetweenRule(zl) == Some(Edit([zl[0], Hole(zl[1].spaced)], k));
    LowerTwo(z[0], Hole(z[1].spaced));
    HoleLower(z[1].spaced);
  }

  /** The lower bound of `BETWEEN` is followed by something other than
      `AND` and an operand. */
  lemma BetweenNoAndLower(z: seq<Token>, k: nat)
    requires 1 < |z| && IsKeyword(z[0], "BETWEEN") && OperandLen(z[1..]) > 0
    requires k == 1 + OperandLen(z[1..]) && k + 1 < |z|
    requires !(IsKeyword(z[k], "AND") && OperandLen(z[k + 1..]) > 0)
    ensures BetweenRule(LowerTokens(z)) == LowerRule(BetweenRule(z))
  {
    var zl := LowerTokens(z);
    assert BetweenRule(z) == Some(Edit([z[0], Hole(z[1].spaced)], k));
    BetweenFrontLower(z);
    BetweenBackLower(z, k);
    assert BetweenRule(zl) == Some(Edit([zl[0], Hole(zl[1].spaced)], k));
    LowerTwo(z[0], Hole(z[1].spaced));
    HoleLower(z[1].spaced);
  }

  lemma LowerTwo(a: Token, b: Token)
    ensures LowerTokens([a, b]) == [LowerToken(a), LowerToken(b)]
  {
  }

  lemma SimilarRuleLower(z: seq<Token>)
    requires z != []
    ensures SimilarRule(LowerTokens(z)) == LowerRule(SimilarRule(z))
  {
    KeywordLower(z[0], "SIMILAR");
    if 2 < |z| {
      KeywordLower(z[1], "TO");
      DropLower(z, 2);
      OperandLenLower(z[2..]);
      HoleLower(z[2].spaced);
      var out := [z[0], z[1], Hole(z[2].spaced)];
      assert LowerTokens(out) == [LowerToken(z[0]), LowerToken(z[1]), Hole(z[2].spaced)];
    }
  }

  lemma ElementRuleLower(z: seq<Token>, inValues: bool)
    requires z != []
    ensures ElementRule(LowerTokens(z), inValues) == LowerRule(ElementRule(z, inValues))
  {
    TokenLower(z[0]);
    if 1 < |z| {
      DropLower(z, 1);
      OperandLenLower(z[1..]);
      var k := OperandLen(z[1..]);
      if 1 + k < |z| {
        TokenLower(z[1 + k]);
      }
      HoleLower(z[1].spaced);
      var out := [z[0], Hole(z[1].spaced)];
      assert LowerTokens(out) == [LowerToken(z[0]), Hole(z[1].spaced)];
    }
  }

  /** The masker rewrites folded tokens as it rewrites the tokens, folded. */
  lemma RewriteLower(z: seq<Token>, inValues: bool)
    requires z != []
    ensures Rewrite(LowerTokens(z), inValues) == LowerEdit(Rewrite(z, inValues))
  {
    ListRuleLower(z);
    OperandRuleLower(z);
    BetweenRuleLower(z);
    SimilarRuleLower(z);
    ElementRuleLower(z, inValues);
  }

  lemma {:induction false} ModeLower(ts: seq<Token>, inValues: bool)
    ensures Mode(LowerTokens(ts), inValues) == Mode(ts, inValues)
    decreases |ts|
  {
    if ts != [] {
      KeywordLower(ts[0], "VALUES");
      TokenLower(ts[0]);
      DropLower(ts, 1);
      ModeLower(ts[1..], NextMode(ts[0], inValues));
    }
  }

  lemma MaskStepLower(ts: seq<Token>)
    ensures Advances(MaskStep)
    ensures forall i: nat, v: bool | i < |ts| :: MapsStep(MaskStep, ts, LowerTokens(ts), LowerToken, i, v)
  {
    MaskAdvances();
    forall i: nat, v: bool | i < |ts|
      ensures MapsStep(MaskStep, ts, LowerTokens(ts), LowerToken, i, v)
    {
      var z := ts[i..];
      MapSlice(ts, i, |ts|);
      assert ts[i..|ts|] == z && LowerTokens(ts)[i..|ts|] == LowerTokens(ts)[i..];
      RewriteLower(z, v);
      var e := Rewrite(z, v);
      MapSlice(z, 0, e.used);
      ModeLower(z[..e.used], v);
    }
  }

  /** Masking commutes with case folding. */
  lemma MaskLower(ts: seq<Token>, inValues: bool)
    ensures Mask(LowerTokens(ts), inValues) == LowerTokens(Mask(ts, inValues))
  {
    MaskAdvances();
    MaskStepLower(ts);
    PassMap(MaskStep, ts, LowerTokens(ts), LowerToken, 0, inValues);
  }

  /** Cleaning a lower-cased statement gives the lower-cased cleaned statement. */
  lemma CleanLower(sql: string)
    ensures CleanSqlQuery(Lower(sql)) == Lower(CleanSqlQuery(sql))
  {
    var ts := Lex(Squish(sql));
    SquishLower(sql);
    LexLower(Squish(sql));
    MaskLower(ts, false);
    RenderLower(Mask(ts, false));
  }
}
