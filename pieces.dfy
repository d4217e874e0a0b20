/** Cleaning a statement written as a list of pieces, one piece per token:
    the whitespace before the token and the token's text. The lemmas here
    carry the cleaning along the list one piece, one masking step and one
    output token at a time, so that a concrete statement is handled by
    checks on short literals only. */
module SqlPieces {
  import opened SqlText
  import opened SqlLexer
  import opened Passes
  import opened SqlMasker
  import opened SqlMaskSplit

  /** The pieces written one after the other. */
  function Join(ps: seq<string>): (s: string)
    ensures ps == [] ==> s == []
    decreases |ps|
  {
    if ps == [] then [] else Join(ps[..|ps| - 1]) + ps[|ps| - 1]
  }

  lemma JoinSnoc(ps: seq<string>, k: nat)
    requires k < |ps|
    ensures Join(ps[..k + 1]) == Join(ps[..k]) + ps[k]
  {
    assert ps[..k + 1][..k] == ps[..k];
  }

  lemma {:induction false} JoinCons(ps: seq<string>)
    requires ps != []
    ensures Join(ps) == ps[0] + Join(ps[1..])
    decreases |ps|
  {
    if |ps| > 1 {
      var n := |ps| - 1;
      JoinCons(ps[..n]);
      assert ps[..n][1..] == ps[1..][..n - 1];
      assert ps[..n][0] == ps[0] && ps[1..][n - 1] == ps[n];
    } else {
      assert ps[..0] == [] && ps[1..] == [];
    }
  }

  /** Pieces that fold to the same text join to texts that fold to the same text. */
  lemma {:induction false} JoinSameLower(ps: seq<string>, qs: seq<string>)
    requires |ps| == |qs| && forall k :: 0 <= k < |ps| ==> Lower(ps[k]) == Lower(qs[k])
    ensures Lower(Join(ps)) == Lower(Join(qs))
    decreases |ps|
  {
    if ps != [] {
      var n := |ps| - 1;
      JoinSameLower(ps[..n], qs[..n]);
      LowerAppend(Join(ps[..n]), ps[n]);
      LowerAppend(Join(qs[..n]), qs[n]);
    }
  }

  /** `xs` and `ys` agree entry by entry; used instead of `xs == ys` so that
      a fixed list `ys` is consulted only at the entries a proof names. */
  ghost predicate Agrees<T>(xs: seq<T>, ys: seq<T>) {
    |xs| == |ys| && forall k {:trigger ys[k]} :: 0 <= k < |xs| ==> xs[k] == ys[k]
  }

  /** The lexeme is what the lexer reads from its own text, and that text
      is squished and has no space at either end. */
  ghost predicate Shaped(x: Lexeme) {
    match x
    case Word(w) => w != [] && IsWordStart(w[0]) && forall i :: 0 <= i < |w| ==> IsWordChar(w[i])
    case Num(d) => d != [] && IsDigit(d[0]) && forall i :: 0 <= i < |d| ==> IsNumChar(d[i])
    case Quoted(b) => '\'' !in b && IsSquished(Text(x)) && (b != [] ==> b[|b| - 1] != ' ')
    case Sym(o) =>
      || (o != [] && forall i :: 0 <= i < |o| ==> IsOpChar(o[i]))
      || (|o| == 1 && IsLone(o[0]))
    case Masked => false
  }

  /** `Shaped(Quoted(b))` checked position by position from `i`: no quote,
      and every whitespace character is a single plain space before the end. */
  predicate QuotableFrom(b: string, i: nat)
    requires i <= |b|
    decreases |b| - i
  {
    || i == |b|
    || (&& b[i] != '\''
        && (IsSpace(b[i]) ==> b[i] == ' ' && i + 1 < |b| && b[i + 1] != ' ')
        && QuotableFrom(b, i + 1))
  }

  lemma {:induction false} QuotableAt(b: string, i: nat, j: nat)
    requires i <= j < |b| && QuotableFrom(b, i)
    ensures b[j] != '\'' && (IsSpace(b[j]) ==> b[j] == ' ' && j + 1 < |b| && b[j + 1] != ' ')
    decreases j - i
  {
    if i < j {
      QuotableAt(b, i + 1, j);
    }
  }

  lemma QuotedShaped(b: string)
    requires QuotableFrom(b, 0)
    ensures Shaped(Quoted(b))
  {
    var s := Text(Quoted(b));
    assert s == "'" + b + "'";
    forall j | 0 <= j < |b|
      ensures b[j] != '\''
    {
      QuotableAt(b, 0, j);
    }
    if b != [] {
      QuotableAt(b, 0, |b| - 1);
    }
    forall i | 0 <= i < |s| && IsSpace(s[i])
      ensures s[i] == ' '
    {
      assert 1 <= i <= |b| && s[i] == b[i - 1];
      QuotableAt(b, 0, i - 1);
    }
    forall j, k | 0 <= j && k == j + 1 < |s|
      ensures !(s[j] == ' ' && s[k] == ' ')
    {
      if 1 <= j <= |b| && s[j] == ' ' {
        assert s[j] == b[j - 1];
        QuotableAt(b, 0, j - 1);
        assert s[k] == b[j];
      }
    }
  }

  /** A character that is a token on its own. */
  predicate IsLone(c: char) {
    !IsWordStart(c) && !IsDigit(c) && c != '\'' && !IsOpChar(c) && !IsSpace(c)
  }

  lemma RunAll(s: string, p: char -> bool)
    requires forall i :: 0 <= i < |s| ==> p(s[i])
    ensures Run(s, p) == |s|
  {
  }

  lemma FindNone(b: string, c: char)
    requires c !in b
    ensures Find(b + [c], c) == |b|
  {
    var s := b + [c];
    assert s[|b|] == c;
    assert forall i :: 0 <= i < |b| ==> s[i] == b[i];
  }

  /** What the lexer needs to know about a lexeme's text. */
  ghost predicate ScansTo(x: Lexeme) {
    var s := Text(x);
    && s != [] && !IsSpace(s[0]) && !IsSpace(s[|s| - 1]) && IsSquished(s)
    && Scan(s) == Scanned(x, |s|) && x != Sym("'")
  }

  /** The lexer reads a shaped lexeme back from its text. */
  lemma ShapedScan(x: Lexeme)
    requires Shaped(x)
    ensures ScansTo(x)
  {
    match x
    case Word(w) => ScanWord(w);
    case Num(d) => ScanNum(d);
    case Quoted(b) => ScanQuoted(b);
    case Sym(o) => ScanSym(o);
  }

  lemma ScanWord(w: string)
    requires Shaped(Word(w))
    ensures ScansTo(Word(w))
  {
    RunAll(w, IsWordChar);
    assert w[..|w|] == w;
  }

  lemma ScanNum(d: string)
    requires Shaped(Num(d))
    ensures ScansTo(Num(d))
  {
    RunAll(d, IsNumChar);
    assert d[..|d|] == d;
  }

  lemma ScanQuoted(b: string)
    requires Shaped(Quoted(b))
    ensures ScansTo(Quoted(b))
  {
    var s := Text(Quoted(b));
    assert s[1..] == b + "'";
    FindNone(b, '\'');
    assert s[1..|b| + 1] == b;
  }

  lemma ScanSym(o: string)
    requires Shaped(Sym(o))
    ensures ScansTo(Sym(o))
  {
    if o != [] && forall i :: 0 <= i < |o| ==> IsOpChar(o[i]) {
      RunAll(o, IsOpChar);
      assert o[..|o|] == o;
    }
  }

  /** A shaped lexeme, alone after an optional space, lexes to one token. */
  lemma LexSingle(sp: bool, x: Lexeme)
    requires Shaped(x)
    ensures Lex(Gap(sp) + Text(x)) == [Token(sp, x)]
  {
    LexAtText(sp, x);
    var s, n := Gap(sp) + Text(x), |Gap(sp)|;
    LexLast(s, n, sp, Token(sp, x));
    if sp {
      LexSpace(s);
    }
  }

  /** A step that consumes the rest of `s` ends the lexer's pass. */
  lemma LexLast(s: string, n: nat, sp: bool, t: Token)
    requires n < |s| && LexStep(s, n, sp) == Step([t], |s| - n, false)
    ensures LexFrom(s, n, sp) == [t]
  {
    LexAdvances();
    PassStep(LexStep, s, n, sp);
  }

  /** A leading space is dropped and marks the next token as spaced. */
  lemma LexSpace(s: string)
    requires 1 < |s| && s[0] == ' '
    ensures LexFrom(s, 0, false) == LexFrom(s, 1, true)
  {
    LexAdvances();
    PassStep(LexStep, s, 0, false);
  }

  lemma LexAtText(sp: bool, x: Lexeme)
    requires Shaped(x)
    ensures var s, n := Gap(sp) + Text(x), |Gap(sp)|;
      n < |s| && LexStep(s, n, sp) == Step([Token(sp, x)], |Text(x)|, false)
      && (sp ==> 1 < |s| && s[0] == ' ')
  {
    ShapedScan(x);
    var s, n := Gap(sp) + Text(x), |Gap(sp)|;
    assert s[n..] == Text(x);
  }

  /** Collapsing a piece after visible text: its whitespace becomes one space. */
  lemma CollapsePiece(ws: string, x: Lexeme, gap: bool)
    requires AllSpace(ws) && Shaped(x)
    ensures Collapse(ws + Text(x), Squeeze(true, gap)) == Gap(gap || ws != []) + Text(x)
    ensures FeedAll(ws + Text(x), Squeeze(true, gap)) == Squeeze(true, false)
  {
    ShapedScan(x);
    var st := Squeeze(true, gap);
    CollapseAppend(ws, Text(x), st);
    CollapseBlank(ws, st);
    CollapseSquished(Text(x), gap || ws != []);
    FeedAllEnd(Text(x), FeedAll(ws, st));
  }

  /** The first piece: its leading whitespace is dropped. */
  lemma CollapseFirst(ws: string, x: Lexeme)
    requires AllSpace(ws) && Shaped(x)
    ensures Collapse(ws + Text(x), Fresh) == Text(x)
    ensures FeedAll(ws + Text(x), Fresh) == Squeeze(true, false)
  {
    ShapedScan(x);
    CollapseAppend(ws, Text(x), Fresh);
    CollapseBlank(ws, Fresh);
    SquishSquished(Text(x));
    FeedAllEnd(Text(x), Fresh);
  }

  /** The first `k` pieces squish to the text of the first `k` tokens, and
      that text lexes back to those tokens. */
  ghost predicate Built(qs: seq<string>, ts: seq<Token>, k: nat) {
    && 0 < k <= |qs| && k <= |ts|
    && Squish(Join(qs[..k])) == Render(ts[..k])
    && FeedAll(Join(qs[..k]), Fresh) == Squeeze(true, false)
    && Lex(Render(ts[..k])) == ts[..k]
    && NoStray(ts[..k])
  }

  /** The piece `qs[k]` is whitespace followed by the text of `ts[k]`, and is
      spaced exactly when that whitespace is not empty. */
  ghost predicate PieceOf(q: string, ws: string, t: Token) {
    q == ws + Text(t.lexeme) && AllSpace(ws) && Shaped(t.lexeme)
  }

  lemma PieceFirst(qs: seq<string>, ts: seq<Token>, ws: string, q: string, t: Token)
    requires 0 < |qs| && 0 < |ts| && qs[0] == q && ts[0] == t
    requires PieceOf(q, ws, t) && !t.spaced
    ensures Built(qs, ts, 1)
  {
    CollapseFirst(ws, t.lexeme);
    JoinSnoc(qs, 0);
    assert Join(qs[..1]) == ws + Text(t.lexeme);
    assert ts[..1] == [t];
    RenderCons(t, []);
    LexSingle(false, t.lexeme);
    ShapedScan(t.lexeme);
  }

  /** No token of the lexer can run from `a` on into `b`. */
  ghost predicate Adjacent(a: Token, b: Token) {
    b.spaced || (Text(a.lexeme) != [] && Text(b.lexeme) != [] && Separable(Last(Text(a.lexeme)), Text(b.lexeme)[0]))
  }

  lemma PieceNext(qs: seq<string>, ts: seq<Token>, k: nat, ws: string, q: string, a: Token, b: Token)
    requires Built(qs, ts, k) && k < |qs| && k < |ts|
    requires qs[k] == q && ts[k - 1] == a && ts[k] == b
    requires PieceOf(q, ws, b) && b.spaced == (ws != [])
    requires Adjacent(a, b) && Shaped(a.lexeme)
    ensures Built(qs, ts, k + 1)
  {
    SquishNext(qs, ts, k, ws);
    SquishIsSquished(Join(qs[..k]));
    LexNext(ts, k);
  }

  lemma SquishNext(qs: seq<string>, ts: seq<Token>, k: nat, ws: string)
    requires 0 < k < |qs| && k < |ts|
    requires Squish(Join(qs[..k])) == Render(ts[..k]) && FeedAll(Join(qs[..k]), Fresh) == Squeeze(true, false)
    requires PieceOf(qs[k], ws, ts[k]) && ts[k].spaced == (ws != [])
    ensures Squish(Join(qs[..k + 1])) == Render(ts[..k + 1])
    ensures FeedAll(Join(qs[..k + 1]), Fresh) == Squeeze(true, false)
  {
    var t := ts[k];
    var r := Join(qs[..k]);
    JoinSnoc(qs, k);
    CollapseAppend(r, qs[k], Fresh);
    CollapsePiece(ws, t.lexeme, false);
    SnocRender(ts, k);
  }

  lemma SnocRender(ts: seq<Token>, k: nat)
    requires k < |ts|
    ensures Render(ts[..k + 1]) == Render(ts[..k]) + RenderToken(ts[k])
  {
    SnocSplit(ts, k);
    RenderAppend(ts[..k], [ts[k]]);
    RenderCons(ts[k], []);
  }

  lemma LexNext(ts: seq<Token>, k: nat)
    requires 0 < k < |ts|
    requires Lex(Render(ts[..k])) == ts[..k] && NoStray(ts[..k]) && SingleSpaced(Render(ts[..k]))
    requires Shaped(ts[k].lexeme) && Shaped(ts[k - 1].lexeme) && Adjacent(ts[k - 1], ts[k])
    ensures Lex(Render(ts[..k + 1])) == ts[..k + 1] && NoStray(ts[..k + 1])
  {
    var t := ts[k];
    var x, y := Render(ts[..k]), RenderToken(t);
    Joinable(ts, k);
    LexAppend(x, y);
    LexSingle(t.spaced, t.lexeme);
    SnocRender(ts, k);
    SnocSplit(ts, k);
    NoStrayAppend(ts[..k], [t]);
    ShapedScan(t.lexeme);
  }

  lemma Joinable(ts: seq<Token>, k: nat)
    requires 0 < k < |ts|
    requires Shaped(ts[k].lexeme) && Shaped(ts[k - 1].lexeme) && Adjacent(ts[k - 1], ts[k])
    ensures var x, y := Render(ts[..k]), RenderToken(ts[k]);
      x != [] && (y != [] ==> Separable(x[|x| - 1], y[0]))
  {
    ShapedScan(ts[k - 1].lexeme);
    ShapedScan(ts[k].lexeme);
    RenderLast(ts, k);
  }

  function Last(s: string): char
    requires s != []
  {
    s[|s| - 1]
  }

  lemma SnocSplit(ts: seq<Token>, k: nat)
    requires k < |ts|
    ensures ts[..k + 1] == ts[..k] + [ts[k]]
  {
  }

  /** The text of the first `k` tokens ends with the last character of the
      `k`-th token's text. */
  lemma RenderLast(ts: seq<Token>, k: nat)
    requires 0 < k <= |ts| && Text(ts[k - 1].lexeme) != []
    ensures var s := Render(ts[..k]); s != [] && Last(s) == Last(Text(ts[k - 1].lexeme))
  {
    SnocRender(ts, k - 1);
    EndsWith(Render(ts[..k - 1]), Gap(ts[k - 1].spaced), Text(ts[k - 1].lexeme));
  }

  lemma EndsWith(a: string, b: string, c: string)
    requires c != []
    ensures a + (b + c) != [] && Last(a + (b + c)) == Last(c)
  {
  }

  /** After the last token only whitespace follows. */
  lemma PiecesEnd(qs: seq<string>, ts: seq<Token>)
    requires Built(qs, ts, |ts|) && |qs| == |ts| + 1 && AllSpace(qs[|ts|])
    ensures Squish(Join(qs)) == Render(ts) && Lex(Render(ts)) == ts
  {
    var k := |ts|;
    JoinSnoc(qs, k);
    assert qs[..k + 1] == qs;
    assert ts[..k] == ts;
    CollapseAppend(Join(qs[..k]), qs[k], Fresh);
    CollapseBlank(qs[k], Squeeze(true, false));
  }

  /** `out` from position `o` on is what the masker emits from token `i` on,
      in VALUES mode `v`. */
  ghost predicate MaskedFrom(ts: seq<Token>, out: seq<Token>, i: nat, o: nat, v: bool) {
    i <= |ts| && o <= |out| && out[o..] == MaskFrom(ts, i, v)
  }

  lemma MaskedEnd(ts: seq<Token>, out: seq<Token>, v: bool)
    ensures MaskedFrom(ts, out, |ts|, |out|, v)
  {
  }

  /** The masker step at `i` is the step computed on a window of the tokens
      from `i` that ends with a plain word or at the end. */
  lemma WindowStep(ts: seq<Token>, i: nat, z: seq<Token>, v: bool, r: Step<Token>)
    requires z != [] && i + |z| <= |ts| && ts[i..i + |z|] == z
    requires PlainEnd(z) || i + |z| == |ts|
    requires Apply(z, Rewrite(z, v), v) == r
    ensures MaskStep(ts, i, v) == r
  {
    var y := ts[i + |z|..];
    assert ts[i..] == z + y;
    if PlainEnd(z) {
      RewriteStable(z, y, v);
      ApplyStable(z, y, Rewrite(z, v), v);
    } else {
      assert z + y == z;
    }
  }

  lemma PassAt<T(!new), O>(step: Stepper<T, O>, xs: seq<T>, out: seq<O>, i: nat, o: nat, st: bool, r: Step<O>)
    requires Advances(step) && i < |xs| && step(xs, i, st) == r
    requires o + |r.out| <= |out| && out[o..o + |r.out|] == r.out
    requires out[o + |r.out|..] == Pass(step, xs, i + r.used, r.next)
    ensures out[o..] == Pass(step, xs, i, st)
  {
    PassStep(step, xs, i, st);
    assert out[o..] == out[o..o + |r.out|] + out[o + |r.out|..];
  }

  lemma StepAt(ts: seq<Token>, out: seq<Token>, i: nat, o: nat, v: bool, r: Step<Token>)
    requires i < |ts| && MaskStep(ts, i, v) == r
    requires o + |r.out| <= |out| && out[o..o + |r.out|] == r.out
    requires MaskedFrom(ts, out, i + r.used, o + |r.out|, r.next)
    ensures MaskedFrom(ts, out, i, o, v)
  {
    MaskAdvances();
    PassAt(MaskStep, ts, out, i, o, v, r);
  }

  /** One masking step, computed on a window. */
  lemma MaskAt(ts: seq<Token>, out: seq<Token>, i: nat, o: nat, v: bool, z: seq<Token>, r: Step<Token>)
    requires z != [] && i + |z| <= |ts| && ts[i..i + |z|] == z
    requires PlainEnd(z) || i + |z| == |ts|
    requires Rewrite(z, v) == Edit(r.out, r.used) && Mode(z[..r.used], v) == r.next
    requires o + |r.out| <= |out| && out[o..o + |r.out|] == r.out
    requires MaskedFrom(ts, out, i + r.used, o + |r.out|, r.next)
    ensures MaskedFrom(ts, out, i, o, v)
  {
    assert Apply(z, Rewrite(z, v), v) == r;
    WindowStep(ts, i, z, v, r);
    StepAt(ts, out, i, o, v, r);
  }

  /** `BETWEEN x AND y` with literal bounds `x` and `y` at the front of `z`:
      no earlier rule applies. */
  lemma BetweenAt(z: seq<Token>, v: bool, a: nat, b: nat)
    requires 2 + a <= |z| && IsKeyword(z[0], "BETWEEN") && OperandLen(z[1..]) == a > 0
    requires IsKeyword(z[1 + a], "AND") && OperandLen(z[2 + a..]) == b > 0
    ensures Rewrite(z, v) == Edit([z[0], Hole(z[1].spaced), z[1 + a], Hole(z[2 + a].spaced)], 2 + a + b)
  {
    var w := z[0].lexeme.w;
    EqualsUpperIsUpper(w, "BETWEEN");
    EqualsUpperIsUpper(w, "LIMIT");
    EqualsUpperIsUpper(w, "OFFSET");
    EqualsUpperIsUpper(w, "LIKE");
  }

  /** `ts` starts with `n` tokens of the form `lit, lit, ..., lit )`. */
  ghost predicate ListShape(ts: seq<Token>, n: nat) {
    && 2 <= n <= |ts| && n % 2 == 0
    && (forall j :: 0 <= j < n && j % 2 == 0 ==> IsLiteral(ts[j]))
    && (forall j :: 0 < j < n - 1 && j % 2 == 1 ==> ts[j].lexeme == Sym(","))
    && ts[n - 1].lexeme == Sym(")")
  }

  lemma {:induction false} ListTailOf(ts: seq<Token>, n: nat)
    requires ListShape(ts, n)
    ensures ListTail(ts) == n
    decreases n
  {
    if n > 2 {
      assert ts[1].lexeme == Sym(",");
      var r := ts[2..];
      assert ListShape(r, n - 2) by {
        forall j | 0 <= j < n - 2 && j % 2 == 0 ensures IsLiteral(r[j]) {
          assert r[j] == ts[j + 2];
        }
        forall j | 0 < j < n - 3 && j % 2 == 1 ensures r[j].lexeme == Sym(",") {
          assert r[j] == ts[j + 2];
        }
      }
      ListTailOf(r, n - 2);
    }
  }

  lemma ModeFirst(z: seq<Token>, v: bool)
    requires z != []
    ensures Mode(z[..1], v) == NextMode(z[0], v)
  {
    assert z[..1][1..] == [];
  }

  /** No token of `ts` changes the VALUES mode. */
  ghost predicate Quiet(ts: seq<Token>) {
    forall j :: 0 <= j < |ts| ==> !IsKeyword(ts[j], "VALUES") && ts[j].lexeme != Sym(";")
  }

  lemma {:induction false} QuietMode(ts: seq<Token>, v: bool)
    requires Quiet(ts)
    ensures Mode(ts, v) == v
    decreases |ts|
  {
    if ts != [] {
      assert Quiet(ts[1..]) by {
        forall j | 0 <= j < |ts| - 1
          ensures !IsKeyword(ts[1..][j], "VALUES") && ts[1..][j].lexeme != Sym(";")
        {
          assert ts[1..][j] == ts[j + 1];
        }
      }
      QuietMode(ts[1..], v);
    }
  }

  /** The first `g` output tokens render as the first `g` expected pieces. */
  ghost predicate Rendered(out: seq<Token>, es: seq<string>, g: nat) {
    g <= |out| && g <= |es| && Render(out[..g]) == Join(es[..g])
  }

  lemma RenderedStart(out: seq<Token>, es: seq<string>)
    ensures Rendered(out, es, 0)
  {
  }

  lemma RenderedNext(out: seq<Token>, es: seq<string>, g: nat)
    requires Rendered(out, es, g) && g < |out| && g < |es| && es[g] == RenderToken(out[g])
    ensures Rendered(out, es, g + 1)
  {
    JoinSnoc(es, g);
    SnocSplit(out, g);
    RenderAppend(out[..g], [out[g]]);
    RenderCons(out[g], []);
  }

  /** Putting the three folds together. */
  lemma CleanByPieces(qs: seq<string>, ts: seq<Token>, out: seq<Token>, es: seq<string>)
    requires Squish(Join(qs)) == Render(ts) && Lex(Render(ts)) == ts
    requires MaskedFrom(ts, out, 0, 0, false)
    requires Rendered(out, es, |out|) && |es| == |out|
    ensures CleanSqlQuery(Join(qs)) == Join(es)
  {
    assert out[..|out|] == out && es[..|es|] == es;
  }
}
