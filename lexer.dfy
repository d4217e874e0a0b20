/** A lossless lexer for squished SQL text: the masker works on its tokens,
    and rendering the tokens gives the text back. */
module SqlLexer {
  import opened SqlText
  import opened Passes

  /** One lexeme. Keywords and identifiers are both `Word`s; a number carries
      no sign (a sign is a `Sym` the masker may absorb). */
  datatype Lexeme =
    | Word(w: string)
    | Num(digits: string)
    | Quoted(body: string)
    | Sym(op: string)
    | Masked

  /** A lexeme and whether a single space stood before it. */
  datatype Token = Token(spaced: bool, lexeme: Lexeme)

  /** The marker that replaces a literal value. */
  const Placeholder: string := "???"

  function Text(x: Lexeme): string {
    match x
    case Word(w) => w
    case Num(d) => d
    case Quoted(b) => "'" + b + "'"
    case Sym(o) => o
    case Masked => Placeholder
  }

  predicate IsWordStart(c: char) { IsLetter(c) || c == '_' }
  predicate IsWordChar(c: char) { IsLetter(c) || IsDigit(c) || c == '_' || c == '.' }
  predicate IsNumChar(c: char) { IsDigit(c) || c == '.' }
  predicate IsOpChar(c: char) { c == '=' || c == '<' || c == '>' || c == '!' }

  /** Length of the longest prefix of `s` whose characters all satisfy `p`. */
  function Run(s: string, p: char -> bool): (n: nat)
    ensures n <= |s|
    ensures forall i :: 0 <= i < n ==> p(s[i])
    ensures n < |s| ==> !p(s[n])
    decreases |s|
  {
    if s == [] || !p(s[0]) then 0 else 1 + Run(s[1..], p)
  }

  /** Index of the first `c` in `s`, or `|s|` when there is none. */
  function Find(s: string, c: char): (k: nat)
    ensures k <= |s|
    ensures k < |s| ==> s[k] == c
    ensures forall i :: 0 <= i < k ==> s[i] != c
    decreases |s|
  {
    if s == [] then 0 else if s[0] == c then 0 else 1 + Find(s[1..], c)
  }

  /** A lexeme and the number of characters it spans. */
  datatype Scanned = Scanned(lexeme: Lexeme, len: nat)

  /** The lexeme at the front of `s`. A quote with no closing quote after it
      is a lone `Sym`. */
  function Scan(s: string): (r: Scanned)
    requires s != [] && s[0] != ' '
    ensures 1 <= r.len <= |s|
    ensures Text(r.lexeme) == s[..r.len]
    ensures s[r.len - 1] != ' '
  {
    var c := s[0];
    if IsWordStart(c) then
      var n := Run(s, IsWordChar);
      Scanned(Word(s[..n]), n)
    else if IsDigit(c) then
      var n := Run(s, IsNumChar);
      Scanned(Num(s[..n]), n)
    else if c == '\'' then
      var k := Find(s[1..], '\'');
      if k < |s| - 1 then
        assert s[..k + 2] == "'" + s[1..k + 1] + "'";
        Scanned(Quoted(s[1..k + 1]), k + 2)
      else
        Scanned(Sym("'"), 1)
    else if IsOpChar(c) then
      var n := Run(s, IsOpChar);
      Scanned(Sym(s[..n]), n)
    else
      Scanned(Sym([c]), 1)
  }

  /** One step of the lexer at position `i`: a space only marks the next
      token as spaced; anything else is scanned into one token. */
  function LexStep(s: string, i: nat, spaced: bool): Step<Token>
    requires i < |s|
  {
    if s[i] == ' ' then Step([], 1, true)
    else
      var r := Scan(s[i..]);
      Step([Token(spaced, r.lexeme)], r.len, false)
  }

  lemma LexAdvances()
    ensures Advances(LexStep)
  {
  }

  /** The tokens of `s` from position `i` on. */
  function LexFrom(s: string, i: nat, spaced: bool): seq<Token>
    requires i <= |s|
  {
    LexAdvances();
    Pass(LexStep, s, i, spaced)
  }

  /** Whether the lexer ends with a pending space. */
  function LexState(s: string, i: nat, spaced: bool): bool
    requires i <= |s|
  {
    LexAdvances();
    Final(LexStep, s, i, spaced)
  }

  /** The tokens of `s`; spaces only set the `spaced` flag of the next token. */
  function Lex(s: string): seq<Token> {
    LexFrom(s, 0, false)
  }

  /** A single space, or nothing. */
  function Gap(b: bool): string {
    if b then " " else ""
  }

  function RenderToken(t: Token): string {
    Gap(t.spaced) + Text(t.lexeme)
  }

  /** The text of a token sequence. */
  function Render(ts: seq<Token>): string
    decreases |ts|
  {
    if ts == [] then [] else RenderToken(ts[0]) + Render(ts[1..])
  }

  lemma {:induction false} RenderAppend(xs: seq<Token>, ys: seq<Token>)
    ensures Render(xs + ys) == Render(xs) + Render(ys)
  {
    if xs == [] {
      assert xs + ys == ys;
    } else {
      assert (xs + ys)[1..] == xs[1..] + ys;
      RenderAppend(xs[1..], ys);
    }
  }

  lemma RenderCons(t: Token, ts: seq<Token>)
    ensures Render([t] + ts) == RenderToken(t) + Render(ts)
  {
    assert ([t] + ts)[1..] == ts;
  }

  /** What one lexer step at position `i` does, when the pending space (if
      any) stands before a visible character: what it emits, followed by the
      space it leaves pending, spells the pending space and the characters
      it consumes. Only a space leaves a space pending. */
  ghost predicate LexStepSpec(s: string, i: nat, spaced: bool, r: Step<Token>)
    requires i < |s|
  {
    && 1 <= r.used <= |s| - i
    && Render(r.out) + Gap(r.next) == Gap(spaced) + s[i..i + r.used]
    && (r.next ==> s[i] == ' ' && r.used == 1)
  }

  lemma LexStepMeetsSpec(s: string)
    ensures forall i: nat, spaced: bool {:trigger LexStepSpec(s, i, spaced, LexStep(s, i, spaced))}
      | i < |s| && (spaced ==> s[i] != ' ') :: LexStepSpec(s, i, spaced, LexStep(s, i, spaced))
  {
    forall i: nat, spaced: bool | i < |s| && (spaced ==> s[i] != ' ')
      ensures LexStepSpec(s, i, spaced, LexStep(s, i, spaced))
    {
      var r := LexStep(s, i, spaced);
      if s[i] == ' ' {
        assert s[i..i + 1] == " ";
      } else {
        RenderCons(r.out[0], []);
        assert r.out == [r.out[0]] + [];
      }
    }
  }

  /** Any pass whose steps meet the lexer's step spec renders back its input. */
  lemma {:induction false} RenderBySpec(step: Stepper<char, Token>, s: string, i: nat, spaced: bool)
    requires Advances(step) && i <= |s| && SingleSpaced(s)
    requires spaced ==> i < |s| && s[i] != ' '
    requires forall j: nat, st: bool {:trigger LexStepSpec(s, j, st, step(s, j, st))}
      | j < |s| && (st ==> s[j] != ' ') :: LexStepSpec(s, j, st, step(s, j, st))
    ensures Render(Pass(step, s, i, spaced)) == Gap(spaced) + s[i..]
    decreases |s| - i
  {
    if i < |s| {
      var r := step(s, i, spaced);
      var k, next := i + r.used, r.next;
      PassStep(step, s, i, spaced);
      assert LexStepSpec(s, i, spaced, r);
      SpacingAfter(s, i, r.used, next);
      RenderBySpec(step, s, k, next);
      StepRender(s, i, spaced, r, k, next, Pass(step, s, k, next), Pass(step, s, i, spaced));
    }
  }

  /** One step of the lexer followed by the rest renders the text from position `i` on. */
  lemma StepRender(s: string, i: nat, spaced: bool, r: Step<Token>, k: nat, next: bool, rest: seq<Token>, whole: seq<Token>)
    requires i < |s| && LexStepSpec(s, i, spaced, r) && k == i + r.used && next == r.next
    requires Render(rest) == Gap(next) + s[k..]
    requires whole == r.out + rest
    ensures Render(whole) == Gap(spaced) + s[i..]
  {
    RenderAppend(r.out, rest);
    SliceSplit(s, i, k);
    Chain(Render(r.out), Gap(next), Render(rest), Gap(spaced), s[i..k], s[k..]);
  }

  lemma SpacingAfter(s: string, i: nat, n: nat, next: bool)
    requires i < |s| && i + n <= |s| && SingleSpaced(s)
    requires next ==> s[i] == ' ' && n == 1
    ensures next ==> i + n < |s| && s[i + n] != ' '
  {
    if next {
      assert s[|s| - 1] != ' ';
    }
  }

  lemma SliceSplit(s: string, i: nat, k: nat)
    requires i <= k <= |s|
    ensures s[i..] == s[i..k] + s[k..]
  {
  }

  lemma Chain(a: string, m: string, b: string, pre: string, x: string, y: string)
    requires a + m == pre + x && b == m + y
    ensures a + b == pre + (x + y)
  {
    assert a + b == (a + m) + y;
  }

  /** Lexing loses nothing: rendering the tokens of single-spaced text gives it back. */
  lemma LexRender(s: string)
    requires SingleSpaced(s)
    ensures Render(Lex(s)) == s
  {
    LexAdvances();
    LexStepMeetsSpec(s);
    RenderBySpec(LexStep, s, 0, false);
  }

  /** No token is a quote left without its closing quote. */
  predicate NoStray(ts: seq<Token>)
    decreases |ts|
  {
    ts == [] || (ts[0].lexeme != Sym("'") && NoStray(ts[1..]))
  }

  lemma {:induction false} NoStrayAppend(xs: seq<Token>, ys: seq<Token>)
    ensures NoStray(xs + ys) <==> NoStray(xs) && NoStray(ys)
  {
    if xs == [] {
      assert xs + ys == ys;
    } else {
      assert (xs + ys)[0] == xs[0] && (xs + ys)[1..] == xs[1..] + ys;
      NoStrayAppend(xs[1..], ys);
    }
  }

  /** No token can run on from a character `c` into a following `d`. */
  predicate Separable(c: char, d: char) {
    !(IsWordChar(c) && IsWordChar(d)) && !(IsOpChar(c) && IsOpChar(d))
  }

  lemma {:induction false} RunAppend(x: string, y: string, p: char -> bool)
    requires Run(x, p) < |x| || y == [] || !p(y[0])
    ensures Run(x + y, p) == Run(x, p)
  {
    if x == [] {
      assert x + y == y;
    } else {
      assert (x + y)[0] == x[0] && (x + y)[1..] == x[1..] + y;
      if p(x[0]) {
        RunAppend(x[1..], y, p);
      }
    }
  }

  lemma {:induction false} FindAppend(x: string, y: string, c: char)
    requires Find(x, c) < |x|
    ensures Find(x + y, c) == Find(x, c)
  {
    assert (x + y)[0] == x[0];
    if x[0] != c {
      assert (x + y)[1..] == x[1..] + y;
      FindAppend(x[1..], y, c);
    }
  }

  /** The lexeme at the front of `x` is not changed by what follows `x`,
      unless it could run on into it. */
  lemma ScanAppend(x: string, y: string)
    requires x != [] && x[0] != ' ' && Scan(x).lexeme != Sym("'")
    requires Scan(x).len == |x| && y != [] ==> Separable(x[|x| - 1], y[0])
    ensures Scan(x + y) == Scan(x)
  {
    var c := x[0];
    assert (x + y)[0] == c;
    var n := Scan(x).len;
    assert (x + y)[..n] == x[..n];
    if IsWordStart(c) {
      RunAppend(x, y, IsWordChar);
    } else if IsDigit(c) {
      RunAppend(x, y, IsNumChar);
    } else if c == '\'' {
      assert (x + y)[1..] == x[1..] + y;
      FindAppend(x[1..], y, '\'');
    } else if IsOpChar(c) {
      RunAppend(x, y, IsOpChar);
    }
  }

  lemma DropAppend(x: string, y: string, n: nat)
    requires n <= |x|
    ensures (x + y)[n..] == x[n..] + y
  {
  }

  /** A lexer step over `x` that yields no stray quote is the same step
      when `y` follows `x`, as long as no token can run on into `y`. */
  lemma LexStepStable(x: string, y: string)
    requires y != [] && x != [] ==> Separable(x[|x| - 1], y[0])
    ensures forall i: nat, spaced: bool | i < |x| && NoStray(LexStep(x, i, spaced).out) ::
      LexStep(x + y, i, spaced) == LexStep(x, i, spaced)
  {
    forall i: nat, spaced: bool | i < |x| && NoStray(LexStep(x, i, spaced).out)
      ensures LexStep(x + y, i, spaced) == LexStep(x, i, spaced)
    {
      assert (x + y)[i] == x[i];
      if x[i] != ' ' {
        DropAppend(x, y, i);
        ScanAppend(x[i..], y);
      }
    }
  }

  /** A pass whose steps are unchanged by `ys` wherever they yield no stray
      quote is stable over `xs` when its output has no stray quote. */
  lemma {:induction false} StableByNoStray(step: Stepper<char, Token>, x: string, y: string, i: nat, spaced: bool)
    requires Advances(step) && i <= |x| && NoStray(Pass(step, x, i, spaced))
    requires forall j: nat, st: bool | j < |x| && NoStray(step(x, j, st).out) :: step(x + y, j, st) == step(x, j, st)
    ensures StableFrom(step, x, y, i, spaced)
    decreases |x| - i
  {
    if i < |x| {
      var r := step(x, i, spaced);
      NoStrayAppend(r.out, Pass(step, x, i + r.used, r.next));
      StableByNoStray(step, x, y, i + r.used, r.next);
    }
  }

  lemma LexShifts(p: string, q: string)
    ensures Advances(LexStep) && Shifts(LexStep, p, q)
  {
    LexAdvances();
    forall j: nat, st: bool | j < |q|
      ensures LexStep(p + q, |p| + j, st) == LexStep(q, j, st)
    {
      assert (p + q)[|p| + j..] == q[j..];
    }
  }

  /** Lexing splits at a boundary that no token crosses. */
  lemma LexAppend(x: string, y: string)
    requires x != [] && SingleSpaced(x) && NoStray(Lex(x))
    requires y != [] ==> Separable(x[|x| - 1], y[0])
    ensures Lex(x + y) == Lex(x) + LexFrom(y, 0, false)
  {
    LexAdvances();
    LexStepStable(x, y);
    StableByNoStray(LexStep, x, y, 0, false);
    LexShifts(x, y);
    PassAppend(LexStep, x, y, false);
    LexFinal(x);
  }

  /** A pass whose steps meet the lexer's step spec over single-spaced text
      ends without a pending space. */
  lemma {:induction false} FinalBySpec(step: Stepper<char, Token>, s: string, i: nat, spaced: bool)
    requires Advances(step) && i <= |s| && SingleSpaced(s)
    requires spaced && i < |s| ==> s[i] != ' '
    requires forall j: nat, st: bool {:trigger LexStepSpec(s, j, st, step(s, j, st))}
      | j < |s| && (st ==> s[j] != ' ') :: LexStepSpec(s, j, st, step(s, j, st))
    ensures Final(step, s, i, spaced) == (spaced && i == |s|)
    decreases |s| - i
  {
    FinalStep(step, s, i, spaced);
    if i < |s| {
      var r := step(s, i, spaced);
      assert LexStepSpec(s, i, spaced, r);
      SpacingAfter(s, i, r.used, r.next);
      FinalBySpec(step, s, i + r.used, r.next);
    }
  }

  /** After single-spaced text, the next token is not spaced. */
  lemma LexFinal(s: string)
    requires SingleSpaced(s)
    ensures !LexState(s, 0, false)
  {
    LexAdvances();
    LexStepMeetsSpec(s);
    FinalBySpec(LexStep, s, 0, false);
  }
}
