/** `Handler#clean_sql_query`: squish the text, then replace literal values
    by the placeholder `???` with an ordered set of token rewrite rules.
    Each rule looks at the tokens from the current position onwards. */
module SqlMasker {
  import opened SqlText
  import opened SqlLexer
  import opened Passes

  datatype Option<T> = None | Some(value: T)

  /** A rule's rewrite at the front of the remaining tokens: the tokens it
      emits and how many input tokens they replace. */
  datatype Edit = Edit(out: seq<Token>, used: nat)

  /** The placeholder, keeping the spacing of the literal it replaces. */
  function Hole(spaced: bool): Token {
    Token(spaced, Masked)
  }

  /** Keywords are recognised whatever their case. */
  predicate IsKeyword(t: Token, kw: string) {
    t.lexeme.Word? && EqualsUpper(t.lexeme.w, kw)
  }

  predicate IsSign(t: Token) {
    t.lexeme == Sym("-") || t.lexeme == Sym("+")
  }

  predicate IsLiteral(t: Token) {
    t.lexeme.Num? || t.lexeme.Quoted?
  }

  predicate IsComparison(t: Token) {
    t.lexeme.Sym? && t.lexeme.op in {"=", "!=", "<>", "<", ">", "<=", ">="}
  }

  /** Tokens whose single operand is masked: comparison operators, LIMIT,
      OFFSET and LIKE. */
  predicate IsOperandTrigger(t: Token) {
    IsComparison(t) || IsKeyword(t, "LIMIT") || IsKeyword(t, "OFFSET") || IsKeyword(t, "LIKE")
  }

  predicate IsListSeparator(t: Token) {
    t.lexeme == Sym("(") || t.lexeme == Sym(",")
  }

  predicate IsElementEnd(t: Token) {
    t.lexeme == Sym(",") || t.lexeme == Sym(")")
  }

  /** Number of tokens of the literal value at the front of `ts`: a quoted
      string or a number, the number possibly signed; 0 when there is none. */
  function OperandLen(ts: seq<Token>): (n: nat)
    ensures n <= 2 && n <= |ts|
    ensures n > 0 ==> IsLiteral(ts[n - 1]) && (n == 2 ==> IsSign(ts[0]))
    ensures n == 0 ==> ts == [] || !IsLiteral(ts[0])
    ensures n == 2 ==> ts[1].lexeme.Num? && !ts[1].spaced
    ensures ts != [] && IsLiteral(ts[0]) ==> n == 1
    ensures 1 < |ts| && IsSign(ts[0]) && ts[1].lexeme.Num? && !ts[1].spaced ==> n == 2
  {
    if ts != [] && IsLiteral(ts[0]) then 1
    else if 1 < |ts| && IsSign(ts[0]) && ts[1].lexeme.Num? && !ts[1].spaced then 2
    else 0
  }

  /** Length of `lit (, lit)* )` at the front of `ts`; 0 when it is not there. */
  function ListTail(ts: seq<Token>): (n: nat)
    ensures n <= |ts|
    decreases |ts|
  {
    var k := OperandLen(ts);
    if k == 0 || k == |ts| then 0
    else if ts[k].lexeme == Sym(")") then k + 1
    else if ts[k].lexeme == Sym(",") then
      var m := ListTail(ts[k + 1..]);
      if m > 0 then k + 1 + m else 0
    else 0
  }

  /** A parenthesised list made only of literals becomes `(???)`. */
  function ListRule(ts: seq<Token>): Option<Edit>
    requires ts != []
  {
    if 1 < |ts| && ts[0].lexeme == Sym("(") && ListTail(ts[1..]) > 0 then
      Some(Edit([ts[0], Hole(false), Token(false, Sym(")"))], 1 + ListTail(ts[1..])))
    else None
  }

  /** The literal after a comparison operator, LIMIT, OFFSET or LIKE becomes `???`. */
  function OperandRule(ts: seq<Token>): Option<Edit>
    requires ts != []
  {
    if 1 < |ts| && IsOperandTrigger(ts[0]) && OperandLen(ts[1..]) > 0 then
      Some(Edit([ts[0], Hole(ts[1].spaced)], 1 + OperandLen(ts[1..])))
    else None
  }

  /** `BETWEEN x AND y`: each literal bound becomes `???`, AND is kept. */
  function BetweenRule(ts: seq<Token>): Option<Edit>
    requires ts != []
  {
    if 1 < |ts| && IsKeyword(ts[0], "BETWEEN") && OperandLen(ts[1..]) > 0 then
      var k := 1 + OperandLen(ts[1..]);
      if k + 1 < |ts| && IsKeyword(ts[k], "AND") && OperandLen(ts[k + 1..]) > 0 then
        Some(Edit([ts[0], Hole(ts[1].spaced), ts[k], Hole(ts[k + 1].spaced)], k + 1 + OperandLen(ts[k + 1..])))
      else
        Some(Edit([ts[0], Hole(ts[1].spaced)], k))
    else None
  }

  /** `SIMILAR TO 'pattern'`: the pattern becomes `???`. */
  function SimilarRule(ts: seq<Token>): Option<Edit>
    requires ts != []
  {
    if 2 < |ts| && IsKeyword(ts[0], "SIMILAR") && IsKeyword(ts[1], "TO") && OperandLen(ts[2..]) > 0 then
      Some(Edit([ts[0], ts[1], Hole(ts[2].spaced)], 2 + OperandLen(ts[2..])))
    else None
  }

  /** Inside a VALUES clause, each literal element of a tuple becomes `???`. */
  function ElementRule(ts: seq<Token>, inValues: bool): Option<Edit>
    requires ts != []
  {
    if inValues && 1 < |ts| && IsListSeparator(ts[0]) then
      var k := OperandLen(ts[1..]);
      if 0 < k && 1 + k < |ts| && IsElementEnd(ts[1 + k]) then
        Some(Edit([ts[0], Hole(ts[1].spaced)], 1 + k))
      else None
    else None
  }

  /** The first rule that applies at the front of `ts`, in order; otherwise
      the first token passes through. */
  function Rewrite(ts: seq<Token>, inValues: bool): (e: Edit)
    requires ts != []
    ensures 1 <= e.used <= |ts|
    ensures e.out != [] && e.out[0] == ts[0]
  {
    if ListRule(ts).Some? then ListRule(ts).value
    else if OperandRule(ts).Some? then OperandRule(ts).value
    else if BetweenRule(ts).Some? then BetweenRule(ts).value
    else if SimilarRule(ts).Some? then SimilarRule(ts).value
    else if ElementRule(ts, inValues).Some? then ElementRule(ts, inValues).value
    else Edit([ts[0]], 1)
  }

  /** VALUES opens a list of tuples; a `;` ends the statement. */
  function NextMode(t: Token, inValues: bool): bool {
    if IsKeyword(t, "VALUES") then true
    else if t.lexeme == Sym(";") then false
    else inValues
  }

  /** The VALUES mode after the tokens `ts`. */
  function Mode(ts: seq<Token>, inValues: bool): bool
    decreases |ts|
  {
    if ts == [] then inValues else Mode(ts[1..], NextMode(ts[0], inValues))
  }

  /** One step of the masker at position `i`: the rewrite there, and the
      VALUES mode after the tokens it consumed. */
  function MaskStep(ts: seq<Token>, i: nat, inValues: bool): Step<Token>
    requires i < |ts|
  {
    Apply(ts[i..], Rewrite(ts[i..], inValues), inValues)
  }

  /** The step that emits `e.out` over the front of `ts`. */
  function Apply(ts: seq<Token>, e: Edit, inValues: bool): Step<Token>
    requires 1 <= e.used <= |ts|
  {
    Step(e.out, e.used, Mode(ts[..e.used], inValues))
  }

  lemma MaskAdvances()
    ensures Advances(MaskStep)
  {
  }

  /** Apply the rules left to right from position `i`; masked text is never
      looked at again. */
  function MaskFrom(ts: seq<Token>, i: nat, inValues: bool): seq<Token>
    requires i <= |ts|
  {
    MaskAdvances();
    Pass(MaskStep, ts, i, inValues)
  }

  function Mask(ts: seq<Token>, inValues: bool): seq<Token> {
    MaskFrom(ts, 0, inValues)
  }

  /** The VALUES mode the masker ends in. */
  function ModeAfter(ts: seq<Token>, inValues: bool): bool {
    MaskAdvances();
    Final(MaskStep, ts, 0, inValues)
  }

  /** `clean_sql_query`. */
  function CleanSqlQuery(sql: string): string {
    Render(Mask(Lex(Squish(sql)), false))
  }
}
