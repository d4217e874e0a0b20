/** What masking keeps: the cleaned statement is squished text again, and
    every token but the literals, their signs and the list punctuation
    around them comes through masking unchanged and in order. */
module SqlMaskShape {
  import opened SqlText
  import opened Passes
  import opened SqlLexer
  import opened SqlMasker

  /** A token whose text is non-empty squished text. */
  ghost predicate Tidy(t: Token) {
    var s := Text(t.lexeme);
    s != [] && IsSquished(s)
  }

  ghost predicate AllTidy(ts: seq<Token>) {
    forall t <- ts :: Tidy(t)
  }

  /** A tidy token renders as plain, single-spaced text that starts with a
      space exactly when the token is spaced. */
  lemma RenderTokenSpaced(t: Token)
    requires Tidy(t)
    ensures var r := RenderToken(t);
      PlainSpaces(r) && SingleSpaced(r) && r != [] && (r[0] == ' ' <==> t.spaced)
  {
    var s := Text(t.lexeme);
    if t.spaced {
      var r := RenderToken(t);
      assert r == [' '] + s;
      forall i | 0 <= i < |r| && IsSpace(r[i])
        ensures r[i] == ' '
      {
        if i > 0 {
          assert r[i] == s[i - 1];
        }
      }
      forall j, k | 0 <= j && k == j + 1 < |r|
        ensures !(r[j] == ' ' && r[k] == ' ')
      {
        if j > 0 {
          assert r[j] == s[j - 1] && r[k] == s[k - 1];
        } else {
          assert r[k] == s[0];
        }
      }
      assert r[|r| - 1] == s[|s| - 1];
    }
  }

  lemma {:induction false} RenderSpaced(ts: seq<Token>)
    requires AllTidy(ts)
    ensures PlainSpaces(Render(ts)) && SingleSpaced(Render(ts))
    ensures ts != [] ==> Render(ts) != [] && (Render(ts)[0] == ' ' <==> ts[0].spaced)
    decreases |ts|
  {
    if ts != [] {
      assert Tidy(ts[0]);
      RenderTokenSpaced(ts[0]);
      RenderSpaced(ts[1..]);
      SpacedAppend(RenderToken(ts[0]), Render(ts[1..]));
    }
  }

  /** Tidy tokens, the first of them unspaced, render as squished text. */
  lemma RenderSquished(ts: seq<Token>)
    requires AllTidy(ts) && (ts != [] ==> !ts[0].spaced)
    ensures IsSquished(Render(ts))
  {
    RenderSpaced(ts);
  }

  /** A stretch of squished text that starts and ends with a non-space is
      squished. */
  lemma SliceSquished(s: string, a: nat, b: nat)
    requires IsSquished(s) && a < b <= |s| && s[a] != ' ' && s[b - 1] != ' '
    ensures IsSquished(s[a..b])
  {
    var u := s[a..b];
    forall i | 0 <= i < |u| && IsSpace(u[i])
      ensures u[i] == ' '
    {
      assert u[i] == s[a + i];
    }
    forall j, k | 0 <= j && k == j + 1 < |u|
      ensures !(u[j] == ' ' && u[k] == ' ')
    {
      assert u[j] == s[a + j] && u[k] == s[a + k];
    }
  }

  /** The token scanned at a non-space of squished text is tidy. */
  lemma ScanTidy(s: string, j: nat, sp: bool)
    requires IsSquished(s) && j < |s| && s[j] != ' '
    ensures Tidy(Token(sp, Scan(s[j..]).lexeme))
  {
    var r := Scan(s[j..]);
    assert Text(r.lexeme) == s[j..j + r.len];
    SliceSquished(s, j, j + r.len);
  }

  lemma LexStepTidy(s: string, j: nat, sp: bool)
    requires IsSquished(s) && j < |s|
    ensures Advances(LexStep)
    ensures EmitsWithin(LexStep, s, Tidy, j, sp)
  {
    LexAdvances();
    if s[j] != ' ' {
      ScanTidy(s, j, sp);
      assert LexStep(s, j, sp).out == [Token(sp, Scan(s[j..]).lexeme)];
    }
  }

  /** The tokens of squished text are tidy, and the first is unspaced. */
  lemma LexTidy(s: string)
    requires IsSquished(s)
    ensures AllTidy(Lex(s))
    ensures Lex(s) != [] ==> !Lex(s)[0].spaced
  {
    LexAdvances();
    forall j: nat, sp: bool | j < |s|
      ensures EmitsWithin(LexStep, s, Tidy, j, sp)
    {
      LexStepTidy(s, j, sp);
    }
    PassWithin(LexStep, s, Tidy, 0, false);
    if s != [] {
      PassStep(LexStep, s, 0, false);
    }
  }

  lemma HoleTidy(sp: bool)
    ensures Tidy(Hole(sp))
  {
    assert Text(Hole(sp).lexeme) == "???";
  }

  lemma CloseTidy()
    ensures Tidy(Token(false, Sym(")")))
  {
    assert Text(Sym(")")) == ")";
  }

  /** A rewrite emits tokens it was given, placeholders and `)`. */
  lemma RewriteTidy(z: seq<Token>, v: bool)
    requires z != [] && AllTidy(z)
    ensures AllTidy(Rewrite(z, v).out)
  {
    var out := Rewrite(z, v).out;
    assert Tidy(z[0]);
    if ListRule(z).Some? {
      HoleTidy(false);
      CloseTidy();
      assert out == [z[0], Hole(false), Token(false, Sym(")"))];
    } else if OperandRule(z).Some? {
      HoleTidy(z[1].spaced);
      assert out == [z[0], Hole(z[1].spaced)];
    } else if BetweenRule(z).Some? {
      BetweenTidy(z);
    } else if SimilarRule(z).Some? {
      HoleTidy(z[2].spaced);
      assert Tidy(z[1]);
      assert out == [z[0], z[1], Hole(z[2].spaced)];
    } else if ElementRule(z, v).Some? {
      HoleTidy(z[1].spaced);
      assert out == [z[0], Hole(z[1].spaced)];
    } else {
      assert out == [z[0]];
    }
  }

  lemma BetweenTidy(z: seq<Token>)
    requires z != [] && AllTidy(z) && BetweenRule(z).Some?
    ensures AllTidy(BetweenRule(z).value.out)
  {
    var out := BetweenRule(z).value.out;
    var k := 1 + OperandLen(z[1..]);
    assert Tidy(z[0]);
    HoleTidy(z[1].spaced);
    if k + 1 < |z| && IsKeyword(z[k], "AND") && OperandLen(z[k + 1..]) > 0 {
      HoleTidy(z[k + 1].spaced);
      assert Tidy(z[k]);
      assert out == [z[0], Hole(z[1].spaced), z[k], Hole(z[k + 1].spaced)];
    } else {
      assert out == [z[0], Hole(z[1].spaced)];
    }
  }

  lemma MaskStepTidy(ts: seq<Token>, j: nat, st: bool)
    requires AllTidy(ts) && j < |ts|
    ensures Advances(MaskStep)
    ensures EmitsWithin(MaskStep, ts, Tidy, j, st)
  {
    MaskAdvances();
    assert AllTidy(ts[j..]);
    RewriteTidy(ts[j..], st);
  }

  /** Masking tidy tokens gives tidy tokens, and keeps the first token. */
  lemma MaskTidy(ts: seq<Token>, v: bool)
    requires AllTidy(ts)
    ensures AllTidy(Mask(ts, v))
    ensures ts != [] ==> Mask(ts, v) != [] && Mask(ts, v)[0] == ts[0]
  {
    MaskAdvances();
    forall j: nat, st: bool | j < |ts|
      ensures EmitsWithin(MaskStep, ts, Tidy, j, st)
    {
      MaskStepTidy(ts, j, st);
    }
    PassWithin(MaskStep, ts, Tidy, 0, v);
    if ts != [] {
      PassStep(MaskStep, ts, 0, v);
      assert ts[0..] == ts;
    }
  }

  /** `clean_sql_query` returns squished text: no whitespace at either end,
      no whitespace but single spaces. */
  lemma CleanIsSquished(sql: string)
    ensures IsSquished(CleanSqlQuery(sql))
  {
    var s := Squish(sql);
    SquishIsSquished(sql);
    LexTidy(s);
    MaskTidy(Lex(s), false);
    RenderSquished(Mask(Lex(s), false));
  }

  /** The tokens masking never replaces: everything but a literal, a sign,
      the list punctuation `,` and `)`, and a placeholder. Keywords,
      identifiers, operators, `(`, `.`, `*` and `;` are all plain. */
  predicate Plain(t: Token) {
    && !IsLiteral(t) && !IsSign(t) && !t.lexeme.Masked?
    && t.lexeme != Sym(",") && t.lexeme != Sym(")")
  }

  /** The plain tokens of a token sequence, in order. */
  function Kept(ts: seq<Token>): seq<Token>
    decreases |ts|
  {
    if ts == [] then []
    else (if Plain(ts[0]) then [ts[0]] else []) + Kept(ts[1..])
  }

  lemma {:induction false} KeptAppend(a: seq<Token>, b: seq<Token>)
    ensures Kept(a + b) == Kept(a) + Kept(b)
    decreases |a|
  {
    if a == [] {
      assert a + b == b;
    } else {
      var ab := a + b;
      var head := if Plain(a[0]) then [a[0]] else [];
      assert ab[0] == a[0] && ab[1..] == a[1..] + b;
      assert Kept(ab) == head + Kept(ab[1..]);
      KeptAppend(a[1..], b);
    }
  }

  /** Tokens none of which is plain. */
  ghost predicate Bare(ts: seq<Token>) {
    forall t <- ts :: !Plain(t)
  }

  lemma {:induction false} BareKept(ts: seq<Token>)
    requires Bare(ts)
    ensures Kept(ts) == []
    decreases |ts|
  {
    if ts != [] {
      assert ts[0] in ts;
      assert Bare(ts[1..]);
      BareKept(ts[1..]);
    }
  }

  /** A literal operand, signed or not, holds no plain token. */
  lemma OperandBare(ts: seq<Token>, a: nat, b: nat)
    requires a <= b <= |ts| && b - a == OperandLen(ts[a..])
    ensures Bare(ts[a..b])
  {
    var n := b - a;
    assert n > 0 ==> ts[a..b][n - 1] == ts[a..][n - 1];
    assert n == 2 ==> ts[a..b][0] == ts[a..][0];
  }

  /** The rest of a literal list, commas and `)` included, holds no plain token. */
  lemma {:induction false} ListTailBare(ts: seq<Token>)
    ensures Bare(ts[..ListTail(ts)])
    decreases |ts|
  {
    var k := OperandLen(ts);
    var m := ListTail(ts);
    if 0 < k < |ts| && (ts[k].lexeme == Sym(")") || ts[k].lexeme == Sym(",")) {
      OperandBare(ts, 0, k);
      assert ts[0..] == ts;
      if ts[k].lexeme == Sym(",") {
        ListTailBare(ts[k + 1..]);
      }
      forall t <- ts[..m]
        ensures !Plain(t)
      {
        var i :| 0 <= i < m && ts[..m][i] == t;
        if i < k {
          assert t == ts[0..k][i];
        } else if i > k {
          assert t == ts[k + 1..][..ListTail(ts[k + 1..])][i - k - 1];
        }
      }
    } else {
      assert m == 0;
    }
  }

  /** A placeholder in place of a literal operand leaves the plain tokens alone. */
  lemma HoleKept(front: seq<Token>, rest: seq<Token>, sp: bool)
    requires Bare(rest)
    ensures Kept(front + [Hole(sp)]) == Kept(front + rest)
  {
    KeptAppend(front, [Hole(sp)]);
    KeptAppend(front, rest);
    BareKept(rest);
    assert Bare([Hole(sp)]);
    BareKept([Hole(sp)]);
  }

  lemma ListRuleKept(z: seq<Token>)
    requires z != [] && ListRule(z).Some?
    ensures Kept(ListRule(z).value.out) == Kept(z[..ListRule(z).value.used])
  {
    var m := ListTail(z[1..]);
    ListTailBare(z[1..]);
    var u := z[..1 + m];
    assert u == [z[0]] + z[1..][..m];
    KeptAppend([z[0]], z[1..][..m]);
    BareKept(z[1..][..m]);
    var tail := [Hole(false), Token(false, Sym(")"))];
    assert ListRule(z).value.out == [z[0]] + tail;
    assert Bare(tail);
    BareKept(tail);
    KeptAppend([z[0]], tail);
  }

  /** `front` followed by the literal operand at `a` in `z`, or by `???`. */
  lemma OperandKept(z: seq<Token>, front: seq<Token>, a: nat, sp: bool)
    requires 0 < a < |z| && front == z[..a]
    ensures Kept(front + [Hole(sp)]) == Kept(z[..a + OperandLen(z[a..])])
  {
    var b := a + OperandLen(z[a..]);
    OperandBare(z, a, b);
    assert z[..b] == front + z[a..b];
    HoleKept(front, z[a..b], sp);
  }

  lemma OperandRuleKept(z: seq<Token>)
    requires z != [] && OperandRule(z).Some?
    ensures Kept(OperandRule(z).value.out) == Kept(z[..OperandRule(z).value.used])
  {
    OperandKept(z, z[..1], 1, z[1].spaced);
    assert [z[0]] == z[..1];
  }

  lemma BetweenRuleKept(z: seq<Token>)
    requires z != [] && BetweenRule(z).Some?
    ensures Kept(BetweenRule(z).value.out) == Kept(z[..BetweenRule(z).value.used])
  {
    var k := 1 + OperandLen(z[1..]);
    OperandKept(z, z[..1], 1, z[1].spaced);
    assert [z[0]] == z[..1];
    if k + 1 < |z| && IsKeyword(z[k], "AND") && OperandLen(z[k + 1..]) > 0 {
      BetweenAndKept(z, k);
    }
  }

  /** `BETWEEN` with both bounds masked, the `AND` at `k`. */
  lemma BetweenAndKept(z: seq<Token>, k: nat)
    requires 1 < k && k + 1 < |z|
    ensures var used := k + 1 + OperandLen(z[k + 1..]);
      Kept([z[0], Hole(z[1].spaced), z[k], Hole(z[k + 1].spaced)])
        == Kept([z[0], Hole(z[1].spaced)]) + Kept(z[k..used])
    ensures Kept(z[..k + 1 + OperandLen(z[k + 1..])])
      == Kept(z[..k]) + Kept(z[k..k + 1 + OperandLen(z[k + 1..])])
  {
    var used := k + 1 + OperandLen(z[k + 1..]);
    var w := z[k..];
    OperandKept(w, w[..1], 1, z[k + 1].spaced);
    assert w[1..] == z[k + 1..] && w[..1] == [z[k]];
    assert w[..1 + OperandLen(w[1..])] == z[k..used];
    assert z[..used] == z[..k] + z[k..used];
    KeptAppend(z[..k], z[k..used]);
    var out := [z[0], Hole(z[1].spaced), z[k], Hole(z[k + 1].spaced)];
    assert out == [z[0], Hole(z[1].spaced)] + [z[k], Hole(z[k + 1].spaced)];
    KeptAppend([z[0], Hole(z[1].spaced)], [z[k], Hole(z[k + 1].spaced)]);
  }

  lemma SimilarRuleKept(z: seq<Token>)
    requires z != [] && SimilarRule(z).Some?
    ensures Kept(SimilarRule(z).value.out) == Kept(z[..SimilarRule(z).value.used])
  {
    OperandKept(z, z[..2], 2, z[2].spaced);
    assert [z[0], z[1]] == z[..2];
  }

  lemma ElementRuleKept(z: seq<Token>, v: bool)
    requires z != [] && ElementRule(z, v).Some?
    ensures Kept(ElementRule(z, v).value.out) == Kept(z[..ElementRule(z, v).value.used])
  {
    OperandKept(z, z[..1], 1, z[1].spaced);
    assert [z[0]] == z[..1];
  }

  /** A rewrite emits exactly the plain tokens it consumed, in order: it
      replaces only literals, signs, list punctuation and placeholders. */
  lemma RewriteKeeps(z: seq<Token>, v: bool)
    requires z != []
    ensures Kept(Rewrite(z, v).out) == Kept(z[..Rewrite(z, v).used])
  {
    if ListRule(z).Some? {
      ListRuleKept(z);
    } else if OperandRule(z).Some? {
      OperandRuleKept(z);
    } else if BetweenRule(z).Some? {
      BetweenRuleKept(z);
    } else if SimilarRule(z).Some? {
      SimilarRuleKept(z);
    } else if ElementRule(z, v).Some? {
      ElementRuleKept(z, v);
    } else {
      assert Rewrite(z, v).out == [z[0]] == z[..1];
    }
  }

  lemma MaskStepKept(ts: seq<Token>, i: nat, st: bool)
    requires i < |ts|
    ensures Advances(MaskStep)
    ensures var r := MaskStep(ts, i, st);
      i + r.used <= |ts| && Kept(r.out) == Kept(ts[i..i + r.used])
  {
    MaskAdvances();
    var e := Rewrite(ts[i..], st);
    RewriteKeeps(ts[i..], st);
    assert ts[i..][..e.used] == ts[i..i + e.used];
  }

  lemma {:induction false} MaskFromKept(ts: seq<Token>, i: nat, st: bool)
    requires i <= |ts|
    ensures Advances(MaskStep)
    ensures Kept(Pass(MaskStep, ts, i, st)) == Kept(ts[i..])
    decreases |ts| - i
  {
    MaskAdvances();
    if i < |ts| {
      var r := MaskStep(ts, i, st);
      var j := i + r.used;
      MaskStepKept(ts, i, st);
      PassStep(MaskStep, ts, i, st);
      MaskFromKept(ts, j, r.next);
      assert ts[i..] == ts[i..j] + ts[j..];
      KeptAppend(r.out, Pass(MaskStep, ts, j, r.next));
      KeptAppend(ts[i..j], ts[j..]);
    }
  }

  /** Masking replaces literal values only: every plain token of the
      statement comes through unchanged, spacing included, and in order,
      and masking adds no plain token of its own. */
  lemma MaskKeepsPlain(ts: seq<Token>, v: bool)
    ensures Kept(Mask(ts, v)) == Kept(ts)
  {
    MaskFromKept(ts, 0, v);
    assert ts[0..] == ts;
  }

  /** With no literal anywhere, no rule applies: the first token passes through. */
  lemma NoOperand(ts: seq<Token>)
    requires forall t <- ts :: !IsLiteral(t)
    ensures OperandLen(ts) == 0 && ListTail(ts) == 0
  {
    if ts != [] {
      assert ts[0] in ts;
      if 1 < |ts| {
        assert ts[1] in ts;
      }
    }
  }

  lemma RewriteNoLiteral(z: seq<Token>, v: bool)
    requires z != [] && forall t <- z :: !IsLiteral(t)
    ensures Rewrite(z, v) == Edit([z[0]], 1)
  {
    NoOperand(z[1..]);
    if 2 < |z| {
      NoOperand(z[2..]);
    }
  }

  lemma MaskStepNoLiteral(ts: seq<Token>, i: nat, st: bool)
    requires i < |ts| && forall t <- ts :: !IsLiteral(t)
    ensures MaskStep(ts, i, st).out == [ts[i]] && MaskStep(ts, i, st).used == 1
  {
    RewriteNoLiteral(ts[i..], st);
  }

  lemma {:induction false} MaskFromNoLiteral(ts: seq<Token>, i: nat, st: bool)
    requires i <= |ts| && forall t <- ts :: !IsLiteral(t)
    ensures Advances(MaskStep)
    ensures Pass(MaskStep, ts, i, st) == ts[i..]
    decreases |ts| - i
  {
    MaskAdvances();
    if i < |ts| {
      MaskStepNoLiteral(ts, i, st);
      var r := MaskStep(ts, i, st);
      PassStep(MaskStep, ts, i, st);
      MaskFromNoLiteral(ts, i + 1, r.next);
      assert ts[i..] == [ts[i]] + ts[i + 1..];
    }
  }

  /** A statement without a literal value comes out of masking unchanged. */
  lemma MaskNoLiteral(ts: seq<Token>, v: bool)
    requires forall t <- ts :: !IsLiteral(t)
    ensures Mask(ts, v) == ts
  {
    MaskFromNoLiteral(ts, 0, v);
    assert ts[0..] == ts;
  }

  /** The words of a token sequence, in order. */
  function Words(ts: seq<Token>): seq<string>
    decreases |ts|
  {
    if ts == [] then []
    else (if ts[0].lexeme.Word? then [ts[0].lexeme.w] else []) + Words(ts[1..])
  }

  lemma {:induction false} WordsAppend(a: seq<Token>, b: seq<Token>)
    ensures Words(a + b) == Words(a) + Words(b)
    decreases |a|
  {
    if a == [] {
      assert a + b == b;
    } else {
      assert (a + b)[1..] == a[1..] + b;
      WordsAppend(a[1..], b);
    }
  }

  /** Every word is plain, so the plain tokens hold all the words. */
  lemma {:induction false} WordsOfKept(ts: seq<Token>)
    ensures Words(Kept(ts)) == Words(ts)
    decreases |ts|
  {
    if ts != [] {
      var head := if Plain(ts[0]) then [ts[0]] else [];
      WordsOfKept(ts[1..]);
      WordsAppend(head, Kept(ts[1..]));
      assert Words(head) == (if ts[0].lexeme.Word? then [ts[0].lexeme.w] else []) by {
        if Plain(ts[0]) {
          assert head[1..] == [];
        }
      }
    }
  }

  /** Masking keeps every keyword and identifier: the words of the
      statement come through unchanged and in order. */
  lemma MaskKeepsWords(ts: seq<Token>, v: bool)
    ensures Words(Mask(ts, v)) == Words(ts)
  {
    MaskKeepsPlain(ts, v);
    WordsOfKept(Mask(ts, v));
    WordsOfKept(ts);
  }
}
