/** Where the masker's input can be cut: no rule looks past an ordinary
    word, so masking a concatenation cut after one masks each part. */
module SqlMaskSplit {
  import opened SqlText
  import opened SqlLexer
  import opened Passes
  import opened SqlMasker

  /** A word that no rule reads as a keyword: it neither starts a rule nor
      continues one. */
  predicate IsPlain(t: Token) {
    && t.lexeme.Word?
    && !IsKeyword(t, "LIMIT") && !IsKeyword(t, "OFFSET") && !IsKeyword(t, "LIKE")
    && !IsKeyword(t, "BETWEEN") && !IsKeyword(t, "AND")
    && !IsKeyword(t, "SIMILAR") && !IsKeyword(t, "TO")
  }

  predicate PlainEnd(z: seq<Token>) {
    z != [] && IsPlain(z[|z| - 1])
  }

  /** Cutting a plain-ended `z` before a token that is not its last. */
  lemma DropPlain(z: seq<Token>, y: seq<Token>, k: nat)
    requires PlainEnd(z) && k < |z|
    ensures (z + y)[k..] == z[k..] + y && PlainEnd(z[k..])
  {
  }

  lemma OperandLenStable(z: seq<Token>, y: seq<Token>)
    requires PlainEnd(z)
    ensures OperandLen(z + y) == OperandLen(z)
  {
    assert (z + y)[0] == z[0];
    if !IsLiteral(z[0]) && IsSign(z[0]) {
      assert (z + y)[1] == z[1];
    }
  }

  lemma {:induction false} ListTailStable(z: seq<Token>, y: seq<Token>)
    requires PlainEnd(z)
    ensures ListTail(z + y) == ListTail(z)
    decreases |z|
  {
    var k := OperandLen(z);
    OperandLenStable(z, y);
    if k > 0 {
      assert k < |z|;
      assert (z + y)[k] == z[k];
      if z[k].lexeme == Sym(",") {
        DropPlain(z, y, k + 1);
        ListTailStable(z[k + 1..], y);
      }
    }
  }

  lemma ListRuleStable(z: seq<Token>, y: seq<Token>)
    requires PlainEnd(z)
    ensures ListRule(z + y) == ListRule(z)
  {
    assert (z + y)[0] == z[0];
    if z[0].lexeme == Sym("(") {
      DropPlain(z, y, 1);
      ListTailStable(z[1..], y);
    }
  }

  lemma OperandRuleStable(z: seq<Token>, y: seq<Token>)
    requires PlainEnd(z)
    ensures OperandRule(z + y) == OperandRule(z)
  {
    assert (z + y)[0] == z[0];
    if IsOperandTrigger(z[0]) {
      DropPlain(z, y, 1);
      OperandLenStable(z[1..], y);
      assert (z + y)[1] == z[1];
    }
  }

  lemma BetweenRuleStable(z: seq<Token>, y: seq<Token>)
    requires PlainEnd(z)
    ensures BetweenRule(z + y) == BetweenRule(z)
  {
    var ts := z + y;
    assert ts[0] == z[0];
    if IsKeyword(z[0], "BETWEEN") {
      DropPlain(z, y, 1);
      OperandLenStable(z[1..], y);
      assert ts[1] == z[1];
      var n := OperandLen(z[1..]);
      if n > 0 {
        var k := 1 + n;
        assert z[k - 1] == z[1..][n - 1];
        assert k < |z| && ts[k] == z[k];
        if IsKeyword(z[k], "AND") {
          DropPlain(z, y, k + 1);
          OperandLenStable(z[k + 1..], y);
          assert ts[k + 1] == z[k + 1];
        }
      }
    }
  }

  lemma SimilarRuleStable(z: seq<Token>, y: seq<Token>)
    requires PlainEnd(z)
    ensures SimilarRule(z + y) == SimilarRule(z)
  {
    var ts := z + y;
    assert ts[0] == z[0];
    if IsKeyword(z[0], "SIMILAR") {
      assert ts[1] == z[1];
      if IsKeyword(z[1], "TO") {
        DropPlain(z, y, 2);
        OperandLenStable(z[2..], y);
        assert ts[2] == z[2];
      }
    }
  }

  lemma ElementRuleStable(z: seq<Token>, y: seq<Token>, inValues: bool)
    requires PlainEnd(z)
    ensures ElementRule(z + y, inValues) == ElementRule(z, inValues)
  {
    var ts := z + y;
    assert ts[0] == z[0];
    if IsListSeparator(z[0]) {
      DropPlain(z, y, 1);
      OperandLenStable(z[1..], y);
      assert ts[1] == z[1];
      var k := OperandLen(z[1..]);
      if k > 0 {
        assert z[k] == z[1..][k - 1];
        assert 1 + k < |z| && ts[1 + k] == z[1 + k];
      }
    }
  }

  /** The rewrite at the front of a plain-ended `z` ignores what follows `z`. */
  lemma RewriteStable(z: seq<Token>, y: seq<Token>, inValues: bool)
    requires PlainEnd(z)
    ensures Rewrite(z + y, inValues) == Rewrite(z, inValues)
  {
    ListRuleStable(z, y);
    OperandRuleStable(z, y);
    BetweenRuleStable(z, y);
    SimilarRuleStable(z, y);
    ElementRuleStable(z, y, inValues);
    assert (z + y)[0] == z[0];
  }

  lemma ApplyStable(z: seq<Token>, y: seq<Token>, e: Edit, v: bool)
    requires 1 <= e.used <= |z|
    ensures Apply(z + y, e, v) == Apply(z, e, v)
  {
    assert (z + y)[..e.used] == z[..e.used];
  }

  lemma MaskStepStableAt(x: seq<Token>, y: seq<Token>, i: nat, v: bool)
    requires PlainEnd(x) && i < |x|
    ensures MaskStep(x + y, i, v) == MaskStep(x, i, v)
  {
    var z := x[i..];
    DropPlain(x, y, i);
    RewriteStable(z, y, v);
    ApplyStable(z, y, Rewrite(z, v), v);
  }

  lemma MaskStepStable(x: seq<Token>, y: seq<Token>)
    requires PlainEnd(x)
    ensures forall i: nat, v: bool | i < |x| :: MaskStep(x + y, i, v) == MaskStep(x, i, v)
  {
    forall i: nat, v: bool | i < |x|
      ensures MaskStep(x + y, i, v) == MaskStep(x, i, v)
    {
      MaskStepStableAt(x, y, i, v);
    }
  }

  lemma DropFront(p: seq<Token>, q: seq<Token>, j: nat)
    requires j <= |q|
    ensures (p + q)[|p| + j..] == q[j..]
  {
  }

  /** A masker step depends only on the tokens from its position on. */
  lemma MaskStepAt(ts: seq<Token>, i: nat, us: seq<Token>, j: nat, v: bool)
    requires i < |ts| && j < |us| && ts[i..] == us[j..]
    ensures MaskStep(ts, i, v) == MaskStep(us, j, v)
  {
  }

  /** The masker's steps over `q` do not depend on what stands before it. */
  lemma MaskShifts(p: seq<Token>, q: seq<Token>)
    ensures Advances(MaskStep) && Shifts(MaskStep, p, q)
  {
    MaskAdvances();
    forall j: nat, v: bool | j < |q|
      ensures MaskStep(p + q, |p| + j, v) == MaskStep(q, j, v)
    {
      var pq, k := p + q, |p| + j;
      DropFront(p, q, j);
      MaskStepAt(pq, k, q, j, v);
    }
  }

  /** Masking splits after an ordinary word; the VALUES mode carries over. */
  lemma MaskAppend(x: seq<Token>, y: seq<Token>, inValues: bool)
    requires PlainEnd(x)
    ensures Mask(x + y, inValues) == Mask(x, inValues) + Mask(y, ModeAfter(x, inValues))
    ensures ModeAfter(x + y, inValues) == ModeAfter(y, ModeAfter(x, inValues))
  {
    MaskAdvances();
    MaskStepStable(x, y);
    StableEverywhere(MaskStep, x, y, 0, inValues);
    MaskShifts(x, y);
    PassAppend(MaskStep, x, y, inValues);
  }
}
