/** A left-to-right pass over a sequence: at each position a step function
    says what to emit, how many items it consumes and the state to carry on
    with. The lexer (over characters) and the masker (over tokens) are both
    passes. */
module Passes {

  /** What a step emits, how many items it consumes, and the next state. */
  datatype Step<O> = Step(out: seq<O>, used: nat, next: bool)

  type Stepper<!T, O> = (seq<T>, nat, bool) --> Step<O>

  /** Every step is defined inside the sequence, consumes at least one
      item and stays inside the sequence. */
  ghost predicate Advances<T(!new), O>(step: Stepper<T, O>) {
    forall xs: seq<T>, i: nat, st: bool | i < |xs| ::
      step.requires(xs, i, st) && 1 <= step(xs, i, st).used <= |xs| - i
  }

  function Pass<T(!new), O>(step: Stepper<T, O>, xs: seq<T>, i: nat, st: bool): seq<O>
    requires Advances(step) && i <= |xs|
    decreases |xs| - i
  {
    if i == |xs| then []
    else
      var r := step(xs, i, st);
      r.out + Pass(step, xs, i + r.used, r.next)
  }

  /** One step of a pass. */
  lemma PassStep<T(!new), O>(step: Stepper<T, O>, xs: seq<T>, i: nat, st: bool)
    requires Advances(step) && i < |xs|
    ensures var r := step(xs, i, st);
      Pass(step, xs, i, st) == r.out + Pass(step, xs, i + r.used, r.next)
  {
  }

  lemma FinalStep<T(!new), O>(step: Stepper<T, O>, xs: seq<T>, i: nat, st: bool)
    requires Advances(step) && i <= |xs|
    ensures i == |xs| ==> Final(step, xs, i, st) == st
    ensures i < |xs| ==> var r := step(xs, i, st);
      Final(step, xs, i, st) == Final(step, xs, i + r.used, r.next)
  {
  }

  /** The state the pass ends in. */
  function Final<T(!new), O>(step: Stepper<T, O>, xs: seq<T>, i: nat, st: bool): bool
    requires Advances(step) && i <= |xs|
    decreases |xs| - i
  {
    if i == |xs| then st
    else
      var r := step(xs, i, st);
      Final(step, xs, i + r.used, r.next)
  }

  /** Every step the pass over `xs` takes from position `i` is the same
      step whether or not `ys` follows. */
  ghost predicate StableFrom<T(!new), O>(step: Stepper<T, O>, xs: seq<T>, ys: seq<T>, i: nat, st: bool)
    requires Advances(step) && i <= |xs|
    decreases |xs| - i
  {
    i == |xs|
    || (var r := step(xs, i, st);
        step(xs + ys, i, st) == r && StableFrom(step, xs, ys, i + r.used, r.next))
  }

  /** The steps over `q` do not depend on what stands before `q`. */
  ghost predicate Shifts<T(!new), O>(step: Stepper<T, O>, p: seq<T>, q: seq<T>)
    requires Advances(step)
  {
    forall j: nat, st: bool | j < |q| :: step(p + q, |p| + j, st) == step(q, j, st)
  }

  lemma Regroup<O>(whole: seq<O>, part: seq<O>, head: seq<O>, a: seq<O>, b: seq<O>)
    requires whole == head + (a + b) && part == head + a
    ensures whole == part + b
  {
  }

  lemma {:induction false} PassPrefix<T(!new), O>(step: Stepper<T, O>, xs: seq<T>, ys: seq<T>, i: nat, st: bool)
    requires Advances(step) && i <= |xs| && StableFrom(step, xs, ys, i, st)
    ensures Pass(step, xs + ys, i, st) == Pass(step, xs, i, st) + Pass(step, xs + ys, |xs|, Final(step, xs, i, st))
    decreases |xs| - i
  {
    if i < |xs| {
      var r := step(xs, i, st);
      PassPrefix(step, xs, ys, i + r.used, r.next);
      var tail := Pass(step, xs + ys, |xs|, Final(step, xs, i, st));
      Regroup(Pass(step, xs + ys, i, st), Pass(step, xs, i, st), r.out, Pass(step, xs, i + r.used, r.next), tail);
    }
  }

  lemma {:induction false} PassShift<T(!new), O>(step: Stepper<T, O>, p: seq<T>, q: seq<T>, j: nat, st: bool)
    requires Advances(step) && j <= |q| && Shifts(step, p, q)
    ensures Pass(step, p + q, |p| + j, st) == Pass(step, q, j, st)
    ensures Final(step, p + q, |p| + j, st) == Final(step, q, j, st)
    decreases |q| - j
  {
    if j < |q| {
      var r := step(q, j, st);
      PassShift(step, p, q, j + r.used, r.next);
    }
  }

  lemma {:induction false} FinalPrefix<T(!new), O>(step: Stepper<T, O>, xs: seq<T>, ys: seq<T>, i: nat, st: bool)
    requires Advances(step) && i <= |xs| && StableFrom(step, xs, ys, i, st)
    ensures Final(step, xs + ys, i, st) == Final(step, xs + ys, |xs|, Final(step, xs, i, st))
    decreases |xs| - i
  {
    if i < |xs| {
      var r := step(xs, i, st);
      FinalPrefix(step, xs, ys, i + r.used, r.next);
    }
  }

  /** Steps that are the same at every position of `xs`, whatever
      follows, are in particular the same along the pass. */
  lemma {:induction false} StableEverywhere<T(!new), O>(step: Stepper<T, O>, xs: seq<T>, ys: seq<T>, i: nat, st: bool)
    requires Advances(step) && i <= |xs|
    requires forall j: nat, s: bool | j < |xs| :: step(xs + ys, j, s) == step(xs, j, s)
    ensures StableFrom(step, xs, ys, i, st)
    decreases |xs| - i
  {
    if i < |xs| {
      var r := step(xs, i, st);
      StableEverywhere(step, xs, ys, i + r.used, r.next);
    }
  }

  /** A pass splits where no step runs across the boundary. */
  lemma PassAppend<T(!new), O>(step: Stepper<T, O>, xs: seq<T>, ys: seq<T>, st: bool)
    requires Advances(step) && StableFrom(step, xs, ys, 0, st) && Shifts(step, xs, ys)
    ensures Pass(step, xs + ys, 0, st) == Pass(step, xs, 0, st) + Pass(step, ys, 0, Final(step, xs, 0, st))
    ensures Final(step, xs + ys, 0, st) == Final(step, ys, 0, Final(step, xs, 0, st))
  {
    PassPrefix(step, xs, ys, 0, st);
    FinalPrefix(step, xs, ys, 0, st);
    PassShift(step, xs, ys, 0, Final(step, xs, 0, st));
  }

  /** `g` applied to every item of `s`. */
  function Map<O>(g: O -> O, s: seq<O>): (r: seq<O>)
    ensures |r| == |s| && forall k :: 0 <= k < |s| ==> r[k] == g(s[k])
  {
    seq(|s|, k requires 0 <= k < |s| => g(s[k]))
  }

  lemma MapAppend<O>(g: O -> O, a: seq<O>, b: seq<O>)
    ensures Map(g, a + b) == Map(g, a) + Map(g, b)
  {
  }

  /** The step over `ys` at `j` is the step over `xs` with `g` applied to
      what it emits. */
  ghost predicate MapsStep<T(!new), O>(step: Stepper<T, O>, xs: seq<T>, ys: seq<T>, g: O -> O, j: nat, s: bool)
    requires Advances(step) && |xs| == |ys| && j < |xs|
  {
    var r := step(xs, j, s);
    step(ys, j, s) == Step(Map(g, r.out), r.used, r.next)
  }

  /** Two passes whose steps agree up to `g` on their output, position by
      position, agree up to `g` on all they emit and end in the same state. */
  lemma {:induction false} PassMap<T(!new), O>(step: Stepper<T, O>, xs: seq<T>, ys: seq<T>, g: O -> O, i: nat, st: bool)
    requires Advances(step) && |xs| == |ys| && i <= |xs|
    requires forall j: nat, s: bool | j < |xs| :: MapsStep(step, xs, ys, g, j, s)
    ensures Pass(step, ys, i, st) == Map(g, Pass(step, xs, i, st))
    ensures Final(step, ys, i, st) == Final(step, xs, i, st)
    decreases |xs| - i
  {
    FinalStep(step, xs, i, st);
    FinalStep(step, ys, i, st);
    if i < |xs| {
      var r := step(xs, i, st);
      assert MapsStep(step, xs, ys, g, i, st);
      PassStep(step, xs, i, st);
      PassStep(step, ys, i, st);
      PassMap(step, xs, ys, g, i + r.used, r.next);
      MapAppend(g, r.out, Pass(step, xs, i + r.used, r.next));
    }
  }

  /** Every item step `step` emits at any position of `xs` satisfies `p`. */
  ghost predicate EmitsWithin<T(!new), O>(step: Stepper<T, O>, xs: seq<T>, p: O -> bool, j: nat, s: bool)
    requires Advances(step) && j < |xs|
  {
    forall o <- step(xs, j, s).out :: p(o)
  }

  /** A pass emits only items its steps may emit. */
  lemma {:induction false} PassWithin<T(!new), O>(step: Stepper<T, O>, xs: seq<T>, p: O -> bool, i: nat, st: bool)
    requires Advances(step) && i <= |xs|
    requires forall j: nat, s: bool | j < |xs| :: EmitsWithin(step, xs, p, j, s)
    ensures forall o <- Pass(step, xs, i, st) :: p(o)
    decreases |xs| - i
  {
    if i < |xs| {
      var r := step(xs, i, st);
      assert EmitsWithin(step, xs, p, i, st);
      PassStep(step, xs, i, st);
      PassWithin(step, xs, p, i + r.used, r.next);
    }
  }
}
