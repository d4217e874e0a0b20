/** Character classes, ASCII case folding and whitespace collapsing ("squish")
    used by the SQL normalizer. */
module SqlText {

  /** Whitespace as squish understands it (ASCII only). */
  predicate IsSpace(c: char) {
    c == ' ' || c == '\t' || c == '\n' || c == '\r' || c == 11 as char || c == 12 as char
  }

  predicate IsUpper(c: char) { 'A' <= c <= 'Z' }
  predicate IsLower(c: char) { 'a' <= c <= 'z' }
  predicate IsLetter(c: char) { IsUpper(c) || IsLower(c) }
  predicate IsDigit(c: char) { '0' <= c <= '9' }

  function LowerChar(c: char): (d: char)
    ensures IsUpper(c) ==> IsLower(d) && d as int == c as int + 32
    ensures !IsUpper(c) ==> d == c
  {
    if IsUpper(c) then (c as int + 32) as char else c
  }

  function UpperChar(c: char): (d: char)
    ensures IsLower(c) ==> IsUpper(d) && d as int == c as int - 32
    ensures !IsLower(c) ==> d == c
  {
    if IsLower(c) then (c as int - 32) as char else c
  }

  /** ASCII `downcase`. */
  function Lower(s: string): string
    decreases |s|
  {
    if s == [] then [] else [LowerChar(s[0])] + Lower(s[1..])
  }

  /** ASCII `upcase`. */
  function Upper(s: string): string
    decreases |s|
  {
    if s == [] then [] else [UpperChar(s[0])] + Upper(s[1..])
  }

  lemma {:induction false} LowerAt(s: string)
    ensures |Lower(s)| == |s|
    ensures forall i :: 0 <= i < |s| ==> Lower(s)[i] == LowerChar(s[i])
  {
    if s != [] {
      LowerAt(s[1..]);
    }
  }

  lemma {:induction false} LowerAppend(a: string, b: string)
    ensures Lower(a + b) == Lower(a) + Lower(b)
  {
    if a == [] {
      assert a + b == b;
    } else {
      assert (a + b)[1..] == a[1..] + b;
      LowerAppend(a[1..], b);
    }
  }

  /** Folding is idempotent: a folded string folds to itself. */
  lemma {:induction false} LowerLower(s: string)
    ensures Lower(Lower(s)) == Lower(s)
  {
    if s != [] {
      LowerLower(s[1..]);
    }
  }

  /** Upper-casing ignores the case of its input. */
  lemma {:induction false} UpperLower(s: string)
    ensures Upper(Lower(s)) == Upper(s)
  {
    if s != [] {
      UpperLower(s[1..]);
    }
  }

  lemma {:induction false} UpperLength(s: string)
    ensures |Upper(s)| == |s|
  {
    if s != [] {
      UpperLength(s[1..]);
    }
  }

  /** `w` spells the upper-case word `kw`, in any mix of cases. */
  predicate EqualsUpper(w: string, kw: string) {
    |w| == |kw| && SpellsFrom(w, kw, 0)
  }

  /** From position `i` on, `w` spells `kw` in any mix of cases. */
  predicate SpellsFrom(w: string, kw: string, i: nat)
    requires |w| == |kw| && i <= |w|
    decreases |w| - i
  {
    i == |w| || (UpperChar(w[i]) == kw[i] && SpellsFrom(w, kw, i + 1))
  }

  lemma {:induction false} SpellsFromIsUpper(w: string, kw: string, i: nat)
    requires |w| == |kw| && i <= |w|
    ensures SpellsFrom(w, kw, i) <==> Upper(w[i..]) == kw[i..]
    decreases |w| - i
  {
    if i < |w| {
      SpellsFromIsUpper(w, kw, i + 1);
      assert w[i..][1..] == w[i + 1..];
      assert Upper(w[i..]) == [UpperChar(w[i])] + Upper(w[i + 1..]);
      assert kw[i..] == [kw[i]] + kw[i + 1..];
      if Upper(w[i..]) == kw[i..] {
        assert Upper(w[i..])[1..] == kw[i + 1..];
      }
    }
  }

  lemma EqualsUpperIsUpper(w: string, kw: string)
    ensures EqualsUpper(w, kw) <==> Upper(w) == kw
  {
    UpperLength(w);
    if |w| == |kw| {
      SpellsFromIsUpper(w, kw, 0);
      assert w[0..] == w && kw[0..] == kw;
    }
  }

  /** From position `i` on, `a` and `b` differ at most in the case of their letters. */
  predicate SameLowerFrom(a: string, b: string, i: nat)
    requires |a| == |b| && i <= |a|
    decreases |a| - i
  {
    i == |a| || (LowerChar(a[i]) == LowerChar(b[i]) && SameLowerFrom(a, b, i + 1))
  }

  /** Texts that differ only in the case of their letters fold to the same text. */
  lemma {:induction false} SameLower(a: string, b: string, i: nat)
    requires |a| == |b| && i <= |a| && SameLowerFrom(a, b, i)
    ensures Lower(a[i..]) == Lower(b[i..])
    decreases |a| - i
  {
    if i < |a| {
      SameLower(a, b, i + 1);
      assert a[i..][1..] == a[i + 1..] && b[i..][1..] == b[i + 1..];
    }
  }

  /** From position `i` on, `s` holds no whitespace. */
  predicate NoSpaceFrom(s: string, i: nat)
    requires i <= |s|
    decreases |s| - i
  {
    i == |s| || (!IsSpace(s[i]) && NoSpaceFrom(s, i + 1))
  }

  lemma {:induction false} NoSpaceAt(s: string, i: nat, j: nat)
    requires i <= j < |s| && NoSpaceFrom(s, i)
    ensures !IsSpace(s[j])
    decreases j - i
  {
    if i < j {
      NoSpaceAt(s, i + 1, j);
    }
  }

  /** Every whitespace character of `s` is a plain space. */
  ghost predicate PlainSpaces(s: string) {
    forall i :: 0 <= i < |s| && IsSpace(s[i]) ==> s[i] == ' '
  }

  /** No two spaces in a row and no space at the end. */
  ghost predicate SingleSpaced(s: string) {
    && (s != [] ==> s[|s| - 1] != ' ')
    && forall j, k :: 0 <= j && k == j + 1 < |s| ==> !(s[j] == ' ' && s[k] == ' ')
  }

  /** A squished string: its only whitespace is single inner spaces. */
  ghost predicate IsSquished(s: string) {
    (s != [] ==> s[0] != ' ') && PlainSpaces(s) && SingleSpaced(s)
  }

  /** Joining two single-spaced strings keeps it single-spaced. */
  lemma SingleSpacedAppend(a: string, b: string)
    requires SingleSpaced(a) && SingleSpaced(b)
    ensures SingleSpaced(a + b)
  {
    var s := a + b;
    forall j, k | 0 <= j && k == j + 1 < |s|
      ensures !(s[j] == ' ' && s[k] == ' ')
    {
      if k < |a| {
        assert s[j] == a[j] && s[k] == a[k];
      } else if j >= |a| {
        assert s[j] == b[j - |a|] && s[k] == b[k - |a|];
      } else {
        assert s[j] == a[|a| - 1];
      }
    }
  }

  lemma SpacedAppend(a: string, b: string)
    requires PlainSpaces(a) && SingleSpaced(a) && PlainSpaces(b) && SingleSpaced(b)
    ensures PlainSpaces(a + b) && SingleSpaced(a + b)
  {
    SingleSpacedAppend(a, b);
    var s := a + b;
    forall i | 0 <= i < |s| && IsSpace(s[i])
      ensures s[i] == ' '
    {
      if i < |a| {
        assert s[i] == a[i];
      } else {
        assert s[i] == b[i - |a|];
      }
    }
  }

  /** The characters of `s` that are not whitespace, in order. */
  function Visible(s: string): string
    decreases |s|
  {
    if s == [] then []
    else if IsSpace(s[0]) then Visible(s[1..])
    else [s[0]] + Visible(s[1..])
  }

  /** The state of the whitespace collapser: whether a visible character
      was already written, and whether a whitespace run is pending after it. */
  datatype Squeeze = Squeeze(emitted: bool, gap: bool)

  const Fresh := Squeeze(false, false)

  function Feed(st: Squeeze, c: char): Squeeze {
    if IsSpace(c) then Squeeze(st.emitted, st.emitted) else Squeeze(true, false)
  }

  /** What the collapser writes for `c`: nothing for whitespace, otherwise
      the pending space (if any) and `c`. */
  function Emit(st: Squeeze, c: char): string {
    if IsSpace(c) then "" else (if st.gap then " " else "") + [c]
  }

  function Collapse(s: string, st: Squeeze): string
    decreases |s|
  {
    if s == [] then [] else Emit(st, s[0]) + Collapse(s[1..], Feed(st, s[0]))
  }

  function FeedAll(s: string, st: Squeeze): Squeeze
    decreases |s|
  {
    if s == [] then st else FeedAll(s[1..], Feed(st, s[0]))
  }

  /** ActiveSupport's `squish`: every whitespace run becomes one space and
      the ends are trimmed. */
  function Squish(s: string): string {
    Collapse(s, Fresh)
  }

  lemma {:induction false} CollapseAppend(a: string, b: string, st: Squeeze)
    ensures Collapse(a + b, st) == Collapse(a, st) + Collapse(b, FeedAll(a, st))
    ensures FeedAll(a + b, st) == FeedAll(b, FeedAll(a, st))
  {
    if a == [] {
      assert a + b == b;
    } else {
      assert (a + b)[0] == a[0] && (a + b)[1..] == a[1..] + b;
      CollapseAppend(a[1..], b, Feed(st, a[0]));
    }
  }

  lemma {:induction false} CollapseShape(s: string, st: Squeeze)
    requires st.gap ==> st.emitted
    ensures var r := Collapse(s, st);
      && PlainSpaces(r) && SingleSpaced(r)
      && (r != [] && r[0] == ' ' ==> st.emitted)
  {
    if s != [] {
      var c := s[0];
      CollapseShape(s[1..], Feed(st, c));
      var e, rest := Emit(st, c), Collapse(s[1..], Feed(st, c));
      if !IsSpace(c) {
        assert e == (if st.gap then " " else "") + [c];
        assert PlainSpaces(e) && SingleSpaced(e);
      }
      SpacedAppend(e, rest);
    }
  }

  /** The output of squish is squished. */
  lemma SquishIsSquished(s: string)
    ensures IsSquished(Squish(s))
  {
    CollapseShape(s, Fresh);
  }

  lemma {:induction false} CollapseVisible(s: string, st: Squeeze)
    ensures Visible(Collapse(s, st)) == Visible(s)
  {
    if s != [] {
      var c := s[0];
      var rest := Collapse(s[1..], Feed(st, c));
      CollapseVisible(s[1..], Feed(st, c));
      assert Collapse(s, st) == Emit(st, c) + rest;
      VisibleAppend(Emit(st, c), rest);
      if !IsSpace(c) {
        assert Visible(s) == [c] + Visible(s[1..]);
        if st.gap {
          assert Emit(st, c) == [' ', c];
        } else {
          assert Emit(st, c) == [c];
        }
      }
    }
  }

  lemma {:induction false} VisibleAppend(a: string, b: string)
    ensures Visible(a + b) == Visible(a) + Visible(b)
  {
    if a == [] {
      assert a + b == b;
    } else {
      assert (a + b)[0] == a[0] && (a + b)[1..] == a[1..] + b;
      VisibleAppend(a[1..], b);
    }
  }

  /** Squish never drops, adds or reorders a visible character. */
  lemma SquishKeepsVisible(s: string)
    ensures Visible(Squish(s)) == Visible(s)
  {
    CollapseVisible(s, Fresh);
  }

  lemma {:induction false} CollapseLower(s: string, st: Squeeze)
    ensures Collapse(Lower(s), st) == Lower(Collapse(s, st))
  {
    if s != [] {
      var c := s[0];
      assert Lower(s) == [LowerChar(c)] + Lower(s[1..]);
      assert Lower(s)[0] == LowerChar(c) && Lower(s)[1..] == Lower(s[1..]);
      assert IsSpace(LowerChar(c)) == IsSpace(c);
      assert Feed(st, LowerChar(c)) == Feed(st, c);
      CollapseLower(s[1..], Feed(st, c));
      var rest := Collapse(s[1..], Feed(st, c));
      assert Collapse(s, st) == Emit(st, c) + rest;
      if IsSpace(c) {
        assert Emit(st, c) == [];
      } else {
        assert Lower(Emit(st, c)) == Emit(st, LowerChar(c)) by {
          LowerAppend(if st.gap then " " else "", [c]);
        }
      }
      LowerAppend(Emit(st, c), rest);
    }
  }

  /** Case folding and squish commute. */
  lemma SquishLower(s: string)
    ensures Squish(Lower(s)) == Lower(Squish(s))
  {
    CollapseLower(s, Fresh);
  }

  lemma SquishedDrop(s: string, k: nat)
    requires IsSquished(s) && k <= |s| && (k < |s| ==> s[k] != ' ')
    ensures IsSquished(s[k..])
  {
    var t := s[k..];
    forall j, m | 0 <= j && m == j + 1 < |t|
      ensures !(t[j] == ' ' && t[m] == ' ')
    {
      assert t[j] == s[j + k] && t[m] == s[m + k];
    }
    forall i | 0 <= i < |t| && IsSpace(t[i])
      ensures t[i] == ' '
    {
      assert t[i] == s[i + k];
    }
  }

  lemma RegroupHead(pre: string, c: char, s: string, mid: string, u: string)
    requires s == [c] + mid + u
    ensures pre + [c] + (mid + u) == pre + s
  {
  }

  lemma {:induction false} CollapseSquished(s: string, gap: bool)
    requires IsSquished(s)
    ensures Collapse(s, Squeeze(true, gap)) == (if gap && s != [] then " " else "") + s
  {
    if s != [] {
      var c, t := s[0], s[1..];
      var pre := if gap then " " else "";
      assert !IsSpace(c);
      assert Emit(Squeeze(true, gap), c) == pre + [c];
      var rest := Collapse(t, Squeeze(true, false));
      if t != [] && IsSpace(t[0]) {
        var u := s[2..];
        assert t[0] == s[1] == ' ';
        assert |t| > 1 && s[2] != ' ';
        assert t[1..] == u;
        SquishedDrop(s, 2);
        CollapseSquished(u, true);
        assert rest == " " + u;
        RegroupHead(pre, c, s, " ", u);
      } else {
        SquishedDrop(s, 1);
        CollapseSquished(t, false);
        RegroupHead(pre, c, s, "", t);
      }
    }
  }

  /** Squish leaves a squished string alone: it is idempotent. */
  lemma SquishSquished(s: string)
    requires IsSquished(s)
    ensures Squish(s) == s
  {
    CollapseSquished(s, false);
  }
  /** A run of whitespace only. */
  predicate AllSpace(s: string) {
    forall i :: 0 <= i < |s| ==> IsSpace(s[i])
  }

  /** The collapser writes nothing for whitespace; it only notes a pending
      space once something visible was written. */
  lemma {:induction false} CollapseBlank(s: string, st: Squeeze)
    requires AllSpace(s)
    ensures Collapse(s, st) == []
    ensures FeedAll(s, st) == if s == [] then st else Squeeze(st.emitted, st.emitted)
    decreases |s|
  {
    if s != [] {
      CollapseBlank(s[1..], Feed(st, s[0]));
    }
  }

  /** After a visible character no space is pending. */
  lemma {:induction false} FeedAllEnd(s: string, st: Squeeze)
    requires s != [] && !IsSpace(s[|s| - 1])
    ensures FeedAll(s, st) == Squeeze(true, false)
    decreases |s|
  {
    if |s| > 1 {
      FeedAllEnd(s[1..], Feed(st, s[0]));
    }
  }

  /** A word without whitespace passes through the collapser unchanged. */
  lemma {:induction false} CollapseWord(w: string, emitted: bool)
    requires NoSpaceFrom(w, 0)
    ensures Collapse(w, Squeeze(emitted, false)) == w
    decreases |w|
  {
    if w != [] {
      NoSpaceAt(w, 0, 0);
      assert NoSpaceFrom(w[1..], 0) by {
        NoSpaceShift(w, 0);
      }
      CollapseWord(w[1..], true);
    }
  }

  lemma {:induction false} NoSpaceShift(s: string, i: nat)
    requires i < |s| && NoSpaceFrom(s, i)
    ensures NoSpaceFrom(s[1..], i)
    decreases |s| - i
  {
    if i + 1 < |s| {
      NoSpaceShift(s, i + 1);
    }
  }

  /** Once a space is pending, what the collapser writes is empty or starts
      with that space. */
  lemma {:induction false} CollapseGap(s: string)
    ensures var r := Collapse(s, Squeeze(true, true)); r == [] || r[0] == ' '
    decreases |s|
  {
    if s != [] && IsSpace(s[0]) {
      CollapseGap(s[1..]);
    }
  }
}
