/** Which actions a two-phase parse runs.  Every rule of the match that has an action is called once, arguments
    first, unless it is swallowed: a rule without an action whose body is more than a reference has the default
    value, whatever matched inside, and so has no use for the actions there. */
module Invocations {
  import opened Grammars
  import opened Peg
  import opened Values

  /** A rule with an action, matched from start to end. */
  datatype Occurrence = Occurrence(rule: RuleId, start: nat, end: nat)

  function Site(v: Value): Occurrence
    requires v.Applied?
  {
    Occurrence(v.rule, v.start, v.end)
  }

  /** Where the calls were made. */
  function Sites(calls: seq<Value>): (os: seq<Occurrence>)
    requires forall v | v in calls :: v.Applied?
    ensures |os| == |calls|
  {
    seq(|calls|, i requires 0 <= i < |calls| => Site(calls[i]))
  }

  lemma {:induction false} CallsAreApplied(v: Value)
    ensures forall c | c in Calls(v) :: c.Applied?
    decreases v
  {
    match v
    case Applied(_, _, _, arg) => CallsAreApplied(arg);
    case Tuple(items) => AllApplied(items);
    case List(items) => AllApplied(items);
    case Opt(item) => if item.Some? { CallsAreApplied(item.value); }
    case _ =>
  }

  lemma {:induction false} AllApplied(vs: seq<Value>)
    ensures forall c | c in CallsOf(vs) :: c.Applied?
    decreases vs
  {
    if vs != [] {
      AllApplied(vs[..|vs| - 1]);
      CallsAreApplied(vs[|vs| - 1]);
    }
  }

  /** The sites of the calls in a value. */
  function Fired(v: Value): seq<Occurrence> {
    CallsAreApplied(v);
    Sites(Calls(v))
  }

  function FiredBy(vs: seq<Value>): seq<Occurrence> {
    AllApplied(vs);
    Sites(CallsOf(vs))
  }

  lemma {:induction false} FiredByFirst(v: Value, vs: seq<Value>)
    ensures FiredBy([v] + vs) == Fired(v) + FiredBy(vs)
    decreases |vs|
  {
    CallsAreApplied(v);
    AllApplied(vs);
    AllApplied([v] + vs);
    CallsOfFirst(v, vs);
    assert Sites(Calls(v) + CallsOf(vs)) == Sites(Calls(v)) + Sites(CallsOf(vs));
  }

  lemma {:induction false} CallsOfFirst(v: Value, vs: seq<Value>)
    ensures CallsOf([v] + vs) == Calls(v) + CallsOf(vs)
    decreases |vs|
  {
    NoCalls();
    if vs == [] {
      assert [v] + vs == [] + [v];
      CallsOfMore([], v);
    } else {
      hide Calls, CallsOf;
      var init, last := vs[..|vs| - 1], vs[|vs| - 1];
      CallsOfFirst(v, init);
      CallsOfMore([v] + init, last);
      CallsOfMore(init, last);
      assert vs == init + [last];
      Regrouped([v], init, [last]);
      Regrouped(Calls(v), CallsOf(init), Calls(last));
    }
  }

  lemma NoCalls()
    ensures CallsOf([]) == []
  {
  }

  lemma Regrouped(a: seq<Value>, b: seq<Value>, c: seq<Value>)
    ensures (a + b) + c == a + (b + c)
  {
  }

  /** The composite values. */
  lemma FiredIs(v: Value, vs: seq<Value>, r: RuleId, i: nat, end: nat)
    ensures Fired(Unit) == [] && Fired(Default) == [] && Fired(Opt(None)) == [] && Fired(Opt(Some(v))) == Fired(v)
    ensures Fired(List(vs)) == FiredBy(vs) && Fired(Collapse(vs)) == FiredBy(vs)
    ensures Fired(Applied(r, i, end, v)) == Fired(v) + [Occurrence(r, i, end)]
    ensures FiredBy([]) == []
  {
    CallsCollapsed(vs);
    CallsAreApplied(v);
    CallsAreApplied(Collapse(vs));
    AllApplied(vs);
  }

  // ---- the occurrences in a match ---------------------------------------------------------------

  /** The rules with an action in the memo-free match of `e` at i, arguments before what they belong to.  Gaps and
      lookaheads are no part of a match. */
  ghost function Occ(g: Grammar, inp: Input, k: nat, skip: bool, e: Expr, i: nat, cut: bool): seq<Occurrence>
    requires i <= |inp|
    decreases k, 1, e
  {
    match e
    case Lexeme(child) => Occ(g, inp, k, false, child, i, cut)
    case Alt(_) => OccAlt(g, inp, k, skip, e, 0, i)
    case Rep(_, _, _) => OccRep(g, inp, k, skip, e, 0, i)
    case Seq(_) => OccSeq(g, inp, k, skip, e, 0, i, cut)
    case Rule(r) => OccRule(g, inp, k, skip, r, i)
    case _ => []
  }

  ghost function OccAlt(g: Grammar, inp: Input, k: nat, skip: bool, e: Expr, j: nat, i: nat): seq<Occurrence>
    requires i <= |inp| && e.Alt? && j <= |e.es|
    decreases k, 1, e, |e.es| - j
  {
    if j == |e.es| then []
    else if Matches(Peg.Peg(g, inp, k, skip, e.es[j], i, false)) then Occ(g, inp, k, skip, e.es[j], i, false)
    else OccAlt(g, inp, k, skip, e, j + 1, i)
  }

  ghost function OccSeq(g: Grammar, inp: Input, k: nat, skip: bool, e: Expr, j: nat, i: nat, cut: bool): seq<Occurrence>
    requires i <= |inp| && e.Seq? && j <= |e.es|
    decreases k, 1, e, |e.es| - j
  {
    if j == |e.es| then []
    else
      var w := if j > 0 then PegSkip(g, inp, k, skip, i) else Some(Answer(Yes(i), cut, {}));
      if !Matches(w) then [] else OccSeqNext(g, inp, k, skip, e, j, w.value.out.end, cut)
  }

  ghost function OccSeqNext(g: Grammar, inp: Input, k: nat, skip: bool, e: Expr, j: nat, i: nat,
      cut: bool): seq<Occurrence>
    requires i <= |inp| && e.Seq? && j < |e.es|
    decreases k, 1, e, |e.es| - j, 0
  {
    var a := Peg.Peg(g, inp, k, skip, e.es[j], i, cut);
    if !Matches(a) then []
    else Occ(g, inp, k, skip, e.es[j], i, cut) + OccSeq(g, inp, k, skip, e, j + 1, a.value.out.end, a.value.cut)
  }

  ghost function OccRep(g: Grammar, inp: Input, k: nat, skip: bool, e: Expr, count: nat, i: nat): seq<Occurrence>
    requires i <= |inp| && e.Rep?
    decreases k, 1, e, |inp| - i, 1
  {
    var w := if count > 0 then PegSkip(g, inp, k, skip, i) else Some(Answer(Yes(i), false, {}));
    if !Matches(w) then [] else OccRepTry(g, inp, k, skip, e, count, w.value.out.end)
  }

  ghost function OccRepTry(g: Grammar, inp: Input, k: nat, skip: bool, e: Expr, count: nat, i: nat): seq<Occurrence>
    requires i <= |inp| && e.Rep?
    decreases k, 1, e, |inp| - i, 0
  {
    var a := Peg.Peg(g, inp, k, skip, e.child, i, false);
    if !Matches(a) then []
    else
      Occ(g, inp, k, skip, e.child, i, false)
      + (if (e.max > 0 && count + 1 >= e.max) || a.value.out.end == i then []
          else OccRep(g, inp, k, skip, e, count + 1, a.value.out.end))
  }

  ghost function OccRule(g: Grammar, inp: Input, k: nat, skip: bool, r: RuleId, i: nat): seq<Occurrence>
    requires i <= |inp|
    decreases k, 0
  {
    if k == 0 || r !in g.rules then []
    else
      var body := g.rules[r].body;
      var a := Peg.Peg(g, inp, k - 1, skip, body, i, false);
      if !Matches(a) then []
      else
        Occ(g, inp, k - 1, skip, body, i, false)
        + if g.rules[r].hasAction then [Occurrence(r, i, a.value.out.end)] else []
  }

  // ---- where occurrences are swallowed ----------------------------------------------------------

  /** No occurrence in the match of `e` is swallowed; `pass` if only a value handed through counts. */
  ghost predicate Whole(g: Grammar, inp: Input, k: nat, skip: bool, e: Expr, i: nat, cut: bool, pass: bool)
    requires i <= |inp|
    decreases k, 1, e
  {
    match e
    case Lexeme(child) => Whole(g, inp, k, false, child, i, cut, pass)
    case Alt(_) => WholeAlt(g, inp, k, skip, e, 0, i, pass)
    case Rule(r) => WholeRule(g, inp, k, skip, r, i)
    case Rep(_, _, _) => if pass then Occ(g, inp, k, skip, e, i, cut) == [] else WholeRep(g, inp, k, skip, e, 0, i)
    case Seq(_) => if pass then Occ(g, inp, k, skip, e, i, cut) == [] else WholeSeq(g, inp, k, skip, e, 0, i, cut)
    case _ => true
  }

  ghost predicate WholeAlt(g: Grammar, inp: Input, k: nat, skip: bool, e: Expr, j: nat, i: nat, pass: bool)
    requires i <= |inp| && e.Alt? && j <= |e.es|
    decreases k, 1, e, |e.es| - j
  {
    if j == |e.es| then true
    else if Matches(Peg.Peg(g, inp, k, skip, e.es[j], i, false)) then Whole(g, inp, k, skip, e.es[j], i, false, pass)
    else WholeAlt(g, inp, k, skip, e, j + 1, i, pass)
  }

  /** A child without a value must have no occurrence, the others must be whole. */
  ghost predicate WholeSeq(g: Grammar, inp: Input, k: nat, skip: bool, e: Expr, j: nat, i: nat, cut: bool)
    requires i <= |inp| && e.Seq? && j <= |e.es|
    decreases k, 1, e, |e.es| - j
  {
    if j == |e.es| then true
    else
      var w := if j > 0 then PegSkip(g, inp, k, skip, i) else Some(Answer(Yes(i), cut, {}));
      !Matches(w) || WholeSeqNext(g, inp, k, skip, e, j, w.value.out.end, cut)
  }

  ghost predicate WholeSeqNext(g: Grammar, inp: Input, k: nat, skip: bool, e: Expr, j: nat, i: nat, cut: bool)
    requires i <= |inp| && e.Seq? && j < |e.es|
    decreases k, 1, e, |e.es| - j, 0
  {
    var a := Peg.Peg(g, inp, k, skip, e.es[j], i, cut);
    Matches(a) ==>
      && (if Void(e.es[j]) then Occ(g, inp, k, skip, e.es[j], i, cut) == []
           else Whole(g, inp, k, skip, e.es[j], i, cut, false))
      && WholeSeq(g, inp, k, skip, e, j + 1, a.value.out.end, a.value.cut)
  }

  ghost predicate WholeRep(g: Grammar, inp: Input, k: nat, skip: bool, e: Expr, count: nat, i: nat)
    requires i <= |inp| && e.Rep?
    decreases k, 1, e, |inp| - i, 1
  {
    var w := if count > 0 then PegSkip(g, inp, k, skip, i) else Some(Answer(Yes(i), false, {}));
    !Matches(w) || WholeRepTry(g, inp, k, skip, e, count, w.value.out.end)
  }

  ghost predicate WholeRepTry(g: Grammar, inp: Input, k: nat, skip: bool, e: Expr, count: nat, i: nat)
    requires i <= |inp| && e.Rep?
    decreases k, 1, e, |inp| - i, 0
  {
    var a := Peg.Peg(g, inp, k, skip, e.child, i, false);
    Matches(a) ==>
      && Whole(g, inp, k, skip, e.child, i, false, false)
      && ((e.max > 0 && count + 1 >= e.max) || a.value.out.end == i
           || WholeRep(g, inp, k, skip, e, count + 1, a.value.out.end))
  }

  /** A rule with an action uses the value of its body, if it has one; a rule without uses one handed through. */
  ghost predicate WholeRule(g: Grammar, inp: Input, k: nat, skip: bool, r: RuleId, i: nat)
    requires i <= |inp|
    decreases k, 0
  {
    k == 0 || r !in g.rules ||
    var body := g.rules[r].body;
    Matches(Peg.Peg(g, inp, k - 1, skip, body, i, false)) ==>
      if g.rules[r].hasAction && Void(body) then Occ(g, inp, k - 1, skip, body, i, false) == []
      else Whole(g, inp, k - 1, skip, body, i, false, !g.rules[r].hasAction)
  }

  // ---- calls and occurrences --------------------------------------------------------------------

  /** The calls `fired` are among the occurrences `os`, and all of them iff the match is whole. */
  ghost predicate Counted(fired: seq<Occurrence>, os: seq<Occurrence>, whole: bool) {
    |fired| <= |os| && (whole ==> fired == os) && (|fired| == |os| ==> whole)
  }

  lemma CountedBoth(f1: seq<Occurrence>, o1: seq<Occurrence>, w1: bool, f2: seq<Occurrence>, o2: seq<Occurrence>,
      w2: bool)
    requires Counted(f1, o1, w1) && Counted(f2, o2, w2)
    ensures Counted(f1 + f2, o1 + o2, w1 && w2)
  {
  }

  lemma {:induction false} CountExpr(g: Grammar, inp: Input, k: nat, skip: bool, e: Expr, i: nat, cut: bool)
    requires i <= |inp| && TypedGrammar(g) && NoLeft(g) && Typed(e) && Matches(Peg.Peg(g, inp, k, skip, e, i, cut))
    ensures Counted(Fired(Eval(g, inp, k, skip, e, i, cut)), Occ(g, inp, k, skip, e, i, cut),
        Whole(g, inp, k, skip, e, i, cut, false))
    decreases k, 1, e
  {
    hide TypedGrammar, NoLeft, Fired, FiredBy, EvalRule, PegCall, PegSeq, PegRep;
    match e
    case Token(_, _) => FiredElem(inp[i]);
    case Lexeme(child) => CountExpr(g, inp, k, false, child, i, cut);
    case Alt(_) => CountAlt(g, inp, k, skip, e, 0, i);
    case Rule(r) => CountRule(g, inp, k, skip, r, i);
    case Seq(_) =>
      CountSeq(g, inp, k, skip, e, 0, i, cut);
      FiredIs(Unit, EvalSeq(g, inp, k, skip, e, 0, i, cut), 0, 0, 0);
    case Rep(_, _, _) => CountLoop(g, inp, k, skip, e, i);
  }

  lemma FiredElem(c: Sym)
    ensures Fired(Elem(c)) == []
  {
  }

  lemma {:induction false} CountPass(g: Grammar, inp: Input, k: nat, skip: bool, e: Expr, i: nat, cut: bool)
    requires i <= |inp| && TypedGrammar(g) && NoLeft(g) && Matches(Peg.Peg(g, inp, k, skip, e, i, cut))
    ensures Counted(Fired(PassOn(g, inp, k, skip, e, i, cut)), Occ(g, inp, k, skip, e, i, cut),
        Whole(g, inp, k, skip, e, i, cut, true))
    decreases k, 1, e
  {
    hide TypedGrammar, NoLeft, Fired, FiredBy, EvalRule, PegCall, PegSeq, PegRep, OccSeq, OccRep;
    FiredIs(Unit, [], 0, 0, 0);
    match e
    case Lexeme(child) => CountPass(g, inp, k, false, child, i, cut);
    case Alt(_) => CountPassAlt(g, inp, k, skip, e, 0, i);
    case Rule(r) => CountRule(g, inp, k, skip, r, i);
    case _ =>
  }

  lemma {:induction false} CountAlt(g: Grammar, inp: Input, k: nat, skip: bool, e: Expr, j: nat, i: nat)
    requires i <= |inp| && TypedGrammar(g) && NoLeft(g) && e.Alt? && j <= |e.es| && Typed(e)
    requires Matches(PegAlt(g, inp, k, skip, e, j, i))
    ensures Counted(Fired(EvalAlt(g, inp, k, skip, e, j, i)), OccAlt(g, inp, k, skip, e, j, i),
        WholeAlt(g, inp, k, skip, e, j, i, false))
    decreases k, 1, e, |e.es| - j
  {
    hide TypedGrammar, NoLeft, Fired, FiredBy, Peg.Peg;
    if Matches(Peg.Peg(g, inp, k, skip, e.es[j], i, false)) {
      CountExpr(g, inp, k, skip, e.es[j], i, false);
    } else {
      CountAlt(g, inp, k, skip, e, j + 1, i);
    }
  }

  lemma {:induction false} CountPassAlt(g: Grammar, inp: Input, k: nat, skip: bool, e: Expr, j: nat, i: nat)
    requires i <= |inp| && TypedGrammar(g) && NoLeft(g) && e.Alt? && j <= |e.es|
    requires Matches(PegAlt(g, inp, k, skip, e, j, i))
    ensures Counted(Fired(PassAlt(g, inp, k, skip, e, j, i)), OccAlt(g, inp, k, skip, e, j, i),
        WholeAlt(g, inp, k, skip, e, j, i, true))
    decreases k, 1, e, |e.es| - j
  {
    hide TypedGrammar, NoLeft, Fired, FiredBy, Peg.Peg;
    if Matches(Peg.Peg(g, inp, k, skip, e.es[j], i, false)) {
      CountPass(g, inp, k, skip, e.es[j], i, false);
    } else {
      CountPassAlt(g, inp, k, skip, e, j + 1, i);
    }
  }

  lemma {:induction false} CountSeq(g: Grammar, inp: Input, k: nat, skip: bool, e: Expr, j: nat, i: nat, cut: bool)
    requires i <= |inp| && TypedGrammar(g) && NoLeft(g) && e.Seq? && j <= |e.es|
        && Matches(PegSeq(g, inp, k, skip, e, j, i, cut))
    requires forall l | j <= l < |e.es| && !Void(e.es[l]) :: Typed(e.es[l])
    ensures Counted(FiredBy(EvalSeq(g, inp, k, skip, e, j, i, cut)), OccSeq(g, inp, k, skip, e, j, i, cut),
        WholeSeq(g, inp, k, skip, e, j, i, cut))
    decreases k, 1, e, |e.es| - j
  {
    hide TypedGrammar, NoLeft, Fired, FiredBy, Peg.Peg, PegSkip, Void, Typed, Eval, Occ, Whole;
    FiredIs(Unit, [], 0, 0, 0);
    if j < |e.es| {
      var w := if j > 0 then PegSkip(g, inp, k, skip, i) else Some(Answer(Yes(i), cut, {}));
      var p := w.value.out.end;
      var a := Peg.Peg(g, inp, k, skip, e.es[j], p, cut);
      CountSeq(g, inp, k, skip, e, j + 1, a.value.out.end, a.value.cut);
      CountChild(g, inp, k, skip, e, j, p, cut);
    }
  }

  /** One child, then the others. */
  lemma {:induction false} CountChild(g: Grammar, inp: Input, k: nat, skip: bool, e: Expr, j: nat, i: nat, cut: bool)
    requires i <= |inp| && TypedGrammar(g) && NoLeft(g) && e.Seq? && j < |e.es|
        && Matches(Peg.Peg(g, inp, k, skip, e.es[j], i, cut))
    requires !Void(e.es[j]) ==> Typed(e.es[j])
    requires var a := Peg.Peg(g, inp, k, skip, e.es[j], i, cut).value;
             Counted(FiredBy(EvalSeq(g, inp, k, skip, e, j + 1, a.out.end, a.cut)),
                 OccSeq(g, inp, k, skip, e, j + 1, a.out.end, a.cut),
                 WholeSeq(g, inp, k, skip, e, j + 1, a.out.end, a.cut))
    ensures Counted(FiredBy(EvalSeqNext(g, inp, k, skip, e, j, i, cut)), OccSeqNext(g, inp, k, skip, e, j, i, cut),
        WholeSeqNext(g, inp, k, skip, e, j, i, cut))
    decreases k, 1, e, |e.es| - j, 0
  {
    hide TypedGrammar, NoLeft, Fired, FiredBy, Peg.Peg, Void, Typed, Eval, Occ, Whole, EvalSeq, OccSeq, WholeSeq;
    var a := Peg.Peg(g, inp, k, skip, e.es[j], i, cut).value;
    var rest := EvalSeq(g, inp, k, skip, e, j + 1, a.out.end, a.cut);
    var os := OccSeq(g, inp, k, skip, e, j + 1, a.out.end, a.cut);
    var whole := WholeSeq(g, inp, k, skip, e, j + 1, a.out.end, a.cut);
    var here := Occ(g, inp, k, skip, e.es[j], i, cut);
    if Void(e.es[j]) {
      assert [] + rest == rest && [] + FiredBy(rest) == FiredBy(rest);
      CountedBoth([], here, here == [], FiredBy(rest), os, whole);
    } else {
      var v := Eval(g, inp, k, skip, e.es[j], i, cut);
      CountExpr(g, inp, k, skip, e.es[j], i, cut);
      FiredByFirst(v, rest);
      CountedBoth(Fired(v), here, Whole(g, inp, k, skip, e.es[j], i, cut, false), FiredBy(rest), os, whole);
    }
  }

  lemma {:induction false} CountLoop(g: Grammar, inp: Input, k: nat, skip: bool, e: Expr, i: nat)
    requires i <= |inp| && TypedGrammar(g) && NoLeft(g) && e.Rep? && Typed(e.child)
        && Matches(PegRep(g, inp, k, skip, e, 0, i))
    ensures Counted(Fired(Eval(g, inp, k, skip, e, i, false)), OccRep(g, inp, k, skip, e, 0, i),
        WholeRep(g, inp, k, skip, e, 0, i))
    decreases k, 1, e, |inp| + 1
  {
    hide TypedGrammar, NoLeft, Fired, FiredBy, OccRep, WholeRep, EvalRep, PegRep, Typed;
    CountRep(g, inp, k, skip, e, 0, i);
    var vs := EvalRep(g, inp, k, skip, e, 0, i);
    FiredIs(Unit, vs, 0, 0, 0);
    if Optional(e) {
      AtMostOne(g, inp, k, skip, e, i);
      if vs != [] {
        FiredIs(vs[0], vs, 0, 0, 0);
        FiredByFirst(vs[0], []);
        assert vs == [vs[0]] + [];
      }
    }
  }

  lemma AtMostOne(g: Grammar, inp: Input, k: nat, skip: bool, e: Expr, i: nat)
    requires i <= |inp| && e.Rep? && e.max == 1
    ensures |EvalRep(g, inp, k, skip, e, 0, i)| <= 1
  {
    hide Eval;
  }

  lemma {:induction false} CountRep(g: Grammar, inp: Input, k: nat, skip: bool, e: Expr, count: nat, i: nat)
    requires i <= |inp| && TypedGrammar(g) && NoLeft(g) && e.Rep? && Typed(e.child)
    ensures Counted(FiredBy(EvalRep(g, inp, k, skip, e, count, i)), OccRep(g, inp, k, skip, e, count, i),
        WholeRep(g, inp, k, skip, e, count, i))
    decreases k, 1, e, |inp| - i, 1
  {
    hide TypedGrammar, NoLeft, Fired, FiredBy, Peg.Peg, PegSkip, Typed, Eval, Occ, Whole;
    FiredIs(Unit, [], 0, 0, 0);
    var w := if count > 0 then PegSkip(g, inp, k, skip, i) else Some(Answer(Yes(i), false, {}));
    if Matches(w) { CountTry(g, inp, k, skip, e, count, w.value.out.end); }
  }

  lemma {:induction false} CountTry(g: Grammar, inp: Input, k: nat, skip: bool, e: Expr, count: nat, i: nat)
    requires i <= |inp| && TypedGrammar(g) && NoLeft(g) && e.Rep? && Typed(e.child)
    ensures Counted(FiredBy(EvalRepTry(g, inp, k, skip, e, count, i)), OccRepTry(g, inp, k, skip, e, count, i),
        WholeRepTry(g, inp, k, skip, e, count, i))
    decreases k, 1, e, |inp| - i, 0
  {
    hide TypedGrammar, NoLeft, Fired, FiredBy, Peg.Peg, Typed, Eval, Occ, Whole, EvalRep, OccRep, WholeRep;
    FiredIs(Unit, [], 0, 0, 0);
    var a := Peg.Peg(g, inp, k, skip, e.child, i, false);
    if Matches(a) {
      var v, here := Eval(g, inp, k, skip, e.child, i, false), Occ(g, inp, k, skip, e.child, i, false);
      var whole := Whole(g, inp, k, skip, e.child, i, false, false);
      CountExpr(g, inp, k, skip, e.child, i, false);
      if (e.max > 0 && count + 1 >= e.max) || a.value.out.end == i {
        FiredByFirst(v, []);
        CountedBoth(Fired(v), here, whole, [], [], true);
      } else {
        var q := a.value.out.end;
        CountRep(g, inp, k, skip, e, count + 1, q);
        FiredByFirst(v, EvalRep(g, inp, k, skip, e, count + 1, q));
        CountedBoth(Fired(v), here, whole, FiredBy(EvalRep(g, inp, k, skip, e, count + 1, q)),
            OccRep(g, inp, k, skip, e, count + 1, q), WholeRep(g, inp, k, skip, e, count + 1, q));
      }
    }
  }

  /** The calls in a rule's value are occurrences of its match, and all of them, once each and in order, iff
      nothing is swallowed. */
  lemma {:induction false} CountRule(g: Grammar, inp: Input, k: nat, skip: bool, r: RuleId, i: nat)
    requires i <= |inp| && TypedGrammar(g) && NoLeft(g) && Matches(PegCall(g, inp, k, skip, r, i))
    ensures Counted(Fired(EvalRule(g, inp, k, skip, r, i)), OccRule(g, inp, k, skip, r, i),
        WholeRule(g, inp, k, skip, r, i))
    decreases k, 0
  {
    hide Fired, FiredBy, Peg.Peg, Eval, Occ, Whole, PassOn, Typed, IsPartner, IsLeftRec;
    var body := g.rules[r].body;
    var a := Peg.Peg(g, inp, k - 1, skip, body, i, false);
    var os := Occ(g, inp, k - 1, skip, body, i, false);
    if !g.rules[r].hasAction {
      CountPass(g, inp, k - 1, skip, body, i, false);
      assert os + [] == os;
    } else if Void(body) {
      FiredIs(Unit, [], r, i, a.value.out.end);
      assert [] + [Occurrence(r, i, a.value.out.end)] == [Occurrence(r, i, a.value.out.end)];
    } else {
      CountExpr(g, inp, k - 1, skip, body, i, false);
      FiredIs(Eval(g, inp, k - 1, skip, body, i, false), [], r, i, a.value.out.end);
    }
  }

  // ---- grammars that swallow nothing ------------------------------------------------------------

  /** No rule outside lookaheads. */
  ghost predicate Silent(e: Expr) {
    match e
    case Rule(_) => false
    case Seq(es) => forall j | 0 <= j < |es| :: Silent(es[j])
    case Alt(es) => forall j | 0 <= j < |es| :: Silent(es[j])
    case Rep(child, _, _) => Silent(child)
    case Lexeme(child) => Silent(child)
    case _ => true
  }

  /** A reference to a rule, perhaps one of several or under a lexeme; or no rule at all. */
  ghost predicate Handed(e: Expr) {
    match e
    case Rule(_) => true
    case Lexeme(child) => Handed(child)
    case Alt(es) => forall j | 0 <= j < |es| :: Handed(es[j])
    case _ => Silent(e)
  }

  /** What has no value has no rules in it, and a rule without an action hands on what it refers to. */
  ghost predicate Handing(g: Grammar) {
    forall r | r in g.rules ::
      if g.rules[r].hasAction then Void(g.rules[r].body) ==> Silent(g.rules[r].body) else Handed(g.rules[r].body)
  }

  lemma {:induction false} SilentHasNone(g: Grammar, inp: Input, k: nat, skip: bool, e: Expr, i: nat, cut: bool)
    requires i <= |inp| && Silent(e)
    ensures Occ(g, inp, k, skip, e, i, cut) == []
    decreases e
  {
    hide Peg.Peg, PegSkip;
    match e
    case Lexeme(child) => SilentHasNone(g, inp, k, false, child, i, cut);
    case Seq(_) => SilentSeq(g, inp, k, skip, e, 0, i, cut);
    case Alt(_) => SilentAlt(g, inp, k, skip, e, 0, i);
    case Rep(_, _, _) => SilentRep(g, inp, k, skip, e, 0, i);
    case _ =>
  }

  lemma {:induction false} SilentSeq(g: Grammar, inp: Input, k: nat, skip: bool, e: Expr, j: nat, i: nat, cut: bool)
    requires i <= |inp| && e.Seq? && j <= |e.es| && Silent(e)
    ensures OccSeq(g, inp, k, skip, e, j, i, cut) == []
    decreases e, |e.es| - j
  {
    hide Peg.Peg, PegSkip;
    if j < |e.es| {
      var w := if j > 0 then PegSkip(g, inp, k, skip, i) else Some(Answer(Yes(i), cut, {}));
      if Matches(w) {
        var a := Peg.Peg(g, inp, k, skip, e.es[j], w.value.out.end, cut);
        SilentHasNone(g, inp, k, skip, e.es[j], w.value.out.end, cut);
        if Matches(a) { SilentSeq(g, inp, k, skip, e, j + 1, a.value.out.end, a.value.cut); }
      }
    }
  }

  lemma {:induction false} SilentAlt(g: Grammar, inp: Input, k: nat, skip: bool, e: Expr, j: nat, i: nat)
    requires i <= |inp| && e.Alt? && j <= |e.es| && Silent(e)
    ensures OccAlt(g, inp, k, skip, e, j, i) == []
    decreases e, |e.es| - j
  {
    hide Peg.Peg;
    if j < |e.es| {
      SilentHasNone(g, inp, k, skip, e.es[j], i, false);
      SilentAlt(g, inp, k, skip, e, j + 1, i);
    }
  }

  lemma {:induction false} SilentRep(g: Grammar, inp: Input, k: nat, skip: bool, e: Expr, count: nat, i: nat)
    requires i <= |inp| && e.Rep? && Silent(e)
    ensures OccRep(g, inp, k, skip, e, count, i) == []
    decreases e, |inp| - i
  {
    hide Peg.Peg, PegSkip;
    var w := if count > 0 then PegSkip(g, inp, k, skip, i) else Some(Answer(Yes(i), false, {}));
    if Matches(w) {
      var p := w.value.out.end;
      SilentHasNone(g, inp, k, skip, e.child, p, false);
      var a := Peg.Peg(g, inp, k, skip, e.child, p, false);
      if Matches(a) && a.value.out.end > p { SilentRep(g, inp, k, skip, e, count + 1, a.value.out.end); }
    }
  }

  lemma {:induction false} TreelessIsSilent(e: Expr)
    requires Treeless(e)
    ensures Silent(e)
  {
    match e
    case Alt(es) => forall j | 0 <= j < |es| ensures Silent(es[j]) { TreelessIsSilent(es[j]); }
    case Lexeme(child) => TreelessIsSilent(child);
    case _ =>
  }

  /** A typed expression makes use of everything in it. */
  lemma {:induction false} TypedIsWhole(g: Grammar, inp: Input, k: nat, skip: bool, e: Expr, i: nat, cut: bool)
    requires i <= |inp| && TypedGrammar(g) && Handing(g) && Typed(e)
    ensures Whole(g, inp, k, skip, e, i, cut, false)
    decreases k, 1, e
  {
    hide TypedGrammar, Handing, Peg.Peg, PegSkip;
    match e
    case Lexeme(child) => TypedIsWhole(g, inp, k, false, child, i, cut);
    case Alt(_) => TypedAltWhole(g, inp, k, skip, e, 0, i);
    case Rule(r) => HandingIsWhole(g, inp, k, skip, r, i);
    case Seq(_) => TypedSeqWhole(g, inp, k, skip, e, 0, i, cut);
    case Rep(_, _, _) => TypedRepWhole(g, inp, k, skip, e, 0, i);
    case _ =>
  }

  lemma {:induction false} TypedAltWhole(g: Grammar, inp: Input, k: nat, skip: bool, e: Expr, j: nat, i: nat)
    requires i <= |inp| && TypedGrammar(g) && Handing(g) && e.Alt? && j <= |e.es| && Typed(e)
    ensures WholeAlt(g, inp, k, skip, e, j, i, false)
    decreases k, 1, e, |e.es| - j
  {
    hide TypedGrammar, Handing, Peg.Peg;
    if j < |e.es| {
      TypedIsWhole(g, inp, k, skip, e.es[j], i, false);
      TypedAltWhole(g, inp, k, skip, e, j + 1, i);
    }
  }

  lemma {:induction false} TypedSeqWhole(g: Grammar, inp: Input, k: nat, skip: bool, e: Expr, j: nat, i: nat, cut: bool)
    requires i <= |inp| && TypedGrammar(g) && Handing(g) && e.Seq? && j <= |e.es| && Typed(e)
    ensures WholeSeq(g, inp, k, skip, e, j, i, cut)
    decreases k, 1, e, |e.es| - j
  {
    hide TypedGrammar, Handing, Peg.Peg, PegSkip;
    if j < |e.es| {
      var w := if j > 0 then PegSkip(g, inp, k, skip, i) else Some(Answer(Yes(i), cut, {}));
      if Matches(w) {
        var p := w.value.out.end;
        if Void(e.es[j]) {
          if !e.es[j].Matcher? { TreelessIsSilent(e.es[j]); }
          SilentHasNone(g, inp, k, skip, e.es[j], p, cut);
        } else {
          TypedIsWhole(g, inp, k, skip, e.es[j], p, cut);
        }
        var a := Peg.Peg(g, inp, k, skip, e.es[j], p, cut);
        if Matches(a) { TypedSeqWhole(g, inp, k, skip, e, j + 1, a.value.out.end, a.value.cut); }
      }
    }
  }

  lemma {:induction false} TypedRepWhole(g: Grammar, inp: Input, k: nat, skip: bool, e: Expr, count: nat, i: nat)
    requires i <= |inp| && TypedGrammar(g) && Handing(g) && e.Rep? && Typed(e)
    ensures WholeRep(g, inp, k, skip, e, count, i)
    decreases k, 1, e, |inp| - i
  {
    hide TypedGrammar, Handing, Peg.Peg, PegSkip;
    var w := if count > 0 then PegSkip(g, inp, k, skip, i) else Some(Answer(Yes(i), false, {}));
    if Matches(w) {
      var p := w.value.out.end;
      TypedIsWhole(g, inp, k, skip, e.child, p, false);
      var a := Peg.Peg(g, inp, k, skip, e.child, p, false);
      if Matches(a) && a.value.out.end > p { TypedRepWhole(g, inp, k, skip, e, count + 1, a.value.out.end); }
    }
  }

  lemma {:induction false} HandedIsWhole(g: Grammar, inp: Input, k: nat, skip: bool, e: Expr, i: nat, cut: bool)
    requires i <= |inp| && TypedGrammar(g) && Handing(g) && Handed(e)
    ensures Whole(g, inp, k, skip, e, i, cut, true)
    decreases k, 1, e
  {
    hide TypedGrammar, Handing, Peg.Peg, PegSkip;
    match e
    case Lexeme(child) => HandedIsWhole(g, inp, k, false, child, i, cut);
    case Alt(_) => HandedAltWhole(g, inp, k, skip, e, 0, i);
    case Rule(r) => HandingIsWhole(g, inp, k, skip, r, i);
    case _ => SilentHasNone(g, inp, k, skip, e, i, cut);
  }

  lemma {:induction false} HandedAltWhole(g: Grammar, inp: Input, k: nat, skip: bool, e: Expr, j: nat, i: nat)
    requires i <= |inp| && TypedGrammar(g) && Handing(g) && e.Alt? && j <= |e.es| && Handed(e)
    ensures WholeAlt(g, inp, k, skip, e, j, i, true)
    decreases k, 1, e, |e.es| - j
  {
    hide TypedGrammar, Handing, Peg.Peg;
    if j < |e.es| {
      HandedIsWhole(g, inp, k, skip, e.es[j], i, false);
      HandedAltWhole(g, inp, k, skip, e, j + 1, i);
    }
  }

  /** In such a grammar nothing is ever swallowed: every action runs once for each occurrence of its rule. */
  lemma {:induction false} HandingIsWhole(g: Grammar, inp: Input, k: nat, skip: bool, r: RuleId, i: nat)
    requires i <= |inp| && TypedGrammar(g) && Handing(g)
    ensures WholeRule(g, inp, k, skip, r, i)
    decreases k, 0
  {
    hide Peg.Peg, Silent, Handed, Typed, Void;
    if k > 0 && r in g.rules {
      var body := g.rules[r].body;
      if !g.rules[r].hasAction { HandedIsWhole(g, inp, k - 1, skip, body, i, false); }
      else if Void(body) { SilentHasNone(g, inp, k - 1, skip, body, i, false); }
      else { TypedIsWhole(g, inp, k - 1, skip, body, i, false); }
    }
  }
}
