/** Auto-skip is sugar: a grammar with a skipper recognises exactly what the grammar recognises in which the
    skipper stands, as an option, between the children of every sequence and between the iterations of
    every repetition in skipping mode, and with the same failures on the way. */
module Desugaring {
  import opened Grammars
  import opened Peg
  import opened Forms
  import opened LeftRecursion
  import Totality

  // ---- the rewriting ----------------------------------------------------------------------------

  function Gap(ws: RuleId): Expr { Rep(Rule(ws), 0, 1) }

  /** The iterations of c behind the first one. */
  function More(ws: RuleId, c: Expr, min: nat, max: int): Expr {
    Rep(Seq([Gap(ws), c]), if min > 0 then min - 1 else 0, if max > 0 then max - 1 else max)
  }

  /** `e` as it is parsed with auto-skip on iff `skip`, with the skipper ws spelled out.  A repetition is
      its first iteration, then iterations behind a gap, so a gap before a failed iteration is given back. */
  function Explicit(ws: RuleId, skip: bool, e: Expr): (x: Expr)
    decreases e, 1
  {
    match e
    case Seq(_) => Seq(Children(ws, skip, e, 0))
    case Alt(_) => Alt(Branches(ws, skip, e, 0))
    case Rep(child, min, max) =>
      var c := Explicit(ws, skip, child);
      if !skip || max == 1 then Rep(c, min, max) else Rep(Seq([c, More(ws, c, min, max)]), if min > 0 then 1 else 0, 1)
    case Not(child) => Not(Explicit(ws, skip, child))
    case And(child) => And(Explicit(ws, skip, child))
    case Lexeme(child) => Lexeme(Explicit(ws, false, child))
    case _ => e
  }

  function Children(ws: RuleId, skip: bool, e: Expr, j: nat): (xs: seq<Expr>)
    requires e.Seq? && j <= |e.es|
    ensures |xs| == (if skip && j < |e.es| then 2 * (|e.es| - j) - (if j == 0 then 1 else 0) else |e.es| - j)
    decreases e, 0, |e.es| - j
  {
    if j == |e.es| then []
    else (if skip && j > 0 then [Gap(ws)] else []) + [Explicit(ws, skip, e.es[j])] + Children(ws, skip, e, j + 1)
  }

  function Branches(ws: RuleId, skip: bool, e: Expr, j: nat): (xs: seq<Expr>)
    requires e.Alt? && j <= |e.es|
    ensures |xs| == |e.es| - j && forall l | j <= l < |e.es| :: xs[l - j] == Explicit(ws, skip, e.es[l])
    decreases e, 0, |e.es| - j
  {
    if j == |e.es| then [] else [Explicit(ws, skip, e.es[j])] + Branches(ws, skip, e, j + 1)
  }

  function ExplicitGrammar(g: Grammar, mode: RuleId -> bool): Grammar
    requires g.skipper.Some?
  {
    Grammar(map r | r in g.rules :: g.rules[r].(body := Explicit(g.skipper.value, mode(r), g.rules[r].body)), None,
            g.grown, g.partners, g.quiet)
  }

  /** Where child j of a sequence stands among the children with gaps. */
  function Place(skip: bool, j: nat): nat { if skip then 2 * j else j }

  lemma {:induction false} ChildrenFrom(ws: RuleId, skip: bool, e: Expr, j: nat, l: nat)
    requires e.Seq? && 0 < j <= l < |e.es|
    ensures var xs := Children(ws, skip, e, j);
            if skip then xs[2 * (l - j)] == Gap(ws) && xs[2 * (l - j) + 1] == Explicit(ws, skip, e.es[l])
            else xs[l - j] == Explicit(ws, skip, e.es[l])
    decreases l - j
  {
    var head := (if skip then [Gap(ws)] else []) + [Explicit(ws, skip, e.es[j])];
    assert Children(ws, skip, e, j) == head + Children(ws, skip, e, j + 1);
    if l > j { ChildrenFrom(ws, skip, e, j + 1, l); }
  }

  lemma ChildPlace(ws: RuleId, skip: bool, e: Expr, l: nat)
    requires e.Seq? && l < |e.es|
    ensures var xs := Children(ws, skip, e, 0);
            && Place(skip, l) < |xs| && xs[Place(skip, l)] == Explicit(ws, skip, e.es[l])
            && (skip && l > 0 ==> xs[2 * l - 1] == Gap(ws))
  {
    assert Children(ws, skip, e, 0) == [Explicit(ws, skip, e.es[0])] + Children(ws, skip, e, 1);
    if l > 0 { ChildrenFrom(ws, skip, e, 1, l); }
  }

  // ---- when it applies --------------------------------------------------------------------------

  /** In skipping mode, what is repeated never matches empty. */
  ghost predicate Advances(g: Grammar, inp: Input, e: Expr) {
    forall k: nat, i: nat :: i <= |inp| && Peg.Peg(g, inp, k, true, e, i, false).Some? ==>
      Peg.Peg(g, inp, k, true, e, i, false).value.out != Yes(i)
  }

  ghost predicate Advancing(g: Grammar, inp: Input, skip: bool, e: Expr) {
    match e
    case Rep(child, _, max) => Advancing(g, inp, skip, child) && (skip && max != 1 ==> Advances(g, inp, child))
    case Seq(es) => forall j | 0 <= j < |es| :: Advancing(g, inp, skip, es[j])
    case Alt(es) => forall j | 0 <= j < |es| :: Advancing(g, inp, skip, es[j])
    case Not(child) => Advancing(g, inp, skip, child)
    case And(child) => Advancing(g, inp, skip, child)
    case Lexeme(child) => Advancing(g, inp, false, child)
    case _ => true
  }

  ghost predicate Applies(g: Grammar, mode: RuleId -> bool, inp: Input) {
    && g.skipper.Some? && WellFormed(g, mode) && NoCuts(g)
    && forall r | r in g.rules :: Advancing(g, inp, mode(r), g.rules[r].body)
  }

  /** Every expression that is repeated in skipping mode is marked as consuming. */
  ghost predicate Steady(w: Totality.Ranking, skip: bool, e: Expr) {
    match e
    case Rep(child, _, max) =>
      Steady(w, skip, child) && (skip && max != 1 ==> Totality.Safe(w.g, child) && Totality.Consumes(w.eats, child))
    case Seq(es) => forall j | 0 <= j < |es| :: Steady(w, skip, es[j])
    case Alt(es) => forall j | 0 <= j < |es| :: Steady(w, skip, es[j])
    case Not(child) => Steady(w, skip, child)
    case And(child) => Steady(w, skip, child)
    case Lexeme(child) => Steady(w, false, child)
    case _ => true
  }

  lemma {:induction false} SteadyAdvances(w: Totality.Ranking, inp: Input, skip: bool, e: Expr)
    requires Totality.Ranked(w) && Steady(w, skip, e)
    ensures Advancing(w.g, inp, skip, e)
  {
    hide Totality.Ranked, Totality.Consumes, Totality.Safe;
    match e
    case Rep(child, _, max) =>
      SteadyAdvances(w, inp, skip, child);
      if skip && max != 1 {
        forall k: nat, i: nat | i <= |inp|
          ensures var a := Peg.Peg(w.g, inp, k, true, child, i, false); a.Some? ==> a.value.out != Yes(i)
        {
          Totality.NeverEmpty(w, inp, k, true, child, i);
        }
      }
    case Seq(es) => forall j | 0 <= j < |es| ensures Advancing(w.g, inp, skip, es[j]) {
      SteadyAdvances(w, inp, skip, es[j]);
    }
    case Alt(es) => forall j | 0 <= j < |es| ensures Advancing(w.g, inp, skip, es[j]) {
      SteadyAdvances(w, inp, skip, es[j]);
    }
    case Not(child) => SteadyAdvances(w, inp, skip, child);
    case And(child) => SteadyAdvances(w, inp, skip, child);
    case Lexeme(child) => SteadyAdvances(w, inp, false, child);
    case _ =>
  }

  /** For a ranked grammar the conditions are checked on the rules alone. */
  lemma RankedApplies(w: Totality.Ranking, mode: RuleId -> bool, inp: Input)
    requires w.g.skipper.Some? && WellFormed(w.g, mode) && NoCuts(w.g) && Totality.Ranked(w)
    requires forall r | r in w.g.rules :: Steady(w, mode(r), w.g.rules[r].body)
    ensures Applies(w.g, mode, inp)
  {
    hide WellFormed, NoCuts, Totality.Ranked, Steady, Advancing;
    forall r | r in w.g.rules ensures Advancing(w.g, inp, mode(r), w.g.rules[r].body) {
      SteadyAdvances(w, inp, mode(r), w.g.rules[r].body);
    }
  }

  ghost predicate Fits(g: Grammar, mode: RuleId -> bool, inp: Input, skip: bool, e: Expr) {
    Usable(g, mode, skip, e) && CutFree(e) && Advancing(g, inp, skip, e)
  }

  // ---- the simulation ---------------------------------------------------------------------------

  /** The grammar with the skipper, its explicit form, and the input. */
  datatype Twins = Twins(g: Grammar, mode: RuleId -> bool, inp: Input)
  {
    ghost predicate Good() { g.skipper.Some? && Applies(g, mode, inp) }
    function h(): Grammar requires g.skipper.Some? { ExplicitGrammar(g, mode) }
    function X(skip: bool, e: Expr): Expr requires g.skipper.Some? { Explicit(g.skipper.value, skip, e) }
  }

  /** The same answer, but for the flag of the construct's own cut scope. */
  ghost predicate Alike(a: Option<Answer>, b: Option<Answer>) {
    InScope(a, false) == InScope(b, false)
  }

  lemma PrefixedNone(a: Option<Answer>)
    ensures Prefixed({}, a) == a
  {
    if a.Some? { assert {} + a.value.evs == a.value.evs; }
  }

  lemma NoSkip(h: Grammar, inp: Input, k: nat, sk: bool, i: nat)
    requires h.skipper.None? && i <= |inp|
    ensures PegSkip(h, inp, k, sk, i) == Some(Answer(Yes(i), false, {}))
  {
  }

  lemma {:induction false} SimExpr(t: Twins, k: nat, skip: bool, sk: bool, e: Expr, i: nat, cut: bool)
    requires t.Good() && Fits(t.g, t.mode, t.inp, skip, e) && i <= |t.inp|
    ensures Peg.Peg(t.h(), t.inp, k, sk, t.X(skip, e), i, cut) == Peg.Peg(t.g, t.inp, k, skip, e, i, cut)
    decreases k, 1, e
  {
    hide Applies, Children, Branches, PegSeq, PegAlt, PegRep, PegCall, ExplicitGrammar, Advances;
    match e
    case Seq(_) => SimSeq(t, k, skip, sk, e, 0, i, cut);
    case Alt(_) => SimAlt(t, k, skip, sk, e, 0, i);
    case Rep(_, _, _) =>
      if !skip || e.max == 1 { SimRep(t, k, skip, sk, e, 0, i); } else { SimFirst(t, k, sk, e, i); }
    case Not(child) => SimExpr(t, k, skip, sk, child, i, cut);
    case And(child) => SimExpr(t, k, skip, sk, child, i, cut);
    case Lexeme(child) => SimExpr(t, k, false, false, child, i, cut);
    case Rule(r) => SimCall(t, k, sk, r, i);
    case _ =>
  }

  /** The marks of a rule stay. */
  lemma MarksKept(t: Twins, r: RuleId)
    requires t.g.skipper.Some?
    ensures IsPartner(t.h(), r) <==> IsPartner(t.g, r)
    ensures IsLeftRec(t.h(), r) <==> IsLeftRec(t.g, r)
    ensures forall m :: Serves(t.h(), m, r) <==> Serves(t.g, m, r)
    ensures r in t.g.rules <==> r in t.h().rules
    ensures r in t.g.rules ==> t.h().rules[r] == t.g.rules[r].(body := t.X(t.mode(r), t.g.rules[r].body))
  {
    hide Explicit;
  }

  lemma {:induction false} SimCall(t: Twins, k: nat, sk: bool, r: RuleId, i: nat)
    requires t.Good() && i <= |t.inp|
    ensures PegCall(t.h(), t.inp, k, sk, r, i) == PegCall(t.g, t.inp, k, t.mode(r), r, i)
    decreases k, 0, 0
  {
    hide Applies, Peg.Peg, PegGrow, IsPartner, IsLeftRec, Explicit, ExplicitGrammar;
    MarksKept(t, r);
    if k > 0 && r in t.g.rules && !IsPartner(t.g, r) {
      if IsLeftRec(t.g, r) {
        SimGrow(t, k - 1, sk, r, i, None);
      } else {
        BodyFits(t, r);
        SimExpr(t, k - 1, t.mode(r), sk, t.g.rules[r].body, i, false);
      }
    }
  }

  lemma BodyFits(t: Twins, r: RuleId)
    requires t.Good() && r in t.g.rules && !IsPartner(t.g, r) && !IsLeftRec(t.g, r)
    ensures Fits(t.g, t.mode, t.inp, t.mode(r), t.g.rules[r].body)
  {
    hide Usable, CutFree, Advancing;
  }

  /** What `e` is at the start of r or of one of its partners. */
  ghost predicate FitsIn(t: Twins, r: RuleId, e: Expr) {
    UsableIn(t.g, t.mode, r, e) && CutFree(e) && Advancing(t.g, t.inp, t.mode(r), e)
  }

  /** The body of a grown rule and of its partners. */
  lemma GrownFits(t: Twins, r: RuleId)
    requires t.Good() && IsLeftRec(t.g, r) && !IsPartner(t.g, r)
    ensures FitsIn(t, r, t.g.rules[r].body)
    ensures forall m | Serves(t.g, m, r) :: t.mode(m) == t.mode(r) && FitsIn(t, r, t.g.rules[m].body)
  {
    hide UsableIn, CutFree, Advancing, CutsEnclosed, Usable;
  }

  // ---- growth with and without gaps -------------------------------------------------------------

  lemma {:induction false} SimGrow(t: Twins, k: nat, sk: bool, r: RuleId, i: nat, seed: Option<nat>)
    requires t.Good() && IsLeftRec(t.g, r) && !IsPartner(t.g, r) && i <= |t.inp|
        && (seed.Some? ==> i < seed.value <= |t.inp|)
    ensures r in t.h().rules
    ensures PegGrow(t.h(), t.inp, k, sk, r, i, seed) == PegGrow(t.g, t.inp, k, t.mode(r), r, i, seed)
    decreases k, 3, |t.inp| - (if seed.Some? then seed.value else i)
  {
    hide Applies, PegIn, IsPartner, Explicit, FitsIn, ExplicitGrammar;
    MarksKept(t, r);
    GrownFits(t, r);
    SimIn(t, k, sk, r, t.g.rules[r].body, i, seed);
    var a := PegIn(t.g, t.inp, k, t.mode(r), r, t.g.rules[r].body, i, seed);
    var last := if seed.Some? then seed.value else i;
    if a.Some? && a.value.out.Yes? && a.value.out.end > last {
      SimGrow(t, k, sk, r, i, Some(a.value.out.end));
    }
  }

  /** One step of the growth: gaps come behind the first child of a sequence, so the recursion stays in front. */
  lemma {:induction false} SimIn(t: Twins, k: nat, sk: bool, r: RuleId, e: Expr, i: nat, seed: Option<nat>)
    requires t.Good() && IsLeftRec(t.g, r) && !IsPartner(t.g, r) && FitsIn(t, r, e) && i <= |t.inp|
        && (seed.Some? ==> i < seed.value <= |t.inp|)
    ensures PegIn(t.h(), t.inp, k, sk, r, t.X(t.mode(r), e), i, seed) ==
              PegIn(t.g, t.inp, k, t.mode(r), r, e, i, seed)
    decreases k, 2, e
  {
    hide Applies, Children, Branches, PegSeq, PegInAlt, Peg.Peg, ExplicitGrammar, Advances, IsPartner, IsLeftRec;
    MarksKept(t, r);
    match e
    case Rule(m) =>
      if m == r {
      } else if Serves(t.g, m, r) {
        GrownFits(t, r);
        MarksKept(t, m);
        ServesRule(t, m, r);
        if k > 0 { SimIn(t, k - 1, sk, r, t.g.rules[m].body, i, seed); }
      } else {
        SimExpr(t, k, t.mode(r), sk, e, i, false);
      }
    case Alt(_) => SimInAlt(t, k, sk, r, e, 0, i, seed);
    case Seq(es) => SimInSeq(t, k, sk, r, e, i, seed);
    case Cut => assert false;
    case _ => SimExpr(t, k, t.mode(r), sk, e, i, false);
  }

  lemma ServesRule(t: Twins, m: RuleId, r: RuleId)
    requires Serves(t.g, m, r)
    ensures m in t.g.rules
  {
  }

  lemma {:induction false} SimInAlt(t: Twins, k: nat, sk: bool, r: RuleId, e: Expr, j: nat, i: nat, seed: Option<nat>)
    requires t.Good() && IsLeftRec(t.g, r) && !IsPartner(t.g, r) && FitsIn(t, r, e) && i <= |t.inp|
        && (seed.Some? ==> i < seed.value <= |t.inp|)
    requires e.Alt? && j <= |e.es|
    ensures PegInAlt(t.h(), t.inp, k, sk, r, t.X(t.mode(r), e), j, i, seed) ==
              PegInAlt(t.g, t.inp, k, t.mode(r), r, e, j, i, seed)
    decreases k, 2, e, |e.es| - j
  {
    hide Applies, PegIn, ExplicitGrammar, IsPartner, IsLeftRec;
    if j < |e.es| {
      SimIn(t, k, sk, r, e.es[j], i, seed);
      SimInAlt(t, k, sk, r, e, j + 1, i, seed);
    }
  }

  lemma {:induction false} SimInSeq(t: Twins, k: nat, sk: bool, r: RuleId, e: Expr, i: nat, seed: Option<nat>)
    requires t.Good() && IsLeftRec(t.g, r) && !IsPartner(t.g, r) && FitsIn(t, r, e) && i <= |t.inp|
        && (seed.Some? ==> i < seed.value <= |t.inp|)
    requires e.Seq?
    ensures PegIn(t.h(), t.inp, k, sk, r, t.X(t.mode(r), e), i, seed) ==
              PegIn(t.g, t.inp, k, t.mode(r), r, e, i, seed)
    decreases k, 2, e, 0
  {
    hide Applies, Children, PegSeq, Peg.Peg, ExplicitGrammar, IsPartner, IsLeftRec, Explicit;
    var skip := t.mode(r);
    if e.es == [] {
      SimExpr(t, k, skip, sk, e, i, false);
      NoChildren(t, skip, e);
    } else {
      ChildPlace(t.g.skipper.value, skip, e, 0);
      ChildrenAre(t, skip, e);
      SimIn(t, k, sk, r, e.es[0], i, seed);
      var a := PegIn(t.g, t.inp, k, skip, r, e.es[0], i, seed);
      if a.Some? && a.value.out.Yes? { SimRest(t, k, r, sk, e, a.value.out.end); }
    }
  }

  lemma ChildrenAre(t: Twins, skip: bool, e: Expr)
    requires t.g.skipper.Some? && e.Seq?
    ensures t.X(skip, e) == Seq(Children(t.g.skipper.value, skip, e, 0))
  {
  }

  lemma NoChildren(t: Twins, skip: bool, e: Expr)
    requires t.g.skipper.Some? && e.Seq? && e.es == []
    ensures t.X(skip, e) == e
  {
  }

  /** What follows the first child, gap and all. */
  lemma {:induction false} SimRest(t: Twins, k: nat, r: RuleId, sk: bool, e: Expr, q: nat)
    requires t.Good() && q <= |t.inp| && e.Seq? && e.es != [] && FitsIn(t, r, e)
    ensures var x := t.X(t.mode(r), e);
            x.Seq? && 1 <= |x.es|
                && PegSeq(t.h(), t.inp, k, sk, x, 1, q, false) == PegSeq(t.g, t.inp, k, t.mode(r), e, 1, q, false)
    decreases k, 1, e, |e.es|
  {
    hide Applies, Children, PegSeq, ExplicitGrammar;
    SimSeq(t, k, t.mode(r), sk, e, 1, q, false);
  }

  /** A gap is the auto-skip. */
  lemma {:induction false} SimGap(t: Twins, k: nat, sk: bool, i: nat, cut: bool)
    requires t.Good() && i <= |t.inp|
    ensures t.h().skipper.None?
    ensures Peg.Peg(t.h(), t.inp, k, sk, Gap(t.g.skipper.value), i, cut) ==
        InScope(PegSkip(t.g, t.inp, k, true, i), cut)
    decreases k, 0, 1
  {
    hide PegCall;
    var ws := t.g.skipper.value;
    SimCall(t, k, sk, ws, i);
    var h, inp := t.h(), t.inp;
    var a := Peg.Peg(h, inp, k, sk, Rule(ws), i, false);
    assert PegRep(h, inp, k, sk, Gap(ws), 0, i) == Prefixed({}, PegRepTry(h, inp, k, sk, Gap(ws), 0, i, i));
    PrefixedNone(PegRepTry(h, inp, k, sk, Gap(ws), 0, i, i));
  }

  /** Children of a sequence from j on. */
  ghost predicate RestFits(t: Twins, skip: bool, e: Expr, j: nat)
    requires e.Seq?
  {
    forall l | j <= l < |e.es| :: Fits(t.g, t.mode, t.inp, skip, e.es[l])
  }

  lemma {:induction false} SimSeq(t: Twins, k: nat, skip: bool, sk: bool, e: Expr, j: nat, i: nat, cut: bool)
    requires t.Good() && i <= |t.inp| && e.Seq? && j <= |e.es| && RestFits(t, skip, e, j)
    ensures var n := |Children(t.g.skipper.value, skip, e, 0)|;
            var at := if j == |e.es| then n else if skip && j > 0 then 2 * j - 1 else Place(skip, j);
            at <= n && PegSeq(t.h(), t.inp, k, sk, t.X(skip, e), at, i, cut) ==
                PegSeq(t.g, t.inp, k, skip, e, j, i, cut)
    decreases k, 1, e, |e.es| - j
  {
    hide Applies, Children, ExplicitGrammar, Peg.Peg, PegSkip, PegSeqNext, Usable, CutFree, Advancing;
    var h, x := t.h(), t.X(skip, e);
    SkipperGone(t);
    if j < |e.es| {
      ChildPlace(t.g.skipper.value, skip, e, j);
      var w := if j > 0 then PegSkip(t.g, t.inp, k, skip, i) else Some(Answer(Yes(i), cut, {}));
      if w.Some? && w.value.out.Yes? {
        SimSeqNext(t, k, skip, sk, e, j, w.value.out.end, cut);
        ReachChild(t, k, skip, sk, e, j, w.value.out.end, cut);
      }
      if skip && j > 0 {
        SimGap(t, k, sk, i, cut);
        ReachGap(t, k, sk, e, j, i, cut);
      } else if j > 0 {
        NoSkip(h, t.inp, k, sk, i);
        assert w == Some(Answer(Yes(i), false, {})) by { SkipOff(t.g, t.inp, k, i); }
        PrefixedNone(PegSeqNext(t.g, t.inp, k, skip, e, j, i, cut));
      } else {
        PrefixedNone(PegSeqNext(t.g, t.inp, k, skip, e, j, i, cut));
      }
    }
  }

  lemma SkipOff(g: Grammar, inp: Input, k: nat, i: nat)
    requires i <= |inp|
    ensures PegSkip(g, inp, k, false, i) == Some(Answer(Yes(i), false, {}))
  {
  }

  lemma SkipperGone(t: Twins)
    requires t.Good()
    ensures t.h().skipper.None?
  {
  }

  /** In the explicit sequence nothing happens before a child. */
  lemma ReachChild(t: Twins, k: nat, skip: bool, sk: bool, e: Expr, j: nat, i: nat, cut: bool)
    requires t.Good() && i <= |t.inp| && e.Seq? && j < |e.es|
    ensures var x := t.X(skip, e);
            Place(skip, j) < |x.es| && PegSeq(t.h(), t.inp, k, sk, x, Place(skip, j), i, cut) == PegSeqNext(t.h(),
                t.inp, k, sk, x, Place(skip, j), i, cut)
  {
    hide Applies, Children, ExplicitGrammar, Peg.Peg, PegSeqNext;
    SkipperGone(t);
    ChildPlace(t.g.skipper.value, skip, e, j);
    NoSkip(t.h(), t.inp, k, sk, i);
    PrefixedNone(PegSeqNext(t.h(), t.inp, k, sk, t.X(skip, e), Place(skip, j), i, cut));
  }

  /** A gap, then the child. */
  lemma ReachGap(t: Twins, k: nat, sk: bool, e: Expr, j: nat, i: nat, cut: bool)
    requires t.Good() && i <= |t.inp| && e.Seq? && 0 < j < |e.es|
    ensures var x := t.X(true, e);
            var w := Peg.Peg(t.h(), t.inp, k, sk, Gap(t.g.skipper.value), i, cut);
            2 * j < |x.es| && PegSeq(t.h(), t.inp, k, sk, x, 2 * j - 1, i, cut) ==
              if w.None? || !w.value.out.Yes? then w
              else Prefixed(w.value.evs, PegSeq(t.h(), t.inp, k, sk, x, 2 * j, w.value.out.end, w.value.cut))
  {
    hide Applies, Children, ExplicitGrammar, Peg.Peg;
    SkipperGone(t);
    ChildPlace(t.g.skipper.value, true, e, j);
    NoSkip(t.h(), t.inp, k, sk, i);
    PrefixedNone(PegSeqNext(t.h(), t.inp, k, sk, t.X(true, e), 2 * j - 1, i, cut));
  }

  lemma {:induction false} SimSeqNext(t: Twins, k: nat, skip: bool, sk: bool, e: Expr, j: nat, i: nat, cut: bool)
    requires t.Good() && i <= |t.inp| && e.Seq? && j < |e.es| && RestFits(t, skip, e, j)
    ensures var x := t.X(skip, e);
            Place(skip, j) < |x.es| && PegSeqNext(t.h(), t.inp, k, sk, x, Place(skip, j), i, cut) == PegSeqNext(t.g,
                t.inp, k, skip, e, j, i, cut)
    decreases k, 1, e, |e.es| - j, 0
  {
    hide Applies, Children, ExplicitGrammar, Peg.Peg, PegSeq;
    ChildPlace(t.g.skipper.value, skip, e, j);
    SimExpr(t, k, skip, sk, e.es[j], i, cut);
    var a := Peg.Peg(t.g, t.inp, k, skip, e.es[j], i, cut);
    if a.Some? && a.value.out.Yes? {
      SimSeq(t, k, skip, sk, e, j + 1, a.value.out.end, a.value.cut);
    }
  }

  lemma {:induction false} SimAlt(t: Twins, k: nat, skip: bool, sk: bool, e: Expr, j: nat, i: nat)
    requires t.Good() && i <= |t.inp| && e.Alt? && j <= |e.es| && Fits(t.g, t.mode, t.inp, skip, e)
    ensures PegAlt(t.h(), t.inp, k, sk, t.X(skip, e), j, i) == PegAlt(t.g, t.inp, k, skip, e, j, i)
    decreases k, 1, e, |e.es| - j
  {
    hide Applies, ExplicitGrammar, Peg.Peg;
    if j < |e.es| {
      SimExpr(t, k, skip, sk, e.es[j], i, false);
      SimAlt(t, k, skip, sk, e, j + 1, i);
    }
  }

  /** A repetition that is left as it is: with auto-skip off, or of at most one iteration. */
  lemma {:induction false} SimRep(t: Twins, k: nat, skip: bool, sk: bool, e: Expr, count: nat, i: nat)
    requires t.Good() && i <= |t.inp| && e.Rep? && (!skip || (e.max == 1 && count == 0))
        && Fits(t.g, t.mode, t.inp, skip, e)
    ensures PegRep(t.h(), t.inp, k, sk, t.X(skip, e), count, i) == PegRep(t.g, t.inp, k, skip, e, count, i)
    decreases k, 1, e, |t.inp| - i, 1
  {
    hide Applies, ExplicitGrammar, Peg.Peg, PegSkip;
    SkipperGone(t);
    NoSkip(t.h(), t.inp, k, sk, i);
    if !skip { SkipOff(t.g, t.inp, k, i); }
    SimExpr(t, k, skip, sk, e.child, i, false);
    var a := Peg.Peg(t.g, t.inp, k, skip, e.child, i, false);
    if a.Some? && a.value.out.Yes? && a.value.out.end > i && !(e.max > 0 && count + 1 >= e.max) {
      SimRep(t, k, skip, sk, e, count + 1, a.value.out.end);
    }
  }

  // ---- repetitions with gaps --------------------------------------------------------------------

  /** Two steps in a row. */
  function Both(a: Option<Answer>, b: Option<Answer>): Option<Answer> {
    if a.None? || !a.value.out.Yes? then a else Prefixed(a.value.evs, b)
  }

  predicate Follows(a: Option<Answer>) { a.Some? && a.value.out.Yes? }

  lemma TwoInARow(h: Grammar, inp: Input, k: nat, sk: bool, x: Expr, y: Expr, i: nat, cut: bool)
    requires h.skipper.None? && i <= |inp|
    ensures var a := Peg.Peg(h, inp, k, sk, x, i, cut);
            Peg.Peg(h, inp, k, sk, Seq([x, y]), i, cut) ==
              Both(a, if !Follows(a) then None else Peg.Peg(h, inp, k, sk, y, a.value.out.end, a.value.cut))
  {
    var e := Seq([x, y]);
    SeqIs(h, inp, k, sk, e, i, cut);
    hide Peg.Peg;
    var a := Peg.Peg(h, inp, k, sk, x, i, cut);
    PrefixedNone(PegSeqNext(h, inp, k, sk, e, 0, i, cut));
    assert e.es[0] == x && e.es[1] == y;
    if a.Some? && a.value.out.Yes? { LastOfTwo(h, inp, k, sk, e, a.value.out.end, a.value.cut); }
  }

  lemma SeqIs(h: Grammar, inp: Input, k: nat, sk: bool, e: Expr, i: nat, cut: bool)
    requires e.Seq? && i <= |inp|
    ensures Peg.Peg(h, inp, k, sk, e, i, cut) == PegSeq(h, inp, k, sk, e, 0, i, cut)
  {
  }

  lemma LastOfTwo(h: Grammar, inp: Input, k: nat, sk: bool, e: Expr, q: nat, c: bool)
    requires h.skipper.None? && q <= |inp| && e.Seq? && |e.es| == 2
    ensures PegSeq(h, inp, k, sk, e, 1, q, c) == Peg.Peg(h, inp, k, sk, e.es[1], q, c)
  {
    hide Peg.Peg;
    var b := Peg.Peg(h, inp, k, sk, e.es[1], q, c);
    NoSkip(h, inp, k, sk, q);
    PrefixedNone(PegSeqNext(h, inp, k, sk, e, 1, q, c));
    assert PegSeq(h, inp, k, sk, e, 1, q, c) == PegSeqNext(h, inp, k, sk, e, 1, q, c);
    if b.Some? && b.value.out.Yes? {
      assert b.value.evs + {} == b.value.evs;
      assert PegSeqNext(h, inp, k, sk, e, 1, q, c) == b;
    }
  }

  lemma ChildFits(t: Twins, e: Expr)
    requires e.Rep? && Fits(t.g, t.mode, t.inp, true, e)
    ensures Fits(t.g, t.mode, t.inp, true, e.child) && CutFree(e.child)
        && (e.max != 1 ==> Advances(t.g, t.inp, e.child))
  {
    hide Advances;
  }

  /** What the repetition makes of one attempt at its child, made at p after `count` matches up to `last`. */
  function Conclude(e: Expr, count: nat, last: nat, p: nat, a: Answer, rest: Option<Answer>): Option<Answer>
    requires e.Rep?
  {
    if a.out.Throw? then Some(a)
    else if a.out.No? then
      Some(a.(out := if count < e.min then No else if e.max < 0 && a.cut then Throw else Yes(last)))
    else if (e.max > 0 && count + 1 >= e.max) || a.out.end == p then
      Some(a.(out := if count + 1 < e.min then No else Yes(a.out.end)))
    else Prefixed(a.evs, rest)
  }

  lemma TryIs(g: Grammar, inp: Input, k: nat, skip: bool, e: Expr, count: nat, last: nat, p: nat)
    requires last <= p <= |inp| && e.Rep?
    ensures var a := Peg.Peg(g, inp, k, skip, e.child, p, false);
            PegRepTry(g, inp, k, skip, e, count, last, p) ==
              if a.None? then None
              else Conclude(e, count, last, p, a.value,
                            if !a.value.out.Yes? || a.value.out.end == p then None
                            else PegRep(g, inp, k, skip, e, count + 1, a.value.out.end))
  {
    hide Peg.Peg, PegRep;
  }

  /** Iterations behind the first: each is a gap and the child, and a gap before a failed child is undone. */
  lemma {:induction false} SimMore(t: Twins, k: nat, sk: bool, e: Expr, count: nat, i: nat)
    requires t.Good() && i <= |t.inp| && e.Rep? && e.max != 1 && Fits(t.g, t.mode, t.inp, true, e)
    requires count > 0 && (e.max > 0 ==> count < e.max)
    ensures var r := PegRep(t.g, t.inp, k, true, e, count, i);
            && Alike(PegRep(t.h(), t.inp, k, sk, More(t.g.skipper.value, t.X(true, e.child), e.min, e.max),
                count - 1, i), r)
            && (count >= e.min && r.Some? ==> !r.value.out.No?)
    decreases k, 1, e, |t.inp| - i, 1
  {
    hide Applies, ExplicitGrammar, Peg.Peg, PegSkip, PegRepTry, PegRep, Explicit, Usable, CutFree;
    var h, c := t.h(), t.X(true, e.child);
    var more := More(t.g.skipper.value, c, e.min, e.max);
    SkipperGone(t);
    var w := PegSkip(t.g, t.inp, k, true, i);
    SimGap(t, k, sk, i, false);
    TwoInARow(h, t.inp, k, sk, Gap(t.g.skipper.value), c, i, false);
    RepIs(h, t.inp, k, sk, more, count - 1, i);
    TryIs(h, t.inp, k, sk, more, count - 1, i, i);
    WithSkip(t.g, t.inp, k, e, count, i);
    if w.Some? && w.value.out.Yes? {
      var p := w.value.out.end;
      ChildFits(t, e);
      SimExpr(t, k, true, sk, e.child, p, false);
      TryIs(t.g, t.inp, k, true, e, count, i, p);
      var a := Peg.Peg(t.g, t.inp, k, true, e.child, p, false);
      if a.Some? {
        FlagKept(t.g, t.inp, k, true, e.child, p, false);
        if a.value.out.Yes? {
          assert a.value.out.end > p;
          if !(e.max > 0 && count + 1 >= e.max) { SimMore(t, k, sk, e, count + 1, a.value.out.end); }
        }
        MoreConcludes(t, k, sk, e, count, i, p, w.value, a.value);
      }
    }
  }

  /** An iteration without a gap before it. */
  lemma RepIs(h: Grammar, inp: Input, k: nat, sk: bool, e: Expr, count: nat, i: nat)
    requires h.skipper.None? && i <= |inp| && e.Rep?
    ensures PegRep(h, inp, k, sk, e, count, i) == PegRepTry(h, inp, k, sk, e, count, i, i)
  {
    NoSkip(h, inp, k, sk, i);
    PrefixedNone(PegRepTry(h, inp, k, sk, e, count, i, i));
  }

  lemma WithSkip(g: Grammar, inp: Input, k: nat, e: Expr, count: nat, i: nat)
    requires i <= |inp| && e.Rep? && count > 0
    ensures var w := PegSkip(g, inp, k, true, i);
            PegRep(g, inp, k, true, e, count, i) ==
              if w.None? || !w.value.out.Yes? then w
              else Prefixed(w.value.evs, PegRepTry(g, inp, k, true, e, count, i, w.value.out.end))
  {
    hide PegSkip, PegRepTry;
  }

  lemma MoreConcludes(t: Twins, k: nat, sk: bool, e: Expr, count: nat, i: nat, p: nat, w: Answer, a: Answer)
    requires t.g.skipper.Some? && t.h().skipper.None? && i <= p <= |t.inp| && e.Rep? && e.max != 1 && count > 0
        && (e.max > 0 ==> count < e.max)
    requires w.out == Yes(p) && (a.out.Yes? ==> p < a.out.end <= |t.inp|) && (a.out.No? ==> !a.cut)
    requires var more := More(t.g.skipper.value, t.X(true, e.child), e.min, e.max);
             a.out.Yes? && !(e.max > 0 && count + 1 >= e.max) ==>
               && Alike(PegRep(t.h(), t.inp, k, sk, more, count, a.out.end),
                   PegRep(t.g, t.inp, k, true, e, count + 1, a.out.end))
               && (count + 1 >= e.min && PegRep(t.g, t.inp, k, true, e, count + 1, a.out.end).Some? ==>
                     !PegRep(t.g, t.inp, k, true, e, count + 1, a.out.end).value.out.No?)
    ensures var more := More(t.g.skipper.value, t.X(true, e.child), e.min, e.max);
            var rest := if !a.out.Yes? then None else PegRep(t.g, t.inp, k, true, e, count + 1, a.out.end);
            var rest' := if !a.out.Yes? then None else PegRep(t.h(), t.inp, k, sk, more, count, a.out.end);
            var r := Prefixed(w.evs, Conclude(e, count, i, p, a, rest));
            && Alike(Conclude(more, count - 1, i, i, a.After(w.evs), rest'), r)
            && (count >= e.min && r.Some? ==> !r.value.out.No?)
  {
    hide PegRep, ExplicitGrammar, Explicit;
    if a.out.Yes? {
      var rest := PegRep(t.g, t.inp, k, true, e, count + 1, a.out.end);
      if rest.Some? { assert (w.evs + a.evs) + rest.value.evs == w.evs + (a.evs + rest.value.evs); }
    }
  }

  /** The first iteration and the others. */
  lemma {:induction false} SimFirst(t: Twins, k: nat, sk: bool, e: Expr, i: nat)
    requires t.Good() && i <= |t.inp| && e.Rep? && e.max != 1 && Fits(t.g, t.mode, t.inp, true, e)
    ensures Alike(PegRep(t.h(), t.inp, k, sk, t.X(true, e), 0, i), PegRep(t.g, t.inp, k, true, e, 0, i))
    decreases k, 1, e, |t.inp| + 1
  {
    hide Applies, ExplicitGrammar, Peg.Peg, PegRepTry, PegRep, Usable, CutFree;
    var h, c, x := t.h(), t.X(true, e.child), t.X(true, e);
    var more := More(t.g.skipper.value, c, e.min, e.max);
    SkipperGone(t);
    RepIs(h, t.inp, k, sk, x, 0, i);
    TryIs(h, t.inp, k, sk, x, 0, i, i);
    TwoInARow(h, t.inp, k, sk, c, more, i, false);
    ChildFits(t, e);
    SimExpr(t, k, true, sk, e.child, i, false);
    FirstIs(t.g, t.inp, k, e, i);
    TryIs(t.g, t.inp, k, true, e, 0, i, i);
    var a := Peg.Peg(t.g, t.inp, k, true, e.child, i, false);
    if a.Some? {
      FlagKept(t.g, t.inp, k, true, e.child, i, false);
      if a.value.out.Yes? {
        assert a.value.out.end > i;
        SimMore(t, k, sk, e, 1, a.value.out.end);
        Inner(h, t.inp, k, sk, more, a.value.out.end, a.value.cut);
        FirstConcludes(e, i, a.value, PegRep(t.h(), t.inp, k, sk, more, 0, a.value.out.end),
            PegRep(t.g, t.inp, k, true, e, 1, a.value.out.end));
      }
    }
  }

  lemma FirstIs(g: Grammar, inp: Input, k: nat, e: Expr, i: nat)
    requires i <= |inp| && e.Rep?
    ensures PegRep(g, inp, k, true, e, 0, i) == PegRepTry(g, inp, k, true, e, 0, i, i)
  {
    PrefixedNone(PegRepTry(g, inp, k, true, e, 0, i, i));
  }

  lemma Inner(h: Grammar, inp: Input, k: nat, sk: bool, e: Expr, i: nat, cut: bool)
    requires i <= |inp| && e.Rep?
    ensures Peg.Peg(h, inp, k, sk, e, i, cut) == InScope(PegRep(h, inp, k, sk, e, 0, i), cut)
  {
  }

  lemma FirstConcludes(e: Expr, i: nat, a: Answer, x: Option<Answer>, rest: Option<Answer>)
    requires e.Rep? && e.max != 1 && a.out.Yes? && a.out.end > i && Alike(x, rest)
    requires 1 >= e.min && rest.Some? ==> !rest.value.out.No?
    requires rest.Some? && rest.value.out.Yes? ==> rest.value.out.end > i
    ensures var b := Both(Some(a), InScope(x, a.cut));
            var once := Rep(Empty, if e.min > 0 then 1 else 0, 1);
            b.Some? ==> Alike(Conclude(once, 0, i, i, b.value, None), Conclude(e, 0, i, i, a, rest))
    ensures Both(Some(a), InScope(x, a.cut)).None? ==> rest.None?
  {
  }

  // ---- the theorem ------------------------------------------------------------------------------

  /** Every parse with the skipper is the parse of "gap, then start" without one: an answer of either is the
      answer of the other, with the same end and the same failures. */
  lemma SkippingIsSugar(t: Twins, k: nat, start: RuleId, i: nat)
    requires t.Good() && t.mode(start) && i <= |t.inp|
    ensures Alike(PegRun(t.g, t.inp, k, start, i), Peg.Peg(t.h(), t.inp, k, false,
        Seq([Gap(t.g.skipper.value), Rule(start)]), i, false))
  {
    hide Applies, ExplicitGrammar, PegSkip, PegCall;
    SkipperGone(t);
    SimGap(t, k, false, i, false);
    TwoInARow(t.h(), t.inp, k, false, Gap(t.g.skipper.value), Rule(start), i, false);
    var w := PegSkip(t.g, t.inp, k, true, i);
    if w.Some? && w.value.out.Yes? { SimCall(t, k, false, start, w.value.out.end); }
  }
}
