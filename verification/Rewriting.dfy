/** A grammar with a skipper and left recursion, rewritten into one with neither: spell the skipper out, then
    replace a left-recursive rule by its iteration.  No parse changes. */
module Rewriting {
  import opened Grammars
  import opened Peg
  import opened Forms
  import opened Agreement
  import opened LeftRecursion
  import opened Desugaring
  import Elimination

  // ---- the explicit grammar is well-formed ------------------------------------------------------

  lemma PairUsable(h: Grammar, x: Expr, y: Expr)
    requires Usable(h, OneMode(), false, x) && Usable(h, OneMode(), false, y)
    ensures Usable(h, OneMode(), false, Seq([x, y]))
  {
    assert Seq([x, y]).es == [x, y];
  }

  lemma PairCutFree(x: Expr, y: Expr)
    requires CutFree(x) && CutFree(y)
    ensures CutFree(Seq([x, y]))
  {
    assert Seq([x, y]).es == [x, y];
  }

  lemma {:induction false} ExplicitUsable(t: Twins, skip: bool, e: Expr)
    requires t.Good() && Usable(t.g, t.mode, skip, e)
    ensures Usable(t.h(), OneMode(), false, t.X(skip, e))
    decreases e, 1
  {
    hide Applies, Children, Branches, ExplicitGrammar, IsPartner;
    match e
    case Seq(es) => ChildrenUsable(t, skip, e, 0);
    case Alt(es) =>
      var xs := Branches(t.g.skipper.value, skip, e, 0);
      forall j | 0 <= j < |xs| ensures Usable(t.h(), OneMode(), false, xs[j]) {
        ExplicitUsable(t, skip, es[j]);
        assert xs[j - 0] == t.X(skip, es[j]);
      }
      assert t.X(skip, e) == Alt(xs);
    case Rep(child, _, _) =>
      ExplicitUsable(t, skip, child);
      if skip && e.max != 1 {
        GapUsable(t);
        var c := t.X(true, child);
        var more := More(t.g.skipper.value, c, e.min, e.max);
        PairUsable(t.h(), Gap(t.g.skipper.value), c);
        PairUsable(t.h(), c, more);
      }
    case Not(child) => ExplicitUsable(t, skip, child);
    case And(child) => ExplicitUsable(t, skip, child);
    case Lexeme(child) => ExplicitUsable(t, false, child);
    case Rule(x) => MarksKept(t, x);
    case _ =>
  }

  lemma GapUsable(t: Twins)
    requires t.Good()
    ensures Usable(t.h(), OneMode(), false, Gap(t.g.skipper.value))
  {
    hide ExplicitGrammar, IsPartner;
    MarksKept(t, t.g.skipper.value);
  }

  lemma {:induction false} ChildrenUsable(t: Twins, skip: bool, e: Expr, j: nat)
    requires t.Good() && e.Seq? && j <= |e.es| && forall l | j <= l < |e.es| :: Usable(t.g, t.mode, skip, e.es[l])
    ensures forall x | x in Children(t.g.skipper.value, skip, e, j) :: Usable(t.h(), OneMode(), false, x)
    decreases e, 0, |e.es| - j
  {
    hide Applies, ExplicitGrammar, IsPartner, Usable, Explicit;
    if j < |e.es| {
      GapUsable(t);
      ExplicitUsable(t, skip, e.es[j]);
      ChildrenUsable(t, skip, e, j + 1);
    }
  }

  lemma {:induction false} ExplicitCutFree(ws: RuleId, skip: bool, e: Expr)
    requires CutFree(e)
    ensures CutFree(Explicit(ws, skip, e))
    decreases e, 1
  {
    hide Children, Branches;
    match e
    case Seq(es) => ChildrenCutFree(ws, skip, e, 0);
    case Alt(es) =>
      forall j | 0 <= j < |es| ensures CutFree(Branches(ws, skip, e, 0)[j]) { ExplicitCutFree(ws, skip, es[j]); }
    case Rep(child, _, _) =>
      ExplicitCutFree(ws, skip, child);
      if skip && e.max != 1 {
        var c := Explicit(ws, true, child);
        var more := More(ws, c, e.min, e.max);
        PairCutFree(Gap(ws), c);
        PairCutFree(c, more);
      }
    case Not(child) => ExplicitCutFree(ws, skip, child);
    case And(child) => ExplicitCutFree(ws, skip, child);
    case Lexeme(child) => ExplicitCutFree(ws, false, child);
    case _ =>
  }

  lemma {:induction false} ChildrenCutFree(ws: RuleId, skip: bool, e: Expr, j: nat)
    requires e.Seq? && j <= |e.es| && forall l | j <= l < |e.es| :: CutFree(e.es[l])
    ensures forall x | x in Children(ws, skip, e, j) :: CutFree(x)
    decreases e, 0, |e.es| - j
  {
    hide Explicit;
    if j < |e.es| {
      assert CutFree(Gap(ws));
      ExplicitCutFree(ws, skip, e.es[j]);
      ChildrenCutFree(ws, skip, e, j + 1);
    }
  }

  /** The start of the body of a grown rule or of its partners. */
  lemma {:induction false} ExplicitUsableIn(t: Twins, r: RuleId, e: Expr)
    requires t.Good() && UsableIn(t.g, t.mode, r, e)
    ensures UsableIn(t.h(), OneMode(), r, t.X(t.mode(r), e))
    decreases e
  {
    hide Applies, Children, Branches, ExplicitGrammar, Serves, Usable;
    MarksKept(t, r);
    match e
    case Rule(m) => if Usable(t.g, t.mode, t.mode(r), e) { ExplicitUsable(t, t.mode(r), e); }
    case Alt(es) =>
      var xs := Branches(t.g.skipper.value, t.mode(r), e, 0);
      forall j | 0 <= j < |xs| ensures UsableIn(t.h(), OneMode(), r, xs[j]) {
        ExplicitUsableIn(t, r, es[j]);
        assert xs[j - 0] == t.X(t.mode(r), es[j]);
      }
      assert t.X(t.mode(r), e) == Alt(xs);
    case Seq(es) =>
      if es == [] {
        NoChildren(t, t.mode(r), e);
      } else {
        ExplicitUsableIn(t, r, es[0]);
        RestUsable(t, t.mode(r), e);
      }
    case _ => ExplicitUsable(t, t.mode(r), e);
  }

  /** The first child stays in front, and the others are usable. */
  lemma RestUsable(t: Twins, skip: bool, e: Expr)
    requires t.Good() && e.Seq? && e.es != [] && forall l | 1 <= l < |e.es| :: Usable(t.g, t.mode, skip, e.es[l])
    ensures var xs := t.X(skip, e).es;
            && xs != [] && xs[0] == t.X(skip, e.es[0])
            && forall l | 1 <= l < |xs| :: Usable(t.h(), OneMode(), false, xs[l])
  {
    hide Applies, Usable, ExplicitGrammar;
    FrontChild(t, skip, e);
    ChildrenUsable(t, skip, e, 1);
    var xs, rest := t.X(skip, e).es, Children(t.g.skipper.value, skip, e, 1);
    forall l | 1 <= l < |xs| ensures Usable(t.h(), OneMode(), false, xs[l]) { assert xs[l] == rest[l - 1]; }
  }

  lemma FrontChild(t: Twins, skip: bool, e: Expr)
    requires t.g.skipper.Some? && e.Seq? && e.es != []
    ensures t.X(skip, e) == Seq([t.X(skip, e.es[0])] + Children(t.g.skipper.value, skip, e, 1))
  {
    assert Children(t.g.skipper.value, skip, e, 0) ==
        [t.X(skip, e.es[0])] + Children(t.g.skipper.value, skip, e, 1);
  }

  lemma ExplicitWellFormed(t: Twins)
    requires t.Good()
    ensures WellFormed(t.h(), OneMode())
  {
    hide Explicit, IsLeftRec, IsPartner, Usable, UsableIn, CutFree, CutsEnclosed, Advancing, Serves, Calm, FitPartner;
    var h := t.h();
    StillNoCuts(t);
    if t.g.skipper.Some? { MarksKept(t, t.g.skipper.value); }
    forall r | r in h.rules
      ensures Calm(h, h.rules[r].body) && CutsEnclosed(h.rules[r].body)
      ensures if IsPartner(h, r) then FitPartner(h, OneMode(), r)
              else if IsLeftRec(h, r) then UsableIn(h, OneMode(), r, h.rules[r].body)
              else Usable(h, OneMode(), false, h.rules[r].body)
    {
      ExplicitCutFree(t.g.skipper.value, t.mode(r), t.g.rules[r].body);
      CutFreeIsEnclosed(h.rules[r].body);
      CutFreeIsCalm(h, h.rules[r].body);
      MarksKept(t, r);
      if IsPartner(t.g, r) {
        PartnerFits(t, r);
      } else if IsLeftRec(t.g, r) {
        ExplicitUsableIn(t, r, t.g.rules[r].body);
      } else {
        ExplicitUsable(t, t.mode(r), t.g.rules[r].body);
      }
    }
  }

  lemma StillNoCuts(t: Twins)
    requires t.Good()
    ensures NoCuts(t.h())
  {
    hide Explicit, CutFree, WellFormed, Advancing;
    forall r | r in t.h().rules ensures CutFree(t.h().rules[r].body) {
      ExplicitCutFree(t.g.skipper.value, t.mode(r), t.g.rules[r].body);
    }
  }

  lemma PartnerFits(t: Twins, m: RuleId)
    requires t.Good() && m in t.g.rules && IsPartner(t.g, m)
    ensures m in t.h().rules && IsPartner(t.h(), m) && FitPartner(t.h(), OneMode(), m)
  {
    hide Explicit, IsLeftRec, Usable, UsableIn, CutFree, CutsEnclosed, Advancing, Serves;
    var r := Owner(t.g, m);
    MarksKept(t, m);
    MarksKept(t, r);
    ExplicitUsableIn(t, r, t.g.rules[m].body);
  }

  // ---- the branches of a grown rule, with gaps --------------------------------------------------

  /** Branches in explicit form. */
  function WithGaps(t: Twins, r: RuleId, arms: seq<Arm>): seq<Arm>
    requires t.g.skipper.Some?
  {
    seq(|arms|, j requires 0 <= j < |arms| => arms[j].(e := t.X(t.mode(r), arms[j].e)))
  }

  lemma {:induction false} TouchesKept(t: Twins, r: RuleId, e: Expr)
    requires t.Good()
    ensures Touches(t.h(), r, t.X(t.mode(r), e)) <==> Touches(t.g, r, e)
    decreases e
  {
    hide Applies, Children, Branches, ExplicitGrammar, Serves;
    MarksKept(t, r);
    match e
    case Alt(es) =>
      var xs := Branches(t.g.skipper.value, t.mode(r), e, 0);
      forall j | 0 <= j < |es| ensures Touches(t.h(), r, xs[j]) <==> Touches(t.g, r, es[j]) {
        TouchesKept(t, r, es[j]);
        assert xs[j - 0] == t.X(t.mode(r), es[j]);
      }
      assert t.X(t.mode(r), e) == Alt(xs);
    case Seq(es) =>
      if es != [] {
        FrontChild(t, t.mode(r), e);
        TouchesKept(t, r, es[0]);
      } else {
        NoChildren(t, t.mode(r), e);
      }
    case _ =>
  }

  lemma {:induction false} SameRest(ws: RuleId, skip: bool, e: Expr, f: Expr, j: nat)
    requires e.Seq? && f.Seq? && |e.es| == |f.es| && 0 < j <= |e.es| && e.es[j..] == f.es[j..]
    ensures Children(ws, skip, e, j) == Children(ws, skip, f, j)
    decreases |e.es| - j
  {
    if j < |e.es| {
      hide Explicit;
      assert e.es[j] == e.es[j..][0] == f.es[j];
      assert e.es[j + 1..] == e.es[j..][1..] == f.es[j + 1..];
      SameRest(ws, skip, e, f, j + 1);
    }
  }

  /** A branch with the rest of a sequence behind it. */
  lemma FollowedKept(t: Twins, skip: bool, a: Expr, e: Expr)
    requires t.g.skipper.Some? && e.Seq? && e.es != []
    ensures t.X(skip, e).Seq? && t.X(skip, e).es != []
    ensures t.X(skip, Seq([a] + e.es[1..])) == Seq([t.X(skip, a)] + t.X(skip, e).es[1..])
  {
    hide Explicit, Children;
    var f := Seq([a] + e.es[1..]);
    FrontChild(t, skip, e);
    FrontChild(t, skip, f);
    assert f.es[1..] == e.es[1..];
    SameRest(t.g.skipper.value, skip, e, f, 1);
    assert t.X(skip, e).es[1..] == Children(t.g.skipper.value, skip, e, 1);
  }

  lemma {:induction false} UnfoldKept(t: Twins, r: RuleId, n: nat, e: Expr)
    requires t.Good() && IsLeftRec(t.g, r) && !IsPartner(t.g, r)
    ensures Unfold(t.h(), r, n, t.X(t.mode(r), e)) == WithGaps(t, r, Unfold(t.g, r, n, e))
    ensures Unfolds(t.h(), r, n, t.X(t.mode(r), e)) <==> Unfolds(t.g, r, n, e)
    decreases n, e
  {
    hide Applies, Children, Branches, ExplicitGrammar, Serves, IsLeftRec, IsPartner, Followed, Touches;
    TouchesKept(t, r, e);
    if Touches(t.g, r, e) {
      match e
      case Rule(m) => UnfoldKeptRule(t, r, n, m);
      case Alt(es) =>
        UnfoldFromKept(t, r, n, e, 0);
        ChoiceKept(t, r, n, e);
      case Seq(es) => UnfoldKeptSeq(t, r, n, e);
      case _ => NothingTouched(t.g, r, e);
    }
  }

  lemma NothingTouched(g: Grammar, r: RuleId, e: Expr)
    requires !e.Rule? && !e.Alt? && !e.Seq?
    ensures !Touches(g, r, e)
  {
  }

  lemma {:induction false} UnfoldKeptRule(t: Twins, r: RuleId, n: nat, m: RuleId)
    requires t.Good() && IsLeftRec(t.g, r) && !IsPartner(t.g, r) && Touches(t.g, r, Rule(m))
    ensures Touches(t.h(), r, Rule(m)) && Unfold(t.h(), r, n, Rule(m)) == WithGaps(t, r, Unfold(t.g, r, n, Rule(m)))
    ensures Unfolds(t.h(), r, n, Rule(m)) <==> Unfolds(t.g, r, n, Rule(m))
    decreases n, Rule(m), 0
  {
    hide Applies, Explicit, ExplicitGrammar, IsLeftRec, IsPartner;
    MarksKept(t, r);
    if m != r && n > 0 {
      ServesRule(t, m, r);
      GrownFits(t, r);
      MarksKept(t, m);
      UnfoldKept(t, r, n - 1, t.g.rules[m].body);
    }
    assert t.X(t.mode(r), Empty) == Empty by { EmptyKept(t, t.mode(r)); }
  }

  lemma EmptyKept(t: Twins, skip: bool)
    requires t.g.skipper.Some?
    ensures t.X(skip, Empty) == Empty
  {
  }

  lemma {:induction false} UnfoldFromKept(t: Twins, r: RuleId, n: nat, e: Expr, j: nat)
    requires t.Good() && IsLeftRec(t.g, r) && !IsPartner(t.g, r) && e.Alt? && j <= |e.es|
    ensures var x := t.X(t.mode(r), e);
            && x.Alt? && |x.es| == |e.es|
            && UnfoldFrom(t.h(), r, n, x, j) == WithGaps(t, r, UnfoldFrom(t.g, r, n, e, j))
    decreases n, e, |e.es| - j
  {
    hide Applies, ExplicitGrammar, IsLeftRec, IsPartner, Unfold;
    AltKept(t, t.mode(r), e);
    if j < |e.es| {
      UnfoldKept(t, r, n, e.es[j]);
      UnfoldFromKept(t, r, n, e, j + 1);
    }
  }

  lemma AltKept(t: Twins, skip: bool, e: Expr)
    requires t.g.skipper.Some? && e.Alt?
    ensures var x := t.X(skip, e);
            x.Alt? && |x.es| == |e.es| && forall j | 0 <= j < |e.es| :: x.es[j] == t.X(skip, e.es[j])
  {
    var xs := Branches(t.g.skipper.value, skip, e, 0);
    assert forall j | 0 <= j < |e.es| :: xs[j - 0] == t.X(skip, e.es[j]);
  }

  lemma {:induction false} ChoiceKept(t: Twins, r: RuleId, n: nat, e: Expr)
    requires t.Good() && IsLeftRec(t.g, r) && !IsPartner(t.g, r) && e.Alt? && Touches(t.g, r, e)
    ensures Unfolds(t.h(), r, n, t.X(t.mode(r), e)) <==> Unfolds(t.g, r, n, e)
    decreases n, e, 0
  {
    hide Applies, ExplicitGrammar, IsLeftRec, IsPartner, Touches, Explicit;
    AltKept(t, t.mode(r), e);
    TouchesKept(t, r, e);
    forall j | 0 <= j < |e.es|
      ensures Unfolds(t.h(), r, n, t.X(t.mode(r), e.es[j])) <==> Unfolds(t.g, r, n, e.es[j])
    {
      UnfoldKept(t, r, n, e.es[j]);
    }
  }

  lemma UniformKept(t: Twins, r: RuleId, arms: seq<Arm>)
    requires t.g.skipper.Some?
    ensures Uniform(WithGaps(t, r, arms)) <==> Uniform(arms)
  {
    hide Explicit;
    var xs := WithGaps(t, r, arms);
    assert forall j | 0 <= j < |arms| :: xs[j].Tail? == arms[j].Tail?;
    if Uniform(xs) {
      forall j | 0 <= j < |arms| ensures arms[j].Tail? == arms[0].Tail? {
        assert xs[j].Tail? == xs[0].Tail?;
      }
    }
  }

  /** Branches that count as one. */
  lemma LeadKept(t: Twins, r: RuleId, arms: seq<Arm>)
    requires t.g.skipper.Some? && Uniform(arms)
    ensures var xs := WithGaps(t, r, arms);
            Uniform(xs) && Lead(xs) == Lead(arms).(e := t.X(t.mode(r), Lead(arms).e))
  {
    hide Explicit;
    var xs := WithGaps(t, r, arms);
    if |arms| > 1 {
      AltKept(t, t.mode(r), Alt(Exprs(arms)));
      assert Exprs(xs) == t.X(t.mode(r), Alt(Exprs(arms))).es;
    }
  }

  lemma {:induction false} UnfoldKeptSeq(t: Twins, r: RuleId, n: nat, e: Expr)
    requires t.Good() && IsLeftRec(t.g, r) && !IsPartner(t.g, r) && e.Seq? && Touches(t.g, r, e)
    ensures Unfold(t.h(), r, n, t.X(t.mode(r), e)) == WithGaps(t, r, Unfold(t.g, r, n, e))
    ensures Unfolds(t.h(), r, n, t.X(t.mode(r), e)) <==> Unfolds(t.g, r, n, e)
    decreases n, e, 0
  {
    hide Applies, ExplicitGrammar, IsLeftRec, IsPartner, Explicit;
    TouchesKept(t, r, e);
    FrontChild(t, t.mode(r), e);
    UnfoldKept(t, r, n, e.es[0]);
    var arms := Unfold(t.g, r, n, e.es[0]);
    if Uniform(arms) {
      LeadKept(t, r, arms);
      FollowedKept(t, t.mode(r), Lead(arms).e, e);
    }
    UniformKept(t, r, arms);
  }

  /** The base branches are expressions like any other. */
  lemma {:induction false} UnfoldFits(t: Twins, r: RuleId, n: nat, e: Expr)
    requires t.Good() && IsLeftRec(t.g, r) && !IsPartner(t.g, r) && FitsIn(t, r, e)
    ensures forall a | a in Unfold(t.g, r, n, e) && a.Base? :: Fits(t.g, t.mode, t.inp, t.mode(r), a.e)
    decreases n, e
  {
    hide Applies, IsLeftRec, IsPartner, Usable, Advances;
    if !Touches(t.g, r, e) {
      Elimination.UntouchedUsable(t.g, t.mode, r, e);
    } else {
      match e
      case Rule(m) =>
        if m != r && n > 0 {
          GrownFits(t, r);
          UnfoldFits(t, r, n - 1, t.g.rules[m].body);
        }
      case Alt(_) => UnfoldFromFits(t, r, n, e, 0);
      case Seq(es) =>
        UnfoldFits(t, r, n, es[0]);
        var arms := Unfold(t.g, r, n, es[0]);
        if Uniform(arms) && Lead(arms).Base? {
          LeadFits(t, r, arms);
          FollowedFits(t, t.mode(r), Lead(arms).e, e);
        }
      case _ =>
    }
  }

  lemma LeadFits(t: Twins, r: RuleId, arms: seq<Arm>)
    requires Uniform(arms) && Lead(arms).Base?
    requires forall a | a in arms && a.Base? :: Fits(t.g, t.mode, t.inp, t.mode(r), a.e)
    ensures Fits(t.g, t.mode, t.inp, t.mode(r), Lead(arms).e)
  {
    hide Advances;
    assert forall j | 0 <= j < |arms| :: arms[j] in arms && arms[j].Base?;
  }

  lemma FollowedFits(t: Twins, skip: bool, a: Expr, e: Expr)
    requires Fits(t.g, t.mode, t.inp, skip, a) && e.Seq? && e.es != [] && RestFits(t, skip, e, 1)
    ensures Fits(t.g, t.mode, t.inp, skip, Seq([a] + e.es[1..]))
  {
    hide Advances;
    var f := Seq([a] + e.es[1..]);
    assert forall l | 1 <= l < |f.es| :: f.es[l] == e.es[l];
  }

  lemma {:induction false} UnfoldFromFits(t: Twins, r: RuleId, n: nat, e: Expr, j: nat)
    requires t.Good() && IsLeftRec(t.g, r) && !IsPartner(t.g, r) && e.Alt? && j <= |e.es|
        && forall l | j <= l < |e.es| :: FitsIn(t, r, e.es[l])
    ensures forall a | a in UnfoldFrom(t.g, r, n, e, j) && a.Base? :: Fits(t.g, t.mode, t.inp, t.mode(r), a.e)
    decreases n, e, |e.es| - j
  {
    if j < |e.es| {
      hide Applies, IsLeftRec, IsPartner, FitsIn, Fits, Unfold;
      UnfoldFits(t, r, n, e.es[j]);
      UnfoldFromFits(t, r, n, e, j + 1);
    }
  }

  // ---- both rewritings --------------------------------------------------------------------------

  lemma ChoiceStays(t: Twins, r: RuleId, n: nat)
    requires t.Good() && IsLeftRec(t.g, r) && !IsPartner(t.g, r) && Choice(t.g, r, n)
    ensures IsLeftRec(t.h(), r) && !IsPartner(t.h(), r)
    ensures Choice(t.h(), r, n) && Arms(t.h(), r, n) == WithGaps(t, r, Arms(t.g, r, n))
  {
    hide Applies, Explicit, ExplicitGrammar, IsLeftRec, IsPartner, Unfold, Unfolds, WithGaps;
    MarksKept(t, r);
    UnfoldKept(t, r, n, t.g.rules[r].body);
  }

  /** Base branches that consume still do. */
  lemma BasesStillConsume(t: Twins, r: RuleId, n: nat)
    requires t.Good() && IsLeftRec(t.g, r) && !IsPartner(t.g, r) && Choice(t.g, r, n)
    requires Elimination.BaseConsumes(t.g, t.inp, Arms(t.g, r, n))
    ensures Elimination.BaseConsumes(t.h(), t.inp, WithGaps(t, r, Arms(t.g, r, n)))
  {
    hide Applies, Explicit, ExplicitGrammar, Peg.Peg, Fits, IsLeftRec, IsPartner, Unfold, Unfolds;
    var arms := Arms(t.g, r, n);
    GrownFits(t, r);
    UnfoldFits(t, r, n, t.g.rules[r].body);
    forall k: nat, sk: bool, i: nat, l: nat | i <= |t.inp| && l < |arms| && arms[l].Base?
      ensures !EndsAt(Peg.Peg(t.h(), t.inp, k, sk, t.X(t.mode(r), arms[l].e), i, false), i)
    {
      assert arms[l] in arms;
      SimExpr(t, k, t.mode(r), sk, arms[l].e, i, false);
      assert BasesAdvance(t.g, t.inp, k, t.mode(r), arms, i);
    }
  }

  /** "Gap, then start", without auto-skip. */
  function Started(t: Twins, start: RuleId): Expr
    requires t.g.skipper.Some?
  {
    Seq([Gap(t.g.skipper.value), Rule(start)])
  }

  /** Every parse of a grammar with a skipper is the same parse of the grammar without a skipper in which the
      left-recursive rule r is an iteration: an answer of either is one of the other. */
  lemma SkippedGrowthIsIteration(t: Twins, r: RuleId, n: nat, start: RuleId, k: nat, i: nat)
    requires t.Good() && t.mode(start) && !IsPartner(t.g, start) && i <= |t.inp|
    requires IsLeftRec(t.g, r) && !IsPartner(t.g, r) && Choice(t.g, r, n)
    requires Elimination.BaseConsumes(t.g, t.inp, Arms(t.g, r, n))
    ensures Choice(t.h(), r, n)
    ensures var h := Iterated(t.h(), r, n);
            var a := InScope(Peg.Peg(h, t.inp, k, false, Started(t, start), i, false), false);
            && Same(InScope(PegRun(t.g, t.inp, k, start, i), false), a)
            && Same(a, InScope(PegRun(t.g, t.inp, Elimination.Times(n, k), start, i), false))
  {
    hide Applies, ExplicitGrammar, Elimination.BaseConsumes, IsPartner, IsLeftRec, PegRun, Iterated, WellFormed,
        Unfolds, Elimination.Times, Unfold;
    ExplicitWellFormed(t);
    ChoiceStays(t, r, n);
    BasesStillConsume(t, r, n);
    SkipperGone(t);
    GapUsable(t);
    MarksKept(t, start);
    var e := Started(t, start);
    PairUsable(t.h(), Gap(t.g.skipper.value), Rule(start));
    Elimination.LeftRecursionIsIteration(t.h(), OneMode(), t.inp, r, n, k, false, e, i, false);
    SkippingIsSugar(t, k, start, i);
    SkippingIsSugar(t, Elimination.Times(n, k), start, i);
  }
}
