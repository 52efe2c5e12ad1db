/** Left-recursion elimination preserves meaning: replacing one left-recursive rule of a grammar by its
    iteration changes the outcome of no expression, at any position. */
module Elimination {
  import opened Grammars
  import opened Peg
  import opened Forms
  import opened Agreement
  import opened LeftRecursion
  import Depth
  import Totality

  /** No base branch ever matches without consuming. */
  ghost predicate BaseConsumes(g: Grammar, inp: Input, arms: seq<Arm>) {
    forall k: nat, skip: bool, i: nat | i <= |inp| :: BasesAdvance(g, inp, k, skip, arms, i)
  }

  /** A ranking in which the base branches are marked as consuming shows that they are. */
  lemma RankedBasesConsume(w: Totality.Ranking, inp: Input, r: RuleId, n: nat)
    requires Totality.Ranked(w) && Choice(w.g, r, n) && IsLeftRec(w.g, r) && !IsPartner(w.g, r)
    requires forall a | a in Arms(w.g, r, n) && a.Base? :: Totality.Consumes(w.eats, a.e)
    ensures BaseConsumes(w.g, inp, Arms(w.g, r, n))
  {
    hide Totality.Ranked, Totality.Consumes, Totality.Safe, Peg.Peg, IsLeftRec, Unfold, Unfolds;
    var arms := Arms(w.g, r, n);
    ArmsSafe(w, r, n);
    forall k: nat, skip: bool, i: nat, j: nat | i <= |inp| && j < |arms| && arms[j].Base?
      ensures !EndsAt(Peg.Peg(w.g, inp, k, skip, arms[j].e, i, false), i)
    {
      assert arms[j] in arms;
      Totality.NeverEmpty(w, inp, k, skip, arms[j].e, i);
    }
  }

  lemma ArmsSafe(w: Totality.Ranking, r: RuleId, n: nat)
    requires Totality.Ranked(w) && Choice(w.g, r, n) && IsLeftRec(w.g, r) && !IsPartner(w.g, r)
    ensures forall a | a in Arms(w.g, r, n) && a.Base? :: Totality.Safe(w.g, a.e)
  {
    hide Totality.LowIn, Unfold, Totality.Safe;
    assert Totality.RankedRule(w, r);
    UnfoldSafe(w, r, n, w.g.rules[r].body);
  }

  lemma {:induction false} UnfoldSafe(w: Totality.Ranking, r: RuleId, n: nat, e: Expr)
    requires Totality.Ranked(w) && Totality.SafeIn(w.g, r, e)
    ensures forall a | a in Unfold(w.g, r, n, e) && a.Base? :: Totality.Safe(w.g, a.e)
    decreases n, e
  {
    hide Totality.Ranked;
    if !Touches(w.g, r, e) {
      UntouchedSafe(w.g, r, e);
    } else {
      match e
      case Rule(m) =>
        if m != r && n > 0 {
          assert Totality.RankedRule(w, m) by { Totality.RuleRanked(w, m); }
          UnfoldSafe(w, r, n - 1, w.g.rules[m].body);
        }
      case Alt(_) => UnfoldFromSafe(w, r, n, e, 0);
      case Seq(es) =>
        UnfoldSafe(w, r, n, es[0]);
        var arms := Unfold(w.g, r, n, es[0]);
        if Uniform(arms) && Lead(arms).Base? {
          LeadSafe(w.g, arms);
          FollowedSafe(w.g, Lead(arms).e, e);
        }
      case _ =>
    }
  }

  lemma LeadSafe(g: Grammar, arms: seq<Arm>)
    requires Uniform(arms) && Lead(arms).Base? && forall a | a in arms && a.Base? :: Totality.Safe(g, a.e)
    ensures Totality.Safe(g, Lead(arms).e)
  {
    assert forall j | 0 <= j < |arms| :: arms[j] in arms && arms[j].Base?;
  }

  lemma FollowedSafe(g: Grammar, t: Expr, e: Expr)
    requires Totality.Safe(g, t) && e.Seq? && e.es != [] && forall j | 1 <= j < |e.es| :: Totality.Safe(g, e.es[j])
    ensures Totality.Safe(g, Seq([t] + e.es[1..]))
  {
  }

  lemma {:induction false} UnfoldFromSafe(w: Totality.Ranking, r: RuleId, n: nat, e: Expr, j: nat)
    requires Totality.Ranked(w) && e.Alt? && j <= |e.es| && forall l | j <= l < |e.es| ::
        Totality.SafeIn(w.g, r, e.es[l])
    ensures forall a | a in UnfoldFrom(w.g, r, n, e, j) && a.Base? :: Totality.Safe(w.g, a.e)
    decreases n, e, |e.es| - j
  {
    if j < |e.es| {
      hide Totality.Ranked, Totality.SafeIn, Totality.Safe, Unfold;
      UnfoldSafe(w, r, n, e.es[j]);
      UnfoldFromSafe(w, r, n, e, j + 1);
    }
  }

  lemma {:induction false} UntouchedSafe(g: Grammar, r: RuleId, e: Expr)
    requires Totality.SafeIn(g, r, e) && !Touches(g, r, e)
    ensures Totality.Safe(g, e)
    decreases e
  {
    match e
    case Alt(es) => forall j | 0 <= j < |es| ensures Totality.Safe(g, es[j]) { UntouchedSafe(g, r, es[j]); }
    case Seq(es) => if es != [] { UntouchedSafe(g, r, es[0]); }
    case _ =>
  }

  /** The rewriting applies: r is left-recursive through at most n partners in a row, whatever the order of its
      branches, its base branches consume and no skipper is set. */
  ghost predicate Applies(g: Grammar, mode: RuleId -> bool, inp: Input, r: RuleId, n: nat) {
    && WellFormed(g, mode) && g.skipper.None? && IsLeftRec(g, r) && !IsPartner(g, r)
    && Choice(g, r, n) && BaseConsumes(g, inp, Arms(g, r, n))
  }

  ghost function UsableRules(g: Grammar): iset<RuleId> {
    iset r | !IsPartner(g, r)
  }

  lemma {:induction false} UsableCalls(g: Grammar, mode: RuleId -> bool, skip: bool, e: Expr)
    requires Usable(g, mode, skip, e)
    ensures Calls(UsableRules(g), e)
  {
    match e
    case Seq(es) => forall j | 0 <= j < |es| ensures Calls(UsableRules(g), es[j]) { UsableCalls(g, mode, skip, es[j]); }
    case Alt(es) => forall j | 0 <= j < |es| ensures Calls(UsableRules(g), es[j]) { UsableCalls(g, mode, skip, es[j]); }
    case Rep(child, _, _) => UsableCalls(g, mode, skip, child);
    case Not(child) => UsableCalls(g, mode, skip, child);
    case And(child) => UsableCalls(g, mode, skip, child);
    case Lexeme(child) => UsableCalls(g, mode, false, child);
    case _ =>
  }

  // ---- the shape of the two grammars ------------------------------------------------------------

  lemma {:induction false} UnfoldCalls(g: Grammar, mode: RuleId -> bool, r: RuleId, n: nat, e: Expr)
    requires WellFormed(g, mode) && UsableIn(g, mode, r, e)
    ensures forall a | a in Unfold(g, r, n, e) :: Calls(UsableRules(g), a.e)
    decreases n, e
  {
    hide WellFormed;
    if !Touches(g, r, e) {
      UntouchedUsable(g, mode, r, e);
      UsableCalls(g, mode, mode(r), e);
    } else {
      match e
      case Rule(m) =>
        if m != r && n > 0 {
          PartnerUsable(g, mode, m);
          UnfoldCalls(g, mode, r, n - 1, g.rules[m].body);
        }
      case Alt(_) => UnfoldFromCalls(g, mode, r, n, e, 0);
      case Seq(es) =>
        UnfoldCalls(g, mode, r, n, es[0]);
        var arms := Unfold(g, r, n, es[0]);
        if Uniform(arms) {
          LeadCalls(UsableRules(g), arms);
          forall j | 1 <= j < |es| ensures Calls(UsableRules(g), es[j]) { UsableCalls(g, mode, mode(r), es[j]); }
          FollowedCalls(UsableRules(g), Lead(arms).e, e);
        }
      case _ =>
    }
  }

  lemma PartnerUsable(g: Grammar, mode: RuleId -> bool, m: RuleId)
    requires WellFormed(g, mode) && IsPartner(g, m) && m in g.rules
    ensures FitPartner(g, mode, m)
  {
  }

  lemma LeadCalls(usable: iset<RuleId>, arms: seq<Arm>)
    requires Uniform(arms) && forall a | a in arms :: Calls(usable, a.e)
    ensures Calls(usable, Lead(arms).e)
  {
    assert forall j | 0 <= j < |arms| :: arms[j] in arms;
  }

  lemma FollowedCalls(usable: iset<RuleId>, t: Expr, e: Expr)
    requires Calls(usable, t) && e.Seq? && e.es != [] && forall j | 1 <= j < |e.es| :: Calls(usable, e.es[j])
    ensures Calls(usable, Seq([t] + e.es[1..]))
  {
  }

  lemma {:induction false} UnfoldFromCalls(g: Grammar, mode: RuleId -> bool, r: RuleId, n: nat, e: Expr, j: nat)
    requires WellFormed(g, mode) && e.Alt? && j <= |e.es| && forall l | j <= l < |e.es| :: UsableIn(g, mode, r, e.es[l])
    ensures forall a | a in UnfoldFrom(g, r, n, e, j) :: Calls(UsableRules(g), a.e)
    decreases n, e, |e.es| - j
  {
    if j < |e.es| {
      hide WellFormed, UsableIn, Calls, Unfold;
      UnfoldCalls(g, mode, r, n, e.es[j]);
      UnfoldFromCalls(g, mode, r, n, e, j + 1);
    }
  }

  /** What enters neither r nor a partner is usable anywhere. */
  lemma {:induction false} UntouchedUsable(g: Grammar, mode: RuleId -> bool, r: RuleId, e: Expr)
    requires UsableIn(g, mode, r, e) && !Touches(g, r, e)
    ensures Usable(g, mode, mode(r), e)
    decreases e
  {
    match e
    case Alt(es) => forall j | 0 <= j < |es| ensures Usable(g, mode, mode(r), es[j]) {
      UntouchedUsable(g, mode, r, es[j]);
    }
    case Seq(es) => if es != [] { UntouchedUsable(g, mode, r, es[0]); }
    case _ =>
  }

  /** What runs while a rule grows has no cuts. */
  lemma NoCutInside(g: Grammar, mode: RuleId -> bool, r: RuleId)
    requires WellFormed(g, mode) && IsLeftRec(g, r) && !IsPartner(g, r)
    ensures PiecesCutFree(g, r)
  {
    hide CutFree, Calm, CutsEnclosed, Usable, UsableIn, FitPartner, NoCuts;
    QuietIsCalm(g, mode, r);
    CalmIsCutFree(g, g.rules[r].body);
    forall m | Serves(g, m, r) ensures CutFree(g.rules[m].body) {
      QuietIsCalm(g, mode, m);
      CalmIsCutFree(g, g.rules[m].body);
    }
  }

  lemma ShapeOf(g: Grammar, mode: RuleId -> bool, inp: Input, r: RuleId, n: nat)
    requires Applies(g, mode, inp, r, n)
    ensures PiecesCutFree(g, r) && Calls(UsableRules(g), Iteration(Arms(g, r, n)))
  {
    NoCutInside(g, mode, r);
    hide PiecesCutFree, NoCuts, Calm, Unfold, Unfolds, BaseConsumes, CutsEnclosed, FitPartner, UsableIn;
    UnfoldCalls(g, mode, r, n, g.rules[r].body);
    LinesCall(Arms(g, r, n), UsableRules(g), |Arms(g, r, n)|);
  }

  lemma {:induction false} TailsCall(arms: seq<Arm>, usable: iset<RuleId>, b: nat)
    requires b <= |arms| && forall a | a in arms :: Calls(usable, a.e)
    ensures forall j | 0 <= j < |Tails(arms, b)| :: Calls(usable, Tails(arms, b)[j])
  {
    hide Calls;
    if b > 0 { TailsCall(arms, usable, b - 1); }
  }

  lemma {:induction false} LinesCall(arms: seq<Arm>, usable: iset<RuleId>, b: nat)
    requires b <= |arms| && forall a | a in arms :: Calls(usable, a.e)
    ensures forall j | 0 <= j < |Lines(arms, b)| :: Calls(usable, Lines(arms, b)[j])
  {
    hide Tails;
    if b > 0 {
      LinesCall(arms, usable, b - 1);
      TailsCall(arms, usable, b - 1);
      if arms[b - 1].Base? {
        var e := Line(arms, b - 1);
        assert Calls(usable, e.es[0]) && Calls(usable, e.es[1].child);
      }
    }
  }

  // ---- the other left-recursive rules grow alike ------------------------------------------------

  /** The bodies of x and of its partners are the same in both grammars, and call only usable rules. */
  ghost predicate Twin(p: Pair, x: RuleId) {
    && x in p.g.rules && x in p.h.rules && p.g.rules[x] == p.h.rules[x] && CallsIn(p, x, p.g.rules[x].body)
    && forall m ::
         && (Serves(p.g, m, x) <==> Serves(p.h, m, x))
         && (Serves(p.g, m, x) ==> p.g.rules[m] == p.h.rules[m] && CallsIn(p, x, p.g.rules[m].body))
  }

  /** `e`, at the start of x or of one of its partners, calls only these and usable rules. */
  ghost predicate CallsIn(p: Pair, x: RuleId, e: Expr) {
    match e
    case Rule(m) => m == x || Serves(p.g, m, x) || m in p.usable
    case Alt(es) => forall j | 0 <= j < |es| :: CallsIn(p, x, es[j])
    case Seq(es) => es == [] || (CallsIn(p, x, es[0]) && forall j | 1 <= j < |es| :: Calls(p.usable, es[j]))
    case _ => Calls(p.usable, e)
  }

  /** `p` at depths smaller by d, on both sides. */
  function Lower(p: Pair, d: nat): Pair
    requires d <= p.k <= p.k'
  {
    p.(k := p.k - d, k' := p.k' - d)
  }

  /** The calls agree at every smaller depth as well. */
  ghost predicate Deep(p: Pair) {
    p.k <= p.k' && forall d: nat | d <= p.k :: Lower(p, d).Agree()
  }

  lemma {:induction false} GrowTwin(p: Pair, skip: bool, x: RuleId, i: nat, seed: Option<nat>)
    requires Deep(p) && Twin(p, x) && i <= |p.inp| && (seed.Some? ==> i < seed.value <= |p.inp|)
    ensures Same(InScope(PegGrow(p.g, p.inp, p.k, skip, x, i, seed), false),
        InScope(PegGrow(p.h, p.inp, p.k', skip, x, i, seed), false))
    decreases |p.inp| - (if seed.Some? then seed.value else i)
  {
    hide Deep, PegIn;
    assert CallsIn(p, x, p.g.rules[x].body);
    InTwin(p, skip, x, p.g.rules[x].body, i, seed);
    var a := PegIn(p.g, p.inp, p.k, skip, x, p.g.rules[x].body, i, seed);
    var last := if seed.Some? then seed.value else i;
    if a.Some? && a.value.out.Yes? && a.value.out.end > last {
      GrowTwin(p, skip, x, i, Some(a.value.out.end));
    }
  }

  lemma {:induction false} InTwin(p: Pair, skip: bool, x: RuleId, e: Expr, i: nat, seed: Option<nat>)
    requires Deep(p) && Twin(p, x) && CallsIn(p, x, e) && i <= |p.inp| && (seed.Some? ==> i < seed.value <= |p.inp|)
    ensures Same(InScope(PegIn(p.g, p.inp, p.k, skip, x, e, i, seed), false),
        InScope(PegIn(p.h, p.inp, p.k', skip, x, e, i, seed), false))
    decreases p.k, e
  {
    hide Deep, Twin, PegSeq, Peg.Peg;
    DeepAgrees(p);
    match e
    case Rule(m) =>
      TwinPartner(p, x, m);
      if m == x {
      } else if Serves(p.g, m, x) {
        if p.k > 0 {
          Shallower(p, x);
          InTwin(Lower(p, 1), skip, x, p.g.rules[m].body, i, seed);
        }
      } else {
        ExprAgree(p, skip, e, i, false);
      }
    case Alt(_) => InAltTwin(p, skip, x, e, 0, i, seed);
    case Seq(es) =>
      if es == [] {
        ExprAgree(p, skip, e, i, false);
      } else {
        InTwin(p, skip, x, es[0], i, seed);
        var a := PegIn(p.g, p.inp, p.k, skip, x, es[0], i, seed);
        if a.Some? && a.value.out.Yes? { SeqAgree(p, skip, e, 1, a.value.out.end, false); }
      }
    case _ => ExprAgree(p, skip, e, i, false);
  }

  lemma DeepAgrees(p: Pair)
    requires Deep(p)
    ensures p.Agree() && p.k <= p.k'
  {
    hide CallsAgree;
    assert Lower(p, 0) == p;
  }

  lemma TwinPartner(p: Pair, x: RuleId, m: RuleId)
    requires Twin(p, x)
    ensures Serves(p.g, m, x) <==> Serves(p.h, m, x)
    ensures Serves(p.g, m, x) ==> p.g.rules[m] == p.h.rules[m] && CallsIn(p, x, p.g.rules[m].body)
  {
  }

  /** One level less deep on both sides. */
  lemma Shallower(p: Pair, x: RuleId)
    requires Deep(p) && p.k > 0 && Twin(p, x)
    ensures p.k' >= p.k
    ensures var p1 := Lower(p, 1);
            && Deep(p1) && Twin(p1, x) && forall e :: CallsIn(p, x, e) ==> CallsIn(p1, x, e)
  {
    hide CallsAgree, Calls;
    var p1 := Lower(p, 1);
    forall d: nat | d <= p1.k ensures Lower(p1, d).Agree() {
      assert Lower(p, d + 1) == Lower(p1, d);
    }
    forall e | CallsIn(p, x, e) ensures CallsIn(p1, x, e) { SameCalls(p, p1, x, e); }
  }

  lemma {:induction false} SameCalls(p: Pair, p1: Pair, x: RuleId, e: Expr)
    requires CallsIn(p, x, e) && p1.g == p.g && p1.usable == p.usable
    ensures CallsIn(p1, x, e)
    decreases e
  {
    match e
    case Alt(es) => forall j | 0 <= j < |es| ensures CallsIn(p1, x, es[j]) { SameCalls(p, p1, x, es[j]); }
    case Seq(es) => if es != [] { SameCalls(p, p1, x, es[0]); }
    case _ =>
  }

  lemma {:induction false} InAltTwin(p: Pair, skip: bool, x: RuleId, e: Expr, j: nat, i: nat, seed: Option<nat>)
    requires Deep(p) && Twin(p, x) && i <= |p.inp| && (seed.Some? ==> i < seed.value <= |p.inp|)
    requires e.Alt? && j <= |e.es| && CallsIn(p, x, e)
    ensures Same(InScope(PegInAlt(p.g, p.inp, p.k, skip, x, e, j, i, seed), false),
        InScope(PegInAlt(p.h, p.inp, p.k', skip, x, e, j, i, seed), false))
    decreases p.k, e, |e.es| - j
  {
    if j < |e.es| {
      hide Deep, Twin, PegIn;
      InTwin(p, skip, x, e.es[j], i, seed);
      InAltTwin(p, skip, x, e, j + 1, i, seed);
    }
  }

  // ---- the theorem ------------------------------------------------------------------------------

  /** The rewritten rule and its partners are ordinary rules; nothing else changes. */
  lemma OnlyOneRule(g: Grammar, r: RuleId, n: nat, x: RuleId)
    requires Choice(g, r, n) && !IsPartner(g, r)
    ensures var h := Iterated(g, r, n);
            && h.skipper == g.skipper && h.rules.Keys == g.rules.Keys
            && !IsLeftRec(h, r) && !IsPartner(h, r) && r in h.rules
            && h.rules[r] == g.rules[r].(body := Iteration(Arms(g, r, n)))
            && (x != r ==>
                  && (IsLeftRec(h, x) <==> IsLeftRec(g, x))
                  && (!IsPartner(g, x) ==> !IsPartner(h, x))
                  && (x in g.rules ==> h.rules[x] == g.rules[x])
                  && forall m :: Serves(h, m, x) <==> Serves(g, m, x))
  {
    hide Arms, Iteration, Unfolds;
  }

  lemma {:induction false} UsableInCalls(g: Grammar, mode: RuleId -> bool, p: Pair, x: RuleId, e: Expr)
    requires UsableIn(g, mode, x, e) && p.usable == UsableRules(g) && forall m :: Serves(p.g, m, x) <==> Serves(g, m, x)
    ensures CallsIn(p, x, e)
    decreases e
  {
    hide Serves;
    match e
    case Alt(es) => forall j | 0 <= j < |es| ensures CallsIn(p, x, es[j]) { UsableInCalls(g, mode, p, x, es[j]); }
    case Seq(es) =>
      if es != [] {
        UsableInCalls(g, mode, p, x, es[0]);
        forall j | 1 <= j < |es| ensures Calls(p.usable, es[j]) { UsableCalls(g, mode, mode(x), es[j]); }
      }
    case _ => if Usable(g, mode, mode(x), e) { UsableCalls(g, mode, mode(x), e); }
  }

  lemma TwinIn(g: Grammar, mode: RuleId -> bool, inp: Input, r: RuleId, n: nat, p: Pair, x: RuleId)
    requires Applies(g, mode, inp, r, n) && x != r && IsLeftRec(g, x) && !IsPartner(g, x) && p.usable == UsableRules(g)
    requires (p.g == g && p.h == Iterated(g, r, n)) || (p.g == Iterated(g, r, n) && p.h == g)
    ensures Twin(p, x)
  {
    hide Unfolds, Iterated, UsableIn, CallsIn, BaseConsumes, Usable, CutsEnclosed, NoCuts, NoLeftRec;
    OnlyOneRule(g, r, n, x);
    UsableInCalls(g, mode, p, x, g.rules[x].body);
    forall m | Serves(g, m, x)
      ensures p.g.rules[m] == p.h.rules[m] && CallsIn(p, x, p.g.rules[m].body)
    {
      OnlyOneRule(g, r, n, m);
      PartnerUsable(g, mode, m);
      UsableInCalls(g, mode, p, x, g.rules[m].body);
    }
  }

  /** Answers of the original grammar are answers of the rewritten one, at the same depth. */
  lemma {:induction false} CallsForward(g: Grammar, mode: RuleId -> bool, inp: Input, r: RuleId, n: nat, k: nat)
    requires Applies(g, mode, inp, r, n)
    ensures CallsAgree(g, k, Iterated(g, r, n), k, inp, UsableRules(g))
    decreases k
  {
    hide CallsAgree, WellFormed, BaseConsumes, IsPartner, Unfolds, Iterated;
    var h, usable := Iterated(g, r, n), UsableRules(g);
    if k > 0 {
      var p := Pair(g, k - 1, h, k - 1, inp, usable);
      OnlyOneRule(g, r, n, r);
      forall d: nat | d <= p.k ensures Lower(p, d).Agree() {
        CallsForward(g, mode, inp, r, n, k - 1 - d);
      }
      ForwardStep(g, mode, inp, r, n, k, p);
    } else {
      NoCallsAtZero(g, h, 0, inp, usable);
    }
  }

  lemma NoCallsAtZero(g: Grammar, h: Grammar, k': nat, inp: Input, usable: iset<RuleId>)
    ensures CallsAgree(g, 0, h, k', inp, usable)
  {
  }

  lemma ForwardStep(g: Grammar, mode: RuleId -> bool, inp: Input, r: RuleId, n: nat, k: nat, p: Pair)
    requires Applies(g, mode, inp, r, n) && k > 0 && Deep(p)
    requires p == Pair(g, k - 1, Iterated(g, r, n), k - 1, inp, UsableRules(g))
    ensures CallsAgree(g, k, Iterated(g, r, n), k, inp, UsableRules(g))
  {
    hide Deep, WellFormed, BaseConsumes, PegCall, Unfolds, Iterated;
    forall skip: bool, x: RuleId, i: nat | x in UsableRules(g) && i <= |inp|
      ensures Same(InScope(PegCall(g, inp, k, skip, x, i), false),
          InScope(PegCall(Iterated(g, r, n), inp, k, skip, x, i), false))
    {
      CallForward(g, mode, inp, r, n, k, p, skip, x, i);
    }
  }

  lemma CallForward(g: Grammar, mode: RuleId -> bool, inp: Input, r: RuleId, n: nat, k: nat, p: Pair, skip: bool,
      x: RuleId, i: nat)
    requires Applies(g, mode, inp, r, n) && k > 0 && Deep(p) && !IsPartner(g, x) && i <= |inp|
    requires p == Pair(g, k - 1, Iterated(g, r, n), k - 1, inp, UsableRules(g))
    ensures Same(InScope(PegCall(g, inp, k, skip, x, i), false),
        InScope(PegCall(Iterated(g, r, n), inp, k, skip, x, i), false))
  {
    hide Deep, WellFormed, BaseConsumes, Peg.Peg, PegGrow, Iteration, Iterated, Unfolds, Arms;
    OnlyOneRule(g, r, n, x);
    if x in g.rules {
      if x == r { IterationForward(g, mode, inp, r, n, p, skip, i); }
      else { OtherRule(g, mode, inp, r, n, p, skip, x, i); }
    }
  }

  lemma AllAdvance(g: Grammar, inp: Input, k: nat, skip: bool, arms: seq<Arm>, i: nat)
    requires BaseConsumes(g, inp, arms) && i <= |inp|
    ensures BasesAdvance(g, inp, k, skip, arms, i)
  {
  }

  /** Growth in g is the iteration in the rewritten grammar. */
  lemma IterationForward(g: Grammar, mode: RuleId -> bool, inp: Input, r: RuleId, n: nat, p: Pair, skip: bool, i: nat)
    requires Applies(g, mode, inp, r, n) && Deep(p) && p.g == g && p.inp == inp && p.usable == UsableRules(g)
        && i <= |inp|
    ensures Keeps(OutOf(PegGrow(g, inp, p.k, skip, r, i, None)),
        OutOf(Peg.Peg(p.h, inp, p.k', skip, Iteration(Arms(g, r, n)), i, false)))
  {
    hide Deep, WellFormed, BaseConsumes, Peg.Peg, PegGrow, Iteration, Unfolds, PiecesCutFree, BasesAdvance;
    ShapeOf(g, mode, inp, r, n);
    DeepAgrees(p);
    AllAdvance(g, inp, p.k, skip, Arms(g, r, n), i);
    GrowthIsIteration(g, inp, p.k, skip, r, n, i);
    ExprAgree(p, skip, Iteration(Arms(g, r, n)), i, false);
  }

  /** And conversely, n levels deeper. */
  lemma IterationBackward(g: Grammar, mode: RuleId -> bool, inp: Input, r: RuleId, n: nat, p: Pair, skip: bool, i: nat)
    requires Applies(g, mode, inp, r, n) && p.Agree() && p.h == g && p.inp == inp && p.usable == UsableRules(g)
        && i <= |inp|
    ensures Keeps(OutOf(Peg.Peg(p.g, inp, p.k, skip, Iteration(Arms(g, r, n)), i, false)),
        OutOf(PegGrow(g, inp, p.k' + n, skip, r, i, None)))
  {
    hide CallsAgree, WellFormed, BaseConsumes, Peg.Peg, PegGrow, Iteration, Unfolds, PiecesCutFree, BasesAdvance;
    ShapeOf(g, mode, inp, r, n);
    AllAdvance(g, inp, p.k', skip, Arms(g, r, n), i);
    GrowthIsIteration(g, inp, p.k', skip, r, n, i);
    ExprAgree(p, skip, Iteration(Arms(g, r, n)), i, false);
  }

  /** A rule that was not rewritten, in either direction. */
  lemma OtherRule(g: Grammar, mode: RuleId -> bool, inp: Input, r: RuleId, n: nat, p: Pair, skip: bool, x: RuleId,
      i: nat)
    requires Applies(g, mode, inp, r, n) && Deep(p) && p.inp == inp && p.usable == UsableRules(g)
    requires (p.g == g && p.h == Iterated(g, r, n)) || (p.g == Iterated(g, r, n) && p.h == g)
    requires x in g.rules && x != r && !IsPartner(g, x) && i <= |inp|
    ensures Same(InScope(PegCall(p.g, inp, p.k + 1, skip, x, i), false),
        InScope(PegCall(p.h, inp, p.k' + 1, skip, x, i), false))
  {
    hide Deep, UsableIn, Peg.Peg, PegGrow, Iterated, BaseConsumes, Twin, Unfolds, Usable, NoCuts, NoLeftRec,
        CutsEnclosed, IsPartner, IsLeftRec;
    OnlyOneRule(g, r, n, x);
    if IsLeftRec(g, x) {
      LeftRecHere(g, x);
      TwinIn(g, mode, inp, r, n, p, x);
      GrowTwin(p, skip, x, i, None);
    } else {
      UsableCalls(g, mode, mode(x), g.rules[x].body);
      DeepAgrees(p);
      ExprAgree(p, skip, g.rules[x].body, i, false);
    }
  }

  lemma LeftRecHere(g: Grammar, x: RuleId)
    requires IsLeftRec(g, x)
    ensures x in g.rules
  {
  }

  /** How deep the original grammar is searched for what the rewritten one answers at depth k. */
  function Times(n: nat, k: nat): nat { (n + 1) * k }

  lemma TimesStep(n: nat, k: nat, d: nat)
    requires d < k
    ensures Times(n, k) == Times(n, k - 1) + n + 1
    ensures Times(n, k - 1 - d) + d < Times(n, k)
  {
    Totality.Distribute(k - 1, 1, n + 1);
    Totality.Distribute(k - 1 - d, d + 1, n + 1);
    assert (d + 1) * (n + 1) == (d + 1) + (d + 1) * n;
  }

  lemma TimesGrow(n: nat, k: nat)
    ensures k <= Times(n, k)
  {
    Totality.Distribute(n, 1, k);
  }

  /** Answers of the rewritten grammar are answers of the original one, at n + 1 times the depth. */
  lemma {:induction false} CallsBackward(g: Grammar, mode: RuleId -> bool, inp: Input, r: RuleId, n: nat, k: nat)
    requires Applies(g, mode, inp, r, n)
    ensures CallsAgree(Iterated(g, r, n), k, g, Times(n, k), inp, UsableRules(g))
    decreases k
  {
    hide CallsAgree, WellFormed, BaseConsumes, IsPartner, Unfolds, Iterated, Times;
    var h, usable := Iterated(g, r, n), UsableRules(g);
    if k > 0 {
      TimesStep(n, k, 0);
      TimesGrow(n, k);
      OnlyOneRule(g, r, n, r);
      CallsBackward(g, mode, inp, r, n, k - 1);
      var p0 := Pair(h, k - 1, g, Times(n, k - 1), inp, usable);
      var p := p0.(k' := Times(n, k) - 1);
      forall d: nat | d <= p.k ensures Lower(p, d).Agree() {
        TimesStep(n, k, d);
        CallsBackward(g, mode, inp, r, n, k - 1 - d);
        AgreeDeeper(Pair(h, k - 1 - d, g, Times(n, k - 1 - d), inp, usable), p.k' - d);
      }
      BackwardStep(g, mode, inp, r, n, k, p0, p);
    } else {
      NoCallsAtZero(h, g, Times(n, 0), inp, usable);
    }
  }

  lemma BackwardStep(g: Grammar, mode: RuleId -> bool, inp: Input, r: RuleId, n: nat, k: nat, p0: Pair, p: Pair)
    requires Applies(g, mode, inp, r, n) && k > 0 && Times(n, k) > 0 && p0.Agree() && Deep(p)
    requires p0 == Pair(Iterated(g, r, n), k - 1, g, Times(n, k - 1), inp, UsableRules(g))
    requires p == p0.(k' := Times(n, k) - 1) && Times(n, k) == Times(n, k - 1) + n + 1
    ensures CallsAgree(Iterated(g, r, n), k, g, Times(n, k), inp, UsableRules(g))
  {
    hide CallsAgree, Deep, WellFormed, BaseConsumes, PegCall, Unfolds, Iterated, Times;
    forall skip: bool, x: RuleId, i: nat | x in UsableRules(g) && i <= |inp|
      ensures Same(InScope(PegCall(Iterated(g, r, n), inp, k, skip, x, i), false),
          InScope(PegCall(g, inp, Times(n, k), skip, x, i), false))
    {
      CallBackward(g, mode, inp, r, n, k, p0, p, skip, x, i);
    }
    AllAgree(Iterated(g, r, n), k, g, Times(n, k), inp, UsableRules(g));
  }

  lemma AllAgree(g: Grammar, k: nat, h: Grammar, k': nat, inp: Input, usable: iset<RuleId>)
    requires forall skip: bool, r: RuleId, i: nat | r in usable && i <= |inp| ::
               Same(InScope(PegCall(g, inp, k, skip, r, i), false), InScope(PegCall(h, inp, k', skip, r, i), false))
    ensures CallsAgree(g, k, h, k', inp, usable)
  {
    hide PegCall;
  }

  lemma CallBackward(g: Grammar, mode: RuleId -> bool, inp: Input, r: RuleId, n: nat, k: nat, p0: Pair, p: Pair,
      skip: bool, x: RuleId, i: nat)
    requires Applies(g, mode, inp, r, n) && k > 0 && Times(n, k) > 0 && p0.Agree() && Deep(p)
    requires p0 == Pair(Iterated(g, r, n), k - 1, g, Times(n, k - 1), inp, UsableRules(g))
    requires p == p0.(k' := Times(n, k) - 1) && Times(n, k) == Times(n, k - 1) + n + 1
    requires !IsPartner(g, x) && i <= |inp|
    ensures Same(InScope(PegCall(Iterated(g, r, n), inp, k, skip, x, i), false),
        InScope(PegCall(g, inp, Times(n, k), skip, x, i), false))
  {
    hide CallsAgree, Deep, WellFormed, BaseConsumes, Peg.Peg, PegGrow, Iteration, Iterated, Unfolds, Arms, Times;
    OnlyOneRule(g, r, n, x);
    if x in g.rules {
      if x == r { IterationBackward(g, mode, inp, r, n, p0, skip, i); }
      else { OtherRule(g, mode, inp, r, n, p, skip, x, i); }
    }
  }

  /** Every expression means the same in both grammars: an answer of either is one of the other. */
  lemma LeftRecursionIsIteration(g: Grammar, mode: RuleId -> bool, inp: Input, r: RuleId, n: nat, k: nat, skip: bool,
      e: Expr, i: nat, cut: bool)
    requires Applies(g, mode, inp, r, n) && Usable(g, mode, skip, e) && i <= |inp|
    ensures var h := Iterated(g, r, n);
            && Same(Peg.Peg(g, inp, k, skip, e, i, cut), Peg.Peg(h, inp, k, skip, e, i, cut))
            && Same(Peg.Peg(h, inp, k, skip, e, i, cut), Peg.Peg(g, inp, Times(n, k), skip, e, i, cut))
  {
    hide WellFormed, BaseConsumes, Unfolds, Iterated, Times, Peg.Peg, CallsAgree;
    var h := Iterated(g, r, n);
    OnlyOneRule(g, r, n, r);
    CallsForward(g, mode, inp, r, n, k);
    CallsBackward(g, mode, inp, r, n, k);
    UsableCalls(g, mode, skip, e);
    ExprAgree(Pair(g, k, h, k, inp, UsableRules(g)), skip, e, i, cut);
    ExprAgree(Pair(h, k, g, Times(n, k), inp, UsableRules(g)), skip, e, i, cut);
  }
}
