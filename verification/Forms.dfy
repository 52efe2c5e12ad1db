/** Which grammars the memoised machine is faithful to: the syntactic conditions of the transparency
    theorem. */
module Forms {
  import opened Grammars
  import opened Peg

  /** No cut anywhere in `e`, lookaheads and nested scopes included. */
  ghost predicate CutFree(e: Expr) {
    match e
    case Cut => false
    case Seq(es) => forall j | 0 <= j < |es| :: CutFree(es[j])
    case Alt(es) => forall j | 0 <= j < |es| :: CutFree(es[j])
    case Rep(child, _, _) => CutFree(child)
    case Not(child) => CutFree(child)
    case And(child) => CutFree(child)
    case Lexeme(child) => CutFree(child)
    case _ => true
  }

  /** Every cut of `e` lies inside an alternation or repetition of `e` itself. */
  ghost predicate CutsEnclosed(e: Expr) {
    match e
    case Cut => false
    case Seq(es) => forall j | 0 <= j < |es| :: CutsEnclosed(es[j])
    case Not(child) => CutsEnclosed(child)
    case And(child) => CutsEnclosed(child)
    case Lexeme(child) => CutsEnclosed(child)
    case _ => true
  }

  /** With auto-skip on iff `skip`, `e` reaches every rule in that rule's own mode, and no partner. */
  ghost predicate Usable(g: Grammar, mode: RuleId -> bool, skip: bool, e: Expr) {
    match e
    case Rule(r) => mode(r) == skip && !IsPartner(g, r)
    case Seq(es) => forall j | 0 <= j < |es| :: Usable(g, mode, skip, es[j])
    case Alt(es) => forall j | 0 <= j < |es| :: Usable(g, mode, skip, es[j])
    case Rep(child, _, _) => Usable(g, mode, skip, child)
    case Not(child) => Usable(g, mode, skip, child)
    case And(child) => Usable(g, mode, skip, child)
    case Lexeme(child) => Usable(g, mode, false, child)
    case _ => true
  }

  /** Without a skipper every rule is reached in one mode, since there is only one. */
  function OneMode(): RuleId -> bool { (_: RuleId) => false }

  ghost predicate NoCuts(g: Grammar) {
    forall r | r in g.rules :: CutFree(g.rules[r].body)
  }

  /** r promises to run no cut. */
  ghost predicate Quiet(g: Grammar, r: RuleId) { NoCuts(g) || r in g.quiet }

  /** `e` has no cut and calls quiet rules only. */
  ghost predicate Calm(g: Grammar, e: Expr) {
    match e
    case Cut => false
    case Rule(r) => Quiet(g, r)
    case Seq(es) => forall j | 0 <= j < |es| :: Calm(g, es[j])
    case Alt(es) => forall j | 0 <= j < |es| :: Calm(g, es[j])
    case Rep(child, _, _) => Calm(g, child)
    case Not(child) => Calm(g, child)
    case And(child) => Calm(g, child)
    case Lexeme(child) => Calm(g, child)
    case _ => true
  }

  predicate NoLeftRec(g: Grammar) {
    forall r | r in g.rules :: !IsLeftRec(g, r)
  }

  /** `e` stands at the start of the body of r, or of a partner of r: r and its partners may be entered there, and
      what follows them is usable. */
  ghost predicate UsableIn(g: Grammar, mode: RuleId -> bool, r: RuleId, e: Expr) {
    match e
    case Rule(m) => m == r || Serves(g, m, r) || Usable(g, mode, mode(r), e)
    case Alt(es) => forall j | 0 <= j < |es| :: UsableIn(g, mode, r, es[j])
    case Seq(es) => es == [] ||
        (UsableIn(g, mode, r, es[0]) && forall j | 1 <= j < |es| :: Usable(g, mode, mode(r), es[j]))
    case _ => Usable(g, mode, mode(r), e)
  }

  /** A partner runs in the mode of the rule it serves. */
  ghost predicate FitPartner(g: Grammar, mode: RuleId -> bool, m: RuleId)
    requires IsPartner(g, m) && m in g.rules
  {
    var r := Owner(g, m);
    && IsLeftRec(g, r) && !IsPartner(g, r) && mode(m) == mode(r)
    && UsableIn(g, mode, r, g.rules[m].body)
  }

  /** - no rule recovers;
      - cuts are enclosed in their own rule body;
      - what runs while a rule grows, the skipper included, runs no cut;
      - every rule is reached in one auto-skip mode only, the skipper itself with auto-skip off;
      - a partner is entered only at the start of the rule that it serves. */
  ghost predicate WellFormed(g: Grammar, mode: RuleId -> bool) {
    && (g.skipper.Some? ==> !mode(g.skipper.value) && !IsPartner(g, g.skipper.value))
    && (g.skipper.Some? && !NoLeftRec(g) ==> Quiet(g, g.skipper.value))
    && (forall r | r in g.rules && (IsLeftRec(g, r) || IsPartner(g, r)) :: Quiet(g, r))
    && (forall r | r in g.rules && r in g.quiet :: Calm(g, g.rules[r].body))
    && (forall r | r in g.rules ::
          && g.rules[r].recovery.None?
          && CutsEnclosed(g.rules[r].body)
          && (if IsPartner(g, r) then FitPartner(g, mode, r)
              else if IsLeftRec(g, r) then UsableIn(g, mode, r, g.rules[r].body)
              else Usable(g, mode, mode(r), g.rules[r].body)))
  }

  lemma OwnerIsGrown(g: Grammar, mode: RuleId -> bool, m: RuleId)
    requires WellFormed(g, mode) && m in g.rules && IsPartner(g, m)
    ensures !NoLeftRec(g)
  {
    hide NoCuts, CutsEnclosed, Usable, UsableIn;
    assert FitPartner(g, mode, m);
  }

  /** A promise is kept by the body. */
  lemma QuietIsCalm(g: Grammar, mode: RuleId -> bool, r: RuleId)
    requires WellFormed(g, mode) && r in g.rules && Quiet(g, r)
    ensures Calm(g, g.rules[r].body)
  {
    hide CutsEnclosed, Usable, UsableIn, FitPartner;
    if NoCuts(g) { CutFreeIsCalm(g, g.rules[r].body); }
  }

  lemma {:induction e} CutFreeIsCalm(g: Grammar, e: Expr)
    requires NoCuts(g) && CutFree(e)
    ensures Calm(g, e)
  {
  }

  lemma {:induction e} CalmIsCutFree(g: Grammar, e: Expr)
    requires Calm(g, e)
    ensures CutFree(e)
  {
  }

  lemma CalmIsEnclosed(g: Grammar, e: Expr)
    requires Calm(g, e)
    ensures CutsEnclosed(e)
  {
    CalmIsCutFree(g, e);
    CutFreeIsEnclosed(e);
  }

  lemma {:induction e} CutFreeIsEnclosed(e: Expr)
    requires CutFree(e)
    ensures CutsEnclosed(e)
  {
  }
}
