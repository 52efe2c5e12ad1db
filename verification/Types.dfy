/** Which expressions have a typed result, said through what occurs in them. */
module Types {
  import opened Grammars
  import opened Peg
  import opened Values
  import opened Reachability

  // ---- no result --------------------------------------------------------------------------------

  /** Neither a token nor a rule occurs in `e`. */
  ghost predicate KeepsNothing(e: Expr) {
    forall x | Occurs(x, e) :: !x.Token? && !x.Rule?
  }

  /** No choice and no lookahead occurs in `e`. */
  ghost predicate Straight(e: Expr) {
    forall x | Occurs(x, e) :: !x.Alt? && !x.Not? && !x.And?
  }

  lemma PartOccurs(e: Expr, j: nat, x: Expr)
    requires j < |Parts(e)| && Occurs(x, Parts(e)[j])
    ensures Occurs(x, e)
  {
  }

  lemma SelfOccurs(e: Expr)
    ensures Occurs(e, e)
  {
  }

  /** What keeps nothing has no result. */
  lemma {:induction false} NothingIsVoid(e: Expr)
    requires KeepsNothing(e)
    ensures Void(e)
    decreases e
  {
    SelfOccurs(e);
    forall j | 0 <= j < |Parts(e)| ensures Void(Parts(e)[j]) {
      forall x | Occurs(x, Parts(e)[j]) ensures !x.Token? && !x.Rule? { PartOccurs(e, j, x); }
      NothingIsVoid(Parts(e)[j]);
    }
    assert e.Rep? || e.Lexeme? ==> Parts(e)[0] == e.child;
    assert e.Seq? || e.Alt? ==> Parts(e) == e.es;
    assert !e.Token? && !e.Rule?;
    hide Occurs, Parts;
  }

  /** Without choices and lookaheads, nothing else has none. */
  lemma {:induction false} SomethingIsNotVoid(e: Expr)
    requires Straight(e) && !KeepsNothing(e)
    ensures !Void(e)
    decreases e
  {
    SelfOccurs(e);
    var x :| Occurs(x, e) && (x.Token? || x.Rule?);
    if x != e {
      var j :| 0 <= j < |Parts(e)| && Occurs(x, Parts(e)[j]);
      forall y | Occurs(y, Parts(e)[j]) ensures !y.Alt? && !y.Not? && !y.And? { PartOccurs(e, j, y); }
      SomethingIsNotVoid(Parts(e)[j]);
    }
    hide Occurs;
  }

  /** A lookahead has no result, a choice that of its first branch. */
  lemma ChoiceAndLookahead(es: seq<Expr>, e: Expr)
    ensures Void(Not(e)) && Void(And(e)) && (es != [] ==> (Void(Alt(es)) <==> Void(es[0])))
  {
  }

  // ---- a result that can be folded --------------------------------------------------------------

  /** Children of a sequence that are passed over: they have no result, and leave no node but a matcher's. */
  predicate PassedOver(e: Expr) {
    match e
    case Token(_, _) => false
    case Seq(_) => false
    case Rep(_, _, _) => false
    case Rule(_) => false
    case Alt(es) => es != [] && forall j | 0 <= j < |es| :: PassedOver(es[j]) && !es[j].Matcher?
    case Lexeme(child) => PassedOver(child) && !child.Matcher?
    case _ => true
  }

  lemma {:induction false} PassedOverIs(e: Expr)
    requires PassedOver(e)
    ensures Void(e) && (Treeless(e) || e.Matcher?)
    decreases e
  {
    match e
    case Alt(es) => forall j | 0 <= j < |es| ensures Void(es[j]) && Treeless(es[j]) { PassedOverIs(es[j]); }
    case Lexeme(child) => PassedOverIs(child);
    case _ =>
  }

  /** Tokens and rules can be folded, and repetitions, with any bounds, and lexemes of what can be. */
  lemma FoldableParts(e: Expr, p: Pattern, item: Item, r: RuleId, min: nat, max: int)
    ensures Typed(Token(p, item)) && Typed(Rule(r))
    ensures Typed(e) ==> Typed(Rep(e, min, max)) && Typed(Lexeme(e))
  {
    if Typed(e) { TypedIsNotVoid(e); }
  }

  /** Sequences can, of what can be folded and what is passed over. */
  lemma FoldableSequence(es: seq<Expr>, j: nat)
    requires (forall x | x in es :: Typed(x) || PassedOver(x)) && j < |es| && Typed(es[j])
    ensures Typed(Seq(es))
  {
    TypedIsNotVoid(es[j]);
    forall l | 0 <= l < |es| ensures if Void(es[l]) then Treeless(es[l]) || es[l].Matcher? else Typed(es[l]) {
      assert es[l] in es;
      if Typed(es[l]) { TypedIsNotVoid(es[l]); } else { PassedOverIs(es[l]); }
    }
    hide Void, Treeless, PassedOver;
  }

  /** Tokens, sequences and repetitions have a node of their own, under lexemes or not. */
  predicate HasNode(e: Expr) {
    e.Token? || e.Seq? || e.Rep? || (e.Lexeme? && HasNode(e.child))
  }

  lemma {:induction false} HasNodeBuilds(e: Expr)
    requires HasNode(e)
    ensures Values.Builds(e)
  {
    if e.Lexeme? { HasNodeBuilds(e.child); }
  }

  /** And choices, of rules only or of what has a node of its own only. */
  lemma FoldableChoice(es: seq<Expr>)
    requires es != []
    requires (forall j | 0 <= j < |es| :: es[j].Rule?)
        || (forall j | 0 <= j < |es| :: Typed(es[j]) && HasNode(es[j]))
    ensures Typed(Alt(es))
  {
    forall j | 0 <= j < |es| && HasNode(es[j]) ensures Values.Builds(es[j]) { HasNodeBuilds(es[j]); }
    forall j | 0 <= j < |es| && Typed(es[j]) ensures !Void(es[j]) { TypedIsNotVoid(es[j]); }
    hide Void, Treeless;
  }

  // ---- the value of a sequence ------------------------------------------------------------------

  /** How many of the children from j on have a result. */
  function Results(es: seq<Expr>, j: nat): nat
    requires j <= |es|
    decreases |es| - j
  {
    if j == |es| then 0 else (if Void(es[j]) then 0 else 1) + Results(es, j + 1)
  }

  lemma {:induction false} OneEach(g: Grammar, inp: Input, k: nat, skip: bool, e: Expr, j: nat, i: nat, cut: bool)
    requires i <= |inp| && e.Seq? && j <= |e.es| && Matches(PegSeq(g, inp, k, skip, e, j, i, cut))
    ensures |EvalSeq(g, inp, k, skip, e, j, i, cut)| == Results(e.es, j)
    decreases |e.es| - j
  {
    hide Peg.Peg, PegSkip, Eval, Void;
    if j < |e.es| {
      var w := if j > 0 then PegSkip(g, inp, k, skip, i) else Some(Answer(Yes(i), cut, {}));
      var a := Peg.Peg(g, inp, k, skip, e.es[j], w.value.out.end, cut);
      assert Matches(a);
      OneEach(g, inp, k, skip, e, j + 1, a.value.out.end, a.value.cut);
    }
  }

  /** A matched sequence without a result has the unit value, one with a single result has that itself, and any other a
      tuple with one item for each result. */
  lemma SequenceValue(g: Grammar, inp: Input, k: nat, skip: bool, e: Expr, i: nat, cut: bool)
    requires i <= |inp| && e.Seq? && Matches(Peg.Peg(g, inp, k, skip, e, i, cut))
    ensures var v, n := Eval(g, inp, k, skip, e, i, cut), Results(e.es, 0);
            && (n == 0 ==> v == Unit)
            && (n == 1 ==> EvalSeq(g, inp, k, skip, e, 0, i, cut) == [v])
            && (n > 1 ==> v.Tuple? && |v.items| == n && EvalSeq(g, inp, k, skip, e, 0, i, cut) == v.items)
  {
    hide PegSeq, EvalSeq;
    OneEach(g, inp, k, skip, e, 0, i, cut);
  }
}
