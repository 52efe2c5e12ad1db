/** Two grammars without a skipper whose rules have the same outcomes: then so has every expression. */
module Agreement {
  import opened Grammars
  import opened Peg
  import Depth

  /** If `a` is an answer, `b` has the same outcome. */
  ghost predicate Same(a: Option<Answer>, b: Option<Answer>) {
    a.Some? ==> b.Some? && a.value.out == b.value.out && a.value.cut == b.value.cut
  }

  /** Rule answers of g within k are those of h within k'. */
  ghost predicate CallsAgree(g: Grammar, k: nat, h: Grammar, k': nat, inp: Input, usable: iset<RuleId>) {
    forall skip: bool, r: RuleId, i: nat | r in usable && i <= |inp| ::
      Same(InScope(PegCall(g, inp, k, skip, r, i), false), InScope(PegCall(h, inp, k', skip, r, i), false))
  }

  /** `e` calls only usable rules. */
  ghost predicate Calls(usable: iset<RuleId>, e: Expr) {
    match e
    case Rule(r) => r in usable
    case Seq(es) => forall j | 0 <= j < |es| :: Calls(usable, es[j])
    case Alt(es) => forall j | 0 <= j < |es| :: Calls(usable, es[j])
    case Rep(child, _, _) => Calls(usable, child)
    case Not(child) => Calls(usable, child)
    case And(child) => Calls(usable, child)
    case Lexeme(child) => Calls(usable, child)
    case _ => true
  }

  /** Two grammars without a skipper, one within depth k and one within k', whose calls agree. */
  datatype Pair = Pair(g: Grammar, k: nat, h: Grammar, k': nat, inp: Input, usable: iset<RuleId>)
  {
    ghost predicate Agree() {
      g.skipper.None? && h.skipper.None? && CallsAgree(g, k, h, k', inp, usable)
    }
  }

  lemma {:induction false} ExprAgree(p: Pair, skip: bool, e: Expr, i: nat, cut: bool)
    requires p.Agree() && Calls(p.usable, e) && i <= |p.inp|
    ensures Same(Peg.Peg(p.g, p.inp, p.k, skip, e, i, cut), Peg.Peg(p.h, p.inp, p.k', skip, e, i, cut))
    decreases e
  {
    match e
    case Seq(_) => SeqAgree(p, skip, e, 0, i, cut);
    case Alt(_) => AltAgree(p, skip, e, 0, i);
    case Rep(_, _, _) => RepAgree(p, skip, e, 0, i);
    case Not(child) => ExprAgree(p, skip, child, i, cut);
    case And(child) => ExprAgree(p, skip, child, i, cut);
    case Lexeme(child) => ExprAgree(p, false, child, i, cut);
    case Rule(r) =>
    case _ =>
  }

  lemma {:induction false} SeqAgree(p: Pair, skip: bool, e: Expr, j: nat, i: nat, cut: bool)
    requires p.Agree() && i <= |p.inp| && e.Seq? && j <= |e.es|
    requires forall l | j <= l < |e.es| :: Calls(p.usable, e.es[l])
    ensures Same(PegSeq(p.g, p.inp, p.k, skip, e, j, i, cut), PegSeq(p.h, p.inp, p.k', skip, e, j, i, cut))
    decreases e, |e.es| - j
  {
    if j < |e.es| {
      NoSkip(p, skip, i);
      SeqNextAgree(p, skip, e, j, i, cut);
    }
  }

  lemma NoSkip(p: Pair, skip: bool, i: nat)
    requires p.g.skipper.None? && p.h.skipper.None? && i <= |p.inp|
    ensures PegSkip(p.g, p.inp, p.k, skip, i) == Some(Answer(Yes(i), false, {}))
    ensures PegSkip(p.h, p.inp, p.k', skip, i) == Some(Answer(Yes(i), false, {}))
  {
  }

  lemma {:induction false} SeqNextAgree(p: Pair, skip: bool, e: Expr, j: nat, i: nat, cut: bool)
    requires p.Agree() && i <= |p.inp| && e.Seq? && j < |e.es|
    requires forall l | j <= l < |e.es| :: Calls(p.usable, e.es[l])
    ensures Same(PegSeqNext(p.g, p.inp, p.k, skip, e, j, i, cut), PegSeqNext(p.h, p.inp, p.k', skip, e, j, i, cut))
    decreases e, |e.es| - j, 0
  {
    ExprAgree(p, skip, e.es[j], i, cut);
    var a := Peg.Peg(p.g, p.inp, p.k, skip, e.es[j], i, cut);
    if a.Some? && a.value.out.Yes? {
      SeqAgree(p, skip, e, j + 1, a.value.out.end, a.value.cut);
    }
  }

  lemma {:induction false} AltAgree(p: Pair, skip: bool, e: Expr, j: nat, i: nat)
    requires p.Agree() && Calls(p.usable, e) && i <= |p.inp| && e.Alt? && j <= |e.es|
    ensures Same(InScope(PegAlt(p.g, p.inp, p.k, skip, e, j, i), false),
        InScope(PegAlt(p.h, p.inp, p.k', skip, e, j, i), false))
    decreases e, |e.es| - j
  {
    if j < |e.es| {
      ExprAgree(p, skip, e.es[j], i, false);
      AltAgree(p, skip, e, j + 1, i);
    }
  }

  lemma {:induction false} RepAgree(p: Pair, skip: bool, e: Expr, count: nat, i: nat)
    requires p.Agree() && Calls(p.usable, e) && i <= |p.inp| && e.Rep?
    ensures Same(InScope(PegRep(p.g, p.inp, p.k, skip, e, count, i), false),
        InScope(PegRep(p.h, p.inp, p.k', skip, e, count, i), false))
    decreases e, |p.inp| - i, 1
  {
    NoSkip(p, skip, i);
    RepTryAgree(p, skip, e, count, i, i);
  }

  lemma {:induction false} RepTryAgree(p: Pair, skip: bool, e: Expr, count: nat, last: nat, i: nat)
    requires p.Agree() && Calls(p.usable, e) && last <= i <= |p.inp| && e.Rep?
    ensures Same(InScope(PegRepTry(p.g, p.inp, p.k, skip, e, count, last, i), false),
                 InScope(PegRepTry(p.h, p.inp, p.k', skip, e, count, last, i), false))
    decreases e, |p.inp| - i, 0
  {
    ExprAgree(p, skip, e.child, i, false);
    var a := Peg.Peg(p.g, p.inp, p.k, skip, e.child, i, false);
    if a.Some? && a.value.out.Yes? && a.value.out.end > i {
      RepAgree(p, skip, e, count + 1, a.value.out.end);
    }
  }

  /** Agreement lasts when the second grammar is searched more deeply. */
  lemma AgreeDeeper(p: Pair, k': nat)
    requires p.Agree() && p.k' <= k'
    ensures p.(k' := k').Agree()
  {
    forall skip: bool, x: RuleId, i: nat | x in p.usable && i <= |p.inp|
      ensures Same(InScope(PegCall(p.g, p.inp, p.k, skip, x, i), false),
          InScope(PegCall(p.h, p.inp, k', skip, x, i), false))
    {
      Depth.DeeperCall(p.h, p.inp, p.k', k', skip, x, i);
    }
  }
}
