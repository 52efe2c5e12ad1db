/** The nesting bound of the memo-free semantics only cuts answers off: it never changes one. */
module Depth {
  import opened Grammars
  import opened Peg

  /** If `a` is an answer, `b` is the same answer. */
  ghost predicate Stays(a: Option<Answer>, b: Option<Answer>) { a.Some? ==> b == a }

  lemma {:induction false} Deeper(g: Grammar, inp: Input, k: nat, k': nat, skip: bool, e: Expr, i: nat, cut: bool)
    requires i <= |inp| && k <= k'
    ensures Stays(Peg.Peg(g, inp, k, skip, e, i, cut), Peg.Peg(g, inp, k', skip, e, i, cut))
    decreases k, 1, e
  {
    match e
    case Seq(_) => DeeperSeq(g, inp, k, k', skip, e, 0, i, cut);
    case Alt(_) => DeeperAlt(g, inp, k, k', skip, e, 0, i);
    case Rep(_, _, _) => DeeperRep(g, inp, k, k', skip, e, 0, i);
    case Not(child) => Deeper(g, inp, k, k', skip, child, i, cut);
    case And(child) => Deeper(g, inp, k, k', skip, child, i, cut);
    case Lexeme(child) => Deeper(g, inp, k, k', false, child, i, cut);
    case Rule(r) => DeeperCall(g, inp, k, k', skip, r, i);
    case _ =>
  }

  lemma {:induction false} DeeperSkip(g: Grammar, inp: Input, k: nat, k': nat, skip: bool, i: nat)
    requires i <= |inp| && k <= k'
    ensures Stays(PegSkip(g, inp, k, skip, i), PegSkip(g, inp, k', skip, i))
    decreases k, 0, 1
  {
    if skip && g.skipper.Some? {
      DeeperCall(g, inp, k, k', false, g.skipper.value, i);
    }
  }

  lemma {:induction false} DeeperSeq(g: Grammar, inp: Input, k: nat, k': nat, skip: bool, e: Expr, j: nat, i: nat,
      cut: bool)
    requires i <= |inp| && k <= k' && e.Seq? && j <= |e.es|
    ensures Stays(PegSeq(g, inp, k, skip, e, j, i, cut), PegSeq(g, inp, k', skip, e, j, i, cut))
    decreases k, 1, e, |e.es| - j
  {
    if j < |e.es| {
      DeeperSkip(g, inp, k, k', skip, i);
      var w := if j > 0 then PegSkip(g, inp, k, skip, i) else Some(Answer(Yes(i), cut, {}));
      if w.Some? && w.value.out.Yes? {
        DeeperSeqNext(g, inp, k, k', skip, e, j, w.value.out.end, cut);
      }
    }
  }

  lemma {:induction false} DeeperSeqNext(g: Grammar, inp: Input, k: nat, k': nat, skip: bool, e: Expr, j: nat,
      i: nat, cut: bool)
    requires i <= |inp| && k <= k' && e.Seq? && j < |e.es|
    ensures Stays(PegSeqNext(g, inp, k, skip, e, j, i, cut), PegSeqNext(g, inp, k', skip, e, j, i, cut))
    decreases k, 1, e, |e.es| - j, 0
  {
    Deeper(g, inp, k, k', skip, e.es[j], i, cut);
    var a := Peg.Peg(g, inp, k, skip, e.es[j], i, cut);
    if a.Some? && a.value.out.Yes? {
      DeeperSeq(g, inp, k, k', skip, e, j + 1, a.value.out.end, a.value.cut);
    }
  }

  lemma {:induction false} DeeperAlt(g: Grammar, inp: Input, k: nat, k': nat, skip: bool, e: Expr, j: nat, i: nat)
    requires i <= |inp| && k <= k' && e.Alt? && j <= |e.es|
    ensures Stays(PegAlt(g, inp, k, skip, e, j, i), PegAlt(g, inp, k', skip, e, j, i))
    decreases k, 1, e, |e.es| - j
  {
    if j < |e.es| {
      Deeper(g, inp, k, k', skip, e.es[j], i, false);
      DeeperAlt(g, inp, k, k', skip, e, j + 1, i);
    }
  }

  lemma {:induction false} DeeperRep(g: Grammar, inp: Input, k: nat, k': nat, skip: bool, e: Expr, count: nat, i: nat)
    requires i <= |inp| && k <= k' && e.Rep?
    ensures Stays(PegRep(g, inp, k, skip, e, count, i), PegRep(g, inp, k', skip, e, count, i))
    decreases k, 1, e, |inp| - i, 1
  {
    DeeperSkip(g, inp, k, k', skip, i);
    var w := if count > 0 then PegSkip(g, inp, k, skip, i) else Some(Answer(Yes(i), false, {}));
    if w.Some? && w.value.out.Yes? {
      DeeperRepTry(g, inp, k, k', skip, e, count, i, w.value.out.end);
    }
  }

  lemma {:induction false} DeeperRepTry(g: Grammar, inp: Input, k: nat, k': nat, skip: bool, e: Expr, count: nat,
      last: nat, i: nat)
    requires last <= i <= |inp| && k <= k' && e.Rep?
    ensures Stays(PegRepTry(g, inp, k, skip, e, count, last, i), PegRepTry(g, inp, k', skip, e, count, last, i))
    decreases k, 1, e, |inp| - i, 0
  {
    Deeper(g, inp, k, k', skip, e.child, i, false);
    var a := Peg.Peg(g, inp, k, skip, e.child, i, false);
    if a.Some? && a.value.out.Yes? && a.value.out.end > i {
      DeeperRep(g, inp, k, k', skip, e, count + 1, a.value.out.end);
    }
  }

  lemma {:induction false} DeeperCall(g: Grammar, inp: Input, k: nat, k': nat, skip: bool, r: RuleId, i: nat)
    requires i <= |inp| && k <= k'
    ensures Stays(PegCall(g, inp, k, skip, r, i), PegCall(g, inp, k', skip, r, i))
    decreases k, 0, 0
  {
    if k > 0 && r in g.rules && !IsPartner(g, r) {
      if IsLeftRec(g, r) {
        DeeperGrow(g, inp, k - 1, k' - 1, skip, r, i, None);
      } else {
        Deeper(g, inp, k - 1, k' - 1, skip, g.rules[r].body, i, false);
      }
    }
  }

  lemma {:induction false} DeeperGrow(g: Grammar, inp: Input, k: nat, k': nat, skip: bool, r: RuleId, i: nat,
      seed: Option<nat>)
    requires i <= |inp| && k <= k' && r in g.rules
    requires seed.Some? ==> i < seed.value <= |inp|
    ensures Stays(PegGrow(g, inp, k, skip, r, i, seed), PegGrow(g, inp, k', skip, r, i, seed))
    decreases k, 3, |inp| - (if seed.Some? then seed.value else i)
  {
    DeeperIn(g, inp, k, k', skip, r, g.rules[r].body, i, seed);
    var a := PegIn(g, inp, k, skip, r, g.rules[r].body, i, seed);
    var last := if seed.Some? then seed.value else i;
    if a.Some? && a.value.out.Yes? && a.value.out.end > last {
      DeeperGrow(g, inp, k, k', skip, r, i, Some(a.value.out.end));
    }
  }

  lemma {:induction false} DeeperIn(g: Grammar, inp: Input, k: nat, k': nat, skip: bool, r: RuleId, e: Expr, i: nat,
      seed: Option<nat>)
    requires i <= |inp| && k <= k'
    requires seed.Some? ==> i < seed.value <= |inp|
    ensures Stays(PegIn(g, inp, k, skip, r, e, i, seed), PegIn(g, inp, k', skip, r, e, i, seed))
    decreases k, 2, e
  {
    match e
    case Rule(m) =>
      if m == r {
      } else if Serves(g, m, r) {
        if k > 0 { DeeperIn(g, inp, k - 1, k' - 1, skip, r, g.rules[m].body, i, seed); }
      } else {
        Deeper(g, inp, k, k', skip, e, i, false);
      }
    case Alt(_) => DeeperInAlt(g, inp, k, k', skip, r, e, 0, i, seed);
    case Seq(es) =>
      if es == [] {
        Deeper(g, inp, k, k', skip, e, i, false);
      } else {
        DeeperIn(g, inp, k, k', skip, r, es[0], i, seed);
        var a := PegIn(g, inp, k, skip, r, es[0], i, seed);
        if a.Some? && a.value.out.Yes? { DeeperSeq(g, inp, k, k', skip, e, 1, a.value.out.end, false); }
      }
    case _ => Deeper(g, inp, k, k', skip, e, i, false);
  }

  lemma {:induction false} DeeperInAlt(g: Grammar, inp: Input, k: nat, k': nat, skip: bool, r: RuleId, e: Expr, j: nat,
      i: nat, seed: Option<nat>)
    requires i <= |inp| && k <= k' && e.Alt? && j <= |e.es|
    requires seed.Some? ==> i < seed.value <= |inp|
    ensures Stays(PegInAlt(g, inp, k, skip, r, e, j, i, seed), PegInAlt(g, inp, k', skip, r, e, j, i, seed))
    decreases k, 2, e, |e.es| - j
  {
    if j < |e.es| {
      DeeperIn(g, inp, k, k', skip, r, e.es[j], i, seed);
      DeeperInAlt(g, inp, k, k', skip, r, e, j + 1, i, seed);
    }
  }
}
