/** A run that did not get stuck is the same with any more fuel: the nesting bound only ever decides
    whether there is a result, never which. */
module Fuel {
  import opened Grammars
  import opened Machine

  /** `b` is the run of `a` with more fuel. */
  ghost predicate Extends(a: Result, b: Result) {
    !a.out.Stuck? ==> b == a
  }

  lemma {:induction false} MoreExpr(g: Grammar, inp: Input, f: nat, f': nat, skip: bool, e: Expr, s: State)
    requires Good(inp, s) && f <= f'
    ensures Extends(Parse(g, inp, f, skip, e, s), Parse(g, inp, f', skip, e, s))
    decreases f, 1, e
  {
    hide Good, SeqFrom, AltFrom, RepFrom, Call;
    match e
    case Seq(_) =>
      OpenGood(inp, s);
      MoreSeq(g, inp, f, f', skip, e, 0, |s.arena|, Alloc(s, s.pos, 0));
    case Alt(_) =>
      OpenGood(inp, s);
      MoreAlt(g, inp, f, f', skip, e, 0, OpenScope(s));
    case Rep(_, _, _) =>
      OpenGood(inp, s);
      MoreRep(g, inp, f, f', skip, e, 0, s.pos, |s.arena|, Alloc(OpenScope(s), s.pos, 0));
    case Not(child) => MoreExpr(g, inp, f, f', skip, child, s);
    case And(child) => MoreExpr(g, inp, f, f', skip, child, s);
    case Lexeme(child) => MoreExpr(g, inp, f, f', false, child, s);
    case Rule(rule) => MoreCall(g, inp, f, f', skip, rule, s);
    case _ =>
  }

  lemma {:induction false} MoreSkip(g: Grammar, inp: Input, f: nat, f': nat, skip: bool, s: State)
    requires Good(inp, s) && f <= f'
    ensures Extends(Skip(g, inp, f, skip, s), Skip(g, inp, f', skip, s))
    decreases f, 0, 1
  {
    hide Good, Call;
    if skip && g.skipper.Some? { MoreCall(g, inp, f, f', false, g.skipper.value, s); }
  }

  lemma {:induction false} MoreSeq(g: Grammar, inp: Input, f: nat, f': nat, skip: bool, e: Expr, i: nat, n: nat,
      s: State)
    requires Good(inp, s) && f <= f' && e.Seq? && i <= |e.es| && n < |s.arena|
    ensures Extends(SeqFrom(g, inp, f, skip, e, i, n, s), SeqFrom(g, inp, f', skip, e, i, n, s))
    decreases f, 1, e, |e.es| - i
  {
    hide Skip, Parse;
    if i < |e.es| {
      MoreSkip(g, inp, f, f', skip, s);
      var k := if i > 0 then Skip(g, inp, f, skip, s) else Result(Ok(None), s);
      if k.out.Ok? {
        MoreExpr(g, inp, f, f', skip, e.es[i], k.st);
        var r := Parse(g, inp, f, skip, e.es[i], k.st);
        if r.out.Ok? { MoreSeq(g, inp, f, f', skip, e, i + 1, n, PushChild(r.st, n, r.out.tree)); }
        assert Extends(SeqNext(g, inp, f, skip, e, i, n, k.st), SeqNext(g, inp, f', skip, e, i, n, k.st));
      }
    }
  }

  lemma {:induction false} MoreAlt(g: Grammar, inp: Input, f: nat, f': nat, skip: bool, e: Expr, i: nat, s: State)
    requires Good(inp, s) && f <= f' && e.Alt? && i <= |e.es|
    ensures Extends(AltFrom(g, inp, f, skip, e, i, s), AltFrom(g, inp, f', skip, e, i, s))
    decreases f, 1, e, |e.es| - i
  {
    hide Bounded, Parse;
    if i < |e.es| {
      MoreExpr(g, inp, f, f', skip, e.es[i], s);
      var r := Parse(g, inp, f, skip, e.es[i], s);
      if r.out.Fail? && !CutSet(r.st) { MoreAlt(g, inp, f, f', skip, e, i + 1, r.st); }
    }
  }

  lemma {:induction false} MoreRep(g: Grammar, inp: Input, f: nat, f': nat, skip: bool, e: Expr, count: nat,
      start: nat, n: nat, s: State)
    requires Good(inp, s) && f <= f' && e.Rep? && start <= s.pos && n < |s.arena|
    ensures Extends(RepFrom(g, inp, f, skip, e, count, start, n, s), RepFrom(g, inp, f', skip, e, count, start, n, s))
    decreases f, 1, e, |inp| - s.pos, 1
  {
    hide RepTry, Skip;
    MoreSkip(g, inp, f, f', skip, s);
    var k := if count > 0 then Skip(g, inp, f, skip, s) else Result(Ok(None), s);
    if k.out.Ok? { MoreRepTry(g, inp, f, f', skip, e, count, start, n, s.pos, SetCut(k.st, false)); }
  }

  lemma {:induction false} MoreRepTry(g: Grammar, inp: Input, f: nat, f': nat, skip: bool, e: Expr, count: nat,
      start: nat, n: nat, last: nat, s: State)
    requires Good(inp, s) && f <= f' && e.Rep? && start <= last <= s.pos && n < |s.arena|
    ensures Extends(RepTry(g, inp, f, skip, e, count, start, n, last, s),
        RepTry(g, inp, f', skip, e, count, start, n, last, s))
    decreases f, 1, e, |inp| - s.pos, 0
  {
    hide RepFrom, RepDone, Parse;
    MoreExpr(g, inp, f, f', skip, e.child, s);
    var r := Parse(g, inp, f, skip, e.child, s);
    if r.out.Ok? && r.st.pos > s.pos {
      MoreRep(g, inp, f, f', skip, e, count + 1, start, n, PushChild(r.st, n, r.out.tree));
    }
  }

  lemma {:induction false} MoreCall(g: Grammar, inp: Input, f: nat, f': nat, skip: bool, rule: RuleId, s: State)
    requires Good(inp, s) && f <= f'
    ensures Extends(Call(g, inp, f, skip, rule, s), Call(g, inp, f', skip, rule, s))
    decreases f, 0, 0
  {
    hide Grow, Complete, Reject;
    var k := Key(s.pos, rule);
    if k !in s.memo && f > 0 && rule in g.rules {
      MoreGrow(g, inp, f - 1, f' - 1, skip, k, k.pos, Fail, Enter(s, k));
    }
  }

  lemma {:induction false} MoreGrow(g: Grammar, inp: Input, f: nat, f': nat, skip: bool, k: Key, last: nat,
      best: Outcome, s: State)
    requires Good(inp, s) && f <= f' && k.rule in g.rules && s.lr != [] && k.pos <= last <= |inp| && best.Normal()
    requires (best.Ok? ==> TreeIn(s.arena, best.tree)) && (best.Fail? ==> last == k.pos)
    ensures Extends(Grow(g, inp, f, skip, k, last, best, s), Grow(g, inp, f', skip, k, last, best, s))
    decreases f, 2, |inp| - last
  {
    hide Parse, Restart, Settle, Bounded;
    var s1 := Restart(inp, k, best, s);
    MoreExpr(g, inp, f, f', skip, g.rules[k.rule].body, s1);
    var r := Parse(g, inp, f, skip, g.rules[k.rule].body, s1);
    if r.out.Ok? && r.st.pos > last && k in r.st.memo {
      SeedGood(inp, r.st, k, Entry(true, r.st.pos, r.out.tree));
      MoreGrow(g, inp, f, f', skip, k, r.st.pos, r.out,
          r.st.(memo := r.st.memo[k := Entry(true, r.st.pos, r.out.tree)]));
    }
  }

  /** A whole parse. */
  lemma MoreRun(g: Grammar, inp: Input, f: nat, f': nat, start: RuleId, s: State)
    requires Good(inp, s) && f <= f'
    ensures Extends(Run(g, inp, f, start, s), Run(g, inp, f', start, s))
  {
    hide Skip, Call;
    var skip := g.skipper.Some?;
    MoreSkip(g, inp, f, f', skip, s);
    var k := Skip(g, inp, f, skip, s);
    if k.out.Ok? { MoreCall(g, inp, f, f', skip, start, k.st); }
  }
}
