/** The nodes that rules return.  A rule that matches and does not recover always returns a node of its own span, under
    its own name and with its maker, whether it is evaluated or answered from the memo. */
module Roots {
  import opened Grammars
  import opened Machine
  import Growth
  import Trees

  ghost predicate NoRecovery(g: Grammar) { forall r | r in g.rules :: g.rules[r].recovery.None? }

  /** A cached match has a node, but for the seeds of rules under evaluation. */
  ghost predicate Rooted(s: State) {
    forall k | k in s.memo && k !in s.lr && s.memo[k].ok :: s.memo[k].tree.Some?
  }

  /** What every step keeps; and no evaluation is taken back. */
  ghost predicate Stays(g: Grammar, s: State, r: Result) {
    r.out.Normal() ==>
      r.st.lr == s.lr && s.evals <= r.st.evals && (NoRecovery(g) && Rooted(s) ==> Rooted(r.st))
  }

  /** Dropping entries, writing those of rules under evaluation, and anything else that is no entry. */
  lemma RootedLess(s: State, s': State)
    requires Rooted(s) && s'.lr == s.lr
    requires forall k | k in s'.memo && k !in s.lr :: k in s.memo && s'.memo[k] == s.memo[k]
    ensures Rooted(s')
  {
  }

  lemma {:induction false} RootedExpr(g: Grammar, inp: Input, fuel: nat, skip: bool, e: Expr, s: State)
    requires Good(inp, s)
    ensures Stays(g, s, Parse(g, inp, fuel, skip, e, s))
    decreases fuel, 1, e
  {
    hide Good, SeqFrom, AltFrom, RepFrom, Call, NoRecovery;
    match e
    case Seq(_) =>
      OpenGood(inp, s);
      RootedSeq(g, inp, fuel, skip, e, 0, |s.arena|, Alloc(s, s.pos, 0));
    case Alt(_) =>
      OpenGood(inp, s);
      RootedAlt(g, inp, fuel, skip, e, 0, OpenScope(s));
    case Rep(_, _, _) =>
      OpenGood(inp, s);
      RootedRep(g, inp, fuel, skip, e, 0, s.pos, |s.arena|, Alloc(OpenScope(s), s.pos, 0));
    case Not(child) => RootedExpr(g, inp, fuel, skip, child, s);
    case And(child) => RootedExpr(g, inp, fuel, skip, child, s);
    case Lexeme(child) => RootedExpr(g, inp, fuel, false, child, s);
    case Rule(rule) => RootedCall(g, inp, fuel, skip, rule, s);
    case _ =>
  }

  lemma {:induction false} RootedSkip(g: Grammar, inp: Input, fuel: nat, skip: bool, s: State)
    requires Good(inp, s)
    ensures Stays(g, s, Skip(g, inp, fuel, skip, s))
    decreases fuel, 0, 1
  {
    hide Good, Call, NoRecovery;
    if skip && g.skipper.Some? { RootedCall(g, inp, fuel, false, g.skipper.value, s); }
  }

  lemma {:induction false} RootedSeq(g: Grammar, inp: Input, fuel: nat, skip: bool, e: Expr, i: nat, n: nat, s: State)
    requires Good(inp, s) && e.Seq? && i <= |e.es| && n < |s.arena|
    ensures Stays(g, s, SeqFrom(g, inp, fuel, skip, e, i, n, s))
    decreases fuel, 1, e, |e.es| - i
  {
    hide Bounded, Skip, Parse, NoRecovery;
    if i < |e.es| {
      RootedSkip(g, inp, fuel, skip, s);
      var k := if i > 0 then Skip(g, inp, fuel, skip, s) else Result(Ok(None), s);
      if k.out.Ok? {
        RootedExpr(g, inp, fuel, skip, e.es[i], k.st);
        var r := Parse(g, inp, fuel, skip, e.es[i], k.st);
        if r.out.Ok? {
          PushGood(inp, r.st, n, r.out.tree);
          RootedSeq(g, inp, fuel, skip, e, i + 1, n, PushChild(r.st, n, r.out.tree));
        }
      }
    }
  }

  lemma {:induction false} RootedAlt(g: Grammar, inp: Input, fuel: nat, skip: bool, e: Expr, i: nat, s: State)
    requires Good(inp, s) && e.Alt? && i <= |e.es|
    ensures Stays(g, s, AltFrom(g, inp, fuel, skip, e, i, s))
    decreases fuel, 1, e, |e.es| - i
  {
    hide Bounded, Parse, NoRecovery;
    if i < |e.es| {
      RootedExpr(g, inp, fuel, skip, e.es[i], s);
      var r := Parse(g, inp, fuel, skip, e.es[i], s);
      if r.out.Fail? && !CutSet(r.st) { RootedAlt(g, inp, fuel, skip, e, i + 1, r.st); }
    }
  }

  lemma {:induction false} RootedRep(g: Grammar, inp: Input, fuel: nat, skip: bool, e: Expr, count: nat, start: nat,
      n: nat, s: State)
    requires Good(inp, s) && e.Rep? && start <= s.pos && n < |s.arena|
    ensures Stays(g, s, RepFrom(g, inp, fuel, skip, e, count, start, n, s))
    decreases fuel, 1, e, |inp| - s.pos, 1
  {
    hide Bounded, Skip, RepTry, NoRecovery;
    RootedSkip(g, inp, fuel, skip, s);
    var k := if count > 0 then Skip(g, inp, fuel, skip, s) else Result(Ok(None), s);
    if k.out.Ok? {
      OpenGood(inp, k.st);
      RootedRepTry(g, inp, fuel, skip, e, count, start, n, s.pos, SetCut(k.st, false));
    }
  }

  lemma {:induction false} RootedRepTry(g: Grammar, inp: Input, fuel: nat, skip: bool, e: Expr, count: nat, start: nat,
      n: nat, last: nat, s: State)
    requires Good(inp, s) && e.Rep? && start <= last <= s.pos && n < |s.arena|
    ensures Stays(g, s, RepTry(g, inp, fuel, skip, e, count, start, n, last, s))
    decreases fuel, 1, e, |inp| - s.pos, 0
  {
    hide Bounded, Parse, RepFrom, NoRecovery;
    RootedExpr(g, inp, fuel, skip, e.child, s);
    var r := Parse(g, inp, fuel, skip, e.child, s);
    if r.out.Ok? {
      PushGood(inp, r.st, n, r.out.tree);
      if r.st.pos > s.pos && !(e.max > 0 && count + 1 >= e.max) {
        RootedRep(g, inp, fuel, skip, e, count + 1, start, n, PushChild(r.st, n, r.out.tree));
      }
    }
  }

  lemma {:induction false} RootedCall(g: Grammar, inp: Input, fuel: nat, skip: bool, rule: RuleId, s: State)
    requires Good(inp, s)
    ensures var r := Call(g, inp, fuel, skip, rule, s);
            && Stays(g, s, r)
            && (NoRecovery(g) && Rooted(s) && r.out.Ok? && Key(s.pos, rule) !in s.lr ==> r.out.tree.Some?)
    decreases fuel, 0, 0
  {
    hide Grow, Finish;
    var k := Key(s.pos, rule);
    if k !in s.memo && fuel > 0 && rule in g.rules {
      RootedGrow(g, inp, fuel - 1, skip, k, k.pos, Fail, Enter(s, k));
      RootedFinish(g, inp, k, s, Grow(g, inp, fuel - 1, skip, k, k.pos, Fail, Enter(s, k)));
    }
  }

  lemma RootedFinish(g: Grammar, inp: Input, k: Key, s: State, r: Result)
    requires Good(inp, s) && s.pos == k.pos && k.rule in g.rules
    requires Framed(inp, Enter(s, k), r) && Stays(g, Enter(s, k), r)
    ensures var d := Finish(g.rules[k.rule], inp, k, Enter(s, k), r);
            Stays(g, s, d) && (NoRecovery(g) && d.out.Ok? ==> d.out.tree.Some?)
  {
    if r.out.Normal() {
      var d := Finish(g.rules[k.rule], inp, k, Enter(s, k), r);
      var e := FinishWrites(g.rules[k.rule], inp, k, s, r);
      hide Finish, Good;
      if NoRecovery(g) && Rooted(s) {
        forall x | x in d.st.memo && x !in s.lr && d.st.memo[x].ok ensures d.st.memo[x].tree.Some? {
          if x != k { assert x !in s.lr + [k]; }
        }
      }
    }
  }

  /** Leaving a rule writes its entry, with a node if its body matched, and touches no other. */
  lemma FinishWrites(def: RuleDef, inp: Input, k: Key, s: State, r: Result) returns (e: Entry)
    requires Good(inp, s) && s.pos == k.pos && Framed(inp, Enter(s, k), r) && r.out.Normal()
    ensures var d := Finish(def, inp, k, Enter(s, k), r);
            && d.st.memo == Update(r.st.memo, k, e) && d.st.lr == s.lr && d.st.evals == r.st.evals && d.out.Normal()
            && (def.recovery.None? ==> (e.ok ==> e.tree.Some?) && (d.out.Ok? ==> d.out.tree.Some?))
  {
    hide Bounded;
    assert (s.lr + [k])[..|s.lr|] == s.lr;
    var d := Finish(def, inp, k, Enter(s, k), r);
    e := if d.out.Ok? then Entry(true, d.st.pos, d.out.tree) else Entry(false, k.pos, None);
  }

  lemma {:induction false} RootedGrow(g: Grammar, inp: Input, fuel: nat, skip: bool, k: Key, last: nat, best: Outcome,
      s: State)
    requires Good(inp, s) && k.rule in g.rules && k in s.lr
    requires k.pos <= last <= |inp| && best.Normal()
    requires (best.Ok? ==> TreeIn(s.arena, best.tree)) && (best.Fail? ==> last == k.pos)
    ensures Stays(g, s, Grow(g, inp, fuel, skip, k, last, best, s))
    decreases fuel, 2, |inp| - last
  {
    hide Bounded, Parse, NoRecovery;
    var s1 := Restart(inp, k, best, s);
    if Rooted(s) { RootedLess(s, s1); }
    RootedExpr(g, inp, fuel, skip, g.rules[k.rule].body, s1);
    var r := Parse(g, inp, fuel, skip, g.rules[k.rule].body, s1);
    if r.out.Ok? && r.st.pos > last && k in r.st.memo {
      SeedGood(inp, r.st, k, Entry(true, r.st.pos, r.out.tree));
      var s2 := r.st.(memo := r.st.memo[k := Entry(true, r.st.pos, r.out.tree)]);
      if Rooted(r.st) { RootedLess(r.st, s2); }
      RootedGrow(g, inp, fuel, skip, k, r.st.pos, r.out, s2);
    }
  }

  // ---- the node of a rule -----------------------------------------------------------------------

  /** A rule that is evaluated and whose body matches, for every grammar: the node returned has the rule's name, the
      span of the body, and a maker. With an action it is a new node around the body's; without one it is the body's
      own, with its children and the maker it had, or a new one if the body has none. No other node changes, and that
      one is what the rule is remembered by. */
  lemma NodeOfRule(g: Grammar, inp: Input, fuel: nat, skip: bool, rule: RuleId, s: State)
    requires Good(inp, s) && fuel > 0 && rule in g.rules && Key(s.pos, rule) !in s.memo
    requires Grow(g, inp, fuel - 1, skip, Key(s.pos, rule), s.pos, Fail, Enter(s, Key(s.pos, rule))).out.Ok?
    ensures var k, def := Key(s.pos, rule), g.rules[rule];
            var body := Grow(g, inp, fuel - 1, skip, k, s.pos, Fail, Enter(s, k));
            var r := Call(g, inp, fuel, skip, rule, s);
            && r.out.Ok? && r.out.tree.Some? && r.st.pos == body.st.pos && r.out.tree.value < |r.st.arena|
            && |body.st.arena| <= |r.st.arena|
            && var t, b, a := r.out.tree.value, body.st.arena, r.st.arena;
               && a[t].name == def.name && a[t].start == s.pos && a[t].end == r.st.pos
               && (def.hasAction || body.out.tree.None? ==>
                     && t == |b| && |a| == |b| + 1 && a[t].producer == Some(rule)
                     && a[t].children == (if body.out.tree.Some? then [body.out.tree] else []))
               && (!def.hasAction && body.out.tree.Some? ==>
                     && body.out.tree == Some(t) && t < |b| && |a| == |b|
                     && a[t].children == b[t].children && a[t].winner == b[t].winner
                     && a[t].producer == (if b[t].producer.Some? then b[t].producer else Some(rule)))
               && (forall n | 0 <= n < |b| && n != t :: a[n] == b[n])
               && (k in body.st.memo ==> k in r.st.memo && r.st.memo[k] == Entry(true, r.st.pos, Some(t)))
  {
    hide Grow, Bounded;
  }

  // ---- rounds are evaluations -------------------------------------------------------------------

  /** The loop counts an evaluation for each of its rounds, and those of the rules that it enters on top. */
  lemma {:induction false} RoundsAreCounted(g: Grammar, inp: Input, fuel: nat, skip: bool, k: Key, last: nat,
      best: Outcome, s: State)
    requires Good(inp, s) && k.rule in g.rules && k in s.lr && k.pos <= last <= |inp| && best.Normal()
    requires (best.Ok? ==> TreeIn(s.arena, best.tree)) && (best.Fail? ==> last == k.pos)
    ensures var r := Grow(g, inp, fuel, skip, k, last, best, s);
            r.out.Normal() ==> s.evals + Growth.Rounds(g, inp, fuel, skip, k, last, best, s) <= r.st.evals
    decreases |inp| - last
  {
    hide Bounded, Parse;
    var s1 := Restart(inp, k, best, s);
    RootedExpr(g, inp, fuel, skip, g.rules[k.rule].body, s1);
    var r := Parse(g, inp, fuel, skip, g.rules[k.rule].body, s1);
    if r.out.Ok? && r.st.pos > last && k in r.st.memo {
      SeedGood(inp, r.st, k, Entry(true, r.st.pos, r.out.tree));
      RoundsAreCounted(g, inp, fuel, skip, k, r.st.pos, r.out,
          r.st.(memo := r.st.memo[k := Entry(true, r.st.pos, r.out.tree)]));
    }
  }

  // ---- whole parses -----------------------------------------------------------------------------

  /** Between two parses every tree is finished, and every cached match has one. */
  ghost predicate Planted(inp: Input, s: State) {
    Trees.Tidy(inp, s, {}) && Rooted(s) && s.lr == []
  }

  lemma FreshIsPlanted(inp: Input)
    ensures Planted(inp, FRESH)
  {
  }

  /** A parse that matches returns a finished tree that starts behind the leading skip and ends where the parse does. */
  lemma RootOfRun(g: Grammar, inp: Input, fuel: nat, start: RuleId, s: State)
    requires NoRecovery(g) && Planted(inp, s)
    ensures Good(inp, s)
    ensures var r := Run(g, inp, fuel, start, s);
            r.out.Normal() ==>
              && Planted(inp, r.st)
              && (r.out.Ok? ==>
                    && r.out.tree.Some?
                    && Trees.Shown(r.st.arena, {}, r.out.tree.value, Skip(g, inp, fuel, g.skipper.Some?, s).st.pos,
                                   r.st.pos))
  {
    hide Call, Trees.Shown, Trees.Depicts, Trees.Steady, NoRecovery, Rooted;
    assert Good(inp, s);
    if g.skipper.Some? { Trees.TreesAreSound(g, inp, fuel, false, g.skipper.value, s); }
    RootedSkip(g, inp, fuel, g.skipper.Some?, s);
    var k := Skip(g, inp, fuel, g.skipper.Some?, s);
    if k.out.Ok? {
      Trees.TreesAreSound(g, inp, fuel, g.skipper.Some?, start, k.st);
      RootedCall(g, inp, fuel, g.skipper.Some?, start, k.st);
    }
  }
}
