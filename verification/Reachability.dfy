/** Dead-rule detection: the worklist computes exactly the rules outside the closure of rule references
    from the start rule; and rules outside it, if the skipper's closure is counted too, can be given any
    body without changing a parse. */
module Reachability {
  import opened Grammars
  import opened Machine
  import opened Peg
  import Limits

  /** The rules an expression refers to directly. */
  function Refs(e: Expr): set<RuleId> {
    match e
    case Rule(r) => {r}
    case Seq(es) => RefsOf(es)
    case Alt(es) => RefsOf(es)
    case Rep(child, _, _) => Refs(child)
    case Not(child) => Refs(child)
    case And(child) => Refs(child)
    case Lexeme(child) => Refs(child)
    case _ => {}
  }

  function RefsOf(es: seq<Expr>): (refs: set<RuleId>)
    ensures forall j | 0 <= j < |es| :: Refs(es[j]) <= refs
  {
    if es == [] then {} else Refs(es[0]) + RefsOf(es[1..])
  }

  // ---- occurrences ------------------------------------------------------------------------------

  /** The expressions that `e` is directly made of. */
  function Parts(e: Expr): (ps: seq<Expr>)
    ensures forall j | 0 <= j < |ps| :: ps[j] < e
  {
    match e
    case Seq(es) => es
    case Alt(es) => es
    case Rep(child, _, _) => [child]
    case Not(child) => [child]
    case And(child) => [child]
    case Lexeme(child) => [child]
    case _ => []
  }

  /** x is `e`, or is in a part of it, at any depth. */
  ghost predicate Occurs(x: Expr, e: Expr)
    decreases e
  {
    x == e || exists j :: 0 <= j < |Parts(e)| && Occurs(x, Parts(e)[j])
  }

  /** The references of an expression are those of the rules that occur in it, and no others. */
  lemma {:induction false} RefsAreOccurrences(e: Expr, r: RuleId)
    ensures r in Refs(e) <==> Occurs(Rule(r), e)
    decreases e
  {
    RefsOfParts(Parts(e), r);
    PartsHaveRefs(e, r);
    hide Refs, RefsOf, Parts;
    forall j | 0 <= j < |Parts(e)| ensures r in Refs(Parts(e)[j]) <==> Occurs(Rule(r), Parts(e)[j]) {
      RefsAreOccurrences(Parts(e)[j], r);
    }
  }

  lemma PartsHaveRefs(e: Expr, r: RuleId)
    ensures r in Refs(e) <==> e == Rule(r) || r in RefsOf(Parts(e))
  {
    if |Parts(e)| == 1 { assert Parts(e)[1..] == []; }
  }

  lemma {:induction false} RefsOfParts(es: seq<Expr>, r: RuleId)
    ensures r in RefsOf(es) <==> exists j :: 0 <= j < |es| && r in Refs(es[j])
  {
    if es != [] {
      RefsOfParts(es[1..], r);
      if j :| 0 <= j < |es[1..]| && r in Refs(es[1..][j]) { assert r in Refs(es[j + 1]); }
      if j :| 0 <= j < |es| && r in Refs(es[j]) { if j > 0 { assert r in Refs(es[1..][j - 1]); } }
    }
  }

  // ---- reachability -----------------------------------------------------------------------------

  /** b occurs in the body of a. */
  ghost predicate Step(g: Grammar, a: RuleId, b: RuleId) {
    a in g.rules && Occurs(Rule(b), g.rules[a].body)
  }

  lemma StepIs(g: Grammar, a: RuleId, b: RuleId)
    ensures Step(g, a, b) <==> a in g.rules && b in Refs(g.rules[a].body)
  {
    hide Refs, Occurs;
    if a in g.rules { RefsAreOccurrences(g.rules[a].body, b); }
  }

  /** b is n references away from a. */
  ghost predicate Away(g: Grammar, a: RuleId, b: RuleId, n: nat)
    decreases n
  {
    if n == 0 then a == b else exists m :: Away(g, a, m, n - 1) && Step(g, m, b)
  }

  ghost predicate Reachable(g: Grammar, a: RuleId, b: RuleId) {
    exists n: nat :: Away(g, a, b, n)
  }

  lemma ReachOn(g: Grammar, a: RuleId, m: RuleId, b: RuleId)
    requires Reachable(g, a, m) && Step(g, m, b)
    ensures Reachable(g, a, b)
  {
    var n: nat :| Away(g, a, m, n);
    assert Away(g, a, b, n + 1);
  }

  ghost predicate ClosedUnder(g: Grammar, live: set<RuleId>) {
    forall a, b | a in live && Step(g, a, b) :: b in live
  }

  /** A closed set has everything that is reachable from its members. */
  lemma {:induction false} ClosedHasAll(g: Grammar, live: set<RuleId>, a: RuleId, b: RuleId, n: nat)
    requires ClosedUnder(g, live) && a in live && Away(g, a, b, n)
    ensures b in live
    decreases n
  {
    if n > 0 {
      var m :| Away(g, a, m, n - 1) && Step(g, m, b);
      ClosedHasAll(g, live, a, m, n - 1);
    }
  }

  ghost function AllRefs(g: Grammar): set<RuleId> {
    set a, b | a in g.rules && b in Refs(g.rules[a].body) :: b
  }

  /** The worklist of rules still to expand: found, not expanded yet, no rule twice. */
  ghost predicate Pending(g: Grammar, start: RuleId, found: set<RuleId>, queue: seq<RuleId>, done: set<RuleId>) {
    && (forall r | r in found :: Reachable(g, start, r))
    && (forall r | r in queue :: r in found && r !in done)
    && (forall i, j | 0 <= i < j < |queue| :: queue[i] != queue[j])
    && (forall r | r in found :: r in queue || r in done)
  }

  ghost predicate Expanded(g: Grammar, found: set<RuleId>, done: set<RuleId>) {
    forall a, b | a in done && Step(g, a, b) :: b in found
  }

  /** The defined rules that `start` does not reach. */
  ghost predicate Unreached(g: Grammar, start: RuleId, dead: set<RuleId>) {
    forall r :: r in dead <==> r in g.rules && !Reachable(g, start, r)
  }

  ghost predicate Distinct(rs: seq<RuleId>) {
    forall i, j | 0 <= i < j < |rs| :: rs[i] != rs[j]
  }

  /** The defined rules that the start rule does not reach, and the rules expanded on the way.  `named` are the
      rules the grammar knows by name, with or without a body; an unknown start rule reports nothing, one
      without a body reports every defined rule. */
  method UnreachableRules(g: Grammar, named: set<RuleId>, start: Option<RuleId>)
    returns (dead: set<RuleId>, ghost expanded: seq<RuleId>)
    requires g.rules.Keys <= named
    ensures start.None? || start.value !in named ==> dead == {} && expanded == []
    ensures start.Some? && start.value in named ==> Unreached(g, start.value, dead)
    ensures start.Some? && start.value in named && start.value !in g.rules ==> dead == g.rules.Keys
    ensures Distinct(expanded)
    ensures forall r :: r in expanded <==> start.Some? && start.value in named && Reachable(g, start.value, r)
  {
    hide Refs, Occurs;
    expanded := [];
    if start.None? || start.value !in named { return {}, []; }
    var first := start.value;
    ghost var universe := AllRefs(g) + {first};
    ghost var done: set<RuleId> := {};
    var found, queue := {first}, [first];
    assert Away(g, first, first, 0);
    while queue != []
      invariant first in found && found <= universe && done <= found
      invariant Distinct(expanded) && forall r :: r in expanded <==> r in done
      invariant Pending(g, first, found, queue, done) && Expanded(g, found, done)
      decreases universe - found, |queue|
    {
      var name := queue[|queue| - 1];
      ghost var before := queue;
      queue := queue[..|queue| - 1];
      ghost var done' := done + {name};
      assert Pending(g, first, found, queue, done') && name !in done by { Popped(g, first, found, before, done); }
      if name in g.rules {
        var refs := Refs(g.rules[name].body);
        found, queue := PushNew(g, first, name, refs, found, queue, done');
        forall b | Step(g, name, b) ensures b in found { StepIs(g, name, b); }
      }
      done, expanded := done', expanded + [name];
    }
    forall r ensures r in found <==> Reachable(g, first, r) {
      if Reachable(g, first, r) {
        var n: nat :| Away(g, first, r, n);
        ClosedHasAll(g, found, first, r, n);
      }
    }
    if first !in g.rules { OnlyItself(g, first); }
    dead := g.rules.Keys - found;
  }

  /** A rule without a body reaches only itself. */
  lemma OnlyItself(g: Grammar, start: RuleId)
    requires start !in g.rules
    ensures forall r :: Reachable(g, start, r) ==> r == start
  {
    forall r | Reachable(g, start, r) ensures r == start {
      var n: nat :| Away(g, start, r, n);
      ClosedHasAll(g, {start}, start, r, n);
    }
  }

  lemma Popped(g: Grammar, start: RuleId, found: set<RuleId>, queue: seq<RuleId>, done: set<RuleId>)
    requires queue != [] && Pending(g, start, found, queue, done)
    ensures var last := queue[|queue| - 1];
            Pending(g, start, found, queue[..|queue| - 1], done + {last}) && last !in done && last in found
  {
    var last, rest := queue[|queue| - 1], queue[..|queue| - 1];
    assert queue == rest + [last];
  }

  /** Adds the references not found before, and queues each of them. */
  method PushNew(g: Grammar, start: RuleId, name: RuleId, refs: set<RuleId>, found: set<RuleId>, queue: seq<RuleId>,
      ghost done: set<RuleId>)
    returns (found': set<RuleId>, queue': seq<RuleId>)
    requires name in g.rules && refs == Refs(g.rules[name].body) && name in found && done <= found
    requires Pending(g, start, found, queue, done)
    ensures found' == found + refs && Pending(g, start, found', queue', done)
    ensures refs <= found ==> queue' == queue
  {
    found', queue' := found, queue;
    var todo := refs;
    while todo != {}
      invariant todo <= refs && found <= found' && found' == found + (refs - todo)
      invariant Pending(g, start, found', queue', done)
      invariant refs <= found ==> queue' == queue
      decreases todo
    {
      var ref :| ref in todo;
      if ref !in found' {
        StepIs(g, name, ref);
        ReachOn(g, start, name, ref);
        found', queue' := found' + {ref}, queue' + [ref];
      }
      todo := todo - {ref};
    }
  }

  // ---- dead rules are dead ----------------------------------------------------------------------

  /** The two grammars have the same live rules, which refer to live rules only, and the same live skipper. */
  ghost predicate SameLive(g: Grammar, g': Grammar, live: set<RuleId>) {
    && ClosedUnder(g, live)
    && g.skipper == g'.skipper && (g.skipper.Some? ==> g.skipper.value in live)
    && (forall r | r in live :: (r in g.rules <==> r in g'.rules) && (r in g.rules ==> g'.rules[r] == g.rules[r]))
  }

  lemma {:induction false} DeadExpr(g: Grammar, g': Grammar, live: set<RuleId>, inp: Input, fuel: nat, skip: bool,
      e: Expr, s: State)
    requires SameLive(g, g', live) && Good(inp, s) && Refs(e) <= live
    ensures Parse(g', inp, fuel, skip, e, s) == Parse(g, inp, fuel, skip, e, s)
    decreases fuel, 1, e
  {
    hide Good, SeqFrom, AltFrom, RepFrom, Call, SameLive;
    match e
    case Seq(_) => OpenGood(inp, s); DeadSeq(g, g', live, inp, fuel, skip, e, 0, |s.arena|, Alloc(s, s.pos, 0));
    case Alt(_) => OpenGood(inp, s); DeadAlt(g, g', live, inp, fuel, skip, e, 0, OpenScope(s));
    case Rep(_, _, _) => OpenGood(inp, s); DeadRep(g, g', live, inp, fuel, skip, e, 0, s.pos, |s.arena|,
        Alloc(OpenScope(s), s.pos, 0));
    case Not(child) => DeadExpr(g, g', live, inp, fuel, skip, child, s);
    case And(child) => DeadExpr(g, g', live, inp, fuel, skip, child, s);
    case Lexeme(child) => DeadExpr(g, g', live, inp, fuel, false, child, s);
    case Rule(rule) => DeadCall(g, g', live, inp, fuel, skip, rule, s);
    case _ =>
  }

  lemma {:induction false} DeadSkip(g: Grammar, g': Grammar, live: set<RuleId>, inp: Input, fuel: nat, skip: bool,
      s: State)
    requires SameLive(g, g', live) && Good(inp, s)
    ensures Skip(g', inp, fuel, skip, s) == Skip(g, inp, fuel, skip, s)
    decreases fuel, 0, 1
  {
    hide Good, Call;
    if skip && g.skipper.Some? { DeadCall(g, g', live, inp, fuel, false, g.skipper.value, s); }
  }

  lemma {:induction false} DeadSeq(g: Grammar, g': Grammar, live: set<RuleId>, inp: Input, fuel: nat, skip: bool,
      e: Expr, i: nat, n: nat, s: State)
    requires SameLive(g, g', live) && Good(inp, s) && e.Seq? && Refs(e) <= live && i <= |e.es| && n < |s.arena|
    ensures SeqFrom(g', inp, fuel, skip, e, i, n, s) == SeqFrom(g, inp, fuel, skip, e, i, n, s)
    decreases fuel, 1, e, |e.es| - i
  {
    hide Skip, Parse, SameLive;
    if i < |e.es| {
      DeadSkip(g, g', live, inp, fuel, skip, s);
      var k := if i > 0 then Skip(g, inp, fuel, skip, s) else Result(Ok(None), s);
      if k.out.Ok? {
        DeadExpr(g, g', live, inp, fuel, skip, e.es[i], k.st);
        var r := Parse(g, inp, fuel, skip, e.es[i], k.st);
        if r.out.Ok? { DeadSeq(g, g', live, inp, fuel, skip, e, i + 1, n, PushChild(r.st, n, r.out.tree)); }
        assert SeqNext(g', inp, fuel, skip, e, i, n, k.st) == SeqNext(g, inp, fuel, skip, e, i, n, k.st);
      }
    }
  }

  lemma {:induction false} DeadAlt(g: Grammar, g': Grammar, live: set<RuleId>, inp: Input, fuel: nat, skip: bool,
      e: Expr, i: nat, s: State)
    requires SameLive(g, g', live) && Good(inp, s) && e.Alt? && Refs(e) <= live && i <= |e.es|
    ensures AltFrom(g', inp, fuel, skip, e, i, s) == AltFrom(g, inp, fuel, skip, e, i, s)
    decreases fuel, 1, e, |e.es| - i
  {
    hide Parse, SameLive;
    if i < |e.es| {
      DeadExpr(g, g', live, inp, fuel, skip, e.es[i], s);
      var r := Parse(g, inp, fuel, skip, e.es[i], s);
      if r.out.Fail? && !CutSet(r.st) { DeadAlt(g, g', live, inp, fuel, skip, e, i + 1, r.st); }
    }
  }

  lemma {:induction false} DeadRep(g: Grammar, g': Grammar, live: set<RuleId>, inp: Input, fuel: nat, skip: bool,
      e: Expr, count: nat, start: nat, n: nat, s: State)
    requires SameLive(g, g', live) && Good(inp, s) && e.Rep? && Refs(e) <= live && start <= s.pos && n < |s.arena|
    ensures RepFrom(g', inp, fuel, skip, e, count, start, n, s) == RepFrom(g, inp, fuel, skip, e, count, start, n, s)
    decreases fuel, 1, e, |inp| - s.pos, 1
  {
    hide RepTry, Skip, SameLive;
    DeadSkip(g, g', live, inp, fuel, skip, s);
    var k := if count > 0 then Skip(g, inp, fuel, skip, s) else Result(Ok(None), s);
    if k.out.Ok? { DeadRepTry(g, g', live, inp, fuel, skip, e, count, start, n, s.pos, SetCut(k.st, false)); }
  }

  lemma {:induction false} DeadRepTry(g: Grammar, g': Grammar, live: set<RuleId>, inp: Input, fuel: nat, skip: bool,
      e: Expr, count: nat, start: nat, n: nat, last: nat, s: State)
    requires SameLive(g, g', live) && Good(inp, s) && e.Rep? && Refs(e) <= live && start <= last <= s.pos
        && n < |s.arena|
    ensures RepTry(g', inp, fuel, skip, e, count, start, n, last, s) == RepTry(g, inp, fuel, skip, e, count, start,
        n, last, s)
    decreases fuel, 1, e, |inp| - s.pos, 0
  {
    hide RepFrom, RepDone, Parse, SameLive;
    DeadExpr(g, g', live, inp, fuel, skip, e.child, s);
    var r := Parse(g, inp, fuel, skip, e.child, s);
    if r.out.Ok? && r.st.pos > s.pos {
      DeadRep(g, g', live, inp, fuel, skip, e, count + 1, start, n, PushChild(r.st, n, r.out.tree));
    }
  }

  lemma {:induction false} DeadCall(g: Grammar, g': Grammar, live: set<RuleId>, inp: Input, fuel: nat, skip: bool,
      rule: RuleId, s: State)
    requires SameLive(g, g', live) && Good(inp, s) && rule in live
    ensures Call(g', inp, fuel, skip, rule, s) == Call(g, inp, fuel, skip, rule, s)
    decreases fuel, 0, 0
  {
    hide Grow, Complete, Reject;
    var k := Key(s.pos, rule);
    if k !in s.memo && fuel > 0 && rule in g.rules {
      DeadGrow(g, g', live, inp, fuel - 1, skip, k, k.pos, Fail, Enter(s, k));
    }
  }

  lemma {:induction false} DeadGrow(g: Grammar, g': Grammar, live: set<RuleId>, inp: Input, fuel: nat, skip: bool,
      k: Key, last: nat, best: Outcome, s: State)
    requires SameLive(g, g', live) && Good(inp, s) && k.rule in live && k.rule in g.rules && k.rule in g'.rules
    requires s.lr != [] && k.pos <= last <= |inp| && best.Normal()
    requires (best.Ok? ==> TreeIn(s.arena, best.tree)) && (best.Fail? ==> last == k.pos)
    ensures Grow(g', inp, fuel, skip, k, last, best, s) == Grow(g, inp, fuel, skip, k, last, best, s)
    decreases fuel, 2, |inp| - last
  {
    hide Parse, Restart, Settle;
    var s1 := Restart(inp, k, best, s);
    BodyLive(g, g', live, k.rule);
    DeadExpr(g, g', live, inp, fuel, skip, g.rules[k.rule].body, s1);
    var r := Parse(g, inp, fuel, skip, g.rules[k.rule].body, s1);
    if r.out.Ok? && r.st.pos > last && k in r.st.memo {
      DeadGrow(g, g', live, inp, fuel, skip, k, r.st.pos, r.out,
          r.st.(memo := r.st.memo[k := Entry(true, r.st.pos, r.out.tree)]));
    }
  }

  lemma BodyLive(g: Grammar, g': Grammar, live: set<RuleId>, r: RuleId)
    requires SameLive(g, g', live) && r in live && r in g.rules
    ensures Refs(g.rules[r].body) <= live && r in g'.rules && g'.rules[r] == g.rules[r]
  {
    forall b | b in Refs(g.rules[r].body) ensures b in live { StepIs(g, r, b); }
  }

  /** Whatever is done to rules that neither the start rule nor the skipper reaches, every parse is the same,
      for every grammar and from every context state. */
  lemma DeadRulesDoNotMatter(g: Grammar, g': Grammar, live: set<RuleId>, inp: Input, fuel: nat, start: RuleId, s: State)
    requires SameLive(g, g', live) && start in live && Good(inp, s)
    ensures Run(g', inp, fuel, start, s) == Run(g, inp, fuel, start, s)
  {
    hide Skip, Call;
    DeadSkip(g, g', live, inp, fuel, g.skipper.Some?, s);
    DeadCall(g, g', live, inp, fuel, g.skipper.Some?, start, Skip(g, inp, fuel, g.skipper.Some?, s).st);
  }

  /** The bodies, names and actions of the rules in `dead` may differ. */
  ghost predicate Changed(g: Grammar, g': Grammar, dead: set<RuleId>) {
    && g.skipper == g'.skipper && g.rules.Keys == g'.rules.Keys
    && forall r | r in g.rules && r !in dead :: g'.rules[r] == g.rules[r]
  }

  /** The skipper runs in no parse, or the start rule reaches it. */
  ghost predicate SkipperSeen(g: Grammar, start: RuleId) {
    g.skipper.Some? && g.skipper.value in g.rules ==> Reachable(g, start, g.skipper.value)
  }

  lemma DeadIfSeen(g: Grammar, g': Grammar, dead: set<RuleId>, inp: Input, fuel: nat, start: RuleId, s: State)
    requires Unreached(g, start, dead) && Changed(g, g', dead) && SkipperSeen(g, start) && Good(inp, s)
    ensures Run(g', inp, fuel, start, s) == Run(g, inp, fuel, start, s)
  {
    hide Run, Reachable;
    var skipper := if g.skipper.Some? then {g.skipper.value} else {};
    var live := set r | r in AllRefs(g) + {start} + skipper
        && (Reachable(g, start, r) || (r in skipper && r !in g.rules));
    StartReached(g, start);
    forall a, b | a in live && Step(g, a, b) ensures b in live {
      ReachOn(g, start, a, b);
      StepIs(g, a, b);
      assert b in AllRefs(g);
    }
    DeadRulesDoNotMatter(g, g', live, inp, fuel, start, s);
  }

  // ---- and the skipper is not -------------------------------------------------------------------

  lemma {:induction false} LongerText(fs: set<Failure>) returns (n: nat)
    ensures forall f | f in fs :: |f.item.text| < n
    decreases fs
  {
    n := 0;
    if fs != {} {
      var f :| f in fs;
      var m := LongerText(fs - {f});
      n := if m > |f.item.text| then m else |f.item.text| + 1;
    }
  }

  function NeverMatches(item: Item): Expr { Terminal(AnyOf({}), item) }

  /** A skipper that fails at the end of the input leaves its failure behind. */
  lemma SkipperLeavesFailure(g: Grammar, item: Item, start: RuleId)
    requires g.skipper.Some? && g.skipper.value in g.rules && g.rules[g.skipper.value].body == NeverMatches(item)
    ensures Failure(0, item) in Run(g, [], 1, start, FRESH).st.failures
  {
    hide Call, Finish;
    var ws, k := g.skipper.value, Key(0, g.skipper.value);
    var s := Enter(FRESH, k);
    var s1 := Restart([], k, Fail, s);
    assert Parse(g, [], 0, false, NeverMatches(item), s1) == Result(Fail, Record(s1, {Failure(0, item)}));
    assert Grow(g, [], 0, false, k, 0, Fail, s) == Result(Fail, Record(s1, {Failure(0, item)}).(pos := 0));
    FailedCall(g, ws, item, s, Record(s1, {Failure(0, item)}).(pos := 0));
  }

  lemma FailedCall(g: Grammar, ws: RuleId, item: Item, s: State, s1: State)
    requires ws in g.rules && s == Enter(FRESH, Key(0, ws)) && Framed([], s, Result(Fail, s1))
        && Failure(0, item) in s1.failures
    requires Grow(g, [], 0, false, Key(0, ws), 0, Fail, s) == Result(Fail, s1)
    ensures var r := Call(g, [], 1, false, ws, FRESH); r.out.Normal() && Failure(0, item) in r.st.failures
  {
    hide Grow;
  }

  /** A defined skipper that the start rule does not reach can be told apart from another one. */
  lemma SkipperMatters(g: Grammar, dead: set<RuleId>, start: RuleId) returns (g': Grammar)
    requires Unreached(g, start, dead) && !SkipperSeen(g, start)
    ensures Changed(g, g', dead) && Run(g', [], 1, start, FRESH) != Run(g, [], 1, start, FRESH)
  {
    hide Run, Reachable;
    var ws := g.skipper.value;
    var n := LongerText(Run(g, [], 1, start, FRESH).st.failures);
    var item := Item(Literal, seq(n, _ => 'x'));
    g' := g.(rules := g.rules[ws := g.rules[ws].(body := NeverMatches(item))]);
    SkipperLeavesFailure(g', item, start);
  }

  /** The rules reported unreachable can be changed without changing any parse, from any context state, iff there
      is no defined skipper or the start rule reaches it: a skipper is used without being referred to. */
  lemma ReportedRulesAreDead(g: Grammar, dead: set<RuleId>, start: RuleId)
    requires Unreached(g, start, dead)
    ensures (forall g': Grammar, inp: Input, fuel: nat, s: State | Changed(g, g', dead) && Good(inp, s) ::
               Run(g', inp, fuel, start, s) == Run(g, inp, fuel, start, s))
            <==> SkipperSeen(g, start)
  {
    hide Run, Reachable, Unreached, SkipperSeen, Changed;
    if SkipperSeen(g, start) {
      forall g': Grammar, inp: Input, fuel: nat, s: State | Changed(g, g', dead) && Good(inp, s)
        ensures Run(g', inp, fuel, start, s) == Run(g, inp, fuel, start, s)
      {
        DeadIfSeen(g, g', dead, inp, fuel, start, s);
      }
    } else {
      var g' := SkipperMatters(g, dead, start);
      assert Good([], FRESH);
    }
  }

  lemma StartReached(g: Grammar, start: RuleId)
    ensures Reachable(g, start, start)
  {
    assert Away(g, start, start, 0);
  }

  lemma RefersToNothing(g: Grammar, a: RuleId, b: RuleId)
    requires a in g.rules && Refs(g.rules[a].body) == {} && a != b
    ensures !Reachable(g, a, b)
  {
    hide Refs, Occurs;
    forall x ensures !Step(g, a, x) { StepIs(g, a, x); }
    if Reachable(g, a, b) {
      var n: nat :| Away(g, a, b, n);
      ClosedHasAll(g, {a}, a, b, n);
    }
  }

  /** The skipper is no rule reference, so a rule used only as the skipper is reported unreachable; yet
      with another body it changes the parse. */
  lemma SkipperIsReportedThoughAlive(k: nat)
    requires k >= 2
    ensures var g, g' := Limits.SKIPPY, Limits.SKIPPY.(rules :=
        Limits.SKIPPY.rules[1 := Limits.Plainly("ws", Expr.Empty)]);
            && g.skipper == Some(1) && !Reachable(g, 2, 1)
            && Limits.Ends(PegCall(g, [1, 0, 2], k, true, 2, 0), Yes(3))
            && Limits.Ends(PegCall(g', [1, 0, 2], k, true, 2, 0), No)
  {
    var g, g' := Limits.SKIPPY, Limits.SKIPPY.(rules := Limits.SKIPPY.rules[1 := Limits.Plainly("ws", Expr.Empty)]);
    var inp, body := [1, 0, 2], g.rules[2].body;
    Limits.PairMatchesSkipping(k);
    assert body.es[0] == Limits.Char(1) && body.es[1] == Limits.Char(2) && body.es[1..] == [Limits.Char(2)];
    assert Refs(body) == {};
    RefersToNothing(g, 2, 1);
    hide Refs, Occurs;
    assert Limits.Ends(PegCall(g', inp, k - 1, false, 1, 1), Yes(1));
    assert Limits.Ends(PegSkip(g', inp, k - 1, true, 1), Yes(1));
    assert Limits.Ends(PegSeqNext(g', inp, k - 1, true, body, 1, 1, false), No);
    assert Limits.Ends(PegSeq(g', inp, k - 1, true, body, 1, 1, false), No);
    assert Limits.Ends(PegSeqNext(g', inp, k - 1, true, body, 0, 0, false), No);
    assert Limits.Ends(Peg.Peg(g', inp, k - 1, true, body, 0, false), No);
  }
}
