/** Left recursion through several rules: an alias cycle, entered at either rule, and the suffix rules of a fragment of
    Lua, where the cycle runs prefixexp, var, var_field, prefixexp and three more ways.  Both are choices of
    iterations, and the parser answers as these. */
module Cycles {
  import opened Grammars
  import opened Machine
  import opened Peg
  import opened Forms
  import opened Soundness
  import opened LeftRecursion
  import opened Limits
  import Elimination
  import Parsing
  import Termination
  import Totality
  import Transparency

  // ---- what small bodies satisfy ----------------------------------------------------------------

  ghost predicate Leafy(e: Expr) { e.Terminal? || e.Rule? }

  ghost predicate Row(e: Expr) { Leafy(e) || (e.Seq? && forall x | x in e.es :: Leafy(x)) }

  ghost predicate Shallow(e: Expr) { Row(e) || (e.Alt? && forall x | x in e.es :: Row(x)) }

  /** A small body refers to rules among `rs` only. */
  ghost predicate Within(rs: set<RuleId>, e: Expr) {
    match e
    case Rule(r) => r in rs
    case Seq(es) => forall x | x in es :: x.Rule? ==> x.rule in rs
    case Alt(es) => forall x | x in es ::
        && (x.Rule? ==> x.rule in rs)
        && (x.Seq? ==> forall y | y in x.es :: y.Rule? ==> y.rule in rs)
    case _ => true
  }

  lemma ShallowFacts(g: Grammar, rs: set<RuleId>, e: Expr)
    requires Shallow(e) && Within(rs, e)
    ensures CutFree(e) && CutsEnclosed(e)
    ensures rs <= g.rules.Keys ==> Termination.Closed(g, e)
    ensures (forall r | r in rs :: !IsPartner(g, r)) ==> Usable(g, OneMode(), false, e)
  {
    hide IsPartner;
    if e.Alt? {
      forall x | x in e.es
        ensures CutFree(x) && CutsEnclosed(x) && (rs <= g.rules.Keys ==> Termination.Closed(g, x))
        ensures (forall r | r in rs :: !IsPartner(g, r)) ==> Usable(g, OneMode(), false, x)
      {
        RowFacts(g, rs, x);
      }
    } else {
      RowFacts(g, rs, e);
    }
  }

  lemma RowFacts(g: Grammar, rs: set<RuleId>, e: Expr)
    requires Row(e) && Within(rs, e)
    ensures CutFree(e) && CutsEnclosed(e)
    ensures rs <= g.rules.Keys ==> Termination.Closed(g, e)
    ensures (forall r | r in rs :: !IsPartner(g, r)) ==> Usable(g, OneMode(), false, e)
  {
    hide IsPartner;
    if e.Seq? {
      forall x | x in e.es
        ensures CutFree(x) && CutsEnclosed(x) && (rs <= g.rules.Keys ==> Termination.Closed(g, x))
        ensures (forall r | r in rs :: !IsPartner(g, r)) ==> Usable(g, OneMode(), false, x)
      {
        assert Within(rs, x);
      }
    }
  }

  // ---- an alias cycle ---------------------------------------------------------------------------

  /** `A = B; B = A 'b' / 'x'`, with A = 0, B = 1, b = 1 and x = 2, read from `start`: the other rule is its partner. */
  function Alias(start: RuleId): Grammar
    requires start <= 1
  {
    Grammar(map[
      0 := Plainly("A", Rule(1)),
      1 := Plainly("B", Alt([Seq([Rule(0), Char(1)]), Char(2)]))], None, {start}, map[1 - start := start], {})
  }

  /** What it unfolds to: `b` behind the recursion, or `x`. */
  const ALIAS_ARMS := [Tail(Seq([Expr.Empty, Char(1)])), Base(Char(2))]

  /** The facts about the grammar that the proofs use. */
  ghost predicate IsAlias(g: Grammar, start: RuleId, row: Expr, both: Expr) {
    && start <= 1 && 0 in g.rules && 1 in g.rules && g.skipper.None? && g.quiet == {} && IsLeftRec(g, start)
         && !IsPartner(g, start)
    && row == Seq([Rule(0), Char(1)]) && both == Alt([row, Char(2)])
    && g.rules[0].body == Rule(1) && g.rules[1].body == both
    && g.rules[0].recovery.None? && g.rules[1].recovery.None?
    && Serves(g, 1 - start, start) && forall m | m != 1 - start :: !IsPartner(g, m)
  }

  lemma AliasIs(start: RuleId)
    requires start <= 1
    ensures IsAlias(Alias(start), start, Seq([Rule(0), Char(1)]), Alt([Seq([Rule(0), Char(1)]), Char(2)]))
  {
  }

  lemma AliasShape(start: RuleId)
    requires start <= 1
    ensures var g := Alias(start);
            && WellFormed(g, OneMode()) && Termination.Terminating(g) && g.skipper.None?
            && IsLeftRec(g, start) && !IsPartner(g, start)
            && Choice(g, start, 1) && Arms(g, start, 1) == ALIAS_ARMS
  {
    AliasIs(start);
    assert Alias(start).rules.Keys == {0, 1};
    hide Alias, WellFormed, Termination.Terminating, IsLeftRec, IsPartner, Choice, Arms;
    var row := Seq([Rule(0), Char(1)]);
    AliasFits(Alias(start), start, row, Alt([row, Char(2)]));
    AliasUnfolds(Alias(start), start, row, Alt([row, Char(2)]));
  }

  lemma AliasFits(g: Grammar, start: RuleId, row: Expr, both: Expr)
    requires IsAlias(g, start, row, both) && g.rules.Keys == {0, 1}
    ensures WellFormed(g, OneMode()) && Termination.Terminating(g)
  {
    AliasBodies(g, start, row, both);
    AliasIn(g, start, row, both);
    hide IsLeftRec, Serves, Usable, UsableIn, CutsEnclosed, CutFree, Termination.Closed;
    assert NoCuts(g);
  }

  lemma AliasBodies(g: Grammar, start: RuleId, row: Expr, both: Expr)
    requires IsAlias(g, start, row, both)
    ensures CutFree(Rule(1)) && CutsEnclosed(Rule(1)) && Termination.Closed(g, Rule(1))
    ensures CutFree(both) && CutsEnclosed(both) && Termination.Closed(g, both)
  {
    hide IsLeftRec, IsPartner, Serves;
    assert row.es[0] == Rule(0) && row.es[1] == Char(1) && both.es[0] == row && both.es[1] == Char(2);
    assert Row(row) && Row(Char(2)) && Shallow(both);
    ShallowFacts(g, {0}, both);
  }

  /** Both rules may stand at the start. */
  lemma AliasIn(g: Grammar, start: RuleId, row: Expr, both: Expr)
    requires IsAlias(g, start, row, both)
    ensures UsableIn(g, OneMode(), start, Rule(1))
    ensures UsableIn(g, OneMode(), start, both)
  {
    assert forall m | m == 0 || m == 1 :: m == start || Serves(g, m, start);
    hide IsLeftRec, IsPartner, Serves;
    assert row.es[0] == Rule(0) && row.es[1] == Char(1) && both.es[0] == row && both.es[1] == Char(2);
    assert UsableIn(g, OneMode(), start, row) && UsableIn(g, OneMode(), start, Char(2));
  }

  lemma AliasUnfolds(g: Grammar, start: RuleId, row: Expr, both: Expr)
    requires IsAlias(g, start, row, both)
    ensures Choice(g, start, 1) && Arms(g, start, 1) == ALIAS_ARMS
  {
    assert forall m | m == 0 || m == 1 :: m == start || Serves(g, m, start);
    hide IsLeftRec, IsPartner, Serves;
    var n := if start == 0 then 0 else 1;
    assert Touches(g, start, Rule(0)) && Touches(g, start, Rule(1));
    assert Unfold(g, start, n, Rule(0)) == [Tail(Expr.Empty)] && Unfolds(g, start, n, Rule(0));
    BothUnfold(g, start, n, row, both);
  }

  lemma BothUnfold(g: Grammar, start: RuleId, n: nat, row: Expr, both: Expr)
    requires row == Seq([Rule(0), Char(1)]) && both == Alt([row, Char(2)]) && Touches(g, start, Rule(0))
    requires Unfold(g, start, n, Rule(0)) == [Tail(Expr.Empty)] && Unfolds(g, start, n, Rule(0))
    ensures Unfold(g, start, n, both) == ALIAS_ARMS && Unfolds(g, start, n, both)
  {
    hide IsPartner, Serves;
    assert row.es[0] == Rule(0) && [Expr.Empty] + row.es[1..] == [Expr.Empty, Char(1)];
    assert both.es[0] == row && both.es[1] == Char(2);
    assert Touches(g, start, row) && Touches(g, start, both) && !Touches(g, start, Char(2));
    assert Unfold(g, start, n, row) == [Tail(Seq([Expr.Empty, Char(1)]))] && Unfolds(g, start, n, row);
    assert Unfold(g, start, n, Char(2)) == [Base(Char(2))] && Unfolds(g, start, n, Char(2));
    assert UnfoldFrom(g, start, n, both, 2) == [];
    assert UnfoldFrom(g, start, n, both, 1) == [Base(Char(2))];
    assert UnfoldFrom(g, start, n, both, 0) == ALIAS_ARMS;
  }

  /** Behind the b's that stand at i. */
  function Behind(inp: Input, i: nat): (j: nat)
    requires i <= |inp|
    ensures i <= j <= |inp|
  {
    Scan(inp, (c: Sym) => c != 1, i)
  }

  /** The tail of the alias cycle takes one b. */
  lemma TailTakesB(g: Grammar, inp: Input, k: nat, q: nat)
    requires g.skipper.None? && q <= |inp|
    ensures OutOf(PegAlt(g, inp, k, false, Alt([Seq([Expr.Empty, Char(1)])]), 0, q)) ==
              Some(if q < |inp| && inp[q] == 1 then Yes(q + 1) else No)
  {
    var e, b := Seq([Expr.Empty, Char(1)]), Char(1);
    var f := Alt([e]);
    assert e.es[0] == Expr.Empty && e.es[1] == b && f.es[0] == e;
    SeqSplits(g, inp, k, false, e, q, false);
    LastChild(g, inp, k, false, e, 1, q, false);
    FlagKept(g, inp, k, false, e, q, false);
    AltIs(g, inp, k, false, f, 0, q);
    NoTailLeft(g, inp, k, false, f, q);
  }

  lemma {:induction false} GreedyBs(g: Grammar, inp: Input, k: nat, q: nat)
    requires g.skipper.None? && q <= |inp|
    ensures Greedy(g, inp, k, false, Alt([Seq([Expr.Empty, Char(1)])]), q) == Some(Yes(Behind(inp, q)))
    decreases |inp| - q
  {
    hide PegAlt;
    TailTakesB(g, inp, k, q);
    if q < |inp| && inp[q] == 1 { GreedyBs(g, inp, k, q + 1); }
  }

  lemma AliasUnrolled(g: Grammar, inp: Input, k: nat, i: nat)
    requires g.skipper.None? && i <= |inp|
    ensures Unrolled(g, inp, k, false, ALIAS_ARMS, i) ==
              Some(if i < |inp| && inp[i] == 2 then Yes(Behind(inp, i + 1)) else No)
  {
    hide Greedy;
    assert Tails(ALIAS_ARMS, 0) == [];
    assert Tails(ALIAS_ARMS, 1) == [Seq([Expr.Empty, Char(1)])];
    assert NoneBefore(g, inp, k, false, ALIAS_ARMS, 1, i);
    assert FirstBase(g, inp, k, false, ALIAS_ARMS, 0, i) == FirstBase(g, inp, k, false, ALIAS_ARMS, 1, i);
    if i < |inp| && inp[i] == 2 { GreedyBs(g, inp, k, i + 1); }
  }

  /** Whichever of the two rules it is, on a new context, or after parses that started at it, or at the other one where
      it had left an entry of that: the cycle matches one x and all the b's behind it.  (What the other rule does there,
      `Leftovers.OtherRuleIsRightIff` says.) */
  lemma AliasMatches(start: RuleId, inp: Input, s: State)
    requires start <= 1 && Transparency.Idle(Setting(Alias(start), inp, OneMode()), s)
    ensures var run := Run(Alias(start), inp, Termination.Depth(Alias(start), inp), start, s);
            var x := s.pos < |inp| && inp[s.pos] == 2;
            && (run.out.Ok? <==> x) && (run.out.Fail? <==> !x)
            && (x ==> run.st.pos == Behind(inp, s.pos + 1))
  {
    AliasShape(start);
    AliasRules(start);
    hide Alias, Run, WellFormed, Termination.Depth, Termination.Terminating, IsPartner, IsLeftRec, Choice, Arms,
        Transparency.Idle, Behind, PiecesCutFree;
    Matches(Alias(start), start, inp, s);
  }

  lemma Matches(g: Grammar, start: RuleId, inp: Input, s: State)
    requires Transparency.Idle(Setting(g, inp, OneMode()), s) && Termination.Terminating(g) && start in g.rules
    requires g.skipper.None? && PiecesCutFree(g, start) && IsLeftRec(g, start) && !IsPartner(g, start)
    requires Choice(g, start, 1) && Arms(g, start, 1) == ALIAS_ARMS
    ensures var run := Run(g, inp, Termination.Depth(g, inp), start, s);
            var x := s.pos < |inp| && inp[s.pos] == 2;
            && (run.out.Ok? <==> x) && (run.out.Fail? <==> !x)
            && (x ==> run.st.pos == Behind(inp, s.pos + 1))
  {
    hide Run, PegRun, WellFormed, Sound, Moves, Termination.Depth, Termination.Terminating, IsPartner, IsLeftRec,
        Choice, Arms, Transparency.Idle, Behind, PiecesCutFree;
    var c := Setting(g, inp, OneMode());
    IdleIsGood(c, s);
    AliasAnswer(g, inp, start, s.pos);
    Parsing.BoundedRunIsPeg(c, start, 2, s);
  }

  lemma AliasRules(start: RuleId)
    requires start <= 1
    ensures start in Alias(start).rules && PiecesCutFree(Alias(start), start)
  {
    AliasShape(start);
    Elimination.NoCutInside(Alias(start), OneMode(), start);
  }

  lemma IdleIsGood(c: Setting, s: State)
    requires Transparency.Idle(c, s)
    ensures Good(c.inp, s)
  {
    hide WellFormed, MemoSound;
  }

  lemma AliasAnswer(g: Grammar, inp: Input, start: RuleId, i: nat)
    requires g.skipper.None? && PiecesCutFree(g, start) && IsLeftRec(g, start) && !IsPartner(g, start) && i <= |inp|
    requires Choice(g, start, 1) && Arms(g, start, 1) == ALIAS_ARMS
    ensures OutOf(PegRun(g, inp, 2, start, i)) ==
              Some(if i < |inp| && inp[i] == 2 then Yes(Behind(inp, i + 1)) else No)
  {
    hide PiecesCutFree, Unfolds, Unfold, PegGrow, Unrolled;
    GrowthIsUnrolled(g, inp, 0, false, start, 1, i);
    AliasUnrolled(g, inp, 0, i);
    assert PegSkip(g, inp, 2, false, i) == Some(Answer(Yes(i), false, {}));
    assert OutOf(PegCall(g, inp, 2, false, start, i)) == OutOf(PegGrow(g, inp, 1, false, start, i, None));
  }

  // ---- suffix rules of Lua ----------------------------------------------------------------------

  const NAME: RuleId := 0
  const ARGS: RuleId := 1
  const VAR_NAME: RuleId := 2
  const VAR_FIELD: RuleId := 3
  const VAR_INDEX: RuleId := 4
  const CALL_PLAIN: RuleId := 5
  const CALL_METHOD: RuleId := 6
  const VAR: RuleId := 7
  const FUNCTIONCALL: RuleId := 8
  const PREFIXEXP: RuleId := 9
  const EXP: RuleId := 10
  const CHUNK: RuleId := 11

  /** The rules between prefixexp and its recursions. */
  const LUA_PARTNERS: map<RuleId, RuleId> := map[
    VAR_FIELD := PREFIXEXP, VAR_INDEX := PREFIXEXP, CALL_PLAIN := PREFIXEXP, CALL_METHOD := PREFIXEXP,
    VAR := PREFIXEXP, FUNCTIONCALL := PREFIXEXP]

  function LuaBody(name: Expr, digit: Expr, r: RuleId): Expr {
    if r == NAME then name
    else if r == ARGS then Seq([Char(40), Char(41)])
    else if r == VAR_NAME then Rule(NAME)
    else if r == VAR_FIELD then Seq([Rule(PREFIXEXP), Char(46), Rule(NAME)])
    else if r == VAR_INDEX then Seq([Rule(PREFIXEXP), Char(91), Rule(EXP), Char(93)])
    else if r == CALL_PLAIN then Seq([Rule(PREFIXEXP), Rule(ARGS)])
    else if r == CALL_METHOD then Seq([Rule(PREFIXEXP), Char(58), Rule(NAME), Rule(ARGS)])
    else if r == VAR then Alt([Rule(VAR_FIELD), Rule(VAR_INDEX), Rule(VAR_NAME)])
    else if r == FUNCTIONCALL then Alt([Rule(CALL_METHOD), Rule(CALL_PLAIN)])
    else if r == PREFIXEXP then Alt([Rule(FUNCTIONCALL), Rule(VAR), Seq([Char(40), Rule(EXP), Char(41)])])
    else if r == EXP then Alt([Rule(PREFIXEXP), digit])
    else Rule(EXP)
  }

  /** A fragment of Lua in which every suffix production has a rule of its own.  Elements are character codes. */
  function Lua(letter: Sym -> bool): Grammar {
    var name, digit := Terminal(Satisfying(letter), Item(Range, [])), Terminal(Between(48, 57), Item(Range, []));
    Grammar(map r: RuleId | r <= CHUNK :: Plainly("", LuaBody(name, digit, r)), None, {PREFIXEXP}, LUA_PARTNERS, {})
  }

  /** Method call, call, field and index behind the recursion, or a name, or an expression in parentheses. */
  const LUA_ARMS := [
    Tail(Seq([Expr.Empty, Char(58), Rule(NAME), Rule(ARGS)])),
    Tail(Seq([Expr.Empty, Rule(ARGS)])),
    Tail(Seq([Expr.Empty, Char(46), Rule(NAME)])),
    Tail(Seq([Expr.Empty, Char(91), Rule(EXP), Char(93)])),
    Base(Rule(VAR_NAME)),
    Base(Seq([Char(40), Rule(EXP), Char(41)]))]

  /** The facts about the grammar that the proofs use. */
  ghost predicate IsLua(g: Grammar, name: Expr, digit: Expr) {
    && name.Terminal? && digit.Terminal? && g.skipper.None? && g.quiet == {}
    && (forall r: RuleId :: r in g.rules <==> r <= CHUNK)
    && (forall r | r in g.rules :: g.rules[r].body == LuaBody(name, digit, r) && g.rules[r].recovery.None?)
    && (forall r: RuleId :: IsPartner(g, r) <==> VAR_FIELD <= r <= FUNCTIONCALL)
    && (forall r: RuleId | VAR_FIELD <= r <= FUNCTIONCALL :: Serves(g, r, PREFIXEXP))
    && (forall r: RuleId :: IsLeftRec(g, r) <==> r == PREFIXEXP)
  }

  lemma LuaIs(letter: Sym -> bool)
    ensures IsLua(Lua(letter), Terminal(Satisfying(letter), Item(Range, [])),
        Terminal(Between(48, 57), Item(Range, [])))
  {
    hide LuaBody;
  }

  // ---- its branches -----------------------------------------------------------------------------

  /** `r` and something behind it. */
  lemma RowUnfolds(g: Grammar, r: RuleId, n: nat, rest: seq<Expr>)
    ensures var e := Seq([Rule(r)] + rest);
            && Touches(g, r, e) && Unfolds(g, r, n, e)
            && Unfold(g, r, n, e) == [Tail(Seq([Expr.Empty] + rest))]
  {
    var e := Seq([Rule(r)] + rest);
    assert e.es[0] == Rule(r) && e.es[1..] == rest;
    assert Unfold(g, r, n, Rule(r)) == [Tail(Expr.Empty)];
  }

  lemma PartnerUnfolds(g: Grammar, r: RuleId, n: nat, m: RuleId)
    requires Serves(g, m, r) && Unfolds(g, r, n, g.rules[m].body)
    ensures Touches(g, r, Rule(m)) && Unfolds(g, r, n + 1, Rule(m))
    ensures Unfold(g, r, n + 1, Rule(m)) == Unfold(g, r, n, g.rules[m].body)
  {
  }

  lemma {:induction false} ChoiceUnfolds(g: Grammar, r: RuleId, n: nat, es: seq<Expr>, j: nat, parts: seq<seq<Arm>>)
    requires j <= |es| == |parts|
    requires forall l | j <= l < |es| :: Unfold(g, r, n, es[l]) == parts[l]
    ensures UnfoldFrom(g, r, n, Alt(es), j) == Joined(parts, j)
    decreases |es| - j
  {
    hide Unfold;
    if j < |es| { ChoiceUnfolds(g, r, n, es, j + 1, parts); }
  }

  function Joined(parts: seq<seq<Arm>>, j: nat): seq<Arm>
    requires j <= |parts|
    decreases |parts| - j
  {
    if j == |parts| then [] else parts[j] + Joined(parts, j + 1)
  }

  lemma JoinTwo(x: seq<Arm>, y: seq<Arm>)
    ensures Joined([x, y], 0) == x + y
  {
    assert Joined([x, y], 2) == [];
    assert Joined([x, y], 1) == y;
  }

  lemma JoinThree(x: seq<Arm>, y: seq<Arm>, z: seq<Arm>)
    ensures Joined([x, y, z], 0) == x + y + z
  {
    assert Joined([x, y, z], 3) == [];
    assert Joined([x, y, z], 2) == z;
    assert Joined([x, y, z], 1) == y + z;
  }

  lemma LuaUnfolds(g: Grammar, name: Expr, digit: Expr)
    requires IsLua(g, name, digit)
    ensures Choice(g, PREFIXEXP, 2) && Arms(g, PREFIXEXP, 2) == LUA_ARMS
  {
    hide Unfold, Unfolds, Touches, Serves, IsPartner, IsLeftRec;
    var paren := Seq([Char(40), Rule(EXP), Char(41)]);
    CallsUnfold(g, name, digit);
    VarsUnfold(g, name, digit);
    PartnerUnfolds(g, PREFIXEXP, 1, FUNCTIONCALL);
    PartnerUnfolds(g, PREFIXEXP, 1, VAR);
    ParenUnfolds(g, 2, paren);
    var es := [Rule(FUNCTIONCALL), Rule(VAR), paren];
    var calls, vars := Unfold(g, PREFIXEXP, 2, Rule(FUNCTIONCALL)), Unfold(g, PREFIXEXP, 2, Rule(VAR));
    ChoiceUnfolds(g, PREFIXEXP, 2, es, 0, [calls, vars, [Base(paren)]]);
    JoinThree(calls, vars, [Base(paren)]);
    assert g.rules[PREFIXEXP].body == Alt(es);
    AltUnfolds(g, PREFIXEXP, 2, es);
  }

  lemma AltUnfolds(g: Grammar, r: RuleId, n: nat, es: seq<Expr>)
    requires es != [] && Touches(g, r, es[0]) && forall e | e in es :: Unfolds(g, r, n, e)
    ensures Unfolds(g, r, n, Alt(es)) && Unfold(g, r, n, Alt(es)) == UnfoldFrom(g, r, n, Alt(es), 0)
  {
    assert Alt(es).es[0] == es[0];
  }

  lemma ParenUnfolds(g: Grammar, n: nat, paren: Expr)
    requires paren == Seq([Char(40), Rule(EXP), Char(41)])
    ensures Unfold(g, PREFIXEXP, n, paren) == [Base(paren)] && Unfolds(g, PREFIXEXP, n, paren)
  {
    assert paren.es[0] == Char(40) && !Touches(g, PREFIXEXP, Char(40));
  }

  lemma CallsUnfold(g: Grammar, name: Expr, digit: Expr)
    requires IsLua(g, name, digit)
    ensures Unfolds(g, PREFIXEXP, 1, g.rules[FUNCTIONCALL].body)
    ensures Unfold(g, PREFIXEXP, 1, g.rules[FUNCTIONCALL].body) == LUA_ARMS[..2]
  {
    hide Unfold, Unfolds, Touches, Serves, IsPartner, IsLeftRec;
    var tail, args := [Char(58), Rule(NAME), Rule(ARGS)], [Rule(ARGS)];
    assert g.rules[CALL_METHOD].body == Seq([Rule(PREFIXEXP)] + tail);
    assert g.rules[CALL_PLAIN].body == Seq([Rule(PREFIXEXP)] + args);
    RowUnfolds(g, PREFIXEXP, 0, tail);
    RowUnfolds(g, PREFIXEXP, 0, args);
    PartnerUnfolds(g, PREFIXEXP, 0, CALL_METHOD);
    PartnerUnfolds(g, PREFIXEXP, 0, CALL_PLAIN);
    var es := [Rule(CALL_METHOD), Rule(CALL_PLAIN)];
    var parts := [[Tail(Seq([Expr.Empty] + tail))], [Tail(Seq([Expr.Empty] + args))]];
    ChoiceUnfolds(g, PREFIXEXP, 1, es, 0, parts);
    JoinTwo(parts[0], parts[1]);
    assert [parts[0], parts[1]] == parts;
    assert g.rules[FUNCTIONCALL].body == Alt(es);
    AltUnfolds(g, PREFIXEXP, 1, es);
    assert [Expr.Empty] + tail == [Expr.Empty, Char(58), Rule(NAME), Rule(ARGS)];
    assert [Expr.Empty] + args == [Expr.Empty, Rule(ARGS)];
  }

  lemma VarsUnfold(g: Grammar, name: Expr, digit: Expr)
    requires IsLua(g, name, digit)
    ensures Unfolds(g, PREFIXEXP, 1, g.rules[VAR].body)
    ensures Unfold(g, PREFIXEXP, 1, g.rules[VAR].body) == LUA_ARMS[2..5]
  {
    NameUnfolds(g, name, digit);
    hide Unfold, Unfolds, Touches, Serves, IsPartner, IsLeftRec;
    var dot, at := [Char(46), Rule(NAME)], [Char(91), Rule(EXP), Char(93)];
    assert g.rules[VAR_FIELD].body == Seq([Rule(PREFIXEXP)] + dot);
    assert g.rules[VAR_INDEX].body == Seq([Rule(PREFIXEXP)] + at);
    RowUnfolds(g, PREFIXEXP, 0, dot);
    RowUnfolds(g, PREFIXEXP, 0, at);
    PartnerUnfolds(g, PREFIXEXP, 0, VAR_FIELD);
    PartnerUnfolds(g, PREFIXEXP, 0, VAR_INDEX);
    var es := [Rule(VAR_FIELD), Rule(VAR_INDEX), Rule(VAR_NAME)];
    var parts := [[Tail(Seq([Expr.Empty] + dot))], [Tail(Seq([Expr.Empty] + at))], [Base(Rule(VAR_NAME))]];
    ChoiceUnfolds(g, PREFIXEXP, 1, es, 0, parts);
    JoinThree(parts[0], parts[1], parts[2]);
    assert [parts[0], parts[1], parts[2]] == parts;
    assert g.rules[VAR].body == Alt(es);
    AltUnfolds(g, PREFIXEXP, 1, es);
    assert [Expr.Empty] + dot == [Expr.Empty, Char(46), Rule(NAME)];
    assert [Expr.Empty] + at == [Expr.Empty, Char(91), Rule(EXP), Char(93)];
  }

  lemma NameUnfolds(g: Grammar, name: Expr, digit: Expr)
    requires IsLua(g, name, digit)
    ensures Unfold(g, PREFIXEXP, 1, Rule(VAR_NAME)) == [Base(Rule(VAR_NAME))]
        && Unfolds(g, PREFIXEXP, 1, Rule(VAR_NAME))
  {
    assert !Touches(g, PREFIXEXP, Rule(VAR_NAME));
  }

  // ---- its conditions ---------------------------------------------------------------------------

  /** Every body is small and refers to rules of the grammar; the others refer to no partner. */
  lemma LuaBodies(g: Grammar, name: Expr, digit: Expr, r: RuleId)
    requires IsLua(g, name, digit) && r <= CHUNK
    ensures Shallow(g.rules[r].body) && Within(g.rules.Keys, g.rules[r].body)
    ensures !(VAR_FIELD <= r <= PREFIXEXP) ==> Within({NAME, ARGS, VAR_NAME, EXP, PREFIXEXP}, g.rules[r].body)
  {
    hide IsPartner, IsLeftRec, Serves;
  }

  lemma RowStarts(g: Grammar, r: RuleId, rest: seq<Expr>)
    requires forall x | x in rest :: Leafy(x) && (x.Rule? ==> !IsPartner(g, x.rule))
    ensures UsableIn(g, OneMode(), r, Seq([Rule(r)] + rest))
  {
    hide IsPartner, Serves;
    var e := Seq([Rule(r)] + rest);
    assert e.es[0] == Rule(r);
    forall j | 1 <= j < |e.es| ensures Usable(g, OneMode(), false, e.es[j]) { assert e.es[j] in rest; }
  }

  lemma ChoiceStarts(g: Grammar, r: RuleId, es: seq<Expr>)
    requires forall x | x in es :: UsableIn(g, OneMode(), r, x)
    ensures UsableIn(g, OneMode(), r, Alt(es))
  {
    hide IsPartner, Serves;
  }

  lemma SuffixStarts(g: Grammar, name: Expr, digit: Expr, r: RuleId)
    requires IsLua(g, name, digit) && VAR_FIELD <= r <= CALL_METHOD
    ensures UsableIn(g, OneMode(), PREFIXEXP, g.rules[r].body)
  {
    hide IsPartner, IsLeftRec, Serves, UsableIn;
    var rest := if r == VAR_FIELD then [Char(46), Rule(NAME)]
        else if r == VAR_INDEX then [Char(91), Rule(EXP), Char(93)]
        else if r == CALL_PLAIN then [Rule(ARGS)]
        else [Char(58), Rule(NAME), Rule(ARGS)];
    assert g.rules[r].body == Seq([Rule(PREFIXEXP)] + rest);
    RowStarts(g, PREFIXEXP, rest);
  }

  /** The partners and prefixexp start with prefixexp or one of its partners. */
  lemma LuaStarts(g: Grammar, name: Expr, digit: Expr, r: RuleId)
    requires IsLua(g, name, digit) && VAR_FIELD <= r <= PREFIXEXP
    ensures UsableIn(g, OneMode(), PREFIXEXP, g.rules[r].body)
  {
    hide IsPartner, IsLeftRec, Serves;
    if r <= CALL_METHOD {
      SuffixStarts(g, name, digit, r);
    } else if r == VAR {
      ChoiceStarts(g, PREFIXEXP, [Rule(VAR_FIELD), Rule(VAR_INDEX), Rule(VAR_NAME)]);
    } else if r == FUNCTIONCALL {
      ChoiceStarts(g, PREFIXEXP, [Rule(CALL_METHOD), Rule(CALL_PLAIN)]);
    } else {
      var paren := Seq([Char(40), Rule(EXP), Char(41)]);
      assert paren.es[0] == Char(40) && paren.es[1] == Rule(EXP) && paren.es[2] == Char(41);
      ChoiceStarts(g, PREFIXEXP, [Rule(FUNCTIONCALL), Rule(VAR), paren]);
    }
  }

  lemma LuaFits(g: Grammar, name: Expr, digit: Expr)
    requires IsLua(g, name, digit)
    ensures WellFormed(g, OneMode()) && Termination.Terminating(g)
  {
    hide LuaBody, IsPartner, IsLeftRec, Usable, UsableIn, CutsEnclosed, CutFree, Calm, Termination.Closed, Shallow,
        Within;
    forall r | r in g.rules
      ensures CutFree(g.rules[r].body) && CutsEnclosed(g.rules[r].body) && Termination.Closed(g, g.rules[r].body)
      ensures VAR_FIELD <= r <= PREFIXEXP ==>
                UsableIn(g, OneMode(), PREFIXEXP, g.rules[r].body)
      ensures !(VAR_FIELD <= r <= PREFIXEXP) ==> Usable(g, OneMode(), false, g.rules[r].body)
    {
      LuaBodies(g, name, digit, r);
      ShallowFacts(g, g.rules.Keys, g.rules[r].body);
      if VAR_FIELD <= r <= PREFIXEXP { LuaStarts(g, name, digit, r); }
      else { ShallowFacts(g, {NAME, ARGS, VAR_NAME, EXP, PREFIXEXP}, g.rules[r].body); }
    }
    assert NoCuts(g);
    LuaOwners(g, name, digit);
  }

  lemma LuaOwners(g: Grammar, name: Expr, digit: Expr)
    requires IsLua(g, name, digit)
    ensures forall m | IsPartner(g, m) :: Owner(g, m) == PREFIXEXP
  {
    hide LuaBody;
    forall m | IsPartner(g, m) ensures Owner(g, m) == PREFIXEXP { assert Serves(g, m, PREFIXEXP); }
  }

  // ---- its ranks --------------------------------------------------------------------------------

  function LuaRank(r: RuleId): nat {
    if r == VAR_NAME || r == FUNCTIONCALL then 1
    else if r == VAR then 2
    else if r >= PREFIXEXP then r - 6
    else 0
  }

  /** Every rule consumes. */
  function LuaRanking(g: Grammar): Totality.Ranking {
    Totality.Ranking(g, g.rules.Keys, (r: RuleId) => if r <= CHUNK then LuaRank(r) else 0, 6)
  }

  lemma LuaRanked(g: Grammar, name: Expr, digit: Expr)
    requires IsLua(g, name, digit)
    ensures Totality.Ranked(LuaRanking(g))
  {
    LuaOwners(g, name, digit);
    forall r | r in g.rules ensures Totality.RankedRule(LuaRanking(g), r) {
      if r == VAR || r == FUNCTIONCALL || r == PREFIXEXP { ChoicesRanked(g, name, digit, r); }
      else if VAR_FIELD <= r <= CALL_METHOD { SuffixRanked(g, name, digit, r); }
      else { OthersRanked(g, name, digit, r); }
    }
    hide LuaBody, Totality.RankedRule;
  }

  lemma SuffixRanked(g: Grammar, name: Expr, digit: Expr, r: RuleId)
    requires IsLua(g, name, digit) && VAR_FIELD <= r <= CALL_METHOD && IsPartner(g, r) && Owner(g, r) == PREFIXEXP
    ensures Totality.RankedRule(LuaRanking(g), r)
  {
    hide Serves, IsLeftRec;
    var w, e := LuaRanking(g), g.rules[r].body;
    assert e.es[0] == Rule(PREFIXEXP);
    assert Totality.SafeIn(g, PREFIXEXP, e.es[0]) && Totality.LowIn(w, 0, PREFIXEXP, e.es[0])
        && Totality.EatsIn(w, PREFIXEXP, e.es[0]);
  }

  lemma ChoicesRanked(g: Grammar, name: Expr, digit: Expr, r: RuleId)
    requires IsLua(g, name, digit) && VAR <= r <= PREFIXEXP && (IsPartner(g, r) ==> Owner(g, r) == PREFIXEXP)
    ensures Totality.RankedRule(LuaRanking(g), r)
  {
    hide Serves, Totality.SafeIn, Totality.LowIn, Totality.EatsIn;
    if r == VAR {
      RefRanked(g, name, digit, VAR_FIELD, 2);
      RefRanked(g, name, digit, VAR_INDEX, 2);
      RefRanked(g, name, digit, VAR_NAME, 2);
      ChoiceRanked(g, 2, [Rule(VAR_FIELD), Rule(VAR_INDEX), Rule(VAR_NAME)]);
    } else if r == FUNCTIONCALL {
      RefRanked(g, name, digit, CALL_METHOD, 1);
      RefRanked(g, name, digit, CALL_PLAIN, 1);
      ChoiceRanked(g, 1, [Rule(CALL_METHOD), Rule(CALL_PLAIN)]);
    } else {
      var paren := Seq([Char(40), Rule(EXP), Char(41)]);
      ParenRanked(g, name, digit, paren);
      RefRanked(g, name, digit, FUNCTIONCALL, 3);
      RefRanked(g, name, digit, VAR, 3);
      ChoiceRanked(g, 3, [Rule(FUNCTIONCALL), Rule(VAR), paren]);
    }
  }

  /** A rule at the start that ranks below m. */
  lemma RefRanked(g: Grammar, name: Expr, digit: Expr, x: RuleId, m: nat)
    requires IsLua(g, name, digit) && VAR_NAME <= x <= FUNCTIONCALL && LuaRank(x) < m
    ensures Totality.SafeIn(g, PREFIXEXP, Rule(x)) && Totality.LowIn(LuaRanking(g), m, PREFIXEXP, Rule(x))
        && Totality.EatsIn(LuaRanking(g), PREFIXEXP, Rule(x))
  {
    hide LuaBody, IsLeftRec;
  }

  lemma ChoiceRanked(g: Grammar, m: nat, es: seq<Expr>)
    requires forall x | x in es ::
               && Totality.SafeIn(g, PREFIXEXP, x) && Totality.LowIn(LuaRanking(g), m, PREFIXEXP, x)
               && Totality.EatsIn(LuaRanking(g), PREFIXEXP, x)
    ensures Totality.SafeIn(g, PREFIXEXP, Alt(es)) && Totality.LowIn(LuaRanking(g), m, PREFIXEXP, Alt(es))
        && Totality.EatsIn(LuaRanking(g), PREFIXEXP, Alt(es))
  {
    hide Serves, IsPartner;
  }

  lemma ParenRanked(g: Grammar, name: Expr, digit: Expr, paren: Expr)
    requires IsLua(g, name, digit) && paren == Seq([Char(40), Rule(EXP), Char(41)])
    ensures Totality.SafeIn(g, PREFIXEXP, paren) && Totality.LowIn(LuaRanking(g), 3, PREFIXEXP, paren)
        && Totality.EatsIn(LuaRanking(g), PREFIXEXP, paren)
  {
    hide LuaBody, IsLeftRec, Serves;
    var w := LuaRanking(g);
    assert paren.es[0] == Char(40) && paren.es[1] == Rule(EXP) && paren.es[2] == Char(41);
    assert Totality.SafeIn(g, PREFIXEXP, paren.es[0]) && Totality.LowIn(w, 3, PREFIXEXP, paren.es[0])
        && Totality.EatsIn(w, PREFIXEXP, paren.es[0]);
    assert Totality.Safe(g, paren.es[1]) && Totality.Safe(g, paren.es[2]);
  }

  lemma OthersRanked(g: Grammar, name: Expr, digit: Expr, r: RuleId)
    requires IsLua(g, name, digit) && r <= CHUNK && !(VAR_FIELD <= r <= PREFIXEXP)
    ensures Totality.RankedRule(LuaRanking(g), r)
  {
    var w, body := LuaRanking(g), g.rules[r].body;
    assert body.Terminal? || body.Rule? || r == ARGS || r == EXP;
    if r == ARGS { ArgsRanked(g, body); }
    else if r == EXP { ExpRanked(g, body, digit); }
    hide Serves, LuaBody, IsLeftRec;
  }

  lemma ArgsRanked(g: Grammar, body: Expr)
    requires body == Seq([Char(40), Char(41)])
    ensures Totality.Safe(g, body) && Totality.Low(LuaRanking(g), 0, body)
        && Totality.Consumes(LuaRanking(g).eats, body)
  {
    var w := LuaRanking(g);
    assert body.es[0] == Char(40) && body.es[1] == Char(41);
    assert Totality.Low(w, 0, body.es[0]) && Totality.Consumes(w.eats, body.es[0]);
    assert Totality.LowFrom(w, 0, body, 0);
  }

  lemma ExpRanked(g: Grammar, body: Expr, digit: Expr)
    requires PREFIXEXP in g.rules && !IsPartner(g, PREFIXEXP) && digit.Terminal?
    requires body == Alt([Rule(PREFIXEXP), digit])
    ensures Totality.Safe(g, body) && Totality.Low(LuaRanking(g), 4, body)
        && Totality.Consumes(LuaRanking(g).eats, body)
  {
    var w := LuaRanking(g);
    assert body.es[0] == Rule(PREFIXEXP) && body.es[1] == digit;
    assert Totality.Low(w, 4, body.es[0]) && Totality.Consumes(w.eats, body.es[0]);
  }

  // ---- the theorem ------------------------------------------------------------------------------

  /** What follows a name or a parenthesis: any number of calls, fields and indices. */
  const LUA_SUFFIXES := Rep(Alt([LUA_ARMS[0].e, LUA_ARMS[1].e, LUA_ARMS[2].e, LUA_ARMS[3].e]), 0, -1)

  /** A name with suffixes, or an expression in parentheses with suffixes. */
  const LUA_PREFIX :=
    Alt([Seq([Rule(VAR_NAME), LUA_SUFFIXES]), Seq([Seq([Char(40), Rule(EXP), Char(41)]), LUA_SUFFIXES])])

  lemma LuaIteration()
    ensures Iteration(LUA_ARMS) == LUA_PREFIX
  {
    var t := Tails(LUA_ARMS, 4);
    assert Tails(LUA_ARMS, 1) == [LUA_ARMS[0].e];
    assert Tails(LUA_ARMS, 2) == [LUA_ARMS[0].e, LUA_ARMS[1].e];
    assert Tails(LUA_ARMS, 3) == [LUA_ARMS[0].e, LUA_ARMS[1].e, LUA_ARMS[2].e];
    assert t == [LUA_ARMS[0].e, LUA_ARMS[1].e, LUA_ARMS[2].e, LUA_ARMS[3].e];
    assert Tails(LUA_ARMS, 5) == t;
    assert Lines(LUA_ARMS, 1) == [] && Lines(LUA_ARMS, 2) == [] && Lines(LUA_ARMS, 3) == [] && Lines(LUA_ARMS, 4) == [];
    assert Lines(LUA_ARMS, 5) == [Line(LUA_ARMS, 4)];
    assert Lines(LUA_ARMS, 6) == [Line(LUA_ARMS, 4), Line(LUA_ARMS, 5)];
  }

  /** The fragment in which prefixexp is `(var_name / '(' exp ')') suffixes`. */
  ghost function LuaIterated(g: Grammar): Grammar
    requires Choice(g, PREFIXEXP, 2)
  {
    Iterated(g, PREFIXEXP, 2)
  }

  /** On every input, and after any parses that start at no suffix rule, the parser decides the fragment as the
      memo-free semantics decides the one without left recursion, in which prefixexp is a name or a parenthesis and any
      number of suffixes. */
  lemma LuaIsIterated(letter: Sym -> bool, inp: Input, s: State)
    requires Transparency.Idle(Setting(Lua(letter), inp, OneMode()), s)
    ensures Choice(Lua(letter), PREFIXEXP, 2)
    ensures var g, h := Lua(letter), LuaIterated(Lua(letter));
            var a := PegRun(h, inp, Totality.Enough(LuaRanking(g), inp), CHUNK, s.pos);
            && PREFIXEXP in h.rules && !IsLeftRec(h, PREFIXEXP) && h.rules[PREFIXEXP].body == LUA_PREFIX
            && a.Some? && Parsing.Decided(Run(g, inp, Termination.Depth(g, inp), CHUNK, s), a.value)
  {
    var name, digit := Terminal(Satisfying(letter), Item(Range, [])), Terminal(Between(48, 57), Item(Range, []));
    LuaIs(letter);
    hide Lua;
    Iterates(Lua(letter), name, digit, inp, s);
  }

  lemma Iterates(g: Grammar, name: Expr, digit: Expr, inp: Input, s: State)
    requires IsLua(g, name, digit) && Transparency.Idle(Setting(g, inp, OneMode()), s)
    ensures Choice(g, PREFIXEXP, 2)
    ensures var h := LuaIterated(g);
            var a := PegRun(h, inp, Totality.Enough(LuaRanking(g), inp), CHUNK, s.pos);
            && PREFIXEXP in h.rules && !IsLeftRec(h, PREFIXEXP) && h.rules[PREFIXEXP].body == LUA_PREFIX
            && a.Some? && Parsing.Decided(Run(g, inp, Termination.Depth(g, inp), CHUNK, s), a.value)
  {
    hide LuaBody, Run, PegRun, Iterated, WellFormed, Sound, Termination.Terminating, Termination.Depth, Unfold, Unfolds,
        Totality.Ranked, Totality.Enough, Iteration, Transparency.Idle, Elimination.BaseConsumes, Totality.Consumes;
    var w, k := LuaRanking(g), Totality.Enough(LuaRanking(g), inp);
    var c := Setting(g, inp, OneMode());
    LuaUnfolds(g, name, digit);
    LuaIteration();
    LuaFits(g, name, digit);
    LuaRanked(g, name, digit);
    BasesConsume(g, name, digit);
    Elimination.RankedBasesConsume(w, inp, PREFIXEXP, 2);
    IdleIsGood(c, s);
    Totality.EveryParseHasAnAnswer(w, inp, k, CHUNK, s.pos);
    Elimination.OnlyOneRule(g, PREFIXEXP, 2, PREFIXEXP);
    Parsing.AlwaysLive(c, Termination.Depth(g, inp), CHUNK, s);
    Parsing.GrownIsIterated(c, PREFIXEXP, 2, Termination.Depth(g, inp), CHUNK, k, s);
  }

  lemma BasesConsume(g: Grammar, name: Expr, digit: Expr)
    requires IsLua(g, name, digit)
    ensures forall a | a in LUA_ARMS && a.Base? :: Totality.Consumes(LuaRanking(g).eats, a.e)
  {
    hide LuaBody;
    var paren := Seq([Char(40), Rule(EXP), Char(41)]);
    assert paren.es[0] == Char(40);
    assert Totality.Consumes(LuaRanking(g).eats, paren.es[0]);
  }
}
