/** Where the properties end: with concrete grammars, what the parser does when a cut runs inside left recursion, a
    rule is reached in both skip modes, a cut is not enclosed in its rule body, or a body is not typed. */
module Limits {
  import opened Grammars
  import opened Machine
  import opened Peg
  import opened Forms
  import opened LeftRecursion
  import Folds
  import Invocations
  import Values

  function Plainly(name: string, body: Expr): RuleDef { RuleDef(name, "", body, None, false) }

  function Char(c: Sym): Expr { Terminal(One(c), Item(Literal, [])) }

  ghost predicate Ends(a: Option<Answer>, out: Out) { a.Some? && a.value.out == out }

  // ---- small expressions ------------------------------------------------------------------------

  /** Two children in a row, with auto-skip off. */
  function InTurn(g: Grammar, inp: Input, fuel: nat, a: Expr, b: Expr, s: State): (r: Result)
    requires Good(inp, s)
  {
    var n := |s.arena|;
    var r1 := Parse(g, inp, fuel, false, a, Alloc(s, s.pos, 0));
    if r1.out.Fail? then Result(Fail, r1.st.(pos := s.pos))
    else if !r1.out.Ok? then r1
    else
      var s1 := PushChild(r1.st, n, r1.out.tree);
      var r2 := Parse(g, inp, fuel, false, b, s1);
      if r2.out.Fail? then Result(Fail, r2.st.(pos := s.pos))
      else if !r2.out.Ok? then r2
      else Result(Ok(Some(n)), SetEnd(PushChild(r2.st, n, r2.out.tree), n))
  }

  lemma SeqOfTwo(g: Grammar, inp: Input, fuel: nat, a: Expr, b: Expr, s: State)
    requires Good(inp, s)
    ensures Parse(g, inp, fuel, false, Seq([a, b]), s) == InTurn(g, inp, fuel, a, b, s)
  {
    var e := Seq([a, b]);
    var n := |s.arena|;
    assert e.es[0] == a && e.es[1] == b;
    var r1 := Parse(g, inp, fuel, false, a, Alloc(s, s.pos, 0));
    if r1.out.Ok? {
      var s1 := PushChild(r1.st, n, r1.out.tree);
      var r2 := Parse(g, inp, fuel, false, b, s1);
      assert SeqFrom(g, inp, fuel, false, e, 1, n, s1) == SeqNext(g, inp, fuel, false, e, 1, n, s1);
      if r2.out.Ok? {
        var s2 := PushChild(r2.st, n, r2.out.tree);
        assert SeqFrom(g, inp, fuel, false, e, 2, n, s2) == Result(Ok(Some(n)), SetEnd(s2, n));
      }
    }
    assert SeqFrom(g, inp, fuel, false, e, 0, n, Alloc(s, s.pos, 0)) == SeqNext(g, inp, fuel, false, e, 0, n,
        Alloc(s, s.pos, 0));
  }

  // ---- a cut under left recursion ---------------------------------------------------------------

  const COMMIT := Alt([Seq([Char(1), Expr.Cut]), Char(2)])

  /** The committed choice matches one element and drops every entry before its end. */
  lemma CommitEvicts(g: Grammar, inp: Input, fuel: nat, s: State)
    requires Good(inp, s) && s.pos < |inp| && inp[s.pos] == 1
    ensures var r := Parse(g, inp, fuel, false, COMMIT, s);
            && r.out.Ok? && r.st.pos == s.pos + 1 && r.st.scope == s.scope && r.st.lr == s.lr
            && forall k | k in r.st.memo :: k.pos > s.pos
  {
    hide SeqFrom;
    var s0 := OpenScope(s);
    SeqOfTwo(g, inp, fuel, Char(1), Expr.Cut, s0);
    var r := Parse(g, inp, fuel, false, COMMIT.es[0], s0);
    assert r.out.Ok? && r.st.scope == Some(CutRecord(s.pos + 1, true)) && r.st.pos == s.pos + 1;
    var w := AltFrom(g, inp, fuel, false, COMMIT, 0, s0);
    assert w.out.Ok? && w.st.scope == Some(CutRecord(s.pos + 1, true));
    assert Parse(g, inp, fuel, false, COMMIT, s) == Result(w.out, CloseScope(w.st, s.scope));
  }

  /** `A = &('x' cut | 'y') A`: the lookahead commits a cut behind A's start, whose scope evicts the
      entry that marks A as being evaluated there. */
  const LOOPING := Grammar(map[0 := Plainly("A", Seq([And(COMMIT), Rule(0)]))], None, {}, map[], {})

  /** The lookahead matches, and drops every entry before position 1. */
  lemma LookaheadEvicts(fuel: nat, s: State)
    requires Good([1], s) && s.pos == 0
    ensures var r := Parse(LOOPING, [1], fuel, false, And(COMMIT), s);
            r.out == Ok(None) && r.st.pos == 0 && forall k | k in r.st.memo :: k.pos >= 1
  {
    CommitEvicts(LOOPING, [1], fuel, s);
    hide AltFrom;
  }

  lemma StuckBody(g: Grammar, inp: Input, fuel: nat, rule: RuleId, s: State)
    requires Good(inp, s) && fuel > 0 && rule in g.rules && Key(s.pos, rule) !in s.memo
    requires Parse(g, inp, fuel - 1, false, g.rules[rule].body,
        Restart(inp, Key(s.pos, rule), Fail, Enter(s, Key(s.pos, rule)))).out.Stuck?
    ensures Call(g, inp, fuel, false, rule, s).out.Stuck?
  {
    hide Parse, Restart, Complete, Reject;
  }

  lemma StuckSecond(g: Grammar, inp: Input, fuel: nat, a: Expr, rule: RuleId, s: State)
    requires Good(inp, s)
    requires var r := Parse(g, inp, fuel, false, a, Alloc(s, s.pos, 0));
             r.out == Ok(None) && Call(g, inp, fuel, false, rule, r.st).out.Stuck?
    ensures Parse(g, inp, fuel, false, Seq([a, Rule(rule)]), s).out.Stuck?
  {
    hide Call;
    SeqOfTwo(g, inp, fuel, a, Rule(rule), s);
  }

  /** No fuel is enough: the parse of A on "x" re-enters A as if for the first time, forever. */
  lemma {:induction false} CutsMakeLeftRecursionDiverge(fuel: nat, s: State)
    requires Good([1], s) && s.pos == 0 && Key(0, 0) !in s.memo
    ensures Call(LOOPING, [1], fuel, false, 0, s).out.Stuck?
    decreases fuel
  {
    if fuel > 0 {
      hide Parse, Call;
      var s1 := Restart([1], Key(0, 0), Fail, Enter(s, Key(0, 0)));
      LookaheadEvicts(fuel - 1, Alloc(s1, 0, 0));
      CutsMakeLeftRecursionDiverge(fuel - 1, Parse(LOOPING, [1], fuel - 1, false, And(COMMIT), Alloc(s1, 0, 0)).st);
      StuckSecond(LOOPING, [1], fuel - 1, And(COMMIT), 0, s1);
      StuckBody(LOOPING, [1], fuel, 0, s);
    } else {
      hide Parse;
    }
  }

  // ---- a cut inside growth ----------------------------------------------------------------------

  /** `A = A 'c' / ('x' cut | 'y')`: the base commits a cut behind A's start, whose scope evicts A's entry. */
  const STUNTED := Grammar(map[0 := Plainly("A", Alt([Seq([Rule(0), Char(3)]), COMMIT]))], None, {0}, map[], {})

  /** The first iteration: the recursion fails, the base matches, and the entry of A is gone. */
  lemma FirstIteration(g: Grammar, inp: Input, fuel: nat, e: Expr, s: State)
    requires Good(inp, s) && s.pos < |inp| && inp[s.pos] == 1 && e == Alt([Seq([Rule(0), Char(3)]), COMMIT])
    requires Key(s.pos, 0) in s.memo && !s.memo[Key(s.pos, 0)].ok
    ensures var r := Parse(g, inp, fuel, false, e, s);
            r.out.Ok? && r.st.pos == s.pos + 1 && Key(s.pos, 0) !in r.st.memo
  {
    hide SeqFrom;
    var s0 := OpenScope(s);
    SeqOfTwo(g, inp, fuel, Rule(0), Char(3), s0);
    assert e.es[0] == Seq([Rule(0), Char(3)]) && e.es[1] == COMMIT;
    var n0 := Alloc(s0, s.pos, 0);
    assert EntryGood(inp, s.arena, Key(s.pos, 0), s.memo[Key(s.pos, 0)]);
    assert Parse(g, inp, fuel, false, Rule(0), n0) == Result(Fail, MarkHead(n0, Key(s.pos, 0)).(pos := s.pos));
    var s1 := Parse(g, inp, fuel, false, e.es[0], s0);
    assert s1.out.Fail? && s1.st.pos == s.pos && !CutSet(s1.st);
    CommitEvicts(g, inp, fuel, s1.st);
    assert AltFrom(g, inp, fuel, false, e, 0, s0) == AltFrom(g, inp, fuel, false, e, 1, s1.st);
  }

  /** On "xc" the parser stops behind the x and forgets that it was there, where growth would go on. */
  lemma CutsStopGrowth(fuel: nat, k: nat, s: State)
    requires Good([1, 3], s) && s.pos == 0 && Key(0, 0) !in s.memo && fuel > 0 && k > 0
    ensures var r := Call(STUNTED, [1, 3], fuel, false, 0, s);
            r.out.Ok? && r.st.pos == 1 && Key(0, 0) !in r.st.memo
    ensures Ends(PegCall(STUNTED, [1, 3], k, false, 0, 0), Yes(2))
  {
    var e := STUNTED.rules[0].body;
    var s1 := Restart([1, 3], Key(0, 0), Fail, Enter(s, Key(0, 0)));
    FirstIteration(STUNTED, [1, 3], fuel - 1, e, s1);
    GrowthGoesOn(STUNTED, [1, 3], k - 1, e);
    hide Parse, PegIn, SeqFrom;
  }

  lemma GrowthGoesOn(g: Grammar, inp: Input, k: nat, e: Expr)
    requires 0 in g.rules && g.rules[0].body == e && e == Alt([Seq([Rule(0), Char(3)]), COMMIT]) && inp == [1, 3]
    requires g.skipper.None?
    ensures Ends(PegGrow(g, inp, k, false, 0, 0, None), Yes(2))
  {
    hide PegIn;
    BodyIn(g, inp, k, e, None);
    BodyIn(g, inp, k, e, Some(1));
    BodyIn(g, inp, k, e, Some(2));
    assert Ends(PegGrow(g, inp, k, false, 0, 0, Some(2)), Yes(2));
    assert Ends(PegGrow(g, inp, k, false, 0, 0, Some(1)), Yes(2));
  }

  /** x without a seed, c behind it, and x again when nothing follows. */
  lemma BodyIn(g: Grammar, inp: Input, k: nat, e: Expr, seed: Option<nat>)
    requires e == Alt([Seq([Rule(0), Char(3)]), COMMIT]) && inp == [1, 3] && g.skipper.None?
    requires seed.Some? ==> 0 < seed.value <= 2
    ensures Ends(PegIn(g, inp, k, false, 0, e, 0, seed), Yes(if seed == Some(1) then 2 else 1))
  {
    var row := Seq([Rule(0), Char(3)]);
    assert e.es[0] == row && e.es[1] == COMMIT;
    RowIn(g, inp, k, row, seed);
    CommitIn(g, inp, k, seed);
    assert PegIn(g, inp, k, false, 0, e, 0, seed) == PegInAlt(g, inp, k, false, 0, e, 0, 0, seed);
    BranchesIn(g, inp, k, e, seed);
  }

  lemma BranchesIn(g: Grammar, inp: Input, k: nat, e: Expr, seed: Option<nat>)
    requires e.Alt? && |e.es| == 2 && (seed.Some? ==> 0 < seed.value <= |inp|)
    requires var a, b := PegIn(g, inp, k, false, 0, e.es[0], 0, seed), PegIn(g, inp, k, false, 0, e.es[1], 0, seed);
             a.Some? && b.Some? && !b.value.out.No?
    ensures var a, b := PegIn(g, inp, k, false, 0, e.es[0], 0, seed), PegIn(g, inp, k, false, 0, e.es[1], 0, seed);
            Ends(PegInAlt(g, inp, k, false, 0, e, 0, 0, seed),
                if a.value.out.No? then b.value.out else a.value.out)
  {
    hide PegIn;
    assert PegInAlt(g, inp, k, false, 0, e, 1, 0, seed) == PegIn(g, inp, k, false, 0, e.es[1], 0, seed);
  }

  lemma RowIn(g: Grammar, inp: Input, k: nat, row: Expr, seed: Option<nat>)
    requires row == Seq([Rule(0), Char(3)]) && inp == [1, 3] && g.skipper.None? && (seed.Some? ==> 0 < seed.value <= 2)
    ensures Ends(PegIn(g, inp, k, false, 0, row, 0, seed), if seed == Some(1) then Yes(2) else No)
  {
    assert row.es[0] == Rule(0) && row.es[1] == Char(3);
    if seed.Some? {
      assert Ends(PegSeq(g, inp, k, false, row, 2, 2, false), Yes(2));
      assert Ends(PegSeqNext(g, inp, k, false, row, 1, seed.value, false), if seed == Some(1) then Yes(2) else No);
      assert Ends(PegSeq(g, inp, k, false, row, 1, seed.value, false), if seed == Some(1) then Yes(2) else No);
    }
  }

  lemma CommitIn(g: Grammar, inp: Input, k: nat, seed: Option<nat>)
    requires inp == [1, 3] && (seed.Some? ==> 0 < seed.value <= |inp|) && g.skipper.None?
    ensures Ends(PegIn(g, inp, k, false, 0, COMMIT, 0, seed), Yes(1))
  {
    var row := COMMIT.es[0];
    assert row.es[0] == Char(1) && row.es[1] == Expr.Cut;
    assert Ends(PegSeq(g, inp, k, false, row, 2, 1, true), Yes(1));
    assert Ends(PegSeqNext(g, inp, k, false, row, 1, 1, false), Yes(1));
    assert Ends(PegSeq(g, inp, k, false, row, 1, 1, false), Yes(1));
    assert PegIn(g, inp, k, false, 0, row.es[0], 0, seed) == Some(Answer(Yes(1), false, {}));
    assert Ends(PegIn(g, inp, k, false, 0, row, 0, seed), Yes(1));
    assert Ends(PegInAlt(g, inp, k, false, 0, COMMIT, 0, 0, seed), Yes(1));
  }

  /** `stmt = 'l' cut expr ';' / expr ';'; expr = expr '+' n / n`: cuts beside a left-recursive rule, not inside. */
  const BESIDE := Grammar(map[
    0 := Plainly("stmt", Alt([Seq([Char(1), Expr.Cut, Rule(1), Char(2)]), Seq([Rule(1), Char(2)])])),
    1 := Plainly("expr", Alt([Seq([Rule(1), Char(3), Char(4)]), Char(4)]))], None, {1}, map[], {1})

  /** These are fine. */
  lemma CutsBesideGrowth()
    ensures WellFormed(BESIDE, OneMode()) && !NoCuts(BESIDE) && IsLeftRec(BESIDE, 1)
  {
    var g := BESIDE;
    assert g.rules.Keys == {0, 1} && !IsPartner(g, 0) && !IsPartner(g, 1);
    StmtFits(g, g.rules[0].body);
    ExprFits(g, g.rules[1].body);
    hide Usable, UsableIn, CutsEnclosed, Calm, CutFree;
  }

  lemma StmtFits(g: Grammar, e: Expr)
    requires e == Alt([Seq([Char(1), Expr.Cut, Rule(1), Char(2)]), Seq([Rule(1), Char(2)])]) && !IsPartner(g, 1)
    ensures Usable(g, OneMode(), false, e) && CutsEnclosed(e) && !CutFree(e)
  {
    hide IsPartner;
    assert e.es[0].es[1] == Expr.Cut && !CutFree(e.es[0].es[1]);
    assert !CutFree(e.es[0]);
    assert Usable(g, OneMode(), false, e.es[0]) && Usable(g, OneMode(), false, e.es[1]);
  }

  lemma ExprFits(g: Grammar, e: Expr)
    requires e == Alt([Seq([Rule(1), Char(3), Char(4)]), Char(4)]) && 1 in g.quiet
    ensures UsableIn(g, OneMode(), 1, e) && CutsEnclosed(e) && Calm(g, e)
  {
    hide IsPartner, NoCuts;
    assert e.es[0] == Seq([Rule(1), Char(3), Char(4)]) && e.es[1] == Char(4);
    assert UsableIn(g, OneMode(), 1, e.es[0]) && UsableIn(g, OneMode(), 1, e.es[1]);
    assert Calm(g, e.es[0]) && Calm(g, e.es[1]);
  }

  // ---- one rule in two auto-skip modes ----------------------------------------------------------

  /** Rule 1 skips blanks (0), rule 2 is the pair 1 2. */
  const SKIPPY := Grammar(map[
    1 := Plainly("ws", Rep(Char(0), 0, -1)),
    2 := Plainly("pair", Seq([Char(1), Char(2)]))], Some(1), {}, map[], {})

  const EITHER := Alt([Lexeme(Rule(2)), Rule(2)])

  /** What the first branch leaves behind: a failure entry for rule 2. */
  lemma PairFailsInLexeme(fuel: nat, s: State)
    requires Good([1, 0, 2], s) && s.pos == 0 && Key(0, 2) !in s.memo && fuel > 0
    ensures var r := Call(SKIPPY, [1, 0, 2], fuel, false, 2, s);
            r.out.Fail? && r.st.pos == 0 && r.st.scope == s.scope && Key(0, 2) in r.st.memo
                && r.st.memo[Key(0, 2)] == Entry(false, 0, None)
  {
    hide SeqFrom, AltFrom;
    var s1 := Restart([1, 0, 2], Key(0, 2), Fail, Enter(s, Key(0, 2)));
    SeqOfTwo(SKIPPY, [1, 0, 2], fuel - 1, Char(1), Char(2), s1);
    var r := Parse(SKIPPY, [1, 0, 2], fuel - 1, false, SKIPPY.rules[2].body, s1);
    assert r.out.Fail? && r.st.memo == s1.memo;
    assert Grow(SKIPPY, [1, 0, 2], fuel - 1, false, Key(0, 2), 0, Fail, Enter(s, Key(0, 2))) == Result(Fail,
        r.st.(pos := 0));
  }

  lemma BlankIsSkipped(k: nat)
    requires k >= 1
    ensures Ends(PegSkip(SKIPPY, [1, 0, 2], k, true, 1), Yes(2))
  {
    var inp, ws := [1, 0, 2], SKIPPY.rules[1].body;
    assert Ends(PegRepTry(SKIPPY, inp, k - 1, false, ws, 1, 2, 2), Yes(2));
    assert Ends(PegRep(SKIPPY, inp, k - 1, false, ws, 1, 2), Yes(2));
    assert Ends(PegRepTry(SKIPPY, inp, k - 1, false, ws, 0, 1, 1), Yes(2));
    assert Ends(PegRep(SKIPPY, inp, k - 1, false, ws, 0, 1), Yes(2));
    assert Ends(Peg.Peg(SKIPPY, inp, k - 1, false, ws, 1, false), Yes(2));
    assert Ends(PegCall(SKIPPY, inp, k, false, 1, 1), Yes(2));
  }

  lemma PairMatchesSkipping(k: nat)
    requires k >= 2
    ensures Ends(PegCall(SKIPPY, [1, 0, 2], k, true, 2, 0), Yes(3))
  {
    hide PegSkip;
    var inp, body := [1, 0, 2], SKIPPY.rules[2].body;
    BlankIsSkipped(k - 1);
    assert body.es[0] == Char(1) && body.es[1] == Char(2);
    assert Ends(PegSeq(SKIPPY, inp, k - 1, true, body, 2, 3, false), Yes(3));
    assert Ends(PegSeqNext(SKIPPY, inp, k - 1, true, body, 1, 2, false), Yes(3));
    assert Ends(PegSeq(SKIPPY, inp, k - 1, true, body, 1, 1, false), Yes(3));
    assert Ends(PegSeqNext(SKIPPY, inp, k - 1, true, body, 0, 0, false), Yes(3));
    assert Ends(PegSeq(SKIPPY, inp, k - 1, true, body, 0, 0, false), Yes(3));
    assert Ends(Peg.Peg(SKIPPY, inp, k - 1, true, body, 0, false), Yes(3));
  }

  /** The memo does not record the mode: after the lexeme branch failed, the skipping branch fails too,
      although it matches without a memo. */
  lemma ModesShareEntries(fuel: nat, k: nat)
    requires fuel > 0 && k >= 2
    ensures Parse(SKIPPY, [1, 0, 2], fuel, true, EITHER, FRESH).out.Fail?
    ensures Ends(Peg.Peg(SKIPPY, [1, 0, 2], k, true, EITHER, 0, false), Yes(3))
  {
    EitherFails(fuel);
    EitherMatchesUnmemoised(k);
  }

  lemma EitherFails(fuel: nat)
    requires fuel > 0
    ensures Parse(SKIPPY, [1, 0, 2], fuel, true, EITHER, FRESH).out.Fail?
  {
    hide Call;
    var inp, s := [1, 0, 2], OpenScope(FRESH);
    PairFailsInLexeme(fuel, s);
    var r := Call(SKIPPY, inp, fuel, false, 2, s);
    SecondHit(fuel, r.st);
    assert Parse(SKIPPY, inp, fuel, true, EITHER.es[0], s) == r;
    assert AltFrom(SKIPPY, inp, fuel, true, EITHER, 1, r.st).out.Fail?;
  }

  lemma EitherMatchesUnmemoised(k: nat)
    requires k >= 2
    ensures Ends(Peg.Peg(SKIPPY, [1, 0, 2], k, true, EITHER, 0, false), Yes(3))
  {
    hide PegCall;
    var inp := [1, 0, 2];
    PairFailsUnmemoised(k);
    PairMatchesSkipping(k);
    assert EITHER.es[0] == Lexeme(Rule(2)) && EITHER.es[1] == Rule(2);
    assert Ends(Peg.Peg(SKIPPY, inp, k, true, EITHER.es[1], 0, false), Yes(3));
    assert Ends(PegAlt(SKIPPY, inp, k, true, EITHER, 1, 0), Yes(3));
    assert Peg.Peg(SKIPPY, inp, k, true, Lexeme(Rule(2)), 0, false) ==
        Peg.Peg(SKIPPY, inp, k, false, Rule(2), 0, false);
  }

  lemma SecondHit(fuel: nat, s: State)
    requires Good([1, 0, 2], s) && s.pos == 0 && Key(0, 2) in s.memo && s.memo[Key(0, 2)] == Entry(false, 0, None)
    ensures var r := Parse(SKIPPY, [1, 0, 2], fuel, true, Rule(2), s);
            r.out.Fail? && r.st.scope == s.scope
  {
  }

  lemma PairFailsUnmemoised(k: nat)
    requires k >= 1
    ensures var a := PegCall(SKIPPY, [1, 0, 2], k, false, 2, 0);
            a.Some? && a.value.out == No && !a.value.cut
  {
    var inp, body := [1, 0, 2], SKIPPY.rules[2].body;
    assert body.es[0] == Char(1) && body.es[1] == Char(2);
    assert PegSkip(SKIPPY, inp, k - 1, false, 1) == Some(Answer(Yes(1), false, {}));
    var evs := {Failure(1, Item(Literal, []))};
    assert {} + evs == evs;
    assert Peg.Peg(SKIPPY, inp, k - 1, false, Char(1), 0, false) == Some(Answer(Yes(1), false, {}));
    assert PegSeqNext(SKIPPY, inp, k - 1, false, body, 1, 1, false) == Some(Answer(No, false, evs));
    assert PegSeq(SKIPPY, inp, k - 1, false, body, 1, 1, false) == Some(Answer(No, false, evs));
    assert PegSeqNext(SKIPPY, inp, k - 1, false, body, 0, 0, false) == Some(Answer(No, false, evs));
    assert PegSeq(SKIPPY, inp, k - 1, false, body, 0, 0, false) == Some(Answer(No, false, evs));
  }

  // ---- a cut at the top of a rule body ----------------------------------------------------------

  /** Rule 1 is a bare cut. */
  const COMMITTING := Grammar(map[1 := Plainly("cut", Expr.Cut)], None, {}, map[], {})

  const GUARDED := Alt([Seq([Rule(1), Char(2)]), Char(1)])

  lemma FirstCutIsSet(fuel: nat, s: State)
    requires Good([1], s) && s.pos == 0 && Key(0, 1) !in s.memo && fuel > 0
    ensures var r := Call(COMMITTING, [1], fuel, false, 1, s);
            && r.out.Ok? && r.st.pos == 0 && r.st.scope == SetCut(s, true).scope
            && Key(0, 1) in r.st.memo && r.st.memo[Key(0, 1)].ok && r.st.memo[Key(0, 1)].end == 0
  {
    var s1 := Restart([1], Key(0, 1), Fail, Enter(s, Key(0, 1)));
    var r := Parse(COMMITTING, [1], fuel - 1, false, Expr.Cut, s1);
    assert COMMITTING.rules[1].body == Expr.Cut;
    assert Grow(COMMITTING, [1], fuel - 1, false, Key(0, 1), 0, Fail, Enter(s, Key(0, 1))) == Settle([1], Key(0, 1),
        0, r.out, r.st);
  }

  /** A failed first branch of GUARDED aborts iff it set the cut. */
  lemma GuardedBranch(fuel: nat, s: State)
    requires Good([1], s) && s.pos == 0
    requires var r := Call(COMMITTING, [1], fuel, false, 1, Alloc(OpenScope(s), 0, 0));
             r.out.Ok? && r.st.pos == 0 && r.st.scope.Some?
    ensures var r := Call(COMMITTING, [1], fuel, false, 1, Alloc(OpenScope(s), 0, 0));
            var whole := Parse(COMMITTING, [1], fuel, false, GUARDED, s);
            if r.st.scope.value.cut then whole.out.Abort? else whole.out.Ok? && whole.st.pos == 1
  {
    hide Call, SeqFrom;
    var s0 := OpenScope(s);
    SeqOfTwo(COMMITTING, [1], fuel, Rule(1), Char(2), s0);
    var r := Parse(COMMITTING, [1], fuel, false, GUARDED.es[0], s0);
    assert r.out.Fail? && r.st.pos == 0;
    assert AltFrom(COMMITTING, [1], fuel, false, GUARDED, 1, r.st).out.Ok?;
  }

  /** A memo hit does not replay a cut: the same expression at the same place aborts at first, and matches
      once rule 1 was parsed there before. */
  lemma MemoHitsForgetCuts(fuel: nat, s: State)
    requires Good([1], s) && s.pos == 0 && s.scope.None? && Key(0, 1) !in s.memo && fuel > 0
    ensures Parse(COMMITTING, [1], fuel, false, GUARDED, s).out.Abort?
    ensures var warm := Call(COMMITTING, [1], fuel, false, 1, s).st;
            Parse(COMMITTING, [1], fuel, false, GUARDED, warm).out.Ok?
  {
    FirstCutIsSet(fuel, Alloc(OpenScope(s), 0, 0));
    GuardedBranch(fuel, s);
    FirstCutIsSet(fuel, s);
    var warm := Call(COMMITTING, [1], fuel, false, 1, s).st;
    GuardedBranch(fuel, warm);
  }

  // ---- left recursion that does not grow --------------------------------------------------------

  /** A left-recursive rule whose first branch is a base branch that matches never gets past it: ordered
      choice takes the base again in every iteration. */
  lemma BaseFirstNeverGrows(g: Grammar, inp: Input, k: nat, skip: bool, r: RuleId, i: nat)
    requires i <= |inp| && r in g.rules && g.rules[r].body.Alt? && |g.rules[r].body.es| > 0
    requires !Touches(g, r, g.rules[r].body.es[0]) && CutFree(g.rules[r].body.es[0])
    requires var b := Peg.Peg(g, inp, k, skip, g.rules[r].body.es[0], i, false); b.Some? && b.value.out.Yes?
    ensures var a, b := PegGrow(g, inp, k, skip, r, i, None), Peg.Peg(g, inp, k, skip, g.rules[r].body.es[0], i, false);
            a.Some? && a.value.out == b.value.out
  {
    var b := Peg.Peg(g, inp, k, skip, g.rules[r].body.es[0], i, false).value.out;
    BaseFirst(g, inp, k, skip, r, i, None);
    if b.end > i { BaseFirst(g, inp, k, skip, r, i, Some(b.end)); }
  }

  lemma BaseFirst(g: Grammar, inp: Input, k: nat, skip: bool, r: RuleId, i: nat, seed: Option<nat>)
    requires i <= |inp| && r in g.rules && g.rules[r].body.Alt? && |g.rules[r].body.es| > 0
    requires !Touches(g, r, g.rules[r].body.es[0]) && CutFree(g.rules[r].body.es[0])
    requires seed.Some? ==> i < seed.value <= |inp|
    requires var b := Peg.Peg(g, inp, k, skip, g.rules[r].body.es[0], i, false); b.Some? && b.value.out.Yes?
    ensures var a := PegIn(g, inp, k, skip, r, g.rules[r].body, i, seed);
            a.Some? && a.value.out == Peg.Peg(g, inp, k, skip, g.rules[r].body.es[0], i, false).value.out
  {
    hide Peg.Peg, CutFree;
    Untouched(g, inp, k, skip, r, g.rules[r].body.es[0], i, seed);
    assert PegIn(g, inp, k, skip, r, g.rules[r].body, i, seed) ==
        PegInAlt(g, inp, k, skip, r, g.rules[r].body, 0, i, seed);
  }

  // ---- folds ------------------------------------------------------------------------------------

  const NO_RULES := Grammar(map[], None, {}, map[], {})

  function Kept(c: Sym): Expr { Token(One(c), Item(Literal, [])) }

  /** One match of x, then a failure: the repetition's node has a gap for the iteration without a tree. */
  lemma OneChar(g: Grammar, inp: Input, e: Expr, s: State)
    requires g == NO_RULES && inp == [1, 2] && e == Rep(Char(1), 0, -1) && Good(inp, s) && s.pos == 0
    ensures var r := Parse(g, inp, 0, false, e, s);
            && r.out == Ok(Some(|s.arena|)) && r.st.pos == 1
            && r.st.arena == s.arena + [BLANK.(end := 1, children := [None])]
  {
    hide RepDone, CloseScope;
    var n := |s.arena|;
    var s1 := Alloc(OpenScope(s), 0, 0);
    var s2 := SetCut(s1, false).(pos := 1);
    var s3 := Record(SetCut(s2, false), {Failure(1, Item(Literal, []))});
    CharMatches(g, inp, 1, SetCut(s1, false));
    CharFails(g, inp, 1, SetCut(s2, false));
    var d := RepDone(inp, e, 1, true, 0, n, 1, s3);
    assert RepTry(g, inp, 0, false, e, 1, 0, n, 1, SetCut(s2, false)) == d;
    assert RepFrom(g, inp, 0, false, e, 1, 0, n, s2) == d;
    assert RepTry(g, inp, 0, false, e, 0, 0, n, 0, SetCut(s1, false)) == d;
    assert RepFrom(g, inp, 0, false, e, 0, 0, n, s1) == d;
    OneGap(inp, e, n, s, s3);
  }

  lemma CharMatches(g: Grammar, inp: Input, x: Sym, s: State)
    requires Good(inp, s) && s.pos < |inp| && inp[s.pos] == x
    ensures Parse(g, inp, 0, false, Char(x), s) == Result(Ok(None), s.(pos := s.pos + 1))
  {
  }

  lemma CharFails(g: Grammar, inp: Input, x: Sym, s: State)
    requires Good(inp, s) && s.pos < |inp| && inp[s.pos] != x
    ensures Parse(g, inp, 0, false, Char(x), s) == Result(Fail, Record(s, {Failure(s.pos, Item(Literal, []))}))
  {
  }

  lemma OneGap(inp: Input, e: Expr, n: nat, s: State, s3: State)
    requires Good(inp, s3) && e.Rep? && e.min == 0 && e.max == -1 && s.pos == 0 && 1 <= |inp| && n == |s.arena|
    requires s3.arena == s.arena + [BLANK] && !CutSet(s3)
    ensures var d := RepDone(inp, e, 1, true, 0, n, 1, s3);
            && d.out == Ok(Some(n)) && d.st.pos == 1 && d.st.arena == s.arena + [BLANK.(end := 1, children := [None])]
            && forall o :: CloseScope(d.st, o).pos == 1 && CloseScope(d.st, o).arena == d.st.arena
  {
    var none: seq<Option<nat>> := [];
    assert none + seq(1, _ => None) == [None];
    var d := RepDone(inp, e, 1, true, 0, n, 1, s3);
    assert d.st.arena == s.arena + [BLANK.(end := 1, children := [None])];
  }

  /** Why folds ask that void children of sequences build no node: in `*x token(y)` the repetition is void but
      leaves a child, which the cursor does not pass.  On "xy" it reads the element x where y was matched. */
  lemma VoidNodesShiftTheCursor(g: Grammar, inp: Input, e: Expr, s: State)
    requires g == NO_RULES && inp == [1, 2] && e == Seq([Rep(Char(1), 0, -1), Kept(2)]) && Good(inp, s)
        && s.pos == 0 && s.arena == []
    ensures Values.Void(e.es[0]) && !e.es[0].Matcher? && !Values.Treeless(e.es[0])
    ensures var r := Parse(g, inp, 0, false, e, s);
            && r.out == Ok(Some(0)) && |r.st.arena| == 3 && r.st.arena[0].children == [Some(1), Some(2)]
            && Folds.CursorAt(e.es, 1) == 0 && r.st.arena[1].start == 0
            && Folds.ReadToken(inp, r.st.arena, r.st.arena[0].children[Folds.CursorAt(e.es, 1)].value) == Values.Elem(1)
    ensures Values.Eval(g, inp, 0, false, e, 0, false) == Values.Elem(2)
  {
    VoidButBuilt(e);
    SecondValue(g, inp, e);
    assert Folds.CursorAt(e.es, 1) == Folds.CursorAt(e.es, 0);
    hide Parse, Values.Eval, Values.Void, Values.Treeless;
    assert e == Seq([e.es[0], e.es[1]]);
    TwoNodes(g, inp, e.es[0], e.es[1], s);
  }

  lemma TwoNodes(g: Grammar, inp: Input, x: Expr, y: Expr, s: State)
    requires g == NO_RULES && inp == [1, 2] && x == Rep(Char(1), 0, -1) && y == Kept(2) && Good(inp, s)
        && s.pos == 0 && s.arena == []
    ensures var r := Parse(g, inp, 0, false, Seq([x, y]), s);
            r.out == Ok(Some(0)) && |r.st.arena| == 3 && r.st.arena[0].children == [Some(1), Some(2)]
                && r.st.arena[1].start == 0
  {
    hide Parse, InTurn, Bounded;
    SeqOfTwo(g, inp, 0, x, y, s);
    OpenGood(inp, s);
    var s1 := Alloc(s, 0, 0);
    OneChar(g, inp, x, s1);
    var r1 := Parse(g, inp, 0, false, x, s1);
    PushGood(inp, r1.st, 0, r1.out.tree);
    var s2 := PushChild(r1.st, 0, r1.out.tree);
    TokenMatches(g, inp, 2, s2);
    BothPushed(g, inp, x, y, s, s2);
  }

  lemma BothPushed(g: Grammar, inp: Input, x: Expr, y: Expr, s: State, s2: State)
    requires Good(inp, s) && s.arena == [] && Good(inp, s2) && |s2.arena| == 2 && s2.pos < |inp|
    requires var r1 := Parse(g, inp, 0, false, x, Alloc(s, s.pos, 0));
             r1.out == Ok(Some(1)) && s2 == PushChild(r1.st, 0, r1.out.tree)
    requires Parse(g, inp, 0, false, y, s2) == Result(Ok(Some(2)), Alloc(s2.(pos := s2.pos + 1), s2.pos, s2.pos + 1))
    ensures var r := InTurn(g, inp, 0, x, y, s);
            r.out == Ok(Some(0)) && |r.st.arena| == 3 && r.st.arena[0].children == s2.arena[0].children + [Some(2)]
                && r.st.arena[1] == s2.arena[1]
  {
    hide Parse;
  }

  lemma VoidButBuilt(e: Expr)
    requires e == Seq([Rep(Char(1), 0, -1), Kept(2)])
    ensures Values.Void(e.es[0]) && !e.es[0].Matcher? && !Values.Treeless(e.es[0])
  {
  }

  lemma TokenMatches(g: Grammar, inp: Input, x: Sym, s: State)
    requires Good(inp, s) && s.pos < |inp| && inp[s.pos] == x
    ensures Parse(g, inp, 0, false, Kept(x), s) == Result(Ok(Some(|s.arena|)),
        Alloc(s.(pos := s.pos + 1), s.pos, s.pos + 1))
  {
  }

  lemma SecondValue(g: Grammar, inp: Input, e: Expr)
    requires g == NO_RULES && inp == [1, 2] && e == Seq([Rep(Char(1), 0, -1), Kept(2)])
    ensures Values.Eval(g, inp, 0, false, e, 0, false) == Values.Elem(2)
  {
    var rep := e.es[0];
    assert Ends(PegRepTry(g, inp, 0, false, rep, 1, 1, 1), Yes(1));
    assert Ends(PegRep(g, inp, 0, false, rep, 1, 1), Yes(1));
    assert Ends(PegRepTry(g, inp, 0, false, rep, 0, 0, 0), Yes(1));
    assert Ends(PegRep(g, inp, 0, false, rep, 0, 0), Yes(1));
    assert Ends(Peg.Peg(g, inp, 0, false, rep, 0, false), Yes(1));
    hide PegRep;
    assert e.es[1] == Kept(2);
    assert Values.EvalSeqNext(g, inp, 0, false, e, 1, 1, false) == [Values.Elem(2)] + Values.EvalSeq(g, inp, 0,
        false, e, 2, 2, false);
    assert Values.EvalSeq(g, inp, 0, false, e, 1, 1, false) == [Values.Elem(2)];
    assert Values.EvalSeqNext(g, inp, 0, false, e, 0, 0, false) == [Values.Elem(2)];
  }

  /** `pair = num num`, with an action on num only. */
  const SWALLOWING := Grammar(map[
    0 := Plainly("pair", Seq([Rule(1), Rule(1)])),
    1 := RuleDef("num", "", Kept(1), None, true)], None, {}, map[], {})

  lemma NumMatches(k: nat, i: nat)
    requires k >= 1 && i < 2
    ensures Ends(Peg.Peg(SWALLOWING, [1, 1], k, false, Rule(1), i, false), Yes(i + 1))
    ensures Invocations.OccRule(SWALLOWING, [1, 1], k, false, 1, i) == [Invocations.Occurrence(1, i, i + 1)]
  {
    assert SWALLOWING.rules[1].body == Kept(1);
    assert Ends(Peg.Peg(SWALLOWING, [1, 1], k - 1, false, Kept(1), i, false), Yes(i + 1));
    assert !IsPartner(SWALLOWING, 1) && !IsLeftRec(SWALLOWING, 1);
    assert Invocations.Occ(SWALLOWING, [1, 1], k - 1, false, Kept(1), i, false) == [];
  }

  lemma SwallowingIsTyped()
    ensures Values.TypedGrammar(SWALLOWING) && !Invocations.Handing(SWALLOWING)
  {
    var e := SWALLOWING.rules[0].body;
    assert e == Seq([Rule(1), Rule(1)]) && e.es[0] == Rule(1);
    assert !Invocations.Silent(e.es[0]) && !Invocations.Handed(e);
  }

  /** A rule without an action whose body is more than a reference swallows the actions inside: on two numbers
      both occurrences of num match, and no action runs. */
  lemma ActionsAreSwallowed(k: nat)
    requires k >= 2
    ensures var g, inp := SWALLOWING, [1, 1];
            && Values.TypedGrammar(g) && !Invocations.Handing(g)
            && Values.EvalRule(g, inp, k, false, 0, 0) == Values.Default && Values.Calls(Values.Default) == []
            && Invocations.OccRule(g, inp, k, false, 0, 0) ==
                 [Invocations.Occurrence(1, 0, 1), Invocations.Occurrence(1, 1, 2)]
  {
    SwallowingIsTyped();
    NumMatches(k - 1, 0);
    NumMatches(k - 1, 1);
    hide Peg.Peg, Invocations.OccRule, Invocations.Handing, Values.TypedGrammar, Values.EvalRule;
    var g, inp, e := SWALLOWING, [1, 1], SWALLOWING.rules[0].body;
    var o1, o2 := Invocations.Occurrence(1, 0, 1), Invocations.Occurrence(1, 1, 2);
    TwoNums(g, inp, k - 1, e);
    WholePair(k, o1, o2);
  }

  lemma TwoNums(g: Grammar, inp: Input, k: nat, e: Expr)
    requires g.skipper.None? && |inp| == 2 && e == Seq([Rule(1), Rule(1)])
    requires Ends(Peg.Peg(g, inp, k, false, Rule(1), 0, false), Yes(1))
        && Ends(Peg.Peg(g, inp, k, false, Rule(1), 1, false), Yes(2))
    ensures Ends(Peg.Peg(g, inp, k, false, e, 0, false), Yes(2))
    ensures Invocations.Occ(g, inp, k, false, e, 0, false) ==
              Invocations.OccRule(g, inp, k, false, 1, 0) + Invocations.OccRule(g, inp, k, false, 1, 1)
  {
    hide PegCall, Invocations.OccRule;
    assert e.es[0] == Rule(1) && e.es[1] == Rule(1);
    SecondNum(g, inp, k, e);
    var a := Peg.Peg(g, inp, k, false, e.es[0], 0, false);
    assert !a.value.cut;
    assert Ends(PegSeqNext(g, inp, k, false, e, 0, 0, false), Yes(2));
    assert Invocations.OccSeqNext(g, inp, k, false, e, 0, 0, false) ==
        Invocations.OccRule(g, inp, k, false, 1, 0) + Invocations.OccSeq(g, inp, k, false, e, 1, 1, false);
    assert Invocations.OccSeq(g, inp, k, false, e, 0, 0, false) ==
        Invocations.OccSeqNext(g, inp, k, false, e, 0, 0, false);
  }

  lemma SecondNum(g: Grammar, inp: Input, k: nat, e: Expr)
    requires g.skipper.None? && |inp| == 2 && e == Seq([Rule(1), Rule(1)]) && e.es[1] == Rule(1)
    requires Ends(Peg.Peg(g, inp, k, false, Rule(1), 1, false), Yes(2))
    ensures Ends(PegSeq(g, inp, k, false, e, 1, 1, false), Yes(2))
    ensures Invocations.OccSeq(g, inp, k, false, e, 1, 1, false) == Invocations.OccRule(g, inp, k, false, 1, 1)
  {
    hide PegCall, Invocations.OccRule;
    assert Ends(PegSeq(g, inp, k, false, e, 2, 2, false), Yes(2));
    assert Ends(PegSeqNext(g, inp, k, false, e, 1, 1, false), Yes(2));
    assert Invocations.OccSeq(g, inp, k, false, e, 2, 2, false) == [];
    assert Invocations.OccSeqNext(g, inp, k, false, e, 1, 1, false) == Invocations.OccRule(g, inp, k, false, 1, 1) + [];
  }

  lemma WholePair(k: nat, o1: Invocations.Occurrence, o2: Invocations.Occurrence)
    requires k >= 1 && Ends(Peg.Peg(SWALLOWING, [1, 1], k - 1, false, SWALLOWING.rules[0].body, 0, false), Yes(2))
    requires Invocations.Occ(SWALLOWING, [1, 1], k - 1, false, SWALLOWING.rules[0].body, 0, false) == [o1, o2]
    ensures Values.EvalRule(SWALLOWING, [1, 1], k, false, 0, 0) == Values.Default
    ensures Invocations.OccRule(SWALLOWING, [1, 1], k, false, 0, 0) == [o1, o2]
  {
    hide Peg.Peg, Invocations.Occ;
    assert [o1, o2] + [] == [o1, o2];
  }

  /** Rule 1 matches empty and builds a node. */
  const EMPTY_RULE := Grammar(map[1 := Plainly("empty", Expr.Empty)], None, {}, map[], {})

  lemma FirstEmpty(s: State)
    requires Good([], s) && s.pos == 0 && Key(0, 1) !in s.memo
    ensures var r := Call(EMPTY_RULE, [], 1, false, 1, s);
            var n := |s.arena|;
            && r.out == Ok(Some(n)) && r.st.pos == 0 && |r.st.arena| == n + 1 && r.st.arena[..n] == s.arena
                && r.st.scope == s.scope
            && Key(0, 1) in r.st.memo && r.st.memo[Key(0, 1)] == Entry(true, 0, Some(n))
                 && (s.lr == [] ==> r.st.lr == [])
  {
    var s1 := Restart([], Key(0, 1), Fail, Enter(s, Key(0, 1)));
    var r := Parse(EMPTY_RULE, [], 0, false, Expr.Empty, s1);
    assert EMPTY_RULE.rules[1].body == Expr.Empty;
    assert Grow(EMPTY_RULE, [], 0, false, Key(0, 1), 0, Fail, Enter(s, Key(0, 1))) ==
        Settle([], Key(0, 1), 0, r.out, r.st);
  }

  /** `rule / token`: the rule matches and its node is stamped 0. */
  lemma RuleFirst(s: State)
    requires Good([], s) && s.pos == 0 && Key(0, 1) !in s.memo
    ensures var r := Parse(EMPTY_RULE, [], 1, false, Alt([Rule(1), Kept(2)]), s);
            var n := |s.arena|;
            && r.out == Ok(Some(n)) && r.st.pos == 0 && |r.st.arena| == n + 1 && r.st.arena[..n] == s.arena
                && r.st.arena[n].winner == Some(0)
            && Key(0, 1) in r.st.memo && r.st.memo[Key(0, 1)] == Entry(true, 0, Some(n))
  {
    hide Call;
    var e, s1 := Alt([Rule(1), Kept(2)]), OpenScope(s);
    FirstEmpty(s1);
    assert Parse(EMPTY_RULE, [], 1, false, e.es[0], s1) == Call(EMPTY_RULE, [], 1, false, 1, s1);
  }

  lemma EmptyHit(s: State, n: nat)
    requires Good([], s) && s.pos == 0 && Key(0, 1) in s.memo && s.memo[Key(0, 1)] == Entry(true, 0, Some(n))
    ensures var r := Call(EMPTY_RULE, [], 1, false, 1, s);
            r.out == Ok(Some(n)) && r.st.pos == 0 && r.st.arena == s.arena && r.st.scope == s.scope
    ensures Parse(EMPTY_RULE, [], 1, false, Rule(1), s) == Call(EMPTY_RULE, [], 1, false, 1, s)
  {
    hide Grow, Finish;
  }

  /** `token / rule`: the cached node of the rule is stamped 1. */
  lemma RuleSecond(s: State, n: nat)
    requires Good([], s) && s.pos == 0 && n < |s.arena| && Key(0, 1) in s.memo
        && s.memo[Key(0, 1)] == Entry(true, 0, Some(n))
    ensures var r := Parse(EMPTY_RULE, [], 1, false, Alt([Kept(2), Rule(1)]), s);
            r.out == Ok(Some(n)) && r.st.pos == 0 && r.st.arena == s.arena[n := s.arena[n].(winner := Some(1))]
  {
    var e, s1 := Alt([Kept(2), Rule(1)]), OpenScope(s);
    var s2 := Record(s1, {Failure(0, Item(Literal, []))});
    TokenFails(s1);
    EmptyHit(s2, n);
    hide Parse, Call;
    assert e.es[0] == Kept(2) && e.es[1] == Rule(1);
    SecondWins(EMPTY_RULE, [], 1, false, e, s, s2);
  }

  lemma TokenFails(s: State)
    requires Good([], s) && s.pos == 0
    ensures Parse(EMPTY_RULE, [], 1, false, Kept(2), s) == Result(Fail, Record(s, {Failure(0, Item(Literal, []))}))
  {
  }

  /** The second branch of two, after the first one failed. */
  lemma SecondWins(g: Grammar, inp: Input, fuel: nat, skip: bool, e: Expr, s: State, s2: State)
    requires Good(inp, s) && Good(inp, s2) && e.Alt? && |e.es| == 2 && !CutSet(s2)
    requires Parse(g, inp, fuel, skip, e.es[0], OpenScope(s)) == Result(Fail, s2)
    requires var r := Parse(g, inp, fuel, skip, e.es[1], s2); r.out.Ok? && !CutSet(r.st)
    ensures var r, w := Parse(g, inp, fuel, skip, e.es[1], s2), Parse(g, inp, fuel, skip, e, s);
            w.out == r.out && w.st.pos == r.st.pos && w.st.arena == Stamp(r.st, r.out.tree, 1).arena
  {
    var r := Parse(g, inp, fuel, skip, e.es[1], s2);
    assert AltFrom(g, inp, fuel, skip, e, 1, s2) == Result(r.out, Stamp(r.st, r.out.tree, 1));
  }

  /** Why folds ask that the branches of a choice are all rules or all build nodes: in
      `(rule / token) (token / rule)` both choices return the one cached node of the rule, and the second stamp
      wins, so the fold takes the token branch of the first choice. */
  lemma MixedChoicesShareAStamp(a: Expr, b: Expr, s: State)
    requires a == Alt([Rule(1), Kept(2)]) && b == Alt([Kept(2), Rule(1)]) && Good([], s) && s.pos == 0
        && s.arena == [] && Key(0, 1) !in s.memo
    ensures var r := Parse(EMPTY_RULE, [], 1, false, Seq([a, b]), s);
            && r.out == Ok(Some(0)) && |r.st.arena| == 2
            && r.st.arena[0].children == [Some(1), Some(1)] && r.st.arena[1].winner == Some(1)
  {
    hide Parse;
    SeqOfTwo(EMPTY_RULE, [], 1, a, b, s);
    var s0 := Alloc(s, 0, 0);
    RuleFirst(s0);
    var r1 := Parse(EMPTY_RULE, [], 1, false, a, s0);
    RuleSecond(PushChild(r1.st, 0, r1.out.tree), 1);
  }
}
