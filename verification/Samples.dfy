/** A usual grammar, bracketed lists of numbers with white space in between, meets all conditions of the theorems at
    once: transparency, linear work, an answer to every parse, desugaring, and one action call per occurrence. */
module Samples {
  import opened Grammars
  import opened Peg
  import opened Forms
  import opened Values
  import opened Totality
  import opened Limits
  import Asts
  import Desugaring
  import Invocations
  import Layers
  import Soundness
  import Termination
  import Types

  const LIST: RuleId := 0
  const ITEM: RuleId := 1
  const NUMBER: RuleId := 2
  const SPACE: RuleId := 3

  function Digit(): Expr { Token(Between(48, 57), Item(Range, "0..9")) }

  /** Behind the first item. */
  function More(): Expr { Seq([Char(44), Rule(ITEM)]) }

  /** `(item (',' item)*)?` */
  function Items(): Expr { Rep(Seq([Rule(ITEM), Rep(More(), 0, -1)]), 0, 1) }

  /** `list = '[' items ']'`, `item = number / list`, `number = lexeme(digit+)`, and the skipper `space = ' '*`. */
  function Body(r: RuleId): Expr {
    if r == LIST then Seq([Char(91), Items(), Char(93)])
    else if r == ITEM then Alt([Rule(NUMBER), Rule(LIST)])
    else if r == NUMBER then Lexeme(Rep(Digit(), 1, -1))
    else Rep(Char(32), 0, -1)
  }

  function Lists(): Grammar {
    Grammar(map r: RuleId | r <= SPACE :: RuleDef("", "", Body(r), None, r == LIST || r == NUMBER), Some(SPACE), {},
            map[], {})
  }

  /** Auto-skip is on everywhere but in the skipper. */
  function Mode(): RuleId -> bool { (r: RuleId) => r != SPACE }

  function Ranks(): Ranking {
    Ranking(Lists(), {LIST, ITEM, NUMBER}, (r: RuleId) => if r == ITEM then 1 else 0, 2)
  }

  /** The facts about the grammar that the proofs use. */
  ghost predicate IsLists(g: Grammar) {
    && (forall r: RuleId :: r in g.rules <==> r <= SPACE) && g.skipper == Some(SPACE)
    && (forall r | r in g.rules ::
          && g.rules[r].body == Body(r) && g.rules[r].recovery.None?
          && (g.rules[r].hasAction <==> r == LIST || r == NUMBER))
    && g.quiet == {} && forall r: RuleId :: !IsPartner(g, r) && !IsLeftRec(g, r)
  }

  lemma ListsAre()
    ensures IsLists(Lists())
  {
  }

  // ---- all the conditions, construct by construct -----------------------------------------------

  /** What every condition but the ranks and the types asks of an expression in mode `skip`. */
  ghost predicate Fine(g: Grammar, skip: bool, e: Expr) {
    CutFree(e) && Usable(g, Mode(), skip, e) && Safe(g, e) && Desugaring.Steady(Ranks(), skip, e)
  }

  lemma FineRow(g: Grammar, skip: bool, es: seq<Expr>)
    requires forall x | x in es :: Fine(g, skip, x)
    ensures Fine(g, skip, Seq(es)) && Fine(g, skip, Alt(es))
  {
    forall j | 0 <= j < |es| ensures Fine(g, skip, es[j]) { assert es[j] in es; }
  }

  lemma FineMany(g: Grammar, skip: bool, e: Expr, min: nat, max: int)
    requires g == Lists() && Fine(g, skip, e) && (max == 1 || Consumes(Ranks().eats, e))
    ensures Fine(g, skip, Rep(e, min, max))
  {
  }

  lemma FineLeaf(g: Grammar, skip: bool, e: Expr)
    requires IsLists(g)
    requires e.Terminal? || e.Token? || (e.Rule? && e.rule <= NUMBER && skip)
    ensures Fine(g, skip, e)
  {
  }

  lemma BodiesFine(g: Grammar, r: RuleId)
    requires g == Lists() && IsLists(g) && r <= SPACE
    ensures Fine(g, Mode()(r), Body(r))
  {
    hide Lists, IsLists, Fine;
    if r == LIST {
      var more, item := More(), Rule(ITEM);
      FineLeaf(g, true, Char(44));
      FineLeaf(g, true, item);
      FineRow(g, true, [Char(44), item]);
      assert more.es[0] == Char(44);
      FineMany(g, true, more, 0, -1);
      FineRow(g, true, [item, Rep(more, 0, -1)]);
      FineMany(g, true, Seq([item, Rep(more, 0, -1)]), 0, 1);
      FineLeaf(g, true, Char(91));
      FineLeaf(g, true, Char(93));
      FineRow(g, true, [Char(91), Items(), Char(93)]);
    } else if r == ITEM {
      FineLeaf(g, true, Rule(NUMBER));
      FineLeaf(g, true, Rule(LIST));
      FineRow(g, true, [Rule(NUMBER), Rule(LIST)]);
    } else if r == NUMBER {
      FineLeaf(g, false, Digit());
      FineMany(g, false, Digit(), 1, -1);
      FineUnder(g, Rep(Digit(), 1, -1));
    } else {
      FineLeaf(g, false, Char(32));
      FineMany(g, false, Char(32), 0, -1);
    }
  }

  lemma FineUnder(g: Grammar, e: Expr)
    requires Fine(g, false, e)
    ensures Fine(g, true, Lexeme(e))
  {
  }

  // ---- ranks and types --------------------------------------------------------------------------

  lemma BodiesLow(r: RuleId)
    requires r <= SPACE
    ensures Low(Ranks(), Ranks().rank(r), Body(r)) && (r in Ranks().eats ==> Consumes(Ranks().eats, Body(r)))
  {
    var w := Ranks();
    if r == LIST {
      assert Body(r).es[0] == Char(91);
      assert LowFrom(w, 0, Body(r), 0);
    } else if r == ITEM {
      assert Low(w, 1, Rule(NUMBER)) && Low(w, 1, Rule(LIST));
    } else if r == NUMBER {
      assert Consumes(w.eats, Rep(Digit(), 1, -1));
    }
  }

  lemma BodiesTyped(r: RuleId)
    requires r == LIST || r == NUMBER
    ensures Typed(Body(r)) && !Void(Body(r))
  {
    if r == NUMBER {
      assert Typed(Rep(Digit(), 1, -1)) && !Void(Rep(Digit(), 1, -1));
    } else {
      var inner, item := Seq([Rule(ITEM), Rep(More(), 0, -1)]), Rule(ITEM);
      hide Typed, Void, Types.PassedOver;
      assert Typed(item) && Types.PassedOver(Char(44)) && Types.PassedOver(Char(91)) && Types.PassedOver(Char(93)) by {
        Simple(item);
      }
      Types.FoldableSequence([Char(44), item], 1);
      Types.FoldableParts(More(), Between(0, 0), Item(Range, ""), ITEM, 0, -1);
      Types.FoldableSequence([item, Rep(More(), 0, -1)], 0);
      Types.FoldableParts(inner, Between(0, 0), Item(Range, ""), ITEM, 0, 1);
      Types.FoldableSequence([Char(91), Items(), Char(93)], 1);
      TypedIsNotVoid(Body(r));
    }
  }

  lemma Simple(e: Expr)
    requires e.Rule?
    ensures Typed(e) && forall c: Sym :: Types.PassedOver(Char(c))
  {
  }

  // ---- the theorem ------------------------------------------------------------------------------

  ghost predicate AllFine(g: Grammar) {
    forall r | r in g.rules :: Fine(g, Mode()(r), g.rules[r].body)
  }

  lemma ListsFine(g: Grammar)
    requires g == Lists() && IsLists(g)
    ensures AllFine(g)
  {
    hide Lists, Fine, Body;
    forall r | r in g.rules ensures Fine(g, Mode()(r), g.rules[r].body) { BodiesFine(g, r); }
  }

  lemma ListsWellFormed(g: Grammar)
    requires IsLists(g) && AllFine(g)
    ensures WellFormed(g, Mode()) && NoCuts(g) && NoLeftRec(g)
  {
    hide CutFree, CutsEnclosed, Usable, Safe, Desugaring.Steady, Body, IsPartner, IsLeftRec;
    assert forall r | r in g.rules :: CutFree(g.rules[r].body) by {
      forall r | r in g.rules ensures CutFree(g.rules[r].body) { assert Fine(g, Mode()(r), g.rules[r].body); }
    }
    forall r | r in g.rules
      ensures CutsEnclosed(g.rules[r].body) && Usable(g, Mode(), Mode()(r), g.rules[r].body)
    {
      assert Fine(g, Mode()(r), g.rules[r].body);
      CutFreeIsEnclosed(g.rules[r].body);
    }
  }

  lemma ListsRanked(g: Grammar)
    requires g == Lists() && IsLists(g) && AllFine(g)
    ensures Ranked(Ranks()) && Layers.Layered(Ranks())
  {
    hide Lists, CutFree, Usable, Safe, Desugaring.Steady, Body, IsPartner, IsLeftRec, Low, Consumes;
    forall r | r in g.rules
      ensures RankedRule(Ranks(), r) && Low(Ranks(), Ranks().rank(r), g.rules[r].body) && CutFree(g.rules[r].body)
      ensures r in Ranks().eats ==> Consumes(Ranks().eats, g.rules[r].body)
    {
      assert Fine(g, Mode()(r), g.rules[r].body);
      BodiesLow(r);
    }
  }

  lemma ListsFolded(g: Grammar)
    requires IsLists(g)
    ensures TypedGrammar(g) && Invocations.Handing(g)
  {
    forall r | r in g.rules && (r == LIST || r == NUMBER) ensures Typed(g.rules[r].body) && !Void(g.rules[r].body) {
      BodiesTyped(r);
    }
    assert Body(ITEM).es[0] == Rule(NUMBER) && Body(ITEM).es[1] == Rule(LIST);
    assert Body(SPACE) == Rep(Char(32), 0, -1) && Invocations.Silent(Char(32));
    assert Invocations.Silent(Body(SPACE));
    assert Invocations.Handed(Body(ITEM)) && Invocations.Handed(Body(SPACE));
    hide Typed, Void, Invocations.Handed, Invocations.Silent;
  }

  /** The conditions of the transparency, termination, totality, work, desugaring and folding theorems, all at once. */
  lemma ListsMeetTheConditions(inp: Input)
    ensures var g, w := Lists(), Ranks();
            && WellFormed(g, Mode()) && NoCuts(g) && NoLeftRec(g) && Mode()(LIST) && w.g == g
            && Ranked(w) && Layers.Layered(w)
            && TypedGrammar(g) && Invocations.Handing(g)
            && Desugaring.Applies(g, Mode(), inp)
  {
    var g := Lists();
    ListsAre();
    hide WellFormed, Ranked, Layers.Layered, TypedGrammar, Invocations.Handing, Desugaring.Advancing, IsLists, NoCuts,
        NoLeftRec, Safe, Usable, CutFree, Desugaring.Steady;
    ListsFine(g);
    ListsWellFormed(g);
    ListsRanked(g);
    ListsFolded(g);
    forall r | r in g.rules ensures Desugaring.Steady(Ranks(), Mode()(r), g.rules[r].body) {
      assert Fine(g, Mode()(r), g.rules[r].body);
    }
    hide Lists;
    Desugaring.RankedApplies(Ranks(), Mode(), inp);
  }

  lemma {:induction e} SafeIsClosed(g: Grammar, e: Expr)
    requires Safe(g, e)
    ensures Termination.Closed(g, e)
  {
  }

  lemma ListsClosed(g: Grammar)
    requires IsLists(g) && AllFine(g)
    ensures Termination.ClosedGrammar(g)
  {
    hide CutFree, Usable, Safe, Desugaring.Steady, Body, Termination.Closed;
    forall r | r in g.rules ensures Termination.Closed(g, g.rules[r].body) {
      assert Fine(g, Mode()(r), g.rules[r].body);
      SafeIsClosed(g, g.rules[r].body);
    }
  }

  /** So every input is parsed and folded to the value of the memo-free parse, with nothing left to assume. */
  method ParseLists(input: Input) returns (v: Option<Value>, end: nat, ghost calls: seq<Value>)
    ensures PegRun(Lists(), input, Enough(Ranks(), input), LIST, 0).Some?
    ensures Asts.Yields(Soundness.Setting(Lists(), input, Mode()), Enough(Ranks(), input), LIST, 0, v, end, calls)
  {
    hide WellFormed, Ranked, TypedGrammar, NoCuts, NoLeftRec, PegRun, Enough, Asts.Yields, AllFine,
        Termination.ClosedGrammar, Layers.Layered, Invocations.Handing, Desugaring.Applies;
    ListsAre();
    ListsFine(Lists());
    ListsClosed(Lists());
    ListsMeetTheConditions(input);
    v, end, calls := Asts.ParseStringAst(Lists(), input, LIST, Mode(), Ranks());
  }
}
