/** The two-phase entry point: parse, then fold the tree of the start rule. */
module Asts {
  import opened Grammars
  import opened Machine
  import opened Peg
  import opened Forms
  import opened Soundness
  import opened Contexts
  import opened Values
  import Engine
  import Folds
  import Fuel
  import Invocations
  import Parsing
  import Phases
  import Termination
  import Totality
  import Transparency

  /** The bounded run of a terminating, foldable grammar leaves the tree of the memo-free value. */
  lemma BoundedRunTells(c: Setting, start: RuleId, k: nat, s: State)
    requires Termination.Terminating(c.g) && start in c.g.rules && Phases.Foldable(c) && Phases.Filed(c, s, {})
    requires Transparency.Idle(c, s) && Transparency.Startable(c, start) && PegRun(c.g, c.inp, k, start, s.pos).Some?
    ensures var r := Run(c.g, c.inp, Termination.Depth(c.g, c.inp), start, s);
            && r.out.Normal() && Phases.Filed(c, r.st, {})
            && (r.out.Ok? ==> r.out.tree.Some?
                              && Folds.RuleShows(c.g, c.inp, r.st.arena, {}, r.out.tree.value,
                                  Phases.RunValue(c, k, start, s.pos)))
  {
    hide Run, PegRun, MemoSound, Phases.Foldable, Phases.Filed, Folds.RuleShows, Phases.RunValue, Termination.Depth;
    var f := Termination.Depth(c.g, c.inp);
    var f' := if f < k then k else f;
    Termination.RunTerminates(c.g, c.inp, f, start, s);
    Fuel.MoreRun(c.g, c.inp, f, f', start, s);
    Phases.TellRun(c, f', k, start, s);
  }

  /** The rules with an action in the match of a whole parse, and whether none of them is swallowed. */
  ghost function RunOccurrences(c: Setting, k: nat, start: RuleId, i: nat): seq<Invocations.Occurrence>
    requires i <= |c.inp|
  {
    var w := PegSkip(c.g, c.inp, k, c.g.skipper.Some?, i);
    if !Matches(w) then [] else Invocations.OccRule(c.g, c.inp, k, c.g.skipper.Some?, start, w.value.out.end)
  }

  ghost predicate RunWhole(c: Setting, k: nat, start: RuleId, i: nat)
    requires i <= |c.inp|
  {
    var w := PegSkip(c.g, c.inp, k, c.g.skipper.Some?, i);
    Matches(w) ==> Invocations.WholeRule(c.g, c.inp, k, c.g.skipper.Some?, start, w.value.out.end)
  }

  /** The calls in the value of a parse are the rule occurrences of the match iff nothing is swallowed. */
  lemma CallsOfRun(c: Setting, k: nat, start: RuleId, i: nat)
    requires i <= |c.inp| && Phases.Foldable(c) && Matches(PegRun(c.g, c.inp, k, start, i))
    ensures Invocations.Fired(Phases.RunValue(c, k, start, i)) == RunOccurrences(c, k, start, i)
        <==> RunWhole(c, k, start, i)
    ensures Invocations.Handing(c.g) ==> RunWhole(c, k, start, i)
  {
    hide PegSkip, PegCall, EvalRule, Invocations.OccRule, Invocations.WholeRule, Invocations.Fired, NoLeft,
        TypedGrammar,
        Invocations.Handing;
    var w := PegSkip(c.g, c.inp, k, c.g.skipper.Some?, i);
    Invocations.CountRule(c.g, c.inp, k, c.g.skipper.Some?, start, w.value.out.end);
    if Invocations.Handing(c.g) { Invocations.HandingIsWhole(c.g, c.inp, k, c.g.skipper.Some?, start,
        w.value.out.end); }
  }

  /** What a caller gets from a two-phase parse of `start` at i: a value exactly if the memo-free parse matches, and
      then its bottom-up value and its end; exactly the actions in it were called (`calls`), and these are the
      occurrences of rules with actions in the match, each once and in order, iff no occurrence is swallowed. */
  ghost predicate Yields(c: Setting, k: nat, start: RuleId, i: nat, v: Option<Value>, end: nat, calls: seq<Value>)
    requires i <= |c.inp| && PegRun(c.g, c.inp, k, start, i).Some?
  {
    var a := PegRun(c.g, c.inp, k, start, i).value;
    && (v.Some? <==> a.out.Yes?) && (v.None? ==> calls == [])
    && (v.Some? ==>
          && v.value == Phases.RunValue(c, k, start, i) && end == a.out.end
          && calls == Calls(v.value) && (forall call | call in calls :: call.Applied?)
          && (Invocations.Sites(calls) == RunOccurrences(c, k, start, i) <==> RunWhole(c, k, start, i))
          && (Invocations.Handing(c.g) ==> RunWhole(c, k, start, i)))
  }

  /** A context that can be parsed and folded again. */
  ghost predicate Reusable(c: Setting, s: State) {
    Transparency.Idle(c, s) && Phases.Filed(c, s, {})
  }

  /** Parses and folds a parse that is answered.  The context can be used again. */
  method ParseAst(g: Grammar, c: Context, start: RuleId, ghost mode: RuleId -> bool, ghost k: nat)
    returns (v: Option<Value>, ghost calls: seq<Value>)
    requires c.Valid() && c.skipEnabled && start in g.rules
    requires Termination.Terminating(g) && Phases.Foldable(Setting(g, c.input, mode))
    requires Reusable(Setting(g, c.input, mode), c.Abs())
    requires Transparency.Startable(Setting(g, c.input, mode), start)
    requires PegRun(g, c.input, k, start, c.position).Some?
    modifies c, c.expected
    ensures c.Valid() && c.skipEnabled && Reusable(Setting(g, c.input, mode), c.Abs())
    ensures Yields(Setting(g, c.input, mode), k, start, old(c.position), v, c.position, calls)
  {
    hide Run, PegRun, Flat, Keys, Heads, Summary, MemoSound, Phases.Foldable, Phases.Filed, Folds.RuleShows,
        Phases.RunValue, RunOccurrences, RunWhole, Calls, Invocations.Handing;
    ghost var setting, s := Setting(g, c.input, mode), c.Abs();
    var fuel := (|c.input| + 1) * |g.rules.Keys|;
    Parsing.BoundedRunIsPeg(setting, start, k, s);
    BoundedRunTells(setting, start, k, s);
    var o, _ := Engine.ParseStart(g, c, fuel, start);
    if !o.Ok? { return None, []; }
    ghost var value := Phases.RunValue(setting, k, start, s.pos);
    OwnAction(setting, k, start, s.pos, c.arena, o.tree.value, value);
    var r;
    r, calls := Folds.FoldStart(g, c.input, c.arena, start, o.tree.value, value);
    v := Some(r);
    Invocations.CallsAreApplied(value);
    CallsOfRun(setting, k, start, s.pos);
  }

  /** For a ranked grammar every parse is answered, so nothing has to be known of the parse. */
  method ParseRankedAst(g: Grammar, c: Context, start: RuleId, ghost mode: RuleId -> bool, ghost w: Totality.Ranking)
    returns (v: Option<Value>, ghost calls: seq<Value>)
    requires c.Valid() && c.skipEnabled && start in g.rules && w.g == g && Totality.Ranked(w)
    requires Termination.Terminating(g) && Phases.Foldable(Setting(g, c.input, mode))
    requires Reusable(Setting(g, c.input, mode), c.Abs())
    requires Transparency.Startable(Setting(g, c.input, mode), start)
    modifies c, c.expected
    ensures c.Valid() && c.skipEnabled && Reusable(Setting(g, c.input, mode), c.Abs())
    ensures PegRun(g, c.input, Totality.Enough(w, c.input), start, old(c.position)).Some?
    ensures Yields(Setting(g, c.input, mode), Totality.Enough(w, c.input), start, old(c.position), v, c.position, calls)
  {
    hide PegRun, Flat, Keys, Heads, Summary, Reusable, Yields, Phases.Foldable, Totality.Ranked, Totality.Enough,
        Termination.Terminating;
    assert c.position <= |c.input| && Transparency.Startable(Setting(g, c.input, mode), start);
    Totality.EveryParseHasAnAnswer(w, c.input, Totality.Enough(w, c.input), start, c.position);
    v, calls := ParseAst(g, c, start, mode, Totality.Enough(w, c.input));
  }

  /** And on a context of its own nothing has to be known of the context either: conditions on the rules suffice. */
  method ParseStringAst(g: Grammar, input: Input, start: RuleId, ghost mode: RuleId -> bool, ghost w: Totality.Ranking)
    returns (v: Option<Value>, end: nat, ghost calls: seq<Value>)
    requires start in g.rules && w.g == g && Totality.Ranked(w) && Termination.ClosedGrammar(g)
    requires WellFormed(g, mode) && NoCuts(g) && NoLeftRec(g) && TypedGrammar(g)
    requires Transparency.Startable(Setting(g, input, mode), start)
    ensures PegRun(g, input, Totality.Enough(w, input), start, 0).Some?
    ensures Yields(Setting(g, input, mode), Totality.Enough(w, input), start, 0, v, end, calls)
  {
    hide PegRun, Yields, Phases.Foldable, Phases.Filed, Totality.Ranked, Totality.Enough, WellFormed, NoCuts, NoLeftRec,
        TypedGrammar, Termination.ClosedGrammar, Transparency.Idle;
    ghost var setting := Setting(g, input, mode);
    Phases.FoldableIf(setting);
    Phases.FreshIsFiled(setting);
    Transparency.FreshIsIdle(setting);
    var c := new Context(input);
    v, calls := ParseRankedAst(g, c, start, mode, w);
    end := c.position;
  }

  /** The node of a start rule with an action is the one that it wrapped. */
  lemma OwnAction(c: Setting, k: nat, start: RuleId, i: nat, a: seq<Node>, t: nat, v: Value)
    requires Phases.Foldable(c) && start in c.g.rules && i <= |c.inp| && PegRun(c.g, c.inp, k, start, i).Some?
        && PegRun(c.g, c.inp, k, start, i).value.out.Yes?
    requires v == Phases.RunValue(c, k, start, i) && Folds.RuleShows(c.g, c.inp, a, {}, t, v)
    ensures TypedGrammar(c.g) && (c.g.rules[start].hasAction ==> a[t].producer == Some(start))
  {
    hide PegSkip, Peg.Peg, Folds.Shows;
    var w := PegSkip(c.g, c.inp, k, c.g.skipper.Some?, i);
    var q := w.value.out.end;
    assert PegCall(c.g, c.inp, k, c.g.skipper.Some?, start, q).Some?;
  }
}
