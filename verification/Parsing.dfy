/** The entry point: one parse of a rule on a context that may already hold the memo of earlier parses. */
module Parsing {
  import opened Grammars
  import opened Machine
  import opened Peg
  import opened Forms
  import opened Soundness
  import opened Contexts
  import opened LeftRecursion
  import Desugaring
  import Elimination
  import Rewriting
  import ExpectedSets
  import Engine
  import Folds
  import Fuel
  import Packrat
  import Phases
  import Roots
  import Termination
  import Totality
  import Transparency
  import Trees
  import Values

  /** `Escaped`: the leading skip failed after a cut, which no one catches.  `Exhausted`: rules nested more deeply
      than allowed. */
  datatype Verdict = Accepted(tree: Option<nat>) | Rejected | Escaped | NoSuchRule | Exhausted

  /** A run that did not exhaust its bound is the memo-free answer, at whatever depth there is one. */
  lemma FinishedRunIsPeg(c: Setting, fuel: nat, start: RuleId, k: nat, s: State)
    requires Transparency.Idle(c, s) && Transparency.Startable(c, start) && !Run(c.g, c.inp, fuel, start, s).out.Stuck?
    requires PegRun(c.g, c.inp, k, start, s.pos).Some?
    ensures var r := Run(c.g, c.inp, fuel, start, s);
            Faithful(c, NOTHING, s, r, PegRun(c.g, c.inp, k, start, s.pos).value)
            && (r.out.Normal() ==> Transparency.Idle(c, r.st))
  {
    hide Run, PegRun, MemoSound, WellFormed, FramesKept;
    var fuel' := if fuel < k then k else fuel;
    Fuel.MoreRun(c.g, c.inp, fuel, fuel', start, s);
    Transparency.RunIsPeg(c, fuel', k, start, s);
  }

  /** And a terminating grammar never exhausts this bound. */
  lemma BoundedRunIsPeg(c: Setting, start: RuleId, k: nat, s: State)
    requires Termination.Terminating(c.g) && start in c.g.rules
    requires Transparency.Idle(c, s) && Transparency.Startable(c, start) && PegRun(c.g, c.inp, k, start, s.pos).Some?
    ensures var r := Run(c.g, c.inp, Termination.Depth(c.g, c.inp), start, s);
            Faithful(c, NOTHING, s, r, PegRun(c.g, c.inp, k, start, s.pos).value)
            && r.out.Normal() && Transparency.Idle(c, r.st)
  {
    hide Run, PegRun, MemoSound, WellFormed, FramesKept, Termination.Depth;
    Termination.RunTerminates(c.g, c.inp, Termination.Depth(c.g, c.inp), start, s);
    FinishedRunIsPeg(c, Termination.Depth(c.g, c.inp), start, k, s);
  }

  /** The leading skip of a run that did not exhaust its bound comes back iff the memo-free one does. */
  lemma LeadingSkip(c: Setting, fuel: nat, start: RuleId, k: nat, s: State)
    requires Transparency.Idle(c, s) && !Run(c.g, c.inp, fuel, start, s).out.Stuck?
    requires PegSkip(c.g, c.inp, k, c.g.skipper.Some?, s.pos).Some?
    ensures var w, a := Skip(c.g, c.inp, fuel, c.g.skipper.Some?, s),
                PegSkip(c.g, c.inp, k, c.g.skipper.Some?, s.pos).value;
            (w.out.Ok? <==> a.out.Yes?) && (w.out.Ok? ==> w.st.pos == a.out.end)
  {
    hide Skip, PegSkip, Call, MemoSound, WellFormed, FramesKept, Bounded;
    var fuel' := if fuel < k then k else fuel;
    Fuel.MoreSkip(c.g, c.inp, fuel, fuel', c.g.skipper.Some?, s);
    assert Above(c, k, s.lr);
    Packrat.SoundSkip(c, fuel', k, c.g.skipper.Some?, s);
  }

  /** What a caller sees of a parse from `s`: verdict, end and error report are those of the answer `a`, with the
      leading skip answered by `w`; unless a committed failure ended the parse the context can be used again. */
  ghost predicate Reports(c: Setting, s: State, v: Verdict, ctx: Context, w: Answer, a: Answer)
    reads ctx, ctx.expected
  {
    && (v.Accepted? <==> a.out.Yes?) && (v.Accepted? ==> ctx.position == a.out.end)
    && (v.Escaped? <==> w.out.Throw?)
    && Summary(s.failures + a.evs, ctx.hasError, ctx.furthest, ExpectedSets.Elements(ctx.expected.items))
    && (!a.out.Throw? ==> Transparency.Idle(c, ctx.Abs()) && ctx.skipEnabled)
  }

  /** The tree of a parse from `s`: an accepted one returns a finished tree from the end of the leading skip, `w`, to
      the end of the parse; in a foldable grammar it stands for the value of the memo-free parse. And the next parse
      may rely on that again. */
  ghost predicate Returns(c: Setting, s: State, v: Verdict, ctx: Context, w: Answer, a: Answer, value: Values.Value)
    reads ctx
  {
    && (Roots.Planted(c.inp, s) ==>
          && (v.Accepted? ==>
                && v.tree.Some? && w.out.Yes?
                && Trees.Shown(ctx.arena, {}, v.tree.value, w.out.end, ctx.position))
          && (!a.out.Throw? ==> Roots.Planted(c.inp, ctx.Abs())))
    && (Phases.Foldable(c) && Phases.Filed(c, s, {}) ==>
          && (v.Accepted? ==>
                v.tree.Some? && Folds.RuleShows(c.g, c.inp, ctx.arena, {}, v.tree.value, value))
          && (!a.out.Throw? ==> Phases.Filed(c, ctx.Abs(), {})))
  }

  /** One parse.  If the memo-free semantics answers at all, the verdict is its own, with its end position and
      its error report: the furthest failure position and the items expected there, over this and all earlier
      parses.  A closed grammar without cuts is always decided within `Depth`. */
  method ParseWith(g: Grammar, c: Context, fuel: nat, start: RuleId, ghost mode: RuleId -> bool) returns (v: Verdict)
    requires c.Valid() && c.skipEnabled && Transparency.Idle(Setting(g, c.input, mode), c.Abs())
    requires start in g.rules ==> Transparency.Startable(Setting(g, c.input, mode), start)
    modifies c, c.expected
    ensures v.NoSuchRule? <==> start !in g.rules
    ensures v.NoSuchRule? ==> c.Valid() && c.Abs() == old(c.Abs())
    ensures Termination.Terminating(g) && fuel >= Termination.Depth(g, c.input) ==> !v.Exhausted?
    ensures forall w: Totality.Ranking | w.g == g && Totality.Ranked(w) && fuel >= Totality.Enough(w, c.input) ::
              !v.Exhausted?
    ensures v.Accepted? || v.Rejected? || v.Escaped? ==>
              && c.Valid()
              && forall k: nat | PegRun(g, c.input, k, start, old(c.position)).Some? ::
                   && PegSkip(g, c.input, k, g.skipper.Some?, old(c.position)).Some?
                   && Reports(Setting(g, c.input, mode), old(c.Abs()), v, c,
                        PegSkip(g, c.input, k, g.skipper.Some?, old(c.position)).value,
                        PegRun(g, c.input, k, start, old(c.position)).value)
                   && Returns(Setting(g, c.input, mode), old(c.Abs()), v, c,
                        PegSkip(g, c.input, k, g.skipper.Some?, old(c.position)).value,
                        PegRun(g, c.input, k, start, old(c.position)).value,
                        Phases.RunValue(Setting(g, c.input, mode), k, start, old(c.position)))
  {
    hide Run, PegRun, Flat, Keys, Heads, Summary, WellFormed, MemoSound, Termination.Depth, Termination.Terminating,
        Skip, PegSkip, Totality.Ranked, Totality.Enough, IsPartner, Roots.Planted, Trees.Shown, Phases.Foldable,
        Phases.Filed, Folds.RuleShows, Phases.RunValue;
    if start !in g.rules { return NoSuchRule; }
    ghost var setting, s := Setting(g, c.input, mode), c.Abs();
    if Termination.Terminating(g) && fuel >= Termination.Depth(g, c.input) { AlwaysLive(setting, fuel, start, s); }
    forall w: Totality.Ranking | w.g == g && Totality.Ranked(w) && fuel >= Totality.Enough(w, c.input)
      ensures !Run(g, c.input, fuel, start, s).out.Stuck?
    {
      EveryParseIsDecided(setting, w, fuel, start, s);
    }
    var o, started := Engine.ParseStart(g, c, fuel, start);
    if o.Stuck? { return Exhausted; }
    v := if o.Ok? then Accepted(o.tree) else if started then Rejected else Escaped;
    forall k: nat | PegRun(g, c.input, k, start, s.pos).Some?
      ensures PegSkip(g, c.input, k, g.skipper.Some?, s.pos).Some?
      ensures Reports(setting, s, v, c, PegSkip(g, c.input, k, g.skipper.Some?, s.pos).value,
                PegRun(g, c.input, k, start, s.pos).value)
      ensures Returns(setting, s, v, c, PegSkip(g, c.input, k, g.skipper.Some?, s.pos).value,
                PegRun(g, c.input, k, start, s.pos).value, Phases.RunValue(setting, k, start, s.pos))
    {
      FinishedRunIsPeg(setting, fuel, start, k, s);
      SkipOfRun(g, c.input, k, start, s.pos);
      LeadingSkip(setting, fuel, start, k, s);
      SkipOfMachine(g, c.input, fuel, start, s);
      TreeOfRun(setting, fuel, start, k, s);
    }
  }

  /** The tree that a finished run leaves. */
  lemma TreeOfRun(c: Setting, fuel: nat, start: RuleId, k: nat, s: State)
    requires Transparency.Idle(c, s) && Transparency.Startable(c, start) && !Run(c.g, c.inp, fuel, start, s).out.Stuck?
    requires PegRun(c.g, c.inp, k, start, s.pos).Some? && PegSkip(c.g, c.inp, k, c.g.skipper.Some?, s.pos).Some?
    ensures var r := Run(c.g, c.inp, fuel, start, s);
            var w := PegSkip(c.g, c.inp, k, c.g.skipper.Some?, s.pos).value;
            && (Roots.Planted(c.inp, s) && r.out.Normal() ==>
                  && Roots.Planted(c.inp, r.st)
                  && (r.out.Ok? ==>
                        && r.out.tree.Some? && w.out.Yes?
                        && Trees.Shown(r.st.arena, {}, r.out.tree.value, w.out.end, r.st.pos)))
            && (Phases.Foldable(c) && Phases.Filed(c, s, {}) && r.out.Normal() ==>
                  && Phases.Filed(c, r.st, {})
                  && (r.out.Ok? ==>
                        && r.out.tree.Some?
                        && Folds.RuleShows(c.g, c.inp, r.st.arena, {}, r.out.tree.value,
                            Phases.RunValue(c, k, start, s.pos))))
  {
    hide Run, Skip, PegRun, PegSkip, MemoSound, WellFormed, FramesKept, Roots.Planted, Trees.Shown, Phases.Foldable,
        Phases.Filed, Folds.RuleShows, Phases.RunValue, Bounded;
    assert Roots.NoRecovery(c.g) by { NothingRecovers(c); }
    LeadingSkip(c, fuel, start, k, s);
    SkipOfMachine(c.g, c.inp, fuel, start, s);
    if Roots.Planted(c.inp, s) { Roots.RootOfRun(c.g, c.inp, fuel, start, s); }
    if Phases.Foldable(c) && Phases.Filed(c, s, {}) {
      var fuel' := if fuel < k then k else fuel;
      Fuel.MoreRun(c.g, c.inp, fuel, fuel', start, s);
      Phases.TellRun(c, fuel', k, start, s);
    }
  }

  lemma NothingRecovers(c: Setting)
    requires WellFormed(c.g, c.mode)
    ensures Roots.NoRecovery(c.g)
  {
  }

  /** A run is answered only if its leading skip is, and a thrown skip is the run's answer. */
  lemma SkipOfRun(g: Grammar, inp: Input, k: nat, start: RuleId, i: nat)
    requires i <= |inp| && PegRun(g, inp, k, start, i).Some?
    ensures var w := PegSkip(g, inp, k, g.skipper.Some?, i);
            && w.Some? && (w.value.out.Throw? ==> PegRun(g, inp, k, start, i).value.out.Throw?)
            && !w.value.out.No?
  {
    hide PegSkip, PegCall;
  }

  lemma SkipOfMachine(g: Grammar, inp: Input, fuel: nat, start: RuleId, s: State)
    requires Good(inp, s)
    ensures Run(g, inp, fuel, start, s).out.Ok? ==> Skip(g, inp, fuel, g.skipper.Some?, s).out.Ok?
  {
    hide Skip, Call;
  }

  lemma AlwaysLive(c: Setting, fuel: nat, start: RuleId, s: State)
    requires Termination.Terminating(c.g) && fuel >= Termination.Depth(c.g, c.inp) && start in c.g.rules
        && Transparency.Idle(c, s)
    ensures Run(c.g, c.inp, fuel, start, s).out.Normal()
  {
    hide Run, Termination.Depth;
    Termination.RunTerminates(c.g, c.inp, fuel, start, s);
  }

  /** A run that ended with the outcome of the answer `a`. */
  ghost predicate Decided(r: Result, a: Answer) {
    && (r.out.Ok? <==> a.out.Yes?) && (r.out.Fail? <==> a.out.No?) && (r.out.Ok? ==> r.st.pos == a.out.end)
  }

  /** Growing a seed is iterating: the machine on a grammar with the left-recursive rule r, its branches in any
      order, answers as the memo-free semantics of the grammar in which r is a choice of iterations, and conversely,
      unless it exhausted its bound. */
  lemma GrownIsIterated(c: Setting, r: RuleId, n: nat, fuel: nat, start: RuleId, k: nat, s: State)
    requires Elimination.Applies(c.g, c.mode, c.inp, r, n)
    requires Transparency.Idle(c, s) && Transparency.Startable(c, start) && !Run(c.g, c.inp, fuel, start, s).out.Stuck?
    ensures var a := PegRun(Iterated(c.g, r, n), c.inp, k, start, s.pos);
            a.Some? ==> Decided(Run(c.g, c.inp, fuel, start, s), a.value)
    ensures PegRun(c.g, c.inp, k, start, s.pos).Some? ==> PegRun(Iterated(c.g, r, n), c.inp, k, start, s.pos).Some?
  {
    hide Run, MemoSound, WellFormed, FramesKept, PegCall, Elimination.Applies, Iterated, Elimination.Times, Unfolds;
    NoSkipper(c, r, n);
    Elimination.LeftRecursionIsIteration(c.g, c.mode, c.inp, r, n, k, false, Rule(start), s.pos, false);
    if PegRun(Iterated(c.g, r, n), c.inp, k, start, s.pos).Some? {
      FinishedRunIsPeg(c, fuel, start, Elimination.Times(n, k), s);
    }
  }

  lemma NoSkipper(c: Setting, r: RuleId, n: nat)
    requires Elimination.Applies(c.g, c.mode, c.inp, r, n)
    ensures Choice(c.g, r, n) && c.g.skipper.None? && Iterated(c.g, r, n).skipper.None?
  {
    hide WellFormed, Unfolds, Elimination.BaseConsumes;
  }

  /** The same with a skipper: the machine answers as the grammar without skipper and without the recursion. */
  lemma SkippedGrowthIsIterated(c: Setting, r: RuleId, n: nat, fuel: nat, start: RuleId, k: nat, s: State)
    requires var t := Desugaring.Twins(c.g, c.mode, c.inp); t.Good()
    requires IsLeftRec(c.g, r) && !IsPartner(c.g, r) && Choice(c.g, r, n)
    requires Elimination.BaseConsumes(c.g, c.inp, Arms(c.g, r, n))
    requires Transparency.Idle(c, s) && Transparency.Startable(c, start) && !Run(c.g, c.inp, fuel, start, s).out.Stuck?
    ensures var t := Desugaring.Twins(c.g, c.mode, c.inp);
            && Choice(t.h(), r, n)
            && var a := Peg.Peg(Iterated(t.h(), r, n), c.inp, k, false, Rewriting.Started(t, start), s.pos, false);
               && (a.Some? ==> Decided(Run(c.g, c.inp, fuel, start, s), a.value))
               && (PegRun(c.g, c.inp, k, start, s.pos).Some? ==> a.Some?)
  {
    hide Run, MemoSound, WellFormed, FramesKept, PegRun, IsPartner, IsLeftRec, Elimination.BaseConsumes,
        Elimination.Times, Desugaring.ExplicitGrammar, Iterated, Peg.Peg, Unfolds;
    var t := Desugaring.Twins(c.g, c.mode, c.inp);
    Rewriting.SkippedGrowthIsIteration(t, r, n, start, k, s.pos);
    var k' := Elimination.Times(n, k);
    if PegRun(c.g, c.inp, k', start, s.pos).Some? { FinishedRunIsPeg(c, fuel, start, k', s); }
  }

  /** For a ranked grammar, with cuts or without, the memo-free semantics always answers, and a nesting bound of
      `Enough` is never exhausted, so the parser decides every parse as it does. */
  lemma EveryParseIsDecided(c: Setting, w: Totality.Ranking, fuel: nat, start: RuleId, s: State)
    requires start in c.g.rules && w.g == c.g && Totality.Ranked(w) && fuel >= Totality.Enough(w, c.inp)
    requires Transparency.Idle(c, s) && Transparency.Startable(c, start)
    ensures var run := Run(c.g, c.inp, fuel, start, s);
            var a := PegRun(c.g, c.inp, Totality.Enough(w, c.inp), start, s.pos);
            && a.Some? && !run.out.Stuck?
            && (run.out.Ok? <==> a.value.out.Yes?) && (run.out.Fail? <==> a.value.out.No?)
            && (run.out.Abort? <==> a.value.out.Throw?) && (run.out.Ok? ==> run.st.pos == a.value.out.end)
            && run.st.failures == s.failures + a.value.evs && (run.out.Normal() ==> Transparency.Idle(c, run.st))
  {
    hide Run, PegRun, MemoSound, WellFormed, FramesKept, Totality.Ranked, Totality.Enough, IsPartner;
    Totality.EveryParseHasAnAnswer(w, c.inp, Totality.Enough(w, c.inp), start, s.pos);
    Transparency.RunIsPeg(c, fuel, Totality.Enough(w, c.inp), start, s);
  }

  // ---- parsing a string -------------------------------------------------------------------------

  /** One parse of an input on a context of its own: the verdict and the end are the memo-free ones. */
  method ParseString(g: Grammar, input: Input, fuel: nat, start: RuleId, ghost mode: RuleId -> bool)
    returns (v: Verdict, end: nat)
    requires WellFormed(g, mode)
    requires start in g.rules ==> Transparency.Startable(Setting(g, input, mode), start)
    ensures v.NoSuchRule? <==> start !in g.rules
    ensures Termination.Terminating(g) && fuel >= Termination.Depth(g, input) ==> !v.Exhausted?
    ensures forall w: Totality.Ranking | w.g == g && Totality.Ranked(w) && fuel >= Totality.Enough(w, input) ::
              !v.Exhausted?
    ensures v.Accepted? || v.Rejected? || v.Escaped? ==>
              forall k: nat | PegRun(g, input, k, start, 0).Some? ::
                && (v.Accepted? <==> PegRun(g, input, k, start, 0).value.out == Yes(end))
                && (v.Rejected? || v.Escaped? <==> !PegRun(g, input, k, start, 0).value.out.Yes?)
                && (v.Accepted? ==> v.tree.Some?)
                && PegSkip(g, input, k, g.skipper.Some?, 0).Some?
                && (v.Escaped? <==> PegSkip(g, input, k, g.skipper.Some?, 0).value.out.Throw?)
  {
    hide PegRun, PegSkip, WellFormed, Termination.Depth, Termination.Terminating, Totality.Ranked, Totality.Enough,
        Summary, MemoSound, Trees.Shown, Phases.Foldable, Phases.Filed, Phases.RunValue;
    Transparency.FreshIsIdle(Setting(g, input, mode));
    Roots.FreshIsPlanted(input);
    var c := new Context(input);
    v := ParseWith(g, c, fuel, start, mode);
    end := c.position;
  }
}
