/** How the readings of one grammar are related.  Marking rules as grown never changes an answer of Ford's semantics,
    which marks none; and since the parser knows nothing of the marks, all readings agree wherever they answer. */
module Readings {
  import opened Grammars
  import opened Depth
  import Machine
  import opened Peg
  import opened Forms
  import opened Soundness
  import opened LeftRecursion
  import opened Limits
  import Reachability
  import Transparency

  /** g with the left recursion of `rs` read as growth, through the partners `ps`, and with the promises `qs`. */
  function Read(g: Grammar, rs: set<RuleId>, ps: map<RuleId, RuleId>, qs: set<RuleId>): Grammar {
    g.(grown := rs, partners := ps, quiet := qs)
  }

  /** Ford's reading: a rule is its body, whatever it looks like. */
  function Ford(g: Grammar): Grammar { Read(g, {}, map[], {}) }

  lemma FordCall(g: Grammar, inp: Input, k: nat, skip: bool, r: RuleId, i: nat)
    requires i <= |inp|
    ensures PegCall(Ford(g), inp, k, skip, r, i) ==
              if k == 0 || r !in g.rules then None
              else Reported(g.rules[r], i, Peg.Peg(Ford(g), inp, k - 1, skip, g.rules[r].body, i, false))
  {
    hide Peg.Peg;
  }

  // ---- the conditions without growth ------------------------------------------------------------

  /** With auto-skip on iff `skip`, `e` reaches every rule in that rule's own mode. */
  ghost predicate InMode(mode: RuleId -> bool, skip: bool, e: Expr) {
    match e
    case Rule(r) => mode(r) == skip
    case Seq(es) => forall j | 0 <= j < |es| :: InMode(mode, skip, es[j])
    case Alt(es) => forall j | 0 <= j < |es| :: InMode(mode, skip, es[j])
    case Rep(child, _, _) => InMode(mode, skip, child)
    case Not(child) => InMode(mode, skip, child)
    case And(child) => InMode(mode, skip, child)
    case Lexeme(child) => InMode(mode, false, child)
    case _ => true
  }

  lemma {:induction false} UsableIsInMode(g: Grammar, mode: RuleId -> bool, skip: bool, e: Expr)
    ensures Usable(Ford(g), mode, skip, e) <==> InMode(mode, skip, e)
    decreases e
  {
    match e
    case Seq(es) => forall j | 0 <= j < |es|
      ensures Usable(Ford(g), mode, skip, es[j]) <==> InMode(mode, skip, es[j])
          { UsableIsInMode(g, mode, skip, es[j]); }
    case Alt(es) => forall j | 0 <= j < |es|
      ensures Usable(Ford(g), mode, skip, es[j]) <==> InMode(mode, skip, es[j])
          { UsableIsInMode(g, mode, skip, es[j]); }
    case Rep(child, _, _) => UsableIsInMode(g, mode, skip, child);
    case Not(child) => UsableIsInMode(g, mode, skip, child);
    case And(child) => UsableIsInMode(g, mode, skip, child);
    case Lexeme(child) => UsableIsInMode(g, mode, false, child);
    case _ =>
  }

  /** Under Ford's reading no shape of a rule is excluded, nor are cuts next to left recursion: what is asked is one
      mode per rule, cuts enclosed in their rule body, and no recovery. */
  lemma FordConditions(g: Grammar, mode: RuleId -> bool)
    ensures WellFormed(Ford(g), mode) <==>
              && (g.skipper.Some? ==> !mode(g.skipper.value))
              && forall r | r in g.rules ::
                   && g.rules[r].recovery.None? && CutsEnclosed(g.rules[r].body)
                   && InMode(mode, mode(r), g.rules[r].body)
  {
    hide CutsEnclosed, InMode, Usable;
    forall r | r in g.rules
      ensures Usable(Ford(g), mode, mode(r), g.rules[r].body) <==> InMode(mode, mode(r), g.rules[r].body)
    {
      UsableIsInMode(g, mode, mode(r), g.rules[r].body);
    }
    assert NoLeftRec(Ford(g));
    assert forall r :: !IsPartner(Ford(g), r);
  }

  // ---- growth keeps Ford's answers --------------------------------------------------------------

  lemma {:induction false} KeptExpr(g: Grammar, mode: RuleId -> bool, inp: Input, k: nat, skip: bool, e: Expr, i: nat,
      cut: bool)
    requires WellFormed(g, mode) && Usable(g, mode, skip, e) && i <= |inp|
    ensures Stays(Peg.Peg(Ford(g), inp, k, skip, e, i, cut), Peg.Peg(g, inp, k, skip, e, i, cut))
    decreases k, 1, e
  {
    hide WellFormed, IsPartner, NoLeftRec;
    match e
    case Seq(_) => KeptSeq(g, mode, inp, k, skip, e, 0, i, cut);
    case Alt(_) => KeptAlt(g, mode, inp, k, skip, e, 0, i);
    case Rep(_, _, _) => KeptRep(g, mode, inp, k, skip, e, 0, i);
    case Not(child) => KeptExpr(g, mode, inp, k, skip, child, i, cut);
    case And(child) => KeptExpr(g, mode, inp, k, skip, child, i, cut);
    case Lexeme(child) => KeptExpr(g, mode, inp, k, false, child, i, cut);
    case Rule(r) => KeptCall(g, mode, inp, k, skip, r, i);
    case _ =>
  }

  lemma {:induction false} KeptSkip(g: Grammar, mode: RuleId -> bool, inp: Input, k: nat, skip: bool, i: nat)
    requires WellFormed(g, mode) && i <= |inp|
    ensures Stays(PegSkip(Ford(g), inp, k, skip, i), PegSkip(g, inp, k, skip, i))
    decreases k, 0, 2
  {
    hide PegCall, IsPartner, NoLeftRec, NoCuts, UsableIn, FitPartner, CutsEnclosed, Usable;
    if skip && g.skipper.Some? { KeptCall(g, mode, inp, k, false, g.skipper.value, i); }
  }

  lemma {:induction false} KeptSeq(g: Grammar, mode: RuleId -> bool, inp: Input, k: nat, skip: bool, e: Expr, j: nat,
      i: nat, cut: bool)
    requires WellFormed(g, mode) && e.Seq? && j <= |e.es| && i <= |inp|
    requires forall l | j <= l < |e.es| :: Usable(g, mode, skip, e.es[l])
    ensures Stays(PegSeq(Ford(g), inp, k, skip, e, j, i, cut), PegSeq(g, inp, k, skip, e, j, i, cut))
    decreases k, 1, e, |e.es| - j
  {
    hide WellFormed, Usable, Peg.Peg, PegSkip, Ford;
    if j < |e.es| {
      KeptSkip(g, mode, inp, k, skip, i);
      var w := if j > 0 then PegSkip(Ford(g), inp, k, skip, i) else Some(Answer(Yes(i), cut, {}));
      if w.Some? && w.value.out.Yes? {
        var p := w.value.out.end;
        KeptExpr(g, mode, inp, k, skip, e.es[j], p, cut);
        var a := Peg.Peg(Ford(g), inp, k, skip, e.es[j], p, cut);
        if a.Some? && a.value.out.Yes? { KeptSeq(g, mode, inp, k, skip, e, j + 1, a.value.out.end, a.value.cut); }
        assert Stays(PegSeqNext(Ford(g), inp, k, skip, e, j, p, cut), PegSeqNext(g, inp, k, skip, e, j, p, cut));
      }
    }
  }

  lemma {:induction false} KeptAlt(g: Grammar, mode: RuleId -> bool, inp: Input, k: nat, skip: bool, e: Expr, j: nat,
      i: nat)
    requires WellFormed(g, mode) && e.Alt? && j <= |e.es| && i <= |inp| && Usable(g, mode, skip, e)
    ensures Stays(PegAlt(Ford(g), inp, k, skip, e, j, i), PegAlt(g, inp, k, skip, e, j, i))
    decreases k, 1, e, |e.es| - j
  {
    hide WellFormed, Peg.Peg, Ford, NoLeftRec;
    if j < |e.es| {
      KeptExpr(g, mode, inp, k, skip, e.es[j], i, false);
      KeptAlt(g, mode, inp, k, skip, e, j + 1, i);
    }
  }

  lemma {:induction false} KeptRep(g: Grammar, mode: RuleId -> bool, inp: Input, k: nat, skip: bool, e: Expr,
      count: nat, i: nat)
    requires WellFormed(g, mode) && e.Rep? && i <= |inp| && Usable(g, mode, skip, e.child)
    ensures Stays(PegRep(Ford(g), inp, k, skip, e, count, i), PegRep(g, inp, k, skip, e, count, i))
    decreases k, 1, e, |inp| - i
  {
    hide WellFormed, Usable, Peg.Peg, PegSkip, Ford;
    KeptSkip(g, mode, inp, k, skip, i);
    var w := if count > 0 then PegSkip(Ford(g), inp, k, skip, i) else Some(Answer(Yes(i), false, {}));
    if w.Some? && w.value.out.Yes? {
      var p := w.value.out.end;
      KeptExpr(g, mode, inp, k, skip, e.child, p, false);
      var a := Peg.Peg(Ford(g), inp, k, skip, e.child, p, false);
      if a.Some? && a.value.out.Yes? && a.value.out.end > p && !(e.max > 0 && count + 1 >= e.max) {
        KeptRep(g, mode, inp, k, skip, e, count + 1, a.value.out.end);
      }
      assert Stays(PegRepTry(Ford(g), inp, k, skip, e, count, i, p), PegRepTry(g, inp, k, skip, e, count, i, p));
    }
  }

  lemma {:induction false} KeptCall(g: Grammar, mode: RuleId -> bool, inp: Input, k: nat, skip: bool, r: RuleId, i: nat)
    requires WellFormed(g, mode) && mode(r) == skip && !IsPartner(g, r) && i <= |inp|
    ensures Stays(PegCall(Ford(g), inp, k, skip, r, i), PegCall(g, inp, k, skip, r, i))
    decreases k, 0, 1
  {
    hide WellFormed, Peg.Peg, PegGrow, IsPartner, IsLeftRec, Ford, PegCall;
    if k > 0 && r in g.rules && PegCall(Ford(g), inp, k, skip, r, i).Some? {
      if PegCall(Ford(g), inp, k - 1, skip, r, i).Some? {
        KeptCall(g, mode, inp, k - 1, skip, r, i);
        Depth.DeeperCall(g, inp, k - 1, k, skip, r, i);
        Depth.DeeperCall(Ford(g), inp, k - 1, k, skip, r, i);
      } else {
        KeptBody(g, mode, inp, k, skip, r, i);
      }
    } else {
      FordCall(g, inp, k, skip, r, i);
    }
  }

  /** A rule at the least depth at which Ford's semantics answers it: it is not re-entered on the way. */
  lemma {:induction false} KeptBody(g: Grammar, mode: RuleId -> bool, inp: Input, k: nat, skip: bool, r: RuleId, i: nat)
    requires WellFormed(g, mode) && k > 0 && r in g.rules && mode(r) == skip && !IsPartner(g, r) && i <= |inp|
    requires PegCall(Ford(g), inp, k, skip, r, i).Some? && PegCall(Ford(g), inp, k - 1, skip, r, i).None?
    ensures PegCall(g, inp, k, skip, r, i) == PegCall(Ford(g), inp, k, skip, r, i)
    decreases k, 0, 0
  {
    FordCall(g, inp, k, skip, r, i);
    hide WellFormed, Peg.Peg, PegGrow, IsPartner, IsLeftRec, Usable, Ford;
    var body := g.rules[r].body;
    if IsLeftRec(g, r) {
      KeptGrow(g, mode, inp, k - 1, skip, r, i);
    } else {
      BodyFits(g, mode, r);
      KeptExpr(g, mode, inp, k - 1, skip, body, i, false);
    }
  }

  lemma BodyFits(g: Grammar, mode: RuleId -> bool, r: RuleId)
    requires WellFormed(g, mode) && r in g.rules && !IsPartner(g, r) && !IsLeftRec(g, r)
    ensures Usable(g, mode, mode(r), g.rules[r].body)
  {
  }

  /** What well-formedness says of a grown rule and of its partners. */
  lemma GrownFits(g: Grammar, mode: RuleId -> bool, r: RuleId)
    requires WellFormed(g, mode) && IsLeftRec(g, r) && !IsPartner(g, r)
    ensures UsableIn(g, mode, r, g.rules[r].body) && CutFree(g.rules[r].body)
    ensures forall m | Serves(g, m, r) :: UsableIn(g, mode, r, g.rules[m].body) && CutFree(g.rules[m].body)
  {
    hide UsableIn, CutFree, CutsEnclosed, Usable, Calm, NoCuts;
    QuietIsCalm(g, mode, r);
    CalmIsCutFree(g, g.rules[r].body);
    forall m | Serves(g, m, r) ensures UsableIn(g, mode, r, g.rules[m].body) && CutFree(g.rules[m].body) {
      QuietIsCalm(g, mode, m);
      CalmIsCutFree(g, g.rules[m].body);
    }
  }

  /** With any seed, a step is the body itself: Ford's semantics answers nothing that re-enters a rule that it does
      not answer. */
  lemma {:induction false} KeptIn(g: Grammar, mode: RuleId -> bool, inp: Input, k: nat, skip: bool, r: RuleId, e: Expr,
      i: nat, seed: Option<nat>)
    requires WellFormed(g, mode) && IsLeftRec(g, r) && !IsPartner(g, r) && mode(r) == skip && i <= |inp|
    requires UsableIn(g, mode, r, e) && CutFree(e) && (seed.Some? ==> i < seed.value <= |inp|)
    requires PegCall(Ford(g), inp, k, skip, r, i).None? && Peg.Peg(Ford(g), inp, k, skip, e, i, false).Some?
    ensures PegIn(g, inp, k, skip, r, e, i, seed) == Peg.Peg(Ford(g), inp, k, skip, e, i, false)
    decreases k, 2, e
  {
    hide WellFormed, PegInAlt, PegAlt, PegCall, Ford, IsLeftRec, IsPartner;
    match e
    case Rule(m) =>
      if m == r {
        RuleIs(Ford(g), inp, k, skip, r, i);
        assert false;
      } else if Serves(g, m, r) {
        KeptPartner(g, mode, inp, k, skip, r, m, i, seed);
      } else {
        KeptExpr(g, mode, inp, k, skip, e, i, false);
      }
    case Alt(_) =>
      ChoiceIs(Ford(g), inp, k, skip, e, i);
      KeptInAlt(g, mode, inp, k, skip, r, e, 0, i, seed);
    case Seq(_) => KeptInSeq(g, mode, inp, k, skip, r, e, i, seed);
    case Cut => assert false;
    case _ => KeptExpr(g, mode, inp, k, skip, e, i, false);
  }

  lemma RuleIs(g: Grammar, inp: Input, k: nat, skip: bool, r: RuleId, i: nat)
    requires i <= |inp|
    ensures Peg.Peg(g, inp, k, skip, Rule(r), i, false) == InScope(PegCall(g, inp, k, skip, r, i), false)
  {
    hide PegCall;
  }

  lemma {:induction false} KeptPartner(g: Grammar, mode: RuleId -> bool, inp: Input, k: nat, skip: bool, r: RuleId,
      m: RuleId, i: nat, seed: Option<nat>)
    requires WellFormed(g, mode) && IsLeftRec(g, r) && !IsPartner(g, r) && mode(r) == skip && i <= |inp|
    requires Serves(g, m, r) && (seed.Some? ==> i < seed.value <= |inp|)
    requires PegCall(Ford(g), inp, k, skip, r, i).None? && Peg.Peg(Ford(g), inp, k, skip, Rule(m), i, false).Some?
    ensures PegIn(g, inp, k, skip, r, Rule(m), i, seed) == Peg.Peg(Ford(g), inp, k, skip, Rule(m), i, false)
    decreases k, 2, Rule(m), 0
  {
    hide WellFormed, PegCall, Ford, IsLeftRec, IsPartner, Peg.Peg;
    RuleIs(Ford(g), inp, k, skip, m, i);
    FordCall(g, inp, k, skip, m, i);
    if k > 0 {
      Depth.DeeperCall(Ford(g), inp, k - 1, k, skip, r, i);
      GrownFits(g, mode, r);
      KeptIn(g, mode, inp, k - 1, skip, r, g.rules[m].body, i, seed);
      FlagKept(Ford(g), inp, k - 1, skip, g.rules[m].body, i, false);
    }
  }

  lemma {:induction false} KeptInAlt(g: Grammar, mode: RuleId -> bool, inp: Input, k: nat, skip: bool, r: RuleId,
      e: Expr, j: nat, i: nat, seed: Option<nat>)
    requires WellFormed(g, mode) && IsLeftRec(g, r) && !IsPartner(g, r) && mode(r) == skip && i <= |inp|
    requires e.Alt? && j <= |e.es| && UsableIn(g, mode, r, e) && CutFree(e) && (seed.Some? ==> i < seed.value <= |inp|)
    requires PegCall(Ford(g), inp, k, skip, r, i).None? && PegAlt(Ford(g), inp, k, skip, e, j, i).Some?
    ensures PegInAlt(g, inp, k, skip, r, e, j, i, seed) == PegAlt(Ford(g), inp, k, skip, e, j, i)
    ensures !PegAlt(Ford(g), inp, k, skip, e, j, i).value.cut
    decreases k, 2, e, |e.es| - j
  {
    hide WellFormed, Peg.Peg, PegIn, Ford, IsLeftRec, IsPartner, PegCall;
    if j < |e.es| {
      AltIs(Ford(g), inp, k, skip, e, j, i);
      FlagKept(Ford(g), inp, k, skip, e.es[j], i, false);
      KeptIn(g, mode, inp, k, skip, r, e.es[j], i, seed);
      var a := Peg.Peg(Ford(g), inp, k, skip, e.es[j], i, false);
      if a.value.out.No? { KeptInAlt(g, mode, inp, k, skip, r, e, j + 1, i, seed); }
    }
  }

  lemma {:induction false} KeptInSeq(g: Grammar, mode: RuleId -> bool, inp: Input, k: nat, skip: bool, r: RuleId,
      e: Expr, i: nat, seed: Option<nat>)
    requires WellFormed(g, mode) && IsLeftRec(g, r) && !IsPartner(g, r) && mode(r) == skip && i <= |inp|
    requires e.Seq? && UsableIn(g, mode, r, e) && CutFree(e) && (seed.Some? ==> i < seed.value <= |inp|)
    requires PegCall(Ford(g), inp, k, skip, r, i).None? && Peg.Peg(Ford(g), inp, k, skip, e, i, false).Some?
    ensures PegIn(g, inp, k, skip, r, e, i, seed) == Peg.Peg(Ford(g), inp, k, skip, e, i, false)
    decreases k, 2, e, 0
  {
    hide WellFormed, Ford, IsLeftRec, IsPartner, PegCall, PegSeq, Peg.Peg;
    if e.es == [] {
      NothingKept(g, inp, k, skip, e, i);
    } else {
      SeqSplits(Ford(g), inp, k, skip, e, i, false);
      KeptIn(g, mode, inp, k, skip, r, e.es[0], i, seed);
      FlagKept(Ford(g), inp, k, skip, e.es[0], i, false);
      var a := Peg.Peg(Ford(g), inp, k, skip, e.es[0], i, false);
      if a.value.out.Yes? {
        KeptSeq(g, mode, inp, k, skip, e, 1, a.value.out.end, false);
      }
    }
  }

  lemma NothingKept(g: Grammar, inp: Input, k: nat, skip: bool, e: Expr, i: nat)
    requires e.Seq? && e.es == [] && i <= |inp|
    ensures Peg.Peg(Ford(g), inp, k, skip, e, i, false) == Peg.Peg(g, inp, k, skip, e, i, false)
  {
  }

  lemma {:induction false} KeptGrow(g: Grammar, mode: RuleId -> bool, inp: Input, k: nat, skip: bool, r: RuleId, i: nat)
    requires WellFormed(g, mode) && IsLeftRec(g, r) && !IsPartner(g, r) && mode(r) == skip && i <= |inp|
    requires PegCall(Ford(g), inp, k, skip, r, i).None?
    requires Peg.Peg(Ford(g), inp, k, skip, g.rules[r].body, i, false).Some?
    ensures PegGrow(g, inp, k, skip, r, i, None) == Peg.Peg(Ford(g), inp, k, skip, g.rules[r].body, i, false)
    decreases k, 3
  {
    hide WellFormed, PegIn, PegCall, Ford, Peg.Peg;
    GrownFits(g, mode, r);
    var body := g.rules[r].body;
    KeptIn(g, mode, inp, k, skip, r, body, i, None);
    var a := PegIn(g, inp, k, skip, r, body, i, None).value;
    if a.out.Yes? && a.out.end > i {
      KeptIn(g, mode, inp, k, skip, r, body, i, Some(a.out.end));
      var b := PegIn(g, inp, k, skip, r, body, i, Some(a.out.end)).value;
      assert b.out == a.out && b.evs == a.evs;
      assert PegGrow(g, inp, k, skip, r, i, Some(a.out.end)) == Some(b.(out := Yes(a.out.end)));
      assert a.evs + a.evs == a.evs;
    }
  }

  /** Marking rules as grown keeps every parse that Ford's semantics answers: same outcome, same failures. */
  lemma GrowthExtendsFord(g: Grammar, mode: RuleId -> bool, inp: Input, k: nat, start: RuleId, i: nat)
    requires WellFormed(g, mode) && mode(start) == g.skipper.Some? && !IsPartner(g, start) && i <= |inp|
    ensures Stays(PegRun(Ford(g), inp, k, start, i), PegRun(g, inp, k, start, i))
  {
    hide WellFormed, PegSkip, PegCall, IsPartner, Ford;
    assert Ford(g).skipper == g.skipper by { SameSkipper(g); }
    KeptSkip(g, mode, inp, k, g.skipper.Some?, i);
    var w := PegSkip(Ford(g), inp, k, g.skipper.Some?, i);
    if w.Some? && w.value.out.Yes? { KeptCall(g, mode, inp, k, g.skipper.Some?, start, w.value.out.end); }
  }

  lemma SameSkipper(g: Grammar)
    ensures Ford(g).skipper == g.skipper
  {
  }

  // ---- the parser and the readings --------------------------------------------------------------

  /** The parser is the same under every reading. */
  lemma ParserIgnoresReading(g: Grammar, rs: set<RuleId>, ps: map<RuleId, RuleId>, qs: set<RuleId>, inp: Input,
      fuel: nat, start: RuleId,
      s: Machine.State)
    requires Machine.Good(inp, s)
    ensures Machine.Run(Read(g, rs, ps, qs), inp, fuel, start, s) == Machine.Run(g, inp, fuel, start, s)
  {
    hide Machine.Run;
    var live := Reachability.AllRefs(g) + {start} + (if g.skipper.Some? then {g.skipper.value} else {});
    forall a, b | a in live && Reachability.Step(g, a, b) ensures b in live {
      Reachability.StepIs(g, a, b);
      assert b in Reachability.AllRefs(g);
    }
    Reachability.DeadRulesDoNotMatter(g, Read(g, rs, ps, qs), live, inp, fuel, start, s);
  }

  lemma CallIgnoresReading(g: Grammar, g': Grammar, inp: Input, fuel: nat, skip: bool, r: RuleId, s: Machine.State)
    requires Machine.Good(inp, s) && g' == Read(g, g'.grown, g'.partners, g'.quiet)
    ensures Machine.Call(g', inp, fuel, skip, r, s) == Machine.Call(g, inp, fuel, skip, r, s)
  {
    hide Machine.Call;
    var live := Reachability.AllRefs(g) + {r} + (if g.skipper.Some? then {g.skipper.value} else {});
    forall a, b | a in live && Reachability.Step(g, a, b) ensures b in live {
      Reachability.StepIs(g, a, b);
      assert b in Reachability.AllRefs(g);
    }
    Reachability.DeadCall(g, g', live, inp, fuel, skip, r, s);
  }

  /** Wherever Ford's semantics answers, the parser answers so, however the grammar is marked. */
  lemma ParsesAsFord(g: Grammar, mode: RuleId -> bool, inp: Input, fuel: nat, k: nat, start: RuleId, s: Machine.State)
    requires Transparency.Idle(Setting(Ford(g), inp, mode), s) && k <= fuel
    requires Transparency.Startable(Setting(Ford(g), inp, mode), start) && PegRun(Ford(g), inp, k, start, s.pos).Some?
    ensures var r := Machine.Run(g, inp, fuel, start, s);
            && Faithful(Setting(Ford(g), inp, mode), NOTHING, s, r, PegRun(Ford(g), inp, k, start, s.pos).value)
            && (r.out.Normal() ==> Transparency.Idle(Setting(Ford(g), inp, mode), r.st))
  {
    hide WellFormed, PegRun, Machine.Run, IsPartner, Soundness.MemoSound, Soundness.FramesKept;
    Transparency.RunIsPeg(Setting(Ford(g), inp, mode), fuel, k, start, s);
    ParserIgnoresReading(g, {}, map[], {}, inp, fuel, start, s);
  }

  /** So two readings that both answer a parse give it the same answer. */
  lemma ReadingsAgree(g: Grammar, rs: set<RuleId>, ps: map<RuleId, RuleId>, qs: set<RuleId>, mode: RuleId -> bool,
      mode': RuleId -> bool,
      inp: Input, k: nat,
      start: RuleId, i: nat)
    requires i <= |inp| && WellFormed(g, mode) && WellFormed(Read(g, rs, ps, qs), mode')
    requires Transparency.Startable(Setting(g, inp, mode), start)
    requires Transparency.Startable(Setting(Read(g, rs, ps, qs), inp, mode'), start)
    requires PegRun(g, inp, k, start, i).Some? && PegRun(Read(g, rs, ps, qs), inp, k, start, i).Some?
    ensures var a, b := PegRun(g, inp, k, start, i).value, PegRun(Read(g, rs, ps, qs), inp, k, start, i).value;
            a.out == b.out && a.evs == b.evs
  {
    hide WellFormed, PegRun, Machine.Run, IsPartner, Soundness.MemoSound, Soundness.FramesKept;
    var c, c' := Setting(g, inp, mode), Setting(Read(g, rs, ps, qs), inp, mode');
    var s := Machine.FRESH.(pos := i);
    AnywhereIdle(c, i);
    AnywhereIdle(c', i);
    Transparency.RunIsPeg(c, k, k, start, s);
    Transparency.RunIsPeg(c', k, k, start, s);
    ParserIgnoresReading(g, rs, ps, qs, inp, k, start, s);
  }

  lemma AnywhereIdle(c: Setting, i: nat)
    requires i <= |c.inp| && WellFormed(c.g, c.mode) && CalmSkip(c)
    ensures Transparency.Idle(c, Machine.FRESH.(pos := i))
  {
    hide WellFormed;
  }

  // ---- a suffix rule used on its own ------------------------------------------------------------

  /** `expr = n / sum; sum = expr '+' n; stmt = sum ';'` with n = 1, + = 2 and ; = 3. */
  function Suffixed(grown: set<RuleId>, partners: map<RuleId, RuleId>): Grammar {
    Grammar(map[
      0 := Plainly("expr", Alt([Char(1), Rule(1)])),
      1 := Plainly("sum", Seq([Rule(0), Char(2), Char(1)])),
      2 := Plainly("stmt", Seq([Rule(1), Char(3)]))], None, grown, partners, {})
  }

  /** With expr marked as grown through sum, sum stands for that growth only, and stmt has no meaning. */
  lemma SuffixOnlyGrows(mode: RuleId -> bool, k: nat)
    ensures !WellFormed(Suffixed({0}, map[1 := 0]), mode)
    ensures PegCall(Suffixed({0}, map[1 := 0]), [1, 2, 1, 3], k, false, 2, 0).None?
  {
    var g := Suffixed({0}, map[1 := 0]);
    assert IsPartner(g, 1) && !IsPartner(g, 2) && !IsLeftRec(g, 2);
    hide IsPartner, IsLeftRec, WellFormed, Usable, PegCall;
    NotWellFormed(g, mode);
    CallUnanswered(g, [1, 2, 1, 3], k);
  }

  lemma NotWellFormed(g: Grammar, mode: RuleId -> bool)
    requires 2 in g.rules && g.rules[2].body == Seq([Rule(1), Char(3)]) && IsPartner(g, 1) && !IsPartner(g, 2)
        && !IsLeftRec(g, 2)
    ensures !WellFormed(g, mode)
  {
    hide IsPartner, IsLeftRec, NoCuts, NoLeftRec, UsableIn, FitPartner, CutsEnclosed;
    NotUsable(g, mode, g.rules[2].body);
  }

  lemma CallUnanswered(g: Grammar, inp: Input, k: nat)
    requires 2 in g.rules && g.rules[2].body == Seq([Rule(1), Char(3)]) && IsPartner(g, 1) && !IsLeftRec(g, 2)
    ensures PegCall(g, inp, k, false, 2, 0).None?
  {
    hide IsPartner, IsLeftRec, Peg.Peg;
    if k > 0 { Unanswered(g, inp, k - 1, g.rules[2].body); }
  }

  lemma NotUsable(g: Grammar, mode: RuleId -> bool, e: Expr)
    requires e == Seq([Rule(1), Char(3)]) && IsPartner(g, 1)
    ensures !Usable(g, mode, mode(2), e)
  {
    hide IsPartner;
    assert e.es[0] == Rule(1);
    assert !Usable(g, mode, mode(2), e.es[0]);
  }

  lemma StartUnanswered(g: Grammar, inp: Input, k: nat, skip: bool, r: RuleId, e: Expr, i: nat)
    requires e.Seq? && e.es != [] && IsRule(e.es[0], r) && i <= |inp| && PegCall(g, inp, k, skip, r, i).None?
    ensures Peg.Peg(g, inp, k, skip, e, i, false).None?
  {
    hide PegCall;
    assert Peg.Peg(g, inp, k, skip, e.es[0], i, false).None?;
    assert PegSeqNext(g, inp, k, skip, e, 0, i, false).None?;
  }

  lemma Unanswered(g: Grammar, inp: Input, k: nat, e: Expr)
    requires e == Seq([Rule(1), Char(3)]) && IsPartner(g, 1)
    ensures Peg.Peg(g, inp, k, false, e, 0, false).None?
  {
    hide IsPartner;
    assert e.es[0] == Rule(1) && PegCall(g, inp, k, false, 1, 0).None?;
    StartUnanswered(g, inp, k, false, 1, e, 0);
  }

  /** Without the mark the conditions hold, and stmt matches the whole of "n+n;". */
  lemma SuffixOnItsOwn(k: nat)
    requires k >= 3
    ensures WellFormed(Suffixed({}, map[]), OneMode())
    ensures Ends(PegCall(Suffixed({}, map[]), [1, 2, 1, 3], k, false, 2, 0), Yes(4))
  {
    SuffixWellFormed();
    hide WellFormed;
    var g, inp := Suffixed({}, map[]), [1, 2, 1, 3];
    var sum, stmt := g.rules[1].body, g.rules[2].body;
    assert Ends(PegAlt(g, inp, k - 3, false, g.rules[0].body, 0, 0), Yes(1));
    assert Ends(PegCall(g, inp, k - 2, false, 0, 0), Yes(1));
    SumMatches(g, inp, k - 2, sum);
    assert Ends(PegCall(g, inp, k - 1, false, 1, 0), Yes(3));
    StmtMatches(g, inp, k - 1, stmt);
  }

  lemma SuffixWellFormed()
    ensures WellFormed(Suffixed({}, map[]), OneMode())
  {
    var g, mode := Suffixed({}, map[]), OneMode();
    FordConditions(g, mode);
    hide WellFormed, CutsEnclosed, InMode;
    Harmless(mode, [Char(1), Rule(1)]);
    Harmless(mode, [Rule(0), Char(2), Char(1)]);
    Harmless(mode, [Rule(1), Char(3)]);
  }

  /** Choices and sequences of elements and rules. */
  lemma Harmless(mode: RuleId -> bool, es: seq<Expr>)
    requires (forall r :: !mode(r)) && forall e | e in es :: e.Terminal? || e.Rule?
    ensures InMode(mode, false, Seq(es)) && InMode(mode, false, Alt(es)) && CutsEnclosed(Seq(es))
        && CutsEnclosed(Alt(es))
  {
  }

  lemma SumMatches(g: Grammar, inp: Input, k: nat, e: Expr)
    requires g.skipper.None? && inp == [1, 2, 1, 3] && e == Seq([Rule(0), Char(2), Char(1)])
    requires Ends(PegCall(g, inp, k, false, 0, 0), Yes(1))
    ensures Ends(Peg.Peg(g, inp, k, false, e, 0, false), Yes(3))
  {
    hide PegCall;
    assert e.es[0] == Rule(0) && e.es[1] == Char(2) && e.es[2] == Char(1);
    assert Ends(PegSeq(g, inp, k, false, e, 3, 3, false), Yes(3));
    assert Ends(PegSeqNext(g, inp, k, false, e, 2, 2, false), Yes(3));
    assert Ends(PegSeq(g, inp, k, false, e, 2, 2, false), Yes(3));
    assert Ends(PegSeqNext(g, inp, k, false, e, 1, 1, false), Yes(3));
    assert Ends(PegSeq(g, inp, k, false, e, 1, 1, false), Yes(3));
    assert Ends(PegSeqNext(g, inp, k, false, e, 0, 0, false), Yes(3));
  }

  lemma StmtMatches(g: Grammar, inp: Input, k: nat, e: Expr)
    requires g.skipper.None? && inp == [1, 2, 1, 3] && e == Seq([Rule(1), Char(3)])
    requires Ends(PegCall(g, inp, k, false, 1, 0), Yes(3))
    ensures Ends(Peg.Peg(g, inp, k, false, e, 0, false), Yes(4))
  {
    hide PegCall;
    assert e.es[0] == Rule(1) && e.es[1] == Char(3);
    assert Ends(PegSeq(g, inp, k, false, e, 2, 4, false), Yes(4));
    assert Ends(PegSeqNext(g, inp, k, false, e, 1, 3, false), Yes(4));
    assert Ends(PegSeq(g, inp, k, false, e, 1, 3, false), Yes(4));
    assert Ends(PegSeqNext(g, inp, k, false, e, 0, 0, false), Yes(4));
  }
}
