/** Error recovery.  A recovering rule that fails resumes behind the next sync element and leaves one
    diagnostic.  In a grammar without cuts in which no rule can re-enter itself before consuming, the
    recovered result is cached, so no rule ever leaves two diagnostics for one position, however often
    backtracking comes back to it. */
module Recoveries {
  import opened Grammars
  import opened Machine
  import opened Peg
  import opened Totality
  import opened Layers

  // ---- one recovery -----------------------------------------------------------------------------

  /** Where parsing resumes: one past the first sync element at or after p, or at the end of the input. */
  ghost predicate Resumes(inp: Input, isSync: Sym -> bool, p: nat, q: nat) {
    && p <= q <= |inp|
    && if p < q && isSync(inp[q - 1]) then forall i | p <= i < q - 1 :: !isSync(inp[i])
       else q == |inp| && forall i | p <= i < q :: !isSync(inp[i])
  }

  lemma ResumesOnce(inp: Input, isSync: Sym -> bool, p: nat, q: nat, q': nat)
    requires Resumes(inp, isSync, p, q) && Resumes(inp, isSync, p, q')
    ensures q == q'
  {
  }

  /** The scan finds the one place. */
  lemma ScanResumes(inp: Input, isSync: Sym -> bool, p: nat)
    requires p <= |inp|
    ensures var sync := Scan(inp, isSync, p);
            forall q: nat :: Resumes(inp, isSync, p, q) <==> q == if sync < |inp| then sync + 1 else |inp|
  {
    var sync := Scan(inp, isSync, p);
    var end := if sync < |inp| then sync + 1 else |inp|;
    assert Resumes(inp, isSync, p, end);
    forall q: nat | Resumes(inp, isSync, p, q) ensures q == end { ResumesOnce(inp, isSync, p, q, end); }
  }

  /** A rule entered for the first time, whose body fails: with recovery and no committed cut it succeeds
      where parsing resumes; otherwise it fails where it started.  Either way, unless its entry was evicted, the
      rule gives the same answer there ever after, with no further diagnostic. */
  lemma RecoveryResyncs(g: Grammar, inp: Input, fuel: nat, skip: bool, rule: RuleId, s: State, fuel': nat, skip': bool)
    requires Good(inp, s) && fuel > 0 && rule in g.rules && Key(s.pos, rule) !in s.memo
    requires Grow(g, inp, fuel - 1, skip, Key(s.pos, rule), s.pos, Fail, Enter(s, Key(s.pos, rule))).out.Fail?
    ensures var k := Key(s.pos, rule);
            var def := g.rules[rule];
            var body := Grow(g, inp, fuel - 1, skip, k, s.pos, Fail, Enter(s, k));
            var r := Call(g, inp, fuel, skip, rule, s);
            && (if def.recovery.Some? && !CutSet(body.st) then
                  && r.out == Ok(None)
                  && (forall q: nat :: Resumes(inp, def.recovery.value.isSync, s.pos, q) <==> q == r.st.pos)
                  && r.st.diags == body.st.diags + [Note(def, s.pos)]
                else
                  && r.out.Fail? && r.st.pos == s.pos && r.st.diags == body.st.diags)
            && (k in body.st.memo ==>
                  var again := Call(g, inp, fuel', skip', rule, r.st.(pos := s.pos));
                  again.out == r.out && again.st.pos == r.st.pos && again.st.diags == r.st.diags
                      && again.st.memo == r.st.memo)
  {
    hide Grow, Bounded, Resumes, Scan;
    if g.rules[rule].recovery.Some? { ScanResumes(inp, g.rules[rule].recovery.value.isSync, s.pos); }
  }

  // ---- the report of a failing rule -------------------------------------------------------------

  /** What a rule adds to the failures of its body, for every grammar, whether it recovers or not: if the body fails,
      its label, or without one its name, expected where the rule started, or nothing if it has neither; if the body
      matches, nothing. */
  lemma FailureIsReported(g: Grammar, inp: Input, fuel: nat, skip: bool, rule: RuleId, s: State)
    requires Good(inp, s) && fuel > 0 && rule in g.rules && Key(s.pos, rule) !in s.memo
    ensures var k, def := Key(s.pos, rule), g.rules[rule];
            var body := Grow(g, inp, fuel - 1, skip, k, s.pos, Fail, Enter(s, k));
            var r := Call(g, inp, fuel, skip, rule, s);
            && (body.out.Fail? && def.tag != "" ==>
                  r.st.failures == body.st.failures + {Failure(s.pos, Item(RuleLabel, def.tag))})
            && (body.out.Fail? && def.tag == "" && def.name != "" ==>
                  r.st.failures == body.st.failures + {Failure(s.pos, Item(RuleName, def.name))})
            && (body.out.Fail? && def.tag == "" && def.name == "" ==> r.st.failures == body.st.failures)
            && (!body.out.Fail? ==> r.st.failures == body.st.failures)
  {
    hide Grow, Bounded, Scan;
  }

  /** A recovering rule notes its own tag, or without one its name, where it started. */
  lemma RecoveryIsNoted(g: Grammar, inp: Input, fuel: nat, skip: bool, rule: RuleId, s: State)
    requires Good(inp, s) && fuel > 0 && rule in g.rules && Key(s.pos, rule) !in s.memo
    requires g.rules[rule].recovery.Some?
    ensures var k, def := Key(s.pos, rule), g.rules[rule];
            var body := Grow(g, inp, fuel - 1, skip, k, s.pos, Fail, Enter(s, k));
            var r := Call(g, inp, fuel, skip, rule, s);
            body.out.Fail? && r.out.Ok? ==>
              && (def.recovery.value.tag != "" ==>
                    r.st.diags == body.st.diags + [Diagnostic(s.pos, Item(RuleLabel, def.recovery.value.tag))])
              && (def.recovery.value.tag == "" ==>
                    r.st.diags == body.st.diags + [Diagnostic(s.pos, Item(RuleLabel, def.name))])
  {
    hide Grow, Bounded, Scan;
  }

  /** The memo-free answer of a body, grown or not. */
  ghost function Unreported(g: Grammar, inp: Input, k: nat, skip: bool, r: RuleId, i: nat): Option<Answer>
    requires i <= |inp| && r in g.rules
  {
    if IsLeftRec(g, r) then PegGrow(g, inp, k, skip, r, i, None)
    else Peg.Peg(g, inp, k, skip, g.rules[r].body, i, false)
  }

  /** The same report without a memo. */
  lemma AnswerIsReported(g: Grammar, inp: Input, k: nat, skip: bool, r: RuleId, i: nat)
    requires i <= |inp| && r in g.rules && !IsPartner(g, r) && Unreported(g, inp, k, skip, r, i).Some?
    ensures var def, body := g.rules[r], Unreported(g, inp, k, skip, r, i).value;
            var a := PegCall(g, inp, k + 1, skip, r, i);
            && a.Some? && a.value.out == body.out
            && (body.out.No? && def.tag != "" ==> a.value.evs == body.evs + {Failure(i, Item(RuleLabel, def.tag))})
            && (body.out.No? && def.tag == "" && def.name != "" ==>
                  a.value.evs == body.evs + {Failure(i, Item(RuleName, def.name))})
            && (body.out.No? && def.tag == "" && def.name == "" ==> a.value.evs == body.evs)
            && (!body.out.No? ==> a.value.evs == body.evs)
  {
    hide Peg.Peg, PegGrow;
  }

  // ---- whole parses -----------------------------------------------------------------------------

  /** What is true between parses: the diagnostics are those of `ks`, distinct (rule, position) pairs whose
      recovered entries are in the memo. */
  ghost predicate Accounted(w: Ranking, s: State) {
    && s.lr == [] && s.heads == {} && s.scope.None? && Eaten(w, s) && Paid(w, FRESH, s)
    && exists ks :: Logged(w.g, FRESH, s, ks)
  }

  /** One diagnostic per rule and position over any number of parses on one context. */
  lemma OneDiagnosticPerFailure(w: Ranking, inp: Input, fuel: nat, rule: RuleId, s: State)
    requires Layered(w) && Good(inp, s) && Accounted(w, s)
    ensures var r := Run(w.g, inp, fuel, rule, s);
            r.out.Normal() ==> Accounted(w, r.st)
  {
    hide Call, Skip, Logged, Bounded;
    var skip := w.g.skipper.Some?;
    LogSkip(w, inp, fuel, skip, s, w.top);
    var k := Skip(w.g, inp, fuel, skip, s);
    if k.out.Ok? {
      CalmAfter(w, inp, w.top, s, k.st);
      LogCall(w, inp, fuel, skip, rule, k.st, w.top);
      var r := Call(w.g, inp, fuel, skip, rule, k.st);
      if r.out.Normal() {
        StepsFromFresh(w, s);
        StepsTrans(w, {}, FRESH, s, k.st);
        StepsTrans(w, {}, FRESH, k.st, r.st);
      }
    }
  }

  lemma StepsFromFresh(w: Ranking, s: State)
    requires Accounted(w, s)
    ensures Steps(w, {}, FRESH, s)
  {
  }
}
