/** Grammars without cuts in which no rule can re-enter itself before consuming: the memo only grows, what is in
    it never changes, and parsing again where it was parsed before finds everything there.  Rules may recover,
    and may be reached in both auto-skip modes. */
module Layers {
  import opened Grammars
  import opened Machine
  import opened Forms
  import opened Totality

  /** The diagnostic of a recovery at p. */
  function Note(def: RuleDef, p: nat): Diagnostic
    requires def.recovery.Some?
  {
    Diagnostic(p, Item(RuleLabel, if def.recovery.value.tag == "" then def.name else def.recovery.value.tag))
  }

  /** What a rule enters at its own start ranks lower, and nothing is cut. */
  ghost predicate Layered(w: Ranking) {
    && (forall r: RuleId :: w.rank(r) < w.top)
    && forall r | r in w.g.rules ::
         && Low(w, w.rank(r), w.g.rules[r].body) && CutFree(w.g.rules[r].body)
         && (r in w.eats ==> w.g.rules[r].recovery.None? && Consumes(w.eats, w.g.rules[r].body))
  }

  lemma {:induction false} LowTop(w: Ranking, e: Expr)
    requires Layered(w)
    ensures Low(w, w.top, e)
    decreases e, 1
  {
    match e
    case Seq(_) => LowFromTop(w, e, 0);
    case Alt(es) => forall j | 0 <= j < |es| ensures Low(w, w.top, es[j]) { LowTop(w, es[j]); }
    case Rep(child, _, _) => LowTop(w, child);
    case Not(child) => LowTop(w, child);
    case And(child) => LowTop(w, child);
    case Lexeme(child) => LowTop(w, child);
    case _ =>
  }

  lemma {:induction false} LowFromTop(w: Ranking, e: Expr, j: nat)
    requires Layered(w) && e.Seq? && j <= |e.es|
    ensures LowFrom(w, w.top, e, j)
    decreases e, 0, |e.es| - j
  {
    if j < |e.es| {
      LowTop(w, e.es[j]);
      LowFromTop(w, e, j + 1);
    }
  }

  // ---- the invariant ----------------------------------------------------------------------------

  /** At the current position only rules ranked m or higher are being evaluated. */
  ghost predicate Above(w: Ranking, m: nat, s: State) {
    forall k | k in s.lr :: k.pos <= s.pos && (k.pos == s.pos ==> w.rank(k.rule) >= m)
  }

  /** Entries of rules that always consume do. */
  ghost predicate Eaten(w: Ranking, s: State) {
    forall k | k in s.memo && k.rule in w.eats && s.memo[k].ok :: s.memo[k].end > k.pos
  }

  ghost predicate Calm(w: Ranking, inp: Input, m: nat, s: State) {
    Good(inp, s) && s.heads == {} && !CutSet(s) && Above(w, m, s) && Eaten(w, s)
  }

  ghost predicate Recovered(g: Grammar, s: State, k: Key) {
    && k.rule in g.rules && g.rules[k.rule].recovery.Some?
    && k in s.memo && s.memo[k].ok && s.memo[k].tree.None?
  }

  /** Every body evaluated from s to s' belongs to an entry made on the way, at most two to each; and an entry
      is made for defined rules only. */
  ghost predicate Paid(w: Ranking, s: State, s': State) {
    && s'.evals + 2 * |s.memo.Keys| <= s.evals + 2 * |s'.memo.Keys|
    && forall k | k in s'.memo :: k in s.memo || k.rule in w.g.rules
  }

  /** From s to s' the rules `ks`, new to the memo and all different, recovered, in this order. */
  ghost predicate Logged(g: Grammar, s: State, s': State, ks: seq<Key>) {
    && |s'.diags| == |s.diags| + |ks| && s'.diags[..|s.diags|] == s.diags
    && (forall i | 0 <= i < |ks| ::
          ks[i] !in s.memo && Recovered(g, s', ks[i]) && s'.diags[|s.diags| + i] ==
              Note(g.rules[ks[i].rule], ks[i].pos))
    && (forall i, j | 0 <= i < j < |ks| :: ks[i] != ks[j])
  }

  /** Entries stay as they are, but for `but`; every new diagnostic is accounted for. */
  ghost predicate Steps(w: Ranking, but: set<Key>, s: State, s': State) {
    && s'.lr == s.lr && s'.heads == {} && !CutSet(s') && Eaten(w, s')
    && (forall k | k in s.memo :: k in s'.memo && (k !in but ==> s'.memo[k] == s.memo[k]))
    && Paid(w, s, s')
    && exists ks :: Logged(w.g, s, s', ks)
  }

  ghost predicate Logs(w: Ranking, s: State, r: Result, consumes: bool) {
    r.out.Normal() ==> Steps(w, {}, s, r.st) && (r.out.Ok? && consumes ==> r.st.pos > s.pos)
  }

  lemma StepsTrans(w: Ranking, but: set<Key>, s: State, s1: State, s2: State)
    requires Steps(w, but, s, s1) && Steps(w, but, s1, s2) && forall k | k in but :: k in s.memo
    ensures Steps(w, but, s, s2)
  {
    hide Logged;
    LoggedTrans(w, but, s, s1, s2);
  }

  lemma LoggedTrans(w: Ranking, but: set<Key>, s: State, s1: State, s2: State)
    requires Steps(w, but, s, s1) && Steps(w, but, s1, s2) && forall k | k in but :: k in s.memo
    ensures exists ks :: Logged(w.g, s, s2, ks)
  {
    hide Paid, Eaten;
    var ks1: seq<Key> :| Logged(w.g, s, s1, ks1);
    var ks2: seq<Key> :| Logged(w.g, s1, s2, ks2);
    forall i | 0 <= i < |ks1| ensures Recovered(w.g, s2, ks1[i]) {
      assert ks1[i] !in s.memo;
    }
    assert s2.diags[..|s.diags|] == s2.diags[..|s1.diags|][..|s.diags|];
    forall i | 0 <= i < |ks1| ensures s2.diags[|s.diags| + i] == Note(w.g.rules[ks1[i].rule], ks1[i].pos) {
      assert s2.diags[..|s1.diags|][|s.diags| + i] == s1.diags[|s.diags| + i];
    }
    assert Logged(w.g, s, s2, ks1 + ks2);
  }

  /** Steps that record nothing. */
  lemma StepsIdle(w: Ranking, s: State, s': State)
    requires s.heads == {} && s'.heads == {} && s'.lr == s.lr && !CutSet(s') && Eaten(w, s)
    requires s'.memo == s.memo && s'.diags == s.diags && s'.evals == s.evals
    ensures Steps(w, {}, s, s')
  {
    assert Logged(w.g, s, s', []);
  }

  /** A step, then one that changes nothing that counts. */
  lemma StepsOn(w: Ranking, s: State, s1: State, s2: State)
    requires Steps(w, {}, s, s1) && s2.heads == {} && s2.lr == s1.lr && !CutSet(s2)
    requires s2.memo == s1.memo && s2.diags == s1.diags && s2.evals == s1.evals
    ensures Steps(w, {}, s, s2)
  {
    hide Logged;
    StepsIdle(w, s1, s2);
    StepsTrans(w, {}, s, s1, s2);
  }

  lemma CalmAfter(w: Ranking, inp: Input, m: nat, s: State, s': State)
    requires Calm(w, inp, m, s) && Steps(w, {}, s, s') && Good(inp, s') && s.pos <= s'.pos && m <= w.top
    ensures Calm(w, inp, if s'.pos > s.pos then w.top else m, s')
  {
  }

  lemma LogsAfter(w: Ranking, s: State, s1: State, r: Result, c1: bool, c: bool)
    requires Steps(w, {}, s, s1) && s.pos <= s1.pos && (c1 ==> s1.pos > s.pos)
    requires r.out.Ok? ==> r.st.pos >= s1.pos
    requires Logs(w, s1, r, c)
    ensures Logs(w, s, r, c1 || c)
  {
    hide Logged;
    if r.out.Normal() { StepsTrans(w, {}, s, s1, r.st); }
  }

  // ---- expressions ------------------------------------------------------------------------------

  lemma {:induction false} LogExpr(w: Ranking, inp: Input, fuel: nat, skip: bool, e: Expr, s: State, m: nat)
    requires Layered(w) && Low(w, m, e) && CutFree(e) && m <= w.top && Calm(w, inp, m, s)
    ensures Logs(w, s, Parse(w.g, inp, fuel, skip, e, s), Consumes(w.eats, e))
    decreases fuel, 1, e
  {
    hide Layered, Above, Bounded, Steps, SeqFrom, AltFrom, RepFrom, Call;
    match e
    case Seq(_) =>
      var s1, n := Alloc(s, s.pos, 0), |s.arena|;
      LogStart(w, inp, s, m);
      LogSeq(w, inp, fuel, skip, e, 0, n, s1, m);
      LogRewound(w, s, s1, SeqFrom(w.g, inp, fuel, skip, e, 0, n, s1), Consumes(w.eats, e));
    case Alt(_) =>
      LogStart(w, inp, s, m);
      LogAlt(w, inp, fuel, skip, e, 0, OpenScope(s), m);
      LogClosed(w, s, OpenScope(s), AltFrom(w.g, inp, fuel, skip, e, 0, OpenScope(s)), Consumes(w.eats, e));
    case Rep(_, _, _) =>
      var s1, n := Alloc(OpenScope(s), s.pos, 0), |s.arena|;
      LogStart(w, inp, s, m);
      LogRep(w, inp, fuel, skip, e, 0, s.pos, n, s1, m);
      LogClosed(w, s, s1, RepFrom(w.g, inp, fuel, skip, e, 0, s.pos, n, s1), Consumes(w.eats, e));
    case Not(child) =>
      LogExpr(w, inp, fuel, skip, child, s, m);
      LogLook(w, s, Parse(w.g, inp, fuel, skip, child, s), true);
    case And(child) =>
      LogExpr(w, inp, fuel, skip, child, s, m);
      LogLook(w, s, Parse(w.g, inp, fuel, skip, child, s), false);
    case Lexeme(child) => LogExpr(w, inp, fuel, false, child, s, m);
    case Rule(rule) => LogCall(w, inp, fuel, skip, rule, s, m);
    case _ => LogLeaf(w, inp, fuel, skip, e, s, m);
  }

  lemma LogLeaf(w: Ranking, inp: Input, fuel: nat, skip: bool, e: Expr, s: State, m: nat)
    requires Calm(w, inp, m, s) && (e.Empty? || e.Terminal? || e.Token? || e.TerminalSeq? || e.Matcher?)
    ensures Logs(w, s, Parse(w.g, inp, fuel, skip, e, s), Consumes(w.eats, e))
  {
    hide Logged, Bounded;
    StepsIdle(w, s, Parse(w.g, inp, fuel, skip, e, s).st);
  }

  /** Opening a node or a scope. */
  lemma LogStart(w: Ranking, inp: Input, s: State, m: nat)
    requires Calm(w, inp, m, s)
    ensures Calm(w, inp, m, Alloc(s, s.pos, 0)) && Steps(w, {}, s, Alloc(s, s.pos, 0))
    ensures Calm(w, inp, m, OpenScope(s)) && Steps(w, {}, s, OpenScope(s))
    ensures Calm(w, inp, m, Alloc(OpenScope(s), s.pos, 0)) && Steps(w, {}, s, Alloc(OpenScope(s), s.pos, 0))
  {
    hide Logged;
    StepsIdle(w, s, Alloc(s, s.pos, 0));
    StepsIdle(w, s, OpenScope(s));
    StepsIdle(w, s, Alloc(OpenScope(s), s.pos, 0));
  }

  lemma LogRewound(w: Ranking, s: State, s1: State, r: Result, c: bool)
    requires Steps(w, {}, s, s1) && s1.pos == s.pos && Logs(w, s1, r, c) && (r.out.Ok? ==> r.st.pos >= s1.pos)
    ensures Logs(w, s, if r.out.Fail? then Result(Fail, r.st.(pos := s.pos)) else r, c)
  {
    hide Logged;
    LogsAfter(w, s, s1, r, false, c);
    if r.out.Fail? { StepsOn(w, s, r.st, r.st.(pos := s.pos)); }
  }

  lemma LogClosed(w: Ranking, s: State, s1: State, r: Result, c: bool)
    requires Steps(w, {}, s, s1) && s1.pos == s.pos && !CutSet(s) && Logs(w, s1, r, c)
        && (r.out.Ok? ==> r.st.pos >= s1.pos)
    ensures Logs(w, s, Result(r.out, CloseScope(r.st, s.scope)), c)
  {
    hide Logged;
    LogsAfter(w, s, s1, r, false, c);
    if r.out.Normal() { StepsOn(w, s, r.st, CloseScope(r.st, s.scope)); }
  }

  lemma LogLook(w: Ranking, s: State, r: Result, negate: bool)
    requires Logs(w, s, r, false)
    ensures Logs(w, s, Predicate(r, negate, s.pos), false)
  {
    hide Logged;
    if r.out.Normal() { StepsOn(w, s, r.st, r.st.(pos := s.pos)); }
  }

  lemma {:induction false} LogSkip(w: Ranking, inp: Input, fuel: nat, skip: bool, s: State, m: nat)
    requires Layered(w) && m <= w.top && Calm(w, inp, m, s)
    requires w.g.skipper.Some? ==> w.rank(w.g.skipper.value) < m
    ensures Logs(w, s, Skip(w.g, inp, fuel, skip, s), false)
    decreases fuel, 0, 1
  {
    hide Above, Bounded, Logged, Call;
    if skip && w.g.skipper.Some? { LogCall(w, inp, fuel, false, w.g.skipper.value, s, m); }
    else { StepsIdle(w, s, s); }
  }

  lemma {:induction false} LogSeq(w: Ranking, inp: Input, fuel: nat, skip: bool, e: Expr, i: nat, n: nat, s: State,
      m: nat)
    requires Layered(w) && e.Seq? && i <= |e.es| && n < |s.arena| && LowFrom(w, m, e, i) && m <= w.top
        && Calm(w, inp, m, s)
    requires forall l | i <= l < |e.es| :: CutFree(e.es[l])
    ensures Logs(w, s, SeqFrom(w.g, inp, fuel, skip, e, i, n, s),
                 exists l :: i <= l < |e.es| && Consumes(w.eats, e.es[l]))
    decreases fuel, 1, e, |e.es| - i
  {
    hide Above, Layered, Bounded, Steps, SeqNext, Skip, Low, Consumes;
    if i == |e.es| {
      LogStay(w, s, SetEnd(s, n));
    } else {
      if i > 0 { LogSkip(w, inp, fuel, skip, s, m); } else { LogStay(w, s, s); }
      var k := if i > 0 then Skip(w.g, inp, fuel, skip, s) else Result(Ok(None), s);
      if k.out.Ok? {
        var m' := if k.st.pos > s.pos then w.top else m;
        CalmAfter(w, inp, m, s, k.st);
        if k.st.pos > s.pos { LowTop(w, e.es[i]); LowFromTop(w, e, i + 1); }
        LogSeqNext(w, inp, fuel, skip, e, i, n, k.st, m');
        LogsAfter(w, s, k.st, SeqNext(w.g, inp, fuel, skip, e, i, n, k.st), false,
            exists l :: i <= l < |e.es| && Consumes(w.eats, e.es[l]));
      }
    }
  }

  lemma LogStay(w: Ranking, s: State, s': State)
    requires s.heads == {} && !CutSet(s) && Eaten(w, s)
    requires s'.lr == s.lr && s'.memo == s.memo && s'.diags == s.diags && s'.heads == s.heads && s'.scope == s.scope
        && s'.pos == s.pos && s'.evals == s.evals
    ensures Steps(w, {}, s, s')
  {
    StepsIdle(w, s, s');
  }

  lemma {:induction false} LogSeqNext(w: Ranking, inp: Input, fuel: nat, skip: bool, e: Expr, i: nat, n: nat,
      s: State, m: nat)
    requires Layered(w) && e.Seq? && i < |e.es| && n < |s.arena| && m <= w.top && Calm(w, inp, m, s)
    requires Low(w, m, e.es[i]) && (Consumes(w.eats, e.es[i]) || LowFrom(w, m, e, i + 1))
    requires forall l | i <= l < |e.es| :: CutFree(e.es[l])
    ensures Logs(w, s, SeqNext(w.g, inp, fuel, skip, e, i, n, s),
                 exists l :: i <= l < |e.es| && Consumes(w.eats, e.es[l]))
    decreases fuel, 1, e, |e.es| - i, 0
  {
    hide Above, Layered, Steps, SeqFrom, Parse, Low, LowFrom, Consumes, Logged;
    LogExpr(w, inp, fuel, skip, e.es[i], s, m);
    var r := Parse(w.g, inp, fuel, skip, e.es[i], s);
    if r.out.Ok? {
      var s1 := PushChild(r.st, n, r.out.tree);
      StepsPush(w, s, r.st, n, r.out.tree);
      CalmAfter(w, inp, m, s, s1);
      if s1.pos > s.pos { LowFromTop(w, e, i + 1); }
      LogSeq(w, inp, fuel, skip, e, i + 1, n, s1, if s1.pos > s.pos then w.top else m);
      LogsAfter(w, s, s1, SeqFrom(w.g, inp, fuel, skip, e, i + 1, n, s1), Consumes(w.eats, e.es[i]),
                exists l :: i + 1 <= l < |e.es| && Consumes(w.eats, e.es[l]));
    }
  }

  lemma StepsPush(w: Ranking, s: State, s1: State, n: nat, child: Option<nat>)
    requires Steps(w, {}, s, s1) && n < |s1.arena|
    ensures Steps(w, {}, s, PushChild(s1, n, child))
  {
    hide Logged;
    StepsOn(w, s, s1, PushChild(s1, n, child));
  }

  lemma {:induction false} LogAlt(w: Ranking, inp: Input, fuel: nat, skip: bool, e: Expr, i: nat, s: State, m: nat)
    requires Layered(w) && e.Alt? && i <= |e.es| && Low(w, m, e) && CutFree(e) && m <= w.top && Calm(w, inp, m, s)
    ensures Logs(w, s, AltFrom(w.g, inp, fuel, skip, e, i, s), Consumes(w.eats, e))
    decreases fuel, 1, e, |e.es| - i
  {
    hide Above, Layered, Bounded, Logged, Parse;
    if i == |e.es| {
      StepsIdle(w, s, s);
    } else {
      LogExpr(w, inp, fuel, skip, e.es[i], s, m);
      var r := Parse(w.g, inp, fuel, skip, e.es[i], s);
      if r.out.Ok? {
        StepsOn(w, s, r.st, Stamp(r.st, r.out.tree, i));
      } else if r.out.Fail? {
        CalmAfter(w, inp, m, s, r.st);
        LogAlt(w, inp, fuel, skip, e, i + 1, r.st, m);
        LogsAfter(w, s, r.st, AltFrom(w.g, inp, fuel, skip, e, i + 1, r.st), false, Consumes(w.eats, e));
      }
    }
  }

  lemma {:induction false} LogRep(w: Ranking, inp: Input, fuel: nat, skip: bool, e: Expr, count: nat, start: nat,
      n: nat, s: State, m: nat)
    requires Layered(w) && e.Rep? && start <= s.pos && n < |s.arena| && Low(w, m, e.child) && CutFree(e.child)
        && m <= w.top && Calm(w, inp, m, s)
    requires count > 0 ==> m == w.top
    ensures var r := RepFrom(w.g, inp, fuel, skip, e, count, start, n, s);
            Logs(w, s, r, count < e.min && Consumes(w.eats, e.child)) && (r.out.Ok? ==> r.st.pos >= s.pos)
    decreases fuel, 1, e, |inp| - s.pos, 1
  {
    hide Above, Bounded, Logged, RepTry, Skip, Low, Consumes;
    if count > 0 { LogSkip(w, inp, fuel, skip, s, m); } else { StepsIdle(w, s, s); }
    var k := if count > 0 then Skip(w.g, inp, fuel, skip, s) else Result(Ok(None), s);
    if k.out.Ok? {
      var s1 := SetCut(k.st, false);
      StepsOn(w, s, k.st, s1);
      OpenGood(inp, k.st);
      CalmAfter(w, inp, m, s, s1);
      if s1.pos > s.pos { LowTop(w, e.child); }
      LogRepTry(w, inp, fuel, skip, e, count, start, n, s.pos, s1, if s1.pos > s.pos then w.top else m);
      RepAfter(w, s, s1, RepTry(w.g, inp, fuel, skip, e, count, start, n, s.pos, s1), s.pos, count < e.min
          && Consumes(w.eats, e.child));
    }
  }

  /** Like Logs, with the end compared to `last`. */
  ghost predicate LogsFrom(w: Ranking, s: State, r: Result, last: nat, consumes: bool) {
    r.out.Normal() ==> Steps(w, {}, s, r.st) && (r.out.Ok? && consumes ==> r.st.pos > last)
  }

  lemma RepAfter(w: Ranking, s: State, s1: State, r: Result, last: nat, c: bool)
    requires Steps(w, {}, s, s1) && LogsFrom(w, s1, r, last, c) && s.pos == last
    ensures Logs(w, s, r, c)
  {
    hide Logged;
    if r.out.Normal() { StepsTrans(w, {}, s, s1, r.st); }
  }

  lemma {:induction false} LogRepTry(w: Ranking, inp: Input, fuel: nat, skip: bool, e: Expr, count: nat, start: nat,
      n: nat, last: nat, s: State, m: nat)
    requires Layered(w) && e.Rep? && start <= last <= s.pos && n < |s.arena| && Low(w, m, e.child)
        && CutFree(e.child) && m <= w.top && Calm(w, inp, m, s)
    ensures var r := RepTry(w.g, inp, fuel, skip, e, count, start, n, last, s);
            LogsFrom(w, s, r, last, count < e.min && Consumes(w.eats, e.child)) && (r.out.Ok? ==> r.st.pos >= last)
    decreases fuel, 1, e, |inp| - s.pos, 0
  {
    hide Above, Layered, Steps, Parse, RepFrom, RepDone, Low, Consumes;
    LogExpr(w, inp, fuel, skip, e.child, s, m);
    var r := Parse(w.g, inp, fuel, skip, e.child, s);
    if r.out.Ok? {
      var s1 := PushChild(r.st, n, r.out.tree);
      StepsPush(w, s, r.st, n, r.out.tree);
      if (e.max > 0 && count + 1 >= e.max) || s1.pos == s.pos {
        LogRepDone(w, inp, e, count + 1, false, start, n, s1.pos, s, s1);
      } else {
        CalmAfter(w, inp, m, s, s1);
        LowTop(w, e.child);
        LogRep(w, inp, fuel, skip, e, count + 1, start, n, s1, w.top);
        RepChain(w, s, s1, RepFrom(w.g, inp, fuel, skip, e, count + 1, start, n, s1), last, e, count);
      }
    } else if r.out.Fail? {
      LogRepDone(w, inp, e, count, true, start, n, last, s, r.st);
    }
  }

  lemma RepChain(w: Ranking, s: State, s1: State, r: Result, last: nat, e: Expr, count: nat)
    requires Steps(w, {}, s, s1) && last <= s.pos < s1.pos && e.Rep?
    requires Logs(w, s1, r, count + 1 < e.min && Consumes(w.eats, e.child)) && (r.out.Ok? ==> r.st.pos >= s1.pos)
    ensures LogsFrom(w, s, r, last, count < e.min && Consumes(w.eats, e.child))
  {
    hide Logged;
    if r.out.Normal() { StepsTrans(w, {}, s, s1, r.st); }
  }

  lemma LogRepDone(w: Ranking, inp: Input, e: Expr, count: nat, failed: bool, start: nat, n: nat, last: nat,
      s: State, s1: State)
    requires Good(inp, s1) && e.Rep? && n < |s1.arena| && start <= last <= |inp| && Steps(w, {}, s, s1)
    requires !failed ==> s1.pos == last
    ensures var r := RepDone(inp, e, count, failed, start, n, last, s1);
            r.out.Normal() ==> Steps(w, {}, s, r.st) && (r.out.Ok? ==> count >= e.min && r.st.pos == last)
  {
    hide Logged, Bounded;
    var r := RepDone(inp, e, count, failed, start, n, last, s1);
    if r.out.Normal() { StepsOn(w, s, s1, r.st); }
  }

  // ---- rules ------------------------------------------------------------------------------------

  lemma {:induction false} LogCall(w: Ranking, inp: Input, fuel: nat, skip: bool, rule: RuleId, s: State, m: nat)
    requires Layered(w) && w.rank(rule) < m <= w.top && Calm(w, inp, m, s)
    ensures Logs(w, s, Call(w.g, inp, fuel, skip, rule, s), rule in w.eats)
    decreases fuel, 0, 0
  {
    hide Logged, Grow, Finish, Layered;
    var k := Key(s.pos, rule);
    if k in s.memo {
      assert k !in s.lr;
      StepsIdle(w, s, s.(pos := s.memo[k].end));
    } else if fuel > 0 && rule in w.g.rules {
      var s1 := Enter(s, k);
      EnterCalm(w, inp, m, s, k);
      LogGrow(w, inp, fuel - 1, skip, k, s1);
      LogFinish(w, inp, k, s, Grow(w.g, inp, fuel - 1, skip, k, k.pos, Fail, s1));
    }
  }

  /** The rule k just entered, charged with two evaluations of its body. */
  function Charged(s: State, k: Key): State { Enter(s, k).(evals := s.evals + 2) }

  lemma EnterCalm(w: Ranking, inp: Input, m: nat, s: State, k: Key)
    requires Calm(w, inp, m, s) && k.pos == s.pos && w.rank(k.rule) < m
    ensures Calm(w, inp, w.rank(k.rule), Enter(s, k))
  {
  }

  lemma LogFinish(w: Ranking, inp: Input, k: Key, s: State, r: Result)
    requires Layered(w) && Good(inp, s) && s.pos == k.pos && k !in s.memo && k.rule in w.g.rules && s.heads == {}
    requires Good(inp, Enter(s, k)) && Framed(inp, Enter(s, k), r)
    requires r.out.Normal() ==>
               Steps(w, {k}, Charged(s, k), r.st) && (r.out.Ok? && k.rule in w.eats ==> r.st.pos > k.pos)
    ensures Logs(w, s, Finish(w.g.rules[k.rule], inp, k, Enter(s, k), r), k.rule in w.eats)
  {
    hide Logged, Bounded, Complete, Reject;
    if r.out.Normal() {
      var def := w.g.rules[k.rule];
      assert (s.lr + [k])[..|s.lr|] == s.lr;
      LeaveGood(inp, Enter(s, k), r);
      if r.out.Ok? {
        LogComplete(w, inp, k, s, r);
      } else {
        LogReject(w, inp, k, s, r.st);
      }
    }
  }

  /** `s2` is `s1` with another entry for k. */
  ghost predicate Rewritten(k: Key, s1: State, s2: State) {
    s2.memo.Keys == s1.memo.Keys && forall x | x in s1.memo && x != k :: s2.memo[x] == s1.memo[x]
  }

  /** Seen from before k was entered. */
  lemma LoggedOutside(w: Ranking, k: Key, s: State, s1: State, s2: State, ks: seq<Key>)
    requires Logged(w.g, Charged(s, k), s1, ks) && k !in s.memo && Rewritten(k, s1, s2) && s2.diags == s1.diags
    ensures Logged(w.g, s, s2, ks) && k !in ks
  {
    assert k in Charged(s, k).memo;
    forall i | 0 <= i < |ks| ensures ks[i] !in s.memo && Recovered(w.g, s2, ks[i]) { assert ks[i] != k; }
  }

  lemma LoggedMore(w: Ranking, k: Key, s: State, s2: State, s3: State, ks: seq<Key>)
    requires Logged(w.g, s, s2, ks) && k !in ks && k !in s.memo && Recovered(w.g, s3, k) && s3.memo == s2.memo
    requires s3.diags == s2.diags + [Note(w.g.rules[k.rule], k.pos)]
    ensures Logged(w.g, s, s3, ks + [k])
  {
    assert s3.diags[..|s.diags|] == s2.diags[..|s.diags|];
  }

  /** All of a state but its position, memo, nodes, failures and diagnostics. */
  ghost predicate Alongside(s: State, s': State) {
    s'.lr == s.lr && s'.heads == s.heads && s'.scope == s.scope && s'.evals == s.evals
  }

  lemma CompleteCaches(def: RuleDef, inp: Input, k: Key, tree: Option<nat>, s: State)
    requires Good(inp, s) && k.pos <= s.pos && TreeIn(s.arena, tree)
    ensures var r := Complete(def, inp, k, tree, s);
            && r.out.Ok? && Alongside(s, r.st) && r.st.pos == s.pos && r.st.diags == s.diags
            && r.st.memo == Update(s.memo, k, Entry(true, s.pos, r.out.tree))
  {
    hide Bounded;
  }

  lemma LogComplete(w: Ranking, inp: Input, k: Key, s: State, r: Result)
    requires k !in s.memo && k.rule in w.g.rules && Steps(w, {k}, Charged(s, k), r.st) && r.out.Ok?
    requires k.rule in w.eats ==> r.st.pos > k.pos
    requires Good(inp, Leave(r.st)) && k.pos <= r.st.pos && TreeIn(r.st.arena, r.out.tree) && Leave(r.st).lr == s.lr
    ensures var r' := Complete(w.g.rules[k.rule], inp, k, r.out.tree, Leave(r.st));
            Steps(w, {}, s, r'.st) && r'.st.pos == r.st.pos
  {
    hide Logged, Bounded, Paid, Complete;
    CompleteCaches(w.g.rules[k.rule], inp, k, r.out.tree, Leave(r.st));
    var r' := Complete(w.g.rules[k.rule], inp, k, r.out.tree, Leave(r.st));
    var ks: seq<Key> :| Logged(w.g, Charged(s, k), r.st, ks);
    LoggedOutside(w, k, s, r.st, r'.st, ks);
    OutsideKept(k, s, r.st, r'.st);
    PaidOutside(w, k, s, r.st, r'.st);
  }

  lemma OutsideKept(k: Key, s: State, s1: State, s2: State)
    requires k !in s.memo && Rewritten(k, s1, s2)
    requires forall x | x in Charged(s, k).memo :: x in s1.memo && (x != k ==> s1.memo[x] == Charged(s, k).memo[x])
    ensures forall x | x in s.memo :: x in s2.memo && s2.memo[x] == s.memo[x]
  {
  }

  lemma PaidOutside(w: Ranking, k: Key, s: State, s1: State, s2: State)
    requires k !in s.memo && k.rule in w.g.rules && Paid(w, Charged(s, k), s1)
    requires s2.memo.Keys == s1.memo.Keys && s2.evals == s1.evals
    ensures Paid(w, s, s2)
  {
    assert Charged(s, k).memo.Keys == s.memo.Keys + {k};
  }

  lemma NoEater(w: Ranking, r: RuleId)
    requires Layered(w) && r in w.g.rules && w.g.rules[r].recovery.Some?
    ensures r !in w.eats
  {
  }

  lemma RejectCaches(def: RuleDef, inp: Input, k: Key, s: State)
    requires Good(inp, s) && k.pos <= |inp| && !CutSet(s)
    ensures var r := Reject(def, inp, k, s);
            && Alongside(s, r.st)
            && if def.recovery.Some? then
                 r.out == Ok(None) && r.st.diags == s.diags + [Note(def, k.pos)]
                 && r.st.memo == Update(s.memo, k, Entry(true, r.st.pos, None))
               else
                 r.out.Fail? && r.st.diags == s.diags && r.st.memo == Update(s.memo, k, Entry(false, k.pos, None))
  {
    hide Bounded, Scan;
  }

  lemma LogReject(w: Ranking, inp: Input, k: Key, s: State, s1: State)
    requires Layered(w) && k !in s.memo && k.rule in w.g.rules && Steps(w, {k}, Charged(s, k), s1)
    requires Good(inp, Leave(s1)) && k.pos <= |inp| && Leave(s1).lr == s.lr
    ensures var r' := Reject(w.g.rules[k.rule], inp, k, Leave(s1));
            Steps(w, {}, s, r'.st) && (r'.out.Ok? ==> k.rule !in w.eats)
  {
    hide Logged, Bounded, Paid, Layered, Reject;
    RejectCaches(w.g.rules[k.rule], inp, k, Leave(s1));
    if w.g.rules[k.rule].recovery.Some? { NoEater(w, k.rule); }
    var r' := Reject(w.g.rules[k.rule], inp, k, Leave(s1));
    var ks: seq<Key> :| Logged(w.g, Charged(s, k), s1, ks);
    assert k in Charged(s, k).memo;
    var s2 := s1.(memo := r'.st.memo);
    LoggedOutside(w, k, s, s1, s2, ks);
    OutsideKept(k, s, s1, s2);
    PaidOutside(w, k, s, s1, r'.st);
    if r'.out.Ok? {
      LoggedMore(w, k, s, s2, r'.st, ks);
    } else {
      SameLog(w, s, s2, r'.st, ks);
    }
  }

  lemma SameLog(w: Ranking, s: State, s1: State, s2: State, ks: seq<Key>)
    requires Logged(w.g, s, s1, ks) && s2.memo == s1.memo && s2.diags == s1.diags
    ensures Logged(w.g, s, s2, ks)
  {
  }

  /** The rule entered as s runs its body, and once more if that consumed; the second time everything is
      in the memo. */
  lemma {:induction false} LogGrow(w: Ranking, inp: Input, fuel: nat, skip: bool, k: Key, s: State)
    requires Layered(w) && k.rule in w.g.rules && k in s.memo && k in s.lr && k.pos == s.pos
    requires Calm(w, inp, w.rank(k.rule), s)
    ensures var r := Grow(w.g, inp, fuel, skip, k, k.pos, Fail, s);
            r.out.Normal() ==>
              Steps(w, {k}, s.(evals := s.evals + 2), r.st) && (r.out.Ok? && k.rule in w.eats ==> r.st.pos > k.pos)
    decreases fuel, 2, 1
  {
    hide Logged, Bounded, Parse, Above, Layered, Steps, Covers;
    var body := w.g.rules[k.rule].body;
    var s1 := s.(evals := s.evals + 1);
    assert Restart(inp, k, Fail, s) == s1;
    BodyLayered(w, k.rule);
    Recharged(w, inp, w.rank(k.rule), s, s.pos, s.evals + 1);
    LogExpr(w, inp, fuel, skip, body, s1, w.rank(k.rule));
    var r := Parse(w.g, inp, fuel, skip, body, s1);
    if r.out.Normal() {
      StepsKeep(w, s1, r.st, k);
      if r.out.Ok? && r.st.pos > k.pos {
        SecondPass(w, inp, fuel, skip, k, s, r);
      } else if r.out.Ok? {
        Charge(w, k, s, s1, r.st, Settle(inp, k, k.pos, r.out, r.st).st, Entry(true, k.pos, r.out.tree));
      } else {
        Charge(w, k, s, s1, r.st, r.st.(pos := k.pos), r.st.memo[k]);
      }
    }
  }

  lemma StepsKeep(w: Ranking, s: State, s': State, k: Key)
    requires Steps(w, {}, s, s') && k in s.memo
    ensures k in s'.memo && s'.lr == s.lr && s'.heads == {} && !CutSet(s')
    ensures k.rule in w.eats && s'.memo[k].ok ==> s'.memo[k].end > k.pos
  {
  }

  /** The second pass finds the first one's results and ends where it ended. */
  lemma {:induction false} SecondPassEnds(w: Ranking, inp: Input, fuel: nat, skip: bool, k: Key, s: State, r: Result)
    requires Layered(w) && k.rule in w.g.rules && k in s.memo && k in s.lr && k.pos == s.pos
    requires Calm(w, inp, w.rank(k.rule), s)
    requires r == Parse(w.g, inp, fuel, skip, w.g.rules[k.rule].body, s.(evals := s.evals + 1))
    requires r.out.Ok? && r.st.pos > k.pos && Steps(w, {}, s.(evals := s.evals + 1), r.st)
    ensures var e := Entry(true, r.st.pos, r.out.tree);
            var s2 := r.st.(memo := r.st.memo[k := e]);
            && k in r.st.memo && Good(inp, s2) && s2.lr == s.lr && s2.heads == {}
                 && Restart(inp, k, Fail, s) == s.(evals := s.evals + 1)
            && Restart(inp, k, r.out, s2) == s2.(pos := k.pos, evals := s2.evals + 1)
            && Replayed(r, s2.(evals := s2.evals + 1),
                 Parse(w.g, inp, fuel, skip, w.g.rules[k.rule].body, Restart(inp, k, r.out, s2)))
    decreases fuel, 2, 0, 0
  {
    hide Logged, Bounded, Parse, Above, Layered, Steps, Covers;
    var body := w.g.rules[k.rule].body;
    var s1 := s.(evals := s.evals + 1);
    StepsKeep(w, s1, r.st, k);
    var e := Entry(true, r.st.pos, r.out.tree);
    SeedGood(inp, r.st, k, e);
    var s2 := r.st.(memo := r.st.memo[k := e]);
    var s3 := s2.(pos := k.pos, evals := s2.evals + 1);
    assert Restart(inp, k, r.out, s2) == s3;
    BodyLayered(w, k.rule);
    Recharged(w, inp, w.rank(k.rule), s, s.pos, s.evals + 1);
    WriteCovers(k, s.lr, r.st.memo, e);
    ReplayExpr(w, inp, fuel, skip, body, s1, s3, w.rank(k.rule));
  }

  /** So the growth is over. */
  lemma {:induction false} SecondPass(w: Ranking, inp: Input, fuel: nat, skip: bool, k: Key, s: State, r: Result)
    requires Layered(w) && k.rule in w.g.rules && k in s.memo && k in s.lr && k.pos == s.pos
    requires Calm(w, inp, w.rank(k.rule), s)
    requires r == Parse(w.g, inp, fuel, skip, w.g.rules[k.rule].body, s.(evals := s.evals + 1))
    requires r.out.Ok? && r.st.pos > k.pos && Steps(w, {}, s.(evals := s.evals + 1), r.st)
    ensures var whole := Grow(w.g, inp, fuel, skip, k, k.pos, Fail, s);
            && whole.out.Normal() && Steps(w, {k}, s.(evals := s.evals + 2), whole.st) && whole.st.pos == r.st.pos
    decreases fuel, 2, 0, 1
  {
    hide Logged, Bounded, Parse, Above, Layered, Steps, Covers, Restart;
    var e := Entry(true, r.st.pos, r.out.tree);
    SecondPassEnds(w, inp, fuel, skip, k, s, r);
    var s2 := r.st.(memo := r.st.memo[k := e]);
    var r3 := Parse(w.g, inp, fuel, skip, w.g.rules[k.rule].body, Restart(inp, k, r.out, s2));
    var end := Settle(inp, k, r.st.pos, r.out, r3.st);
    assert Grow(w.g, inp, fuel, skip, k, r.st.pos, r.out, s2) == end;
    Charge(w, k, s, s.(evals := s.evals + 1), r.st, end.st, e);
  }

  lemma Recharged(w: Ranking, inp: Input, m: nat, s: State, p: nat, n: nat)
    requires Calm(w, inp, m, s) && p == s.pos
    ensures Calm(w, inp, m, s.(pos := p, evals := n))
  {
  }

  lemma BodyLayered(w: Ranking, r: RuleId)
    requires Layered(w) && r in w.g.rules
    ensures Low(w, w.rank(r), w.g.rules[r].body) && CutFree(w.g.rules[r].body) && w.rank(r) < w.top
    ensures r in w.eats ==> Consumes(w.eats, w.g.rules[r].body)
  {
  }

  /** One pass over the body, perhaps one more evaluation, and another entry for k. */
  lemma Charge(w: Ranking, k: Key, s: State, s1: State, s2: State, s3: State, e: Entry)
    requires Steps(w, {}, s1, s2) && s1 == s.(evals := s.evals + 1) && k in s.memo
    requires s3.memo == s2.memo[k := e] && s3.lr == s2.lr && s3.heads == {} && !CutSet(s3) && s3.diags == s2.diags
    requires s3.evals <= s2.evals + 1 && (k.rule in w.eats && e.ok ==> e.end > k.pos)
    ensures Steps(w, {k}, s.(evals := s.evals + 2), s3)
  {
    hide Paid, Logged;
    var ks: seq<Key> :| Logged(w.g, s1, s2, ks);
    ChargeLog(w.g, k, s, s1, s2, s3, e, ks);
    ChargePaid(w, k, s, s1, s2, s3, e);
  }

  lemma ChargeLog(g: Grammar, k: Key, s: State, s1: State, s2: State, s3: State, e: Entry, ks: seq<Key>)
    requires Logged(g, s1, s2, ks) && s1 == s.(evals := s.evals + 1) && k in s.memo
    requires s3.memo == s2.memo[k := e] && s3.diags == s2.diags
    ensures Logged(g, s.(evals := s.evals + 2), s3, ks)
  {
  }

  lemma ChargePaid(w: Ranking, k: Key, s: State, s1: State, s2: State, s3: State, e: Entry)
    requires Paid(w, s1, s2) && s1 == s.(evals := s.evals + 1) && k in s.memo && k in s2.memo
    requires s3.memo == s2.memo[k := e] && s3.evals <= s2.evals + 1
    ensures Paid(w, s.(evals := s.evals + 2), s3)
  {
    assert s3.memo.Keys == s2.memo.Keys;
  }

  // ---- the second time everything is in the memo ------------------------------------------------

  /** m' knows what m knows, but for the rules in progress. */
  ghost predicate Covers(lr: seq<Key>, m: map<Key, Entry>, m': map<Key, Entry>) {
    forall k | k in m && k !in lr :: k in m' && m'[k] == m[k]
  }

  /** s' is at the position of s, with the same rules in progress. */
  ghost predicate Ready(inp: Input, s: State, s': State) {
    Good(inp, s') && s'.pos == s.pos && s'.lr == s.lr && s'.heads == {} && !CutSet(s')
  }

  /** A run from s' that ended as r did, without evaluating, caching or reporting anything. */
  ghost predicate Replayed(r: Result, s': State, r': Result) {
    && (r'.out.Ok? <==> r.out.Ok?) && (r'.out.Fail? <==> r.out.Fail?) && r'.st.pos == r.st.pos
    && r'.st.memo == s'.memo && r'.st.evals == s'.evals && r'.st.diags == s'.diags
    && r'.st.lr == s'.lr && r'.st.heads == {} && !CutSet(r'.st)
  }

  lemma WriteCovers(k: Key, lr: seq<Key>, m: map<Key, Entry>, e: Entry)
    requires k in lr
    ensures Covers(lr, m, m[k := e])
  {
  }

  lemma CoversEarlier(w: Ranking, s: State, s1: State, m': map<Key, Entry>)
    requires Steps(w, {}, s, s1) && Covers(s1.lr, s1.memo, m')
    ensures Covers(s.lr, s.memo, m') && s1.lr == s.lr
  {
    hide Logged;
  }

  lemma {:induction false} ReplayExpr(w: Ranking, inp: Input, fuel: nat, skip: bool, e: Expr, s: State, s': State,
      m: nat)
    requires Layered(w) && Low(w, m, e) && CutFree(e) && m <= w.top && Calm(w, inp, m, s) && Ready(inp, s, s')
    requires var r := Parse(w.g, inp, fuel, skip, e, s); r.out.Normal() && Covers(s.lr, r.st.memo, s'.memo)
    ensures Replayed(Parse(w.g, inp, fuel, skip, e, s), s', Parse(w.g, inp, fuel, skip, e, s'))
    decreases fuel, 1, e
  {
    hide Layered, Above, Bounded, Covers, SeqFrom, AltFrom, RepFrom, Call, Eaten;
    match e
    case Seq(_) =>
      LogStart(w, inp, s, m);
      OpenGood(inp, s');
      ReplaySeq(w, inp, fuel, skip, e, 0, |s.arena|, Alloc(s, s.pos, 0), |s'.arena|, Alloc(s', s'.pos, 0), m);
    case Alt(_) => ReplayChoice(w, inp, fuel, skip, e, s, s', m);
    case Rep(_, _, _) => ReplayLoop(w, inp, fuel, skip, e, s, s', m);
    case Not(child) => ReplayExpr(w, inp, fuel, skip, child, s, s', m);
    case And(child) => ReplayExpr(w, inp, fuel, skip, child, s, s', m);
    case Lexeme(child) => ReplayExpr(w, inp, fuel, false, child, s, s', m);
    case Rule(rule) => ReplayCall(w, inp, fuel, skip, rule, s, s', m);
    case _ =>
  }

  lemma {:induction false} ReplayChoice(w: Ranking, inp: Input, fuel: nat, skip: bool, e: Expr, s: State, s': State,
      m: nat)
    requires Layered(w) && e.Alt? && Low(w, m, e) && CutFree(e) && m <= w.top && Calm(w, inp, m, s) && Ready(inp, s, s')
    requires var r := Parse(w.g, inp, fuel, skip, e, s); r.out.Normal() && Covers(s.lr, r.st.memo, s'.memo)
    ensures Replayed(Parse(w.g, inp, fuel, skip, e, s), s', Parse(w.g, inp, fuel, skip, e, s'))
    decreases fuel, 1, e, |e.es| + 1
  {
    hide Layered, Above, Bounded, Covers, AltFrom, Eaten, Logged, Paid;
    LogStart(w, inp, s, m);
    OpenGood(inp, s');
    LogAlt(w, inp, fuel, skip, e, 0, OpenScope(s), m);
    ReplayAlt(w, inp, fuel, skip, e, 0, OpenScope(s), OpenScope(s'), m);
    ScopeClosed(AltFrom(w.g, inp, fuel, skip, e, 0, OpenScope(s)), s, OpenScope(s'), s',
        AltFrom(w.g, inp, fuel, skip, e, 0, OpenScope(s')));
  }

  lemma {:induction false} ReplayLoop(w: Ranking, inp: Input, fuel: nat, skip: bool, e: Expr, s: State, s': State,
      m: nat)
    requires Layered(w) && e.Rep? && Low(w, m, e) && CutFree(e) && m <= w.top && Calm(w, inp, m, s) && Ready(inp, s, s')
    requires var r := Parse(w.g, inp, fuel, skip, e, s); r.out.Normal() && Covers(s.lr, r.st.memo, s'.memo)
    ensures Replayed(Parse(w.g, inp, fuel, skip, e, s), s', Parse(w.g, inp, fuel, skip, e, s'))
    decreases fuel, 1, e, |inp| + 1
  {
    hide Layered, Above, Bounded, Covers, RepFrom, Eaten, Logged, Paid;
    LogStart(w, inp, s, m);
    OpenGood(inp, s');
    var s1, s1' := Alloc(OpenScope(s), s.pos, 0), Alloc(OpenScope(s'), s'.pos, 0);
    LogRep(w, inp, fuel, skip, e, 0, s.pos, |s.arena|, s1, m);
    ReplayRep(w, inp, fuel, skip, e, 0, s.pos, |s.arena|, s1, |s'.arena|, s1', m);
    ScopeClosed(RepFrom(w.g, inp, fuel, skip, e, 0, s.pos, |s.arena|, s1), s, s1', s',
        RepFrom(w.g, inp, fuel, skip, e, 0, s.pos, |s'.arena|, s1'));
  }

  lemma ScopeClosed(r: Result, s: State, s1': State, s': State, r': Result)
    requires Replayed(r, s1', r') && s1'.memo == s'.memo && s1'.evals == s'.evals && s1'.diags == s'.diags
        && s1'.lr == s'.lr
    requires !CutSet(s') && !CutSet(s) && !CutSet(r.st)
    ensures Replayed(Result(r.out, CloseScope(r.st, s.scope)), s', Result(r'.out, CloseScope(r'.st, s'.scope)))
  {
  }

  lemma {:induction false} ReplaySkip(w: Ranking, inp: Input, fuel: nat, skip: bool, s: State, s': State, m: nat)
    requires Layered(w) && m <= w.top && Calm(w, inp, m, s) && Ready(inp, s, s')
    requires w.g.skipper.Some? ==> w.rank(w.g.skipper.value) < m
    requires var r := Skip(w.g, inp, fuel, skip, s); r.out.Normal() && Covers(s.lr, r.st.memo, s'.memo)
    ensures Replayed(Skip(w.g, inp, fuel, skip, s), s', Skip(w.g, inp, fuel, skip, s'))
    decreases fuel, 0, 2
  {
    hide Layered, Above, Bounded, Covers, Call;
    if skip && w.g.skipper.Some? { ReplayCall(w, inp, fuel, false, w.g.skipper.value, s, s', m); }
  }

  lemma {:induction false} ReplaySeq(w: Ranking, inp: Input, fuel: nat, skip: bool, e: Expr, i: nat, n: nat, s: State,
      n': nat, s': State, m: nat)
    requires Layered(w) && e.Seq? && i <= |e.es| && n < |s.arena| && n' < |s'.arena| && LowFrom(w, m, e, i)
        && m <= w.top
        && Calm(w, inp, m, s) && Ready(inp, s, s')
    requires forall l | i <= l < |e.es| :: CutFree(e.es[l])
    requires var r := SeqFrom(w.g, inp, fuel, skip, e, i, n, s); r.out.Normal() && Covers(s.lr, r.st.memo, s'.memo)
    ensures var r, r' := SeqFrom(w.g, inp, fuel, skip, e, i, n, s), SeqFrom(w.g, inp, fuel, skip, e, i, n', s');
            Replayed(r.(st := r.st.(pos := r'.st.pos)), s', r') && (r.out.Ok? ==> r'.st.pos == r.st.pos)
    decreases fuel, 1, e, |e.es| - i
  {
    hide Above, Layered, Bounded, Steps, SeqNext, Skip, Low, Consumes, Covers, Eaten;
    if i < |e.es| {
      if i > 0 { LogSkip(w, inp, fuel, skip, s, m); } else { LogStay(w, s, s); }
      var k := if i > 0 then Skip(w.g, inp, fuel, skip, s) else Result(Ok(None), s);
      var m' := if k.st.pos > s.pos then w.top else m;
      CalmAfter(w, inp, m, s, k.st);
      if k.st.pos > s.pos { LowTop(w, e.es[i]); LowFromTop(w, e, i + 1); }
      LogSeqNext(w, inp, fuel, skip, e, i, n, k.st, m');
      CoversEarlier(w, k.st, SeqNext(w.g, inp, fuel, skip, e, i, n, k.st).st, s'.memo);
      StepsLr(w, s, k.st);
      if i > 0 { ReplaySkip(w, inp, fuel, skip, s, s', m); }
      var k' := if i > 0 then Skip(w.g, inp, fuel, skip, s') else Result(Ok(None), s');
      ReplaySeqNext(w, inp, fuel, skip, e, i, n, k.st, n', k'.st, m');
    }
  }

  lemma StepsLr(w: Ranking, s: State, s': State)
    requires Steps(w, {}, s, s')
    ensures s'.lr == s.lr
  {
  }

  lemma {:induction false} ReplaySeqNext(w: Ranking, inp: Input, fuel: nat, skip: bool, e: Expr, i: nat, n: nat,
      s: State,
      n': nat, s': State, m: nat)
    requires Layered(w) && e.Seq? && i < |e.es| && n < |s.arena| && n' < |s'.arena| && m <= w.top
        && Calm(w, inp, m, s) && Ready(inp, s, s')
    requires Low(w, m, e.es[i]) && (Consumes(w.eats, e.es[i]) || LowFrom(w, m, e, i + 1))
    requires forall l | i <= l < |e.es| :: CutFree(e.es[l])
    requires var r := SeqNext(w.g, inp, fuel, skip, e, i, n, s); r.out.Normal() && Covers(s.lr, r.st.memo, s'.memo)
    ensures var r, r' := SeqNext(w.g, inp, fuel, skip, e, i, n, s), SeqNext(w.g, inp, fuel, skip, e, i, n', s');
            Replayed(r.(st := r.st.(pos := r'.st.pos)), s', r') && (r.out.Ok? ==> r'.st.pos == r.st.pos)
    decreases fuel, 1, e, |e.es| - i, 0
  {
    hide Above, Layered, Steps, SeqFrom, Parse, Low, LowFrom, Consumes, Logged, Covers, Eaten, Bounded;
    LogExpr(w, inp, fuel, skip, e.es[i], s, m);
    var r := Parse(w.g, inp, fuel, skip, e.es[i], s);
    if r.out.Ok? {
      var s1 := PushChild(r.st, n, r.out.tree);
      StepsPush(w, s, r.st, n, r.out.tree);
      PushGood(inp, r.st, n, r.out.tree);
      CalmAfter(w, inp, m, s, s1);
      var m' := if s1.pos > s.pos then w.top else m;
      if s1.pos > s.pos { LowFromTop(w, e, i + 1); }
      LogSeq(w, inp, fuel, skip, e, i + 1, n, s1, m');
      CoversEarlier(w, s1, SeqFrom(w.g, inp, fuel, skip, e, i + 1, n, s1).st, s'.memo);
      StepsLr(w, s, s1);
      ReplayExpr(w, inp, fuel, skip, e.es[i], s, s', m);
      var r' := Parse(w.g, inp, fuel, skip, e.es[i], s');
      PushGood(inp, r'.st, n', r'.out.tree);
      ReplaySeq(w, inp, fuel, skip, e, i + 1, n, s1, n', PushChild(r'.st, n', r'.out.tree), m');
    } else {
      ReplayExpr(w, inp, fuel, skip, e.es[i], s, s', m);
    }
  }

  lemma {:induction false} ReplayAlt(w: Ranking, inp: Input, fuel: nat, skip: bool, e: Expr, i: nat, s: State,
      s': State,
      m: nat)
    requires Layered(w) && e.Alt? && i <= |e.es| && Low(w, m, e) && CutFree(e) && m <= w.top && Calm(w, inp, m, s)
        && Ready(inp, s, s')
    requires var r := AltFrom(w.g, inp, fuel, skip, e, i, s); r.out.Normal() && Covers(s.lr, r.st.memo, s'.memo)
    ensures Replayed(AltFrom(w.g, inp, fuel, skip, e, i, s), s', AltFrom(w.g, inp, fuel, skip, e, i, s'))
    ensures !CutSet(AltFrom(w.g, inp, fuel, skip, e, i, s).st)
    decreases fuel, 1, e, |e.es| - i
  {
    hide Above, Layered, Bounded, Logged, Parse, Covers, Eaten;
    if i < |e.es| {
      LogExpr(w, inp, fuel, skip, e.es[i], s, m);
      var r := Parse(w.g, inp, fuel, skip, e.es[i], s);
      if r.out.Ok? {
        ReplayExpr(w, inp, fuel, skip, e.es[i], s, s', m);
      } else if r.out.Fail? {
        CalmAfter(w, inp, m, s, r.st);
        LogAlt(w, inp, fuel, skip, e, i + 1, r.st, m);
        CoversEarlier(w, r.st, AltFrom(w.g, inp, fuel, skip, e, i + 1, r.st).st, s'.memo);
        ReplayExpr(w, inp, fuel, skip, e.es[i], s, s', m);
        ReplayAlt(w, inp, fuel, skip, e, i + 1, r.st, Parse(w.g, inp, fuel, skip, e.es[i], s').st, m);
      }
    }
  }

  lemma {:induction false} ReplayRep(w: Ranking, inp: Input, fuel: nat, skip: bool, e: Expr, count: nat, start: nat,
      n: nat, s: State, n': nat, s': State, m: nat)
    requires Layered(w) && e.Rep? && start <= s.pos && n < |s.arena| && n' < |s'.arena| && Low(w, m, e.child)
        && CutFree(e.child) && m <= w.top && Calm(w, inp, m, s) && Ready(inp, s, s')
    requires count > 0 ==> m == w.top
    requires var r := RepFrom(w.g, inp, fuel, skip, e, count, start, n, s);
             r.out.Normal() && Covers(s.lr, r.st.memo, s'.memo)
    ensures Replayed(RepFrom(w.g, inp, fuel, skip, e, count, start, n, s), s',
        RepFrom(w.g, inp, fuel, skip, e, count, start, n', s'))
    ensures !CutSet(RepFrom(w.g, inp, fuel, skip, e, count, start, n, s).st)
    decreases fuel, 1, e, |inp| - s.pos, 1
  {
    hide Above, Bounded, Logged, RepTry, Skip, Low, Consumes, Steps, Covers, Eaten;
    if count > 0 { LogSkip(w, inp, fuel, skip, s, m); } else { LogStay(w, s, s); }
    var k := if count > 0 then Skip(w.g, inp, fuel, skip, s) else Result(Ok(None), s);
    var s1 := SetCut(k.st, false);
    StepsLr(w, s, k.st);
    StepsCalm(w, s, k.st);
    StepsOn(w, s, k.st, s1);
    OpenGood(inp, k.st);
    CalmAfter(w, inp, m, s, s1);
    if s1.pos > s.pos { LowTop(w, e.child); }
    var m' := if s1.pos > s.pos then w.top else m;
    LogRepTry(w, inp, fuel, skip, e, count, start, n, s.pos, s1, m');
    CoversEarlier(w, s1, RepTry(w.g, inp, fuel, skip, e, count, start, n, s.pos, s1).st, s'.memo);
    if count > 0 { ReplaySkip(w, inp, fuel, skip, s, s', m); }
    var k' := if count > 0 then Skip(w.g, inp, fuel, skip, s') else Result(Ok(None), s');
    OpenGood(inp, k'.st);
    ReplayRepTry(w, inp, fuel, skip, e, count, start, n, s.pos, s1, n', SetCut(k'.st, false), m');
  }

  lemma StepsCalm(w: Ranking, s: State, s': State)
    requires Steps(w, {}, s, s')
    ensures s'.heads == {} && !CutSet(s')
  {
  }

  lemma {:induction false} ReplayRepTry(w: Ranking, inp: Input, fuel: nat, skip: bool, e: Expr, count: nat, start: nat,
      n: nat, last: nat, s: State, n': nat, s': State, m: nat)
    requires Layered(w) && e.Rep? && start <= last <= s.pos && n < |s.arena| && n' < |s'.arena| && Low(w, m, e.child)
        && CutFree(e.child) && m <= w.top && Calm(w, inp, m, s) && Ready(inp, s, s')
    requires var r := RepTry(w.g, inp, fuel, skip, e, count, start, n, last, s);
             r.out.Normal() && Covers(s.lr, r.st.memo, s'.memo)
    ensures Replayed(RepTry(w.g, inp, fuel, skip, e, count, start, n, last, s), s',
        RepTry(w.g, inp, fuel, skip, e, count, start, n', last, s'))
    ensures !CutSet(RepTry(w.g, inp, fuel, skip, e, count, start, n, last, s).st)
    decreases fuel, 1, e, |inp| - s.pos, 0, 1
  {
    hide Above, Layered, Steps, Parse, RepFrom, RepDone, Low, Consumes, Covers, Eaten, Bounded;
    LogExpr(w, inp, fuel, skip, e.child, s, m);
    var r := Parse(w.g, inp, fuel, skip, e.child, s);
    if r.out.Ok? {
      if (e.max > 0 && count + 1 >= e.max) || r.st.pos == s.pos {
        StepsCalm(w, s, r.st);
        PushGood(inp, r.st, n, r.out.tree);
        DoneCovers(inp, e, count + 1, false, start, n, r.st.pos, PushChild(r.st, n, r.out.tree));
        ReplayExpr(w, inp, fuel, skip, e.child, s, s', m);
        ReplayPushed(inp, e, count + 1, start, n, r, n', s', Parse(w.g, inp, fuel, skip, e.child, s'));
      } else {
        PushGood(inp, r.st, n, r.out.tree);
        RestCovers(w, inp, fuel, skip, e, count, start, n, s, r, s'.memo, m);
        ReplayExpr(w, inp, fuel, skip, e.child, s, s', m);
        var r' := Parse(w.g, inp, fuel, skip, e.child, s');
        PushGood(inp, r'.st, n', r'.out.tree);
        ReplayOnward(w, inp, fuel, skip, e, count, start, n, s, r, n', s', r', m);
      }
    } else if r.out.Fail? {
      StepsCalm(w, s, r.st);
      DoneCovers(inp, e, count, true, start, n, last, r.st);
      ReplayExpr(w, inp, fuel, skip, e.child, s, s', m);
      ReplayDone(inp, e, count, true, start, n, last, r.st, n', Parse(w.g, inp, fuel, skip, e.child, s').st);
    }
  }

  /** After an iteration that advanced, the others. */
  lemma {:induction false} ReplayOnward(w: Ranking, inp: Input, fuel: nat, skip: bool, e: Expr, count: nat, start: nat,
      n: nat, s: State, r: Result, n': nat, s': State, r': Result, m: nat)
    requires Layered(w) && e.Rep? && start <= s.pos < r.st.pos && n < |r.st.arena| && n' < |r'.st.arena|
        && CutFree(e.child) && m <= w.top && Calm(w, inp, m, s) && Ready(inp, s, s')
    requires r.out.Ok? && r'.out.Ok? && Replayed(r, s', r') && Steps(w, {}, s, r.st) && Good(inp, r.st)
        && Good(inp, r'.st)
    requires Good(inp, PushChild(r.st, n, r.out.tree)) && Good(inp, PushChild(r'.st, n', r'.out.tree))
    requires var rest := RepFrom(w.g, inp, fuel, skip, e, count + 1, start, n, PushChild(r.st, n, r.out.tree));
             rest.out.Normal() && Covers(s.lr, rest.st.memo, s'.memo)
    ensures var rest := RepFrom(w.g, inp, fuel, skip, e, count + 1, start, n, PushChild(r.st, n, r.out.tree));
            !CutSet(rest.st) && Replayed(rest, s',
                RepFrom(w.g, inp, fuel, skip, e, count + 1, start, n', PushChild(r'.st, n', r'.out.tree)))
    decreases fuel, 1, e, |inp| - s.pos, 0, 0
  {
    hide Above, Layered, Steps, RepFrom, Low, Consumes, Covers, Eaten, Bounded;
    var s1 := PushChild(r.st, n, r.out.tree);
    StepsPush(w, s, r.st, n, r.out.tree);
    StepsLr(w, s, s1);
    StepsCalm(w, s, s1);
    CalmAfter(w, inp, m, s, s1);
    LowTop(w, e.child);
    ReplayRep(w, inp, fuel, skip, e, count + 1, start, n, s1, n', PushChild(r'.st, n', r'.out.tree), w.top);
  }

  /** The memo of the first run before the other iterations. */
  lemma {:induction false} RestCovers(w: Ranking, inp: Input, fuel: nat, skip: bool, e: Expr, count: nat, start: nat,
      n: nat, s: State, r: Result, m': map<Key, Entry>, m: nat)
    requires Layered(w) && e.Rep? && start <= s.pos < r.st.pos && n < |r.st.arena| && CutFree(e.child) && m <= w.top
        && Calm(w, inp, m, s)
    requires r.out.Ok? && Steps(w, {}, s, r.st) && Good(inp, r.st) && Good(inp, PushChild(r.st, n, r.out.tree))
    requires var rest := RepFrom(w.g, inp, fuel, skip, e, count + 1, start, n, PushChild(r.st, n, r.out.tree));
             rest.out.Normal() && Covers(s.lr, rest.st.memo, m')
    ensures Covers(s.lr, r.st.memo, m')
    decreases fuel, 1, e, |inp| - s.pos, 0, 0
  {
    hide Above, Layered, Steps, RepFrom, Low, Consumes, Covers, Eaten, Bounded;
    var s1 := PushChild(r.st, n, r.out.tree);
    StepsPush(w, s, r.st, n, r.out.tree);
    StepsLr(w, s, s1);
    CalmAfter(w, inp, m, s, s1);
    LowTop(w, e.child);
    LogRep(w, inp, fuel, skip, e, count + 1, start, n, s1, w.top);
    StepsLr(w, s1, RepFrom(w.g, inp, fuel, skip, e, count + 1, start, n, s1).st);
    CoversEarlier(w, s1, RepFrom(w.g, inp, fuel, skip, e, count + 1, start, n, s1).st, m');
    CoversPushed(s.lr, r.st, n, r.out.tree, m');
  }

  lemma CoversPushed(lr: seq<Key>, s: State, n: nat, child: Option<nat>, m': map<Key, Entry>)
    requires n < |s.arena|
    ensures Covers(lr, PushChild(s, n, child).memo, m') <==> Covers(lr, s.memo, m')
  {
  }

  /** The end of a repetition leaves the memo alone. */
  lemma DoneCovers(inp: Input, e: Expr, count: nat, failed: bool, start: nat, n: nat, last: nat, s: State)
    requires Good(inp, s) && e.Rep? && n < |s.arena| && start <= last <= |inp| && (!failed ==> s.pos == last)
    ensures RepDone(inp, e, count, failed, start, n, last, s).st.memo == s.memo
  {
    hide Bounded;
  }

  lemma ReplayDone(inp: Input, e: Expr, count: nat, failed: bool, start: nat, n: nat, last: nat, s: State, n': nat,
      s': State)
    requires Good(inp, s) && Good(inp, s') && e.Rep? && n < |s.arena| && n' < |s'.arena| && start <= last <= |inp|
    requires !failed ==> s.pos == last && s'.pos == last
    requires !CutSet(s) && !CutSet(s') && s'.heads == {}
    ensures Replayed(RepDone(inp, e, count, failed, start, n, last, s), s',
        RepDone(inp, e, count, failed, start, n', last, s'))
    ensures !CutSet(RepDone(inp, e, count, failed, start, n, last, s).st)
  {
    hide Bounded;
  }

  /** The last iteration. */
  lemma ReplayPushed(inp: Input, e: Expr, count: nat, start: nat, n: nat, r: Result, n': nat, s': State, r': Result)
    requires Good(inp, r.st) && Good(inp, r'.st) && e.Rep? && n < |r.st.arena| && n' < |r'.st.arena|
        && start <= r.st.pos
    requires r.out.Ok? && Replayed(r, s', r') && !CutSet(r.st)
    ensures var s1, s1' := PushChild(r.st, n, r.out.tree), PushChild(r'.st, n', r'.out.tree);
            && Good(inp, s1) && Good(inp, s1')
            && Replayed(RepDone(inp, e, count, false, start, n, s1.pos, s1), s',
                 RepDone(inp, e, count, false, start, n', s1'.pos, s1'))
            && !CutSet(RepDone(inp, e, count, false, start, n, s1.pos, s1).st)
  {
    hide Bounded, RepDone;
    PushGood(inp, r.st, n, r.out.tree);
    PushGood(inp, r'.st, n', r'.out.tree);
    ReplayDone(inp, e, count, false, start, n, r.st.pos, PushChild(r.st, n, r.out.tree), n',
        PushChild(r'.st, n', r'.out.tree));
  }

  /** A rule is answered by its entry, whether it had one before or got one by then. */
  lemma {:induction false} ReplayCall(w: Ranking, inp: Input, fuel: nat, skip: bool, rule: RuleId, s: State, s': State,
      m: nat)
    requires Layered(w) && w.rank(rule) < m <= w.top && Calm(w, inp, m, s) && Ready(inp, s, s')
    requires var r := Call(w.g, inp, fuel, skip, rule, s); r.out.Normal() && Covers(s.lr, r.st.memo, s'.memo)
    ensures Replayed(Call(w.g, inp, fuel, skip, rule, s), s', Call(w.g, inp, fuel, skip, rule, s'))
    decreases fuel, 0, 1
  {
    hide Logged, Layered, Bounded, Call, Eaten, Paid, Above;
    var k := Key(s.pos, rule);
    NotInProgress(w, m, s, k);
    CallCached(w, inp, fuel, skip, rule, s, m);
    FromMemo(w.g, inp, fuel, skip, rule, s', Call(w.g, inp, fuel, skip, rule, s));
  }

  lemma NotInProgress(w: Ranking, m: nat, s: State, k: Key)
    requires Above(w, m, s) && k.pos == s.pos && w.rank(k.rule) < m
    ensures k !in s.lr
  {
  }

  /** `e` is the answer r in the memo. */
  ghost predicate Holds(e: Entry, r: Result) {
    (r.out.Ok? <==> e.ok) && (r.out.Fail? <==> !e.ok) && e.end == r.st.pos
  }

  lemma FromMemo(g: Grammar, inp: Input, fuel: nat, skip: bool, rule: RuleId, s: State, r: Result)
    requires Good(inp, s) && Key(s.pos, rule) in s.memo && Holds(s.memo[Key(s.pos, rule)], r)
        && Key(s.pos, rule) !in s.lr
    requires s.heads == {} && !CutSet(s)
    ensures Replayed(r, s, Call(g, inp, fuel, skip, rule, s))
  {
    hide Bounded, Grow;
  }

  /** Finishing a rule caches its answer. */
  lemma FinishHolds(def: RuleDef, inp: Input, k: Key, s: State, r: Result)
    requires s.lr != [] && s.pos == k.pos && Framed(inp, s, r) && (r.out.Normal() ==> k in r.st.memo)
    ensures var r' := Finish(def, inp, k, s, r); r'.out.Normal() ==> k in r'.st.memo && Holds(r'.st.memo[k], r')
  {
    hide Bounded, Scan;
  }

  /** What a rule answered is in the memo. */
  lemma {:induction false} CallCached(w: Ranking, inp: Input, fuel: nat, skip: bool, rule: RuleId, s: State, m: nat)
    requires Layered(w) && w.rank(rule) < m <= w.top && Calm(w, inp, m, s)
    ensures var r := Call(w.g, inp, fuel, skip, rule, s);
            r.out.Normal() ==> Key(s.pos, rule) in r.st.memo && Holds(r.st.memo[Key(s.pos, rule)], r)
    decreases fuel, 0, 0
  {
    hide Logged, Layered, Bounded, Grow, Eaten, Finish, Paid, Above;
    var k := Key(s.pos, rule);
    if k !in s.memo && fuel > 0 && rule in w.g.rules {
      EnterCalm(w, inp, m, s, k);
      LogGrow(w, inp, fuel - 1, skip, k, Enter(s, k));
      FinishHolds(w.g.rules[rule], inp, k, Enter(s, k), Grow(w.g, inp, fuel - 1, skip, k, k.pos, Fail, Enter(s, k)));
    }
  }
}
