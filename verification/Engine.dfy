/** The parse methods, which update the context in place.  Each is the machine's function of the same
    construct: same outcome, same state; the cut stack below the innermost scope is untouched, and
    auto-skip is switched back on every normal return. */
module Engine {
  import opened Grammars
  import opened Machine
  import opened Contexts

  /** Same cut scopes, except for the flag of the innermost one. */
  ghost predicate SameBelow(a: seq<CutRecord>, b: seq<CutRecord>) {
    |a| == |b| && (a != [] ==> a[..|a| - 1] == b[..|b| - 1])
  }

  /** The context `c` and the outcome `o` are the machine's result `r`. */
  ghost predicate Refines(c: Context, o: Outcome, r: Result, cuts: seq<CutRecord>, enabled: bool)
    reads c, c.expected
  {
    && o == r.out
    && (o != Stuck ==> c.Valid() && c.Abs() == r.st && SameBelow(cuts, c.cuts))
    && (o.Normal() ==> c.skipEnabled == enabled)
  }

  method ParseExpr(g: Grammar, c: Context, fuel: nat, e: Expr) returns (o: Outcome)
    requires c.Valid() && c.skipper == g.skipper
    modifies c, c.expected
    ensures c.skipper == g.skipper
    ensures Refines(c, o, Parse(g, c.input, fuel, old(c.Skipping()), e, old(c.Abs())), old(c.cuts), old(c.skipEnabled))
    decreases fuel, 1, e
  {
    hide Bounded, SeqFrom, AltFrom, RepFrom, Call, Flat, Keys, Heads, Summary;
    match e
    case Empty => o := Ok(None);
    case Terminal(_, _) => o := ParseLeaf(g, c, fuel, e);
    case Token(_, _) => o := ParseLeaf(g, c, fuel, e);
    case TerminalSeq(_, _) => o := ParseTerminalSeq(g, c, fuel, e);
    case Matcher(_) => o := ParseMatcher(g, c, fuel, e);
    case Seq(_) => o := ParseSequence(g, c, fuel, e);
    case Alt(_) => o := ParseAlternation(g, c, fuel, e);
    case Rep(_, _, _) => o := ParseRepetition(g, c, fuel, e);
    case Not(_) => o := ParsePredicate(g, c, fuel, e);
    case And(_) => o := ParsePredicate(g, c, fuel, e);
    case Cut =>
      c.CutTo(true);
      o := Ok(None);
    case Lexeme(child) =>
      var prev := c.skipEnabled;
      c.skipEnabled := false;
      o := ParseExpr(g, c, fuel, child);
      c.skipEnabled := prev;
    case Rule(rule) => o := ParseRule(g, c, fuel, rule);
  }

  // ---- leaves -----------------------------------------------------------------------------------

  method ParseLeaf(g: Grammar, c: Context, fuel: nat, e: Expr) returns (o: Outcome)
    requires c.Valid() && c.skipper == g.skipper && (e.Terminal? || e.Token?)
    modifies c, c.expected
    ensures c.skipper == g.skipper
    ensures o.Ok? || o.Fail?
    ensures o.Ok? ==> old(c.position) < |c.input|
    ensures old(c.position) < |c.input| ==>
              match e.pattern
              case One(v) => o.Ok? == (c.input[old(c.position)] == v)
              case AnyOf(vs) => o.Ok? == (c.input[old(c.position)] in vs)
              case Between(lo, hi) => o.Ok? == (lo <= c.input[old(c.position)] <= hi)
              case Satisfying(test) => o.Ok? == test(c.input[old(c.position)])
    ensures Refines(c, o, Parse(g, c.input, fuel, old(c.Skipping()), e, old(c.Abs())), old(c.cuts), old(c.skipEnabled))
  {
    hide Flat, Keys, Heads, Summary;
    if c.position < |c.input| && e.pattern.Accepts(c.input[c.position]) {
      c.position := c.position + 1;
      if e.Token? {
        var n := c.MakeNode();
        c.arena := c.arena[n := c.arena[n].(start := c.position - 1, end := c.position)];
        o := Ok(Some(n));
      } else {
        o := Ok(None);
      }
    } else {
      c.RecordFailure(c.position, e.item);
      o := Fail;
    }
  }

  /** Matches the literal one element at a time, and rewinds on the first mismatch. */
  method ParseTerminalSeq(g: Grammar, c: Context, fuel: nat, e: Expr) returns (o: Outcome)
    requires c.Valid() && c.skipper == g.skipper && e.TerminalSeq?
    modifies c, c.expected
    ensures c.skipper == g.skipper
    ensures Refines(c, o, Parse(g, c.input, fuel, old(c.Skipping()), e, old(c.Abs())), old(c.cuts), old(c.skipEnabled))
  {
    hide Flat, Keys, Heads, Summary;
    var start := c.position;
    var i := 0;
    while i < |e.syms|
      invariant 0 <= i <= |e.syms| && c.position == start + i <= |c.input|
      invariant forall j | 0 <= j < i :: c.input[start + j] == e.syms[j]
      invariant c.Abs() == old(c.Abs()).(pos := c.position) && c.Valid()
      invariant c.cuts == old(c.cuts) && c.skipEnabled == old(c.skipEnabled) && c.skipper == g.skipper
    {
      if c.position < |c.input| && c.input[c.position] == e.syms[i] {
        c.position := c.position + 1;
        i := i + 1;
      } else {
        if start + |e.syms| <= |c.input| { assert c.input[start..start + |e.syms|][i] == c.input[start + i]; }
        c.position := start;
        c.RecordFailure(start, e.item);
        return Fail;
      }
    }
    assert c.input[start..start + |e.syms|] == e.syms;
    o := Ok(None);
  }

  method ParseMatcher(g: Grammar, c: Context, fuel: nat, e: Expr) returns (o: Outcome)
    requires c.Valid() && c.skipper == g.skipper && e.Matcher?
    modifies c, c.expected
    ensures c.skipper == g.skipper
    ensures Refines(c, o, Parse(g, c.input, fuel, old(c.Skipping()), e, old(c.Abs())), old(c.cuts), old(c.skipEnabled))
  {
    hide Flat, Keys, Heads, Summary;
    var start, end := c.position, e.fn(c.input, c.position);
    if end.Some? {
      c.position := end.value;
      var n := c.MakeNode();
      c.arena := c.arena[n := c.arena[n].(start := start, end := end.value)];
      o := Ok(Some(n));
    } else {
      o := Fail;
    }
  }

  // ---- sequences and choices --------------------------------------------------------------------

  method ParseSequence(g: Grammar, c: Context, fuel: nat, e: Expr) returns (o: Outcome)
    requires c.Valid() && c.skipper == g.skipper && e.Seq?
    modifies c, c.expected
    ensures c.skipper == g.skipper
    ensures Refines(c, o, Parse(g, c.input, fuel, old(c.Skipping()), e, old(c.Abs())), old(c.cuts), old(c.skipEnabled))
    decreases fuel, 1, e, |e.es| + 1
  {
    hide SeqFrom, Flat, Keys, Heads, Summary;
    var start := c.position;
    var n := c.MakeNode();
    c.arena := c.arena[n := c.arena[n].(start := start)];
    assert c.Abs() == Alloc(old(c.Abs()), start, 0);
    o := ParseSeq(g, c, fuel, e, 0, n);
    if o.Fail? { c.position := start; }
  }

  method ParseSeq(g: Grammar, c: Context, fuel: nat, e: Expr, i: nat, n: nat) returns (o: Outcome)
    requires c.Valid() && c.skipper == g.skipper && e.Seq? && i <= |e.es| && n < |c.arena|
    modifies c, c.expected
    ensures c.skipper == g.skipper
    ensures Refines(c, o, SeqFrom(g, c.input, fuel, old(c.Skipping()), e, i, n, old(c.Abs())), old(c.cuts),
        old(c.skipEnabled))
    decreases fuel, 1, e, |e.es| - i
  {
    hide Parse, Skip, Flat, Keys, Heads, Summary;
    if i == |e.es| {
      c.arena := c.arena[n := c.arena[n].(end := c.position)];
      return Ok(Some(n));
    }
    if i > 0 {
      o := RunSkipper(g, c, fuel);
      if !o.Ok? { return; }
    }
    o := ParseExpr(g, c, fuel, e.es[i]);
    if o.Ok? {
      AddChild(c, n, o.tree);
      o := ParseSeq(g, c, fuel, e, i + 1, n);
    }
  }

  method AddChild(c: Context, n: nat, child: Option<nat>)
    requires c.Valid() && n < |c.arena|
    modifies c`arena
    ensures c.Valid() && c.Abs() == PushChild(old(c.Abs()), n, child)
  {
    if child.Some? {
      c.arena := c.arena[n := c.arena[n].(children := c.arena[n].children + [child])];
    }
  }

  method ParseAlternation(g: Grammar, c: Context, fuel: nat, e: Expr) returns (o: Outcome)
    requires c.Valid() && c.skipper == g.skipper && e.Alt?
    modifies c, c.expected
    ensures c.skipper == g.skipper
    ensures Refines(c, o, Parse(g, c.input, fuel, old(c.Skipping()), e, old(c.Abs())), old(c.cuts), old(c.skipEnabled))
    decreases fuel, 1, e, |e.es| + 1
  {
    hide AltFrom, Flat, Keys, Heads, Summary;
    c.InitCut();
    assert c.Abs() == OpenScope(old(c.Abs()));
    o := ParseAlt(g, c, fuel, e, 0);
    if o != Stuck {
      assert c.cuts[..|c.cuts| - 1] == old(c.cuts);
      c.RemoveCut();
    }
  }

  method ParseAlt(g: Grammar, c: Context, fuel: nat, e: Expr, i: nat) returns (o: Outcome)
    requires c.Valid() && c.skipper == g.skipper && e.Alt? && i <= |e.es|
    modifies c, c.expected
    ensures c.skipper == g.skipper
    ensures Refines(c, o, AltFrom(g, c.input, fuel, old(c.Skipping()), e, i, old(c.Abs())), old(c.cuts),
        old(c.skipEnabled))
    decreases fuel, 1, e, |e.es| - i
  {
    hide Parse;
    if i == |e.es| { return Fail; }
    o := ParseExpr(g, c, fuel, e.es[i]);
    if o.Ok? {
      if o.tree.Some? {
        c.arena := c.arena[o.tree.value := c.arena[o.tree.value].(winner := Some(i))];
      }
    } else if o.Fail? {
      var committed := c.IsCut();
      if committed { return Abort; }
      o := ParseAlt(g, c, fuel, e, i + 1);
    }
  }

  /** Runs the operand speculatively and rewinds; an abort passes through. */
  method ParsePredicate(g: Grammar, c: Context, fuel: nat, e: Expr) returns (o: Outcome)
    requires c.Valid() && c.skipper == g.skipper && (e.Not? || e.And?)
    modifies c, c.expected
    ensures c.skipper == g.skipper
    ensures Refines(c, o, Parse(g, c.input, fuel, old(c.Skipping()), e, old(c.Abs())), old(c.cuts), old(c.skipEnabled))
    decreases fuel, 1, e, 0
  {
    hide Flat, Keys, Heads, Summary;
    var start := c.position;
    o := ParseExpr(g, c, fuel, e.child);
    if o.Normal() {
      c.position := start;
      o := if o.Ok? == e.Not? then Fail else Ok(None);
    }
  }

  /** Runs the skipper with auto-skip off; its result does not matter. */
  method RunSkipper(g: Grammar, c: Context, fuel: nat) returns (o: Outcome)
    requires c.Valid() && c.skipper == g.skipper
    modifies c, c.expected
    ensures c.skipper == g.skipper
    ensures Refines(c, o, Skip(g, c.input, fuel, old(c.Skipping()), old(c.Abs())), old(c.cuts), old(c.skipEnabled))
    decreases fuel, 0, 1
  {
    hide Call;
    o := Ok(None);
    if c.skipEnabled && c.skipper.Some? {
      var prev := c.skipEnabled;
      c.skipEnabled := false;
      o := ParseRule(g, c, fuel, c.skipper.value);
      if o.Normal() {
        c.skipEnabled := prev;
        o := Ok(None);
      }
    }
  }

  // ---- repetitions ------------------------------------------------------------------------------

  method ParseRepetition(g: Grammar, c: Context, fuel: nat, e: Expr) returns (o: Outcome)
    requires c.Valid() && c.skipper == g.skipper && e.Rep?
    modifies c, c.expected
    ensures c.skipper == g.skipper
    ensures Refines(c, o, Parse(g, c.input, fuel, old(c.Skipping()), e, old(c.Abs())), old(c.cuts), old(c.skipEnabled))
    decreases fuel, 1, e, |c.input| + 2
  {
    hide RepFrom, Flat, Keys, Heads, Summary;
    c.InitCut();
    var start := c.position;
    var n := c.MakeNode();
    c.arena := c.arena[n := c.arena[n].(start := start)];
    assert c.Abs() == Alloc(OpenScope(old(c.Abs())), start, 0);
    o := ParseRep(g, c, fuel, e, n);
    if o != Stuck {
      assert c.cuts[..|c.cuts| - 1] == old(c.cuts);
      c.RemoveCut();
    }
  }

  /** The loop of a repetition: `count` iterations have matched, the last of which ended at `last`. */
  method ParseRep(g: Grammar, c: Context, fuel: nat, e: Expr, n: nat) returns (o: Outcome)
    requires c.Valid() && c.skipper == g.skipper && e.Rep? && n < |c.arena|
    modifies c, c.expected
    ensures c.skipper == g.skipper
    ensures Refines(c, o, RepFrom(g, c.input, fuel, old(c.Skipping()), e, 0, old(c.position), n, old(c.Abs())),
        old(c.cuts), old(c.skipEnabled))
    decreases fuel, 1, e, |c.input| + 1
  {
    hide Iteration, RepFrom, RepDone, Bounded;
    var start, count, failed, last := c.position, 0, false, c.position;
    ghost var whole := RepFrom(g, c.input, fuel, c.Skipping(), e, 0, start, n, c.Abs());
    while true
      invariant c.Valid() && c.skipper == g.skipper && c.skipEnabled == old(c.skipEnabled)
          && SameBelow(old(c.cuts), c.cuts)
      invariant start <= c.position && last == c.position && n < |c.arena| && !failed
      invariant RepFrom(g, c.input, fuel, c.Skipping(), e, count, start, n, c.Abs()) == whole
      decreases |c.input| - c.position
    {
      RepUnfolds(g, c.input, fuel, c.Skipping(), e, count, start, n, c.Abs());
      var idle;
      o, idle := Iterate(g, c, fuel, e, count, n);
      if o == Abort || o == Stuck { return; }
      if o.Fail? {
        failed := true;
        break;
      }
      count := count + 1;
      last := c.position;
      if (e.max > 0 && count >= e.max) || idle { break; }
    }
    o := EndRep(g, c, e, count, failed, start, n, last);
  }

  /** One iteration on states: skip, reset the cut flag, match the child and keep its tree; and whether
      a match consumed nothing. */
  ghost function Iteration(g: Grammar, inp: Input, fuel: nat, skip: bool, e: Expr, count: nat, n: nat,
      s: State): (r: (Result, bool))
    requires Good(inp, s) && e.Rep? && n < |s.arena|
    ensures Kept(inp, s, r.0)
    ensures r.0.out.Ok? ==> s.pos <= r.0.st.pos && (!r.1 ==> s.pos < r.0.st.pos)
  {
    var k := if count > 0 then Skip(g, inp, fuel, skip, s) else Result(Ok(None), s);
    if !k.out.Ok? then (k, false)
    else
      var s1 := SetCut(k.st, false);
      var r := Parse(g, inp, fuel, skip, e.child, s1);
      if r.out.Ok? then (Result(r.out, PushChild(r.st, n, r.out.tree)), r.st.pos == s1.pos) else (r, false)
  }

  method Iterate(g: Grammar, c: Context, fuel: nat, e: Expr, count: nat, n: nat) returns (o: Outcome, idle: bool)
    requires c.Valid() && c.skipper == g.skipper && e.Rep? && n < |c.arena|
    modifies c, c.expected
    ensures c.skipper == g.skipper
    ensures var r := Iteration(g, c.input, fuel, old(c.Skipping()), e, count, n, old(c.Abs()));
            Refines(c, o, r.0, old(c.cuts), old(c.skipEnabled)) && idle == r.1
    decreases fuel, 1, e, |c.input|
  {
    hide Parse, Skip, Bounded, Flat, Keys, Heads, Summary;
    idle := false;
    if count > 0 {
      o := RunSkipper(g, c, fuel);
      if !o.Ok? { return; }
    }
    var before := c.position;
    ResetCut(c);
    o := ParseExpr(g, c, fuel, e.child);
    if o.Ok? {
      idle := c.position == before;
      AddChild(c, n, o.tree);
    }
  }

  method ResetCut(c: Context)
    requires c.Valid()
    modifies c`cuts
    ensures c.Valid() && c.Abs() == SetCut(old(c.Abs()), false) && SameBelow(old(c.cuts), c.cuts)
  {
    c.CutTo(false);
  }

  lemma RepUnfolds(g: Grammar, inp: Input, fuel: nat, skip: bool, e: Expr, count: nat, start: nat, n: nat, s: State)
    requires Good(inp, s) && e.Rep? && start <= s.pos && n < |s.arena|
    ensures var (r, idle) := Iteration(g, inp, fuel, skip, e, count, n, s);
            var whole := RepFrom(g, inp, fuel, skip, e, count, start, n, s);
            match r.out
            case Abort => whole == r
            case Stuck => whole == r
            case Fail => whole == RepDone(inp, e, count, true, start, n, s.pos, r.st)
            case Ok(_) =>
              whole ==
                if (e.max > 0 && count + 1 >= e.max) || idle then RepDone(inp, e, count + 1, false, start, n,
                    r.st.pos, r.st)
                else RepFrom(g, inp, fuel, skip, e, count + 1, start, n, r.st)
  {
    hide Parse, Skip, RepDone;
    SkipNeverFails(g, inp, fuel, skip, s);
    var k := if count > 0 then Skip(g, inp, fuel, skip, s) else Result(Ok(None), s);
    if k.out.Ok? {
      assert RepFrom(g, inp, fuel, skip, e, count, start, n, s) == RepTry(g, inp, fuel, skip, e, count, start, n,
          s.pos, SetCut(k.st, false));
    }
  }

  lemma SkipNeverFails(g: Grammar, inp: Input, fuel: nat, skip: bool, s: State)
    requires Good(inp, s)
    ensures !Skip(g, inp, fuel, skip, s).out.Fail?
  {
  }

  /** After the loop: too few matches fail, a cut-committed failure of an unbounded repetition aborts. */
  method EndRep(g: Grammar, c: Context, e: Expr, count: nat, failed: bool, start: nat, n: nat, last: nat)
      returns (o: Outcome)
    requires c.Valid() && c.skipper == g.skipper && e.Rep? && n < |c.arena| && start <= last <= |c.input|
    requires !failed ==> c.position == last
    modifies c`position, c`arena
    ensures c.skipper == g.skipper
    ensures Refines(c, o, RepDone(c.input, e, count, failed, start, n, last, old(c.Abs())), old(c.cuts),
        old(c.skipEnabled))
  {
    hide Flat, Keys, Heads, Summary;
    if count < e.min {
      c.position := start;
      return Fail;
    }
    if failed {
      c.position := last;
      var kids := c.arena[n].children;
      if count <= |kids| {
        kids := kids[..count];
      } else {
        kids := kids + seq(count - |kids|, _ => None);
      }
      c.arena := c.arena[n := c.arena[n].(children := kids)];
    }
    if e.max < 0 && failed {
      var committed := c.IsCut();
      if committed { return Abort; }
    }
    c.arena := c.arena[n := c.arena[n].(end := c.position)];
    o := Ok(Some(n));
  }

  // ---- rules ------------------------------------------------------------------------------------

  method ParseRule(g: Grammar, c: Context, fuel: nat, rule: RuleId) returns (o: Outcome)
    requires c.Valid() && c.skipper == g.skipper
    modifies c, c.expected
    ensures c.skipper == g.skipper
    ensures Refines(c, o, Call(g, c.input, fuel, old(c.Skipping()), rule, old(c.Abs())), old(c.cuts),
        old(c.skipEnabled))
    decreases fuel, 0, 0
  {
    hide Finish, Grow, Bounded, Summary, Flat, Keys, Heads;
    var start := c.position;
    ghost var k, s := Key(start, rule), c.Abs();
    var inserted, e := c.RuleState(rule, start);
    if !inserted {
      assert c.Abs() == s;
      o := Hit(c, rule, start, e);
    } else if fuel == 0 || rule !in g.rules {
      o := Stuck;
    } else {
      o := FirstTime(g, c, fuel, rule, start, s);
    }
  }

  /** Tracks the rule on the left-recursion stack while its body is grown. */
  method FirstTime(g: Grammar, c: Context, fuel: nat, rule: RuleId, start: nat, ghost s: State) returns (o: Outcome)
    requires c.expected.Valid() && Summary(c.failures, c.hasError, c.furthest, ExpectedSets.Elements(c.expected.items))
    requires c.skipper == g.skipper && rule in g.rules && fuel > 0
    requires Good(c.input, s) && s.pos == start && Key(start, rule) !in s.memo
    requires c.Abs() == s.(memo := s.memo[Key(start, rule) := DEFAULT])
    modifies c, c.expected
    ensures c.skipper == g.skipper
    ensures Good(c.input, Enter(s, Key(start, rule)))
    ensures var k := Key(start, rule);
            var r := Grow(g, c.input, fuel - 1, old(c.Skipping()), k, start, Fail, Enter(s, k));
            Refines(c, o, Finish(g.rules[rule], c.input, k, Enter(s, k), r), old(c.cuts), old(c.skipEnabled))
    decreases fuel - 1, 4
  {
    hide Complete, Reject, Grow, Bounded, Summary, Flat, Keys, Heads;
    ghost var k := Key(start, rule);
    EnterGood(c.input, s, k);
    c.LrPush(rule, start);
    assert c.Abs() == Enter(s, k).(memo := Enter(s, k).memo[k := DEFAULT]);
    o := ParseImpl(g, c, fuel - 1, rule, start, Enter(s, k));
    if o.Normal() { o := FinishRule(g, c, rule, start, o, Enter(s, k)); }
  }

  lemma HitGood(inp: Input, s: State, k: Key)
    requires Good(inp, s) && k in s.memo
    ensures Good(inp, MarkHead(s, k).(pos := s.memo[k].end))
  {
    assert EntryGood(inp, s.arena, k, s.memo[k]);
  }

  lemma EnterGood(inp: Input, s: State, k: Key)
    requires Good(inp, s) && k.pos == s.pos
    ensures Good(inp, Enter(s, k))
  {
  }

  /** The three ways a memo entry answers: a re-entered rule marks its frame and returns its live seed;
      a rule involved in another one's growth returns its live entry; any other returns its entry. */
  method Hit(c: Context, rule: RuleId, start: nat, e: Entry) returns (o: Outcome)
    requires c.Valid() && c.position == start && Key(start, rule) in Flat(c.memo) && e == Flat(c.memo)[Key(start, rule)]
    modifies c`position, c`lrStack, c`growingHead
    ensures o == FromEntry(e)
    ensures c.Valid() && c.Abs() == MarkHead(old(c.Abs()), Key(start, rule)).(pos := e.end)
  {
    hide Flat, Summary, Bounded;
    HitGood(c.input, c.Abs(), Key(start, rule));
    var busy := c.LrInProgress(rule, start);
    if busy {
      c.MarkCycleHead(rule, start);
      var seed := c.MemoGet(rule, start);
      c.position := seed.end;
      return FromEntry(seed);
    }
    if start in c.growingHead && c.growingHead[start] != rule {
      var seed := c.MemoGet(rule, start);
      c.position := seed.end;
      return FromEntry(seed);
    }
    c.position := e.end;
    o := FromEntry(e);
  }

  /** The seed-grow loop.  `s` is the state in which the failure seed has been planted. */
  method ParseImpl(g: Grammar, c: Context, fuel: nat, rule: RuleId, start: nat, ghost s: State) returns (o: Outcome)
    requires c.expected.Valid() && Summary(c.failures, c.hasError, c.furthest, ExpectedSets.Elements(c.expected.items))
    requires c.skipper == g.skipper && rule in g.rules
    requires Good(c.input, s) && s.pos == start && s.lr != [] && Key(start, rule) in s.memo
    requires s.memo[Key(start, rule)] == Entry(false, start, None)
    requires c.Abs() == s.(memo := s.memo[Key(start, rule) := DEFAULT])
    modifies c, c.expected
    ensures c.skipper == g.skipper
    ensures Refines(c, o, Grow(g, c.input, fuel, old(c.Skipping()), Key(start, rule), start, Fail, s), old(c.cuts),
        old(c.skipEnabled))
    decreases fuel, 3
  {
    hide Grow, Bounded, Summary, Flat, Keys, Heads;
    ghost var k := Key(start, rule);
    PlantSeed(c, rule, start, s);
    var best, last, done := Fail, start, false;
    ghost var whole := Grow(g, c.input, fuel, c.Skipping(), k, start, Fail, s);
    while !done
      invariant done ==> Refines(c, best, whole, old(c.cuts), old(c.skipEnabled))
      invariant c.skipper == g.skipper
      invariant !done ==> c.Valid() && c.skipEnabled == old(c.skipEnabled) && SameBelow(old(c.cuts), c.cuts)
      invariant !done ==> Growing(c, k, last, best)
      invariant !done ==> Grow(g, c.input, fuel, c.Skipping(), k, last, best, c.Abs()) == whole
      decreases !done, |c.input| - last
    {
      best, last, done := GrowOnce(g, c, fuel, rule, start, last, best);
    }
    o := best;
  }

  /** The state between two iterations of the loop. */
  ghost predicate Growing(c: Context, k: Key, last: nat, best: Outcome)
    reads c
  {
    && c.lrStack != [] && k.pos <= last <= |c.input| && best.Normal()
    && (best.Ok? ==> TreeIn(c.arena, best.tree))
    && (best.Fail? ==> last == k.pos)
  }

  /** One iteration: evaluate the body, then publish a longer result and go on, or stop. */
  method GrowOnce(g: Grammar, c: Context, fuel: nat, rule: RuleId, start: nat, last: nat, best: Outcome)
    returns (best': Outcome, last': nat, done: bool)
    requires c.Valid() && c.skipper == g.skipper && rule in g.rules && Growing(c, Key(start, rule), last, best)
    modifies c, c.expected
    ensures c.skipper == g.skipper
    ensures var whole := Grow(g, c.input, fuel, old(c.Skipping()), Key(start, rule), last, best, old(c.Abs()));
            if done then Refines(c, best', whole, old(c.cuts), old(c.skipEnabled))
            else
              && c.Valid() && c.skipEnabled == old(c.skipEnabled) && SameBelow(old(c.cuts), c.cuts)
              && last < last' && Growing(c, Key(start, rule), last', best')
              && Grow(g, c.input, fuel, c.Skipping(), Key(start, rule), last', best', c.Abs()) == whole
    decreases fuel, 2, 1
  {
    hide Parse, Grow, Bounded, Restart, Settle, Summary, Flat, Keys, Heads;
    GrowUnfolds(g, c.input, fuel, c.Skipping(), Key(start, rule), last, best, c.Abs());
    best', last', done := best, last, true;
    var r := RunBody(g, c, fuel, rule, start, best);
    if r == Abort || r == Stuck {
      best' := r;
    } else if r.Fail? {
      c.position := last;
    } else if c.position <= last {
      // fixed point: a first match without progress is adopted, otherwise the longest is kept
      best' := SettleOn(c, rule, start, last, if best.Fail? then r else best);
    } else {
      last', best' := c.position, r;
      var live := Publish(c, rule, start, r);
      done := !live;
    }
  }

  /** A left-recursive call during the first iteration must fail. */
  method PlantSeed(c: Context, rule: RuleId, start: nat, ghost s: State)
    requires c.expected.Valid() && Summary(c.failures, c.hasError, c.furthest, ExpectedSets.Elements(c.expected.items))
    requires Good(c.input, s) && Key(start, rule) in s.memo && s.memo[Key(start, rule)] == Entry(false, start, None)
    requires c.Abs() == s.(memo := s.memo[Key(start, rule) := DEFAULT])
    modifies c`memo
    ensures c.Valid() && c.Abs() == s
  {
    hide Flat, Keys, Heads, Summary, Bounded;
    ghost var k := Key(start, rule);
    assert s.memo[k := DEFAULT][k := s.memo[k]] == s.memo;
    var _ := c.UpdateRuleState(rule, start, Entry(false, start, None));
  }

  /** One evaluation of the body; a head that has a result first clears its siblings. */
  method RunBody(g: Grammar, c: Context, fuel: nat, rule: RuleId, start: nat, best: Outcome) returns (r: Outcome)
    requires c.Valid() && c.skipper == g.skipper && rule in g.rules && c.lrStack != [] && start <= |c.input|
    modifies c, c.expected
    ensures c.skipper == g.skipper
    ensures Refines(c, r, Parse(g, c.input, fuel, old(c.Skipping()), g.rules[rule].body,
        Restart(c.input, Key(start, rule), best, old(c.Abs()))),
                    old(c.cuts), old(c.skipEnabled))
    decreases fuel, 2, 0
  {
    hide Parse, Flat, Keys, Summary, ClearSiblings;
    c.position := start;
    c.evals := c.evals + 1;
    if c.lrStack[|c.lrStack| - 1].isHead && best.Ok? {
      c.ClearSiblingsAt(start, rule);
    }
    assert c.Abs() == Restart(c.input, Key(start, rule), best, old(c.Abs()));
    r := ParseExpr(g, c, fuel, g.rules[rule].body);
  }

  method SettleOn(c: Context, rule: RuleId, start: nat, last: nat, best: Outcome) returns (o: Outcome)
    requires c.Valid() && best.Ok? && start <= last <= |c.input| && TreeIn(c.arena, best.tree)
    modifies c`memo, c`position
    ensures c.Valid() && Result(o, c.Abs()) == Settle(c.input, Key(start, rule), last, best, old(c.Abs()))
  {
    hide Flat, Keys, Heads, Summary, Bounded;
    ghost var settled := Settle(c.input, Key(start, rule), last, best, c.Abs());
    assert Good(c.input, settled.st);
    var _ := c.UpdateRuleState(rule, start, Entry(true, last, best.tree));
    c.position := last;
    o := best;
  }

  /** Publishes a longer result as the new seed, unless the entry was evicted. */
  method Publish(c: Context, rule: RuleId, start: nat, r: Outcome) returns (live: bool)
    requires c.Valid() && r.Ok? && start <= c.position && TreeIn(c.arena, r.tree)
    modifies c`memo
    ensures c.Valid() && live == (Key(start, rule) in old(Flat(c.memo)))
    ensures live ==> c.Abs() == old(c.Abs()).(memo := old(Flat(c.memo))[Key(start, rule) :=
        Entry(true, c.position, r.tree)])
    ensures !live ==> c.Abs() == old(c.Abs())
  {
    hide Flat, Keys, Heads, Summary;
    live := c.UpdateRuleState(rule, start, Entry(true, c.position, r.tree));
  }

  lemma GrowUnfolds(g: Grammar, inp: Input, fuel: nat, skip: bool, k: Key, last: nat, best: Outcome, s: State)
    requires Good(inp, s) && k.rule in g.rules && s.lr != [] && k.pos <= last <= |inp| && best.Normal()
    requires (best.Ok? ==> TreeIn(s.arena, best.tree)) && (best.Fail? ==> last == k.pos)
    ensures var r := Parse(g, inp, fuel, skip, g.rules[k.rule].body, Restart(inp, k, best, s));
            var whole := Grow(g, inp, fuel, skip, k, last, best, s);
            match r.out
            case Abort => whole == r
            case Stuck => whole == r
            case Fail => whole == Result(best, r.st.(pos := last))
            case Ok(t) =>
              if r.st.pos <= last then whole == Settle(inp, k, last, if best.Ok? then best else r.out, r.st)
              else if k in r.st.memo then
                var s1 := r.st.(memo := r.st.memo[k := Entry(true, r.st.pos, t)]);
                Good(inp, s1) && s1.lr != [] && whole == Grow(g, inp, fuel, skip, k, r.st.pos, r.out, s1)
              else whole == r
  {
    hide Parse, Restart, Settle;
  }

  method FinishRule(g: Grammar, c: Context, rule: RuleId, start: nat, r: Outcome, ghost s: State) returns (o: Outcome)
    requires c.Valid() && c.skipper == g.skipper && rule in g.rules && r.Normal()
    requires s.lr != [] && s.pos == start && Framed(c.input, s, Result(r, c.Abs()))
    modifies c, c.expected
    ensures c.skipper == g.skipper
    ensures Refines(c, o, Finish(g.rules[rule], c.input, Key(start, rule), s, Result(r, old(c.Abs()))), old(c.cuts),
        old(c.skipEnabled))
    ensures c.failures == old(c.failures) + if r.Fail? then Reported(g.rules[rule], start) else {}
  {
    hide Complete, Reject, Flat, Keys, Heads, Summary, Bounded;
    var isHead := c.lrStack[|c.lrStack| - 1].isHead;
    LeaveGood(c.input, s, Result(r, c.Abs()));
    c.LrPop();
    if isHead { c.ClearGrowingHead(start); }
    assert c.Abs() == Leave(old(c.Abs()));
    if r.Ok? {
      o := BuildNode(g, c, rule, start, r.tree);
    } else {
      o := RejectRule(g, c, rule, start);
    }
  }

  /** A rule with an action wraps the body's node in its own; any other adopts it. */
  method BuildNode(g: Grammar, c: Context, rule: RuleId, start: nat, tree: Option<nat>) returns (o: Outcome)
    requires c.Valid() && rule in g.rules && start <= c.position && TreeIn(c.arena, tree)
    modifies c`arena, c`memo
    ensures c.Valid() && Result(o, c.Abs()) == Complete(g.rules[rule], c.input, Key(start, rule), tree, old(c.Abs()))
    ensures o.Ok? && o.tree.Some? && o.tree.value < |c.arena|
    ensures var node := c.arena[o.tree.value];
            && node.name == g.rules[rule].name && node.start == start && node.end == c.position
            && node.producer.Some? && (g.rules[rule].hasAction ==> node.producer == Some(rule))
  {
    hide Flat, Keys, Heads, Summary, Bounded;
    ghost var whole := Complete(g.rules[rule], c.input, Key(start, rule), tree, c.Abs());
    assert Good(c.input, whole.st);
    var def := g.rules[rule];
    var n: nat;
    if def.hasAction {
      n := c.MakeNode();
      c.arena := c.arena[n := Node(def.name, start, c.position, if tree.Some? then [tree] else [], Some(rule), None)];
    } else {
      if tree.Some? { n := tree.value; } else { n := c.MakeNode(); }
      var node := c.arena[n];
      c.arena := c.arena[n := node.(
        name := def.name,
        producer := if node.producer.Some? then node.producer else Some(rule),
        start := start,
        end := c.position)];
    }
    var _ := c.UpdateRuleState(rule, start, Entry(true, c.position, Some(n)));
    o := Ok(Some(n));
    assert Result(o, c.Abs()) == whole;
  }

  /** The label of a rule, or without one its name, is what was expected where it started. */
  ghost function Reported(def: RuleDef, start: nat): (fs: set<Failure>)
    ensures def.tag != "" ==> fs == {Failure(start, Item(RuleLabel, def.tag))}
    ensures def.tag == "" && def.name != "" ==> fs == {Failure(start, Item(RuleName, def.name))}
    ensures def.tag == "" && def.name == "" ==> fs == {}
  {
    def.Report(start)
  }

  method ReportFailure(c: Context, def: RuleDef, start: nat)
    requires c.Valid()
    modifies c`furthest, c`hasError, c`failures, c.expected
    ensures c.Valid() && c.Abs() == Record(old(c.Abs()), def.Report(start))
    ensures c.failures == old(c.failures) + Reported(def, start)
  {
    hide Flat, Keys, Heads, Summary, Bounded;
    if def.tag != "" {
      c.RecordFailure(start, Item(RuleLabel, def.tag));
    } else if def.name != "" {
      c.RecordFailure(start, Item(RuleName, def.name));
    }
  }

  /** Reports the failure; then scans for a sync element and resumes behind it, if the rule recovers
      and no cut is committed in the enclosing scope. */
  method RejectRule(g: Grammar, c: Context, rule: RuleId, start: nat) returns (o: Outcome)
    requires c.Valid() && rule in g.rules && c.position <= |c.input| && start <= |c.input|
    modifies c, c.expected
    ensures c.Valid() && Result(o, c.Abs()) == Reject(g.rules[rule], c.input, Key(start, rule), old(c.Abs()))
    ensures c.failures == old(c.failures) + Reported(g.rules[rule], start)
    ensures c.cuts == old(c.cuts) && c.skipEnabled == old(c.skipEnabled) && c.skipper == old(c.skipper)
  {
    hide Flat, Keys, Heads, Summary, Bounded, Scan;
    ghost var whole := Reject(g.rules[rule], c.input, Key(start, rule), c.Abs());
    assert Good(c.input, whole.st);
    var def := g.rules[rule];
    ReportFailure(c, def, start);
    var committed := c.IsCut();
    if def.recovery.Some? && !committed {
      o := Recover(c, def, rule, start);
    } else {
      c.position := start;
      var _ := c.UpdateRuleState(rule, start, Entry(false, start, None));
      o := Fail;
    }
    assert Result(o, c.Abs()) == whole;
  }

  method Recover(c: Context, def: RuleDef, rule: RuleId, start: nat) returns (o: Outcome)
    requires start <= |c.input| && def.recovery.Some?
    modifies c`position, c`diagnostics, c`memo
    ensures var sync := Scan(c.input, def.recovery.value.isSync, start);
            var resume := if sync < |c.input| then sync + 1 else |c.input|;
            var tag := if def.recovery.value.tag == "" then def.name else def.recovery.value.tag;
            && o == Ok(None)
            && c.Abs() == old(c.Abs()).(
                 pos := resume,
                 diags := old(c.diagnostics) + [Diagnostic(start, Item(RuleLabel, tag))],
                 memo := Update(old(Flat(c.memo)), Key(start, rule), Entry(true, resume, None)))
  {
    hide Flat, Keys, Heads, Scan;
    var scan := ScanForSync(c, def.recovery.value, start);
    c.position := if scan < |c.input| then scan + 1 else |c.input|;
    var tag := if def.recovery.value.tag == "" then def.name else def.recovery.value.tag;
    c.RecordDiagnostic(start, Item(RuleLabel, tag));
    var _ := c.UpdateRuleState(rule, start, Entry(true, c.position, None));
    o := Ok(None);
  }

  /** The first position at or after `start` that holds a sync element, or the end of the input. */
  method ScanForSync(c: Context, recovery: Recovery, start: nat) returns (scan: nat)
    requires start <= |c.input|
    ensures scan == Scan(c.input, recovery.isSync, start)
  {
    scan := start;
    while scan < |c.input| && !recovery.isSync(c.input[scan])
      invariant start <= scan <= |c.input|
      invariant Scan(c.input, recovery.isSync, scan) == Scan(c.input, recovery.isSync, start)
    {
      scan := scan + 1;
    }
  }

  /** A whole parse: installs the grammar's skipper, runs it once, then parses the start rule.  A committed failure
      of the skipper ends it before the rule is started. */
  method ParseStart(g: Grammar, c: Context, fuel: nat, start: RuleId) returns (o: Outcome, started: bool)
    requires c.Valid() && c.skipEnabled
    modifies c, c.expected
    ensures Refines(c, o, Run(g, c.input, fuel, start, old(c.Abs())), old(c.cuts), true)
    ensures started <==> Skip(g, c.input, fuel, g.skipper.Some?, old(c.Abs())).out.Ok?
  {
    hide Skip, Call, Flat, Keys, Heads, Summary;
    c.skipper := g.skipper;
    o := RunSkipper(g, c, fuel);
    started := o.Ok?;
    if started { o := ParseRule(g, c, fuel, start); }
  }
}
