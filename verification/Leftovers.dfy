/** What a growth leaves behind.  Every iteration of a growing rule enters its partners for the seed of that iteration,
    and the entries of the last iteration stay.  A partner used on its own at the same position afterwards is answered
    from there, not by growing itself. */
module Leftovers {
  import opened Grammars
  import opened Machine
  import opened Peg
  import opened Forms
  import opened Soundness
  import opened LeftRecursion
  import opened Limits
  import opened Cycles
  import opened Readings
  import Depth
  import Elimination
  import Packrat
  import Parsing
  import Reachability
  import Termination
  import Transparency

  // ---- any partner of any rule ------------------------------------------------------------------

  /** The result has the outcome `o`, with its end. */
  ghost predicate As(r: Result, o: Out) {
    match o
    case Yes(end) => r.out.Ok? && r.st.pos == end
    case No => r.out.Fail?
    case Throw => r.out.Abort?
  }

  /** Two results with the same outcome and end. */
  ghost predicate SameOut(r: Result, r': Result) {
    && r.out.Ok? == r'.out.Ok? && r.out.Fail? == r'.out.Fail? && r.out.Abort? == r'.out.Abort?
    && (r.out.Ok? ==> r.st.pos == r'.st.pos)
  }

  /** The answer of partner m in the last step of the growth of its owner at `i`, where the growth is answered within
      depth k. */
  ghost function LastStep(c: Setting, k: nat, m: RuleId, i: nat): Option<Answer>
    requires i <= |c.inp| && IsPartner(c.g, m)
  {
    var key := Key(i, Owner(c.g, m));
    var a := Means(c, k, key);
    if a.None? then None else PartMeans(c, k, key, Final(key, a.value.out), m)
  }

  /** A partner used while its owner is not under evaluation, and with an entry there: the owner has grown there, and
      the use is answered as the last step of that growth was, with nothing evaluated. */
  lemma LaterUse(c: Setting, fuel: nat, skip: bool, m: RuleId, s: State) returns (k: nat)
    requires Sound(c, s) && Settled(c, s) && IsPartner(c.g, m) && Key(s.pos, m) in s.memo
    requires Key(s.pos, Owner(c.g, m)) !in s.lr
    ensures s.pos <= |c.inp| && LastStep(c, k, m, s.pos).Some?
    ensures var r := Call(c.g, c.inp, fuel, skip, m, s);
            r.out.Normal() && As(r, LastStep(c, k, m, s.pos).value.out) && r.st == s.(pos := r.st.pos)
  {
    hide EntriesSound, PegCall, PegIn;
    var key := Key(s.pos, Owner(c.g, m));
    var e := s.memo[Key(s.pos, m)];
    var h: nat :| Means(c, h, key).Some? && PartSound(c, key, Final(key, Means(c, h, key).value.out), m, e, s.failures);
    var seed := Final(key, Means(c, h, key).value.out);
    var d: nat :| PartIs(c, d, key, seed, m, e, s.failures);
    k := if h <= d then d else h;
    Depth.DeeperCall(c.g, c.inp, h, k, c.mode(key.rule), key.rule, key.pos);
    Packrat.PartDeeper(c, d, k, key, seed, m);
    assert EntryGood(c.inp, s.arena, Key(s.pos, m), e);
    assert Key(s.pos, m) !in s.lr;
  }

  lemma SameStep(c: Setting, k: nat, k': nat, m: RuleId, i: nat)
    requires i <= |c.inp| && IsPartner(c.g, m) && LastStep(c, k, m, i).Some? && LastStep(c, k', m, i).Some?
    ensures LastStep(c, k, m, i) == LastStep(c, k', m, i)
  {
    hide PegCall, PegIn;
    var key := Key(i, Owner(c.g, m));
    SameMeaning(c, k, k', key);
    Packrat.SamePart(c, k, k', key, Final(key, Means(c, k, key).value.out), m);
  }

  /** So it is right, that is, as on a new context, iff that last step is what the partner answers when it grows itself;
      `own` is a reading in which it is no partner. */
  lemma LaterUseIsRightIff(c: Setting, own: Setting, fuel: nat, k: nat, d: nat, m: RuleId, s: State)
    requires Sound(c, s) && Settled(c, s) && IsPartner(c.g, m) && Key(s.pos, m) in s.memo
    requires Key(s.pos, Owner(c.g, m)) !in s.lr && LastStep(c, k, m, s.pos).Some?
    requires own.g == Read(c.g, own.g.grown, own.g.partners, own.g.quiet) && own.inp == c.inp && !own.calm
    requires WellFormed(own.g, own.mode) && !IsPartner(own.g, m)
    requires d <= fuel && PegCall(own.g, own.inp, d, own.mode(m), m, s.pos).Some?
    ensures var skip, out := own.mode(m), PegCall(own.g, own.inp, d, own.mode(m), m, s.pos).value.out;
            var later, alone := Call(c.g, c.inp, fuel, skip, m, s),
                Call(c.g, c.inp, fuel, skip, m, FRESH.(pos := s.pos));
            && As(alone, out)
            && (SameOut(later, alone) <==> LastStep(c, k, m, s.pos).value.out == out)
  {
    hide WellFormed, Sound, Settled, Call, PegCall, LastStep, FramesKept, NoCuts;
    var k' := LaterUse(c, fuel, own.mode(m), m, s);
    SameStep(c, k, k', m, s.pos);
    Alone(own, fuel, d, m, s.pos);
    CallIgnoresReading(c.g, own.g, c.inp, fuel, own.mode(m), m, FRESH.(pos := s.pos));
  }

  /** A rule on a new context. */
  lemma Alone(c: Setting, fuel: nat, d: nat, m: RuleId, i: nat)
    requires WellFormed(c.g, c.mode) && !c.calm && !IsPartner(c.g, m)
    requires i <= |c.inp| && d <= fuel && PegCall(c.g, c.inp, d, c.mode(m), m, i).Some?
    ensures As(Call(c.g, c.inp, fuel, c.mode(m), m, FRESH.(pos := i)),
                PegCall(c.g, c.inp, d, c.mode(m), m, i).value.out)
  {
    hide WellFormed, Call, PegCall, FramesKept, NoCuts;
    Packrat.SoundCall(c, fuel, d, c.mode(m), m, FRESH.(pos := i));
  }

  /** Moving, recording failures and building trees. */
  lemma Moved(c: Setting, s: State, s1: State)
    requires Sound(c, s) && Settled(c, s) && s1.pos <= |c.inp| && |s.arena| <= |s1.arena|
    requires s1.memo == s.memo && s1.lr == s.lr && s1.heads == s.heads && s.failures <= s1.failures
    ensures Sound(c, s1) && Settled(c, s1)
  {
    hide Settled;
    SettledLess(c, s, s1);
  }

  // ---- histories with later uses ----------------------------------------------------------------

  /** The context after parses from any rules, starting from a new one. */
  ghost function Reached(c: Setting, fuel: nat, visits: seq<Transparency.Visit>): (s: State)
    requires forall v | v in visits :: v.pos <= |c.inp|
    ensures Good(c.inp, s)
  {
    if visits == [] then FRESH
    else
      var v := visits[|visits| - 1];
      Run(c.g, c.inp, fuel, v.start, Reached(c, fuel, visits[..|visits| - 1]).(pos := v.pos)).st
  }

  /** A parse, from `s`, of a partner with an entry where the leading skip ends, or of a rule that is no partner and has
      an answer. */
  ghost predicate Welcome(c: Setting, fuel: nat, k: nat, start: RuleId, s: State)
    requires Good(c.inp, s)
  {
    if IsPartner(c.g, start) then
      var w := PegSkip(c.g, c.inp, k, c.g.skipper.Some?, s.pos);
      var r := Skip(c.g, c.inp, fuel, c.g.skipper.Some?, s);
      w.Some? && w.value.out.Yes? && Key(r.st.pos, start) in r.st.memo
    else
      && Transparency.Startable(c, start) && PegRun(c.g, c.inp, k, start, s.pos).Some?
      && !PegRun(c.g, c.inp, k, start, s.pos).value.out.Throw?
  }

  /** It ends as the last step of the owner's growth there ended, or as the memo-free answer. */
  ghost predicate Answers(c: Setting, k: nat, start: RuleId, i: nat, r: Result)
    requires i <= |c.inp|
  {
    if IsPartner(c.g, start) then
      var w := PegSkip(c.g, c.inp, k, c.g.skipper.Some?, i);
      w.Some? && w.value.out.Yes? && exists d: nat :: StepIs(c, d, start, w.value.out.end, r)
    else
      PegRun(c.g, c.inp, k, start, i).Some? && As(r, PegRun(c.g, c.inp, k, start, i).value.out)
  }

  ghost predicate StepIs(c: Setting, k: nat, m: RuleId, i: nat, r: Result)
    requires i <= |c.inp| && IsPartner(c.g, m)
  {
    LastStep(c, k, m, i).Some? && As(r, LastStep(c, k, m, i).value.out)
  }

  lemma OneMore(c: Setting, fuel: nat, k: nat, start: RuleId, s: State)
    requires Transparency.Idle(c, s) && Settled(c, s) && k <= fuel && Good(c.inp, s) && Welcome(c, fuel, k, start, s)
    ensures var r := Run(c.g, c.inp, fuel, start, s);
            r.out.Normal() && Answers(c, k, start, s.pos, r) && Transparency.Idle(c, r.st) && Settled(c, r.st)
  {
    hide WellFormed, MemoSound, HeadsKept, EntriesKept, PartnersKept, WorkPaid, Settled, Skip, PegSkip, Call, PegCall,
        LastStep, Bounded;
    var skip := c.g.skipper.Some?;
    if IsPartner(c.g, start) {
      assert Above(c, k, s.lr);
      Packrat.SoundSkip(c, fuel, k, skip, s);
      var w := Skip(c.g, c.inp, fuel, skip, s).st;
      var d := LaterUse(c, fuel, skip, start, w);
      var r := Call(c.g, c.inp, fuel, skip, start, w);
      assert StepIs(c, d, start, w.pos, r);
      Moved(c, w, r.st);
    } else {
      Transparency.RunIsPeg(c, fuel, k, start, s);
    }
  }

  /** Each visit in turn was welcome. */
  ghost predicate AllWelcome(c: Setting, fuel: nat, k: nat, visits: seq<Transparency.Visit>)
    requires forall v | v in visits :: v.pos <= |c.inp|
  {
    visits != [] ==>
      var init, v := visits[..|visits| - 1], visits[|visits| - 1];
      AllWelcome(c, fuel, k, init) && Welcome(c, fuel, k, v.start, Reached(c, fuel, init).(pos := v.pos))
  }

  lemma {:induction false} HistorySettles(c: Setting, fuel: nat, k: nat, visits: seq<Transparency.Visit>)
    requires WellFormed(c.g, c.mode) && CalmSkip(c) && k <= fuel
    requires (forall v | v in visits :: v.pos <= |c.inp|) && AllWelcome(c, fuel, k, visits)
    ensures Transparency.Idle(c, Reached(c, fuel, visits)) && Settled(c, Reached(c, fuel, visits))
    decreases |visits|
  {
    hide WellFormed, Sound, SettledAt, Run, Welcome, Answers;
    if visits != [] {
      var init, v := visits[..|visits| - 1], visits[|visits| - 1];
      HistorySettles(c, fuel, k, init);
      assert v in visits;
      Moved(c, Reached(c, fuel, init), Reached(c, fuel, init).(pos := v.pos));
      OneMore(c, fuel, k, v.start, Reached(c, fuel, init).(pos := v.pos));
    } else {
      Transparency.FreshIsIdle(c);
    }
  }

  /** Histories may also start at partners, where their owners have left them: each parse, the last one included, is
      answered by the memo-free semantics of its rule, or by the last step of the owner's growth. */
  lemma LaterUsesAreHarmless(c: Setting, fuel: nat, k: nat, visits: seq<Transparency.Visit>, v: Transparency.Visit)
    requires WellFormed(c.g, c.mode) && CalmSkip(c) && k <= fuel && v.pos <= |c.inp|
    requires (forall x | x in visits :: x.pos <= |c.inp|) && AllWelcome(c, fuel, k, visits)
    requires Welcome(c, fuel, k, v.start, Reached(c, fuel, visits).(pos := v.pos))
    ensures Answers(c, k, v.start, v.pos,
                    Run(c.g, c.inp, fuel, v.start, Reached(c, fuel, visits).(pos := v.pos)))
  {
    hide WellFormed, Sound, Settled, Run, Welcome, Answers, AllWelcome;
    HistorySettles(c, fuel, k, visits);
    Moved(c, Reached(c, fuel, visits), Reached(c, fuel, visits).(pos := v.pos));
    OneMore(c, fuel, k, v.start, Reached(c, fuel, visits).(pos := v.pos));
  }

  // ---- an alias cycle ---------------------------------------------------------------------------

  /** Leaving a rule keeps the keys of the memo. */
  lemma FinishKeys(def: RuleDef, inp: Input, k: Key, s: State, r: Result)
    requires s.lr != [] && s.pos == k.pos && Framed(inp, s, r)
    ensures Finish(def, inp, k, s, r).st.memo.Keys == r.st.memo.Keys
  {
    hide Framed;
  }

  /** Without cuts a rule has its entry when it is left. */
  lemma LeavesEntry(g: Grammar, inp: Input, fuel: nat, skip: bool, rule: RuleId, s: State)
    requires Termination.Terminating(g) && Termination.Roomy(g, inp, fuel, s) && rule in g.rules
    ensures Key(s.pos, rule) in Call(g, inp, fuel, skip, rule, s).st.memo
  {
    hide Grow, Finish, Termination.Terminating, Termination.Depth;
    var k := Key(s.pos, rule);
    if k !in s.memo {
      Termination.RoomLeft(g, inp, fuel, s, k);
      Termination.NeverStuckGrow(g, inp, fuel - 1, skip, k, k.pos, Fail, Enter(s, k));
      var r := Grow(g, inp, fuel - 1, skip, k, k.pos, Fail, Enter(s, k));
      assert k in r.st.lr && k in r.st.memo;
      FinishKeys(g.rules[rule], inp, k, Enter(s, k), r);
    }
  }

  /** `e` enters m before anything else, and then no other rule. */
  ghost predicate OnlyEnters(e: Expr, m: RuleId) {
    e == Rule(m) || (exists a, b :: e == Alt([Seq([Rule(m), Char(a)]), Char(b)]))
  }

  lemma BodyEnters(g: Grammar, inp: Input, fuel: nat, e: Expr, m: RuleId, s: State)
    requires Termination.Terminating(g) && Termination.Roomy(g, inp, fuel, s) && OnlyEnters(e, m) && m in g.rules
    ensures Key(s.pos, m) in Parse(g, inp, fuel, false, e, s).st.memo
  {
    hide Termination.Terminating, Termination.Depth, Call, SeqFrom;
    if e == Rule(m) {
      LeavesEntry(g, inp, fuel, false, m, s);
    } else {
      var a, b :| e == Alt([Seq([Rule(m), Char(a)]), Char(b)]);
      BranchEnters(g, inp, fuel, e, a, b, m, s);
    }
  }

  lemma BranchEnters(g: Grammar, inp: Input, fuel: nat, e: Expr, a: Sym, b: Sym, m: RuleId, s: State)
    requires Termination.Terminating(g) && Termination.Roomy(g, inp, fuel, s) && m in g.rules
    requires e == Alt([Seq([Rule(m), Char(a)]), Char(b)])
    ensures Key(s.pos, m) in Parse(g, inp, fuel, false, e, s).st.memo
  {
    hide Termination.Terminating, Termination.Depth, Call, SeqFrom, EntryGood, At;
    OpenGood(inp, s);
    var row := Seq([Rule(m), Char(a)]);
    assert e.es[0] == row && e.es[1] == Char(b);
    RowEnters(g, inp, fuel, row, a, m, s);
    var s0 := OpenScope(s);
    var r := Parse(g, inp, fuel, false, row, s0);
    if r.out.Fail? {
      CharIs(g, inp, fuel, b, r.st);
      var r1 := Parse(g, inp, fuel, false, Char(b), r.st);
      assert r1.out.Fail? ==> AltFrom(g, inp, fuel, false, e, 2, r1.st) == Result(Fail, r1.st);
      var w := AltFrom(g, inp, fuel, false, e, 1, r.st);
      assert w.st.memo == r.st.memo && !CutSet(w.st);
      assert AltFrom(g, inp, fuel, false, e, 0, s0) == w;
    }
  }

  lemma RowEnters(g: Grammar, inp: Input, fuel: nat, row: Expr, a: Sym, m: RuleId, s: State)
    requires Termination.Terminating(g) && Termination.Roomy(g, inp, fuel, s) && m in g.rules
    requires row == Seq([Rule(m), Char(a)])
    ensures var r := Parse(g, inp, fuel, false, row, OpenScope(s));
            r.out.Normal() && !CutSet(r.st) && Key(s.pos, m) in r.st.memo
  {
    hide Termination.Terminating, Termination.Depth, Call, SeqFrom;
    var s0 := OpenScope(s);
    var s1 := Alloc(s0, s0.pos, 0);
    SeqOfTwo(g, inp, fuel, Rule(m), Char(a), s0);
    Termination.LiveIdle(g, inp, s, s1);
    LeavesEntry(g, inp, fuel, false, m, s1);
    Termination.NeverStuckCall(g, inp, fuel, false, m, s1);
  }

  lemma {:induction false} GrowEnters(g: Grammar, inp: Input, fuel: nat, k: Key, m: RuleId, last: nat, best: Outcome,
      s: State)
    requires Termination.Terminating(g) && Termination.Roomy(g, inp, fuel, s) && k in s.lr && m in g.rules
    requires k.rule in g.rules && OnlyEnters(g.rules[k.rule].body, m) && k.pos <= last <= |inp| && best.Normal()
    requires (best.Ok? ==> TreeIn(s.arena, best.tree)) && (best.Fail? ==> last == k.pos)
    ensures Key(k.pos, m) in Grow(g, inp, fuel, false, k, last, best, s).st.memo
    decreases |inp| - last
  {
    hide Termination.Depth, Parse, OnlyEnters, NoCuts;
    var body := g.rules[k.rule].body;
    var s1 := Restart(inp, k, best, s);
    Termination.LiveIdle(g, inp, s, s1);
    BodyEnters(g, inp, fuel, body, m, s1);
    assert Termination.Closed(g, body);
    assert CutFree(body) by { assert NoCuts(g); NoCutsIn(g, k.rule); }
    Termination.NeverStuck(g, inp, fuel, false, body, s1);
    var r := Parse(g, inp, fuel, false, body, s1);
    if r.out.Ok? && r.st.pos > last {
      GrowEnters(g, inp, fuel, k, m, r.st.pos, r.out,
          r.st.(memo := r.st.memo[k := Entry(true, r.st.pos, r.out.tree)]));
    }
  }

  lemma NoCutsIn(g: Grammar, r: RuleId)
    requires NoCuts(g) && r in g.rules
    ensures CutFree(g.rules[r].body)
  {
  }

  /** So a rule of which nothing but m is entered at its start leaves an entry of m. */
  lemma CallEnters(g: Grammar, inp: Input, fuel: nat, rule: RuleId, m: RuleId, s: State)
    requires Termination.Terminating(g) && Termination.Roomy(g, inp, fuel, s) && m in g.rules && m != rule
    requires rule in g.rules && OnlyEnters(g.rules[rule].body, m) && Key(s.pos, rule) !in s.memo
    ensures Key(s.pos, m) in Call(g, inp, fuel, false, rule, s).st.memo
  {
    hide Grow, Finish, Termination.Terminating, Termination.Depth, OnlyEnters, EntryGood;
    var k := Key(s.pos, rule);
    Termination.RoomLeft(g, inp, fuel, s, k);
    Termination.NeverStuckGrow(g, inp, fuel - 1, false, k, k.pos, Fail, Enter(s, k));
    GrowEnters(g, inp, fuel - 1, k, m, k.pos, Fail, Enter(s, k));
    FinishKeys(g.rules[rule], inp, k, Enter(s, k), Grow(g, inp, fuel - 1, false, k, k.pos, Fail, Enter(s, k)));
  }

  lemma RunIsCall(g: Grammar, inp: Input, fuel: nat, start: RuleId, s: State)
    requires Good(inp, s) && g.skipper.None?
    ensures Run(g, inp, fuel, start, s) == Call(g, inp, fuel, false, start, s)
  {
    hide Call;
  }

  /** Where the last step of the growth at i leaves the other rule of the cycle. */
  function OtherEnds(start: RuleId, inp: Input, i: nat): (o: Out)
    requires i <= |inp|
    ensures !o.Throw?
  {
    if i == |inp| || inp[i] != 2 then No else Yes(if start == 1 then Behind(inp, i + 1) else i + 1)
  }

  lemma AliasStep(g: Grammar, start: RuleId, row: Expr, both: Expr, inp: Input, i: nat)
    requires IsAlias(g, start, row, both) && i <= |inp| && PiecesCutFree(g, start)
    requires Choice(g, start, 1) && Arms(g, start, 1) == ALIAS_ARMS
    ensures var a := LastStep(Setting(g, inp, OneMode()), 2, 1 - start, i);
            a.Some? && a.value.out == OtherEnds(start, inp, i)
  {
    hide PiecesCutFree, Choice, Arms, PegCall, PegIn;
    AliasAnswer(g, inp, start, i);
    var c, key := Setting(g, inp, OneMode()), Key(i, start);
    assert OutOf(PegCall(g, inp, 2, false, start, i)) == OutOf(PegRun(g, inp, 2, start, i));
    var seed := Final(key, Means(c, 2, key).value.out);
    if start == 1 {
      OtherIsSeed(g, inp, i, seed);
    } else {
      OtherSteps(g, row, both, inp, i, seed);
    }
  }

  /** A, while B grows, is B's seed. */
  lemma OtherIsSeed(g: Grammar, inp: Input, i: nat, seed: Option<nat>)
    requires Serves(g, 0, 1) && g.rules[0].body == Rule(1) && i <= |inp| && (seed.Some? ==> i < seed.value <= |inp|)
    ensures OutOf(PegIn(g, inp, 2, false, 1, Rule(0), i, seed)) == Some(if seed.Some? then Yes(seed.value) else No)
  {
    assert PegIn(g, inp, 1, false, 1, Rule(1), i, seed) ==
        Some(Answer(if seed.Some? then Yes(seed.value) else No, false, {}));
  }

  /** B, while A grows, goes on behind A's seed, or starts over. */
  lemma OtherSteps(g: Grammar, row: Expr, both: Expr, inp: Input, i: nat, seed: Option<nat>)
    requires Serves(g, 1, 0) && g.rules[1].body == both && i <= |inp| && (seed.Some? ==> i < seed.value <= |inp|)
    requires row == Seq([Rule(0), Char(1)]) && both == Alt([row, Char(2)]) && g.skipper.None?
    ensures OutOf(PegIn(g, inp, 2, false, 0, Rule(1), i, seed)) ==
              Some(if seed.Some? && seed.value < |inp| && inp[seed.value] == 1 then Yes(seed.value + 1)
                   else if i < |inp| && inp[i] == 2 then Yes(i + 1) else No)
  {
    hide Serves, PegSeq;
    assert row.es[0] == Rule(0) && row.es[1] == Char(1) && both.es[0] == row && both.es[1] == Char(2);
    var first := PegIn(g, inp, 1, false, 0, Rule(0), i, seed);
    assert first == Some(Answer(if seed.Some? then Yes(seed.value) else No, false, {}));
    if seed.Some? { LastB(g, inp, row, seed.value); }
    var branch := PegIn(g, inp, 1, false, 0, row, i, seed);
    assert OutOf(branch) == Some(if seed.Some? && seed.value < |inp| && inp[seed.value] == 1 then Yes(seed.value + 1)
                                 else No);
    var other := PegIn(g, inp, 1, false, 0, Char(2), i, seed);
    assert OutOf(other) == Some(if i < |inp| && inp[i] == 2 then Yes(i + 1) else No);
    assert PegInAlt(g, inp, 1, false, 0, both, 2, i, seed) == Some(Answer(No, false, {}));
    assert OutOf(PegInAlt(g, inp, 1, false, 0, both, 1, i, seed)) == OutOf(other);
    assert OutOf(PegInAlt(g, inp, 1, false, 0, both, 0, i, seed)) == if branch.value.out.Yes? then OutOf(branch)
        else OutOf(other);
  }

  lemma LastB(g: Grammar, inp: Input, row: Expr, q: nat)
    requires row == Seq([Rule(0), Char(1)]) && q <= |inp| && g.skipper.None?
    ensures OutOf(PegSeq(g, inp, 1, false, row, 1, q, false)) ==
              Some(if q < |inp| && inp[q] == 1 then Yes(q + 1) else No)
  {
    assert row.es[1] == Char(1);
    LastChild(g, inp, 1, false, row, 1, q, false);
  }

  /** The other rule of the cycle where the first one has grown. */
  lemma SecondUse(g: Grammar, start: RuleId, row: Expr, both: Expr, inp: Input, fuel: nat, s: State)
    requires IsAlias(g, start, row, both) && PiecesCutFree(g, start)
    requires Choice(g, start, 1) && Arms(g, start, 1) == ALIAS_ARMS
    requires Sound(Setting(g, inp, OneMode()), s) && Settled(Setting(g, inp, OneMode()), s)
    requires Key(s.pos, 1 - start) in s.memo && Key(s.pos, start) !in s.lr
    ensures var r := Call(g, inp, fuel, false, 1 - start, s);
            s.pos <= |inp| && As(r, OtherEnds(start, inp, s.pos)) && r.st == s.(pos := r.st.pos)
  {
    hide PiecesCutFree, Choice, Arms, Sound, Settled, Call, LastStep;
    var c := Setting(g, inp, OneMode());
    var k := LaterUse(c, fuel, false, 1 - start, s);
    AliasStep(g, start, row, both, inp, s.pos);
    SameStep(c, k, 2, 1 - start, s.pos);
  }

  /** A parse of one rule of the cycle at i on a new context, then of the other. */
  lemma OtherAfterFirst(g: Grammar, start: RuleId, row: Expr, both: Expr, inp: Input, i: nat)
    requires IsAlias(g, start, row, both) && PiecesCutFree(g, start) && Choice(g, start, 1)
    requires Arms(g, start, 1) == ALIAS_ARMS && i <= |inp|
    requires WellFormed(g, OneMode()) && Termination.Terminating(g)
    ensures var n := Termination.Depth(g, inp);
            var first := Run(g, inp, n, start, FRESH.(pos := i));
            var second := Run(g, inp, n, 1 - start, first.st.(pos := i));
            && first.out.Normal() && Good(inp, first.st) && As(second, OtherEnds(start, inp, i))
  {
    hide PiecesCutFree, Choice, Arms, WellFormed, MemoSound, Settled, Run, Call, PegRun, FramesKept, Termination.Depth,
        Termination.Terminating;
    var c, n, s := Setting(g, inp, OneMode()), Termination.Depth(g, inp), FRESH.(pos := i);
    AliasAnswer(g, inp, start, i);
    AnywhereIdle(c, i);
    Parsing.BoundedRunIsPeg(c, start, 2, s);
    var first := Run(g, inp, n, start, s);
    assert Settled(c, first.st) by { FreshSettles(c, s, first.st, PegRun(g, inp, 2, start, i).value.evs); }
    Moved(c, first.st, first.st.(pos := i));
    RunIsCall(g, inp, n, start, s);
    RunIsCall(g, inp, n, 1 - start, first.st.(pos := i));
    assert Key(i, 1 - start) in first.st.memo by {
      assert OnlyEnters(g.rules[start].body, 1 - start) by { EntersOther(g, start, row, both); }
      CallEnters(g, inp, n, start, 1 - start, s);
    }
    SecondUse(g, start, row, both, inp, n, first.st.(pos := i));
  }

  lemma EntersOther(g: Grammar, start: RuleId, row: Expr, both: Expr)
    requires IsAlias(g, start, row, both)
    ensures OnlyEnters(g.rules[start].body, 1 - start)
  {
  }

  lemma FreshSettles(c: Setting, s: State, s1: State, evs: set<Failure>)
    requires s.memo == map[] && Moves(c, NOTHING, s, s1, evs)
    ensures Settled(c, s1)
  {
    hide SettledAt, MemoSound, HeadsKept, EntriesKept, PartnersKept, WorkPaid;
  }

  /** After a parse of one rule of the cycle at i, the other one matches there as on a new context iff it is A, or no x
      stands there, or no b behind it: B after A takes the x alone. */
  lemma OtherRuleIsRightIff(start: RuleId, inp: Input, i: nat)
    requires start <= 1 && i <= |inp|
    ensures var g := Alias(start);
            var n := Termination.Depth(g, inp);
            var first := Run(g, inp, n, start, FRESH.(pos := i));
            var second, alone := Run(g, inp, n, 1 - start, first.st.(pos := i)),
                Run(g, inp, n, 1 - start, FRESH.(pos := i));
            && first.out.Normal() && As(second, OtherEnds(start, inp, i)) && As(alone, OtherEnds(1, inp, i))
            && (SameOut(second, alone) <==>
                  start == 1 || i == |inp| || inp[i] != 2 || i + 1 == |inp| || inp[i + 1] != 1)
  {
    OtherAlone(start, inp, i);
    hide Alias, Run, OtherEnds, Termination.Depth;
    OtherSecond(start, inp, i);
    var g, n := Alias(start), Termination.Depth(Alias(start), inp);
    EndsDiffer(start, inp, i, Run(g, inp, n, 1 - start, Run(g, inp, n, start, FRESH.(pos := i)).st.(pos := i)),
        Run(g, inp, n, 1 - start, FRESH.(pos := i)));
  }

  lemma EndsDiffer(start: RuleId, inp: Input, i: nat, second: Result, alone: Result)
    requires start <= 1 && i <= |inp| && As(second, OtherEnds(start, inp, i)) && As(alone, OtherEnds(1, inp, i))
    ensures SameOut(second, alone) <==>
              start == 1 || i == |inp| || inp[i] != 2 || i + 1 == |inp| || inp[i + 1] != 1
  {
  }

  lemma OtherSecond(start: RuleId, inp: Input, i: nat)
    requires start <= 1 && i <= |inp|
    ensures var g, n := Alias(start), Termination.Depth(Alias(start), inp);
            var first := Run(g, inp, n, start, FRESH.(pos := i));
            && first.out.Normal() && Good(inp, first.st)
            && As(Run(g, inp, n, 1 - start, first.st.(pos := i)), OtherEnds(start, inp, i))
  {
    AliasIs(start);
    AliasShape(start);
    AliasRules(start);
    var row := Seq([Rule(0), Char(1)]);
    hide Alias, WellFormed, Run, IsAlias, Choice, Arms, PiecesCutFree, Termination.Terminating, Termination.Depth,
        OtherEnds;
    OtherAfterFirst(Alias(start), start, row, Alt([row, Char(2)]), inp, i);
  }

  lemma OtherAlone(start: RuleId, inp: Input, i: nat)
    requires start <= 1 && i <= |inp|
    ensures As(Run(Alias(start), inp, Termination.Depth(Alias(start), inp), 1 - start, FRESH.(pos := i)),
                OtherEnds(1, inp, i))
  {
    hide Alias, Run, Call, OtherEnds, Termination.Depth;
    var g, own, s := Alias(start), Alias(1 - start), FRESH.(pos := i);
    AliasRead(start);
    AliasDepth(start, inp);
    RunIsCall(g, inp, Termination.Depth(g, inp), 1 - start, s);
    CallIgnoresReading(g, own, inp, Termination.Depth(g, inp), false, 1 - start, s);
    AliasCall(1 - start, inp, Termination.Depth(g, inp), i);
  }

  lemma AliasRead(start: RuleId)
    requires start <= 1
    ensures Alias(1 - start) == Read(Alias(start), {1 - start}, map[start := 1 - start], {})
    ensures Alias(start).skipper.None?
  {
  }

  lemma AliasDepth(start: RuleId, inp: Input)
    requires start <= 1
    ensures Termination.Depth(Alias(start), inp) == (|inp| + 1) * 2
  {
    assert Alias(start).rules.Keys == {0, 1};
  }

  /** Either rule on a new context. */
  lemma AliasCall(start: RuleId, inp: Input, n: nat, i: nat)
    requires start <= 1 && i <= |inp| && n >= 2
    ensures As(Call(Alias(start), inp, n, false, start, FRESH.(pos := i)), OtherEnds(1, inp, i))
  {
    var own := Alias(start);
    AliasShape(start);
    AliasRules(start);
    hide Alias, WellFormed, Behind, Choice, Arms, Termination.Terminating, Call, PegCall, PiecesCutFree;
    AliasAnswer(own, inp, start, i);
    assert OutOf(PegCall(own, inp, 2, false, start, i)) == OutOf(PegRun(own, inp, 2, start, i));
    Alone(Setting(own, inp, OneMode()), n, 2, start, i);
  }

  // ---- within one parse -------------------------------------------------------------------------

  /** The alias cycle and a third rule. */
  function WithThird(body: Expr): Grammar {
    Grammar(map[
      0 := Plainly("A", Rule(1)),
      1 := Plainly("B", Alt([Seq([Rule(0), Char(1)]), Char(2)])),
      2 := Plainly("stmt", body)], None, {0}, map[1 := 0], {})
  }

  /** `stmt = A ';' / B '!'`, with ; = 3 and ! = 4. */
  const STATEMENT := Alt([Seq([Rule(0), Char(3)]), Seq([Rule(1), Char(4)])])

  /** The cycle in it, with a third rule that has no answer. */
  lemma ThirdFits()
    ensures var g := WithThird(Rule(2));
            && WellFormed(g, OneMode()) && Termination.Terminating(g) && PiecesCutFree(g, 0)
            && IsAlias(g, 0, Seq([Rule(0), Char(1)]), Alt([Seq([Rule(0), Char(1)]), Char(2)]))
            && Choice(g, 0, 1) && Arms(g, 0, 1) == ALIAS_ARMS
  {
    var g, row := WithThird(Rule(2)), Seq([Rule(0), Char(1)]);
    var both := Alt([row, Char(2)]);
    assert IsAlias(g, 0, row, both) && g.rules.Keys == {0, 1, 2} && g.rules[2].body == Rule(2)
        && g.rules[2].recovery.None?;
    hide WithThird;
    AliasUnfolds(g, 0, row, both);
    ThirdWellFormed(g, row, both);
    Elimination.NoCutInside(g, OneMode(), 0);
  }

  lemma ThirdWellFormed(g: Grammar, row: Expr, both: Expr)
    requires IsAlias(g, 0, row, both) && g.rules.Keys == {0, 1, 2} && g.rules[2].body == Rule(2)
        && g.rules[2].recovery.None?
    ensures WellFormed(g, OneMode()) && Termination.Terminating(g)
  {
    AliasBodies(g, 0, row, both);
    AliasIn(g, 0, row, both);
    assert CutFree(Rule(2)) && CutsEnclosed(Rule(2)) && Termination.Closed(g, Rule(2));
    assert Usable(g, OneMode(), false, Rule(2));
    hide IsLeftRec, Serves, Usable, UsableIn, CutsEnclosed, CutFree, Termination.Closed;
    assert NoCuts(g);
  }

  /** The cycle does not see other rules. */
  lemma CycleUnseen(g: Grammar, g': Grammar, inp: Input, fuel: nat, r: RuleId, s: State)
    requires r <= 1 && Good(inp, s) && g.skipper.None? && g'.skipper.None? && 0 in g.rules && 1 in g.rules
    requires g.rules[0].body == Rule(1) && g.rules[1].body == Alt([Seq([Rule(0), Char(1)]), Char(2)])
    requires 0 in g'.rules && 1 in g'.rules && g'.rules[0] == g.rules[0] && g'.rules[1] == g.rules[1]
    ensures Call(g', inp, fuel, false, r, s) == Call(g, inp, fuel, false, r, s)
  {
    hide Call;
    assert Reachability.Refs(g.rules[0].body) == {1};
    assert Reachability.Refs(Seq([Rule(0), Char(1)])) <= {0} by {
      assert Reachability.RefsOf([Rule(0), Char(1)][1..]) == {};
    }
    Reachability.DeadCall(g, g', {0, 1}, inp, fuel, false, r, s);
  }

  lemma ThirdUnseen(body: Expr, inp: Input, fuel: nat, r: RuleId, s: State)
    requires r <= 1 && Good(inp, s)
    ensures Call(WithThird(body), inp, fuel, false, r, s) == Call(WithThird(Rule(2)), inp, fuel, false, r, s)
  {
    hide Call;
    CycleUnseen(WithThird(Rule(2)), WithThird(body), inp, fuel, r, s);
  }

  lemma {:induction false} ThirdUnanswered(g: Grammar, inp: Input, k: nat, i: nat)
    requires 2 in g.rules && g.rules[2].body == Rule(2) && !IsLeftRec(g, 2) && i <= |inp|
    ensures PegCall(g, inp, k, false, 2, i).None?
  {
    if k > 0 { ThirdUnanswered(g, inp, k - 1, i); }
  }

  /** The rule under evaluation when its body is first run. */
  function Started(i: nat, rule: RuleId): State {
    Enter(FRESH.(pos := i), Key(i, rule)).(evals := 1)
  }

  /** Without cuts and recovery a rule that is new matches iff the first pass over its body does. */
  lemma {:induction false} BestStays(g: Grammar, inp: Input, fuel: nat, skip: bool, k: Key, last: nat, best: Outcome,
      s: State)
    requires Good(inp, s) && k.rule in g.rules && s.lr != [] && k.pos <= last <= |inp| && best.Ok?
    requires TreeIn(s.arena, best.tree)
    ensures !Grow(g, inp, fuel, skip, k, last, best, s).out.Fail?
    decreases |inp| - last
  {
    hide Parse, Restart;
    var r := Parse(g, inp, fuel, skip, g.rules[k.rule].body, Restart(inp, k, best, s));
    if r.out.Ok? && r.st.pos > last && k in r.st.memo {
      BestStays(g, inp, fuel, skip, k, r.st.pos, r.out,
          r.st.(memo := r.st.memo[k := Entry(true, r.st.pos, r.out.tree)]));
    }
  }

  lemma FirstPassDecides(g: Grammar, inp: Input, fuel: nat, rule: RuleId, i: nat)
    requires Termination.Terminating(g) && rule in g.rules && g.rules[rule].recovery.None? && i <= |inp|
    requires fuel >= Termination.Depth(g, inp) && fuel > 0
    ensures var r1 := Parse(g, inp, fuel - 1, false, g.rules[rule].body, Started(i, rule));
            var r := Call(g, inp, fuel, false, rule, FRESH.(pos := i));
            r.out.Normal() && (r.out.Ok? <==> r1.out.Ok?)
  {
    hide Parse, Grow, Finish, EntryGood, Termination.Terminating, Termination.Depth;
    var s, k := FRESH.(pos := i), Key(i, rule);
    Termination.RoomLeft(g, inp, fuel, s, k);
    Termination.NeverStuckGrow(g, inp, fuel - 1, false, k, i, Fail, Enter(s, k));
    FinishOut(g.rules[rule], inp, k, Enter(s, k), Grow(g, inp, fuel - 1, false, k, i, Fail, Enter(s, k)));
    FirstDecides(g, inp, fuel - 1, k);
  }

  lemma FinishOut(def: RuleDef, inp: Input, k: Key, s: State, r: Result)
    requires s.lr != [] && s.pos == k.pos && Framed(inp, s, r) && r.out.Normal() && def.recovery.None?
    ensures var f := Finish(def, inp, k, s, r); f.out.Normal() && f.out.Ok? == r.out.Ok?
  {
    hide Framed;
  }

  lemma FirstDecides(g: Grammar, inp: Input, fuel: nat, k: Key)
    requires k.rule in g.rules && k.pos <= |inp| && Good(inp, Enter(FRESH.(pos := k.pos), k))
    requires Grow(g, inp, fuel, false, k, k.pos, Fail, Enter(FRESH.(pos := k.pos), k)).out.Normal()
    ensures Good(inp, Started(k.pos, k.rule))
    ensures Grow(g, inp, fuel, false, k, k.pos, Fail, Enter(FRESH.(pos := k.pos), k)).out.Ok? <==>
              Parse(g, inp, fuel, false, g.rules[k.rule].body, Started(k.pos, k.rule)).out.Ok?
  {
    hide Parse, EntryGood;
    var r1 := Parse(g, inp, fuel, false, g.rules[k.rule].body, Started(k.pos, k.rule));
    assert Restart(inp, k, Fail, Enter(FRESH.(pos := k.pos), k)) == Started(k.pos, k.rule);
    if r1.out.Ok? && r1.st.pos > k.pos && k in r1.st.memo {
      SeedGood(inp, r1.st, k, Entry(true, r1.st.pos, r1.out.tree));
      BestStays(g, inp, fuel, false, k, r1.st.pos, r1.out,
          r1.st.(memo := r1.st.memo[k := Entry(true, r1.st.pos, r1.out.tree)]));
    }
  }

  predicate At(inp: Input, i: nat, c: Sym) { i < |inp| && inp[i] == c }

  /** One element, or a recorded failure. */
  lemma CharIs(g: Grammar, inp: Input, fuel: nat, c: Sym, s: State)
    requires Good(inp, s)
    ensures var r := Parse(g, inp, fuel, false, Char(c), s);
            && (if At(inp, s.pos, c) then r.out.Ok? else r.out.Fail?)
            && r.st.memo == s.memo && r.st.lr == s.lr && r.st.heads == s.heads && r.st.arena == s.arena
            && r.st.scope == s.scope && s.failures <= r.st.failures
  {
  }

  /** The facts about the cycle beside an unanswered rule that the proofs use. */
  ghost predicate IsThird(g: Grammar) {
    && WellFormed(g, OneMode()) && Termination.Terminating(g) && PiecesCutFree(g, 0)
    && IsAlias(g, 0, Seq([Rule(0), Char(1)]), Alt([Seq([Rule(0), Char(1)]), Char(2)]))
    && Choice(g, 0, 1) && Arms(g, 0, 1) == ALIAS_ARMS
    && |g.rules.Keys| == 3 && 2 in g.rules && g.rules[2].body == Rule(2) && !IsLeftRec(g, 2)
  }

  lemma ThirdIs()
    ensures IsThird(WithThird(Rule(2)))
  {
    hide WellFormed, IsAlias, Choice, Arms, PiecesCutFree, Termination.Terminating;
    ThirdFits();
    var g := WithThird(Rule(2));
    assert g.rules.Keys == {0, 1, 2} && g.rules[2].body == Rule(2) && !IsLeftRec(g, 2);
    hide WithThird, IsLeftRec;
  }

  /** stmt is under evaluation at i, and nothing else is known. */
  ghost predicate OnlyStarted(i: nat, s: State) {
    && s.pos == i && s.lr == [Key(i, 2)] && s.heads == {} && !CutSet(s)
    && s.memo == map[Key(i, 2) := Entry(false, i, None)]
  }

  lemma StartReady(c: Setting, i: nat, s: State)
    requires IsThird(c.g) && c.mode == OneMode() && !c.calm && i <= |c.inp| && OnlyStarted(i, s)
    ensures Ready(c, 2, s) && Settled(c, s) && Termination.Live(c.g, c.inp, s)
  {
    hide WellFormed, PegCall, Choice, Arms, PiecesCutFree, Termination.Terminating, NoCuts;
    assert !IsPartner(c.g, 2) && !IsLeftRec(c.g, 2);
    ThirdUnanswered(c.g, c.inp, 2, i);
    hide IsThird, IsPartner;
  }

  /** A at i, while stmt is under evaluation. */
  lemma FirstUse(c: Setting, fuel: nat, i: nat, s: State)
    requires IsThird(c.g) && c.mode == OneMode() && !c.calm && i <= |c.inp| && OnlyStarted(i, s)
    requires fuel + 1 >= Termination.Depth(c.g, c.inp)
    ensures Good(c.inp, s)
    ensures var r := Call(c.g, c.inp, fuel, false, 0, s);
            && As(r, OtherEnds(1, c.inp, i)) && !CutSet(r.st) && r.st.lr == s.lr
            && Key(i, 1) in r.st.memo && Sound(c, r.st) && Settled(c, r.st)
  {
    hide WellFormed, Call, PegCall, MemoSound, HeadsKept, EntriesKept, PartnersKept, WorkPaid, Settled, Above,
        Choice, Arms, PiecesCutFree, Termination.Terminating, Termination.Live, Behind;
    StartReady(c, i, s);
    assert fuel >= 2;
    AliasAnswer(c.g, c.inp, 0, i);
    assert OnlyEnters(c.g.rules[0].body, 1);
    hide Termination.Depth, OnlyEnters, IsLeftRec, IsThird, IsAlias;
    Packrat.SoundCall(c, fuel, 2, false, 0, s);
    CallEnters(c.g, c.inp, fuel, 0, 1, s);
    Termination.NeverStuckCall(c.g, c.inp, fuel, false, 0, s);
  }

  /** A rule that ends with `o`, and one element. */
  lemma RowResult(g: Grammar, inp: Input, fuel: nat, m: RuleId, c: Sym, s: State, o: Out)
    requires Good(inp, s) && !o.Throw? && As(Call(g, inp, fuel, false, m, Alloc(s, s.pos, 0)), o)
    ensures var r1 := Call(g, inp, fuel, false, m, Alloc(s, s.pos, 0));
            var r := Parse(g, inp, fuel, false, Seq([Rule(m), Char(c)]), s);
            && (if o.Yes? && At(inp, o.end, c) then r.out.Ok? else r.out.Fail?)
            && (r.out.Fail? ==> r.st.pos == s.pos)
            && r.st.memo == r1.st.memo && r.st.lr == r1.st.lr && r.st.heads == r1.st.heads && r.st.scope == r1.st.scope
            && r1.st.failures <= r.st.failures && |r1.st.arena| <= |r.st.arena|
  {
    hide Call, SeqFrom, EntryGood;
    OpenGood(inp, s);
    SeqOfTwo(g, inp, fuel, Rule(m), Char(c), s);
    var r1 := Call(g, inp, fuel, false, m, Alloc(s, s.pos, 0));
    if r1.out.Ok? {
      PushGood(inp, r1.st, |s.arena|, r1.out.tree);
      CharIs(g, inp, fuel, c, PushChild(r1.st, |s.arena|, r1.out.tree));
    }
  }

  ghost predicate Alike(g: Grammar, g': Grammar, inp: Input, fuel: nat, r: RuleId, s: State) {
    Good(inp, s) ==> Call(g, inp, fuel, false, r, s) == Call(g', inp, fuel, false, r, s)
  }

  /** The first branch of stmt: all of the cycle, and `;`. */
  lemma FirstBranch(c: Setting, g: Grammar, fuel: nat, i: nat, s: State)
    requires IsThird(c.g) && c.mode == OneMode() && !c.calm && i <= |c.inp|
    requires OnlyStarted(i, s) && fuel + 1 >= Termination.Depth(c.g, c.inp) && Good(c.inp, s)
    requires Alike(g, c.g, c.inp, fuel, 0, Alloc(s, i, 0))
    ensures var r := Parse(g, c.inp, fuel, false, Seq([Rule(0), Char(3)]), s);
            var out := OtherEnds(1, c.inp, i);
            && (if out.Yes? && At(c.inp, out.end, 3) then r.out.Ok? else r.out.Fail?)
            && (r.out.Fail? ==>
                  && r.st.pos == i && !CutSet(r.st) && r.st.lr == [Key(i, 2)] && Key(i, 1) in r.st.memo
                  && Sound(c, r.st) && Settled(c, r.st))
  {
    hide IsThird, Call, Parse, MemoSound, Settled, OtherEnds, Termination.Depth, EntryGood;
    FirstUse(c, fuel, i, Alloc(s, i, 0));
    RowResult(g, c.inp, fuel, 0, 3, s, OtherEnds(1, c.inp, i));
    var r := Parse(g, c.inp, fuel, false, Seq([Rule(0), Char(3)]), s);
    if r.out.Fail? { Moved(c, Call(g, c.inp, fuel, false, 0, Alloc(s, i, 0)).st, r.st); }
  }

  /** The second branch, once A has grown: what is left of B, and `!`. */
  lemma SecondBranch(c: Setting, g: Grammar, fuel: nat, i: nat, s: State)
    requires IsThird(c.g) && c.mode == OneMode() && !c.calm
    requires Sound(c, s) && Settled(c, s) && s.pos == i && Key(i, 1) in s.memo && s.lr == [Key(i, 2)] && !CutSet(s)
    requires Alike(g, c.g, c.inp, fuel, 1, Alloc(s, i, 0))
    ensures var r := Parse(g, c.inp, fuel, false, Seq([Rule(1), Char(4)]), s);
            var out := OtherEnds(0, c.inp, i);
            && (if out.Yes? && At(c.inp, out.end, 4) then r.out.Ok? else r.out.Fail?) && !CutSet(r.st)
  {
    hide Call, Parse, MemoSound, Settled, OtherEnds, IsAlias, Choice, Arms, WellFormed, PiecesCutFree,
        Termination.Terminating, EntryGood;
    OpenGood(c.inp, s);
    Moved(c, s, Alloc(s, i, 0));
    SecondUse(c.g, 0, Seq([Rule(0), Char(1)]), Alt([Seq([Rule(0), Char(1)]), Char(2)]), c.inp, fuel, Alloc(s, i, 0));
    RowResult(g, c.inp, fuel, 1, 4, s, OtherEnds(0, c.inp, i));
  }

  /** The first pass over the body of stmt. */
  lemma StatementBody(c: Setting, g: Grammar, fuel: nat, i: nat)
    requires c == Setting(WithThird(Rule(2)), c.inp, OneMode()) && g == WithThird(STATEMENT)
    requires i <= |c.inp| && fuel + 1 >= Termination.Depth(c.g, c.inp) && IsThird(c.g) && Good(c.inp, Started(i, 2))
    ensures var r := Parse(g, c.inp, fuel, false, STATEMENT, Started(i, 2));
            var a, b := OtherEnds(1, c.inp, i), OtherEnds(0, c.inp, i);
            r.out.Ok? <==> (a.Yes? && At(c.inp, a.end, 3)) || (b.Yes? && At(c.inp, b.end, 4))
  {
    hide IsThird, WithThird, Call, SeqFrom, MemoSound, Settled, OtherEnds, Termination.Depth, EntryGood, At;
    var e, s := STATEMENT, OpenScope(Started(i, 2));
    OpenGood(c.inp, Started(i, 2));
    OpenGood(c.inp, s);
    assert e.es[0] == Seq([Rule(0), Char(3)]) && e.es[1] == Seq([Rule(1), Char(4)]);
    ThirdUnseen(STATEMENT, c.inp, fuel, 0, Alloc(s, i, 0));
    FirstBranch(c, g, fuel, i, s);
    var r := Parse(g, c.inp, fuel, false, e.es[0], s);
    if r.out.Fail? {
      OpenGood(c.inp, r.st);
      ThirdUnseen(STATEMENT, c.inp, fuel, 1, Alloc(r.st, i, 0));
      SecondBranch(c, g, fuel, i, r.st);
      var r1 := Parse(g, c.inp, fuel, false, e.es[1], r.st);
      assert AltFrom(g, c.inp, fuel, false, e, 1, r.st).out.Ok? <==> r1.out.Ok? by {
        if r1.out.Fail? { assert AltFrom(g, c.inp, fuel, false, e, 2, r1.st) == Result(Fail, r1.st); }
      }
    }
  }

  /** `A ';' / B '!'` matches where an x stands and `;` behind all the b's, or where `!` stands right behind the x.  So
      "xbb!" is rejected, although B on its own matches all but the last element: the first branch grows A, and leaves B
      with the x alone. */
  lemma StatementMatchesIff(inp: Input, i: nat)
    requires i <= |inp|
    ensures var g := WithThird(STATEMENT);
            var n := Termination.Depth(g, inp);
            var run := Run(g, inp, n, 2, FRESH.(pos := i));
            && run.out.Normal()
            && (run.out.Ok? <==> At(inp, i, 2) && (At(inp, Behind(inp, i + 1), 3) || At(inp, i + 1, 4)))
            && As(Run(g, inp, n, 1, FRESH.(pos := i)), if At(inp, i, 2) then Yes(Behind(inp, i + 1)) else No)
  {
    hide Run, Call, Behind, Parse, Termination.Depth, WithThird;
    StatementRun(inp, i);
    BAlone(inp, i);
  }

  lemma StatementRun(inp: Input, i: nat)
    requires i <= |inp|
    ensures var g := WithThird(STATEMENT);
            var run := Run(g, inp, Termination.Depth(g, inp), 2, FRESH.(pos := i));
            && run.out.Normal()
            && (run.out.Ok? <==> At(inp, i, 2) && (At(inp, Behind(inp, i + 1), 3) || At(inp, i + 1, 4)))
  {
    var g, h := WithThird(STATEMENT), WithThird(Rule(2));
    StatementIs();
    hide WithThird, Run, IsStatement, Behind, Termination.Depth;
    ThirdDepth(STATEMENT, inp);
    ThirdDepth(Rule(2), inp);
    RunDecided(g, h, inp, i);
  }

  lemma ThirdDepth(body: Expr, inp: Input)
    ensures Termination.Depth(WithThird(body), inp) == (|inp| + 1) * 3
  {
    assert WithThird(body).rules.Keys == {0, 1, 2};
  }

  lemma RunDecided(g: Grammar, h: Grammar, inp: Input, i: nat)
    requires i <= |inp| && g == WithThird(STATEMENT) && h == WithThird(Rule(2)) && IsStatement(g)
    requires Termination.Depth(g, inp) == Termination.Depth(h, inp) > 0
    ensures var run := Run(g, inp, Termination.Depth(g, inp), 2, FRESH.(pos := i));
            && run.out.Normal()
            && (run.out.Ok? <==> At(inp, i, 2) && (At(inp, Behind(inp, i + 1), 3) || At(inp, i + 1, 4)))
  {
    hide WithThird, Run, Call, Parse, IsThird, Termination.Depth, Termination.Terminating;
    var n := Termination.Depth(g, inp);
    ThirdIs();
    FirstPassDecides(g, inp, n, 2, i);
    RunIsCall(g, inp, n, 2, FRESH.(pos := i));
    StatementBody(Setting(h, inp, OneMode()), g, n - 1, i);
  }

  /** The facts about the grammar that the proofs use. */
  ghost predicate IsStatement(g: Grammar) {
    && 2 in g.rules && g.rules[2].body == STATEMENT && g.rules[2].recovery.None? && g.skipper.None?
    && Termination.Terminating(g)
  }

  lemma StatementIs()
    ensures IsStatement(WithThird(STATEMENT))
  {
    var g, both := WithThird(STATEMENT), Alt([Seq([Rule(0), Char(1)]), Char(2)]);
    assert g.rules.Keys == {0, 1, 2} && g.skipper.None? && g.rules[2].recovery.None?;
    assert g.rules[0].body == Rule(1) && g.rules[1].body == both && g.rules[2].body == STATEMENT;
    hide WithThird;
    StatementTerminates(g, both);
  }

  lemma StatementTerminates(g: Grammar, both: Expr)
    requires g.rules.Keys == {0, 1, 2} && g.skipper.None? && both == Alt([Seq([Rule(0), Char(1)]), Char(2)])
    requires g.rules[0].body == Rule(1) && g.rules[1].body == both && g.rules[2].body == STATEMENT
    ensures Termination.Terminating(g)
  {
    hide Row, CutFree, Termination.Closed;
    RuleFacts(g, 1);
    assert Row(Seq([Rule(0), Char(1)])) && Row(Char(2)) && Row(Seq([Rule(0), Char(3)])) && Row(Seq([Rule(1), Char(4)]))
    by {
      OneRow(0, 1);
      OneRow(0, 3);
      OneRow(1, 4);
    }
    ChoiceFacts(g, Seq([Rule(0), Char(1)]), Char(2));
    ChoiceFacts(g, Seq([Rule(0), Char(3)]), Seq([Rule(1), Char(4)]));
    assert NoCuts(g);
  }

  lemma OneRow(r: RuleId, c: Sym)
    ensures Row(Seq([Rule(r), Char(c)])) && Row(Char(2))
  {
  }

  lemma RuleFacts(g: Grammar, r: RuleId)
    requires r in g.rules
    ensures CutFree(Rule(r)) && Termination.Closed(g, Rule(r))
  {
  }

  lemma ChoiceFacts(g: Grammar, a: Expr, b: Expr)
    requires g.rules.Keys == {0, 1, 2} && Row(a) && Row(b) && Within({0, 1}, a) && Within({0, 1}, b)
    ensures CutFree(Alt([a, b])) && Termination.Closed(g, Alt([a, b]))
  {
    ShallowFacts(g, {0, 1}, Alt([a, b]));
  }

  lemma ThirdCycle(body: Expr, inp: Input, n: nat, i: nat)
    requires i <= |inp|
    ensures WithThird(body).skipper.None?
    ensures Call(WithThird(body), inp, n, false, 1, FRESH.(pos := i)) ==
              Call(Alias(1), inp, n, false, 1, FRESH.(pos := i))
  {
    hide Call;
    CycleUnseen(Alias(1), WithThird(body), inp, n, 1, FRESH.(pos := i));
  }

  lemma BAlone(inp: Input, i: nat)
    requires i <= |inp|
    ensures var g := WithThird(STATEMENT);
            As(Run(g, inp, Termination.Depth(g, inp), 1, FRESH.(pos := i)),
                if At(inp, i, 2) then Yes(Behind(inp, i + 1)) else No)
  {
    hide WithThird, Alias, Run, Behind, Termination.Depth, Call;
    var g := WithThird(STATEMENT);
    var n := Termination.Depth(g, inp);
    ThirdDepth(STATEMENT, inp);
    ThirdCycle(STATEMENT, inp, n, i);
    RunIsCall(g, inp, n, 1, FRESH.(pos := i));
    AliasCall(1, inp, n, i);
  }
}
