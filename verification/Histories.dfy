/** Packrat transparency after parses without an answer: without cuts, a parse that starts at no partner and ends
    normally leaves a sound memo even if the memo-free semantics does not answer it, because whatever is answered never
    depends on what is not. */
module Histories {
  import opened Grammars
  import opened Machine
  import opened Peg
  import opened Forms
  import opened Soundness
  import Fuel
  import Packrat
  import Transparency

  // ---- a sound state in which nothing under evaluation has an answer ----------------------------

  ghost predicate Hopeless(c: Setting, key: Key) {
    key.pos <= |c.inp| && forall k: nat :: Means(c, k, key).None?
  }

  ghost predicate Tended(c: Setting, s: State) {
    && WellFormed(c.g, c.mode) && NoCuts(c.g) && Sound(c, s) && !CutSet(s)
    && forall key | key in s.lr :: Hopeless(c, key) && key in s.memo
  }

  ghost predicate Tends(c: Setting, s: State, r: Result) {
    r.out.Normal() ==> Tended(c, r.st) && r.st.lr == s.lr
  }

  /** A change of everything but the memo and the rules in progress. */
  lemma TendedOn(c: Setting, s: State, s': State)
    requires Tended(c, s) && Good(c.inp, s') && !CutSet(s')
    requires s'.memo == s.memo && s'.lr == s.lr && s.failures <= s'.failures
    ensures Tended(c, s')
  {
    hide WellFormed, NoCuts, Means;
  }

  /** A step from a state that is as good as s. */
  lemma TendsOn(c: Setting, s: State, s1: State, r: Result, r': Result)
    requires s1.lr == s.lr && Tends(c, s1, r) && (r'.out.Normal() ==>
        r.out.Normal() && Good(c.inp, r'.st) && !CutSet(r'.st))
    requires r'.out.Normal() ==> r'.st.memo == r.st.memo && r'.st.lr == r.st.lr && r.st.failures <= r'.st.failures
    ensures Tends(c, s, r')
  {
    hide Tended, Good;
    if r'.out.Normal() { TendedOn(c, r.st, r'.st); }
  }

  ghost predicate Fits(c: Setting, skip: bool, e: Expr) {
    Usable(c.g, c.mode, skip, e)
  }

  // ---- expressions ------------------------------------------------------------------------------

  lemma {:induction false} HopeExpr(c: Setting, fuel: nat, skip: bool, e: Expr, s: State)
    requires Tended(c, s) && Fits(c, skip, e) && CutFree(e)
    ensures Tends(c, s, Parse(c.g, c.inp, fuel, skip, e, s))
    decreases fuel, 1, e
  {
    hide Tended, Bounded, SeqFrom, AltFrom, RepFrom, Call, IsPartner;
    TendedGood(c, s);
    match e
    case Seq(_) =>
      Start(c, s);
      HopeSeq(c, fuel, skip, e, 0, |s.arena|, Alloc(s, s.pos, 0));
      var r := SeqFrom(c.g, c.inp, fuel, skip, e, 0, |s.arena|, Alloc(s, s.pos, 0));
      SeqRewound(c, s, r);
    case Alt(_) =>
      Start(c, s);
      HopeAlt(c, fuel, skip, e, 0, OpenScope(s));
      Closing(c, s, OpenScope(s), AltFrom(c.g, c.inp, fuel, skip, e, 0, OpenScope(s)));
    case Rep(_, _, _) =>
      Start(c, s);
      var s1 := Alloc(OpenScope(s), s.pos, 0);
      HopeRep(c, fuel, skip, e, 0, s.pos, |s.arena|, s1);
      Closing(c, s, s1, RepFrom(c.g, c.inp, fuel, skip, e, 0, s.pos, |s.arena|, s1));
    case Not(child) => HopeLook(c, fuel, skip, e, s);
    case And(child) => HopeLook(c, fuel, skip, e, s);
    case Lexeme(child) => HopeExpr(c, fuel, false, child, s);
    case Rule(rule) => HopeCall(c, fuel, skip, rule, s);
    case _ => HopeLeaf(c, fuel, skip, e, s);
  }

  lemma SeqRewound(c: Setting, s: State, r: Result)
    requires Tended(c, s) && Tends(c, Alloc(s, s.pos, 0), r)
    ensures Tends(c, s, if r.out.Fail? then Result(Fail, r.st.(pos := s.pos)) else r)
  {
    hide Tended;
    TendedGood(c, s);
    if r.out.Normal() {
      TendedGood(c, r.st);
      TendedOn(c, r.st, r.st.(pos := s.pos));
    }
  }

  lemma HopeLeaf(c: Setting, fuel: nat, skip: bool, e: Expr, s: State)
    requires Tended(c, s) && (e.Empty? || e.Terminal? || e.Token? || e.TerminalSeq? || e.Matcher?)
    ensures Tends(c, s, Parse(c.g, c.inp, fuel, skip, e, s))
  {
    hide Tended;
    TendedGood(c, s);
    TendedOn(c, s, Parse(c.g, c.inp, fuel, skip, e, s).st);
  }

  lemma Start(c: Setting, s: State)
    requires Tended(c, s)
    ensures Tended(c, Alloc(s, s.pos, 0)) && Tended(c, OpenScope(s)) && Tended(c, Alloc(OpenScope(s), s.pos, 0))
    ensures Good(c.inp, s) && Good(c.inp, Alloc(s, s.pos, 0)) && Good(c.inp, OpenScope(s))
        && Good(c.inp, Alloc(OpenScope(s), s.pos, 0))
  {
    hide Sound, NoCuts, WellFormed, Hopeless;
    assert Good(c.inp, s) by { TendedGood(c, s); }
    OpenGood(c.inp, s);
    TendedOn(c, s, Alloc(s, s.pos, 0));
    TendedOn(c, s, OpenScope(s));
    TendedOn(c, s, Alloc(OpenScope(s), s.pos, 0));
  }

  lemma TendedGood(c: Setting, s: State)
    requires Tended(c, s)
    ensures Good(c.inp, s) && !CutSet(s)
  {
  }

  lemma Closing(c: Setting, s: State, s1: State, r: Result)
    requires Tended(c, s) && Tends(c, s1, r) && s1.lr == s.lr
    ensures Tends(c, s, Result(r.out, CloseScope(r.st, s.scope)))
  {
    hide Tended;
    TendedGood(c, s);
    if r.out.Normal() {
      TendedGood(c, r.st);
      TendsOn(c, s, s1, r, Result(r.out, CloseScope(r.st, s.scope)));
    }
  }

  lemma {:induction false} HopeLook(c: Setting, fuel: nat, skip: bool, p: Expr, s: State)
    requires Tended(c, s) && (p.Not? || p.And?) && Fits(c, skip, p.child) && CutFree(p.child) && Good(c.inp, s)
    ensures var r := Parse(c.g, c.inp, fuel, skip, p.child, s);
            Tends(c, s, Predicate(r, true, s.pos)) && Tends(c, s, Predicate(r, false, s.pos))
    decreases fuel, 1, p, 0
  {
    hide Tended, Parse;
    HopeExpr(c, fuel, skip, p.child, s);
    var r := Parse(c.g, c.inp, fuel, skip, p.child, s);
    if r.out.Normal() {
      TendedGood(c, r.st);
      TendedOn(c, r.st, r.st.(pos := s.pos));
    }
  }

  lemma {:induction false} HopeSkip(c: Setting, fuel: nat, skip: bool, s: State)
    requires Tended(c, s)
    ensures Tends(c, s, Skip(c.g, c.inp, fuel, skip, s))
    decreases fuel, 0, 2
  {
    hide Bounded, Call, Sound, NoCuts, Hopeless, IsPartner;
    if skip && c.g.skipper.Some? { HopeCall(c, fuel, false, c.g.skipper.value, s); }
  }

  lemma EndGood(inp: Input, s: State, n: nat)
    requires Good(inp, s) && n < |s.arena|
    ensures Good(inp, SetEnd(s, n))
  {
  }

  lemma MovedGood(inp: Input, s: State, p: nat)
    requires Good(inp, s) && p <= |inp|
    ensures Good(inp, s.(pos := p))
  {
  }

  lemma {:induction false} HopeSeq(c: Setting, fuel: nat, skip: bool, e: Expr, i: nat, n: nat, s: State)
    requires Tended(c, s) && e.Seq? && i <= |e.es| && n < |s.arena|
    requires forall l | i <= l < |e.es| :: Fits(c, skip, e.es[l]) && CutFree(e.es[l])
    ensures Tends(c, s, SeqFrom(c.g, c.inp, fuel, skip, e, i, n, s))
    decreases fuel, 1, e, |e.es| - i
  {
    hide Tended, Bounded, Skip, Parse, Fits, CutFree;
    TendedGood(c, s);
    if i == |e.es| {
      EndGood(c.inp, s, n);
      TendedOn(c, s, SetEnd(s, n));
    } else {
      if i > 0 { HopeSkip(c, fuel, skip, s); }
      var k := if i > 0 then Skip(c.g, c.inp, fuel, skip, s) else Result(Ok(None), s);
      if k.out.Ok? {
        HopeExpr(c, fuel, skip, e.es[i], k.st);
        var r := Parse(c.g, c.inp, fuel, skip, e.es[i], k.st);
        if r.out.Ok? {
          TendedGood(c, r.st);
          PushGood(c.inp, r.st, n, r.out.tree);
          var s1 := PushChild(r.st, n, r.out.tree);
          TendedOn(c, r.st, s1);
          HopeSeq(c, fuel, skip, e, i + 1, n, s1);
        }
      }
    }
  }

  lemma {:induction false} HopeAlt(c: Setting, fuel: nat, skip: bool, e: Expr, i: nat, s: State)
    requires Tended(c, s) && e.Alt? && i <= |e.es| && Fits(c, skip, e) && CutFree(e)
    ensures Tends(c, s, AltFrom(c.g, c.inp, fuel, skip, e, i, s))
    decreases fuel, 1, e, |e.es| - i
  {
    hide Tended, Bounded, Parse;
    TendedGood(c, s);
    if i < |e.es| {
      HopeExpr(c, fuel, skip, e.es[i], s);
      var r := Parse(c.g, c.inp, fuel, skip, e.es[i], s);
      if r.out.Ok? {
        Stamped(c, s, r, i);
      } else if r.out.Fail? {
        TendedGood(c, r.st);
        HopeAlt(c, fuel, skip, e, i + 1, r.st);
      }
    }
  }

  lemma Stamped(c: Setting, s: State, r: Result, i: nat)
    requires Tends(c, s, r) && r.out.Ok?
    ensures Tends(c, s, Result(r.out, Stamp(r.st, r.out.tree, i)))
  {
    hide Tended;
    TendedGood(c, r.st);
    TendedOn(c, r.st, Stamp(r.st, r.out.tree, i));
  }

  lemma {:induction false} HopeRep(c: Setting, fuel: nat, skip: bool, e: Expr, count: nat, start: nat, n: nat, s: State)
    requires Tended(c, s) && e.Rep? && start <= s.pos && n < |s.arena| && Fits(c, skip, e.child) && CutFree(e.child)
    ensures Tends(c, s, RepFrom(c.g, c.inp, fuel, skip, e, count, start, n, s))
    decreases fuel, 1, e, |c.inp| - s.pos, 1
  {
    hide Tended, Bounded, Skip, RepTry, Fits, CutFree;
    TendedGood(c, s);
    if count > 0 { HopeSkip(c, fuel, skip, s); }
    var k := if count > 0 then Skip(c.g, c.inp, fuel, skip, s) else Result(Ok(None), s);
    if k.out.Ok? {
      TendedGood(c, k.st);
      OpenGood(c.inp, k.st);
      TendedOn(c, k.st, SetCut(k.st, false));
      HopeRepTry(c, fuel, skip, e, count, start, n, s.pos, SetCut(k.st, false));
    }
  }

  lemma {:induction false} HopeRepTry(c: Setting, fuel: nat, skip: bool, e: Expr, count: nat, start: nat, n: nat,
      last: nat, s: State)
    requires Tended(c, s) && e.Rep? && start <= last <= s.pos && n < |s.arena| && Fits(c, skip, e.child)
        && CutFree(e.child)
    ensures Tends(c, s, RepTry(c.g, c.inp, fuel, skip, e, count, start, n, last, s))
    decreases fuel, 1, e, |c.inp| - s.pos, 0
  {
    hide Tended, Bounded, Parse, RepFrom, RepDone, Fits, CutFree;
    TendedGood(c, s);
    HopeExpr(c, fuel, skip, e.child, s);
    var r := Parse(c.g, c.inp, fuel, skip, e.child, s);
    if r.out.Ok? {
      TendedGood(c, r.st);
      PushGood(c.inp, r.st, n, r.out.tree);
      var s1 := PushChild(r.st, n, r.out.tree);
      TendedOn(c, r.st, s1);
      if (e.max > 0 && count + 1 >= e.max) || s1.pos == s.pos {
        HopeDone(c, e, count + 1, false, start, n, s1.pos, s1);
      } else {
        HopeRep(c, fuel, skip, e, count + 1, start, n, s1);
      }
    } else if r.out.Fail? {
      HopeDone(c, e, count, true, start, n, last, r.st);
    }
  }

  lemma HopeDone(c: Setting, e: Expr, count: nat, failed: bool, start: nat, n: nat, last: nat, s: State)
    requires Tended(c, s) && e.Rep? && n < |s.arena| && start <= last <= |c.inp| && (!failed ==> s.pos == last)
    ensures Tends(c, s, RepDone(c.inp, e, count, failed, start, n, last, s))
  {
    hide Tended, Bounded;
    TendedGood(c, s);
    var r := RepDone(c.inp, e, count, failed, start, n, last, s);
    if r.out.Normal() { TendedOn(c, s, r.st); }
  }

  // ---- rules ------------------------------------------------------------------------------------

  /** A rule with an answer gets it; one without becomes one more hopeless rule under evaluation. */
  lemma {:induction false} HopeCall(c: Setting, fuel: nat, skip: bool, rule: RuleId, s: State)
    requires Tended(c, s) && c.mode(rule) == skip && !IsPartner(c.g, rule)
    ensures Tends(c, s, Call(c.g, c.inp, fuel, skip, rule, s))
    decreases fuel, 0, 1
  {
    hide Bounded, Call, Sound, NoCuts, WellFormed, IsPartner;
    var key := Key(s.pos, rule);
    TendedGood(c, s);
    if exists h: nat :: Means(c, h, key).Some? {
      var h: nat :| Means(c, h, key).Some?;
      AnsweredCall(c, fuel, h, skip, rule, s);
    } else {
      UnansweredCall(c, fuel, skip, rule, s);
    }
  }

  lemma AnsweredCall(c: Setting, fuel: nat, h: nat, skip: bool, rule: RuleId, s: State)
    requires Tended(c, s) && c.mode(rule) == skip && !IsPartner(c.g, rule) && Means(c, h, Key(s.pos, rule)).Some?
    ensures Tends(c, s, Call(c.g, c.inp, fuel, skip, rule, s))
  {
    hide Bounded, Call, MemoSound, WellFormed, IsPartner, PegCall, NoCuts;
    var r := Call(c.g, c.inp, fuel, skip, rule, s);
    if r.out.Normal() {
      var f := if fuel < h then h else fuel;
      Fuel.MoreCall(c.g, c.inp, fuel, f, skip, rule, s);
      assert Above(c, h, s.lr);
      Packrat.SoundCall(c, f, h, skip, rule, s);
    }
  }

  lemma {:induction false} UnansweredCall(c: Setting, fuel: nat, skip: bool, rule: RuleId, s: State)
    requires Tended(c, s) && c.mode(rule) == skip && Hopeless(c, Key(s.pos, rule))
    requires IsPartner(c.g, rule) ==> Key(s.pos, Owner(c.g, rule)) in s.lr
    ensures Tends(c, s, Call(c.g, c.inp, fuel, skip, rule, s))
    decreases fuel, 0, 0
  {
    hide Bounded, Tended, Grow, Finish, IsPartner, Hopeless;
    var key := Key(s.pos, rule);
    TendedGood(c, s);
    if key in s.memo {
      HitGood(c, s, key);
      TendedOn(c, s, MarkHead(s, key).(pos := s.memo[key].end));
    } else if fuel > 0 && rule in c.g.rules {
      Entered(c, s, key);
      TendedGood(c, Enter(s, key));
      assert Enter(s, key).lr[|s.lr|] == key;
      HopeGrow(c, fuel - 1, skip, key, key.pos, Fail, Enter(s, key));
      Finished(c, key, s, Grow(c.g, c.inp, fuel - 1, skip, key, key.pos, Fail, Enter(s, key)));
    }
  }

  lemma HitGood(c: Setting, s: State, key: Key)
    requires Good(c.inp, s) && key in s.memo && !CutSet(s)
    ensures var s1 := MarkHead(s, key).(pos := s.memo[key].end);
            Good(c.inp, s1) && s1.memo == s.memo && s1.lr == s.lr && s1.failures == s.failures && !CutSet(s1)
  {
    assert EntryGood(c.inp, s.arena, key, s.memo[key]);
  }

  lemma Entered(c: Setting, s: State, key: Key)
    requires Tended(c, s) && key !in s.memo && key.pos == s.pos && key.rule in c.g.rules && Hopeless(c, key)
    requires IsPartner(c.g, key.rule) ==> Key(s.pos, Owner(c.g, key.rule)) in s.lr
    ensures Tended(c, Enter(s, key))
  {
    hide WellFormed, NoCuts, IsPartner, Means;
    var s1 := Enter(s, key);
    assert forall k | k in s.lr :: k in s1.lr;
    assert key in s1.lr;
    assert Good(c.inp, s1);
  }

  lemma Finished(c: Setting, key: Key, s: State, r: Result)
    requires Tended(c, s) && key !in s.memo && key.pos == s.pos && key.rule in c.g.rules && Hopeless(c, key)
    requires Framed(c.inp, Enter(s, key), r) && Tends(c, Enter(s, key), r)
    ensures Tends(c, s, Finish(c.g.rules[key.rule], c.inp, key, Enter(s, key), r))
  {
    hide Bounded, NoCuts, IsPartner, Means, Complete, Reject, Sound, Hopeless, CutsEnclosed, UsableIn, Usable,
        IsLeftRec;
    if r.out.Normal() {
      var def := c.g.rules[key.rule];
      LeaveGood(c.inp, Enter(s, key), r);
      assert (s.lr + [key])[..|s.lr|] == s.lr;
      var s1 := Leave(r.st);
      var r' := Finish(def, c.inp, key, Enter(s, key), r);
      Caches(def, c.inp, key, s1, r);
      Left(c, key, s, r.st, r'.st);
    }
  }

  /** Without recovery, a rule that is left only rewrites its own entry. */
  lemma Caches(def: RuleDef, inp: Input, key: Key, s: State, r: Result)
    requires Good(inp, s) && key.pos <= |inp| && def.recovery.None? && !CutSet(s) && r.out.Normal() && s.pos == r.st.pos
    requires r.out.Ok? ==> key.pos <= s.pos && TreeIn(s.arena, r.out.tree)
    ensures var s' := (if r.out.Ok? then Complete(def, inp, key, r.out.tree, s) else Reject(def, inp, key, s)).st;
            && Good(inp, s') && s'.lr == s.lr && !CutSet(s') && s.failures <= s'.failures
            && s'.memo.Keys == s.memo.Keys && forall k | k in s.memo && k != key :: s'.memo[k] == s.memo[k]
  {
    hide Bounded;
  }

  lemma Left(c: Setting, key: Key, s: State, s1: State, s2: State)
    requires Tended(c, s) && key !in s.memo && Hopeless(c, key) && Tended(c, s1) && s1.lr == s.lr + [key]
    requires Good(c.inp, s2) && s2.lr == s.lr && !CutSet(s2) && s1.failures <= s2.failures
    requires s2.memo.Keys == s1.memo.Keys && forall k | k in s1.memo && k != key :: s2.memo[k] == s1.memo[k]
    ensures Tended(c, s2)
  {
    hide WellFormed, NoCuts, IsPartner, Means;
    forall k | k in s2.memo && k !in s2.lr ensures EntrySound(c, k, s2.memo[k], s2.failures) {
      if k != key { assert k !in s1.lr && EntrySound(c, k, s1.memo[k], s1.failures); }
    }
    forall k | k in s.lr ensures k in s1.lr && k in s2.memo { assert (s.lr + [key])[..|s.lr|] == s.lr; }
  }

  // ---- the growth of a hopeless rule ------------------------------------------------------------

  lemma {:induction false} HopeGrow(c: Setting, fuel: nat, skip: bool, key: Key, last: nat, best: Outcome, s: State)
    requires Tended(c, s) && key in s.lr && s.lr != [] && key.rule in c.g.rules && c.mode(key.rule) == skip
    requires key.pos <= last <= |c.inp| && best.Normal() && Good(c.inp, s)
    requires (best.Ok? ==> TreeIn(s.arena, best.tree)) && (best.Fail? ==> last == key.pos)
    ensures Tends(c, s, Grow(c.g, c.inp, fuel, skip, key, last, best, s))
    decreases fuel, 4, 1 + |c.inp| - last
  {
    hide Tended, Bounded, Parse, Restart;
    var s1 := Restart(c.inp, key, best, s);
    Restarted(c, key, best, s);
    HopeBody(c, fuel, skip, key.rule, s1);
    var r := Parse(c.g, c.inp, fuel, skip, c.g.rules[key.rule].body, s1);
    if r.out.Normal() {
      TendedGood(c, r.st);
      if r.out.Ok? && r.st.pos > last {
        if key in r.st.memo {
          var e := Entry(true, r.st.pos, r.out.tree);
          SeedGood(c.inp, r.st, key, e);
          Written(c, key, e, r.st, r.st.(memo := r.st.memo[key := e]));
          HopeGrow(c, fuel, skip, key, r.st.pos, r.out, r.st.(memo := r.st.memo[key := e]));
        }
      } else if r.out.Ok? {
        var b := if best.Ok? then best else r.out;
        Written(c, key, Entry(true, last, b.tree), r.st, Settle(c.inp, key, last, b, r.st).st);
      } else {
        MovedGood(c.inp, r.st, last);
        TendedOn(c, r.st, r.st.(pos := last));
      }
    }
  }

  lemma Restarted(c: Setting, key: Key, best: Outcome, s: State)
    requires Tended(c, s) && Good(c.inp, s) && key in s.lr && s.lr != [] && key.pos <= |c.inp|
    ensures var s1 := Restart(c.inp, key, best, s);
            Tended(c, s1) && s1.lr == s.lr && s1.pos == key.pos
  {
    hide WellFormed, NoCuts, IsPartner, Means;
  }

  /** Rewriting the entry of a rule under evaluation. */
  lemma Written(c: Setting, key: Key, e: Entry, s: State, s': State)
    requires Tended(c, s) && key in s.lr && Good(c.inp, s') && !CutSet(s')
    requires s'.memo == Update(s.memo, key, e) && s'.lr == s.lr && s'.failures == s.failures
    ensures Tended(c, s')
  {
    hide WellFormed, NoCuts, IsPartner, Means;
    assert s'.memo.Keys == s.memo.Keys;
  }

  lemma {:induction false} HopeBody(c: Setting, fuel: nat, skip: bool, rule: RuleId, s: State)
    requires Tended(c, s) && rule in c.g.rules && Key(s.pos, rule) in s.lr && c.mode(rule) == skip
    ensures Tends(c, s, Parse(c.g, c.inp, fuel, skip, c.g.rules[rule].body, s))
    decreases fuel, 3, 0
  {
    hide Tended, Bounded, Parse, CutFree, Usable, IsPartner, IsLeftRec, UsableIn;
    var body := c.g.rules[rule].body;
    BodyFacts(c, s, rule);
    if IsPartner(c.g, rule) {
      HopeIn(c, fuel, skip, Owner(c.g, rule), body, s);
    } else if IsLeftRec(c.g, rule) {
      HopeIn(c, fuel, skip, rule, body, s);
    } else {
      HopeExpr(c, fuel, skip, body, s);
    }
  }

  /** The body of a rule; a partner is only under evaluation together with the rule it serves. */
  lemma BodyFacts(c: Setting, s: State, rule: RuleId)
    requires Tended(c, s) && rule in c.g.rules && Key(s.pos, rule) in s.lr
    ensures CutFree(c.g.rules[rule].body)
    ensures var body := c.g.rules[rule].body;
            if IsPartner(c.g, rule) then
              var r := Owner(c.g, rule);
              IsLeftRec(c.g, r) && c.mode(r) == c.mode(rule) && UsableIn(c.g, c.mode, r, body) && Key(s.pos, r) in s.lr
            else if IsLeftRec(c.g, rule) then UsableIn(c.g, c.mode, rule, body)
            else Fits(c, c.mode(rule), body)
  {
    hide CutsEnclosed, Hopeless, EntriesSound, Bounded;
  }

  /** The start of the body of a hopeless grown rule, or of one of its partners; these have no answer of their own. */
  lemma {:induction false} HopeIn(c: Setting, fuel: nat, skip: bool, r: RuleId, e: Expr, s: State)
    requires Tended(c, s) && IsLeftRec(c.g, r) && Key(s.pos, r) in s.lr && c.mode(r) == skip
    requires UsableIn(c.g, c.mode, r, e) && CutFree(e)
    ensures Tends(c, s, Parse(c.g, c.inp, fuel, skip, e, s))
    decreases fuel, 2, e
  {
    hide Tended, Bounded, SeqFrom, AltFrom, RepFrom, Call, IsPartner, Usable, IsLeftRec;
    TendedGood(c, s);
    match e
    case Rule(m) =>
      if m == r {
        Unanswerable(c, s, r);
        UnansweredCall(c, fuel, skip, m, s);
      } else if Serves(c.g, m, r) {
        NoAnswer(c, s, m);
        PartnerMode(c, s, m);
        UnansweredCall(c, fuel, skip, m, s);
      } else {
        HopeExpr(c, fuel, skip, e, s);
      }
    case Alt(_) =>
      Start(c, s);
      HopeInAlt(c, fuel, skip, r, e, 0, OpenScope(s));
      Closing(c, s, OpenScope(s), AltFrom(c.g, c.inp, fuel, skip, e, 0, OpenScope(s)));
    case Seq(es) =>
      if es == [] { NothingFits(c, skip, e); HopeExpr(c, fuel, skip, e, s); } else
          { HopeInSeq(c, fuel, skip, r, e, s); }
    case _ => HopeExpr(c, fuel, skip, e, s);
  }

  lemma NothingFits(c: Setting, skip: bool, e: Expr)
    requires e.Seq? && e.es == []
    ensures Fits(c, skip, e)
  {
  }

  lemma Unanswerable(c: Setting, s: State, r: RuleId)
    requires Tended(c, s) && Key(s.pos, r) in s.lr && IsLeftRec(c.g, r)
    ensures Hopeless(c, Key(s.pos, r)) && (IsPartner(c.g, r) ==> Key(s.pos, Owner(c.g, r)) in s.lr)
  {
    hide WellFormed, NoCuts, EntriesSound, Hopeless, Bounded;
  }

  lemma PartnerMode(c: Setting, s: State, m: RuleId)
    requires Tended(c, s) && m in c.g.rules && IsPartner(c.g, m)
    ensures c.mode(m) == c.mode(Owner(c.g, m))
  {
    hide Sound, NoCuts, Hopeless;
  }

  lemma {:induction false} HopeInSeq(c: Setting, fuel: nat, skip: bool, r: RuleId, e: Expr, s: State)
    requires Tended(c, s) && IsLeftRec(c.g, r) && Key(s.pos, r) in s.lr && c.mode(r) == skip
    requires UsableIn(c.g, c.mode, r, e) && CutFree(e) && e.Seq? && e.es != [] && Good(c.inp, s)
    ensures Tends(c, s, Parse(c.g, c.inp, fuel, skip, e, s))
    decreases fuel, 2, e, 0
  {
    hide Tended, Bounded, Parse, SeqFrom, IsPartner, IsLeftRec;
    var n := |s.arena|;
    Start(c, s);
    var s1 := Alloc(s, s.pos, 0);
    HopeIn(c, fuel, skip, r, e.es[0], s1);
    var r1 := Parse(c.g, c.inp, fuel, skip, e.es[0], s1);
    Packrat.SeqUnfolds(c, fuel, skip, e, s);
    if r1.out.Ok? {
      var s2 := PushChild(r1.st, n, r1.out.tree);
      TendedGood(c, r1.st);
      TendedOn(c, r1.st, s2);
      HopeSeq(c, fuel, skip, e, 1, n, s2);
      SeqRewound(c, s, SeqFrom(c.g, c.inp, fuel, skip, e, 1, n, s2));
    } else {
      SeqRewound(c, s, r1);
    }
  }

  lemma {:induction false} HopeInAlt(c: Setting, fuel: nat, skip: bool, r: RuleId, e: Expr, j: nat, s: State)
    requires Tended(c, s) && IsLeftRec(c.g, r) && Key(s.pos, r) in s.lr && c.mode(r) == skip
    requires UsableIn(c.g, c.mode, r, e) && CutFree(e) && e.Alt? && j <= |e.es|
    ensures Tends(c, s, AltFrom(c.g, c.inp, fuel, skip, e, j, s))
    decreases fuel, 2, e, |e.es| - j
  {
    hide Tended, Bounded, Parse, IsPartner, IsLeftRec;
    TendedGood(c, s);
    if j < |e.es| {
      HopeIn(c, fuel, skip, r, e.es[j], s);
      var r1 := Parse(c.g, c.inp, fuel, skip, e.es[j], s);
      if r1.out.Ok? {
        Stamped(c, s, r1, j);
      } else if r1.out.Fail? {
        TendedGood(c, r1.st);
        HopeInAlt(c, fuel, skip, r, e, j + 1, r1.st);
      }
    }
  }

  lemma NoAnswer(c: Setting, s: State, m: RuleId)
    requires IsPartner(c.g, m) && s.pos <= |c.inp|
    ensures Hopeless(c, Key(s.pos, m))
  {
  }

  // ---- histories --------------------------------------------------------------------------------

  /** Between two parses. */
  lemma IdleIsTended(c: Setting, s: State)
    requires NoCuts(c.g)
    ensures Transparency.Idle(c, s) ==> Tended(c, s)
    ensures Tended(c, s) && s.lr == [] && s.scope.None? ==> Transparency.Idle(c, s)
  {
  }

  /** Any parse that ends normally leaves a context that is ready for the next one, answered or not. */
  lemma RunStaysIdle(c: Setting, fuel: nat, start: RuleId, s: State)
    requires Transparency.Idle(c, s) && Transparency.Startable(c, start) && NoCuts(c.g)
    ensures var r := Run(c.g, c.inp, fuel, start, s); r.out.Normal() ==> Transparency.Idle(c, r.st)
  {
    hide Skip, Call, Tended, Sound, WellFormed, NoCuts;
    IdleIsTended(c, s);
    TendedGood(c, s);
    HopeSkip(c, fuel, c.g.skipper.Some?, s);
    var k := Skip(c.g, c.inp, fuel, c.g.skipper.Some?, s);
    if k.out.Ok? { HopeCall(c, fuel, c.g.skipper.Some?, start, k.st); }
    IdleIsTended(c, Run(c.g, c.inp, fuel, start, s).st);
  }

  /** Every visit ended normally. */
  ghost predicate AllEnd(c: Setting, fuel: nat, visits: seq<Transparency.Visit>)
    requires Transparency.Visits(c, visits)
  {
    visits != [] ==>
      var init, v := visits[..|visits| - 1], visits[|visits| - 1];
      && AllEnd(c, fuel, init)
      && Run(c.g, c.inp, fuel, v.start, Transparency.After(c, fuel, init).(pos := v.pos)).out.Normal()
  }

  lemma {:induction false} HistoryIsIdle(c: Setting, fuel: nat, visits: seq<Transparency.Visit>)
    requires WellFormed(c.g, c.mode) && NoCuts(c.g) && Transparency.Visits(c, visits) && AllEnd(c, fuel, visits)
    ensures Transparency.Idle(c, Transparency.After(c, fuel, visits))
    decreases |visits|
  {
    hide Run, NoCuts, Transparency.Idle, WellFormed;
    if visits == [] {
      Transparency.FreshIsIdle(c);
    } else {
      var init, v := visits[..|visits| - 1], visits[|visits| - 1];
      HistoryIsIdle(c, fuel, init);
      assert v in visits;
      IdleAnywhere(c, Transparency.After(c, fuel, init), v.pos);
      RunStaysIdle(c, fuel, v.start, Transparency.After(c, fuel, init).(pos := v.pos));
    }
  }

  lemma IdleAnywhere(c: Setting, s: State, p: nat)
    requires Transparency.Idle(c, s) && p <= |c.inp|
    ensures Transparency.Idle(c, s.(pos := p))
  {
    hide WellFormed, Means;
  }

  /** Packrat transparency after any parses that ended normally, answered or not, each from a rule that is no partner
      and in its own skip mode: the next such parse has the outcome, the end and the failures of the memo-free
      semantics. */
  lemma AnyHistoryIsIrrelevant(c: Setting, fuel: nat, k: nat, visits: seq<Transparency.Visit>, v: Transparency.Visit)
    requires WellFormed(c.g, c.mode) && NoCuts(c.g) && Transparency.Visits(c, visits) && AllEnd(c, fuel, visits)
        && k <= fuel
    requires v.pos <= |c.inp| && Transparency.Startable(c, v.start) && Transparency.AnswerOf(c, k, v).Some?
    ensures var a := Transparency.AnswerOf(c, k, v).value;
            var s := Transparency.After(c, fuel, visits);
            var r := Run(c.g, c.inp, fuel, v.start, s.(pos := v.pos));
            && r.out.Ok? == a.out.Yes? && r.out.Fail? == a.out.No? && r.out.Abort? == a.out.Throw?
            && (a.out.Yes? ==> r.st.pos == a.out.end)
            && r.st.failures == s.failures + a.evs
  {
    hide MemoSound, FramesKept, Bounded, WellFormed, NoCuts, Run, PegRun;
    HistoryIsIdle(c, fuel, visits);
    IdleAnywhere(c, Transparency.After(c, fuel, visits), v.pos);
    Transparency.RunIsPeg(c, fuel, k, v.start, Transparency.After(c, fuel, visits).(pos := v.pos));
  }
}
