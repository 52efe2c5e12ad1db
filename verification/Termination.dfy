/** Parsing terminates for every grammar without cuts, left recursion of any kind included: rule entries
    never nest deeper than the number of rules times the number of positions. */
module Termination {
  import opened Grammars
  import opened Machine
  import opened Forms

  // ---- closed grammars --------------------------------------------------------------------------

  /** Every rule that `e` refers to is defined. */
  ghost predicate Closed(g: Grammar, e: Expr) {
    match e
    case Rule(r) => r in g.rules
    case Seq(es) => forall j | 0 <= j < |es| :: Closed(g, es[j])
    case Alt(es) => forall j | 0 <= j < |es| :: Closed(g, es[j])
    case Rep(child, _, _) => Closed(g, child)
    case Not(child) => Closed(g, child)
    case And(child) => Closed(g, child)
    case Lexeme(child) => Closed(g, child)
    case _ => true
  }

  ghost predicate ClosedGrammar(g: Grammar) {
    && (forall r | r in g.rules :: Closed(g, g.rules[r].body))
    && (g.skipper.Some? ==> g.skipper.value in g.rules)
  }

  // ---- counting ---------------------------------------------------------------------------------

  ghost function KeysAt(rules: set<RuleId>, p: nat): set<Key> {
    set r | r in rules :: Key(p, r)
  }

  ghost function KeysUpTo(rules: set<RuleId>, n: nat): set<Key> {
    if n == 0 then KeysAt(rules, 0) else KeysAt(rules, n) + KeysUpTo(rules, n - 1)
  }

  lemma {:induction false} KeysAtSize(rules: set<RuleId>, p: nat)
    ensures |KeysAt(rules, p)| == |rules|
  {
    if rules != {} {
      var r :| r in rules;
      KeysAtSize(rules - {r}, p);
      assert KeysAt(rules, p) == KeysAt(rules - {r}, p) + {Key(p, r)};
    }
  }

  lemma {:induction false} InKeys(rules: set<RuleId>, n: nat, k: Key)
    ensures k in KeysUpTo(rules, n) <==> k.rule in rules && k.pos <= n
  {
    if n > 0 { InKeys(rules, n - 1, k); }
  }

  lemma {:induction false} KeysUpToSize(rules: set<RuleId>, n: nat)
    ensures |KeysUpTo(rules, n)| == (n + 1) * |rules|
  {
    KeysAtSize(rules, n);
    if n > 0 {
      var here, below := KeysAt(rules, n), KeysUpTo(rules, n - 1);
      KeysUpToSize(rules, n - 1);
      forall k | k in below ensures k !in here { InKeys(rules, n - 1, k); }
      assert |here + below| == |here| + |below|;
    }
  }

  lemma {:induction false} DistinctFits(lr: seq<Key>, keys: set<Key>)
    requires forall i, j | 0 <= i < j < |lr| :: lr[i] != lr[j]
    requires forall k | k in lr :: k in keys
    ensures |lr| <= |keys|
  {
    if lr != [] {
      var last, init := lr[|lr| - 1], lr[..|lr| - 1];
      DistinctFits(init, keys - {last});
    }
  }

  /** The nesting bound: one entry per rule and position. */
  ghost function Depth(g: Grammar, inp: Input): nat {
    (|inp| + 1) * |g.rules.Keys|
  }

  // ---- the invariant ----------------------------------------------------------------------------

  /** The rules under evaluation are distinct, defined, and own a live memo entry; no cut is set. */
  ghost predicate Live(g: Grammar, inp: Input, s: State) {
    && Good(inp, s) && !CutSet(s)
    && (forall k | k in s.lr :: k in s.memo && k.rule in g.rules && k.pos <= |inp|)
    && (forall i, j | 0 <= i < j < |s.lr| :: s.lr[i] != s.lr[j])
  }

  /** The left-recursion stack leaves room for `fuel` more entries. */
  ghost predicate Roomy(g: Grammar, inp: Input, fuel: nat, s: State) {
    Live(g, inp, s) && fuel + |s.lr| >= Depth(g, inp)
  }

  ghost predicate Fine(g: Grammar, inp: Input, s: State, r: Result) {
    r.out.Normal() && Live(g, inp, r.st) && r.st.lr == s.lr
  }

  ghost predicate Terminating(g: Grammar) {
    ClosedGrammar(g) && NoCuts(g)
  }

  lemma RoomLeft(g: Grammar, inp: Input, fuel: nat, s: State, k: Key)
    requires Roomy(g, inp, fuel, s) && k !in s.memo && k.rule in g.rules && k.pos == s.pos
    ensures fuel > 0 && Roomy(g, inp, fuel - 1, Enter(s, k))
  {
    var lr := s.lr + [k];
    KeysUpToSize(g.rules.Keys, |inp|);
    forall x | x in lr ensures x in KeysUpTo(g.rules.Keys, |inp|) { InKeys(g.rules.Keys, |inp|, x); }
    DistinctFits(lr, KeysUpTo(g.rules.Keys, |inp|));
  }

  /** Steps that keep the memo's keys and set no cut. */
  lemma LiveIdle(g: Grammar, inp: Input, s: State, s': State)
    requires Live(g, inp, s) && Good(inp, s') && !CutSet(s') && s'.lr == s.lr
    requires forall k | k in s.lr :: k in s'.memo
    ensures Live(g, inp, s')
  {
  }

  // ---- expressions ------------------------------------------------------------------------------

  lemma {:induction false} NeverStuck(g: Grammar, inp: Input, fuel: nat, skip: bool, e: Expr, s: State)
    requires Terminating(g) && Roomy(g, inp, fuel, s) && Closed(g, e) && CutFree(e)
    ensures Fine(g, inp, s, Parse(g, inp, fuel, skip, e, s))
    decreases fuel, 1, e
  {
    hide ClosedGrammar, NoCuts, SeqFrom, AltFrom, RepFrom, Call, Depth;
    match e
    case Seq(_) => NeverStuckSeq(g, inp, fuel, skip, e, 0, |s.arena|, Alloc(s, s.pos, 0));
    case Alt(_) => NeverStuckAlt(g, inp, fuel, skip, e, 0, OpenScope(s));
    case Rep(_, _, _) => NeverStuckRep(g, inp, fuel, skip, e, 0, s.pos, |s.arena|, Alloc(OpenScope(s), s.pos, 0));
    case Not(child) => NeverStuck(g, inp, fuel, skip, child, s);
    case And(child) => NeverStuck(g, inp, fuel, skip, child, s);
    case Lexeme(child) => NeverStuck(g, inp, fuel, false, child, s);
    case Rule(rule) => NeverStuckCall(g, inp, fuel, skip, rule, s);
    case _ =>
  }

  lemma {:induction false} NeverStuckSkip(g: Grammar, inp: Input, fuel: nat, skip: bool, s: State)
    requires Terminating(g) && Roomy(g, inp, fuel, s)
    ensures Fine(g, inp, s, Skip(g, inp, fuel, skip, s))
    decreases fuel, 0, 1
  {
    hide NoCuts, Call, Depth;
    if skip && g.skipper.Some? {
      NeverStuckCall(g, inp, fuel, false, g.skipper.value, s);
    }
  }

  lemma {:induction false} NeverStuckSeq(g: Grammar, inp: Input, fuel: nat, skip: bool, e: Expr, i: nat, n: nat,
      s: State)
    requires Terminating(g) && Roomy(g, inp, fuel, s) && e.Seq? && Closed(g, e) && CutFree(e) && i <= |e.es|
        && n < |s.arena|
    ensures Fine(g, inp, s, SeqFrom(g, inp, fuel, skip, e, i, n, s))
    decreases fuel, 1, e, |e.es| - i
  {
    hide ClosedGrammar, NoCuts, Depth, SeqNext, Skip;
    if i < |e.es| {
      if i > 0 { NeverStuckSkip(g, inp, fuel, skip, s); }
      var k := if i > 0 then Skip(g, inp, fuel, skip, s) else Result(Ok(None), s);
      NeverStuckSeqNext(g, inp, fuel, skip, e, i, n, k.st);
    }
  }

  lemma {:induction false} NeverStuckSeqNext(g: Grammar, inp: Input, fuel: nat, skip: bool, e: Expr, i: nat, n: nat,
      s: State)
    requires Terminating(g) && Roomy(g, inp, fuel, s) && e.Seq? && Closed(g, e) && CutFree(e) && i < |e.es|
        && n < |s.arena|
    ensures Fine(g, inp, s, SeqNext(g, inp, fuel, skip, e, i, n, s))
    decreases fuel, 1, e, |e.es| - i, 0
  {
    hide ClosedGrammar, NoCuts, Depth, SeqFrom, Parse;
    NeverStuck(g, inp, fuel, skip, e.es[i], s);
    var r := Parse(g, inp, fuel, skip, e.es[i], s);
    if r.out.Ok? {
      NeverStuckSeq(g, inp, fuel, skip, e, i + 1, n, PushChild(r.st, n, r.out.tree));
    }
  }

  lemma {:induction false} NeverStuckAlt(g: Grammar, inp: Input, fuel: nat, skip: bool, e: Expr, i: nat, s: State)
    requires Terminating(g) && Roomy(g, inp, fuel, s) && e.Alt? && Closed(g, e) && CutFree(e) && i <= |e.es|
    ensures Fine(g, inp, s, AltFrom(g, inp, fuel, skip, e, i, s))
    decreases fuel, 1, e, |e.es| - i
  {
    hide ClosedGrammar, NoCuts, Depth, Parse;
    if i < |e.es| {
      NeverStuck(g, inp, fuel, skip, e.es[i], s);
      var r := Parse(g, inp, fuel, skip, e.es[i], s);
      if r.out.Fail? {
        NeverStuckAlt(g, inp, fuel, skip, e, i + 1, r.st);
      }
    }
  }

  lemma {:induction false} NeverStuckRep(g: Grammar, inp: Input, fuel: nat, skip: bool, e: Expr, count: nat,
      start: nat, n: nat, s: State)
    requires Terminating(g) && Roomy(g, inp, fuel, s) && e.Rep? && Closed(g, e) && CutFree(e) && start <= s.pos
        && n < |s.arena|
    ensures Fine(g, inp, s, RepFrom(g, inp, fuel, skip, e, count, start, n, s))
    decreases fuel, 1, e, |inp| - s.pos, 1
  {
    hide ClosedGrammar, NoCuts, Depth, RepTry, Skip;
    if count > 0 { NeverStuckSkip(g, inp, fuel, skip, s); }
    var k := if count > 0 then Skip(g, inp, fuel, skip, s) else Result(Ok(None), s);
    NeverStuckRepTry(g, inp, fuel, skip, e, count, start, n, s.pos, SetCut(k.st, false));
  }

  lemma {:induction false} NeverStuckRepTry(g: Grammar, inp: Input, fuel: nat, skip: bool, e: Expr, count: nat,
      start: nat, n: nat, last: nat, s: State)
    requires Terminating(g) && Roomy(g, inp, fuel, s) && e.Rep? && Closed(g, e) && CutFree(e)
        && start <= last <= s.pos && n < |s.arena|
    ensures Fine(g, inp, s, RepTry(g, inp, fuel, skip, e, count, start, n, last, s))
    decreases fuel, 1, e, |inp| - s.pos, 0
  {
    hide ClosedGrammar, NoCuts, Depth, RepFrom, Parse;
    NeverStuck(g, inp, fuel, skip, e.child, s);
    var r := Parse(g, inp, fuel, skip, e.child, s);
    if r.out.Ok? && r.st.pos > s.pos {
      NeverStuckRep(g, inp, fuel, skip, e, count + 1, start, n, PushChild(r.st, n, r.out.tree));
    }
  }

  lemma {:induction false} NeverStuckCall(g: Grammar, inp: Input, fuel: nat, skip: bool, rule: RuleId, s: State)
    requires Terminating(g) && Roomy(g, inp, fuel, s) && rule in g.rules
    ensures Fine(g, inp, s, Call(g, inp, fuel, skip, rule, s))
    decreases fuel, 0, 0
  {
    hide ClosedGrammar, NoCuts, Depth, Grow;
    var k := Key(s.pos, rule);
    if k !in s.memo {
      RoomLeft(g, inp, fuel, s, k);
      NeverStuckGrow(g, inp, fuel - 1, skip, k, k.pos, Fail, Enter(s, k));
      var r := Grow(g, inp, fuel - 1, skip, k, k.pos, Fail, Enter(s, k));
      assert (s.lr + [k])[..|s.lr|] == s.lr;
    }
  }

  lemma {:induction false} NeverStuckGrow(g: Grammar, inp: Input, fuel: nat, skip: bool, k: Key, last: nat,
      best: Outcome, s: State)
    requires Terminating(g) && Roomy(g, inp, fuel, s) && k in s.lr && k.pos <= last <= |inp| && best.Normal()
    requires (best.Ok? ==> TreeIn(s.arena, best.tree)) && (best.Fail? ==> last == k.pos)
    ensures Fine(g, inp, s, Grow(g, inp, fuel, skip, k, last, best, s))
    decreases fuel, 2, |inp| - last
  {
    hide Depth, Parse;
    var s1 := Restart(inp, k, best, s);
    LiveIdle(g, inp, s, s1);
    NeverStuck(g, inp, fuel, skip, g.rules[k.rule].body, s1);
    var r := Parse(g, inp, fuel, skip, g.rules[k.rule].body, s1);
    if r.out.Ok? && r.st.pos > last {
      NeverStuckGrow(g, inp, fuel, skip, k, r.st.pos, r.out, r.st.(memo := r.st.memo[k := Entry(true, r.st.pos,
          r.out.tree)]));
    }
  }

  /** A parse of a closed, cut-free grammar from any live state needs no more nesting than this. */
  lemma ParsingTerminates(g: Grammar, inp: Input, fuel: nat, skip: bool, rule: RuleId, s: State)
    requires Terminating(g) && rule in g.rules && Live(g, inp, s) && fuel >= Depth(g, inp) - |s.lr|
    ensures var r := Call(g, inp, fuel, skip, rule, s);
            r.out.Normal() && r.st.lr == s.lr && Live(g, inp, r.st)
  {
    NeverStuckCall(g, inp, fuel, skip, rule, s);
  }

  /** The same for a whole parse, leading skip included. */
  lemma RunTerminates(g: Grammar, inp: Input, fuel: nat, start: RuleId, s: State)
    requires Terminating(g) && start in g.rules && Live(g, inp, s) && fuel >= Depth(g, inp) - |s.lr|
    ensures Fine(g, inp, s, Run(g, inp, fuel, start, s))
  {
    hide ClosedGrammar, NoCuts, Depth, Skip, Call;
    var skip := g.skipper.Some?;
    NeverStuckSkip(g, inp, fuel, skip, s);
    NeverStuckCall(g, inp, fuel, skip, start, Skip(g, inp, fuel, skip, s).st);
  }
}
