/** Linear work.  In a grammar without cuts in which no rule can re-enter itself before consuming, with or without
    recovery and skipper, all the parses on one context together evaluate a rule body at most twice for every
    rule and position. */
module Work {
  import opened Grammars
  import opened Machine
  import opened Totality
  import opened Layers
  import opened Recoveries
  import Growth
  import Termination
  import Transparency
  import Trees

  // ---- one entry --------------------------------------------------------------------------------

  /** A rule with an entry is answered from it, and nothing is evaluated; a rule without one gets it for good, and
      runs its body at most twice. */
  lemma EntryOnce(w: Ranking, inp: Input, fuel: nat, skip: bool, rule: RuleId, s: State, m: nat)
    requires Layered(w) && w.rank(rule) < m <= w.top && Calm(w, inp, m, s)
    ensures var k := Key(s.pos, rule);
            var r := Call(w.g, inp, fuel, skip, rule, s);
            r.out.Normal() ==>
              && k in r.st.memo && Holds(r.st.memo[k], r)
              && (k in s.memo ==> r.st.memo == s.memo && r.st.evals == s.evals)
              && (k !in s.memo ==>
                    && fuel > 0 && rule in w.g.rules
                    && Growth.Rounds(w.g, inp, fuel - 1, skip, k, k.pos, Fail, Enter(s, k)) <= 2)
  {
    hide Logged, Layered, Bounded, Grow, Growth.Rounds, Eaten, Paid, Above, Complete, Reject;
    var k := Key(s.pos, rule);
    NotInProgress(w, m, s, k);
    CallCached(w, inp, fuel, skip, rule, s, m);
    if k !in s.memo && fuel > 0 && rule in w.g.rules {
      EnterCalm(w, inp, m, s, k);
      var g := Grow(w.g, inp, fuel - 1, skip, k, k.pos, Fail, Enter(s, k));
      if g.out.Normal() { TwoRounds(w, inp, fuel - 1, skip, k, Enter(s, k)); }
    }
  }

  lemma TwoRounds(w: Ranking, inp: Input, fuel: nat, skip: bool, k: Key, s: State)
    requires Layered(w) && k.rule in w.g.rules && k in s.memo && k in s.lr && k.pos == s.pos
    requires Calm(w, inp, w.rank(k.rule), s) && Grow(w.g, inp, fuel, skip, k, k.pos, Fail, s).out.Normal()
    ensures Growth.Rounds(w.g, inp, fuel, skip, k, k.pos, Fail, s) <= 2
  {
    hide Logged, Bounded, Parse, Above, Layered, Steps, Grow, Growth.Rounds, Growth.Seeds;
    var body := w.g.rules[k.rule].body;
    var s1 := s.(evals := s.evals + 1);
    assert Restart(inp, k, Fail, s) == s1;
    BodyLayered(w, k.rule);
    Recharged(w, inp, w.rank(k.rule), s, s.pos, s.evals + 1);
    LogExpr(w, inp, fuel, skip, body, s1, w.rank(k.rule));
    var r := Parse(w.g, inp, fuel, skip, body, s1);
    Growth.Unfolds(w.g, inp, fuel, skip, k, k.pos, Fail, s);
    if r.out.Ok? && r.st.pos > k.pos && k in r.st.memo {
      SecondPassEnds(w, inp, fuel, skip, k, s, r);
      var s2 := r.st.(memo := r.st.memo[k := Entry(true, r.st.pos, r.out.tree)]);
      Growth.Unfolds(w.g, inp, fuel, skip, k, r.st.pos, r.out, s2);
    }
  }

  // ---- histories --------------------------------------------------------------------------------

  /** The context after the visits, starting from a new one. */
  ghost function After(g: Grammar, inp: Input, fuel: nat, visits: seq<Transparency.Visit>): (s: State)
    requires forall v | v in visits :: v.pos <= |inp|
    ensures Good(inp, s)
  {
    if visits == [] then FRESH
    else
      var v := visits[|visits| - 1];
      Run(g, inp, fuel, v.start, After(g, inp, fuel, visits[..|visits| - 1]).(pos := v.pos)).st
  }

  /** No visit exhausted the nesting bound or entered a rule without a body. */
  ghost predicate AllEnd(g: Grammar, inp: Input, fuel: nat, visits: seq<Transparency.Visit>)
    requires forall v | v in visits :: v.pos <= |inp|
  {
    visits != [] ==>
      var init, v := visits[..|visits| - 1], visits[|visits| - 1];
      AllEnd(g, inp, fuel, init) && Run(g, inp, fuel, v.start, After(g, inp, fuel, init).(pos := v.pos)).out.Normal()
  }

  lemma {:induction false} HistoryAccounted(w: Ranking, inp: Input, fuel: nat, visits: seq<Transparency.Visit>)
    requires Layered(w) && (forall v | v in visits :: v.pos <= |inp|) && AllEnd(w.g, inp, fuel, visits)
    ensures Accounted(w, After(w.g, inp, fuel, visits))
  {
    hide Run, Logged, Layered, Paid;
    if visits == [] {
      FreshAccounted(w);
    } else {
      var init, v := visits[..|visits| - 1], visits[|visits| - 1];
      HistoryAccounted(w, inp, fuel, init);
      var s := After(w.g, inp, fuel, init);
      AccountedAnywhere(w, s, v.pos);
      OneDiagnosticPerFailure(w, inp, fuel, v.start, s.(pos := v.pos));
    }
  }

  /** And for every grammar: the trees of all visits stand to the end of the history. */
  lemma {:induction false} HistoryIsTidy(g: Grammar, inp: Input, fuel: nat, visits: seq<Transparency.Visit>)
    requires (forall v | v in visits :: v.pos <= |inp|) && AllEnd(g, inp, fuel, visits)
    ensures Trees.Tidy(inp, After(g, inp, fuel, visits), {})
    ensures visits != [] ==>
              forall n, t | Trees.Depicts(After(g, inp, fuel, visits[..|visits| - 1]).arena, {}, n, t) ::
                Trees.Depicts(After(g, inp, fuel, visits).arena, {}, n, t)
  {
    hide Run, Trees.Tidy, Trees.Depicts, Trees.Shown;
    if visits == [] {
      Trees.FreshIsTidy(inp);
    } else {
      var init, v := visits[..|visits| - 1], visits[|visits| - 1];
      HistoryIsTidy(g, inp, fuel, init);
      var s := After(g, inp, fuel, init);
      TidyAnywhere(inp, s, v.pos);
      Trees.TreesOfRun(g, inp, fuel, v.start, s.(pos := v.pos));
    }
  }

  lemma TidyAnywhere(inp: Input, s: State, p: nat)
    requires Trees.Tidy(inp, s, {}) && p <= |inp|
    ensures Trees.Tidy(inp, s.(pos := p), {})
  {
    hide Trees.Depicts, Trees.Shown;
  }

  lemma FreshAccounted(w: Ranking)
    ensures Accounted(w, FRESH)
  {
    assert Logged(w.g, FRESH, FRESH, []);
  }

  lemma AccountedAnywhere(w: Ranking, s: State, p: nat)
    requires Accounted(w, s)
    ensures Accounted(w, s.(pos := p))
  {
    var ks: seq<Key> :| Logged(w.g, FRESH, s, ks);
    assert Logged(w.g, FRESH, s.(pos := p), ks);
  }

  /** What one history evaluated, and what it reported. */
  lemma WorkIsLinear(w: Ranking, inp: Input, fuel: nat, visits: seq<Transparency.Visit>)
    requires Layered(w) && (forall v | v in visits :: v.pos <= |inp|) && AllEnd(w.g, inp, fuel, visits)
    ensures var s := After(w.g, inp, fuel, visits);
            s.evals <= 2 * ((|inp| + 1) * |w.g.rules.Keys|) && |s.diags| <= (|inp| + 1) * |w.g.rules.Keys|
  {
    hide Run, Logged, Layered;
    HistoryAccounted(w, inp, fuel, visits);
    var s := After(w.g, inp, fuel, visits);
    var all := Termination.KeysUpTo(w.g.rules.Keys, |inp|);
    forall key | key in s.memo ensures key in all {
      Termination.InKeys(w.g.rules.Keys, |inp|, key);
      assert EntryGood(inp, s.arena, key, s.memo[key]);
    }
    Transparency.SubsetSize(s.memo.Keys, all);
    Termination.KeysUpToSize(w.g.rules.Keys, |inp|);
    var ks: seq<Key> :| Logged(w.g, FRESH, s, ks);
    DiagnosticsFit(w.g, s, ks);
  }

  lemma DiagnosticsFit(g: Grammar, s: State, ks: seq<Key>)
    requires Logged(g, FRESH, s, ks)
    ensures |s.diags| <= |s.memo.Keys|
  {
    var all := set k | k in ks;
    DistinctSize(ks, all);
    assert all <= s.memo.Keys by { forall k | k in all ensures k in s.memo { var i :| 0 <= i < |ks| && ks[i] == k; } }
    Transparency.SubsetSize(all, s.memo.Keys);
  }

  lemma {:induction false} DistinctSize(ks: seq<Key>, all: set<Key>)
    requires (forall i, j | 0 <= i < j < |ks| :: ks[i] != ks[j]) && forall k :: k in all <==> k in ks
    ensures |all| == |ks|
  {
    if ks != [] {
      var init, last := ks[..|ks| - 1], ks[|ks| - 1];
      assert ks == init + [last];
      DistinctSize(init, all - {last});
    }
  }

  /** No parse removes or changes an entry, so over a whole history a rule is entered at most once at a position. */
  lemma EntriesStay(w: Ranking, inp: Input, fuel: nat, rule: RuleId, s: State)
    requires Layered(w) && Good(inp, s) && Accounted(w, s)
    ensures var r := Run(w.g, inp, fuel, rule, s);
            r.out.Normal() ==> forall k | k in s.memo :: k in r.st.memo && r.st.memo[k] == s.memo[k]
  {
    hide Call, Skip, Logged, Bounded, Paid;
    var skip := w.g.skipper.Some?;
    LogSkip(w, inp, fuel, skip, s, w.top);
    var k := Skip(w.g, inp, fuel, skip, s);
    if k.out.Ok? {
      CalmAfter(w, inp, w.top, s, k.st);
      LogCall(w, inp, fuel, skip, rule, k.st, w.top);
    }
  }
}
