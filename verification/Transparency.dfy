/** The main theorems about whole parses: any history of parses on one context, from rules that are no partners, answers
    as the memo-free semantics does, with linearly many body evaluations. */
module Transparency {
  import opened Grammars
  import opened Machine
  import opened Peg
  import opened Forms
  import opened Soundness
  import Packrat
  import Termination
  import Depth

  /** A context between two parses. */
  ghost predicate Idle(c: Setting, s: State) {
    WellFormed(c.g, c.mode) && Sound(c, s) && s.lr == [] && s.scope.None? && CalmSkip(c)
  }

  ghost predicate Startable(c: Setting, start: RuleId) {
    c.mode(start) == c.g.skipper.Some? && !IsPartner(c.g, start) && (c.calm ==> Quiet(c.g, start))
  }

  lemma FreshIsIdle(c: Setting)
    requires WellFormed(c.g, c.mode) && CalmSkip(c)
    ensures Idle(c, FRESH)
  {
  }

  /** One parse, from whatever an earlier parse left in the memo: same outcome, same end, same failure
      events as without a memo; and the context is ready for the next parse. */
  lemma RunIsPeg(c: Setting, fuel: nat, k: nat, start: RuleId, s: State)
    requires Idle(c, s) && Startable(c, start) && k <= fuel
    requires PegRun(c.g, c.inp, k, start, s.pos).Some?
    ensures var r := Run(c.g, c.inp, fuel, start, s);
            var a := PegRun(c.g, c.inp, k, start, s.pos).value;
            Faithful(c, NOTHING, s, r, a) && (r.out.Normal() ==> Idle(c, r.st))
  {
    hide MemoSound, FramesKept, Bounded, WellFormed, Skip, PegSkip, Call, PegCall;
    var skip := c.g.skipper.Some?;
    assert Above(c, k, s.lr);
    Packrat.SoundSkip(c, fuel, k, skip, s);
    var w := Skip(c.g, c.inp, fuel, skip, s);
    if w.out.Ok? {
      assert Above(c, k, w.st.lr);
      Packrat.SoundCall(c, fuel, k, skip, start, w.st);
      Chain(c, NOTHING, s, w.st, Call(c.g, c.inp, fuel, skip, start, w.st),
          PegSkip(c.g, c.inp, k, skip, s.pos).value.evs,
            PegCall(c.g, c.inp, k, skip, start, w.st.pos).value);
    }
  }

  // ---- histories --------------------------------------------------------------------------------

  /** One earlier use of the context: reposition to `pos`, parse `start`. */
  datatype Visit = Visit(pos: nat, start: RuleId)

  ghost predicate Visits(c: Setting, visits: seq<Visit>) {
    forall v | v in visits :: v.pos <= |c.inp| && Startable(c, v.start)
  }

  /** The memo-free answer of a visit. */
  ghost function AnswerOf(c: Setting, k: nat, v: Visit): Option<Answer>
    requires v.pos <= |c.inp|
  {
    PegRun(c.g, c.inp, k, v.start, v.pos)
  }

  /** Every visit has an answer within depth k, and none is a cut-committed failure. */
  ghost predicate Answered(c: Setting, k: nat, visits: seq<Visit>)
    requires Visits(c, visits)
  {
    forall v | v in visits :: AnswerOf(c, k, v).Some? && !AnswerOf(c, k, v).value.out.Throw?
  }

  /** The context after the visits, starting from a new one. */
  ghost function After(c: Setting, fuel: nat, visits: seq<Visit>): (s: State)
    requires Visits(c, visits)
    ensures Good(c.inp, s)
  {
    if visits == [] then FRESH
    else
      var v := visits[|visits| - 1];
      Run(c.g, c.inp, fuel, v.start, After(c, fuel, visits[..|visits| - 1]).(pos := v.pos)).st
  }

  /** All the failures the visits ran into. */
  ghost function FailuresOf(c: Setting, k: nat, visits: seq<Visit>): set<Failure>
    requires Visits(c, visits) && Answered(c, k, visits)
  {
    if visits == [] then {}
    else FailuresOf(c, k, visits[..|visits| - 1]) + AnswerOf(c, k, visits[|visits| - 1]).value.evs
  }

  /** And what the growing rules left of their partners is settled. */
  lemma {:induction false} AfterIsIdle(c: Setting, fuel: nat, k: nat, visits: seq<Visit>)
    requires WellFormed(c.g, c.mode) && CalmSkip(c) && Visits(c, visits) && Answered(c, k, visits) && k <= fuel
    ensures var s := After(c, fuel, visits);
            Idle(c, s) && s.failures == FailuresOf(c, k, visits) && WorkPaid(c, FRESH, s) && Settled(c, s)
    decreases |visits|
  {
    hide MemoSound, WorkPaid, Bounded, WellFormed, Run, PegRun, SettledAt;
    if visits == [] {
      FreshIsIdle(c);
      WorkTrans(c, FRESH, FRESH, FRESH);
    } else {
      var init, v := visits[..|visits| - 1], visits[|visits| - 1];
      AfterIsIdle(c, fuel, k, init);
      var s0 := After(c, fuel, init);
      var s := s0.(pos := v.pos);
      MovesIdle(c, NOTHING, s0, s);
      assert v in visits;
      RunIsPeg(c, fuel, k, v.start, s);
      WorkTrans(c, FRESH, s0, s);
      WorkTrans(c, FRESH, s, Run(c.g, c.inp, fuel, v.start, s).st);
    }
  }

  lemma WorkTrans(c: Setting, s: State, s1: State, s2: State)
    ensures WorkPaid(c, s, s)
    ensures WorkPaid(c, s, s1) && WorkPaid(c, s1, s2) ==> WorkPaid(c, s, s2)
  {
    hide NoCuts, NoLeftRec;
  }

  /** Packrat transparency.  Whatever was parsed before on this context, from rules that are no partners and in their
      own skip modes, the next such parse has the outcome and the end position of the memo-free semantics, and the
      failures recorded by then are exactly those of all the parses without a memo. */
  lemma HistoryIsIrrelevant(c: Setting, fuel: nat, k: nat, visits: seq<Visit>, v: Visit)
    requires WellFormed(c.g, c.mode) && CalmSkip(c) && Visits(c, visits) && Answered(c, k, visits) && k <= fuel
    requires v.pos <= |c.inp| && Startable(c, v.start) && AnswerOf(c, k, v).Some?
    ensures var a := AnswerOf(c, k, v).value;
            var r := Run(c.g, c.inp, fuel, v.start, After(c, fuel, visits).(pos := v.pos));
            && r.out.Ok? == a.out.Yes? && r.out.Fail? == a.out.No? && r.out.Abort? == a.out.Throw?
            && (a.out.Yes? ==> r.st.pos == a.out.end)
            && r.st.failures == FailuresOf(c, k, visits) + a.evs
  {
    hide MemoSound, FramesKept, Bounded, WellFormed, Run, PegRun;
    AfterIsIdle(c, fuel, k, visits);
    var s0 := After(c, fuel, visits);
    MovesIdle(c, NOTHING, s0, s0.(pos := v.pos));
    RunIsPeg(c, fuel, k, v.start, s0.(pos := v.pos));
  }

  /** Linear work by answers: without cuts and grown rules, if every visit is answered, all of them together evaluate
      a rule body at most twice for every rule and position of the input, whether or not the rules can be ranked. */
  lemma AnsweredWorkIsLinear(c: Setting, fuel: nat, k: nat, visits: seq<Visit>)
    requires WellFormed(c.g, c.mode) && NoCuts(c.g) && NoLeftRec(c.g)
    requires Visits(c, visits) && Answered(c, k, visits) && k <= fuel
    ensures After(c, fuel, visits).evals <= 2 * ((|c.inp| + 1) * |c.g.rules.Keys|)
  {
    hide EntriesSound, WellFormed, Run, PegRun, NoCuts, NoLeftRec, IsPartner;
    AfterIsIdle(c, fuel, k, visits);
    var s := After(c, fuel, visits);
    var all := Termination.KeysUpTo(c.g.rules.Keys, |c.inp|);
    forall key | key in s.memo ensures key in all {
      Termination.InKeys(c.g.rules.Keys, |c.inp|, key);
      assert EntryGood(c.inp, s.arena, key, s.memo[key]);
    }
    SubsetSize(s.memo.Keys, all);
    Termination.KeysUpToSize(c.g.rules.Keys, |c.inp|);
  }

  lemma {:induction false} SubsetSize(a: set<Key>, b: set<Key>)
    requires a <= b
    ensures |a| <= |b|
  {
    if a != {} {
      var x :| x in a;
      SubsetSize(a - {x}, b - {x});
    }
  }
}
