/** Packrat transparency: on a well-formed grammar the memoised, seed-growing, evicting machine gives
    every expression exactly the answer of the memo-free semantics, from any sound memo state. */
module Packrat {
  import opened Grammars
  import opened Machine
  import opened Peg
  import opened Forms
  import opened Soundness
  import Depth

  // ---- expressions ------------------------------------------------------------------------------

  /** What every expression lemma needs of `e`. */
  ghost predicate Fits(c: Setting, skip: bool, e: Expr) {
    Usable(c.g, c.mode, skip, e) && (Tame(c) ==> Calm(c.g, e))
  }

  ghost predicate RestFits(c: Setting, skip: bool, e: Expr, j: nat)
    requires e.Seq?
  {
    forall l | j <= l < |e.es| :: Fits(c, skip, e.es[l])
  }

  ghost predicate RestEnclosed(e: Expr, j: nat)
    requires e.Seq?
  {
    forall l | j <= l < |e.es| :: CutsEnclosed(e.es[l])
  }

  lemma RestNext(c: Setting, skip: bool, e: Expr, j: nat)
    requires e.Seq? && j < |e.es| && RestFits(c, skip, e, j)
    ensures Fits(c, skip, e.es[j]) && RestFits(c, skip, e, j + 1)
    ensures RestEnclosed(e, j) <==> CutsEnclosed(e.es[j]) && RestEnclosed(e, j + 1)
  {
  }

  lemma {:induction false} SoundExpr(c: Setting, fuel: nat, h: nat, skip: bool, e: Expr, cut: bool, s: State)
    requires Ready(c, h, s) && h <= fuel && Fits(c, skip, e)
    requires CutsEnclosed(e) || Flagged(s, cut)
    requires Peg.Peg(c.g, c.inp, h, skip, e, s.pos, cut).Some?
    ensures var r := Parse(c.g, c.inp, fuel, skip, e, s);
            var a := Peg.Peg(c.g, c.inp, h, skip, e, s.pos, cut).value;
            Faithful(c, NOTHING, s, r, a) && Scoped(s, r, CutsEnclosed(e), cut, a)
    decreases fuel, 1, e
  {
    hide Faithful, Scoped, Ready, Fits, Parse, Peg.Peg;
    match e
    case Seq(_) => SoundSeqExpr(c, fuel, h, skip, e, cut, s);
    case Alt(_) => SoundAltExpr(c, fuel, h, skip, e, cut, s);
    case Rep(_, _, _) => SoundRepExpr(c, fuel, h, skip, e, cut, s);
    case Not(_) => SoundPredicate(c, fuel, h, skip, e, cut, s);
    case And(_) => SoundPredicate(c, fuel, h, skip, e, cut, s);
    case Lexeme(_) => SoundLexeme(c, fuel, h, skip, e, cut, s);
    case Rule(_) => SoundRule(c, fuel, h, skip, e, cut, s);
    case _ => SoundLeaf(c, fuel, h, skip, e, cut, s);
  }

  lemma {:induction false} SoundPredicate(c: Setting, fuel: nat, h: nat, skip: bool, e: Expr, cut: bool, s: State)
    requires Ready(c, h, s) && h <= fuel && Fits(c, skip, e) && (e.Not? || e.And?)
    requires CutsEnclosed(e) || Flagged(s, cut)
    requires Peg.Peg(c.g, c.inp, h, skip, e, s.pos, cut).Some?
    ensures var r := Parse(c.g, c.inp, fuel, skip, e, s);
            var a := Peg.Peg(c.g, c.inp, h, skip, e, s.pos, cut).value;
            Faithful(c, NOTHING, s, r, a) && Scoped(s, r, CutsEnclosed(e), cut, a)
    decreases fuel, 1, e, 1
  {
    hide Faithful, Ready, IsPartner;
    SoundLook(c, fuel, h, skip, e, cut, s);
  }

  lemma {:induction false} SoundLexeme(c: Setting, fuel: nat, h: nat, skip: bool, e: Expr, cut: bool, s: State)
    requires Ready(c, h, s) && h <= fuel && Fits(c, skip, e) && e.Lexeme?
    requires CutsEnclosed(e) || Flagged(s, cut)
    requires Peg.Peg(c.g, c.inp, h, skip, e, s.pos, cut).Some?
    ensures var r := Parse(c.g, c.inp, fuel, skip, e, s);
            var a := Peg.Peg(c.g, c.inp, h, skip, e, s.pos, cut).value;
            Faithful(c, NOTHING, s, r, a) && Scoped(s, r, CutsEnclosed(e), cut, a)
    decreases fuel, 1, e, 0
  {
    hide Faithful, Scoped, Ready;
    SoundExpr(c, fuel, h, false, e.child, cut, s);
  }

  lemma {:induction false} SoundRule(c: Setting, fuel: nat, h: nat, skip: bool, e: Expr, cut: bool, s: State)
    requires Ready(c, h, s) && h <= fuel && Fits(c, skip, e) && e.Rule?
    requires Peg.Peg(c.g, c.inp, h, skip, e, s.pos, cut).Some?
    ensures var r := Parse(c.g, c.inp, fuel, skip, e, s);
            var a := Peg.Peg(c.g, c.inp, h, skip, e, s.pos, cut).value;
            Faithful(c, NOTHING, s, r, a) && Scoped(s, r, true, cut, a)
    decreases fuel, 1, e, 0
  {
    hide Moves, Ready, Call, PegCall, IsPartner;
    SoundCall(c, fuel, h, skip, e.rule, s);
  }

  lemma SoundLeaf(c: Setting, fuel: nat, h: nat, skip: bool, e: Expr, cut: bool, s: State)
    requires Ready(c, h, s)
    requires e.Empty? || e.Terminal? || e.Token? || e.TerminalSeq? || e.Matcher? || e.Cut?
    ensures var r := Parse(c.g, c.inp, fuel, skip, e, s);
            var a := Peg.Peg(c.g, c.inp, h, skip, e, s.pos, cut).value;
            Faithful(c, NOTHING, s, r, a) && Scoped(s, r, CutsEnclosed(e), cut, a)
  {
    hide MemoSound, FramesKept, Above, WellFormed;
    var r := Parse(c.g, c.inp, fuel, skip, e, s);
    if r.out.Ok? {
      MovesIdle(c, NOTHING, s, r.st);
    } else if e.Matcher? {
      MovesIdle(c, NOTHING, s, s);
    } else {
      MovesRecord(c, s, {Failure(s.pos, e.item)});
    }
  }

  lemma {:induction false} SoundLook(c: Setting, fuel: nat, h: nat, skip: bool, p: Expr, cut: bool, s: State)
    requires Ready(c, h, s) && h <= fuel && (p.Not? || p.And?) && Fits(c, skip, p.child)
    requires CutsEnclosed(p.child) || Flagged(s, cut)
    requires Peg.Peg(c.g, c.inp, h, skip, p.child, s.pos, cut).Some?
    ensures var r := Parse(c.g, c.inp, fuel, skip, p.child, s);
            var a := Peg.Peg(c.g, c.inp, h, skip, p.child, s.pos, cut);
            && Faithful(c, NOTHING, s, Predicate(r, true, s.pos), Negate(a, s.pos).value)
            && Faithful(c, NOTHING, s, Predicate(r, false, s.pos), Look(a, s.pos).value)
            && Scoped(s, r, CutsEnclosed(p.child), cut, a.value)
    decreases fuel, 1, p, 0
  {
    hide MemoSound, FramesKept, Above, Bounded, Parse, Peg.Peg;
    SoundExpr(c, fuel, h, skip, p.child, cut, s);
    var r := Parse(c.g, c.inp, fuel, skip, p.child, s);
    var a := Peg.Peg(c.g, c.inp, h, skip, p.child, s.pos, cut).value;
    if r.out.Normal() {
      MovesOn(c, NOTHING, s, r.st, r.st.(pos := s.pos), a.evs);
    }
  }

  lemma {:induction false} SoundSkip(c: Setting, fuel: nat, h: nat, skip: bool, s: State)
    requires Ready(c, h, s) && h <= fuel
    requires PegSkip(c.g, c.inp, h, skip, s.pos).Some?
    ensures var r := Skip(c.g, c.inp, fuel, skip, s);
            var a := PegSkip(c.g, c.inp, h, skip, s.pos).value;
            Faithful(c, NOTHING, s, r, a) && (r.out.Normal() ==> r.st.scope == s.scope)
    decreases fuel, 0, 2
  {
    hide MemoSound, FramesKept, Above, Bounded, Call, PegCall;
    if skip && c.g.skipper.Some? {
      SoundCall(c, fuel, h, false, c.g.skipper.value, s);
    } else {
      MovesIdle(c, NOTHING, s, s);
    }
  }

  lemma {:induction false} SoundSeqExpr(c: Setting, fuel: nat, h: nat, skip: bool, e: Expr, cut: bool, s: State)
    requires Ready(c, h, s) && h <= fuel && Fits(c, skip, e) && e.Seq?
    requires CutsEnclosed(e) || Flagged(s, cut)
    requires Peg.Peg(c.g, c.inp, h, skip, e, s.pos, cut).Some?
    ensures var r := Parse(c.g, c.inp, fuel, skip, e, s);
            var a := Peg.Peg(c.g, c.inp, h, skip, e, s.pos, cut).value;
            Faithful(c, NOTHING, s, r, a) && Scoped(s, r, CutsEnclosed(e), cut, a)
    decreases fuel, 1, e, |e.es| + 1
  {
    hide MemoSound, FramesKept, Above, Bounded, SeqFrom, PegSeq;
    var s1 := Alloc(s, s.pos, 0);
    MovesIdle(c, NOTHING, s, s1);
    SoundSeq(c, fuel, h, skip, e, 0, cut, |s.arena|, s1);
    var r := SeqFrom(c.g, c.inp, fuel, skip, e, 0, |s.arena|, s1);
    var a := PegSeq(c.g, c.inp, h, skip, e, 0, s.pos, cut).value;
    Rewound(c, NOTHING, s, s1, r, a);
  }

  lemma {:induction false} SoundSeq(c: Setting, fuel: nat, h: nat, skip: bool, e: Expr, j: nat, cut: bool, n: nat,
      s: State)
    requires Ready(c, h, s) && h <= fuel && e.Seq? && j <= |e.es| && n < |s.arena|
    requires RestFits(c, skip, e, j)
    requires RestEnclosed(e, j) || Flagged(s, cut)
    requires PegSeq(c.g, c.inp, h, skip, e, j, s.pos, cut).Some?
    ensures var r := SeqFrom(c.g, c.inp, fuel, skip, e, j, n, s);
            var a := PegSeq(c.g, c.inp, h, skip, e, j, s.pos, cut).value;
            Faithful(c, NOTHING, s, r, a) && Scoped(s, r, RestEnclosed(e, j), cut, a)
    decreases fuel, 1, e, |e.es| - j
  {
    hide MemoSound, FramesKept, Above, Bounded, Skip, PegSkip, SeqNext, PegSeqNext, WellFormed, RestFits, RestEnclosed;
    if j == |e.es| {
      MovesIdle(c, NOTHING, s, SetEnd(s, n));
    } else {
      SoundSeqSkip(c, fuel, h, skip, j, cut, s);
      var k := if j > 0 then Skip(c.g, c.inp, fuel, skip, s) else Result(Ok(None), s);
      if k.out.Ok? {
        SoundSeqNext(c, fuel, h, skip, e, j, cut, n, k.st);
        var w := if j > 0 then PegSkip(c.g, c.inp, h, skip, s.pos).value else Answer(Yes(s.pos), cut, {});
        Chain(c, NOTHING, s, k.st, SeqNext(c.g, c.inp, fuel, skip, e, j, n, k.st), w.evs,
              PegSeqNext(c.g, c.inp, h, skip, e, j, k.st.pos, cut).value);
      }
    }
  }

  lemma {:induction false} SoundSeqNext(c: Setting, fuel: nat, h: nat, skip: bool, e: Expr, j: nat, cut: bool,
      n: nat, s: State)
    requires Ready(c, h, s) && h <= fuel && e.Seq? && j < |e.es| && n < |s.arena|
    requires RestFits(c, skip, e, j)
    requires RestEnclosed(e, j) || Flagged(s, cut)
    requires PegSeqNext(c.g, c.inp, h, skip, e, j, s.pos, cut).Some?
    ensures var r := SeqNext(c.g, c.inp, fuel, skip, e, j, n, s);
            var a := PegSeqNext(c.g, c.inp, h, skip, e, j, s.pos, cut).value;
            Faithful(c, NOTHING, s, r, a) && Scoped(s, r, RestEnclosed(e, j), cut, a)
    decreases fuel, 1, e, |e.es| - j, 0
  {
    hide MemoSound, FramesKept, Above, Bounded, Parse, Peg.Peg, SeqFrom, PegSeq, WellFormed, RestFits, RestEnclosed,
        Fits, CutsEnclosed;
    RestNext(c, skip, e, j);
    SoundExpr(c, fuel, h, skip, e.es[j], cut, s);
    var r := Parse(c.g, c.inp, fuel, skip, e.es[j], s);
    if r.out.Ok? {
      var a := Peg.Peg(c.g, c.inp, h, skip, e.es[j], s.pos, cut).value;
      var s1 := PushChild(r.st, n, r.out.tree);
      MovesOn(c, NOTHING, s, r.st, s1, a.evs);
      SoundSeq(c, fuel, h, skip, e, j + 1, a.cut, n, s1);
      Chain(c, NOTHING, s, s1, SeqFrom(c.g, c.inp, fuel, skip, e, j + 1, n, s1), a.evs,
            PegSeq(c.g, c.inp, h, skip, e, j + 1, s1.pos, a.cut).value);
    }
  }

  lemma {:induction false} SoundSeqSkip(c: Setting, fuel: nat, h: nat, skip: bool, j: nat, cut: bool, s: State)
    requires Ready(c, h, s) && h <= fuel
    requires j > 0 ==> PegSkip(c.g, c.inp, h, skip, s.pos).Some?
    ensures var k := if j > 0 then Skip(c.g, c.inp, fuel, skip, s) else Result(Ok(None), s);
            var w := if j > 0 then PegSkip(c.g, c.inp, h, skip, s.pos) else Some(Answer(Yes(s.pos), cut, {}));
            && Faithful(c, NOTHING, s, k, w.value)
            && (k.out.Ok? ==> k.st.scope == s.scope && k.st.lr == s.lr && Ready(c, h, k.st))
    decreases fuel, 0, 3
  {
    hide MemoSound, FramesKept, Above, Bounded, Skip, PegSkip;
    if j > 0 {
      SoundSkip(c, fuel, h, skip, s);
    } else {
      MovesIdle(c, NOTHING, s, s);
    }
  }

  lemma {:induction false} SoundAltExpr(c: Setting, fuel: nat, h: nat, skip: bool, e: Expr, cut: bool, s: State)
    requires Ready(c, h, s) && h <= fuel && Fits(c, skip, e) && e.Alt?
    requires Peg.Peg(c.g, c.inp, h, skip, e, s.pos, cut).Some?
    ensures var r := Parse(c.g, c.inp, fuel, skip, e, s);
            var a := Peg.Peg(c.g, c.inp, h, skip, e, s.pos, cut).value;
            Faithful(c, NOTHING, s, r, a) && Scoped(s, r, true, cut, a)
    decreases fuel, 1, e, |e.es| + 1
  {
    hide MemoSound, FramesKept, Above, Bounded, AltFrom, PegAlt, WellFormed, Fits;
    var s1 := OpenScope(s);
    MovesIdle(c, NOTHING, s, s1);
    SoundAlt(c, fuel, h, skip, e, 0, s1);
    Closed(c, NOTHING, s, s1, AltFrom(c.g, c.inp, fuel, skip, e, 0, s1),
        PegAlt(c.g, c.inp, h, skip, e, 0, s.pos).value);
  }

  lemma {:induction false} SoundRepExpr(c: Setting, fuel: nat, h: nat, skip: bool, e: Expr, cut: bool, s: State)
    requires Ready(c, h, s) && h <= fuel && Fits(c, skip, e) && e.Rep?
    requires Peg.Peg(c.g, c.inp, h, skip, e, s.pos, cut).Some?
    ensures var r := Parse(c.g, c.inp, fuel, skip, e, s);
            var a := Peg.Peg(c.g, c.inp, h, skip, e, s.pos, cut).value;
            Faithful(c, NOTHING, s, r, a) && Scoped(s, r, true, cut, a)
    decreases fuel, 1, e, |c.inp| - s.pos, 2
  {
    hide MemoSound, FramesKept, Above, Bounded, RepFrom, PegRep, WellFormed, Fits;
    var s1 := Alloc(OpenScope(s), s.pos, 0);
    MovesIdle(c, NOTHING, s, s1);
    SoundRep(c, fuel, h, skip, e, 0, s.pos, |s.arena|, s1);
    Closed(c, NOTHING, s, s1, RepFrom(c.g, c.inp, fuel, skip, e, 0, s.pos, |s.arena|, s1),
        PegRep(c.g, c.inp, h, skip, e, 0, s.pos).value);
  }

  lemma {:induction false} SoundAlt(c: Setting, fuel: nat, h: nat, skip: bool, e: Expr, j: nat, s: State)
    requires Ready(c, h, s) && h <= fuel && Fits(c, skip, e) && e.Alt? && j <= |e.es| && Flagged(s, false)
    requires PegAlt(c.g, c.inp, h, skip, e, j, s.pos).Some?
    ensures var r := AltFrom(c.g, c.inp, fuel, skip, e, j, s);
            var a := PegAlt(c.g, c.inp, h, skip, e, j, s.pos).value;
            Faithful(c, NOTHING, s, r, a) && (r.out.Normal() && Tame(c) ==> !CutSet(r.st))
    decreases fuel, 1, e, |e.es| - j
  {
    hide MemoSound, FramesKept, Above, Bounded, Parse, Peg.Peg;
    if j == |e.es| {
      MovesIdle(c, NOTHING, s, s);
    } else {
      SoundExpr(c, fuel, h, skip, e.es[j], false, s);
      if Tame(c) { CalmIsEnclosed(c.g, e.es[j]); }
      var r := Parse(c.g, c.inp, fuel, skip, e.es[j], s);
      var a := Peg.Peg(c.g, c.inp, h, skip, e.es[j], s.pos, false).value;
      if r.out.Ok? {
        var s1 := Stamp(r.st, r.out.tree, j);
        MovesOn(c, NOTHING, s, r.st, s1, a.evs);
      } else if r.out.Fail? && !CutSet(r.st) {
        SoundAlt(c, fuel, h, skip, e, j + 1, r.st);
        var r1 := AltFrom(c.g, c.inp, fuel, skip, e, j + 1, r.st);
        Chain(c, NOTHING, s, r.st, r1, a.evs, PegAlt(c.g, c.inp, h, skip, e, j + 1, s.pos).value);
      }
    }
  }

  lemma {:induction false} SoundRep(c: Setting, fuel: nat, h: nat, skip: bool, e: Expr, count: nat, start: nat,
      n: nat, s: State)
    requires Ready(c, h, s) && h <= fuel && Fits(c, skip, e) && e.Rep? && start <= s.pos && n < |s.arena|
        && s.scope.Some?
    requires PegRep(c.g, c.inp, h, skip, e, count, s.pos).Some?
    ensures var r := RepFrom(c.g, c.inp, fuel, skip, e, count, start, n, s);
            var a := PegRep(c.g, c.inp, h, skip, e, count, s.pos).value;
            Faithful(c, NOTHING, s, r, a) && (r.out.Normal() && Tame(c) ==> !CutSet(r.st))
    decreases fuel, 1, e, |c.inp| - s.pos, 1
  {
    hide MemoSound, FramesKept, Above, Bounded, Skip, PegSkip, RepTry, PegRepTry, WellFormed, Usable, Calm;
    SoundSeqSkip(c, fuel, h, skip, count, false, s);
    var k := if count > 0 then Skip(c.g, c.inp, fuel, skip, s) else Result(Ok(None), s);
    if k.out.Ok? {
      var w := if count > 0 then PegSkip(c.g, c.inp, h, skip, s.pos).value else Answer(Yes(s.pos), false, {});
      var s1 := SetCut(k.st, false);
      MovesOn(c, NOTHING, s, k.st, s1, w.evs);
      SoundRepTry(c, fuel, h, skip, e, count, start, n, s.pos, s1);
      Chain(c, NOTHING, s, s1, RepTry(c.g, c.inp, fuel, skip, e, count, start, n, s.pos, s1), w.evs,
            PegRepTry(c.g, c.inp, h, skip, e, count, s.pos, s1.pos).value);
    }
  }

  lemma {:induction false} SoundRepTry(c: Setting, fuel: nat, h: nat, skip: bool, e: Expr, count: nat, start: nat,
      n: nat, last: nat, s: State)
    requires Ready(c, h, s) && h <= fuel && Fits(c, skip, e) && e.Rep? && start <= last <= s.pos && n < |s.arena|
        && Flagged(s, false)
    requires PegRepTry(c.g, c.inp, h, skip, e, count, last, s.pos).Some?
    ensures var r := RepTry(c.g, c.inp, fuel, skip, e, count, start, n, last, s);
            var a := PegRepTry(c.g, c.inp, h, skip, e, count, last, s.pos).value;
            Faithful(c, NOTHING, s, r, a) && (r.out.Normal() && Tame(c) ==> !CutSet(r.st))
    decreases fuel, 1, e, |c.inp| - s.pos, 0
  {
    hide MemoSound, FramesKept, Above, Bounded, Parse, Peg.Peg, RepFrom, PegRep, WellFormed;
    SoundExpr(c, fuel, h, skip, e.child, false, s);
    if Tame(c) { CalmIsEnclosed(c.g, e.child); }
    var r := Parse(c.g, c.inp, fuel, skip, e.child, s);
    var a := Peg.Peg(c.g, c.inp, h, skip, e.child, s.pos, false).value;
    if r.out.Ok? {
      var s1 := PushChild(r.st, n, r.out.tree);
      MovesOn(c, NOTHING, s, r.st, s1, a.evs);
      if (e.max > 0 && count + 1 >= e.max) || s1.pos == s.pos {
        SoundRepDone(c, e, count + 1, false, start, n, s1.pos, s, s1, a.evs);
      } else {
        SoundRep(c, fuel, h, skip, e, count + 1, start, n, s1);
        Chain(c, NOTHING, s, s1, RepFrom(c.g, c.inp, fuel, skip, e, count + 1, start, n, s1), a.evs,
              PegRep(c.g, c.inp, h, skip, e, count + 1, s1.pos).value);
      }
    } else if r.out.Fail? {
      SoundRepDone(c, e, count, true, start, n, last, s, r.st, a.evs);
    }
  }

  /** The end of a repetition. */
  lemma SoundRepDone(c: Setting, e: Expr, count: nat, failed: bool, start: nat, n: nat, last: nat, s: State,
      s1: State, evs: set<Failure>)
    requires Moves(c, NOTHING, s, s1, evs) && e.Rep? && n < |s1.arena| && start <= last <= |c.inp|
    requires !failed ==> s1.pos == last
    ensures var r := RepDone(c.inp, e, count, failed, start, n, last, s1);
            && r.st.scope == s1.scope
            && (r.out.Normal() ==> Moves(c, NOTHING, s, r.st, evs))
            && (r.out.Abort? ==> r.st.failures == s.failures + evs)
  {
    hide MemoSound, FramesKept, Bounded;
    var r := RepDone(c.inp, e, count, failed, start, n, last, s1);
    MovesOn(c, NOTHING, s, s1, r.st, evs);
  }

  // ---- rules ------------------------------------------------------------------------------------

  lemma {:induction false} SoundCall(c: Setting, fuel: nat, h: nat, skip: bool, rule: RuleId, s: State)
    requires Ready(c, h, s) && h <= fuel && c.mode(rule) == skip && !IsPartner(c.g, rule)
    requires Tame(c) ==> Quiet(c.g, rule)
    requires PegCall(c.g, c.inp, h, skip, rule, s.pos).Some?
    ensures var r := Call(c.g, c.inp, fuel, skip, rule, s);
            Faithful(c, NOTHING, s, r, PegCall(c.g, c.inp, h, skip, rule, s.pos).value)
            && (r.out.Normal() ==> r.st.scope == s.scope)
    decreases fuel, 0, if Tame(c) then 0 else 1
  {
    hide FramesKept, Bounded, Grow, WellFormed, Peg.Peg, PegGrow, NoCuts, IsLeftRec;
    var key := Key(s.pos, rule);
    var a := PegCall(c.g, c.inp, h, skip, rule, s.pos).value;
    assert Means(c, h, key) == Some(a);
    if key in s.memo {
      SoundHit(c, h, key, s);
    } else if IsLeftRec(c.g, rule) && !Tame(c) {
      var c' := c.(calm := true);
      CalmReady(c, h, rule, s);
      SoundCall(c', fuel, h, skip, rule, s);
      Loosened(c, s, Call(c.g, c.inp, fuel, skip, rule, s), a);
    } else {
      RuleFacts(c, h, key);
      var m := Least(c, h, key);
      EnterReady(c, h, m, key, s);
      SoundFresh(c, fuel - 1, m - 1, key, Enter(s, key));
      var r := Grow(c.g, c.inp, fuel - 1, skip, key, key.pos, Fail, Enter(s, key));
      if r.out.Normal() { PartnersSettle(c, h, m, key, r.st); }
      SoundFinish(c, h, Own(key, IsLeftRec(c.g, rule)), NOTHING, key, s, r, Unfolded(c, m - 1, key).value);
    }
  }

  /** The entries of the partners agree with a step from the seed. */
  ghost predicate PartsHold(c: Setting, key: Key, seed: Option<nat>, s: State)
    requires SeedAt(c, key, seed)
  {
    forall m | IsPartner(c.g, m) && Owner(c.g, m) == key.rule && Key(key.pos, m) in s.memo ::
      PartSound(c, key, seed, m, s.memo[Key(key.pos, m)], s.failures)
  }

  /** A rule whose body was grown leaves its partners settled; any other rule has none. */
  lemma PartnersSettle(c: Setting, h: nat, d: nat, key: Key, s: State)
    requires WellFormed(c.g, c.mode) && Owned(c, s) && key.pos <= |c.inp| && 0 < d && key.rule in c.g.rules
    requires !IsPartner(c.g, key.rule) && Means(c, d, key).Some?
    requires IsLeftRec(c.g, key.rule) ==>
               PartsHold(c, key, Final(key, Unfolded(c, d - 1, key).value.out), s)
    ensures PartnersSettled(c, key, s)
  {
    hide PartSound, NoCuts, CutsEnclosed, Usable, UsableIn, Calm, Peg.Peg, PegGrow;
    forall m | IsPartner(c.g, m) && Owner(c.g, m) == key.rule && Key(key.pos, m) in s.memo
      ensures SettledAt(c, key, m, s.memo[Key(key.pos, m)], s.failures)
    {
      assert m in c.g.rules && FitPartner(c.g, c.mode, m);
      assert Means(c, d, key).Some? && Means(c, d, key).value.out == Unfolded(c, d - 1, key).value.out;
    }
  }

  /** What runs while a rule grows runs no cut. */
  lemma CalmReady(c: Setting, h: nat, rule: RuleId, s: State)
    requires Ready(c, h, s) && IsLeftRec(c.g, rule)
    ensures Ready(c.(calm := true), h, s) && Quiet(c.g, rule)
  {
    hide CutsEnclosed, Usable, UsableIn, FitPartner, Calm, NoCuts, Sound, PegCall;
    SameSound(c, c.(calm := true), s);
    assert forall key | key in s.lr :: Means(c.(calm := true), h, key) == Means(c, h, key);
  }

  /** And more is known of it than if it did. */
  lemma Loosened(c: Setting, s: State, r: Result, a: Answer)
    requires Faithful(c.(calm := true), NOTHING, s, r, a) && !Tame(c)
    ensures Faithful(c, NOTHING, s, r, a)
  {
    hide NoCuts, Sound, NoLeftRec, Settled;
    if !a.out.Throw? {
      SameSound(c.(calm := true), c, r.st);
      if Settled(c, s) {
        SettledCalm(c, c.(calm := true), s);
        SettledCalm(c.(calm := true), c, r.st);
      }
    }
  }

  lemma SameSound(c: Setting, c': Setting, s: State)
    requires Sound(c, s) && c'.g == c.g && c'.inp == c.inp && c'.mode == c.mode
    ensures Sound(c', s)
  {
    hide PegCall, IsPartner;
    forall key | key in s.memo && key !in s.lr ensures EntrySound(c', key, s.memo[key], s.failures) {
      assert EntryGood(c.inp, s.arena, key, s.memo[key]);
      assert EntrySound(c, key, s.memo[key], s.failures);
      assert forall k: nat :: Means(c', k, key) == Means(c, k, key);
    }
  }

  /** What well-formedness says of a rule that has an answer. */
  lemma RuleFacts(c: Setting, h: nat, key: Key)
    requires WellFormed(c.g, c.mode) && key.pos <= |c.inp| && Means(c, h, key).Some?
    ensures key.rule in c.g.rules && c.g.rules[key.rule].recovery.None?
  {
  }

  /** A memo hit returns the sound entry; the rule is not under evaluation. */
  lemma SoundHit(c: Setting, h: nat, key: Key, s: State)
    requires Ready(c, h, s) && key.pos == s.pos && key in s.memo && Means(c, h, key).Some?
    ensures EntryGood(c.inp, s.arena, key, s.memo[key])
    ensures MarkHead(s, key) == s
    ensures Faithful(c, NOTHING, s, Result(FromEntry(s.memo[key]), s.(pos := s.memo[key].end)), Means(c, h, key).value)
  {
    hide FramesKept, PegCall;
    var a := Means(c, h, key).value;
    assert EntrySound(c, key, s.memo[key], s.failures);
    MovesIdle(c, NOTHING, s, s.(pos := s.memo[key].end));
    assert s.failures + a.evs == s.failures + {};
  }

  /** Entering a rule for the first time, at the least depth that answers it. */
  lemma EnterReady(c: Setting, h: nat, m: nat, key: Key, s: State)
    requires Ready(c, h, s) && key !in s.memo && key.pos == s.pos && key.rule in c.g.rules && !IsPartner(c.g, key.rule)
    requires 0 < m <= h && Means(c, m - 1, key).None?
    ensures Ready(c, m - 1, Enter(s, key)) && |s.lr| !in s.heads
    ensures forall x | IsPartner(c.g, x) && Owner(c.g, x) == key.rule ::
              Key(key.pos, x) !in s.memo && (key !in s.lr ==> Key(key.pos, x) !in s.lr)
  {
    hide EntrySound, PegCall, WellFormed;
    AboveLower(c, h, m - 1, s.lr);
  }

  /** The answer of a rule before it is reported. */
  ghost function Unfolded(c: Setting, h: nat, key: Key): (a: Option<Answer>)
    requires key.pos <= |c.inp| && key.rule in c.g.rules
  {
    if IsLeftRec(c.g, key.rule) then PegGrow(c.g, c.inp, h, c.mode(key.rule), key.rule, key.pos, None)
    else Peg.Peg(c.g, c.inp, h, c.mode(key.rule), c.g.rules[key.rule].body, key.pos, false)
  }

  /** The exemptions of a rule growing its own body. */
  function Own(key: Key, leftRec: bool): Exempt {
    Exempt(if leftRec then {key} else {}, {key}, if leftRec then {key} else {})
  }

  /** What growing the body of a rule from its entry `s` achieves; two body evaluations are its own. */
  ghost predicate Grown(c: Setting, x: Exempt, s: State, r: Result, a: Answer) {
    match a.out
    case Yes(end) => r.out.Ok? && r.st.pos == end && r.st.scope == s.scope
        && Moves(c, x, s.(evals := s.evals + 2), r.st, a.evs)
    case No => r.out.Fail? && r.st.scope == s.scope && Moves(c, x, s.(evals := s.evals + 2), r.st, a.evs)
    case Throw => r.out.Abort? && r.st.failures == s.failures + a.evs
  }

  /** The rule of `key` is the innermost under evaluation, and was just entered. */
  ghost predicate Entered(c: Setting, key: Key, s: State) {
    && s.pos == key.pos && s.lr != [] && s.lr[|s.lr| - 1] == key && |s.lr| - 1 !in s.heads
    && key.rule in c.g.rules && key in s.memo
  }

  /** No partner of the rule of `key` has an entry, or is under evaluation, at its position. */
  ghost predicate PartnersAbsent(c: Setting, key: Key, s: State) {
    forall x | IsPartner(c.g, x) && Owner(c.g, x) == key.rule :: Key(key.pos, x) !in s.memo && Key(key.pos, x) !in s.lr
  }

  lemma {:induction false} SoundFresh(c: Setting, fuel: nat, h: nat, key: Key, s: State)
    requires Ready(c, h, s) && h <= fuel && Entered(c, key, s) && !s.memo[key].ok
    requires !IsPartner(c.g, key.rule) && PartnersAbsent(c, key, s)
    requires (IsLeftRec(c.g, key.rule) ==> Tame(c)) && (Tame(c) ==> Quiet(c.g, key.rule))
    requires Unfolded(c, h, key).Some?
    ensures var r := Grow(c.g, c.inp, fuel, c.mode(key.rule), key, key.pos, Fail, s);
            && Grown(c, Own(key, IsLeftRec(c.g, key.rule)), s, r, Unfolded(c, h, key).value)
            && (r.out.Normal() && IsLeftRec(c.g, key.rule) ==>
                  PartsHold(c, key, Final(key, Unfolded(c, h, key).value.out), r.st))
    decreases fuel, 4, |c.inp| + 1
  {
    hide MemoSound, FramesKept, Above, Bounded, Grow, Peg.Peg, PegGrow;
    if IsLeftRec(c.g, key.rule) {
      SoundGrow(c, fuel, h, key, None, Fail, s);
      GrownPaid(c, Own(key, true), s, Grow(c.g, c.inp, fuel, c.mode(key.rule), key, key.pos, Fail, s),
          Unfolded(c, h, key).value);
    } else {
      SoundBody(c, fuel, h, key, s);
    }
  }

  lemma GrownPaid(c: Setting, x: Exempt, s: State, r: Result, a: Answer)
    requires Faithful(c, x, s, r, a) && (r.out.Normal() ==> r.st.scope == s.scope)
    ensures Grown(c, x, s, r, a)
  {
    hide MemoSound, FramesKept;
    if !a.out.Throw? {
      MovesPaid(c, x, s, r.st, a.evs, 2);
    }
  }

  /** Leaving the rule of `key`, whose body was grown to `b`: its answer is published. */
  lemma SoundFinish(c: Setting, h: nat, x: Exempt, y: Exempt, key: Key, s: State, r: Result, b: Answer)
    requires Sound(c, s) && key.pos == s.pos && key !in s.memo && key !in s.lr && Outside(c, key, x, y)
    requires key.rule in c.g.rules && c.g.rules[key.rule].recovery.None?
    requires IsPartner(c.g, key.rule) || Means(c, h, key) == Reported(c.g.rules[key.rule], key.pos, Some(b))
    requires Framed(c.inp, Enter(s, key), r) && Grown(c, x, Enter(s, key), r, b)
    requires r.out.Normal() ==> PartnersSettled(c, key, r.st)
    ensures var def := c.g.rules[key.rule];
            var d := Finish(def, c.inp, key, Enter(s, key), r);
            && Faithful(c, y, s, d, Reported(def, key.pos, Some(b)).value)
            && (d.out.Normal() ==>
                  && d.st.scope == s.scope && d.st.heads == r.st.heads - {|s.lr|}
                  && d.st.memo.Keys == r.st.memo.Keys && r.st.failures <= d.st.failures
                  && (forall k | k in r.st.memo && k != key :: d.st.memo[k] == r.st.memo[k])
                  && (key in d.st.memo ==> d.st.memo[key].ok == d.out.Ok? && d.st.memo[key].end == d.st.pos))
  {
    hide MemoSound, FramesKept, Bounded, EntrySound, PegCall, PartnersSettled;
    if r.out.Normal() {
      var def := c.g.rules[key.rule];
      var d := Finish(def, c.inp, key, Enter(s, key), r);
      var report := if r.out.Ok? then {} else def.Report(key.pos);
      var entry := if r.out.Ok? then Entry(true, r.st.pos, d.out.tree) else Entry(false, key.pos, None);
      assert (s.lr + [key])[..|s.lr|] == s.lr;
      PublishedSound(c, h, x, key, s, r.st, d.st, entry, report, b.evs, Reported(def, key.pos, Some(b)).value);
      PublishedKept(c, key, x, y, s, r.st, d.st, entry, report, b.evs);
    }
  }

  /** The state in which the second pass over a body starts. */
  function Again(c: Setting, key: Key, r: Result): (s: State)
    requires Good(c.inp, r.st) && r.out.Ok? && TreeIn(r.st.arena, r.out.tree) && r.st.lr != [] && key.pos <= r.st.pos
    ensures Good(c.inp, s)
  {
    Restart(c.inp, key, r.out, r.st.(memo := r.st.memo[key := Entry(true, r.st.pos, r.out.tree)]))
  }

  lemma {:induction false} SoundBody(c: Setting, fuel: nat, h: nat, key: Key, s: State)
    requires Ready(c, h, s) && h <= fuel && Entered(c, key, s) && !IsPartner(c.g, key.rule) && !IsLeftRec(c.g, key.rule)
    requires Tame(c) ==> Quiet(c.g, key.rule)
    requires Unfolded(c, h, key).Some?
    ensures var r := Grow(c.g, c.inp, fuel, c.mode(key.rule), key, key.pos, Fail, s);
            Grown(c, Own(key, false), s, r, Unfolded(c, h, key).value)
    decreases fuel, 2, |c.inp|
  {
    hide MemoSound, FramesKept, Above, Bounded, Grow, Peg.Peg, Parse;
    var body, skip := c.g.rules[key.rule].body, c.mode(key.rule);
    var a := Unfolded(c, h, key).value;
    var s1 := s.(pos := key.pos, evals := s.evals + 1);
    TickReady(c, h, s, s1);
    BodyFits(c, key.rule);
    SoundExpr(c, fuel, h, skip, body, false, s1);
    var r1 := Parse(c.g, c.inp, fuel, skip, body, s1);
    if r1.out.Ok? && r1.st.pos > key.pos && key in r1.st.memo {
      SecondReady(c, h, key, s1, r1, a);
      SoundExpr(c, fuel, h, skip, body, false, Again(c, key, r1));
    }
    TwoPass(c, fuel, key, NOTHING, s, a);
    assert NOTHING.(entries := {} + {key}) == Own(key, false);
  }

  lemma BodyFits(c: Setting, r: RuleId)
    requires WellFormed(c.g, c.mode) && r in c.g.rules && !IsPartner(c.g, r) && !IsLeftRec(c.g, r)
    requires Tame(c) ==> Quiet(c.g, r)
    ensures Fits(c, c.mode(r), c.g.rules[r].body) && CutsEnclosed(c.g.rules[r].body)
  {
    hide CutsEnclosed, Usable, UsableIn, FitPartner, NoCuts, Calm;
    if Tame(c) { QuietIsCalm(c.g, c.mode, r); }
  }

  lemma GoodTick(c: Setting, s: State, s1: State)
    requires Good(c.inp, s) && s1 == s.(pos := s1.pos, evals := s1.evals) && s1.pos <= |c.inp|
    ensures Good(c.inp, s1)
  {
  }

  lemma TickReady(c: Setting, h: nat, s: State, s1: State)
    requires Ready(c, h, s) && s1 == s.(pos := s1.pos, evals := s1.evals) && s1.pos <= |c.inp|
    ensures Ready(c, h, s1)
  {
    hide Above, WellFormed, EntrySound, EntryGood;
  }

  lemma SecondReady(c: Setting, h: nat, key: Key, s: State, r: Result, a: Answer)
    requires Ready(c, h, s) && Framed(c.inp, s, r) && Entered(c, key, s)
    requires Faithful(c, NOTHING, s, r, a) && r.out.Ok? && key in r.st.memo
    ensures Ready(c, h, Again(c, key, r)) && Again(c, key, r).pos == key.pos
  {
    hide Above, WellFormed, EntrySound;
  }

  /** The same memo but for the entry of `key`, the same rules in progress, heads and failures. */
  ghost predicate SameBut(key: Key, s: State, s': State) {
    && s'.lr == s.lr && s'.heads == s.heads && s'.failures == s.failures
    && s'.memo.Keys == s.memo.Keys && forall k | k in s.memo && k != key :: s'.memo[k] == s.memo[k]
  }

  /** A body that is answered twice in the same way is grown to that answer. */
  lemma TwoPass(c: Setting, fuel: nat, key: Key, x: Exempt, s: State, a: Answer)
    requires Sound(c, s) && Entered(c, key, s) && key !in x.heads && (a.out.Yes? ==> key.pos <= a.out.end <= |c.inp|)
    requires var s1 := s.(pos := key.pos, evals := s.evals + 1);
             var body := c.g.rules[key.rule].body;
             var r1 := Parse(c.g, c.inp, fuel, c.mode(key.rule), body, s1);
             && Faithful(c, x, s1, r1, a) && (r1.out.Normal() ==> r1.st.scope == s.scope)
             && (r1.out.Ok? && r1.st.pos > key.pos && key in r1.st.memo ==>
                  var r2 := Parse(c.g, c.inp, fuel, c.mode(key.rule), body, Again(c, key, r1));
                  Faithful(c, x, Again(c, key, r1), r2, a)
                      && (r2.out.Normal() ==> r2.st.scope == Again(c, key, r1).scope))
    ensures var r := Grow(c.g, c.inp, fuel, c.mode(key.rule), key, key.pos, Fail, s);
            && Grown(c, x.(entries := x.entries + {key}), s, r, a)
            && (r.out.Normal() ==>
                  var body := c.g.rules[key.rule].body;
                  var r1 := Parse(c.g, c.inp, fuel, c.mode(key.rule), body,
                      s.(pos := key.pos, evals := s.evals + 1));
                  || SameBut(key, r1.st, r.st)
                  || (&& r1.out.Ok? && r1.st.pos > key.pos && key in r1.st.memo
                      && SameBut(key, Parse(c.g, c.inp, fuel, c.mode(key.rule), body, Again(c, key, r1)).st, r.st)))
  {
    hide MemoSound, FramesKept, Bounded, Parse, EntrySound;
    var y := x.(entries := x.entries + {key});
    var s1 := s.(pos := key.pos, evals := s.evals + 1);
    var s2 := s.(evals := s.evals + 2);
    GoodTick(c, s, s1);
    var r1 := Parse(c.g, c.inp, fuel, c.mode(key.rule), c.g.rules[key.rule].body, s1);
    if r1.out.Normal() {
      MovesWeaken(c, x, y, s1, r1.st, a.evs);
      MovesPaid(c, y, s1, r1.st, a.evs, 1);
      assert s1.(evals := s1.evals + 1) == s2;
    }
    if r1.out.Fail? {
      MovesOn(c, y, s2, r1.st, r1.st.(pos := key.pos), a.evs);
    } else if r1.out.Ok? && r1.st.pos == key.pos {
      MovesThenWrite(c, y, key, Entry(true, key.pos, r1.out.tree), s2, r1.st,
          Settle(c.inp, key, key.pos, r1.out, r1.st).st, a.evs);
    } else if r1.out.Ok? && key in r1.st.memo {
      AgainIs(c, key, x, s1, r1, a.evs);
      var s3 := Again(c, key, r1);
      MovesThenWrite(c, y, key, s3.memo[key], s2, r1.st.(evals := r1.st.evals + 1), s3, a.evs);
      var r2 := Parse(c.g, c.inp, fuel, c.mode(key.rule), c.g.rules[key.rule].body, s3);
      assert r2.out.Ok? && r2.st.pos == r1.st.pos;
      MovesWeaken(c, x, y, s3, r2.st, a.evs);
      HeadsGrow(c, x, s3, r2.st, a.evs);
      MovesTrans(c, y, s2, s3, r2.st, a.evs, a.evs);
      assert a.evs + a.evs == a.evs;
      MovesThenWrite(c, y, key, Entry(true, r1.st.pos, r1.out.tree), s2, r2.st,
          Settle(c.inp, key, r1.st.pos, r1.out, r2.st).st, a.evs);
    }
  }

  lemma HeadsGrow(c: Setting, x: Exempt, s: State, s1: State, evs: set<Failure>)
    requires Moves(c, x, s, s1, evs)
    ensures s.heads <= s1.heads
  {
  }

  lemma MovesThenWrite(c: Setting, x: Exempt, key: Key, e: Entry, s: State, s1: State, s2: State, evs: set<Failure>)
    requires Moves(c, x, s, s1, evs) && key in s.lr && key in x.entries && Good(c.inp, s2)
    requires s2.memo == Update(s1.memo, key, e) && s2.lr == s1.lr && s2.heads == s1.heads
    requires s2.failures == s1.failures && s2.evals == s1.evals
    ensures Moves(c, x, s, s2, evs)
  {
    hide MemoSound, FramesKept, Bounded;
    MovesWrite(c, x, key, e, s1, s2);
    MovesTrans(c, x, s, s1, s2, evs, {});
    assert evs + {} == evs;
  }

  /** A rule that was not re-entered starts its second pass without clearing siblings. */
  lemma AgainIs(c: Setting, key: Key, x: Exempt, s: State, r: Result, evs: set<Failure>)
    requires Entered(c, key, s) && key !in x.heads && Moves(c, x, s, r.st, evs) && Framed(c.inp, s, r)
    requires r.out.Ok? && key in r.st.memo
    ensures Again(c, key, r) == r.st.(
      pos := key.pos, evals := r.st.evals + 1, memo := r.st.memo[key := Entry(true, r.st.pos, r.out.tree)])
  {
    hide MemoSound;
  }

  // ---- left recursion ---------------------------------------------------------------------------

  /** The rule of `key` is under evaluation, and its entry is the current seed. */
  ghost predicate Seeded(c: Setting, key: Key, seed: Option<nat>, s: State) {
    && key in s.lr && key in s.memo && Good(c.inp, s) && key.pos <= |c.inp|
    && IsLeftRec(c.g, key.rule) && !IsPartner(c.g, key.rule) && Tame(c)
    && (if seed.Some? then s.memo[key].ok && s.memo[key].end == seed.value && key.pos < seed.value <= |c.inp|
        else !s.memo[key].ok)
  }

  /** And it is the innermost. */
  ghost predicate OnTop(c: Setting, key: Key, seed: Option<nat>, s: State) {
    Seeded(c, key, seed, s) && s.lr[|s.lr| - 1] == key
  }

  /** From every seed, a step over `e` has the answer `a`, within h or deeper. */
  ghost predicate EvenIn(c: Setting, h: nat, key: Key, e: Expr, a: Answer) {
    forall seed: Option<nat> | SeedAt(c, key, seed) :: EvenFrom(c, h, key, e, seed, a)
  }

  ghost predicate EvenFrom(c: Setting, h: nat, key: Key, e: Expr, seed: Option<nat>, a: Answer)
    requires SeedAt(c, key, seed)
  {
    exists d: nat :: h <= d && PegIn(c.g, c.inp, d, c.mode(key.rule), key.rule, e, key.pos, seed) == Some(a)
  }

  /** The entry of a partner is its answer from every seed. */
  ghost predicate PartEven(c: Setting, key: Key, m: RuleId, e: Entry, failures: set<Failure>) {
    exists a: Answer :: EvenIn(c, 0, key, Rule(m), a) && Agrees(e, a.out) && a.evs <= failures
  }

  /** No partner is under evaluation, and those with an entry have re-entered the rule of `key` or do not depend on
      its seed. */
  ghost predicate PartnersDone(c: Setting, key: Key, s: State) {
    forall x | IsPartner(c.g, x) && Owner(c.g, x) == key.rule ::
      && Key(key.pos, x) !in s.lr
      && (Key(key.pos, x) in s.memo ==>
            |s.lr| - 1 in s.heads || PartEven(c, key, x, s.memo[Key(key.pos, x)], s.failures))
  }

  /** What one step of the growth of `key` may touch. */
  function Step(key: Key): Exempt { Exempt({key}, {}, {key}) }

  lemma {:induction false} SoundGrow(c: Setting, fuel: nat, h: nat, key: Key, seed: Option<nat>, best: Outcome,
      s: State)
    requires Ready(c, h, s) && h <= fuel && OnTop(c, key, seed, s) && PartnersDone(c, key, s)
    requires seed.None? ==> PartnersAbsent(c, key, s)
    requires best.Normal() && TreeIn(s.arena, if best.Ok? then best.tree else None) && (seed.Some? <==> best.Ok?)
    requires PegGrow(c.g, c.inp, h, c.mode(key.rule), key.rule, key.pos, seed).Some?
    ensures var r := Grow(c.g, c.inp, fuel, c.mode(key.rule), key, if seed.Some? then seed.value else key.pos, best, s);
            var a := PegGrow(c.g, c.inp, h, c.mode(key.rule), key.rule, key.pos, seed).value;
            && Faithful(c, Own(key, true), s, r, a)
            && (r.out.Normal() ==> r.st.scope == s.scope && PartsHold(c, key, Final(key, a.out), r.st))
    decreases fuel, 4, |c.inp| - (if seed.Some? then seed.value else key.pos)
  {
    hide MemoSound, FramesKept, Above, Bounded, Parse, PegIn, WellFormed, PartnersAbsent, PartnersDone, PartsSound,
        PartsBusy, PartsHold;
    var x, last := Own(key, true), if seed.Some? then seed.value else key.pos;
    var s1 := Restart(c.inp, key, best, s);
    RestartReady(c, h, key, seed, best, s);
    SoundStep(c, fuel, h, key, seed, s1);
    var body := c.g.rules[key.rule].body;
    var a := PegIn(c.g, c.inp, h, c.mode(key.rule), key.rule, body, key.pos, seed).value;
    var r := Parse(c.g, c.inp, fuel, c.mode(key.rule), body, s1);
    FaithfulWeaken(c, Step(key), x, s1, r, a);
    Chain(c, x, s, s1, r, {}, a);
    assert {} + a.evs == a.evs;
    if r.out.Fail? {
      MovesOn(c, x, s, r.st, r.st.(pos := last), a.evs);
      HoldOn(c, key, seed, r.st, r.st.(pos := last));
    } else if r.out.Ok? && r.st.pos > last {
      var s2 := r.st.(memo := r.st.memo[key := Entry(true, r.st.pos, r.out.tree)]);
      NextSeed(c, h, key, seed, s1, r, a);
      MovesThenWrite(c, x, key, s2.memo[key], s, r.st, s2, a.evs);
      SoundGrow(c, fuel, h, key, Some(r.st.pos), r.out, s2);
      Chain(c, x, s, s2, Grow(c.g, c.inp, fuel, c.mode(key.rule), key, r.st.pos, r.out, s2), a.evs,
            PegGrow(c.g, c.inp, h, c.mode(key.rule), key.rule, key.pos, Some(r.st.pos)).value);
    } else if r.out.Ok? {
      var best' := if best.Ok? then best else r.out;
      MovesThenWrite(c, x, key, Entry(true, last, best'.tree), s, r.st, Settle(c.inp, key, last, best', r.st).st,
          a.evs);
      HoldOn(c, key, seed, r.st, Settle(c.inp, key, last, best', r.st).st);
    }
  }

  /** Writing the entry of the rule itself does not matter to its partners. */
  lemma HoldOn(c: Setting, key: Key, seed: Option<nat>, s: State, s1: State)
    requires SeedAt(c, key, seed) && PartsHold(c, key, seed, s) && !IsPartner(c.g, key.rule)
    requires s1.memo.Keys == s.memo.Keys && (forall k | k in s.memo && k != key :: s1.memo[k] == s.memo[k])
    requires s1.failures == s.failures
    ensures PartsHold(c, key, seed, s1)
  {
    hide PartSound;
  }

  /** The state in which the next iteration runs: the seed is published and the partners are cleared. */
  lemma RestartReady(c: Setting, h: nat, key: Key, seed: Option<nat>, best: Outcome, s: State)
    requires Ready(c, h, s) && OnTop(c, key, seed, s) && PartnersDone(c, key, s)
    requires seed.None? ==> PartnersAbsent(c, key, s)
    requires best.Normal() && (seed.Some? <==> best.Ok?)
    ensures var s1 := Restart(c.inp, key, best, s);
            && OnTop(c, key, seed, s1) && Growing(c, h, key, seed, s1)
            && (forall x | IsPartner(c.g, x) && Owner(c.g, x) == key.rule :: Key(key.pos, x) !in s1.lr)
            && Moves(c, Own(key, true), s, s1, {}) && s1.scope == s.scope && s1.pos == key.pos
  {
    hide Above, WellFormed, EntrySound, FramesKept, Bounded, Owned, PartnersDone, PartsSound, PartsBusy, PartnersEven;
    NoLeftRecHere(c, key);
    RestartOwned(c, key, best, s);
    RestartKept(c, key, seed, best, s);
    RestartDone(c, key, seed, best, s);
    PartsStart(c, h, key, seed, Restart(c.inp, key, best, s));
  }

  lemma RestartOwned(c: Setting, key: Key, best: Outcome, s: State)
    requires Good(c.inp, s) && s.lr != [] && key.pos <= |c.inp| && Owned(c, s) && !IsPartner(c.g, key.rule)
    requires s.lr[|s.lr| - 1] == key
    ensures Owned(c, Restart(c.inp, key, best, s))
  {
    hide Bounded;
  }

  lemma RestartKept(c: Setting, key: Key, seed: Option<nat>, best: Outcome, s: State)
    requires OnTop(c, key, seed, s) && !NoLeftRec(c.g)
    ensures FramesKept(c, Own(key, true), s, Restart(c.inp, key, best, s))
  {
    hide Bounded, NoLeftRec, IsLeftRec, NoCuts;
  }

  /** What is left of the partners does not depend on the seed. */
  ghost predicate PartnersEven(c: Setting, key: Key, s: State) {
    forall x | IsPartner(c.g, x) && Owner(c.g, x) == key.rule ::
      && Key(key.pos, x) !in s.lr
      && (Key(key.pos, x) in s.memo ==> PartEven(c, key, x, s.memo[Key(key.pos, x)], s.failures))
  }

  lemma RestartDone(c: Setting, key: Key, seed: Option<nat>, best: Outcome, s: State)
    requires OnTop(c, key, seed, s) && PartnersDone(c, key, s) && (seed.Some? <==> best.Ok?)
    requires seed.None? ==> PartnersAbsent(c, key, s)
    ensures PartnersEven(c, key, Restart(c.inp, key, best, s))
  {
    hide Bounded, IsLeftRec, PartEven;
  }

  lemma PartsStart(c: Setting, h: nat, key: Key, seed: Option<nat>, s: State)
    requires PartnersEven(c, key, s) && SeedAt(c, key, seed)
    ensures PartsSound(c, key, seed, s) && PartsBusy(c, h, key, seed, s)
    ensures forall x | IsPartner(c.g, x) && Owner(c.g, x) == key.rule :: Key(key.pos, x) !in s.lr
  {
    hide PartMeans, EvenFrom;
    forall m | Serves(c.g, m, key.rule) && Key(key.pos, m) in s.memo && Key(key.pos, m) !in s.lr
      ensures PartSound(c, key, seed, m, s.memo[Key(key.pos, m)], s.failures)
    {
      EvenIsSound(c, key, seed, m, s.memo[Key(key.pos, m)], s.failures);
    }
  }

  /** What does not depend on the seed is sound for each. */
  lemma EvenIsSound(c: Setting, key: Key, seed: Option<nat>, m: RuleId, e: Entry, failures: set<Failure>)
    requires PartEven(c, key, m, e, failures) && SeedAt(c, key, seed)
    ensures PartSound(c, key, seed, m, e, failures)
  {
    hide PegIn;
    var a: Answer :| EvenIn(c, 0, key, Rule(m), a) && Agrees(e, a.out) && a.evs <= failures;
    assert EvenFrom(c, 0, key, Rule(m), seed, a);
    var d: nat :| 0 <= d && PegIn(c.g, c.inp, d, c.mode(key.rule), key.rule, Rule(m), key.pos, seed) == Some(a);
    assert PartIs(c, d, key, seed, m, e, failures);
  }

  lemma SamePart(c: Setting, k: nat, k': nat, key: Key, seed: Option<nat>, m: RuleId)
    requires SeedAt(c, key, seed)
    requires PartMeans(c, k, key, seed, m).Some? && PartMeans(c, k', key, seed, m).Some?
    ensures PartMeans(c, k, key, seed, m) == PartMeans(c, k', key, seed, m)
  {
    hide PartMeans;
    if k <= k' { PartDeeper(c, k, k', key, seed, m); } else { PartDeeper(c, k', k, key, seed, m); }
  }

  lemma NoLeftRecHere(c: Setting, key: Key)
    requires WellFormed(c.g, c.mode) && IsLeftRec(c.g, key.rule) && !IsPartner(c.g, key.rule)
    ensures !NoLeftRec(c.g)
    ensures UsableIn(c.g, c.mode, key.rule, c.g.rules[key.rule].body) && Calm(c.g, c.g.rules[key.rule].body)
  {
    hide CutsEnclosed, Usable, UsableIn, FitPartner, NoCuts, Calm;
    QuietIsCalm(c.g, c.mode, key.rule);
  }

  /** The state after a step that got further. */
  lemma NextSeed(c: Setting, h: nat, key: Key, seed: Option<nat>, s: State, r: Result, a: Answer)
    requires Ready(c, h, s) && OnTop(c, key, seed, s)
    requires Faithful(c, Step(key), s, r, a) && r.out.Ok? && PartnersDone(c, key, r.st)
    requires Framed(c.inp, s, r) && s.pos == key.pos < r.st.pos
    ensures key in r.st.memo
    ensures var s2 := r.st.(memo := r.st.memo[key := Entry(true, r.st.pos, r.out.tree)]);
            Ready(c, h, s2) && OnTop(c, key, Some(r.st.pos), s2) && PartnersDone(c, key, s2)
  {
    hide Above, WellFormed, EntrySound, PartEven, Bounded, Owned, CalmSkip, Tame;
    assert key in r.st.memo by { SeedStays(c, key, seed, s, r.st, a.evs); }
    var s2 := r.st.(memo := r.st.memo[key := Entry(true, r.st.pos, r.out.tree)]);
    SeedGood(c.inp, r.st, key, Entry(true, r.st.pos, r.out.tree));
    AgainSound(c, key, r, s2);
  }

  lemma SeedStays(c: Setting, key: Key, seed: Option<nat>, s: State, s1: State, evs: set<Failure>)
    requires Seeded(c, key, seed, s) && Moves(c, Step(key), s, s1, evs)
    ensures key in s1.memo && s1.memo[key] == s.memo[key]
  {
    hide Sound, Tame;
  }

  // ---- one step of the growth -------------------------------------------------------------------

  /** The rule of `key` was re-entered. */
  ghost predicate Marked(key: Key, s: State) {
    TopFrame(s.lr, key).Some? && TopFrame(s.lr, key).value in s.heads
  }

  /** The entry of a partner that is done agrees with the current seed, and the rule of `key` is marked unless it agrees
      with every other seed as well. */
  ghost predicate PartsSound(c: Setting, key: Key, seed: Option<nat>, s: State)
    requires SeedAt(c, key, seed)
  {
    forall m | Serves(c.g, m, key.rule) && Key(key.pos, m) in s.memo && Key(key.pos, m) !in s.lr ::
      && PartSound(c, key, seed, m, s.memo[Key(key.pos, m)], s.failures)
      && (Marked(key, s) || PartEven(c, key, m, s.memo[Key(key.pos, m)], s.failures))
  }

  /** A partner under evaluation has no answer within depth h. */
  ghost predicate PartsBusy(c: Setting, h: nat, key: Key, seed: Option<nat>, s: State)
    requires SeedAt(c, key, seed)
  {
    forall m | Serves(c.g, m, key.rule) && Key(key.pos, m) in s.lr :: PartMeans(c, h, key, seed, m).None?
  }

  /** The state in which the start of the body, or of a partner's, is evaluated. */
  ghost predicate Growing(c: Setting, h: nat, key: Key, seed: Option<nat>, s: State) {
    && Ready(c, h, s) && Seeded(c, key, seed, s) && s.pos == key.pos
    && PartsSound(c, key, seed, s) && PartsBusy(c, h, key, seed, s)
  }

  /** `e` may stand at the start of the body of the rule of `key`. */
  ghost predicate FitsIn(c: Setting, key: Key, e: Expr) {
    UsableIn(c.g, c.mode, key.rule, e) && Calm(c.g, e)
  }

  /** What a step achieves; `even` holds unless it marked the rule. */
  ghost predicate Stepped(c: Setting, key: Key, seed: Option<nat>, even: bool, s: State, r: Result, a: Answer)
    requires SeedAt(c, key, seed)
  {
    && Faithful(c, Step(key), s, r, a)
    && (r.out.Normal() ==>
          r.st.scope == s.scope && PartsSound(c, key, seed, r.st) && (Marked(key, r.st) || even))
  }

  /** Nothing changed that a step depends on. */
  lemma GrowingOn(c: Setting, h: nat, key: Key, seed: Option<nat>, s: State, s': State)
    requires Growing(c, h, key, seed, s) && Good(c.inp, s') && s'.pos == key.pos
    requires s'.memo == s.memo && s'.lr == s.lr && s'.heads == s.heads && s'.failures == s.failures
    ensures Growing(c, h, key, seed, s')
  {
    hide WellFormed, Means, PartMeans, TopFrame, Bounded, PartEven;
  }

  /** A step leaves the seed where it is, so another may follow. */
  lemma StillGrowing(c: Setting, h: nat, key: Key, seed: Option<nat>, s: State, s1: State, evs: set<Failure>)
    requires Growing(c, h, key, seed, s) && Moves(c, Step(key), s, s1, evs) && PartsSound(c, key, seed, s1)
    ensures Seeded(c, key, seed, s1) && Ready(c, h, s1)
    ensures s1.pos == key.pos ==> Growing(c, h, key, seed, s1)
  {
    hide WellFormed, Means, PartMeans, TopFrame, Bounded, EntriesSound, Owned, PartEven;
    NoLeftRecHere(c, key);
  }

  /** What touches no partner keeps their entries sound. */
  lemma PartsStay(c: Setting, x: Exempt, key: Key, seed: Option<nat>, s: State, s1: State, evs: set<Failure>)
    requires SeedAt(c, key, seed)
    requires PartsSound(c, key, seed, s) && Moves(c, x, s, s1, evs) && key !in x.partners && key in s.lr
    ensures PartsSound(c, key, seed, s1) && (Marked(key, s) ==> Marked(key, s1))
  {
    hide MemoSound, PartSound, TopFrame, Bounded, EntriesKept, WorkPaid, EvenIn, SettledKept;
    forall m | Serves(c.g, m, key.rule) && Key(key.pos, m) in s1.memo && Key(key.pos, m) !in s1.lr
      ensures PartSound(c, key, seed, m, s1.memo[Key(key.pos, m)], s1.failures)
    {
      PartMore(c, key, seed, m, s.memo[Key(key.pos, m)], s.failures, s1.failures);
    }
  }

  lemma {:induction false} SoundStep(c: Setting, fuel: nat, h: nat, key: Key, seed: Option<nat>, s: State)
    requires Growing(c, h, key, seed, s) && h <= fuel && OnTop(c, key, seed, s)
    requires forall x | IsPartner(c.g, x) && Owner(c.g, x) == key.rule :: Key(key.pos, x) !in s.lr
    requires PegIn(c.g, c.inp, h, c.mode(key.rule), key.rule, c.g.rules[key.rule].body, key.pos, seed).Some?
    ensures var body := c.g.rules[key.rule].body;
            var r := Parse(c.g, c.inp, fuel, c.mode(key.rule), body, s);
            && Faithful(c, Step(key), s, r, PegIn(c.g, c.inp, h, c.mode(key.rule), key.rule, body, key.pos, seed).value)
            && (r.out.Normal() ==>
                  r.st.scope == s.scope && PartnersDone(c, key, r.st) && PartsHold(c, key, seed, r.st))
    decreases fuel, 3, 0
  {
    hide FramesKept, Above, Bounded, Parse, PegIn, WellFormed, EntriesSound, PartSound, PartEven;
    NoLeftRecHere(c, key);
    SoundIn(c, fuel, h, key, seed, c.g.rules[key.rule].body, s);
    var r := Parse(c.g, c.inp, fuel, c.mode(key.rule), c.g.rules[key.rule].body, s);
    if r.out.Normal() {
      assert TopFrame(s.lr, key) == Some(|s.lr| - 1);
    }
  }

  lemma {:induction false} SoundIn(c: Setting, fuel: nat, h: nat, key: Key, seed: Option<nat>, e: Expr, s: State)
    requires Growing(c, h, key, seed, s) && h <= fuel && FitsIn(c, key, e)
    requires PegIn(c.g, c.inp, h, c.mode(key.rule), key.rule, e, key.pos, seed).Some?
    ensures var a := PegIn(c.g, c.inp, h, c.mode(key.rule), key.rule, e, key.pos, seed).value;
            Stepped(c, key, seed, EvenIn(c, h, key, e, a), s, Parse(c.g, c.inp, fuel, c.mode(key.rule), e, s), a)
    decreases fuel, 2, e
  {
    hide Growing, Stepped, EvenIn, Above, Bounded, SeqFrom, AltFrom, RepFrom, Call, PegSeq, PegInAlt, Peg.Peg;
    match e
    case Rule(m) =>
      if m == key.rule { SoundReenter(c, fuel, h, key, seed, e, s); }
      else if Serves(c.g, m, key.rule) { SoundPartner(c, fuel, h, key, m, seed, s); }
      else { SoundBase(c, fuel, h, key, seed, e, s); }
    case Alt(_) => SoundInAltExpr(c, fuel, h, key, seed, e, s);
    case Seq(es) => if es == [] { SoundBase(c, fuel, h, key, seed, e, s); }
        else { SoundInSeq(c, fuel, h, key, seed, e, s); }
    case _ => SoundBase(c, fuel, h, key, seed, e, s);
  }

  /** What enters neither the rule nor a partner. */
  lemma {:induction false} SoundBase(c: Setting, fuel: nat, h: nat, key: Key, seed: Option<nat>, e: Expr, s: State)
    requires Growing(c, h, key, seed, s) && h <= fuel && Usable(c.g, c.mode, c.mode(key.rule), e) && Calm(c.g, e)
    requires Peg.Peg(c.g, c.inp, h, c.mode(key.rule), e, key.pos, false).Some?
    requires !(e.Rule? && (e.rule == key.rule || Serves(c.g, e.rule, key.rule))) && !e.Alt? && (e.Seq? ==> e.es == [])
    ensures var a := Peg.Peg(c.g, c.inp, h, c.mode(key.rule), e, key.pos, false).value;
            Stepped(c, key, seed, EvenIn(c, h, key, e, a), s, Parse(c.g, c.inp, fuel, c.mode(key.rule), e, s), a)
    decreases fuel, 2, e, 0
  {
    hide MemoSound, FramesKept, Above, Bounded, Parse, Peg.Peg, WellFormed, PartsSound, PartsBusy, EvenIn;
    BaseEven(c, h, key, e);
    CalmIsEnclosed(c.g, e);
    SoundExpr(c, fuel, h, c.mode(key.rule), e, false, s);
    var r := Parse(c.g, c.inp, fuel, c.mode(key.rule), e, s);
    var a := Peg.Peg(c.g, c.inp, h, c.mode(key.rule), e, key.pos, false).value;
    FaithfulWeaken(c, NOTHING, Step(key), s, r, a);
    if r.out.Normal() { PartsStay(c, NOTHING, key, seed, s, r.st, a.evs); }
  }

  lemma BaseEven(c: Setting, h: nat, key: Key, e: Expr)
    requires !(e.Rule? && (e.rule == key.rule || Serves(c.g, e.rule, key.rule))) && !e.Alt? && (e.Seq? ==> e.es == [])
    requires key.pos <= |c.inp| && Peg.Peg(c.g, c.inp, h, c.mode(key.rule), e, key.pos, false).Some?
    ensures EvenIn(c, h, key, e, Peg.Peg(c.g, c.inp, h, c.mode(key.rule), e, key.pos, false).value)
  {
    hide Peg.Peg, Serves;
    var a := Peg.Peg(c.g, c.inp, h, c.mode(key.rule), e, key.pos, false);
    forall seed: Option<nat> | SeedAt(c, key, seed) ensures EvenFrom(c, h, key, e, seed, a.value) {
      assert PegIn(c.g, c.inp, h, c.mode(key.rule), key.rule, e, key.pos, seed) == a;
    }
  }

  /** The rule itself: it ends where the seed does, or fails while there is none, and becomes a head. */
  lemma SoundReenter(c: Setting, fuel: nat, h: nat, key: Key, seed: Option<nat>, e: Expr, s: State)
    requires Growing(c, h, key, seed, s)
    ensures var a := Answer(if seed.Some? then Yes(seed.value) else No, false, {});
            Stepped(c, key, seed, EvenIn(c, h, key, e, a), s,
                Call(c.g, c.inp, fuel, c.mode(key.rule), key.rule, s), a)
  {
    hide FramesKept, Above, WellFormed, EntrySound, PartSound, Bounded, EvenIn;
    var s1 := MarkHead(s, key).(pos := s.memo[key].end);
    SeedEnds(c, key, s);
    MovesMark(c, key, s, s1);
    assert Marked(key, s1);
    assert PartsSound(c, key, seed, s1);
  }

  lemma SeedEnds(c: Setting, key: Key, s: State)
    requires Good(c.inp, s) && key in s.memo
    ensures s.memo[key].end <= |c.inp| && (!s.memo[key].ok ==> s.memo[key].end == key.pos)
  {
    assert EntryGood(c.inp, s.arena, key, s.memo[key]);
  }

  /** Re-entering a rule under evaluation only marks its frame. */
  lemma MovesMark(c: Setting, key: Key, s: State, s1: State)
    requires Sound(c, s) && key in s.lr && key in s.memo
    requires s1 == MarkHead(s, key).(pos := s.memo[key].end)
    ensures s1.pos <= |c.inp| && Moves(c, Step(key), s, s1, {})
  {
    hide EntrySound, EntryGood, Owned;
    assert s.failures + {} == s.failures;
    SeedEnds(c, key, s);
    assert Sound(c, s1) by { hide FramesKept, TopFrame; assert Owned(c, s1) by { SameOwned(c, s, s1); } }
    assert FramesKept(c, Step(key), s, s1) by { hide MemoSound, Bounded; }
  }

  lemma SameOwned(c: Setting, s: State, s1: State)
    requires Owned(c, s) && s1.memo == s.memo && s1.lr == s.lr
    ensures Owned(c, s1)
  {
    hide IsPartner;
  }

  lemma {:induction false} SoundInAltExpr(c: Setting, fuel: nat, h: nat, key: Key, seed: Option<nat>, e: Expr, s: State)
    requires Growing(c, h, key, seed, s) && h <= fuel && FitsIn(c, key, e) && e.Alt?
    requires PegInAlt(c.g, c.inp, h, c.mode(key.rule), key.rule, e, 0, key.pos, seed).Some?
    ensures var a := PegInAlt(c.g, c.inp, h, c.mode(key.rule), key.rule, e, 0, key.pos, seed).value;
            Stepped(c, key, seed, EvenIn(c, h, key, e, a), s, Parse(c.g, c.inp, fuel, c.mode(key.rule), e, s), a)
    decreases fuel, 2, e, |e.es| + 1
  {
    hide MemoSound, FramesKept, Above, Bounded, AltFrom, PegInAlt, WellFormed, PartsBusy, PartSound, FitsIn, EvenIn,
        EvenAlt, PartEven;
    var s1 := OpenScope(s);
    MovesIdle(c, Step(key), s, s1);
    GrowingOn(c, h, key, seed, s, s1);
    SoundInAlt(c, fuel, h, key, seed, e, 0, s1);
    var r := AltFrom(c.g, c.inp, fuel, c.mode(key.rule), e, 0, s1);
    var a := PegInAlt(c.g, c.inp, h, c.mode(key.rule), key.rule, e, 0, key.pos, seed).value;
    Closed(c, Step(key), s, s1, r, a);
    if EvenAlt(c, h, key, e, 0, a) { AllEven(c, h, key, e, a); }
  }

  /** From every seed, a step over the branches of `e` from j on has the answer `a`. */
  ghost predicate EvenAlt(c: Setting, h: nat, key: Key, e: Expr, j: nat, a: Answer)
    requires e.Alt? && j <= |e.es|
  {
    forall seed: Option<nat> | SeedAt(c, key, seed) :: EvenAltFrom(c, h, key, e, j, seed, a)
  }

  ghost predicate EvenAltFrom(c: Setting, h: nat, key: Key, e: Expr, j: nat, seed: Option<nat>, a: Answer)
    requires SeedAt(c, key, seed) && e.Alt? && j <= |e.es|
  {
    exists d: nat :: h <= d && PegInAlt(c.g, c.inp, d, c.mode(key.rule), key.rule, e, j, key.pos, seed) == Some(a)
  }

  lemma AllEven(c: Setting, h: nat, key: Key, e: Expr, a: Answer)
    requires e.Alt? && EvenAlt(c, h, key, e, 0, a)
    ensures EvenIn(c, h, key, e, a)
  {
    hide PegInAlt;
    forall seed: Option<nat> | SeedAt(c, key, seed) ensures EvenFrom(c, h, key, e, seed, a) {
      assert EvenAltFrom(c, h, key, e, 0, seed, a);
      var d: nat :| h <= d && PegInAlt(c.g, c.inp, d, c.mode(key.rule), key.rule, e, 0, key.pos, seed) == Some(a);
      assert PegIn(c.g, c.inp, d, c.mode(key.rule), key.rule, e, key.pos, seed) == Some(a);
    }
  }

  lemma NoneEven(c: Setting, h: nat, key: Key, e: Expr)
    requires e.Alt?
    ensures EvenAlt(c, h, key, e, |e.es|, Answer(No, false, {}))
  {
    forall seed: Option<nat> | SeedAt(c, key, seed)
      ensures EvenAltFrom(c, h, key, e, |e.es|, seed, Answer(No, false, {}))
    {
      assert PegInAlt(c.g, c.inp, h, c.mode(key.rule), key.rule, e, |e.es|, key.pos, seed) ==
          Some(Answer(No, false, {}));
    }
  }

  /** A branch that does not fail. */
  lemma FirstEven(c: Setting, h: nat, key: Key, e: Expr, j: nat, a: Answer)
    requires e.Alt? && j < |e.es| && EvenIn(c, h, key, e.es[j], a) && !a.out.No?
    ensures EvenAlt(c, h, key, e, j, a)
  {
    hide PegIn;
    forall seed: Option<nat> | SeedAt(c, key, seed) ensures EvenAltFrom(c, h, key, e, j, seed, a) {
      assert EvenFrom(c, h, key, e.es[j], seed, a);
      var d: nat :| h <= d && PegIn(c.g, c.inp, d, c.mode(key.rule), key.rule, e.es[j], key.pos, seed) == Some(a);
      assert PegInAlt(c.g, c.inp, d, c.mode(key.rule), key.rule, e, j, key.pos, seed) == Some(a);
    }
  }

  /** A branch that fails, and the others. */
  lemma NextEven(c: Setting, h: nat, key: Key, e: Expr, j: nat, a: Answer, b: Answer)
    requires e.Alt? && j < |e.es| && EvenIn(c, h, key, e.es[j], a) && a.out.No? && EvenAlt(c, h, key, e, j + 1, b)
    ensures EvenAlt(c, h, key, e, j, b.After(a.evs))
  {
    hide PegIn;
    var skip, r := c.mode(key.rule), key.rule;
    forall seed: Option<nat> | SeedAt(c, key, seed) ensures EvenAltFrom(c, h, key, e, j, seed, b.After(a.evs)) {
      assert EvenFrom(c, h, key, e.es[j], seed, a) && EvenAltFrom(c, h, key, e, j + 1, seed, b);
      var d: nat :| h <= d && PegIn(c.g, c.inp, d, skip, r, e.es[j], key.pos, seed) == Some(a);
      var d': nat :| h <= d' && PegInAlt(c.g, c.inp, d', skip, r, e, j + 1, key.pos, seed) == Some(b);
      var m := if d <= d' then d' else d;
      Depth.DeeperIn(c.g, c.inp, d, m, skip, r, e.es[j], key.pos, seed);
      Depth.DeeperInAlt(c.g, c.inp, d', m, skip, r, e, j + 1, key.pos, seed);
      assert PegInAlt(c.g, c.inp, m, skip, r, e, j, key.pos, seed) == Some(b.After(a.evs));
    }
  }

  /** A first child that matches, and the rest of the sequence. */
  lemma RestEven(c: Setting, h: nat, key: Key, e: Expr, a: Answer, b: Answer)
    requires e.Seq? && e.es != [] && EvenIn(c, h, key, e.es[0], a)
    requires if a.out.Yes? then
               a.out.end <= |c.inp| && PegSeq(c.g, c.inp, h, c.mode(key.rule), e, 1, a.out.end, false).Some?
               && b == PegSeq(c.g, c.inp, h, c.mode(key.rule), e, 1, a.out.end, false).value.After(a.evs)
             else b == a
    ensures EvenIn(c, h, key, e, b)
  {
    hide PegIn, PegSeq;
    var skip, r := c.mode(key.rule), key.rule;
    forall seed: Option<nat> | SeedAt(c, key, seed) ensures EvenFrom(c, h, key, e, seed, b) {
      assert EvenFrom(c, h, key, e.es[0], seed, a);
      var d: nat :| h <= d && PegIn(c.g, c.inp, d, skip, r, e.es[0], key.pos, seed) == Some(a);
      if a.out.Yes? { Depth.DeeperSeq(c.g, c.inp, h, d, skip, e, 1, a.out.end, false); }
      InUnfolds(c, d, key, seed, e);
      assert PegIn(c.g, c.inp, d, skip, r, e, key.pos, seed) == Some(b);
    }
  }

  lemma {:induction false} SoundInAlt(c: Setting, fuel: nat, h: nat, key: Key, seed: Option<nat>, e: Expr, j: nat,
      s: State)
    requires Growing(c, h, key, seed, s) && h <= fuel && FitsIn(c, key, e) && e.Alt? && j <= |e.es|
    requires Flagged(s, false)
    requires PegInAlt(c.g, c.inp, h, c.mode(key.rule), key.rule, e, j, key.pos, seed).Some?
    ensures var a := PegInAlt(c.g, c.inp, h, c.mode(key.rule), key.rule, e, j, key.pos, seed).value;
            Stepped(c, key, seed, EvenAlt(c, h, key, e, j, a), s,
                AltFrom(c.g, c.inp, fuel, c.mode(key.rule), e, j, s), a)
    decreases fuel, 2, e, |e.es| - j
  {
    hide MemoSound, FramesKept, Above, Bounded, Parse, PegIn, WellFormed, PartSound, PartEven, Growing, EvenIn, EvenAlt;
    var skip := c.mode(key.rule);
    GrowingSound(c, h, key, seed, s);
    if j == |e.es| {
      MovesIdle(c, Step(key), s, s);
      NoneEven(c, h, key, e);
    } else {
      SoundIn(c, fuel, h, key, seed, e.es[j], s);
      var r := Parse(c.g, c.inp, fuel, skip, e.es[j], s);
      var a := PegIn(c.g, c.inp, h, skip, key.rule, e.es[j], key.pos, seed).value;
      if r.out.Ok? {
        MovesOn(c, Step(key), s, r.st, Stamp(r.st, r.out.tree, j), a.evs);
        if EvenIn(c, h, key, e.es[j], a) { FirstEven(c, h, key, e, j, a); }
      } else if r.out.Fail? {
        StillGrowing(c, h, key, seed, s, r.st, a.evs);
        SoundInAlt(c, fuel, h, key, seed, e, j + 1, r.st);
        var r1 := AltFrom(c.g, c.inp, fuel, skip, e, j + 1, r.st);
        var a1 := PegInAlt(c.g, c.inp, h, skip, key.rule, e, j + 1, key.pos, seed).value;
        Chain(c, Step(key), s, r.st, r1, a.evs, a1);
        if r1.out.Normal() { StaysMarked(c, Step(key), key, r.st, r1.st, a1.evs); }
        if EvenIn(c, h, key, e.es[j], a) && EvenAlt(c, h, key, e, j + 1, a1) { NextEven(c, h, key, e, j, a, a1); }
      }
    }
  }

  lemma GrowingSound(c: Setting, h: nat, key: Key, seed: Option<nat>, s: State)
    requires Growing(c, h, key, seed, s)
    ensures Sound(c, s) && key in s.lr && s.pos == key.pos <= |c.inp|
    ensures IsLeftRec(c.g, key.rule) && !IsPartner(c.g, key.rule)
    ensures (seed.Some? ==> key.pos < seed.value <= |c.inp|) && PartsSound(c, key, seed, s)
  {
    hide PartsSound;
  }

  lemma StaysMarked(c: Setting, x: Exempt, key: Key, s: State, s1: State, evs: set<Failure>)
    requires Moves(c, x, s, s1, evs)
    ensures Marked(key, s) ==> Marked(key, s1)
  {
    hide TopFrame;
    HeadsGrow(c, x, s, s1, evs);
  }

  /** A sequence: what it starts with, then the rest as anywhere else. */
  lemma {:induction false} SoundInSeq(c: Setting, fuel: nat, h: nat, key: Key, seed: Option<nat>, e: Expr, s: State)
    requires Growing(c, h, key, seed, s) && h <= fuel && FitsIn(c, key, e) && e.Seq? && e.es != []
    requires PegIn(c.g, c.inp, h, c.mode(key.rule), key.rule, e, key.pos, seed).Some?
    ensures var a := PegIn(c.g, c.inp, h, c.mode(key.rule), key.rule, e, key.pos, seed).value;
            Stepped(c, key, seed, EvenIn(c, h, key, e, a), s, Parse(c.g, c.inp, fuel, c.mode(key.rule), e, s), a)
    decreases fuel, 2, e, 0
  {
    hide MemoSound, FramesKept, Above, Bounded, Parse, PegIn, PegSeq, SeqFrom, WellFormed, PartSound, PartEven, Growing,
        Calm, UsableIn, EvenIn;
    var n, x, skip := |s.arena|, Step(key), c.mode(key.rule);
    var s1 := Alloc(s, s.pos, 0);
    GrowingSound(c, h, key, seed, s);
    OpenGood(c.inp, s);
    MovesIdle(c, x, s, s1);
    GrowingOn(c, h, key, seed, s, s1);
    RestFacts(c, key, e);
    InUnfolds(c, h, key, seed, e);
    SoundIn(c, fuel, h, key, seed, e.es[0], s1);
    var r1 := Parse(c.g, c.inp, fuel, skip, e.es[0], s1);
    var a1 := PegIn(c.g, c.inp, h, skip, key.rule, e.es[0], key.pos, seed).value;
    SeqUnfolds(c, fuel, skip, e, s);
    if EvenIn(c, h, key, e.es[0], a1) {
      RestEven(c, h, key, e, a1, PegIn(c.g, c.inp, h, skip, key.rule, e, key.pos, seed).value);
    }
    if r1.out.Ok? {
      var s2 := PushChild(r1.st, n, r1.out.tree);
      MovesOn(c, x, s1, r1.st, s2, a1.evs);
      StillGrowing(c, h, key, seed, s1, s2, a1.evs);
      SoundSeq(c, fuel, h, skip, e, 1, false, n, s2);
      var r2 := SeqFrom(c.g, c.inp, fuel, skip, e, 1, n, s2);
      var a2 := PegSeq(c.g, c.inp, h, skip, e, 1, s2.pos, false).value;
      if r2.out.Normal() { PartsStay(c, NOTHING, key, seed, s2, r2.st, a2.evs); }
      FaithfulWeaken(c, NOTHING, x, s2, r2, a2);
      Chain(c, x, s1, s2, r2, a1.evs, a2);
      Rewound(c, x, s, s1, r2, a2.After(a1.evs));
    } else {
      Rewound(c, x, s, s1, r1, a1);
    }
  }

  lemma RestFacts(c: Setting, key: Key, e: Expr)
    requires FitsIn(c, key, e) && e.Seq? && e.es != []
    ensures FitsIn(c, key, e.es[0])
    ensures RestFits(c, c.mode(key.rule), e, 1) && RestEnclosed(e, 1)
  {
    forall l | 1 <= l < |e.es| ensures CutsEnclosed(e.es[l]) { CalmIsEnclosed(c.g, e.es[l]); }
  }

  lemma InUnfolds(c: Setting, h: nat, key: Key, seed: Option<nat>, e: Expr)
    requires e.Seq? && e.es != [] && key.pos <= |c.inp| && (seed.Some? ==> key.pos < seed.value <= |c.inp|)
    ensures var skip := c.mode(key.rule);
            var a := PegIn(c.g, c.inp, h, skip, key.rule, e.es[0], key.pos, seed);
            PegIn(c.g, c.inp, h, skip, key.rule, e, key.pos, seed) ==
              if a.None? || !a.value.out.Yes? then a
              else Prefixed(a.value.evs, PegSeq(c.g, c.inp, h, skip, e, 1, a.value.out.end, false))
  {
  }

  lemma SeqUnfolds(c: Setting, fuel: nat, skip: bool, e: Expr, s: State)
    requires Good(c.inp, s) && e.Seq? && e.es != []
    ensures var s1 := Alloc(s, s.pos, 0);
            && Good(c.inp, s1)
            && var r1 := Parse(c.g, c.inp, fuel, skip, e.es[0], s1);
               && (r1.out.Ok? ==>
                     TreeIn(r1.st.arena, r1.out.tree) && Good(c.inp, PushChild(r1.st, |s.arena|, r1.out.tree)))
               && Parse(c.g, c.inp, fuel, skip, e, s) ==
                    var r := if r1.out.Ok? then
                               SeqFrom(c.g, c.inp, fuel, skip, e, 1, |s.arena|,
                                   PushChild(r1.st, |s.arena|, r1.out.tree))
                             else r1;
                    if r.out.Fail? then Result(Fail, r.st.(pos := s.pos)) else r
  {
    var s0 := Alloc(s, s.pos, 0);
    assert SeqFrom(c.g, c.inp, fuel, skip, e, 0, |s.arena|, s0) == SeqNext(c.g, c.inp, fuel, skip, e, 0, |s.arena|, s0);
  }

  // ---- partners ---------------------------------------------------------------------------------

  lemma PartDeeper(c: Setting, k: nat, k': nat, key: Key, seed: Option<nat>, m: RuleId)
    requires k <= k' && key.pos <= |c.inp| && (seed.Some? ==> key.pos < seed.value <= |c.inp|)
    requires PartMeans(c, k, key, seed, m).Some?
    ensures PartMeans(c, k', key, seed, m) == PartMeans(c, k, key, seed, m)
  {
    hide PegIn;
    Depth.DeeperIn(c.g, c.inp, k, k', c.mode(key.rule), key.rule, Rule(m), key.pos, seed);
  }

  /** The least depth at which a partner has its answer. */
  lemma {:induction false} LeastPart(c: Setting, h: nat, key: Key, seed: Option<nat>, m: RuleId) returns (d: nat)
    requires SeedAt(c, key, seed)
    requires Serves(c.g, m, key.rule) && PartMeans(c, h, key, seed, m).Some?
    ensures 0 < d <= h && PartMeans(c, d, key, seed, m) == PartMeans(c, h, key, seed, m)
    ensures PartMeans(c, d - 1, key, seed, m).None?
  {
    if PartMeans(c, h - 1, key, seed, m).None? {
      d := h;
    } else {
      PartDeeper(c, h - 1, h, key, seed, m);
      d := LeastPart(c, h - 1, key, seed, m);
    }
  }

  /** What well-formedness says of a partner. */
  lemma PartFacts(c: Setting, key: Key, m: RuleId)
    requires WellFormed(c.g, c.mode) && IsLeftRec(c.g, key.rule) && !IsPartner(c.g, key.rule)
    requires Serves(c.g, m, key.rule)
    ensures c.g.rules[m].recovery.None? && c.mode(m) == c.mode(key.rule)
    ensures FitsIn(c, key, c.g.rules[m].body)
  {
    hide CutsEnclosed, Usable, UsableIn, NoCuts, Calm;
    QuietIsCalm(c.g, c.mode, m);
  }

  /** A partner is its body, continued from the seed of the rule it serves. */
  lemma {:induction false} SoundPartner(c: Setting, fuel: nat, h: nat, key: Key, m: RuleId, seed: Option<nat>, s: State)
    requires Growing(c, h, key, seed, s) && h <= fuel && Serves(c.g, m, key.rule)
    requires PartMeans(c, h, key, seed, m).Some?
    ensures var a := PartMeans(c, h, key, seed, m).value;
            Stepped(c, key, seed, EvenIn(c, h, key, Rule(m), a), s,
                Call(c.g, c.inp, fuel, c.mode(key.rule), m, s), a)
    decreases fuel, 0, 1
  {
    hide MemoSound, FramesKept, Above, Bounded, Grow, PegIn, WellFormed, PartSound, Growing, Stepped, EvenIn, PartEven;
    var mkey, body := Key(key.pos, m), c.g.rules[m].body;
    GrowingSound(c, h, key, seed, s);
    PartIdle(c, h, key, m, seed, s);
    if mkey in s.memo {
      SoundPartHit(c, fuel, h, key, m, seed, s);
    } else {
      GrowingFacts(c, h, key, m, seed, s);
      var d := LeastPart(c, h, key, seed, m);
      EnterPartner(c, h, d, key, m, seed, s);
      PartUnfolds(c, d, key, m, seed);
      SoundPartBody(c, fuel - 1, d - 1, key, m, seed, Enter(s, mkey));
      var r := Grow(c.g, c.inp, fuel - 1, c.mode(m), mkey, mkey.pos, Fail, Enter(s, mkey));
      var b := PegIn(c.g, c.inp, d - 1, c.mode(key.rule), key.rule, body, key.pos, seed).value;
      var x := Exempt({key}, {mkey}, {key});
      if r.out.Normal() { PartHasNone(c, h, key, m, seed, s, x, r, b); }
      SoundFinish(c, h, x, Step(key), mkey, s, r, b);
      var f := Finish(c.g.rules[m], c.inp, mkey, Enter(s, mkey), r);
      assert Call(c.g, c.inp, fuel, c.mode(key.rule), m, s) == f;
      if EvenIn(c, d - 1, key, body, b) { PartnerEven(c, d, h, key, m, b, PartMeans(c, h, key, seed, m).value); }
      if f.out.Normal() { PartLeft(c, h, key, m, seed, s, r, f); }
      AllStepped(c, h, key, seed, m, s, f, PartMeans(c, h, key, seed, m).value);
    }
  }

  /** A partner has no partners. */
  lemma PartHasNone(c: Setting, h: nat, key: Key, m: RuleId, seed: Option<nat>, s: State, x: Exempt, r: Result,
      b: Answer)
    requires Growing(c, h, key, seed, s) && Serves(c.g, m, key.rule)
    requires Grown(c, x, Enter(s, Key(key.pos, m)), r, b) && r.out.Normal()
    ensures PartnersSettled(c, Key(key.pos, m), r.st)
  {
    hide FramesKept, EntriesSound, Above, PartsSound, PartsBusy, WellFormed, SettledAt, Bounded;
    forall y | IsPartner(c.g, y) && y in c.g.rules ensures !IsPartner(c.g, Owner(c.g, y)) {
      OwnerIsNoPartner(c, y);
    }
  }

  lemma OwnerIsNoPartner(c: Setting, m: RuleId)
    requires WellFormed(c.g, c.mode) && IsPartner(c.g, m) && m in c.g.rules
    ensures !IsPartner(c.g, Owner(c.g, m))
  {
    hide NoCuts, CutsEnclosed, Usable, UsableIn, Calm;
    assert FitPartner(c.g, c.mode, m);
  }

  lemma AllStepped(c: Setting, h: nat, key: Key, seed: Option<nat>, m: RuleId, s: State, r: Result, a: Answer)
    requires SeedAt(c, key, seed) && Faithful(c, Step(key), s, r, a)
    requires r.out.Normal() ==>
               && r.st.scope == s.scope && PartsSound(c, key, seed, r.st)
               && (Marked(key, r.st) || EvenIn(c, h, key, Rule(m), a))
    ensures Stepped(c, key, seed, EvenIn(c, h, key, Rule(m), a), s, r, a)
  {
    hide Faithful, PartsSound, Marked, EvenIn;
  }

  /** A partner whose body does not depend on the seed. */
  lemma PartnerEven(c: Setting, d: nat, h: nat, key: Key, m: RuleId, b: Answer, a: Answer)
    requires Serves(c.g, m, key.rule) && 0 < d <= h && EvenIn(c, d - 1, key, c.g.rules[m].body, b)
    requires Some(a) == Reported(c.g.rules[m], key.pos, Some(b))
    ensures EvenIn(c, h, key, Rule(m), a)
  {
    hide PegIn;
    var body := c.g.rules[m].body;
    forall seed: Option<nat> | SeedAt(c, key, seed) ensures EvenFrom(c, h, key, Rule(m), seed, a) {
      assert EvenFrom(c, d - 1, key, body, seed, b);
      var k: nat :| d - 1 <= k && PegIn(c.g, c.inp, k, c.mode(key.rule), key.rule, body, key.pos, seed) == Some(b);
      PartUnfolds(c, k + 1, key, m, seed);
      PartDeeper(c, k + 1, if h <= k + 1 then k + 1 else h, key, seed, m);
    }
  }

  /** A partner that has an answer is not under evaluation. */
  lemma PartIdle(c: Setting, h: nat, key: Key, m: RuleId, seed: Option<nat>, s: State)
    requires Growing(c, h, key, seed, s) && Serves(c.g, m, key.rule) && PartMeans(c, h, key, seed, m).Some?
    ensures Key(key.pos, m) !in s.lr && s.pos <= |c.inp|
  {
    hide PartMeans, Ready, PartsSound;
  }

  lemma GrowingFacts(c: Setting, h: nat, key: Key, m: RuleId, seed: Option<nat>, s: State)
    requires Growing(c, h, key, seed, s) && Serves(c.g, m, key.rule)
    ensures c.g.rules[m].recovery.None? && c.mode(m) == c.mode(key.rule)
    ensures FitsIn(c, key, c.g.rules[m].body)
  {
    hide Sound, PartsSound, PartsBusy, WellFormed;
    PartFacts(c, key, m);
  }

  lemma PartUnfolds(c: Setting, d: nat, key: Key, m: RuleId, seed: Option<nat>)
    requires key.pos <= |c.inp| && (seed.Some? ==> key.pos < seed.value <= |c.inp|) && Serves(c.g, m, key.rule) && d > 0
    ensures PartMeans(c, d, key, seed, m) == Reported(c.g.rules[m], key.pos,
        PegIn(c.g, c.inp, d - 1, c.mode(key.rule), key.rule, c.g.rules[m].body, key.pos, seed))
  {
  }

  lemma SoundPartHit(c: Setting, fuel: nat, h: nat, key: Key, m: RuleId, seed: Option<nat>, s: State)
    requires Growing(c, h, key, seed, s) && Serves(c.g, m, key.rule) && PartMeans(c, h, key, seed, m).Some?
    requires Key(key.pos, m) in s.memo && Key(key.pos, m) !in s.lr
    ensures var a := PartMeans(c, h, key, seed, m).value;
            Stepped(c, key, seed, EvenIn(c, h, key, Rule(m), a), s,
                Call(c.g, c.inp, fuel, c.mode(key.rule), m, s), a)
  {
    hide FramesKept, PartMeans, Bounded, WellFormed, EntrySound, EvenIn, PartSound;
    var mkey := Key(key.pos, m);
    var a := PartMeans(c, h, key, seed, m).value;
    SeedEnds(c, mkey, s);
    PartIsAnswer(c, h, key, m, seed, s.memo[mkey], s.failures);
    if !Marked(key, s) { HitEven(c, h, key, m, seed, s.memo[mkey], s.failures); }
    MovesIdle(c, Step(key), s, s.(pos := s.memo[mkey].end));
    assert s.failures + a.evs == s.failures + {};
  }

  lemma PartIsAnswer(c: Setting, h: nat, key: Key, m: RuleId, seed: Option<nat>, e: Entry, failures: set<Failure>)
    requires SeedAt(c, key, seed) && PartSound(c, key, seed, m, e, failures) && PartMeans(c, h, key, seed, m).Some?
    ensures PartIs(c, h, key, seed, m, e, failures)
  {
    hide PartMeans;
    var k: nat :| PartIs(c, k, key, seed, m, e, failures);
    SamePart(c, k, h, key, seed, m);
  }

  /** An entry that does not depend on the seed is the answer from each. */
  lemma HitEven(c: Setting, h: nat, key: Key, m: RuleId, seed: Option<nat>, e: Entry, failures: set<Failure>)
    requires SeedAt(c, key, seed) && PartEven(c, key, m, e, failures) && PartMeans(c, h, key, seed, m).Some?
    ensures EvenIn(c, h, key, Rule(m), PartMeans(c, h, key, seed, m).value)
  {
    hide PegIn;
    var a: Answer :| EvenIn(c, 0, key, Rule(m), a);
    assert EvenFrom(c, 0, key, Rule(m), seed, a);
    var d: nat :| 0 <= d && PegIn(c.g, c.inp, d, c.mode(key.rule), key.rule, Rule(m), key.pos, seed) == Some(a);
    SamePart(c, h, d, key, seed, m);
    forall x: Option<nat> | SeedAt(c, key, x) ensures EvenFrom(c, h, key, Rule(m), x, a) {
      assert EvenFrom(c, 0, key, Rule(m), x, a);
      var k: nat :| 0 <= k && PegIn(c.g, c.inp, k, c.mode(key.rule), key.rule, Rule(m), key.pos, x) == Some(a);
      PartDeeper(c, k, if h <= k then k else h, key, x, m);
    }
  }

  /** Entering a partner, at the least depth that answers it. */
  lemma EnterPartner(c: Setting, h: nat, d: nat, key: Key, m: RuleId, seed: Option<nat>, s: State)
    requires Growing(c, h, key, seed, s) && Serves(c.g, m, key.rule)
    requires Key(key.pos, m) !in s.memo && Key(key.pos, m) !in s.lr
    requires 0 < d <= h && PartMeans(c, d - 1, key, seed, m).None?
    ensures var s1 := Enter(s, Key(key.pos, m));
            Growing(c, d - 1, key, seed, s1) && Entered(c, Key(key.pos, m), s1) && Good(c.inp, s1)
  {
    hide WellFormed, PartMeans, EntrySound, PartSound, PartEven, Means, Tame, CalmSkip;
    var mkey := Key(key.pos, m);
    var s1 := Enter(s, mkey);
    EnteredSound(c, key, m, s);
    EnteredAbove(c, h, d - 1, key, m, s);
    EnteredTop(s, key, mkey);
    assert PartsBusy(c, d - 1, key, seed, s1) by { BusyLower(c, h, d - 1, key, m, seed, s); }
    assert Seeded(c, key, seed, s1) by { hide Above, PartsBusy, PartsSound, Marked; }
    assert PartsSound(c, key, seed, s1) by { hide Ready, Seeded, PartsBusy, TopFrame; }
  }

  lemma BusyLower(c: Setting, h: nat, d: nat, key: Key, m: RuleId, seed: Option<nat>, s: State)
    requires SeedAt(c, key, seed)
    requires PartsBusy(c, h, key, seed, s) && d <= h && PartMeans(c, d, key, seed, m).None?
    ensures PartsBusy(c, d, key, seed, Enter(s, Key(key.pos, m)))
  {
    hide PartMeans;
    forall x | Serves(c.g, x, key.rule) && Key(key.pos, x) in Enter(s, Key(key.pos, m)).lr
      ensures PartMeans(c, d, key, seed, x).None?
    {
      if PartMeans(c, d, key, seed, x).Some? { PartDeeper(c, d, h, key, seed, x); }
    }
  }

  /** A partner has no answer of its own at any depth. */
  lemma EnteredAbove(c: Setting, h: nat, d: nat, key: Key, m: RuleId, s: State)
    requires Above(c, h, s.lr) && d <= h && key.pos <= |c.inp| && IsPartner(c.g, m)
    ensures Above(c, d, s.lr + [Key(key.pos, m)])
  {
    AboveLower(c, h, d, s.lr);
    assert Means(c, d, Key(key.pos, m)).None?;
  }

  lemma EnteredTop(s: State, key: Key, mkey: Key)
    requires mkey != key
    ensures TopFrame(s.lr + [mkey], key) == TopFrame(s.lr, key)
  {
    assert (s.lr + [mkey])[..|s.lr|] == s.lr && (s.lr + [mkey])[|s.lr|] == mkey;
  }

  lemma EnteredSound(c: Setting, key: Key, m: RuleId, s: State)
    requires Sound(c, s) && key in s.lr && key in s.memo && s.pos == key.pos && m in c.g.rules
        && Key(key.pos, m) !in s.memo
    requires IsPartner(c.g, m) && Owner(c.g, m) == key.rule
    ensures Sound(c, Enter(s, Key(key.pos, m))) && |s.lr| !in s.heads
  {
    hide EntrySound;
    var s1 := Enter(s, Key(key.pos, m));
    assert Owned(c, s1) by { hide EntriesSound, Bounded; }
    assert EntriesSound(c, s1) by { hide Owned, IsPartner; }
  }

  /** Both passes over the body of a partner continue from the same seed. */
  lemma {:induction false} SoundPartBody(c: Setting, fuel: nat, h: nat, key: Key, m: RuleId, seed: Option<nat>,
      s: State)
    requires var mkey := Key(key.pos, m);
             Growing(c, h, key, seed, s) && h <= fuel && Entered(c, mkey, s) && Serves(c.g, m, key.rule)
    requires c.mode(m) == c.mode(key.rule) && FitsIn(c, key, c.g.rules[m].body)
    requires PegIn(c.g, c.inp, h, c.mode(key.rule), key.rule, c.g.rules[m].body, key.pos, seed).Some?
    ensures var mkey := Key(key.pos, m);
            var r := Grow(c.g, c.inp, fuel, c.mode(m), mkey, mkey.pos, Fail, s);
            var a := PegIn(c.g, c.inp, h, c.mode(key.rule), key.rule, c.g.rules[m].body, key.pos, seed).value;
            && Grown(c, Exempt({key}, {mkey}, {key}), s, r, a)
            && (r.out.Normal() ==>
                  PartsSound(c, key, seed, r.st) && (Marked(key, r.st) || EvenIn(c, h, key, c.g.rules[m].body, a)))
    decreases fuel, 3
  {
    hide MemoSound, FramesKept, Above, Bounded, WellFormed, Grow, Parse, PegIn, Growing, PartSound, PartEven, TopFrame,
        EvenIn;
    GrowingSound(c, h, key, seed, s);
    var mkey, body := Key(key.pos, m), c.g.rules[m].body;
    var a := PegIn(c.g, c.inp, h, c.mode(key.rule), key.rule, body, key.pos, seed).value;
    var s1 := s.(pos := key.pos, evals := s.evals + 1);
    GoodTick(c, s, s1);
    GrowingOn(c, h, key, seed, s, s1);
    SoundIn(c, fuel, h, key, seed, body, s1);
    var r1 := Parse(c.g, c.inp, fuel, c.mode(m), body, s1);
    if r1.out.Ok? && r1.st.pos > key.pos && mkey in r1.st.memo {
      SecondPart(c, h, key, m, seed, EvenIn(c, h, key, body, a), s1, r1, a);
      SoundIn(c, fuel, h, key, seed, body, Again(c, mkey, r1));
    }
    TwoPass(c, fuel, mkey, Step(key), s, a);
    assert Step(key).(entries := {} + {mkey}) == Exempt({key}, {mkey}, {key});
    var r := Grow(c.g, c.inp, fuel, c.mode(m), mkey, mkey.pos, Fail, s);
    if r.out.Normal() {
      if SameBut(mkey, r1.st, r.st) {
        PartsBut(c, key, m, seed, r1.st, r.st);
      } else {
        PartsBut(c, key, m, seed, Parse(c.g, c.inp, fuel, c.mode(m), body, Again(c, mkey, r1)).st, r.st);
      }
    }
  }

  /** The entry of a partner under evaluation does not matter. */
  lemma PartsBut(c: Setting, key: Key, m: RuleId, seed: Option<nat>, s: State, s1: State)
    requires SeedAt(c, key, seed)
    requires PartsSound(c, key, seed, s) && SameBut(Key(key.pos, m), s, s1) && Key(key.pos, m) in s.lr
    ensures PartsSound(c, key, seed, s1) && (Marked(key, s) ==> Marked(key, s1))
  {
    hide PartMeans, TopFrame, EvenIn;
  }

  lemma SecondPart(c: Setting, h: nat, key: Key, m: RuleId, seed: Option<nat>, even: bool, s: State, r: Result,
      a: Answer)
    requires var mkey := Key(key.pos, m); Entered(c, mkey, s) && mkey in r.st.memo && mkey != key
    requires Growing(c, h, key, seed, s) && Framed(c.inp, s, r)
    requires Stepped(c, key, seed, even, s, r, a) && r.out.Ok?
    ensures Growing(c, h, key, seed, Again(c, Key(key.pos, m), r))
  {
    hide Above, WellFormed, EntrySound, PartSound, PartEven, PartMeans, TopFrame, Bounded, CalmSkip, SettledKept,
        EntryGood;
    var mkey := Key(key.pos, m);
    var s2 := Again(c, mkey, r);
    AgainIs(c, mkey, Step(key), s, r, a.evs);
    StillGrowing(c, h, key, seed, s, r.st, a.evs);
    PartsBut(c, key, m, seed, r.st, s2);
    assert Sound(c, s2) by { AgainSound(c, mkey, r, s2); }
  }

  /** Publishing the first pass of a rule under evaluation. */
  lemma AgainSound(c: Setting, mkey: Key, r: Result, s2: State)
    requires Sound(c, r.st) && mkey in r.st.lr && mkey in r.st.memo && Good(c.inp, s2)
    requires SameBut(mkey, r.st, s2)
    ensures Sound(c, s2)
  {
    hide EntrySound, EntryGood;
  }

  /** The partner's frame is gone, and its entry agrees with its answer. */
  lemma PartLeft(c: Setting, h: nat, key: Key, m: RuleId, seed: Option<nat>, s: State, r: Result, f: Result)
    requires Growing(c, h, key, seed, s) && Serves(c.g, m, key.rule) && PartMeans(c, h, key, seed, m).Some?
    requires var mkey := Key(key.pos, m);
             && mkey !in s.lr && r.st.lr == s.lr + [mkey] && PartsSound(c, key, seed, r.st)
             && (Marked(key, r.st) || EvenIn(c, h, key, Rule(m), PartMeans(c, h, key, seed, m).value))
             && Faithful(c, Step(key), s, f, PartMeans(c, h, key, seed, m).value) && f.out.Normal()
             && f.st.heads == r.st.heads - {|s.lr|} && f.st.memo.Keys == r.st.memo.Keys
             && r.st.failures <= f.st.failures
             && (forall k | k in r.st.memo && k != mkey :: f.st.memo[k] == r.st.memo[k])
             && (mkey in f.st.memo ==> f.st.memo[mkey].ok == f.out.Ok? && f.st.memo[mkey].end == f.st.pos)
    ensures PartsSound(c, key, seed, f.st) && (Marked(key, r.st) ==> Marked(key, f.st))
  {
    hide PartMeans, TopFrame, Ready, MemoSound, FramesKept, PartsBusy, Bounded, EvenIn;
    var mkey := Key(key.pos, m);
    EnteredTop(s, key, mkey);
    if !Marked(key, r.st) { EvenLower(c, h, key, m, PartMeans(c, h, key, seed, m).value); }
    assert Marked(key, r.st) ==> Marked(key, f.st);
    forall x | Serves(c.g, x, key.rule) && Key(key.pos, x) in f.st.memo && Key(key.pos, x) !in f.st.lr
      ensures PartSound(c, key, seed, x, f.st.memo[Key(key.pos, x)], f.st.failures)
      ensures Marked(key, f.st) || PartEven(c, key, x, f.st.memo[Key(key.pos, x)], f.st.failures)
    {
      if x == m {
        assert PartIs(c, h, key, seed, m, f.st.memo[Key(key.pos, m)], f.st.failures);
      } else {
        PartMore(c, key, seed, x, r.st.memo[Key(key.pos, x)], r.st.failures, f.st.failures);
      }
    }
  }

  lemma EvenLower(c: Setting, h: nat, key: Key, m: RuleId, a: Answer)
    requires EvenIn(c, h, key, Rule(m), a)
    ensures EvenIn(c, 0, key, Rule(m), a)
  {
    hide PegIn;
    forall seed: Option<nat> | SeedAt(c, key, seed) ensures EvenFrom(c, 0, key, Rule(m), seed, a) {
      assert EvenFrom(c, h, key, Rule(m), seed, a);
    }
  }
}
