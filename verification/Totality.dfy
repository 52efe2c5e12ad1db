/** When the memo-free semantics has an answer at all: for every grammar whose rules can be ranked so that
    whatever a rule enters at its own start position, other than itself as a recursive branch, ranks lower.
    This is the usual well-formedness of parsing expression grammars, extended with left recursion. */
module Totality {
  import opened Grammars
  import opened Peg
  import Depth

  /** `eats`: rules that never match without consuming; `rank(r) < top` for every rule. */
  datatype Ranking = Ranking(g: Grammar, eats: set<RuleId>, rank: RuleId -> nat, top: nat)

  /** A match of `e` is never empty. */
  ghost predicate Consumes(eats: set<RuleId>, e: Expr) {
    match e
    case Terminal(_, _) => true
    case Token(_, _) => true
    case TerminalSeq(syms, _) => syms != []
    case Seq(es) => exists j :: 0 <= j < |es| && Consumes(eats, es[j])
    case Alt(es) => forall j | 0 <= j < |es| :: Consumes(eats, es[j])
    case Rep(child, min, _) => min > 0 && Consumes(eats, child)
    case Lexeme(child) => Consumes(eats, child)
    case Rule(r) => r in eats
    case _ => false
  }

  /** Every rule `e` calls is defined, and no partner. */
  ghost predicate Safe(g: Grammar, e: Expr) {
    match e
    case Rule(r) => r in g.rules && !IsPartner(g, r)
    case Seq(es) => forall j | 0 <= j < |es| :: Safe(g, es[j])
    case Alt(es) => forall j | 0 <= j < |es| :: Safe(g, es[j])
    case Rep(child, _, _) => Safe(g, child)
    case Not(child) => Safe(g, child)
    case And(child) => Safe(g, child)
    case Lexeme(child) => Safe(g, child)
    case _ => true
  }

  /** The rules that `e` may enter before it has consumed anything rank below m. */
  ghost predicate Low(w: Ranking, m: nat, e: Expr)
    decreases e, 1
  {
    match e
    case Rule(r) => w.rank(r) < m
    case Seq(es) => LowFrom(w, m, e, 0)
    case Alt(es) => forall j | 0 <= j < |es| :: Low(w, m, es[j])
    case Rep(child, _, _) => Low(w, m, child)
    case Not(child) => Low(w, m, child)
    case And(child) => Low(w, m, child)
    case Lexeme(child) => Low(w, m, child)
    case _ => true
  }

  /** Children of a sequence from j on, up to one that consumes; the skipper runs before each but the first. */
  ghost predicate LowFrom(w: Ranking, m: nat, e: Expr, j: nat)
    requires e.Seq? && j <= |e.es|
    decreases e, 0, |e.es| - j
  {
    j == |e.es| ||
    (&& Low(w, m, e.es[j])
     && (j > 0 && w.g.skipper.Some? ==> w.rank(w.g.skipper.value) < m)
     && (Consumes(w.eats, e.es[j]) || LowFrom(w, m, e, j + 1)))
  }

  // ---- at the start of a grown rule -------------------------------------------------------------

  /** `e` stands at the start of the body of r or of a partner: every other rule it calls is defined and no
      partner. */
  ghost predicate SafeIn(g: Grammar, r: RuleId, e: Expr) {
    match e
    case Rule(x) => x == r || Serves(g, x, r) || Safe(g, e)
    case Alt(es) => forall j | 0 <= j < |es| :: SafeIn(g, r, es[j])
    case Seq(es) => es == [] || (SafeIn(g, r, es[0]) && forall j | 1 <= j < |es| :: Safe(g, es[j]))
    case _ => Safe(g, e)
  }

  /** A match of `e` there is never empty; r itself continues from behind its seed. */
  ghost predicate EatsIn(w: Ranking, r: RuleId, e: Expr) {
    match e
    case Rule(x) => x == r || x in w.eats
    case Alt(es) => forall j | 0 <= j < |es| :: EatsIn(w, r, es[j])
    case Seq(es) => es != [] && (EatsIn(w, r, es[0]) || exists j :: 1 <= j < |es| && Consumes(w.eats, es[j]))
    case _ => Consumes(w.eats, e)
  }

  /** The rules other than r that `e` may enter there before anything is consumed rank below m. */
  ghost predicate LowIn(w: Ranking, m: nat, r: RuleId, e: Expr) {
    match e
    case Rule(x) => x == r || w.rank(x) < m
    case Alt(es) => forall j | 0 <= j < |es| :: LowIn(w, m, r, es[j])
    case Seq(es) => es == [] || (LowIn(w, m, r, es[0]) && (EatsIn(w, r, es[0]) || LowFrom(w, m, e, 1)))
    case _ => Low(w, m, e)
  }

  ghost predicate RankedRule(w: Ranking, r: RuleId)
    requires r in w.g.rules
  {
    var body := w.g.rules[r].body;
    && w.rank(r) < w.top
    && (if IsPartner(w.g, r) || IsLeftRec(w.g, r) then
          var x := if IsPartner(w.g, r) then Owner(w.g, r) else r;
          && SafeIn(w.g, x, body) && LowIn(w, w.rank(r), x, body)
          && (r in w.eats ==> EatsIn(w, x, body))
        else
          && Safe(w.g, body) && Low(w, w.rank(r), body)
          && (r in w.eats ==> Consumes(w.eats, body)))
  }

  ghost predicate Ranked(w: Ranking) {
    && (forall r | r in w.g.rules :: RankedRule(w, r))
    && (w.g.skipper.Some? ==> w.g.skipper.value in w.g.rules && !IsPartner(w.g, w.g.skipper.value))
  }

  lemma RuleRanked(w: Ranking, r: RuleId)
    requires Ranked(w) && r in w.g.rules
    ensures RankedRule(w, r)
  {
  }

  // ---- the depth that is enough -----------------------------------------------------------------

  /** Enough for what ranks below m at position i. */
  ghost function Need(w: Ranking, inp: Input, i: nat, m: nat): nat
    requires i <= |inp|
  {
    (|inp| - i) * w.top + m
  }

  lemma NeedLater(w: Ranking, inp: Input, i: nat, i': nat, m: nat)
    requires i < i' <= |inp|
    ensures Need(w, inp, i', w.top) <= Need(w, inp, i, m)
  {
    Distribute(|inp| - i', i' - i, w.top);
  }

  lemma Distribute(a: nat, b: nat, c: nat)
    ensures (a + b) * c == a * c + b * c
    ensures b > 0 ==> b * c >= c
  {
  }

  lemma NeedBelow(w: Ranking, inp: Input, k: nat, i: nat, m: nat, m': nat)
    requires i <= |inp| && k >= Need(w, inp, i, m) && m' < m
    ensures k > 0 && k - 1 >= Need(w, inp, i, m')
  {
    Distribute(|inp| - i, 0, w.top);
    assert Need(w, inp, i, m) == Need(w, inp, i, m') + (m - m');
  }

  /** There is an answer, and if it is a match of something that consumes, it does. */
  ghost predicate Answers(i: nat, a: Option<Answer>, consumes: bool) {
    a.Some? && (consumes && a.value.out.Yes? ==> a.value.out.end > i)
  }

  lemma {:induction false} LowMore(w: Ranking, m: nat, e: Expr)
    requires Ranked(w) && Safe(w.g, e)
    ensures Low(w, w.top, e)
    decreases e, 1
  {
    match e
    case Seq(_) => LowFromMore(w, e, 0);
    case Alt(es) => forall j | 0 <= j < |es| ensures Low(w, w.top, es[j]) { LowMore(w, m, es[j]); }
    case Rep(child, _, _) => LowMore(w, m, child);
    case Not(child) => LowMore(w, m, child);
    case And(child) => LowMore(w, m, child);
    case Lexeme(child) => LowMore(w, m, child);
    case Rule(r) => assert RankedRule(w, r);
    case _ =>
  }

  lemma {:induction false} LowFromMore(w: Ranking, e: Expr, j: nat)
    requires Ranked(w) && e.Seq? && j <= |e.es| && forall l | j <= l < |e.es| :: Safe(w.g, e.es[l])
    ensures LowFrom(w, w.top, e, j)
    decreases e, 0, |e.es| - j
  {
    if j < |e.es| {
      LowMore(w, w.top, e.es[j]);
      LowFromMore(w, e, j + 1);
      if w.g.skipper.Some? { assert RankedRule(w, w.g.skipper.value); }
    }
  }

  // ---- expressions ------------------------------------------------------------------------------

  lemma {:induction false} TotalExpr(w: Ranking, inp: Input, k: nat, skip: bool, e: Expr, i: nat, cut: bool, m: nat)
    requires Ranked(w) && Safe(w.g, e) && Low(w, m, e) && m <= w.top && i <= |inp| && k >= Need(w, inp, i, m)
    ensures Answers(i, Peg.Peg(w.g, inp, k, skip, e, i, cut), Consumes(w.eats, e))
    decreases k, 1, e
  {
    hide Ranked, Need, PegSeq, PegAlt, PegRep, PegCall;
    match e
    case Seq(_) => TotalSeq(w, inp, k, skip, e, 0, i, cut, m);
    case Alt(_) => TotalAlt(w, inp, k, skip, e, 0, i, m);
    case Rep(_, _, _) => TotalRep(w, inp, k, skip, e, 0, i, m);
    case Not(child) => TotalExpr(w, inp, k, skip, child, i, cut, m);
    case And(child) => TotalExpr(w, inp, k, skip, child, i, cut, m);
    case Lexeme(child) => TotalExpr(w, inp, k, false, child, i, cut, m);
    case Rule(r) => TotalCall(w, inp, k, skip, r, i, m);
    case _ =>
  }

  lemma {:induction false} TotalSkip(w: Ranking, inp: Input, k: nat, skip: bool, i: nat, m: nat)
    requires Ranked(w) && m <= w.top && i <= |inp| && k >= Need(w, inp, i, m)
    requires w.g.skipper.Some? ==> w.rank(w.g.skipper.value) < m
    ensures PegSkip(w.g, inp, k, skip, i).Some?
    decreases k, 0, 1
  {
    hide Need, PegCall;
    if skip && w.g.skipper.Some? { TotalCall(w, inp, k, false, w.g.skipper.value, i, m); }
  }

  /** Children from j on, where nothing was consumed before them or anything may follow. */
  lemma {:induction false} TotalSeq(w: Ranking, inp: Input, k: nat, skip: bool, e: Expr, j: nat, i: nat, cut: bool,
      m: nat)
    requires Ranked(w) && e.Seq? && j <= |e.es| && LowFrom(w, m, e, j) && m <= w.top && i <= |inp|
        && k >= Need(w, inp, i, m)
    requires forall l | j <= l < |e.es| :: Safe(w.g, e.es[l])
    ensures Answers(i, PegSeq(w.g, inp, k, skip, e, j, i, cut), exists l ::
        j <= l < |e.es| && Consumes(w.eats, e.es[l]))
    decreases k, 1, e, |e.es| - j
  {
    hide Ranked, Need, PegSeqNext, PegSkip, Consumes, Low;
    if j < |e.es| {
      if j > 0 { TotalSkip(w, inp, k, skip, i, m); }
      var s := if j > 0 then PegSkip(w.g, inp, k, skip, i) else Some(Answer(Yes(i), cut, {}));
      if s.value.out.Yes? {
        var p := s.value.out.end;
        if p > i { Later(w, inp, k, e, j, i, p, m); }
        TotalSeqNext(w, inp, k, skip, e, j, p, cut, if p > i then w.top else m);
      }
    }
  }

  lemma {:induction false} TotalSeqNext(w: Ranking, inp: Input, k: nat, skip: bool, e: Expr, j: nat, i: nat,
      cut: bool, m: nat)
    requires Ranked(w) && e.Seq? && j < |e.es| && m <= w.top && i <= |inp| && k >= Need(w, inp, i, m)
    requires Low(w, m, e.es[j]) && (Consumes(w.eats, e.es[j]) || LowFrom(w, m, e, j + 1))
    requires forall l | j <= l < |e.es| :: Safe(w.g, e.es[l])
    ensures Answers(i, PegSeqNext(w.g, inp, k, skip, e, j, i, cut), exists l ::
        j <= l < |e.es| && Consumes(w.eats, e.es[l]))
    decreases k, 1, e, |e.es| - j, 0
  {
    hide Ranked, Need, Peg.Peg, PegSeq, Consumes, Low, LowFrom;
    TotalExpr(w, inp, k, skip, e.es[j], i, cut, m);
    var a := Peg.Peg(w.g, inp, k, skip, e.es[j], i, cut).value;
    if a.out.Yes? {
      var q := a.out.end;
      if q > i { Later(w, inp, k, e, j, i, q, m); }
      TotalSeq(w, inp, k, skip, e, j + 1, q, a.cut, if q > i then w.top else m);
    }
  }

  /** Once something was consumed, anything may follow. */
  lemma Later(w: Ranking, inp: Input, k: nat, e: Expr, j: nat, i: nat, p: nat, m: nat)
    requires Ranked(w) && e.Seq? && j < |e.es| && i < p <= |inp| && k >= Need(w, inp, i, m)
    requires forall l | j <= l < |e.es| :: Safe(w.g, e.es[l])
    ensures k >= Need(w, inp, p, w.top) && Low(w, w.top, e.es[j]) && LowFrom(w, w.top, e, j + 1)
  {
    NeedLater(w, inp, i, p, m);
    LowMore(w, m, e.es[j]);
    LowFromMore(w, e, j + 1);
  }

  lemma {:induction false} TotalAlt(w: Ranking, inp: Input, k: nat, skip: bool, e: Expr, j: nat, i: nat, m: nat)
    requires Ranked(w) && Safe(w.g, e) && Low(w, m, e) && e.Alt? && j <= |e.es| && m <= w.top && i <= |inp|
        && k >= Need(w, inp, i, m)
    ensures Answers(i, PegAlt(w.g, inp, k, skip, e, j, i), Consumes(w.eats, e))
    decreases k, 1, e, |e.es| - j
  {
    hide Ranked, Need, Peg.Peg;
    if j < |e.es| {
      TotalExpr(w, inp, k, skip, e.es[j], i, false, m);
      TotalAlt(w, inp, k, skip, e, j + 1, i, m);
    }
  }

  lemma {:induction false} TotalRep(w: Ranking, inp: Input, k: nat, skip: bool, e: Expr, count: nat, i: nat, m: nat)
    requires Ranked(w) && Safe(w.g, e) && e.Rep? && m <= w.top && i <= |inp| && k >= Need(w, inp, i, m)
        && Low(w, m, e.child)
    requires count > 0 ==> m == w.top
    ensures Answers(i, PegRep(w.g, inp, k, skip, e, count, i), count < e.min && Consumes(w.eats, e.child))
    decreases k, 1, e, |inp| - i, 1
  {
    hide Need, PegRepTry, Low, Consumes;
    if count > 0 {
      if w.g.skipper.Some? { assert RankedRule(w, w.g.skipper.value); }
      TotalSkip(w, inp, k, skip, i, m);
    }
    var s := if count > 0 then PegSkip(w.g, inp, k, skip, i) else Some(Answer(Yes(i), false, {}));
    if s.value.out.Yes? {
      var p := s.value.out.end;
      if p > i { NeedLater(w, inp, i, p, m); }
      TotalRepTry(w, inp, k, skip, e, count, i, p, m);
    }
  }

  lemma {:induction false} TotalRepTry(w: Ranking, inp: Input, k: nat, skip: bool, e: Expr, count: nat, last: nat,
      i: nat, m: nat)
    requires Ranked(w) && Safe(w.g, e) && e.Rep? && m <= w.top && last <= i <= |inp| && k >= Need(w, inp, i, m)
        && Low(w, m, e.child)
    ensures Answers(last, PegRepTry(w.g, inp, k, skip, e, count, last, i), count < e.min && Consumes(w.eats, e.child))
    decreases k, 1, e, |inp| - i, 0
  {
    hide Ranked, Need, PegRep, Peg.Peg, Low, Consumes;
    TotalExpr(w, inp, k, skip, e.child, i, false, m);
    var a := Peg.Peg(w.g, inp, k, skip, e.child, i, false).value;
    if a.out.Yes? && a.out.end > i {
      NeedLater(w, inp, i, a.out.end, m);
      LowMore(w, m, e.child);
      TotalRep(w, inp, k, skip, e, count + 1, a.out.end, w.top);
    }
  }

  // ---- rules ------------------------------------------------------------------------------------

  lemma {:induction false} TotalCall(w: Ranking, inp: Input, k: nat, skip: bool, r: RuleId, i: nat, m: nat)
    requires Ranked(w) && r in w.g.rules && !IsPartner(w.g, r) && w.rank(r) < m <= w.top && i <= |inp|
        && k >= Need(w, inp, i, m)
    ensures Answers(i, PegCall(w.g, inp, k, skip, r, i), r in w.eats)
    decreases k, 0, 0
  {
    hide Peg.Peg, PegGrow, Low, Consumes, Safe, Need, SafeIn, LowIn, EatsIn;
    assert RankedRule(w, r);
    NeedBelow(w, inp, k, i, m, w.rank(r));
    if IsLeftRec(w.g, r) {
      TotalGrow(w, inp, k - 1, skip, r, i, None);
    } else {
      TotalExpr(w, inp, k - 1, skip, w.g.rules[r].body, i, false, w.rank(r));
    }
  }

  lemma {:induction false} TotalGrow(w: Ranking, inp: Input, k: nat, skip: bool, r: RuleId, i: nat, seed: Option<nat>)
    requires Ranked(w) && IsLeftRec(w.g, r) && !IsPartner(w.g, r) && i <= |inp| && k >= Need(w, inp, i, w.rank(r))
    requires seed.Some? ==> i < seed.value <= |inp|
    ensures Answers(i, PegGrow(w.g, inp, k, skip, r, i, seed), r in w.eats)
    decreases k, 3, |inp| - (if seed.Some? then seed.value else i)
  {
    hide Ranked, Need, PegIn, SafeIn, LowIn, EatsIn;
    RuleRanked(w, r);
    TotalIn(w, inp, k, skip, r, w.g.rules[r].body, i, seed, w.rank(r));
    var a := PegIn(w.g, inp, k, skip, r, w.g.rules[r].body, i, seed).value;
    var last := if seed.Some? then seed.value else i;
    if a.out.Yes? && a.out.end > last {
      TotalGrow(w, inp, k, skip, r, i, Some(a.out.end));
    }
  }

  lemma {:induction false} TotalIn(w: Ranking, inp: Input, k: nat, skip: bool, r: RuleId, e: Expr, i: nat,
      seed: Option<nat>, m: nat)
    requires Ranked(w) && SafeIn(w.g, r, e) && LowIn(w, m, r, e) && m <= w.top && i <= |inp| && k >= Need(w, inp, i, m)
    requires seed.Some? ==> i < seed.value <= |inp|
    ensures Answers(i, PegIn(w.g, inp, k, skip, r, e, i, seed), EatsIn(w, r, e))
    decreases k, 2, e
  {
    hide Ranked, Need, PegSeq, Peg.Peg, PegInAlt, RankedRule;
    match e
    case Rule(x) =>
      if x == r {
      } else if Serves(w.g, x, r) {
        RuleRanked(w, x);
        PartnerRanked(w, r, x);
        NeedBelow(w, inp, k, i, m, w.rank(x));
        TotalIn(w, inp, k - 1, skip, r, w.g.rules[x].body, i, seed, w.rank(x));
      } else {
        TotalExpr(w, inp, k, skip, e, i, false, m);
      }
    case Alt(_) => TotalInAlt(w, inp, k, skip, r, e, 0, i, seed, m);
    case Seq(es) =>
      if es == [] { TotalExpr(w, inp, k, skip, e, i, false, m); }
      else { TotalInSeq(w, inp, k, skip, r, e, i, seed, m); }
    case _ => TotalExpr(w, inp, k, skip, e, i, false, m);
  }

  lemma PartnerRanked(w: Ranking, r: RuleId, x: RuleId)
    requires Serves(w.g, x, r) && RankedRule(w, x)
    ensures var body := w.g.rules[x].body;
            w.rank(x) < w.top && SafeIn(w.g, r, body) && LowIn(w, w.rank(x), r, body)
            && (x in w.eats ==> EatsIn(w, r, body))
  {
    hide SafeIn, LowIn, EatsIn;
  }

  lemma {:induction false} TotalInAlt(w: Ranking, inp: Input, k: nat, skip: bool, r: RuleId, e: Expr, j: nat, i: nat,
      seed: Option<nat>, m: nat)
    requires Ranked(w) && e.Alt? && j <= |e.es| && m <= w.top && i <= |inp| && k >= Need(w, inp, i, m)
    requires SafeIn(w.g, r, e) && LowIn(w, m, r, e) && (seed.Some? ==> i < seed.value <= |inp|)
    ensures Answers(i, PegInAlt(w.g, inp, k, skip, r, e, j, i, seed), EatsIn(w, r, e))
    decreases k, 2, e, |e.es| - j
  {
    hide Ranked, Need, PegIn;
    if j < |e.es| {
      TotalIn(w, inp, k, skip, r, e.es[j], i, seed, m);
      TotalInAlt(w, inp, k, skip, r, e, j + 1, i, seed, m);
    }
  }

  lemma {:induction false} TotalInSeq(w: Ranking, inp: Input, k: nat, skip: bool, r: RuleId, e: Expr, i: nat,
      seed: Option<nat>, m: nat)
    requires Ranked(w) && e.Seq? && e.es != [] && m <= w.top && i <= |inp| && k >= Need(w, inp, i, m)
    requires SafeIn(w.g, r, e) && LowIn(w, m, r, e) && (seed.Some? ==> i < seed.value <= |inp|)
    ensures Answers(i, PegIn(w.g, inp, k, skip, r, e, i, seed), EatsIn(w, r, e))
    decreases k, 2, e, 0
  {
    hide Ranked, Need, PegSeq, Safe, Low, LowFrom, Consumes;
    TotalIn(w, inp, k, skip, r, e.es[0], i, seed, m);
    var a := PegIn(w.g, inp, k, skip, r, e.es[0], i, seed).value;
    if a.out.Yes? {
      var p := a.out.end;
      if p > i { LaterIn(w, inp, k, e, i, p, m); }
      TotalSeq(w, inp, k, skip, e, 1, p, false, if p > i then w.top else m);
    }
  }

  lemma LaterIn(w: Ranking, inp: Input, k: nat, e: Expr, i: nat, p: nat, m: nat)
    requires Ranked(w) && e.Seq? && e.es != [] && i < p <= |inp| && k >= Need(w, inp, i, m)
    requires forall l | 1 <= l < |e.es| :: Safe(w.g, e.es[l])
    ensures k >= Need(w, inp, p, w.top) && LowFrom(w, w.top, e, 1)
  {
    NeedLater(w, inp, i, p, m);
    LowFromMore(w, e, 1);
  }

  ghost function Enough(w: Ranking, inp: Input): nat { (|inp| + 1) * w.top }

  /** Every parse of a ranked grammar has a memo-free answer, within this depth. */
  lemma EveryParseHasAnAnswer(w: Ranking, inp: Input, k: nat, start: RuleId, i: nat)
    requires Ranked(w) && start in w.g.rules && !IsPartner(w.g, start) && i <= |inp| && k >= Enough(w, inp)
    ensures PegRun(w.g, inp, k, start, i).Some?
  {
    hide PegSkip, PegCall;
    assert RankedRule(w, start);
    if w.g.skipper.Some? { assert RankedRule(w, w.g.skipper.value); }
    EnoughFor(w, inp, k, i);
    TotalSkip(w, inp, k, w.g.skipper.Some?, i, w.top);
    var s := PegSkip(w.g, inp, k, w.g.skipper.Some?, i).value;
    if s.out.Yes? {
      EnoughFor(w, inp, k, s.out.end);
      TotalCall(w, inp, k, w.g.skipper.Some?, start, s.out.end, w.top);
    }
  }

  lemma EnoughFor(w: Ranking, inp: Input, k: nat, i: nat)
    requires i <= |inp| && k >= Enough(w, inp)
    ensures k >= Need(w, inp, i, w.top)
  {
    Distribute(|inp| - i, i + 1, w.top);
  }

  /** What is marked as consuming never matches empty, at any depth. */
  lemma NeverEmpty(w: Ranking, inp: Input, k: nat, skip: bool, e: Expr, i: nat)
    requires Ranked(w) && Safe(w.g, e) && Consumes(w.eats, e) && i <= |inp|
    ensures var a := Peg.Peg(w.g, inp, k, skip, e, i, false); a.Some? ==> a.value.out != Yes(i)
  {
    hide Ranked, Safe, Consumes, Peg.Peg, Enough, Need;
    var k' := if k < Enough(w, inp) then Enough(w, inp) else k;
    LowMore(w, w.top, e);
    EnoughFor(w, inp, k', i);
    TotalExpr(w, inp, k', skip, e, i, false, w.top);
    Depth.Deeper(w.g, inp, k, k', skip, e, i, false);
  }
}
