/** Left recursion is ordered choice followed by greedy iteration.  Unfolded through its partners, a rule
    r = ... / r a / ... / b / ... matches its first base branch that does not fail, and then, as long as the input
    allows, one of the tails that stand before that branch.  For every order and number of branches, for recursion
    of any number of rules, with or without a skipper: the gap behind the recursion is part of the tail. */
module LeftRecursion {
  import opened Grammars
  import opened Peg
  import opened Forms
  import Depth

  // ---- the branches of a grown rule -------------------------------------------------------------

  /** A branch that starts with the recursion, given by what follows it, or one that does not. */
  datatype Arm = Tail(e: Expr) | Base(e: Expr)

  /** `e` may enter r or one of its partners at its own start. */
  predicate Touches(g: Grammar, r: RuleId, e: Expr) {
    match e
    case Rule(m) => m == r || Serves(g, m, r)
    case Alt(es) => exists j :: 0 <= j < |es| && Touches(g, r, es[j])
    case Seq(es) => |es| > 0 && Touches(g, r, es[0])
    case _ => false
  }

  /** The branches of `e` at the start of r's body, seen through at most n partners in a row.  Those of the first child
      of a sequence count as one. */
  function Unfold(g: Grammar, r: RuleId, n: nat, e: Expr): seq<Arm>
    decreases n, e
  {
    if !Touches(g, r, e) then [Base(e)]
    else match e
      case Rule(m) => if m == r then [Tail(Empty)] else if n == 0 then [] else Unfold(g, r, n - 1, g.rules[m].body)
      case Alt(_) => UnfoldFrom(g, r, n, e, 0)
      case Seq(es) => Followed(Unfold(g, r, n, es[0]), e)
      case _ => []
  }

  function UnfoldFrom(g: Grammar, r: RuleId, n: nat, e: Expr, j: nat): seq<Arm>
    requires e.Alt? && j <= |e.es|
    decreases n, e, |e.es| - j
  {
    if j == |e.es| then [] else Unfold(g, r, n, e.es[j]) + UnfoldFrom(g, r, n, e, j + 1)
  }

  function Exprs(arms: seq<Arm>): (es: seq<Expr>)
    ensures |es| == |arms| && forall j | 0 <= j < |arms| :: es[j] == arms[j].e
  {
    seq(|arms|, j requires 0 <= j < |arms| => arms[j].e)
  }

  /** Every branch starts with the recursion, or none does. */
  predicate Uniform(arms: seq<Arm>) {
    |arms| > 0 && forall j | 0 <= j < |arms| :: arms[j].Tail? == arms[0].Tail?
  }

  /** Such branches as one. */
  function Lead(arms: seq<Arm>): Arm
    requires Uniform(arms)
  {
    if |arms| == 1 then arms[0] else arms[0].(e := Alt(Exprs(arms)))
  }

  /** The branches of the first child of `e`, with the other children behind them. */
  function Followed(arms: seq<Arm>, e: Expr): seq<Arm>
    requires e.Seq? && e.es != []
  {
    if Uniform(arms) then [Lead(arms).(e := Seq([Lead(arms).e] + e.es[1..]))] else []
  }

  /** `e` is the choice of its branches: n partners in a row are all there are, and the first child of a sequence
      is no choice between the recursion and something else. */
  predicate Unfolds(g: Grammar, r: RuleId, n: nat, e: Expr)
    decreases n, e
  {
    Touches(g, r, e) ==>
      match e
      case Rule(m) => m == r || (n > 0 && Unfolds(g, r, n - 1, g.rules[m].body))
      case Alt(es) => forall j | 0 <= j < |es| :: Unfolds(g, r, n, es[j])
      case Seq(es) => Unfolds(g, r, n, es[0]) && Uniform(Unfold(g, r, n, es[0]))
      case _ => true
  }

  /** r's body is a choice of branches, seen through at most n partners in a row. */
  predicate Choice(g: Grammar, r: RuleId, n: nat) { r in g.rules && Unfolds(g, r, n, g.rules[r].body) }

  function Arms(g: Grammar, r: RuleId, n: nat): seq<Arm>
    requires Choice(g, r, n)
  {
    Unfold(g, r, n, g.rules[r].body)
  }

  /** The tails of the branches before j, in order. */
  function Tails(arms: seq<Arm>, j: nat): seq<Expr>
    requires j <= |arms|
  {
    if j == 0 then [] else Tails(arms, j - 1) + if arms[j - 1].Tail? then [arms[j - 1].e] else []
  }

  lemma {:induction false} TailsGrow(arms: seq<Arm>, x: nat, j: nat)
    requires x <= j <= |arms|
    ensures Tails(arms, x) <= Tails(arms, j)
    ensures x < j && arms[x].Tail? ==>
              |Tails(arms, x)| < |Tails(arms, j)| && Tails(arms, j)[|Tails(arms, x)|] == arms[x].e
    decreases j
  {
    if x < j { TailsGrow(arms, x, j - 1); }
  }

  lemma OneTail(arms: seq<Arm>, j: nat)
    requires j < |arms|
    ensures |Tails(arms, j + 1)| == |Tails(arms, j)| + if arms[j].Tail? then 1 else 0
  {
  }

  // ---- what the rule matches, without growth ----------------------------------------------------

  ghost predicate Fails(a: Option<Answer>) { a.Some? && a.value.out.No? }

  ghost predicate EndsAt(a: Option<Answer>, end: nat) { a.Some? && a.value.out == Yes(end) }

  /** Every base branch before j fails. */
  ghost predicate NoneBefore(g: Grammar, inp: Input, k: nat, skip: bool, arms: seq<Arm>, j: nat, i: nat)
    requires j <= |arms| && i <= |inp|
  {
    forall l: nat | l < j && arms[l].Base? :: Fails(Peg.Peg(g, inp, k, skip, arms[l].e, i, false))
  }

  /** The first base branch from j on that does not fail; the number of branches if there is none. */
  ghost function FirstBase(g: Grammar, inp: Input, k: nat, skip: bool, arms: seq<Arm>, j: nat, i: nat): (b: nat)
    requires j <= |arms| && i <= |inp| && NoneBefore(g, inp, k, skip, arms, j, i)
    ensures j <= b <= |arms| && NoneBefore(g, inp, k, skip, arms, b, i)
    ensures b < |arms| ==> arms[b].Base? && !Fails(Peg.Peg(g, inp, k, skip, arms[b].e, i, false))
    decreases |arms| - j
  {
    if j == |arms| then j
    else if arms[j].Tail? || Fails(Peg.Peg(g, inp, k, skip, arms[j].e, i, false)) then
      FirstBase(g, inp, k, skip, arms, j + 1, i)
    else j
  }

  /** The choice e over and over from q, as long as it advances. */
  ghost function Greedy(g: Grammar, inp: Input, k: nat, skip: bool, e: Expr, q: nat): (o: Option<Out>)
    requires e.Alt? && q <= |inp|
    ensures o.Some? ==> !o.value.No? && (o.value.Yes? ==> q <= o.value.end <= |inp|)
    decreases |inp| - q
  {
    var a := PegAlt(g, inp, k, skip, e, 0, q);
    if a.None? then None
    else if a.value.out.Throw? then Some(Throw)
    else if a.value.out.Yes? && a.value.out.end > q then Greedy(g, inp, k, skip, e, a.value.out.end)
    else Some(Yes(q))
  }

  /** The first base branch that does not fail, then the tails before it, greedily.  A base branch that matches
      empty is not extended. */
  ghost function Unrolled(g: Grammar, inp: Input, k: nat, skip: bool, arms: seq<Arm>, i: nat): Option<Out>
    requires i <= |inp|
  {
    var b := FirstBase(g, inp, k, skip, arms, 0, i);
    if b == |arms| then Some(No)
    else
      var a := Peg.Peg(g, inp, k, skip, arms[b].e, i, false);
      if a.None? then None
      else if a.value.out.Yes? && a.value.out.end > i then
        Greedy(g, inp, k, skip, Alt(Tails(arms, b)), a.value.out.end)
      else Some(a.value.out)
  }

  // ---- growth over the branches -----------------------------------------------------------------

  function OutOf(a: Option<Answer>): Option<Out> { if a.None? then None else Some(a.value.out) }

  function ArmOut(g: Grammar, inp: Input, k: nat, skip: bool, arm: Arm, i: nat, seed: Option<nat>): (o: Option<Out>)
    requires i <= |inp| && (seed.Some? ==> i < seed.value <= |inp|)
    ensures o.Some? && o.value.Yes? ==> i <= o.value.end <= |inp|
  {
    match arm
    case Base(e) => OutOf(Peg.Peg(g, inp, k, skip, e, i, false))
    case Tail(e) => if seed.None? then Some(No) else OutOf(Peg.Peg(g, inp, k, skip, e, seed.value, false))
  }

  /** One step of the growth: the branches from j on, in order. */
  function StepOut(g: Grammar, inp: Input, k: nat, skip: bool, arms: seq<Arm>, j: nat, i: nat,
      seed: Option<nat>): (o: Option<Out>)
    requires j <= |arms| && i <= |inp| && (seed.Some? ==> i < seed.value <= |inp|)
    ensures o.Some? && o.value.Yes? ==> i <= o.value.end <= |inp|
    decreases |arms| - j
  {
    if j == |arms| then Some(No)
    else
      var o := ArmOut(g, inp, k, skip, arms[j], i, seed);
      if o == Some(No) then StepOut(g, inp, k, skip, arms, j + 1, i, seed) else o
  }

  function GrowOut(g: Grammar, inp: Input, k: nat, skip: bool, arms: seq<Arm>, i: nat, seed: Option<nat>): Option<Out>
    requires i <= |inp| && (seed.Some? ==> i < seed.value <= |inp|)
    decreases |inp| - (if seed.Some? then seed.value else i)
  {
    var o := StepOut(g, inp, k, skip, arms, 0, i, seed);
    if o.None? || o.value.Throw? then o
    else if o.value.Yes? && o.value.end > (if seed.Some? then seed.value else i) then
      GrowOut(g, inp, k, skip, arms, i, Some(o.value.end))
    else if seed.Some? then Some(Yes(seed.value))
    else o
  }

  // ---- cuts -------------------------------------------------------------------------------------

  /** Without a cut the flag of the scope is handed through. */
  lemma {:induction false} FlagKept(g: Grammar, inp: Input, k: nat, skip: bool, e: Expr, i: nat, cut: bool)
    requires CutFree(e) && i <= |inp|
    ensures var a := Peg.Peg(g, inp, k, skip, e, i, cut);
            a.Some? ==> a.value.cut == cut
    decreases e
  {
    match e
    case Seq(es) => FlagKeptSeq(g, inp, k, skip, e, 0, i, cut);
    case Not(child) => FlagKept(g, inp, k, skip, child, i, cut);
    case And(child) => FlagKept(g, inp, k, skip, child, i, cut);
    case Lexeme(child) => FlagKept(g, inp, k, false, child, i, cut);
    case _ =>
  }

  lemma {:induction false} FlagKeptSeq(g: Grammar, inp: Input, k: nat, skip: bool, e: Expr, j: nat, i: nat, cut: bool)
    requires e.Seq? && j <= |e.es| && i <= |inp| && forall l | j <= l < |e.es| :: CutFree(e.es[l])
    ensures var a := PegSeq(g, inp, k, skip, e, j, i, cut);
            a.Some? ==> a.value.cut == cut
    decreases e, |e.es| - j
  {
    if j < |e.es| {
      var w := if j > 0 then PegSkip(g, inp, k, skip, i) else Some(Answer(Yes(i), cut, {}));
      if w.Some? && w.value.out.Yes? {
        FlagKept(g, inp, k, skip, e.es[j], w.value.out.end, cut);
        var a := Peg.Peg(g, inp, k, skip, e.es[j], w.value.out.end, cut);
        if a.Some? && a.value.out.Yes? {
          FlagKeptSeq(g, inp, k, skip, e, j + 1, a.value.out.end, a.value.cut);
        }
      }
    }
  }

  /** No branch has a cut. */
  ghost predicate ArmsCutFree(arms: seq<Arm>) { forall a | a in arms :: CutFree(a.e) }

  lemma AltIs(g: Grammar, inp: Input, k: nat, skip: bool, e: Expr, j: nat, i: nat)
    requires e.Alt? && j < |e.es| && i <= |inp|
    ensures var a := Peg.Peg(g, inp, k, skip, e.es[j], i, false);
            PegAlt(g, inp, k, skip, e, j, i) ==
              if a.None? || !a.value.out.No? then a
              else if a.value.cut then Some(a.value.(out := Throw))
              else Prefixed(a.value.evs, PegAlt(g, inp, k, skip, e, j + 1, i))
  {
    hide Peg.Peg;
  }

  // ---- growth over the branches is a greedy iteration -------------------------------------------

  lemma FailsBefore(g: Grammar, inp: Input, k: nat, skip: bool, arms: seq<Arm>, b: nat, l: nat, i: nat)
    requires i <= |inp| && b <= |arms| && NoneBefore(g, inp, k, skip, arms, b, i)
    ensures l < b && arms[l].Base? ==> Fails(Peg.Peg(g, inp, k, skip, arms[l].e, i, false))
  {
  }

  /** Without a seed, a step is the first base branch that does not fail. */
  lemma {:induction false} FirstStep(g: Grammar, inp: Input, k: nat, skip: bool, arms: seq<Arm>, j: nat, b: nat, i: nat)
    requires j <= b <= |arms| && i <= |inp| && NoneBefore(g, inp, k, skip, arms, b, i)
    ensures StepOut(g, inp, k, skip, arms, j, i, None) == StepOut(g, inp, k, skip, arms, b, i, None)
    decreases b - j
  {
    if j < b {
      hide Peg.Peg, NoneBefore;
      FailsBefore(g, inp, k, skip, arms, b, j, i);
      FirstStep(g, inp, k, skip, arms, j + 1, b, i);
    }
  }

  /** The choice of the tails before b, from tail j on. */
  lemma TailFirst(g: Grammar, inp: Input, k: nat, skip: bool, arms: seq<Arm>, j: nat, b: nat, q: nat)
    requires ArmsCutFree(arms) && j < b <= |arms| && arms[j].Tail? && q <= |inp|
    ensures |Tails(arms, j)| < |Tails(arms, b)|
    ensures var o := OutOf(Peg.Peg(g, inp, k, skip, arms[j].e, q, false));
            OutOf(PegAlt(g, inp, k, skip, Alt(Tails(arms, b)), |Tails(arms, j)|, q)) ==
              if o == Some(No) then OutOf(PegAlt(g, inp, k, skip, Alt(Tails(arms, b)), |Tails(arms, j)| + 1, q)) else o
  {
    hide PegAlt, Peg.Peg, Tails, CutFree;
    TailsGrow(arms, j, b);
    AltIs(g, inp, k, skip, Alt(Tails(arms, b)), |Tails(arms, j)|, q);
    FlagKept(g, inp, k, skip, arms[j].e, q, false);
  }

  /** With a seed, the branches before b are the tails before b. */
  lemma {:induction false} StepIsTails(g: Grammar, inp: Input, k: nat, skip: bool, arms: seq<Arm>, j: nat, b: nat,
      i: nat, q: nat)
    requires ArmsCutFree(arms) && j <= b <= |arms| && i < q <= |inp| && NoneBefore(g, inp, k, skip, arms, b, i)
    ensures |Tails(arms, j)| <= |Tails(arms, b)|
    ensures var o := OutOf(PegAlt(g, inp, k, skip, Alt(Tails(arms, b)), |Tails(arms, j)|, q));
            StepOut(g, inp, k, skip, arms, j, i, Some(q)) ==
              if o == Some(No) then StepOut(g, inp, k, skip, arms, b, i, Some(q)) else o
    decreases b - j
  {
    hide PegAlt, Peg.Peg, Tails, ArmsCutFree, NoneBefore, StepOut, ArmOut;
    TailsGrow(arms, j, b);
    if j < b {
      StepFirst(g, inp, k, skip, arms, j, i, Some(q));
      OneTail(arms, j);
      StepIsTails(g, inp, k, skip, arms, j + 1, b, i, q);
      if arms[j].Tail? { TailFirst(g, inp, k, skip, arms, j, b, q); }
      else { FailsBefore(g, inp, k, skip, arms, b, j, i); }
      ArmIs(g, inp, k, skip, arms[j], i, Some(q));
    } else {
      NoTailLeft(g, inp, k, skip, Alt(Tails(arms, b)), q);
    }
  }

  lemma NoTailLeft(g: Grammar, inp: Input, k: nat, skip: bool, e: Expr, q: nat)
    requires e.Alt? && q <= |inp|
    ensures PegAlt(g, inp, k, skip, e, |e.es|, q) == Some(Answer(No, false, {}))
  {
  }

  lemma StepFirst(g: Grammar, inp: Input, k: nat, skip: bool, arms: seq<Arm>, j: nat, i: nat, seed: Option<nat>)
    requires j < |arms| && i <= |inp| && (seed.Some? ==> i < seed.value <= |inp|)
    ensures var o := ArmOut(g, inp, k, skip, arms[j], i, seed);
            StepOut(g, inp, k, skip, arms, j, i, seed) ==
              if o == Some(No) then StepOut(g, inp, k, skip, arms, j + 1, i, seed) else o
  {
    hide ArmOut;
  }

  lemma ArmIs(g: Grammar, inp: Input, k: nat, skip: bool, arm: Arm, i: nat, seed: Option<nat>)
    requires i <= |inp| && (seed.Some? ==> i < seed.value <= |inp|)
    ensures ArmOut(g, inp, k, skip, arm, i, seed) ==
              if arm.Base? then OutOf(Peg.Peg(g, inp, k, skip, arm.e, i, false))
              else if seed.None? then Some(No) else OutOf(Peg.Peg(g, inp, k, skip, arm.e, seed.value, false))
  {
    hide Peg.Peg;
  }

  /** b is the base branch that seeds the growth, matching up to a position in (i, q]. */
  ghost predicate Seeds(g: Grammar, inp: Input, k: nat, skip: bool, arms: seq<Arm>, b: nat, i: nat, q: nat)
    requires i < q <= |inp|
  {
    && b < |arms| && arms[b].Base? && NoneBefore(g, inp, k, skip, arms, b, i)
    && var a := Peg.Peg(g, inp, k, skip, arms[b].e, i, false);
    a.Some? && a.value.out.Yes? && a.value.out.end <= q
  }

  /** When no tail matches, the seeding base branch matches once more, no further than before. */
  lemma LastStep(g: Grammar, inp: Input, k: nat, skip: bool, arms: seq<Arm>, b: nat, i: nat, q: nat)
    requires i < q <= |inp| && Seeds(g, inp, k, skip, arms, b, i, q)
    ensures var o := StepOut(g, inp, k, skip, arms, b, i, Some(q)); o.Some? && o.value.Yes? && o.value.end <= q
  {
    hide Peg.Peg;
  }

  lemma {:induction false} GrowIsGreedy(g: Grammar, inp: Input, k: nat, skip: bool, arms: seq<Arm>, b: nat, i: nat,
      q: nat)
    requires ArmsCutFree(arms) && i < q <= |inp| && Seeds(g, inp, k, skip, arms, b, i, q)
    ensures GrowOut(g, inp, k, skip, arms, i, Some(q)) == Greedy(g, inp, k, skip, Alt(Tails(arms, b)), q)
    decreases |inp| - q
  {
    hide StepOut, PegAlt, Peg.Peg, Tails, ArmsCutFree;
    StepIsTails(g, inp, k, skip, arms, 0, b, i, q);
    NoTails(arms);
    LastStep(g, inp, k, skip, arms, b, i, q);
    var o := StepOut(g, inp, k, skip, arms, 0, i, Some(q));
    if o.Some? && o.value.Yes? && o.value.end > q { GrowIsGreedy(g, inp, k, skip, arms, b, i, o.value.end); }
  }

  lemma NoTails(arms: seq<Arm>)
    ensures Tails(arms, 0) == []
  {
  }

  /** Growth over branches is the first base branch that does not fail, then the tails before it. */
  lemma GrowIsUnrolled(g: Grammar, inp: Input, k: nat, skip: bool, arms: seq<Arm>, i: nat)
    requires ArmsCutFree(arms) && i <= |inp|
    ensures GrowOut(g, inp, k, skip, arms, i, None) == Unrolled(g, inp, k, skip, arms, i)
  {
    hide Peg.Peg, ArmsCutFree, Greedy, Tails;
    var b := FirstBase(g, inp, k, skip, arms, 0, i);
    FirstStep(g, inp, k, skip, arms, 0, b, i);
    if b < |arms| {
      var a := Peg.Peg(g, inp, k, skip, arms[b].e, i, false);
      if a.Some? && a.value.out.Yes? && a.value.out.end > i {
        GrowIsGreedy(g, inp, k, skip, arms, b, i, a.value.out.end);
      }
    }
  }

  // ---- the body is the choice of its branches ---------------------------------------------------

  /** A sequence is parsed by its children from j on. */
  lemma {:induction false} SameChildren(g: Grammar, inp: Input, k: nat, skip: bool, e: Expr, f: Expr, j: nat,
      i: nat, cut: bool)
    requires i <= |inp| && e.Seq? && f.Seq? && |e.es| == |f.es| && 0 < j <= |e.es| && e.es[j..] == f.es[j..]
    ensures PegSeq(g, inp, k, skip, e, j, i, cut) == PegSeq(g, inp, k, skip, f, j, i, cut)
    decreases |e.es| - j
  {
    if j < |e.es| {
      hide Peg.Peg, PegSkip;
      assert e.es[j] == e.es[j..][0] == f.es[j];
      assert e.es[j + 1..] == e.es[j..][1..] == f.es[j + 1..];
      var w := PegSkip(g, inp, k, skip, i);
      if w.Some? && w.value.out.Yes? {
        var a := Peg.Peg(g, inp, k, skip, e.es[j], w.value.out.end, cut);
        if a.Some? && a.value.out.Yes? {
          SameChildren(g, inp, k, skip, e, f, j + 1, a.value.out.end, a.value.cut);
        }
      }
    }
  }

  /** A sequence is its first child, then the others. */
  lemma SeqSplits(g: Grammar, inp: Input, k: nat, skip: bool, e: Expr, i: nat, cut: bool)
    requires e.Seq? && e.es != [] && i <= |inp|
    ensures var a := Peg.Peg(g, inp, k, skip, e.es[0], i, cut);
            Peg.Peg(g, inp, k, skip, e, i, cut) ==
              if a.None? || !a.value.out.Yes? then a
              else Prefixed(a.value.evs, PegSeq(g, inp, k, skip, e, 1, a.value.out.end, a.value.cut))
  {
    hide Peg.Peg;
    assert Peg.Peg(g, inp, k, skip, e, i, cut) == PegSeq(g, inp, k, skip, e, 0, i, cut) by
        { SeqIs(g, inp, k, skip, e, i, cut); }
    var b := PegSeqNext(g, inp, k, skip, e, 0, i, cut);
    if b.Some? { assert {} + b.value.evs == b.value.evs; }
  }

  lemma SeqIs(g: Grammar, inp: Input, k: nat, skip: bool, e: Expr, i: nat, cut: bool)
    requires e.Seq? && i <= |inp|
    ensures Peg.Peg(g, inp, k, skip, e, i, cut) == PegSeq(g, inp, k, skip, e, 0, i, cut)
  {
  }

  /** What enters neither r nor a partner means what it always means. */
  lemma {:induction false} Untouched(g: Grammar, inp: Input, k: nat, skip: bool, r: RuleId, e: Expr, i: nat,
      seed: Option<nat>)
    requires !Touches(g, r, e) && CutFree(e) && i <= |inp| && (seed.Some? ==> i < seed.value <= |inp|)
    ensures InScope(PegIn(g, inp, k, skip, r, e, i, seed), false) ==
              InScope(Peg.Peg(g, inp, k, skip, e, i, false), false)
    decreases e
  {
    match e
    case Alt(_) => UntouchedFrom(g, inp, k, skip, r, e, 0, i, seed);
    case Seq(es) =>
      if es != [] {
        Untouched(g, inp, k, skip, r, es[0], i, seed);
        SeqSplits(g, inp, k, skip, e, i, false);
        FlagKept(g, inp, k, skip, es[0], i, false);
      }
    case _ =>
  }

  lemma {:induction false} UntouchedFrom(g: Grammar, inp: Input, k: nat, skip: bool, r: RuleId, e: Expr, j: nat, i: nat,
      seed: Option<nat>)
    requires e.Alt? && j <= |e.es| && i <= |inp| && (seed.Some? ==> i < seed.value <= |inp|)
    requires forall l | j <= l < |e.es| :: !Touches(g, r, e.es[l]) && CutFree(e.es[l])
    ensures InScope(PegInAlt(g, inp, k, skip, r, e, j, i, seed), false) ==
              InScope(PegAlt(g, inp, k, skip, e, j, i), false)
    decreases e, |e.es| - j
  {
    if j < |e.es| {
      hide Peg.Peg, PegIn, CutFree, Touches;
      Untouched(g, inp, k, skip, r, e.es[j], i, seed);
      FlagKept(g, inp, k, skip, e.es[j], i, false);
      UntouchedFrom(g, inp, k, skip, r, e, j + 1, i, seed);
    }
  }

  /** Neither r nor its partners have cuts. */
  ghost predicate PiecesCutFree(g: Grammar, r: RuleId) {
    && r in g.rules && CutFree(g.rules[r].body)
    && forall m | Serves(g, m, r) :: CutFree(g.rules[m].body)
  }

  /** The branches of what has no cuts have none. */
  lemma {:induction false} UnfoldCutFree(g: Grammar, r: RuleId, n: nat, e: Expr)
    requires PiecesCutFree(g, r) && CutFree(e)
    ensures ArmsCutFree(Unfold(g, r, n, e))
    decreases n, e
  {
    if Touches(g, r, e) {
      hide PiecesCutFree;
      match e
      case Rule(m) => if m != r && n > 0 { PieceCutFree(g, r, m); UnfoldCutFree(g, r, n - 1, g.rules[m].body); }
      case Alt(_) => UnfoldFromCutFree(g, r, n, e, 0);
      case Seq(es) =>
        UnfoldCutFree(g, r, n, es[0]);
        var arms := Unfold(g, r, n, es[0]);
        if Uniform(arms) {
          LeadCutFree(arms);
          FollowedCutFree(Lead(arms).e, e);
        }
      case _ =>
    }
  }

  lemma PieceCutFree(g: Grammar, r: RuleId, m: RuleId)
    requires PiecesCutFree(g, r) && (m == r || Serves(g, m, r))
    ensures m in g.rules && CutFree(g.rules[m].body)
  {
    hide CutFree;
  }

  lemma LeadCutFree(arms: seq<Arm>)
    requires Uniform(arms) && ArmsCutFree(arms)
    ensures CutFree(Lead(arms).e)
  {
    assert forall j | 0 <= j < |arms| :: arms[j] in arms;
  }

  lemma FollowedCutFree(t: Expr, e: Expr)
    requires CutFree(t) && CutFree(e) && e.Seq? && e.es != []
    ensures CutFree(Seq([t] + e.es[1..]))
  {
  }

  lemma {:induction false} UnfoldFromCutFree(g: Grammar, r: RuleId, n: nat, e: Expr, j: nat)
    requires PiecesCutFree(g, r) && e.Alt? && j <= |e.es| && forall l | j <= l < |e.es| :: CutFree(e.es[l])
    ensures ArmsCutFree(UnfoldFrom(g, r, n, e, j))
    decreases n, e, |e.es| - j
  {
    if j < |e.es| {
      hide PiecesCutFree, CutFree, Unfold;
      UnfoldCutFree(g, r, n, e.es[j]);
      UnfoldFromCutFree(g, r, n, e, j + 1);
    }
  }

  /** If `o` is an outcome, `p` is the same. */
  ghost predicate Keeps(o: Option<Out>, p: Option<Out>) { o.Some? ==> p == o }

  lemma {:induction false} StepDeeper(g: Grammar, inp: Input, k: nat, k': nat, skip: bool, arms: seq<Arm>, j: nat,
      i: nat,
      seed: Option<nat>)
    requires j <= |arms| && i <= |inp| && (seed.Some? ==> i < seed.value <= |inp|) && k <= k'
    ensures Keeps(StepOut(g, inp, k, skip, arms, j, i, seed), StepOut(g, inp, k', skip, arms, j, i, seed))
    decreases |arms| - j
  {
    if j < |arms| {
      hide Peg.Peg;
      Depth.Deeper(g, inp, k, k', skip, arms[j].e, i, false);
      if seed.Some? { Depth.Deeper(g, inp, k, k', skip, arms[j].e, seed.value, false); }
      StepDeeper(g, inp, k, k', skip, arms, j + 1, i, seed);
    }
  }

  /** Some branches, then others. */
  lemma {:induction false} StepSplits(g: Grammar, inp: Input, k: nat, skip: bool, xs: seq<Arm>, ys: seq<Arm>, j: nat,
      i: nat, seed: Option<nat>)
    requires j <= |xs| && i <= |inp| && (seed.Some? ==> i < seed.value <= |inp|)
    ensures var o := StepOut(g, inp, k, skip, xs, j, i, seed);
            StepOut(g, inp, k, skip, xs + ys, j, i, seed) ==
              if o == Some(No) then StepOut(g, inp, k, skip, ys, 0, i, seed) else o
    decreases |xs| - j
  {
    hide ArmOut;
    if j < |xs| {
      StepSplits(g, inp, k, skip, xs, ys, j + 1, i, seed);
    } else {
      StepShift(g, inp, k, skip, xs, ys, 0, i, seed);
    }
  }

  lemma {:induction false} StepShift(g: Grammar, inp: Input, k: nat, skip: bool, xs: seq<Arm>, ys: seq<Arm>, j: nat,
      i: nat, seed: Option<nat>)
    requires j <= |ys| && i <= |inp| && (seed.Some? ==> i < seed.value <= |inp|)
    ensures StepOut(g, inp, k, skip, xs + ys, |xs| + j, i, seed) == StepOut(g, inp, k, skip, ys, j, i, seed)
    decreases |ys| - j
  {
    hide ArmOut;
    if j < |ys| {
      assert (xs + ys)[|xs| + j] == ys[j];
      StepShift(g, inp, k, skip, xs, ys, j + 1, i, seed);
    }
  }

  /** One branch. */
  lemma StepOne(g: Grammar, inp: Input, k: nat, skip: bool, arm: Arm, i: nat, seed: Option<nat>)
    requires i <= |inp| && (seed.Some? ==> i < seed.value <= |inp|)
    ensures StepOut(g, inp, k, skip, [arm], 0, i, seed) == ArmOut(g, inp, k, skip, arm, i, seed)
  {
    hide ArmOut;
    var o := ArmOut(g, inp, k, skip, arm, i, seed);
    assert StepOut(g, inp, k, skip, [arm], 1, i, seed) == Some(No);
  }

  /** Branches that count as one. */
  lemma StepLead(g: Grammar, inp: Input, k: nat, skip: bool, arms: seq<Arm>, i: nat, seed: Option<nat>)
    requires Uniform(arms) && ArmsCutFree(arms) && i <= |inp| && (seed.Some? ==> i < seed.value <= |inp|)
    ensures StepOut(g, inp, k, skip, arms, 0, i, seed) == ArmOut(g, inp, k, skip, Lead(arms), i, seed)
  {
    hide StepOut, ArmsCutFree, PegAlt;
    if |arms| == 1 {
      assert arms == [arms[0]];
      StepOne(g, inp, k, skip, arms[0], i, seed);
    } else {
      StepAll(g, inp, k, skip, arms, 0, i, seed);
    }
  }

  lemma {:induction false} StepAll(g: Grammar, inp: Input, k: nat, skip: bool, arms: seq<Arm>, j: nat, i: nat,
      seed: Option<nat>)
    requires Uniform(arms) && ArmsCutFree(arms) && j <= |arms|
    requires i <= |inp| && (seed.Some? ==> i < seed.value <= |inp|)
    ensures StepOut(g, inp, k, skip, arms, j, i, seed) ==
              if arms[0].Base? then OutOf(PegAlt(g, inp, k, skip, Alt(Exprs(arms)), j, i))
              else if seed.None? then Some(No)
              else OutOf(PegAlt(g, inp, k, skip, Alt(Exprs(arms)), j, seed.value))
    decreases |arms| - j
  {
    hide Peg.Peg, PegAlt, StepOut, ArmOut, ArmsCutFree;
    var e, at := Alt(Exprs(arms)), if arms[0].Base? || seed.None? then i else seed.value;
    if j < |arms| {
      StepFirst(g, inp, k, skip, arms, j, i, seed);
      ArmIs(g, inp, k, skip, arms[j], i, seed);
      AltIs(g, inp, k, skip, e, j, at);
      assert CutFree(arms[j].e) by { ArmCutFree(arms, j); }
      FlagKept(g, inp, k, skip, arms[j].e, at, false);
      StepAll(g, inp, k, skip, arms, j + 1, i, seed);
    } else {
      NoTailLeft(g, inp, k, skip, e, at);
      assert StepOut(g, inp, k, skip, arms, j, i, seed) == Some(No) by { NoArmLeft(g, inp, k, skip, arms, i, seed); }
    }
  }

  lemma ArmCutFree(arms: seq<Arm>, j: nat)
    requires ArmsCutFree(arms) && j < |arms|
    ensures CutFree(arms[j].e)
  {
    hide CutFree;
  }

  lemma NoArmLeft(g: Grammar, inp: Input, k: nat, skip: bool, arms: seq<Arm>, i: nat, seed: Option<nat>)
    requires i <= |inp| && (seed.Some? ==> i < seed.value <= |inp|)
    ensures StepOut(g, inp, k, skip, arms, |arms|, i, seed) == Some(No)
  {
  }

  /** A step over `e` is a step over its branches: an outcome of either is the outcome of the other, n levels deeper
      for what is behind partners. */
  lemma {:induction false} InIsUnfolded(g: Grammar, inp: Input, k: nat, skip: bool, r: RuleId, n: nat, e: Expr, i: nat,
      seed: Option<nat>)
    requires PiecesCutFree(g, r) && CutFree(e) && Unfolds(g, r, n, e)
    requires i <= |inp| && (seed.Some? ==> i < seed.value <= |inp|)
    ensures var o := StepOut(g, inp, k, skip, Unfold(g, r, n, e), 0, i, seed);
            && Keeps(OutOf(PegIn(g, inp, k, skip, r, e, i, seed)), o)
            && Keeps(o, OutOf(PegIn(g, inp, k + n, skip, r, e, i, seed)))
    decreases n, e
  {
    if !Touches(g, r, e) {
      hide Peg.Peg, PegIn, PiecesCutFree, CutFree, Unfolds;
      Untouched(g, inp, k, skip, r, e, i, seed);
      Depth.DeeperIn(g, inp, k, k + n, skip, r, e, i, seed);
      StepOne(g, inp, k, skip, Base(e), i, seed);
    } else {
      match e
      case Rule(m) =>
        if m == r { StepOne(g, inp, k, skip, Tail(Empty), i, seed); }
        else { InIsUnfoldedPartner(g, inp, k, skip, r, n, m, i, seed); }
      case Alt(_) => InIsUnfoldedFrom(g, inp, k, skip, r, n, e, 0, i, seed);
      case Seq(es) => InIsUnfoldedSeq(g, inp, k, skip, r, n, e, i, seed);
      case _ =>
    }
  }

  lemma {:induction false} InIsUnfoldedPartner(g: Grammar, inp: Input, k: nat, skip: bool, r: RuleId, n: nat, m: RuleId,
      i: nat, seed: Option<nat>)
    requires PiecesCutFree(g, r) && Serves(g, m, r) && n > 0 && Unfolds(g, r, n - 1, g.rules[m].body)
    requires i <= |inp| && (seed.Some? ==> i < seed.value <= |inp|)
    ensures var o := StepOut(g, inp, k, skip, Unfold(g, r, n - 1, g.rules[m].body), 0, i, seed);
            && Keeps(OutOf(PegIn(g, inp, k, skip, r, Rule(m), i, seed)), o)
            && Keeps(o, OutOf(PegIn(g, inp, k + n, skip, r, Rule(m), i, seed)))
    decreases n, Rule(m), 0
  {
    hide PiecesCutFree, CutFree, Unfolds, Unfold, StepOut, Peg.Peg;
    var body := g.rules[m].body;
    PieceCutFree(g, r, m);
    InIsUnfolded(g, inp, k, skip, r, n - 1, body, i, seed);
    if k > 0 {
      InIsUnfolded(g, inp, k - 1, skip, r, n - 1, body, i, seed);
      StepDeeper(g, inp, k - 1, k, skip, Unfold(g, r, n - 1, body), 0, i, seed);
    }
  }

  lemma {:induction false} InIsUnfoldedFrom(g: Grammar, inp: Input, k: nat, skip: bool, r: RuleId, n: nat, e: Expr,
      j: nat,
      i: nat, seed: Option<nat>)
    requires PiecesCutFree(g, r) && e.Alt? && j <= |e.es|
    requires forall l | j <= l < |e.es| :: Unfolds(g, r, n, e.es[l]) && CutFree(e.es[l])
    requires i <= |inp| && (seed.Some? ==> i < seed.value <= |inp|)
    ensures var o := StepOut(g, inp, k, skip, UnfoldFrom(g, r, n, e, j), 0, i, seed);
            && Keeps(OutOf(PegInAlt(g, inp, k, skip, r, e, j, i, seed)), o)
            && Keeps(o, OutOf(PegInAlt(g, inp, k + n, skip, r, e, j, i, seed)))
    decreases n, e, |e.es| - j
  {
    hide PiecesCutFree, CutFree, Unfolds, Unfold, PegIn;
    if j < |e.es| {
      InIsUnfolded(g, inp, k, skip, r, n, e.es[j], i, seed);
      InIsUnfoldedFrom(g, inp, k, skip, r, n, e, j + 1, i, seed);
      StepSplits(g, inp, k, skip, Unfold(g, r, n, e.es[j]), UnfoldFrom(g, r, n, e, j + 1), 0, i, seed);
    }
  }

  lemma {:induction false} InIsUnfoldedSeq(g: Grammar, inp: Input, k: nat, skip: bool, r: RuleId, n: nat, e: Expr,
      i: nat,
      seed: Option<nat>)
    requires PiecesCutFree(g, r) && CutFree(e) && e.Seq? && e.es != [] && Unfolds(g, r, n, e.es[0])
    requires Uniform(Unfold(g, r, n, e.es[0]))
    requires i <= |inp| && (seed.Some? ==> i < seed.value <= |inp|)
    ensures var o := StepOut(g, inp, k, skip, Followed(Unfold(g, r, n, e.es[0]), e), 0, i, seed);
            && Keeps(OutOf(PegIn(g, inp, k, skip, r, e, i, seed)), o)
            && Keeps(o, OutOf(PegIn(g, inp, k + n, skip, r, e, i, seed)))
    decreases n, e, 0
  {
    hide PiecesCutFree, Unfolds, Unfold, Peg.Peg, StepOut, PegSeq, Uniform, Lead, ArmsCutFree;
    var arms := Unfold(g, r, n, e.es[0]);
    var arm := Lead(arms);
    InIsUnfolded(g, inp, k, skip, r, n, e.es[0], i, seed);
    UnfoldCutFree(g, r, n, e.es[0]);
    StepLead(g, inp, k, skip, arms, i, seed);
    LeadCutFree(arms);
    StepOne(g, inp, k, skip, arm.(e := Seq([arm.e] + e.es[1..])), i, seed);
    var at := if arm.Base? then i else if seed.Some? then seed.value else i;
    var a := Peg.Peg(g, inp, k, skip, arm.e, at, false);
    FollowedIs(g, inp, k, skip, arm.e, e, at);
    if a.Some? && a.value.out.Yes? { Depth.DeeperSeq(g, inp, k, k + n, skip, e, 1, a.value.out.end, false); }
  }

  /** A branch with the rest of a sequence behind it. */
  lemma FollowedIs(g: Grammar, inp: Input, k: nat, skip: bool, t: Expr, e: Expr, q: nat)
    requires CutFree(t) && e.Seq? && e.es != [] && q <= |inp|
    ensures var a := Peg.Peg(g, inp, k, skip, t, q, false);
            OutOf(Peg.Peg(g, inp, k, skip, Seq([t] + e.es[1..]), q, false)) ==
              if a.None? || !a.value.out.Yes? then OutOf(a)
              else OutOf(PegSeq(g, inp, k, skip, e, 1, a.value.out.end, false))
  {
    hide Peg.Peg, CutFree, PegSeq;
    var f := Seq([t] + e.es[1..]);
    assert f.es[0] == t && f.es[1..] == e.es[1..];
    SeqSplits(g, inp, k, skip, f, q, false);
    FlagKept(g, inp, k, skip, t, q, false);
    var a := Peg.Peg(g, inp, k, skip, t, q, false);
    if a.Some? && a.value.out.Yes? { SameChildren(g, inp, k, skip, e, f, 1, a.value.out.end, false); }
  }

  // ---- growth is a greedy iteration -------------------------------------------------------------

  lemma {:induction false} GrowIsUnfolded(g: Grammar, inp: Input, k: nat, skip: bool, r: RuleId, n: nat, i: nat,
      seed: Option<nat>)
    requires PiecesCutFree(g, r) && Choice(g, r, n) && i <= |inp| && (seed.Some? ==> i < seed.value <= |inp|)
    ensures var o := GrowOut(g, inp, k, skip, Arms(g, r, n), i, seed);
            && Keeps(OutOf(PegGrow(g, inp, k, skip, r, i, seed)), o)
            && Keeps(o, OutOf(PegGrow(g, inp, k + n, skip, r, i, seed)))
    decreases |inp| - (if seed.Some? then seed.value else i)
  {
    hide PiecesCutFree, Unfold, Unfolds, PegIn, StepOut;
    PieceCutFree(g, r, r);
    InIsUnfolded(g, inp, k, skip, r, n, g.rules[r].body, i, seed);
    var o := StepOut(g, inp, k, skip, Arms(g, r, n), 0, i, seed);
    if o.Some? && o.value.Yes? && o.value.end > (if seed.Some? then seed.value else i) {
      GrowIsUnfolded(g, inp, k, skip, r, n, i, Some(o.value.end));
    }
  }

  /** Growth is the first base branch that does not fail followed by the tails before it: an answer of either is
      the answer of the other, as many levels deeper as there are partners in a row. */
  lemma GrowthIsUnrolled(g: Grammar, inp: Input, k: nat, skip: bool, r: RuleId, n: nat, i: nat)
    requires PiecesCutFree(g, r) && Choice(g, r, n) && i <= |inp|
    ensures var o := Unrolled(g, inp, k, skip, Arms(g, r, n), i);
            && Keeps(OutOf(PegGrow(g, inp, k, skip, r, i, None)), o)
            && Keeps(o, OutOf(PegGrow(g, inp, k + n, skip, r, i, None)))
  {
    hide PiecesCutFree, Unfold, Unfolds, PegGrow, Unrolled, GrowOut;
    PieceCutFree(g, r, r);
    UnfoldCutFree(g, r, n, g.rules[r].body);
    GrowIsUnfolded(g, inp, k, skip, r, n, i, None);
    GrowIsUnrolled(g, inp, k, skip, Arms(g, r, n), i);
  }

  /** The rule fails iff every base branch fails. */
  lemma FailsWithItsBases(g: Grammar, inp: Input, k: nat, skip: bool, r: RuleId, n: nat, i: nat)
    requires PiecesCutFree(g, r) && Choice(g, r, n) && i <= |inp| && PegGrow(g, inp, k, skip, r, i, None).Some?
    ensures Fails(PegGrow(g, inp, k, skip, r, i, None)) <==>
              NoneBefore(g, inp, k, skip, Arms(g, r, n), |Arms(g, r, n)|, i)
  {
    hide PiecesCutFree, Unfold, Unfolds, PegGrow, Peg.Peg;
    GrowthIsUnrolled(g, inp, k, skip, r, n, i);
  }

  // ---- when the branches behind the base matter -------------------------------------------------

  /** The choice would take the iteration further, or throw. */
  ghost predicate Extends(a: Option<Answer>, q: nat) {
    a.Some? && (a.value.out.Throw? || (a.value.out.Yes? && a.value.out.end > q))
  }

  /** A branch that does not fail is not followed by others. */
  lemma {:induction false} AltPrefix(g: Grammar, inp: Input, k: nat, skip: bool, e: Expr, f: Expr, x: nat, q: nat)
    requires e.Alt? && f.Alt? && e.es <= f.es && x <= |e.es| && q <= |inp|
    ensures PegAlt(g, inp, k, skip, e, x, q).Some? && !PegAlt(g, inp, k, skip, e, x, q).value.out.No? ==>
              PegAlt(g, inp, k, skip, f, x, q) == PegAlt(g, inp, k, skip, e, x, q)
    decreases |e.es| - x
  {
    if x < |e.es| {
      hide Peg.Peg;
      AltPrefix(g, inp, k, skip, e, f, x + 1, q);
    }
  }

  /** Iterating over the first tails only ends where iterating over all of them does, unless another tail
      goes on from there. */
  lemma {:induction false} MoreTails(g: Grammar, inp: Input, k: nat, skip: bool, e: Expr, f: Expr, q: nat)
    requires e.Alt? && f.Alt? && e.es <= f.es && q <= |inp|
    requires Greedy(g, inp, k, skip, e, q).Some? && Greedy(g, inp, k, skip, f, q).Some?
    ensures var o := Greedy(g, inp, k, skip, e, q).value;
            Greedy(g, inp, k, skip, f, q).value == o <==>
              o.Throw? || !Extends(PegAlt(g, inp, k, skip, f, 0, o.end), o.end)
    decreases |inp| - q
  {
    hide PegAlt;
    AltPrefix(g, inp, k, skip, e, f, 0, q);
    var a := PegAlt(g, inp, k, skip, e, 0, q).value.out;
    if a.Yes? && a.end > q { MoreTails(g, inp, k, skip, e, f, a.end); }
  }

  /** Growth from a base branch that consumed is the iteration of every tail of the rule, wherever it stands, iff
      no tail could go on where the growth ends. */
  lemma GrowsFullyIff(g: Grammar, inp: Input, k: nat, skip: bool, r: RuleId, n: nat, b: nat, i: nat, q: nat)
    requires PiecesCutFree(g, r) && Choice(g, r, n) && i < q <= |inp| && Seeds(g, inp, k, skip, Arms(g, r, n), b, i, q)
        && EndsAt(Peg.Peg(g, inp, k, skip, Arms(g, r, n)[b].e, i, false), q)
    requires PegGrow(g, inp, k, skip, r, i, None).Some?
    requires Greedy(g, inp, k, skip, Alt(Tails(Arms(g, r, n), |Arms(g, r, n)|)), q).Some?
    ensures var o, arms := PegGrow(g, inp, k, skip, r, i, None).value.out, Arms(g, r, n);
            var all := Alt(Tails(arms, |arms|));
            && Greedy(g, inp, k, skip, Alt(Tails(arms, b)), q) == Some(o)
            && (Greedy(g, inp, k, skip, all, q).value == o <==>
                  o.Throw? || !Extends(PegAlt(g, inp, k, skip, all, 0, o.end), o.end))
  {
    hide PiecesCutFree, Unfold, Unfolds, PegGrow, Peg.Peg, Tails, Greedy, PegAlt;
    var arms := Arms(g, r, n);
    GrowthIsUnrolled(g, inp, k, skip, r, n, i);
    TailsGrow(arms, b, |arms|);
    FirstIsSeed(g, inp, k, skip, arms, b, i, q);
    MoreTails(g, inp, k, skip, Alt(Tails(arms, b)), Alt(Tails(arms, |arms|)), q);
  }

  lemma FirstIsSeed(g: Grammar, inp: Input, k: nat, skip: bool, arms: seq<Arm>, b: nat, i: nat, q: nat)
    requires i < q <= |inp| && Seeds(g, inp, k, skip, arms, b, i, q)
    ensures FirstBase(g, inp, k, skip, arms, 0, i) == b
  {
    hide Peg.Peg;
    var f := FirstBase(g, inp, k, skip, arms, 0, i);
    FailsBefore(g, inp, k, skip, arms, b, f, i);
    FailsBefore(g, inp, k, skip, arms, f, b, i);
  }

  // ---- the rule without recursion ---------------------------------------------------------------

  /** `base (tail / ... / tail)*` for the base branch b. */
  function Line(arms: seq<Arm>, b: nat): Expr
    requires b < |arms|
  {
    Seq([arms[b].e, Rep(Alt(Tails(arms, b)), 0, -1)])
  }

  /** The lines of the base branches before j, in order. */
  function Lines(arms: seq<Arm>, j: nat): seq<Expr>
    requires j <= |arms|
  {
    if j == 0 then [] else Lines(arms, j - 1) + if arms[j - 1].Tail? then [] else [Line(arms, j - 1)]
  }

  function Iteration(arms: seq<Arm>): Expr { Alt(Lines(arms, |arms|)) }

  /** g with the iteration in place of the recursion; the partners of r are ordinary rules again. */
  function Iterated(g: Grammar, r: RuleId, n: nat): Grammar
    requires Choice(g, r, n)
  {
    g.(rules := g.rules[r := g.rules[r].(body := Iteration(Arms(g, r, n)))],
       grown := g.grown - {r},
       partners := map m | m in g.partners && g.partners[m] != r :: g.partners[m])
  }

  lemma {:induction false} LinesGrow(arms: seq<Arm>, x: nat, j: nat)
    requires x <= j <= |arms|
    ensures Lines(arms, x) <= Lines(arms, j)
    ensures x < j && arms[x].Base? ==>
              |Lines(arms, x)| < |Lines(arms, j)| && Lines(arms, j)[|Lines(arms, x)|] == Line(arms, x)
    decreases j
  {
    if x < j { LinesGrow(arms, x, j - 1); }
  }

  lemma NoLines(arms: seq<Arm>)
    ensures Lines(arms, 0) == []
  {
  }

  lemma OneLine(arms: seq<Arm>, j: nat)
    requires j < |arms|
    ensures |Lines(arms, j + 1)| == |Lines(arms, j)| + if arms[j].Tail? then 0 else 1
  {
  }

  /** No base branch matches at i without consuming. */
  ghost predicate BasesAdvance(g: Grammar, inp: Input, k: nat, skip: bool, arms: seq<Arm>, i: nat)
    requires i <= |inp|
  {
    forall l: nat | l < |arms| && arms[l].Base? :: !EndsAt(Peg.Peg(g, inp, k, skip, arms[l].e, i, false), i)
  }

  /** Without a skipper, greedy iteration is repetition. */
  lemma {:induction false} GreedyIsRep(g: Grammar, inp: Input, k: nat, skip: bool, e: Expr, count: nat, q: nat)
    requires g.skipper.None? && e.Rep? && e.min == 0 && e.max == -1 && e.child.Alt? && q <= |inp|
    ensures var o, a := Greedy(g, inp, k, skip, e.child, q), PegRep(g, inp, k, skip, e, count, q);
            (o.Some? <==> a.Some?) && (o.Some? ==> a.value.out == o.value)
    decreases |inp| - q
  {
    var a := PegAlt(g, inp, k, skip, e.child, 0, q);
    assert PegSkip(g, inp, k, skip, q) == Some(Answer(Yes(q), false, {}));
    assert Peg.Peg(g, inp, k, skip, e.child, q, false) == InScope(a, false);
    if a.Some? && a.value.out.Yes? && a.value.out.end > q
        { GreedyIsRep(g, inp, k, skip, e, count + 1, a.value.out.end); }
  }

  /** A line is its base branch, then the greedy iteration. */
  lemma LineIs(g: Grammar, inp: Input, k: nat, skip: bool, arms: seq<Arm>, b: nat, i: nat)
    requires b < |arms| && g.skipper.None? && i <= |inp|
    ensures var a, l := Peg.Peg(g, inp, k, skip, arms[b].e, i, false),
                Peg.Peg(g, inp, k, skip, Line(arms, b), i, false);
            && (a.None? ==> l.None?)
            && (a.Some? && !a.value.out.Yes? ==> l == a)
            && (a.Some? && a.value.out.Yes? ==>
                  OutOf(l) == Greedy(g, inp, k, skip, Alt(Tails(arms, b)), a.value.out.end))
  {
    hide Greedy, PegRep, Tails, Peg.Peg;
    var e := Line(arms, b);
    SeqSplits(g, inp, k, skip, e, i, false);
    var a := Peg.Peg(g, inp, k, skip, e.es[0], i, false);
    if a.Some? && a.value.out.Yes? {
      var q, cut := a.value.out.end, a.value.cut;
      GreedyIsRep(g, inp, k, skip, e.es[1], 0, q);
      RepIs(g, inp, k, skip, e.es[1], q, cut);
      LastChild(g, inp, k, skip, e, 1, q, cut);
    }
  }

  lemma RepIs(g: Grammar, inp: Input, k: nat, skip: bool, e: Expr, q: nat, cut: bool)
    requires e.Rep? && q <= |inp|
    ensures Peg.Peg(g, inp, k, skip, e, q, cut) == InScope(PegRep(g, inp, k, skip, e, 0, q), cut)
  {
  }

  /** The last child of a sequence. */
  lemma LastChild(g: Grammar, inp: Input, k: nat, skip: bool, e: Expr, j: nat, q: nat, cut: bool)
    requires g.skipper.None? && e.Seq? && j + 1 == |e.es| && q <= |inp|
    ensures var a, l := Peg.Peg(g, inp, k, skip, e.es[j], q, cut), PegSeq(g, inp, k, skip, e, j, q, cut);
            (a.Some? <==> l.Some?) && (a.Some? ==> a.value.out == l.value.out)
  {
    hide Peg.Peg;
    assert PegSkip(g, inp, k, skip, q) == Some(Answer(Yes(q), false, {}));
    var a := Peg.Peg(g, inp, k, skip, e.es[j], q, cut);
    assert PegSeq(g, inp, k, skip, e, j, q, cut) == Prefixed({}, PegSeqNext(g, inp, k, skip, e, j, q, cut));
    if a.Some? && a.value.out.Yes? {
      assert PegSeq(g, inp, k, skip, e, j + 1, a.value.out.end, a.value.cut).value.out == a.value.out;
    }
  }

  ghost predicate SameOut(s: Option<Answer>, t: Option<Answer>) { OutOf(s) == OutOf(t) }

  lemma LinePassed(g: Grammar, inp: Input, k: nat, skip: bool, arms: seq<Arm>, x: nat, i: nat)
    requires ArmsCutFree(arms) && x < |arms| && g.skipper.None? && i <= |inp|
    requires arms[x].Base? ==> Fails(Peg.Peg(g, inp, k, skip, arms[x].e, i, false))
    ensures |Lines(arms, x)| <= |Lines(arms, x + 1)| <= |Lines(arms, |arms|)|
    ensures SameOut(PegAlt(g, inp, k, skip, Iteration(arms), |Lines(arms, x)|, i),
                    PegAlt(g, inp, k, skip, Iteration(arms), |Lines(arms, x + 1)|, i))
  {
    hide PegAlt, Peg.Peg, Lines, Line, CutFree;
    OneLine(arms, x);
    LinesGrow(arms, x, |arms|);
    LinesGrow(arms, x + 1, |arms|);
    if arms[x].Base? {
      FlagKept(g, inp, k, skip, arms[x].e, i, false);
      LineIs(g, inp, k, skip, arms, x, i);
      AltIs(g, inp, k, skip, Iteration(arms), |Lines(arms, x)|, i);
    }
  }

  /** The choice of lines passes over the base branches that fail. */
  lemma {:induction false} LinesBefore(g: Grammar, inp: Input, k: nat, skip: bool, arms: seq<Arm>, x: nat, b: nat,
      i: nat)
    requires ArmsCutFree(arms) && g.skipper.None? && i <= |inp| && x <= b <= |arms|
    requires NoneBefore(g, inp, k, skip, arms, b, i)
    ensures |Lines(arms, x)| <= |Lines(arms, b)| <= |Lines(arms, |arms|)|
    ensures SameOut(PegAlt(g, inp, k, skip, Iteration(arms), |Lines(arms, x)|, i),
                    PegAlt(g, inp, k, skip, Iteration(arms), |Lines(arms, b)|, i))
    decreases b - x
  {
    hide PegAlt, Peg.Peg, Lines, Iteration, NoneBefore, ArmsCutFree;
    if x < b {
      FailsBefore(g, inp, k, skip, arms, b, x, i);
      LinePassed(g, inp, k, skip, arms, x, i);
      LinesBefore(g, inp, k, skip, arms, x + 1, b, i);
    } else {
      LinesGrow(arms, b, |arms|);
    }
  }

  /** The iteration is its first base branch that does not fail, then the tails before it, greedily. */
  lemma IterationIs(g: Grammar, inp: Input, k: nat, skip: bool, arms: seq<Arm>, i: nat)
    requires ArmsCutFree(arms) && g.skipper.None? && i <= |inp|
    ensures var b, o := FirstBase(g, inp, k, skip, arms, 0, i),
                OutOf(Peg.Peg(g, inp, k, skip, Iteration(arms), i, false));
            if b == |arms| then o == Some(No)
            else
              var a := Peg.Peg(g, inp, k, skip, arms[b].e, i, false);
              if a.Some? && a.value.out.Yes? then
                o == Greedy(g, inp, k, skip, Alt(Tails(arms, b)), a.value.out.end)
              else o == OutOf(a)
  {
    hide Greedy, Lines, Line, CutFree, Peg.Peg, PegAlt;
    NoLines(arms);
    var b := FirstBase(g, inp, k, skip, arms, 0, i);
    LinesBefore(g, inp, k, skip, arms, 0, b, i);
    ChoiceIs(g, inp, k, skip, Iteration(arms), i);
    if b < |arms| {
      LinesGrow(arms, b, |arms|);
      LineIs(g, inp, k, skip, arms, b, i);
      AltIs(g, inp, k, skip, Iteration(arms), |Lines(arms, b)|, i);
    } else {
      assert PegAlt(g, inp, k, skip, Iteration(arms), |Lines(arms, b)|, i) == Some(Answer(No, false, {})) by {
        NoTailLeft(g, inp, k, skip, Iteration(arms), i);
      }
    }
  }

  lemma ChoiceIs(g: Grammar, inp: Input, k: nat, skip: bool, e: Expr, i: nat)
    requires e.Alt? && i <= |inp|
    ensures Peg.Peg(g, inp, k, skip, e, i, false) == InScope(PegAlt(g, inp, k, skip, e, 0, i), false)
  {
  }

  /** Growth and iteration agree iff it is not so that the first base branch that does not fail matches empty and a
      tail before it could go on: growth never extends an empty seed. */
  lemma AgreesIff(g: Grammar, inp: Input, k: nat, skip: bool, r: RuleId, n: nat, i: nat)
    requires PiecesCutFree(g, r) && Choice(g, r, n) && g.skipper.None? && i <= |inp|
    requires PegGrow(g, inp, k, skip, r, i, None).Some?
    requires Peg.Peg(g, inp, k, skip, Iteration(Arms(g, r, n)), i, false).Some?
    ensures var arms := Arms(g, r, n);
            var b := FirstBase(g, inp, k, skip, arms, 0, i);
            PegGrow(g, inp, k, skip, r, i, None).value.out ==
                Peg.Peg(g, inp, k, skip, Iteration(arms), i, false).value.out
            <==> !(b < |arms| && EndsAt(Peg.Peg(g, inp, k, skip, arms[b].e, i, false), i)
                   && Extends(PegAlt(g, inp, k, skip, Alt(Tails(arms, b)), 0, i), i))
  {
    hide PiecesCutFree, Unfold, Unfolds, PegGrow, Iteration, PegAlt, Peg.Peg, Tails;
    ArmsHaveNoCut(g, r, n);
    GrowthIsUnrolled(g, inp, k, skip, r, n, i);
    IterationIs(g, inp, k, skip, Arms(g, r, n), i);
  }

  lemma ArmsHaveNoCut(g: Grammar, r: RuleId, n: nat)
    requires PiecesCutFree(g, r) && Choice(g, r, n)
    ensures ArmsCutFree(Arms(g, r, n))
  {
    hide PiecesCutFree, Unfold, Unfolds;
    PieceCutFree(g, r, r);
    UnfoldCutFree(g, r, n, g.rules[r].body);
  }

  /** Growth is the iteration: an answer of either is one of the other. */
  lemma GrowthIsIteration(g: Grammar, inp: Input, k: nat, skip: bool, r: RuleId, n: nat, i: nat)
    requires PiecesCutFree(g, r) && Choice(g, r, n) && g.skipper.None? && i <= |inp|
    requires BasesAdvance(g, inp, k, skip, Arms(g, r, n), i)
    ensures var o := OutOf(Peg.Peg(g, inp, k, skip, Iteration(Arms(g, r, n)), i, false));
            && Keeps(OutOf(PegGrow(g, inp, k, skip, r, i, None)), o)
            && Keeps(o, OutOf(PegGrow(g, inp, k + n, skip, r, i, None)))
  {
    hide PiecesCutFree, Unfold, Unfolds, PegGrow, Iteration, Greedy, Tails, Peg.Peg;
    ArmsHaveNoCut(g, r, n);
    GrowthIsUnrolled(g, inp, k, skip, r, n, i);
    IterationIs(g, inp, k, skip, Arms(g, r, n), i);
  }
}
