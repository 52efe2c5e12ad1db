/** Ford's semantics as derivations ("Parsing Expression Grammars", POPL 2004, section 3.2), with cuts, auto-skip and
    failure events: finite trees of inferences, one rule of inference for each way an expression can come out.  Without
    growth the memo-free evaluator of `Peg` answers exactly what can be derived. */
module Derivations {
  import opened Grammars
  import opened Peg
  import opened Soundness
  import Depth
  import Forms
  import Leaves
  import Machine
  import Packrat
  import Readings
  import Transparency

  /** A conclusion and the derivations of its premises. */
  datatype Proof = Proof(a: Answer, subs: seq<Proof>)

  function Axiom(a: Answer): Proof { Proof(a, []) }

  /** One element taken, or that failure. */
  function OneStep(b: bool, i: nat, cut: bool, item: Item): Proof {
    Axiom(if b then Answer(Yes(i + 1), cut, {}) else Answer(No, cut, {Failure(i, item)}))
  }

  ghost predicate Ranges(inp: Input, i: nat, d: Proof) {
    d.a.out.Yes? ==> i <= d.a.out.end <= |inp|
  }

  /** d derives its answer for `e` at i. */
  ghost predicate Proves(g: Grammar, inp: Input, skip: bool, e: Expr, i: nat, cut: bool, d: Proof)
    requires i <= |inp|
    decreases d, 1
  {
    Ranges(inp, i, d) &&
    match e
    case Empty => d == Axiom(Answer(Yes(i), cut, {}))
    case Terminal(p, item) => d == OneStep(i < |inp| && p.Accepts(inp[i]), i, cut, item)
    case Token(p, item) => d == OneStep(i < |inp| && p.Accepts(inp[i]), i, cut, item)
    case TerminalSeq(syms, item) =>
      d == Axiom(if Leaves.OneByOne(inp, syms, i) then Answer(Yes(i + |syms|), cut, {})
                 else Answer(No, cut, {Failure(i, item)}))
    case Matcher(fn) => d == Axiom(Answer(if fn(inp, i).Some? then Yes(fn(inp, i).value) else No, cut, {}))
    case Cut => d == Axiom(Answer(Yes(i), true, {}))
    case Lexeme(child) => |d.subs| == 1 && Proves(g, inp, false, child, i, cut, d.subs[0]) && d.a == d.subs[0].a
    case Not(child) => |d.subs| == 1 && Proves(g, inp, skip, child, i, cut, d.subs[0]) && Negated(i, d.subs[0].a, d.a)
    case And(child) => |d.subs| == 1 && Proves(g, inp, skip, child, i, cut, d.subs[0]) && Looked(i, d.subs[0].a, d.a)
    case Seq(es) => ProvesRow(g, inp, skip, es, true, i, cut, d)
    case Alt(es) => |d.subs| == 1 && ProvesChoice(g, inp, skip, es, i, d.subs[0]) && d.a == d.subs[0].a.(cut := cut)
    case Rep(_, _, _) => |d.subs| == 1 && ProvesMore(g, inp, skip, e, 0, i, d.subs[0])
        && d.a == d.subs[0].a.(cut := cut)
    case Rule(r) => |d.subs| == 1 && ProvesRule(g, inp, skip, r, i, d.subs[0]) && d.a == d.subs[0].a.(cut := cut)
  }

  /** A lookahead succeeds where its operand fails, and never moves. */
  predicate Negated(i: nat, b: Answer, a: Answer) {
    && a.cut == b.cut && a.evs == b.evs && (b.out.Yes? ==> a.out == No) && (b.out.No? ==> a.out == Yes(i))
    && (b.out.Throw? ==> a.out == Throw)
  }

  predicate Looked(i: nat, b: Answer, a: Answer) {
    a.cut == b.cut && a.evs == b.evs && (b.out.Yes? ==> a.out == Yes(i)) && (!b.out.Yes? ==> a.out == b.out)
  }

  /** A rule derives what its body does; a failure comes with its label, or without one with its name. */
  ghost predicate ProvesRule(g: Grammar, inp: Input, skip: bool, r: RuleId, i: nat, d: Proof)
    requires i <= |inp|
    decreases d, 1
  {
    && Ranges(inp, i, d) && r in g.rules && |d.subs| == 1
    && Proves(g, inp, skip, g.rules[r].body, i, false, d.subs[0])
    && var def, b := g.rules[r], d.subs[0].a;
       && d.a.out == b.out && d.a.cut == b.cut
       && d.a.evs == b.evs + if !b.out.No? then {}
                             else if def.tag != "" then {Failure(i, Item(RuleLabel, def.tag))}
                             else if def.name != "" then {Failure(i, Item(RuleName, def.name))}
                             else {}
  }

  /** The gap in front of a child that is not the first: where the skipper ends, if it matches. */
  ghost predicate ProvesGap(g: Grammar, inp: Input, skip: bool, first: bool, i: nat, cut: bool, d: Proof)
    requires i <= |inp|
    decreases d, 2
  {
    Ranges(inp, i, d) &&
    if first || !skip || g.skipper.None? then d == Axiom(Answer(Yes(i), cut, {}))
    else
      && |d.subs| == 1 && ProvesRule(g, inp, false, g.skipper.value, i, d.subs[0])
      && var b := d.subs[0].a;
         d.a == Answer(if b.out.No? then Yes(i) else b.out, cut, b.evs)
  }

  /** The children `es`, with a gap in front of each but the first of the sequence. */
  ghost predicate ProvesRow(g: Grammar, inp: Input, skip: bool, es: seq<Expr>, first: bool, i: nat, cut: bool, d: Proof)
    requires i <= |inp|
    decreases d, 0
  {
    Ranges(inp, i, d) &&
    if es == [] then d == Axiom(Answer(Yes(i), cut, {}))
    else
      && 1 <= |d.subs| <= 3 && ProvesGap(g, inp, skip, first, i, cut, d.subs[0])
      && var w := d.subs[0].a;
         if !w.out.Yes? then |d.subs| == 1 && d.a == w
         else
           && |d.subs| >= 2 && Proves(g, inp, skip, es[0], w.out.end, cut, d.subs[1])
           && var b := d.subs[1].a;
              if !b.out.Yes? then |d.subs| == 2 && d.a == b.After(w.evs)
              else
                && |d.subs| == 3 && ProvesRow(g, inp, skip, es[1..], false, b.out.end, b.cut, d.subs[2])
                && d.a == d.subs[2].a.After(b.evs).After(w.evs)
  }

  /** The first branch that does not fail; one that fails behind a cut throws. */
  ghost predicate ProvesChoice(g: Grammar, inp: Input, skip: bool, es: seq<Expr>, i: nat, d: Proof)
    requires i <= |inp|
    decreases d, 0
  {
    Ranges(inp, i, d) &&
    if es == [] then d == Axiom(Answer(No, false, {}))
    else
      && 1 <= |d.subs| <= 2 && Proves(g, inp, skip, es[0], i, false, d.subs[0])
      && var b := d.subs[0].a;
         if !b.out.No? then |d.subs| == 1 && d.a == b
         else if b.cut then |d.subs| == 1 && d.a == Answer(Throw, true, b.evs)
         else |d.subs| == 2 && ProvesChoice(g, inp, skip, es[1..], i, d.subs[1]) && d.a == d.subs[1].a.After(b.evs)
  }

  /** A repetition after `count` matches, the last of which ended at i. */
  ghost predicate ProvesMore(g: Grammar, inp: Input, skip: bool, e: Expr, count: nat, i: nat, d: Proof)
    requires i <= |inp| && e.Rep?
    decreases d, 0
  {
    && Ranges(inp, i, d) && 1 <= |d.subs| <= 3 && ProvesGap(g, inp, skip, count == 0, i, false, d.subs[0])
    && var w := d.subs[0].a;
       if !w.out.Yes? then |d.subs| == 1 && d.a == w
       else
         && |d.subs| >= 2 && Proves(g, inp, skip, e.child, w.out.end, false, d.subs[1])
         && var b := d.subs[1].a;
            match b.out
            case Throw => |d.subs| == 2 && d.a == b.After(w.evs)
            case No =>
              && |d.subs| == 2 && d.a.cut == b.cut && d.a.evs == w.evs + b.evs
              && d.a.out == (if count < e.min then No else if b.cut && e.max < 0 then Throw else Yes(i))
            case Yes(end) =>
              if end == w.out.end || (e.max > 0 && e.max <= count + 1) then
                && |d.subs| == 2 && d.a.cut == b.cut && d.a.evs == w.evs + b.evs
                && d.a.out == (if count + 1 < e.min then No else Yes(end))
              else
                && |d.subs| == 3 && ProvesMore(g, inp, skip, e, count + 1, end, d.subs[2])
                && d.a == d.subs[2].a.After(b.evs).After(w.evs)
  }

  // ---- what is derived is answered --------------------------------------------------------------

  function Height(d: Proof): (n: nat)
    ensures forall j | 0 <= j < |d.subs| :: Height(d.subs[j]) < n
    decreases d, 0
  {
    1 + Highest(d, |d.subs|)
  }

  function Highest(d: Proof, j: nat): (n: nat)
    requires j <= |d.subs|
    ensures forall x | 0 <= x < j :: Height(d.subs[x]) <= n
    decreases d, 0, j
  {
    if j == 0 then 0
    else
      var n := Highest(d, j - 1);
      if n < Height(d.subs[j - 1]) then Height(d.subs[j - 1]) else n
  }

  lemma {:induction false} Answered(g: Grammar, inp: Input, n: nat, skip: bool, e: Expr, i: nat, cut: bool, d: Proof)
    requires i <= |inp| && Proves(g, inp, skip, e, i, cut, d) && Height(d) <= n
    ensures Peg.Peg(Readings.Ford(g), inp, n, skip, e, i, cut) == Some(d.a)
    decreases d, 1
  {
    hide ProvesRow, ProvesChoice, ProvesMore, ProvesRule, PegSeq, PegAlt, PegRep, PegCall, Height;
    match e
    case TerminalSeq(syms, _) => Leaves.StandsIff(inp, syms, i);
    case Lexeme(child) => Answered(g, inp, n, false, child, i, cut, d.subs[0]);
    case Not(child) => Answered(g, inp, n, skip, child, i, cut, d.subs[0]);
    case And(child) => Answered(g, inp, n, skip, child, i, cut, d.subs[0]);
    case Seq(es) =>
      assert es[0..] == es;
      AnsweredRow(g, inp, n, skip, e, 0, i, cut, d);
    case Alt(es) =>
      assert es[0..] == es;
      AnsweredChoice(g, inp, n, skip, e, 0, i, d.subs[0]);
    case Rep(_, _, _) => AnsweredMore(g, inp, n, skip, e, 0, i, d.subs[0]);
    case Rule(r) => AnsweredRule(g, inp, n, skip, r, i, d.subs[0]);
    case _ =>
  }

  lemma {:induction false} AnsweredRule(g: Grammar, inp: Input, n: nat, skip: bool, r: RuleId, i: nat, d: Proof)
    requires i <= |inp| && ProvesRule(g, inp, skip, r, i, d) && Height(d) <= n
    ensures PegCall(Readings.Ford(g), inp, n, skip, r, i) == Some(d.a)
    decreases d, 1
  {
    hide Proves, Peg.Peg, Height;
    Answered(g, inp, n - 1, skip, g.rules[r].body, i, false, d.subs[0]);
    Readings.FordCall(g, inp, n, skip, r, i);
    assert d.subs[0].a.evs + {} == d.subs[0].a.evs;
  }

  lemma {:induction false} AnsweredGap(g: Grammar, inp: Input, n: nat, skip: bool, first: bool, i: nat, cut: bool,
      d: Proof)
    requires i <= |inp| && ProvesGap(g, inp, skip, first, i, cut, d) && Height(d) <= n
    ensures InScope(if first then Some(Answer(Yes(i), cut, {})) else PegSkip(Readings.Ford(g), inp, n, skip, i), cut) ==
              Some(d.a)
    decreases d, 2
  {
    hide ProvesRule, PegCall, Height;
    Readings.SameSkipper(g);
    if !(first || !skip || g.skipper.None?) { AnsweredRule(g, inp, n, false, g.skipper.value, i, d.subs[0]); }
  }

  lemma {:induction false} AnsweredRow(g: Grammar, inp: Input, n: nat, skip: bool, e: Expr, j: nat, i: nat, cut: bool,
      d: Proof)
    requires i <= |inp| && e.Seq? && j <= |e.es| && ProvesRow(g, inp, skip, e.es[j..], j == 0, i, cut, d)
        && Height(d) <= n
    ensures PegSeq(Readings.Ford(g), inp, n, skip, e, j, i, cut) == Some(d.a)
    decreases d, 0
  {
    hide Proves, ProvesGap, Peg.Peg, PegSkip, Height;
    if j < |e.es| {
      assert e.es[j..][0] == e.es[j] && e.es[j..][1..] == e.es[j + 1..];
      var w := d.subs[0].a;
      AnsweredGap(g, inp, n, skip, j == 0, i, cut, d.subs[0]);
      if w.out.Yes? {
        var b := d.subs[1].a;
        Answered(g, inp, n, skip, e.es[j], w.out.end, cut, d.subs[1]);
        if b.out.Yes? { AnsweredRow(g, inp, n, skip, e, j + 1, b.out.end, b.cut, d.subs[2]); }
      }
    }
  }

  lemma {:induction false} AnsweredChoice(g: Grammar, inp: Input, n: nat, skip: bool, e: Expr, j: nat, i: nat, d: Proof)
    requires i <= |inp| && e.Alt? && j <= |e.es| && ProvesChoice(g, inp, skip, e.es[j..], i, d) && Height(d) <= n
    ensures PegAlt(Readings.Ford(g), inp, n, skip, e, j, i) == Some(d.a)
    decreases d, 0
  {
    hide Proves, Peg.Peg, Height;
    if j < |e.es| {
      assert e.es[j..][0] == e.es[j] && e.es[j..][1..] == e.es[j + 1..];
      var b := d.subs[0].a;
      Answered(g, inp, n, skip, e.es[j], i, false, d.subs[0]);
      if b.out.No? && !b.cut { AnsweredChoice(g, inp, n, skip, e, j + 1, i, d.subs[1]); }
    }
  }

  lemma {:induction false} AnsweredMore(g: Grammar, inp: Input, n: nat, skip: bool, e: Expr, count: nat, i: nat,
      d: Proof)
    requires i <= |inp| && e.Rep? && ProvesMore(g, inp, skip, e, count, i, d) && Height(d) <= n
    ensures InScope(PegRep(Readings.Ford(g), inp, n, skip, e, count, i), false) == Some(d.a.(cut := false))
    decreases d, 0
  {
    hide Proves, ProvesGap, Peg.Peg, PegSkip, Height;
    var w := d.subs[0].a;
    AnsweredGap(g, inp, n, skip, count == 0, i, false, d.subs[0]);
    if w.out.Yes? {
      var b := d.subs[1].a;
      Answered(g, inp, n, skip, e.child, w.out.end, false, d.subs[1]);
      if |d.subs| == 3 { AnsweredMore(g, inp, n, skip, e, count + 1, b.out.end, d.subs[2]); }
    }
  }

  // ---- what is answered can be derived ----------------------------------------------------------

  lemma {:induction false} Derived(g: Grammar, inp: Input, k: nat, skip: bool, e: Expr, i: nat, cut: bool)
    returns (d: Proof)
    requires i <= |inp| && Peg.Peg(Readings.Ford(g), inp, k, skip, e, i, cut).Some?
    ensures Proves(g, inp, skip, e, i, cut, d)
    ensures Peg.Peg(Readings.Ford(g), inp, k, skip, e, i, cut) == Some(d.a)
    decreases k, 1, e
  {
    hide PegSeq, PegAlt, PegRep, PegCall, ProvesRow, ProvesChoice, ProvesMore, ProvesRule;
    var f := Readings.Ford(g);
    match e
    case TerminalSeq(syms, _) =>
      Leaves.StandsIff(inp, syms, i);
      d := Axiom(Peg.Peg(f, inp, k, skip, e, i, cut).value);
    case Lexeme(child) =>
      d := Derived(g, inp, k, false, child, i, cut);
      d := Proof(d.a, [d]);
    case Not(child) =>
      d := Derived(g, inp, k, skip, child, i, cut);
      d := Proof(Peg.Peg(f, inp, k, skip, e, i, cut).value, [d]);
    case And(child) =>
      d := Derived(g, inp, k, skip, child, i, cut);
      d := Proof(Peg.Peg(f, inp, k, skip, e, i, cut).value, [d]);
    case Seq(es) =>
      assert es[0..] == es;
      d := DerivedRow(g, inp, k, skip, e, 0, i, cut);
    case Alt(es) =>
      assert es[0..] == es;
      d := DerivedChoice(g, inp, k, skip, e, 0, i);
      d := Proof(d.a.(cut := cut), [d]);
    case Rep(_, _, _) =>
      d := DerivedMore(g, inp, k, skip, e, 0, i);
      d := Proof(d.a.(cut := cut), [d]);
    case Rule(r) =>
      d := DerivedRule(g, inp, k, skip, r, i);
      d := Proof(d.a.(cut := cut), [d]);
    case _ => d := Axiom(Peg.Peg(f, inp, k, skip, e, i, cut).value);
  }

  lemma {:induction false} DerivedRule(g: Grammar, inp: Input, k: nat, skip: bool, r: RuleId, i: nat)
    returns (d: Proof)
    requires i <= |inp| && PegCall(Readings.Ford(g), inp, k, skip, r, i).Some?
    ensures ProvesRule(g, inp, skip, r, i, d) && PegCall(Readings.Ford(g), inp, k, skip, r, i) == Some(d.a)
    decreases k, 0, 0
  {
    hide Proves, Peg.Peg;
    Readings.FordCall(g, inp, k, skip, r, i);
    d := Derived(g, inp, k - 1, skip, g.rules[r].body, i, false);
    assert d.a.evs + {} == d.a.evs;
    d := Proof(PegCall(Readings.Ford(g), inp, k, skip, r, i).value, [d]);
  }

  lemma {:induction false} DerivedGap(g: Grammar, inp: Input, k: nat, skip: bool, first: bool, i: nat, cut: bool)
    returns (d: Proof)
    requires i <= |inp| && (!first ==> PegSkip(Readings.Ford(g), inp, k, skip, i).Some?)
    ensures ProvesGap(g, inp, skip, first, i, cut, d)
    ensures InScope(if first then Some(Answer(Yes(i), cut, {})) else PegSkip(Readings.Ford(g), inp, k, skip, i), cut) ==
              Some(d.a)
    decreases k, 0, 1
  {
    hide ProvesRule, PegCall;
    Readings.SameSkipper(g);
    if first || !skip || g.skipper.None? {
      d := Axiom(Answer(Yes(i), cut, {}));
    } else {
      d := DerivedRule(g, inp, k, false, g.skipper.value, i);
      d := Proof(Answer(if d.a.out.No? then Yes(i) else d.a.out, cut, d.a.evs), [d]);
    }
  }

  lemma {:induction false} DerivedRow(g: Grammar, inp: Input, k: nat, skip: bool, e: Expr, j: nat, i: nat, cut: bool)
    returns (d: Proof)
    requires i <= |inp| && e.Seq? && j <= |e.es| && PegSeq(Readings.Ford(g), inp, k, skip, e, j, i, cut).Some?
    ensures ProvesRow(g, inp, skip, e.es[j..], j == 0, i, cut, d)
    ensures PegSeq(Readings.Ford(g), inp, k, skip, e, j, i, cut) == Some(d.a)
    decreases k, 1, e, |e.es| - j
  {
    hide Proves, ProvesGap, Peg.Peg, PegSkip;
    var f, es := Readings.Ford(g), e.es[j..];
    var a := PegSeq(f, inp, k, skip, e, j, i, cut).value;
    if j == |e.es| {
      d := Axiom(a);
    } else {
      assert es[0] == e.es[j] && es[1..] == e.es[j + 1..];
      var w := DerivedGap(g, inp, k, skip, j == 0, i, cut);
      if !w.a.out.Yes? {
        d := Proof(a, [w]);
      } else {
        assert PegSeqNext(f, inp, k, skip, e, j, w.a.out.end, cut).Some?;
        var b := Derived(g, inp, k, skip, e.es[j], w.a.out.end, cut);
        if !b.a.out.Yes? {
          d := Proof(a, [w, b]);
        } else {
          var c := DerivedRow(g, inp, k, skip, e, j + 1, b.a.out.end, b.a.cut);
          d := Proof(a, [w, b, c]);
        }
      }
    }
  }

  lemma {:induction false} DerivedChoice(g: Grammar, inp: Input, k: nat, skip: bool, e: Expr, j: nat, i: nat)
    returns (d: Proof)
    requires i <= |inp| && e.Alt? && j <= |e.es| && PegAlt(Readings.Ford(g), inp, k, skip, e, j, i).Some?
    ensures ProvesChoice(g, inp, skip, e.es[j..], i, d)
    ensures PegAlt(Readings.Ford(g), inp, k, skip, e, j, i) == Some(d.a)
    decreases k, 1, e, |e.es| - j
  {
    hide Proves, Peg.Peg;
    var es := e.es[j..];
    var a := PegAlt(Readings.Ford(g), inp, k, skip, e, j, i).value;
    if j == |e.es| {
      d := Axiom(a);
    } else {
      assert es[0] == e.es[j] && es[1..] == e.es[j + 1..];
      var b := Derived(g, inp, k, skip, e.es[j], i, false);
      if b.a.out.No? && !b.a.cut {
        var c := DerivedChoice(g, inp, k, skip, e, j + 1, i);
        d := Proof(a, [b, c]);
      } else {
        d := Proof(a, [b]);
      }
    }
  }

  lemma {:induction false} DerivedMore(g: Grammar, inp: Input, k: nat, skip: bool, e: Expr, count: nat, i: nat)
    returns (d: Proof)
    requires i <= |inp| && e.Rep? && PegRep(Readings.Ford(g), inp, k, skip, e, count, i).Some?
    ensures ProvesMore(g, inp, skip, e, count, i, d)
    ensures InScope(PegRep(Readings.Ford(g), inp, k, skip, e, count, i), false) == Some(d.a.(cut := false))
    decreases k, 1, e, |inp| - i
  {
    hide Proves, ProvesGap, Peg.Peg, PegSkip;
    var f := Readings.Ford(g);
    var w := DerivedGap(g, inp, k, skip, count == 0, i, false);
    if !w.a.out.Yes? { return Proof(w.a, [w]); }
    assert PegRepTry(f, inp, k, skip, e, count, i, w.a.out.end).Some?;
    var b := Derived(g, inp, k, skip, e.child, w.a.out.end, false);
    match b.a.out
    case Throw => d := Proof(b.a.After(w.a.evs), [w, b]);
    case No =>
      var o := if count < e.min then No else if b.a.cut && e.max < 0 then Throw else Yes(i);
      d := Proof(Answer(o, b.a.cut, w.a.evs + b.a.evs), [w, b]);
    case Yes(end) =>
      if end == w.a.out.end || (e.max > 0 && e.max <= count + 1) {
        d := Proof(Answer(if count + 1 < e.min then No else Yes(end), b.a.cut, w.a.evs + b.a.evs), [w, b]);
      } else {
        var c := DerivedMore(g, inp, k, skip, e, count + 1, end);
        d := Proof(c.a.After(b.a.evs).After(w.a.evs), [w, b, c]);
      }
  }

  // ---- the theorem ------------------------------------------------------------------------------

  ghost predicate Derivable(g: Grammar, inp: Input, skip: bool, e: Expr, i: nat, cut: bool, a: Answer)
    requires i <= |inp|
  {
    exists d :: Proves(g, inp, skip, e, i, cut, d) && d.a == a
  }

  /** Ford's semantics is the evaluator without growth: an answer is derivable iff it is computed within some depth.  So
      there is at most one. */
  lemma DerivableIff(g: Grammar, inp: Input, skip: bool, e: Expr, i: nat, cut: bool, a: Answer)
    requires i <= |inp|
    ensures Derivable(g, inp, skip, e, i, cut, a) <==>
              exists k: nat :: Peg.Peg(Readings.Ford(g), inp, k, skip, e, i, cut) == Some(a)
  {
    hide Proves, Peg.Peg;
    if Derivable(g, inp, skip, e, i, cut, a) {
      var d :| Proves(g, inp, skip, e, i, cut, d) && d.a == a;
      Answered(g, inp, Height(d), skip, e, i, cut, d);
    }
    if k: nat :| Peg.Peg(Readings.Ford(g), inp, k, skip, e, i, cut) == Some(a) {
      var d := Derived(g, inp, k, skip, e, i, cut);
    }
  }

  lemma OneAnswer(g: Grammar, inp: Input, skip: bool, e: Expr, i: nat, cut: bool, a: Answer, b: Answer)
    requires i <= |inp| && Derivable(g, inp, skip, e, i, cut, a) && Derivable(g, inp, skip, e, i, cut, b)
    ensures a == b
  {
    hide Derivable, Peg.Peg;
    DerivableIff(g, inp, skip, e, i, cut, a);
    DerivableIff(g, inp, skip, e, i, cut, b);
    var f := Readings.Ford(g);
    var k: nat :| Peg.Peg(f, inp, k, skip, e, i, cut) == Some(a);
    var m: nat :| Peg.Peg(f, inp, m, skip, e, i, cut) == Some(b);
    Depth.Deeper(f, inp, k, k + m, skip, e, i, cut);
    Depth.Deeper(f, inp, m, k + m, skip, e, i, cut);
  }

  // ---- and what is parsed -----------------------------------------------------------------------

  /** The parser on a rule, from any context on which it answered as Ford's semantics before: whatever can be derived
      for the rule is what it finds, with its end and its failures, memo and all. */
  lemma DerivedIsParsed(g: Grammar, mode: RuleId -> bool, inp: Input, fuel: nat, start: RuleId, s: Machine.State,
      d: Proof)
    requires Transparency.Idle(Setting(Readings.Ford(g), inp, mode), s)
    requires Transparency.Startable(Setting(Readings.Ford(g), inp, mode), start)
    requires s.pos <= |inp| && ProvesRule(g, inp, mode(start), start, s.pos, d) && Height(d) <= fuel
    ensures Machine.Good(inp, s)
    ensures var r := Machine.Call(g, inp, fuel, mode(start), start, s);
            && r.out.Ok? == d.a.out.Yes? && r.out.Fail? == d.a.out.No? && r.out.Abort? == d.a.out.Throw?
            && (d.a.out.Yes? ==> r.st.pos == d.a.out.end) && r.st.failures == s.failures + d.a.evs
  {
    hide Forms.WellFormed, Soundness.MemoSound, Soundness.FramesKept, ProvesRule, PegCall, Machine.Call,
        Machine.Bounded;
    var c := Setting(Readings.Ford(g), inp, mode);
    AnsweredRule(g, inp, fuel, mode(start), start, s.pos, d);
    assert Soundness.Above(c, fuel, s.lr);
    Packrat.SoundCall(c, fuel, fuel, mode(start), start, s);
    Readings.CallIgnoresReading(g, c.g, inp, fuel, mode(start), start, s);
  }
}
