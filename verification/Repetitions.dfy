/** How often a repetition matches its child: never below its minimum, and never above a positive bound.  A bound of 0
    is no bound: it is kept only where the child does not match at all. */
module Repetitions {
  import opened Grammars
  import opened Machine
  import opened Peg
  import Limits
  import Values

  // ---- without a memo ---------------------------------------------------------------------------

  /** Matches of the child from here on, after `count` others the last of which ended at i. */
  ghost function Times(g: Grammar, inp: Input, k: nat, skip: bool, e: Expr, count: nat, i: nat): nat
    requires i <= |inp| && e.Rep?
    decreases |inp| - i, 1
  {
    var w := if count > 0 then PegSkip(g, inp, k, skip, i) else Some(Answer(Yes(i), false, {}));
    if !Values.Matches(w) then 0 else TimesTry(g, inp, k, skip, e, count, w.value.out.end)
  }

  ghost function TimesTry(g: Grammar, inp: Input, k: nat, skip: bool, e: Expr, count: nat, i: nat): nat
    requires i <= |inp| && e.Rep?
    decreases |inp| - i, 0
  {
    var a := Peg.Peg(g, inp, k, skip, e.child, i, false);
    if !Values.Matches(a) then 0
    else if (e.max > 0 && count + 1 >= e.max) || a.value.out.end == i then 1
    else 1 + Times(g, inp, k, skip, e, count + 1, a.value.out.end)
  }

  /** The outcome of a repetition that made `times` matches. */
  ghost predicate Decided(e: Expr, times: nat, a: Option<Answer>)
    requires e.Rep?
  {
    a.Some? ==> (a.value.out.Yes? ==> times >= e.min) && (a.value.out.No? ==> times < e.min)
  }

  /** A positive bound is kept, and a repetition matches only with its minimum and fails only without. */
  lemma {:induction false} BoundsKept(g: Grammar, inp: Input, k: nat, skip: bool, e: Expr, count: nat, i: nat)
    requires i <= |inp| && e.Rep? && (e.max > 0 ==> count < e.max)
    ensures e.max > 0 ==> count + Times(g, inp, k, skip, e, count, i) <= e.max
    ensures Decided(e, count + Times(g, inp, k, skip, e, count, i), PegRep(g, inp, k, skip, e, count, i))
    decreases |inp| - i, 1
  {
    hide PegRepTry, PegSkip, TimesTry;
    var w := if count > 0 then PegSkip(g, inp, k, skip, i) else Some(Answer(Yes(i), false, {}));
    if Values.Matches(w) { TryKept(g, inp, k, skip, e, count, i, w.value.out.end); }
  }

  lemma {:induction false} TryKept(g: Grammar, inp: Input, k: nat, skip: bool, e: Expr, count: nat, last: nat, i: nat)
    requires last <= i <= |inp| && e.Rep? && (e.max > 0 ==> count < e.max)
    ensures e.max > 0 ==> count + TimesTry(g, inp, k, skip, e, count, i) <= e.max
    ensures Decided(e, count + TimesTry(g, inp, k, skip, e, count, i), PegRepTry(g, inp, k, skip, e, count, last, i))
    decreases |inp| - i, 0
  {
    hide Peg.Peg, PegRep, Times;
    var a := Peg.Peg(g, inp, k, skip, e.child, i, false);
    if Values.Matches(a) && a.value.out.end > i && !(e.max > 0 && count + 1 >= e.max) {
      BoundsKept(g, inp, k, skip, e, count + 1, a.value.out.end);
    }
  }

  /** A bounded repetition stays within its bound iff the bound is positive or the child does not match there. */
  lemma WithinBoundIff(g: Grammar, inp: Input, k: nat, skip: bool, e: Expr, i: nat)
    requires i <= |inp| && e.Rep? && e.max >= 0
    ensures Times(g, inp, k, skip, e, 0, i) <= e.max <==>
              e.max > 0 || !Values.Matches(Peg.Peg(g, inp, k, skip, e.child, i, false))
  {
    hide Peg.Peg, PegRep;
    if e.max > 0 { BoundsKept(g, inp, k, skip, e, 0, i); }
  }

  /** `0 * 'x'` on "xx" matches twice. */
  lemma ZeroTimesMatchesTwice(g: Grammar, inp: Input, k: nat, skip: bool, e: Expr)
    requires g.skipper.None? && inp == [1, 1] && e == Rep(Limits.Char(1), 0, 0)
    ensures Times(g, inp, k, skip, e, 0, 0) == 2
    ensures Limits.Ends(Peg.Peg(g, inp, k, skip, e, 0, false), Yes(2))
  {
    assert TimesTry(g, inp, k, skip, e, 2, 2) == 0 && Limits.Ends(PegRepTry(g, inp, k, skip, e, 2, 2, 2), Yes(2));
    assert Times(g, inp, k, skip, e, 2, 2) == 0 && Limits.Ends(PegRep(g, inp, k, skip, e, 2, 2), Yes(2));
    assert TimesTry(g, inp, k, skip, e, 1, 1) == 1 && Limits.Ends(PegRepTry(g, inp, k, skip, e, 1, 1, 1), Yes(2));
    assert Times(g, inp, k, skip, e, 1, 1) == 1 && Limits.Ends(PegRep(g, inp, k, skip, e, 1, 1), Yes(2));
    assert TimesTry(g, inp, k, skip, e, 0, 0) == 2 && Limits.Ends(PegRepTry(g, inp, k, skip, e, 0, 0, 0), Yes(2));
  }

  /** An iteration that consumes nothing is the last: where the child matches empty, a repetition that asks for
      two or more fails, although the child would match any number of times. */
  lemma EmptyMatchEnds(g: Grammar, inp: Input, k: nat, skip: bool, e: Expr, i: nat)
    requires i <= |inp| && e.Rep?
    requires Limits.Ends(Peg.Peg(g, inp, k, skip, e.child, i, false), Yes(i))
    ensures Times(g, inp, k, skip, e, 0, i) == 1
    ensures Limits.Ends(PegRep(g, inp, k, skip, e, 0, i), if e.min <= 1 then Yes(i) else No)
  {
    hide Peg.Peg;
  }

  /** After n more matches the next attempt ends the repetition below its minimum: the child fails there, or matches
      empty, or reaches the bound. */
  ghost predicate EndsShort(g: Grammar, inp: Input, k: nat, skip: bool, e: Expr, count: nat, n: nat, i: nat)
    requires i <= |inp| && e.Rep?
    decreases n
  {
    var w := if count > 0 then PegSkip(g, inp, k, skip, i) else Some(Answer(Yes(i), false, {}));
    Values.Matches(w)
    && var p := w.value.out.end;
       var a := Peg.Peg(g, inp, k, skip, e.child, p, false);
       if n > 0 then
         Values.Matches(a) && EndsShort(g, inp, k, skip, e, count + 1, n - 1, a.value.out.end)
       else if Values.Matches(a) then
         count + 1 < e.min && (a.value.out.end == p || (e.max > 0 && count + 1 >= e.max))
       else
         a.Some? && a.value.out.No? && count < e.min
  }

  /** A repetition that fails ended short. */
  lemma {:induction false} FailedShort(g: Grammar, inp: Input, k: nat, skip: bool, e: Expr, count: nat, i: nat)
    returns (n: nat)
    requires i <= |inp| && e.Rep? && PegRep(g, inp, k, skip, e, count, i).Some?
    requires PegRep(g, inp, k, skip, e, count, i).value.out.No?
    ensures EndsShort(g, inp, k, skip, e, count, n, i)
    decreases |inp| - i
  {
    hide Peg.Peg, PegSkip;
    var w := if count > 0 then PegSkip(g, inp, k, skip, i) else Some(Answer(Yes(i), false, {}));
    var a := Peg.Peg(g, inp, k, skip, e.child, w.value.out.end, false);
    n := 0;
    if Values.Matches(a) && a.value.out.end > w.value.out.end && !(e.max > 0 && count + 1 >= e.max) {
      n := FailedShort(g, inp, k, skip, e, count + 1, a.value.out.end);
      n := n + 1;
    }
  }

  /** And one that ended short failed, below its minimum. */
  lemma {:induction false} ShortFails(g: Grammar, inp: Input, k: nat, skip: bool, e: Expr, count: nat, n: nat, i: nat)
    requires i <= |inp| && e.Rep? && EndsShort(g, inp, k, skip, e, count, n, i)
    ensures count + n < e.min
    ensures var r := PegRep(g, inp, k, skip, e, count, i); r.Some? && r.value.out.No?
    decreases n
  {
    hide Peg.Peg, PegSkip;
    var w := if count > 0 then PegSkip(g, inp, k, skip, i) else Some(Answer(Yes(i), false, {}));
    var a := Peg.Peg(g, inp, k, skip, e.child, w.value.out.end, false);
    if n > 0 { ShortFails(g, inp, k, skip, e, count + 1, n - 1, a.value.out.end); }
  }

  /** Whatever its bounds, a repetition fails iff, below its minimum, the child fails, or matches empty or for the last
      time that the bound allows in another iteration than the one that reaches the minimum. */
  lemma FailsIff(g: Grammar, inp: Input, k: nat, skip: bool, e: Expr, count: nat, i: nat)
    requires i <= |inp| && e.Rep? && PegRep(g, inp, k, skip, e, count, i).Some?
    ensures PegRep(g, inp, k, skip, e, count, i).value.out.No? <==>
              exists n: nat :: EndsShort(g, inp, k, skip, e, count, n, i)
  {
    hide PegRep, EndsShort;
    if PegRep(g, inp, k, skip, e, count, i).value.out.No? { var n := FailedShort(g, inp, k, skip, e, count, i); }
    forall n: nat | EndsShort(g, inp, k, skip, e, count, n, i)
      ensures PegRep(g, inp, k, skip, e, count, i).value.out.No?
    {
      ShortFails(g, inp, k, skip, e, count, n, i);
    }
  }

  // ---- the value of a repetition ----------------------------------------------------------------

  /** Where the child starts in each of the matches from here on, gaps in front of it left out. */
  ghost function Places(g: Grammar, inp: Input, k: nat, skip: bool, e: Expr, count: nat, i: nat): (ps: seq<nat>)
    requires i <= |inp| && e.Rep?
    ensures forall n | 0 <= n < |ps| :: ps[n] <= |inp| && Values.Matches(Peg.Peg(g, inp, k, skip, e.child, ps[n],
        false))
    decreases |inp| - i, 1
  {
    var w := if count > 0 then PegSkip(g, inp, k, skip, i) else Some(Answer(Yes(i), false, {}));
    if !Values.Matches(w) then [] else PlacesTry(g, inp, k, skip, e, count, w.value.out.end)
  }

  ghost function PlacesTry(g: Grammar, inp: Input, k: nat, skip: bool, e: Expr, count: nat, i: nat): (ps: seq<nat>)
    requires i <= |inp| && e.Rep?
    ensures forall n | 0 <= n < |ps| :: ps[n] <= |inp| && Values.Matches(Peg.Peg(g, inp, k, skip, e.child, ps[n],
        false))
    decreases |inp| - i, 0
  {
    var a := Peg.Peg(g, inp, k, skip, e.child, i, false);
    if !Values.Matches(a) then []
    else if (e.max > 0 && count + 1 >= e.max) || a.value.out.end == i then [i]
    else [i] + Places(g, inp, k, skip, e, count + 1, a.value.out.end)
  }

  /** The values of the child where it matched. */
  ghost predicate ValuesAt(g: Grammar, inp: Input, k: nat, skip: bool, e: Expr, ps: seq<nat>, vs: seq<Values.Value>)
    requires e.Rep? && forall n | 0 <= n < |ps| :: ps[n] <= |inp|
  {
    |vs| == |ps| && forall n | 0 <= n < |ps| :: vs[n] == Values.Eval(g, inp, k, skip, e.child, ps[n], false)
  }

  lemma {:induction false} ValuesInOrder(g: Grammar, inp: Input, k: nat, skip: bool, e: Expr, count: nat, i: nat)
    requires i <= |inp| && e.Rep?
    ensures |Places(g, inp, k, skip, e, count, i)| == Times(g, inp, k, skip, e, count, i)
    ensures ValuesAt(g, inp, k, skip, e, Places(g, inp, k, skip, e, count, i),
                Values.EvalRep(g, inp, k, skip, e, count, i))
    decreases |inp| - i
  {
    hide Peg.Peg, PegSkip, Values.Eval;
    var w := if count > 0 then PegSkip(g, inp, k, skip, i) else Some(Answer(Yes(i), false, {}));
    if Values.Matches(w) {
      var p := w.value.out.end;
      var a := Peg.Peg(g, inp, k, skip, e.child, p, false);
      if Values.Matches(a) && !((e.max > 0 && count + 1 >= e.max) || a.value.out.end == p) {
        ValuesInOrder(g, inp, k, skip, e, count + 1, a.value.out.end);
      }
    }
  }

  /** The bounds (0, 1), and no others, make the value of a repetition an option; any other has a list of as many
      values as it made matches.  Either way the values are the child's, where it matched, in order. */
  lemma RepetitionValue(g: Grammar, inp: Input, k: nat, skip: bool, e: Expr, i: nat, cut: bool)
    requires i <= |inp| && e.Rep? && Values.Matches(Peg.Peg(g, inp, k, skip, e, i, cut))
    ensures var v := Values.Eval(g, inp, k, skip, e, i, cut);
            var times, ps := Times(g, inp, k, skip, e, 0, i), Places(g, inp, k, skip, e, 0, i);
            && (v.Opt? <==> e.min == 0 && e.max == 1) && (v.List? <==> !(e.min == 0 && e.max == 1))
            && (v.List? ==> |v.items| == times && ValuesAt(g, inp, k, skip, e, ps, v.items))
            && (v.Opt? ==> times <= 1 && ValuesAt(g, inp, k, skip, e, ps, if v.item.Some? then [v.item.value] else []))
  {
    hide Peg.Peg, PegRep, Times, Places;
    ValuesInOrder(g, inp, k, skip, e, 0, i);
    if e.max > 0 { BoundsKept(g, inp, k, skip, e, 0, i); }
    hide ValuesAt;
  }

  // ---- on the machine ---------------------------------------------------------------------------

  /** Matches of the child that the machine makes from here on. */
  ghost function Made(g: Grammar, inp: Input, fuel: nat, skip: bool, e: Expr, count: nat, n: nat, s: State): nat
    requires Good(inp, s) && e.Rep? && n < |s.arena|
    decreases |inp| - s.pos, 1
  {
    var k := if count > 0 then Skip(g, inp, fuel, skip, s) else Result(Ok(None), s);
    if k.out.Ok? then MadeTry(g, inp, fuel, skip, e, count, n, SetCut(k.st, false)) else 0
  }

  ghost function MadeTry(g: Grammar, inp: Input, fuel: nat, skip: bool, e: Expr, count: nat, n: nat, s: State): nat
    requires Good(inp, s) && e.Rep? && n < |s.arena|
    decreases |inp| - s.pos, 0
  {
    var r := Parse(g, inp, fuel, skip, e.child, s);
    if !r.out.Ok? then 0
    else
      PushGood(inp, r.st, n, r.out.tree);
      var s1 := PushChild(r.st, n, r.out.tree);
      if (e.max > 0 && count + 1 >= e.max) || s1.pos == s.pos then 1
      else 1 + Made(g, inp, fuel, skip, e, count + 1, n, s1)
  }

  ghost predicate Kept(e: Expr, times: nat, r: Result)
    requires e.Rep?
  {
    (e.max > 0 ==> times <= e.max) && (r.out.Ok? ==> times >= e.min) && (r.out.Fail? ==> times < e.min)
  }

  /** The same for the machine, for every grammar and from every state: memo, left recursion and recovery included. */
  lemma {:induction false} MachineBoundsKept(g: Grammar, inp: Input, fuel: nat, skip: bool, e: Expr, count: nat,
      start: nat, n: nat, s: State)
    requires Good(inp, s) && e.Rep? && start <= s.pos && n < |s.arena| && (e.max > 0 ==> count < e.max)
    ensures Kept(e, count + Made(g, inp, fuel, skip, e, count, n, s),
        RepFrom(g, inp, fuel, skip, e, count, start, n, s))
    decreases |inp| - s.pos, 1
  {
    hide RepTry, Skip, MadeTry, Bounded;
    var k := if count > 0 then Skip(g, inp, fuel, skip, s) else Result(Ok(None), s);
    if k.out.Ok? {
      OpenGood(inp, k.st);
      MachineTryKept(g, inp, fuel, skip, e, count, start, n, s.pos, SetCut(k.st, false));
    }
  }

  lemma {:induction false} MachineTryKept(g: Grammar, inp: Input, fuel: nat, skip: bool, e: Expr, count: nat,
      start: nat, n: nat, last: nat, s: State)
    requires Good(inp, s) && e.Rep? && start <= last <= s.pos && n < |s.arena| && (e.max > 0 ==> count < e.max)
    ensures Kept(e, count + MadeTry(g, inp, fuel, skip, e, count, n, s),
                 RepTry(g, inp, fuel, skip, e, count, start, n, last, s))
    decreases |inp| - s.pos, 0
  {
    hide Parse, RepFrom, Made, Bounded;
    var r := Parse(g, inp, fuel, skip, e.child, s);
    if r.out.Ok? {
      PushGood(inp, r.st, n, r.out.tree);
      if r.st.pos > s.pos && !(e.max > 0 && count + 1 >= e.max) {
        MachineBoundsKept(g, inp, fuel, skip, e, count + 1, start, n, PushChild(r.st, n, r.out.tree));
      }
    }
  }

  lemma MachineWithinBoundIff(g: Grammar, inp: Input, fuel: nat, skip: bool, e: Expr, n: nat, s: State)
    requires Good(inp, s) && e.Rep? && n < |s.arena| && e.max >= 0
    ensures Good(inp, SetCut(s, false))
    ensures Made(g, inp, fuel, skip, e, 0, n, s) <= e.max <==>
              e.max > 0 || !Parse(g, inp, fuel, skip, e.child, SetCut(s, false)).out.Ok?
  {
    hide Parse, RepFrom;
    OpenGood(inp, s);
    if e.max > 0 { MachineBoundsKept(g, inp, fuel, skip, e, 0, s.pos, n, s); }
  }
}
