/** The meaning of a grammar, with no memo, no stacks and no mutable state: a parsing expression maps
    a position to an answer (Ford, "Parsing Expression Grammars", POPL 2004), extended with cuts,
    auto-skip, the failure events of the attempt, and left recursion.

    `k` bounds how deeply rules nest; None says that no answer is derivable within that depth.  An
    answer found at some depth is found unchanged at every greater one (`Deeper`). */
module Peg {
  import opened Grammars

  datatype Out = Yes(end: nat) | No | Throw

  /** `cut` is the flag of the enclosing cut scope afterwards, `evs` every failure event on the way. */
  datatype Answer = Answer(out: Out, cut: bool, evs: set<Failure>)
  {
    function After(earlier: set<Failure>): Answer { this.(evs := earlier + evs) }
  }

  // ---- left recursion ---------------------------------------------------------------------------

  predicate IsRule(e: Expr, r: RuleId) { e.Rule? && e.rule == r }

  /** r is to be grown: a recursion at its own start continues from what it matched so far. */
  predicate IsLeftRec(g: Grammar, r: RuleId) { r in g.grown && r in g.rules }

  /** m is a piece of some rule that is to be grown, and has no meaning of its own. */
  predicate IsPartner(g: Grammar, m: RuleId) { m in g.partners }

  function Owner(g: Grammar, m: RuleId): RuleId
    requires IsPartner(g, m)
  {
    g.partners[m]
  }

  /** m is a partner of r. */
  predicate Serves(g: Grammar, m: RuleId, r: RuleId) { IsPartner(g, m) && Owner(g, m) == r && m != r && m in g.rules }

  // ---- answers ----------------------------------------------------------------------------------

  /** An answer is in range when a match starting at `i` ends inside the input. */
  ghost predicate InRange(inp: Input, i: nat, a: Option<Answer>) {
    a.Some? && a.value.out.Yes? ==> i <= a.value.out.end <= |inp|
  }

  function Lift(b: bool, i: nat, cut: bool, end: nat, evs: set<Failure>): Option<Answer> {
    Some(if b then Answer(Yes(end), cut, {}) else Answer(No, cut, evs))
  }

  function Peg(g: Grammar, inp: Input, k: nat, skip: bool, e: Expr, i: nat, cut: bool): (a: Option<Answer>)
    requires i <= |inp|
    ensures InRange(inp, i, a)
    decreases k, 1, e
  {
    match e
    case Empty => Some(Answer(Yes(i), cut, {}))
    case Terminal(p, item) => Lift(i < |inp| && p.Accepts(inp[i]), i, cut, i + 1, {Failure(i, item)})
    case Token(p, item) => Lift(i < |inp| && p.Accepts(inp[i]), i, cut, i + 1, {Failure(i, item)})
    case TerminalSeq(syms, item) => Lift(StandsAt(inp, syms, i), i, cut, i + |syms|, {Failure(i, item)})
    case Matcher(fn) => Some(Answer(if fn(inp, i).Some? then Yes(fn(inp, i).value) else No, cut, {}))
    case Seq(_) => PegSeq(g, inp, k, skip, e, 0, i, cut)
    case Alt(_) => InScope(PegAlt(g, inp, k, skip, e, 0, i), cut)
    case Rep(_, _, _) => InScope(PegRep(g, inp, k, skip, e, 0, i), cut)
    case Not(child) => Negate(Peg(g, inp, k, skip, child, i, cut), i)
    case And(child) => Look(Peg(g, inp, k, skip, child, i, cut), i)
    case Cut => Some(Answer(Yes(i), true, {}))
    case Lexeme(child) => Peg(g, inp, k, false, child, i, cut)
    case Rule(r) => InScope(PegCall(g, inp, k, skip, r, i), cut)
  }

  /** A construct with its own cut scope leaves the enclosing scope's flag alone. */
  function InScope(a: Option<Answer>, cut: bool): Option<Answer> {
    if a.None? then None else Some(a.value.(cut := cut))
  }

  function Prefixed(evs: set<Failure>, a: Option<Answer>): Option<Answer> {
    if a.None? then None else Some(a.value.After(evs))
  }

  function Negate(a: Option<Answer>, i: nat): Option<Answer> {
    if a.None? || a.value.out.Throw? then a
    else Some(a.value.(out := if a.value.out.Yes? then No else Yes(i)))
  }

  function Look(a: Option<Answer>, i: nat): Option<Answer> {
    if a.None? || !a.value.out.Yes? then a else Some(a.value.(out := Yes(i)))
  }

  /** Auto-skip: an attempt at the skipper rule that cannot fail. */
  function PegSkip(g: Grammar, inp: Input, k: nat, skip: bool, i: nat): (a: Option<Answer>)
    requires i <= |inp|
    ensures InRange(inp, i, a)
    ensures a.Some? ==> !a.value.out.No?
    decreases k, 0, 1
  {
    if skip && g.skipper.Some? then
      var a := PegCall(g, inp, k, false, g.skipper.value, i);
      if a.Some? && a.value.out.No? then Some(a.value.(out := Yes(i))) else a
    else Some(Answer(Yes(i), false, {}))
  }

  /** Children j, j+1, ... of a sequence, with auto-skip before every child but the first. */
  function PegSeq(g: Grammar, inp: Input, k: nat, skip: bool, e: Expr, j: nat, i: nat, cut: bool): (a: Option<Answer>)
    requires i <= |inp| && e.Seq? && j <= |e.es|
    ensures InRange(inp, i, a)
    decreases k, 1, e, |e.es| - j
  {
    if j == |e.es| then Some(Answer(Yes(i), cut, {}))
    else
      var w := if j > 0 then PegSkip(g, inp, k, skip, i) else Some(Answer(Yes(i), cut, {}));
      if w.None? || !w.value.out.Yes? then InScope(w, cut)
      else Prefixed(w.value.evs, PegSeqNext(g, inp, k, skip, e, j, w.value.out.end, cut))
  }

  function PegSeqNext(g: Grammar, inp: Input, k: nat, skip: bool, e: Expr, j: nat, i: nat,
      cut: bool): (a: Option<Answer>)
    requires i <= |inp| && e.Seq? && j < |e.es|
    ensures InRange(inp, i, a)
    decreases k, 1, e, |e.es| - j, 0
  {
    var a := Peg(g, inp, k, skip, e.es[j], i, cut);
    if a.None? || !a.value.out.Yes? then a
    else Prefixed(a.value.evs, PegSeq(g, inp, k, skip, e, j + 1, a.value.out.end, a.value.cut))
  }

  /** Ordered choice over branches j, j+1, ...; a branch that fails after a cut throws. */
  function PegAlt(g: Grammar, inp: Input, k: nat, skip: bool, e: Expr, j: nat, i: nat): (a: Option<Answer>)
    requires i <= |inp| && e.Alt? && j <= |e.es|
    ensures InRange(inp, i, a)
    decreases k, 1, e, |e.es| - j
  {
    if j == |e.es| then Some(Answer(No, false, {}))
    else
      var a := Peg(g, inp, k, skip, e.es[j], i, false);
      if a.None? || !a.value.out.No? then a
      else if a.value.cut then Some(a.value.(out := Throw))
      else Prefixed(a.value.evs, PegAlt(g, inp, k, skip, e, j + 1, i))
  }

  /** Repetition after `count` matches, the last of which ended at `i`.  An iteration that fails gives
      back the skipped input before it; one that consumes nothing is the last.  A failure after a cut
      throws only if the repetition is unbounded and already has its minimum. */
  function PegRep(g: Grammar, inp: Input, k: nat, skip: bool, e: Expr, count: nat, i: nat): (a: Option<Answer>)
    requires i <= |inp| && e.Rep?
    ensures InRange(inp, i, a)
    decreases k, 1, e, |inp| - i, 1
  {
    var w := if count > 0 then PegSkip(g, inp, k, skip, i) else Some(Answer(Yes(i), false, {}));
    if w.None? || !w.value.out.Yes? then w
    else Prefixed(w.value.evs, PegRepTry(g, inp, k, skip, e, count, i, w.value.out.end))
  }

  function PegRepTry(g: Grammar, inp: Input, k: nat, skip: bool, e: Expr, count: nat, last: nat,
      i: nat): (a: Option<Answer>)
    requires last <= i <= |inp| && e.Rep?
    ensures InRange(inp, last, a)
    decreases k, 1, e, |inp| - i, 0
  {
    var a := Peg(g, inp, k, skip, e.child, i, false);
    if a.None? || a.value.out.Throw? then a
    else if a.value.out.No? then
      Some(a.value.(out := if count < e.min then No else if e.max < 0 && a.value.cut then Throw else Yes(last)))
    else
      var end := a.value.out.end;
      if (e.max > 0 && count + 1 >= e.max) || end == i then
        Some(a.value.(out := if count + 1 < e.min then No else Yes(end)))
      else
        Prefixed(a.value.evs, PegRep(g, inp, k, skip, e, count + 1, end))
  }

  /** The answer of a rule: its body's, or the grown answer if it is left-recursive. */
  function PegCall(g: Grammar, inp: Input, k: nat, skip: bool, r: RuleId, i: nat): (a: Option<Answer>)
    requires i <= |inp|
    ensures InRange(inp, i, a)
    decreases k, 0, 0
  {
    if k == 0 || r !in g.rules || IsPartner(g, r) then None
    else
      var a := if IsLeftRec(g, r) then PegGrow(g, inp, k - 1, skip, r, i, None)
               else Peg(g, inp, k - 1, skip, g.rules[r].body, i, false);
      Reported(g.rules[r], i, a)
  }

  /** A failing rule reports itself at its start. */
  function Reported(def: RuleDef, i: nat, a: Option<Answer>): Option<Answer> {
    if a.Some? && a.value.out.No? then Some(a.value.(evs := a.value.evs + def.Report(i))) else a
  }

  /** Left recursion at `i` with the seed found so far: as long as one more step gets further, go on. */
  function PegGrow(g: Grammar, inp: Input, k: nat, skip: bool, r: RuleId, i: nat,
      seed: Option<nat>): (a: Option<Answer>)
    requires i <= |inp| && r in g.rules
    requires seed.Some? ==> i < seed.value <= |inp|
    ensures InRange(inp, i, a)
    decreases k, 3, |inp| - (if seed.Some? then seed.value else i)
  {
    var a := PegIn(g, inp, k, skip, r, g.rules[r].body, i, seed);
    if a.None? || a.value.out.Throw? then a
    else
      var last := if seed.Some? then seed.value else i;
      if a.value.out.Yes? && a.value.out.end > last then
        Prefixed(a.value.evs, PegGrow(g, inp, k, skip, r, i, Some(a.value.out.end)))
      else if seed.Some? then Some(a.value.(out := Yes(seed.value)))
      else a
  }

  /** One step of the growth of r: `e`, standing at the start of r's body or of one of its partners'.  The rule r
      itself ends where the seed does, and fails while there is none; its partners are entered; whatever else `e`
      starts with starts over at `i`. */
  function PegIn(g: Grammar, inp: Input, k: nat, skip: bool, r: RuleId, e: Expr, i: nat,
      seed: Option<nat>): (a: Option<Answer>)
    requires i <= |inp|
    requires seed.Some? ==> i < seed.value <= |inp|
    ensures InRange(inp, i, a)
    decreases k, 2, e
  {
    match e
    case Rule(m) =>
      if m == r then Some(Answer(if seed.Some? then Yes(seed.value) else No, false, {}))
      else if Serves(g, m, r) then
        if k == 0 then None
        else Reported(g.rules[m], i, PegIn(g, inp, k - 1, skip, r, g.rules[m].body, i, seed))
      else Peg(g, inp, k, skip, e, i, false)
    case Alt(_) => PegInAlt(g, inp, k, skip, r, e, 0, i, seed)
    case Seq(es) =>
      if es == [] then Peg(g, inp, k, skip, e, i, false)
      else
        var a := PegIn(g, inp, k, skip, r, es[0], i, seed);
        if a.None? || !a.value.out.Yes? then a
        else Prefixed(a.value.evs, PegSeq(g, inp, k, skip, e, 1, a.value.out.end, false))
    case _ => Peg(g, inp, k, skip, e, i, false)
  }

  function PegInAlt(g: Grammar, inp: Input, k: nat, skip: bool, r: RuleId, e: Expr, j: nat, i: nat,
      seed: Option<nat>): (a: Option<Answer>)
    requires i <= |inp| && e.Alt? && j <= |e.es|
    requires seed.Some? ==> i < seed.value <= |inp|
    ensures InRange(inp, i, a)
    decreases k, 2, e, |e.es| - j
  {
    if j == |e.es| then Some(Answer(No, false, {}))
    else
      var a := PegIn(g, inp, k, skip, r, e.es[j], i, seed);
      if a.None? || !a.value.out.No? then a
      else Prefixed(a.value.evs, PegInAlt(g, inp, k, skip, r, e, j + 1, i, seed))
  }

  /** A whole parse: one leading skip, then the start rule. */
  function PegRun(g: Grammar, inp: Input, k: nat, start: RuleId, i: nat): (a: Option<Answer>)
    requires i <= |inp|
    ensures InRange(inp, i, a)
  {
    var w := PegSkip(g, inp, k, g.skipper.Some?, i);
    if w.None? || !w.value.out.Yes? then w
    else Prefixed(w.value.evs, PegCall(g, inp, k, g.skipper.Some?, start, w.value.out.end))
  }
}
