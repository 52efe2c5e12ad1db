/** The typed value of a match, computed bottom-up along the memo-free parse.  Actions are applied
    symbolically: a value records which action ran on which span with which argument, so equal values mean
    that the same actions ran on the same things, whatever they compute. */
module Values {
  import opened Grammars
  import opened Peg
  import Depth

  datatype Value =
    | Unit
    | Elem(sym: Sym)
    | Applied(rule: RuleId, start: nat, end: nat, arg: Value)
    | Default
    | Tuple(items: seq<Value>)
    | List(items: seq<Value>)
    | Opt(item: Option<Value>)

  /** The action calls that computed a value, each as the applied value it returned, in the order of the fold:
      arguments first, from left to right. */
  function Calls(v: Value): seq<Value> {
    match v
    case Applied(_, _, _, arg) => Calls(arg) + [v]
    case Tuple(items) => CallsOf(items)
    case List(items) => CallsOf(items)
    case Opt(item) => if item.None? then [] else Calls(item.value)
    case _ => []
  }

  function CallsOf(vs: seq<Value>): seq<Value> {
    if vs == [] then [] else CallsOf(vs[..|vs| - 1]) + Calls(vs[|vs| - 1])
  }

  lemma CallsOfMore(vs: seq<Value>, v: Value)
    ensures CallsOf(vs + [v]) == CallsOf(vs) + Calls(v)
  {
    assert (vs + [v])[..|vs|] == vs;
  }

  lemma CallsCollapsed(vs: seq<Value>)
    ensures Calls(Collapse(vs)) == CallsOf(vs)
  {
    if |vs| == 1 { assert vs == [] + [vs[0]]; CallsOfMore([], vs[0]); }
  }

  // ---- static types -----------------------------------------------------------------------------

  /** The expression's result type is void. */
  predicate Void(e: Expr) {
    match e
    case Token(_, _) => false
    case Rule(_) => false
    case Seq(es) => forall j | 0 <= j < |es| :: Void(es[j])
    case Alt(es) => es == [] || Void(es[0])
    case Rep(child, _, _) => Void(child)
    case Lexeme(child) => Void(child)
    case _ => true
  }

  /** The expression never builds a node. */
  predicate Treeless(e: Expr) {
    match e
    case Empty => true
    case Terminal(_, _) => true
    case TerminalSeq(_, _) => true
    case Cut => true
    case Not(_) => true
    case And(_) => true
    case Alt(es) => forall j | 0 <= j < |es| :: Treeless(es[j])
    case Lexeme(child) => Treeless(child)
    case _ => false
  }

  /** Every match of the expression builds a node of its own. */
  predicate Builds(e: Expr) {
    match e
    case Token(_, _) => true
    case Seq(_) => true
    case Rep(_, _, _) => true
    case Lexeme(child) => Builds(child)
    case _ => false
  }

  predicate AllRules(es: seq<Expr>) { forall j | 0 <= j < |es| :: es[j].Rule? }

  /** An option is the repetition of at most one and at least no iteration. */
  predicate Optional(e: Expr) { e.Rep? && e.min == 0 && e.max == 1 }

  /** A result that can be folded: void children of sequences build no node (or are matchers), and the
      branches of a choice are all bare rules, or all build nodes of their own. */
  predicate Typed(e: Expr) {
    match e
    case Token(_, _) => true
    case Rule(_) => true
    case Lexeme(child) => Typed(child)
    case Rep(child, _, _) => !Void(child) && Typed(child)
    case Seq(es) =>
      && (exists j :: 0 <= j < |es| && !Void(es[j]))
      && forall j | 0 <= j < |es| :: if Void(es[j]) then Treeless(es[j]) || es[j].Matcher? else Typed(es[j])
    case Alt(es) =>
      && es != []
      && (AllRules(es) || forall j | 0 <= j < |es| :: Builds(es[j]) && !Void(es[j]) && Typed(es[j]))
    case _ => false
  }

  ghost predicate TypedGrammar(g: Grammar) {
    forall r | r in g.rules && g.rules[r].hasAction && !Void(g.rules[r].body) :: Typed(g.rules[r].body)
  }

  lemma {:induction false} TypedIsNotVoid(e: Expr)
    requires Typed(e)
    ensures !Void(e)
  {
    match e
    case Lexeme(child) => TypedIsNotVoid(child);
    case _ =>
  }

  // ---- bottom-up evaluation ---------------------------------------------------------------------

  /** No value, the value, or a tuple. */
  function Collapse(vs: seq<Value>): Value {
    if vs == [] then Unit else if |vs| == 1 then vs[0] else Tuple(vs)
  }

  ghost predicate Matches(a: Option<Answer>) { a.Some? && a.value.out.Yes? }

  /** The value of `e` matched at `i` by the memo-free parse. */
  ghost function Eval(g: Grammar, inp: Input, k: nat, skip: bool, e: Expr, i: nat, cut: bool): Value
    requires i <= |inp|
    decreases k, 1, e
  {
    match e
    case Token(_, _) => if i < |inp| then Elem(inp[i]) else Unit
    case Lexeme(child) => Eval(g, inp, k, false, child, i, cut)
    case Alt(_) => EvalAlt(g, inp, k, skip, e, 0, i)
    case Rep(_, _, _) =>
      var vs := EvalRep(g, inp, k, skip, e, 0, i);
      if Optional(e) then Opt(if vs == [] then None else Some(vs[0])) else List(vs)
    case Seq(_) => Collapse(EvalSeq(g, inp, k, skip, e, 0, i, cut))
    case Rule(r) => EvalRule(g, inp, k, skip, r, i)
    case _ => Unit
  }

  /** The branch that matches first. */
  ghost function EvalAlt(g: Grammar, inp: Input, k: nat, skip: bool, e: Expr, j: nat, i: nat): Value
    requires i <= |inp| && e.Alt? && j <= |e.es|
    decreases k, 1, e, |e.es| - j
  {
    if j == |e.es| then Unit
    else if Matches(Peg.Peg(g, inp, k, skip, e.es[j], i, false)) then Eval(g, inp, k, skip, e.es[j], i, false)
    else EvalAlt(g, inp, k, skip, e, j + 1, i)
  }

  /** The values of the children from j on that have one. */
  ghost function EvalSeq(g: Grammar, inp: Input, k: nat, skip: bool, e: Expr, j: nat, i: nat, cut: bool): seq<Value>
    requires i <= |inp| && e.Seq? && j <= |e.es|
    decreases k, 1, e, |e.es| - j
  {
    if j == |e.es| then []
    else
      var w := if j > 0 then PegSkip(g, inp, k, skip, i) else Some(Answer(Yes(i), cut, {}));
      if !Matches(w) then [] else EvalSeqNext(g, inp, k, skip, e, j, w.value.out.end, cut)
  }

  ghost function EvalSeqNext(g: Grammar, inp: Input, k: nat, skip: bool, e: Expr, j: nat, i: nat, cut: bool): seq<Value>
    requires i <= |inp| && e.Seq? && j < |e.es|
    decreases k, 1, e, |e.es| - j, 0
  {
    var a := Peg.Peg(g, inp, k, skip, e.es[j], i, cut);
    if !Matches(a) then []
    else
      (if Void(e.es[j]) then [] else [Eval(g, inp, k, skip, e.es[j], i, cut)])
      + EvalSeq(g, inp, k, skip, e, j + 1, a.value.out.end, a.value.cut)
  }

  /** The values of the iterations behind `count` others. */
  ghost function EvalRep(g: Grammar, inp: Input, k: nat, skip: bool, e: Expr, count: nat, i: nat): seq<Value>
    requires i <= |inp| && e.Rep?
    decreases k, 1, e, |inp| - i, 1
  {
    var w := if count > 0 then PegSkip(g, inp, k, skip, i) else Some(Answer(Yes(i), false, {}));
    if !Matches(w) then [] else EvalRepTry(g, inp, k, skip, e, count, w.value.out.end)
  }

  ghost function EvalRepTry(g: Grammar, inp: Input, k: nat, skip: bool, e: Expr, count: nat, i: nat): seq<Value>
    requires i <= |inp| && e.Rep?
    decreases k, 1, e, |inp| - i, 0
  {
    var a := Peg.Peg(g, inp, k, skip, e.child, i, false);
    if !Matches(a) then []
    else
      [Eval(g, inp, k, skip, e.child, i, false)]
      + (if (e.max > 0 && count + 1 >= e.max) || a.value.out.end == i then []
          else EvalRep(g, inp, k, skip, e, count + 1, a.value.out.end))
  }

  /** A rule with an action applies it to its body's value; any other hands through the value of the rule its
      body consists of, if it does, and else has the default value. */
  ghost function EvalRule(g: Grammar, inp: Input, k: nat, skip: bool, r: RuleId, i: nat): Value
    requires i <= |inp|
    decreases k, 0
  {
    if k == 0 || r !in g.rules then Unit
    else
      var body := g.rules[r].body;
      var a := Peg.Peg(g, inp, k - 1, skip, body, i, false);
      if !Matches(a) then Unit
      else if !g.rules[r].hasAction then PassOn(g, inp, k - 1, skip, body, i, false)
      else Applied(r, i, a.value.out.end, if Void(body) then Unit else Eval(g, inp, k - 1, skip, body, i, false))
  }

  ghost function PassOn(g: Grammar, inp: Input, k: nat, skip: bool, e: Expr, i: nat, cut: bool): Value
    requires i <= |inp|
    decreases k, 1, e
  {
    match e
    case Rule(r) => EvalRule(g, inp, k, skip, r, i)
    case Lexeme(child) => PassOn(g, inp, k, false, child, i, cut)
    case Alt(_) => PassAlt(g, inp, k, skip, e, 0, i)
    case _ => Default
  }

  ghost function PassAlt(g: Grammar, inp: Input, k: nat, skip: bool, e: Expr, j: nat, i: nat): Value
    requires i <= |inp| && e.Alt? && j <= |e.es|
    decreases k, 1, e, |e.es| - j
  {
    if j == |e.es| then Default
    else if Matches(Peg.Peg(g, inp, k, skip, e.es[j], i, false)) then PassOn(g, inp, k, skip, e.es[j], i, false)
    else PassAlt(g, inp, k, skip, e, j + 1, i)
  }

  // ---- the depth does not matter ----------------------------------------------------------------

  lemma {:induction false} SameValue(g: Grammar, inp: Input, k: nat, k': nat, skip: bool, e: Expr, i: nat, cut: bool)
    requires i <= |inp| && k <= k' && NoLeft(g) && Matches(Peg.Peg(g, inp, k, skip, e, i, cut))
    ensures Eval(g, inp, k', skip, e, i, cut) == Eval(g, inp, k, skip, e, i, cut)
    ensures PassOn(g, inp, k', skip, e, i, cut) == PassOn(g, inp, k, skip, e, i, cut)
    decreases k, 1, e
  {
    hide NoLeft, PegSeq, PegRep, PegCall;
    match e
    case Lexeme(child) => SameValue(g, inp, k, k', false, child, i, cut);
    case Alt(_) => SameAlt(g, inp, k, k', skip, e, 0, i);
    case Rep(_, _, _) => SameRep(g, inp, k, k', skip, e, 0, i);
    case Seq(_) => SameSeq(g, inp, k, k', skip, e, 0, i, cut);
    case Rule(r) => SameRule(g, inp, k, k', skip, r, i);
    case _ =>
  }

  ghost predicate NoLeft(g: Grammar) { forall r | r in g.rules :: !IsLeftRec(g, r) && !IsPartner(g, r) }

  lemma {:induction false} SameAlt(g: Grammar, inp: Input, k: nat, k': nat, skip: bool, e: Expr, j: nat, i: nat)
    requires i <= |inp| && k <= k' && NoLeft(g) && e.Alt? && j <= |e.es| && Matches(PegAlt(g, inp, k, skip, e, j, i))
    ensures EvalAlt(g, inp, k', skip, e, j, i) == EvalAlt(g, inp, k, skip, e, j, i)
    ensures PassAlt(g, inp, k', skip, e, j, i) == PassAlt(g, inp, k, skip, e, j, i)
    decreases k, 1, e, |e.es| - j
  {
    hide NoLeft, Peg.Peg;
    if j < |e.es| {
      Depth.Deeper(g, inp, k, k', skip, e.es[j], i, false);
      if Matches(Peg.Peg(g, inp, k, skip, e.es[j], i, false)) {
        SameValue(g, inp, k, k', skip, e.es[j], i, false);
      } else {
        SameAlt(g, inp, k, k', skip, e, j + 1, i);
      }
    }
  }

  lemma {:induction false} SameSeq(g: Grammar, inp: Input, k: nat, k': nat, skip: bool, e: Expr, j: nat, i: nat,
      cut: bool)
    requires i <= |inp| && k <= k' && NoLeft(g) && e.Seq? && j <= |e.es|
        && Matches(PegSeq(g, inp, k, skip, e, j, i, cut))
    ensures EvalSeq(g, inp, k', skip, e, j, i, cut) == EvalSeq(g, inp, k, skip, e, j, i, cut)
    decreases k, 1, e, |e.es| - j
  {
    hide NoLeft, Peg.Peg, PegSkip;
    if j < |e.es| {
      Depth.DeeperSkip(g, inp, k, k', skip, i);
      var w := if j > 0 then PegSkip(g, inp, k, skip, i) else Some(Answer(Yes(i), cut, {}));
      var p := w.value.out.end;
      Depth.Deeper(g, inp, k, k', skip, e.es[j], p, cut);
      var a := Peg.Peg(g, inp, k, skip, e.es[j], p, cut);
      SameValue(g, inp, k, k', skip, e.es[j], p, cut);
      SameSeq(g, inp, k, k', skip, e, j + 1, a.value.out.end, a.value.cut);
      assert EvalSeqNext(g, inp, k', skip, e, j, p, cut) == EvalSeqNext(g, inp, k, skip, e, j, p, cut);
    }
  }

  lemma {:induction false} SameRep(g: Grammar, inp: Input, k: nat, k': nat, skip: bool, e: Expr, count: nat, i: nat)
    requires i <= |inp| && k <= k' && NoLeft(g) && e.Rep? && PegRep(g, inp, k, skip, e, count, i).Some?
    ensures EvalRep(g, inp, k', skip, e, count, i) == EvalRep(g, inp, k, skip, e, count, i)
    decreases k, 1, e, |inp| - i
  {
    hide NoLeft, Peg.Peg, PegSkip;
    Depth.DeeperSkip(g, inp, k, k', skip, i);
    var w := if count > 0 then PegSkip(g, inp, k, skip, i) else Some(Answer(Yes(i), false, {}));
    if Matches(w) {
      var p := w.value.out.end;
      Depth.Deeper(g, inp, k, k', skip, e.child, p, false);
      var a := Peg.Peg(g, inp, k, skip, e.child, p, false);
      if Matches(a) {
        SameValue(g, inp, k, k', skip, e.child, p, false);
        if !(e.max > 0 && count + 1 >= e.max) && a.value.out.end != p { SameRep(g, inp, k, k', skip, e, count + 1,
            a.value.out.end); }
      }
      assert EvalRepTry(g, inp, k', skip, e, count, p) == EvalRepTry(g, inp, k, skip, e, count, p);
    }
  }

  lemma {:induction false} SameRule(g: Grammar, inp: Input, k: nat, k': nat, skip: bool, r: RuleId, i: nat)
    requires i <= |inp| && k <= k' && NoLeft(g) && Matches(PegCall(g, inp, k, skip, r, i))
    ensures EvalRule(g, inp, k', skip, r, i) == EvalRule(g, inp, k, skip, r, i)
    decreases k, 0
  {
    hide Peg.Peg, IsPartner, IsLeftRec;
    var body := g.rules[r].body;
    Depth.Deeper(g, inp, k - 1, k' - 1, skip, body, i, false);
    SameValue(g, inp, k - 1, k' - 1, skip, body, i, false);
  }
}
