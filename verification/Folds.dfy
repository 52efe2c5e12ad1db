/** The second phase: values are rebuilt from the finished tree with a cursor over each node's children.
    `Shows` says which value a node stands for; the fold computes it, and calls exactly the actions in it:
    the ghost result `calls` lists every action call made, as it is made. */
module Folds {
  import opened Grammars
  import opened Machine
  import opened Values

  // ---- the value a node stands for --------------------------------------------------------------

  /** A node built by an expression, not by a rule, and finished. */
  ghost predicate Own(a: seq<Node>, open: set<nat>, t: nat) {
    t < |a| && t !in open && a[t].producer.None?
  }

  /** Children pushed by the first j expressions, and values contributed by them. */
  function Slots(es: seq<Expr>, j: nat): nat
    requires j <= |es|
  {
    if j == 0 then 0 else Slots(es, j - 1) + (if Treeless(es[j - 1]) then 0 else 1)
  }

  function Vals(es: seq<Expr>, j: nat): nat
    requires j <= |es|
  {
    if j == 0 then 0 else Vals(es, j - 1) + (if Void(es[j - 1]) then 0 else 1)
  }

  /** The finished node `t` of a match of `e` stands for the value `v`; nothing below it is under
      construction, nor the node itself. */
  ghost predicate Shows(g: Grammar, inp: Input, a: seq<Node>, open: set<nat>, e: Expr, t: nat, v: Value)
    decreases v, 1, e
  {
    match e
    case Token(_, _) => Own(a, open, t) && a[t].start < |inp| && v == Elem(inp[a[t].start])
    case Lexeme(child) => Shows(g, inp, a, open, child, t, v)
    case Rule(_) => RuleShows(g, inp, a, open, t, v)
    case Alt(es) =>
      es != [] &&
      if AllRules(es) then RuleShows(g, inp, a, open, t, v)
      else
        && Own(a, open, t) && a[t].winner.Some? && a[t].winner.value < |es|
        && Builds(es[a[t].winner.value]) && Shows(g, inp, a, open, es[a[t].winner.value], t, v)
    case Rep(child, _, _) =>
      Own(a, open, t) &&
      if Optional(e) then
        v.Opt? &&
        if v.item.None? then a[t].children == []
        else
          && |a[t].children| == 1 && a[t].children[0].Some?
          && Shows(g, inp, a, open + {t}, child, a[t].children[0].value, v.item.value)
      else
        && v.List? && |v.items| == |a[t].children|
        && forall i | 0 <= i < |v.items| ::
             a[t].children[i].Some? && Shows(g, inp, a, open + {t}, child, a[t].children[i].value, v.items[i])
    case Seq(es) =>
      var n := Vals(es, |es|);
      && Own(a, open, t) && n > 0 && |a[t].children| == Slots(es, |es|) && (n > 1 ==> v.Tuple? && |v.items| == n)
      && forall l | 0 <= l < |es| && !Void(es[l]) ::
           && Slots(es, l) < |a[t].children| && a[t].children[Slots(es, l)].Some? && Vals(es, l) < n
           && Shows(g, inp, a, open + {t}, es[l], a[t].children[Slots(es, l)].value, if n == 1 then v
                else v.items[Vals(es, l)])
    case _ => false
  }

  /** The finished node of a rule; its value depends on the rule that built it only. */
  ghost predicate RuleShows(g: Grammar, inp: Input, a: seq<Node>, open: set<nat>, t: nat, v: Value)
    decreases v, 0
  {
    && t < |a| && t !in open && a[t].producer.Some? && a[t].producer.value in g.rules
    && var p := a[t].producer.value;
       if !g.rules[p].hasAction then v == Default
       else
         && v.Applied? && v.rule == p && v.start == a[t].start && v.end == a[t].end
         && if Void(g.rules[p].body) then v.arg == Unit
            else
              && |a[t].children| == 1 && a[t].children[0].Some?
              && Shows(g, inp, a, open + {t}, g.rules[p].body, a[t].children[0].value, v.arg)
  }

  /** Where the cursor stands before child j of a sequence: a void child moves it only if it is a matcher. */
  function CursorAt(es: seq<Expr>, j: nat): nat
    requires j <= |es|
  {
    if j == 0 then 0 else CursorAt(es, j - 1) + (if Void(es[j - 1]) && !es[j - 1].Matcher? then 0 else 1)
  }

  /** In a typed sequence that is the child that was pushed for j. */
  lemma {:induction false} CursorIsRight(es: seq<Expr>, j: nat)
    requires j <= |es| && Typed(Seq(es))
    ensures CursorAt(es, j) == Slots(es, j)
    decreases j
  {
    if j > 0 {
      CursorIsRight(es, j - 1);
      if !Void(es[j - 1]) { TypedBuilds(es[j - 1]); }
    }
  }

  /** The value of a token: the element where its node starts. */
  function ReadToken(inp: Input, a: seq<Node>, t: nat): Value
    requires t < |a| && a[t].start < |inp|
  {
    Elem(inp[a[t].start])
  }

  // ---- the fold ---------------------------------------------------------------------------------

  class Cursor {
    var index: nat
    constructor () ensures index == 0 { index := 0; }
  }

  method FoldExpr(g: Grammar, inp: Input, a: seq<Node>, e: Expr, t: nat, cur: Cursor, ghost open: set<nat>,
      ghost v: Value)
    returns (r: Value, ghost calls: seq<Value>)
    requires Shows(g, inp, a, open, e, t, v) && Typed(e) && TypedGrammar(g) && cur.index == 0
    modifies cur
    ensures r == v && calls == Calls(v)
    ensures e.Token? ==> t < |a| && a[t].start < |inp| && r == Elem(inp[a[t].start])
    ensures e.Rep? && e.min == 0 && e.max == 1 ==> t < |a| && r.Opt? && (r.item.None? <==> a[t].children == [])
    ensures e.Rep? && !(e.min == 0 && e.max == 1) ==> t < |a| && r.List? && |r.items| == |a[t].children|
    decreases v, 2, e
  {
    match e
    case Token(_, _) => r, calls := ReadToken(inp, a, t), [];
    case Lexeme(child) => r, calls := FoldExpr(g, inp, a, child, t, cur, open, v);
    case Alt(_) => r, calls := Dispatch(g, inp, a, e, 0, t, cur, open, v);
    case Rep(child, _, _) =>
      if Optional(e) {
        r, calls := FoldOptional(g, inp, a, e, t, cur, open, v);
      } else {
        r, calls := FoldRep(g, inp, a, e, t, cur, open, v);
      }
    case Seq(_) => r, calls := FoldSeq(g, inp, a, e, t, cur, open, v);
    case Rule(_) => r, calls := FoldRule(g, inp, a, t, open, v);
  }

  /** Tests the branch numbers in turn; the last branch needs no test. */
  method Dispatch(g: Grammar, inp: Input, a: seq<Node>, e: Expr, j: nat, t: nat, cur: Cursor, ghost open: set<nat>,
      ghost v: Value)
    returns (r: Value, ghost calls: seq<Value>)
    requires Shows(g, inp, a, open, e, t, v) && Typed(e) && TypedGrammar(g) && cur.index == 0 && e.Alt? && j < |e.es|
    requires AllRules(e.es) || j <= a[t].winner.value
    modifies cur
    ensures r == v && calls == Calls(v)
    decreases v, 2, e, |e.es| - j
  {
    if j == |e.es| - 1 || a[t].winner == Some(j) {
      r, calls := FoldExpr(g, inp, a, e.es[j], t, cur, open, v);
    } else {
      r, calls := Dispatch(g, inp, a, e, j + 1, t, cur, open, v);
    }
  }

  method FoldRep(g: Grammar, inp: Input, a: seq<Node>, e: Expr, t: nat, cur: Cursor, ghost open: set<nat>,
      ghost v: Value)
    returns (r: Value, ghost calls: seq<Value>)
    requires Shows(g, inp, a, open, e, t, v) && Typed(e) && TypedGrammar(g) && cur.index == 0 && e.Rep? && !Optional(e)
    modifies cur
    ensures r == v && calls == Calls(v)
    decreases v, 2, e, 0
  {
    var out: seq<Value> := [];
    calls := [];
    while cur.index < |a[t].children|
      invariant cur.index == |out| <= |v.items| && out == v.items[..|out|] && calls == CallsOf(out)
      decreases |a[t].children| - cur.index
    {
      var child := a[t].children[cur.index].value;
      cur.index := cur.index + 1;
      var iteration := new Cursor();
      var value;
      ghost var made;
      value, made := FoldExpr(g, inp, a, e.child, child, iteration, open + {t}, v.items[|out|]);
      CallsOfMore(out, value);
      out, calls := out + [value], calls + made;
    }
    assert out == v.items;
    r := List(out);
  }

  method FoldOptional(g: Grammar, inp: Input, a: seq<Node>, e: Expr, t: nat, cur: Cursor, ghost open: set<nat>,
      ghost v: Value)
    returns (r: Value, ghost calls: seq<Value>)
    requires Shows(g, inp, a, open, e, t, v) && Typed(e) && TypedGrammar(g) && cur.index == 0 && Optional(e)
    modifies cur
    ensures r == v && calls == Calls(v)
    decreases v, 2, e, 0
  {
    if cur.index >= |a[t].children| || a[t].children[cur.index].None? { return Opt(None), []; }
    var child := a[t].children[cur.index].value;
    cur.index := cur.index + 1;
    var iteration := new Cursor();
    var value;
    value, calls := FoldExpr(g, inp, a, e.child, child, iteration, open + {t}, v.item.value);
    r := Opt(Some(value));
  }

  /** Walks the children of a sequence; a void child advances the cursor only if it is a matcher. */
  method FoldSeq(g: Grammar, inp: Input, a: seq<Node>, e: Expr, t: nat, cur: Cursor, ghost open: set<nat>,
      ghost v: Value)
    returns (r: Value, ghost calls: seq<Value>)
    requires Shows(g, inp, a, open, e, t, v) && Typed(e) && TypedGrammar(g) && cur.index == 0 && e.Seq?
    modifies cur
    ensures r == v && calls == Calls(v)
    decreases v, 2, e, 0
  {
    hide Shows, TypedGrammar, Collapse, Calls;
    var acc: seq<Value> := [];
    calls := [];
    var i := 0;
    ghost var n := Vals(e.es, |e.es|);
    while i < |e.es|
      invariant 0 <= i <= |e.es| && cur.index == CursorAt(e.es, i) && |acc| == Vals(e.es, i)
      invariant forall l | 0 <= l < |acc| :: l < n && PartOf(v, n, l) == Some(acc[l])
      invariant calls == CallsOf(acc)
    {
      ValsUpTo(e.es, i + 1);
      if Void(e.es[i]) {
        if e.es[i].Matcher? { cur.index := cur.index + 1; }
      } else {
        CursorIsRight(e.es, i);
        ChildShows(g, inp, a, open, e, t, v, i);
        var child := a[t].children[cur.index].value;
        cur.index := cur.index + 1;
        var inner := new Cursor();
        var value;
        ghost var made;
        value, made := FoldExpr(g, inp, a, e.es[i], child, inner, open + {t}, PartOf(v, n, |acc|).value);
        CallsOfMore(acc, value);
        acc, calls := acc + [value], calls + made;
      }
      i := i + 1;
    }
    r := Collapse(acc);
    CallsCollapsed(acc);
    Collapsed(g, inp, a, open, e, t, v, acc);
  }

  /** The idx-th of the n values that v collapses. */
  ghost function PartOf(v: Value, n: nat, idx: nat): Option<Value> {
    if n == 1 then Some(v) else if v.Tuple? && idx < |v.items| then Some(v.items[idx]) else None
  }

  lemma ChildShows(g: Grammar, inp: Input, a: seq<Node>, open: set<nat>, e: Expr, t: nat, v: Value, l: nat)
    requires e.Seq? && Shows(g, inp, a, open, e, t, v) && l < |e.es| && !Void(e.es[l])
    ensures var n, at := Vals(e.es, |e.es|), Slots(e.es, l);
            && t < |a| && at < |a[t].children| && a[t].children[at].Some? && Vals(e.es, l) < n
                && PartOf(v, n, Vals(e.es, l)).Some?
            && Shows(g, inp, a, open + {t}, e.es[l], a[t].children[at].value, PartOf(v, n, Vals(e.es, l)).value)
            && (n != 1 ==> v.Tuple? && PartOf(v, n, Vals(e.es, l)).value in v.items)
  {
  }

  lemma Collapsed(g: Grammar, inp: Input, a: seq<Node>, open: set<nat>, e: Expr, t: nat, v: Value, vs: seq<Value>)
    requires e.Seq? && Shows(g, inp, a, open, e, t, v) && |vs| == Vals(e.es, |e.es|)
    requires forall l | 0 <= l < |vs| :: PartOf(v, |vs|, l) == Some(vs[l])
    ensures Collapse(vs) == v
  {
    if |vs| > 1 { assert vs == v.items; } else { assert PartOf(v, |vs|, 0) == Some(vs[0]); }
  }

  lemma {:induction false} ValsUpTo(es: seq<Expr>, j: nat)
    requires j <= |es|
    ensures Vals(es, j) <= Vals(es, |es|)
    decreases |es| - j
  {
    if j < |es| { ValsUpTo(es, j + 1); }
  }

  lemma {:induction false} TypedBuilds(e: Expr)
    requires Typed(e)
    ensures !Treeless(e)
  {
    match e
    case Lexeme(child) => TypedBuilds(child);
    case Alt(es) => if !AllRules(es) { TypedBuilds(es[0]); } assert !Treeless(es[0]);
    case _ =>
  }

  /** A rule inside a body: the fold of the rule that built the node. */
  method FoldRule(g: Grammar, inp: Input, a: seq<Node>, t: nat, ghost open: set<nat>, ghost v: Value)
      returns (r: Value, ghost calls: seq<Value>)
    requires RuleShows(g, inp, a, open, t, v) && TypedGrammar(g)
    ensures r == v && calls == Calls(v)
    decreases v, 1
  {
    if g.rules[a[t].producer.value].hasAction {
      r, calls := FoldAndInvoke(g, inp, a, a[t].producer.value, t, open, v);
    } else {
      r, calls := Default, [];
    }
  }

  /** Folds the body from the node's only child, then applies the action. */
  method FoldAndInvoke(g: Grammar, inp: Input, a: seq<Node>, p: RuleId, t: nat, ghost open: set<nat>,
      ghost v: Value) returns (r: Value, ghost calls: seq<Value>)
    requires RuleShows(g, inp, a, open, t, v) && TypedGrammar(g) && a[t].producer == Some(p) && g.rules[p].hasAction
    ensures r == v && calls == Calls(v)
    decreases v, 0
  {
    var arg := Unit;
    calls := [];
    if !Void(g.rules[p].body) {
      var body := if a[t].children == [] then t else a[t].children[0].value;
      var cur := new Cursor();
      arg, calls := FoldExpr(g, inp, a, g.rules[p].body, body, cur, open + {t}, v.arg);
    }
    r, calls := Applied(p, a[t].start, a[t].end, arg), calls + [Applied(p, a[t].start, a[t].end, arg)];
  }

  /** The root: the start rule's own fold if it has one, else that of the rule that built the node. */
  method FoldStart(g: Grammar, inp: Input, a: seq<Node>, start: RuleId, t: nat, ghost v: Value)
      returns (r: Value, ghost calls: seq<Value>)
    requires RuleShows(g, inp, a, {}, t, v) && TypedGrammar(g) && start in g.rules
    requires g.rules[start].hasAction ==> a[t].producer == Some(start)
    ensures r == v && calls == Calls(v)
  {
    if g.rules[start].hasAction {
      r, calls := FoldAndInvoke(g, inp, a, start, t, {}, v);
    } else {
      r, calls := FoldRule(g, inp, a, t, {}, v);
    }
  }
}
