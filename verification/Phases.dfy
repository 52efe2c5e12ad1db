/** Two phases are one: the tree that the memoised parse leaves in the shared arena folds to the value that
    the memo-free parse computes bottom-up, although nodes are shared, adopted and stamped on the way.
    For grammars without cuts, recovery and left recursion whose action-bearing bodies are `Typed`. */
module Phases {
  import opened Grammars
  import opened Machine
  import opened Peg
  import opened Forms
  import opened Soundness
  import opened Values
  import opened Folds
  import Packrat
  import Depth
  import LeftRecursion

  // ---- what keeps the value of a node -----------------------------------------------------------

  /** The same but for the name, and for the winner stamped on a rule's node. */
  ghost predicate SameNode(x: Node, y: Node) {
    && x.start == y.start && x.end == y.end && x.children == y.children && x.producer == y.producer
    && (x.producer.None? ==> x.winner == y.winner)
  }

  ghost predicate Keeps(a: seq<Node>, a': seq<Node>, but: set<nat>) {
    |a| <= |a'| && forall n | 0 <= n < |a| && n !in but :: SameNode(a[n], a'[n])
  }

  /** `open'` protects nothing that `open` did not, but for new nodes. */
  ghost predicate Narrows(a: seq<Node>, open: set<nat>, open': set<nat>) {
    forall m | m in open' :: m in open || m >= |a|
  }

  lemma {:induction false} ShowsStays(g: Grammar, inp: Input, a: seq<Node>, a': seq<Node>, open: set<nat>,
      open': set<nat>, but: set<nat>, e: Expr, t: nat, v: Value)
    requires Shows(g, inp, a, open, e, t, v) && Keeps(a, a', but) && but <= open && Narrows(a, open, open')
    ensures Shows(g, inp, a', open', e, t, v)
    decreases v, 1, e
  {
    match e
    case Lexeme(child) => ShowsStays(g, inp, a, a', open, open', but, child, t, v);
    case Rule(_) => RuleStays(g, inp, a, a', open, open', but, t, v);
    case Alt(es) =>
      if AllRules(es) { RuleStays(g, inp, a, a', open, open', but, t, v); }
      else { assert SameNode(a[t], a'[t]); ShowsStays(g, inp, a, a', open, open', but, es[a[t].winner.value], t, v); }
    case Rep(child, _, _) =>
      assert SameNode(a[t], a'[t]);
      if Optional(e) {
        if v.item.Some? { ShowsStays(g, inp, a, a', open + {t}, open' + {t}, but, child, a[t].children[0].value,
            v.item.value); }
      } else {
        forall i | 0 <= i < |v.items| ensures Shows(g, inp, a', open' + {t}, child, a[t].children[i].value,
            v.items[i]) {
          ShowsStays(g, inp, a, a', open + {t}, open' + {t}, but, child, a[t].children[i].value, v.items[i]);
        }
      }
    case Seq(es) => SeqStays(g, inp, a, a', open, open', but, e, t, v);
    case Token(_, _) => assert SameNode(a[t], a'[t]);
    case _ =>
  }

  lemma {:induction false} SeqStays(g: Grammar, inp: Input, a: seq<Node>, a': seq<Node>, open: set<nat>,
      open': set<nat>, but: set<nat>, e: Expr, t: nat, v: Value)
    requires e.Seq? && Shows(g, inp, a, open, e, t, v) && Keeps(a, a', but) && but <= open && Narrows(a, open, open')
    ensures Shows(g, inp, a', open', e, t, v)
    decreases v, 1, e, 0
  {
    assert SameNode(a[t], a'[t]);
    var es := e.es;
    var n := Vals(es, |es|);
    forall l | 0 <= l < |es| && !Void(es[l])
      ensures Slots(es, l) < |a[t].children| && a[t].children[Slots(es, l)].Some? && Vals(es, l) < n
      ensures Shows(g, inp, a', open' + {t}, es[l], a[t].children[Slots(es, l)].value, if n == 1 then v
          else v.items[Vals(es, l)])
    {
      ChildShows(g, inp, a, open, e, t, v, l);
      ShowsStays(g, inp, a, a', open + {t}, open' + {t}, but, es[l], a[t].children[Slots(es, l)].value,
          PartOf(v, n, Vals(es, l)).value);
    }
  }

  lemma {:induction false} RuleStays(g: Grammar, inp: Input, a: seq<Node>, a': seq<Node>, open: set<nat>,
      open': set<nat>, but: set<nat>, t: nat, v: Value)
    requires RuleShows(g, inp, a, open, t, v) && Keeps(a, a', but) && but <= open && Narrows(a, open, open')
    ensures RuleShows(g, inp, a', open', t, v)
    decreases v, 0
  {
    assert SameNode(a[t], a'[t]);
    var p := a[t].producer.value;
    if g.rules[p].hasAction && !Void(g.rules[p].body) {
      ShowsStays(g, inp, a, a', open + {t}, open' + {t}, but, g.rules[p].body, a[t].children[0].value, v.arg);
    }
  }

  /** The node itself may be stamped: what it is made of lies below it. */
  lemma {:induction false} TopStays(g: Grammar, inp: Input, a: seq<Node>, a': seq<Node>, open: set<nat>, e: Expr,
      t: nat, v: Value)
    requires Builds(e) && Shows(g, inp, a, open, e, t, v) && Keeps(a, a', {t}) && t < |a|
        && a'[t] == a[t].(winner := a'[t].winner)
    ensures Shows(g, inp, a', open, e, t, v)
    decreases e
  {
    match e
    case Lexeme(child) => TopStays(g, inp, a, a', open, child, t, v);
    case Token(_, _) =>
    case Rep(child, _, _) =>
      if Optional(e) {
        if v.item.Some? { ShowsStays(g, inp, a, a', open + {t}, open + {t}, {t}, child, a[t].children[0].value,
            v.item.value); }
      } else {
        forall i | 0 <= i < |v.items| ensures Shows(g, inp, a', open + {t}, child, a[t].children[i].value, v.items[i]) {
          ShowsStays(g, inp, a, a', open + {t}, open + {t}, {t}, child, a[t].children[i].value, v.items[i]);
        }
      }
    case Seq(es) =>
      var n := Vals(es, |es|);
      forall l | 0 <= l < |es| && !Void(es[l])
        ensures Slots(es, l) < |a[t].children| && a[t].children[Slots(es, l)].Some? && Vals(es, l) < n
        ensures Shows(g, inp, a', open + {t}, es[l], a[t].children[Slots(es, l)].value, if n == 1 then v
            else v.items[Vals(es, l)])
      {
        ChildShows(g, inp, a, open, e, t, v, l);
        ShowsStays(g, inp, a, a', open + {t}, open + {t}, {t}, es[l], a[t].children[Slots(es, l)].value,
            PartOf(v, n, Vals(es, l)).value);
      }
  }

  // ---- the invariant ----------------------------------------------------------------------------

  ghost predicate Foldable(c: Setting) {
    WellFormed(c.g, c.mode) && NoCuts(c.g) && NoLeftRec(c.g) && NoLeft(c.g) && TypedGrammar(c.g)
  }

  lemma FoldableIf(c: Setting)
    requires WellFormed(c.g, c.mode) && NoCuts(c.g) && NoLeftRec(c.g) && TypedGrammar(c.g)
    ensures Foldable(c)
  {
    hide WellFormed, NoCuts, TypedGrammar, IsPartner;
    forall r | r in c.g.rules ensures !IsLeftRec(c.g, r) && !IsPartner(c.g, r) {
      if IsPartner(c.g, r) {
        OwnerIsGrown(c.g, c.mode, r);
        assert false;
      }
    }
  }

  /** The value of a rule at a position. */
  ghost function Worth(c: Setting, h: nat, k: Key): Value
    requires k.pos <= |c.inp|
  {
    EvalRule(c.g, c.inp, h, c.mode(k.rule), k.rule, k.pos)
  }

  /** A cached match has a tree with its span, which stands for the rule's value. */
  ghost predicate Cached(c: Setting, a: seq<Node>, open: set<nat>, k: Key, e: Entry)
    requires k.pos <= |c.inp|
  {
    forall h: nat | Matches(Means(c, h, k)) ::
      && e.tree.Some? && e.tree.value < |a| && a[e.tree.value].start == k.pos && a[e.tree.value].end == e.end
      && RuleShows(c.g, c.inp, a, open, e.tree.value, Worth(c, h, k))
  }

  ghost predicate Filed(c: Setting, s: State, open: set<nat>) {
    && Good(c.inp, s)
    && (forall n | n in open :: n < |s.arena|)
    && forall k | k in s.memo && k !in s.lr && s.memo[k].ok ::
         k.pos <= |c.inp| && Cached(c, s.arena, open, k, s.memo[k])
  }

  /** A matched expression's tree: it has the span, a node of its own is new and not yet in the memo, a rule's
      node stands for the rule's value, and if `e` has a typed result the tree stands for it. */
  ghost predicate Returned(c: Setting, e: Expr, pass: Value, v: Value, s: State, r: Result, open: set<nat>)
    requires r.out.Ok?
  {
    && (r.out.tree.Some? ==>
          var t := r.out.tree.value;
          && t < |r.st.arena| && t !in open && r.st.arena[t].start == s.pos && r.st.arena[t].end == r.st.pos
          && (if r.st.arena[t].producer.None? then t >= |s.arena| && Filed(c, r.st, open + {t})
              else RuleShows(c.g, c.inp, r.st.arena, open, t, pass)))
    && (r.out.tree.None? || r.st.arena[r.out.tree.value].producer.None? ==> pass == Default)
    && (Treeless(e) ==> r.out.tree.None?)
    && (Builds(e) || e.Matcher? ==> r.out.tree.Some? && r.st.arena[r.out.tree.value].producer.None?)
    && (e.Rule? ==> r.out.tree.Some? && r.st.arena[r.out.tree.value].producer.Some?)
    && (Typed(e) ==> r.out.tree.Some? && Shows(c.g, c.inp, r.st.arena, open, e, r.out.tree.value, v))
  }

  ghost predicate Told(c: Setting, e: Expr, pass: Value, v: Value, s: State, r: Result, open: set<nat>) {
    r.out.Normal() ==>
      && Filed(c, r.st, open) && Keeps(s.arena, r.st.arena, {})
      && (r.out.Ok? ==> TreeIn(r.st.arena, r.out.tree) && Returned(c, e, pass, v, s, r, open))
  }

  lemma KeepsTrans(a: seq<Node>, b: seq<Node>, d: seq<Node>, but: set<nat>)
    requires Keeps(a, b, but) && Keeps(b, d, but)
    ensures Keeps(a, d, but)
  {
  }

  lemma KeepsRefl(a: seq<Node>, but: set<nat>)
    ensures Keeps(a, a, but)
  {
  }

  lemma CachedStays(c: Setting, a: seq<Node>, a': seq<Node>, open: set<nat>, open': set<nat>, but: set<nat>, k: Key,
      e: Entry)
    requires k.pos <= |c.inp| && Cached(c, a, open, k, e) && Keeps(a, a', but) && but <= open && Narrows(a, open, open')
    ensures Cached(c, a', open', k, e)
  {
    hide Means, EvalRule, RuleShows;
    forall h: nat | Matches(Means(c, h, k))
      ensures e.tree.Some? && e.tree.value < |a'| && a'[e.tree.value].start == k.pos && a'[e.tree.value].end == e.end
      ensures RuleShows(c.g, c.inp, a', open', e.tree.value, Worth(c, h, k))
    {
      RuleAt(c.g, c.inp, a, open, e.tree.value, Worth(c, h, k));
      assert SameNode(a[e.tree.value], a'[e.tree.value]);
      RuleStays(c.g, c.inp, a, a', open, open', but, e.tree.value, Worth(c, h, k));
    }
  }

  lemma RuleAt(g: Grammar, inp: Input, a: seq<Node>, open: set<nat>, t: nat, v: Value)
    requires RuleShows(g, inp, a, open, t, v)
    ensures t < |a| && t !in open && a[t].producer.Some?
  {
  }

  /** Steps that add or change nodes outside the memo's reach, and change entries under evaluation only. */
  lemma FiledStays(c: Setting, s: State, s': State, open: set<nat>, open': set<nat>, but: set<nat>)
    requires Filed(c, s, open) && Good(c.inp, s') && Keeps(s.arena, s'.arena, but) && but <= open
        && Narrows(s.arena, open, open')
    requires forall n | n in open' :: n < |s'.arena|
    requires s'.lr == s.lr && forall k | k in s'.memo && k !in s.lr :: k in s.memo && s'.memo[k] == s.memo[k]
    ensures Filed(c, s', open')
  {
    hide Good, Cached, Keeps;
    forall k | k in s'.memo && k !in s'.lr && s'.memo[k].ok ensures k.pos <= |c.inp|
        && Cached(c, s'.arena, open', k, s'.memo[k]) {
      CachedStays(c, s.arena, s'.arena, open, open', but, k, s.memo[k]);
    }
  }

  /** The same from later on. */
  lemma ToldAfter(c: Setting, e: Expr, pass: Value, v: Value, s: State, s1: State, r: Result, open: set<nat>)
    requires Keeps(s.arena, s1.arena, {}) && s1.pos == s.pos && Told(c, e, pass, v, s1, r, open)
    ensures Told(c, e, pass, v, s, r, open)
  {
    hide Filed, Shows, RuleShows;
    if r.out.Normal() { KeepsTrans(s.arena, s1.arena, r.st.arena, {}); }
  }

  /** A result seen in a later state that kept its node. */
  lemma ReturnedStays(c: Setting, e: Expr, pass: Value, v: Value, s: State, r: Result, r': Result, open: set<nat>)
    requires r.out.Ok? && r'.out == r.out && TreeIn(r.st.arena, r.out.tree) && Returned(c, e, pass, v, s, r, open)
        && r'.st.pos == r.st.pos
    requires Keeps(r.st.arena, r'.st.arena, {})
    requires r.out.tree.Some? && r.st.arena[r.out.tree.value].producer.None? ==>
        Filed(c, r'.st, open + {r.out.tree.value})
    ensures TreeIn(r'.st.arena, r'.out.tree) && Returned(c, e, pass, v, s, r', open)
  {
    hide Filed, Shows, RuleShows, Treeless, Builds;
    if r.out.tree.Some? {
      var t := r.out.tree.value;
      assert SameNode(r.st.arena[t], r'.st.arena[t]);
      if r.st.arena[t].producer.Some? { RuleStays(c.g, c.inp, r.st.arena, r'.st.arena, open, open, {}, t, pass); }
      if Typed(e) { ShowsStays(c.g, c.inp, r.st.arena, r'.st.arena, open, open, {}, e, t, v); }
    }
  }

  // ---- expressions ------------------------------------------------------------------------------

  lemma {:induction false} TellExpr(c: Setting, fuel: nat, h: nat, skip: bool, e: Expr, cut: bool, s: State,
      open: set<nat>)
    requires Foldable(c) && Ready(c, h, s) && h <= fuel && Packrat.Fits(c, skip, e) && Filed(c, s, open)
    requires Peg.Peg(c.g, c.inp, h, skip, e, s.pos, cut).Some?
    ensures Told(c, e, PassOn(c.g, c.inp, h, skip, e, s.pos, cut), Eval(c.g, c.inp, h, skip, e, s.pos, cut), s,
        Parse(c.g, c.inp, fuel, skip, e, s), open)
    decreases fuel, 1, e
  {
    hide Foldable, Ready, Cached, Bounded, Told, Returned, SeqFrom, AltFrom, RepFrom, Call, PegSeq, PegAlt, PegRep,
        PegCall, EvalRule, EvalAlt, EvalRep, EvalSeq, PassAlt;
    match e
    case Seq(_) => TellSequence(c, fuel, h, skip, e, cut, s, open);
    case Alt(_) => TellAlternation(c, fuel, h, skip, e, cut, s, open);
    case Rep(_, _, _) => TellRepetition(c, fuel, h, skip, e, cut, s, open);
    case Not(child) =>
      TellExpr(c, fuel, h, skip, child, cut, s, open);
      TellLook(c, e, PassOn(c.g, c.inp, h, skip, child, s.pos, cut), Eval(c.g, c.inp, h, skip, child, s.pos, cut), s,
          Parse(c.g, c.inp, fuel, skip, child, s), true, open);
    case And(child) =>
      TellExpr(c, fuel, h, skip, child, cut, s, open);
      TellLook(c, e, PassOn(c.g, c.inp, h, skip, child, s.pos, cut), Eval(c.g, c.inp, h, skip, child, s.pos, cut), s,
          Parse(c.g, c.inp, fuel, skip, child, s), false, open);
    case Lexeme(child) =>
      TellExpr(c, fuel, h, false, child, cut, s, open);
      TellLexeme(c, e, PassOn(c.g, c.inp, h, false, child, s.pos, cut),
          Eval(c.g, c.inp, h, false, child, s.pos, cut), s, Parse(c.g, c.inp, fuel, false, child, s), open);
    case Rule(rule) => TellCall(c, fuel, h, skip, rule, s, open);
    case _ => TellLeaf(c, fuel, h, skip, e, cut, s, open);
  }

  lemma TellLeaf(c: Setting, fuel: nat, h: nat, skip: bool, e: Expr, cut: bool, s: State, open: set<nat>)
    requires Filed(c, s, open) && (e.Empty? || e.Terminal? || e.Token? || e.TerminalSeq? || e.Matcher? || e.Cut?)
    ensures Told(c, e, Default, Eval(c.g, c.inp, h, skip, e, s.pos, cut), s, Parse(c.g, c.inp, fuel, skip, e, s), open)
  {
    hide Cached, Good;
    var r := Parse(c.g, c.inp, fuel, skip, e, s);
    assert Good(c.inp, r.st);
    FiledStays(c, s, r.st, open, open, {});
    if r.out.Ok? && (e.Token? || e.Matcher?) {
      FiledStays(c, s, r.st, open, open + {|s.arena|}, {});
    }
  }

  lemma TellLook(c: Setting, e: Expr, pass: Value, v: Value, s: State, r: Result, negate: bool, open: set<nat>)
    requires (e.Not? || e.And?) && Filed(c, s, open) && Told(c, e.child, pass, v, s, r, open)
    ensures Told(c, e, Default, Unit, s, Predicate(r, negate, s.pos), open)
  {
    hide Cached;
  }

  lemma TellLexeme(c: Setting, e: Expr, pass: Value, v: Value, s: State, r: Result, open: set<nat>)
    requires e.Lexeme? && Told(c, e.child, pass, v, s, r, open)
    ensures Told(c, e, pass, v, s, r, open)
  {
    hide Filed, RuleShows;
  }

  /** What transparency says of one expression: the memo-free outcome, and a state that is ready for more. */
  lemma Next(c: Setting, fuel: nat, h: nat, skip: bool, e: Expr, cut: bool, s: State)
    requires Foldable(c) && Ready(c, h, s) && h <= fuel && Packrat.Fits(c, skip, e)
    requires Peg.Peg(c.g, c.inp, h, skip, e, s.pos, cut).Some?
    ensures var r := Parse(c.g, c.inp, fuel, skip, e, s);
            var a := Peg.Peg(c.g, c.inp, h, skip, e, s.pos, cut).value;
            && (r.out.Ok? <==> a.out.Yes?) && (r.out.Fail? <==> a.out.No?)
            && (r.out.Ok? ==> r.st.pos == a.out.end)
            && (r.out.Normal() ==> Ready(c, h, r.st) && r.st.scope == s.scope && r.st.lr == s.lr)
  {
    hide MemoSound, FramesKept, Bounded, WellFormed, NoLeftRec, NoLeft, TypedGrammar, Parse, Peg.Peg, Usable;
    CalmIsEnclosed(c.g, e);
    Packrat.SoundExpr(c, fuel, h, skip, e, cut, s);
  }

  lemma ReadyIdle(c: Setting, h: nat, s: State, s': State)
    requires Ready(c, h, s) && Good(c.inp, s') && s'.memo == s.memo && s'.lr == s.lr && s'.failures == s.failures
    ensures Ready(c, h, s')
  {
    hide WellFormed, EntrySound, Above, Bounded;
  }

  /** Steps on positions, scopes and new or protected nodes. */
  lemma FiledIdle(c: Setting, s: State, s': State, open: set<nat>, but: set<nat>)
    requires Filed(c, s, open) && Good(c.inp, s') && s'.memo == s.memo && s'.lr == s.lr
        && Keeps(s.arena, s'.arena, but) && but <= open
    ensures Filed(c, s', open)
  {
    hide Cached, Good;
    FiledStays(c, s, s', open, open, but);
  }

  lemma FiledMoved(c: Setting, s: State, p: nat, open: set<nat>)
    requires Filed(c, s, open) && p <= |c.inp|
    ensures Filed(c, s.(pos := p), open)
  {
    hide Cached;
  }

  lemma KeepsWeaken(a: seq<Node>, b: seq<Node>, n: nat)
    requires Keeps(a, b, {})
    ensures Keeps(a, b, {n})
  {
  }

  // ---- sequences --------------------------------------------------------------------------------

  /** The first j children of a typed sequence are on the node, and contributed `vs`. */
  ghost predicate UpTo(c: Setting, a: seq<Node>, open: set<nat>, es: seq<Expr>, children: seq<Option<nat>>,
      vs: seq<Value>, j: nat) {
    && j <= |es| && |children| == Slots(es, j) && |vs| == Vals(es, j)
    && forall l | 0 <= l < j && !Void(es[l]) ::
         && Slots(es, l) < |children| && children[Slots(es, l)].Some? && Vals(es, l) < |vs|
         && Shows(c.g, c.inp, a, open, es[l], children[Slots(es, l)].value, vs[Vals(es, l)])
  }

  ghost predicate SeqWork(c: Setting, a: seq<Node>, open: set<nat>, e: Expr, n: nat, lo: nat, vs: seq<Value>, j: nat)
    requires e.Seq?
  {
    && n < |a| && n in open && a[n].producer.None? && a[n].start == lo
    && (Typed(e) ==> UpTo(c, a, open, e.es, a[n].children, vs, j))
  }

  lemma UpToStays(c: Setting, a: seq<Node>, a': seq<Node>, open: set<nat>, but: set<nat>, es: seq<Expr>,
      children: seq<Option<nat>>, vs: seq<Value>, j: nat)
    requires UpTo(c, a, open, es, children, vs, j) && Keeps(a, a', but) && but <= open
    ensures UpTo(c, a', open, es, children, vs, j)
  {
    hide Shows, Keeps, Slots, Vals;
    forall l | 0 <= l < j && !Void(es[l]) ensures Shows(c.g, c.inp, a', open, es[l], children[Slots(es, l)].value,
        vs[Vals(es, l)]) {
      ShowsStays(c.g, c.inp, a, a', open, open, but, es[l], children[Slots(es, l)].value, vs[Vals(es, l)]);
    }
  }

  lemma SeqWorkStays(c: Setting, a: seq<Node>, a': seq<Node>, open: set<nat>, e: Expr, n: nat, lo: nat,
      vs: seq<Value>, j: nat)
    requires e.Seq? && SeqWork(c, a, open, e, n, lo, vs, j) && Keeps(a, a', {})
    ensures SeqWork(c, a', open, e, n, lo, vs, j)
  {
    hide UpTo;
    assert SameNode(a[n], a'[n]);
    if Typed(e) { UpToStays(c, a, a', open, {}, e.es, a[n].children, vs, j); }
  }

  /** One more child and its value. */
  lemma UpToMore(c: Setting, a: seq<Node>, open: set<nat>, es: seq<Expr>, children: seq<Option<nat>>, vs: seq<Value>,
      j: nat, tree: Option<nat>, v: Value)
    requires j < |es| && UpTo(c, a, open, es, children, vs, j)
    requires if Void(es[j]) then (Treeless(es[j]) && tree.None?) || (es[j].Matcher? && tree.Some?)
             else !Treeless(es[j]) && tree.Some? && Shows(c.g, c.inp, a, open, es[j], tree.value, v)
    ensures UpTo(c, a, open, es, if tree.Some? then children + [tree] else children, if Void(es[j]) then vs
        else vs + [v], j + 1)
  {
    hide Shows, Void, Treeless, Slots, Vals;
    Counted(es, j);
    MatcherHasTree(es[j]);
    if Void(es[j]) {
      UpToWider(c, a, open, es, children, if tree.Some? then children + [tree] else children, vs, j);
    } else {
      UpToValue(c, a, open, es, children, vs, j, tree, v);
    }
  }

  lemma Counted(es: seq<Expr>, j: nat)
    requires j < |es|
    ensures Slots(es, j + 1) == Slots(es, j) + (if Treeless(es[j]) then 0 else 1)
    ensures Vals(es, j + 1) == Vals(es, j) + (if Void(es[j]) then 0 else 1)
  {
  }

  /** A void child, with or without a node. */
  lemma UpToWider(c: Setting, a: seq<Node>, open: set<nat>, es: seq<Expr>, children: seq<Option<nat>>,
      children1: seq<Option<nat>>, vs: seq<Value>, j: nat)
    requires j < |es| && UpTo(c, a, open, es, children, vs, j) && Void(es[j]) && children <= children1
    requires |children1| == Slots(es, j + 1) && Vals(es, j + 1) == Vals(es, j)
    ensures UpTo(c, a, open, es, children1, vs, j + 1)
  {
    hide Shows, Void, Treeless, Slots, Vals;
  }

  lemma UpToValue(c: Setting, a: seq<Node>, open: set<nat>, es: seq<Expr>, children: seq<Option<nat>>,
      vs: seq<Value>, j: nat, tree: Option<nat>, v: Value)
    requires j < |es| && UpTo(c, a, open, es, children, vs, j) && !Void(es[j])
    requires Slots(es, j + 1) == Slots(es, j) + 1 && Vals(es, j + 1) == Vals(es, j) + 1
    requires tree.Some? && Shows(c.g, c.inp, a, open, es[j], tree.value, v)
    ensures UpTo(c, a, open, es, children + [tree], vs + [v], j + 1)
  {
    hide Shows, Void, Treeless, Slots, Vals;
    forall l | 0 <= l < j + 1 && !Void(es[l])
      ensures Slots(es, l) < |children + [tree]| && (children + [tree])[Slots(es, l)].Some? && Vals(es, l) < |vs + [v]|
      ensures Shows(c.g, c.inp, a, open, es[l], (children + [tree])[Slots(es, l)].value, (vs + [v])[Vals(es, l)])
    {
      if l < j { assert (children + [tree])[Slots(es, l)] == children[Slots(es, l)]
          && (vs + [v])[Vals(es, l)] == vs[Vals(es, l)]; }
    }
  }

  lemma MatcherHasTree(e: Expr)
    ensures e.Matcher? ==> !Treeless(e)
  {
  }

  lemma {:induction false} TellSequence(c: Setting, fuel: nat, h: nat, skip: bool, e: Expr, cut: bool, s: State,
      open: set<nat>)
    requires Foldable(c) && Ready(c, h, s) && h <= fuel && Packrat.Fits(c, skip, e) && Filed(c, s, open) && e.Seq?
    requires PegSeq(c.g, c.inp, h, skip, e, 0, s.pos, cut).Some?
    ensures Told(c, e, Default, Collapse(EvalSeq(c.g, c.inp, h, skip, e, 0, s.pos, cut)), s,
        Parse(c.g, c.inp, fuel, skip, e, s), open)
    decreases fuel, 1, e, |e.es| + 1
  {
    hide Foldable, WellFormed, Above, Sound, Cached, SeqFrom, PegSeq, EvalSeq, UpTo, Bounded;
    var s1, n := Alloc(s, s.pos, 0), |s.arena|;
    OpenGood(c.inp, s);
    FiledStays(c, s, s1, open, open + {n}, {});
    ReadyIdle(c, h, s, s1);
    if Typed(e) { NothingYet(c, s1.arena, open + {n}, e.es); }
    SeqRestFits(c, skip, e);
    TellSeq(c, fuel, h, skip, e, 0, cut, n, s1, open + {n}, s.pos, []);
    var r := SeqFrom(c.g, c.inp, fuel, skip, e, 0, n, s1);
    assert [] + EvalSeq(c.g, c.inp, h, skip, e, 0, s.pos, cut) == EvalSeq(c.g, c.inp, h, skip, e, 0, s.pos, cut);
    SeqSealed(c, e, EvalSeq(c.g, c.inp, h, skip, e, 0, s.pos, cut), s, r, n, open);
  }

  lemma NothingYet(c: Setting, a: seq<Node>, open: set<nat>, es: seq<Expr>)
    ensures UpTo(c, a, open, es, [], [], 0)
  {
  }

  lemma SeqRestFits(c: Setting, skip: bool, e: Expr)
    requires e.Seq? && Packrat.Fits(c, skip, e)
    ensures Packrat.RestFits(c, skip, e, 0)
  {
  }

  /** The finished sequence stands for its collapsed values. */
  lemma SeqSealed(c: Setting, e: Expr, vs: seq<Value>, s: State, r: Result, n: nat, open: set<nat>)
    requires e.Seq? && n == |s.arena| && s.pos <= |c.inp| && (forall m | m in open :: m < n)
    requires r.out.Normal() ==> Filed(c, r.st, open + {n}) && Keeps(s.arena + [BLANK.(start := s.pos)], r.st.arena, {n})
    requires r.out.Ok? ==>
               && r.out.tree == Some(n) && SeqWork(c, r.st.arena, open + {n}, e, n, s.pos, vs, |e.es|)
               && r.st.arena[n].end == r.st.pos
    ensures Told(c, e, Default, Collapse(vs), s, if r.out.Fail? then Result(Fail, r.st.(pos := s.pos)) else r, open)
  {
    hide Cached, Bounded;
    if r.out.Normal() {
      FiledStays(c, r.st, r.st, open + {n}, open, {});
      if r.out.Fail? { FiledMoved(c, r.st, s.pos, open); }
      KeepsOld(s.arena, BLANK.(start := s.pos), r.st.arena, n);
      if r.out.Ok? && Typed(e) { SeqShown(c, r.st.arena, open, e, n, vs); }
    }
  }

  lemma KeepsOld(a: seq<Node>, x: Node, a': seq<Node>, n: nat)
    requires n == |a| && Keeps(a + [x], a', {n})
    ensures Keeps(a, a', {})
  {
    forall m | 0 <= m < |a| ensures SameNode(a[m], a'[m]) { assert (a + [x])[m] == a[m]; }
  }

  lemma SeqShown(c: Setting, a: seq<Node>, open: set<nat>, e: Expr, n: nat, vs: seq<Value>)
    requires e.Seq? && Typed(e) && n < |a| && n !in open && a[n].producer.None?
        && UpTo(c, a, open + {n}, e.es, a[n].children, vs, |e.es|)
    ensures Shows(c.g, c.inp, a, open, e, n, Collapse(vs))
  {
    var es := e.es;
    assert |vs| > 0 by {
      var j :| 0 <= j < |es| && !Void(es[j]);
      assert Vals(es, j) < |vs|;
    }
    SeqIsShown(c, a, open, e, n, vs, Collapse(vs));
  }

  lemma SeqIsShown(c: Setting, a: seq<Node>, open: set<nat>, e: Expr, n: nat, vs: seq<Value>, v: Value)
    requires e.Seq? && n < |a| && n !in open && a[n].producer.None?
        && UpTo(c, a, open + {n}, e.es, a[n].children, vs, |e.es|)
    requires |vs| > 0 && if |vs| == 1 then v == vs[0] else v.Tuple? && v.items == vs
    ensures Shows(c.g, c.inp, a, open, e, n, v)
  {
    hide Void, Slots, Vals, Typed;
  }

  lemma {:induction false} TellSeq(c: Setting, fuel: nat, h: nat, skip: bool, e: Expr, j: nat, cut: bool, n: nat,
      s: State, open: set<nat>, lo: nat, vs: seq<Value>)
    requires Foldable(c) && Ready(c, h, s) && h <= fuel && e.Seq? && j <= |e.es| && Packrat.RestFits(c, skip, e, j)
        && Filed(c, s, open)
    requires n < |s.arena| && SeqWork(c, s.arena, open, e, n, lo, vs, j)
    requires PegSeq(c.g, c.inp, h, skip, e, j, s.pos, cut).Some?
    ensures SeqTold(c, e, n, lo, vs + EvalSeq(c.g, c.inp, h, skip, e, j, s.pos, cut), s,
        SeqFrom(c.g, c.inp, fuel, skip, e, j, n, s), open)
    decreases fuel, 1, e, |e.es| - j
  {
    hide Foldable, Ready, Cached, SeqWork, SeqNext, PegSeqNext, EvalSeqNext, Skip, PegSkip, Bounded, Keeps,
        Packrat.RestFits;
    if j == |e.es| {
      SeqEnded(c, e, n, lo, vs, s, open);
      assert vs + [] == vs;
    } else {
      TellGap(c, fuel, h, skip, j, cut, s, open);
      var k := if j > 0 then Skip(c.g, c.inp, fuel, skip, s) else Result(Ok(None), s);
      if k.out.Ok? {
        SeqWorkStays(c, s.arena, k.st.arena, open, e, n, lo, vs, j);
        TellSeqNext(c, fuel, h, skip, e, j, cut, n, k.st, open, lo, vs);
        KeepsWeaken(s.arena, k.st.arena, n);
        SeqToldAfter(c, e, n, lo, vs + EvalSeqNext(c.g, c.inp, h, skip, e, j, k.st.pos, cut), s, k.st,
            SeqNext(c.g, c.inp, fuel, skip, e, j, n, k.st), open);
      }
    }
  }

  ghost predicate SeqTold(c: Setting, e: Expr, n: nat, lo: nat, vs: seq<Value>, s: State, r: Result, open: set<nat>)
    requires e.Seq?
  {
    r.out.Normal() ==>
      && Filed(c, r.st, open) && Keeps(s.arena, r.st.arena, {n})
      && (r.out.Ok? ==> SeqWork(c, r.st.arena, open, e, n, lo, vs, |e.es|) && r.st.arena[n].end == r.st.pos)
  }

  lemma SeqToldAfter(c: Setting, e: Expr, n: nat, lo: nat, vs: seq<Value>, s: State, s1: State, r: Result,
      open: set<nat>)
    requires e.Seq? && Keeps(s.arena, s1.arena, {n}) && SeqTold(c, e, n, lo, vs, s1, r, open)
    ensures SeqTold(c, e, n, lo, vs, s, r, open)
  {
    hide Filed, SeqWork;
    if r.out.Normal() { KeepsTrans(s.arena, s1.arena, r.st.arena, {n}); }
  }

  lemma SeqEnded(c: Setting, e: Expr, n: nat, lo: nat, vs: seq<Value>, s: State, open: set<nat>)
    requires e.Seq? && Filed(c, s, open) && n < |s.arena| && SeqWork(c, s.arena, open, e, n, lo, vs, |e.es|)
    ensures SeqTold(c, e, n, lo, vs, s, Result(Ok(Some(n)), SetEnd(s, n)), open)
  {
    hide Cached, UpTo, Bounded;
    var s1 := SetEnd(s, n);
    EndGood(c, s, n);
    FiledIdle(c, s, s1, open, {n});
    if Typed(e) { UpToStays(c, s.arena, s1.arena, open, {n}, e.es, s.arena[n].children, vs, |e.es|); }
  }

  lemma EndGood(c: Setting, s: State, n: nat)
    requires Good(c.inp, s) && n < |s.arena|
    ensures Good(c.inp, SetEnd(s, n)) && Keeps(s.arena, SetEnd(s, n).arena, {n})
  {
  }

  /** Auto-skip before a child. */
  lemma {:induction false} TellGap(c: Setting, fuel: nat, h: nat, skip: bool, j: nat, cut: bool, s: State,
      open: set<nat>)
    requires Foldable(c) && Ready(c, h, s) && h <= fuel && Filed(c, s, open)
        && (j > 0 ==> PegSkip(c.g, c.inp, h, skip, s.pos).Some?)
    ensures var k := if j > 0 then Skip(c.g, c.inp, fuel, skip, s) else Result(Ok(None), s);
            var w := if j > 0 then PegSkip(c.g, c.inp, h, skip, s.pos) else Some(Answer(Yes(s.pos), cut, {}));
            && (k.out.Ok? <==> Matches(w)) && !k.out.Fail?
            && (k.out.Ok? ==>
                  && k.st.pos == w.value.out.end && Ready(c, h, k.st) && k.st.scope == s.scope && k.st.lr == s.lr
                  && Filed(c, k.st, open) && Keeps(s.arena, k.st.arena, {}) && k.out.tree.None?
                  && |s.arena| <= |k.st.arena|)
    decreases fuel, 0, 2
  {
    hide MemoSound, FramesKept, Above, Bounded, WellFormed, Cached, Keeps, Call, PegCall, EvalRule, PassOn, Eval,
        NoCuts, NoLeftRec, NoLeft, TypedGrammar, RuleShows;
    Packrat.SoundSeqSkip(c, fuel, h, skip, j, cut, s);
    KeepsRefl(s.arena, {});
    if j > 0 && skip && c.g.skipper.Some? {
      SkipperFits(c);
      TellCall(c, fuel, h, false, c.g.skipper.value, s, open);
    }
  }

  lemma SkipperFits(c: Setting)
    requires Foldable(c) && c.g.skipper.Some?
    ensures !c.mode(c.g.skipper.value) && !IsPartner(c.g, c.g.skipper.value)
  {
  }

  lemma {:induction false} TellSeqNext(c: Setting, fuel: nat, h: nat, skip: bool, e: Expr, j: nat, cut: bool, n: nat,
      s: State, open: set<nat>, lo: nat, vs: seq<Value>)
    requires Foldable(c) && Ready(c, h, s) && h <= fuel && e.Seq? && j < |e.es| && Packrat.RestFits(c, skip, e, j)
        && Filed(c, s, open)
    requires n < |s.arena| && SeqWork(c, s.arena, open, e, n, lo, vs, j)
    requires PegSeqNext(c.g, c.inp, h, skip, e, j, s.pos, cut).Some?
    ensures SeqTold(c, e, n, lo, vs + EvalSeqNext(c.g, c.inp, h, skip, e, j, s.pos, cut), s,
        SeqNext(c.g, c.inp, fuel, skip, e, j, n, s), open)
    decreases fuel, 1, e, |e.es| - j, 0
  {
    hide Foldable, Ready, Cached, SeqWork, SeqFrom, PegSeq, EvalSeq, Parse, Peg.Peg, Eval, PassOn, Bounded, Keeps,
        Packrat.RestFits, Packrat.Fits, Told, Void;
    Packrat.RestNext(c, skip, e, j);
    var x := e.es[j];
    Next(c, fuel, h, skip, x, cut, s);
    TellExpr(c, fuel, h, skip, x, cut, s, open);
    var r := Parse(c.g, c.inp, fuel, skip, x, s);
    var a := Peg.Peg(c.g, c.inp, h, skip, x, s.pos, cut).value;
    var pass, v := PassOn(c.g, c.inp, h, skip, x, s.pos, cut), Eval(c.g, c.inp, h, skip, x, s.pos, cut);
    if r.out.Ok? {
      var s1 := PushChild(r.st, n, r.out.tree);
      SeqPushed(c, h, e, j, n, lo, vs, pass, v, s, r, open);
      var vs1 := if Void(x) then vs else vs + [v];
      TellSeq(c, fuel, h, skip, e, j + 1, a.cut, n, s1, open, lo, vs1);
      var rest := EvalSeq(c.g, c.inp, h, skip, e, j + 1, s1.pos, a.cut);
      assert vs + ((if Void(x) then [] else [v]) + rest) == vs1 + rest;
      SeqToldAfter(c, e, n, lo, vs1 + rest, s, s1, SeqFrom(c.g, c.inp, fuel, skip, e, j + 1, n, s1), open);
    } else if r.out.Fail? {
      FailedSeq(c, e, n, lo, vs + EvalSeqNext(c.g, c.inp, h, skip, e, j, s.pos, cut), pass, v, x, s, r, open);
    }
  }

  lemma FailedSeq(c: Setting, e: Expr, n: nat, lo: nat, vs: seq<Value>, pass: Value, v: Value, x: Expr, s: State,
      r: Result, open: set<nat>)
    requires e.Seq? && r.out.Fail? && Told(c, x, pass, v, s, r, open)
    ensures SeqTold(c, e, n, lo, vs, s, r, open)
  {
    hide Filed;
  }

  lemma SeqPushed(c: Setting, h: nat, e: Expr, j: nat, n: nat, lo: nat, vs: seq<Value>, pass: Value, v: Value,
      s: State, r: Result, open: set<nat>)
    requires Ready(c, h, r.st) && e.Seq? && j < |e.es| && n < |s.arena| && SeqWork(c, s.arena, open, e, n, lo, vs, j)
    requires r.out.Ok? && Told(c, e.es[j], pass, v, s, r, open)
    ensures n < |r.st.arena|
    ensures var s1 := PushChild(r.st, n, r.out.tree);
            && Ready(c, h, s1) && Filed(c, s1, open) && Keeps(s.arena, s1.arena, {n})
            && SeqWork(c, s1.arena, open, e, n, lo, if Void(e.es[j]) then vs else vs + [v], j + 1)
  {
    hide Sound, WellFormed, Above, Cached, UpTo, Bounded, Shows, RuleShows;
    var s1 := PushChild(r.st, n, r.out.tree);
    PushKept(c, r.st, n, r.out.tree);
    ReadyIdle(c, h, r.st, s1);
    FiledIdle(c, r.st, s1, open, {n});
    SeqWorkStays(c, s.arena, r.st.arena, open, e, n, lo, vs, j);
    KeepsThen(s.arena, r.st.arena, s1.arena, n);
    if Typed(e) {
      if !Void(e.es[j]) { TypedBuilds(e.es[j]); }
      UpToMore(c, r.st.arena, open, e.es, r.st.arena[n].children, vs, j, r.out.tree, v);
      UpToStays(c, r.st.arena, s1.arena, open, {n}, e.es, s1.arena[n].children, if Void(e.es[j]) then vs
          else vs + [v], j + 1);
    }
  }

  lemma KeepsThen(a: seq<Node>, b: seq<Node>, d: seq<Node>, n: nat)
    requires Keeps(a, b, {}) && Keeps(b, d, {n})
    ensures Keeps(a, d, {n})
  {
  }

  lemma PushKept(c: Setting, s: State, n: nat, child: Option<nat>)
    requires Good(c.inp, s) && n < |s.arena|
    ensures Good(c.inp, PushChild(s, n, child)) && Keeps(s.arena, PushChild(s, n, child).arena, {n})
  {
  }

  // ---- choices ----------------------------------------------------------------------------------

  lemma {:induction false} TellAlternation(c: Setting, fuel: nat, h: nat, skip: bool, e: Expr, cut: bool, s: State,
      open: set<nat>)
    requires Foldable(c) && Ready(c, h, s) && h <= fuel && Packrat.Fits(c, skip, e) && Filed(c, s, open) && e.Alt?
    requires PegAlt(c.g, c.inp, h, skip, e, 0, s.pos).Some?
    ensures Told(c, e, PassAlt(c.g, c.inp, h, skip, e, 0, s.pos), EvalAlt(c.g, c.inp, h, skip, e, 0, s.pos), s,
        Parse(c.g, c.inp, fuel, skip, e, s), open)
    decreases fuel, 1, e, |e.es| + 1
  {
    hide Foldable, WellFormed, Above, Sound, Cached, AltFrom, PegAlt, EvalAlt, PassAlt, Told, Bounded, Packrat.Fits;
    OpenGood(c.inp, s);
    var s1 := OpenScope(s);
    ReadyIdle(c, h, s, s1);
    KeepsRefl(s.arena, {});
    FiledIdle(c, s, s1, open, {});
    TellAlt(c, fuel, h, skip, e, 0, s1, open);
    var r := AltFrom(c.g, c.inp, fuel, skip, e, 0, s1);
    var pass, v := PassAlt(c.g, c.inp, h, skip, e, 0, s.pos), EvalAlt(c.g, c.inp, h, skip, e, 0, s.pos);
    ToldAfter(c, e, pass, v, s, s1, r, open);
    ToldClosed(c, e, pass, v, s, r, open);
  }

  /** No cut was set, so the scope just closes. */
  lemma ToldClosed(c: Setting, e: Expr, pass: Value, v: Value, s: State, r: Result, open: set<nat>)
    requires Told(c, e, pass, v, s, r, open)
    ensures Told(c, e, pass, v, s, Result(r.out, CloseScope(r.st, s.scope)), open)
  {
    hide Filed, Returned, CloseScope;
    if r.out.Normal() {
      var r' := Result(r.out, CloseScope(r.st, s.scope));
      CloseFiled(c, r.st, s.scope, open);
      KeepsRefl(r.st.arena, {});
      if r.out.Ok? {
        FreshFiled(c, e, pass, v, s, r, open);
        if r.out.tree.Some? && r.st.arena[r.out.tree.value].producer.None? { CloseFiled(c, r.st, s.scope,
            open + {r.out.tree.value}); }
        ReturnedStays(c, e, pass, v, s, r, r', open);
      }
    }
  }

  lemma FreshFiled(c: Setting, e: Expr, pass: Value, v: Value, s: State, r: Result, open: set<nat>)
    requires r.out.Ok? && TreeIn(r.st.arena, r.out.tree) && Returned(c, e, pass, v, s, r, open)
    ensures r.out.tree.Some? && r.st.arena[r.out.tree.value].producer.None? ==>
        Filed(c, r.st, open + {r.out.tree.value})
  {
    hide Filed, Shows, RuleShows;
  }

  lemma CloseFiled(c: Setting, s: State, outer: Option<CutRecord>, open: set<nat>)
    requires Filed(c, s, open)
    ensures Filed(c, CloseScope(s, outer), open) && CloseScope(s, outer).arena == s.arena
        && CloseScope(s, outer).pos == s.pos
  {
    hide Cached;
  }

  lemma {:induction false} TellAlt(c: Setting, fuel: nat, h: nat, skip: bool, e: Expr, j: nat, s: State, open: set<nat>)
    requires Foldable(c) && Ready(c, h, s) && h <= fuel && Packrat.Fits(c, skip, e) && Filed(c, s, open) && e.Alt?
        && j <= |e.es| && !CutSet(s)
    requires PegAlt(c.g, c.inp, h, skip, e, j, s.pos).Some?
    ensures Told(c, e, PassAlt(c.g, c.inp, h, skip, e, j, s.pos), EvalAlt(c.g, c.inp, h, skip, e, j, s.pos), s,
        AltFrom(c.g, c.inp, fuel, skip, e, j, s), open)
    decreases fuel, 1, e, |e.es| - j
  {
    hide Foldable, Ready, Cached, Parse, Peg.Peg, Eval, PassOn, Bounded, Told, Packrat.Fits;
    if j == |e.es| {
      ToldFailed(c, e, Default, Unit, s, open);
    } else {
      var x := e.es[j];
      BranchFits(c, skip, e, j);
      Next(c, fuel, h, skip, x, false, s);
      TellExpr(c, fuel, h, skip, x, false, s, open);
      var r := Parse(c.g, c.inp, fuel, skip, x, s);
      var pass, v := PassOn(c.g, c.inp, h, skip, x, s.pos, false), Eval(c.g, c.inp, h, skip, x, s.pos, false);
      if r.out.Ok? {
        ToldStamped(c, e, j, pass, v, s, r, open);
      } else if r.out.Fail? {
        ToldFail(c, x, pass, v, s, r, open);
        NoFlag(c, h, skip, x, s.pos);
        TellAlt(c, fuel, h, skip, e, j + 1, r.st, open);
        ToldAfter(c, e, PassAlt(c.g, c.inp, h, skip, e, j + 1, s.pos), EvalAlt(c.g, c.inp, h, skip, e, j + 1, s.pos),
            s, r.st,
                  AltFrom(c.g, c.inp, fuel, skip, e, j + 1, r.st), open);
      } else {
        ToldOther(c, e, PassAlt(c.g, c.inp, h, skip, e, j, s.pos), EvalAlt(c.g, c.inp, h, skip, e, j, s.pos), s, r,
            open);
      }
    }
  }

  /** A failure sets no cut. */
  lemma NoFlag(c: Setting, h: nat, skip: bool, e: Expr, i: nat)
    requires Packrat.Fits(c, skip, e) && Foldable(c) && i <= |c.inp|
    ensures var a := Peg.Peg(c.g, c.inp, h, skip, e, i, false);
            a.Some? && a.value.out.No? ==> !a.value.cut
  {
    hide NoCuts;
    CalmIsCutFree(c.g, e);
    LeftRecursion.FlagKept(c.g, c.inp, h, skip, e, i, false);
  }

  lemma BranchFits(c: Setting, skip: bool, e: Expr, j: nat)
    requires e.Alt? && j < |e.es| && Packrat.Fits(c, skip, e)
    ensures Packrat.Fits(c, skip, e.es[j])
  {
  }

  lemma ToldFailed(c: Setting, e: Expr, pass: Value, v: Value, s: State, open: set<nat>)
    requires Filed(c, s, open)
    ensures Told(c, e, pass, v, s, Result(Fail, s), open)
  {
    hide Filed;
  }

  lemma ToldFail(c: Setting, e: Expr, pass: Value, v: Value, s: State, r: Result, open: set<nat>)
    requires r.out.Fail? && Told(c, e, pass, v, s, r, open)
    ensures Filed(c, r.st, open) && Keeps(s.arena, r.st.arena, {})
  {
    hide Filed, Keeps;
  }

  lemma ToldOther(c: Setting, e: Expr, pass: Value, v: Value, s: State, r: Result, open: set<nat>)
    requires !r.out.Normal()
    ensures Told(c, e, pass, v, s, r, open)
  {
  }

  /** Stamping the winner: harmless on a rule's node, and what the fold needs on a node of the branch's own. */
  lemma ToldStamped(c: Setting, e: Expr, j: nat, pass: Value, v: Value, s: State, r: Result, open: set<nat>)
    requires e.Alt? && j < |e.es| && r.out.Ok? && Good(c.inp, r.st) && Told(c, e.es[j], pass, v, s, r, open)
    ensures Told(c, e, pass, v, s, Result(r.out, Stamp(r.st, r.out.tree, j)), open)
  {
    hide Cached, Bounded, Shows, RuleShows, Treeless, Builds, Typed;
    var s1 := Stamp(r.st, r.out.tree, j);
    StampGood(c, r.st, r.out.tree, j);
    BranchShape(e, j);
    if r.out.tree.Some? {
      var t := r.out.tree.value;
      if r.st.arena[t].producer.Some? {
        FiledIdle(c, r.st, s1, open, {});
        RuleStays(c.g, c.inp, r.st.arena, s1.arena, open, open, {}, t, pass);
        if Typed(e) { StampedRule(c, e, j, v, r.st.arena, s1.arena, t, open); }
      } else {
        FiledStays(c, r.st, s1, open + {t}, open + {t}, {t});
        FiledStays(c, r.st, s1, open + {t}, open, {t});
        KeepsFresh(s.arena, r.st.arena, s1.arena, t);
        if Typed(e) { StampedOwn(c, e, j, v, r.st.arena, s1.arena, t, open); }
      }
    }
  }

  lemma KeepsFresh(a: seq<Node>, b: seq<Node>, d: seq<Node>, t: nat)
    requires Keeps(a, b, {}) && Keeps(b, d, {t}) && t >= |a|
    ensures Keeps(a, d, {})
  {
  }

  lemma StampGood(c: Setting, s: State, tree: Option<nat>, j: nat)
    requires Good(c.inp, s) && TreeIn(s.arena, tree)
    ensures Good(c.inp, Stamp(s, tree, j))
    ensures Keeps(s.arena, Stamp(s, tree, j).arena, if tree.Some? && s.arena[tree.value].producer.None? then
        {tree.value} else {})
  {
  }

  /** What the shape of a choice says of its branches. */
  lemma BranchShape(e: Expr, j: nat)
    requires e.Alt? && j < |e.es|
    ensures Treeless(e) ==> Treeless(e.es[j])
    ensures !Builds(e) && !e.Matcher? && !e.Rule?
    ensures Typed(e) ==> Typed(e.es[j]) && if AllRules(e.es) then e.es[j].Rule? else Builds(e.es[j])
  {
  }

  lemma StampedRule(c: Setting, e: Expr, j: nat, v: Value, a: seq<Node>, a': seq<Node>, t: nat, open: set<nat>)
    requires e.Alt? && j < |e.es| && t < |a| && a[t].producer.Some? && Keeps(a, a', {}) && Typed(e)
        && (Builds(e.es[j]) ==> a[t].producer.None?)
    requires Shows(c.g, c.inp, a, open, e.es[j], t, v)
    ensures Shows(c.g, c.inp, a', open, e, t, v)
  {
    hide RuleShows, Keeps;
    BranchShape(e, j);
    assert AllRules(e.es) && e.es[j].Rule?;
    RuleStays(c.g, c.inp, a, a', open, open, {}, t, v);
  }

  lemma StampedOwn(c: Setting, e: Expr, j: nat, v: Value, a: seq<Node>, a': seq<Node>, t: nat, open: set<nat>)
    requires e.Alt? && j < |e.es| && t < |a| && t !in open && a[t].producer.None? && Keeps(a, a', {t})
        && a'[t] == a[t].(winner := Some(j)) && Typed(e)
    requires Shows(c.g, c.inp, a, open, e.es[j], t, v) && (e.es[j].Rule? ==> a[t].producer.Some?)
    ensures Shows(c.g, c.inp, a', open, e, t, v)
  {
    BranchShape(e, j);
    assert !AllRules(e.es) && Builds(e.es[j]);
    TopStays(c.g, c.inp, a, a', open, e.es[j], t, v);
  }

  // ---- repetitions ------------------------------------------------------------------------------

  ghost predicate Iterations(c: Setting, a: seq<Node>, open: set<nat>, e: Expr, children: seq<Option<nat>>,
      vs: seq<Value>) {
    && |children| == |vs|
    && forall i | 0 <= i < |vs| ::
         children[i].Some? && Shows(c.g, c.inp, a, open, e, children[i].value, vs[i])
  }

  /** The iterations so far are on the node, and had the values `vs`. */
  ghost predicate RepWork(c: Setting, a: seq<Node>, open: set<nat>, e: Expr, n: nat, lo: nat, vs: seq<Value>)
    requires e.Rep?
  {
    && n < |a| && n in open && a[n].producer.None? && a[n].start == lo
    && (Typed(e) ==> Iterations(c, a, open, e.child, a[n].children, vs))
  }

  ghost predicate RepTold(c: Setting, e: Expr, n: nat, lo: nat, vs: seq<Value>, s: State, r: Result, open: set<nat>)
    requires e.Rep?
  {
    r.out.Normal() ==>
      && Filed(c, r.st, open) && Keeps(s.arena, r.st.arena, {n})
      && (r.out.Ok? ==> RepWork(c, r.st.arena, open, e, n, lo, vs) && r.st.arena[n].end == r.st.pos)
  }

  lemma IterationsStay(c: Setting, a: seq<Node>, a': seq<Node>, open: set<nat>, but: set<nat>, e: Expr,
      children: seq<Option<nat>>, vs: seq<Value>)
    requires Iterations(c, a, open, e, children, vs) && Keeps(a, a', but) && but <= open
    ensures Iterations(c, a', open, e, children, vs)
  {
    hide Shows, Keeps;
    forall i | 0 <= i < |vs| ensures Shows(c.g, c.inp, a', open, e, children[i].value, vs[i]) {
      ShowsStays(c.g, c.inp, a, a', open, open, but, e, children[i].value, vs[i]);
    }
  }

  lemma RepWorkStays(c: Setting, a: seq<Node>, a': seq<Node>, open: set<nat>, e: Expr, n: nat, lo: nat, vs: seq<Value>)
    requires e.Rep? && RepWork(c, a, open, e, n, lo, vs) && Keeps(a, a', {})
    ensures RepWork(c, a', open, e, n, lo, vs)
  {
    hide Iterations;
    assert SameNode(a[n], a'[n]);
    if Typed(e) { IterationsStay(c, a, a', open, {}, e.child, a[n].children, vs); }
  }

  lemma RepToldAfter(c: Setting, e: Expr, n: nat, lo: nat, vs: seq<Value>, s: State, s1: State, r: Result,
      open: set<nat>)
    requires e.Rep? && Keeps(s.arena, s1.arena, {n}) && RepTold(c, e, n, lo, vs, s1, r, open)
    ensures RepTold(c, e, n, lo, vs, s, r, open)
  {
    hide Filed, RepWork;
    if r.out.Normal() { KeepsTrans(s.arena, s1.arena, r.st.arena, {n}); }
  }

  /** The value of a repetition from those of its iterations. */
  ghost function Gathered(e: Expr, vs: seq<Value>): Value {
    if Optional(e) then Opt(if vs == [] then None else Some(vs[0])) else List(vs)
  }

  lemma {:induction false} TellRepetition(c: Setting, fuel: nat, h: nat, skip: bool, e: Expr, cut: bool, s: State,
      open: set<nat>)
    requires Foldable(c) && Ready(c, h, s) && h <= fuel && Packrat.Fits(c, skip, e) && Filed(c, s, open) && e.Rep?
    requires PegRep(c.g, c.inp, h, skip, e, 0, s.pos).Some?
    ensures Told(c, e, Default, Gathered(e, EvalRep(c.g, c.inp, h, skip, e, 0, s.pos)), s,
        Parse(c.g, c.inp, fuel, skip, e, s), open)
    decreases fuel, 1, e, |c.inp| + 2
  {
    hide Foldable, WellFormed, Above, Sound, Cached, RepFrom, PegRep, EvalRep, Iterations, Bounded, Packrat.Fits, Told;
    var s1, n := Alloc(OpenScope(s), s.pos, 0), |s.arena|;
    OpenGood(c.inp, s);
    FiledStays(c, s, s1, open, open + {n}, {});
    ReadyIdle(c, h, s, s1);
    if Typed(e) { NoIterations(c, s1.arena, open + {n}, e.child); }
    TellRep(c, fuel, h, skip, e, 0, s.pos, n, s1, open + {n}, []);
    var r := RepFrom(c.g, c.inp, fuel, skip, e, 0, s.pos, n, s1);
    var vs := EvalRep(c.g, c.inp, h, skip, e, 0, s.pos);
    assert [] + vs == vs;
    if Optional(e) { AtMostOne(c, h, skip, e, s.pos); }
    RepSealed(c, e, vs, s, r, n, open);
    ToldClosed(c, e, Default, Gathered(e, vs), s, r, open);
  }

  lemma NoIterations(c: Setting, a: seq<Node>, open: set<nat>, e: Expr)
    ensures Iterations(c, a, open, e, [], [])
  {
  }

  lemma AtMostOne(c: Setting, h: nat, skip: bool, e: Expr, i: nat)
    requires Optional(e) && i <= |c.inp|
    ensures |EvalRep(c.g, c.inp, h, skip, e, 0, i)| <= 1
  {
  }

  lemma RepSealed(c: Setting, e: Expr, vs: seq<Value>, s: State, r: Result, n: nat, open: set<nat>)
    requires e.Rep? && n == |s.arena| && s.pos <= |c.inp| && (forall m | m in open :: m < n)
        && (Optional(e) ==> |vs| <= 1)
    requires RepTold(c, e, n, s.pos, vs, Alloc(OpenScope(s), s.pos, 0), r, open + {n})
        && (r.out.Ok? ==> r.out.tree == Some(n))
    ensures Told(c, e, Default, Gathered(e, vs), s, r, open)
  {
    hide Cached, Bounded, Shows, Void;
    if r.out.Normal() {
      FiledStays(c, r.st, r.st, open + {n}, open, {});
      KeepsOld(s.arena, BLANK.(start := s.pos), r.st.arena, n);
      if r.out.Ok? && Typed(e) { RepShown(c, r.st.arena, open, e, n, vs); }
    }
  }

  lemma RepShown(c: Setting, a: seq<Node>, open: set<nat>, e: Expr, n: nat, vs: seq<Value>)
    requires e.Rep? && n < |a| && n !in open && a[n].producer.None?
        && Iterations(c, a, open + {n}, e.child, a[n].children, vs) && (Optional(e) ==> |vs| <= 1)
    ensures Shows(c.g, c.inp, a, open, e, n, Gathered(e, vs))
  {
  }

  lemma {:induction false} TellRep(c: Setting, fuel: nat, h: nat, skip: bool, e: Expr, count: nat, start: nat,
      n: nat, s: State, open: set<nat>, vs: seq<Value>)
    requires Foldable(c) && Ready(c, h, s) && h <= fuel && Packrat.Fits(c, skip, e) && e.Rep? && start <= s.pos
        && Filed(c, s, open)
    requires n < |s.arena| && RepWork(c, s.arena, open, e, n, start, vs) && (Typed(e) ==> |vs| == count)
    requires PegRep(c.g, c.inp, h, skip, e, count, s.pos).Some?
    ensures RepTold(c, e, n, start, vs + EvalRep(c.g, c.inp, h, skip, e, count, s.pos), s,
        RepFrom(c.g, c.inp, fuel, skip, e, count, start, n, s), open)
    decreases fuel, 1, e, |c.inp| - s.pos, 1
  {
    hide Foldable, WellFormed, Above, Sound, Cached, RepWork, RepTry, PegRepTry, EvalRepTry, Skip, PegSkip, Bounded,
        Keeps, Packrat.Fits, Typed, RepTold;
    TellGap(c, fuel, h, skip, count, false, s, open);
    var k := if count > 0 then Skip(c.g, c.inp, fuel, skip, s) else Result(Ok(None), s);
    if k.out.Ok? {
      var s1 := SetCut(k.st, false);
      OpenGood(c.inp, k.st);
      ReadyIdle(c, h, k.st, s1);
      KeepsRefl(k.st.arena, {});
      FiledIdle(c, k.st, s1, open, {});
      RepWorkStays(c, s.arena, k.st.arena, open, e, n, start, vs);
      TellRepTry(c, fuel, h, skip, e, count, start, n, s.pos, s1, open, vs);
      KeepsWeaken(s.arena, k.st.arena, n);
      RepToldAfter(c, e, n, start, vs + EvalRepTry(c.g, c.inp, h, skip, e, count, s1.pos), s, s1,
          RepTry(c.g, c.inp, fuel, skip, e, count, start, n, s.pos, s1), open);
    } else {
      RepOther(c, e, n, start, vs + EvalRep(c.g, c.inp, h, skip, e, count, s.pos), s, k, open);
    }
  }

  lemma RepOther(c: Setting, e: Expr, n: nat, lo: nat, vs: seq<Value>, s: State, r: Result, open: set<nat>)
    requires e.Rep? && !r.out.Normal()
    ensures RepTold(c, e, n, lo, vs, s, r, open)
  {
  }

  lemma {:induction false} TellRepTry(c: Setting, fuel: nat, h: nat, skip: bool, e: Expr, count: nat, start: nat,
      n: nat, last: nat, s: State, open: set<nat>, vs: seq<Value>)
    requires Foldable(c) && Ready(c, h, s) && h <= fuel && Packrat.Fits(c, skip, e) && e.Rep?
        && start <= last <= s.pos && Filed(c, s, open)
    requires n < |s.arena| && RepWork(c, s.arena, open, e, n, start, vs) && (Typed(e) ==> |vs| == count)
    requires PegRepTry(c.g, c.inp, h, skip, e, count, last, s.pos).Some?
    ensures RepTold(c, e, n, start, vs + EvalRepTry(c.g, c.inp, h, skip, e, count, s.pos), s,
        RepTry(c.g, c.inp, fuel, skip, e, count, start, n, last, s), open)
    decreases fuel, 1, e, |c.inp| - s.pos, 0
  {
    hide Foldable, Ready, Cached, RepWork, RepFrom, RepDone, PegRep, EvalRep, Parse, Peg.Peg, Eval, PassOn, Bounded,
        Keeps, Packrat.Fits, Typed, RepTold, Told;
    var x := e.child;
    IterationFits(c, skip, e);
    Next(c, fuel, h, skip, x, false, s);
    TellExpr(c, fuel, h, skip, x, false, s, open);
    var r := Parse(c.g, c.inp, fuel, skip, x, s);
    var pass, v := PassOn(c.g, c.inp, h, skip, x, s.pos, false), Eval(c.g, c.inp, h, skip, x, s.pos, false);
    if r.out.Ok? {
      var s1 := PushChild(r.st, n, r.out.tree);
      RepPushed(c, h, e, n, start, vs, pass, v, s, r, open);
      if (e.max > 0 && count + 1 >= e.max) || s1.pos == s.pos {
        TellRepDone(c, e, count + 1, false, start, n, s1.pos, s, s1, open, vs + [v]);
      } else {
        TellRep(c, fuel, h, skip, e, count + 1, start, n, s1, open, vs + [v]);
        var rest := EvalRep(c.g, c.inp, h, skip, e, count + 1, s1.pos);
        assert vs + ([v] + rest) == (vs + [v]) + rest;
        RepToldAfter(c, e, n, start, (vs + [v]) + rest, s, s1,
            RepFrom(c.g, c.inp, fuel, skip, e, count + 1, start, n, s1), open);
      }
      assert vs + ([v] + []) == vs + [v];
    } else if r.out.Fail? {
      ToldFail(c, x, pass, v, s, r, open);
      RepWorkStays(c, s.arena, r.st.arena, open, e, n, start, vs);
      KeepsWeaken(s.arena, r.st.arena, n);
      FramedSize(s.arena, r.st.arena);
      TellRepDone(c, e, count, true, start, n, last, s, r.st, open, vs);
      assert vs + [] == vs;
    } else {
      RepOther(c, e, n, start, vs + EvalRepTry(c.g, c.inp, h, skip, e, count, s.pos), s, r, open);
    }
  }

  lemma FramedSize(a: seq<Node>, b: seq<Node>)
    requires Keeps(a, b, {})
    ensures |a| <= |b|
  {
  }

  lemma IterationFits(c: Setting, skip: bool, e: Expr)
    requires e.Rep? && Packrat.Fits(c, skip, e)
    ensures Packrat.Fits(c, skip, e.child)
  {
  }

  lemma RepPushed(c: Setting, h: nat, e: Expr, n: nat, lo: nat, vs: seq<Value>, pass: Value, v: Value, s: State,
      r: Result, open: set<nat>)
    requires Ready(c, h, r.st) && e.Rep? && n < |s.arena| && RepWork(c, s.arena, open, e, n, lo, vs)
    requires r.out.Ok? && Told(c, e.child, pass, v, s, r, open)
    ensures n < |r.st.arena|
    ensures var s1 := PushChild(r.st, n, r.out.tree);
            && Ready(c, h, s1) && Filed(c, s1, open) && Keeps(s.arena, s1.arena, {n}) && n < |s1.arena|
            && RepWork(c, s1.arena, open, e, n, lo, vs + [v])
  {
    hide Sound, WellFormed, Above, Cached, Bounded, Shows, RuleShows, Iterations;
    var s1 := PushChild(r.st, n, r.out.tree);
    PushKept(c, r.st, n, r.out.tree);
    ReadyIdle(c, h, r.st, s1);
    FiledIdle(c, r.st, s1, open, {n});
    RepWorkStays(c, s.arena, r.st.arena, open, e, n, lo, vs);
    KeepsThen(s.arena, r.st.arena, s1.arena, n);
    if Typed(e) {
      MoreIterations(c, r.st.arena, open, e.child, r.st.arena[n].children, vs, r.out.tree, v);
      IterationsStay(c, r.st.arena, s1.arena, open, {n}, e.child, s1.arena[n].children, vs + [v]);
    }
  }

  lemma MoreIterations(c: Setting, a: seq<Node>, open: set<nat>, e: Expr, children: seq<Option<nat>>, vs: seq<Value>,
      tree: Option<nat>, v: Value)
    requires Iterations(c, a, open, e, children, vs) && tree.Some? && Shows(c.g, c.inp, a, open, e, tree.value, v)
    ensures Iterations(c, a, open, e, children + [tree], vs + [v])
  {
    hide Shows;
  }

  lemma TellRepDone(c: Setting, e: Expr, count: nat, failed: bool, start: nat, n: nat, last: nat, s: State,
      s1: State, open: set<nat>, vs: seq<Value>)
    requires Filed(c, s1, open) && Keeps(s.arena, s1.arena, {n}) && e.Rep? && n < |s1.arena| && start <= last <= |c.inp|
    requires RepWork(c, s1.arena, open, e, n, start, vs) && (Typed(e) ==> |vs| == count) && (!failed ==> s1.pos == last)
    ensures RepTold(c, e, n, start, vs, s, RepDone(c.inp, e, count, failed, start, n, last, s1), open)
  {
    hide Cached, Bounded, Iterations, Typed;
    if count < e.min {
      FiledMoved(c, s1, start, open);
    } else {
      var s2 := if failed then Pad(s1.(pos := last), n, count) else s1;
      if failed { PadGood(c, s1, last, n, count); } else { KeepsRefl(s1.arena, {n}); }
      FiledIdle(c, s1, s2, open, {n});
      EndGood(c, s2, n);
      FiledIdle(c, s2, SetEnd(s2, n), open, {n});
      KeepsTrans(s1.arena, s2.arena, SetEnd(s2, n).arena, {n});
      KeepsTrans(s.arena, s1.arena, SetEnd(s2, n).arena, {n});
      if Typed(e) {
        NoPadding(c, s1.arena, open, e, n, vs, count);
        assert s2.arena[n].children == s1.arena[n].children;
        IterationsStay(c, s1.arena, SetEnd(s2, n).arena, open, {n}, e.child, s1.arena[n].children, vs);
      }
    }
  }

  /** Every iteration of a typed repetition left a child. */
  lemma NoPadding(c: Setting, a: seq<Node>, open: set<nat>, e: Expr, n: nat, vs: seq<Value>, count: nat)
    requires e.Rep? && n < |a| && Iterations(c, a, open, e.child, a[n].children, vs) && |vs| == count
    ensures |a[n].children| == count && a[n].children[..count] == a[n].children
  {
  }

  lemma PadGood(c: Setting, s: State, last: nat, n: nat, count: nat)
    requires Good(c.inp, s) && n < |s.arena| && last <= |c.inp|
    ensures var s1 := Pad(s.(pos := last), n, count);
            && Good(c.inp, s1) && Keeps(s.arena, s1.arena, {n}) && s1.pos == last
                && s1.arena[n].producer == s.arena[n].producer
            && s1.arena[n].start == s.arena[n].start && s1.memo == s.memo && s1.lr == s.lr
  {
  }

  // ---- rules ------------------------------------------------------------------------------------

  lemma {:induction false} TellCall(c: Setting, fuel: nat, h: nat, skip: bool, rule: RuleId, s: State, open: set<nat>)
    requires Foldable(c) && Ready(c, h, s) && h <= fuel && c.mode(rule) == skip && !IsPartner(c.g, rule)
        && Filed(c, s, open)
    requires PegCall(c.g, c.inp, h, skip, rule, s.pos).Some?
    ensures var v := EvalRule(c.g, c.inp, h, skip, rule, s.pos);
            Told(c, Rule(rule), v, v, s, Call(c.g, c.inp, fuel, skip, rule, s), open)
    decreases fuel, 0, 0
  {
    hide Foldable, MemoSound, FramesKept, Above, Bounded, WellFormed, Cached, Grow, Finish, PegCall, EvalRule, Told,
        Packrat.Entered;
    var key := Key(s.pos, rule);
    if key in s.memo {
      assert Means(c, h, key).Some?;
      TellHit(c, h, key, s, open);
    } else {
      FoldableParts(c, rule);
      Packrat.RuleFacts(c, h, key);
      var m := Least(c, h, key);
      Packrat.EnterReady(c, h, m, key, s);
      EnterFiled(c, key, s, open);
      JustEntered(c, key, s);
      BodyAnswered(c, m, key);
      TellBody(c, fuel - 1, m - 1, key, Enter(s, key), open);
      TellFinish(c, h, m, key, s, Grow(c.g, c.inp, fuel - 1, skip, key, key.pos, Fail, Enter(s, key)), open);
    }
  }

  lemma FoldableParts(c: Setting, rule: RuleId)
    requires Foldable(c)
    ensures WellFormed(c.g, c.mode) && !IsLeftRec(c.g, rule)
  {
    hide WellFormed, NoCuts, TypedGrammar;
  }

  /** A hit returns the cached tree, which stands for the rule's value. */
  lemma TellHit(c: Setting, h: nat, key: Key, s: State, open: set<nat>)
    requires Ready(c, h, s) && key.pos == s.pos && key in s.memo && Means(c, h, key).Some? && Filed(c, s, open)
    ensures TreeIn(s.arena, s.memo[key].tree) && s.memo[key].end <= |c.inp|
    ensures Told(c, Rule(key.rule), Worth(c, h, key), Worth(c, h, key), s,
                 Result(FromEntry(s.memo[key]), MarkHead(s, key).(pos := s.memo[key].end)), open)
  {
    hide FramesKept, WellFormed, PegCall, EvalRule, RuleShows, MemoSound;
    Packrat.SoundHit(c, h, key, s);
    var e := s.memo[key];
    FiledMoved(c, s, e.end, open);
    KeepsRefl(s.arena, {});
    if e.ok {
      assert key !in s.lr;
      assert Cached(c, s.arena, open, key, e) && Matches(Means(c, h, key));
      RuleAt(c.g, c.inp, s.arena, open, e.tree.value, Worth(c, h, key));
    }
  }

  lemma EnterFiled(c: Setting, key: Key, s: State, open: set<nat>)
    requires Filed(c, s, open) && key.pos == s.pos
    ensures Good(c.inp, Enter(s, key)) && Filed(c, Enter(s, key), open)
  {
    hide Cached;
  }

  lemma JustEntered(c: Setting, key: Key, s: State)
    requires Good(c.inp, s) && key.pos == s.pos && key.rule in c.g.rules
    ensures Packrat.Entered(c, key, Enter(s, key))
  {
  }

  lemma BodyAnswered(c: Setting, m: nat, key: Key)
    requires key.pos <= |c.inp| && m > 0 && Means(c, m, key).Some? && !IsLeftRec(c.g, key.rule)
    ensures key.rule in c.g.rules && Peg.Peg(c.g, c.inp, m - 1, c.mode(key.rule), c.g.rules[key.rule].body, key.pos,
        false).Some?
  {
    hide Peg.Peg, IsLeftRec;
  }

  lemma BodyFits(c: Setting, r: RuleId)
    requires Foldable(c) && r in c.g.rules && !IsPartner(c.g, r)
    ensures Packrat.Fits(c, c.mode(r), c.g.rules[r].body) && !IsLeftRec(c.g, r)
  {
    hide Usable, CutFree, IsLeftRec, NoCuts, Calm;
    QuietIsCalm(c.g, c.mode, r);
  }

  /** The body of a rule, evaluated until a pass makes no progress: the first pass's tree is the result, and
      nothing the second pass files refers to it. */
  lemma {:induction false} TellBody(c: Setting, fuel: nat, h: nat, key: Key, s: State, open: set<nat>)
    requires Foldable(c) && Ready(c, h, s) && h <= fuel && Packrat.Entered(c, key, s) && !IsPartner(c.g, key.rule)
        && Filed(c, s, open)
    requires Peg.Peg(c.g, c.inp, h, c.mode(key.rule), c.g.rules[key.rule].body, key.pos, false).Some?
    ensures var skip, body := c.mode(key.rule), c.g.rules[key.rule].body;
            var r := Grow(c.g, c.inp, fuel, skip, key, key.pos, Fail, s);
            var a := Peg.Peg(c.g, c.inp, h, skip, body, key.pos, false);
            && Told(c, body, PassOn(c.g, c.inp, h, skip, body, key.pos, false),
                Eval(c.g, c.inp, h, skip, body, key.pos, false), s, r, open)
            && (r.out.Ok? ==> Matches(a) && r.st.pos == a.value.out.end)
    decreases fuel, 2
  {
    hide Foldable, MemoSound, FramesKept, Above, Bounded, WellFormed, Cached, Grow, Parse, Peg.Peg, PassOn, Eval,
        Told, Returned, Packrat.Fits, Packrat.Again;
    var skip, body := c.mode(key.rule), c.g.rules[key.rule].body;
    var pass, v := PassOn(c.g, c.inp, h, skip, body, key.pos, false), Eval(c.g, c.inp, h, skip, body, key.pos, false);
    var s1 := s.(pos := key.pos, evals := s.evals + 1);
    BodyFits(c, key.rule);
    Packrat.TickReady(c, h, s, s1);
    KeepsRefl(s.arena, {});
    FiledIdle(c, s, s1, open, {});
    Next(c, fuel, h, skip, body, false, s1);
    TellExpr(c, fuel, h, skip, body, false, s1, open);
    var r1 := Parse(c.g, c.inp, fuel, skip, body, s1);
    FirstPass(c, fuel, key, s, r1);
    ToldAfter(c, body, pass, v, s, s1, r1, open);
    if r1.out.Ok? && r1.st.pos > key.pos && key in r1.st.memo {
      SecondPassReady(c, fuel, h, key, s1, r1);
      var s2 := Packrat.Again(c, key, r1);
      var open1 := if FreshTree(r1) then open + {r1.out.tree.value} else open;
      AgainFiled(c, key, body, pass, v, s, r1, open, open1);
      Next(c, fuel, h, skip, body, false, s2);
      TellExpr(c, fuel, h, skip, body, false, s2, open1);
      var r2 := Parse(c.g, c.inp, fuel, skip, body, s2);
      SecondPass(c, fuel, key, s, r1, r2);
      Settled(c, key, body, pass, v, s, r1, s2, r2, open, open1);
    } else if r1.out.Ok? && r1.st.pos == key.pos {
      ZeroWidth(c, key, body, pass, v, s, r1, open);
    } else if r1.out.Fail? {
      assert r1.st.(pos := key.pos) == r1.st;
    } else {
      ToldWhole(c, body, pass, v, s, r1, Grow(c.g, c.inp, fuel, skip, key, key.pos, Fail, s), open);
    }
  }

  lemma ToldWhole(c: Setting, e: Expr, pass: Value, v: Value, s: State, r: Result, r': Result, open: set<nat>)
    requires Told(c, e, pass, v, s, r, open) && r' == r
    ensures Told(c, e, pass, v, s, r', open)
  {
  }

  ghost predicate FreshTree(r: Result) {
    r.out.Ok? && r.out.tree.Some? && r.out.tree.value < |r.st.arena| && r.st.arena[r.out.tree.value].producer.None?
  }

  /** How the grow loop of a rule that was not re-entered ends after its first evaluation. */
  lemma FirstPass(c: Setting, fuel: nat, key: Key, s: State, r: Result)
    requires Packrat.Entered(c, key, s) && Good(c.inp, s) && key.pos <= |c.inp|
        && Good(c.inp, s.(pos := key.pos, evals := s.evals + 1))
    requires r == Parse(c.g, c.inp, fuel, c.mode(key.rule), c.g.rules[key.rule].body,
        s.(pos := key.pos, evals := s.evals + 1))
    ensures var whole := Grow(c.g, c.inp, fuel, c.mode(key.rule), key, key.pos, Fail, s);
            match r.out
            case Ok(_) =>
              if r.st.pos > key.pos then key in r.st.memo || whole == r
                  else whole == Settle(c.inp, key, key.pos, r.out, r.st)
            case Fail => whole == Result(Fail, r.st.(pos := key.pos))
            case _ => whole == r
  {
    hide Parse, Settle, Bounded;
  }

  lemma SecondPass(c: Setting, fuel: nat, key: Key, s: State, r1: Result, r2: Result)
    requires Packrat.Entered(c, key, s) && Good(c.inp, s) && key.pos <= |c.inp|
        && Good(c.inp, s.(pos := key.pos, evals := s.evals + 1))
    requires r1 == Parse(c.g, c.inp, fuel, c.mode(key.rule), c.g.rules[key.rule].body,
        s.(pos := key.pos, evals := s.evals + 1))
    requires r1.out.Ok? && r1.st.pos > key.pos && key in r1.st.memo && r1.st.lr == s.lr
        && TreeIn(r1.st.arena, r1.out.tree)
    requires Good(c.inp, Packrat.Again(c, key, r1)) && r2 == Parse(c.g, c.inp, fuel, c.mode(key.rule),
        c.g.rules[key.rule].body, Packrat.Again(c, key, r1))
    requires r2.out.Ok? && r2.st.pos == r1.st.pos
    ensures Grow(c.g, c.inp, fuel, c.mode(key.rule), key, key.pos, Fail, s) ==
        Settle(c.inp, key, r1.st.pos, r1.out, r2.st)
  {
    hide Parse, Settle, Bounded, Restart;
    var s2 := r1.st.(memo := r1.st.memo[key := Entry(true, r1.st.pos, r1.out.tree)]);
    RestartIs(c.inp, key, s);
    SeedGood(c.inp, r1.st, key, Entry(true, r1.st.pos, r1.out.tree));
    assert Grow(c.g, c.inp, fuel, c.mode(key.rule), key, r1.st.pos, r1.out, s2) == Settle(c.inp, key, r1.st.pos,
        r1.out, r2.st);
  }

  lemma RestartIs(inp: Input, key: Key, s: State)
    requires Good(inp, s) && s.lr != [] && key.pos <= |inp|
    ensures Restart(inp, key, Fail, s) == s.(pos := key.pos, evals := s.evals + 1)
  {
  }

  lemma SecondPassReady(c: Setting, fuel: nat, h: nat, key: Key, s: State, r: Result)
    requires Foldable(c) && Ready(c, h, s) && h <= fuel && Packrat.Entered(c, key, s)
        && Packrat.Fits(c, c.mode(key.rule), c.g.rules[key.rule].body)
    requires Peg.Peg(c.g, c.inp, h, c.mode(key.rule), c.g.rules[key.rule].body, s.pos, false).Some?
    requires r == Parse(c.g, c.inp, fuel, c.mode(key.rule), c.g.rules[key.rule].body, s) && r.out.Ok?
        && r.st.pos > key.pos && key in r.st.memo
    ensures r.st.lr == s.lr && TreeIn(r.st.arena, r.out.tree)
    ensures Ready(c, h, Packrat.Again(c, key, r)) && Packrat.Again(c, key, r).pos == key.pos
  {
    hide MemoSound, FramesKept, Above, Bounded, WellFormed, Parse, Peg.Peg, Usable, Packrat.Again, TypedGrammar,
        NoLeft, NoLeftRec;
    CutFreeIsEnclosed(c.g.rules[key.rule].body);
    Packrat.SoundExpr(c, fuel, h, c.mode(key.rule), c.g.rules[key.rule].body, false, s);
    Packrat.SecondReady(c, h, key, s, r, Peg.Peg(c.g, c.inp, h, c.mode(key.rule), c.g.rules[key.rule].body, s.pos,
        false).value);
  }

  /** The second pass may treat the first pass's own node as under construction. */
  lemma AgainFiled(c: Setting, key: Key, e: Expr, pass: Value, v: Value, s: State, r: Result, open: set<nat>,
      open1: set<nat>)
    requires Told(c, e, pass, v, s, r, open) && r.out.Ok? && Packrat.Entered(c, key, s) && r.st.lr == s.lr
        && Good(c.inp, r.st)
    requires TreeIn(r.st.arena, r.out.tree) && key.pos <= r.st.pos
    requires open1 == if FreshTree(r) then open + {r.out.tree.value} else open
    ensures var s2 := Packrat.Again(c, key, r);
            Filed(c, s2, open1) && s2.arena == r.st.arena && s2.lr == r.st.lr && Keeps(r.st.arena, s2.arena, {})
  {
    hide Cached, Shows, RuleShows, Treeless, Builds, Typed, Bounded;
    var s2 := Packrat.Again(c, key, r);
    KeepsRefl(r.st.arena, {});
    FiledStays(c, r.st, s2, open1, open1, {});
  }

  /** The first pass's tree is the answer, in the state the second pass leaves. */
  lemma Settled(c: Setting, key: Key, e: Expr, pass: Value, v: Value, s: State, r1: Result, s2: State, r2: Result,
      open: set<nat>, open1: set<nat>)
    requires Told(c, e, pass, v, s, r1, open) && r1.out.Ok? && Told(c, e, pass, v, s2, r2, open1) && r2.out.Ok?
        && s2.arena == r1.st.arena
    requires open1 == if FreshTree(r1) then open + {r1.out.tree.value} else open
    requires key in s.lr && r2.st.lr == s.lr && r2.st.pos == r1.st.pos && key.pos <= r1.st.pos <= |c.inp|
        && TreeIn(r1.st.arena, r1.out.tree)
    ensures Good(c.inp, r2.st) && |r1.st.arena| <= |r2.st.arena| && TreeIn(r2.st.arena, r1.out.tree)
    ensures Told(c, e, pass, v, s, Settle(c.inp, key, r1.st.pos, r1.out, r2.st), open)
  {
    hide Cached, Bounded, Returned, Keeps;
    FramedSize(r1.st.arena, r2.st.arena);
    var r := Settle(c.inp, key, r1.st.pos, r1.out, r2.st);
    KeepsTrans(s.arena, r1.st.arena, r2.st.arena, {});
    SettledFiled(c, key, r1, r2, open, open1);
    ReturnedStays(c, e, pass, v, s, r1, r, open);
  }

  lemma SettledFiled(c: Setting, key: Key, r1: Result, r2: Result, open: set<nat>, open1: set<nat>)
    requires Filed(c, r2.st, open1) && r1.out.Ok? && key in r2.st.lr && key.pos <= r1.st.pos <= |c.inp|
        && TreeIn(r1.st.arena, r1.out.tree)
    requires |r1.st.arena| <= |r2.st.arena| && open <= open1
    ensures var r := Settle(c.inp, key, r1.st.pos, r1.out, r2.st);
            Filed(c, r.st, open1) && Filed(c, r.st, open)
  {
    hide Cached, Bounded;
    var r := Settle(c.inp, key, r1.st.pos, r1.out, r2.st);
    KeepsRefl(r2.st.arena, {});
    FiledStays(c, r2.st, r.st, open1, open1, {});
    FiledStays(c, r2.st, r.st, open1, open, {});
  }

  lemma ZeroWidth(c: Setting, key: Key, e: Expr, pass: Value, v: Value, s: State, r: Result, open: set<nat>)
    requires Told(c, e, pass, v, s, r, open) && r.out.Ok? && key in s.lr && r.st.lr == s.lr
        && r.st.pos == key.pos <= |c.inp|
    requires Good(c.inp, r.st) && TreeIn(r.st.arena, r.out.tree)
    ensures Told(c, e, pass, v, s, Settle(c.inp, key, key.pos, r.out, r.st), open)
  {
    hide Cached, Shows, RuleShows, Treeless, Builds, Typed, Bounded, Returned;
    var r' := Settle(c.inp, key, key.pos, r.out, r.st);
    KeepsRefl(r.st.arena, {});
    FreshFiled(c, e, pass, v, s, r, open);
    FiledStays(c, r.st, r'.st, open, open, {});
    if FreshTree(r) { FiledStays(c, r.st, r'.st, open + {r.out.tree.value}, open + {r.out.tree.value}, {}); }
    ReturnedStays(c, e, pass, v, s, r, r', open);
  }

  // ---- leaving a rule ---------------------------------------------------------------------------

  /** The value of a rule does not depend on the depth it is computed at. */
  lemma WorthIsOne(c: Setting, h: nat, h': nat, key: Key)
    requires Foldable(c) && key.pos <= |c.inp| && Matches(Means(c, h, key)) && Matches(Means(c, h', key))
    ensures Worth(c, h, key) == Worth(c, h', key)
  {
    hide WellFormed, NoCuts, NoLeftRec, NoLeft, TypedGrammar, PegCall, EvalRule;
    if h <= h' { SameRule(c.g, c.inp, h, h', c.mode(key.rule), key.rule, key.pos); }
    else { SameRule(c.g, c.inp, h', h, c.mode(key.rule), key.rule, key.pos); }
  }

  lemma CachedIf(c: Setting, a: seq<Node>, open: set<nat>, m: nat, key: Key, e: Entry)
    requires Foldable(c) && key.pos <= |c.inp| && Matches(Means(c, m, key))
    requires e.tree.Some? && e.tree.value < |a| && a[e.tree.value].start == key.pos && a[e.tree.value].end == e.end
    requires RuleShows(c.g, c.inp, a, open, e.tree.value, Worth(c, m, key))
    ensures Cached(c, a, open, key, e)
  {
    hide Foldable, Means, EvalRule, RuleShows, Worth;
    forall h: nat | Matches(Means(c, h, key)) ensures RuleShows(c.g, c.inp, a, open, e.tree.value, Worth(c, h, key)) {
      WorthIsOne(c, h, m, key);
    }
  }

  /** Leaving the rule of `key` and publishing its entry. */
  lemma PublishFiled(c: Setting, lr: seq<Key>, key: Key, e: Entry, s: State, s': State, open: set<nat>,
      open': set<nat>, but: set<nat>)
    requires Filed(c, s, open) && Good(c.inp, s') && Keeps(s.arena, s'.arena, but) && but <= open
        && Narrows(s.arena, open, open')
    requires (forall n | n in open' :: n < |s'.arena|) && s.lr == lr + [key] && s'.lr == lr
        && s'.memo == Update(s.memo, key, e)
    requires e.ok ==> key.pos <= |c.inp| && Cached(c, s'.arena, open', key, e)
    ensures Filed(c, s', open')
  {
    hide Good, Cached, Keeps;
    forall k | k in s'.memo && k !in s'.lr && s'.memo[k].ok ensures k.pos <= |c.inp|
        && Cached(c, s'.arena, open', k, s'.memo[k]) {
      if k != key {
        assert k !in s.lr;
        CachedStays(c, s.arena, s'.arena, open, open', but, k, s.memo[k]);
      }
    }
  }

  lemma TellFinish(c: Setting, h: nat, m: nat, key: Key, s: State, r: Result, open: set<nat>)
    requires Foldable(c) && 0 < m <= h && key.pos == s.pos <= |c.inp| && key !in s.memo && key.rule in c.g.rules
        && c.g.rules[key.rule].recovery.None?
    requires Means(c, m, key).Some? && Means(c, m, key) == Means(c, h, key) && !IsLeftRec(c.g, key.rule)
    requires Good(c.inp, Enter(s, key)) && Framed(c.inp, Enter(s, key), r)
    requires var skip, body := c.mode(key.rule), c.g.rules[key.rule].body;
             && Told(c, body, PassOn(c.g, c.inp, m - 1, skip, body, key.pos, false),
                 Eval(c.g, c.inp, m - 1, skip, body, key.pos, false), Enter(s, key), r, open)
             && (r.out.Ok? ==> Matches(Peg.Peg(c.g, c.inp, m - 1, skip, body, key.pos, false))
                               && r.st.pos == Peg.Peg(c.g, c.inp, m - 1, skip, body, key.pos, false).value.out.end)
    ensures Told(c, Rule(key.rule), Worth(c, h, key), Worth(c, h, key), s,
        Finish(c.g.rules[key.rule], c.inp, key, Enter(s, key), r), open)
  {
    hide Foldable, Bounded, Cached, Told, Peg.Peg, PassOn, Eval, Complete, Reject, IsLeftRec, Means, Worth;
    var skip, body := c.mode(key.rule), c.g.rules[key.rule].body;
    var pass, v := PassOn(c.g, c.inp, m - 1, skip, body, key.pos, false),
        Eval(c.g, c.inp, m - 1, skip, body, key.pos, false);
    if r.out.Normal() {
      LeaveGood(c.inp, Enter(s, key), r);
      assert (s.lr + [key])[..|s.lr|] == s.lr;
    }
    if r.out.Ok? {
      WorthUnfolds(c, m, key);
      WorthIsOne(c, m, h, key);
      TellComplete(c, m, key, s, r, open, pass, v);
    } else if r.out.Fail? {
      ToldFail(c, body, pass, v, Enter(s, key), r, open);
      TellReject(c, h, key, s, r, open);
    } else {
      ToldOther(c, Rule(key.rule), Worth(c, h, key), Worth(c, h, key), s, r, open);
    }
  }

  lemma WorthUnfolds(c: Setting, m: nat, key: Key)
    requires Foldable(c) && key.pos <= |c.inp| && m > 0 && Means(c, m, key).Some? && key.rule in c.g.rules
        && !IsLeftRec(c.g, key.rule)
    requires Matches(Peg.Peg(c.g, c.inp, m - 1, c.mode(key.rule), c.g.rules[key.rule].body, key.pos, false))
    ensures Matches(Means(c, m, key))
    ensures var skip, body := c.mode(key.rule), c.g.rules[key.rule].body;
            var a := Peg.Peg(c.g, c.inp, m - 1, skip, body, key.pos, false).value;
            Worth(c, m, key) ==
              if !c.g.rules[key.rule].hasAction then PassOn(c.g, c.inp, m - 1, skip, body, key.pos, false)
              else Applied(key.rule, key.pos, a.out.end, if Void(body) then Unit
                  else Eval(c.g, c.inp, m - 1, skip, body, key.pos, false))
  {
    hide Foldable, Peg.Peg, PassOn, Eval, IsLeftRec;
  }

  lemma TellReject(c: Setting, h: nat, key: Key, s: State, r: Result, open: set<nat>)
    requires key.pos == s.pos <= |c.inp| && key.rule in c.g.rules && c.g.rules[key.rule].recovery.None? && r.out.Fail?
    requires Good(c.inp, Enter(s, key)) && r.st.lr == s.lr + [key] && Good(c.inp, Leave(r.st)) && Leave(r.st).lr == s.lr
    requires Filed(c, r.st, open) && Keeps(s.arena, r.st.arena, {})
    ensures Told(c, Rule(key.rule), Worth(c, h, key), Worth(c, h, key), s,
        Reject(c.g.rules[key.rule], c.inp, key, Leave(r.st)), open)
  {
    hide Cached, Bounded, EvalRule;
    var d := Reject(c.g.rules[key.rule], c.inp, key, Leave(r.st));
    assert Good(c.inp, d.st);
    KeepsRefl(r.st.arena, {});
    PublishFiled(c, s.lr, key, Entry(false, key.pos, None), r.st, d.st, open, open, {});
  }

  /** Wrapped or adopted, the node now stands for the rule's value. */
  lemma TellComplete(c: Setting, m: nat, key: Key, s: State, r: Result, open: set<nat>, pass: Value, v: Value)
    requires Foldable(c) && CompleteInput(c, m, key, s, r, open, pass, v) && Matches(Means(c, m, key))
    ensures Told(c, Rule(key.rule), Worth(c, m, key), Worth(c, m, key), s,
        Complete(c.g.rules[key.rule], c.inp, key, r.out.tree, Leave(r.st)), open)
  {
    hide Foldable, Cached, Bounded, Told, Complete, Means, Worth;
    var def := c.g.rules[key.rule];
    if def.hasAction { Wrapped(c, m, key, s, r, open, pass, v); }
    else if r.out.tree.None? { Unbuilt(c, m, key, s, r, open, pass, v); }
    else if r.st.arena[r.out.tree.value].producer.None? { AdoptedOwn(c, m, key, s, r, open, pass, v); }
    else { AdoptedRule(c, m, key, s, r, open, pass, v); }
  }

  /** What is known of the body's result, and of the rule's value. */
  ghost predicate CompleteInput(c: Setting, m: nat, key: Key, s: State, r: Result, open: set<nat>, pass: Value,
      v: Value) {
    && key.pos == s.pos <= r.st.pos <= |c.inp| && key.rule in c.g.rules && r.out.Ok? && TreeIn(r.st.arena, r.out.tree)
    && r.st.lr == s.lr + [key] && Good(c.inp, Leave(r.st)) && Leave(r.st).lr == s.lr
    && Told(c, c.g.rules[key.rule].body, pass, v, Enter(s, key), r, open)
    && Worth(c, m, key) ==
         if !c.g.rules[key.rule].hasAction then pass
         else Applied(key.rule, key.pos, r.st.pos, if Void(c.g.rules[key.rule].body) then Unit else v)
  }

  /** The finished rule, given its node. */
  lemma Completed(c: Setting, m: nat, key: Key, s: State, r: Result, d: Result, open: set<nat>, open1: set<nat>,
      but: set<nat>)
    requires Foldable(c) && key.pos == s.pos <= r.st.pos <= |c.inp| && Matches(Means(c, m, key))
        && key.rule in c.g.rules && r.out.Ok?
    requires r.st.lr == s.lr + [key] && Filed(c, r.st, open1) && Keeps(s.arena, d.st.arena, {}) && Good(c.inp, d.st)
    requires Keeps(r.st.arena, d.st.arena, but) && but <= open1 && open <= open1
    requires d.out.Ok? && d.out.tree.Some? && d.out.tree.value < |d.st.arena| && d.st.pos == r.st.pos && d.st.lr == s.lr
    requires d.st.memo == Update(r.st.memo, key, Entry(true, r.st.pos, d.out.tree))
    requires var t := d.out.tree.value; d.st.arena[t].start == key.pos && d.st.arena[t].end == r.st.pos
    requires RuleShows(c.g, c.inp, d.st.arena, open, d.out.tree.value, Worth(c, m, key))
    ensures Told(c, Rule(key.rule), Worth(c, m, key), Worth(c, m, key), s, d, open)
  {
    hide Foldable, Cached, Bounded, Means, Worth, RuleShows;
    CachedIf(c, d.st.arena, open, m, key, Entry(true, r.st.pos, d.out.tree));
    PublishFiled(c, s.lr, key, Entry(true, r.st.pos, d.out.tree), r.st, d.st, open1, open, but);
    RuleAt(c.g, c.inp, d.st.arena, open, d.out.tree.value, Worth(c, m, key));
  }

  /** An action wraps the body's node in a new one. */
  lemma Wrapped(c: Setting, m: nat, key: Key, s: State, r: Result, open: set<nat>, pass: Value, v: Value)
    requires Foldable(c) && CompleteInput(c, m, key, s, r, open, pass, v) && Matches(Means(c, m, key))
        && c.g.rules[key.rule].hasAction
    ensures Told(c, Rule(key.rule), Worth(c, m, key), Worth(c, m, key), s,
        Complete(c.g.rules[key.rule], c.inp, key, r.out.tree, Leave(r.st)), open)
  {
    hide Foldable, Cached, Bounded, Means, Worth, Shows, RuleShows, Typed, Void, Treeless, Builds;
    var def := c.g.rules[key.rule];
    var d := Complete(def, c.inp, key, r.out.tree, Leave(r.st));
    var w, a, a' := |r.st.arena|, r.st.arena, d.st.arena;
    assert Good(c.inp, d.st);
    assert a' == a + [a'[w]] && a'[w].children == (if r.out.tree.Some? then [r.out.tree] else []);
    assert Keeps(a, a', {});
    KeepsTrans(s.arena, a, a', {});
    if !Void(def.body) {
      TypedBody(c, key.rule);
      ShowsStays(c.g, c.inp, a, a', open, open + {w}, {}, def.body, r.out.tree.value, v);
    }
    WrapperShows(c, a', open, w, key.rule, if Void(def.body) then Unit else v);
    Completed(c, m, key, s, r, d, open, open, {});
  }

  lemma TypedBody(c: Setting, r: RuleId)
    requires Foldable(c) && r in c.g.rules && c.g.rules[r].hasAction && !Void(c.g.rules[r].body)
    ensures Typed(c.g.rules[r].body)
  {
    hide WellFormed, NoCuts, NoLeftRec, NoLeft;
  }

  lemma WrapperShows(c: Setting, a: seq<Node>, open: set<nat>, w: nat, p: RuleId, arg: Value)
    requires p in c.g.rules && c.g.rules[p].hasAction && w < |a| && w !in open && a[w].producer == Some(p)
    requires if Void(c.g.rules[p].body) then arg == Unit
             else
               && |a[w].children| == 1 && a[w].children[0].Some?
               && Shows(c.g, c.inp, a, open + {w}, c.g.rules[p].body, a[w].children[0].value, arg)
    ensures RuleShows(c.g, c.inp, a, open, w, Applied(p, a[w].start, a[w].end, arg))
  {
    hide Shows;
  }

  lemma PlainShows(c: Setting, a: seq<Node>, open: set<nat>, t: nat, p: RuleId)
    requires p in c.g.rules && !c.g.rules[p].hasAction && t < |a| && t !in open && a[t].producer == Some(p)
    ensures RuleShows(c.g, c.inp, a, open, t, Default)
  {
  }

  /** A rule without an action whose body built no node. */
  lemma Unbuilt(c: Setting, m: nat, key: Key, s: State, r: Result, open: set<nat>, pass: Value, v: Value)
    requires Foldable(c) && CompleteInput(c, m, key, s, r, open, pass, v) && Matches(Means(c, m, key))
        && !c.g.rules[key.rule].hasAction && r.out.tree.None?
    ensures Told(c, Rule(key.rule), Worth(c, m, key), Worth(c, m, key), s,
        Complete(c.g.rules[key.rule], c.inp, key, r.out.tree, Leave(r.st)), open)
  {
    hide Foldable, Cached, Bounded, Means, Worth, Shows, RuleShows, Typed, Void, Treeless, Builds;
    var d := Complete(c.g.rules[key.rule], c.inp, key, r.out.tree, Leave(r.st));
    var w, a, a' := |r.st.arena|, r.st.arena, d.st.arena;
    assert Good(c.inp, d.st);
    assert a' == a + [a'[w]];
    assert Keeps(a, a', {});
    KeepsTrans(s.arena, a, a', {});
    PlainShows(c, a', open, w, key.rule);
    Completed(c, m, key, s, r, d, open, open, {});
  }

  /** A rule without an action adopts its body's own node. */
  lemma AdoptedOwn(c: Setting, m: nat, key: Key, s: State, r: Result, open: set<nat>, pass: Value, v: Value)
    requires Foldable(c) && CompleteInput(c, m, key, s, r, open, pass, v) && Matches(Means(c, m, key))
        && !c.g.rules[key.rule].hasAction
    requires r.out.tree.Some? && r.st.arena[r.out.tree.value].producer.None?
    ensures Told(c, Rule(key.rule), Worth(c, m, key), Worth(c, m, key), s,
        Complete(c.g.rules[key.rule], c.inp, key, r.out.tree, Leave(r.st)), open)
  {
    hide Foldable, Cached, Bounded, Means, Worth, Shows, RuleShows, Typed, Void, Treeless, Builds;
    var d := Complete(c.g.rules[key.rule], c.inp, key, r.out.tree, Leave(r.st));
    var t, a, a' := r.out.tree.value, r.st.arena, d.st.arena;
    assert Good(c.inp, d.st);
    assert Keeps(a, a', {t});
    KeepsFresh(s.arena, a, a', t);
    PlainShows(c, a', open, t, key.rule);
    Completed(c, m, key, s, r, d, open, open + {t}, {t});
  }

  /** A rule without an action adopts the node of the rule its body consists of. */
  lemma AdoptedRule(c: Setting, m: nat, key: Key, s: State, r: Result, open: set<nat>, pass: Value, v: Value)
    requires Foldable(c) && CompleteInput(c, m, key, s, r, open, pass, v) && Matches(Means(c, m, key))
        && !c.g.rules[key.rule].hasAction
    requires r.out.tree.Some? && r.st.arena[r.out.tree.value].producer.Some?
    ensures Told(c, Rule(key.rule), Worth(c, m, key), Worth(c, m, key), s,
        Complete(c.g.rules[key.rule], c.inp, key, r.out.tree, Leave(r.st)), open)
  {
    hide Foldable, Cached, Bounded, Means, Worth, Shows, RuleShows, Typed, Void, Treeless, Builds;
    var d := Complete(c.g.rules[key.rule], c.inp, key, r.out.tree, Leave(r.st));
    var t, a, a' := r.out.tree.value, r.st.arena, d.st.arena;
    assert Good(c.inp, d.st);
    assert Keeps(a, a', {});
    KeepsTrans(s.arena, a, a', {});
    RuleStays(c.g, c.inp, a, a', open, open, {}, t, pass);
    Completed(c, m, key, s, r, d, open, open, {});
  }

  // ---- whole parses -----------------------------------------------------------------------------

  lemma FreshIsFiled(c: Setting)
    ensures Filed(c, FRESH, {})
  {
  }

  /** The value of a whole parse: of the start rule, behind the leading skip. */
  ghost function RunValue(c: Setting, k: nat, start: RuleId, i: nat): Value
    requires i <= |c.inp|
  {
    var w := PegSkip(c.g, c.inp, k, c.g.skipper.Some?, i);
    if !Matches(w) then Unit else EvalRule(c.g, c.inp, k, c.g.skipper.Some?, start, w.value.out.end)
  }

  /** A successful parse returns a tree that stands for the memo-free value, and the memo stays usable. */
  lemma TellRun(c: Setting, fuel: nat, k: nat, start: RuleId, s: State)
    requires Foldable(c) && Sound(c, s) && s.lr == [] && Filed(c, s, {}) && k <= fuel
    requires c.mode(start) == c.g.skipper.Some? && !IsPartner(c.g, start) && PegRun(c.g, c.inp, k, start, s.pos).Some?
    ensures var r := Run(c.g, c.inp, fuel, start, s);
            && (r.out.Normal() ==> Filed(c, r.st, {}))
            && (r.out.Ok? ==> r.out.tree.Some? && RuleShows(c.g, c.inp, r.st.arena, {}, r.out.tree.value,
                 RunValue(c, k, start, s.pos)))
  {
    hide MemoSound, WellFormed, NoCuts, NoLeftRec, NoLeft, TypedGrammar, Cached, Bounded, Skip, PegSkip, Call,
        PegCall, EvalRule, RuleShows, Keeps;
    var skip := c.g.skipper.Some?;
    assert Above(c, k, s.lr);
    TellGap(c, fuel, k, skip, 1, false, s, {});
    var w := Skip(c.g, c.inp, fuel, skip, s);
    if w.out.Ok? { TellCall(c, fuel, k, skip, start, w.st, {}); }
  }
}
