/** Parse trees.  Nodes live in an arena and are shared between the memo and the trees under
    construction; rules rename, and alternations stamp, nodes that were finished long ago.  Still, for any
    grammar at all, whatever is returned is a finite tree with exactly the matched span, children lie
    inside their parent in input order, and no later step changes the tree of a finished node. */
module Trees {
  import opened Grammars
  import opened Machine

  /** The shape of a parse tree; an iteration without a tree leaves a gap. */
  datatype Tree = Tree(start: nat, end: nat, kids: seq<Option<Tree>>)

  // ---- trees in an arena ------------------------------------------------------------------------

  /** The nodes from `n` down form the finite tree `t`, none of them under construction. */
  ghost predicate Depicts(a: seq<Node>, open: set<nat>, n: nat, t: Tree)
    decreases t, 1
  {
    && n < |a| && n !in open
    && a[n].start == t.start && a[n].end == t.end
    && |a[n].children| == |t.kids|
    && forall i | 0 <= i < |t.kids| ::
         t.kids[i].Some? == a[n].children[i].Some?
         && (t.kids[i].Some? ==> Depicts(a, open, a[n].children[i].value, t.kids[i].value))
  }

  ghost predicate KidsDepict(a: seq<Node>, open: set<nat>, children: seq<Option<nat>>, kids: seq<Option<Tree>>) {
    && |children| == |kids|
    && forall i | 0 <= i < |kids| ::
         kids[i].Some? == children[i].Some? && (kids[i].Some? ==> Depicts(a, open, children[i].value, kids[i].value))
  }

  /** Children lie between lo and hi, in order and without overlap, all the way down. */
  ghost predicate Nested(t: Tree) {
    && t.start <= t.end
    && (forall i | 0 <= i < |t.kids| && t.kids[i].Some? ::
          t.start <= t.kids[i].value.start && t.kids[i].value.end <= t.end && Nested(t.kids[i].value))
    && (forall i, j | 0 <= i < j < |t.kids| && t.kids[i].Some? && t.kids[j].Some? ::
          t.kids[i].value.end <= t.kids[j].value.start)
  }

  /** A finished node: a well-nested tree with the span [from, to). */
  ghost predicate Shown(a: seq<Node>, open: set<nat>, n: nat, from: nat, to: nat) {
    exists t :: Depicts(a, open, n, t) && Nested(t) && t.start == from && t.end == to
  }

  /** A node under construction that started at lo; its children so far lie in [lo, hi). */
  ghost predicate InWork(a: seq<Node>, open: set<nat>, n: nat, lo: nat, hi: nat) {
    && n < |a| && n in open && a[n].start == lo && lo <= hi
    && exists kids :: KidsDepict(a, open, a[n].children, kids) && Nested(Tree(lo, hi, kids))
  }

  ghost predicate SameShape(x: Node, y: Node) {
    x.start == y.start && x.end == y.end && x.children == y.children
  }

  /** Nodes may be added; the old ones keep their span and children, but for those in `but`. */
  ghost predicate Steady(a: seq<Node>, a': seq<Node>, but: set<nat>) {
    |a| <= |a'| && forall n | 0 <= n < |a| && n !in but :: SameShape(a[n], a'[n])
  }

  ghost predicate Tidy(inp: Input, s: State, open: set<nat>) {
    && Good(inp, s)
    && (forall n | n in open :: n < |s.arena|)
    && (forall k | k in s.memo && s.memo[k].tree.Some? ::
         Shown(s.arena, open, s.memo[k].tree.value, k.pos, s.memo[k].end))
  }

  /** A step on behalf of callers that are constructing the nodes `open`. */
  ghost predicate Builds(inp: Input, s: State, r: Result, open: set<nat>) {
    r.out.Normal() ==>
      && Tidy(inp, r.st, open) && Steady(s.arena, r.st.arena, {})
      && (r.out.Ok? && r.out.tree.Some? ==> Shown(r.st.arena, open, r.out.tree.value, s.pos, r.st.pos))
  }

  /** A step inside the construct whose node `n` starts at lo. */
  ghost predicate Extends(inp: Input, s: State, r: Result, open: set<nat>, n: nat, lo: nat) {
    r.out.Normal() ==>
      && Tidy(inp, r.st, open) && Steady(s.arena, r.st.arena, {n})
      && (r.out.Ok? ==> InWork(r.st.arena, open, n, lo, r.st.pos) && r.st.arena[n].end == r.st.pos)
  }

  // ---- what keeps a tree ------------------------------------------------------------------------

  lemma {:induction false} DepictsStays(a: seq<Node>, a': seq<Node>, open: set<nat>, open': set<nat>, but: set<nat>,
      n: nat, t: Tree)
    requires Depicts(a, open, n, t) && Steady(a, a', but) && but <= open
    requires forall m | m in open' :: m in open || m >= |a|
    ensures Depicts(a', open', n, t)
    decreases t
  {
    assert SameShape(a[n], a'[n]);
    forall i | 0 <= i < |t.kids| && t.kids[i].Some?
      ensures Depicts(a', open', a[n].children[i].value, t.kids[i].value)
    {
      DepictsStays(a, a', open, open', but, a[n].children[i].value, t.kids[i].value);
    }
  }

  lemma ShownStays(a: seq<Node>, a': seq<Node>, open: set<nat>, open': set<nat>, but: set<nat>, n: nat, from: nat,
      to: nat)
    requires Shown(a, open, n, from, to) && Steady(a, a', but) && but <= open
    requires forall m | m in open' :: m in open || m >= |a|
    ensures Shown(a', open', n, from, to)
  {
    hide Depicts, Nested, Steady;
    var t :| Depicts(a, open, n, t) && Nested(t) && t.start == from && t.end == to;
    DepictsStays(a, a', open, open', but, n, t);
  }

  lemma WorkStays(a: seq<Node>, a': seq<Node>, open: set<nat>, n: nat, lo: nat, hi: nat, hi': nat)
    requires InWork(a, open, n, lo, hi) && Steady(a, a', {}) && hi <= hi'
    ensures InWork(a', open, n, lo, hi')
  {
    hide Depicts;
    var kids: seq<Option<Tree>> :| KidsDepict(a, open, a[n].children, kids) && Nested(Tree(lo, hi, kids));
    assert SameShape(a[n], a'[n]);
    forall i | 0 <= i < |kids| && kids[i].Some? ensures Depicts(a', open, a'[n].children[i].value, kids[i].value) {
      DepictsStays(a, a', open, open, {}, a[n].children[i].value, kids[i].value);
    }
    assert KidsDepict(a', open, a'[n].children, kids) && Nested(Tree(lo, hi', kids));
  }

  /** Steps that change no node's shape and drop or keep memo entries. */
  lemma TidyStays(inp: Input, s: State, s': State, open: set<nat>, open': set<nat>, but: set<nat>)
    requires Tidy(inp, s, open) && Good(inp, s') && Steady(s.arena, s'.arena, but) && but <= open
    requires forall m | m in open' :: (m in open || m >= |s.arena|) && m < |s'.arena|
    requires forall k | k in s'.memo && s'.memo[k].tree.Some? :: k in s.memo && s'.memo[k] == s.memo[k]
    ensures Tidy(inp, s', open')
  {
    hide Good, Shown, Steady;
    forall k | k in s'.memo && s'.memo[k].tree.Some?
      ensures Shown(s'.arena, open', s'.memo[k].tree.value, k.pos, s'.memo[k].end)
    {
      ShownStays(s.arena, s'.arena, open, open', but, s.memo[k].tree.value, k.pos, s.memo[k].end);
    }
  }

  /** Publishing a finished tree. */
  lemma TidyPublish(inp: Input, s: State, s': State, open: set<nat>, k: Key, e: Entry)
    requires Tidy(inp, s, open) && Good(inp, s') && Steady(s.arena, s'.arena, {})
    requires forall x | x in s'.memo && x != k :: x in s.memo && s'.memo[x] == s.memo[x]
    requires k in s'.memo ==> s'.memo[k] == e
    requires e.tree.Some? ==> Shown(s'.arena, open, e.tree.value, k.pos, e.end)
    ensures Tidy(inp, s', open)
  {
    hide Good, Shown;
    forall x | x in s'.memo && s'.memo[x].tree.Some?
      ensures Shown(s'.arena, open, s'.memo[x].tree.value, x.pos, s'.memo[x].end)
    {
      if x != k { ShownStays(s.arena, s'.arena, open, open, {}, s.memo[x].tree.value, x.pos, s.memo[x].end); }
    }
  }

  lemma BuildsAfter(inp: Input, s: State, s1: State, r: Result, open: set<nat>)
    requires Steady(s.arena, s1.arena, {}) && s1.pos == s.pos && Builds(inp, s1, r, open)
    ensures Builds(inp, s, r, open)
  {
    hide Tidy, Shown;
  }

  lemma ExtendsAfter(inp: Input, s: State, s1: State, r: Result, open: set<nat>, n: nat, lo: nat)
    requires Steady(s.arena, s1.arena, {n}) && Extends(inp, s1, r, open, n, lo)
    ensures Extends(inp, s, r, open, n, lo)
  {
    hide Tidy, InWork;
  }

  // ---- building a node --------------------------------------------------------------------------

  /** Opens a node in front of everything else. */
  lemma Opened(inp: Input, s: State, s1: State, open: set<nat>)
    requires Tidy(inp, s, open) && Good(inp, s1) && s1.memo == s.memo
    requires s1.arena == s.arena + [BLANK.(start := s.pos)] && s1.pos == s.pos
    ensures var n := |s.arena|;
            Tidy(inp, s1, open + {n}) && InWork(s1.arena, open + {n}, n, s.pos, s.pos) && Steady(s.arena, s1.arena, {})
  {
    hide Depicts;
    var n := |s.arena|;
    TidyStays(inp, s, s1, open, open + {n}, {});
    assert KidsDepict(s1.arena, open + {n}, s1.arena[n].children, []) && Nested(Tree(s.pos, s.pos, []));
  }

  /** Adds a finished child behind the others. */
  lemma Pushed(inp: Input, s: State, open: set<nat>, n: nat, lo: nat, hi: nat, child: Option<nat>)
    requires Tidy(inp, s, open) && InWork(s.arena, open, n, lo, hi) && hi <= s.pos
    requires child.Some? ==> exists from :: hi <= from && Shown(s.arena, open, child.value, from, s.pos)
    ensures var s1 := PushChild(s, n, child);
            Good(inp, s1) && Tidy(inp, s1, open) && Steady(s.arena, s1.arena, {n})
                && InWork(s1.arena, open, n, lo, s.pos)
  {
    if child.None? {
      assert Steady(s.arena, s.arena, {});
      WorkStays(s.arena, s.arena, open, n, lo, hi, s.pos);
    } else {
      PushedSome(inp, s, open, n, lo, hi, child.value);
    }
  }

  lemma PushedSome(inp: Input, s: State, open: set<nat>, n: nat, lo: nat, hi: nat, child: nat)
    requires Tidy(inp, s, open) && InWork(s.arena, open, n, lo, hi) && hi <= s.pos
    requires exists from :: hi <= from && Shown(s.arena, open, child, from, s.pos)
    ensures var s1 := PushChild(s, n, Some(child));
            Good(inp, s1) && Tidy(inp, s1, open) && Steady(s.arena, s1.arena, {n})
                && InWork(s1.arena, open, n, lo, s.pos)
  {
    hide Depicts;
    var s1 := PushChild(s, n, Some(child));
    TidyStays(inp, s, s1, open, open, {n});
    var kids: seq<Option<Tree>> :| KidsDepict(s.arena, open, s.arena[n].children, kids) && Nested(Tree(lo, hi, kids));
    var from :| hi <= from && Shown(s.arena, open, child, from, s.pos);
    var t :| Depicts(s.arena, open, child, t) && Nested(t) && t.start == from && t.end == s.pos;
    forall i | 0 <= i < |kids| && kids[i].Some? ensures Depicts(s1.arena, open, s1.arena[n].children[i].value,
        kids[i].value) {
      DepictsStays(s.arena, s1.arena, open, open, {n}, s.arena[n].children[i].value, kids[i].value);
    }
    DepictsStays(s.arena, s1.arena, open, open, {n}, child, t);
    assert KidsDepict(s1.arena, open, s1.arena[n].children, kids + [Some(t)]);
    assert Nested(Tree(lo, s.pos, kids + [Some(t)]));
  }

  /** Closes the node at the current position. */
  lemma Ended(inp: Input, s: State, open: set<nat>, n: nat, lo: nat)
    requires Tidy(inp, s, open) && InWork(s.arena, open, n, lo, s.pos)
    ensures Extends(inp, s, Result(Ok(Some(n)), SetEnd(s, n)), open, n, lo)
  {
    hide Depicts;
    var s1 := SetEnd(s, n);
    TidyStays(inp, s, s1, open, open, {n});
    var kids: seq<Option<Tree>> :| KidsDepict(s.arena, open, s.arena[n].children, kids)
        && Nested(Tree(lo, s.pos, kids));
    forall i | 0 <= i < |kids| && kids[i].Some? ensures Depicts(s1.arena, open, s1.arena[n].children[i].value,
        kids[i].value) {
      DepictsStays(s.arena, s1.arena, open, open, {n}, s.arena[n].children[i].value, kids[i].value);
    }
    assert KidsDepict(s1.arena, open, s1.arena[n].children, kids);
  }

  /** A construct that opened node n, built it, and is done with it. */
  lemma Sealed(inp: Input, s: State, s1: State, r: Result, open: set<nat>, n: nat)
    requires n == |s.arena| && n !in open && Steady(s.arena, s1.arena, {})
    requires Extends(inp, s1, r, open + {n}, n, s.pos) && (r.out.Ok? ==> r.out.tree == Some(n))
    ensures Builds(inp, s, r, open)
  {
    hide Depicts;
    if r.out.Normal() {
      var a := r.st.arena;
      assert Steady(a, a, {});
      TidyStays(inp, r.st, r.st, open + {n}, open, {});
      if r.out.Ok? {
        var kids: seq<Option<Tree>> :| KidsDepict(a, open + {n}, a[n].children, kids)
            && Nested(Tree(s.pos, r.st.pos, kids));
        forall i | 0 <= i < |kids| && kids[i].Some? ensures Depicts(a, open, a[n].children[i].value, kids[i].value) {
          DepictsStays(a, a, open + {n}, open, {}, a[n].children[i].value, kids[i].value);
        }
        WholeNode(a, open, n, Tree(s.pos, r.st.pos, kids));
      }
    }
  }

  lemma WholeNode(a: seq<Node>, open: set<nat>, n: nat, t: Tree)
    requires n < |a| && n !in open && a[n].start == t.start && a[n].end == t.end
        && KidsDepict(a, open, a[n].children, t.kids) && Nested(t)
    ensures Shown(a, open, n, t.start, t.end)
  {
    assert Depicts(a, open, n, t);
  }

  // ---- expressions ------------------------------------------------------------------------------

  lemma {:induction false} TreeExpr(g: Grammar, inp: Input, fuel: nat, skip: bool, e: Expr, s: State, open: set<nat>)
    requires Tidy(inp, s, open)
    ensures Builds(inp, s, Parse(g, inp, fuel, skip, e, s), open)
    decreases fuel, 1, e
  {
    hide Bounded, Shown, Steady, SeqFrom, AltFrom, RepFrom, Call;
    match e
    case Seq(_) => TreeSequence(g, inp, fuel, skip, e, s, open);
    case Alt(_) => TreeAlternation(g, inp, fuel, skip, e, s, open);
    case Rep(_, _, _) => TreeRepetition(g, inp, fuel, skip, e, s, open);
    case Not(child) =>
      TreeExpr(g, inp, fuel, skip, child, s, open);
      Rewound(inp, s, Parse(g, inp, fuel, skip, child, s), true, open);
    case And(child) =>
      TreeExpr(g, inp, fuel, skip, child, s, open);
      Rewound(inp, s, Parse(g, inp, fuel, skip, child, s), false, open);
    case Lexeme(child) => TreeExpr(g, inp, fuel, false, child, s, open);
    case Rule(rule) => TreeCall(g, inp, fuel, skip, rule, s, open);
    case Terminal(p, item) => TreeLeaf(inp, p, item, false, s, open);
    case Token(p, item) => TreeLeaf(inp, p, item, true, s, open);
    case Matcher(fn) => TreeMatch(inp, fn, s, open);
    case _ => Idle(inp, s, Parse(g, inp, fuel, skip, e, s), open);
  }

  /** Steps that touch neither memo nor arena. */
  lemma Idle(inp: Input, s: State, r: Result, open: set<nat>)
    requires Tidy(inp, s, open) && Good(inp, r.st) && r.st.memo == s.memo && r.st.arena == s.arena
    requires r.out.Ok? ==> r.out.tree.None?
    ensures Builds(inp, s, r, open)
  {
  }

  lemma Rewound(inp: Input, s: State, r: Result, negate: bool, open: set<nat>)
    requires Builds(inp, s, r, open) && s.pos <= |inp|
    ensures Builds(inp, s, Predicate(r, negate, s.pos), open)
  {
    hide Shown;
  }

  lemma TreeLeaf(inp: Input, p: Pattern, item: Item, keep: bool, s: State, open: set<nat>)
    requires Tidy(inp, s, open)
    ensures Builds(inp, s, Leaf(inp, p, item, keep, s), open)
  {
    hide Shown, Bounded;
    var r := Leaf(inp, p, item, keep, s);
    if r.out.Ok? && keep {
      TidyStays(inp, s, r.st, open, open, {});
      assert r.st.arena[|s.arena|] == BLANK.(start := s.pos, end := r.st.pos);
      WholeNode(r.st.arena, open, |s.arena|, Tree(s.pos, r.st.pos, []));
    } else {
      Idle(inp, s, r, open);
    }
  }

  lemma TreeMatch(inp: Input, fn: MatchFn, s: State, open: set<nat>)
    requires Tidy(inp, s, open)
    ensures Builds(inp, s, Match(inp, fn, s), open)
  {
    hide Shown, Bounded;
    var r := Match(inp, fn, s);
    if r.out.Ok? {
      TidyStays(inp, s, r.st, open, open, {});
      assert r.st.arena[|s.arena|] == BLANK.(start := s.pos, end := r.st.pos);
      WholeNode(r.st.arena, open, |s.arena|, Tree(s.pos, r.st.pos, []));
    }
  }

  lemma TreeSequence(g: Grammar, inp: Input, fuel: nat, skip: bool, e: Expr, s: State, open: set<nat>)
    requires Tidy(inp, s, open) && e.Seq?
    ensures Builds(inp, s, Parse(g, inp, fuel, skip, e, s), open)
    decreases fuel, 1, e, |e.es| + 1
  {
    hide Bounded, Shown, InWork, Steady, SeqFrom;
    var s1, n := Alloc(s, s.pos, 0), |s.arena|;
    OpenGood(inp, s);
    Opened(inp, s, s1, open);
    TreeSeq(g, inp, fuel, skip, e, 0, n, s1, open + {n}, s.pos);
    var r := SeqFrom(g, inp, fuel, skip, e, 0, n, s1);
    Sealed(inp, s, s1, r, open, n);
    if r.out.Fail? { Rewind(inp, s, r, open); }
  }

  lemma Rewind(inp: Input, s: State, r: Result, open: set<nat>)
    requires Builds(inp, s, r, open) && r.out.Fail? && s.pos <= |inp|
    ensures Builds(inp, s, Result(Fail, r.st.(pos := s.pos)), open)
  {
    hide Shown;
  }

  lemma {:induction false} TreeSeq(g: Grammar, inp: Input, fuel: nat, skip: bool, e: Expr, i: nat, n: nat, s: State,
      open: set<nat>, lo: nat)
    requires Tidy(inp, s, open) && e.Seq? && i <= |e.es| && InWork(s.arena, open, n, lo, s.pos)
    ensures Extends(inp, s, SeqFrom(g, inp, fuel, skip, e, i, n, s), open, n, lo)
    decreases fuel, 1, e, |e.es| - i
  {
    hide Bounded, Shown, Steady, Skip, Parse;
    if i == |e.es| {
      Ended(inp, s, open, n, lo);
    } else {
      if i > 0 { TreeSkip(g, inp, fuel, skip, s, open); } else { Idle(inp, s, Result(Ok(None), s), open); }
      var k := if i > 0 then Skip(g, inp, fuel, skip, s) else Result(Ok(None), s);
      if k.out.Ok? {
        WorkStays(s.arena, k.st.arena, open, n, lo, s.pos, k.st.pos);
        TreeExpr(g, inp, fuel, skip, e.es[i], k.st, open);
        var r := Parse(g, inp, fuel, skip, e.es[i], k.st);
        if r.out.Ok? {
          WorkStays(k.st.arena, r.st.arena, open, n, lo, k.st.pos, k.st.pos);
          PushChildOf(inp, k.st.pos, r, open, n, lo);
          TreeSeq(g, inp, fuel, skip, e, i + 1, n, PushChild(r.st, n, r.out.tree), open, lo);
        }
        var whole := SeqNext(g, inp, fuel, skip, e, i, n, k.st);
        assert SeqFrom(g, inp, fuel, skip, e, i, n, s) == whole;
        SeqSteps(inp, s, k.st, r, whole, open, n, lo);
      }
    }
  }

  /** A child that started at or after hi is pushed behind the others. */
  lemma PushChildOf(inp: Input, hi: nat, r: Result, open: set<nat>, n: nat, lo: nat)
    requires r.out.Ok? && Tidy(inp, r.st, open) && InWork(r.st.arena, open, n, lo, hi) && hi <= r.st.pos
    requires r.out.tree.Some? ==> Shown(r.st.arena, open, r.out.tree.value, hi, r.st.pos)
    ensures var s1 := PushChild(r.st, n, r.out.tree);
            Good(inp, s1) && Tidy(inp, s1, open) && Steady(r.st.arena, s1.arena, {n})
                && InWork(s1.arena, open, n, lo, r.st.pos)
  {
    hide Shown, InWork, Steady;
    Pushed(inp, r.st, open, n, lo, hi, r.out.tree);
  }

  /** A skip, a child, and the rest, seen as one step. */
  lemma SeqSteps(inp: Input, s: State, s1: State, r: Result, whole: Result, open: set<nat>, n: nat, lo: nat)
    requires n < |s.arena| && Steady(s.arena, s1.arena, {}) && Builds(inp, s1, r, open)
    requires if r.out.Ok? then
               n < |r.st.arena| && Steady(r.st.arena, PushChild(r.st, n, r.out.tree).arena, {n})
               && Extends(inp, PushChild(r.st, n, r.out.tree), whole, open, n, lo)
             else whole == r
    ensures Extends(inp, s, whole, open, n, lo)
  {
    hide Tidy, Shown, InWork;
  }

  lemma {:induction false} TreeSkip(g: Grammar, inp: Input, fuel: nat, skip: bool, s: State, open: set<nat>)
    requires Tidy(inp, s, open)
    ensures Builds(inp, s, Skip(g, inp, fuel, skip, s), open)
    decreases fuel, 0, 1
  {
    hide Bounded, Shown, Steady, Call;
    if skip && g.skipper.Some? { TreeCall(g, inp, fuel, false, g.skipper.value, s, open); }
    else { Idle(inp, s, Result(Ok(None), s), open); }
  }

  lemma TreeAlternation(g: Grammar, inp: Input, fuel: nat, skip: bool, e: Expr, s: State, open: set<nat>)
    requires Tidy(inp, s, open) && e.Alt?
    ensures Builds(inp, s, Parse(g, inp, fuel, skip, e, s), open)
    decreases fuel, 1, e, |e.es| + 1
  {
    hide Bounded, Shown, Steady, AltFrom;
    OpenGood(inp, s);
    var s1 := OpenScope(s);
    Idle(inp, s, Result(Ok(None), s1), open);
    TreeAlt(g, inp, fuel, skip, e, 0, s1, open);
    var r := AltFrom(g, inp, fuel, skip, e, 0, s1);
    BuildsAfter(inp, s, s1, r, open);
    ScopeClosed(inp, s, r, open);
  }

  lemma ScopeClosed(inp: Input, s: State, r: Result, open: set<nat>)
    requires Good(inp, r.st) && Builds(inp, s, r, open)
    ensures Builds(inp, s, Result(r.out, CloseScope(r.st, s.scope)), open)
  {
    hide Shown;
  }

  lemma {:induction false} TreeAlt(g: Grammar, inp: Input, fuel: nat, skip: bool, e: Expr, i: nat, s: State,
      open: set<nat>)
    requires Tidy(inp, s, open) && e.Alt? && i <= |e.es|
    ensures Builds(inp, s, AltFrom(g, inp, fuel, skip, e, i, s), open)
    decreases fuel, 1, e, |e.es| - i
  {
    hide Bounded, Shown, Steady, Parse;
    if i == |e.es| {
      Idle(inp, s, Result(Fail, s), open);
    } else {
      TreeExpr(g, inp, fuel, skip, e.es[i], s, open);
      var r := Parse(g, inp, fuel, skip, e.es[i], s);
      if r.out.Ok? {
        Stamped(inp, s, r, i, open);
      } else if r.out.Fail? && !CutSet(r.st) {
        TreeAlt(g, inp, fuel, skip, e, i + 1, r.st, open);
        BuildsAfter(inp, s, r.st, AltFrom(g, inp, fuel, skip, e, i + 1, r.st), open);
      }
    }
  }

  /** Stamping the winner changes no shape. */
  lemma Stamped(inp: Input, s: State, r: Result, i: nat, open: set<nat>)
    requires r.out.Ok? && Builds(inp, s, r, open)
    ensures Builds(inp, s, Result(r.out, Stamp(r.st, r.out.tree, i)), open)
  {
    hide Shown;
    var s1 := Stamp(r.st, r.out.tree, i);
    assert Good(inp, s1);
    TidyStays(inp, r.st, s1, open, open, {});
    if r.out.tree.Some? {
      ShownStays(r.st.arena, s1.arena, open, open, {}, r.out.tree.value, s.pos, r.st.pos);
    }
  }

  // ---- repetitions ------------------------------------------------------------------------------

  lemma TreeRepetition(g: Grammar, inp: Input, fuel: nat, skip: bool, e: Expr, s: State, open: set<nat>)
    requires Tidy(inp, s, open) && e.Rep?
    ensures Builds(inp, s, Parse(g, inp, fuel, skip, e, s), open)
    decreases fuel, 1, e, |inp| + 1
  {
    hide Bounded, Shown, InWork, Steady, RepFrom;
    OpenGood(inp, s);
    var s1, n := Alloc(OpenScope(s), s.pos, 0), |s.arena|;
    Opened(inp, s, s1, open);
    TreeRep(g, inp, fuel, skip, e, 0, s.pos, n, s1, open + {n});
    var r := RepFrom(g, inp, fuel, skip, e, 0, s.pos, n, s1);
    Sealed(inp, s, s1, r, open, n);
    ScopeClosed(inp, s, r, open);
  }

  lemma {:induction false} TreeRep(g: Grammar, inp: Input, fuel: nat, skip: bool, e: Expr, count: nat, start: nat,
      n: nat, s: State, open: set<nat>)
    requires Tidy(inp, s, open) && e.Rep? && start <= s.pos && InWork(s.arena, open, n, start, s.pos)
    ensures Extends(inp, s, RepFrom(g, inp, fuel, skip, e, count, start, n, s), open, n, start)
    decreases fuel, 1, e, |inp| - s.pos, 1
  {
    hide Shown, Steady, Skip, RepTry;
    if count > 0 { TreeSkip(g, inp, fuel, skip, s, open); } else { Idle(inp, s, Result(Ok(None), s), open); }
    var k := if count > 0 then Skip(g, inp, fuel, skip, s) else Result(Ok(None), s);
    if k.out.Ok? {
      var s1 := SetCut(k.st, false);
      Idle(inp, k.st, Result(Ok(None), s1), open);
      WorkStays(s.arena, k.st.arena, open, n, start, s.pos, s.pos);
      TreeRepTry(g, inp, fuel, skip, e, count, start, n, s.pos, s1, open);
      SteadyWeaken(s.arena, s1.arena, n);
      ExtendsAfter(inp, s, s1, RepTry(g, inp, fuel, skip, e, count, start, n, s.pos, s1), open, n, start);
    }
  }

  lemma SteadyWeaken(a: seq<Node>, a': seq<Node>, n: nat)
    requires Steady(a, a', {})
    ensures Steady(a, a', {n})
  {
  }

  lemma {:induction false} TreeRepTry(g: Grammar, inp: Input, fuel: nat, skip: bool, e: Expr, count: nat, start: nat,
      n: nat, last: nat, s: State, open: set<nat>)
    requires Tidy(inp, s, open) && e.Rep? && start <= last <= s.pos && InWork(s.arena, open, n, start, last)
    ensures Extends(inp, s, RepTry(g, inp, fuel, skip, e, count, start, n, last, s), open, n, start)
    decreases fuel, 1, e, |inp| - s.pos, 0
  {
    hide Bounded, Shown, Steady, Parse, RepFrom, RepDone;
    TreeExpr(g, inp, fuel, skip, e.child, s, open);
    var r := Parse(g, inp, fuel, skip, e.child, s);
    if r.out.Ok? {
      WorkStays(s.arena, r.st.arena, open, n, start, last, s.pos);
      PushChildOf(inp, s.pos, r, open, n, start);
      var s1 := PushChild(r.st, n, r.out.tree);
      SteadyChain(s.arena, r.st.arena, s1.arena, n);
      if (e.max > 0 && count + 1 >= e.max) || s1.pos == s.pos {
        TreeRepDone(inp, e, count + 1, false, start, n, s1.pos, s1, open);
        ExtendsAfter(inp, s, s1, RepDone(inp, e, count + 1, false, start, n, s1.pos, s1), open, n, start);
      } else {
        TreeRep(g, inp, fuel, skip, e, count + 1, start, n, s1, open);
        ExtendsAfter(inp, s, s1, RepFrom(g, inp, fuel, skip, e, count + 1, start, n, s1), open, n, start);
      }
    } else if r.out.Fail? {
      WorkStays(s.arena, r.st.arena, open, n, start, last, last);
      TreeRepDone(inp, e, count, true, start, n, last, r.st, open);
      SteadyWeaken(s.arena, r.st.arena, n);
      ExtendsAfter(inp, s, r.st, RepDone(inp, e, count, true, start, n, last, r.st), open, n, start);
    }
  }

  lemma SteadyChain(a: seq<Node>, b: seq<Node>, c: seq<Node>, n: nat)
    requires Steady(a, b, {}) && Steady(b, c, {n})
    ensures Steady(a, c, {n})
  {
  }

  lemma TreeRepDone(inp: Input, e: Expr, count: nat, failed: bool, start: nat, n: nat, last: nat, s: State,
      open: set<nat>)
    requires Tidy(inp, s, open) && e.Rep? && start <= last <= |inp| && n < |s.arena|
        && InWork(s.arena, open, n, start, last)
    requires !failed ==> s.pos == last
    ensures Extends(inp, s, RepDone(inp, e, count, failed, start, n, last, s), open, n, start)
  {
    hide Shown, Steady, Pad, InWork;
    SteadyRefl(s.arena, n);
    if count < e.min {
      FailedAt(inp, s, start, open, n);
    } else if failed {
      var s1 := Pad(s.(pos := last), n, count);
      Padded(inp, s, open, n, start, last, count);
      Ended(inp, s1, open, n, start);
      ExtendsAfter(inp, s, s1, Result(Ok(Some(n)), SetEnd(s1, n)), open, n, start);
    } else {
      Ended(inp, s, open, n, start);
    }
  }

  lemma SteadyRefl(a: seq<Node>, n: nat)
    ensures Steady(a, a, {}) && Steady(a, a, {n})
  {
  }

  lemma FailedAt(inp: Input, s: State, start: nat, open: set<nat>, n: nat)
    requires Tidy(inp, s, open) && start <= |inp|
    ensures Extends(inp, s, Result(Fail, s.(pos := start)), open, n, start)
  {
    hide Shown;
  }

  /** Gaps for iterations without a tree. */
  lemma Padded(inp: Input, s: State, open: set<nat>, n: nat, lo: nat, hi: nat, count: nat)
    requires Tidy(inp, s, open) && InWork(s.arena, open, n, lo, hi) && hi <= |inp|
    ensures var s1 := Pad(s.(pos := hi), n, count);
            && s1.pos == hi && |s1.arena| == |s.arena| && Good(inp, s1) && Tidy(inp, s1, open)
            && Steady(s.arena, s1.arena, {n}) && InWork(s1.arena, open, n, lo, hi)
  {
    hide Depicts;
    var s1 := Pad(s.(pos := hi), n, count);
    TidyStays(inp, s, s1, open, open, {n});
    var kids: seq<Option<Tree>> :| KidsDepict(s.arena, open, s.arena[n].children, kids) && Nested(Tree(lo, hi, kids));
    var kids1 := if count <= |kids| then kids[..count] else kids + seq(count - |kids|, _ => None);
    forall i | 0 <= i < |kids1| && kids1[i].Some? ensures Depicts(s1.arena, open, s1.arena[n].children[i].value,
        kids1[i].value) {
      DepictsStays(s.arena, s1.arena, open, open, {n}, s.arena[n].children[i].value, kids[i].value);
    }
    assert KidsDepict(s1.arena, open, s1.arena[n].children, kids1);
    assert Nested(Tree(lo, hi, kids1));
  }

  // ---- rules ------------------------------------------------------------------------------------

  lemma {:induction false} TreeCall(g: Grammar, inp: Input, fuel: nat, skip: bool, rule: RuleId, s: State,
      open: set<nat>)
    requires Tidy(inp, s, open)
    ensures Builds(inp, s, Call(g, inp, fuel, skip, rule, s), open)
    decreases fuel, 0, 0
  {
    hide Bounded, Shown, Steady, Grow, Complete, Reject;
    var k := Key(s.pos, rule);
    SteadyRefl(s.arena, 0);
    if k !in s.memo && fuel > 0 && rule in g.rules {
      var s1 := Enter(s, k);
      EnterTidy(inp, s, k, open);
      TreeGrow(g, inp, fuel - 1, skip, k, k.pos, Fail, s1, open);
      var r := Grow(g, inp, fuel - 1, skip, k, k.pos, Fail, s1);
      BuildsAfter(inp, s, s1, r, open);
      TreeFinish(g.rules[rule], inp, k, s, s1, r, open);
    }
  }

  lemma EnterTidy(inp: Input, s: State, k: Key, open: set<nat>)
    requires Tidy(inp, s, open) && k.pos == s.pos
    ensures Good(inp, Enter(s, k)) && Tidy(inp, Enter(s, k), open)
  {
    hide Shown;
  }

  lemma TreeFinish(def: RuleDef, inp: Input, k: Key, s: State, s1: State, r: Result, open: set<nat>)
    requires s1.lr != [] && s1.pos == s.pos == k.pos && Framed(inp, s1, r) && Builds(inp, s, r, open)
    ensures Builds(inp, s, Finish(def, inp, k, s1, r), open)
  {
    hide Shown, Steady, Complete, Reject;
    if r.out.Normal() {
      var s2 := Leave(r.st);
      if r.out.Ok? {
        TreeComplete(def, inp, k, r.out.tree, s2, open);
        BuildsOn(inp, s, s2, Complete(def, inp, k, r.out.tree, s2), open);
      } else {
        TreeReject(def, inp, k, s2, open);
        BuildsOn(inp, s, s2, Reject(def, inp, k, s2), open);
      }
    }
  }

  /** A step that starts over from the position of `s`. */
  lemma BuildsOn(inp: Input, s: State, s1: State, r: Result, open: set<nat>)
    requires Steady(s.arena, s1.arena, {}) && Builds(inp, s1.(pos := s.pos), r, open)
    ensures Builds(inp, s, r, open)
  {
    hide Tidy, Shown;
  }

  /** However often the seed grows, and even if the last iteration regressed. */
  lemma {:induction false} TreeGrow(g: Grammar, inp: Input, fuel: nat, skip: bool, k: Key, last: nat, best: Outcome,
      s: State, open: set<nat>)
    requires Tidy(inp, s, open) && k.rule in g.rules && s.lr != [] && k.pos <= last <= |inp| && best.Normal()
    requires (best.Ok? ==> TreeIn(s.arena, best.tree)) && (best.Fail? ==> last == k.pos)
    requires best.Ok? && best.tree.Some? ==> Shown(s.arena, open, best.tree.value, k.pos, last)
    ensures Builds(inp, s.(pos := k.pos), Grow(g, inp, fuel, skip, k, last, best, s), open)
    decreases fuel, 2, |inp| - last
  {
    hide Shown, Steady, Parse, Settle, Bounded;
    var s1 := Restart(inp, k, best, s);
    RestartTidy(inp, k, best, s, open);
    TreeExpr(g, inp, fuel, skip, g.rules[k.rule].body, s1, open);
    var r := Parse(g, inp, fuel, skip, g.rules[k.rule].body, s1);
    if r.out.Normal() {
      if best.Ok? && best.tree.Some? { ShownStays(s.arena, r.st.arena, open, open, {}, best.tree.value, k.pos, last); }
      if r.out.Ok? && r.st.pos > last && k in r.st.memo {
        var e := Entry(true, r.st.pos, r.out.tree);
        var s2 := r.st.(memo := r.st.memo[k := e]);
        SeedGood(inp, r.st, k, e);
        SteadyRefl(r.st.arena, 0);
        TidyPublish(inp, r.st, s2, open, k, e);
        TreeGrow(g, inp, fuel, skip, k, r.st.pos, r.out, s2, open);
        BuildsOn(inp, s.(pos := k.pos), s2, Grow(g, inp, fuel, skip, k, r.st.pos, r.out, s2), open);
      } else if r.out.Ok? && r.st.pos <= last {
        TreeSettle(inp, k, last, if best.Ok? then best else r.out, r.st, open);
        BuildsOn(inp, s.(pos := k.pos), r.st, Settle(inp, k, last, if best.Ok? then best else r.out, r.st), open);
      } else if r.out.Fail? {
        MovedTidy(inp, r.st, last, open);
      }
    }
  }

  lemma RestartTidy(inp: Input, k: Key, best: Outcome, s: State, open: set<nat>)
    requires Tidy(inp, s, open) && s.lr != [] && k.pos <= |inp|
    ensures Tidy(inp, Restart(inp, k, best, s), open) && Steady(s.arena, Restart(inp, k, best, s).arena, {})
  {
    hide Shown;
  }

  lemma MovedTidy(inp: Input, s: State, p: nat, open: set<nat>)
    requires Tidy(inp, s, open) && p <= |inp|
    ensures Tidy(inp, s.(pos := p), open)
  {
    hide Shown;
  }

  lemma TreeSettle(inp: Input, k: Key, last: nat, best: Outcome, s: State, open: set<nat>)
    requires Tidy(inp, s, open) && k.pos <= last <= |inp| && best.Ok? && TreeIn(s.arena, best.tree)
    requires best.tree.Some? ==> Shown(s.arena, open, best.tree.value, k.pos, last)
    ensures Builds(inp, s.(pos := k.pos), Settle(inp, k, last, best, s), open)
  {
    hide Shown, Bounded;
    var r := Settle(inp, k, last, best, s);
    assert Good(inp, r.st) && Steady(s.arena, r.st.arena, {});
    TidyPublish(inp, s, r.st, open, k, Entry(true, last, best.tree));
  }

  /** Wrapping gives a new node around the body's; adopting leaves the body's span and children alone. */
  lemma TreeComplete(def: RuleDef, inp: Input, k: Key, tree: Option<nat>, s: State, open: set<nat>)
    requires Tidy(inp, s, open) && k.pos <= s.pos && TreeIn(s.arena, tree)
    requires tree.Some? ==> Shown(s.arena, open, tree.value, k.pos, s.pos)
    ensures Builds(inp, s.(pos := k.pos), Complete(def, inp, k, tree, s), open)
  {
    hide Shown, Bounded;
    var r := Complete(def, inp, k, tree, s);
    var t := r.out.tree.value;
    var a := r.st.arena;
    assert Good(inp, r.st);
    assert Steady(s.arena, a, {}) by { FinishedSteady(def, inp, k, tree, s, open); }
    if tree.Some? {
      ShownStays(s.arena, a, open, open, {}, tree.value, k.pos, s.pos);
      if def.hasAction {
        assert a[t].children == [tree] && a[t].start == k.pos && a[t].end == s.pos;
        Wrapped(a, open, t, tree.value, k.pos, s.pos);
      }
    } else {
      assert a[t].children == [] && a[t].start == k.pos && a[t].end == s.pos;
      WholeNode(a, open, t, Tree(k.pos, s.pos, []));
    }
    TidyPublish(inp, s, r.st, open, k, Entry(true, s.pos, Some(t)));
  }

  lemma FinishedSteady(def: RuleDef, inp: Input, k: Key, tree: Option<nat>, s: State, open: set<nat>)
    requires Good(inp, s) && k.pos <= s.pos && TreeIn(s.arena, tree)
    requires tree.Some? ==> Shown(s.arena, open, tree.value, k.pos, s.pos)
    ensures Steady(s.arena, Complete(def, inp, k, tree, s).st.arena, {})
  {
    hide Bounded;
  }

  lemma Wrapped(a: seq<Node>, open: set<nat>, n: nat, child: nat, from: nat, to: nat)
    requires n < |a| && n !in open && a[n].start == from && a[n].end == to && a[n].children == [Some(child)]
        && from <= to
    requires Shown(a, open, child, from, to)
    ensures Shown(a, open, n, from, to)
  {
    hide Depicts;
    var t :| Depicts(a, open, child, t) && Nested(t) && t.start == from && t.end == to;
    var whole := Tree(from, to, [Some(t)]);
    assert KidsDepict(a, open, a[n].children, whole.kids) && Nested(whole);
    WholeNode(a, open, n, whole);
  }

  lemma TreeReject(def: RuleDef, inp: Input, k: Key, s: State, open: set<nat>)
    requires Tidy(inp, s, open) && k.pos <= |inp|
    ensures Builds(inp, s.(pos := k.pos), Reject(def, inp, k, s), open)
  {
    hide Shown, Bounded;
    var r := Reject(def, inp, k, s);
    assert Good(inp, r.st) && Steady(s.arena, r.st.arena, {});
    TidyPublish(inp, s, r.st, open, k, Entry(r.out.Ok?, r.st.pos, None));
  }

  // ---- whole parses -----------------------------------------------------------------------------

  lemma FreshIsTidy(inp: Input)
    ensures Tidy(inp, FRESH, {})
  {
  }

  /** For every grammar, whatever was parsed before on the context: a returned node stands for a finite,
      well-nested tree with exactly the span matched, and every tree that was finished before is the same
      afterwards. */
  lemma TreesAreSound(g: Grammar, inp: Input, fuel: nat, skip: bool, rule: RuleId, s: State)
    requires Tidy(inp, s, {})
    ensures var r := Call(g, inp, fuel, skip, rule, s);
            r.out.Normal() ==>
              && Tidy(inp, r.st, {})
              && (r.out.Ok? && r.out.tree.Some? ==> Shown(r.st.arena, {}, r.out.tree.value, s.pos, r.st.pos))
              && forall n, t | Depicts(s.arena, {}, n, t) :: Depicts(r.st.arena, {}, n, t)
  {
    hide Call, Shown, Depicts, Bounded;
    TreeCall(g, inp, fuel, skip, rule, s, {});
    var r := Call(g, inp, fuel, skip, rule, s);
    if r.out.Normal() {
      forall n, t | Depicts(s.arena, {}, n, t) ensures Depicts(r.st.arena, {}, n, t) {
        DepictsStays(s.arena, r.st.arena, {}, {}, {}, n, t);
      }
    }
  }

  /** The same for a run, leading skip included. */
  lemma TreesOfRun(g: Grammar, inp: Input, fuel: nat, start: RuleId, s: State)
    requires Tidy(inp, s, {})
    ensures var r := Run(g, inp, fuel, start, s);
            r.out.Normal() ==>
              && Tidy(inp, r.st, {})
              && (r.out.Ok? && r.out.tree.Some? ==>
                    exists i: nat | s.pos <= i <= |inp| :: Shown(r.st.arena, {}, r.out.tree.value, i, r.st.pos))
              && forall n, t | Depicts(s.arena, {}, n, t) :: Depicts(r.st.arena, {}, n, t)
  {
    hide Call, Tidy, Shown, Depicts;
    TidyIsGood(inp, s);
    if g.skipper.Some? { TreesAreSound(g, inp, fuel, false, g.skipper.value, s); }
    var k := Skip(g, inp, fuel, g.skipper.Some?, s);
    if k.out.Ok? { TreesAreSound(g, inp, fuel, g.skipper.Some?, start, k.st); }
  }

  lemma TidyIsGood(inp: Input, s: State)
    requires Tidy(inp, s, {})
    ensures Good(inp, s)
  {
  }

  /** A node stands for at most one tree. */
  lemma {:induction false} TreeIsUnique(a: seq<Node>, open: set<nat>, n: nat, t: Tree, t': Tree)
    requires Depicts(a, open, n, t) && Depicts(a, open, n, t')
    ensures t == t'
    decreases t
  {
    forall i | 0 <= i < |t.kids| ensures t.kids[i] == t'.kids[i] {
      if t.kids[i].Some? { TreeIsUnique(a, open, a[n].children[i].value, t.kids[i].value, t'.kids[i].value); }
    }
    assert t.kids == t'.kids;
  }
}
