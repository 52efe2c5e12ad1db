/** The parsing machine as a function on states: a packrat memo, seed-grow left recursion, cut
    scopes with eviction, an auto-skipper and recovery.

    `fuel` bounds the number of nested first-time rule entries; a run that needs more, or that enters
    a rule without a body, is `Stuck`.  Everything else follows the code branch by branch.  Two things
    the code keeps in mutable stacks are structured here: the innermost cut scope is a value that
    alternation and repetition open and close, and auto-skip is an argument. */
module Machine {
  import opened Grammars

  datatype Key = Key(pos: nat, rule: RuleId)

  /** A memo entry: the cached result and where it ends. */
  datatype Entry = Entry(ok: bool, end: nat, tree: Option<nat>)

  /** A parse-tree node; children are arena indices, or None for an iteration without a tree. */
  datatype Node = Node(
    name: string,
    start: nat,
    end: nat,
    children: seq<Option<nat>>,
    producer: Option<RuleId>,
    winner: Option<nat>)

  datatype CutRecord = CutRecord(pos: nat, cut: bool)

  datatype Diagnostic = Diagnostic(pos: nat, item: Item)

  datatype Outcome = Ok(tree: Option<nat>) | Fail | Abort | Stuck
  {
    predicate Normal() { Ok? || Fail? }
  }

  datatype State = State(
    pos: nat,
    memo: map<Key, Entry>,
    lr: seq<Key>,             // rules being evaluated, innermost last
    heads: set<nat>,          // indices into lr of the frames that were re-entered
    scope: Option<CutRecord>, // the innermost cut scope
    arena: seq<Node>,
    failures: set<Failure>,   // every failure event recorded so far
    diags: seq<Diagnostic>,
    evals: nat)               // rule bodies evaluated so far

  datatype Result = Result(out: Outcome, st: State)

  const BLANK := Node("", 0, 0, [], None, None)

  // ---- state invariant and frame contract -------------------------------------------------------

  ghost predicate TreeIn(arena: seq<Node>, tree: Option<nat>) {
    tree.Some? ==> tree.value < |arena|
  }

  ghost predicate EntryGood(inp: Input, arena: seq<Node>, k: Key, e: Entry) {
    k.pos <= e.end <= |inp| && (!e.ok ==> e.end == k.pos) && TreeIn(arena, e.tree)
  }

  ghost predicate Bounded(inp: Input, s: State) {
    && (forall k | k in s.memo :: EntryGood(inp, s.arena, k, s.memo[k]))
    && (forall h | h in s.heads :: h < |s.lr|)
  }

  ghost predicate Good(inp: Input, s: State) {
    s.pos <= |inp| && Bounded(inp, s)
  }

  /** What every step keeps, whatever the grammar: positions stay in the input, the left-recursion
      stack is balanced on a normal return, the cut stack also on an abort, and nothing recorded is
      ever lost. */
  ghost predicate Kept(inp: Input, s: State, r: Result) {
    && Good(inp, r.st)
    && (r.out.Normal() ==> r.st.lr == s.lr && s.heads <= r.st.heads)
    && (s.scope.Some? <==> r.st.scope.Some?)
    && |s.arena| <= |r.st.arena|
    && s.failures <= r.st.failures
    && s.diags <= r.st.diags
  }

  /** The contract of every expression: a success ends at or after its start, a failure consumes nothing. */
  ghost predicate Framed(inp: Input, s: State, r: Result) {
    && Kept(inp, s, r)
    && (r.out.Ok? ==> s.pos <= r.st.pos && TreeIn(r.st.arena, r.out.tree))
    && (r.out.Fail? ==> r.st.pos == s.pos)
  }

  // ---- primitive operations of the context ------------------------------------------------------

  function Record(s: State, evs: set<Failure>): State {
    s.(failures := s.failures + evs)
  }

  function Alloc(s: State, start: nat, end: nat): State {
    s.(arena := s.arena + [BLANK.(start := start, end := end)])
  }

  function PushChild(s: State, n: nat, child: Option<nat>): State
    requires n < |s.arena|
  {
    if child.None? then s
    else s.(arena := s.arena[n := s.arena[n].(children := s.arena[n].children + [child])])
  }

  function SetEnd(s: State, n: nat): State
    requires n < |s.arena|
  {
    s.(arena := s.arena[n := s.arena[n].(end := s.pos)])
  }

  /** `resize(count)`: pads with null children, never truncates here. */
  function Pad(s: State, n: nat, count: nat): State
    requires n < |s.arena|
  {
    var kids := s.arena[n].children;
    s.(arena := s.arena[n := s.arena[n].(children :=
      if count <= |kids| then kids[..count] else kids + seq(count - |kids|, _ => None))])
  }

  predicate CutSet(s: State) {
    s.scope.Some? && s.scope.value.cut
  }

  function SetCut(s: State, c: bool): State {
    if s.scope.None? then s else s.(scope := Some(CutRecord(s.pos, c)))
  }

  function OpenScope(s: State): State {
    s.(scope := Some(CutRecord(s.pos, false)))
  }

  /** Leaves the innermost scope; a committed scope evicts the memo rows before its cut. */
  function CloseScope(s: State, outer: Option<CutRecord>): State {
    if CutSet(s) then
      s.(scope := outer, memo := map k | k in s.memo && k.pos >= s.scope.value.pos :: s.memo[k])
    else
      s.(scope := outer)
  }

  function Update(memo: map<Key, Entry>, k: Key, e: Entry): map<Key, Entry> {
    if k in memo then memo[k := e] else memo
  }

  /** Index of the innermost frame for `k`, if any. */
  function TopFrame(lr: seq<Key>, k: Key): (i: Option<nat>)
    ensures i.Some? ==> i.value < |lr| && lr[i.value] == k && forall j | i.value < j < |lr| :: lr[j] != k
    ensures i.None? <==> k !in lr
  {
    if lr == [] then None
    else if lr[|lr| - 1] == k then Some(|lr| - 1)
    else assert lr == lr[..|lr| - 1] + [lr[|lr| - 1]]; TopFrame(lr[..|lr| - 1], k)
  }

  function MarkHead(s: State, k: Key): State {
    var i := TopFrame(s.lr, k);
    if i.Some? then s.(heads := s.heads + {i.value}) else s
  }

  /** Drops the entries at `pos` except `keep` and the rules still being evaluated there. */
  function ClearSiblings(s: State, pos: nat, keep: RuleId): State {
    s.(memo := map k | k in s.memo && (k.pos == pos ==> k.rule == keep || k in s.lr) :: s.memo[k])
  }

  /** First position at or after `i` holding a sync element, or the end of the input. */
  function Scan(inp: Input, isSync: Sym -> bool, i: nat): (j: nat)
    requires i <= |inp|
    ensures i <= j <= |inp|
    ensures forall x | i <= x < j :: !isSync(inp[x])
    ensures j < |inp| ==> isSync(inp[j])
    decreases |inp| - i
  {
    if i < |inp| && !isSync(inp[i]) then Scan(inp, isSync, i + 1) else i
  }

  // ---- expressions ------------------------------------------------------------------------------

  function Parse(g: Grammar, inp: Input, fuel: nat, skip: bool, e: Expr, s: State): (r: Result)
    requires Good(inp, s)
    ensures Framed(inp, s, r)
    decreases fuel, 1, e
  {
    match e
    case Empty => Result(Ok(None), s)
    case Terminal(p, item) => Leaf(inp, p, item, false, s)
    case Token(p, item) => Leaf(inp, p, item, true, s)
    case TerminalSeq(syms, item) =>
      if StandsAt(inp, syms, s.pos) then Result(Ok(None), s.(pos := s.pos + |syms|))
      else Result(Fail, Record(s, {Failure(s.pos, item)}))
    case Matcher(fn) => Match(inp, fn, s)
    case Seq(_) =>
      OpenGood(inp, s);
      var r := SeqFrom(g, inp, fuel, skip, e, 0, |s.arena|, Alloc(s, s.pos, 0));
      RewindFramed(inp, s, r);
      if r.out.Fail? then Result(Fail, r.st.(pos := s.pos)) else r
    case Alt(_) =>
      OpenGood(inp, s);
      var r := AltFrom(g, inp, fuel, skip, e, 0, OpenScope(s));
      CloseFramed(inp, s, OpenScope(s), r);
      Result(r.out, CloseScope(r.st, s.scope))
    case Rep(_, _, _) =>
      OpenGood(inp, s);
      var r := RepFrom(g, inp, fuel, skip, e, 0, s.pos, |s.arena|, Alloc(OpenScope(s), s.pos, 0));
      CloseFramed(inp, s, Alloc(OpenScope(s), s.pos, 0), r);
      Result(r.out, CloseScope(r.st, s.scope))
    case Not(child) => Predicate(Parse(g, inp, fuel, skip, child, s), true, s.pos)
    case And(child) => Predicate(Parse(g, inp, fuel, skip, child, s), false, s.pos)
    case Cut => Result(Ok(None), SetCut(s, true))
    case Lexeme(child) => Parse(g, inp, fuel, false, child, s)
    case Rule(rule) => Call(g, inp, fuel, skip, rule, s)
  }

  /** A terminal, or a token, which also builds a node around the one element it matched. */
  function Leaf(inp: Input, p: Pattern, item: Item, keep: bool, s: State): (r: Result)
    requires Good(inp, s)
    ensures Framed(inp, s, r)
  {
    if s.pos < |inp| && p.Accepts(inp[s.pos]) then
      var s1 := s.(pos := s.pos + 1);
      if keep then Result(Ok(Some(|s.arena|)), Alloc(s1, s.pos, s.pos + 1)) else Result(Ok(None), s1)
    else
      Result(Fail, Record(s, {Failure(s.pos, item)}))
  }

  function Match(inp: Input, fn: MatchFn, s: State): (r: Result)
    requires Good(inp, s)
    ensures Framed(inp, s, r)
  {
    var end := fn(inp, s.pos);
    if end.Some? then Result(Ok(Some(|s.arena|)), Alloc(s.(pos := end.value), s.pos, end.value))
    else Result(Fail, s)
  }

  /** Rewinds after a lookahead; an abort passes through. */
  function Predicate(r: Result, negate: bool, start: nat): Result {
    match r.out
    case Ok(_) => Result(if negate then Fail else Ok(None), r.st.(pos := start))
    case Fail => Result(if negate then Ok(None) else Fail, r.st.(pos := start))
    case Abort => r
    case Stuck => r
  }

  /** Runs the skipper, with auto-skip off; whether it matched does not matter. */
  function Skip(g: Grammar, inp: Input, fuel: nat, skip: bool, s: State): (r: Result)
    requires Good(inp, s)
    ensures Framed(inp, s, r)
    ensures !r.out.Fail? && (r.out.Ok? ==> r.out.tree.None?)
    decreases fuel, 0, 1
  {
    if skip && g.skipper.Some? then
      var r := Call(g, inp, fuel, false, g.skipper.value, s);
      if r.out.Normal() then Result(Ok(None), r.st) else r
    else
      Result(Ok(None), s)
  }

  function SeqFrom(g: Grammar, inp: Input, fuel: nat, skip: bool, e: Expr, i: nat, n: nat, s: State): (r: Result)
    requires Good(inp, s) && e.Seq? && i <= |e.es| && n < |s.arena|
    ensures Kept(inp, s, r)
    ensures r.out.Ok? ==> s.pos <= r.st.pos && r.out.tree == Some(n)
    decreases fuel, 1, e, |e.es| - i
  {
    if i == |e.es| then Result(Ok(Some(n)), SetEnd(s, n))
    else
      var k := if i > 0 then Skip(g, inp, fuel, skip, s) else Result(Ok(None), s);
      if k.out.Ok? then SeqNext(g, inp, fuel, skip, e, i, n, k.st) else k
  }

  function SeqNext(g: Grammar, inp: Input, fuel: nat, skip: bool, e: Expr, i: nat, n: nat, s: State): (r: Result)
    requires Good(inp, s) && e.Seq? && i < |e.es| && n < |s.arena|
    ensures Kept(inp, s, r)
    ensures r.out.Ok? ==> s.pos <= r.st.pos && r.out.tree == Some(n)
    decreases fuel, 1, e, |e.es| - i, 0
  {
    var r := Parse(g, inp, fuel, skip, e.es[i], s);
    if r.out.Ok? then SeqFrom(g, inp, fuel, skip, e, i + 1, n, PushChild(r.st, n, r.out.tree)) else r
  }

  function AltFrom(g: Grammar, inp: Input, fuel: nat, skip: bool, e: Expr, i: nat, s: State): (r: Result)
    requires Good(inp, s) && e.Alt? && i <= |e.es|
    ensures Framed(inp, s, r)
    decreases fuel, 1, e, |e.es| - i
  {
    if i == |e.es| then Result(Fail, s)
    else
      var r := Parse(g, inp, fuel, skip, e.es[i], s);
      match r.out
      case Ok(t) => Result(r.out, Stamp(r.st, t, i))
      case Fail => if CutSet(r.st) then Result(Abort, r.st) else AltFrom(g, inp, fuel, skip, e, i + 1, r.st)
      case Abort => r
      case Stuck => r
  }

  /** Records the winning branch on the node it produced. */
  function Stamp(s: State, tree: Option<nat>, i: nat): State {
    if tree.Some? && tree.value < |s.arena| then
      s.(arena := s.arena[tree.value := s.arena[tree.value].(winner := Some(i))])
    else s
  }

  /** `count` iterations have matched; s.pos is where the last one ended. */
  function RepFrom(g: Grammar, inp: Input, fuel: nat, skip: bool, e: Expr, count: nat, start: nat, n: nat,
      s: State): (r: Result)
    requires Good(inp, s) && e.Rep? && start <= s.pos && n < |s.arena|
    ensures Kept(inp, s, r)
    ensures r.out.Ok? ==> start <= r.st.pos && r.out.tree == Some(n)
    ensures r.out.Fail? ==> r.st.pos == start
    decreases fuel, 1, e, |inp| - s.pos, 1
  {
    var k := if count > 0 then Skip(g, inp, fuel, skip, s) else Result(Ok(None), s);
    if k.out.Ok? then RepTry(g, inp, fuel, skip, e, count, start, n, s.pos, SetCut(k.st, false)) else k
  }

  function RepTry(g: Grammar, inp: Input, fuel: nat, skip: bool, e: Expr, count: nat, start: nat, n: nat, last: nat,
      s: State): (r: Result)
    requires Good(inp, s) && e.Rep? && start <= last <= s.pos && n < |s.arena|
    ensures Kept(inp, s, r)
    ensures r.out.Ok? ==> start <= r.st.pos && r.out.tree == Some(n)
    ensures r.out.Fail? ==> r.st.pos == start
    decreases fuel, 1, e, |inp| - s.pos, 0
  {
    var r := Parse(g, inp, fuel, skip, e.child, s);
    match r.out
    case Ok(t) =>
      var s1 := PushChild(r.st, n, t);
      if (e.max > 0 && count + 1 >= e.max) || s1.pos == s.pos then
        RepDone(inp, e, count + 1, false, start, n, s1.pos, s1)
      else
        RepFrom(g, inp, fuel, skip, e, count + 1, start, n, s1)
    case Fail => RepDone(inp, e, count, true, start, n, last, r.st)
    case Abort => r
    case Stuck => r
  }

  /** The end of a repetition after `count` matches, the last of which ended at `last`. */
  function RepDone(inp: Input, e: Expr, count: nat, failed: bool, start: nat, n: nat, last: nat, s: State): (r: Result)
    requires Good(inp, s) && e.Rep? && n < |s.arena| && start <= last <= |inp|
    requires !failed ==> s.pos == last
    ensures Kept(inp, s, r)
    ensures r.out.Ok? ==> r.st.pos == last && r.out.tree == Some(n)
    ensures r.out.Fail? ==> r.st.pos == start
  {
    if count < e.min then Result(Fail, s.(pos := start))
    else
      var s1 := if failed then Pad(s.(pos := last), n, count) else s;
      if e.max < 0 && failed && CutSet(s) then Result(Abort, s1)
      else Result(Ok(Some(n)), SetEnd(s1, n))
  }

  // ---- rules ------------------------------------------------------------------------------------

  function FromEntry(e: Entry): Outcome {
    if e.ok then Ok(e.tree) else Fail
  }

  function Enter(s: State, k: Key): State {
    s.(memo := s.memo[k := Entry(false, k.pos, None)], lr := s.lr + [k])
  }

  function Leave(s: State): State
    requires s.lr != []
  {
    s.(lr := s.lr[..|s.lr| - 1], heads := s.heads - {|s.lr| - 1})
  }

  function Call(g: Grammar, inp: Input, fuel: nat, skip: bool, rule: RuleId, s: State): (r: Result)
    requires Good(inp, s)
    ensures Framed(inp, s, r)
    decreases fuel, 0, 0
  {
    var k := Key(s.pos, rule);
    if k in s.memo then
      Result(FromEntry(s.memo[k]), MarkHead(s, k).(pos := s.memo[k].end))
    else if fuel == 0 || rule !in g.rules then
      Result(Stuck, s)
    else
      Finish(g.rules[rule], inp, k, Enter(s, k), Grow(g, inp, fuel - 1, skip, k, k.pos, Fail, Enter(s, k)))
  }

  /** Leaves the rule entered as `s` once its body was grown to `r`. */
  function Finish(def: RuleDef, inp: Input, k: Key, s: State, r: Result): (r': Result)
    requires s.lr != [] && s.pos == k.pos && Framed(inp, s, r)
    ensures Framed(inp, s.(lr := s.lr[..|s.lr| - 1], heads := s.heads - {|s.lr| - 1}), r')
  {
    if r.out.Ok? then Complete(def, inp, k, r.out.tree, Leave(r.st))
    else if r.out.Fail? then Reject(def, inp, k, Leave(r.st))
    else r
  }

  /** The state in which the next iteration of the seed-grow loop runs the body. */
  function Restart(inp: Input, k: Key, best: Outcome, s: State): (s1: State)
    requires Good(inp, s) && s.lr != [] && k.pos <= |inp|
    ensures Kept(inp, s, Result(Fail, s1)) && s1.pos == k.pos && s1.arena == s.arena
  {
    var s0 := s.(pos := k.pos, evals := s.evals + 1);
    if |s.lr| - 1 in s.heads && best.Ok? then ClearSiblings(s0, k.pos, k.rule) else s0
  }

  /** The seed-grow loop: `best` is the longest result so far and ends at `last`. */
  function Grow(g: Grammar, inp: Input, fuel: nat, skip: bool, k: Key, last: nat, best: Outcome, s: State): (r: Result)
    requires Good(inp, s) && k.rule in g.rules && s.lr != []
    requires k.pos <= last <= |inp| && best.Normal()
    requires best.Ok? ==> TreeIn(s.arena, best.tree)
    requires best.Fail? ==> last == k.pos
    ensures Framed(inp, s.(pos := k.pos), r)
    decreases fuel, 2, |inp| - last
  {
    var r := Parse(g, inp, fuel, skip, g.rules[k.rule].body, Restart(inp, k, best, s));
    match r.out
    case Ok(t) =>
      if r.st.pos > last then
        if k in r.st.memo then
          Grow(g, inp, fuel, skip, k, r.st.pos, r.out, r.st.(memo := r.st.memo[k := Entry(true, r.st.pos, t)]))
        else r
      else
        Settle(inp, k, last, if best.Ok? then best else r.out, r.st)
    case Fail => Result(best, r.st.(pos := last))
    case Abort => r
    case Stuck => r
  }

  /** The fixed point: the longest result is the answer, and is published once more. */
  function Settle(inp: Input, k: Key, last: nat, best: Outcome, s: State): (r: Result)
    requires Good(inp, s) && k.pos <= last <= |inp| && best.Ok? && TreeIn(s.arena, best.tree)
    ensures Framed(inp, s.(pos := k.pos), r)
  {
    Result(best, s.(pos := last, memo := Update(s.memo, k, Entry(true, last, best.tree))))
  }

  /** A body that matched from k.pos to s.pos: wrap its node if the rule has an action, else adopt it. */
  function Complete(def: RuleDef, inp: Input, k: Key, tree: Option<nat>, s: State): (r: Result)
    requires Good(inp, s) && k.pos <= s.pos && TreeIn(s.arena, tree)
    ensures Framed(inp, s.(pos := k.pos), r)
  {
    var s1 := if def.hasAction || tree.None? then Alloc(s, k.pos, s.pos) else s;
    var t := if def.hasAction || tree.None? then |s.arena| else tree.value;
    var node := s1.arena[t];
    var node' := node.(
      name := def.name,
      start := k.pos,
      end := s.pos,
      producer := if node.producer.Some? then node.producer else Some(k.rule),
      children := if def.hasAction && tree.Some? then [tree] else node.children);
    Result(Ok(Some(t)), s1.(
      arena := s1.arena[t := node'],
      memo := Update(s1.memo, k, Entry(true, s.pos, Some(t)))))
  }

  /** A body that failed: report it, then recover past the next sync element if that is configured
      and no cut is committed in the enclosing scope. */
  function Reject(def: RuleDef, inp: Input, k: Key, s: State): (r: Result)
    requires Good(inp, s) && k.pos <= |inp|
    ensures Framed(inp, s.(pos := k.pos), r)
  {
    var s1 := Record(s, def.Report(k.pos));
    if def.recovery.Some? && !CutSet(s1) then
      var sync := Scan(inp, def.recovery.value.isSync, k.pos);
      var resume := if sync < |inp| then sync + 1 else |inp|;
      var tag := if def.recovery.value.tag == "" then def.name else def.recovery.value.tag;
      Result(Ok(None), s1.(
        pos := resume,
        diags := s1.diags + [Diagnostic(k.pos, Item(RuleLabel, tag))],
        memo := Update(s1.memo, k, Entry(true, resume, None))))
    else
      Result(Fail, s1.(pos := k.pos, memo := Update(s1.memo, k, Entry(false, k.pos, None))))
  }

  // ---- a whole parse ----------------------------------------------------------------------------

  /** The state of a new context. */
  const FRESH := State(0, map[], [], {}, None, [], {}, [], 0)

  /** Parses rule `start` at the current position: the skipper runs once in front of it. */
  function Run(g: Grammar, inp: Input, fuel: nat, start: RuleId, s: State): (r: Result)
    requires Good(inp, s)
    ensures Kept(inp, s, r)
  {
    var k := Skip(g, inp, fuel, g.skipper.Some?, s);
    if k.out.Ok? then Call(g, inp, fuel, g.skipper.Some?, start, k.st) else k
  }

  // ---- small steps that keep a state good -------------------------------------------------------

  /** Opening a node or a cut scope, or both. */
  lemma OpenGood(inp: Input, s: State)
    requires Good(inp, s)
    ensures Good(inp, Alloc(s, s.pos, 0)) && Good(inp, OpenScope(s)) && Good(inp, Alloc(OpenScope(s), s.pos, 0))
    ensures Good(inp, SetCut(s, false))
  {
  }

  /** A sequence that failed rewinds to its start. */
  lemma RewindFramed(inp: Input, s: State, r: Result)
    requires Good(inp, s) && Kept(inp, Alloc(s, s.pos, 0), r)
    requires r.out.Ok? ==> s.pos <= r.st.pos && r.out.tree == Some(|s.arena|)
    ensures Framed(inp, s, if r.out.Fail? then Result(Fail, r.st.(pos := s.pos)) else r)
  {
  }

  /** Leaving the scope that was opened in front of s1. */
  lemma CloseFramed(inp: Input, s: State, s1: State, r: Result)
    requires Good(inp, s) && Kept(inp, s1, r) && s1.lr == s.lr && s1.heads == s.heads && s1.scope.Some?
    requires |s.arena| <= |s1.arena| && s.failures <= s1.failures && s.diags <= s1.diags
    requires r.out.Ok? ==> s.pos <= r.st.pos && TreeIn(r.st.arena, r.out.tree)
    requires r.out.Fail? ==> r.st.pos == s.pos
    ensures Framed(inp, s, Result(r.out, CloseScope(r.st, s.scope)))
  {
  }

  lemma PushGood(inp: Input, s: State, n: nat, child: Option<nat>)
    requires Good(inp, s) && n < |s.arena|
    ensures Good(inp, PushChild(s, n, child))
  {
  }

  /** Publishing a seed. */
  lemma SeedGood(inp: Input, s: State, k: Key, e: Entry)
    requires Good(inp, s) && k.pos <= e.end <= |inp| && e.ok && TreeIn(s.arena, e.tree)
    ensures Good(inp, s.(memo := s.memo[k := e]))
  {
  }

  /** Leaving the rule entered as `s`. */
  lemma LeaveGood(inp: Input, s: State, r: Result)
    requires r.out.Normal() && s.lr != [] && Framed(inp, s, r)
    ensures r.st.lr != [] && Good(inp, Leave(r.st))
  {
  }
}
