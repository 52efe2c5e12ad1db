/** What the memo keeps: exactly which entries a committed cut scope and a new round of growth forget, entry by entry.
    */
module Scopes {
  import opened Grammars
  import opened Machine

  /** A cut commits the innermost scope, if there is one, at its own position, and does nothing else. */
  lemma CutCommits(g: Grammar, inp: Input, fuel: nat, skip: bool, s: State)
    requires Good(inp, s)
    ensures var r := Parse(g, inp, fuel, skip, Expr.Cut, s);
            && r.out == Ok(None)
            && r.st == s.(scope := if s.scope.Some? then Some(CutRecord(s.pos, true)) else None)
  {
  }

  /** s1 has the entries of s that are left if those before p are forgotten. */
  ghost predicate ForgetsBefore(p: nat, s: State, s1: State) {
    && (forall k :: k in s1.memo <==> k in s.memo && p <= k.pos)
    && forall k | k in s1.memo :: s1.memo[k] == s.memo[k]
  }

  /** How a construct with a scope of its own ends, if its inside ended as r: with the scope of before, and without the
      entries before the cut that is set, or with all of them if none is. */
  ghost predicate Closes(s: State, r: Result, r': Result) {
    && r'.out == r.out && r'.st == r.st.(scope := s.scope, memo := r'.st.memo)
    && ForgetsBefore(if r.st.scope.Some? && r.st.scope.value.cut then r.st.scope.value.pos else 0, r.st, r'.st)
  }

  /** Choices and repetitions have a scope of their own, which is not set when they start. */
  lemma ScopesClose(g: Grammar, inp: Input, fuel: nat, skip: bool, e: Expr, s: State)
    requires Good(inp, s) && (e.Alt? || e.Rep?)
    ensures var s1 := s.(scope := Some(CutRecord(s.pos, false)));
            Good(inp, s1) && Good(inp, Alloc(s1, s.pos, 0)) &&
            Closes(s, if e.Alt? then AltFrom(g, inp, fuel, skip, e, 0, s1)
                      else RepFrom(g, inp, fuel, skip, e, 0, s.pos, |s.arena|, Alloc(s1, s.pos, 0)),
                   Parse(g, inp, fuel, skip, e, s))
  {
    hide AltFrom, RepFrom;
    OpenGood(inp, s);
  }

  /** A new round of growth of k starts over at k, counts one evaluation, and forgets, if the rule has re-entered itself
      and matched before, every entry at its position but its own and those of rules still under evaluation there; else
      nothing. */
  lemma RoundForgets(inp: Input, k: Key, best: Outcome, s: State)
    requires Good(inp, s) && s.lr != [] && k.pos <= |inp|
    ensures var s1 := Restart(inp, k, best, s);
            var clears := |s.lr| - 1 in s.heads && best.Ok?;
            && s1 == s.(pos := k.pos, evals := s.evals + 1, memo := s1.memo)
            && (forall x :: x in s1.memo <==>
                  x in s.memo && !(clears && x.pos == k.pos && x.rule != k.rule && x !in s.lr))
            && forall x | x in s1.memo :: s1.memo[x] == s.memo[x]
  {
  }

  /** A rule with an entry is answered from it: its outcome, its end, nothing evaluated and nothing forgotten.  If the
      rule is under evaluation there, its innermost frame becomes a head. */
  lemma EntryAnswers(g: Grammar, inp: Input, fuel: nat, skip: bool, rule: RuleId, s: State)
    requires Good(inp, s) && Key(s.pos, rule) in s.memo
    ensures var k := Key(s.pos, rule);
            var r := Call(g, inp, fuel, skip, rule, s);
            && r.out == (if s.memo[k].ok then Ok(s.memo[k].tree) else Fail)
            && r.st == s.(pos := s.memo[k].end, heads := r.st.heads)
            && (k !in s.lr ==> r.st.heads == s.heads)
            && (k in s.lr ==> exists i: nat ::
                  && i < |s.lr| && s.lr[i] == k && (forall j | i < j < |s.lr| :: s.lr[j] != k)
                  && r.st.heads == s.heads + {i})
  {
  }

  /** A rule without an entry is evaluated with a failure planted for it and a frame of its own on top, in which its
      body has not re-entered it; on a normal end the frame is gone again. */
  lemma FirstEntry(g: Grammar, inp: Input, fuel: nat, skip: bool, rule: RuleId, s: State)
    requires Good(inp, s) && Key(s.pos, rule) !in s.memo && fuel > 0 && rule in g.rules
    ensures var k := Key(s.pos, rule);
            var s1 := s.(memo := s.memo[k := Entry(false, s.pos, None)], lr := s.lr + [k]);
            && Good(inp, s1)
            && var body := Grow(g, inp, fuel - 1, skip, k, s.pos, Fail, s1);
               var r := Call(g, inp, fuel, skip, rule, s);
               && (body.out.Normal() ==>
                     && r.out.Normal() && r.st.lr == s.lr && r.st.heads == body.st.heads - {|s.lr|}
                     && r.st.scope == body.st.scope && r.st.evals == body.st.evals
                     && r.st.memo.Keys == body.st.memo.Keys
                     && forall x | x in body.st.memo && x != k :: r.st.memo[x] == body.st.memo[x])
               && (!body.out.Normal() ==> r == body)
  {
    hide Grow, Scan;
    assert (s.lr + [Key(s.pos, rule)])[..|s.lr|] == s.lr;
  }
}
