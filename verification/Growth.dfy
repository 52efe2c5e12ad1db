/** The seed-grow loop: the ends it publishes strictly increase, so it runs the body at most once for each
    remaining position and once more, and its result is the last, hence longest, one published, even if a
    later iteration regresses or fails. */
module Growth {
  import opened Grammars
  import opened Machine

  /** Ends published by the loop from this iteration on. */
  ghost function Seeds(g: Grammar, inp: Input, fuel: nat, skip: bool, k: Key, last: nat, best: Outcome,
      s: State): seq<nat>
    requires Good(inp, s) && k.rule in g.rules && s.lr != []
    requires k.pos <= last <= |inp| && best.Normal()
    requires best.Ok? ==> TreeIn(s.arena, best.tree)
    requires best.Fail? ==> last == k.pos
    decreases |inp| - last
  {
    var r := Parse(g, inp, fuel, skip, g.rules[k.rule].body, Restart(inp, k, best, s));
    if r.out.Ok? && r.st.pos > last then
      [r.st.pos] +
        if k in r.st.memo then
          Seeds(g, inp, fuel, skip, k, r.st.pos, r.out,
              r.st.(memo := r.st.memo[k := Entry(true, r.st.pos, r.out.tree)]))
        else []
    else []
  }

  /** Body evaluations by the loop from this iteration on. */
  ghost function Rounds(g: Grammar, inp: Input, fuel: nat, skip: bool, k: Key, last: nat, best: Outcome, s: State): nat
    requires Good(inp, s) && k.rule in g.rules && s.lr != []
    requires k.pos <= last <= |inp| && best.Normal()
    requires best.Ok? ==> TreeIn(s.arena, best.tree)
    requires best.Fail? ==> last == k.pos
    decreases |inp| - last
  {
    var r := Parse(g, inp, fuel, skip, g.rules[k.rule].body, Restart(inp, k, best, s));
    1 + if r.out.Ok? && r.st.pos > last && k in r.st.memo then
          Rounds(g, inp, fuel, skip, k, r.st.pos, r.out,
              r.st.(memo := r.st.memo[k := Entry(true, r.st.pos, r.out.tree)]))
        else 0
  }

  ghost predicate Increasing(last: nat, ends: seq<nat>, n: nat) {
    && (forall i | 0 <= i < |ends| :: last < ends[i] <= n)
    && (forall i, j | 0 <= i < j < |ends| :: ends[i] < ends[j])
  }

  lemma {:induction false} IncreasingFits(last: nat, ends: seq<nat>, n: nat)
    requires Increasing(last, ends, n) && last <= n
    ensures |ends| <= n - last
    decreases |ends|
  {
    if ends != [] {
      IncreasingFits(ends[0], ends[1..], n);
    }
  }

  lemma IncreasingMore(last: nat, e: nat, ends: seq<nat>, n: nat)
    requires last < e <= n && Increasing(e, ends, n)
    ensures Increasing(last, [e] + ends, n)
  {
  }

  /** One iteration: it publishes and goes on, or it is the last. */
  lemma Unfolds(g: Grammar, inp: Input, fuel: nat, skip: bool, k: Key, last: nat, best: Outcome, s: State)
    requires Good(inp, s) && k.rule in g.rules && s.lr != []
    requires k.pos <= last <= |inp| && best.Normal()
    requires best.Ok? ==> TreeIn(s.arena, best.tree)
    requires best.Fail? ==> last == k.pos
    ensures var r := Parse(g, inp, fuel, skip, g.rules[k.rule].body, Restart(inp, k, best, s));
            if r.out.Ok? && r.st.pos > last && k in r.st.memo then
              var s1 := r.st.(memo := r.st.memo[k := Entry(true, r.st.pos, r.out.tree)]);
              && Good(inp, s1) && s1.lr != [] && r.st.pos <= |inp| && TreeIn(s1.arena, r.out.tree)
              && Seeds(g, inp, fuel, skip, k, last, best, s) == [r.st.pos] + Seeds(g, inp, fuel, skip, k, r.st.pos,
                  r.out, s1)
              && Rounds(g, inp, fuel, skip, k, last, best, s) == 1 + Rounds(g, inp, fuel, skip, k, r.st.pos, r.out, s1)
              && Grow(g, inp, fuel, skip, k, last, best, s) == Grow(g, inp, fuel, skip, k, r.st.pos, r.out, s1)
            else
              && r.st.pos <= |inp|
              && Rounds(g, inp, fuel, skip, k, last, best, s) == 1
              && var whole := Grow(g, inp, fuel, skip, k, last, best, s);
              && Seeds(g, inp, fuel, skip, k, last, best, s) ==
                   (if r.out.Ok? && r.st.pos > last then [r.st.pos] else [])
              && (whole.out.Normal() ==>
                    if r.out.Ok? && r.st.pos > last then whole.out.Ok? && whole.st.pos == r.st.pos <= |inp|
                    else whole.st.pos == last && (best.Ok? ==> whole.out == best))
  {
    hide Parse, Restart, Bounded, EntryGood;
    var r := Parse(g, inp, fuel, skip, g.rules[k.rule].body, Restart(inp, k, best, s));
    if r.out.Ok? && r.st.pos > last && k in r.st.memo {
      SeedGood(inp, r.st, k, Entry(true, r.st.pos, r.out.tree));
    }
  }

  lemma {:induction false} GrowthIsMonotone(g: Grammar, inp: Input, fuel: nat, skip: bool, k: Key, last: nat,
      best: Outcome, s: State)
    requires Good(inp, s) && k.rule in g.rules && s.lr != []
    requires k.pos <= last <= |inp| && best.Normal()
    requires best.Ok? ==> TreeIn(s.arena, best.tree)
    requires best.Fail? ==> last == k.pos
    ensures var ends := Seeds(g, inp, fuel, skip, k, last, best, s);
            var r := Grow(g, inp, fuel, skip, k, last, best, s);
            && Increasing(last, ends, |inp|)
            && Rounds(g, inp, fuel, skip, k, last, best, s) <= |ends| + 1 <= |inp| - last + 1
            && (r.out.Normal() && ends != [] ==> r.out.Ok? && r.st.pos == ends[|ends| - 1])
            && (r.out.Normal() && ends == [] ==> r.st.pos == last && (best.Ok? ==> r.out == best))
    decreases |inp| - last
  {
    hide Parse, Restart, Good, Seeds, Rounds, Grow;
    Unfolds(g, inp, fuel, skip, k, last, best, s);
    var r := Parse(g, inp, fuel, skip, g.rules[k.rule].body, Restart(inp, k, best, s));
    if r.out.Ok? && r.st.pos > last && k in r.st.memo {
      var s1 := r.st.(memo := r.st.memo[k := Entry(true, r.st.pos, r.out.tree)]);
      GrowthIsMonotone(g, inp, fuel, skip, k, r.st.pos, r.out, s1);
      IncreasingMore(last, r.st.pos, Seeds(g, inp, fuel, skip, k, r.st.pos, r.out, s1), |inp|);
    }
    IncreasingFits(last, Seeds(g, inp, fuel, skip, k, last, best, s), |inp|);
  }
}
