/** What a leaf accepts, said through other leaves and through the input alone. */
module Leaves {
  import opened Grammars
  import opened Machine
  import opened Peg

  /** A terminal, or a token. */
  function Leaf(keep: bool, p: Pattern, item: Item): Expr {
    if keep then Token(p, item) else Terminal(p, item)
  }

  /** A range accepts the elements from its lower to its upper end, both included, and nothing else. */
  lemma RangeIsSet(g: Grammar, inp: Input, fuel: nat, skip: bool, keep: bool, lo: Sym, hi: Sym, vs: set<Sym>,
      item: Item, cut: bool, s: State)
    requires Good(inp, s) && forall x :: x in vs <==> lo <= x <= hi
    ensures var range, every := Leaf(keep, Between(lo, hi), item), Leaf(keep, AnyOf(vs), item);
            && Parse(g, inp, fuel, skip, range, s) == Parse(g, inp, fuel, skip, every, s)
            && Peg.Peg(g, inp, fuel, skip, range, s.pos, cut) == Peg.Peg(g, inp, fuel, skip, every, s.pos, cut)
  {
  }

  /** A set accepts what one of its values accepts, as the ordered choice of them does. */
  lemma SetIsSomeValue(g: Grammar, inp: Input, fuel: nat, skip: bool, keep: bool, vs: set<Sym>, item: Item, cut: bool,
      s: State)
    requires Good(inp, s)
    ensures Parse(g, inp, fuel, skip, Leaf(keep, AnyOf(vs), item), s).out.Ok? <==>
              exists v | v in vs :: Parse(g, inp, fuel, skip, Leaf(keep, One(v), item), s).out.Ok?
    ensures Matches(Peg.Peg(g, inp, fuel, skip, Leaf(keep, AnyOf(vs), item), s.pos, cut)) <==>
              exists v | v in vs :: Matches(Peg.Peg(g, inp, fuel, skip, Leaf(keep, One(v), item), s.pos, cut))
  {
    if s.pos < |inp| && inp[s.pos] in vs {
      assert Parse(g, inp, fuel, skip, Leaf(keep, One(inp[s.pos]), item), s).out.Ok?;
      assert Matches(Peg.Peg(g, inp, fuel, skip, Leaf(keep, One(inp[s.pos]), item), s.pos, cut));
    }
  }

  ghost predicate Matches(a: Option<Answer>) { a.Some? && a.value.out.Yes? }

  /** A value accepts itself, as the literal of length one does. */
  lemma ValueIsLiteral(g: Grammar, inp: Input, fuel: nat, skip: bool, v: Sym, item: Item, cut: bool, s: State)
    requires Good(inp, s)
    ensures Parse(g, inp, fuel, skip, Terminal(One(v), item), s) ==
              Parse(g, inp, fuel, skip, TerminalSeq([v], item), s)
    ensures Peg.Peg(g, inp, fuel, skip, Terminal(One(v), item), s.pos, cut) ==
              Peg.Peg(g, inp, fuel, skip, TerminalSeq([v], item), s.pos, cut)
  {
    if s.pos < |inp| { assert inp[s.pos..s.pos + 1] == [inp[s.pos]]; }
  }

  /** The elements of the literal stand at i one after the other. */
  ghost predicate OneByOne(inp: Input, syms: seq<Sym>, i: nat) {
    forall j: nat | j < |syms| :: i + j < |inp| && syms[j] == inp[i + j]
  }

  /** A literal matches iff its elements stand there, and then ends behind them; it fails at its start, and says so. */
  lemma LiteralMatchesIff(g: Grammar, inp: Input, fuel: nat, skip: bool, syms: seq<Sym>, item: Item, cut: bool,
      s: State)
    requires Good(inp, s)
    ensures var r := Parse(g, inp, fuel, skip, TerminalSeq(syms, item), s);
            var a := Peg.Peg(g, inp, fuel, skip, TerminalSeq(syms, item), s.pos, cut);
            if OneByOne(inp, syms, s.pos) then
              r == Result(Ok(None), s.(pos := s.pos + |syms|)) && a == Some(Answer(Yes(s.pos + |syms|), cut, {}))
            else
              && r == Result(Fail, s.(failures := s.failures + {Failure(s.pos, item)}))
              && a == Some(Answer(No, cut, {Failure(s.pos, item)}))
  {
    StandsIff(inp, syms, s.pos);
    hide StandsAt, OneByOne;
  }

  lemma StandsIff(inp: Input, syms: seq<Sym>, i: nat)
    requires i <= |inp|
    ensures StandsAt(inp, syms, i) <==> OneByOne(inp, syms, i)
  {
    if OneByOne(inp, syms, i) {
      if syms != [] {
        var last: nat := |syms| - 1;
        var c := syms[last];
        assert i + last < |inp| && c == inp[i + last];
      }
      assert inp[i..i + |syms|] == syms;
    }
    if StandsAt(inp, syms, i) {
      forall j: nat | j < |syms| ensures i + j < |inp| && syms[j] == inp[i + j] {
        assert inp[i..i + |syms|][j] == inp[i + j];
      }
    }
  }

  /** A test accepts exactly the elements it holds of. */
  lemma TestMatchesIff(g: Grammar, inp: Input, fuel: nat, skip: bool, keep: bool, test: Sym -> bool, item: Item,
      cut: bool, s: State)
    requires Good(inp, s)
    ensures var e := Leaf(keep, Satisfying(test), item);
            && (Parse(g, inp, fuel, skip, e, s).out.Ok? <==> s.pos < |inp| && test(inp[s.pos]))
            && (Matches(Peg.Peg(g, inp, fuel, skip, e, s.pos, cut)) <==> s.pos < |inp| && test(inp[s.pos]))
  {
  }

  /** Every leaf takes one element or none: a match ends one further, and a token has a node around it; a failure moves
      nothing, and says so. */
  lemma LeafTakesOne(g: Grammar, inp: Input, fuel: nat, skip: bool, keep: bool, p: Pattern, item: Item, cut: bool,
      s: State)
    requires Good(inp, s)
    ensures var r := Parse(g, inp, fuel, skip, Leaf(keep, p, item), s);
            var a := Peg.Peg(g, inp, fuel, skip, Leaf(keep, p, item), s.pos, cut);
            && (r.out.Ok? || r.out.Fail?) && (r.out.Ok? <==> Matches(a)) && a.Some? && a.value.cut == cut
            && (r.out.Ok? ==>
                  && s.pos < |inp| && r.st == s.(pos := s.pos + 1, arena := r.st.arena) && a.value.evs == {}
                  && a.value.out == Yes(s.pos + 1)
                  && (if keep then r.out.tree == Some(|s.arena|)
                          && r.st.arena == s.arena + [Node("", s.pos, s.pos + 1, [], None, None)]
                      else r.out.tree == None && r.st.arena == s.arena))
            && (r.out.Fail? ==>
                  && r.st == s.(failures := s.failures + {Failure(s.pos, item)})
                  && a.value == Answer(No, cut, {Failure(s.pos, item)}))
  {
  }
}
