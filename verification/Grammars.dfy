/** The expression language of a grammar and the values a parse passes around.

    An input is a sequence of elements.  The source is generic in the element type; only equality
    and, for ranges, an order are ever used, so an element is modelled by an integer code. */
module Grammars {

  datatype Option<+T> = None | Some(value: T)

  type Sym = int
  type Input = seq<Sym>
  type RuleId = nat

  /** What a leaf expression accepts: one value, a set, an inclusive range or a predicate. */
  datatype Pattern =
    | One(value: Sym)
    | AnyOf(values: set<Sym>)
    | Between(lo: Sym, hi: Sym)
    | Satisfying(test: Sym -> bool)
  {
    predicate Accepts(c: Sym) {
      match this
      case One(v) => c == v
      case AnyOf(vs) => c in vs
      case Between(lo, hi) => lo <= c <= hi
      case Satisfying(test) => test(c)
    }
  }

  /** A match-time callback: given the input and a position it rejects, or names the end of the span
      it consumed, which lies between the position and the end of the input. */
  type MatchFn = f: (Input, nat) -> Option<nat>
    | forall s: Input, i: nat :: i <= |s| && f(s, i).Some? ==> i <= f(s, i).value <= |s|
    witness (s: Input, i: nat) => None

  datatype Kind = RuleLabel | RuleName | Literal | Range

  /** One entry of an expected set. */
  datatype Item = Item(kind: Kind, text: string)

  /** A failure event: at `pos`, `item` was expected. */
  datatype Failure = Failure(pos: nat, item: Item)

  datatype Expr =
    | Empty
    | Terminal(pattern: Pattern, item: Item)
    | Token(pattern: Pattern, item: Item)
    | TerminalSeq(syms: seq<Sym>, item: Item)
    | Matcher(fn: MatchFn)
    | Seq(es: seq<Expr>)
    | Alt(es: seq<Expr>)
    | Rep(child: Expr, min: nat, max: int)
    | Not(child: Expr)
    | And(child: Expr)
    | Cut
    | Lexeme(child: Expr)
    | Rule(rule: RuleId)

  datatype Recovery = Recovery(isSync: Sym -> bool, tag: string)

  datatype RuleDef = RuleDef(
    name: string,
    tag: string,
    body: Expr,
    recovery: Option<Recovery>,
    hasAction: bool)
  {
    /** The failure a rule reports at its start when its body fails: its label, else its name. */
    function Report(pos: nat): set<Failure> {
      if tag != "" then {Failure(pos, Item(RuleLabel, tag))}
      else if name != "" then {Failure(pos, Item(RuleName, name))}
      else {}
    }
  }

  /** `grown`, `partners` and `quiet` belong to the specification only, and the parser never looks at them: the rules
      whose recursion at their own start is read as growth from a seed, the rules through which such a rule reaches
      itself, each with the rule it serves, and rules that promise to run no cut, nor do the rules they call.  With
      none, a grammar has Ford's meaning. */
  datatype Grammar = Grammar(
    rules: map<RuleId, RuleDef>,
    skipper: Option<RuleId>,
    grown: set<RuleId>,
    partners: map<RuleId, RuleId>,
    quiet: set<RuleId>)

  /** The literal `syms` stands at position `i`. */
  predicate StandsAt(inp: Input, syms: seq<Sym>, i: nat) {
    i + |syms| <= |inp| && inp[i..i + |syms|] == syms
  }
}
