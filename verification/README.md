# A verified model of the peglib parsing machine

peglib is a header-only engine for parsing expression grammars: packrat memo, seed-grow left recursion,
cuts, an auto-skipper, error recovery, trees in an arena. This project models that machine in Dafny and
proves that it means what a grammar means. Ordered choice is written `/` below.

There are three layers.

1. **Specification.** `Peg` is the memo-free semantics: an expression maps a position to an answer (match,
   failure or cut-committed failure, the cut flag, and every failure event on the way). With no rule marked as
   `grown` it is Ford's semantics (POPL 2004) with cuts and auto-skip; marked rules read their left recursion, direct
   or through the rules marked as their `partners`, as growth from a seed. The marks belong to the specification, a
   theorem holds for every choice that meets its conditions, and `Readings` shows that they never change an answer.
   `Derivations` defines the same meaning once more, as a relation with rules of inference, and proves the two equal.
   `LeftRecursion` and `Elimination` show that growth is ordered choice followed by plain iteration, `Cycles` what
   that means for two grammars whose recursion runs through other rules.
2. **Machine.** `Machine` is the parser as a function on states, branch by branch: memo, left-recursion
   stack, head marks, cut scope, arena, failures, diagnostics. All big theorems are about it.
3. **Engine.** `Contexts` and `Engine` are the classes and loops of the library, updating their fields in
   place; every method is proved equal to the machine's function of the same construct.

`Parsing` joins the layers: the imperative parser ends with the verdict, end and error report of the memo-free
semantics. `Soundness` and `Packrat` carry that proof; `Forms` holds the conditions on grammars; `Transparency`,
`Histories`, `Leftovers`, `Termination`, `Totality`, `Fuel` and `Growth` treat whole runs; `Layers` and `Work`
how much they evaluate; `Trees` the shared arena and `Roots` the nodes that rules and parses return; `Scopes`
what the memo forgets; `Leaves` what single elements and literals accept; `Recoveries` the reports of failing
rules and error recovery; `Values`, `Types`, `Folds`, `Phases`, `Invocations` and `Asts` the typed fold;
`Desugaring` auto-skip; `Agreement` and `Rewriting` what the rewritings share and how they compose;
`Reachability` dead-rule detection; `FileSources` the two-page file cache; `Repetitions` counts iterations;
`ExpectedSets` is the sorted vector of expected items. `Limits` shows with concrete grammars what the parser
does when a cut runs inside left recursion, a rule is reached in both skip modes, a cut is not enclosed in its
rule body, or a body is not typed; `Samples` shows that a usual grammar meets all conditions at once.

How to read the model:

- An input element is an integer code, a rule a number. Positions and sizes are unbounded; the library uses
  `std::size_t` and a 64-bit repetition bound.
- Match-time callbacks and predicates are pure functions of the input and the position, and a matcher's end
  lies between its start and the end of the input.
- `fuel` bounds the nesting of first-time rule entries, as the native call stack does; a run that exceeds it
  is `Stuck`. `Fuel.MoreRun` shows that it never influences a result, `Termination` how much is enough. The
  depth `k` of the memo-free semantics plays the same part there.
- A cut-committed failure is the third outcome, `Abort`. It ends the run: the left-recursion stack is not
  unwound on that path (include/peglib/NonTerminal.h:126-130).
- `mode` in a `Setting` names for each rule the auto-skip mode it is reached in; `WellFormed` asks that
  there is one, because the memo key does not include it.
- `quiet` marks rules that run no cut, nor do the rules they call. `calm` in a `Setting` restricts a statement to
  those; it is off unless a proof turns it on.
- Typed values are symbolic: `Applied(rule, start, end, arg)` records which action ran on which span with which
  argument, so equal values mean equal runs of all actions, whatever they compute.
- The error state is compared through `Summary`: the furthest failure position and the set of items there.
- Growing heads are an index into the left-recursion stack that never changes a result; the machine leaves
  the index out and the engine shows that it may.

Where code and documentation differ, the model follows the code:

- The library's README.md:124 writes a left-recursive rule base branch first. Such a rule never grows
  (`Limits.BaseFirstNeverGrows`); test/lr_triangle_repro_test.cpp:10-21 documents the order that works, and
  `LeftRecursion.GrowsFullyIff` says exactly when the order makes no difference.
- The library's README.md:32-33 lists "Packrat memoization for linear-time parsing" and "Left-recursion support
  (direct, indirect, and mutual) via seed-grow" without conditions; with a cut inside the recursion the parser
  does not end (`Limits.CutsMakeLeftRecursionDiverge`), and a rule through which another one has grown at a position
  is answered from the entry that growth left there, which may be less than the rule matches. With
  `A = B; B = A 'b' / 'x'` on "xbb", B on its own ends at 3, and after A at 1 (`Leftovers.OtherRuleIsRightIff`);
  `A ';' / B '!'` rejects "xbb!" (`Leftovers.StatementMatchesIff`). `Leftovers.LaterUseIsRightIff` is the exact
  condition; entering such rules only at the start of the rule that grows, as `WellFormed` asks, avoids it.
- `unreachable_rules` is documented as dead-code detection (TODO.md:202), yet reports a rule that is only
  used as the skipper. `Reachability.ReportedRulesAreDead` says exactly when the reported rules are dead,
  `Reachability.SkipperIsReportedThoughAlive` is an instance in which a parse that matched fails.
- A repetition is documented to match between its minimum and its maximum times (include/peglib/Combinators.h:179).
  The bound is only tested when positive, so `0 * e` is unbounded (`Repetitions.WithinBoundIff`), and an iteration
  that consumes nothing ends it, so `3 * e` fails where e matches empty (`Repetitions.EmptyMatchEnds`;
  `Repetitions.FailsIff` is the exact condition).
- include/peglib/FileSource.h:96-97 forbids reading released positions; the code reads them again, and correctly.

## Model

| member | source | states |
|---|---|---|
| Packrat.SoundExpr | include/peglib/Combinators.h:22-345 | From any sound memo and any state in which no rule under evaluation is answerable at depth h, every expression on a well-formed grammar has exactly the outcome, end position, failure events and cut flag of the memo-free semantics; the memo stays sound, the enclosing cut scope and the left-recursion stack are as before. Evictions by committed scopes and entries replayed by the memo never show. |
| Packrat.SoundCall | include/peglib/NonTerminal.h:85-199 | The same for a rule: a memo hit, a first evaluation, a second pass of the grow loop and a grown left recursion (direct, or through any rules that serve it) all give the memo-free answer, and what is cached for it is sound. |
| Packrat.SoundGrow | include/peglib/NonTerminal.h:213-266 | The seed-grow loop, started from any published seed of a left-recursive rule, computes the memo-free growth from that seed, including the second pass that makes no progress, and leaves the entry of every partner as the last step made it. |
| Packrat.SoundIn | include/peglib/NonTerminal.h:94-121 | One iteration of the grow loop: the body of a growing rule r, and of every rule through which r reaches itself, nested to any depth, computes the memo-free step from r's current seed; where r was not re-entered, the answer is the same from every seed. |
| Packrat.SoundPartner | include/peglib/NonTerminal.h:94-121 | A rule m through which a growing rule r reaches itself, entered under r, is its body continued from r's current seed, whether it runs, runs a second time or is answered from its entry of the same iteration: entries that depend on the seed are erased before the next one, r's and all entries in progress are kept. |
| Readings.ParsesAsFord | include/peglib/NonTerminal.h:85-199 | Under Ford's reading, in which a rule is its body whatever its shape, the parser answers every parse that Ford's semantics answers as that does, from any context on which that was true before. |
| Derivations.DerivableIff | include/peglib/Combinators.h:22-345 | An independent definition of what a grammar means: finite trees of inferences, one rule of inference for each way an expression can come out, with cuts, auto-skip and failure events, after Ford (POPL 2004). For every grammar, expression, position and cut flag an answer can be derived iff the memo-free evaluator without growth computes it, within some depth. |
| Derivations.OneAnswer | include/peglib/Combinators.h:22-345 | So no expression has two answers. |
| Derivations.DerivedIsParsed | include/peglib/NonTerminal.h:85-199 | And whatever can be derived for a rule is what the parser finds: outcome, end and added failures, from any context on which it answered as Ford's semantics before, with a nesting bound of the height of the derivation. |
| Readings.FordConditions | include/peglib/Context.h:230-238 | Exactly what that asks of a grammar: one skip mode per rule, cuts enclosed in their rule body, no recovery. No shape of a rule is excluded. |
| Readings.GrowthExtendsFord | include/peglib/NonTerminal.h:213-266 | Reading left recursion as growth keeps every answer of Ford's semantics, failures included. |
| Readings.ReadingsAgree | include/peglib/NonTerminal.h:213-266 | Whatever rules are read as growing, and through whatever rules they reach themselves, two readings that both answer a parse give it the same answer. |
| Readings.SuffixOnItsOwn | include/peglib/NonTerminal.h:94-121 | A rule that another reading sees as a piece of its owner, used on its own, `stmt = sum ';'`, is matched under Ford's reading. |
| Readings.SuffixOnlyGrows | include/peglib/NonTerminal.h:94-121 | And has no meaning under the reading that marks it. |
| Repetitions.BoundsKept | include/peglib/Combinators.h:138-177 | A repetition with a positive bound makes at most that many matches; it matches only with its minimum of them and fails only below it. |
| Repetitions.WithinBoundIff | include/peglib/Combinators.h:153-156 | A bounded repetition stays within its bound iff the bound is positive or the child does not match there. |
| Repetitions.ZeroTimesMatchesTwice | include/peglib/Combinators.h:153-156 | The instance `0 * 'x'` on "xx", which matches twice. |
| Repetitions.EmptyMatchEnds | include/peglib/Combinators.h:157-159 | An iteration that consumes nothing is the last, so where the child matches empty a repetition with a minimum of two or more fails. |
| Repetitions.FailsIff | include/peglib/Combinators.h:153-165 | For any bounds and any number of matches so far: an answered repetition fails iff, before its minimum is reached, the child fails, or an iteration other than the one that reaches the minimum matches empty or is the last that a bound below the minimum allows. |
| Repetitions.MachineBoundsKept | include/peglib/Combinators.h:134-177 | The bounds for the machine, for every grammar and from every state, with memo, growth and recovery. |
| Repetitions.MachineWithinBoundIff | include/peglib/Combinators.h:153-156 | And the exact condition on the machine. |
| Transparency.RunIsPeg | include/peglib/Grammar.h:243-260 | One whole parse (leading skip, then the start rule) on a context left behind by earlier parses: same outcome, end and failure events as without a memo, and the context is fit for the next parse. |
| Transparency.HistoryIsIrrelevant | include/peglib/Context.h:230-254 | Packrat transparency over histories: after any sequence of answered parses at any positions, from rules that are no partners and in their own skip modes, the next such parse on the same context answers as on a new one, and the failures recorded are exactly the union of those of the memo-free parses. |
| Histories.AnyHistoryIsIrrelevant | include/peglib/Context.h:230-254 | The same without cuts after any parses of that kind that ended normally, whether or not the memo-free semantics answers them: outcome, end and added failures of the next answered parse are the memo-free ones. |
| Transparency.AfterIsIdle | include/peglib/NonTerminal.h:226-263 | What such a history leaves behind, cuts included: every cached rule has its memo-free answer, and every cached partner holds what the last step of its owner's growth made of it. |
| Leftovers.LaterUse | include/peglib/NonTerminal.h:226-263 | Nothing clears the entries of the last iteration of the grow loop. For every grammar, partner m and state in which an entry of m is left and its owner r is not under evaluation: r has grown there, and using m there on its own, as the start of a parse or inside another rule, returns what the last step of r's growth, from its final seed, made of m, and evaluates nothing. |
| Leftovers.LaterUseIsRightIff | include/peglib/Context.h:323-337 | So such a use answers as on a new context iff that step's outcome is that of m's own growth, under any reading in which m is no partner. |
| Leftovers.LaterUsesAreHarmless | include/peglib/NonTerminal.h:85-107 | A history may also start parses at partners, wherever the growth of their owner has left them an entry: each parse, the last one included, ends as the memo-free semantics of its rule, or as the last step of the owner's growth there, and leaves the context fit for the next. |
| Leftovers.OtherRuleIsRightIff | test/rule_test.cpp:578-605 | The alias cycle `A = B; B = A 'b' / 'x'`, one rule parsed on a new context and then the other at the same position: A after B is right; B after A takes the x alone, and is right iff no b stands behind it. |
| Leftovers.StatementMatchesIff | test/rule_test.cpp:578-605 | The same inside one parse, on every input: `A ';' / B '!'` matches iff an x stands there, and `;` behind all the b's or `!` right behind the x, although B itself takes all the b's; so "xbb!" is rejected. |
| Histories.HopeExpr | include/peglib/NonTerminal.h:85-199 | What is answered never depends on what is not: an expression run while only rules without an answer are under evaluation leaves a sound memo, whatever those rules grow, clear or cache. |
| Work.WorkIsLinear | include/peglib/NonTerminal.h:87-128 | Without cuts and without re-entry before consuming, with recovery, skipper and both skip modes, all parses on one context together evaluate rule bodies at most 2 * rules * (input length + 1) times and report at most rules * (input length + 1) diagnostics, answered or not. |
| Work.EntryOnce | include/peglib/NonTerminal.h:87-128 | The same per entry: a rule with an entry is answered from it and evaluates nothing; a rule without one gets it and runs its body at most twice. |
| Work.EntriesStay | include/peglib/NonTerminal.h:87-128 | No parse removes or changes an entry, so over a whole history no rule is entered twice at one position. |
| Layers.ReplayExpr | include/peglib/NonTerminal.h:226-258 | The second pass over a body finds the first one's results: from any memo that knows what the first run knew, it ends alike and evaluates, caches and reports nothing. |
| Termination.ParsingTerminates | include/peglib/NonTerminal.h:90-134 | A closed grammar without cuts, with left recursion of any kind, never nests more than rules * (input length + 1) first-time rule entries: the run always ends normally with the left-recursion stack balanced, every rule in progress owning a live entry. |
| Termination.RunTerminates | include/peglib/Grammar.h:243-260 | The same for a whole parse with its leading skip. |
| Totality.EveryParseHasAnAnswer | include/peglib/NonTerminal.h:208-266 | For a grammar whose rules can be ranked (what a rule enters at its own start, other than the growing rule itself, ranks lower), the memo-free semantics answers every parse, so the transparency theorems apply to all of them. |
| Totality.TotalExpr | include/peglib/Combinators.h:22-345 | Every expression over a ranked grammar has an answer within an explicit depth, and one that is marked as consuming never matches empty. |
| Fuel.MoreRun | include/peglib/NonTerminal.h:123-134 | A run that did not exhaust the nesting bound is literally the same run under any larger bound: the bound decides whether there is a result, never which. |
| Parsing.ParseWith | include/peglib/Grammar.h:243-260 | The imperative parser's verdict, end position and error state (furthest failure position and the items expected there) are exactly those of the memo-free semantics whenever that answers, cuts included; a committed failure of the leading skip escapes, one of the start rule is a rejection. An accepted parse returns a tree, never none: finished, from the end of the leading skip to the end of the parse, and in a foldable grammar one that stands for the value of the memo-free parse. Short of a committed failure the context is fit for another parse in every one of these respects. An undefined start rule is reported and changes nothing; a closed grammar without cuts, and a ranked grammar with or without, is always decided within an explicit nesting bound. |
| Roots.RootOfRun | include/peglib/Grammar.h:262-279 | For every grammar without recovery: a whole parse that matches returns a node, a finished tree from the end of the leading skip to the end of the parse, and leaves every cached match with a node, so that the next parse does too. |
| Roots.NodeOfRule | include/peglib/NonTerminal.h:164-198 | For every grammar, recovery included: a rule that is evaluated and whose body matches returns a node with the rule's own name, the span of the match and a maker. With an action it is a new node of the rule around the body's node; without one it is the body's node itself, renamed, with its children and maker, or a new one if there is none. No other node changes, and the rule is remembered by it. |
| Roots.RoundsAreCounted | include/peglib/NonTerminal.h:226-263 | The evaluations counted by the work bounds are real ones: growing a rule counts at least one for each round of the loop. |
| Parsing.TreeOfRun | include/peglib/Grammar.h:262-279 | Both together for any finished run: the tree spans what was parsed, and in a foldable grammar stands for the value of the memo-free parse, at whatever depth there is one. |
| Parsing.FinishedRunIsPeg | include/peglib/Grammar.h:243-260 | Any run that did not exhaust its nesting bound is the memo-free answer, whatever the bound. |
| Parsing.EveryParseIsDecided | include/peglib/Grammar.h:243-260 | For every ranked grammar, cuts included, within an explicit nesting bound and without any further hypothesis: the parser accepts, fails or aborts iff the memo-free semantics does, with the same end and failure events, and the context is fit for another parse unless it aborted. |
| Parsing.ParseString | include/peglib/Grammar.h:307-312 | The same for an input on a context of its own: verdict and end are those of the memo-free semantics, and an accepted input has a tree, with conditions on the grammar only. |
| Parsing.GrownIsIterated | include/peglib/NonTerminal.h:208-266 | The machine on a grammar with a rule that is left-recursive, through any number of rules in a row and with base and recursive branches in any order and number, answers as the memo-free semantics of the grammar in which the rule is the choice, over its base branches, of `base (tails before it)*`. |
| Parsing.SkippedGrowthIsIterated | include/peglib/NonTerminal.h:208-266 | The same with a skipper: the machine answers as the grammar that has neither skipper nor the recursion, in which both are spelled out. |
| LeftRecursion.GrowthIsUnrolled | include/peglib/NonTerminal.h:226-263 | For every order and number of branches, for recursion through any number of rules in a row, with or without a skipper: growing a left-recursive rule ends where its first base branch that does not fail ends, followed greedily by the tails of the recursive branches before that one; an answer of either is the answer of the other. |
| LeftRecursion.InIsUnfolded | include/peglib/NonTerminal.h:226-263 | What such a rule does in one iteration is the ordered choice of its branches, seen through the rules in between: tails continue from the seed, bases start over. |
| LeftRecursion.FailsWithItsBases | include/peglib/NonTerminal.h:226-263 | A left-recursive rule fails iff every one of its base branches fails. |
| LeftRecursion.GrowsFullyIff | include/peglib/NonTerminal.h:244-258 | When the order of branches matters: growth from a consuming base branch is the iteration of all tails, wherever they stand, iff no tail could go on where the growth ends. |
| LeftRecursion.AgreesIff | include/peglib/NonTerminal.h:244-258 | A left-recursive rule and its iteration agree at a position iff it is not so that the first base branch that does not fail matches empty there and a tail before it could go on: an empty seed is never extended. |
| Elimination.LeftRecursionIsIteration | include/peglib/NonTerminal.h:226-263 | Rewriting a left-recursive rule, direct or through any number of rules in a row and with its branches in any order, into a choice of iterations changes the outcome of no expression of the grammar, in both directions. |
| Elimination.RankedBasesConsume | include/peglib/NonTerminal.h:244-258 | The condition that base branches consume follows from the rules alone, for a ranked grammar that marks them as consuming. |
| Rewriting.SkippedGrowthIsIteration | include/peglib/Context.h:386-394 | Every parse of a grammar with skipper and left recursion is the same parse of the grammar in which the skipper is spelled out and then the recursion is an iteration. |
| Cycles.AliasMatches | test/rule_test.cpp:578-605 | The alias cycle `A = B; B = A 'b' / 'x'`, entered at either rule, on a new context or after parses that started at that rule, or at the other one where that rule had left it an entry: it matches one x and all the b's behind it, and nothing else. |
| Cycles.LuaUnfolds | test/lr_triangle_repro_test.cpp:91-120 | The factored suffix rules of Lua, where prefixexp reaches itself through six other rules: four tails, then a name or a parenthesis. |
| Cycles.LuaIsIterated | test/lr_triangle_repro_test.cpp:91-120 | On every input, on a new context or after any parses that start at no suffix rule, the parser decides that grammar as the memo-free semantics decides the one without left recursion, in which prefixexp is a name or a parenthesis and any number of suffixes. |
| Growth.GrowthIsMonotone | include/peglib/NonTerminal.h:226-265 | The ends published by the grow loop strictly increase, the body is evaluated at most once per remaining position and once more, and the result is the last, hence longest, published one even when a later iteration is shorter or fails. |
| Trees.TreesAreSound | include/peglib/NonTerminal.h:164-197 | For every grammar and every earlier use of the context: a returned node stands for a finite, well-nested tree whose span is exactly what was matched, and every tree finished before is node for node the same afterwards, although rules adopt, rename and stamp shared nodes. |
| Trees.TreesOfRun | include/peglib/Grammar.h:243-260 | The same for a whole parse with its leading skip. |
| Work.HistoryIsTidy | include/peglib/Context.h:205-215 | Over any history on one context, for every grammar: each parse leaves all trees finished before it as they were. |
| Trees.TreeExpr | include/peglib/Combinators.h:33-177 | The same for every expression, while callers are still constructing nodes of their own. |
| Trees.TreeGrow | include/peglib/NonTerminal.h:226-265 | The seeds published while a rule grows are finished trees with the published span, and the tree returned is the one of the longest seed. |
| Trees.TreeComplete | include/peglib/NonTerminal.h:169-198 | Wrapping a body node for a rule with an action, or adopting it for one without, yields a finished node with the rule's span and leaves the body's own span and children alone. |
| Recoveries.RecoveryResyncs | include/peglib/NonTerminal.h:136-166 | A rule whose body fails with recovery configured and no cut committed succeeds without a tree at exactly the place one past the first sync element at or after its start, or at the end of input, and leaves one diagnostic; otherwise it fails at its start. Unless the entry was evicted, the rule gives the same answer there ever after, in either skip mode, without another diagnostic. |
| Recoveries.OneDiagnosticPerFailure | include/peglib/NonTerminal.h:152-161 | Without cuts and without re-entry before consuming, over any number of parses on one context the diagnostics are those of pairwise different (rule, position) pairs whose recovered results are cached. |
| Recoveries.FailureIsReported | include/peglib/NonTerminal.h:136-144 | What a rule adds to the failures of its body, for every grammar, whether it recovers or not: its label, or without one its name, or nothing if it has neither, at its start, if the body failed; nothing if it matched. |
| Recoveries.RecoveryIsNoted | include/peglib/NonTerminal.h:152-155 | The one diagnostic of a recovery has the label given for recovery, or without one the rule's name, at the rule's start. |
| Recoveries.AnswerIsReported | include/peglib/NonTerminal.h:136-144 | The same report in the memo-free semantics, for grown rules too. |
| Reachability.RefsAreOccurrences | include/peglib/Combinators.h:336-339 | The references collected from an expression are those to the rules that occur in it, at any depth and through any construct, and no others. |
| Reachability.UnreachableRules | include/peglib/Grammar.h:331-366 | The worklist ends, expands each reachable rule exactly once, and returns exactly the defined rules outside the reflexive-transitive closure of 'occurs in the body of' from the start rule: nothing for an unknown start rule, every defined rule for one that is named but has no body. |
| Reachability.DeadRulesDoNotMatter | include/peglib/Grammar.h:331-366 | For every grammar and context state: giving other bodies to rules outside a set that is closed under references and contains the start rule and the skipper changes no parse. |
| Reachability.ReportedRulesAreDead | include/peglib/Grammar.h:331-366 | The rules reported for a start rule can be changed at will, without changing any parse on any input from any context state, iff no defined skipper is set or the start rule reaches it; otherwise some change to the reported skipper changes a parse. |
| Scopes.CutCommits | include/peglib/Context.h:339-360 | A cut sets the innermost scope, at its own position, and changes nothing else. |
| Scopes.ScopesClose | include/peglib/Context.h:361-372 | For every grammar and state: a choice or repetition ends with the scope of before, and with exactly the entries of its inside that are not before the cut if one is set in it, and all of them if none is. |
| Scopes.RoundForgets | include/peglib/Context.h:323-337 | A new round of growth forgets exactly the entries at its position of other rules that are not under evaluation there, and only if the rule re-entered itself and has matched; and counts one evaluation. |
| Scopes.EntryAnswers | include/peglib/NonTerminal.h:90-121 | A rule with an entry is answered from it, outcome and end, with nothing evaluated or forgotten; if it is under evaluation there, its innermost frame, and no other, becomes a head. |
| Scopes.FirstEntry | include/peglib/NonTerminal.h:123-134 | A rule without an entry is evaluated with a failure planted for it and a frame on top; on a normal end the frame is gone and no other entry has changed, on an abort it is still there. |
| Leaves.RangeIsSet | include/peglib/Terminals.h:19-102 | A terminal or token on a range is the one on the set of all elements from the lower to the upper end, both included, in the parser and in the memo-free semantics. |
| Leaves.SetIsSomeValue | include/peglib/Terminals.h:19-102 | One on a set matches iff one on some value of the set does. |
| Leaves.ValueIsLiteral | include/peglib/Terminals.h:19-102 | One on a value is the literal of that one element. |
| Leaves.LiteralMatchesIff | include/peglib/Terminals.h:38-76 | A literal matches iff its elements stand there one by one, and ends behind them; else it fails at its start and records one failure there. |
| Leaves.TestMatchesIff | include/peglib/Terminals.h:19-102 | One on a test matches iff there is an element there and the test holds of it. |
| Leaves.LeafTakesOne | include/peglib/Terminals.h:19-102 | Every terminal and token takes one element or none, leaves everything else as it was, and differs from the other only in the node around the element. |
| Limits.CutsMakeLeftRecursionDiverge | include/peglib/Context.h:361-372 | Why termination asks for no cuts: `A = &('x' cut / 'y') A` on "x" re-enters A as if for the first time after its entry was evicted; no nesting bound suffices. |
| Limits.CutsStopGrowth | include/peglib/Context.h:361-372 | Why no cut may run while a rule grows: in `A = A 'c' / ('x' cut / 'y')` on "xc" the base evicts A's own entry, so the parser stops behind the x where growth goes on, and A is not cached. |
| Limits.CutsBesideGrowth | include/peglib/Context.h:361-372 | Cuts in rules that merely call a left-recursive one are covered: `stmt = 'l' cut expr ';' / expr ';'`. |
| Limits.ModesShareEntries | include/peglib/Context.h:230-238 | Why transparency asks for one skip mode per rule: a rule that failed under lexeme is answered from the memo in skipping mode, where it would match. |
| Limits.MemoHitsForgetCuts | include/peglib/NonTerminal.h:90-121 | Why transparency asks for enclosed cuts: an expression that aborts on a fresh context matches on one where the rule holding the bare cut was already cached. |
| Limits.BaseFirstNeverGrows | include/peglib/NonTerminal.h:240-258 | A left-recursive rule whose first branch is a matching base branch ends exactly where that branch ends, whatever follows. |
| Limits.ActionsAreSwallowed | include/peglib/ResultType.h:531-538 | Why one call per occurrence has a condition: on `pair = num num` with an action on num only, both occurrences match and no action runs. |
| Machine.Parse | include/peglib/Combinators.h:22-345 | Frame contract of every expression for every grammar: a success ends between its start and the end of input, a failure consumes nothing, the left-recursion stack is balanced on a normal return, the cut scope depth also on an abort, and no failure, diagnostic or node is lost. |
| Machine.Call | include/peglib/NonTerminal.h:85-199 | The frame contract of a rule, whichever of the hit, grow, wrap, adopt, fail and recover paths is taken. |
| Machine.Grow | include/peglib/NonTerminal.h:213-266 | The frame contract of the grow loop, which ends because every further iteration starts from a longer seed. |
| Machine.RepFrom | include/peglib/Combinators.h:123-177 | A repetition that matches ends at or after its start, one that fails is back at its start, and it ends on every input. |
| Machine.Scan | include/peglib/NonTerminal.h:146-149 | The scan stops at the first sync element, or at the end of the input. |
| Machine.TopFrame | include/peglib/NonTerminal.h:95-103 | A frame of the rule at the position is found iff there is one, and then the innermost. |
| Peg.Peg | include/peglib/Combinators.h:22-345 | Memo-free answers lie in the input: a match from i ends between i and the end. |
| Engine.ParseStart | include/peglib/Grammar.h:243-260 | Installs the skipper, runs it once and parses the start rule: outcome and context are the machine's result of a whole parse, and whether the rule was started at all is reported. |
| Engine.ParseExpr | include/peglib/Combinators.h:22-345 | Outcome and final context are those of the machine for the same expression; cut scopes below the innermost are untouched and auto-skip is restored on a normal return. |
| Engine.ParseTerminalSeq | include/peglib/Terminals.h:38-76 | The element loop with rollback succeeds iff the whole literal stands at the position, else it rewinds and records one failure at the start. |
| Engine.ParseLeaf | include/peglib/Terminals.h:19-102 | A terminal or token consumes one element if it is the value, in the set, in the range with both ends, or passes the test, and a token also builds the node around it; otherwise one failure is recorded at the position. |
| Engine.ParseMatcher | include/peglib/Terminals.h:110-131 | A callback's span becomes the position and a node, or the matcher fails silently. |
| Engine.ParseSequence | include/peglib/Combinators.h:33-67 | A sequence refines the machine's, rewinding to its start when a child fails. |
| Engine.ParseAlternation | include/peglib/Combinators.h:84-113 | Opens a cut scope, tries the branches, closes the scope on every path: committed failure aborts with no later branch tried. |
| Engine.ParseRep | include/peglib/Combinators.h:134-160 | The repetition loop, with its counter, last end and exit flag, computes the machine's recursive repetition. |
| Engine.EndRep | include/peglib/Combinators.h:162-177 | Too few matches fail before any cut is considered; a committed failure aborts only an unbounded repetition; else the last match stands and gaps are padded. |
| Engine.ParsePredicate | include/peglib/Combinators.h:255-264 | Lookahead rewinds and drops the tree; an abort passes through. |
| Engine.RunSkipper | include/peglib/Context.h:386-394 | The skipper runs with auto-skip off, its result is ignored, and auto-skip is switched back. |
| Engine.ParseRule | include/peglib/NonTerminal.h:85-199 | A rule call refines the machine's: hit, first evaluation, wrap or adopt, failure report and recovery. |
| Engine.Hit | include/peglib/NonTerminal.h:90-121 | All three hit paths return the live entry; only a re-entered rule marks its innermost frame as a head. The index of growing heads never changes a result. |
| Engine.ParseImpl | include/peglib/NonTerminal.h:213-266 | The loop that updates seed, best result and memo in place computes the machine's recursive growth. |
| Engine.GrowOnce | include/peglib/NonTerminal.h:226-263 | One iteration either ends the growth with the machine's result, or publishes a strictly longer seed. |
| Engine.FinishRule | include/peglib/NonTerminal.h:126-198 | Pops the frame, clears the head index, then builds or adopts the node, or reports the rule's label, else its name, and recovers, as the machine does. |
| Engine.ScanForSync | include/peglib/NonTerminal.h:146-149 | The scan loop finds the first sync element at or after the start. |
| Contexts.Context.constructor | include/peglib/Context.h:72-84 | A new context is valid and stands for the fresh state. |
| Contexts.Context.RuleState | include/peglib/Context.h:230-238 | Looks up the two-level memo, inserting a default entry exactly on a miss. |
| Contexts.Context.UpdateRuleState | include/peglib/Context.h:240-254 | Overwrites an entry that is still there and reports false on an evicted one, changing nothing else. |
| Contexts.Context.ClearSiblingsAt | include/peglib/Context.h:323-337 | Erasing while iterating drops exactly the entries at the position of rules other than the kept one that are not being evaluated there. |
| Contexts.Context.MarkCycleHead | include/peglib/NonTerminal.h:95-103 | Walking the stack marks the innermost frame of the rule at the position, and only it. |
| Contexts.Context.LrInProgress | include/peglib/Context.h:293-302 | True iff the rule has a frame at the position. |
| Contexts.Context.RemoveCut | include/peglib/Context.h:361-372 | Pops one scope; a committed one drops exactly the memo rows before its cut. |
| Contexts.Context.RecordFailure | include/peglib/Context.h:409-443 | Keeps the error state a summary of all failure events: the maximal position and exactly the items recorded there. |
| Contexts.Context.TakeError | include/peglib/Context.h:453-463 | Moves out the summary, sorted and without duplicates, iff anything failed, and forgets it. |
| Contexts.SummaryIsUnique | include/peglib/Context.h:409-443 | The summary depends on the set of failure events only, not on their order or repetition, which is why memo hits need not replay failures and lazy recording may skip them. |
| ExpectedSets.ExpectedSet.Insert | include/peglib/ParseError.h:91-98 | Keeps the vector sorted and its elements those before plus the item; reports whether it was new and where it is. |
| ExpectedSets.ExpectedSet.LowerBound | include/peglib/ParseError.h:93-93 | Binary search finds the first element not below the item. |
| ExpectedSets.SortedIsCanonical | include/peglib/ParseError.h:53-62 | A sorted vector is determined by its set of elements, so it can stand for that set. |
| ExpectedSets.ItemOrder | include/peglib/ParseError.h:42-47 | The order of items is a strict total order. |
| ExpectedSets.KindsInOrder | include/peglib/ParseError.h:25-31 | Labels before rule names before literals before ranges, whatever the texts. |
| ExpectedSets.TextsInOrder | include/peglib/ParseError.h:42-47 | Within a kind as in a dictionary: by the first character that differs, and a text before every longer one that it starts. |
| Engine.BuildNode | include/peglib/NonTerminal.h:169-198 | The node of a rule that matched has the rule's name, its span and a maker, the rule itself if it has an action, and is what the machine builds or adopts. |
| Engine.RejectRule | include/peglib/NonTerminal.h:136-166 | A failing rule reports its label, else its name, else nothing, at its start, whether or not it then recovers, as the machine does. |
| FileSources.FileSource.constructor | include/peglib/FileSource.h:30-49 | Opens the file with a valid cache that holds the first two pages as far as there are any. |
| FileSources.FileSource.Get | include/peglib/FileSource.h:78-94 | Every in-range position yields the item of the file there, whatever was read or released before; only a miss reads the file. |
| FileSources.FileSource.ReadTo | include/peglib/FileSource.h:215-225 | Makes the requested position resident, page-aligned, iff it is in the file. |
| FileSources.FileSource.ReleaseBefore | include/peglib/FileSource.h:100-107 | Empties exactly the pages that end at or before the position and leaves the others as they are. |
| FileSources.Page.Fill | include/peglib/FileSource.h:182-191 | A page holds the items of the file from the cursor on, fewer than asked only at the end. |
| FileSources.Page.Item | include/peglib/FileSource.h:202-202 | A resident position of a page yields the item of the file. |
| Desugaring.SkippingIsSugar | include/peglib/Context.h:386-394 | Every parse with a skipper is the parse of `skipper? start` in the grammar in which the skipper stands, as an option, between sequence children and between iterations: an answer of either is the answer of the other, same end, same failures. For grammars without cuts and recovery, with left recursion, one mode per rule, and repeated expressions that consume. |
| Desugaring.SimGrow | include/peglib/NonTerminal.h:208-266 | Growth of a left-recursive rule with auto-skip, through any rules, is growth with gaps: the gap behind the recursion belongs to the tail. |
| Desugaring.RankedApplies | include/peglib/Combinators.h:138-169 | That repeated expressions consume follows from the rules alone, for a ranked grammar. |
| Desugaring.SimExpr | include/peglib/Combinators.h:52-68 | The same for every expression in either mode, including a lexeme inside. |
| Desugaring.SimMore | include/peglib/Combinators.h:138-169 | The iterations behind the first are gap and child repeated: a skip before a failed iteration is rolled back, and bounds and minima agree. |
| Phases.TellExpr | include/peglib/NonTerminal.h:164-198 | On a foldable grammar the tree that a matched expression returns stands for the value of the memo-free bottom-up evaluation, from any memo whose trees do; nodes finished before keep their values, and a node of the expression's own is not yet reachable from the memo. |
| Phases.TellBody | include/peglib/NonTerminal.h:213-266 | The tree of the first pass over a rule body survives the second pass, which re-uses and stamps shared nodes. |
| Phases.TellFinish | include/peglib/NonTerminal.h:169-198 | A node wrapped for an action, adopted from the body, or adopted from another rule stands for the rule's value and is cached as such. |
| Phases.ToldStamped | include/peglib/Combinators.h:100-106 | Stamping the winning branch changes no value that a shared rule node stands for, and gives a branch's own node what the fold needs. |
| Phases.TellRun | include/peglib/Grammar.h:262-279 | A successful parse returns a tree for the memo-free value of the start rule, and leaves a memo that is fit for the next parse. |
| Folds.FoldExpr | include/peglib/ResultType.h:506-525 | The fold of a node for an expression computes the value that the node stands for, and the action calls it makes are exactly the applied actions in that value, arguments first. A repetition with bounds (0, 1) gives an option, and no other; any other gives a list with one item for each child of the node; a token gives the element where its node starts. |
| Repetitions.RepetitionValue | include/peglib/ResultType.h:250-281 | The value of a matched repetition: an option iff its bounds are 0 and 1, else a list of as many values as it made matches; either way the child's values where it matched, in order. |
| Types.SequenceValue | include/peglib/ResultType.h:443-496 | The value of a matched sequence: unit if no child has a result, the result itself if one has, else the tuple of them. |
| Types.NothingIsVoid | include/peglib/ResultType.h:240-281 | An expression in which neither a token nor a rule occurs has no result. |
| Types.SomethingIsNotVoid | include/peglib/ResultType.h:240-281 | Without choices and lookaheads, no other has none. |
| Types.FoldableParts | include/peglib/ResultType.h:240-281 | What can be folded includes tokens, rules, and repetitions with any bounds and lexemes of what can be folded, |
| Types.FoldableSequence | include/peglib/ResultType.h:443-496 | sequences of that and of what has no result and leaves no node but a matcher's, |
| Types.FoldableChoice | include/peglib/ResultType.h:356-396 | and choices of rules only, or of tokens, sequences and repetitions, under lexemes or not, only. |
| Folds.Dispatch | include/peglib/ResultType.h:356-396 | Testing the branch numbers in turn finds the branch that the node was built by; among bare rules the number does not matter. |
| Folds.FoldRep | include/peglib/ResultType.h:398-415 | The cursor loop yields the values of all iterations, in order, each folded once. |
| Folds.FoldSeq | include/peglib/ResultType.h:443-496 | The cursor passes one child for each value and each matcher, and the values collapse to none, one, or a tuple. |
| Folds.FoldRule | include/peglib/ResultType.h:531-538 | A rule reference folds by the rule that built the node, else to the default value. |
| Folds.FoldAndInvoke | include/peglib/ResultType.h:626-648 | An action is called once, after the actions of its argument, with the span and the value folded from the wrapped body. |
| Asts.ParseAst | include/peglib/Grammar.h:287-300 | Parsing and folding gives a value iff the memo-free parse matches, and then its bottom-up value; the action calls made are exactly those in the value, none otherwise. They are the occurrences in the match of rules with actions, each once and in order, iff no occurrence is swallowed. The context can be used again. |
| Asts.ParseRankedAst | include/peglib/Grammar.h:287-300 | The same for ranked grammars without any hypothesis on the parse. |
| Asts.ParseStringAst | include/peglib/Grammar.h:287-312 | And on a context of its own, with conditions on the rules only. |
| Samples.ListsMeetTheConditions | include/peglib/Grammar.h:287-312 | The conditions are met by a usual grammar, all at once: bracketed lists, nested, with an option, a repetition, a choice of rules, a lexeme, tokens, two actions and a skipper, meet those of the transparency, termination, totality, work, desugaring and folding theorems. |
| Samples.ParseLists | include/peglib/Grammar.h:287-312 | So for that grammar nothing is left to assume: every input is parsed and folded to the value of the memo-free parse. |
| Phases.FoldableIf | include/peglib/ResultType.h:531-538 | The conditions on foldable grammars follow from the syntactic ones. |
| Invocations.CountRule | include/peglib/ResultType.h:531-538 | The calls in a rule's value are never more than the occurrences in its match, and are exactly these iff none is swallowed: by a rule without an action whose body is more than a reference, or by a body without a value. |
| Invocations.HandingIsWhole | include/peglib/ResultType.h:531-538 | When that never happens: every rule without an action is a choice of references or has no rules in it, and so has what has no value. |
| Limits.VoidNodesShiftTheCursor | include/peglib/ResultType.h:451-456 | Why folds ask that void sequence children build no node: in `*x token(y)` the cursor stands at the repetition's node when the token is folded and reads the element x, where y was matched. |
| Limits.MixedChoicesShareAStamp | include/peglib/Combinators.h:103-104 | Why folds ask that a choice has only rules or only own nodes as branches: in `(rule / token) (token / rule)` both choices share one node and the second stamp overwrites the first. |

## Left out

- Recognition with recovery, or with cuts outside any choice or repetition of their own rule body, has no
  memo-free counterpart here; the frame, tree and diagnostic theorems still cover it.
- A rule through which another one grows has a meaning under that one only. Entered on its own where its owner has
  grown, it is answered from the entry of the owner's last step (`Leftovers.LaterUse`), rightly or not
  (`Leftovers.LaterUseIsRightIff`). The memo-free semantics has no memo to depend on, so grammars that enter such a
  rule both ways and rules that serve two owners are outside the transparency and iteration theorems; what it answers
  where its owner has grown without entering it last is not stated. Termination, frame and tree theorems cover this.
- Transparency.HistoryIsIrrelevant: for parses that start at no partner; `Leftovers.LaterUsesAreHarmless` adds those
  that start at one where its owner has left it. After a parse that starts at a partner anywhere else, a parse of its
  owner at that position is the later use, under the reading in which the partner grows.
- Packrat.SoundCall: assumes one skip mode per rule, enclosed cuts and no recovery, and of rules marked as grown that
  no cut runs while they grow and that their partners are entered at their starts only; `Limits` shows what the
  code does with two modes, with bare cuts and with cuts inside growth.
- Termination.ParsingTerminates: one direction only; a grammar with cuts may still end.
- Elimination.LeftRecursionIsIteration: asks that base branches consume (`LeftRecursion.AgreesIff` is the exact
  condition without that) and compares outcomes, not failure events: growth tries the base branches again and
  reports partners. It covers recursion that stands first in a branch, or in every branch of what stands first; behind
  a choice between the recursion and something else, as in `r = (r / x) y / z`, growth has its memo-free answer but no
  iteration. With a
  skipper it is `Rewriting.SkippedGrowthIsIteration`.
- Work.WorkIsLinear: for grammars in which no rule re-enters itself before consuming, answered or not
  (`Transparency.AnsweredWorkIsLinear` has the same bound for answered parses of grammars that need no ranks); how
  much growing a left-recursive rule evaluates is bounded per rule entry only (`Growth.GrowthIsMonotone`).
- Phases.TellExpr: for grammars without cuts, recovery and left recursion whose action-bearing bodies are
  `Typed`; during growth a published seed is the unwrapped body node, so folds of left-recursive rules are out,
  and `Limits` shows why the other conditions are needed.
- Desugaring.SkippingIsSugar: for grammars without cuts in which what is repeated in skipping mode never matches
  empty.
- Static result types are modelled by `Void` and `Typed` on expressions; conversions between C++ value types
  and move-only ownership are not.
- `fire_on_match`: a plain pre-order walk over the finished tree.
- The text of expected items and diagnostics, escaping, `SourceMap`, `to_dot`: rendering.
- Files are an immutable sequence of whole items and a cursor; open, seek and read errors are not modelled.
- `release_before` is modelled on the file cache only; the context's call to it after a committed cut frees
  memory and changes no result.
- The C++ type machinery, ownership and lifetime of handles, copying and moving of contexts and sources.
- Reuse of a context after an abort.
