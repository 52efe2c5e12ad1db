/** The parse context: position, two-level memo, left-recursion stack, cut stack, node arena and error
    state, updated in place.  `Abs` is the machine state a context stands for. */
module Contexts {
  import opened Grammars
  import opened Machine
  import opened ExpectedSets

  datatype LRFrame = LRFrame(rule: RuleId, pos: nat, isHead: bool)

  type Memo = map<nat, map<RuleId, Entry>>

  const DEFAULT := Entry(false, 0, None)

  // ---- what the concrete state stands for -------------------------------------------------------

  ghost function Flat(m: Memo): (f: map<Key, Entry>)
    ensures forall k :: k in f <==> k.pos in m && k.rule in m[k.pos]
    ensures forall k | k in f :: f[k] == m[k.pos][k.rule]
  {
    map p, r | p in m && r in m[p] :: Key(p, r) := m[p][r]
  }

  /** A map with the entries of `m` is its flat form. */
  lemma FlatIs(m: Memo, f: map<Key, Entry>)
    requires forall k :: k in f <==> k.pos in m && k.rule in m[k.pos]
    requires forall k | k in f :: f[k] == m[k.pos][k.rule]
    ensures Flat(m) == f
  {
    assert forall k :: k in f <==> k in Flat(m);
  }

  lemma FlatPut(m: Memo, k: Key, row: map<RuleId, Entry>, e: Entry)
    requires row == (if k.pos in m then m[k.pos] else map[])[k.rule := e]
    ensures Flat(m[k.pos := row]) == Flat(m)[k := e]
  {
    hide Flat;
    FlatIs(m[k.pos := row], Flat(m)[k := e]);
  }

  lemma FlatEvict(m: Memo, p0: nat)
    ensures Flat(map p | p in m && p >= p0 :: m[p]) == map k | k in Flat(m) && k.pos >= p0 :: Flat(m)[k]
  {
    hide Flat;
    FlatIs(map p | p in m && p >= p0 :: m[p], map k | k in Flat(m) && k.pos >= p0 :: Flat(m)[k]);
  }

  /** `m'` differs from `m` in the row at `pos` only, which keeps just the entries that pass. */
  lemma FlatErase(m: Memo, m': Memo, lr: seq<Key>, pos: nat, keep: RuleId)
    requires m'.Keys == m.Keys && forall p | p in m && p != pos :: m'[p] == m[p]
    requires pos in m ==> forall r :: r in m'[pos] <==> r in m[pos] && (r == keep || Key(pos, r) in lr)
    requires pos in m ==> forall r | r in m'[pos] :: m'[pos][r] == m[pos][r]
    ensures Flat(m') == map k | k in Flat(m) && (k.pos == pos ==> k.rule == keep || k in lr) :: Flat(m)[k]
  {
    hide Flat;
    FlatIs(m', map k | k in Flat(m) && (k.pos == pos ==> k.rule == keep || k in lr) :: Flat(m)[k]);
  }

  ghost function Keys(lr: seq<LRFrame>): (ks: seq<Key>)
    ensures |ks| == |lr|
    ensures forall i | 0 <= i < |lr| :: ks[i] == Key(lr[i].pos, lr[i].rule)
  {
    seq(|lr|, i requires 0 <= i < |lr| => Key(lr[i].pos, lr[i].rule))
  }

  ghost function Heads(lr: seq<LRFrame>): set<nat> {
    set i: nat | i < |lr| && lr[i].isHead
  }

  ghost function Innermost(cuts: seq<CutRecord>): Option<CutRecord> {
    if cuts == [] then None else Some(cuts[|cuts| - 1])
  }

  /** The error state keeps of all failure events just the furthest position and what was expected there. */
  ghost predicate Summary(failures: set<Failure>, hasError: bool, furthest: nat, items: set<Item>) {
    && (hasError <==> failures != {})
    && (forall f | f in failures :: f.pos <= furthest)
    && (hasError ==> items != {})
    && (forall it :: it in items <==> Failure(furthest, it) in failures)
    && (!hasError ==> furthest == 0)
  }

  /** The summary is a function of the failure events alone. */
  lemma SummaryIsUnique(failures: set<Failure>, e1: bool, f1: nat, s1: set<Item>, e2: bool, f2: nat, s2: set<Item>)
    requires Summary(failures, e1, f1, s1) && Summary(failures, e2, f2, s2)
    ensures e1 == e2 && f1 == f2 && s1 == s2
  {
    if e1 {
      var x1 :| x1 in s1;
      var x2 :| x2 in s2;
      assert Failure(f1, x1) in failures && Failure(f2, x2) in failures;
      assert Failure(f1, x1).pos <= f2 && Failure(f2, x2).pos <= f1;
    }
  }

  class Context {
    const input: Input
    const expected: ExpectedSet
    var position: nat
    var memo: Memo
    var cuts: seq<CutRecord>
    var lastCut: nat
    var lrStack: seq<LRFrame>
    var growingHead: map<nat, RuleId>
    var arena: seq<Node>
    var furthest: nat
    var hasError: bool
    var diagnostics: seq<Diagnostic>
    var skipper: Option<RuleId>
    var skipEnabled: bool
    ghost var failures: set<Failure>
    ghost var evals: nat

    ghost function Abs(): State
      reads this
    {
      State(position, Flat(memo), Keys(lrStack), Heads(lrStack), Innermost(cuts), arena, failures, diagnostics, evals)
    }

    ghost predicate Valid()
      reads this, expected
    {
      && Good(input, Abs())
      && expected.Valid()
      && Summary(failures, hasError, furthest, Elements(expected.items))
    }

    predicate Skipping()
      reads this
    {
      skipEnabled && skipper.Some?
    }

    constructor (input: Input)
      ensures Valid() && this.input == input && Abs() == FRESH && fresh(expected)
      ensures skipEnabled && skipper == None && cuts == []
    {
      this.input := input;
      this.expected := new ExpectedSet();
      position, memo, cuts, lastCut, lrStack, growingHead := 0, map[], [], 0, [], map[];
      arena, furthest, hasError, diagnostics := [], 0, false, [];
      skipper, skipEnabled := None, true;
      failures, evals := {}, 0;
      new;
      assert Heads([]) == {} && Flat(map[]) == map[];
    }

    // ---- nodes ----------------------------------------------------------------------------------

    method MakeNode() returns (n: nat)
      modifies this`arena
      ensures n == |old(arena)| && arena == old(arena) + [BLANK]
    {
      n := |arena|;
      arena := arena + [BLANK];
    }

    // ---- memo -----------------------------------------------------------------------------------

    /** Looks up the entry of a rule at a position, inserting a default one on a miss. */
    method RuleState(rule: RuleId, pos: nat) returns (inserted: bool, e: Entry)
      modifies this`memo
      ensures var k := Key(pos, rule);
              && inserted == (k !in old(Flat(memo)))
              && Flat(memo) == (if inserted then old(Flat(memo))[k := DEFAULT] else old(Flat(memo)))
              && e == Flat(memo)[k]
    {
      var row: map<RuleId, Entry> := if pos in memo then memo[pos] else map[];
      inserted := rule !in row;
      if inserted {
        row := row[rule := DEFAULT];
        FlatPut(memo, Key(pos, rule), row, DEFAULT);
        memo := memo[pos := row];
      }
      e := row[rule];
    }

    /** Overwrites an entry that is still there; fails on one that was evicted. */
    method UpdateRuleState(rule: RuleId, pos: nat, e: Entry) returns (ok: bool)
      modifies this`memo
      ensures ok == (Key(pos, rule) in old(Flat(memo)))
      ensures Flat(memo) == Update(old(Flat(memo)), Key(pos, rule), e)
    {
      ok := pos in memo && rule in memo[pos];
      if ok {
        var row: map<RuleId, Entry> := memo[pos];
        row := row[rule := e];
        FlatPut(memo, Key(pos, rule), row, e);
        memo := memo[pos := row];
      }
    }

    method MemoGet(rule: RuleId, pos: nat) returns (e: Entry)
      ensures Key(pos, rule) in Flat(memo) ==> e == Flat(memo)[Key(pos, rule)]
      ensures Key(pos, rule) !in Flat(memo) ==> e == DEFAULT
    {
      if pos in memo && rule in memo[pos] { e := memo[pos][rule]; } else { e := DEFAULT; }
    }

    // ---- left-recursion stack -------------------------------------------------------------------

    method LrPush(rule: RuleId, pos: nat)
      modifies this`lrStack
      ensures Keys(lrStack) == old(Keys(lrStack)) + [Key(pos, rule)]
      ensures Heads(lrStack) == old(Heads(lrStack))
    {
      ghost var before := lrStack;
      lrStack := lrStack + [LRFrame(rule, pos, false)];
      assert forall i: nat | i < |before| :: lrStack[i] == before[i];
    }

    method LrPop()
      requires lrStack != []
      modifies this`lrStack
      ensures Keys(lrStack) == old(Keys(lrStack))[..|old(lrStack)| - 1]
      ensures Heads(lrStack) == old(Heads(lrStack)) - {|old(lrStack)| - 1}
    {
      ghost var before := lrStack;
      lrStack := lrStack[..|lrStack| - 1];
      assert forall i: nat | i < |lrStack| :: lrStack[i] == before[i];
    }

    /** Whether the rule is being evaluated at the position, scanning from the innermost frame. */
    method LrInProgress(rule: RuleId, pos: nat) returns (b: bool)
      ensures b == (Key(pos, rule) in Keys(lrStack))
    {
      var i := |lrStack|;
      while i > 0
        invariant 0 <= i <= |lrStack|
        invariant forall j | i <= j < |lrStack| :: Keys(lrStack)[j] != Key(pos, rule)
      {
        i := i - 1;
        if lrStack[i].pos == pos && lrStack[i].rule == rule {
          assert Keys(lrStack)[i] == Key(pos, rule);
          return true;
        }
      }
      b := false;
    }

    /** Marks the innermost frame of the rule at the position as a head, and registers it. */
    method MarkCycleHead(rule: RuleId, pos: nat)
      requires Key(pos, rule) in Keys(lrStack)
      modifies this`lrStack, this`growingHead
      ensures Keys(lrStack) == old(Keys(lrStack))
      ensures Heads(lrStack) == old(Heads(lrStack)) + {TopFrame(old(Keys(lrStack)), Key(pos, rule)).value}
      ensures growingHead ==
                if TopFrame(old(Keys(lrStack)), Key(pos, rule)).value in old(Heads(lrStack)) then old(growingHead)
                else old(growingHead)[pos := rule]
    {
      ghost var ks := Keys(lrStack);
      var i := |lrStack| - 1;
      while !(lrStack[i].pos == pos && lrStack[i].rule == rule)
        invariant 0 <= i < |lrStack|
        invariant forall j | i < j < |lrStack| :: ks[j] != Key(pos, rule)
        decreases i
      {
        assert ks[i] != Key(pos, rule);
        if i == 0 { assert false; }
        i := i - 1;
      }
      TopFrameIs(ks, Key(pos, rule), i);
      if !lrStack[i].isHead {
        ghost var before := lrStack;
        lrStack := lrStack[i := lrStack[i].(isHead := true)];
        growingHead := growingHead[pos := rule];
        assert forall j: nat | j < |before| && j != i :: lrStack[j] == before[j];
      }
    }

    method ClearGrowingHead(pos: nat)
      modifies this`growingHead
      ensures growingHead == old(growingHead) - {pos}
    {
      growingHead := growingHead - {pos};
    }

    /** Erases, one by one, the entries at `pos` other than `keep` and the rules in progress there. */
    method ClearSiblingsAt(pos: nat, keep: RuleId)
      modifies this`memo
      ensures Abs() == ClearSiblings(old(Abs()), pos, keep)
    {
      ghost var m, lr := memo, Keys(lrStack);
      if pos in memo {
        var row := memo[pos];
        var todo := row.Keys;
        while todo != {}
          invariant pos in memo && memo.Keys == m.Keys && todo <= memo[pos].Keys <= row.Keys
          invariant forall p | p in m && p != pos :: memo[p] == m[p]
          invariant forall r | r in memo[pos] :: memo[pos][r] == row[r]
          invariant forall r | r in row && r !in todo :: r in memo[pos] <==> r == keep || Key(pos, r) in lr
          decreases todo
        {
          var r :| r in todo;
          var busy := LrInProgress(r, pos);
          if r != keep && !busy {
            var rest: map<RuleId, Entry> := memo[pos] - {r};
            memo := memo[pos := rest];
          }
          todo := todo - {r};
        }
      }
      FlatErase(m, memo, lr, pos, keep);
    }

    // ---- cut stack ------------------------------------------------------------------------------

    method CutTo(c: bool)
      modifies this`cuts
      ensures cuts == if old(cuts) == [] then [] else old(cuts)[|old(cuts)| - 1 := CutRecord(position, c)]
    {
      if cuts != [] { cuts := cuts[|cuts| - 1 := CutRecord(position, c)]; }
    }

    method IsCut() returns (b: bool)
      ensures b == CutSet(Abs())
    {
      b := cuts != [] && cuts[|cuts| - 1].cut;
    }

    method InitCut()
      modifies this`cuts
      ensures cuts == old(cuts) + [CutRecord(position, false)]
    {
      cuts := cuts + [CutRecord(position, false)];
    }

    /** Closes the innermost scope; a committed one erases the memo rows before its cut. */
    method RemoveCut()
      requires cuts != []
      modifies this`cuts, this`lastCut, this`memo
      ensures cuts == old(cuts)[..|old(cuts)| - 1]
      ensures lastCut == if CutSet(old(Abs())) then old(cuts)[|old(cuts)| - 1].pos else old(lastCut)
      ensures Abs() == CloseScope(old(Abs()), Innermost(cuts))
    {
      var committed := IsCut();
      if committed {
        lastCut := cuts[|cuts| - 1].pos;
        FlatEvict(memo, lastCut);
        memo := map p | p in memo && p >= lastCut :: memo[p];
      }
      cuts := cuts[..|cuts| - 1];
    }

    // ---- errors ---------------------------------------------------------------------------------

    /** Furthest wins, same position accumulates, earlier is ignored. */
    method RecordFailure(pos: nat, item: Item)
      requires Valid()
      modifies this`furthest, this`hasError, this`failures, expected
      ensures Valid() && Abs() == Record(old(Abs()), {Failure(pos, item)})
    {
      hide Flat, Keys, Heads;
      if !hasError || pos > furthest {
        furthest := pos;
        expected.Clear();
        var _, _ := expected.Insert(item);
        hasError := true;
      } else if pos == furthest {
        var _, _ := expected.Insert(item);
      }
      failures := failures + {Failure(pos, item)};
      assert Elements([]) == {};
    }

    /** Moves the error out: the furthest failure position and what was expected there, if any failed. */
    method TakeError() returns (d: Option<(nat, seq<Item>)>)
      requires Valid()
      modifies this`furthest, this`hasError, this`failures, expected
      ensures Valid() && failures == {} && !hasError
      ensures d.None? <==> old(failures) == {}
      ensures d.Some? ==> Sorted(d.value.1) && Summary(old(failures), true, d.value.0, Elements(d.value.1))
    {
      if hasError {
        d := Some((furthest, expected.items));
      } else {
        d := None;
      }
      hasError, furthest, failures := false, 0, {};
      expected.Clear();
      assert Elements([]) == {};
    }

    method RecordDiagnostic(pos: nat, item: Item)
      modifies this`diagnostics
      ensures diagnostics == old(diagnostics) + [Diagnostic(pos, item)]
    {
      diagnostics := diagnostics + [Diagnostic(pos, item)];
    }
  }

  lemma {:induction false} TopFrameIs(lr: seq<Key>, k: Key, i: nat)
    requires i < |lr| && lr[i] == k && forall j | i < j < |lr| :: lr[j] != k
    ensures TopFrame(lr, k) == Some(i)
    decreases |lr|
  {
    if i < |lr| - 1 {
      TopFrameIs(lr[..|lr| - 1], k, i);
    }
  }
}
