/** What it means for a memo, and for a step of the machine, to agree with the memo-free semantics. */
module Soundness {
  import opened Grammars
  import opened Machine
  import opened Peg
  import opened Forms
  import Depth

  /** A grammar, an input, and the auto-skip mode of every rule; `calm` while only quiet rules are entered. */
  datatype Setting = Setting(g: Grammar, inp: Input, mode: RuleId -> bool, calm: bool := false)

  /** No cut is run. */
  ghost predicate Tame(c: Setting) { NoCuts(c.g) || c.calm }

  // ---- soundness of a memo ----------------------------------------------------------------------

  /** The memo-free answer of a rule at a position, within depth `k`. */
  ghost function Means(c: Setting, k: nat, key: Key): (a: Option<Answer>)
    requires key.pos <= |c.inp|
  {
    PegCall(c.g, c.inp, k, c.mode(key.rule), key.rule, key.pos)
  }

  ghost predicate Agrees(e: Entry, o: Out) {
    if e.ok then o == Yes(e.end) else o == No
  }

  /** A seed to continue from, or none. */
  ghost predicate SeedAt(c: Setting, key: Key, seed: Option<nat>) {
    key.pos <= |c.inp| && (seed.Some? ==> key.pos < seed.value <= |c.inp|)
  }

  /** The answer of partner m of the rule of `key`, as one step from the seed sees it. */
  ghost function PartMeans(c: Setting, k: nat, key: Key, seed: Option<nat>, m: RuleId): Option<Answer>
    requires SeedAt(c, key, seed)
  {
    PegIn(c.g, c.inp, k, c.mode(key.rule), key.rule, Rule(m), key.pos, seed)
  }

  ghost predicate PartIs(c: Setting, k: nat, key: Key, seed: Option<nat>, m: RuleId, e: Entry, failures: set<Failure>)
    requires SeedAt(c, key, seed)
  {
    var a := PartMeans(c, k, key, seed, m);
    a.Some? && Agrees(e, a.value.out) && a.value.evs <= failures
  }

  /** A step from the seed answers the partner, with the entry, and its failures are recorded. */
  ghost predicate PartSound(c: Setting, key: Key, seed: Option<nat>, m: RuleId, e: Entry, failures: set<Failure>)
    requires SeedAt(c, key, seed)
  {
    exists k: nat :: PartIs(c, k, key, seed, m, e, failures)
  }

  /** The seed of the last step of a growth with outcome `o`. */
  ghost function Final(key: Key, o: Out): Option<nat> {
    if o.Yes? && o.end > key.pos then Some(o.end) else None
  }

  /** Once the growth of `key` is over, the entry of a partner is the last step's. */
  ghost predicate SettledAt(c: Setting, key: Key, m: RuleId, e: Entry, failures: set<Failure>)
    requires key.pos <= |c.inp|
  {
    exists k: nat :: Means(c, k, key).Some?
        && PartSound(c, key, Final(key, Means(c, k, key).value.out), m, e, failures)
  }

  /** The entries of partners whose owners are not under evaluation. */
  ghost predicate Settled(c: Setting, s: State) {
    forall key | key in s.memo && IsPartner(c.g, key.rule) && Key(key.pos, Owner(c.g, key.rule)) !in s.lr ::
      key.pos <= |c.inp|
      && SettledAt(c, Key(key.pos, Owner(c.g, key.rule)), key.rule, s.memo[key], s.failures)
  }

  /** If the rule has an answer there at all, the entry is that answer and its failures are recorded. */
  ghost predicate EntrySound(c: Setting, key: Key, e: Entry, failures: set<Failure>)
    requires key.pos <= |c.inp|
  {
    forall k: nat :: Means(c, k, key).Some? ==>
      Agrees(e, Means(c, k, key).value.out) && Means(c, k, key).value.evs <= failures
  }

  /** Entries of completed rules are sound. */
  ghost predicate EntriesSound(c: Setting, s: State)
    requires Good(c.inp, s)
  {
    forall key | key in s.memo && key !in s.lr :: EntrySound(c, key, s.memo[key], s.failures)
  }

  /** Entries belong to rules of the grammar; an entry or frame of a partner comes with its owner's. */
  ghost predicate Owned(c: Setting, s: State) {
    && (forall key | key in s.memo :: key.rule in c.g.rules)
    && (forall key | key in s.memo && IsPartner(c.g, key.rule) :: Key(key.pos, Owner(c.g, key.rule)) in s.memo)
    && (forall key | key in s.lr && IsPartner(c.g, key.rule) :: Key(key.pos, Owner(c.g, key.rule)) in s.lr)
  }

  ghost predicate MemoSound(c: Setting, s: State)
    requires Good(c.inp, s)
  {
    EntriesSound(c, s) && Owned(c, s)
  }

  ghost predicate Sound(c: Setting, s: State) {
    Good(c.inp, s) && MemoSound(c, s)
  }

  /** No rule under evaluation has an answer within depth `h`: what is evaluated at depth `h` cannot
      re-enter one of them. */
  ghost predicate Above(c: Setting, h: nat, lr: seq<Key>) {
    forall key | key in lr :: key.pos <= |c.inp| && Means(c, h, key).None?
  }

  /** While only quiet rules are entered, the skipper is one. */
  ghost predicate CalmSkip(c: Setting) {
    c.calm && c.g.skipper.Some? ==> Quiet(c.g, c.g.skipper.value)
  }

  ghost predicate Ready(c: Setting, h: nat, s: State) {
    WellFormed(c.g, c.mode) && Sound(c, s) && Above(c, h, s.lr) && CalmSkip(c)
  }

  /** Rules whose frame a piece of their own growth may mark as a head, whose entry it may rewrite, or
      whose partners it may enter. */
  datatype Exempt = Exempt(heads: set<Key>, entries: set<Key>, partners: set<Key>)
  {
    ghost predicate Within(y: Exempt) {
      heads <= y.heads && entries <= y.entries && partners <= y.partners
    }
  }

  const NOTHING := Exempt({}, {}, {})

  /** No frame but those exempt becomes a head, and none stops being one. */
  ghost predicate HeadsKept(x: Exempt, s: State, s': State) {
    s.heads <= s'.heads && forall i | i in s'.heads :: i in s.heads || (i < |s.lr| && s.lr[i] in x.heads)
  }

  /** Without cuts the entries of rules under evaluation stay as they are, but those exempt. */
  ghost predicate EntriesKept(c: Setting, x: Exempt, s: State, s': State) {
    Tame(c) ==> forall key | key in s.lr && key in s.memo && key !in x.entries ::
      key in s'.memo && s'.memo[key] == s.memo[key]
  }

  /** No partner of a rule under evaluation is entered or changed, but those exempt. */
  ghost predicate PartnersKept(c: Setting, x: Exempt, s: State, s': State) {
    forall key | key in s'.memo && IsPartner(c.g, key.rule)
                 && Key(key.pos, Owner(c.g, key.rule)) in s.lr
                 && Key(key.pos, Owner(c.g, key.rule)) !in x.partners ::
      key in s.memo && (key !in s.lr ==> s'.memo[key] == s.memo[key])
  }

  /** Without cuts and left recursion every two body evaluations are paid for by a new entry. */
  ghost predicate WorkPaid(c: Setting, s: State, s': State) {
    NoCuts(c.g) && NoLeftRec(c.g) ==>
      s.memo.Keys <= s'.memo.Keys && s'.evals + 2 * |s.memo| <= s.evals + 2 * |s'.memo|
  }

  ghost predicate SettledKept(c: Setting, s: State, s': State) { Settled(c, s) ==> Settled(c, s') }

  ghost predicate FramesKept(c: Setting, x: Exempt, s: State, s': State) {
    && HeadsKept(x, s, s') && EntriesKept(c, x, s, s') && PartnersKept(c, x, s, s') && WorkPaid(c, s, s')
    && SettledKept(c, s, s')
  }

  /** How a faithful step changes the state; failures grow by exactly `evs`. */
  ghost predicate Moves(c: Setting, x: Exempt, s: State, s': State, evs: set<Failure>) {
    && Sound(c, s')
    && s'.lr == s.lr
    && s'.failures == s.failures + evs
    && FramesKept(c, x, s, s')
  }

  /** The machine's result is the memo-free answer `a`. */
  ghost predicate Faithful(c: Setting, x: Exempt, s: State, r: Result, a: Answer) {
    match a.out
    case Yes(end) => r.out.Ok? && r.st.pos == end && Moves(c, x, s, r.st, a.evs)
    case No => r.out.Fail? && Moves(c, x, s, r.st, a.evs)
    case Throw => r.out.Abort? && r.st.failures == s.failures + a.evs
  }

  ghost predicate Flagged(s: State, cut: bool) {
    s.scope.Some? && s.scope.value.cut == cut
  }

  /** The enclosing cut scope afterwards: untouched if all cuts are enclosed, and flagged as answered. */
  ghost predicate Scoped(s: State, r: Result, enclosed: bool, cut: bool, a: Answer) {
    r.out.Normal() ==>
      && (enclosed ==> r.st.scope == s.scope)
      && (Flagged(s, cut) ==> Flagged(r.st, a.cut))
  }

  // ---- settled partners -------------------------------------------------------------------------

  /** Dropping entries and recording failures. */
  lemma SettledLess(c: Setting, s: State, s': State)
    requires Settled(c, s) && s'.lr == s.lr && s.failures <= s'.failures
    requires forall key | key in s'.memo && IsPartner(c.g, key.rule) && Key(key.pos, Owner(c.g, key.rule)) !in s.lr ::
               key in s.memo && s'.memo[key] == s.memo[key]
    ensures Settled(c, s')
  {
    hide SettledAt;
    forall key | key in s'.memo && IsPartner(c.g, key.rule) && Key(key.pos, Owner(c.g, key.rule)) !in s.lr
      ensures key.pos <= |c.inp|
          && SettledAt(c, Key(key.pos, Owner(c.g, key.rule)), key.rule, s'.memo[key], s'.failures)
    {
      SettledMore(c, Key(key.pos, Owner(c.g, key.rule)), key.rule, s.memo[key], s.failures, s'.failures);
    }
  }

  lemma SettledSame(c: Setting, s: State, s': State)
    requires s'.memo == s.memo && s'.lr == s.lr && s'.failures == s.failures
    ensures Settled(c, s) <==> Settled(c, s')
  {
    hide SettledAt;
  }

  lemma SettledMore(c: Setting, key: Key, m: RuleId, e: Entry, failures: set<Failure>, failures': set<Failure>)
    requires key.pos <= |c.inp| && SettledAt(c, key, m, e, failures) && failures <= failures'
    ensures SettledAt(c, key, m, e, failures')
  {
    hide PegCall, PegIn, PartSound;
    var k: nat :| Means(c, k, key).Some?
        && PartSound(c, key, Final(key, Means(c, k, key).value.out), m, e, failures);
    PartMore(c, key, Final(key, Means(c, k, key).value.out), m, e, failures, failures');
  }

  lemma PartMore(c: Setting, key: Key, seed: Option<nat>, m: RuleId, e: Entry, failures: set<Failure>,
      failures': set<Failure>)
    requires SeedAt(c, key, seed) && PartSound(c, key, seed, m, e, failures) && failures <= failures'
    ensures PartSound(c, key, seed, m, e, failures')
  {
    hide PartMeans;
    var d: nat :| PartIs(c, d, key, seed, m, e, failures);
    assert PartIs(c, d, key, seed, m, e, failures');
  }

  /** It does not matter whether only quiet rules are entered. */
  lemma SettledCalm(c: Setting, c': Setting, s: State)
    requires c'.g == c.g && c'.inp == c.inp && c'.mode == c.mode && Settled(c, s)
    ensures Settled(c', s)
  {
    hide PegCall, PegIn;
    forall key | key in s.memo && IsPartner(c.g, key.rule) && Key(key.pos, Owner(c.g, key.rule)) !in s.lr
      ensures SettledAt(c', Key(key.pos, Owner(c.g, key.rule)), key.rule, s.memo[key], s.failures)
    {
      SettledAtCalm(c, c', Key(key.pos, Owner(c.g, key.rule)), key.rule, s.memo[key], s.failures);
    }
  }

  lemma SettledAtCalm(c: Setting, c': Setting, key: Key, m: RuleId, e: Entry, failures: set<Failure>)
    requires c'.g == c.g && c'.inp == c.inp && c'.mode == c.mode
    requires key.pos <= |c.inp| && SettledAt(c, key, m, e, failures)
    ensures SettledAt(c', key, m, e, failures)
  {
    hide PegCall, PegIn;
    var k: nat :| Means(c, k, key).Some?
        && PartSound(c, key, Final(key, Means(c, k, key).value.out), m, e, failures);
    var seed := Final(key, Means(c, k, key).value.out);
    var d: nat :| PartIs(c, d, key, seed, m, e, failures);
    assert Means(c', k, key) == Means(c, k, key) && PartIs(c', d, key, seed, m, e, failures);
  }

  // ---- steps compose ----------------------------------------------------------------------------

  lemma MovesTrans(c: Setting, x: Exempt, s: State, s1: State, s2: State, evs1: set<Failure>, evs2: set<Failure>)
    requires Moves(c, x, s, s1, evs1) && Moves(c, x, s1, s2, evs2)
    ensures Moves(c, x, s, s2, evs1 + evs2)
  {
    hide MemoSound, Bounded;
  }

  /** Changing only the position, the cut scope or the tree arena. */
  lemma MovesIdle(c: Setting, x: Exempt, s: State, s': State)
    requires Sound(c, s) && s'.pos <= |c.inp| && |s.arena| <= |s'.arena|
    requires s'.memo == s.memo && s'.lr == s.lr && s'.heads == s.heads
    requires s'.failures == s.failures && s'.evals == s.evals
    ensures Moves(c, x, s, s', {})
  {
  }

  /** A step followed by an idle one. */
  lemma MovesOn(c: Setting, x: Exempt, s: State, s1: State, s2: State, evs: set<Failure>)
    requires Moves(c, x, s, s1, evs)
    requires s2.pos <= |c.inp| && |s1.arena| <= |s2.arena|
    requires s2.memo == s1.memo && s2.lr == s1.lr && s2.heads == s1.heads
    requires s2.failures == s1.failures && s2.evals == s1.evals
    ensures Moves(c, x, s, s2, evs)
  {
    hide MemoSound, FramesKept, Bounded;
    MovesIdle(c, x, s1, s2);
    MovesTrans(c, x, s, s1, s2, evs, {});
    assert evs + {} == evs;
  }

  lemma MovesRecord(c: Setting, s: State, evs: set<Failure>)
    requires Sound(c, s)
    ensures Moves(c, NOTHING, s, Record(s, evs), evs)
  {
    hide Settled;
    if Settled(c, s) { SettledLess(c, s, Record(s, evs)); }
  }

  lemma MovesWeaken(c: Setting, x: Exempt, y: Exempt, s: State, s': State, evs: set<Failure>)
    requires Moves(c, x, s, s', evs) && x.Within(y)
    ensures Moves(c, y, s, s', evs)
  {
    hide MemoSound, Bounded;
  }

  /** Body evaluations counted on both sides, or paid for in advance. */
  lemma MovesPaid(c: Setting, x: Exempt, s: State, s': State, evs: set<Failure>, d: nat)
    requires Moves(c, x, s, s', evs)
    ensures Moves(c, x, s.(evals := s.evals + d), s', evs)
    ensures Moves(c, x, s.(evals := s.evals + d), s'.(evals := s'.evals + d), evs)
  {
    hide EntrySound, EntryGood, Settled;
    SettledSame(c, s, s.(evals := s.evals + d));
    SettledSame(c, s', s'.(evals := s'.evals + d));
  }

  lemma SettledWrite(c: Setting, key: Key, e: Entry, s: State, s': State)
    requires Owned(c, s) && key in s.lr && s'.memo == Update(s.memo, key, e)
    requires s'.lr == s.lr && s.failures <= s'.failures
    ensures SettledKept(c, s, s')
  {
    hide Settled;
    if Settled(c, s) { SettledLess(c, s, s'); }
  }

  lemma EntriesWrite(c: Setting, key: Key, e: Entry, s: State, s': State)
    requires Good(c.inp, s) && Good(c.inp, s') && EntriesSound(c, s) && key in s.lr
    requires s'.memo == Update(s.memo, key, e) && s'.lr == s.lr && s'.failures == s.failures
    ensures EntriesSound(c, s')
  {
    hide EntrySound, EntryGood;
  }

  /** Rewriting the entry of a rule under evaluation. */
  lemma MovesWrite(c: Setting, x: Exempt, key: Key, e: Entry, s: State, s': State)
    requires Sound(c, s) && key in s.lr && key in x.entries && Good(c.inp, s')
    requires s'.memo == Update(s.memo, key, e) && s'.lr == s.lr && s'.heads == s.heads
    requires s'.failures == s.failures && s'.evals == s.evals
    ensures Moves(c, x, s, s', {})
  {
    hide EntriesSound, Bounded, SettledKept;
    assert s'.memo.Keys == s.memo.Keys;
    SettledWrite(c, key, e, s, s');
    EntriesWrite(c, key, e, s, s');
  }

  lemma SettledClose(c: Setting, s: State, outer: Option<CutRecord>)
    ensures SettledKept(c, s, CloseScope(s, outer))
  {
    hide Settled;
    if Settled(c, s) { SettledLess(c, s, CloseScope(s, outer)); }
  }

  lemma SoundClose(c: Setting, s: State, outer: Option<CutRecord>)
    requires Sound(c, s)
    ensures Sound(c, CloseScope(s, outer))
  {
    hide EntrySound, EntryGood;
    var s1 := CloseScope(s, outer);
    assert forall key | key in s1.memo :: key in s.memo && s1.memo[key] == s.memo[key];
    forall key | key in s1.memo && IsPartner(c.g, key.rule)
      ensures Key(key.pos, Owner(c.g, key.rule)) in s1.memo
    {
      assert Key(key.pos, Owner(c.g, key.rule)) in s.memo;
    }
  }

  /** Leaving a cut scope only drops entries, and none in a grammar without cuts. */
  lemma MovesClose(c: Setting, x: Exempt, s: State, s1: State, outer: Option<CutRecord>, evs: set<Failure>)
    requires Moves(c, x, s, s1, evs)
    requires Tame(c) ==> !CutSet(s1)
    ensures Moves(c, x, s, CloseScope(s1, outer), evs)
  {
    hide Settled, MemoSound, Bounded;
    SettledClose(c, s1, outer);
    SoundClose(c, s1, outer);
  }

  // ---- depth ------------------------------------------------------------------------------------

  lemma AboveLower(c: Setting, h: nat, h': nat, lr: seq<Key>)
    requires Above(c, h, lr) && h' <= h
    ensures Above(c, h', lr)
  {
    forall key | key in lr ensures Means(c, h', key).None? {
      Depth.DeeperCall(c.g, c.inp, h', h, c.mode(key.rule), key.rule, key.pos);
    }
  }

  /** The least depth at which a rule has its answer. */
  lemma {:induction false} Least(c: Setting, h: nat, key: Key) returns (m: nat)
    requires key.pos <= |c.inp| && Means(c, h, key).Some?
    ensures 0 < m <= h && Means(c, m, key) == Means(c, h, key) && Means(c, m - 1, key).None?
  {
    if Means(c, h - 1, key).None? {
      m := h;
    } else {
      m := Least(c, h - 1, key);
      Depth.DeeperCall(c.g, c.inp, h - 1, h, c.mode(key.rule), key.rule, key.pos);
    }
  }

  lemma SameMeaning(c: Setting, k: nat, k': nat, key: Key)
    requires key.pos <= |c.inp| && Means(c, k, key).Some? && Means(c, k', key).Some?
    ensures Means(c, k, key) == Means(c, k', key)
  {
    Depth.DeeperCall(c.g, c.inp, if k <= k' then k else k', if k <= k' then k'
        else k, c.mode(key.rule), key.rule, key.pos);
  }

  /** A faithful result inside a scope of its own is faithful outside. */
  lemma Closed(c: Setting, x: Exempt, s: State, s1: State, r: Result, a: Answer)
    requires Moves(c, x, s, s1, {}) && Faithful(c, x, s1, r, a)
    requires r.out.Normal() && Tame(c) ==> !CutSet(r.st)
    ensures Faithful(c, x, s, Result(r.out, CloseScope(r.st, s.scope)), a)
  {
    hide MemoSound, FramesKept;
    Chain(c, x, s, s1, r, {}, a);
    if r.out.Normal() {
      assert {} + a.evs == a.evs;
      MovesClose(c, x, s, r.st, s.scope, a.evs);
    }
  }

  /** A failed sequence rewinds to its start. */
  lemma Rewound(c: Setting, x: Exempt, s: State, s1: State, r: Result, a: Answer)
    requires Sound(c, s) && Moves(c, x, s, s1, {}) && Faithful(c, x, s1, r, a)
    ensures Faithful(c, x, s, if r.out.Fail? then Result(Fail, r.st.(pos := s.pos)) else r, a)
  {
    hide MemoSound, FramesKept;
    Chain(c, x, s, s1, r, {}, a);
    assert {} + a.evs == a.evs;
    if r.out.Fail? {
      MovesOn(c, x, s, r.st, r.st.(pos := s.pos), a.evs);
    }
  }

  /** A faithful result after a faithful step. */
  lemma Chain(c: Setting, x: Exempt, s: State, s1: State, r: Result, evs1: set<Failure>, a: Answer)
    requires Moves(c, x, s, s1, evs1) && Faithful(c, x, s1, r, a)
    ensures Faithful(c, x, s, r, a.After(evs1))
  {
    hide MemoSound, FramesKept;
    if !a.out.Throw? {
      MovesTrans(c, x, s, s1, r.st, evs1, a.evs);
    }
  }

  lemma FaithfulWeaken(c: Setting, x: Exempt, y: Exempt, s: State, r: Result, a: Answer)
    requires Faithful(c, x, s, r, a) && x.Within(y)
    ensures Faithful(c, y, s, r, a)
  {
    hide MemoSound, FramesKept;
    if !a.out.Throw? {
      MovesWeaken(c, x, y, s, r.st, a.evs);
    }
  }

  // ---- publishing the answer of a rule ----------------------------------------------------------

  /** `s3` is `s2` after leaving the rule of `key`, entered from `s`, and publishing `entry` for it. */
  ghost predicate Published(key: Key, s: State, s2: State, s3: State, entry: Entry, report: set<Failure>) {
    && s3.memo == Update(s2.memo, key, entry)
    && s3.lr == s.lr
    && s3.heads == s2.heads - {|s.lr|}
    && s3.failures == s2.failures + report
    && s3.evals == s2.evals
  }

  /** What entering the rule of `key` leaves exempt once it is left again. */
  ghost predicate Outside(c: Setting, key: Key, x: Exempt, y: Exempt) {
    && x.heads <= y.heads + {key} && x.entries <= y.entries + {key} && x.partners <= y.partners + {key}
    && (IsPartner(c.g, key.rule) ==>
          Owner(c.g, key.rule) != key.rule && Key(key.pos, Owner(c.g, key.rule)) in y.partners)
  }

  lemma PublishedSound(c: Setting, h: nat, x: Exempt, key: Key, s: State, s2: State, s3: State, entry: Entry,
      report: set<Failure>, evs: set<Failure>, a: Answer)
    requires Sound(c, s) && key !in s.lr && key.pos <= |c.inp| && key.rule in c.g.rules
    requires Moves(c, x, Enter(s, key).(evals := s.evals + 2), s2, evs)
    requires Published(key, s, s2, s3, entry, report) && Good(c.inp, s3)
    requires IsPartner(c.g, key.rule) || (Means(c, h, key) == Some(a) && Agrees(entry, a.out) && a.evs == evs + report)
    ensures Sound(c, s3)
  {
    hide FramesKept;
    forall k2 | k2 in s3.memo && k2 !in s3.lr
      ensures EntrySound(c, k2, s3.memo[k2], s3.failures)
    {
      if k2 != key {
        assert EntrySound(c, k2, s2.memo[k2], s2.failures);
      } else if !IsPartner(c.g, key.rule) {
        forall k: nat | Means(c, k, key).Some? ensures Means(c, k, key) == Some(a) {
          SameMeaning(c, k, h, key);
        }
      }
    }
  }

  lemma PublishedKept(c: Setting, key: Key, x: Exempt, y: Exempt, s: State, s2: State, s3: State, entry: Entry,
      report: set<Failure>, evs: set<Failure>)
    requires Good(c.inp, s) && key !in s.memo && key !in s.lr
    requires Moves(c, x, Enter(s, key).(evals := s.evals + 2), s2, evs)
    requires Published(key, s, s2, s3, entry, report) && Outside(c, key, x, y) && PartnersSettled(c, key, s2)
    ensures FramesKept(c, y, s, s3)
  {
    hide EntriesSound, Bounded, HeadsKept, EntriesKept, PartnersKept, WorkPaid, Published, SettledKept,
        PartnersSettled, Owned;
    SettledPublished(c, key, s, s2, s3, entry, report);
    HeadsPublished(c, key, x, y, s, s2, s3, entry, report);
    EntriesPublished(c, key, x, y, s, s2, s3, entry, report);
    PartnersPublished(c, key, x, y, s, s2, s3, entry, report);
    WorkPublished(c, key, s, s2, s3, entry, report);
  }

  /** The partners of a rule that is being left are settled. */
  ghost predicate PartnersSettled(c: Setting, key: Key, s: State) {
    forall m | IsPartner(c.g, m) && Owner(c.g, m) == key.rule && Key(key.pos, m) in s.memo ::
      key.pos <= |c.inp| && SettledAt(c, key, m, s.memo[Key(key.pos, m)], s.failures)
  }

  lemma SettledPublished(c: Setting, key: Key, s: State, s2: State, s3: State, entry: Entry, report: set<Failure>)
    requires key !in s.memo && key !in s.lr && s2.lr == s.lr + [key] && Owned(c, s2)
    requires SettledKept(c, Enter(s, key).(evals := s.evals + 2), s2) && PartnersSettled(c, key, s2)
    requires Published(key, s, s2, s3, entry, report)
    requires IsPartner(c.g, key.rule) ==> Owner(c.g, key.rule) != key.rule
    ensures SettledKept(c, s, s3)
  {
    hide SettledAt;
    assert key in s2.lr && forall k | k in s.lr :: k in s2.lr;
    if Settled(c, s) {
      assert IsPartner(c.g, key.rule) ==> Key(key.pos, Owner(c.g, key.rule)) in s.lr + [key];
      assert Settled(c, Enter(s, key).(evals := s.evals + 2));
      forall k | k in s3.memo && IsPartner(c.g, k.rule) && Key(k.pos, Owner(c.g, k.rule)) !in s3.lr
        ensures k.pos <= |c.inp| && SettledAt(c, Key(k.pos, Owner(c.g, k.rule)), k.rule, s3.memo[k], s3.failures)
      {
        assert k in s2.memo;
        assert k == key ==> Key(k.pos, Owner(c.g, k.rule)) in s2.lr;
        SettledMore(c, Key(k.pos, Owner(c.g, k.rule)), k.rule, s2.memo[k], s2.failures, s3.failures);
      }
    }
  }

  lemma HeadsPublished(c: Setting, key: Key, x: Exempt, y: Exempt, s: State, s2: State, s3: State, entry: Entry,
      report: set<Failure>)
    requires Good(c.inp, s) && key !in s.lr && HeadsKept(x, Enter(s, key).(evals := s.evals + 2), s2)
    requires Good(c.inp, s2) && s2.lr == s.lr + [key]
    requires Published(key, s, s2, s3, entry, report) && Outside(c, key, x, y)
    ensures HeadsKept(y, s, s3)
  {
    hide EntryGood, IsPartner;
    var s1 := Enter(s, key).(evals := s.evals + 2);
    assert forall i | i in s3.heads :: i in s.heads || (i < |s.lr| && s.lr[i] == s1.lr[i]);
  }

  lemma WorkPublished(c: Setting, key: Key, s: State, s2: State, s3: State, entry: Entry, report: set<Failure>)
    requires key !in s.memo && WorkPaid(c, Enter(s, key).(evals := s.evals + 2), s2)
    requires Published(key, s, s2, s3, entry, report)
    ensures WorkPaid(c, s, s3)
  {
    hide NoCuts, NoLeftRec;
    assert Enter(s, key).memo.Keys == s.memo.Keys + {key} && s3.memo.Keys == s2.memo.Keys;
  }

  lemma EntriesPublished(c: Setting, key: Key, x: Exempt, y: Exempt, s: State, s2: State, s3: State, entry: Entry,
      report: set<Failure>)
    requires key !in s.memo && key !in s.lr && EntriesKept(c, x, Enter(s, key).(evals := s.evals + 2), s2)
    requires Published(key, s, s2, s3, entry, report) && Outside(c, key, x, y)
    ensures EntriesKept(c, y, s, s3)
  {
    hide NoCuts, IsPartner;
    assert forall k | k in s.lr :: k in Enter(s, key).lr;
  }

  lemma PartnersPublished(c: Setting, key: Key, x: Exempt, y: Exempt, s: State, s2: State, s3: State, entry: Entry,
      report: set<Failure>)
    requires key !in s.memo && key !in s.lr && PartnersKept(c, x, Enter(s, key).(evals := s.evals + 2), s2)
    requires Published(key, s, s2, s3, entry, report) && Outside(c, key, x, y)
    ensures PartnersKept(c, y, s, s3)
  {
    hide IsPartner;
    assert forall k | k in s.lr :: k in Enter(s, key).lr;
  }
}
