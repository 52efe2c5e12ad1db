/** The expected set: a sorted vector without duplicates, standing for a set of items. */
module ExpectedSets {
  import opened Grammars

  // ---- the order of items -----------------------------------------------------------------------

  predicate TextLess(a: string, b: string) {
    if b == "" then false
    else if a == "" then true
    else if a[0] != b[0] then a[0] < b[0]
    else TextLess(a[1..], b[1..])
  }

  function Rank(k: Kind): nat {
    match k
    case RuleLabel => 0
    case RuleName => 1
    case Literal => 2
    case Range => 3
  }

  predicate Less(a: Item, b: Item) {
    if a.kind != b.kind then Rank(a.kind) < Rank(b.kind) else TextLess(a.text, b.text)
  }

  lemma {:induction false} TextOrder(a: string, b: string, c: string)
    ensures !(TextLess(a, b) && TextLess(b, a))
    ensures TextLess(a, b) || TextLess(b, a) || a == b
    ensures TextLess(a, b) && TextLess(b, c) ==> TextLess(a, c)
    decreases a, b
  {
    if a != "" && b != "" {
      TextOrder(a[1..], b[1..], if c == "" then "" else c[1..]);
      assert a == [a[0]] + a[1..] && b == [b[0]] + b[1..];
    }
  }

  /** Less is a strict total order. */
  lemma ItemOrder(a: Item, b: Item, c: Item)
    ensures !(Less(a, b) && Less(b, a))
    ensures Less(a, b) || Less(b, a) || a == b
    ensures Less(a, b) && Less(b, c) ==> Less(a, c)
  {
    TextOrder(a.text, b.text, c.text);
  }

  /** Labels come before rule names, these before literals, these before ranges, whatever the texts. */
  lemma KindsInOrder(a: Item, b: Item)
    ensures a.kind == RuleLabel && b.kind != RuleLabel ==> Less(a, b)
    ensures a.kind == RuleName && (b.kind == Literal || b.kind == Range) ==> Less(a, b)
    ensures a.kind == Literal && b.kind == Range ==> Less(a, b)
  {
  }

  /** The texts agree before n, where a's character is the smaller one. */
  ghost predicate DiffersAt(a: string, b: string, n: nat) {
    n < |a| && n < |b| && a[..n] == b[..n] && a[n] < b[n]
  }

  /** Within a kind the texts are compared like words in a dictionary: by the first character that differs, and a text
      comes before every longer one that starts with it. */
  lemma TextsInOrder(kind: Kind, a: string, b: string)
    ensures Less(Item(kind, a), Item(kind, b)) <==> (a <= b && a != b) || exists n :: DiffersAt(a, b, n)
  {
    hide DiffersAt, TextLess;
    if TextLess(a, b) && !(a <= b && a != b) { var n := WhereLess(a, b); }
    if a <= b && a != b { PrefixIsLess(a, b); }
    forall n | DiffersAt(a, b, n) ensures TextLess(a, b) { LessThere(a, b, n); }
  }

  lemma {:induction false} WhereLess(a: string, b: string) returns (n: nat)
    requires TextLess(a, b) && !(a <= b && a != b)
    ensures DiffersAt(a, b, n)
    decreases a
  {
    n := 0;
    if a[0] == b[0] {
      assert a == [a[0]] + a[1..] && b == [b[0]] + b[1..];
      n := WhereLess(a[1..], b[1..]);
      n := n + 1;
      assert a[..n] == [a[0]] + a[1..][..n - 1] && b[..n] == [b[0]] + b[1..][..n - 1];
    }
  }

  lemma {:induction false} PrefixIsLess(a: string, b: string)
    requires a <= b && a != b
    ensures TextLess(a, b)
    decreases a
  {
    if a != "" { PrefixIsLess(a[1..], b[1..]); }
  }

  lemma {:induction false} LessThere(a: string, b: string, n: nat)
    requires DiffersAt(a, b, n)
    ensures TextLess(a, b)
    decreases n
  {
    if n > 0 {
      assert a[..n][0] == b[..n][0];
      assert a[1..][..n - 1] == a[..n][1..] && b[1..][..n - 1] == b[..n][1..];
      LessThere(a[1..], b[1..], n - 1);
    }
  }

  // ---- sorted vectors ---------------------------------------------------------------------------

  ghost predicate Sorted(s: seq<Item>) {
    forall i, j | 0 <= i < j < |s| :: Less(s[i], s[j])
  }

  ghost function Elements(s: seq<Item>): set<Item> { set x | x in s }

  lemma NoElements(s: seq<Item>)
    ensures s == [] <==> Elements(s) == {}
  {
    if s != [] { assert s[0] in Elements(s); }
  }

  /** A sorted vector is determined by its elements. */
  lemma {:induction false} SortedIsCanonical(s: seq<Item>, t: seq<Item>)
    requires Sorted(s) && Sorted(t) && Elements(s) == Elements(t)
    ensures s == t
  {
    if s == [] || t == [] {
      NoElements(s);
      NoElements(t);
    } else {
      FirstIsLeast(s, t);
      FirstIsLeast(t, s);
      ItemOrder(s[0], t[0], s[0]);
      TailElements(s);
      TailElements(t);
      SortedIsCanonical(s[1..], t[1..]);
      assert s == [s[0]] + s[1..] && t == [t[0]] + t[1..];
    }
  }

  lemma FirstIsLeast(s: seq<Item>, t: seq<Item>)
    requires Sorted(s) && s != [] && t != [] && Elements(s) == Elements(t)
    ensures s[0] == t[0] || Less(s[0], t[0])
  {
    assert t[0] in Elements(s);
    var i :| 0 <= i < |s| && s[i] == t[0];
  }

  lemma TailElements(s: seq<Item>)
    requires Sorted(s) && s != []
    ensures Sorted(s[1..]) && Elements(s[1..]) == Elements(s) - {s[0]}
  {
    forall x | x in s[1..] ensures x != s[0] { ItemOrder(s[0], x, x); }
    forall x | x in s && x != s[0] ensures x in s[1..] {
      var i :| 0 <= i < |s| && s[i] == x;
      assert s[1..][i - 1] == x;
    }
  }

  class ExpectedSet {
    var items: seq<Item>

    ghost predicate Valid()
      reads this
    {
      Sorted(items)
    }

    constructor ()
      ensures Valid() && items == []
    {
      items := [];
    }

    method Clear()
      modifies this
      ensures Valid() && items == []
    {
      items := [];
    }

    /** Binary search for the first item not below `item`. */
    method LowerBound(item: Item) returns (at: nat)
      requires Valid()
      ensures at <= |items|
      ensures forall j | 0 <= j < at :: Less(items[j], item)
      ensures forall j | at <= j < |items| :: !Less(items[j], item)
    {
      var lo, hi := 0, |items|;
      while lo < hi
        invariant 0 <= lo <= hi <= |items|
        invariant forall j | 0 <= j < lo :: Less(items[j], item)
        invariant forall j | hi <= j < |items| :: !Less(items[j], item)
      {
        var mid := (lo + hi) / 2;
        if Less(items[mid], item) {
          forall j | 0 <= j <= mid ensures Less(items[j], item) { ItemOrder(items[j], items[mid], item); }
          lo := mid + 1;
        } else {
          forall j | mid <= j < |items| ensures !Less(items[j], item) { ItemOrder(items[mid], items[j], item); }
          hi := mid;
        }
      }
      at := lo;
    }

    method Insert(item: Item) returns (at: nat, inserted: bool)
      requires Valid()
      modifies this
      ensures Valid() && Elements(items) == Elements(old(items)) + {item}
      ensures inserted == (item !in Elements(old(items)))
      ensures at < |items| && items[at] == item
    {
      at := LowerBound(item);
      if at < |items| && items[at] == item {
        inserted := false;
      } else {
        forall j | at <= j < |items| ensures Less(item, items[j]) {
          ItemOrder(item, items[j], item);
          if j > at { ItemOrder(items[at], items[j], item); ItemOrder(items[at], item, items[j]); }
        }
        forall j | 0 <= j < |items| ensures items[j] != item { ItemOrder(items[j], item, item); }
        inserted := true;
        items := items[..at] + [item] + items[at..];
      }
    }
  }
}
