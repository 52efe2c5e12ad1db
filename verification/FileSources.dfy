/** A file read through two fixed-size pages.  However the reader jumps about and whatever it releases,
    an in-range position always yields the item of the file at that position. */
module FileSources {

  /** An open file, in whole items: bytes behind the last whole item are never seen.  The file is not
      written; only the cursor moves. */
  class File {
    const items: seq<int>
    var cursor: nat

    constructor (items: seq<int>)
      ensures this.items == items && Valid() && cursor == 0
    {
      this.items, cursor := items, 0;
    }

    ghost predicate Valid()
      reads this
    {
      cursor <= |items|
    }

    method Seek(offset: nat)
      requires offset <= |items|
      modifies this
      ensures Valid() && cursor == offset
    {
      cursor := offset;
    }

    /** Reads up to `n` items into `into`, fewer only at the end of the file. */
    method Read(into: array<int>, n: nat) returns (count: nat)
      requires Valid() && n <= into.Length
      modifies this, into
      ensures Valid() && cursor == old(cursor) + count
      ensures count == if old(cursor) + n <= |items| then n else |items| - old(cursor)
      ensures into[..count] == items[old(cursor)..cursor]
    {
      count := 0;
      while count < n && cursor < |items|
        invariant count <= n && cursor == old(cursor) + count <= |items|
        invariant into[..count] == items[old(cursor)..cursor]
      {
        into[count] := items[cursor];
        count, cursor := count + 1, cursor + 1;
      }
    }
  }

  /** One page: items [from, to) of the file. */
  class Page {
    const data: array<int>
    var from: nat
    var to: nat

    constructor (size: nat)
      ensures data.Length == size && fresh(data) && from == to == 0
    {
      data := new int[size];
      from, to := 0, 0;
    }

    ghost predicate Holds(items: seq<int>)
      reads this, data
    {
      from <= to <= |items| && to - from <= data.Length && data[..to - from] == items[from..to]
    }

    predicate Has(i: nat)
      reads this
    {
      from <= i < to
    }

    function Item(i: nat, ghost items: seq<int>): (item: int)
      requires Holds(items) && Has(i)
      reads this, data
      ensures item == items[i]
    {
      assert data[..to - from][i - from] == items[i];
      data[i - from]
    }

    /** Reads the next `n` items of the file, as far as there are any. */
    method Fill(file: File, n: nat) returns (count: nat)
      requires file.Valid() && n <= data.Length
      modifies this, data, file
      ensures file.Valid() && Holds(file.items)
      ensures from == old(file.cursor) && to == from + count == file.cursor
      ensures count == if from + n <= |file.items| then n else |file.items| - from
    {
      from := file.cursor;
      count := file.Read(data, n);
      to := from + count;
    }

    method Clear()
      modifies this
      ensures from == to == 0
    {
      from, to := 0, 0;
    }
  }

  class FileSource {
    const file: File
    const page0: Page
    const page1: Page
    const pageSize: nat
    const size: nat
    var current: nat

    ghost const Repr: set<object>

    ghost predicate Valid()
      reads this, Repr
    {
      && Repr == {file, page0, page1, page0.data, page1.data} && this !in Repr
      && page0 != page1 && page0.data != page1.data
      && pageSize > 0 && page0.data.Length == pageSize && page1.data.Length == pageSize
      && file.Valid() && size == |file.items|
      && page0.Holds(file.items) && page1.Holds(file.items)
      && current < 2
    }

    /** Opens the file; the second page is only read if the first was filled. */
    constructor (file: File, pageSize: nat)
      requires file.Valid() && file.cursor == 0 && pageSize > 0
      modifies file
      ensures Valid() && this.file == file && this.pageSize == pageSize
      ensures fresh(Repr - {file}) && this !in Repr
      ensures forall i: nat | i < size && i < 2 * pageSize :: page0.Has(i) || page1.Has(i)
    {
      this.file, this.pageSize, size, current := file, pageSize, |file.items|, 0;
      var p0 := new Page(pageSize);
      var p1 := new Page(pageSize);
      page0, page1 := p0, p1;
      var objects: set<object> := {file, p0, p1, p0.data, p1.data};
      Repr := objects;
      new;
      Preload(file, p0, p1, pageSize);
    }

    /** Fills two new pages from the start of the file. */
    static method Preload(file: File, p0: Page, p1: Page, pageSize: nat)
      requires file.Valid() && file.cursor == 0 && pageSize > 0
      requires p0 != p1 && p0.data != p1.data && p0.data.Length == p1.data.Length == pageSize
      requires p0.from == p0.to == p1.from == p1.to == 0
      modifies file, p0, p0.data, p1, p1.data
      ensures file.Valid() && p0.Holds(file.items) && p1.Holds(file.items)
      ensures forall i: nat | i < |file.items| && i < 2 * pageSize :: p0.Has(i) || p1.Has(i)
    {
      var n0 := p0.Fill(file, pageSize);
      if n0 == pageSize { var _ := p1.Fill(file, pageSize); }
    }

    /** The page that is current. */
    function Current(): Page
      reads this
    {
      if current == 0 then page0 else page1
    }

    /** The item at a position of the file; the page that has it is current afterwards.  Only a miss reads
        the file, and only into the first page. */
    method Get(i: nat) returns (item: int)
      requires Valid() && i < size
      modifies this`current, file, page0, page0.data
      ensures Valid() && item == file.items[i] && Current().Has(i)
      ensures old(page0.Has(i) || page1.Has(i)) ==>
                page0.from == old(page0.from) && page0.to == old(page0.to) && file.cursor == old(file.cursor)
    {
      if Current().Has(i) {
        item := Current().Item(i, file.items);
        return;
      }
      var other := if current == 0 then page1 else page0;
      if other.Has(i) {
        current := 1 - current;
        item := other.Item(i, file.items);
        return;
      }
      var _ := ReadTo(i);
      current := 0;
      item := page0.Item(i, file.items);
    }

    /** Loads the page that contains a position into the first buffer; fails only behind the end. */
    method ReadTo(i: nat) returns (ok: bool)
      requires Valid()
      modifies file, page0, page0.data
      ensures Valid() && ok == (i < size)
      ensures ok ==> page0.Has(i) && page0.from == i - i % pageSize
      ensures !ok ==> page0.from == old(page0.from) && page0.to == old(page0.to)
    {
      if i >= size { return false; }
      var at := i - i % pageSize;
      file.Seek(at);
      var n := page0.Fill(file, pageSize);
      ok := n > 0;
    }

    /** Empties every page that ends at or before `pos`, and leaves the others as they are. */
    method ReleaseBefore(pos: nat)
      requires Valid()
      modifies page0, page1
      ensures Valid()
      ensures if old(page0.to) <= pos then page0.from == page0.to == 0
              else page0.from == old(page0.from) && page0.to == old(page0.to)
      ensures if old(page1.to) <= pos then page1.from == page1.to == 0
              else page1.from == old(page1.from) && page1.to == old(page1.to)
    {
      if page0.to <= pos { page0.Clear(); }
      if page1.to <= pos { page1.Clear(); }
    }
  }
}
