/** Bounded pages over live data (src/pagination.rs): cursors bind an epoch, a filter and a high-water mark. */
module Pagination {
  import opened Options
  import opened Listings
  import opened Maxima

  type Key = nat

  const PAGE_BYTES: nat := 7 * 1024 * 1024
  const OVERHEAD: nat := 17000

  /** One row of a sequenced table, as the bound query sees it: `visible` is whether it passes the filters now. */
  datatype Item = Item(key: Key, visible: bool, size: nat)

  /** Rows by sequence number. AUTOINCREMENT: `counter` is the largest number ever assigned. */
  datatype Table = Table(rows: map<nat, Item>, counter: nat)

  /** A cursor as it was handed out; `query` stands for every filter and the limit. */
  datatype Cursor = Cursor(query: nat, epoch: nat, highWater: nat, last: nat)

  datatype Page = Page(items: seq<nat>, next: Option<Cursor>)

  datatype Result = Ok(page: Page) | ItemTooLarge(sequence: nat) | BadLimit | BadCursor | CursorExpired

  // ---------------------------------------------------------------- one page

  function SizeOf(t: Table, s: nat): nat {
    if s in t.rows then t.rows[s].size else 0
  }

  /** The matching rows in the open-closed range, in sequence order. */
  function Matching(t: Table, last: nat, high: nat): (order: seq<nat>)
    ensures Distinct(order)
    ensures forall s :: s in order <==> s in t.rows && t.rows[s].visible && last < s <= high
  {
    ListBy(map s | s in t.rows && t.rows[s].visible && last < s <= high :: Row(s, 0, 0))
  }

  lemma MatchingAscends(t: Table, last: nat, high: nat)
    ensures var order := Matching(t, last, high); forall i, j :: 0 <= i < j < |order| ==> order[i] < order[j]
  {
    var keyed := map s | s in t.rows && t.rows[s].visible && last < s <= high :: Row(s, 0, 0);
    var rows := Listing(keyed.Values);
    forall i, j | 0 <= i < j < |rows| ensures rows[i].id < rows[j].id {
      assert rows[i] in keyed.Values && rows[j] in keyed.Values && Before(rows[i], rows[j]);
    }
  }

  /** `SELECT COALESCE(MAX(sequence),0)`. */
  function MaxSequence(t: Table): nat {
    MaxOf(t.rows.Keys)
  }

  /** Where a page starts and where the traversal ends. */
  function Range(t: Table, query: nat, cursor: Option<Cursor>): (nat, nat) {
    if cursor.Some? then (cursor.value.last, cursor.value.highWater) else (0, MaxSequence(t))
  }

  predicate CursorFits(cursor: Option<Cursor>, query: nat) {
    cursor.Some? ==> cursor.value.query == query && 0 < cursor.value.last <= cursor.value.highWater
  }

  /** The bytes a page spends on its items: each one and a separator. */
  function Spent(t: Table, items: seq<nat>): nat {
    if items == [] then 0 else Spent(t, items[..|items| - 1]) + SizeOf(t, items[|items| - 1]) + 1
  }

  predicate TooLarge(t: Table, s: nat) {
    SizeOf(t, s) + OVERHEAD > PAGE_BYTES
  }

  /** Row `i` still fits on a page that holds all rows before it. */
  predicate Fits(t: Table, order: seq<nat>, limit: nat, i: nat)
    requires i < |order|
  {
    i < limit && Spent(t, order[..i]) + SizeOf(t, order[i]) + OVERHEAD <= PAGE_BYTES
  }

  /** A page of `n` rows is as long as it can be. */
  ghost predicate Full(t: Table, order: seq<nat>, limit: nat, n: nat) {
    n <= |order| && (forall i :: 0 <= i < n ==> Fits(t, order, limit, i)) && (n < |order| ==> !Fits(t, order, limit, n))
  }

  lemma FullUnique(t: Table, order: seq<nat>, limit: nat, n: nat, m: nat)
    requires Full(t, order, limit, n) && Full(t, order, limit, m)
    ensures n == m
  {
    hide Fits;
  }

  /** The row that ends the page can be on no page at all. */
  ghost predicate Stuck(t: Table, order: seq<nat>, limit: nat, s: nat) {
    exists n: nat :: Full(t, order, limit, n) && n < |order| && order[n] == s && TooLarge(t, s)
  }

  /**
   A page is the longest initial part of the matching rows that the limit and the byte budget allow; its cursor,
   if rows are left, resumes right behind its last item.
   */
  ghost predicate PageOf(t: Table, order: seq<nat>, limit: nat, query: nat, epoch: nat, high: nat, page: Page) {
    && Full(t, order, limit, |page.items|) && |page.items| <= limit && page.items == order[..|page.items|]
    && (page.next.None? <==> |page.items| == |order|)
    && (page.next.Some? ==>
          |page.items| > 0 && page.next.value == Cursor(query, epoch, high, page.items[|page.items| - 1]))
  }

  ghost predicate Accepts(query: nat, limit: nat, epoch: nat, cursor: Option<Cursor>) {
    1 <= limit <= 1000 && CursorFits(cursor, query) && (cursor.Some? ==> cursor.value.epoch == epoch)
  }

  /** One page: each refusal exactly when its cause holds, and otherwise the longest page there is. */
  method Read(t: Table, query: nat, limit: nat, epoch: nat, cursor: Option<Cursor>) returns (r: Result)
    ensures r.BadLimit? <==> !(1 <= limit <= 1000)
    ensures r.BadCursor? <==> 1 <= limit <= 1000 && !CursorFits(cursor, query)
    ensures r.CursorExpired? <==>
      1 <= limit <= 1000 && CursorFits(cursor, query) && cursor.Some? && cursor.value.epoch != epoch
    ensures var (last, high) := Range(t, query, cursor);
      forall s :: r == ItemTooLarge(s)
        <==> Accepts(query, limit, epoch, cursor) && Stuck(t, Matching(t, last, high), limit, s)
    ensures r.Ok? ==> var (last, high) := Range(t, query, cursor);
                      PageOf(t, Matching(t, last, high), limit, query, epoch, high, r.page)
  {
    if !(1 <= limit <= 1000) {
      return BadLimit;
    }
    if !CursorFits(cursor, query) {
      return BadCursor;
    }
    if cursor.Some? && cursor.value.epoch != epoch {
      return CursorExpired;
    }
    var (last, high) := Range(t, query, cursor);
    r := Emit(t, Matching(t, last, high), limit, query, epoch, last, high);
  }

  /** The emission loop, bounded by the limit, the byte budget and the end of the matching rows. */
  method Emit(t: Table, order: seq<nat>, limit: nat, query: nat, epoch: nat, last: nat, high: nat) returns (r: Result)
    requires limit > 0
    ensures r.Ok? || r.ItemTooLarge?
    ensures r.Ok? ==> PageOf(t, order, limit, query, epoch, high, r.page)
    ensures forall s :: r == ItemTooLarge(s) <==> Stuck(t, order, limit, s)
  {
    var items: seq<nat> := [];
    var lastEmitted, bytes, i := last, 0, 0;
    while i < |order|
      invariant 0 <= i <= |order| && i <= limit
      invariant items == order[..i]
      invariant i > 0 ==> lastEmitted == order[i - 1]
      invariant bytes == Spent(t, order[..i])
      invariant forall k :: 0 <= k < i ==> Fits(t, order, limit, k)
    {
      var size := SizeOf(t, order[i]);
      if size + OVERHEAD > PAGE_BYTES {
        Stops(t, order, limit, i);
        return ItemTooLarge(order[i]);
      }
      if |items| == limit || bytes + size + OVERHEAD > PAGE_BYTES {
        Stops(t, order, limit, i);
        return Ok(Page(items, Some(Cursor(query, epoch, high, lastEmitted))));
      }
      assert order[..i + 1][..i] == order[..i];
      bytes := bytes + size + 1;
      items := items + [order[i]];
      lastEmitted := order[i];
      i := i + 1;
    }
    Stops(t, order, limit, i);
    return Ok(Page(items, None));
  }

  lemma Stops(t: Table, order: seq<nat>, limit: nat, n: nat)
    requires Full(t, order, limit, n)
    ensures forall s :: Stuck(t, order, limit, s) <==> n < |order| && s == order[n] && TooLarge(t, s)
  {
    hide Full;
    forall s ensures Stuck(t, order, limit, s) <==> n < |order| && s == order[n] && TooLarge(t, s) {
      if Stuck(t, order, limit, s) {
        var m: nat :| Full(t, order, limit, m) && m < |order| && order[m] == s && TooLarge(t, s);
        FullUnique(t, order, limit, n, m);
      }
    }
  }

  // ---------------------------------------------------------------- live data

  /** Numbers are never reused, a number names one key for ever, and a key has one number at a time. */
  ghost predicate WellNumbered(t: Table) {
    && (forall s :: s in t.rows ==> 0 < s <= t.counter)
    && (forall s, r :: s in t.rows && r in t.rows && t.rows[s].key == t.rows[r].key ==> s == r)
  }

  /** What inserts, deletes, updates and changing filters can do between two pages. */
  ghost predicate Evolves(t: Table, t': Table) {
    && t.counter <= t'.counter
    && (forall s :: s in t'.rows && s <= t.counter ==> s in t.rows && t'.rows[s].key == t.rows[s].key)
  }

  /** The trigger on insert: the next number. */
  function Insert(t: Table, item: Item): Table {
    Table(t.rows[t.counter + 1 := item], t.counter + 1)
  }

  /** The trigger on delete. */
  function Delete(t: Table, s: nat): Table {
    t.(rows := t.rows - {s})
  }

  lemma TriggersEvolve(t: Table, item: Item, s: nat)
    requires WellNumbered(t) && forall r :: r in t.rows ==> t.rows[r].key != item.key
    ensures WellNumbered(Insert(t, item)) && Evolves(t, Insert(t, item))
    ensures WellNumbered(Delete(t, s)) && Evolves(t, Delete(t, s))
  {
  }

  lemma EvolvesTransitive(a: Table, b: Table, c: Table)
    requires Evolves(a, b) && Evolves(b, c)
    ensures Evolves(a, c)
  {
  }

  // ---------------------------------------------------------------- traversals

  /** Pages read one after another, each with the cursor of the one before, over evolving tables. */
  ghost predicate Traversal(ts: seq<Table>, ps: seq<Page>, limit: nat, query: nat, epoch: nat) {
    && |ts| == |ps| > 0
    && (forall i :: 0 <= i < |ts| ==> WellNumbered(ts[i]))
    && (forall i {:trigger ts[i]} :: 0 <= i < |ts| - 1 ==> Evolves(ts[i], ts[i + 1]))
    && (forall i :: 0 <= i < |ps| ==> PageAt(ts, ps, limit, query, epoch, i))
  }

  ghost predicate PageAt(ts: seq<Table>, ps: seq<Page>, limit: nat, query: nat, epoch: nat, i: nat)
    requires |ts| == |ps| && i < |ps|
  {
    && (i > 0 ==> ps[i - 1].next.Some?)
    && var (last, high) := Range(ts[i], query, if i == 0 then None else ps[i - 1].next);
    PageOf(ts[i], Matching(ts[i], last, high), limit, query, epoch, high, ps[i])
  }

  /** The high-water mark every page of the traversal is bounded by. */
  function HighWater(ts: seq<Table>): nat
    requires ts != []
  {
    MaxSequence(ts[0])
  }

  function LastOf(ps: seq<Page>, i: nat): nat
    requires i <= |ps|
  {
    if i == 0 || ps[i - 1].next.None? then 0 else ps[i - 1].next.value.last
  }

  /** Every page of a traversal covers the range from the previous cursor up to the same high-water mark. */
  lemma {:induction false} SameHighWater(ts: seq<Table>, ps: seq<Page>, limit: nat, query: nat, epoch: nat, i: nat)
    requires Traversal(ts, ps, limit, query, epoch) && i < |ps|
    ensures PageOf(ts[i], Matching(ts[i], LastOf(ps, i), HighWater(ts)), limit, query, epoch, HighWater(ts), ps[i])
  {
    hide Matching, MaxSequence, WellNumbered, Evolves;
    assert PageAt(ts, ps, limit, query, epoch, i);
    if i > 0 {
      SameHighWater(ts, ps, limit, query, epoch, i - 1);
      assert ps[i - 1].next.value.highWater == HighWater(ts);
    }
  }

  /** What one page emits: rows strictly behind its starting point, and up to its cursor. */
  lemma PageRange(t: Table, last: nat, high: nat, limit: nat, query: nat, epoch: nat, page: Page, s: nat)
    requires PageOf(t, Matching(t, last, high), limit, query, epoch, high, page) && s in page.items
    ensures s in t.rows && t.rows[s].visible && last < s <= high
    ensures page.next.Some? ==> s <= page.next.value.last
  {
    var order := Matching(t, last, high);
    MatchingAscends(t, last, high);
    hide Matching;
    var k :| 0 <= k < |page.items| && page.items[k] == s;
    assert order[k] == s && s in order;
  }

  lemma EmittedRange(ts: seq<Table>, ps: seq<Page>, limit: nat, query: nat, epoch: nat, i: nat, s: nat)
    requires Traversal(ts, ps, limit, query, epoch) && i < |ps| && s in ps[i].items
    ensures s in ts[i].rows && ts[i].rows[s].visible && LastOf(ps, i) < s <= HighWater(ts)
    ensures ps[i].next.Some? ==> s <= LastOf(ps, i + 1)
  {
    SameHighWater(ts, ps, limit, query, epoch, i);
    hide Matching, MaxSequence, WellNumbered, Evolves, Traversal;
    PageRange(ts[i], LastOf(ps, i), HighWater(ts), limit, query, epoch, ps[i], s);
  }

  /** Each page with a cursor makes strict progress, and leaves rows for the next one. */
  lemma StrictProgress(ts: seq<Table>, ps: seq<Page>, limit: nat, query: nat, epoch: nat, i: nat)
    requires Traversal(ts, ps, limit, query, epoch) && i < |ps| && ps[i].next.Some?
    ensures LastOf(ps, i) < LastOf(ps, i + 1) < HighWater(ts)
  {
    SameHighWater(ts, ps, limit, query, epoch, i);
    var s := ps[i].items[|ps[i].items| - 1];
    assert s in ps[i].items;
    EmittedRange(ts, ps, limit, query, epoch, i, s);
    hide Traversal, MaxSequence;
    RowsLeft(ts[i], LastOf(ps, i), HighWater(ts), limit, query, epoch, ps[i]);
  }

  lemma RowsLeft(t: Table, last: nat, high: nat, limit: nat, query: nat, epoch: nat, page: Page)
    requires PageOf(t, Matching(t, last, high), limit, query, epoch, high, page) && page.next.Some?
    ensures page.next.value.last < high
  {
    var order := Matching(t, last, high);
    MatchingAscends(t, last, high);
    assert order[|page.items|] in order;
    hide Matching;
  }

  /** A traversal of more than one page takes at most as many as its high-water mark. */
  lemma Terminates(ts: seq<Table>, ps: seq<Page>, limit: nat, query: nat, epoch: nat)
    requires Traversal(ts, ps, limit, query, epoch)
    ensures |ps| == 1 || |ps| <= HighWater(ts)
  {
    hide HighWater;
    PageCount(ts, ps, limit, query, epoch, |ps| - 1);
  }

  lemma {:induction false} PageCount(ts: seq<Table>, ps: seq<Page>, limit: nat, query: nat, epoch: nat, i: nat)
    requires Traversal(ts, ps, limit, query, epoch) && i < |ps|
    ensures i == 0 || i <= LastOf(ps, i) < HighWater(ts)
  {
    hide HighWater;
    if i > 0 {
      PageCount(ts, ps, limit, query, epoch, i - 1);
      assert PageAt(ts, ps, limit, query, epoch, i);
      StrictProgress(ts, ps, limit, query, epoch, i - 1);
    }
  }

  lemma {:induction false} CursorsAscend(ts: seq<Table>, ps: seq<Page>, limit: nat, query: nat, epoch: nat, i: nat, j: nat)
    requires Traversal(ts, ps, limit, query, epoch) && i < j < |ps|
    ensures ps[i].next.Some? && LastOf(ps, i + 1) <= LastOf(ps, j)
    decreases j - i
  {
    hide MaxSequence, Matching;
    assert PageAt(ts, ps, limit, query, epoch, j);
    if i + 1 < j {
      CursorsAscend(ts, ps, limit, query, epoch, i, j - 1);
      StrictProgress(ts, ps, limit, query, epoch, j - 1);
    }
  }

  /** Rows come out in sequence order: everything on an earlier page precedes everything on a later one. */
  lemma PagesInOrder(ts: seq<Table>, ps: seq<Page>, limit: nat, query: nat, epoch: nat, i: nat, j: nat, s: nat, r: nat)
    requires Traversal(ts, ps, limit, query, epoch) && i < j < |ps| && s in ps[i].items && r in ps[j].items
    ensures s < r
  {
    EmittedRange(ts, ps, limit, query, epoch, i, s);
    EmittedRange(ts, ps, limit, query, epoch, j, r);
    CursorsAscend(ts, ps, limit, query, epoch, i, j);
  }

  lemma {:induction false} EvolvedSince(ts: seq<Table>, ps: seq<Page>, limit: nat, query: nat, epoch: nat, i: nat)
    requires Traversal(ts, ps, limit, query, epoch) && i < |ts|
    ensures Evolves(ts[0], ts[i])
  {
    if i > 0 {
      EvolvedSince(ts, ps, limit, query, epoch, i - 1);
      assert Evolves(ts[i - 1], ts[i]);
      EvolvesTransitive(ts[0], ts[i - 1], ts[i]);
    }
  }

  /** No row added after the first page is ever emitted: it was there, under the same key, at the start. */
  lemma NoLateRows(ts: seq<Table>, ps: seq<Page>, limit: nat, query: nat, epoch: nat, i: nat, s: nat)
    requires Traversal(ts, ps, limit, query, epoch) && i < |ps| && s in ps[i].items
    ensures s in ts[0].rows && s in ts[i].rows && ts[i].rows[s].key == ts[0].rows[s].key
  {
    EmittedRange(ts, ps, limit, query, epoch, i, s);
    EvolvedSince(ts, ps, limit, query, epoch, i);
  }

  /** No key is emitted twice, even if its row was deleted and inserted again meanwhile. */
  lemma NoKeyTwice(ts: seq<Table>, ps: seq<Page>, limit: nat, query: nat, epoch: nat, i: nat, j: nat, s: nat, r: nat)
    requires Traversal(ts, ps, limit, query, epoch) && i <= j < |ps| && s in ps[i].items && r in ps[j].items
    requires s in ts[i].rows && r in ts[j].rows && ts[i].rows[s].key == ts[j].rows[r].key
    ensures i == j && s == r
  {
    NoLateRows(ts, ps, limit, query, epoch, i, s);
    NoLateRows(ts, ps, limit, query, epoch, j, r);
    assert WellNumbered(ts[0]);
    if i < j {
      PagesInOrder(ts, ps, limit, query, epoch, i, j, s, r);
    }
  }

  /** The row is there and matches on every page of the traversal. */
  ghost predicate StaysVisible(ts: seq<Table>, s: nat) {
    forall i :: 0 <= i < |ts| ==> s in ts[i].rows && ts[i].rows[s].visible
  }

  /** A finished traversal has emitted every row that stayed visible throughout. */
  lemma Complete(ts: seq<Table>, ps: seq<Page>, limit: nat, query: nat, epoch: nat, s: nat) returns (i: nat)
    requires Traversal(ts, ps, limit, query, epoch) && ps[|ps| - 1].next.None? && StaysVisible(ts, s)
    ensures i < |ps| && s in ps[i].items
  {
    assert s <= HighWater(ts) && LastOf(ps, 0) < s by { assert WellNumbered(ts[0]) && s in ts[0].rows; }
    i := 0;
    while s !in ps[i].items
      invariant i < |ps| && LastOf(ps, i) < s
      decreases |ps| - i
    {
      BehindCursor(ts, ps, limit, query, epoch, s, i);
      i := i + 1;
    }
  }

  lemma BehindCursor(ts: seq<Table>, ps: seq<Page>, limit: nat, query: nat, epoch: nat, s: nat, i: nat)
    requires Traversal(ts, ps, limit, query, epoch) && ps[|ps| - 1].next.None? && StaysVisible(ts, s)
    requires i < |ps| && LastOf(ps, i) < s <= HighWater(ts) && s !in ps[i].items
    ensures i + 1 < |ps| && LastOf(ps, i + 1) < s
  {
    SameHighWater(ts, ps, limit, query, epoch, i);
    assert s in ts[i].rows && ts[i].rows[s].visible;
    hide Matching, MaxSequence, Evolves, WellNumbered, PageAt, PageOf;
    PageCovers(ts[i], LastOf(ps, i), HighWater(ts), limit, query, epoch, ps[i], s);
  }

  /** A visible row in the page's range is on the page, or behind its cursor. */
  lemma PageCovers(t: Table, last: nat, high: nat, limit: nat, query: nat, epoch: nat, page: Page, s: nat)
    requires PageOf(t, Matching(t, last, high), limit, query, epoch, high, page)
    requires s in t.rows && t.rows[s].visible && last < s <= high
    ensures s in page.items || (page.next.Some? && page.next.value.last < s)
  {
    var order := Matching(t, last, high);
    MatchingAscends(t, last, high);
    assert s in order;
    hide Matching;
    var x :| 0 <= x < |order| && order[x] == s;
    if x < |page.items| {
      assert page.items[x] == s;
    } else if |page.items| > 0 {
      assert page.items[|page.items| - 1] == order[|page.items| - 1] < order[x];
    }
  }
}
