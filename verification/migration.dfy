/**
 * `SerpAPI/src/migrations/update_price_format.py`: one pass over the staged
 * table in pages of 1000 rows (offset pagination), rewriting each
 * `google_price__c` to its cleaned tier when that differs, and never
 * clearing a price the cleaner cannot read.
 *
 * The pages are slices of one fixed listing `order` of the table's keys.
 * The rewrite rule is stated for a cleaner `clean`; the migration's cleaner
 * is `_clean_price` of the enrichment service (`Price.CleanPrice`).
 */
module Migration {
  import opened Py
  import opened Price
  import opened Staging

  const PageSize: nat := 1000
  const PriceColumn: string := "google_price__c"

  /** `should_update`: only a cleaned price that differs from the stored one is written. */
  predicate ShouldUpdate(raw: Value, newPrice: Option<string>) {
    newPrice.Some? && raw != VStr(newPrice.value)
  }

  /** Whether the migration rewrites the price of `row`. */
  predicate NeedsUpdate(clean: Value -> Option<string>, row: Dict) {
    ShouldUpdate(Get(row, PriceColumn), clean(Get(row, PriceColumn)))
  }

  /** A row after the migration has visited it. */
  function MigratedRow(clean: Value -> Option<string>, row: Dict): Dict {
    if NeedsUpdate(clean, row) then row[PriceColumn := VStr(clean(Get(row, PriceColumn)).value)] else row
  }

  /**
   * With `_clean_price`: a rewritten price is the cleaned tier, a picklist
   * value; a price the cleaner cannot read stays as it was; no other column
   * changes.
   */
  lemma MigratedRowEffect(row: Dict)
    ensures var r := MigratedRow(CleanPrice, row);
            row.Keys <= r.Keys <= row.Keys + {PriceColumn} &&
            (forall c :: c in row && c != PriceColumn ==> r[c] == row[c]) &&
            (NeedsUpdate(CleanPrice, row) ==>
               r[PriceColumn] == PriceValue(CleanPrice(Get(row, PriceColumn))) && IsPicklistPrice(r[PriceColumn])) &&
            (CleanPrice(Get(row, PriceColumn)).None? ==> r == row)
  {
  }

  /** With `_clean_price`, a migrated row needs no further update: a second run changes nothing. */
  lemma MigratedRowSettled(row: Dict)
    ensures !NeedsUpdate(CleanPrice, MigratedRow(CleanPrice, row))
  {
    var raw := Get(row, PriceColumn);
    CleanPriceIdempotent(EnDashSeparators, raw);
    if NeedsUpdate(CleanPrice, row) {
      assert Get(MigratedRow(CleanPrice, row), PriceColumn) == VStr(CleanPrice(raw).value);
    }
  }

  /** The keys listed in `keys`. */
  function KeySet(keys: seq<string>): (r: set<string>)
    ensures forall k :: k in r <==> k in keys
  {
    set k | k in keys
  }

  /** Listing one more key adds that key, which was not listed before when the listing has no repeats. */
  lemma KeySetSnoc(keys: seq<string>, i: nat)
    requires i < |keys|
    requires forall a, b :: 0 <= a < b < |keys| ==> keys[a] != keys[b]
    ensures KeySet(keys[..i + 1]) == KeySet(keys[..i]) + {keys[i]}
    ensures keys[i] !in KeySet(keys[..i])
  {
    assert keys[..i + 1] == keys[..i] + [keys[i]];
  }

  /** A listing without repeats names as many keys as it has entries. */
  lemma {:induction false} KeySetSize(keys: seq<string>)
    requires forall a, b :: 0 <= a < b < |keys| ==> keys[a] != keys[b]
    ensures |KeySet(keys)| == |keys|
  {
    if keys != [] {
      var n := |keys| - 1;
      KeySetSize(keys[..n]);
      KeySetSnoc(keys, n);
      assert keys[..n + 1] == keys;
    }
  }

  /** The table with the rows of `done` migrated and the others untouched. */
  function Migrated(clean: Value -> Option<string>, rows: map<string, Dict>, done: set<string>): (r: map<string, Dict>)
    ensures r.Keys == rows.Keys
  {
    map k | k in rows :: if k in done then MigratedRow(clean, rows[k]) else rows[k]
  }

  /** The rows of `keys` whose price the migration rewrites. */
  function ToUpdate(clean: Value -> Option<string>, rows: map<string, Dict>, keys: set<string>): (r: set<string>)
    ensures r <= keys
  {
    set k | k in keys && k in rows && NeedsUpdate(clean, rows[k])
  }

  /** After a complete run, a second run rewrites nothing. */
  lemma SecondRunUpdatesNothing(rows: map<string, Dict>)
    ensures ToUpdate(CleanPrice, Migrated(CleanPrice, rows, rows.Keys), rows.Keys) == {}
  {
    forall k | k in rows
      ensures !NeedsUpdate(CleanPrice, Migrated(CleanPrice, rows, rows.Keys)[k])
    {
      MigratedRowSettled(rows[k]);
    }
  }

  /** Migrating two disjoint sets of rows one after the other migrates their union. */
  lemma MigratedUnion(clean: Value -> Option<string>, rows: map<string, Dict>, a: set<string>, b: set<string>)
    requires a !! b
    ensures Migrated(clean, Migrated(clean, rows, a), b) == Migrated(clean, rows, a + b)
  {
  }

  /** The rewrites of two disjoint sets of rows visited one after the other add up. */
  lemma ToUpdateUnion(clean: Value -> Option<string>, rows: map<string, Dict>, a: set<string>, b: set<string>)
    requires a !! b
    ensures |ToUpdate(clean, rows, a + b)| == |ToUpdate(clean, rows, a)| + |ToUpdate(clean, Migrated(clean, rows, a), b)|
  {
    assert ToUpdate(clean, Migrated(clean, rows, a), b) == ToUpdate(clean, rows, b);
    assert ToUpdate(clean, rows, a + b) == ToUpdate(clean, rows, a) + ToUpdate(clean, rows, b);
  }

  /** Visiting one row rewrites it once or not at all. */
  lemma ToUpdateSingle(clean: Value -> Option<string>, rows: map<string, Dict>, k: string)
    requires k in rows
    ensures |ToUpdate(clean, rows, {k})| == if NeedsUpdate(clean, rows[k]) then 1 else 0
  {
    if NeedsUpdate(clean, rows[k]) {
      assert ToUpdate(clean, rows, {k}) == {k};
    } else {
      assert ToUpdate(clean, rows, {k}) == {};
    }
  }

  /**
   * The bookkeeping of one page `order[n..m]`: the keys visited on it are
   * new, and the listing so far grows by it.
   */
  lemma PageStep(order: seq<string>, n: nat, m: nat, visited: set<string>)
    requires forall i, j :: 0 <= i < j < |order| ==> order[i] != order[j]
    requires n <= m <= |order| && visited <= KeySet(order[n..])
    ensures KeySet(order[..n]) !! visited
    ensures KeySet(order[..m]) == KeySet(order[..n]) + KeySet(order[n..m])
  {
    forall k | k in visited ensures k !in KeySet(order[..n]) {
      var j :| 0 <= j < |order[n..]| && order[n..][j] == k;
      assert order[n + j] == k;
    }
    assert order[..m] == order[..n] + order[n..m];
  }

  /** A page of the listing holds distinct keys of the table. */
  lemma PageOfOrder(order: seq<string>, n: nat, m: nat, rows0: map<string, Dict>, rows: map<string, Dict>)
    requires forall k :: k in order ==> k in rows0
    requires forall i, j :: 0 <= i < j < |order| ==> order[i] != order[j]
    requires n <= m <= |order| && rows.Keys == rows0.Keys
    ensures forall k :: k in order[n..m] ==> k in rows
    ensures forall i, j :: 0 <= i < j < m - n ==> order[n..m][i] != order[n..m][j]
  {
    assert forall i :: 0 <= i < m - n ==> order[n..m][i] == order[n + i];
  }

  /**
   * The accounts of one page `order[n..m]` after the first `n` keys: the
   * rows it visits are new, the migrations and the rewrites of the two add
   * up, and a page visited whole extends the listing so far to `m`.
   */
  lemma PageAccounted(clean: Value -> Option<string>, rows: map<string, Dict>, order: seq<string>, n: nat, m: nat,
                      visited: set<string>)
    requires forall i, j :: 0 <= i < j < |order| ==> order[i] != order[j]
    requires n <= m <= |order| && visited <= KeySet(order[n..m])
    ensures var done := KeySet(order[..n]);
            done !! visited &&
            done + visited <= KeySet(order) &&
            Migrated(clean, Migrated(clean, rows, done), visited) == Migrated(clean, rows, done + visited) &&
            |ToUpdate(clean, rows, done + visited)| ==
              |ToUpdate(clean, rows, done)| + |ToUpdate(clean, Migrated(clean, rows, done), visited)| &&
            (visited == KeySet(order[n..m]) ==> done + visited == KeySet(order[..m]))
  {
    assert forall k :: k in KeySet(order[n..m]) ==> k in KeySet(order[n..]) by {
      forall k | k in KeySet(order[n..m]) ensures k in KeySet(order[n..]) {
        var j :| 0 <= j < m - n && order[n..m][j] == k;
        assert order[n..][j] == k;
      }
    }
    PageStep(order, n, m, visited);
    var done := KeySet(order[..n]);
    assert done + visited <= KeySet(order) by {
      forall k | k in done + visited ensures k in KeySet(order) {
        if k in done {
          var j :| 0 <= j < n && order[..n][j] == k;
          assert order[j] == k;
        } else {
          var j :| 0 <= j < m - n && order[n..m][j] == k;
          assert order[n + j] == k;
        }
      }
    }
    MigratedUnion(clean, rows, done, visited);
    ToUpdateUnion(clean, rows, done, visited);
  }

  /** A run over a listing of every key visits every row once, and rewrites at most one price per row. */
  lemma CompleteRun(clean: Value -> Option<string>, rows: map<string, Dict>, order: seq<string>)
    requires forall k :: k in order <==> k in rows
    requires forall i, j :: 0 <= i < j < |order| ==> order[i] != order[j]
    ensures KeySet(order) == rows.Keys
    ensures |ToUpdate(clean, rows, KeySet(order))| <= |order|
  {
    KeySetSize(order);
    assert ToUpdate(clean, rows, KeySet(order)) <= KeySet(order);
    SubsetSize(ToUpdate(clean, rows, KeySet(order)), KeySet(order));
  }

  lemma SubsetSize(a: set<string>, b: set<string>)
    requires a <= b
    ensures |a| <= |b|
  {
    assert b == a + (b - a);
  }

  /**
   * The body of the `for record in records` loop for the row of `aid`: the
   * price is rewritten when `should_update` holds; an update that raises
   * leaves the row as it was.
   */
  method MigrateRow(store: Store, aid: string, clean: Value -> Option<string>, updateFails: string -> bool)
    returns (rewritten: bool, ok: bool)
    requires store.Valid() && aid in store.rows
    modifies store
    ensures store.Valid()
    ensures store.history == old(store.history) && store.writes == old(store.writes)
    ensures ok <==> !(NeedsUpdate(clean, old(store.rows)[aid]) && updateFails(aid))
    ensures rewritten <==> ok && NeedsUpdate(clean, old(store.rows)[aid])
    ensures store.rows == if ok then Migrated(clean, old(store.rows), {aid}) else old(store.rows)
  {
    var raw := Get(store.rows[aid], PriceColumn);
    var newPrice := clean(raw);
    rewritten, ok := false, true;
    if ShouldUpdate(raw, newPrice) {
      if updateFails(aid) {
        ok := false;
        return;
      }
      store.UpdateColumn(aid, PriceColumn, VStr(newPrice.value));
      rewritten := true;
    }
  }

  /**
   * The `for record in records` loop over one page: the rows of `visited`
   * are migrated and the others untouched, and `updated` counts their
   * rewrites; when the loop completes `visited` is the whole page. An
   * update that raises ends it early.
   */
  method MigratePage(store: Store, page: seq<string>, clean: Value -> Option<string>, updateFails: string -> bool)
    returns (updated: nat, ok: bool, ghost visited: set<string>)
    requires store.Valid()
    requires forall k :: k in page ==> k in store.rows
    requires forall i, j :: 0 <= i < j < |page| ==> page[i] != page[j]
    modifies store
    ensures store.Valid()
    ensures store.history == old(store.history) && store.writes == old(store.writes)
    ensures visited <= KeySet(page) && store.rows == Migrated(clean, old(store.rows), visited)
    ensures updated == |ToUpdate(clean, old(store.rows), visited)|
    ensures ok ==> visited == KeySet(page)
    ensures (forall k :: !updateFails(k)) ==> ok
  {
    updated, ok, visited := 0, true, {};
    ghost var rows0 := store.rows;
    for i := 0 to |page|
      invariant store.Valid()
      invariant store.history == old(store.history) && store.writes == old(store.writes)
      invariant visited == KeySet(page[..i])
      invariant store.rows == Migrated(clean, rows0, visited)
      invariant updated == |ToUpdate(clean, rows0, visited)|
    {
      var aid := page[i];
      KeySetSnoc(page, i);
      assert store.rows[aid] == rows0[aid];
      ToUpdateUnion(clean, rows0, visited, {aid});
      ToUpdateSingle(clean, store.rows, aid);
      var rewritten;
      rewritten, ok := MigrateRow(store, aid, clean, updateFails);
      if !ok {
        return;
      }
      MigratedUnion(clean, rows0, visited, {aid});
      visited := visited + {aid};
      if rewritten {
        updated := updated + 1;
      }
    }
    assert page[..|page|] == page;
  }

  /**
   * One pass of the `while True` body at `offset == processed`, after the
   * rows of `done` (the first `processed` keys) have been migrated: the page
   * `order[processed..processed + 1000]`, its rows migrated. `visited` is
   * `done` with the rows of the page visited so far and `updated` counts
   * their rewrites. `more` is false when the loop ends here: the fetch or
   * an update raises (`ok` false), or the page is empty or short.
   */
  method MigrateNextPage(store: Store, order: seq<string>, processed: nat, clean: Value -> Option<string>,
                         pageFails: nat -> bool, updateFails: string -> bool,
                         ghost rows0: map<string, Dict>, ghost done: set<string>)
    returns (size: nat, updated: nat, ok: bool, more: bool, ghost visited: set<string>)
    requires store.Valid()
    requires forall k :: k in order ==> k in rows0
    requires forall i, j :: 0 <= i < j < |order| ==> order[i] != order[j]
    requires processed <= |order|
    requires done == KeySet(order[..processed]) && store.rows == Migrated(clean, rows0, done)
    modifies store
    ensures store.Valid()
    ensures store.history == old(store.history) && store.writes == old(store.writes)
    ensures processed + size <= |order|
    ensures done <= visited <= KeySet(order) && store.rows == Migrated(clean, rows0, visited)
    ensures |ToUpdate(clean, rows0, visited)| == |ToUpdate(clean, rows0, done)| + updated
    ensures ok ==> visited == KeySet(order[..processed + size])
    ensures more ==> ok && size == PageSize
    ensures ok && !more ==> processed + size == |order|
    ensures !pageFails(processed) && (forall k :: !updateFails(k)) ==> ok
  {
    size, updated, ok, more, visited := 0, 0, true, false, done;
    if pageFails(processed) {
      ok := false;
      return;
    }
    var stop := if processed + PageSize < |order| then processed + PageSize else |order|;
    var page := order[processed..stop];
    if page == [] {
      return;
    }
    PageOfOrder(order, processed, stop, rows0, store.rows);
    ghost var pageVisited;
    updated, ok, pageVisited := MigratePage(store, page, clean, updateFails);
    PageAccounted(clean, rows0, order, processed, stop, pageVisited);
    visited := done + pageVisited;
    if ok {
      size := |page|;
      more := |page| == PageSize;
    }
  }

  /**
   * `update_price_format()`: pages at offsets 0, 1000, 2000, ... until a
   * page is empty or short; an exception anywhere ends the run. The rows of
   * `visited` are migrated and the others untouched, and `updated` counts
   * their rewrites; a run that completes has visited every row once.
   */
  method UpdatePriceFormat(store: Store, order: seq<string>, pageFails: nat -> bool, updateFails: string -> bool)
    returns (processed: nat, updated: nat, completed: bool, ghost visited: set<string>)
    requires store.Valid()
    requires forall k :: k in order <==> k in store.rows
    requires forall i, j :: 0 <= i < j < |order| ==> order[i] != order[j]
    modifies store
    ensures store.Valid()
    ensures store.history == old(store.history) && store.writes == old(store.writes)
    ensures processed <= |order|
    ensures visited <= old(store.rows).Keys && store.rows == Migrated(CleanPrice, old(store.rows), visited)
    ensures updated == |ToUpdate(CleanPrice, old(store.rows), visited)|
    ensures completed ==> processed == |order| && visited == old(store.rows).Keys && updated <= processed
    ensures (forall o :: !pageFails(o)) && (forall k :: !updateFails(k)) ==> completed
  {
    processed, updated, completed, visited := 0, 0, false, {};
    var offset := 0;
    ghost var rows0 := store.rows;
    CompleteRun(CleanPrice, rows0, order);
    while true
      invariant store.Valid()
      invariant store.history == old(store.history) && store.writes == old(store.writes)
      invariant offset == processed <= |order|
      invariant visited == KeySet(order[..processed])
      invariant store.rows == Migrated(CleanPrice, rows0, visited)
      invariant updated == |ToUpdate(CleanPrice, rows0, visited)|
      decreases |order| - processed
    {
      var size, pageUpdated, ok, more;
      size, pageUpdated, ok, more, visited :=
        MigrateNextPage(store, order, offset, CleanPrice, pageFails, updateFails, rows0, visited);
      updated := updated + pageUpdated;
      if !ok {
        return;
      }
      processed := processed + size;
      offset := offset + PageSize;
      if !more {
        break;
      }
    }
    assert order[..processed] == order;
    assert visited == rows0.Keys;
    completed := true;
  }
}
