/**
 * `SerpAPI/check_database.py`: the statistics and duplicate check over the
 * staging table. The per-status counts are totalled; when there are none
 * the script stops; otherwise every `account_id` is counted and the ids
 * seen more than once are reported.
 */
module CheckDatabase {
  import opened Py
  import opened Staging

  /** How many times `k` occurs in `ids`. */
  function Occurrences(ids: seq<string>, k: string): nat
  {
    if ids == [] then 0
    else Occurrences(ids[..|ids| - 1], k) + (if ids[|ids| - 1] == k then 1 else 0)
  }

  /** An id occurs at least once exactly when it is listed. */
  lemma {:induction false} OccurrencesListed(ids: seq<string>, k: string)
    ensures Occurrences(ids, k) > 0 <==> k in ids
  {
    if ids != [] {
      var init := ids[..|ids| - 1];
      OccurrencesListed(init, k);
      assert ids == init + [ids[|ids| - 1]];
    }
  }

  /** An id occurs more than once exactly when two positions hold it. */
  lemma {:induction false} RepeatedIff(ids: seq<string>, k: string)
    ensures Occurrences(ids, k) > 1 <==> exists i, j :: 0 <= i < j < |ids| && ids[i] == k && ids[j] == k
  {
    if ids != [] {
      var n := |ids| - 1;
      var init := ids[..n];
      RepeatedIff(init, k);
      OccurrencesListed(init, k);
      if ids[n] == k && Occurrences(init, k) > 0 {
        var i :| 0 <= i < |init| && init[i] == k;
        assert ids[i] == k && ids[n] == k;
      }
      if exists i, j :: 0 <= i < j < |ids| && ids[i] == k && ids[j] == k {
        var i, j :| 0 <= i < j < |ids| && ids[i] == k && ids[j] == k;
        if j < n {
          assert init[i] == k && init[j] == k;
        } else {
          assert init[i] == k;
        }
      }
    }
  }

  /** Counting the id at `i` extends the counts of `ids[..i]` to those of `ids[..i + 1]`. */
  lemma CountStep(ids: seq<string>, i: nat, idCounts: map<string, nat>)
    requires i < |ids|
    requires forall k :: k in idCounts <==> k in ids[..i]
    requires forall k :: k in idCounts ==> idCounts[k] == Occurrences(ids[..i], k)
    requires SumValues(idCounts) == i
    ensures var id := ids[i];
            var next := idCounts[id := (if id in idCounts then idCounts[id] else 0) + 1];
            (forall k :: k in next <==> k in ids[..i + 1]) &&
            (forall k :: k in next ==> next[k] == Occurrences(ids[..i + 1], k)) &&
            SumValues(next) == i + 1
  {
    var id := ids[i];
    assert ids[..i + 1][..i] == ids[..i];
    assert ids[..i + 1] == ids[..i] + [id];
    OccurrencesListed(ids[..i], id);
    SumValuesBump(idCounts, id);
  }

  /**
   * The `id_counts` loop: every listed id is a key, counted once per
   * occurrence, and the counts add up to the number of ids.
   */
  method CountIds(ids: seq<string>) returns (idCounts: map<string, nat>)
    ensures forall k :: k in idCounts <==> k in ids
    ensures forall k :: k in idCounts ==> idCounts[k] == Occurrences(ids, k)
    ensures SumValues(idCounts) == |ids|
  {
    idCounts := map[];
    for i := 0 to |ids|
      invariant forall k :: k in idCounts <==> k in ids[..i]
      invariant forall k :: k in idCounts ==> idCounts[k] == Occurrences(ids[..i], k)
      invariant SumValues(idCounts) == i
    {
      var id := ids[i];
      CountStep(ids, i, idCounts);
      idCounts := idCounts[id := (if id in idCounts then idCounts[id] else 0) + 1];
    }
    assert ids[..|ids|] == ids;
  }

  /** The `duplicates` comprehension: the entries of `idCounts` above one. */
  function Duplicates(idCounts: map<string, nat>): map<string, nat>
  {
    map k | k in idCounts && idCounts[k] > 1 :: idCounts[k]
  }

  /** The ids reported as duplicates are those listed twice or more, each with its number of occurrences. */
  lemma DuplicatesListedTwice(ids: seq<string>, idCounts: map<string, nat>)
    requires forall k :: k in idCounts <==> k in ids
    requires forall k :: k in idCounts ==> idCounts[k] == Occurrences(ids, k)
    ensures forall k :: k in Duplicates(idCounts) <==> exists i, j :: 0 <= i < j < |ids| && ids[i] == k && ids[j] == k
    ensures forall k :: k in Duplicates(idCounts) ==> Duplicates(idCounts)[k] == Occurrences(ids, k)
    ensures Duplicates(idCounts) == map[] <==> forall i, j :: 0 <= i < j < |ids| ==> ids[i] != ids[j]
  {
    forall k
      ensures k in Duplicates(idCounts) <==> exists i, j :: 0 <= i < j < |ids| && ids[i] == k && ids[j] == k
    {
      RepeatedIff(ids, k);
      OccurrencesListed(ids, k);
    }
    if exists i, j :: 0 <= i < j < |ids| && ids[i] == ids[j] {
      var i, j :| 0 <= i < j < |ids| && ids[i] == ids[j];
      assert ids[i] in Duplicates(idCounts);
    }
  }

  /**
   * `sum(stats.values())`: the counts of `stats`, added up one key at a time.
   */
  method Total(stats: map<Value, nat>) returns (total: nat)
    ensures total == SumValues(stats)
  {
    total := 0;
    var rest := stats.Keys;
    assert Restrict(stats, rest) == stats;
    while rest != {}
      invariant rest <= stats.Keys
      invariant total + SumValues(Restrict(stats, rest)) == SumValues(stats)
      decreases |rest|
    {
      var k :| k in rest;
      SumValuesRemove(Restrict(stats, rest), k);
      assert Restrict(stats, rest) - {k} == Restrict(stats, rest - {k});
      total := total + stats[k];
      rest := rest - {k};
    }
    assert Restrict(stats, rest) == map[];
  }

  /** The entries of `m` whose keys are in `keys`. */
  ghost function Restrict(m: map<Value, nat>, keys: set<Value>): map<Value, nat>
    requires keys <= m.Keys
  {
    map k | k in keys :: m[k]
  }

  /**
   * `main()`, without its printing and sample records: `checked` is false
   * when the statistics come back empty (the table is empty or the query
   * failed) and the script returns before the duplicate check. Otherwise
   * `total` is the number of rows, and the duplicates are the ids listed
   * twice or more, of which a table keyed by `account_id` has none.
   */
  method CheckDatabase(store: Store, statsFails: bool, idsFails: bool)
    returns (checked: bool, total: nat, ids: seq<string>, duplicates: map<string, nat>)
    requires store.Valid()
    ensures checked <==> !statsFails && store.rows != map[]
    ensures checked ==> total == |store.rows|
    ensures !checked ==> total == 0 && ids == [] && duplicates == map[]
    ensures forall k :: k in duplicates <==> exists i, j :: 0 <= i < j < |ids| && ids[i] == k && ids[j] == k
    ensures forall k :: k in duplicates ==> duplicates[k] == Occurrences(ids, k)
    ensures duplicates == map[]
  {
    checked, total, ids, duplicates := false, 0, [], map[];
    var stats := store.GetEnrichmentStats(statsFails);
    if !statsFails && store.rows != map[] {
      var k :| k in store.rows;
      assert StatusOf(store.rows[k]) in stats;
    }
    if stats == map[] {
      return;
    }
    checked := true;
    total := Total(stats);
    ids := store.GetAllAccountIds(idsFails);
    var idCounts := CountIds(ids);
    duplicates := Duplicates(idCounts);
    DuplicatesListedTwice(ids, idCounts);
  }
}
