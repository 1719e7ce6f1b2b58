/**
 * The staging store (`supabase_client.py`): the table `enrichment_results`,
 * keyed by `account_id`, and the append-only table `enrichment_history`.
 * The remote database is an in-memory map; each call takes a flag saying
 * whether its request to the database fails, which the client catches.
 */
module Staging {
  import opened Py

  const Pending: string := "PENDING"
  const Synced: string := "SYNCED"
  const Failed: string := "ERROR"

  /** A write that reached the database, in the order it was made. */
  datatype Write = Upsert(accountId: string) | HistoryAppend(recordId: Value)

  /** What `insert_record` returns: the existing row when nothing changed, the written row, or None after a failure. */
  datatype InsertOutcome = Unchanged(row: Dict) | Upserted(row: Dict) | InsertFailed

  /** The status a row is counted under by `get_enrichment_stats`. */
  function StatusOf(row: Dict): Value {
    GetOr(row, "status", VStr("UNKNOWN"))
  }

  predicate IsPending(row: Dict) {
    Get(row, "sync_status") == VStr(Pending)
  }

  /** `row` is the stored row of the account it names. */
  predicate IsRowOf(rows: map<string, Dict>, row: Dict) {
    "account_id" in row && row["account_id"].VStr? && row["account_id"].s in rows && rows[row["account_id"].s] == row
  }

  /** The change test of `insert_record` for one key: a non-None new value whose `str` and value both differ from the old one. */
  predicate Differs(render: Value -> string, newValue: Value, oldValue: Value) {
    Str(render, newValue) != Str(render, oldValue) && newValue != VNone && !PyEq(newValue, oldValue)
  }

  /** Some key present in both the payload and the existing row holds a changed value. */
  predicate HasChanges(render: Value -> string, payload: Dict, existing: Dict) {
    exists k :: k in payload && k in existing && Differs(render, payload[k], existing[k])
  }

  /** The copy of a record the client sends: without `timestamp`. */
  function WithoutTimestamp(record: Dict): (r: Dict)
    ensures "timestamp" !in r
    ensures forall k :: k in r <==> k in record && k != "timestamp"
    ensures forall k :: k in r ==> r[k] == record[k]
  {
    record - {"timestamp"}
  }

  /** An upsert on `account_id`: the given columns overwrite those of the existing row, if any. */
  function Merge(rows: map<string, Dict>, id: string, payload: Dict): Dict {
    (if id in rows then rows[id] else map[]) + payload
  }

  /** `update({column: value}).eq("account_id", id)` */
  function SetColumn(rows: map<string, Dict>, id: string, column: string, value: Value): (r: map<string, Dict>)
    ensures r.Keys == rows.Keys
    ensures forall k :: k in rows && k != id ==> r[k] == rows[k]
    ensures id in rows ==> r[id] == rows[id][column := value]
  {
    if id in rows then rows[id := rows[id][column := value]] else rows
  }

  /** What `insert_record(record)` returns against the table `rows`. */
  function InsertResult(render: Value -> string, rows: map<string, Dict>, record: Dict, lookupFails: bool, upsertFails: bool): InsertOutcome
    requires "account_id" in record && record["account_id"].VStr?
  {
    var payload := WithoutTimestamp(record);
    var id := record["account_id"].s;
    if !lookupFails && id != "" && id in rows && !HasChanges(render, payload, rows[id]) then Unchanged(rows[id])
    else if upsertFails then InsertFailed
    else Upserted(Merge(rows, id, payload))
  }

  /** Every row is stored under its own `account_id`. */
  ghost predicate Keyed(rows: map<string, Dict>) {
    forall k :: k in rows ==> "account_id" in rows[k] && rows[k]["account_id"] == VStr(k)
  }

  /** Storing a row under its own id keeps every row under its own id. */
  lemma KeyedUpdate(rows: map<string, Dict>, id: string, row: Dict)
    requires Keyed(rows) && "account_id" in row && row["account_id"] == VStr(id)
    ensures Keyed(rows[id := row])
  {
  }

  /** The upserted row carries the account's id, since the payload does. */
  lemma MergeKeepsId(rows: map<string, Dict>, id: string, payload: Dict)
    requires "account_id" in payload && payload["account_id"] == VStr(id)
    ensures "account_id" in Merge(rows, id, payload) && Merge(rows, id, payload)["account_id"] == VStr(id)
  {
  }

  /** The table after an insert with `outcome`: only an upsert writes, and only the account's own row. */
  function RowsAfter(rows: map<string, Dict>, id: string, outcome: InsertOutcome): map<string, Dict> {
    if outcome.Upserted? then rows[id := outcome.row] else rows
  }

  /** An insert never removes a row, and unless the upsert fails the account has a row afterwards. */
  lemma InsertKeepsRows(render: Value -> string, rows: map<string, Dict>, record: Dict, lookupFails: bool, upsertFails: bool)
    requires "account_id" in record && record["account_id"].VStr?
    ensures var after := RowsAfter(rows, record["account_id"].s, InsertResult(render, rows, record, lookupFails, upsertFails));
            rows.Keys <= after.Keys && (!upsertFails ==> record["account_id"].s in after)
  {
  }

  /** The rows in `keys` whose status is `v`. */
  function WithStatus(rows: map<string, Dict>, keys: set<string>, v: Value): set<string> {
    set k | k in keys && k in rows && StatusOf(rows[k]) == v
  }

  class Store {
    /** `str()` of the values Python renders itself (floats, lists, dicts). */
    const render: Value -> string
    /** `enrichment_results`, keyed by `account_id`. */
    var rows: map<string, Dict>
    /** `enrichment_history`, oldest first. */
    var history: seq<Dict>
    ghost var writes: seq<Write>

    /** Every row carries its own key as `account_id`: the table holds at most one row per account. */
    ghost predicate Valid()
      reads this
    {
      Keyed(rows)
    }

    constructor (render: Value -> string)
      ensures this.render == render && rows == map[] && history == [] && writes == []
      ensures Valid()
    {
      this.render := render;
      rows := map[];
      history := [];
      writes := [];
    }

    /** `record_exists(account_id)`: false when the query fails. */
    method RecordExists(accountId: string, fails: bool) returns (b: bool)
      requires Valid()
      ensures b <==> !fails && exists k :: k in rows && rows[k]["account_id"] == VStr(accountId)
    {
      b := !fails && accountId in rows;
    }

    /** `get_existing_record(account_id)`: None when absent or when the query fails. */
    method GetExistingRecord(accountId: Value, fails: bool) returns (r: Option<Dict>)
      requires Valid()
      ensures r.Some? <==> !fails && accountId.VStr? && accountId.s in rows
      ensures r.Some? ==> r.value == rows[accountId.s] && r.value["account_id"] == accountId
    {
      if !fails && accountId.VStr? && accountId.s in rows {
        r := Some(rows[accountId.s]);
      } else {
        r := None;
      }
    }

    /**
     * `insert_record(record)`: looks the account up unless its id is empty;
     * an existing row without changes is returned as it is, otherwise the
     * payload is upserted on `account_id`.
     */
    method InsertRecord(record: Dict, lookupFails: bool, upsertFails: bool) returns (outcome: InsertOutcome)
      requires Valid()
      requires "account_id" in record && record["account_id"].VStr?
      modifies this
      ensures Valid()
      ensures history == old(history)
      ensures var payload := WithoutTimestamp(record);
              var id := record["account_id"].s;
              var found := !lookupFails && id != "" && id in old(rows);
              if found && !HasChanges(render, payload, old(rows)[id]) then
                outcome == Unchanged(old(rows)[id]) && rows == old(rows) && writes == old(writes)
              else if upsertFails then
                outcome == InsertFailed && rows == old(rows) && writes == old(writes)
              else
                var row := Merge(old(rows), id, payload);
                outcome == Upserted(row) && rows == old(rows)[id := row] && writes == old(writes) + [Upsert(id)]
      ensures outcome == InsertResult(render, old(rows), record, lookupFails, upsertFails)
      ensures rows == RowsAfter(old(rows), record["account_id"].s, outcome)
      ensures writes == old(writes) + (if outcome.Upserted? then [Upsert(record["account_id"].s)] else [])
    {
      var payload := WithoutTimestamp(record);
      var accountId := payload["account_id"];
      assert accountId == record["account_id"];
      var existing: Option<Dict> := None;
      if Truthy(accountId) {
        existing := GetExistingRecord(accountId, lookupFails);
      }
      if existing.Some? {
        var hasChanges := DetectChanges(payload, existing.value);
        if !hasChanges {
          return Unchanged(existing.value);
        }
      }
      if upsertFails {
        return InsertFailed;
      }
      var id := accountId.s;
      var row := Merge(rows, id, payload);
      MergeKeepsId(rows, id, payload);
      KeyedUpdate(rows, id, row);
      rows := rows[id := row];
      writes := writes + [Upsert(id)];
      return Upserted(row);
    }

    /** The `has_changes` loop of `insert_record`: it stops at the first key whose value changed. */
    method DetectChanges(payload: Dict, existing: Dict) returns (hasChanges: bool)
      ensures hasChanges <==> HasChanges(render, payload, existing)
    {
      hasChanges := false;
      var keys := KeysOf(payload);
      var i := 0;
      while i < |keys|
        invariant 0 <= i <= |keys|
        invariant !hasChanges ==> forall j :: 0 <= j < i ==> !(keys[j] in existing && Differs(render, payload[keys[j]], existing[keys[j]]))
        invariant hasChanges ==> HasChanges(render, payload, existing)
      {
        var key := keys[i];
        if key in existing {
          var newValue := payload[key];
          var oldValue := Get(existing, key);
          if Str(render, newValue) != Str(render, oldValue) && newValue != VNone {
            if !PyEq(newValue, oldValue) {
              hasChanges := true;
              break;
            }
          }
        }
        i := i + 1;
      }
      if !hasChanges {
        forall k | k in payload && k in existing
          ensures !Differs(render, payload[k], existing[k])
        {
          var j :| 0 <= j < |keys| && keys[j] == k;
        }
      }
    }

    /** `insert_history_record(record)`: appends the record without `timestamp`. */
    method InsertHistoryRecord(record: Dict, fails: bool)
      requires Valid()
      modifies this
      ensures Valid()
      ensures rows == old(rows)
      ensures history == old(history) + (if fails then [] else [WithoutTimestamp(record)])
      ensures writes == old(writes) + (if fails then [] else [HistoryAppend(Get(record, "account_id"))])
    {
      if !fails {
        history := history + [WithoutTimestamp(record)];
        writes := writes + [HistoryAppend(Get(record, "account_id"))];
      }
    }

    /**
     * `get_unsynced_records(limit)`: up to `limit` pending rows, in the
     * order the database returns them. A failed query, or a limit that is
     * not positive, yields no rows.
     */
    method GetUnsyncedRecords(limit: int, fails: bool) returns (recs: seq<Dict>)
      requires Valid()
      ensures fails || limit <= 0 ==> recs == []
      ensures |recs| <= if limit < 0 then 0 else limit
      ensures forall i :: 0 <= i < |recs| ==> IsPending(recs[i]) && IsRowOf(rows, recs[i])
      ensures forall i, j :: 0 <= i < j < |recs| ==> Get(recs[i], "account_id") != Get(recs[j], "account_id")
      ensures !fails && |recs| < limit ==> forall k :: k in rows && IsPending(rows[k]) ==> rows[k] in recs
    {
      recs := [];
      if fails || limit <= 0 {
        return;
      }
      var keys := KeysOf(rows);
      var i := 0;
      while i < |keys| && |recs| < limit
        invariant 0 <= i <= |keys|
        invariant |recs| <= limit
        invariant forall j :: 0 <= j < |recs| ==> IsPending(recs[j]) && IsRowOf(rows, recs[j]) && recs[j]["account_id"].s in keys[..i]
        invariant forall j, j' :: 0 <= j < j' < |recs| ==> Get(recs[j], "account_id") != Get(recs[j'], "account_id")
        invariant forall j :: 0 <= j < i && IsPending(rows[keys[j]]) ==> rows[keys[j]] in recs
      {
        var row := rows[keys[i]];
        if IsPending(row) {
          assert forall j :: 0 <= j < |recs| ==> Get(recs[j], "account_id") != VStr(keys[i]);
          recs := recs + [row];
        }
        i := i + 1;
      }
      if |recs| < limit {
        forall k | k in rows && IsPending(rows[k])
          ensures rows[k] in recs
        {
          var j :| 0 <= j < |keys| && keys[j] == k;
        }
      }
    }

    /** `update_sync_status(account_id, status)`: sets `sync_status` on the account's row; False when the request fails. */
    method UpdateSyncStatus(accountId: string, status: string, fails: bool) returns (ok: bool)
      requires Valid()
      modifies this
      ensures Valid()
      ensures ok == !fails
      ensures rows == if fails then old(rows) else SetColumn(old(rows), accountId, "sync_status", VStr(status))
      ensures history == old(history) && writes == old(writes)
    {
      if fails {
        return false;
      }
      rows := SetColumn(rows, accountId, "sync_status", VStr(status));
      return true;
    }

    /** `update({column: value}).eq("account_id", account_id)` for any other column. */
    method UpdateColumn(accountId: string, column: string, value: Value)
      requires Valid() && column != "account_id"
      modifies this
      ensures Valid()
      ensures rows == SetColumn(old(rows), accountId, column, value)
      ensures history == old(history) && writes == old(writes)
    {
      rows := SetColumn(rows, accountId, column, value);
    }

    /** `get_enrichment_stats()`: the number of rows per status, a missing status counting as "UNKNOWN". */
    method GetEnrichmentStats(fails: bool) returns (stats: map<Value, nat>)
      ensures fails ==> stats == map[]
      ensures !fails ==> forall v :: v in stats <==> exists k :: k in rows && StatusOf(rows[k]) == v
      ensures !fails ==> forall v :: v in stats ==> stats[v] == |WithStatus(rows, rows.Keys, v)|
      ensures !fails ==> SumValues(stats) == |rows|
    {
      stats := map[];
      if fails {
        return;
      }
      var keys := KeysOf(rows);
      for i := 0 to |keys|
        invariant stats == TallyOf(rows, keys[..i])
      {
        assert keys[..i + 1][..i] == keys[..i];
        stats := Bump(stats, StatusOf(rows[keys[i]]));
      }
      assert keys[..|keys|] == keys;
      TallyOfTallies(rows, keys);
      assert (set k | k in keys) == rows.Keys;
    }

    /** `get_all_account_ids()`: the `account_id` of every row, each once. */
    method GetAllAccountIds(fails: bool) returns (ids: seq<string>)
      requires Valid()
      ensures fails ==> ids == []
      ensures !fails ==> |ids| == |rows|
      ensures !fails ==> forall i :: 0 <= i < |ids| ==> ids[i] in rows && rows[ids[i]]["account_id"] == VStr(ids[i])
      ensures !fails ==> forall k :: k in rows ==> rows[k]["account_id"].VStr? && rows[k]["account_id"].s in ids
      ensures forall i, j :: 0 <= i < j < |ids| ==> ids[i] != ids[j]
    {
      if fails {
        return [];
      }
      ids := KeysOf(rows);
    }
  }

  /** `stats[v] = stats.get(v, 0) + 1` */
  function Bump(stats: map<Value, nat>, v: Value): map<Value, nat> {
    stats[v := (if v in stats then stats[v] else 0) + 1]
  }

  /** The counts per status of the rows of `ks`, visited in order. */
  ghost function TallyOf(rows: map<string, Dict>, ks: seq<string>): map<Value, nat>
    requires forall k :: k in ks ==> k in rows
  {
    if ks == [] then map[] else Bump(TallyOf(rows, ks[..|ks| - 1]), StatusOf(rows[ks[|ks| - 1]]))
  }

  /** Visiting distinct keys one by one tallies exactly the rows they name. */
  lemma {:induction false} TallyOfTallies(rows: map<string, Dict>, ks: seq<string>)
    requires forall k :: k in ks ==> k in rows
    requires forall i, j :: 0 <= i < j < |ks| ==> ks[i] != ks[j]
    ensures Tallies(rows, (set k | k in ks), TallyOf(rows, ks))
  {
    if ks == [] {
      TalliesEmpty(rows);
    } else {
      var init := ks[..|ks| - 1];
      var last := ks[|ks| - 1];
      TallyOfTallies(rows, init);
      assert ks == init + [last];
      LastIsNew(ks, init, last);
      TallyStep(rows, (set k | k in init), TallyOf(rows, init), last);
    }
  }

  /** The last of distinct keys is not among the others, and adds itself to their set. */
  lemma LastIsNew(ks: seq<string>, init: seq<string>, last: string)
    requires ks == init + [last]
    requires forall i, j :: 0 <= i < j < |ks| ==> ks[i] != ks[j]
    ensures last !in init
    ensures (set k | k in ks) == (set k | k in init) + {last}
  {
    forall i | 0 <= i < |init|
      ensures init[i] != last
    {
      assert ks[i] == init[i] && ks[|init|] == last;
    }
  }


  /** `stats` counts, per status, the rows of `done`, and its counts add up to their number. */
  ghost predicate Tallies(rows: map<string, Dict>, done: set<string>, stats: map<Value, nat>) {
    done <= rows.Keys &&
    (forall v :: v in stats <==> exists k :: k in done && StatusOf(rows[k]) == v) &&
    (forall v :: v in stats ==> stats[v] == |WithStatus(rows, done, v)|) &&
    SumValues(stats) == |done|
  }

  lemma TalliesEmpty(rows: map<string, Dict>)
    ensures Tallies(rows, {}, map[])
  {
    var empty: map<Value, nat> := map[];
    assert SumValues(empty) == 0;
  }

  /** Counting one more row raises its status's count by one and leaves the others. */
  lemma TallyStep(rows: map<string, Dict>, done: set<string>, stats: map<Value, nat>, key: string)
    requires Tallies(rows, done, stats)
    requires key in rows && key !in done
    ensures var v := StatusOf(rows[key]);
            Tallies(rows, done + {key}, Bump(stats, v))
  {
    var v := StatusOf(rows[key]);
    SumValuesBump(stats, v);
    TallyStepKeys(rows, done, stats, key);
    TallyStepCounts(rows, done, stats, key);
  }

  lemma TallyStepKeys(rows: map<string, Dict>, done: set<string>, stats: map<Value, nat>, key: string)
    requires key in rows && done <= rows.Keys
    requires forall v :: v in stats <==> exists k :: k in done && StatusOf(rows[k]) == v
    ensures var v := StatusOf(rows[key]);
            forall u :: u in Bump(stats, v) <==> exists k :: k in done + {key} && StatusOf(rows[k]) == u
  {
    var v := StatusOf(rows[key]);
    var stats' := Bump(stats, v);
    forall u
      ensures u in stats' <==> exists k :: k in done + {key} && StatusOf(rows[k]) == u
    {
      if u == v {
        assert key in done + {key};
      } else if exists k :: k in done + {key} && StatusOf(rows[k]) == u {
        var k :| k in done + {key} && StatusOf(rows[k]) == u;
        assert k in done;
      }
    }
  }

  lemma TallyStepCounts(rows: map<string, Dict>, done: set<string>, stats: map<Value, nat>, key: string)
    requires forall v :: v in stats ==> stats[v] == |WithStatus(rows, done, v)|
    requires forall v :: v !in stats ==> WithStatus(rows, done, v) == {}
    requires key in rows && key !in done
    ensures var v := StatusOf(rows[key]);
            var stats' := Bump(stats, v);
            forall u :: u in stats' ==> stats'[u] == |WithStatus(rows, done + {key}, u)|
  {
    var v := StatusOf(rows[key]);
    assert WithStatus(rows, done + {key}, v) == WithStatus(rows, done, v) + {key};
    forall u | u != v
      ensures WithStatus(rows, done + {key}, u) == WithStatus(rows, done, u)
    {
    }
  }
}
