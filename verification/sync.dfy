/**
 * The sync service (`SerpAPI/src/sync_service.py`): it reads the PENDING
 * rows of the staging store, pushes each to Salesforce, and flags the row
 * SYNCED or ERROR, counting successes and failures.
 */
module Sync {
  import opened Py
  import opened Price
  import opened Staging
  import Salesforce
  import Enrichment

  const PriceField: string := "Google_Price__c"
  const ThumbnailField: string := "Google_Thumbnail_URL__c"

  /** The Salesforce fields of the sync payload, each with the staged column it is read from. */
  const SfColumns: map<string, string> := map[
    "Google_Place_ID__c" := "google_place_id",
    "Google_Type__c" := "google_type__c",
    "Google_Rating__c" := "google_rating__c",
    "Google_Reviews__c" := "google_reviews__c",
    PriceField := "google_price__c",
    "Prospection_Status__c" := "prospection_status__c",
    "Has_Google_Accept_Bookings_Extension__c" := "has_google_accept_bookings_extension__c",
    "HasGoogleDeliveryExtension__c" := "has_google_delivery_extension__c",
    "HasGoogleTakeoutExtension__c" := "has_google_takeout_extension__c",
    ThumbnailField := "google_thumbnail_url__c",
    "Google_URL__c" := "google_url__c"]

  /** `_prepare_sf_payload(record)`: every field read from its staged column, the price through this copy of `_clean_price`. */
  function SfPayload(record: Dict): (p: Dict)
    ensures p.Keys == SfColumns.Keys
    ensures forall f :: f in SfColumns && f != PriceField ==> p[f] == Get(record, SfColumns[f])
    ensures p[PriceField] == PriceValue(SyncCleanPrice(Get(record, "google_price__c")))
    ensures IsPicklistPrice(p[PriceField])
  {
    map f | f in SfColumns :: if f == PriceField then PriceValue(SyncCleanPrice(Get(record, SfColumns[f]))) else Get(record, SfColumns[f])
  }

  /** Each Salesforce field but the price and the thumbnail is read from the column `_log_result` stages it in. */
  lemma ColumnsAgree()
    ensures forall f :: f in SfColumns && f != PriceField && f != ThumbnailField ==>
              SfColumns[f] in Enrichment.ResultColumns && Enrichment.ResultColumns[SfColumns[f]] == f
  {
  }

  /** A staged column read back from the row `_log_result` stages for a found result. */
  lemma StagedColumn(aid: string, status: string, message: string, data: Dict, c: string)
    requires data != map[] && c in Enrichment.ResultColumns
    ensures Get(StagedRow(aid, status, message, data), c) == Get(data, Enrichment.ResultColumns[c])
  {
    var entry := Enrichment.LogEntry(aid, status, message, Some(data));
    assert c in entry && c != "timestamp";
  }

  /** The row `_log_result` stages for a found result. */
  function StagedRow(aid: string, status: string, message: string, data: Dict): Dict {
    WithoutTimestamp(Enrichment.LogEntry(aid, status, message, Some(data)))
  }

  /**
   * A row staged by `_log_result` for a found result, once synced, carries
   * the result's fields back under their Salesforce names, and the price
   * re-cleaned by the sync copy.
   */
  lemma StagedResultRoundTrip(aid: string, status: string, message: string, data: Dict)
    requires data != map[]
    ensures var p := SfPayload(StagedRow(aid, status, message, data));
            (forall f :: f in SfColumns && f != PriceField && f != ThumbnailField ==> p[f] == Get(data, f)) &&
            p[PriceField] == PriceValue(SyncCleanPrice(Get(data, PriceField)))
  {
    ColumnsAgree();
    forall f | f in SfColumns && f != PriceField && f != ThumbnailField
      ensures SfPayload(StagedRow(aid, status, message, data))[f] == Get(data, f)
    {
      StagedColumn(aid, status, message, data, SfColumns[f]);
    }
    StagedColumn(aid, status, message, data, "google_price__c");
  }

  /** `_log_result` stages no thumbnail, so the sync sends the thumbnail as None. */
  lemma ThumbnailNeverStaged(aid: string, status: string, message: string, data: Dict)
    ensures SfPayload(StagedRow(aid, status, message, data))[ThumbnailField] == VNone
  {
    var entry := Enrichment.LogEntry(aid, status, message, Some(data));
    assert SfColumns[ThumbnailField] == "google_thumbnail_url__c";
    assert "google_thumbnail_url__c" !in entry;
  }

  /** A row as the store returns it: its `account_id` is a string. */
  predicate HasTextId(record: Dict) {
    "account_id" in record && record["account_id"].VStr?
  }

  /**
   * The status a pending record ends in: none when its id is empty;
   * SYNCED in a dry run or when Salesforce accepts the update; ERROR when
   * it refuses it or the call raises.
   */
  function Outcome(record: Dict, dryRun: bool, push: (string, Dict) -> Salesforce.Reply): Option<string>
    requires HasTextId(record)
  {
    var id := record["account_id"].s;
    if id == "" then None
    else if dryRun then Some(Synced)
    else match push(id, SfPayload(record))
      case Updated => Some(Synced)
      case NotUpdated => Some(Failed)
      case UpdateRaised(_) => Some(Failed)
  }

  /** The status each record writes to its row: none without an id, or when the write fails. */
  function Written(record: Dict, dryRun: bool, push: (string, Dict) -> Salesforce.Reply, writeFails: string -> bool): Option<string>
    requires HasTextId(record)
  {
    var status := Outcome(record, dryRun, push);
    if status.None? || writeFails(record["account_id"].s) then None else status
  }

  /** The table after writing `flags[i]` as the `sync_status` of row `ids[i]`, in order. */
  function ApplyFlags(rows: map<string, Dict>, ids: seq<string>, flags: seq<Option<string>>): map<string, Dict>
    requires |ids| == |flags|
    decreases |ids|
  {
    if ids == [] then rows
    else
      var n := |ids| - 1;
      var before := ApplyFlags(rows, ids[..n], flags[..n]);
      if flags[n].None? then before else SetColumn(before, ids[n], "sync_status", VStr(flags[n].value))
  }

  /** Writing to distinct rows: each row gets its own flag, and rows not written keep their contents. */
  lemma {:induction false} ApplyFlagsEffect(rows: map<string, Dict>, ids: seq<string>, flags: seq<Option<string>>)
    requires |ids| == |flags|
    requires forall i, j :: 0 <= i < j < |ids| ==> ids[i] != ids[j]
    ensures ApplyFlags(rows, ids, flags).Keys == rows.Keys
    ensures forall i :: 0 <= i < |ids| && ids[i] in rows ==>
              ApplyFlags(rows, ids, flags)[ids[i]] ==
                (if flags[i].None? then rows[ids[i]] else rows[ids[i]]["sync_status" := VStr(flags[i].value)])
    ensures forall k :: k in rows && k !in ids ==> ApplyFlags(rows, ids, flags)[k] == rows[k]
    decreases |ids|
  {
    if ids != [] {
      var n := |ids| - 1;
      ApplyFlagsEffect(rows, ids[..n], flags[..n]);
      forall i | 0 <= i < |ids| && ids[i] in rows
        ensures ApplyFlags(rows, ids, flags)[ids[i]] ==
                  (if flags[i].None? then rows[ids[i]] else rows[ids[i]]["sync_status" := VStr(flags[i].value)])
      {
        if i < n {
          assert ids[..n][i] == ids[i] && flags[..n][i] == flags[i];
        } else {
          assert ids[n] !in ids[..n];
        }
      }
      forall k | k in rows && k !in ids
        ensures ApplyFlags(rows, ids, flags)[k] == rows[k]
      {
        assert k !in ids[..n];
      }
    }
  }

  /** The ids of `records`, in order. */
  function Ids(records: seq<Dict>): (ids: seq<string>)
    requires forall j :: 0 <= j < |records| ==> HasTextId(records[j])
    ensures |ids| == |records|
    ensures forall i :: 0 <= i < |records| ==> ids[i] == IdAt(records, i)
  {
    seq(|records|, i requires 0 <= i < |records| && HasTextId(records[i]) => records[i]["account_id"].s)
  }

  /** The status writes of `records`, in order. */
  function Flags(records: seq<Dict>, dryRun: bool, push: (string, Dict) -> Salesforce.Reply, writeFails: string -> bool): (flags: seq<Option<string>>)
    requires forall j :: 0 <= j < |records| ==> HasTextId(records[j])
    ensures |flags| == |records|
  {
    seq(|records|, i requires 0 <= i < |records| => Written(records[i], dryRun, push, writeFails))
  }

  /** The table after the status writes for `records`. */
  function Replay(rows: map<string, Dict>, records: seq<Dict>, dryRun: bool, push: (string, Dict) -> Salesforce.Reply,
                  writeFails: string -> bool): map<string, Dict>
    requires forall j :: 0 <= j < |records| ==> HasTextId(records[j])
  {
    ApplyFlags(rows, Ids(records), Flags(records, dryRun, push, writeFails))
  }

  /** Replaying one more record makes that record's write, if any, after the others. */
  lemma ReplaySnoc(rows: map<string, Dict>, records: seq<Dict>, i: nat, dryRun: bool, push: (string, Dict) -> Salesforce.Reply,
                   writeFails: string -> bool)
    requires forall j :: 0 <= j < |records| ==> HasTextId(records[j])
    requires i < |records|
    ensures var before := Replay(rows, records[..i], dryRun, push, writeFails);
            var flag := Written(records[i], dryRun, push, writeFails);
            Replay(rows, records[..i + 1], dryRun, push, writeFails) ==
              if flag.None? then before else SetColumn(before, records[i]["account_id"].s, "sync_status", VStr(flag.value))
  {
    var ids := Ids(records[..i + 1]);
    var flags := Flags(records[..i + 1], dryRun, push, writeFails);
    assert ids[..i] == Ids(records[..i]);
    assert flags[..i] == Flags(records[..i], dryRun, push, writeFails);
  }

  /** How many of `records` end in `status`. */
  function CountOutcome(records: seq<Dict>, dryRun: bool, push: (string, Dict) -> Salesforce.Reply, status: string): nat
    requires forall j :: 0 <= j < |records| ==> HasTextId(records[j])
    decreases |records|
  {
    if records == [] then 0
    else CountOutcome(records[..|records| - 1], dryRun, push, status) +
         (if Outcome(records[|records| - 1], dryRun, push) == Some(status) then 1 else 0)
  }

  /** How many of `records` have a non-empty `account_id`. */
  function WithId(records: seq<Dict>): nat
    requires forall j :: 0 <= j < |records| ==> HasTextId(records[j])
    decreases |records|
  {
    if records == [] then 0
    else
      assert HasTextId(records[|records| - 1]);
      WithId(records[..|records| - 1]) + (if records[|records| - 1]["account_id"].s != "" then 1 else 0)
  }

  /** Every record with an id is counted once: as a success or as a failure. */
  lemma {:induction false} EveryRecordCounted(records: seq<Dict>, dryRun: bool, push: (string, Dict) -> Salesforce.Reply)
    requires forall j :: 0 <= j < |records| ==> HasTextId(records[j])
    ensures CountOutcome(records, dryRun, push, Synced) + CountOutcome(records, dryRun, push, Failed) == WithId(records)
    decreases |records|
  {
    if records != [] {
      EveryRecordCounted(records[..|records| - 1], dryRun, push);
    }
  }

  /** The id of `records[i]`. */
  function IdAt(records: seq<Dict>, i: nat): string
    requires i < |records| && HasTextId(records[i])
  {
    records[i]["account_id"].s
  }

  /**
   * With distinct ids, replaying the status writes sets `sync_status` on
   * the row of each record that was pushed to its outcome, unless that
   * write failed, and leaves every other row, and every other column, as
   * it was.
   */
  lemma ReplayEffect(rows: map<string, Dict>, records: seq<Dict>, dryRun: bool,
                     push: (string, Dict) -> Salesforce.Reply, writeFails: string -> bool)
    requires forall j :: 0 <= j < |records| ==> HasTextId(records[j])
    requires forall i, j :: 0 <= i < j < |records| ==> IdAt(records, i) != IdAt(records, j)
    ensures var after := Replay(rows, records, dryRun, push, writeFails);
            after.Keys == rows.Keys &&
            (forall i :: 0 <= i < |records| && IdAt(records, i) in rows ==>
               after[IdAt(records, i)] ==
                 var status := Outcome(records[i], dryRun, push);
                 if status.None? || writeFails(IdAt(records, i)) then rows[IdAt(records, i)]
                 else rows[IdAt(records, i)]["sync_status" := VStr(status.value)]) &&
            (forall k :: k in rows && (forall i :: 0 <= i < |records| ==> IdAt(records, i) != k) ==> after[k] == rows[k])
  {
    var ids := Ids(records);
    var flags := Flags(records, dryRun, push, writeFails);
    assert forall i, j :: 0 <= i < j < |ids| ==> ids[i] != ids[j] by {
      forall i, j | 0 <= i < j < |ids| ensures ids[i] != ids[j] {
        assert ids[i] == IdAt(records, i) && ids[j] == IdAt(records, j);
      }
    }
    ApplyFlagsEffect(rows, ids, flags);
  }

  /**
   * `sync_pending_accounts(limit, dry_run)`: returns the batch it read and
   * the two counters. `writeFails` says which status writes fail; such a
   * failure is logged by the store and does not change the counters.
   */
  method SyncPendingAccounts(store: Store, limit: int, dryRun: bool, push: (string, Dict) -> Salesforce.Reply,
                             readFails: bool, writeFails: string -> bool)
    returns (batch: seq<Dict>, success: nat, failure: nat)
    requires store.Valid()
    modifies store
    ensures store.Valid()
    ensures forall j :: 0 <= j < |batch| ==> HasTextId(batch[j])
    ensures forall j :: 0 <= j < |batch| ==> IsPending(batch[j]) && IsRowOf(old(store.rows), batch[j])
    ensures forall i, j :: 0 <= i < j < |batch| ==> IdAt(batch, i) != IdAt(batch, j)
    ensures |batch| <= if limit < 0 then 0 else limit
    ensures |batch| < limit && !readFails ==> forall k :: k in old(store.rows) && IsPending(old(store.rows)[k]) ==> old(store.rows)[k] in batch
    ensures store.rows == Replay(old(store.rows), batch, dryRun, push, writeFails)
    ensures success == CountOutcome(batch, dryRun, push, Synced)
    ensures failure == CountOutcome(batch, dryRun, push, Failed)
    ensures success + failure == WithId(batch)
    ensures batch == [] ==> store.rows == old(store.rows)
    ensures store.history == old(store.history) && store.writes == old(store.writes)
  {
    success, failure := 0, 0;
    batch := store.GetUnsyncedRecords(limit, readFails);
    if batch == [] {
      return;
    }
    success, failure := SyncBatch(store, batch, dryRun, push, writeFails);
    EveryRecordCounted(batch, dryRun, push);
  }

  /** The loop over a non-empty batch: each record in turn, its outcome counted. */
  method SyncBatch(store: Store, batch: seq<Dict>, dryRun: bool, push: (string, Dict) -> Salesforce.Reply,
                   writeFails: string -> bool)
    returns (success: nat, failure: nat)
    requires store.Valid()
    requires forall j :: 0 <= j < |batch| ==> HasTextId(batch[j])
    modifies store
    ensures store.Valid()
    ensures store.rows == Replay(old(store.rows), batch, dryRun, push, writeFails)
    ensures success == CountOutcome(batch, dryRun, push, Synced)
    ensures failure == CountOutcome(batch, dryRun, push, Failed)
    ensures store.history == old(store.history) && store.writes == old(store.writes)
  {
    success, failure := 0, 0;
    for i := 0 to |batch|
      invariant store.Valid()
      invariant store.rows == Replay(old(store.rows), batch[..i], dryRun, push, writeFails)
      invariant success == CountOutcome(batch[..i], dryRun, push, Synced)
      invariant failure == CountOutcome(batch[..i], dryRun, push, Failed)
      invariant store.history == old(store.history) && store.writes == old(store.writes)
    {
      assert batch[..i + 1][..i] == batch[..i];
      ReplaySnoc(old(store.rows), batch, i, dryRun, push, writeFails);
      var outcome := SyncRecord(store, batch[i], dryRun, push, writeFails);
      if outcome == Some(Synced) {
        success := success + 1;
      } else if outcome == Some(Failed) {
        failure := failure + 1;
      }
    }
    assert batch[..|batch|] == batch;
  }

  /** One turn of the loop: skip a record without id, else push it and flag its row. */
  method SyncRecord(store: Store, record: Dict, dryRun: bool, push: (string, Dict) -> Salesforce.Reply, writeFails: string -> bool)
    returns (outcome: Option<string>)
    requires store.Valid() && HasTextId(record)
    modifies store
    ensures store.Valid()
    ensures outcome == Outcome(record, dryRun, push)
    ensures var id := record["account_id"].s;
            store.rows == if outcome.None? || writeFails(id) then old(store.rows)
                          else SetColumn(old(store.rows), id, "sync_status", VStr(outcome.value))
    ensures store.history == old(store.history) && store.writes == old(store.writes)
  {
    var id := record["account_id"].s;
    if id == "" {
      return None;
    }
    var payload := SfPayload(record);
    if dryRun {
      var _ := store.UpdateSyncStatus(id, Synced, writeFails(id));
      return Some(Synced);
    }
    match push(id, payload) {
      case Updated =>
        var _ := store.UpdateSyncStatus(id, Synced, writeFails(id));
        outcome := Some(Synced);
      case NotUpdated =>
        var _ := store.UpdateSyncStatus(id, Failed, writeFails(id));
        outcome := Some(Failed);
      case UpdateRaised(_) =>
        var _ := store.UpdateSyncStatus(id, Failed, writeFails(id));
        outcome := Some(Failed);
    }
  }
}
