/**
 * The enrichment service of the staging pipeline
 * (`SerpAPI/src/enrichment_service.py`): `enrich_account`, which searches
 * for an account not yet staged, checks the match and logs the outcome to
 * the staging store; `_log_result`, which builds the staged row; and
 * `_prepare_update_payload`, which maps a result to Salesforce fields.
 */
module Enrichment {
  import opened Py
  import opened Price
  import opened Query
  import opened Sanity
  import opened Staging

  const PriceField: string := "Google_Price__c"
  /** The bookings field as this service names it. */
  const BookingsField: string := "Has_Google_Accept_Bookings_Extension__c"

  /** The Salesforce fields `_prepare_update_payload` copies from the result. */
  const CopiedFields: set<string> := {
    "Google_Place_ID__c", "Google_Data_ID__c", "Google_Type__c", "Google_Rating__c", "Google_Reviews__c",
    "Google_Updated_Date__c", "Prospection_Status__c", BookingsField, "HasGoogleDeliveryExtension__c",
    "HasGoogleTakeoutExtension__c", "Google_Thumbnail_URL__c", "Google_URL__c"}

  /** `_prepare_update_payload(result)`: thirteen fields, every one of them present, the price as a picklist value. */
  function UpdateFields(result: Dict): (p: Dict)
    ensures p.Keys == CopiedFields + {PriceField}
    ensures forall k :: k in CopiedFields ==> p[k] == Get(result, k)
    ensures p[PriceField] == PriceValue(CleanPrice(Get(result, PriceField)))
    ensures IsPicklistPrice(p[PriceField])
  {
    map k | k in CopiedFields + {PriceField} ::
      if k == PriceField then PriceValue(CleanPrice(Get(result, PriceField))) else Get(result, k)
  }

  /** The staged columns filled from the result, each with the result field it is read from. */
  const ResultColumns: map<string, string> := map[
    "google_place_id" := "Google_Place_ID__c",
    "title" := "Title",
    "address" := "Address",
    "google_type__c" := "Google_Type__c",
    "google_rating__c" := "Google_Rating__c",
    "google_reviews__c" := "Google_Reviews__c",
    "google_price__c" := PriceField,
    "has_google_accept_bookings_extension__c" := BookingsField,
    "has_google_delivery_extension__c" := "HasGoogleDeliveryExtension__c",
    "has_google_takeout_extension__c" := "HasGoogleTakeoutExtension__c",
    "prospection_status__c" := "Prospection_Status__c",
    "google_url__c" := "Google_URL__c"]

  /** The other columns of a staged row. */
  const EntryColumns: set<string> := {"account_id", "status", "message", "sync_status"}

  /** No staged column is filled both from the result and by the log entry itself. */
  lemma ColumnsApart()
    ensures forall c :: c in ResultColumns ==> c !in EntryColumns
  {
    forall c | c in ResultColumns
      ensures c !in EntryColumns
    {
      assert c == "address" || |c| !in {6, 7, 10, 11};
    }
  }

  /** `data` holds a result: it is present and not empty. */
  predicate HasData(data: Option<Dict>) {
    data.Some? && data.value != map[]
  }

  /**
   * The row `_log_result(aid, status, message, result_data)` stages: the
   * account, the outcome, the result's fields (all None without a result)
   * and the sync flag PENDING.
   */
  function LogEntry(aid: string, status: string, message: string, data: Option<Dict>): (e: Dict)
    ensures e.Keys == ResultColumns.Keys + EntryColumns
    ensures e["account_id"] == VStr(aid) && e["status"] == VStr(status) && e["message"] == VStr(message)
    ensures e["sync_status"] == VStr(Pending)
    ensures forall c :: c in ResultColumns ==> e[c] == (if HasData(data) then Get(data.value, ResultColumns[c]) else VNone)
  {
    ColumnsApart();
    var fields := map c | c in ResultColumns :: if HasData(data) then Get(data.value, ResultColumns[c]) else VNone;
    fields["account_id" := VStr(aid)]["status" := VStr(status)]["message" := VStr(message)]["sync_status" := VStr(Pending)]
  }

  /** The statuses `_log_result` is called with. */
  datatype Status = Skipped | NoResult | SkippedSanityCheck | Enriched | Error

  function StatusName(s: Status): string {
    match s
    case Skipped => "SKIPPED"
    case NoResult => "NO_RESULT"
    case SkippedSanityCheck => "SKIPPED_SANITY_CHECK"
    case Enriched => "ENRICHED"
    case Error => "ERROR"
  }

  /** The arguments of the one `_log_result` call. */
  datatype Verdict = Verdict(status: Status, message: string, data: Option<Dict>)

  /** The map search (which may raise) and `fuzz.token_sort_ratio`. */
  datatype World = World(search: string -> Result<Option<Dict>>, ratio: (Value, Value) -> int)

  /** The outcome `enrich_account` logs for an account that is not staged yet. */
  function Judge(account: Dict, world: World): Verdict {
    match ConstructSearchQuery(account)
    case Raised(msg) => Verdict(Error, msg, None)
    case Ok(query) =>
      if query == "" then Verdict(Skipped, "Insufficient data", None)
      else match world.search(query)
        case Raised(msg) => Verdict(Error, msg, None)
        case Ok(found) =>
          if !HasData(found) then Verdict(NoResult, "No SERP results found", None)
          else
            var m := Score(world.ratio, account, found.value);
            if m.score < Threshold then Verdict(SkippedSanityCheck, FailureMessage(m.score), found)
            else Verdict(Enriched, "Enrichment successful", found)
  }

  /**
   * The outcomes: never SKIPPED; ENRICHED exactly when the search found a
   * result scoring at least 80, which is then kept; a lower score keeps the
   * result too; NO_RESULT and ERROR carry no result, and ERROR carries the
   * exception's message.
   */
  lemma JudgeOutcomes(account: Dict, world: World)
    ensures var v := Judge(account, world);
            v.status != Skipped &&
            (v.data.Some? <==> v.status == Enriched || v.status == SkippedSanityCheck) &&
            (v.data.Some? ==> HasData(v.data) && ConstructSearchQuery(account).Ok? &&
                              world.search(ConstructSearchQuery(account).value) == Ok(v.data)) &&
            (v.status == Enriched <==> v.data.Some? && Score(world.ratio, account, v.data.value).score >= Threshold) &&
            (v.status == SkippedSanityCheck ==> v.message == FailureMessage(Score(world.ratio, account, v.data.value).score)) &&
            (v.status == Error <==> ConstructSearchQuery(account).Raised? || world.search(ConstructSearchQuery(account).value).Raised?) &&
            (v.status == Error && ConstructSearchQuery(account).Raised? ==> v.message == ConstructSearchQuery(account).message) &&
            (ConstructSearchQuery(account).Ok? && world.search(ConstructSearchQuery(account).value).Raised? ==>
               v.status == Error && v.message == world.search(ConstructSearchQuery(account).value).message)
  {
    var query := ConstructSearchQuery(account);
    if query.Ok? {
      assert query.value != "";
    }
  }

  /** Which store requests fail during one call. */
  datatype Faults = Faults(existsFails: bool, lookupFails: bool, upsertFails: bool, historyFails: bool)

  class EnrichmentService {
    const store: Store
    /** The queries sent to the map search, in order. */
    ghost var searches: seq<string>
    /** The accounts `enrich_account` was called with, in order. */
    ghost var submitted: seq<Dict>

    constructor (store: Store)
      ensures this.store == store && searches == [] && submitted == []
    {
      this.store := store;
      searches := [];
      submitted := [];
    }

    /** The store changed as `_log_result` with `entry` changes it: the main table first, then the history. */
    twostate predicate Logged(entry: Dict, faults: Faults)
      requires "account_id" in entry && entry["account_id"].VStr?
      reads store
    {
      var id := entry["account_id"].s;
      var outcome := InsertResult(store.render, old(store.rows), entry, faults.lookupFails, faults.upsertFails);
      store.rows == RowsAfter(old(store.rows), id, outcome) &&
      store.history == old(store.history) + (if faults.historyFails then [] else [WithoutTimestamp(entry)]) &&
      store.writes == old(store.writes) + (if outcome.Upserted? then [Upsert(id)] else [])
                                        + (if faults.historyFails then [] else [HistoryAppend(VStr(id))])
    }

    /** `_log_result(aid, status, message, result_data)`: stages the entry and appends it to the history; it never raises. */
    method LogResult(aid: string, status: Status, message: string, data: Option<Dict>, faults: Faults)
      requires store.Valid()
      modifies store
      ensures store.Valid()
      ensures Logged(LogEntry(aid, StatusName(status), message, data), faults)
      ensures old(store.rows).Keys <= store.rows.Keys && (!faults.upsertFails ==> aid in store.rows)
    {
      var entry := LogEntry(aid, StatusName(status), message, data);
      InsertKeepsRows(store.render, store.rows, entry, faults.lookupFails, faults.upsertFails);
      var _ := store.InsertRecord(entry, faults.lookupFails, faults.upsertFails);
      store.InsertHistoryRecord(entry, faults.historyFails);
    }

    /**
     * `enrich_account(account, dry_run)`: an account already staged is left
     * alone without a search; any other gets exactly one `_log_result`.
     */
    method EnrichAccount(account: Dict, world: World, faults: Faults)
      requires store.Valid()
      requires "Id" in account && account["Id"].VStr?
      modifies this, store
      ensures store.Valid()
      ensures var aid := account["Id"].s;
              if !faults.existsFails && aid in old(store.rows) then
                searches == old(searches) && unchanged(store)
              else
                var v := Judge(account, world);
                Logged(LogEntry(aid, StatusName(v.status), v.message, v.data), faults) &&
                searches == old(searches) + (if ConstructSearchQuery(account).Ok? then [ConstructSearchQuery(account).value] else [])
      ensures old(store.rows).Keys <= store.rows.Keys
      ensures !faults.upsertFails ==> account["Id"].s in store.rows
      ensures submitted == old(submitted) + [account]
    {
      var aid := account["Id"].s;
      submitted := submitted + [account];
      var staged := store.RecordExists(aid, faults.existsFails);
      if staged {
        return;
      }
      var verdict := Decide(account, world);
      LogResult(aid, verdict.status, verdict.message, verdict.data, faults);
    }

    /** The query, and for a non-empty one the search and the sanity check: the verdict `Judge` defines. */
    method Decide(account: Dict, world: World) returns (verdict: Verdict)
      modifies this
      ensures verdict == Judge(account, world)
      ensures searches == old(searches) + (if ConstructSearchQuery(account).Ok? then [ConstructSearchQuery(account).value] else [])
      ensures submitted == old(submitted)
    {
      var query := ConstructSearchQuery(account);
      if query.Raised? {
        verdict := Verdict(Error, query.message, None);
      } else if query.value == "" {
        verdict := Verdict(Skipped, "Insufficient data", None);
      } else {
        searches := searches + [query.value];
        verdict := Checked(account, query.value, world);
      }
    }

    /** The search and the sanity check, for a non-empty query. */
    method Checked(account: Dict, query: string, world: World) returns (v: Verdict)
      requires ConstructSearchQuery(account) == Ok(query) && query != ""
      ensures v == Judge(account, world)
    {
      var found := world.search(query);
      if found.Raised? {
        return Verdict(Error, found.message, None);
      }
      if !HasData(found.value) {
        return Verdict(NoResult, "No SERP results found", None);
      }
      var m := Score(world.ratio, account, found.value.value);
      if m.score < Threshold {
        return Verdict(SkippedSanityCheck, FailureMessage(m.score), found.value);
      }
      return Verdict(Enriched, "Enrichment successful", found.value);
    }
  }
}
