/**
 * The enrichment service of the scripts pipeline
 * (`scripts/serp-api/enrichment_service.py`): the Salesforce payload it
 * builds from a mapped result, and `enrich_account` with its run counters,
 * its CSV log and its fixed set of accounts already processed.
 */
module ScriptEnrichment {
  import opened Py
  import opened Price
  import opened Query
  import opened Sanity
  import SerpClient
  import Salesforce

  const PriceField: string := "Google_Price__c"
  const ThumbnailField: string := "Google_Thumbnail_URL__c"
  const UrlField: string := "Google_URL__c"
  /** The fields truncated to the Salesforce text limit, in the order they are visited. */
  const UrlFields: seq<string> := [ThumbnailField, UrlField]
  const MaxUrlLength: nat := 255

  /** The fields copied unchanged from the mapped result. */
  const CopiedFields: set<string> := {
    "Google_Place_ID__c", "Google_Data_ID__c", "Google_Type__c", "Google_Rating__c", "Google_Reviews__c",
    "Google_Updated_Date__c", SerpClient.Bookings, SerpClient.Delivery, SerpClient.Takeout, ThumbnailField, UrlField}

  /** The payload before truncation: the copied fields, the cleaned price, and the closure status only when it is set. */
  function BasePayload(result: Dict): (p: Dict)
    ensures p.Keys == CopiedFields + {PriceField} + (if Truthy(Get(result, SerpClient.Prospection)) then {SerpClient.Prospection} else {})
    ensures forall k :: k in CopiedFields ==> p[k] == Get(result, k)
    ensures p[PriceField] == PriceValue(CleanPrice(Get(result, PriceField)))
    ensures SerpClient.Prospection in p ==> p[SerpClient.Prospection] == result[SerpClient.Prospection]
  {
    var p := map k | k in CopiedFields + {PriceField} ::
      if k == PriceField then PriceValue(CleanPrice(Get(result, PriceField))) else Get(result, k);
    if Truthy(Get(result, SerpClient.Prospection)) then p[SerpClient.Prospection := result[SerpClient.Prospection]] else p
  }

  /** `len(v)`: defined for strings, lists and dicts only. */
  function Length(v: Value): (r: Result<nat>)
    ensures r.Ok? <==> v.VStr? || v.VList? || v.VDict?
  {
    match v
    case VStr(s) => Ok(|s|)
    case VList(items) => Ok(|items|)
    case VDict(entries) => Ok(|entries|)
    case _ => Raised("object of type '" + TypeName(v) + "' has no len()")
  }

  /** `v[:255]`: a prefix of a string or a list; a dict cannot be sliced. */
  function Truncate(v: Value): (r: Result<Value>)
    requires v.VStr? || v.VList? || v.VDict?
  {
    match v
    case VStr(s) => Ok(VStr(if |s| <= MaxUrlLength then s else s[..MaxUrlLength]))
    case VList(items) => Ok(VList(if |items| <= MaxUrlLength then items else items[..MaxUrlLength]))
    case VDict(_) => Raised("unhashable type: 'slice'")
  }

  /** The value fits the Salesforce limit: it has a length, of at most 255. */
  predicate Fits(v: Value) {
    Length(v).Ok? && Length(v).value <= MaxUrlLength
  }

  /** `v` is `original`, or a string or list that `original` starts with. */
  predicate Shortened(v: Value, original: Value) {
    v == original || (v.VStr? && original.VStr? && v.s <= original.s) || (v.VList? && original.VList? && v.items <= original.items)
  }

  /** The truncation step for one URL field: a truthy value longer than 255 is cut to its first 255 elements. */
  function Clip(v: Value): (r: Result<Value>)
    ensures r.Ok? ==> Shortened(r.value, v) && (Truthy(r.value) ==> Fits(r.value))
    ensures r.Ok? && (!Truthy(v) || Fits(v)) ==> r.value == v
    ensures r.Raised? <==> Truthy(v) && (Length(v).Raised? || (v.VDict? && |v.entries| > MaxUrlLength))
  {
    if !Truthy(v) then Ok(v)
    else match Length(v)
      case Raised(msg) => Raised(msg)
      case Ok(n) => if n > MaxUrlLength then Truncate(v) else Ok(v)
  }

  /** `{k: v for k, v in payload.items() if v is not None}` */
  function DropNone(payload: Dict): (r: Dict)
    ensures forall k :: k in r <==> k in payload && payload[k] != VNone
    ensures forall k :: k in r ==> r[k] == payload[k]
  {
    map k | k in payload && payload[k] != VNone :: payload[k]
  }

  /** The value of a field that is present replaced; a missing field stays missing. */
  function Replace(payload: Dict, k: string, v: Value): (r: Dict)
    ensures r.Keys == payload.Keys
  {
    if k in payload then payload[k := v] else payload
  }

  /** Both URL fields of `payload` clipped, thumbnail first; the first failure is the exception raised. */
  function ClipUrls(payload: Dict): (r: Result<Dict>)
    ensures r.Raised? <==> exists f :: f in UrlFields && Clip(Get(payload, f)).Raised?
  {
    match Clip(Get(payload, ThumbnailField))
    case Raised(msg) => Raised(msg)
    case Ok(thumbnail) =>
      match Clip(Get(payload, UrlField))
      case Raised(msg) => Raised(msg)
      case Ok(url) => Ok(Replace(Replace(payload, ThumbnailField, thumbnail), UrlField, url))
  }

  /** The payload `_prepare_update_payload` returns, or the exception it raises. */
  function UpdatePayload(result: Dict): (r: Result<Dict>)
    ensures r.Raised? <==> exists f :: f in UrlFields && Clip(Get(result, f)).Raised?
  {
    match ClipUrls(BasePayload(result))
    case Raised(msg) => Raised(msg)
    case Ok(payload) => Ok(DropNone(payload))
  }

  /** `_prepare_update_payload(result)`: truncates the URL fields one after the other, then drops the None values. */
  method PrepareUpdatePayload(result: Dict) returns (r: Result<Dict>)
    ensures r == UpdatePayload(result)
  {
    var payload := BasePayload(result);
    var clipped := TruncateUrls(payload);
    if clipped.Raised? {
      return Raised(clipped.message);
    }
    return Ok(DropNone(clipped.value));
  }

  /** The truncation loop of `_prepare_update_payload`. */
  method TruncateUrls(payload: Dict) returns (r: Result<Dict>)
    ensures r == ClipUrls(payload)
  {
    var current := payload;
    for i := 0 to |UrlFields|
      invariant current.Keys == payload.Keys
      invariant forall j :: 0 <= j < i ==> Clip(Get(payload, UrlFields[j])).Ok? && Get(current, UrlFields[j]) == Clip(Get(payload, UrlFields[j])).value
      invariant forall k :: k !in UrlFields[..i] ==> Get(current, k) == Get(payload, k)
    {
      var field := UrlFields[i];
      var value := Get(current, field);
      assert value == Get(payload, field) by {
        assert field !in UrlFields[..i];
      }
      assert i == 1 ==> Clip(Get(payload, ThumbnailField)).Ok? by {
        if i == 1 {
          assert UrlFields[0] == ThumbnailField;
        }
      }
      if Truthy(value) {
        var length := Length(value);
        if length.Raised? {
          return Raised(length.message);
        }
        if length.value > MaxUrlLength {
          var cut := Truncate(value);
          if cut.Raised? {
            return Raised(cut.message);
          }
          current := current[field := cut.value];
        }
      }
    }
    assert UrlFields[0] == ThumbnailField && UrlFields[1] == UrlField && UrlFields[..2] == UrlFields;
    assert Clip(Get(payload, ThumbnailField)).Ok? && Clip(Get(payload, UrlField)).Ok?;
    ghost var expected := ClipUrls(payload).value;
    assert current == expected by {
      forall k | k in current
        ensures k in expected && current[k] == expected[k]
      {
        if k != ThumbnailField && k != UrlField {
          assert k !in UrlFields;
        }
      }
    }
    return Ok(current);
  }

  /** A payload that was built is the base payload with both URL fields clipped and the None values dropped. */
  lemma UpdatePayloadParts(result: Dict)
    requires UpdatePayload(result).Ok?
    ensures Clip(Get(result, ThumbnailField)).Ok? && Clip(Get(result, UrlField)).Ok?
    ensures UpdatePayload(result).value ==
              DropNone(BasePayload(result)[ThumbnailField := Clip(Get(result, ThumbnailField)).value]
                                          [UrlField := Clip(Get(result, UrlField)).value])
  {
  }

  /** No field of the payload is None, so no Salesforce field is blanked. */
  lemma PayloadHasNoNone(result: Dict)
    requires UpdatePayload(result).Ok?
    ensures forall k :: k in UpdatePayload(result).value ==> UpdatePayload(result).value[k] != VNone
  {
    UpdatePayloadParts(result);
  }

  /** Each URL field is present iff the result has it, is a prefix of it, and has at most 255 elements when truthy. */
  lemma PayloadUrlsFit(result: Dict)
    requires UpdatePayload(result).Ok?
    ensures forall f :: f in UrlFields ==> (f in UpdatePayload(result).value <==> Get(result, f) != VNone)
    ensures forall f :: f in UrlFields && f in UpdatePayload(result).value ==>
              var v := UpdatePayload(result).value[f];
              Shortened(v, result[f]) && (Truthy(v) ==> Fits(v))
  {
    UpdatePayloadParts(result);
  }

  /** The closure status is sent only when it is set, and then as it is. */
  lemma PayloadProspection(result: Dict)
    requires UpdatePayload(result).Ok?
    ensures var p := UpdatePayload(result).value;
            (SerpClient.Prospection in p <==> Truthy(Get(result, SerpClient.Prospection))) &&
            (SerpClient.Prospection in p ==> p[SerpClient.Prospection] == result[SerpClient.Prospection])
  {
    UpdatePayloadParts(result);
  }

  /** The other fields are copied when they are not None, and the price is sent only as a picklist value. */
  lemma PayloadCopies(result: Dict)
    requires UpdatePayload(result).Ok?
    ensures var p := UpdatePayload(result).value;
            forall k :: k in CopiedFields - {ThumbnailField, UrlField} ==>
              (k in p <==> Get(result, k) != VNone) && (k in p ==> p[k] == result[k])
    ensures var p := UpdatePayload(result).value;
            (PriceField in p <==> CleanPrice(Get(result, PriceField)).Some?) &&
            (PriceField in p ==> p[PriceField] == VStr(CleanPrice(Get(result, PriceField)).value))
    ensures UpdatePayload(result).value.Keys <= CopiedFields + {PriceField, SerpClient.Prospection}
  {
    UpdatePayloadParts(result);
  }

  /** The statuses an account can end in. */
  datatype Status = AlreadyProcessed | Skipped | NoResult | SkippedSanityCheck | Enriched | EnrichedDryRun | Error

  /** The status as written to the CSV log and used as a counter key. */
  function StatusName(s: Status): string {
    match s
    case AlreadyProcessed => "ALREADY_PROCESSED"
    case Skipped => "SKIPPED"
    case NoResult => "NO_RESULT"
    case SkippedSanityCheck => "SKIPPED_SANITY_CHECK"
    case Enriched => "ENRICHED"
    case EnrichedDryRun => "ENRICHED (DRY RUN)"
    case Error => "ERROR"
  }

  /** A row of the CSV log, without its timestamp; `data` is the mapped result the Google columns are read from. */
  datatype CsvRow = CsvRow(accountId: string, accountName: Value, status: Status, message: string,
                           data: Option<Dict>, score: int, field: string)

  /**
   * Everything outside the service: `str()` of floats and containers,
   * today's date, the provider's reply to a query, the fuzzy ratio and the
   * Salesforce update.
   */
  datatype World = World(render: Value -> string, today: string, respond: string -> Result<Dict>,
                         ratio: (Value, Value) -> int, push: (string, Dict) -> Salesforce.Reply)

  /** What one `enrich_account` call leaves behind: a CSV row, a processed mark and a counted status, each at most once. */
  datatype Effect = Effect(row: Option<CsvRow>, mark: Option<Status>, count: Option<Status>)

  /** The search result, as `search_google_maps` returns it for the query. */
  function Found(world: World, query: string): Option<Dict> {
    SerpClient.Selected(world.render, world.today, world.respond(query))
  }

  /** An exception in the `try` block: an ERROR row without result data, counted. */
  function Failure(aid: string, name: Value, message: string): Effect {
    Effect(Some(CsvRow(aid, name, Error, message, None, 0, "")), None, Some(Error))
  }

  /** The effect of `enrich_account(account, dry_run)` for an account with a text Id. */
  function Enrichment(excluded: set<string>, account: Dict, dryRun: bool, world: World): Effect
    requires "Id" in account && account["Id"].VStr?
  {
    var aid := account["Id"].s;
    var name := GetOr(account, "Name", VStr(""));
    if aid in excluded then Effect(None, None, Some(AlreadyProcessed))
    else match ConstructSearchQuery(account)
      case Raised(msg) => Failure(aid, name, msg)
      case Ok(query) =>
        if query == "" then Effect(Some(CsvRow(aid, name, Skipped, "Insufficient data", None, 0, "")), Some(Skipped), Some(Skipped))
        else Checked(aid, name, account, Found(world, query), dryRun, world)
  }

  /** The effect once the search has returned `found`: no result, a failed sanity check, or an update. */
  function Checked(aid: string, name: Value, account: Dict, found: Option<Dict>, dryRun: bool, world: World): Effect {
    if found.None? || found.value == map[] then
      Effect(Some(CsvRow(aid, name, NoResult, "No SERP results found", None, 0, "")), Some(NoResult), Some(NoResult))
    else
      var m := Score(world.ratio, account, found.value);
      if m.score < Threshold then
        Effect(Some(CsvRow(aid, name, SkippedSanityCheck, FailureMessage(m.score), found, m.score, m.field)),
               Some(SkippedSanityCheck), Some(SkippedSanityCheck))
      else Pushed(aid, name, found.value, m, dryRun, world)
  }

  /** The effect of a match that passed the check: the Salesforce update, unless in a dry run, then the success row. */
  function Pushed(aid: string, name: Value, result: Dict, m: Match, dryRun: bool, world: World): Effect {
    PushedWith(aid, name, result, m, dryRun, world, UpdatePayload(result))
  }

  /** The same, once the payload has been prepared from the result. */
  function PushedWith(aid: string, name: Value, result: Dict, m: Match, dryRun: bool, world: World,
                      payload: Result<Dict>): Effect {
    match payload
    case Raised(msg) => Failure(aid, name, msg)
    case Ok(payload) =>
      var status := if dryRun then EnrichedDryRun else Enriched;
      var success := Effect(Some(CsvRow(aid, name, status, "OK", Some(result), m.score, m.field)), None, Some(status));
      if dryRun then success
      else match world.push(aid, payload)
        case Updated => success
        case NotUpdated => Effect(Some(CsvRow(aid, name, Error, "Salesforce update failed", Some(result), m.score, m.field)), None, None)
        case UpdateRaised(msg) => Failure(aid, name, msg)
  }

  /** The counter after counting `status`, if any. */
  function Counted(stats: map<Status, nat>, status: Option<Status>): map<Status, nat> {
    if status.None? then stats
    else stats[status.value := (if status.value in stats then stats[status.value] else 0) + 1]
  }

  /** Counting one status adds one to the total of the counter and changes no other status. */
  lemma CountedAddsOne(stats: map<Status, nat>, status: Status)
    ensures SumValues(Counted(stats, Some(status))) == SumValues(stats) + 1
    ensures forall k :: k != status ==> (k in Counted(stats, Some(status)) <==> k in stats)
    ensures forall k :: k != status && k in stats ==> Counted(stats, Some(status))[k] == stats[k]
  {
    SumValuesBump(stats, status);
  }

  /** The shape shared by every outcome of an account that is not excluded. */
  predicate WellFormed(aid: string, dryRun: bool, e: Effect) {
    e.row.Some? && e.row.value.accountId == aid && e.count != Some(AlreadyProcessed) &&
    e.row.value.status != Skipped &&
    (e.mark.Some? <==> e.row.value.status == NoResult || e.row.value.status == SkippedSanityCheck) &&
    (e.mark.Some? ==> e.count == e.mark && e.row.value.status == e.mark.value) &&
    (e.count.None? ==> !dryRun && e.row.value.status == Error) &&
    (e.row.value.status == SkippedSanityCheck ==> e.row.value.score < Threshold && e.row.value.data.Some?) &&
    (e.count == Some(Enriched) || e.count == Some(EnrichedDryRun) ==>
       e.row.value.score >= Threshold && e.row.value.data.Some? && e.count == Some(if dryRun then EnrichedDryRun else Enriched))
  }

  lemma PushedOutcomes(aid: string, name: Value, result: Dict, m: Match, dryRun: bool, world: World)
    requires m.score >= Threshold
    ensures WellFormed(aid, dryRun, Pushed(aid, name, result, m, dryRun, world))
    ensures var e := Pushed(aid, name, result, m, dryRun, world);
            (e.count == Some(Enriched) ==> world.push(aid, UpdatePayload(result).value) == Salesforce.Updated) &&
            (e.count.None? ==> world.push(aid, UpdatePayload(result).value) == Salesforce.NotUpdated)
  {
    var e := Pushed(aid, name, result, m, dryRun, world);
    var payload := UpdatePayload(result);
    if payload.Ok? {
      var status := if dryRun then EnrichedDryRun else Enriched;
      var success := Effect(Some(CsvRow(aid, name, status, "OK", Some(result), m.score, m.field)), None, Some(status));
      if dryRun {
        assert e == success;
      } else {
        match world.push(aid, payload.value)
        case Updated => assert e == success;
        case NotUpdated =>
        case UpdateRaised(msg) => assert e == Failure(aid, name, msg);
      }
    } else {
      assert e == Failure(aid, name, payload.message);
    }
  }

  lemma CheckedOutcomes(aid: string, name: Value, account: Dict, found: Option<Dict>, dryRun: bool, world: World)
    ensures WellFormed(aid, dryRun, Checked(aid, name, account, found, dryRun, world))
  {
    if found.Some? && found.value != map[] {
      var m := Score(world.ratio, account, found.value);
      if m.score >= Threshold {
        PushedOutcomes(aid, name, found.value, m, dryRun, world);
      }
    }
  }

  /**
   * The outcomes of `enrich_account`: an excluded account is only counted;
   * any other account gets exactly one CSV row and never SKIPPED; exactly
   * NO_RESULT and SKIPPED_SANITY_CHECK are marked processed, and counted
   * under the same status; a refused update is logged but neither counted
   * nor marked; ENRICHED needs a score of at least 80.
   */
  lemma EnrichmentOutcomes(excluded: set<string>, account: Dict, dryRun: bool, world: World)
    requires "Id" in account && account["Id"].VStr?
    ensures var e := Enrichment(excluded, account, dryRun, world);
            var aid := account["Id"].s;
            (aid in excluded ==> e == Effect(None, None, Some(AlreadyProcessed))) &&
            (aid !in excluded ==> WellFormed(aid, dryRun, e))
  {
    var aid := account["Id"].s;
    var name := GetOr(account, "Name", VStr(""));
    if aid !in excluded {
      var query := ConstructSearchQuery(account);
      if query.Ok? {
        assert query.value != "";
        CheckedOutcomes(aid, name, account, Found(world, query.value), dryRun, world);
      }
    }
  }

  /** The run state of the scripts enrichment service. */
  class ScriptEnricher {
    /** The accounts processed by earlier runs; loaded once, when the service is made. */
    const excludedIds: set<string>
    /** `_stats`: how many accounts ended in each status. */
    var stats: map<Status, nat>
    /** The rows appended to the CSV log, oldest first. */
    var csvRows: seq<CsvRow>
    /** The (account, status) pairs appended to the processed file by this run. */
    var processed: seq<(string, Status)>

    /** Like a `Counter` that is only ever incremented, every counted status has a positive count. */
    ghost predicate Valid()
      reads this
    {
      forall k :: k in stats ==> stats[k] >= 1
    }

    constructor (excludedIds: set<string>)
      ensures this.excludedIds == excludedIds && stats == map[] && csvRows == [] && processed == []
      ensures Valid()
    {
      this.excludedIds := excludedIds;
      stats := map[];
      csvRows := [];
      processed := [];
    }

    /** `get_stats()`: the counts as they stand; a map is a value, so later counting does not change it. */
    method GetStats() returns (counts: map<Status, nat>)
      requires Valid()
      ensures counts == stats
      ensures forall k :: k in counts ==> counts[k] >= 1
    {
      counts := stats;
    }

    /** `_count(status)`: one more account in `status`. */
    method Count(status: Status)
      requires Valid()
      modifies this
      ensures Valid()
      ensures stats == Counted(old(stats), Some(status))
      ensures csvRows == old(csvRows) && processed == old(processed)
    {
      stats := stats[status := (if status in stats then stats[status] else 0) + 1];
    }

    /** `_log_csv(...)` */
    method LogCsv(row: CsvRow)
      requires Valid()
      modifies this
      ensures Valid()
      ensures csvRows == old(csvRows) + [row]
      ensures stats == old(stats) && processed == old(processed)
    {
      csvRows := csvRows + [row];
    }

    /** `_mark_processed(account_id, status)`: appends to the processed file only; `excludedIds` stays as loaded. */
    method MarkProcessed(aid: string, status: Status)
      requires Valid()
      modifies this
      ensures Valid()
      ensures processed == old(processed) + [(aid, status)]
      ensures stats == old(stats) && csvRows == old(csvRows)
    {
      processed := processed + [(aid, status)];
    }

    /** `enrich_account(account, dry_run)` */
    method EnrichAccount(account: Dict, dryRun: bool, world: World)
      requires Valid()
      requires "Id" in account && account["Id"].VStr?
      modifies this
      ensures Valid()
      ensures Applied(account["Id"].s, Enrichment(excludedIds, account, dryRun, world))
    {
      var aid := account["Id"].s;
      var name := GetOr(account, "Name", VStr(""));
      if aid in excludedIds {
        Count(AlreadyProcessed);
        return;
      }
      var query := ConstructSearchQuery(account);
      if query.Raised? {
        LogCsv(CsvRow(aid, name, Error, query.message, None, 0, ""));
        Count(Error);
        return;
      }
      if query.value == "" {
        // The query always ends in "Restaurant": the SKIPPED branch is never taken.
        assert false;
      }
      var found := SerpClient.SearchGoogleMaps(world.render, world.today, world.respond(query.value));
      CheckMatch(aid, name, account, found, dryRun, world);
    }

    /** The effect `e` was applied to the log, the processed file and the counter since the call began. */
    twostate predicate Applied(aid: string, e: Effect)
      reads this
    {
      csvRows == old(csvRows) + (if e.row.Some? then [e.row.value] else []) &&
      processed == old(processed) + (if e.mark.Some? then [(aid, e.mark.value)] else []) &&
      stats == Counted(old(stats), e.count)
    }

    /** The part of `enrich_account` after the search: no result, the sanity check, then the update. */
    method CheckMatch(aid: string, name: Value, account: Dict, found: Option<Dict>, dryRun: bool, world: World)
      requires Valid()
      modifies this
      ensures Valid()
      ensures Applied(aid, Checked(aid, name, account, found, dryRun, world))
    {
      if found.None? || found.value == map[] {
        LogCsv(CsvRow(aid, name, NoResult, "No SERP results found", None, 0, ""));
        MarkProcessed(aid, NoResult);
        Count(NoResult);
        return;
      }
      var m := Score(world.ratio, account, found.value);
      if m.score < Threshold {
        LogCsv(CsvRow(aid, name, SkippedSanityCheck, FailureMessage(m.score), found, m.score, m.field));
        MarkProcessed(aid, SkippedSanityCheck);
        Count(SkippedSanityCheck);
        return;
      }
      UpdateAccount(aid, name, found.value, m, dryRun, world);
    }

    /** The update of a matched account: the payload, the Salesforce call unless in a dry run, then the success row. */
    method UpdateAccount(aid: string, name: Value, result: Dict, m: Match, dryRun: bool, world: World)
      requires Valid()
      modifies this
      ensures Valid()
      ensures Applied(aid, Pushed(aid, name, result, m, dryRun, world))
    {
      var payload := PrepareUpdatePayload(result);
      ApplyPayload(aid, name, result, m, dryRun, world, payload);
    }

    /** The update with its payload prepared: a payload error is logged, else the push follows. */
    method ApplyPayload(aid: string, name: Value, result: Dict, m: Match, dryRun: bool, world: World, payload: Result<Dict>)
      requires Valid()
      modifies this
      ensures Valid()
      ensures Applied(aid, PushedWith(aid, name, result, m, dryRun, world, payload))
    {
      if payload.Raised? {
        LogCsv(CsvRow(aid, name, Error, payload.message, None, 0, ""));
        Count(Error);
        return;
      }
      if !dryRun {
        match world.push(aid, payload.value) {
          case Updated =>
          case NotUpdated =>
            LogCsv(CsvRow(aid, name, Error, "Salesforce update failed", Some(result), m.score, m.field));
            return;
          case UpdateRaised(msg) =>
            LogCsv(CsvRow(aid, name, Error, msg, None, 0, ""));
            Count(Error);
            return;
        }
      }
      var status := if dryRun then EnrichedDryRun else Enriched;
      LogCsv(CsvRow(aid, name, status, "OK", Some(result), m.score, m.field));
      Count(status);
    }
  }
}
