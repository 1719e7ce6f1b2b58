/**
 * `scripts/serp-api/main.py`: the same seek-pagination loop, each account
 * handed to the scripts enrichment service, which keeps its CSV log, its
 * processed file and its status counter.
 */
module ScriptsMain {
  import opened Py
  import opened Paging
  import opened ScriptEnrichment

  /** What the scripts service has written: the CSV rows, the processed marks and the counter. */
  datatype Log = Log(rows: seq<CsvRow>, processed: seq<(string, Status)>, stats: map<Status, nat>)

  function LogOf(enricher: ScriptEnricher): Log
    reads enricher
  {
    Log(enricher.csvRows, enricher.processed, enricher.stats)
  }

  /** The log after one account's effect. */
  function Record(log: Log, aid: string, e: Effect): Log {
    Log(log.rows + (if e.row.Some? then [e.row.value] else []),
        log.processed + (if e.mark.Some? then [(aid, e.mark.value)] else []),
        Counted(log.stats, e.count))
  }

  /**
   * Whether `effect` gives, for every account with a text Id, what
   * `enrich_account` does to the log; the trigger keeps the effect folded
   * until an account's enrichment is actually in view.
   */
  ghost predicate Enriches(effect: Dict -> Effect, excluded: set<string>, dryRun: bool, world: World) {
    forall a: Dict {:trigger Enrichment(excluded, a, dryRun, world)} ::
      "Id" in a && a["Id"].VStr? ==> effect(a) == Enrichment(excluded, a, dryRun, world)
  }

  /** The log after `accounts` were enriched one after the other, each with its `effect`. */
  function Run(log: Log, effect: Dict -> Effect, accounts: seq<Dict>): Log
    requires AllHaveIds(accounts)
    decreases |accounts|
  {
    if accounts == [] then log
    else
      var n := |accounts| - 1;
      Record(Run(log, effect, accounts[..n]), IdOf(accounts[n]), effect(accounts[n]))
  }

  /** Enriching two pages in turn is enriching their concatenation. */
  lemma {:induction false} RunAppend(log: Log, effect: Dict -> Effect, a: seq<Dict>, b: seq<Dict>)
    requires AllHaveIds(a) && AllHaveIds(b)
    ensures AllHaveIds(a + b)
    ensures Run(log, effect, a + b) == Run(Run(log, effect, a), effect, b)
    decreases |b|
  {
    if b == [] {
      assert a + b == a;
    } else {
      var n := |b| - 1;
      assert (a + b)[..|a| + n] == a + b[..n];
      RunAppend(log, effect, a, b[..n]);
    }
  }

  /** A page enriched after the first `total` accounts extends the log of the run to the first `total + |page|`. */
  lemma Resume(log0: Log, before: Log, after: Log, effect: Dict -> Effect, source: seq<Dict>, total: nat, page: seq<Dict>)
    requires AllHaveIds(source) && total + |page| <= |source| && page == source[total..total + |page|]
    requires before == Run(log0, effect, source[..total])
    requires after == Run(before, effect, page)
    ensures after == Run(log0, effect, source[..total + |page|])
  {
    assert source[..total + |page|] == source[..total] + page;
    RunAppend(log0, effect, source[..total], page);
  }

  /** How many of `accounts` were not processed by an earlier run. */
  function FreshCount(excluded: set<string>, accounts: seq<Dict>): (n: nat)
    requires AllHaveIds(accounts)
    ensures n <= |accounts|
    decreases |accounts|
  {
    if accounts == [] then 0
    else
      var k := |accounts| - 1;
      FreshCount(excluded, accounts[..k]) + (if IdOf(accounts[k]) in excluded then 0 else 1)
  }

  /**
   * Every account not processed by an earlier run leaves exactly one CSV
   * row, for that account; an account already processed leaves none.
   */
  lemma {:induction false} RunRows(log: Log, effect: Dict -> Effect, excluded: set<string>, accounts: seq<Dict>,
                                   dryRun: bool, world: World)
    requires AllHaveIds(accounts) && Enriches(effect, excluded, dryRun, world)
    ensures |Run(log, effect, accounts).rows| == |log.rows| + FreshCount(excluded, accounts)
    ensures forall r :: r in Run(log, effect, accounts).rows && r !in log.rows ==>
              exists k :: 0 <= k < |accounts| && IdOf(accounts[k]) == r.accountId && r.accountId !in excluded
    decreases |accounts|
  {
    if accounts != [] {
      var n := |accounts| - 1;
      var prefix := accounts[..n];
      RunRows(log, effect, excluded, prefix, dryRun, world);
      var e := Enrichment(excluded, accounts[n], dryRun, world);
      EnrichmentOutcomes(excluded, accounts[n], dryRun, world);
      var before := Run(log, effect, prefix);
      forall r | r in Run(log, effect, accounts).rows && r !in log.rows
        ensures exists k :: 0 <= k < |accounts| && IdOf(accounts[k]) == r.accountId && r.accountId !in excluded
      {
        if r in before.rows {
          var k :| 0 <= k < |prefix| && IdOf(prefix[k]) == r.accountId && r.accountId !in excluded;
          assert accounts[k] == prefix[k];
        } else {
          assert IdOf(accounts[n]) == r.accountId;
        }
      }
    }
  }

  /** One account, as the worker pool runs `service.enrich_account(acc, dry_run)`. */
  method EnrichPage(enricher: ScriptEnricher, page: seq<Dict>, dryRun: bool, world: World, ghost effect: Dict -> Effect)
    requires enricher.Valid() && AllHaveIds(page) && Enriches(effect, enricher.excludedIds, dryRun, world)
    modifies enricher
    ensures enricher.Valid()
    ensures LogOf(enricher) == Run(old(LogOf(enricher)), effect, page)
  {
    for i := 0 to |page|
      invariant enricher.Valid()
      invariant LogOf(enricher) == Run(old(LogOf(enricher)), effect, page[..i])
    {
      assert page[..i + 1][..i] == page[..i];
      enricher.EnrichAccount(page[i], dryRun, world);
    }
    assert page[..|page|] == page;
  }

  /** One pass of the loop body; `more` is false when the loop ends here. */
  method EnrichNextPage(enricher: ScriptEnricher, source: seq<Dict>, limit: Option<int>, total: nat, last: string,
                        dryRun: bool, world: World, fetchFails: string -> bool, ghost effect: Dict -> Effect,
                        ghost log0: Log)
    returns (accounts: seq<Dict>, more: bool)
    requires enricher.Valid() && AllHaveIds(source) && Sorted(source) && Enriches(effect, enricher.excludedIds, dryRun, world)
    requires total <= Cap(limit, |source|) && last == Cursor(source, total)
    requires LogOf(enricher) == Run(log0, effect, source[..total])
    modifies enricher
    ensures enricher.Valid()
    ensures total + |accounts| <= Cap(limit, |source|)
    ensures accounts == source[total..total + |accounts|]
    ensures more ==> accounts != [] && IdOf(accounts[|accounts| - 1]) == Cursor(source, total + |accounts|)
    ensures !more && !fetchFails(last) ==> total + |accounts| == Cap(limit, |source|)
    ensures LogOf(enricher) == Run(log0, effect, source[..total + |accounts|])
  {
    accounts, more := NextPage(source, limit, total, last, fetchFails);
    if accounts != [] {
      EnrichPage(enricher, accounts, dryRun, world, effect);
      Resume(log0, old(LogOf(enricher)), LogOf(enricher), effect, source, total, accounts);
    }
  }

  /**
   * The `while True` loop of `main()`. The accounts submitted are exactly
   * the first `total` eligible ones, in id order, each once; `total` never
   * exceeds the limit and, when no fetch fails, reaches it or exhausts the
   * accounts; the service's log is that of enriching them in turn.
   */
  method RunEnrichment(enricher: ScriptEnricher, source: seq<Dict>, limit: Option<int>, dryRun: bool, world: World,
                       fetchFails: string -> bool, ghost effect: Dict -> Effect)
    returns (dispatched: seq<Dict>, total: nat)
    requires enricher.Valid() && AllHaveIds(source) && Sorted(source) && Enriches(effect, enricher.excludedIds, dryRun, world)
    modifies enricher
    ensures enricher.Valid()
    ensures total <= Cap(limit, |source|)
    ensures dispatched == source[..total]
    ensures (forall after :: !fetchFails(after)) ==> total == Cap(limit, |source|)
    ensures LogOf(enricher) == Run(old(LogOf(enricher)), effect, dispatched)
  {
    total := 0;
    var last := "";
    ghost var log0 := LogOf(enricher);
    while true
      invariant enricher.Valid()
      invariant total <= Cap(limit, |source|)
      invariant last == Cursor(source, total)
      invariant LogOf(enricher) == Run(log0, effect, source[..total])
      decreases |source| - total
    {
      var accounts, more := EnrichNextPage(enricher, source, limit, total, last, dryRun, world, fetchFails, effect, log0);
      total := total + |accounts|;
      if !more {
        break;
      }
      last := IdOf(accounts[|accounts| - 1]);
    }
    dispatched := source[..total];
  }
}
