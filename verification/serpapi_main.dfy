/**
 * `SerpAPI/src/main.py`: the enrichment run over Salesforce accounts with
 * seek pagination, each account handed to the staging enrichment service,
 * and the optional synchronisation of staged rows back to Salesforce.
 */
module SerpapiMain {
  import opened Py
  import opened Paging
  import opened Staging
  import Enrichment
  import Salesforce
  import Sync

  /** The command line: `--dry-run`, `--limit`, `--sync-only`, `--sync`. */
  datatype Args = Args(dryRun: bool, limit: Option<int>, syncOnly: bool, sync: bool)

  /** `args.limit if args.limit else 100`: the batch size of a synchronisation. */
  function SyncLimit(limit: Option<int>): int {
    if limit.Some? && limit.value != 0 then limit.value else 100
  }

  /** `executor.submit(service.enrich_account, acc, dry_run)`, run to completion. */
  method Submit(service: Enrichment.EnrichmentService, account: Dict, world: Enrichment.World, faults: Enrichment.Faults)
    requires service.store.Valid() && HasId(account)
    modifies service, service.store
    ensures service.store.Valid()
    ensures old(service.store.rows).Keys <= service.store.rows.Keys
    ensures !faults.upsertFails ==> IdOf(account) in service.store.rows
    ensures service.submitted == old(service.submitted) + [account]
  {
    service.EnrichAccount(account, world, faults);
  }

  /**
   * The accounts of one page, each submitted once to `enrich_account`, in
   * order; the next page is fetched only after all of them are done.
   * No staged row is lost, and every account whose upsert did not fail
   * has a row afterwards.
   */
  method EnrichPage(service: Enrichment.EnrichmentService, page: seq<Dict>, world: Enrichment.World,
                    faults: string -> Enrichment.Faults)
    requires service.store.Valid() && AllHaveIds(page)
    modifies service, service.store
    ensures service.store.Valid()
    ensures old(service.store.rows).Keys <= service.store.rows.Keys
    ensures forall k :: 0 <= k < |page| && !faults(IdOf(page[k])).upsertFails ==> IdOf(page[k]) in service.store.rows
    ensures service.submitted == old(service.submitted) + page
  {
    for i := 0 to |page|
      invariant service.store.Valid()
      invariant service.submitted == old(service.submitted) + page[..i]
      invariant old(service.store.rows).Keys <= service.store.rows.Keys
      invariant forall k :: 0 <= k < i && !faults(IdOf(page[k])).upsertFails ==> IdOf(page[k]) in service.store.rows
    {
      Submit(service, page[i], world, faults(IdOf(page[i])));
      assert page[..i + 1] == page[..i] + [page[i]];
    }
    assert page[..|page|] == page;
  }

  /**
   * One pass of the loop body after `total` accounts: the fetch limit, the
   * page after cursor `last`, and its accounts submitted. `more` is false
   * when the loop ends here: the limit is used up, the fetch fails, or the
   * page is empty or short.
   */
  method EnrichNextPage(service: Enrichment.EnrichmentService, source: seq<Dict>, limit: Option<int>, total: nat,
                        last: string, world: Enrichment.World, faults: string -> Enrichment.Faults,
                        fetchFails: string -> bool)
    returns (accounts: seq<Dict>, more: bool)
    requires service.store.Valid() && AllHaveIds(source) && Sorted(source)
    requires total <= Cap(limit, |source|) && last == Cursor(source, total)
    modifies service, service.store
    ensures service.store.Valid()
    ensures total + |accounts| <= Cap(limit, |source|)
    ensures accounts == source[total..total + |accounts|]
    ensures more ==> accounts != [] && IdOf(accounts[|accounts| - 1]) == Cursor(source, total + |accounts|)
    ensures !more && !fetchFails(last) ==> total + |accounts| == Cap(limit, |source|)
    ensures old(service.store.rows).Keys <= service.store.rows.Keys
    ensures forall k :: 0 <= k < |accounts| && !faults(IdOf(accounts[k])).upsertFails ==> IdOf(accounts[k]) in service.store.rows
    ensures service.submitted == old(service.submitted) + accounts
  {
    accounts, more := NextPage(source, limit, total, last, fetchFails);
    if accounts != [] {
      EnrichPage(service, accounts, world, faults);
    }
  }

  /**
   * The `while True` loop of `main()`: pages of at most 1000 accounts after
   * the last id seen, until the limit is used up, a page is empty or short,
   * or a fetch fails (an empty answer or an exception: either ends the
   * loop). The accounts submitted are exactly the first `total` eligible
   * ones, in id order, each once; `total` never exceeds the limit, and when
   * no fetch fails it reaches the limit or exhausts the accounts.
   */
  method RunEnrichment(service: Enrichment.EnrichmentService, source: seq<Dict>, limit: Option<int>,
                       world: Enrichment.World, faults: string -> Enrichment.Faults, fetchFails: string -> bool)
    returns (dispatched: seq<Dict>, total: nat)
    requires service.store.Valid() && AllHaveIds(source) && Sorted(source)
    modifies service, service.store
    ensures service.store.Valid()
    ensures total <= Cap(limit, |source|)
    ensures dispatched == source[..total]
    ensures (forall after :: !fetchFails(after)) ==> total == Cap(limit, |source|)
    ensures old(service.store.rows).Keys <= service.store.rows.Keys
    ensures forall k :: 0 <= k < total && !faults(IdOf(source[k])).upsertFails ==> IdOf(source[k]) in service.store.rows
    ensures service.submitted == old(service.submitted) + dispatched
  {
    total := 0;
    var last := "";
    while true
      invariant total <= Cap(limit, |source|)
      invariant last == Cursor(source, total)
      invariant service.store.Valid()
      invariant old(service.store.rows).Keys <= service.store.rows.Keys
      invariant forall k :: 0 <= k < total && !faults(IdOf(source[k])).upsertFails ==> IdOf(source[k]) in service.store.rows
      invariant service.submitted == old(service.submitted) + source[..total]
      decreases |source| - total
    {
      var accounts, more := EnrichNextPage(service, source, limit, total, last, world, faults, fetchFails);
      NextRun(source, total, accounts);
      total := total + |accounts|;
      if !more {
        break;
      }
      last := IdOf(accounts[|accounts| - 1]);
    }
    dispatched := source[..total];
  }

  /** A run read from `total` on extends the prefix read so far, account by account. */
  lemma NextRun(source: seq<Dict>, total: nat, accounts: seq<Dict>)
    requires total + |accounts| <= |source| && accounts == source[total..total + |accounts|]
    ensures forall k :: total <= k < total + |accounts| ==> source[k] == accounts[k - total]
    ensures source[..total] + accounts == source[..total + |accounts|]
  {
  }

  /**
   * `main()` after the services are set up: `--sync-only` runs one
   * synchronisation and no enrichment; otherwise the enrichment loop runs,
   * followed by a synchronisation when `--sync` is given.
   */
  method RunPipeline(service: Enrichment.EnrichmentService, source: seq<Dict>, args: Args,
                     world: Enrichment.World, faults: string -> Enrichment.Faults, fetchFails: string -> bool,
                     push: (string, Dict) -> Salesforce.Reply, readFails: bool, writeFails: string -> bool)
    returns (dispatched: seq<Dict>, batch: seq<Dict>, success: nat, failure: nat)
    requires service.store.Valid() && AllHaveIds(source) && Sorted(source)
    modifies service, service.store
    ensures service.store.Valid()
    ensures args.syncOnly ==> dispatched == [] && service.searches == old(service.searches)
    ensures |dispatched| <= Cap(args.limit, |source|) && dispatched == source[..|dispatched|]
    ensures !args.syncOnly && !args.sync ==> batch == [] && success == 0 && failure == 0
    ensures |batch| <= (if SyncLimit(args.limit) < 0 then 0 else SyncLimit(args.limit))
    ensures forall j :: 0 <= j < |batch| ==> Sync.HasTextId(batch[j]) && IsPending(batch[j])
    ensures success + failure == Sync.WithId(batch)
    ensures service.submitted == old(service.submitted) + dispatched
  {
    dispatched, batch, success, failure := [], [], 0, 0;
    if args.syncOnly {
      batch, success, failure := Sync.SyncPendingAccounts(service.store, SyncLimit(args.limit), args.dryRun, push, readFails, writeFails);
      return;
    }
    var total;
    dispatched, total := RunEnrichment(service, source, args.limit, world, faults, fetchFails);
    if args.sync {
      batch, success, failure := Sync.SyncPendingAccounts(service.store, SyncLimit(args.limit), args.dryRun, push, readFails, writeFails);
    }
  }
}
