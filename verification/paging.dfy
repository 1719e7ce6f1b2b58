/**
 * The seek pagination shared by both `main.py` drivers: accounts are read
 * from Salesforce in pages of at most 1000, ordered by `Id`, each page
 * starting after the last `Id` of the previous one, until a limit is
 * reached or a page comes back short.
 *
 * The account source is the query's result set, held fixed for the run:
 * a sequence of accounts in strictly increasing `Id` order.
 */
module Paging {
  import opened Py

  const BatchSize: nat := 1000

  /**
   * `fetch_limit` for the next page: the batch size, capped by what is left
   * of `limit`; `None` when nothing is left and the loop stops.
   */
  function FetchLimit(limit: Option<int>, total: nat): (r: Option<nat>)
    ensures limit.None? ==> r == Some(BatchSize)
    ensures r.None? <==> limit.Some? && limit.value <= total
    ensures r.Some? ==> 1 <= r.value <= BatchSize
    ensures r.Some? && limit.Some? ==> total + r.value <= limit.value
    ensures r.Some? ==> r.value == BatchSize || (limit.Some? && total + r.value == limit.value)
  {
    if limit.None? then Some(BatchSize)
    else
      var remaining := limit.value - total;
      if remaining <= 0 then None
      else Some(if remaining < BatchSize then remaining else BatchSize)
  }

  /** How many of `n` eligible accounts a run submits when no fetch fails: all of them, or `limit` if that is fewer. */
  function Cap(limit: Option<int>, n: nat): (c: nat)
    ensures c <= n
    ensures limit.None? ==> c == n
    ensures limit.Some? ==> c <= (if limit.value < 0 then 0 else limit.value)
    ensures limit.Some? && c < n ==> c == (if limit.value < 0 then 0 else limit.value)
  {
    if limit.None? || n <= limit.value then n
    else if limit.value < 0 then 0
    else limit.value
  }

  /** Python's `a < b` on strings: lexicographic by code point, a proper prefix first. */
  predicate IdLess(a: string, b: string)
    decreases |a|
  {
    b != [] && (a == [] || a[0] < b[0] || (a[0] == b[0] && IdLess(a[1..], b[1..])))
  }

  /** The order on ids is strict: never both ways, never an id against itself. */
  lemma {:induction false} IdLessAsymmetric(a: string, b: string)
    requires IdLess(a, b)
    ensures !IdLess(b, a) && a != b
    decreases |a|
  {
    if a != [] && a[0] == b[0] {
      IdLessAsymmetric(a[1..], b[1..]);
    }
  }

  /** A Salesforce account record as the query returns it: its `Id` is a non-empty string. */
  predicate HasId(account: Dict) {
    "Id" in account && account["Id"].VStr? && account["Id"].s != ""
  }

  function IdOf(account: Dict): string
    requires HasId(account)
  {
    account["Id"].s
  }

  predicate AllHaveIds(accounts: seq<Dict>) {
    forall k :: 0 <= k < |accounts| ==> HasId(accounts[k])
  }

  /** `ORDER BY Id ASC` over distinct ids. */
  predicate Sorted(accounts: seq<Dict>)
    requires AllHaveIds(accounts)
  {
    forall i, j :: 0 <= i < j < |accounts| ==> IdLess(IdOf(accounts[i]), IdOf(accounts[j]))
  }

  /** The accounts the query keeps for cursor `after`: all of them for an empty cursor, else those with `Id > after`. */
  function Above(source: seq<Dict>, after: string): (r: seq<Dict>)
    requires AllHaveIds(source)
    ensures |r| <= |source|
    decreases |source|
  {
    if source == [] then []
    else (if after == "" || IdLess(after, IdOf(source[0])) then [source[0]] else []) + Above(source[1..], after)
  }

  /** `get_unenriched_accounts(limit=n, after_id=after)` over the fixed result set. */
  function Fetch(source: seq<Dict>, after: string, n: nat): (page: seq<Dict>)
    requires AllHaveIds(source)
    ensures |page| <= n
  {
    var above := Above(source, after);
    above[..if n < |above| then n else |above|]
  }

  /** The cursor after the first `k` accounts have been read: empty before any page. */
  function Cursor(source: seq<Dict>, k: nat): string
    requires AllHaveIds(source) && k <= |source|
  {
    if k == 0 then "" else IdOf(source[k - 1])
  }

  /** Keeping the accounts from `k` on, and none before, gives the suffix from `k`. */
  lemma {:induction false} AboveSplit(source: seq<Dict>, after: string, k: nat)
    requires AllHaveIds(source) && k <= |source|
    requires forall j :: 0 <= j < k ==> after != "" && !IdLess(after, IdOf(source[j]))
    requires forall j :: k <= j < |source| ==> after == "" || IdLess(after, IdOf(source[j]))
    ensures Above(source, after) == source[k..]
    decreases |source|
  {
    if source != [] {
      var rest := source[1..];
      assert forall j :: 0 <= j < |rest| ==> rest[j] == source[j + 1];
      if k == 0 {
        AboveSplit(rest, after, 0);
      } else {
        AboveSplit(rest, after, k - 1);
        assert rest[k - 1..] == source[k..];
      }
    }
  }

  /** With the ids in order, the page after the cursor of the first `k` accounts starts at account `k`. */
  lemma AboveCursor(source: seq<Dict>, k: nat)
    requires AllHaveIds(source) && Sorted(source) && k <= |source|
    ensures Above(source, Cursor(source, k)) == source[k..]
  {
    var after := Cursor(source, k);
    forall j | 0 <= j < k
      ensures after != "" && !IdLess(after, IdOf(source[j]))
    {
      if j < k - 1 {
        IdLessAsymmetric(IdOf(source[j]), after);
      } else if IdLess(after, after) {
        IdLessAsymmetric(after, after);
      }
    }
    AboveSplit(source, after, k);
  }

  /** Each page is the next run of accounts in id order, as many as asked for or all that are left. */
  lemma FetchNext(source: seq<Dict>, k: nat, n: nat)
    requires AllHaveIds(source) && Sorted(source) && k <= |source|
    ensures Fetch(source, Cursor(source, k), n) == source[k..if k + n < |source| then k + n else |source|]
  {
    AboveCursor(source, k);
  }

  /**
   * The fetch at the top of the loop body: nothing once the limit is used up
   * or when the fetch fails, else the next page after `last`. The loop goes
   * on only after a full page, and then from that page's last id.
   */
  method NextPage(source: seq<Dict>, limit: Option<int>, total: nat, last: string, fetchFails: string -> bool)
    returns (accounts: seq<Dict>, more: bool)
    requires AllHaveIds(source) && Sorted(source)
    requires total <= Cap(limit, |source|) && last == Cursor(source, total)
    ensures total + |accounts| <= Cap(limit, |source|)
    ensures accounts == source[total..total + |accounts|]
    ensures more ==> accounts != [] && IdOf(accounts[|accounts| - 1]) == Cursor(source, total + |accounts|)
    ensures !more && !fetchFails(last) ==> total + |accounts| == Cap(limit, |source|)
  {
    accounts, more := [], false;
    var fetchLimit := FetchLimit(limit, total);
    if fetchLimit.None? || fetchFails(last) {
      return;
    }
    accounts := Fetch(source, last, fetchLimit.value);
    FetchNext(source, total, fetchLimit.value);
    more := accounts != [] && |accounts| == fetchLimit.value;
  }
}
