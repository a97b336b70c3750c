/** services/refresh.py: fetch, then replace the whole catalog. */
module Refresh {
  import opened Wrappers
  import opened Tables
  import opened Repository

  datatype RefreshResult = Success | Cancelled | EmptyAbort

  datatype RefreshError = FetchFailed | Database

  // `fetched` is what the portal returns, or None when it raises.
  method RefreshAll(fetched: Option<seq<CatalogItem>>, repository: SQLiteRepository, confirmed: bool)
    returns (r: Result<RefreshResult, RefreshError>)
    modifies repository`calls, repository`inventory
    ensures !confirmed ==> r == Ok(Cancelled)
    ensures confirmed && fetched.None? ==> r == Err(FetchFailed)
    ensures confirmed && fetched == Some([]) ==> r == Ok(EmptyAbort)
    ensures !confirmed || fetched.None? || fetched.value == [] ==>
              repository.inventory == old(repository.inventory) && repository.calls == old(repository.calls)
    // Otherwise three calls are made, and only a failure of one of the first two keeps the catalog.
    ensures confirmed && fetched.Some? && fetched.value != [] ==>
              var k := old(repository.calls);
              && repository.inventory
              == (if repository.fault(k) || repository.fault(k + 1) then old(repository.inventory)
                  else UpsertAll(map[], fetched.value))
              && r == (if repository.fault(k) || repository.fault(k + 1) || repository.fault(k + 2) then Err(Database)
                       else Ok(Success))
  {
    if !confirmed {
      return Ok(Cancelled);
    }
    if fetched.None? {
      return Err(FetchFailed);
    }
    if fetched.value == [] {
      return Ok(EmptyAbort);
    }
    var before := repository.CountPoItems();
    if before.Err? {
      return Err(Database);
    }
    var replaced := repository.ReplacePoItems(fetched.value);
    if replaced.Err? {
      return Err(Database);
    }
    var after := repository.CountPoItems();
    if after.Err? {
      return Err(Database);
    }
    return Ok(Success);
  }

  // What a replaced catalog holds: every fetched id, each with the row fetched for it last, and no
  // claim, whatever was claimed before. A refresh never leaves it empty.
  lemma ReplacedCatalog(cs: seq<CatalogItem>, k: int)
    requires IsLast(cs, k)
    ensures var loaded := UpsertAll(map[], cs);
            && loaded != map[] && Keyed(loaded) && loaded.Keys == Ids(cs)
            && loaded[cs[k].inventoryId] == CatalogRow(cs[k], None)
            && forall i :: i in loaded ==> loaded[i].claimedAt.None?
  {
    UpsertKeepsClaims(map[], cs);
    LastItemWins(map[], cs, k);
    forall i | i in UpsertAll(map[], cs) ensures UpsertAll(map[], cs)[i].claimedAt.None? {
      assert ClaimOf(UpsertAll(map[], cs), i) == ClaimOf(map[], i);
    }
  }
}
