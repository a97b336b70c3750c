/** adapters/db.py: the SQLite repository. */
module Repository {
  import opened Wrappers
  import opened Sequences
  import opened Schema
  import opened Tables

  datatype RepositoryError = RepositoryError

  // What a search by serial joins from the two tables.
  datatype ClaimedUnit = ClaimedUnit(row: InventoryRow, receivingId: string, item: ReceivingRow)

  class SQLiteRepository {
    var inventory: Inventory
    var items: Receipts
    var barcodeMap: map<string, string>
    // `fault(k)` says whether the k-th call meets a database error; its transaction then rolls back.
    const fault: nat -> bool
    var calls: nat

    constructor (fault: nat -> bool)
      ensures inventory == map[] && items == map[] && barcodeMap == map[] && calls == 0
      ensures this.fault == fault
    {
      inventory, items, barcodeMap, calls := map[], map[], map[], 0;
      this.fault := fault;
    }

    method UnclaimedForPo(po: string) returns (r: Result<seq<InventoryRow>, RepositoryError>)
      requires Keyed(inventory)
      modifies this`calls
      ensures calls == old(calls) + 1
      ensures r.Err? <==> fault(old(calls))
      ensures r.Ok? ==> Lists(r.value, Unclaimed(inventory, po))
    {
      calls := calls + 1;
      if fault(calls - 1) {
        return Err(RepositoryError);
      }
      var rows, left := [], inventory.Keys;
      while left != {}
        invariant left <= inventory.Keys
        invariant Distinct(rows)
        invariant forall x :: x in rows <==> x in Unclaimed(inventory, po) && x.inventoryId !in left
      {
        var i :| i in left;
        left := left - {i};
        if inventory[i].purchaseOrder == po && inventory[i].claimedAt.None? {
          assert inventory[i] in Unclaimed(inventory, po);
          rows := rows + [inventory[i]];
        }
      }
      return Ok(rows);
    }

    method FindClaimedBySerial(po: string, serial: string) returns (r: Result<Option<ClaimedUnit>, RepositoryError>)
      modifies this`calls
      ensures calls == old(calls) + 1
      ensures r.Err? <==> fault(old(calls))
      ensures r.Ok? && r.value.None? ==> forall rid :: !HasSerial(inventory, items, po, serial, rid)
      ensures r.Ok? && r.value.Some? ==>
                var u := r.value.value;
                HasSerial(inventory, items, po, serial, u.receivingId)
                && u.item == items[u.receivingId] && u.row == inventory[u.item.inventoryId]
      ensures r.Ok? && r.value.Some? ==>
                var u := r.value.value;
                && u.receivingId in items && u.item == items[u.receivingId]
                && u.item.purchaseOrder == po && u.item.serial == serial && u.item.matchStatus == "received"
                && u.item.inventoryId in inventory && u.row == inventory[u.item.inventoryId]
      ensures r.Ok? && r.value.None? ==>
                forall rid :: rid in items && items[rid].inventoryId in inventory ==>
                  !(items[rid].purchaseOrder == po && items[rid].serial == serial
                    && items[rid].matchStatus == "received")
    {
      calls := calls + 1;
      if fault(calls - 1) {
        return Err(RepositoryError);
      }
      var left := items.Keys;
      while left != {}
        invariant left <= items.Keys
        invariant forall rid :: rid in items && rid !in left ==> !HasSerial(inventory, items, po, serial, rid)
      {
        var rid :| rid in left;
        if HasSerial(inventory, items, po, serial, rid) {
          return Ok(Some(ClaimedUnit(inventory[items[rid].inventoryId], rid, items[rid])));
        }
        left := left - {rid};
      }
      return Ok(None);
    }

    // One transaction, two statements; an error in either leaves both tables as they were.
    method ClaimAndSave(inventoryId: string, claimedAt: string, record: Record)
      returns (r: Result<(), RepositoryError>)
      modifies this`calls, this`inventory, this`items
      ensures calls == old(calls) + 1
      ensures r.Err? <==> fault(old(calls))
      ensures r.Err? ==> inventory == old(inventory) && items == old(items)
      ensures r.Ok? ==> inventory == ClaimRow(old(inventory), inventoryId, claimedAt)
                        && items == SaveRow(old(items), record)
    {
      calls := calls + 1;
      var claimed := inventory;
      if inventoryId in claimed && claimed[inventoryId].claimedAt.None? {
        claimed := claimed[inventoryId := claimed[inventoryId].(claimedAt := Some(claimedAt))];
      }
      var emitted := record.receivingId in items && items[record.receivingId].emitted;
      var saved := items[record.receivingId := RowOf(record, emitted)];
      if fault(calls - 1) {
        return Err(RepositoryError);
      }
      inventory, items := claimed, saved;
      return Ok(());
    }

    method SaveRecord(record: Record) returns (r: Result<(), RepositoryError>)
      modifies this`calls, this`items
      ensures calls == old(calls) + 1
      ensures r.Err? <==> fault(old(calls))
      ensures items == if r.Ok? then SaveRow(old(items), record) else old(items)
    {
      calls := calls + 1;
      if fault(calls - 1) {
        return Err(RepositoryError);
      }
      var emitted := record.receivingId in items && items[record.receivingId].emitted;
      items := items[record.receivingId := RowOf(record, emitted)];
      return Ok(());
    }

    method WasRecordEmitted(rid: string) returns (r: Result<bool, RepositoryError>)
      modifies this`calls
      ensures calls == old(calls) + 1
      ensures r == if fault(old(calls)) then Err(RepositoryError) else Ok(WasEmitted(items, rid))
    {
      calls := calls + 1;
      if fault(calls - 1) {
        return Err(RepositoryError);
      }
      return Ok(rid in items && items[rid].emitted);
    }

    // Raises when the row is missing: a record is committed before it is marked.
    method MarkEmitted(rid: string) returns (r: Result<(), RepositoryError>)
      modifies this`calls, this`items
      ensures calls == old(calls) + 1
      ensures r.Ok? <==> !fault(old(calls)) && rid in old(items)
      ensures items == if r.Ok? then MarkRow(old(items), rid) else old(items)
    {
      calls := calls + 1;
      if fault(calls - 1) || rid !in items {
        return Err(RepositoryError);
      }
      items := items[rid := items[rid].(emitted := true)];
      return Ok(());
    }

    // `rids` names the listed rows in order.
    method GetPending() returns (r: Result<seq<Dict>, RepositoryError>, ghost rids: seq<string>)
      modifies this`calls
      ensures calls == old(calls) + 1
      ensures r.Err? <==> fault(old(calls))
      ensures r.Ok? ==> Lists(rids, Pending(items)) && |r.value| == |rids|
      ensures r.Ok? ==> forall k :: 0 <= k < |rids| ==>
                          rids[k] in items && r.value[k] == RowDict(rids[k], items[rids[k]])
    {
      calls := calls + 1;
      rids := [];
      if fault(calls - 1) {
        return Err(RepositoryError), [];
      }
      var rows, left := [], items.Keys;
      while left != {}
        invariant left <= items.Keys
        invariant Distinct(rids) && |rows| == |rids|
        invariant forall x :: x in rids <==> x in Pending(items) && x !in left
        invariant forall k :: 0 <= k < |rids| ==> rids[k] in items && rows[k] == RowDict(rids[k], items[rids[k]])
      {
        var rid :| rid in left;
        left := left - {rid};
        if !items[rid].emitted {
          rows, rids := rows + [RowDict(rid, items[rid])], rids + [rid];
        }
      }
      return Ok(rows), rids;
    }

    method UpsertItems(catalog: seq<CatalogItem>) returns (r: Result<(), RepositoryError>)
      modifies this`calls, this`inventory
      ensures calls == old(calls) + 1
      ensures r.Err? <==> fault(old(calls))
      ensures inventory == if r.Ok? then UpsertAll(old(inventory), catalog) else old(inventory)
    {
      calls := calls + 1;
      var staged := StageCatalog(inventory, catalog);
      if fault(calls - 1) {
        return Err(RepositoryError);
      }
      inventory := staged;
      return Ok(());
    }

    // Deletes every row, claims included, and loads the new catalog, in one transaction.
    method ReplacePoItems(catalog: seq<CatalogItem>) returns (r: Result<(), RepositoryError>)
      modifies this`calls, this`inventory
      ensures calls == old(calls) + 1
      ensures r.Err? <==> fault(old(calls))
      ensures inventory == if r.Ok? then UpsertAll(map[], catalog) else old(inventory)
    {
      calls := calls + 1;
      var staged := StageCatalog(map[], catalog);
      if fault(calls - 1) {
        return Err(RepositoryError);
      }
      inventory := staged;
      return Ok(());
    }

    method CountPoItems() returns (r: Result<nat, RepositoryError>)
      modifies this`calls
      ensures calls == old(calls) + 1
      ensures r == if fault(old(calls)) then Err(RepositoryError) else Ok(|inventory|)
    {
      calls := calls + 1;
      if fault(calls - 1) {
        return Err(RepositoryError);
      }
      return Ok(|inventory|);
    }
  }

  // The INSERT ... ON CONFLICT loop of one transaction.
  method StageCatalog(inventory: Inventory, catalog: seq<CatalogItem>) returns (staged: Inventory)
    ensures staged == UpsertAll(inventory, catalog)
  {
    staged := inventory;
    for k := 0 to |catalog|
      invariant staged == UpsertAll(inventory, catalog[..k])
    {
      var c := catalog[k];
      var claim := if c.inventoryId in staged then staged[c.inventoryId].claimedAt else None;
      staged := staged[c.inventoryId := CatalogRow(c, claim)];
      assert catalog[..k + 1][..k] == catalog[..k];
    }
    assert catalog[..|catalog|] == catalog;
  }
}
