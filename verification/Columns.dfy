/** adapters/db.py and core/schema.py: the two tables column by column, and the dict form key by key. */
module Columns {
  import opened Wrappers
  import opened Text
  import opened Schema
  import opened Tables

  // ---- Selects ------------------------------------------------------------------------------------

  // A listing of a PO's candidates holds exactly the rows on that PO with no claim, each once.
  lemma CandidatesAre(inventory: Inventory, po: string, rows: seq<InventoryRow>)
    requires Keyed(inventory) && Lists(rows, Unclaimed(inventory, po))
    ensures forall row :: row in rows <==>
              row.inventoryId in inventory && inventory[row.inventoryId] == row && row.purchaseOrder == po
              && row.claimedAt == None
    ensures forall j, k :: 0 <= j < k < |rows| ==> rows[j].inventoryId != rows[k].inventoryId
  {
    forall j, k | 0 <= j < k < |rows| ensures rows[j].inventoryId != rows[k].inventoryId {
      assert rows[j] in rows && rows[k] in rows;
    }
  }

  // What is listed for replay is exactly the rows without the flag.
  lemma PendingAre(items: Receipts, rids: seq<string>)
    requires Lists(rids, Pending(items))
    ensures forall rid :: rid in rids <==> rid in items && items[rid].emitted == false
    ensures forall rid :: rid in items && rid !in rids ==> WasEmitted(items, rid)
  {
  }

  // ---- Writes -------------------------------------------------------------------------------------

  // A claiming transaction, column by column: the row named is claimed at that time unless it was claimed
  // before, the receipt holds the record and the flag it had, and no other row changes.
  lemma CommitWrites(inventory: Inventory, items: Receipts, i: string, at: string, r: Record)
    ensures var after := ClaimRow(inventory, i, at);
            && after.Keys == inventory.Keys
            && (forall other :: other in inventory && other != i ==> after[other] == inventory[other])
            && (i in inventory ==>
                  && after[i].inventoryId == inventory[i].inventoryId
                  && after[i].purchaseOrder == inventory[i].purchaseOrder
                  && after[i].modelNumber == inventory[i].modelNumber
                  && after[i].description == inventory[i].description && after[i].brand == inventory[i].brand
                  && after[i].vendor == inventory[i].vendor && after[i].tags == inventory[i].tags
                  && after[i].claimedAt == Some(if inventory[i].claimedAt.Some? then inventory[i].claimedAt.value
                                                else at))
    ensures var after, rid := SaveRow(items, r), r.receivingId;
            && after.Keys == items.Keys + {rid}
            && (forall other :: other in items && other != rid ==> after[other] == items[other])
            && after[rid].truck == r.truck && after[rid].stop == r.stop && after[rid].salesOrder == r.salesOrder
            && after[rid].modelNumber == r.modelNumber && after[rid].productCategory == r.productCategory
            && after[rid].productSize == r.productSize && after[rid].quantity == r.quantity
            && after[rid].timestamp == r.timestamp && after[rid].matchStatus == r.matchStatus
            && after[rid].purchaseOrder == r.purchaseOrder && after[rid].inventoryId == r.inventoryId
            && after[rid].serial == r.serial
            && (after[rid].emitted <==> rid in items && items[rid].emitted)
  {
  }

  // Marking sets one flag and nothing else; nothing sets a flag back.
  lemma MarkWrites(items: Receipts, rid: string)
    requires rid in items
    ensures var after := MarkRow(items, rid);
            && after.Keys == items.Keys && after[rid].emitted
            && RecordOf(rid, after[rid]) == RecordOf(rid, items[rid])
            && (forall other :: other in items && other != rid ==> after[other] == items[other])
            && Pending(after) == Pending(items) - {rid}
  {
  }

  // An upsert, column by column: the last item with an id writes every column but the claim.
  lemma UpsertWrites(inventory: Inventory, cs: seq<CatalogItem>, k: nat)
    requires k < |cs| && forall j :: k < j < |cs| ==> cs[j].inventoryId != cs[k].inventoryId
    ensures var c, after := cs[k], UpsertAll(inventory, cs);
            && c.inventoryId in after
            && after[c.inventoryId].inventoryId == c.inventoryId
            && after[c.inventoryId].purchaseOrder == c.purchaseOrder
            && after[c.inventoryId].modelNumber == c.modelNumber
            && after[c.inventoryId].description == c.description && after[c.inventoryId].brand == c.brand
            && after[c.inventoryId].vendor == c.vendor && after[c.inventoryId].tags == c.tags
            && after[c.inventoryId].claimedAt
            == (if c.inventoryId in inventory then inventory[c.inventoryId].claimedAt else None)
  {
    LastItemWins(inventory, cs, k);
  }

  // ---- The dict form ------------------------------------------------------------------------------

  // to_dict, key by key.
  lemma DictHolds(r: Record)
    ensures var d := ToDict(r);
            && d.Keys == {Truck, Stop, SalesOrder, ModelNumber, ProductCategory, ProductSize, Quantity, ReceivingId,
                          Timestamp, MatchStatus, PurchaseOrder, InventoryId, Serial, Brand, Vendor, Tags}
            && d[Truck] == PyStr(r.truck) && d[Stop] == PyStr(r.stop) && d[SalesOrder] == PyStr(r.salesOrder)
            && d[ModelNumber] == PyStr(r.modelNumber) && d[ProductCategory] == PyStr(r.productCategory)
            && d[ProductSize] == PyDict(r.productSize) && d[Quantity] == PyInt(r.quantity)
            && d[ReceivingId] == PyStr(r.receivingId) && d[Timestamp] == PyStr(r.timestamp)
            && d[MatchStatus] == PyStr(r.matchStatus) && d[PurchaseOrder] == PyStr(r.purchaseOrder)
            && d[InventoryId] == PyStr(r.inventoryId) && d[Serial] == PyStr(r.serial) && d[Brand] == PyStr(r.brand)
            && d[Vendor] == PyStr(r.vendor) && d[Tags] == PyStr(r.tags)
  {
  }

  // The row a replay reads, key by key: every column of the table under its own name.
  lemma RowHolds(rid: string, row: ReceivingRow)
    ensures var d := RowDict(rid, row);
            && d.Keys == {Truck, Stop, SalesOrder, ModelNumber, ProductCategory, ProductSize, Quantity, ReceivingId,
                          Timestamp, MatchStatus, PurchaseOrder, InventoryId, Serial, Emitted}
            && d[Truck] == PyStr(row.truck) && d[Stop] == PyStr(row.stop) && d[SalesOrder] == PyStr(row.salesOrder)
            && d[ModelNumber] == PyStr(row.modelNumber) && d[ProductCategory] == PyStr(row.productCategory)
            && d[ProductSize] == PyDict(row.productSize) && d[Quantity] == PyInt(row.quantity)
            && d[ReceivingId] == PyStr(rid) && d[Timestamp] == PyStr(row.timestamp)
            && d[MatchStatus] == PyStr(row.matchStatus) && d[PurchaseOrder] == PyStr(row.purchaseOrder)
            && d[InventoryId] == PyStr(row.inventoryId) && d[Serial] == PyStr(row.serial)
            && d[Emitted] == PyInt(if row.emitted then 1 else 0)
  {
    DictHolds(RecordOf(rid, row));
  }

  // ---- Validation ---------------------------------------------------------------------------------

  predicate TextAt(data: Dict, f: Key) {
    f in data && data[f].PyStr?
  }

  predicate TextOrNothingAt(data: Dict, f: Key) {
    f in data ==> data[f].PyNone? || data[f].PyStr?
  }

  predicate NotNegativeAt(size: Dict, dim: Key) {
    dim in size && ((size[dim].PyInt? && size[dim].i >= 0) || (size[dim].PyFloat? && size[dim].r >= 0.0))
  }

  ghost predicate HasInk(s: string) {
    exists i :: 0 <= i < |s| && !IsSpace(s[i])
  }

  // The dicts from_dict accepts: ten texts, of which the id is not blank and the status is one of four; a
  // timestamp that parses unless it is blank; a whole quantity of at least one (a bool is none); three
  // dimensions that are not negative; and four more texts that may be absent or null. Unknown keys make no
  // difference.
  ghost predicate Accepted(iso: string -> bool, data: Dict) {
    && TextAt(data, Truck) && TextAt(data, Stop) && TextAt(data, SalesOrder) && TextAt(data, ModelNumber)
    && TextAt(data, ProductCategory) && TextAt(data, PurchaseOrder) && TextAt(data, InventoryId)
    && TextAt(data, ReceivingId) && HasInk(data[ReceivingId].s)
    && TextAt(data, MatchStatus)
    && (data[MatchStatus].s == "received" || data[MatchStatus].s == "no_match"
        || data[MatchStatus].s == "needs_attention" || data[MatchStatus].s == "already_scanned")
    && TextAt(data, Timestamp) && (HasInk(data[Timestamp].s) ==> iso(data[Timestamp].s))
    && Quantity in data && data[Quantity].PyInt? && data[Quantity].i >= 1
    && ProductSize in data && data[ProductSize].PyDict?
    && NotNegativeAt(data[ProductSize].d, W) && NotNegativeAt(data[ProductSize].d, D)
    && NotNegativeAt(data[ProductSize].d, H)
    && TextOrNothingAt(data, Serial) && TextOrNothingAt(data, Brand) && TextOrNothingAt(data, Vendor)
    && TextOrNothingAt(data, Tags)
  }

  lemma InkIff(s: string)
    ensures HasInk(s) <==> !Blank(s)
  {
  }

  lemma StrFieldIs(f: Key)
    ensures f in STR_FIELDS <==>
              f == Truck || f == Stop || f == SalesOrder || f == ModelNumber || f == ProductCategory
              || f == ReceivingId || f == Timestamp || f == MatchStatus || f == PurchaseOrder || f == InventoryId
  {
    StrFieldNames();
  }

  ghost predicate StrFieldsOk(data: Dict) {
    && TextAt(data, Truck) && TextAt(data, Stop) && TextAt(data, SalesOrder) && TextAt(data, ModelNumber)
    && TextAt(data, ProductCategory) && TextAt(data, PurchaseOrder) && TextAt(data, InventoryId)
    && TextAt(data, Timestamp) && StrFieldOk(ReceivingId, data) && StrFieldOk(MatchStatus, data)
  }

  lemma StrFieldsOkIff(data: Dict)
    ensures (forall f :: f in STR_FIELDS ==> StrFieldOk(f, data)) <==> StrFieldsOk(data)
  {
    if StrFieldsOk(data) {
      forall f | f in STR_FIELDS ensures StrFieldOk(f, data) {
        StrFieldIs(f);
      }
    } else {
      StrFieldNames();
    }
  }

  lemma OptionalFieldsOkIff(data: Dict)
    ensures (forall f :: f in OPTIONAL_STR_FIELDS ==> OptionalFieldOk(f, data)) <==>
              TextOrNothingAt(data, Serial) && TextOrNothingAt(data, Brand) && TextOrNothingAt(data, Vendor)
              && TextOrNothingAt(data, Tags)
  {
    var s := OPTIONAL_STR_FIELDS;
    assert s[0] == Serial && s[1] == Brand && s[2] == Vendor && s[3] == Tags;
    assert Serial in s && Brand in s && Vendor in s && Tags in s;
  }

  lemma SizesOkIff(size: Dict)
    ensures (forall dim :: dim in DIMENSIONS ==> DimensionOk(dim, size)) <==>
              NotNegativeAt(size, W) && NotNegativeAt(size, D) && NotNegativeAt(size, H)
  {
    var s := DIMENSIONS;
    assert s[0] == W && s[1] == D && s[2] == H;
    assert W in s && D in s && H in s;
  }

  lemma WellFormedIff(iso: string -> bool, data: Dict)
    ensures WellFormed(iso, data) <==> Accepted(iso, data)
  {
    StrFieldsOkIff(data);
    OptionalFieldsOkIff(data);
    if TextAt(data, ReceivingId) {
      InkIff(data[ReceivingId].s);
    }
    if TextAt(data, Timestamp) {
      InkIff(data[Timestamp].s);
    }
    if ProductSize in data && data[ProductSize].PyDict? {
      SizesOkIff(data[ProductSize].d);
    }
  }

  lemma MigrationAccepts(iso: string -> bool, data: Dict)
    ensures Accepted(iso, Migrate(data)) <==> Accepted(iso, data)
  {
    var m := Migrate(data);
    assert forall f :: f in data ==> f in m && m[f] == data[f];
    assert forall f :: f in m && f !in data ==> f in {Serial, Brand, Vendor, Tags} && m[f].PyStr?;
  }

  // from_dict on any dict: it raises exactly on what is not accepted, and otherwise the record holds each
  // field under its own key, absent and null optional texts as "".
  lemma FromDictIff(iso: string -> bool, data: Dict)
    ensures FromDict(iso, data).Ok? <==> Accepted(iso, data)
    ensures Accepted(iso, data) ==>
              var r := FromDict(iso, data).value;
              && r.truck == data[Truck].s && r.stop == data[Stop].s && r.salesOrder == data[SalesOrder].s
              && r.modelNumber == data[ModelNumber].s && r.productCategory == data[ProductCategory].s
              && r.productSize == data[ProductSize].d && r.quantity == data[Quantity].i
              && r.receivingId == data[ReceivingId].s && r.timestamp == data[Timestamp].s
              && r.matchStatus == data[MatchStatus].s && r.purchaseOrder == data[PurchaseOrder].s
              && r.inventoryId == data[InventoryId].s
              && r.serial == (if TextAt(data, Serial) then data[Serial].s else "")
              && r.brand == (if TextAt(data, Brand) then data[Brand].s else "")
              && r.vendor == (if TextAt(data, Vendor) then data[Vendor].s else "")
              && r.tags == (if TextAt(data, Tags) then data[Tags].s else "")
  {
    WellFormedIff(iso, Migrate(data));
    MigrationAccepts(iso, data);
  }
}
