/** adapters/db.py: the two durable tables as values, and the effect of each transaction on them. */
module Tables {
  import opened Wrappers
  import opened Sequences
  import opened Schema

  datatype InventoryRow = InventoryRow(
    inventoryId: string, purchaseOrder: string, modelNumber: string,
    description: Option<string>, brand: Option<string>, vendor: Option<string>, tags: Option<string>,
    claimedAt: Option<string>)

  datatype ReceivingRow = ReceivingRow(
    purchaseOrder: string, inventoryId: string, modelNumber: string, productCategory: string,
    truck: string, stop: string, salesOrder: string, productSize: Dict, quantity: int,
    matchStatus: string, timestamp: string, serial: string,
    emitted: bool)

  // A line item as a catalog source delivers it.
  datatype CatalogItem = CatalogItem(
    inventoryId: string, purchaseOrder: string, modelNumber: string,
    description: Option<string>, brand: Option<string>, vendor: Option<string>, tags: Option<string>)

  // Keyed by inventory_id and by receiving_id.
  type Inventory = map<string, InventoryRow>
  type Receipts = map<string, ReceivingRow>

  ghost predicate Keyed(inventory: Inventory) {
    forall i :: i in inventory ==> inventory[i].inventoryId == i
  }

  // ---- Reads --------------------------------------------------------------------

  // A SELECT without ORDER BY returns its rows in any order.
  ghost predicate Lists<T(!new)>(rows: seq<T>, selected: set<T>) {
    Distinct(rows) && forall x :: x in rows <==> x in selected
  }

  function Unclaimed(inventory: Inventory, po: string): set<InventoryRow> {
    set i | i in inventory && inventory[i].purchaseOrder == po && inventory[i].claimedAt.None? :: inventory[i]
  }

  function Pending(items: Receipts): set<string> {
    set r | r in items && !items[r].emitted
  }

  function WasEmitted(items: Receipts, rid: string): bool {
    rid in items && items[rid].emitted
  }

  // The rows that answer a search for a claimed unit by serial.
  predicate HasSerial(inventory: Inventory, items: Receipts, po: string, serial: string, rid: string) {
    && rid in items
    && items[rid].purchaseOrder == po
    && items[rid].serial == serial
    && items[rid].matchStatus == "received"
    && items[rid].inventoryId in inventory
  }

  // ---- Writes -------------------------------------------------------------------

  function RowOf(r: Record, emitted: bool): ReceivingRow {
    ReceivingRow(r.purchaseOrder, r.inventoryId, r.modelNumber, r.productCategory, r.truck, r.stop,
                 r.salesOrder, r.productSize, r.quantity, r.matchStatus, r.timestamp, r.serial, emitted)
  }

  // Insert, or on conflict update the domain columns and leave `emitted`.
  function SaveRow(items: Receipts, r: Record): Receipts {
    items[r.receivingId := RowOf(r, WasEmitted(items, r.receivingId))]
  }

  // `UPDATE ... WHERE inventory_id = ? AND claimed_at IS NULL`: silently nothing when no row qualifies.
  function ClaimRow(inventory: Inventory, i: string, at: string): Inventory {
    if i in inventory && inventory[i].claimedAt.None?
    then inventory[i := inventory[i].(claimedAt := Some(at))]
    else inventory
  }

  function MarkRow(items: Receipts, rid: string): Receipts {
    if rid in items then items[rid := items[rid].(emitted := true)] else items
  }

  function CatalogRow(c: CatalogItem, claimedAt: Option<string>): InventoryRow {
    InventoryRow(c.inventoryId, c.purchaseOrder, c.modelNumber, c.description, c.brand, c.vendor, c.tags, claimedAt)
  }

  function ClaimOf(inventory: Inventory, i: string): Option<string> {
    if i in inventory then inventory[i].claimedAt else None
  }

  function UpsertOne(inventory: Inventory, c: CatalogItem): Inventory {
    inventory[c.inventoryId := CatalogRow(c, ClaimOf(inventory, c.inventoryId))]
  }

  function UpsertAll(inventory: Inventory, cs: seq<CatalogItem>): Inventory {
    if cs == [] then inventory
    else UpsertOne(UpsertAll(inventory, cs[..|cs| - 1]), cs[|cs| - 1])
  }

  function Ids(cs: seq<CatalogItem>): set<string> {
    set c | c in cs :: c.inventoryId
  }

  // `k` is the last position of `cs` with its inventory id.
  predicate IsLast(cs: seq<CatalogItem>, k: int) {
    0 <= k < |cs| && forall j :: k < j < |cs| ==> cs[j].inventoryId != cs[k].inventoryId
  }

  lemma IdsSnoc(cs: seq<CatalogItem>)
    requires cs != []
    ensures Ids(cs) == Ids(cs[..|cs| - 1]) + {cs[|cs| - 1].inventoryId}
  {
    assert cs == cs[..|cs| - 1] + [cs[|cs| - 1]];
  }

  // Upserting keeps every claim and every row it does not name.
  lemma {:induction false} UpsertKeepsClaims(inventory: Inventory, cs: seq<CatalogItem>)
    ensures UpsertAll(inventory, cs).Keys == inventory.Keys + Ids(cs)
    ensures forall i :: ClaimOf(UpsertAll(inventory, cs), i) == ClaimOf(inventory, i)
    ensures forall i :: i in inventory && i !in Ids(cs) ==> UpsertAll(inventory, cs)[i] == inventory[i]
    ensures Keyed(inventory) ==> Keyed(UpsertAll(inventory, cs))
  {
    if cs != [] {
      UpsertKeepsClaims(inventory, cs[..|cs| - 1]);
      IdsSnoc(cs);
    }
  }

  // Among the items with one inventory id the last one fetched wins.
  lemma {:induction false} LastItemWins(inventory: Inventory, cs: seq<CatalogItem>, k: int)
    requires IsLast(cs, k)
    ensures cs[k].inventoryId in UpsertAll(inventory, cs)
    ensures UpsertAll(inventory, cs)[cs[k].inventoryId] == CatalogRow(cs[k], ClaimOf(inventory, cs[k].inventoryId))
  {
    var n := |cs| - 1;
    UpsertKeepsClaims(inventory, cs[..n]);
    if k < n {
      assert cs[n].inventoryId != cs[k].inventoryId;
      assert IsLast(cs[..n], k);
      LastItemWins(inventory, cs[..n], k);
    }
  }

  predicate DistinctIds(cs: seq<CatalogItem>) {
    forall j, k :: 0 <= j < k < |cs| ==> cs[j].inventoryId != cs[k].inventoryId
  }

  lemma LastIdIsNewIff(cs: seq<CatalogItem>)
    requires cs != []
    ensures DistinctIds(cs) <==>
              DistinctIds(cs[..|cs| - 1]) && cs[|cs| - 1].inventoryId !in Ids(cs[..|cs| - 1])
  {
    var n := |cs| - 1;
    var init := cs[..n];
    if cs[n].inventoryId in Ids(init) {
      var j :| 0 <= j < n && init[j].inventoryId == cs[n].inventoryId;
      assert cs[j].inventoryId == cs[n].inventoryId;
    } else {
      forall j | 0 <= j < n ensures cs[j].inventoryId != cs[n].inventoryId {
        assert init[j] in init;
      }
    }
  }

  lemma {:induction false} IdCount(cs: seq<CatalogItem>)
    ensures |Ids(cs)| <= |cs|
    ensures |Ids(cs)| == |cs| <==> DistinctIds(cs)
  {
    if cs != [] {
      var n := |cs| - 1;
      var init := cs[..n];
      IdCount(init);
      IdsSnoc(cs);
      LastIdIsNewIff(cs);
    }
  }

  // The refresh criterion `count == len(rows)` holds exactly when no inventory id is fetched twice.
  lemma RefreshCountIff(cs: seq<CatalogItem>)
    ensures |UpsertAll(map[], cs)| == |Ids(cs)|
    ensures |UpsertAll(map[], cs)| == |cs| <==> DistinctIds(cs)
  {
    UpsertKeepsClaims(map[], cs);
    assert UpsertAll(map[], cs).Keys == Ids(cs);
    assert |UpsertAll(map[], cs)| == |UpsertAll(map[], cs).Keys|;
    IdCount(cs);
  }

  // ---- The plain dict of a pending row --------------------------------------------

  // The record a row stands for: brand, vendor and tags are not columns and come back blank.
  function RecordOf(rid: string, row: ReceivingRow): Record {
    Record(row.truck, row.stop, row.salesOrder, row.modelNumber, row.productCategory, row.productSize,
           row.quantity, rid, row.timestamp, row.matchStatus, row.purchaseOrder, row.inventoryId,
           row.serial, "", "", "")
  }

  // `SELECT *`: the record's fields that are columns, and the flag.
  function RowDict(rid: string, row: ReceivingRow): Dict {
    (ToDict(RecordOf(rid, row)) - {Brand, Vendor, Tags})[Emitted := PyInt(if row.emitted then 1 else 0)]
  }

  lemma RowDictFields(rid: string, row: ReceivingRow)
    ensures var d, e := ToDict(RecordOf(rid, row)), RowDict(rid, row);
            && (forall k :: k in d && k !in OPTIONAL_STR_FIELDS ==> k in e && e[k] == d[k])
            && (forall k :: k in e && k in OPTIONAL_STR_FIELDS ==> k in d && e[k] == d[k])
            && TextOr(e, Serial) == row.serial
            && Brand !in e && Vendor !in e && Tags !in e
  {
    assert Serial in ToDict(RecordOf(rid, row));
    assert Emitted !in ToDict(RecordOf(rid, row));
    assert Brand == OPTIONAL_STR_FIELDS[1] && Vendor == OPTIONAL_STR_FIELDS[2] && Tags == OPTIONAL_STR_FIELDS[3];
    assert OPTIONAL_STR_FIELDS[0] == Serial;
  }

  // Replay: reading a row back through from_dict gives its record, or an error exactly when the
  // record is not valid.
  lemma ReplayReadsRow(iso: string -> bool, rid: string, row: ReceivingRow)
    ensures FromDict(iso, RowDict(rid, row))
         == if ValidRecord(iso, RecordOf(rid, row)) then Ok(RecordOf(rid, row)) else Err(ValidationError)
  {
    var d := ToDict(RecordOf(rid, row));
    assert Carries(d, RecordOf(rid, row));
    RowDictFields(rid, row);
    CarriesWithoutOptionals(d, RowDict(rid, row), RecordOf(rid, row));
    FromDictRecovers(iso, RowDict(rid, row), RecordOf(rid, row));
  }

  // Save, select the pending row and parse it: the same record but for the three blanked fields.
  lemma ReplayRoundTrip(iso: string -> bool, items: Receipts, r: Record)
    ensures r.receivingId in SaveRow(items, r)
    ensures FromDict(iso, RowDict(r.receivingId, SaveRow(items, r)[r.receivingId]))
         == if ValidRecord(iso, r) then Ok(r.(brand := "", vendor := "", tags := "")) else Err(ValidationError)
  {
    ReplayReadsRow(iso, r.receivingId, SaveRow(items, r)[r.receivingId]);
  }
}
