/** services/receive.py: receiving ids and the records a scan builds. */
module ScanRecords {
  import opened Wrappers
  import opened Schema
  import opened Tables

  // Stands for the hex SHA-256 of a text. Only two facts about it are used: it never collides and
  // is never blank.
  function Sha256Hex(text: string): (digest: string)
    ensures !Blank(digest)
  {
    var d := "#" + text;
    assert d[0] == '#';
    d
  }

  // The three parts are hashed with no separator between them.
  function MakeReceivingId(po: string, inventoryId: string, barcode: string): string {
    Sha256Hex(po + inventoryId + barcode)
  }

  function KeyText(po: string, inventoryId: string, barcode: string): string {
    po + inventoryId + barcode
  }

  lemma IdsCollideIff(po1: string, i1: string, b1: string, po2: string, i2: string, b2: string)
    ensures MakeReceivingId(po1, i1, b1) == MakeReceivingId(po2, i2, b2)
       <==> po1 + i1 + b1 == po2 + i2 + b2
  {
    assert Sha256Hex(KeyText(po1, i1, b1))[1..] == KeyText(po1, i1, b1);
    assert Sha256Hex(KeyText(po2, i2, b2))[1..] == KeyText(po2, i2, b2);
  }

  // Within one PO, two scans share an id exactly when the shorter inventory id is a prefix of the
  // longer and the scanned texts make up the difference.
  lemma SamePoCollisionIff(po: string, i1: string, b1: string, i2: string, b2: string)
    requires |i1| <= |i2|
    ensures MakeReceivingId(po, i1, b1) == MakeReceivingId(po, i2, b2)
       <==> i1 <= i2 && b1 == i2[|i1|..] + b2
  {
    IdsCollideIff(po, i1, b1, po, i2, b2);
    var t1, t2 := KeyText(po, i1, b1), KeyText(po, i2, b2);
    if t1 == t2 {
      assert i1 + b1 == t1[|po|..] == t2[|po|..] == i2 + b2;
      assert i1 == (i1 + b1)[..|i1|] == (i2 + b2)[..|i1|] == i2[..|i1|];
      assert b1 == (i1 + b1)[|i1|..] == (i2 + b2)[|i1|..] == i2[|i1|..] + b2;
    }
  }

  // So a scan matched to no row (empty inventory id) shares the id of a received one exactly when
  // its text is that unit's inventory id followed by that unit's text.
  lemma NoMatchCollisionIff(po: string, typed: string, i: string, barcode: string)
    ensures MakeReceivingId(po, "", typed) == MakeReceivingId(po, i, barcode) <==> typed == i + barcode
  {
    SamePoCollisionIff(po, "", typed, i, barcode);
    assert i[0..] == i;
  }

  // With PO numbers of one length and inventory ids none of which is a proper prefix of another,
  // the id determines all three parts.
  lemma IdsSeparate(po1: string, i1: string, b1: string, po2: string, i2: string, b2: string)
    requires |po1| == |po2|
    requires i1 <= i2 || i2 <= i1 ==> i1 == i2
    requires MakeReceivingId(po1, i1, b1) == MakeReceivingId(po2, i2, b2)
    ensures po1 == po2 && i1 == i2 && b1 == b2
  {
    IdsCollideIff(po1, i1, b1, po2, i2, b2);
    var t1, t2 := KeyText(po1, i1, b1), KeyText(po2, i2, b2);
    assert po1 == t1[..|po1|] == t2[..|po2|] == po2;
    if |i1| <= |i2| {
      SamePoCollisionIff(po1, i1, b1, i2, b2);
      assert i2[|i1|..] + b2 == b2;
    } else {
      SamePoCollisionIff(po1, i2, b2, i1, b1);
    }
  }

  // ---- Records ------------------------------------------------------------------

  const NO_SIZE: Dict := map[W := PyInt(0), D := PyInt(0), H := PyInt(0)]

  function OrBlank(o: Option<string>): string {
    match o
    case None => ""
    case Some(s) => s
  }

  // A catalog row has no truck, stop, sales order, category, size or quantity: the defaults stand.
  function BuildRecord(matched: Option<InventoryRow>, po: string, rid: string, serial: string,
                       scanned: string, now: string): Record
  {
    match matched
    case None =>
      Record("", "", "", scanned, "", NO_SIZE, 1, rid, now, "no_match", po, "", serial, "", "", "")
    case Some(row) =>
      Record("", "", "", row.modelNumber, "", NO_SIZE, 1, rid, now, "received", po, row.inventoryId, serial,
             OrBlank(row.brand), OrBlank(row.vendor), OrBlank(row.tags))
  }

  function IdOf(matched: Option<InventoryRow>): string {
    match matched
    case None => ""
    case Some(row) => row.inventoryId
  }

  function ScanRecord(matched: Option<InventoryRow>, po: string, serial: string, scanned: string, now: string): Record {
    BuildRecord(matched, po, MakeReceivingId(po, IdOf(matched), scanned), serial, scanned, now)
  }

  function AlreadyScannedRecord(po: string, row: InventoryRow, rid: string, item: ReceivingRow, serial: string,
                                now: string): Record
  {
    Record(item.truck, item.stop, item.salesOrder, row.modelNumber, item.productCategory, item.productSize,
           item.quantity, rid, now, "already_scanned", po, row.inventoryId, serial,
           OrBlank(row.brand), OrBlank(row.vendor), OrBlank(row.tags))
  }

  // The records process_scan builds never fail validation, so from_dict never raises there.
  lemma ScanRecordIsValid(iso: string -> bool, matched: Option<InventoryRow>, po: string, serial: string,
                          scanned: string, now: string)
    requires iso(now)
    ensures FromDict(iso, ToDict(ScanRecord(matched, po, serial, scanned, now)))
         == Ok(ScanRecord(matched, po, serial, scanned, now))
  {
    var r := ScanRecord(matched, po, serial, scanned, now);
    assert ValidRecord(iso, r) by {
      forall dim | dim in DIMENSIONS ensures DimensionOk(dim, r.productSize) {}
    }
    DictRoundTrip(iso, r);
  }
}
