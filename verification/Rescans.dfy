/** services/receive.py: what a scan leaves, field by field, and when one is answered as a duplicate. */
module Rescans {
  import opened Wrappers
  import opened Schema
  import opened Tables
  import opened Matching
  import opened ScanRecords
  import opened Sink
  import opened Receive
  import opened Sessions

  // ---- One scan, field by field ---------------------------------------------------------------------

  // The result of a scan that returns. A received one names the row it took, on the scanned PO, of a model
  // its text matches; a no-match one carries the text for a model and no row.
  lemma ReturnTells(pre: World, e: Event)
    requires Keyed(pre.inventory) && Follows(pre, e) && e.result.Ok?
    ensures var r := e.result.value;
            && r.matchStatus in {"received", "no_match", "already_scanned"}
            && r.purchaseOrder == e.scan.po && r.serial == e.scan.serial && r.timestamp == e.scan.now
            && (r.matchStatus == "received" ==>
                  && r.inventoryId in pre.inventory && pre.inventory[r.inventoryId].purchaseOrder == e.scan.po
                  && pre.inventory[r.inventoryId].claimedAt == None
                  && r.modelNumber == pre.inventory[r.inventoryId].modelNumber
                  && ExactModelMatch(e.scan.text, r.modelNumber)
                  && r.brand == OrBlank(pre.inventory[r.inventoryId].brand)
                  && r.vendor == OrBlank(pre.inventory[r.inventoryId].vendor)
                  && r.tags == OrBlank(pre.inventory[r.inventoryId].tags)
                  && r.quantity == 1
                  && r.receivingId == MakeReceivingId(e.scan.po, r.inventoryId, e.scan.text))
            && (r.matchStatus == "no_match" ==>
                  && r.receivingId == MakeReceivingId(e.scan.po, "", e.scan.text)
                  && r.inventoryId == "" && r.modelNumber == e.scan.text && r.quantity == 1
                  && r.brand == "" && r.vendor == "" && r.tags == "")
            && (r.matchStatus != "already_scanned" ==>
                  && r.truck == "" && r.stop == "" && r.salesOrder == "" && r.productCategory == ""
                  && r.productSize == map[W := PyInt(0), D := PyInt(0), H := PyInt(0)])
  {
    if e.matched.Some? {
      assert pre.inventory[e.matched.value.inventoryId] == e.matched.value;
    }
  }

  // The answer to a duplicate, field by field: the receipt's own id, the model, brand, vendor and tags of the
  // row it names, the rest from the receipt, and the PO, serial and time of this scan.
  lemma AnswerTells(pre: World, e: Event)
    requires Keyed(pre.inventory) && Follows(pre, e) && e.result.Ok? && e.result.value.matchStatus == "already_scanned"
    ensures var r := e.result.value;
            && r.receivingId in pre.items && r.inventoryId in pre.inventory
            && var item, row := pre.items[r.receivingId], pre.inventory[r.inventoryId];
               && item.matchStatus == "received" && item.purchaseOrder == e.scan.po && item.serial == e.scan.serial
               && item.inventoryId == r.inventoryId
               && r.modelNumber == row.modelNumber && r.brand == OrBlank(row.brand)
               && r.vendor == OrBlank(row.vendor) && r.tags == OrBlank(row.tags)
               && r.truck == item.truck && r.stop == item.stop && r.salesOrder == item.salesOrder
               && r.productCategory == item.productCategory && r.productSize == item.productSize
               && r.quantity == item.quantity
               && r.purchaseOrder == e.scan.po && r.serial == e.scan.serial && r.timestamp == e.scan.now
  {
    AlreadyScannedIff(pre, e);
  }

  // The row a returning scan stores under its receiving id, and the claim it leaves.
  lemma StoredTells(pre: World, e: Event)
    requires Keyed(pre.inventory) && Follows(pre, e) && e.result.Ok? && e.result.value.matchStatus != "already_scanned"
    ensures var r, rid := e.result.value, e.result.value.receivingId;
            && rid in e.after.items
            && e.after.items[rid].matchStatus == r.matchStatus && e.after.items[rid].purchaseOrder == e.scan.po
            && e.after.items[rid].serial == e.scan.serial && e.after.items[rid].timestamp == e.scan.now
            && e.after.items[rid].inventoryId == r.inventoryId && e.after.items[rid].modelNumber == r.modelNumber
            && e.after.items[rid].quantity == 1 && e.after.items[rid].emitted
            && (forall other :: other in pre.items && other != rid ==>
                  other in e.after.items && e.after.items[other] == pre.items[other])
            && (r.matchStatus == "received" ==>
                  r.inventoryId in e.after.inventory && e.after.inventory[r.inventoryId].claimedAt == Some(e.scan.now))
            && (forall i :: i in pre.inventory && !(r.matchStatus == "received" && i == r.inventoryId) ==>
                  i in e.after.inventory && e.after.inventory[i] == pre.inventory[i])
  {
    if e.matched.Some? {
      assert pre.inventory[e.matched.value.inventoryId] == e.matched.value;
    }
  }

  // The item it creates, if it creates one: READY in the ready group for a received unit, NO MATCH in the
  // no-match group for any other.
  lemma PostedTells(pre: World, e: Event)
    requires Keyed(pre.inventory) && Follows(pre, e) && e.result.Ok? && e.after.board != pre.board
    ensures |e.after.board| == |pre.board| + 1 && e.after.board[..|pre.board|] == pre.board
    ensures var r, item := e.result.value, e.after.board[|pre.board|];
            && item.receivingId == r.receivingId && item.purchaseOrder == e.scan.po && item.serial == e.scan.serial
            && item.inventoryId == r.inventoryId && item.modelNumber == r.modelNumber
            && (r.matchStatus == "received" ==> item.group == Ready && item.statusLabel == "READY")
            && (r.matchStatus != "received" ==> item.group == NoMatchGroup && item.statusLabel == "NO MATCH")
  {
  }

  // ---- Where a duplicate's receipt comes from ------------------------------------------------------------

  // Event j took a slot on this PO for this serial.
  ghost predicate TookFor(start: World, es: seq<Event>, j: nat, po: string, serial: string)
    requires j < |es|
  {
    TookAt(start, es, j) && es[j].scan.po == po && es[j].scan.serial == serial
  }

  // Event j of the session stored this row.
  ghost predicate Origin(start: World, es: seq<Event>, j: nat, rid: string, row: ReceivingRow)
    requires j < |es|
  {
    && TookFor(start, es, j, row.purchaseOrder, row.serial)
    && RecordFor(es[j].scan, es[j].matched).receivingId == rid
    && es[j].matched.value.inventoryId == row.inventoryId
  }

  lemma OriginLater(start: World, es: seq<Event>, j: nat, rid: string, row: ReceivingRow)
    requires es != [] && j < |es| - 1 && Origin(start, es[..|es| - 1], j, rid, row)
    ensures Origin(start, es, j, rid, row)
  {
    assert es[..|es| - 1][..j] == es[..j];
  }

  lemma NewRowIsTaken(pre: World, e: Event, rid: string)
    requires Keyed(pre.inventory) && Follows(pre, e) && rid in e.after.items
    requires e.after.items[rid].matchStatus == "received"
    ensures || (rid in pre.items && e.after.items[rid].(emitted := true) == pre.items[rid].(emitted := true))
            || (Took(pre, e) && RecordFor(e.scan, e.matched).receivingId == rid
                && e.after.items[rid].purchaseOrder == e.scan.po && e.after.items[rid].serial == e.scan.serial
                && e.after.items[rid].inventoryId == e.matched.value.inventoryId)
  {
    if e.matched.Some? && e.matched.value in Unclaimed(pre.inventory, e.scan.po) {
      ClaimTakesOne(pre.inventory, e.matched.value, e.scan.now, e.scan.po);
    }
  }

  // Over a session that starts with no receipts every received row was stored by an event that took its
  // slot, on the row's PO and for its serial.
  lemma {:induction false} ReceivedRowHasOrigin(start: World, es: seq<Event>, rid: string) returns (j: nat)
    requires Keyed(start.inventory) && Session(start, es) && start.items == map[]
    requires rid in End(start, es).items && End(start, es).items[rid].matchStatus == "received"
    ensures j < |es| && Origin(start, es, j, rid, End(start, es).items[rid])
  {
    var n := |es| - 1;
    var init, e := es[..n], es[n];
    SessionKeepsKeys(start, init);
    NewRowIsTaken(End(start, init), e, rid);
    var pre := End(start, init);
    if rid in pre.items && e.after.items[rid].(emitted := true) == pre.items[rid].(emitted := true) {
      j := ReceivedRowHasOrigin(start, init, rid);
      OriginLater(start, es, j, rid, pre.items[rid]);
    } else {
      j := n;
    }
  }

  // ---- Answered as a duplicate -----------------------------------------------------------------------------

  ghost predicate HasReceipt(start: World, es: seq<Event>, po: string, serial: string) {
    exists j: nat :: j < |es| && TookFor(start, es, j, po, serial) && !Overwritten(start, es, j)
  }

  lemma SerialIffReceipt(start: World, es: seq<Event>, po: string, serial: string)
    requires Keyed(start.inventory) && Session(start, es) && start.items == map[]
    ensures (exists rid :: HasSerial(End(start, es).inventory, End(start, es).items, po, serial, rid))
       <==> HasReceipt(start, es, po, serial)
  {
    var w := End(start, es);
    if rid :| HasSerial(w.inventory, w.items, po, serial, rid) {
      var j := ReceivedRowHasOrigin(start, es, rid);
      ReceiptStaysIff(start, es, j);
      assert TookFor(start, es, j, po, serial) && !Overwritten(start, es, j);
    }
    if j: nat :| j < |es| && TookFor(start, es, j, po, serial) && !Overwritten(start, es, j) {
      ReceiptStaysIff(start, es, j);
      assert HasSerial(w.inventory, w.items, po, serial, RecordFor(es[j].scan, es[j].matched).receivingId);
    }
  }

  // Over any session that starts with no receipts, a scan that returns is answered already_scanned exactly
  // when no model of its PO binds its text and some earlier scan took a slot of that PO for the same
  // non-blank serial, with a receipt no later scan has overwritten.
  lemma AnsweredIff(start: World, es: seq<Event>, e: Event)
    requires Keyed(start.inventory) && Session(start, es + [e]) && start.items == map[] && e.result.Ok?
    ensures e.result.value.matchStatus == "already_scanned"
       <==> (forall m :: !Binds(End(start, es).inventory, e.scan, m)) && e.scan.serial != ""
            && HasReceipt(start, es, e.scan.po, e.scan.serial)
  {
    assert (es + [e])[..|es|] == es;
    AlreadyScannedIff(End(start, es), e);
    SerialIffReceipt(start, es, e.scan.po, e.scan.serial);
  }

  // The answer names such an earlier scan: its receiving id, its row and its model.
  lemma AnswerNamesEarlier(start: World, es: seq<Event>, e: Event) returns (j: nat)
    requires Keyed(start.inventory) && Session(start, es + [e]) && start.items == map[] && e.result.Ok?
    requires e.result.value.matchStatus == "already_scanned"
    ensures j < |es| && TookAt(start, es, j) && es[j].scan.po == e.scan.po && es[j].scan.serial == e.scan.serial
    ensures e.result.value.receivingId == RecordFor(es[j].scan, es[j].matched).receivingId
    ensures e.result.value.inventoryId == es[j].matched.value.inventoryId
    ensures es[j].result.Ok? ==> es[j].result.value.matchStatus == "received"
    ensures e.after == End(start, es)
  {
    assert (es + [e])[..|es|] == es;
    var w := End(start, es);
    AlreadyScannedIff(w, e);
    SessionKeepsKeys(start, es);
    var rid := e.result.value.receivingId;
    j := ReceivedRowHasOrigin(start, es, rid);
    SessionPrefix(start, es, j + 1);
    assert es[..j + 1][..j] == es[..j];
    SessionKeepsKeys(start, es[..j]);
    if es[j].result.Ok? {
      ReceivedIffTook(End(start, es[..j]), es[j]);
    }
    assert w.items[rid].inventoryId in w.inventory;
  }

  // So a serial that was received on other POs only is no duplicate: if no model binds the text, the scan
  // saves a no-match record under its own PO and claims nothing.
  lemma OtherPoIsNoMatch(start: World, es: seq<Event>, e: Event)
    requires Keyed(start.inventory) && Session(start, es + [e]) && start.items == map[] && e.result.Ok?
    requires forall m :: !Binds(End(start, es).inventory, e.scan, m)
    requires forall j: nat :: j < |es| && TookAt(start, es, j) && es[j].scan.serial == e.scan.serial ==>
               es[j].scan.po != e.scan.po
    ensures e.result.value.matchStatus == "no_match"
    ensures var rid := e.result.value.receivingId;
            && rid in e.after.items && e.after.items[rid].matchStatus == "no_match"
            && e.after.items[rid].purchaseOrder == e.scan.po && e.after.items[rid].serial == e.scan.serial
    ensures e.after.inventory == End(start, es).inventory
  {
    assert (es + [e])[..|es|] == es;
    AnsweredIff(start, es, e);
    SessionKeepsKeys(start, es);
    assert !HasReceipt(start, es, e.scan.po, e.scan.serial);
    ReturnTells(End(start, es), e);
    StoredTells(End(start, es), e);
  }
}
