/** Consequences of services/receive.py for any session of scans by one scanner between refreshes. */
module Sessions {
  import opened Wrappers
  import opened Schema
  import opened Tables
  import opened Matching
  import opened ScanRecords
  import opened Sink
  import opened Receive

  // One call of process_scan, the world it leaves and its result.
  datatype Event = Event(scan: Scan, matched: Option<InventoryRow>, after: World, result: Result<Record, Raised>)

  function End(start: World, es: seq<Event>): World {
    if es == [] then start else es[|es| - 1].after
  }

  ghost predicate Follows(pre: World, e: Event) {
    ScanStep(pre, e.scan, e.matched, e.after, e.result)
  }

  ghost predicate Session(start: World, es: seq<Event>) {
    es == [] || (Session(start, es[..|es| - 1]) && Follows(End(start, es[..|es| - 1]), es[|es| - 1]))
  }

  predicate IsReceived(e: Event) {
    e.result.Ok? && e.result.value.matchStatus == "received"
  }

  // The scan took a slot, whether or not it went on to return.
  predicate Took(pre: World, e: Event) {
    e.matched.Some? && e.after.inventory != pre.inventory
  }

  predicate TookAt(start: World, es: seq<Event>, k: nat)
    requires k < |es|
  {
    Took(End(start, es[..k]), es[k])
  }

  // ---- One slot at a time -----------------------------------------------------------

  lemma ClaimTakesOne(inventory: Inventory, row: InventoryRow, at: string, po: string)
    requires Keyed(inventory) && row in Unclaimed(inventory, row.purchaseOrder)
    ensures var post := ClaimRow(inventory, row.inventoryId, at);
            && Keyed(post)
            && Unclaimed(post, po) == Unclaimed(inventory, po) - {row}
            && post != inventory
            && post.Keys == inventory.Keys
            && ClaimOf(post, row.inventoryId) == Some(at)
            && (forall i :: ClaimOf(inventory, i).Some? ==> ClaimOf(post, i) == ClaimOf(inventory, i))
            && (forall i :: i in inventory && i != row.inventoryId ==> post[i] == inventory[i])
  {
    var post := ClaimRow(inventory, row.inventoryId, at);
    assert inventory[row.inventoryId] == row;
    assert post[row.inventoryId] != inventory[row.inventoryId];
    forall r ensures r in Unclaimed(post, po) <==> r in Unclaimed(inventory, po) - {row} {
      if r in Unclaimed(post, po) {
        assert post[r.inventoryId] == inventory[r.inventoryId];
      }
      if r in Unclaimed(inventory, po) && r != row {
        assert r.inventoryId != row.inventoryId;
        assert post[r.inventoryId] == r;
      }
    }
  }

  // What any scan, interrupted or not, does to the slots.
  lemma StepTakesAtMostOne(pre: World, e: Event)
    requires Keyed(pre.inventory) && Follows(pre, e)
    ensures Keyed(e.after.inventory)
    ensures Took(pre, e) ==>
              && e.matched.value in Unclaimed(pre.inventory, e.scan.po)
              && Binds(pre.inventory, e.scan, e.matched.value.modelNumber)
              && ClaimOf(e.after.inventory, e.matched.value.inventoryId).Some?
              && forall po :: Unclaimed(e.after.inventory, po) == Unclaimed(pre.inventory, po) - {e.matched.value}
    ensures !Took(pre, e) ==> e.after.inventory == pre.inventory
    ensures e.after.inventory.Keys == pre.inventory.Keys
    ensures forall i :: ClaimOf(pre.inventory, i).Some? ==> ClaimOf(e.after.inventory, i) == ClaimOf(pre.inventory, i)
  {
    if e.matched.Some? && e.matched.value in Unclaimed(pre.inventory, e.scan.po) {
      forall po
        ensures Unclaimed(ClaimRow(pre.inventory, e.matched.value.inventoryId, e.scan.now), po)
             == Unclaimed(pre.inventory, po) - {e.matched.value}
      {
        ClaimTakesOne(pre.inventory, e.matched.value, e.scan.now, po);
      }
      ClaimTakesOne(pre.inventory, e.matched.value, e.scan.now, e.scan.po);
    }
  }

  // A scan that returns is received exactly when it took a slot, and names that slot.
  lemma ReceivedIffTook(pre: World, e: Event)
    requires Keyed(pre.inventory) && Follows(pre, e) && e.result.Ok?
    ensures IsReceived(e) <==> Took(pre, e)
    ensures IsReceived(e) ==> e.result.value.inventoryId == e.matched.value.inventoryId
                              && e.result.value.modelNumber == e.matched.value.modelNumber
  {
    if e.matched.Some? {
      ClaimTakesOne(pre.inventory, e.matched.value, e.scan.now, e.scan.po);
    }
  }

  // ---- Conservation over a session ----------------------------------------------------

  function TakenOn(start: World, es: seq<Event>, po: string): nat {
    if es == [] then 0
    else TakenOn(start, es[..|es| - 1], po)
         + if Took(End(start, es[..|es| - 1]), es[|es| - 1]) && es[|es| - 1].scan.po == po then 1 else 0
  }

  lemma {:induction false} SessionKeepsKeys(start: World, es: seq<Event>)
    requires Keyed(start.inventory) && Session(start, es)
    ensures Keyed(End(start, es).inventory)
    ensures End(start, es).inventory.Keys == start.inventory.Keys
    ensures forall i :: ClaimOf(start.inventory, i).Some? ==>
              ClaimOf(End(start, es).inventory, i) == ClaimOf(start.inventory, i)
  {
    if es != [] {
      SessionKeepsKeys(start, es[..|es| - 1]);
      StepTakesAtMostOne(End(start, es[..|es| - 1]), es[|es| - 1]);
    }
  }

  // The free slots of a PO fall by exactly the number of scans on it that took one.
  lemma {:induction false} SlotsAreConserved(start: World, es: seq<Event>, po: string)
    requires Keyed(start.inventory) && Session(start, es)
    ensures |Unclaimed(start.inventory, po)| == |Unclaimed(End(start, es).inventory, po)| + TakenOn(start, es, po)
  {
    if es != [] {
      var init, e := es[..|es| - 1], es[|es| - 1];
      var pre := End(start, init);
      SlotsAreConserved(start, init, po);
      SessionKeepsKeys(start, init);
      StepTakesAtMostOne(pre, e);
      if Took(pre, e) {
        assert e.matched.value in Unclaimed(pre.inventory, po) <==> e.scan.po == po;
      }
    }
  }

  function ReceivedOn(es: seq<Event>, po: string): nat {
    if es == [] then 0
    else ReceivedOn(es[..|es| - 1], po) + if IsReceived(es[|es| - 1]) && es[|es| - 1].scan.po == po then 1 else 0
  }

  // When every scan returns, the free slots fall by exactly the number of received results.
  lemma {:induction false} ReceivedEqualsSlotsUsed(start: World, es: seq<Event>, po: string)
    requires Keyed(start.inventory) && Session(start, es)
    requires forall k :: 0 <= k < |es| ==> es[k].result.Ok?
    ensures |Unclaimed(start.inventory, po)| - |Unclaimed(End(start, es).inventory, po)| == ReceivedOn(es, po)
    ensures TakenOn(start, es, po) == ReceivedOn(es, po)
  {
    SlotsAreConserved(start, es, po);
    if es != [] {
      ReceivedEqualsSlotsUsed(start, es[..|es| - 1], po);
      SessionKeepsKeys(start, es[..|es| - 1]);
      ReceivedIffTook(End(start, es[..|es| - 1]), es[|es| - 1]);
    }
  }

  lemma {:induction false} TakenStayTaken(start: World, es: seq<Event>, k: nat)
    requires Keyed(start.inventory) && Session(start, es) && k < |es| && TookAt(start, es, k)
    ensures ClaimOf(End(start, es).inventory, es[k].matched.value.inventoryId).Some?
  {
    var init := es[..|es| - 1];
    SessionKeepsKeys(start, init);
    StepTakesAtMostOne(End(start, init), es[|es| - 1]);
    if k < |es| - 1 {
      assert init[..k] == es[..k];
      TakenStayTaken(start, init, k);
    }
  }

  lemma {:induction false} SessionPrefix(start: World, es: seq<Event>, k: nat)
    requires Session(start, es) && k <= |es|
    ensures Session(start, es[..k])
  {
    if k < |es| {
      SessionPrefix(start, es[..|es| - 1], k);
      assert es[..|es| - 1][..k] == es[..k];
    } else {
      assert es[..k] == es;
    }
  }

  // No slot is taken twice.
  lemma SlotsAreTakenOnce(start: World, es: seq<Event>, j: nat, k: nat)
    requires Keyed(start.inventory) && Session(start, es)
    requires j < k < |es| && TookAt(start, es, j) && TookAt(start, es, k)
    ensures es[j].matched.value.inventoryId != es[k].matched.value.inventoryId
  {
    SessionPrefix(start, es, k);
    assert es[..k][..j] == es[..j];
    TakenStayTaken(start, es[..k], j);
    SessionPrefix(start, es, k + 1);
    assert es[..k + 1][..k] == es[..k];
    SessionKeepsKeys(start, es[..k]);
    StepTakesAtMostOne(End(start, es[..k]), es[k]);
  }

  // ---- N slots give N received results ------------------------------------------------

  function FreeOf(inventory: Inventory, po: string, m: string): set<InventoryRow> {
    set r | r in Unclaimed(inventory, po) && r.modelNumber == m
  }

  // No other unclaimed model of the PO shares the key of `m`.
  ghost predicate KeyIsUnique(inventory: Inventory, po: string, m: string) {
    && NormalizeKey(m) != ""
    && forall r :: r in Unclaimed(inventory, po) && NormalizeKey(r.modelNumber) == NormalizeKey(m) ==>
                     r.modelNumber == m
  }

  function TakenOf(start: World, es: seq<Event>, po: string, m: string): nat {
    if es == [] then 0
    else TakenOf(start, es[..|es| - 1], po, m)
         + if Took(End(start, es[..|es| - 1]), es[|es| - 1]) && es[|es| - 1].scan.po == po
              && es[|es| - 1].matched.value.modelNumber == m then 1 else 0
  }

  lemma {:induction false} ModelSlotsAreConserved(start: World, es: seq<Event>, po: string, m: string)
    requires Keyed(start.inventory) && Session(start, es)
    ensures |FreeOf(start.inventory, po, m)| == |FreeOf(End(start, es).inventory, po, m)| + TakenOf(start, es, po, m)
    ensures KeyIsUnique(start.inventory, po, m) ==> KeyIsUnique(End(start, es).inventory, po, m)
  {
    if es != [] {
      var init, e := es[..|es| - 1], es[|es| - 1];
      var pre := End(start, init);
      ModelSlotsAreConserved(start, init, po, m);
      SessionKeepsKeys(start, init);
      StepTakesAtMostOne(pre, e);
      if Took(pre, e) {
        var row := e.matched.value;
        assert FreeOf(e.after.inventory, po, m) == FreeOf(pre.inventory, po, m) - {row};
        assert row in FreeOf(pre.inventory, po, m) <==> e.scan.po == po && row.modelNumber == m;
      }
    }
  }

  // Whatever else the session scanned, a scan of `m` is received as `m` exactly while fewer slots of
  // `m` have been taken than there were.
  lemma ReceivedWhileSlotsRemain(start: World, es: seq<Event>, e: Event, m: string)
    requires Keyed(start.inventory) && Session(start, es + [e]) && e.result.Ok?
    requires KeyIsUnique(start.inventory, e.scan.po, m) && NormalizeKey(e.scan.text) == NormalizeKey(m)
    ensures IsReceived(e) <==> TakenOf(start, es, e.scan.po, m) < |FreeOf(start.inventory, e.scan.po, m)|
    ensures IsReceived(e) ==> e.result.value.modelNumber == m
  {
    assert (es + [e])[..|es|] == es;
    var pre := End(start, es);
    ModelSlotsAreConserved(start, es, e.scan.po, m);
    SessionKeepsKeys(start, es);
    ReceivedIffTook(pre, e);
    StepTakesAtMostOne(pre, e);
    var free := FreeOf(pre.inventory, e.scan.po, m);
    assert forall r :: r in Unclaimed(pre.inventory, e.scan.po) && ExactModelMatch(e.scan.text, r.modelNumber)
                       ==> r in free;
    if free != {} {
      var r :| r in free;
      assert r in Unclaimed(pre.inventory, e.scan.po) && ExactModelMatch(e.scan.text, r.modelNumber);
      assert Binds(pre.inventory, e.scan, m);
    } else {
      assert |free| == 0;
    }
  }

  // Scanning one model with a unique key over and over: the first N scans are received, none after.
  lemma {:induction false} FirstNAreReceived(start: World, es: seq<Event>, po: string, m: string)
    requires Keyed(start.inventory) && Session(start, es) && KeyIsUnique(start.inventory, po, m)
    requires forall k :: 0 <= k < |es| ==>
               es[k].result.Ok? && es[k].scan.po == po && NormalizeKey(es[k].scan.text) == NormalizeKey(m)
    ensures forall k :: 0 <= k < |es| ==> (IsReceived(es[k]) <==> k < |FreeOf(start.inventory, po, m)|)
    ensures TakenOf(start, es, po, m) == if |es| < |FreeOf(start.inventory, po, m)| then |es|
                                          else |FreeOf(start.inventory, po, m)|
  {
    if es != [] {
      var init, e := es[..|es| - 1], es[|es| - 1];
      assert es == init + [e];
      forall k | 0 <= k < |init| ensures init[k] == es[k] {}
      FirstNAreReceived(start, init, po, m);
      ReceivedWhileSlotsRemain(start, init, e, m);
      SessionKeepsKeys(start, init);
      ReceivedIffTook(End(start, init), e);
    }
  }

  // ---- Re-scans -----------------------------------------------------------------------

  // A scan that returns answers `already_scanned` exactly when no model binds it and a received row
  // of the PO has its non-blank serial; it then changes nothing.
  lemma AlreadyScannedIff(pre: World, e: Event)
    requires Follows(pre, e) && e.result.Ok?
    ensures e.result.value.matchStatus == "already_scanned" <==>
              && (forall m :: !Binds(pre.inventory, e.scan, m))
              && e.scan.serial != ""
              && exists rid :: HasSerial(pre.inventory, pre.items, e.scan.po, e.scan.serial, rid)
    ensures e.result.value.matchStatus == "already_scanned" ==>
              e.after == pre
              && HasSerial(pre.inventory, pre.items, e.scan.po, e.scan.serial, e.result.value.receivingId)
  {
    if e.matched.Some? {
      assert Binds(pre.inventory, e.scan, e.matched.value.modelNumber);
    }
  }

  // What a receiving id was made from; a scan matched to no row has none.
  datatype ScanKey = ScanKey(po: string, inventoryId: Option<string>, text: string)

  function TextOf(k: ScanKey): string {
    KeyText(k.po, OrBlank(k.inventoryId), k.text)
  }

  function KeyOf(e: Event): ScanKey {
    ScanKey(e.scan.po, match e.matched case None => None case Some(row) => Some(row.inventoryId), e.scan.text)
  }

  // Different scans are hashed from different texts.
  predicate Apart(a: ScanKey, b: ScanKey) {
    TextOf(a) == TextOf(b) ==> a == b
  }

  lemma SameIdIff(e: Event, f: Event)
    ensures RecordFor(e.scan, e.matched).receivingId == RecordFor(f.scan, f.matched).receivingId
       <==> TextOf(KeyOf(e)) == TextOf(KeyOf(f))
  {
    IdsCollideIff(e.scan.po, IdOf(e.matched), e.scan.text, f.scan.po, IdOf(f.matched), f.scan.text);
  }

  // A receipt is stored under the id its scan made, as received for the slot it took.
  ghost predicate Stored(w: World, e: Event) {
    e.matched.Some?
    && var rec := RecordFor(e.scan, e.matched);
       && HasSerial(w.inventory, w.items, e.scan.po, e.scan.serial, rec.receivingId)
       && w.items[rec.receivingId].inventoryId == e.matched.value.inventoryId
       && ClaimOf(w.inventory, e.matched.value.inventoryId).Some?
  }

  // A later scan, interrupted or not, keeps a stored receipt exactly when it is hashed from another
  // text or commits nothing. One that returns commits unless it is a re-scan.
  lemma ReceiptSurvivesIff(pre: World, f: Event, e: Event)
    requires Keyed(pre.inventory) && Follows(pre, f) && Stored(pre, e)
    ensures Stored(f.after, e) <==> TextOf(KeyOf(e)) != TextOf(KeyOf(f)) || f.after.items == pre.items
    ensures f.result.Ok? && !IsRescan(pre, f.scan, f.matched) ==>
              (Stored(f.after, e) <==> TextOf(KeyOf(e)) != TextOf(KeyOf(f)))
  {
    StepTakesAtMostOne(pre, f);
    SameIdIff(e, f);
    if f.after.items != pre.items || (f.result.Ok? && !IsRescan(pre, f.scan, f.matched)) {
      ClaimedIsNotChosen(pre, f, e.matched.value.inventoryId);
    }
  }

  // A committing scan takes no row that is claimed already.
  lemma ClaimedIsNotChosen(pre: World, f: Event, i: string)
    requires Keyed(pre.inventory) && Follows(pre, f) && ClaimOf(pre.inventory, i).Some?
    requires f.after.items != pre.items || (f.result.Ok? && !IsRescan(pre, f.scan, f.matched))
    ensures f.matched.Some? ==> f.matched.value.inventoryId != i
    ensures var rec := RecordFor(f.scan, f.matched);
            && rec.receivingId in f.after.items
            && f.after.items[rec.receivingId].(emitted := true) == RowOf(rec, true)
  {
    if f.matched.Some? {
      assert f.matched.value in Unclaimed(pre.inventory, f.scan.po);
    }
  }

  // When the texts do coincide, a committing scan overwrites the receipt of a unit: the unit stays
  // claimed, the receipt now tells of the later scan, and if it was marked the board learns nothing.
  lemma CollidingScanErases(pre: World, f: Event, e: Event)
    requires Keyed(pre.inventory) && Follows(pre, f) && Stored(pre, e) && TextOf(KeyOf(e)) == TextOf(KeyOf(f))
    requires f.after.items != pre.items || (f.result.Ok? && !IsRescan(pre, f.scan, f.matched))
    ensures var row := f.after.items[RecordFor(e.scan, e.matched).receivingId];
            && row.matchStatus == (if f.matched.Some? then "received" else "no_match")
            && row.inventoryId == IdOf(f.matched) && row.serial == f.scan.serial
            && (f.matched.Some? ==> row.inventoryId != e.matched.value.inventoryId)
    ensures ClaimOf(f.after.inventory, e.matched.value.inventoryId).Some?
    ensures WasEmitted(pre.items, RecordFor(e.scan, e.matched).receivingId) ==> f.after.board == pre.board
  {
    StepTakesAtMostOne(pre, f);
    SameIdIff(e, f);
    ClaimedIsNotChosen(pre, f, e.matched.value.inventoryId);
  }

  // A scan that took a slot has stored its receipt, even if it was interrupted afterwards.
  lemma JustTaken(pre: World, e: Event)
    requires Keyed(pre.inventory) && Follows(pre, e) && Took(pre, e)
    ensures Stored(e.after, e)
  {
    StepTakesAtMostOne(pre, e);
    assert !IsRescan(pre, e.scan, e.matched);
    assert e.matched.value.inventoryId in pre.inventory;
  }

  lemma JustReceived(pre: World, e: Event)
    requires Keyed(pre.inventory) && Follows(pre, e) && IsReceived(e)
    ensures Stored(e.after, e)
  {
    ReceivedIffTook(pre, e);
    StepTakesAtMostOne(pre, e);
    assert !IsRescan(pre, e.scan, e.matched);
    assert e.matched.value.inventoryId in pre.inventory;
  }

  // The receipt is stored no longer, and its unit is still claimed.
  ghost predicate Erased(w: World, e: Event) {
    e.matched.Some?
    && var rid := RecordFor(e.scan, e.matched).receivingId;
       && rid in w.items
       && !(w.items[rid].matchStatus == "received" && w.items[rid].inventoryId == e.matched.value.inventoryId)
       && ClaimOf(w.inventory, e.matched.value.inventoryId).Some?
  }

  lemma StoredBecomesErased(pre: World, f: Event, e: Event)
    requires Keyed(pre.inventory) && Follows(pre, f) && Stored(pre, e) && !Stored(f.after, e)
    ensures Erased(f.after, e)
  {
    ReceiptSurvivesIff(pre, f, e);
    CollidingScanErases(pre, f, e);
  }

  lemma ErasedStays(pre: World, f: Event, e: Event)
    requires Keyed(pre.inventory) && Follows(pre, f) && Erased(pre, e)
    ensures Erased(f.after, e)
  {
    StepTakesAtMostOne(pre, f);
    if f.after.items != pre.items {
      ClaimedIsNotChosen(pre, f, e.matched.value.inventoryId);
    }
  }

  // Event k of the session overwrites what is stored under event j's id.
  ghost predicate OverwritesAt(start: World, es: seq<Event>, j: nat, k: nat)
    requires j < k < |es|
  {
    TextOf(KeyOf(es[k])) == TextOf(KeyOf(es[j])) && es[k].after.items != End(start, es[..k]).items
  }

  ghost predicate Overwritten(start: World, es: seq<Event>, j: nat)
    requires j < |es|
  {
    exists k: nat :: j < k < |es| && OverwritesAt(start, es, j, k)
  }

  lemma OverwrittenSnoc(start: World, es: seq<Event>, j: nat)
    requires j + 1 < |es|
    ensures Overwritten(start, es, j)
       <==> Overwritten(start, es[..|es| - 1], j) || OverwritesAt(start, es, j, |es| - 1)
  {
    var init := es[..|es| - 1];
    assert forall k: nat | k <= |init| :: init[..k] == es[..k];
    assert forall k: nat | j < k < |init| :: OverwritesAt(start, init, j, k) == OverwritesAt(start, es, j, k);
    if Overwritten(start, init, j) {
      var k: nat :| j < k < |init| && OverwritesAt(start, init, j, k);
      assert OverwritesAt(start, es, j, k);
    }
    if Overwritten(start, es, j) {
      var k: nat :| j < k < |es| && OverwritesAt(start, es, j, k);
      assert k < |init| ==> OverwritesAt(start, init, j, k);
    }
  }

  // Over any session the receipt of a scan that took a slot is still stored exactly when no later scan
  // committed a record hashed from the same text; once erased it never comes back.
  lemma {:induction false} ReceiptStaysIff(start: World, es: seq<Event>, j: nat)
    requires Keyed(start.inventory) && Session(start, es) && j < |es|
    requires IsReceived(es[j]) || TookAt(start, es, j)
    ensures Stored(End(start, es), es[j]) <==> !Overwritten(start, es, j)
    ensures Overwritten(start, es, j) ==> Erased(End(start, es), es[j])
  {
    var n := |es| - 1;
    var init, e, first := es[..n], es[n], es[j];
    var pre := End(start, init);
    SessionKeepsKeys(start, init);
    assert End(start, es) == e.after;
    if j == n {
      if IsReceived(e) { JustReceived(pre, e); } else { JustTaken(pre, e); }
      return;
    }
    assert first == init[j] && init[..j] == es[..j];
    ReceiptStaysIff(start, init, j);
    OverwrittenSnoc(start, es, j);
    StayStep(pre, e, first);
  }

  lemma StayStep(pre: World, f: Event, e: Event)
    requires Keyed(pre.inventory) && Follows(pre, f)
    ensures Stored(pre, e) ==>
              (Stored(f.after, e) <==> !(TextOf(KeyOf(f)) == TextOf(KeyOf(e)) && f.after.items != pre.items))
    ensures Stored(pre, e) && !Stored(f.after, e) ==> Erased(f.after, e)
    ensures Erased(pre, e) ==> Erased(f.after, e)
  {
    if Stored(pre, e) {
      ReceiptSurvivesIff(pre, f, e);
      if !Stored(f.after, e) {
        StoredBecomesErased(pre, f, e);
      }
    }
    if Erased(pre, e) {
      ErasedStays(pre, f, e);
    }
  }

  // Re-scanning a serial already received on the PO, once no model binds the text and while its receipt
  // has not been overwritten, is answered from a stored receipt and leaves tables, board and process as
  // they were.
  lemma RescanIsAnswered(start: World, es: seq<Event>, j: nat, e: Event)
    requires Keyed(start.inventory) && Session(start, es + [e]) && e.result.Ok?
    requires j < |es| && IsReceived(es[j]) && !Overwritten(start, es, j)
    requires e.scan.po == es[j].scan.po && e.scan.serial == es[j].scan.serial != ""
    requires forall m :: !Binds(End(start, es).inventory, e.scan, m)
    ensures e.result.value.matchStatus == "already_scanned"
    ensures e.after == End(start, es)
    ensures HasSerial(e.after.inventory, e.after.items, e.scan.po, e.scan.serial, e.result.value.receivingId)
  {
    assert (es + [e])[..|es|] == es;
    ReceiptStaysIff(start, es, j);
    AlreadyScannedIff(End(start, es), e);
  }

  // ---- The board ----------------------------------------------------------------------

  // Marked records and remembered ids are on the board.
  ghost predicate Accounted(w: World) {
    forall rid :: WasEmitted(w.items, rid) || rid in w.seen ==> OnBoard(w.board, rid)
  }

  lemma OnBoardGrows(board: seq<BoardItem>, item: BoardItem)
    ensures OnBoard(board + [item], item.receivingId)
    ensures forall rid :: OnBoard(board, rid) ==> OnBoard(board + [item], rid)
  {
    var longer := board + [item];
    assert longer[|board|] == item;
    forall rid | OnBoard(board, rid) ensures OnBoard(longer, rid) {
      var k :| 0 <= k < |board| && board[k].receivingId == rid;
      assert longer[k].receivingId == rid;
    }
  }

  lemma StepLosesNothing(pre: World, e: Event)
    requires Follows(pre, e) && Accounted(pre)
    ensures Accounted(e.after)
    ensures pre.items.Keys <= e.after.items.Keys
    ensures forall rid :: WasEmitted(pre.items, rid) ==> WasEmitted(e.after.items, rid)
  {
    OnBoardGrows(pre.board, ItemFor(RecordFor(e.scan, e.matched)));
  }

  // Nothing is lost, wherever scans are interrupted: what is marked or remembered is on the board,
  // no saved record disappears, and no mark reverts.
  lemma {:induction false} NothingIsLost(start: World, es: seq<Event>)
    requires Session(start, es) && Accounted(start)
    ensures Accounted(End(start, es))
    ensures start.items.Keys <= End(start, es).items.Keys
    ensures forall rid :: WasEmitted(start.items, rid) ==> WasEmitted(End(start, es).items, rid)
  {
    if es != [] {
      NothingIsLost(start, es[..|es| - 1]);
      StepLosesNothing(End(start, es[..|es| - 1]), es[|es| - 1]);
    }
  }

  // Every scan that returned has left its record marked, for good.
  lemma {:induction false} ReturnedMeansEmitted(start: World, es: seq<Event>, k: nat)
    requires Session(start, es) && Accounted(start) && k < |es| && es[k].result.Ok?
    ensures es[k].result.value.matchStatus != "already_scanned" ==>
              WasEmitted(End(start, es).items, es[k].result.value.receivingId)
              && OnBoard(End(start, es).board, es[k].result.value.receivingId)
  {
    NothingIsLost(start, es);
    if k < |es| - 1 {
      var init := es[..|es| - 1];
      ReturnedMeansEmitted(start, init, k);
      NothingIsLost(start, init);
      StepLosesNothing(End(start, init), es[|es| - 1]);
    }
  }
}
