/** services/receive.py: one scan, and what holds over a session of scans by a single scanner. */
module Receive {
  import opened Wrappers
  import opened Schema
  import opened Tables
  import opened ModelResolution
  import opened ScanRecords
  import opened Repository
  import opened Sink

  datatype Raised = FromRepository | FromSink

  datatype World = World(inventory: Inventory, items: Receipts, seen: set<string>, board: seq<BoardItem>)

  datatype Scan = Scan(text: string, po: string, serial: string, now: string)

  // ---- What one scan does -----------------------------------------------------------

  ghost predicate Binds(inventory: Inventory, scan: Scan, m: string) {
    BindsTo(scan.text, Unclaimed(inventory, scan.po), m)
  }

  // The row a scan takes is any unclaimed row of the one model that binds its text; there is none
  // exactly when no model does.
  ghost predicate Chooses(inventory: Inventory, scan: Scan, matched: Option<InventoryRow>) {
    match matched
    case Some(row) => row in Unclaimed(inventory, scan.po) && Binds(inventory, scan, row.modelNumber)
    case None => forall m :: !Binds(inventory, scan, m)
  }

  function RecordFor(scan: Scan, matched: Option<InventoryRow>): Record {
    ScanRecord(matched, scan.po, scan.serial, scan.text, scan.now)
  }

  function Claimed(inventory: Inventory, scan: Scan, matched: Option<InventoryRow>): Inventory {
    match matched
    case Some(row) => ClaimRow(inventory, row.inventoryId, scan.now)
    case None => inventory
  }

  ghost predicate IsRescan(pre: World, scan: Scan, matched: Option<InventoryRow>) {
    matched.None? && scan.serial != "" && exists rid :: HasSerial(pre.inventory, pre.items, scan.po, scan.serial, rid)
  }

  // A duplicate changes nothing and answers with the stored receipt of its serial.
  ghost predicate AnswersDuplicate(pre: World, scan: Scan, post: World, rec: Record) {
    && post == pre
    && exists rid :: HasSerial(pre.inventory, pre.items, scan.po, scan.serial, rid)
                     && rec == AlreadyScannedRecord(scan.po, pre.inventory[pre.items[rid].inventoryId], rid,
                                                    pre.items[rid], scan.serial, scan.now)
  }

  // A scan that returns has claimed its row, saved its record, and left it emitted; the board gains
  // its item unless it was emitted before or this process already created it.
  ghost predicate Completes(pre: World, scan: Scan, matched: Option<InventoryRow>, post: World, rec: Record) {
    var rid := rec.receivingId;
    && rec == RecordFor(scan, matched)
    && post.inventory == Claimed(pre.inventory, scan, matched)
    && post.items == MarkRow(SaveRow(pre.items, rec), rid)
    && if WasEmitted(pre.items, rid) then post.board == pre.board && post.seen == pre.seen
       else post.board == (if rid in pre.seen then pre.board else pre.board + [ItemFor(rec)])
            && post.seen == pre.seen + {rid}
  }

  // An interrupted surfacing: nothing, or the item created and perhaps remembered; nothing at all for a
  // record that is marked or that this process has already created.
  ghost predicate SurfacesInPart(pre: World, rec: Record, post: World) {
    || (post.board == pre.board && post.seen == pre.seen)
    || (&& !WasEmitted(pre.items, rec.receivingId) && rec.receivingId !in pre.seen
        && post.board == pre.board + [ItemFor(rec)]
        && (post.seen == pre.seen || post.seen == pre.seen + {rec.receivingId}))
  }

  // A scan that raises stopped before its commit, or after it with no mark set.
  ghost predicate StopsShort(pre: World, scan: Scan, matched: Option<InventoryRow>, post: World) {
    var rec := RecordFor(scan, matched);
    || post == pre
    || (&& Chooses(pre.inventory, scan, matched)
        && !IsRescan(pre, scan, matched)
        && post.inventory == Claimed(pre.inventory, scan, matched)
        && post.items == SaveRow(pre.items, rec)
        && SurfacesInPart(pre, rec, post))
  }

  ghost predicate ScanStep(pre: World, scan: Scan, matched: Option<InventoryRow>, post: World,
                           r: Result<Record, Raised>)
  {
    match r
    case Ok(rec) =>
      && Chooses(pre.inventory, scan, matched)
      && if IsRescan(pre, scan, matched) then AnswersDuplicate(pre, scan, post, rec)
         else Completes(pre, scan, matched, post, rec)
    case Err(_) => StopsShort(pre, scan, matched, post)
  }

  // What the calls after the commit do: nothing if the record is marked; otherwise the board gains its
  // item unless this process created it before, and the record is marked if no call raises.
  ghost predicate EmittedOnce(pre: World, rec: Record, post: World, r: Result<Record, Raised>) {
    var rid := rec.receivingId;
    && post.inventory == pre.inventory
    && if WasEmitted(pre.items, rid) then
         post == pre && (r == Ok(rec) || r == Err(FromRepository))
       else if r.Ok? then
         && r.value == rec
         && post.items == MarkRow(pre.items, rid)
         && post.board == (if rid in pre.seen then pre.board else pre.board + [ItemFor(rec)])
         && post.seen == pre.seen + {rid}
       else post.items == pre.items && SurfacesInPart(pre, rec, post)
  }

  // The was_emitted guard, the sink call, and the mark.
  method EmitOnce(record: Record, repository: SQLiteRepository, sink: ResultSink) returns (r: Result<Record, Raised>)
    requires record.receivingId in repository.items
    modifies repository`calls, repository`items, sink
    ensures EmittedOnce(
              World(old(repository.inventory), old(repository.items), old(sink.seen), old(sink.board)), record,
              World(repository.inventory, repository.items, sink.seen, sink.board), r)
    ensures (forall k :: k >= old(repository.calls) ==> !repository.fault(k))
            && (forall k :: k >= old(sink.requests) ==> sink.reply(k).Delivered?)
            ==> r.Ok?
  {
    var emitted := repository.WasRecordEmitted(record.receivingId);
    if emitted.Err? {
      return Err(FromRepository);
    }
    if emitted.value {
      return Ok(record);
    }
    var sent := sink.Emit(record);
    if sent.Err? {
      return Err(FromSink);
    }
    var marked := repository.MarkEmitted(record.receivingId);
    if marked.Err? {
      return Err(FromRepository);
    }
    return Ok(record);
  }

  lemma EmitCompletes(pre: World, scan: Scan, matched: Option<InventoryRow>, committed: World, post: World,
                      r: Result<Record, Raised>)
    requires Chooses(pre.inventory, scan, matched) && !IsRescan(pre, scan, matched)
    requires committed == pre.(inventory := Claimed(pre.inventory, scan, matched),
                               items := SaveRow(pre.items, RecordFor(scan, matched)))
    requires EmittedOnce(committed, RecordFor(scan, matched), post, r)
    ensures ScanStep(pre, scan, matched, post, r)
  {
    var rid := RecordFor(scan, matched).receivingId;
    if WasEmitted(pre.items, rid) {
      assert MarkRow(committed.items, rid) == committed.items;
    }
  }

  // process_scan. `matched` is the row it bound, if it got that far.
  method ProcessScan(scan: Scan, repository: SQLiteRepository, sink: ResultSink)
    returns (r: Result<Record, Raised>, ghost matched: Option<InventoryRow>)
    requires Keyed(repository.inventory)
    modifies repository, sink
    ensures ScanStep(
              World(old(repository.inventory), old(repository.items), old(sink.seen), old(sink.board)), scan, matched,
              World(repository.inventory, repository.items, sink.seen, sink.board), r)
    ensures (forall k :: k >= old(repository.calls) ==> !repository.fault(k))
            && (forall k :: k >= old(sink.requests) ==> sink.reply(k).Delivered?)
            ==> r.Ok?
  {
    matched := None;
    ghost var pre := World(repository.inventory, repository.items, sink.seen, sink.board);
    var candidates := repository.UnclaimedForPo(scan.po);
    if candidates.Err? {
      return Err(FromRepository), None;
    }
    var row := MatchedRow(scan.text, candidates.value);
    matched := row;
    MatchedRowMeaning(scan.text, candidates.value, Unclaimed(repository.inventory, scan.po));
    assert Chooses(repository.inventory, scan, matched);

    if row.None? && scan.serial != "" {
      var dup := repository.FindClaimedBySerial(scan.po, scan.serial);
      if dup.Err? {
        return Err(FromRepository), matched;
      }
      if dup.value.Some? {
        var u := dup.value.value;
        return Ok(AlreadyScannedRecord(scan.po, u.row, u.receivingId, u.item, scan.serial, scan.now)), matched;
      }
    }

    var record := ScanRecord(row, scan.po, scan.serial, scan.text, scan.now);
    if row.Some? {
      var saved := repository.ClaimAndSave(row.value.inventoryId, scan.now, record);
      if saved.Err? {
        return Err(FromRepository), matched;
      }
    } else {
      var saved := repository.SaveRecord(record);
      if saved.Err? {
        return Err(FromRepository), matched;
      }
    }

    ghost var committed := World(repository.inventory, repository.items, sink.seen, sink.board);
    r := EmitOnce(record, repository, sink);
    ghost var post := World(repository.inventory, repository.items, sink.seen, sink.board);
    EmitCompletes(pre, scan, matched, committed, post, r);
  }
}
