/** adapters/sink.py: what every item on the board tells, over every history of the protocol. */
module Postings {
  import opened Wrappers
  import opened Schema
  import opened Tables
  import opened Matching
  import opened Sink
  import opened Receive
  import opened Sessions
  import opened Protocol
  import opened Claims

  // Some committed scan k stands behind these fields: as received for the row it claimed, whose model its
  // text matches, or as matched to nothing, with its text for a model.
  ghost predicate Behind(k: ScanKey, rid: string, received: bool, po: string, inventoryId: string, model: string) {
    && RidOf(k) == rid && k.po == po
    && if received then k.inventoryId == Some(inventoryId) && ExactModelMatch(k.text, model)
       else k.inventoryId == None && inventoryId == "" && model == k.text
  }

  ghost predicate Backed(keys: set<ScanKey>, rid: string, status: string, po: string, inventoryId: string,
                         model: string)
  {
    && (status == "received" || status == "no_match")
    && exists k :: k in keys && Behind(k, rid, status == "received", po, inventoryId, model)
  }

  ghost predicate RecordBacked(keys: set<ScanKey>, r: Record) {
    Backed(keys, r.receivingId, r.matchStatus, r.purchaseOrder, r.inventoryId, r.modelNumber)
  }

  ghost predicate RowsBacked(keys: set<ScanKey>, items: Receipts) {
    forall rid :: rid in items ==> RecordBacked(keys, RecordOf(rid, items[rid]))
  }

  ghost predicate WorkerBacked(keys: set<ScanKey>, worker: Worker) {
    && (Holding(worker.pc).Some? ==> RecordBacked(keys, Holding(worker.pc).value))
    && (forall r :: r in worker.queue ==> RecordBacked(keys, r))
    && (worker.pc.Chosen? && worker.pc.matched.Some? ==>
          ExactModelMatch(worker.pc.scan.text, worker.pc.matched.value.modelNumber))
  }

  ghost predicate WorkersBacked(keys: set<ScanKey>, workers: map<nat, Worker>) {
    forall w :: w in workers ==> WorkerBacked(keys, workers[w])
  }

  // An item in the ready group, labelled READY, stands for a claim; one in the no-match group, labelled
  // NO MATCH, for a scan that matched nothing. There is no third kind.
  ghost predicate ItemBacked(keys: set<ScanKey>, item: BoardItem) {
    exists k :: k in keys
      && ((item.group.Ready? && item.statusLabel == "READY"
           && Behind(k, item.receivingId, true, item.purchaseOrder, item.inventoryId, item.modelNumber))
          || (item.group.NoMatchGroup? && item.statusLabel == "NO MATCH"
              && Behind(k, item.receivingId, false, item.purchaseOrder, item.inventoryId, item.modelNumber)))
  }

  ghost predicate BoardBacked(keys: set<ScanKey>, board: seq<Post>) {
    forall p :: p in board ==> ItemBacked(keys, p.item)
  }

  ghost predicate AllBacked(s: State) {
    RowsBacked(s.keys, s.items) && WorkersBacked(s.keys, s.workers) && BoardBacked(s.keys, s.board)
  }

  lemma BackedGrows(keys: set<ScanKey>, more: set<ScanKey>, r: Record)
    requires keys <= more && RecordBacked(keys, r)
    ensures RecordBacked(more, r)
  {
  }

  lemma CommitIsBacked(keys: set<ScanKey>, scan: Scan, matched: Option<InventoryRow>)
    requires ScanKeyOf(scan, matched) in keys
    requires matched.Some? ==> ExactModelMatch(scan.text, matched.value.modelNumber)
    ensures RecordBacked(keys, RecordFor(scan, matched))
  {
    var r := RecordFor(scan, matched);
    RecordIsUnder(scan, matched);
    var k := ScanKeyOf(scan, matched);
    assert Behind(k, r.receivingId, matched.Some?, r.purchaseOrder, r.inventoryId, r.modelNumber);
  }

  lemma RowsBackedKept(s: State, a: Action)
    requires AllBacked(s) && Enabled(s, a)
    ensures RowsBacked(KeysAfter(s, a), ItemsAfter(s, a))
  {
    var keys, items := KeysAfter(s, a), ItemsAfter(s, a);
    forall rid | rid in items ensures RecordBacked(keys, RecordOf(rid, items[rid])) {
      if Commits(a) && rid == RecordFor(s.workers[a.w].pc.scan, s.workers[a.w].pc.matched).receivingId {
        CommitIsBacked(keys, s.workers[a.w].pc.scan, s.workers[a.w].pc.matched);
      } else {
        BackedGrows(s.keys, keys, RecordOf(rid, s.items[rid]));
      }
    }
  }

  lemma PolledAreBacked(keys: set<ScanKey>, items: Receipts, rids: seq<string>)
    requires RowsBacked(keys, items) && forall rid :: rid in rids ==> rid in items
    ensures forall r :: r in Records(items, rids) ==> RecordBacked(keys, r)
  {
    var q := Records(items, rids);
    forall r | r in q ensures RecordBacked(keys, r) {
      var k :| 0 <= k < |q| && q[k] == r;
      assert rids[k] in rids;
    }
  }

  lemma ActorBackedKept(s: State, a: Action)
    requires AllBacked(s) && Enabled(s, a) && a.Does?
    ensures WorkerBacked(KeysAfter(s, a), WorkersAfter(s, a)[a.w])
  {
    var keys, worker := KeysAfter(s, a), s.workers[a.w];
    assert WorkerBacked(s.keys, worker);
    StillBacked(s.keys, keys, worker);
    if a.move.Commit? {
      CommitIsBacked(keys, worker.pc.scan, worker.pc.matched);
    } else if a.move.Poll? {
      PolledAreBacked(s.keys, s.items, a.move.rids);
    } else if a.move.Take? {
      assert worker.queue == [worker.queue[0]] + worker.queue[1..];
    }
  }

  lemma StillBacked(keys: set<ScanKey>, more: set<ScanKey>, worker: Worker)
    requires keys <= more && WorkerBacked(keys, worker)
    ensures WorkerBacked(more, worker)
  {
    forall r | r in worker.queue ensures RecordBacked(more, r) {
      BackedGrows(keys, more, r);
    }
    if Holding(worker.pc).Some? {
      BackedGrows(keys, more, Holding(worker.pc).value);
    }
  }

  lemma WorkersBackedKept(s: State, a: Action)
    requires AllBacked(s) && Enabled(s, a)
    ensures WorkersBacked(KeysAfter(s, a), WorkersAfter(s, a))
  {
    var keys, workers := KeysAfter(s, a), WorkersAfter(s, a);
    forall w | w in workers ensures WorkerBacked(keys, workers[w]) {
      if a.Does? && a.w == w {
        ActorBackedKept(s, a);
      } else if w in s.workers && workers[w] == s.workers[w] {
        StillBacked(s.keys, keys, s.workers[w]);
      }
    }
  }

  lemma PostIsBacked(keys: set<ScanKey>, r: Record)
    requires RecordBacked(keys, r)
    ensures ItemBacked(keys, SurfacedAs(r))
  {
    var k :| k in keys
             && Behind(k, r.receivingId, r.matchStatus == "received", r.purchaseOrder, r.inventoryId, r.modelNumber);
    var item := SurfacedAs(r);
    assert Behind(k, item.receivingId, item.group.Ready?, item.purchaseOrder, item.inventoryId, item.modelNumber);
  }

  lemma BoardBackedKept(s: State, a: Action)
    requires AllBacked(s) && Enabled(s, a)
    ensures BoardBacked(KeysAfter(s, a), BoardAfter(s, a))
  {
    var keys, board := KeysAfter(s, a), BoardAfter(s, a);
    forall p | p in board ensures ItemBacked(keys, p.item) {
      if p !in s.board {
        assert WorkerBacked(s.keys, s.workers[a.w]);
        PostIsBacked(s.keys, s.workers[a.w].pc.record);
      }
      assert ItemBacked(s.keys, p.item);
    }
  }

  lemma {:induction false} BackedAlways(s: State, acts: seq<Action>)
    requires AllBacked(s) && Legal(s, acts)
    ensures AllBacked(Final(s, acts))
    decreases |acts|
  {
    if acts != [] {
      RowsBackedKept(s, acts[0]);
      WorkersBackedKept(s, acts[0]);
      BoardBackedKept(s, acts[0]);
      BackedAlways(After(s, acts[0]), acts[1..]);
    }
  }

  // The keys of a state are those of the commits that led to it.
  lemma {:induction false} KeysAreCommits(s: State, acts: seq<Action>, k: ScanKey)
    requires Legal(s, acts)
    ensures k in Final(s, acts).keys <==> k in s.keys || k in CommitLog(s, acts)
    decreases |acts|
  {
    if acts != [] {
      KeysAreCommits(After(s, acts[0]), acts[1..], k);
    }
  }

  // In every history from the empty database each board item is either a ready item, labelled READY,
  // that names the inventory id of a claiming commit with its receiving id, on that commit's PO and with
  // a model its scanned text matches; or a no-match item, labelled NO MATCH, with a blank inventory id and
  // the scanned text for a model, of a commit that matched nothing.
  lemma BoardTells(acts: seq<Action>, p: Post)
    requires Legal(INIT, acts) && p in Final(INIT, acts).board
    ensures var log, item := CommitLog(INIT, acts), p.item;
            || (item.group == Ready && item.statusLabel == "READY"
                && exists k :: k in log && RidOf(k) == item.receivingId && k.inventoryId == Some(item.inventoryId)
                               && k.po == item.purchaseOrder && ExactModelMatch(k.text, item.modelNumber))
            || (item.group == NoMatchGroup && item.statusLabel == "NO MATCH" && item.inventoryId == ""
                && exists k :: k in log && RidOf(k) == item.receivingId && k.inventoryId == None
                               && k.po == item.purchaseOrder && k.text == item.modelNumber)
  {
    BackedAlways(INIT, acts);
    var t := Final(INIT, acts);
    assert ItemBacked(t.keys, p.item);
    forall k | k in t.keys ensures k in CommitLog(INIT, acts) {
      KeysAreCommits(INIT, acts, k);
    }
    if p.item.group.Ready? {
      var k :| k in t.keys
               && Behind(k, p.item.receivingId, true, p.item.purchaseOrder, p.item.inventoryId, p.item.modelNumber);
      assert k in CommitLog(INIT, acts);
    } else {
      var k :| k in t.keys
               && Behind(k, p.item.receivingId, false, p.item.purchaseOrder, p.item.inventoryId, p.item.modelNumber);
      assert k in CommitLog(INIT, acts);
    }
  }

  // The stored records tell the same of their scans.
  lemma RecordsTell(acts: seq<Action>, rid: string)
    requires Legal(INIT, acts) && rid in Final(INIT, acts).items
    ensures var log, row := CommitLog(INIT, acts), Final(INIT, acts).items[rid];
            || (row.matchStatus == "received"
                && exists k :: k in log && RidOf(k) == rid && k.inventoryId == Some(row.inventoryId)
                               && k.po == row.purchaseOrder && ExactModelMatch(k.text, row.modelNumber))
            || (row.matchStatus == "no_match" && row.inventoryId == ""
                && exists k :: k in log && RidOf(k) == rid && k.inventoryId == None
                               && k.po == row.purchaseOrder && k.text == row.modelNumber)
  {
    BackedAlways(INIT, acts);
    var t := Final(INIT, acts);
    var row := t.items[rid];
    assert RecordBacked(t.keys, RecordOf(rid, row));
    var k :| k in t.keys
             && Behind(k, rid, row.matchStatus == "received", row.purchaseOrder, row.inventoryId, row.modelNumber);
    KeysAreCommits(INIT, acts, k);
  }
}
