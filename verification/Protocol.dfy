/**
 * The claim / save / emit / mark protocol as a step machine: any number of process lifetimes, any
 * number of workers in each, scanning and replaying in any interleaving, with crashes, database
 * errors and failed requests between any two steps.
 */
module Protocol {
  import opened Wrappers
  import opened Schema
  import opened Tables
  import opened ScanRecords
  import opened Sink
  import opened Receive
  import opened Sessions

  // Where a worker stands inside process_scan or the sync loop, with its locals.
  datatype Pc =
    | Idle
    | Looked(scan: Scan)                                    // no row matched; serial not yet looked up
    | Chosen(scan: Scan, matched: Option<InventoryRow>)     // about to commit
    | Saved(record: Record)                                 // about to ask was_emitted
    | Emitting(record: Record)                              // about to test `_seen`
    | Posting(record: Record)                               // about to send the request
    | Remembering(record: Record)                           // acknowledged; about to add to `_seen`
    | Marking(record: Record)                               // about to mark emitted

  // `queue` holds the polled records a sync pass has still to process.
  datatype Worker = Worker(life: nat, pc: Pc, queue: seq<Record>)

  // A created board item, the worker that created it, and whether that worker learnt of it.
  datatype Post = Post(item: BoardItem, worker: nat, acked: bool)

  datatype State = State(
    inventory: Inventory, items: Receipts, board: seq<Post>,  // durable
    lives: nat, seen: map<nat, set<string>>,                  // lifetimes started; `_seen` of each live one
    spawned: nat, workers: map<nat, Worker>,                  // workers started; those alive
    claims: set<ScanKey>, keys: set<ScanKey>)                 // history: claiming commits since the last
                                                              // refresh, and all commits

  // What one worker does in one step. `matched` and `rids` are what the database chose to return,
  // `reply` what the request met; Raise is a database error.
  datatype Move =
    | Read(scan: Scan, matched: Option<InventoryRow>)
    | LookUp
    | Commit
    | Check
    | Test
    | Send(reply: Reply)
    | Remember
    | Mark
    | Raise
    | Poll(rids: seq<string>)
    | Take

  datatype Action =
    | Boot
    | Spawn(life: nat)
    | Crash(life: nat)
    | Replace(catalog: seq<CatalogItem>)
    | Upsert(catalog: seq<CatalogItem>)
    | Does(w: nat, move: Move)

  const INIT := State(map[], map[], [], 0, map[], 0, map[], {}, {})

  function ScanKeyOf(scan: Scan, matched: Option<InventoryRow>): ScanKey {
    ScanKey(scan.po, match matched case None => None case Some(row) => Some(row.inventoryId), scan.text)
  }

  function RidOf(k: ScanKey): string {
    Sha256Hex(TextOf(k))
  }

  function Records(items: Receipts, rids: seq<string>): seq<Record>
    requires forall rid :: rid in rids ==> rid in items
  {
    seq(|rids|, k requires 0 <= k < |rids| => RecordOf(rids[k], items[rids[k]]))
  }

  ghost predicate Can(s: State, worker: Worker, move: Move) {
    match move
    case Read(scan, matched) => worker.pc.Idle? && worker.queue == [] && Chooses(s.inventory, scan, matched)
    case LookUp => worker.pc.Looked?
    case Commit => worker.pc.Chosen?
    case Check => worker.pc.Saved?
    case Test => worker.pc.Emitting? && worker.life in s.seen
    case Send(_) => worker.pc.Posting?
    case Remember => worker.pc.Remembering? && worker.life in s.seen
    case Mark => worker.pc.Marking?
    case Raise => worker.pc.Looked? || worker.pc.Chosen? || worker.pc.Saved? || worker.pc.Marking?
    case Poll(rids) => worker.pc.Idle? && worker.queue == [] && Lists(rids, Pending(s.items))
    case Take => worker.pc.Idle? && worker.queue != []
  }

  ghost predicate Enabled(s: State, a: Action) {
    match a
    case Spawn(life) => life in s.seen
    case Crash(life) => life in s.seen
    case Does(w, move) => w in s.workers && Can(s, s.workers[w], move)
    case _ => true
  }

  // ---- What each action leaves, component by component -------------------------------

  ghost function PcAfter(s: State, worker: Worker, move: Move): Pc
    requires Can(s, worker, move)
  {
    var pc := worker.pc;
    match move
    case Read(scan, matched) =>
      if matched.None? && scan.serial != "" then Looked(scan) else Chosen(scan, matched)
    case LookUp =>
      // a receipt with this serial: answer already_scanned and stop
      if exists rid :: HasSerial(s.inventory, s.items, pc.scan.po, pc.scan.serial, rid) then Idle
      else Chosen(pc.scan, None)
    case Commit => Saved(RecordFor(pc.scan, pc.matched))
    case Check => if WasEmitted(s.items, pc.record.receivingId) then Idle else Emitting(pc.record)
    case Test => if pc.record.receivingId in s.seen[worker.life] then Marking(pc.record) else Posting(pc.record)
    case Send(reply) => if reply.Delivered? then Remembering(pc.record) else Idle
    case Remember => Marking(pc.record)
    case Mark => Idle
    case Raise => Idle
    case Poll(_) => Idle
    case Take => Emitting(worker.queue[0])
  }

  ghost function QueueAfter(s: State, worker: Worker, move: Move): seq<Record>
    requires Can(s, worker, move)
  {
    if move.Poll? then Records(s.items, move.rids)
    else if move.Take? then worker.queue[1..]
    else worker.queue
  }

  ghost function WorkersAfter(s: State, a: Action): map<nat, Worker>
    requires Enabled(s, a)
  {
    if a.Does? then
      var worker := s.workers[a.w];
      s.workers[a.w := Worker(worker.life, PcAfter(s, worker, a.move), QueueAfter(s, worker, a.move))]
    else if a.Spawn? then s.workers[s.spawned := Worker(a.life, Idle, [])]
    else if a.Crash? then map w | w in s.workers && s.workers[w].life != a.life :: s.workers[w]
    else s.workers
  }

  predicate Commits(a: Action) {
    a.Does? && a.move.Commit?
  }

  ghost function InventoryAfter(s: State, a: Action): Inventory
    requires Enabled(s, a)
  {
    if a.Replace? then UpsertAll(map[], a.catalog)
    else if a.Upsert? then UpsertAll(s.inventory, a.catalog)
    else if Commits(a) then Claimed(s.inventory, s.workers[a.w].pc.scan, s.workers[a.w].pc.matched)
    else s.inventory
  }

  ghost function ItemsAfter(s: State, a: Action): Receipts
    requires Enabled(s, a)
  {
    if Commits(a) then SaveRow(s.items, RecordFor(s.workers[a.w].pc.scan, s.workers[a.w].pc.matched))
    else if a.Does? && a.move.Mark? then MarkRow(s.items, s.workers[a.w].pc.record.receivingId)
    else s.items
  }

  ghost function BoardAfter(s: State, a: Action): seq<Post>
    requires Enabled(s, a)
  {
    if a.Does? && a.move.Send? && !a.move.reply.Refused?
    then s.board + [Post(SurfacedAs(s.workers[a.w].pc.record), a.w, a.move.reply.Delivered?)]
    else s.board
  }

  ghost function SeenAfter(s: State, a: Action): map<nat, set<string>>
    requires Enabled(s, a)
  {
    if a.Boot? then s.seen[s.lives := {}]
    else if a.Crash? then s.seen - {a.life}
    else if a.Does? && a.move.Remember? then
      var life := s.workers[a.w].life;
      s.seen[life := s.seen[life] + {s.workers[a.w].pc.record.receivingId}]
    else s.seen
  }

  ghost function ClaimsAfter(s: State, a: Action): set<ScanKey>
    requires Enabled(s, a)
  {
    if a.Replace? then {}
    else if Commits(a) && s.workers[a.w].pc.matched.Some?
            && s.workers[a.w].pc.matched.value.inventoryId in s.inventory
    then s.claims + {ScanKeyOf(s.workers[a.w].pc.scan, s.workers[a.w].pc.matched)}
    else s.claims
  }

  ghost function KeysAfter(s: State, a: Action): set<ScanKey>
    requires Enabled(s, a)
  {
    if Commits(a) then s.keys + {ScanKeyOf(s.workers[a.w].pc.scan, s.workers[a.w].pc.matched)} else s.keys
  }

  ghost function After(s: State, a: Action): State
    requires Enabled(s, a)
  {
    State(InventoryAfter(s, a), ItemsAfter(s, a), BoardAfter(s, a),
          if a.Boot? then s.lives + 1 else s.lives, SeenAfter(s, a),
          if a.Spawn? then s.spawned + 1 else s.spawned, WorkersAfter(s, a),
          ClaimsAfter(s, a), KeysAfter(s, a))
  }

  // ---- Runs -------------------------------------------------------------------------

  ghost predicate Legal(s: State, acts: seq<Action>)
    decreases |acts|
  {
    acts == [] || (Enabled(s, acts[0]) && Legal(After(s, acts[0]), acts[1..]))
  }

  ghost function Final(s: State, acts: seq<Action>): State
    requires Legal(s, acts)
    decreases |acts|
  {
    if acts == [] then s else Final(After(s, acts[0]), acts[1..])
  }

  // ---- Composing runs -------------------------------------------------------------------

  lemma {:induction false} Compose(s: State, xs: seq<Action>, ys: seq<Action>)
    requires Legal(s, xs) && Legal(Final(s, xs), ys)
    ensures Legal(s, xs + ys) && Final(s, xs + ys) == Final(Final(s, xs), ys)
    decreases |xs|
  {
    if xs == [] {
      assert xs + ys == ys;
    } else {
      assert (xs + ys)[1..] == xs[1..] + ys;
      Compose(After(s, xs[0]), xs[1..], ys);
    }
  }

  lemma Cons(s: State, a: Action, ys: seq<Action>)
    requires Enabled(s, a) && Legal(After(s, a), ys)
    ensures Legal(s, [a] + ys) && Final(s, [a] + ys) == Final(After(s, a), ys)
  {
    assert ([a] + ys)[1..] == ys;
  }

  lemma Snoc(s: State, xs: seq<Action>, a: Action)
    requires Legal(s, xs) && Enabled(Final(s, xs), a)
    ensures Legal(s, xs + [a]) && Final(s, xs + [a]) == After(Final(s, xs), a)
  {
    var t := After(Final(s, xs), a);
    assert [a][1..] == [] && Legal(t, []) && Final(t, []) == t;
    Compose(s, xs, [a]);
  }

  // ---- Invariant ----------------------------------------------------------------------

  function Holding(pc: Pc): Option<Record> {
    match pc
    case Idle => None
    case Looked(_) => None
    case Chosen(_, _) => None
    case Saved(r) => Some(r)
    case Emitting(r) => Some(r)
    case Posting(r) => Some(r)
    case Remembering(r) => Some(r)
    case Marking(r) => Some(r)
  }

  predicate Posted(board: seq<Post>, rid: string) {
    exists p :: p in board && p.item.receivingId == rid
  }

  predicate AckedBy(board: seq<Post>, w: nat, rid: string) {
    exists p :: p in board && p.acked && p.worker == w && p.item.receivingId == rid
  }

  predicate Queued(queue: seq<Record>, rid: string) {
    exists r :: r in queue && r.receivingId == rid
  }

  predicate NoRepeats(queue: seq<Record>) {
    forall j, k :: 0 <= j < k < |queue| ==> queue[j].receivingId != queue[k].receivingId
  }

  // A worker belongs to a live process, works on stored records, and never has one twice.
  ghost predicate WorkerOk(s: State, w: nat)
    requires w in s.workers
  {
    var worker := s.workers[w];
    && w < s.spawned
    && worker.life in s.seen
    && (Holding(worker.pc).Some? ==>
          Holding(worker.pc).value.receivingId in s.items
          && !Queued(worker.queue, Holding(worker.pc).value.receivingId))
    && (forall r :: r in worker.queue ==> r.receivingId in s.items)
    && NoRepeats(worker.queue)
    && (worker.pc.Looked? || worker.pc.Chosen? ==> worker.queue == [])
  }

  ghost predicate Shape(s: State) {
    && Keyed(s.inventory)
    && (forall life :: life in s.seen ==> life < s.lives)
    && (forall w :: w in s.workers ==> WorkerOk(s, w))
  }

  // Whatever the program takes as created is on the board: marked records, remembered ids, and
  // records past their request. And only stored records are on it.
  ghost predicate MarkedIsPosted(s: State) {
    forall rid :: WasEmitted(s.items, rid) ==> Posted(s.board, rid)
  }

  ghost predicate SeenIsPosted(s: State) {
    forall life, rid :: life in s.seen && rid in s.seen[life] ==> Posted(s.board, rid)
  }

  predicate PastRequest(pc: Pc) {
    pc.Remembering? || pc.Marking?
  }

  ghost predicate SentIsPosted(s: State) {
    forall w :: w in s.workers && PastRequest(s.workers[w].pc) ==> Posted(s.board, s.workers[w].pc.record.receivingId)
  }

  ghost predicate PostedIsStored(s: State) {
    forall p :: p in s.board ==> p.item.receivingId in s.items
  }

  lemma QueueFromPoll(items: Receipts, rids: seq<string>)
    requires Lists(rids, Pending(items))
    ensures NoRepeats(Records(items, rids))
    ensures forall r :: r in Records(items, rids) ==> r.receivingId in items
    ensures forall rid :: Queued(Records(items, rids), rid) ==> rid in Pending(items)
  {
    var q := Records(items, rids);
    assert forall k :: 0 <= k < |rids| ==> rids[k] in rids && q[k].receivingId == rids[k];
  }

  lemma TakeHead(q: seq<Record>)
    requires q != [] && NoRepeats(q)
    ensures NoRepeats(q[1..]) && !Queued(q[1..], q[0].receivingId) && q[0] in q
    ensures forall r :: r in q[1..] ==> r in q
    ensures forall rid :: Queued(q, rid) <==> rid == q[0].receivingId || Queued(q[1..], rid)
  {
    assert q == [q[0]] + q[1..];
    forall j, k | 0 <= j < k < |q[1..]| ensures q[1..][j].receivingId != q[1..][k].receivingId {
      assert q[1..][j] == q[j + 1] && q[1..][k] == q[k + 1];
    }
  }

  lemma ShapeKeptAmbient(s: State, a: Action)
    requires Shape(s) && Enabled(s, a) && !a.Does?
    ensures Shape(After(s, a))
  {
    var t := After(s, a);
    if a.Replace? {
      UpsertKeepsClaims(map[], a.catalog);
    } else if a.Upsert? {
      UpsertKeepsClaims(s.inventory, a.catalog);
    }
    forall w | w in t.workers ensures WorkerOk(t, w) {
      assert w in s.workers ==> WorkerOk(s, w);
    }
  }

  lemma ActingWorkerKept(s: State, a: Action)
    requires Shape(s) && Enabled(s, a) && a.Does?
    ensures WorkerOk(After(s, a), a.w)
  {
    assert WorkerOk(s, a.w);
    if a.move.Poll? {
      QueueFromPoll(s.items, a.move.rids);
    } else if a.move.Take? {
      TakeHead(s.workers[a.w].queue);
    }
  }

  lemma ShapeKept(s: State, a: Action)
    requires Shape(s) && Enabled(s, a)
    ensures Shape(After(s, a))
  {
    if !a.Does? {
      ShapeKeptAmbient(s, a);
    } else {
      var t := After(s, a);
      ActingWorkerKept(s, a);
      assert s.items.Keys <= t.items.Keys && t.seen.Keys == s.seen.Keys;
      forall w | w in t.workers && w != a.w ensures WorkerOk(t, w) {
        assert WorkerOk(s, w) && t.workers[w] == s.workers[w];
      }
    }
  }

  lemma BoardGrows(board: seq<Post>, p: Post)
    ensures Posted(board + [p], p.item.receivingId)
    ensures forall rid :: Posted(board, rid) ==> Posted(board + [p], rid)
    ensures forall rid :: Posted(board + [p], rid) ==> Posted(board, rid) || rid == p.item.receivingId
    ensures forall q :: q in board + [p] <==> q in board || q == p
  {
    assert p in board + [p];
    forall rid | Posted(board, rid) ensures Posted(board + [p], rid) {
      var q :| q in board && q.item.receivingId == rid;
      assert q in board + [p];
    }
  }

  lemma BoardKept(s: State, a: Action)
    requires Shape(s) && Enabled(s, a)
    ensures forall rid :: Posted(s.board, rid) ==> Posted(After(s, a).board, rid)
    ensures PostedIsStored(s) ==> PostedIsStored(After(s, a))
    ensures a.Does? && a.move.Send? && !a.move.reply.Refused? ==>
              Posted(After(s, a).board, s.workers[a.w].pc.record.receivingId)
  {
    if a.Does? && a.move.Send? {
      assert WorkerOk(s, a.w);
      BoardGrows(s.board, Post(SurfacedAs(s.workers[a.w].pc.record), a.w, a.move.reply.Delivered?));
    }
  }

  lemma MarkedIsPostedKept(s: State, a: Action)
    requires Shape(s) && MarkedIsPosted(s) && SentIsPosted(s) && Enabled(s, a)
    ensures MarkedIsPosted(After(s, a))
  {
    BoardKept(s, a);
  }

  lemma SeenIsPostedKept(s: State, a: Action)
    requires Shape(s) && SeenIsPosted(s) && SentIsPosted(s) && Enabled(s, a)
    ensures SeenIsPosted(After(s, a))
  {
    BoardKept(s, a);
    var board, seen := After(s, a).board, SeenAfter(s, a);
    forall life, rid | life in seen && rid in seen[life] ensures Posted(board, rid) {
      assert Posted(s.board, rid);
    }
  }

  lemma SentIsPostedKept(s: State, a: Action)
    requires Shape(s) && SeenIsPosted(s) && SentIsPosted(s) && Enabled(s, a)
    ensures SentIsPosted(After(s, a))
  {
    BoardKept(s, a);
    var board, workers := After(s, a).board, WorkersAfter(s, a);
    forall w | w in workers && PastRequest(workers[w].pc) ensures Posted(board, workers[w].pc.record.receivingId) {
      if !(a.Does? && a.w == w) {
        assert workers[w].pc == Idle || (w in s.workers && workers[w] == s.workers[w]);
      }
    }
  }

  // ---- No record is lost ----------------------------------------------------------------

  ghost predicate Accountable(s: State) {
    Shape(s) && MarkedIsPosted(s) && SeenIsPosted(s) && SentIsPosted(s) && PostedIsStored(s)
  }

  lemma InitAccountable()
    ensures Accountable(INIT)
  {
  }

  lemma AccountableKept(s: State, a: Action)
    requires Accountable(s) && Enabled(s, a)
    ensures Accountable(After(s, a))
  {
    ShapeKept(s, a);
    BoardKept(s, a);
    MarkedIsPostedKept(s, a);
    SeenIsPostedKept(s, a);
    SentIsPostedKept(s, a);
  }

  lemma StepKeepsRecords(s: State, a: Action)
    requires Shape(s) && Enabled(s, a)
    ensures s.items.Keys <= After(s, a).items.Keys
    ensures forall rid :: WasEmitted(s.items, rid) ==> WasEmitted(After(s, a).items, rid)
  {
  }

  // Over any run, with any crashes and any refresh: every marked record is on the board, the board
  // holds only stored records, no saved record is lost, and no mark reverts.
  lemma {:induction false} NoRecordIsLost(s: State, acts: seq<Action>)
    requires Accountable(s) && Legal(s, acts)
    ensures Accountable(Final(s, acts))
    ensures s.items.Keys <= Final(s, acts).items.Keys
    ensures forall rid :: WasEmitted(s.items, rid) ==> WasEmitted(Final(s, acts).items, rid)
    decreases |acts|
  {
    if acts != [] {
      AccountableKept(s, acts[0]);
      StepKeepsRecords(s, acts[0]);
      NoRecordIsLost(After(s, acts[0]), acts[1..]);
    }
  }

  // In every history from the empty database.
  lemma HistoryIsAccountable(acts: seq<Action>)
    requires Legal(INIT, acts)
    ensures Accountable(Final(INIT, acts))
  {
    InitAccountable();
    NoRecordIsLost(INIT, acts);
  }

  // So a record saved at any point of a history is stored at every later one, is on the board once it is
  // marked, and stays marked.
  lemma HistoryLosesNothing(acts: seq<Action>, more: seq<Action>, rid: string)
    requires Legal(INIT, acts) && Legal(Final(INIT, acts), more) && rid in Final(INIT, acts).items
    ensures rid in Final(Final(INIT, acts), more).items
    ensures WasEmitted(Final(INIT, acts).items, rid) ==> WasEmitted(Final(Final(INIT, acts), more).items, rid)
    ensures WasEmitted(Final(Final(INIT, acts), more).items, rid) ==>
              Posted(Final(Final(INIT, acts), more).board, rid)
  {
    HistoryIsAccountable(acts);
    NoRecordIsLost(Final(INIT, acts), more);
  }
}
