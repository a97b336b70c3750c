/** From every reachable state of the protocol the stored records can be replayed and surfaced. */
module Recovery {
  import opened Wrappers
  import opened Schema
  import opened Tables
  import opened Sink
  import opened Receive
  import opened Protocol

  // ---- The tail of every surfacing ---------------------------------------------------------

  // What a worker that is about to test `_seen` leaves when nothing fails and nobody interferes.
  function Surfaced(s: State, w: nat): State
    requires w in s.workers && s.workers[w].pc.Emitting? && s.workers[w].life in s.seen
  {
    var worker := s.workers[w];
    var rec, known := worker.pc.record, s.seen[worker.life];
    s.(items := MarkRow(s.items, rec.receivingId),
       board := if rec.receivingId in known then s.board else s.board + [Post(SurfacedAs(rec), w, true)],
       seen := s.seen[worker.life := known + {rec.receivingId}],
       workers := s.workers[w := worker.(pc := Idle)])
  }

  // What a worker about to test `_seen` leaves, whatever fails: an item or none, known or not, and the
  // record marked or not.
  lemma PartRun(s: State, w: nat, posted: bool, known: bool, ok: bool) returns (acts: seq<Action>, t: State)
    requires w in s.workers && s.workers[w].pc.Emitting? && s.workers[w].life in s.seen
    requires if s.workers[w].pc.record.receivingId in s.seen[s.workers[w].life] then !posted && !known
             else (ok ==> known) && (known ==> posted)
    ensures Legal(s, acts) && t == Final(s, acts)
    ensures var worker, rec := s.workers[w], s.workers[w].pc.record;
            t == s.(items := if ok then MarkRow(s.items, rec.receivingId) else s.items,
                    workers := s.workers[w := worker.(pc := Idle)],
                    board := if posted then s.board + [Post(SurfacedAs(rec), w, known)] else s.board,
                    seen := if known then s.seen[worker.life := s.seen[worker.life] + {rec.receivingId}] else s.seen)
  {
    var worker, rec := s.workers[w], s.workers[w].pc.record;
    Cons(s, Does(w, Test), []);
    assert [Does(w, Test)] + [] == [Does(w, Test)];
    var tested := After(s, Does(w, Test));
    var tail;
    if rec.receivingId in s.seen[worker.life] {
      assert tested == s.(workers := s.workers[w := worker.(pc := Marking(rec))]);
      tail, t := MarkOrRaise(tested, w, ok);
    } else {
      assert tested == s.(workers := s.workers[w := worker.(pc := Posting(rec))]);
      tail, t := SendPart(tested, w, posted, known, ok);
    }
    Compose(s, [Does(w, Test)], tail);
    acts := [Does(w, Test)] + tail;
    assert t.workers == s.workers[w := worker.(pc := Idle)];
  }

  lemma MarkOrRaise(s: State, w: nat, ok: bool) returns (acts: seq<Action>, t: State)
    requires w in s.workers && s.workers[w].pc.Marking?
    ensures Legal(s, acts) && t == Final(s, acts)
    ensures t == s.(items := if ok then MarkRow(s.items, s.workers[w].pc.record.receivingId) else s.items,
                    workers := s.workers[w := s.workers[w].(pc := Idle)])
  {
    var move := if ok then Mark else Raise;
    acts := [Does(w, move)];
    Cons(s, Does(w, move), []);
    assert [Does(w, move)] + [] == acts;
    t := After(s, Does(w, move));
  }

  lemma SendPart(s: State, w: nat, posted: bool, known: bool, ok: bool) returns (acts: seq<Action>, t: State)
    requires w in s.workers && s.workers[w].pc.Posting? && s.workers[w].life in s.seen
    requires (ok ==> known) && (known ==> posted)
    ensures Legal(s, acts) && t == Final(s, acts)
    ensures var worker, rec := s.workers[w], s.workers[w].pc.record;
            t == s.(items := if ok then MarkRow(s.items, rec.receivingId) else s.items,
                    workers := s.workers[w := worker.(pc := Idle)],
                    board := if posted then s.board + [Post(SurfacedAs(rec), w, known)] else s.board,
                    seen := if known then s.seen[worker.life := s.seen[worker.life] + {rec.receivingId}] else s.seen)
  {
    var worker, rec := s.workers[w], s.workers[w].pc.record;
    var send := Does(w, Send(if known then Delivered else if posted then AnswerLost else Refused));
    var sent := After(s, send);
    Cons(s, send, []);
    assert [send] + [] == [send];
    if !known {
      return [send], sent;
    }
    assert sent == s.(workers := s.workers[w := worker.(pc := Remembering(rec))],
                      board := s.board + [Post(SurfacedAs(rec), w, true)]);
    var remembered := After(sent, Does(w, Remember));
    assert remembered.workers == s.workers[w := worker.(pc := Marking(rec))];
    var tail;
    tail, t := MarkOrRaise(remembered, w, ok);
    Cons(sent, Does(w, Remember), tail);
    Cons(s, send, [Does(w, Remember)] + tail);
    acts := [send] + ([Does(w, Remember)] + tail);
    assert t.workers == s.workers[w := worker.(pc := Idle)];
  }

  lemma SurfaceRun(s: State, w: nat) returns (acts: seq<Action>)
    requires w in s.workers && s.workers[w].pc.Emitting? && s.workers[w].life in s.seen
    ensures Legal(s, acts) && Final(s, acts) == Surfaced(s, w)
  {
    var rec, known := s.workers[w].pc.record, s.seen[s.workers[w].life];
    var unknown := rec.receivingId !in known;
    var t;
    acts, t := PartRun(s, w, unknown, unknown, true);
    assert !unknown ==> known + {rec.receivingId} == known && s.seen[s.workers[w].life := known] == s.seen;
  }

  // ---- process_scan is a run ------------------------------------------------------------------

  function Items(board: seq<Post>): seq<BoardItem> {
    seq(|board|, k requires 0 <= k < |board| => board[k].item)
  }

  function WorldOf(s: State, w: nat): World
    requires w in s.workers && s.workers[w].life in s.seen
  {
    World(s.inventory, s.items, s.seen[s.workers[w].life], Items(s.board))
  }

  // From the reading of the rows to the choice of one, or of none.
  lemma ReadRun(s: State, w: nat, scan: Scan, matched: Option<InventoryRow>) returns (acts: seq<Action>)
    requires w in s.workers && s.workers[w].life in s.seen && s.workers[w].pc == Idle && s.workers[w].queue == []
    requires Chooses(s.inventory, scan, matched) && !IsRescan(WorldOf(s, w), scan, matched)
    ensures Legal(s, acts)
    ensures Final(s, acts) == s.(workers := s.workers[w := s.workers[w].(pc := Chosen(scan, matched))])
  {
    acts := [];
    Snoc(s, acts, Does(w, Read(scan, matched)));
    acts := [Does(w, Read(scan, matched))];
    if matched.None? && scan.serial != "" {
      Snoc(s, acts, Does(w, LookUp));
      acts := acts + [Does(w, LookUp)];
    }
    assert Final(s, acts).workers == s.workers[w := s.workers[w].(pc := Chosen(scan, matched))];
  }

  // On to the was_emitted question.
  lemma CommitRun(s: State, w: nat, scan: Scan, matched: Option<InventoryRow>) returns (acts: seq<Action>)
    requires w in s.workers && s.workers[w].life in s.seen && s.workers[w].pc == Idle && s.workers[w].queue == []
    requires Chooses(s.inventory, scan, matched) && !IsRescan(WorldOf(s, w), scan, matched)
    ensures Legal(s, acts)
    ensures var t := Final(s, acts);
            && t.inventory == Claimed(s.inventory, scan, matched)
            && t.items == SaveRow(s.items, RecordFor(scan, matched))
            && t.seen == s.seen && t.board == s.board
            && t.workers == s.workers[w := s.workers[w].(pc := Saved(RecordFor(scan, matched)))]
  {
    acts := ReadRun(s, w, scan, matched);
    Snoc(s, acts, Does(w, Commit));
    acts := acts + [Does(w, Commit)];
  }

  // A duplicate: read, look the serial up, stop.
  lemma RescanRun(s: State, w: nat, scan: Scan) returns (acts: seq<Action>)
    requires w in s.workers && s.workers[w].life in s.seen && s.workers[w].pc == Idle && s.workers[w].queue == []
    requires Chooses(s.inventory, scan, None) && IsRescan(WorldOf(s, w), scan, None)
    ensures Legal(s, acts) && Final(s, acts) == s
  {
    acts := [];
    Snoc(s, acts, Does(w, Read(scan, None)));
    acts := [Does(w, Read(scan, None))];
    Snoc(s, acts, Does(w, LookUp));
    acts := acts + [Does(w, LookUp)];
    assert Final(s, acts).workers == s.workers;
  }

  // After the commit: the was_emitted question, and what follows it.
  lemma EmitRun(s: State, w: nat) returns (acts: seq<Action>)
    requires w in s.workers && s.workers[w].life in s.seen && s.workers[w].pc.Saved?
    ensures Legal(s, acts)
    ensures var t, worker, rec := Final(s, acts), s.workers[w], s.workers[w].pc.record;
            var known := s.seen[worker.life];
            && t.inventory == s.inventory
            && t.workers == s.workers[w := worker.(pc := Idle)]
            && if WasEmitted(s.items, rec.receivingId) then t.items == s.items && t.board == s.board && t.seen == s.seen
               else && t.items == MarkRow(s.items, rec.receivingId)
                    && t.seen == s.seen[worker.life := known + {rec.receivingId}]
                    && t.board == if rec.receivingId in known then s.board
                                  else s.board + [Post(SurfacedAs(rec), w, true)]
  {
    var rec := s.workers[w].pc.record;
    acts := [];
    Snoc(s, acts, Does(w, Check));
    acts := [Does(w, Check)];
    var checked := Final(s, acts);
    if !WasEmitted(s.items, rec.receivingId) {
      var tail := SurfaceRun(checked, w);
      Compose(s, acts, tail);
      acts := acts + tail;
      assert Final(s, acts).workers == s.workers[w := s.workers[w].(pc := Idle)];
    }
  }

  lemma CompletedRun(s: State, w: nat, scan: Scan, matched: Option<InventoryRow>)
    returns (acts: seq<Action>, t: State)
    requires w in s.workers && s.workers[w].life in s.seen && s.workers[w].pc == Idle && s.workers[w].queue == []
    requires Chooses(s.inventory, scan, matched) && !IsRescan(WorldOf(s, w), scan, matched)
    ensures Legal(s, acts) && t == Final(s, acts)
    ensures var rec, known := RecordFor(scan, matched), s.seen[s.workers[w].life];
            && t.inventory == Claimed(s.inventory, scan, matched)
            && t.workers == s.workers && s.workers[w].life in t.seen
            && if WasEmitted(s.items, rec.receivingId)
               then t.items == SaveRow(s.items, rec) && t.board == s.board && t.seen[s.workers[w].life] == known
               else && t.items == MarkRow(SaveRow(s.items, rec), rec.receivingId)
                    && t.seen[s.workers[w].life] == known + {rec.receivingId}
                    && t.board == if rec.receivingId in known then s.board
                                  else s.board + [Post(SurfacedAs(rec), w, true)]
  {
    var head := CommitRun(s, w, scan, matched);
    var saved := Final(s, head);
    var tail := EmitRun(saved, w);
    Compose(s, head, tail);
    acts, t := head + tail, Final(saved, tail);
    assert t.workers == s.workers;
  }

  // After the commit, interrupted: before any request, after one whose answer was lost, or after one
  // the process learnt of.
  lemma StopRun(s: State, w: nat, posted: bool, known: bool) returns (acts: seq<Action>, t: State)
    requires w in s.workers && s.workers[w].life in s.seen && s.workers[w].pc.Saved?
    requires var rid := s.workers[w].pc.record.receivingId;
             posted ==> !WasEmitted(s.items, rid) && rid !in s.seen[s.workers[w].life]
    requires known ==> posted
    ensures Legal(s, acts) && t == Final(s, acts)
    ensures var worker, rec := s.workers[w], s.workers[w].pc.record;
            t == s.(workers := s.workers[w := worker.(pc := Idle)],
                    board := if posted then s.board + [Post(SurfacedAs(rec), w, known)] else s.board,
                    seen := if known then s.seen[worker.life := s.seen[worker.life] + {rec.receivingId}] else s.seen)
  {
    var worker, rec := s.workers[w], s.workers[w].pc.record;
    if !posted {
      acts := [Does(w, Raise)];
      Cons(s, Does(w, Raise), []);
      assert [Does(w, Raise)] + [] == acts;
      t := After(s, Does(w, Raise));
      return;
    }
    Cons(s, Does(w, Check), []);
    assert [Does(w, Check)] + [] == [Does(w, Check)];
    var mid := After(s, Does(w, Check));
    assert mid == s.(workers := s.workers[w := worker.(pc := Emitting(rec))]);
    var tail;
    tail, t := PartRun(mid, w, true, known, false);
    Compose(s, [Does(w, Check)], tail);
    acts := [Does(w, Check)] + tail;
    assert t.workers == s.workers[w := worker.(pc := Idle)];
  }

  // Every scan, returning or raising, is a run of its worker: the steps of the machine, taken without
  // interference, are process_scan.
  lemma ScanIsRun(s: State, w: nat, scan: Scan, matched: Option<InventoryRow>, post: World, r: Result<Record, Raised>)
    returns (acts: seq<Action>, t: State)
    requires w in s.workers && s.workers[w].life in s.seen && s.workers[w].pc == Idle && s.workers[w].queue == []
    requires ScanStep(WorldOf(s, w), scan, matched, post, r)
    ensures Legal(s, acts) && t == Final(s, acts)
    ensures t.workers == s.workers && s.workers[w].life in t.seen && WorldOf(t, w) == post
  {
    if r.Ok? {
      acts, t := ReturnIsRun(s, w, scan, matched, post, r.value);
    } else if post == WorldOf(s, w) {
      acts, t := [], s;
    } else {
      acts, t := RaiseIsRun(s, w, scan, matched, post);
    }
  }

  lemma RaiseIsRun(s: State, w: nat, scan: Scan, matched: Option<InventoryRow>, post: World)
    returns (acts: seq<Action>, t: State)
    requires w in s.workers && s.workers[w].life in s.seen && s.workers[w].pc == Idle && s.workers[w].queue == []
    requires StopsShort(WorldOf(s, w), scan, matched, post) && post != WorldOf(s, w)
    ensures Legal(s, acts) && t == Final(s, acts)
    ensures t.workers == s.workers && s.workers[w].life in t.seen && WorldOf(t, w) == post
  {
    var rec, pre := RecordFor(scan, matched), WorldOf(s, w);
    var head := CommitRun(s, w, scan, matched);
    var saved := Final(s, head);
    var posted := post.board != pre.board;
    var known := post.seen != pre.seen;
    assert WasEmitted(saved.items, rec.receivingId) == WasEmitted(s.items, rec.receivingId);
    var tail;
    tail, t := StopRun(saved, w, posted, known);
    Compose(s, head, tail);
    acts := head + tail;
    assert t.workers == s.workers;
    ItemsGrow(s.board, Post(SurfacedAs(rec), w, known));
  }

  lemma ReturnIsRun(s: State, w: nat, scan: Scan, matched: Option<InventoryRow>, post: World, rec: Record)
    returns (acts: seq<Action>, t: State)
    requires w in s.workers && s.workers[w].life in s.seen && s.workers[w].pc == Idle && s.workers[w].queue == []
    requires ScanStep(WorldOf(s, w), scan, matched, post, Ok(rec))
    ensures Legal(s, acts) && t == Final(s, acts)
    ensures t.workers == s.workers && s.workers[w].life in t.seen && WorldOf(t, w) == post
  {
    if IsRescan(WorldOf(s, w), scan, matched) {
      acts := RescanRun(s, w, scan);
      t := s;
    } else {
      ReturnsItsRecord(WorldOf(s, w), scan, matched, post, rec);
      acts, t := CompletedRun(s, w, scan, matched);
      ItemsGrow(s.board, Post(ItemFor(rec), w, true));
    }
  }

  lemma ReturnsItsRecord(pre: World, scan: Scan, matched: Option<InventoryRow>, post: World, rec: Record)
    requires ScanStep(pre, scan, matched, post, Ok(rec)) && !IsRescan(pre, scan, matched)
    ensures rec == RecordFor(scan, matched) && Chooses(pre.inventory, scan, matched)
    ensures SurfacedAs(rec) == ItemFor(rec)
    ensures post.inventory == Claimed(pre.inventory, scan, matched)
    ensures if WasEmitted(pre.items, rec.receivingId)
            then post.items == SaveRow(pre.items, rec) && post.board == pre.board && post.seen == pre.seen
            else post.items == MarkRow(SaveRow(pre.items, rec), rec.receivingId)
                 && post.board == (if rec.receivingId in pre.seen then pre.board else pre.board + [ItemFor(rec)])
                 && post.seen == pre.seen + {rec.receivingId}
  {
    if WasEmitted(pre.items, rec.receivingId) {
      assert MarkRow(SaveRow(pre.items, rec), rec.receivingId) == SaveRow(pre.items, rec);
    }
  }

  lemma ItemsGrow(board: seq<Post>, p: Post)
    ensures Items(board + [p]) == Items(board) + [p.item]
  {
  }

  // ---- Replay can always finish --------------------------------------------------------------

  // One worker, alone, works its queue off: each queued record is marked.
  lemma {:induction false} DrainRun(s: State, w: nat) returns (acts: seq<Action>)
    requires w in s.workers && s.workers[w].pc == Idle && s.workers[w].life in s.seen
    ensures Legal(s, acts)
    ensures forall rid :: WasEmitted(Final(s, acts).items, rid) <==>
              WasEmitted(s.items, rid) || (Queued(s.workers[w].queue, rid) && rid in s.items)
    ensures Final(s, acts).items.Keys == s.items.Keys
    decreases |s.workers[w].queue|
  {
    var q := s.workers[w].queue;
    if q == [] {
      return [];
    }
    var taken := After(s, Does(w, Take));
    var head := SurfaceRun(taken, w);
    var surfaced := Final(taken, head);
    var rest := DrainRun(surfaced, w);
    Compose(taken, head, rest);
    Cons(s, Does(w, Take), head + rest);
    assert q == [q[0]] + q[1..];
    assert forall rid :: Queued(q, rid) <==> rid == q[0].receivingId || Queued(q[1..], rid);
    return [Does(w, Take)] + (head + rest);
  }

  lemma {:induction false} Enumerate(a: set<string>) returns (rids: seq<string>)
    ensures Lists(rids, a)
    decreases |a|
  {
    if a == {} {
      return [];
    }
    var x :| x in a;
    var rest := Enumerate(a - {x});
    return [x] + rest;
  }

  // From every reachable state, whatever crashed or failed before it, a restarted process can bring
  // every stored record to the board and leave nothing pending.
  lemma AlwaysRecoverable(s: State) returns (acts: seq<Action>)
    requires Accountable(s)
    ensures Legal(s, acts)
    ensures var t := Final(s, acts);
            && Pending(t.items) == {} && t.items.Keys == s.items.Keys
            && forall rid :: rid in s.items ==> Posted(t.board, rid)
  {
    var w := s.spawned;
    var s1 := After(s, Boot);
    var s2 := After(s1, Spawn(s.lives));
    var rids := Enumerate(Pending(s.items));
    var s3 := After(s2, Does(w, Poll(rids)));
    var drain := DrainRun(s3, w);
    Cons(s2, Does(w, Poll(rids)), drain);
    Cons(s1, Spawn(s.lives), [Does(w, Poll(rids))] + drain);
    acts := [Boot] + ([Spawn(s.lives)] + ([Does(w, Poll(rids))] + drain));
    Cons(s, Boot, [Spawn(s.lives)] + ([Does(w, Poll(rids))] + drain));
    PollQueuesAll(s.items, rids);
    NoRecordIsLost(s, acts);
    forall rid | rid in s.items ensures WasEmitted(Final(s, acts).items, rid) {
      assert rid in Pending(s.items) || WasEmitted(s.items, rid);
    }
  }

  // So every history from the empty database can be continued to one with nothing pending and every
  // record it stored on the board.
  lemma HistoryIsRecoverable(acts: seq<Action>) returns (more: seq<Action>)
    requires Legal(INIT, acts)
    ensures Legal(INIT, acts + more)
    ensures var t := Final(INIT, acts + more);
            && Pending(t.items) == {} && t.items.Keys == Final(INIT, acts).items.Keys
            && forall rid :: rid in t.items ==> Posted(t.board, rid)
  {
    HistoryIsAccountable(acts);
    more := AlwaysRecoverable(Final(INIT, acts));
    Compose(INIT, acts, more);
  }

  lemma PollQueuesAll(items: Receipts, rids: seq<string>)
    requires Lists(rids, Pending(items))
    ensures forall rid :: Queued(Records(items, rids), rid) <==> rid in Pending(items)
  {
    var q := Records(items, rids);
    forall rid ensures Queued(q, rid) <==> rid in Pending(items) {
      if rid in Pending(items) {
        var k :| 0 <= k < |rids| && rids[k] == rid;
        assert q[k] in q && q[k].receivingId == rid;
      }
      if Queued(q, rid) {
        var r :| r in q && r.receivingId == rid;
        var k :| 0 <= k < |q| && q[k] == r;
        assert rids[k] in rids;
      }
    }
  }

  // ---- Stored rows parse ---------------------------------------------------------------------

  // The clock gives ISO times.
  predicate ClockIs(iso: string -> bool, acts: seq<Action>) {
    forall k :: 0 <= k < |acts| && acts[k].Does? && acts[k].move.Read? ==> iso(acts[k].move.scan.now)
  }

  ghost predicate Parses(iso: string -> bool, s: State) {
    && (forall rid :: rid in s.items ==> ValidRecord(iso, RecordOf(rid, s.items[rid])))
    && (forall w :: w in s.workers && (s.workers[w].pc.Looked? || s.workers[w].pc.Chosen?) ==>
          iso(s.workers[w].pc.scan.now))
  }

  lemma ScanRowIsValid(iso: string -> bool, items: Receipts, scan: Scan, matched: Option<InventoryRow>)
    requires iso(scan.now)
    ensures var rec := RecordFor(scan, matched);
            ValidRecord(iso, RecordOf(rec.receivingId, SaveRow(items, rec)[rec.receivingId]))
  {
    var rec := RecordFor(scan, matched);
    forall dim | dim in DIMENSIONS ensures DimensionOk(dim, rec.productSize) {}
  }

  lemma ParsesKept(iso: string -> bool, s: State, a: Action)
    requires Parses(iso, s) && Enabled(s, a) && ClockIs(iso, [a])
    ensures Parses(iso, After(s, a))
  {
    var items, workers := ItemsAfter(s, a), WorkersAfter(s, a);
    if Commits(a) {
      ScanRowIsValid(iso, s.items, s.workers[a.w].pc.scan, s.workers[a.w].pc.matched);
    }
    assert [a][0] == a;
    forall rid | rid in items ensures ValidRecord(iso, RecordOf(rid, items[rid])) {
      assert (rid in s.items && items[rid].(emitted := true) == s.items[rid].(emitted := true))
             || (Commits(a) && rid == RecordFor(s.workers[a.w].pc.scan, s.workers[a.w].pc.matched).receivingId);
    }
    forall w | w in workers && (workers[w].pc.Looked? || workers[w].pc.Chosen?) ensures iso(workers[w].pc.scan.now) {
      assert (a.Does? && a.w == w) || workers[w] == s.workers[w];
    }
  }

  lemma {:induction false} ParsesAlways(iso: string -> bool, s: State, acts: seq<Action>)
    requires Parses(iso, s) && Legal(s, acts) && ClockIs(iso, acts)
    ensures Parses(iso, Final(s, acts))
    decreases |acts|
  {
    if acts != [] {
      assert [acts[0]][0] == acts[0];
      ParsesKept(iso, s, acts[0]);
      assert forall k :: 0 <= k < |acts[1..]| ==> acts[1..][k] == acts[k + 1];
      ParsesAlways(iso, After(s, acts[0]), acts[1..]);
    }
  }

  // So what the machine polls is what from_dict reads: every stored row of every reachable state
  // goes through it and comes back as its record.
  lemma StoredRowsParse(iso: string -> bool, acts: seq<Action>, rid: string)
    requires Legal(INIT, acts) && ClockIs(iso, acts) && rid in Final(INIT, acts).items
    ensures var row := Final(INIT, acts).items[rid];
            FromDict(iso, RowDict(rid, row)) == Ok(RecordOf(rid, row))
  {
    ParsesAlways(iso, INIT, acts);
    ReplayReadsRow(iso, rid, Final(INIT, acts).items[rid]);
  }
}
