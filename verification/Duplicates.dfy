/** How often the protocol can create a board item for one record, and when it can no longer. */
module Duplicates {
  import opened Schema
  import opened Tables
  import opened Sink
  import opened Receive
  import opened Protocol

  // ---- Counting -----------------------------------------------------------------------

  function Count(board: seq<Post>, rid: string): nat {
    if board == [] then 0
    else Count(board[..|board| - 1], rid) + if board[|board| - 1].item.receivingId == rid then 1 else 0
  }

  // Items whose creator never learnt of them.
  function CountLost(board: seq<Post>, rid: string): nat {
    if board == [] then 0
    else CountLost(board[..|board| - 1], rid)
         + if board[|board| - 1].item.receivingId == rid && !board[|board| - 1].acked then 1 else 0
  }

  function Creators(board: seq<Post>, rid: string): set<nat> {
    set p | p in board && p.acked && p.item.receivingId == rid :: p.worker
  }

  // No worker is acknowledged twice for one record.
  ghost predicate AckedOnce(board: seq<Post>) {
    forall j, k | 0 <= j < k < |board| ::
      board[j].acked && board[k].acked && board[j].item.receivingId == board[k].item.receivingId
      ==> board[j].worker != board[k].worker
  }

  lemma {:induction false} CountIsCreatorsAndLost(board: seq<Post>, rid: string)
    requires AckedOnce(board)
    ensures Count(board, rid) == |Creators(board, rid)| + CountLost(board, rid)
  {
    if board != [] {
      var init, p := board[..|board| - 1], board[|board| - 1];
      assert board == init + [p];
      CountIsCreatorsAndLost(init, rid);
      if p.acked && p.item.receivingId == rid {
        assert Creators(board, rid) == Creators(init, rid) + {p.worker};
        assert forall j :: 0 <= j < |init| ==> board[j] == init[j];
        assert p.worker !in Creators(init, rid);
      } else {
        assert Creators(board, rid) == Creators(init, rid);
      }
    }
  }

  lemma {:induction false} BoundedSet(a: set<nat>, n: nat)
    requires forall x :: x in a ==> x < n
    ensures |a| <= n
  {
    if n > 0 {
      BoundedSet(a - {n - 1}, n - 1);
    } else {
      assert a == {};
    }
  }

  // ---- Invariant ------------------------------------------------------------------------

  ghost predicate WorkersStarted(s: State) {
    forall p :: p in s.board ==> p.worker < s.spawned
  }

  // A live worker that was acknowledged for a record finds it in its process's memory, except
  // between the answer and the next step.
  ghost predicate AckedIsKnown(s: State) {
    forall w, rid :: w in s.workers && AckedBy(s.board, w, rid) ==>
      && s.workers[w].life in s.seen
      && (rid in s.seen[s.workers[w].life]
          || (s.workers[w].pc.Remembering? && s.workers[w].pc.record.receivingId == rid))
  }

  ghost predicate PostingIsNew(s: State) {
    forall w :: w in s.workers && s.workers[w].pc.Posting? ==>
      !AckedBy(s.board, w, s.workers[w].pc.record.receivingId)
  }

  ghost predicate Counted(s: State) {
    Shape(s) && WorkersStarted(s) && AckedOnce(s.board) && AckedIsKnown(s) && PostingIsNew(s)
  }

  lemma AckedByGrows(board: seq<Post>, p: Post)
    ensures forall w, rid :: AckedBy(board + [p], w, rid) <==>
              AckedBy(board, w, rid) || (p.acked && p.worker == w && p.item.receivingId == rid)
  {
    forall w, rid
      ensures AckedBy(board + [p], w, rid) <==>
                AckedBy(board, w, rid) || (p.acked && p.worker == w && p.item.receivingId == rid)
    {
      if q :| q in board && q.acked && q.worker == w && q.item.receivingId == rid {
        assert q in board + [p];
      }
      if p.acked && p.worker == w && p.item.receivingId == rid {
        assert p in board + [p];
      }
    }
  }

  // What a step adds to the acknowledged creations.
  predicate Acks(s: State, a: Action, w: nat, rid: string) {
    && a.Does? && a.w == w && a.move == Send(Delivered)
    && w in s.workers && s.workers[w].pc.Posting? && s.workers[w].pc.record.receivingId == rid
  }

  lemma AcksAfter(s: State, a: Action)
    requires Enabled(s, a)
    ensures forall w, rid :: AckedBy(After(s, a).board, w, rid) <==> AckedBy(s.board, w, rid) || Acks(s, a, w, rid)
  {
    if a.Does? && a.move.Send? && !a.move.reply.Refused? {
      AckedByGrows(s.board, Post(SurfacedAs(s.workers[a.w].pc.record), a.w, a.move.reply.Delivered?));
    }
  }

  lemma WorkersStartedKept(s: State, a: Action)
    requires Shape(s) && WorkersStarted(s) && Enabled(s, a)
    ensures WorkersStarted(After(s, a))
  {
    if a.Does? {
      assert WorkerOk(s, a.w);
    }
  }

  lemma AckedOnceKept(s: State, a: Action)
    requires Counted(s) && Enabled(s, a)
    ensures AckedOnce(After(s, a).board)
  {
    if a.Does? && a.move == Send(Delivered) {
      var rid := s.workers[a.w].pc.record.receivingId;
      assert !AckedBy(s.board, a.w, rid);
      forall j | 0 <= j < |s.board| && s.board[j].acked && s.board[j].item.receivingId == rid
        ensures s.board[j].worker != a.w
      {
        assert s.board[j] in s.board;
      }
    }
  }

  lemma AckedIsKnownKept(s: State, a: Action)
    requires Counted(s) && Enabled(s, a)
    ensures AckedIsKnown(After(s, a))
  {
    AcksAfter(s, a);
    var board, workers, seen := After(s, a).board, WorkersAfter(s, a), SeenAfter(s, a);
    forall w, rid | w in workers && AckedBy(board, w, rid)
      ensures workers[w].life in seen
              && (rid in seen[workers[w].life]
                  || (workers[w].pc.Remembering? && workers[w].pc.record.receivingId == rid))
    {
      if w in s.workers {
        assert WorkerOk(s, w);
        assert workers[w].life == s.workers[w].life || a.Spawn?;
      }
    }
  }

  lemma PostingIsNewKept(s: State, a: Action)
    requires Counted(s) && Enabled(s, a)
    ensures PostingIsNew(After(s, a))
  {
    AcksAfter(s, a);
    var board, workers := After(s, a).board, WorkersAfter(s, a);
    forall w | w in workers && workers[w].pc.Posting? ensures !AckedBy(board, w, workers[w].pc.record.receivingId) {
      if a.Does? && a.w == w {
        assert a.move.Test?;
      } else {
        assert workers[w] == s.workers[w];
      }
    }
  }

  lemma CountedKept(s: State, a: Action)
    requires Counted(s) && Enabled(s, a)
    ensures Counted(After(s, a))
  {
    ShapeKept(s, a);
    WorkersStartedKept(s, a);
    AckedOnceKept(s, a);
    AckedIsKnownKept(s, a);
    PostingIsNewKept(s, a);
  }

  lemma {:induction false} CountedAlways(s: State, acts: seq<Action>)
    requires Counted(s) && Legal(s, acts)
    ensures Counted(Final(s, acts))
    decreases |acts|
  {
    if acts != [] {
      CountedKept(s, acts[0]);
      CountedAlways(After(s, acts[0]), acts[1..]);
    }
  }

  // Bounded duplication. Over any run a record has at most one board item for every worker ever
  // started, plus one for every request whose answer was lost.
  lemma BoundedDuplication(acts: seq<Action>, rid: string)
    requires Legal(INIT, acts)
    ensures Count(Final(INIT, acts).board, rid) <= Final(INIT, acts).spawned + CountLost(Final(INIT, acts).board, rid)
  {
    CountedAlways(INIT, acts);
    var t := Final(INIT, acts);
    CountIsCreatorsAndLost(t.board, rid);
    BoundedSet(Creators(t.board, rid), t.spawned);
  }

  // ---- After the mark ---------------------------------------------------------------------

  // The worker can still create an item for the record without asking was_emitted.
  predicate InWindow(worker: Worker, rid: string) {
    || ((worker.pc.Emitting? || worker.pc.Posting?) && worker.pc.record.receivingId == rid)
    || Queued(worker.queue, rid)
  }

  function Window(s: State, rid: string): set<nat> {
    set w | w in s.workers && InWindow(s.workers[w], rid)
  }

  // Once a record is marked, each step either leaves the window no larger and creates nothing for
  // it, or creates one item and takes the creator out of the window.
  lemma WindowShrinks(s: State, a: Action, rid: string)
    requires Shape(s) && Enabled(s, a) && WasEmitted(s.items, rid)
    ensures Window(After(s, a), rid) <= Window(s, rid)
    ensures Count(After(s, a).board, rid) > Count(s.board, rid) ==>
              a.Does? && a.w in Window(s, rid) && a.w !in Window(After(s, a), rid)
    ensures Count(After(s, a).board, rid) <= Count(s.board, rid) + 1
  {
    var t := After(s, a);
    forall w | w in Window(t, rid) ensures w in Window(s, rid) {
      if a.Does? && a.w == w {
        if a.move.Poll? {
          QueueFromPoll(s.items, a.move.rids);
        } else if a.move.Take? {
          TakeHead(s.workers[w].queue);
        }
      } else {
        assert !a.Spawn? || w != s.spawned;
      }
    }
    assert a.Does? ==> WorkerOk(s, a.w);
    if t.board != s.board {
      assert t.board[..|t.board| - 1] == s.board;
    }
  }

  // After a record is marked, at most one more item is created for each worker in its window at
  // that moment, whatever runs, crashes or is lost from then on.
  lemma {:induction false} LateItemsAreBounded(s: State, acts: seq<Action>, rid: string)
    requires Shape(s) && Legal(s, acts) && WasEmitted(s.items, rid)
    ensures Count(Final(s, acts).board, rid) + |Window(Final(s, acts), rid)| <= Count(s.board, rid) + |Window(s, rid)|
    decreases |acts|
  {
    if acts != [] {
      var t := After(s, acts[0]);
      ShapeKept(s, acts[0]);
      StepKeepsRecords(s, acts[0]);
      WindowShrinks(s, acts[0], rid);
      LateItemsAreBounded(t, acts[1..], rid);
      if Count(t.board, rid) > Count(s.board, rid) {
        SmallerSet(Window(t, rid), Window(s, rid) - {acts[0].w});
      } else {
        SmallerSet(Window(t, rid), Window(s, rid));
      }
    }
  }

  lemma SmallerSet(a: set<nat>, b: set<nat>)
    requires a <= b
    ensures |a| <= |b|
  {
    assert b == a + (b - a);
  }

  // ---- A single writer ----------------------------------------------------------------------

  // Never two workers at once.
  ghost predicate SingleWriter(s: State, acts: seq<Action>)
    decreases |acts|
  {
    && |s.workers| <= 1
    && (acts == [] || (Enabled(s, acts[0]) && SingleWriter(After(s, acts[0]), acts[1..])))
  }

  ghost predicate MarkedIsOutOfReach(s: State) {
    forall rid :: WasEmitted(s.items, rid) ==> Window(s, rid) == {}
  }

  lemma OnlyWorker(s: State, w: nat, v: nat)
    requires |s.workers| <= 1 && w in s.workers && v in s.workers
    ensures w == v
  {
    assert {w, v} <= s.workers.Keys;
    SmallerSet({w, v}, s.workers.Keys);
  }

  lemma MarkedIsOutOfReachKept(s: State, a: Action)
    requires Shape(s) && MarkedIsOutOfReach(s) && |s.workers| <= 1 && Enabled(s, a)
    ensures MarkedIsOutOfReach(After(s, a))
  {
    var t := After(s, a);
    forall rid | WasEmitted(t.items, rid) ensures Window(t, rid) == {} {
      if WasEmitted(s.items, rid) {
        WindowShrinks(s, a, rid);
      } else {
        assert a.Does? && a.move.Mark? && rid == s.workers[a.w].pc.record.receivingId;
        assert WorkerOk(s, a.w);
        forall w | w in s.workers ensures w == a.w {
          OnlyWorker(s, w, a.w);
        }
      }
    }
  }

  // With a single writer a marked record is final: its mark stays and no further item is created
  // for it, even when the record is saved again.
  lemma {:induction false} MarkedIsFinal(s: State, acts: seq<Action>, rid: string)
    requires Shape(s) && MarkedIsOutOfReach(s) && SingleWriter(s, acts) && WasEmitted(s.items, rid)
    ensures Legal(s, acts)
    ensures WasEmitted(Final(s, acts).items, rid)
    ensures Count(Final(s, acts).board, rid) == Count(s.board, rid)
    decreases |acts|
  {
    if acts != [] {
      ShapeKept(s, acts[0]);
      StepKeepsRecords(s, acts[0]);
      MarkedIsOutOfReachKept(s, acts[0]);
      WindowShrinks(s, acts[0], rid);
      BoardNeverShrinks(s, acts[0], rid);
      MarkedIsFinal(After(s, acts[0]), acts[1..], rid);
    }
  }

  lemma BoardNeverShrinks(s: State, a: Action, rid: string)
    requires Enabled(s, a)
    ensures Count(After(s, a).board, rid) >= Count(s.board, rid)
  {
    var t := After(s, a);
    if t.board != s.board {
      assert t.board[..|t.board| - 1] == s.board;
    }
  }

  // The single writer's whole history starts there.
  lemma {:induction false} SingleWriterReaches(s: State, acts: seq<Action>)
    requires Shape(s) && MarkedIsOutOfReach(s) && SingleWriter(s, acts)
    ensures Legal(s, acts) && Shape(Final(s, acts)) && MarkedIsOutOfReach(Final(s, acts))
    decreases |acts|
  {
    if acts != [] {
      ShapeKept(s, acts[0]);
      MarkedIsOutOfReachKept(s, acts[0]);
      SingleWriterReaches(After(s, acts[0]), acts[1..]);
    }
  }

  // So in any single-writer history from the empty database, split at a point where a record is
  // already marked, the rest of the history keeps the mark and creates no item for it.
  lemma SingleWriterNeverRepeats(acts: seq<Action>, more: seq<Action>, rid: string)
    requires Legal(INIT, acts) && SingleWriter(INIT, acts) && SingleWriter(Final(INIT, acts), more)
    requires WasEmitted(Final(INIT, acts).items, rid)
    ensures Legal(Final(INIT, acts), more)
    ensures WasEmitted(Final(Final(INIT, acts), more).items, rid)
    ensures Count(Final(Final(INIT, acts), more).board, rid) == Count(Final(INIT, acts).board, rid)
  {
    SingleWriterReaches(INIT, acts);
    MarkedIsFinal(Final(INIT, acts), more, rid);
  }
}
