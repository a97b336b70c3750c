/** When a further board item can be created for a stored record, and runs that create as many as allowed. */
module Reposts {
  import opened Wrappers
  import opened Schema
  import opened Tables
  import opened Sink
  import opened Receive
  import opened Protocol
  import opened Duplicates
  import opened Recovery
  import opened Races

  // ---- Single steps ---------------------------------------------------------------------------

  ghost predicate Free(s: State, w: nat) {
    w in s.workers && s.workers[w].pc == Idle && s.workers[w].queue == [] && s.workers[w].life in s.seen
  }

  ghost predicate Unknown(s: State, w: nat, rid: string) {
    w in s.workers && s.workers[w].life in s.seen && rid !in s.seen[s.workers[w].life]
  }

  ghost function With(s: State, w: nat, pc: Pc, queue: seq<Record>): State
    requires w in s.workers
  {
    s.(workers := s.workers[w := Worker(s.workers[w].life, pc, queue)])
  }

  lemma BootAndSpawn(s: State) returns (t: State)
    requires forall w :: w in s.workers ==> w < s.spawned
    ensures Legal(s, [Boot, Spawn(s.lives)]) && t == Final(s, [Boot, Spawn(s.lives)])
    ensures t == s.(lives := s.lives + 1, seen := s.seen[s.lives := {}], spawned := s.spawned + 1,
                    workers := s.workers[s.spawned := Worker(s.lives, Idle, [])])
  {
    var mid := After(s, Boot);
    t := After(mid, Spawn(s.lives));
    Cons(mid, Spawn(s.lives), []);
    Cons(s, Boot, [Spawn(s.lives)] + []);
    assert [Boot, Spawn(s.lives)] == [Boot] + ([Spawn(s.lives)] + []);
  }

  lemma PollAndTake(s: State, w: nat, rids: seq<string>) returns (t: State)
    requires Free(s, w) && Lists(rids, Pending(s.items)) && rids != []
    ensures Legal(s, [Does(w, Poll(rids)), Does(w, Take)]) && t == Final(s, [Does(w, Poll(rids)), Does(w, Take)])
    ensures rids[0] in s.items
    ensures t == With(s, w, Emitting(RecordOf(rids[0], s.items[rids[0]])), Records(s.items, rids)[1..])
  {
    assert rids[0] in rids;
    var mid := After(s, Does(w, Poll(rids)));
    t := After(mid, Does(w, Take));
    assert t.workers == With(s, w, Emitting(RecordOf(rids[0], s.items[rids[0]])), Records(s.items, rids)[1..]).workers;
    Cons(mid, Does(w, Take), []);
    Cons(s, Does(w, Poll(rids)), [Does(w, Take)] + []);
    assert [Does(w, Poll(rids)), Does(w, Take)] == [Does(w, Poll(rids))] + ([Does(w, Take)] + []);
  }

  // A worker about to test an id its process does not know creates an item for it.
  lemma TestAndSend(s: State, w: nat, reply: Reply) returns (t: State)
    requires w in s.workers && s.workers[w].pc.Emitting? && Unknown(s, w, s.workers[w].pc.record.receivingId)
    requires !reply.Refused?
    ensures Legal(s, [Does(w, Test), Does(w, Send(reply))]) && t == Final(s, [Does(w, Test), Does(w, Send(reply))])
    ensures var rec := s.workers[w].pc.record;
            t == With(s, w, if reply.Delivered? then Remembering(rec) else Idle, s.workers[w].queue)
                 .(board := s.board + [Post(SurfacedAs(rec), w, reply.Delivered?)])
  {
    var rec := s.workers[w].pc.record;
    var mid := After(s, Does(w, Test));
    assert mid == With(s, w, Posting(rec), s.workers[w].queue);
    t := After(mid, Does(w, Send(reply)));
    assert t.workers
        == With(s, w, if reply.Delivered? then Remembering(rec) else Idle, s.workers[w].queue).workers;
    Cons(mid, Does(w, Send(reply)), []);
    Cons(s, Does(w, Test), [Does(w, Send(reply))] + []);
    assert [Does(w, Test), Does(w, Send(reply))] == [Does(w, Test)] + ([Does(w, Send(reply))] + []);
  }

  function ReplayOf(w: nat, rids: seq<string>, reply: Reply): seq<Action> {
    [Does(w, Poll(rids)), Does(w, Take)] + [Does(w, Test), Does(w, Send(reply))]
  }

  // A replay, from the poll to the answer of its first request.
  lemma ReplayFirst(s: State, w: nat, rids: seq<string>, reply: Reply) returns (t: State)
    requires Free(s, w) && Lists(rids, Pending(s.items)) && rids != [] && Unknown(s, w, rids[0]) && !reply.Refused?
    ensures Legal(s, ReplayOf(w, rids, reply)) && t == Final(s, ReplayOf(w, rids, reply)) && rids[0] in s.items
    ensures var rec := RecordOf(rids[0], s.items[rids[0]]);
            t == With(s, w, if reply.Delivered? then Remembering(rec) else Idle, Records(s.items, rids)[1..])
                 .(board := s.board + [Post(SurfacedAs(rec), w, reply.Delivered?)])
  {
    var mid := PollAndTake(s, w, rids);
    t := TestAndSend(mid, w, reply);
    Compose(s, [Does(w, Poll(rids)), Does(w, Take)], [Does(w, Test), Does(w, Send(reply))]);
    assert t.workers == With(s, w, t.workers[w].pc, t.workers[w].queue).workers;
  }

  lemma CountGrows(board: seq<Post>, p: Post, rid: string)
    ensures Count(board + [p], rid) == Count(board, rid) + if p.item.receivingId == rid then 1 else 0
    ensures CountLost(board + [p], rid)
         == CountLost(board, rid) + if p.item.receivingId == rid && !p.acked then 1 else 0
  {
    assert (board + [p])[..|board|] == board;
  }

  // ---- One more item in every lifetime -----------------------------------------------------------

  lemma PendingFirst(items: Receipts, rid: string) returns (rids: seq<string>)
    requires rid in Pending(items)
    ensures Lists(rids, Pending(items)) && rids != [] && rids[0] == rid
    ensures Pending(items) == {rid} ==> rids == [rid]
  {
    if Pending(items) == {rid} {
      rids := [rid];
    } else {
      var rest := Enumerate(Pending(items) - {rid});
      rids := [rid] + rest;
      assert rid !in rest;
    }
  }

  lemma CrashEnds(s: State, t: State, w: nat)
    requires s.seen.Keys + {s.lives} == t.seen.Keys && s.lives !in s.seen && w !in s.workers
    requires forall l :: l in s.seen ==> t.seen[l] == s.seen[l]
    requires t.workers.Keys == s.workers.Keys + {w} && t.workers[w].life == s.lives
    requires forall v :: v in s.workers ==> s.workers[v].life != s.lives && t.workers[v] == s.workers[v]
    ensures Enabled(t, Crash(s.lives))
    ensures After(t, Crash(s.lives)) == t.(seen := s.seen, workers := s.workers)
  {
    var u := After(t, Crash(s.lives));
    assert u.seen == s.seen;
    assert u.workers == s.workers;
  }

  // The life of a process from its first poll to a crash before the mark.
  lemma PostAndCrash(s: State, s2: State, rid: string) returns (rest: seq<Action>, t: State, p: Post)
    requires Shape(s) && rid in Pending(s.items)
    requires s2 == s.(lives := s.lives + 1, seen := s.seen[s.lives := {}], spawned := s.spawned + 1,
                      workers := s.workers[s.spawned := Worker(s.lives, Idle, [])])
    ensures Legal(s2, rest) && t == Final(s2, rest) && NoSpawns(rest)
    ensures p.item.receivingId == rid && p.acked
    ensures t == s.(lives := s.lives + 1, spawned := s.spawned + 1, board := s.board + [p])
  {
    LivesAreOld(s);
    var w := s.spawned;
    var rids := PendingFirst(s.items, rid);
    var s6 := ReplayFirst(s2, w, rids, Delivered);
    p := Post(SurfacedAs(RecordOf(rid, s.items[rid])), w, true);
    CrashEnds(s, s6, w);
    t := s.(lives := s.lives + 1, spawned := s.spawned + 1, board := s.board + [p]);
    rest := ReplayThenCrash(s2, w, rids, s.lives, s6, t);
  }

  lemma ReplayThenCrash(s: State, w: nat, rids: seq<string>, life: nat, mid: State, t: State)
    returns (acts: seq<Action>)
    requires Legal(s, ReplayOf(w, rids, Delivered)) && mid == Final(s, ReplayOf(w, rids, Delivered))
    requires Enabled(mid, Crash(life)) && t == After(mid, Crash(life))
    ensures Legal(s, acts) && t == Final(s, acts) && NoSpawns(acts)
  {
    Snoc(s, ReplayOf(w, rids, Delivered), Crash(life));
    acts := ReplayOf(w, rids, Delivered) + [Crash(life)];
  }

  lemma LivesAreOld(s: State)
    requires Shape(s)
    ensures s.lives !in s.seen && s.spawned !in s.workers
    ensures forall w :: w in s.workers ==> w < s.spawned && s.workers[w].life < s.lives
  {
    forall w | w in s.workers ensures w < s.spawned && s.workers[w].life < s.lives {
      assert WorkerOk(s, w);
    }
  }

  // In any state, whatever went before, a new process can create one more item for an unmarked record
  // and crash before it marks it.
  lemma OneMore(s: State, rid: string) returns (acts: seq<Action>, t: State, p: Post)
    requires Shape(s) && rid in Pending(s.items)
    ensures Legal(s, acts) && t == Final(s, acts)
    ensures p.item.receivingId == rid && p.acked
    ensures t == s.(lives := s.lives + 1, spawned := s.spawned + 1, board := s.board + [p])
    ensures |acts| >= 2 && acts[..2] == [Boot, Spawn(s.lives)] && NoSpawns(acts[2..])
  {
    LivesAreOld(s);
    var s2 := BootAndSpawn(s);
    var rest;
    rest, t, p := PostAndCrash(s, s2, rid);
    Compose(s, [Boot, Spawn(s.lives)], rest);
    acts := [Boot, Spawn(s.lives)] + rest;
    assert acts[2..] == rest && acts[..2] == [Boot, Spawn(s.lives)];
  }

  predicate NoSpawns(acts: seq<Action>) {
    forall k :: 0 <= k < |acts| ==> !acts[k].Spawn?
  }

  // ---- A single writer --------------------------------------------------------------------------------

  lemma FewerWorkers(s: State, a: Action)
    requires Enabled(s, a) && !a.Spawn? && |s.workers| <= 1
    ensures |After(s, a).workers| <= 1
  {
    var t := After(s, a);
    SmallerDomain(t.workers, s.workers);
  }

  lemma SmallerDomain(a: map<nat, Worker>, b: map<nat, Worker>)
    requires a.Keys <= b.Keys
    ensures |a| <= |b|
  {
    SmallerSet(a.Keys, b.Keys);
    assert |a.Keys| == |a| && |b.Keys| == |b|;
  }

  lemma {:induction false} NoSpawnsKeepSingle(s: State, acts: seq<Action>)
    requires Legal(s, acts) && NoSpawns(acts) && |s.workers| <= 1
    ensures SingleWriter(s, acts)
    decreases |acts|
  {
    if acts != [] {
      FewerWorkers(s, acts[0]);
      assert forall k :: 0 <= k < |acts[1..]| ==> acts[1..][k] == acts[k + 1];
      NoSpawnsKeepSingle(After(s, acts[0]), acts[1..]);
    }
  }

  lemma {:induction false} SingleCompose(s: State, xs: seq<Action>, ys: seq<Action>)
    requires Legal(s, xs) && SingleWriter(s, xs) && SingleWriter(Final(s, xs), ys)
    ensures SingleWriter(s, xs + ys)
    decreases |xs|
  {
    if xs == [] {
      assert xs + ys == ys;
    } else {
      assert (xs + ys)[1..] == xs[1..] + ys;
      SingleCompose(After(s, xs[0]), xs[1..], ys);
    }
  }

  // A lifetime that starts with no worker about, and spawns one.
  lemma LifetimeIsSingle(s: State, acts: seq<Action>)
    requires s.workers == map[] && Legal(s, acts)
    requires |acts| >= 2 && acts[..2] == [Boot, Spawn(s.lives)] && NoSpawns(acts[2..])
    ensures SingleWriter(s, acts)
  {
    assert acts[0] == acts[..2][0] && acts[1] == acts[..2][1] && acts[1..][0] == acts[1];
    assert acts[1..][1..] == acts[2..];
    var s1 := After(s, Boot);
    var s2 := After(s1, Spawn(s.lives));
    assert s2.workers == map[s.spawned := Worker(s.lives, Idle, [])];
    NoSpawnsKeepSingle(s2, acts[2..]);
    assert SingleWriter(s1, acts[1..]);
  }

  // ---- The bound is reached --------------------------------------------------------------------------

  const LONE_SCAN := Scan("X", "7", "", "t")
  const LONE_RECORD := RecordFor(LONE_SCAN, None)

  // A scan that matches nothing on an empty catalog, stored and interrupted before was_emitted.
  lemma StoreOne() returns (acts: seq<Action>, t: State)
    ensures Legal(INIT, acts) && t == Final(INIT, acts)
    ensures |acts| >= 2 && acts[..2] == [Boot, Spawn(0)] && NoSpawns(acts[2..])
    ensures t.board == [] && t.lives == t.spawned == 1 && t.seen == map[0 := {}]
    ensures t.workers == map[0 := Worker(0, Idle, [])] && Pending(t.items) == {LONE_RECORD.receivingId}
  {
    var s2 := BootAndSpawn(INIT);
    t := CommitAndStop(s2, 0, LONE_SCAN, None);
    Compose(INIT, [Boot, Spawn(0)], CommitOnly(0, LONE_SCAN, None));
    acts := [Boot, Spawn(0)] + CommitOnly(0, LONE_SCAN, None);
    assert acts[2..] == CommitOnly(0, LONE_SCAN, None) && acts[..2] == [Boot, Spawn(0)];
  }

  // The same process polls again, and loses the answer of its request.
  lemma LoseAnswer(s: State, w: nat, rid: string) returns (acts: seq<Action>, t: State, p: Post)
    requires Free(s, w) && Unknown(s, w, rid) && Pending(s.items) == {rid}
    ensures Legal(s, acts) && t == Final(s, acts) && NoSpawns(acts)
    ensures p.item.receivingId == rid && !p.acked && t == s.(board := s.board + [p])
  {
    var rids := PendingFirst(s.items, rid);
    acts := ReplayOf(w, rids, AnswerLost);
    t := ReplayFirst(s, w, rids, AnswerLost);
    p := Post(SurfacedAs(RecordOf(rid, s.items[rid])), w, false);
    assert Records(s.items, rids)[1..] == [];
    assert t.workers == s.workers;
  }

  lemma {:induction false} LoseAnswers(s: State, w: nat, rid: string, m: nat) returns (acts: seq<Action>, t: State)
    requires Free(s, w) && Unknown(s, w, rid) && Pending(s.items) == {rid}
    ensures Legal(s, acts) && t == Final(s, acts) && NoSpawns(acts)
    ensures t == s.(board := t.board)
    ensures Count(t.board, rid) == Count(s.board, rid) + m && CountLost(t.board, rid) == CountLost(s.board, rid) + m
    decreases m
  {
    if m == 0 {
      return [], s;
    }
    var one, mid, p := LoseAnswer(s, w, rid);
    CountGrows(s.board, p, rid);
    var more;
    more, t := LoseAnswers(mid, w, rid, m - 1);
    Compose(s, one, more);
    acts := one + more;
  }

  // The only process creates an item, learns of it, and crashes.
  lemma PostThenCrash(s: State, w: nat, rid: string) returns (acts: seq<Action>, t: State)
    requires Free(s, w) && Unknown(s, w, rid) && Pending(s.items) == {rid}
    requires s.workers == map[w := Worker(0, Idle, [])] && s.seen.Keys == {0}
    ensures Legal(s, acts) && t == Final(s, acts) && NoSpawns(acts)
    ensures t == s.(workers := map[], seen := map[], board := t.board)
    ensures Count(t.board, rid) == Count(s.board, rid) + 1 && CountLost(t.board, rid) == CountLost(s.board, rid)
  {
    var rids := PendingFirst(s.items, rid);
    var mid := ReplayFirst(s, w, rids, Delivered);
    CountGrows(s.board, mid.board[|s.board|], rid);
    Snoc(s, ReplayOf(w, rids, Delivered), Crash(0));
    acts := ReplayOf(w, rids, Delivered) + [Crash(0)];
    t := After(mid, Crash(0));
    assert t.workers == map[] && t.seen == map[];
  }

  lemma RestOfLife(s: State, rid: string, m: nat) returns (acts: seq<Action>, t: State)
    requires s.workers == map[0 := Worker(0, Idle, [])] && s.seen == map[0 := {}] && Pending(s.items) == {rid}
    ensures Legal(s, acts) && t == Final(s, acts) && NoSpawns(acts)
    ensures t == s.(workers := map[], seen := map[], board := t.board)
    ensures Count(t.board, rid) == Count(s.board, rid) + m + 1
    ensures CountLost(t.board, rid) == CountLost(s.board, rid) + m
  {
    var lose, mid := LoseAnswers(s, 0, rid, m);
    var last;
    last, t := PostThenCrash(mid, 0, rid);
    Compose(s, lose, last);
    acts := lose + last;
  }

  // A first lifetime with m lost answers and one item its process learns of.
  lemma FirstLifetime(m: nat) returns (acts: seq<Action>, t: State)
    ensures Legal(INIT, acts) && t == Final(INIT, acts) && SingleWriter(INIT, acts)
    ensures t.workers == map[] && t.lives == t.spawned == 1 && LONE_RECORD.receivingId in Pending(t.items)
    ensures Count(t.board, LONE_RECORD.receivingId) == m + 1 && CountLost(t.board, LONE_RECORD.receivingId) == m
  {
    var store, s := StoreOne();
    var rest;
    rest, t := RestOfLife(s, LONE_RECORD.receivingId, m);
    Compose(INIT, store, rest);
    acts := store + rest;
    assert acts[..2] == store[..2] && acts[2..] == store[2..] + rest;
    LifetimeIsSingle(INIT, acts);
  }

  lemma {:induction false} MoreLifetimes(s: State, rid: string, n: nat) returns (acts: seq<Action>, t: State)
    requires Shape(s) && rid in Pending(s.items) && s.workers == map[]
    ensures Legal(s, acts) && t == Final(s, acts) && SingleWriter(s, acts)
    ensures t.lives == s.lives + n && t.spawned == s.spawned + n && t.items == s.items
    ensures Count(t.board, rid) == Count(s.board, rid) + n && CountLost(t.board, rid) == CountLost(s.board, rid)
    decreases n
  {
    if n == 0 {
      return [], s;
    }
    var life, mid, p := OneMore(s, rid);
    CountGrows(s.board, p, rid);
    LifetimeIsSingle(s, life);
    assert Shape(mid);
    var more;
    more, t := MoreLifetimes(mid, rid, n - 1);
    Compose(s, life, more);
    SingleCompose(s, life, more);
    acts := life + more;
  }

  // The bounds are attained: for every number of lifetimes and of lost answers there is a single-writer
  // history from the empty database with one item of one record for each of them. Two lifetimes and no
  // lost answer give two items.
  lemma BoundIsReached(n: nat, m: nat) returns (acts: seq<Action>, rid: string)
    requires n > 0
    ensures Legal(INIT, acts) && SingleWriter(INIT, acts)
    ensures var t := Final(INIT, acts);
            && t.lives == t.spawned == n && CountLost(t.board, rid) == m
            && Count(t.board, rid) == n + m && !WasEmitted(t.items, rid)
  {
    rid := LONE_RECORD.receivingId;
    var first, s := FirstLifetime(m);
    HistoryIsAccountable(first);
    var more, t := MoreLifetimes(s, rid, n - 1);
    Compose(INIT, first, more);
    SingleCompose(INIT, first, more);
    acts := first + more;
  }

  // ---- When an item can still come ---------------------------------------------------------------------

  // The worker will create an item for the record if its requests go through: it is sending one, or it
  // is about to test or has still to take the record while its process does not know it.
  ghost predicate Reaches(s: State, w: nat, rid: string) {
    && w in s.workers
    && var worker := s.workers[w];
       || (worker.pc.Posting? && worker.pc.record.receivingId == rid)
       || (Unknown(s, w, rid)
           && ((worker.pc.Emitting? && worker.pc.record.receivingId == rid) || Queued(worker.queue, rid)))
  }

  ghost predicate Gains(s: State, acts: seq<Action>, rid: string) {
    Legal(s, acts) && Count(Final(s, acts).board, rid) > Count(s.board, rid)
  }

  // A marked record nobody reaches stays out of reach, and its items as they are.
  lemma OutOfReachKept(s: State, a: Action, rid: string)
    requires Shape(s) && Enabled(s, a) && WasEmitted(s.items, rid) && forall w :: !Reaches(s, w, rid)
    ensures forall w :: !Reaches(After(s, a), w, rid)
    ensures Count(After(s, a).board, rid) == Count(s.board, rid)
  {
    var t := After(s, a);
    forall w | w in t.workers ensures !Reaches(t, w, rid) {
      if a.Does? && a.w == w {
        ActorStaysOut(s, a, rid);
      } else if w in s.workers && t.workers[w] == s.workers[w] {
        assert !Reaches(s, w, rid) && WorkerOk(s, w);
      }
    }
    if a.Does? && a.move.Send? && !a.move.reply.Refused? {
      assert !Reaches(s, a.w, rid);
      CountGrows(s.board, Post(SurfacedAs(s.workers[a.w].pc.record), a.w, a.move.reply.Delivered?), rid);
    }
  }

  lemma ActorStaysOut(s: State, a: Action, rid: string)
    requires Shape(s) && Enabled(s, a) && a.Does? && WasEmitted(s.items, rid) && !Reaches(s, a.w, rid)
    ensures !Reaches(After(s, a), a.w, rid)
  {
    assert WorkerOk(s, a.w);
    if a.move.Poll? {
      QueueFromPoll(s.items, a.move.rids);
    } else if a.move.Take? {
      TakeHead(s.workers[a.w].queue);
    }
  }

  lemma {:induction false} OutOfReachForGood(s: State, acts: seq<Action>, rid: string)
    requires Shape(s) && Legal(s, acts) && WasEmitted(s.items, rid) && forall w :: !Reaches(s, w, rid)
    ensures Count(Final(s, acts).board, rid) == Count(s.board, rid)
    decreases |acts|
  {
    if acts != [] {
      ShapeKept(s, acts[0]);
      StepKeepsRecords(s, acts[0]);
      OutOfReachKept(s, acts[0], rid);
      OutOfReachForGood(After(s, acts[0]), acts[1..], rid);
    }
  }

  // One legal step, as a run.
  lemma OneStep(s: State, a: Action)
    requires Enabled(s, a)
    ensures Legal(s, [a]) && Final(s, [a]) == After(s, a)
  {
    Cons(s, a, []);
    assert [a] + [] == [a];
  }

  // A worker drops what it holds, creating and marking nothing.
  lemma Abandon(s: State, w: nat, rid: string) returns (acts: seq<Action>, t: State)
    requires w in s.workers && Unknown(s, w, rid)
    requires Holding(s.workers[w].pc) == None || Holding(s.workers[w].pc).value.receivingId != rid
    ensures Legal(s, acts) && t == Final(s, acts) && t.board == s.board
    ensures w in t.workers && t.workers[w] == s.workers[w].(pc := Idle) && Unknown(t, w, rid)
  {
    var pc := s.workers[w].pc;
    if pc.Idle? {
      return [], s;
    }
    var first := if pc.Emitting? then Test else if pc.Posting? then Send(Refused)
                 else if pc.Remembering? then Remember else Raise;
    OneStep(s, Does(w, first));
    var mid := After(s, Does(w, first));
    if mid.workers[w].pc.Idle? {
      return [Does(w, first)], mid;
    }
    var second := if mid.workers[w].pc.Posting? then Send(Refused) else Raise;
    OneStep(mid, Does(w, second));
    Compose(s, [Does(w, first)], [Does(w, second)]);
    acts, t := [Does(w, first)] + [Does(w, second)], After(mid, Does(w, second));
  }

  // An idle worker works its queue down to the record without creating or marking anything.
  lemma {:induction false} TakeUntil(s: State, w: nat, rid: string) returns (acts: seq<Action>, t: State)
    requires w in s.workers && s.workers[w].pc == Idle && Unknown(s, w, rid) && Queued(s.workers[w].queue, rid)
    ensures Legal(s, acts) && t == Final(s, acts) && t.board == s.board
    ensures w in t.workers && t.workers[w].pc.Emitting? && t.workers[w].pc.record.receivingId == rid
    ensures Unknown(t, w, rid)
    decreases |s.workers[w].queue|
  {
    var queue := s.workers[w].queue;
    OneStep(s, Does(w, Take));
    var taken := After(s, Does(w, Take));
    if queue[0].receivingId == rid {
      return [Does(w, Take)], taken;
    }
    assert queue == [queue[0]] + queue[1..];
    var drop, dropped := Abandon(taken, w, rid);
    var more;
    more, t := TakeUntil(dropped, w, rid);
    Compose(taken, drop, more);
    Compose(s, [Does(w, Take)], drop + more);
    acts := [Does(w, Take)] + (drop + more);
  }

  lemma EmittingGains(s: State, w: nat, rid: string) returns (acts: seq<Action>)
    requires w in s.workers && s.workers[w].pc.Emitting? && s.workers[w].pc.record.receivingId == rid
    requires Unknown(s, w, rid)
    ensures Gains(s, acts, rid)
  {
    acts := [Does(w, Test), Does(w, Send(Delivered))];
    var t := TestAndSend(s, w, Delivered);
    CountGrows(s.board, Post(SurfacedAs(s.workers[w].pc.record), w, true), rid);
  }

  lemma ReachedGains(s: State, w: nat, rid: string) returns (acts: seq<Action>)
    requires Shape(s) && Reaches(s, w, rid)
    ensures Gains(s, acts, rid)
  {
    var worker := s.workers[w];
    assert WorkerOk(s, w);
    if worker.pc.Posting? && worker.pc.record.receivingId == rid {
      OneStep(s, Does(w, Send(Delivered)));
      CountGrows(s.board, Post(SurfacedAs(worker.pc.record), w, true), rid);
      return [Does(w, Send(Delivered))];
    }
    if worker.pc.Emitting? && worker.pc.record.receivingId == rid {
      acts := EmittingGains(s, w, rid);
      return;
    }
    var drop, idle := Abandon(s, w, rid);
    var take, ready := TakeUntil(idle, w, rid);
    var last := EmittingGains(ready, w, rid);
    Compose(idle, take, last);
    Compose(s, drop, take + last);
    acts := drop + (take + last);
  }

  lemma UnmarkedGains(s: State, rid: string) returns (acts: seq<Action>)
    requires Shape(s) && rid in Pending(s.items)
    ensures Gains(s, acts, rid)
  {
    var t, p;
    acts, t, p := OneMore(s, rid);
    CountGrows(s.board, p, rid);
  }

  // When duplication is still possible. From any reachable state some continuation creates a further
  // item for a stored record exactly when the record is not marked, or some worker reaches it.
  lemma FurtherItemIff(s: State, rid: string)
    requires Accountable(s) && rid in s.items
    ensures (exists acts :: Gains(s, acts, rid)) <==> !WasEmitted(s.items, rid) || exists w :: Reaches(s, w, rid)
  {
    if !WasEmitted(s.items, rid) {
      var acts := UnmarkedGains(s, rid);
    } else if w :| Reaches(s, w, rid) {
      var acts := ReachedGains(s, w, rid);
    } else {
      forall acts | Legal(s, acts) ensures !Gains(s, acts, rid) {
        OutOfReachForGood(s, acts, rid);
      }
    }
  }

  // ---- One worker a lifetime -------------------------------------------------------------------------------

  // Live processes without a worker.
  ghost function Vacant(s: State): set<nat> {
    set l | l in s.seen && forall w :: w in s.workers ==> s.workers[w].life != l
  }

  ghost predicate OneWorkerEach(s: State) {
    Shape(s) && s.spawned + |Vacant(s)| <= s.lives
  }

  lemma BootVacates(s: State)
    requires Shape(s)
    ensures Vacant(After(s, Boot)) == Vacant(s) + {s.lives}
  {
    LivesAreOld(s);
  }

  lemma SpawnFills(s: State, life: nat)
    requires Shape(s) && life in s.seen && |After(s, Spawn(life)).workers| <= 1
    ensures life in Vacant(s) && Vacant(After(s, Spawn(life))) == Vacant(s) - {life}
  {
    LivesAreOld(s);
    var t := After(s, Spawn(life));
    forall w | w in s.workers ensures false {
      OnlyWorker(t, w, s.spawned);
    }
  }

  lemma OneWorkerEachKept(s: State, a: Action)
    requires OneWorkerEach(s) && Enabled(s, a) && |After(s, a).workers| <= 1
    ensures OneWorkerEach(After(s, a))
  {
    ShapeKept(s, a);
    if a.Boot? {
      BootVacates(s);
    } else if a.Spawn? {
      SpawnFills(s, a.life);
    } else {
      VacantShrinks(s, a);
      SmallerSet(Vacant(After(s, a)), Vacant(s));
    }
  }

  lemma VacantShrinks(s: State, a: Action)
    requires Shape(s) && Enabled(s, a) && !a.Boot? && !a.Spawn?
    ensures Vacant(After(s, a)) <= Vacant(s)
  {
    var t := After(s, a);
    forall l | l in Vacant(t) ensures l in Vacant(s) {
      forall w | w in s.workers ensures s.workers[w].life != l {
        assert w in t.workers ==> t.workers[w].life == s.workers[w].life;
      }
    }
  }

  lemma {:induction false} SingleWriterSpawns(s: State, acts: seq<Action>)
    requires OneWorkerEach(s) && SingleWriter(s, acts)
    ensures Legal(s, acts) && OneWorkerEach(Final(s, acts))
    decreases |acts|
  {
    if acts != [] {
      assert |After(s, acts[0]).workers| <= 1;
      OneWorkerEachKept(s, acts[0]);
      SingleWriterSpawns(After(s, acts[0]), acts[1..]);
    }
  }

  // With a single writer a record has at most one board item for every process lifetime, plus one for
  // every lost answer.
  lemma OneItemPerLifetime(acts: seq<Action>, rid: string)
    requires SingleWriter(INIT, acts)
    ensures Legal(INIT, acts)
    ensures Count(Final(INIT, acts).board, rid) <= Final(INIT, acts).lives + CountLost(Final(INIT, acts).board, rid)
  {
    assert Vacant(INIT) == {};
    SingleWriterSpawns(INIT, acts);
    BoundedDuplication(acts, rid);
  }
}
