/** Every pass of sync_pending, whatever fails in it, is a run of the protocol. */
module SyncRuns {
  import opened Wrappers
  import opened Schema
  import opened Tables
  import opened Sink
  import opened Receive
  import opened Sync
  import opened Protocol
  import opened Recovery

  // ---- A queue, item by item --------------------------------------------------------------------

  // What becomes of the queued records: `posted` gain an item, `known` of them are learnt of, `failed` are
  // left unmarked.
  datatype Fate = Fate(posted: set<string>, known: set<string>, failed: set<string>)

  ghost predicate Possible(fate: Fate, seen: set<string>, queue: seq<Record>) {
    forall r :: r in queue ==>
      var rid := r.receivingId;
      if rid in seen then rid !in fate.posted
      else (rid !in fate.failed ==> rid in fate.posted && rid in fate.known)
  }

  function ItemsOf(queue: seq<Record>, posted: set<string>): seq<BoardItem> {
    if queue == [] then []
    else (if queue[0].receivingId in posted then [SurfacedAs(queue[0])] else []) + ItemsOf(queue[1..], posted)
  }

  function IdsOf(queue: seq<Record>): set<string> {
    set r | r in queue :: r.receivingId
  }

  lemma IdsOfTail(queue: seq<Record>)
    requires queue != []
    ensures IdsOf(queue) == {queue[0].receivingId} + IdsOf(queue[1..])
  {
    assert queue == [queue[0]] + queue[1..];
  }

  ghost predicate At(s: State, w: nat) {
    w in s.workers && s.workers[w].pc == Idle && s.workers[w].life in s.seen
  }

  ghost function Seen(s: State, w: nat): set<string>
    requires At(s, w)
  {
    s.seen[s.workers[w].life]
  }

  lemma MarkOneMore(items: Receipts, rid: string, done: set<string>)
    ensures MarkAll(MarkRow(items, rid), done) == MarkAll(items, {rid} + done)
    ensures MarkAll(items, {}) == items
  {
  }

  lemma TailPossible(fate: Fate, seen: set<string>, later: set<string>, queue: seq<Record>)
    requires queue != [] && NoRepeats(queue) && Possible(fate, seen, queue)
    requires later == seen || later == seen + {queue[0].receivingId}
    ensures NoRepeats(queue[1..]) && Possible(fate, later, queue[1..])
    ensures queue[0].receivingId !in IdsOf(queue[1..])
  {
    TakeHead(queue);
    forall r | r in queue[1..] ensures r in queue && r.receivingId != queue[0].receivingId {
      assert Queued(queue[1..], r.receivingId);
    }
  }

  // Worker w has worked the queue q off from s, each record meeting its fate.
  ghost predicate Drained(s: State, w: nat, q: seq<Record>, fate: Fate, t: State) {
    && At(s, w) && At(t, w)
    && t.inventory == s.inventory
    && t.workers == s.workers[w := s.workers[w].(queue := [])]
    && t.items == MarkAll(s.items, IdsOf(q) - fate.failed)
    && Items(t.board) == Items(s.board) + ItemsOf(q, fate.posted)
    && Seen(t, w) == Seen(s, w) + IdsOf(q) * fate.posted * fate.known
  }

  // What ItemRun leaves.
  ghost predicate Taken(s: State, w: nat, q: seq<Record>, fate: Fate, t: State)
    requires q != []
  {
    var rid := q[0].receivingId;
    && At(s, w) && At(t, w)
    && t.inventory == s.inventory
    && t.workers == s.workers[w := s.workers[w].(queue := q[1..])]
    && t.items == (if rid in fate.failed then s.items else MarkRow(s.items, rid))
    && Items(t.board) == Items(s.board) + (if rid in fate.posted then [SurfacedAs(q[0])] else [])
    && Seen(t, w) == Seen(s, w) + if rid in fate.posted && rid in fate.known then {rid} else {}
  }

  // One item: take it, and let happen to it what its fate says.
  lemma ItemRun(s: State, w: nat, fate: Fate) returns (acts: seq<Action>, t: State)
    requires At(s, w) && s.workers[w].queue != [] && Possible(fate, Seen(s, w), s.workers[w].queue)
    ensures Legal(s, acts) && t == Final(s, acts)
    ensures Taken(s, w, s.workers[w].queue, fate, t)
  {
    var worker, rec := s.workers[w], s.workers[w].queue[0];
    var rid := rec.receivingId;
    assert rec in worker.queue;
    Cons(s, Does(w, Take), []);
    assert [Does(w, Take)] + [] == [Does(w, Take)];
    var taken := After(s, Does(w, Take));
    assert taken == s.(workers := s.workers[w := Worker(worker.life, Emitting(rec), worker.queue[1..])]);
    var posted := rid in fate.posted;
    var known := posted && rid in fate.known;
    var tail;
    tail, t := PartRun(taken, w, posted, known, rid !in fate.failed);
    Compose(s, [Does(w, Take)], tail);
    acts := [Does(w, Take)] + tail;
    assert t.workers == s.workers[w := worker.(queue := worker.queue[1..])];
    if posted {
      ItemsGrow(s.board, Post(SurfacedAs(rec), w, known));
    }
  }

  lemma DrainedCons(s: State, w: nat, q: seq<Record>, fate: Fate, mid: State, t: State)
    requires q != [] && q[0].receivingId !in IdsOf(q[1..])
    requires Taken(s, w, q, fate, mid) && Drained(mid, w, q[1..], fate, t)
    ensures Drained(s, w, q, fate, t)
  {
    IdsOfTail(q);
    MarksAgree(s.items, q, fate.failed);
    assert t.workers == s.workers[w := s.workers[w].(queue := [])];
  }

  // A whole queue.
  lemma {:induction false} QueueRun(s: State, w: nat, fate: Fate) returns (acts: seq<Action>, t: State)
    requires At(s, w) && NoRepeats(s.workers[w].queue) && Possible(fate, Seen(s, w), s.workers[w].queue)
    ensures Legal(s, acts) && t == Final(s, acts)
    ensures Drained(s, w, s.workers[w].queue, fate, t)
    decreases |s.workers[w].queue|
  {
    var q := s.workers[w].queue;
    if q == [] {
      MarkOneMore(s.items, "", {});
      acts, t := [], s;
      return;
    }
    var one, mid := ItemRun(s, w, fate);
    TailPossible(fate, Seen(s, w), Seen(mid, w), q);
    var more;
    more, t := QueueRun(mid, w, fate);
    Compose(s, one, more);
    acts := one + more;
    DrainedCons(s, w, q, fate, mid, t);
  }

  lemma MarksAgree(items: Receipts, q: seq<Record>, failed: set<string>)
    requires q != [] && q[0].receivingId !in IdsOf(q[1..])
    ensures MarkAll(if q[0].receivingId in failed then items else MarkRow(items, q[0].receivingId),
                    IdsOf(q[1..]) - failed)
         == MarkAll(items, IdsOf(q) - failed)
  {
    var rid := q[0].receivingId;
    IdsOfTail(q);
    MarkOneMore(items, rid, IdsOf(q[1..]) - failed);
    if rid in failed {
      assert IdsOf(q) - failed == IdsOf(q[1..]) - failed;
    } else {
      assert IdsOf(q) - failed == {rid} + (IdsOf(q[1..]) - failed);
    }
  }

  // ---- The pass -----------------------------------------------------------------------------------

  lemma {:induction false} ItemsOfOthers(items: Receipts, others: seq<string>, all: set<string>)
    requires forall rid :: rid in others ==> rid in items && rid !in all
    ensures ItemsOf(Records(items, others), all) == []
  {
    if others != [] {
      assert others[0] in others;
      assert Records(items, others)[1..] == Records(items, others[1..]);
      ItemsOfOthers(items, others[1..], all);
    }
  }

  lemma {:induction false} ItemsOfPosted(items: Receipts, posted: seq<string>, others: seq<string>, all: set<string>)
    requires forall rid :: rid in posted ==> rid in items && rid in all
    requires forall rid :: rid in others ==> rid in items && rid !in all
    ensures ItemsOf(Records(items, posted + others), all) == Posts(items, posted)
    decreases |posted|
  {
    if posted == [] {
      assert posted + others == others;
      ItemsOfOthers(items, others, all);
    } else {
      var rest := posted[1..];
      assert posted + others == [posted[0]] + (rest + others);
      assert Records(items, posted + others)[1..] == Records(items, rest + others);
      ItemsOfPosted(items, rest, others, all);
      assert Posts(items, posted) == [PostOf(items, posted[0])] + Posts(items, rest);
    }
  }

  lemma IdsOfRecords(items: Receipts, rids: seq<string>)
    requires forall rid :: rid in rids ==> rid in items
    ensures IdsOf(Records(items, rids)) == set rid | rid in rids
    ensures forall r :: r in Records(items, rids) ==> r.receivingId in rids
  {
    var q := Records(items, rids);
    forall rid | rid in rids ensures rid in IdsOf(q) {
      var k :| 0 <= k < |rids| && rids[k] == rid;
      assert q[k] in q;
    }
  }

  // The order in which a pass with these effects may have been polled.
  lemma PassOrder(pre: World, failed: set<string>, posted: seq<string>, post: World) returns (others: seq<string>)
    requires Progress(pre, Pending(pre.items), failed, posted, post)
    ensures Lists(posted + others, Pending(pre.items))
    ensures forall rid :: rid in others ==> rid !in posted
  {
    var done := set rid | rid in posted;
    others := Enumerate(Pending(pre.items) - done);
    forall rid | rid in others ensures rid !in posted {
      assert rid in Pending(pre.items) - done;
    }
    var rids := posted + others;
    forall i, j | 0 <= i < j < |rids| ensures rids[i] != rids[j] {
      if i < |posted| <= j {
        assert others[j - |posted|] in others && posted[i] in posted;
      }
    }
    assert forall rid :: rid in rids <==> rid in posted || rid in others;
  }

  lemma PassIsPossible(pre: World, failed: set<string>, posted: seq<string>, post: World, queue: seq<Record>)
    requires Progress(pre, Pending(pre.items), failed, posted, post)
    requires forall r :: r in queue ==> r.receivingId in Pending(pre.items)
    ensures Possible(Fate((set rid | rid in posted), post.seen, failed), pre.seen, queue)
  {
  }

  // Whatever raises during it, killed or not, a pass of sync_pending is a run of its worker.
  lemma SyncIsRun(s: State, w: nat, post: World, failed: set<string>, posted: seq<string>,
                  r: Result<SyncResult, SyncError>)
    returns (acts: seq<Action>, t: State)
    requires At(s, w) && s.workers[w].queue == [] && SyncStep(WorldOf(s, w), post, failed, posted, r)
    ensures Legal(s, acts) && t == Final(s, acts)
    ensures t.workers == s.workers && s.workers[w].life in t.seen && WorldOf(t, w) == post
  {
    var pre := WorldOf(s, w);
    var done := set rid | rid in posted;
    var others := PassOrder(pre, failed, posted, post);
    var rids := posted + others;
    var fate := Fate(done, post.seen, failed);
    assert forall rid :: rid in rids ==> rid in Pending(s.items);
    var poll := Does(w, Poll(rids));
    var polled := After(s, poll);
    assert polled == s.(workers := s.workers[w := s.workers[w].(queue := Records(s.items, rids))]);
    QueueFromPoll(s.items, rids);
    IdsOfRecords(s.items, rids);
    PassIsPossible(pre, failed, posted, post, Records(s.items, rids));
    var rest;
    rest, t := QueueRun(polled, w, fate);
    Cons(s, poll, rest);
    acts := [poll] + rest;
    ItemsOfPosted(s.items, posted, others, done);
    assert IdsOf(Records(s.items, rids)) == Pending(s.items);
    DrainedIsPost(s, w, post, failed, posted, polled, Records(s.items, rids), fate, t);
  }

  lemma DrainedIsPost(s: State, w: nat, post: World, failed: set<string>, posted: seq<string>,
                      polled: State, queue: seq<Record>, fate: Fate, t: State)
    requires At(s, w) && s.workers[w].queue == []
    requires Progress(WorldOf(s, w), Pending(s.items), failed, posted, post)
    requires polled == s.(workers := s.workers[w := s.workers[w].(queue := queue)])
    requires Drained(polled, w, queue, fate, t)
    requires fate == Fate((set rid | rid in posted), post.seen, failed) && IdsOf(queue) == Pending(s.items)
    requires ItemsOf(queue, fate.posted) == Posts(s.items, posted)
    ensures t.workers == s.workers && s.workers[w].life in t.seen && WorldOf(t, w) == post
  {
    assert t.workers == s.workers;
    assert Seen(t, w) == post.seen;
  }
}
