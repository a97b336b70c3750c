/** services/sync.py: replay of records that were saved and never marked emitted. */
module Sync {
  import opened Wrappers
  import opened Sequences
  import opened Schema
  import opened Tables
  import opened Repository
  import opened Sink
  import opened Receive
  import opened Sessions

  const KILL_THRESHOLD: real := 0.5

  datatype SyncResult = SyncResult(processed: int, received: int, noMatch: int, errors: int)

  datatype SyncError = PollFailed | Killed(processed: int, errors: int)

  function MarkAll(items: Receipts, done: set<string>): Receipts {
    map rid | rid in items :: if rid in done then items[rid].(emitted := true) else items[rid]
  }

  function WithStatus(items: Receipts, rids: set<string>, status: string): set<string> {
    set rid | rid in rids && rid in items && items[rid].matchStatus == status
  }

  function PostOf(items: Receipts, rid: string): BoardItem
    requires rid in items
  {
    SurfacedAs(RecordOf(rid, items[rid]))
  }

  // The items the board receives for a list of stored records, in order.
  function Posts(items: Receipts, rids: seq<string>): seq<BoardItem>
    requires forall rid :: rid in rids ==> rid in items
  {
    seq(|rids|, k requires 0 <= k < |rids| => PostOf(items, rids[k]))
  }

  // The board item created on replay is the one the scan itself would have created: none of its
  // columns is among the fields that saving drops.
  lemma ReplayPostsTheSavedItem(items: Receipts, r: Record)
    ensures PostOf(SaveRow(items, r), r.receivingId) == SurfacedAs(r)
  {
  }

  // That item, field by field: the group and label go by the stored status, the rest are its columns.
  lemma ReplayPosts(items: Receipts, rid: string)
    requires rid in items
    ensures var item, row := PostOf(items, rid), items[rid];
            && item.receivingId == rid && item.purchaseOrder == row.purchaseOrder
            && item.inventoryId == row.inventoryId && item.modelNumber == row.modelNumber
            && item.serial == row.serial
            && (row.matchStatus == "received" ==> item.group == Ready && item.statusLabel == "READY")
            && (row.matchStatus == "needs_attention" ==>
                  item.group == Attention && item.statusLabel == "NEEDS ATTENTION")
            && (row.matchStatus != "received" && row.matchStatus != "needs_attention" ==>
                  item.group == NoMatchGroup && item.statusLabel == "NO MATCH")
  {
  }

  // ---- Effects ----------------------------------------------------------------------

  // One item: marked if nothing raised, and then on the board through this process; the board gains
  // at most the item of the stored row, and never one this process has already created.
  ghost predicate ItemStep(pre: World, rid: string, post: World, ok: bool, posted: bool)
    requires rid in pre.items
  {
    && post.inventory == pre.inventory
    && post.items == (if ok then MarkRow(pre.items, rid) else pre.items)
    && post.board == (if posted then pre.board + [PostOf(pre.items, rid)] else pre.board)
    && (posted ==> rid !in pre.seen)
    && (ok ==> (posted || rid in pre.seen) && rid in post.seen)
    && pre.seen <= post.seen
    && post.seen <= pre.seen + if posted then {rid} else {}
  }

  // The records `tried` so far, of which `failed` raised and `posted` gained a board item.
  ghost predicate Progress(pre: World, tried: set<string>, failed: set<string>, posted: seq<string>, now: World) {
    && tried <= Pending(pre.items)
    && failed <= tried
    && now.inventory == pre.inventory
    && now.items == MarkAll(pre.items, tried - failed)
    && Distinct(posted)
    && (forall rid :: rid in posted ==> rid in tried && rid in pre.items && rid !in pre.seen)
    && now.board == pre.board + Posts(pre.items, posted)
    && (forall rid :: rid in tried - failed ==> (rid in posted || rid in pre.seen) && rid in now.seen)
    && pre.seen <= now.seen
    && (forall rid :: rid in now.seen ==> rid in pre.seen || rid in posted)
  }

  // A whole pass: every pending record is tried once; exactly those that raised are still pending;
  // the counters follow; and the pass is killed exactly when more than half raised.
  ghost predicate SyncStep(pre: World, post: World, failed: set<string>, posted: seq<string>,
                           r: Result<SyncResult, SyncError>)
  {
    var pending := Pending(pre.items);
    var processed, errors := |pending|, |failed|;
    var received := |WithStatus(pre.items, pending - failed, "received")|;
    && Progress(pre, pending, failed, posted, post)
    && r == if 2 * errors > processed then Err(Killed(processed, errors))
            else Ok(SyncResult(processed, received, processed - errors - received, errors))
  }

  // From these calls on nothing raises, and every stored row parses.
  ghost predicate NoFailures(iso: string -> bool, items: Receipts, fault: nat -> bool, calls: nat,
                             reply: nat -> Reply, requests: nat)
  {
    && (forall k :: k >= calls ==> !fault(k))
    && (forall k :: k >= requests ==> reply(k).Delivered?)
    && (forall rid :: rid in items ==> ValidRecord(iso, RecordOf(rid, items[rid])))
  }

  lemma ProgressStep(pre: World, tried: set<string>, failed: set<string>, posted: seq<string>, now: World,
                     rid: string, next: World, ok: bool, sent: bool)
    requires Progress(pre, tried, failed, posted, now)
    requires rid in Pending(pre.items) && rid !in tried
    ensures rid in now.items && now.items[rid] == pre.items[rid]
    ensures ItemStep(now, rid, next, ok, sent) ==>
              Progress(pre, tried + {rid}, if ok then failed else failed + {rid},
                       if sent then posted + [rid] else posted, next)
  {
    if sent && ItemStep(now, rid, next, ok, sent) {
      assert Posts(pre.items, posted + [rid]) == Posts(pre.items, posted) + [PostOf(pre.items, rid)];
    }
  }

  ghost predicate Tally(items: Receipts, tried: set<string>, failed: set<string>, received: int, noMatch: int,
                        errors: int)
  {
    && errors == |failed|
    && received == |WithStatus(items, tried - failed, "received")|
    && received + noMatch + errors == |tried|
  }

  lemma TallySuccess(items: Receipts, tried: set<string>, failed: set<string>, received: int, noMatch: int,
                     errors: int, rid: string)
    requires Tally(items, tried, failed, received, noMatch, errors)
    requires rid in items && rid !in tried && failed <= tried
    ensures if items[rid].matchStatus == "received"
            then Tally(items, tried + {rid}, failed, received + 1, noMatch, errors)
            else Tally(items, tried + {rid}, failed, received, noMatch + 1, errors)
  {
    var before := WithStatus(items, tried - failed, "received");
    var after := WithStatus(items, tried + {rid} - failed, "received");
    assert tried + {rid} - failed == tried - failed + {rid};
    if items[rid].matchStatus == "received" {
      assert after == before + {rid};
    } else {
      assert after == before;
    }
  }

  lemma TallyFailure(items: Receipts, tried: set<string>, failed: set<string>, received: int, noMatch: int,
                     errors: int, rid: string)
    requires Tally(items, tried, failed, received, noMatch, errors)
    requires rid in items && rid !in tried && failed <= tried
    ensures Tally(items, tried + {rid}, failed + {rid}, received, noMatch, errors + 1)
  {
    assert tried + {rid} - (failed + {rid}) == tried - failed;
  }

  lemma TallyStep(items: Receipts, tried: set<string>, failed: set<string>, received: int, noMatch: int,
                  errors: int, rid: string, ok: bool)
    requires Tally(items, tried, failed, received, noMatch, errors)
    requires rid in items && rid !in tried && failed <= tried
    ensures Tally(items, tried + {rid}, if ok then failed else failed + {rid},
                  if ok && items[rid].matchStatus == "received" then received + 1 else received,
                  if ok && items[rid].matchStatus != "received" then noMatch + 1 else noMatch,
                  if ok then errors else errors + 1)
  {
    if ok {
      TallySuccess(items, tried, failed, received, noMatch, errors, rid);
    } else {
      TallyFailure(items, tried, failed, received, noMatch, errors, rid);
    }
  }

  // ---- The pass -----------------------------------------------------------------------

  method Surface(record: Record, sink: ResultSink) returns (sent: Result<(), SinkError>)
    modifies sink`seen, sink`board, sink`requests
    ensures sink.Surfaced(old(sink.seen), old(sink.board), old(sink.requests), SurfacedAs(record),
                          sink.seen, sink.board, sink.requests, sent)
  {
    if record.matchStatus == "needs_attention" {
      sent := sink.SurfaceAttention(record);
    } else {
      sent := sink.Emit(record);
    }
  }

  // _process_item: parse, surface, mark.
  method ProcessItem(iso: string -> bool, item: Dict, repository: SQLiteRepository, sink: ResultSink,
                     ghost rid: string)
    returns (r: Result<string, ()>, ghost posted: bool)
    requires rid in repository.items && item == RowDict(rid, repository.items[rid].(emitted := false))
    modifies repository`calls, repository`items, sink
    ensures repository.calls >= old(repository.calls) && sink.requests >= old(sink.requests)
    ensures r.Ok? ==> r.value == old(repository.items)[rid].matchStatus
    ensures ItemStep(World(old(repository.inventory), old(repository.items), old(sink.seen), old(sink.board)), rid,
                     World(repository.inventory, repository.items, sink.seen, sink.board), r.Ok?, posted)
    ensures (ValidRecord(iso, RecordOf(rid, old(repository.items)[rid])) && !repository.fault(old(repository.calls))
             && sink.reply(old(sink.requests)).Delivered?) ==> r.Ok?
  {
    ReplayReadsRow(iso, rid, repository.items[rid].(emitted := false));
    posted := false;
    var parsed := FromDict(iso, item);
    if parsed.Err? {
      return Err(()), false;
    }
    var record := parsed.value;
    var sent := Surface(record, sink);
    posted := |sink.board| > |old(sink.board)|;
    if sent.Err? {
      return Err(()), posted;
    }
    var marked := repository.MarkEmitted(record.receivingId);
    if marked.Err? {
      return Err(()), posted;
    }
    return Ok(record.matchStatus), posted;
  }

  datatype Counters = Counters(received: int, noMatch: int, errors: int)

  // The state of the loop: the records tried, their effects, and the counters.
  ghost predicate Looped(pre: World, tried: set<string>, failed: set<string>, posted: seq<string>, now: World,
                         n: Counters)
  {
    Progress(pre, tried, failed, posted, now) && Tally(pre.items, tried, failed, n.received, n.noMatch, n.errors)
  }

  // One turn of the loop, with its try and except.
  method ReplayOne(iso: string -> bool, item: Dict, repository: SQLiteRepository, sink: ResultSink, n: Counters,
                   ghost rid: string, ghost pre: World, ghost tried: set<string>, ghost failed: set<string>,
                   ghost posted: seq<string>)
    returns (n': Counters, ghost failed': set<string>, ghost posted': seq<string>)
    requires Looped(pre, tried, failed, posted,
                    World(repository.inventory, repository.items, sink.seen, sink.board), n)
    requires rid in Pending(pre.items) && rid !in tried && item == RowDict(rid, pre.items[rid])
    modifies repository`calls, repository`items, sink
    ensures Looped(pre, tried + {rid}, failed', posted',
                   World(repository.inventory, repository.items, sink.seen, sink.board), n')
    ensures NoFailures(iso, pre.items, repository.fault, old(repository.calls), sink.reply, old(sink.requests))
            ==> failed' == failed
                && NoFailures(iso, pre.items, repository.fault, repository.calls, sink.reply, sink.requests)
  {
    ghost var now := World(repository.inventory, repository.items, sink.seen, sink.board);
    var status, sent := ProcessItem(iso, item, repository, sink, rid);
    ProgressStep(pre, tried, failed, posted, now, rid,
                 World(repository.inventory, repository.items, sink.seen, sink.board), status.Ok?, sent);
    TallyStep(pre.items, tried, failed, n.received, n.noMatch, n.errors, rid, status.Ok?);
    failed' := if status.Ok? then failed else failed + {rid};
    posted' := if sent then posted + [rid] else posted;
    if status.Err? {
      n' := n.(errors := n.errors + 1);
    } else if status.value == "received" {
      n' := n.(received := n.received + 1);
    } else {
      n' := n.(noMatch := n.noMatch + 1);
    }
  }

  lemma NothingTried(pre: World)
    ensures Looped(pre, {}, {}, [], pre, Counters(0, 0, 0))
  {
    assert MarkAll(pre.items, {}) == pre.items;
  }

  lemma PassEnds(pre: World, failed: set<string>, posted: seq<string>, post: World, n: Counters)
    requires Looped(pre, Pending(pre.items), failed, posted, post, n)
    ensures 0 <= n.errors <= |Pending(pre.items)|
    ensures SyncStep(pre, post, failed, posted,
                     if 2 * n.errors > |Pending(pre.items)| then Err(Killed(|Pending(pre.items)|, n.errors))
                     else Ok(SyncResult(|Pending(pre.items)|, n.received, n.noMatch, n.errors)))
  {
    SubsetSize(failed, Pending(pre.items));
  }

  method SyncPending(iso: string -> bool, repository: SQLiteRepository, sink: ResultSink)
    returns (r: Result<SyncResult, SyncError>, ghost failed: set<string>, ghost posted: seq<string>)
    modifies repository`calls, repository`items, sink
    ensures repository.fault(old(repository.calls)) ==>
              r == Err(PollFailed) && repository.items == old(repository.items) && sink.board == old(sink.board)
    ensures !repository.fault(old(repository.calls)) ==>
              SyncStep(World(old(repository.inventory), old(repository.items), old(sink.seen), old(sink.board)),
                       World(repository.inventory, repository.items, sink.seen, sink.board), failed, posted, r)
    ensures NoFailures(iso, old(repository.items), repository.fault, old(repository.calls), sink.reply,
                       old(sink.requests))
            ==> failed == {} && r.Ok?
  {
    var polled, rids := repository.GetPending();
    if polled.Err? {
      return Err(PollFailed), {}, [];
    }
    failed, posted := {}, [];
    ghost var pre := World(old(repository.inventory), old(repository.items), old(sink.seen), old(sink.board));
    ghost var clean := NoFailures(iso, pre.items, repository.fault, repository.calls, sink.reply, sink.requests);
    ghost var tried: set<string> := {};
    var n := Counters(0, 0, 0);
    NothingTried(pre);
    for k := 0 to |polled.value|
      invariant forall j :: 0 <= j < |rids| ==> (rids[j] in tried <==> j < k)
      invariant Looped(pre, tried, failed, posted,
                       World(repository.inventory, repository.items, sink.seen, sink.board), n)
      invariant clean ==> failed == {}
                          && NoFailures(iso, pre.items, repository.fault, repository.calls, sink.reply, sink.requests)
    {
      assert rids[k] in rids;
      n, failed, posted := ReplayOne(iso, polled.value[k], repository, sink, n, rids[k], pre, tried, failed, posted);
      tried := tried + {rids[k]};
    }
    AllTried(rids, tried, Pending(pre.items));
    PassEnds(pre, failed, posted, World(repository.inventory, repository.items, sink.seen, sink.board), n);
    r := Conclude(|polled.value|, n);
  }

  lemma AllTried(rids: seq<string>, tried: set<string>, pending: set<string>)
    requires Lists(rids, pending) && tried <= pending && forall j :: 0 <= j < |rids| ==> rids[j] in tried
    ensures tried == pending && |pending| == |rids|
  {
    DistinctSetSize(rids, pending);
  }

  // The counters turned into an answer.
  method Conclude(processed: nat, n: Counters) returns (r: Result<SyncResult, SyncError>)
    requires 0 <= n.errors <= processed
    ensures r == if 2 * n.errors > processed then Err(Killed(processed, n.errors))
                 else Ok(SyncResult(processed, n.received, n.noMatch, n.errors))
  {
    var successRate := if processed > 0 then (processed - n.errors) as real / processed as real else 1.0;
    KillRule(processed, n.errors, successRate);
    if successRate < KILL_THRESHOLD {
      return Err(Killed(processed, n.errors));
    }
    return Ok(SyncResult(processed, n.received, n.noMatch, n.errors));
  }

  // The success rate is below one half exactly when more than half of the items raised.
  lemma KillRule(processed: nat, errors: int, rate: real)
    requires rate == if processed > 0 then (processed - errors) as real / processed as real else 1.0
    requires 0 <= errors <= processed
    ensures rate < KILL_THRESHOLD <==> 2 * errors > processed
  {
    if processed > 0 {
      var p, s := processed as real, (processed - errors) as real;
      assert s == p - errors as real;
      HalfOf(s, p);
    }
  }

  lemma HalfOf(s: real, p: real)
    requires p > 0.0
    ensures s / p < 0.5 <==> 2.0 * s < p
  {
    var q := s / p;
    assert q * p == s;
    if q < 0.5 {
      assert (0.5 - q) * p > 0.0;
    } else {
      assert (q - 0.5) * p >= 0.0;
    }
  }

  lemma SubsetSize(a: set<string>, b: set<string>)
    requires a <= b
    ensures |a| <= |b|
  {
    assert b == a + (b - a);
  }

  lemma {:induction false} DistinctSetSize(s: seq<string>, all: set<string>)
    requires Lists(s, all)
    ensures |s| == |all|
  {
    if s != [] {
      var rest := s[1..];
      assert s == [s[0]] + rest;
      assert forall i, j :: 0 <= i < j < |rest| ==> rest[i] == s[i + 1] && rest[j] == s[j + 1];
      assert s[0] !in rest;
      DistinctSetSize(rest, all - {s[0]});
    } else {
      assert all == {};
    }
  }

  // ---- Catching up ----------------------------------------------------------------------

  // Whatever fails during a pass, what is marked or remembered is on the board afterwards.
  lemma PassKeepsAccounts(pre: World, post: World, failed: set<string>, posted: seq<string>,
                          r: Result<SyncResult, SyncError>)
    requires Accounted(pre) && SyncStep(pre, post, failed, posted, r)
    ensures Accounted(post)
  {
    forall rid | WasEmitted(post.items, rid) || rid in post.seen ensures OnBoard(post.board, rid) {
      if rid in posted {
        var k :| 0 <= k < |posted| && posted[k] == rid;
        assert post.board[|pre.board| + k].receivingId == rid;
      } else {
        assert OnBoard(pre.board, rid);
        var k :| 0 <= k < |pre.board| && pre.board[k].receivingId == rid;
        assert post.board[k].receivingId == rid;
      }
    }
  }

  // A pass in which nothing raises, from any world that accounts for its marks, leaves nothing
  // pending and every saved record on the board.
  lemma CleanPassCatchesUp(pre: World, post: World, posted: seq<string>, r: Result<SyncResult, SyncError>)
    requires Accounted(pre) && SyncStep(pre, post, {}, posted, r)
    ensures post.items.Keys == pre.items.Keys
    ensures Pending(post.items) == {}
    ensures forall rid :: rid in pre.items ==> OnBoard(post.board, rid)
    ensures r.Ok? && r.value.errors == 0 && r.value.processed == |Pending(pre.items)|
  {
    PassKeepsAccounts(pre, post, {}, posted, r);
    forall rid | rid in pre.items ensures WasEmitted(post.items, rid) {
      assert rid in Pending(pre.items) || pre.items[rid].emitted;
    }
  }
}
