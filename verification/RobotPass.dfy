/** services/receive_sync.py: what one pass of the receiving robot does, read off its outcome. */
module RobotPass {
  import opened Sequences
  import opened Dispatch
  import opened ReceiveSync

  // ---- The executor's replies, independent of any pass ----------------------------------------

  predicate Failure(r: Reply) { r.ExecutorError? }
  predicate Success(r: Reply) { r == Outcome("received") }
  predicate Unmatched(r: Reply) { r.Outcome? && r.outcome != "received" }

  ghost predicate Fails(env: Env, k: nat) {
    Failure(env.reply(k))
  }

  // How many of the first n replies satisfy `which`.
  ghost function Tally(which: Reply -> bool, env: Env, n: nat): nat {
    if n == 0 then 0 else Tally(which, env, n - 1) + if which(env.reply(n - 1)) then 1 else 0
  }

  // The length of the failing suffix of the first n replies.
  ghost function FailingSuffix(env: Env, n: nat): nat {
    if n == 0 || !Fails(env, n - 1) then 0 else FailingSuffix(env, n - 1) + 1
  }

  // Calls j and j + 1 both fail.
  ghost predicate PairAt(env: Env, j: nat) {
    Fails(env, j) && Fails(env, j + 1)
  }

  ghost predicate NoPair(env: Env, n: nat) {
    forall j: nat | j + 1 < n :: !PairAt(env, j)
  }

  function MarkFor(item: ReadyItem, r: Reply): Mark {
    if Success(r) then Received(item.itemId)
    else if Failure(r) then NeedsAttention(item.itemId)
    else NoMatch(item.itemId)
  }

  // The mark of each processed item, in order: a valid one's by its reply, an invalid one's
  // `no_match` when it has an id to mark.
  ghost function MarksFor(done: seq<ReadyItem>, env: Env): seq<Mark> {
    if done == [] then []
    else
      var before, item := done[..|done| - 1], done[|done| - 1];
      MarksFor(before, env)
      + (if IsValid(item) then [MarkFor(item, env.reply(|Filter(IsValid, before)|))]
         else if item.itemId != "" then [NoMatch(item.itemId)]
         else [])
  }

  // What write n of the log says: 0 opens the pass, n + 1 reports reply n.
  ghost function Entry(env: Env, n: nat): Status {
    if n == 0 then Status("running", "none", 0, "")
    else if !Fails(env, n - 1) then Status("running", "success", 0, "")
    else if n > 1 && Fails(env, n - 2) then Status("stopped", "kill", FailingSuffix(env, n), KILL_REASON)
    else Status("running", "failure", FailingSuffix(env, n), "")
  }

  // ---- The invariant ------------------------------------------------------------------------------

  ghost predicate CountsRight(p: Pass, done: seq<ReadyItem>, env: Env) {
    && p.tried == Filter(IsValid, done)
    && p.received == Tally(Success, env, |p.tried|)
    && p.noMatch == Tally(Unmatched, env, |p.tried|)
    && p.failed == Tally(Failure, env, |p.tried|)
    && p.skipped == |done| - |p.tried|
    && p.streak == FailingSuffix(env, |p.tried|)
    && forall k: nat | k < |p.tried| :: !env.reply(k).OtherError?
  }

  ghost predicate LogRight(p: Pass, env: Env) {
    && |p.log| == 1 + |p.tried|
    && forall n | 0 <= n < |p.log| :: p.log[n] == Entry(env, n)
  }

  ghost predicate PhaseRight(p: Pass, env: Env) {
    var n := |p.tried|;
    match p.phase
    case Running => NoPair(env, n)
    case Killed => n >= 2 && PairAt(env, n - 2) && NoPair(env, n - 1)
    case _ => false
  }

  ghost predicate Faithful(p: Pass, done: seq<ReadyItem>, env: Env) {
    CountsRight(p, done, env) && p.marks == MarksFor(done, env) && LogRight(p, env) && PhaseRight(p, env)
  }

  lemma SuffixIsShort(env: Env, n: nat)
    requires NoPair(env, n)
    ensures FailingSuffix(env, n) == if n > 0 && Fails(env, n - 1) then 1 else 0
  {
    if n > 1 && Fails(env, n - 1) {
      assert !PairAt(env, n - 2);
    }
  }

  lemma ExtendNoPair(env: Env, n: nat)
    requires NoPair(env, n) && !(n > 0 && PairAt(env, n - 1))
    ensures NoPair(env, n + 1)
  {
  }

  lemma SkipKeepsCounts(p: Pass, done: seq<ReadyItem>, item: ReadyItem, env: Env)
    requires CountsRight(p, done, env) && !IsValid(item)
    ensures var q := Turn(p, item, env); q.phase.Aborted? || CountsRight(q, done + [item], env)
  {
    FilterAppend(IsValid, done, [item]);
  }

  lemma CallKeepsCounts(p: Pass, done: seq<ReadyItem>, item: ReadyItem, env: Env)
    requires CountsRight(p, done, env) && IsValid(item)
    ensures var q := Turn(p, item, env); q.phase.Aborted? || CountsRight(q, done + [item], env)
  {
    FilterAppend(IsValid, done, [item]);
    assert Filter(IsValid, done + [item]) == p.tried + [item];
  }

  lemma CountsKept(p: Pass, done: seq<ReadyItem>, item: ReadyItem, env: Env)
    requires CountsRight(p, done, env)
    ensures var q := Turn(p, item, env); q.phase.Aborted? || CountsRight(q, done + [item], env)
  {
    if IsValid(item) {
      CallKeepsCounts(p, done, item, env);
    } else {
      SkipKeepsCounts(p, done, item, env);
    }
  }

  lemma MarksKept(p: Pass, done: seq<ReadyItem>, item: ReadyItem, env: Env)
    requires p.tried == Filter(IsValid, done) && p.marks == MarksFor(done, env)
    ensures var q := Turn(p, item, env); q.phase.Aborted? || q.marks == MarksFor(done + [item], env)
  {
    assert (done + [item])[..|done|] == done;
  }

  lemma LogKept(p: Pass, item: ReadyItem, env: Env)
    requires LogRight(p, env) && NoPair(env, |p.tried|) && p.phase.Running?
    requires p.streak == FailingSuffix(env, |p.tried|)
    ensures var q := Turn(p, item, env); q.phase.Aborted? || LogRight(q, env)
  {
    SuffixIsShort(env, |p.tried|);
    var q := Turn(p, item, env);
    if IsValid(item) && !q.phase.Aborted? {
      var n := |q.tried|;
      assert q.log == p.log + [Entry(env, n)];
    }
  }

  lemma PhaseKept(p: Pass, item: ReadyItem, env: Env)
    requires PhaseRight(p, env) && p.phase.Running? && p.streak == FailingSuffix(env, |p.tried|)
    ensures var q := Turn(p, item, env); q.phase.Aborted? || PhaseRight(q, env)
    ensures Turn(p, item, env).phase.Killed? ==> IsValid(item)
  {
    SuffixIsShort(env, |p.tried|);
    if !Turn(p, item, env).phase.Killed? && IsValid(item) && !(|p.tried| > 0 && PairAt(env, |p.tried| - 1)) {
      ExtendNoPair(env, |p.tried|);
    }
  }

  lemma TurnIsFaithful(p: Pass, done: seq<ReadyItem>, item: ReadyItem, env: Env)
    requires p.phase.Running? && Faithful(p, done, env)
    ensures var q := Turn(p, item, env); q.phase.Aborted? || Faithful(q, done + [item], env)
    ensures Turn(p, item, env).phase.Killed? ==> IsValid(item)
  {
    CountsKept(p, done, item, env);
    MarksKept(p, done, item, env);
    LogKept(p, item, env);
    PhaseKept(p, item, env);
  }

  lemma Regroup(done: seq<ReadyItem>, items: seq<ReadyItem>, more: nat)
    requires more < |items|
    ensures done + [items[0]] + items[1..][..more] == done + items[..more + 1]
  {
  }

  // A stretch of the loop: it reads a prefix of its items, all of them unless the pass is killed.
  lemma {:induction false} RunIsFaithful(p: Pass, done: seq<ReadyItem>, items: seq<ReadyItem>, env: Env)
    returns (cut: nat)
    requires p.phase.Running? && Faithful(p, done, env)
    ensures cut <= |items|
    ensures var q := Run(p, items, env);
            q.phase.Aborted? || (Faithful(q, done + items[..cut], env) && (q.phase.Running? ==> cut == |items|)
                                 && (q.phase.Killed? ==> cut > 0 && IsValid(items[cut - 1])))
    decreases |items|
  {
    if items == [] {
      assert done + items[..0] == done;
      return 0;
    }
    TurnIsFaithful(p, done, items[0], env);
    var q := Turn(p, items[0], env);
    assert Run(p, items, env) == Run(q, items[1..], env);
    if !q.phase.Running? {
      assert items[..1] == [items[0]];
      return 1;
    }
    var more := RunIsFaithful(q, done + [items[0]], items[1..], env);
    cut := more + 1;
    Regroup(done, items, more);
    assert more > 0 ==> items[1..][more - 1] == items[cut - 1];
  }

  lemma StartIsFaithful(env: Env)
    requires Start(env).phase.Running?
    ensures Faithful(Start(env), [], env)
  {
    assert Start(env).log == [Entry(env, 0)];
  }

  // The pass before its closing write, and how many dispatched items it read.
  lemma LoopIsFaithful(polled: seq<ReadyItem>, env: Env) returns (q: Pass, cut: nat)
    requires !WholePass(polled, env).phase.Aborted?
    ensures WholePass(polled, env) == Finish(q, env) && cut <= |Sorted(polled)|
    ensures Faithful(q, Sorted(polled)[..cut], env)
    ensures q.phase.Running? ==> cut == |Sorted(polled)|
    ensures q.phase.Killed? ==> cut > 0 && IsValid(Sorted(polled)[cut - 1])
  {
    StartIsFaithful(env);
    cut := RunIsFaithful(Start(env), [], Sorted(polled), env);
    q := Run(Start(env), Sorted(polled), env);
    assert [] + Sorted(polled)[..cut] == Sorted(polled)[..cut];
  }

  function Valid(polled: seq<ReadyItem>): seq<ReadyItem> {
    Filter(IsValid, Sorted(polled))
  }

  lemma FilterPrefix(items: seq<ReadyItem>, cut: nat)
    requires cut <= |items|
    ensures Filter(IsValid, items[..cut]) <= Filter(IsValid, items)
  {
    assert items == items[..cut] + items[cut..];
    FilterAppend(IsValid, items[..cut], items[cut..]);
  }

  lemma {:induction false} LoopRunsCalm(p: Pass, items: seq<ReadyItem>, env: Env)
    requires Calm(env) && !p.phase.Aborted? && !p.phase.Returned?
    ensures !Run(p, items, env).phase.Aborted? && !Run(p, items, env).phase.Returned?
    decreases |items|
  {
    if items != [] && p.phase.Running? {
      LoopRunsCalm(Turn(p, items[0], env), items[1..], env);
    }
  }

  // ---- The kill rule --------------------------------------------------------------------------------

  // A pass whose board, status store and executor raise nothing else is killed exactly when two
  // executed items fail with only invalid items between them, and returns otherwise.
  lemma KillRule(polled: seq<ReadyItem>, env: Env)
    requires Calm(env)
    ensures WholePass(polled, env).phase.Killed? <==> exists j: nat :: j + 1 < |Valid(polled)| && PairAt(env, j)
    ensures WholePass(polled, env).phase.Killed? || WholePass(polled, env).phase.Returned?
  {
    LoopRunsCalm(Start(env), Sorted(polled), env);
    var q, cut := LoopIsFaithful(polled, env);
    FilterPrefix(Sorted(polled), cut);
    if q.phase.Killed? {
      assert PairAt(env, |q.tried| - 2);
    } else {
      assert Sorted(polled)[..cut] == Sorted(polled);
    }
  }

  // A kill stops the pass at the second failure of the first pair, nothing behind it attempted.
  lemma KillStopsThere(polled: seq<ReadyItem>, env: Env)
    requires WholePass(polled, env).phase.Killed?
    ensures var p, n := WholePass(polled, env), |WholePass(polled, env).tried|;
            && 2 <= n <= |Valid(polled)| && p.tried == Valid(polled)[..n]
            && PairAt(env, n - 2) && NoPair(env, n - 1)
            && NeedsAttention(p.tried[n - 2].itemId) in p.marks
            && NeedsAttention(p.tried[n - 1].itemId) in p.marks
  {
    var q, cut := LoopIsFaithful(polled, env);
    assert WholePass(polled, env) == q;
    KilledTail(q, Sorted(polled), cut, env);
  }

  lemma KilledTail(p: Pass, items: seq<ReadyItem>, cut: nat, env: Env)
    requires cut <= |items| && p.phase.Killed? && Faithful(p, items[..cut], env)
    ensures var n := |p.tried|;
            && 2 <= n <= |Filter(IsValid, items)| && p.tried == Filter(IsValid, items)[..n]
            && PairAt(env, n - 2) && NoPair(env, n - 1)
            && NeedsAttention(p.tried[n - 2].itemId) in p.marks
            && NeedsAttention(p.tried[n - 1].itemId) in p.marks
  {
    FilterPrefix(items, cut);
    TriedIsMarked(items[..cut], env, |p.tried| - 2);
    TriedIsMarked(items[..cut], env, |p.tried| - 1);
  }

  lemma {:induction false} TriedIsMarked(done: seq<ReadyItem>, env: Env, j: nat)
    requires j < |Filter(IsValid, done)|
    ensures MarkFor(Filter(IsValid, done)[j], env.reply(j)) in MarksFor(done, env)
  {
    var before, item := done[..|done| - 1], done[|done| - 1];
    assert done == before + [item];
    FilterAppend(IsValid, before, [item]);
    if j < |Filter(IsValid, before)| {
      TriedIsMarked(before, env, j);
    }
  }

  // ---- Accounting -------------------------------------------------------------------------------------

  lemma {:induction false} TalliesSplit(env: Env, n: nat)
    requires forall k: nat | k < n :: !env.reply(k).OtherError?
    ensures Tally(Success, env, n) + Tally(Unmatched, env, n) + Tally(Failure, env, n) == n
  {
    if n > 0 {
      TalliesSplit(env, n - 1);
    }
  }

  // Without a pair, failures are isolated: at most one more than what goes right.
  lemma {:induction false} FailuresAreIsolated(env: Env, n: nat)
    requires NoPair(env, n)
    ensures Tally(Failure, env, n) <= n - Tally(Failure, env, n) + if n > 0 && Fails(env, n - 1) then 1 else 0
  {
    if n > 0 {
      assert n > 1 ==> !PairAt(env, n - 2);
      FailuresAreIsolated(env, n - 1);
    }
  }

  // A pass that returns has executed every valid item and accounts for every polled one.
  lemma ReturnAccounts(polled: seq<ReadyItem>, env: Env)
    requires WholePass(polled, env).phase.Returned?
    ensures var p := WholePass(polled, env);
            && p.tried == Valid(polled)
            && p.received + p.noMatch + p.failed == |p.tried|
            && p.received + p.noMatch + p.failed + p.skipped == |polled|
            && p.failed <= p.received + p.noMatch + 1
            && p.received == Tally(Success, env, |p.tried|) && p.failed == Tally(Failure, env, |p.tried|)
  {
    var q, cut := LoopIsFaithful(polled, env);
    assert Sorted(polled)[..cut] == Sorted(polled);
    SortedMeaning(polled, SortKey(0, 0));
    SingletonMultiset(polled, Sorted(polled));
    TalliesSplit(env, |q.tried|);
    FailuresAreIsolated(env, |q.tried|);
  }

  // ---- Marks ------------------------------------------------------------------------------------------

  function MarkIds(marks: seq<Mark>): seq<string> {
    if marks == [] then [] else MarkIds(marks[..|marks| - 1]) + [marks[|marks| - 1].itemId]
  }

  // The ids of the items that have one.
  function Ids(items: seq<ReadyItem>): seq<string> {
    if items == [] then []
    else Ids(items[..|items| - 1]) + (if items[|items| - 1].itemId != "" then [items[|items| - 1].itemId] else [])
  }

  lemma TurnMarksOnce(p: Pass, item: ReadyItem, env: Env)
    ensures var q := Turn(p, item, env);
            || MarkIds(q.marks) == MarkIds(p.marks) + (if item.itemId != "" then [item.itemId] else [])
            || (MarkIds(q.marks) == MarkIds(p.marks) && q.phase.Aborted?)
  {
    var q := Turn(p, item, env);
    assert q.marks == p.marks || q.marks[..|q.marks| - 1] == p.marks;
  }

  // A run whose turns each append at most the item's id, and stop where they append nothing.
  lemma {:induction false} RunMarksOnce(p: Pass, done: seq<ReadyItem>, items: seq<ReadyItem>, env: Env)
    returns (cut: nat)
    requires MarkIds(p.marks) == Ids(done)
    ensures cut <= |items| && MarkIds(Run(p, items, env).marks) == Ids(done + items[..cut])
    ensures Run(p, items, env).phase.Running? ==> cut == |items|
    decreases |items|
  {
    if items == [] || !p.phase.Running? {
      assert done + items[..0] == done;
      return 0;
    }
    var q := MarkedTurn(p, done, items, env);
    if MarkIds(q.marks) == Ids(done + [items[0]]) {
      var more := RunMarksOnce(q, done + [items[0]], items[1..], env);
      cut := more + 1;
      Regroup(done, items, more);
    } else {
      assert done + items[..0] == done;
      cut := 0;
    }
  }

  lemma MarkedTurn(p: Pass, done: seq<ReadyItem>, items: seq<ReadyItem>, env: Env) returns (q: Pass)
    requires MarkIds(p.marks) == Ids(done) && items != [] && p.phase.Running?
    ensures Run(p, items, env) == Run(q, items[1..], env)
    ensures || MarkIds(q.marks) == Ids(done + [items[0]])
            || (MarkIds(q.marks) == Ids(done) && Run(q, items[1..], env) == q && q.phase.Aborted?)
  {
    q := Turn(p, items[0], env);
    TurnMarksOnce(p, items[0], env);
    IdsGrow(done, items[0]);
  }

  lemma IdsGrow(done: seq<ReadyItem>, item: ReadyItem)
    ensures Ids(done + [item]) == Ids(done) + if item.itemId != "" then [item.itemId] else []
  {
    assert (done + [item])[..|done|] == done;
  }

  // However the pass ends, the board was marked for a prefix of the dispatch order, once for each
  // item with an id, in that order; for all of it when the pass returns.
  lemma EachMarkedOnce(polled: seq<ReadyItem>, env: Env) returns (cut: nat)
    ensures cut <= |polled| == |Sorted(polled)|
    ensures MarkIds(WholePass(polled, env).marks) == Ids(Sorted(polled)[..cut])
    ensures WholePass(polled, env).phase.Returned? ==> cut == |polled|
  {
    SortedMeaning(polled, SortKey(0, 0));
    SingletonMultiset(polled, Sorted(polled));
    var start := BareLoop(polled, env);
    cut := RunMarksOnce(start, [], Sorted(polled), env);
    assert [] + Sorted(polled)[..cut] == Sorted(polled)[..cut];
    RunNeverReturns(start, Sorted(polled), env);
  }

  // The opening and closing writes mark nothing, and only the closing one returns.
  lemma BareLoop(polled: seq<ReadyItem>, env: Env) returns (start: Pass)
    ensures start.marks == [] && !start.phase.Returned?
    ensures var q, p := Run(start, Sorted(polled), env), WholePass(polled, env);
            p.marks == q.marks && (q.phase.Running? || p == q)
  {
    start := Start(env);
  }

  lemma {:induction false} RunNeverReturns(p: Pass, items: seq<ReadyItem>, env: Env)
    requires !p.phase.Returned?
    ensures !Run(p, items, env).phase.Returned?
    decreases |items|
  {
    if items != [] && p.phase.Running? {
      RunNeverReturns(Turn(p, items[0], env), items[1..], env);
    }
  }

  lemma TurnTries(p: Pass, item: ReadyItem, env: Env)
    ensures Turn(p, item, env).tried == p.tried + if IsValid(item) then [item] else []
  {
  }

  lemma {:induction false} RunTriesPrefix(p: Pass, items: seq<ReadyItem>, env: Env)
    ensures Run(p, items, env).tried <= p.tried + Filter(IsValid, items)
    decreases |items|
  {
    if items != [] && p.phase.Running? {
      TurnTries(p, items[0], env);
      RunTriesPrefix(Turn(p, items[0], env), items[1..], env);
      assert p.tried + Filter(IsValid, items)
          == Turn(p, items[0], env).tried + Filter(IsValid, items[1..]);
    }
  }

  // However the pass ends, the executor was called for a prefix of the valid items in dispatch order, so
  // for none of them twice.
  lemma EachTriedOnce(polled: seq<ReadyItem>, env: Env)
    ensures WholePass(polled, env).tried <= Valid(polled)
    ensures WholePass(polled, env).phase.Returned? ==> WholePass(polled, env).tried == Valid(polled)
  {
    RunTriesPrefix(Start(env), Sorted(polled), env);
    assert [] + Filter(IsValid, Sorted(polled)) == Valid(polled);
    if WholePass(polled, env).phase.Returned? {
      ReturnAccounts(polled, env);
    }
  }

  // ---- The status log -----------------------------------------------------------------------------------

  // A pass that ends by itself leaves one write per executed item after the opening one, each with
  // the length of the failing suffix at that point, never above two; only the last says stopped.
  lemma StatusTrace(polled: seq<ReadyItem>, env: Env)
    requires !WholePass(polled, env).phase.Aborted?
    ensures var p := WholePass(polled, env); var n := |p.tried|;
            && |p.log| == n + (if p.phase.Killed? then 1 else 2)
            && p.log[0] == Status("running", "none", 0, "")
            && (forall j | 0 <= j <= n :: p.log[j].consecutiveFailures == FailingSuffix(env, j) <= 2)
            && (forall j | 0 <= j < |p.log| :: p.log[j].state == "stopped" <==> j == |p.log| - 1)
            && p.log[|p.log| - 1].consecutiveFailures == FailingSuffix(env, n)
            && (p.log[|p.log| - 1].lastOutcome == "kill" <==> p.phase.Killed?)
  {
    var q, cut := LoopIsFaithful(polled, env);
    var n := |q.tried|;
    forall j: nat | j <= n ensures q.log[j].consecutiveFailures == FailingSuffix(env, j) <= 2
      && (q.log[j].state == "stopped" <==> q.phase.Killed? && j == n)
    {
      EntryTells(q, env, j);
    }
  }

  lemma EntryTells(q: Pass, env: Env, j: nat)
    requires PhaseRight(q, env) && j <= |q.tried|
    ensures Entry(env, j).consecutiveFailures == FailingSuffix(env, j) <= 2
    ensures Entry(env, j).state == "stopped" <==> q.phase.Killed? && j == |q.tried|
    ensures Entry(env, j).state == "stopped" ==> Entry(env, j).lastOutcome == "kill"
  {
    if q.phase.Killed? && j == |q.tried| {
      SuffixIsShort(env, j - 1);
    } else {
      SuffixIsShort(env, j);
      assert j > 1 ==> !PairAt(env, j - 2);
    }
  }

  ghost predicate NoStop(log: seq<Status>) {
    forall j | 0 <= j < |log| :: log[j].state != "stopped"
  }

  lemma {:induction false} AbortLeavesRunning(p: Pass, items: seq<ReadyItem>, env: Env)
    requires NoStop(p.log)
    ensures Run(p, items, env).phase.Killed? || NoStop(Run(p, items, env).log)
    decreases |items|
  {
    if items != [] && p.phase.Running? {
      var q := Turn(p, items[0], env);
      if !q.phase.Killed? {
        AbortLeavesRunning(q, items[1..], env);
      }
    }
  }

  // The status says stopped exactly when the pass returned or was killed: any other exception leaves
  // it at the last running write.
  lemma StoppedIff(polled: seq<ReadyItem>, env: Env)
    ensures (exists j :: 0 <= j < |WholePass(polled, env).log| && WholePass(polled, env).log[j].state == "stopped")
       <==> !WholePass(polled, env).phase.Aborted?
  {
    var p := WholePass(polled, env);
    if p.phase.Aborted? {
      AbortLeavesRunning(Start(env), Sorted(polled), env);
    } else {
      StatusTrace(polled, env);
      assert p.log[|p.log| - 1].state == "stopped";
    }
  }
}
