/** services/receive_sync.py: what a pass does, item by item and write by write. */
module RobotReport {
  import opened Wrappers
  import opened Sequences
  import opened Dispatch
  import opened Numerals
  import opened ReceiveSync
  import opened RobotPass

  predicate Complete(item: ReadyItem) {
    item.itemId != "" && item.poNumber != "" && item.inventoryId != "" && item.model != "" && item.serial != ""
  }

  lemma ValidAreComplete(polled: seq<ReadyItem>)
    ensures forall item :: item in Valid(polled) <==> item in polled && Complete(item)
  {
    SortedMeaning(polled, SortKey(0, 0));
    FilterMembers(IsValid, Sorted(polled));
    forall item ensures item in Sorted(polled) <==> item in polled {
      assert item in multiset(Sorted(polled)) <==> item in multiset(polled);
    }
  }

  // Only items with all five fields are executed, and a pass that returns has executed every one.
  lemma CompleteAreExecuted(polled: seq<ReadyItem>, env: Env)
    ensures forall item :: item in WholePass(polled, env).tried ==> item in polled && Complete(item)
    ensures WholePass(polled, env).phase.Returned? ==>
              forall item :: item in polled && Complete(item) ==> item in WholePass(polled, env).tried
  {
    EachTriedOnce(polled, env);
    ValidAreComplete(polled);
    var p := WholePass(polled, env);
    forall item | item in p.tried ensures item in Valid(polled) {
      var k :| 0 <= k < |p.tried| && p.tried[k] == item;
      assert Valid(polled)[k] == item;
    }
  }

  lemma {:induction false} FilterAscends(s: seq<ReadyItem>)
    requires Ascending(s)
    ensures Ascending(Filter(IsValid, s))
  {
    if s != [] {
      TailAscends(s);
      FilterAscends(s[1..]);
      FilterMembers(IsValid, s[1..]);
      var rest := Filter(IsValid, s[1..]);
      forall k | 0 <= k < |rest| ensures AtMost(KeyOf(s[0]), KeyOf(rest[k])) {
        assert rest[k] in rest;
        var i :| 0 <= i < |s[1..]| && s[1..][i] == rest[k];
        assert s[i + 1] == rest[k];
      }
    }
  }

  // The executor is called in the order of the numbers the ids read as, unreadable ones last.
  lemma ExecutedByNumber(polled: seq<ReadyItem>, env: Env, a: ReadyItem, b: ReadyItem)
    ensures var x, y := ParseInt(a.inventoryId), ParseInt(b.inventoryId);
            x.Some? && (y.None? || x.value < y.value) ==> Precedes(WholePass(polled, env).tried, a, b)
  {
    SortedMeaning(polled, SortKey(0, 0));
    FilterAscends(Sorted(polled));
    EachTriedOnce(polled, env);
    var tried := WholePass(polled, env).tried;
    assert forall k :: 0 <= k < |tried| ==> tried[k] == Valid(polled)[k];
  }

  // An id in decimal notation is driven before every greater one.
  lemma ExecutedByDecimal(polled: seq<ReadyItem>, env: Env, a: ReadyItem, b: ReadyItem, m: nat, n: nat)
    requires a.inventoryId == Decimal(m) && b.inventoryId == Decimal(n) && m < n
    ensures Precedes(WholePass(polled, env).tried, a, b)
  {
    assert "" + Decimal(m) + "" == Decimal(m) && "" + Decimal(n) + "" == Decimal(n);
    ParsesDecimal("", m, "");
    ParsesDecimal("", n, "");
    ExecutedByNumber(polled, env, a, b);
  }

  // What each executed item is marked with.
  lemma ExecutedAreMarked(polled: seq<ReadyItem>, env: Env, j: nat)
    requires !WholePass(polled, env).phase.Aborted? && j < |WholePass(polled, env).tried|
    ensures var p := WholePass(polled, env); var id := p.tried[j].itemId;
            && (env.reply(j) == Outcome("received") ==> Received(id) in p.marks)
            && (env.reply(j).Outcome? && env.reply(j).outcome != "received" ==> NoMatch(id) in p.marks)
            && (env.reply(j).ExecutorError? ==> NeedsAttention(id) in p.marks)
            && !env.reply(j).OtherError?
  {
    var q, cut := LoopIsFaithful(polled, env);
    TriedIsMarked(Sorted(polled)[..cut], env, j);
  }

  lemma {:induction false} IncompleteIsMarked(done: seq<ReadyItem>, env: Env, item: ReadyItem)
    requires item in done && !IsValid(item) && item.itemId != ""
    ensures NoMatch(item.itemId) in MarksFor(done, env)
  {
    var before, last := done[..|done| - 1], done[|done| - 1];
    assert done == before + [last];
    if last != item {
      IncompleteIsMarked(before, env, item);
    }
  }

  // And an incomplete item with an id, by a pass that returns: no match.
  lemma IncompleteAreMarked(polled: seq<ReadyItem>, env: Env, item: ReadyItem)
    requires WholePass(polled, env).phase.Returned? && item in polled && !Complete(item) && item.itemId != ""
    ensures NoMatch(item.itemId) in WholePass(polled, env).marks
  {
    var q, cut := LoopIsFaithful(polled, env);
    assert Sorted(polled)[..cut] == Sorted(polled);
    SortedMeaning(polled, SortKey(0, 0));
    assert item in multiset(polled) && item in multiset(Sorted(polled));
    IncompleteIsMarked(Sorted(polled), env, item);
  }

  // The calls among the first n whose reply passes a test.
  ghost function CallsWhere(which: Reply -> bool, env: Env, n: nat): set<nat> {
    set k: nat | k < n && which(env.reply(k))
  }

  lemma {:induction false} TallyIsSize(which: Reply -> bool, env: Env, n: nat)
    ensures Tally(which, env, n) == |CallsWhere(which, env, n)|
  {
    if n == 0 {
      assert CallsWhere(which, env, 0) == {};
    } else {
      TallyIsSize(which, env, n - 1);
      var last := if which(env.reply(n - 1)) then {n - 1} else {};
      assert CallsWhere(which, env, n) == CallsWhere(which, env, n - 1) + last;
    }
  }

  // What the counters of a returned pass count.
  lemma CountersTell(polled: seq<ReadyItem>, env: Env)
    requires WholePass(polled, env).phase.Returned?
    ensures var p := WholePass(polled, env); var n := |p.tried|;
            && Answer(p) == Ok(ReceiveResult(p.received, p.noMatch, p.failed, p.skipped))
            && p.received == |set k: nat | k < n && env.reply(k) == Outcome("received")|
            && p.noMatch == |set k: nat | k < n && env.reply(k).Outcome? && env.reply(k).outcome != "received"|
            && p.failed == |set k: nat | k < n && env.reply(k).ExecutorError?|
            && p.skipped == |polled| - n
  {
    var q, cut := LoopIsFaithful(polled, env);
    ReturnAccounts(polled, env);
    var n := |q.tried|;
    TallyIsSize(Success, env, n);
    TallyIsSize(Unmatched, env, n);
    TallyIsSize(Failure, env, n);
    assert CallsWhere(Success, env, n) == set k: nat | k < n && env.reply(k) == Outcome("received");
    assert CallsWhere(Unmatched, env, n)
        == set k: nat | k < n && env.reply(k).Outcome? && env.reply(k).outcome != "received";
    assert CallsWhere(Failure, env, n) == set k: nat | k < n && env.reply(k).ExecutorError?;
  }

  // What each write of the log says.
  lemma WritesTell(polled: seq<ReadyItem>, env: Env, j: nat)
    requires !WholePass(polled, env).phase.Aborted? && 1 <= j <= |WholePass(polled, env).tried|
    ensures var p := WholePass(polled, env); var n := |p.tried|;
            && j < |p.log|
            && (env.reply(j - 1).Outcome? ==> p.log[j] == Status("running", "success", 0, ""))
            && (env.reply(j - 1).ExecutorError? ==>
                  p.log[j] == if p.phase.Killed? && j == n then Status("stopped", "kill", 2, KILL_REASON)
                              else Status("running", "failure", 1, ""))
  {
    var q, cut := LoopIsFaithful(polled, env);
    EntryTells(q, env, j);
    if q.phase.Killed? && j == |q.tried| {
      SuffixIsShort(env, j - 1);
    } else {
      SuffixIsShort(env, j);
      assert j > 1 ==> !PairAt(env, j - 2);
    }
  }

  // And the last write of a pass that returns.
  lemma LastWriteTells(polled: seq<ReadyItem>, env: Env)
    requires WholePass(polled, env).phase.Returned?
    ensures var p := WholePass(polled, env); var n := |p.tried|;
            p.log != []
            && p.log[|p.log| - 1]
            == Status("stopped", if exists k: nat :: k < n && env.reply(k).ExecutorError? then "failure" else "success",
                      if n > 0 && env.reply(n - 1).ExecutorError? then 1 else 0, "")
  {
    var q, cut := LoopIsFaithful(polled, env);
    var n := |q.tried|;
    CountersTell(polled, env);
    SuffixIsShort(env, n);
    var failing := set k: nat | k < n && env.reply(k).ExecutorError?;
    if k: nat :| k < n && env.reply(k).ExecutorError? {
      assert k in failing;
    } else {
      assert failing == {};
    }
  }
}
