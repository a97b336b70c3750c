/** services/receive_sync.py: one pass of the receiving robot. */
module ReceiveSync {
  import opened Wrappers
  import opened Dispatch

  const CONSECUTIVE_FAILURE_KILL: nat := 2
  const KILL_REASON := "2 consecutive executor failures \U{2014} resolve automation issue before retrying"

  // What the k-th executor call meets: an outcome, an ExecutorError, or any other exception.
  datatype Reply = Outcome(outcome: string) | ExecutorError | OtherError

  datatype Mark = Received(itemId: string) | NoMatch(itemId: string) | NeedsAttention(itemId: string)

  datatype Status = Status(state: string, lastOutcome: string, consecutiveFailures: nat, stoppedReason: string)

  datatype ReceiveResult = ReceiveResult(received: nat, noMatch: nat, failed: nat, skipped: nat)

  datatype RobotError = SyncKill | Raised

  // The surroundings of a pass: `boardFails(k)` and `storeFails(k)` for the k-th mark and write.
  datatype Env = Env(reply: nat -> Reply, boardFails: nat -> bool, storeFails: nat -> bool)

  // Nothing but the executor's own errors goes wrong.
  ghost predicate Calm(env: Env) {
    forall k: nat :: !env.boardFails(k) && !env.storeFails(k) && !env.reply(k).OtherError?
  }

  // ---- The pass as a value ----------------------------------------------------------------

  datatype Phase = Running | Returned | Killed | Aborted

  datatype Pass = Pass(received: nat, noMatch: nat, failed: nat, skipped: nat, streak: nat,
                       marks: seq<Mark>, log: seq<Status>, tried: seq<ReadyItem>, phase: Phase)

  function Marked(p: Pass, env: Env, m: Mark): Pass {
    if env.boardFails(|p.marks|) then p.(phase := Aborted) else p.(marks := p.marks + [m])
  }

  function Written(p: Pass, env: Env, s: Status): Pass {
    if env.storeFails(|p.log|) then p.(phase := Aborted) else p.(log := p.log + [s])
  }

  function Skip(p: Pass, item: ReadyItem, env: Env): Pass {
    var q := if item.itemId != "" then Marked(p, env, NoMatch(item.itemId)) else p;
    if q.phase.Aborted? then q else q.(skipped := q.skipped + 1)
  }

  function Succeed(p: Pass, item: ReadyItem, outcome: string, env: Env): Pass {
    var q := Marked(p, env, if outcome == "received" then Received(item.itemId) else NoMatch(item.itemId));
    if q.phase.Aborted? then q
    else
      var counted := if outcome == "received" then q.(received := q.received + 1) else q.(noMatch := q.noMatch + 1);
      Written(counted.(streak := 0), env, Status("running", "success", 0, ""))
  }

  function Fail(p: Pass, item: ReadyItem, env: Env): Pass {
    var q := Marked(p, env, NeedsAttention(item.itemId));
    if q.phase.Aborted? then q
    else
      var counted := q.(streak := q.streak + 1, failed := q.failed + 1);
      if counted.streak >= CONSECUTIVE_FAILURE_KILL then
        var w := Written(counted, env, Status("stopped", "kill", counted.streak, KILL_REASON));
        if w.phase.Aborted? then w else w.(phase := Killed)
      else Written(counted, env, Status("running", "failure", counted.streak, ""))
  }

  function Turn(p: Pass, item: ReadyItem, env: Env): Pass {
    if !IsValid(item) then Skip(p, item, env)
    else
      var q := p.(tried := p.tried + [item]);
      match env.reply(|p.tried|)
      case Outcome(o) => Succeed(q, item, o, env)
      case ExecutorError => Fail(q, item, env)
      case OtherError => q.(phase := Aborted)
  }

  // The loop: it stops where a turn leaves the running phase.
  function Run(p: Pass, items: seq<ReadyItem>, env: Env): Pass
    decreases |items|
  {
    if items == [] || !p.phase.Running? then p else Run(Turn(p, items[0], env), items[1..], env)
  }

  function Start(env: Env): Pass {
    Written(Pass(0, 0, 0, 0, 0, [], [], [], Running), env, Status("running", "none", 0, ""))
  }

  function Finish(p: Pass, env: Env): Pass {
    if !p.phase.Running? then p
    else
      var w := Written(p, env, Status("stopped", if p.failed > 0 then "failure" else "success", p.streak, ""));
      if w.phase.Aborted? then w else w.(phase := Returned)
  }

  function WholePass(polled: seq<ReadyItem>, env: Env): Pass {
    Finish(Run(Start(env), Sorted(polled), env), env)
  }

  function Answer(p: Pass): Result<ReceiveResult, RobotError> {
    match p.phase
    case Killed => Err(SyncKill)
    case Aborted => Err(Raised)
    case _ => Ok(ReceiveResult(p.received, p.noMatch, p.failed, p.skipped))
  }

  // ---- The ports ------------------------------------------------------------------------------

  class ReceivingBoard {
    const ready: Option<seq<ReadyItem>>  // what poll_ready returns, or None when it raises
    const fails: nat -> bool
    var marks: seq<Mark>

    constructor (ready: Option<seq<ReadyItem>>, fails: nat -> bool)
      ensures this.ready == ready && this.fails == fails && marks == []
    {
      this.ready, this.fails := ready, fails;
      marks := [];
    }

    method MarkItem(m: Mark) returns (ok: bool)
      modifies this
      ensures ok == !fails(|old(marks)|)
      ensures marks == if ok then old(marks) + [m] else old(marks)
    {
      ok := !fails(|marks|);
      if ok {
        marks := marks + [m];
      }
    }
  }

  class StatusStore {
    const fails: nat -> bool
    var log: seq<Status>

    constructor (fails: nat -> bool)
      ensures this.fails == fails && log == []
    {
      this.fails := fails;
      log := [];
    }

    method Write(s: Status) returns (ok: bool)
      modifies this
      ensures ok == !fails(|old(log)|)
      ensures log == if ok then old(log) + [s] else old(log)
    {
      ok := !fails(|log|);
      if ok {
        log := log + [s];
      }
    }
  }

  class ReceivingExecutor {
    const reply: nat -> Reply
    var tried: seq<ReadyItem>

    constructor (reply: nat -> Reply)
      ensures this.reply == reply && tried == []
    {
      this.reply := reply;
      tried := [];
    }

    method ReceiveItem(item: ReadyItem) returns (r: Reply)
      modifies this
      ensures tried == old(tried) + [item] && r == reply(|old(tried)|)
    {
      r := reply(|tried|);
      tried := tried + [item];
    }
  }

  // ---- The pass --------------------------------------------------------------------------------

  datatype Counters = Counters(received: nat, noMatch: nat, failed: nat, skipped: nat, streak: nat)

  ghost function Now(c: Counters, board: ReceivingBoard, executor: ReceivingExecutor, store: StatusStore,
                     phase: Phase): Pass
    reads board, executor, store
  {
    Pass(c.received, c.noMatch, c.failed, c.skipped, c.streak, board.marks, store.log, executor.tried, phase)
  }

  ghost function Ports(board: ReceivingBoard, executor: ReceivingExecutor, store: StatusStore): Env {
    Env(executor.reply, board.fails, store.fails)
  }

  method OnOutcome(c: Counters, item: ReadyItem, outcome: string, board: ReceivingBoard,
                   executor: ReceivingExecutor, store: StatusStore)
    returns (next: Counters, phase: Phase)
    modifies board, store
    ensures Now(next, board, executor, store, phase)
         == Succeed(old(Now(c, board, executor, store, Running)), item, outcome, Ports(board, executor, store))
  {
    next, phase := c, Running;
    var ok;
    if outcome == "received" {
      ok := board.MarkItem(Received(item.itemId));
      if !ok {
        return c, Aborted;
      }
      next := next.(received := next.received + 1);
    } else {
      ok := board.MarkItem(NoMatch(item.itemId));
      if !ok {
        return c, Aborted;
      }
      next := next.(noMatch := next.noMatch + 1);
    }
    next := next.(streak := 0);
    ok := store.Write(Status("running", "success", 0, ""));
    if !ok {
      phase := Aborted;
    }
  }

  method OnExecutorError(c: Counters, item: ReadyItem, board: ReceivingBoard,
                         executor: ReceivingExecutor, store: StatusStore)
    returns (next: Counters, phase: Phase)
    modifies board, store
    ensures Now(next, board, executor, store, phase)
         == Fail(old(Now(c, board, executor, store, Running)), item, Ports(board, executor, store))
  {
    next, phase := c, Running;
    var ok := board.MarkItem(NeedsAttention(item.itemId));
    if !ok {
      return c, Aborted;
    }
    next := next.(streak := next.streak + 1, failed := next.failed + 1);
    if next.streak >= CONSECUTIVE_FAILURE_KILL {
      ok := store.Write(Status("stopped", "kill", next.streak, KILL_REASON));
      phase := if ok then Killed else Aborted;
    } else {
      ok := store.Write(Status("running", "failure", next.streak, ""));
      phase := if ok then Running else Aborted;
    }
  }

  // The loop body.
  method TakeTurn(c: Counters, item: ReadyItem, board: ReceivingBoard, executor: ReceivingExecutor,
                  store: StatusStore)
    returns (next: Counters, phase: Phase)
    modifies board, executor, store
    ensures Now(next, board, executor, store, phase)
         == Turn(old(Now(c, board, executor, store, Running)), item, Ports(board, executor, store))
  {
    next, phase := c, Running;
    if !IsValid(item) {
      if item.itemId != "" {
        var ok := board.MarkItem(NoMatch(item.itemId));
        if !ok {
          return c, Aborted;
        }
      }
      next := next.(skipped := next.skipped + 1);
      return;
    }
    var reply := executor.ReceiveItem(item);
    match reply {
      case Outcome(outcome) => next, phase := OnOutcome(c, item, outcome, board, executor, store);
      case ExecutorError => next, phase := OnExecutorError(c, item, board, executor, store);
      case OtherError => phase := Aborted;
    }
  }

  // receive_pending on fresh ports.
  method ReceivePending(board: ReceivingBoard, executor: ReceivingExecutor, store: StatusStore)
    returns (r: Result<ReceiveResult, RobotError>)
    requires board.marks == [] && store.log == [] && executor.tried == []
    modifies board, executor, store
    ensures board.ready.None? ==> r == Err(Raised) && board.marks == [] && store.log == [] && executor.tried == []
    ensures board.ready.Some? ==>
              var p := WholePass(board.ready.value, Ports(board, executor, store));
              && board.marks == p.marks && store.log == p.log && executor.tried == p.tried
              && r == Answer(p)
  {
    if board.ready.None? {
      return Err(Raised);
    }
    var items := Sorted(board.ready.value);
    var c, phase := Counters(0, 0, 0, 0, 0), Running;
    var ok := store.Write(Status("running", "none", 0, ""));
    if !ok {
      return Err(Raised);
    }
    ghost var env := Ports(board, executor, store);
    ghost var whole := Run(Now(c, board, executor, store, Running), items, env);
    assert items[0..] == items;
    for k := 0 to |items|
      invariant whole == Run(Now(c, board, executor, store, Running), items[k..], env)
    {
      assert items[k..][1..] == items[k + 1..];
      c, phase := TakeTurn(c, items[k], board, executor, store);
      if phase.Killed? {
        return Err(SyncKill);
      }
      if !phase.Running? {
        return Err(Raised);
      }
    }
    ok := store.Write(Status("stopped", if c.failed > 0 then "failure" else "success", c.streak, ""));
    if !ok {
      return Err(Raised);
    }
    return Ok(ReceiveResult(c.received, c.noMatch, c.failed, c.skipped));
  }
}
