/**
 * A loop that waits for the worker never waits in vain (src/runtime/handle.rs:417-743): something can
 * always be done about it, and whatever loop and worker do, the wait ends.
 */
module RuntimeProgress {
  import opened Wrappers
  import opened Qso
  import opened Operation
  import opened StoreModel
  import opened History
  import opened Rejection
  import opened Journal
  import opened RuntimeModel
  import opened Pipeline
  import opened RuntimeProof
  import opened RuntimeTheorems

  predicate Waiting(s: Sys) {
    s.loop.Sending? || s.loop.Awaiting?
  }

  /** The wait is over: the loop serves commands again, or has shut down. */
  predicate Back(s: Sys) {
    s.loop.Idle? || s.loop.Stopped?
  }

  /** A step of loop or worker that is due: neither a crash nor the deadline is needed. */
  predicate Due(cfg: Config, s: Sys, a: Action) {
    Enabled(cfg, s, a) && !a.Restart? && !a.WorkerDeadline?
  }

  /** Among the steps that succeed, one is always due. */
  lemma {:induction false} SomethingIsDue(cfg: Config, s: Sys) returns (a: Action)
    requires SysInv(cfg, s) && Waiting(s) && cfg.persistQueueBound > 0
    ensures Due(cfg, s, a) && !AppendFails(a)
  {
    hide CoreInv, AnnounceOk, PurposeOk, Export, ReplyOk, Load;
    match s.worker {
      case Appending(_) => a := WorkerAppend(false);
      case Snapshotting(_, _, _) => a := WorkerSnapshot(false);
      case Compacting(_) => a := WorkerCompact(false);
      case Done => a := LoopReply;
      case Receiving =>
        if s.queue != [] { a := WorkerReceive; }
        else if s.loop.Sending? { a := LoopSend; }
        else { a := LoopReply; }
    }
  }

  // ---- the wait is bounded ---------------------------------------------------------------

  /** What the purpose may still send: an acked insert may start a checkpoint. */
  function AfterPurpose(p: Purpose): nat {
    if p.ForDurableAck? then 20 else 0
  }

  function LoopWork(loop: LoopPhase): nat {
    match loop
    case Sending(_, p) => 10 + AfterPurpose(p)
    case Awaiting(p) => AfterPurpose(p)
    case _ => 0
  }

  function WorkerWork(s: Sys): nat {
    match s.worker
    case Appending(serving) => if serving.Some? then 5 else 0
    case Snapshotting(_, _, _) => 4
    case Compacting(_) => 3
    case _ => 0
  }

  /** An upper bound on the steps before the wait ends. */
  function Work(s: Sys): nat {
    LoopWork(s.loop) + 8 * |s.queue| + 2 * |s.buf| + WorkerWork(s)
    + (if s.reply.Some? then 2 else 0)
    + (if s.worker == Appending(None) then 0 else 1)
  }

  lemma {:induction false} AppendShrinks(cfg: Config, s: Sys, fails: bool)
    requires SysInv(cfg, s) && s.worker.Appending?
    ensures HandleAppend(s, fails).loop == s.loop && Work(HandleAppend(s, fails)) < Work(s)
  {
    hide CoreInv, AnnounceOk, PurposeOk, Export, FlushBuf, ReplyOk, Load;
    var r := s.(worker := Receiving);
    CoreFields(s, r);
    AppendServes(cfg, s);
    FlushLandsOrLoses(r, fails);
  }

  lemma {:induction false} ReplyShrinks(cfg: Config, s: Sys)
    requires s.loop.Awaiting? && s.reply.Some?
    ensures var t := HandleReply(cfg, s, s.loop.purpose, s.reply.value);
      Back(t) || (Waiting(t) && Work(t) < Work(s))
  {
    hide Rollback, Stale, Export;
  }

  lemma {:induction false} MessageShrinks(cfg: Config, s: Sys)
    requires s.worker.Receiving? && s.queue != []
    ensures HandleMessage(cfg, s).loop == s.loop && Work(HandleMessage(cfg, s)) < Work(s)
  {
  }

  lemma {:induction false} CheckpointShrinks(cfg: Config, s: Sys, fails: bool)
    requires SysInv(cfg, s) && Waiting(s)
    ensures s.worker.Snapshotting? ==>
      HandleSnapshot(s, fails).loop == s.loop && Work(HandleSnapshot(s, fails)) < Work(s)
    ensures s.worker.Compacting? ==>
      HandleCompact(s, fails).loop == s.loop && Work(HandleCompact(s, fails)) < Work(s)
  {
    hide CoreInv, AnnounceOk, PurposeOk, Export, ReplyOk, Load, CompactThrough, WriteSnapshot;
  }

  /** Every step that is not a restart, the deadline and failures included, brings the end of the wait nearer. */
  lemma {:induction false} EveryStepShrinks(cfg: Config, s: Sys, a: Action)
    requires SysInv(cfg, s) && Waiting(s) && Enabled(cfg, s, a) && !a.Restart?
    ensures Back(Step(cfg, s, a)) || (Waiting(Step(cfg, s, a)) && Work(Step(cfg, s, a)) < Work(s))
  {
    hide SysInv, HandleReply, HandleMessage, HandleAppend, HandleSnapshot, HandleCompact;
    match a {
      case LoopReply => ReplyShrinks(cfg, s);
      case WorkerReceive => MessageShrinks(cfg, s);
      case WorkerAppend(fails) => AppendShrinks(cfg, s, fails);
      case WorkerSnapshot(fails) => CheckpointShrinks(cfg, s, fails);
      case WorkerCompact(fails) => CheckpointShrinks(cfg, s, fails);
      case _ =>
    }
  }

  /** Every action of the list can be taken when its turn comes, and none is a restart. */
  predicate AllTaken(cfg: Config, s: Sys, actions: seq<Action>) {
    if actions == [] then true else
    var n := |actions| - 1;
    AllTaken(cfg, s, actions[..n]) && !actions[n].Restart? && Enabled(cfg, RunSys(cfg, s, actions[..n]), actions[n])
  }

  /**
   * No wait lasts: from a waiting loop, every list of more than `Work(s)` steps that loop and worker
   * can take, in whatever order and with whatever failures, passes a point where it is back.
   */
  lemma {:induction false} WaitEnds(cfg: Config, s: Sys, actions: seq<Action>)
    requires SysInv(cfg, s) && Waiting(s) && AllTaken(cfg, s, actions) && |actions| > Work(s)
    ensures exists n :: 0 <= n <= |actions| && Back(RunSys(cfg, s, actions[..n]))
  {
    var n := WaitIsBounded(cfg, s, actions);
    assert Back(RunSys(cfg, s, actions[..n]));
  }

  lemma {:induction false} WaitIsBounded(cfg: Config, s: Sys, actions: seq<Action>) returns (n: nat)
    requires SysInv(cfg, s) && Waiting(s) && AllTaken(cfg, s, actions)
    ensures n <= |actions|
    ensures Back(RunSys(cfg, s, actions[..n])) ||
      (n == |actions| && Waiting(RunSys(cfg, s, actions)) && Work(RunSys(cfg, s, actions)) + n <= Work(s))
  {
    hide SysInv, Step, Enabled, Work, Waiting, Back;
    if actions == [] {
      n := 0;
    } else {
      var last := |actions| - 1;
      n := WaitIsBounded(cfg, s, actions[..last]);
      if !Back(RunSys(cfg, s, actions[..last][..n])) {
        var t := RunSys(cfg, s, actions[..last]);
        assert actions[..last][..last] == actions[..last];
        RunKeepsInv(cfg, s, actions[..last]);
        EveryStepShrinks(cfg, t, actions[last]);
        n := |actions|;
        assert actions[..n] == actions;
      } else {
        assert actions[..last][..n] == actions[..n];
      }
    }
  }

  /** And when nothing fails there is such a list: the loop can always be brought back. */
  lemma {:induction false} WaitCanEnd(cfg: Config, s: Sys) returns (actions: seq<Action>)
    requires SysInv(cfg, s) && Waiting(s) && cfg.persistQueueBound > 0
    ensures AllTaken(cfg, s, actions) && Back(RunSys(cfg, s, actions))
    decreases Work(s)
  {
    hide SysInv, Step, Enabled, Work, Waiting, Back;
    var a := SomethingIsDue(cfg, s);
    StepKeepsInv(cfg, s, a);
    EveryStepShrinks(cfg, s, a);
    var t, rest := Step(cfg, s, a), [];
    if !Back(t) { rest := WaitCanEnd(cfg, t); }
    actions := [a] + rest;
    OneStep(cfg, s, a);
    RunAppend(cfg, s, [a], rest);
    AllTakenFront(cfg, s, a, rest);
  }

  lemma {:induction false} AllTakenFront(cfg: Config, s: Sys, a: Action, rest: seq<Action>)
    requires Enabled(cfg, s, a) && !a.Restart? && AllTaken(cfg, Step(cfg, s, a), rest)
    ensures AllTaken(cfg, s, [a] + rest)
  {
    hide Step, Enabled;
    if rest == [] {
      assert [a] + rest == [a] && [a][..0] == [];
    } else {
      var n := |rest| - 1;
      AllTakenFront(cfg, s, a, rest[..n]);
      assert ([a] + rest)[..n + 1] == [a] + rest[..n];
      OneStep(cfg, s, a);
      RunAppend(cfg, s, [a], rest[..n]);
    }
  }
}
