/**
 * When a durable loop stops taking mutations, and when it serves again (src/runtime/handle.rs:232-254,
 * 846-875): only the notice of a successful append restores health, and without anything to append
 * there is none. A checkpoint that answers Ok heals the tables, not the loop.
 */
module RuntimeHealth {
  import opened Wrappers
  import opened Qso
  import opened Operation
  import opened StoreModel
  import opened History
  import opened Rejection
  import opened Journal
  import opened RuntimeModel
  import opened Pipeline
  import opened RuntimeProof
  import opened RuntimeTheorems
  import opened RuntimeAcks

  /** The last answer given. */
  predicate Newly(s: Sys, reply: ClientReply) {
    s.replies != [] && s.replies[|s.replies| - 1] == reply
  }

  predicate Mutating(p: Purpose) {
    p.ForDurableAck? || p.ForAutoCheckpoint?
  }

  /**
   * Unhealthy with nothing in the pipe and no durable notice on its way: only an append announces
   * health again, and there is nothing to append. Between requests, health and notices are all there
   * is to it: the rest follows from the system invariant (`IdleIsStuckIff`).
   */
  predicate Stuck(cfg: Config, s: Sys) {
    && cfg.ackMode.Durable? && !s.health.isHealthy
    && s.buf == [] && OpsOf(s.queue) == []
    && DurableValues(s.notices) == []
    && (s.loop.Sending? ==> !s.loop.msg.OpMsg?)
    && (s.loop.Sending? || s.loop.Awaiting? ==> !Mutating(s.loop.purpose))
  }

  predicate NoRestart(actions: seq<Action>) {
    forall i :: 0 <= i < |actions| ==> !actions[i].Restart?
  }

  lemma {:induction false} StuckStep(cfg: Config, s: Sys, a: Action)
    requires Stuck(cfg, s) && !a.Restart?
    ensures Stuck(cfg, Step(cfg, s, a)) && Step(cfg, s, a).store == s.store
    ensures a.Mutate? && Enabled(cfg, s, a) ==> Step(cfg, s, a) == Answer(s, PersistenceUnhealthy)
  {
    hide HandleMutation, HandleReply, HandleMessage, HandleAppend, HandleNotice, HandleSnapshot, HandleCompact,
      Export, OpsOf;
    if Enabled(cfg, s, a) {
      match a {
        case Mutate(cmd) => StuckMutation(cfg, s, cmd);
        case LoopSend => OpsOfAppend(s.queue, s.loop.msg);
        case LoopReply => StuckReply(cfg, s);
        case LoopNotice => StuckNotice(cfg, s);
        case WorkerReceive => StuckMessage(cfg, s);
        case WorkerAppend(fails) => StuckAppend(cfg, s, fails);
        case WorkerSnapshot(fails) => StuckSnapshot(cfg, s, fails);
        case WorkerCompact(fails) => StuckCompact(cfg, s, fails);
        case _ =>
      }
    }
  }

  lemma {:induction false} StuckMutation(cfg: Config, s: Sys, cmd: Command)
    requires Stuck(cfg, s)
    ensures HandleMutation(cfg, s, cmd) == Answer(s, PersistenceUnhealthy)
  {
  }

  lemma {:induction false} StuckReply(cfg: Config, s: Sys)
    requires Stuck(cfg, s) && s.loop.Awaiting? && s.reply.Some?
    ensures var t := HandleReply(cfg, s, s.loop.purpose, s.reply.value); Stuck(cfg, t) && t.store == s.store
  {
    hide Rollback, Stale, AfterAck, OpsOf, DurableValues;
  }

  lemma {:induction false} StuckNotice(cfg: Config, s: Sys)
    requires Stuck(cfg, s) && s.notices != []
    ensures Stuck(cfg, HandleNotice(s)) && HandleNotice(s).store == s.store
  {
    hide OpsOf, DurableValues;
    DurableValuesFront(s.notices);
  }

  lemma {:induction false} StuckMessage(cfg: Config, s: Sys)
    requires Stuck(cfg, s) && s.queue != []
    ensures var t := HandleMessage(cfg, s); Stuck(cfg, t) && t.store == s.store
  {
    hide OpsOf, DurableValues;
    OpsOfFront(s.queue);
  }

  lemma {:induction false} StuckAppend(cfg: Config, s: Sys, fails: bool)
    requires Stuck(cfg, s) && s.worker.Appending?
    ensures var t := HandleAppend(s, fails); Stuck(cfg, t) && t.store == s.store
  {
    hide OpsOf, DurableValues, InsertRows;
  }

  lemma {:induction false} StuckSnapshot(cfg: Config, s: Sys, fails: bool)
    requires Stuck(cfg, s) && s.worker.Snapshotting?
    ensures Stuck(cfg, HandleSnapshot(s, fails)) && HandleSnapshot(s, fails).store == s.store
  {
    hide OpsOf, DurableValues;
  }

  lemma {:induction false} StuckCompact(cfg: Config, s: Sys, fails: bool)
    requires Stuck(cfg, s) && s.worker.Compacting?
    ensures Stuck(cfg, HandleCompact(s, fails)) && HandleCompact(s, fails).store == s.store
  {
    hide OpsOf, DurableValues, EventsAfter;
  }

  /** In durable mode such a loop refuses every mutation from then on, until a restart. */
  lemma {:induction false} StuckUntilRestart(cfg: Config, s: Sys, actions: seq<Action>, cmd: Command)
    requires Stuck(cfg, s) && NoRestart(actions)
    ensures var u := RunSys(cfg, s, actions);
      && Stuck(cfg, u) && u.store == s.store
      && (u.loop.Idle? ==> Step(cfg, u, Mutate(cmd)) == Answer(u, PersistenceUnhealthy))
  {
    hide Stuck, Step;
    if actions == [] {
      StuckRefuses(cfg, s, cmd);
    } else {
      var n := |actions| - 1;
      StuckUntilRestart(cfg, s, actions[..n], cmd);
      StuckStep(cfg, RunSys(cfg, s, actions[..n]), actions[n]);
      StuckRefuses(cfg, RunSys(cfg, s, actions), cmd);
    }
  }

  lemma {:induction false} StuckRefuses(cfg: Config, s: Sys, cmd: Command)
    requires Stuck(cfg, s)
    ensures s.loop.Idle? ==> Step(cfg, s, Mutate(cmd)) == Answer(s, PersistenceUnhealthy)
  {
  }

  // ---- exactly when the loop serves again ------------------------------------------------

  predicate Serving(s: Sys) {
    s.loop.Idle? && s.health.isHealthy
  }

  /** Some interleaving without a restart makes the loop healthy and ready for the next mutation. */
  ghost predicate Recovers(cfg: Config, s: Sys) {
    exists actions :: NoRestart(actions) && Serving(RunSys(cfg, s, actions))
  }

  lemma {:induction false} IdleIsStuckIff(cfg: Config, s: Sys)
    requires SysInv(cfg, s) && s.loop.Idle? && cfg.ackMode.Durable?
    ensures Stuck(cfg, s) <==> !s.health.isHealthy && DurableValues(s.notices) == []
  {
    hide CoreInv, AnnounceOk;
  }

  /** Reading the notices one by one, the first durable one restores health. */
  lemma {:induction false} NoticesHeal(cfg: Config, s: Sys) returns (actions: seq<Action>)
    requires s.loop.Idle? && (s.health.isHealthy || DurableValues(s.notices) != [])
    ensures NoRestart(actions) && Serving(RunSys(cfg, s, actions))
    decreases |s.notices|
  {
    if s.health.isHealthy {
      actions := [];
    } else {
      DurableValuesFront(s.notices);
      var rest := NoticesHeal(cfg, Step(cfg, s, LoopNotice));
      actions := [LoopNotice] + rest;
      OneStep(cfg, s, LoopNotice);
      RunAppend(cfg, s, [LoopNotice], rest);
    }
  }

  /**
   * Exactly when a durable loop between requests comes back without a restart: unless it is
   * unhealthy and no durable notice is on its way.
   */
  lemma {:induction false} ServesAgainIffNotStuck(cfg: Config, s: Sys)
    requires SysInv(cfg, s) && s.loop.Idle? && cfg.ackMode.Durable?
    ensures Recovers(cfg, s) <==> !Stuck(cfg, s)
    ensures Stuck(cfg, s) <==> !s.health.isHealthy && DurableValues(s.notices) == []
  {
    hide RunSys, SysInv, DurableValues;
    IdleIsStuckIff(cfg, s);
    if Stuck(cfg, s) {
      forall actions | NoRestart(actions) ensures !Serving(RunSys(cfg, s, actions)) {
        StuckUntilRestart(cfg, s, actions, CmdUndo);
      }
    } else {
      var actions := NoticesHeal(cfg, s);
    }
  }

  /** A healthy loop between requests takes the next mutation that the store takes. */
  lemma {:induction false} ServingAccepts(cfg: Config, s: Sys, cmd: Command)
    requires SysInv(cfg, s) && Serving(s) && cfg.ackMode.Durable? && cfg.persistQueueBound > 0
    requires Exec(s.store, cmd).result.Success?
    ensures var t := Step(cfg, s, Mutate(cmd));
      && t.store == ClearPending(Exec(s.store, cmd).state) && t.loop.Sending? && t.loop.purpose.ForDurableAck?
      && t.audit.accepted == s.audit.accepted + [Exec(s.store, cmd).result.value]
  {
    hide SysInv, Exec, Rollback;
    IdleQueueIsEmpty(cfg, s);
  }

  // ---- how to get there, and what a checkpoint does not heal ---------------------------------

  const FLUSH_ON_REQUEST: Config := FLUSH_ON_INSERT.(flushOnInsert := false)

  /** The op is buffered, and the flush that the mutation waits for fails. */
  lemma {:induction false} RequestedFlushFails(s: Sys, stored: StoredOp)
    requires s.queue == [OpMsg(stored)] && s.buf == [] && s.worker.Receiving? && s.notices == []
    requires s.loop.Sending? && s.loop.msg == FlushMsg
    ensures var t := RunSys(FLUSH_ON_REQUEST, s, [LoopSend, WorkerReceive, WorkerReceive]);
      var u := Step(FLUSH_ON_REQUEST, t, WorkerAppend(true));
      && u.queue == [] && u.buf == [] && u.notices == [FailureNotice] && u.store == s.store
      && u.loop == Awaiting(s.loop.purpose) && u.reply.Some? && u.reply.value.Failure?
  {
    ThreeSteps(FLUSH_ON_REQUEST, s, LoopSend, WorkerReceive, WorkerReceive);
    var t := Step(FLUSH_ON_REQUEST, s, LoopSend);
    assert t.queue == [OpMsg(stored), FlushMsg];
    var u := Step(FLUSH_ON_REQUEST, t, WorkerReceive);
    assert u.queue == [FlushMsg] && u.buf == [stored];
    var v := Step(FLUSH_ON_REQUEST, u, WorkerReceive);
    assert v.queue == [] && v.worker == Appending(Some(FlushMsg));
  }

  /** The insert is rolled back, and from then on the loop is stuck. */
  lemma {:induction false} FailedInsertSticks(s: Sys, draft: QsoDraft)
    requires s.queue == [] && s.buf == [] && s.notices == [FailureNotice]
    requires s.loop.Awaiting? && s.reply.Some? && s.reply.value.Failure?
    requires var o := Exec(EMPTY_STORE, CmdInsert(draft));
      && o.result.Success? && s.store == ClearPending(o.state)
      && s.loop.purpose == ForDurableAck(Checkpoint(EMPTY_STORE), o.result.value, true)
    ensures var u := Step(FLUSH_ON_REQUEST, s, LoopReply);
      && Stuck(FLUSH_ON_REQUEST, u) && u.loop.Idle? && Newly(u, NotPersisted)
      && u.store.view == EMPTY_STORE.view
  {
    hide Exec, Rollback, Checkpoint;
    RollbackAfterClear(EMPTY_STORE, CmdInsert(draft));
    EmittedIsStaleIffTopIs(EMPTY_STORE, CmdInsert(draft));
    assert DurableValues([FailureNotice]) == [] by { assert [FailureNotice][..0] == []; }
  }

  function FailOnRequest(draft: QsoDraft): seq<Action> {
    [Mutate(CmdInsert(draft))] + ([LoopSend, WorkerReceive, WorkerReceive] + ([WorkerAppend(true)] + [LoopReply]))
  }

  /** One failed flush of a fresh runtime is enough. */
  lemma {:induction false} FailedFlushSticks(draft: QsoDraft)
    ensures Load(EMPTY_TABLES).Success?
    ensures var s := Reached(FLUSH_ON_REQUEST, EMPTY_TABLES, FailOnRequest(draft));
      Stuck(FLUSH_ON_REQUEST, s) && s.loop.Idle? && Newly(s, NotPersisted) && s.store.view == EMPTY_STORE.view
  {
    hide RunSys, Stuck;
    EmptyTablesAreLoadable();
    var cfg, s0, three := FLUSH_ON_REQUEST, Spawn(EMPTY_STORE, EMPTY_TABLES), [LoopSend, WorkerReceive, WorkerReceive];
    var o := Exec(EMPTY_STORE, CmdInsert(draft));
    var s1 := Step(cfg, s0, Mutate(CmdInsert(draft)));
    assert s1.queue == [OpMsg(o.result.value)] && s1.store == ClearPending(o.state);
    hide Step, Exec;
    RequestedFlushFails(s1, o.result.value);
    var s4 := RunSys(cfg, s1, three);
    FailedInsertSticks(Step(cfg, s4, WorkerAppend(true)), draft);
    OneStep(cfg, s0, Mutate(CmdInsert(draft)));
    OneStep(cfg, s4, WorkerAppend(true));
    OneStep(cfg, Step(cfg, s4, WorkerAppend(true)), LoopReply);
    RunAppend(cfg, s0, [Mutate(CmdInsert(draft))], three + ([WorkerAppend(true)] + [LoopReply]));
    RunAppend(cfg, s1, three, [WorkerAppend(true)] + [LoopReply]);
    RunAppend(cfg, s4, [WorkerAppend(true)], [LoopReply]);
  }

  /** A checkpoint of a drained runtime, every step of which succeeds. */
  function GoodCheckpoint(cfg: Config): seq<Action> {
    [ClientCheckpoint, LoopSend, WorkerReceive] + (GoodService(cfg) + [LoopReply])
  }

  function GoodService(cfg: Config): seq<Action> {
    if cfg.compactAfterSnapshot then [WorkerAppend(false), WorkerSnapshot(false), WorkerCompact(false)]
    else [WorkerAppend(false)] + [WorkerSnapshot(false)]
  }

  lemma {:induction false} CheckpointRequested(cfg: Config, s: Sys)
    requires s.loop.Idle? && Drained(s) && s.worker.Receiving? && s.reply.None? && cfg.persistQueueBound > 0
    ensures RunSys(cfg, s, [ClientCheckpoint, LoopSend, WorkerReceive]) == s.(loop := Awaiting(ForCheckpoint),
      worker := Appending(Some(CheckpointMsg(Export(s.store), LastSeq(s.store), cfg.compactAfterSnapshot))))
  {
    hide Export;
    ThreeSteps(cfg, s, ClientCheckpoint, LoopSend, WorkerReceive);
    var m := CheckpointMsg(Export(s.store), LastSeq(s.store), cfg.compactAfterSnapshot);
    assert Step(cfg, Step(cfg, s, ClientCheckpoint), LoopSend).queue == [m];
  }

  lemma {:induction false} AppendsAndWrites(cfg: Config, s: Sys, snapshot: StoreSnapshot, lastSeq: OpSeq)
    requires Drained(s) && s.worker == Appending(Some(CheckpointMsg(snapshot, lastSeq, cfg.compactAfterSnapshot)))
    ensures var t := Step(cfg, Step(cfg, s, WorkerAppend(false)), WorkerSnapshot(false));
      && t.loop == s.loop && t.store == s.store
      && (if cfg.compactAfterSnapshot then
            var u := Step(cfg, t, WorkerCompact(false));
            u.loop == s.loop && u.store == s.store && u.reply == Some(Success(0))
          else t.reply == Some(Success(0)))
  {
    hide Step, CompactThrough, WriteSnapshot;
    AppendsNothing(cfg, s, snapshot, lastSeq);
    var t := Step(cfg, s, WorkerAppend(false));
    assert Step(cfg, t, WorkerSnapshot(false)) == HandleSnapshot(t, false) by { StepUnfolds(cfg, t); }
    StepUnfolds(cfg, HandleSnapshot(t, false));
  }

  lemma {:induction false} AppendsNothing(cfg: Config, s: Sys, snapshot: StoreSnapshot, lastSeq: OpSeq)
    requires Drained(s) && s.worker == Appending(Some(CheckpointMsg(snapshot, lastSeq, cfg.compactAfterSnapshot)))
    ensures Step(cfg, s, WorkerAppend(false)) == s.(worker := Snapshotting(snapshot, lastSeq, cfg.compactAfterSnapshot))
  {
  }

  lemma {:induction false} StepUnfolds(cfg: Config, s: Sys)
    ensures s.worker.Snapshotting? ==> Step(cfg, s, WorkerSnapshot(false)) == HandleSnapshot(s, false)
    ensures s.worker.Compacting? ==> Step(cfg, s, WorkerCompact(false)) == HandleCompact(s, false)
  {
    hide HandleSnapshot, HandleCompact;
  }

  lemma {:induction false} CheckpointServed(cfg: Config, s: Sys, snapshot: StoreSnapshot, lastSeq: OpSeq)
    requires Drained(s) && s.loop == Awaiting(ForCheckpoint)
    requires s.worker == Appending(Some(CheckpointMsg(snapshot, lastSeq, cfg.compactAfterSnapshot)))
    ensures var t := RunSys(cfg, s, GoodService(cfg));
      && t.loop == s.loop && t.reply == Some(Success(0)) && t.store == s.store
  {
    hide Step, RunSys;
    AppendsAndWrites(cfg, s, snapshot, lastSeq);
    if cfg.compactAfterSnapshot {
      ThreeSteps(cfg, s, WorkerAppend(false), WorkerSnapshot(false), WorkerCompact(false));
    } else {
      OneStep(cfg, s, WorkerAppend(false));
      OneStep(cfg, Step(cfg, s, WorkerAppend(false)), WorkerSnapshot(false));
      RunAppend(cfg, s, [WorkerAppend(false)], [WorkerSnapshot(false)]);
    }
  }

  /**
   * From any stuck loop between requests: the checkpoint answers Ok, the tables load to the live
   * store, and the loop is as stuck as before.
   */
  lemma {:induction false} CheckpointLeavesStuck(cfg: Config, s: Sys)
    requires SysInv(cfg, s) && Stuck(cfg, s) && s.loop.Idle? && cfg.persistQueueBound > 0
    ensures var u := RunSys(cfg, s, GoodCheckpoint(cfg));
      && u.loop.Idle? && Newly(u, CheckpointReply(Success(0))) && Stuck(cfg, u)
      && Load(u.tables).Success? && Load(u.tables).value.view == u.store.view
  {
    hide RunSys, Stuck, Export, Load, Step;
    assert Drained(s) && s.worker.Receiving? && s.reply.None? by { IdleStuckIsDrained(cfg, s); }
    hide SysInv;
    var first, steps := [ClientCheckpoint, LoopSend, WorkerReceive], GoodService(cfg);
    CheckpointRequested(cfg, s);
    var t := RunSys(cfg, s, first);
    CheckpointServed(cfg, t, Export(s.store), LastSeq(s.store));
    var u := RunSys(cfg, t, steps);
    RunAppend(cfg, s, first, steps + [LoopReply]);
    RunAppend(cfg, t, steps, [LoopReply]);
    OneStep(cfg, u, LoopReply);
    CheckpointAnswered(cfg, u);
    StuckUntilRestart(cfg, s, GoodCheckpoint(cfg), CmdUndo);
    RunKeepsInv(cfg, s, first);
    RunKeepsInv(cfg, t, steps);
    OkMeansHealed(cfg, u);
  }

  lemma {:induction false} CheckpointAnswered(cfg: Config, s: Sys)
    requires s.loop == Awaiting(ForCheckpoint) && s.reply.Some?
    ensures var t := Step(cfg, s, LoopReply);
      t.loop.Idle? && Newly(t, CheckpointReply(s.reply.value)) && t.tables == s.tables && t.store == s.store
  {
  }

  lemma {:induction false} IdleStuckIsDrained(cfg: Config, s: Sys)
    requires SysInv(cfg, s) && Stuck(cfg, s) && s.loop.Idle?
    ensures Drained(s) && s.worker.Receiving? && s.reply.None?
  {
    hide CoreInv, AnnounceOk;
    IdleQueueIsEmpty(cfg, s);
  }

  /** So it goes in a run: an insert whose flush fails, then a checkpoint that answers Ok. */
  lemma {:induction false} CheckpointHealsTablesNotLoop(draft: QsoDraft)
    ensures Load(EMPTY_TABLES).Success?
    ensures var u := Reached(FLUSH_ON_REQUEST, EMPTY_TABLES, FailOnRequest(draft) + GoodCheckpoint(FLUSH_ON_REQUEST));
      && u.loop.Idle? && Newly(u, CheckpointReply(Success(0))) && !Recovers(FLUSH_ON_REQUEST, u)
      && Load(u.tables).Success? && Load(u.tables).value.view == u.store.view
  {
    hide RunSys, Stuck, Load, SysInv;
    var cfg, s0 := FLUSH_ON_REQUEST, Spawn(EMPTY_STORE, EMPTY_TABLES);
    EmptyTablesAreLoadable();
    FailedFlushSticks(draft);
    SpawnIsOk(cfg, EMPTY_TABLES);
    RunKeepsInv(cfg, s0, FailOnRequest(draft));
    var s := RunSys(cfg, s0, FailOnRequest(draft));
    CheckpointLeavesStuck(cfg, s);
    RunAppend(cfg, s0, FailOnRequest(draft), GoodCheckpoint(cfg));
    RunKeepsInv(cfg, s, GoodCheckpoint(cfg));
    ServesAgainIffNotStuck(cfg, RunSys(cfg, s, GoodCheckpoint(cfg)));
  }
}
