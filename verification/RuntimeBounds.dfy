/**
 * What the runtime keeps within bounds (src/runtime/handle.rs:458-461, 685-740, 793-831): the queue, the
 * batch, the inserts since the last automatic checkpoint, and the rows that a checkpoint leaves.
 */
module RuntimeBounds {
  import opened Wrappers
  import opened Qso
  import opened Operation
  import opened StoreModel
  import opened History
  import opened Rejection
  import opened Journal
  import opened RuntimeModel
  import opened Pipeline
  import opened RuntimeProof
  import opened RuntimeTheorems
  import opened RuntimeAnswers

  // ---- queue and batch -----------------------------------------------------------------------

  /** A batch that does not call for an append yet. */
  ghost predicate Small(cfg: Config, buf: seq<StoredOp>) {
    && (buf == [] || |buf| < cfg.batchMaxOps)
    && (cfg.flushOnInsert ==> forall op :: op in buf ==> !op.op.OpInsert?)
  }

  /** The queue keeps to its bound; the batch is small, or at most one op beyond and being appended. */
  ghost predicate Bounded(cfg: Config, s: Sys) {
    && |s.queue| <= cfg.persistQueueBound
    && (if s.worker == Appending(None) then s.buf != [] && |s.buf| <= Max(1, cfg.batchMaxOps) else Small(cfg, s.buf))
  }

  lemma {:induction false} MutationBounded(cfg: Config, s: Sys, cmd: Command)
    requires Bounded(cfg, s) && s.loop.Idle?
    ensures Bounded(cfg, HandleMutation(cfg, s, cmd))
  {
    hide Exec, Rollback, Export, Stale, Small;
  }

  lemma {:induction false} ReplyBounded(cfg: Config, s: Sys)
    requires Bounded(cfg, s) && s.loop.Awaiting? && s.reply.Some?
    ensures Bounded(cfg, HandleReply(cfg, s, s.loop.purpose, s.reply.value))
  {
    hide Rollback, Export, Stale, Small;
  }

  /** An op joins the batch, and an append begins if and only if the batch is no longer small. */
  lemma {:induction false} BatchBeginsIff(cfg: Config, s: Sys)
    requires Bounded(cfg, s) && s.worker.Receiving? && s.queue != [] && s.queue[0].OpMsg?
    ensures var t := Step(cfg, s, WorkerReceive);
      && t.buf == s.buf + [s.queue[0].stored] && t.queue == s.queue[1..]
      && (t.worker == Appending(None) <==> !Small(cfg, t.buf)) && (t.worker == Receiving <==> Small(cfg, t.buf))
      && Bounded(cfg, t)
  {
    var stored := s.queue[0].stored;
    assert forall op :: op in s.buf + [stored] <==> op in s.buf || op == stored;
  }

  lemma {:induction false} AppendBounded(cfg: Config, s: Sys, fails: bool)
    requires Bounded(cfg, s) && s.worker.Appending?
    ensures Bounded(cfg, HandleAppend(s, fails)) && HandleAppend(s, fails).buf == []
  {
    hide InsertRows;
  }

  lemma {:induction false} BoundedStep(cfg: Config, s: Sys, a: Action)
    requires Bounded(cfg, s)
    ensures Bounded(cfg, Step(cfg, s, a))
  {
    hide HandleMutation, HandleReply, HandleAppend, Export, Load, Small, CompactThrough;
    if Enabled(cfg, s, a) {
      match a {
        case Mutate(cmd) => MutationBounded(cfg, s, cmd);
        case LoopReply => ReplyBounded(cfg, s);
        case WorkerReceive => if s.queue[0].OpMsg? { BatchBeginsIff(cfg, s); }
        case WorkerDeadline => DeadlineBounded(cfg, s);
        case WorkerAppend(fails) => AppendBounded(cfg, s, fails);
        case Restart => NothingIsSmall(cfg);
        case _ =>
      }
    }
  }

  lemma {:induction false} NothingIsSmall(cfg: Config)
    ensures Small(cfg, [])
  {
  }

  lemma {:induction false} DeadlineBounded(cfg: Config, s: Sys)
    requires Bounded(cfg, s) && s.worker.Receiving? && s.buf != []
    ensures Bounded(cfg, s.(worker := Appending(None)))
  {
  }

  lemma {:induction false} BoundedRun(cfg: Config, s: Sys, actions: seq<Action>)
    requires Bounded(cfg, s)
    ensures Bounded(cfg, RunSys(cfg, s, actions))
  {
    hide Step, Bounded;
    if actions != [] {
      BoundedRun(cfg, s, actions[..|actions| - 1]);
      BoundedStep(cfg, RunSys(cfg, s, actions[..|actions| - 1]), actions[|actions| - 1]);
    }
  }

  /** Over every run the queue keeps to its bound, and a batch that calls for an append is being appended. */
  lemma {:induction false} QueueAndBatchAreBounded(cfg: Config, t: Tables, actions: seq<Action>)
    requires Load(t).Success?
    ensures var s := Reached(cfg, t, actions);
      && |s.queue| <= cfg.persistQueueBound && |s.buf| <= Max(1, cfg.batchMaxOps)
      && (s.worker != Appending(None) ==> Small(cfg, s.buf))
  {
    hide RunSys, Load;
    NothingIsSmall(cfg);
    BoundedRun(cfg, Spawn(Load(t).value, t), actions);
  }

  // ---- the interval of automatic checkpoints ---------------------------------------------------

  /** Acked inserts, counted from zero again whenever the interval is reached. */
  function SinceInterval(replies: seq<ClientReply>, interval: nat): nat {
    if replies == [] then 0 else
    var n := |replies| - 1;
    var c := SinceInterval(replies[..n], interval);
    if !(replies[n].Acked? && replies[n].isInsert) then c
    else if c + 1 == interval then 0 else c + 1
  }

  predicate AutoPending(s: Sys) {
    (s.loop.Sending? || s.loop.Awaiting?) && s.loop.purpose.ForAutoCheckpoint?
  }

  /** The counter is the acked inserts since the interval was last reached, plus the one whose ack waits. */
  ghost predicate CounterOk(cfg: Config, s: Sys) {
    var c, interval := SinceInterval(s.replies, cfg.snapshotEveryOps), cfg.snapshotEveryOps;
    && s.opsSinceSnapshot == c + (if AutoPending(s) then 1 else 0)
    && (interval != 0 ==> c < interval)
    && (AutoPending(s) ==> s.opsSinceSnapshot == interval)
  }

  lemma {:induction false} CountAnswer(replies: seq<ClientReply>, interval: nat, reply: ClientReply)
    ensures var c := SinceInterval(replies, interval);
      SinceInterval(replies + [reply], interval)
        == if !(reply.Acked? && reply.isInsert) then c else if c + 1 == interval then 0 else c + 1
  {
    assert (replies + [reply])[..|replies|] == replies;
  }

  lemma {:induction false} CounterAfterAck(cfg: Config, s: Sys, stored: StoredOp, isInsert: bool)
    requires CounterOk(cfg, s) && !AutoPending(s)
    ensures CounterOk(cfg, AfterAck(cfg, s, stored, isInsert))
  {
    hide SinceInterval, Export;
    CountAnswer(s.replies, cfg.snapshotEveryOps, Acked(stored, isInsert));
  }

  lemma {:induction false} CounterAfterMutation(cfg: Config, s: Sys, cmd: Command)
    requires CounterOk(cfg, s) && s.loop.Idle?
    ensures CounterOk(cfg, HandleMutation(cfg, s, cmd))
  {
    hide SinceInterval, Exec, Rollback, Stale, AfterAck;
    var o := Exec(s.store, cmd);
    CountAnswer(s.replies, cfg.snapshotEveryOps, PersistenceUnhealthy);
    CountAnswer(s.replies, cfg.snapshotEveryOps, QueueFull);
    if o.result.Failure? {
      CountAnswer(s.replies, cfg.snapshotEveryOps, CommandFailed(o.result.error));
    } else {
      var sent := s.(store := ClearPending(o.state), queue := s.queue + [OpMsg(o.result.value)],
                     audit := s.audit.(accepted := s.audit.accepted + [o.result.value]));
      CounterAfterAck(cfg, sent, o.result.value, cmd.CmdInsert?);
    }
  }

  lemma {:induction false} CounterAfterReply(cfg: Config, s: Sys)
    requires CounterOk(cfg, s) && s.loop.Awaiting? && s.reply.Some?
    ensures CounterOk(cfg, HandleReply(cfg, s, s.loop.purpose, s.reply.value))
  {
    hide SinceInterval, Rollback, Stale, AfterAck;
    var p, r := s.loop.purpose, s.reply.value;
    CountAnswer(s.replies, cfg.snapshotEveryOps, NotPersisted);
    CountAnswer(s.replies, cfg.snapshotEveryOps, ShutdownReply);
    CountAnswer(s.replies, cfg.snapshotEveryOps, FlushReply(r));
    CountAnswer(s.replies, cfg.snapshotEveryOps, CheckpointReply(r));
    match p {
      case ForAutoCheckpoint(stored) => CountAnswer(s.replies, cfg.snapshotEveryOps, Acked(stored, true));
      case ForDurableAck(_, stored, isInsert) =>
        var t := s.(reply := None, loop := Idle, audit := s.audit.(inFlight := None));
        CounterAfterAck(cfg, t, stored, isInsert);
      case _ =>
    }
  }

  lemma {:induction false} CounterStep(cfg: Config, s: Sys, a: Action)
    requires CounterOk(cfg, s)
    ensures CounterOk(cfg, Step(cfg, s, a))
  {
    hide SinceInterval, HandleMutation, HandleReply, HandleMessage, HandleAppend, HandleSnapshot, HandleCompact,
      HandleNotice, Export, Load;
    if Enabled(cfg, s, a) {
      match a {
        case Mutate(cmd) => CounterAfterMutation(cfg, s, cmd);
        case LoopReply => CounterAfterReply(cfg, s);
        case LoopNotice => NoticeSameTalk(s);
        case WorkerReceive => MessageSameTalk(cfg, s);
        case WorkerAppend(fails) => AppendSameTalk(s, fails);
        case WorkerSnapshot(fails) => SnapshotSameTalk(s, fails);
        case WorkerCompact(fails) => CompactSameTalk(s, fails);
        case Restart => NothingCounted(cfg);
        case _ =>
      }
    }
  }

  lemma {:induction false} NothingCounted(cfg: Config)
    ensures SinceInterval([], cfg.snapshotEveryOps) == 0
  {
  }

  lemma {:induction false} CounterRun(cfg: Config, s: Sys, actions: seq<Action>)
    requires CounterOk(cfg, s)
    ensures CounterOk(cfg, RunSys(cfg, s, actions))
  {
    hide Step, CounterOk;
    if actions != [] {
      CounterRun(cfg, s, actions[..|actions| - 1]);
      CounterStep(cfg, RunSys(cfg, s, actions[..|actions| - 1]), actions[|actions| - 1]);
    }
  }

  /**
   * Over every run: between requests the counter is the inserts acked since the interval was last
   * reached and below it; and an automatic checkpoint is under way exactly when it is reached.
   */
  lemma {:induction false} IntervalIsKept(cfg: Config, t: Tables, actions: seq<Action>)
    requires Load(t).Success?
    ensures var s, interval := Reached(cfg, t, actions), cfg.snapshotEveryOps;
      && (!AutoPending(s) ==> s.opsSinceSnapshot == SinceInterval(s.replies, interval))
      && (interval != 0 ==> s.opsSinceSnapshot <= interval)
      && (AutoPending(s) <==> interval != 0 && s.opsSinceSnapshot == interval)
  {
    hide RunSys, Load;
    NothingCounted(cfg);
    CounterRun(cfg, Spawn(Load(t).value, t), actions);
  }

  // ---- what a checkpoint leaves in the tables -----------------------------------------------------

  predicate Asks(cfg: Config, m: PersistMsg) {
    m.CheckpointMsg? ==> m.compact == cfg.compactAfterSnapshot
  }

  /** Checkpoints on their way ask for compaction exactly when it is configured. */
  ghost predicate FlagOk(cfg: Config, s: Sys) {
    && (s.loop.Sending? ==> Asks(cfg, s.loop.msg))
    && (forall m :: m in s.queue ==> Asks(cfg, m))
    && match s.worker {
         case Appending(serving) => serving.Some? ==> Asks(cfg, serving.value)
         case Snapshotting(_, _, compact) => compact == cfg.compactAfterSnapshot
         case Compacting(_) => cfg.compactAfterSnapshot
         case _ => true
       }
  }

  lemma {:induction false} FlagStep(cfg: Config, s: Sys, a: Action)
    requires FlagOk(cfg, s)
    ensures FlagOk(cfg, Step(cfg, s, a))
  {
    hide HandleMutation, HandleReply, FlushBuf, Export, Load, CompactThrough, WriteSnapshot;
    if Enabled(cfg, s, a) {
      match a {
        case Mutate(cmd) => FlagAfterMutation(cfg, s, cmd);
        case LoopReply => FlagAfterReply(cfg, s);
        case WorkerAppend(fails) => FlushIsPlain(s.(worker := Receiving), fails);
        case _ =>
      }
    }
  }

  lemma {:induction false} FlagAfterMutation(cfg: Config, s: Sys, cmd: Command)
    requires FlagOk(cfg, s) && s.loop.Idle?
    ensures FlagOk(cfg, HandleMutation(cfg, s, cmd))
  {
    hide Exec, Rollback, Export, Stale;
  }

  lemma {:induction false} FlagAfterReply(cfg: Config, s: Sys)
    requires FlagOk(cfg, s) && s.loop.Awaiting? && s.reply.Some?
    ensures FlagOk(cfg, HandleReply(cfg, s, s.loop.purpose, s.reply.value))
  {
    hide Rollback, Export, Stale;
  }

  lemma {:induction false} FlushIsPlain(s: Sys, fails: bool)
    ensures var t := FlushBuf(s, fails).0;
      t.loop == s.loop && t.queue == s.queue && t.worker == s.worker && t.store == s.store && t.reply == s.reply
    ensures FlushBuf(s, fails).0.tables.snapshots == s.tables.snapshots
  {
    hide InsertRows;
  }

  /** At an Ok: the newest row is the live store, and with compaction on no event is left below it. */
  ghost predicate Left(cfg: Config, s: Sys) {
    && s.tables.snapshots != []
    && s.tables.snapshots[|s.tables.snapshots| - 1] == SnapshotRow(LastSeq(s.store), Export(s.store))
    && (cfg.compactAfterSnapshot ==> forall e :: e in s.tables.events ==> e.opSeq > LastSeq(s.store))
  }

  lemma {:induction false} LeftStep(cfg: Config, s: Sys, a: Action)
    requires SysInv(cfg, s) && FlagOk(cfg, s) && (CheckpointOk(s) ==> Left(cfg, s))
    ensures CheckpointOk(Step(cfg, s, a)) ==> Left(cfg, Step(cfg, s, a))
  {
    hide SysInv, FlagOk, HandleMutation, HandleReply, HandleMessage, HandleAppend, HandleSnapshot, HandleCompact,
      Export, Load, Left;
    if Enabled(cfg, s, a) {
      match a {
        case Mutate(cmd) => MutationNotAwaiting(cfg, s, cmd);
        case LoopReply => ReplyNotAwaiting(cfg, s);
        case WorkerReceive => NoOkOnReceipt(cfg, s);
        case WorkerAppend(fails) => NoOkOnAppend(cfg, s, fails);
        case WorkerSnapshot(fails) => LeftAfterSnapshot(cfg, s, fails);
        case WorkerCompact(fails) => LeftAfterCompact(cfg, s, fails);
        case LoopSend => NoOkOnSend(cfg, s);
        case _ => LeftUntouched(cfg, s, Step(cfg, s, a));
      }
    }
  }

  lemma {:induction false} LeftUntouched(cfg: Config, s: Sys, t: Sys)
    requires CheckpointOk(s) ==> Left(cfg, s)
    requires (t.tables == s.tables && t.store == s.store && t.loop == s.loop && t.reply == s.reply) || !CheckpointOk(t)
    ensures CheckpointOk(t) ==> Left(cfg, t)
  {
    hide Export;
  }

  lemma {:induction false} NoOkOnSend(cfg: Config, s: Sys)
    requires SysInv(cfg, s) && s.loop.Sending?
    ensures s.reply.None?
  {
    hide CoreInv, AnnounceOk, Export, PurposeOk;
  }

  lemma {:induction false} NoOkOnReceipt(cfg: Config, s: Sys)
    requires SysInv(cfg, s) && s.worker.Receiving? && s.queue != []
    ensures HandleMessage(cfg, s).reply.None?
  {
    hide CoreInv, AnnounceOk;
    FrontOfQueue(cfg, s);
  }

  lemma {:induction false} NoOkOnAppend(cfg: Config, s: Sys, fails: bool)
    requires SysInv(cfg, s) && s.worker.Appending?
    ensures !CheckpointOk(HandleAppend(s, fails))
  {
    hide CoreInv, AnnounceOk, PurposeOk, Export, FlushBuf;
    AppendServes(cfg, s);
    FlushIsPlain(s.(worker := Receiving), fails);
  }

  lemma {:induction false} LeftAfterSnapshot(cfg: Config, s: Sys, fails: bool)
    requires SysInv(cfg, s) && FlagOk(cfg, s) && s.worker.Snapshotting?
    ensures CheckpointOk(HandleSnapshot(s, fails)) ==> Left(cfg, HandleSnapshot(s, fails))
  {
    hide CoreInv, AnnounceOk, PurposeOk, Export, Load;
  }

  lemma {:induction false} LeftAfterCompact(cfg: Config, s: Sys, fails: bool)
    requires SysInv(cfg, s) && s.worker.Compacting?
    ensures CheckpointOk(HandleCompact(s, fails)) ==> Left(cfg, HandleCompact(s, fails))
  {
    hide CoreInv, AnnounceOk, PurposeOk, Export, Load, EventsAfter;
    EventsAfterSelects(s.tables.events, s.worker.lastSeq);
  }

  lemma {:induction false} LeftOfRun(cfg: Config, s: Sys, actions: seq<Action>)
    requires SysInv(cfg, s) && FlagOk(cfg, s) && !CheckpointOk(s)
    ensures var u := RunSys(cfg, s, actions); FlagOk(cfg, u) && (CheckpointOk(u) ==> Left(cfg, u))
  {
    hide SysInv, Step, FlagOk, Left, CheckpointOk;
    if actions != [] {
      var n := |actions| - 1;
      LeftOfRun(cfg, s, actions[..n]);
      RunKeepsInv(cfg, s, actions[..n]);
      FlagStep(cfg, RunSys(cfg, s, actions[..n]), actions[n]);
      LeftStep(cfg, RunSys(cfg, s, actions[..n]), actions[n]);
    }
  }

  lemma {:induction false} FreshFlagIsOk(cfg: Config, store: StoreState, t: Tables)
    ensures FlagOk(cfg, Spawn(store, t)) && !CheckpointOk(Spawn(store, t))
  {
  }

  /**
   * Over every run: when a checkpoint, the client's or an automatic one, is answered with Ok, the
   * newest snapshot row holds the live store under its number, and with compaction on no event is
   * numbered at or below it.
   */
  lemma {:induction false} CheckpointLeavesRows(cfg: Config, t: Tables, actions: seq<Action>)
    requires Loadable(t) && CheckpointOk(Reached(cfg, t, actions))
    ensures var s := Reached(cfg, t, actions);
      && s.tables.snapshots != []
      && var row := s.tables.snapshots[|s.tables.snapshots| - 1];
      && row.snapshot == Export(s.store) && row.lastSeq == LastSeq(s.store)
      && (cfg.compactAfterSnapshot ==> forall e :: e in s.tables.events ==> e.opSeq > row.lastSeq)
  {
    hide SysInv, Loadable, Load, CheckpointOk, FlagOk, Export;
    assert Load(t).Success? by { LoadableLoads(t); }
    SpawnIsOk(cfg, t);
    FreshFlagIsOk(cfg, Load(t).value, t);
    ReachedUnfolds(cfg, t, actions);
    LeftOfRun(cfg, Spawn(Load(t).value, t), actions);
  }

  /** No step but a compaction takes a row away. */
  lemma {:induction false} RowsOnlyGrow(cfg: Config, s: Sys, a: Action)
    requires SysInv(cfg, s) && !(a == WorkerCompact(false) && Enabled(cfg, s, a))
    ensures s.tables.events <= Step(cfg, s, a).tables.events
    ensures s.tables.snapshots <= Step(cfg, s, a).tables.snapshots
  {
    hide SysInv, HandleAppend, Exec, Rollback, Export, Stale, Load;
    if a.WorkerAppend? && Enabled(cfg, s, a) { AppendOnlyGrows(cfg, s, a.appendFails); }
  }

  lemma {:induction false} AppendOnlyGrows(cfg: Config, s: Sys, fails: bool)
    requires SysInv(cfg, s) && s.worker.Appending?
    ensures s.tables.events <= HandleAppend(s, fails).tables.events
    ensures s.tables.snapshots == HandleAppend(s, fails).tables.snapshots
  {
    hide CoreInv, AnnounceOk, LinkOk, FlushBuf;
    CoreFields(s, s.(worker := Receiving));
    FlushLandsOrLoses(s.(worker := Receiving), fails);
  }

  /** Without compaction configured, no run ever takes a row away. */
  lemma {:induction false} RowsAreKept(cfg: Config, s: Sys, actions: seq<Action>)
    requires SysInv(cfg, s) && FlagOk(cfg, s) && !cfg.compactAfterSnapshot
    ensures var u := RunSys(cfg, s, actions);
      FlagOk(cfg, u) && s.tables.events <= u.tables.events && s.tables.snapshots <= u.tables.snapshots
  {
    hide SysInv, Step;
    if actions != [] {
      var n := |actions| - 1;
      var u := RunSys(cfg, s, actions[..n]);
      RowsAreKept(cfg, s, actions[..n]);
      RunKeepsInv(cfg, s, actions[..n]);
      RowsOnlyGrow(cfg, u, actions[n]);
      FlagStep(cfg, u, actions[n]);
    }
  }

  lemma {:induction false} JournalIsKept(cfg: Config, t: Tables, actions: seq<Action>)
    requires Loadable(t) && !cfg.compactAfterSnapshot
    ensures var s := Reached(cfg, t, actions);
      t.events <= s.tables.events && t.snapshots <= s.tables.snapshots
  {
    hide SysInv, Loadable, Load, FlagOk, RunSys;
    assert Load(t).Success? by { LoadableLoads(t); }
    SpawnIsOk(cfg, t);
    FreshFlagIsOk(cfg, Load(t).value, t);
    RowsAreKept(cfg, Spawn(Load(t).value, t), actions);
  }
}
