/**
 * The loop and the worker over the real objects (src/runtime/handle.rs:417-903): each handler
 * updates the store, the sink and the channels in place, and computes the corresponding step of
 * the model. Which append or write fails is a parameter of the handler.
 */
module Runtime {
  import opened Wrappers
  import opened Qso
  import opened Operation
  import opened StoreModel
  import opened Journal
  import opened RuntimeModel
  import Rejection
  import Store
  import Sqlite

  class LoopAndWorker {
    const cfg: Config
    const store: Store.QsoStore
    const sink: Sqlite.SqliteOpSink
    var opsSinceSnapshot: nat
    var health: Health
    var loop: LoopPhase
    var replies: seq<ClientReply>
    var announced: seq<OpSeq>
    var queue: seq<PersistMsg>
    var reply: Option<Result<OpSeq, PersistError>>
    var notices: seq<Notice>
    var worker: WorkerPhase
    var buf: seq<StoredOp>
    var lastDurable: OpSeq
    ghost var audit: Audit
    ghost var landed: seq<OpSeq>

    ghost function Current(): Sys
      reads this, store, sink
    {
      Sys(store.State(), opsSinceSnapshot, health, loop, replies, announced, queue, reply, notices, worker, buf,
          lastDurable, sink.CurrentTables(), audit, landed)
    }

    ghost predicate Valid()
      reads this, store
    {
      store.Valid()
    }

    /** `spawn_qsolog` over a store and the sink it was loaded from. */
    constructor (cfg: Config, store: Store.QsoStore, sink: Sqlite.SqliteOpSink)
      requires store.Valid()
      ensures Valid() && Current() == Spawn(store.State(), sink.CurrentTables())
      ensures this.cfg == cfg && this.store == store && this.sink == sink
    {
      this.cfg, this.store, this.sink := cfg, store, sink;
      opsSinceSnapshot, health, loop, replies, announced := 0, Health(true, 0), Idle, [], [];
      queue, reply, notices, worker, buf, lastDurable := [], None, [], Receiving, [], 0;
      audit, landed := Opening(store.CurrentView(), sink.events), [];
    }

    method Reply(reply: ClientReply)
      modifies this`replies
      ensures Current() == Answer(old(Current()), reply)
    {
      replies := replies + [reply];
    }

    // ---- the loop -------------------------------------------------------------------

    /** `enqueue_persist`: `try_send` on the bounded queue. */
    method EnqueuePersist(stored: StoredOp) returns (sent: bool)
      modifies this`queue
      ensures sent == (|old(queue)| < cfg.persistQueueBound)
      ensures queue == if sent then old(queue) + [OpMsg(stored)] else old(queue)
    {
      sent := |queue| < cfg.persistQueueBound;
      if sent { queue := queue + [OpMsg(stored)]; }
    }

    method FinishAck(stored: StoredOp, isInsert: bool)
      requires Valid()
      modifies this
      ensures Valid() && Current() == AfterAck(cfg, old(Current()), stored, isInsert)
    {
      if isInsert {
        opsSinceSnapshot := opsSinceSnapshot + 1;
        if cfg.snapshotEveryOps != 0 && opsSinceSnapshot >= cfg.snapshotEveryOps {
          var snapshot := store.ExportSnapshot();
          var last := if store.nextOpSeq == 0 then 0 else store.nextOpSeq - 1;
          loop := Sending(CheckpointMsg(snapshot, last, cfg.compactAfterSnapshot), ForAutoCheckpoint(stored));
          return;
        }
      }
      loop := Idle;
      Reply(Acked(stored, isInsert));
    }

    method HandleMutation(cmd: Command)
      requires Valid() && loop.Idle?
      modifies this, store
      ensures Valid() && Current() == RuntimeModel.HandleMutation(cfg, old(Current()), cmd)
    {
      hide Store.Consistent, Exec, PersistOrRollback, Checkpoint;
      if cfg.ackMode.Durable? && !health.isHealthy {
        Reply(PersistenceUnhealthy);
        return;
      }
      var checkpoint := store.MutationCheckpoint();
      ghost var prior := store.State();
      var result := store.Execute(cmd);
      if result.Failure? {
        Reply(CommandFailed(result.error));
        return;
      }
      var stored := result.value;
      store.ClearPendingOps();
      Persist(checkpoint, result.value, prior, cmd);
    }

    /** Marks persistence unhealthy and rolls the mutation back. */
    method Withdraw(checkpoint: MutationCheckpoint, stored: StoredOp, why: ClientReply)
      requires Valid()
      modifies this`health, this`replies, store
      ensures Valid()
      ensures Current() == old(Current()).(store := Rollback(old(store.State()), checkpoint, stored).state,
                                           health := old(health).(isHealthy := false), replies := old(replies) + [why])
    {
      hide Store.Consistent, Rollback;
      var back := store.RollbackMutation(checkpoint, stored);
      health := health.(isHealthy := false);
      Reply(why);
    }

    /** `persist_after_mutation`, with the rollback its caller does on an error. */
    method Persist(checkpoint: MutationCheckpoint, stored: StoredOp, ghost prior: StoreState, cmd: Command)
      requires Valid() && loop.Idle?
      modifies this, store
      ensures Valid() && Current() == PersistOrRollback(cfg, old(Current()), checkpoint, stored, prior, cmd)
    {
      hide Store.Consistent, Rollback, Rejection.Stale, AfterAck;
      var sent := EnqueuePersist(stored);
      if !sent {
        Withdraw(checkpoint, stored, QueueFull);
        audit := audit.(stale := audit.stale || Rejection.Stale(prior.view, stored.op));
        return;
      }
      audit := audit.(accepted := audit.accepted + [stored]);
      if cfg.ackMode.InMemory? {
        FinishAck(stored, cmd.CmdInsert?);
      } else {
        loop := Sending(FlushMsg, ForDurableAck(checkpoint, stored, cmd.CmdInsert?));
        audit := audit.(inFlight := Some(InFlight(prior, cmd)));
      }
    }

    method HandleReply()
      requires Valid() && loop.Awaiting? && reply.Some?
      modifies this, store
      ensures Valid()
      ensures Current() == RuntimeModel.HandleReply(cfg, old(Current()), old(loop.purpose), old(reply.value))
    {
      hide Store.Consistent, Rollback, Rejection.Stale, AfterAck;
      var purpose, result := loop.purpose, reply.value;
      reply, loop := None, Idle;
      match purpose
      case ForFlush => Reply(FlushReply(result));
      case ForCheckpoint => Reply(CheckpointReply(result));
      case ForAutoCheckpoint(stored) => opsSinceSnapshot := 0; Reply(Acked(stored, true));
      case ForShutdown => loop := Stopped; Reply(ShutdownReply);
      case ForDurableAck(checkpoint, stored, isInsert) =>
        if result.Success? {
          audit := audit.(inFlight := None);
          FinishAck(stored, isInsert);
        } else {
          ghost var wasStale := audit.inFlight.Some? && Rejection.Stale(audit.inFlight.value.prior.view, stored.op);
          Withdraw(checkpoint, stored, NotPersisted);
          audit := audit.(accepted := DropLast(audit.accepted), lost := DropLast(audit.lost),
                          stale := audit.stale || wasStale, inFlight := None);
        }
    }

    method HandleNotice()
      requires notices != []
      modifies this
      ensures Current() == RuntimeModel.HandleNotice(old(Current()))
    {
      var notice := notices[0];
      notices := notices[1..];
      match notice
      case DurableNotice(upTo) =>
        health := Health(true, Max(health.lastDurableSeq, upTo));
        announced := announced + [upTo];
      case FailureNotice => health := health.(isHealthy := false);
    }

    // ---- the worker -----------------------------------------------------------------

    method FlushBuf(appendFails: bool) returns (ok: bool)
      modifies this, sink`events
      ensures (Current(), ok) == RuntimeModel.FlushBuf(old(Current()), appendFails)
    {
      hide InsertRows;
      ok := true;
      if |buf| == 0 { return; }
      var ops := buf;
      buf := [];
      var appended: Result<OpSeq, PersistError> := Failure(SinkFailure);
      if !appendFails { appended := sink.AppendOps(ops); }
      if appended.Success? {
        lastDurable := Max(lastDurable, appended.value);
        notices := notices + [DurableNotice(lastDurable)];
        landed := landed + [ops[|ops| - 1].opSeq];
      } else {
        ok := false;
        notices := notices + [FailureNotice];
        audit := audit.(lost := audit.lost + ops);
      }
    }

    /** Takes one message off the queue; an append begins, or the op just joins the batch. */
    method HandleMessage()
      requires queue != []
      modifies this`queue, this`buf, this`worker
      ensures Current() == RuntimeModel.HandleMessage(cfg, old(Current()))
    {
      var msg := queue[0];
      queue := queue[1..];
      match msg
      case OpMsg(stored) =>
        buf := buf + [stored];
        if |buf| >= cfg.batchMaxOps || (cfg.flushOnInsert && stored.op.OpInsert?) { worker := Appending(None); }
      case FlushMsg => worker := Appending(Some(FlushMsg));
      case CheckpointMsg(_, _, _) => worker := Appending(Some(msg));
      case ShutdownMsg => worker := Appending(Some(ShutdownMsg));
    }

    method BeginBatch()
      modifies this`worker
      ensures Current() == old(Current()).(worker := Appending(None))
    {
      worker := Appending(None);
    }

    /** Appends the buffer, and goes on with the message that asked for it. */
    method HandleAppend(appendFails: bool)
      requires worker.Appending?
      modifies this, sink`events
      ensures Current() == RuntimeModel.HandleAppend(old(Current()), appendFails)
    {
      hide RuntimeModel.FlushBuf;
      var serving := worker.serving;
      worker := Receiving;
      var ok := FlushBuf(appendFails);
      match serving
      case None =>
      case Some(msg) => Serve(msg, ok);
    }

    method Serve(msg: PersistMsg, ok: bool)
      modifies this`worker, this`reply
      ensures Current() == RuntimeModel.Serve(old(Current()), msg, ok)
    {
      match msg
      case OpMsg(_) =>
      case FlushMsg => reply := Some(if ok then Success(lastDurable) else Failure(SinkFailure));
      case CheckpointMsg(snapshot, lastSeq, compact) =>
        if ok { worker := Snapshotting(snapshot, lastSeq, compact); } else { reply := Some(Failure(SinkFailure)); }
      case ShutdownMsg => reply, worker := Some(Success(0)), Done;
    }

    method HandleSnapshot(writeFails: bool)
      requires worker.Snapshotting?
      modifies this, sink`snapshots
      ensures Current() == RuntimeModel.HandleSnapshot(old(Current()), writeFails)
    {
      if writeFails {
        worker, reply := Receiving, Some(Failure(SinkFailure));
        return;
      }
      sink.WriteSnapshot(worker.snapshot, worker.lastSeq);
      audit := Settled(audit, store.CurrentView());
      if worker.compact { worker := Compacting(worker.lastSeq); }
      else { worker, reply := Receiving, Some(Success(0)); }
    }

    method HandleCompact(compactFails: bool)
      requires worker.Compacting?
      modifies this, sink`events
      ensures Current() == RuntimeModel.HandleCompact(old(Current()), compactFails)
    {
      if compactFails {
        worker, reply := Receiving, Some(Failure(SinkFailure));
        return;
      }
      var removed := sink.CompactThrough(worker.lastSeq);
      worker, reply := Receiving, Some(Success(0));
    }

    // ---- one step -------------------------------------------------------------------

    /** A client request other than a mutation: the loop starts sending its control message. */
    method Request(msg: PersistMsg, purpose: Purpose)
      modifies this`loop
      ensures Current() == old(Current()).(loop := Sending(msg, purpose))
    {
      loop := Sending(msg, purpose);
    }

    method RequestCheckpoint()
      requires Valid()
      modifies this`loop
      ensures Current() == old(Current()).(
        loop := Sending(CheckpointMsg(Export(old(store.State())), LastSeq(old(store.State())),
                                      cfg.compactAfterSnapshot), ForCheckpoint))
    {
      var snapshot := store.ExportSnapshot();
      var last := if store.nextOpSeq == 0 then 0 else store.nextOpSeq - 1;
      loop := Sending(CheckpointMsg(snapshot, last, cfg.compactAfterSnapshot), ForCheckpoint);
    }

    /** `send().await` completes once the bounded queue has room. */
    method CompleteSend()
      requires loop.Sending?
      modifies this`loop, this`queue
      ensures Current() == old(Current()).(queue := old(queue) + [old(loop.msg)], loop := Awaiting(old(loop.purpose)))
    {
      queue := queue + [loop.msg];
      loop := Awaiting(loop.purpose);
    }

    /** What waits in buffer and queue is gone. */
    method LosePipe()
      modifies this`buf, this`queue, this`audit
      ensures Current() == old(Current()).(queue := [], buf := [], audit := old(audit).(
        lost := old(audit).lost + (old(buf) + OpsOf(old(queue))), inFlight := None))
    {
      hide OpsOf;
      audit := audit.(lost := audit.lost + (buf + OpsOf(queue)), inFlight := None);
      buf, queue := [], [];
    }

    /** Everything but the tables is gone, and the store is of no more use. */
    method Crash()
      modifies this
      ensures Current() == RuntimeModel.Crash(old(Current()))
    {
      hide OpsOf;
      LosePipe();
      loop, worker, reply, notices, announced := Down, Done, None, [], [];
      replies, landed, lastDurable, health, opsSinceSnapshot := [], [], 0, Health(false, 0), 0;
    }

    method IsEnabled(a: Action) returns (enabled: bool)
      ensures enabled == Enabled(cfg, Current(), a)
    {
      match a
      case Mutate(_) => enabled := loop.Idle?;
      case ClientFlush => enabled := loop.Idle?;
      case ClientCheckpoint => enabled := loop.Idle?;
      case ClientShutdown => enabled := loop.Idle?;
      case LoopSend => enabled := loop.Sending? && |queue| < cfg.persistQueueBound;
      case LoopReply => enabled := loop.Awaiting? && reply.Some?;
      case LoopNotice => enabled := loop.Idle? && notices != [];
      case WorkerReceive => enabled := worker.Receiving? && queue != [];
      case WorkerDeadline => enabled := worker.Receiving? && buf != [];
      case WorkerAppend(_) => enabled := worker.Appending?;
      case WorkerSnapshot(_) => enabled := worker.Snapshotting?;
      case WorkerCompact(_) => enabled := worker.Compacting?;
      case Restart => enabled := true;
    }

    /** The objects follow the step system exactly, whichever side moves. */
    method TakeStep(a: Action)
      requires Valid() && !a.Restart?
      requires Enabled(cfg, Current(), a)
      modifies this, store, sink
      ensures Valid() && Current() == Step(cfg, old(Current()), a)
    {
      hide Store.Consistent, RuntimeModel.HandleMutation, RuntimeModel.HandleReply, RuntimeModel.HandleNotice,
        RuntimeModel.HandleMessage, RuntimeModel.HandleAppend, RuntimeModel.HandleSnapshot, RuntimeModel.HandleCompact,
        Export, LastSeq;
      match a {
        case Mutate(cmd) => HandleMutation(cmd);
        case ClientFlush => Request(FlushMsg, ForFlush);
        case ClientCheckpoint => RequestCheckpoint();
        case ClientShutdown => Request(ShutdownMsg, ForShutdown);
        case LoopSend => CompleteSend();
        case LoopReply => HandleReply();
        case LoopNotice => HandleNotice();
        case WorkerReceive => HandleMessage();
        case WorkerDeadline => BeginBatch();
        case WorkerAppend(fails) => HandleAppend(fails);
        case WorkerSnapshot(fails) => HandleSnapshot(fails);
        case WorkerCompact(fails) => HandleCompact(fails);
      }
    }
  }

  /** Reopening after a crash: only the tables survive. */
  method Reopen(cfg: Config, sink: Sqlite.SqliteOpSink) returns (result: Result<LoopAndWorker, StoreError>)
    requires |sink.snapshots| > 0 ==> WellFormedSnapshot(sink.snapshots[|sink.snapshots| - 1].snapshot)
    ensures match Load(sink.CurrentTables())
      case Success(store) =>
        result.Success? && fresh(result.value) && fresh(result.value.store) && result.value.Valid() &&
        result.value.cfg == cfg && result.value.sink == sink &&
        result.value.Current() == Spawn(store, sink.CurrentTables())
      case Failure(e) => result == Failure(e)
  {
    hide Load, Store.Consistent;
    var loaded := sink.LoadStore();
    if loaded.Failure? { return Failure(loaded.error); }
    var running := new LoopAndWorker(cfg, loaded.value, sink);
    result := Success(running);
  }
}
