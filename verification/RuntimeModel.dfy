/**
 * The command loop and the persistence worker as a step system (src/runtime/handle.rs:209-275,
 * 417-903). Loop and worker run concurrently; each action is one atomic step of either, so a
 * run is a list of actions. `Restart` is a crash, which may fall between any two, followed by an
 * attempt to reopen the tables.
 * Wherever the sink may fail, the action says whether it does.
 */
module RuntimeModel {
  import opened Wrappers
  import opened Qso
  import opened Operation
  import opened StoreModel
  import opened History
  import opened Rejection
  import opened Journal

  datatype AckMode = InMemory | Durable

  datatype Config = Config(
    ackMode: AckMode,
    flushOnInsert: bool,
    batchMaxOps: nat,
    persistQueueBound: nat,
    snapshotEveryOps: nat,
    compactAfterSnapshot: bool)

  datatype PersistMsg =
    | OpMsg(stored: StoredOp)
    | FlushMsg
    | CheckpointMsg(snapshot: StoreSnapshot, lastSeq: OpSeq, compact: bool)
    | ShutdownMsg

  /** The ops waiting in the queue. */
  function OpsOf(queue: seq<PersistMsg>): seq<StoredOp> {
    if queue == [] then [] else
    var n := |queue| - 1;
    OpsOf(queue[..n]) + (if queue[n].OpMsg? then [queue[n].stored] else [])
  }

  /** Why the loop waits for the worker; it serves no other command meanwhile. */
  datatype Purpose =
    | ForFlush
    | ForCheckpoint
    | ForAutoCheckpoint(stored: StoredOp)
    | ForDurableAck(checkpoint: MutationCheckpoint, stored: StoredOp, isInsert: bool)
    | ForShutdown

  /** After a shutdown the loop is stopped; after a crash over tables that do not load it stays down. */
  datatype LoopPhase =
    | Idle
    | Sending(msg: PersistMsg, purpose: Purpose)
    | Awaiting(purpose: Purpose)
    | Stopped
    | Down

  /** While an append is under way the queue has room again; `serving` is the message that asked for it. */
  datatype WorkerPhase =
    | Receiving
    | Appending(serving: Option<PersistMsg>)
    | Snapshotting(snapshot: StoreSnapshot, lastSeq: OpSeq, compact: bool)
    | Compacting(lastSeq: OpSeq)
    | Done

  datatype Notice = DurableNotice(upTo: OpSeq) | FailureNotice

  /** What a client is told; an insert that succeeds is told its id besides. */
  datatype ClientReply =
    | Acked(stored: StoredOp, isInsert: bool)
    | CommandFailed(error: StoreError)
    | QueueFull
    | NotPersisted
    | PersistenceUnhealthy
    | FlushReply(result: Result<OpSeq, PersistError>)
    | CheckpointReply(result: Result<OpSeq, PersistError>)
    | ShutdownReply

  datatype Health = Health(isHealthy: bool, lastDurableSeq: OpSeq)

  datatype InFlight = InFlight(prior: StoreState, cmd: Command)

  /**
   * What the theorems talk about and the program does not keep. `accepted` are the ops accepted
   * since the view `base`, which is that of the newest snapshot written by this incarnation, or of
   * its start; `lost` are those of them that failed appends dropped; `stale` says whether a rollback
   * restored a wrong void flag since. Before `base` come the view at the start, `origin`, the ops
   * accepted from there to `base`, `settled`, and whether a wrong flag fell in between, `drifted`.
   * `initial` is the journal at the start, and `inFlight` the mutation awaiting its durable ack.
   */
  datatype Audit = Audit(
    origin: View, settled: seq<StoredOp>, drifted: bool,
    base: View, accepted: seq<StoredOp>, lost: seq<StoredOp>, stale: bool,
    initial: seq<StoredOp>, inFlight: Option<InFlight>)

  function Opening(view: View, events: seq<StoredOp>): Audit {
    Audit(view, [], false, view, [], [], false, events, None)
  }

  /** A written snapshot of the live view settles everything accepted so far. */
  function Settled(audit: Audit, live: View): Audit {
    audit.(settled := audit.settled + audit.accepted, drifted := audit.drifted || audit.stale,
           base := live, accepted := [], lost := [], stale := false)
  }

  /**
   * Loop, channels, worker and tables. `replies` lists what clients were told and `announced` the
   * durable numbers sent to listeners, both since the start. `audit` and `landed`, the last number of
   * each batch that landed since the start, are bookkeeping.
   */
  datatype Sys = Sys(
    store: StoreState,
    opsSinceSnapshot: nat,
    health: Health,
    loop: LoopPhase,
    replies: seq<ClientReply>,
    announced: seq<OpSeq>,
    queue: seq<PersistMsg>,
    reply: Option<Result<OpSeq, PersistError>>,
    notices: seq<Notice>,
    worker: WorkerPhase,
    buf: seq<StoredOp>,
    lastDurable: OpSeq,
    tables: Tables,
    audit: Audit,
    landed: seq<OpSeq>)

  datatype Action =
    | Mutate(cmd: Command)
    | ClientFlush
    | ClientCheckpoint
    | ClientShutdown
    | LoopSend
    | LoopReply
    | LoopNotice
    | WorkerReceive
    | WorkerDeadline
    | WorkerAppend(appendFails: bool)
    | WorkerSnapshot(writeFails: bool)
    | WorkerCompact(compactFails: bool)
    | Restart

  function Spawn(store: StoreState, tables: Tables): Sys {
    Sys(store, 0, Health(true, 0), Idle, [], [], [], None, [], Receiving, [], 0, tables,
        Opening(store.view, tables.events), [])
  }

  /** One client is answered. */
  function Answer(s: Sys, reply: ClientReply): Sys {
    s.(replies := s.replies + [reply])
  }

  // ---- the command loop -----------------------------------------------------------

  /** Counts an acked insert and, when the interval is reached, starts an automatic checkpoint before replying. */
  function AfterAck(cfg: Config, s: Sys, stored: StoredOp, isInsert: bool): Sys {
    if !isInsert then Answer(s.(loop := Idle), Acked(stored, false)) else
    var n := s.opsSinceSnapshot + 1;
    if cfg.snapshotEveryOps == 0 || n < cfg.snapshotEveryOps then
      Answer(s.(opsSinceSnapshot := n, loop := Idle), Acked(stored, true))
    else
      s.(opsSinceSnapshot := n,
         loop := Sending(CheckpointMsg(Export(s.store), LastSeq(s.store), cfg.compactAfterSnapshot),
                         ForAutoCheckpoint(stored)))
  }

  function ClearPending(s: StoreState): StoreState {
    s.(pending := [])
  }

  /** `try_send` of the op just applied; a full queue rejects the mutation and rolls it back. */
  function PersistOrRollback(cfg: Config, s: Sys, checkpoint: MutationCheckpoint, stored: StoredOp,
                             prior: StoreState, cmd: Command): Sys
  {
    if |s.queue| >= cfg.persistQueueBound then
      Answer(s.(store := Rollback(s.store, checkpoint, stored).state,
                health := s.health.(isHealthy := false),
                audit := s.audit.(stale := s.audit.stale || Stale(prior.view, stored.op))),
             QueueFull)
    else
      var sent := s.(queue := s.queue + [OpMsg(stored)], audit := s.audit.(accepted := s.audit.accepted + [stored]));
      if cfg.ackMode.InMemory? then AfterAck(cfg, sent, stored, cmd.CmdInsert?)
      else sent.(loop := Sending(FlushMsg, ForDurableAck(checkpoint, stored, cmd.CmdInsert?)),
                 audit := sent.audit.(inFlight := Some(InFlight(prior, cmd))))
  }

  function HandleMutation(cfg: Config, s: Sys, cmd: Command): Sys {
    if cfg.ackMode.Durable? && !s.health.isHealthy then Answer(s, PersistenceUnhealthy) else
    var o := Exec(s.store, cmd);
    match o.result
    case Failure(e) => Answer(s.(store := o.state), CommandFailed(e))
    case Success(stored) =>
      PersistOrRollback(cfg, s.(store := ClearPending(o.state)), Checkpoint(s.store), stored, s.store, cmd)
  }

  /** The loop resumes after the worker's reply. */
  function HandleReply(cfg: Config, s: Sys, purpose: Purpose, result: Result<OpSeq, PersistError>): Sys {
    var t := s.(reply := None, loop := Idle);
    match purpose
    case ForFlush => Answer(t, FlushReply(result))
    case ForCheckpoint => Answer(t, CheckpointReply(result))
    case ForAutoCheckpoint(stored) => Answer(t.(opsSinceSnapshot := 0), Acked(stored, true))
    case ForShutdown => Answer(t.(loop := Stopped), ShutdownReply)
    case ForDurableAck(checkpoint, stored, isInsert) =>
      if result.Success? then
        AfterAck(cfg, t.(audit := t.audit.(inFlight := None)), stored, isInsert)
      else
        var wasStale := s.audit.inFlight.Some? && Stale(s.audit.inFlight.value.prior.view, stored.op);
        Answer(t.(store := Rollback(s.store, checkpoint, stored).state,
                  health := s.health.(isHealthy := false),
                  audit := s.audit.(accepted := DropLast(s.audit.accepted), lost := DropLast(s.audit.lost),
                                    stale := s.audit.stale || wasStale, inFlight := None)),
               NotPersisted)
  }

  function DropLast<T>(s: seq<T>): seq<T> {
    if s == [] then [] else s[..|s| - 1]
  }

  function HandleNotice(s: Sys): Sys
    requires s.notices != []
  {
    var rest := s.(notices := s.notices[1..]);
    match s.notices[0]
    case DurableNotice(upTo) =>
      rest.(health := Health(true, Max(s.health.lastDurableSeq, upTo)), announced := s.announced + [upTo])
    case FailureNotice => rest.(health := s.health.(isHealthy := false))
  }

  // ---- the persistence worker -------------------------------------------------------

  /** `flush_buf`: one atomic append of the whole buffer, which is gone either way. */
  function FlushBuf(s: Sys, appendFails: bool): (r: (Sys, bool)) {
    if s.buf == [] then (s, true) else
    var rows := if appendFails then Failure(SinkFailure) else InsertRows(s.tables.events, s.buf);
    match rows
    case Success(events) =>
      var durable := Max(s.lastDurable, s.buf[|s.buf| - 1].opSeq);
      (s.(tables := s.tables.(events := events), buf := [], lastDurable := durable,
          notices := s.notices + [DurableNotice(durable)],
          landed := s.landed + [s.buf[|s.buf| - 1].opSeq]), true)
    case Failure(_) =>
      (s.(buf := [], notices := s.notices + [FailureNotice], audit := s.audit.(lost := s.audit.lost + s.buf)), false)
  }

  /** An op joins the buffer, and a full batch is appended at once; any other message asks for an append. */
  function HandleMessage(cfg: Config, s: Sys): Sys
    requires s.queue != []
  {
    var t := s.(queue := s.queue[1..]);
    match s.queue[0]
    case OpMsg(stored) =>
      var u := t.(buf := t.buf + [stored]);
      if |u.buf| >= cfg.batchMaxOps || (cfg.flushOnInsert && stored.op.OpInsert?)
      then u.(worker := Appending(None)) else u
    case FlushMsg => t.(worker := Appending(Some(FlushMsg)))
    case CheckpointMsg(_, _, _) => t.(worker := Appending(Some(s.queue[0])))
    case ShutdownMsg => t.(worker := Appending(Some(ShutdownMsg)))
  }

  /** The append commits or fails; then the worker goes on with the message that asked for it. */
  function HandleAppend(s: Sys, appendFails: bool): Sys
    requires s.worker.Appending?
  {
    var (t, ok) := FlushBuf(s.(worker := Receiving), appendFails);
    match s.worker.serving
    case None => t
    case Some(msg) => Serve(t, msg, ok)
  }

  function Serve(s: Sys, msg: PersistMsg, ok: bool): Sys {
    match msg
    case OpMsg(_) => s
    case FlushMsg => s.(reply := Some(if ok then Success(s.lastDurable) else Failure(SinkFailure)))
    case CheckpointMsg(snapshot, lastSeq, compact) =>
      if ok then s.(worker := Snapshotting(snapshot, lastSeq, compact)) else s.(reply := Some(Failure(SinkFailure)))
    case ShutdownMsg => s.(reply := Some(Success(0)), worker := Done)
  }

  /** Writing the snapshot and compacting are separate steps: a crash may fall between them. */
  function HandleSnapshot(s: Sys, writeFails: bool): Sys
    requires s.worker.Snapshotting?
  {
    if writeFails then s.(worker := Receiving, reply := Some(Failure(SinkFailure))) else
    var t := s.(tables := WriteSnapshot(s.tables, s.worker.snapshot, s.worker.lastSeq),
                audit := Settled(s.audit, s.store.view));
    if s.worker.compact then t.(worker := Compacting(s.worker.lastSeq))
    else t.(worker := Receiving, reply := Some(Success(0)))
  }

  function HandleCompact(s: Sys, compactFails: bool): Sys
    requires s.worker.Compacting?
  {
    if compactFails then s.(worker := Receiving, reply := Some(Failure(SinkFailure)))
    else s.(tables := CompactThrough(s.tables, s.worker.lastSeq), worker := Receiving, reply := Some(Success(0)))
  }

  // ---- crash and restart --------------------------------------------------------------

  /** The process is gone: buffer, queue and messages with it. */
  function Crash(s: Sys): Sys {
    s.(loop := Down, worker := Done, queue := [], buf := [], reply := None, notices := [], announced := [],
       replies := [], landed := [], lastDurable := 0, health := Health(false, 0), opsSinceSnapshot := 0,
       audit := s.audit.(lost := s.audit.lost + (s.buf + OpsOf(s.queue)), inFlight := None))
  }

  /** A crash, and an attempt to start again on what the tables hold. */
  function CrashAndReopen(s: Sys): Sys {
    match Load(s.tables)
    case Success(store) => Spawn(store, s.tables)
    case Failure(_) => Crash(s)
  }

  // ---- steps and runs -----------------------------------------------------------------

  predicate Enabled(cfg: Config, s: Sys, a: Action) {
    match a
    case Mutate(_) => s.loop.Idle?
    case ClientFlush => s.loop.Idle?
    case ClientCheckpoint => s.loop.Idle?
    case ClientShutdown => s.loop.Idle?
    case LoopSend => s.loop.Sending? && |s.queue| < cfg.persistQueueBound
    case LoopReply => s.loop.Awaiting? && s.reply.Some?
    case LoopNotice => s.loop.Idle? && s.notices != []
    case WorkerReceive => s.worker.Receiving? && s.queue != []
    case WorkerDeadline => s.worker.Receiving? && s.buf != []
    case WorkerAppend(_) => s.worker.Appending?
    case WorkerSnapshot(_) => s.worker.Snapshotting?
    case WorkerCompact(_) => s.worker.Compacting?
    case Restart => true
  }

  /** One step; an action that is not enabled does nothing. */
  function Step(cfg: Config, s: Sys, a: Action): Sys {
    if !Enabled(cfg, s, a) then s else
    match a
    case Mutate(cmd) => HandleMutation(cfg, s, cmd)
    case ClientFlush => s.(loop := Sending(FlushMsg, ForFlush))
    case ClientCheckpoint =>
      s.(loop := Sending(CheckpointMsg(Export(s.store), LastSeq(s.store), cfg.compactAfterSnapshot), ForCheckpoint))
    case ClientShutdown => s.(loop := Sending(ShutdownMsg, ForShutdown))
    case LoopSend => s.(queue := s.queue + [s.loop.msg], loop := Awaiting(s.loop.purpose))
    case LoopReply => HandleReply(cfg, s, s.loop.purpose, s.reply.value)
    case LoopNotice => HandleNotice(s)
    case WorkerReceive => HandleMessage(cfg, s)
    case WorkerDeadline => s.(worker := Appending(None))
    case WorkerAppend(fails) => HandleAppend(s, fails)
    case WorkerSnapshot(fails) => HandleSnapshot(s, fails)
    case WorkerCompact(fails) => HandleCompact(s, fails)
    case Restart => CrashAndReopen(s)
  }

  function RunSys(cfg: Config, s: Sys, actions: seq<Action>): Sys {
    if actions == [] then s else Step(cfg, RunSys(cfg, s, actions[..|actions| - 1]), actions[|actions| - 1])
  }
}
