/**
 * What clients are told (src/runtime/handle.rs:417-669, 825-903): which answer each request gets, that
 * it gets exactly one, and what each answer says about store, journal and losses.
 */
module RuntimeAnswers {
  import opened Wrappers
  import opened Qso
  import opened Operation
  import opened StoreModel
  import opened History
  import opened Rejection
  import opened Journal
  import opened RuntimeModel
  import opened Pipeline
  import opened RuntimeProof
  import opened RuntimeTheorems
  import opened RuntimeAcks

  // ---- the answer to a mutation -----------------------------------------------------------

  predicate Refused(cfg: Config, s: Sys) {
    cfg.ackMode.Durable? && !s.health.isHealthy
  }

  /** The op has been handed out to nobody: it is in neither the store's history nor any queue. */
  ghost predicate Unaccepted(s: Sys, stored: StoredOp) {
    && stored !in s.audit.settled && stored !in s.audit.accepted
    && stored !in s.buf && stored !in OpsOf(s.queue)
  }

  /** Refused before anything is touched: exactly when durable and unhealthy. */
  lemma {:induction false} RefusedIff(cfg: Config, s: Sys, cmd: Command)
    requires s.loop.Idle?
    ensures var t := Step(cfg, s, Mutate(cmd));
      t.replies == s.replies + [PersistenceUnhealthy] <==> Refused(cfg, s)
    ensures Refused(cfg, s) ==> Step(cfg, s, Mutate(cmd)) == s.(replies := s.replies + [PersistenceUnhealthy])
  {
    hide Exec, Rollback, Export, Stale;
    NewAnswer(s.replies, PersistenceUnhealthy);
  }

  lemma {:induction false} NewAnswer(replies: seq<ClientReply>, reply: ClientReply)
    ensures forall other :: replies + [other] == replies + [reply] <==> other == reply
    ensures replies != replies + [reply]
  {
    forall other | replies + [other] == replies + [reply] ensures other == reply {
      assert (replies + [other])[|replies|] == (replies + [reply])[|replies|];
    }
  }

  /** The store's own error is passed on, and nothing else changes. */
  lemma {:induction false} FailedIff(cfg: Config, s: Sys, cmd: Command, e: StoreError)
    requires s.loop.Idle? && !Refused(cfg, s)
    ensures var t := Step(cfg, s, Mutate(cmd));
      t.replies == s.replies + [CommandFailed(e)] <==> Exec(s.store, cmd).result == Failure(e)
    ensures Exec(s.store, cmd).result == Failure(e) ==>
      Step(cfg, s, Mutate(cmd)) == s.(store := Exec(s.store, cmd).state, replies := s.replies + [CommandFailed(e)])
  {
    hide Exec, Rollback, Export, Stale;
    NewAnswer(s.replies, CommandFailed(e));
  }

  /**
   * A full queue is what rejects a mutation the store took: the client is told, the op is in no
   * queue and counts as accepted nowhere, the loop is unhealthy, and the store is back, except for
   * the flag that a stale undo or redo leaves behind.
   */
  lemma {:induction false} QueueFullIff(cfg: Config, s: Sys, cmd: Command)
    requires SysInv(cfg, s) && s.loop.Idle? && !Refused(cfg, s) && Exec(s.store, cmd).result.Success?
    ensures var t := Step(cfg, s, Mutate(cmd));
      t.replies == s.replies + [QueueFull] <==> |s.queue| >= cfg.persistQueueBound
    ensures |s.queue| >= cfg.persistQueueBound ==>
      var t := Step(cfg, s, Mutate(cmd));
      && t.loop.Idle? && !t.health.isHealthy && t.queue == s.queue && t.buf == s.buf && t.tables == s.tables
      && t.store.nextOpSeq == s.store.nextOpSeq && (t.store.view == s.store.view <==> !TopStale(s.store, cmd))
      && t.audit.settled == s.audit.settled && t.audit.accepted == s.audit.accepted
      && Unaccepted(t, Exec(s.store, cmd).result.value)
  {
    hide SysInv, Exec, Rollback, Export, Stale, TopStale;
    NewAnswer(s.replies, QueueFull);
    if |s.queue| >= cfg.persistQueueBound {
      NextIsFresh(cfg, s, cmd);
      RejectedIsBack(cfg, s, cmd);
    }
  }

  lemma {:induction false} RejectedIsBack(cfg: Config, s: Sys, cmd: Command)
    requires SysInv(cfg, s) && Exec(s.store, cmd).result.Success?
    ensures var o := Exec(s.store, cmd);
      var r := Rollback(ClearPending(o.state), Checkpoint(s.store), o.result.value).state;
      r.nextOpSeq == s.store.nextOpSeq && (r.view == s.store.view <==> !TopStale(s.store, cmd))
  {
    hide Exec, NumbersOk, AcceptedOk, SettledOk, LostOk, ContentOk, CoverOk, LinkOk, AnnounceOk, TopStale, Stale;
    RejectionRestoresViewIff(s.store, cmd);
    RollbackAfterClear(s.store, cmd);
    SameRevert(s.store, cmd);
  }

  lemma {:induction false} SameRevert(s: StoreState, cmd: Command)
    requires Exec(s, cmd).result.Success?
    ensures var o := Exec(s, cmd);
      Rollback(ClearPending(o.state), Checkpoint(s), o.result.value).result.Success? ==>
        Rollback(ClearPending(o.state), Checkpoint(s), o.result.value).state.view == Rejected(s, cmd).state.view
  {
    hide Exec;
  }

  /** The number a mutation takes has been handed out to no op that is accepted or waiting. */
  lemma {:induction false} NextIsFresh(cfg: Config, s: Sys, cmd: Command)
    requires SysInv(cfg, s) && Exec(s.store, cmd).result.Success?
    ensures Unaccepted(s, Exec(s.store, cmd).result.value)
  {
    hide Exec, LinkOk, AnnounceOk, ContentOk, LostOk, StartState, Fold, CoverOk;
    AcceptedStore(s.store, cmd);
    var c, stored := CoreOf(s), Exec(s.store, cmd).result.value;
    assert Below(c.audit.settled, s.store.nextOpSeq) by { SettledIsLow(c); }
    LowIsDifferent(c.audit.settled, stored);
    LowIsDifferent(c.audit.accepted, stored);
    LowIsDifferent(c.pipe, stored);
  }

  lemma {:induction false} SettledIsLow(c: Core)
    requires NumbersOk(c) && SettledOk(c)
    ensures Below(c.audit.settled, c.store.nextOpSeq)
  {
    hide StartState, Fold;
  }

  lemma {:induction false} LowIsDifferent(ops: seq<StoredOp>, stored: StoredOp)
    requires Below(ops, stored.opSeq)
    ensures stored !in ops
  {
  }

  /**
   * Otherwise the op is accepted and queued. In memory mode an op that starts no automatic
   * checkpoint is acked at once; every other answer waits for the worker.
   */
  lemma {:induction false} AcceptedOtherwise(cfg: Config, s: Sys, cmd: Command)
    requires s.loop.Idle? && !Refused(cfg, s) && Exec(s.store, cmd).result.Success?
    requires |s.queue| < cfg.persistQueueBound
    ensures var o, t := Exec(s.store, cmd), Step(cfg, s, Mutate(cmd));
      && t.store == ClearPending(o.state) && t.queue == s.queue + [OpMsg(o.result.value)]
      && t.audit.accepted == s.audit.accepted + [o.result.value] && t.health == s.health
      && (if cfg.ackMode.Durable? then
            t.replies == s.replies && t.loop.Sending? && t.loop.msg == FlushMsg && t.loop.purpose.ForDurableAck?
            && t.loop.purpose.stored == o.result.value && t.loop.purpose.isInsert == cmd.CmdInsert?
          else if cmd.CmdInsert? && cfg.snapshotEveryOps != 0 && s.opsSinceSnapshot + 1 >= cfg.snapshotEveryOps then
            t.replies == s.replies && t.loop.Sending? && t.loop.purpose == ForAutoCheckpoint(o.result.value)
          else
            t.loop.Idle? && t.replies == s.replies + [Acked(o.result.value, cmd.CmdInsert?)])
  {
    hide Exec, Export;
  }

  // ---- what an ack, and what a rejection, says about the op ------------------------------------

  /** The accepted ops that no rollback is going to take back. */
  function Kept(s: Sys): seq<StoredOp> {
    s.audit.settled + (if s.audit.inFlight.Some? then DropLast(s.audit.accepted) else s.audit.accepted)
  }

  /** Acked ops stay accepted, and so does one whose ack waits for a checkpoint. */
  ghost predicate AcksKept(s: Sys) {
    && (forall r :: r in s.replies && r.Acked? ==> r.stored in Kept(s))
    && ((s.loop.Sending? || s.loop.Awaiting?) && s.loop.purpose.ForAutoCheckpoint? ==> s.loop.purpose.stored in Kept(s))
  }

  lemma {:induction false} AcksKeptIn(s: Sys, t: Sys)
    requires AcksKept(s) && t.replies == s.replies && (forall op :: op in Kept(s) ==> op in Kept(t))
    requires (t.loop.Sending? || t.loop.Awaiting?) && t.loop.purpose.ForAutoCheckpoint? ==>
      (s.loop.Sending? || s.loop.Awaiting?) && s.loop.purpose == t.loop.purpose
    ensures AcksKept(t)
  {
  }

  /** One more answer, which acks at most a kept op. */
  lemma {:induction false} AcksKeptAnswer(s: Sys, t: Sys, reply: ClientReply)
    requires AcksKept(s) && t.replies == s.replies + [reply] && (forall op :: op in Kept(s) ==> op in Kept(t))
    requires reply.Acked? ==> reply.stored in Kept(t)
    requires t.loop.Idle? || t.loop.Stopped?
    ensures AcksKept(t)
  {
  }

  lemma {:induction false} AcksAfterMutation(cfg: Config, s: Sys, cmd: Command)
    requires SysInv(cfg, s) && s.loop.Idle? && AcksKept(s)
    ensures AcksKept(HandleMutation(cfg, s, cmd))
  {
    hide SysInv, Exec, AcksKept;
    assert s.audit.inFlight.None? by { IdleHasNoFlight(cfg, s); }
    var o := Exec(s.store, cmd);
    if Refused(cfg, s) {
      AcksKeptAnswer(s, HandleMutation(cfg, s, cmd), PersistenceUnhealthy);
    } else if o.result.Failure? {
      AcksKeptAnswer(s, HandleMutation(cfg, s, cmd), CommandFailed(o.result.error));
    } else if |s.queue| >= cfg.persistQueueBound {
      AcksAfterRejection(cfg, s, cmd);
    } else {
      AcksAfterAcceptance(cfg, s, cmd);
    }
  }

  lemma {:induction false} IdleHasNoFlight(cfg: Config, s: Sys)
    requires SysInv(cfg, s) && s.loop.Idle?
    ensures s.audit.inFlight.None?
  {
    hide CoreInv, AnnounceOk;
  }

  lemma {:induction false} AcksAfterRejection(cfg: Config, s: Sys, cmd: Command)
    requires s.loop.Idle? && s.audit.inFlight.None? && AcksKept(s) && !Refused(cfg, s)
    requires Exec(s.store, cmd).result.Success? && |s.queue| >= cfg.persistQueueBound
    ensures AcksKept(HandleMutation(cfg, s, cmd))
  {
    hide Exec, Rollback, Export, Stale, AcksKept;
    AcksKeptAnswer(s, HandleMutation(cfg, s, cmd), QueueFull);
  }

  lemma {:induction false} AcksAfterAcceptance(cfg: Config, s: Sys, cmd: Command)
    requires s.loop.Idle? && s.audit.inFlight.None? && AcksKept(s) && !Refused(cfg, s)
    requires Exec(s.store, cmd).result.Success? && |s.queue| < cfg.persistQueueBound
    ensures AcksKept(HandleMutation(cfg, s, cmd))
  {
    hide Exec, Rollback, Export, Stale, AcksKept;
    var stored, t := Exec(s.store, cmd).result.value, HandleMutation(cfg, s, cmd);
    var accepted := s.audit.accepted + [stored];
    assert DropLast(accepted) == s.audit.accepted;
    if t.loop.Idle? {
      AcksKeptAnswer(s, t, Acked(stored, cmd.CmdInsert?)) by { LastIsIn(s.audit.settled, s.audit.accepted, stored); }
    } else {
      AcksKeptSending(s, t) by { LastIsIn(s.audit.settled, s.audit.accepted, stored); }
    }
  }

  lemma {:induction false} LastIsIn(a: seq<StoredOp>, b: seq<StoredOp>, op: StoredOp)
    ensures op in a + (b + [op])
    ensures forall x :: x in a + b ==> x in a + (b + [op])
  {
    assert (a + (b + [op]))[|a + b|] == op;
  }

  lemma {:induction false} AcksKeptSending(s: Sys, t: Sys)
    requires AcksKept(s) && t.replies == s.replies && (forall op :: op in Kept(s) ==> op in Kept(t))
    requires t.loop.Sending? && (t.loop.purpose.ForAutoCheckpoint? ==> t.loop.purpose.stored in Kept(t))
    ensures AcksKept(t)
  {
  }

  lemma {:induction false} AcksAfterReply(cfg: Config, s: Sys)
    requires SysInv(cfg, s) && s.loop.Awaiting? && s.reply.Some? && AcksKept(s)
    ensures AcksKept(HandleReply(cfg, s, s.loop.purpose, s.reply.value))
  {
    hide SysInv;
    if s.loop.purpose.ForDurableAck? {
      InFlightIsLast(cfg, s);
      if s.reply.value.Success? { AcksAfterDurable(cfg, s); } else { AcksAfterWithdrawal(cfg, s); }
    } else {
      AcksAfterRequest(cfg, s) by { RequestHasNoFlight(cfg, s); }
    }
  }

  lemma {:induction false} RequestHasNoFlight(cfg: Config, s: Sys)
    requires SysInv(cfg, s) && s.loop.Awaiting? && !s.loop.purpose.ForDurableAck?
    ensures s.audit.inFlight.None?
  {
    hide CoreInv, AnnounceOk, AwaitOk;
  }

  lemma {:induction false} AcksAfterRequest(cfg: Config, s: Sys)
    requires s.loop.Awaiting? && s.reply.Some? && AcksKept(s)
    requires !s.loop.purpose.ForDurableAck? && s.audit.inFlight.None?
    ensures AcksKept(HandleReply(cfg, s, s.loop.purpose, s.reply.value))
  {
  }

  lemma {:induction false} AcksAfterDurable(cfg: Config, s: Sys)
    requires s.loop.Awaiting? && s.reply.Some? && AcksKept(s)
    requires s.loop.purpose.ForDurableAck? && s.audit.inFlight.Some? && s.reply.value.Success?
    requires s.audit.accepted == DropLast(s.audit.accepted) + [s.loop.purpose.stored]
    ensures AcksKept(HandleReply(cfg, s, s.loop.purpose, s.reply.value))
  {
    hide Export, AcksKept, DropLast;
    var stored, t := s.loop.purpose.stored, HandleReply(cfg, s, s.loop.purpose, s.reply.value);
    LastIsIn(s.audit.settled, DropLast(s.audit.accepted), stored);
    if t.loop.Idle? { AcksKeptAnswer(s, t, Acked(stored, s.loop.purpose.isInsert)); } else { AcksKeptSending(s, t); }
  }

  lemma {:induction false} AcksAfterWithdrawal(cfg: Config, s: Sys)
    requires FailurePending(s) && AcksKept(s) && s.audit.inFlight.Some?
    ensures AcksKept(HandleReply(cfg, s, s.loop.purpose, s.reply.value))
  {
    hide Rollback, Stale, AcksKept;
    AcksKeptAnswer(s, HandleReply(cfg, s, s.loop.purpose, s.reply.value), NotPersisted);
  }

  lemma {:induction false} InFlightIsLast(cfg: Config, s: Sys)
    requires SysInv(cfg, s) && s.loop.Awaiting? && s.loop.purpose.ForDurableAck?
    ensures s.audit.inFlight.Some? && s.audit.accepted != []
    ensures s.audit.accepted == DropLast(s.audit.accepted) + [s.loop.purpose.stored]
  {
    hide CoreInv, AnnounceOk, AwaitOk, Exec, Fold;
  }

  lemma {:induction false} SettlingKeeps(cfg: Config, s: Sys)
    requires SysInv(cfg, s) && s.worker.Snapshotting?
    ensures s.audit.inFlight.None? && Kept(HandleSnapshot(s, false)) == Kept(s)
  {
    hide CoreInv, AnnounceOk, Export;
    var a := s.audit.settled + s.audit.accepted;
    assert a + [] == a;
  }

  lemma {:induction false} AcksStep(cfg: Config, s: Sys, a: Action)
    requires SysInv(cfg, s) && AcksKept(s)
    ensures AcksKept(Step(cfg, s, a))
  {
    hide SysInv, HandleMutation, HandleReply, HandleMessage, HandleAppend, HandleSnapshot, HandleCompact, HandleNotice,
      CrashAndReopen, AcksKept, Export;
    if Enabled(cfg, s, a) {
      match a {
        case Mutate(cmd) => AcksAfterMutation(cfg, s, cmd);
        case LoopReply => AcksAfterReply(cfg, s);
        case Restart => AcksAfterCrash(s);
        case WorkerSnapshot(fails) =>
          SnapshotSameTalk(s, fails);
          if !fails { SettlingKeeps(cfg, s); }
          AcksKeptIn(s, Step(cfg, s, a));
        case LoopNotice => NoticeSameTalk(s); AcksKeptIn(s, Step(cfg, s, a));
        case WorkerReceive => MessageSameTalk(cfg, s); AcksKeptIn(s, Step(cfg, s, a));
        case WorkerAppend(fails) => AppendSameTalk(s, fails); AcksKeptIn(s, Step(cfg, s, a));
        case WorkerCompact(fails) => CompactSameTalk(s, fails); AcksKeptIn(s, Step(cfg, s, a));
        case _ => AcksKeptIn(s, Step(cfg, s, a));
      }
    }
  }

  /** The worker answers no client and changes no purpose. */
  ghost predicate SameTalk(s: Sys, t: Sys) {
    t.replies == s.replies && t.loop == s.loop && t.opsSinceSnapshot == s.opsSinceSnapshot
  }

  lemma {:induction false} NoticeSameTalk(s: Sys)
    requires s.notices != []
    ensures SameTalk(s, HandleNotice(s)) && Kept(HandleNotice(s)) == Kept(s)
  {
  }

  lemma {:induction false} MessageSameTalk(cfg: Config, s: Sys)
    requires s.queue != []
    ensures SameTalk(s, HandleMessage(cfg, s)) && Kept(HandleMessage(cfg, s)) == Kept(s)
  {
  }

  lemma {:induction false} AppendSameTalk(s: Sys, fails: bool)
    requires s.worker.Appending?
    ensures SameTalk(s, HandleAppend(s, fails)) && Kept(HandleAppend(s, fails)) == Kept(s)
  {
    hide InsertRows;
  }

  lemma {:induction false} SnapshotSameTalk(s: Sys, fails: bool)
    requires s.worker.Snapshotting?
    ensures SameTalk(s, HandleSnapshot(s, fails)) && (fails ==> Kept(HandleSnapshot(s, fails)) == Kept(s))
  {
  }

  lemma {:induction false} CompactSameTalk(s: Sys, fails: bool)
    requires s.worker.Compacting?
    ensures SameTalk(s, HandleCompact(s, fails)) && Kept(HandleCompact(s, fails)) == Kept(s)
  {
    hide CompactThrough;
  }

  lemma {:induction false} AcksAfterCrash(s: Sys)
    ensures AcksKept(CrashAndReopen(s))
  {
    hide Load;
  }

  lemma {:induction false} AcksOfRun(cfg: Config, s: Sys, actions: seq<Action>)
    requires SysInv(cfg, s) && AcksKept(s)
    ensures AcksKept(RunSys(cfg, s, actions))
  {
    hide SysInv, Step, AcksKept;
    if actions != [] {
      var n := |actions| - 1;
      AcksOfRun(cfg, s, actions[..n]);
      RunKeepsInv(cfg, s, actions[..n]);
      AcksStep(cfg, RunSys(cfg, s, actions[..n]), actions[n]);
    }
  }

  /**
   * Over every run, whatever fails: each op a client was told is taken, automatic checkpoints
   * included, is among the accepted ones, and no rollback takes it back.
   */
  lemma {:induction false} AckedIsAccepted(cfg: Config, t: Tables, actions: seq<Action>)
    requires Loadable(t)
    ensures var s := Reached(cfg, t, actions);
      forall r :: r in s.replies && r.Acked? ==> r.stored in s.audit.settled + s.audit.accepted
  {
    hide SysInv, Loadable, Reached, Load;
    assert Load(t).Success? by { LoadableLoads(t); }
    SpawnIsOk(cfg, t);
    assert AcksKept(Spawn(Load(t).value, t)) by { NothingAcked(Load(t).value, t); }
    ReachedUnfolds(cfg, t, actions);
    AcksOfRun(cfg, Spawn(Load(t).value, t), actions);
    KeptIsAccepted(Reached(cfg, t, actions));
  }

  lemma {:induction false} KeptIsAccepted(s: Sys)
    ensures forall op :: op in Kept(s) ==> op in s.audit.settled + s.audit.accepted
  {
  }

  lemma {:induction false} NothingAcked(store: StoreState, t: Tables)
    ensures AcksKept(Spawn(store, t))
  {
  }

  lemma {:induction false} LoadableLoads(t: Tables)
    requires Loadable(t)
    ensures Load(t).Success?
  {
  }

  lemma {:induction false} ReachedUnfolds(cfg: Config, t: Tables, actions: seq<Action>)
    requires Load(t).Success?
    ensures Reached(cfg, t, actions) == RunSys(cfg, Spawn(Load(t).value, t), actions)
  {
  }

  /**
   * A durable mutation whose flush fails: the client is told, the op is nowhere, the loop is
   * unhealthy, and the store is back where the mutation met it, but for a stale flag.
   */
  lemma {:induction false} NotPersistedIsUnaccepted(cfg: Config, s: Sys)
    requires SysInv(cfg, s) && FailurePending(s)
    ensures var t := Step(cfg, s, LoopReply);
      && t.loop.Idle? && t.replies == s.replies + [NotPersisted] && !t.health.isHealthy
      && s.audit.inFlight.Some? && t.store.nextOpSeq == s.audit.inFlight.value.prior.nextOpSeq
      && (t.store.view == s.audit.inFlight.value.prior.view <==>
            !TopStale(s.audit.inFlight.value.prior, s.audit.inFlight.value.cmd))
      && t.audit.settled == s.audit.settled && t.audit.accepted == DropLast(s.audit.accepted)
      && Unaccepted(t, s.loop.purpose.stored)
  {
    hide SysInv, Exec, Rollback, Stale, TopStale, StoreOk;
    InFlightIsLast(cfg, s);
    FlightIsSound(cfg, s);
    var f := s.audit.inFlight.value;
    RetractIsBack(f.prior, f.cmd);
    LastIsFresh(cfg, s);
  }

  lemma {:induction false} FlightIsSound(cfg: Config, s: Sys)
    requires SysInv(cfg, s) && s.loop.Awaiting? && s.loop.purpose.ForDurableAck?
    ensures s.audit.inFlight.Some?
    ensures var f := s.audit.inFlight.value;
      && StoreOk(f.prior) && Exec(f.prior, f.cmd).result.Success?
      && s.store == ClearPending(Exec(f.prior, f.cmd).state)
      && s.loop.purpose.stored == Exec(f.prior, f.cmd).result.value && s.loop.purpose.checkpoint == Checkpoint(f.prior)
  {
    hide CoreInv, AnnounceOk, AwaitOk, Exec, StoreOk, Checkpoint;
  }

  /** The newest accepted op, once taken out, is left nowhere. */
  lemma {:induction false} LastIsFresh(cfg: Config, s: Sys)
    requires SysInv(cfg, s) && FailurePending(s) && s.audit.accepted != []
    requires s.audit.accepted == DropLast(s.audit.accepted) + [s.loop.purpose.stored]
    ensures s.loop.purpose.stored !in s.audit.settled && s.loop.purpose.stored !in DropLast(s.audit.accepted)
    ensures Drained(s)
  {
    hide Load, Fold, StartState, StoreOk, NumbersOk, LostOk, ContentOk, CoverOk, AnnounceOk, PurposeOk, ReplyOk, Landed;
    var c, stored := CoreOf(s), s.loop.purpose.stored;
    LastIsUnlike(s.audit.accepted, stored);
    SettledBeforeLast(c);
    LowIsDifferent(c.audit.settled, stored);
  }

  lemma {:induction false} SettledBeforeLast(c: Core)
    requires AcceptedOk(c) && SettledOk(c) && c.audit.accepted != []
    ensures Below(c.audit.settled, c.audit.accepted[|c.audit.accepted| - 1].opSeq)
  {
    hide StartState, Fold;
    var last := c.audit.accepted[|c.audit.accepted| - 1];
    assert StartState(c.tables).nextOpSeq <= last.opSeq;
  }

  lemma {:induction false} LastIsUnlike(ops: seq<StoredOp>, stored: StoredOp)
    requires Increasing(ops) && ops != [] && ops[|ops| - 1] == stored
    ensures stored !in DropLast(ops)
  {
  }

  lemma {:induction false} RetractIsBack(prior: StoreState, cmd: Command)
    requires StoreOk(prior) && Exec(prior, cmd).result.Success?
    ensures var o := Exec(prior, cmd);
      var r := Rollback(ClearPending(o.state), Checkpoint(prior), o.result.value).state;
      r.nextOpSeq == prior.nextOpSeq && (r.view == prior.view <==> !TopStale(prior, cmd))
  {
    hide Exec, TopStale, Stale;
    RejectionRestoresViewIff(prior, cmd);
    RollbackAfterClear(prior, cmd);
    SameRevert(prior, cmd);
  }

  // ---- the answers to flush and checkpoint -------------------------------------------------------

  /** A worker's Ok to a flush carries its durable number. */
  ghost predicate NumberOk(s: Sys) {
    s.loop.Awaiting? && (s.loop.purpose.ForFlush? || s.loop.purpose.ForDurableAck?) ==>
      (s.reply.Some? && s.reply.value.Success? ==> s.reply.value.value == s.lastDurable)
  }

  lemma {:induction false} NumberStep(cfg: Config, s: Sys, a: Action)
    requires SysInv(cfg, s) && NumberOk(s)
    ensures NumberOk(Step(cfg, s, a))
  {
    hide CoreInv, AnnounceOk, PurposeOk, ReplyOk, HandleMutation, HandleReply, Export, Load, InsertRows;
    if Enabled(cfg, s, a) {
      match a {
        case Mutate(cmd) => MutationNotAwaiting(cfg, s, cmd);
        case LoopReply => ReplyNotAwaiting(cfg, s);
        case WorkerAppend(fails) => AppendServes(cfg, s);
        case _ =>
      }
    }
  }

  lemma {:induction false} MutationNotAwaiting(cfg: Config, s: Sys, cmd: Command)
    requires s.loop.Idle?
    ensures !HandleMutation(cfg, s, cmd).loop.Awaiting? && HandleMutation(cfg, s, cmd).worker == s.worker
    ensures HandleMutation(cfg, s, cmd).reply == s.reply
  {
    hide Exec, Rollback, Export, Stale;
  }

  lemma {:induction false} ReplyNotAwaiting(cfg: Config, s: Sys)
    requires s.loop.Awaiting? && s.reply.Some?
    ensures var t := HandleReply(cfg, s, s.loop.purpose, s.reply.value);
      !t.loop.Awaiting? && t.reply.None? && t.worker == s.worker
  {
    hide Rollback, Export, Stale;
  }

  /** What the worker does for a request fails: the append it asked for, the snapshot, or the compaction. */
  predicate ServiceFails(cfg: Config, s: Sys, a: Action) {
    Enabled(cfg, s, a) &&
    match a
    case WorkerAppend(fails) => fails && s.worker.serving.Some? && s.buf != []
    case WorkerSnapshot(fails) => fails
    case WorkerCompact(fails) => fails
    case _ => false
  }

  /** The loop begins or ends a request. */
  predicate Turns(cfg: Config, s: Sys, a: Action) {
    Enabled(cfg, s, a) &&
    (IsRequest(a) || a.LoopReply? || a.Restart?)
  }

  /** The worker failed the request that the loop is waiting for. */
  predicate RequestFailed(cfg: Config, s: Sys, actions: seq<Action>) {
    if actions == [] then false else
    var n := |actions| - 1;
    var t := RunSys(cfg, s, actions[..n]);
    !Turns(cfg, t, actions[n]) && (RequestFailed(cfg, s, actions[..n]) || ServiceFails(cfg, t, actions[n]))
  }

  /** The worker's answer is a failure exactly when it failed; before the answer it has not. */
  ghost predicate FailureOk(s: Sys, failed: bool) {
    && (s.loop.Awaiting? && s.reply.Some? && !s.loop.purpose.ForShutdown? ==> (s.reply.value.Failure? <==> failed))
    && (s.loop.Sending? || (s.loop.Awaiting? && s.reply.None?) ==> !failed)
  }

  lemma {:induction false} FailureStep(cfg: Config, s: Sys, a: Action, failed: bool)
    requires SysInv(cfg, s) && FailureOk(s, failed)
    ensures FailureOk(Step(cfg, s, a), !Turns(cfg, s, a) && (failed || ServiceFails(cfg, s, a)))
  {
    hide CoreInv, AnnounceOk, PurposeOk, ReplyOk, HandleMutation, HandleReply, HandleAppend, Export, Load;
    if Enabled(cfg, s, a) {
      match a {
        case Mutate(cmd) => MutationNotAwaiting(cfg, s, cmd);
        case LoopReply => ReplyNotAwaiting(cfg, s);
        case WorkerAppend(fails) => FailureAfterAppend(cfg, s, fails, failed);
        case _ =>
      }
    }
  }

  lemma {:induction false} FailureAfterAppend(cfg: Config, s: Sys, fails: bool, failed: bool)
    requires SysInv(cfg, s) && s.worker.Appending? && FailureOk(s, failed)
    ensures FailureOk(HandleAppend(s, fails), failed || ServiceFails(cfg, s, WorkerAppend(fails)))
  {
    hide CoreInv, AnnounceOk, PurposeOk, ReplyOk, Export, Load, FlushBuf;
    var r := s.(worker := Receiving);
    CoreFields(s, r);
    AppendServes(cfg, s);
    FlushLandsOrLoses(r, fails);
  }

  lemma {:induction false} FailureOfRun(cfg: Config, s: Sys, actions: seq<Action>)
    requires SysInv(cfg, s) && FailureOk(s, false) && NumberOk(s)
    ensures FailureOk(RunSys(cfg, s, actions), RequestFailed(cfg, s, actions)) && NumberOk(RunSys(cfg, s, actions))
  {
    hide SysInv, Step, FailureOk, NumberOk, Turns, ServiceFails;
    if actions != [] {
      var n := |actions| - 1;
      FailureOfRun(cfg, s, actions[..n]);
      RunKeepsInv(cfg, s, actions[..n]);
      FailureStep(cfg, RunSys(cfg, s, actions[..n]), actions[n], RequestFailed(cfg, s, actions[..n]));
      NumberStep(cfg, RunSys(cfg, s, actions[..n]), actions[n]);
    }
  }

  lemma {:induction false} FreshIsOk(store: StoreState, t: Tables)
    ensures FailureOk(Spawn(store, t), false) && NumberOk(Spawn(store, t))
  {
  }

  /**
   * What the client of a flush is told, over all runs: a failure if and only if the append it asked
   * for failed, and otherwise the worker's durable number, with nothing left waiting.
   */
  lemma {:induction false} FlushAnswerIsTrue(cfg: Config, t: Tables, actions: seq<Action>)
    requires Loadable(t)
    requires var s := Reached(cfg, t, actions); s.loop.Awaiting? && s.loop.purpose.ForFlush? && s.reply.Some?
    ensures var s := Reached(cfg, t, actions);
      var u, failed := Step(cfg, s, LoopReply), RequestFailed(cfg, Spawn(Load(t).value, t), actions);
      && u.loop.Idle? && Drained(u) && u.store == s.store && u.tables == s.tables
      && (if failed then exists e :: u.replies == s.replies + [FlushReply(Failure(e))]
          else u.replies == s.replies + [FlushReply(Success(u.lastDurable))])
  {
    hide Loadable, RequestFailed, SysInv, Load;
    assert Load(t).Success? by { LoadableLoads(t); }
    var s := Reached(cfg, t, actions);
    SpawnIsOk(cfg, t);
    FreshIsOk(Load(t).value, t);
    ReachedUnfolds(cfg, t, actions);
    ReachedIsOk(cfg, t, actions);
    FailureOfRun(cfg, Spawn(Load(t).value, t), actions);
    AnsweredIsDrained(cfg, s);
    if s.reply.value.Failure? {
      assert Step(cfg, s, LoopReply).replies == s.replies + [FlushReply(Failure(s.reply.value.error))];
    }
  }

  lemma {:induction false} AnsweredIsDrained(cfg: Config, s: Sys)
    requires SysInv(cfg, s) && s.loop.Awaiting? && s.reply.Some?
    ensures Drained(s)
  {
    hide CoreInv, AnnounceOk, PurposeOk, ReplyOk, Load;
  }

  /**
   * What the client of a checkpoint is told, over all runs: a failure if and only if the append,
   * the write or the compaction failed; and an Ok means that the tables load to the live store, and
   * that nothing is waiting, lost or stale.
   */
  lemma {:induction false} CheckpointAnswerIsTrue(cfg: Config, t: Tables, actions: seq<Action>)
    requires Loadable(t)
    requires var s := Reached(cfg, t, actions); s.loop.Awaiting? && s.loop.purpose.ForCheckpoint? && s.reply.Some?
    ensures var s := Reached(cfg, t, actions);
      var u, failed := Step(cfg, s, LoopReply), RequestFailed(cfg, Spawn(Load(t).value, t), actions);
      && u.loop.Idle? && Drained(u) && u.store == s.store && u.tables == s.tables
      && (if failed then exists e :: u.replies == s.replies + [CheckpointReply(Failure(e))]
          else
            && (exists n :: u.replies == s.replies + [CheckpointReply(Success(n))])
            && Load(u.tables).Success? && Load(u.tables).value.view == u.store.view
            && u.audit.lost == [] && !u.audit.stale)
  {
    hide Loadable, RequestFailed, SysInv, Load;
    assert Load(t).Success? by { LoadableLoads(t); }
    var s := Reached(cfg, t, actions);
    SpawnIsOk(cfg, t);
    FreshIsOk(Load(t).value, t);
    ReachedUnfolds(cfg, t, actions);
    ReachedIsOk(cfg, t, actions);
    FailureOfRun(cfg, Spawn(Load(t).value, t), actions);
    AnsweredIsDrained(cfg, s);
    var u := Step(cfg, s, LoopReply);
    if s.reply.value.Failure? {
      assert u.replies == s.replies + [CheckpointReply(Failure(s.reply.value.error))];
    } else {
      assert u.replies == s.replies + [CheckpointReply(Success(s.reply.value.value))];
      CheckpointHeals(cfg, t, actions);
    }
  }

  /**
   * What the client of a durable mutation is told, over all runs: that it is not persisted if and only
   * if the append it asked for failed. Otherwise it is acked, at once or after the checkpoint that an
   * insert at the interval starts.
   */
  lemma {:induction false} DurableAnswerIsTrue(cfg: Config, t: Tables, actions: seq<Action>)
    requires Loadable(t)
    requires var s := Reached(cfg, t, actions); s.loop.Awaiting? && s.loop.purpose.ForDurableAck? && s.reply.Some?
    ensures var s := Reached(cfg, t, actions);
      var u, p := Step(cfg, s, LoopReply), s.loop.purpose;
      if RequestFailed(cfg, Spawn(Load(t).value, t), actions) then
        u.loop.Idle? && u.replies == s.replies + [NotPersisted]
      else
        && u.store == s.store && u.audit.accepted == s.audit.accepted && u.health == s.health
        && (if p.isInsert && cfg.snapshotEveryOps != 0 && s.opsSinceSnapshot + 1 >= cfg.snapshotEveryOps then
              u.replies == s.replies && u.loop.Sending? && u.loop.purpose == ForAutoCheckpoint(p.stored)
            else
              u.loop.Idle? && u.replies == s.replies + [Acked(p.stored, p.isInsert)])
  {
    hide Loadable, RequestFailed, SysInv, Load, Rollback, Export, Stale;
    assert Load(t).Success? by { LoadableLoads(t); }
    var s := Reached(cfg, t, actions);
    SpawnIsOk(cfg, t);
    FreshIsOk(Load(t).value, t);
    ReachedUnfolds(cfg, t, actions);
    FailureOfRun(cfg, Spawn(Load(t).value, t), actions);
  }

  /** An automatic checkpoint ends in the ack of its insert however it went, and a shutdown in its own answer. */
  lemma {:induction false} WaitsEndInAnswers(cfg: Config, s: Sys)
    requires s.loop.Awaiting? && s.reply.Some?
    ensures s.loop.purpose.ForAutoCheckpoint? ==>
      var u := Step(cfg, s, LoopReply);
      u == s.(loop := Idle, reply := None, opsSinceSnapshot := 0,
              replies := s.replies + [Acked(s.loop.purpose.stored, true)])
    ensures s.loop.purpose.ForShutdown? ==>
      Step(cfg, s, LoopReply) == s.(loop := Stopped, reply := None, replies := s.replies + [ShutdownReply])
  {
  }

  // ---- one answer each ------------------------------------------------------------------------------

  /** Requests the loop has taken since the last start. */
  function Taken(cfg: Config, s: Sys, actions: seq<Action>): nat {
    if actions == [] then 0 else
    var n := |actions| - 1;
    var t, a, before := RunSys(cfg, s, actions[..n]), actions[n], Taken(cfg, s, actions[..n]);
    if !Enabled(cfg, t, a) then before
    else if a.Restart? then 0
    else before + (if IsRequest(a) then 1 else 0)
  }

  predicate IsRequest(a: Action) {
    a.Mutate? || a.ClientFlush? || a.ClientCheckpoint? || a.ClientShutdown?
  }

  function Pending(s: Sys): nat {
    if s.loop.Sending? || s.loop.Awaiting? then 1 else 0
  }

  lemma {:induction false} OneAnswerStep(cfg: Config, s: Sys, a: Action)
    requires Enabled(cfg, s, a) && !a.Restart?
    ensures var t := Step(cfg, s, a);
      |t.replies| + Pending(t) == |s.replies| + Pending(s) +
        (if IsRequest(a) then 1 else 0)
  {
    hide HandleMessage, HandleAppend, HandleSnapshot, HandleCompact, HandleNotice, Exec, Rollback, Export, Stale;
    match a {
      case LoopNotice => NoticeSameTalk(s);
      case WorkerReceive => MessageSameTalk(cfg, s);
      case WorkerAppend(fails) => AppendSameTalk(s, fails);
      case WorkerSnapshot(fails) => SnapshotSameTalk(s, fails);
      case WorkerCompact(fails) => CompactSameTalk(s, fails);
      case _ =>
    }
  }

  /** Every request taken since the last start is answered exactly once, or is the one being served. */
  lemma {:induction false} OneAnswerEach(cfg: Config, s: Sys, actions: seq<Action>)
    requires s.replies == [] && Pending(s) == 0
    ensures var u := RunSys(cfg, s, actions); |u.replies| + Pending(u) == Taken(cfg, s, actions)
  {
    hide Step, Enabled, Pending;
    if actions != [] {
      var n := |actions| - 1;
      var t := RunSys(cfg, s, actions[..n]);
      OneAnswerEach(cfg, s, actions[..n]);
      if !Enabled(cfg, t, actions[n]) {
        DisabledIsNothing(cfg, t, actions[n]);
      } else if actions[n].Restart? {
        RestartIsSilent(cfg, t);
      } else {
        OneAnswerStep(cfg, t, actions[n]);
      }
    }
  }

  lemma {:induction false} DisabledIsNothing(cfg: Config, s: Sys, a: Action)
    requires !Enabled(cfg, s, a)
    ensures Step(cfg, s, a) == s
  {
  }

  lemma {:induction false} RestartIsSilent(cfg: Config, s: Sys)
    ensures Step(cfg, s, Restart).replies == [] && Pending(Step(cfg, s, Restart)) == 0
  {
    hide Load;
  }
}
