/**
 * What an ack promises in durable mode (src/runtime/handle.rs:841-903): exactly when it can be
 * trusted over a failing sink, a run in which it lies, and when the loop stops taking mutations.
 */
module RuntimeAcks {
  import opened Wrappers
  import opened Qso
  import opened Operation
  import opened StoreModel
  import opened History
  import opened Rejection
  import opened Journal
  import opened RuntimeModel
  import opened Pipeline
  import opened RuntimeProof
  import opened RuntimeTheorems

  /**
   * The loop is about to ack: after the flush of a durable mutation, or, for an insert that reached
   * the snapshot interval, after the automatic checkpoint, however that ended.
   */
  predicate AboutToAck(s: Sys) {
    s.loop.Awaiting? && s.reply.Some? &&
    ((s.loop.purpose.ForDurableAck? && s.reply.value.Success?) || s.loop.purpose.ForAutoCheckpoint?)
  }

  /** When a durable mutation is acked, nothing waits, and if nothing is lost the tables are the store. */
  lemma {:induction false} AckedMeansDrained(cfg: Config, s: Sys)
    requires SysInv(cfg, s) && AboutToAck(s)
    ensures Drained(s)
    ensures s.audit.lost == [] && !s.audit.stale ==>
      Load(s.tables).Success? && Load(s.tables).value.view == s.store.view
  {
    hide CoreInv, AnnounceOk, PurposeOk, ReplyOk, Fits, Load, LoadsTo;
    if s.audit.lost == [] && !s.audit.stale {
      hide SysInv;
      DrainedMeansDurable(cfg, s);
    }
  }

  predicate NoAppendFails(actions: seq<Action>) {
    forall i :: 0 <= i < |actions| ==> !AppendFails(actions[i])
  }

  /** Durable mode rejects nothing while appends succeed, so such runs are clean. */
  lemma {:induction false} DurableStepIsClean(cfg: Config, s: Sys, a: Action)
    requires SysInv(cfg, s) && cfg.ackMode.Durable? && cfg.persistQueueBound > 0
    ensures !RejectsStale(cfg, s, a)
  {
    hide SysInv, TopStale;
    if a.Mutate? && Enabled(cfg, s, a) {
      IdleQueueIsEmpty(cfg, s);
    }
  }

  lemma {:induction false} IdleQueueIsEmpty(cfg: Config, s: Sys)
    requires SysInv(cfg, s) && s.loop.Idle? && cfg.ackMode.Durable?
    ensures s.queue == []
  {
    hide CoreInv, AnnounceOk;
    if s.queue != [] { OpsOfFront(s.queue); }
  }

  lemma {:induction false} DurableRunStaysClean(cfg: Config, s: Sys, actions: seq<Action>)
    requires SysInv(cfg, s) && s.audit.lost == [] && !s.audit.stale
    requires cfg.ackMode.Durable? && cfg.persistQueueBound > 0 && NoAppendFails(actions)
    ensures var u := RunSys(cfg, s, actions); u.audit.lost == [] && !u.audit.stale
  {
    hide SysInv, Step, RejectsStale;
    if actions != [] {
      var n := |actions| - 1;
      DurableRunStaysClean(cfg, s, actions[..n]);
      RunKeepsInv(cfg, s, actions[..n]);
      var u := RunSys(cfg, s, actions[..n]);
      DurableStepIsClean(cfg, u, actions[n]);
      CleanStep(cfg, u, actions[n]);
    }
  }

  /** In durable mode over a sink that never fails, at every ack the tables load to the live store. */
  lemma {:induction false} DurableAckIsDurable(cfg: Config, t: Tables, actions: seq<Action>)
    requires Loadable(t) && cfg.ackMode.Durable? && cfg.persistQueueBound > 0 && NoAppendFails(actions)
    requires AboutToAck(Reached(cfg, t, actions))
    ensures var s := Reached(cfg, t, actions);
      Drained(s) && Load(s.tables).Success? && Load(s.tables).value.view == s.store.view
  {
    hide SysInv;
    SpawnIsOk(cfg, t);
    ReachedIsOk(cfg, t, actions);
    DurableRunStaysClean(cfg, Spawn(Load(t).value, t), actions);
    AckedMeansDrained(cfg, Reached(cfg, t, actions));
  }

  // ---- over a failing sink: exactly when an ack is true -------------------------------------------

  /** An append fails that no request asked for: one begun at the deadline, or when an op filled the batch. */
  predicate Unasked(cfg: Config, s: Sys, a: Action) {
    Enabled(cfg, s, a) && AppendFails(a) && s.worker.serving.None?
  }

  /** A written snapshot, or a new start, covers whatever failed before. */
  predicate StartsAfresh(cfg: Config, s: Sys, a: Action) {
    Enabled(cfg, s, a) && (a.Restart? || a == WorkerSnapshot(false))
  }

  /** Such an append failed since the last fresh start. */
  predicate UnaskedSince(cfg: Config, s: Sys, actions: seq<Action>) {
    if actions == [] then false else
    var n := |actions| - 1;
    var t := RunSys(cfg, s, actions[..n]);
    !StartsAfresh(cfg, t, actions[n]) && (UnaskedSince(cfg, s, actions[..n]) || Unasked(cfg, t, actions[n]))
  }

  /** The loop is about to learn that its own flush failed, and will roll the mutation back. */
  predicate FailurePending(s: Sys) {
    s.loop.Awaiting? && s.loop.purpose.ForDurableAck? && s.reply.Some? && s.reply.value.Failure?
  }

  /** Lost ops that no rollback is going to take back. */
  function Excess(s: Sys): int {
    |s.audit.lost| - (if FailurePending(s) then 1 else 0)
  }

  lemma {:induction false} ExcessIsNat(cfg: Config, s: Sys)
    requires SysInv(cfg, s)
    ensures Excess(s) >= 0
  {
    hide CoreInv, AnnounceOk;
    if FailurePending(s) { NoDropWhenClean(cfg, s); }
  }

  lemma {:induction false} ExcessAfterReply(cfg: Config, s: Sys)
    requires SysInv(cfg, s) && s.loop.Awaiting? && s.reply.Some?
    ensures Excess(HandleReply(cfg, s, s.loop.purpose, s.reply.value)) == Excess(s)
  {
    hide CoreInv, AnnounceOk, LinkOk, Rollback, Stale, Export;
    if FailurePending(s) { NoDropWhenClean(cfg, s); }
  }

  /** In durable mode at most one op waits. */
  lemma {:induction false} OneOpWaits(cfg: Config, s: Sys)
    requires SysInv(cfg, s) && cfg.ackMode.Durable?
    ensures |s.buf + OpsOf(s.queue)| <= 1
    ensures s.loop.Awaiting? && !s.loop.purpose.ForDurableAck? ==> s.buf == []
  {
    hide CoreInv, AnnounceOk, AwaitOk, Exec;
    if (s.loop.Awaiting? || s.loop.Sending?) && s.loop.purpose.ForDurableAck? {
      var f := s.audit.inFlight.value;
      FlightHasOne(CoreOf(s), f.prior, f.cmd);
    }
  }

  lemma {:induction false} ExcessAfterAppend(cfg: Config, s: Sys, fails: bool)
    requires SysInv(cfg, s) && cfg.ackMode.Durable? && s.worker.Appending?
    ensures Excess(HandleAppend(s, fails)) == Excess(s) + (if Unasked(cfg, s, WorkerAppend(fails)) then 1 else 0)
  {
    hide CoreInv, AnnounceOk, PurposeOk, Export, FlushBuf;
    var r := s.(worker := Receiving);
    CoreFields(s, r);
    AppendServes(cfg, s);
    OneOpWaits(cfg, s);
    FlushLandsOrLoses(r, fails);
  }

  /** Steps that neither append nor answer a durable mutation. */
  lemma {:induction false} ExcessUnmoved(cfg: Config, s: Sys)
    requires LinkOk(cfg, s)
    ensures s.notices != [] ==> Excess(HandleNotice(s)) == Excess(s)
    ensures s.worker.Receiving? && s.queue != [] ==> Excess(HandleMessage(cfg, s)) == Excess(s)
    ensures s.worker.Compacting? ==> forall fails :: Excess(HandleCompact(s, fails)) == Excess(s)
  {
    hide Export, PurposeOk, ReplyOk, Load;
  }

  lemma {:induction false} ExcessAfterMutation(cfg: Config, s: Sys, cmd: Command)
    requires SysInv(cfg, s) && s.loop.Idle?
    ensures Excess(HandleMutation(cfg, s, cmd)) == Excess(s)
  {
    hide CoreInv, AnnounceOk, LinkOk, Exec, Rollback, Stale, Export;
  }

  /** Each unasked failure adds one op that nobody takes back, and nothing else does. */
  lemma {:induction false} ExcessStep(cfg: Config, s: Sys, a: Action)
    requires SysInv(cfg, s) && cfg.ackMode.Durable?
    ensures var t := Step(cfg, s, a);
      t.loop.Down? ||
      Excess(t) == if StartsAfresh(cfg, s, a) then 0 else Excess(s) + (if Unasked(cfg, s, a) then 1 else 0)
  {
    hide CoreInv, AnnounceOk, HandleMutation, HandleReply, HandleMessage, HandleAppend, HandleNotice, HandleCompact,
      Export, Load, PurposeOk;
    if Enabled(cfg, s, a) {
      match a {
        case Mutate(cmd) => ExcessAfterMutation(cfg, s, cmd);
        case LoopReply => ExcessAfterReply(cfg, s);
        case LoopNotice => ExcessUnmoved(cfg, s);
        case WorkerReceive => ExcessUnmoved(cfg, s);
        case WorkerCompact(_) => ExcessUnmoved(cfg, s);
        case WorkerAppend(fails) => ExcessAfterAppend(cfg, s, fails);
        case _ =>
      }
    }
  }

  lemma {:induction false} ExcessOfRun(cfg: Config, s: Sys, actions: seq<Action>)
    requires SysInv(cfg, s) && cfg.ackMode.Durable? && Excess(s) == 0
    ensures var u := RunSys(cfg, s, actions);
      u.loop.Down? || (Excess(u) == 0 <==> !UnaskedSince(cfg, s, actions))
  {
    hide SysInv, Step, Excess, StartsAfresh, Unasked;
    if actions != [] {
      var n := |actions| - 1;
      var t := RunSys(cfg, s, actions[..n]);
      ExcessOfRun(cfg, s, actions[..n]);
      RunKeepsInv(cfg, s, actions[..n]);
      ExcessIsNat(cfg, t);
      ExcessStep(cfg, t, actions[n]);
      if t.loop.Down? { DownNeedsRestart(cfg, t, actions[n]); }
    }
  }

  /** Only a restart does anything to a runtime that is down. */
  lemma {:induction false} DownNeedsRestart(cfg: Config, s: Sys, a: Action)
    requires SysInv(cfg, s) && s.loop.Down?
    ensures Step(cfg, s, a).loop.Down? || StartsAfresh(cfg, s, a)
    ensures Load(s.tables).Failure? ==> Step(cfg, s, a).loop.Down? && Step(cfg, s, a).tables == s.tables
  {
    hide CoreInv, AnnounceOk, Load;
  }

  /**
   * Exactly when a durable ack can be trusted over a failing sink: at every ack, each op accepted
   * since the newest snapshot is in the journal if and only if no append failed since then that the
   * worker had begun of its own accord (src/runtime/handle.rs:697, 736).
   */
  lemma {:induction false} DurableAckIsTrueIff(cfg: Config, t: Tables, actions: seq<Action>)
    requires Loadable(t) && cfg.ackMode.Durable? && AboutToAck(Reached(cfg, t, actions))
    ensures var s, unasked := Reached(cfg, t, actions), UnaskedSince(cfg, Spawn(Load(t).value, t), actions);
      && Drained(s)
      && (s.audit.lost == [] <==> !unasked)
      && ((forall op :: op in s.audit.accepted ==> op in s.tables.events) <==> !unasked)
      && (!unasked && !s.audit.stale ==> Load(s.tables).Success? && Load(s.tables).value.view == s.store.view)
  {
    hide SysInv, UnaskedSince;
    var s := Reached(cfg, t, actions);
    SpawnIsOk(cfg, t);
    ReachedIsOk(cfg, t, actions);
    ExcessOfRun(cfg, Spawn(Load(t).value, t), actions);
    AckedMeansDrained(cfg, s);
    JournaledIffNotLost(cfg, s);
  }

  lemma {:induction false} JournaledIffNotLost(cfg: Config, s: Sys)
    requires SysInv(cfg, s) && Drained(s)
    ensures s.audit.lost == [] <==> forall op :: op in s.audit.accepted ==> op in s.tables.events
  {
    forall op | op in s.audit.accepted ensures op in s.tables.events <==> op !in s.audit.lost {
      AcceptedIsSomewhere(cfg, s, op);
    }
    if s.audit.lost != [] {
      hide Load, LinkOk, AnnounceOk, StoreOk, NumbersOk, ContentOk, CoverOk, SettledOk;
      var op := s.audit.lost[0];
      LandedPrecedesPipe(CoreOf(s), op);
    }
  }

  // ---- a run in which the ack lies -----------------------------------------------------------------

  const FLUSH_ON_INSERT: Config := Config(Durable, true, 32, 64, 0, false)

  lemma {:induction false} BatchFailsOnArrival(draft: QsoDraft)
    ensures var s := RunSys(FLUSH_ON_INSERT, Spawn(EMPTY_STORE, EMPTY_TABLES),
                            [Mutate(CmdInsert(draft)), WorkerReceive, WorkerAppend(true)]);
      && Drained(s) && s.worker.Receiving? && s.reply.None? && s.tables == EMPTY_TABLES && 1 in s.store.view.records
      && s.loop.Sending? && s.loop.msg == FlushMsg && s.loop.purpose.ForDurableAck?
      && s.audit.lost == [s.loop.purpose.stored] && s.replies == []
  {
    var s0 := Spawn(EMPTY_STORE, EMPTY_TABLES);
    ThreeSteps(FLUSH_ON_INSERT, s0, Mutate(CmdInsert(draft)), WorkerReceive, WorkerAppend(true));
    var o := Exec(EMPTY_STORE, CmdInsert(draft));
    assert o.result == Success(StoredOp(1, OpInsert(draft.Materialize(1))));
    assert 1 in o.state.view.records;
    var s1 := Step(FLUSH_ON_INSERT, s0, Mutate(CmdInsert(draft)));
    assert s1.queue == [OpMsg(o.result.value)];
    var s2 := Step(FLUSH_ON_INSERT, s1, WorkerReceive);
    assert s2.buf == [o.result.value] && s2.queue == [] && s2.worker == Appending(None);
  }

  /** With an empty buffer the flush request succeeds. */
  lemma {:induction false} EmptyFlushSucceeds(s: Sys)
    requires Drained(s) && s.worker.Receiving? && s.reply.None?
    requires s.loop.Sending? && s.loop.msg == FlushMsg && s.loop.purpose.ForDurableAck?
    ensures var t := RunSys(FLUSH_ON_INSERT, s, [LoopSend, WorkerReceive, WorkerAppend(false)]);
      && t.loop == Awaiting(s.loop.purpose) && t.reply == Some(Success(s.lastDurable))
      && t.audit == s.audit && t.tables == s.tables && t.store == s.store && t.replies == s.replies
  {
    ThreeSteps(FLUSH_ON_INSERT, s, LoopSend, WorkerReceive, WorkerAppend(false));
    hide RunSys, InsertRows;
    var t := Step(FLUSH_ON_INSERT, s, LoopSend);
    assert t == s.(queue := [FlushMsg], loop := Awaiting(s.loop.purpose));
    var u := Step(FLUSH_ON_INSERT, t, WorkerReceive);
    assert u == t.(queue := [], worker := Appending(Some(FlushMsg)));
  }

  /** An insert whose batch fails, and the flush that the insert waits for. */
  function FailOnArrival(draft: QsoDraft): seq<Action> {
    [Mutate(CmdInsert(draft)), WorkerReceive, WorkerAppend(true)] +
    ([LoopSend, WorkerReceive, WorkerAppend(false)] + [LoopReply])
  }

  /**
   * Such an ack: with flush-on-insert the op's own batch fails on arrival, the flush
   * that follows finds an empty buffer, and the insert is acked although the tables stay empty.
   */
  lemma {:induction false} DurableAckCanLie(draft: QsoDraft)
    ensures Load(EMPTY_TABLES).Success?
    ensures var s := Reached(FLUSH_ON_INSERT, EMPTY_TABLES, FailOnArrival(draft));
      && |s.replies| == 1 && s.replies[0].Acked? && s.replies[0].stored in s.audit.lost
      && s.tables == EMPTY_TABLES && 1 in s.store.view.records
  {
    hide RunSys;
    EmptyTablesAreLoadable();
    var first := [Mutate(CmdInsert(draft)), WorkerReceive, WorkerAppend(true)];
    var s0 := Spawn(EMPTY_STORE, EMPTY_TABLES);
    var s3 := RunSys(FLUSH_ON_INSERT, s0, first);
    BatchFailsOnArrival(draft);
    EmptyFlushSucceeds(s3);
    RunAppend(FLUSH_ON_INSERT, s0, first, [LoopSend, WorkerReceive, WorkerAppend(false)] + [LoopReply]);
    RunAppend(FLUSH_ON_INSERT, s3, [LoopSend, WorkerReceive, WorkerAppend(false)], [LoopReply]);
    OneStep(FLUSH_ON_INSERT, RunSys(FLUSH_ON_INSERT, s3, [LoopSend, WorkerReceive, WorkerAppend(false)]), LoopReply);
  }
}
