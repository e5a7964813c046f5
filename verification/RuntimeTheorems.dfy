/**
 * What whole runs of the runtime guarantee: crash consistency, unique sequence numbers, an account
 * of every accepted op, healing checkpoints and truthful durability announcements
 * (src/runtime/handle.rs, src/persist/sqlite.rs).
 */
module RuntimeTheorems {
  import opened Wrappers
  import opened Qso
  import opened Operation
  import opened StoreModel
  import opened History
  import opened UndoRedo
  import opened Rejection
  import opened Journal
  import opened RuntimeModel
  import opened Pipeline
  import opened RuntimeProof

  /** A run of the runtime opened on `t`. */
  function Reached(cfg: Config, t: Tables, actions: seq<Action>): Sys
    requires Load(t).Success?
  {
    RunSys(cfg, Spawn(Load(t).value, t), actions)
  }

  lemma {:induction false} ReachedIsOk(cfg: Config, t: Tables, actions: seq<Action>)
    requires Loadable(t)
    ensures SysInv(cfg, Reached(cfg, t, actions))
  {
    hide SysInv;
    SpawnIsOk(cfg, t);
    RunKeepsInv(cfg, Spawn(Load(t).value, t), actions);
  }

  lemma {:induction false} RunAppend(cfg: Config, s: Sys, a: seq<Action>, b: seq<Action>)
    ensures RunSys(cfg, s, a + b) == RunSys(cfg, RunSys(cfg, s, a), b)
  {
    hide Step;
    if b == [] {
      assert a + b == a;
    } else {
      assert (a + b)[..|a + b| - 1] == a + b[..|b| - 1];
      RunAppend(cfg, s, a, b[..|b| - 1]);
    }
  }

  lemma {:induction false} OneStep(cfg: Config, s: Sys, a: Action)
    ensures RunSys(cfg, s, [a]) == Step(cfg, s, a)
  {
    hide Step;
    assert [a][..0] == [];
  }

  lemma {:induction false} ThreeSteps(cfg: Config, s: Sys, a: Action, b: Action, c: Action)
    ensures RunSys(cfg, s, [a, b, c]) == Step(cfg, Step(cfg, Step(cfg, s, a), b), c)
  {
    hide Step;
    OneStep(cfg, s, a);
    assert [a, b, c][..2] == [a, b] && [a, b][..1] == [a];
  }

  lemma {:induction false} EmptyTablesAreLoadable()
    ensures Loadable(EMPTY_TABLES) && Load(EMPTY_TABLES) == Success(EMPTY_STORE)
  {
  }

  // ---- crash consistency ----------------------------------------------------------------

  /**
   * The tables load to the store after the first `d` ops accepted since the newest snapshot, or
   * since the start, and every op at or below an announced number is among them. Unless a wrong flag
   * fell before that snapshot, this is also where the ops since the start lead.
   */
  ghost predicate Survives(s: Sys, d: nat)
    requires Load(s.tables).Success?
  {
    && d <= |s.audit.accepted|
    && Fold(s.audit.base, s.audit.accepted[..d]) == Success(Load(s.tables).value.view)
    && (!s.audit.drifted ==>
          Fold(s.audit.origin, s.audit.settled + s.audit.accepted[..d]) == Success(Load(s.tables).value.view))
    && (forall i, j :: 0 <= j < |s.announced| && d <= i < |s.audit.accepted| ==>
          s.announced[j] < s.audit.accepted[i].opSeq)
  }

  /**
   * A crash now is harmless: the tables load, to the store after a prefix of the accepted ops, and
   * what is still in buffer and queue leads from there to exactly the live store.
   */
  ghost predicate CrashConsistent(s: Sys) {
    && Load(s.tables).Success?
    && (exists d :: Survives(s, d))
    && Fold(Load(s.tables).value.view, s.buf + OpsOf(s.queue)) == Success(s.store.view)
  }

  /** Consistency holds whenever nothing is lost at the moment, whatever failed and healed before. */
  lemma {:induction false} ConsistentWhenNothingLost(cfg: Config, s: Sys)
    requires SysInv(cfg, s) && s.audit.lost == [] && !s.audit.stale
    ensures CrashConsistent(s)
  {
    hide Load, StoreOk, StartOk, Increasing, CoverOk, LostOk, LinkOk, Fold, StartState, Below;
    var c := CoreOf(s);
    var d := |c.audit.accepted| - |c.pipe|;
    assert Landed(c) == c.audit.accepted[..d];
    FoldAppend(c.audit.base, Landed(c), c.pipe);
    FoldAppend(c.audit.origin, c.audit.settled, Landed(c));
    forall i, j | 0 <= j < |s.announced| && d <= i < |c.audit.accepted|
      ensures s.announced[j] < c.audit.accepted[i].opSeq
    {
      AnnouncedIsLow(s, j);
      assert c.pipe[i - d] == c.audit.accepted[i];
    }
    assert Survives(s, d);
  }

  lemma {:induction false} AnnouncedIsLow(s: Sys, j: nat)
    requires AnnounceOk(s) && j < |s.announced|
    ensures s.announced[j] <= s.lastDurable
  {
    assert s.landed[j] == s.announced[j];
  }

  predicate AppendFails(a: Action) {
    a.WorkerAppend? && a.appendFails
  }

  /** A full queue rejects the undo or redo of a void whose belief about the flag is wrong. */
  predicate RejectsStale(cfg: Config, s: Sys, a: Action) {
    && a.Mutate? && Enabled(cfg, s, a) && TopStale(s.store, a.cmd)
    && (cfg.ackMode.Durable? ==> s.health.isHealthy) && |s.queue| >= cfg.persistQueueBound
  }

  predicate CleanRun(cfg: Config, s: Sys, actions: seq<Action>) {
    if actions == [] then true else
    var n := |actions| - 1;
    && CleanRun(cfg, s, actions[..n])
    && !AppendFails(actions[n]) && !RejectsStale(cfg, RunSys(cfg, s, actions[..n]), actions[n])
  }

  lemma {:induction false} CleanStep(cfg: Config, s: Sys, a: Action)
    requires SysInv(cfg, s) && s.audit.lost == [] && !s.audit.stale
    requires !AppendFails(a) && !RejectsStale(cfg, s, a)
    ensures Step(cfg, s, a).audit.lost == [] && !Step(cfg, s, a).audit.stale
    ensures !s.audit.drifted ==> !Step(cfg, s, a).audit.drifted
  {
    hide CoreInv, AnnounceOk, LinkOk, HandleMutation, HandleReply, HandleAppend, FlushBuf, Load, Export;
    if Enabled(cfg, s, a) {
      match a {
        case Mutate(cmd) => CleanMutation(cfg, s, cmd);
        case LoopReply => CleanReply(cfg, s);
        case WorkerAppend(_) => CleanAppend(cfg, s);
        case Restart => LoadsWhenNothingLost(cfg, s);
        case _ =>
      }
    }
  }

  /** The audit's answer to whether anything is lost or stale, now or before the newest snapshot. */
  ghost predicate SameTroubles(a: Audit, b: Audit) {
    a.lost == b.lost && a.stale == b.stale && a.drifted == b.drifted
  }

  lemma {:induction false} CleanMutation(cfg: Config, s: Sys, cmd: Command)
    requires SysInv(cfg, s) && !s.audit.stale && s.loop.Idle? && !RejectsStale(cfg, s, Mutate(cmd))
    ensures SameTroubles(HandleMutation(cfg, s, cmd).audit, s.audit)
  {
    hide CoreInv, LinkOk, AnnounceOk, Exec, Rollback, Stale, TopStale, Checkpoint, Export;
    if Exec(s.store, cmd).result.Success? {
      EmittedIsStaleIffTopIs(s.store, cmd) by { CoreStoreOk(cfg, s); }
    }
  }

  lemma {:induction false} CleanReply(cfg: Config, s: Sys)
    requires SysInv(cfg, s) && s.audit.lost == [] && s.loop.Awaiting? && s.reply.Some?
    ensures SameTroubles(HandleReply(cfg, s, s.loop.purpose, s.reply.value).audit, s.audit)
  {
    hide CoreInv, LinkOk, AnnounceOk, Rollback, Stale, Export;
    if s.loop.purpose.ForDurableAck? && s.reply.value.Failure? { NoDropWhenClean(cfg, s); }
  }

  /** Tables can only fail to load after a loss, or after a rollback restored a wrong flag. */
  lemma {:induction false} LoadsWhenNothingLost(cfg: Config, s: Sys)
    requires SysInv(cfg, s) && s.audit.lost == [] && !s.audit.stale
    ensures Load(s.tables).Success?
  {
    hide Load, Landed, StoreOk, NumbersOk, AcceptedOk, SettledOk, LostOk, CoverOk, LinkOk, AnnounceOk;
  }

  lemma {:induction false} CoreStoreOk(cfg: Config, s: Sys)
    requires SysInv(cfg, s)
    ensures Reachable(s.store)
  {
  }

  lemma {:induction false} NoDropWhenClean(cfg: Config, s: Sys)
    requires SysInv(cfg, s) && s.loop.Awaiting? && s.loop.purpose.ForDurableAck?
    requires s.reply.Some? && s.reply.value.Failure?
    ensures s.audit.lost != []
  {
    hide CoreInv, AnnounceOk, Exec, Load, Flight, LoadsTo;
  }

  lemma {:induction false} CleanAppend(cfg: Config, s: Sys)
    requires SysInv(cfg, s) && s.worker.Appending?
    ensures HandleAppend(s, false).audit == s.audit
  {
    hide CoreInv, AnnounceOk, LinkOk, FlushBuf;
    CoreFields(s, s.(worker := Receiving));
    FlushLosesNothing(s.(worker := Receiving));
  }

  lemma {:induction false} FlushLosesNothing(s: Sys)
    requires CoreInv(CoreOf(s))
    ensures FlushBuf(s, false).0.audit == s.audit
  {
    hide CoreInv;
    FlushLandsOrLoses(s, false);
  }

  lemma {:induction false} CleanRunStaysClean(cfg: Config, s: Sys, actions: seq<Action>)
    requires SysInv(cfg, s) && s.audit.lost == [] && !s.audit.stale && CleanRun(cfg, s, actions)
    ensures RunSys(cfg, s, actions).audit.lost == [] && !RunSys(cfg, s, actions).audit.stale
    ensures !s.audit.drifted ==> !RunSys(cfg, s, actions).audit.drifted
  {
    hide SysInv, Step, RejectsStale;
    if actions != [] {
      var n := |actions| - 1;
      CleanRunStaysClean(cfg, s, actions[..n]);
      RunKeepsInv(cfg, s, actions[..n]);
      CleanStep(cfg, RunSys(cfg, s, actions[..n]), actions[n]);
    }
  }

  /**
   * Crash consistency of whole runs, in both ack modes: any interleaving of loop and worker,
   * batching, queue-full rejections of inserts, patches and voids, checkpoints failing or not,
   * compaction, restarts, and a crash at any point, including between snapshot and compaction.
   */
  lemma {:induction false} CleanRunsAreCrashConsistent(cfg: Config, t: Tables, actions: seq<Action>)
    requires Loadable(t) && CleanRun(cfg, Spawn(Load(t).value, t), actions)
    ensures CrashConsistent(Reached(cfg, t, actions)) && !Reached(cfg, t, actions).audit.drifted
    ensures (forall i :: 0 <= i < |actions| ==> !actions[i].Restart?) ==>
      Reached(cfg, t, actions).audit.origin == Load(t).value.view
  {
    hide SysInv, CrashConsistent;
    SpawnIsOk(cfg, t);
    CleanStepsKeepConsistency(cfg, Spawn(Load(t).value, t), actions);
    CleanRunStaysClean(cfg, Spawn(Load(t).value, t), actions);
    if forall i :: 0 <= i < |actions| ==> !actions[i].Restart? {
      OriginStays(cfg, Spawn(Load(t).value, t), actions);
    }
  }

  lemma {:induction false} OriginStays(cfg: Config, s: Sys, actions: seq<Action>)
    requires forall i :: 0 <= i < |actions| ==> !actions[i].Restart?
    ensures RunSys(cfg, s, actions).audit.origin == s.audit.origin
  {
    hide Step;
    if actions != [] {
      var n := |actions| - 1;
      OriginStays(cfg, s, actions[..n]);
      StepKeepsOrigin(cfg, RunSys(cfg, s, actions[..n]), actions[n]);
    }
  }

  lemma {:induction false} StepKeepsOrigin(cfg: Config, s: Sys, a: Action)
    requires !a.Restart?
    ensures Step(cfg, s, a).audit.origin == s.audit.origin
  {
    hide HandleMutation, HandleReply, FlushBuf, Export;
    if Enabled(cfg, s, a) {
      match a {
        case Mutate(cmd) => MutationKeepsOrigin(cfg, s, cmd);
        case LoopReply => ReplyKeepsOrigin(cfg, s);
        case WorkerAppend(fails) => FlushKeepsOrigin(s.(worker := Receiving), fails);
        case _ =>
      }
    }
  }

  lemma {:induction false} MutationKeepsOrigin(cfg: Config, s: Sys, cmd: Command)
    ensures HandleMutation(cfg, s, cmd).audit.origin == s.audit.origin
  {
    hide Exec, Rollback, Export, Checkpoint, Stale;
  }

  lemma {:induction false} ReplyKeepsOrigin(cfg: Config, s: Sys)
    requires s.loop.Awaiting? && s.reply.Some?
    ensures HandleReply(cfg, s, s.loop.purpose, s.reply.value).audit.origin == s.audit.origin
  {
    hide Rollback, Export, Stale;
  }

  lemma {:induction false} FlushKeepsOrigin(s: Sys, fails: bool)
    ensures FlushBuf(s, fails).0.audit.origin == s.audit.origin
  {
    hide InsertRows;
  }

  /** After a heal, and after any state without loss, clean steps keep crashes harmless until the next failure. */
  lemma {:induction false} CleanStepsKeepConsistency(cfg: Config, s: Sys, actions: seq<Action>)
    requires SysInv(cfg, s) && s.audit.lost == [] && !s.audit.stale && CleanRun(cfg, s, actions)
    ensures CrashConsistent(RunSys(cfg, s, actions))
  {
    hide SysInv, CrashConsistent;
    RunKeepsInv(cfg, s, actions);
    CleanRunStaysClean(cfg, s, actions);
    ConsistentWhenNothingLost(cfg, RunSys(cfg, s, actions));
  }

  /** With nothing waiting, the tables hold everything: in particular after a shutdown. */
  lemma {:induction false} DrainedMeansDurable(cfg: Config, s: Sys)
    requires SysInv(cfg, s) && Drained(s) && s.audit.lost == [] && !s.audit.stale
    ensures Load(s.tables).Success? && Load(s.tables).value.view == s.store.view
  {
    hide Load, LinkOk, AnnounceOk, CoverOk, NumbersOk, StoreOk, SettledOk, LostOk;
    assert Landed(CoreOf(s)) == s.audit.accepted;
  }

  lemma {:induction false} ShutdownLosesNothing(cfg: Config, t: Tables, actions: seq<Action>)
    requires Loadable(t) && CleanRun(cfg, Spawn(Load(t).value, t), actions)
    requires Reached(cfg, t, actions).loop.Stopped?
    ensures var s := Reached(cfg, t, actions);
      Load(s.tables).Success? && Load(s.tables).value.view == s.store.view
  {
    var s := Reached(cfg, t, actions);
    ReachedIsOk(cfg, t, actions);
    assert Drained(s) by { hide CoreInv, AnnounceOk; }
    hide SysInv;
    SpawnIsOk(cfg, t);
    CleanRunStaysClean(cfg, Spawn(Load(t).value, t), actions);
    DrainedMeansDurable(cfg, s);
  }

  // ---- sequence numbers --------------------------------------------------------------------

  /**
   * Journal, buffer and queue are strictly increasing and below the next number; whatever was
   * journaled since the start was accepted; and so an append meets no primary-key conflict, even
   * after dropped batches and across restarts.
   */
  lemma {:induction false} SequenceNumbersAreUnique(cfg: Config, t: Tables, actions: seq<Action>)
    requires Loadable(t)
    ensures var s := Reached(cfg, t, actions);
      && Increasing(s.tables.events + (s.buf + OpsOf(s.queue)))
      && Below(s.tables.events + (s.buf + OpsOf(s.queue)), s.store.nextOpSeq)
      && Increasing(s.audit.settled + s.audit.accepted)
      && (forall e :: e in s.tables.events ==> e in s.audit.settled + s.audit.accepted || e in s.audit.initial)
      && InsertRows(s.tables.events, s.buf).Success?
  {
    var s := Reached(cfg, t, actions);
    ReachedIsOk(cfg, t, actions);
    NumbersAreUnique(cfg, s);
  }

  lemma {:induction false} NumbersAreUnique(cfg: Config, s: Sys)
    requires SysInv(cfg, s)
    ensures Increasing(s.tables.events + (s.buf + OpsOf(s.queue)))
    ensures Below(s.tables.events + (s.buf + OpsOf(s.queue)), s.store.nextOpSeq)
    ensures Increasing(s.audit.settled + s.audit.accepted)
    ensures forall e :: e in s.tables.events ==> e in s.audit.settled + s.audit.accepted || e in s.audit.initial
    ensures InsertRows(s.tables.events, s.buf).Success?
  {
    hide Load, LinkOk, AnnounceOk, StoreOk, StartOk, StartState, ContentOk, LostOk, Fold, Increasing, AcceptedOk,
      SettledOk;
    var c := CoreOf(s);
    LandNumbers(c, |s.buf|);
    assert c.pipe[..|s.buf|] == s.buf;
    BelowBoth(c.tables.events, c.pipe, c.store.nextOpSeq);
    SettledThenAccepted(c);
  }

  lemma {:induction false} BelowBoth(a: seq<StoredOp>, b: seq<StoredOp>, bound: OpSeq)
    requires Below(a, bound) && Below(b, bound)
    ensures Below(a + b, bound)
  {
  }

  // ---- where an accepted op is ----------------------------------------------------------------

  /**
   * Conservation: an op accepted since the newest snapshot, or since the start, is in exactly one
   * place: waiting in buffer or queue, in the journal, or among those that failed appends dropped.
   */
  lemma {:induction false} EveryOpIsSomewhere(cfg: Config, t: Tables, actions: seq<Action>, op: StoredOp)
    requires Loadable(t) && op in Reached(cfg, t, actions).audit.accepted
    ensures var s := Reached(cfg, t, actions);
      var waiting, journaled, lost := op in s.buf + OpsOf(s.queue), op in s.tables.events, op in s.audit.lost;
      (waiting && !journaled && !lost) || (!waiting && journaled && !lost) || (!waiting && !journaled && lost)
  {
    ReachedIsOk(cfg, t, actions);
    AcceptedIsSomewhere(cfg, Reached(cfg, t, actions), op);
  }

  lemma {:induction false} AcceptedIsSomewhere(cfg: Config, s: Sys, op: StoredOp)
    requires SysInv(cfg, s) && op in s.audit.accepted
    ensures var waiting, journaled, lost := op in s.buf + OpsOf(s.queue), op in s.tables.events, op in s.audit.lost;
      (waiting && !journaled && !lost) || (!waiting && journaled && !lost) || (!waiting && !journaled && lost)
  {
    hide Load, LinkOk, AnnounceOk, StoreOk, StartOk, ContentOk, SettledOk, StartState, Landed, Fold;
    var c := CoreOf(s);
    if op in s.audit.lost { LandedPrecedesPipe(c, op); }
    JournalPrecedesPipe(c.tables.events, c.pipe);
  }

  // ---- checkpoints ------------------------------------------------------------------------

  /** A client's or an automatic checkpoint is about to be answered with Ok. */
  predicate CheckpointOk(s: Sys) {
    s.loop.Awaiting? && ForSnapshot(s.loop.purpose) && s.reply.Some? && s.reply.value.Success?
  }

  /**
   * A checkpoint that answers Ok heals: after any number of dropped batches and any rollbacks the
   * tables load to exactly the live store, and nothing counts as lost any more.
   */
  lemma {:induction false} CheckpointHeals(cfg: Config, t: Tables, actions: seq<Action>)
    requires Loadable(t) && CheckpointOk(Reached(cfg, t, actions))
    ensures var s := Reached(cfg, t, actions);
      && Load(s.tables).Success? && Load(s.tables).value.view == s.store.view
      && Drained(s) && s.audit.lost == [] && !s.audit.stale
  {
    hide SysInv;
    ReachedIsOk(cfg, t, actions);
    OkMeansHealed(cfg, Reached(cfg, t, actions));
  }

  lemma {:induction false} OkMeansHealed(cfg: Config, s: Sys)
    requires SysInv(cfg, s) && CheckpointOk(s)
    ensures Load(s.tables).Success? && Load(s.tables).value.view == s.store.view
    ensures Drained(s) && s.audit.lost == [] && !s.audit.stale
  {
    hide CoreInv, AnnounceOk, Load, PurposeOk;
  }

  /**
   * Any run, whatever failed in it, then a checkpoint that answers Ok, then clean steps: a crash is
   * harmless again.
   */
  lemma {:induction false} HealedRunsAreCrashConsistent(cfg: Config, t: Tables, before: seq<Action>, after: seq<Action>)
    requires Loadable(t) && CheckpointOk(Reached(cfg, t, before)) && CleanRun(cfg, Reached(cfg, t, before), after)
    ensures CrashConsistent(RunSys(cfg, Reached(cfg, t, before), after))
  {
    hide SysInv, CrashConsistent;
    ReachedIsOk(cfg, t, before);
    CheckpointHeals(cfg, t, before);
    CleanStepsKeepConsistency(cfg, Reached(cfg, t, before), after);
  }

  /** The crash window between writing a snapshot and compacting is safe: both load the live store. */
  lemma {:induction false} CrashBetweenSnapshotAndCompaction(cfg: Config, t: Tables, actions: seq<Action>)
    requires Loadable(t) && Reached(cfg, t, actions).worker.Compacting?
    ensures var s := Reached(cfg, t, actions);
      && Load(s.tables).Success? && Load(s.tables).value.view == s.store.view
      && Load(CompactThrough(s.tables, s.worker.lastSeq)) == Load(s.tables)
  {
    hide SysInv, Load, StartState;
    var s := Reached(cfg, t, actions);
    ReachedIsOk(cfg, t, actions);
    CompactingLoads(cfg, s);
    LoadAfterCompaction(s.tables, s.worker.lastSeq);
  }

  lemma {:induction false} CompactingLoads(cfg: Config, s: Sys)
    requires SysInv(cfg, s) && s.worker.Compacting?
    ensures Load(s.tables).Success? && Load(s.tables).value.view == s.store.view
    ensures s.worker.lastSeq == LastSeq(StartState(s.tables))
  {
    hide CoreInv, AnnounceOk, Load, PurposeOk, OrderedRecords, FileRecords;
  }

  // ---- announcements ----------------------------------------------------------------------------

  /**
   * What is announced as durable: one value for each batch that landed, in order and ever greater,
   * with the rest still on its way; and every accepted op numbered at or below an announced value is
   * in the journal or under the newest snapshot, unless a failed append dropped it.
   */
  lemma {:induction false} AnnouncementsAreTrue(cfg: Config, t: Tables, actions: seq<Action>)
    requires Loadable(t)
    ensures var s := Reached(cfg, t, actions);
      && Ascending(s.announced) && s.announced + DurableValues(s.notices) == s.landed
      && s.lastDurable == Newest(s.landed) && s.health.lastDurableSeq == Newest(s.announced)
      && forall op, i ::
           op in s.audit.settled + s.audit.accepted && 0 <= i < |s.announced| && op.opSeq <= s.announced[i] ==>
             op in s.audit.lost || Covered(s.tables, op)
  {
    ReachedIsOk(cfg, t, actions);
    AnnouncedIsCovered(cfg, Reached(cfg, t, actions));
  }

  lemma {:induction false} AnnouncedIsCovered(cfg: Config, s: Sys)
    requires SysInv(cfg, s)
    ensures Ascending(s.announced) && s.announced + DurableValues(s.notices) == s.landed
    ensures s.lastDurable == Newest(s.landed) && s.health.lastDurableSeq == Newest(s.announced)
    ensures forall op, i ::
      op in s.audit.settled + s.audit.accepted && 0 <= i < |s.announced| && op.opSeq <= s.announced[i] ==>
        op in s.audit.lost || Covered(s.tables, op)
  {
    hide Load, LinkOk, StoreOk, StartOk, ContentOk, AcceptedOk, LostOk, StartState, Fold, DurableValues;
    assert forall i :: 0 <= i < |s.announced| ==> s.landed[i] == s.announced[i];
    forall op, i | op in s.audit.settled + s.audit.accepted && 0 <= i < |s.announced| && op.opSeq <= s.announced[i]
      ensures op in s.audit.lost || Covered(s.tables, op)
    {
      AnnouncedIsLow(s, i);
      assert forall x :: x in CoreOf(s).pipe ==> s.lastDurable + 1 <= x.opSeq;
    }
  }

  /** A batch that lands is written down with the number of its last op. */
  lemma {:induction false} LandedBatchIsListed(s: Sys, fails: bool)
    requires CoreInv(CoreOf(s))
    ensures var t := FlushBuf(s, fails).0;
      t.landed == s.landed + (if s.buf == [] || fails then [] else [s.buf[|s.buf| - 1].opSeq])
  {
    hide CoreInv;
    FlushLandsOrLoses(s, fails);
    assert s.landed + [] == s.landed;
  }

  /** A durable notice makes the loop healthy and is announced, a failure notice makes it unhealthy. */
  lemma {:induction false} NoticeDecidesHealth(cfg: Config, s: Sys)
    requires s.loop.Idle? && s.notices != []
    ensures var t := Step(cfg, s, LoopNotice);
      && t.notices == s.notices[1..]
      && (t.health.isHealthy <==> s.notices[0].DurableNotice?)
      && t.announced == s.announced + (if s.notices[0].DurableNotice? then [s.notices[0].upTo] else [])
      && t.store == s.store && t.replies == s.replies && t.loop == s.loop
  {
    assert s.announced + [] == s.announced;
  }
}
