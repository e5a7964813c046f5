/**
 * Every step of loop and worker keeps the system invariant (src/runtime/handle.rs:209-275, 417-903):
 * the pipeline invariant, and a protocol between the two about who waits for what.
 */
module RuntimeProof {
  import opened Wrappers
  import opened Qso
  import opened Operation
  import opened StoreModel
  import opened History
  import opened Rejection
  import opened Journal
  import opened RuntimeModel
  import opened Pipeline

  function CoreOf(s: Sys): Core {
    Core(s.store, s.buf + OpsOf(s.queue), s.tables, s.lastDurable, s.audit)
  }

  predicate OnlyOps(queue: seq<PersistMsg>) {
    forall i :: 0 <= i < |queue| ==> queue[i].OpMsg?
  }

  lemma {:induction false} OpsOfAppend(queue: seq<PersistMsg>, m: PersistMsg)
    ensures OpsOf(queue + [m]) == OpsOf(queue) + (if m.OpMsg? then [m.stored] else [])
  {
    assert (queue + [m])[..|queue|] == queue;
  }

  lemma {:induction false} OpsOfFront(queue: seq<PersistMsg>)
    requires queue != []
    ensures OpsOf(queue) == (if queue[0].OpMsg? then [queue[0].stored] else []) + OpsOf(queue[1..])
  {
    var n := |queue| - 1;
    if n > 0 {
      OpsOfFront(queue[..n]);
      assert queue[..n][1..] == queue[1..][..n - 1];
    }
  }

  // ---- the protocol ---------------------------------------------------------------

  /** The control message a purpose sends; checkpoints carry the store as it still is. */
  ghost predicate Fits(store: StoreState, m: PersistMsg, purpose: Purpose) {
    match purpose
    case ForFlush => m.FlushMsg?
    case ForDurableAck(_, _, _) => m.FlushMsg?
    case ForCheckpoint => m.CheckpointMsg? && m.snapshot == Export(store) && m.lastSeq == LastSeq(store)
    case ForAutoCheckpoint(_) => m.CheckpointMsg? && m.snapshot == Export(store) && m.lastSeq == LastSeq(store)
    case ForShutdown => m.ShutdownMsg?
  }

  predicate ForSnapshot(p: Purpose) {
    p.ForCheckpoint? || p.ForAutoCheckpoint?
  }

  /** In durable mode only the mutation waiting for its ack may be in the pipe. */
  ghost predicate PurposeOk(cfg: Config, c: Core, p: Purpose) {
    if p.ForDurableAck? then
      && cfg.ackMode.Durable? && c.audit.inFlight.Some?
      && var f := c.audit.inFlight.value;
      && Flight(c, f.prior, f.cmd)
      && p.checkpoint == Checkpoint(f.prior)
      && p.stored == Exec(f.prior, f.cmd).result.value
    else
      c.audit.inFlight.None? && (cfg.ackMode.Durable? ==> c.pipe == [])
  }

  /** What the worker's answer guarantees. */
  ghost predicate ReplyOk(c: Core, p: Purpose, r: Result<OpSeq, PersistError>) {
    && c.pipe == []
    && (ForSnapshot(p) && r.Success? ==>
          c.audit.lost == [] && !c.audit.stale && Load(c.tables).Success? && Load(c.tables).value.view == c.store.view)
    && (p.ForDurableAck? && r.Failure? ==>
          c.audit.inFlight.Some? && Dropped(c, c.audit.inFlight.value.prior, p.stored))
  }

  /** The worker serves no request: it receives, or appends a batch of its own accord. */
  predicate Unengaged(s: Sys) {
    s.reply.None? && (s.worker.Receiving? || (s.worker == Appending(None) && s.buf != []))
  }

  ghost predicate Quiet(s: Sys) {
    OnlyOps(s.queue) && Unengaged(s)
  }

  ghost predicate Drained(s: Sys) {
    s.queue == [] && s.buf == []
  }

  /** The request is the last message in the queue. */
  ghost predicate RequestQueued(s: Sys, p: Purpose) {
    s.queue != [] && OnlyOps(s.queue[..|s.queue| - 1]) && Fits(s.store, s.queue[|s.queue| - 1], p)
  }

  ghost predicate Answered(s: Sys, p: Purpose)
    requires s.reply.Some?
  {
    Drained(s) && !p.ForShutdown? && ReplyOk(CoreOf(s), p, s.reply.value)
  }

  ghost predicate AwaitOk(s: Sys, p: Purpose) {
    match s.worker
    case Receiving => if s.reply.None? then RequestQueued(s, p) else Answered(s, p)
    case Appending(serving) =>
      && s.reply.None?
      && (if serving.None? then s.buf != [] && RequestQueued(s, p)
          else s.queue == [] && Fits(s.store, serving.value, p))
    case Snapshotting(snapshot, lastSeq, _) =>
      && Drained(s) && s.reply.None? && ForSnapshot(p)
      && snapshot == Export(s.store) && lastSeq == LastSeq(s.store)
    case Compacting(lastSeq) =>
      && Drained(s) && s.reply.None? && ForSnapshot(p)
      && s.tables.snapshots != [] && s.audit.lost == [] && !s.audit.stale
      && s.tables.snapshots[|s.tables.snapshots| - 1] == SnapshotRow(LastSeq(s.store), Export(s.store))
      && lastSeq == LastSeq(s.store)
      && Load(s.tables).Success? && Load(s.tables).value.view == s.store.view
    case Done => p.ForShutdown? && Drained(s) && s.reply.Some?
  }

  ghost predicate LinkOk(cfg: Config, s: Sys) {
    match s.loop
    case Idle => Quiet(s) && s.audit.inFlight.None? && (cfg.ackMode.Durable? ==> CoreOf(s).pipe == [])
    case Sending(m, p) => Quiet(s) && Fits(s.store, m, p) && PurposeOk(cfg, CoreOf(s), p)
    case Awaiting(p) => AwaitOk(s, p) && PurposeOk(cfg, CoreOf(s), p)
    case Stopped => s.worker.Done? && Drained(s) && s.reply.None?
    case Down => s.worker.Done? && Drained(s) && s.reply.None?
  }

  // ---- announcements ------------------------------------------------------------------

  function DurableValues(notices: seq<Notice>): seq<OpSeq> {
    if notices == [] then [] else
    var n := |notices| - 1;
    DurableValues(notices[..n]) + (if notices[n].DurableNotice? then [notices[n].upTo] else [])
  }

  ghost predicate Ascending(a: seq<OpSeq>) {
    forall i, j :: 0 <= i < j < |a| ==> a[i] < a[j]
  }

  /** The last value, or 0 when there is none. */
  function Newest(a: seq<OpSeq>): OpSeq {
    if a == [] then 0 else a[|a| - 1]
  }

  /**
   * One value for each landed batch, announced or on its way, ever greater; the worker's durable
   * number is the last of them, the loop's the last announced.
   */
  ghost predicate AnnounceOk(s: Sys) {
    && s.announced + DurableValues(s.notices) == s.landed
    && Ascending(s.landed)
    && s.lastDurable == Newest(s.landed)
    && s.health.lastDurableSeq == Newest(s.announced)
  }

  lemma {:induction false} DurableValuesFront(notices: seq<Notice>)
    requires notices != []
    ensures DurableValues(notices)
         == (if notices[0].DurableNotice? then [notices[0].upTo] else []) + DurableValues(notices[1..])
  {
    var n := |notices| - 1;
    if n > 0 {
      DurableValuesFront(notices[..n]);
      assert notices[..n][1..] == notices[1..][..n - 1];
    }
  }

  lemma {:induction false} AnnounceAfterNotice(s: Sys)
    requires AnnounceOk(s) && s.notices != []
    ensures AnnounceOk(HandleNotice(s))
  {
    hide DurableValues;
    DurableValuesFront(s.notices);
    var t, a := HandleNotice(s), s.announced;
    assert t.announced + DurableValues(t.notices) == s.landed;
    if s.notices[0].DurableNotice? {
      assert s.landed[|a|] == s.notices[0].upTo;
      assert a != [] ==> s.landed[|a| - 1] == a[|a| - 1];
    }
  }

  lemma {:induction false} DurableValuesAppend(notices: seq<Notice>, m: Notice)
    ensures DurableValues(notices + [m]) == DurableValues(notices) + (if m.DurableNotice? then [m.upTo] else [])
  {
    assert (notices + [m])[..|notices|] == notices;
  }

  lemma {:induction false} AnnounceAfterFlush(s: Sys, fails: bool)
    requires AnnounceOk(s) && CoreInv(CoreOf(s))
    ensures AnnounceOk(FlushBuf(s, fails).0)
  {
    hide InsertRows, DurableValues, StartOk, Increasing, StoreOk, AcceptedOk, SettledOk, LostOk, ContentOk, CoverOk;
    var (t, ok) := FlushBuf(s, fails);
    if s.buf != [] {
      var newest := s.buf[|s.buf| - 1].opSeq;
      assert CoreOf(s).pipe[|s.buf| - 1].opSeq == newest;
      assert newest > s.lastDurable;
      var m := if ok then DurableNotice(t.lastDurable) else FailureNotice;
      assert t.notices == s.notices + [m];
      DurableValuesAppend(s.notices, m);
      assert t.announced + DurableValues(t.notices) == s.landed + (if ok then [newest] else []);
    }
  }

  // ---- flush_buf ------------------------------------------------------------------------

  /** What the loop is told about a flush: nothing, the new durable number, or a failure. */
  function Told(s: Sys, fails: bool): seq<Notice> {
    if s.buf == [] then []
    else if fails then [FailureNotice]
    else [DurableNotice(Max(s.lastDurable, s.buf[|s.buf| - 1].opSeq))]
  }

  /**
   * A flush lands the whole buffer or loses it, and the loop is told which; the primary key never
   * gets in the way.
   */
  lemma {:induction false} FlushLandsOrLoses(s: Sys, fails: bool)
    requires CoreInv(CoreOf(s))
    ensures var (t, ok) := FlushBuf(s, fails);
      && t.buf == [] && t.queue == s.queue && t.store == s.store && t.worker == s.worker && t.loop == s.loop
      && t.reply == s.reply && t.audit.inFlight == s.audit.inFlight
      && (ok <==> s.buf == [] || !fails)
      && t.notices == s.notices + Told(s, fails)
      && t.audit.lost == s.audit.lost + (if ok then [] else s.buf)
      && CoreOf(t) == (if ok then Land(CoreOf(s), |s.buf|) else Lose(CoreOf(s), |s.buf|))
      && CoreInv(CoreOf(t))
  {
    hide StoreOk, ContentOk, CoverOk, AcceptedOk;
    var c, n := CoreOf(s), |s.buf|;
    var (t, ok) := FlushBuf(s, fails);
    assert c.pipe[..n] == s.buf && c.pipe[n..] == OpsOf(s.queue);
    assert OpsOf(s.queue) == [] + OpsOf(s.queue);
    LandNumbers(c, n);
    LandKeepsInv(c, n);
    if n > 0 {
      LoseKeepsInv(c, n);
    } else {
      assert c.tables.events + [] == c.tables.events && s.notices + [] == s.notices;
    }
    assert s.audit.lost + [] == s.audit.lost;
  }

  lemma {:induction false} CoreFields(s: Sys, t: Sys)
    requires s.store == t.store && s.buf == t.buf && s.queue == t.queue && s.tables == t.tables
    requires s.lastDurable == t.lastDurable && s.audit == t.audit
    ensures CoreOf(s) == CoreOf(t)
  {
  }

  ghost predicate SysInv(cfg: Config, s: Sys) {
    CoreInv(CoreOf(s)) && LinkOk(cfg, s) && AnnounceOk(s)
  }

  lemma {:induction false} SpawnIsOk(cfg: Config, t: Tables)
    requires Loadable(t)
    ensures SysInv(cfg, Spawn(Load(t).value, t))
  {
    hide Load, CoreInv;
    OpenedIsOk(t);
    assert CoreOf(Spawn(Load(t).value, t)) == Opened(Load(t).value, t);
  }

  // ---- steps of the loop -----------------------------------------------------------------

  lemma {:induction false} AfterAckIsOk(cfg: Config, s: Sys, stored: StoredOp, isInsert: bool)
    requires CoreInv(CoreOf(s)) && AnnounceOk(s) && Quiet(s) && s.audit.inFlight.None?
    requires cfg.ackMode.Durable? ==> CoreOf(s).pipe == []
    ensures SysInv(cfg, AfterAck(cfg, s, stored, isInsert))
  {
    hide CoreInv, AnnounceOk, Export;
    var t := AfterAck(cfg, s, stored, isInsert);
    assert AnnounceOk(t) by { SameAnnouncements(s, t); }
    CoreFields(s, AfterAck(cfg, s, stored, isInsert));
  }

  lemma {:induction false} MutationKeepsInv(cfg: Config, s: Sys, cmd: Command)
    requires SysInv(cfg, s) && s.loop.Idle?
    ensures SysInv(cfg, HandleMutation(cfg, s, cmd))
  {
    hide CoreInv, Exec, Rollback, Flight, Stale, AnnounceOk;
    var c, o, t := CoreOf(s), Exec(s.store, cmd), HandleMutation(cfg, s, cmd);
    assert AnnounceOk(t) by { SameAnnouncements(s, t); }
    if cfg.ackMode.Durable? && !s.health.isHealthy {
      CoreFields(s, t);
    } else if o.result.Failure? {
      RefuseKeepsInv(c, cmd);
      assert CoreOf(t) == Refuse(c, cmd);
    } else if |s.queue| >= cfg.persistQueueBound {
      RejectKeepsInv(c, cmd);
      assert CoreOf(t) == Reject(c, cmd);
    } else {
      AcceptedKeepsInv(cfg, s, cmd);
    }
  }

  /** The op went into the queue. */
  lemma {:induction false} AcceptedKeepsInv(cfg: Config, s: Sys, cmd: Command)
    requires SysInv(cfg, s) && s.loop.Idle? && Exec(s.store, cmd).result.Success?
    requires (cfg.ackMode.Durable? ==> s.health.isHealthy) && |s.queue| < cfg.persistQueueBound
    ensures SysInv(cfg, HandleMutation(cfg, s, cmd))
  {
    hide CoreInv, Exec, Rollback, Flight, Stale, AnnounceOk, AfterAck;
    var c, o, t := CoreOf(s), Exec(s.store, cmd), HandleMutation(cfg, s, cmd);
    var stored := o.result.value;
    AcceptKeepsInv(c, cmd);
    OpsOfAppend(s.queue, OpMsg(stored));
    var sent := s.(store := ClearPending(o.state), queue := s.queue + [OpMsg(stored)],
                   audit := s.audit.(accepted := s.audit.accepted + [stored]));
    assert s.buf + (OpsOf(s.queue) + [stored]) == s.buf + OpsOf(s.queue) + [stored];
    assert CoreOf(sent) == Accept(c, cmd);
    assert AnnounceOk(sent) by { SameAnnouncements(s, sent); }
    if cfg.ackMode.InMemory? {
      AfterAckIsOk(cfg, sent, stored, cmd.CmdInsert?);
    } else {
      AcceptStartsFlight(c, cmd);
      FlightStarts(cfg, s, cmd, sent);
    }
  }

  lemma {:induction false} FlightStarts(cfg: Config, s: Sys, cmd: Command, sent: Sys)
    requires Exec(s.store, cmd).result.Success? && cfg.ackMode.Durable?
    requires CoreInv(CoreOf(sent)) && Flight(CoreOf(sent), s.store, cmd) && Quiet(sent) && AnnounceOk(sent)
    ensures SysInv(cfg, sent.(
      loop := Sending(FlushMsg, ForDurableAck(Checkpoint(s.store), Exec(s.store, cmd).result.value, cmd.CmdInsert?)),
      audit := sent.audit.(inFlight := Some(InFlight(s.store, cmd)))))
  {
    hide CoreInv, Exec, Flight, AnnounceOk;
    var t := sent.(
      loop := Sending(FlushMsg, ForDurableAck(Checkpoint(s.store), Exec(s.store, cmd).result.value, cmd.CmdInsert?)),
      audit := sent.audit.(inFlight := Some(InFlight(s.store, cmd))));
    var c := CoreOf(sent);
    InFlightIsBookkeeping(c, Some(InFlight(s.store, cmd)), s.store, cmd);
    assert CoreOf(t) == c.(audit := c.audit.(inFlight := Some(InFlight(s.store, cmd))));
    assert AnnounceOk(t) by { SameAnnouncements(sent, t); }
  }

  lemma {:induction false} SameAnnouncements(s: Sys, t: Sys)
    requires AnnounceOk(s) && s.announced == t.announced && s.notices == t.notices && s.lastDurable == t.lastDurable
    requires s.landed == t.landed && s.health.lastDurableSeq == t.health.lastDurableSeq
    ensures AnnounceOk(t)
  {
  }

  /** The in-flight record is read by no other part of the invariant. */
  lemma {:induction false} InFlightIsBookkeeping(c: Core, f: Option<InFlight>, prior: StoreState, cmd: Command)
    ensures var d := c.(audit := c.audit.(inFlight := f));
      && (CoreInv(c) ==> CoreInv(d))
      && (Flight(c, prior, cmd) ==> Flight(d, prior, cmd))
  {
    hide StoreOk, Exec, StartState, Load, Covered, Increasing, Fold;
  }

  lemma {:induction false} ReplyKeepsInv(cfg: Config, s: Sys)
    requires SysInv(cfg, s) && s.loop.Awaiting? && s.reply.Some?
    ensures SysInv(cfg, HandleReply(cfg, s, s.loop.purpose, s.reply.value))
  {
    hide CoreInv, Exec, Rollback, Flight, Stale, AnnounceOk, Load, Dropped;
    var p, r := s.loop.purpose, s.reply.value;
    var c, t := CoreOf(s), HandleReply(cfg, s, p, r);
    assert AnnounceOk(t) by { SameAnnouncements(s, t); }
    if p.ForDurableAck? {
      var f := s.audit.inFlight.value;
      if r.Success? {
        var u := s.(reply := None, loop := Idle, audit := s.audit.(inFlight := None));
        InFlightIsBookkeeping(c, None, f.prior, f.cmd);
        assert CoreOf(u) == c.(audit := c.audit.(inFlight := None));
        assert AnnounceOk(u) by { SameAnnouncements(s, u); }
        AfterAckIsOk(cfg, u, p.stored, p.isInsert);
      } else {
        RetractKeepsInv(c, f.prior, f.cmd);
        assert Exec(f.prior, f.cmd).result.Success? by { FlightSucceeded(c, f.prior, f.cmd); }
        var d := Retract(c, f.prior, f.cmd);
        InFlightIsBookkeeping(d, None, f.prior, f.cmd);
        assert CoreOf(t) == d.(audit := d.audit.(inFlight := None));
      }
    } else {
      CoreFields(s, t);
    }
  }

  lemma {:induction false} FlightSucceeded(c: Core, prior: StoreState, cmd: Command)
    requires Flight(c, prior, cmd)
    ensures Exec(prior, cmd).result.Success?
  {
  }

  lemma {:induction false} SendKeepsInv(cfg: Config, s: Sys)
    requires SysInv(cfg, s) && s.loop.Sending?
    ensures SysInv(cfg, s.(queue := s.queue + [s.loop.msg], loop := Awaiting(s.loop.purpose)))
  {
    hide CoreInv, Flight, AnnounceOk, Load;
    var t := s.(queue := s.queue + [s.loop.msg], loop := Awaiting(s.loop.purpose));
    OpsOfAppend(s.queue, s.loop.msg);
    assert OpsOf(s.queue) + [] == OpsOf(s.queue);
    assert CoreOf(t) == CoreOf(s);
    assert t.queue[..|t.queue| - 1] == s.queue;
    assert AnnounceOk(t) by { SameAnnouncements(s, t); }
  }

  // ---- steps of the worker ------------------------------------------------------------------

  /** Who is in front of the queue: an op, or the control message as the last one. */
  lemma {:induction false} FrontOfQueue(cfg: Config, s: Sys)
    requires LinkOk(cfg, s) && s.worker.Receiving? && s.queue != []
    ensures s.reply.None?
    ensures !s.queue[0].OpMsg? ==>
      |s.queue| == 1 && s.loop.Awaiting? && Fits(s.store, s.queue[0], s.loop.purpose)
  {
    hide Export, PurposeOk, ReplyOk;
    assert |s.queue| > 1 ==> s.queue[..|s.queue| - 1][0] == s.queue[0];
  }

  /** The worker moves between receiving and appending of its own accord; a request in the queue stays last. */
  lemma {:induction false} LinkAfterBatch(cfg: Config, s: Sys, t: Sys)
    requires LinkOk(cfg, s) && Unengaged(s) && Unengaged(t)
    requires t.queue == s.queue || (s.queue != [] && s.queue[0].OpMsg? && t.queue == s.queue[1..])
    requires t.loop == s.loop && t.store == s.store && t.audit.inFlight == s.audit.inFlight
    requires forall p :: PurposeOk(cfg, CoreOf(s), p) ==> PurposeOk(cfg, CoreOf(t), p)
    requires CoreOf(s).pipe == [] ==> CoreOf(t).pipe == []
    ensures LinkOk(cfg, t)
  {
    hide Export, PurposeOk, ReplyOk, CoreOf;
    if t.queue != s.queue && s.loop.Awaiting? {
      var n := |s.queue| - 1;
      assert s.queue[n] == s.queue[n];
      if n > 0 { assert t.queue[..n - 1] == s.queue[..n][1..]; }
    }
  }

  lemma {:induction false} PurposeAfterFlush(cfg: Config, c: Core, n: nat, p: Purpose)
    requires CoreInv(c) && n <= |c.pipe| && PurposeOk(cfg, c, p)
    ensures PurposeOk(cfg, Land(c, n), p)
    ensures n > 0 ==> PurposeOk(cfg, Lose(c, n), p)
  {
    hide CoreInv, Exec, Flight;
    if n == 0 {
      assert c.tables.events + [] == c.tables.events;
      assert Land(c, 0) == c;
    } else if p.ForDurableAck? {
      var f := c.audit.inFlight.value;
      assert n == |c.pipe| by { FlightHasOne(c, f.prior, f.cmd); }
      LandKeepsFlight(c, f.prior, f.cmd);
      LoseKeepsFlight(c, f.prior, f.cmd);
    }
  }

  lemma {:induction false} FlightHasOne(c: Core, prior: StoreState, cmd: Command)
    requires Flight(c, prior, cmd)
    ensures |c.pipe| <= 1
  {
  }

  lemma {:induction false} OpKeepsInv(cfg: Config, s: Sys)
    requires SysInv(cfg, s) && s.worker.Receiving? && s.queue != [] && s.queue[0].OpMsg?
    ensures SysInv(cfg, HandleMessage(cfg, s)) && CoreOf(HandleMessage(cfg, s)) == CoreOf(s)
  {
    hide CoreInv, AnnounceOk, LinkOk, PurposeOk;
    FrontOfQueue(cfg, s);
    OpsOfFront(s.queue);
    var stored, u := s.queue[0].stored, HandleMessage(cfg, s);
    assert s.buf + ([stored] + OpsOf(u.queue)) == u.buf + OpsOf(u.queue);
    assert CoreOf(u) == CoreOf(s);
    assert AnnounceOk(u) by { SameAnnouncements(s, u); }
    LinkAfterBatch(cfg, s, u);
  }

  lemma {:induction false} DeadlineKeepsInv(cfg: Config, s: Sys)
    requires SysInv(cfg, s) && s.worker.Receiving? && s.buf != []
    ensures SysInv(cfg, s.(worker := Appending(None)))
  {
    hide CoreInv, AnnounceOk, LinkOk, PurposeOk;
    var t := s.(worker := Appending(None));
    DeadlineHasNoReply(cfg, s);
    CoreFields(s, t);
    assert AnnounceOk(t) by { SameAnnouncements(s, t); }
    LinkAfterBatch(cfg, s, t);
  }

  lemma {:induction false} DeadlineHasNoReply(cfg: Config, s: Sys)
    requires LinkOk(cfg, s) && s.worker.Receiving? && s.buf != []
    ensures s.reply.None?
  {
  }

  /** The worker takes a request; nothing else is left in the queue. */
  lemma {:induction false} RequestTaken(cfg: Config, s: Sys)
    requires SysInv(cfg, s) && s.worker.Receiving? && s.queue != [] && !s.queue[0].OpMsg?
    ensures SysInv(cfg, HandleMessage(cfg, s)) && CoreOf(HandleMessage(cfg, s)) == CoreOf(s)
  {
    hide CoreInv, AnnounceOk, PurposeOk, Export, ReplyOk;
    FrontOfQueue(cfg, s);
    OpsOfFront(s.queue);
    var t := HandleMessage(cfg, s);
    assert t.queue == [] && OpsOf(s.queue) == [] + OpsOf(t.queue);
    assert CoreOf(t) == CoreOf(s);
    assert AnnounceOk(t) by { SameAnnouncements(s, t); }
  }

  /** Who waits for an append under way. */
  lemma {:induction false} AppendServes(cfg: Config, s: Sys)
    requires LinkOk(cfg, s) && s.worker.Appending?
    ensures s.reply.None?
    ensures s.worker.serving.None? ==> Unengaged(s)
    ensures s.worker.serving.Some? ==>
      s.queue == [] && s.loop.Awaiting? && Fits(s.store, s.worker.serving.value, s.loop.purpose) &&
      PurposeOk(cfg, CoreOf(s), s.loop.purpose)
  {
    hide Export, PurposeOk, ReplyOk;
  }

  /** A batch appended on a threshold or at the deadline lands or is lost. */
  lemma {:induction false} BatchKeepsInv(cfg: Config, s: Sys, fails: bool)
    requires SysInv(cfg, s) && s.worker == Appending(None)
    ensures SysInv(cfg, HandleAppend(s, fails))
  {
    hide CoreInv, AnnounceOk, LinkOk, PurposeOk, FlushBuf;
    AppendServes(cfg, s);
    var r := s.(worker := Receiving);
    CoreFields(s, r);
    var (t, ok) := FlushBuf(r, fails);
    FlushLandsOrLoses(r, fails);
    assert AnnounceOk(r) by { SameAnnouncements(s, r); }
    AnnounceAfterFlush(r, fails);
    forall p | PurposeOk(cfg, CoreOf(s), p) ensures PurposeOk(cfg, CoreOf(t), p) {
      PurposeAfterFlush(cfg, CoreOf(s), |s.buf|, p);
    }
    LinkAfterBatch(cfg, s, t);
  }

  /** The append that a request asked for, and what the worker does with its outcome. */
  lemma {:induction false} ControlKeepsInv(cfg: Config, s: Sys, fails: bool)
    requires SysInv(cfg, s) && s.worker.Appending? && s.worker.serving.Some?
    ensures SysInv(cfg, HandleAppend(s, fails))
  {
    hide CoreInv, AnnounceOk, Exec, Load, Flight, Dropped, Export, FlushBuf;
    AppendServes(cfg, s);
    var r := s.(worker := Receiving);
    CoreFields(s, r);
    var (u, ok) := FlushBuf(r, fails);
    FlushLandsOrLoses(r, fails);
    assert AnnounceOk(r) by { SameAnnouncements(s, r); }
    AnnounceAfterFlush(r, fails);
    var final := HandleAppend(s, fails);
    assert AnnounceOk(final) by { SameAnnouncements(u, final); }
    assert CoreOf(final) == CoreOf(u);
    var p := s.loop.purpose;
    PurposeAfterFlush(cfg, CoreOf(s), |s.buf|, p);
    assert s.buf + [] == s.buf;
    if p.ForDurableAck? && !ok {
      var f := s.audit.inFlight.value;
      LoseKeepsFlight(CoreOf(s), f.prior, f.cmd);
    }
  }

  lemma {:induction false} SnapshotKeepsInv(cfg: Config, s: Sys, fails: bool)
    requires SysInv(cfg, s) && s.worker.Snapshotting?
    ensures SysInv(cfg, HandleSnapshot(s, fails))
  {
    hide CoreInv, AnnounceOk, Exec, Load, Flight, Dropped, Export;
    var t := HandleSnapshot(s, fails);
    assert AnnounceOk(t) by { SameAnnouncements(s, t); }
    if fails {
      CoreFields(s, t);
    } else {
      SnapKeepsInv(CoreOf(s));
      SnapLoadsLive(CoreOf(s));
      assert CoreOf(t) == Snap(CoreOf(s));
    }
  }

  lemma {:induction false} CompactStepKeepsInv(cfg: Config, s: Sys, fails: bool)
    requires SysInv(cfg, s) && s.worker.Compacting?
    ensures SysInv(cfg, HandleCompact(s, fails))
  {
    hide CoreInv, AnnounceOk, Exec, Load, Flight, Dropped, FileRecords, OrderedRecords;
    var t := HandleCompact(s, fails);
    assert AnnounceOk(t) by { SameAnnouncements(s, t); }
    if fails {
      CoreFields(s, t);
    } else {
      assert LastSeq(StartState(s.tables)) == LastSeq(s.store);
      CompactKeepsInv(CoreOf(s), s.worker.lastSeq);
      assert CoreOf(t) == Compact(CoreOf(s), s.worker.lastSeq);
    }
  }

  /** A crash at any moment: the tables load and a sound runtime starts, or it stays down. */
  lemma {:induction false} RestartIsOk(cfg: Config, s: Sys)
    requires CoreInv(CoreOf(s))
    ensures SysInv(cfg, CrashAndReopen(s))
    ensures Load(s.tables).Success? ==>
      CrashAndReopen(s).store == Load(s.tables).value && CrashAndReopen(s).tables == s.tables
    ensures Load(s.tables).Failure? ==>
      CrashAndReopen(s).loop.Down? && CrashAndReopen(s).audit.lost == s.audit.lost + CoreOf(s).pipe
  {
    hide Load, Reachable, Fold;
    if Load(s.tables).Success? {
      var c := CoreOf(s);
      var all := c.tables.events + c.pipe;
      assert forall i :: 0 <= i < |c.tables.events| ==> all[i] == c.tables.events[i];
      SpawnIsOk(cfg, s.tables);
    } else {
      CrashIsOk(cfg, s);
    }
  }

  /** Whatever was in the pipe is lost. */
  lemma {:induction false} CrashIsOk(cfg: Config, s: Sys)
    requires CoreInv(CoreOf(s))
    ensures SysInv(cfg, Crash(s))
  {
    hide CoreInv;
    var c, t := CoreOf(s), Crash(s);
    var n := |c.pipe|;
    assert c.pipe[..n] == c.pipe && c.pipe[n..] == [];
    assert c.audit.lost + [] == c.audit.lost;
    if n > 0 { LoseKeepsInv(c, n); }
    var d := if n > 0 then Lose(c, n) else c;
    InFlightIsBookkeeping(d, None, s.store, CmdUndo);
    var e := d.(audit := d.audit.(inFlight := None));
    assert CoreOf(t) == e.(lastDurable := 0);
    NothingDurable(e);
  }

  lemma {:induction false} NothingDurable(c: Core)
    requires CoreInv(c) && c.pipe == []
    ensures CoreInv(c.(lastDurable := 0))
  {
    hide StoreOk, StartOk, Increasing, Below, Landed, Fold, Load;
    assert Landed(c.(lastDurable := 0)) == Landed(c) by { SameLanded(c, c.(lastDurable := 0)); }
  }

  lemma {:induction false} StepKeepsInv(cfg: Config, s: Sys, a: Action)
    requires SysInv(cfg, s)
    ensures SysInv(cfg, Step(cfg, s, a))
  {
    hide CoreInv, AnnounceOk, Load, Flight, Dropped, PurposeOk, ReplyOk, HandleMutation, HandleReply, HandleMessage,
      HandleAppend, HandleSnapshot, HandleCompact, FlushBuf, HandleNotice, CrashAndReopen, AwaitOk, Quiet;
    if Enabled(cfg, s, a) {
      match a {
        case Mutate(cmd) => MutationKeepsInv(cfg, s, cmd);
        case ClientFlush => RequestKeepsInv(cfg, s, FlushMsg, ForFlush);
        case ClientCheckpoint =>
          var m := CheckpointMsg(Export(s.store), LastSeq(s.store), cfg.compactAfterSnapshot);
          RequestKeepsInv(cfg, s, m, ForCheckpoint);
        case ClientShutdown => RequestKeepsInv(cfg, s, ShutdownMsg, ForShutdown);
        case LoopSend => SendKeepsInv(cfg, s);
        case LoopReply => ReplyKeepsInv(cfg, s);
        case LoopNotice => NoticeKeepsInv(cfg, s);
        case WorkerReceive => if s.queue[0].OpMsg? { OpKeepsInv(cfg, s); } else { RequestTaken(cfg, s); }
        case WorkerDeadline => DeadlineKeepsInv(cfg, s);
        case WorkerAppend(fails) =>
          if s.worker.serving.None? { BatchKeepsInv(cfg, s, fails); } else { ControlKeepsInv(cfg, s, fails); }
        case WorkerSnapshot(fails) => SnapshotKeepsInv(cfg, s, fails);
        case WorkerCompact(fails) => CompactStepKeepsInv(cfg, s, fails);
        case Restart => RestartIsOk(cfg, s);
      }
    }
  }

  lemma {:induction false} NoticeKeepsInv(cfg: Config, s: Sys)
    requires SysInv(cfg, s) && s.loop.Idle? && s.notices != []
    ensures SysInv(cfg, HandleNotice(s))
  {
    hide CoreInv, AnnounceOk;
    AnnounceAfterNotice(s);
    CoreFields(s, HandleNotice(s));
  }

  /** A client request other than a mutation: the loop starts sending its control message. */
  lemma {:induction false} RequestKeepsInv(cfg: Config, s: Sys, m: PersistMsg, p: Purpose)
    requires SysInv(cfg, s) && s.loop.Idle? && Fits(s.store, m, p) && !p.ForDurableAck?
    ensures SysInv(cfg, s.(loop := Sending(m, p)))
  {
    hide CoreInv, AnnounceOk;
    var t := s.(loop := Sending(m, p));
    CoreFields(s, t);
    assert AnnounceOk(t) by { SameAnnouncements(s, t); }
  }

  lemma {:induction false} RunKeepsInv(cfg: Config, s: Sys, actions: seq<Action>)
    requires SysInv(cfg, s)
    ensures SysInv(cfg, RunSys(cfg, s, actions))
  {
    hide SysInv, Step;
    if actions != [] {
      RunKeepsInv(cfg, s, actions[..|actions| - 1]);
      StepKeepsInv(cfg, RunSys(cfg, s, actions[..|actions| - 1]), actions[|actions| - 1]);
    }
  }
}
