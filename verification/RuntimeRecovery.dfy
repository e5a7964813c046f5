/**
 * Restarts that fail (src/persist/sqlite.rs:59-72): a dropped batch can leave a journal that no
 * longer loads, and then nothing can be reopened.
 */
module RuntimeRecovery {
  import opened Wrappers
  import opened Qso
  import opened Operation
  import opened StoreModel
  import opened History
  import opened Journal
  import opened Loading
  import opened RuntimeModel
  import opened Pipeline
  import opened RuntimeProof
  import opened RuntimeTheorems

  /**
   * At any moment a crash can be recovered from if and only if the events after the newest snapshot
   * fit together; they do unless a batch was dropped or a rollback restored a wrong flag.
   */
  lemma {:induction false} RecoversIffFitting(cfg: Config, t: Tables, actions: seq<Action>)
    requires Loadable(t)
    ensures var s := Reached(cfg, t, actions);
      var fits := Fitting(StartState(s.tables).view, EventsAfter(s.tables.events, LastSeq(StartState(s.tables))));
      && (Step(cfg, s, Restart).loop.Idle? <==> fits)
      && (Step(cfg, s, Restart).loop.Down? <==> !fits)
      && (s.audit.lost == [] && !s.audit.stale ==> fits)
  {
    assert Load(t).Success?;
    hide SysInv, Load, Fitting, Step, Reached, StartState, Loadable;
    var s := Reached(cfg, t, actions);
    ReachedIsOk(cfg, t, actions);
    LoadsIffFitting(s.tables);
    RestartIsUpIffLoads(cfg, s);
    if s.audit.lost == [] && !s.audit.stale { LoadsWhenNothingLost(cfg, s); }
  }

  lemma {:induction false} RestartIsUpIffLoads(cfg: Config, s: Sys)
    ensures Step(cfg, s, Restart).loop.Idle? <==> Load(s.tables).Success?
    ensures Step(cfg, s, Restart).loop.Down? <==> Load(s.tables).Failure?
  {
    hide Load;
  }

  /** Nothing brings a runtime back up over such tables. */
  lemma {:induction false} DownForGood(cfg: Config, s: Sys, actions: seq<Action>)
    requires s.loop.Down? && s.worker.Done? && Load(s.tables).Failure?
    ensures var u := RunSys(cfg, s, actions); u.loop.Down? && u.worker.Done? && u.tables == s.tables
  {
    hide Load;
    if actions != [] { DownForGood(cfg, s, actions[..|actions| - 1]); }
  }

  const ONE_BY_ONE: Config := Config(InMemory, false, 1, 64, 0, false)

  /** An insert whose batch is dropped, then a patch of that record whose batch goes through. */
  function DropInsertKeepPatch(draft: QsoDraft, patch: QsoPatch): seq<Action> {
    [Mutate(CmdInsert(draft)), WorkerReceive, WorkerAppend(true)] +
    [Mutate(CmdPatch(1, patch)), WorkerReceive, WorkerAppend(false)]
  }

  /** With nothing waiting, a mutation is acked and its op waits alone. */
  lemma {:induction false} MutateAlone(s: Sys, cmd: Command)
    requires s.loop.Idle? && s.queue == [] && Exec(s.store, cmd).result.Success?
    ensures var o, t := Exec(s.store, cmd), Step(ONE_BY_ONE, s, Mutate(cmd));
      && t == s.(store := ClearPending(o.state), queue := [OpMsg(o.result.value)],
                 replies := s.replies + [Acked(o.result.value, cmd.CmdInsert?)],
                 opsSinceSnapshot := t.opsSinceSnapshot, audit := t.audit)
  {
    hide Exec;
  }

  /** A batch of one goes to an empty journal, or is dropped. */
  lemma {:induction false} ReceiveAlone(s: Sys, stored: StoredOp, fails: bool)
    requires s.queue == [OpMsg(stored)] && s.buf == [] && s.worker.Receiving? && s.tables == EMPTY_TABLES
    ensures var t := Step(ONE_BY_ONE, Step(ONE_BY_ONE, s, WorkerReceive), WorkerAppend(fails));
      && t.store == s.store && t.loop == s.loop && t.worker == s.worker && t.replies == s.replies
      && t.queue == [] && t.buf == [] && t.tables == Tables(if fails then [] else [stored], [])
  {
    hide Step;
    TakeAlone(s, stored);
    AppendAlone(Step(ONE_BY_ONE, s, WorkerReceive), stored, fails);
  }

  lemma {:induction false} TakeAlone(s: Sys, stored: StoredOp)
    requires s.queue == [OpMsg(stored)] && s.buf == [] && s.worker.Receiving?
    ensures Step(ONE_BY_ONE, s, WorkerReceive) == s.(queue := [], buf := [stored], worker := Appending(None))
  {
    assert s.queue[1..] == [] && s.buf + [stored] == [stored];
  }

  lemma {:induction false} AppendAlone(s: Sys, stored: StoredOp, fails: bool)
    requires s.queue == [] && s.buf == [stored] && s.worker == Appending(None) && s.tables == EMPTY_TABLES
    ensures var t := Step(ONE_BY_ONE, s, WorkerAppend(fails));
      && t.store == s.store && t.loop == s.loop && t.worker == Receiving && t.replies == s.replies
      && t.queue == [] && t.buf == [] && t.tables == Tables(if fails then [] else [stored], [])
  {
    assert InsertRows([], [stored]) == Success([stored]) by { OneRow(stored); }
    hide InsertRows;
  }

  lemma {:induction false} OneRow(stored: StoredOp)
    ensures InsertRows([], [stored]) == Success([stored])
  {
    assert [stored][..0] == [];
  }

  lemma {:induction false} PatchWithoutInsert(draft: QsoDraft, patch: QsoPatch)
    ensures var s := RunSys(ONE_BY_ONE, Spawn(EMPTY_STORE, EMPTY_TABLES), DropInsertKeepPatch(draft, patch));
      && |s.replies| == 2 && s.replies[0].Acked? && s.replies[1].Acked? && s.tables.snapshots == []
      && |s.tables.events| == 1 && s.tables.events[0].opSeq == 2
      && s.tables.events[0].op.OpPatch? && s.tables.events[0].op.id == 1
  {
    var cfg, s0 := ONE_BY_ONE, Spawn(EMPTY_STORE, EMPTY_TABLES);
    var first, second := [Mutate(CmdInsert(draft)), WorkerReceive, WorkerAppend(true)],
      [Mutate(CmdPatch(1, patch)), WorkerReceive, WorkerAppend(false)];
    RunAppend(cfg, s0, first, second);
    ThreeSteps(cfg, s0, Mutate(CmdInsert(draft)), WorkerReceive, WorkerAppend(true));
    hide Step, RunSys;
    var o := Exec(EMPTY_STORE, CmdInsert(draft));
    assert o.result.Success? && 1 in o.state.view.records && o.state.nextOpSeq == 2;
    MutateAlone(s0, CmdInsert(draft));
    ReceiveAlone(Step(cfg, s0, Mutate(CmdInsert(draft))), o.result.value, true);
    var s1 := RunSys(cfg, s0, first);
    ThreeSteps(cfg, s1, Mutate(CmdPatch(1, patch)), WorkerReceive, WorkerAppend(false));
    var rewrite := Exec(s1.store, CmdPatch(1, patch)).result;
    assert rewrite.Success? && rewrite.value.opSeq == 2 && rewrite.value.op.OpPatch? && rewrite.value.op.id == 1;
    MutateAlone(s1, CmdPatch(1, patch));
    ReceiveAlone(Step(cfg, s1, Mutate(CmdPatch(1, patch))), rewrite.value, false);
  }

  /**
   * Both mutations of this run were acked, the journal holds a patch of a record it does not hold,
   * and after a crash nothing can be reopened: neither once nor ever.
   */
  lemma {:induction false} DroppedInsertBricksJournal(draft: QsoDraft, patch: QsoPatch, later: seq<Action>)
    ensures Load(EMPTY_TABLES).Success?
    ensures var s := Reached(ONE_BY_ONE, EMPTY_TABLES, DropInsertKeepPatch(draft, patch));
      && |s.replies| == 2 && s.replies[0].Acked? && s.replies[1].Acked? && Load(s.tables) == Failure(MissingQso(1))
      && Step(ONE_BY_ONE, s, Restart).loop.Down?
      && RunSys(ONE_BY_ONE, Step(ONE_BY_ONE, s, Restart), later).loop.Down?
  {
    hide RunSys;
    EmptyTablesAreLoadable();
    PatchWithoutInsert(draft, patch);
    var s := Reached(ONE_BY_ONE, EMPTY_TABLES, DropInsertKeepPatch(draft, patch));
    assert s.tables.events[..0] == [];
    assert EventsAfter(s.tables.events, 0) == s.tables.events;
    assert ReplayAll(EMPTY_STORE, s.tables.events).result == Failure(MissingQso(1));
    DownForGood(ONE_BY_ONE, Step(ONE_BY_ONE, s, Restart), later);
  }
}
