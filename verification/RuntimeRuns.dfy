/**
 * Whole runs of the objects (src/runtime/handle.rs:209-275): opened on a sink and driven through any
 * interleaving with any failures and crashes, they end where the step system does, and so crash
 * consistent.
 */
module RuntimeRuns {
  import opened Wrappers
  import opened StoreModel
  import opened Journal
  import opened RuntimeModel
  import opened Pipeline
  import opened RuntimeProof
  import opened RuntimeTheorems
  import opened Runtime
  import Store
  import Sqlite

  lemma {:induction false} NewestIsWellFormed(cfg: Config, s: Sys)
    requires SysInv(cfg, s)
    ensures s.tables.snapshots != [] ==> WellFormedSnapshot(s.tables.snapshots[|s.tables.snapshots| - 1].snapshot)
  {
  }

  /** A crash, and an attempt to start again over the same sink. */
  method CrashAndReopen(running: LoopAndWorker) returns (next: LoopAndWorker)
    requires running.Valid() && SysInv(running.cfg, running.Current())
    modifies running
    ensures next == running || (fresh(next) && fresh(next.store))
    ensures next.Valid() && next.cfg == running.cfg && next.sink == running.sink
    ensures next.Current() == RuntimeModel.CrashAndReopen(old(running.Current()))
  {
    hide SysInv, Load, Store.Consistent, WellFormedSnapshot, Spawn, RuntimeModel.Crash;
    NewestIsWellFormed(running.cfg, running.Current());
    var reopened := Reopen(running.cfg, running.sink);
    if reopened.Success? {
      next := reopened.value;
    } else {
      running.Crash();
      next := running;
    }
  }

  method RunActions(cfg: Config, sink: Sqlite.SqliteOpSink, actions: seq<Action>) returns (running: LoopAndWorker)
    requires Loadable(sink.CurrentTables())
    modifies sink
    ensures fresh(running) && running.Valid() && running.cfg == cfg && running.sink == sink
    ensures running.Current() == Reached(cfg, old(sink.CurrentTables()), actions)
    ensures SysInv(cfg, running.Current())
    ensures CleanRun(cfg, Spawn(Load(old(sink.CurrentTables())).value, old(sink.CurrentTables())), actions) ==>
      CrashConsistent(running.Current())
  {
    hide SysInv, Load, Store.Consistent, WellFormedSnapshot, Step, CleanRun, CrashConsistent, Enabled, Spawn;
    ghost var t := sink.CurrentTables();
    assert |sink.snapshots| > 0 ==> WellFormedSnapshot(sink.snapshots[|sink.snapshots| - 1].snapshot);
    SpawnIsOk(cfg, t);
    var loaded := Reopen(cfg, sink);
    running := loaded.value;
    for i := 0 to |actions|
      invariant fresh(running) && fresh(running.store) && running.Valid() && running.cfg == cfg && running.sink == sink
      invariant running.Current() == Reached(cfg, t, actions[..i])
      invariant SysInv(cfg, running.Current())
    {
      assert actions[..i + 1][..i] == actions[..i];
      StepKeepsInv(cfg, running.Current(), actions[i]);
      var enabled := running.IsEnabled(actions[i]);
      DisabledDoesNothing(cfg, running.Current(), actions[i]);
      if enabled {
        if actions[i].Restart? {
          running := CrashAndReopen(running);
        } else {
          running.TakeStep(actions[i]);
        }
      }
    }
    assert actions[..|actions|] == actions;
    if CleanRun(cfg, Spawn(Load(t).value, t), actions) { CleanRunsAreCrashConsistent(cfg, t, actions); }
  }

  lemma {:induction false} DisabledDoesNothing(cfg: Config, s: Sys, a: Action)
    ensures !Enabled(cfg, s, a) ==> Step(cfg, s, a) == s
    ensures a.Restart? ==> Step(cfg, s, a) == RuntimeModel.CrashAndReopen(s)
  {
  }
}
