/**
 * The durability pipeline, stripped of phases and messages: accepted ops wait in `pipe` (worker
 * buffer, then queue), land in the tables, or are lost by a failed append. The invariant relates
 * live store, pipe and tables; each kind of step keeps it.
 */
module Pipeline {
  import opened Wrappers
  import opened Qso
  import opened Operation
  import opened StoreModel
  import opened History
  import opened Rejection
  import opened Journal
  import opened RuntimeModel

  datatype Core = Core(store: StoreState, pipe: seq<StoredOp>, tables: Tables, lastDurable: OpSeq, audit: Audit)

  /** Loading starts from a well-formed snapshot whose numbering the live store has not fallen behind. */
  ghost predicate StartOk(t: Tables, nextOpSeq: OpSeq) {
    && 0 < StartState(t).nextOpSeq <= nextOpSeq
    && Reachable(StartState(t))
    && (t.snapshots != [] ==> WellFormedSnapshot(t.snapshots[|t.snapshots| - 1].snapshot))
  }

  ghost predicate Below(ops: seq<StoredOp>, bound: OpSeq) {
    forall i :: 0 <= i < |ops| ==> ops[i].opSeq < bound
  }

  ghost predicate From(ops: seq<StoredOp>, low: OpSeq) {
    forall i :: 0 <= i < |ops| ==> low <= ops[i].opSeq
  }

  /** Journal, then pipe: strictly increasing numbers, all below the next one to hand out. */
  ghost predicate NumbersOk(c: Core) {
    && StartOk(c.tables, c.store.nextOpSeq)
    && Increasing(c.tables.events + c.pipe)
    && Below(c.tables.events, c.store.nextOpSeq)
    && Below(c.pipe, c.store.nextOpSeq)
    && From(c.pipe, StartState(c.tables).nextOpSeq)
    && From(c.pipe, c.lastDurable + 1)
    && c.lastDurable < c.store.nextOpSeq
  }

  /** The pipe holds the last accepted ops, in order. */
  ghost predicate AcceptedOk(c: Core) {
    && Increasing(c.audit.accepted)
    && Below(c.audit.accepted, c.store.nextOpSeq)
    && From(c.audit.accepted, StartState(c.tables).nextOpSeq)
    && |c.pipe| <= |c.audit.accepted|
    && c.audit.accepted == Landed(c) + c.pipe
  }

  /** The ops accepted before the newest snapshot are numbered below it. */
  ghost predicate SettledOk(c: Core) {
    && Increasing(c.audit.settled)
    && Below(c.audit.settled, StartState(c.tables).nextOpSeq)
    && (c.audit.settled != [] ==> c.tables.snapshots != [])
    && (!c.audit.drifted ==> Fold(c.audit.origin, c.audit.settled) == Success(c.audit.base))
  }

  /** Lost ops are accepted ones that left the pipe and never reached the journal. */
  ghost predicate LostOk(c: Core) {
    && Increasing(c.audit.lost)
    && forall op :: op in c.audit.lost ==> op in Landed(c) && op !in c.tables.events
  }

  /** Accepted ops that have left the pipe. */
  function Landed(c: Core): seq<StoredOp> {
    if |c.pipe| <= |c.audit.accepted| then c.audit.accepted[..|c.audit.accepted| - |c.pipe|] else []
  }

  /** What loading the tables would give is the store after the landed ops. */
  ghost predicate LoadsTo(t: Tables, base: View, landed: seq<StoredOp>) {
    Load(t).Success? && Fold(base, landed) == Success(Load(t).value.view)
  }

  ghost predicate ContentOk(c: Core) {
    !c.audit.stale ==>
      && Fold(c.audit.base, c.audit.accepted) == Success(c.store.view)
      && (c.audit.lost == [] ==> LoadsTo(c.tables, c.audit.base, Landed(c)))
  }

  /** In the journal, or numbered below the snapshot that loading starts from. */
  ghost predicate Covered(t: Tables, op: StoredOp) {
    op in t.events || (t.snapshots != [] && op.opSeq < StartState(t).nextOpSeq)
  }

  /** No accepted op is unaccounted for, and nothing but accepted ops was journaled since the start. */
  ghost predicate CoverOk(c: Core) {
    && (forall op :: op in c.audit.accepted ==> op in c.pipe || op in c.audit.lost || op in c.tables.events)
    && (forall e :: e in c.tables.events ==>
          e in c.audit.settled || e in c.audit.accepted || e in c.audit.initial)
  }

  ghost predicate StoreOk(s: StoreState) {
    Reachable(s) && s.pending == []
  }

  ghost predicate CoreInv(c: Core) {
    && StoreOk(c.store) && NumbersOk(c) && AcceptedOk(c) && SettledOk(c) && LostOk(c)
    && ContentOk(c) && CoverOk(c)
  }

  // ---- start ------------------------------------------------------------------------

  function Opened(store: StoreState, tables: Tables): Core {
    Core(store, [], tables, 0, Opening(store.view, tables.events))
  }

  /** Tables from which a runtime can be started: key order, and a sound newest snapshot. */
  ghost predicate Loadable(t: Tables) {
    && Load(t).Success?
    && Increasing(t.events)
    && StartState(t).nextOpSeq > 0
    && Reachable(StartState(t))
    && (t.snapshots != [] ==> WellFormedSnapshot(t.snapshots[|t.snapshots| - 1].snapshot))
  }

  lemma {:induction false} LoadIsReachable(t: Tables)
    requires Load(t).Success? && Reachable(StartState(t))
    ensures Reachable(Load(t).value)
  {
    LoadIsFold(t);
    FoldKeepsWellFormed(StartState(t).view, EventsAfter(t.events, LastSeq(StartState(t))));
  }

  lemma {:induction false} OpenedIsOk(t: Tables)
    requires Loadable(t)
    ensures CoreInv(Opened(Load(t).value, t))
  {
    hide Load, Reachable;
    var c := Opened(Load(t).value, t);
    LoadStartsAboveEvents(t);
    LoadIsReachable(t);
    assert t.events + [] == t.events;
    assert Landed(c) == [];
  }

  // ---- accept, fail, reject -----------------------------------------------------------

  function Accept(c: Core, cmd: Command): Core
    requires Exec(c.store, cmd).result.Success?
  {
    var stored := Exec(c.store, cmd).result.value;
    c.(store := ClearPending(Exec(c.store, cmd).state), pipe := c.pipe + [stored],
       audit := c.audit.(accepted := c.audit.accepted + [stored]))
  }

  lemma {:induction false} IncreasingAppend(ops: seq<StoredOp>, op: StoredOp)
    requires Increasing(ops) && Below(ops, op.opSeq)
    ensures Increasing(ops + [op])
  {
  }

  lemma {:induction false} AcceptedStore(s: StoreState, cmd: Command)
    requires StoreOk(s) && Exec(s, cmd).result.Success?
    ensures var o := Exec(s, cmd);
      && StoreOk(ClearPending(o.state))
      && o.state.nextOpSeq == s.nextOpSeq + 1 && o.result.value.opSeq == s.nextOpSeq
      && ApplyToView(s.view, o.result.value.op) == Success(o.state.view)
  {
    ExecIsOneOp(s, cmd);
    ExecKeepsReachable(s, cmd);
  }

  lemma {:induction false} AcceptKeepsNumbers(c: Core, cmd: Command)
    requires StoreOk(c.store) && NumbersOk(c) && AcceptedOk(c) && Exec(c.store, cmd).result.Success?
    ensures NumbersOk(Accept(c, cmd)) && AcceptedOk(Accept(c, cmd))
    ensures Landed(Accept(c, cmd)) == Landed(c)
  {
    hide Exec, StoreOk, StartState;
    AcceptedStore(c.store, cmd);
    var c', stored := Accept(c, cmd), Exec(c.store, cmd).result.value;
    assert c'.tables.events + c'.pipe == (c.tables.events + c.pipe) + [stored];
    IncreasingAppend(c.tables.events + c.pipe, stored);
    IncreasingAppend(c.audit.accepted, stored);
    assert Landed(c') == Landed(c);
    assert Landed(c) + c.pipe + [stored] == Landed(c) + (c.pipe + [stored]);
  }

  lemma {:induction false} AcceptKeepsInv(c: Core, cmd: Command)
    requires CoreInv(c) && Exec(c.store, cmd).result.Success?
    ensures CoreInv(Accept(c, cmd))
  {
    hide Exec, StoreOk, NumbersOk, AcceptedOk, LoadsTo, Landed, Covered, ApplyToView;
    AcceptedStore(c.store, cmd);
    AcceptKeepsNumbers(c, cmd);
    var accepted, stored := c.audit.accepted, Exec(c.store, cmd).result.value;
    assert (accepted + [stored])[..|accepted|] == accepted;
  }

  /** A command the store refuses changes at most the counters. */
  function Refuse(c: Core, cmd: Command): Core {
    c.(store := Exec(c.store, cmd).state)
  }

  lemma {:induction false} RefuseKeepsInv(c: Core, cmd: Command)
    requires CoreInv(c) && Exec(c.store, cmd).result.Failure?
    ensures CoreInv(Refuse(c, cmd))
  {
    hide Exec, Reachable, Covered, Load, StartState;
    ExecIsOneOp(c.store, cmd);
    ExecKeepsReachable(c.store, cmd);
    assert Landed(Refuse(c, cmd)) == Landed(c);
  }

  /** A mutation rejected by a full queue. */
  function Reject(c: Core, cmd: Command): Core
    requires Exec(c.store, cmd).result.Success?
  {
    var o := Exec(c.store, cmd);
    c.(store := Rollback(ClearPending(o.state), Checkpoint(c.store), o.result.value).state,
       audit := c.audit.(stale := c.audit.stale || Stale(c.store.view, o.result.value.op)))
  }

  /** With nothing pending, clearing the pending list before the rollback makes no difference. */
  lemma {:induction false} RollbackAfterClear(s: StoreState, cmd: Command)
    requires StoreOk(s) && Exec(s, cmd).result.Success?
    ensures var o := Exec(s, cmd);
      var r := Rollback(ClearPending(o.state), Checkpoint(s), o.result.value);
      r.result.Success? && StoreOk(r.state) && r.state.nextOpSeq == s.nextOpSeq
      && (!Stale(s.view, o.result.value.op) ==> r.state.view == s.view)
  {
    hide Exec, WellFormed, FreshIds;
    var o := Exec(s, cmd);
    RejectionRestoresViewIff(s, cmd);
    RejectedIsRevert(s, cmd);
    RejectedIsReachable(s, cmd);
    assert Truncate(o.state.pending, 0) == [] == Truncate([], 0);
  }

  lemma {:induction false} RejectedIsReachable(s: StoreState, cmd: Command)
    requires Reachable(s) && Exec(s, cmd).result.Success?
    ensures Reachable(Rejected(s, cmd).state)
  {
    hide Exec;
    var op := Exec(s, cmd).result.value.op;
    RejectionRestoresViewIff(s, cmd);
    if Stale(s.view, op) {
      ExecIsOneOp(s, cmd);
      RejectedIsRevert(s, cmd);
      var w := Rejected(s, cmd).state.view;
      assert w.order == s.view.order && w.records.Keys == s.view.records.Keys;
      assert forall id :: id in w.records ==> w.records[id].id == s.view.records[id].id;
      assert forall id :: id in w.order <==> id in s.view.records;
    }
  }

  lemma {:induction false} RejectKeepsInv(c: Core, cmd: Command)
    requires CoreInv(c) && Exec(c.store, cmd).result.Success?
    ensures CoreInv(Reject(c, cmd))
    ensures Reject(c, cmd).store.nextOpSeq == c.store.nextOpSeq
  {
    hide Exec, StoreOk, Rollback, Stale, Covered, Load, StartState;
    RollbackAfterClear(c.store, cmd);
    assert Landed(Reject(c, cmd)) == Landed(c);
  }

  // ---- land, lose -----------------------------------------------------------------------

  /** A successful append of the first `n` waiting ops. */
  function Land(c: Core, n: nat): Core
    requires n <= |c.pipe|
  {
    c.(tables := c.tables.(events := c.tables.events + c.pipe[..n]), pipe := c.pipe[n..],
       lastDurable := if n == 0 then c.lastDurable else Max(c.lastDurable, c.pipe[n - 1].opSeq))
  }

  lemma {:induction false} IncreasingSelection(all: seq<StoredOp>, m: nat, n: nat)
    requires Increasing(all) && m <= n <= |all|
    ensures Increasing(all[..n]) && Increasing(all[..m] + all[n..])
    ensures n > m ==> From(all[n..], all[n - 1].opSeq + 1)
  {
    var rest := all[..m] + all[n..];
    forall i, j | 0 <= i < j < |rest| ensures rest[i].opSeq < rest[j].opSeq {
      assert rest[i] == all[if i < m then i else i + n - m];
      assert rest[j] == all[if j < m then j else j + n - m];
    }
  }

  lemma {:induction false} SplitNumbers(events: seq<StoredOp>, pipe: seq<StoredOp>, n: nat)
    requires Increasing(events + pipe) && n <= |pipe|
    ensures Increasing(events + pipe[..n]) && Increasing(events + pipe[n..])
    ensures events + pipe[..n] + pipe[n..] == events + pipe
    ensures n > 0 ==> From(pipe[n..], pipe[n - 1].opSeq + 1)
  {
    hide Increasing;
    var all, m := events + pipe, |events|;
    IncreasingSelection(all, m, m + n);
    assert all[..m] == events && all[..m + n] == events + pipe[..n] && all[m + n..] == pipe[n..];
  }

  /** Taking the first `n` ops out of the pipe moves them to the landed ones. */
  lemma {:induction false} LandedAfter(c: Core, n: nat, c': Core)
    requires AcceptedOk(c) && n <= |c.pipe|
    requires c'.pipe == c.pipe[n..] && c'.store == c.store && c'.audit.accepted == c.audit.accepted
    requires c'.tables.snapshots == c.tables.snapshots
    ensures AcceptedOk(c') && Landed(c') == Landed(c) + c.pipe[..n]
  {
    assert c.pipe == c.pipe[..n] + c'.pipe;
    assert Landed(c) + (c.pipe[..n] + c'.pipe) == (Landed(c) + c.pipe[..n]) + c'.pipe;
  }

  lemma {:induction false} LandNumbers(c: Core, n: nat)
    requires NumbersOk(c) && AcceptedOk(c) && n <= |c.pipe|
    ensures NumbersOk(Land(c, n)) && AcceptedOk(Land(c, n))
    ensures Landed(Land(c, n)) == Landed(c) + c.pipe[..n]
    ensures InsertRows(c.tables.events, c.pipe[..n]) == Success(c.tables.events + c.pipe[..n])
  {
    hide Increasing, AcceptedOk, Landed, FromSnapshot, Lines;
    var c' := Land(c, n);
    SplitNumbers(c.tables.events, c.pipe, n);
    AppendAbove(c.tables.events, c.pipe[..n]);
    LandedAfter(c, n, c');
  }

  lemma {:induction false} LandContent(c: Core, n: nat)
    requires CoreInv(c) && n <= |c.pipe|
    ensures ContentOk(Land(c, n))
  {
    hide Load, StartState, StoreOk, CoverOk, NumbersOk, AcceptedOk, Landed, Fold, Increasing;
    LandNumbers(c, n);
    if !c.audit.stale && c.audit.lost == [] {
      LandLoads(c, n);
    }
  }

  /** Where landing the first `n` ops takes the load. */
  lemma {:induction false} LandLoads(c: Core, n: nat)
    requires NumbersOk(c) && AcceptedOk(c) && n <= |c.pipe|
    requires LoadsTo(c.tables, c.audit.base, Landed(c)) && Fold(c.audit.base, c.audit.accepted).Success?
    ensures LoadsTo(Land(c, n).tables, c.audit.base, Landed(c) + c.pipe[..n])
  {
    hide Load, StartState, Landed, Fold, Increasing;
    var batch := c.pipe[..n];
    assert c.pipe == batch + c.pipe[n..];
    assert Landed(c) + (batch + c.pipe[n..]) == (Landed(c) + batch) + c.pipe[n..];
    FoldAppend(c.audit.base, Landed(c) + batch, c.pipe[n..]);
    FoldAppend(c.audit.base, Landed(c), batch);
    LoadAfterAppend(c.tables, batch);
  }

  lemma {:induction false} LandKeepsInv(c: Core, n: nat)
    requires CoreInv(c) && n <= |c.pipe|
    ensures CoreInv(Land(c, n))
  {
    var c' := Land(c, n);
    LandNumbers(c, n);
    LandContent(c, n);
    LandCover(c, n);
    LandKeepsLost(c, n);
  }

  lemma {:induction false} LandCover(c: Core, n: nat)
    requires AcceptedOk(c) && CoverOk(c) && n <= |c.pipe|
    ensures CoverOk(Land(c, n))
  {
    hide Increasing, Below, Landed;
    var c' := Land(c, n);
    assert c.pipe == c.pipe[..n] + c'.pipe;
    forall op | op in c.audit.accepted ensures op in c'.pipe || op in c'.audit.lost || Covered(c'.tables, op) {
    }
    forall e | e in c'.tables.events ensures e in c.audit.settled || e in c.audit.accepted || e in c.audit.initial {
      if e in c.pipe[..n] { assert e in c.pipe; }
    }
  }

  lemma {:induction false} LandKeepsLost(c: Core, n: nat)
    requires NumbersOk(c) && AcceptedOk(c) && SettledOk(c) && LostOk(c) && n <= |c.pipe|
    ensures SettledOk(Land(c, n)) && LostOk(Land(c, n))
  {
    hide Fold, Landed, FromSnapshot;
    var c' := Land(c, n);
    LandNumbers(c, n);
    assert forall x :: x in c.pipe[..n] ==> x in c.pipe;
    forall op | op in c.audit.lost ensures op in Landed(c') && op !in c'.tables.events {
      LandedPrecedesPipe(c, op);
    }
  }

  /** What has left the pipe is numbered below what is in it. */
  lemma {:induction false} LandedPrecedesPipe(c: Core, op: StoredOp)
    requires AcceptedOk(c) && op in Landed(c)
    ensures op in c.audit.accepted && op !in c.pipe
    ensures forall x :: x in c.pipe ==> op.opSeq < x.opSeq
  {
    var d := |c.audit.accepted| - |c.pipe|;
    assert c.pipe == c.audit.accepted[d..];
    var i :| 0 <= i < d && c.audit.accepted[i] == op;
    forall x | x in c.pipe ensures op.opSeq < x.opSeq {
      var j :| 0 <= j < |c.pipe| && c.pipe[j] == x;
      assert c.audit.accepted[d + j] == x;
    }
  }

  /** A failed append drops the first `n` waiting ops. */
  function Lose(c: Core, n: nat): Core
    requires n <= |c.pipe|
  {
    c.(pipe := c.pipe[n..], audit := c.audit.(lost := c.audit.lost + c.pipe[..n]))
  }

  lemma {:induction false} LoseKeepsInv(c: Core, n: nat)
    requires CoreInv(c) && 0 < n <= |c.pipe|
    ensures CoreInv(Lose(c, n))
  {
    hide Load, Fold, Covered, Reachable, FromSnapshot, Increasing, AcceptedOk, LostOk, Landed;
    var c' := Lose(c, n);
    SplitNumbers(c.tables.events, c.pipe, n);
    LandedAfter(c, n, c');
    LoseKeepsLost(c, n);
    assert c.pipe == c.pipe[..n] + c'.pipe;
    assert |c'.audit.lost| > 0;
  }

  lemma {:induction false} LoseKeepsLost(c: Core, n: nat)
    requires NumbersOk(c) && AcceptedOk(c) && LostOk(c) && n <= |c.pipe|
    ensures LostOk(Lose(c, n))
  {
    hide StartOk, Landed;
    var c', batch := Lose(c, n), c.pipe[..n];
    LandedAfter(c, n, c');
    SplitNumbers(c.tables.events, c.pipe, n);
    forall op | op in c.audit.lost ensures forall x :: x in batch ==> op.opSeq < x.opSeq {
      LandedPrecedesPipe(c, op);
      assert forall x :: x in batch ==> x in c.pipe;
    }
    forall i, j | 0 <= i < j < |c'.audit.lost| ensures c'.audit.lost[i].opSeq < c'.audit.lost[j].opSeq {
      if i < |c.audit.lost| <= j {
        assert c.audit.lost[i] in c.audit.lost && batch[j - |c.audit.lost|] in batch;
      } else if |c.audit.lost| <= i {
        assert c.pipe[i - |c.audit.lost|].opSeq < c.pipe[j - |c.audit.lost|].opSeq by { PipeIncreases(c); }
      }
    }
    JournalPrecedesPipe(c.tables.events, batch);
  }

  lemma {:induction false} JournalPrecedesPipe(events: seq<StoredOp>, pipe: seq<StoredOp>)
    requires Increasing(events + pipe)
    ensures forall e, x :: e in events && x in pipe ==> e.opSeq < x.opSeq
  {
    var all, m := events + pipe, |events|;
    forall e, x | e in events && x in pipe ensures e.opSeq < x.opSeq {
      var i :| 0 <= i < m && events[i] == e;
      var j :| 0 <= j < |pipe| && pipe[j] == x;
      assert all[i] == e && all[m + j] == x;
    }
  }

  lemma {:induction false} PipeIncreases(c: Core)
    requires Increasing(c.tables.events + c.pipe)
    ensures Increasing(c.pipe)
  {
    var all, m := c.tables.events + c.pipe, |c.tables.events|;
    assert forall i :: 0 <= i < |c.pipe| ==> all[m + i] == c.pipe[i];
  }

  // ---- snapshot and compaction ------------------------------------------------------------

  /** With an empty pipe, a snapshot of the live store settles what was accepted and heals what was lost. */
  function Snap(c: Core): Core {
    c.(tables := WriteSnapshot(c.tables, Export(c.store), LastSeq(c.store)), audit := Settled(c.audit, c.store.view))
  }

  lemma {:induction false} SnapLoadsLive(c: Core)
    requires CoreInv(c) && c.pipe == []
    ensures Load(Snap(c).tables).Success? && Load(Snap(c).tables).value.view == c.store.view
  {
    LoadAfterSnapshot(c.tables, c.store, LastSeq(c.store));
  }

  lemma {:induction false} SnapKeepsInv(c: Core)
    requires CoreInv(c) && c.pipe == []
    ensures CoreInv(Snap(c))
    ensures Snap(c).audit.lost == Snap(c).audit.accepted == [] && !Snap(c).audit.stale
  {
    hide Load, Reachable, Export, FromSnapshot, Lines, Fold, Increasing, CoverOk, SettledOk;
    var c' := Snap(c);
    SnapLoadsLive(c);
    ReachableIsWellFormed(c.store);
    SnapshotRoundTrip(c.store);
    assert c.tables.events + [] == c.tables.events;
    assert Increasing([]) by { NoneIncreasing(); }
    FoldNothing(c.store.view);
    SnapSettles(c);
    SnapCovers(c);
  }

  lemma {:induction false} NoneIncreasing()
    ensures Increasing([])
  {
  }

  lemma {:induction false} FoldNothing(v: View)
    ensures Fold(v, []) == Success(v)
  {
  }

  lemma {:induction false} SettledThenAccepted(c: Core)
    requires AcceptedOk(c) && SettledOk(c)
    ensures Increasing(c.audit.settled + c.audit.accepted)
  {
    hide Fold, StartState, Landed;
    var settled := c.audit.settled;
    var all := settled + c.audit.accepted;
    forall i, j | 0 <= i < j < |all| ensures all[i].opSeq < all[j].opSeq {
      if i < |settled| <= j { assert all[i] == settled[i] && all[j] == c.audit.accepted[j - |settled|]; }
    }
  }

  /** The accepted ops join the settled ones, all of them numbered below the new snapshot. */
  lemma {:induction false} SnapSettles(c: Core)
    requires AcceptedOk(c) && SettledOk(c) && ContentOk(c) && StartOk(c.tables, c.store.nextOpSeq)
    requires WellFormed(c.store.view)
    ensures SettledOk(Snap(c))
  {
    hide Export, Landed, LoadsTo, WellFormed, FromSnapshot, Fold, Increasing;
    SnapshotRoundTrip(c.store);
    SettledThenAccepted(c);
    FoldAppend(c.audit.origin, c.audit.settled, c.audit.accepted);
  }

  lemma {:induction false} SnapCovers(c: Core)
    requires CoverOk(c)
    ensures CoverOk(Snap(c))
  {
    hide Export;
  }

  lemma {:induction false} ReachableIsWellFormed(s: StoreState)
    requires Reachable(s)
    ensures WellFormed(s.view) && Reachable(StoreState(s.view, [], [], [], s.nextOpSeq))
  {
  }

  /** Compaction through the newest snapshot's number. */
  function Compact(c: Core, through: OpSeq): Core {
    c.(tables := CompactThrough(c.tables, through))
  }

  lemma {:induction false} CompactKeepsInv(c: Core, through: OpSeq)
    requires CoreInv(c) && c.pipe == [] && through == LastSeq(StartState(c.tables))
    ensures CoreInv(Compact(c, through))
    ensures Load(Compact(c, through).tables) == Load(c.tables)
  {
    hide Load, Reachable, FromSnapshot, Lines, Increasing, Landed, EventsAfter, CoverOk, Fold;
    var c' := Compact(c, through);
    LoadAfterCompaction(c.tables, through);
    EventsAfterSelects(c.tables.events, through);
    assert c'.tables.events + [] == c'.tables.events && c.tables.events + [] == c.tables.events;
    forall i | 0 <= i < |c'.tables.events| ensures c'.tables.events[i].opSeq < c.store.nextOpSeq {
      assert c'.tables.events[i] in c.tables.events;
    }
    assert Landed(c') == Landed(c) by { SameLanded(c, c'); }
    CompactCover(c, through);
  }

  lemma {:induction false} SameLanded(c: Core, d: Core)
    requires c.pipe == d.pipe && c.audit.accepted == d.audit.accepted
    ensures Landed(c) == Landed(d)
  {
  }

  /** Ops accepted since the snapshot are numbered above it, so compaction leaves them alone. */
  lemma {:induction false} CompactCover(c: Core, through: OpSeq)
    requires CoverOk(c) && AcceptedOk(c) && StartState(c.tables).nextOpSeq > 0
    requires through == LastSeq(StartState(c.tables))
    ensures CoverOk(Compact(c, through))
  {
    hide Landed, Increasing, StartState;
    EventsAfterSelects(c.tables.events, through);
    forall op | op in c.audit.accepted ensures op.opSeq > through {
      var i :| 0 <= i < |c.audit.accepted| && c.audit.accepted[i] == op;
    }
  }

  // ---- a mutation waiting for its durable ack ------------------------------------------------

  /** The newest accepted op is the one in flight; without it the pipeline is back at `prior`. */
  ghost predicate Flight(c: Core, prior: StoreState, cmd: Command) {
    && StoreOk(prior)
    && Exec(prior, cmd).result.Success?
    && c.store == ClearPending(Exec(prior, cmd).state)
    && c.audit.accepted != []
    && c.audit.accepted[|c.audit.accepted| - 1] == Exec(prior, cmd).result.value
    && (c.pipe == [] || c.pipe == [Exec(prior, cmd).result.value])
    && StartOk(c.tables, prior.nextOpSeq)
    && (!c.audit.stale ==> Fold(c.audit.base, DropLast(c.audit.accepted)) == Success(prior.view))
  }

  /** The op in flight was in the batch that a failed append dropped. */
  ghost predicate Dropped(c: Core, prior: StoreState, stored: StoredOp) {
    && c.pipe == []
    && c.audit.lost != [] && c.audit.lost[|c.audit.lost| - 1] == stored
    && Below(c.tables.events, prior.nextOpSeq)
    && c.lastDurable < prior.nextOpSeq
    && (!c.audit.stale && DropLast(c.audit.lost) == [] ==>
          LoadsTo(c.tables, c.audit.base, DropLast(c.audit.accepted)))
  }

  lemma {:induction false} AcceptStartsFlight(c: Core, cmd: Command)
    requires CoreInv(c) && c.pipe == [] && Exec(c.store, cmd).result.Success?
    ensures Flight(Accept(c, cmd), c.store, cmd)
  {
    hide Exec, Reachable, StartState, Covered, Load;
    var stored := Exec(c.store, cmd).result.value;
    assert DropLast(c.audit.accepted + [stored]) == c.audit.accepted;
  }

  lemma {:induction false} LandKeepsFlight(c: Core, prior: StoreState, cmd: Command)
    requires Flight(c, prior, cmd)
    ensures Flight(Land(c, |c.pipe|), prior, cmd)
  {
    hide Exec, Reachable, Fold, FromSnapshot;
    assert StartState(Land(c, |c.pipe|).tables) == StartState(c.tables);
  }

  lemma {:induction false} LoseKeepsFlight(c: Core, prior: StoreState, cmd: Command)
    requires CoreInv(c) && Flight(c, prior, cmd) && c.pipe != []
    ensures Flight(Lose(c, |c.pipe|), prior, cmd)
    ensures Dropped(Lose(c, |c.pipe|), prior, Exec(prior, cmd).result.value)
  {
    hide Exec, Reachable, Fold, FromSnapshot, Load, Covered, StartOk;
    var stored := Exec(prior, cmd).result.value;
    AcceptedStore(prior, cmd);
    var all := c.tables.events + c.pipe;
    assert all[|c.tables.events|] == stored;
    assert forall i :: 0 <= i < |c.tables.events| ==> all[i] == c.tables.events[i];
    assert c.pipe[0] == stored;
    assert Landed(c) == DropLast(c.audit.accepted);
    assert DropLast(c.audit.lost + c.pipe) == c.audit.lost;
  }

  /** The rollback after a flush that failed. */
  function Retract(c: Core, prior: StoreState, cmd: Command): Core
    requires Exec(prior, cmd).result.Success?
  {
    var stored := Exec(prior, cmd).result.value;
    c.(store := Rollback(c.store, Checkpoint(prior), stored).state,
       audit := c.audit.(accepted := DropLast(c.audit.accepted), lost := DropLast(c.audit.lost),
                         stale := c.audit.stale || Stale(prior.view, stored.op)))
  }

  /** Such a rollback leaves no trace: not in the store, not in the journal, not in what is lost. */
  lemma {:induction false} RetractKeepsInv(c: Core, prior: StoreState, cmd: Command)
    requires CoreInv(c) && Flight(c, prior, cmd) && Dropped(c, prior, Exec(prior, cmd).result.value)
    ensures CoreInv(Retract(c, prior, cmd))
    ensures Retract(c, prior, cmd).store.nextOpSeq == prior.nextOpSeq
  {
    hide Exec, StoreOk, Rollback, Stale, CoverOk, Load, StartState, Reachable, LostOk;
    var c' := Retract(c, prior, cmd);
    RollbackAfterClear(prior, cmd);
    AcceptedStore(prior, cmd);
    assert Landed(c') == DropLast(c.audit.accepted);
    assert c.audit.accepted == DropLast(c.audit.accepted) + [Exec(prior, cmd).result.value];
    assert Below(DropLast(c.audit.accepted), prior.nextOpSeq);
    assert c'.tables.events + [] == c.tables.events;
    RetractCover(c, prior, cmd);
    RetractKeepsLost(c, prior, cmd);
  }

  lemma {:induction false} RetractKeepsLost(c: Core, prior: StoreState, cmd: Command)
    requires AcceptedOk(c) && LostOk(c) && Flight(c, prior, cmd) && Dropped(c, prior, Exec(prior, cmd).result.value)
    ensures LostOk(Retract(c, prior, cmd))
  {
    hide Exec, Rollback, Stale, Reachable, StartOk, LoadsTo, ClearPending;
    var c', lost, accepted := Retract(c, prior, cmd), c.audit.lost, c.audit.accepted;
    assert Landed(c) == accepted && Landed(c') == DropLast(accepted);
    assert accepted == DropLast(accepted) + [Exec(prior, cmd).result.value];
    forall op | op in DropLast(lost) ensures op in DropLast(accepted) && op in lost {
      var i :| 0 <= i < |lost| - 1 && lost[i] == op;
      assert lost[i].opSeq < lost[|lost| - 1].opSeq;
      assert op in lost && op != accepted[|accepted| - 1];
    }
  }

  lemma {:induction false} RetractCover(c: Core, prior: StoreState, cmd: Command)
    requires AcceptedOk(c) && CoverOk(c) && Flight(c, prior, cmd) && Dropped(c, prior, Exec(prior, cmd).result.value)
    ensures CoverOk(Retract(c, prior, cmd))
  {
    hide Exec, Rollback, Stale, Reachable, StartOk, LoadsTo, Covered;
    var c', stored := Retract(c, prior, cmd), Exec(prior, cmd).result.value;
    AcceptedStore(prior, cmd);
    var accepted, lost := c.audit.accepted, c.audit.lost;
    assert accepted == DropLast(accepted) + [stored];
    assert lost == DropLast(lost) + [stored];
    forall op | op in DropLast(accepted) ensures op != stored && op in accepted {
      var i :| 0 <= i < |accepted| - 1 && accepted[i] == op;
      assert accepted[i].opSeq < accepted[|accepted| - 1].opSeq;
    }
    forall e | e in c.tables.events ensures e != stored {
      var i :| 0 <= i < |c.tables.events| && c.tables.events[i] == e;
    }
  }
}
