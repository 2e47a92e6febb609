/** What every run of the engine keeps, whatever crashes and interleavings it contains. */
module EngineSafety {
  import opened Basics
  import opened Models
  import opened Engine
  import F = Fencing
  import TL = TaskLeases
  import RL = ResourceLeases
  import W = World

  // ---- The invariant ----

  /** An operation against its history: how often execute was called on it and whether a reconcile
      confirmed it. */
  predicate OpOk(op: Operation, calls: nat, confirmed: bool) {
    && calls <= 1
    && (op.state in {Prepared, Cancelled} ==> calls == 0)
    && (op.state !in {Verified, Failed} ==> op.evidence == [])
    && (op.state == Verified ==> (op.evidence != [] && AllPass(op.evidence)) || (op.evidence == [] && confirmed))
    && (op.state == Verifying ==> op.result.Some?)
  }

  ghost predicate OpsOk(s: System) {
    && (forall o :: o in s.store.ops ==> OpOk(s.store.ops[o], s.executed[o], o in s.confirmed))
    && (forall o :: o !in s.store.ops ==> s.executed[o] == 0)
  }

  function OpsOf(ops: map<Id, Operation>, task: Id): set<Id> { set o | o in ops && ops[o].taskId == task }

  ghost predicate BudgetOk(t: Task, ops: nat) {
    t.budget.started == ops && (t.budget.maxOperations >= 0 ==> ops <= t.budget.maxOperations)
  }

  ghost predicate BudgetsOk(s: System) {
    && (forall t :: t in s.store.tasks ==> BudgetOk(s.store.tasks[t], |OpsOf(s.store.ops, t)|))
    && (forall o :: o in s.store.ops ==> s.store.ops[o].taskId in s.store.tasks)
  }

  /** Between steps, memory is a copy of the store. */
  predicate MemoryOk(s: System) {
    s.process.Up? ==> s.process.tasks == s.store.tasks && s.process.ops == s.store.ops
  }

  predicate OpAt(s: System, o: Id, state: OpState) { o in s.store.ops && s.store.ops[o].state == state }

  predicate TodoOk(s: System, todo: seq<Id>) { forall i :: 0 <= i < |todo| ==> todo[i] in s.store.ops }

  predicate NextOk(s: System, next: Then) { next.ResumeRecovery? ==> TodoOk(s, next.todo) }

  /** The operation in flight is in the state its program point says. */
  predicate PcOk(s: System, pc: Pc) {
    match pc
    case Idle => true
    case Allowed(ctx) => ctx.taskId in s.store.tasks
    case Holding(ctx, _, _) => ctx.taskId in s.store.tasks
    case Ready(ctx, lease, o, _) => OpAt(s, o, Prepared) && s.store.ops[o] == NewOperation(ctx, lease)
    case Started(ctx, lease, o) =>
      OpAt(s, o, Running) && s.executed[o] == 0 && s.store.ops[o] == NewOperation(ctx, lease).(state := Running)
    case Called(o, _, _) => OpAt(s, o, Running)
    case Watched(o, _) => OpAt(s, o, Observed)
    case Checking(o, next) => OpAt(s, o, Verifying) && NextOk(s, next)
    case Judged(o, _, next) => OpAt(s, o, Verifying) && NextOk(s, next)
    case Leaving(_) => true
    case Recovering(todo) => TodoOk(s, todo)
    case Asking(o, todo) => OpAt(s, o, Reconciling) && TodoOk(s, todo)
    case Told(o, conclusion, todo) =>
      OpAt(s, o, Reconciling) && TodoOk(s, todo) && (conclusion.Concluded? && conclusion.ok ==> o in s.confirmed)
  }

  ghost predicate Inv(s: System) {
    && s.clock >= 0.0 && OpsOk(s) && BudgetsOk(s) && MemoryOk(s)
    && (s.process.Up? ==> PcOk(s, s.process.pc))
  }

  // ---- What one step may do ----

  /** The life cycle of an operation. VERIFIED, FAILED and CANCELLED have no successor. */
  predicate Succeeds(a: OpState, b: OpState) {
    match a
    case Prepared => b in {Running, Cancelled}
    case Running => b in {Observed, Unknown, Reconciling}
    case Observed => b in {Verifying, Unknown}
    case Verifying => b in {Verifying, Verified, Failed}
    case Unknown => b == Reconciling
    case Reconciling => b in {Reconciling, Unknown, Verified, Failed}
    case _ => false
  }

  /** A reconcile call on `o` has returned true and is about to be recorded. */
  predicate ToldTrue(s: System, o: Id) {
    s.process.Up? && s.process.pc.Told? && s.process.pc.op == o
    && s.process.pc.conclusion.Concluded? && s.process.pc.conclusion.ok
  }

  predicate ConfirmedBy(s: System, a: Action, o: Id) {
    s.process.Up? && s.process.pc.Asking? && s.process.pc.op == o
    && a.CallReconcile? && a.conclusion.Concluded? && a.conclusion.ok
  }

  predicate OpMove(s: System, o: Id, op: Operation, op': Operation) {
    || op' == op
    || (&& Succeeds(op.state, op'.state) && op'.taskId == op.taskId
        && (op.state == Reconciling && op'.state == Verified ==> ToldTrue(s, o))
        && (op'.state == Observed && op'.result.None? ==> GaveNothing(s)))
  }

  /** An execute call has returned None and is about to be recorded. */
  predicate GaveNothing(s: System) {
    s.process.Up? && s.process.pc.Called? && s.process.pc.outcome == Returned(None)
  }

  /** The resource lease that a step in progress still has to release. */
  function Held(pc: Pc): Option<ResourceLease> {
    match pc
    case Holding(_, lease, _) => lease
    case Ready(_, lease, _, _) => lease
    case Started(_, lease, _) => lease
    case Called(_, _, lease) => lease
    case Watched(_, lease) => lease
    case Checking(_, FinishStep(lease)) => lease
    case Judged(_, _, FinishStep(lease)) => lease
    case Leaving(lease) => lease
    case _ => None
  }

  ghost predicate ReleasedCleanly(rows: RL.Rows, rows': RL.Rows, l: ResourceLease) {
    && rows' - {l.taskId} == rows - {l.taskId}
    && forall at: Time :: at >= 0.0 ==> !F.Validates(RL.RowSlots(rows'), RL.ResourceIdentity(l), at)
  }

  /** Short of a crash, a held resource lease is kept, or given up by a clean release. */
  ghost predicate LeaseKept(s: System, a: Action, s': System) {
    s.process.Up? && Held(s.process.pc).Some? && !a.Crash? ==>
      && s'.process.Up?
      && (|| Held(s'.process.pc) == Held(s.process.pc)
          || (&& a.Leave? && s'.process.pc.Idle?
              && ReleasedCleanly(s.store.resources, s'.store.resources, Held(s.process.pc).value)))
  }

  ghost predicate Steady(s: System, s': System) {
    s'.config == s.config && s'.clock >= s.clock && forall o :: s.executed[o] <= s'.executed[o]
  }

  ghost predicate OpsMove(s: System, s': System) {
    && (forall o :: o in s.store.ops ==> o in s'.store.ops && OpMove(s, o, s.store.ops[o], s'.store.ops[o]))
    && (forall o :: o in s'.store.ops && o !in s.store.ops ==> s'.store.ops[o].state == Prepared)
  }

  ghost predicate Confirmations(s: System, a: Action, s': System) {
    && (GaveNothing(s') ==> GaveNothing(s) || a == CallExecute(Returned(None)))
    && forall o :: (o in s'.confirmed ==> o in s.confirmed || ConfirmedBy(s, a, o))
                && (ToldTrue(s', o) ==> ToldTrue(s, o) || ConfirmedBy(s, a, o))
  }

  ghost predicate ResourcesMove(s: System, s': System) {
    F.TableMove(RL.RowSlots(s.store.resources), RL.RowSlots(s'.store.resources), s'.clock)
  }

  /** How the program points of an agent step up to the effect are reached, and under which checks. */
  predicate Arrives(s: System, a: Action, s': System) {
    s'.process.Up? && !(s.process.Up? && s.process.pc == s'.process.pc) ==>
      match s'.process.pc
      case Allowed(c) => a == Admit(c) && Admissible(s, c)
      case Holding(c, lease, done) =>
        && s.process.Up?
        && (if done == 0 then s.process.pc == Allowed(c)
            else a == Check && done <= 2 && s.process.pc == Holding(c, lease, done - 1) && PrepareCheck(s, c, lease, done - 1))
      case Ready(c, lease, o, done) =>
        && s.process.Up?
        && (if done == 0 then a == Prepare(o) && s.process.pc == Holding(c, lease, 2) && BudgetLeft(s, c.taskId)
            else a == Check && done <= 2 && s.process.pc == Ready(c, lease, o, done - 1)
                 && ExecuteCheck(s, NewOperation(c, lease), done - 1))
      case Started(c, lease, o) =>
        s.process.Up? && a == Begin && s.process.pc == Ready(c, lease, o, 2) && MayBegin(s, NewOperation(c, lease))
      case _ => true
  }

  /** Everything a single step guarantees. */
  ghost predicate Good(s: System, a: Action, s': System) {
    && Inv(s') && Steady(s, s') && OpsMove(s, s') && Confirmations(s, a, s') && ResourcesMove(s, s')
    && LeaseKept(s, a, s') && Arrives(s, a, s')
  }

  // ---- Each step is good ----

  lemma SameRowsMove(rows: RL.Rows, ts: Time)
    ensures F.TableMove(RL.RowSlots(rows), RL.RowSlots(rows), ts)
  {
  }

  /** Steps that leave tasks and operations alone. */
  lemma QuietIsGood(s: System, a: Action, s': System)
    requires Inv(s) && s'.config == s.config && s'.clock >= s.clock && s'.executed == s.executed
    requires s'.store.tasks == s.store.tasks && s'.store.ops == s.store.ops
    requires MemoryOk(s') && (s'.process.Up? ==> PcOk(s', s'.process.pc))
    requires s'.confirmed == s.confirmed && forall o :: ToldTrue(s', o) ==> ToldTrue(s, o)
    requires GaveNothing(s') ==> GaveNothing(s)
    requires ResourcesMove(s, s') && LeaseKept(s, a, s') && Arrives(s, a, s')
    ensures Good(s, a, s')
  {
    hide ResourcesMove, LeaseKept, PcOk, Arrives;
  }

  /** Rewriting one operation in place keeps every count. */
  lemma SavedBudgets(s: System, o: Id, op: Operation, pc: Pc)
    requires s.process.Up? && BudgetsOk(s) && o in s.store.ops && op.taskId == s.store.ops[o].taskId
    ensures BudgetsOk(Saved(s, o, op, pc))
  {
    var s' := Saved(s, o, op, pc);
    forall t ensures OpsOf(s'.store.ops, t) == OpsOf(s.store.ops, t) {
    }
  }

  lemma SavedInv(s: System, o: Id, op: Operation, pc: Pc)
    requires Inv(s) && s.process.Up? && o in s.store.ops && op.taskId == s.store.ops[o].taskId
    requires OpOk(op, s.executed[o], o in s.confirmed) && PcOk(Saved(s, o, op, pc), pc)
    ensures Inv(Saved(s, o, op, pc))
  {
    hide PcOk, OpOk, BudgetsOk;
    SavedBudgets(s, o, op, pc);
  }

  lemma SavedMoves(s: System, o: Id, op: Operation, pc: Pc)
    requires s.process.Up? && o in s.store.ops && OpMove(s, o, s.store.ops[o], op)
    ensures OpsMove(s, Saved(s, o, op, pc)) && Steady(s, Saved(s, o, op, pc)) && ResourcesMove(s, Saved(s, o, op, pc))
  {
    hide Succeeds, ToldTrue;
    SameRowsMove(s.store.resources, s.clock);
  }

  lemma SavedKeepsLease(s: System, a: Action, o: Id, op: Operation, pc: Pc)
    requires s.process.Up? && !pc.Told? && !pc.Called? && Held(pc) == Held(s.process.pc)
    ensures LeaseKept(s, a, Saved(s, o, op, pc)) && Confirmations(s, a, Saved(s, o, op, pc))
  {
    hide Held, ReleasedCleanly;
  }

  /** Steps that rewrite one operation. */
  lemma SaveIsGood(s: System, a: Action, o: Id, op: Operation, pc: Pc)
    requires Inv(s) && s.process.Up? && o in s.store.ops && op.taskId == s.store.ops[o].taskId
    requires OpMove(s, o, s.store.ops[o], op) && OpOk(op, s.executed[o], o in s.confirmed)
    requires PcOk(Saved(s, o, op, pc), pc) && !pc.Told? && !pc.Called? && Held(pc) == Held(s.process.pc)
    requires Arrives(s, a, Saved(s, o, op, pc))
    ensures Good(s, a, Saved(s, o, op, pc))
  {
    hide Inv, PcOk, OpOk, OpMove, Held, Saved, OpsMove, Steady, ResourcesMove, LeaseKept, Confirmations, Arrives;
    SavedInv(s, o, op, pc);
    SavedMoves(s, o, op, pc);
    SavedKeepsLease(s, a, o, op, pc);
  }

  lemma PcFrame(s: System, s': System, pc: Pc)
    requires PcOk(s, pc) && s'.store.tasks == s.store.tasks && s'.store.ops == s.store.ops
    requires s'.executed == s.executed && s'.confirmed == s.confirmed
    ensures PcOk(s', pc)
  {
  }

  /** Steps that leave the process alone as well. */
  lemma OutsideIsGood(s: System, a: Action, s': System)
    requires Inv(s) && s'.config == s.config && s'.clock >= s.clock && s'.executed == s.executed
    requires s'.store.tasks == s.store.tasks && s'.store.ops == s.store.ops
    requires s'.confirmed == s.confirmed && s'.process == s.process && ResourcesMove(s, s')
    ensures Good(s, a, s')
  {
    hide PcOk, ResourcesMove;
    if s.process.Up? { PcFrame(s, s', s.process.pc); }
    hide OpsOk, BudgetsOk, Good;
    QuietIsGood(s, a, s');
  }

  lemma TickIsGood(s: System, ts: Time)
    requires Inv(s) && CanTick(s, ts)
    ensures Good(s, Tick(ts), s.(clock := ts))
  {
    SameRowsMove(s.store.resources, ts);
    hide Inv, Good, F.TableMove;
    OutsideIsGood(s, Tick(ts), s.(clock := ts));
  }

  lemma ChangeWorldIsGood(s: System, w: W.State)
    requires Inv(s)
    ensures Good(s, ChangeWorld(w), s.(world := w))
  {
    SameRowsMove(s.store.resources, s.clock);
    hide Inv, Good, F.TableMove;
    OutsideIsGood(s, ChangeWorld(w), s.(world := w));
  }

  lemma OtherTaskLeaseIsGood(s: System, rows: TL.LeaseRows)
    requires Inv(s)
    ensures Good(s, OtherTaskLease(rows), s.(store := s.store.(taskLeases := rows)))
  {
    SameRowsMove(s.store.resources, s.clock);
    hide Inv, Good, F.TableMove;
    OutsideIsGood(s, OtherTaskLease(rows), s.(store := s.store.(taskLeases := rows)));
  }

  lemma OtherResourceIsGood(s: System, rows: RL.Rows)
    requires Inv(s) && CanOtherResource(s, rows)
    ensures Good(s, OtherResource(rows), WithResources(s, rows))
  {
    hide Inv, Good, F.TableMove;
    OutsideIsGood(s, OtherResource(rows), WithResources(s, rows));
  }

  lemma CrashIsGood(s: System)
    requires Inv(s) && s.process.Up?
    ensures Good(s, Crash, s.(process := Down))
  {
    SameRowsMove(s.store.resources, s.clock);
    QuietIsGood(s, Crash, s.(process := Down));
  }

  lemma RestartIsGood(s: System)
    requires Inv(s) && s.process.Down?
    ensures Good(s, Restart, s.(process := Up(s.store.tasks, s.store.ops, Idle)))
  {
    SameRowsMove(s.store.resources, s.clock);
    QuietIsGood(s, Restart, s.(process := Up(s.store.tasks, s.store.ops, Idle)));
  }

  lemma WriteTaskInv(s: System, id: Id, task: Task)
    requires Inv(s) && s.process.Up? && BudgetOk(task, |OpsOf(s.store.ops, id)|)
    ensures Inv(WriteTask(s, id, task))
  {
    hide OpOk, BudgetOk;
  }

  lemma WriteTaskIsGood(s: System, a: Action, id: Id, task: Task)
    requires Inv(s) && s.process.Up? && BudgetOk(task, |OpsOf(s.store.ops, id)|)
    ensures Good(s, a, WriteTask(s, id, task))
  {
    WriteTaskInv(s, id, task);
    WriteTaskFrame(s, a, id, task);
    hide Inv, Steady, OpsMove, Confirmations, ResourcesMove, LeaseKept, Arrives, WriteTask;
  }

  lemma WriteTaskFrame(s: System, a: Action, id: Id, task: Task)
    requires s.process.Up?
    ensures var s' := WriteTask(s, id, task);
            && Steady(s, s') && OpsMove(s, s') && Confirmations(s, a, s') && ResourcesMove(s, s')
            && LeaseKept(s, a, s') && Arrives(s, a, s')
  {
    hide Held, ReleasedCleanly, Succeeds;
    SameRowsMove(s.store.resources, s.clock);
  }

  lemma CreateTaskIsGood(s: System, id: Id, task: Task)
    requires Inv(s) && CanCreateTask(s, id, task)
    ensures Good(s, CreateTask(id, task), WriteTask(s, id, task))
  {
    assert OpsOf(s.store.ops, id) == {};
    WriteTaskIsGood(s, CreateTask(id, task), id, task);
  }

  lemma SaveTaskIsGood(s: System, id: Id, task: Task)
    requires Inv(s) && CanSaveTask(s, id, task)
    ensures Good(s, SaveTask(id, task), WriteTask(s, id, task))
  {
    assert BudgetOk(s.store.tasks[id], |OpsOf(s.store.ops, id)|);
    WriteTaskIsGood(s, SaveTask(id, task), id, task);
  }

  /** Moves of the program point alone. */
  lemma GotoIsGood(s: System, a: Action, pc: Pc)
    requires Inv(s) && s.process.Up? && PcOk(s, pc) && !pc.Told? && !pc.Called?
    requires Held(s.process.pc).Some? ==> Held(pc) == Held(s.process.pc)
    requires Arrives(s, a, Goto(s, pc))
    ensures Good(s, a, Goto(s, pc))
  {
    SameRowsMove(s.store.resources, s.clock);
    assert PcOk(Goto(s, pc), pc);
    hide PcOk, F.TableMove, Arrives;
    QuietIsGood(s, a, Goto(s, pc));
  }

  lemma AdmitIsGood(s: System, ctx: Ctx)
    requires Inv(s) && CanAdmit(s, ctx)
    ensures Good(s, Admit(ctx), DoAdmit(s, ctx))
  {
    GotoIsGood(s, Admit(ctx), Allowed(ctx));
  }

  lemma GiveUpIsGood(s: System)
    requires Inv(s) && CanGiveUp(s)
    ensures Good(s, GiveUp, DoGiveUp(s))
  {
    GotoIsGood(s, GiveUp, Idle);
  }

  lemma CheckIsGood(s: System)
    requires Inv(s) && CanCheck(s)
    ensures Good(s, Check, DoCheck(s))
  {
    hide Good, PrepareCheck, ExecuteCheck, OpsOk, BudgetsOk;
    GotoIsGood(s, Check, s.process.pc.(done := s.process.pc.done + 1));
  }

  lemma AbandonIsGood(s: System)
    requires Inv(s) && CanAbandon(s)
    ensures Good(s, Abandon, DoAbandon(s))
  {
    hide Good, OpsOk, BudgetsOk;
    GotoIsGood(s, Abandon, Leaving(s.process.pc.lease));
  }

  lemma CallVerifyIsGood(s: System, verdict: Verdict)
    requires Inv(s) && CanCallVerify(s)
    ensures Good(s, CallVerify(verdict), DoCallVerify(s, verdict))
  {
    GotoIsGood(s, CallVerify(verdict), Judged(s.process.pc.op, verdict, s.process.pc.next));
  }

  lemma BeginRecoveryIsGood(s: System, todo: seq<Id>)
    requires Inv(s) && CanBeginRecovery(s, todo)
    ensures Good(s, BeginRecovery(todo), DoBeginRecovery(s, todo))
  {
    GotoIsGood(s, BeginRecovery(todo), Recovering(todo));
  }

  lemma EndRecoveryIsGood(s: System)
    requires Inv(s) && CanEndRecovery(s)
    ensures Good(s, EndRecovery, DoEndRecovery(s))
  {
    GotoIsGood(s, EndRecovery, Idle);
  }

  lemma AcquireIsGood(s: System, granted: Option<ResourceLease>)
    requires Inv(s) && CanAcquire(s, granted)
    ensures Good(s, Acquire(granted), DoAcquire(s, granted))
  {
    AcquireMoves(s, granted);
    hide MayAcquire, RowsWith, F.TableMove;
    QuietIsGood(s, Acquire(granted), DoAcquire(s, granted));
  }

  lemma AcquireMoves(s: System, granted: Option<ResourceLease>)
    requires CanAcquire(s, granted)
    ensures F.TableMove(RL.RowSlots(s.store.resources), RL.RowSlots(RowsWith(s.store.resources, granted)), s.clock)
  {
    var c := s.process.pc.ctx;
    if granted.Some? {
      RL.TableMovesSlots(s.store.resources, s.config.broker.value,
        RL.Acquire(c.taskId, c.taskLease.value.owner, c.spec.request, s.config.resourceSeconds), s.clock);
    } else {
      SameRowsMove(s.store.resources, s.clock);
    }
  }

  lemma LeaveIsGood(s: System)
    requires Inv(s) && CanLeave(s)
    ensures Good(s, Leave, DoLeave(s))
  {
    LeaveReleases(s.store.resources, s.process.pc.lease, s.clock);
    hide RowsWithout, F.TableMove, ReleasedCleanly;
    QuietIsGood(s, Leave, DoLeave(s));
  }

  lemma LeaveReleases(rows: RL.Rows, lease: Option<ResourceLease>, ts: Time)
    ensures F.TableMove(RL.RowSlots(rows), RL.RowSlots(RowsWithout(rows, lease)), ts)
    ensures lease.Some? ==> ReleasedCleanly(rows, RowsWithout(rows, lease), lease.value)
  {
    if lease.Some? {
      RL.TableMovesSlots(rows, Capacity(0, 0, 0), RL.Release(lease.value), ts);
    } else {
      SameRowsMove(rows, ts);
    }
  }

  lemma ChargeKeepsBudget(t: Task, n: nat, at: Time)
    requires BudgetOk(t, n) && BudgetBlock(t.budget, at).None?
    ensures BudgetOk(Engine.Charged(t), n + 1)
  {
  }

  lemma NewOpIsCounted(ops: map<Id, Operation>, o: Id, op: Operation, t: Id)
    requires o !in ops
    ensures |OpsOf(ops[o := op], t)| == |OpsOf(ops, t)| + (if t == op.taskId then 1 else 0)
  {
    assert OpsOf(ops[o := op], t) == if t == op.taskId then OpsOf(ops, t) + {o} else OpsOf(ops, t);
  }

  lemma PreparedBudgets(s: System, o: Id)
    requires BudgetsOk(s) && MemoryOk(s) && CanPrepare(s, o)
    ensures BudgetsOk(DoPrepare(s, o))
  {
    hide OpsOf, BudgetBlock;
    var s', pc := DoPrepare(s, o), s.process.pc;
    var op := NewOperation(pc.ctx, pc.lease);
    forall t | t in s'.store.tasks ensures BudgetOk(s'.store.tasks[t], |OpsOf(s'.store.ops, t)|) {
      assert BudgetOk(s.store.tasks[t], |OpsOf(s.store.ops, t)|);
      NewOpIsCounted(s.store.ops, o, op, t);
      if t == pc.ctx.taskId { ChargeKeepsBudget(s.store.tasks[t], |OpsOf(s.store.ops, t)|, s.clock); }
    }
  }

  lemma PreparedOps(s: System, o: Id)
    requires OpsOk(s) && CanPrepare(s, o)
    ensures OpsOk(DoPrepare(s, o)) && OpsMove(s, DoPrepare(s, o))
  {
    hide BudgetLeft;
    var s' := DoPrepare(s, o);
    assert s'.store.ops == s.store.ops[o := NewOperation(s.process.pc.ctx, s.process.pc.lease)];
    hide DoPrepare, CanPrepare;
  }

  lemma PreparedFrame(s: System, o: Id)
    requires MemoryOk(s) && CanPrepare(s, o)
    ensures var s' := DoPrepare(s, o);
            && Steady(s, s') && Confirmations(s, Prepare(o), s') && ResourcesMove(s, s') && LeaseKept(s, Prepare(o), s')
            && Arrives(s, Prepare(o), s') && MemoryOk(s') && PcOk(s', s'.process.pc) && s'.clock == s.clock
  {
    hide BudgetLeft, ReleasedCleanly;
    SameRowsMove(s.store.resources, s.clock);
  }

  lemma PrepareIsGood(s: System, o: Id)
    requires Inv(s) && CanPrepare(s, o)
    ensures Good(s, Prepare(o), DoPrepare(s, o))
  {
    PreparedBudgets(s, o);
    PreparedOps(s, o);
    PreparedFrame(s, o);
    hide CanPrepare, DoPrepare, OpsOk, BudgetsOk, MemoryOk, PcOk, Steady, OpsMove, Confirmations, ResourcesMove, LeaseKept, Arrives;
  }

  lemma CalledOps(s: System, s': System, o: Id)
    requires OpsOk(s) && s'.store.ops == s.store.ops && s'.confirmed == s.confirmed
    requires OpAt(s, o, Running) && s.executed[o] == 0 && s'.executed == s.executed + multiset{o}
    ensures OpsOk(s') && OpsMove(s, s')
  {
    forall p | p in s'.store.ops ensures OpOk(s'.store.ops[p], s'.executed[p], p in s'.confirmed) {
      assert OpOk(s.store.ops[p], s.executed[p], p in s.confirmed);
    }
  }

  lemma CallExecuteFrame(s: System, outcome: ExecOutcome)
    requires Inv(s) && CanCallExecute(s)
    ensures var s' := DoCallExecute(s, outcome);
            && Steady(s, s') && Confirmations(s, CallExecute(outcome), s') && ResourcesMove(s, s')
            && LeaseKept(s, CallExecute(outcome), s') && Arrives(s, CallExecute(outcome), s')
            && BudgetsOk(s') && MemoryOk(s') && PcOk(s', s'.process.pc)
  {
    hide OpsOk, ReleasedCleanly, BudgetOk;
    SameRowsMove(s.store.resources, s.clock);
  }

  lemma CallExecuteIsGood(s: System, outcome: ExecOutcome)
    requires Inv(s) && CanCallExecute(s)
    ensures Good(s, CallExecute(outcome), DoCallExecute(s, outcome))
  {
    hide OpsOk, BudgetsOk, MemoryOk, Steady, OpsMove, Confirmations, ResourcesMove, LeaseKept, Arrives;
    CallExecuteFrame(s, outcome);
    CalledOps(s, DoCallExecute(s, outcome), s.process.pc.op);
  }

  lemma ToldOps(s: System, s': System)
    requires OpsOk(s) && s'.store.ops == s.store.ops && s'.executed == s.executed && s.confirmed <= s'.confirmed
    ensures OpsOk(s') && OpsMove(s, s')
  {
    forall p | p in s'.store.ops ensures OpOk(s'.store.ops[p], s'.executed[p], p in s'.confirmed) {
      assert OpOk(s.store.ops[p], s.executed[p], p in s.confirmed);
    }
  }

  lemma CallReconcileFrame(s: System, c: Conclusion)
    requires Inv(s) && CanCallReconcile(s, c)
    ensures var s' := DoCallReconcile(s, c);
            && Steady(s, s') && Confirmations(s, CallReconcile(c), s') && ResourcesMove(s, s')
            && LeaseKept(s, CallReconcile(c), s') && Arrives(s, CallReconcile(c), s')
            && BudgetsOk(s') && MemoryOk(s') && PcOk(s', s'.process.pc)
  {
    hide OpsOk, ReleasedCleanly, BudgetOk, RefsAccessible;
    SameRowsMove(s.store.resources, s.clock);
  }

  lemma CallReconcileIsGood(s: System, c: Conclusion)
    requires Inv(s) && CanCallReconcile(s, c)
    ensures Good(s, CallReconcile(c), DoCallReconcile(s, c))
  {
    hide OpsOk, BudgetsOk, MemoryOk, PcOk, Steady, OpsMove, Confirmations, ResourcesMove, LeaseKept, Arrives;
    CallReconcileFrame(s, c);
    ToldOps(s, DoCallReconcile(s, c));
  }

  lemma BeginIsGood(s: System)
    requires Inv(s) && CanBegin(s)
    ensures Good(s, Begin, DoBegin(s))
  {
    hide Good, BudgetsOk;
    var pc := s.process.pc;
    assert OpOk(s.store.ops[pc.op], s.executed[pc.op], pc.op in s.confirmed);
    SaveIsGood(s, Begin, pc.op, s.process.ops[pc.op].(state := Running), Started(pc.ctx, pc.lease, pc.op));
  }

  lemma RecordOutcomeIsGood(s: System)
    requires Inv(s) && CanRecordOutcome(s)
    ensures Good(s, RecordOutcome, DoRecordOutcome(s))
  {
    hide Good, BudgetsOk;
    var pc := s.process.pc;
    assert OpOk(s.store.ops[pc.op], s.executed[pc.op], pc.op in s.confirmed);
    SaveIsGood(s, RecordOutcome, pc.op, AfterOutcome(s.process.ops[pc.op], pc.outcome),
               if pc.outcome.Returned? then Watched(pc.op, pc.lease) else Leaving(pc.lease));
  }

  lemma BeginVerifyIsGood(s: System)
    requires Inv(s) && CanBeginVerify(s)
    ensures Good(s, BeginVerify, DoBeginVerify(s))
  {
    hide Good, BudgetsOk;
    var pc := s.process.pc;
    var op := s.process.ops[pc.op];
    assert OpOk(s.store.ops[pc.op], s.executed[pc.op], pc.op in s.confirmed);
    if op.result.None? {
      SaveIsGood(s, BeginVerify, pc.op, op.(state := Unknown), Leaving(pc.lease));
    } else {
      SaveIsGood(s, BeginVerify, pc.op, op.(state := Verifying), Checking(pc.op, FinishStep(pc.lease)));
    }
  }

  lemma RecordVerdictIsGood(s: System)
    requires Inv(s) && CanRecordVerdict(s)
    ensures Good(s, RecordVerdict, DoRecordVerdict(s))
  {
    hide Good, BudgetsOk;
    var pc := s.process.pc;
    var op := s.store.ops[pc.op];
    assert OpOk(op, s.executed[pc.op], pc.op in s.confirmed) && op.evidence == [];
    if pc.verdict.Evidenced? { assert op.evidence + pc.verdict.evidence == pc.verdict.evidence; }
    assert OpOk(AfterVerdict(op, pc.verdict), s.executed[pc.op], pc.op in s.confirmed);
    SaveIsGood(s, RecordVerdict, pc.op, AfterVerdict(op, pc.verdict), Continue(pc.next));
  }

  lemma RecordReconcileIsGood(s: System)
    requires Inv(s) && CanRecordReconcile(s)
    ensures Good(s, RecordReconcile, DoRecordReconcile(s))
  {
    hide Good, BudgetsOk;
    var pc := s.process.pc;
    assert OpOk(s.store.ops[pc.op], s.executed[pc.op], pc.op in s.confirmed);
    assert OpOk(AfterConclusion(s.store.ops[pc.op], pc.conclusion), s.executed[pc.op], pc.op in s.confirmed);
    SaveIsGood(s, RecordReconcile, pc.op, AfterConclusion(s.store.ops[pc.op], pc.conclusion), Recovering(pc.todo));
  }

  lemma RecoverNextIsGood(s: System)
    requires Inv(s) && CanRecoverNext(s)
    ensures Good(s, RecoverNext, DoRecoverNext(s))
  {
    hide Good, BudgetsOk, OpsOk, TodoOk;
    var o, rest := s.process.pc.todo[0], s.process.pc.todo[1..];
    assert TodoOk(s, s.process.pc.todo);
    TodoRest(s, s.process.pc.todo);
    var op := s.process.ops[o];
    hide Inv, PcOk;
    if op.state == Prepared {
      RecoverCancelIsGood(s, o, rest);
    } else if op.state in {Observed, Verifying} && op.result.Some? {
      RecoverVerifyIsGood(s, o, rest);
    } else if op.state in {Running, Unknown, Reconciling} {
      RecoverReconcileIsGood(s, o, rest);
    } else {
      RecoverSkipIsGood(s, rest);
    }
  }

  lemma TodoRest(s: System, todo: seq<Id>)
    requires TodoOk(s, todo) && todo != []
    ensures todo[0] in s.store.ops && TodoOk(s, todo[1..])
  {
  }

  lemma SavedTodo(s: System, o: Id, op: Operation, pc: Pc, todo: seq<Id>)
    requires s.process.Up? && TodoOk(s, todo)
    ensures TodoOk(Saved(s, o, op, pc), todo)
  {
  }

  lemma RecoverSkipIsGood(s: System, rest: seq<Id>)
    requires Inv(s) && s.process.Up? && s.process.pc.Recovering? && TodoOk(s, rest)
    ensures Good(s, RecoverNext, Goto(s, Recovering(rest)))
  {
    hide Good, TodoOk;
    assert PcOk(s, Recovering(rest));
    GotoIsGood(s, RecoverNext, Recovering(rest));
  }

  /** The stored form of the operation that recovery looks at. */
  lemma InFlight(s: System, o: Id)
    requires Inv(s) && s.process.Up? && o in s.process.ops
    ensures o in s.store.ops && s.store.ops[o] == s.process.ops[o]
    ensures OpOk(s.store.ops[o], s.executed[o], o in s.confirmed)
  {
  }

  lemma RecoverCancelIsGood(s: System, o: Id, rest: seq<Id>)
    requires Inv(s) && s.process.Up? && s.process.pc.Recovering? && TodoOk(s, rest)
    requires o in s.process.ops && s.process.ops[o].state == Prepared
    ensures Good(s, RecoverNext, Saved(s, o, s.process.ops[o].(state := Cancelled), Recovering(rest)))
  {
    hide Good, Inv, TodoOk;
    InFlight(s, o);
    var op := s.process.ops[o].(state := Cancelled);
    SavedTodo(s, o, op, Recovering(rest), rest);
    SaveIsGood(s, RecoverNext, o, op, Recovering(rest));
  }

  lemma RecoverVerifyIsGood(s: System, o: Id, rest: seq<Id>)
    requires Inv(s) && s.process.Up? && s.process.pc.Recovering? && TodoOk(s, rest)
    requires o in s.process.ops && s.process.ops[o].state in {Observed, Verifying} && s.process.ops[o].result.Some?
    ensures Good(s, RecoverNext, Saved(s, o, s.process.ops[o].(state := Verifying), Checking(o, ResumeRecovery(rest))))
  {
    hide Good, Inv, TodoOk;
    InFlight(s, o);
    var op := s.process.ops[o].(state := Verifying);
    SavedTodo(s, o, op, Checking(o, ResumeRecovery(rest)), rest);
    SaveIsGood(s, RecoverNext, o, op, Checking(o, ResumeRecovery(rest)));
  }

  lemma RecoverReconcileIsGood(s: System, o: Id, rest: seq<Id>)
    requires Inv(s) && s.process.Up? && s.process.pc.Recovering? && TodoOk(s, rest)
    requires o in s.process.ops && s.process.ops[o].state in {Running, Unknown, Reconciling}
    ensures Good(s, RecoverNext, Saved(s, o, s.process.ops[o].(state := Reconciling), Asking(o, rest)))
  {
    hide Good, Inv, TodoOk;
    InFlight(s, o);
    var op := s.process.ops[o].(state := Reconciling);
    SavedTodo(s, o, op, Asking(o, rest), rest);
    SaveIsGood(s, RecoverNext, o, op, Asking(o, rest));
  }

  lemma StepIsGood(s: System, a: Action)
    requires Inv(s) && Enabled(s, a)
    ensures Good(s, a, Apply(s, a))
  {
    hide Good, Inv, CanTick, CanOtherTaskLease, CanOtherResource, WithResources, CanCreateTask, CanSaveTask, WriteTask,
         CanAdmit, DoAdmit, CanAcquire, DoAcquire, CanGiveUp, DoGiveUp, CanCheck, DoCheck, CanPrepare, DoPrepare,
         CanAbandon, DoAbandon, CanBegin, DoBegin, CanCallExecute, DoCallExecute, CanRecordOutcome, DoRecordOutcome,
         CanBeginVerify, DoBeginVerify, CanCallVerify, DoCallVerify, CanRecordVerdict, DoRecordVerdict, CanLeave, DoLeave,
         CanBeginRecovery, DoBeginRecovery, CanRecoverNext, DoRecoverNext, CanCallReconcile, DoCallReconcile,
         CanRecordReconcile, DoRecordReconcile, CanEndRecovery, DoEndRecovery;
    match a
    case Tick(ts) => TickIsGood(s, ts);
    case ChangeWorld(w) => ChangeWorldIsGood(s, w);
    case OtherTaskLease(rows) => OtherTaskLeaseIsGood(s, rows);
    case OtherResource(rows) => OtherResourceIsGood(s, rows);
    case Crash => CrashIsGood(s);
    case Restart => RestartIsGood(s);
    case CreateTask(id, task) => CreateTaskIsGood(s, id, task);
    case SaveTask(id, task) => SaveTaskIsGood(s, id, task);
    case Admit(ctx) => AdmitIsGood(s, ctx);
    case Acquire(granted) => AcquireIsGood(s, granted);
    case GiveUp => GiveUpIsGood(s);
    case Check => CheckIsGood(s);
    case Prepare(o) => PrepareIsGood(s, o);
    case Abandon => AbandonIsGood(s);
    case Begin => BeginIsGood(s);
    case CallExecute(outcome) => CallExecuteIsGood(s, outcome);
    case RecordOutcome => RecordOutcomeIsGood(s);
    case BeginVerify => BeginVerifyIsGood(s);
    case CallVerify(verdict) => CallVerifyIsGood(s, verdict);
    case RecordVerdict => RecordVerdictIsGood(s);
    case Leave => LeaveIsGood(s);
    case BeginRecovery(todo) => BeginRecoveryIsGood(s, todo);
    case RecoverNext => RecoverNextIsGood(s);
    case CallReconcile(c) => CallReconcileIsGood(s, c);
    case RecordReconcile => RecordReconcileIsGood(s);
    case EndRecovery => EndRecoveryIsGood(s);
  }

  lemma {:induction false} RunKeepsInv(states: seq<System>, acts: seq<Action>, i: nat)
    requires IsRun(states, acts) && i < |states|
    ensures Inv(states[i])
  {
    if i > 0 {
      RunKeepsInv(states, acts, i - 1);
      StepIsGood(states[i - 1], acts[i - 1]);
    }
  }

  lemma RunStepIsGood(states: seq<System>, acts: seq<Action>, i: nat)
    requires IsRun(states, acts) && i < |acts|
    ensures Inv(states[i]) && Good(states[i], acts[i], states[i + 1])
  {
    RunKeepsInv(states, acts, i);
    StepIsGood(states[i], acts[i]);
  }

  // ---- At most once ----

  /** In every reachable state, across crashes and recoveries, execute has been called at most once per
      operation, and never for one that is durably PREPARED or CANCELLED. */
  lemma ExecutedAtMostOnce(states: seq<System>, acts: seq<Action>, i: nat, o: Id)
    requires IsRun(states, acts) && i < |states|
    ensures states[i].executed[o] <= 1
    ensures o in states[i].store.ops && states[i].store.ops[o].state in {Prepared, Cancelled} ==> states[i].executed[o] == 0
    ensures o !in states[i].store.ops ==> states[i].executed[o] == 0
  {
    RunKeepsInv(states, acts, i);
    if o in states[i].store.ops {
      assert OpOk(states[i].store.ops[o], states[i].executed[o], o in states[i].confirmed);
    }
  }

  /** Stored operations stay, keep their task, and the states that recovery writes at the end are final. */
  lemma {:induction false} TerminalIsFinal(states: seq<System>, acts: seq<Action>, i: nat, j: nat, o: Id)
    requires IsRun(states, acts) && i <= j < |states| && o in states[i].store.ops
    requires states[i].store.ops[o].state in {Verified, Failed, Cancelled}
    ensures o in states[j].store.ops && states[j].store.ops[o] == states[i].store.ops[o]
    decreases j
  {
    hide Enabled, Apply, Initial, Inv, Steady, Confirmations, ResourcesMove, LeaseKept;
    if i < j {
      TerminalIsFinal(states, acts, i, j - 1, o);
      RunStepIsGood(states, acts, j - 1);
      assert OpMove(states[j - 1], o, states[j - 1].store.ops[o], states[j].store.ops[o]);
    }
  }

  /** An operation that recovery cancels is never executed, before or after. */
  lemma CancelledNeverExecuted(states: seq<System>, acts: seq<Action>, i: nat, j: nat, o: Id)
    requires IsRun(states, acts) && i < |states| && j < |states|
    requires o in states[i].store.ops && states[i].store.ops[o].state == Cancelled
    ensures states[j].executed[o] == 0
  {
    if i <= j {
      TerminalIsFinal(states, acts, i, j, o);
      ExecutedAtMostOnce(states, acts, j, o);
    } else {
      CallsNeverForgotten(states, acts, j, i, o);
      ExecutedAtMostOnce(states, acts, i, o);
    }
  }

  lemma {:induction false} CallsNeverForgotten(states: seq<System>, acts: seq<Action>, i: nat, j: nat, o: Id)
    requires IsRun(states, acts) && i <= j < |states|
    ensures states[i].executed[o] <= states[j].executed[o]
    decreases j
  {
    hide Enabled, Apply, Initial, Inv, OpsMove, Confirmations, ResourcesMove, LeaseKept;
    if i < j {
      CallsNeverForgotten(states, acts, i, j - 1, o);
      RunStepIsGood(states, acts, j - 1);
    }
  }

  // ---- Evidence ----

  /** In every reachable state a VERIFIED operation has non-empty evidence that all passes, or no evidence
      and a reconcile call that returned true. */
  lemma VerifiedHasGrounds(states: seq<System>, acts: seq<Action>, i: nat, o: Id)
    requires IsRun(states, acts) && i < |states|
    requires o in states[i].store.ops && states[i].store.ops[o].state == Verified
    ensures var op := states[i].store.ops[o];
            (op.evidence != [] && AllPass(op.evidence)) || (op.evidence == [] && o in states[i].confirmed)
  {
    RunKeepsInv(states, acts, i);
    assert OpOk(states[i].store.ops[o], states[i].executed[o], o in states[i].confirmed);
  }

  /** `confirmed` records exactly the true reconcile calls of the run. */
  lemma {:induction false} ConfirmedMeansCalled(states: seq<System>, acts: seq<Action>, i: nat, o: Id)
    requires IsRun(states, acts) && i < |states| && o in states[i].confirmed
    ensures exists k :: 0 <= k < i && ConfirmedBy(states[k], acts[k], o)
  {
    hide Enabled, Apply, Inv, Steady, OpsMove, ResourcesMove, LeaseKept, Arrives;
    RunStepIsGood(states, acts, i - 1);
    if o in states[i - 1].confirmed {
      ConfirmedMeansCalled(states, acts, i - 1, o);
    } else {
      assert ConfirmedBy(states[i - 1], acts[i - 1], o);
    }
  }

  /** Unknown outcomes, and what can become of them without a confirmation. */
  predicate Doubtful(s: System, o: Id) {
    o in s.store.ops && s.store.ops[o].state in {Unknown, Reconciling, Failed} && !ToldTrue(s, o)
  }

  lemma UnknownIsDoubtful(s: System, o: Id)
    requires Inv(s) && o in s.store.ops && s.store.ops[o].state == Unknown
    ensures Doubtful(s, o)
  {
  }

  lemma DoubtfulStep(s: System, a: Action, s': System, o: Id)
    requires Good(s, a, s') && Doubtful(s, o) && !ConfirmedBy(s, a, o)
    ensures Doubtful(s', o)
  {
    hide Inv, Steady, ResourcesMove, LeaseKept;
    assert OpMove(s, o, s.store.ops[o], s'.store.ops[o]);
  }

  lemma {:induction false} DoubtfulUntilConfirmed(states: seq<System>, acts: seq<Action>, i: nat, j: nat, o: Id)
    requires IsRun(states, acts) && i <= j < |states| && Doubtful(states[i], o)
    requires forall k :: i <= k < j ==> !ConfirmedBy(states[k], acts[k], o)
    ensures Doubtful(states[j], o)
    decreases j
  {
    hide Good, Doubtful, Inv, Enabled, Apply, Initial;
    if i < j {
      DoubtfulUntilConfirmed(states, acts, i, j - 1, o);
      RunStepIsGood(states, acts, j - 1);
      DoubtfulStep(states[j - 1], acts[j - 1], states[j], o);
    }
  }

  /** An UNKNOWN operation becomes VERIFIED only through a reconcile call, made in between, that returned true. */
  lemma UnknownNeedsReconcile(states: seq<System>, acts: seq<Action>, i: nat, j: nat, o: Id)
    requires IsRun(states, acts) && i <= j < |states|
    requires o in states[i].store.ops && states[i].store.ops[o].state == Unknown
    requires o in states[j].store.ops && states[j].store.ops[o].state == Verified
    ensures exists k :: i <= k < j && ConfirmedBy(states[k], acts[k], o)
  {
    hide Enabled, Apply, Initial, ConfirmedBy;
    RunKeepsInv(states, acts, i);
    UnknownIsDoubtful(states[i], o);
    hide Inv;
    if forall k :: i <= k < j ==> !ConfirmedBy(states[k], acts[k], o) {
      DoubtfulUntilConfirmed(states, acts, i, j, o);
    }
  }

  // ---- Budgets ----

  /** In every durable state, including right after a crash, a task has started exactly as many operations
      as are stored for it, and no more than its limit if it has one. */
  lemma BudgetCountsOperations(states: seq<System>, acts: seq<Action>, i: nat, t: Id)
    requires IsRun(states, acts) && i < |states| && t in states[i].store.tasks
    ensures var b := states[i].store.tasks[t].budget;
            b.started == |OpsOf(states[i].store.ops, t)| && (b.maxOperations >= 0 ==> b.started <= b.maxOperations)
  {
    RunKeepsInv(states, acts, i);
    assert BudgetOk(states[i].store.tasks[t], |OpsOf(states[i].store.ops, t)|);
  }

  // ---- Why an effect was allowed ----

  /** The context of an agent step that has not reached its effect yet. */
  function CtxOf(pc: Pc): Option<Ctx> {
    match pc
    case Allowed(c) => Some(c)
    case Holding(c, _, _) => Some(c)
    case Ready(c, _, _, _) => Some(c)
    case Started(c, _, _) => Some(c)
    case _ => None
  }

  /** From just after step `lo` up to state `hi` the process is up and in the middle of one agent step. */
  ghost predicate InStep(states: seq<System>, lo: nat, hi: nat, c: Ctx) {
    hi < |states| && forall k :: lo < k <= hi ==> states[k].process.Up? && CtxOf(states[k].process.pc) == Some(c)
  }

  /** The points of a run at which an agent step passed its checks. */
  datatype Trail = Trail(admit: nat, inspect: nat, inspectLease: nat, prepare: nat, fence: nat, resourceFence: nat, begin: nat)

  /** How many of the seven points a program point implies. */
  function ChecksPassed(pc: Pc): nat {
    match pc
    case Allowed(_) => 1
    case Holding(_, _, done) => if done == 0 then 1 else if done == 1 then 2 else 3
    case Ready(_, _, _, done) => if done == 0 then 4 else if done == 1 then 5 else 6
    case Started(_, _, _) => 7
    case _ => 0
  }

  ghost predicate AdmitAt(states: seq<System>, acts: seq<Action>, k: nat, c: Ctx) {
    k < |acts| < |states| && acts[k] == Admit(c) && Admissible(states[k], c)
  }

  ghost predicate InspectAt(states: seq<System>, acts: seq<Action>, k: nat, c: Ctx, lease: Option<ResourceLease>, done: nat) {
    k < |acts| < |states| && acts[k] == Check && At(states[k], Holding(c, lease, done)) && PrepareCheck(states[k], c, lease, done)
  }

  ghost predicate PrepareAt(states: seq<System>, acts: seq<Action>, k: nat, c: Ctx, lease: Option<ResourceLease>, o: Id) {
    k < |acts| < |states| && acts[k] == Prepare(o) && At(states[k], Holding(c, lease, 2)) && BudgetLeft(states[k], c.taskId)
  }

  ghost predicate FenceAt(states: seq<System>, acts: seq<Action>, k: nat, c: Ctx, lease: Option<ResourceLease>, o: Id, done: nat) {
    && k < |acts| < |states| && acts[k] == Check && At(states[k], Ready(c, lease, o, done))
    && ExecuteCheck(states[k], NewOperation(c, lease), done)
  }

  ghost predicate BeginAt(states: seq<System>, acts: seq<Action>, k: nat, c: Ctx, lease: Option<ResourceLease>, o: Id) {
    && k < |acts| < |states| && acts[k] == Begin && At(states[k], Ready(c, lease, o, 2))
    && MayBegin(states[k], NewOperation(c, lease))
  }

  /** One chain of points before `i`, all of the same uninterrupted agent step, of which the first `n` are there. */
  ghost predicate Walked(states: seq<System>, acts: seq<Action>, i: nat, c: Ctx, lease: Option<ResourceLease>, o: Id, t: Trail, n: nat) {
    && InStep(states, t.admit, i, c)
    && (n >= 1 ==> t.admit < i && AdmitAt(states, acts, t.admit, c))
    && (n >= 2 ==> t.admit < t.inspect < i && InspectAt(states, acts, t.inspect, c, lease, 0))
    && (n >= 3 ==> t.inspect < t.inspectLease < i && InspectAt(states, acts, t.inspectLease, c, lease, 1))
    && (n >= 4 ==> t.inspectLease < t.prepare < i && PrepareAt(states, acts, t.prepare, c, lease, o))
    && (n >= 5 ==> t.prepare < t.fence < i && FenceAt(states, acts, t.fence, c, lease, o, 0))
    && (n >= 6 ==> t.fence < t.resourceFence < i && FenceAt(states, acts, t.resourceFence, c, lease, o, 1))
    && (n >= 7 ==> t.resourceFence < t.begin < i && BeginAt(states, acts, t.begin, c, lease, o))
  }

  /** Everything that precedes an effect, in this order and within one agent step that is never left in between:
      policy said ALLOW for the registered spec with a task lease where one is required; the manifest's revisions
      were current, every referenced object accessible in the task's workspace and the task fence valid; the
      resource fence was valid; the budget was not exhausted when it was charged for operation `o`; execute found
      the task fence and then the resource fence valid against the durable tables; and at the last check the
      capability was there, the revisions were still current and every object still accessible. */
  ghost predicate Cleared(states: seq<System>, acts: seq<Action>, i: nat, c: Ctx, lease: Option<ResourceLease>, o: Id) {
    exists t :: Walked(states, acts, i, c, lease, o, t, 7)
  }

  function OpOf(pc: Pc): Id {
    match pc case Ready(_, _, o, _) => o case Started(_, _, o) => o case _ => 0
  }

  /** The program point reached at `i` has its chain. */
  ghost predicate Explained(states: seq<System>, acts: seq<Action>, i: nat) {
    i < |states| && states[i].process.Up? && CtxOf(states[i].process.pc).Some? ==>
      var pc := states[i].process.pc;
      exists t :: Walked(states, acts, i, CtxOf(pc).value, Held(pc), OpOf(pc), t, ChecksPassed(pc))
  }

  /** Time passing at one program point. */
  lemma WalkedOn(states: seq<System>, acts: seq<Action>, i: nat, c: Ctx, lease: Option<ResourceLease>, o: Id, t: Trail, n: nat)
    requires Walked(states, acts, i, c, lease, o, t, n) && i + 1 < |states| && n >= 1
    requires states[i + 1].process.Up? && CtxOf(states[i + 1].process.pc) == Some(c)
    ensures Walked(states, acts, i + 1, c, lease, o, t, n)
  {
    hide AdmitAt, InspectAt, PrepareAt, FenceAt, BeginAt, CtxOf;
  }

  lemma ExplainedBy(states: seq<System>, acts: seq<Action>, i: nat, c: Ctx, lease: Option<ResourceLease>, o: Id, t: Trail, n: nat)
    requires i < |states| && states[i].process.Up? && Walked(states, acts, i, c, lease, o, t, n)
    requires var pc := states[i].process.pc; CtxOf(pc) == Some(c) && Held(pc) == lease && OpOf(pc) == o && ChecksPassed(pc) == n
    ensures Explained(states, acts, i)
  {
    hide Walked;
  }

  lemma StayExplained(states: seq<System>, acts: seq<Action>, i: nat)
    requires i + 1 < |states| && Explained(states, acts, i) && states[i].process.Up? && states[i + 1].process.Up?
    requires states[i].process.pc == states[i + 1].process.pc
    ensures Explained(states, acts, i + 1)
  {
    hide Walked;
    var pc := states[i].process.pc;
    if CtxOf(pc).Some? {
      var t :| Walked(states, acts, i, CtxOf(pc).value, Held(pc), OpOf(pc), t, ChecksPassed(pc));
      WalkedOn(states, acts, i, CtxOf(pc).value, Held(pc), OpOf(pc), t, ChecksPassed(pc));
    }
  }

  lemma AdmitExplains(states: seq<System>, acts: seq<Action>, i: nat, c: Ctx)
    requires i < |acts| && |states| == |acts| + 1 && acts[i] == Admit(c) && Admissible(states[i], c)
    requires At(states[i + 1], Allowed(c))
    ensures Explained(states, acts, i + 1)
  {
    hide Admissible;
    ExplainedBy(states, acts, i + 1, c, None, 0, Trail(i, 0, 0, 0, 0, 0, 0), 1);
  }

  lemma AcquireExplains(states: seq<System>, acts: seq<Action>, i: nat, c: Ctx, lease: Option<ResourceLease>)
    requires i + 1 < |states| && Explained(states, acts, i) && At(states[i], Allowed(c)) && At(states[i + 1], Holding(c, lease, 0))
    ensures Explained(states, acts, i + 1)
  {
    hide AdmitAt;
    var t :| Walked(states, acts, i, c, None, 0, t, 1);
    assert Walked(states, acts, i, c, lease, 0, t, 1);
    hide Walked;
    WalkedOn(states, acts, i, c, lease, 0, t, 1);
    ExplainedBy(states, acts, i + 1, c, lease, 0, t, 1);
  }

  lemma InspectExplains(states: seq<System>, acts: seq<Action>, i: nat, c: Ctx, lease: Option<ResourceLease>, done: nat)
    requires i + 1 < |states| && Explained(states, acts, i) && done < 2 && InspectAt(states, acts, i, c, lease, done)
    requires At(states[i], Holding(c, lease, done)) && At(states[i + 1], Holding(c, lease, done + 1))
    ensures Explained(states, acts, i + 1)
  {
    hide AdmitAt, InspectAt, PrepareAt, FenceAt, BeginAt, InStep;
    var t :| Walked(states, acts, i, c, lease, 0, t, done + 1);
    WalkedOn(states, acts, i, c, lease, 0, t, done + 1);
    var t' := if done == 0 then t.(inspect := i) else t.(inspectLease := i);
    ExplainedBy(states, acts, i + 1, c, lease, 0, t', done + 2);
  }

  lemma PrepareExplains(states: seq<System>, acts: seq<Action>, i: nat, c: Ctx, lease: Option<ResourceLease>, o: Id)
    requires i + 1 < |states| && Explained(states, acts, i) && PrepareAt(states, acts, i, c, lease, o)
    requires At(states[i], Holding(c, lease, 2)) && At(states[i + 1], Ready(c, lease, o, 0))
    ensures Explained(states, acts, i + 1)
  {
    hide AdmitAt, InspectAt, PrepareAt, FenceAt, BeginAt, InStep;
    var t :| Walked(states, acts, i, c, lease, 0, t, 3);
    WalkedOn(states, acts, i, c, lease, 0, t, 3);
    ExplainedBy(states, acts, i + 1, c, lease, o, t.(prepare := i), 4);
  }

  lemma FenceExplains(states: seq<System>, acts: seq<Action>, i: nat, c: Ctx, lease: Option<ResourceLease>, o: Id, done: nat)
    requires i + 1 < |states| && Explained(states, acts, i) && done < 2 && FenceAt(states, acts, i, c, lease, o, done)
    requires At(states[i], Ready(c, lease, o, done)) && At(states[i + 1], Ready(c, lease, o, done + 1))
    ensures Explained(states, acts, i + 1)
  {
    hide AdmitAt, InspectAt, PrepareAt, FenceAt, BeginAt, InStep;
    var t :| Walked(states, acts, i, c, lease, o, t, done + 4);
    WalkedOn(states, acts, i, c, lease, o, t, done + 4);
    var t' := if done == 0 then t.(fence := i) else t.(resourceFence := i);
    ExplainedBy(states, acts, i + 1, c, lease, o, t', done + 5);
  }

  lemma BeginExplains(states: seq<System>, acts: seq<Action>, i: nat, c: Ctx, lease: Option<ResourceLease>, o: Id)
    requires i + 1 < |states| && Explained(states, acts, i) && BeginAt(states, acts, i, c, lease, o)
    requires At(states[i], Ready(c, lease, o, 2)) && At(states[i + 1], Started(c, lease, o))
    ensures Explained(states, acts, i + 1)
  {
    hide AdmitAt, InspectAt, PrepareAt, FenceAt, BeginAt, InStep;
    var t :| Walked(states, acts, i, c, lease, o, t, 6);
    WalkedOn(states, acts, i, c, lease, o, t, 6);
    ExplainedBy(states, acts, i + 1, c, lease, o, t.(begin := i), 7);
  }

  lemma ExplainedStep(states: seq<System>, acts: seq<Action>, i: nat)
    requires |states| == |acts| + 1 && i < |acts| && Explained(states, acts, i) && Arrives(states[i], acts[i], states[i + 1])
    ensures Explained(states, acts, i + 1)
  {
    hide Admissible, PrepareCheck, ExecuteCheck, MayBegin, BudgetLeft, NewOperation, Explained;
    var s' := states[i + 1];
    if !s'.process.Up? || CtxOf(s'.process.pc).None? {
      Unexplained(states, acts, i + 1);
    } else if states[i].process.Up? && states[i].process.pc == s'.process.pc {
      StayExplained(states, acts, i);
    } else {
      match s'.process.pc
      case Allowed(c) => AdmitExplains(states, acts, i, c);
      case Holding(c, lease, done) =>
        if done == 0 { AcquireExplains(states, acts, i, c, lease); } else { InspectExplains(states, acts, i, c, lease, done - 1); }
      case Ready(c, lease, o, done) =>
        if done == 0 { PrepareExplains(states, acts, i, c, lease, o); } else { FenceExplains(states, acts, i, c, lease, o, done - 1); }
      case Started(c, lease, o) => BeginExplains(states, acts, i, c, lease, o);
    }
  }

  lemma Unexplained(states: seq<System>, acts: seq<Action>, i: nat)
    requires i < |states| && (!states[i].process.Up? || CtxOf(states[i].process.pc).None?)
    ensures Explained(states, acts, i)
  {
  }

  lemma {:induction false} RunIsExplained(states: seq<System>, acts: seq<Action>, i: nat)
    requires IsRun(states, acts) && i < |states|
    ensures Explained(states, acts, i)
  {
    hide Enabled, Apply, Inv, Steady, OpsMove, Confirmations, ResourcesMove, LeaseKept, Arrives, Explained;
    if i == 0 {
      Unexplained(states, acts, 0);
    } else {
      RunIsExplained(states, acts, i - 1);
      RunStepIsGood(states, acts, i - 1);
      ExplainedStep(states, acts, i - 1);
    }
  }

  /** Every call of a capability's execute, anywhere in any run, was cleared. */
  lemma EffectsAreCleared(states: seq<System>, acts: seq<Action>, i: nat)
    requires IsRun(states, acts) && i < |acts| && acts[i].CallExecute?
    ensures states[i].process.Up? && states[i].process.pc.Started?
    ensures var pc := states[i].process.pc; Cleared(states, acts, i, pc.ctx, pc.lease, pc.op)
    ensures LeaseRequired(states[0].config) ==> NewOperation(states[i].process.pc.ctx, states[i].process.pc.lease).taskFence.Some?
  {
    RunIsExplained(states, acts, i);
    assert Enabled(states[i], acts[i]);
    var pc := states[i].process.pc;
    var t :| Walked(states, acts, i, pc.ctx, pc.lease, pc.op, t, 7);
    ConfigIsFixed(states, acts, t.admit);
  }

  lemma {:induction false} ConfigIsFixed(states: seq<System>, acts: seq<Action>, i: nat)
    requires IsRun(states, acts) && i < |states|
    ensures states[i].config == states[0].config
  {
    if i > 0 { ConfigIsFixed(states, acts, i - 1); }
  }

  // ---- Resource leases of a step ----

  /** Short of a crash, a step lets go of its resource lease only by releasing it, and the release touches
      no other task's row and leaves an identity that does not validate at any time. */
  lemma StepExitReleases(states: seq<System>, acts: seq<Action>, i: nat, l: ResourceLease)
    requires IsRun(states, acts) && i < |acts| && states[i].process.Up? && Held(states[i].process.pc) == Some(l)
    requires !acts[i].Crash?
    ensures states[i + 1].process.Up?
    ensures Held(states[i + 1].process.pc) == Some(l) ||
            (acts[i].Leave? && ReleasedCleanly(states[i].store.resources, states[i + 1].store.resources, l))
  {
    RunStepIsGood(states, acts, i);
  }

  ghost function ResourceHistory(states: seq<System>): seq<F.Moment> {
    seq(|states|, i requires 0 <= i < |states| => F.Moment(RL.RowSlots(states[i].store.resources), states[i].clock))
  }

  lemma ResourceHistoryIsHistory(states: seq<System>, acts: seq<Action>)
    requires IsRun(states, acts)
    ensures F.IsHistory(ResourceHistory(states))
  {
    var h := ResourceHistory(states);
    forall i | 0 <= i < |h| ensures h[i].clock >= 0.0 { RunKeepsInv(states, acts, i); }
    forall i | 0 <= i < |h| - 1 ensures h[i].clock <= h[i + 1].clock && F.TableMove(h[i].slots, h[i + 1].slots, h[i + 1].clock) {
      RunStepIsGood(states, acts, i);
    }
  }

  /** Moves from outside, starts and stops, and writes of tasks. */
  predicate Outside(a: Action) {
    || a.Tick? || a.ChangeWorld? || a.OtherTaskLease? || a.OtherResource? || a.Crash? || a.Restart?
    || a.CreateTask? || a.SaveTask?
  }

  lemma OutsideHoldsNothingNew(s: System, a: Action, l: ResourceLease)
    requires Enabled(s, a) && Outside(a) && Apply(s, a).process.Up? && Held(Apply(s, a).process.pc) == Some(l)
    ensures s.process.Up? && Held(s.process.pc) == Some(l)
  {
    hide CanTick, CanOtherTaskLease, CanOtherResource;
  }

  lemma StepsHoldByAcquiring(s: System, a: Action, l: ResourceLease)
    requires Enabled(s, a) && !Outside(a) && Apply(s, a).process.Up? && Held(Apply(s, a).process.pc) == Some(l)
    ensures (s.process.Up? && Held(s.process.pc) == Some(l)) || (a == Acquire(Some(l)) && Apply(s, a) == DoAcquire(s, Some(l)))
  {
    hide Admissible, MayAcquire, PrepareCheck, ExecuteCheck, MayBegin, BudgetLeft, RowsWith, RowsWithout, NewOperation,
         AfterVerdict, AfterOutcome, AfterConclusion, RefsAccessible;
  }

  /** A resource lease comes to be held only by being acquired. */
  lemma HoldingBeginsWithAcquire(s: System, a: Action, l: ResourceLease)
    requires Enabled(s, a) && Apply(s, a).process.Up? && Held(Apply(s, a).process.pc) == Some(l)
    ensures (s.process.Up? && Held(s.process.pc) == Some(l)) || (a == Acquire(Some(l)) && Apply(s, a) == DoAcquire(s, Some(l)))
  {
    hide Enabled, Apply, Held;
    if Outside(a) { OutsideHoldsNothingNew(s, a, l); } else { StepsHoldByAcquiring(s, a, l); }
  }

  /** The table has a row for every held lease, at its generation or a later one. */
  predicate Issued(rows: RL.Rows, l: ResourceLease) { l.taskId in rows && l.generation <= rows[l.taskId].generation }

  lemma AcquiredIsIssued(s: System, l: ResourceLease)
    requires CanAcquire(s, Some(l))
    ensures Issued(DoAcquire(s, Some(l)).store.resources, l)
  {
  }

  lemma IssuedStays(s: System, s': System, l: ResourceLease)
    requires ResourcesMove(s, s') && Issued(s.store.resources, l)
    ensures Issued(s'.store.resources, l)
  {
    assert l.taskId in RL.RowSlots(s.store.resources) && l.taskId in RL.RowSlots(s'.store.resources);
  }

  lemma {:induction false} HeldIsIssued(states: seq<System>, acts: seq<Action>, i: nat, l: ResourceLease)
    requires IsRun(states, acts) && i < |states| && states[i].process.Up? && Held(states[i].process.pc) == Some(l)
    ensures Issued(states[i].store.resources, l)
  {
    hide Enabled, Apply, Inv, Held, Issued, ResourcesMove, Steady, OpsMove, Confirmations, LeaseKept, Arrives;
    RunStepIsGood(states, acts, i - 1);
    HoldingBeginsWithAcquire(states[i - 1], acts[i - 1], l);
    if states[i - 1].process.Up? && Held(states[i - 1].process.pc) == Some(l) {
      HeldIsIssued(states, acts, i - 1, l);
      IssuedStays(states[i - 1], states[i], l);
    } else {
      EnabledAcquire(states[i - 1], Some(l));
      AcquiredIsIssued(states[i - 1], l);
    }
  }

  lemma EnabledAcquire(s: System, granted: Option<ResourceLease>)
    requires Enabled(s, Acquire(granted))
    ensures CanAcquire(s, granted)
  {
  }

  /** Once a step has released its resource lease, that lease never validates again, whoever does what later. */
  lemma ReleasedForGood(states: seq<System>, acts: seq<Action>, i: nat, j: nat, l: ResourceLease)
    requires IsRun(states, acts) && i < |acts| && i < j < |states|
    requires acts[i].Leave? && states[i].process.Up? && Held(states[i].process.pc) == Some(l)
    ensures !F.Validates(RL.RowSlots(states[j].store.resources), RL.ResourceIdentity(l), states[j].clock)
  {
    HeldIsIssued(states, acts, i, l);
    StepExitReleases(states, acts, i, l);
    ResourceHistoryIsHistory(states, acts);
    var h := ResourceHistory(states);
    F.GenerationsGrow(h, i, i + 1, l.taskId);
    RunKeepsInv(states, acts, i + 1);
    assert F.DeadAt(h[i + 1], RL.ResourceIdentity(l));
    F.DeadForever(h, i + 1, j, RL.ResourceIdentity(l));
  }
}
