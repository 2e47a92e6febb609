/** The task and operation engine as a machine of atomic steps: liandanlu_native/runtime.py:181-382,
    liandanlu_native/agent.py:36-195 and liandanlu_native/recovery.py:19-73.

    A step of the machine is one durable transaction together with the assignments to memory that lead up
    to it, one call into a capability, or one move of the environment: time passing, other runners changing
    the lease tables as claims, renewals and releases do, or the world changing. The process may crash
    between any two steps; it then starts again from the durable store. */
module Engine {
  import opened Basics
  import opened Models
  import F = Fencing
  import TL = TaskLeases
  import RL = ResourceLeases
  import W = World

  /** The operation states that the engine ever writes. */
  datatype OpState =
    | Prepared | Running | Observed | Verifying | Verified | Failed | Unknown | Reconciling | Cancelled

  datatype Risk = Read | Reversible | Mutating | External | Destructive

  datatype Evidence = Evidence(status: string, detail: string)

  datatype Fence = Fence(owner: Id, generation: nat)

  datatype Operation = Operation(
    taskId: Id, workspace: Id, capability: Id, refs: seq<Id>, permission: string, risk: Risk,
    wanted: map<W.Domain, nat>, state: OpState, evidence: seq<Evidence>, result: Option<string>,
    error: Option<string>, taskFence: Option<Fence>, resourceFence: Option<Fence>)

  datatype ActionSpec = ActionSpec(risk: Risk, permission: string, domains: set<W.Domain>, request: Request)

  datatype Proposal = Proposal(capability: Id, action: Id, refs: seq<Id>)

  datatype WorkspacePolicy = WorkspacePolicy(capabilities: set<Id>, denied: set<Id>, confirm: set<Risk>, allow: set<Risk>)

  datatype Decision = Allow | Deny | RequireConfirmation

  /** `requireLease` is the runner's setting; unset, a durable runner requires a task lease. */
  datatype Config = Config(
    registry: map<(Id, Id), ActionSpec>, policies: map<Id, WorkspacePolicy>, capabilities: set<Id>,
    broker: Option<Capacity>, requireLease: Option<bool>, resourceSeconds: Time)

  function Evaluate(c: Config, workspace: Id, p: Proposal, risk: Risk): Decision {
    if workspace !in c.policies then Deny else
      var policy := c.policies[workspace];
      if p.action in policy.denied then Deny
      else if p.capability !in policy.capabilities then Deny
      else if risk in policy.confirm then RequireConfirmation
      else if risk in policy.allow then Allow
      else Deny
  }

  predicate LeaseRequired(c: Config) { c.requireLease != Some(false) }

  /** What one agent step works with once policy has allowed its proposal. */
  datatype Ctx = Ctx(taskId: Id, workspace: Id, proposal: Proposal, spec: ActionSpec,
                     manifest: map<W.Domain, nat>, taskLease: Option<TaskLease>)

  function Wanted(c: Ctx): map<W.Domain, nat> { W.Select(c.manifest, c.spec.domains) }

  datatype ExecOutcome = Returned(result: Option<string>) | ExecRaised(error: string)
  datatype Verdict = Evidenced(evidence: seq<Evidence>) | VerifyRaised(error: string)
  datatype Conclusion = Concluded(ok: bool, result: Option<string>) | ReconcileRaised(error: string)

  /** What follows once an operation has been verified or left alone. */
  datatype Then = FinishStep(lease: Option<ResourceLease>) | ResumeRecovery(todo: seq<Id>)

  /** Where the process stands. `done` counts the lease checks already passed. */
  datatype Pc =
    | Idle
    | Allowed(ctx: Ctx)
    | Holding(ctx: Ctx, lease: Option<ResourceLease>, done: nat)
    | Ready(ctx: Ctx, lease: Option<ResourceLease>, op: Id, done: nat)
    | Started(ctx: Ctx, lease: Option<ResourceLease>, op: Id)
    | Called(op: Id, outcome: ExecOutcome, lease: Option<ResourceLease>)
    | Watched(op: Id, lease: Option<ResourceLease>)
    | Checking(op: Id, next: Then)
    | Judged(op: Id, verdict: Verdict, next: Then)
    | Leaving(lease: Option<ResourceLease>)
    | Recovering(todo: seq<Id>)
    | Asking(op: Id, todo: seq<Id>)
    | Told(op: Id, conclusion: Conclusion, todo: seq<Id>)

  datatype Store = Store(tasks: map<Id, Task>, ops: map<Id, Operation>, taskLeases: TL.LeaseRows, resources: RL.Rows)

  datatype Process = Down | Up(tasks: map<Id, Task>, ops: map<Id, Operation>, pc: Pc)

  /** `executed` counts the calls of a capability's execute and `confirmed` holds the operations for which a
      reconcile call has returned true; both only record what happened. */
  datatype System = System(config: Config, store: Store, world: W.State, clock: Time, process: Process,
                           executed: multiset<Id>, confirmed: set<Id>)

  datatype Action =
    // the environment
    | Tick(ts: Time)
    | ChangeWorld(world: W.State)
    | OtherTaskLease(taskRows: TL.LeaseRows)
    | OtherResource(resourceRows: RL.Rows)
    | Crash
    | Restart
    // the task runtime
    | CreateTask(id: Id, task: Task)
    | SaveTask(id: Id, task: Task)
    // an agent step
    | Admit(ctx: Ctx)
    | Acquire(granted: Option<ResourceLease>)
    | GiveUp
    | Check
    | Prepare(op: Id)
    | Abandon
    | Begin
    | CallExecute(outcome: ExecOutcome)
    | RecordOutcome
    | BeginVerify
    | CallVerify(verdict: Verdict)
    | RecordVerdict
    | Leave
    // recovery
    | BeginRecovery(todo: seq<Id>)
    | RecoverNext
    | CallReconcile(conclusion: Conclusion)
    | RecordReconcile
    | EndRecovery

  // ---- Guards ----

  predicate At(s: System, pc: Pc) { s.process.Up? && s.process.pc == pc }

  predicate FenceHolds(slots: F.Slots, task: Id, fence: Option<Fence>, at: Time) {
    fence.Some? ==> F.Validates(slots, F.Identity(task, fence.value.owner, fence.value.generation), at)
  }

  function TaskFence(c: Ctx): Option<Fence> {
    if c.taskLease.Some? then Some(Fence(c.taskLease.value.owner, c.taskLease.value.generation)) else None
  }

  function ResourceFence(l: Option<ResourceLease>): Option<Fence> {
    if l.Some? then Some(Fence(l.value.owner, l.value.generation)) else None
  }

  /** Policy allows the proposal for the registered spec, and a lease for this task is there if needed. */
  predicate Admissible(s: System, c: Ctx) {
    && s.process.Up? && c.taskId in s.process.tasks && s.process.tasks[c.taskId].workspace == c.workspace
    && (c.proposal.capability, c.proposal.action) in s.config.registry
    && s.config.registry[(c.proposal.capability, c.proposal.action)] == c.spec
    && c.spec.domains <= c.manifest.Keys
    && Evaluate(s.config, c.workspace, c.proposal, c.spec.risk) == Allow
    && (LeaseRequired(s.config) ==> c.taskLease.Some?)
    && (c.taskLease.Some? ==> c.taskLease.value.taskId == c.taskId)
  }

  predicate RefsAccessible(w: W.State, refs: seq<Id>, permission: string, workspace: Id) {
    forall i :: 0 <= i < |refs| ==> W.Accessible(w, refs[i], permission, workspace)
  }

  /** The world and lease checks of prepare. */
  predicate PrepareCheck(s: System, c: Ctx, lease: Option<ResourceLease>, done: nat) {
    if done == 0 then
      && W.Current(s.world, Wanted(c), c.workspace)
      && RefsAccessible(s.world, c.proposal.refs, c.spec.permission, c.workspace)
      && FenceHolds(TL.SlotsOf(s.store.taskLeases), c.taskId, TaskFence(c), s.clock)
    else
      FenceHolds(RL.RowSlots(s.store.resources), c.taskId, ResourceFence(lease), s.clock)
  }

  /** The lease checks of execute, on the fences recorded in the operation. */
  predicate ExecuteCheck(s: System, op: Operation, done: nat) {
    if done == 0 then FenceHolds(TL.SlotsOf(s.store.taskLeases), op.taskId, op.taskFence, s.clock)
    else FenceHolds(RL.RowSlots(s.store.resources), op.taskId, op.resourceFence, s.clock)
  }

  /** The last checks of execute before RUNNING is recorded. */
  predicate MayBegin(s: System, op: Operation) {
    && op.capability in s.config.capabilities
    && W.Current(s.world, op.wanted, op.workspace)
    && RefsAccessible(s.world, op.refs, op.permission, op.workspace)
  }

  predicate BudgetLeft(s: System, task: Id) {
    s.process.Up? && task in s.process.tasks && BudgetBlock(s.process.tasks[task].budget, s.clock).None?
  }

  /** No lease is taken for an empty request; otherwise the broker must grant one to the task lease's owner. */
  ghost predicate MayAcquire(s: System, c: Ctx, granted: Option<ResourceLease>) {
    if EmptyRequest(c.spec.request) then granted.None?
    else
      && granted.Some? && s.config.broker.Some? && c.taskLease.Some?
      && RL.Granted(granted.value)
         == RL.TableAcquire(s.store.resources, s.config.broker.value, c.taskId, c.taskLease.value.owner,
                            c.spec.request, s.config.resourceSeconds, s.clock)
  }

  // ---- Effects shared by several steps ----

  function Goto(s: System, pc: Pc): System
    requires s.process.Up?
  {
    s.(process := s.process.(pc := pc))
  }

  /** save_operation: the operation reaches memory and the store together. */
  function Saved(s: System, o: Id, op: Operation, pc: Pc): System
    requires s.process.Up?
  {
    s.(store := s.store.(ops := s.store.ops[o := op]),
       process := Up(s.process.tasks, s.process.ops[o := op], pc))
  }

  /** save_task: likewise for a task. */
  function WriteTask(s: System, id: Id, task: Task): System
    requires s.process.Up?
  {
    s.(store := s.store.(tasks := s.store.tasks[id := task]),
       process := s.process.(tasks := s.process.tasks[id := task]))
  }

  function WithResources(s: System, rows: RL.Rows): System { s.(store := s.store.(resources := rows)) }

  function RowsWith(rows: RL.Rows, granted: Option<ResourceLease>): RL.Rows {
    if granted.None? then rows else rows[granted.value.taskId := RL.RowOf(granted.value)]
  }

  function RowsWithout(rows: RL.Rows, lease: Option<ResourceLease>): RL.Rows {
    if lease.None? then rows else RL.TableRelease(rows, lease.value).0
  }

  function NewOperation(c: Ctx, lease: Option<ResourceLease>): Operation {
    Operation(c.taskId, c.workspace, c.proposal.capability, c.proposal.refs, c.spec.permission, c.spec.risk,
              Wanted(c), Prepared, [], None, None, TaskFence(c), ResourceFence(lease))
  }

  /** The budget and revision that prepare writes for the task. */
  function Charged(t: Task): Task {
    t.(budget := t.budget.(started := t.budget.started + 1), revision := t.revision + 1)
  }

  predicate AllPass(evidence: seq<Evidence>) {
    forall i :: 0 <= i < |evidence| ==> evidence[i].status == "pass"
  }

  function AfterVerdict(op: Operation, v: Verdict): Operation {
    match v
    case VerifyRaised(error) => op.(error := Some(error))
    case Evidenced(evidence) =>
      op.(evidence := op.evidence + evidence, state := if evidence != [] && AllPass(evidence) then Verified else Failed)
  }

  function AfterConclusion(op: Operation, c: Conclusion): Operation {
    match c
    case ReconcileRaised(error) => op.(state := Unknown, error := Some(error))
    case Concluded(ok, result) => op.(result := result, state := if ok then Verified else Failed)
  }

  function AfterOutcome(op: Operation, x: ExecOutcome): Operation {
    match x
    case ExecRaised(error) => op.(state := Unknown, error := Some(error))
    case Returned(result) => op.(state := Observed, result := result)
  }

  function Continue(next: Then): Pc {
    match next
    case FinishStep(lease) => Leaving(lease)
    case ResumeRecovery(todo) => Recovering(todo)
  }

  // ---- The task runtime ----

  predicate CanCreateTask(s: System, id: Id, task: Task) {
    s.process.Up? && s.process.pc.Idle? && id !in s.process.tasks && id !in s.store.tasks && task.budget.started == 0
  }

  /** queue, wait, control, settle_control, update_runtime_state and evaluate_goal all write a task back with
      its budget and workspace as they were. */
  predicate CanSaveTask(s: System, id: Id, task: Task) {
    s.process.Up? && id in s.process.tasks
    && task.budget == s.process.tasks[id].budget && task.workspace == s.process.tasks[id].workspace
  }

  // ---- An agent step ----

  predicate CanAdmit(s: System, ctx: Ctx) { s.process.Up? && s.process.pc.Idle? && Admissible(s, ctx) }

  function DoAdmit(s: System, ctx: Ctx): System
    requires CanAdmit(s, ctx)
  {
    Goto(s, Allowed(ctx))
  }

  ghost predicate CanAcquire(s: System, granted: Option<ResourceLease>) {
    s.process.Up? && s.process.pc.Allowed? && MayAcquire(s, s.process.pc.ctx, granted)
  }

  ghost function DoAcquire(s: System, granted: Option<ResourceLease>): System
    requires CanAcquire(s, granted)
  {
    Goto(WithResources(s, RowsWith(s.store.resources, granted)), Holding(s.process.pc.ctx, granted, 0))
  }

  predicate CanGiveUp(s: System) { s.process.Up? && s.process.pc.Allowed? }

  function DoGiveUp(s: System): System
    requires CanGiveUp(s)
  {
    Goto(s, Idle)
  }

  predicate CanCheck(s: System) {
    s.process.Up? &&
    (|| (s.process.pc.Holding? && s.process.pc.done < 2
         && PrepareCheck(s, s.process.pc.ctx, s.process.pc.lease, s.process.pc.done))
     || (s.process.pc.Ready? && s.process.pc.done < 2 && s.process.pc.op in s.process.ops
         && ExecuteCheck(s, s.process.ops[s.process.pc.op], s.process.pc.done)))
  }

  function DoCheck(s: System): System
    requires CanCheck(s)
  {
    Goto(s, s.process.pc.(done := s.process.pc.done + 1))
  }

  predicate CanPrepare(s: System, o: Id) {
    s.process.Up? && s.process.pc.Holding? && s.process.pc.done == 2 && BudgetLeft(s, s.process.pc.ctx.taskId)
    && o !in s.process.ops && o !in s.store.ops
  }

  function DoPrepare(s: System, o: Id): System
    requires CanPrepare(s, o)
  {
    var pc := s.process.pc;
    Saved(WriteTask(s, pc.ctx.taskId, Charged(s.process.tasks[pc.ctx.taskId])), o, NewOperation(pc.ctx, pc.lease),
          Ready(pc.ctx, pc.lease, o, 0))
  }

  predicate CanAbandon(s: System) { s.process.Up? && (s.process.pc.Holding? || s.process.pc.Ready?) }

  function DoAbandon(s: System): System
    requires CanAbandon(s)
  {
    Goto(s, Leaving(s.process.pc.lease))
  }

  predicate CanBegin(s: System) {
    s.process.Up? && s.process.pc.Ready? && s.process.pc.done == 2 && s.process.pc.op in s.process.ops
    && MayBegin(s, s.process.ops[s.process.pc.op])
  }

  function DoBegin(s: System): System
    requires CanBegin(s)
  {
    var pc := s.process.pc;
    Saved(s, pc.op, s.process.ops[pc.op].(state := Running), Started(pc.ctx, pc.lease, pc.op))
  }

  predicate CanCallExecute(s: System) { s.process.Up? && s.process.pc.Started? }

  function DoCallExecute(s: System, outcome: ExecOutcome): System
    requires CanCallExecute(s)
  {
    Goto(s.(executed := s.executed + multiset{s.process.pc.op}), Called(s.process.pc.op, outcome, s.process.pc.lease))
  }

  predicate CanRecordOutcome(s: System) { s.process.Up? && s.process.pc.Called? && s.process.pc.op in s.process.ops }

  function DoRecordOutcome(s: System): System
    requires CanRecordOutcome(s)
  {
    var pc := s.process.pc;
    Saved(s, pc.op, AfterOutcome(s.process.ops[pc.op], pc.outcome),
          if pc.outcome.Returned? then Watched(pc.op, pc.lease) else Leaving(pc.lease))
  }

  predicate CanBeginVerify(s: System) { s.process.Up? && s.process.pc.Watched? && s.process.pc.op in s.process.ops }

  function DoBeginVerify(s: System): System
    requires CanBeginVerify(s)
  {
    var pc := s.process.pc;
    var op := s.process.ops[pc.op];
    if op.result.None? then Saved(s, pc.op, op.(state := Unknown), Leaving(pc.lease))
    else Saved(s, pc.op, op.(state := Verifying), Checking(pc.op, FinishStep(pc.lease)))
  }

  predicate CanCallVerify(s: System) { s.process.Up? && s.process.pc.Checking? }

  function DoCallVerify(s: System, verdict: Verdict): System
    requires CanCallVerify(s)
  {
    Goto(s, Judged(s.process.pc.op, verdict, s.process.pc.next))
  }

  predicate CanRecordVerdict(s: System) { s.process.Up? && s.process.pc.Judged? && s.process.pc.op in s.process.ops }

  function DoRecordVerdict(s: System): System
    requires CanRecordVerdict(s)
  {
    var pc := s.process.pc;
    Saved(s, pc.op, AfterVerdict(s.process.ops[pc.op], pc.verdict), Continue(pc.next))
  }

  predicate CanLeave(s: System) { s.process.Up? && s.process.pc.Leaving? }

  function DoLeave(s: System): System
    requires CanLeave(s)
  {
    Goto(WithResources(s, RowsWithout(s.store.resources, s.process.pc.lease)), Idle)
  }

  // ---- Recovery ----

  predicate CanBeginRecovery(s: System, todo: seq<Id>) {
    s.process.Up? && s.process.pc.Idle? && forall i :: 0 <= i < |todo| ==> todo[i] in s.process.ops
  }

  function DoBeginRecovery(s: System, todo: seq<Id>): System
    requires CanBeginRecovery(s, todo)
  {
    Goto(s, Recovering(todo))
  }

  predicate NeedsCapability(op: Operation) {
    op.state in {Running, Unknown, Reconciling, Observed, Verifying}
  }

  predicate CanRecoverNext(s: System) {
    && s.process.Up? && s.process.pc.Recovering? && s.process.pc.todo != [] && s.process.pc.todo[0] in s.process.ops
    && (NeedsCapability(s.process.ops[s.process.pc.todo[0]]) ==>
          s.process.ops[s.process.pc.todo[0]].capability in s.config.capabilities)
  }

  /** One turn of the recovery loop, up to its first transaction or call. */
  function DoRecoverNext(s: System): System
    requires CanRecoverNext(s)
  {
    var o, rest := s.process.pc.todo[0], s.process.pc.todo[1..];
    var op := s.process.ops[o];
    if op.state == Prepared then Saved(s, o, op.(state := Cancelled), Recovering(rest))
    else if op.state in {Observed, Verifying} && op.result.Some? then
      Saved(s, o, op.(state := Verifying), Checking(o, ResumeRecovery(rest)))
    else if op.state in {Running, Unknown, Reconciling} then Saved(s, o, op.(state := Reconciling), Asking(o, rest))
    else Goto(s, Recovering(rest))
  }

  predicate CanCallReconcile(s: System, c: Conclusion) {
    && s.process.Up? && s.process.pc.Asking? && s.process.pc.op in s.process.ops
    && (c.Concluded? ==>
          var op := s.process.ops[s.process.pc.op];
          RefsAccessible(s.world, op.refs, op.permission, op.workspace))
  }

  function DoCallReconcile(s: System, c: Conclusion): System
    requires CanCallReconcile(s, c)
  {
    Goto(s.(confirmed := if c.Concluded? && c.ok then s.confirmed + {s.process.pc.op} else s.confirmed),
         Told(s.process.pc.op, c, s.process.pc.todo))
  }

  predicate CanRecordReconcile(s: System) { s.process.Up? && s.process.pc.Told? && s.process.pc.op in s.process.ops }

  function DoRecordReconcile(s: System): System
    requires CanRecordReconcile(s)
  {
    var pc := s.process.pc;
    Saved(s, pc.op, AfterConclusion(s.process.ops[pc.op], pc.conclusion), Recovering(pc.todo))
  }

  /** The loop is over, or an operation's capability is missing and the exception ends it. */
  predicate CanEndRecovery(s: System) { s.process.Up? && s.process.pc.Recovering? }

  function DoEndRecovery(s: System): System
    requires CanEndRecovery(s)
  {
    Goto(s, Idle)
  }

  // ---- The machine ----

  predicate CanTick(s: System, ts: Time) { ts >= s.clock }

  ghost predicate CanOtherTaskLease(s: System, rows: TL.LeaseRows) {
    F.TableMove(TL.SlotsOf(s.store.taskLeases), TL.SlotsOf(rows), s.clock)
  }

  ghost predicate CanOtherResource(s: System, rows: RL.Rows) {
    F.TableMove(RL.RowSlots(s.store.resources), RL.RowSlots(rows), s.clock)
  }

  ghost predicate Enabled(s: System, a: Action) {
    match a
    case Tick(ts) => CanTick(s, ts)
    case ChangeWorld(_) => true
    case OtherTaskLease(rows) => CanOtherTaskLease(s, rows)
    case OtherResource(rows) => CanOtherResource(s, rows)
    case Crash => s.process.Up?
    case Restart => s.process.Down?
    case CreateTask(id, task) => CanCreateTask(s, id, task)
    case SaveTask(id, task) => CanSaveTask(s, id, task)
    case Admit(ctx) => CanAdmit(s, ctx)
    case Acquire(granted) => CanAcquire(s, granted)
    case GiveUp => CanGiveUp(s)
    case Check => CanCheck(s)
    case Prepare(o) => CanPrepare(s, o)
    case Abandon => CanAbandon(s)
    case Begin => CanBegin(s)
    case CallExecute(_) => CanCallExecute(s)
    case RecordOutcome => CanRecordOutcome(s)
    case BeginVerify => CanBeginVerify(s)
    case CallVerify(_) => CanCallVerify(s)
    case RecordVerdict => CanRecordVerdict(s)
    case Leave => CanLeave(s)
    case BeginRecovery(todo) => CanBeginRecovery(s, todo)
    case RecoverNext => CanRecoverNext(s)
    case CallReconcile(c) => CanCallReconcile(s, c)
    case RecordReconcile => CanRecordReconcile(s)
    case EndRecovery => CanEndRecovery(s)
  }

  ghost function Apply(s: System, a: Action): System
    requires Enabled(s, a)
  {
    match a
    case Tick(ts) => s.(clock := ts)
    case ChangeWorld(world) => s.(world := world)
    case OtherTaskLease(rows) => s.(store := s.store.(taskLeases := rows))
    case OtherResource(rows) => WithResources(s, rows)
    case Crash => s.(process := Down)
    case Restart => s.(process := Up(s.store.tasks, s.store.ops, Idle))
    case CreateTask(id, task) => WriteTask(s, id, task)
    case SaveTask(id, task) => WriteTask(s, id, task)
    case Admit(ctx) => DoAdmit(s, ctx)
    case Acquire(granted) => DoAcquire(s, granted)
    case GiveUp => DoGiveUp(s)
    case Check => DoCheck(s)
    case Prepare(o) => DoPrepare(s, o)
    case Abandon => DoAbandon(s)
    case Begin => DoBegin(s)
    case CallExecute(outcome) => DoCallExecute(s, outcome)
    case RecordOutcome => DoRecordOutcome(s)
    case BeginVerify => DoBeginVerify(s)
    case CallVerify(verdict) => DoCallVerify(s, verdict)
    case RecordVerdict => DoRecordVerdict(s)
    case Leave => DoLeave(s)
    case BeginRecovery(todo) => DoBeginRecovery(s, todo)
    case RecoverNext => DoRecoverNext(s)
    case CallReconcile(c) => DoCallReconcile(s, c)
    case RecordReconcile => DoRecordReconcile(s)
    case EndRecovery => DoEndRecovery(s)
  }

  /** Every run starts from an empty store and moves on by enabled steps: steps of any tasks, crashes at
      any boundary, restarts, recoveries, other runners' lease traffic, and changes of the world. */
  ghost predicate IsRun(states: seq<System>, acts: seq<Action>) {
    && |states| == |acts| + 1 && Initial(states[0])
    && forall i :: 0 <= i < |acts| ==> Enabled(states[i], acts[i]) && states[i + 1] == Apply(states[i], acts[i])
  }

  predicate Initial(s: System) {
    && s.store == Store(map[], map[], map[], map[]) && s.process.Down? && s.clock >= 0.0
    && s.executed == multiset{} && s.confirmed == {}
  }
}
