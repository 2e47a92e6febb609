/** What stands behind an effect, said on the tables themselves: the lease rows, entities, revisions and budgets that the
    checks of liandanlu_native/runtime.py:214-338 must have found, and what is recorded of each answer. */
module EngineGrounds {
  import opened Basics
  import opened Models
  import opened Engine
  import opened EngineSafety
  import F = Fencing
  import TL = TaskLeases
  import RL = ResourceLeases
  import W = World
  import R = Runtime

  // ---- What each check means ----

  lemma PolicyMeans(c: Config, workspace: Id, p: Proposal, risk: Risk)
    ensures Evaluate(c, workspace, p, risk) == Allow <==>
              && workspace in c.policies && p.action !in c.policies[workspace].denied
              && p.capability in c.policies[workspace].capabilities
              && risk !in c.policies[workspace].confirm && risk in c.policies[workspace].allow
    ensures Evaluate(c, workspace, p, risk) == RequireConfirmation <==>
              && workspace in c.policies && p.action !in c.policies[workspace].denied
              && p.capability in c.policies[workspace].capabilities && risk in c.policies[workspace].confirm
  {
  }

  /** The task lease of a context holds in the table at this moment. */
  predicate TaskRowHolds(s: System, c: Ctx) {
    c.taskLease.Some? ==>
      && c.taskId in s.store.taskLeases
      && s.store.taskLeases[c.taskId].owner == c.taskLease.value.owner
      && s.store.taskLeases[c.taskId].generation == c.taskLease.value.generation
      && s.clock < s.store.taskLeases[c.taskId].until
  }

  predicate ResourceRowHolds(s: System, task: Id, lease: Option<ResourceLease>) {
    lease.Some? ==>
      && task in s.store.resources
      && s.store.resources[task].owner == lease.value.owner
      && s.store.resources[task].generation == lease.value.generation
      && s.clock < s.store.resources[task].until
  }

  predicate ObjectsUsable(s: System, refs: seq<Id>, permission: string, workspace: Id) {
    forall i :: 0 <= i < |refs| ==>
      && refs[i] in s.world.entities && s.world.entities[refs[i]].active
      && s.world.entities[refs[i]].workspace == workspace && permission in s.world.entities[refs[i]].permissions
  }

  predicate RevisionsMatch(s: System, c: Ctx) {
    forall d :: d in c.spec.domains && d in c.manifest ==> W.Revision(s.world, d, c.workspace) == c.manifest[d]
  }

  /** The checks of prepare pass exactly if the rows, revisions and objects are as they should be. */
  lemma PrepareCheckMeans(s: System, c: Ctx, lease: Option<ResourceLease>)
    ensures PrepareCheck(s, c, lease, 0) <==>
              RevisionsMatch(s, c) && ObjectsUsable(s, c.proposal.refs, c.spec.permission, c.workspace) && TaskRowHolds(s, c)
    ensures PrepareCheck(s, c, lease, 1) <==> ResourceRowHolds(s, c.taskId, lease)
  {
    if W.Current(s.world, Wanted(c), c.workspace) {
      forall d | d in c.spec.domains && d in c.manifest ensures W.Revision(s.world, d, c.workspace) == c.manifest[d] {
        assert d in Wanted(c);
      }
    }
  }

  /** So do the lease checks of execute, and its last checks. */
  lemma ExecuteCheckMeans(s: System, c: Ctx, lease: Option<ResourceLease>)
    ensures ExecuteCheck(s, NewOperation(c, lease), 0) <==> TaskRowHolds(s, c)
    ensures ExecuteCheck(s, NewOperation(c, lease), 1) <==> ResourceRowHolds(s, c.taskId, lease)
    ensures MayBegin(s, NewOperation(c, lease)) <==>
              && c.proposal.capability in s.config.capabilities
              && RevisionsMatch(s, c) && ObjectsUsable(s, c.proposal.refs, c.spec.permission, c.workspace)
  {
    PrepareCheckMeans(s, c, lease);
  }

  /** A budget is left exactly if the limit, if there is one, is above what was started, and the deadline, if there is
      one, has not come; a limit that is reached is named before a deadline. */
  lemma BudgetMeans(b: Budget, at: Time)
    ensures BudgetBlock(b, at).None? <==>
              (b.maxOperations >= 0 ==> b.started < b.maxOperations) && (b.deadline.Some? ==> at < b.deadline.value)
    ensures BudgetBlock(b, at) == Some(MaxOperations) <==> b.maxOperations >= 0 && b.started >= b.maxOperations
  {
  }

  // ---- The lease of a step is its own ----

  /** A step that needs no resources holds no lease; any other holds one for its task, for the owner of its task lease
      and for the resources its action is registered with. */
  predicate OwnLease(c: Ctx, lease: Option<ResourceLease>) {
    var wanted := c.spec.request;
    if wanted.cpu == 0 && wanted.memory == 0 && wanted.gpu == 0 && |wanted.labels| == 0 then lease.None?
    else && lease.Some? && c.taskLease.Some? && lease.value.taskId == c.taskId
         && lease.value.owner == c.taskLease.value.owner && lease.value.request == c.spec.request
  }

  predicate LeaseIsOwn(s: System) {
    s.process.Up? && CtxOf(s.process.pc).Some? && !s.process.pc.Allowed? ==> OwnLease(CtxOf(s.process.pc).value, Held(s.process.pc))
  }

  lemma OutsideKeepsOwn(s: System, a: Action)
    requires Enabled(s, a) && Outside(a) && LeaseIsOwn(s)
    ensures LeaseIsOwn(Apply(s, a))
  {
    hide CanTick, CanOtherTaskLease, CanOtherResource, OwnLease;
  }

  lemma AcquireIsOwn(s: System, granted: Option<ResourceLease>)
    requires CanAcquire(s, granted)
    ensures LeaseIsOwn(DoAcquire(s, granted))
  {
    hide RL.Fits, RL.TooLarge;
  }

  lemma StepKeepsOwn(s: System, a: Action)
    requires Enabled(s, a) && !Outside(a) && !a.Acquire? && LeaseIsOwn(s)
    ensures LeaseIsOwn(Apply(s, a))
  {
    hide Admissible, MayAcquire, PrepareCheck, ExecuteCheck, MayBegin, BudgetLeft, RowsWith, RowsWithout, NewOperation,
         AfterVerdict, AfterOutcome, AfterConclusion, RefsAccessible, OwnLease;
  }

  lemma {:induction false} RunKeepsOwn(states: seq<System>, acts: seq<Action>, i: nat)
    requires IsRun(states, acts) && i < |states|
    ensures LeaseIsOwn(states[i])
  {
    hide Enabled, Apply, LeaseIsOwn;
    if i == 0 {
      DownOwnsNothing(states[0]);
    } else {
      RunKeepsOwn(states, acts, i - 1);
      var s, a := states[i - 1], acts[i - 1];
      if Outside(a) {
        OutsideKeepsOwn(s, a);
      } else if a.Acquire? {
        EnabledAcquire(s, a.granted);
        AcquireIsOwn(s, a.granted);
        AcquireApplies(s, a.granted);
      } else {
        StepKeepsOwn(s, a);
      }
    }
  }

  lemma AcquireApplies(s: System, granted: Option<ResourceLease>)
    requires Enabled(s, Acquire(granted))
    ensures CanAcquire(s, granted) && Apply(s, Acquire(granted)) == DoAcquire(s, granted)
  {
  }

  lemma DownOwnsNothing(s: System)
    requires s.process.Down?
    ensures LeaseIsOwn(s)
  {
  }

  // ---- Every effect has its grounds ----

  /** Behind every execute call of every run there is one uninterrupted step in which, in this order: the workspace's
      policy allowed the registered action at its registered risk, with a task lease at hand unless the runner asks for
      none; the task's lease row had the step's owner and generation and was unexpired, every revision that the action
      depends on was the manifest's, and every object was active, of the task's workspace and granted the registered permission;
      the same held of the row of the resource lease, which is the step's own; the budget was not exhausted when the
      operation was charged; both lease rows were checked again and still held; and at last the capability was there and
      revisions and objects were still right. The operation called is the one that these facts are about. */
  lemma EffectsHaveGrounds(states: seq<System>, acts: seq<Action>, i: nat, c: Ctx, lease: Option<ResourceLease>, o: Id) returns (t: Trail)
    requires IsRun(states, acts) && i < |acts| && acts[i].CallExecute? && At(states[i], Started(c, lease, o))
    ensures t.admit < t.inspect < t.inspectLease < t.prepare < t.fence < t.resourceFence < t.begin < i
    ensures forall k :: t.admit < k <= i ==> states[k].process.Up? && CtxOf(states[k].process.pc) == Some(c)
    ensures var s, p := states[t.admit], c.proposal;
            && (p.capability, p.action) in s.config.registry && s.config.registry[(p.capability, p.action)] == c.spec
            && c.workspace in s.config.policies && p.action !in s.config.policies[c.workspace].denied
            && p.capability in s.config.policies[c.workspace].capabilities
            && c.spec.risk !in s.config.policies[c.workspace].confirm && c.spec.risk in s.config.policies[c.workspace].allow
            && (s.config.requireLease != Some(false) ==> c.taskLease.Some?) && c.spec.domains <= c.manifest.Keys
    ensures TaskRowHolds(states[t.inspect], c) && TaskRowHolds(states[t.fence], c)
    ensures ResourceRowHolds(states[t.inspectLease], c.taskId, lease) && ResourceRowHolds(states[t.resourceFence], c.taskId, lease)
    ensures OwnLease(c, lease)
    ensures RevisionsMatch(states[t.inspect], c) && RevisionsMatch(states[t.begin], c)
    ensures ObjectsUsable(states[t.inspect], c.proposal.refs, c.spec.permission, c.workspace)
    ensures ObjectsUsable(states[t.begin], c.proposal.refs, c.spec.permission, c.workspace)
    ensures var s := states[t.prepare];
            && s.process.Up? && c.taskId in s.process.tasks
            && var b := s.process.tasks[c.taskId].budget;
               (b.maxOperations >= 0 ==> b.started < b.maxOperations) && (b.deadline.Some? ==> s.clock < b.deadline.value)
    ensures c.proposal.capability in states[t.begin].config.capabilities
    ensures o in states[i].store.ops
    ensures var op := states[i].store.ops[o];
            && op.taskId == c.taskId && op.workspace == c.workspace && op.capability == c.proposal.capability
            && op.refs == c.proposal.refs && op.permission == c.spec.permission && op.risk == c.spec.risk
            && op.state == Running && op.evidence == [] && op.result.None? && states[i].executed[o] == 0
  {
    hide AdmitAt, InspectAt, PrepareAt, FenceAt, BeginAt, Enabled, Apply, Inv, LeaseIsOwn, OwnLease, TaskRowHolds, ResourceRowHolds,
         RevisionsMatch, ObjectsUsable, NewOperation;
    EffectsAreCleared(states, acts, i);
    t :| Walked(states, acts, i, c, lease, o, t, 7);
    RunKeepsOwn(states, acts, i);
    StartedIsOwn(states[i], c, lease, o);
    RunKeepsInv(states, acts, i);
    StartedOperation(states[i], c, lease, o);
    GroundsAtAdmit(states, acts, t.admit, c);
    GroundsAtInspect(states, acts, t.inspect, t.inspectLease, c, lease);
    GroundsAtPrepare(states, acts, t.prepare, c, lease, o);
    GroundsAtExecute(states, acts, t.fence, t.resourceFence, t.begin, c, lease, o);
  }

  lemma StartedIsOwn(s: System, c: Ctx, lease: Option<ResourceLease>, o: Id)
    requires LeaseIsOwn(s) && At(s, Started(c, lease, o))
    ensures OwnLease(c, lease)
  {
    hide OwnLease;
  }

  lemma GroundsAtAdmit(states: seq<System>, acts: seq<Action>, k: nat, c: Ctx)
    requires AdmitAt(states, acts, k, c)
    ensures var s, p := states[k], c.proposal;
            && (p.capability, p.action) in s.config.registry && s.config.registry[(p.capability, p.action)] == c.spec
            && c.workspace in s.config.policies && p.action !in s.config.policies[c.workspace].denied
            && p.capability in s.config.policies[c.workspace].capabilities
            && c.spec.risk !in s.config.policies[c.workspace].confirm && c.spec.risk in s.config.policies[c.workspace].allow
            && (s.config.requireLease != Some(false) ==> c.taskLease.Some?) && c.spec.domains <= c.manifest.Keys
  {
    PolicyMeans(states[k].config, c.workspace, c.proposal, c.spec.risk);
    hide Evaluate;
  }

  lemma GroundsAtInspect(states: seq<System>, acts: seq<Action>, k: nat, m: nat, c: Ctx, lease: Option<ResourceLease>)
    requires InspectAt(states, acts, k, c, lease, 0) && InspectAt(states, acts, m, c, lease, 1)
    ensures RevisionsMatch(states[k], c) && ObjectsUsable(states[k], c.proposal.refs, c.spec.permission, c.workspace)
    ensures TaskRowHolds(states[k], c) && ResourceRowHolds(states[m], c.taskId, lease)
  {
    PrepareCheckMeans(states[k], c, lease);
    PrepareCheckMeans(states[m], c, lease);
    hide PrepareCheck, RevisionsMatch, ObjectsUsable, TaskRowHolds, ResourceRowHolds;
  }

  lemma GroundsAtPrepare(states: seq<System>, acts: seq<Action>, k: nat, c: Ctx, lease: Option<ResourceLease>, o: Id)
    requires PrepareAt(states, acts, k, c, lease, o)
    ensures var s := states[k];
            && s.process.Up? && c.taskId in s.process.tasks
            && var b := s.process.tasks[c.taskId].budget;
               (b.maxOperations >= 0 ==> b.started < b.maxOperations) && (b.deadline.Some? ==> s.clock < b.deadline.value)
  {
    if states[k].process.Up? && c.taskId in states[k].process.tasks { BudgetMeans(states[k].process.tasks[c.taskId].budget, states[k].clock); }
  }

  lemma GroundsAtExecute(states: seq<System>, acts: seq<Action>, k: nat, m: nat, n: nat, c: Ctx, lease: Option<ResourceLease>, o: Id)
    requires FenceAt(states, acts, k, c, lease, o, 0) && FenceAt(states, acts, m, c, lease, o, 1) && BeginAt(states, acts, n, c, lease, o)
    ensures TaskRowHolds(states[k], c) && ResourceRowHolds(states[m], c.taskId, lease)
    ensures RevisionsMatch(states[n], c) && ObjectsUsable(states[n], c.proposal.refs, c.spec.permission, c.workspace)
    ensures c.proposal.capability in states[n].config.capabilities
  {
    ExecuteCheckMeans(states[k], c, lease);
    ExecuteCheckMeans(states[m], c, lease);
    ExecuteCheckMeans(states[n], c, lease);
    hide ExecuteCheck, MayBegin, NewOperation, RevisionsMatch, ObjectsUsable, TaskRowHolds, ResourceRowHolds;
  }

  lemma StartedOperation(s: System, c: Ctx, lease: Option<ResourceLease>, o: Id)
    requires Inv(s) && At(s, Started(c, lease, o))
    ensures o in s.store.ops
    ensures var op := s.store.ops[o];
            && op.taskId == c.taskId && op.workspace == c.workspace && op.capability == c.proposal.capability
            && op.refs == c.proposal.refs && op.permission == c.spec.permission && op.risk == c.spec.risk
            && op.state == Running && op.evidence == [] && op.result.None? && s.executed[o] == 0
  {
  }

  // ---- Every reconcile has its grounds ----

  predicate AskingIsAble(s: System) {
    s.process.Up? && s.process.pc.Asking? ==>
      s.process.pc.op in s.process.ops && s.process.ops[s.process.pc.op].capability in s.config.capabilities
  }

  lemma OutsideAsksAble(s: System, a: Action)
    requires Enabled(s, a) && Outside(a) && AskingIsAble(s)
    ensures AskingIsAble(Apply(s, a))
  {
    hide CanTick, CanOtherTaskLease, CanOtherResource;
  }

  lemma StepAsksAble(s: System, a: Action)
    requires Enabled(s, a) && !Outside(a) && AskingIsAble(s)
    ensures AskingIsAble(Apply(s, a))
  {
    hide Admissible, MayAcquire, PrepareCheck, ExecuteCheck, MayBegin, BudgetLeft, RowsWith, RowsWithout, NewOperation,
         AfterVerdict, AfterOutcome, AfterConclusion, RefsAccessible;
  }

  lemma {:induction false} RunAsksAble(states: seq<System>, acts: seq<Action>, i: nat)
    requires IsRun(states, acts) && i < |states|
    ensures AskingIsAble(states[i])
  {
    hide Enabled, Apply, AskingIsAble;
    if i == 0 {
      DownAsksNothing(states[0]);
    } else {
      RunAsksAble(states, acts, i - 1);
      if Outside(acts[i - 1]) { OutsideAsksAble(states[i - 1], acts[i - 1]); } else { StepAsksAble(states[i - 1], acts[i - 1]); }
    }
  }

  lemma DownAsksNothing(s: System)
    requires s.process.Down?
    ensures AskingIsAble(s)
  {
  }

  /** Every reconcile call of every run is about an operation that is durably RECONCILING and whose capability is there;
      and one that concludes, rather than raising at a locator, found every object of the operation active, of
      its workspace, and granting the permission it was registered with. */
  lemma ReconcilesHaveGrounds(states: seq<System>, acts: seq<Action>, i: nat)
    requires IsRun(states, acts) && i < |acts| && acts[i].CallReconcile?
    ensures states[i].process.Up? && states[i].process.pc.Asking?
    ensures var s, o := states[i], states[i].process.pc.op;
            && o in s.store.ops && s.store.ops[o].state == Reconciling && s.store.ops[o].capability in s.config.capabilities
            && (acts[i].conclusion.Concluded? ==>
                  ObjectsUsable(s, s.store.ops[o].refs, s.store.ops[o].permission, s.store.ops[o].workspace))
  {
    hide Inv, AskingIsAble, Enabled, Apply, ObjectsUsable;
    RunAsksAble(states, acts, i);
    RunKeepsInv(states, acts, i);
    EnabledReconcile(states[i], acts[i].conclusion);
    ReconcileGrounds(states[i], acts[i].conclusion);
  }

  lemma EnabledReconcile(s: System, c: Conclusion)
    requires Enabled(s, CallReconcile(c))
    ensures CanCallReconcile(s, c)
  {
  }

  lemma ReconcileGrounds(s: System, c: Conclusion)
    requires Inv(s) && CanCallReconcile(s, c) && AskingIsAble(s)
    ensures var o := s.process.pc.op;
            && o in s.store.ops && s.store.ops[o].state == Reconciling && s.store.ops[o].capability in s.config.capabilities
            && (c.Concluded? ==> ObjectsUsable(s, s.store.ops[o].refs, s.store.ops[o].permission, s.store.ops[o].workspace))
  {
    hide OpsOk, BudgetsOk;
  }

  // ---- When prepare and execute raise ----

  /** prepare passes its checks, and raises at them, exactly as rows, revisions, objects and budget say. */
  lemma PrepareDecides(s: System, c: Ctx, lease: Option<ResourceLease>)
    ensures R.PassesPrepare(s, c, lease, 0) <==>
              At(s, Holding(c, lease, 0)) && RevisionsMatch(s, c)
              && ObjectsUsable(s, c.proposal.refs, c.spec.permission, c.workspace) && TaskRowHolds(s, c)
    ensures R.PassesPrepare(s, c, lease, 1) <==> At(s, Holding(c, lease, 1)) && ResourceRowHolds(s, c.taskId, lease)
    ensures R.FailsPrepare(s, c, lease, R.Raised) <==>
              At(s, Holding(c, lease, 0))
              && !(RevisionsMatch(s, c) && ObjectsUsable(s, c.proposal.refs, c.spec.permission, c.workspace))
    ensures R.FailsPrepare(s, c, lease, R.LeaseLost) <==>
              || (At(s, Holding(c, lease, 0)) && RevisionsMatch(s, c)
                  && ObjectsUsable(s, c.proposal.refs, c.spec.permission, c.workspace) && !TaskRowHolds(s, c))
              || (At(s, Holding(c, lease, 1)) && !ResourceRowHolds(s, c.taskId, lease))
    ensures R.FailsPrepare(s, c, lease, R.BudgetExceeded(MaxOperations)) <==>
              At(s, Holding(c, lease, 2)) && c.taskId in s.process.tasks
              && var b := s.process.tasks[c.taskId].budget; b.maxOperations >= 0 && b.started >= b.maxOperations
    ensures R.FailsPrepare(s, c, lease, R.BudgetExceeded(Deadline)) <==>
              At(s, Holding(c, lease, 2)) && c.taskId in s.process.tasks
              && var b := s.process.tasks[c.taskId].budget;
                 (b.maxOperations >= 0 ==> b.started < b.maxOperations) && b.deadline.Some? && b.deadline.value <= s.clock
  {
    PrepareCheckMeans(s, c, lease);
    PrepareTermsMean(s, c, lease);
    hide RevisionsMatch, ObjectsUsable, TaskRowHolds, ResourceRowHolds, FenceHolds, W.Current, RefsAccessible;
  }

  lemma PrepareTermsMean(s: System, c: Ctx, lease: Option<ResourceLease>)
    ensures W.Current(s.world, Wanted(c), c.workspace) <==> RevisionsMatch(s, c)
    ensures RefsAccessible(s.world, c.proposal.refs, c.spec.permission, c.workspace)
            <==> ObjectsUsable(s, c.proposal.refs, c.spec.permission, c.workspace)
    ensures FenceHolds(TL.SlotsOf(s.store.taskLeases), c.taskId, TaskFence(c), s.clock) <==> TaskRowHolds(s, c)
    ensures FenceHolds(RL.RowSlots(s.store.resources), c.taskId, ResourceFence(lease), s.clock) <==> ResourceRowHolds(s, c.taskId, lease)
  {
    if W.Current(s.world, Wanted(c), c.workspace) {
      forall d | d in c.spec.domains && d in c.manifest ensures W.Revision(s.world, d, c.workspace) == c.manifest[d] {
        assert d in Wanted(c);
      }
    }
  }

  /** execute passes its checks on the operation of a step, and raises at them, exactly as the same facts say; a lease is
      lost exactly if its row is gone, is another's, or has expired. */
  lemma ExecuteDecides(s: System, c: Ctx, lease: Option<ResourceLease>, o: Id)
    requires s.process.Up? && o in s.process.ops && s.process.ops[o] == NewOperation(c, lease)
    ensures R.PassesExecute(s, c, lease, o, 0) <==> At(s, Ready(c, lease, o, 0)) && TaskRowHolds(s, c)
    ensures R.PassesExecute(s, c, lease, o, 1) <==> At(s, Ready(c, lease, o, 1)) && ResourceRowHolds(s, c.taskId, lease)
    ensures R.FailsExecute(s, c, lease, o, R.LeaseLost) <==>
              || (At(s, Ready(c, lease, o, 0)) && !TaskRowHolds(s, c))
              || (At(s, Ready(c, lease, o, 1)) && !ResourceRowHolds(s, c.taskId, lease))
    ensures var clear := c.proposal.capability in s.config.capabilities && RevisionsMatch(s, c)
                         && ObjectsUsable(s, c.proposal.refs, c.spec.permission, c.workspace);
            && (R.PassesExecute(s, c, lease, o, 2) <==> At(s, Ready(c, lease, o, 2)) && clear)
            && (R.FailsExecute(s, c, lease, o, R.Raised) <==> At(s, Ready(c, lease, o, 2)) && !clear)
  {
    ExecuteCheckMeans(s, c, lease);
    hide RevisionsMatch, ObjectsUsable, TaskRowHolds, ResourceRowHolds, ExecuteCheck, MayBegin, NewOperation;
  }

  // ---- What is recorded of an answer ----

  /** Over any run: what the record after an execute, verify or reconcile call stores is decided by the answer alone. An
      execute that returns stores OBSERVED and the result, one that raises UNKNOWN and the error. Evidence is appended,
      and VERIFIED is stored exactly if there is some and all of it passes, FAILED otherwise; a verify that raises
      leaves the state and stores the error. A reconcile that concludes stores its result, and VERIFIED exactly if it
      says so, FAILED otherwise; one that raises UNKNOWN and the error. Nothing else of the operation changes. */
  lemma AnswersAreRecorded(states: seq<System>, acts: seq<Action>, i: nat)
    requires IsRun(states, acts) && i < |acts| && states[i].process.Up?
    ensures acts[i].RecordOutcome? ==>
              && states[i].process.pc.Called?
              && var o, x := states[i].process.pc.op, states[i].process.pc.outcome;
                 o in states[i].store.ops && o in states[i + 1].store.ops
                 && states[i + 1].store.ops[o] == match x
                      case Returned(result) => states[i].store.ops[o].(state := Observed, result := result)
                      case ExecRaised(error) => states[i].store.ops[o].(state := Unknown, error := Some(error))
    ensures acts[i].RecordVerdict? ==>
              && states[i].process.pc.Judged?
              && var o, v := states[i].process.pc.op, states[i].process.pc.verdict;
                 o in states[i].store.ops && o in states[i + 1].store.ops
                 && states[i + 1].store.ops[o] == match v
                      case Evidenced(evidence) =>
                        states[i].store.ops[o].(
                          evidence := states[i].store.ops[o].evidence + evidence,
                          state := if |evidence| > 0 && forall k :: 0 <= k < |evidence| ==> evidence[k].status == "pass" then Verified else Failed)
                      case VerifyRaised(error) => states[i].store.ops[o].(error := Some(error))
    ensures acts[i].RecordReconcile? ==>
              && states[i].process.pc.Told?
              && var o, c := states[i].process.pc.op, states[i].process.pc.conclusion;
                 o in states[i].store.ops && o in states[i + 1].store.ops
                 && states[i + 1].store.ops[o] == match c
                      case Concluded(ok, result) => states[i].store.ops[o].(result := result, state := if ok then Verified else Failed)
                      case ReconcileRaised(error) => states[i].store.ops[o].(state := Unknown, error := Some(error))
  {
    RunKeepsInv(states, acts, i);
    hide Inv, Enabled, Apply;
    var s := states[i];
    if acts[i].RecordOutcome? { OutcomeIsRecorded(s); }
    if acts[i].RecordVerdict? { VerdictIsRecorded(s); }
    if acts[i].RecordReconcile? { ConclusionIsRecorded(s); }
  }

  lemma OutcomeIsRecorded(s: System)
    requires Inv(s) && Enabled(s, RecordOutcome) && s.process.Up?
    ensures s.process.pc.Called?
    ensures var o, x, s' := s.process.pc.op, s.process.pc.outcome, Apply(s, RecordOutcome);
            && o in s.store.ops && o in s'.store.ops
            && s'.store.ops[o] == match x
                 case Returned(result) => s.store.ops[o].(state := Observed, result := result)
                 case ExecRaised(error) => s.store.ops[o].(state := Unknown, error := Some(error))
  {
    hide OpsOk, BudgetsOk;
  }

  lemma VerdictIsRecorded(s: System)
    requires Inv(s) && Enabled(s, RecordVerdict) && s.process.Up?
    ensures s.process.pc.Judged?
    ensures var o, v, s' := s.process.pc.op, s.process.pc.verdict, Apply(s, RecordVerdict);
            && o in s.store.ops && o in s'.store.ops
            && s'.store.ops[o] == match v
                 case Evidenced(evidence) =>
                   s.store.ops[o].(
                     evidence := s.store.ops[o].evidence + evidence,
                     state := if |evidence| > 0 && forall k :: 0 <= k < |evidence| ==> evidence[k].status == "pass" then Verified else Failed)
                 case VerifyRaised(error) => s.store.ops[o].(error := Some(error))
  {
    hide OpsOk, BudgetsOk;
  }

  lemma ConclusionIsRecorded(s: System)
    requires Inv(s) && Enabled(s, RecordReconcile) && s.process.Up?
    ensures s.process.pc.Told?
    ensures var o, c, s' := s.process.pc.op, s.process.pc.conclusion, Apply(s, RecordReconcile);
            && o in s.store.ops && o in s'.store.ops
            && s'.store.ops[o] == match c
                 case Concluded(ok, result) => s.store.ops[o].(result := result, state := if ok then Verified else Failed)
                 case ReconcileRaised(error) => s.store.ops[o].(state := Unknown, error := Some(error))
  {
    hide OpsOk, BudgetsOk;
  }
}
