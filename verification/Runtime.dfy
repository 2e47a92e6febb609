/** One live process of the engine: the task and operation runtimes of liandanlu_native/runtime.py:181-530,
    the agent runner of liandanlu_native/agent.py:36-195 and the recovery of liandanlu_native/recovery.py:19-73.

    Every method here is a run of the machine of module Engine, one step for each transaction and each call
    into a capability, so what EngineSafety proves of all runs holds of every execution of these methods
    and of every crash inside one of them. What the outside world answers (the model's proposal, the
    capability's results, fresh ids) is passed in. */
module Runtime {
  import opened Basics
  import opened Models
  import opened Engine
  import S = EngineSafety
  import F = Fencing
  import TL = TaskLeases
  import RL = ResourceLeases
  import W = World

  // ---- Updates of a task ----

  function Touched(t: Task): Task { t.(revision := t.revision + 1) }

  function WaitingFor(t: Task, reason: string): Task { Touched(t.(state := Waiting, waitReason := Some(reason))) }

  function Updated(t: Task, state: Option<TaskState>, phase: Option<TaskPhase>): Task {
    var t' := t.(state := if state.Some? then state.value else t.state, phase := if phase.Some? then phase.value else t.phase);
    if t' == t then t else Touched(t')
  }

  /** settle_control: what the user asked for takes effect at a safe boundary. */
  function Settled(t: Task, safe: bool, cancelConfirmed: bool): Task {
    var t' := if t.desired == Paused && safe then t.(state := Paused)
              else if t.desired == TaskCancelled && (safe || cancelConfirmed) then t.(state := TaskCancelled)
              else t;
    if t'.state == t.state then t else Touched(t')
  }

  // ---- What becomes of an operation ----

  predicate Terminal(op: Operation) { op.state in {Verified, Failed, Cancelled} }

  /** An operation after its execute call and the verification that follows. */
  function Executed(op: Operation, outcome: ExecOutcome, verdict: Verdict): Operation {
    match outcome
    case ExecRaised(error) => op.(state := Unknown, error := Some(error))
    case Returned(None) => op.(state := Unknown, result := None)
    case Returned(Some(r)) => AfterVerdict(op.(state := Verifying, result := Some(r)), verdict)
  }

  /** An observed operation after verification. */
  function AfterVerify(op: Operation, verdict: Verdict): Operation {
    if op.result.None? then op.(state := Unknown) else AfterVerdict(op.(state := Verifying), verdict)
  }

  lemma ExecutedInTwo(op: Operation, outcome: ExecOutcome, verdict: Verdict)
    ensures Executed(op, outcome, verdict)
            == if outcome.ExecRaised? then AfterOutcome(op, outcome) else AfterVerify(AfterOutcome(op, outcome), verdict)
  {
  }

  /** An operation after recovery has dealt with it. */
  function Recovered(op: Operation, verdict: Verdict, conclusion: Conclusion): Operation {
    match op.state
    case Prepared => op.(state := Cancelled)
    case Observed => if op.result.Some? then AfterVerdict(op.(state := Verifying), verdict) else op
    case Verifying => if op.result.Some? then AfterVerdict(op, verdict) else op
    case Running => AfterConclusion(op.(state := Reconciling), conclusion)
    case Unknown => AfterConclusion(op.(state := Reconciling), conclusion)
    case Reconciling => AfterConclusion(op, conclusion)
    case _ => op
  }

  /** The error that a failed locator lookup leaves in an operation. */
  const LOST := ReconcileRaised("locator")

  /** An operation that recovery can do nothing for: it was observed to have no result. */
  predicate Stuck(op: Operation) { op.state in {Observed, Verifying} && op.result.None? }

  /** With every answer given, recovery ends every operation but a stuck one, and a stuck one it leaves as
      it is. */
  lemma RecoveryConcludesIff(op: Operation, verdict: Verdict, conclusion: Conclusion)
    requires verdict.Evidenced? && conclusion.Concluded?
    ensures Terminal(Recovered(op, verdict, conclusion)) <==> !Stuck(op)
    ensures Stuck(op) ==> Recovered(op, verdict, conclusion) == op
  {
  }

  /** What recovery makes of an operation whose outcome is uncertain: the conclusion alone decides. It ends VERIFIED
      exactly if reconcile said so and FAILED exactly if it denied it, with the result told; if reconcile raised it
      ends UNKNOWN with that error. Nothing else of the operation changes. */
  lemma ReconcileDecides(op: Operation, verdict: Verdict, conclusion: Conclusion)
    requires op.state in {Running, Unknown, Reconciling}
    ensures var r := Recovered(op, verdict, conclusion);
            && (r.state == Verified <==> conclusion.Concluded? && conclusion.ok)
            && (r.state == Failed <==> conclusion.Concluded? && !conclusion.ok)
            && (r.state == Unknown <==> conclusion.ReconcileRaised?)
            && r.result == (if conclusion.Concluded? then conclusion.result else op.result)
            && r.error == (if conclusion.Concluded? then op.error else Some(conclusion.error))
            && r.(state := op.state, result := op.result, error := op.error) == op
  {
  }

  /** What recovery makes of the others: a prepared one is cancelled; an observed one is judged by its verdict, VERIFIED
      exactly if there is evidence and all of it passes, FAILED exactly if it raised nothing and that is not so; final ones
      and those without a result stay as they are. */
  lemma RecoveryDecides(op: Operation, verdict: Verdict, conclusion: Conclusion)
    ensures var r := Recovered(op, verdict, conclusion);
            && (op.state == Prepared ==> r == op.(state := Cancelled))
            && (op.state in {Verified, Failed, Cancelled} || (op.state in {Observed, Verifying} && op.result.None?) ==> r == op)
            && (op.state in {Observed, Verifying} && op.result.Some? ==>
                  if verdict.VerifyRaised? then r == op.(state := Verifying, error := Some(verdict.error))
                  else && r == op.(state := r.state, evidence := op.evidence + verdict.evidence)
                       && r.state == (if |verdict.evidence| > 0
                                         && forall k :: 0 <= k < |verdict.evidence| ==> verdict.evidence[k].status == "pass"
                                      then Verified else Failed))
  {
  }

  /** What execute makes of an operation: UNKNOWN with the error if the call raised, UNKNOWN without a result if it
      returned none, and otherwise, with the result, what the verdict says. */
  lemma ExecuteDecides(op: Operation, outcome: ExecOutcome, verdict: Verdict)
    ensures var r := Executed(op, outcome, verdict);
            match outcome
            case ExecRaised(error) => r == op.(state := Unknown, error := Some(error))
            case Returned(None) => r == op.(state := Unknown, result := None)
            case Returned(Some(x)) =>
              if verdict.VerifyRaised? then r == op.(state := Verifying, result := Some(x), error := Some(verdict.error))
              else && r == op.(state := r.state, result := Some(x), evidence := op.evidence + verdict.evidence)
                   && r.state == (if |verdict.evidence| > 0
                                     && forall k :: 0 <= k < |verdict.evidence| ==> verdict.evidence[k].status == "pass"
                                  then Verified else Failed)
  {
  }

  /** Where an exception keeps recovery from a conclusion, the operation stays recoverable. */
  lemma RecoveryFailsSoftly(op: Operation, verdict: Verdict, conclusion: Conclusion)
    ensures var r := Recovered(op, verdict, conclusion);
            || Terminal(r) || Stuck(r)
            || (r.state == Unknown && conclusion.ReconcileRaised?) || (r.state == Verifying && verdict.VerifyRaised?)
  {
  }

  /** No operation is ever stored as observed without a result unless an execute call returned None. */
  lemma {:induction false} StuckNeedsNone(states: seq<System>, acts: seq<Action>, i: nat, o: Id)
    requires IsRun(states, acts) && i < |states|
    requires forall k :: 0 <= k < i ==> acts[k] != CallExecute(Returned(None))
    ensures o in states[i].store.ops ==> !Stuck(states[i].store.ops[o])
    ensures !S.GaveNothing(states[i])
  {
    hide Enabled, Apply, S.Steady, S.ResourcesMove, S.LeaseKept, S.Arrives, S.BudgetsOk, S.PcOk, S.MemoryOk;
    if i > 0 {
      StuckNeedsNone(states, acts, i - 1, o);
      S.RunStepIsGood(states, acts, i - 1);
      if o in states[i].store.ops {
        assert S.OpOk(states[i].store.ops[o], states[i].executed[o], o in states[i].confirmed);
      }
    }
  }

  /** `states` and `acts` are a run of the machine that has arrived at `s`. */
  ghost predicate Reaches(states: seq<System>, acts: seq<Action>, s: System) {
    IsRun(states, acts) && states[|acts|] == s
  }

  lemma RunExtends(states: seq<System>, acts: seq<Action>, s: System, a: Action)
    requires Reaches(states, acts, s) && Enabled(s, a)
    ensures Reaches(states + [Apply(s, a)], acts + [a], Apply(s, a))
  {
    hide Enabled, Apply, Initial;
  }

  lemma Overwrites<V>(m: map<Id, V>, o: Id, a: V, b: V)
    ensures m[o := a][o := b] == m[o := b]
  {
  }

  lemma ExecutedFromRunning(op: Operation, outcome: ExecOutcome, verdict: Verdict)
    ensures Executed(op.(state := Running), outcome, verdict) == Executed(op, outcome, verdict)
  {
  }

  /** Where execute leaves an operation. */
  lemma ExecutedState(op: Operation, outcome: ExecOutcome, verdict: Verdict)
    ensures Executed(op, outcome, verdict).state in {Unknown, Verifying, Verified, Failed}
    ensures Executed(op, outcome, verdict).state == Unknown <==> outcome.ExecRaised? || outcome == Returned(None)
  {
  }

  // ---- The steps a process takes ----

  ghost predicate Moves(s: System, a: Action, pc: Pc) { s.process.Up? && Enabled(s, a) && Apply(s, a) == Goto(s, pc) }

  ghost predicate Saves(s: System, a: Action, o: Id, op: Operation, pc: Pc) {
    s.process.Up? && Enabled(s, a) && Apply(s, a) == Saved(s, o, op, pc)
  }

  lemma CheckMoves(s: System, c: Ctx, lease: Option<ResourceLease>, o: Id, done: nat)
    requires At(s, Ready(c, lease, o, done)) && done < 2 && o in s.process.ops && ExecuteCheck(s, s.process.ops[o], done)
    ensures Moves(s, Check, Ready(c, lease, o, done + 1))
  {
  }

  lemma InspectMoves(s: System, c: Ctx, lease: Option<ResourceLease>, done: nat)
    requires At(s, Holding(c, lease, done)) && done < 2 && PrepareCheck(s, c, lease, done)
    ensures Moves(s, Check, Holding(c, lease, done + 1))
  {
  }

  lemma AdmitMoves(s: System, c: Ctx)
    requires At(s, Idle) && Admissible(s, c)
    ensures Moves(s, Admit(c), Allowed(c))
  {
  }

  lemma GiveUpMoves(s: System, c: Ctx)
    requires At(s, Allowed(c))
    ensures Moves(s, GiveUp, Idle)
  {
  }

  /** Memory agrees with the store between steps. */
  lemma MemoryAgrees(states: seq<System>, acts: seq<Action>, s: System)
    requires Reaches(states, acts, s) && s.process.Up?
    ensures s.store.ops == s.process.ops && s.store.tasks == s.process.tasks
  {
    S.RunKeepsInv(states, acts, |acts|);
  }

  lemma StillSane(states: seq<System>, acts: seq<Action>, s: System)
    requires Reaches(states, acts, s)
    ensures s.clock >= 0.0
  {
    S.RunKeepsInv(states, acts, |acts|);
  }

  lemma AbandonMoves(s: System, lease: Option<ResourceLease>)
    requires CanAbandon(s) && s.process.pc.lease == lease
    ensures Moves(s, Abandon, Leaving(lease))
  {
  }

  lemma BeginSaves(s: System, c: Ctx, lease: Option<ResourceLease>, o: Id)
    requires At(s, Ready(c, lease, o, 2)) && o in s.process.ops && MayBegin(s, s.process.ops[o])
    ensures Saves(s, Begin, o, s.process.ops[o].(state := Running), Started(c, lease, o))
  {
  }

  lemma OutcomeSaves(s: System, o: Id, x: ExecOutcome, lease: Option<ResourceLease>)
    requires At(s, Called(o, x, lease)) && o in s.process.ops
    ensures Saves(s, RecordOutcome, o, AfterOutcome(s.process.ops[o], x), if x.Returned? then Watched(o, lease) else Leaving(lease))
  {
  }

  lemma BeginVerifySaves(s: System, o: Id, lease: Option<ResourceLease>)
    requires At(s, Watched(o, lease)) && o in s.process.ops
    ensures var op := s.process.ops[o];
            if op.result.None? then Saves(s, BeginVerify, o, op.(state := Unknown), Leaving(lease))
            else Saves(s, BeginVerify, o, op.(state := Verifying), Checking(o, FinishStep(lease)))
  {
  }

  lemma VerifyMoves(s: System, o: Id, v: Verdict, next: Then)
    requires At(s, Checking(o, next))
    ensures Moves(s, CallVerify(v), Judged(o, v, next))
  {
  }

  lemma VerdictSaves(s: System, o: Id, v: Verdict, next: Then)
    requires At(s, Judged(o, v, next)) && o in s.process.ops
    ensures Saves(s, RecordVerdict, o, AfterVerdict(s.process.ops[o], v), Continue(next))
  {
  }

  lemma ReconcileSaves(s: System, o: Id, c: Conclusion, rest: seq<Id>)
    requires At(s, Told(o, c, rest)) && o in s.process.ops
    ensures Saves(s, RecordReconcile, o, AfterConclusion(s.process.ops[o], c), Recovering(rest))
  {
  }

  lemma RecoverySteps(s: System, o: Id, rest: seq<Id>)
    requires At(s, Recovering([o] + rest)) && o in s.process.ops && !Blocked(s.process.ops[o], s.config.capabilities)
    ensures var op := s.process.ops[o];
            if op.state == Prepared then Saves(s, RecoverNext, o, op.(state := Cancelled), Recovering(rest))
            else if op.state in {Observed, Verifying} && op.result.Some? then
              Saves(s, RecoverNext, o, op.(state := Verifying), Checking(o, ResumeRecovery(rest)))
            else if op.state in {Running, Unknown, Reconciling} then
              Saves(s, RecoverNext, o, op.(state := Reconciling), Asking(o, rest))
            else Moves(s, RecoverNext, Recovering(rest))
  {
    assert ([o] + rest)[1..] == rest;
  }

  lemma RecoveryMoves(s: System, todo: seq<Id>)
    ensures At(s, Idle) && (forall k :: 0 <= k < |todo| ==> todo[k] in s.process.ops) ==> Moves(s, BeginRecovery(todo), Recovering(todo))
    ensures At(s, Recovering(todo)) ==> Moves(s, EndRecovery, Idle)
  {
  }

  /** Recovery raises at an operation that needs a capability which is not there. */
  predicate Blocked(op: Operation, capabilities: set<Id>) { NeedsCapability(op) && op.capability !in capabilities }

  /** `order` visits every key once. */
  predicate Visits<V>(order: seq<Id>, m: map<Id, V>) {
    && (forall k :: 0 <= k < |order| ==> order[k] in m)
    && (forall i, j :: 0 <= i < j < |order| ==> order[i] != order[j])
    && (forall o :: o in m ==> o in order)
  }

  /** How many of the first `n` operations are not finished. */
  function CountOpen(ops: map<Id, Operation>, order: seq<Id>, n: nat): nat
    requires n <= |order| && forall k :: 0 <= k < |order| ==> order[k] in ops
  {
    if n == 0 then 0 else CountOpen(ops, order, n - 1) + (if Terminal(ops[order[n - 1]]) then 0 else 1)
  }

  lemma {:induction false} NoneOpen(ops: map<Id, Operation>, order: seq<Id>, n: nat)
    requires n <= |order| && forall k :: 0 <= k < |order| ==> order[k] in ops && Terminal(ops[order[k]])
    ensures CountOpen(ops, order, n) == 0
  {
    if n > 0 { NoneOpen(ops, order, n - 1); }
  }

  /** How many of the first `n` tasks settling moves. */
  function CountMoved(tasks: map<Id, Task>, order: seq<Id>, n: nat): nat
    requires n <= |order| && forall k :: 0 <= k < |order| ==> order[k] in tasks
  {
    if n == 0 then 0 else
      CountMoved(tasks, order, n - 1) + (if Settled(tasks[order[n - 1]], true, false) == tasks[order[n - 1]] then 0 else 1)
  }

  /** When a request takes effect: a pause at a safe boundary, a cancellation there or when it has been confirmed from
      outside; and nothing else of the task changes but its revision, with its state. */
  lemma SettlingMeans(t: Task, safe: bool, cancelConfirmed: bool)
    ensures var r := Settled(t, safe, cancelConfirmed);
            && r.state == (if t.desired == Paused && safe then Paused
                           else if t.desired == TaskCancelled && (safe || cancelConfirmed) then TaskCancelled else t.state)
            && r.revision == (if r.state == t.state then t.revision else t.revision + 1)
            && r.(state := t.state, revision := t.revision) == t
  {
  }

  /** The small updates of a task. */
  lemma UpdatesMean(t: Task, state: Option<TaskState>, phase: Option<TaskPhase>, reason: string)
    ensures var r := Updated(t, state, phase);
            && (state.Some? ==> r.state == state.value) && (state.None? ==> r.state == t.state)
            && (phase.Some? ==> r.phase == phase.value) && (phase.None? ==> r.phase == t.phase)
            && r.revision == (if r.state == t.state && r.phase == t.phase then t.revision else t.revision + 1)
            && r.(state := t.state, phase := t.phase, revision := t.revision) == t
    ensures WaitingFor(t, reason) == t.(state := Waiting, waitReason := Some(reason), revision := t.revision + 1)
    ensures Charged(t) == t.(budget := t.budget.(started := t.budget.started + 1), revision := t.revision + 1)
  {
  }

  /** A settled task has nothing left to settle. */
  lemma SettledIsStable(t: Task)
    ensures var r := Settled(t, true, false); Settled(r, true, false) == r
    ensures t.desired in {Paused, TaskCancelled} ==> Settled(t, true, false).state == t.desired
  {
  }

  /** How recovery answers each operation; `lost` are those whose locators could not be resolved. */
  function RecoveredBy(op: Operation, o: Id, verdicts: Id -> Verdict, conclusions: Id -> Conclusion, lost: set<Id>): Operation {
    Recovered(op, verdicts(o), if o in lost then LOST else conclusions(o))
  }

  /** The first `n` operations in order have been recovered, none of them raising, and the others are as
      they were; `reconciled` counts those that were open. */
  ghost predicate Progress(was: map<Id, Operation>, ops: map<Id, Operation>, order: seq<Id>, n: nat, verdicts: Id -> Verdict,
                           conclusions: Id -> Conclusion, lost: set<Id>, reconciled: nat, capabilities: set<Id>) {
    && n <= |order| && ops.Keys == was.Keys && Visits(order, was)
    && (forall k :: 0 <= k < n ==> !Blocked(was[order[k]], capabilities))
    && (forall k :: 0 <= k < n ==> ops[order[k]] == RecoveredBy(was[order[k]], order[k], verdicts, conclusions, lost))
    && (forall k :: n <= k < |order| ==> ops[order[k]] == was[order[k]])
    && (forall o :: o in lost ==> o in order[..n])
    && reconciled == CountOpen(was, order, n)
  }

  lemma ProgressStarts(ops: map<Id, Operation>, order: seq<Id>, verdicts: Id -> Verdict, conclusions: Id -> Conclusion,
                       capabilities: set<Id>)
    requires Visits(order, ops)
    ensures Progress(ops, ops, order, 0, verdicts, conclusions, {}, 0, capabilities)
    ensures forall k :: 0 <= k < |order| ==> order[k] in ops
  {
  }

  lemma NextToRecover(was: map<Id, Operation>, ops: map<Id, Operation>, order: seq<Id>, n: nat, verdicts: Id -> Verdict,
                      conclusions: Id -> Conclusion, lost: set<Id>, reconciled: nat, capabilities: set<Id>)
    requires n < |order| && Progress(was, ops, order, n, verdicts, conclusions, lost, reconciled, capabilities)
    ensures order[n] in ops && order[n] in was && ops[order[n]] == was[order[n]] && order[n] !in order[..n]
  {
  }

  lemma ProgressStep(was: map<Id, Operation>, ops: map<Id, Operation>, order: seq<Id>, n: nat, verdicts: Id -> Verdict,
                     conclusions: Id -> Conclusion, lost: set<Id>, reconciled: nat, capabilities: set<Id>, gone: bool)
    requires n < |order| && Progress(was, ops, order, n, verdicts, conclusions, lost, reconciled, capabilities)
    requires order[n] in ops && !Blocked(ops[order[n]], capabilities)
    ensures var o := order[n];
            var ops' := ops[o := Recovered(ops[o], verdicts(o), if gone then LOST else conclusions(o))];
            Progress(was, ops', order, n + 1, verdicts, conclusions, if gone then lost + {o} else lost,
                     if Terminal(ops[o]) then reconciled else reconciled + 1, capabilities)
  {
    hide Recovered, Blocked, Terminal;
    assert order[n] !in lost;
  }

  predicate Uncertain(op: Operation) { op.state in {Running, Unknown, Reconciling} }

  /** In state `s` recovery looks up the objects of operation `o`; it fails if one of them is not registered, not
      active, of another workspace, or without the permission. */
  predicate Looks(s: System, o: Id, fails: bool) {
    && s.process.Up? && s.process.pc.Asking? && s.process.pc.op == o && o in s.process.ops
    && var op := s.process.ops[o];
       fails <==> exists i :: 0 <= i < |op.refs| && !(&& op.refs[i] in s.world.entities && s.world.entities[op.refs[i]].active
                                                      && s.world.entities[op.refs[i]].workspace == op.workspace
                                                      && op.permission in s.world.entities[op.refs[i]].permissions)
  }

  /** Since position `since` of the history the objects of `o` have been looked up with this outcome. */
  ghost predicate Looked(states: seq<System>, since: nat, o: Id, fails: bool) {
    exists k :: 0 <= k < |states| && k + 1 >= since && Looks(states[k], o, fails)
  }

  lemma LooksNow(states: seq<System>, acts: seq<Action>, s: System, since: nat, o: Id)
    requires Reaches(states, acts, s) && since <= |states|
    requires s.process.Up? && s.process.pc.Asking? && s.process.pc.op == o && o in s.process.ops
    ensures var op := s.process.ops[o];
            Looked(states, since, o, !RefsAccessible(s.world, op.refs, op.permission, op.workspace))
  {
    hide Reaches;
    Present(states, acts, s);
    var op := s.process.ops[o];
    assert Looks(s, o, !RefsAccessible(s.world, op.refs, op.permission, op.workspace));
  }

  lemma LookedLater(states: seq<System>, since: nat, states': seq<System>, since': nat, o: Id, fails: bool)
    requires states <= states' && since' <= since && Looked(states, since, o, fails)
    ensures Looked(states', since', o, fails)
  {
    hide Looks;
  }

  /** Of the first `n` operations exactly the uncertain ones were looked up, and those in `lost` are the ones for which
      that failed. */
  ghost predicate LookedUp(was: map<Id, Operation>, order: seq<Id>, n: nat, states: seq<System>, since: nat, lost: set<Id>) {
    && n <= |order| && (forall k :: 0 <= k < n ==> order[k] in was)
    && (forall k :: 0 <= k < n && Uncertain(was[order[k]]) ==> Looked(states, since, order[k], order[k] in lost))
    && (forall o :: o in lost ==> o in order[..n] && o in was && Uncertain(was[o]))
  }

  lemma NoneLookedUp(was: map<Id, Operation>, order: seq<Id>, states: seq<System>)
    ensures LookedUp(was, order, 0, states, |states|, {})
  {
  }

  lemma LookedUpLater(was: map<Id, Operation>, order: seq<Id>, n: nat, states: seq<System>, states': seq<System>, since: nat, lost: set<Id>)
    requires LookedUp(was, order, n, states, since, lost) && states <= states'
    ensures LookedUp(was, order, n, states', since, lost)
  {
    hide Looked, Uncertain;
    forall k | 0 <= k < n && Uncertain(was[order[k]]) ensures Looked(states', since, order[k], order[k] in lost) {
      LookedLater(states, since, states', since, order[k], order[k] in lost);
    }
  }

  lemma LookedUpStep(was: map<Id, Operation>, order: seq<Id>, n: nat, states: seq<System>, since': nat, since: nat, lost: set<Id>, gone: bool)
    requires n < |order| && LookedUp(was, order, n, states, since, lost) && order[n] in was && order[n] !in order[..n] && since <= since'
    requires if Uncertain(was[order[n]]) then Looked(states, since', order[n], gone) else !gone
    ensures LookedUp(was, order, n + 1, states, since, if gone then lost + {order[n]} else lost)
  {
    hide Looked, Uncertain;
    if Uncertain(was[order[n]]) { LookedLater(states, since', states, since, order[n], gone); }
    assert order[n] !in lost;
  }

  /** The first `n` tasks in order have been settled and the others are as they were. */
  ghost predicate SettledUpTo(was: map<Id, Task>, tasks: map<Id, Task>, order: seq<Id>, n: nat, moved: nat) {
    && n <= |order| && tasks.Keys == was.Keys && Visits(order, was)
    && (forall k :: 0 <= k < n ==> tasks[order[k]] == Settled(was[order[k]], true, false))
    && (forall k :: n <= k < |order| ==> tasks[order[k]] == was[order[k]])
    && moved == CountMoved(was, order, n)
  }

  lemma SettledStarts(tasks: map<Id, Task>, order: seq<Id>)
    requires Visits(order, tasks)
    ensures SettledUpTo(tasks, tasks, order, 0, 0)
  {
  }

  lemma NothingToSettle(t: Task)
    requires t.desired !in {Paused, TaskCancelled}
    ensures Settled(t, true, false) == t
  {
  }

  lemma SettledStep(was: map<Id, Task>, tasks: map<Id, Task>, order: seq<Id>, n: nat, moved: nat)
    requires n < |order| && SettledUpTo(was, tasks, order, n, moved)
    ensures order[n] in tasks
    ensures var t := tasks[order[n]];
            var t' := Settled(t, true, false);
            SettledUpTo(was, tasks[order[n] := t'], order, n + 1, moved + if t'.state == t.state then 0 else 1)
  {
  }

  /** Recovery over all operations: each has the form recovery gives it, and with every answer given each
      is final unless it was stuck. */
  lemma AllRecovered(was: map<Id, Operation>, ops: map<Id, Operation>, order: seq<Id>, verdicts: Id -> Verdict,
                     conclusions: Id -> Conclusion, lost: set<Id>, reconciled: nat, capabilities: set<Id>)
    requires Progress(was, ops, order, |order|, verdicts, conclusions, lost, reconciled, capabilities)
    ensures ops.Keys == was.Keys
    ensures forall o :: o in was ==> ops[o] == RecoveredBy(was[o], o, verdicts, conclusions, lost)
    ensures forall o :: o in was ==> !Blocked(was[o], capabilities)
    ensures Calm(verdicts, conclusions, lost) ==> forall o :: o in was ==> (Terminal(ops[o]) <==> !Stuck(was[o]))
    ensures (forall o :: o in was ==> Terminal(was[o])) ==> ops == was && reconciled == 0
  {
    forall o | o in was
      ensures ops[o] == RecoveredBy(was[o], o, verdicts, conclusions, lost) && !Blocked(was[o], capabilities)
      ensures Calm(verdicts, conclusions, lost) ==> (Terminal(ops[o]) <==> !Stuck(was[o]))
    {
      var k :| 0 <= k < |order| && order[k] == o;
      if Calm(verdicts, conclusions, lost) { RecoveryConcludesIff(was[o], verdicts(o), conclusions(o)); }
    }
    if forall o :: o in was ==> Terminal(was[o]) { NoneOpen(was, order, |order|); }
  }

  lemma NoneStuck(states: seq<System>, acts: seq<Action>, s: System)
    requires Reaches(states, acts, s) && s.process.Up?
    ensures CallExecute(Returned(None)) !in acts ==> forall o :: o in s.process.ops ==> !Stuck(s.process.ops[o])
  {
    if CallExecute(Returned(None)) !in acts {
      S.RunKeepsInv(states, acts, |acts|);
      forall o | o in s.process.ops ensures !Stuck(s.process.ops[o]) {
        StuckNeedsNone(states, acts, |acts|, o);
      }
    }
  }

  lemma FinalIsNotBlocked(ops: map<Id, Operation>, capabilities: set<Id>)
    ensures forall o :: o in ops && Terminal(ops[o]) ==> !Blocked(ops[o], capabilities)
  {
  }

  /** No verify call, reconcile call or locator lookup of a recovery raises. */
  ghost predicate Calm(verdicts: Id -> Verdict, conclusions: Id -> Conclusion, lost: set<Id>) {
    lost == {} && forall o :: verdicts(o).Evidenced? && conclusions(o).Concluded?
  }

  /** The counters of task changes have grown by at least `n`. */
  predicate Aged(w: W.State, w': W.State, n: nat) {
    w'.revisions.tasks >= w.revisions.tasks + n && w'.revisions.global >= w.revisions.global + n
  }

  /** How an agent step ends: by an exception, in the phase the task has reached; by one of its early returns; or
      after the effect. */
  datatype End =
    | Threw(at: Option<TaskPhase>) | LeaseMissing | ControlSettled | Denied | NeedsConfirmation
    | NoResources(why: string) | OutOfBudget(reason: BlockReason) | LostLease(phase: TaskPhase) | Ran

  /** Requests to the task that arrive while the model thinks and while the capability is at work. */
  datatype Requests = Requests(early: Option<TaskState>, late: Option<TaskState>)

  /** control: a request to pause, stop or go on, which a finished task ignores. */
  function Asked(t: Task, desired: TaskState): Task {
    if Finished(t) then t else
      var state :=
        if desired == Paused then
          (if t.state == TaskRunning then Pausing else if t.state == Cancelling then t.state else Paused)
        else if desired == TaskCancelled then (if t.state in {TaskRunning, Pausing} then Cancelling else TaskCancelled)
        else if desired == TaskRunning && t.state in {Paused, Pausing, Waiting, Queued, Created} then TaskRunning
        else t.state;
      Touched(t.(desired := desired, state := state, waitReason := if desired == TaskRunning then None else t.waitReason))
  }

  /** What a request does, state by state. A running task is never stopped outright: it becomes PAUSING or CANCELLING, and
      PAUSED or CANCELLED at the next safe boundary. Any other is paused or cancelled at once, except that a task being
      cancelled stays so until then. A request to run wakes a task that is paused, pausing, waiting, queued or new, and
      clears its wait reason. A finished task ignores every request. */
  lemma RequestsMean(t: Task)
    ensures t.state in {Completed, TaskFailed, TaskCancelled} ==> forall d :: Asked(t, d) == t
    ensures t.state !in {Completed, TaskFailed, TaskCancelled} ==>
              && (forall d :: Asked(t, d).desired == d && Asked(t, d).revision == t.revision + 1 && Asked(t, d).budget == t.budget)
              && Asked(t, Paused).state == (if t.state == TaskRunning then Pausing else if t.state == Cancelling then Cancelling else Paused)
              && Asked(t, TaskCancelled).state == (if t.state == TaskRunning || t.state == Pausing then Cancelling else TaskCancelled)
              && Asked(t, TaskRunning).state == (if t.state in {Paused, Pausing, Waiting, Queued, Created} then TaskRunning else t.state)
              && Asked(t, TaskRunning).waitReason == None && Asked(t, Paused).waitReason == t.waitReason
              && Asked(t, TaskCancelled).waitReason == t.waitReason
    ensures t.state !in {Completed, TaskFailed, TaskCancelled} ==>
              && Settled(Asked(t, Paused), true, false).state == Paused
              && Asked(Settled(Asked(t, Paused), true, false), TaskRunning).state == TaskRunning
              && Settled(Asked(t, TaskCancelled), true, false).state == TaskCancelled
              && Finished(Settled(Asked(t, TaskCancelled), true, false))
  {
  }

  function AskedIf(t: Task, asked: Option<TaskState>): Task { if asked.None? then t else Asked(t, asked.value) }

  function BudgetText(reason: BlockReason): string {
    match reason case MaxOperations => "budget:max_operations" case Deadline => "budget:deadline"
  }

  // The task at the stages of a step.

  function Thought(t: Task, early: Option<TaskState>): Task { AskedIf(Updated(t, Some(TaskRunning), Some(Thinking)), early) }

  function Authorized(t: Task, early: Option<TaskState>): Task { Updated(Thought(t, early), None, Some(Authorizing)) }

  function Underway(t: Task): Task { Updated(Charged(t), None, Some(Executing)) }

  /** After the effect: by the state of the operation, unless a request is to be settled. */
  function AtRest(t: Task, op: OpState): Task {
    var open := op == Unknown || op == Verifying || op == Reconciling;
    Settled(Updated(t, Some(if open then Waiting else TaskRunning),
                    Some(if open then PhaseVerifying else if op == Verified then Observing else Replanning)), true, false)
  }

  /** After prepare or execute has raised. */
  function Excused(t: Task, end: End): Task {
    match end
    case LostLease(_) => WaitingFor(t, "lease:lost")
    case OutOfBudget(reason) => WaitingFor(t, BudgetText(reason))
    case _ => t
  }

  /** From an authorized task to the end of prepare and execute. */
  function Performed(t: Task, end: End, op: OpState, late: Option<TaskState>): Task {
    if end == Ran then AtRest(AskedIf(Underway(t), late), op)
    else if Stored(end) then Excused(Underway(t), end)
    else Excused(t, end)
  }

  /** From an authorized task to the end of the step. */
  function Acted(t: Task, end: End, op: OpState, late: Option<TaskState>): Task {
    if end.NoResources? then WaitingFor(t, end.why) else Performed(t, end, op, late)
  }

  /** The task after a step; `op` is the state that its operation has reached, if it ran. */
  function TaskAfter(end: End, t: Task, op: OpState, asked: Requests): Task {
    match end
    case Threw(None) => t
    case Threw(Some(Thinking)) => Thought(t, asked.early)
    case LeaseMissing => WaitingFor(t, "lease:required")
    case ControlSettled => Settled(t, true, false)
    case Denied => Updated(Authorized(t, asked.early), Some(TaskBlocked), None)
    case NeedsConfirmation => Updated(Authorized(t, asked.early), Some(Waiting), None)
    case _ => Acted(Authorized(t, asked.early), end, op, asked.late)
  }

  /** The ends that leave an operation in the store. */
  predicate Stored(end: End) { end == Ran || end == Threw(Some(Executing)) || end == LostLease(Executing) }

  /** A step that ends so has asked the model. */
  predicate Thinks(end: End) { end != Threw(None) && end != LeaseMissing && end != ControlSettled }

  /** The same place in the queue, and `charge` more operations started. */
  predicate SameButCharged(t: Task, r: Task, charge: nat) {
    && r.workspace == t.workspace && r.lane == t.lane && r.priority == t.priority && r.queuedAt == t.queuedAt
    && r.budget == t.budget.(started := t.budget.started + charge) && r.revision >= t.revision
  }

  predicate Unsettled(op: OpState) { op in {Unknown, Verifying, Reconciling} }

  lemma AtRestMeans(t: Task, op: OpState)
    ensures var r := AtRest(t, op);
            && SameButCharged(t, r, 0) && r.desired == t.desired
            && r.phase == (if Unsettled(op) then PhaseVerifying else if op == Verified then Observing else Replanning)
            && r.state == (if t.desired in {Paused, TaskCancelled} then t.desired else if Unsettled(op) then Waiting else TaskRunning)
  {
  }

  /** What a step does to the task it has authorized. */
  lemma ActedMeans(t: Task, end: End, op: OpState, late: Option<TaskState>)
    requires !Finished(t) && t.phase == Authorizing
    ensures var r := Acted(t, end, op, late);
            && SameButCharged(t, r, if Stored(end) then 1 else 0)
            && r.desired == (if end == Ran && late.Some? then late.value else t.desired)
            && (end.NoResources? ==> r.state == Waiting && r.waitReason == Some(end.why) && r.phase == Authorizing)
            && (end.OutOfBudget? ==> r.state == Waiting && r.waitReason == Some(BudgetText(end.reason)) && r.phase == Authorizing)
            && (end.LostLease? ==> r.state == Waiting && r.waitReason == Some("lease:lost"))
            && (end in {Threw(Some(Authorizing)), Threw(Some(Executing))} ==> r.phase == end.at.value && r.state == t.state)
            && (end == Ran ==> && r.phase == AtRest(t, op).phase
                               && r.state == (if r.desired in {Paused, TaskCancelled} then r.desired
                                              else if Unsettled(op) then Waiting else TaskRunning))
  {
    if end == Ran {
      AtRestMeans(t, op);
      AtRestMeans(AskedIf(Underway(t), late), op);
      hide AtRest;
    }
  }

  /** What `TaskAfter` means. The budget is charged exactly if the operation was stored, and nothing else of it, of
      the workspace and of the place in the queue changes. The latest request stands. A step that waits says why, and
      its task is WAITING; a refusal blocks it; an exception leaves it in the phase it had reached; after
      the effect the task is where a request wants it, or WAITING with an open operation and RUNNING otherwise. */
  lemma StepLeaves(end: End, t: Task, op: OpState, asked: Requests)
    ensures var r := TaskAfter(end, t, op, asked);
            && SameButCharged(t, r, if Stored(end) then 1 else 0)
            && r.desired == (if end == Ran && asked.late.Some? then asked.late.value
                             else if Thinks(end) && asked.early.Some? then asked.early.value else t.desired)
            && (end == LeaseMissing ==> r.state == Waiting && r.waitReason == Some("lease:required"))
            && (end.NoResources? ==> r.state == Waiting && r.waitReason == Some(end.why) && r.phase == Authorizing)
            && (end == OutOfBudget(MaxOperations) ==>
                  r.state == Waiting && r.waitReason == Some("budget:max_operations") && r.phase == Authorizing)
            && (end == OutOfBudget(Deadline) ==> r.state == Waiting && r.waitReason == Some("budget:deadline") && r.phase == Authorizing)
            && (end.LostLease? ==> r.state == Waiting && r.waitReason == Some("lease:lost"))
            && (end in {Threw(Some(Thinking)), Threw(Some(Authorizing)), Threw(Some(Executing))} ==>
                  r.phase == end.at.value && (asked.early.None? ==> r.state == TaskRunning))
            && (end == Denied ==> r.state == TaskBlocked && r.phase == Authorizing)
            && (end == NeedsConfirmation ==> r.state == Waiting && r.phase == Authorizing)
            && (end == ControlSettled && t.desired in {Paused, TaskCancelled} ==> r.state == t.desired)
            && (end == Ran ==>
                  && r.phase == (if Unsettled(op) then PhaseVerifying else if op == Verified then Observing else Replanning)
                  && r.state == (if r.desired in {Paused, TaskCancelled} then r.desired
                                 else if Unsettled(op) then Waiting else TaskRunning))
  {
    AuthorizedIsActive(t, asked.early);
    var auth := Authorized(t, asked.early);
    ActedMeans(auth, end, op, asked.late);
    AtRestMeans(auth, op);
    hide Authorized, Thought, Acted, AtRest;
  }

  /** A request while the model thinks is never ignored, and the task is not finished by it. */
  lemma AuthorizedIsActive(t: Task, early: Option<TaskState>)
    ensures var r := Authorized(t, early);
            && !Finished(r) && r.phase == Authorizing && SameButCharged(t, r, 0) && SameButCharged(t, Thought(t, early), 0)
            && r.desired == Thought(t, early).desired == (if early.Some? then early.value else t.desired)
            && Thought(t, early).phase == Thinking && r.state == Thought(t, early).state && (early.None? ==> r.state == TaskRunning)
  {
  }

  /** What a step works with, if its proposal resolves. */
  function ContextOf(c: Config, id: Id, task: Task, manifest: map<W.Domain, nat>, lease: Option<TaskLease>,
                     proposal: Option<Proposal>): Option<Ctx> {
    if proposal.None? || (proposal.value.capability, proposal.value.action) !in c.registry then None else
      Some(Ctx(id, task.workspace, proposal.value, c.registry[(proposal.value.capability, proposal.value.action)], manifest, lease))
  }

  /** A step adds its operation, executed if it ran, prepared if execute raised, and no other. */
  ghost predicate OpsAfter(end: End, ctx: Option<Ctx>, lease: Option<ResourceLease>, o: Id, outcome: ExecOutcome, verdict: Verdict,
                           was: map<Id, Operation>, now: map<Id, Operation>) {
    if end == Ran then ctx.Some? && now == was[o := Executed(NewOperation(ctx.value, lease), outcome, verdict)]
    else if Stored(end) then ctx.Some? && now == was[o := NewOperation(ctx.value, lease)]
    else now == was
  }

  /** The proposed action is registered as depending on the task counters or the global one. */
  predicate NeedsTaskCounters(c: Config, proposal: Option<Proposal>) {
    && proposal.Some? && (proposal.value.capability, proposal.value.action) in c.registry
    && var domains := c.registry[(proposal.value.capability, proposal.value.action)].domains;
       W.Tasks in domains || W.GlobalRevision in domains
  }

  /** A manifest taken from `w` or from the world as it was before: the counters never decrease. */
  predicate Past(manifest: map<W.Domain, nat>, w: W.State) {
    && (W.Tasks in manifest ==> manifest[W.Tasks] <= w.revisions.tasks)
    && (W.GlobalRevision in manifest ==> manifest[W.GlobalRevision] <= w.revisions.global)
  }

  /** The manifest is behind `w` in a counter that the action depends on. */
  predicate Stale(ctx: Ctx, w: W.State) {
    || (W.Tasks in Wanted(ctx) && Wanted(ctx)[W.Tasks] < w.revisions.tasks)
    || (W.GlobalRevision in Wanted(ctx) && Wanted(ctx)[W.GlobalRevision] < w.revisions.global)
  }

  lemma StaleIsNotCurrent(ctx: Ctx, w: W.State, w': W.State)
    requires Aged(w, w', 0)
    ensures Stale(ctx, w) ==> !W.Current(w', Wanted(ctx), ctx.workspace)
  {
    hide Wanted;
    if Stale(ctx, w) {
      var d := if W.Tasks in Wanted(ctx) && Wanted(ctx)[W.Tasks] < w.revisions.tasks then W.Tasks else W.GlobalRevision;
      assert d in Wanted(ctx) && W.Revision(w', d, ctx.workspace) > Wanted(ctx)[d];
    }
  }

  /** Of all revisions only the counters of task changes may have moved, and by at least `n`. */
  predicate TasksMoved(w: W.State, w': W.State, ws: Id, n: nat) {
    && Aged(w, w', n) && w'.revisions.desktop == w.revisions.desktop && w'.revisions.browser == w.revisions.browser
    && w'.revisions.media == w.revisions.media && W.WorkspaceRevision(w', ws) == W.WorkspaceRevision(w, ws)
  }

  /** When only task changes have come between a manifest and the check, as those of the step itself always do, the
      check passes exactly for actions that depend neither on the task counter nor on the global one. */
  lemma TaskChangesStopIff(w: W.State, w': W.State, ws: Id, domains: set<W.Domain>)
    requires TasksMoved(w, w', ws, 1)
    ensures W.Current(w', W.Select(W.Snapshot(w, ws), domains), ws) <==> W.Tasks !in domains && W.GlobalRevision !in domains
  {
    var wanted := W.Select(W.Snapshot(w, ws), domains);
    assert W.Tasks in domains ==> W.Revision(w', W.Tasks, ws) != wanted[W.Tasks];
    assert W.GlobalRevision in domains ==> W.Revision(w', W.GlobalRevision, ws) != wanted[W.GlobalRevision];
  }

  /** The step's own updates make such a manifest stale. */
  lemma CountersOf(c: Config, proposal: Option<Proposal>, ctx: Ctx, w: W.State, w': W.State)
    requires ctx.spec.domains <= ctx.manifest.Keys && Aged(w, w', 1)
    requires Some(ctx.proposal) == proposal
    requires (ctx.proposal.capability, ctx.proposal.action) in c.registry
    requires ctx.spec == c.registry[(ctx.proposal.capability, ctx.proposal.action)]
    ensures NeedsTaskCounters(c, proposal) && Past(ctx.manifest, w) ==> Stale(ctx, w')
  {
  }

  /** A step that ends before the model is asked takes no request. */
  lemma GateIgnoresRequests(end: End, t: Task, asked: Requests)
    requires end in {Threw(None), LeaseMissing, ControlSettled}
    ensures TaskAfter(end, t, Prepared, Requests(None, None)) == TaskAfter(end, t, Prepared, asked)
  {
  }

  lemma AuthorizingMoves(t: Task, early: Option<TaskState>)
    ensures Authorized(t, early) != Thought(t, early)
  {
  }

  lemma UnperformedIsSame(t: Task, op: OpState, late: Option<TaskState>)
    ensures Performed(t, Threw(Some(Authorizing)), op, late) == t
  {
  }

  lemma OpDoesNotMatter(t: Task, end: End, op: OpState, op': OpState, late: Option<TaskState>)
    requires end == Ran ==> op == op'
    ensures Acted(t, end, op, late) == Acted(t, end, op', late)
  {
  }

  lemma RanIsJustified(c: Config, states: seq<System>, since: nat, ctx: Ctx, lease: Option<ResourceLease>, o: Id)
    ensures Justified(c, states, since, ctx, lease, o, Ran)
  {
  }

  lemma ActedIsAfter(c: Config, states: seq<System>, since: nat, ctx: Ctx, lease: Option<ResourceLease>, o: Id, end: End,
                     t: Task, op: OpState, asked: Requests)
    requires Justified(c, states, since, ctx, lease, o, end)
    ensures TaskAfter(end, t, op, asked) == Acted(Authorized(t, asked.early), end, op, asked.late)
  {
    hide PrepareFailed, ExecuteFailed, WasRefused, Acted, Authorized;
  }

  lemma GateOpens(c: Config, id: Id, task: Task, home: Id, lease: Option<TaskLease>)
    ensures var gate := Gate(c, id, task, home, lease);
            && (gate.Some? ==> gate.value in {Threw(None), LeaseMissing, ControlSettled})
            && (gate.None? ==> && (LeaseRequired(c) ==> lease.Some?) && (lease.Some? ==> lease.value.taskId == id))
  {
  }

  datatype Fault = LeaseLost | BudgetExceeded(reason: BlockReason) | Raised

  // ---- Why a step ends as it does ----

  /** How a step ends that gets no further than the policy, as far as its inputs and the task decide it. */
  function Barrier(c: Config, id: Id, task: Task, manifest: map<W.Domain, nat>, lease: Option<TaskLease>,
                   proposal: Option<Proposal>): Option<End> {
    var ctx := ContextOf(c, id, task, manifest, lease, proposal);
    if ctx.None? || !(ctx.value.spec.domains <= manifest.Keys) then Some(Threw(Some(Thinking)))
    else
      match Evaluate(c, task.workspace, ctx.value.proposal, ctx.value.spec.risk)
      case Deny => Some(Denied)
      case RequireConfirmation => Some(NeedsConfirmation)
      case Allow => None
  }

  /** The early ends of a step, in the order in which they are tried. */
  function Early(c: Config, id: Id, task: Task, home: Id, manifest: map<W.Domain, nat>, lease: Option<TaskLease>,
                 proposal: Option<Proposal>): Option<End> {
    var gate := Gate(c, id, task, home, lease);
    if gate.Some? then gate else Barrier(c, id, task, manifest, lease, proposal)
  }

  /** Those before the model is asked. */
  function Gate(c: Config, id: Id, task: Task, home: Id, lease: Option<TaskLease>): Option<End> {
    if home != task.workspace || (lease.Some? && lease.value.taskId != id) then Some(Threw(None))
    else if LeaseRequired(c) && lease.None? then Some(LeaseMissing)
    else if task.desired in {Paused, TaskCancelled} then Some(ControlSettled)
    else None
  }

  /** The early ends one by one, in the order in which they take precedence. */
  lemma EarlyEndsMean(c: Config, id: Id, task: Task, home: Id, manifest: map<W.Domain, nat>, lease: Option<TaskLease>,
                      proposal: Option<Proposal>)
    ensures var early := Early(c, id, task, home, manifest, lease, proposal);
            var key := if proposal.Some? then (proposal.value.capability, proposal.value.action) else (0, 0);
            if home != task.workspace then early == Some(Threw(None))
            else if lease.Some? && lease.value.taskId != id then early == Some(Threw(None))
            else if c.requireLease != Some(false) && lease.None? then early == Some(LeaseMissing)
            else if task.desired == Paused || task.desired == TaskCancelled then early == Some(ControlSettled)
            else if proposal.None? || key !in c.registry then early == Some(Threw(Some(Thinking)))
            else if exists d :: d in c.registry[key].domains && d !in manifest then early == Some(Threw(Some(Thinking)))
            else if (|| task.workspace !in c.policies || proposal.value.action in c.policies[task.workspace].denied
                     || proposal.value.capability !in c.policies[task.workspace].capabilities) then early == Some(Denied)
            else if c.registry[key].risk in c.policies[task.workspace].confirm then early == Some(NeedsConfirmation)
            else if c.registry[key].risk in c.policies[task.workspace].allow then early == None
            else early == Some(Denied)
  {
  }

  /** In state `s` of the machine, prepare stands at the check that raises this fault, and the check fails. */
  predicate FailsPrepare(s: System, ctx: Ctx, lease: Option<ResourceLease>, fault: Fault) {
    var clear := W.Current(s.world, Wanted(ctx), ctx.workspace)
                  && RefsAccessible(s.world, ctx.proposal.refs, ctx.spec.permission, ctx.workspace);
    match fault
    case Raised => At(s, Holding(ctx, lease, 0)) && !clear
    case LeaseLost =>
      || (At(s, Holding(ctx, lease, 0)) && clear
          && !FenceHolds(TL.SlotsOf(s.store.taskLeases), ctx.taskId, TaskFence(ctx), s.clock))
      || (At(s, Holding(ctx, lease, 1)) && !FenceHolds(RL.RowSlots(s.store.resources), ctx.taskId, ResourceFence(lease), s.clock))
    case BudgetExceeded(reason) =>
      At(s, Holding(ctx, lease, 2)) && ctx.taskId in s.process.tasks
      && BudgetBlock(s.process.tasks[ctx.taskId].budget, s.clock) == Some(reason)
  }

  /** Likewise for execute on operation `o`. */
  predicate FailsExecute(s: System, ctx: Ctx, lease: Option<ResourceLease>, o: Id, fault: Fault) {
    s.process.Up? && o in s.process.ops &&
    match fault
    case Raised => At(s, Ready(ctx, lease, o, 2)) && !MayBegin(s, s.process.ops[o])
    case LeaseLost =>
      || (At(s, Ready(ctx, lease, o, 0)) && !ExecuteCheck(s, s.process.ops[o], 0))
      || (At(s, Ready(ctx, lease, o, 1)) && !ExecuteCheck(s, s.process.ops[o], 1))
    case BudgetExceeded(_) => false
  }

  /** In state `s` prepare stands at its check number `n`, and the check passes. */
  predicate PassesPrepare(s: System, ctx: Ctx, lease: Option<ResourceLease>, n: nat) {
    At(s, Holding(ctx, lease, n)) && (if n < 2 then PrepareCheck(s, ctx, lease, n) else BudgetLeft(s, ctx.taskId))
  }

  /** Likewise for execute on operation `o`. */
  predicate PassesExecute(s: System, ctx: Ctx, lease: Option<ResourceLease>, o: Id, n: nat) {
    && At(s, Ready(ctx, lease, o, n)) && o in s.process.ops
    && (if n < 2 then ExecuteCheck(s, s.process.ops[o], n) else MayBegin(s, s.process.ops[o]))
  }

  /** Since position `since` of the history there was a state in which prepare passed its check number `n`. */
  ghost predicate PreparePassed(states: seq<System>, since: nat, ctx: Ctx, lease: Option<ResourceLease>, n: nat) {
    exists k :: 0 <= k < |states| && k + 1 >= since && PassesPrepare(states[k], ctx, lease, n)
  }

  ghost predicate ExecutePassed(states: seq<System>, since: nat, ctx: Ctx, lease: Option<ResourceLease>, o: Id, n: nat) {
    exists k :: 0 <= k < |states| && k + 1 >= since && PassesExecute(states[k], ctx, lease, o, n)
  }

  lemma PassesPrepareNow(states: seq<System>, acts: seq<Action>, s: System, since: nat, ctx: Ctx, lease: Option<ResourceLease>, n: nat)
    requires Reaches(states, acts, s) && since <= |states| && PassesPrepare(s, ctx, lease, n)
    ensures PreparePassed(states, since, ctx, lease, n)
  {
    hide PassesPrepare, Reaches;
    Present(states, acts, s);
  }

  lemma PassesExecuteNow(states: seq<System>, acts: seq<Action>, s: System, since: nat,
                         ctx: Ctx, lease: Option<ResourceLease>, o: Id, n: nat)
    requires Reaches(states, acts, s) && since <= |states| && PassesExecute(s, ctx, lease, o, n)
    ensures ExecutePassed(states, since, ctx, lease, o, n)
  {
    hide PassesExecute, Reaches;
    Present(states, acts, s);
  }

  lemma PassedLater(states: seq<System>, since: nat, states': seq<System>, since': nat, ctx: Ctx, lease: Option<ResourceLease>, o: Id)
    requires states <= states' && since' <= since
    ensures forall n: nat :: PreparePassed(states, since, ctx, lease, n) ==> PreparePassed(states', since', ctx, lease, n)
    ensures forall n: nat :: ExecutePassed(states, since, ctx, lease, o, n) ==> ExecutePassed(states', since', ctx, lease, o, n)
  {
    hide PassesPrepare, PassesExecute;
  }

  /** The broker refuses the step's request in state `s`. */
  ghost predicate Refuses(s: System, ctx: Ctx) {
    && At(s, Allowed(ctx)) && s.config.broker.Some? && ctx.taskLease.Some?
    && RL.TableAcquire(s.store.resources, s.config.broker.value, ctx.taskId, ctx.taskLease.value.owner, ctx.spec.request,
                       s.config.resourceSeconds, s.clock) == RL.Refused
  }

  /** Since position `since` of the history there was a state in which prepare failed with this fault. */
  ghost predicate PrepareFailed(states: seq<System>, since: nat, ctx: Ctx, lease: Option<ResourceLease>, fault: Fault) {
    exists k :: 0 <= k < |states| && k + 1 >= since && FailsPrepare(states[k], ctx, lease, fault)
  }

  ghost predicate ExecuteFailed(states: seq<System>, since: nat, ctx: Ctx, lease: Option<ResourceLease>, o: Id, fault: Fault) {
    exists k :: 0 <= k < |states| && k + 1 >= since && FailsExecute(states[k], ctx, lease, o, fault)
  }

  ghost predicate WasRefused(states: seq<System>, since: nat, ctx: Ctx) {
    exists k :: 0 <= k < |states| && k + 1 >= since && Refuses(states[k], ctx)
  }

  /** acquire raises on these arguments. */
  predicate AcquireRaises(c: Config, ctx: Ctx) {
    && ctx.taskLease.Some? && c.broker.Some? && !EmptyRequest(ctx.spec.request)
    && (ctx.taskId == EMPTY || ctx.taskLease.value.owner == EMPTY || c.resourceSeconds <= 0.0)
  }

  /** Why a step that the policy allowed ends as it does: each end short of the effect has its failed check in the
      part of the history that the step added. */
  ghost predicate Justified(c: Config, states: seq<System>, since: nat, ctx: Ctx, lease: Option<ResourceLease>, o: Id, end: End) {
    match end
    case Ran => true
    case NoResources(why) =>
      && !EmptyRequest(ctx.spec.request)
      && (if ctx.taskLease.None? then why == "resource:task_lease_required"
          else if c.broker.None? then why == "resource:broker_unavailable"
          else why == "resource:unavailable" && WasRefused(states, since, ctx))
    case OutOfBudget(reason) => PrepareFailed(states, since, ctx, lease, BudgetExceeded(reason))
    case LostLease(phase) =>
      if phase == Executing then ExecuteFailed(states, since, ctx, lease, o, LeaseLost)
      else phase == Authorizing && PrepareFailed(states, since, ctx, lease, LeaseLost)
    case Threw(at) =>
      if at == Some(Executing) then ExecuteFailed(states, since, ctx, lease, o, Raised)
      else at == Some(Authorizing) && (AcquireRaises(c, ctx) || PrepareFailed(states, since, ctx, lease, Raised))
    case _ => false
  }

  lemma BudgetLeftStays(tasks: map<Id, Task>, s: System, id: Id)
    requires s.process.Up? && s.process.tasks == tasks && id in tasks && BudgetBlock(tasks[id].budget, s.clock).None?
    ensures BudgetLeft(s, id)
  {
  }

  lemma Present(states: seq<System>, acts: seq<Action>, s: System)
    requires Reaches(states, acts, s)
    ensures |states| > 0 && states[|states| - 1] == s
  {
  }

  lemma FailsPrepareNow(states: seq<System>, acts: seq<Action>, s: System, since: nat, ctx: Ctx, lease: Option<ResourceLease>, fault: Fault)
    requires Reaches(states, acts, s) && since <= |states| && FailsPrepare(s, ctx, lease, fault)
    ensures PrepareFailed(states, since, ctx, lease, fault)
  {
    hide FailsPrepare, Reaches;
    Present(states, acts, s);
  }

  lemma FailsExecuteNow(states: seq<System>, acts: seq<Action>, s: System, since: nat,
                        ctx: Ctx, lease: Option<ResourceLease>, o: Id, fault: Fault)
    requires Reaches(states, acts, s) && since <= |states| && FailsExecute(s, ctx, lease, o, fault)
    ensures ExecuteFailed(states, since, ctx, lease, o, fault)
  {
    hide FailsExecute, Reaches;
    Present(states, acts, s);
  }

  lemma RefusesNow(states: seq<System>, acts: seq<Action>, s: System, since: nat, ctx: Ctx)
    requires Reaches(states, acts, s) && since <= |states| && Refuses(s, ctx)
    ensures WasRefused(states, since, ctx)
  {
    hide Refuses, Reaches;
    Present(states, acts, s);
  }

  lemma FaultLater(states: seq<System>, since: nat, states': seq<System>, since': nat,
                   ctx: Ctx, lease: Option<ResourceLease>, o: Id, fault: Fault)
    requires states <= states' && since' <= since
    ensures PrepareFailed(states, since, ctx, lease, fault) ==> PrepareFailed(states', since', ctx, lease, fault)
    ensures ExecuteFailed(states, since, ctx, lease, o, fault) ==> ExecuteFailed(states', since', ctx, lease, o, fault)
  {
    hide FailsPrepare, FailsExecute;
  }

  lemma RefusedLater(states: seq<System>, since: nat, states': seq<System>, since': nat, ctx: Ctx)
    requires states <= states' && since' <= since
    ensures WasRefused(states, since, ctx) ==> WasRefused(states', since', ctx)
  {
    hide Refuses;
  }

  /** A reason stays a reason as the history grows. */
  lemma JustifiedLater(c: Config, states: seq<System>, since: nat, states': seq<System>, since': nat, ctx: Ctx,
                       lease: Option<ResourceLease>, o: Id, end: End)
    requires states <= states' && since' <= since && Justified(c, states, since, ctx, lease, o, end)
    ensures Justified(c, states', since', ctx, lease, o, end)
  {
    hide PrepareFailed, ExecuteFailed, WasRefused;
    RefusedLater(states, since, states', since', ctx);
    FaultLater(states, since, states', since', ctx, lease, o, Raised);
    FaultLater(states, since, states', since', ctx, lease, o, LeaseLost);
    if end.OutOfBudget? { FaultLater(states, since, states', since', ctx, lease, o, BudgetExceeded(end.reason)); }
  }

  /** How a step ends when prepare or execute has raised in a phase. */
  function EndOf(fault: Fault, phase: TaskPhase): End {
    match fault
    case Raised => Threw(Some(phase))
    case LeaseLost => LostLease(phase)
    case BudgetExceeded(reason) => OutOfBudget(reason)
  }

  lemma PrepareFaultJustifies(c: Config, states: seq<System>, since: nat, ctx: Ctx, lease: Option<ResourceLease>, o: Id, fault: Fault)
    requires PrepareFailed(states, since, ctx, lease, fault)
    ensures Justified(c, states, since, ctx, lease, o, EndOf(fault, Authorizing))
  {
    hide PrepareFailed, ExecuteFailed;
  }

  lemma ExecuteFaultJustifies(c: Config, states: seq<System>, since: nat, ctx: Ctx, lease: Option<ResourceLease>, o: Id, fault: Fault)
    requires ExecuteFailed(states, since, ctx, lease, o, fault)
    ensures Justified(c, states, since, ctx, lease, o, EndOf(fault, Executing)) && !fault.BudgetExceeded?
  {
  }

  /** The task runtime, the operation runtime, the agent runner and the recovery coordinator of one process,
      with the store and the world they share. */
  class Node {
    const config: Config
    var store: Store
    var world: W.State
    var clock: Time
    var tasks: map<Id, Task>
    var ops: map<Id, Operation>

    /** Where the process stands, and what has happened so far. */
    ghost var pc: Pc
    ghost var executed: multiset<Id>
    ghost var confirmed: set<Id>
    ghost var states: seq<System>
    ghost var acts: seq<Action>

    ghost function Sys(): System
      reads this
    {
      System(config, store, world, clock, Up(tasks, ops, pc), executed, confirmed)
    }

    /** The history is a run of the machine that ends in the present state. */
    ghost predicate Valid()
      reads this
    {
      Reaches(states, acts, Sys())
    }

    /** from_store: a new process starts from what the last one left behind. */
    constructor FromStore(ghost s: System, ghost states: seq<System>, ghost acts: seq<Action>,
                          config: Config, store: Store, world: W.State, clock: Time)
      requires Reaches(states, acts, s) && s == System(config, store, world, clock, Down, s.executed, s.confirmed)
      ensures Valid() && pc.Idle? && this.acts == acts + [Restart] && states <= this.states
      ensures tasks == store.tasks && ops == store.ops && this.store == store && this.config == config
      ensures executed == s.executed && confirmed == s.confirmed
    {
      hide Reaches;
      RunExtends(states, acts, s, Restart);
      this.config, this.store, this.world, this.clock := config, store, world, clock;
      this.tasks, this.ops, this.pc := store.tasks, store.ops, Idle;
      this.executed, this.confirmed := s.executed, s.confirmed;
      this.states, this.acts := states + [Apply(s, Restart)], acts + [Restart];
    }

    // ---- Single steps of the machine ----

    ghost method Log(a: Action, before: System)
      requires Reaches(states, acts, before) && Enabled(before, a) && Sys() == Apply(before, a)
      modifies this`states, this`acts
      ensures Valid() && states == old(states) + [Sys()] && acts == old(acts) + [a]
    {
      hide Reaches, Enabled, Apply;
      RunExtends(states, acts, before, a);
      states, acts := states + [Sys()], acts + [a];
    }

    /** Before every step of its own, the process may find that time has passed, that the world has changed,
        and that other runners have claimed, renewed or released leases. Callers may rely on nothing else. */
    method Interfere()
      requires Valid()
      modifies this`world, this`clock, this`store, this`states, this`acts
      ensures Valid() && old(states) <= states && clock >= old(clock)
      ensures store.ops == old(store).ops && store.tasks == old(store).tasks
      ensures Aged(old(world), world, 0)
    {
      hide Reaches;
      ghost var s := Sys();
      var ts: Time := *;
      if ts >= clock {
        clock := ts;
        Log(Tick(ts), s);
      }
      s := Sys();
      var w: W.State := *;
      if Aged(world, w, 0) {
        world := w;
        Log(ChangeWorld(w), s);
      }
    }

    /** A step that only moves the program point. */
    ghost method Advance(a: Action, next: Pc)
      requires Valid() && Moves(Sys(), a, next)
      modifies this`pc, this`states, this`acts
      ensures Valid() && pc == next && old(states) <= states
    {
      hide Reaches, Enabled, Apply;
      var s := Sys();
      pc := next;
      Log(a, s);
    }

    /** A step that saves one operation. */
    method SaveOperation(o: Id, op: Operation, ghost a: Action, ghost next: Pc)
      requires Valid() && Saves(Sys(), a, o, op, next)
      modifies this`ops, this`store, this`pc, this`states, this`acts
      ensures Valid() && ops == old(ops)[o := op] && pc == next && old(states) <= states
    {
      hide Reaches, Enabled, Apply;
      ghost var s := Sys();
      ops := ops[o := op];
      store := store.(ops := store.ops[o := op]);
      pc := next;
      Log(a, s);
    }

    /** Bump the task revision counters of the world. */
    method Touch()
      requires Valid()
      modifies this`world, this`states, this`acts
      ensures Valid() && old(states) <= states && world == W.Apply(old(world), W.TouchTasks)
    {
      hide Reaches;
      ghost var s := Sys();
      world := W.Apply(world, W.TouchTasks);
      Log(ChangeWorld(world), s);
    }

    /** Save a changed task. */
    method PutTask(id: Id, task: Task)
      requires Valid() && id in tasks && task.budget == tasks[id].budget && task.workspace == tasks[id].workspace
      modifies this`world, this`tasks, this`store, this`states, this`acts
      ensures Valid() && old(states) <= states && tasks == old(tasks)[id := task]
      ensures Aged(old(world), world, 1)
    {
      hide Reaches;
      Touch();
      ghost var s := Sys();
      tasks := tasks[id := task];
      store := store.(tasks := store.tasks[id := task]);
      Log(SaveTask(id, task), s);
    }
  
    // ---- The task runtime ----

    method Wait(id: Id, reason: string)
      requires Valid() && id in tasks
      modifies this`world, this`clock, this`tasks, this`store, this`states, this`acts
      ensures Valid() && old(states) <= states && tasks == old(tasks)[id := WaitingFor(old(tasks)[id], reason)]
    {
      hide Reaches;
      Interfere();
      PutTask(id, WaitingFor(tasks[id], reason));
    }

    method UpdateState(id: Id, state: Option<TaskState>, phase: Option<TaskPhase>)
      requires Valid() && id in tasks
      modifies this`world, this`clock, this`tasks, this`store, this`states, this`acts
      ensures Valid() && old(states) <= states && tasks == old(tasks)[id := Updated(old(tasks)[id], state, phase)]
      ensures Aged(old(world), world, if tasks[id] != old(tasks)[id] then 1 else 0)
    {
      hide Reaches;
      Interfere();
      var t := Updated(tasks[id], state, phase);
      if t != tasks[id] { PutTask(id, t); }
    }

    /** settle_control; `moved` tells whether the task's state changed. */
    method SettleControl(id: Id, safe: bool, cancelConfirmed: bool) returns (moved: bool)
      requires Valid() && id in tasks
      modifies this`world, this`clock, this`tasks, this`store, this`states, this`acts
      ensures Valid() && old(states) <= states && tasks == old(tasks)[id := Settled(old(tasks)[id], safe, cancelConfirmed)]
      ensures moved <==> tasks[id].state != old(tasks)[id].state
    {
      hide Reaches;
      Interfere();
      var t := Settled(tasks[id], safe, cancelConfirmed);
      moved := t != tasks[id];
      if moved { PutTask(id, t); }
    }

    /** control: records a request; only a finished task ignores it. */
    method Control(id: Id, desired: TaskState)
      requires Valid() && id in tasks
      modifies this`world, this`clock, this`tasks, this`store, this`states, this`acts
      ensures Valid() && old(states) <= states && tasks == old(tasks)[id := Asked(old(tasks)[id], desired)]
      ensures Aged(old(world), world, 0)
    {
      hide Reaches;
      Interfere();
      var t := Asked(tasks[id], desired);
      if t != tasks[id] { PutTask(id, t); }
    }

    // ---- The operation runtime ----

    /** The part of _verify after VERIFYING has been saved. */
    method Judge(o: Id, verdict: Verdict, ghost next: Then)
      requires Valid() && o in ops && pc == Checking(o, next)
      modifies this`world, this`clock, this`ops, this`store, this`pc, this`states, this`acts
      ensures Valid() && old(states) <= states && pc == Continue(next)
      ensures ops == old(ops)[o := AfterVerdict(old(ops)[o], verdict)]
    {
      hide Reaches, Moves, Saves, AfterVerdict;
      Interfere();
      VerifyMoves(Sys(), o, verdict, next);
      Advance(CallVerify(verdict), Judged(o, verdict, next));
      Interfere();
      VerdictSaves(Sys(), o, verdict, next);
      SaveOperation(o, AfterVerdict(ops[o], verdict), RecordVerdict, Continue(next));
    }

    /** One lease check of execute: the task lease first, then the resource lease. */
    method CheckFence(o: Id, done: nat, ghost ctx: Ctx, ghost lease: Option<ResourceLease>) returns (ok: bool)
      requires Valid() && o in ops && pc == Ready(ctx, lease, o, done) && done < 2
      modifies this`world, this`clock, this`store, this`pc, this`states, this`acts
      ensures Valid() && old(states) <= states && pc == Ready(ctx, lease, o, if ok then done + 1 else done)
      ensures !ok ==> ExecuteFailed(states, |old(states)|, ctx, lease, o, LeaseLost)
      ensures ok ==> ExecutePassed(states, |old(states)|, ctx, lease, o, done)
    {
      hide Reaches, Moves, FenceHolds, ExecuteFailed, ExecutePassed, PreparePassed;
      Interfere();
      var op := ops[o];
      ok := if done == 0 then FenceHolds(TL.SlotsOf(store.taskLeases), op.taskId, op.taskFence, clock)
            else FenceHolds(RL.RowSlots(store.resources), op.taskId, op.resourceFence, clock);
      if ok {
        ghost var before := states;
        PassesExecuteNow(states, acts, Sys(), |old(states)|, ctx, lease, o, done);
        CheckMoves(Sys(), ctx, lease, o, done);
        Advance(Check, Ready(ctx, lease, o, done + 1));
        PassedLater(before, |old(states)|, states, |old(states)|, ctx, lease, o);
      } else {
        FailsExecuteNow(states, acts, Sys(), |old(states)|, ctx, lease, o, LeaseLost);
      }
    }

    /** The lease checks of execute, then its checks of the world. */
    method MayExecute(o: Id, ghost ctx: Ctx, ghost lease: Option<ResourceLease>) returns (fault: Option<Fault>)
      requires Valid() && o in ops && pc == Ready(ctx, lease, o, 0)
      modifies this`world, this`clock, this`store, this`pc, this`states, this`acts
      ensures Valid() && old(states) <= states && pc.Ready? && pc == Ready(ctx, lease, o, pc.done)
      ensures fault.None? ==> pc.done == 2 && MayBegin(Sys(), ops[o])
      ensures fault.Some? ==> ExecuteFailed(states, |old(states)|, ctx, lease, o, fault.value)
      ensures fault.None? ==> forall n: nat :: n < 3 ==> ExecutePassed(states, |old(states)|, ctx, lease, o, n)
    {
      hide Reaches, MayBegin, ExecuteFailed, PrepareFailed, ExecutePassed, PreparePassed;
      var ok := CheckFence(o, 0, ctx, lease);
      if !ok { return Some(LeaseLost); }
      ghost var since, first := |states|, states;
      ok := CheckFence(o, 1, ctx, lease);
      if !ok {
        FaultLater(states, since, states, |old(states)|, ctx, lease, o, LeaseLost);
        return Some(LeaseLost);
      }
      ghost var second := states;
      Interfere();
      ok := BeginClear(o);
      PassedLater(first, |old(states)|, states, |old(states)|, ctx, lease, o);
      PassedLater(second, since, states, |old(states)|, ctx, lease, o);
      if !ok {
        FailsExecuteNow(states, acts, Sys(), |old(states)|, ctx, lease, o, Raised);
        return Some(Raised);
      }
      PassesExecuteNow(states, acts, Sys(), |old(states)|, ctx, lease, o, 2);
      return None;
    }

    method BeginClear(o: Id) returns (clear: bool)
      requires o in ops
      ensures clear <==> MayBegin(Sys(), ops[o])
    {
      var op := ops[o];
      clear := op.capability in config.capabilities && W.Current(world, op.wanted, op.workspace)
               && RefsAccessible(world, op.refs, op.permission, op.workspace);
    }

    /** execute: it raises exactly if a lease check, the capability, a revision or a locator fails at its place in
        the history, and then changes nothing. Otherwise the operation goes through RUNNING, the capability's
        execute, and verification, and `outcome` and `verdict` decide what becomes of it. */
    method Execute(o: Id, outcome: ExecOutcome, verdict: Verdict, ghost ctx: Ctx, ghost lease: Option<ResourceLease>)
        returns (fault: Option<Fault>)
      requires Valid() && o in ops && pc == Ready(ctx, lease, o, 0)
      modifies this`world, this`clock, this`ops, this`store, this`pc, this`executed, this`states, this`acts
      ensures Valid() && old(states) <= states && pc == Leaving(lease)
      ensures fault.Some? ==> ops == old(ops) && executed == old(executed)
                              && ExecuteFailed(states, |old(states)|, ctx, lease, o, fault.value)
      ensures fault.None? ==> ops == old(ops)[o := Executed(old(ops)[o], outcome, verdict)]
                              && executed == old(executed) + multiset{o}
                              && forall n: nat :: n < 3 ==> ExecutePassed(states, |old(states)|, ctx, lease, o, n)
    {
      hide Reaches, Moves, MayBegin, Executed, ExecuteFailed, PrepareFailed, ExecutePassed, PreparePassed;
      fault := MayExecute(o, ctx, lease);
      if fault.Some? {
        ghost var before := states;
        AbandonMoves(Sys(), lease);
        Advance(Abandon, Leaving(lease));
        FaultLater(before, |old(states)|, states, |old(states)|, ctx, lease, o, fault.value);
      } else {
        ghost var before := states;
        Effect(o, outcome, verdict, ctx, lease);
        PassedLater(before, |old(states)|, states, |old(states)|, ctx, lease, o);
      }
    }

    /** execute once nothing stands in its way. */
    method Effect(o: Id, outcome: ExecOutcome, verdict: Verdict, ghost ctx: Ctx, ghost lease: Option<ResourceLease>)
      requires Valid() && o in ops && pc == Ready(ctx, lease, o, 2) && MayBegin(Sys(), ops[o])
      modifies this`world, this`clock, this`ops, this`store, this`pc, this`executed, this`states, this`acts
      ensures Valid() && old(states) <= states && pc == Leaving(lease) && executed == old(executed) + multiset{o}
      ensures ops == old(ops)[o := Executed(old(ops)[o], outcome, verdict)]
    {
      hide Reaches, MayBegin, Executed;
      ExecutedFromRunning(ops[o], outcome, verdict);
      Overwrites(ops, o, ops[o].(state := Running), Executed(ops[o], outcome, verdict));
      Start(o, outcome, ctx, lease);
      Observe(o, outcome, verdict, lease);
    }

    /** RUNNING is saved, then the capability is called. */
    method Start(o: Id, ghost outcome: ExecOutcome, ghost ctx: Ctx, ghost lease: Option<ResourceLease>)
      requires Valid() && o in ops && pc == Ready(ctx, lease, o, 2) && MayBegin(Sys(), ops[o])
      modifies this`ops, this`store, this`pc, this`executed, this`states, this`acts
      ensures Valid() && old(states) <= states && pc == Called(o, outcome, lease) && executed == old(executed) + multiset{o}
      ensures ops == old(ops)[o := old(ops)[o].(state := Running)]
    {
      hide Reaches, Saves, MayBegin;
      BeginSaves(Sys(), ctx, lease, o);
      SaveOperation(o, ops[o].(state := Running), Begin, Started(ctx, lease, o));
      Call(o, outcome, ctx, lease);
    }

    /** The call itself. */
    ghost method Call(o: Id, outcome: ExecOutcome, ctx: Ctx, lease: Option<ResourceLease>)
      requires Valid() && pc == Started(ctx, lease, o)
      modifies this`pc, this`executed, this`states, this`acts
      ensures Valid() && old(states) <= states && pc == Called(o, outcome, lease) && executed == old(executed) + multiset{o}
    {
      hide Reaches;
      var s := Sys();
      pc, executed := Called(o, outcome, lease), executed + multiset{o};
      Log(CallExecute(outcome), s);
    }

    /** What execute does once the call is over. */
    method Observe(o: Id, outcome: ExecOutcome, verdict: Verdict, ghost lease: Option<ResourceLease>)
      requires Valid() && o in ops && pc == Called(o, outcome, lease)
      modifies this`world, this`clock, this`ops, this`store, this`pc, this`states, this`acts
      ensures Valid() && old(states) <= states && pc == Leaving(lease)
      ensures ops == old(ops)[o := Executed(old(ops)[o], outcome, verdict)]
    {
      hide Reaches, Saves, AfterVerdict, Executed, AfterOutcome, AfterVerify;
      Interfere();
      OutcomeSaves(Sys(), o, outcome, lease);
      ExecutedInTwo(ops[o], outcome, verdict);
      var op := AfterOutcome(ops[o], outcome);
      if outcome.ExecRaised? {
        SaveOperation(o, op, RecordOutcome, Leaving(lease));
      } else {
        Overwrites(ops, o, op, Executed(ops[o], outcome, verdict));
        SaveOperation(o, op, RecordOutcome, Watched(o, lease));
        Verify(o, verdict, lease);
      }
    }

    /** _verify, as execute calls it. */
    method Verify(o: Id, verdict: Verdict, ghost lease: Option<ResourceLease>)
      requires Valid() && o in ops && pc == Watched(o, lease)
      modifies this`world, this`clock, this`ops, this`store, this`pc, this`states, this`acts
      ensures Valid() && old(states) <= states && pc == Leaving(lease)
      ensures ops == old(ops)[o := AfterVerify(old(ops)[o], verdict)]
    {
      hide Reaches, Saves, AfterVerdict;
      Interfere();
      BeginVerifySaves(Sys(), o, lease);
      var op := ops[o];
      if op.result.None? {
        SaveOperation(o, op.(state := Unknown), BeginVerify, Leaving(lease));
      } else {
        Overwrites(ops, o, op.(state := Verifying), AfterVerdict(op.(state := Verifying), verdict));
        SaveOperation(o, op.(state := Verifying), BeginVerify, Checking(o, FinishStep(lease)));
        Judge(o, verdict, FinishStep(lease));
      }
    }

    // ---- prepare ----

    /** The checks of prepare on the world and the task lease, or the one on the resource lease. */
    method Inspect(ctx: Ctx, lease: Option<ResourceLease>, done: nat) returns (fault: Option<Fault>)
      requires Valid() && pc == Holding(ctx, lease, done) && done < 2
      modifies this`world, this`clock, this`store, this`pc, this`states, this`acts
      ensures Valid() && old(states) <= states && Aged(old(world), world, 0)
      ensures pc == Holding(ctx, lease, if fault.None? then done + 1 else done)
      ensures fault.None? && done == 0 ==> W.Current(world, Wanted(ctx), ctx.workspace)
      ensures fault.Some? ==> PrepareFailed(states, |old(states)|, ctx, lease, fault.value)
      ensures fault.None? ==> PreparePassed(states, |old(states)|, ctx, lease, done)
    {
      hide Reaches, Moves, FenceHolds, W.Current, RefsAccessible, Wanted, PrepareFailed, ExecutePassed, PreparePassed;
      Interfere();
      fault := None;
      if done == 0 {
        if !W.Current(world, Wanted(ctx), ctx.workspace) {
          fault := Some(Raised);
        } else if !RefsAccessible(world, ctx.proposal.refs, ctx.spec.permission, ctx.workspace) {
          fault := Some(Raised);
        } else if !FenceHolds(TL.SlotsOf(store.taskLeases), ctx.taskId, TaskFence(ctx), clock) {
          fault := Some(LeaseLost);
        }
      } else if !FenceHolds(RL.RowSlots(store.resources), ctx.taskId, ResourceFence(lease), clock) {
        fault := Some(LeaseLost);
      }
      if fault.Some? {
        FailsPrepareNow(states, acts, Sys(), |old(states)|, ctx, lease, fault.value);
      } else {
        ghost var before := states;
        PassesPrepareNow(states, acts, Sys(), |old(states)|, ctx, lease, done);
        InspectMoves(Sys(), ctx, lease, done);
        Advance(Check, Holding(ctx, lease, done + 1));
        PassedLater(before, |old(states)|, states, |old(states)|, ctx, lease, 0);
      }
    }

    /** The task and its new operation are saved together. */
    method SavePrepared(o: Id, ctx: Ctx, lease: Option<ResourceLease>)
      requires Valid() && pc == Holding(ctx, lease, 2) && o !in ops && BudgetLeft(Sys(), ctx.taskId)
      modifies this`tasks, this`ops, this`store, this`pc, this`states, this`acts
      ensures Valid() && old(states) <= states && pc == Ready(ctx, lease, o, 0)
      ensures ops == old(ops)[o := NewOperation(ctx, lease)]
      ensures ctx.taskId in old(tasks) && tasks == old(tasks)[ctx.taskId := Charged(old(tasks)[ctx.taskId])]
    {
      hide Reaches, NewOperation, BudgetBlock;
      MemoryAgrees(states, acts, Sys());
      ghost var s := Sys();
      var task := Charged(tasks[ctx.taskId]);
      tasks := tasks[ctx.taskId := task];
      ops := ops[o := NewOperation(ctx, lease)];
      store := store.(tasks := store.tasks[ctx.taskId := task], ops := store.ops[o := NewOperation(ctx, lease)]);
      pc := Ready(ctx, lease, o, 0);
      Log(Action.Prepare(o), s);
    }

    /** prepare: it raises exactly if a revision, an object, a lease or the budget fails its check at its place in
        the history, and then changes nothing; otherwise operation and charged task are stored together. */
    method Prepare(o: Id, ctx: Ctx, lease: Option<ResourceLease>) returns (fault: Option<Fault>)
      requires Valid() && pc == Holding(ctx, lease, 0) && ctx.taskId in tasks && o !in ops
      modifies this`world, this`clock, this`tasks, this`ops, this`store, this`pc, this`states, this`acts
      ensures Valid() && old(states) <= states
      ensures fault.None? ==> pc == Ready(ctx, lease, o, 0) && ops == old(ops)[o := NewOperation(ctx, lease)]
                              && tasks == old(tasks)[ctx.taskId := Charged(old(tasks)[ctx.taskId])]
                              && forall n: nat :: n < 3 ==> PreparePassed(states, |old(states)|, ctx, lease, n)
      ensures fault.Some? ==> ops == old(ops) && tasks == old(tasks) && pc.Holding? && pc.lease == lease
                              && PrepareFailed(states, |old(states)|, ctx, lease, fault.value)
      ensures fault.None? ==> exists w :: Aged(old(world), w, 0) && W.Current(w, Wanted(ctx), ctx.workspace)
    {
      hide Reaches, NewOperation, W.Current, Wanted, BudgetLeft, Charged, PrepareFailed, PreparePassed, ExecutePassed;
      fault := MayPrepare(ctx, lease, o);
      if fault.Some? { return; }
      ghost var before := states;
      Touch();
      BudgetLeftStays(old(tasks), Sys(), ctx.taskId);
      SavePrepared(o, ctx, lease);
      PassedLater(before, |old(states)|, states, |old(states)|, ctx, lease, o);
    }

    /** The checks of prepare, up to the budget. */
    method MayPrepare(ctx: Ctx, lease: Option<ResourceLease>, ghost o: Id) returns (fault: Option<Fault>)
      requires Valid() && pc == Holding(ctx, lease, 0) && ctx.taskId in tasks
      modifies this`world, this`clock, this`store, this`pc, this`states, this`acts
      ensures Valid() && old(states) <= states
      ensures fault.None? ==> && pc == Holding(ctx, lease, 2) && BudgetBlock(tasks[ctx.taskId].budget, clock).None?
                              && forall n: nat :: n < 3 ==> PreparePassed(states, |old(states)|, ctx, lease, n)
      ensures fault.Some? ==> pc.Holding? && pc.lease == lease && PrepareFailed(states, |old(states)|, ctx, lease, fault.value)
      ensures fault.None? ==> exists w :: Aged(old(world), w, 0) && W.Current(w, Wanted(ctx), ctx.workspace)
    {
      hide Reaches, W.Current, Wanted, BudgetBlock, PrepareFailed, ExecuteFailed, ExecutePassed, PreparePassed;
      fault := Inspect(ctx, lease, 0);
      if fault.Some? { return; }
      ghost var w, since, first := world, |states|, states;
      fault := Inspect(ctx, lease, 1);
      if fault.Some? {
        FaultLater(states, since, states, |old(states)|, ctx, lease, o, fault.value);
        return;
      }
      ghost var second := states;
      Interfere();
      var reason := BudgetBlock(tasks[ctx.taskId].budget, clock);
      if reason.Some? {
        FailsPrepareNow(states, acts, Sys(), |old(states)|, ctx, lease, BudgetExceeded(reason.value));
        return Some(BudgetExceeded(reason.value));
      }
      PassesPrepareNow(states, acts, Sys(), |old(states)|, ctx, lease, 2);
      PassedLater(first, |old(states)|, states, |old(states)|, ctx, lease, o);
      PassedLater(second, since, states, |old(states)|, ctx, lease, o);
    }

    // ---- The agent step ----

    /** A request, if there is one. */
    method Listen(id: Id, asked: Option<TaskState>)
      requires Valid() && id in tasks
      modifies this`world, this`clock, this`tasks, this`store, this`states, this`acts
      ensures Valid() && old(states) <= states && tasks == old(tasks)[id := AskedIf(old(tasks)[id], asked)]
      ensures Aged(old(world), world, 0)
    {
      hide Reaches, Asked;
      if asked.Some? {
        Control(id, asked.value);
      } else {
        assert tasks[id := tasks[id]] == tasks;
      }
    }

    /** From the start of thinking to the resolved proposal. The phase changes on the way, so the counters of
        task changes have moved on before anything is authorized. */
    method Think(id: Id, manifest: map<W.Domain, nat>, proposal: Option<Proposal>, early: Option<TaskState>)
        returns (spec: Option<ActionSpec>)
      requires Valid() && pc.Idle? && id in tasks
      modifies this`world, this`clock, this`tasks, this`store, this`states, this`acts
      ensures Valid() && old(states) <= states
      ensures tasks == old(tasks)[id := if spec.Some? then Authorized(old(tasks)[id], early) else Thought(old(tasks)[id], early)]
      ensures spec.Some? ==> proposal.Some? && spec.value.domains <= manifest.Keys && Aged(old(world), world, 1)
      ensures spec.Some? ==> var key := (proposal.value.capability, proposal.value.action);
                             key in config.registry && config.registry[key] == spec.value
      ensures spec.None? && proposal.Some? ==> var key := (proposal.value.capability, proposal.value.action);
                             key in config.registry ==> !(config.registry[key].domains <= manifest.Keys)
    {
      hide Reaches, Updated, AskedIf;
      ghost var t := tasks[id];
      UpdateState(id, Some(TaskRunning), Some(Thinking));
      Listen(id, early);
      Overwrites(old(tasks), id, Updated(t, Some(TaskRunning), Some(Thinking)), Thought(t, early));
      if proposal.None? { return None; }
      var p := proposal.value;
      if (p.capability, p.action) !in config.registry { return None; }
      var found := config.registry[(p.capability, p.action)];
      if !(found.domains <= manifest.Keys) { return None; }
      UpdateState(id, None, Some(Authorizing));
      Overwrites(old(tasks), id, Thought(t, early), Authorized(t, early));
      AuthorizingMoves(t, early);
      return Some(found);
    }

    /** The decision of the policy, and what follows from it. */
    method Decide(ctx: Ctx) returns (end: End)
      requires Valid() && pc.Idle? && ctx.taskId in tasks && ctx.workspace == tasks[ctx.taskId].workspace
      requires (LeaseRequired(config) ==> ctx.taskLease.Some?) && (ctx.taskLease.Some? ==> ctx.taskLease.value.taskId == ctx.taskId)
      requires (ctx.proposal.capability, ctx.proposal.action) in config.registry && ctx.spec.domains <= ctx.manifest.Keys
      requires config.registry[(ctx.proposal.capability, ctx.proposal.action)] == ctx.spec
      modifies this`world, this`clock, this`tasks, this`store, this`pc, this`states, this`acts
      ensures Valid() && old(states) <= states
      ensures end == match Evaluate(config, ctx.workspace, ctx.proposal, ctx.spec.risk)
                     case Deny => Denied case RequireConfirmation => NeedsConfirmation case Allow => Ran
      ensures end == Ran ==> pc == Allowed(ctx) && world == old(world) && tasks == old(tasks)
      ensures end != Ran ==> pc.Idle? && tasks == old(tasks)[ctx.taskId :=
                                 Updated(old(tasks)[ctx.taskId], Some(if end == Denied then TaskBlocked else Waiting), None)]
    {
      hide Reaches, Moves, Updated;
      var decision := Evaluate(config, ctx.workspace, ctx.proposal, ctx.spec.risk);
      if decision == Deny {
        UpdateState(ctx.taskId, Some(TaskBlocked), None);
        return Denied;
      }
      if decision == RequireConfirmation {
        UpdateState(ctx.taskId, Some(Waiting), None);
        return NeedsConfirmation;
      }
      hide Evaluate;
      AdmitMoves(Sys(), ctx);
      Advance(Admit(ctx), Allowed(ctx));
      return Ran;
    }

    /** The acquire of a step whose action asks for resources. */
    method Acquire(ctx: Ctx, capacity: Capacity, owner: Id) returns (answer: RL.Answer)
      requires Valid() && pc == Allowed(ctx) && config.broker == Some(capacity) && !EmptyRequest(ctx.spec.request)
      requires ctx.taskLease.Some? && ctx.taskLease.value.owner == owner
      modifies this`world, this`clock, this`store, this`pc, this`states, this`acts
      ensures Valid() && old(states) <= states
      ensures if answer.Granted? then pc == Holding(ctx, Some(answer.lease), 0) else pc == Allowed(ctx)
      ensures Aged(old(world), world, 0)
      ensures answer.Refused? ==> WasRefused(states, |old(states)|, ctx)
      ensures answer.Raised? ==> AcquireRaises(config, ctx)
    {
      hide Reaches, EmptyRequest, WasRefused, RL.Fits, RL.TooLarge;
      Interfere();
      answer := RL.TryAcquire(store.resources, capacity, ctx.taskId, owner, ctx.spec.request, config.resourceSeconds, clock);
      if answer.Granted? {
        ghost var s := Sys();
        store := store.(resources := store.resources[answer.lease.taskId := RL.RowOf(answer.lease)]);
        pc := Holding(ctx, Some(answer.lease), 0);
        Log(Action.Acquire(Some(answer.lease)), s);
      } else if answer.Refused? {
        RefusesNow(states, acts, Sys(), |old(states)|, ctx);
      }
    }

    /** An action that needs no resources goes on without a lease. */
    ghost method Proceed(ctx: Ctx)
      requires Valid() && pc == Allowed(ctx) && EmptyRequest(ctx.spec.request)
      modifies this`pc, this`states, this`acts
      ensures Valid() && old(states) <= states && pc == Holding(ctx, None, 0)
    {
      hide Reaches, EmptyRequest;
      var s := Sys();
      pc := Holding(ctx, None, 0);
      Log(Action.Acquire(None), s);
    }

    /** The step goes no further. */
    method Postpone(ctx: Ctx, reason: Option<string>)
      requires Valid() && pc == Allowed(ctx) && ctx.taskId in tasks
      modifies this`world, this`clock, this`tasks, this`store, this`pc, this`states, this`acts
      ensures Valid() && old(states) <= states && pc.Idle?
      ensures tasks == if reason.None? then old(tasks)
                       else old(tasks)[ctx.taskId := WaitingFor(old(tasks)[ctx.taskId], reason.value)]
    {
      hide Reaches, Moves, WaitingFor;
      GiveUpMoves(Sys(), ctx);
      Advance(GiveUp, Idle);
      if reason.Some? { Wait(ctx.taskId, reason.value); }
    }

    /** The resource part of a step, with its three ways to wait. */
    method Reserve(ctx: Ctx, ghost o: Id) returns (end: End, lease: Option<ResourceLease>)
      requires Valid() && pc == Allowed(ctx) && ctx.taskId in tasks
      modifies this`world, this`clock, this`tasks, this`store, this`pc, this`states, this`acts
      ensures Valid() && old(states) <= states && (end == Ran || end.NoResources? || end == Threw(Some(Authorizing)))
      ensures end == Ran ==> pc == Holding(ctx, lease, 0) && Aged(old(world), world, 0)
      ensures end != Ran ==> pc.Idle? && lease.None?
      ensures tasks == if end.NoResources? then old(tasks)[ctx.taskId := WaitingFor(old(tasks)[ctx.taskId], end.why)] else old(tasks)
      ensures Justified(config, states, |old(states)|, ctx, lease, o, end)
    {
      hide Reaches, EmptyRequest, WasRefused, PrepareFailed, ExecuteFailed, AcquireRaises, WaitingFor;
      if EmptyRequest(ctx.spec.request) {
        Proceed(ctx);
        return Ran, None;
      }
      var why;
      if ctx.taskLease.None? {
        why := Some("resource:task_lease_required");
      } else if config.broker.None? {
        why := Some("resource:broker_unavailable");
      } else {
        var answer := Acquire(ctx, config.broker.value, ctx.taskLease.value.owner);
        if answer.Granted? { return Ran, Some(answer.lease); }
        why := if answer.Raised? then None else Some("resource:unavailable");
      }
      ghost var before := states;
      Postpone(ctx, why);
      RefusedLater(before, |old(states)|, states, |old(states)|, ctx);
      return if why.None? then Threw(Some(Authorizing)) else NoResources(why.value), None;
    }

    /** What a step does when prepare or execute has raised and the lease is about to be released. */
    method Excuse(id: Id, fault: Fault, phase: TaskPhase) returns (end: End)
      requires Valid() && id in tasks
      modifies this`world, this`clock, this`tasks, this`store, this`states, this`acts
      ensures Valid() && old(states) <= states && end == EndOf(fault, phase)
      ensures tasks == old(tasks)[id := Excused(old(tasks)[id], end)]
    {
      hide Reaches, WaitingFor;
      assert tasks[id := tasks[id]] == tasks;
      end := EndOf(fault, phase);
      match fault
      case Raised =>
      case BudgetExceeded(reason) => Wait(id, BudgetText(reason));
      case LeaseLost => Wait(id, "lease:lost");
    }

    method TryPrepare(o: Id, ctx: Ctx, lease: Option<ResourceLease>) returns (end: End)
      requires Valid() && pc == Holding(ctx, lease, 0) && ctx.taskId in tasks && o !in ops
      modifies this`world, this`clock, this`tasks, this`ops, this`store, this`pc, this`states, this`acts
      ensures Valid() && old(states) <= states
      ensures end == Ran ==> pc == Ready(ctx, lease, o, 0) && ops == old(ops)[o := NewOperation(ctx, lease)]
                             && tasks == old(tasks)[ctx.taskId := Charged(old(tasks)[ctx.taskId])]
      ensures end == Ran ==> exists w :: Aged(old(world), w, 0) && W.Current(w, Wanted(ctx), ctx.workspace)
      ensures end != Ran ==> && pc == Leaving(lease) && ops == old(ops) && !Stored(end) && !end.NoResources?
                             && tasks == old(tasks)[ctx.taskId := Excused(old(tasks)[ctx.taskId], end)]
                             && Justified(config, states, |old(states)|, ctx, lease, o, end)
    {
      hide Reaches, Moves, NewOperation, W.Current, Wanted, Charged, Excused, PrepareFailed, ExecuteFailed, Justified;
      var fault := Prepare(o, ctx, lease);
      if fault.None? { return Ran; }
      ghost var before := states;
      AbandonMoves(Sys(), lease);
      Advance(Abandon, Leaving(lease));
      end := Excuse(ctx.taskId, fault.value, Authorizing);
      FaultLater(before, |old(states)|, states, |old(states)|, ctx, lease, o, fault.value);
      PrepareFaultJustifies(config, states, |old(states)|, ctx, lease, o, fault.value);
    }

    /** The part of a step after prepare. */
    method TryExecute(o: Id, ctx: Ctx, ghost lease: Option<ResourceLease>, outcome: ExecOutcome, verdict: Verdict,
                      late: Option<TaskState>) returns (end: End)
      requires Valid() && pc == Ready(ctx, lease, o, 0) && ctx.taskId in tasks && o in ops
      modifies this`world, this`clock, this`tasks, this`ops, this`store, this`pc, this`executed, this`states, this`acts
      ensures Valid() && old(states) <= states && pc == Leaving(lease) && Stored(end)
      ensures var t := Updated(old(tasks)[ctx.taskId], None, Some(Executing));
              tasks == old(tasks)[ctx.taskId := if end == Ran then AtRest(AskedIf(t, late), Executed(old(ops)[o], outcome, verdict).state)
                                                else Excused(t, end)]
      ensures end == Ran ==> ops == old(ops)[o := Executed(old(ops)[o], outcome, verdict)]
                             && executed == old(executed) + multiset{o}
      ensures end != Ran ==> ops == old(ops) && executed == old(executed)
                             && Justified(config, states, |old(states)|, ctx, lease, o, end)
    {
      hide Reaches, Executed, Updated, Excused, AtRest, AskedIf, PrepareFailed, ExecuteFailed, Justified, Aged;
      ghost var t := Updated(tasks[ctx.taskId], None, Some(Executing));
      UpdateState(ctx.taskId, None, Some(Executing));
      ghost var since := |states|;
      var fault := Execute(o, outcome, verdict, ctx, lease);
      if fault.Some? {
        ghost var before := states;
        end := Excuse(ctx.taskId, fault.value, Executing);
        Overwrites(old(tasks), ctx.taskId, t, Excused(t, end));
        FaultLater(before, since, states, |old(states)|, ctx, lease, o, fault.value);
        ExecuteFaultJustifies(config, states, |old(states)|, ctx, lease, o, fault.value);
        return;
      }
      ConcludeStep(ctx.taskId, ops[o].state, late);
      Overwrites(old(tasks), ctx.taskId, t, AtRest(AskedIf(t, late), ops[o].state));
      return Ran;
    }

    /** A request that has arrived meanwhile, then the last updates of a step, by the state its operation has reached. */
    method ConcludeStep(id: Id, op: OpState, late: Option<TaskState>)
      requires Valid() && id in tasks
      modifies this`world, this`clock, this`tasks, this`store, this`states, this`acts
      ensures Valid() && old(states) <= states
      ensures tasks == old(tasks)[id := AtRest(AskedIf(old(tasks)[id], late), op)]
    {
      hide Reaches, Updated, Settled, AskedIf;
      Listen(id, late);
      ghost var a := tasks[id];
      var open := op == Unknown || op == Verifying || op == Reconciling;
      UpdateState(id, Some(if open then Waiting else TaskRunning),
                  Some(if open then PhaseVerifying else if op == Verified then Observing else Replanning));
      ghost var b := tasks[id];
      var moved := SettleControl(id, true, false);
      Overwrites(old(tasks), id, a, b);
      Overwrites(old(tasks), id, b, tasks[id]);
    }

    /** The release in the finally block. */
    method Release(lease: Option<ResourceLease>)
      requires Valid() && pc == Leaving(lease)
      modifies this`world, this`clock, this`store, this`pc, this`states, this`acts
      ensures Valid() && old(states) <= states && pc.Idle?
      ensures lease.Some? ==> !F.Validates(RL.RowSlots(store.resources), RL.ResourceIdentity(lease.value), clock)
    {
      hide Reaches;
      Interfere();
      ghost var s := Sys();
      StillSane(states, acts, s);
      S.LeaveReleases(store.resources, lease, clock);
      store := store.(resources := RowsWithout(store.resources, lease));
      pc := Idle;
      Log(Leave, s);
    }

    /** prepare, then execute, up to the finally block. */
    method Perform(o: Id, ctx: Ctx, lease: Option<ResourceLease>, outcome: ExecOutcome, verdict: Verdict,
                   late: Option<TaskState>) returns (end: End)
      requires Valid() && pc == Holding(ctx, lease, 0) && ctx.taskId in tasks && o !in ops
      modifies this`world, this`clock, this`tasks, this`ops, this`store, this`pc, this`executed, this`states, this`acts
      ensures Valid() && old(states) <= states && pc == Leaving(lease) && !end.NoResources?
      ensures executed == old(executed) + (if end == Ran then multiset{o} else multiset{})
      ensures OpsAfter(end, Some(ctx), lease, o, outcome, verdict, old(ops), ops)
      ensures tasks == old(tasks)[ctx.taskId :=
                Performed(old(tasks)[ctx.taskId], end, Executed(NewOperation(ctx, lease), outcome, verdict).state, late)]
      ensures Justified(config, states, |old(states)|, ctx, lease, o, end)
      ensures end == Ran ==> exists w :: Aged(old(world), w, 0) && W.Current(w, Wanted(ctx), ctx.workspace)
    {
      hide Reaches, Executed, W.Current, Wanted, NewOperation, Justified, Charged, Updated, AtRest, Excused, AskedIf;
      ghost var t := tasks[ctx.taskId];
      RanIsJustified(config, states, 0, ctx, lease, o);
      end := TryPrepare(o, ctx, lease);
      if end == Ran {
        ghost var since, was := |states|, ops;
        end := TryExecute(o, ctx, lease, outcome, verdict, late);
        Overwrites(old(tasks), ctx.taskId, Charged(t), tasks[ctx.taskId]);
        Overwrites(old(ops), o, was[o], ops[o]);
        RanIsJustified(config, states, |old(states)|, ctx, lease, o);
        if end != Ran { JustifiedLater(config, states, since, states, |old(states)|, ctx, lease, o, end); }
      }
    }

    /** A step up to the decision of the policy. */
    method Authorize(id: Id, manifest: map<W.Domain, nat>, lease: Option<TaskLease>, proposal: Option<Proposal>,
                     early: Option<TaskState>) returns (end: End, ctx: Option<Ctx>)
      requires Valid() && pc.Idle? && id in tasks
      requires (LeaseRequired(config) ==> lease.Some?) && (lease.Some? ==> lease.value.taskId == id)
      modifies this`world, this`clock, this`tasks, this`store, this`pc, this`states, this`acts
      ensures Valid() && old(states) <= states
      ensures ctx.None? <==> Barrier(config, id, old(tasks)[id], manifest, lease, proposal).Some?
      ensures ctx.None? ==> pc.Idle? && Some(end) == Barrier(config, id, old(tasks)[id], manifest, lease, proposal)
                            && tasks == old(tasks)[id := TaskAfter(end, old(tasks)[id], Prepared, Requests(early, None))]
      ensures ctx.Some? ==> pc == Allowed(ctx.value) && ctx == ContextOf(config, id, old(tasks)[id], manifest, lease, proposal)
                            && ctx.value.spec.domains <= manifest.Keys && Aged(old(world), world, 1)
                            && tasks == old(tasks)[id := Authorized(old(tasks)[id], early)]
    {
      hide Reaches, Evaluate, Updated, Authorized, Thought;
      ctx := None;
      AuthorizedIsActive(tasks[id], early);
      var spec := Think(id, manifest, proposal, early);
      if spec.None? { return Threw(Some(Thinking)), None; }
      ghost var t := tasks[id];
      var plan := Ctx(id, tasks[id].workspace, proposal.value, spec.value, manifest, lease);
      end := Decide(plan);
      Overwrites(old(tasks), id, t, tasks[id]);
      if end == Ran { ctx := Some(plan); }
    }

    /** A step from the resources to the finally block. */
    method Act(ctx: Ctx, o: Id, outcome: ExecOutcome, verdict: Verdict, late: Option<TaskState>)
        returns (end: End, taken: Option<ResourceLease>)
      requires Valid() && pc == Allowed(ctx) && ctx.taskId in tasks && o !in ops
      modifies this`world, this`clock, this`tasks, this`ops, this`store, this`pc, this`executed, this`states, this`acts
      ensures Valid() && old(states) <= states && pc.Idle?
      ensures executed == old(executed) + (if end == Ran then multiset{o} else multiset{})
      ensures OpsAfter(end, Some(ctx), taken, o, outcome, verdict, old(ops), ops)
      ensures tasks == old(tasks)[ctx.taskId :=
                Acted(old(tasks)[ctx.taskId], end, Executed(NewOperation(ctx, taken), outcome, verdict).state, late)]
      ensures taken.Some? ==> !F.Validates(RL.RowSlots(store.resources), RL.ResourceIdentity(taken.value), clock)
      ensures Stale(ctx, old(world)) ==> end != Ran
      ensures Justified(config, states, |old(states)|, ctx, taken, o, end)
    {
      hide Reaches, Executed, NewOperation, W.Current, Wanted, Justified, WaitingFor, Performed;
      end, taken := Reserve(ctx, o);
      if end != Ran {
        UnperformedIsSame(tasks[ctx.taskId], Executed(NewOperation(ctx, taken), outcome, verdict).state, late);
        assert tasks[ctx.taskId := tasks[ctx.taskId]] == tasks;
        return;
      }
      ghost var w0, since := world, |states|;
      end := Perform(o, ctx, taken, outcome, verdict, late);
      if end == Ran {
        ghost var w :| Aged(w0, w, 0) && W.Current(w, Wanted(ctx), ctx.workspace);
        StaleIsNotCurrent(ctx, old(world), w);
      }
      ghost var before := states;
      Release(taken);
      JustifiedLater(config, before, since, states, |old(states)|, ctx, taken, o, end);
    }

    /** A step once the task has its lease and nothing has been asked of it. */
    method Attempt(id: Id, manifest: map<W.Domain, nat>, lease: Option<TaskLease>, proposal: Option<Proposal>,
                   o: Id, outcome: ExecOutcome, verdict: Verdict, asked: Requests)
        returns (end: End, taken: Option<ResourceLease>)
      requires Valid() && pc.Idle? && id in tasks && o !in ops
      requires (LeaseRequired(config) ==> lease.Some?) && (lease.Some? ==> lease.value.taskId == id)
      modifies this`world, this`clock, this`tasks, this`ops, this`store, this`pc, this`executed, this`states, this`acts
      ensures Valid() && old(states) <= states && pc.Idle?
      ensures executed == old(executed) + (if end == Ran then multiset{o} else multiset{})
      ensures OpsAfter(end, ContextOf(config, id, old(tasks)[id], manifest, lease, proposal), taken, o, outcome, verdict, old(ops), ops)
      ensures tasks == old(tasks)[id := TaskAfter(end, old(tasks)[id], if o in ops then ops[o].state else Prepared, asked)]
      ensures taken.Some? ==> !F.Validates(RL.RowSlots(store.resources), RL.ResourceIdentity(taken.value), clock)
      ensures var barrier := Barrier(config, id, old(tasks)[id], manifest, lease, proposal);
              && (barrier.Some? ==> end == barrier.value)
              && (barrier.None? ==>
                    var ctx := ContextOf(config, id, old(tasks)[id], manifest, lease, proposal);
                    ctx.Some? && Justified(config, states, |old(states)|, ctx.value, taken, o, end))
      ensures NeedsTaskCounters(config, proposal) && Past(manifest, old(world)) ==> end != Ran
    {
      hide Reaches, Executed, NewOperation, NeedsTaskCounters, Past, Aged, Justified, Evaluate, Authorized, Thought, Acted, Updated;
      var ctx;
      ghost var t := tasks[id];
      end, ctx := Authorize(id, manifest, lease, proposal, asked.early);
      taken := None;
      if ctx.Some? {
        ghost var since := |states|;
        CountersOf(config, proposal, ctx.value, old(world), world);
        end, taken := Act(ctx.value, o, outcome, verdict, asked.late);
        Overwrites(old(tasks), id, Authorized(t, asked.early), tasks[id]);
        ghost var op := if o in ops then ops[o].state else Prepared;
        OpDoesNotMatter(Authorized(t, asked.early), end, op, Executed(NewOperation(ctx.value, taken), outcome, verdict).state, asked.late);
        ActedIsAfter(config, states, since, ctx.value, taken, o, end, t, op, asked);
        JustifiedLater(config, states, since, states, |old(states)|, ctx.value, taken, o, end);
      }
    }

    /** The checks of a step before the model is asked; nothing changes if they all pass. */
    method Enough(id: Id, home: Id, lease: Option<TaskLease>) returns (gate: Option<End>)
      requires Valid() && id in tasks
      modifies this`world, this`clock, this`tasks, this`store, this`states, this`acts
      ensures Valid() && old(states) <= states && gate == Gate(config, id, old(tasks)[id], home, lease)
      ensures gate.Some? ==> tasks == old(tasks)[id := TaskAfter(gate.value, old(tasks)[id], Prepared, Requests(None, None))]
      ensures gate.None? ==> tasks == old(tasks) && states == old(states) && world == old(world)
    {
      hide Reaches, WaitingFor, Settled;
      assert tasks[id := tasks[id]] == tasks;
      if home != tasks[id].workspace { return Some(Threw(None)); }
      if lease.Some? && lease.value.taskId != id { return Some(Threw(None)); }
      if LeaseRequired(config) && lease.None? {
        Wait(id, "lease:required");
        return Some(LeaseMissing);
      }
      if tasks[id].desired in {Paused, TaskCancelled} {
        var moved := SettleControl(id, true, false);
        return Some(ControlSettled);
      }
      return None;
    }

    /** step, for a task whose manifest comes from workspace `home`; `asked` are the requests to the task that arrive
        while the model thinks and while the capability is at work. The early ends depend only on the task and the
        inputs, as `Early` says; once the policy has allowed the action the step ends with the effect unless a check fails
        at its place in the history. Execute is called exactly when the step ends with `Ran`, and then once, on the
        operation prepared from this proposal; the operation ends as `outcome` and `verdict` say. The task ends as
        `TaskAfter` says, which `StepLeaves` spells out, and no other task changes. `taken` is the resource lease of
        the step; on every exit it no longer validates. An action that depends on the task counters never runs, because the
        step itself has moved them since the manifest was built. */
    method Step(id: Id, home: Id, manifest: map<W.Domain, nat>, lease: Option<TaskLease>, proposal: Option<Proposal>,
                o: Id, outcome: ExecOutcome, verdict: Verdict, asked: Requests)
        returns (end: End, taken: Option<ResourceLease>)
      requires Valid() && pc.Idle? && id in tasks && o !in ops
      modifies this`world, this`clock, this`tasks, this`ops, this`store, this`pc, this`executed, this`states, this`acts
      ensures Valid() && old(states) <= states && pc.Idle?
      ensures executed == old(executed) + (if end == Ran then multiset{o} else multiset{})
      ensures OpsAfter(end, ContextOf(config, id, old(tasks)[id], manifest, lease, proposal), taken, o, outcome, verdict, old(ops), ops)
      ensures tasks == old(tasks)[id := TaskAfter(end, old(tasks)[id], if o in ops then ops[o].state else Prepared, asked)]
      ensures taken.Some? ==> !F.Validates(RL.RowSlots(store.resources), RL.ResourceIdentity(taken.value), clock)
      ensures var early := Early(config, id, old(tasks)[id], home, manifest, lease, proposal);
              && (early.Some? ==> end == early.value)
              && (early.None? ==>
                    var ctx := ContextOf(config, id, old(tasks)[id], manifest, lease, proposal);
                    ctx.Some? && Justified(config, states, |old(states)|, ctx.value, taken, o, end))
      ensures NeedsTaskCounters(config, proposal) && Past(manifest, old(world)) ==> end != Ran
    {
      hide Reaches, Executed, W.Current, Wanted, NewOperation, Justified, Barrier, ContextOf, NeedsTaskCounters, Past, F.Validates,
           Gate, LeaseRequired, TaskAfter;
      var gate := Enough(id, home, lease);
      GateOpens(config, id, old(tasks)[id], home, lease);
      if gate.Some? {
        GateIgnoresRequests(gate.value, old(tasks)[id], asked);
        return gate.value, None;
      }
      end, taken := Attempt(id, manifest, lease, proposal, o, outcome, verdict, asked);
    }

    // ---- Recovery ----

    /** The reconcile call, or the locator lookup that raises before it; `told` is what the caller sees. */
    method Ask(o: Id, conclusion: Conclusion, ghost rest: seq<Id>) returns (lost: bool, told: Conclusion)
      requires Valid() && o in ops && pc == Asking(o, rest)
      modifies this`world, this`clock, this`store, this`pc, this`confirmed, this`states, this`acts
      ensures Valid() && old(states) <= states && pc == Told(o, told, rest)
      ensures told == (if lost then LOST else conclusion) && Looked(states, |old(states)|, o, lost)
    {
      hide Reaches, RefsAccessible, Looked;
      Interfere();
      var op := ops[o];
      lost := !RefsAccessible(world, op.refs, op.permission, op.workspace);
      told := if lost then LOST else conclusion;
      ghost var s, before := Sys(), states;
      LooksNow(states, acts, s, |old(states)|, o);
      pc := Told(o, told, rest);
      confirmed := if told.Concluded? && told.ok then confirmed + {o} else confirmed;
      Log(CallReconcile(told), s);
      LookedLater(before, |old(states)|, states, |old(states)|, o, lost);
    }

    /** The reconcile call and what is recorded after it; `lost` tells that a locator lookup raised instead. */
    method Reconcile(o: Id, conclusion: Conclusion, ghost rest: seq<Id>) returns (lost: bool)
      requires Valid() && o in ops && pc == Asking(o, rest)
      modifies this`world, this`clock, this`ops, this`store, this`pc, this`confirmed, this`states, this`acts
      ensures Valid() && old(states) <= states && pc == Recovering(rest)
      ensures ops == old(ops)[o := AfterConclusion(old(ops)[o], if lost then LOST else conclusion)]
      ensures Looked(states, |old(states)|, o, lost)
    {
      hide Reaches, Saves, AfterConclusion, Looked;
      var told;
      lost, told := Ask(o, conclusion, rest);
      ghost var before := states;
      Interfere();
      ReconcileSaves(Sys(), o, told, rest);
      SaveOperation(o, AfterConclusion(ops[o], told), RecordReconcile, Recovering(rest));
      LookedLater(before, |old(states)|, states, |old(states)|, o, lost);
    }

    method CancelPrepared(o: Id, ghost rest: seq<Id>)
      requires Valid() && o in ops && pc == Recovering([o] + rest) && ops[o].state == Prepared
      modifies this`world, this`clock, this`ops, this`store, this`pc, this`states, this`acts
      ensures Valid() && old(states) <= states && pc == Recovering(rest)
      ensures ops == old(ops)[o := old(ops)[o].(state := Cancelled)]
    {
      hide Reaches, Saves;
      Interfere();
      RecoverySteps(Sys(), o, rest);
      SaveOperation(o, ops[o].(state := Cancelled), RecoverNext, Recovering(rest));
    }

    method RecoverObserved(o: Id, verdict: Verdict, ghost rest: seq<Id>)
      requires Valid() && o in ops && pc == Recovering([o] + rest) && !Blocked(ops[o], config.capabilities)
      requires ops[o].state in {Observed, Verifying} && ops[o].result.Some?
      modifies this`world, this`clock, this`ops, this`store, this`pc, this`states, this`acts
      ensures Valid() && old(states) <= states && pc == Recovering(rest)
      ensures ops == old(ops)[o := AfterVerdict(old(ops)[o].(state := Verifying), verdict)]
    {
      hide Reaches, Saves, AfterVerdict, Blocked;
      Interfere();
      RecoverySteps(Sys(), o, rest);
      var op := ops[o].(state := Verifying);
      Overwrites(ops, o, op, AfterVerdict(op, verdict));
      SaveOperation(o, op, RecoverNext, Checking(o, ResumeRecovery(rest)));
      Judge(o, verdict, ResumeRecovery(rest));
    }

    method RecoverUncertain(o: Id, conclusion: Conclusion, ghost rest: seq<Id>) returns (lost: bool)
      requires Valid() && o in ops && pc == Recovering([o] + rest) && !Blocked(ops[o], config.capabilities)
      requires ops[o].state in {Running, Unknown, Reconciling}
      modifies this`world, this`clock, this`ops, this`store, this`pc, this`confirmed, this`states, this`acts
      ensures Valid() && old(states) <= states && pc == Recovering(rest)
      ensures ops == old(ops)[o := AfterConclusion(old(ops)[o].(state := Reconciling), if lost then LOST else conclusion)]
      ensures Looked(states, |old(states)|, o, lost)
    {
      hide Reaches, Saves, AfterConclusion, Blocked, Looked;
      Interfere();
      RecoverySteps(Sys(), o, rest);
      var op := ops[o].(state := Reconciling);
      Overwrites(ops, o, op, AfterConclusion(op, LOST));
      Overwrites(ops, o, op, AfterConclusion(op, conclusion));
      SaveOperation(o, op, RecoverNext, Asking(o, rest));
      ghost var since := |states|;
      lost := Reconcile(o, conclusion, rest);
      LookedLater(states, since, states, |old(states)|, o, lost);
    }

    /** An operation that recovery leaves alone. */
    ghost method Skip(o: Id, rest: seq<Id>)
      requires Valid() && o in ops && pc == Recovering([o] + rest) && !Blocked(ops[o], config.capabilities)
      requires Terminal(ops[o]) || Stuck(ops[o])
      modifies this`pc, this`states, this`acts
      ensures Valid() && old(states) <= states && pc == Recovering(rest)
    {
      hide Reaches, Moves, Blocked;
      RecoverySteps(Sys(), o, rest);
      Advance(RecoverNext, Recovering(rest));
    }

    /** recover_operation, on the next operation of the recovery loop. */
    method RecoverOperation(o: Id, verdict: Verdict, conclusion: Conclusion, ghost rest: seq<Id>) returns (raised: bool, lost: bool)
      requires Valid() && o in ops && pc == Recovering([o] + rest)
      modifies this`world, this`clock, this`ops, this`store, this`pc, this`confirmed, this`states, this`acts
      ensures Valid() && old(states) <= states
      ensures raised <==> !old(ops)[o].state.Prepared? && old(ops)[o].capability !in config.capabilities
      ensures raised ==> ops == old(ops) && pc == old(pc)
      ensures !raised ==> pc == Recovering(rest)
                          && ops == old(ops)[o := Recovered(old(ops)[o], verdict, if lost then LOST else conclusion)]
      ensures if !raised && Uncertain(old(ops)[o]) then Looked(states, |old(states)|, o, lost) else !lost
    {
      hide Reaches, AfterVerdict, AfterConclusion, Looked;
      raised, lost := false, false;
      var op := ops[o];
      if op.state == Prepared {
        CancelPrepared(o, rest);
        return;
      }
      if op.capability !in config.capabilities {
        raised := true;
        return;
      }
      if (op.state == Observed || op.state == Verifying) && op.result.Some? {
        RecoverObserved(o, verdict, rest);
      } else if op.state == Running || op.state == Unknown || op.state == Reconciling {
        lost := RecoverUncertain(o, conclusion, rest);
      } else {
        Skip(o, rest);
        assert ops == ops[o := op];
      }
    }

    /** One turn of the first loop of recover. */
    method RecoverIfOpen(o: Id, verdict: Verdict, conclusion: Conclusion, ghost rest: seq<Id>) returns (raised: bool, lost: bool)
      requires Valid() && o in ops && pc == Recovering([o] + rest)
      modifies this`world, this`clock, this`ops, this`store, this`pc, this`confirmed, this`states, this`acts
      ensures Valid() && old(states) <= states
      ensures raised <==> Blocked(old(ops)[o], config.capabilities)
      ensures raised ==> ops == old(ops) && pc == old(pc)
      ensures !raised ==> pc == Recovering(rest)
                          && ops == old(ops)[o := Recovered(old(ops)[o], verdict, if lost then LOST else conclusion)]
      ensures if !raised && Uncertain(old(ops)[o]) then Looked(states, |old(states)|, o, lost) else !lost
    {
      hide Reaches, Looked;
      if Terminal(ops[o]) {
        Skip(o, rest);
        raised, lost := false, false;
        assert ops == ops[o := ops[o]];
      } else {
        raised, lost := RecoverOperation(o, verdict, conclusion, rest);
      }
    }

    /** The first loop of recover. It stops early exactly at the first operation that recovery raises on. */
    method RecoverOperations(order: seq<Id>, verdicts: Id -> Verdict, conclusions: Id -> Conclusion)
        returns (handled: nat, reconciled: nat, lost: set<Id>)
      requires Valid() && pc.Idle? && Visits(order, ops)
      modifies this`world, this`clock, this`ops, this`store, this`pc, this`confirmed, this`states, this`acts
      ensures Valid() && old(states) <= states && pc.Idle?
      ensures Progress(old(ops), ops, order, handled, verdicts, conclusions, lost, reconciled, config.capabilities)
      ensures handled <= |order| && LookedUp(old(ops), order, handled, states, |old(states)|, lost)
      ensures handled < |order| ==> order[handled] in ops && Blocked(ops[order[handled]], config.capabilities)
    {
      hide Reaches, Moves, Recovered, Progress, Visits, Terminal, Looked, LookedUp, Uncertain;
      assert LookedUp(ops, order, 0, states, |states|, {}) by { NoneLookedUp(ops, order, states); }
      ghost var first := states;
      ProgressStarts(ops, order, verdicts, conclusions, config.capabilities);
      RecoveryMoves(Sys(), order);
      Advance(BeginRecovery(order), Recovering(order));
      LookedUpLater(old(ops), order, 0, first, states, |first|, {});
      handled, reconciled, lost := 0, 0, {};
      assert order == order[0..];
      var raised := false;
      while handled < |order| && !raised
        invariant Valid() && old(states) <= states && handled <= |order| && pc == Recovering(order[handled..])
        invariant Progress(old(ops), ops, order, handled, verdicts, conclusions, lost, reconciled, config.capabilities)
        invariant LookedUp(old(ops), order, handled, states, |old(states)|, lost)
        invariant raised ==> handled < |order| && order[handled] in ops && Blocked(ops[order[handled]], config.capabilities)
        decreases |order| - handled, !raised
      {
        var o := order[handled];
        NextToRecover(old(ops), ops, order, handled, verdicts, conclusions, lost, reconciled, config.capabilities);
        assert order[handled..] == [o] + order[handled + 1..];
        ghost var before, since := ops, states;
        var open := !Terminal(ops[o]);
        var gone;
        raised, gone := RecoverIfOpen(o, verdicts(o), conclusions(o), order[handled + 1..]);
        LookedUpLater(old(ops), order, handled, since, states, |old(states)|, lost);
        if !raised {
          ProgressStep(old(ops), before, order, handled, verdicts, conclusions, lost, reconciled, config.capabilities, gone);
          LookedUpStep(old(ops), order, handled, states, |since|, |old(states)|, lost, gone);
          if open { reconciled := reconciled + 1; }
          if gone { lost := lost + {o}; }
          handled := handled + 1;
        }
      }
      RecoveryMoves(Sys(), order[handled..]);
      ghost var last := states;
      Advance(EndRecovery, Idle);
      LookedUpLater(old(ops), order, handled, last, states, |old(states)|, lost);
    }
  
    /** One turn of the second loop of recover. */
    method SettleIfAsked(id: Id) returns (moved: bool)
      requires Valid() && id in tasks
      modifies this`world, this`clock, this`tasks, this`store, this`states, this`acts
      ensures Valid() && old(states) <= states && tasks == old(tasks)[id := Settled(old(tasks)[id], true, false)]
      ensures moved <==> tasks[id].state != old(tasks)[id].state
    {
      hide Reaches, Settled;
      moved := false;
      if tasks[id].desired == Paused || tasks[id].desired == TaskCancelled {
        moved := SettleControl(id, true, false);
      } else {
        NothingToSettle(tasks[id]);
        assert tasks[id := tasks[id]] == tasks;
      }
    }

    /** The second loop of recover. */
    method SettleAll(order: seq<Id>) returns (settled: nat)
      requires Valid() && Visits(order, tasks)
      modifies this`world, this`clock, this`tasks, this`store, this`states, this`acts
      ensures Valid() && old(states) <= states
      ensures SettledUpTo(old(tasks), tasks, order, |order|, settled)
    {
      hide Reaches, Settled, Visits, SettledUpTo;
      settled := 0;
      SettledStarts(tasks, order);
      var n := 0;
      while n < |order|
        invariant Valid() && old(states) <= states && n <= |order| && SettledUpTo(old(tasks), tasks, order, n, settled)
      {
        SettledStep(old(tasks), tasks, order, n, settled);
        var moved := SettleIfAsked(order[n]);
        if moved { settled := settled + 1; }
        n := n + 1;
      }
    }
  
    /** recover. It raises exactly when some open operation lacks its capability, and then the operations before the
        first such one are recovered, the others are as they were, and no task is settled. Otherwise every operation
        has been dealt with: if nothing raised on the way, all are final except those stuck without a result,
        and if in addition no execute call of the whole history returned None, all are final. Recovering when
        all are final reconciles none and changes none. Every task that was asked to pause or stop has. */
    method Recover(opOrder: seq<Id>, taskOrder: seq<Id>, verdicts: Id -> Verdict, conclusions: Id -> Conclusion)
        returns (raised: bool, handled: nat, reconciled: nat, settled: nat, lost: set<Id>)
      requires Valid() && pc.Idle? && Visits(opOrder, ops) && Visits(taskOrder, tasks)
      modifies this`world, this`clock, this`tasks, this`ops, this`store, this`pc, this`confirmed, this`states, this`acts
      ensures Valid() && old(states) <= states && pc.Idle?
      ensures raised <==> exists o :: o in old(ops) && Blocked(old(ops)[o], config.capabilities)
      ensures Progress(old(ops), ops, opOrder, handled, verdicts, conclusions, lost, reconciled, config.capabilities)
      ensures raised <==> handled < |opOrder|
      ensures LookedUp(old(ops), opOrder, handled, states, |old(states)|, lost)
      ensures raised ==> && opOrder[handled] in ops && Blocked(ops[opOrder[handled]], config.capabilities)
                         && tasks == old(tasks) && settled == 0
      ensures !raised ==> ops.Keys == old(ops).Keys
                          && forall o :: o in ops ==> ops[o] == RecoveredBy(old(ops)[o], o, verdicts, conclusions, lost)
      ensures !raised && Calm(verdicts, conclusions, lost) ==> forall o :: o in ops ==> (Terminal(ops[o]) <==> !Stuck(old(ops)[o]))
      ensures !raised && Calm(verdicts, conclusions, lost) && CallExecute(Returned(None)) !in old(acts) ==>
                forall o :: o in ops ==> Terminal(ops[o])
      ensures (forall o :: o in old(ops) ==> Terminal(old(ops)[o])) ==> !raised && reconciled == 0 && ops == old(ops)
      ensures !raised ==> SettledUpTo(old(tasks), tasks, taskOrder, |taskOrder|, settled)
    {
      hide Reaches, Blocked, Progress, SettledUpTo, RecoveredBy, Terminal, Stuck, Calm, Recovered, LookedUp;
      ghost var was := ops;
      NoneStuck(states, acts, Sys());
      FinalIsNotBlocked(ops, config.capabilities);
      settled := 0;
      handled, reconciled, lost := RecoverOperations(opOrder, verdicts, conclusions);
      raised := handled < |opOrder|;
      if raised {
        NextToRecover(was, ops, opOrder, handled, verdicts, conclusions, lost, reconciled, config.capabilities);
      } else {
        AllRecovered(was, ops, opOrder, verdicts, conclusions, lost, reconciled, config.capabilities);
        ghost var before := states;
        settled := SettleAll(taskOrder);
        LookedUpLater(was, opOrder, handled, before, states, |old(states)|, lost);
      }
    }
  }
}
