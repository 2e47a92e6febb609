/** Results about runs of the engine that join it to the world model, and particular runs: one that reaches an
    effect, and one that leaves an operation which no recovery finishes. */
module EngineRuns {
  import opened Basics
  import opened Models
  import opened Engine
  import opened EngineSafety
  import F = Fencing
  import TL = TaskLeases
  import W = World
  import R = Runtime

  // ---- Operations that stay without a result ----

  /** The process is between the transaction that records a result and the one that begins verification. */
  predicate Watching(s: System, o: Id) { s.process.Up? && s.process.pc.Watched? && s.process.pc.op == o }

  /** An operation stored as observed without a result, which nobody is about to verify. */
  predicate LeftBehind(s: System, o: Id) { o in s.store.ops && R.Stuck(s.store.ops[o]) && !Watching(s, o) }

  /** The process dies at that point, with no result to verify. */
  predicate DiesWatching(s: System, a: Action, o: Id) {
    a == Crash && Watching(s, o) && o in s.store.ops && s.store.ops[o].result.None?
  }

  /** The operation that a step writes, if any. */
  function Written(s: System, a: Action): Option<Id> {
    if !s.process.Up? then None else
      match a
      case Prepare(o) => Some(o)
      case RecoverNext => if s.process.pc.Recovering? && s.process.pc.todo != [] then Some(s.process.pc.todo[0]) else None
      case Begin => if s.process.pc.Ready? then Some(s.process.pc.op) else None
      case RecordOutcome => if s.process.pc.Called? then Some(s.process.pc.op) else None
      case BeginVerify => if s.process.pc.Watched? then Some(s.process.pc.op) else None
      case RecordVerdict => if s.process.pc.Judged? then Some(s.process.pc.op) else None
      case RecordReconcile => if s.process.pc.Told? then Some(s.process.pc.op) else None
      case _ => None
  }

  /** The steps that write an operation. */
  predicate Writes(a: Action) {
    a.Prepare? || a.RecoverNext? || a.Begin? || a.RecordOutcome? || a.BeginVerify? || a.RecordVerdict? || a.RecordReconcile?
  }

  lemma OthersWriteNothing(s: System, a: Action)
    requires Enabled(s, a) && !Writes(a)
    ensures Apply(s, a).store.ops == s.store.ops
  {
    hide CanTick, CanOtherTaskLease, CanOtherResource, Admissible, MayAcquire, PrepareCheck, ExecuteCheck, MayBegin,
         BudgetLeft, RowsWith, RowsWithout, NewOperation, RefsAccessible;
  }

  lemma WritersWriteOne(s: System, a: Action, o: Id)
    requires Enabled(s, a) && Writes(a) && Written(s, a) != Some(o)
    ensures o in Apply(s, a).store.ops <==> o in s.store.ops
    ensures o in s.store.ops ==> Apply(s, a).store.ops[o] == s.store.ops[o]
  {
    hide BudgetLeft, MayBegin, NewOperation, AfterVerdict, AfterOutcome, AfterConclusion, Engine.Charged;
    match a
    case Prepare(_) =>
    case RecoverNext =>
    case Begin =>
    case RecordOutcome =>
    case BeginVerify =>
    case RecordVerdict =>
    case RecordReconcile =>
  }

  lemma OnlyWritten(s: System, a: Action, o: Id)
    requires Enabled(s, a) && Written(s, a) != Some(o)
    ensures o in Apply(s, a).store.ops <==> o in s.store.ops
    ensures o in s.store.ops ==> Apply(s, a).store.ops[o] == s.store.ops[o]
  {
    hide Enabled, Apply, Written;
    if Writes(a) { WritersWriteOne(s, a, o); } else { OthersWriteNothing(s, a); }
  }

  lemma WatchingBegins(s: System, a: Action, o: Id)
    requires Enabled(s, a) && Watching(Apply(s, a), o) && !Watching(s, o)
    ensures a == RecordOutcome && s.process.Up? && s.process.pc.Called? && s.process.pc.op == o
  {
    hide CanTick, CanOtherTaskLease, CanOtherResource, Admissible, MayAcquire, PrepareCheck, ExecuteCheck, MayBegin,
         BudgetLeft, RowsWith, RowsWithout, NewOperation, AfterVerdict, AfterOutcome, AfterConclusion, RefsAccessible;
  }

  /** An observed operation is written only by the step that begins its verification or by recovery. */
  lemma ObservedWriter(s: System, a: Action, o: Id)
    requires Inv(s) && Enabled(s, a) && Written(s, a) == Some(o) && OpAt(s, o, Observed)
    ensures (a == BeginVerify && Watching(s, o)) || (a == RecoverNext && o in s.process.ops && s.process.ops[o] == s.store.ops[o])
  {
    hide OpsOk, BudgetsOk, BudgetLeft, MayBegin, NewOperation, ExecuteCheck, PrepareCheck;
  }

  lemma StuckIsObserved(s: System, o: Id)
    requires Inv(s) && o in s.store.ops && R.Stuck(s.store.ops[o])
    ensures OpAt(s, o, Observed)
  {
    assert OpOk(s.store.ops[o], s.executed[o], o in s.confirmed);
  }

  /** No step changes an operation that was left behind, recovery included. */
  lemma LeftBehindStays(s: System, a: Action, o: Id)
    requires Inv(s) && Enabled(s, a) && LeftBehind(s, o)
    ensures LeftBehind(Apply(s, a), o) && Apply(s, a).store.ops[o] == s.store.ops[o]
  {
    StuckIsObserved(s, o);
    if Watching(Apply(s, a), o) { WatchingBegins(s, a, o); NotRunning(s, o); }
    if Written(s, a) == Some(o) {
      ObservedWriter(s, a, o);
      RecoverySkips(s, o);
    } else {
      OnlyWritten(s, a, o);
    }
  }

  lemma NotRunning(s: System, o: Id)
    requires Inv(s) && s.process.Up? && s.process.pc.Called? && s.process.pc.op == o
    ensures OpAt(s, o, Running)
  {
  }

  lemma RecoverySkips(s: System, o: Id)
    requires s.process.Up? && CanRecoverNext(s) && s.process.pc.todo[0] == o && R.Stuck(s.process.ops[o])
    ensures DoRecoverNext(s).store == s.store
  {
  }

  lemma WatchingEnds(s: System, a: Action, o: Id)
    requires Enabled(s, a) && Watching(s, o) && !Watching(Apply(s, a), o)
    ensures a == Crash || a == BeginVerify
  {
    hide CanTick, CanOtherTaskLease, CanOtherResource, Admissible, MayAcquire, PrepareCheck, ExecuteCheck, MayBegin,
         BudgetLeft, RowsWith, RowsWithout, NewOperation, AfterVerdict, AfterOutcome, AfterConclusion, RefsAccessible;
  }

  lemma BeginVerifyMovesOn(s: System, o: Id)
    requires CanBeginVerify(s) && Watching(s, o)
    ensures o in DoBeginVerify(s).store.ops && DoBeginVerify(s).store.ops[o].state != Observed
  {
  }

  lemma NothingIsWatched(s: System, o: Id)
    requires GaveNothing(s) && CanRecordOutcome(s) && s.process.pc.op == o
    ensures Watching(DoRecordOutcome(s), o)
  {
  }

  /** While a call that returned None waits to be recorded, only that record writes an operation. */
  lemma OnlyTheOutcome(s: System, a: Action, o: Id)
    requires Enabled(s, a) && GaveNothing(s) && Written(s, a) == Some(o)
    ensures a == RecordOutcome && CanRecordOutcome(s) && s.process.pc.op == o
  {
  }

  lemma StepMovesOps(s: System, a: Action, o: Id)
    requires Inv(s) && Enabled(s, a)
    ensures Inv(Apply(s, a))
    ensures var now := Apply(s, a).store.ops;
            && (o in now && o !in s.store.ops ==> now[o].state == Prepared)
            && (o in s.store.ops ==> o in now && OpMove(s, o, s.store.ops[o], now[o]))
  {
    hide Inv, Enabled, Apply, OpMove, Steady, ResourcesMove, LeaseKept, Arrives, Confirmations;
    StepIsGood(s, a);
  }

  lemma ObservedByOutcome(s: System, o: Id, was: Operation, now: Operation)
    requires OpMove(s, o, was, now) && now != was && now.state == Observed && now.result.None?
    ensures GaveNothing(s)
  {
  }

  /** An operation is left behind by nothing but a crash at that one point. */
  lemma LeftBehindBegins(s: System, a: Action, o: Id)
    requires Inv(s) && Enabled(s, a) && LeftBehind(Apply(s, a), o) && !LeftBehind(s, o)
    ensures DiesWatching(s, a, o)
  {
    var s' := Apply(s, a);
    hide Inv, OpMove, GaveNothing, Watching, Enabled, Apply, Written;
    StepMovesOps(s, a, o);
    StuckIsObserved(s', o);
    if o in s.store.ops && s.store.ops[o] == s'.store.ops[o] {
      WatchingEnds(s, a, o);
      if a == BeginVerify { BeginVerifyMovesOn(s, o); }
    } else {
      if Written(s, a) != Some(o) { OnlyWritten(s, a, o); }
      ObservedByOutcome(s, o, s.store.ops[o], s'.store.ops[o]);
      OnlyTheOutcome(s, a, o);
      NothingIsWatched(s, o);
    }
  }

  lemma CrashLeavesBehind(s: System, o: Id)
    requires Inv(s) && DiesWatching(s, Crash, o)
    ensures LeftBehind(s.(process := Down), o)
  {
  }

  /** In any run, an operation is stored as observed without a result, with nobody about to verify it, exactly
      when at some earlier step the process crashed between recording that execute had returned None and the
      next transaction. */
  lemma {:induction false} LeftBehindIff(states: seq<System>, acts: seq<Action>, i: nat, o: Id)
    requires IsRun(states, acts) && i < |states|
    ensures LeftBehind(states[i], o) <==> exists m :: 0 <= m < i && DiesWatching(states[m], acts[m], o)
  {
    hide LeftBehind, DiesWatching, Inv, Enabled, Apply;
    if i == 0 {
      NoneAtFirst(states[0], o);
    } else {
      LeftBehindIff(states, acts, i - 1, o);
      RunKeepsInv(states, acts, i - 1);
      LeftBehindStep(states[i - 1], acts[i - 1], o);
    }
  }

  lemma NoneAtFirst(s: System, o: Id)
    requires Initial(s)
    ensures !LeftBehind(s, o)
  {
  }

  lemma LeftBehindStep(s: System, a: Action, o: Id)
    requires Inv(s) && Enabled(s, a)
    ensures LeftBehind(Apply(s, a), o) <==> LeftBehind(s, o) || DiesWatching(s, a, o)
  {
    hide LeftBehind, Inv;
    if LeftBehind(s, o) { LeftBehindStays(s, a, o); }
    if LeftBehind(Apply(s, a), o) && !LeftBehind(s, o) { LeftBehindBegins(s, a, o); }
    if DiesWatching(s, a, o) { CrashLeavesBehind(s, o); }
  }

  // ---- What an effect sees of the world ----

  /** A change of the world by one step of the world model that moves no entity to another workspace. */
  ghost predicate HomeStep(s: System, a: Action) {
    a.ChangeWorld? ==> exists st :: W.KeepsHome(s.world, st) && a.world == W.Apply(s.world, st)
  }

  lemma OnlyChangeWorldMoves(s: System, a: Action)
    requires Enabled(s, a) && !a.ChangeWorld?
    ensures Apply(s, a).world == s.world
  {
    hide CanTick, CanOtherTaskLease, CanOtherResource, Admissible, MayAcquire, PrepareCheck, ExecuteCheck, MayBegin,
         BudgetLeft, RowsWith, RowsWithout, NewOperation, AfterVerdict, AfterOutcome, AfterConclusion, RefsAccessible;
  }

  lemma HomeStepTracks(s: System, a: Action, ws: Id)
    requires Enabled(s, a) && HomeStep(s, a)
    ensures var w, w' := s.world, Apply(s, a).world;
            && W.WorkspaceRevision(w, ws) <= W.WorkspaceRevision(w', ws)
            && (W.WorkspaceRevision(w, ws) == W.WorkspaceRevision(w', ws) ==> W.ContentOf(w', ws) == W.ContentOf(w, ws))
  {
    if a.ChangeWorld? {
      var st :| W.KeepsHome(s.world, st) && a.world == W.Apply(s.world, st);
      W.StepIsLocal(s.world, st, ws);
    } else {
      OnlyChangeWorldMoves(s, a);
    }
  }

  lemma {:induction false} RevisionTracksContent(states: seq<System>, acts: seq<Action>, b: nat, j: nat, ws: Id)
    requires IsRun(states, acts) && b <= j < |states| && forall k :: b <= k < j ==> HomeStep(states[k], acts[k])
    ensures var w, w' := states[b].world, states[j].world;
            && W.WorkspaceRevision(w, ws) <= W.WorkspaceRevision(w', ws)
            && (W.WorkspaceRevision(w, ws) == W.WorkspaceRevision(w', ws) ==> W.ContentOf(w', ws) == W.ContentOf(w, ws))
    decreases j
  {
    hide Enabled, Apply, HomeStep, W.WorkspaceRevision, W.ContentOf;
    if b < j {
      RevisionTracksContent(states, acts, b, j - 1, ws);
      HomeStepTracks(states[j - 1], acts[j - 1], ws);
    }
  }

  lemma {:induction false} WorldRests(states: seq<System>, acts: seq<Action>, k: nat, j: nat)
    requires IsRun(states, acts) && k <= j < |states| && forall m :: k <= m < j ==> !acts[m].ChangeWorld?
    ensures states[j].world == states[k].world
    decreases j
  {
    hide Enabled, Apply;
    if k < j {
      WorldRests(states, acts, k, j - 1);
      OnlyChangeWorldMoves(states[j - 1], acts[j - 1]);
    }
  }

  lemma PassedRevision(s: System, c: Ctx, lease: Option<ResourceLease>, w: W.State)
    requires MayBegin(s, NewOperation(c, lease)) && c.manifest == W.Snapshot(w, c.workspace) && W.Workspace in c.spec.domains
    ensures W.WorkspaceRevision(s.world, c.workspace) == W.WorkspaceRevision(w, c.workspace)
  {
    assert W.Workspace in Wanted(c);
    assert W.Revision(s.world, W.Workspace, c.workspace) == Wanted(c)[W.Workspace];
  }

  /** Take any execute call whose action depends on its workspace and whose manifest was built at a point `b`
      before its step. If since then the world has changed only by steps of the world model that keep
      entities home, then when execute made its last checks and recorded RUNNING the entities and relations of the
      workspace were exactly those the manifest was built on, and they still are at the call unless the world has
      changed in between. */
  lemma EffectSeesItsManifest(states: seq<System>, acts: seq<Action>, b: nat, i: nat) returns (k: nat)
    requires IsRun(states, acts) && b < i < |acts| && acts[i].CallExecute?
    requires states[i].process.Up? && states[i].process.pc.Started?
    requires var c := states[i].process.pc.ctx;
             && c.manifest == W.Snapshot(states[b].world, c.workspace) && W.Workspace in c.spec.domains
             && !(states[b].process.Up? && CtxOf(states[b].process.pc) == Some(c))
    requires forall m :: b <= m < i ==> HomeStep(states[m], acts[m])
    ensures var pc := states[i].process.pc;
            && b < k < i && BeginAt(states, acts, k, pc.ctx, pc.lease, pc.op)
            && W.ContentOf(states[k].world, pc.ctx.workspace) == W.ContentOf(states[b].world, pc.ctx.workspace)
            && ((forall m :: k <= m < i ==> !acts[m].ChangeWorld?) ==>
                  W.ContentOf(states[i].world, pc.ctx.workspace) == W.ContentOf(states[b].world, pc.ctx.workspace))
  {
    hide Enabled, Apply, HomeStep, W.ContentOf, W.Snapshot, AdmitAt, InspectAt, PrepareAt, FenceAt, MayBegin, NewOperation;
    EffectsAreCleared(states, acts, i);
    var pc := states[i].process.pc;
    var c := pc.ctx;
    var t :| Walked(states, acts, i, c, pc.lease, pc.op, t, 7);
    k := t.begin;
    RevisionTracksContent(states, acts, b, k, c.workspace);
    PassedRevision(states[k], c, pc.lease, states[b].world);
    if forall m :: k <= m < i ==> !acts[m].ChangeWorld? { WorldRests(states, acts, k, i); }
  }

  // ---- A run that reaches an effect, and one that leaves an operation behind ----

  const SPEC := ActionSpec(Read, "read", {W.Workspace}, Request(0, 0, 0, []))

  /** The same, except that the action depends on the task counter. */
  const COUNTING := SPEC.(domains := {W.Tasks})

  /** The lease requirement is left at its default. */
  const CONFIG := Config(map[(3, 4) := SPEC, (3, 7) := COUNTING], map[2 := WorkspacePolicy({3}, {}, {External}, {Read})], {3}, None, None, 60.0)

  const FILE := W.Entity(5, "file", 2, "here", 1, true, {"read"})

  const SCENE := W.Apply(W.ZERO, W.Register(FILE))

  const JOB := Task(2, TaskRunning, TaskRunning, Thinking, 50, OtherLane("background"), None, None, Budget(64, 0, None), 1)

  const LEASES: TL.LeaseRows := map[1 := TL.LeaseRow(8, 1, 0.0, 30.0)]

  const PLAN := Ctx(1, 2, Proposal(3, 4, [5]), SPEC, W.Snapshot(SCENE, 2), Some(TaskLease(1, 8, 1, 0.0, 30.0)))

  /** The engine with that one job. */
  function Scene(task: Task, ops: map<Id, Operation>, pc: Pc, calls: multiset<Id>): System {
    System(CONFIG, Store(map[1 := task], ops, LEASES, map[]), SCENE, 0.0, Up(map[1 := task], ops, pc), calls, {})
  }

  /** A process starts, the job is created, and a runner has claimed it. */
  lemma RunToIdle() returns (states: seq<System>, acts: seq<Action>)
    ensures R.Reaches(states, acts, Scene(JOB, map[], Idle, multiset{}))
  {
    hide R.Reaches;
    var s0 := System(CONFIG, Store(map[], map[], map[], map[]), SCENE, 0.0, Down, multiset{}, {});
    var s1 := s0.(process := Up(map[], map[], Idle));
    var s2 := WriteTask(s1, 1, JOB);
    states, acts := [s0], [];
    StartHere(s0);
    R.RunExtends(states, acts, s0, Restart);
    states, acts := states + [s1], acts + [Restart];
    R.RunExtends(states, acts, s1, CreateTask(1, JOB));
    states, acts := states + [s2], acts + [CreateTask(1, JOB)];
    R.RunExtends(states, acts, s2, OtherTaskLease(LEASES));
    states, acts := states + [Scene(JOB, map[], Idle, multiset{})], acts + [OtherTaskLease(LEASES)];
  }

  lemma StartHere(s: System)
    requires Initial(s)
    ensures R.Reaches([s], [], s)
  {
  }

  lemma FilePasses(s: System)
    requires s.world == SCENE && s.store.taskLeases == LEASES && s.clock == 0.0 && s.config == CONFIG
    ensures PrepareCheck(s, PLAN, None, 0) && PrepareCheck(s, PLAN, None, 1)
    ensures ExecuteCheck(s, NewOperation(PLAN, None), 0) && ExecuteCheck(s, NewOperation(PLAN, None), 1)
    ensures MayBegin(s, NewOperation(PLAN, None))
  {
    assert W.Accessible(SCENE, 5, "read", 2);
    assert Wanted(PLAN) == map[W.Workspace := 1];
    assert W.Revision(SCENE, W.Workspace, 2) == 1;
    assert F.Validates(TL.SlotsOf(LEASES), F.Identity(1, 8, 1), 0.0);
  }

  lemma MoveTo(states: seq<System>, acts: seq<Action>, s: System, a: Action, pc: Pc) returns (states': seq<System>, acts': seq<Action>)
    requires R.Reaches(states, acts, s) && R.Moves(s, a, pc)
    ensures R.Reaches(states', acts', Goto(s, pc)) && acts' == acts + [a]
  {
    hide R.Reaches, Enabled, Apply;
    R.RunExtends(states, acts, s, a);
    states', acts' := states + [Goto(s, pc)], acts + [a];
  }

  lemma SaveTo(states: seq<System>, acts: seq<Action>, s: System, a: Action, o: Id, op: Operation, pc: Pc)
      returns (states': seq<System>, acts': seq<Action>)
    requires R.Reaches(states, acts, s) && R.Saves(s, a, o, op, pc)
    ensures R.Reaches(states', acts', Saved(s, o, op, pc)) && acts' == acts + [a]
  {
    hide R.Reaches, Enabled, Apply;
    R.RunExtends(states, acts, s, a);
    states', acts' := states + [Saved(s, o, op, pc)], acts + [a];
  }

  lemma AdmitPlan(s: System)
    requires s == Scene(JOB, map[], Idle, multiset{})
    ensures R.Moves(s, Admit(PLAN), Allowed(PLAN))
  {
    R.AdmitMoves(s, PLAN);
  }

  lemma NoResourcesNeeded(s: System)
    requires s == Scene(JOB, map[], Allowed(PLAN), multiset{})
    ensures R.Moves(s, Acquire(None), Holding(PLAN, None, 0))
  {
  }

  lemma PreparePlan(s: System)
    requires s == Scene(JOB, map[], Holding(PLAN, None, 2), multiset{})
    ensures Enabled(s, Prepare(6))
    ensures Apply(s, Prepare(6)) == Scene(Engine.Charged(JOB), map[6 := NewOperation(PLAN, None)], Ready(PLAN, None, 6, 0), multiset{})
  {
    hide NewOperation;
    var op: Operation, none: map<Id, Operation> := NewOperation(PLAN, None), map[];
    assert none[6 := op] == map[6 := op];
    assert map[1 := JOB][1 := Engine.Charged(JOB)] == map[1 := Engine.Charged(JOB)];
  }

  lemma RunToPrepared() returns (states: seq<System>, acts: seq<Action>)
    ensures R.Reaches(states, acts, Scene(Engine.Charged(JOB), map[6 := NewOperation(PLAN, None)], Ready(PLAN, None, 6, 0), multiset{}))
  {
    hide R.Reaches, R.Moves, PrepareCheck, ExecuteCheck, MayBegin, NewOperation, Enabled, Apply;
    states, acts := RunToIdle();
    AdmitPlan(Scene(JOB, map[], Idle, multiset{}));
    states, acts := MoveTo(states, acts, Scene(JOB, map[], Idle, multiset{}), Admit(PLAN), Allowed(PLAN));
    var s := Scene(JOB, map[], Allowed(PLAN), multiset{});
    NoResourcesNeeded(s);
    states, acts := MoveTo(states, acts, s, Acquire(None), Holding(PLAN, None, 0));
    s := Scene(JOB, map[], Holding(PLAN, None, 0), multiset{});
    FilePasses(s);
    R.InspectMoves(s, PLAN, None, 0);
    states, acts := MoveTo(states, acts, s, Check, Holding(PLAN, None, 1));
    s := Scene(JOB, map[], Holding(PLAN, None, 1), multiset{});
    FilePasses(s);
    R.InspectMoves(s, PLAN, None, 1);
    states, acts := MoveTo(states, acts, s, Check, Holding(PLAN, None, 2));
    s := Scene(JOB, map[], Holding(PLAN, None, 2), multiset{});
    PreparePlan(s);
    R.RunExtends(states, acts, s, Prepare(6));
    states, acts := states + [Apply(s, Prepare(6))], acts + [Prepare(6)];
  }

  /** The engine while the operation is in one state. */
  function Busy(op: Operation, pc: Pc, calls: multiset<Id>): System { Scene(Engine.Charged(JOB), map[6 := op], pc, calls) }

  lemma BeginPlan(s: System, op: Operation)
    requires op == NewOperation(PLAN, None) && s == Busy(op, Ready(PLAN, None, 6, 2), multiset{})
    ensures R.Saves(s, Begin, 6, op.(state := Running), Started(PLAN, None, 6))
    ensures Saved(s, 6, op.(state := Running), Started(PLAN, None, 6)) == Busy(op.(state := Running), Started(PLAN, None, 6), multiset{})
  {
    hide NewOperation, MayBegin;
    FilePasses(s);
    R.BeginSaves(s, PLAN, None, 6);
    assert map[6 := op][6 := op.(state := Running)] == map[6 := op.(state := Running)];
  }

  lemma RunToStarted() returns (states: seq<System>, acts: seq<Action>)
    ensures R.Reaches(states, acts, Busy(NewOperation(PLAN, None).(state := Running), Started(PLAN, None, 6), multiset{}))
  {
    hide R.Reaches, R.Moves, R.Saves, PrepareCheck, ExecuteCheck, MayBegin, NewOperation, Enabled, Apply;
    states, acts := RunToPrepared();
    var op := NewOperation(PLAN, None);
    var s := Busy(op, Ready(PLAN, None, 6, 0), multiset{});
    FilePasses(s);
    R.CheckMoves(s, PLAN, None, 6, 0);
    states, acts := MoveTo(states, acts, s, Check, Ready(PLAN, None, 6, 1));
    s := Busy(op, Ready(PLAN, None, 6, 1), multiset{});
    FilePasses(s);
    R.CheckMoves(s, PLAN, None, 6, 1);
    states, acts := MoveTo(states, acts, s, Check, Ready(PLAN, None, 6, 2));
    s := Busy(op, Ready(PLAN, None, 6, 2), multiset{});
    BeginPlan(s, op);
    states, acts := SaveTo(states, acts, s, Begin, 6, op.(state := Running), Started(PLAN, None, 6));
  }

  /** The theorems about effects are not empty: some run, with the default lease requirement, calls execute, with
      any outcome. */
  lemma RunToEffect(outcome: ExecOutcome) returns (states: seq<System>, acts: seq<Action>)
    ensures CONFIG.requireLease.None? && acts != [] && acts[|acts| - 1] == CallExecute(outcome)
    ensures R.Reaches(states, acts, Busy(NewOperation(PLAN, None).(state := Running), Called(6, outcome, None), multiset{6}))
  {
    hide R.Reaches, NewOperation;
    states, acts := RunToStarted();
    var s := Busy(NewOperation(PLAN, None).(state := Running), Started(PLAN, None, 6), multiset{});
    R.RunExtends(states, acts, s, CallExecute(outcome));
    assert multiset{} + multiset{6} == multiset{6};
    states, acts := states + [DoCallExecute(s, outcome)], acts + [CallExecute(outcome)];
  }

  /** A concrete failure: execute returns None, the result is recorded, and the process crashes. The operation is
      left behind, and by LeftBehindStays it stays so. */
  lemma RunToLeftBehind() returns (states: seq<System>, acts: seq<Action>)
    ensures IsRun(states, acts) && LeftBehind(states[|acts|], 6)
  {
    hide R.Reaches, NewOperation;
    states, acts := RunToEffect(Returned(None));
    var s := Busy(NewOperation(PLAN, None).(state := Running), Called(6, Returned(None), None), multiset{6});
    R.RunExtends(states, acts, s, RecordOutcome);
    states, acts := states + [DoRecordOutcome(s)], acts + [RecordOutcome];
    s := DoRecordOutcome(s);
    R.RunExtends(states, acts, s, Crash);
    states, acts := states + [s.(process := Down)], acts + [Crash];
    RunOf(states, acts, s.(process := Down));
  }

  lemma RunOf(states: seq<System>, acts: seq<Action>, s: System)
    requires R.Reaches(states, acts, s)
    ensures IsRun(states, acts) && states[|acts|] == s
  {
  }

  // ---- Actions that depend on the task counters ----

  /** A change of the world by a change of some task, as the updates of a step make it. */
  predicate TaskChange(s: System, a: Action) { a.ChangeWorld? ==> a.world == W.Apply(s.world, W.TouchTasks) }

  lemma TaskChangeMoves(s: System, a: Action, ws: Id)
    requires Enabled(s, a) && TaskChange(s, a)
    ensures R.TasksMoved(s.world, Apply(s, a).world, ws, if a.ChangeWorld? then 1 else 0)
  {
    if !a.ChangeWorld? { OnlyChangeWorldMoves(s, a); }
  }

  lemma {:induction false} TaskChangesMove(states: seq<System>, acts: seq<Action>, b: nat, j: nat, ws: Id)
    requires IsRun(states, acts) && b <= j < |states| && forall k :: b <= k < j ==> TaskChange(states[k], acts[k])
    ensures R.TasksMoved(states[b].world, states[j].world, ws, if exists k :: b <= k < j && acts[k].ChangeWorld? then 1 else 0)
    decreases j
  {
    hide Enabled, Apply, TaskChange, W.WorkspaceRevision;
    if b < j {
      TaskChangesMove(states, acts, b, j - 1, ws);
      TaskChangeMoves(states[j - 1], acts[j - 1], ws);
    }
  }

  /** In any run, take a manifest built at `b` and a check at `j`, between which the world has changed at least once and
      only by task changes. An agent step changes its task between the two (Runtime.Node.Think), so this is what it
      meets when nothing else happens. The check passes exactly when the action depends neither on the task
      counter nor on the global one. */
  lemma OwnChangesStopIff(states: seq<System>, acts: seq<Action>, b: nat, j: nat, ws: Id, domains: set<W.Domain>)
    requires IsRun(states, acts) && b <= j < |states|
    requires forall k :: b <= k < j ==> TaskChange(states[k], acts[k])
    requires exists k :: b <= k < j && acts[k].ChangeWorld?
    ensures W.Current(states[j].world, W.Select(W.Snapshot(states[b].world, ws), domains), ws)
            <==> W.Tasks !in domains && W.GlobalRevision !in domains
  {
    hide IsRun, TaskChange;
    TaskChangesMove(states, acts, b, j, ws);
    R.TaskChangesStopIff(states[b].world, states[j].world, ws, domains);
  }

  const COUNTED_PLAN := PLAN.(proposal := Proposal(3, 7, [5]), spec := COUNTING)

  /** The job in its next phase, and the world after that change. */
  const NEXT_JOB := R.Updated(JOB, None, Some(Authorizing))

  const NEXT_SCENE := W.Apply(SCENE, W.TouchTasks)

  function NextScene(pc: Pc): System { Scene(NEXT_JOB, map[], pc, multiset{}).(world := NEXT_SCENE) }

  lemma PhaseChange(s: System)
    requires s == Scene(JOB, map[], Idle, multiset{})
    ensures TaskChange(s, ChangeWorld(NEXT_SCENE)) && Enabled(s, ChangeWorld(NEXT_SCENE))
    ensures Enabled(Apply(s, ChangeWorld(NEXT_SCENE)), SaveTask(1, NEXT_JOB))
    ensures Apply(Apply(s, ChangeWorld(NEXT_SCENE)), SaveTask(1, NEXT_JOB)) == NextScene(Idle)
  {
    assert map[1 := JOB][1 := NEXT_JOB] == map[1 := NEXT_JOB];
  }

  lemma AdmitCounted(s: System)
    requires s == NextScene(Idle)
    ensures Enabled(s, Admit(COUNTED_PLAN)) && Apply(s, Admit(COUNTED_PLAN)) == NextScene(Allowed(COUNTED_PLAN))
    ensures Enabled(NextScene(Allowed(COUNTED_PLAN)), Acquire(None))
    ensures Apply(NextScene(Allowed(COUNTED_PLAN)), Acquire(None)) == NextScene(Holding(COUNTED_PLAN, None, 0))
  {
    R.AdmitMoves(s, COUNTED_PLAN);
  }

  lemma CountedFails(s: System)
    requires s == NextScene(Holding(COUNTED_PLAN, None, 0))
    ensures R.FailsPrepare(s, COUNTED_PLAN, None, R.Raised)
  {
    assert W.Tasks in Wanted(COUNTED_PLAN) && Wanted(COUNTED_PLAN)[W.Tasks] == 0;
    assert W.Revision(NEXT_SCENE, W.Tasks, 2) == 1;
  }

  /** A concrete failure: the manifest is built at `b`, the step changes the phase of its task, the policy allows the
      action, which depends on the task counter, and prepare raises. */
  lemma RunToStaleCounter() returns (states: seq<System>, acts: seq<Action>, b: nat)
    ensures IsRun(states, acts) && |acts| == b + 4
    ensures COUNTED_PLAN.manifest == W.Snapshot(states[b].world, 2)
    ensures acts[b] == ChangeWorld(NEXT_SCENE) && TaskChange(states[b], acts[b]) && acts[b + 2] == Admit(COUNTED_PLAN)
    ensures R.FailsPrepare(states[b + 4], COUNTED_PLAN, None, R.Raised)
  {
    hide R.Reaches, R.Moves, R.FailsPrepare, Enabled, Apply;
    states, acts := RunToIdle();
    var s := Scene(JOB, map[], Idle, multiset{});
    EndOf(states, acts, s);
    b := |acts|;
    PhaseChange(s);
    var s1 := Apply(s, ChangeWorld(NEXT_SCENE));
    R.RunExtends(states, acts, s, ChangeWorld(NEXT_SCENE));
    states, acts := states + [s1], acts + [ChangeWorld(NEXT_SCENE)];
    R.RunExtends(states, acts, s1, SaveTask(1, NEXT_JOB));
    states, acts := states + [NextScene(Idle)], acts + [SaveTask(1, NEXT_JOB)];
    AdmitCounted(NextScene(Idle));
    R.RunExtends(states, acts, NextScene(Idle), Admit(COUNTED_PLAN));
    states, acts := states + [NextScene(Allowed(COUNTED_PLAN))], acts + [Admit(COUNTED_PLAN)];
    R.RunExtends(states, acts, NextScene(Allowed(COUNTED_PLAN)), Acquire(None));
    states, acts := states + [NextScene(Holding(COUNTED_PLAN, None, 0))], acts + [Acquire(None)];
    CountedFails(NextScene(Holding(COUNTED_PLAN, None, 0)));
    RunOf(states, acts, NextScene(Holding(COUNTED_PLAN, None, 0)));
  }

  lemma EndOf(states: seq<System>, acts: seq<Action>, s: System)
    requires R.Reaches(states, acts, s)
    ensures |states| == |acts| + 1 && states[|acts|] == s
  {
  }
}
