/** The events that the engine writes in the same transaction as an operation (liandanlu_native/storage.py:374-397),
    through crashes, recoveries and dispatches of the outbox. */
module EngineEvents {
  import opened Basics
  import opened Engine
  import opened EngineSafety
  import opened EngineRuns
  import E = Events

  datatype Kind =
    | PreparedEvent | StartedEvent | UnknownEvent | MissingResult | VerifyError | VerifiedEvent | VerificationFailed
    | Abandoned | ReconcilingEvent | ReconcileError | Reconciled

  function Name(k: Kind): string {
    match k
    case PreparedEvent => "operation.prepared"
    case StartedEvent => "operation.started"
    case UnknownEvent => "operation.unknown"
    case MissingResult => "operation.verify_missing_result"
    case VerifyError => "operation.verify_error"
    case VerifiedEvent => "operation.verified"
    case VerificationFailed => "operation.verification_failed"
    case Abandoned => "operation.abandoned_prepared"
    case ReconcilingEvent => "operation.reconciling"
    case ReconcileError => "operation.reconcile_error"
    case Reconciled => "operation.reconciled"
  }

  function Actor(k: Kind): string {
    match k
    case PreparedEvent => "engine"
    case StartedEvent => "engine"
    case UnknownEvent => "engine"
    case MissingResult => "verifier"
    case VerifyError => "verifier"
    case VerifiedEvent => "verifier"
    case VerificationFailed => "verifier"
    case _ => "recovery"
  }

  /** The event that a step writes together with the operation it saves, if that save writes one. */
  function Emits(s: System, a: Action): Option<Kind> {
    if !s.process.Up? || Written(s, a).None? then None else
      var o := Written(s, a).value;
      match a
      case Prepare(_) => Some(PreparedEvent)
      case Begin => Some(StartedEvent)
      case RecordOutcome => if s.process.pc.outcome.ExecRaised? then Some(UnknownEvent) else None
      case BeginVerify => if o in s.process.ops && s.process.ops[o].result.None? then Some(MissingResult) else None
      case RecordVerdict =>
        (match s.process.pc.verdict
         case VerifyRaised(_) => Some(VerifyError)
         case Evidenced(evidence) => Some(if evidence != [] && AllPass(evidence) then VerifiedEvent else VerificationFailed))
      case RecoverNext =>
        if o !in s.process.ops then None
        else if s.process.ops[o].state == Prepared then Some(Abandoned)
        else if s.process.ops[o].state in {Running, Unknown, Reconciling} then Some(ReconcilingEvent)
        else None
      case RecordReconcile => Some(if s.process.pc.conclusion.ReconcileRaised? then ReconcileError else Reconciled)
      case _ => None
  }

  /** The outbox entry, without its payload. */
  function Entry(k: Kind, o: Id, op: Operation): E.Content {
    E.Content(Name(k), Actor(k), op.workspace, Some(op.taskId), Some(o), op.refs, "", true)
  }

  /** An entry names its operation, task, workspace and objects, may be learned from, and is by the engine up to the
      effect, by the verifier for a verification, and by recovery otherwise. */
  lemma EntrySays(k: Kind, o: Id, op: Operation)
    ensures var e := Entry(k, o, op);
            && e.operation == Some(o) && e.task == Some(op.taskId) && e.workspace == op.workspace && e.refs == op.refs && e.learningAllowed
            && (e.actor == "engine" <==> e.eventType in {"operation.prepared", "operation.started", "operation.unknown"})
            && (e.actor == "recovery" <==>
                  e.eventType in {"operation.abandoned_prepared", "operation.reconciling", "operation.reconcile_error", "operation.reconciled"})
            && (e.actor == "verifier" <==> e.eventType in {"operation.verify_missing_result", "operation.verify_error",
                                                           "operation.verified", "operation.verification_failed"})
  {
  }

  /** The engine and the event tables in one database. */
  datatype Joint = Joint(system: System, tables: E.Tables)

  /** A step of the engine, with the event of a task that it saves, or a dispatch of the outbox. */
  datatype Move = Act(action: Action, note: Option<E.Content>) | Flush(limit: int)

  ghost predicate CanMove(j: Joint, m: Move) {
    match m
    case Act(a, note) => Enabled(j.system, a) && (note.Some? ==> (a.CreateTask? || a.SaveTask?) && note.value.operation.None?)
    case Flush(_) => true
  }

  /** What the transaction of a step puts into the outbox. */
  ghost function Put(s: System, a: Action, note: Option<E.Content>): Option<E.Content>
    requires Enabled(s, a)
  {
    if Emits(s, a).None? then note else
      var o := Written(s, a).value;
      if o in Apply(s, a).store.ops then Some(Entry(Emits(s, a).value, o, Apply(s, a).store.ops[o])) else None
  }

  ghost function DoMove(j: Joint, m: Move): Joint
    requires CanMove(j, m)
  {
    match m
    case Act(a, note) =>
      var entry := Put(j.system, a, note);
      Joint(Apply(j.system, a), if entry.None? then j.tables else E.Enqueue(j.tables, entry.value))
    case Flush(limit) => Joint(j.system, E.Dispatch(j.tables, limit))
  }

  ghost predicate IsJointRun(js: seq<Joint>, ms: seq<Move>) {
    && |js| == |ms| + 1 && Initial(js[0].system) && js[0].tables == E.Tables([], [], 0)
    && forall i :: 0 <= i < |ms| ==> CanMove(js[i], ms[i]) && js[i + 1] == DoMove(js[i], ms[i])
  }

  // ---- What the events of one operation tell ----

  /** The last event of an operation against its stored state. Not every save writes an event: OBSERVED and VERIFYING
      are saved silently. */
  predicate Fits(k: Kind, state: OpState) {
    match k
    case PreparedEvent => state == Prepared
    case StartedEvent => state in {Running, Observed, Verifying}
    case UnknownEvent => state == Unknown
    case MissingResult => state == Unknown
    case VerifyError => state == Verifying
    case VerifiedEvent => state == Verified
    case VerificationFailed => state == Failed
    case Abandoned => state == Cancelled
    case ReconcilingEvent => state == Reconciling
    case ReconcileError => state == Unknown
    case Reconciled => state in {Verified, Failed}
  }

  /** An unknown operation has no events. A stored one was prepared once, at first; it was started once, right after
      that, unless it is still PREPARED or was CANCELLED, and then never; and its last event fits its state. */
  predicate Tells(ks: seq<Kind>, state: Option<OpState>) {
    if state.None? then ks == [] else
      && ks != [] && ks[0] == PreparedEvent && Fits(ks[|ks| - 1], state.value)
      && (forall i :: 0 < i < |ks| ==> ks[i] != PreparedEvent)
      && (if state.value in {Prepared, Cancelled} then forall i :: 0 <= i < |ks| ==> ks[i] != StartedEvent
          else |ks| >= 2 && ks[1] == StartedEvent && forall i :: 1 < i < |ks| ==> ks[i] != StartedEvent)
  }

  function StateOf(s: System, o: Id): Option<OpState> {
    if o in s.store.ops then Some(s.store.ops[o].state) else None
  }

  function Extend(ks: seq<Kind>, more: Option<Kind>): seq<Kind> { if more.None? then ks else ks + [more.value] }

  /** The event of a step about operation `o`. */
  function Says(s: System, a: Action, o: Id): Option<Kind> { if Written(s, a) == Some(o) then Emits(s, a) else None }

  /** How one step may change a stored state, and with which event. */
  predicate Told(was: Option<OpState>, now: Option<OpState>, k: Option<Kind>) {
    if k.None? then now == was || (was.Some? && now.Some? && was.value in {Running, Observed, Verifying} && now.value in {Observed, Verifying}
                                   && (was == Some(Verifying) ==> now == Some(Verifying)))
    else
      match k.value
      case PreparedEvent => was.None? && now == Some(Prepared)
      case StartedEvent => was == Some(Prepared) && now == Some(Running)
      case Abandoned => was == Some(Prepared) && now == Some(Cancelled)
      case kind => was.Some? && now.Some? && was.value !in {Prepared, Cancelled} && now.value !in {Prepared, Cancelled} && Fits(kind, now.value)
  }

  lemma ToldExtends(ks: seq<Kind>, was: Option<OpState>, now: Option<OpState>, k: Option<Kind>)
    requires Tells(ks, was) && Told(was, now, k)
    ensures Tells(Extend(ks, k), now)
  {
  }

  lemma PrepareTold(s: System, o: Id)
    requires Inv(s) && CanPrepare(s, o)
    ensures Told(StateOf(s, o), StateOf(DoPrepare(s, o), o), Some(PreparedEvent))
  {
    hide OpsOk, BudgetsOk, BudgetLeft;
  }

  lemma BeginTold(s: System, o: Id)
    requires Inv(s) && CanBegin(s) && s.process.pc.op == o
    ensures Told(StateOf(s, o), StateOf(DoBegin(s), o), Some(StartedEvent))
  {
    hide OpsOk, BudgetsOk, MayBegin, NewOperation;
  }

  lemma OutcomeTold(s: System, o: Id)
    requires Inv(s) && CanRecordOutcome(s) && s.process.pc.op == o
    ensures Told(StateOf(s, o), StateOf(DoRecordOutcome(s), o), Emits(s, RecordOutcome))
  {
    hide OpsOk, BudgetsOk;
  }

  lemma BeginVerifyTold(s: System, o: Id)
    requires Inv(s) && CanBeginVerify(s) && s.process.pc.op == o
    ensures Told(StateOf(s, o), StateOf(DoBeginVerify(s), o), Emits(s, BeginVerify))
  {
    hide OpsOk, BudgetsOk;
  }

  lemma VerdictTold(s: System, o: Id)
    requires Inv(s) && CanRecordVerdict(s) && s.process.pc.op == o
    ensures Told(StateOf(s, o), StateOf(DoRecordVerdict(s), o), Emits(s, RecordVerdict))
  {
    hide OpsOk, BudgetsOk;
  }

  lemma RecoverTold(s: System, o: Id)
    requires Inv(s) && CanRecoverNext(s) && s.process.pc.todo[0] == o
    ensures Told(StateOf(s, o), StateOf(DoRecoverNext(s), o), Emits(s, RecoverNext))
  {
    hide OpsOk, BudgetsOk, PcOk;
  }

  lemma ReconcileTold(s: System, o: Id)
    requires Inv(s) && CanRecordReconcile(s) && s.process.pc.op == o
    ensures Told(StateOf(s, o), StateOf(DoRecordReconcile(s), o), Emits(s, RecordReconcile))
  {
    hide OpsOk, BudgetsOk;
  }

  /** Every step changes every stored operation in a way that its event tells. */
  lemma StepTold(s: System, a: Action, o: Id)
    requires Inv(s) && Enabled(s, a)
    ensures Told(StateOf(s, o), StateOf(Apply(s, a), o), Says(s, a, o))
  {
    hide Inv, Told, DoPrepare, DoBegin, DoRecordOutcome, DoBeginVerify, DoRecordVerdict, DoRecoverNext, DoRecordReconcile;
    if Written(s, a) == Some(o) {
      match a
      case Prepare(_) => PrepareTold(s, o);
      case Begin => BeginTold(s, o);
      case RecordOutcome => OutcomeTold(s, o);
      case BeginVerify => BeginVerifyTold(s, o);
      case RecordVerdict => VerdictTold(s, o);
      case RecoverNext => RecoverTold(s, o);
      case RecordReconcile => ReconcileTold(s, o);
    } else {
      NothingTold(s, a, o);
    }
  }

  lemma NothingTold(s: System, a: Action, o: Id)
    requires Enabled(s, a) && Written(s, a) != Some(o)
    ensures Says(s, a, o).None? && StateOf(Apply(s, a), o) == StateOf(s, o) && Told(StateOf(s, o), StateOf(Apply(s, a), o), None)
  {
    hide Enabled, Apply, Written;
    OnlyWritten(s, a, o);
  }

  // ---- The log and the outbox over whole runs ----

  /** Everything ever enqueued: the log, then what is pending. */
  function History(t: E.Tables): seq<E.Content> { E.Contents(t.log) + E.Pending(t) }

  /** The types of the events about one operation, in order. */
  function About(h: seq<E.Content>, o: Id): seq<string> {
    if h == [] then [] else
      About(h[..|h| - 1], o) + (if h[|h| - 1].operation == Some(o) then [h[|h| - 1].eventType] else [])
  }

  lemma AboutOneMore(h: seq<E.Content>, c: E.Content, o: Id)
    ensures About(h + [c], o) == About(h, o) + (if c.operation == Some(o) then [c.eventType] else [])
  {
    assert (h + [c])[..|h|] == h;
  }

  function Names(ks: seq<Kind>): seq<string> { seq(|ks|, i requires 0 <= i < |ks| => Name(ks[i])) }

  lemma NamesExtend(ks: seq<Kind>, k: Option<Kind>)
    ensures Names(Extend(ks, k)) == Names(ks) + (if k.None? then [] else [Name(k.value)])
  {
    hide Name;
  }

  function SaidBy(j: Joint, m: Move, o: Id): Option<Kind> { if m.Act? then Says(j.system, m.action, o) else None }

  lemma EnqueueHistory(t: E.Tables, c: E.Content)
    requires E.Fresh(t)
    ensures E.Fresh(E.Enqueue(t, c)) && History(E.Enqueue(t, c)) == History(t) + [c]
  {
    E.EnqueueAddsPending(t, c);
    assert E.Contents(t.log) + (E.Pending(t) + [c]) == E.Contents(t.log) + E.Pending(t) + [c];
  }

  lemma FlushHistory(t: E.Tables, limit: int)
    requires E.Fresh(t)
    ensures E.Fresh(E.Dispatch(t, limit)) && History(E.Dispatch(t, limit)) == History(t)
  {
    E.DispatchKeepsHistory(t, limit);
  }

  /** What the transaction of a step puts into the outbox about one operation. */
  lemma PutSays(s: System, a: Action, note: Option<E.Content>, o: Id)
    requires Inv(s) && Enabled(s, a) && (note.Some? ==> (a.CreateTask? || a.SaveTask?) && note.value.operation.None?)
    ensures var entry, k := Put(s, a, note), Says(s, a, o);
            if k.None? then entry.Some? ==> entry.value.operation != Some(o)
            else entry.Some? && entry.value.operation == Some(o) && entry.value.eventType == Name(k.value)
  {
    hide Inv, Enabled, Apply, Written, Name, Actor;
    StepTold(s, a, o);
  }

  lemma MoveSays(j: Joint, m: Move, o: Id)
    requires Inv(j.system) && E.Fresh(j.tables) && CanMove(j, m)
    ensures E.Fresh(DoMove(j, m).tables)
    ensures About(History(DoMove(j, m).tables), o)
            == About(History(j.tables), o) + (if SaidBy(j, m, o).None? then [] else [Name(SaidBy(j, m, o).value)])
  {
    hide Inv, E.Fresh, Enabled, Apply, Put, Says, Name, History, About, E.Enqueue, E.Dispatch;
    match m
    case Act(a, note) =>
      PutSays(j.system, a, note, o);
      var entry := Put(j.system, a, note);
      if entry.Some? {
        EnqueueHistory(j.tables, entry.value);
        AboutOneMore(History(j.tables), entry.value, o);
      }
    case Flush(limit) => FlushHistory(j.tables, limit);
  }

  /** The events that the moves before `i` have written about an operation. */
  function ToldBy(js: seq<Joint>, ms: seq<Move>, i: nat, o: Id): seq<Kind>
    requires |js| == |ms| + 1 && i < |js|
  {
    if i == 0 then [] else Extend(ToldBy(js, ms, i - 1, o), SaidBy(js[i - 1], ms[i - 1], o))
  }

  /** In every run of the engine with its event tables, through crashes at any boundary, recoveries and dispatches with
      any limits, and for every operation: log and outbox together hold exactly the events that its saves have written,
      once and in order; these begin with one "operation.prepared", contain one "operation.started" exactly if the
      operation has left PREPARED other than by cancellation, and end in one that fits the stored state. An
      operation that is not stored has none. */
  lemma {:induction false} EventsTellState(js: seq<Joint>, ms: seq<Move>, i: nat, o: Id)
    requires IsJointRun(js, ms) && i < |js|
    ensures Inv(js[i].system) && E.Fresh(js[i].tables)
    ensures About(History(js[i].tables), o) == Names(ToldBy(js, ms, i, o))
    ensures Tells(ToldBy(js, ms, i, o), StateOf(js[i].system, o))
  {
    hide Inv, E.Fresh, About, History, Names, Tells, Name, CanMove, DoMove, Initial;
    if i == 0 {
      NothingAtFirst(js[0], o);
    } else {
      EventsTellState(js, ms, i - 1, o);
      var j, m := js[i - 1], ms[i - 1];
      MoveSays(j, m, o);
      NamesExtend(ToldBy(js, ms, i - 1, o), SaidBy(j, m, o));
      MoveTells(j, m, ToldBy(js, ms, i - 1, o), o);
    }
  }

  lemma NothingAtFirst(j: Joint, o: Id)
    requires Initial(j.system) && j.tables == E.Tables([], [], 0)
    ensures Inv(j.system) && E.Fresh(j.tables) && About(History(j.tables), o) == Names([]) && Tells([], StateOf(j.system, o))
  {
    assert History(j.tables) == [];
  }

  lemma MoveTells(j: Joint, m: Move, ks: seq<Kind>, o: Id)
    requires Inv(j.system) && CanMove(j, m) && Tells(ks, StateOf(j.system, o))
    ensures Inv(DoMove(j, m).system) && Tells(Extend(ks, SaidBy(j, m, o)), StateOf(DoMove(j, m).system, o))
  {
    hide Inv, Tells, Told, Enabled, Apply, Says, Put;
    if m.Act? {
      StepIsGood(j.system, m.action);
      StepTold(j.system, m.action, o);
      ToldExtends(ks, StateOf(j.system, o), StateOf(Apply(j.system, m.action), o), Says(j.system, m.action, o));
    }
  }

  /** The types tell the kinds apart, so the statement above is one about what can be read from the tables. */
  lemma NameIsInjective(a: Kind, b: Kind)
    ensures Name(a) == Name(b) ==> a == b
  {
    if Name(a) == Name(b) {
      assert |Name(a)| == |Name(b)| && Name(a)[10] == Name(b)[10] && Name(a)[14] == Name(b)[14];
    }
  }

  predicate Left(state: Option<OpState>) { state.Some? && state.value !in {Prepared, Cancelled} }

  lemma StartedMeansLeft(ks: seq<Kind>, state: Option<OpState>)
    requires Tells(ks, state)
    ensures StartedEvent in ks <==> Left(state)
  {
  }

  lemma LeavesByRunning(j: Joint, m: Move, o: Id)
    requires Inv(j.system) && CanMove(j, m)
    ensures var was, now := StateOf(j.system, o), StateOf(DoMove(j, m).system, o);
            && (Left(was) ==> Left(now)) && (Left(now) && !Left(was) ==> now == Some(Running))
  {
    hide Inv, Enabled, Apply, Says, Put;
    if m.Act? { StepTold(j.system, m.action, o); }
  }

  ghost predicate WasRunning(js: seq<Joint>, i: nat, o: Id)
    requires i < |js|
  {
    exists k :: 0 <= k <= i && OpAt(js[k].system, o, Running)
  }

  /** The tables hold an "operation.started" exactly for the operations that have durably been RUNNING. */
  lemma {:induction false} StartedIffWasRunning(js: seq<Joint>, ms: seq<Move>, i: nat, o: Id)
    requires IsJointRun(js, ms) && i < |js|
    ensures StartedEvent in ToldBy(js, ms, i, o) <==> WasRunning(js, i, o)
  {
    hide Inv, E.Fresh, About, History, Names, Tells, Name, CanMove, DoMove, Initial, ToldBy;
    EventsTellState(js, ms, i, o);
    StartedMeansLeft(ToldBy(js, ms, i, o), StateOf(js[i].system, o));
    if i == 0 {
      NoneAtFirst(js[0].system, o);
      assert !Left(StateOf(js[0].system, o));
    } else {
      StartedIffWasRunning(js, ms, i - 1, o);
      EventsTellState(js, ms, i - 1, o);
      StartedMeansLeft(ToldBy(js, ms, i - 1, o), StateOf(js[i - 1].system, o));
      LeavesByRunning(js[i - 1], ms[i - 1], o);
    }
  }

  lemma NoneAtFirst(s: System, o: Id)
    requires Initial(s)
    ensures StateOf(s, o).None?
  {
  }

  /** The event types of an operation name its state: the first says that it was prepared, and the last one the state, or
      the one that a silent save has left since. */
  predicate ReadsAs(types: seq<string>, state: OpState) {
    && |types| > 0 && types[0] == "operation.prepared"
    && var last := types[|types| - 1];
       match state
       case Prepared => last == "operation.prepared"
       case Cancelled => last == "operation.abandoned_prepared"
       case Running => last == "operation.started"
       case Observed => last == "operation.started"
       case Verifying => last == "operation.started" || last == "operation.verify_error"
       case Unknown => last == "operation.unknown" || last == "operation.verify_missing_result" || last == "operation.reconcile_error"
       case Reconciling => last == "operation.reconciling"
       case Verified => last == "operation.verified" || last == "operation.reconciled"
       case Failed => last == "operation.verification_failed" || last == "operation.reconciled"
  }

  /** In every run, what log and outbox hold about a stored operation reads as its state. */
  lemma EventsCanBeRead(js: seq<Joint>, ms: seq<Move>, i: nat, o: Id)
    requires IsJointRun(js, ms) && i < |js| && o in js[i].system.store.ops
    ensures ReadsAs(About(History(js[i].tables), o), js[i].system.store.ops[o].state)
  {
    hide Inv, E.Fresh, About, History, ToldBy, Name, Names, Tells, ReadsAs;
    EventsTellState(js, ms, i, o);
    NamesRead(ToldBy(js, ms, i, o), js[i].system.store.ops[o].state);
  }

  lemma NamesRead(ks: seq<Kind>, state: OpState)
    requires Tells(ks, Some(state))
    ensures ReadsAs(Names(ks), state)
  {
  }
}
