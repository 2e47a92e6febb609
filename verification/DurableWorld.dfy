/** The world model on its durable tables: liandanlu_native/world.py:37-58, 120-152 and
    liandanlu_native/storage.py:463-559. A change of the world is up to three transactions; a crash between them
    leaves the earlier ones, and the next process loads what is there. */
module DurableWorld {
  import opened Basics
  import opened World

  datatype Write =
    | PutEntity(entity: Entity)
    | PutEdge(source: Id, relation: string, target: Id)
    | PutWorkspace(workspace: Id, revision: nat)
    | PutRevisions(revisions: Revisions)

  function Written(w: State, x: Write): State {
    match x
    case PutEntity(e) => w.(entities := w.entities[e.entityId := e])
    case PutEdge(source, relation, target) =>
      w.(relations := w.relations[source := Bucket(w, source) + [(relation, target)]])
    case PutWorkspace(ws, revision) => w.(workspaceRevisions := w.workspaceRevisions[ws := revision])
    case PutRevisions(r) => w.(revisions := r)
  }

  /** The tables after the first `n` writes. */
  function WrittenFirst(w: State, xs: seq<Write>, n: nat): State
    requires n <= |xs|
  {
    if n == 0 then w else Written(WrittenFirst(w, xs, n - 1), xs[n - 1])
  }

  lemma Unrolled(w: State, xs: seq<Write>)
    ensures |xs| >= 1 ==> WrittenFirst(w, xs, 1) == Written(w, xs[0])
    ensures |xs| >= 2 ==> WrittenFirst(w, xs, 2) == Written(Written(w, xs[0]), xs[1])
    ensures |xs| >= 3 ==> WrittenFirst(w, xs, 3) == Written(Written(Written(w, xs[0]), xs[1]), xs[2])
  {
    if |xs| >= 1 { assert WrittenFirst(w, xs, 1) == Written(WrittenFirst(w, xs, 0), xs[0]); }
    if |xs| >= 2 { assert WrittenFirst(w, xs, 2) == Written(WrittenFirst(w, xs, 1), xs[1]); }
    if |xs| >= 3 { assert WrittenFirst(w, xs, 3) == Written(WrittenFirst(w, xs, 2), xs[2]); }
  }

  /** The two writes that follow every change of a workspace. */
  function Bumps(w: State, ws: Id): seq<Write> {
    [PutWorkspace(ws, WorkspaceRevision(w, ws) + 1), PutRevisions(Bump(w.revisions, Workspace))]
  }

  /** The transactions of a step, in order. */
  function WritesOf(w: State, s: Step): seq<Write> {
    match s
    case Register(e) => [PutEntity(e)] + Bumps(w, e.workspace)
    case Observe(d, ws) =>
      if d.Workspace? then (if ws.None? then [] else Bumps(w, ws.value))
      else if d.GlobalRevision? then [] else [PutRevisions(Bump(w.revisions, d))]
    case Relate(source, relation, target) =>
      if Apply(w, s) == w then [] else [PutEdge(source, relation, target)] + Bumps(w, w.entities[source].workspace)
    case TouchTasks => [PutRevisions(Bump(w.revisions, Tasks))]
  }

  /** A step of which the first `kept` writes were committed before the process crashed, or all of them. */
  datatype Attempt = Attempt(step: Step, kept: nat)

  function Kept(w: State, a: Attempt): nat { if a.kept < |WritesOf(w, a.step)| then a.kept else |WritesOf(w, a.step)| }

  /** What the next process loads, or what this one has if it did not crash. */
  function Reloaded(w: State, a: Attempt): State { WrittenFirst(w, WritesOf(w, a.step), Kept(w, a)) }

  /** All writes together are the step of the world model. */
  lemma AllWritesAreTheStep(w: State, s: Step)
    ensures WrittenFirst(w, WritesOf(w, s), |WritesOf(w, s)|) == Apply(w, s)
  {
    Unrolled(w, WritesOf(w, s));
  }

  /** Any steps of the world model, each carried out or cut short by a crash and a reload. */
  ghost predicate IsDurableRun(ws: seq<State>, tries: seq<Attempt>) {
    |ws| == |tries| + 1 && forall i :: 0 <= i < |tries| ==> ws[i + 1] == Reloaded(ws[i], tries[i])
  }

  // ---- The counters ----

  predicate GlobalIsSum(w: State) {
    w.revisions.global == w.revisions.desktop + w.revisions.workspace + w.revisions.browser + w.revisions.media + w.revisions.tasks
  }

  /** The crash came after the revision of a workspace was written and before the counters were. */
  predicate LosesCount(w: State, a: Attempt) {
    Kept(w, a) > 0 && Kept(w, a) < |WritesOf(w, a.step)| && WritesOf(w, a.step)[Kept(w, a) - 1].PutWorkspace?
  }

  lemma SumAfterBump(m: map<Id, nat>, ws: Id)
    ensures Sum(m[ws := (if ws in m then m[ws] else 0) + 1]) == Sum(m) + 1
  {
    SumUpdate(m, ws, (if ws in m then m[ws] else 0) + 1);
    if ws in m { SumPick(m, ws); } else { assert m - {ws} == m; }
  }

  lemma CountersAfter(w: State, a: Attempt)
    requires GlobalIsSum(w)
    ensures Moves(w, Reloaded(w, a), LosesCount(w, a))
  {
    match a.step
    case Register(e) => RegisterCounts(w, a, e);
    case Observe(d, ws) => ObserveCounts(w, a, d, ws);
    case Relate(_, _, _) => RelateCounts(w, a);
    case TouchTasks => TouchCounts(w, a);
  }

  /** The law of the global revision holds after, and the workspace counter falls behind by one exactly if `lost`. */
  ghost predicate Moves(w: State, w': State, lost: bool) {
    && GlobalIsSum(w')
    && Sum(w'.workspaceRevisions) - w'.revisions.workspace
       == Sum(w.workspaceRevisions) - w.revisions.workspace + (if lost then 1 else 0)
  }

  lemma RegisterCounts(w: State, a: Attempt, e: Entity)
    requires GlobalIsSum(w) && a.step == Register(e)
    ensures Moves(w, Reloaded(w, a), LosesCount(w, a))
  {
    Unrolled(w, WritesOf(w, a.step));
    SumAfterBump(w.workspaceRevisions, e.workspace);
  }

  lemma ObserveCounts(w: State, a: Attempt, d: Domain, ws: Option<Id>)
    requires GlobalIsSum(w) && a.step == Observe(d, ws)
    ensures Moves(w, Reloaded(w, a), LosesCount(w, a))
  {
    Unrolled(w, WritesOf(w, a.step));
    if ws.Some? { SumAfterBump(w.workspaceRevisions, ws.value); }
  }

  lemma RelateCounts(w: State, a: Attempt)
    requires GlobalIsSum(w) && a.step.Relate?
    ensures Moves(w, Reloaded(w, a), LosesCount(w, a))
  {
    Unrolled(w, WritesOf(w, a.step));
    if a.step.source in w.entities { SumAfterBump(w.workspaceRevisions, w.entities[a.step.source].workspace); }
  }

  lemma TouchCounts(w: State, a: Attempt)
    requires GlobalIsSum(w) && a.step == TouchTasks
    ensures Moves(w, Reloaded(w, a), LosesCount(w, a))
  {
    Unrolled(w, WritesOf(w, a.step));
  }

  function LostCounts(ws: seq<State>, tries: seq<Attempt>, i: nat): nat
    requires |ws| == |tries| + 1 && i < |ws|
  {
    if i == 0 then 0 else LostCounts(ws, tries, i - 1) + (if LosesCount(ws[i - 1], tries[i - 1]) then 1 else 0)
  }

  /** Of the two conservation laws, that of the global revision survives every crash. That of the workspace counter is
      behind by exactly the crashes between the two writes of a bump, so it holds exactly if there were none. */
  lemma {:induction false} CountersThroughCrashes(ws: seq<State>, tries: seq<Attempt>, i: nat)
    requires IsDurableRun(ws, tries) && ws[0] == ZERO && i < |ws|
    ensures GlobalIsSum(ws[i])
    ensures Sum(ws[i].workspaceRevisions) == ws[i].revisions.workspace + LostCounts(ws, tries, i)
    ensures Balanced(ws[i]) <==> forall k :: 0 <= k < i ==> !LosesCount(ws[k], tries[k])
  {
    NoLossIff(ws, tries, i);
    if i > 0 {
      CountersThroughCrashes(ws, tries, i - 1);
      CountersAfter(ws[i - 1], tries[i - 1]);
    }
  }

  lemma {:induction false} NoLossIff(ws: seq<State>, tries: seq<Attempt>, i: nat)
    requires |ws| == |tries| + 1 && i < |ws|
    ensures LostCounts(ws, tries, i) == 0 <==> forall k :: 0 <= k < i ==> !LosesCount(ws[k], tries[k])
  {
    hide LosesCount;
    if i > 0 { NoLossIff(ws, tries, i - 1); }
  }

  // ---- The contents of a workspace ----

  /** The crash came after an entity or an edge was written and before the revision of its workspace was. */
  predicate HalfDone(w: State, a: Attempt, ws: Id) {
    Kept(w, a) == 1 && (a.step.Register? || a.step.Relate?) && Touched(w, a.step) == Some(ws)
  }

  /** The contents are those before the step or those after it, as the first write decides, and the revision of the
      workspace is the old one or the next, as its own write decides. */
  lemma AttemptByParts(w: State, a: Attempt, ws: Id)
    ensures var changed := (a.step.Register? || a.step.Relate?) && Kept(w, a) > 0;
            ContentOf(Reloaded(w, a), ws) == ContentOf(if changed then Apply(w, a.step) else w, ws)
    ensures WorkspaceRevision(Reloaded(w, a), ws)
            == WorkspaceRevision(w, ws) + if Touched(w, a.step) == Some(ws) && Kept(w, a) > ContentWrites(a.step) then 1 else 0
  {
    match a.step
    case Register(_) => RegisterByParts(w, a, ws);
    case Relate(_, _, _) => RelateByParts(w, a, ws);
    case _ => OthersByParts(w, a, ws);
  }

  /** How many writes come before those of the bump. */
  function ContentWrites(s: Step): nat { if s.Register? || s.Relate? then 1 else 0 }

  lemma SameContent(w: State, w': State, ws: Id)
    requires w.entities == w'.entities && w.relations == w'.relations
    ensures ContentOf(w, ws) == ContentOf(w', ws)
  {
  }

  lemma RegisterByParts(w: State, a: Attempt, ws: Id)
    requires a.step.Register?
    ensures ContentOf(Reloaded(w, a), ws) == ContentOf(if Kept(w, a) > 0 then Apply(w, a.step) else w, ws)
    ensures WorkspaceRevision(Reloaded(w, a), ws)
            == WorkspaceRevision(w, ws) + if Touched(w, a.step) == Some(ws) && Kept(w, a) > 1 then 1 else 0
  {
    hide ContentOf;
    Unrolled(w, WritesOf(w, a.step));
    SameContent(Reloaded(w, a), if Kept(w, a) > 0 then Apply(w, a.step) else w, ws);
  }

  lemma RelateByParts(w: State, a: Attempt, ws: Id)
    requires a.step.Relate?
    ensures ContentOf(Reloaded(w, a), ws) == ContentOf(if Kept(w, a) > 0 then Apply(w, a.step) else w, ws)
    ensures WorkspaceRevision(Reloaded(w, a), ws)
            == WorkspaceRevision(w, ws) + if Touched(w, a.step) == Some(ws) && Kept(w, a) > 1 then 1 else 0
  {
    hide ContentOf;
    Unrolled(w, WritesOf(w, a.step));
    SameContent(Reloaded(w, a), if Kept(w, a) > 0 then Apply(w, a.step) else w, ws);
  }

  lemma OthersByParts(w: State, a: Attempt, ws: Id)
    requires !a.step.Register? && !a.step.Relate?
    ensures ContentOf(Reloaded(w, a), ws) == ContentOf(w, ws)
    ensures WorkspaceRevision(Reloaded(w, a), ws)
            == WorkspaceRevision(w, ws) + if Touched(w, a.step) == Some(ws) && Kept(w, a) > 0 then 1 else 0
  {
    hide ContentOf;
    Unrolled(w, WritesOf(w, a.step));
    SameContent(Reloaded(w, a), w, ws);
  }

  lemma UntouchedByWatching(w: State, s: Step, ws: Id)
    requires !s.Register? && !s.Relate?
    ensures ContentOf(Apply(w, s), ws) == ContentOf(w, ws)
  {
  }

  /** One attempt against one workspace: its revision grows by one or stays; and it stays although the contents change
      exactly if the attempt was half done and the step does change the contents. */
  lemma HalfDoneIff(w: State, a: Attempt, ws: Id)
    requires KeepsHome(w, a.step)
    ensures var w' := Reloaded(w, a);
            && WorkspaceRevision(w, ws) <= WorkspaceRevision(w', ws)
            && (WorkspaceRevision(w', ws) == WorkspaceRevision(w, ws) && ContentOf(w', ws) != ContentOf(w, ws)
                <==> HalfDone(w, a, ws) && ContentOf(Apply(w, a.step), ws) != ContentOf(w, ws))
  {
    StepIsLocal(w, a.step, ws);
    AttemptByParts(w, a, ws);
    hide ContentOf, Reloaded;
    if !a.step.Register? && !a.step.Relate? { UntouchedByWatching(w, a.step, ws); }
  }

  /** Through crashes the manifest check is sound for a workspace as long as no attempt on it was half done: while its
      revision is the same, so are its contents. */
  lemma {:induction false} ManifestThroughCrashes(ws: seq<State>, tries: seq<Attempt>, i: nat, j: nat, home: Id)
    requires IsDurableRun(ws, tries) && i <= j < |ws|
    requires forall k :: i <= k < j ==> KeepsHome(ws[k], tries[k].step) && !HalfDone(ws[k], tries[k], home)
    ensures WorkspaceRevision(ws[i], home) <= WorkspaceRevision(ws[j], home)
    ensures WorkspaceRevision(ws[i], home) == WorkspaceRevision(ws[j], home) ==> ContentOf(ws[j], home) == ContentOf(ws[i], home)
    decreases j
  {
    hide ContentOf, Reloaded, HalfDone, KeepsHome;
    if i < j {
      ManifestThroughCrashes(ws, tries, i, j - 1, home);
      HalfDoneIff(ws[j - 1], tries[j - 1], home);
    }
  }

  /** A concrete failure of both: a crash after the first write of a registration leaves a new entity under the old
      revision, where a manifest from before passes the check; a crash after the second leaves the workspace counter
      behind. */
  lemma CrashesInRegistration(e: Entity, half: State, late: State)
    requires e == Entity(5, "file", 1, "here", 1, true, {"read"})
    requires half == Reloaded(ZERO, Attempt(Register(e), 1)) && late == Reloaded(ZERO, Attempt(Register(e), 2))
    ensures Current(half, Select(Snapshot(ZERO, 1), {Workspace}), 1) && ContentOf(half, 1) != ContentOf(ZERO, 1)
    ensures Sum(late.workspaceRevisions) == 1 && late.revisions.workspace == 0 && !Balanced(late)
  {
    Unrolled(ZERO, WritesOf(ZERO, Register(e)));
    assert 5 in ContentOf(half, 1).entities && 5 !in ContentOf(ZERO, 1).entities;
    SumAfterBump(map[], 1);
    assert late.workspaceRevisions == map[1 := 1];
  }
}
