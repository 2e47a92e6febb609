/** The world model as optimistic concurrency control: liandanlu_native/world.py:28-152,
    liandanlu_native/models.py:64-77 and the manifest snapshot of liandanlu_native/context.py:58-63. */
module World {
  import opened Basics

  datatype Entity = Entity(entityId: Id, kind: string, workspace: Id, locator: string, version: int,
                           active: bool, permissions: set<string>)

  datatype Domain = GlobalRevision | Desktop | Workspace | Browser | Media | Tasks

  datatype Revisions = Revisions(global: nat, desktop: nat, workspace: nat, browser: nat, media: nat, tasks: nat)

  type Edge = (string, Id)

  datatype State = State(
    revisions: Revisions,
    entities: map<Id, Entity>,
    relations: map<Id, seq<Edge>>,
    workspaceRevisions: map<Id, nat>)

  const ZERO := State(Revisions(0, 0, 0, 0, 0, 0), map[], map[], map[])

  function WorkspaceRevision(w: State, ws: Id): nat {
    if ws in w.workspaceRevisions then w.workspaceRevisions[ws] else 0
  }

  function Revision(w: State, d: Domain, ws: Id): nat {
    match d
    case GlobalRevision => w.revisions.global
    case Desktop => w.revisions.desktop
    case Workspace => WorkspaceRevision(w, ws)
    case Browser => w.revisions.browser
    case Media => w.revisions.media
    case Tasks => w.revisions.tasks
  }

  /** assert_revisions for a workspace: every expected revision is the actual one. */
  predicate Current(w: State, expected: map<Domain, nat>, ws: Id) {
    forall d :: d in expected ==> Revision(w, d, ws) == expected[d]
  }

  predicate Known(w: State, ref: Id) { ref in w.entities && w.entities[ref].active }

  /** assert_access and resolve_locator succeed. */
  predicate Accessible(w: State, ref: Id, permission: string, ws: Id) {
    Known(w, ref) && w.entities[ref].workspace == ws && permission in w.entities[ref].permissions
  }

  /** `WorldRevisions.bump` for the domains it accepts; it raises for the others. */
  function Bump(r: Revisions, d: Domain): Revisions
    requires !d.GlobalRevision?
  {
    (match d
     case Desktop => r.(desktop := r.desktop + 1)
     case Workspace => r.(workspace := r.workspace + 1)
     case Browser => r.(browser := r.browser + 1)
     case Media => r.(media := r.media + 1)
     case Tasks => r.(tasks := r.tasks + 1)).(global := r.global + 1)
  }

  function BumpWorkspace(w: State, ws: Id): State {
    w.(workspaceRevisions := w.workspaceRevisions[ws := WorkspaceRevision(w, ws) + 1],
       revisions := Bump(w.revisions, Workspace))
  }

  function Bucket(w: State, ref: Id): seq<Edge> { if ref in w.relations then w.relations[ref] else [] }

  datatype Step =
    | Register(entity: Entity)
    | Observe(domain: Domain, workspace: Option<Id>)
    | Relate(source: Id, relation: string, target: Id)
    | TouchTasks

  /** What a step does to the entities, relations and counters; a step that raises changes none of them. */
  function Apply(w: State, s: Step): State {
    match s
    case Register(e) => BumpWorkspace(w.(entities := w.entities[e.entityId := e]), e.workspace)
    case Observe(d, ws) =>
      if d.Workspace? then (if ws.None? then w else BumpWorkspace(w, ws.value))
      else if d.GlobalRevision? then w
      else w.(revisions := Bump(w.revisions, d))
    case Relate(source, relation, target) =>
      if !Known(w, source) || !Known(w, target) then w
      else if w.entities[source].workspace != w.entities[target].workspace then w
      else if (relation, target) in Bucket(w, source) then w
      else BumpWorkspace(w.(relations := w.relations[source := Bucket(w, source) + [(relation, target)]]),
                         w.entities[source].workspace)
    case TouchTasks => w.(revisions := Bump(w.revisions, Tasks))
  }

  /** The workspace whose revision a step raises, if any. */
  function Touched(w: State, s: Step): Option<Id> {
    match s
    case Register(e) => Some(e.workspace)
    case Observe(d, ws) => if d.Workspace? then ws else None
    case Relate(source, _, _) => if Apply(w, s) != w then Some(w.entities[source].workspace) else None
    case TouchTasks => None
  }

  // ---- What a workspace contains ----

  datatype Content = Content(entities: map<Id, Entity>, relations: map<Id, seq<Edge>>)

  function ContentOf(w: State, ws: Id): Content {
    Content(map r | r in w.entities && w.entities[r].workspace == ws :: w.entities[r],
            map r | r in w.relations && r in w.entities && w.entities[r].workspace == ws :: w.relations[r])
  }

  /** Registering does not move an existing entity to another workspace. */
  predicate KeepsHome(w: State, s: Step) {
    s.Register? && s.entity.entityId in w.entities ==> w.entities[s.entity.entityId].workspace == s.entity.workspace
  }

  lemma StepIsLocal(w: State, s: Step, ws: Id)
    requires KeepsHome(w, s)
    ensures WorkspaceRevision(Apply(w, s), ws) == WorkspaceRevision(w, ws) + (if Touched(w, s) == Some(ws) then 1 else 0)
    ensures Touched(w, s) != Some(ws) ==> ContentOf(Apply(w, s), ws) == ContentOf(w, ws)
  {
    if Touched(w, s) != Some(ws) {
      match s
      case Register(e) => RegisterElsewhere(w, e, ws);
      case Relate(_, _, _) => RelateElsewhere(w, s, ws);
      case _ =>
    }
  }

  lemma RegisterElsewhere(w: State, e: Entity, ws: Id)
    requires KeepsHome(w, Register(e)) && e.workspace != ws
    ensures ContentOf(Apply(w, Register(e)), ws) == ContentOf(w, ws)
  {
    var w' := Apply(w, Register(e));
    assert ContentOf(w', ws).entities == ContentOf(w, ws).entities;
    assert ContentOf(w', ws).relations == ContentOf(w, ws).relations;
  }

  lemma RelateElsewhere(w: State, s: Step, ws: Id)
    requires s.Relate? && Touched(w, s) != Some(ws)
    ensures ContentOf(Apply(w, s), ws) == ContentOf(w, ws)
  {
    var w' := Apply(w, s);
    assert ContentOf(w', ws).relations == ContentOf(w, ws).relations;
  }

  /** Moving an entity is the one way to change a workspace behind its revision: a registration leaves
      the contents of every workspace it does not bump alone exactly when the entity is new or stays. */
  lemma RegisterIsLocalIff(w: State, e: Entity)
    ensures (forall ws :: ws != e.workspace ==> ContentOf(Apply(w, Register(e)), ws) == ContentOf(w, ws))
            <==> KeepsHome(w, Register(e))
  {
    if KeepsHome(w, Register(e)) {
      forall ws | ws != e.workspace ensures ContentOf(Apply(w, Register(e)), ws) == ContentOf(w, ws) {
        StepIsLocal(w, Register(e), ws);
      }
    } else {
      var home := w.entities[e.entityId].workspace;
      assert e.entityId in ContentOf(w, home).entities;
      assert e.entityId !in ContentOf(Apply(w, Register(e)), home).entities;
      assert ContentOf(Apply(w, Register(e)), home) != ContentOf(w, home);
    }
  }

  // ---- Runs ----

  ghost predicate IsRun(ws: seq<State>, steps: seq<Step>) {
    && |ws| == |steps| + 1
    && forall i :: 0 <= i < |steps| ==> ws[i + 1] == Apply(ws[i], steps[i])
  }

  function TouchCount(ws: seq<State>, steps: seq<Step>, i: nat, j: nat, home: Id): nat
    requires |ws| == |steps| + 1 && i <= j < |ws|
    decreases j
  {
    if i == j then 0 else
      TouchCount(ws, steps, i, j - 1, home) + (if Touched(ws[j - 1], steps[j - 1]) == Some(home) then 1 else 0)
  }

  /** A workspace's revision counts the steps that touched that workspace and nothing else, and while
      none does its contents do not change. */
  lemma {:induction false} RevisionCountsTouches(ws: seq<State>, steps: seq<Step>, i: nat, j: nat, home: Id)
    requires IsRun(ws, steps) && i <= j < |ws|
    requires forall k :: i <= k < j ==> KeepsHome(ws[k], steps[k])
    ensures WorkspaceRevision(ws[j], home) == WorkspaceRevision(ws[i], home) + TouchCount(ws, steps, i, j, home)
    ensures TouchCount(ws, steps, i, j, home) == 0 ==> ContentOf(ws[j], home) == ContentOf(ws[i], home)
    decreases j
  {
    if i < j {
      RevisionCountsTouches(ws, steps, i, j - 1, home);
      StepIsLocal(ws[j - 1], steps[j - 1], home);
    }
  }

  /** The manifest's revision snapshot of one workspace. */
  function Snapshot(w: State, ws: Id): map<Domain, nat> {
    map[GlobalRevision := w.revisions.global, Desktop := w.revisions.desktop, Workspace := WorkspaceRevision(w, ws),
        Browser := w.revisions.browser, Media := w.revisions.media, Tasks := w.revisions.tasks]
  }

  /** Optimistic concurrency is sound and precise. Take the part of a manifest built at point `i` that an
      action's revision domains select, the workspace among them. If it passes the check at point `j`,
      the entities and relations of the workspace are as they were; and the workspace entry alone passes
      exactly when no step in between touched that workspace. */
  lemma ManifestCheckIsExact(ws: seq<State>, steps: seq<Step>, i: nat, j: nat, home: Id, domains: set<Domain>)
    requires IsRun(ws, steps) && i <= j < |ws| && Workspace in domains
    requires forall k :: i <= k < j ==> KeepsHome(ws[k], steps[k])
    ensures Current(ws[j], Select(Snapshot(ws[i], home), domains), home) ==> ContentOf(ws[j], home) == ContentOf(ws[i], home)
    ensures Current(ws[j], Select(Snapshot(ws[i], home), {Workspace}), home)
            <==> forall k :: i <= k < j ==> Touched(ws[k], steps[k]) != Some(home)
  {
    RevisionCountsTouches(ws, steps, i, j, home);
    NoTouches(ws, steps, i, j, home);
    assert Workspace in Select(Snapshot(ws[i], home), domains) && Workspace in Select(Snapshot(ws[i], home), {Workspace});
    assert Revision(ws[j], Workspace, home) == WorkspaceRevision(ws[j], home);
  }

  function Select(snapshot: map<Domain, nat>, domains: set<Domain>): map<Domain, nat> {
    map d | d in domains && d in snapshot :: snapshot[d]
  }

  lemma {:induction false} NoTouches(ws: seq<State>, steps: seq<Step>, i: nat, j: nat, home: Id)
    requires IsRun(ws, steps) && i <= j < |ws|
    ensures TouchCount(ws, steps, i, j, home) == 0 <==> forall k :: i <= k < j ==> Touched(ws[k], steps[k]) != Some(home)
    decreases j
  {
    if i < j { NoTouches(ws, steps, i, j - 1, home); }
  }

  /** A concrete failure when an entity changes workspace: registered in workspace 1 and then again in
      workspace 2, it is gone from workspace 1, whose revision has not moved, so a manifest built in between
      still passes the check. */
  lemma MovedEntityGoesUnnoticed(e: Entity, ws: seq<State>, steps: seq<Step>)
    requires e == Entity(5, "file", 1, "here", 1, true, {"read"}) && steps == [Register(e), Register(e.(workspace := 2))]
    requires ws == [ZERO, Apply(ZERO, steps[0]), Apply(Apply(ZERO, steps[0]), steps[1])]
    ensures IsRun(ws, steps) && !KeepsHome(ws[1], steps[1])
    ensures Current(ws[2], Select(Snapshot(ws[1], 1), {Workspace}), 1) && ContentOf(ws[2], 1) != ContentOf(ws[1], 1)
  {
    assert 5 in ContentOf(ws[1], 1).entities && 5 !in ContentOf(ws[2], 1).entities;
    assert WorkspaceRevision(ws[2], 1) == WorkspaceRevision(ws[1], 1) == 1;
  }

  // ---- What a step raises ----

  /** An observation raises the counter of its domain and the global one by one, and nothing else changes; for the
      workspace domain it is the revision of the workspace named as well; without one, and for the global domain, nothing
      changes at all. */
  lemma ObserveRaises(w: State, ws: Option<Id>)
    ensures var r := w.revisions;
            && Apply(w, Observe(Desktop, ws)) == w.(revisions := Revisions(r.global + 1, r.desktop + 1, r.workspace, r.browser, r.media, r.tasks))
            && Apply(w, Observe(Browser, ws)) == w.(revisions := Revisions(r.global + 1, r.desktop, r.workspace, r.browser + 1, r.media, r.tasks))
            && Apply(w, Observe(Media, ws)) == w.(revisions := Revisions(r.global + 1, r.desktop, r.workspace, r.browser, r.media + 1, r.tasks))
            && Apply(w, Observe(Tasks, ws)) == w.(revisions := Revisions(r.global + 1, r.desktop, r.workspace, r.browser, r.media, r.tasks + 1))
            && Apply(w, TouchTasks) == w.(revisions := Revisions(r.global + 1, r.desktop, r.workspace, r.browser, r.media, r.tasks + 1))
            && Apply(w, Observe(GlobalRevision, ws)) == w && Apply(w, Observe(Workspace, None)) == w
            && (ws.Some? ==>
                  Apply(w, Observe(Workspace, ws))
                  == State(Revisions(r.global + 1, r.desktop, r.workspace + 1, r.browser, r.media, r.tasks), w.entities, w.relations,
                           w.workspaceRevisions[ws.value := (if ws.value in w.workspaceRevisions then w.workspaceRevisions[ws.value] else 0) + 1]))
  {
  }

  /** Registering stores the entity as given; relating appends one edge to those of its source, if it is new, both ends
      are active, and they share a workspace. Each leaves all other entities and edges alone. */
  lemma RegisterAndRelateStore(w: State, e: Entity, source: Id, relation: string, target: Id)
    ensures Apply(w, Register(e)).entities == w.entities[e.entityId := e] && Apply(w, Register(e)).relations == w.relations
    ensures var w' := Apply(w, Relate(source, relation, target));
            && w'.entities == w.entities
            && (if (&& source in w.entities && w.entities[source].active && target in w.entities && w.entities[target].active
                    && w.entities[source].workspace == w.entities[target].workspace
                    && !(source in w.relations && (relation, target) in w.relations[source]))
                then w'.relations == w.relations[source := (if source in w.relations then w.relations[source] else []) + [(relation, target)]]
                else w' == w)
  {
  }

  /** An object may be used exactly if it is registered, active, in the asker's workspace, and grants the permission. */
  lemma AccessibleIff(w: State, ref: Id, permission: string, ws: Id)
    ensures Accessible(w, ref, permission, ws) <==>
              ref in w.entities && w.entities[ref].active && w.entities[ref].workspace == ws && permission in w.entities[ref].permissions
  {
  }

  /** What the revision check compares: for each domain asked for, the snapshot of that very counter, taken for the
      workspace of the check. */
  lemma SnapshotComparesCounters(past: State, now: State, ws: Id, domains: set<Domain>)
    ensures Current(now, Select(Snapshot(past, ws), domains), ws) <==>
              && (GlobalRevision in domains ==> now.revisions.global == past.revisions.global)
              && (Desktop in domains ==> now.revisions.desktop == past.revisions.desktop)
              && (Workspace in domains ==>
                    (if ws in now.workspaceRevisions then now.workspaceRevisions[ws] else 0)
                    == (if ws in past.workspaceRevisions then past.workspaceRevisions[ws] else 0))
              && (Browser in domains ==> now.revisions.browser == past.revisions.browser)
              && (Media in domains ==> now.revisions.media == past.revisions.media)
              && (Tasks in domains ==> now.revisions.tasks == past.revisions.tasks)
  {
    var wanted := Select(Snapshot(past, ws), domains);
    forall d ensures d in Snapshot(past, ws) && Snapshot(past, ws)[d] == Revision(past, d, ws) {
      match d
      case GlobalRevision =>
      case Desktop =>
      case Workspace =>
      case Browser =>
      case Media =>
      case Tasks =>
    }
    hide Snapshot;
    assert forall d :: d in domains <==> d in wanted;
  }

  /** The steps that concern the desktop, the browser, the media or the tasks: observations of that domain, and for the
      tasks their own changes. */
  predicate Concerns(s: Step, d: Domain) { (s.Observe? && s.domain == d) || (d.Tasks? && s.TouchTasks?) }

  function CountSteps(steps: seq<Step>, i: nat, j: nat, d: Domain): nat
    requires i <= j <= |steps|
    decreases j
  {
    if i == j then 0 else CountSteps(steps, i, j - 1, d) + (if Concerns(steps[j - 1], d) then 1 else 0)
  }

  lemma StepRaisesOwnCounter(w: State, s: Step)
    ensures var r, r' := w.revisions, Apply(w, s).revisions;
            && r'.desktop == r.desktop + (if s.Observe? && s.domain.Desktop? then 1 else 0)
            && r'.browser == r.browser + (if s.Observe? && s.domain.Browser? then 1 else 0)
            && r'.media == r.media + (if s.Observe? && s.domain.Media? then 1 else 0)
            && r'.tasks == r.tasks + (if s.TouchTasks? || (s.Observe? && s.domain.Tasks?) then 1 else 0)
  {
  }

  /** Over any run each of these counters counts the steps that concern its domain and no others. */
  lemma {:induction false} CountersCountTheirSteps(ws: seq<State>, steps: seq<Step>, i: nat, j: nat)
    requires IsRun(ws, steps) && i <= j < |ws|
    ensures ws[j].revisions.desktop == ws[i].revisions.desktop + CountSteps(steps, i, j, Desktop)
    ensures ws[j].revisions.browser == ws[i].revisions.browser + CountSteps(steps, i, j, Browser)
    ensures ws[j].revisions.media == ws[i].revisions.media + CountSteps(steps, i, j, Media)
    ensures ws[j].revisions.tasks == ws[i].revisions.tasks + CountSteps(steps, i, j, Tasks)
    decreases j
  {
    hide Apply;
    if i < j {
      CountersCountTheirSteps(ws, steps, i, j - 1);
      StepRaisesOwnCounter(ws[j - 1], steps[j - 1]);
    }
  }

  lemma {:induction false} NoStepsIff(steps: seq<Step>, i: nat, j: nat, d: Domain)
    requires i <= j <= |steps|
    ensures CountSteps(steps, i, j, d) == 0 <==> forall k :: i <= k < j ==> !Concerns(steps[k], d)
    decreases j
  {
    if i < j { NoStepsIff(steps, i, j - 1, d); }
  }

  /** A manifest that depends on the desktop, the browser, the media or the tasks alone passes the check at a later
      point of a run exactly if no step in between concerned that domain. */
  lemma DomainCheckIsExact(ws: seq<State>, steps: seq<Step>, i: nat, j: nat, home: Id, d: Domain)
    requires IsRun(ws, steps) && i <= j < |ws| && d in {Desktop, Browser, Media, Tasks}
    ensures Current(ws[j], Select(Snapshot(ws[i], home), {d}), home) <==> forall k :: i <= k < j ==> !Concerns(steps[k], d)
  {
    CountersCountTheirSteps(ws, steps, i, j);
    NoStepsIff(steps, i, j, d);
    SnapshotComparesCounters(ws[i], ws[j], home, {d});
    hide IsRun, Current, Select, Snapshot;
  }

  // ---- Conservation of the counters ----

  ghost predicate Balanced(w: State) {
    && w.revisions.global == w.revisions.desktop + w.revisions.workspace + w.revisions.browser
                             + w.revisions.media + w.revisions.tasks
    && w.revisions.workspace == Sum(w.workspaceRevisions)
  }

  predicate NoLess(w: State, w': State) {
    && w.revisions.global <= w'.revisions.global && w.revisions.desktop <= w'.revisions.desktop
    && w.revisions.workspace <= w'.revisions.workspace && w.revisions.browser <= w'.revisions.browser
    && w.revisions.media <= w'.revisions.media && w.revisions.tasks <= w'.revisions.tasks
    && (forall ws :: ws in w.workspaceRevisions ==>
          ws in w'.workspaceRevisions && w.workspaceRevisions[ws] <= w'.workspaceRevisions[ws])
  }

  lemma BumpWorkspaceBalanced(w: State, ws: Id)
    requires Balanced(w)
    ensures Balanced(BumpWorkspace(w, ws)) && NoLess(w, BumpWorkspace(w, ws))
  {
    var m := w.workspaceRevisions;
    SumUpdate(m, ws, WorkspaceRevision(w, ws) + 1);
    if ws in m { SumPick(m, ws); } else { assert m - {ws} == m; }
  }

  lemma StepBalanced(w: State, s: Step)
    requires Balanced(w)
    ensures Balanced(Apply(w, s)) && NoLess(w, Apply(w, s))
  {
    match s
    case Register(e) => BumpWorkspaceBalanced(w.(entities := w.entities[e.entityId := e]), e.workspace);
    case Observe(d, ws) => if d.Workspace? && ws.Some? { BumpWorkspaceBalanced(w, ws.value); }
    case Relate(source, relation, target) =>
      if Apply(w, s) != w {
        BumpWorkspaceBalanced(w.(relations := w.relations[source := Bucket(w, source) + [(relation, target)]]),
                              w.entities[source].workspace);
      }
    case TouchTasks =>
  }

  /** From zero, through any steps: the global revision is the sum of the five domain counters and the
      workspace counter is the sum of all per-workspace revisions. */
  lemma {:induction false} CountersAreConserved(ws: seq<State>, steps: seq<Step>, j: nat)
    requires IsRun(ws, steps) && ws[0] == ZERO && j < |ws|
    ensures Balanced(ws[j])
    decreases j
  {
    if j > 0 {
      CountersAreConserved(ws, steps, j - 1);
      StepBalanced(ws[j - 1], steps[j - 1]);
    }
  }

  /** No counter ever goes down. */
  lemma {:induction false} CountersNeverDecrease(ws: seq<State>, steps: seq<Step>, i: nat, j: nat)
    requires IsRun(ws, steps) && ws[0] == ZERO && i <= j < |ws|
    ensures NoLess(ws[i], ws[j])
    decreases j
  {
    if i < j {
      CountersNeverDecrease(ws, steps, i, j - 1);
      CountersAreConserved(ws, steps, j - 1);
      StepBalanced(ws[j - 1], steps[j - 1]);
      NoLessTransitive(ws[i], ws[j - 1], ws[j]);
    }
  }

  lemma NoLessTransitive(a: State, b: State, c: State)
    requires NoLess(a, b) && NoLess(b, c)
    ensures NoLess(a, c)
  {
  }

  // ---- The object ----

  datatype Outcome = Done | Raised

  class WorldModel {
    var state: State
    var observations: seq<(string, Option<Id>)>

    constructor ()
      ensures state == ZERO && observations == []
    {
      state, observations := ZERO, [];
    }

    method BumpHome(ws: Id)
      modifies this`state
      ensures state == BumpWorkspace(old(state), ws)
    {
      var revision := (if ws in state.workspaceRevisions then state.workspaceRevisions[ws] else 0) + 1;
      var r := state.revisions;
      state := state.(workspaceRevisions := state.workspaceRevisions[ws := revision]);
      state := state.(revisions := r.(workspace := r.workspace + 1, global := r.global + 1));
    }

    method RegisterEntity(e: Entity)
      modifies this`state
      ensures state == Apply(old(state), Register(e))
    {
      state := state.(entities := state.entities[e.entityId := e]);
      BumpHome(e.workspace);
    }

    /** The observation is kept even when the call raises. */
    method ObserveDomain(kind: string, d: Domain, ws: Option<Id>) returns (r: Outcome)
      modifies this
      ensures state == Apply(old(state), Observe(d, ws)) && observations == old(observations) + [(kind, ws)]
      ensures r.Raised? <==> d.GlobalRevision? || (d.Workspace? && ws.None?)
    {
      observations := observations + [(kind, ws)];
      if d.Workspace? {
        if ws.None? { return Raised; }
        BumpHome(ws.value);
      } else {
        if d.GlobalRevision? { return Raised; }
        state := state.(revisions := Bump(state.revisions, d));
      }
      return Done;
    }

    method RelateEntities(source: Id, relation: string, target: Id) returns (r: Outcome)
      modifies this`state
      ensures state == Apply(old(state), Relate(source, relation, target))
      ensures r.Done? <==> && Known(old(state), source) && Known(old(state), target)
                           && old(state).entities[source].workspace == old(state).entities[target].workspace
    {
      if source !in state.entities || !state.entities[source].active { return Raised; }
      if target !in state.entities || !state.entities[target].active { return Raised; }
      var home := state.entities[source].workspace;
      if home != state.entities[target].workspace { return Raised; }
      var bucket := if source in state.relations then state.relations[source] else [];
      if (relation, target) !in bucket {
        state := state.(relations := state.relations[source := bucket + [(relation, target)]]);
        BumpHome(home);
      }
      return Done;
    }
  }
}
