/** The durable task-lease table: liandanlu_native/storage.py:814-977. */
module TaskLeases {
  import opened Basics
  import opened Models
  import opened Ordering
  import opened Fencing

  datatype LeaseRow = LeaseRow(owner: Id, generation: nat, claimedAt: Time, until: Time)

  type LeaseRows = map<Id, LeaseRow>

  datatype Outcome<+T> = Raised | Returned(value: T)

  predicate Eligible(t: Task) {
    t.state == Queued && t.desired == TaskRunning && t.queuedAt.Some?
  }

  function RankOf(id: Id, t: Task): Rank
    requires t.queuedAt.Some?
  {
    Rank(if t.lane.Interactive? then 0 else 1, -t.priority, t.queuedAt.value, id)
  }

  /** The rows the claim query selects, before ordering. */
  predicate Claimable(tasks: map<Id, Task>, rows: LeaseRows, ts: Time, id: Id) {
    id in tasks && Eligible(tasks[id]) && (id in rows ==> rows[id].until <= ts)
  }

  ghost function Candidates(tasks: map<Id, Task>, rows: LeaseRows, ts: Time): set<Rank> {
    set id | id in tasks && Claimable(tasks, rows, ts, id) :: RankOf(id, tasks[id])
  }

  /** The id of the row that ORDER BY ... LIMIT 1 returns. */
  ghost function NextClaim(tasks: map<Id, Task>, rows: LeaseRows, ts: Time): (r: Option<Id>)
    ensures r.None? <==> forall id :: !Claimable(tasks, rows, ts, id)
    ensures r.Some? ==> Claimable(tasks, rows, ts, r.value)
                        && IsFirst(RankOf(r.value, tasks[r.value]), Candidates(tasks, rows, ts))
  {
    var c := Candidates(tasks, rows, ts);
    assert forall id :: Claimable(tasks, rows, ts, id) ==> RankOf(id, tasks[id]) in c;
    if c == {} then None else
      assert exists r :: IsFirst(r, c) by { var r := FirstExists(c); }
      var r :| IsFirst(r, c);
      Some(r.id)
  }

  function Grant(rows: LeaseRows, task: Id, owner: Id, seconds: Time, ts: Time): TaskLease {
    TaskLease(task, owner, if task in rows then rows[task].generation + 1 else 1, ts, ts + seconds)
  }

  function Store(rows: LeaseRows, l: TaskLease): LeaseRows {
    rows[l.taskId := LeaseRow(l.owner, l.generation, l.claimedAt, l.until)]
  }

  predicate Matches(rows: LeaseRows, l: TaskLease) {
    l.taskId in rows && rows[l.taskId].owner == l.owner && rows[l.taskId].generation == l.generation
  }

  ghost function AfterClaim(tasks: map<Id, Task>, rows: LeaseRows, owner: Id, seconds: Time, ts: Time): LeaseRows {
    var next := NextClaim(tasks, rows, ts);
    if owner == EMPTY || seconds <= 0.0 || next.None? then rows
    else Store(rows, Grant(rows, next.value, owner, seconds, ts))
  }

  predicate RenewAccepted(rows: LeaseRows, l: TaskLease, seconds: Time, ts: Time) {
    seconds > 0.0 && Matches(rows, l) && rows[l.taskId].until > ts
  }

  function AfterRenew(rows: LeaseRows, l: TaskLease, seconds: Time, ts: Time): LeaseRows {
    if RenewAccepted(rows, l, seconds, ts) then rows[l.taskId := rows[l.taskId].(until := ts + seconds)] else rows
  }

  function AfterRelease(rows: LeaseRows, l: TaskLease): LeaseRows {
    if Matches(rows, l) then rows[l.taskId := rows[l.taskId].(until := 0.0)] else rows
  }

  function SlotsOf(rows: LeaseRows): Slots {
    map t | t in rows :: Slot(rows[t].owner, rows[t].generation, rows[t].until)
  }

  function IdentityOf(l: TaskLease): Identity { Identity(l.taskId, l.owner, l.generation) }

  lemma NextClaimIs(tasks: map<Id, Task>, rows: LeaseRows, ts: Time, id: Id)
    requires Claimable(tasks, rows, ts, id)
    requires IsFirst(RankOf(id, tasks[id]), Candidates(tasks, rows, ts))
    ensures NextClaim(tasks, rows, ts) == Some(id)
  {
    var next := NextClaim(tasks, rows, ts).value;
    FirstUnique(RankOf(id, tasks[id]), RankOf(next, tasks[next]), Candidates(tasks, rows, ts));
  }

  /** What the claim query means on the tasks themselves. It finds nothing exactly if no task is queued, meant to run
      and free of an unexpired lease. Otherwise it finds such a task, and of the other such tasks none is interactive
      unless that one is, and within its lane none has a larger priority, with the same priority none was queued
      earlier, and with the same time none has a smaller id. */
  lemma ClaimIsMostUrgent(tasks: map<Id, Task>, rows: LeaseRows, ts: Time)
    ensures NextClaim(tasks, rows, ts).None? <==>
              forall id :: id in tasks && tasks[id].state == Queued && tasks[id].desired == TaskRunning && tasks[id].queuedAt.Some? ==>
                             id in rows && rows[id].until > ts
    ensures NextClaim(tasks, rows, ts).Some? ==>
              var r := NextClaim(tasks, rows, ts).value;
              && r in tasks && tasks[r].state == Queued && tasks[r].desired == TaskRunning && tasks[r].queuedAt.Some?
              && (r in rows ==> rows[r].until <= ts)
              && forall id :: (&& id in tasks && id != r && tasks[id].state == Queued && tasks[id].desired == TaskRunning
                               && tasks[id].queuedAt.Some? && (id in rows ==> rows[id].until <= ts)) ==>
                   && (tasks[id].lane.Interactive? ==> tasks[r].lane.Interactive?)
                   && (tasks[id].lane.Interactive? == tasks[r].lane.Interactive? ==>
                         && tasks[id].priority <= tasks[r].priority
                         && (tasks[id].priority == tasks[r].priority ==>
                               && tasks[r].queuedAt.value <= tasks[id].queuedAt.value
                               && (tasks[r].queuedAt == tasks[id].queuedAt ==> r < id)))
  {
    var next := NextClaim(tasks, rows, ts);
    if next.None? {
      forall id | id in tasks && tasks[id].state == Queued && tasks[id].desired == TaskRunning && tasks[id].queuedAt.Some?
        ensures id in rows && rows[id].until > ts
      {
        assert !Claimable(tasks, rows, ts, id);
      }
    } else {
      forall id | Claimable(tasks, rows, ts, id) && id != next.value
        ensures Before(RankOf(next.value, tasks[next.value]), RankOf(id, tasks[id]))
      {
        assert RankOf(id, tasks[id]) in Candidates(tasks, rows, ts);
      }
    }
  }

  /** SELECT ... ORDER BY ... LIMIT 1, by scanning for the first rank. */
  method SelectNext(tasks: map<Id, Task>, rows: LeaseRows, ts: Time) returns (r: Option<Id>)
    ensures r == NextClaim(tasks, rows, ts)
  {
    var rest := set id | id in tasks && Claimable(tasks, rows, ts, id);
    ghost var all := rest;
    assert forall id :: Claimable(tasks, rows, ts, id) ==> id in all;
    r := None;
    while rest != {}
      invariant rest <= all
      invariant r.None? ==> rest == all
      invariant r.Some? ==> r.value in all - rest
      invariant r.Some? ==> forall o :: o in all - rest && o != r.value ==>
                  Before(RankOf(r.value, tasks[r.value]), RankOf(o, tasks[o]))
    {
      var id :| id in rest;
      rest := rest - {id};
      if r.None? {
        r := Some(id);
      } else if Before(RankOf(id, tasks[id]), RankOf(r.value, tasks[r.value])) {
        BeforeAll(tasks, all - rest, id, r.value);
        r := Some(id);
      } else {
        BeforeTotal(RankOf(id, tasks[id]), RankOf(r.value, tasks[r.value]));
      }
    }
    if r.Some? { NextClaimIs(tasks, rows, ts, r.value); }
  }

  lemma BeforeAll(tasks: map<Id, Task>, s: set<Id>, id: Id, best: Id)
    requires forall o :: o in s + {id, best} ==> o in tasks && tasks[o].queuedAt.Some?
    requires Before(RankOf(id, tasks[id]), RankOf(best, tasks[best]))
    requires forall o :: o in s && o != best && o != id ==> Before(RankOf(best, tasks[best]), RankOf(o, tasks[o]))
    ensures forall o :: o in s && o != id ==> Before(RankOf(id, tasks[id]), RankOf(o, tasks[o]))
  {
    forall o | o in s && o != id && o != best ensures Before(RankOf(id, tasks[id]), RankOf(o, tasks[o])) {
      BeforeTransitive(RankOf(id, tasks[id]), RankOf(best, tasks[best]), RankOf(o, tasks[o]));
    }
  }

  /** The table as an object: one method per transaction. */
  class TaskLeaseTable {
    var rows: LeaseRows

    constructor ()
      ensures rows == map[]
    {
      rows := map[];
    }

    method ClaimNext(tasks: map<Id, Task>, owner: Id, seconds: Time, ts: Time)
      returns (r: Outcome<Option<TaskLease>>)
      modifies this
      ensures rows == AfterClaim(tasks, old(rows), owner, seconds, ts)
      ensures r.Raised? <==> owner == EMPTY || seconds <= 0.0
      ensures r.Returned? ==> (r.value.None? <==> NextClaim(tasks, old(rows), ts).None?)
      ensures r.Returned? && r.value.Some? ==>
                && r.value.value == Grant(old(rows), NextClaim(tasks, old(rows), ts).value, owner, seconds, ts)
                && Validates(SlotsOf(rows), IdentityOf(r.value.value), ts)
    {
      if owner == EMPTY || seconds <= 0.0 { return Raised; }
      var next := SelectNext(tasks, rows, ts);
      if next.None? { return Returned(None); }
      var id := next.value;
      var generation := if id in rows then rows[id].generation + 1 else 1;
      var lease := TaskLease(id, owner, generation, ts, ts + seconds);
      rows := rows[id := LeaseRow(owner, generation, ts, ts + seconds)];
      return Returned(Some(lease));
    }

    method Renew(l: TaskLease, seconds: Time, ts: Time) returns (r: Outcome<Option<TaskLease>>)
      modifies this
      ensures rows == AfterRenew(old(rows), l, seconds, ts)
      ensures r.Raised? <==> seconds <= 0.0
      ensures r.Returned? ==> (r.value.Some? <==> Validates(SlotsOf(old(rows)), IdentityOf(l), ts))
      ensures r.Returned? && r.value.Some? ==>
                r.value.value == l.(until := ts + seconds) && Validates(SlotsOf(rows), IdentityOf(l), ts)
    {
      if seconds <= 0.0 { return Raised; }
      if l.taskId in rows && rows[l.taskId].owner == l.owner && rows[l.taskId].generation == l.generation
         && rows[l.taskId].until > ts {
        rows := rows[l.taskId := rows[l.taskId].(until := ts + seconds)];
        return Returned(Some(l.(until := ts + seconds)));
      }
      return Returned(None);
    }

    method Release(l: TaskLease) returns (released: bool)
      modifies this
      ensures rows == AfterRelease(old(rows), l)
      ensures released <==> Matches(old(rows), l)
      ensures forall ts :: ts >= 0.0 ==> !Validates(SlotsOf(rows), IdentityOf(l), ts)
    {
      if l.taskId in rows && rows[l.taskId].owner == l.owner && rows[l.taskId].generation == l.generation {
        rows := rows[l.taskId := rows[l.taskId].(until := 0.0)];
        return true;
      }
      return false;
    }

    method ValidateIdentity(task: Id, owner: Id, generation: nat, ts: Time) returns (ok: bool)
      ensures ok <==> Validates(SlotsOf(rows), Identity(task, owner, generation), ts)
    {
      ok := task in rows && rows[task].owner == owner && rows[task].generation == generation && rows[task].until > ts;
    }
  }

  // ---- Runs ----

  datatype Command =
    | Claim(owner: Id, seconds: Time)
    | Renew(lease: TaskLease, seconds: Time)
    | Release(lease: TaskLease)
    | SaveTasks(tasks: map<Id, Task>)
    | Wait

  datatype World = World(tasks: map<Id, Task>, rows: LeaseRows, clock: Time)

  ghost function Run1(w: World, c: Command, ts: Time): World {
    match c
    case Claim(owner, seconds) => World(w.tasks, AfterClaim(w.tasks, w.rows, owner, seconds, ts), ts)
    case Renew(l, seconds) => World(w.tasks, AfterRenew(w.rows, l, seconds, ts), ts)
    case Release(l) => World(w.tasks, AfterRelease(w.rows, l), ts)
    case SaveTasks(tasks) => World(tasks, w.rows, ts)
    case Wait => World(w.tasks, w.rows, ts)
  }

  /** Any interleaving of claims, renewals and releases by any runners with any handles, and any
      rewriting of the task table, on a clock that does not decrease. */
  ghost predicate IsRun(ws: seq<World>, cs: seq<Command>) {
    && |ws| == |cs| + 1 && ws[0].rows == map[] && ws[0].clock >= 0.0
    && forall i :: 0 <= i < |cs| ==>
         ws[i].clock <= ws[i + 1].clock && ws[i + 1] == Run1(ws[i], cs[i], ws[i + 1].clock)
  }

  lemma CommandsMoveSlots(w: World, c: Command, ts: Time)
    ensures TableMove(SlotsOf(w.rows), SlotsOf(Run1(w, c, ts).rows), ts)
  {
  }

  ghost function HistoryOf(ws: seq<World>): seq<Moment> {
    seq(|ws|, i requires 0 <= i < |ws| => Moment(SlotsOf(ws[i].rows), ws[i].clock))
  }

  lemma {:induction false} ClockStaysPositive(ws: seq<World>, cs: seq<Command>, i: nat)
    requires IsRun(ws, cs) && i < |ws|
    ensures ws[i].clock >= 0.0
  {
    if i > 0 { ClockStaysPositive(ws, cs, i - 1); }
  }

  lemma RunsAreHistories(ws: seq<World>, cs: seq<Command>)
    requires IsRun(ws, cs)
    ensures IsHistory(HistoryOf(ws))
  {
    var h := HistoryOf(ws);
    forall i | 0 <= i < |h| ensures h[i].clock >= 0.0 {
      ClockStaysPositive(ws, cs, i);
    }
    forall i | 0 <= i < |h| - 1 ensures TableMove(h[i].slots, h[i + 1].slots, h[i + 1].clock) {
      CommandsMoveSlots(ws[i], cs[i], ws[i + 1].clock);
    }
  }

  predicate Holds(w: World, l: TaskLease) { Validates(SlotsOf(w.rows), IdentityOf(l), w.clock) }

  /** The lease that the claim at step `i` of a run hands out, if any. */
  ghost function ClaimedAt(ws: seq<World>, cs: seq<Command>, i: nat): Option<TaskLease>
    requires IsRun(ws, cs) && i < |cs| && cs[i].Claim?
  {
    var next := NextClaim(ws[i].tasks, ws[i].rows, ws[i + 1].clock);
    if cs[i].owner == EMPTY || cs[i].seconds <= 0.0 || next.None? then None
    else Some(Grant(ws[i].rows, next.value, cs[i].owner, cs[i].seconds, ws[i + 1].clock))
  }

  /** Right after a claim, its task's slot holds the claimed identity; right before, a smaller generation. */
  lemma ClaimTakesSlot(ws: seq<World>, cs: seq<Command>, i: nat, a: TaskLease)
    requires IsRun(ws, cs) && i < |cs| && cs[i].Claim? && ClaimedAt(ws, cs, i) == Some(a)
    ensures a.taskId in ws[i + 1].rows && ws[i + 1].rows[a.taskId].generation == a.generation
    ensures ws[i + 1].rows[a.taskId].owner == a.owner
    ensures a.taskId in ws[i].rows ==> ws[i].rows[a.taskId].generation < a.generation
  {
    assert ws[i + 1] == Run1(ws[i], cs[i], ws[i + 1].clock);
  }

  /** A lease validates at no point up to its claim. */
  lemma NotBeforeClaim(ws: seq<World>, cs: seq<Command>, i: nat, a: TaskLease, k: nat)
    requires IsRun(ws, cs) && i < |cs| && cs[i].Claim? && ClaimedAt(ws, cs, i) == Some(a) && k <= i
    ensures !Holds(ws[k], a)
  {
    ClaimTakesSlot(ws, cs, i, a);
    RunsAreHistories(ws, cs);
    hide ClaimedAt, IsRun;
    if a.taskId in ws[k].rows { GenerationsGrow(HistoryOf(ws), k, i, a.taskId); }
  }

  /** Two claims of one task, anywhere in a run: the later one has the larger generation, whatever
      releases and renewals came between; the earlier lease validates only before the later claim and
      the later lease only from its claim on. */
  lemma ClaimsAreFenced(ws: seq<World>, cs: seq<Command>, i: nat, j: nat, a: TaskLease, b: TaskLease, k: nat)
    requires IsRun(ws, cs) && i < j < |cs| && cs[i].Claim? && cs[j].Claim?
    requires ClaimedAt(ws, cs, i) == Some(a) && ClaimedAt(ws, cs, j) == Some(b) && a.taskId == b.taskId
    ensures a.generation < b.generation
    ensures k < |ws| && Holds(ws[k], a) ==> i < k <= j
    ensures k < |ws| && Holds(ws[k], b) ==> j < k
  {
    var h := HistoryOf(ws);
    RunsAreHistories(ws, cs);
    ClaimTakesSlot(ws, cs, i, a);
    ClaimTakesSlot(ws, cs, j, b);
    if k <= i { NotBeforeClaim(ws, cs, i, a, k); }
    if k <= j { NotBeforeClaim(ws, cs, j, b, k); }
    assert |ws| == |cs| + 1;
    hide ClaimedAt, IsRun;
    GenerationsGrow(h, i + 1, j, a.taskId);
    if j < k < |ws| { DeadForever(h, j + 1, k, IdentityOf(a)); }
  }

  /** A lease that was handed out and does not validate at some later point of the run (it expired,
      was released, or was superseded) never validates or renews again. */
  lemma LostLeasesStayLost(ws: seq<World>, cs: seq<Command>, i: nat, j: nat, k: nat, a: TaskLease, seconds: Time)
    requires IsRun(ws, cs) && i < j <= k < |ws| && cs[i].Claim? && ClaimedAt(ws, cs, i) == Some(a)
    requires !Holds(ws[j], a)
    ensures !Holds(ws[k], a)
    ensures forall ts :: ts >= ws[k].clock ==> !RenewAccepted(ws[k].rows, a, seconds, ts)
  {
    var h := HistoryOf(ws);
    RunsAreHistories(ws, cs);
    assert ws[i + 1] == Run1(ws[i], cs[i], ws[i + 1].clock);
    GenerationsGrow(h, i + 1, j, a.taskId);
    assert DeadAt(h[j], IdentityOf(a));
    DeadForever(h, j, k, IdentityOf(a));
  }

  predicate SameIdentity(a: TaskLease, b: TaskLease) { a.taskId == b.taskId && a.owner == b.owner && a.generation == b.generation }

  /** No command from `m` up to `k` renews or releases the lease. */
  predicate LeftAlone(cs: seq<Command>, m: nat, k: nat, a: TaskLease)
    requires k <= |cs|
  {
    forall j :: m <= j < k ==> !(cs[j].Renew? && SameIdentity(cs[j].lease, a)) && !(cs[j].Release? && SameIdentity(cs[j].lease, a))
  }

  /** A row that expires at `u` and that nobody renews or releases stays as it is, at least up to `u`. */
  lemma {:induction false} RowLasts(ws: seq<World>, cs: seq<Command>, m: nat, k: nat, a: TaskLease, u: Time)
    requires IsRun(ws, cs) && m <= k < |ws| && LeftAlone(cs, m, k, a)
    requires a.taskId in ws[m].rows
    requires ws[m].rows[a.taskId].owner == a.owner && ws[m].rows[a.taskId].generation == a.generation && ws[m].rows[a.taskId].until == u
    ensures a.taskId in ws[k].rows
    ensures var row := ws[k].rows[a.taskId];
            || (row.owner == a.owner && row.generation == a.generation && row.until == u)
            || (row.generation > a.generation && u <= ws[k].clock)
    decreases k
  {
    if m < k {
      RowLasts(ws, cs, m, k - 1, a, u);
      assert ws[k] == Run1(ws[k - 1], cs[k - 1], ws[k].clock);
      if cs[k - 1].Claim? { ClaimIsMostUrgent(ws[k - 1].tasks, ws[k - 1].rows, ws[k].clock); }
    }
  }

  /** A claimed lease that is neither renewed nor released holds for exactly the seconds asked for, whatever the
      other runners do. */
  lemma ClaimLasts(ws: seq<World>, cs: seq<Command>, i: nat, k: nat, a: TaskLease)
    requires IsRun(ws, cs) && i < k < |ws| && cs[i].Claim? && ClaimedAt(ws, cs, i) == Some(a) && LeftAlone(cs, i + 1, k, a)
    ensures Holds(ws[k], a) <==> ws[k].clock < ws[i + 1].clock + cs[i].seconds
    ensures a.owner == cs[i].owner && a.claimedAt == ws[i + 1].clock && a.until == ws[i + 1].clock + cs[i].seconds
  {
    assert ws[i + 1] == Run1(ws[i], cs[i], ws[i + 1].clock);
    RowLasts(ws, cs, i + 1, k, a, ws[i + 1].clock + cs[i].seconds);
  }

  /** A renewal of a lease that holds makes it hold for exactly the seconds asked for from then on. */
  lemma RenewalLasts(ws: seq<World>, cs: seq<Command>, i: nat, k: nat)
    requires IsRun(ws, cs) && i < k < |ws| && cs[i].Renew? && cs[i].seconds > 0.0 && LeftAlone(cs, i + 1, k, cs[i].lease)
    requires Validates(SlotsOf(ws[i].rows), IdentityOf(cs[i].lease), ws[i + 1].clock)
    ensures Holds(ws[k], cs[i].lease) <==> ws[k].clock < ws[i + 1].clock + cs[i].seconds
  {
    assert ws[i + 1] == Run1(ws[i], cs[i], ws[i + 1].clock);
    RowLasts(ws, cs, i + 1, k, cs[i].lease, ws[i + 1].clock + cs[i].seconds);
  }

  /** At any point of a run at most one claim of a task holds. (That one row validates one identity is a matter
      of structure; that no two claims share an identity is not.) */
  lemma OneHolder(ws: seq<World>, cs: seq<Command>, i: nat, j: nat, k: nat, a: TaskLease, b: TaskLease)
    requires IsRun(ws, cs) && i < |cs| && j < |cs| && cs[i].Claim? && cs[j].Claim?
    requires ClaimedAt(ws, cs, i) == Some(a) && ClaimedAt(ws, cs, j) == Some(b) && a.taskId == b.taskId
    requires k < |ws| && Holds(ws[k], a) && Holds(ws[k], b)
    ensures i == j && a == b
  {
    hide ClaimedAt, Holds, IsRun;
    if i < j { ClaimsAreFenced(ws, cs, i, j, a, b, k); }
    if j < i { ClaimsAreFenced(ws, cs, j, i, b, a, k); }
  }
}
