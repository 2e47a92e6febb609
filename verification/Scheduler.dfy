/** The in-memory queue projection (liandanlu_native/runtime.py:57-134) against the durable claim
    query. `heapq` lists are multisets with extract-least; a heap item is the rank of its task, whose
    lane component is constant within one heap. */
module Scheduler {
  import opened Basics
  import opened Models
  import opened Ordering
  import opened TaskLeases

  type Heap = multiset<Rank>

  datatype Heaps = Heaps(interactive: Heap, background: Heap)

  predicate Runnable(tasks: map<Id, Task>, id: Id) {
    id in tasks && tasks[id].state == Queued && tasks[id].desired == TaskRunning
  }

  ghost function Least(h: Heap): (r: Rank)
    requires h != multiset{}
    ensures r in h && forall x :: x in h && x != r ==> Before(r, x)
  {
    var items := set x | x in h;
    assert exists r :: IsFirst(r, items) by {
      var some :| some in h;
      assert some in items;
      var r := FirstExists(items);
    }
    var r :| IsFirst(r, items);
    r
  }

  /** What popping until a runnable task appears returns and leaves behind. */
  ghost function PopValid(tasks: map<Id, Task>, h: Heap): (Option<Id>, Heap)
    decreases |h|
  {
    if h == multiset{} then (None, h) else
      var first := Least(h);
      var rest := h - multiset{first};
      if Runnable(tasks, first.id) then (Some(first.id), rest) else PopValid(tasks, rest)
  }

  ghost function NextTask(tasks: map<Id, Task>, hs: Heaps): (Option<Id>, Heaps) {
    var (r, left) := PopValid(tasks, hs.interactive);
    if r.Some? then (r, Heaps(left, hs.background)) else
      var (r', left') := PopValid(tasks, hs.background);
      (r', Heaps(left, left'))
  }

  lemma {:induction false} PopShrinks(tasks: map<Id, Task>, h: Heap)
    ensures PopValid(tasks, h).1 <= h
    ensures PopValid(tasks, h).0.Some? ==> |PopValid(tasks, h).1| < |h|
    decreases |h|
  {
    if h != multiset{} {
      var rest := h - multiset{Least(h)};
      if !Runnable(tasks, Least(h).id) { PopShrinks(tasks, rest); }
    }
  }

  ghost function Drain(tasks: map<Id, Task>, hs: Heaps): seq<Id>
    decreases |hs.interactive| + |hs.background|
  {
    var (r, left) := NextTask(tasks, hs);
    PopShrinks(tasks, hs.interactive);
    PopShrinks(tasks, hs.background);
    assert left.interactive <= hs.interactive && left.background <= hs.background;
    assert hs.interactive == left.interactive + (hs.interactive - left.interactive);
    assert hs.background == left.background + (hs.background - left.background);
    if r.None? then [] else [r.value] + Drain(tasks, left)
  }

  ghost function LaneItems(tasks: map<Id, Task>, lane: nat): set<Rank> {
    set id | id in tasks && Eligible(tasks[id]) && RankOf(id, tasks[id]).lane == lane :: RankOf(id, tasks[id])
  }

  ghost function Rebuilt(tasks: map<Id, Task>): Heaps {
    Heaps(multiset(LaneItems(tasks, 0)), multiset(LaneItems(tasks, 1)))
  }

  /** The heap item of a task. */
  function RankAt(id: Id, t: Task, ts: Time): Rank {
    Rank(if t.lane.Interactive? then 0 else 1, -t.priority, if t.queuedAt.Some? then t.queuedAt.value else ts, id)
  }

  /** A sequential extract-least, in the shape of the `while heap` loop. */
  method PopValidLoop(tasks: map<Id, Task>, heap: Heap) returns (r: Option<Id>, left: Heap)
    ensures (r, left) == PopValid(tasks, heap)
  {
    left := heap;
    while left != multiset{}
      invariant PopValid(tasks, left) == PopValid(tasks, heap)
      decreases |left|
    {
      ghost var least := Least(left);
      var item :| item in left && forall x :: x in left && x != item ==> Before(item, x);
      if item != least { BeforeAsymmetric(item, least); }
      left := left - multiset{item};
      if Runnable(tasks, item.id) { return Some(item.id), left; }
    }
    r := None;
  }

  class TaskScheduler {
    var tasks: map<Id, Task>
    var interactive: Heap
    var background: Heap
    var leases: map<Id, TaskLease>

    constructor Rebuild(tasks: map<Id, Task>)
      ensures this.tasks == tasks && leases == map[] && Heaps(interactive, background) == Rebuilt(tasks)
    {
      this.tasks, this.leases := tasks, map[];
      interactive, background := multiset{}, multiset{};
      new;
      hide Rebuilt, RankAt, Eligible;
      var todo := tasks.Keys;
      assert tasks - todo == map[];
      RebuiltFromNothing();
      while todo != {}
        invariant this.tasks == tasks && leases == map[] && todo <= tasks.Keys
        invariant Heaps(interactive, background) == Rebuilt(tasks - todo)
      {
        var id :| id in todo;
        RebuiltGrows(tasks - todo, id, tasks[id]);
        assert tasks - (todo - {id}) == (tasks - todo)[id := tasks[id]];
        todo := todo - {id};
        if Eligible(tasks[id]) { Push(id, 0.0); }
      }
      assert tasks - todo == tasks;
    }

    /** A task that was never queued counts as queued at `ts`. */
    method Push(id: Id, ts: Time)
      requires id in tasks
      modifies this`interactive, this`background
      ensures tasks[id].lane.Interactive? ==>
                interactive == old(interactive) + multiset{RankAt(id, tasks[id], ts)} && background == old(background)
      ensures !tasks[id].lane.Interactive? ==>
                background == old(background) + multiset{RankAt(id, tasks[id], ts)} && interactive == old(interactive)
    {
      var item := RankAt(id, tasks[id], ts);
      if tasks[id].lane.Interactive? {
        interactive := interactive + multiset{item};
      } else {
        background := background + multiset{item};
      }
    }

    method Next() returns (r: Option<Id>)
      modifies this`interactive, this`background
      ensures (r, Heaps(interactive, background)) == NextTask(tasks, old(Heaps(interactive, background)))
    {
      r, interactive := PopValidLoop(tasks, interactive);
      if r.None? {
        r, background := PopValidLoop(tasks, background);
      }
    }

    /** submit: the task is queued, unless it is over, and its item goes into the heap of its lane. */
    method Submit(id: Id, ts: Time) returns (raised: bool)
      modifies this`tasks, this`interactive, this`background
      ensures raised <==> id !in old(tasks) || Finished(old(tasks)[id])
      ensures (tasks, Heaps(interactive, background)) == AfterSubmit(old(tasks), old(Heaps(interactive, background)), id, ts)
    {
      if id !in tasks || Finished(tasks[id]) { return true; }
      tasks := tasks[id := tasks[id].(state := Queued, desired := TaskRunning, queuedAt := Some(ts), revision := tasks[id].revision + 1)];
      Push(id, ts);
      return false;
    }

    /** renew without a durable store: exactly a handle that holds is renewed, by any duration. */
    method Renew(l: TaskLease, seconds: Time, ts: Time) returns (r: Option<TaskLease>)
      modifies this`leases
      ensures leases == AfterMemoryRenew(old(leases), l, seconds, ts)
      ensures r == if MemoryHolds(old(leases), l, ts) then Some(l.(until := ts + seconds)) else None
    {
      if l.taskId !in leases || leases[l.taskId].owner != l.owner || leases[l.taskId].generation != l.generation
         || leases[l.taskId].until <= ts { return None; }
      var renewed := TaskLease(l.taskId, l.owner, l.generation, l.claimedAt, ts + seconds);
      leases := leases[l.taskId := renewed];
      return Some(renewed);
    }

    /** release without a durable store: afterwards the handle holds at no time. */
    method Release(l: TaskLease) returns (released: bool)
      modifies this`leases
      ensures leases == AfterMemoryRelease(old(leases), l)
      ensures released <==> && l.taskId in old(leases) && old(leases)[l.taskId].owner == l.owner
                            && old(leases)[l.taskId].generation == l.generation
      ensures forall ts: Time :: ts >= 0.0 ==> !MemoryHolds(leases, l, ts)
    {
      if l.taskId !in leases { return false; }
      var current := leases[l.taskId];
      if current.owner != l.owner || current.generation != l.generation { return false; }
      leases := leases[l.taskId := current.(until := 0.0)];
      return true;
    }

    /** claim_next without a durable store: the next task is leased with the next generation, whether or not
        its previous lease has expired. Every earlier handle of that task stops holding. */
    method ClaimNext(owner: Id, seconds: Time, ts: Time) returns (r: Outcome<Option<TaskLease>>)
      modifies this`interactive, this`background, this`leases
      ensures r.Raised? <==> seconds <= 0.0
      ensures r.Raised? ==> leases == old(leases) && Heaps(interactive, background) == old(Heaps(interactive, background))
      ensures r.Returned? ==>
                var (next, left) := NextTask(tasks, old(Heaps(interactive, background)));
                && Heaps(interactive, background) == left
                && (next.None? ==> r.value.None? && leases == old(leases))
                && (next.Some? ==> r.value == Some(MemoryClaim(old(leases), next.value, owner, seconds, ts))
                                   && leases == old(leases)[next.value := r.value.value]
                                   && Superseded(old(leases), leases, next.value))
    {
      if seconds <= 0.0 { return Raised; }
      var next := Next();
      if next.None? { return Returned(None); }
      var generation := if next.value in leases then leases[next.value].generation + 1 else 1;
      var lease := TaskLease(next.value, owner, generation, ts, ts + seconds);
      leases := leases[next.value := lease];
      return Returned(Some(lease));
    }
  }

  lemma RebuiltFromNothing()
    ensures Rebuilt(map[]) == Heaps(multiset{}, multiset{})
  {
    assert LaneItems(map[], 0) == {} && LaneItems(map[], 1) == {};
  }

  /** Pushing one more task turns the heaps of the others into the heaps of all. */
  lemma RebuiltGrows(seen: map<Id, Task>, id: Id, t: Task)
    requires id !in seen
    ensures var hs, item := Rebuilt(seen), multiset{RankAt(id, t, 0.0)};
            Rebuilt(seen[id := t]) ==
              if !Eligible(t) then hs
              else if t.lane.Interactive? then Heaps(hs.interactive + item, hs.background)
              else Heaps(hs.interactive, hs.background + item)
  {
    hide LaneItems;
    LaneGrows(seen, id, t, 0);
    LaneGrows(seen, id, t, 1);
  }

  lemma LaneGrows(seen: map<Id, Task>, id: Id, t: Task, lane: nat)
    requires id !in seen
    ensures Eligible(t) && RankOf(id, t).lane == lane ==>
              multiset(LaneItems(seen[id := t], lane)) == multiset(LaneItems(seen, lane)) + multiset{RankOf(id, t)}
    ensures !(Eligible(t) && RankOf(id, t).lane == lane) ==> LaneItems(seen[id := t], lane) == LaneItems(seen, lane)
  {
    var more := seen[id := t];
    assert forall o :: o in seen ==> more[o] == seen[o];
    if Eligible(t) && RankOf(id, t).lane == lane {
      assert LaneItems(more, lane) == LaneItems(seen, lane) + {RankOf(id, t)} by {
        forall x | x in LaneItems(seen, lane) ensures x in LaneItems(more, lane) {
          var o :| o in seen && Eligible(seen[o]) && x == RankOf(o, seen[o]);
          assert more[o] == seen[o];
        }
        assert RankOf(id, more[id]) in LaneItems(more, lane);
      }
      assert RankOf(id, t) !in LaneItems(seen, lane);
    } else {
      forall x | x in LaneItems(seen, lane) ensures x in LaneItems(more, lane) {
        var o :| o in seen && Eligible(seen[o]) && x == RankOf(o, seen[o]);
        assert more[o] == seen[o];
      }
    }
  }

  // ---- Draining the heaps and claiming from the table agree ----

  predicate AllEligible(tasks: map<Id, Task>, ids: seq<Id>) {
    forall i :: 0 <= i < |ids| ==> ids[i] in tasks && Eligible(tasks[ids[i]])
  }

  function RanksOf(tasks: map<Id, Task>, ids: seq<Id>): seq<Rank>
    requires AllEligible(tasks, ids)
  {
    seq(|ids|, i requires 0 <= i < |ids| => RankOf(ids[i], tasks[ids[i]]))
  }

  /** `ids` lists exactly the tasks ranked in `s`, each once, in scheduling order. */
  ghost predicate Lists(tasks: map<Id, Task>, ids: seq<Id>, s: set<Rank>) {
    && AllEligible(tasks, ids)
    && Ascending(RanksOf(tasks, ids))
    && Elements(RanksOf(tasks, ids)) == s
  }

  lemma ListsPrepend(tasks: map<Id, Task>, id: Id, ids: seq<Id>, s: set<Rank>)
    requires id in tasks && Eligible(tasks[id]) && IsFirst(RankOf(id, tasks[id]), s)
    requires Lists(tasks, ids, s - {RankOf(id, tasks[id])})
    ensures Lists(tasks, [id] + ids, s)
  {
    var r := RankOf(id, tasks[id]);
    assert RanksOf(tasks, [id] + ids) == [r] + RanksOf(tasks, ids);
    assert Elements([r] + RanksOf(tasks, ids)) == {r} + Elements(RanksOf(tasks, ids));
    forall j | 0 <= j < |ids| ensures Before(r, RanksOf(tasks, ids)[j]) {
      assert RanksOf(tasks, ids)[j] in Elements(RanksOf(tasks, ids));
    }
  }

  lemma ListsHead(tasks: map<Id, Task>, ids: seq<Id>, s: set<Rank>)
    requires Lists(tasks, ids, s) && ids != []
    ensures IsFirst(RankOf(ids[0], tasks[ids[0]]), s)
    ensures Lists(tasks, ids[1..], s - {RankOf(ids[0], tasks[ids[0]])})
  {
    var rs := RanksOf(tasks, ids);
    HeadIsFirst(rs);
    TailElements(rs);
    assert RanksOf(tasks, ids[1..]) == rs[1..];
  }

  /** There is only one such list, so `Lists` fixes the order completely. */
  lemma ListsUnique(tasks: map<Id, Task>, a: seq<Id>, b: seq<Id>, s: set<Rank>)
    requires Lists(tasks, a, s) && Lists(tasks, b, s)
    ensures a == b
  {
    AscendingUnique(RanksOf(tasks, a), RanksOf(tasks, b));
    assert |a| == |RanksOf(tasks, a)| == |RanksOf(tasks, b)| == |b|;
    forall i | 0 <= i < |a| ensures a[i] == b[i] {
      assert RanksOf(tasks, a)[i].id == a[i] && RanksOf(tasks, b)[i].id == b[i];
    }
  }

  /** Heaps whose items are distinct, current, and in the right lane. */
  ghost predicate Proper(tasks: map<Id, Task>, h: Heap, lane: nat) {
    forall x :: x in h ==> h[x] == 1 && x.id in tasks && Eligible(tasks[x.id])
                           && x == RankOf(x.id, tasks[x.id]) && x.lane == lane
  }

  lemma ProperPop(tasks: map<Id, Task>, h: Heap, lane: nat)
    requires Proper(tasks, h, lane) && h != multiset{}
    ensures PopValid(tasks, h) == (Some(Least(h).id), h - multiset{Least(h)})
    ensures Proper(tasks, h - multiset{Least(h)}, lane) && |h - multiset{Least(h)}| < |h|
    ensures Least(h).id in tasks && Eligible(tasks[Least(h).id]) && Least(h) == RankOf(Least(h).id, tasks[Least(h).id])
    ensures (set x | x in h - multiset{Least(h)}) == (set x | x in h) - {Least(h)}
  {
  }

  ghost function Items(hs: Heaps): set<Rank> {
    (set x | x in hs.interactive) + (set x | x in hs.background)
  }

  /** One call of next_task on proper heaps takes the first of all items. */
  lemma NextTakesFirst(tasks: map<Id, Task>, hs: Heaps) returns (first: Rank, left: Heaps)
    requires Proper(tasks, hs.interactive, 0) && Proper(tasks, hs.background, 1)
    requires hs != Heaps(multiset{}, multiset{})
    ensures NextTask(tasks, hs) == (Some(first.id), left)
    ensures Proper(tasks, left.interactive, 0) && Proper(tasks, left.background, 1)
    ensures first.id in tasks && Eligible(tasks[first.id]) && first == RankOf(first.id, tasks[first.id])
    ensures IsFirst(first, Items(hs)) && Items(left) == Items(hs) - {first}
    ensures |left.interactive| + |left.background| < |hs.interactive| + |hs.background|
  {
    hide PopValid, RankOf, Eligible, Proper, IsFirst, Items, Least;
    if hs.interactive != multiset{} {
      ProperPop(tasks, hs.interactive, 0);
      first := Least(hs.interactive);
      left := Heaps(hs.interactive - multiset{first}, hs.background);
      LeastIsFirst(tasks, hs);
      assert hs.background - multiset{first} == hs.background;
    } else {
      ProperPop(tasks, hs.background, 1);
      EmptyPop(tasks);
      first := Least(hs.background);
      left := Heaps(hs.interactive, hs.background - multiset{first});
      LeastIsFirst(tasks, hs);
      assert hs.interactive - multiset{first} == hs.interactive;
    }
  }

  /** Every interactive item comes before every background item, so the first item overall is the least
      one of the first heap that has any. */
  lemma LeastIsFirst(tasks: map<Id, Task>, hs: Heaps)
    requires Proper(tasks, hs.interactive, 0) && Proper(tasks, hs.background, 1)
    requires hs != Heaps(multiset{}, multiset{})
    ensures var first := if hs.interactive != multiset{} then Least(hs.interactive) else Least(hs.background);
            && IsFirst(first, Items(hs))
            && Items(Heaps(hs.interactive - multiset{first}, hs.background - multiset{first})) == Items(hs) - {first}
            && (hs.interactive == multiset{} || first !in hs.background)
  {
    hide RankOf, Eligible;
  }

  lemma EmptyPop(tasks: map<Id, Task>)
    ensures PopValid(tasks, multiset{}) == (None, multiset{})
  {
  }

  lemma {:induction false} DrainLists(tasks: map<Id, Task>, hs: Heaps)
    requires Proper(tasks, hs.interactive, 0) && Proper(tasks, hs.background, 1)
    ensures Lists(tasks, Drain(tasks, hs), Items(hs))
    decreases |hs.interactive| + |hs.background|
  {
    if hs == Heaps(multiset{}, multiset{}) {
      assert Items(hs) == {};
      assert NextTask(tasks, hs).0.None?;
    } else {
      var first, left := NextTakesFirst(tasks, hs);
      DrainLists(tasks, left);
      ListsPrepend(tasks, first.id, Drain(tasks, left), Items(hs));
    }
  }

  lemma RebuiltIsProper(tasks: map<Id, Task>)
    ensures Proper(tasks, Rebuilt(tasks).interactive, 0) && Proper(tasks, Rebuilt(tasks).background, 1)
    ensures Items(Rebuilt(tasks)) == Candidates(tasks, map[], 0.0)
  {
    var s := Items(Rebuilt(tasks));
    forall x | x in Candidates(tasks, map[], 0.0) ensures x in s {
      var id :| id in tasks && Claimable(tasks, map[], 0.0, id) && x == RankOf(id, tasks[id]);
      assert x in LaneItems(tasks, x.lane);
    }
  }

  /** The tasks that a list of claims (owner, seconds) at one timestamp obtains. */
  ghost function ClaimAll(tasks: map<Id, Task>, rows: LeaseRows, claims: seq<(Id, Time)>, ts: Time): seq<Option<Id>>
    decreases |claims|
  {
    if claims == [] then [] else
      [NextClaim(tasks, rows, ts)]
      + ClaimAll(tasks, AfterClaim(tasks, rows, claims[0].0, claims[0].1, ts), claims[1..], ts)
  }

  lemma {:induction false} ClaimsFollowList(tasks: map<Id, Task>, rows: LeaseRows, claims: seq<(Id, Time)>, ts: Time, ids: seq<Id>)
    requires forall c :: c in claims ==> c.0 != EMPTY && c.1 > 0.0
    requires Lists(tasks, ids, Candidates(tasks, rows, ts))
    ensures |ClaimAll(tasks, rows, claims, ts)| == |claims|
    ensures forall k :: 0 <= k < |claims| ==>
              ClaimAll(tasks, rows, claims, ts)[k] == if k < |ids| then Some(ids[k]) else None
    decreases |claims|
  {
    if claims != [] {
      assert claims[0] in claims;
      var rows' := AfterClaim(tasks, rows, claims[0].0, claims[0].1, ts);
      if ids == [] {
        assert Candidates(tasks, rows, ts) == {};
        assert NextClaim(tasks, rows, ts).None?;
        ClaimsFollowList(tasks, rows', claims[1..], ts, ids);
      } else {
        ListsHead(tasks, ids, Candidates(tasks, rows, ts));
        HeadIsClaimable(tasks, rows, ts, ids[0]);
        NextClaimIs(tasks, rows, ts, ids[0]);
        CandidatesAfterClaim(tasks, rows, ids[0], claims[0].0, claims[0].1, ts);
        ClaimsFollowList(tasks, rows', claims[1..], ts, ids[1..]);
      }
    }
  }

  lemma HeadIsClaimable(tasks: map<Id, Task>, rows: LeaseRows, ts: Time, id: Id)
    requires id in tasks && Eligible(tasks[id]) && RankOf(id, tasks[id]) in Candidates(tasks, rows, ts)
    ensures Claimable(tasks, rows, ts, id)
  {
  }

  lemma CandidatesAfterClaim(tasks: map<Id, Task>, rows: LeaseRows, id: Id, owner: Id, seconds: Time, ts: Time)
    requires NextClaim(tasks, rows, ts) == Some(id) && owner != EMPTY && seconds > 0.0
    ensures Candidates(tasks, AfterClaim(tasks, rows, owner, seconds, ts), ts)
            == Candidates(tasks, rows, ts) - {RankOf(id, tasks[id])}
  {
    var rows' := AfterClaim(tasks, rows, owner, seconds, ts);
    assert forall o :: o != id ==> Claimable(tasks, rows', ts, o) == Claimable(tasks, rows, ts, o);
    assert !Claimable(tasks, rows', ts, id);
  }

  /** The listed tasks that hold no unexpired lease, in the same order. */
  function Unleased(ids: seq<Id>, rows: LeaseRows, ts: Time): seq<Id> {
    if ids == [] then [] else
      (if ids[0] in rows && rows[ids[0]].until > ts then [] else [ids[0]]) + Unleased(ids[1..], rows, ts)
  }

  lemma {:induction false} UnleasedLists(tasks: map<Id, Task>, rows: LeaseRows, ts: Time, ids: seq<Id>, s: set<Rank>)
    requires Lists(tasks, ids, s)
    ensures Lists(tasks, Unleased(ids, rows, ts), set x | x in s && (x.id in rows ==> rows[x.id].until <= ts))
    decreases |ids|
  {
    var free := set x | x in s && (x.id in rows ==> rows[x.id].until <= ts);
    if ids == [] {
      assert s == {};
    } else {
      var r := RankOf(ids[0], tasks[ids[0]]);
      ListsHead(tasks, ids, s);
      UnleasedLists(tasks, rows, ts, ids[1..], s - {r});
      var free' := set x | x in s - {r} && (x.id in rows ==> rows[x.id].until <= ts);
      if ids[0] in rows && rows[ids[0]].until > ts {
        assert free == free';
        assert Unleased(ids, rows, ts) == Unleased(ids[1..], rows, ts);
      } else {
        assert free' == free - {r};
        ListsPrepend(tasks, ids[0], Unleased(ids[1..], rows, ts), free);
      }
    }
  }

  lemma FreeCandidates(tasks: map<Id, Task>, rows: LeaseRows, ts: Time)
    ensures Candidates(tasks, rows, ts)
            == set x | x in Candidates(tasks, map[], 0.0) && (x.id in rows ==> rows[x.id].until <= ts)
  {
    forall x | x in Candidates(tasks, map[], 0.0) && (x.id in rows ==> rows[x.id].until <= ts)
      ensures x in Candidates(tasks, rows, ts)
    {
      var id :| id in tasks && Claimable(tasks, map[], 0.0, id) && x == RankOf(id, tasks[id]);
      assert Claimable(tasks, rows, ts, id);
    }
    forall x | x in Candidates(tasks, rows, ts) ensures x in Candidates(tasks, map[], 0.0) {
      var id :| id in tasks && Claimable(tasks, rows, ts, id) && x == RankOf(id, tasks[id]);
      assert Claimable(tasks, map[], 0.0, id);
    }
  }

  ghost function EligibleRanks(tasks: map<Id, Task>): set<Rank> {
    set id | id in tasks && Eligible(tasks[id]) :: RankOf(id, tasks[id])
  }

  /** Draining rebuilt heaps lists every eligible task exactly once in scheduling order, and any
      list of durable claims at one timestamp obtains those tasks in that order, leaving out just the
      ones under an unexpired lease. */
  lemma RebuildAgreesWithClaims(tasks: map<Id, Task>, rows: LeaseRows, claims: seq<(Id, Time)>, ts: Time)
    requires forall c :: c in claims ==> c.0 != EMPTY && c.1 > 0.0
    ensures Lists(tasks, Drain(tasks, Rebuilt(tasks)), EligibleRanks(tasks))
    ensures var order := Unleased(Drain(tasks, Rebuilt(tasks)), rows, ts);
            var got := ClaimAll(tasks, rows, claims, ts);
            |got| == |claims|
            && forall k :: 0 <= k < |claims| ==> got[k] == if k < |order| then Some(order[k]) else None
    ensures (forall id :: id in rows ==> rows[id].until <= ts) ==>
              Unleased(Drain(tasks, Rebuilt(tasks)), rows, ts) == Drain(tasks, Rebuilt(tasks))
  {
    var drained := Drain(tasks, Rebuilt(tasks));
    RebuiltIsProper(tasks);
    DrainLists(tasks, Rebuilt(tasks));
    var s := Candidates(tasks, map[], 0.0);
    assert s == EligibleRanks(tasks);
    UnleasedLists(tasks, rows, ts, drained, s);
    FreeCandidates(tasks, rows, ts);
    ClaimsFollowList(tasks, rows, claims, ts, Unleased(drained, rows, ts));
    if forall id :: id in rows ==> rows[id].until <= ts { AllUnleased(drained, rows, ts); }
  }

  lemma {:induction false} AllUnleased(ids: seq<Id>, rows: LeaseRows, ts: Time)
    requires forall id :: id in rows ==> rows[id].until <= ts
    ensures Unleased(ids, rows, ts) == ids
  {
    if ids != [] {
      AllUnleased(ids[1..], rows, ts);
      assert ids == [ids[0]] + ids[1..];
    }
  }

  /** What draining means on the tasks themselves: it lists exactly the tasks that are queued, meant to run and have a
      queue time, each once; an earlier one is interactive if a later one is, and within a lane it has no smaller
      priority, with the same priority no later queue time, and with the same time a smaller id. */
  lemma DrainIsByUrgency(tasks: map<Id, Task>)
    ensures var ids := Drain(tasks, Rebuilt(tasks));
            && (forall id :: id in ids <==>
                  id in tasks && tasks[id].state == Queued && tasks[id].desired == TaskRunning && tasks[id].queuedAt.Some?)
            && forall i, j :: 0 <= i < j < |ids| ==>
                 var a, b := tasks[ids[i]], tasks[ids[j]];
                 && ids[i] != ids[j] && (b.lane.Interactive? ==> a.lane.Interactive?)
                 && (a.lane.Interactive? == b.lane.Interactive? ==>
                       && a.priority >= b.priority
                       && (a.priority == b.priority ==>
                             && a.queuedAt.value <= b.queuedAt.value && (a.queuedAt == b.queuedAt ==> ids[i] < ids[j])))
  {
    var ids := Drain(tasks, Rebuilt(tasks));
    RebuildAgreesWithClaims(tasks, map[], [], 0.0);
    hide Drain, Rebuilt, Lists;
    ListedTasks(tasks, ids);
    forall i, j | 0 <= i < j < |ids| ensures AllEligible(tasks, ids) && Before(RankOf(ids[i], tasks[ids[i]]), RankOf(ids[j], tasks[ids[j]])) {
      ListedInOrder(tasks, ids, i, j);
    }
  }

  lemma ListedTasks(tasks: map<Id, Task>, ids: seq<Id>)
    requires Lists(tasks, ids, EligibleRanks(tasks))
    ensures forall id :: id in ids <==> id in tasks && Eligible(tasks[id])
  {
    var rs := RanksOf(tasks, ids);
    forall id | id in tasks && Eligible(tasks[id]) ensures id in ids {
      assert RankOf(id, tasks[id]) in Elements(rs);
      var i :| 0 <= i < |rs| && rs[i] == RankOf(id, tasks[id]);
      assert ids[i] == id;
    }
  }

  lemma ListedInOrder(tasks: map<Id, Task>, ids: seq<Id>, i: nat, j: nat)
    requires Lists(tasks, ids, EligibleRanks(tasks)) && i < j < |ids|
    ensures AllEligible(tasks, ids) && Before(RankOf(ids[i], tasks[ids[i]]), RankOf(ids[j], tasks[ids[j]]))
  {
    var rs := RanksOf(tasks, ids);
    assert Before(rs[i], rs[j]);
  }

  /** Whatever has become of the tasks since their items were pushed: popping returns a task that is queued and meant to
      run, an item of which is in the heap and precedes every item of another such task; and nothing exactly if no item is
      of such a task. */
  lemma {:induction false} PopSkipsStale(tasks: map<Id, Task>, h: Heap)
    ensures PopValid(tasks, h).0.None? <==>
              forall x :: x in h ==> !(x.id in tasks && tasks[x.id].state == Queued && tasks[x.id].desired == TaskRunning)
    ensures PopValid(tasks, h).0.Some? ==>
              var id := PopValid(tasks, h).0.value;
              && id in tasks && tasks[id].state == Queued && tasks[id].desired == TaskRunning
              && exists x :: x in h && x.id == id && forall y :: y in h && y != x && Runnable(tasks, y.id) ==> Before(x, y)
    decreases |h|
  {
    if h != multiset{} {
      var first := Least(h);
      var rest := h - multiset{first};
      if !Runnable(tasks, first.id) {
        PopSkipsStale(tasks, rest);
        assert forall x :: x in h ==> x == first || x in rest;
        if PopValid(tasks, rest).0.Some? {
          var id := PopValid(tasks, rest).0.value;
          var x :| x in rest && x.id == id && forall y :: y in rest && y != x && Runnable(tasks, y.id) ==> Before(x, y);
          assert x in h;
        }
      }
    }
  }

  // ---- The in-memory claim ----

  /** An in-memory claim holds for exactly the seconds asked for, until it is changed. */
  lemma MemoryClaimLasts(leases: map<Id, TaskLease>, task: Id, owner: Id, seconds: Time, ts: Time, at: Time)
    ensures var l := MemoryClaim(leases, task, owner, seconds, ts);
            && l.taskId == task && l.owner == owner && l.claimedAt == ts
            && (task in leases ==> l.generation == leases[task].generation + 1) && (task !in leases ==> l.generation == 1)
            && (MemoryHolds(leases[task := l], l, at) <==> at < ts + seconds)
  {
  }
  /** liandanlu_native/runtime.py:129-134: the previous lease's expiry is not looked at. */
  function MemoryClaim(leases: map<Id, TaskLease>, task: Id, owner: Id, seconds: Time, ts: Time): TaskLease {
    TaskLease(task, owner, if task in leases then leases[task].generation + 1 else 1, ts, ts + seconds)
  }

  predicate MemoryHolds(leases: map<Id, TaskLease>, l: TaskLease, ts: Time) {
    && l.taskId in leases && leases[l.taskId].owner == l.owner && leases[l.taskId].generation == l.generation
    && leases[l.taskId].until > ts
  }

  /** No handle of the task that held before still holds. */
  ghost predicate Superseded(was: map<Id, TaskLease>, now: map<Id, TaskLease>, task: Id) {
    forall l: TaskLease, t: Time :: l.taskId == task && MemoryHolds(was, l, t) ==> !MemoryHolds(now, l, t)
  }

  /** The task table and the heaps after submit. */
  function AfterSubmit(tasks: map<Id, Task>, hs: Heaps, id: Id, ts: Time): (map<Id, Task>, Heaps) {
    if id !in tasks || Finished(tasks[id]) then (tasks, hs) else
      var t := tasks[id].(state := Queued, desired := TaskRunning, queuedAt := Some(ts), revision := tasks[id].revision + 1);
      var item := multiset{RankAt(id, t, ts)};
      (tasks[id := t],
       if t.lane.Interactive? then Heaps(hs.interactive + item, hs.background) else Heaps(hs.interactive, hs.background + item))
  }

  /** The handle's own claim time is written back. */
  function AfterMemoryRenew(leases: map<Id, TaskLease>, l: TaskLease, seconds: Time, ts: Time): map<Id, TaskLease> {
    if MemoryHolds(leases, l, ts) then leases[l.taskId := l.(until := ts + seconds)] else leases
  }

  function AfterMemoryRelease(leases: map<Id, TaskLease>, l: TaskLease): map<Id, TaskLease> {
    if l.taskId in leases && leases[l.taskId].owner == l.owner && leases[l.taskId].generation == l.generation
    then leases[l.taskId := leases[l.taskId].(until := 0.0)] else leases
  }

  /** An in-memory renewal of a lease that holds makes it hold for exactly the seconds asked for from now, and one of a
      lease that does not changes nothing; a release ends exactly the lease it names. */
  lemma MemoryRenewalMeans(leases: map<Id, TaskLease>, l: TaskLease, seconds: Time, ts: Time, at: Time)
    ensures var held := l.taskId in leases && leases[l.taskId].owner == l.owner && leases[l.taskId].generation == l.generation;
            && (MemoryHolds(leases, l, ts) <==> held && ts < leases[l.taskId].until)
            && (if held && ts < leases[l.taskId].until
                then MemoryHolds(AfterMemoryRenew(leases, l, seconds, ts), l, at) <==> at < ts + seconds
                else AfterMemoryRenew(leases, l, seconds, ts) == leases)
            && (if held then AfterMemoryRelease(leases, l) == leases[l.taskId := leases[l.taskId].(until := 0.0)]
                else AfterMemoryRelease(leases, l) == leases)
  {
  }

  /** A submitted task that is not over is queued now, meant to run, otherwise unchanged but for its revision, and its
      place in the order is by its lane, priority, the present time and its id; any other submission changes nothing. */
  lemma SubmitMeans(tasks: map<Id, Task>, hs: Heaps, id: Id, ts: Time)
    ensures var (tasks', hs') := AfterSubmit(tasks, hs, id, ts);
            if id in tasks && tasks[id].state !in {Completed, TaskFailed, TaskCancelled}
            then && tasks' == tasks[id := tasks[id].(state := Queued, desired := TaskRunning, queuedAt := Some(ts),
                                                     revision := tasks[id].revision + 1)]
                 && (if tasks[id].lane.Interactive?
                     then hs'.background == hs.background && hs'.interactive == hs.interactive + multiset{Rank(0, -tasks[id].priority, ts, id)}
                     else hs'.interactive == hs.interactive && hs'.background == hs.background + multiset{Rank(1, -tasks[id].priority, ts, id)})
            else tasks' == tasks && hs' == hs
  {
  }

  // ---- Runs of the in-memory scheduler ----

  datatype Projection = Projection(tasks: map<Id, Task>, heaps: Heaps, leases: map<Id, TaskLease>, clock: Time)

  datatype Call =
    | SubmitCall(id: Id)
    | ClaimCall(owner: Id, seconds: Time)
    | RenewCall(handle: TaskLease, seconds: Time)
    | ReleaseCall(handle: TaskLease)
    | ChangeTasks(tasks: map<Id, Task>)

  /** The lease a claim at time `ts` hands out, if any. */
  ghost function Claimed(s: Projection, owner: Id, seconds: Time, ts: Time): Option<TaskLease> {
    var next := NextTask(s.tasks, s.heaps).0;
    if seconds <= 0.0 || next.None? then None else Some(MemoryClaim(s.leases, next.value, owner, seconds, ts))
  }

  ghost function AfterCall(s: Projection, c: Call, ts: Time): Projection {
    match c
    case SubmitCall(id) => var (tasks, heaps) := AfterSubmit(s.tasks, s.heaps, id, ts); Projection(tasks, heaps, s.leases, ts)
    case ClaimCall(owner, seconds) =>
      var l := Claimed(s, owner, seconds, ts);
      Projection(s.tasks, if seconds <= 0.0 then s.heaps else NextTask(s.tasks, s.heaps).1,
                 if l.None? then s.leases else s.leases[l.value.taskId := l.value], ts)
    case RenewCall(l, seconds) => Projection(s.tasks, s.heaps, AfterMemoryRenew(s.leases, l, seconds, ts), ts)
    case ReleaseCall(l) => Projection(s.tasks, s.heaps, AfterMemoryRelease(s.leases, l), ts)
    case ChangeTasks(tasks) => Projection(tasks, s.heaps, s.leases, ts)
  }

  /** Any calls of the scheduler, with any handles, and any changes of the task table, on a clock that does not
      decrease. */
  ghost predicate IsSchedule(ss: seq<Projection>, calls: seq<Call>) {
    && |ss| == |calls| + 1 && ss[0].leases == map[] && ss[0].clock >= 0.0
    && forall i :: 0 <= i < |calls| ==> ss[i].clock <= ss[i + 1].clock && ss[i + 1] == AfterCall(ss[i], calls[i], ss[i + 1].clock)
  }

  /** Call `i` claims, and `l` is the lease it hands out. */
  ghost predicate ClaimsAt(ss: seq<Projection>, calls: seq<Call>, i: nat, l: TaskLease)
    requires |ss| == |calls| + 1
  {
    i < |calls| && calls[i].ClaimCall? && Claimed(ss[i], calls[i].owner, calls[i].seconds, ss[i + 1].clock) == Some(l)
  }

  /** No call strictly between `i` and `j` claims the task. */
  ghost predicate NoClaimBetween(ss: seq<Projection>, calls: seq<Call>, i: nat, j: nat, task: Id)
    requires |ss| == |calls| + 1
  {
    forall k, l: TaskLease {:trigger ClaimsAt(ss, calls, k, l)} :: i < k < j && ClaimsAt(ss, calls, k, l) ==> l.taskId != task
  }

  lemma {:induction false} IdentityStays(ss: seq<Projection>, calls: seq<Call>, i: nat, j: nat, a: TaskLease)
    requires IsSchedule(ss, calls) && i < j < |ss| && ClaimsAt(ss, calls, i, a) && NoClaimBetween(ss, calls, i, j, a.taskId)
    ensures a.taskId in ss[j].leases && ss[j].leases[a.taskId].owner == a.owner
            && ss[j].leases[a.taskId].generation == a.generation
    decreases j
  {
    hide NextTask, AfterSubmit;
    if i + 1 < j {
      IdentityStays(ss, calls, i, j - 1, a);
      var s, c := ss[j - 1], calls[j - 1];
      assert ss[j] == AfterCall(s, c, ss[j].clock);
      if c.ClaimCall? {
        var l := Claimed(s, c.owner, c.seconds, ss[j].clock);
        if l.Some? { assert ClaimsAt(ss, calls, j - 1, l.value); }
      }
    } else {
      assert ss[j] == AfterCall(ss[i], calls[i], ss[j].clock);
    }
  }

  /** Two successive claims `a` and `b` of one task, anywhere in a run: the generation grows by one, and there is
      a moment from the second claim on at which both hold (`a` by what was stored for it before the second claim)
      exactly when `a` had not expired or been released when `b` was claimed. The durable claim never hands
      out such a `b`. */
  lemma MemoryClaimsOverlapIff(ss: seq<Projection>, calls: seq<Call>, i: nat, j: nat, a: TaskLease, b: TaskLease)
    requires IsSchedule(ss, calls) && i < j && ClaimsAt(ss, calls, i, a) && ClaimsAt(ss, calls, j, b)
    requires a.taskId == b.taskId && NoClaimBetween(ss, calls, i, j, a.taskId)
    ensures b.generation == a.generation + 1
    ensures (exists t :: t >= ss[j + 1].clock && MemoryHolds(ss[j].leases, a, t) && MemoryHolds(ss[j + 1].leases, b, t))
            <==> ss[j].leases[a.taskId].until > ss[j + 1].clock
  {
    hide NextTask, AfterSubmit;
    IdentityStays(ss, calls, i, j, a);
    assert ss[j + 1] == AfterCall(ss[j], calls[j], ss[j + 1].clock);
    if ss[j].leases[a.taskId].until > ss[j + 1].clock {
      assert MemoryHolds(ss[j].leases, a, ss[j + 1].clock) && MemoryHolds(ss[j + 1].leases, b, ss[j + 1].clock);
    }
  }

  /** A concrete failure: submit, claim for ten seconds, submit again and claim one second later. */
  lemma MemoryClaimsOverlap(task: Task) returns (ss: seq<Projection>, calls: seq<Call>, a: TaskLease, b: TaskLease)
    requires !Finished(task)
    ensures IsSchedule(ss, calls) && |calls| == 4 && calls[0] == SubmitCall(7) && calls[2] == SubmitCall(7)
    ensures ClaimsAt(ss, calls, 1, a) && ClaimsAt(ss, calls, 3, b) && a.taskId == b.taskId == 7
    ensures MemoryHolds(ss[3].leases, a, 1.0) && MemoryHolds(ss[4].leases, b, 1.0) && ss[4].clock == 1.0
  {
    hide AfterCall, Claimed;
    calls := [SubmitCall(7), ClaimCall(8, 10.0), SubmitCall(7), ClaimCall(9, 10.0)];
    var s0 := Projection(map[7 := task], Heaps(multiset{}, multiset{}), map[], 0.0);
    var s1, s2 := SubmitThenClaim(s0, 7, 8, 10.0, 0.0);
    var s3, s4 := SubmitThenClaim(s2, 7, 9, 10.0, 1.0);
    a, b := TaskLease(7, 8, 1, 0.0, 10.0), TaskLease(7, 9, 2, 1.0, 11.0);
    ss := [s0, s1, s2, s3, s4];
  }

  /** With empty heaps, a task that is submitted is the next one claimed, and then the heaps are empty again. */
  lemma SubmitThenClaim(s: Projection, id: Id, owner: Id, seconds: Time, ts: Time) returns (s1: Projection, s2: Projection)
    requires s.heaps == Heaps(multiset{}, multiset{}) && id in s.tasks && !Finished(s.tasks[id]) && seconds > 0.0
    ensures s1 == AfterCall(s, SubmitCall(id), ts) && s2 == AfterCall(s1, ClaimCall(owner, seconds), ts)
    ensures s1.clock == ts && s1.leases == s.leases
    ensures Claimed(s1, owner, seconds, ts) == Some(MemoryClaim(s.leases, id, owner, seconds, ts))
    ensures s2.heaps == s.heaps && s2.leases == s.leases[id := MemoryClaim(s.leases, id, owner, seconds, ts)]
    ensures s2.clock == ts && id in s2.tasks && !Finished(s2.tasks[id])
  {
    hide NextTask, AfterSubmit;
    OneItem(s.tasks, id, ts);
    s1 := AfterCall(s, SubmitCall(id), ts);
    s2 := AfterCall(s1, ClaimCall(owner, seconds), ts);
  }

  /** Submitting into empty heaps makes that task the next one, and then the heaps are empty again. */
  lemma OneItem(tasks: map<Id, Task>, id: Id, ts: Time)
    requires id in tasks && !Finished(tasks[id])
    ensures var (tasks', hs) := AfterSubmit(tasks, Heaps(multiset{}, multiset{}), id, ts);
            && NextTask(tasks', hs) == (Some(id), Heaps(multiset{}, multiset{}))
            && id in tasks' && !Finished(tasks'[id])
  {
    var (tasks', hs) := AfterSubmit(tasks, Heaps(multiset{}, multiset{}), id, ts);
    var r := RankAt(id, tasks'[id], ts);
    OneLeft(tasks', r);
    EmptyPop(tasks');
  }

  lemma OneLeft(tasks: map<Id, Task>, r: Rank)
    requires Runnable(tasks, r.id)
    ensures PopValid(tasks, multiset{r}) == (Some(r.id), multiset{})
  {
    assert Least(multiset{r}) == r;
  }
}
