/** The event outbox and log: liandanlu_native/storage.py:279-303 and 561-600 for the durable tables,
    liandanlu_native/events.py:28-65 for the in-memory lists. */
module Events {
  import opened Basics

  datatype Content = Content(
    eventType: string, actor: string, workspace: Id, task: Option<Id>, operation: Option<Id>,
    refs: seq<Id>, payload: string, learningAllowed: bool)

  /** `eventId` is missing only in rows written before that column existed. */
  datatype OutboxRow = OutboxRow(eventId: Option<nat>, content: Content, dispatched: bool)

  /** The sequence number of a log row is its index plus one. */
  datatype LogRow = LogRow(eventId: nat, content: Content)

  /** `nextId` stands for `new_id`: ids from it on have not been used. */
  datatype Tables = Tables(outbox: seq<OutboxRow>, log: seq<LogRow>, nextId: nat)

  function Contents(log: seq<LogRow>): seq<Content> {
    seq(|log|, i requires 0 <= i < |log| => log[i].content)
  }

  /** The contents of the undispatched rows from index `i` on, in outbox order. */
  function PendingFrom(outbox: seq<OutboxRow>, i: nat): seq<Content>
    requires i <= |outbox|
    decreases |outbox| - i
  {
    if i == |outbox| then []
    else (if outbox[i].dispatched then [] else [outbox[i].content]) + PendingFrom(outbox, i + 1)
  }

  function Pending(t: Tables): seq<Content> { PendingFrom(t.outbox, 0) }

  function Enqueue(t: Tables, c: Content): Tables {
    Tables(t.outbox + [OutboxRow(Some(t.nextId), c, false)], t.log, t.nextId + 1)
  }

  predicate Logged(log: seq<LogRow>, id: nat) { exists k :: 0 <= k < |log| && log[k].eventId == id }

  /** Give the row an id if it has none, insert it into the log unless that id is there, and mark it. */
  function DispatchRow(t: Tables, i: nat): Tables
    requires i < |t.outbox|
  {
    var row := t.outbox[i];
    var id := if row.eventId.Some? then row.eventId.value else t.nextId;
    Tables(
      t.outbox[i := OutboxRow(Some(id), row.content, true)],
      if Logged(t.log, id) then t.log else t.log + [LogRow(id, row.content)],
      if row.eventId.Some? then t.nextId else t.nextId + 1)
  }

  /** Dispatch at most `limit` undispatched rows from index `i` on; a negative limit is no limit. */
  function Sweep(t: Tables, i: nat, limit: int): Tables
    requires i <= |t.outbox|
    decreases |t.outbox| - i
  {
    if i == |t.outbox| || limit == 0 then t
    else if t.outbox[i].dispatched then Sweep(t, i + 1, limit)
    else Sweep(DispatchRow(t, i), i + 1, limit - 1)
  }

  function Dispatch(t: Tables, limit: int): Tables { Sweep(t, 0, limit) }

  /** Undispatched rows have ids that are unused in the log and in other rows. */
  ghost predicate Fresh(t: Tables) {
    && (forall k :: 0 <= k < |t.log| ==> t.log[k].eventId < t.nextId)
    && (forall i :: 0 <= i < |t.outbox| && t.outbox[i].eventId.Some? ==> t.outbox[i].eventId.value < t.nextId)
    && (forall i :: 0 <= i < |t.outbox| && !t.outbox[i].dispatched && t.outbox[i].eventId.Some? ==>
          !Logged(t.log, t.outbox[i].eventId.value))
    && (forall i, j :: 0 <= i < j < |t.outbox| && t.outbox[i].eventId.Some? && t.outbox[j].eventId.Some? ==>
          t.outbox[i].eventId.value != t.outbox[j].eventId.value)
  }

  function Taken(limit: int, available: nat): nat {
    if 0 <= limit < available then limit else available
  }

  lemma {:induction false} PendingAfterWrite(outbox: seq<OutboxRow>, i: nat, row: OutboxRow, j: nat)
    requires i < j <= |outbox|
    ensures PendingFrom(outbox[i := row], j) == PendingFrom(outbox, j)
    decreases |outbox| - j
  {
    if j < |outbox| { PendingAfterWrite(outbox, i, row, j + 1); }
  }

  lemma {:induction false} PendingAppend(outbox: seq<OutboxRow>, row: OutboxRow, i: nat)
    requires i <= |outbox|
    ensures PendingFrom(outbox + [row], i) == PendingFrom(outbox, i) + (if row.dispatched then [] else [row.content])
    decreases |outbox| - i
  {
    if i < |outbox| {
      PendingAppend(outbox, row, i + 1);
    } else {
      assert PendingFrom(outbox + [row], i + 1) == [];
    }
  }

  lemma DispatchRowFresh(t: Tables, i: nat)
    requires i < |t.outbox| && Fresh(t) && !t.outbox[i].dispatched
    ensures Fresh(DispatchRow(t, i))
    ensures Contents(DispatchRow(t, i).log) == Contents(t.log) + [t.outbox[i].content]
  {
    var t' := DispatchRow(t, i);
    var row := t.outbox[i];
    var id := if row.eventId.Some? then row.eventId.value else t.nextId;
    assert !Logged(t.log, id);
    forall j | 0 <= j < |t'.outbox| && !t'.outbox[j].dispatched && t'.outbox[j].eventId.Some?
      ensures !Logged(t'.log, t'.outbox[j].eventId.value)
    {
      assert t'.outbox[j] == t.outbox[j] && !Logged(t.log, t.outbox[j].eventId.value);
      assert t.outbox[j].eventId.value != id;
    }
  }

  lemma {:induction false} SweepFrame(t: Tables, i: nat, limit: int)
    requires i <= |t.outbox|
    ensures |Sweep(t, i, limit).outbox| == |t.outbox|
    ensures forall j :: 0 <= j < i ==> Sweep(t, i, limit).outbox[j] == t.outbox[j]
    decreases |t.outbox| - i
  {
    if i < |t.outbox| && limit != 0 {
      if t.outbox[i].dispatched {
        SweepFrame(t, i + 1, limit);
      } else {
        SweepFrame(DispatchRow(t, i), i + 1, limit - 1);
      }
    }
  }

  /** `t'` is `t` with the first `k` of its contents pending from `i` on moved to the end of the log. */
  ghost predicate Moved(t: Tables, t': Tables, i: nat, k: nat) {
    && Fresh(t') && i <= |t.outbox| == |t'.outbox| && k <= |PendingFrom(t.outbox, i)|
    && Contents(t'.log) == Contents(t.log) + PendingFrom(t.outbox, i)[..k]
    && PendingFrom(t'.outbox, i) == PendingFrom(t.outbox, i)[k..]
  }

  lemma MovedAfterRow(t: Tables, t': Tables, i: nat, k: nat)
    requires i < |t.outbox| && Fresh(t) && !t.outbox[i].dispatched && Moved(DispatchRow(t, i), t', i + 1, k)
    requires t'.outbox[i] == DispatchRow(t, i).outbox[i]
    ensures Moved(t, t', i, k + 1)
  {
    var rest := PendingFrom(t.outbox, i + 1);
    DispatchRowFresh(t, i);
    PendingAfterWrite(t.outbox, i, DispatchRow(t, i).outbox[i], i + 1);
    var p := [t.outbox[i].content] + rest;
    assert p[..k + 1] == [t.outbox[i].content] + rest[..k] && p[k + 1..] == rest[k..];
  }

  lemma MovedSkip(t: Tables, t': Tables, i: nat, k: nat)
    requires i < |t.outbox| && t.outbox[i].dispatched && Moved(t, t', i + 1, k) && t'.outbox[i] == t.outbox[i]
    ensures Moved(t, t', i, k)
  {
    assert PendingFrom(t.outbox, i) == PendingFrom(t.outbox, i + 1);
    assert PendingFrom(t'.outbox, i) == PendingFrom(t'.outbox, i + 1);
  }

  lemma MovedNone(t: Tables, i: nat)
    requires i <= |t.outbox| && Fresh(t)
    ensures Moved(t, t, i, 0)
  {
    assert Contents(t.log) + [] == Contents(t.log);
  }

  /** One dispatch moves the first `limit` pending contents, in order, to the end of the log. */
  lemma {:induction false} SweepMovesPending(t: Tables, i: nat, limit: int)
    requires i <= |t.outbox| && Fresh(t)
    ensures Moved(t, Sweep(t, i, limit), i, Taken(limit, |PendingFrom(t.outbox, i)|))
    decreases |t.outbox| - i, 1
  {
    if i == |t.outbox| || limit == 0 {
      MovedNone(t, i);
    } else if t.outbox[i].dispatched {
      SweepMovesPending(t, i + 1, limit);
      SweepFrame(t, i + 1, limit);
      MovedSkip(t, Sweep(t, i + 1, limit), i, Taken(limit, |PendingFrom(t.outbox, i + 1)|));
    } else {
      SweepRow(t, DispatchRow(t, i), i, limit);
    }
  }

  lemma {:induction false} SweepRow(t: Tables, t1: Tables, i: nat, limit: int)
    requires i < |t.outbox| && Fresh(t) && !t.outbox[i].dispatched && limit != 0 && t1 == DispatchRow(t, i)
    ensures Moved(t, Sweep(t1, i + 1, limit - 1), i, Taken(limit, |PendingFrom(t.outbox, i)|))
    decreases |t.outbox| - i, 0
  {
    hide Fresh, Moved, Sweep, PendingFrom, DispatchRow;
    RowLeaves(t, i);
    SweepMovesPending(t1, i + 1, limit - 1);
    SweepFrame(t1, i + 1, limit - 1);
    MovedAfterRow(t, Sweep(t1, i + 1, limit - 1), i, Taken(limit - 1, |PendingFrom(t.outbox, i + 1)|));
  }

  /** Dispatching row `i` leaves what is pending after it. */
  lemma RowLeaves(t: Tables, i: nat)
    requires i < |t.outbox| && Fresh(t) && !t.outbox[i].dispatched
    ensures var t1 := DispatchRow(t, i);
            && Fresh(t1) && |t1.outbox| == |t.outbox| && PendingFrom(t1.outbox, i + 1) == PendingFrom(t.outbox, i + 1)
            && |PendingFrom(t.outbox, i)| == 1 + |PendingFrom(t.outbox, i + 1)|
  {
    DispatchRowFresh(t, i);
    PendingAfterWrite(t.outbox, i, DispatchRow(t, i).outbox[i], i + 1);
  }

  /** No event is in the log twice, and all ids are used ones; rows that were logged before may be waiting. */
  ghost predicate LogIsUnique(t: Tables) {
    && (forall j, k :: 0 <= j < k < |t.log| ==> t.log[j].eventId != t.log[k].eventId)
    && (forall k :: 0 <= k < |t.log| ==> t.log[k].eventId < t.nextId)
    && (forall i :: 0 <= i < |t.outbox| && t.outbox[i].eventId.Some? ==> t.outbox[i].eventId.value < t.nextId)
  }

  /** Whatever rows a dispatch finds, also several under one id or some that are in the log already, it never logs an id twice. */
  lemma {:induction false} DispatchKeepsLogUnique(t: Tables, i: nat, limit: int)
    requires i <= |t.outbox| && LogIsUnique(t)
    ensures LogIsUnique(Sweep(t, i, limit))
    decreases |t.outbox| - i
  {
    if i < |t.outbox| && limit != 0 {
      if t.outbox[i].dispatched {
        DispatchKeepsLogUnique(t, i + 1, limit);
      } else {
        DispatchKeepsLogUnique(DispatchRow(t, i), i + 1, limit - 1);
      }
    }
  }

  /** A row that is in the log already adds nothing to it, but is marked all the same: a dispatch of such rows alone
      leaves the log as it is and nothing pending. */
  lemma LoggedRowsAddNothing(t: Tables, i: nat)
    requires i <= |t.outbox|
    requires forall j :: i <= j < |t.outbox| && !t.outbox[j].dispatched ==>
                           t.outbox[j].eventId.Some? && exists k :: 0 <= k < |t.log| && t.log[k].eventId == t.outbox[j].eventId.value
    ensures Sweep(t, i, -1).log == t.log && |Sweep(t, i, -1).outbox| == |t.outbox|
    ensures PendingFrom(Sweep(t, i, -1).outbox, i) == []
  {
    LoggedRowsLeave(t, i, -1);
  }

  lemma {:induction false} LoggedRowsLeave(t: Tables, i: nat, limit: int)
    requires i <= |t.outbox| && limit < 0
    requires forall j :: i <= j < |t.outbox| && !t.outbox[j].dispatched ==>
                           t.outbox[j].eventId.Some? && Logged(t.log, t.outbox[j].eventId.value)
    ensures Sweep(t, i, limit).log == t.log && |Sweep(t, i, limit).outbox| == |t.outbox|
    ensures PendingFrom(Sweep(t, i, limit).outbox, i) == []
    decreases |t.outbox| - i
  {
    SweepFrame(t, i, limit);
    if i < |t.outbox| {
      var t1 := if t.outbox[i].dispatched then t else DispatchRow(t, i);
      var rest := if t.outbox[i].dispatched then limit else limit - 1;
      LoggedRowsLeave(t1, i + 1, rest);
      SweepFrame(t1, i + 1, rest);
    }
  }

  lemma EnqueueAddsPending(t: Tables, c: Content)
    requires Fresh(t)
    ensures Fresh(Enqueue(t, c)) && Pending(Enqueue(t, c)) == Pending(t) + [c] && Enqueue(t, c).log == t.log
  {
    PendingAppend(t.outbox, OutboxRow(Some(t.nextId), c, false), 0);
  }

  // ---- Runs ----

  datatype Step = Put(content: Content) | Flush(limit: int)

  function After(t: Tables, steps: seq<Step>): Tables {
    if steps == [] then t else
      Apply(After(t, steps[..|steps| - 1]), steps[|steps| - 1])
  }

  function Enqueued(steps: seq<Step>): seq<Content> {
    if steps == [] then [] else
      Enqueued(steps[..|steps| - 1])
      + match steps[|steps| - 1] case Put(c) => [c] case Flush(_) => []
  }

  /** Nothing is lost, duplicated or reordered: after any run of enqueues and dispatches with any
      limits, the log followed by what is still pending is what was there at the start followed by
      everything enqueued. */
  lemma {:induction false} LogThenOutboxIsHistory(t: Tables, steps: seq<Step>)
    requires Fresh(t)
    ensures Fresh(After(t, steps))
    ensures Contents(After(t, steps).log) + Pending(After(t, steps)) == Contents(t.log) + Pending(t) + Enqueued(steps)
    decreases |steps|
  {
    if steps == [] {
      assert Contents(t.log) + Pending(t) + [] == Contents(t.log) + Pending(t);
    } else {
      var before := After(t, steps[..|steps| - 1]);
      LogThenOutboxIsHistory(t, steps[..|steps| - 1]);
      StepKeepsHistory(before, steps[|steps| - 1]);
      var sofar := Enqueued(steps[..|steps| - 1]);
      var added := Enqueued([steps[|steps| - 1]]);
      assert [steps[|steps| - 1]][..0] == [];
      assert Contents(t.log) + Pending(t) + (sofar + added) == Contents(t.log) + Pending(t) + sofar + added;
    }
  }

  function Apply(t: Tables, s: Step): Tables {
    match s case Put(c) => Enqueue(t, c) case Flush(limit) => Dispatch(t, limit)
  }

  lemma DispatchKeepsHistory(t: Tables, limit: int)
    requires Fresh(t)
    ensures Fresh(Dispatch(t, limit)) && Contents(Dispatch(t, limit).log) + Pending(Dispatch(t, limit)) == Contents(t.log) + Pending(t)
  {
    SweepMovesPending(t, 0, limit);
    hide Fresh, Sweep, PendingFrom;
    var p, k := Pending(t), Taken(limit, |Pending(t)|);
    assert Contents(t.log) + p[..k] + p[k..] == Contents(t.log) + p;
  }

  lemma EnqueuedOne(s: Step)
    ensures Enqueued([s]) == match s case Put(c) => [c] case Flush(_) => []
  {
    assert [s][..0] == [] && Enqueued([s][..0]) == [];
  }

  lemma StepKeepsHistory(t: Tables, s: Step)
    requires Fresh(t)
    ensures Fresh(Apply(t, s))
    ensures Contents(Apply(t, s).log) + Pending(Apply(t, s)) == Contents(t.log) + Pending(t) + Enqueued([s])
  {
    hide Fresh, Pending, Enqueued, Dispatch, Enqueue, Contents;
    EnqueuedOne(s);
    match s
    case Put(c) =>
      EnqueueAddsPending(t, c);
      assert Contents(t.log) + (Pending(t) + [c]) == Contents(t.log) + Pending(t) + [c];
    case Flush(limit) =>
      DispatchKeepsHistory(t, limit);
      assert Contents(t.log) + Pending(t) + [] == Contents(t.log) + Pending(t);
  }

  /** Repeating a dispatch until nothing is pending; `limit` may be any non-zero batch size. */
  function DispatchAll(t: Tables, limit: int, rounds: nat): Tables
    decreases rounds
  {
    if rounds == 0 then t else DispatchAll(Dispatch(t, limit), limit, rounds - 1)
  }

  /** As many rounds as there are pending rows always empty the outbox, and the log then holds
      what a single unlimited in-memory flush would have appended. */
  lemma {:induction false} DispatchAllEqualsFlush(t: Tables, limit: int, rounds: nat)
    requires Fresh(t) && limit != 0 && rounds >= |Pending(t)|
    ensures Pending(DispatchAll(t, limit, rounds)) == []
    ensures Contents(DispatchAll(t, limit, rounds).log)
            == FlushMemory(MemoryLists(Contents(t.log), Pending(t))).events
    decreases rounds
  {
    if rounds > 0 {
      SweepMovesPending(t, 0, limit);
      var p, k := Pending(t), Taken(limit, |Pending(t)|);
      assert p == p[..k] + p[k..];
      DispatchAllEqualsFlush(Dispatch(t, limit), limit, rounds - 1);
    }
  }

  /** The durable tables as an object. */
  class DurableEvents {
    var tables: Tables

    constructor (legacy: seq<Content>)
      ensures tables.log == [] && Fresh(tables)
    {
      var rows := seq(|legacy|, i requires 0 <= i < |legacy| => OutboxRow(None, legacy[i], false));
      tables := Tables(rows, [], 0);
    }

    method EnqueueOutbox(c: Content) returns (id: nat)
      modifies this
      ensures tables == Enqueue(old(tables), c) && id == old(tables).nextId
    {
      id := tables.nextId;
      tables := Tables(tables.outbox + [OutboxRow(Some(id), c, false)], tables.log, id + 1);
    }

    /** The transaction's loop over the selected rows. */
    method DispatchOutbox(limit: int) returns (emitted: seq<Content>)
      requires Fresh(tables)
      modifies this
      ensures tables == Dispatch(old(tables), limit) && Fresh(tables)
      ensures Contents(tables.log) == Contents(old(tables).log) + emitted
      ensures emitted == Pending(old(tables))[..Taken(limit, |Pending(old(tables))|)]
      ensures Pending(tables) == Pending(old(tables))[|emitted|..]
    {
      SweepMovesPending(tables, 0, limit);
      emitted := [];
      var i, left := 0, limit;
      while i < |tables.outbox| && left != 0
        invariant i <= |tables.outbox| && Fresh(tables)
        invariant Sweep(tables, i, left) == Dispatch(old(tables), limit)
        invariant Contents(tables.log) == Contents(old(tables).log) + emitted
      {
        if !tables.outbox[i].dispatched {
          DispatchRowFresh(tables, i);
          var row := tables.outbox[i];
          emitted := emitted + [row.content];
          WriteRow(i);
          left := left - 1;
        }
        i := i + 1;
      }
      assert emitted == (Contents(old(tables).log) + emitted)[|old(tables).log|..];
    }

    method WriteRow(i: nat)
      requires i < |tables.outbox|
      modifies this
      ensures tables == DispatchRow(old(tables), i)
    {
      var row := tables.outbox[i];
      var id := if row.eventId.Some? then row.eventId.value else tables.nextId;
      var nextId := if row.eventId.Some? then tables.nextId else tables.nextId + 1;
      var log := tables.log;
      if !Logged(log, id) { log := log + [LogRow(id, row.content)]; }
      tables := Tables(tables.outbox[i := OutboxRow(Some(id), row.content, true)], log, nextId);
    }
  }

  // ---- The in-memory store ----

  datatype MemoryLists = MemoryLists(events: seq<Content>, outbox: seq<Content>)

  function FlushMemory(m: MemoryLists): MemoryLists { MemoryLists(m.events + m.outbox, []) }

  class MemoryEventStore {
    var events: seq<Content>
    var outbox: seq<Content>
    var cursors: map<Id, nat>

    constructor ()
      ensures events == [] && outbox == [] && cursors == map[]
    {
      events, outbox, cursors := [], [], map[];
    }

    method EnqueueOutbox(c: Content)
      modifies this`outbox
      ensures outbox == old(outbox) + [c]
    {
      outbox := outbox + [c];
    }

    method FlushOutbox() returns (emitted: seq<Content>)
      modifies this`events, this`outbox
      ensures events == old(events) + old(outbox) && outbox == []
      ensures MemoryLists(events, outbox) == FlushMemory(old(MemoryLists(events, outbox)))
      ensures emitted == old(outbox)
    {
      var pending := outbox;
      outbox := [];
      emitted := [];
      for i := 0 to |pending|
        invariant outbox == [] && emitted == pending[..i]
        invariant events == old(events) + pending[..i]
      {
        events := events + [pending[i]];
        emitted := emitted + [pending[i]];
      }
    }

    method ReadAfter(consumer: Id) returns (unread: seq<Content>)
      ensures unread == events[if consumer in cursors && cursors[consumer] <= |events| then cursors[consumer]
                               else if consumer in cursors then |events| else 0..]
    {
      var cursor := if consumer in cursors then cursors[consumer] else 0;
      unread := if cursor <= |events| then events[cursor..] else [];
    }

    /** Acknowledging never moves a cursor back. */
    method Ack(consumer: Id, sequence: nat)
      modifies this`cursors
      ensures consumer in cursors
      ensures cursors[consumer] == (if consumer in old(cursors) && old(cursors)[consumer] > sequence
                                    then old(cursors)[consumer] else sequence)
      ensures cursors - {consumer} == old(cursors) - {consumer}
    {
      if consumer !in cursors || sequence >= cursors[consumer] {
        cursors := cursors[consumer := sequence];
      }
    }
  }
}
