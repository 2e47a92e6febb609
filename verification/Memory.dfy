/** Durable memory and its pipelines: liandanlu_native/memory.py:71-220 and
    liandanlu_native/storage.py:615-647, 669-675, 703-812. */
module Memory {
  import opened Basics

  datatype Kind = Fact | Episode | Strategy

  /** A candidate payload; `None` marks a missing or malformed field. */
  datatype Payload = Payload(kind: Option<Kind>, key: Option<string>, scope: Option<string>, value: string,
                             confidence: Option<real>, explicitStatement: bool)

  datatype Event = Event(eventId: Id, eventType: string, actor: string, workspace: Id, payload: Payload,
                         learningAllowed: bool)

  /** Which chain of revisions a record belongs to. */
  datatype Key = Key(partition: Id, scope: string, key: string, kind: Kind)

  datatype Candidate = Candidate(key: Key, value: string, confidence: real)

  datatype Record = Record(key: Key, value: string, sources: seq<Id>, confidence: real,
                           revision: int, supersedes: Option<Id>)

  datatype Receipt = Receipt(sequence: nat, result: Option<Id>)

  /** The partition named "*". */
  const GLOBAL_PARTITION: Id := 1

  function Partition(workspace: Id, scope: string): Id { if scope == "global" then GLOBAL_PARTITION else workspace }

  /** What an event asks to be remembered, after the pipeline's and the store's checks. */
  function Accepted(e: Event): Option<Candidate> {
    var p := e.payload;
    if e.eventType != "memory.candidate" || !e.learningAllowed then None
    else if p.kind.None? || p.key.None? || p.scope.None? || p.confidence.None? then None
    else if p.key.value == "" || p.scope.value == "" then None
    else if e.workspace == EMPTY then None
    else if !(0.0 <= p.confidence.value <= 1.0) then None
    else if p.scope.value == "global" && !(p.explicitStatement && e.actor == "user") then None
    else Some(Candidate(Key(Partition(e.workspace, p.scope.value), p.scope.value, p.key.value, p.kind.value),
                        p.value, p.confidence.value))
  }

  type Records = map<Id, Record>

  /** The durable tables, for consumer "memory". Event number n of the log is `log[n - 1]`. */
  datatype Store = Store(log: seq<Event>, receipts: map<Id, Receipt>, cursor: nat, records: Records)

  ghost predicate IsLatest(records: Records, k: Key, id: Id) {
    && id in records && records[id].key == k
    && forall o :: o in records && records[o].key == k ==> records[o].revision <= records[id].revision
  }

  lemma {:induction false} LatestExists(records: Records, ids: set<Id>, k: Key) returns (id: Id)
    requires ids != {} && forall o :: o in ids ==> o in records && records[o].key == k
    ensures id in ids && forall o :: o in ids ==> records[o].revision <= records[id].revision
    decreases |ids|
  {
    id :| id in ids;
    if ids != {id} {
      assert ids - {id} != {};
      var other := LatestExists(records, ids - {id}, k);
      if records[other].revision > records[id].revision { id := other; }
    }
  }

  /** The row that `ORDER BY revision DESC LIMIT 1` finds for a key. */
  ghost function Latest(records: Records, k: Key): (r: Option<Id>)
    ensures r.None? <==> forall o :: o in records ==> records[o].key != k
    ensures r.Some? ==> IsLatest(records, k, r.value)
  {
    var ids := set o | o in records && records[o].key == k;
    if ids == {} then
      assert forall o :: o in records ==> records[o].key != k by {
        forall o | o in records ensures records[o].key != k { assert o !in ids; }
      }
      None
    else
      assert exists id :: IsLatest(records, k, id) by {
        var id := LatestExists(records, ids, k);
        assert id in ids;
        assert IsLatest(records, k, id);
      }
      var id :| IsLatest(records, k, id);
      Some(id)
  }

  function Max(a: nat, b: nat): nat { if a > b then a else b }

  function WithReceipt(s: Store, e: Event, n: nat, result: Option<Id>): Store {
    s.(receipts := if e.eventId in s.receipts then s.receipts else s.receipts[e.eventId := Receipt(n, result)],
       cursor := Max(s.cursor, n))
  }

  ghost function NextRecord(s: Store, e: Event, c: Candidate): Record {
    var previous := Latest(s.records, c.key);
    Record(c.key, c.value, [e.eventId], c.confidence,
           if previous.None? then 1 else s.records[previous.value].revision + 1, previous)
  }

  /** One process_memory_event transaction on event number `n`; `newId` is the id `new_id` gives. */
  ghost function Process(s: Store, e: Event, n: nat, c: Option<Candidate>, newId: Id): Store {
    if e.eventId in s.receipts then s
    else if c.None? then WithReceipt(s, e, n, None)
    else WithReceipt(s.(records := s.records[newId := NextRecord(s, e, c.value)]), e, n, Some(newId))
  }

  /** The record that the transaction returns. */
  ghost function Result(s: Store, e: Event, n: nat, c: Option<Candidate>, newId: Id): Option<Id> {
    if e.eventId in s.receipts then
      var ref := s.receipts[e.eventId].result;
      if ref.Some? && ref.value in s.records then ref else None
    else if c.None? then None
    else Some(newId)
  }

  // ---- What holds in every reachable store ----

  ghost predicate DistinctIds(log: seq<Event>) {
    forall i, j :: 0 <= i < j < |log| ==> log[i].eventId != log[j].eventId
  }

  /** Every event up to number `n` has been dealt with. */
  ghost predicate Covered(s: Store, n: nat) {
    n <= |s.log| && forall i :: 0 <= i < n ==> s.log[i].eventId in s.receipts
  }

  /** A record names the one event it came from, and that event's receipt names the record. */
  ghost predicate Traced(s: Store) {
    forall id :: id in s.records ==>
      && |s.records[id].sources| == 1
      && s.records[id].sources[0] in s.receipts
      && s.receipts[s.records[id].sources[0]].result == Some(id)
  }

  ghost predicate ReceiptsResolve(s: Store) {
    forall e :: e in s.receipts && s.receipts[e].result.Some? ==>
      s.receipts[e].result.value in s.records && s.records[s.receipts[e].result.value].sources == [e]
  }

  /** Revisions of a key are numbered without repetition and each supersedes the one before. */
  ghost predicate Chained(records: Records) {
    && (forall a, b :: (a in records && b in records && records[a].key == records[b].key
                        && records[a].revision == records[b].revision) ==> a == b)
    && (forall a {:trigger Links(records, a)} :: a in records ==> Links(records, a))
  }

  ghost predicate Links(records: Records, a: Id)
    requires a in records
  {
    var r := records[a];
    && r.revision >= 1
    && (r.revision == 1 ==> r.supersedes.None?)
    && (r.revision > 1 ==>
          && r.supersedes.Some? && r.supersedes.value in records
          && records[r.supersedes.value].key == r.key
          && records[r.supersedes.value].revision == r.revision - 1)
  }

  ghost predicate Sound(s: Store) {
    && DistinctIds(s.log) && Covered(s, s.cursor) && Traced(s) && ReceiptsResolve(s) && Chained(s.records)
  }

  lemma ChainGrows(s: Store, e: Event, c: Candidate, newId: Id)
    requires Chained(s.records) && newId !in s.records
    ensures Chained(s.records[newId := NextRecord(s, e, c)])
  {
    var r := NextRecord(s, e, c);
    var records' := s.records[newId := r];
    var previous := Latest(s.records, c.key);
    forall a | a in records' ensures Links(records', a) {
      if a == newId {
        if previous.Some? {
          assert Links(s.records, previous.value);
          assert records'[previous.value] == s.records[previous.value];
        }
      } else {
        assert Links(s.records, a);
        var was := s.records[a];
        if was.revision > 1 { assert records'[was.supersedes.value] == s.records[was.supersedes.value]; }
      }
    }
    forall a, b | a in records' && b in records' && records'[a].key == records'[b].key
                  && records'[a].revision == records'[b].revision
      ensures a == b
    {
    }
  }

  lemma ProcessKeepsTraces(s: Store, e: Event, n: nat, c: Option<Candidate>, newId: Id)
    requires Traced(s) && ReceiptsResolve(s) && newId !in s.records
    ensures Traced(Process(s, e, n, c, newId)) && ReceiptsResolve(Process(s, e, n, c, newId))
  {
  }

  /** Processing event `n` in turn, that is with all earlier events dealt with, keeps the store sound. */
  lemma ProcessSound(s: Store, n: nat, c: Option<Candidate>, newId: Id)
    requires Sound(s) && 1 <= n <= |s.log| && Covered(s, n - 1) && newId !in s.records
    ensures Sound(Process(s, s.log[n - 1], n, c, newId))
    ensures Covered(Process(s, s.log[n - 1], n, c, newId), n)
  {
    var e := s.log[n - 1];
    ProcessKeepsTraces(s, e, n, c, newId);
    if e.eventId !in s.receipts && c.Some? { ChainGrows(s, e, c.value, newId); }
  }

  /** Out of turn it is not safe: processing event `n` keeps "everything at or below the cursor has a
      receipt" exactly when the event already has a receipt or every earlier event has one. */
  lemma ProcessKeepsCoverageIff(s: Store, n: nat, c: Option<Candidate>, newId: Id)
    requires DistinctIds(s.log) && Covered(s, s.cursor) && 1 <= n <= |s.log|
    ensures var s' := Process(s, s.log[n - 1], n, c, newId);
            Covered(s', s'.cursor) <==> (s.log[n - 1].eventId in s.receipts || Covered(s, n - 1))
  {
    var e := s.log[n - 1];
    var s' := Process(s, e, n, c, newId);
    if e.eventId !in s.receipts && Covered(s', s'.cursor) {
      forall i | 0 <= i < n - 1 ensures s.log[i].eventId in s.receipts {
        assert s'.log[i].eventId in s'.receipts;
        assert s.log[i].eventId != e.eventId;
      }
    }
  }

  /** A concrete failure: with two events in the log, processing the second one first takes the cursor past
      the first, which has no receipt. */
  lemma OutOfTurnLosesCoverage(s: Store)
    requires s == Store([Plain(10), Plain(11)], map[], 0, map[])
    ensures Sound(s) && Process(s, s.log[1], 2, None, 0).cursor == 2
    ensures !Covered(Process(s, s.log[1], 2, None, 0), 2)
  {
    var s' := Process(s, s.log[1], 2, None, 0);
    assert s'.log[0].eventId !in s'.receipts;
  }

  // ---- Interleaved pipelines ----

  /** Where a pipeline stands with event number `next` of a batch that ends at number `last`. */
  datatype Stage = Working | Retrying | Acknowledging | Writing

  datatype Pipeline = Pipeline(next: nat, last: nat, stage: Stage)

  datatype System = System(store: Store, pipelines: map<Id, Pipeline>)

  datatype Action =
    | Append(event: Event)                       // a dispatch puts one more event into the log
    | Start(p: Id, last: nat)                    // read_after: events cursor+1 .. last
    | Work(p: Id, newId: Id)                     // commit or process_ignored_event
    | Retry(p: Id, newId: Id)                    // process_ignored_event after a commit that returned nothing
    | AckRead(p: Id)                             // ack: read the cursor and compare
    | AckWrite(p: Id)                            // ack: write the cursor
    | Stop(p: Id)                                // the batch is finished, or the process crashed

  ghost predicate Enabled(y: System, a: Action) {
    var s := y.store;
    match a
    case Append(e) => forall i :: 0 <= i < |s.log| ==> s.log[i].eventId != e.eventId
    case Start(p, last) => p !in y.pipelines && s.cursor <= last <= |s.log|
    case Work(p, newId) => At(y, p, Working) && newId !in s.records
    case Retry(p, newId) => At(y, p, Retrying) && newId !in s.records
    case AckRead(p) => At(y, p, Acknowledging)
    case AckWrite(p) => At(y, p, Writing)
    case Stop(p) => p in y.pipelines
  }

  ghost predicate At(y: System, p: Id, stage: Stage) {
    p in y.pipelines && y.pipelines[p].stage == stage
    && 1 <= y.pipelines[p].next <= y.pipelines[p].last <= |y.store.log|
  }

  function Current(y: System, p: Id): Event
    requires p in y.pipelines && 1 <= y.pipelines[p].next <= |y.store.log|
  {
    y.store.log[y.pipelines[p].next - 1]
  }

  function Goto(y: System, p: Id, q: Pipeline): System { y.(pipelines := y.pipelines[p := q]) }

  ghost function Step(y: System, a: Action): System
    requires Enabled(y, a)
  {
    var s := y.store;
    match a
    case Append(e) => y.(store := s.(log := s.log + [e]))
    case Start(p, last) => Goto(y, p, Pipeline(s.cursor + 1, last, Working))
    case Work(p, newId) =>
      var q, e := y.pipelines[p], Current(y, p);
      var result := Result(s, e, q.next, Accepted(e), newId);
      Goto(y.(store := Process(s, e, q.next, Accepted(e), newId)), p,
           q.(stage := if Accepted(e).Some? && result.None? then Retrying else Acknowledging))
    case Retry(p, newId) =>
      var q, e := y.pipelines[p], Current(y, p);
      Goto(y.(store := Process(s, e, q.next, None, newId)), p, q.(stage := Acknowledging))
    case AckRead(p) =>
      var q := y.pipelines[p];
      if q.next < s.cursor then Goto(y, p, Pipeline(q.next + 1, q.last, Working))
      else Goto(y, p, q.(stage := Writing))
    case AckWrite(p) =>
      var q := y.pipelines[p];
      Goto(y.(store := s.(cursor := q.next)), p, Pipeline(q.next + 1, q.last, Working))
    case Stop(p) => y.(pipelines := y.pipelines - {p})
  }

  /** Any number of pipelines over the same log, interleaved step by step, with events arriving and
      pipelines crashing at any point. */
  ghost predicate IsRun(ys: seq<System>, acts: seq<Action>) {
    && |ys| == |acts| + 1 && ys[0] == System(Store([], map[], 0, map[]), map[])
    && forall i :: 0 <= i < |acts| ==> Enabled(ys[i], acts[i]) && ys[i + 1] == Step(ys[i], acts[i])
  }

  /** A pipeline has dealt with everything before its current event, and with that event once it acknowledges. */
  ghost predicate InTurn(s: Store, q: Pipeline) {
    && q.next >= 1 && q.last <= |s.log| && q.next <= q.last + 1
    && Covered(s, if q.stage.Working? then q.next - 1 else if q.next <= |s.log| then q.next else q.next - 1)
    && (!q.stage.Working? ==> q.next <= q.last)
  }

  ghost predicate Inv(y: System) {
    Sound(y.store) && forall p :: p in y.pipelines ==> InTurn(y.store, y.pipelines[p])
  }

  lemma CoverageGrows(s: Store, s': Store, n: nat)
    requires Covered(s, n) && s.log <= s'.log && s.receipts.Keys <= s'.receipts.Keys
    ensures Covered(s', n)
  {
  }

  lemma InTurnStays(s: Store, s': Store, pipelines: map<Id, Pipeline>)
    requires s.log <= s'.log && s.receipts.Keys <= s'.receipts.Keys
    requires forall p :: p in pipelines ==> InTurn(s, pipelines[p])
    ensures forall p :: p in pipelines ==> InTurn(s', pipelines[p])
  {
  }

  lemma AppendKeepsInv(y: System, e: Event)
    requires Inv(y) && Enabled(y, Append(e))
    ensures Inv(Step(y, Append(e)))
  {
    var s, s' := y.store, Step(y, Append(e)).store;
    InTurnStays(s, s', y.pipelines);
    CoverageGrows(s, s', s.cursor);
  }

  lemma ProcessingKeepsInv(y: System, p: Id, c: Option<Candidate>, newId: Id, stage: Stage)
    requires Inv(y) && p in y.pipelines && newId !in y.store.records && !stage.Working?
    requires 1 <= y.pipelines[p].next <= y.pipelines[p].last
    ensures Inv(Goto(y.(store := Process(y.store, Current(y, p), y.pipelines[p].next, c, newId)), p,
                     y.pipelines[p].(stage := stage)))
  {
    var s, n := y.store, y.pipelines[p].next;
    if !Covered(s, n - 1) { CoverageGrows(s, s, n); }
    ProcessSound(s, n, c, newId);
    InTurnStays(s, Process(s, Current(y, p), n, c, newId), y.pipelines);
  }

  lemma StepKeepsInv(y: System, a: Action)
    requires Inv(y) && Enabled(y, a)
    ensures Inv(Step(y, a))
  {
    match a
    case Append(e) => AppendKeepsInv(y, e);
    case Start(_, _) =>
    case Work(p, newId) =>
      var e := Current(y, p);
      var result := Result(y.store, e, y.pipelines[p].next, Accepted(e), newId);
      ProcessingKeepsInv(y, p, Accepted(e), newId, if Accepted(e).Some? && result.None? then Retrying else Acknowledging);
    case Retry(p, newId) => ProcessingKeepsInv(y, p, None, newId, Acknowledging);
    case AckRead(_) =>
    case AckWrite(p) => AckWriteKeepsInv(y, p);
    case Stop(_) =>
  }

  lemma AckWriteKeepsInv(y: System, p: Id)
    requires Inv(y) && Enabled(y, AckWrite(p))
    ensures Inv(Step(y, AckWrite(p)))
  {
    var s, s' := y.store, Step(y, AckWrite(p)).store;
    InTurnStays(s, s', y.pipelines);
    CoverageGrows(s, s', s'.cursor);
    assert Traced(s') && ReceiptsResolve(s');
  }

  lemma {:induction false} RunKeepsInv(ys: seq<System>, acts: seq<Action>, i: nat)
    requires IsRun(ys, acts) && i < |ys|
    ensures Inv(ys[i])
  {
    if i > 0 {
      RunKeepsInv(ys, acts, i - 1);
      StepKeepsInv(ys[i - 1], acts[i - 1]);
    }
  }

  /** At every point of every run: all events at or below the memory cursor have receipts; no event
      has produced two records; and every key's revisions are chained. */
  lemma PipelinesAreSafe(ys: seq<System>, acts: seq<Action>, i: nat)
    requires IsRun(ys, acts) && i < |ys|
    ensures var s := ys[i].store;
            && s.cursor <= |s.log|
            && (forall n :: 0 <= n < s.cursor ==> s.log[n].eventId in s.receipts)
            && (forall a, b, e :: (a in s.records && b in s.records
                                   && e in s.records[a].sources && e in s.records[b].sources) ==> a == b)
            && Chained(s.records)
  {
    RunKeepsInv(ys, acts, i);
    var s := ys[i].store;
    forall a, b, e | a in s.records && b in s.records && e in s.records[a].sources && e in s.records[b].sources
      ensures a == b
    {
      assert s.records[a].sources[0] == e && s.records[b].sources[0] == e;
    }
  }

  ghost predicate Extends(s: Store, s': Store) {
    && (forall e :: e in s.receipts ==> e in s'.receipts && s'.receipts[e] == s.receipts[e])
    && (forall r :: r in s.records ==> r in s'.records && s'.records[r] == s.records[r])
  }

  lemma StepExtends(y: System, a: Action)
    requires Enabled(y, a)
    ensures Extends(y.store, Step(y, a).store)
  {
    hide Accepted, NextRecord;
  }

  /** Receipts and records, once written, never change. */
  lemma {:induction false} NothingIsRewritten(ys: seq<System>, acts: seq<Action>, i: nat, j: nat)
    requires IsRun(ys, acts) && i <= j < |ys|
    ensures Extends(ys[i].store, ys[j].store)
    decreases j
  {
    hide Enabled, Step, Extends;
    if i < j {
      NothingIsRewritten(ys, acts, i, j - 1);
      StepExtends(ys[j - 1], acts[j - 1]);
      ExtendsIsTransitive(ys[i].store, ys[j - 1].store, ys[j].store);
    } else {
      SelfExtends(ys[i].store);
    }
  }

  lemma SelfExtends(s: Store)
    ensures Extends(s, s)
  {
  }

  lemma ExtendsIsTransitive(a: Store, b: Store, c: Store)
    requires Extends(a, b) && Extends(b, c)
    ensures Extends(a, c)
  {
  }

  /** Replay: if event `e` was first processed by some pipeline at step `i` of a run, then processing it
      again at any later point, with any candidate, changes nothing and returns the same record. */
  lemma ReplayReturnsFirstResult(ys: seq<System>, acts: seq<Action>, i: nat, j: nat, e: Event, n: nat, c: Option<Candidate>, newId: Id)
    requires IsRun(ys, acts) && i < j < |ys| && acts[i].Work?
    requires Current(ys[i], acts[i].p) == e && n == ys[i].pipelines[acts[i].p].next
    ensures Process(ys[j].store, e, n, c, newId) == ys[j].store
    ensures Result(ys[j].store, e, n, c, newId) == Result(ys[i].store, e, n, Accepted(e), acts[i].newId)
  {
    assert ys[i + 1] == Step(ys[i], acts[i]);
    NothingIsRewritten(ys, acts, i + 1, j);
    RunKeepsInv(ys, acts, i);
    RunKeepsInv(ys, acts, i + 1);
  }

  // ---- The cursor is not monotone ----

  /** The pipeline that takes a step, if any. */
  function Actor(a: Action): Option<Id> {
    match a
    case Append(_) => None
    case Start(p, _) => Some(p)
    case Work(p, _) => Some(p)
    case Retry(p, _) => Some(p)
    case AckRead(p) => Some(p)
    case AckWrite(p) => Some(p)
    case Stop(p) => Some(p)
  }

  /** Pipeline `p` compared event `n` with the cursor at step `k` and has done nothing since. */
  ghost predicate HasRead(ys: seq<System>, acts: seq<Action>, i: nat, p: Id, n: nat, k: nat)
    requires |ys| == |acts| + 1 && i < |ys|
  {
    && k < i && acts[k] == AckRead(p) && ys[k + 1].store.cursor <= n
    && forall j :: k < j < i ==> Actor(acts[j]) != Some(p)
  }

  /** At step `m` another pipeline took the cursor past `n`, by processing or acknowledging a later event, and
      no acknowledgement since wrote `n` or less. */
  ghost predicate Overtakes(ys: seq<System>, acts: seq<Action>, i: nat, p: Id, n: nat, m: nat)
    requires |ys| == |acts| + 1 && i < |ys|
  {
    && m < i && (acts[m].Work? || acts[m].AckWrite?) && acts[m].p != p
    && ys[m].store.cursor <= n < ys[m + 1].store.cursor
    && forall j :: m < j < i && acts[j].AckWrite? ==> acts[j].p in ys[j].pipelines && ys[j].pipelines[acts[j].p].next > n
  }

  /** Between its read and its write at step `i`, pipeline `p` was overtaken on event `n`. */
  ghost predicate Overtaken(ys: seq<System>, acts: seq<Action>, i: nat, p: Id, n: nat)
    requires |ys| == |acts| + 1 && i < |ys|
  {
    exists k, m :: k < m && HasRead(ys, acts, i, p, n, k) && Overtakes(ys, acts, i, p, n, m)
  }

  /** Only the write of an acknowledgement can lower the cursor, and only processing an event for the first
      time or such a write can raise it. */
  lemma CursorStep(y: System, a: Action)
    requires Inv(y) && Enabled(y, a)
    ensures !a.AckWrite? ==> Step(y, a).store.cursor >= y.store.cursor
    ensures !a.AckWrite? && !a.Work? ==> Step(y, a).store.cursor == y.store.cursor
    ensures a.AckWrite? ==> Step(y, a).store.cursor == y.pipelines[a.p].next
  {
    hide Accepted, NextRecord, Sound;
    if a.Retry? { assert InTurn(y.store, y.pipelines[a.p]); }
  }

  lemma OthersStayPut(y: System, a: Action, p: Id)
    requires Enabled(y, a) && Actor(a) != Some(p)
    ensures p in Step(y, a).pipelines <==> p in y.pipelines
    ensures p in y.pipelines ==> Step(y, a).pipelines[p] == y.pipelines[p]
  {
    hide Accepted, NextRecord, Process, Result;
  }

  lemma BeginsWriting(y: System, a: Action, p: Id)
    requires Enabled(y, a) && Actor(a) == Some(p)
    requires p in Step(y, a).pipelines && Step(y, a).pipelines[p].stage.Writing?
    ensures a == AckRead(p) && Step(y, a).store.cursor <= Step(y, a).pipelines[p].next
  {
    hide Accepted, NextRecord, Process, Result;
  }

  /** A pipeline that is about to write has read, and has done nothing since. */
  lemma {:induction false} WriterHasRead(ys: seq<System>, acts: seq<Action>, i: nat, p: Id) returns (k: nat)
    requires IsRun(ys, acts) && i < |ys| && p in ys[i].pipelines && ys[i].pipelines[p].stage.Writing?
    ensures HasRead(ys, acts, i, p, ys[i].pipelines[p].next, k)
  {
    hide Enabled, Step;
    var y, a := ys[i - 1], acts[i - 1];
    if Actor(a) == Some(p) {
      BeginsWriting(y, a, p);
      k := i - 1;
    } else {
      OthersStayPut(y, a, p);
      k := WriterHasRead(ys, acts, i - 1, p);
    }
  }

  /** A cursor that gets from `n` or below to above it does so in one last step. */
  lemma {:induction false} LastCrossing(ys: seq<System>, lo: nat, hi: nat, n: nat) returns (m: nat)
    requires lo <= hi < |ys| && ys[lo].store.cursor <= n < ys[hi].store.cursor
    ensures lo <= m < hi && ys[m].store.cursor <= n
    ensures forall j :: m < j <= hi ==> ys[j].store.cursor > n
    decreases hi
  {
    if ys[hi - 1].store.cursor <= n { m := hi - 1; } else { m := LastCrossing(ys, lo, hi - 1, n); }
  }

  lemma {:induction false} StaysPast(ys: seq<System>, acts: seq<Action>, m: nat, i: nat, p: Id, n: nat)
    requires IsRun(ys, acts) && m < i < |ys| && Overtakes(ys, acts, i, p, n, m)
    ensures ys[i].store.cursor > n
    decreases i
  {
    hide Enabled, Step, Inv;
    if m + 1 < i {
      StaysPast(ys, acts, m, i - 1, p, n);
      RunKeepsInv(ys, acts, i - 1);
      CursorStep(ys[i - 1], acts[i - 1]);
    }
  }

  lemma WritesAfterCrossing(ys: seq<System>, acts: seq<Action>, i: nat, n: nat, m: nat, j: nat)
    requires IsRun(ys, acts) && i < |ys| && m < j < i && acts[j].AckWrite?
    requires forall x :: m < x <= i ==> ys[x].store.cursor > n
    ensures acts[j].p in ys[j].pipelines && ys[j].pipelines[acts[j].p].next > n
  {
    hide Step, Inv;
    RunKeepsInv(ys, acts, j);
    CursorStep(ys[j], acts[j]);
    assert ys[j + 1].store.cursor > n;
  }

  /** Acknowledging reads and writes in two steps, so the cursor can go down. In any run it goes down at a
      step exactly when that step is the write of a pipeline which, since its read, another pipeline has
      overtaken. Coverage survives even so. */
  lemma CursorGoesDownIff(ys: seq<System>, acts: seq<Action>, i: nat)
    requires IsRun(ys, acts) && i < |acts|
    ensures ys[i + 1].store.cursor < ys[i].store.cursor
            <==> (&& acts[i].AckWrite? && acts[i].p in ys[i].pipelines
                  && Overtaken(ys, acts, i, acts[i].p, ys[i].pipelines[acts[i].p].next))
    ensures Covered(ys[i + 1].store, ys[i + 1].store.cursor)
  {
    RunKeepsInv(ys, acts, i + 1);
    assert Covered(ys[i + 1].store, ys[i + 1].store.cursor);
    RunKeepsInv(ys, acts, i);
    hide Step, Inv;
    CursorStep(ys[i], acts[i]);
    if acts[i].AckWrite? {
      var p := acts[i].p;
      var n := ys[i].pipelines[p].next;
      if ys[i + 1].store.cursor < ys[i].store.cursor {
        OvertakenIfPast(ys, acts, i, p);
      }
      if Overtaken(ys, acts, i, p, n) {
        var k, m :| k < m && HasRead(ys, acts, i, p, n, k) && Overtakes(ys, acts, i, p, n, m);
        StaysPast(ys, acts, m, i, p, n);
      }
    }
  }

  lemma OvertakenIfPast(ys: seq<System>, acts: seq<Action>, i: nat, p: Id)
    requires IsRun(ys, acts) && i < |ys| && p in ys[i].pipelines && ys[i].pipelines[p].stage.Writing?
    requires ys[i].pipelines[p].next < ys[i].store.cursor
    ensures Overtaken(ys, acts, i, p, ys[i].pipelines[p].next)
  {
    hide Enabled, Step, Inv;
    var n := ys[i].pipelines[p].next;
    var k := WriterHasRead(ys, acts, i, p);
    var m := LastCrossing(ys, k + 1, i, n);
    RunKeepsInv(ys, acts, m);
    CursorStep(ys[m], acts[m]);
    assert Actor(acts[m]) != Some(p);
    forall j | m < j < i && acts[j].AckWrite?
      ensures acts[j].p in ys[j].pipelines && ys[j].pipelines[acts[j].p].next > n
    {
      WritesAfterCrossing(ys, acts, i, n, m, j);
    }
    assert Overtakes(ys, acts, i, p, n, m);
  }

  function Plain(id: Id): Event {
    Event(id, "task.created", "engine", 2, Payload(None, None, None, "", None, false), true)
  }

  lemma PlainIsIgnored(id: Id)
    ensures Accepted(Plain(id)).None?
  {
  }

  /** Such a run: two events arrive, pipeline 1 processes the first and reads the cursor, pipeline 2 then
      processes the second, and the write of pipeline 1 takes the cursor from 2 back to 1. */
  lemma CursorGoesDown() returns (ys: seq<System>, acts: seq<Action>)
    ensures IsRun(ys, acts) && |acts| == 8
    ensures ys[7].store.cursor == 2 && ys[8].store.cursor == 1
  {
    hide Accepted, NextRecord, Latest, Sound;
    PlainIsIgnored(10);
    PlainIsIgnored(11);
    var e1, e2 := Plain(10), Plain(11);
    acts := [Append(e1), Append(e2), Start(1, 2), Work(1, 0), AckRead(1), Start(2, 2), Work(2, 0), AckWrite(1)];
    var empty, half, full := Store([], map[], 0, map[]), Store([e1], map[], 0, map[]), Store([e1, e2], map[], 0, map[]);
    var one := full.(receipts := map[10 := Receipt(1, None)], cursor := 1);
    var both := full.(receipts := map[10 := Receipt(1, None), 11 := Receipt(2, None)], cursor := 2);
    var w := Pipeline(1, 2, Writing);
    ys := [System(empty, map[]), System(half, map[]), System(full, map[]),
           System(full, map[1 := Pipeline(1, 2, Working)]), System(one, map[1 := Pipeline(1, 2, Acknowledging)]),
           System(one, map[1 := w]), System(one, map[1 := w, 2 := Pipeline(2, 2, Working)]),
           System(both, map[1 := w, 2 := Pipeline(2, 2, Acknowledging)]),
           System(both.(cursor := 1), map[1 := Pipeline(2, 2, Working), 2 := Pipeline(2, 2, Acknowledging)])];
    forall i | 0 <= i < |acts| ensures Enabled(ys[i], acts[i]) && ys[i + 1] == Step(ys[i], acts[i]) {
      if i == 0 { assert [] + [e1] == [e1]; }
      if i == 1 { assert [e1] + [e2] == [e1, e2]; }
    }
  }

  // ---- Revisions ----

  ghost predicate HasRevision(records: Records, k: Key, n: int) {
    exists id :: id in records && records[id].key == k && records[id].revision == n
  }

  lemma {:induction false} EarlierRevisionsExist(records: Records, id: Id, n: int)
    requires Chained(records) && id in records && 1 <= n <= records[id].revision
    ensures HasRevision(records, records[id].key, n)
    decreases records[id].revision - n
  {
    assert Links(records, id);
    if n < records[id].revision {
      EarlierRevisionsExist(records, records[id].supersedes.value, n);
    }
  }

  /** The revisions of a key are exactly 1 .. n, where n is the latest one. */
  lemma RevisionsAreConsecutive(records: Records, k: Key, n: int)
    requires Chained(records) && Latest(records, k).Some?
    ensures HasRevision(records, k, n) <==> 1 <= n <= records[Latest(records, k).value].revision
  {
    var top := Latest(records, k).value;
    if HasRevision(records, k, n) {
      var id :| id in records && records[id].key == k && records[id].revision == n;
      assert Links(records, id);
    }
    if 1 <= n <= records[top].revision { EarlierRevisionsExist(records, top, n); }
  }

  // ---- Rebuilding the in-memory index ----

  /** `rows` lists each record once, in some order. */
  ghost predicate Loads(rows: seq<(Id, Record)>, records: Records) {
    && (forall i :: 0 <= i < |rows| ==> rows[i].0 in records && records[rows[i].0] == rows[i].1)
    && (forall i, j :: 0 <= i < j < |rows| ==> rows[i].0 != rows[j].0)
    && (forall id :: id in records ==> exists i :: 0 <= i < |rows| && rows[i].0 == id)
  }

  /** The index knows exactly the keys of the records and points at a last revision for each. */
  ghost predicate Indexed(records: Records, latestByKey: map<Key, Id>) {
    && (forall id :: id in records ==> records[id].key in latestByKey)
    && (forall k :: k in latestByKey ==> IsLatest(records, k, latestByKey[k]))
  }

  function IndexAfter(records: Records, latestByKey: map<Key, Id>, id: Id, record: Record): map<Key, Id>
    requires forall k :: k in latestByKey ==> latestByKey[k] in records
  {
    if record.key !in latestByKey || record.revision > records[latestByKey[record.key]].revision
    then latestByKey[record.key := id] else latestByKey
  }

  lemma IndexGrows(records: Records, latestByKey: map<Key, Id>, id: Id, record: Record)
    requires Indexed(records, latestByKey) && id !in records
    ensures Indexed(records[id := record], IndexAfter(records, latestByKey, id, record))
  {
    var records', m := records[id := record], IndexAfter(records, latestByKey, id, record);
    assert forall o :: o in records ==> records'[o] == records[o];
    forall k | k in m ensures IsLatest(records', k, m[k]) {
      if k in latestByKey { assert IsLatest(records, k, latestByKey[k]); }
    }
  }

  /** An index of chained records maps each key to its last revision, and is therefore the same for
      every load order. */
  lemma IndexIsLatest(records: Records, latestByKey: map<Key, Id>, k: Key)
    requires Chained(records) && Indexed(records, latestByKey)
    ensures (if k in latestByKey then Some(latestByKey[k]) else None) == Latest(records, k)
  {
    if k in latestByKey { LatestUnique(records, k, latestByKey[k]); }
  }

  method IndexRows(rows: seq<(Id, Record)>, ghost durable: Records) returns (records: Records, latestByKey: map<Key, Id>)
    requires Loads(rows, durable)
    ensures records == durable && Indexed(records, latestByKey)
  {
    records, latestByKey := map[], map[];
    for i := 0 to |rows|
      invariant records == Loaded(rows, i)
      invariant Indexed(records, latestByKey)
    {
      var (id, record) := rows[i];
      LoadedIds(rows, i, id);
      IndexGrows(records, latestByKey, id, record);
      if record.key !in latestByKey || record.revision > records[latestByKey[record.key]].revision {
        latestByKey := latestByKey[record.key := id];
      }
      records := records[id := record];
    }
    LoadedAll(rows, durable);
  }

  function Loaded(rows: seq<(Id, Record)>, n: nat): Records
    requires n <= |rows|
  {
    if n == 0 then map[] else Loaded(rows, n - 1)[rows[n - 1].0 := rows[n - 1].1]
  }

  lemma {:induction false} LoadedIds(rows: seq<(Id, Record)>, n: nat, id: Id)
    requires n <= |rows|
    ensures id in Loaded(rows, n) <==> exists i :: 0 <= i < n && rows[i].0 == id
  {
    if n > 0 { LoadedIds(rows, n - 1, id); }
  }

  lemma {:induction false} LoadedValues(rows: seq<(Id, Record)>, n: nat, durable: Records)
    requires Loads(rows, durable) && n <= |rows|
    ensures forall id :: id in Loaded(rows, n) ==> id in durable && Loaded(rows, n)[id] == durable[id]
  {
    if n > 0 { LoadedValues(rows, n - 1, durable); }
  }

  lemma LoadedAll(rows: seq<(Id, Record)>, durable: Records)
    requires Loads(rows, durable)
    ensures Loaded(rows, |rows|) == durable
  {
    LoadedValues(rows, |rows|, durable);
    forall id ensures id in Loaded(rows, |rows|) <==> id in durable { LoadedIds(rows, |rows|, id); }
  }

  class MemoryStore {
    var records: Records
    var latestByKey: map<Key, Id>

    /** Whatever order the rows come in, the index is right for the whole table. */
    constructor FromPersistence(rows: seq<(Id, Record)>, ghost durable: Records)
      requires Loads(rows, durable)
      ensures records == durable && Indexed(records, latestByKey)
    {
      var loaded, latest := IndexRows(rows, durable);
      records, latestByKey := loaded, latest;
    }

    /** With a right index this is the last revision of the key in the asker's partition, if there is any. */
    method LatestRecord(workspace: Id, scope: string, key: string, kind: Kind) returns (r: Option<Record>)
      ensures var k := Key(Partition(workspace, scope), scope, key, kind);
              r == if k in latestByKey && latestByKey[k] in records then Some(records[latestByKey[k]]) else None
      ensures Right(records, latestByKey) ==>
                var k := Key(Partition(workspace, scope), scope, key, kind);
                && (r.None? <==> forall id :: id in records ==> records[id].key != k)
                && (r.Some? ==> r.value.key == k && forall id :: id in records && records[id].key == k ==>
                                                                   records[id].revision <= r.value.revision)
    {
      var k := Key(if scope == "global" then GLOBAL_PARTITION else workspace, scope, key, kind);
      assert Right(records, latestByKey) ==> (if k in latestByKey then Some(latestByKey[k]) else None) == Latest(records, k);
      if k in latestByKey && latestByKey[k] in records { return Some(records[latestByKey[k]]); }
      return None;
    }

    /** Caching a record makes it the latest of its key. A right index stays right by that exactly when the
        record is the last revision of its key. */
    method Remember(id: Id, record: Record)
      modifies this
      ensures records == old(records)[id := record] && latestByKey == old(latestByKey)[record.key := id]
      ensures Chained(records) && old(Right(records, latestByKey)) && (id in old(records) ==> old(records)[id] == record) ==>
                (Right(records, latestByKey) <==> IsLatest(records, record.key, id))
    {
      if Chained(records[id := record]) && Right(records, latestByKey) && (id in records ==> records[id] == record) {
        RememberKeepsIndexIff(records, latestByKey, id, record);
      }
      records := records[id := record];
      latestByKey := latestByKey[record.key := id];
    }

    /** commit for a source event: the durable transaction, then the cache. A cache that held the records of the
        table still does, and a right index stays right exactly when the event was new or ignored or its record
        is the last of its key. */
    method Commit(durable: DurableMemory, e: Event, n: nat, c: Candidate, newId: Id) returns (r: Option<Id>)
      requires Chained(durable.store.records) && newId !in durable.store.records
      modifies this, durable
      ensures durable.store == Process(old(durable.store), e, n, Some(c), newId)
      ensures r == Result(old(durable.store), e, n, Some(c), newId)
      ensures latestByKey == IndexAfterCommit(old(durable.store), old(latestByKey), e, n, c, newId)
      ensures Chained(durable.store.records) && (old(records == durable.store.records) ==> records == durable.store.records)
      ensures old(Right(durable.store.records, latestByKey)) ==>
                (Right(durable.store.records, latestByKey) <==> KeepsRight(old(durable.store), e))
    {
      hide Process, Result, Right, Chained, KeepsRight, IsLatest;
      CommitKeepsChain(durable.store, e, n, c, newId);
      CommitWrites(durable.store, e, n, c, newId);
      if Right(durable.store.records, latestByKey) { CommitKeepsIndexIff(durable.store, latestByKey, e, n, c, newId); }
      r := durable.ProcessEvent(e, n, Some(c), newId);
      if r.Some? {
        Remember(r.value, durable.store.records[r.value]);
      }
    }
  }

  lemma LatestUnique(records: Records, k: Key, id: Id)
    requires Chained(records) && IsLatest(records, k, id)
    ensures Latest(records, k) == Some(id)
  {
  }

  /** The index answers every key with its last revision. */
  ghost predicate Right(records: Records, latestByKey: map<Key, Id>) {
    forall k :: (if k in latestByKey then Some(latestByKey[k]) else None) == Latest(records, k)
  }

  /** Pointing the index at a cached record, new or known, keeps it right exactly when that record is the
      last revision of its key. */
  lemma RememberKeepsIndexIff(records: Records, latestByKey: map<Key, Id>, id: Id, record: Record)
    requires Chained(records[id := record]) && Right(records, latestByKey) && (id in records ==> records[id] == record)
    ensures Right(records[id := record], latestByKey[record.key := id]) <==> IsLatest(records[id := record], record.key, id)
  {
    var records', m := records[id := record], latestByKey[record.key := id];
    if IsLatest(records', record.key, id) {
      forall k ensures (if k in m then Some(m[k]) else None) == Latest(records', k) {
        if k == record.key { LatestUnique(records', k, id); } else { OtherKeysKeepLatest(records, id, record, k); }
      }
    } else {
      assert (if record.key in m then Some(m[record.key]) else None) == Some(id);
      assert Latest(records', record.key) != Some(id);
    }
  }

  lemma OtherKeysKeepLatest(records: Records, id: Id, record: Record, k: Key)
    requires Chained(records[id := record]) && k != record.key && (id in records ==> records[id] == record)
    ensures Latest(records[id := record], k) == Latest(records, k)
  {
    var records' := records[id := record];
    assert forall o :: o in records ==> records'[o] == records[o];
    if Latest(records, k).Some? { LatestUnique(records', k, Latest(records, k).value); }
  }

  /** A replayed commit points the index at the record it first produced: the index is still right exactly
      when that record is the last revision of its key. */
  lemma ReplayKeepsIndexIff(records: Records, latestByKey: map<Key, Id>, id: Id)
    requires Chained(records) && id in records && Right(records, latestByKey)
    ensures Right(records, latestByKey[records[id].key := id]) <==> IsLatest(records, records[id].key, id)
  {
    assert records[id := records[id]] == records;
    RememberKeepsIndexIff(records, latestByKey, id, records[id]);
  }

  ghost function IndexAfterCommit(s: Store, m: map<Key, Id>, e: Event, n: nat, c: Candidate, newId: Id): map<Key, Id> {
    var r, s' := Result(s, e, n, Some(c), newId), Process(s, e, n, Some(c), newId);
    if r.Some? && r.value in s'.records then m[s'.records[r.value].key := r.value] else m
  }

  /** The event is new, or was ignored, or its record is still the last revision of its key. */
  ghost predicate KeepsRight(s: Store, e: Event) {
    e.eventId in s.receipts && s.receipts[e.eventId].result.Some? && s.receipts[e.eventId].result.value in s.records ==>
      IsLatest(s.records, s.records[s.receipts[e.eventId].result.value].key, s.receipts[e.eventId].result.value)
  }

  /** One commit through a source event. */
  lemma CommitKeepsIndexIff(s: Store, m: map<Key, Id>, e: Event, n: nat, c: Candidate, newId: Id)
    requires Chained(s.records) && Right(s.records, m) && newId !in s.records
    ensures Chained(Process(s, e, n, Some(c), newId).records)
    ensures Right(Process(s, e, n, Some(c), newId).records, IndexAfterCommit(s, m, e, n, c, newId)) <==> KeepsRight(s, e)
  {
    if e.eventId in s.receipts {
      var ref := s.receipts[e.eventId].result;
      if ref.Some? && ref.value in s.records { ReplayKeepsIndexIff(s.records, m, ref.value); }
    } else {
      ChainGrows(s, e, c, newId);
      RememberKeepsIndexIff(s.records, m, newId, NextRecord(s, e, c));
    }
  }

  datatype CommitCall = CommitCall(event: Event, n: nat, candidate: Candidate, newId: Id)

  /** The table and the index after a list of commits. */
  ghost function AfterCommits(s: Store, m: map<Key, Id>, calls: seq<CommitCall>): (Store, map<Key, Id>)
    decreases |calls|
  {
    if calls == [] then (s, m) else
      var (s', m') := AfterCommits(s, m, calls[..|calls| - 1]);
      var x := calls[|calls| - 1];
      (Process(s', x.event, x.n, Some(x.candidate), x.newId), IndexAfterCommit(s', m', x.event, x.n, x.candidate, x.newId))
  }

  /** The index is right after the first `i` commits. */
  ghost predicate RightAfter(s: Store, m: map<Key, Id>, calls: seq<CommitCall>, i: nat)
    requires i <= |calls|
  {
    Right(AfterCommits(s, m, calls[..i]).0.records, AfterCommits(s, m, calls[..i]).1)
  }

  /** Commit `i` does not replay an event whose record has been superseded. */
  ghost predicate NotStale(s: Store, m: map<Key, Id>, calls: seq<CommitCall>, i: nat)
    requires i < |calls|
  {
    KeepsRight(AfterCommits(s, m, calls[..i]).0, calls[i].event)
  }

  ghost predicate UnusedIds(s: Store, m: map<Key, Id>, calls: seq<CommitCall>) {
    forall i :: 0 <= i < |calls| ==> calls[i].newId !in AfterCommits(s, m, calls[..i]).0.records
  }

  /** Over any list of commits, with `new_id` giving unused ids: the index is right all the way exactly when no
      commit replays a superseded event. In particular commits of new events keep it right. */
  lemma {:induction false} CommitsKeepIndexIff(s: Store, m: map<Key, Id>, calls: seq<CommitCall>, n: nat)
    requires Chained(s.records) && Right(s.records, m) && UnusedIds(s, m, calls) && n <= |calls|
    ensures Chained(AfterCommits(s, m, calls[..n]).0.records)
    ensures (forall i :: 0 <= i <= n ==> RightAfter(s, m, calls, i)) <==> (forall i :: 0 <= i < n ==> NotStale(s, m, calls, i))
    decreases n
  {
    hide RightAfter, NotStale, Chained, Right, AfterCommits;
    if n == 0 {
      NoCommits(s, m, calls);
    } else {
      CommitsKeepIndexIff(s, m, calls, n - 1);
      CommitAt(s, m, calls, n - 1);
    }
  }

  lemma NoCommits(s: Store, m: map<Key, Id>, calls: seq<CommitCall>)
    ensures AfterCommits(s, m, calls[..0]) == (s, m) && (Right(s.records, m) ==> RightAfter(s, m, calls, 0))
  {
    hide Right;
  }

  lemma CommitAt(s: Store, m: map<Key, Id>, calls: seq<CommitCall>, i: nat)
    requires i < |calls| && calls[i].newId !in AfterCommits(s, m, calls[..i]).0.records
    requires Chained(AfterCommits(s, m, calls[..i]).0.records)
    ensures Chained(AfterCommits(s, m, calls[..i + 1]).0.records)
    ensures RightAfter(s, m, calls, i) ==> (RightAfter(s, m, calls, i + 1) <==> NotStale(s, m, calls, i))
  {
    hide Process, IndexAfterCommit, KeepsRight, Right, Chained;
    assert calls[..i + 1][..i] == calls[..i];
    var (s', m') := AfterCommits(s, m, calls[..i]);
    var x := calls[i];
    CommitKeepsChain(s', x.event, x.n, x.candidate, x.newId);
    if RightAfter(s, m, calls, i) { CommitKeepsIndexIff(s', m', x.event, x.n, x.candidate, x.newId); }
  }

  lemma CommitWrites(s: Store, e: Event, n: nat, c: Candidate, newId: Id)
    ensures var r, s' := Result(s, e, n, Some(c), newId), Process(s, e, n, Some(c), newId);
            if r.None? then s'.records == s.records
            else r.value in s'.records && s'.records == s.records[r.value := s'.records[r.value]]
  {
  }

  lemma CommitKeepsChain(s: Store, e: Event, n: nat, c: Candidate, newId: Id)
    requires Chained(s.records) && newId !in s.records
    ensures Chained(Process(s, e, n, Some(c), newId).records)
  {
    if e.eventId !in s.receipts { ChainGrows(s, e, c, newId); }
  }

  // ---- Commits through another store ----

  /** What an index answers for one key is the last revision in the table. */
  ghost predicate Answers(m: map<Key, Id>, records: Records, k: Key) {
    (if k in m then Some(m[k]) else None) == Latest(records, k)
  }

  /** The number of the last revision of a key, zero if it has none. */
  ghost function LastRevision(records: Records, k: Key): int {
    var r := Latest(records, k);
    if r.None? then 0 else records[r.value].revision
  }

  /** The commit writes a new revision of the key. */
  predicate Adds(s: Store, x: CommitCall, k: Key) { x.event.eventId !in s.receipts && x.candidate.key == k }

  ghost function Committed(s: Store, x: CommitCall): Store { Process(s, x.event, x.n, Some(x.candidate), x.newId) }

  lemma CommitRaisesRevision(s: Store, x: CommitCall, k: Key)
    requires Chained(s.records) && x.newId !in s.records
    ensures Chained(Committed(s, x).records) && Extends(s, Committed(s, x))
    ensures LastRevision(Committed(s, x).records, k) == LastRevision(s.records, k) + (if Adds(s, x, k) then 1 else 0)
    ensures !Adds(s, x, k) ==> Latest(Committed(s, x).records, k) == Latest(s.records, k)
  {
    if x.event.eventId !in s.receipts {
      var r := NextRecord(s, x.event, x.candidate);
      ChainGrows(s, x.event, x.candidate, x.newId);
      if x.candidate.key == k {
        LatestUnique(s.records[x.newId := r], k, x.newId);
      } else {
        OtherKeysKeepLatest(s.records, x.newId, r, k);
      }
    }
  }

  /** The table after the first `n` of a list of commits. */
  ghost function TableAfter(s: Store, calls: seq<CommitCall>, n: nat): Store
    requires n <= |calls|
  {
    if n == 0 then s else Committed(TableAfter(s, calls, n - 1), calls[n - 1])
  }

  ghost predicate NewIds(s: Store, calls: seq<CommitCall>) {
    forall i :: 0 <= i < |calls| ==> calls[i].newId !in TableAfter(s, calls, i).records
  }

  ghost predicate AddsAt(s: Store, calls: seq<CommitCall>, i: nat, k: Key)
    requires i < |calls|
  {
    Adds(TableAfter(s, calls, i), calls[i], k)
  }

  lemma {:induction false} RevisionsOverCommits(s: Store, calls: seq<CommitCall>, n: nat, k: Key)
    requires Chained(s.records) && NewIds(s, calls) && n <= |calls|
    ensures Chained(TableAfter(s, calls, n).records) && Extends(s, TableAfter(s, calls, n))
    ensures LastRevision(TableAfter(s, calls, n).records, k) >= LastRevision(s.records, k)
    ensures if forall i :: 0 <= i < n ==> !AddsAt(s, calls, i, k)
            then Latest(TableAfter(s, calls, n).records, k) == Latest(s.records, k)
            else LastRevision(TableAfter(s, calls, n).records, k) > LastRevision(s.records, k)
  {
    hide Chained, Extends, LastRevision, TableAfter, NewIds, AddsAt;
    if n == 0 {
      SelfExtends(s);
      assert TableAfter(s, calls, 0) == s by { NoCommitsYet(s, calls); }
    } else {
      RevisionsOverCommits(s, calls, n - 1, k);
      var before := TableAfter(s, calls, n - 1);
      CommitAtRaises(s, calls, n - 1, k);
      ExtendsIsTransitive(s, before, TableAfter(s, calls, n));
      if Latest(before.records, k) == Latest(s.records, k) { SameLatestSameRevision(s, before, k); }
    }
  }

  lemma NoCommitsYet(s: Store, calls: seq<CommitCall>)
    ensures TableAfter(s, calls, 0) == s
  {
  }

  lemma CommitAtRaises(s: Store, calls: seq<CommitCall>, i: nat, k: Key)
    requires NewIds(s, calls) && i < |calls| && Chained(TableAfter(s, calls, i).records)
    ensures var before, after := TableAfter(s, calls, i), TableAfter(s, calls, i + 1);
            && Chained(after.records) && Extends(before, after)
            && LastRevision(after.records, k) == LastRevision(before.records, k) + (if AddsAt(s, calls, i, k) then 1 else 0)
            && (!AddsAt(s, calls, i, k) ==> Latest(after.records, k) == Latest(before.records, k))
  {
    hide Chained, Extends, LastRevision, Committed, Adds;
    CommitRaisesRevision(TableAfter(s, calls, i), calls[i], k);
  }

  lemma SameLatestSameRevision(s: Store, s': Store, k: Key)
    requires Extends(s, s') && Latest(s.records, k) == Latest(s'.records, k)
    ensures LastRevision(s.records, k) == LastRevision(s'.records, k)
  {
  }

  /** Two stores over one table: while other stores commit, an index still answers a key with its last revision exactly
      if none of their commits has written a new revision of that key; it never comes right again by itself. */
  lemma ForeignCommitsIff(s: Store, m: map<Key, Id>, calls: seq<CommitCall>, n: nat, k: Key)
    requires Chained(s.records) && NewIds(s, calls) && n <= |calls| && Answers(m, s.records, k)
    ensures Answers(m, TableAfter(s, calls, n).records, k) <==> forall i :: 0 <= i < n ==> !AddsAt(s, calls, i, k)
  {
    hide Chained, NewIds, Extends, LastRevision, AddsAt;
    RevisionsOverCommits(s, calls, n, k);
    if Latest(TableAfter(s, calls, n).records, k) == Latest(s.records, k) {
      SameLatestSameRevision(s, TableAfter(s, calls, n), k);
    }
  }

  /** A concrete failure: another store commits the first revision of a key, which an empty index does not know. */
  lemma ForeignCommitGoesUnnoticed(s: Store, k: Key, call: CommitCall)
    requires s == Store([Plain(10)], map[], 0, map[]) && k == Key(2, "work", "name", Fact)
    requires call == CommitCall(Plain(10), 1, Candidate(k, "a", 1.0), 20)
    ensures Answers(map[], s.records, k) && !Answers(map[], TableAfter(s, [call], 1).records, k)
  {
    assert TableAfter(s, [call], 0) == s && AddsAt(s, [call], 0, k);
    ForeignCommitsIff(s, map[], [call], 1, k);
  }

  /** A concrete failure: two events give one key two revisions; replaying the first event points the index at
      revision 1 while the table holds revision 2. */
  lemma ReplayMovesIndexBack(s: Store, k: Key, e: Event, c: Candidate)
    requires k == Key(2, "work", "name", Fact) && e == Plain(10) && c == Candidate(k, "a", 1.0)
    requires s == Process(Process(Store([e, Plain(11)], map[], 0, map[]), e, 1, Some(c), 20),
                          Plain(11), 2, Some(c.(value := "b")), 21)
    ensures Chained(s.records) && Right(s.records, map[k := 21])
    ensures IndexAfterCommit(s, map[k := 21], e, 1, c, 22)[k] == 20
    ensures !Right(Process(s, e, 1, Some(c), 22).records, IndexAfterCommit(s, map[k := 21], e, 1, c, 22))
  {
    var empty := Store([e, Plain(11)], map[], 0, map[]);
    var s1 := Process(empty, e, 1, Some(c), 20);
    var r1, r2 := Record(k, "a", [10], 1.0, 1, None), Record(k, "b", [11], 1.0, 2, Some(20));
    assert s1.records == map[20 := r1];
    ChainGrows(empty, e, c, 20);
    ChainGrows(s1, Plain(11), c.(value := "b"), 21);
    LatestUnique(s1.records, k, 20);
    assert s.records == map[20 := r1, 21 := r2];
    LatestUnique(s.records, k, 21);
    assert s.receipts[10].result == Some(20);
    assert !IsLatest(s.records, k, 20);
    CommitKeepsIndexIff(s, map[k := 21], e, 1, c, 22);
  }

  // ---- What the records say ----

  /** Which events are remembered, and what of them: candidate events that learning may use, with kind, key, scope and
      confidence all there, a non-empty key, scope and workspace, and a confidence from zero to one; for the global scope
      only what the user has stated explicitly. */
  lemma AcceptedIff(e: Event)
    ensures Accepted(e).Some? <==>
              && e.eventType == "memory.candidate" && e.learningAllowed && e.workspace != 0
              && e.payload.kind.Some? && e.payload.key.Some? && e.payload.scope.Some? && e.payload.confidence.Some?
              && e.payload.key.value != "" && e.payload.scope.value != ""
              && 0.0 <= e.payload.confidence.value && e.payload.confidence.value <= 1.0
              && (e.payload.scope.value == "global" ==> e.payload.explicitStatement && e.actor == "user")
    ensures Accepted(e).Some? ==>
              var c := Accepted(e).value;
              && c.key.kind == e.payload.kind.value && c.key.key == e.payload.key.value && c.key.scope == e.payload.scope.value
              && c.key.partition == (if e.payload.scope.value == "global" then 1 else e.workspace)
              && c.value == e.payload.value && c.confidence == e.payload.confidence.value
  {
  }

  /** What one transaction on a new event stores: a record with everything the candidate says, naming the event, with
      the next revision of its key, superseding the last one; a receipt that names the record; and a cursor that
      has reached the event. */
  lemma NewEventIsRecorded(s: Store, e: Event, n: nat, c: Candidate, newId: Id)
    requires e.eventId !in s.receipts && newId !in s.records && Chained(s.records)
    ensures Result(s, e, n, Some(c), newId) == Some(newId)
    ensures var s' := Process(s, e, n, Some(c), newId);
            && newId in s'.records && s'.records - {newId} == s.records && s'.log == s.log
            && s'.records[newId].key == c.key && s'.records[newId].value == c.value && s'.records[newId].confidence == c.confidence
            && s'.records[newId].sources == [e.eventId]
            && (forall o :: o in s.records && s.records[o].key == c.key ==> s.records[o].revision < s'.records[newId].revision)
            && (s'.records[newId].supersedes.None? <==> forall o :: o in s.records ==> s.records[o].key != c.key)
            && s'.receipts == s.receipts[e.eventId := Receipt(n, Some(newId))]
            && s.cursor <= s'.cursor && n <= s'.cursor && (s'.cursor == s.cursor || s'.cursor == n)
  {
  }

  /** And of an event to be ignored: no record, a receipt without one, and the cursor as above. */
  lemma NewEventIsIgnored(s: Store, e: Event, n: nat, newId: Id)
    requires e.eventId !in s.receipts
    ensures Result(s, e, n, None, newId).None?
    ensures var s' := Process(s, e, n, None, newId);
            && s'.records == s.records && s'.log == s.log && s'.receipts == s.receipts[e.eventId := Receipt(n, None)]
            && s.cursor <= s'.cursor && n <= s'.cursor && (s'.cursor == s.cursor || s'.cursor == n)
  {
  }

  /** After a new event has been committed through a store with a right index, that store answers its key with what the
      candidate says. */
  lemma CommitIsAnswered(s: Store, m: map<Key, Id>, e: Event, n: nat, c: Candidate, newId: Id)
    requires Chained(s.records) && Right(s.records, m) && newId !in s.records && e.eventId !in s.receipts
    ensures var records, m' := Process(s, e, n, Some(c), newId).records, IndexAfterCommit(s, m, e, n, c, newId);
            && Right(records, m') && c.key in m' && m'[c.key] in records
            && records[m'[c.key]].value == c.value && records[m'[c.key]].confidence == c.confidence
  {
    CommitKeepsIndexIff(s, m, e, n, c, newId);
    NewEventIsRecorded(s, e, n, c, newId);
  }

  /** A record holds what the log event it names asks to be remembered. */
  ghost predicate Carries(log: seq<Event>, r: Record) {
    exists n :: 0 <= n < |log| && r.sources == [log[n].eventId] && Accepted(log[n]) == Some(Candidate(r.key, r.value, r.confidence))
  }

  ghost predicate AllCarry(s: Store) { forall id :: id in s.records ==> Carries(s.log, s.records[id]) }

  lemma ProcessCarries(s: Store, n: nat, c: Option<Candidate>, newId: Id)
    requires AllCarry(s) && 1 <= n <= |s.log| && newId !in s.records && (c.Some? ==> c == Accepted(s.log[n - 1]))
    ensures AllCarry(Process(s, s.log[n - 1], n, c, newId))
  {
    hide Accepted;
    var e, s' := s.log[n - 1], Process(s, s.log[n - 1], n, c, newId);
    forall id | id in s'.records ensures Carries(s'.log, s'.records[id]) {
      if id in s.records {
        assert s'.records[id] == s.records[id] && Carries(s.log, s.records[id]);
      } else {
        assert s'.records[id] == NextRecord(s, e, c.value);
      }
    }
  }

  lemma StepCarries(y: System, a: Action)
    requires Enabled(y, a) && AllCarry(y.store)
    ensures AllCarry(Step(y, a).store)
  {
    hide Accepted, NextRecord, Result;
    match a
    case Work(p, newId) => ProcessCarries(y.store, y.pipelines[p].next, Accepted(Current(y, p)), newId);
    case Retry(p, newId) => ProcessCarries(y.store, y.pipelines[p].next, None, newId);
    case Append(e) =>
      forall id | id in y.store.records ensures Carries(y.store.log + [e], y.store.records[id]) {
        var n :| 0 <= n < |y.store.log| && y.store.records[id].sources == [y.store.log[n].eventId]
                 && Accepted(y.store.log[n]) == Some(Candidate(y.store.records[id].key, y.store.records[id].value, y.store.records[id].confidence));
        assert (y.store.log + [e])[n] == y.store.log[n];
      }
    case _ =>
  }

  lemma {:induction false} RunCarries(ys: seq<System>, acts: seq<Action>, i: nat)
    requires IsRun(ys, acts) && i < |ys|
    ensures AllCarry(ys[i].store)
  {
    hide Enabled, Step, Carries;
    if i > 0 {
      RunCarries(ys, acts, i - 1);
      StepCarries(ys[i - 1], acts[i - 1]);
    }
  }

  /** In every run of interleaved pipelines every stored record comes from one event of the log that could be
      remembered, and holds that event's value, confidence, kind, key and scope, in the partition of that event's
      workspace or, for what the user stated globally, in the global one. */
  lemma RecordsSayWhatEventsSay(ys: seq<System>, acts: seq<Action>, i: nat, id: Id) returns (n: nat)
    requires IsRun(ys, acts) && i < |ys| && id in ys[i].store.records
    ensures n < |ys[i].store.log|
    ensures var r, e := ys[i].store.records[id], ys[i].store.log[n];
            && r.sources == [e.eventId] && e.eventType == "memory.candidate" && e.learningAllowed
            && Some(r.key.kind) == e.payload.kind && Some(r.key.key) == e.payload.key && Some(r.key.scope) == e.payload.scope
            && r.value == e.payload.value && Some(r.confidence) == e.payload.confidence
            && (if r.key.scope == "global" then r.key.partition == 1 && e.payload.explicitStatement && e.actor == "user"
                else r.key.partition == e.workspace)
  {
    RunCarries(ys, acts, i);
    hide IsRun;
    var s := ys[i].store;
    assert Carries(s.log, s.records[id]);
    n :| 0 <= n < |s.log| && s.records[id].sources == [s.log[n].eventId]
         && Accepted(s.log[n]) == Some(Candidate(s.records[id].key, s.records[id].value, s.records[id].confidence));
    AcceptedIff(s.log[n]);
    hide Accepted;
  }

  /** Receipts belong to log events, carry their numbers, and have a result exactly for events to be remembered. */
  ghost predicate ReceiptsFit(s: Store) {
    && (forall e :: e in s.receipts ==> exists n :: 0 <= n < |s.log| && s.log[n].eventId == e)
    && (forall n :: 0 <= n < |s.log| && s.log[n].eventId in s.receipts ==>
          && s.receipts[s.log[n].eventId].sequence == n + 1
          && (s.receipts[s.log[n].eventId].result.Some? <==> Accepted(s.log[n]).Some?))
  }

  lemma ProcessFits(s: Store, n: nat, c: Option<Candidate>, newId: Id)
    requires ReceiptsFit(s) && DistinctIds(s.log) && 1 <= n <= |s.log|
    requires s.log[n - 1].eventId in s.receipts || c == Accepted(s.log[n - 1])
    ensures ReceiptsFit(Process(s, s.log[n - 1], n, c, newId))
  {
    hide Accepted, NextRecord;
  }

  lemma StepFits(y: System, a: Action)
    requires Inv(y) && Enabled(y, a) && ReceiptsFit(y.store)
    ensures ReceiptsFit(Step(y, a).store)
  {
    hide Accepted, NextRecord, Result, Process;
    match a
    case Work(p, newId) => ProcessFits(y.store, y.pipelines[p].next, Accepted(Current(y, p)), newId);
    case Retry(p, newId) =>
      assert InTurn(y.store, y.pipelines[p]);
      ProcessFits(y.store, y.pipelines[p].next, None, newId);
    case Append(e) => AppendFits(y.store, e);
    case _ =>
  }

  lemma AppendFits(s: Store, e: Event)
    requires ReceiptsFit(s) && forall i :: 0 <= i < |s.log| ==> s.log[i].eventId != e.eventId
    ensures ReceiptsFit(s.(log := s.log + [e]))
  {
    hide Accepted;
    forall x | x in s.receipts ensures exists n :: 0 <= n < |s.log + [e]| && (s.log + [e])[n].eventId == x {
      var n :| 0 <= n < |s.log| && s.log[n].eventId == x;
      assert (s.log + [e])[n] == s.log[n];
    }
  }

  lemma {:induction false} RunFits(ys: seq<System>, acts: seq<Action>, i: nat)
    requires IsRun(ys, acts) && i < |ys|
    ensures ReceiptsFit(ys[i].store)
  {
    hide Enabled, Step, Inv, ReceiptsFit;
    if i == 0 {
      assert ReceiptsFit(Store([], map[], 0, map[])) by { NoReceiptsFit(); }
    } else {
      RunFits(ys, acts, i - 1);
      RunKeepsInv(ys, acts, i - 1);
      StepFits(ys[i - 1], acts[i - 1]);
    }
  }

  lemma NoReceiptsFit()
    ensures ReceiptsFit(Store([], map[], 0, map[]))
  {
  }

  /** Nothing is forgotten: in every run, each event at or below the cursor that can be remembered has its record, and
      each that cannot has none. */
  lemma ConsumedEventsAreRemembered(ys: seq<System>, acts: seq<Action>, i: nat, n: nat)
    requires IsRun(ys, acts) && i < |ys| && n < ys[i].store.cursor
    ensures n < |ys[i].store.log| && ys[i].store.log[n].eventId in ys[i].store.receipts
    ensures ys[i].store.receipts[ys[i].store.log[n].eventId].sequence == n + 1
    ensures Accepted(ys[i].store.log[n]).Some? <==>
              exists id :: id in ys[i].store.records && ys[i].store.records[id].sources == [ys[i].store.log[n].eventId]
  {
    hide Accepted, IsRun;
    RunFits(ys, acts, i);
    RunKeepsInv(ys, acts, i);
    var s := ys[i].store;
    assert s.log[n].eventId in s.receipts;
    if Accepted(s.log[n]).Some? {
      var id := s.receipts[s.log[n].eventId].result.value;
      assert id in s.records && s.records[id].sources == [s.log[n].eventId];
    }
  }

  // ---- One pipeline, uninterrupted ----

  lemma KeepsReceipts(s: Store, s': Store)
    requires Extends(s, s')
    ensures forall e :: e in s.receipts ==> e in s'.receipts && s'.receipts[e] == s.receipts[e]
  {
  }

  /** How many of the events numbered from+1 .. upTo have produced a record. */
  function CountRecords(s: Store, from: nat, upTo: nat): nat
    requires from <= upTo <= |s.log|
    decreases upTo
  {
    if from == upTo then 0 else
      var e := s.log[upTo - 1].eventId;
      CountRecords(s, from, upTo - 1) + (if e in s.receipts && s.receipts[e].result.Some? then 1 else 0)
  }

  lemma {:induction false} CountStable(s: Store, s': Store, from: nat, upTo: nat)
    requires from <= upTo <= |s.log| && s'.log == s.log && Covered(s, upTo)
    requires forall e :: e in s.receipts ==> e in s'.receipts && s'.receipts[e] == s.receipts[e]
    ensures CountRecords(s', from, upTo) == CountRecords(s, from, upTo)
    decreases upTo
  {
    if from != upTo { CountStable(s, s', from, upTo - 1); }
  }

  lemma CountOne(s: Store, s': Store, from: nat, n: nat)
    requires from < n <= |s.log| && s'.log == s.log && Covered(s, n - 1) && s.log[n - 1].eventId in s'.receipts
    requires forall e :: e in s.receipts ==> e in s'.receipts && s'.receipts[e] == s.receipts[e]
    ensures CountRecords(s', from, n) == CountRecords(s, from, n - 1)
              + (if s'.receipts[s.log[n - 1].eventId].result.Some? then 1 else 0)
  {
    CountStable(s, s', from, n - 1);
  }

  lemma {:induction false} CountAtMost(s: Store, from: nat, upTo: nat)
    requires from <= upTo <= |s.log|
    ensures CountRecords(s, from, upTo) <= upTo - from
    decreases upTo
  {
    if from != upTo { CountAtMost(s, from, upTo - 1); }
  }

  /** One event in turn: its first transaction deals with it, a second one would change nothing, and with the cursor
      moved on, everything that held of the store still holds. */
  lemma OnePass(s: Store, n: nat, newId: Id)
    requires Sound(s) && s.cursor == n - 1 && 1 <= n <= |s.log| && newId !in s.records
    ensures var e := s.log[n - 1];
            var s' := Process(s, e, n, Accepted(e), newId);
            && Chained(s.records) && Chained(s'.records) && Sound(s'.(cursor := n)) && s'.log == s.log && s'.cursor <= n
            && e.eventId in s'.receipts && Process(s', e, n, None, newId) == s'
            && (Result(s, e, n, Accepted(e), newId).Some? <==> s'.receipts[e.eventId].result.Some?)
            && Extends(s, s'.(cursor := n)) && s'.records.Keys <= s.records.Keys + {newId}
            && (ReceiptsFit(s) && AllCarry(s) ==> ReceiptsFit(s'.(cursor := n)) && AllCarry(s'.(cursor := n)))
  {
    hide Accepted, Sound, Extends, ReceiptsFit, AllCarry, Chained, Process, Result, Traced, ReceiptsResolve;
    var e := s.log[n - 1];
    var s' := Process(s, e, n, Accepted(e), newId);
    OnePassSound(s, n, newId);
    ProcessReceipt(s, e, n, Accepted(e), newId);
    ProcessExtends(s, e, n, Accepted(e), newId);
    if ReceiptsFit(s) && AllCarry(s) {
      DistinctWhenSound(s);
      ProcessFits(s, n, Accepted(e), newId);
      ProcessCarries(s, n, Accepted(e), newId);
      CursorIsApart(s', n);
    }
  }

  lemma DistinctWhenSound(s: Store)
    requires Sound(s)
    ensures DistinctIds(s.log)
  {
  }

  lemma OnePassSound(s: Store, n: nat, newId: Id)
    requires Sound(s) && s.cursor == n - 1 && 1 <= n <= |s.log| && newId !in s.records
    ensures var s' := Process(s, s.log[n - 1], n, Accepted(s.log[n - 1]), newId);
            Chained(s.records) && Chained(s'.records) && Sound(s'.(cursor := n))
  {
    hide Accepted, Chained, Traced, ReceiptsResolve, DistinctIds, NextRecord;
    var s' := Process(s, s.log[n - 1], n, Accepted(s.log[n - 1]), newId);
    ProcessSound(s, n, Accepted(s.log[n - 1]), newId);
    hide Process;
    SoundAnyCursor(s', n);
  }

  lemma SoundAnyCursor(s: Store, n: nat)
    requires Sound(s) && Covered(s, n)
    ensures Sound(s.(cursor := n))
  {
    hide DistinctIds, Chained;
  }

  lemma ProcessReceipt(s: Store, e: Event, n: nat, c: Option<Candidate>, newId: Id)
    requires Sound(s) && newId !in s.records && s.cursor <= n
    ensures var s' := Process(s, e, n, c, newId);
            && s'.log == s.log && s'.cursor <= n && e.eventId in s'.receipts && Process(s', e, n, None, newId) == s'
            && (Result(s, e, n, c, newId).Some? <==> s'.receipts[e.eventId].result.Some?)
            && s'.records.Keys <= s.records.Keys + {newId}
  {
    assert ReceiptsResolve(s);
    hide NextRecord, Sound;
  }

  lemma ProcessExtends(s: Store, e: Event, n: nat, c: Option<Candidate>, newId: Id)
    requires newId !in s.records
    ensures Extends(s, Process(s, e, n, c, newId).(cursor := n))
  {
  }

  lemma CursorIsApart(s: Store, n: nat)
    requires ReceiptsFit(s) && AllCarry(s)
    ensures ReceiptsFit(s.(cursor := n)) && AllCarry(s.(cursor := n))
  {
    hide Accepted, Carries;
  }

  class DurableMemory {
    var store: Store

    constructor (log: seq<Event>)
      requires DistinctIds(log)
      ensures store == Store(log, map[], 0, map[]) && Sound(store) && ReceiptsFit(store) && AllCarry(store)
    {
      store := Store(log, map[], 0, map[]);
    }

    method ProcessEvent(e: Event, n: nat, c: Option<Candidate>, newId: Id) returns (r: Option<Id>)
      requires Chained(store.records)
      modifies this
      ensures store == Process(old(store), e, n, c, newId)
      ensures r == Result(old(store), e, n, c, newId)
    {
      if e.eventId in store.receipts {
        var ref := store.receipts[e.eventId].result;
        if ref.Some? && ref.value in store.records { return ref; }
        return None;
      }
      if c.None? {
        store := WithReceipt(store, e, n, None);
        return None;
      }
      var previous := FindLatest(c.value.key);
      var revision := if previous.None? then 1 else store.records[previous.value].revision + 1;
      var record := Record(c.value.key, c.value.value, [e.eventId], c.value.confidence, revision, previous);
      store := store.(records := store.records[newId := record]);
      store := WithReceipt(store, e, n, Some(newId));
      return Some(newId);
    }

    method FindLatest(k: Key) returns (r: Option<Id>)
      requires Chained(store.records)
      ensures r == Latest(store.records, k)
    {
      r := None;
      var todo := store.records.Keys;
      while todo != {}
        invariant todo <= store.records.Keys
        invariant r.None? ==> forall o :: o in store.records.Keys - todo ==> store.records[o].key != k
        invariant r.Some? ==> r.value in store.records && store.records[r.value].key == k
        invariant r.Some? ==> forall o :: o in store.records.Keys - todo && store.records[o].key == k ==>
                                store.records[o].revision <= store.records[r.value].revision
      {
        var id :| id in todo;
        todo := todo - {id};
        if store.records[id].key == k && (r.None? || store.records[id].revision > store.records[r.value].revision) {
          r := Some(id);
        }
      }
      if r.Some? { LatestUnique(store.records, k, r.value); }
    }

    /** ack_event_consumer with nothing in between its read and its write. */
    method Ack(n: nat) returns (raised: bool)
      modifies this
      ensures raised <==> n >= old(store).cursor && n > |old(store).log|
      ensures store == if raised then old(store) else old(store).(cursor := Max(old(store).cursor, n))
    {
      if n < store.cursor { return false; }
      if n > |store.log| { return true; }
      store := store.(cursor := n);
      return false;
    }

    /** run_once: deal with the next `limit` events after the cursor, in order. Ids from `newIds` on are unused. */
    method RunOnce(limit: nat, newIds: Id) returns (scanned: nat, committed: nat, ignored: nat)
      requires Sound(store) && forall id :: id in store.records ==> id < newIds
      modifies this
      ensures Sound(store) && store.log == old(store).log
      ensures store.cursor == old(store).cursor + scanned && scanned <= limit
      ensures scanned < limit ==> store.cursor == |store.log|
      ensures committed == CountRecords(store, old(store).cursor, store.cursor) && ignored == scanned - committed
      ensures Extends(old(store), store)
      ensures old(ReceiptsFit(store) && AllCarry(store)) ==> ReceiptsFit(store) && AllCarry(store)
    {
      hide DistinctIds, Traced, ReceiptsResolve, Chained, ReceiptsFit, AllCarry, Extends;
      SelfExtends(store);
      var first := store.cursor;
      scanned, committed := 0, 0;
      while scanned < limit && store.cursor < |store.log|
        invariant Sound(store) && store.log == old(store).log && scanned <= limit
        invariant store.cursor == first + scanned
        invariant committed == CountRecords(store, first, store.cursor) && Extends(old(store), store)
        invariant old(ReceiptsFit(store) && AllCarry(store)) ==> ReceiptsFit(store) && AllCarry(store)
        invariant forall id :: id in store.records ==> id < newIds + scanned
        decreases limit - scanned
      {
        ghost var before := store;
        var done := RunEvent(store.cursor + 1, newIds + scanned);
        KeepsReceipts(before, store);
        CountOne(before, store, first, store.cursor);
        ExtendsIsTransitive(old(store), before, store);
        if done { committed := committed + 1; }
        scanned := scanned + 1;
      }
      CountAtMost(store, first, store.cursor);
      ignored := scanned - committed;
    }

    /** The loop body of run_once for event number `n`. */
    method RunEvent(n: nat, newId: Id) returns (committed: bool)
      requires Sound(store) && store.cursor == n - 1 && 1 <= n <= |store.log| && newId !in store.records
      modifies this
      ensures Sound(store) && store.log == old(store).log && store.cursor == n
      ensures var e := store.log[n - 1].eventId; e in store.receipts && (committed <==> store.receipts[e].result.Some?)
      ensures Extends(old(store), store) && store.records.Keys <= old(store).records.Keys + {newId}
      ensures old(ReceiptsFit(store) && AllCarry(store)) ==> ReceiptsFit(store) && AllCarry(store)
    {
      hide ReceiptsFit, AllCarry, Accepted, Process, Result, Sound, Extends, Chained;
      var e := store.log[n - 1];
      OnePass(store, n, newId);
      var r := ProcessEvent(e, n, Accepted(e), newId);
      committed := r.Some?;
      if r.None? {
        r := ProcessEvent(e, n, None, newId);
      }
      var raised := Ack(n);
    }
  }
}
