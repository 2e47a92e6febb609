/** Resource admission: the in-memory broker (liandanlu_native/resources.py:39-182) and the durable
    table (liandanlu_native/storage.py:979-1163). Both are shown never to overcommit, and each to
    answer exactly as the other. */
module ResourceLeases {
  import opened Basics
  import opened Models
  import opened Fencing

  datatype Dimension = Cpu | Memory | Gpu

  function Amount(r: Request, d: Dimension): nat {
    match d case Cpu => r.cpu case Memory => r.memory case Gpu => r.gpu
  }

  function Limit(c: Capacity, d: Dimension): nat {
    match d case Cpu => c.cpu case Memory => c.memory case Gpu => c.gpu
  }

  /** The broker's dictionary. */
  type Leases = map<Id, ResourceLease>

  /** The durable row spells the request out in columns. */
  datatype Row = Row(owner: Id, generation: nat, cpu: nat, memory: nat, gpu: nat, labels: seq<Id>,
                     claimedAt: Time, until: Time)

  type Rows = map<Id, Row>

  /** Answer of a call: an exception, a refusal, or a lease. */
  datatype Answer = Raised | Refused | Granted(lease: ResourceLease)

  // ---- What is in use ----

  /** A lease table reduced to what admission looks at. */
  datatype Holding = Holding(request: Request, until: Time)

  type Holdings = map<Id, Holding>

  function Weights(hs: Holdings, at: Time, d: Dimension): map<Id, nat> {
    map t | t in hs :: if hs[t].until > at then Amount(hs[t].request, d) else 0
  }

  ghost function Used(hs: Holdings, at: Time, d: Dimension): nat { Sum(Weights(hs, at, d)) }

  predicate SharesLabel(a: Request, b: Request) { exists l :: l in a.labels && l in b.labels }

  /** Unexpired leases fit the capacity in every dimension and no label is held twice. */
  ghost predicate Safe(hs: Holdings, c: Capacity, at: Time) {
    && (forall d :: Used(hs, at, d) <= Limit(c, d))
    && (forall s, t :: s in hs && t in hs && s != t && hs[s].until > at && hs[t].until > at ==>
          !SharesLabel(hs[s].request, hs[t].request))
  }

  /** The admission test: the request fits next to the unexpired leases of the other tasks. */
  ghost predicate Fits(hs: Holdings, c: Capacity, at: Time, task: Id, r: Request) {
    && (forall d :: Used(hs - {task}, at, d) + Amount(r, d) <= Limit(c, d))
    && (forall s :: s in hs && s != task && hs[s].until > at ==> !SharesLabel(hs[s].request, r))
  }

  /** A safe table stays safe as time passes. */
  lemma SafeLater(hs: Holdings, c: Capacity, at: Time, later: Time)
    requires Safe(hs, c, at) && at <= later
    ensures Safe(hs, c, later)
  {
    forall d ensures Used(hs, later, d) <= Limit(c, d) {
      SumMonotone(Weights(hs, later, d), Weights(hs, at, d));
    }
  }

  lemma UsedSplit(hs: Holdings, at: Time, d: Dimension, task: Id, h: Holding)
    ensures Used(hs[task := h], at, d) == Used(hs - {task}, at, d) + (if h.until > at then Amount(h.request, d) else 0)
  {
    var w := Weights(hs[task := h], at, d);
    SumPick(w, task);
    assert w - {task} == Weights(hs - {task}, at, d);
  }

  /** Putting an unexpired holding into a table keeps it safe exactly when it passes the admission test
      and the rest of the table is safe. */
  lemma PutSafeIff(hs: Holdings, c: Capacity, at: Time, task: Id, h: Holding)
    requires h.until > at
    ensures Safe(hs[task := h], c, at) <==> Safe(hs - {task}, c, at) && Fits(hs, c, at, task, h.request)
  {
    var hs' := hs[task := h];
    forall d ensures Used(hs', at, d) == Used(hs - {task}, at, d) + Amount(h.request, d) {
      UsedSplit(hs, at, d, task, h);
    }
    if Safe(hs', c, at) {
      forall s | s in hs && s != task && hs[s].until > at ensures !SharesLabel(hs[s].request, h.request) {
        assert hs'[s] == hs[s] && hs'[task] == h;
      }
      forall s, t | s in hs - {task} && t in hs - {task} && s != t && hs[s].until > at && hs[t].until > at
        ensures !SharesLabel(hs[s].request, hs[t].request)
      {
        assert hs'[s] == hs[s] && hs'[t] == hs[t];
      }
    }
    if Safe(hs - {task}, c, at) && Fits(hs, c, at, task, h.request) {
      forall s, t | s in hs' && t in hs' && s != t && hs'[s].until > at && hs'[t].until > at
        ensures !SharesLabel(hs'[s].request, hs'[t].request)
      {
        if s != task && t != task {
          assert hs'[s] == (hs - {task})[s] && hs'[t] == (hs - {task})[t];
        }
        SharesSymmetric(hs'[s].request, hs'[t].request);
      }
    }
  }

  lemma SharesSymmetric(a: Request, b: Request)
    ensures SharesLabel(a, b) == SharesLabel(b, a)
  {
    if SharesLabel(a, b) { var l :| l in a.labels && l in b.labels; assert l in b.labels; }
  }

  lemma DropSafe(hs: Holdings, c: Capacity, at: Time, task: Id)
    requires Safe(hs, c, at)
    ensures Safe(hs - {task}, c, at)
  {
    if task in hs {
      forall d ensures Used(hs - {task}, at, d) <= Used(hs, at, d) {
        assert hs[task := hs[task]] == hs;
        UsedSplit(hs, at, d, task, hs[task]);
      }
    } else {
      assert hs - {task} == hs;
    }
  }

  /** Putting an expired holding into a safe table keeps it safe. */
  lemma PutExpiredSafe(hs: Holdings, c: Capacity, at: Time, task: Id, h: Holding)
    requires Safe(hs, c, at) && h.until <= at
    ensures Safe(hs[task := h], c, at)
  {
    DropSafe(hs, c, at, task);
    forall d ensures Used(hs[task := h], at, d) <= Limit(c, d) {
      UsedSplit(hs, at, d, task, h);
    }
  }

  predicate TooLarge(r: Request, c: Capacity) {
    r.cpu > c.cpu || r.memory > c.memory || r.gpu > c.gpu
  }

  // ---- The in-memory broker ----

  function HoldingsOf(m: Leases): Holdings { map t | t in m :: Holding(m[t].request, m[t].until) }

  ghost function BrokerAcquire(m: Leases, c: Capacity, task: Id, owner: Id, r: Request, seconds: Time, ts: Time): Answer {
    if task == EMPTY || owner == EMPTY || seconds <= 0.0 then Raised
    else if TooLarge(r, c) then Refused
    else if task in m && m[task].until > ts then Refused
    else if !Fits(HoldingsOf(m), c, ts, task, r) then Refused
    else Granted(ResourceLease(task, owner, if task in m then m[task].generation + 1 else 1, r, ts, ts + seconds))
  }

  predicate BrokerHolds(m: Leases, l: ResourceLease, ts: Time) {
    && l.taskId in m && m[l.taskId].owner == l.owner && m[l.taskId].generation == l.generation
    && m[l.taskId].until > ts
  }

  /** The handle's own request and claim time are written back. */
  function BrokerRenew(m: Leases, l: ResourceLease, seconds: Time, ts: Time): Answer {
    if BrokerHolds(m, l, ts) then Granted(l.(until := ts + seconds)) else Refused
  }

  function BrokerRelease(m: Leases, l: ResourceLease): (Leases, bool) {
    if l.taskId in m && m[l.taskId].owner == l.owner && m[l.taskId].generation == l.generation
    then (m[l.taskId := m[l.taskId].(until := 0.0)], true) else (m, false)
  }

  function Write(m: Leases, a: Answer): Leases {
    if a.Granted? then m[a.lease.taskId := a.lease] else m
  }

  class ResourceBroker {
    const capacity: Capacity
    var leases: Leases

    constructor (capacity: Capacity)
      ensures this.capacity == capacity && leases == map[]
    {
      this.capacity := capacity;
      leases := map[];
    }

    method Acquire(task: Id, owner: Id, r: Request, seconds: Time, ts: Time) returns (a: Answer)
      modifies this
      ensures a == BrokerAcquire(old(leases), capacity, task, owner, r, seconds, ts)
      ensures leases == Write(old(leases), a)
    {
      if task == EMPTY || owner == EMPTY || seconds <= 0.0 { return Raised; }
      if r.cpu > capacity.cpu || r.memory > capacity.memory || r.gpu > capacity.gpu { return Refused; }
      if task in leases && leases[task].until > ts { return Refused; }
      var ok := Admits(HoldingsOf(leases), capacity, ts, task, r);
      if !ok { return Refused; }
      var generation := if task in leases then leases[task].generation + 1 else 1;
      var lease := ResourceLease(task, owner, generation, r, ts, ts + seconds);
      leases := leases[task := lease];
      return Granted(lease);
    }

    method Renew(l: ResourceLease, seconds: Time, ts: Time) returns (a: Answer)
      modifies this
      ensures a == BrokerRenew(old(leases), l, seconds, ts)
      ensures leases == Write(old(leases), a)
    {
      if l.taskId !in leases || leases[l.taskId].owner != l.owner || leases[l.taskId].generation != l.generation
         || leases[l.taskId].until <= ts { return Refused; }
      var renewed := ResourceLease(l.taskId, l.owner, l.generation, l.request, l.claimedAt, ts + seconds);
      leases := leases[l.taskId := renewed];
      return Granted(renewed);
    }

    method Release(l: ResourceLease) returns (released: bool)
      modifies this
      ensures (leases, released) == BrokerRelease(old(leases), l)
    {
      if l.taskId !in leases { return false; }
      var current := leases[l.taskId];
      if current.owner != l.owner || current.generation != l.generation { return false; }
      leases := leases[l.taskId := current.(until := 0.0)];
      return true;
    }

    method Validate(l: ResourceLease, ts: Time) returns (ok: bool)
      ensures ok == BrokerHolds(leases, l, ts)
    {
      ok := l.taskId in leases && leases[l.taskId].owner == l.owner
            && leases[l.taskId].generation == l.generation && leases[l.taskId].until > ts;
    }
  }

  /** The source's `sum(...)` over the unexpired leases. */
  method SumActive(hs: Holdings, ts: Time, d: Dimension) returns (total: nat)
    ensures total == Used(hs, ts, d)
  {
    total := 0;
    var todo := hs;
    while todo != map[]
      invariant total + Used(todo, ts, d) == Used(hs, ts, d)
      decreases |todo|
    {
      var t :| t in todo;
      assert todo[t := todo[t]] == todo;
      UsedSplit(todo, ts, d, t, todo[t]);
      if todo[t].until > ts {
        total := total + Amount(todo[t].request, d);
      }
      todo := todo - {t};
    }
    assert Weights(map[], ts, d) == map[];
  }

  /** Whether the label set of the unexpired leases meets the requested labels. */
  method LabelClash(hs: Holdings, ts: Time, r: Request) returns (clash: bool)
    ensures clash <==> exists t :: t in hs && hs[t].until > ts && SharesLabel(hs[t].request, r)
  {
    clash := false;
    var todo := hs.Keys;
    while todo != {}
      invariant todo <= hs.Keys
      invariant clash <==> exists t :: t in hs.Keys - todo && hs[t].until > ts && SharesLabel(hs[t].request, r)
    {
      var t :| t in todo;
      if hs[t].until > ts && SharesLabel(hs[t].request, r) { clash := true; }
      todo := todo - {t};
    }
  }

  method Admits(hs: Holdings, c: Capacity, ts: Time, task: Id, r: Request) returns (ok: bool)
    ensures ok <==> Fits(hs, c, ts, task, r)
  {
    var others := hs - {task};
    var cpu := SumActive(others, ts, Cpu);
    var memory := SumActive(others, ts, Memory);
    var gpu := SumActive(others, ts, Gpu);
    var clash := LabelClash(others, ts, r);
    ok := cpu + r.cpu <= c.cpu && memory + r.memory <= c.memory && gpu + r.gpu <= c.gpu && !clash;
    FitsByParts(hs, c, ts, task, r, cpu, memory, gpu);
  }

  lemma FitsByParts(hs: Holdings, c: Capacity, ts: Time, task: Id, r: Request, cpu: nat, memory: nat, gpu: nat)
    requires cpu == Used(hs - {task}, ts, Cpu) && memory == Used(hs - {task}, ts, Memory) && gpu == Used(hs - {task}, ts, Gpu)
    ensures Fits(hs, c, ts, task, r) <==>
              && cpu + r.cpu <= c.cpu && memory + r.memory <= c.memory && gpu + r.gpu <= c.gpu
              && !(exists t :: t in hs - {task} && hs[t].until > ts && SharesLabel(hs[t].request, r))
  {
    if Fits(hs, c, ts, task, r) {
      assert Used(hs - {task}, ts, Cpu) + Amount(r, Cpu) <= Limit(c, Cpu);
      assert Used(hs - {task}, ts, Memory) + Amount(r, Memory) <= Limit(c, Memory);
      assert Used(hs - {task}, ts, Gpu) + Amount(r, Gpu) <= Limit(c, Gpu);
    }
  }

  /** The broker's renewal of a valid handle with any request: safe exactly when the request written
      back passes the admission test. So a handle with a swollen request can overcommit. */
  lemma BrokerRenewSafeIff(m: Leases, c: Capacity, l: ResourceLease, seconds: Time, ts: Time)
    requires Safe(HoldingsOf(m), c, ts) && BrokerHolds(m, l, ts) && seconds > 0.0
    ensures Safe(HoldingsOf(Write(m, BrokerRenew(m, l, seconds, ts))), c, ts)
            <==> Fits(HoldingsOf(m), c, ts, l.taskId, l.request)
  {
    var m' := Write(m, BrokerRenew(m, l, seconds, ts));
    assert HoldingsOf(m') == HoldingsOf(m)[l.taskId := Holding(l.request, ts + seconds)];
    DropSafe(HoldingsOf(m), c, ts, l.taskId);
    PutSafeIff(HoldingsOf(m), c, ts, l.taskId, Holding(l.request, ts + seconds));
  }

  // ---- The durable table ----

  function RequestOf(row: Row): Request { Request(row.cpu, row.memory, row.gpu, row.labels) }

  function RowHoldings(rows: Rows): Holdings { map t | t in rows :: Holding(RequestOf(rows[t]), rows[t].until) }

  function RowOf(l: ResourceLease): Row {
    Row(l.owner, l.generation, l.request.cpu, l.request.memory, l.request.gpu, l.request.labels, l.claimedAt, l.until)
  }

  ghost function TableAcquire(rows: Rows, c: Capacity, task: Id, owner: Id, r: Request, seconds: Time, ts: Time): Answer {
    if task == EMPTY || owner == EMPTY || seconds <= 0.0 then Raised
    else if TooLarge(r, c) then Refused
    else if task in rows && rows[task].until > ts then Refused
    else if !Fits(RowHoldings(rows), c, ts, task, r) then Refused
    else Granted(ResourceLease(task, owner, if task in rows then rows[task].generation + 1 else 1, r, ts, ts + seconds))
  }

  predicate RowMatches(rows: Rows, l: ResourceLease) {
    l.taskId in rows && rows[l.taskId].owner == l.owner && rows[l.taskId].generation == l.generation
  }

  function TableRenew(rows: Rows, l: ResourceLease, seconds: Time, ts: Time): Answer {
    if seconds <= 0.0 then Raised
    else if RowMatches(rows, l) && rows[l.taskId].until > ts then Granted(l.(until := ts + seconds))
    else Refused
  }

  /** Only the expiry column is written: the stored request stays. */
  function RowsAfterRenew(rows: Rows, l: ResourceLease, seconds: Time, ts: Time): Rows {
    if TableRenew(rows, l, seconds, ts).Granted? then rows[l.taskId := rows[l.taskId].(until := ts + seconds)] else rows
  }

  function TableRelease(rows: Rows, l: ResourceLease): (Rows, bool) {
    if RowMatches(rows, l) then (rows[l.taskId := rows[l.taskId].(until := 0.0)], true) else (rows, false)
  }

  predicate TableValidate(rows: Rows, l: ResourceLease, ts: Time) {
    RowMatches(rows, l) && rows[l.taskId].until > ts && RequestOf(rows[l.taskId]) == l.request
  }

  function RowsAfterGrant(rows: Rows, a: Answer): Rows {
    if a.Granted? then rows[a.lease.taskId := RowOf(a.lease)] else rows
  }

  function RowSlots(rows: Rows): Slots { map t | t in rows :: Slot(rows[t].owner, rows[t].generation, rows[t].until) }

  function ResourceIdentity(l: ResourceLease): Identity { Identity(l.taskId, l.owner, l.generation) }

  method TryAcquire(rows: Rows, c: Capacity, task: Id, owner: Id, r: Request, seconds: Time, ts: Time) returns (a: Answer)
    ensures a == TableAcquire(rows, c, task, owner, r, seconds, ts)
  {
    if task == EMPTY || owner == EMPTY || seconds <= 0.0 { return Raised; }
    if r.cpu > c.cpu || r.memory > c.memory || r.gpu > c.gpu { return Refused; }
    if task in rows && rows[task].until > ts { return Refused; }
    var ok := Admits(RowHoldings(rows), c, ts, task, r);
    if !ok { return Refused; }
    var generation := if task in rows then rows[task].generation + 1 else 1;
    return Granted(ResourceLease(task, owner, generation, r, ts, ts + seconds));
  }

  /** The durable table as an object: one method per transaction. */
  class ResourceTable {
    var rows: Rows

    constructor ()
      ensures rows == map[]
    {
      rows := map[];
    }

    method Acquire(c: Capacity, task: Id, owner: Id, r: Request, seconds: Time, ts: Time) returns (a: Answer)
      modifies this
      ensures a == TableAcquire(old(rows), c, task, owner, r, seconds, ts)
      ensures rows == RowsAfterGrant(old(rows), a)
    {
      a := TryAcquire(rows, c, task, owner, r, seconds, ts);
      if a.Granted? {
        rows := rows[task := Row(owner, a.lease.generation, r.cpu, r.memory, r.gpu, r.labels, ts, ts + seconds)];
      }
    }

    method Renew(l: ResourceLease, seconds: Time, ts: Time) returns (a: Answer)
      modifies this
      ensures a == TableRenew(old(rows), l, seconds, ts)
      ensures rows == RowsAfterRenew(old(rows), l, seconds, ts)
    {
      if seconds <= 0.0 { return Raised; }
      if l.taskId in rows && rows[l.taskId].owner == l.owner && rows[l.taskId].generation == l.generation
         && rows[l.taskId].until > ts {
        rows := rows[l.taskId := rows[l.taskId].(until := ts + seconds)];
        return Granted(l.(until := ts + seconds));
      }
      return Refused;
    }

    method Release(l: ResourceLease) returns (released: bool)
      modifies this
      ensures (rows, released) == TableRelease(old(rows), l)
      ensures forall ts :: ts >= 0.0 ==> !Validates(RowSlots(rows), ResourceIdentity(l), ts)
      ensures rows - {l.taskId} == old(rows) - {l.taskId}
    {
      if l.taskId in rows && rows[l.taskId].owner == l.owner && rows[l.taskId].generation == l.generation {
        rows := rows[l.taskId := rows[l.taskId].(until := 0.0)];
        return true;
      }
      return false;
    }

    method Validate(l: ResourceLease, ts: Time) returns (ok: bool)
      ensures ok == TableValidate(rows, l, ts)
    {
      if l.taskId !in rows { return false; }
      var row := rows[l.taskId];
      ok := row.owner == l.owner && row.generation == l.generation && row.until > ts
            && row.cpu == l.request.cpu && row.memory == l.request.memory && row.gpu == l.request.gpu
            && row.labels == l.request.labels;
    }
  }

  // ---- Runs of commands ----

  datatype Command =
    | Acquire(task: Id, owner: Id, request: Request, seconds: Time)
    | Renew(handle: ResourceLease, seconds: Time)
    | Release(handle: ResourceLease)
    | Validate(handle: ResourceLease)

  datatype Reply = Lease(answer: Answer) | Bool(b: bool)

  ghost function BrokerStep(m: Leases, c: Capacity, cmd: Command, ts: Time): (Leases, Reply) {
    match cmd
    case Acquire(task, owner, r, seconds) =>
      var a := BrokerAcquire(m, c, task, owner, r, seconds, ts);
      (Write(m, a), Lease(a))
    case Renew(l, seconds) =>
      var a := BrokerRenew(m, l, seconds, ts);
      (Write(m, a), Lease(a))
    case Release(l) => (BrokerRelease(m, l).0, Bool(BrokerRelease(m, l).1))
    case Validate(l) => (m, Bool(BrokerHolds(m, l, ts)))
  }

  ghost function TableStep(rows: Rows, c: Capacity, cmd: Command, ts: Time): (Rows, Reply) {
    match cmd
    case Acquire(task, owner, r, seconds) =>
      var a := TableAcquire(rows, c, task, owner, r, seconds, ts);
      (RowsAfterGrant(rows, a), Lease(a))
    case Renew(l, seconds) => (RowsAfterRenew(rows, l, seconds, ts), Lease(TableRenew(rows, l, seconds, ts)))
    case Release(l) => (TableRelease(rows, l).0, Bool(TableRelease(rows, l).1))
    case Validate(l) => (rows, Bool(TableValidate(rows, l, ts)))
  }

  datatype Timed = Timed(command: Command, ts: Time)

  ghost function TableAfter(rows: Rows, c: Capacity, run: seq<Timed>): Rows
    decreases |run|
  {
    if run == [] then rows else TableAfter(TableStep(rows, c, run[0].command, run[0].ts).0, c, run[1..])
  }

  ghost function BrokerAfter(m: Leases, c: Capacity, run: seq<Timed>): Leases
    decreases |run|
  {
    if run == [] then m else BrokerAfter(BrokerStep(m, c, run[0].command, run[0].ts).0, c, run[1..])
  }

  /** Timestamps start at `from` or later and do not decrease. */
  predicate Clocked(run: seq<Timed>, from: Time)
    decreases |run|
  {
    run == [] || (run[0].ts >= from && Clocked(run[1..], run[0].ts))
  }

  function LastTime(run: seq<Timed>, from: Time): Time {
    if run == [] then from else run[|run| - 1].ts
  }

  lemma AcquireSafe(rows: Rows, c: Capacity, task: Id, owner: Id, r: Request, seconds: Time, ts: Time)
    requires Safe(RowHoldings(rows), c, ts)
    ensures Safe(RowHoldings(RowsAfterGrant(rows, TableAcquire(rows, c, task, owner, r, seconds, ts))), c, ts)
  {
    var hs, a := RowHoldings(rows), TableAcquire(rows, c, task, owner, r, seconds, ts);
    if a.Granted? {
      assert RowHoldings(RowsAfterGrant(rows, a)) == hs[task := Holding(r, ts + seconds)];
      DropSafe(hs, c, ts, task);
      PutSafeIff(hs, c, ts, task, Holding(r, ts + seconds));
    }
  }

  lemma RenewSafe(rows: Rows, c: Capacity, l: ResourceLease, seconds: Time, ts: Time)
    requires Safe(RowHoldings(rows), c, ts)
    ensures Safe(RowHoldings(RowsAfterRenew(rows, l, seconds, ts)), c, ts)
  {
    if TableRenew(rows, l, seconds, ts).Granted? {
      RenewHoldings(rows, l, seconds, ts);
      ExtendSafe(RowHoldings(rows), c, ts, l.taskId, ts + seconds, RowHoldings(RowsAfterRenew(rows, l, seconds, ts)));
    }
  }

  /** What a renewal at `ts` does to a table that is safe at `at`, also when `ts` lies before `at`: it stays
      safe exactly if the renewed lease is over by then, or had not expired by then, or would be admitted
      anew. On a clock that does not decrease the second case always holds. */
  lemma RenewSafeIff(rows: Rows, c: Capacity, l: ResourceLease, seconds: Time, ts: Time, at: Time)
    requires Safe(RowHoldings(rows), c, at) && TableRenew(rows, l, seconds, ts).Granted?
    ensures Safe(RowHoldings(RowsAfterRenew(rows, l, seconds, ts)), c, at)
            <==> (|| ts + seconds <= at || rows[l.taskId].until > at
                  || Fits(RowHoldings(rows), c, at, l.taskId, RequestOf(rows[l.taskId])))
  {
    var hs := RowHoldings(rows);
    var h := hs[l.taskId].(until := ts + seconds);
    RenewHoldings(rows, l, seconds, ts);
    hide Safe, Fits;
    if h.until <= at {
      PutExpiredSafe(hs, c, at, l.taskId, h);
    } else {
      DropSafe(hs, c, at, l.taskId);
      PutSafeIff(hs, c, at, l.taskId, h);
      if hs[l.taskId].until > at {
        assert hs[l.taskId := hs[l.taskId]] == hs;
        PutSafeIff(hs, c, at, l.taskId, hs[l.taskId]);
      }
    }
  }

  lemma RenewHoldings(rows: Rows, l: ResourceLease, seconds: Time, ts: Time)
    requires TableRenew(rows, l, seconds, ts).Granted?
    ensures RowHoldings(RowsAfterRenew(rows, l, seconds, ts))
            == RowHoldings(rows)[l.taskId := RowHoldings(rows)[l.taskId].(until := ts + seconds)]
  {
  }

  lemma ReleaseSafe(rows: Rows, c: Capacity, l: ResourceLease, ts: Time)
    requires Safe(RowHoldings(rows), c, ts) && ts >= 0.0
    ensures Safe(RowHoldings(TableRelease(rows, l).0), c, ts)
  {
    var hs := RowHoldings(rows);
    if RowMatches(rows, l) {
      var h := Holding(RequestOf(rows[l.taskId]), 0.0);
      assert RowHoldings(TableRelease(rows, l).0) == hs[l.taskId := h];
      PutExpiredSafe(hs, c, ts, l.taskId, h);
    }
  }

  /** One durable step keeps the table safe, whatever handle it is given. */
  lemma TableStepSafe(rows: Rows, c: Capacity, cmd: Command, at: Time, ts: Time)
    requires Safe(RowHoldings(rows), c, at) && 0.0 <= at <= ts
    ensures Safe(RowHoldings(TableStep(rows, c, cmd, ts).0), c, ts)
  {
    SafeLater(RowHoldings(rows), c, at, ts);
    match cmd
    case Acquire(task, owner, r, seconds) => AcquireSafe(rows, c, task, owner, r, seconds, ts);
    case Renew(l, seconds) => RenewSafe(rows, c, l, seconds, ts);
    case Release(l) => ReleaseSafe(rows, c, l, ts);
    case Validate(_) =>
  }

  /** Extending a holding that is unexpired now, with its request unchanged. */
  lemma ExtendSafe(hs: Holdings, c: Capacity, at: Time, task: Id, until: Time, hs': Holdings)
    requires Safe(hs, c, at) && task in hs && hs[task].until > at && until > at
    requires hs' == hs[task := hs[task].(until := until)]
    ensures Safe(hs', c, at)
  {
    assert hs[task := hs[task]] == hs;
    PutSafeIff(hs, c, at, task, hs[task]);
    PutSafeIff(hs, c, at, task, hs[task].(until := until));
  }

  /** Durable safety over whole runs: from an empty table, on a clock that does not decrease, with
      arbitrary (even forged) handles, the unexpired leases never exceed the capacity in any dimension
      and never share an exclusive label, at the last step and at every later time. */
  lemma {:induction false} TableNeverOvercommits(rows: Rows, c: Capacity, run: seq<Timed>, from: Time, later: Time)
    requires Safe(RowHoldings(rows), c, from) && 0.0 <= from && Clocked(run, from) && LastTime(run, from) <= later
    ensures Safe(RowHoldings(TableAfter(rows, c, run)), c, later)
    decreases |run|
  {
    if run == [] {
      SafeLater(RowHoldings(rows), c, from, later);
    } else {
      TableStepSafe(rows, c, run[0].command, from, run[0].ts);
      TableNeverOvercommits(TableStep(rows, c, run[0].command, run[0].ts).0, c, run[1..], run[0].ts, later);
    }
  }

  lemma EmptySafe(c: Capacity, at: Time)
    ensures Safe(map[], c, at)
  {
    forall d ensures Used(map[], at, d) == 0 { assert Weights(map[], at, d) == map[]; }
  }

  // ---- Handles issued by the broker ----

  /** Handles agree with the stored lease of their generation and are never from the future. */
  ghost predicate Genuine(m: Leases, issued: set<ResourceLease>) {
    && (forall t :: t in m ==> m[t].taskId == t)
    && (forall l :: l in issued ==>
          && l.taskId in m && l.generation <= m[l.taskId].generation
          && (l.generation == m[l.taskId].generation ==>
                && l.owner == m[l.taskId].owner && l.request == m[l.taskId].request
                && l.claimedAt == m[l.taskId].claimedAt))
  }

  function HandleOf(cmd: Command): Option<ResourceLease> {
    match cmd
    case Acquire(_, _, _, _) => None
    case Renew(l, _) => Some(l)
    case Release(l) => Some(l)
    case Validate(l) => Some(l)
  }

  ghost function IssuedBy(reply: Reply): set<ResourceLease> {
    if reply.Lease? && reply.answer.Granted? then {reply.answer.lease} else {}
  }

  /** Every handle used was returned by an earlier call. */
  ghost predicate HandlesIssued(m: Leases, c: Capacity, issued: set<ResourceLease>, run: seq<Timed>)
    decreases |run|
  {
    run == [] ||
    (&& (HandleOf(run[0].command).Some? ==> HandleOf(run[0].command).value in issued)
     && var (m', reply) := BrokerStep(m, c, run[0].command, run[0].ts);
        HandlesIssued(m', c, issued + IssuedBy(reply), run[1..]))
  }

  predicate PositiveRenewals(run: seq<Timed>) {
    forall i :: 0 <= i < |run| && run[i].command.Renew? ==> run[i].command.seconds > 0.0
  }

  lemma GenuineStep(m: Leases, c: Capacity, issued: set<ResourceLease>, cmd: Command, ts: Time)
    requires Genuine(m, issued) && (HandleOf(cmd).Some? ==> HandleOf(cmd).value in issued)
    ensures Genuine(BrokerStep(m, c, cmd, ts).0, issued + IssuedBy(BrokerStep(m, c, cmd, ts).1))
  {
  }

  lemma BrokerStepSafe(m: Leases, c: Capacity, issued: set<ResourceLease>, cmd: Command, at: Time, ts: Time)
    requires Genuine(m, issued) && (HandleOf(cmd).Some? ==> HandleOf(cmd).value in issued)
    requires Safe(HoldingsOf(m), c, at) && 0.0 <= at <= ts
    ensures Safe(HoldingsOf(BrokerStep(m, c, cmd, ts).0), c, ts)
  {
    if cmd.Renew? && cmd.seconds <= 0.0 {
      RenewIntoThePast(m, c, cmd.handle, cmd.seconds, at, ts);
    } else {
      var rows := map t | t in m :: RowOf(m[t]);
      SameHoldings(m, rows);
      TableStepSafe(rows, c, cmd, at, ts);
      StepsAgree(m, rows, c, issued, cmd, ts);
      SameHoldings(BrokerStep(m, c, cmd, ts).0, TableStep(rows, c, cmd, ts).0);
    }
  }

  /** A renewal by a non-positive duration, which only the broker accepts, expires the lease. */
  lemma RenewIntoThePast(m: Leases, c: Capacity, l: ResourceLease, seconds: Time, at: Time, ts: Time)
    requires Safe(HoldingsOf(m), c, at) && at <= ts && seconds <= 0.0
    ensures Safe(HoldingsOf(Write(m, BrokerRenew(m, l, seconds, ts))), c, ts)
  {
    SafeLater(HoldingsOf(m), c, at, ts);
    if BrokerHolds(m, l, ts) {
      var h := Holding(l.request, ts + seconds);
      assert HoldingsOf(m[l.taskId := l.(until := ts + seconds)]) == HoldingsOf(m)[l.taskId := h];
      PutExpiredSafe(HoldingsOf(m), c, ts, l.taskId, h);
    }
  }

  lemma SameHoldings(m: Leases, rows: Rows)
    requires Same(m, rows)
    ensures HoldingsOf(m) == RowHoldings(rows)
  {
  }

  /** In-memory safety over whole runs of issued handles, renewed by any durations. */
  lemma {:induction false} BrokerNeverOvercommits(m: Leases, c: Capacity, issued: set<ResourceLease>, run: seq<Timed>,
                                                 from: Time, later: Time)
    requires Genuine(m, issued) && HandlesIssued(m, c, issued, run)
    requires Safe(HoldingsOf(m), c, from) && 0.0 <= from && Clocked(run, from) && LastTime(run, from) <= later
    ensures Safe(HoldingsOf(BrokerAfter(m, c, run)), c, later)
    decreases |run|
  {
    if run == [] {
      SafeLater(HoldingsOf(m), c, from, later);
    } else {
      var (m', reply) := BrokerStep(m, c, run[0].command, run[0].ts);
      BrokerStepSafe(m, c, issued, run[0].command, from, run[0].ts);
      GenuineStep(m, c, issued, run[0].command, run[0].ts);
      BrokerNeverOvercommits(m', c, issued + IssuedBy(reply), run[1..], run[0].ts, later);
    }
  }

  // ---- Simulation ----

  /** The dictionary and the table hold the same leases. */
  ghost predicate Same(m: Leases, rows: Rows) {
    m.Keys == rows.Keys && forall t :: t in m ==> rows[t] == RowOf(m[t])
  }

  lemma StepsAgree(m: Leases, rows: Rows, c: Capacity, issued: set<ResourceLease>, cmd: Command, ts: Time)
    requires Same(m, rows) && Genuine(m, issued)
    requires HandleOf(cmd).Some? ==> HandleOf(cmd).value in issued
    requires cmd.Renew? ==> cmd.seconds > 0.0
    ensures BrokerStep(m, c, cmd, ts).1 == TableStep(rows, c, cmd, ts).1
    ensures Same(BrokerStep(m, c, cmd, ts).0, TableStep(rows, c, cmd, ts).0)
  {
    assert HoldingsOf(m) == RowHoldings(rows);
  }

  ghost function BrokerReplies(m: Leases, c: Capacity, run: seq<Timed>): seq<Reply>
    decreases |run|
  {
    if run == [] then [] else
      var (m', reply) := BrokerStep(m, c, run[0].command, run[0].ts);
      [reply] + BrokerReplies(m', c, run[1..])
  }

  ghost function TableReplies(rows: Rows, c: Capacity, run: seq<Timed>): seq<Reply>
    decreases |run|
  {
    if run == [] then [] else
      var (rows', reply) := TableStep(rows, c, run[0].command, run[0].ts);
      [reply] + TableReplies(rows', c, run[1..])
  }

  /** The broker and the table can be told apart only by a renewal of non-positive duration, on which the
      table raises: on a sequence of calls with issued handles, at any timestamps, every answer
      (acceptance, refusal, exception, generation, expiry, validity) is the same exactly when no such renewal
      is among them, and then the final contents are the same. */
  lemma {:induction false} BrokerAndTableAgree(m: Leases, rows: Rows, c: Capacity, issued: set<ResourceLease>, run: seq<Timed>)
    requires Same(m, rows) && Genuine(m, issued) && HandlesIssued(m, c, issued, run)
    ensures BrokerReplies(m, c, run) == TableReplies(rows, c, run) <==> PositiveRenewals(run)
    ensures PositiveRenewals(run) ==> Same(BrokerAfter(m, c, run), TableAfter(rows, c, run))
    decreases |run|
  {
    if run != [] {
      var cmd, ts := run[0].command, run[0].ts;
      var (m', reply) := BrokerStep(m, c, cmd, ts);
      var (rows', reply') := TableStep(rows, c, cmd, ts);
      assert BrokerReplies(m, c, run)[0] == reply && TableReplies(rows, c, run)[0] == reply';
      if cmd.Renew? && cmd.seconds <= 0.0 {
        assert reply != reply';
      } else {
        StepsAgree(m, rows, c, issued, cmd, ts);
        GenuineStep(m, c, issued, cmd, ts);
        BrokerAndTableAgree(m', rows', c, issued + IssuedBy(reply), run[1..]);
        assert BrokerReplies(m, c, run)[1..] == BrokerReplies(m', c, run[1..]);
        assert TableReplies(rows, c, run)[1..] == TableReplies(rows', c, run[1..]);
        PositiveTail(run);
      }
    }
  }

  lemma PositiveTail(run: seq<Timed>)
    requires run != []
    ensures PositiveRenewals(run) <==> PositiveRenewals(run[1..]) && (run[0].command.Renew? ==> run[0].command.seconds > 0.0)
  {
    assert forall i :: 0 < i < |run| ==> run[i] == run[1..][i - 1];
  }

  /** From an empty table and an empty dictionary: neither is ever overcommitted, and their answers differ
      only as said above. */
  lemma RunsFromEmpty(c: Capacity, run: seq<Timed>, later: Time)
    requires Clocked(run, 0.0) && LastTime(run, 0.0) <= later
    ensures Safe(RowHoldings(TableAfter(map[], c, run)), c, later)
    ensures HandlesIssued(map[], c, {}, run) ==>
              && Safe(HoldingsOf(BrokerAfter(map[], c, run)), c, later)
              && (BrokerReplies(map[], c, run) == TableReplies(map[], c, run) <==> PositiveRenewals(run))
  {
    EmptySafe(c, 0.0);
    assert RowHoldings(map[]) == map[] && HoldingsOf(map[]) == map[];
    TableNeverOvercommits(map[], c, run, 0.0, later);
    if HandlesIssued(map[], c, {}, run) {
      BrokerNeverOvercommits(map[], c, {}, run, 0.0, later);
      BrokerAndTableAgree(map[], map[], c, {}, run);
    }
  }

  // The units of the unexpired rows.

  function CpuUnits(rows: Rows, at: Time): map<Id, nat> { map t | t in rows :: if rows[t].until > at then rows[t].cpu else 0 }

  function MemoryUnits(rows: Rows, at: Time): map<Id, nat> { map t | t in rows :: if rows[t].until > at then rows[t].memory else 0 }

  function GpuUnits(rows: Rows, at: Time): map<Id, nat> { map t | t in rows :: if rows[t].until > at then rows[t].gpu else 0 }

  /** The same safety said on the rows: in every run from an empty table, the CPU, memory and GPU units of the unexpired
      rows add up to at most the capacity, and no label is listed in two of them. */
  lemma RowsStayWithinCapacity(c: Capacity, run: seq<Timed>, later: Time)
    requires Clocked(run, 0.0) && LastTime(run, 0.0) <= later
    ensures var rows := TableAfter(map[], c, run);
            && Sum(CpuUnits(rows, later)) <= c.cpu
            && Sum(MemoryUnits(rows, later)) <= c.memory
            && Sum(GpuUnits(rows, later)) <= c.gpu
            && forall s, t, l :: (s in rows && t in rows && s != t && rows[s].until > later && rows[t].until > later
                                  && l in rows[s].labels) ==> l !in rows[t].labels
  {
    RunsFromEmpty(c, run, later);
    hide TableAfter, Safe, HandlesIssued, PositiveRenewals, BrokerReplies, TableReplies;
    SumsOnRows(TableAfter(map[], c, run), c, later);
    LabelsOnRows(TableAfter(map[], c, run), c, later);
  }

  lemma SumsOnRows(rows: Rows, c: Capacity, at: Time)
    requires Safe(RowHoldings(rows), c, at)
    ensures Sum(CpuUnits(rows, at)) <= c.cpu
    ensures Sum(MemoryUnits(rows, at)) <= c.memory
    ensures Sum(GpuUnits(rows, at)) <= c.gpu
  {
    hide Weights, CpuUnits, MemoryUnits, GpuUnits, RowHoldings;
    WeightsAreUnits(rows, at);
    var hs := RowHoldings(rows);
    assert Used(hs, at, Cpu) <= Limit(c, Cpu);
    assert Used(hs, at, Memory) <= Limit(c, Memory);
    assert Used(hs, at, Gpu) <= Limit(c, Gpu);
  }

  lemma WeightsAreUnits(rows: Rows, at: Time)
    ensures Weights(RowHoldings(rows), at, Cpu) == CpuUnits(rows, at)
    ensures Weights(RowHoldings(rows), at, Memory) == MemoryUnits(rows, at)
    ensures Weights(RowHoldings(rows), at, Gpu) == GpuUnits(rows, at)
  {
  }

  lemma LabelsOnRows(rows: Rows, c: Capacity, at: Time)
    requires Safe(RowHoldings(rows), c, at)
    ensures forall s, t, l :: (s in rows && t in rows && s != t && rows[s].until > at && rows[t].until > at
                               && l in rows[s].labels) ==> l !in rows[t].labels
  {
    var hs := RowHoldings(rows);
    forall s, t, l | s in rows && t in rows && s != t && rows[s].until > at && rows[t].until > at && l in rows[s].labels
      ensures l !in rows[t].labels
    {
      assert !SharesLabel(hs[s].request, hs[t].request) && l in hs[s].request.labels;
    }
  }

  /** Admission refuses nothing that would be safe. On a safe table and with proper arguments, a request is granted
      exactly if the task holds no unexpired lease and the table with the new lease would be safe too; and the lease is the
      one asked for, valid for exactly the seconds asked for. */
  lemma AcquireGrantsIff(rows: Rows, c: Capacity, task: Id, owner: Id, r: Request, seconds: Time, ts: Time)
    requires Safe(RowHoldings(rows), c, ts) && task != 0 && owner != 0 && seconds > 0.0
    ensures var a := TableAcquire(rows, c, task, owner, r, seconds, ts);
            && !a.Raised?
            && (a.Granted? <==> (task in rows ==> rows[task].until <= ts)
                                && Safe(RowHoldings(rows)[task := Holding(r, ts + seconds)], c, ts))
    ensures var a := TableAcquire(rows, c, task, owner, r, seconds, ts);
            a.Granted? ==>
              && a.lease == ResourceLease(task, owner, (if task in rows then rows[task].generation else 0) + 1, r, ts, ts + seconds)
              && forall at :: TableValidate(RowsAfterGrant(rows, a), a.lease, at) <==> at < ts + seconds
  {
    var hs := RowHoldings(rows);
    DropSafe(hs, c, ts, task);
    PutSafeIff(hs, c, ts, task, Holding(r, ts + seconds));
    TooLargeNeverFits(hs, c, ts, task, r);
    hide Safe, Fits, TooLarge;
  }

  lemma TooLargeNeverFits(hs: Holdings, c: Capacity, at: Time, task: Id, r: Request)
    ensures TooLarge(r, c) ==> !Fits(hs, c, at, task, r)
  {
    if Fits(hs, c, at, task, r) {
      assert Used(hs - {task}, at, Cpu) + Amount(r, Cpu) <= Limit(c, Cpu);
      assert Used(hs - {task}, at, Memory) + Amount(r, Memory) <= Limit(c, Memory);
      assert Used(hs - {task}, at, Gpu) + Amount(r, Gpu) <= Limit(c, Gpu);
    }
  }

  /** acquire raises exactly for an empty task, an empty owner or a duration that is not positive. */
  lemma AcquireRaisesIff(rows: Rows, c: Capacity, task: Id, owner: Id, r: Request, seconds: Time, ts: Time)
    ensures TableAcquire(rows, c, task, owner, r, seconds, ts).Raised? <==> task == 0 || owner == 0 || seconds <= 0.0
  {
  }

  /** A lease is valid exactly if its row has its owner, its generation and every part of its request, and has not
      expired. */
  lemma ValidIff(rows: Rows, l: ResourceLease, at: Time)
    ensures TableValidate(rows, l, at) <==>
              && l.taskId in rows && rows[l.taskId].owner == l.owner && rows[l.taskId].generation == l.generation
              && at < rows[l.taskId].until && rows[l.taskId].cpu == l.request.cpu && rows[l.taskId].memory == l.request.memory
              && rows[l.taskId].gpu == l.request.gpu && rows[l.taskId].labels == l.request.labels
  {
  }

  /** A renewal is granted exactly for a handle that holds, which then holds for exactly the seconds asked for from now;
      the row keeps everything else, its request included. */
  lemma RenewalHolds(rows: Rows, l: ResourceLease, seconds: Time, ts: Time, at: Time)
    requires seconds > 0.0
    ensures var rows' := RowsAfterRenew(rows, l, seconds, ts);
            if l.taskId in rows && rows[l.taskId].owner == l.owner && rows[l.taskId].generation == l.generation && ts < rows[l.taskId].until
            then && TableRenew(rows, l, seconds, ts) == Granted(l.(until := ts + seconds))
                 && rows' == rows[l.taskId := rows[l.taskId].(until := ts + seconds)]
                 && (Validates(RowSlots(rows'), ResourceIdentity(l), at) <==> at < ts + seconds)
            else TableRenew(rows, l, seconds, ts).Refused? && rows' == rows
  {
  }

  /** Resource identities are fenced like task identities. */
  lemma TableMovesSlots(rows: Rows, c: Capacity, cmd: Command, ts: Time)
    ensures TableMove(RowSlots(rows), RowSlots(TableStep(rows, c, cmd, ts).0), ts)
  {
  }

  /** The clock condition is needed: renewing at a time earlier than another task's acquisition
      overcommits the table. */
  lemma BackwardsClockOvercommits(c: Capacity, r: Request, a: ResourceLease, run: seq<Timed>)
    requires c == Capacity(1, 0, 0) && r == Request(1, 0, 0, []) && a == ResourceLease(1, 9, 1, r, 0.0, 10.0)
    requires run == [Timed(Acquire(1, 9, r, 10.0), 0.0), Timed(Acquire(2, 9, r, 10.0), 20.0), Timed(Renew(a, 100.0), 5.0)]
    ensures !Clocked(run, 0.0) && !Safe(RowHoldings(TableAfter(map[], c, run)), c, 25.0)
  {
    var first := RowOf(a);
    var second := RowOf(ResourceLease(2, 9, 1, r, 20.0, 30.0));
    var r1: Rows, r2: Rows := map[1 := first], map[1 := first, 2 := second];
    assert TableStep(map[], c, run[0].command, 0.0).0 == r1 by { NobodyElse(map[], c, 0.0, 1, r); }
    assert TableStep(r1, c, run[1].command, 20.0).0 == r2 by { NobodyElse(r1, c, 20.0, 2, r); }
    var r3 := TableStep(r2, c, run[2].command, 5.0).0;
    assert run[1..][1..] == [run[2]] && run[2..] == [run[2]];
    assert TableAfter(r2, c, [run[2]]) == r3;
    assert run[1..][0] == run[1] && TableAfter(r1, c, run[1..]) == r3;
    assert !Clocked([run[2]], 20.0) && !Clocked(run[1..], 0.0);
    TwoActiveUnits(RowHoldings(r3), c, 25.0);
  }

  /** Issued handles are needed by the broker: after a lease for one unit has been acquired, renewing a handle
      of the same identity that asks for two units overcommits a capacity of one. */
  lemma SwollenHandleOvercommits(c: Capacity, r: Request, l: ResourceLease, run: seq<Timed>)
    requires c == Capacity(1, 0, 0) && r == Request(1, 0, 0, [])
    requires l == ResourceLease(1, 9, 1, Request(2, 0, 0, []), 0.0, 10.0)
    requires run == [Timed(Acquire(1, 9, r, 10.0), 0.0), Timed(Renew(l, 10.0), 1.0)]
    ensures Clocked(run, 0.0) && PositiveRenewals(run)
    ensures !HandlesIssued(map[], c, {}, run) && !Safe(HoldingsOf(BrokerAfter(map[], c, run)), c, 1.0)
  {
    var first := ResourceLease(1, 9, 1, r, 0.0, 10.0);
    var m1: Leases, m2: Leases := map[1 := first], map[1 := l.(until := 11.0)];
    assert HoldingsOf(map[]) == map[] == RowHoldings(map[]);
    assert BrokerStep(map[], c, run[0].command, 0.0) == (m1, Lease(Granted(first))) by { NobodyElse(map[], c, 0.0, 1, r); }
    assert run[1..] == [run[1]] && BrokerStep(m1, c, run[1].command, 1.0).0 == m2;
    assert BrokerAfter(m1, c, [run[1]]) == BrokerAfter(m2, c, []) == m2;
    assert l !in {first} && !HandlesIssued(m1, c, {first}, [run[1]]);
    SumPick(Weights(HoldingsOf(m2), 1.0, Cpu), 1);
    assert Used(HoldingsOf(m2), 1.0, Cpu) > Limit(c, Cpu);
  }

  /** A run of issued handles on which broker and table differ: a lease is acquired and renewed by nothing. The
      broker answers, the table raises. */
  lemma EmptyRenewalDiffers(c: Capacity, r: Request, l: ResourceLease, run: seq<Timed>)
    requires c == Capacity(1, 0, 0) && r == Request(1, 0, 0, []) && l == ResourceLease(1, 9, 1, r, 0.0, 10.0)
    requires run == [Timed(Acquire(1, 9, r, 10.0), 0.0), Timed(Renew(l, 0.0), 1.0)]
    ensures Clocked(run, 0.0) && HandlesIssued(map[], c, {}, run)
    ensures BrokerReplies(map[], c, run) != TableReplies(map[], c, run)
  {
    assert HoldingsOf(map[]) == map[] == RowHoldings(map[]);
    assert BrokerStep(map[], c, run[0].command, 0.0) == (map[1 := l], Lease(Granted(l))) by { NobodyElse(map[], c, 0.0, 1, r); }
    assert run[1..] == [run[1]] && HandlesIssued(map[1 := l], c, {l}, [run[1]]);
    assert {} + {l} == {l};
    assert !PositiveRenewals(run) by { assert run[1].command.Renew? && run[1].command.seconds <= 0.0; }
    BrokerAndTableAgree(map[], map[], c, {}, run);
  }

  lemma TwoActiveUnits(hs: Holdings, c: Capacity, at: Time)
    requires c.cpu == 1 && 1 in hs && 2 in hs && hs[1].until > at && hs[2].until > at
    requires hs[1].request.cpu == 1 && hs[2].request.cpu == 1
    ensures !Safe(hs, c, at)
  {
    var w := Weights(hs, at, Cpu);
    SumPick(w, 1);
    SumPick(w - {1}, 2);
    assert Used(hs, at, Cpu) > Limit(c, Cpu);
  }

  /** With every other lease expired, a request within the capacity is admitted. */
  lemma NobodyElse(rows: Rows, c: Capacity, ts: Time, task: Id, r: Request)
    requires forall t :: t in rows && t != task ==> rows[t].until <= ts
    requires !TooLarge(r, c)
    ensures Fits(RowHoldings(rows), c, ts, task, r)
  {
    var hs := RowHoldings(rows) - {task};
    forall d ensures Used(hs, ts, d) == 0 { AllExpired(hs, ts, d); }
  }

  lemma {:induction false} AllExpired(hs: Holdings, ts: Time, d: Dimension)
    requires forall t :: t in hs ==> hs[t].until <= ts
    ensures Used(hs, ts, d) == 0
  {
    var zeros := Weights(hs, ts, d);
    SumZero(zeros);
  }

  lemma {:induction false} SumZero(m: map<Id, nat>)
    requires forall k :: k in m ==> m[k] == 0
    ensures Sum(m) == 0
    decreases |m|
  {
    if m != map[] {
      var k :| k in m;
      SumPick(m, k);
      SumZero(m - {k});
    }
  }
}
