/** What task leases and resource leases have in common: per task one slot holding an owner, a
    generation and an expiry time. The module proves, once for both tables, that a lease identity
    which has stopped validating never validates again. */
module Fencing {
  import opened Basics

  datatype Slot = Slot(owner: Id, generation: nat, until: Time)

  type Slots = map<Id, Slot>

  datatype Identity = Identity(task: Id, owner: Id, generation: nat)

  predicate Validates(slots: Slots, id: Identity, at: Time) {
    && id.task in slots
    && slots[id.task].owner == id.owner
    && slots[id.task].generation == id.generation
    && slots[id.task].until > at
  }

  /** The identity has been reached by the generation counter and does not validate: it has
      expired, been released, been superseded, or was never handed out under this owner. */
  predicate Dead(slots: Slots, id: Identity, at: Time) {
    && id.task in slots
    && (|| slots[id.task].generation > id.generation
        || (slots[id.task].generation == id.generation
            && (slots[id.task].owner != id.owner || slots[id.task].until <= at)))
  }

  /** How one slot may change at time `ts`: not at all; taken over after it expired; renewed while
      unexpired; or released. */
  predicate SlotMove(a: Slot, b: Slot, ts: Time) {
    || b == a
    || (a.until <= ts && b.generation == a.generation + 1 && b.until > ts)
    || (a.until > ts && b.owner == a.owner && b.generation == a.generation && b.until > ts)
    || (b.owner == a.owner && b.generation == a.generation && b.until == 0.0)
  }

  ghost predicate TableMove(before: Slots, after: Slots, ts: Time) {
    && (forall t :: t in before ==> t in after && SlotMove(before[t], after[t], ts))
    && (forall t :: t in after && t !in before ==> after[t].generation == 1)
  }

  /** A table together with the time of its latest step. */
  datatype Moment = Moment(slots: Slots, clock: Time)

  /** A history of a lease table under a clock that does not decrease. */
  ghost predicate IsHistory(h: seq<Moment>) {
    && (forall i :: 0 <= i < |h| ==> h[i].clock >= 0.0)
    && (forall i :: 0 <= i < |h| - 1 ==>
          h[i].clock <= h[i + 1].clock && TableMove(h[i].slots, h[i + 1].slots, h[i + 1].clock))
  }

  predicate ValidatesAt(m: Moment, id: Identity) { Validates(m.slots, id, m.clock) }

  predicate DeadAt(m: Moment, id: Identity) { Dead(m.slots, id, m.clock) }

  lemma DeadStaysDead(before: Slots, after: Slots, id: Identity, at: Time, ts: Time)
    requires 0.0 <= at <= ts && TableMove(before, after, ts) && Dead(before, id, at)
    ensures Dead(after, id, ts) && !Validates(after, id, ts)
  {
    assert SlotMove(before[id.task], after[id.task], ts);
  }

  /** Once an identity is dead it stays dead for the rest of the history. */
  lemma {:induction false} DeadForever(h: seq<Moment>, i: nat, j: nat, id: Identity)
    requires IsHistory(h) && i <= j < |h| && DeadAt(h[i], id)
    ensures DeadAt(h[j], id) && !ValidatesAt(h[j], id)
    decreases j
  {
    if i < j {
      DeadForever(h, i, j - 1, id);
      DeadStaysDead(h[j - 1].slots, h[j].slots, id, h[j - 1].clock, h[j].clock);
    }
  }

  /** Slots are never dropped, generations never go down, and an unchanged generation means an
      unchanged owner. */
  lemma {:induction false} GenerationsGrow(h: seq<Moment>, i: nat, j: nat, task: Id)
    requires IsHistory(h) && i <= j < |h| && task in h[i].slots
    ensures task in h[j].slots
    ensures h[i].slots[task].generation <= h[j].slots[task].generation
    ensures h[i].slots[task].generation == h[j].slots[task].generation ==>
              h[i].slots[task].owner == h[j].slots[task].owner
    decreases j
  {
    if i < j {
      GenerationsGrow(h, i, j - 1, task);
      assert SlotMove(h[j - 1].slots[task], h[j].slots[task], h[j].clock);
    }
  }

  /** Validity periods are intervals: an identity that validates at two moments validates at every
      moment in between. */
  lemma ValidityIsConvex(h: seq<Moment>, i: nat, j: nat, k: nat, id: Identity)
    requires IsHistory(h) && i <= j <= k < |h|
    requires ValidatesAt(h[i], id) && ValidatesAt(h[k], id)
    ensures ValidatesAt(h[j], id)
  {
    GenerationsGrow(h, i, j, id.task);
    GenerationsGrow(h, j, k, id.task);
    if DeadAt(h[j], id) {
      DeadForever(h, j, k, id);
    }
  }

  /** Validity periods of different identities of one task do not overlap or interleave: when the
      second one has validated, the first never validates again, and generations tell their order. */
  lemma ValidityPeriodsDisjoint(h: seq<Moment>, i: nat, j: nat, k: nat, a: Identity, b: Identity)
    requires IsHistory(h) && i <= j <= k < |h|
    requires a.task == b.task && a != b
    requires ValidatesAt(h[i], a) && ValidatesAt(h[j], b)
    ensures !ValidatesAt(h[k], a)
    ensures a.generation < b.generation
  {
    GenerationsGrow(h, i, j, a.task);
    DeadForever(h, j, k, a);
  }
}
