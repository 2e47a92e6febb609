/** The scheduling order of liandanlu_native/storage.py:837-841 and of the heap items of
    liandanlu_native/runtime.py:83, shown to be a strict total order on tasks. */
module Ordering {
  import opened Basics

  /** Where a queued task stands: interactive lane first, then higher priority, then earlier
      enqueue time, then smaller id. */
  datatype Rank = Rank(lane: nat, negPriority: int, queuedAt: Time, id: Id)

  predicate Before(a: Rank, b: Rank) {
    a.lane < b.lane || (a.lane == b.lane &&
    (a.negPriority < b.negPriority || (a.negPriority == b.negPriority &&
    (a.queuedAt < b.queuedAt || (a.queuedAt == b.queuedAt && a.id < b.id)))))
  }

  lemma BeforeTotal(a: Rank, b: Rank)
    ensures a == b || Before(a, b) || Before(b, a)
  {
  }

  lemma BeforeTransitive(a: Rank, b: Rank, c: Rank)
    requires Before(a, b) && Before(b, c)
    ensures Before(a, c)
  {
  }

  lemma BeforeAsymmetric(a: Rank, b: Rank)
    requires Before(a, b)
    ensures a != b && !Before(b, a)
  {
  }

  ghost predicate IsFirst(r: Rank, s: set<Rank>) {
    r in s && forall x :: x in s && x != r ==> Before(r, x)
  }

  /** Every non-empty finite set of ranks has a first element. */
  lemma {:induction false} FirstExists(s: set<Rank>) returns (r: Rank)
    requires s != {}
    ensures IsFirst(r, s)
    decreases |s|
  {
    r :| r in s;
    var rest := s - {r};
    if rest != {} {
      var q := FirstExists(rest);
      BeforeTotal(q, r);
      if Before(q, r) {
        r := q;
      } else {
        forall x | x in s && x != r ensures Before(r, x) {
          if x != q { BeforeTransitive(r, q, x); }
        }
      }
    }
  }

  lemma FirstUnique(a: Rank, b: Rank, s: set<Rank>)
    requires IsFirst(a, s) && IsFirst(b, s)
    ensures a == b
  {
    if a != b { BeforeAsymmetric(a, b); }
  }

  ghost predicate Ascending(s: seq<Rank>) {
    forall i, j :: 0 <= i < j < |s| ==> Before(s[i], s[j])
  }

  function Elements<T>(s: seq<T>): set<T> { set x | x in s }

  /** A set of ranks can be listed in ascending order in one way only. */
  lemma {:induction false} AscendingUnique(a: seq<Rank>, b: seq<Rank>)
    requires Ascending(a) && Ascending(b) && Elements(a) == Elements(b)
    ensures a == b
  {
    if b != [] { assert b[0] in Elements(b); }
    if a != [] {
      assert a[0] in Elements(a);
      assert b != [] && b[0] in Elements(b);
      HeadIsFirst(a);
      HeadIsFirst(b);
      FirstUnique(a[0], b[0], Elements(a));
      TailElements(a);
      TailElements(b);
      AscendingUnique(a[1..], b[1..]);
      assert a == [a[0]] + a[1..] && b == [b[0]] + b[1..];
    }
  }

  lemma HeadIsFirst(a: seq<Rank>)
    requires a != [] && Ascending(a)
    ensures IsFirst(a[0], Elements(a))
  {
  }

  lemma TailElements(a: seq<Rank>)
    requires a != [] && Ascending(a)
    ensures Elements(a[1..]) == Elements(a) - {a[0]}
  {
    forall x | x in a[1..] ensures x != a[0] {
      var i :| 1 <= i < |a| && a[i] == x;
      BeforeAsymmetric(a[0], a[i]);
    }
    assert a == [a[0]] + a[1..];
  }
}
