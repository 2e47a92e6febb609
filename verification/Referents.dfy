/** The bounded referent stack: liandanlu_native/context.py:16-24. */
module Referents {
  import opened Basics

  datatype Referent = Referent(ref: Id, source: string, score: real)

  const LIMIT: nat := 32

  function Without(items: seq<Referent>, ref: Id): seq<Referent> {
    if items == [] then []
    else if items[0].ref == ref then Without(items[1..], ref)
    else [items[0]] + Without(items[1..], ref)
  }

  function Truncate(items: seq<Referent>): seq<Referent> { if |items| <= LIMIT then items else items[..LIMIT] }

  function Push(items: seq<Referent>, r: Referent): seq<Referent> { Truncate([r] + Without(items, r.ref)) }

  /** The stack after a history of pushes, oldest first. */
  function Stack(history: seq<Referent>): seq<Referent> {
    if history == [] then [] else Push(Stack(history[..|history| - 1]), history[|history| - 1])
  }

  class ReferentStack {
    var items: seq<Referent>

    constructor ()
      ensures items == []
    {
      items := [];
    }

    method PushReferent(ref: Id, source: string, score: real)
      modifies this
      ensures items == Push(old(items), Referent(ref, source, score))
    {
      var kept := Remove(items, ref);
      items := [Referent(ref, source, score)] + kept;
      if |items| > 32 { items := items[..32]; }
    }
  }

  /** The list comprehension that drops earlier entries for `ref`. */
  method Remove(items: seq<Referent>, ref: Id) returns (kept: seq<Referent>)
    ensures kept == Without(items, ref)
  {
    kept := [];
    for i := 0 to |items|
      invariant kept + Without(items[i..], ref) == Without(items, ref)
    {
      if items[i].ref != ref { kept := kept + [items[i]]; }
    }
  }

  lemma {:induction false} WithoutAppend(a: seq<Referent>, b: seq<Referent>, ref: Id)
    ensures Without(a + b, ref) == Without(a, ref) + Without(b, ref)
    decreases |a|
  {
    if a == [] {
      assert a + b == b;
    } else {
      assert (a + b)[1..] == a[1..] + b;
      WithoutAppend(a[1..], b, ref);
    }
  }

  lemma {:induction false} WithoutElements(items: seq<Referent>, ref: Id, x: Referent)
    ensures x in Without(items, ref) <==> x in items && x.ref != ref
    decreases |items|
  {
    if items != [] {
      WithoutElements(items[1..], ref, x);
      assert x in items <==> x == items[0] || x in items[1..];
    }
  }

  // ---- The reference: everything ever pushed, each referent once, most recent push first ----

  function Distinct(history: seq<Referent>): seq<Referent> {
    if history == [] then [] else
      var r := history[|history| - 1];
      [r] + Without(Distinct(history[..|history| - 1]), r.ref)
  }

  ghost predicate OneEach(items: seq<Referent>) {
    forall i, j :: 0 <= i < j < |items| ==> items[i].ref != items[j].ref
  }

  /** Removing one referent from a list with one entry each shortens it by at most one. */
  lemma {:induction false} WithoutShortensByOne(items: seq<Referent>, ref: Id)
    requires OneEach(items)
    ensures |Without(items, ref)| >= |items| - 1
    ensures (forall i :: 0 <= i < |items| ==> items[i].ref != ref) ==> Without(items, ref) == items
    decreases |items|
  {
    if items != [] { WithoutShortensByOne(items[1..], ref); }
  }

  lemma {:induction false} WithoutOneEach(items: seq<Referent>, ref: Id)
    requires OneEach(items)
    ensures OneEach(Without(items, ref))
    decreases |items|
  {
    if items != [] {
      WithoutOneEach(items[1..], ref);
      var rest := Without(items[1..], ref);
      forall j | 0 <= j < |rest| ensures rest[j].ref != items[0].ref {
        WithoutElements(items[1..], ref, rest[j]);
        assert rest[j] in items[1..];
      }
    }
  }

  lemma {:induction false} DistinctOneEach(history: seq<Referent>)
    ensures OneEach(Distinct(history))
    decreases |history|
  {
    if history != [] {
      var r, before := history[|history| - 1], Distinct(history[..|history| - 1]);
      DistinctOneEach(history[..|history| - 1]);
      WithoutOneEach(before, r.ref);
      forall j | 0 <= j < |Without(before, r.ref)| ensures Without(before, r.ref)[j].ref != r.ref {
        WithoutElements(before, r.ref, Without(before, r.ref)[j]);
      }
    }
  }

  lemma TruncateCommutes(items: seq<Referent>, r: Referent)
    requires OneEach(items)
    ensures Push(Truncate(items), r) == Truncate([r] + Without(items, r.ref))
  {
    if |items| > LIMIT {
      var front, back := items[..LIMIT], items[LIMIT..];
      assert items == front + back;
      WithoutAppend(front, back, r.ref);
      WithoutShortensByOne(front, r.ref);
    }
  }

  /** Truncating after every push loses nothing against truncating the full history once. */
  lemma {:induction false} StackIsTruncatedHistory(history: seq<Referent>)
    ensures Stack(history) == Truncate(Distinct(history))
    decreases |history|
  {
    if history != [] {
      StackIsTruncatedHistory(history[..|history| - 1]);
      DistinctOneEach(history[..|history| - 1]);
      TruncateCommutes(Distinct(history[..|history| - 1]), history[|history| - 1]);
    }
  }

  /** The position of the last push of `ref`, or -1. */
  function Last(history: seq<Referent>, ref: Id): (i: int)
    ensures -1 <= i < |history| && (i >= 0 ==> history[i].ref == ref)
  {
    if history == [] then -1
    else if history[|history| - 1].ref == ref then |history| - 1
    else Last(history[..|history| - 1], ref)
  }

  /** `items` are last pushes, at decreasing positions below `bound`. */
  predicate Descends(history: seq<Referent>, items: seq<Referent>, bound: int)
    decreases |items|
  {
    items == [] ||
    (var p := Last(history, items[0].ref);
     0 <= p < bound && items[0] == history[p] && Descends(history, items[1..], p))
  }

  predicate HasRef(items: seq<Referent>, ref: Id)
    decreases |items|
  {
    items != [] && (items[0].ref == ref || HasRef(items[1..], ref))
  }

  lemma DescendsWeaken(history: seq<Referent>, items: seq<Referent>, bound: int, more: int)
    requires Descends(history, items, bound) && bound <= more
    ensures Descends(history, items, more)
  {
  }

  lemma {:induction false} WithoutDescends(history: seq<Referent>, items: seq<Referent>, bound: int)
    requires history != [] && Descends(history[..|history| - 1], items, bound)
    ensures Descends(history, Without(items, history[|history| - 1].ref), bound)
    decreases |items|
  {
    if items != [] {
      var p := Last(history[..|history| - 1], items[0].ref);
      WithoutDescends(history, items[1..], p);
      if items[0].ref == history[|history| - 1].ref {
        DescendsWeaken(history, Without(items, history[|history| - 1].ref), p, bound);
      }
    }
  }

  lemma {:induction false} DistinctDescends(history: seq<Referent>)
    ensures Descends(history, Distinct(history), |history|)
    decreases |history|
  {
    if history != [] {
      DistinctDescends(history[..|history| - 1]);
      WithoutDescends(history, Distinct(history[..|history| - 1]), |history| - 1);
    }
  }

  lemma {:induction false} WithoutHasRef(items: seq<Referent>, gone: Id, ref: Id)
    ensures HasRef(Without(items, gone), ref) <==> ref != gone && HasRef(items, ref)
    decreases |items|
  {
    if items != [] { WithoutHasRef(items[1..], gone, ref); }
  }

  lemma {:induction false} DistinctIsComplete(history: seq<Referent>, ref: Id)
    ensures HasRef(Distinct(history), ref) <==> Last(history, ref) >= 0
    decreases |history|
  {
    if history != [] {
      DistinctIsComplete(history[..|history| - 1], ref);
      WithoutHasRef(Distinct(history[..|history| - 1]), history[|history| - 1].ref, ref);
    }
  }

  lemma {:induction false} DescendsSplit(history: seq<Referent>, a: seq<Referent>, b: seq<Referent>, bound: int)
    requires Descends(history, a + b, bound)
    ensures Descends(history, a, bound)
    ensures a != [] ==> Descends(history, b, Last(history, a[|a| - 1].ref))
    decreases |a|
  {
    if a != [] {
      assert (a + b)[1..] == a[1..] + b;
      DescendsSplit(history, a[1..], b, Last(history, a[0].ref));
      if |a| == 1 { assert a[1..] + b == b; }
    }
  }

  lemma {:induction false} DescendsBelow(history: seq<Referent>, items: seq<Referent>, bound: int, ref: Id)
    requires Descends(history, items, bound) && HasRef(items, ref)
    ensures Last(history, ref) < bound
    decreases |items|
  {
    if items[0].ref != ref { DescendsBelow(history, items[1..], Last(history, items[0].ref), ref); }
  }

  lemma {:induction false} HasRefAppend(a: seq<Referent>, b: seq<Referent>, ref: Id)
    ensures HasRef(a + b, ref) <==> HasRef(a, ref) || HasRef(b, ref)
    decreases |a|
  {
    if a == [] {
      assert a + b == b;
    } else {
      assert (a + b)[1..] == a[1..] + b;
      HasRefAppend(a[1..], b, ref);
    }
  }

  /** After any pushes the stack holds, most recent first, the last pushes (with their latest source and
      score) of distinct referents; and a referent that was pushed but is missing was last pushed before
      every one of the 32 that are kept. */
  lemma StackIsMostRecentDistinct(history: seq<Referent>, ref: Id)
    ensures Descends(history, Stack(history), |history|) && |Stack(history)| <= 32
    ensures HasRef(Stack(history), ref) ==> Last(history, ref) >= 0
    ensures Last(history, ref) >= 0 && !HasRef(Stack(history), ref) ==>
              |Stack(history)| == 32 && Last(history, ref) < Last(history, Stack(history)[31].ref)
  {
    var all, kept := Distinct(history), Stack(history);
    StackIsTruncatedHistory(history);
    DistinctDescends(history);
    DistinctIsComplete(history, ref);
    var dropped := all[|kept|..];
    assert all == kept + dropped;
    DescendsSplit(history, kept, dropped, |history|);
    HasRefAppend(kept, dropped, ref);
    if HasRef(dropped, ref) {
      DescendsBelow(history, dropped, Last(history, kept[LIMIT - 1].ref), ref);
    }
  }
}
