/** `setupReveal`: every `.reveal` element is watched by one observer; the first
    time the observer reports it intersecting, it gets the "in" class and stops
    being watched. Elements are numbered in document order; the geometry that
    decides when an element intersects is abstracted into the entries the
    observer delivers. */
module Reveal {

  /** One `IntersectionObserverEntry`: the element it is about and whether the
      element is now intersecting. */
  datatype Entry = Entry(target: nat, isIntersecting: bool)

  /** The reveal state: the elements still observed, and those marked "in". */
  datatype RevealState = RevealState(watched: set<nat>, entered: set<nat>)

  /** The elements numbered below `n`. */
  function Upto(n: nat): (r: set<nat>)
    ensures forall i: nat :: i in r <==> i < n
  {
    if n == 0 then {} else Upto(n - 1) + {n - 1}
  }

  /** The state right after `items.forEach((item) => observer.observe(item))`. */
  function Initial(items: nat): (s: RevealState)
    ensures s.watched == Upto(items) && s.entered == {}
  {
    RevealState(Upto(items), {})
  }

  /** Every one of `items` elements is either still watched or already entered,
      never both: the one-shot invariant. */
  predicate Consistent(s: RevealState, items: nat) {
    s.watched + s.entered == Upto(items) && s.watched !! s.entered
  }

  /** The callback's work for one entry: an intersecting entry adds "in" to its
      target and unobserves it; any other entry changes nothing. */
  function Step(s: RevealState, e: Entry): (r: RevealState)
    ensures e.isIntersecting ==> e.target in r.entered && e.target !in r.watched
    ensures !e.isIntersecting ==> r == s
    ensures r.watched <= s.watched && s.entered <= r.entered
    ensures forall t :: t != e.target ==>
              (t in r.watched <==> t in s.watched) && (t in r.entered <==> t in s.entered)
  {
    if e.isIntersecting then
      RevealState(s.watched - {e.target}, s.entered + {e.target})
    else
      s
  }

  /** The callback run on a batch of entries, in order. */
  function Deliver(s: RevealState, entries: seq<Entry>): RevealState
    decreases |entries|
  {
    if entries == [] then s
    else Step(Deliver(s, entries[..|entries| - 1]), entries[|entries| - 1])
  }

  /** The targets of the intersecting entries of a batch. */
  function Hits(entries: seq<Entry>): (r: set<nat>)
    ensures forall t :: t in r <==> exists i :: 0 <= i < |entries| && entries[i].isIntersecting && entries[i].target == t
  {
    set i | 0 <= i < |entries| && entries[i].isIntersecting :: entries[i].target
  }

  lemma HitsOfPrefix(entries: seq<Entry>)
    requires entries != []
    ensures Hits(entries) ==
            Hits(entries[..|entries| - 1]) +
            (if entries[|entries| - 1].isIntersecting then {entries[|entries| - 1].target} else {})
  {
    var front := entries[..|entries| - 1];
    forall t ensures t in Hits(entries) ==> t in Hits(front) || (entries[|entries| - 1].isIntersecting && t == entries[|entries| - 1].target) {
      if t in Hits(entries) {
        var i :| 0 <= i < |entries| && entries[i].isIntersecting && entries[i].target == t;
        if i < |front| {
          assert front[i] == entries[i];
        }
      }
    }
    forall t | t in Hits(front) ensures t in Hits(entries) {
      var i :| 0 <= i < |front| && front[i].isIntersecting && front[i].target == t;
      assert entries[i] == front[i];
    }
  }

  /** A batch removes exactly its intersecting targets from the watched set and
      adds exactly them to the entered set. */
  lemma {:induction false} DeliverHits(s: RevealState, entries: seq<Entry>)
    ensures Deliver(s, entries) == RevealState(s.watched - Hits(entries), s.entered + Hits(entries))
    decreases |entries|
  {
    if entries != [] {
      DeliverHits(s, entries[..|entries| - 1]);
      HitsOfPrefix(entries);
    }
  }

  /** The watched set only shrinks, the entered set only grows, and an element
      no intersecting entry names keeps its state. */
  lemma {:induction false} DeliverMonotone(s: RevealState, entries: seq<Entry>)
    ensures Deliver(s, entries).watched <= s.watched
    ensures s.entered <= Deliver(s, entries).entered
    ensures forall t :: t !in Hits(entries) ==>
              (t in Deliver(s, entries).watched <==> t in s.watched) &&
              (t in Deliver(s, entries).entered <==> t in s.entered)
  {
    DeliverHits(s, entries);
  }

  /** A batch about the observed elements keeps the one-shot invariant. */
  lemma {:induction false} DeliverConsistent(s: RevealState, items: nat, entries: seq<Entry>)
    requires Consistent(s, items)
    requires forall i :: 0 <= i < |entries| ==> entries[i].target < items
    ensures Consistent(Deliver(s, entries), items)
  {
    DeliverHits(s, entries);
  }

  /** An element already entered is unaffected by any further entry about it:
      it is neither unmarked nor observed again. */
  lemma EnteredIsFinal(s: RevealState, items: nat, e: Entry)
    requires Consistent(s, items) && e.target in s.entered
    ensures Step(s, e) == s
  {
  }

  /** Two batches delivered one after the other act as their concatenation. */
  lemma {:induction false} DeliverConcat(s: RevealState, a: seq<Entry>, b: seq<Entry>)
    ensures Deliver(s, a + b) == Deliver(Deliver(s, a), b)
    decreases |b|
  {
    if b != [] {
      assert (a + b)[..|a + b| - 1] == a + b[..|b| - 1];
      assert (a + b)[|a + b| - 1] == b[|b| - 1];
      DeliverConcat(s, a, b[..|b| - 1]);
      assert Deliver(s, a + b) == Step(Deliver(s, a + b[..|b| - 1]), b[|b| - 1]);
    } else {
      assert a + b == a;
    }
  }

  /** The observer of `setupReveal`, over `items` elements numbered in document
      order. */
  class RevealObserver {
    const items: nat
    var watched: set<nat>
    var entered: set<nat>

    function State(): RevealState
      reads this
    {
      RevealState(watched, entered)
    }

    ghost predicate Valid()
      reads this
    {
      Consistent(State(), items)
    }

    /** `new IntersectionObserver(...)` followed by `observe` on every item. */
    constructor (items: nat)
      ensures this.items == items
      ensures State() == Initial(items) && Valid()
    {
      this.items := items;
      watched := {};
      entered := {};
      new;
      for i := 0 to items
        invariant watched == Upto(i) && entered == {}
      {
        watched := watched + {i};
      }
    }

    /** The callback, on one batch of entries about the observed elements. */
    method OnIntersections(entries: seq<Entry>)
      requires Valid()
      requires forall i :: 0 <= i < |entries| ==> entries[i].target < items
      modifies this
      ensures State() == Deliver(old(State()), entries) && Valid()
    {
      ghost var start := State();
      for i := 0 to |entries|
        invariant State() == Deliver(start, entries[..i])
      {
        assert entries[..i + 1][..i] == entries[..i];
        var entry := entries[i];
        if entry.isIntersecting {
          entered := entered + {entry.target};
          watched := watched - {entry.target};
        }
      }
      assert entries[..|entries|] == entries;
      DeliverConsistent(start, items, entries);
    }
  }
}
