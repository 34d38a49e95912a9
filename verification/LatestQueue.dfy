/**
 A latest-only queue: at most one entry per kind, a newer entry replaces the older one of its
 kind, and entries leave in the order in which they were put. Both live queues of the service (the
 adapter's pending publications and the transport's pending frames) are built on it.
 */
module LatestQueue {
  import opened Basics

  datatype Entry<T> = Entry(order: nat, item: T)

  datatype Latest<!K(==), T> = Latest(pending: map<K, Entry<T>>, order: nat)

  function Empty<K, T>(): Latest<K, T> {
    Latest(map[], 0)
  }

  /** Entries are numbered apart, and the counter is at least as far as any of them. */
  ghost predicate Numbered<K(!new), T>(q: Latest<K, T>) {
    && (forall k | k in q.pending :: q.pending[k].order <= q.order)
    && (forall j, k | j in q.pending && k in q.pending && q.pending[j].order == q.pending[k].order :: j == k)
  }

  function Put<K, T>(q: Latest<K, T>, kind: K, item: T): Latest<K, T> {
    Latest(q.pending[kind := Entry(q.order + 1, item)], q.order + 1)
  }

  function Drop<K, T>(q: Latest<K, T>, kinds: set<K>): Latest<K, T> {
    q.(pending := q.pending - kinds)
  }

  ghost predicate IsOldest<K(!new), T>(q: Latest<K, T>, kind: K) {
    kind in q.pending && forall k | k in q.pending :: q.pending[kind].order <= q.pending[k].order
  }

  /** The kinds whose entries leave before the one of `kind`. */
  function Ahead<K, T>(q: Latest<K, T>, kind: K): set<K>
    requires kind in q.pending
  {
    set k | k in q.pending && q.pending[k].order < q.pending[kind].order
  }

  lemma PutKeepsNumbered<K(!new), T>(q: Latest<K, T>, kind: K, item: T)
    requires Numbered(q)
    ensures Numbered(Put(q, kind, item))
  {
  }

  lemma DropKeepsNumbered<K(!new), T>(q: Latest<K, T>, kinds: set<K>)
    requires Numbered(q)
    ensures Numbered(Drop(q, kinds))
  {
  }

  /** Nothing that is put later gets ahead of an entry that is not replaced. */
  lemma PutNeverOvertakes<K(!new), T>(q: Latest<K, T>, kind: K, item: T, waiting: K)
    requires Numbered(q) && waiting in q.pending && kind != waiting
    ensures Ahead(Put(q, kind, item), waiting) == Ahead(q, waiting) - {kind}
  {
  }

  lemma DropNeverOvertakes<K(!new), T>(q: Latest<K, T>, kinds: set<K>, waiting: K)
    requires waiting in q.pending && waiting !in kinds
    ensures Ahead(Drop(q, kinds), waiting) == Ahead(q, waiting) - kinds
  {
  }

  /** Taking the oldest entry brings every other one a place forward. */
  lemma TakingOldestAdvances<K(!new), T>(q: Latest<K, T>, oldest: K, waiting: K)
    requires Numbered(q) && IsOldest(q, oldest) && waiting in q.pending && waiting != oldest
    ensures oldest in Ahead(q, waiting) && |Ahead(Drop(q, {oldest}), waiting)| == |Ahead(q, waiting)| - 1
  {
    assert Ahead(Drop(q, {oldest}), waiting) == Ahead(q, waiting) - {oldest};
  }

  lemma {:induction false} OldestOf<K(!new), T>(q: Latest<K, T>, kinds: set<K>) returns (oldest: K)
    requires kinds <= q.pending.Keys && kinds != {}
    ensures oldest in kinds && forall k | k in kinds :: q.pending[oldest].order <= q.pending[k].order
  {
    var k :| k in kinds;
    oldest := k;
    if kinds != {k} {
      var o := OldestOf(q, kinds - {k});
      if q.pending[o].order < q.pending[k].order {
        oldest := o;
      }
    }
  }

  /** With `kinds` the kinds there are, fewer than |kinds| entries leave before any given one. */
  lemma AheadIsBounded<K(!new), T>(q: Latest<K, T>, kind: K, kinds: set<K>)
    requires kind in q.pending && q.pending.Keys <= kinds
    ensures |Ahead(q, kind)| <= |kinds| - 1
  {
    assert Ahead(q, kind) <= kinds - {kind};
    SubsetIsNoLarger(Ahead(q, kind), kinds - {kind});
  }

  /** The queue as the mutable map and counter it is. */
  class PendingMap<!K(==, !new), T> {
    var pending: map<K, Entry<T>>
    var order: nat

    function View(): Latest<K, T>
      reads this
    {
      Latest(pending, order)
    }

    constructor ()
      ensures View() == Empty()
    {
      pending, order := map[], 0;
    }

    method Insert(kind: K, item: T)
      modifies this
      ensures View() == Put(old(View()), kind, item)
    {
      order := order + 1;
      pending := pending[kind := Entry(order, item)];
    }

    /** Finds and removes an oldest entry. */
    method Take() returns (taken: Option<(K, T)>)
      modifies this
      ensures taken.None? <==> old(pending) == map[]
      ensures taken.None? ==> View() == old(View())
      ensures taken.Some? ==> IsOldest(old(View()), taken.value.0) && taken.value.1 == old(pending)[taken.value.0].item
      ensures taken.Some? ==> View() == Drop(old(View()), {taken.value.0})
    {
      taken := None;
      var key: Option<K> := None;
      var rest := pending.Keys;
      while rest != {}
        invariant rest <= pending.Keys
        invariant key.None? ==> rest == pending.Keys
        invariant key.Some? ==> key.value in pending
        invariant key.Some? ==> forall k | k in pending && k !in rest :: pending[key.value].order <= pending[k].order
        decreases |rest|
      {
        var k :| k in rest;
        if key.None? || pending[k].order < pending[key.value].order {
          key := Some(k);
        }
        rest := rest - {k};
      }
      if key.Some? {
        taken := Some((key.value, pending[key.value].item));
        pending := pending - {key.value};
      }
    }

    method Clear()
      modifies this
      ensures View() == old(View()).(pending := map[])
    {
      pending := map[];
    }
  }
}
