/** What one run of the queue worker does, as functions: which events it
    takes, in which order, and which sales it mints from them. */
module EventQueue {
  import opened SalesTypes

  /** The data store's records, keyed by id. */
  datatype Store = Store(users: map<int, User>, products: map<int, Product>)

  /** The user lookup: the record, or nothing when the id is unknown. */
  function GetUser(store: Store, id: int): Option<User>
  {
    if id in store.users then Some(store.users[id]) else None
  }

  /** The product lookup: the record, or nothing when the id is unknown. */
  function GetProduct(store: Store, id: int): Option<Product>
  {
    if id in store.products then Some(store.products[id]) else None
  }

  /** Both lookups for `e` succeed. */
  predicate Enriches(store: Store, e: RawEvent)
  {
    e.userId in store.users && e.productId in store.products
  }

  /** The sale an enriched event becomes under id `id`. */
  function SaleFor(store: Store, e: RawEvent, id: int): Sale
    requires Enriches(store, e)
  {
    var product := store.products[e.productId];
    Sale(id, store.users[e.userId], product, e.duration, SaleValue(product, e.duration))
  }

  /** The sale minted for `e` with id `id`: both lookups are awaited together
      and the sale exists only when both succeed. */
  function MintSale(store: Store, e: RawEvent, id: int): (sale: Option<Sale>)
    ensures sale.Some? <==> GetUser(store, e.userId).Some? && GetProduct(store, e.productId).Some?
    ensures sale.Some? ==> sale.value.id == id && sale.value.user == GetUser(store, e.userId).value
                           && sale.value.product == GetProduct(store, e.productId).value
                           && sale.value.duration == e.duration
                           && sale.value.value == SaleValue(sale.value.product, e.duration)
  {
    if Enriches(store, e) then Some(SaleFor(store, e, id)) else None
  }

  /** The sales one event yields: its sale, or none. */
  function MintedFrom(store: Store, e: RawEvent, id: int): (sales: seq<Sale>)
    ensures |sales| <= 1
    ensures |sales| == 1 <==> Enriches(store, e)
    ensures sales != [] ==> MintSale(store, e, id) == Some(sales[0]) && sales[0].id == id
  {
    if Enriches(store, e) then [SaleFor(store, e, id)] else []
  }

  /** The events, in order, whose two lookups both succeed. */
  function Enriched(store: Store, events: seq<RawEvent>): (kept: seq<RawEvent>)
    ensures forall i :: 0 <= i < |kept| ==> Enriches(store, kept[i])
  {
    if events == [] then []
    else
      var earlier := Enriched(store, events[..|events| - 1]);
      var e := events[|events| - 1];
      if Enriches(store, e) then earlier + [e] else earlier
  }

  /** Enriched events turned into sales, ids counting up from `firstId`. */
  function Numbered(store: Store, kept: seq<RawEvent>, firstId: int): (sales: seq<Sale>)
    requires forall i :: 0 <= i < |kept| ==> Enriches(store, kept[i])
  {
    seq(|kept|, i requires 0 <= i < |kept| => SaleFor(store, kept[i], firstId + i))
  }

  /** The sales minted from `events` taken in order, ids counting up from
      `firstId`; an event whose enrichment fails is dropped. */
  function Minted(store: Store, events: seq<RawEvent>, firstId: int): (sales: seq<Sale>)
    ensures |sales| <= |events|
    ensures forall i :: 0 <= i < |sales| ==> sales[i].id == firstId + i
  {
    EnrichedNoLonger(store, events);
    Numbered(store, Enriched(store, events), firstId)
  }

  lemma {:induction false} EnrichedNoLonger(store: Store, events: seq<RawEvent>)
    ensures |Enriched(store, events)| <= |events|
  {
    if events != [] {
      EnrichedNoLonger(store, events[..|events| - 1]);
    }
  }

  /** Filtering one more event keeps it exactly when its lookups succeed. */
  lemma EnrichedSnoc(store: Store, events: seq<RawEvent>, e: RawEvent)
    ensures Enriched(store, events + [e])
            == Enriched(store, events) + (if Enriches(store, e) then [e] else [])
  {
    var all := events + [e];
    assert all[..|all| - 1] == events;
    assert all[|all| - 1] == e;
  }

  /** Taking one more event extends the minted sales by that event's sale,
      under the next unused id, or by nothing when its enrichment fails. */
  lemma MintedSnoc(store: Store, events: seq<RawEvent>, e: RawEvent, id: int)
    ensures Minted(store, events + [e], id)
            == Minted(store, events, id) + MintedFrom(store, e, id + |Minted(store, events, id)|)
  {
    EnrichedSnoc(store, events, e);
    var kept := Enriched(store, events);
    var sales := Minted(store, events, id);
    assert |sales| == |kept|;
    if Enriches(store, e) {
      var more := Minted(store, events + [e], id);
      assert more == Numbered(store, kept + [e], id);
      assert more == sales + [SaleFor(store, e, id + |kept|)];
    } else {
      assert Minted(store, events + [e], id) == Numbered(store, kept, id);
    }
  }

  /** A failed enrichment drops only its own event: the others yield exactly
      the sales, with the same ids, that they yield without it. */
  lemma FailedEventIsDropped(store: Store, a: seq<RawEvent>, e: RawEvent, b: seq<RawEvent>, id: int)
    requires !Enriches(store, e)
    ensures Minted(store, a + [e] + b, id) == Minted(store, a + b, id)
  {
    FailedEventIsFiltered(store, a, e, b);
  }

  lemma {:induction false} FailedEventIsFiltered(store: Store, a: seq<RawEvent>, e: RawEvent,
                                                 b: seq<RawEvent>)
    requires !Enriches(store, e)
    ensures Enriched(store, a + [e] + b) == Enriched(store, a + b)
  {
    if b == [] {
      assert a + [e] + b == a + [e] && a + b == a;
      EnrichedSnoc(store, a, e);
    } else {
      var rest := b[..|b| - 1];
      var last := b[|b| - 1];
      FailedEventIsFiltered(store, a, e, rest);
      assert a + [e] + b == (a + [e] + rest) + [last];
      assert a + b == (a + rest) + [last];
      EnrichedSnoc(store, a + [e] + rest, last);
      EnrichedSnoc(store, a + rest, last);
    }
  }

  /** When every enrichment succeeds, the i-th event yields the i-th sale,
      carrying id firstId + i. */
  lemma EverySuccessMinted(store: Store, events: seq<RawEvent>, firstId: int)
    requires forall i :: 0 <= i < |events| ==> Enriches(store, events[i])
    ensures |Minted(store, events, firstId)| == |events|
    ensures forall i :: 0 <= i < |events| ==>
              Some(Minted(store, events, firstId)[i]) == MintSale(store, events[i], firstId + i)
  {
    NothingFiltered(store, events);
  }

  lemma {:induction false} NothingFiltered(store: Store, events: seq<RawEvent>)
    requires forall i :: 0 <= i < |events| ==> Enriches(store, events[i])
    ensures Enriched(store, events) == events
  {
    if events != [] {
      var earlier := events[..|events| - 1];
      NothingFiltered(store, earlier);
      assert earlier + [events[|events| - 1]] == events;
    }
  }

  /** The events that arrive while the head event's lookups are pending. */
  function NextBatch(arrivals: seq<seq<RawEvent>>): seq<RawEvent>
  {
    if arrivals == [] then [] else arrivals[0]
  }

  function LaterBatches(arrivals: seq<seq<RawEvent>>): seq<seq<RawEvent>>
  {
    if arrivals == [] then [] else arrivals[1..]
  }

  /** The events one drain takes, in order, from a queue holding `queue` when
      batch k of `arrivals` is appended during the k-th event's lookups. */
  function Delivered(queue: seq<RawEvent>, arrivals: seq<seq<RawEvent>>): seq<RawEvent>
    decreases |arrivals|, |queue|
  {
    if queue == [] then []
    else [queue[0]] + Delivered(queue[1..] + NextBatch(arrivals), LaterBatches(arrivals))
  }

  function Flatten(batches: seq<seq<RawEvent>>): seq<RawEvent>
  {
    if batches == [] then [] else batches[0] + Flatten(batches[1..])
  }

  /** The number of batches a drain that takes `taken` events receives: one
      per await, while batches remain. */
  function BatchesReceived(arrivals: seq<seq<RawEvent>>, taken: nat): nat
  {
    if |arrivals| < taken then |arrivals| else taken
  }

  /** First in, first out: a drain takes everything queued when it starts, in
      order, then only events that arrived later, in their arrival order; no
      arrival is missed: every batch delivered during one of its awaits is
      taken, whole and in order; and nothing is taken before it is queued:
      the j-th event taken was in the queue before the j-th await, so the
      drain ends as soon as the queue first runs dry. */
  lemma DeliveredInArrivalOrder(queue: seq<RawEvent>, arrivals: seq<seq<RawEvent>>)
    ensures queue <= Delivered(queue, arrivals)
    ensures Delivered(queue, arrivals) <= queue + Flatten(arrivals)
    ensures var d := Delivered(queue, arrivals);
            d == queue + Flatten(arrivals[..BatchesReceived(arrivals, |d|)])
    ensures var d := Delivered(queue, arrivals);
            forall j :: 0 <= j < |d| ==> j < |queue| + |Flatten(arrivals[..BatchesReceived(arrivals, j)])|
  {
    DeliveredOnlyQueued(queue, arrivals);
    DeliveredEveryArrival(queue, arrivals);
    var d := Delivered(queue, arrivals);
    var k := BatchesReceived(arrivals, |d|);
    FlattenSplit(arrivals, k);
    assert queue + Flatten(arrivals) == d + Flatten(arrivals[k..]);
  }

  /** Flattening splits at any batch boundary. */
  lemma {:induction false} FlattenSplit(batches: seq<seq<RawEvent>>, k: nat)
    requires k <= |batches|
    ensures Flatten(batches) == Flatten(batches[..k]) + Flatten(batches[k..])
  {
    if k == 0 {
      assert batches[..0] == [] && batches[0..] == batches;
    } else {
      FlattenSplit(batches[1..], k - 1);
      FlattenFront(batches, k - 1);
      assert batches[1..][k - 1..] == batches[k..];
    }
  }

  lemma {:induction false} DeliveredEveryArrival(queue: seq<RawEvent>, arrivals: seq<seq<RawEvent>>)
    ensures var d := Delivered(queue, arrivals);
            d == queue + Flatten(arrivals[..BatchesReceived(arrivals, |d|)])
    decreases |arrivals|, |queue|
  {
    if queue == [] {
      assert arrivals[..BatchesReceived(arrivals, 0)] == [];
    } else {
      var next := queue[1..] + NextBatch(arrivals);
      DeliveredEveryArrival(next, LaterBatches(arrivals));
      var rest := Delivered(next, LaterBatches(arrivals));
      assert Delivered(queue, arrivals) == [queue[0]] + rest;
      NoArrivalMissed(queue, arrivals, rest);
    }
  }

  lemma {:induction false} DeliveredOnlyQueued(queue: seq<RawEvent>, arrivals: seq<seq<RawEvent>>)
    ensures var d := Delivered(queue, arrivals);
            forall j :: 0 <= j < |d| ==> j < |queue| + |Flatten(arrivals[..BatchesReceived(arrivals, j)])|
    decreases |arrivals|, |queue|
  {
    if queue != [] {
      var next := queue[1..] + NextBatch(arrivals);
      var later := LaterBatches(arrivals);
      DeliveredOnlyQueued(next, later);
      var d := Delivered(queue, arrivals);
      var rest := Delivered(next, later);
      assert d == [queue[0]] + rest;
      forall j | 0 <= j < |d|
        ensures j < |queue| + |Flatten(arrivals[..BatchesReceived(arrivals, j)])|
      {
        if j > 0 {
          var m := BatchesReceived(later, j - 1);
          assert j - 1 < |next| + |Flatten(later[..m])|;
          if arrivals == [] {
            assert later[..m] == [];
          } else {
            FlattenFront(arrivals, m);
          }
        }
      }
    }
  }

  /** One step of the drain: the head is taken and, when a batch remains, it
      is received; what follows the head continues with that batch. */
  lemma NoArrivalMissed(queue: seq<RawEvent>, arrivals: seq<seq<RawEvent>>, rest: seq<RawEvent>)
    requires queue != []
    requires rest == queue[1..] + NextBatch(arrivals)
                     + Flatten(LaterBatches(arrivals)[..BatchesReceived(LaterBatches(arrivals), |rest|)])
    ensures [queue[0]] + rest == queue + Flatten(arrivals[..BatchesReceived(arrivals, |rest| + 1)])
  {
    assert queue == [queue[0]] + queue[1..];
    if arrivals == [] {
      assert arrivals[..BatchesReceived(arrivals, |rest| + 1)] == [];
    } else {
      var m := BatchesReceived(LaterBatches(arrivals), |rest|);
      FlattenFront(arrivals, m);
    }
  }

  lemma FlattenFront(batches: seq<seq<RawEvent>>, m: nat)
    requires m < |batches|
    ensures Flatten(batches[..m + 1]) == batches[0] + Flatten(batches[1..][..m])
  {
    assert batches[..m + 1][1..] == batches[1..][..m];
  }
}
