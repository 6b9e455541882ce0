/** The dashboard's mutable core: the single-worker event queue, the recent
    sales and totals it updates, the one-at-a-time splash queue and the view
    mode. Timer expiries and hub deliveries are methods the environment calls. */
module Dashboard {
  import opened SalesTypes
  import opened Aggregation
  import opened EventQueue
  import opened ModeSchedule

  /** How long one splash stays up. */
  const SplashDwellMs := 5000

  /** The worker's counters and aggregates agree with the sales recorded so
      far: ids count up from 1 and the aggregates are those of the sequence. */
  ghost predicate Consistent(nextSaleId: int, recorded: seq<Sale>, recent: seq<Sale>, totals: Totals)
  {
    && nextSaleId == |recorded| + 1
    && (forall i :: 0 <= i < |recorded| ==> recorded[i].id == i + 1)
    && recent == RecentAfter(recorded)
    && totals == TotalsAfter(recorded)
  }

  /** Sale ids are unique and strictly increasing in recording order, and
      the counter is above every id handed out. */
  lemma SaleIdsIncrease(nextSaleId: int, recorded: seq<Sale>, recent: seq<Sale>, totals: Totals)
    requires Consistent(nextSaleId, recorded, recent, totals)
    ensures forall i, j :: 0 <= i < j < |recorded| ==> recorded[i].id < recorded[j].id
    ensures forall i :: 0 <= i < |recorded| ==> 1 <= recorded[i].id < nextSaleId
  {
  }

  /** The splash on screen is the head of the splash queue while its timer
      runs, and nothing is on screen otherwise. */
  ghost predicate ShowsHead(timerSet: bool, queue: seq<Sale>, active: Option<Sale>)
  {
    if timerSet then queue != [] && active == Some(queue[0]) else active == None
  }

  /** The splash queue holds the recorded sales not yet dismissed, and its
      timer runs exactly while it is non-empty. */
  ghost predicate SplashBacklog(recorded: seq<Sale>, dismissed: nat, queue: seq<Sale>,
                                timerSet: bool, active: Option<Sale>)
  {
    && dismissed <= |recorded|
    && queue == recorded[dismissed..]
    && ShowsHead(timerSet, queue, active)
    && (!timerSet ==> queue == [])
  }

  /** A recorded sale joins the back of the splash queue; once the queue has
      been woken, its timer runs and the head is on screen. */
  lemma SplashAfterRecord(recorded: seq<Sale>, dismissed: nat, queue: seq<Sale>, timerSet: bool,
                          active: Option<Sale>, sale: Sale, woken: Option<Sale>)
    requires SplashBacklog(recorded, dismissed, queue, timerSet, active)
    requires ShowsHead(true, queue + [sale], woken)
    ensures SplashBacklog(recorded + [sale], dismissed, queue + [sale], true, woken)
  {
    assert (recorded + [sale])[dismissed..] == recorded[dismissed..] + [sale];
  }

  /** Recording a sale under the next id through the two updaters keeps the
      counters and aggregates consistent. */
  lemma RecordKeepsConsistent(nextSaleId: int, recorded: seq<Sale>, recent: seq<Sale>,
                              totals: Totals, sale: Sale)
    requires Consistent(nextSaleId, recorded, recent, totals)
    requires sale.id == nextSaleId
    ensures Consistent(nextSaleId + 1, recorded + [sale], AddRecent(recent, sale),
                       AddToTotals(totals, sale.user, sale.value))
  {
    RecordingOneMore(recorded, sale);
  }

  /** One step of a drain: the head event is taken and the next batch
      arrives; the head joins the events taken so far. */
  lemma {:induction false} DrainTakesHead(queue: seq<RawEvent>, pending: seq<seq<RawEvent>>,
                                          consumed: seq<RawEvent>, drained: seq<RawEvent>)
    requires queue != []
    requires consumed + Delivered(queue, pending) == drained
    ensures (consumed + [queue[0]])
            + Delivered(queue[1..] + NextBatch(pending), LaterBatches(pending)) == drained
  {
    var rest := Delivered(queue[1..] + NextBatch(pending), LaterBatches(pending));
    assert Delivered(queue, pending) == [queue[0]] + rest;
    assert (consumed + [queue[0]]) + rest == consumed + ([queue[0]] + rest);
  }

  /** The head's sales, recorded under the next unused id, extend the sales
      recorded so far to those minted from the events taken so far. */
  lemma RecordHead(store: Store, e: RawEvent, consumed: seq<RawEvent>,
                   recorded: seq<Sale>, before: seq<Sale>, firstId: int, nextId: int)
    requires recorded == before + Minted(store, consumed, firstId)
    requires nextId == firstId + |Minted(store, consumed, firstId)|
    ensures recorded + MintedFrom(store, e, nextId)
            == before + Minted(store, consumed + [e], firstId)
  {
    MintedSnoc(store, consumed, e, firstId);
  }

  class DashboardView {
    var mode: Mode
    var recentSales: seq<Sale>
    var totalsByUser: Totals
    var activeSplash: Option<Sale>
    var nextSaleId: int
    var eventQueue: seq<RawEvent>
    var processing: bool
    var splashQueue: seq<Sale>
    var splashTimerSet: bool
    var unmounted: bool

    /** Every sale recorded so far, in processing order. */
    ghost var recorded: seq<Sale>
    /** How many splashes have been shown and dismissed. */
    ghost var dismissed: nat

    ghost predicate SplashShowsHead()
      reads this`splashTimerSet, this`splashQueue, this`activeSplash
    {
      ShowsHead(splashTimerSet, splashQueue, activeSplash)
    }

    /** The invariant the handlers keep, queue worker included. */
    ghost predicate Core()
      reads this`nextSaleId, this`recorded, this`recentSales, this`totalsByUser
      reads this`dismissed, this`splashQueue, this`splashTimerSet, this`activeSplash
    {
      && Consistent(nextSaleId, recorded, recentSales, totalsByUser)
      && SplashBacklog(recorded, dismissed, splashQueue, splashTimerSet, activeSplash)
    }

    /** Between handlers, an idle worker has left no event behind. */
    ghost predicate Valid()
      reads this`nextSaleId, this`recorded, this`recentSales, this`totalsByUser
      reads this`dismissed, this`splashQueue, this`splashTimerSet, this`activeSplash
      reads this`processing, this`eventQueue
    {
      Core() && (!processing ==> eventQueue == [])
    }

    constructor ()
      ensures Valid()
      ensures mode == Top && recentSales == [] && totalsByUser == map[] && activeSplash == None
      ensures nextSaleId == 1 && eventQueue == [] && !processing
      ensures splashQueue == [] && !splashTimerSet && !unmounted
      ensures recorded == [] && dismissed == 0
    {
      mode := Top;
      recentSales := [];
      totalsByUser := map[];
      activeSplash := None;
      nextSaleId := 1;
      eventQueue := [];
      processing := false;
      splashQueue := [];
      splashTimerSet := false;
      unmounted := false;
      recorded := [];
      dismissed := 0;
    }

    /** Shows the head of the splash queue, without removing it, unless a
        splash timer is already running or the queue is empty. */
    method StartSplashQueue()
      requires SplashShowsHead()
      modifies this`activeSplash, this`splashTimerSet
      ensures SplashShowsHead()
      ensures old(splashTimerSet) || splashQueue == [] ==>
                activeSplash == old(activeSplash) && splashTimerSet == old(splashTimerSet)
      ensures !old(splashTimerSet) && splashQueue != [] ==>
                splashTimerSet && activeSplash == Some(splashQueue[0])
    {
      if splashTimerSet {
        return;
      }
      if splashQueue == [] {
        return;
      }
      activeSplash := Some(splashQueue[0]);
      splashTimerSet := true;
    }

    /** The splash timer expires, SplashDwellMs after it was armed: the sale
        on screen leaves the queue and the next one, if any, is shown at once
        under a new timer. */
    method SplashTimeout()
      requires Valid() && splashTimerSet && !unmounted
      modifies this`splashQueue, this`splashTimerSet, this`activeSplash, this`dismissed
      ensures Valid()
      ensures old(activeSplash) == Some(old(splashQueue)[0])
      ensures splashQueue == old(splashQueue)[1..]
      ensures dismissed == old(dismissed) + 1
      ensures splashTimerSet == (splashQueue != [])
      ensures activeSplash == if splashQueue == [] then None else Some(splashQueue[0])
    {
      splashQueue := splashQueue[1..];
      dismissed := dismissed + 1;
      splashTimerSet := false;
      activeSplash := None;
      StartSplashQueue();
    }

    /** The hub's listener, registered while the view is mounted: queue the
        event and wake the worker. `arrivals` are the events the hub delivers
        while the worker awaits lookups. */
    method OnSalesEvent(e: RawEvent, store: Store, arrivals: seq<seq<RawEvent>>)
      requires Valid() && !unmounted
      modifies this
      decreases if processing then 0 else 1, 1
      ensures Valid()
      ensures old(processing) ==>
                && processing && eventQueue == old(eventQueue) + [e]
                && unchanged(this`recentSales, this`totalsByUser, this`activeSplash, this`nextSaleId)
                && unchanged(this`splashQueue, this`splashTimerSet, this`recorded, this`dismissed)
      ensures !old(processing) ==>
                && !processing && eventQueue == []
                && recorded == old(recorded) + Minted(store, Delivered([e], arrivals), old(nextSaleId))
                && dismissed == old(dismissed)
      ensures mode == old(mode) && unmounted == old(unmounted)
    {
      eventQueue := eventQueue + [e];
      ProcessEventQueue(store, arrivals);
    }

    /** The single queue worker. A call made while a drain is under way
        returns at once; otherwise the head event is taken, its two lookups
        are awaited (batch k of `arrivals` is delivered during the k-th
        await), and a successful enrichment mints the next sale id, updates
        the recent sales and the totals and queues a splash. A failed one is
        dropped. */
    method ProcessEventQueue(store: Store, arrivals: seq<seq<RawEvent>>)
      requires Core() && !unmounted
      modifies this
      decreases if processing then 0 else 1, 0
      ensures Valid()
      ensures old(processing) ==> unchanged(this)
      ensures !old(processing) ==>
                && !processing && eventQueue == []
                && recorded == old(recorded)
                               + Minted(store, Delivered(old(eventQueue), arrivals), old(nextSaleId))
                && dismissed == old(dismissed)
      ensures mode == old(mode) && unmounted == old(unmounted)
    {
      if processing {
        return;
      }
      processing := true;
      var pending := arrivals;
      ghost var consumed: seq<RawEvent> := [];
      while eventQueue != []
        invariant Core() && processing
        invariant unchanged(this`mode, this`unmounted, this`dismissed)
        invariant consumed + Delivered(eventQueue, pending) == Delivered(old(eventQueue), arrivals)
        invariant recorded == old(recorded) + Minted(store, consumed, old(nextSaleId))
        decreases |pending|, |eventQueue|
      {
        var e := eventQueue[0];
        DrainTakesHead(eventQueue, pending, consumed, Delivered(old(eventQueue), arrivals));
        RecordHead(store, e, consumed, recorded, old(recorded), old(nextSaleId), nextSaleId);
        var batch := NextBatch(pending);
        pending := LaterBatches(pending);
        consumed := consumed + [e];
        TakeHead(store, batch);
      }
      assert Delivered(eventQueue, pending) == [];
      assert consumed == Delivered(old(eventQueue), arrivals);
      processing := false;
      // The restart test that follows the loop in the code never fires:
      // the loop ends only on an empty queue, with no await in between.
      assert eventQueue == [];
    }

    /** One turn of the worker's loop: the head event leaves the queue, the
        hub delivers `batch` while its lookups are awaited, and then its
        sale, if any, is recorded. */
    method TakeHead(store: Store, batch: seq<RawEvent>)
      requires Core() && processing && eventQueue != [] && !unmounted
      modifies this
      decreases 0, 3
      ensures Core() && processing
      ensures eventQueue == old(eventQueue)[1..] + batch
      ensures recorded == old(recorded) + MintedFrom(store, old(eventQueue)[0], old(nextSaleId))
      ensures unchanged(this`mode, this`unmounted, this`dismissed)
    {
      var e := Shift();
      // Suspended on the two lookups: the hub may deliver more events.
      DeliverWhileBusy(batch, store);
      ProcessEvent(e, store);
    }

    /** Takes the head event off the queue. */
    method Shift() returns (e: RawEvent)
      requires Core() && eventQueue != []
      modifies this`eventQueue
      ensures Core()
      ensures e == old(eventQueue)[0] && eventQueue == old(eventQueue)[1..]
    {
      e := eventQueue[0];
      eventQueue := eventQueue[1..];
    }

    /** The hub delivers `batch` while the worker awaits lookups: each
        delivery queues its event and wakes the worker, which is busy. */
    method DeliverWhileBusy(batch: seq<RawEvent>, store: Store)
      requires Core() && processing && !unmounted
      modifies this
      decreases 0, 2
      ensures Core() && processing && eventQueue == old(eventQueue) + batch
      ensures unchanged(this`recentSales, this`totalsByUser, this`activeSplash, this`nextSaleId)
      ensures unchanged(this`splashQueue, this`splashTimerSet, this`recorded, this`dismissed)
      ensures unchanged(this`mode, this`unmounted)
    {
      for j := 0 to |batch|
        invariant Valid() && processing
        invariant eventQueue == old(eventQueue) + batch[..j]
        invariant unchanged(this`recentSales, this`totalsByUser, this`activeSplash, this`nextSaleId)
        invariant unchanged(this`splashQueue, this`splashTimerSet, this`recorded, this`dismissed)
        invariant unchanged(this`mode, this`unmounted)
      {
        OnSalesEvent(batch[j], store, []);
        assert batch[..j + 1] == batch[..j] + [batch[j]];
      }
      assert batch[..|batch|] == batch;
    }

    /** The lookups for `e` have settled. If both succeeded, the sale takes
        the next id and goes to the front of the recent sales, into its
        seller's total and to the back of the splash queue, which is woken;
        otherwise the event is dropped and nothing changes. */
    method ProcessEvent(e: RawEvent, store: Store)
      requires Core()
      modifies this`nextSaleId, this`recentSales, this`totalsByUser, this`recorded
      modifies this`splashQueue, this`activeSplash, this`splashTimerSet
      ensures Core()
      ensures recorded == old(recorded) + MintedFrom(store, e, old(nextSaleId))
      ensures splashQueue == old(splashQueue) + MintedFrom(store, e, old(nextSaleId))
    {
      var user := GetUser(store, e.userId);
      var product := GetProduct(store, e.productId);
      if user.Some? && product.Some? {
        var sale := Sale(nextSaleId, user.value, product.value, e.duration,
                         SaleValue(product.value, e.duration));
        nextSaleId := nextSaleId + 1;
        RecordSale(sale);
      }
    }

    /** A minted sale goes to the front of the recent sales, into its
        seller's total and to the back of the splash queue, which is woken. */
    method RecordSale(sale: Sale)
      requires Consistent(nextSaleId - 1, recorded, recentSales, totalsByUser)
      requires SplashBacklog(recorded, dismissed, splashQueue, splashTimerSet, activeSplash)
      requires sale.id == nextSaleId - 1
      modifies this`recentSales, this`totalsByUser, this`recorded
      modifies this`splashQueue, this`activeSplash, this`splashTimerSet
      ensures Core()
      ensures recorded == old(recorded) + [sale] && splashQueue == old(splashQueue) + [sale]
    {
      RecordKeepsConsistent(nextSaleId - 1, recorded, recentSales, totalsByUser, sale);
      ghost var before := recorded;
      ghost var timerWasSet := splashTimerSet;
      ghost var shown := activeSplash;
      recentSales := AddRecent(recentSales, sale);
      totalsByUser := AddToTotals(totalsByUser, sale.user, sale.value);
      recorded := recorded + [sale];
      splashQueue := splashQueue + [sale];
      StartSplashQueue();
      SplashAfterRecord(before, dismissed, old(splashQueue), timerWasSet, shown, sale, activeSplash);
    }

    /** The mode timeout expires: the other view is shown. */
    method ModeTimeout()
      requires !unmounted
      modifies this`mode
      ensures mode == Toggle(old(mode))
    {
      mode := Toggle(mode);
    }

    /** The delay the mode effect arms for the current view. */
    function ModeDelay(): (ms: nat)
      reads this
      ensures ModeAt(mode, ms) != mode
      ensures forall t :: 0 <= t < ms ==> ModeAt(mode, t) == mode
    {
      Dwell(mode)
    }

    /** The view goes away: the hub listener is unregistered and pending
        timeouts are cleared, so none of them fires again. */
    method Unmount()
      modifies this`unmounted
      ensures unmounted
    {
      unmounted := true;
    }
  }
}
