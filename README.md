# Sales dashboard core

This project models the logic inside the sales dashboard view
(`_frontend/src/ts/components/dashboard.tsx`). The view listens to a hub of
raw sale events and keeps four things up to date.

- **The event queue.** One worker drains a FIFO of raw events, guarded by a
  `processing` flag. For each event it looks up the user and the product. If
  both lookups succeed, it mints a sale under the next id from a counter that
  starts at 1. A failed lookup drops only that event.
- **The aggregates.** The ten most recent sales are kept newest first. Each
  user's running total is kept in a record keyed by user id. The top-ten
  leaderboard is derived from that record.
- **The splash sequencer.** This is a FIFO of sales plus a single timer
  handle. The head of the FIFO is on screen while its 5-second timer runs.
- **The mode scheduler.** It shows the top sellers for 60 s, then the recent
  sales for 30 s, and repeats.

Modules:

- `SalesTypes` (sales_types.dfy) holds the records: user, product, raw event,
  sale and leaderboard entry. Money is in integer cents.
- `Aggregation` (aggregation.dfy) holds the recent-sales updater and the
  totals updater as functions. It also gives reference definitions of the
  aggregates after a whole sequence of sales (`RecentAfter`, `TotalsAfter`,
  `SumFor`).
- `Leaderboard` (leaderboard.dfy) holds the top-sellers derivation:
  - `Object.values` over integer keys, which enumerates them in ascending key
    order;
  - the comparator sort, which is stable (modelled as insertion sort);
  - the cut to ten entries.
- `ModeSchedule` (mode_schedule.dfy) holds the mode toggle, the dwell per
  mode, and the mode shown at any elapsed time.
- `EventQueue` (event_queue.dfy) describes one drain as functions:
  - `Delivered` gives which events it takes, and in which order.
  - `Minted` gives which sales those events yield.
- `Dashboard` (dashboard.dfy) holds the class `DashboardView`. Its fields are
  the component's state and refs. Its methods are the handlers:
  - the hub callback;
  - the queue worker, with a `while` loop;
  - `startSplashQueue` and the splash timer's expiry;
  - the mode timer's expiry;
  - unmount.

  The class keeps two ghost fields: `recorded` (every sale recorded so far)
  and `dismissed` (the number of splashes already shown). Its invariant
  `Core()` ties these to the real fields: the recent list and the totals are
  exactly the aggregates of `recorded`, and the splash queue is the part of
  `recorded` not yet dismissed.

The worker awaits its two lookups. While it waits, the hub may deliver more
events. The worker takes a parameter `arrivals`: batch k of `arrivals` is
delivered, through the real hub callback, while the k-th event's lookups are
pending. The callback finds the worker busy and only queues the event. The
data store is a value with two maps; a lookup fails when the id is missing.

Two behaviours of the code are worth stating outright:

- **Tie order.** The board sorts `Object.values` of an object keyed by
  integer user id with a stable sort, so equal totals are ranked by
  ascending user id, not by the order in which sellers first sold
  (`TopSellersRanked`, `TopSellersAreTheBest`).
- **No restart after a drain.** The restart test after the loop
  (dashboard.tsx:121-123) never succeeds: the loop exits only on an empty
  queue, and there is no await between that test and clearing the flag.
  Every event delivered during a drain's awaits is taken by that same
  drain (`DeliveredInArrivalOrder`). The model keeps the test as an
  assertion that the queue is empty at that point.

## Model

| member | source | states |
|---|---|---|
| Aggregation.AddRecent | _frontend/src/ts/components/dashboard.tsx:100 | The recent-sales updater `[sale, ...prev].slice(0, 10)`; its behaviour is stated by `AddRecentPutsNewestFirst` and `RecentIsNewestFirst`. |
| Aggregation.AddRecentPutsNewestFirst | _frontend/src/ts/components/dashboard.tsx:99-100 | The new sale is at index 0. The previous list follows in its own order. The length is min(old length + 1, 10). |
| Aggregation.RecentIsNewestFirst | _frontend/src/ts/components/dashboard.tsx:99-100 | After any sequence of sales, the list holds the last min(N, 10) sales, newest first. |
| Aggregation.AddToTotalsCreditsSeller | _frontend/src/ts/components/dashboard.tsx:103-110 | The seller's entry becomes (their latest user record, old total or 0 plus the value). The key set gains only the seller's id. Every other entry is unchanged. No total drops for a non-negative value. Entries stay filed under their own user id. |
| Aggregation.AddToTotals | _frontend/src/ts/components/dashboard.tsx:103-110 | The totals updater; its behaviour is stated by `AddToTotalsCreditsSeller` and `TotalsAreSums`. |
| Aggregation.TotalsAreSums | _frontend/src/ts/components/dashboard.tsx:103-110 | After any sequence of sales, a user has an entry iff they made a sale. The entry's total is the sum of the values of their sales. Every entry is keyed by its own user id. |
| Aggregation.RecordingOneMore | _frontend/src/ts/components/dashboard.tsx:100-110 | Applying the two updaters to the aggregates of a sequence gives the aggregates of the sequence extended by the new sale. |
| Leaderboard.KeysAscending | _frontend/src/ts/components/dashboard.tsx:157 | Gives the enumeration order of an integer-keyed record: every key exactly once, strictly ascending. |
| Leaderboard.ObjectValues | _frontend/src/ts/components/dashboard.tsx:157 | `Object.values` yields one value per key, and exactly the record's values. |
| Leaderboard.ValuesByUserId | _frontend/src/ts/components/dashboard.tsx:157 | When entries are filed under their own ids, the values come in strictly ascending user id. |
| Leaderboard.InsertByTotal | _frontend/src/ts/components/dashboard.tsx:158 | One insertion step of the stable sort adds exactly the inserted entry, as a multiset. |
| Leaderboard.InsertKeepsOrder | _frontend/src/ts/components/dashboard.tsx:158 | Inserting into a list ordered by total descending keeps it ordered. |
| Leaderboard.SortByTotal | _frontend/src/ts/components/dashboard.tsx:158 | The sort by `b.total - a.total` returns a permutation of its input, ordered by total descending. |
| Leaderboard.InsertKeepsRank | _frontend/src/ts/components/dashboard.tsx:158 | Inserting an entry whose user id is below all others into a list ranked by (total desc, id asc) keeps it ranked. This is the stability the tie order relies on. |
| Leaderboard.StableSortRanks | _frontend/src/ts/components/dashboard.tsx:157-158 | Sorting a list given in ascending user id ranks equal totals by ascending user id. |
| Leaderboard.TopSellers | _frontend/src/ts/components/dashboard.tsx:156-160 | The board has min(number of sellers, 10) entries. It is non-increasing in total. Every entry is a value of the totals record. |
| Leaderboard.TopSellersRanked | _frontend/src/ts/components/dashboard.tsx:156-160 | For totals keyed by user id, the board is strictly ranked by (total desc, user id asc), so no user appears twice. Each entry is its user's current entry. |
| Leaderboard.TopSellersAreTheBest | _frontend/src/ts/components/dashboard.tsx:156-160 | Every seller is on the board, or the board is full and its last entry ranks above that seller. |
| Leaderboard.BoardCut | _frontend/src/ts/components/dashboard.tsx:159 | Cutting a ranked list to ten keeps a given entry, or leaves ten entries whose last ranks above it. |
| SalesTypes.SaleValue | _frontend/src/ts/components/dashboard.tsx:89 | Unit price times duration, in cents; `MintSale` states that every minted sale carries this value. |
| ModeSchedule.Toggle | _frontend/src/ts/components/dashboard.tsx:140 | The mode updater always switches to the other view. |
| ModeSchedule.Dwell | _frontend/src/ts/components/dashboard.tsx:141 | The delay armed per mode, 60000 ms for the top view and 30000 ms for the recent view; `ModeDelay` and `ModeCycle` state what it does to the schedule. |
| ModeSchedule.ModeAt | _frontend/src/ts/components/dashboard.tsx:137-144 | The mode shown after a given time when each expiry toggles and re-arms; `ModeCycle` gives its closed form and `ModeDelay` ties it to the armed delay. |
| ModeSchedule.ModeCycle | _frontend/src/ts/components/dashboard.tsx:137-144 | Starting in the top view, the top view is shown in the first 60 s of every 90 s and the recent view in the last 30 s. |
| EventQueue.MintSale | _frontend/src/ts/components/dashboard.tsx:84-97 | A sale exists iff both lookups succeed. It carries the given id, the looked-up user and product, the event's duration, and value = unit price times duration. |
| EventQueue.MintedFrom | _frontend/src/ts/components/dashboard.tsx:84-97 | One event yields exactly one sale when both lookups succeed and none otherwise. That sale is the one `MintSale` mints, under the given id. |
| EventQueue.Minted | _frontend/src/ts/components/dashboard.tsx:81-117 | A sequence of events yields at most one sale each. The sales' ids count up by one from the first id. |
| EventQueue.MintedSnoc | _frontend/src/ts/components/dashboard.tsx:81-117 | Taking one more event appends that event's sale, under the next unused id, or nothing if its lookups fail. |
| EventQueue.FailedEventIsDropped | _frontend/src/ts/components/dashboard.tsx:115-117 | An event whose lookups fail changes nothing: the other events yield exactly the sales, with the same ids, that they yield without it. |
| EventQueue.EverySuccessMinted | _frontend/src/ts/components/dashboard.tsx:84-97 | When every lookup succeeds, event i yields sale i with id firstId + i. |
| EventQueue.Delivered | _frontend/src/ts/components/dashboard.tsx:81-82 | The events one drain takes when batch k arrives, through the hub callback at 128-131, during the k-th await; `DeliveredInArrivalOrder` states its order, completeness and causality. |
| EventQueue.DeliveredInArrivalOrder | _frontend/src/ts/components/dashboard.tsx:81-82 | A drain takes every event queued when it starts, first and in order. After those it takes the batches delivered during its awaits, each whole and in arrival order, and nothing else: one batch per event taken while batches remain. The j-th event taken was queued before the j-th await, so the drain ends when the queue first runs dry (line 81). |
| Dashboard.SaleIdsIncrease | _frontend/src/ts/components/dashboard.tsx:29 | Under the invariant, recorded sale ids are unique and strictly increasing, and the counter is above all of them. |
| Dashboard.SplashAfterRecord | _frontend/src/ts/components/dashboard.tsx:113-114 | A recorded sale joins the back of the splash queue. Once the queue is woken, the splash invariant holds with its timer running. |
| Dashboard.RecordKeepsConsistent | _frontend/src/ts/components/dashboard.tsx:91-110 | Recording a sale under the current counter value through both updaters keeps the counter and the aggregates consistent with the recorded sales. |
| Dashboard.DrainTakesHead | _frontend/src/ts/components/dashboard.tsx:81-82 | Taking the head and receiving the next batch continues the drain's delivery order. |
| Dashboard.RecordHead | _frontend/src/ts/components/dashboard.tsx:82-114 | The head's sale, under the next unused id, extends the sales recorded so far to the sales minted from all events taken so far. |
| Dashboard.DashboardView.constructor | _frontend/src/ts/components/dashboard.tsx:15-44 | Initial state: top view, empty lists and record, no splash, counter 1, idle worker, no timer. The invariant holds. |
| Dashboard.DashboardView.StartSplashQueue | _frontend/src/ts/components/dashboard.tsx:49-65 | Does nothing while a timer runs or when the queue is empty. Otherwise it shows the head without removing it and arms the timer. The shown splash is always the queue head. |
| Dashboard.DashboardView.SplashTimeout | _frontend/src/ts/components/dashboard.tsx:66-71 | Removes exactly the head, which was the splash on screen. It shows the next head at once with a new timer, or shows nothing and leaves no timer. The invariant holds. |
| Dashboard.DashboardView.OnSalesEvent | _frontend/src/ts/components/dashboard.tsx:128-131 | Queues the event and wakes the worker. If the worker is busy, only the queue grows. If it was idle, the recorded sales grow by those minted from the drain starting at this event. |
| Dashboard.DashboardView.ProcessEventQueue | _frontend/src/ts/components/dashboard.tsx:75-124 | If a drain is under way, nothing changes. Otherwise the worker ends idle with an empty queue. The recorded sales grow by exactly the sales minted from the delivered events, in delivery order, with ids continuing the counter. |
| Dashboard.DashboardView.TakeHead | _frontend/src/ts/components/dashboard.tsx:81-114 | One loop turn: the head leaves the queue and the batch delivered during its lookups joins the back. The head's sale, if any, is recorded under the next id. |
| Dashboard.DashboardView.Shift | _frontend/src/ts/components/dashboard.tsx:82 | Returns the head and removes exactly it from the queue. |
| Dashboard.DashboardView.DeliverWhileBusy | _frontend/src/ts/components/dashboard.tsx:128-131 | Hub deliveries during an await append to the queue in order and change nothing else. |
| Dashboard.DashboardView.ProcessEvent | _frontend/src/ts/components/dashboard.tsx:84-117 | Settled lookups record the event's sale, if any, under the next id, and append it to the splash queue. A failed lookup changes nothing. The invariant holds. |
| Dashboard.DashboardView.RecordSale | _frontend/src/ts/components/dashboard.tsx:99-114 | The sale is recorded in the recent list and the totals, and appended to the splash queue, which is woken. The invariant holds. |
| Dashboard.DashboardView.ModeTimeout | _frontend/src/ts/components/dashboard.tsx:139-141 | Expiry of the mode timer switches to the other view. |
| Dashboard.DashboardView.ModeDelay | _frontend/src/ts/components/dashboard.tsx:141 | The armed delay is exactly how long the current view stays: the schedule shows it for every time below the delay, and not at the delay. |
| Dashboard.DashboardView.Unmount | _frontend/src/ts/components/dashboard.tsx:146-153 | The view becomes unmounted. Hub deliveries and timer expiries require a mounted view, so none happens afterwards. |

## Left out

- JSX rendering, React hooks and context, and the view components are left out. They only display state.
- React applies the two state updaters on its next render. The model applies them at once, in the same order, which gives the same state.
- The `Promise.all` over the two lookups is not modelled as concurrent. The data store is two maps, and a lookup fails exactly when the id is missing. A lookup that resolves to nothing instead of rejecting is not modelled.
- Timer handles and millisecond delays become flags, constants and explicit expiry methods.
- Splash and mode timer expiries, and unmount, are not interleaved with a drain's awaits. In the code, a drain that finishes after unmount can arm a splash timer after the cleanup has run. The model does not capture that case.
- Batches of `arrivals` left over when a drain ends are not delivered by that call. A later `OnSalesEvent` call models them.
- The value is computed exactly in integer cents (unit price in cents times whole months). Floating point and `toFixed(2)` rounding are not modelled.
- The `timestamp` from `Date.now()`, the `console.error` report and the `type` tag of users and products are left out.
- `Object.values` is modelled as ascending integer key order. This holds for array-index keys. Negative or very large user ids, which JavaScript enumerates in insertion order, are not modelled.
