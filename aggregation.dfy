/** The two state updaters the queue worker applies to every recorded sale:
    the capped, newest-first recent-sales list and the per-user totals record. */
module Aggregation {
  import opened SalesTypes

  /** How many recent sales are kept. */
  const RecentLimit := 10

  function Min(a: int, b: int): int
  {
    if a < b then a else b
  }

  /** The recent-sales updater. */
  function AddRecent(prev: seq<Sale>, sale: Sale): seq<Sale>
  {
    ([sale] + prev)[..Min(|prev| + 1, RecentLimit)]
  }

  /** The new sale goes in front, the previous list follows in its order, and
      the list is cut back to RecentLimit entries. */
  lemma AddRecentPutsNewestFirst(prev: seq<Sale>, sale: Sale)
    ensures |AddRecent(prev, sale)| == Min(|prev| + 1, RecentLimit)
    ensures AddRecent(prev, sale)[0] == sale
    ensures AddRecent(prev, sale)[1..] == prev[..|AddRecent(prev, sale)| - 1]
  {
    var recent := AddRecent(prev, sale);
    assert recent[1..] == ([sale] + prev)[1..|recent|];
  }

  /** The recent-sales list after recording `sales` in order, starting empty. */
  function RecentAfter(sales: seq<Sale>): seq<Sale>
  {
    if sales == [] then []
    else AddRecent(RecentAfter(sales[..|sales| - 1]), sales[|sales| - 1])
  }

  /** The list holds the last min(N, 10) recorded sales, newest first. */
  lemma {:induction false} RecentIsNewestFirst(sales: seq<Sale>)
    ensures |RecentAfter(sales)| == Min(|sales|, RecentLimit)
    ensures forall i :: 0 <= i < |RecentAfter(sales)| ==>
              RecentAfter(sales)[i] == sales[|sales| - 1 - i]
  {
    if sales != [] {
      var init := sales[..|sales| - 1];
      RecentIsNewestFirst(init);
      AddRecentPutsNewestFirst(RecentAfter(init), sales[|sales| - 1]);
      var r := RecentAfter(sales);
      forall i | 0 <= i < |r| ensures r[i] == sales[|sales| - 1 - i] {
        if i > 0 {
          assert r[i] == r[1..][i - 1] == RecentAfter(init)[i - 1];
        }
      }
    }
  }

  /** Totals keyed by user id. */
  type Totals = map<int, TopSeller>

  /** Every entry is filed under its own user's id. */
  predicate KeysMatch(totals: Totals)
  {
    forall k :: k in totals ==> totals[k].user.id == k
  }

  /** The stored total of a user, or 0 when the user has no entry yet. */
  function TotalOf(totals: Totals, userId: int): int
  {
    if userId in totals then totals[userId].total else 0
  }

  /** The totals updater. */
  function AddToTotals(prev: Totals, user: User, value: int): Totals
  {
    prev[user.id := TopSeller(user, TotalOf(prev, user.id) + value)]
  }

  /** The seller's entry becomes their latest user record with the sale's
      value added to the old total (0 when absent); every other entry stays,
      no total drops for a non-negative value, and entries stay filed under
      their own user's id. */
  lemma AddToTotalsCreditsSeller(prev: Totals, user: User, value: int)
    ensures AddToTotals(prev, user, value).Keys == prev.Keys + {user.id}
    ensures AddToTotals(prev, user, value)[user.id]
            == TopSeller(user, TotalOf(prev, user.id) + value)
    ensures forall k :: k in prev && k != user.id ==> AddToTotals(prev, user, value)[k] == prev[k]
    ensures value >= 0 ==>
              forall k :: k in prev ==> AddToTotals(prev, user, value)[k].total >= prev[k].total
    ensures KeysMatch(prev) ==> KeysMatch(AddToTotals(prev, user, value))
  {
  }

  /** The totals record after recording `sales` in order, starting empty. */
  function TotalsAfter(sales: seq<Sale>): Totals
  {
    if sales == [] then map[]
    else
      var last := sales[|sales| - 1];
      AddToTotals(TotalsAfter(sales[..|sales| - 1]), last.user, last.value)
  }

  /** Reference definition: the sum of the values of the user's sales. */
  function SumFor(sales: seq<Sale>, userId: int): int
  {
    if sales == [] then 0
    else
      var last := sales[|sales| - 1];
      SumFor(sales[..|sales| - 1], userId) + (if last.user.id == userId then last.value else 0)
  }

  predicate SoldBy(sales: seq<Sale>, userId: int)
  {
    exists i :: 0 <= i < |sales| && sales[i].user.id == userId
  }

  /** A user has an entry exactly when they made a sale, the entry is filed
      under their id, and its total is the sum of their sales. */
  lemma {:induction false} TotalsAreSums(sales: seq<Sale>, userId: int)
    ensures userId in TotalsAfter(sales) <==> SoldBy(sales, userId)
    ensures TotalOf(TotalsAfter(sales), userId) == SumFor(sales, userId)
    ensures KeysMatch(TotalsAfter(sales))
  {
    if sales != [] {
      var init := sales[..|sales| - 1];
      var last := sales[|sales| - 1];
      TotalsAreSums(init, userId);
      AddToTotalsCreditsSeller(TotalsAfter(init), last.user, last.value);
      if SoldBy(sales, userId) && last.user.id != userId {
        var i :| 0 <= i < |sales| && sales[i].user.id == userId;
        assert init[i].user.id == userId;
      }
      if SoldBy(init, userId) {
        var i :| 0 <= i < |init| && init[i].user.id == userId;
        assert sales[i].user.id == userId;
      }
      if last.user.id == userId {
        assert sales[|sales| - 1].user.id == userId;
      }
    }
  }

  /** Recording one more sale applies the two updaters to the aggregates of
      the sales before it. */
  lemma RecordingOneMore(sales: seq<Sale>, sale: Sale)
    ensures RecentAfter(sales + [sale]) == AddRecent(RecentAfter(sales), sale)
    ensures TotalsAfter(sales + [sale]) == AddToTotals(TotalsAfter(sales), sale.user, sale.value)
  {
    assert (sales + [sale])[..|sales|] == sales;
  }
}
