/** The top-sellers derivation: the values of the totals record, in the order
    the record enumerates them (ascending integer key), stably sorted by total
    descending, cut to the first ten. */
module Leaderboard {
  import opened SalesTypes
  import opened Aggregation

  /** How many sellers the leaderboard shows. */
  const LeaderboardSize := 10

  /** k is the least of the keys s. */
  predicate IsLeast(k: int, s: set<int>)
  {
    k in s && forall j :: j in s ==> k <= j
  }

  lemma SomeKey(keys: set<int>)
    requires keys != {}
    ensures exists k :: k in keys
  {
    if forall k :: k !in keys { assert false; }
  }

  lemma SomeKeyOf(totals: Totals, v: TopSeller)
    requires v in totals.Values
    ensures exists k :: k in totals && totals[k] == v
  {
    if forall k :: k in totals ==> totals[k] != v { assert false; }
  }

  lemma {:induction false} HasLeast(keys: set<int>)
    requires keys != {}
    ensures exists k :: IsLeast(k, keys)
    decreases keys
  {
    SomeKey(keys);
    var x :| x in keys;
    var rest := keys - {x};
    var least := x;
    if rest != {} {
      HasLeast(rest);
      var m :| IsLeast(m, rest);
      least := if x < m then x else m;
    }
    forall j | j in keys ensures least <= j {
      if j != x { assert j in rest; }
    }
    assert IsLeast(least, keys);
  }

  /** The keys of an integer-keyed record in enumeration order: ascending. */
  function KeysAscending(keys: set<int>): (ks: seq<int>)
    ensures |ks| == |keys|
    ensures forall i :: 0 <= i < |ks| ==> ks[i] in keys
    ensures forall k :: k in keys ==> k in ks
    ensures forall i, j :: 0 <= i < j < |ks| ==> ks[i] < ks[j]
    decreases keys
  {
    if keys == {} then []
    else
      HasLeast(keys);
      var k :| IsLeast(k, keys);
      var rest := KeysAscending(keys - {k});
      LeastInFront(keys, k, rest);
      [k] + rest
  }

  lemma LeastInFront(keys: set<int>, k: int, rest: seq<int>)
    requires IsLeast(k, keys)
    requires |rest| == |keys - {k}|
    requires forall i :: 0 <= i < |rest| ==> rest[i] in keys - {k}
    requires forall j :: j in keys - {k} ==> j in rest
    requires forall i, j :: 0 <= i < j < |rest| ==> rest[i] < rest[j]
    ensures |[k] + rest| == |keys|
    ensures forall i :: 0 <= i < |[k] + rest| ==> ([k] + rest)[i] in keys
    ensures forall j :: j in keys ==> j in [k] + rest
    ensures forall i, j :: 0 <= i < j < |[k] + rest| ==> ([k] + rest)[i] < ([k] + rest)[j]
  {
    var ks := [k] + rest;
    forall j | j in keys ensures j in ks {
      if j != k { assert j in keys - {k}; }
    }
    forall i, j | 0 <= i < j < |ks| ensures ks[i] < ks[j] {
      assert ks[j] == rest[j - 1];
      if i > 0 { assert ks[i] == rest[i - 1]; }
    }
  }

  /** The values of the totals record, in key order. */
  function ObjectValues(totals: Totals): (vs: seq<TopSeller>)
    ensures |vs| == |totals|
    ensures forall v :: v in vs <==> v in totals.Values
  {
    var ks := KeysAscending(totals.Keys);
    var vs := seq(|ks|, i requires 0 <= i < |ks| => totals[ks[i]]);
    ValuesOfKeys(totals, ks, vs);
    vs
  }

  lemma ValuesOfKeys(totals: Totals, ks: seq<int>, vs: seq<TopSeller>)
    requires forall k :: k in totals ==> k in ks
    requires |vs| == |ks|
    requires forall i :: 0 <= i < |ks| ==> ks[i] in totals && vs[i] == totals[ks[i]]
    ensures forall v :: v in vs <==> v in totals.Values
  {
    forall v | v in totals.Values ensures v in vs {
      SomeKeyOf(totals, v);
      var k :| k in totals && totals[k] == v;
      var i :| 0 <= i < |ks| && ks[i] == k;
      assert vs[i] == v;
    }
    forall v | v in vs ensures v in totals.Values {
      var i :| 0 <= i < |vs| && vs[i] == v;
      assert ks[i] in totals;
    }
  }

  /** With entries filed under their own ids, the record's values come in
      ascending user id. */
  lemma ValuesByUserId(totals: Totals)
    requires KeysMatch(totals)
    ensures forall i, j :: 0 <= i < j < |ObjectValues(totals)| ==>
              ObjectValues(totals)[i].user.id < ObjectValues(totals)[j].user.id
  {
    var ks := KeysAscending(totals.Keys);
    var vs := ObjectValues(totals);
    forall i, j | 0 <= i < j < |vs| ensures vs[i].user.id < vs[j].user.id {
      assert vs[i] == totals[ks[i]] && vs[j] == totals[ks[j]];
    }
  }

  predicate NonIncreasing(s: seq<TopSeller>)
  {
    forall i, j :: 0 <= i < j < |s| ==> s[i].total >= s[j].total
  }

  /** a comes before b on the leaderboard: a larger total, or an equal total
      and a smaller user id. */
  predicate RanksAbove(a: TopSeller, b: TopSeller)
  {
    a.total > b.total || (a.total == b.total && a.user.id < b.user.id)
  }

  predicate Ranked(s: seq<TopSeller>)
  {
    forall i, j :: 0 <= i < j < |s| ==> RanksAbove(s[i], s[j])
  }

  /** One step of a stable sort by total descending: x goes in front of the
      first entry whose total does not exceed its own. */
  function InsertByTotal(x: TopSeller, sorted: seq<TopSeller>): (r: seq<TopSeller>)
    ensures multiset(r) == multiset(sorted) + multiset{x}
  {
    if sorted == [] || x.total >= sorted[0].total then [x] + sorted
    else
      assert sorted == [sorted[0]] + sorted[1..];
      [sorted[0]] + InsertByTotal(x, sorted[1..])
  }

  /** No total in s exceeds b. */
  predicate AllAtMost(s: seq<TopSeller>, b: int)
  {
    forall i :: 0 <= i < |s| ==> s[i].total <= b
  }

  lemma {:induction false} InsertAtMost(x: TopSeller, sorted: seq<TopSeller>, b: int)
    requires AllAtMost(sorted, b) && x.total <= b
    ensures AllAtMost(InsertByTotal(x, sorted), b)
  {
    if sorted != [] && x.total < sorted[0].total {
      InsertAtMost(x, sorted[1..], b);
    }
  }

  lemma {:induction false} InsertKeepsOrder(x: TopSeller, sorted: seq<TopSeller>)
    requires NonIncreasing(sorted)
    ensures NonIncreasing(InsertByTotal(x, sorted))
  {
    if sorted != [] && x.total < sorted[0].total {
      var tail := InsertByTotal(x, sorted[1..]);
      InsertKeepsOrder(x, sorted[1..]);
      InsertAtMost(x, sorted[1..], sorted[0].total);
      var r := [sorted[0]] + tail;
      forall i, j | 0 <= i < j < |r| ensures r[i].total >= r[j].total {
        assert r[j] == tail[j - 1];
        if i > 0 { assert r[i] == tail[i - 1]; }
      }
    }
  }

  /** The comparator sort `(a, b) => b.total - a.total`, stable: a permutation
      of its input, ordered by total descending. */
  function SortByTotal(s: seq<TopSeller>): (r: seq<TopSeller>)
    ensures multiset(r) == multiset(s)
    ensures NonIncreasing(r)
  {
    if s == [] then []
    else
      assert s == [s[0]] + s[1..];
      InsertKeepsOrder(s[0], SortByTotal(s[1..]));
      InsertByTotal(s[0], SortByTotal(s[1..]))
  }

  /** a ranks above every entry of s. */
  predicate AllRankBelow(a: TopSeller, s: seq<TopSeller>)
  {
    forall i :: 0 <= i < |s| ==> RanksAbove(a, s[i])
  }

  lemma {:induction false} InsertRankBelow(a: TopSeller, x: TopSeller, sorted: seq<TopSeller>)
    requires AllRankBelow(a, sorted) && RanksAbove(a, x)
    ensures AllRankBelow(a, InsertByTotal(x, sorted))
  {
    if sorted != [] && x.total < sorted[0].total {
      InsertRankBelow(a, x, sorted[1..]);
    }
  }

  lemma {:induction false} InsertKeepsRank(x: TopSeller, sorted: seq<TopSeller>)
    requires Ranked(sorted)
    requires forall i :: 0 <= i < |sorted| ==> x.user.id < sorted[i].user.id
    ensures Ranked(InsertByTotal(x, sorted))
  {
    if sorted == [] || x.total >= sorted[0].total {
      var r := [x] + sorted;
      forall i, j | 0 <= i < j < |r| ensures RanksAbove(r[i], r[j]) {
        assert r[j] == sorted[j - 1];
        if i > 0 { assert r[i] == sorted[i - 1]; }
      }
    } else {
      var tail := InsertByTotal(x, sorted[1..]);
      InsertKeepsRank(x, sorted[1..]);
      InsertRankBelow(sorted[0], x, sorted[1..]);
      var r := [sorted[0]] + tail;
      forall i, j | 0 <= i < j < |r| ensures RanksAbove(r[i], r[j]) {
        assert r[j] == tail[j - 1];
        if i > 0 { assert r[i] == tail[i - 1]; }
      }
    }
  }

  /** The stable sort of a sequence listed in ascending user id orders equal
      totals by ascending user id. */
  lemma {:induction false} StableSortRanks(s: seq<TopSeller>)
    requires forall i, j :: 0 <= i < j < |s| ==> s[i].user.id < s[j].user.id
    ensures Ranked(SortByTotal(s))
  {
    if s != [] {
      var rest := SortByTotal(s[1..]);
      StableSortRanks(s[1..]);
      forall i | 0 <= i < |rest| ensures s[0].user.id < rest[i].user.id {
        assert rest[i] in multiset(rest);
        var k :| 0 <= k < |s[1..]| && s[1..][k] == rest[i];
        assert s[k + 1] == rest[i];
      }
      InsertKeepsRank(s[0], rest);
    }
  }

  /** The top-sellers derivation. */
  function TopSellers(totals: Totals): (top: seq<TopSeller>)
    ensures |top| == Min(|totals|, LeaderboardSize)
    ensures NonIncreasing(top)
    ensures forall t :: t in top ==> t in totals.Values
  {
    var values := ObjectValues(totals);
    var sorted := SortByTotal(values);
    SortedPrefix(values, sorted, Min(|sorted|, LeaderboardSize));
    sorted[..Min(|sorted|, LeaderboardSize)]
  }

  lemma SortedPrefix(values: seq<TopSeller>, sorted: seq<TopSeller>, n: nat)
    requires multiset(sorted) == multiset(values)
    requires NonIncreasing(sorted)
    requires n <= |sorted|
    ensures |sorted| == |values|
    ensures NonIncreasing(sorted[..n])
    ensures forall t :: t in sorted[..n] ==> t in values
  {
    assert |multiset(sorted)| == |multiset(values)|;
    forall t | t in sorted[..n] ensures t in values {
      assert t in multiset(sorted);
    }
  }

  /** With entries filed under their own ids: each leaderboard entry is the
      entry of its user, no user appears twice, and equal totals are listed
      in ascending user id. */
  lemma TopSellersRanked(totals: Totals)
    requires KeysMatch(totals)
    ensures Ranked(TopSellers(totals))
    ensures forall t :: t in TopSellers(totals) ==> t.user.id in totals && totals[t.user.id] == t
  {
    var sorted := SortByTotal(ObjectValues(totals));
    ValuesByUserId(totals);
    StableSortRanks(ObjectValues(totals));
    assert TopSellers(totals) == sorted[..Min(|sorted|, LeaderboardSize)];
  }

  /** Every seller left off the leaderboard ranks below its last entry,
      and the board is then full. */
  lemma TopSellersAreTheBest(totals: Totals, userId: int)
    requires KeysMatch(totals)
    requires userId in totals
    ensures totals[userId] in TopSellers(totals)
            || (|TopSellers(totals)| == LeaderboardSize
                && RanksAbove(TopSellers(totals)[LeaderboardSize - 1], totals[userId]))
  {
    var vs := ObjectValues(totals);
    var sorted := SortByTotal(vs);
    ValuesByUserId(totals);
    StableSortRanks(vs);
    assert TopSellers(totals) == sorted[..Min(|sorted|, LeaderboardSize)];
    assert totals[userId] in totals.Values;
    assert totals[userId] in vs;
    assert totals[userId] in multiset(vs);
    BoardCut(sorted, totals[userId]);
  }

  /** Cutting a ranked list to the board size keeps t, or leaves a full
      board whose last entry ranks above t. */
  lemma BoardCut(sorted: seq<TopSeller>, t: TopSeller)
    requires Ranked(sorted)
    requires t in multiset(sorted)
    ensures var n := Min(|sorted|, LeaderboardSize);
            t in sorted[..n] || (n == LeaderboardSize && RanksAbove(sorted[n - 1], t))
  {
    var n := Min(|sorted|, LeaderboardSize);
    var p :| 0 <= p < |sorted| && sorted[p] == t;
    if p < n {
      assert sorted[..n][p] == t;
    }
  }
}
