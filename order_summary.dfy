/** `GET /api/orders/summary` of backend/routes/orderRoutes.js: the four
    aggregation pipelines (order totals, user count, orders and sales per
    calendar day, products per category), as group-bys over the stored
    collections. */
module OrderSummary {
  import opened Common
  import opened ProductModel
  import opened Orders

  datatype OrderTotals = OrderTotals(numOrders: nat, totalSales: int)
  datatype UserTotals = UserTotals(numUsers: nat)
  /** One `dailyOrders` group: its `_id` (the day), `orders` and `sales`. */
  datatype DayBucket = DayBucket(day: int, orders: nat, sales: int)
  datatype Summary = Summary(
    users: seq<UserTotals>,
    orders: seq<OrderTotals>,
    dailyOrders: seq<DayBucket>,
    productCategories: map<string, nat>)

  function TotalSales(os: seq<Order>): int
  {
    if os == [] then 0 else os[0].totalPrice + TotalSales(os[1..])
  }

  /** `$group` with `_id: null` yields one group, or none at all when the
      collection is empty. */
  function OrdersGroup(os: seq<Order>): (r: seq<OrderTotals>)
    ensures |r| <= 1 && (|r| == 1 <==> |os| > 0)
    ensures |r| == 1 ==> r[0].numOrders == |os| && r[0].totalSales == TotalSales(os)
  {
    if os == [] then [] else [OrderTotals(|os|, TotalSales(os))]
  }

  function UsersGroup(numUsers: nat): (r: seq<UserTotals>)
    ensures |r| <= 1 && (|r| == 1 <==> numUsers > 0)
    ensures |r| == 1 ==> r[0].numUsers == numUsers
  {
    if numUsers == 0 then [] else [UserTotals(numUsers)]
  }

  /** Number of orders created on day `d`. */
  function CountOnDay(os: seq<Order>, d: int): nat
  {
    if os == [] then 0
    else (if Day(os[0].createdAt) == d then 1 else 0) + CountOnDay(os[1..], d)
  }

  /** Sum of `totalPrice` over the orders created on day `d`. */
  function SalesOnDay(os: seq<Order>, d: int): int
  {
    if os == [] then 0
    else (if Day(os[0].createdAt) == d then os[0].totalPrice else 0) + SalesOnDay(os[1..], d)
  }

  lemma {:induction false} NoOrdersNoSales(os: seq<Order>, d: int)
    requires CountOnDay(os, d) == 0
    ensures SalesOnDay(os, d) == 0
  {
    if os != [] {
      NoOrdersNoSales(os[1..], d);
    }
  }

  /** `{ $sort: { _id: 1 } }` over distinct keys: strictly ascending days. */
  predicate Ascending(bs: seq<DayBucket>)
  {
    forall i, j :: 0 <= i < j < |bs| ==> bs[i].day < bs[j].day
  }

  function Days(bs: seq<DayBucket>): set<int>
  {
    set i | 0 <= i < |bs| :: bs[i].day
  }

  /** The first bucket for day `d`. */
  function BucketOf(bs: seq<DayBucket>, d: int): Option<DayBucket>
  {
    if bs == [] then None
    else if bs[0].day == d then Some(bs[0])
    else BucketOf(bs[1..], d)
  }

  function BucketOrders(bs: seq<DayBucket>): nat
  {
    if bs == [] then 0 else bs[0].orders + BucketOrders(bs[1..])
  }

  function BucketSales(bs: seq<DayBucket>): int
  {
    if bs == [] then 0 else bs[0].sales + BucketSales(bs[1..])
  }

  /** The group of day `d` after one more order of `price` joins it. */
  function Bumped(b: Option<DayBucket>, d: int, price: int): DayBucket
  {
    match b
    case None => DayBucket(d, 1, price)
    case Some(x) => DayBucket(d, x.orders + 1, x.sales + price)
  }

  /** Adds one order of day `d` to an ascending list of groups. */
  function AddToBuckets(bs: seq<DayBucket>, d: int, price: int): seq<DayBucket>
  {
    if bs == [] then [DayBucket(d, 1, price)]
    else if bs[0].day == d then [Bumped(Some(bs[0]), d, price)] + bs[1..]
    else if d < bs[0].day then [DayBucket(d, 1, price)] + bs
    else [bs[0]] + AddToBuckets(bs[1..], d, price)
  }

  lemma AscendingCons(x: DayBucket, t: seq<DayBucket>)
    requires Ascending(t) && forall k :: 0 <= k < |t| ==> x.day < t[k].day
    ensures Ascending([x] + t)
  {
    var s := [x] + t;
    forall i, j | 0 <= i < j < |s| ensures s[i].day < s[j].day {
      assert s[j] == t[j - 1];
      if i > 0 {
        assert s[i] == t[i - 1];
      }
    }
  }

  lemma DaysCons(x: DayBucket, t: seq<DayBucket>)
    ensures Days([x] + t) == {x.day} + Days(t)
  {
    var s := [x] + t;
    assert s[0] == x;
    forall y | y in Days(s) ensures y in {x.day} + Days(t) {
      var i :| 0 <= i < |s| && s[i].day == y;
      if i > 0 {
        assert s[i] == t[i - 1];
      }
    }
    forall y | y in Days(t) ensures y in Days(s) {
      var i :| 0 <= i < |t| && t[i].day == y;
      assert s[i + 1] == t[i];
    }
  }

  lemma {:induction false} AddKeepsAscending(bs: seq<DayBucket>, d: int, price: int)
    requires Ascending(bs)
    ensures Ascending(AddToBuckets(bs, d, price))
    ensures Days(AddToBuckets(bs, d, price)) == Days(bs) + {d}
  {
    var r := AddToBuckets(bs, d, price);
    if bs == [] {
      assert r == [DayBucket(d, 1, price)] + bs;
      DaysCons(DayBucket(d, 1, price), bs);
      assert Days(bs) == {};
    } else if bs[0].day == d {
      assert forall k :: 0 <= k < |r| ==> r[k].day == bs[k].day;
      assert bs == [bs[0]] + bs[1..];
      DaysCons(bs[0], bs[1..]);
      DaysCons(r[0], bs[1..]);
    } else if d < bs[0].day {
      assert forall k :: 0 <= k < |bs| ==> d < bs[k].day;
      AscendingCons(DayBucket(d, 1, price), bs);
      DaysCons(DayBucket(d, 1, price), bs);
    } else {
      var t := bs[1..];
      assert Ascending(t);
      var rest := AddToBuckets(t, d, price);
      AddKeepsAscending(t, d, price);
      assert r == [bs[0]] + rest;
      assert forall m :: 0 <= m < |t| ==> bs[0].day < t[m].day by {
        forall m | 0 <= m < |t| ensures bs[0].day < t[m].day {
          assert t[m] == bs[m + 1];
        }
      }
      AllAbove(bs[0].day, t, rest, d);
      AscendingCons(bs[0], rest);
      DaysCons(bs[0], rest);
      assert bs == [bs[0]] + t;
      DaysCons(bs[0], t);
    }
  }

  /** Every day of `r` is above `x` when those of `t` are, as is `d`,
      and `r` holds the days of `t` and `d`. */
  lemma AllAbove(x: int, t: seq<DayBucket>, r: seq<DayBucket>, d: int)
    requires x < d && forall m :: 0 <= m < |t| ==> x < t[m].day
    requires Days(r) == Days(t) + {d}
    ensures forall k :: 0 <= k < |r| ==> x < r[k].day
  {
    forall k | 0 <= k < |r| ensures x < r[k].day {
      assert r[k].day in Days(r);
      if r[k].day != d {
        var m :| 0 <= m < |t| && t[m].day == r[k].day;
      }
    }
  }

  lemma {:induction false} AddBucketOf(bs: seq<DayBucket>, d: int, price: int, e: int)
    requires Ascending(bs)
    ensures BucketOf(AddToBuckets(bs, d, price), e)
      == if e == d then Some(Bumped(BucketOf(bs, d), d, price)) else BucketOf(bs, e)
  {
    if bs == [] {
    } else if bs[0].day == d {
    } else if d < bs[0].day {
      if e == d {
        NoBucketBelow(bs, d);
      }
    } else {
      assert Ascending(bs[1..]);
      AddBucketOf(bs[1..], d, price, e);
    }
  }

  lemma {:induction false} NoBucketBelow(bs: seq<DayBucket>, d: int)
    requires Ascending(bs) && bs != [] && d < bs[0].day
    ensures BucketOf(bs, d) == None
  {
    if |bs| > 1 {
      assert Ascending(bs[1..]);
      NoBucketBelow(bs[1..], d);
    }
  }

  lemma {:induction false} AddTotals(bs: seq<DayBucket>, d: int, price: int)
    ensures BucketOrders(AddToBuckets(bs, d, price)) == BucketOrders(bs) + 1
    ensures BucketSales(AddToBuckets(bs, d, price)) == BucketSales(bs) + price
  {
    if bs == [] {
    } else if bs[0].day == d {
    } else if d < bs[0].day {
    } else {
      AddTotals(bs[1..], d, price);
    }
  }

  /** The `dailyOrders` pipeline: groups keyed by day, sorted ascending. */
  function DailyOrders(os: seq<Order>): (r: seq<DayBucket>)
    ensures Ascending(r)
  {
    if os == [] then []
    else
      var rest := DailyOrders(os[1..]);
      AddKeepsAscending(rest, Day(os[0].createdAt), os[0].totalPrice);
      AddToBuckets(rest, Day(os[0].createdAt), os[0].totalPrice)
  }

  /** The group of a day holds exactly that day's order count and sales,
      and a day without orders has no group. */
  lemma {:induction false} DailyOrdersGroup(os: seq<Order>, d: int)
    ensures BucketOf(DailyOrders(os), d)
      == if CountOnDay(os, d) == 0 then None
         else Some(DayBucket(d, CountOnDay(os, d), SalesOnDay(os, d)))
  {
    if os != [] {
      var rest := DailyOrders(os[1..]);
      var d0 := Day(os[0].createdAt);
      DailyOrdersGroup(os[1..], d);
      if CountOnDay(os[1..], d) == 0 {
        NoOrdersNoSales(os[1..], d);
      }
      AddBucketOf(rest, d0, os[0].totalPrice, d);
      assert CountOnDay(os, d) == (if d0 == d then 1 else 0) + CountOnDay(os[1..], d);
      assert SalesOnDay(os, d) == (if d0 == d then os[0].totalPrice else 0) + SalesOnDay(os[1..], d);
      assert DailyOrders(os) == AddToBuckets(rest, Day(os[0].createdAt), os[0].totalPrice);
    }
  }

  lemma {:induction false} BucketOfAscending(bs: seq<DayBucket>, i: nat)
    requires Ascending(bs) && i < |bs|
    ensures BucketOf(bs, bs[i].day) == Some(bs[i])
  {
    if i > 0 {
      assert Ascending(bs[1..]);
      BucketOfAscending(bs[1..], i - 1);
    }
  }

  /** Every `dailyOrders` entry is the group of its day: at least one order,
      and that day's count and sales. */
  lemma DailyOrdersBuckets(os: seq<Order>)
    ensures forall i :: 0 <= i < |DailyOrders(os)| ==>
      var b := DailyOrders(os)[i];
      b.orders == CountOnDay(os, b.day) >= 1 && b.sales == SalesOnDay(os, b.day)
  {
    var bs := DailyOrders(os);
    forall i | 0 <= i < |bs|
      ensures bs[i].orders == CountOnDay(os, bs[i].day) >= 1
      ensures bs[i].sales == SalesOnDay(os, bs[i].day)
    {
      BucketOfAscending(bs, i);
      DailyOrdersGroup(os, bs[i].day);
    }
  }

  /** There is one group per distinct creation day. */
  lemma {:induction false} DailyOrdersDays(os: seq<Order>)
    ensures Days(DailyOrders(os)) == set i | 0 <= i < |os| :: Day(os[i].createdAt)
  {
    if os != [] {
      DailyOrdersDays(os[1..]);
      AddKeepsAscending(DailyOrders(os[1..]), Day(os[0].createdAt), os[0].totalPrice);
      var tail := set i | 0 <= i < |os[1..]| :: Day(os[1..][i].createdAt);
      var all := set i | 0 <= i < |os| :: Day(os[i].createdAt);
      assert all == tail + {Day(os[0].createdAt)} by {
        forall x | x in all ensures x in tail + {Day(os[0].createdAt)} {
          var i :| 0 <= i < |os| && Day(os[i].createdAt) == x;
          if i > 0 {
            assert os[1..][i - 1] == os[i];
          }
        }
        forall x | x in tail ensures x in all {
          var i :| 0 <= i < |os[1..]| && Day(os[1..][i].createdAt) == x;
          assert os[i + 1] == os[1..][i];
        }
      }
    }
  }

  /** The daily counts add up to `numOrders` and the daily sales to
      `totalSales`. */
  lemma {:induction false} DailyOrdersTotals(os: seq<Order>)
    ensures BucketOrders(DailyOrders(os)) == |os|
    ensures BucketSales(DailyOrders(os)) == TotalSales(os)
  {
    if os != [] {
      DailyOrdersTotals(os[1..]);
      AddTotals(DailyOrders(os[1..]), Day(os[0].createdAt), os[0].totalPrice);
    }
  }

  function CountCategory(ps: seq<Product>, c: string): nat
  {
    if ps == [] then 0
    else (if ps[0].category == c then 1 else 0) + CountCategory(ps[1..], c)
  }

  /** The `productCategories` pipeline: the number of products of each
      category that has any.  `$group` without `$sort` gives no order, so
      the groups form a map. */
  function ProductCategories(ps: seq<Product>): (m: map<string, nat>)
    ensures forall c :: c in m <==> CountCategory(ps, c) > 0
    ensures forall c :: c in m ==> m[c] == CountCategory(ps, c)
  {
    if ps == [] then map[]
    else
      var m := ProductCategories(ps[1..]);
      var c := ps[0].category;
      m[c := (if c in m then m[c] else 0) + 1]
  }

  /** The whole reply of `/summary`. */
  function SummaryOf(os: seq<Order>, numUsers: nat, ps: seq<Product>): (s: Summary)
    ensures |s.orders| <= 1 && (s.orders != [] <==> os != [])
    ensures Ascending(s.dailyOrders)
    ensures s.orders != [] ==> s.orders[0] == OrderTotals(|os|, TotalSales(os))
    ensures s.users == UsersGroup(numUsers)
    ensures |s.users| <= 1 && (s.users != [] <==> numUsers > 0)
    ensures s.users != [] ==> s.users[0].numUsers == numUsers
    ensures s.dailyOrders == DailyOrders(os)
    ensures s.productCategories == ProductCategories(ps)
    ensures forall c :: c in s.productCategories <==> CountCategory(ps, c) > 0
    ensures forall c :: c in s.productCategories ==> s.productCategories[c] == CountCategory(ps, c)
  {
    Summary(UsersGroup(numUsers), OrdersGroup(os), DailyOrders(os), ProductCategories(ps))
  }
}
