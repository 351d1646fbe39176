/**
 * The four figures of a restaurant's analytics, computed over the rows of
 * the order table. `today` is today's 00:00 in milliseconds; yesterday's
 * 00:00 is one day earlier.
 */
module Analytics {
  import opened Wrappers
  import opened Entities
  import opened OrderStatus

  /** Number of rows satisfying `p`. */
  function Count(rows: seq<Order>, p: Order -> bool): (n: nat)
    ensures n <= |rows|
  {
    if |rows| == 0 then 0 else Count(rows[..|rows| - 1], p) + (if p(rows[|rows| - 1]) then 1 else 0)
  }

  /** The rows satisfying `p`, in order. */
  function Where(rows: seq<Order>, p: Order -> bool): (r: seq<Order>)
    ensures |r| == Count(rows, p)
    ensures forall o :: o in r <==> o in rows && p(o)
  {
    if |rows| == 0 then []
    else
      var init := rows[..|rows| - 1];
      var last := rows[|rows| - 1];
      assert rows == init + [last];
      Where(init, p) + (if p(last) then [last] else [])
  }

  /** Sum of the prices of the given rows. */
  function SumPrices(rows: seq<Order>): int {
    if |rows| == 0 then 0 else SumPrices(rows[..|rows| - 1]) + rows[|rows| - 1].price
  }

  predicate CreatedYesterday(rid: int, today: int, o: Order) {
    o.restaurantId == rid && today - Day <= o.createdAt < today
  }

  predicate IsPending(rid: int, o: Order) {
    o.restaurantId == rid && o.startedAt.None?
  }

  predicate DeliveredToday(rid: int, today: int, o: Order) {
    o.restaurantId == rid && o.deliveredAt.Some? && o.deliveredAt.value >= today
  }

  predicate CreatedToday(rid: int, today: int, o: Order) {
    o.restaurantId == rid && o.createdAt >= today
  }

  /** The row filter of the invoiced amount. */
  function CreatedTodayFilter(rid: int, today: int): Order -> bool {
    o => CreatedToday(rid, today, o)
  }

  /** A count is zero exactly when no row satisfies the filter. */
  lemma CountZero(rows: seq<Order>, p: Order -> bool)
    ensures Count(rows, p) == 0 <==> forall o :: o in rows ==> !p(o)
  {
    var w := Where(rows, p);
    if |w| > 0 { assert w[0] in w; }
  }

  /** The orders of the restaurant created yesterday: zero exactly when there is none. */
  function NumYesterdayOrders(rows: seq<Order>, rid: int, today: int): (n: nat)
    ensures n <= |rows|
    ensures n == 0 <==> forall o :: o in rows ==> !CreatedYesterday(rid, today, o)
  {
    CountZero(rows, o => CreatedYesterday(rid, today, o));
    Count(rows, o => CreatedYesterday(rid, today, o))
  }

  /** The orders of the restaurant not yet started: zero exactly when there is none. */
  function NumPendingOrders(rows: seq<Order>, rid: int): (n: nat)
    ensures n <= |rows|
    ensures n == 0 <==> forall o :: o in rows ==> !IsPending(rid, o)
  {
    CountZero(rows, o => IsPending(rid, o));
    Count(rows, o => IsPending(rid, o))
  }

  /** The orders of the restaurant delivered since today's midnight: zero exactly when there is none. */
  function NumDeliveredTodayOrders(rows: seq<Order>, rid: int, today: int): (n: nat)
    ensures n <= |rows|
    ensures n == 0 <==> forall o :: o in rows ==> !DeliveredToday(rid, today, o)
  {
    CountZero(rows, o => DeliveredToday(rid, today, o));
    Count(rows, o => DeliveredToday(rid, today, o))
  }

  /** SQL SUM over no rows is NULL, so no order created today gives `None`. */
  function InvoicedToday(rows: seq<Order>, rid: int, today: int): (r: Option<int>)
    ensures r.None? <==> forall o :: o in rows ==> !CreatedToday(rid, today, o)
  {
    var selected := Where(rows, CreatedTodayFilter(rid, today));
    if |selected| == 0 then None
    else
      assert selected[0] in selected;
      Some(SumPrices(selected))
  }

  /** Adding one row raises each figure exactly when that row falls in its window. */
  lemma AnalyticsOfNewRow(rows: seq<Order>, o: Order, rid: int, today: int)
    ensures NumYesterdayOrders(rows + [o], rid, today) ==
            NumYesterdayOrders(rows, rid, today) + (if today - Day <= o.createdAt < today && o.restaurantId == rid then 1 else 0)
    ensures NumPendingOrders(rows + [o], rid) ==
            NumPendingOrders(rows, rid) + (if o.startedAt.None? && o.restaurantId == rid then 1 else 0)
    ensures NumDeliveredTodayOrders(rows + [o], rid, today) ==
            NumDeliveredTodayOrders(rows, rid, today) +
            (if o.deliveredAt.Some? && o.deliveredAt.value >= today && o.restaurantId == rid then 1 else 0)
  {
    assert (rows + [o])[..|rows + [o]| - 1] == rows;
  }

  /** Filtering a sequence with one more row appends that row when it passes. */
  lemma WhereSnoc(rows: seq<Order>, o: Order, p: Order -> bool)
    ensures Where(rows + [o], p) == Where(rows, p) + (if p(o) then [o] else [])
  {
    assert (rows + [o])[..|rows + [o]| - 1] == rows;
  }

  /** The price sum of a sequence with one more row adds that row's price. */
  lemma SumPricesSnoc(rows: seq<Order>, o: Order)
    ensures SumPrices(rows + [o]) == SumPrices(rows) + o.price
  {
    assert (rows + [o])[..|rows + [o]| - 1] == rows;
  }

  /**
   * Adding one row adds its price to the invoiced amount exactly when it was
   * created today, turning a null sum into that price.
   */
  lemma InvoicedOfNewRow(rows: seq<Order>, o: Order, rid: int, today: int)
    ensures InvoicedToday(rows + [o], rid, today) ==
            if CreatedToday(rid, today, o) then Some(InvoicedToday(rows, rid, today).GetOr(0) + o.price)
            else InvoicedToday(rows, rid, today)
  {
    var p := CreatedTodayFilter(rid, today);
    var w := Where(rows, p);
    WhereSnoc(rows, o, p);
    assert InvoicedToday(rows, rid, today) == if |w| == 0 then None else Some(SumPrices(w));
    if p(o) {
      SumPricesSnoc(w, o);
      assert |w| == 0 ==> SumPrices(w) == 0;
      assert InvoicedToday(rows + [o], rid, today) == Some(SumPrices(w + [o]));
    } else {
      assert Where(rows + [o], p) == w;
    }
  }

  /** With non-negative prices the invoiced amount, or 0 when null, is non-negative. */
  lemma InvoicedNonNegative(rows: seq<Order>, rid: int, today: int)
    requires forall i :: 0 <= i < |rows| ==> rows[i].price >= 0
    ensures InvoicedToday(rows, rid, today).GetOr(0) >= 0
  {
    var w := Where(rows, CreatedTodayFilter(rid, today));
    forall i | 0 <= i < |w|
      ensures w[i].price >= 0
    {
      assert w[i] in w;
      var j :| 0 <= j < |rows| && rows[j] == w[i];
    }
    SumPricesNonNegative(w);
  }

  /** Rows of the restaurant split into pending and started ones. */
  lemma {:induction false} PendingAndStartedPartition(rows: seq<Order>, rid: int)
    ensures NumPendingOrders(rows, rid) + Count(rows, (o: Order) => o.restaurantId == rid && o.startedAt.Some?) ==
            Count(rows, (o: Order) => o.restaurantId == rid)
  {
    if |rows| > 0 {
      PendingAndStartedPartition(rows[..|rows| - 1], rid);
    }
  }

  /** On well-formed rows, the pending count is the number of the restaurant's orders whose status is pending. */
  lemma {:induction false} PendingCountIsPendingStatus(rows: seq<Order>, rid: int)
    requires forall i :: 0 <= i < |rows| ==> WellFormed(rows[i])
    ensures NumPendingOrders(rows, rid) == Count(rows, (o: Order) => o.restaurantId == rid && StatusOf(o) == Pending)
  {
    if |rows| > 0 {
      PendingCountIsPendingStatus(rows[..|rows| - 1], rid);
    }
  }

  /** An order created exactly at today's 00:00 belongs to today's invoice, not to yesterday's count. */
  lemma MidnightBelongsToToday(o: Order, rid: int, today: int)
    requires o.restaurantId == rid && o.createdAt == today
    ensures !CreatedYesterday(rid, today, o) && CreatedToday(rid, today, o)
    ensures InvoicedToday([o], rid, today) == Some(o.price)
    ensures NumYesterdayOrders([o], rid, today) == 0
  {
    var selected := Where([o], CreatedTodayFilter(rid, today));
    assert o in selected;
    assert |selected| == 1 by { assert [o][..0] == []; }
    assert selected == [o];
    assert SumPrices([o]) == o.price by { assert [o][..0] == []; }
  }

  /** With non-negative prices the invoiced amount is non-negative. */
  lemma {:induction false} SumPricesNonNegative(rows: seq<Order>)
    requires forall i :: 0 <= i < |rows| ==> rows[i].price >= 0
    ensures SumPrices(rows) >= 0
  {
    if |rows| > 0 {
      SumPricesNonNegative(rows[..|rows| - 1]);
    }
  }
}
