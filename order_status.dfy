/**
 * An order's lifecycle as its three nullable timestamps encode it, the
 * listing filter built from a status/from/to query, and what the three
 * timestamp-setting handlers do to the derived status.
 */
module OrderStatus {
  import opened Wrappers
  import opened Entities

  /** One day in milliseconds. */
  const Day: int := 86_400_000

  datatype Status = Pending | InProcess | Sent | Delivered

  /** The status an order is in, judged only by which timestamps are set. */
  function StatusOf(o: Order): Status {
    if o.startedAt.None? then Pending
    else if o.sentAt.None? then InProcess
    else if o.deliveredAt.None? then Sent
    else Delivered
  }

  /** Timestamps are set in order (a later one never without an earlier one) and never go back in time. */
  predicate WellFormed(o: Order) {
    && (o.sentAt.Some? ==> o.startedAt.Some?)
    && (o.deliveredAt.Some? ==> o.sentAt.Some?)
    && (o.startedAt.Some? ==> o.createdAt <= o.startedAt.value)
    && (o.sentAt.Some? && o.startedAt.Some? ==> o.startedAt.value <= o.sentAt.value)
    && (o.deliveredAt.Some? && o.sentAt.Some? ==> o.sentAt.value <= o.deliveredAt.value)
  }

  // ---------------------------------------------------------------------
  // The listing filter (`generateFilterWhereClauses`)
  // ---------------------------------------------------------------------

  datatype Column = StartedAt | SentAt | DeliveredAt | CreatedAt

  /** One comparison of a where clause. */
  datatype Condition = IsNull(col: Column) | NotNull(col: Column) | AtLeast(col: Column, bound: int) | AtMost(col: Column, bound: int)

  /** A pushed where clause: a single condition or a conjunction of them (`Op.and`). */
  datatype Clause = Single(cond: Condition) | All(conds: seq<Condition>)

  /** The query string, with `from` and `to` already parsed to the start of their day. */
  datatype Query = Query(status: Option<string>, from: Option<int>, to: Option<int>)

  function ColumnValue(o: Order, col: Column): Option<int> {
    match col
    case StartedAt => o.startedAt
    case SentAt => o.sentAt
    case DeliveredAt => o.deliveredAt
    case CreatedAt => Some(o.createdAt)
  }

  /** SQL semantics: a comparison with NULL is false. */
  predicate HoldsCondition(o: Order, c: Condition) {
    var v := ColumnValue(o, c.col);
    match c
    case IsNull(_) => v.None?
    case NotNull(_) => v.Some?
    case AtLeast(_, b) => v.Some? && v.value >= b
    case AtMost(_, b) => v.Some? && v.value <= b
  }

  predicate HoldsClause(o: Order, cl: Clause) {
    match cl
    case Single(c) => HoldsCondition(o, c)
    case All(cs) => forall i :: 0 <= i < |cs| ==> HoldsCondition(o, cs[i])
  }

  /** The listing returns the orders that satisfy every pushed clause. */
  predicate Selected(o: Order, clauses: seq<Clause>) {
    forall i :: 0 <= i < |clauses| ==> HoldsClause(o, clauses[i])
  }

  /** What a status query asks of an order; an unknown or empty status asks nothing. */
  predicate StatusFilter(status: Option<string>, o: Order) {
    match status
    case Some("pending") => o.startedAt.None?
    case Some("in process") => o.startedAt.Some? && o.sentAt.None? && o.deliveredAt.None?
    case Some("sent") => o.sentAt.Some? && o.deliveredAt.None?
    case Some("delivered") => o.sentAt.Some?
    case _ => true
  }

  function KnownStatuses(): set<string> {
    {"pending", "in process", "sent", "delivered"}
  }

  /**
   * The orders a listing query asks for: those matching the status filter,
   * created at or after the start of `from`'s day, and at or before the start
   * of `to`'s day plus one day.
   */
  predicate Listed(q: Query, o: Order) {
    && StatusFilter(q.status, o)
    && (q.from.Some? ==> o.createdAt >= q.from.value)
    && (q.to.Some? ==> o.createdAt <= q.to.value + Day)
  }

  /** Builds the where clauses of a listing: one for the status, then `from`, then `to` (plus one day). */
  method GenerateFilterWhereClauses(q: Query) returns (clauses: seq<Clause>)
    ensures forall o :: Selected(o, clauses) <==> Listed(q, o)
    ensures |clauses| == (if q.status.Some? && q.status.value in KnownStatuses() then 1 else 0)
                         + (if q.from.Some? then 1 else 0) + (if q.to.Some? then 1 else 0)
    ensures q.to.Some? ==> clauses[|clauses| - 1] == Single(AtMost(CreatedAt, q.to.value + Day))
  {
    clauses := [];
    if q.status.Some? {
      var status := q.status.value;
      if status == "pending" {
        clauses := [Single(IsNull(StartedAt))];
      } else if status == "in process" {
        clauses := [All([NotNull(StartedAt), IsNull(SentAt), IsNull(DeliveredAt)])];
      } else if status == "sent" {
        clauses := [All([NotNull(SentAt), IsNull(DeliveredAt)])];
      } else if status == "delivered" {
        clauses := [Single(NotNull(SentAt))];
      }
    }
    forall o ensures Selected(o, clauses) <==> StatusFilter(q.status, o) {
      if |clauses| == 1 {
        SelectedPush(o, [], clauses[0]);
        assert [] + [clauses[0]] == clauses;
        StatusClausesMeaning(o);
      }
    }
    if q.from.Some? {
      var c := Single(AtLeast(CreatedAt, q.from.value));
      forall o ensures Selected(o, clauses + [c]) <==> Selected(o, clauses) && HoldsClause(o, c) {
        SelectedPush(o, clauses, c);
      }
      clauses := clauses + [c];
    }
    if q.to.Some? {
      var c := Single(AtMost(CreatedAt, q.to.value + Day));
      forall o ensures Selected(o, clauses + [c]) <==> Selected(o, clauses) && HoldsClause(o, c) {
        SelectedPush(o, clauses, c);
      }
      clauses := clauses + [c];
    }
  }

  /** What each status clause of the listing selects. */
  lemma StatusClausesMeaning(o: Order)
    ensures HoldsClause(o, Single(IsNull(StartedAt))) <==> StatusFilter(Some("pending"), o)
    ensures HoldsClause(o, All([NotNull(StartedAt), IsNull(SentAt), IsNull(DeliveredAt)])) <==>
            StatusFilter(Some("in process"), o)
    ensures HoldsClause(o, All([NotNull(SentAt), IsNull(DeliveredAt)])) <==> StatusFilter(Some("sent"), o)
    ensures HoldsClause(o, Single(NotNull(SentAt))) <==> StatusFilter(Some("delivered"), o)
  {
    var inProcess := [NotNull(StartedAt), IsNull(SentAt), IsNull(DeliveredAt)];
    assert inProcess[0] == NotNull(StartedAt) && inProcess[1] == IsNull(SentAt) && inProcess[2] == IsNull(DeliveredAt);
    var sent := [NotNull(SentAt), IsNull(DeliveredAt)];
    assert sent[0] == NotNull(SentAt) && sent[1] == IsNull(DeliveredAt);
  }

  /** Pushing a clause narrows the selection by exactly that clause. */
  lemma SelectedPush(o: Order, cs: seq<Clause>, c: Clause)
    ensures Selected(o, cs + [c]) <==> Selected(o, cs) && HoldsClause(o, c)
  {
    if Selected(o, cs + [c]) {
      forall i | 0 <= i < |cs| ensures HoldsClause(o, cs[i]) { assert (cs + [c])[i] == cs[i]; }
      assert (cs + [c])[|cs|] == c;
    }
  }

  /**
   * On well-formed orders the "pending", "in process" and "sent" filters
   * select exactly the orders of that status, while "delivered" selects
   * every order whose sentAt is set: the sent ones as well.
   */
  lemma StatusFilterMatchesStatus(o: Order)
    requires WellFormed(o)
    ensures StatusFilter(Some("pending"), o) <==> StatusOf(o) == Pending
    ensures StatusFilter(Some("in process"), o) <==> StatusOf(o) == InProcess
    ensures StatusFilter(Some("sent"), o) <==> StatusOf(o) == Sent
    ensures StatusFilter(Some("delivered"), o) <==> StatusOf(o) == Sent || StatusOf(o) == Delivered
  {
  }

  /** A sent, not yet delivered order is listed under both "sent" and "delivered". */
  lemma DeliveredFilterListsSentOrders(o: Order)
    requires WellFormed(o) && StatusOf(o) == Sent
    ensures StatusFilter(Some("sent"), o) && StatusFilter(Some("delivered"), o)
  {
  }

  /**
   * The `to` clause the listing pushes admits an order created exactly at
   * 00:00 of the day after `to`, and nothing created later: a listing up to
   * `to` also returns the next day's first instant.
   */
  lemma ToBoundIncludesNextMidnight(q: Query, o: Order)
    requires q.to.Some? && o.createdAt == q.to.value + Day
    ensures HoldsClause(o, Single(AtMost(CreatedAt, q.to.value + Day)))
    ensures !HoldsClause(o.(createdAt := o.createdAt + 1), Single(AtMost(CreatedAt, q.to.value + Day)))
    ensures Listed(q, o) <==> StatusFilter(q.status, o) && (q.from.Some? ==> o.createdAt >= q.from.value)
    ensures !Listed(q, o.(createdAt := o.createdAt + 1))
  {
  }

  // ---------------------------------------------------------------------
  // The timestamp-setting handlers and the state machine
  // ---------------------------------------------------------------------

  /** `confirm` on a pending order yields an in-process, well-formed order. */
  lemma ConfirmFromPending(o: Order, now: int)
    requires WellFormed(o) && StatusOf(o) == Pending && now >= o.createdAt
    ensures StatusOf(o.(startedAt := Some(now))) == InProcess
    ensures WellFormed(o.(startedAt := Some(now)))
  {
  }

  /** `send` on an in-process order yields a sent, well-formed order. */
  lemma SendFromInProcess(o: Order, now: int)
    requires WellFormed(o) && StatusOf(o) == InProcess && now >= o.startedAt.value
    ensures StatusOf(o.(sentAt := Some(now))) == Sent
    ensures WellFormed(o.(sentAt := Some(now)))
  {
  }

  /** `deliver` on a sent order yields a delivered, well-formed order. */
  lemma DeliverFromSent(o: Order, now: int)
    requires WellFormed(o) && StatusOf(o) == Sent && now >= o.sentAt.value
    ensures StatusOf(o.(deliveredAt := Some(now))) == Delivered
    ensures WellFormed(o.(deliveredAt := Some(now)))
  {
  }

  /**
   * The handlers check nothing themselves: `send` on a pending order stores
   * an order that breaks the timestamp order, still counts as pending, and
   * is listed under "pending", "sent" and "delivered" at once.
   */
  lemma SendOnPendingBreaksOrder(o: Order, now: int)
    requires StatusOf(o) == Pending && o.deliveredAt.None?
    ensures !WellFormed(o.(sentAt := Some(now)))
    ensures StatusOf(o.(sentAt := Some(now))) == Pending
    ensures StatusFilter(Some("pending"), o.(sentAt := Some(now)))
    ensures StatusFilter(Some("sent"), o.(sentAt := Some(now)))
    ensures StatusFilter(Some("delivered"), o.(sentAt := Some(now)))
  {
  }

  /**
   * Confirming a started order again keeps its status, and on an order
   * already sent a confirmation later than the send time moves startedAt
   * past sentAt, breaking the timestamp order.
   */
  lemma ConfirmTwiceOverwrites(o: Order, now: int)
    requires StatusOf(o) != Pending
    ensures StatusOf(o.(startedAt := Some(now))) == StatusOf(o)
    ensures WellFormed(o) && o.sentAt.Some? && now > o.sentAt.value ==> !WellFormed(o.(startedAt := Some(now)))
  {
  }

  /** A new order confirmed, sent and delivered at increasing times ends delivered and well-formed. */
  lemma FullLifecycle(o: Order, t1: int, t2: int, t3: int)
    requires o.startedAt.None? && o.sentAt.None? && o.deliveredAt.None?
    requires o.createdAt <= t1 <= t2 <= t3
    ensures var done := o.(startedAt := Some(t1)).(sentAt := Some(t2)).(deliveredAt := Some(t3));
            StatusOf(done) == Delivered && WellFormed(done)
  {
    var o1 := o.(startedAt := Some(t1));
    ConfirmFromPending(o, t1);
    var o2 := o1.(sentAt := Some(t2));
    SendFromInProcess(o1, t2);
    DeliverFromSent(o2, t3);
  }
}
