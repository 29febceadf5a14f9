/** The payout worker's job body: select a creator's orders in a period,
    total them, and insert a payout unless one already exists for the
    (creatorId, periodStart, periodEnd) triple. */
module PayoutWorker {
  import opened Wrappers
  import Orders = OrderModel
  import opened PayoutModel
  import opened OrderQueue

  /** The status the job's order query asks for.  It is not one of the
      order statuses. */
  const SelectedStatus: string := "confirmed"

  /** The `Order.find` filter: same creator, the selected status, and a
      creation time inside the closed period. */
  predicate Matches(o: Orders.Order, job: PayoutJob) {
    && o.creatorId == job.creatorId
    && o.status == SelectedStatus
    && job.periodStart <= o.createdAt <= job.periodEnd
  }

  /** The orders the query returns, in collection order. */
  function Selected(orders: seq<Orders.Order>, job: PayoutJob): (r: seq<Orders.Order>)
    ensures |r| <= |orders|
    ensures forall o :: o in r <==> o in orders && Matches(o, job)
  {
    if |orders| == 0 then []
    else if Matches(orders[0], job) then [orders[0]] + Selected(orders[1..], job)
    else Selected(orders[1..], job)
  }

  /** `reduce((sum, o) => sum + (o.orderValue || 0), 0)`. */
  function SumRevenue(orders: seq<Orders.Order>): real {
    if |orders| == 0 then 0.0 else orders[0].orderValue + SumRevenue(orders[1..])
  }

  /** `reduce((sum, o) => sum + (o.creatorCommissionAmount || 0), 0)`. */
  function SumCommission(orders: seq<Orders.Order>): real {
    if |orders| == 0 then 0.0 else orders[0].creatorCommissionAmount + SumCommission(orders[1..])
  }

  /** What one payout job does. */
  datatype PayoutOutcome =
    | NoOrders
    | AlreadyExists(index: nat)
    | Created(payout: Payout)
    | Rejected  // Payout.create fails validation; the job is retried

  /** The payout for a non-empty selection, with the schema defaults. */
  function NewPayout(selected: seq<Orders.Order>, job: PayoutJob): (p: Payout)
    ensures p.status == DefaultStatus && p.paidAt.None?
    ensures p.totalOrders == |selected| as real
  {
    Payout(job.creatorId, job.periodStart, job.periodEnd, |selected| as real,
           SumRevenue(selected), SumCommission(selected), DefaultStatus, None)
  }

  /** The job body on the Order and Payout collections. */
  function GeneratePayoutSpec(orders: seq<Orders.Order>, payouts: seq<Payout>, job: PayoutJob): (seq<Payout>, PayoutOutcome) {
    var selected := Selected(orders, job);
    if |selected| == 0 then (payouts, NoOrders)
    else match FindPayout(payouts, job.creatorId, job.periodStart, job.periodEnd)
      case Some(i) => (payouts, AlreadyExists(i))
      case None =>
        if job.creatorId == "" then (payouts, Rejected)
        else
          var p := NewPayout(selected, job);
          (payouts + [p], Created(p))
  }

  /** The job body.  Only the payout collection is in the frame: no
      order is modified. */
  method GeneratePayout(orders: Orders.OrderStore, store: PayoutStore, job: PayoutJob) returns (out: PayoutOutcome)
    requires store.Valid()
    modifies store
    ensures store.Valid()
    ensures (store.payouts, out) == GeneratePayoutSpec(orders.orders, old(store.payouts), job)
  {
    PreservesWellFormed(orders.orders, store.payouts, job);
    var selected := Selected(orders.orders, job);
    if |selected| == 0 {
      return NoOrders;
    }
    var totalOrders := |selected| as real;
    var totalRevenue := SumRevenue(selected);
    var totalCommission := SumCommission(selected);
    var existing := FindPayout(store.payouts, job.creatorId, job.periodStart, job.periodEnd);
    if existing.Some? {
      return AlreadyExists(existing.value);
    }
    if job.creatorId == "" {
      return Rejected;
    }
    var p := Payout(job.creatorId, job.periodStart, job.periodEnd, totalOrders, totalRevenue, totalCommission,
                    DefaultStatus, None);
    store.payouts := store.payouts + [p];
    return Created(p);
  }

  /** The triple stays unique and every payout keeps a valid status. */
  lemma PreservesWellFormed(orders: seq<Orders.Order>, payouts: seq<Payout>, job: PayoutJob)
    requires WellFormed(payouts)
    ensures WellFormed(GeneratePayoutSpec(orders, payouts, job).0)
  {
    var (after, out) := GeneratePayoutSpec(orders, payouts, job);
    if out.Created? {
      assert after == payouts + [out.payout];
      assert FindPayout(payouts, job.creatorId, job.periodStart, job.periodEnd).None?;
    }
  }

  /** A created payout is pending, not yet paid, and carries the count
      and the two sums of exactly the selected orders; an empty
      selection writes nothing. */
  lemma CreatedPayout(orders: seq<Orders.Order>, payouts: seq<Payout>, job: PayoutJob)
    ensures var (after, out) := GeneratePayoutSpec(orders, payouts, job);
      && (|Selected(orders, job)| == 0 ==> out == NoOrders && after == payouts)
      && (out.Created? ==>
            && after == payouts + [out.payout]
            && out.payout.status == "pending" && out.payout.paidAt.None?
            && out.payout.creatorId == job.creatorId
            && out.payout.totalOrders == |Selected(orders, job)| as real
            && out.payout.totalRevenue == SumRevenue(Selected(orders, job))
            && out.payout.totalCommission == SumCommission(Selected(orders, job)))
      && (!out.Created? ==> after == payouts)
  {
  }

  /** Idempotence: a second run of the same job writes nothing. */
  lemma SecondRunWritesNothing(orders: seq<Orders.Order>, payouts: seq<Payout>, job: PayoutJob)
    ensures var after := GeneratePayoutSpec(orders, payouts, job).0;
            GeneratePayoutSpec(orders, after, job).0 == after
  {
    var (after, out) := GeneratePayoutSpec(orders, payouts, job);
    if out.Created? {
      assert after[|payouts|] == out.payout;
      assert FindPayout(after, job.creatorId, job.periodStart, job.periodEnd).Some?;
    }
  }

  /** Selection distributes over concatenation of the order collection. */
  lemma {:induction false} SelectedAppend(a: seq<Orders.Order>, b: seq<Orders.Order>, job: PayoutJob)
    ensures Selected(a + b, job) == Selected(a, job) + Selected(b, job)
  {
    if |a| == 0 {
      assert a + b == b;
    } else {
      assert (a + b)[1..] == a[1..] + b;
      SelectedAppend(a[1..], b, job);
    }
  }

  /** The totals are additive: the totals of two batches of orders add up
      to the totals of both together. */
  lemma {:induction false} SumsAppend(a: seq<Orders.Order>, b: seq<Orders.Order>)
    ensures SumRevenue(a + b) == SumRevenue(a) + SumRevenue(b)
    ensures SumCommission(a + b) == SumCommission(a) + SumCommission(b)
  {
    if |a| == 0 {
      assert a + b == b;
    } else {
      assert (a + b)[1..] == a[1..] + b;
      SumsAppend(a[1..], b);
    }
  }

  /** A stored order never has the status the job asks for: over a well
      formed order collection the selection is empty. */
  lemma {:induction false} NothingSelected(orders: seq<Orders.Order>, job: PayoutJob)
    requires forall i :: 0 <= i < |orders| ==> orders[i].status in Orders.OrderStatuses
    ensures Selected(orders, job) == []
  {
    if |orders| > 0 {
      assert orders[0].status != SelectedStatus;
      NothingSelected(orders[1..], job);
    }
  }

  /** So the job as written never creates a payout. */
  lemma NeverCreates(orders: seq<Orders.Order>, payouts: seq<Payout>, job: PayoutJob)
    requires Orders.WellFormed(orders)
    ensures GeneratePayoutSpec(orders, payouts, job) == (payouts, NoOrders)
  {
    NothingSelected(orders, job);
  }
}
