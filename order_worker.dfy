/** The `createOrder` branch of the order worker: run `createOrder`,
    build a signed `$inc` from its result, and upsert the creator's
    CreatorStats row when the increment names any counter. */
module OrderWorker {
  import opened Wrappers
  import opened Js
  import opened OrderModel
  import opened CreatorStatsModel
  import Rules = CommissionRuleModel
  import Links = AffiliateLinkModel
  import opened OrderQueue
  import opened CreateOrderService

  /** `statusFieldMap[status] || "pendingCommission"`: the bucket that
      holds the commission of an order in a given status. */
  function BucketOf(status: string): (c: Counter)
    ensures c == PendingCommission || c == ApprovedCommission || c == DeclinedCommission
  {
    if status == "pending" then PendingCommission
    else if status == "approved" then ApprovedCommission
    else if status == "declined" then DeclinedCommission
    else if status == "paid" then ApprovedCommission
    else PendingCommission
  }

  /** The status-to-bucket table, including the fallback: paid shares the
      approved bucket, and nothing ever lands in the paid bucket. */
  lemma BucketTable(status: string)
    ensures BucketOf("pending") == PendingCommission
    ensures BucketOf("approved") == ApprovedCommission
    ensures BucketOf("declined") == DeclinedCommission
    ensures BucketOf("paid") == ApprovedCommission
    ensures status !in OrderStatuses ==> BucketOf(status) == PendingCommission
    ensures BucketOf(status) != PaidCommission
  {
  }

  /** The status `statusFieldMap[oldStatus]` is looked up with; an absent
      old status falls back like any unknown key. */
  function OldStatusKey(u: UpsertResult): string {
    match u.oldStatus
    case Some(s) => s
    case None => ""
  }

  /** The increment the worker builds for an upsert result, where
      `jobOrderValue` is `job.data.orderValue`. */
  function IncFor(u: UpsertResult, jobOrderValue: Option<real>): Inc {
    var o := u.order;
    var cur := BucketOf(o.status);
    if u.isNew then
      map[LifetimeRevenue := OrNumber(jobOrderValue, 0.0),
          LifetimeCommission := o.creatorCommissionAmount,
          LifetimeOrders := 1.0,
          PlatformProfit := o.platformCommissionAmount][cur := o.creatorCommissionAmount]
    else if u.oldStatus != Some(o.status) && BucketOf(OldStatusKey(u)) != cur then
      map[BucketOf(OldStatusKey(u)) := -o.creatorCommissionAmount][cur := o.creatorCommissionAmount]
    else
      map[]
  }

  /** Lines 34-63 of the worker: the `inc` object filled key by key. */
  method BuildInc(u: UpsertResult, jobOrderValue: Option<real>) returns (inc: Inc)
    ensures inc == IncFor(u, jobOrderValue)
    ensures Conserving(inc)
  {
    inc := map[];
    var c := u.order.creatorCommissionAmount;
    var currentField := BucketOf(u.order.status);
    if u.isNew {
      inc := inc[LifetimeRevenue := OrNumber(jobOrderValue, 0.0)];
      inc := inc[LifetimeCommission := c];
      inc := inc[LifetimeOrders := 1.0];
      inc := inc[PlatformProfit := u.order.platformCommissionAmount];
      inc := inc[currentField := c];
    } else if u.oldStatus != Some(u.order.status) {
      var oldField := BucketOf(OldStatusKey(u));
      if oldField != currentField {
        inc := inc[oldField := -c];
        inc := inc[currentField := c];
      }
    }
    IncConserving(u, jobOrderValue);
  }

  /** Conservation: every increment moves pending + approved + declined
      by exactly what it adds to `lifetimeCommission`, and never touches
      `paidCommission`. */
  lemma IncConserving(u: UpsertResult, jobOrderValue: Option<real>)
    ensures Conserving(IncFor(u, jobOrderValue))
  {
    var inc := IncFor(u, jobOrderValue);
    var c := u.order.creatorCommissionAmount;
    var cur := BucketOf(u.order.status);
    if u.isNew {
      assert Delta(inc, cur) == c && Delta(inc, LifetimeCommission) == c;
    } else if u.oldStatus != Some(u.order.status) && BucketOf(OldStatusKey(u)) != cur {
      var prev := BucketOf(OldStatusKey(u));
      assert Delta(inc, cur) == c && Delta(inc, prev) == -c;
      assert Delta(inc, LifetimeCommission) == 0.0;
    }
  }

  /** A new order adds one order, its creator commission to the lifetime
      total and to its status bucket, its platform share to the profit,
      and `job.data.orderValue || 0` to the revenue. */
  lemma NewOrderIncrements(u: UpsertResult, jobOrderValue: Option<real>)
    requires u.isNew
    ensures var inc := IncFor(u, jobOrderValue);
      && Delta(inc, LifetimeOrders) == 1.0
      && Delta(inc, LifetimeCommission) == u.order.creatorCommissionAmount
      && Delta(inc, PlatformProfit) == u.order.platformCommissionAmount
      && Delta(inc, LifetimeRevenue) == OrNumber(jobOrderValue, 0.0)
      && Delta(inc, BucketOf(u.order.status)) == u.order.creatorCommissionAmount
      && Delta(inc, TotalClicks) == 0.0
      && forall b :: (b != BucketOf(u.order.status) && b != LifetimeRevenue && b != LifetimeCommission
                      && b != LifetimeOrders && b != PlatformProfit) ==> Delta(inc, b) == 0.0
  {
  }

  /** A status change across buckets moves the commission from the old
      bucket to the new one and leaves every lifetime total alone. */
  lemma TransitionIncrements(u: UpsertResult, jobOrderValue: Option<real>, previous: string)
    requires !u.isNew && u.oldStatus == Some(previous)
    requires BucketOf(previous) != BucketOf(u.order.status)
    ensures var inc := IncFor(u, jobOrderValue);
      && Delta(inc, BucketOf(previous)) == -u.order.creatorCommissionAmount
      && Delta(inc, BucketOf(u.order.status)) == u.order.creatorCommissionAmount
      && |inc| == 2
      && Delta(inc, LifetimeCommission) == 0.0 && Delta(inc, LifetimeRevenue) == 0.0
      && Delta(inc, LifetimeOrders) == 0.0 && Delta(inc, PlatformProfit) == 0.0
  {
    var inc := IncFor(u, jobOrderValue);
    assert inc.Keys == {BucketOf(previous), BucketOf(u.order.status)};
  }

  /** A same-status replay, or a move between two statuses that share a
      bucket (approved and paid), builds an empty increment. */
  lemma SameBucketIsEmpty(u: UpsertResult, jobOrderValue: Option<real>)
    requires !u.isNew
    requires u.oldStatus == Some(u.order.status) || BucketOf(OldStatusKey(u)) == BucketOf(u.order.status)
    ensures IncFor(u, jobOrderValue) == map[]
  {
  }

  /** CreatorStats after the worker has seen the outcome of `createOrder`:
      only a returned object with a non-empty increment writes. */
  function StatsAfter(rows: seq<CreatorStats>, out: CreateOutcome, jobOrderValue: Option<real>, now: int): seq<CreatorStats> {
    match out
    case Done(u) =>
      var inc := IncFor(u, jobOrderValue);
      if |inc| > 0 then Upsert(rows, u.order.creatorId, inc, now) else rows
    case Dropped => rows
    case Thrown(_) => rows
  }

  /** A `null` result or a thrown error writes no stats; and neither does
      a replay or an approved/paid change. */
  lemma NoWriteWithoutIncrement(rows: seq<CreatorStats>, out: CreateOutcome, jobOrderValue: Option<real>, now: int)
    requires !out.Done? || (!out.result.isNew && (out.result.oldStatus == Some(out.result.order.status)
                            || BucketOf(OldStatusKey(out.result)) == BucketOf(out.result.order.status)))
    ensures StatsAfter(rows, out, jobOrderValue, now) == rows
  {
    if out.Done? {
      SameBucketIsEmpty(out.result, jobOrderValue);
    }
  }

  /** The stats invariants (one row per creator, every row balanced) hold
      after every job. */
  lemma StatsAfterKeepsValid(rows: seq<CreatorStats>, out: CreateOutcome, jobOrderValue: Option<real>, now: int)
    requires OneRowPerCreator(rows) && AllBalanced(rows)
    ensures OneRowPerCreator(StatsAfter(rows, out, jobOrderValue, now))
    ensures AllBalanced(StatsAfter(rows, out, jobOrderValue, now))
  {
    if out.Done? {
      var inc := IncFor(out.result, jobOrderValue);
      IncConserving(out.result, jobOrderValue);
      UpsertKeepsOneRow(rows, out.result.order.creatorId, inc, now);
      UpsertKeepsBalance(rows, out.result.order.creatorId, inc, now);
    }
  }

  /** CreatorStats after one job, where `statsWriteFails` says that the
      `CreatorStats.updateOne` throws: a failed write leaves the rows as
      they were, while the order write before it has already happened. */
  function WorkerStats(rows: seq<CreatorStats>, out: CreateOutcome, jobOrderValue: Option<real>, now: int,
                       statsWriteFails: bool): seq<CreatorStats> {
    if statsWriteFails then rows else StatsAfter(rows, out, jobOrderValue, now)
  }

  /** The job fails, and the queue retries it: `createOrder` threw, or the
      stats write it needed threw. */
  predicate JobFails(out: CreateOutcome, jobOrderValue: Option<real>, statsWriteFails: bool) {
    out.Thrown? || (statsWriteFails && out.Done? && |IncFor(out.result, jobOrderValue)| > 0)
  }

  /** One `createOrder` job, end to end.  `failed` says that the job
      throws (and is retried by the queue). */
  method HandleCreateOrderJob(store: OrderStore, rules: seq<Rules.CommissionRule>, links: seq<Links.AffiliateLink>,
                              stats: StatsStore, job: OrderJob, now: int, statsWriteFails: bool)
    returns (out: CreateOutcome, failed: bool)
    requires store.Valid() && stats.Valid()
    modifies store, stats
    ensures store.Valid() && stats.Valid()
    ensures (store.orders, out) == CreateOrderSpec(old(store.orders), rules, links, job, now)
    ensures stats.rows == WorkerStats(old(stats.rows), out, job.orderValue, now, statsWriteFails)
    ensures failed <==> JobFails(out, job.orderValue, statsWriteFails)
  {
    out := CreateOrder(store, rules, links, job, now);
    failed := out.Thrown?;
    if out.Dropped? || out.Thrown? {
      return;
    }
    var inc := BuildInc(out.result, job.orderValue);
    if |inc| > 0 {
      if statsWriteFails {
        failed := true;
      } else {
        stats.UpdateOne(out.result.order.creatorId, inc, now);
      }
    }
  }

  /** The order and stats collections after a run of jobs, the i-th
      processed at `times[i]` and with its stats write failing when
      `fails[i]` holds. */
  function Pipeline(orders: seq<Order>, rows: seq<CreatorStats>, rules: seq<Rules.CommissionRule>,
                    links: seq<Links.AffiliateLink>, jobs: seq<OrderJob>, times: seq<int>, fails: seq<bool>)
    : (seq<Order>, seq<CreatorStats>)
    requires |times| == |jobs| && |fails| == |jobs|
    decreases |jobs|
  {
    if |jobs| == 0 then (orders, rows)
    else
      var (orders', out) := CreateOrderSpec(orders, rules, links, jobs[0], times[0]);
      Pipeline(orders', WorkerStats(rows, out, jobs[0].orderValue, times[0], fails[0]), rules, links,
               jobs[1..], times[1..], fails[1..])
  }

  /** Any run of jobs, whichever stats writes fail, keeps the order store
      well formed and every stats row balanced. */
  lemma {:induction false} PipelineKeepsInvariants(orders: seq<Order>, rows: seq<CreatorStats>, rules: seq<Rules.CommissionRule>,
                                                  links: seq<Links.AffiliateLink>, jobs: seq<OrderJob>, times: seq<int>,
                                                  fails: seq<bool>)
    requires |times| == |jobs| && |fails| == |jobs|
    requires WellFormed(orders) && OneRowPerCreator(rows) && AllBalanced(rows)
    ensures var (o, r) := Pipeline(orders, rows, rules, links, jobs, times, fails);
            WellFormed(o) && OneRowPerCreator(r) && AllBalanced(r)
    decreases |jobs|
  {
    if |jobs| > 0 {
      var (orders', out) := CreateOrderSpec(orders, rules, links, jobs[0], times[0]);
      PreservesWellFormed(orders, rules, links, jobs[0], times[0]);
      StatsAfterKeepsValid(rows, out, jobs[0].orderValue, times[0]);
      PipelineKeepsInvariants(orders', WorkerStats(rows, out, jobs[0].orderValue, times[0], fails[0]), rules, links,
                              jobs[1..], times[1..], fails[1..]);
    }
  }

  /** A stats write that fails after a new order was stored loses that
      order's increment for good.  The failed run has stored the order
      but left the stats alone, and the job fails.  Its retry is a replay:
      it writes no order, builds an empty increment and succeeds, so the
      stats stay as they were.  A run whose write succeeds would have
      counted the order. */
  lemma LostIncrementOnRetry(orders: seq<Order>, rows: seq<CreatorStats>, rules: seq<Rules.CommissionRule>,
                             links: seq<Links.AffiliateLink>, job: OrderJob, now: int, later: int)
    requires WellFormed(orders) && OneRowPerCreator(rows)
    requires CreateOrderSpec(orders, rules, links, job, now).1.Done?
    requires CreateOrderSpec(orders, rules, links, job, now).1.result.isNew
    ensures var (after, out) := CreateOrderSpec(orders, rules, links, job, now);
            var (again, retried) := CreateOrderSpec(after, rules, links, job, later);
            var creatorId := out.result.order.creatorId;
            && JobFails(out, job.orderValue, true)
            && WorkerStats(rows, out, job.orderValue, now, true) == rows
            && again == after && !JobFails(retried, job.orderValue, false)
            && WorkerStats(rows, retried, job.orderValue, later, false) == rows
            && RowOf(WorkerStats(rows, out, job.orderValue, now, false), creatorId, now).lifetimeOrders
               == RowOf(rows, creatorId, now).lifetimeOrders + 1.0
  {
    var (after, out) := CreateOrderSpec(orders, rules, links, job, now);
    var inc := IncFor(out.result, job.orderValue);
    NewOrderIncrements(out.result, job.orderValue);
    assert LifetimeOrders in inc;
    SecondCallIsReplay(orders, rules, links, job, now, later);
    var (again, retried) := CreateOrderSpec(after, rules, links, job, later);
    NoWriteWithoutIncrement(rows, retried, job.orderValue, later);
    UpsertEffect(rows, out.result.order.creatorId, inc, now, out.result.order.creatorId);
  }

  /** From empty collections, every creator's three status buckets sum
      to the lifetime commission and the paid bucket stays 0. */
  lemma BucketsSumFromEmpty(rules: seq<Rules.CommissionRule>, links: seq<Links.AffiliateLink>,
                            jobs: seq<OrderJob>, times: seq<int>, fails: seq<bool>, creatorId: string, now: int)
    requires |times| == |jobs| && |fails| == |jobs|
    ensures var s := RowOf(Pipeline([], [], rules, links, jobs, times, fails).1, creatorId, now);
            s.pendingCommission + s.approvedCommission + s.declinedCommission == s.lifetimeCommission
            && s.paidCommission == 0.0
  {
    PipelineKeepsInvariants([], [], rules, links, jobs, times, fails);
  }
}
