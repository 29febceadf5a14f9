/** The Flipkart and Meesho report connectors: one loop over the report
    rows that skips a row whose `orderId` is already stored, queues every
    other row as a `createOrder` job, and carries on past a row whose
    lookup or queue add throws. */
module Connectors {
  import opened Wrappers
  import opened OrderModel
  import opened OrderQueue

  /** One row of a platform report. */
  datatype ReportRow = ReportRow(
    shortCode: string,
    creatorId: string,
    orderId: string,
    productName: string,
    orderValue: Option<real>,
    category: string)

  /** The payload queued for a row: the row's fields and the platform,
      and no status, sub id or raw amount. */
  function RowJob(platform: string, row: ReportRow): (j: OrderJob)
    ensures j.platform == platform && j.orderId == row.orderId && j.orderValue == row.orderValue
    ensures j.shortCode == row.shortCode && j.creatorId == row.creatorId
    ensures j.productName == row.productName && j.category == row.category
    ensures j.status == "" && j.subId == "" && j.rawAmount.None?
  {
    OrderJob(orderId := row.orderId, platform := platform, category := row.category,
             orderValue := row.orderValue, rawAmount := None, creatorId := row.creatorId,
             shortCode := row.shortCode, subId := "", status := "", productName := row.productName)
  }

  /** Row `i` is queued: its lookup and add do not throw (`failing` holds
      the rows where one of them does) and no stored order has its id. */
  predicate Kept(orders: seq<Order>, rows: seq<ReportRow>, failing: set<nat>, i: nat)
    requires i < |rows|
  {
    i !in failing && FindByOrderId(orders, rows[i].orderId).None?
  }

  /** The jobs queued for the first `n` rows, in row order. */
  function ReportJobs(platform: string, orders: seq<Order>, rows: seq<ReportRow>, failing: set<nat>, n: nat): seq<OrderJob>
    requires n <= |rows|
  {
    if n == 0 then []
    else ReportJobs(platform, orders, rows, failing, n - 1)
         + (if Kept(orders, rows, failing, n - 1) then [RowJob(platform, rows[n - 1])] else [])
  }

  /** The shared loop.  Only the queue is in the frame: the Order store is
      read, never written. */
  method ProcessReport(platform: string, queue: Queue, store: OrderStore, rows: seq<ReportRow>, failing: set<nat>)
    modifies queue
    ensures queue.jobs == old(queue.jobs) + ReportJobs(platform, store.orders, rows, failing, |rows|)
  {
    var i := 0;
    while i < |rows|
      invariant 0 <= i <= |rows|
      invariant queue.jobs == old(queue.jobs) + ReportJobs(platform, store.orders, rows, failing, i)
    {
      ProcessRow(platform, queue, store, rows, failing, i);
      i := i + 1;
    }
  }

  /** One pass of the loop: a failing row is logged and skipped, a row
      whose `orderId` is stored is skipped, any other row is queued. */
  method ProcessRow(platform: string, queue: Queue, store: OrderStore, rows: seq<ReportRow>, failing: set<nat>, i: nat)
    requires i < |rows|
    modifies queue
    ensures queue.jobs == old(queue.jobs) + (if Kept(store.orders, rows, failing, i) then [RowJob(platform, rows[i])] else [])
  {
    if i in failing {
      // the error is logged and the loop goes on
      return;
    }
    var existing := FindByOrderId(store.orders, rows[i].orderId);
    if existing.Some? {
      return;
    }
    queue.Add(RowJob(platform, rows[i]));
  }

  /** `processFlipkartReport`. */
  method ProcessFlipkartReport(queue: Queue, store: OrderStore, rows: seq<ReportRow>, failing: set<nat>)
    modifies queue
    ensures queue.jobs == old(queue.jobs) + ReportJobs("flipkart", store.orders, rows, failing, |rows|)
  {
    ProcessReport("flipkart", queue, store, rows, failing);
  }

  /** `processMeeshoReport`. */
  method ProcessMeeshoReport(queue: Queue, store: OrderStore, rows: seq<ReportRow>, failing: set<nat>)
    modifies queue
    ensures queue.jobs == old(queue.jobs) + ReportJobs("meesho", store.orders, rows, failing, |rows|)
  {
    ProcessReport("meesho", queue, store, rows, failing);
  }

  /** Every queued job comes from a kept row, in its platform, with no
      status and an `orderId` that no stored order has. */
  lemma {:induction false} ReportJobsSound(platform: string, orders: seq<Order>, rows: seq<ReportRow>, failing: set<nat>, n: nat)
    requires n <= |rows|
    ensures forall j :: j in ReportJobs(platform, orders, rows, failing, n) ==>
              && (exists i :: 0 <= i < n && Kept(orders, rows, failing, i) && j == RowJob(platform, rows[i]))
              && FindByOrderId(orders, j.orderId).None? && j.platform == platform && j.status == ""
    ensures |ReportJobs(platform, orders, rows, failing, n)| <= n
  {
    if n > 0 {
      ReportJobsSound(platform, orders, rows, failing, n - 1);
    }
  }

  /** Every kept row is queued, including a row whose `orderId` repeats an
      earlier row of the same report; a failing row does not stop the
      rows after it. */
  lemma {:induction false} ReportJobsComplete(platform: string, orders: seq<Order>, rows: seq<ReportRow>, failing: set<nat>, n: nat)
    requires n <= |rows|
    ensures forall i :: 0 <= i < n && Kept(orders, rows, failing, i) ==>
              RowJob(platform, rows[i]) in ReportJobs(platform, orders, rows, failing, n)
  {
    if n > 0 {
      ReportJobsComplete(platform, orders, rows, failing, n - 1);
    }
  }

  /** With nothing failing and none of the ids stored, every row is
      queued in order, duplicates within the report included. */
  lemma {:induction false} FreshReportQueuedWhole(platform: string, orders: seq<Order>, rows: seq<ReportRow>, n: nat)
    requires n <= |rows|
    requires forall i :: 0 <= i < |rows| ==> FindByOrderId(orders, rows[i].orderId).None?
    ensures var jobs := ReportJobs(platform, orders, rows, {}, n);
            |jobs| == n && forall i :: 0 <= i < n ==> jobs[i] == RowJob(platform, rows[i])
  {
    if n > 0 {
      FreshReportQueuedWhole(platform, orders, rows, n - 1);
    }
  }
}
