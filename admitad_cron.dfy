/** The ten-minute Admitad cron: a poll window with a one-hour overlap,
    one `createOrder` job per fetched action, and a SyncState update only
    after a non-empty fetch has been queued in full. */
module AdmitadCron {
  import opened Wrappers
  import opened Js
  import opened OrderQueue
  import opened AdmitadSync
  import Orders = OrderModel
  import Stats = CreatorStatsModel
  import Rules = CommissionRuleModel
  import Links = AffiliateLinkModel
  import CreateOrderService
  import OrderWorker

  /** The `dateStart` the cron asks for: yesterday with no SyncState row,
      otherwise the day of `lastSync` less one hour. */
  function CronDateStart(lastSync: Option<int>, now: int): (day: int)
    ensures lastSync.None? ==> day == DayOf(now - OneDayMs)
    ensures lastSync.Some? ==> day == DayOf(lastSync.value - OneHourMs)
  {
    match lastSync
    case None => DayOf(now - OneDayMs)
    case Some(t) => DayOf(t - OneHourMs)
  }

  /** The window starts at least an hour before the last sync and less
      than a day and an hour before it, so nothing after the last sync
      is skipped and the overlap is bounded. */
  lemma WindowOverlaps(lastSync: int, now: int)
    ensures var start := CronDateStart(Some(lastSync), now) * OneDayMs;
            lastSync - OneHourMs - OneDayMs < start <= lastSync - OneHourMs
  {
  }

  /** The job the cron queues for an action. */
  function CronJob(a: AdmitadAction): (j: OrderJob)
    ensures j.platform == Platform && j.category == Category
    ensures j.orderId == a.order_id && j.subId == a.subid && j.status == a.status
    ensures j.orderValue == a.payment
    ensures j.rawAmount == (if Truthy(a.price) then a.price else a.amount)
    ensures j.creatorId == "" && j.shortCode == "" && j.productName == ""
  {
    OrderJob(orderId := a.order_id, platform := Platform, category := Category,
             orderValue := a.payment, rawAmount := Or(a.price, a.amount),
             creatorId := "", shortCode := "", subId := a.subid, status := a.status, productName := "")
  }

  /** The jobs for a run of actions, in fetch order. */
  function CronJobs(actions: seq<AdmitadAction>): (jobs: seq<OrderJob>)
    ensures |jobs| == |actions|
    ensures forall i :: 0 <= i < |actions| ==> jobs[i] == CronJob(actions[i])
  {
    seq(|actions|, i requires 0 <= i < |actions| => CronJob(actions[i]))
  }

  /** Jobs of a concatenation are the concatenation of the jobs. */
  lemma CronJobsConcat(a: seq<AdmitadAction>, b: seq<AdmitadAction>)
    ensures CronJobs(a + b) == CronJobs(a) + CronJobs(b)
  {
  }

  /** One tick of the cron.  `fetch` stands for `fetchActions` (`None`
      is a thrown error), `addFailsAt` for the first `orderQueue.add` that
      throws, `updateFails` for a failing SyncState write; every error is
      caught and ends the tick. */
  method CronTick(state: SyncStateStore, queue: Queue, fetch: int -> Option<seq<AdmitadAction>>,
                  addFailsAt: Option<nat>, updateFails: bool, now: int)
    modifies state, queue
    ensures var fetched := fetch(CronDateStart(old(state.Get(Platform)), now));
      && queue.jobs == old(queue.jobs) + (if fetched.Some? then CronJobs(QueuedPrefix(fetched.value, addFailsAt)) else [])
      && state.lastSync == (if fetched.Some? && |fetched.value| > 0 && AllQueued(fetched.value, addFailsAt) && !updateFails
                            then old(state.lastSync)[Platform := now] else old(state.lastSync))
  {
    var dateStart := CronDateStart(state.Get(Platform), now);
    var actions := fetch(dateStart);
    if actions.None? {
      return;
    }
    if |actions.value| > 0 {
      var i := 0;
      while i < |actions.value|
        invariant 0 <= i <= |actions.value|
        invariant addFailsAt.Some? ==> i <= addFailsAt.value
        invariant queue.jobs == old(queue.jobs) + CronJobs(actions.value[..i])
        invariant state.lastSync == old(state.lastSync)
      {
        if addFailsAt == Some(i) {
          assert QueuedPrefix(actions.value, addFailsAt) == actions.value[..i];
          return;
        }
        CronJobsConcat(actions.value[..i], [actions.value[i]]);
        assert actions.value[..i + 1] == actions.value[..i] + [actions.value[i]];
        queue.Add(CronJob(actions.value[i]));
        i := i + 1;
      }
      assert actions.value[..i] == actions.value;
      if updateFails {
        return;
      }
      state.Touch(Platform, now);
    }
  }

  /** The Admitad quirk end to end: a new order created from a cron job
      stores the cart value (`price`, else `amount`) as its order value
      and the commission `payment` as its brand amount, while the worker
      adds the commission `payment`, not the cart value, to the creator's
      lifetime revenue. */
  lemma AdmitadRevenueIsCommission(orders: seq<Orders.Order>, rules: seq<Rules.CommissionRule>,
                                   links: seq<Links.AffiliateLink>, a: AdmitadAction, now: int)
    requires a.payment.Some?
    requires CreateOrderService.CreateOrderSpec(orders, rules, links, CronJob(a), now).1.Done?
    requires CreateOrderService.CreateOrderSpec(orders, rules, links, CronJob(a), now).1.result.isNew
    ensures var u := CreateOrderService.CreateOrderSpec(orders, rules, links, CronJob(a), now).1.result;
      && u.order.orderValue == OrNumber(Or(a.price, a.amount), a.payment.value)
      && u.order.brandCommissionAmount == a.payment.value
      && u.order.brandCommissionRate == 0.0
      && Stats.Delta(OrderWorker.IncFor(u, CronJob(a).orderValue), Stats.LifetimeRevenue) == OrNumber(a.payment, 0.0)
  {
    var job := CronJob(a);
    var u := CreateOrderService.CreateOrderSpec(orders, rules, links, job, now).1.result;
    assert Orders.FindByOrderId(orders, job.orderId).None?;
    var (creatorId, shortCode) := CreateOrderService.ResolveCreator(links, job).value;
    var rule := Rules.FindRule(rules, job.platform, job.category).value;
    assert u.order == CreateOrderService.NewOrder(job, creatorId, shortCode, rule, now).value;
    OrderWorker.NewOrderIncrements(u, job.orderValue);
  }
}
