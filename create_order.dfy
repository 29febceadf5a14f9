/** `createOrder`: the idempotent order upsert.  An existing `orderId`
    is a replay or a status change; otherwise the creator is resolved,
    the commission rule is looked up, the commission is split and the
    order is inserted. */
module CreateOrderService {
  import opened Wrappers
  import opened Js
  import opened OrderModel
  import Rules = CommissionRuleModel
  import Links = AffiliateLinkModel
  import opened OrderQueue

  /** The amounts of one split and the brand rate stored with them. */
  datatype Split = Split(brandRate: real, brand: real, creator: real, platform: real)

  /** Step 4.  Admitad reports the commission itself, so the creator rate
      is applied to the reported amount and no brand rate is recorded;
      every other platform reports a sale value and both rates apply. */
  function SplitFor(platform: string, value: real, rule: Rules.CommissionRule): (s: Split)
    ensures s.brand == s.creator + s.platform
    ensures s.creator == value * rule.creatorCommissionRate / 100.0
    ensures platform == "admitad" ==> s.brand == value && s.brandRate == 0.0
    ensures platform != "admitad" ==>
              s.brand == value * rule.brandCommissionRate / 100.0 && s.brandRate == rule.brandCommissionRate
  {
    if platform == "admitad" then
      var brand := value;
      var creator := brand * (rule.creatorCommissionRate / 100.0);
      Split(0.0, brand, creator, brand - creator)
    else
      var brand := (value * rule.brandCommissionRate) / 100.0;
      var creator := (value * rule.creatorCommissionRate) / 100.0;
      Split(rule.brandCommissionRate, brand, creator, brand - creator)
  }

  /** A rule that respects creator <= brand never gives the platform a
      negative share of a non-negative sale. */
  lemma PercentageProfitNonNegative(platform: string, value: real, rule: Rules.CommissionRule)
    requires platform != "admitad" && value >= 0.0
    requires 0.0 <= rule.creatorCommissionRate <= rule.brandCommissionRate
    ensures 0.0 <= SplitFor(platform, value, rule).creator <= SplitFor(platform, value, rule).brand
    ensures SplitFor(platform, value, rule).platform >= 0.0
  {
    var s := SplitFor(platform, value, rule);
    assert s.brand - s.creator == value * (rule.brandCommissionRate - rule.creatorCommissionRate) / 100.0;
  }

  /** For Admitad the brand rate plays no part: a creator rate of at most
      100% keeps the platform share of a non-negative payment non-negative. */
  lemma AdmitadProfitNonNegative(value: real, rule: Rules.CommissionRule)
    requires value >= 0.0 && 0.0 <= rule.creatorCommissionRate <= 100.0
    ensures SplitFor("admitad", value, rule).platform >= 0.0
  {
    var s := SplitFor("admitad", value, rule);
    assert s.platform == value * (100.0 - rule.creatorCommissionRate) / 100.0;
  }

  /** Percentage split of a 1000 sale at 10% brand and 7% creator rate:
      brand 100, creator 70, platform 30. */
  lemma PercentageExample(platform: string, id: nat, category: string)
    requires platform != "admitad"
    ensures SplitFor(platform, 1000.0, Rules.CommissionRule(id, platform, category, 10.0, 7.0))
            == Split(10.0, 100.0, 70.0, 30.0)
  {
  }

  /** Admitad split of a payment of 100 at a 50% creator rate: creator 50,
      platform 50, whatever the brand rate of the rule. */
  lemma AdmitadExample(rule: Rules.CommissionRule)
    requires rule.creatorCommissionRate == 50.0
    ensures SplitFor("admitad", 100.0, rule) == Split(0.0, 100.0, 50.0, 50.0)
  {
  }

  /** A rule edited to creator > brand yields a negative platform share,
      since no check is made at order time. */
  lemma InvertedRuleLosesMoney(platform: string, rule: Rules.CommissionRule)
    requires platform != "admitad" && rule.brandCommissionRate == 5.0 && rule.creatorCommissionRate == 7.0
    ensures SplitFor(platform, 100.0, rule).platform == -2.0
  {
  }

  /** What `createOrder` returns when it returns an object. */
  datatype UpsertResult = UpsertResult(order: Order, isNew: bool, oldStatus: Option<string>)

  /** Errors `createOrder` throws; the queue retries the job. */
  datatype OrderError =
    | RuleNotFound(platform: string, category: string)
    | ValidationFailed

  /** A result object, `null` (drop the job), or a thrown error (retry). */
  datatype CreateOutcome = Done(result: UpsertResult) | Dropped | Thrown(error: OrderError)

  /** Step 2: the creator and short code the new order is filed under.
      `None` is the dangling sub id: the job is dropped. */
  function ResolveCreator(links: seq<Links.AffiliateLink>, job: OrderJob): (r: Option<(string, string)>)
    ensures (job.subId == "" || job.creatorId != "") ==> r == Some((job.creatorId, job.shortCode))
    ensures job.subId != "" && job.creatorId == "" ==>
              match Links.LookupLink(links, job.subId)
              case None => r.None?
              case Some(l) => r == Some((l.creatorId, job.subId))
  {
    if job.subId != "" && job.creatorId == "" then
      match Links.LookupLink(links, job.subId)
      case None => None
      case Some(l) => Some((l.creatorId, job.subId))
    else
      Some((job.creatorId, job.shortCode))
  }

  /** Step 5: the document `Order.create` is given, or `None` where
      Mongoose validation rejects it (a missing order value, a missing
      required string, a status outside the enum). */
  function NewOrder(job: OrderJob, creatorId: string, shortCode: string, rule: Rules.CommissionRule, now: int): (r: Option<Order>)
    ensures r.Some? ==> Admissible(r.value) && r.value.orderId == job.orderId && job.orderValue.Some?
    ensures r.Some? ==> r.value.brandCommissionAmount == r.value.creatorCommissionAmount + r.value.platformCommissionAmount
    ensures r.Some? ==> r.value.orderValue == OrNumber(job.rawAmount, job.orderValue.value)
    ensures r.Some? ==> r.value.status == (if job.status == "" then DefaultStatus else job.status)
    ensures r.Some? ==> r.value.creatorCommissionRate == rule.creatorCommissionRate
    ensures r.Some? ==> r.value.createdAt == now && r.value.customerType == DefaultCustomerType
    ensures job.orderValue.None? ==> r.None?
  {
    if job.orderValue.None? then None
    else
      var s := SplitFor(job.platform, job.orderValue.value, rule);
      var o := Order(
        shortCode := OrString(shortCode, job.shortCode),
        creatorId := OrString(creatorId, job.creatorId),
        orderId := job.orderId,
        productName := OrString(job.productName, "Admitad Product"),
        category := job.category,
        platform := job.platform,
        orderValue := OrNumber(job.rawAmount, job.orderValue.value),
        brandCommissionRate := s.brandRate,
        brandCommissionAmount := s.brand,
        creatorCommissionRate := rule.creatorCommissionRate,
        creatorCommissionAmount := s.creator,
        platformCommissionAmount := s.platform,
        status := OrString(job.status, DefaultStatus),
        customerType := DefaultCustomerType,
        transactionDate := now,
        createdAt := now);
      if Admissible(o) then Some(o) else None
  }

  /** The whole of `createOrder` on the collection: the new collection and
      the outcome. */
  function CreateOrderSpec(orders: seq<Order>, rules: seq<Rules.CommissionRule>, links: seq<Links.AffiliateLink>,
                           job: OrderJob, now: int): (seq<Order>, CreateOutcome)
  {
    match FindByOrderId(orders, job.orderId)
    case Some(i) =>
      var existing := orders[i];
      if job.status != "" && existing.status != job.status then
        if job.status in OrderStatuses then
          var updated := existing.(status := job.status);
          (orders[i := updated], Done(UpsertResult(updated, false, Some(existing.status))))
        else
          (orders, Thrown(ValidationFailed))
      else
        (orders, Done(UpsertResult(existing, false, Some(existing.status))))
    case None =>
      match ResolveCreator(links, job)
      case None => (orders, Dropped)
      case Some((creatorId, shortCode)) =>
        match Rules.FindRule(rules, job.platform, job.category)
        case None => (orders, Thrown(RuleNotFound(job.platform, job.category)))
        case Some(rule) =>
          match NewOrder(job, creatorId, shortCode, rule, now)
          case None => (orders, Thrown(ValidationFailed))
          case Some(o) => (orders + [o], Done(UpsertResult(o, true, None)))
  }

  /** Step 1 in place, then steps 2 to 5, on the Order collection. */
  method CreateOrder(store: OrderStore, rules: seq<Rules.CommissionRule>, links: seq<Links.AffiliateLink>, job: OrderJob, now: int)
    returns (out: CreateOutcome)
    requires store.Valid()
    modifies store
    ensures store.Valid()
    ensures (store.orders, out) == CreateOrderSpec(old(store.orders), rules, links, job, now)
  {
    PreservesWellFormed(store.orders, rules, links, job, now);
    var existing := FindByOrderId(store.orders, job.orderId);
    if existing.Some? {
      var i := existing.value;
      var oldStatus := store.orders[i].status;
      if job.status != "" && store.orders[i].status != job.status {
        if job.status !in OrderStatuses {
          // save() runs the enum validator and throws
          return Thrown(ValidationFailed);
        }
        store.orders := store.orders[i := store.orders[i].(status := job.status)];
        return Done(UpsertResult(store.orders[i], false, Some(oldStatus)));
      }
      return Done(UpsertResult(store.orders[i], false, Some(oldStatus)));
    }

    var creatorId := job.creatorId;
    var shortCode := job.shortCode;
    if job.subId != "" && creatorId == "" {
      var link := Links.LookupLink(links, job.subId);
      if link.None? {
        return Dropped;
      }
      creatorId := link.value.creatorId;
      shortCode := job.subId;
    }

    var rule := Rules.FindRule(rules, job.platform, job.category);
    if rule.None? {
      return Thrown(RuleNotFound(job.platform, job.category));
    }

    var order := NewOrder(job, creatorId, shortCode, rule.value, now);
    if order.None? {
      return Thrown(ValidationFailed);
    }
    store.orders := store.orders + [order.value];
    return Done(UpsertResult(order.value, true, None));
  }

  /** The orderId index stays unique and every document stays valid. */
  lemma PreservesWellFormed(orders: seq<Order>, rules: seq<Rules.CommissionRule>, links: seq<Links.AffiliateLink>, job: OrderJob, now: int)
    requires WellFormed(orders)
    ensures WellFormed(CreateOrderSpec(orders, rules, links, job, now).0)
  {
    match FindByOrderId(orders, job.orderId)
    case Some(i) =>
      if job.status != "" && orders[i].status != job.status && job.status in OrderStatuses {
        SetStatusKeepsWellFormed(orders, i, job.status);
      }
    case None =>
      match ResolveCreator(links, job)
      case None =>
      case Some((creatorId, shortCode)) =>
        match Rules.FindRule(rules, job.platform, job.category)
        case None =>
        case Some(rule) =>
          match NewOrder(job, creatorId, shortCode, rule, now)
          case None =>
          case Some(o) => AppendFresh(orders, o);
  }

  /** A replay (no status, or the stored one) writes nothing and reports
      the stored order with `isNew = false` and its current status. */
  lemma ReplayIsNoOp(orders: seq<Order>, rules: seq<Rules.CommissionRule>, links: seq<Links.AffiliateLink>, job: OrderJob, now: int, i: nat)
    requires UniqueOrderIds(orders) && i < |orders| && orders[i].orderId == job.orderId
    requires job.status == "" || job.status == orders[i].status
    ensures CreateOrderSpec(orders, rules, links, job, now)
            == (orders, Done(UpsertResult(orders[i], false, Some(orders[i].status))))
  {
    FindUnique(orders, i);
  }

  /** A different, valid status changes only the stored status of that
      one order and reports the previous status. */
  lemma TransitionChangesOnlyStatus(orders: seq<Order>, rules: seq<Rules.CommissionRule>, links: seq<Links.AffiliateLink>, job: OrderJob, now: int, i: nat)
    requires UniqueOrderIds(orders) && i < |orders| && orders[i].orderId == job.orderId
    requires job.status != "" && job.status != orders[i].status && job.status in OrderStatuses
    ensures CreateOrderSpec(orders, rules, links, job, now)
            == (orders[i := orders[i].(status := job.status)],
                Done(UpsertResult(orders[i].(status := job.status), false, Some(orders[i].status))))
  {
    FindUnique(orders, i);
  }

  /** A different status outside the enum is rejected by `save()`: the
      job is retried and nothing is written. */
  lemma InvalidTransitionRejected(orders: seq<Order>, rules: seq<Rules.CommissionRule>, links: seq<Links.AffiliateLink>, job: OrderJob, now: int, i: nat)
    requires UniqueOrderIds(orders) && i < |orders| && orders[i].orderId == job.orderId
    requires job.status != "" && job.status != orders[i].status && job.status !in OrderStatuses
    ensures CreateOrderSpec(orders, rules, links, job, now) == (orders, Thrown(ValidationFailed))
  {
    FindUnique(orders, i);
  }

  /** A sub id with no link and no creator id drops the job before any
      rule is consulted: the result is the same for every rule set. */
  lemma DanglingSubIdDrops(orders: seq<Order>, rules: seq<Rules.CommissionRule>, links: seq<Links.AffiliateLink>, job: OrderJob, now: int)
    requires FindByOrderId(orders, job.orderId).None?
    requires job.subId != "" && job.creatorId == "" && Links.FindLink(links, job.subId).None?
    ensures CreateOrderSpec(orders, rules, links, job, now) == (orders, Dropped)
  {
  }

  /** No rule for (platform, category): an error, and nothing inserted. */
  lemma MissingRuleThrows(orders: seq<Order>, rules: seq<Rules.CommissionRule>, links: seq<Links.AffiliateLink>, job: OrderJob, now: int)
    requires FindByOrderId(orders, job.orderId).None? && ResolveCreator(links, job).Some?
    requires Rules.FindRule(rules, job.platform, job.category).None?
    ensures CreateOrderSpec(orders, rules, links, job, now) == (orders, Thrown(RuleNotFound(job.platform, job.category)))
  {
  }

  /** Every call makes at most one write: the collection is unchanged,
      or one order has only its status changed, or exactly one order is
      appended, and `isNew` holds exactly in the last case, where the
      appended order carries the computed split and the defaults. */
  lemma AtMostOneWrite(orders: seq<Order>, rules: seq<Rules.CommissionRule>, links: seq<Links.AffiliateLink>, job: OrderJob, now: int)
    ensures var (after, out) := CreateOrderSpec(orders, rules, links, job, now);
      || (after == orders && !(out.Done? && out.result.isNew))
      || (exists i :: 0 <= i < |orders| && after == orders[i := orders[i].(status := job.status)]
                      && out.Done? && !out.result.isNew)
      || (out.Done? && out.result.isNew && after == orders + [out.result.order]
          && FindByOrderId(orders, job.orderId).None?
          && out.result.oldStatus.None?
          && var o := out.result.order;
             o.orderId == job.orderId
             && o.brandCommissionAmount == o.creatorCommissionAmount + o.platformCommissionAmount
             && o.status == (if job.status == "" then DefaultStatus else job.status))
  {
    var (after, out) := CreateOrderSpec(orders, rules, links, job, now);
    match FindByOrderId(orders, job.orderId)
    case Some(i) =>
      if job.status != "" && orders[i].status != job.status && job.status in OrderStatuses {
        assert after == orders[i := orders[i].(status := job.status)];
      } else {
        assert after == orders;
      }
    case None =>
      match ResolveCreator(links, job)
      case None =>
      case Some((creatorId, shortCode)) =>
        match Rules.FindRule(rules, job.platform, job.category)
        case None =>
        case Some(rule) =>
          match NewOrder(job, creatorId, shortCode, rule, now)
          case None =>
          case Some(o) =>
            assert after == orders + [o] && out == Done(UpsertResult(o, true, None));
  }

  /** Idempotence: running the same job again after a successful call
      writes nothing and reports `isNew = false` for the stored order. */
  lemma SecondCallIsReplay(orders: seq<Order>, rules: seq<Rules.CommissionRule>, links: seq<Links.AffiliateLink>, job: OrderJob, now: int, later: int)
    requires WellFormed(orders)
    requires CreateOrderSpec(orders, rules, links, job, now).1.Done?
    ensures var after := CreateOrderSpec(orders, rules, links, job, now).0;
            var again := CreateOrderSpec(after, rules, links, job, later);
            again.0 == after && again.1.Done? && !again.1.result.isNew
            && again.1.result.oldStatus == Some(again.1.result.order.status)
            && again.1.result.order == CreateOrderSpec(orders, rules, links, job, now).1.result.order
  {
    var (after, out) := CreateOrderSpec(orders, rules, links, job, now);
    PreservesWellFormed(orders, rules, links, job, now);
    var o := out.result.order;
    var i: nat;
    match FindByOrderId(orders, job.orderId) {
      case Some(k) =>
        i := k;
        if job.status != "" && orders[k].status != job.status && job.status in OrderStatuses {
          assert after == orders[k := orders[k].(status := job.status)];
        } else {
          assert after == orders && o == orders[k];
        }
      case None =>
        i := |orders|;
        assert after == orders + [o];
    }
    assert i < |after| && after[i] == o && o.orderId == job.orderId;
    assert job.status == "" || job.status == o.status;
    ReplayIsNoOp(after, rules, links, job, later, i);
  }
}
