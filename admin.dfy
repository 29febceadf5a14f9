/** The admin routes with logic of their own: commission-rule create,
    update and delete; the order status override; order listing; the
    platform-profit dashboard; payout generation and payment; and the
    manual Admitad sync. */
module Admin {
  import opened Wrappers
  import opened Lookup
  import opened Js
  import opened OrderModel
  import Rules = CommissionRuleModel
  import P = PayoutModel
  import opened OrderQueue
  import opened AdmitadSync
  import opened Cursor

  /** An HTTP status and, for an error, the `error` text of the body. */
  datatype Reply = Reply(status: int, error: string)

  const FieldsRequired: string := "All fields are required"
  const CreatorExceedsBrand: string := "Creator commission cannot exceed brand commission"
  const RuleNotFound: string := "Commission rule not found"
  /** The message of a duplicate-key or cast error, which the routes relay. */
  const DuplicateKey: string := "E11000 duplicate key error"
  const CastFailed: string := "Cast to ObjectId failed"

  // ---------------------------------------------------------------
  // Commission rules
  // ---------------------------------------------------------------

  /** The body of `POST /commission-rule`; a rate is `None` when it is
      `null` or absent, so a rate of 0 is present. */
  datatype RuleBody = RuleBody(platform: string, category: string, brandRate: Option<real>, creatorRate: Option<real>)

  /** The request checks of rule creation, in the route's order: the 400
      reply, or `None` when the request passes. */
  function CheckNewRule(b: RuleBody): (r: Option<Reply>)
    ensures r.None? <==> b.platform != "" && b.category != "" && b.brandRate.Some? && b.creatorRate.Some?
                         && b.creatorRate.value <= b.brandRate.value
    ensures r.Some? ==> r.value.status == 400
    ensures (b.platform == "" || b.category == "" || b.brandRate.None? || b.creatorRate.None?) ==>
              r == Some(Reply(400, FieldsRequired))
  {
    if b.platform == "" || b.category == "" || b.brandRate.None? || b.creatorRate.None? then
      Some(Reply(400, FieldsRequired))
    else if Greater(b.creatorRate, b.brandRate) then
      Some(Reply(400, CreatorExceedsBrand))
    else None
  }

  /** `POST /commission-rule` on (rules, nextId). */
  function CreateRuleSpec(rules: seq<Rules.CommissionRule>, nextId: nat, b: RuleBody): (seq<Rules.CommissionRule>, nat, Reply) {
    match CheckNewRule(b)
    case Some(reply) => (rules, nextId, reply)
    case None =>
      if Rules.FindRule(rules, b.platform, b.category).Some? then (rules, nextId, Reply(400, DuplicateKey))
      else (rules + [Rules.CommissionRule(nextId, b.platform, b.category, b.brandRate.value, b.creatorRate.value)],
            nextId + 1, Reply(201, ""))
  }

  /** Rule creation keeps the collection well formed; a created rule has
      creator rate at most brand rate; a second rule for a (platform,
      category) pair is refused with 400 and nothing changes. */
  lemma CreateRuleFacts(rules: seq<Rules.CommissionRule>, nextId: nat, b: RuleBody)
    requires Rules.WellFormed(rules, nextId)
    ensures var (rules', nextId', reply) := CreateRuleSpec(rules, nextId, b);
      && Rules.WellFormed(rules', nextId')
      && (reply.status == 201 <==> CheckNewRule(b).None? && Rules.FindRule(rules, b.platform, b.category).None?)
      && (reply.status == 201 ==> |rules'| == |rules| + 1
                                  && rules'[|rules|].creatorCommissionRate <= rules'[|rules|].brandCommissionRate)
      && (reply.status != 201 ==> reply.status == 400 && rules' == rules && nextId' == nextId)
  {
    if CheckNewRule(b).None? && Rules.FindRule(rules, b.platform, b.category).None? {
      var r := Rules.CommissionRule(nextId, b.platform, b.category, b.brandRate.value, b.creatorRate.value);
      AppendRule(rules, nextId, r);
    }
  }

  /** Appending a rule with a fresh id and a fresh (platform, category)
      keeps the collection well formed under the next id. */
  lemma AppendRule(rules: seq<Rules.CommissionRule>, nextId: nat, r: Rules.CommissionRule)
    requires Rules.WellFormed(rules, nextId) && r.id == nextId && r.platform != "" && r.category != ""
    requires Rules.FindRule(rules, r.platform, r.category).None?
    ensures Rules.WellFormed(rules + [r], nextId + 1)
  {
    var rules' := rules + [r];
    forall i, j | 0 <= i < j < |rules'|
      ensures rules'[i].id != rules'[j].id
      ensures (rules'[i].platform, rules'[i].category) != (rules'[j].platform, rules'[j].category)
    {
      assert rules'[i] == rules[i];
      if j < |rules| {
        assert rules'[j] == rules[j];
      }
    }
  }

  /** Rates of 0 pass the `== null` test. */
  lemma ZeroRatesAccepted(rules: seq<Rules.CommissionRule>, nextId: nat, platform: string, category: string)
    requires platform != "" && category != "" && Rules.FindRule(rules, platform, category).None?
    ensures CreateRuleSpec(rules, nextId, RuleBody(platform, category, Some(0.0), Some(0.0))).2 == Reply(201, "")
  {
  }

  /** `POST /commission-rule`. */
  method CreateRule(store: Rules.RuleStore, b: RuleBody) returns (reply: Reply)
    requires store.Valid()
    modifies store
    ensures store.Valid()
    ensures (store.rules, store.nextId, reply) == CreateRuleSpec(old(store.rules), old(store.nextId), b)
  {
    CreateRuleFacts(store.rules, store.nextId, b);
    var check := CheckNewRule(b);
    if check.Some? {
      return check.value;
    }
    if Rules.FindRule(store.rules, b.platform, b.category).Some? {
      return Reply(400, DuplicateKey);
    }
    store.rules := store.rules + [Rules.CommissionRule(store.nextId, b.platform, b.category, b.brandRate.value, b.creatorRate.value)];
    store.nextId := store.nextId + 1;
    return Reply(201, "");
  }

  /** The body of `PUT /commission-rule/:id`. */
  datatype RateBody = RateBody(brandRate: Option<real>, creatorRate: Option<real>)

  /** The update `findByIdAndUpdate` applies: a rate that is absent from
      the body keeps its stored value. */
  function ApplyRates(r: Rules.CommissionRule, b: RateBody): Rules.CommissionRule {
    r.(brandCommissionRate := b.brandRate.GetOr(r.brandCommissionRate),
       creatorCommissionRate := b.creatorRate.GetOr(r.creatorCommissionRate))
  }

  /** `PUT /commission-rule/:id`; `id` is `None` when it is not a valid
      ObjectId (a cast error, answered with 400). */
  function UpdateRuleSpec(rules: seq<Rules.CommissionRule>, id: Option<nat>, b: RateBody): (seq<Rules.CommissionRule>, Reply) {
    if Greater(b.creatorRate, b.brandRate) then (rules, Reply(400, CreatorExceedsBrand))
    else if id.None? then (rules, Reply(400, CastFailed))
    else match Rules.FindById(rules, id.value)
      case None => (rules, Reply(404, RuleNotFound))
      case Some(i) => (rules[i := ApplyRates(rules[i], b)], Reply(200, ""))
  }

  /** An update changes only the two rates of the one rule with that id;
      anything else leaves the rules as they were. */
  lemma UpdateRuleFacts(rules: seq<Rules.CommissionRule>, nextId: nat, id: Option<nat>, b: RateBody)
    requires Rules.WellFormed(rules, nextId)
    ensures Rules.WellFormed(UpdateRuleSpec(rules, id, b).0, nextId)
    ensures |UpdateRuleSpec(rules, id, b).0| == |rules|
    ensures UpdateRuleSpec(rules, id, b).1.status == 200 ==> id.Some? && Rules.FindById(rules, id.value).Some?
    ensures UpdateRuleSpec(rules, id, b).1.status == 200 ==>
              forall k :: 0 <= k < |rules| ==>
                UpdateRuleSpec(rules, id, b).0[k] == (if rules[k].id == id.value then ApplyRates(rules[k], b) else rules[k])
    ensures UpdateRuleSpec(rules, id, b).1.status != 200 ==> UpdateRuleSpec(rules, id, b).0 == rules
    ensures id.Some? && Rules.FindById(rules, id.value).None? && !Greater(b.creatorRate, b.brandRate) ==>
              UpdateRuleSpec(rules, id, b).1.status == 404
  {
    if !Greater(b.creatorRate, b.brandRate) && id.Some? {
      match Rules.FindById(rules, id.value) {
        case None =>
        case Some(i) =>
          var rules' := rules[i := ApplyRates(rules[i], b)];
          assert UpdateRuleSpec(rules, id, b).0 == rules';
          SameKeysKeepWellFormed(rules, rules', nextId);
          forall k | 0 <= k < |rules|
            ensures rules'[k] == (if rules[k].id == id.value then ApplyRates(rules[k], b) else rules[k])
          {
            assert rules[k].id == id.value <==> k == i;
          }
      }
    }
  }

  /** Two rule sequences that agree position by position on id and key. */
  predicate SameKeys(rules: seq<Rules.CommissionRule>, rules': seq<Rules.CommissionRule>) {
    && |rules'| == |rules|
    && forall k :: 0 <= k < |rules| ==>
         rules'[k].id == rules[k].id && rules'[k].platform == rules[k].platform && rules'[k].category == rules[k].category
  }

  lemma SameKeysKeepWellFormed(rules: seq<Rules.CommissionRule>, rules': seq<Rules.CommissionRule>, nextId: nat)
    requires Rules.WellFormed(rules, nextId) && SameKeys(rules, rules')
    ensures Rules.WellFormed(rules', nextId)
  {
    forall k1, k2 | 0 <= k1 < k2 < |rules'|
      ensures (rules'[k1].platform, rules'[k1].category) != (rules'[k2].platform, rules'[k2].category)
    {
      assert (rules[k1].platform, rules[k1].category) != (rules[k2].platform, rules[k2].category);
    }
  }

  /** The update compares only the rates in the request, so changing the
      creator rate alone can leave it above the stored brand rate. */
  lemma UpdateCanInvertRule(id: nat)
    ensures var rules := [Rules.CommissionRule(id, "flipkart", "fashion", 10.0, 5.0)];
            var (rules', reply) := UpdateRuleSpec(rules, Some(id), RateBody(None, Some(15.0)));
            reply.status == 200 && rules'[0].creatorCommissionRate > rules'[0].brandCommissionRate
  {
  }

  /** `PUT /commission-rule/:id`. */
  method UpdateRule(store: Rules.RuleStore, id: Option<nat>, b: RateBody) returns (reply: Reply)
    requires store.Valid()
    modifies store
    ensures store.Valid() && store.nextId == old(store.nextId)
    ensures (store.rules, reply) == UpdateRuleSpec(old(store.rules), id, b)
  {
    UpdateRuleFacts(store.rules, store.nextId, id, b);
    if Greater(b.creatorRate, b.brandRate) {
      return Reply(400, CreatorExceedsBrand);
    }
    if id.None? {
      return Reply(400, CastFailed);
    }
    var found := Rules.FindById(store.rules, id.value);
    if found.None? {
      return Reply(404, RuleNotFound);
    }
    store.rules := store.rules[found.value := ApplyRates(store.rules[found.value], b)];
    return Reply(200, "");
  }

  /** `DELETE /commission-rule/:id`. */
  function DeleteRuleSpec(rules: seq<Rules.CommissionRule>, id: Option<nat>): (seq<Rules.CommissionRule>, Reply) {
    if id.None? then (rules, Reply(400, CastFailed))
    else match Rules.FindById(rules, id.value)
      case None => (rules, Reply(404, RuleNotFound))
      case Some(i) => (rules[..i] + rules[i + 1..], Reply(200, ""))
  }

  /** Deleting removes exactly the rule with that id and keeps the
      collection well formed; an unknown id is a 404. */
  lemma DeleteRuleFacts(rules: seq<Rules.CommissionRule>, nextId: nat, id: Option<nat>)
    requires Rules.WellFormed(rules, nextId)
    ensures var (rules', reply) := DeleteRuleSpec(rules, id);
      && Rules.WellFormed(rules', nextId)
      && (id.Some? && Rules.FindById(rules, id.value).None? ==> reply.status == 404 && rules' == rules)
      && (reply.status == 200 ==> |rules'| == |rules| - 1
                                  && (forall r :: r in rules' <==> r in rules && r.id != id.value))
  {
    if id.Some? && Rules.FindById(rules, id.value).Some? {
      var i := Rules.FindById(rules, id.value).value;
      RemoveKeepsWellFormed(rules, nextId, i);
      RemoveMembers(rules, nextId, i);
    }
  }

  /** The position in the old sequence of position `k` after removing
      position `i`. */
  function Skip(k: nat, i: nat): nat {
    if k < i then k else k + 1
  }

  lemma RemoveMembers(rules: seq<Rules.CommissionRule>, nextId: nat, i: nat)
    requires Rules.WellFormed(rules, nextId) && i < |rules|
    ensures forall r :: r in rules[..i] + rules[i + 1..] <==> r in rules && r.id != rules[i].id
  {
    var rules' := rules[..i] + rules[i + 1..];
    assert forall k :: 0 <= k < |rules'| ==> rules'[k] == rules[Skip(k, i)];
    forall r | r in rules'
      ensures r in rules && r.id != rules[i].id
    {
      var k :| 0 <= k < |rules'| && rules'[k] == r;
      var j := Skip(k, i);
      assert r == rules[j] && j != i;
      IdsDiffer(rules, nextId, i, j);
    }
    forall r | r in rules && r.id != rules[i].id
      ensures r in rules'
    {
      var k :| 0 <= k < |rules| && rules[k] == r;
      if k < i {
        assert rules'[k] == r;
      } else {
        assert rules'[k - 1] == r;
      }
    }
  }

  /** Two rules at different positions have different ids. */
  lemma IdsDiffer(rules: seq<Rules.CommissionRule>, nextId: nat, a: nat, b: nat)
    requires Rules.WellFormed(rules, nextId) && a < |rules| && b < |rules| && a != b
    ensures rules[a].id != rules[b].id
  {
    if a > b {
      IdsDiffer(rules, nextId, b, a);
    }
  }

  lemma RemoveKeepsWellFormed(rules: seq<Rules.CommissionRule>, nextId: nat, i: nat)
    requires Rules.WellFormed(rules, nextId) && i < |rules|
    ensures Rules.WellFormed(rules[..i] + rules[i + 1..], nextId)
  {
    var rules' := rules[..i] + rules[i + 1..];
    assert forall k :: 0 <= k < |rules'| ==> rules'[k] == rules[Skip(k, i)];
    forall k1, k2 | 0 <= k1 < k2 < |rules'|
      ensures rules'[k1].id != rules'[k2].id
      ensures (rules'[k1].platform, rules'[k1].category) != (rules'[k2].platform, rules'[k2].category)
    {
      assert Skip(k1, i) < Skip(k2, i);
    }
  }

  /** `DELETE /commission-rule/:id`. */
  method DeleteRule(store: Rules.RuleStore, id: Option<nat>) returns (reply: Reply)
    requires store.Valid()
    modifies store
    ensures store.Valid() && store.nextId == old(store.nextId)
    ensures (store.rules, reply) == DeleteRuleSpec(old(store.rules), id)
  {
    DeleteRuleFacts(store.rules, store.nextId, id);
    if id.None? {
      return Reply(400, CastFailed);
    }
    var found := Rules.FindById(store.rules, id.value);
    if found.None? {
      return Reply(404, RuleNotFound);
    }
    store.rules := store.rules[..found.value] + store.rules[found.value + 1..];
    return Reply(200, "");
  }

  // ---------------------------------------------------------------
  // Orders
  // ---------------------------------------------------------------

  /** `allowedStatuses` of the status override. */
  const AllowedStatuses: seq<string> := ["pending", "approved", "declined", "paid"]

  /** `PUT /orders/:id/status`.  `id` is a position in the collection, or
      `None` for a malformed ObjectId. */
  function SetOrderStatusSpec(orders: seq<Order>, id: Option<nat>, status: string): (seq<Order>, Reply) {
    if status !in AllowedStatuses then (orders, Reply(400, "Invalid status value"))
    else if id.None? then (orders, Reply(400, CastFailed))
    else if id.value >= |orders| then (orders, Reply(404, "Order not found"))
    else (orders[id.value := orders[id.value].(status := status)], Reply(200, ""))
  }

  /** The whitelist is exactly the status enum and comes before the id
      check; an accepted update changes that one order's status only and
      keeps the collection well formed. */
  lemma SetOrderStatusFacts(orders: seq<Order>, id: Option<nat>, status: string)
    requires WellFormed(orders)
    ensures forall s :: s in AllowedStatuses <==> s in OrderStatuses
    ensures var (orders', reply) := SetOrderStatusSpec(orders, id, status);
      && WellFormed(orders')
      && (status !in OrderStatuses ==> reply == Reply(400, "Invalid status value") && orders' == orders)
      && (reply.status == 200 <==> status in OrderStatuses && id.Some? && id.value < |orders|)
      && (reply.status == 200 ==> orders' == orders[id.value := orders[id.value].(status := status)])
      && (reply.status != 200 ==> orders' == orders)
  {
    if status in AllowedStatuses && id.Some? && id.value < |orders| {
      SetStatusKeepsWellFormed(orders, id.value, status);
    }
  }

  /** `PUT /orders/:id/status`.  Only the order store is in the frame:
      CreatorStats is not touched. */
  method SetOrderStatus(store: OrderStore, id: Option<nat>, status: string) returns (reply: Reply)
    requires store.Valid()
    modifies store
    ensures store.Valid()
    ensures (store.orders, reply) == SetOrderStatusSpec(old(store.orders), id, status)
  {
    SetOrderStatusFacts(store.orders, id, status);
    if status !in AllowedStatuses {
      return Reply(400, "Invalid status value");
    }
    if id.None? {
      return Reply(400, CastFailed);
    }
    if id.value >= |store.orders| {
      return Reply(404, "Order not found");
    }
    store.orders := store.orders[id.value := store.orders[id.value].(status := status)];
    return Reply(200, "");
  }

  /** `parseInt(param) || d`: `None` is a parameter that is absent or
      does not parse (NaN). */
  function ParseIntOr(param: Option<int>, d: int): (r: int)
    ensures param.Some? && param.value != 0 ==> r == param.value
    ensures param.None? || param.value == 0 ==> r == d
  {
    if param.Some? && param.value != 0 then param.value else d
  }

  /** Orders with the given status, or all orders for an empty filter. */
  function Filtered(orders: seq<Order>, status: string): (r: seq<Order>)
    ensures |r| <= |orders|
    ensures forall o :: o in r <==> o in orders && (status == "" || o.status == status)
  {
    Filter(orders, (o: Order) => status == "" || o.status == status)
  }



  datatype OrderPage = OrderPage(page: int, limit: int, count: nat, orders: seq<Order>)

  /** `GET /orders`.  MongoDB rejects a negative skip (answered with 500)
      and reads a negative limit as its absolute value. */
  function ListOrders(orders: seq<Order>, status: string, pageParam: Option<int>, limitParam: Option<int>): (r: Result<OrderPage, int>)
    ensures r.Failure? ==> r.error == 500
  {
    var page := ParseIntOr(pageParam, 1);
    var limit := ParseIntOr(limitParam, 20);
    var skip := (page - 1) * limit;
    if skip < 0 then Failure(500)
    else
      var listed := Window(NewestFirst(Filtered(orders, status)), skip, Abs(limit));
      Success(OrderPage(page, limit, |listed|, listed))
  }

  /** Paging: page 1 and limit 20 by default, skip = (page - 1) * limit,
      at most |limit| orders, all with the requested status, and two
      consecutive pages list consecutive runs of the newest-first order. */
  lemma ListOrdersFacts(orders: seq<Order>, status: string, pageParam: Option<int>, limitParam: Option<int>)
    ensures pageParam.None? && limitParam.None? ==>
              ListOrders(orders, status, pageParam, limitParam)
              == Success(OrderPage(1, 20, |Window(NewestFirst(Filtered(orders, status)), 0, 20)|,
                                   Window(NewestFirst(Filtered(orders, status)), 0, 20)))
    ensures var r := ListOrders(orders, status, pageParam, limitParam);
      r.Success? ==>
        && r.value.count == |r.value.orders| <= Abs(r.value.limit)
        && (r.value.page - 1) * r.value.limit >= 0
        && r.value.orders == Window(NewestFirst(Filtered(orders, status)), (r.value.page - 1) * r.value.limit, Abs(r.value.limit))
        && (forall o :: o in r.value.orders ==> o in orders && (status == "" || o.status == status))
  {
    var r := ListOrders(orders, status, pageParam, limitParam);
    if r.Success? {
      var f := Filtered(orders, status);
      var skip: nat := (r.value.page - 1) * r.value.limit;
      assert r.value.orders == Window(NewestFirst(f), skip, Abs(r.value.limit));
      WindowMembers(NewestFirst(f), skip, Abs(r.value.limit));
      NewestFirstMembers(f);
    }
  }

  /** The three sums the dashboard reports for one status. */
  datatype Totals = Totals(totalPlatformProfit: real, totalCreatorEarnings: real, count: real)

  const ZeroTotals: Totals := Totals(0.0, 0.0, 0.0)

  /** `$sum` of the two amounts and of 1 over some orders. */
  function TotalsOf(orders: seq<Order>): Totals {
    if |orders| == 0 then ZeroTotals
    else
      var rest := TotalsOf(orders[1..]);
      Totals(orders[0].platformCommissionAmount + rest.totalPlatformProfit,
             orders[0].creatorCommissionAmount + rest.totalCreatorEarnings,
             1.0 + rest.count)
  }

  /** The `$group` entry for a status: present only when some order has
      that status. */
  function Group(orders: seq<Order>, status: string): Option<Totals> {
    var members := Filtered(orders, status);
    if |members| > 0 then Some(TotalsOf(members)) else None
  }

  datatype Dashboard = Dashboard(approved: Totals, pending: Totals, declined: Totals, paid: Totals)

  /** `GET /platform-profit`: each status's group, or zeros. */
  function PlatformProfit(orders: seq<Order>): Dashboard {
    Dashboard(Group(orders, "approved").GetOr(ZeroTotals),
              Group(orders, "pending").GetOr(ZeroTotals),
              Group(orders, "declined").GetOr(ZeroTotals),
              Group(orders, "paid").GetOr(ZeroTotals))
  }

  /** The zero default agrees with an empty group: every entry is the
      totals of exactly the orders in that status. */
  lemma DashboardIsTotals(orders: seq<Order>)
    ensures PlatformProfit(orders) == Dashboard(TotalsOf(Filtered(orders, "approved")), TotalsOf(Filtered(orders, "pending")),
                                                TotalsOf(Filtered(orders, "declined")), TotalsOf(Filtered(orders, "paid")))
  {
  }

  function AddTotals(a: Totals, b: Totals): Totals {
    Totals(a.totalPlatformProfit + b.totalPlatformProfit, a.totalCreatorEarnings + b.totalCreatorEarnings, a.count + b.count)
  }

  /** Over orders whose statuses are all in the enum, the four entries add
      up to the totals of the whole collection: no order is left out and
      none is counted twice. */
  lemma {:induction false} DashboardCoversAll(orders: seq<Order>)
    requires forall i :: 0 <= i < |orders| ==> orders[i].status in OrderStatuses
    ensures var d := PlatformProfit(orders);
            AddTotals(AddTotals(d.approved, d.pending), AddTotals(d.declined, d.paid)) == TotalsOf(orders)
  {
    DashboardIsTotals(orders);
    StatusTotalsCoverAll(orders, "approved", "pending", "declined", "paid");
  }

  /** The same fact on the four filtered totals, by induction, for any
      four distinct non-empty statuses that cover every order. */
  lemma {:induction false} StatusTotalsCoverAll(orders: seq<Order>, s1: string, s2: string, s3: string, s4: string)
    requires s1 != "" && s2 != "" && s3 != "" && s4 != ""
    requires s1 != s2 && s1 != s3 && s1 != s4 && s2 != s3 && s2 != s4 && s3 != s4
    requires forall i :: 0 <= i < |orders| ==> orders[i].status in {s1, s2, s3, s4}
    ensures AddTotals(AddTotals(TotalsOf(Filtered(orders, s1)), TotalsOf(Filtered(orders, s2))),
                      AddTotals(TotalsOf(Filtered(orders, s3)), TotalsOf(Filtered(orders, s4))))
            == TotalsOf(orders)
  {
    if |orders| > 0 {
      var o := orders[0];
      var one := Totals(o.platformCommissionAmount, o.creatorCommissionAmount, 1.0);
      var rest := orders[1..];
      assert TotalsOf(orders) == AddTotals(one, TotalsOf(rest));
      FilteredStep(orders, s1);
      FilteredStep(orders, s2);
      FilteredStep(orders, s3);
      FilteredStep(orders, s4);
      var r1, r2, r3, r4 := TotalsOf(Filtered(rest, s1)), TotalsOf(Filtered(rest, s2)),
                            TotalsOf(Filtered(rest, s3)), TotalsOf(Filtered(rest, s4));
      var t1, t2, t3, t4 := TotalsOf(Filtered(orders, s1)), TotalsOf(Filtered(orders, s2)),
                            TotalsOf(Filtered(orders, s3)), TotalsOf(Filtered(orders, s4));
      StatusTotalsCoverAll(rest, s1, s2, s3, s4);
      assert AddTotals(AddTotals(r1, r2), AddTotals(r3, r4)) == TotalsOf(rest);
      assert o.status in {s1, s2, s3, s4};
      if o.status == s1 {
        ExtraInOne(one, r1, r2, r3, r4);
      } else if o.status == s2 {
        ExtraInOne(one, r2, r1, r3, r4);
      } else if o.status == s3 {
        ExtraInOne(one, r3, r4, r1, r2);
      } else {
        ExtraInOne(one, r4, r3, r1, r2);
      }
    }
  }

  /** Adding one order's totals to any one of four summands adds it to
      the whole sum, in whatever order the summands are grouped. */
  lemma ExtraInOne(one: Totals, a: Totals, b: Totals, c: Totals, d: Totals)
    ensures AddTotals(AddTotals(AddTotals(one, a), b), AddTotals(c, d))
            == AddTotals(one, AddTotals(AddTotals(a, b), AddTotals(c, d)))
    ensures AddTotals(AddTotals(b, AddTotals(one, a)), AddTotals(c, d))
            == AddTotals(one, AddTotals(AddTotals(b, a), AddTotals(c, d)))
    ensures AddTotals(AddTotals(c, d), AddTotals(AddTotals(one, a), b))
            == AddTotals(one, AddTotals(AddTotals(c, d), AddTotals(a, b)))
    ensures AddTotals(AddTotals(c, d), AddTotals(b, AddTotals(one, a)))
            == AddTotals(one, AddTotals(AddTotals(c, d), AddTotals(b, a)))
  {
  }

  /** One step of a filtered total. */
  lemma FilteredStep(orders: seq<Order>, status: string)
    requires |orders| > 0 && status != ""
    ensures orders[0].status == status ==>
              TotalsOf(Filtered(orders, status))
              == AddTotals(Totals(orders[0].platformCommissionAmount, orders[0].creatorCommissionAmount, 1.0),
                           TotalsOf(Filtered(orders[1..], status)))
    ensures orders[0].status != status ==> TotalsOf(Filtered(orders, status)) == TotalsOf(Filtered(orders[1..], status))
  {
    var rest := Filtered(orders[1..], status);
    if orders[0].status == status {
      assert Filtered(orders, status) == [orders[0]] + rest;
      assert ([orders[0]] + rest)[1..] == rest;
    } else {
      assert Filtered(orders, status) == [] + rest;
      assert [] + rest == rest;
    }
  }

  // ---------------------------------------------------------------
  // Payouts
  // ---------------------------------------------------------------

  /** `POST /payouts/generate`: validate, then queue one `generatePayout`
      job; `addFails` is a failing `payoutQueue.add` (answered with 500).
      A date is `None` when it is missing. */
  method GeneratePayouts(queue: PayoutQueue, creatorId: string, periodStart: Option<int>, periodEnd: Option<int>, addFails: bool)
    returns (reply: Reply)
    modifies queue
    ensures creatorId == "" || periodStart.None? || periodEnd.None? ==>
              reply == Reply(400, "creatorId, periodStart and periodEnd are required") && queue.jobs == old(queue.jobs)
    ensures reply.status == 200 <==> creatorId != "" && periodStart.Some? && periodEnd.Some? && !addFails
    ensures reply.status == 200 ==> queue.jobs == old(queue.jobs) + [PayoutJob(creatorId, periodStart.value, periodEnd.value)]
    ensures reply.status != 200 ==> queue.jobs == old(queue.jobs)
  {
    if creatorId == "" || periodStart.None? || periodEnd.None? {
      return Reply(400, "creatorId, periodStart and periodEnd are required");
    }
    if addFails {
      return Reply(500, "queue unavailable");
    }
    queue.Add(PayoutJob(creatorId, periodStart.value, periodEnd.value));
    return Reply(200, "");
  }

  /** `PUT /payouts/:id/pay`: status "paid" and `paidAt` now, whatever
      the current status. */
  function PayPayoutSpec(payouts: seq<P.Payout>, id: Option<nat>, now: int): (seq<P.Payout>, Reply) {
    if id.None? then (payouts, Reply(400, CastFailed))
    else if id.value >= |payouts| then (payouts, Reply(404, "Payout not found"))
    else (payouts[id.value := payouts[id.value].(status := "paid", paidAt := Some(now))], Reply(200, ""))
  }

  /** Paying keeps the collection well formed and changes only that
      payout's status and `paidAt`; an unknown id is a 404. */
  lemma PayPayoutFacts(payouts: seq<P.Payout>, id: Option<nat>, now: int)
    requires P.WellFormed(payouts)
    ensures var (payouts', reply) := PayPayoutSpec(payouts, id, now);
      && P.WellFormed(payouts')
      && (id.Some? && id.value >= |payouts| ==> reply.status == 404 && payouts' == payouts)
      && (reply.status == 200 ==> payouts'[id.value].status == "paid" && payouts'[id.value].paidAt == Some(now)
                                  && payouts'[id.value].totalCommission == payouts[id.value].totalCommission)
  {
    var (payouts', reply) := PayPayoutSpec(payouts, id, now);
    if reply.status == 200 {
      assert forall i :: 0 <= i < |payouts| ==>
        (payouts'[i].creatorId, payouts'[i].periodStart, payouts'[i].periodEnd)
        == (payouts[i].creatorId, payouts[i].periodStart, payouts[i].periodEnd);
    }
  }

  /** Nothing guards against paying twice: a second payment re-stamps
      `paidAt` with the later time. */
  lemma PayingTwiceRestamps(payouts: seq<P.Payout>, id: nat, first: int, second: int)
    requires id < |payouts|
    ensures var once := PayPayoutSpec(payouts, Some(id), first).0;
            var twice := PayPayoutSpec(once, Some(id), second);
            twice.1.status == 200 && twice.0[id].paidAt == Some(second)
  {
  }

  /** `PUT /payouts/:id/pay`. */
  method PayPayout(store: P.PayoutStore, id: Option<nat>, now: int) returns (reply: Reply)
    requires store.Valid()
    modifies store
    ensures store.Valid()
    ensures (store.payouts, reply) == PayPayoutSpec(old(store.payouts), id, now)
  {
    PayPayoutFacts(store.payouts, id, now);
    if id.None? {
      return Reply(400, CastFailed);
    }
    if id.value >= |store.payouts| {
      return Reply(404, "Payout not found");
    }
    store.payouts := store.payouts[id.value := store.payouts[id.value].(status := "paid", paidAt := Some(now))];
    return Reply(200, "");
  }

  // ---------------------------------------------------------------
  // Manual Admitad sync
  // ---------------------------------------------------------------

  /** The date handed to `fetchActions`: the request's own text, or a day. */
  datatype SyncDate = GivenDate(text: string) | DayNumber(day: int)

  /** `body.dateStart`, else the day of the stored `lastSync` (with no
      overlap, unlike the cron), else yesterday. */
  function ManualSyncDate(dateStart: string, lastSync: Option<int>, now: int): (d: SyncDate)
    ensures dateStart != "" ==> d == GivenDate(dateStart)
    ensures dateStart == "" && lastSync.Some? ==> d == DayNumber(DayOf(lastSync.value))
    ensures dateStart == "" && lastSync.None? ==> d == DayNumber(DayOf(now - OneDayMs))
  {
    if dateStart != "" then GivenDate(dateStart)
    else match lastSync
      case Some(t) => DayNumber(DayOf(t))
      case None => DayNumber(DayOf(now - OneDayMs))
  }

  /** The job the manual sync queues: unlike the cron, `rawAmount` is
      `amount` and `price` is ignored. */
  function ManualJob(a: AdmitadAction): (j: OrderJob)
    ensures j.platform == Platform && j.category == Category
    ensures j.orderId == a.order_id && j.subId == a.subid && j.status == a.status
    ensures j.orderValue == a.payment && j.rawAmount == a.amount
  {
    OrderJob(orderId := a.order_id, platform := Platform, category := Category,
             orderValue := a.payment, rawAmount := a.amount,
             creatorId := "", shortCode := "", subId := a.subid, status := a.status, productName := "")
  }

  function ManualJobs(actions: seq<AdmitadAction>): (jobs: seq<OrderJob>)
    ensures |jobs| == |actions|
    ensures forall i :: 0 <= i < |actions| ==> jobs[i] == ManualJob(actions[i])
  {
    seq(|actions|, i requires 0 <= i < |actions| => ManualJob(actions[i]))
  }

  /** `POST /admitad/sync`.  `fetch` stands for `fetchActions` (`None` is
      a thrown error), `addFailsAt` for the first failing queue add,
      `updateFails` for a failing SyncState write; any error is a 500.
      The reply carries the number of actions. */
  method ManualSync(state: SyncStateStore, queue: Queue, dateStart: string, fetch: SyncDate -> Option<seq<AdmitadAction>>,
                    addFailsAt: Option<nat>, updateFails: bool, now: int)
    returns (reply: Reply, count: nat)
    modifies state, queue
    ensures var fetched := fetch(ManualSyncDate(dateStart, old(state.Get(Platform)), now));
      && queue.jobs == old(queue.jobs) + (if fetched.Some? then ManualJobs(QueuedPrefix(fetched.value, addFailsAt)) else [])
      && (reply.status == 200 <==> fetched.Some? && AllQueued(fetched.value, addFailsAt) && !updateFails)
      && (reply.status != 200 ==> reply.status == 500)
      && (reply.status == 200 ==> count == |fetched.value|)
      && state.lastSync == (if fetched.Some? && AllQueued(fetched.value, addFailsAt) && !updateFails
                            then old(state.lastSync)[Platform := now] else old(state.lastSync))
  {
    var syncDate := ManualSyncDate(dateStart, state.Get(Platform), now);
    var actions := fetch(syncDate);
    if actions.None? {
      return Reply(500, "fetch failed"), 0;
    }
    var i := 0;
    while i < |actions.value|
      invariant 0 <= i <= |actions.value|
      invariant addFailsAt.Some? ==> i <= addFailsAt.value
      invariant queue.jobs == old(queue.jobs) + ManualJobs(actions.value[..i])
      invariant state.lastSync == old(state.lastSync)
    {
      if addFailsAt == Some(i) {
        assert QueuedPrefix(actions.value, addFailsAt) == actions.value[..i];
        return Reply(500, "queue add failed"), 0;
      }
      assert ManualJobs(actions.value[..i + 1]) == ManualJobs(actions.value[..i]) + [ManualJob(actions.value[i])];
      queue.Add(ManualJob(actions.value[i]));
      i := i + 1;
    }
    assert actions.value[..i] == actions.value;
    if updateFails {
      return Reply(500, "sync state update failed"), 0;
    }
    state.Touch(Platform, now);
    return Reply(200, ""), |actions.value|;
  }
}
