/** The GraphQL read side: `me` (name, pre-aggregated stats and the
    newest links with their click totals), `myOrders` (one clamped page
    of the creator's orders) and the `Creator.links(limit)` field. */
module Resolvers {
  import opened Wrappers
  import opened Lookup
  import opened Js
  import opened Cursor
  import Stats = CreatorStatsModel
  import Links = AffiliateLinkModel
  import Orders = OrderModel

  const UnauthorizedMessage: string := "Unauthorized"
  const DefaultName: string := "Creator"
  const DefaultBaseUrl: string := "http://localhost:4000"
  const DefaultLinkLimit: int := 10
  const MaxPageSize: int := 100

  /** The `stats` object of `me`. */
  datatype StatsView = StatsView(
    totalClicks: real,
    lifetimeCommission: real,
    pendingCommission: real,
    approvedCommission: real,
    paidCommission: real,
    totalOrders: real)

  /** The stats a stored row shows; `totalOrders` is its lifetime order count. */
  function ViewOf(s: Stats.CreatorStats): StatsView {
    StatsView(s.totalClicks, s.lifetimeCommission, s.pendingCommission,
              s.approvedCommission, s.paidCommission, s.lifetimeOrders)
  }

  /** `findOne({ creatorId })` and the `|| 0` defaults: a creator without
      a row sees zeros.  On a present number `x || 0` is `x`. */
  function MeStats(rows: seq<Stats.CreatorStats>, creatorId: string): (v: StatsView)
    ensures Stats.FindRow(rows, creatorId).None? ==> v == StatsView(0.0, 0.0, 0.0, 0.0, 0.0, 0.0)
  {
    match Stats.FindRow(rows, creatorId)
    case Some(i) => ViewOf(rows[i])
    case None => StatsView(0.0, 0.0, 0.0, 0.0, 0.0, 0.0)
  }

  /** The stats shown are those of the creator's row, or of the all-zero
      row an upsert would insert. */
  lemma MeStatsIsRow(rows: seq<Stats.CreatorStats>, creatorId: string, now: int)
    ensures MeStats(rows, creatorId) == ViewOf(Stats.RowOf(rows, creatorId, now))
  {
  }

  /** After a stats upsert the creator's dashboard shows the incremented
      row and every other creator's dashboard is unchanged. */
  lemma MeStatsAfterUpsert(rows: seq<Stats.CreatorStats>, creatorId: string, inc: Stats.Inc, now: int, other: string)
    requires Stats.OneRowPerCreator(rows)
    ensures MeStats(Stats.Upsert(rows, creatorId, inc, now), creatorId)
            == ViewOf(Stats.ApplyInc(Stats.RowOf(rows, creatorId, now), inc, now))
    ensures other != creatorId ==>
            MeStats(Stats.Upsert(rows, creatorId, inc, now), other) == MeStats(rows, other)
  {
    Stats.UpsertEffect(rows, creatorId, inc, now, other);
    MeStatsIsRow(Stats.Upsert(rows, creatorId, inc, now), creatorId, now);
    MeStatsIsRow(Stats.Upsert(rows, creatorId, inc, now), other, now);
    MeStatsIsRow(rows, other, now);
  }

  /** One entry of `me.links`. */
  datatype LinkView = LinkView(
    shortCode: string,
    originalUrl: string,
    publicUrl: string,
    platform: string,
    productTitle: string,
    productImage: string,
    clicks: real,
    createdAt: int)

  /** A link as `me` shows it: the stored public URL or, for old records,
      `baseUrl/share/<shortCode>`; the LinkStats total or 0. */
  function LinkViewOf(l: Links.AffiliateLink, linkStats: map<string, Links.LinkStat>, baseUrl: string): (v: LinkView)
    ensures v.shortCode == l.shortCode && v.originalUrl == l.originalUrl && v.platform == l.platform
    ensures l.publicUrl != "" ==> v.publicUrl == l.publicUrl
    ensures l.publicUrl == "" ==> v.publicUrl == baseUrl + "/share/" + l.shortCode
    ensures l.shortCode in linkStats ==> v.clicks == linkStats[l.shortCode].totalClicks
    ensures l.shortCode !in linkStats ==> v.clicks == 0.0
  {
    LinkView(l.shortCode, l.originalUrl, OrString(l.publicUrl, baseUrl + "/share/" + l.shortCode), l.platform,
             l.productTitle, l.productImage,
             if l.shortCode in linkStats then linkStats[l.shortCode].totalClicks else 0.0,
             l.createdAt)
  }

  /** `AffiliateLink.find({ creatorId })`, in insertion order. */
  function OwnedLinks(links: seq<Links.AffiliateLink>, creatorId: string): (r: seq<Links.AffiliateLink>)
    ensures |r| <= |links|
    ensures forall l :: l in r <==> l in links && l.creatorId == creatorId
  {
    Filter(links, (l: Links.AffiliateLink) => l.creatorId == creatorId)
  }



  /** The view is that of one of the creator's own links. */
  ghost predicate IsOwnLinkView(v: LinkView, links: seq<Links.AffiliateLink>, creatorId: string,
                                linkStats: map<string, Links.LinkStat>, baseUrl: string) {
    exists l :: l in links && l.creatorId == creatorId && v == LinkViewOf(l, linkStats, baseUrl)
  }

  /** Every view shown is the view of one of the creator's own links. */
  ghost predicate ShowsOwnLinks(views: seq<LinkView>, links: seq<Links.AffiliateLink>, creatorId: string,
                                linkStats: map<string, Links.LinkStat>, baseUrl: string) {
    forall i :: 0 <= i < |views| ==> IsOwnLinkView(views[i], links, creatorId, linkStats, baseUrl)
  }

  datatype MeView = MeView(name: string, stats: StatsView, links: seq<LinkView>)

  /** The number behind `args?.limit || 10`. */
  function LinkLimit(limitArg: Option<int>): (n: int)
    ensures n != 0
    ensures limitArg.Some? && limitArg.value != 0 ==> n == limitArg.value
    ensures limitArg.None? || limitArg.value == 0 ==> n == DefaultLinkLimit
  {
    if limitArg.Some? && limitArg.value != 0 then limitArg.value else DefaultLinkLimit
  }

  /** The query `me`.  `creatorName` is what `Creator.findById` found
      and `baseUrlEnv` is `BASE_URL` ("" when unset). */
  function Me(creatorId: string, creatorName: Option<string>, rows: seq<Stats.CreatorStats>,
              links: seq<Links.AffiliateLink>, linkStats: map<string, Links.LinkStat>,
              limitArg: Option<int>, baseUrlEnv: string): (r: Result<MeView, string>)
    ensures r.Failure? <==> creatorId == ""
    ensures r.Failure? ==> r.error == UnauthorizedMessage
  {
    if creatorId == "" then Failure(UnauthorizedMessage)
    else
      var shown := Limit(NewestFirst(OwnedLinks(links, creatorId)), LinkLimit(limitArg));
      var baseUrl := OrString(baseUrlEnv, DefaultBaseUrl);
      Success(MeView(creatorName.GetOr(DefaultName), MeStats(rows, creatorId),
                     seq(|shown|, i requires 0 <= i < |shown| => LinkViewOf(shown[i], linkStats, baseUrl))))
  }

  /** What `me` answers: the creator's name or "Creator", the creator's
      stats, and at most `|limit|` (by default 10) of the creator's links,
      newest first, each shown with its click total; a creator with no
      more links than that sees all of them. */
  lemma MeFacts(creatorId: string, creatorName: Option<string>, rows: seq<Stats.CreatorStats>,
                links: seq<Links.AffiliateLink>, linkStats: map<string, Links.LinkStat>,
                limitArg: Option<int>, baseUrlEnv: string, now: int)
    requires creatorId != ""
    ensures var r := Me(creatorId, creatorName, rows, links, linkStats, limitArg, baseUrlEnv);
      && r.Success?
      && r.value.name == (if creatorName.Some? then creatorName.value else DefaultName)
      && r.value.stats == ViewOf(Stats.RowOf(rows, creatorId, now))
      && |r.value.links| <= Abs(LinkLimit(limitArg))
      && (|OwnedLinks(links, creatorId)| <= Abs(LinkLimit(limitArg)) ==>
            |r.value.links| == |OwnedLinks(links, creatorId)|)
      && ShowsOwnLinks(r.value.links, links, creatorId, linkStats, OrString(baseUrlEnv, DefaultBaseUrl))
  {
    var owned := OwnedLinks(links, creatorId);
    var shown := Limit(NewestFirst(owned), LinkLimit(limitArg));
    var r := Me(creatorId, creatorName, rows, links, linkStats, limitArg, baseUrlEnv);
    MeStatsIsRow(rows, creatorId, now);
    var views := r.value.links;
    var baseUrl := OrString(baseUrlEnv, DefaultBaseUrl);
    forall i | 0 <= i < |views|
      ensures shown[i] in links && shown[i].creatorId == creatorId && views[i] == LinkViewOf(shown[i], linkStats, baseUrl)
    {
      var newest := NewestFirst(owned);
      assert shown == newest[..|shown|];
      var l := owned[|owned| - 1 - i];
      assert shown[i] == newest[i] == l;
      assert l in owned;
    }
    ShowsOwnLinksFrom(views, shown, links, creatorId, linkStats, baseUrl);
  }

  /** Views built position by position from owned links show own links. */
  lemma ShowsOwnLinksFrom(views: seq<LinkView>, shown: seq<Links.AffiliateLink>, links: seq<Links.AffiliateLink>,
                          creatorId: string, linkStats: map<string, Links.LinkStat>, baseUrl: string)
    requires |views| <= |shown|
    requires forall i :: 0 <= i < |views| ==>
               shown[i] in links && shown[i].creatorId == creatorId && views[i] == LinkViewOf(shown[i], linkStats, baseUrl)
    ensures ShowsOwnLinks(views, links, creatorId, linkStats, baseUrl)
  {
    forall i | 0 <= i < |views|
      ensures IsOwnLinkView(views[i], links, creatorId, linkStats, baseUrl)
    {
      var l := shown[i];
      assert l in links && l.creatorId == creatorId && views[i] == LinkViewOf(l, linkStats, baseUrl);
    }
  }

  /** `Math.max(1, page)`. */
  function ValidPage(page: int): (p: int)
    ensures p >= 1
    ensures page >= 1 ==> p == page
  {
    if page < 1 then 1 else page
  }

  /** `Math.min(Math.max(1, limit), 100)`. */
  function ValidLimit(limit: int): (n: int)
    ensures 1 <= n <= MaxPageSize
    ensures 1 <= limit <= MaxPageSize ==> n == limit
    ensures limit > MaxPageSize ==> n == MaxPageSize
  {
    if limit < 1 then 1 else if limit > MaxPageSize then MaxPageSize else limit
  }

  function PageSkip(page: int, limit: int): nat {
    (ValidPage(page) - 1) * ValidLimit(limit)
  }

  /** `Order.find({ creatorId })`, in insertion order. */
  function OwnedOrders(orders: seq<Orders.Order>, creatorId: string): (r: seq<Orders.Order>)
    ensures |r| <= |orders|
    ensures forall o :: o in r <==> o in orders && o.creatorId == creatorId
  {
    Filter(orders, (o: Orders.Order) => o.creatorId == creatorId)
  }



  /** One entry of `myOrders.orders`. */
  datatype OrderView = OrderView(
    orderId: string,
    productName: string,
    orderValue: real,
    creatorCommissionAmount: real,
    status: string,
    platform: string,
    createdAt: int)

  function OrderViewOf(o: Orders.Order): OrderView {
    OrderView(o.orderId, o.productName, o.orderValue, o.creatorCommissionAmount, o.status, o.platform, o.createdAt)
  }

  /** The view is that of one of the creator's own orders. */
  ghost predicate IsOwnOrderView(v: OrderView, orders: seq<Orders.Order>, creatorId: string) {
    exists o :: o in orders && o.creatorId == creatorId && v == OrderViewOf(o)
  }

  /** Every order shown is one of the creator's own orders. */
  ghost predicate ShowsOwnOrders(views: seq<OrderView>, orders: seq<Orders.Order>, creatorId: string) {
    forall i :: 0 <= i < |views| ==> IsOwnOrderView(views[i], orders, creatorId)
  }

  datatype OrdersResponse = OrdersResponse(orders: seq<OrderView>, totalCount: nat, hasMore: bool)

  /** The creator's orders on one page, newest first. */
  function PageOf(orders: seq<Orders.Order>, creatorId: string, page: int, limit: int): seq<Orders.Order> {
    Window(NewestFirst(OwnedOrders(orders, creatorId)), PageSkip(page, limit), ValidLimit(limit))
  }

  /** The query `myOrders(page, limit)`. */
  function MyOrders(creatorId: string, page: int, limit: int, orders: seq<Orders.Order>): (r: Result<OrdersResponse, string>)
    ensures r.Failure? <==> creatorId == ""
    ensures r.Failure? ==> r.error == UnauthorizedMessage
  {
    if creatorId == "" then Failure(UnauthorizedMessage)
    else
      var listed := PageOf(orders, creatorId, page, limit);
      var total := |OwnedOrders(orders, creatorId)|;
      Success(OrdersResponse(seq(|listed|, i requires 0 <= i < |listed| => OrderViewOf(listed[i])),
                             total, PageSkip(page, limit) + |listed| < total))
  }

  /** A page holds between 1 and 100 orders' worth of room, only the
      creator's own orders, and the total counts all of the creator's
      orders. */
  lemma MyOrdersFacts(creatorId: string, page: int, limit: int, orders: seq<Orders.Order>)
    requires creatorId != ""
    ensures var r := MyOrders(creatorId, page, limit, orders);
      && r.Success?
      && |r.value.orders| <= ValidLimit(limit) <= MaxPageSize
      && r.value.totalCount == |OwnedOrders(orders, creatorId)|
      && ShowsOwnOrders(r.value.orders, orders, creatorId)
  {
    var listed := PageOf(orders, creatorId, page, limit);
    var r := MyOrders(creatorId, page, limit, orders);
    var views := r.value.orders;
    forall i | 0 <= i < |views|
      ensures listed[i] in orders && listed[i].creatorId == creatorId && views[i] == OrderViewOf(listed[i])
    {
      PageOfIsOwn(orders, creatorId, page, limit, i);
    }
    ShowsOwnOrdersFrom(views, listed, orders, creatorId);
  }

  /** Each order on a page is one of the creator's own. */
  lemma PageOfIsOwn(orders: seq<Orders.Order>, creatorId: string, page: int, limit: int, i: nat)
    requires i < |PageOf(orders, creatorId, page, limit)|
    ensures PageOf(orders, creatorId, page, limit)[i] in orders
    ensures PageOf(orders, creatorId, page, limit)[i].creatorId == creatorId
  {
    var owned := OwnedOrders(orders, creatorId);
    var listed := PageOf(orders, creatorId, page, limit);
    var newest := NewestFirst(owned);
    var skip := PageSkip(page, limit);
    assert skip < |newest|;
    assert listed[i] == newest[skip + i];
    var o := owned[|owned| - 1 - (skip + i)];
    assert listed[i] == o;
    assert o in owned;
  }

  /** Views built position by position from owned orders show own orders. */
  lemma ShowsOwnOrdersFrom(views: seq<OrderView>, listed: seq<Orders.Order>, orders: seq<Orders.Order>, creatorId: string)
    requires |views| <= |listed|
    requires forall i :: 0 <= i < |views| ==>
               listed[i] in orders && listed[i].creatorId == creatorId && views[i] == OrderViewOf(listed[i])
    ensures ShowsOwnOrders(views, orders, creatorId)
  {
    forall i | 0 <= i < |views|
      ensures IsOwnOrderView(views[i], orders, creatorId)
    {
      var o := listed[i];
      assert o in orders && o.creatorId == creatorId && views[i] == OrderViewOf(o);
    }
  }

  /** The shape of a successful answer. */
  lemma MyOrdersShape(creatorId: string, page: int, limit: int, orders: seq<Orders.Order>)
    requires creatorId != ""
    ensures var r := MyOrders(creatorId, page, limit, orders);
      && r.Success?
      && |r.value.orders| == |PageOf(orders, creatorId, page, limit)|
      && r.value.totalCount == |OwnedOrders(orders, creatorId)|
      && (r.value.hasMore <==> PageSkip(page, limit) + |PageOf(orders, creatorId, page, limit)| < r.value.totalCount)
  {
  }

  lemma NextPageSkip(page: int, limit: int)
    ensures PageSkip(ValidPage(page) + 1, limit) == PageSkip(page, limit) + ValidLimit(limit)
  {
    var p := ValidPage(page);
    var n := ValidLimit(limit);
    assert ValidPage(p + 1) == p + 1;
    assert (p + 1 - 1) * n == (p - 1) * n + n;
  }

  /** `hasMore` is true exactly when the next page (same limit) is not
      empty. */
  lemma HasMoreIffNextPage(creatorId: string, page: int, limit: int, orders: seq<Orders.Order>)
    requires creatorId != ""
    ensures MyOrders(creatorId, page, limit, orders).value.hasMore
            <==> |MyOrders(creatorId, ValidPage(page) + 1, limit, orders).value.orders| > 0
  {
    var newest := NewestFirst(OwnedOrders(orders, creatorId));
    var skip := PageSkip(page, limit);
    var n := ValidLimit(limit);
    NextPageSkip(page, limit);
    MyOrdersShape(creatorId, page, limit, orders);
    MyOrdersShape(creatorId, ValidPage(page) + 1, limit, orders);
    WindowLength(newest, skip, n);
    WindowLength(newest, skip + n, n);
  }

  /** The field resolver `Creator.links(limit)`: the first `limit` links
      when `limit` is truthy (a negative one counts back from the end, as
      `slice` does), otherwise the links as given or []. */
  function CreatorLinks(parentLinks: Option<seq<LinkView>>, limit: Option<int>): (r: seq<LinkView>)
    ensures parentLinks.None? ==> r == []
    ensures parentLinks.Some? ==> |r| <= |parentLinks.value| && r == parentLinks.value[..|r|]
    ensures parentLinks.Some? && limit.Some? && 0 < limit.value <= |parentLinks.value| ==> |r| == limit.value
    ensures parentLinks.Some? && (limit.None? || limit.value == 0) ==> r == parentLinks.value
  {
    if limit.Some? && limit.value != 0 && parentLinks.Some? then SliceTo(parentLinks.value, limit.value)
    else parentLinks.GetOr([])
  }

  /** The links `me` returns: the views of the newest `|limit|` own links. */
  lemma MeLinks(creatorId: string, creatorName: Option<string>, rows: seq<Stats.CreatorStats>,
                links: seq<Links.AffiliateLink>, linkStats: map<string, Links.LinkStat>,
                limitArg: Option<int>, baseUrlEnv: string)
    requires creatorId != ""
    ensures var top := Limit(NewestFirst(OwnedLinks(links, creatorId)), LinkLimit(limitArg));
            var views := Me(creatorId, creatorName, rows, links, linkStats, limitArg, baseUrlEnv).value.links;
            |views| == |top|
            && forall i :: 0 <= i < |top| ==> views[i] == LinkViewOf(top[i], linkStats, OrString(baseUrlEnv, DefaultBaseUrl))
  {
  }

  /** Asking `me { links(limit: n) }` for a positive `n` shows the
      creator's `n` newest links (at most ten, the `me` default). */
  lemma FieldLimitShowsNewest(creatorId: string, creatorName: Option<string>, rows: seq<Stats.CreatorStats>,
                              links: seq<Links.AffiliateLink>, linkStats: map<string, Links.LinkStat>,
                              baseUrlEnv: string, n: int)
    requires creatorId != "" && n > 0
    ensures var shown := Window(NewestFirst(OwnedLinks(links, creatorId)), 0, if n < DefaultLinkLimit then n else DefaultLinkLimit);
            var r := CreatorLinks(Some(Me(creatorId, creatorName, rows, links, linkStats, None, baseUrlEnv).value.links), Some(n));
            |r| == |shown| && forall i :: 0 <= i < |r| ==> r[i] == LinkViewOf(shown[i], linkStats, OrString(baseUrlEnv, DefaultBaseUrl))
  {
    var newest := NewestFirst(OwnedLinks(links, creatorId));
    var top := Window(newest, 0, DefaultLinkLimit);
    var shown := Window(newest, 0, if n < DefaultLinkLimit then n else DefaultLinkLimit);
    var baseUrl := OrString(baseUrlEnv, DefaultBaseUrl);
    var all := Me(creatorId, creatorName, rows, links, linkStats, None, baseUrlEnv).value.links;
    MeLinks(creatorId, creatorName, rows, links, linkStats, None, baseUrlEnv);
    assert Limit(newest, LinkLimit(None)) == top;
    var r := CreatorLinks(Some(all), Some(n));
    assert r == SliceTo(all, n);
    WindowLength(newest, 0, DefaultLinkLimit);
    WindowLength(newest, 0, if n < DefaultLinkLimit then n else DefaultLinkLimit);
    assert |r| == |shown|;
    forall i | 0 <= i < |r|
      ensures r[i] == LinkViewOf(shown[i], linkStats, baseUrl)
    {
      assert r[i] == all[i];
      assert top[i] == newest[i] == shown[i];
    }
  }
}
