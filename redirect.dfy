/** `GET /share/:shortCode`: the redirect decision chain, and the
    fire-and-forget `trackClick` that logs the click and bumps three
    counters. */
module Redirect {
  import opened Wrappers
  import opened Js
  import opened AffiliateLinkModel
  import opened CreatorStatsModel
  import opened Fraud

  datatype Response =
    | Send(status: int, body: string)
    | RedirectTo(status: int, url: string)

  /** A link is past its expiry when `expiresAt` is set and earlier than
      now; the default `null` never expires. */
  predicate Expired(l: AffiliateLink, now: int) {
    l.expiresAt.Some? && l.expiresAt.value < now
  }

  /** The check chain of the route, on the link `findOne` returned. */
  function Decide(link: Option<AffiliateLink>, now: int): (r: Response)
    ensures r.RedirectTo? <==>
              link.Some? && link.value.isActive && !Expired(link.value, now) && StartsWith(link.value.affiliateUrl, "http")
    ensures r.RedirectTo? ==> r.status == 302 && r.url == link.value.affiliateUrl
    ensures r.Send? ==> r.status == 404 || r.status == 410
    ensures r.Send? && r.status == 410 <==> link.Some? && link.value.isActive && Expired(link.value, now)
  {
    if link.None? then Send(404, "Link not found or expired.")
    else if !link.value.isActive then Send(404, "This link has been disabled.")
    else if Expired(link.value, now) then Send(410, "This link has expired.")
    else if link.value.affiliateUrl == "" || !StartsWith(link.value.affiliateUrl, "http") then
      Send(404, "Tracking link unavailable.")
    else RedirectTo(302, link.value.affiliateUrl)
  }

  /** Disabling wins over expiry, a link without `expiresAt` is never
      gone, and the handler never redirects anywhere but `affiliateUrl`. */
  lemma DecisionOrder(l: AffiliateLink, now: int)
    ensures !l.isActive ==> Decide(Some(l), now) == Send(404, "This link has been disabled.")
    ensures l.expiresAt.None? ==> Decide(Some(l), now).status != 410
    ensures !StartsWith(l.affiliateUrl, "http") ==> !Decide(Some(l), now).RedirectTo?
    ensures Decide(Some(l), now).RedirectTo? ==> Decide(Some(l), now).url == l.affiliateUrl
  {
  }

  /** `req.headers["referer"] || req.headers["referrer"] || "direct"`. */
  function RefererOf(referer: string, referrer: string): (r: string)
    ensures r != ""
    ensures referer != "" ==> r == referer
    ensures referer == "" && referrer != "" ==> r == referrer
  {
    OrString(referer, OrString(referrer, "direct"))
  }

  /** The ClickEvent `trackClick` logs. */
  function ClickFor(link: AffiliateLink, ip: string, userAgent: string, referer: string, now: int, fraud: FraudResult): (e: ClickEvent)
    ensures e.shortCode == link.shortCode && e.creatorId == link.creatorId && e.ip == ip
    ensures e.isFraud == fraud.isFraud && e.fraudReason == fraud.reason
    ensures e.userAgent == (if userAgent == "" then "unknown" else userAgent)
    ensures e.referer == (if referer == "" then "direct" else referer)
    ensures e.createdAt == now
  {
    ClickEvent(link.shortCode, link.creatorId, ip, OrString(userAgent, "unknown"), OrString(referer, "direct"),
               fraud.isFraud, fraud.reason, now)
  }

  /** The three counters a genuine click increments. */
  datatype Target = LinkClickCount | CreatorTotalClicks | LinkStatsTotalClicks

  /** Where tracking fails, if anywhere: the fraud query, the ClickEvent
      insert, or some of the three counter updates run together by
      `Promise.all` (each update that fails leaves its own counter alone). */
  datatype TrackFault = NoFault | FraudCheckFault | LogFault | CounterFault(failed: set<Target>)

  /** The ClickEvent is written unless the fraud query or the insert fails. */
  predicate Logged(fault: TrackFault) {
    fault.NoFault? || fault.CounterFault?
  }

  /** Counter `t` is incremented: the click was logged, is not fraud, and
      that update did not fail. */
  predicate Bumped(fault: TrackFault, fraud: FraudResult, t: Target) {
    && Logged(fault)
    && !fraud.isFraud
    && (fault.CounterFault? ==> t !in fault.failed)
  }

  /** `AffiliateLink.updateOne({ shortCode }, { $inc: { clickCount: 1 } })`. */
  function BumpClickCount(links: seq<AffiliateLink>, shortCode: string): (r: seq<AffiliateLink>)
    ensures |r| == |links|
    ensures forall i :: 0 <= i < |links| ==>
              r[i] == (if Some(i) == FindLink(links, shortCode) then links[i].(clickCount := links[i].clickCount + 1.0) else links[i])
  {
    match FindLink(links, shortCode)
    case Some(i) => links[i := links[i].(clickCount := links[i].clickCount + 1.0)]
    case None => links
  }

  /** The click-count bump keeps the link collection well formed. */
  lemma BumpKeepsWellFormed(links: seq<AffiliateLink>, shortCode: string)
    requires WellFormed(links)
    ensures WellFormed(BumpClickCount(links, shortCode))
  {
    var r := BumpClickCount(links, shortCode);
    assert forall i :: 0 <= i < |links| ==> r[i].shortCode == links[i].shortCode && Admissible(r[i]);
  }

  /** The CreatorStats increment of a click. */
  const ClickInc: Inc := map[TotalClicks := 1.0]

  /** A click adds exactly one to `totalClicks` and touches no other
      counter, so it keeps the commission buckets balanced. */
  lemma ClickIncOnlyCountsClicks(s: CreatorStats, now: int)
    ensures var r := ApplyInc(s, ClickInc, now);
      && r.totalClicks == s.totalClicks + 1.0
      && r == s.(totalClicks := s.totalClicks + 1.0, lastUpdated := now)
    ensures Conserving(ClickInc)
  {
  }

  /** The four collections `trackClick` writes: the click log, the links,
      the creator stats and the per-link stats. */
  datatype Tracked = Tracked(events: seq<ClickEvent>, links: seq<AffiliateLink>, rows: seq<CreatorStats>,
                             linkStats: map<string, LinkStat>)

  /** What `trackClick` leaves in the four collections.  `fault` says
      where, if anywhere, it fails (the error is caught and logged). */
  function Track(s: Tracked, link: AffiliateLink, ip: string, userAgent: string, referer: string, now: int,
                 fault: TrackFault): (r: Tracked)
    ensures !Logged(fault) ==> r == s
    ensures Logged(fault) ==>
      && |r.events| == |s.events| + 1 && r.events[..|s.events|] == s.events
      && r.events[|s.events|].shortCode == link.shortCode
      && r.events[|s.events|].isFraud == CheckClickFraud(s.events, link.shortCode, ip, now).isFraud
    ensures CheckClickFraud(s.events, link.shortCode, ip, now).isFraud ==>
      r.links == s.links && r.rows == s.rows && r.linkStats == s.linkStats
    ensures fault.CounterFault? && LinkClickCount in fault.failed ==> r.links == s.links
    ensures fault.CounterFault? && CreatorTotalClicks in fault.failed ==> r.rows == s.rows
    ensures fault.CounterFault? && LinkStatsTotalClicks in fault.failed ==> r.linkStats == s.linkStats
    ensures fault.NoFault? && !CheckClickFraud(s.events, link.shortCode, ip, now).isFraud ==>
      && r.links == BumpClickCount(s.links, link.shortCode)
      && r.rows == Upsert(s.rows, link.creatorId, ClickInc, now)
      && r.linkStats == s.linkStats[link.shortCode := LinkStat(ClicksOf(s.linkStats, link.shortCode) + 1.0, now)]
  {
    var fraud := CheckClickFraud(s.events, link.shortCode, ip, now);
    Tracked(
      if Logged(fault) then s.events + [ClickFor(link, ip, userAgent, referer, now, fraud)] else s.events,
      if Bumped(fault, fraud, LinkClickCount) then BumpClickCount(s.links, link.shortCode) else s.links,
      if Bumped(fault, fraud, CreatorTotalClicks) then Upsert(s.rows, link.creatorId, ClickInc, now) else s.rows,
      if Bumped(fault, fraud, LinkStatsTotalClicks)
      then s.linkStats[link.shortCode := LinkStat(ClicksOf(s.linkStats, link.shortCode) + 1.0, now)]
      else s.linkStats)
  }

  /** `trackClick` on the stores. */
  method TrackClick(log: ClickLog, links: LinkStore, stats: StatsStore, linkStats: LinkStatsStore,
                    link: AffiliateLink, ip: string, userAgent: string, referer: string, now: int, fault: TrackFault)
    requires links.Valid() && stats.Valid()
    modifies log, links, stats, linkStats
    ensures links.Valid() && stats.Valid()
    ensures Tracked(log.events, links.links, stats.rows, linkStats.stats)
         == Track(old(Tracked(log.events, links.links, stats.rows, linkStats.stats)), link, ip, userAgent, referer, now, fault)
  {
    if fault.FraudCheckFault? {
      return;
    }
    var fraud := CheckClickFraud(log.events, link.shortCode, ip, now);
    if fault.LogFault? {
      return;
    }
    var bumpLink := Bumped(fault, fraud, LinkClickCount);
    var bumpCreator := Bumped(fault, fraud, CreatorTotalClicks);
    var bumpLinkStats := Bumped(fault, fraud, LinkStatsTotalClicks);
    log.Append(ClickFor(link, ip, userAgent, referer, now, fraud));
    if !fraud.isFraud {
      BumpCounters(links, stats, linkStats, link, now, bumpLink, bumpCreator, bumpLinkStats);
    }
  }

  /** The three counter updates of a non-fraud click, each done or
      skipped (a failed update changes nothing). */
  method BumpCounters(links: LinkStore, stats: StatsStore, linkStats: LinkStatsStore, link: AffiliateLink, now: int,
                      bumpLink: bool, bumpCreator: bool, bumpLinkStats: bool)
    requires links.Valid() && stats.Valid()
    modifies links, stats, linkStats
    ensures links.Valid() && stats.Valid()
    ensures links.links == (if bumpLink then BumpClickCount(old(links.links), link.shortCode) else old(links.links))
    ensures stats.rows == (if bumpCreator then Upsert(old(stats.rows), link.creatorId, ClickInc, now) else old(stats.rows))
    ensures linkStats.stats == (if bumpLinkStats
                                then old(linkStats.stats)[link.shortCode := LinkStat(old(linkStats.Clicks(link.shortCode)) + 1.0, now)]
                                else old(linkStats.stats))
  {
    if bumpLink {
      BumpKeepsWellFormed(links.links, link.shortCode);
      links.links := BumpClickCount(links.links, link.shortCode);
    }
    if bumpCreator {
      ClickIncOnlyCountsClicks(RowOf(stats.rows, link.creatorId, now), now);
      stats.UpdateOne(link.creatorId, ClickInc, now);
    }
    if bumpLinkStats {
      linkStats.AddClick(link.shortCode, now);
    }
  }

  /** The route handler: decide, track (whatever happens there), answer.
      `lookupFails` is a failing `findOne`, answered with 500. */
  method HandleRedirect(log: ClickLog, links: LinkStore, stats: StatsStore, linkStats: LinkStatsStore,
                        shortCode: string, ip: string, userAgent: string, referer: string, referrer: string,
                        now: int, lookupFails: bool, fault: TrackFault)
    returns (resp: Response)
    requires links.Valid() && stats.Valid()
    modifies log, links, stats, linkStats
    ensures links.Valid() && stats.Valid()
    ensures resp == (if lookupFails then Send(500, "Something went wrong. Please try again.")
                     else Decide(LookupLink(old(links.links), shortCode), now))
    ensures !resp.RedirectTo? ==> log.events == old(log.events) && links.links == old(links.links)
                                  && stats.rows == old(stats.rows) && linkStats.stats == old(linkStats.stats)
    ensures resp.RedirectTo? ==>
      Tracked(log.events, links.links, stats.rows, linkStats.stats)
      == Track(old(Tracked(log.events, links.links, stats.rows, linkStats.stats)), LookupLink(old(links.links), shortCode).value,
               ip, userAgent, RefererOf(referer, referrer), now, fault)
  {
    if lookupFails {
      return Send(500, "Something went wrong. Please try again.");
    }
    var link := LookupLink(links.links, shortCode);
    resp := Decide(link, now);
    if resp.RedirectTo? {
      TrackClick(log, links, stats, linkStats, link.value, ip, userAgent, RefererOf(referer, referrer), now, fault);
    }
  }
}
