/** The AffiliateLink collection, unique on `shortCode`, and the
    LinkStats collection (per-link click totals, also unique on
    `shortCode`). */
module AffiliateLinkModel {
  import opened Wrappers
  import opened Lookup

  datatype AffiliateLink = AffiliateLink(
    shortCode: string,
    creatorId: string,
    originalUrl: string,
    affiliateUrl: string,
    publicUrl: string,
    platform: string,
    productTitle: string,
    productImage: string,
    clickCount: real,
    isActive: bool,
    expiresAt: Option<int>,   // None is the schema default `null`: never expires
    createdAt: int)

  const DefaultPlatform: string := "admitad"

  /** Mongoose validation of a link: the required fields are present. */
  predicate Admissible(l: AffiliateLink) {
    l.shortCode != "" && l.creatorId != "" && l.originalUrl != "" && l.affiliateUrl != "" && l.publicUrl != ""
  }

  /** The unique index on `shortCode` plus validation of every document. */
  ghost predicate WellFormed(links: seq<AffiliateLink>) {
    && (forall i :: 0 <= i < |links| ==> Admissible(links[i]))
    && (forall i, j :: 0 <= i < j < |links| ==> links[i].shortCode != links[j].shortCode)
  }

  /** `AffiliateLink.findOne({ shortCode })`: the position of the link. */
  function FindLink(links: seq<AffiliateLink>, shortCode: string): (r: Option<nat>)
    ensures r.Some? ==> r.value < |links| && links[r.value].shortCode == shortCode
    ensures r.Some? ==> forall i :: 0 <= i < r.value ==> links[i].shortCode != shortCode
    ensures r.None? <==> forall i :: 0 <= i < |links| ==> links[i].shortCode != shortCode
  {
    IndexOf(links, (l: AffiliateLink) => l.shortCode, shortCode)
  }

  /** The link document itself, as `findOne(...).lean()` returns it. */
  function LookupLink(links: seq<AffiliateLink>, shortCode: string): Option<AffiliateLink> {
    match FindLink(links, shortCode)
    case Some(i) => Some(links[i])
    case None => None
  }

  class LinkStore {
    var links: seq<AffiliateLink>

    ghost predicate Valid()
      reads this
    {
      WellFormed(links)
    }

    constructor ()
      ensures Valid() && links == []
    {
      links := [];
    }
  }

  /** One LinkStats document. */
  datatype LinkStat = LinkStat(totalClicks: real, lastUpdated: int)

  /** The click total of a link in LinkStats, 0 when it has no document. */
  function ClicksOf(stats: map<string, LinkStat>, shortCode: string): (n: real)
    ensures shortCode !in stats ==> n == 0.0
  {
    if shortCode in stats then stats[shortCode].totalClicks else 0.0
  }

  /** LinkStats keyed by its unique `shortCode`. */
  class LinkStatsStore {
    var stats: map<string, LinkStat>

    constructor ()
      ensures stats == map[]
    {
      stats := map[];
    }

    /** The click total of a link, 0 when it has no LinkStats document. */
    function Clicks(shortCode: string): real
      reads this
    {
      ClicksOf(stats, shortCode)
    }

    /** `LinkStats.updateOne({ shortCode }, { $inc: { totalClicks: 1 }, $set: { lastUpdated } }, { upsert: true })`. */
    method AddClick(shortCode: string, now: int)
      modifies this
      ensures stats == old(stats)[shortCode := LinkStat(old(Clicks(shortCode)) + 1.0, now)]
      ensures stats.Keys == old(stats.Keys) + {shortCode}
      ensures stats[shortCode] == LinkStat(old(Clicks(shortCode)) + 1.0, now)
      ensures forall c :: c in old(stats) && c != shortCode ==> stats[c] == old(stats[c])
    {
      stats := stats[shortCode := LinkStat(Clicks(shortCode) + 1.0, now)];
    }
  }
}
