/** The link routes: the domain allow-list, `POST /create` with its
    bounded search for a free short code, and `POST /rescrape`, which
    refills missing product metadata. */
module LinkRoute {
  import opened Wrappers
  import opened Js
  import opened AffiliateLinkModel
  import ShortCode

  const AllowedDomains: seq<string> := ["lifestylestores.com", "myntra.com"]
  const TrackingDomain: string := "tjzuh.com"
  const MaxAttempts: nat := 5
  const CodeLength: int := 6

  const OriginalUrlRequired: string := "originalUrl is required"
  const Unauthorized: string := "Unauthorized"
  const UnsupportedDomain: string := "Unsupported domain. Only lifestylestores.com, myntra.com are allowed."
  const BaseUrlMissing: string := "Server misconfiguration: BASE_URL missing"
  const BaseLinkFailed: string := "Failed to generate Admitad tracking link. "
  const TrackingCheckFailed: string := "Admitad tracking URL validation failed"
  const NoUniqueCode: string := "Could not generate a unique short code after 5 attempts. Please retry."
  const ServerError: string := "Server error"

  /** `isAllowedDomain(url)`, given the hostname `new URL(url)` yields
      (`None` when the URL does not parse, which answers false). */
  predicate IsAllowedDomain(hostname: Option<string>) {
    hostname.Some? && exists k :: 0 <= k < |AllowedDomains| && Includes(hostname.value, AllowedDomains[k])
  }

  /** The test is on substrings, not on domain boundaries: a hostname that
      merely contains an allowed domain passes. */
  lemma AllowedDomainExamples()
    ensures IsAllowedDomain(Some("www.myntra.com"))
    ensures IsAllowedDomain(Some("myntra.com.example.org"))
    ensures !IsAllowedDomain(None)
  {
    assert OccursAt("www.myntra.com", "myntra.com", 4);
    assert Includes("www.myntra.com", AllowedDomains[1]);
    assert OccursAt("myntra.com.example.org", "myntra.com", 0);
    assert Includes("myntra.com.example.org", AllowedDomains[1]);
  }

  /** What `AffiliateLink.create` does in one attempt. `DuplicateKey` is
      the 11000 error of a concurrent insert of the same code. */
  datatype CreateFault = NoFault | DuplicateKey | OtherDbError

  /** `scrapeOG(originalUrl)` when it does not throw. */
  datatype OgData = OgData(productTitle: string, productImage: string)

  /** Everything `/create` reads besides the link collection.  The foreign
      calls are parameters: `host` is the hostname of `originalUrl`,
      `draws(k)` the random draws of the `k`-th `generateShortCode(6)`,
      `baseLink` is `admitadService.generateBaseLink(originalUrl, ·)`
      (`Failure` carries the message it throws), `finalUrl` is
      `buildAffiliateUrl` on that link and the code (`""` when falsy),
      `og` is `scrapeOG(originalUrl)` (`None` when it throws) and
      `fault(k)` is the outcome of the `k`-th insert. */
  datatype LinkRequest = LinkRequest(
    originalUrl: string,
    creatorId: string,
    host: Option<string>,
    baseUrl: string,
    draws: nat -> (nat -> ShortCode.CharIndex),
    baseLink: string -> Result<string, string>,
    finalUrl: (string, string) -> string,
    og: Option<OgData>,
    fault: nat -> CreateFault,
    now: int)

  datatype CreateReply = Created(link: AffiliateLink) | Refused(status: int, error: string)

  /** The code tried in attempt `k`. */
  function CodeAt(r: LinkRequest, k: nat): string {
    ShortCode.Code(CodeLength, r.draws(k))
  }

  /** The document `/create` inserts for a fresh code. */
  function NewLink(r: LinkRequest, code: string, affiliateUrl: string): (l: AffiliateLink)
    ensures l.shortCode == code && l.creatorId == r.creatorId && l.originalUrl == r.originalUrl
    ensures l.affiliateUrl == affiliateUrl && l.publicUrl == r.baseUrl + "/share/" + code
    ensures l.platform == DefaultPlatform && l.clickCount == 0.0 && l.isActive && l.expiresAt.None?
  {
    var title := if r.og.Some? then OrString(r.og.value.productTitle, "") else "";
    var image := if r.og.Some? then OrString(r.og.value.productImage, "") else "";
    AffiliateLink(code, r.creatorId, r.originalUrl, affiliateUrl, r.baseUrl + "/share/" + code,
                  DefaultPlatform, title, image, 0.0, true, None, r.now)
  }

  /** Attempts `k` .. 4 of the loop, none of the earlier ones having
      created a link. */
  function Attempt(links: seq<AffiliateLink>, r: LinkRequest, k: nat): (seq<AffiliateLink>, CreateReply)
    decreases MaxAttempts - k
  {
    if k >= MaxAttempts then (links, Refused(500, NoUniqueCode))
    else
      var code := CodeAt(r, k);
      if FindLink(links, code).Some? then Attempt(links, r, k + 1)
      else match r.baseLink(code)
        case Failure(m) => (links, Refused(500, BaseLinkFailed + m))
        case Success(aff) =>
          var final := r.finalUrl(aff, code);
          if !Includes(final, TrackingDomain) then (links, Refused(500, TrackingCheckFailed))
          else match r.fault(k)
            case DuplicateKey => Attempt(links, r, k + 1)
            case OtherDbError => (links, Refused(500, ServerError))
            case NoFault =>
              var l := NewLink(r, code, final);
              (links + [l], Created(l))
  }

  /** One attempt, case by case. */
  lemma AttemptStep(links: seq<AffiliateLink>, r: LinkRequest, k: nat)
    requires k < MaxAttempts
    ensures var code := CodeAt(r, k);
      && (FindLink(links, code).Some? ==> Attempt(links, r, k) == Attempt(links, r, k + 1))
      && (FindLink(links, code).None? && r.baseLink(code).Failure? ==>
            Attempt(links, r, k) == (links, Refused(500, BaseLinkFailed + r.baseLink(code).error)))
      && (FindLink(links, code).None? && r.baseLink(code).Success? ==>
            var final := r.finalUrl(r.baseLink(code).value, code);
            && (!Includes(final, TrackingDomain) ==> Attempt(links, r, k) == (links, Refused(500, TrackingCheckFailed)))
            && (Includes(final, TrackingDomain) && r.fault(k).DuplicateKey? ==> Attempt(links, r, k) == Attempt(links, r, k + 1))
            && (Includes(final, TrackingDomain) && r.fault(k).OtherDbError? ==> Attempt(links, r, k) == (links, Refused(500, ServerError)))
            && (Includes(final, TrackingDomain) && r.fault(k).NoFault? ==>
                  Attempt(links, r, k) == (links + [NewLink(r, code, final)], Created(NewLink(r, code, final)))))
  {
  }

  /** `POST /create`: the input checks in order, then the attempts. */
  function CreateLinkSpec(links: seq<AffiliateLink>, r: LinkRequest): (seq<AffiliateLink>, CreateReply) {
    if r.originalUrl == "" then (links, Refused(400, OriginalUrlRequired))
    else if r.creatorId == "" then (links, Refused(401, Unauthorized))
    else if !IsAllowedDomain(r.host) then (links, Refused(400, UnsupportedDomain))
    else if r.baseUrl == "" then (links, Refused(500, BaseUrlMissing))
    else Attempt(links, r, 0)
  }

  /** Only a created link is written, and it is appended: a refusal
      leaves the collection as it was.  The created link has a fresh
      code of the generator's shape tried in one of the five attempts,
      the `/share/` public URL, a tracking URL on the Admitad domain,
      no clicks, is active and never expires. */
  lemma {:induction false} AttemptFacts(links: seq<AffiliateLink>, r: LinkRequest, k: nat)
    ensures var (after, reply) := Attempt(links, r, k);
      && (reply.Refused? ==> after == links && reply.status == 500)
      && (reply.Created? ==>
            && after == links + [reply.link]
            && FindLink(links, reply.link.shortCode).None?
            && (exists j :: k <= j < MaxAttempts && reply.link.shortCode == CodeAt(r, j))
            && reply.link.publicUrl == r.baseUrl + "/share/" + reply.link.shortCode
            && Includes(reply.link.affiliateUrl, TrackingDomain)
            && reply.link.creatorId == r.creatorId && reply.link.originalUrl == r.originalUrl
            && reply.link.platform == DefaultPlatform
            && reply.link.clickCount == 0.0 && reply.link.isActive && reply.link.expiresAt.None?)
    decreases MaxAttempts - k
  {
    if k < MaxAttempts {
      var code := CodeAt(r, k);
      AttemptStep(links, r, k);
      if FindLink(links, code).Some? {
        AttemptFacts(links, r, k + 1);
      } else if r.baseLink(code).Success? && Includes(r.finalUrl(r.baseLink(code).value, code), TrackingDomain)
                && r.fault(k).DuplicateKey? {
        AttemptFacts(links, r, k + 1);
      }
    }
  }

  /** The checks come in the route's order: a missing URL is 400 even
      without a creator, a missing creator is 401 before the domain test,
      and a bad domain is 400 before the `BASE_URL` test. */
  lemma CheckOrder(links: seq<AffiliateLink>, r: LinkRequest)
    ensures r.originalUrl == "" ==> CreateLinkSpec(links, r).1 == Refused(400, OriginalUrlRequired)
    ensures r.originalUrl != "" && r.creatorId == "" ==> CreateLinkSpec(links, r).1 == Refused(401, Unauthorized)
    ensures r.originalUrl != "" && r.creatorId != "" && !IsAllowedDomain(r.host) ==>
              CreateLinkSpec(links, r).1 == Refused(400, UnsupportedDomain)
    ensures r.originalUrl != "" && r.creatorId != "" && IsAllowedDomain(r.host) && r.baseUrl == "" ==>
              CreateLinkSpec(links, r) == (links, Refused(500, BaseUrlMissing))
    ensures CreateLinkSpec(links, r).1.Created? ==>
              r.originalUrl != "" && r.creatorId != "" && IsAllowedDomain(r.host) && r.baseUrl != ""
  {
  }

  /** When all five codes drawn are taken, the route gives up with 500
      and writes nothing. */
  lemma AllTakenGivesUp(links: seq<AffiliateLink>, r: LinkRequest)
    requires r.originalUrl != "" && r.creatorId != "" && IsAllowedDomain(r.host) && r.baseUrl != ""
    requires forall k :: 0 <= k < MaxAttempts ==> FindLink(links, CodeAt(r, k)).Some?
    ensures CreateLinkSpec(links, r) == (links, Refused(500, NoUniqueCode))
  {
    assert FindLink(links, CodeAt(r, 4)).Some?;
    assert FindLink(links, CodeAt(r, 3)).Some?;
    assert FindLink(links, CodeAt(r, 2)).Some?;
    assert FindLink(links, CodeAt(r, 1)).Some?;
    assert FindLink(links, CodeAt(r, 0)).Some?;
  }

  /** A created link passes validation and keeps the codes unique. */
  lemma CreateKeepsWellFormed(links: seq<AffiliateLink>, r: LinkRequest)
    requires WellFormed(links)
    ensures WellFormed(CreateLinkSpec(links, r).0)
  {
    if r.originalUrl != "" && r.creatorId != "" && IsAllowedDomain(r.host) && r.baseUrl != "" {
      AttemptFacts(links, r, 0);
      var (after, reply) := Attempt(links, r, 0);
      if reply.Created? {
        var l := reply.link;
        var j :| 0 <= j < MaxAttempts && l.shortCode == CodeAt(r, j);
        ShortCode.CodeShape(CodeLength, r.draws(j));
        var i :| OccursAt(l.affiliateUrl, TrackingDomain, i);
        assert Admissible(l);
      }
    }
  }

  /** One pass of the short-code loop: `retry` when the code was taken
      or the insert hit a duplicate key, otherwise the attempt's reply. */
  method TryCode(store: LinkStore, r: LinkRequest, k: nat) returns (retry: bool, reply: CreateReply)
    requires k < MaxAttempts
    modifies store
    ensures retry ==> store.links == old(store.links) && Attempt(old(store.links), r, k) == Attempt(old(store.links), r, k + 1)
    ensures !retry ==> (store.links, reply) == Attempt(old(store.links), r, k)
  {
    reply := Refused(500, NoUniqueCode);
    var code := ShortCode.GenerateShortCode(Some(CodeLength), r.draws(k));
    assert code == CodeAt(r, k);
    if FindLink(store.links, code).Some? {
      return true, reply;
    }
    var base := r.baseLink(code);
    if base.Failure? {
      return false, Refused(500, BaseLinkFailed + base.error);
    }
    var final := r.finalUrl(base.value, code);
    if !Includes(final, TrackingDomain) {
      return false, Refused(500, TrackingCheckFailed);
    }
    var link := NewLink(r, code, final);
    match r.fault(k) {
      case DuplicateKey =>
        return true, reply;
      case OtherDbError =>
        return false, Refused(500, ServerError);
      case NoFault =>
        store.links := store.links + [link];
        return false, Created(link);
    }
  }

  /** The short-code loop of `POST /create`: at most five attempts,
      stopping at the first created link or refusal. */
  method TryCodes(store: LinkStore, r: LinkRequest) returns (reply: CreateReply)
    modifies store
    ensures (store.links, reply) == Attempt(old(store.links), r, 0)
  {
    var created: Option<AffiliateLink> := None;
    var attempts := 0;
    while created.None? && attempts < MaxAttempts
      invariant 0 <= attempts <= MaxAttempts
      invariant created.None? ==> store.links == old(store.links)
      invariant created.None? ==> Attempt(old(store.links), r, attempts) == Attempt(old(store.links), r, 0)
      invariant created.Some? ==> (store.links, Created(created.value)) == Attempt(old(store.links), r, 0)
      decreases MaxAttempts - attempts
    {
      attempts := attempts + 1;
      var retry, outcome := TryCode(store, r, attempts - 1);
      if !retry {
        if outcome.Refused? {
          return outcome;
        }
        created := Some(outcome.link);
      }
    }
    if created.None? {
      return Refused(500, NoUniqueCode);
    }
    return Created(created.value);
  }

  /** `POST /create`. */
  method CreateLink(store: LinkStore, r: LinkRequest) returns (reply: CreateReply)
    requires store.Valid()
    modifies store
    ensures store.Valid()
    ensures (store.links, reply) == CreateLinkSpec(old(store.links), r)
  {
    CreateKeepsWellFormed(store.links, r);
    if r.originalUrl == "" {
      return Refused(400, OriginalUrlRequired);
    }
    if r.creatorId == "" {
      return Refused(401, Unauthorized);
    }
    if !IsAllowedDomain(r.host) {
      return Refused(400, UnsupportedDomain);
    }
    if r.baseUrl == "" {
      return Refused(500, BaseUrlMissing);
    }
    reply := TryCodes(store, r);
  }

  /** The rescrape query: the creator's links with no product image
      (absent, null and "" alike). */
  predicate IsCandidate(l: AffiliateLink, creatorId: string) {
    l.creatorId == creatorId && l.productImage == ""
  }

  /** The positions of the candidates among the first `n` links, in
      collection order. */
  function Candidates(links: seq<AffiliateLink>, creatorId: string, n: nat): (c: seq<nat>)
    requires n <= |links|
    ensures forall p :: 0 <= p < |c| ==> c[p] < n && IsCandidate(links[c[p]], creatorId)
    ensures forall p, q :: 0 <= p < q < |c| ==> c[p] < c[q]
    ensures forall i :: 0 <= i < n && IsCandidate(links[i], creatorId) ==> i in c
  {
    if n == 0 then []
    else Candidates(links, creatorId, n - 1) + (if IsCandidate(links[n - 1], creatorId) then [n - 1] else [])
  }

  /** A scrape result worth writing: it has an image or a title. */
  predicate Useful(og: Option<OgData>) {
    og.Some? && (og.value.productImage != "" || og.value.productTitle != "")
  }

  /** The `$set` of one rescraped link: a scraped value wins when it is
      non-empty, otherwise the stored value stays. */
  function Merge(l: AffiliateLink, og: OgData): (m: AffiliateLink)
    ensures m == l.(productImage := m.productImage, productTitle := m.productTitle)
    ensures m.productImage == (if og.productImage != "" then og.productImage else l.productImage)
    ensures m.productTitle == (if og.productTitle != "" then og.productTitle else l.productTitle)
  {
    l.(productImage := OrString(og.productImage, OrString(l.productImage, "")),
       productTitle := OrString(og.productTitle, OrString(l.productTitle, "")))
  }

  /** The collection after the first `p` candidates were handled;
      `outcome(q)` is what handling candidate `q` got from `scrapeOG`
      (`None` when the scrape or the update threw). */
  function Rescraped(links: seq<AffiliateLink>, cands: seq<nat>, outcome: nat -> Option<OgData>, p: nat): (r: seq<AffiliateLink>)
    requires p <= |cands|
    requires forall q :: 0 <= q < |cands| ==> cands[q] < |links|
    ensures |r| == |links|
  {
    if p == 0 then links
    else
      var prev := Rescraped(links, cands, outcome, p - 1);
      var i := cands[p - 1];
      if Useful(outcome(p - 1)) then prev[i := Merge(prev[i], outcome(p - 1).value)] else prev
  }

  /** How many of the first `p` candidates were updated. */
  function UpdatedCount(outcome: nat -> Option<OgData>, p: nat): (n: nat)
    ensures n <= p
  {
    if p == 0 then 0 else UpdatedCount(outcome, p - 1) + (if Useful(outcome(p - 1)) then 1 else 0)
  }

  /** Handling candidates touches only candidates: each handled one is
      merged once with its scrape result if that was useful, and every
      other link is as it was. */
  lemma RescrapedEffect(links: seq<AffiliateLink>, cands: seq<nat>, outcome: nat -> Option<OgData>, p: nat)
    requires p <= |cands|
    requires forall q :: 0 <= q < |cands| ==> cands[q] < |links|
    requires forall q, q' :: 0 <= q < q' < |cands| ==> cands[q] < cands[q']
    ensures forall i :: 0 <= i < |links| && (forall q :: 0 <= q < p ==> cands[q] != i) ==>
              Rescraped(links, cands, outcome, p)[i] == links[i]
    ensures forall q :: 0 <= q < p ==>
              Rescraped(links, cands, outcome, p)[cands[q]]
              == if Useful(outcome(q)) then Merge(links[cands[q]], outcome(q).value) else links[cands[q]]
  {
    forall i | 0 <= i < |links| && (forall q :: 0 <= q < p ==> cands[q] != i)
      ensures Rescraped(links, cands, outcome, p)[i] == links[i]
    {
      RescrapedUntouched(links, cands, outcome, p, i);
    }
    forall q | 0 <= q < p
      ensures Rescraped(links, cands, outcome, p)[cands[q]]
              == if Useful(outcome(q)) then Merge(links[cands[q]], outcome(q).value) else links[cands[q]]
    {
      RescrapedHandled(links, cands, outcome, p, q);
    }
  }

  /** A link no handled candidate points at is untouched. */
  lemma {:induction false} RescrapedUntouched(links: seq<AffiliateLink>, cands: seq<nat>, outcome: nat -> Option<OgData>, p: nat, i: nat)
    requires p <= |cands| && i < |links|
    requires forall q :: 0 <= q < |cands| ==> cands[q] < |links|
    requires forall q :: 0 <= q < p ==> cands[q] != i
    ensures Rescraped(links, cands, outcome, p)[i] == links[i]
  {
    if p > 0 {
      RescrapedUntouched(links, cands, outcome, p - 1, i);
      assert cands[p - 1] != i;
    }
  }

  /** Handled candidate `q` is merged once with its scrape, if useful. */
  lemma {:induction false} RescrapedHandled(links: seq<AffiliateLink>, cands: seq<nat>, outcome: nat -> Option<OgData>, p: nat, q: nat)
    requires q < p <= |cands|
    requires forall q :: 0 <= q < |cands| ==> cands[q] < |links|
    requires forall q, q' :: 0 <= q < q' < |cands| ==> cands[q] < cands[q']
    ensures Rescraped(links, cands, outcome, p)[cands[q]]
            == if Useful(outcome(q)) then Merge(links[cands[q]], outcome(q).value) else links[cands[q]]
  {
    var k := cands[p - 1];
    var prev := Rescraped(links, cands, outcome, p - 1);
    var r := Rescraped(links, cands, outcome, p);
    assert r == if Useful(outcome(p - 1)) then prev[k := Merge(prev[k], outcome(p - 1).value)] else prev;
    if q == p - 1 {
      RescrapedUntouched(links, cands, outcome, p - 1, k);
    } else {
      RescrapedHandled(links, cands, outcome, p - 1, q);
      assert cands[q] < k;
    }
  }

  datatype RescrapeReply =
    | RescrapeUnauthorized
    | AllHaveImages
    | RescrapeDone(updated: nat, total: nat)

  /** `POST /rescrape`. */
  function RescrapeSpec(links: seq<AffiliateLink>, creatorId: string, outcome: nat -> Option<OgData>): (seq<AffiliateLink>, RescrapeReply) {
    if creatorId == "" then (links, RescrapeUnauthorized)
    else
      var cands := Candidates(links, creatorId, |links|);
      if |cands| == 0 then (links, AllHaveImages)
      else (Rescraped(links, cands, outcome, |cands|), RescrapeDone(UpdatedCount(outcome, |cands|), |cands|))
  }

  /** What a rescrape promises: `updated <= total`, `total` is the number
      of the creator's links without an image, only those links change
      and only in their image and title, a non-empty scraped value
      replaces the stored one and an empty one keeps it, and afterwards a
      link whose scrape brought an image is no longer a candidate. */
  lemma RescrapeFacts(links: seq<AffiliateLink>, creatorId: string, outcome: nat -> Option<OgData>)
    ensures var (after, reply) := RescrapeSpec(links, creatorId, outcome);
      && |after| == |links|
      && (reply.RescrapeDone? ==> reply.updated <= reply.total && reply.total == |Candidates(links, creatorId, |links|)|)
      && (reply.RescrapeDone? <==> creatorId != "" && exists i :: 0 <= i < |links| && IsCandidate(links[i], creatorId))
      && (forall i :: 0 <= i < |links| && !IsCandidate(links[i], creatorId) ==> after[i] == links[i])
      && (forall i :: 0 <= i < |links| ==>
            after[i] == links[i].(productImage := after[i].productImage, productTitle := after[i].productTitle))
      && (forall q :: 0 <= q < |Candidates(links, creatorId, |links|)| && creatorId != "" ==>
            var i := Candidates(links, creatorId, |links|)[q];
            && (outcome(q).Some? && outcome(q).value.productImage != "" ==> !IsCandidate(after[i], creatorId))
            && (!Useful(outcome(q)) ==> after[i] == links[i]))
  {
    if creatorId != "" {
      var cands := Candidates(links, creatorId, |links|);
      if |cands| > 0 {
        CandidatesNonEmpty(links, creatorId, cands);
        RescrapedFacts(links, creatorId, cands, outcome);
      } else {
        assert forall i :: 0 <= i < |links| && IsCandidate(links[i], creatorId) ==> i in cands;
      }
    }
  }

  /** A non-empty candidate list names a candidate link. */
  lemma CandidatesNonEmpty(links: seq<AffiliateLink>, creatorId: string, cands: seq<nat>)
    requires cands == Candidates(links, creatorId, |links|) && |cands| > 0
    ensures exists i :: 0 <= i < |links| && IsCandidate(links[i], creatorId)
  {
    assert IsCandidate(links[cands[0]], creatorId);
  }

  /** The effect of rescraping every candidate, link by link. */
  lemma RescrapedFacts(links: seq<AffiliateLink>, creatorId: string, cands: seq<nat>, outcome: nat -> Option<OgData>)
    requires cands == Candidates(links, creatorId, |links|)
    ensures var after := Rescraped(links, cands, outcome, |cands|);
      && (forall i :: 0 <= i < |links| && !IsCandidate(links[i], creatorId) ==> after[i] == links[i])
      && (forall i :: 0 <= i < |links| ==>
            after[i] == links[i].(productImage := after[i].productImage, productTitle := after[i].productTitle))
      && (forall q :: 0 <= q < |cands| ==>
            && (outcome(q).Some? && outcome(q).value.productImage != "" ==> !IsCandidate(after[cands[q]], creatorId))
            && (!Useful(outcome(q)) ==> after[cands[q]] == links[cands[q]]))
  {
    forall i | 0 <= i < |links|
      ensures var after := Rescraped(links, cands, outcome, |cands|);
              && (!IsCandidate(links[i], creatorId) ==> after[i] == links[i])
              && after[i] == links[i].(productImage := after[i].productImage, productTitle := after[i].productTitle)
    {
      RescrapedAt(links, creatorId, cands, outcome, i);
    }
    forall q | 0 <= q < |cands|
      ensures var after := Rescraped(links, cands, outcome, |cands|);
              && (outcome(q).Some? && outcome(q).value.productImage != "" ==> !IsCandidate(after[cands[q]], creatorId))
              && (!Useful(outcome(q)) ==> after[cands[q]] == links[cands[q]])
    {
      RescrapedCandidate(links, creatorId, cands, outcome, q);
    }
  }

  /** One link after a rescrape: a non-candidate is unchanged, and any
      link differs at most in its image and title. */
  lemma RescrapedAt(links: seq<AffiliateLink>, creatorId: string, cands: seq<nat>, outcome: nat -> Option<OgData>, i: nat)
    requires cands == Candidates(links, creatorId, |links|) && i < |links|
    ensures var after := Rescraped(links, cands, outcome, |cands|);
            && (!IsCandidate(links[i], creatorId) ==> after[i] == links[i])
            && after[i] == links[i].(productImage := after[i].productImage, productTitle := after[i].productTitle)
  {
    RescrapedEffect(links, cands, outcome, |cands|);
    var after := Rescraped(links, cands, outcome, |cands|);
    if i in cands {
      var q :| 0 <= q < |cands| && cands[q] == i;
      assert after[cands[q]] == if Useful(outcome(q)) then Merge(links[cands[q]], outcome(q).value) else links[cands[q]];
    } else {
      assert after[i] == links[i];
    }
  }

  /** One candidate after a rescrape: a scraped image takes it out of
      the candidates, and a useless scrape leaves it alone. */
  lemma RescrapedCandidate(links: seq<AffiliateLink>, creatorId: string, cands: seq<nat>, outcome: nat -> Option<OgData>, q: nat)
    requires cands == Candidates(links, creatorId, |links|) && q < |cands|
    ensures var after := Rescraped(links, cands, outcome, |cands|);
            && (outcome(q).Some? && outcome(q).value.productImage != "" ==> !IsCandidate(after[cands[q]], creatorId))
            && (!Useful(outcome(q)) ==> after[cands[q]] == links[cands[q]])
  {
    RescrapedEffect(links, cands, outcome, |cands|);
    var after := Rescraped(links, cands, outcome, |cands|);
    assert after[cands[q]] == if Useful(outcome(q)) then Merge(links[cands[q]], outcome(q).value) else links[cands[q]];
  }

  /** Rescraping only rewrites images and titles, so the collection stays
      valid. */
  lemma RescrapeKeepsWellFormed(links: seq<AffiliateLink>, creatorId: string, outcome: nat -> Option<OgData>)
    requires WellFormed(links)
    ensures WellFormed(RescrapeSpec(links, creatorId, outcome).0)
  {
    RescrapeFacts(links, creatorId, outcome);
    var after := RescrapeSpec(links, creatorId, outcome).0;
    assert forall i :: 0 <= i < |links| ==> after[i].shortCode == links[i].shortCode;
  }

  function Min(a: int, b: int): int {
    if a < b then a else b
  }

  /** The batch loop of `POST /rescrape`: candidates five at a time,
      each updated when its scrape was useful. */
  method RescrapeBatches(store: LinkStore, cands: seq<nat>, outcome: nat -> Option<OgData>) returns (updated: nat)
    requires forall q :: 0 <= q < |cands| ==> cands[q] < |store.links|
    modifies store
    ensures store.links == Rescraped(old(store.links), cands, outcome, |cands|)
    ensures updated == UpdatedCount(outcome, |cands|)
  {
    ghost var links0 := store.links;
    updated := 0;
    var i := 0;
    while i < |cands|
      invariant 0 <= i <= |cands|
      invariant store.links == Rescraped(links0, cands, outcome, i)
      invariant updated == UpdatedCount(outcome, i)
    {
      var j := i;
      var end := Min(i + 5, |cands|);
      while j < end
        invariant i <= j <= end
        invariant store.links == Rescraped(links0, cands, outcome, j)
        invariant updated == UpdatedCount(outcome, j)
      {
        var og := outcome(j);
        if Useful(og) {
          var k := cands[j];
          store.links := store.links[k := Merge(store.links[k], og.value)];
          updated := updated + 1;
        }
        j := j + 1;
      }
      i := end;
    }
  }

  /** `POST /rescrape`, in batches of five.  The updates of one batch run
      concurrently on distinct documents; they are taken one by one here. */
  method Rescrape(store: LinkStore, creatorId: string, outcome: nat -> Option<OgData>) returns (reply: RescrapeReply)
    requires store.Valid()
    modifies store
    ensures store.Valid()
    ensures (store.links, reply) == RescrapeSpec(old(store.links), creatorId, outcome)
  {
    RescrapeKeepsWellFormed(store.links, creatorId, outcome);
    if creatorId == "" {
      return RescrapeUnauthorized;
    }
    var cands := Candidates(store.links, creatorId, |store.links|);
    if |cands| == 0 {
      return AllHaveImages;
    }
    var updated := RescrapeBatches(store, cands, outcome);
    return RescrapeDone(updated, |cands|);
  }
}
