/** The ClickEvent log and `checkClickFraud`: two counts over the clicks
    of the last five minutes, compared against fixed thresholds. */
module Fraud {
  import opened Wrappers

  /** One ClickEvent document; `createdAt` is its creation timestamp. */
  datatype ClickEvent = ClickEvent(
    shortCode: string,
    creatorId: string,
    ip: string,
    userAgent: string,
    referer: string,
    isFraud: bool,
    fraudReason: Option<string>,
    createdAt: int)

  /** The append-only ClickEvent collection. */
  class ClickLog {
    var events: seq<ClickEvent>

    constructor ()
      ensures events == []
    {
      events := [];
    }

    /** `ClickEvent.create(...)`. */
    method Append(e: ClickEvent)
      modifies this
      ensures events == old(events) + [e]
    {
      events := events + [e];
    }
  }

  const WindowMs: int := 5 * 60 * 1000
  const IpLimit: nat := 20
  const CodeLimit: nat := 200
  const IpReason: string := "Too many clicks from same IP"
  const SpikeReason: string := "Suspicious click spike"

  datatype FraudResult = FraudResult(isFraud: bool, reason: Option<string>)

  /** What a `countDocuments` query filters on besides the window. */
  datatype Key = ByIp(ip: string) | ByCode(shortCode: string)

  /** A click the query for `key` counts at time `now`: the key matches
      and the click is no older than five minutes. */
  predicate Counted(c: ClickEvent, key: Key, now: int) {
    && (match key
        case ByIp(ip) => c.ip == ip
        case ByCode(code) => c.shortCode == code)
    && c.createdAt >= now - WindowMs
  }

  /** `ClickEvent.countDocuments({ <key>, createdAt: { $gte: now - 5 min } })`. */
  function CountClicks(log: seq<ClickEvent>, key: Key, now: int): (n: nat)
    ensures n <= |log|
  {
    if |log| == 0 then 0
    else (if Counted(log[0], key, now) then 1 else 0) + CountClicks(log[1..], key, now)
  }

  /** `checkClickFraud({ shortCode, ip })` at time `now`. */
  function CheckClickFraud(log: seq<ClickEvent>, shortCode: string, ip: string, now: int): (r: FraudResult)
    ensures r.isFraud <==> CountClicks(log, ByIp(ip), now) > IpLimit || CountClicks(log, ByCode(shortCode), now) > CodeLimit
    ensures r.reason == Some(IpReason) <==> CountClicks(log, ByIp(ip), now) > IpLimit
    ensures r.reason == Some(SpikeReason) <==>
              CountClicks(log, ByIp(ip), now) <= IpLimit && CountClicks(log, ByCode(shortCode), now) > CodeLimit
    ensures !r.isFraud <==> r.reason.None?
  {
    if CountClicks(log, ByIp(ip), now) > IpLimit then FraudResult(true, Some(IpReason))
    else if CountClicks(log, ByCode(shortCode), now) > CodeLimit then FraudResult(true, Some(SpikeReason))
    else FraudResult(false, None)
  }

  /** Counting distributes over concatenation of the log. */
  lemma {:induction false} CountConcat(a: seq<ClickEvent>, b: seq<ClickEvent>, key: Key, now: int)
    ensures CountClicks(a + b, key, now) == CountClicks(a, key, now) + CountClicks(b, key, now)
  {
    if |a| == 0 {
      assert a + b == b;
    } else {
      assert (a + b)[1..] == a[1..] + b;
      CountConcat(a[1..], b, key, now);
    }
  }

  /** One more click adds one to a count exactly when it is counted; its
      fraud flag plays no part, and a click older than the window adds
      nothing. */
  lemma CountAppend(log: seq<ClickEvent>, c: ClickEvent, key: Key, now: int)
    ensures CountClicks(log + [c], key, now) == CountClicks(log, key, now) + (if Counted(c, key, now) then 1 else 0)
    ensures CountClicks(log + [c.(isFraud := !c.isFraud)], key, now) == CountClicks(log + [c], key, now)
    ensures c.createdAt < now - WindowMs ==> CountClicks(log + [c], key, now) == CountClicks(log, key, now)
  {
    CountConcat(log, [c], key, now);
    CountConcat(log, [c.(isFraud := !c.isFraud)], key, now);
  }

  /** The count of `n` clicks all counted for `key` is `n`. */
  lemma {:induction false} CountAllCounted(log: seq<ClickEvent>, key: Key, now: int)
    requires forall i :: 0 <= i < |log| ==> Counted(log[i], key, now)
    ensures CountClicks(log, key, now) == |log|
  {
    if |log| > 0 {
      CountAllCounted(log[1..], key, now);
    }
  }

  /** Twenty-one windowed clicks from one IP are reported as fraud with
      the IP reason, whatever the link's own count. */
  lemma TwentyOneFromOneIpTrips(log: seq<ClickEvent>, shortCode: string, ip: string, now: int)
    requires |log| == 21
    requires forall i :: 0 <= i < |log| ==> log[i].ip == ip && log[i].createdAt >= now - WindowMs
    ensures CheckClickFraud(log, shortCode, ip, now) == FraudResult(true, Some(IpReason))
  {
    CountAllCounted(log, ByIp(ip), now);
  }

  /** Twenty windowed clicks from one IP, and nothing else in the log, do
      not trip anything. */
  lemma TwentyFromOneIpPasses(log: seq<ClickEvent>, shortCode: string, ip: string, now: int)
    requires |log| == 20
    ensures CheckClickFraud(log, shortCode, ip, now) == FraudResult(false, None)
  {
  }

  /** More clicks never clear a verdict: a log that reports fraud still
      does after any further clicks. */
  lemma FraudIsMonotone(log: seq<ClickEvent>, more: seq<ClickEvent>, shortCode: string, ip: string, now: int)
    requires CheckClickFraud(log, shortCode, ip, now).isFraud
    ensures CheckClickFraud(log + more, shortCode, ip, now).isFraud
  {
    CountConcat(log, more, ByIp(ip), now);
    CountConcat(log, more, ByCode(shortCode), now);
  }
}
