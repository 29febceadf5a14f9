/** What the Admitad cron and the manual sync share: the action record
    `fetchActions` returns, the SyncState collection, and the calendar
    day of a timestamp. */
module AdmitadSync {
  import opened Wrappers

  /** One Admitad action, with the fields the ingestion reads. */
  datatype AdmitadAction = AdmitadAction(
    subid: string,
    order_id: string,
    payment: Option<real>,
    price: Option<real>,
    amount: Option<real>,
    status: string)

  const Platform: string := "admitad"
  const Category: string := "fashion"
  const OneHourMs: int := 60 * 60 * 1000
  const OneDayMs: int := 24 * OneHourMs

  /** `new Date(ms).toISOString().split("T")[0]`, as a day number since
      the epoch.  Dafny's division rounds down, as the calendar does. */
  function DayOf(ms: int): (d: int)
    ensures d * OneDayMs <= ms < (d + 1) * OneDayMs
  {
    ms / OneDayMs
  }

  /** SyncState, unique on `platform`: the time of the last sync. */
  class SyncStateStore {
    var lastSync: map<string, int>

    constructor ()
      ensures lastSync == map[]
    {
      lastSync := map[];
    }

    /** `SyncState.findOne({ platform })`. */
    function Get(platform: string): Option<int>
      reads this
    {
      if platform in lastSync then Some(lastSync[platform]) else None
    }

    /** `SyncState.updateOne({ platform }, { lastSync: now }, { upsert: true })`. */
    method Touch(platform: string, now: int)
      modifies this
      ensures lastSync == old(lastSync)[platform := now]
      ensures Get(platform) == Some(now)
    {
      lastSync := lastSync[platform := now];
    }
  }

  /** The actions whose jobs were queued before the first failing
      `orderQueue.add` (at position `failsAt`, if any). */
  function QueuedPrefix<T>(s: seq<T>, failsAt: Option<nat>): (r: seq<T>)
    ensures |r| <= |s| && r == s[..|r|]
    ensures (failsAt.None? || failsAt.value >= |s|) <==> r == s
    ensures failsAt.Some? && failsAt.value < |s| ==> |r| == failsAt.value
  {
    if failsAt.Some? && failsAt.value < |s| then s[..failsAt.value] else s
  }

  /** Whether every add succeeded. */
  predicate AllQueued<T>(s: seq<T>, failsAt: Option<nat>) {
    failsAt.None? || failsAt.value >= |s|
  }
}
