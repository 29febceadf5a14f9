/** The CreatorStats collection: running counters per creator, changed
    only by `$inc` updates that upsert by `creatorId`.  The schema does
    not declare `creatorId` unique; rows are kept in a sequence and an
    upsert updates the first matching row or appends a new one. */
module CreatorStatsModel {
  import opened Wrappers
  import opened Lookup

  datatype CreatorStats = CreatorStats(
    creatorId: string,
    lifetimeRevenue: real,
    lifetimeCommission: real,
    pendingCommission: real,
    approvedCommission: real,
    paidCommission: real,
    declinedCommission: real,
    lifetimeOrders: real,
    totalClicks: real,
    platformProfit: real,
    lastUpdated: int)

  /** The numeric fields an `$inc` can name. */
  datatype Counter =
    | LifetimeRevenue
    | LifetimeCommission
    | PendingCommission
    | ApprovedCommission
    | PaidCommission
    | DeclinedCommission
    | LifetimeOrders
    | TotalClicks
    | PlatformProfit

  /** An `$inc` document: the amount added to each named counter. */
  type Inc = map<Counter, real>

  /** The amount an `$inc` adds to a counter; an absent key adds 0. */
  function Delta(inc: Inc, c: Counter): real {
    if c in inc then inc[c] else 0.0
  }

  /** A row as the upsert inserts it: the creator id from the filter and
      every counter at its schema default of 0. */
  function NewStats(creatorId: string, now: int): (s: CreatorStats)
    ensures s.creatorId == creatorId && Balanced(s) && s.lifetimeCommission == 0.0
  {
    CreatorStats(creatorId, 0.0, 0.0, 0.0, 0.0, 0.0, 0.0, 0.0, 0.0, 0.0, now)
  }

  /** Applying `{ $inc: inc, $set: { lastUpdated: now } }` to one row. */
  function ApplyInc(s: CreatorStats, inc: Inc, now: int): (r: CreatorStats)
    ensures r.creatorId == s.creatorId
  {
    s.(lifetimeRevenue := s.lifetimeRevenue + Delta(inc, LifetimeRevenue),
       lifetimeCommission := s.lifetimeCommission + Delta(inc, LifetimeCommission),
       pendingCommission := s.pendingCommission + Delta(inc, PendingCommission),
       approvedCommission := s.approvedCommission + Delta(inc, ApprovedCommission),
       paidCommission := s.paidCommission + Delta(inc, PaidCommission),
       declinedCommission := s.declinedCommission + Delta(inc, DeclinedCommission),
       lifetimeOrders := s.lifetimeOrders + Delta(inc, LifetimeOrders),
       totalClicks := s.totalClicks + Delta(inc, TotalClicks),
       platformProfit := s.platformProfit + Delta(inc, PlatformProfit),
       lastUpdated := now)
  }

  /** The aggregate invariant: the status buckets add up to the lifetime
      commission, and the paid bucket, which nothing increments, stays 0. */
  predicate Balanced(s: CreatorStats) {
    && s.pendingCommission + s.approvedCommission + s.declinedCommission == s.lifetimeCommission
    && s.paidCommission == 0.0
  }

  /** An increment that moves the buckets by exactly what it adds to the
      lifetime commission, and leaves the paid bucket alone. */
  predicate Conserving(inc: Inc) {
    && Delta(inc, PendingCommission) + Delta(inc, ApprovedCommission) + Delta(inc, DeclinedCommission)
       == Delta(inc, LifetimeCommission)
    && Delta(inc, PaidCommission) == 0.0
  }

  /** A conserving increment keeps a row balanced, whatever else it adds. */
  lemma ApplyConserving(s: CreatorStats, inc: Inc, now: int)
    requires Balanced(s) && Conserving(inc)
    ensures Balanced(ApplyInc(s, inc, now))
  {
  }

  /** The position of the first row of a creator, as `updateOne` picks it. */
  function FindRow(rows: seq<CreatorStats>, creatorId: string): (r: Option<nat>)
    ensures r.Some? ==> r.value < |rows| && rows[r.value].creatorId == creatorId
    ensures r.None? <==> forall i :: 0 <= i < |rows| ==> rows[i].creatorId != creatorId
  {
    IndexOf(rows, (row: CreatorStats) => row.creatorId, creatorId)
  }

  /** The row of a creator, or an all-zero row where there is none (the
      view the read side gets from its `|| 0` defaults). */
  function RowOf(rows: seq<CreatorStats>, creatorId: string, now: int): CreatorStats {
    match FindRow(rows, creatorId)
    case Some(i) => rows[i]
    case None => NewStats(creatorId, now)
  }

  /** `CreatorStats.updateOne({ creatorId }, { $inc: inc, $set: { lastUpdated: now } }, { upsert: true })`. */
  function Upsert(rows: seq<CreatorStats>, creatorId: string, inc: Inc, now: int): (r: seq<CreatorStats>)
    ensures FindRow(rows, creatorId).Some? ==> |r| == |rows|
    ensures FindRow(rows, creatorId).None? ==> |r| == |rows| + 1
  {
    match FindRow(rows, creatorId)
    case Some(i) => rows[i := ApplyInc(rows[i], inc, now)]
    case None => rows + [ApplyInc(NewStats(creatorId, now), inc, now)]
  }

  /** At most one row per creator. */
  ghost predicate OneRowPerCreator(rows: seq<CreatorStats>) {
    forall i, j :: 0 <= i < j < |rows| ==> rows[i].creatorId != rows[j].creatorId
  }

  /** Every row is balanced. */
  ghost predicate AllBalanced(rows: seq<CreatorStats>) {
    forall i :: 0 <= i < |rows| ==> Balanced(rows[i])
  }

  /** Upserting never creates a second row for a creator: without a unique
      index, sequential upserts are what keep the rows one per creator. */
  lemma UpsertKeepsOneRow(rows: seq<CreatorStats>, creatorId: string, inc: Inc, now: int)
    requires OneRowPerCreator(rows)
    ensures OneRowPerCreator(Upsert(rows, creatorId, inc, now))
  {
  }

  /** A conserving upsert keeps every row balanced. */
  lemma UpsertKeepsBalance(rows: seq<CreatorStats>, creatorId: string, inc: Inc, now: int)
    requires AllBalanced(rows) && Conserving(inc)
    ensures AllBalanced(Upsert(rows, creatorId, inc, now))
  {
    var r := Upsert(rows, creatorId, inc, now);
    match FindRow(rows, creatorId)
    case Some(i) =>
      ApplyConserving(rows[i], inc, now);
    case None =>
      ApplyConserving(NewStats(creatorId, now), inc, now);
      assert r[|rows|] == ApplyInc(NewStats(creatorId, now), inc, now);
  }

  /** After an upsert, the creator's row is the previous row (or a zero
      row) with the increment applied, and every other creator's row is
      unchanged. */
  lemma UpsertEffect(rows: seq<CreatorStats>, creatorId: string, inc: Inc, now: int, other: string)
    requires OneRowPerCreator(rows)
    ensures RowOf(Upsert(rows, creatorId, inc, now), creatorId, now)
            == ApplyInc(RowOf(rows, creatorId, now), inc, now)
    ensures other != creatorId ==>
            RowOf(Upsert(rows, creatorId, inc, now), other, now) == RowOf(rows, other, now)
  {
    var r := Upsert(rows, creatorId, inc, now);
    UpsertKeepsOneRow(rows, creatorId, inc, now);
    var pos := if FindRow(rows, creatorId).Some? then FindRow(rows, creatorId).value else |rows|;
    assert pos < |r| && r[pos] == ApplyInc(RowOf(rows, creatorId, now), inc, now);
    FindRowUnique(r, pos);
    if other != creatorId {
      assert forall k :: 0 <= k < |rows| && k != pos ==> r[k] == rows[k];
      match FindRow(rows, other)
      case Some(j) =>
        assert j != pos && r[j] == rows[j];
        FindRowUnique(r, j);
      case None =>
        assert forall k :: 0 <= k < |r| ==> r[k].creatorId != other;
    }
  }

  /** Under one row per creator, a creator's row is found at its own
      position. */
  lemma {:induction false} FindRowUnique(rows: seq<CreatorStats>, i: nat)
    requires OneRowPerCreator(rows) && i < |rows|
    ensures FindRow(rows, rows[i].creatorId) == Some(i)
  {
    var k := FindRow(rows, rows[i].creatorId);
    assert k.Some?;
    assert !(k.value < i) && !(i < k.value);
  }

  class StatsStore {
    var rows: seq<CreatorStats>

    ghost predicate Valid()
      reads this
    {
      OneRowPerCreator(rows) && AllBalanced(rows)
    }

    constructor ()
      ensures Valid() && rows == []
    {
      rows := [];
    }

    /** The upsert, applied to the collection in place. */
    method UpdateOne(creatorId: string, inc: Inc, now: int)
      requires Valid() && Conserving(inc)
      modifies this
      ensures Valid()
      ensures rows == Upsert(old(rows), creatorId, inc, now)
    {
      UpsertKeepsOneRow(rows, creatorId, inc, now);
      UpsertKeepsBalance(rows, creatorId, inc, now);
      rows := Upsert(rows, creatorId, inc, now);
    }
  }
}
