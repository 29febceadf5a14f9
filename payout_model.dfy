/** The Payout collection: one document per (creatorId, periodStart,
    periodEnd), by a compound unique index.  Payouts are never deleted,
    so a document's `_id` is its position. */
module PayoutModel {
  import opened Wrappers

  datatype Payout = Payout(
    creatorId: string,
    periodStart: int,
    periodEnd: int,
    totalOrders: real,
    totalRevenue: real,
    totalCommission: real,
    status: string,
    paidAt: Option<int>)

  const PayoutStatuses: set<string> := {"pending", "paid"}
  const DefaultStatus: string := "pending"

  /** The compound unique index. */
  ghost predicate UniquePeriods(payouts: seq<Payout>) {
    forall i, j :: 0 <= i < j < |payouts| ==>
      (payouts[i].creatorId, payouts[i].periodStart, payouts[i].periodEnd)
      != (payouts[j].creatorId, payouts[j].periodStart, payouts[j].periodEnd)
  }

  /** The collection invariant: required creator, status enum, unique periods. */
  ghost predicate WellFormed(payouts: seq<Payout>) {
    && (forall i :: 0 <= i < |payouts| ==> payouts[i].creatorId != "" && payouts[i].status in PayoutStatuses)
    && UniquePeriods(payouts)
  }

  /** `Payout.findOne({ creatorId, periodStart, periodEnd })`. */
  function FindPayout(payouts: seq<Payout>, creatorId: string, periodStart: int, periodEnd: int): (r: Option<nat>)
    ensures r.Some? ==> r.value < |payouts| && payouts[r.value].creatorId == creatorId
                        && payouts[r.value].periodStart == periodStart && payouts[r.value].periodEnd == periodEnd
    ensures r.None? <==> forall i :: 0 <= i < |payouts| ==>
                           (payouts[i].creatorId, payouts[i].periodStart, payouts[i].periodEnd) != (creatorId, periodStart, periodEnd)
  {
    if |payouts| == 0 then None
    else if payouts[0].creatorId == creatorId && payouts[0].periodStart == periodStart && payouts[0].periodEnd == periodEnd then Some(0)
    else match FindPayout(payouts[1..], creatorId, periodStart, periodEnd)
      case None => None
      case Some(k) => Some(k + 1)
  }

  class PayoutStore {
    var payouts: seq<Payout>

    ghost predicate Valid()
      reads this
    {
      WellFormed(payouts)
    }

    constructor ()
      ensures Valid() && payouts == []
    {
      payouts := [];
    }
  }
}
