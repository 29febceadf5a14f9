/** The `createOrder` job payload every ingestion adapter produces, and
    the order queue as the sequence of payloads added to it. */
module OrderQueue {
  import opened Wrappers

  datatype OrderJob = OrderJob(
    orderId: string,
    platform: string,
    category: string,
    orderValue: Option<real>,
    rawAmount: Option<real>,
    creatorId: string,
    shortCode: string,
    subId: string,
    status: string,
    productName: string)

  class Queue {
    var jobs: seq<OrderJob>

    constructor ()
      ensures jobs == []
    {
      jobs := [];
    }

    /** `orderQueue.add("createOrder", job)`. */
    method Add(job: OrderJob)
      modifies this
      ensures jobs == old(jobs) + [job]
    {
      jobs := jobs + [job];
    }
  }

  /** The payload of a `generatePayout` job; dates are milliseconds. */
  datatype PayoutJob = PayoutJob(creatorId: string, periodStart: int, periodEnd: int)

  class PayoutQueue {
    var jobs: seq<PayoutJob>

    constructor ()
      ensures jobs == []
    {
      jobs := [];
    }

    /** `payoutQueue.add("generatePayout", job)`. */
    method Add(job: PayoutJob)
      modifies this
      ensures jobs == old(jobs) + [job]
    {
      jobs := jobs + [job];
    }
  }
}
