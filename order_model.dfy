/** The Order collection: one document per external order, keyed by a
    unique `orderId`.  A document's `_id` is its position in `orders`;
    orders are never deleted, so positions are stable. */
module OrderModel {
  import opened Wrappers
  import opened Lookup

  datatype Order = Order(
    shortCode: string,
    creatorId: string,
    orderId: string,
    productName: string,
    category: string,
    platform: string,
    orderValue: real,
    brandCommissionRate: real,
    brandCommissionAmount: real,
    creatorCommissionRate: real,
    creatorCommissionAmount: real,
    platformCommissionAmount: real,
    status: string,
    customerType: string,
    transactionDate: int,
    createdAt: int)

  /** The status enum of the schema. */
  const OrderStatuses: set<string> := {"pending", "approved", "declined", "paid"}
  const DefaultStatus: string := "pending"

  const CustomerTypes: set<string> := {"new", "existing"}
  const DefaultCustomerType: string := "existing"

  /** What Mongoose validation accepts on `create` and `save`: the
      required strings are present and both enums hold.  The numeric
      fields are `real`, so "required number" always holds of them. */
  predicate Admissible(o: Order) {
    && o.shortCode != ""
    && o.creatorId != ""
    && o.orderId != ""
    && o.category != ""
    && o.platform != ""
    && o.status in OrderStatuses
    && o.customerType in CustomerTypes
  }

  /** The unique index on `orderId`. */
  ghost predicate UniqueOrderIds(orders: seq<Order>) {
    forall i, j :: 0 <= i < j < |orders| ==> orders[i].orderId != orders[j].orderId
  }

  /** The collection invariant: every stored document passed validation
      and no two share an `orderId`. */
  ghost predicate WellFormed(orders: seq<Order>) {
    && (forall i :: 0 <= i < |orders| ==> Admissible(orders[i]))
    && UniqueOrderIds(orders)
  }

  /** `Order.findOne({ orderId })`: the position of the first document
      with that `orderId`, if any. */
  function FindByOrderId(orders: seq<Order>, orderId: string): (r: Option<nat>)
    ensures r.Some? ==> r.value < |orders| && orders[r.value].orderId == orderId
    ensures r.Some? ==> forall i :: 0 <= i < r.value ==> orders[i].orderId != orderId
    ensures r.None? <==> forall i :: 0 <= i < |orders| ==> orders[i].orderId != orderId
  {
    IndexOf(orders, (o: Order) => o.orderId, orderId)
  }

  /** Under the unique index, an `orderId` that is present is found at
      its one position. */
  lemma {:induction false} FindUnique(orders: seq<Order>, i: nat)
    requires UniqueOrderIds(orders) && i < |orders|
    ensures FindByOrderId(orders, orders[i].orderId) == Some(i)
  {
    var r := FindByOrderId(orders, orders[i].orderId);
    assert r.Some?;
    assert !(r.value < i);
    assert !(r.value > i);
  }

  /** Appending a document with a fresh `orderId` keeps the index unique
      and makes that document findable at the end of the collection. */
  lemma AppendFresh(orders: seq<Order>, o: Order)
    requires WellFormed(orders) && Admissible(o)
    requires FindByOrderId(orders, o.orderId).None?
    ensures WellFormed(orders + [o])
    ensures FindByOrderId(orders + [o], o.orderId) == Some(|orders|)
  {
    var s := orders + [o];
    var found := FindByOrderId(orders, o.orderId);
    assert forall i :: 0 <= i < |orders| ==> orders[i].orderId != o.orderId;
    forall i | 0 <= i < |s|
      ensures Admissible(s[i])
    {
      if i < |orders| {
        assert s[i] == orders[i];
      }
    }
    forall i, j | 0 <= i < j < |s|
      ensures s[i].orderId != s[j].orderId
    {
      if j < |orders| {
        assert s[i] == orders[i] && s[j] == orders[j];
      } else {
        assert s[i] == orders[i] && s[j] == o;
      }
    }
    assert UniqueOrderIds(s);
    FindUnique(s, |orders|);
  }

  /** Changing only the status of one document to a status of the enum
      keeps the collection well formed. */
  lemma SetStatusKeepsWellFormed(orders: seq<Order>, i: nat, status: string)
    requires WellFormed(orders) && i < |orders| && status in OrderStatuses
    ensures WellFormed(orders[i := orders[i].(status := status)])
  {
  }

  class OrderStore {
    var orders: seq<Order>

    ghost predicate Valid()
      reads this
    {
      WellFormed(orders)
    }

    constructor ()
      ensures Valid() && orders == []
    {
      orders := [];
    }
  }
}
