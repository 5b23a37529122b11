/**
 * The order handlers of src/controllers/orderController.js over an
 * in-memory order store.  Field names are the ones the handlers read and
 * write (`user`, `products`, `total`, `address`, `status`, `trackingInfo`,
 * `reviews`, `returnRequest`, `refundStatus`, `paymentStatus`, `orderId`),
 * not those of src/models/order.js.  `status` is an unconstrained string:
 * the admin update writes whatever it is given, and the creation default
 * "pending" is outside the schema's enum.
 */
module Orders {
  import opened Common

  datatype OrderLine = OrderLine(product: Id, quantity: int)
  datatype Review = Review(user: Id, review: string, rating: int)
  datatype ReturnRequest = ReturnRequest(requested: bool, reason: string, status: string)

  datatype Order = Order(
    user: Id,
    products: seq<OrderLine>,
    total: int,
    address: string,
    status: string,
    trackingInfo: Option<string>,
    reviews: seq<Review>,
    returnRequest: Option<ReturnRequest>,
    refundStatus: Option<string>,
    paymentStatus: Option<string>,
    orderId: Option<string>)

  /** The status `createOrder` uses when the body has none. */
  const DefaultStatus: string := "pending"
  /** The schema default of `paymentStatus`. */
  const DefaultPaymentStatus: string := "pending"
  const Shipped: string := "shipped"
  const Delivered: string := "delivered"
  const PendingReturn: string := "pending"

  // ---------------------------------------------------------------------
  // Guards

  predicate IsOwner(caller: Caller, o: Order) {
    o.user == caller.userId
  }

  /** `getOrderById`: an admin, or the order's owner. */
  predicate MayReadOrder(caller: Caller, o: Order) {
    caller.role == Admin || IsOwner(caller, o)
  }

  /** `addTrackingInfo` and `markOrderDelivered`: an admin or a vendor. */
  predicate MayUpdateShipment(caller: Caller) {
    caller.role == Admin || caller.role == Vendor
  }

  /** `getTrackingInfo`: an admin, a vendor, or the order's owner. */
  predicate MayReadTracking(caller: Caller, o: Order) {
    MayUpdateShipment(caller) || IsOwner(caller, o)
  }

  // ---------------------------------------------------------------------
  // Store invariants the handlers preserve

  /** Every review was left by the order's owner, and a return request is a pending request. */
  predicate WellFormed(o: Order) {
    && (forall k :: 0 <= k < |o.reviews| ==> o.reviews[k].user == o.user)
    && (o.returnRequest.Some? ==> o.returnRequest.value.requested && o.returnRequest.value.status == PendingReturn)
  }

  predicate StoreWellFormed(orders: map<Id, Order>) {
    forall id :: id in orders ==> WellFormed(orders[id])
  }

  /** No handler changes the owner of an order that stays in the store. */
  predicate OwnersKept(before: map<Id, Order>, after: map<Id, Order>) {
    forall id :: id in before && id in after ==> after[id].user == before[id].user
  }

  /** No order has a pending refund: no handler in this controller ever sets one. */
  predicate NoRefundPending(orders: map<Id, Order>) {
    forall id :: id in orders ==> orders[id].refundStatus != Some("pending")
  }

  /** Appending the owner's own review keeps an order well formed. */
  lemma ReviewKeepsWellFormed(o: Order, caller: Caller, review: string, rating: int)
    requires WellFormed(o) && IsOwner(caller, o)
    ensures WellFormed(o.(reviews := o.reviews + [Review(caller.userId, review, rating)]))
  {
  }

  /** Replacing one order by the given one keeps the store invariants. */
  lemma ReplaceKeepsInvariants(orders: map<Id, Order>, id: Id, o: Order)
    requires id in orders && o.user == orders[id].user
    requires StoreWellFormed(orders) ==> WellFormed(o)
    requires NoRefundPending(orders) ==> o.refundStatus != Some("pending")
    ensures OwnersKept(orders, orders[id := o])
    ensures StoreWellFormed(orders) ==> StoreWellFormed(orders[id := o])
    ensures NoRefundPending(orders) ==> NoRefundPending(orders[id := o])
  {
  }

  // ---------------------------------------------------------------------
  // The store and its handlers

  class OrderStore {
    var orders: map<Id, Order>

    constructor ()
      ensures orders == map[]
    {
      orders := map[];
    }

    /** `createOrder`: the caller becomes the owner; the status defaults to "pending". */
    method CreateOrder(caller: Caller, products: seq<OrderLine>, total: int, address: string,
                       status: Option<string>, newId: Id)
      returns (code: nat, created: Order)
      requires newId !in orders
      modifies this
      ensures code == Created
      ensures orders == old(orders)[newId := created]
      ensures created.user == caller.userId
      ensures created.products == products && created.total == total && created.address == address
      ensures created.status == (if status.Some? then status.value else DefaultStatus)
      ensures created.trackingInfo == None && created.reviews == [] && created.returnRequest == None
      ensures created.refundStatus == None && created.orderId == None
      ensures created.paymentStatus == Some(DefaultPaymentStatus)
      ensures OwnersKept(old(orders), orders)
      ensures StoreWellFormed(old(orders)) ==> StoreWellFormed(orders)
      ensures NoRefundPending(old(orders)) ==> NoRefundPending(orders)
    {
      created := Order(caller.userId, products, total, address, status.GetOr(DefaultStatus),
                       None, [], None, None, Some(DefaultPaymentStatus), None);
      orders := orders[newId := created];
      code := Created;
    }

    /** `getAllOrders`: the whole store, for admins only. */
    method GetAllOrders(caller: Caller) returns (code: nat, all: map<Id, Order>)
      ensures caller.role != Admin ==> code == Forbidden && all == map[]
      ensures caller.role == Admin ==> code == Ok && all == orders
    {
      if caller.role != Admin {
        return Forbidden, map[];
      }
      return Ok, orders;
    }

    /** `getMyOrders`: exactly the orders the caller owns. */
    method GetMyOrders(caller: Caller) returns (code: nat, mine: map<Id, Order>)
      ensures code == Ok
      ensures forall id :: id in mine <==> id in orders && orders[id].user == caller.userId
      ensures forall id :: id in mine ==> mine[id] == orders[id]
    {
      mine := map id | id in orders && orders[id].user == caller.userId :: orders[id];
      code := Ok;
    }

    /** `getOrderById`: 404 for an unknown id, then 403 unless admin or owner. */
    method GetOrderById(caller: Caller, id: Id) returns (code: nat, order: Option<Order>)
      ensures id !in orders ==> code == NotFound && order == None
      ensures id in orders && !MayReadOrder(caller, orders[id]) ==> code == Forbidden && order == None
      ensures code == Ok <==> id in orders && MayReadOrder(caller, orders[id])
      ensures code == Ok ==> order == Some(orders[id])
    {
      if id !in orders {
        return NotFound, None;
      }
      var o := orders[id];
      if caller.role != Admin && o.user != caller.userId {
        return Forbidden, None;
      }
      return Ok, Some(o);
    }

    /** `updateOrderStatus`: admins only, checked before any lookup; any status string is written. */
    method UpdateOrderStatus(caller: Caller, id: Id, status: Option<string>) returns (code: nat, updated: Option<Order>)
      modifies this
      ensures caller.role != Admin ==> code == Forbidden && updated == None && orders == old(orders)
      ensures caller.role == Admin && id !in old(orders) ==> code == NotFound && updated == None && orders == old(orders)
      ensures caller.role == Admin && id in old(orders) ==>
        && code == Ok
        && updated == Some(old(orders)[id].(status := status.GetOr(old(orders)[id].status)))
        && orders == old(orders)[id := updated.value]
      ensures OwnersKept(old(orders), orders)
      ensures StoreWellFormed(old(orders)) ==> StoreWellFormed(orders)
      ensures NoRefundPending(old(orders)) ==> NoRefundPending(orders)
    {
      if caller.role != Admin {
        return Forbidden, None;
      }
      if id !in orders {
        return NotFound, None;
      }
      var o := orders[id].(status := status.GetOr(orders[id].status));
      ReplaceKeepsInvariants(orders, id, o);
      orders := orders[id := o];
      return Ok, Some(o);
    }

    /** `deleteOrder`: admins only, checked before any lookup; removes only the target. */
    method DeleteOrder(caller: Caller, id: Id) returns (code: nat)
      modifies this
      ensures caller.role != Admin ==> code == Forbidden && orders == old(orders)
      ensures caller.role == Admin && id !in old(orders) ==> code == NotFound && orders == old(orders)
      ensures caller.role == Admin && id in old(orders) ==> code == Ok && orders == old(orders) - {id}
      ensures OwnersKept(old(orders), orders)
      ensures StoreWellFormed(old(orders)) ==> StoreWellFormed(orders)
      ensures NoRefundPending(old(orders)) ==> NoRefundPending(orders)
    {
      if caller.role != Admin {
        return Forbidden;
      }
      if id !in orders {
        return NotFound;
      }
      orders := orders - {id};
      return Ok;
    }

    /** `addTrackingInfo`: admin or vendor, checked before the lookup; only `trackingInfo` changes. */
    method AddTrackingInfo(caller: Caller, id: Id, trackingInfo: Option<string>) returns (code: nat, updated: Option<Order>)
      modifies this
      ensures !MayUpdateShipment(caller) ==> code == Forbidden && updated == None && orders == old(orders)
      ensures MayUpdateShipment(caller) && id !in old(orders) ==> code == NotFound && updated == None && orders == old(orders)
      ensures MayUpdateShipment(caller) && id in old(orders) ==>
        && code == Ok
        && updated == Some(old(orders)[id].(trackingInfo := if trackingInfo.Some? then trackingInfo else old(orders)[id].trackingInfo))
        && orders == old(orders)[id := updated.value]
      ensures OwnersKept(old(orders), orders)
      ensures StoreWellFormed(old(orders)) ==> StoreWellFormed(orders)
      ensures NoRefundPending(old(orders)) ==> NoRefundPending(orders)
    {
      if caller.role != Admin && caller.role != Vendor {
        return Forbidden, None;
      }
      if id !in orders {
        return NotFound, None;
      }
      var o := orders[id].(trackingInfo := if trackingInfo.Some? then trackingInfo else orders[id].trackingInfo);
      ReplaceKeepsInvariants(orders, id, o);
      orders := orders[id := o];
      return Ok, Some(o);
    }

    /** `getTrackingInfo`: 404, then 403 unless admin, vendor or owner; a falsy value reads as null. */
    method GetTrackingInfo(caller: Caller, id: Id) returns (code: nat, tracking: Option<string>)
      ensures id !in orders ==> code == NotFound && tracking == None
      ensures code == Ok <==> id in orders && MayReadTracking(caller, orders[id])
      ensures id in orders && !MayReadTracking(caller, orders[id]) ==> code == Forbidden && tracking == None
      ensures code == Ok ==> (tracking == if Truthy(orders[id].trackingInfo) then orders[id].trackingInfo else None)
    {
      if id !in orders {
        return NotFound, None;
      }
      var o := orders[id];
      if caller.role != Admin && caller.role != Vendor && o.user != caller.userId {
        return Forbidden, None;
      }
      tracking := if Truthy(o.trackingInfo) then o.trackingInfo else None;
      code := Ok;
    }

    /** `leaveReview`: the owner only; the review is appended and earlier reviews are kept. */
    method LeaveReview(caller: Caller, id: Id, review: string, rating: int) returns (code: nat, updated: Option<Order>)
      modifies this
      ensures id !in old(orders) ==> code == NotFound && updated == None && orders == old(orders)
      ensures id in old(orders) && !IsOwner(caller, old(orders)[id]) ==> code == Forbidden && updated == None && orders == old(orders)
      ensures id in old(orders) && IsOwner(caller, old(orders)[id]) ==>
        && code == Ok
        && updated == Some(old(orders)[id].(reviews := old(orders)[id].reviews + [Review(caller.userId, review, rating)]))
        && orders == old(orders)[id := updated.value]
        && |orders[id].reviews| == |old(orders)[id].reviews| + 1
      ensures OwnersKept(old(orders), orders)
      ensures StoreWellFormed(old(orders)) ==> StoreWellFormed(orders)
      ensures NoRefundPending(old(orders)) ==> NoRefundPending(orders)
    {
      if id !in orders {
        return NotFound, None;
      }
      var o := orders[id];
      if o.user != caller.userId {
        return Forbidden, None;
      }
      var o' := o.(reviews := o.reviews + [Review(caller.userId, review, rating)]);
      if WellFormed(o) {
        ReviewKeepsWellFormed(o, caller, review, rating);
      }
      ReplaceKeepsInvariants(orders, id, o');
      orders := orders[id := o'];
      return Ok, Some(o');
    }

    /** `raiseReturnRequest`: the owner only; records a pending request with the reason, and leaves `refundStatus` alone. */
    method RaiseReturnRequest(caller: Caller, id: Id, reason: string) returns (code: nat, updated: Option<Order>)
      modifies this
      ensures id !in old(orders) ==> code == NotFound && updated == None && orders == old(orders)
      ensures id in old(orders) && !IsOwner(caller, old(orders)[id]) ==> code == Forbidden && updated == None && orders == old(orders)
      ensures id in old(orders) && IsOwner(caller, old(orders)[id]) ==>
        && code == Ok
        && updated == Some(old(orders)[id].(returnRequest := Some(ReturnRequest(true, reason, PendingReturn))))
        && orders == old(orders)[id := updated.value]
      ensures OwnersKept(old(orders), orders)
      ensures StoreWellFormed(old(orders)) ==> StoreWellFormed(orders)
      ensures NoRefundPending(old(orders)) ==> NoRefundPending(orders)
    {
      if id !in orders {
        return NotFound, None;
      }
      var o := orders[id];
      if o.user != caller.userId {
        return Forbidden, None;
      }
      var o' := o.(returnRequest := Some(ReturnRequest(true, reason, PendingReturn)));
      ReplaceKeepsInvariants(orders, id, o');
      orders := orders[id := o'];
      return Ok, Some(o');
    }

    /** `markOrderDelivered`: admin or vendor, checked before the lookup; only `status` changes. */
    method MarkOrderDelivered(caller: Caller, id: Id) returns (code: nat, updated: Option<Order>)
      modifies this
      ensures !MayUpdateShipment(caller) ==> code == Forbidden && updated == None && orders == old(orders)
      ensures MayUpdateShipment(caller) && id !in old(orders) ==> code == NotFound && updated == None && orders == old(orders)
      ensures MayUpdateShipment(caller) && id in old(orders) ==>
        && code == Ok
        && updated == Some(old(orders)[id].(status := Delivered))
        && orders == old(orders)[id := updated.value]
      ensures OwnersKept(old(orders), orders)
      ensures StoreWellFormed(old(orders)) ==> StoreWellFormed(orders)
      ensures NoRefundPending(old(orders)) ==> NoRefundPending(orders)
    {
      if caller.role != Admin && caller.role != Vendor {
        return Forbidden, None;
      }
      if id !in orders {
        return NotFound, None;
      }
      var o := orders[id].(status := Delivered);
      ReplaceKeepsInvariants(orders, id, o);
      orders := orders[id := o];
      return Ok, Some(o);
    }

    /** `markOrderShipped`: vendors only, checked before the lookup; `status` becomes "shipped" whatever it was. */
    method MarkOrderShipped(caller: Caller, id: Id) returns (code: nat, updated: Option<Order>)
      modifies this
      ensures caller.role != Vendor ==> code == Forbidden && updated == None && orders == old(orders)
      ensures caller.role == Vendor && id !in old(orders) ==> code == NotFound && updated == None && orders == old(orders)
      ensures caller.role == Vendor && id in old(orders) ==>
        && code == Ok
        && updated == Some(old(orders)[id].(status := Shipped))
        && orders == old(orders)[id := updated.value]
      ensures OwnersKept(old(orders), orders)
      ensures StoreWellFormed(old(orders)) ==> StoreWellFormed(orders)
      ensures NoRefundPending(old(orders)) ==> NoRefundPending(orders)
    {
      if caller.role != Vendor {
        return Forbidden, None;
      }
      if id !in orders {
        return NotFound, None;
      }
      var o := orders[id].(status := Shipped);
      ReplaceKeepsInvariants(orders, id, o);
      orders := orders[id := o];
      return Ok, Some(o);
    }
  }
}
