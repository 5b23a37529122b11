/**
 * The refund decision of src/controllers/returnController.js: an admin
 * approves or rejects the pending refund of the order found by its
 * `orderId` field.  Only a pending refund can be decided, and a decision
 * leaves it non-pending, so every later decision on that order is refused.
 */
module Returns {
  import opened Common
  import opened Orders

  const Approved: string := "approved"
  const Rejected: string := "rejected"
  const Pending: string := "pending"
  const Refunded: string := "refunded"

  predicate IsDecision(status: string) {
    status == Approved || status == Rejected
  }

  /** The order after a decision: approval also marks payment and order refunded, rejection touches nothing else. */
  function Decide(o: Order, status: string): (r: Order)
    requires IsDecision(status)
    ensures r.refundStatus == Some(status) && r.refundStatus != Some(Pending)
    ensures status == Approved ==> r == o.(refundStatus := Some(Approved), paymentStatus := Some(Refunded), status := Refunded)
    ensures status == Rejected ==> r == o.(refundStatus := Some(Rejected))
    ensures r.user == o.user && r.reviews == o.reviews && r.returnRequest == o.returnRequest
  {
    var o' := o.(refundStatus := Some(status));
    if status == Approved then o'.(paymentStatus := Some(Refunded), status := Refunded) else o'
  }

  /** The ids of orders whose `orderId` field is the given one. */
  function Matching(orders: map<Id, Order>, orderId: string): set<Id> {
    set id | id in orders && orders[id].orderId == Some(orderId)
  }

  /** `Order.findOne({ orderId })` picks one of the matching orders; this finds one when there is one. */
  method FindByOrderId(orders: map<Id, Order>, orderId: string) returns (found: Option<Id>)
    ensures found.None? <==> Matching(orders, orderId) == {}
    ensures found.Some? ==> found.value in Matching(orders, orderId)
  {
    if Matching(orders, orderId) == {} {
      return None;
    }
    var id :| id in Matching(orders, orderId);
    return Some(id);
  }

  /** The pending refund of order `id`, which carries `orderId`, was decided and nothing else in the store changed. */
  predicate DecidedAt(before: map<Id, Order>, after: map<Id, Order>, orderId: string, status: string,
                      id: Id, updated: Option<Order>)
  {
    && IsDecision(status)
    && id in Matching(before, orderId)
    && before[id].refundStatus == Some(Pending)
    && updated == Some(Decide(before[id], status))
    && after == before[id := updated.value]
  }

  /**
   * `updateRefundStatus`: 400 for a status other than approved/rejected before
   * any lookup, 404 when no order carries the orderId, 400 when its refund is
   * not pending; otherwise the decision is saved on that one order.
   */
  method UpdateRefundStatus(store: OrderStore, orderId: string, status: string) returns (code: nat, updated: Option<Order>)
    modifies store
    ensures !IsDecision(status) ==> code == BadRequest && updated == None && store.orders == old(store.orders)
    ensures IsDecision(status) && Matching(old(store.orders), orderId) == {} ==>
      code == NotFound && updated == None && store.orders == old(store.orders)
    ensures code == Ok ==> IsDecision(status)
    ensures code == Ok ==> exists id :: DecidedAt(old(store.orders), store.orders, orderId, status, id, updated)
    ensures code != Ok ==> store.orders == old(store.orders) && updated == None
    ensures code in {Ok, BadRequest, NotFound}
    ensures IsDecision(status) && Matching(old(store.orders), orderId) != {} && code != Ok ==> code == BadRequest
    ensures ((forall id :: id in Matching(old(store.orders), orderId) ==> old(store.orders)[id].refundStatus == Some(Pending))
             && IsDecision(status) && Matching(old(store.orders), orderId) != {}) ==> code == Ok
    ensures OwnersKept(old(store.orders), store.orders)
    ensures StoreWellFormed(old(store.orders)) ==> StoreWellFormed(store.orders)
    ensures NoRefundPending(old(store.orders)) ==> NoRefundPending(store.orders) && code != Ok
  {
    if !IsDecision(status) {
      return BadRequest, None;
    }
    var found := FindByOrderId(store.orders, orderId);
    if found.None? {
      return NotFound, None;
    }
    var id := found.value;
    var o := store.orders[id];
    if o.refundStatus != Some(Pending) {
      return BadRequest, None;
    }
    var o' := Decide(o, status);
    ReplaceKeepsInvariants(store.orders, id, o');
    store.orders := store.orders[id := o'];
    code, updated := Ok, Some(o');
    assert DecidedAt(old(store.orders), store.orders, orderId, status, id, updated);
  }

  /** When one order carries the orderId, a successful decision makes every repeated call fail with 400. */
  method RepeatedDecisionRefused(store: OrderStore, orderId: string, first: string, second: string)
    returns (code1: nat, code2: nat)
    requires |Matching(store.orders, orderId)| <= 1
    modifies store
    ensures code1 == Ok ==> code2 == BadRequest
  {
    var ignored: Option<Order>;
    code1, ignored := UpdateRefundStatus(store, orderId, first);
    ghost var after := store.orders;
    if code1 == Ok {
      ghost var id :| id in Matching(old(store.orders), orderId) && after[id].refundStatus != Some(Pending);
      assert Matching(after, orderId) == Matching(old(store.orders), orderId);
      SingletonMatch(after, orderId, id);
    }
    code2, ignored := UpdateRefundStatus(store, orderId, second);
  }

  lemma SingletonMatch(orders: map<Id, Order>, orderId: string, id: Id)
    requires id in Matching(orders, orderId) && |Matching(orders, orderId)| <= 1
    ensures Matching(orders, orderId) == {id}
  {
    var m := Matching(orders, orderId);
    var rest := m - {id};
    assert m == rest + {id};
    assert |m| == |rest| + 1;
    assert rest == {};
  }
}
