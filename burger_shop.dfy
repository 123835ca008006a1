/** A model of the `BurgerShop` ink! smart contract: an order ledger kept both as an
    append-only list of `(id, order)` pairs and as an id-to-order mapping, with a shop
    owner fixed at instantiation.

    Host calls are explicit: the caller of a message is a parameter, and the outcome
    of the native-token transfer is a `transferOk` parameter. A contract panic
    (`assert!` or `expect`) reverts the call; it is the `Trap` outcome, carrying the
    panic message, and leaves every field as it was. */
module BurgerShopContract {

  /** `u32`, the width of order ids, prices and amounts. */
  type U32 = x: int | 0 <= x < 0x1_0000_0000

  /** A 32-byte account id, as the host supplies it. */
  type AccountId = s: seq<bv8> | |s| == 32 witness seq(32, _ => 0)

  datatype Status = GettingIngredients | Preparing | SentForDelivery | Delivered

  /** `Status::default()`. */
  const DefaultStatus: Status := GettingIngredients

  /** An order as the customer submits it. `burgerMenu` and `amount` are carried
      but never inspected by the contract. */
  datatype Order = Order(
    burgerMenu: string,
    customer: AccountId,
    price: U32,
    amount: U32,
    paid: bool,
    delivered: bool,
    status: Status,
    completed: bool)

  datatype Error = PaymentError | OrderNotCompleted

  datatype Result<T> = Ok(value: T) | Err(error: Error)

  /** How a message call ends: it returns a value, or it panics with a message
      and the host reverts every change the call made. */
  datatype Outcome<T> = Return(value: T) | Trap(message: string)

  /** What a mutating message returns, together with the local copy of the order
      it updated. The contract drops `copy` without writing it back. */
  datatype Reply<T> = Reply(value: T, copy: Order)

  /** A request made to the host to move `amount` from the contract's own balance
      to account `to`. `make_payment` is not payable, so the caller sends nothing. */
  datatype Transfer = Transfer(to: AccountId, amount: nat)

  /** What `make_payment` returns once its checks pass: the transfer it asked for,
      its own result and the (dropped) updated copy of the order. */
  datatype Payment = Payment(transfer: Transfer, value: Result<()>, copy: Order)

  // Panic messages, exactly as the contract spells them.
  const NotFoundInGet: string := "Order not found!"
  const NotFound: string := "order not found!"
  const AlreadyCompleted: string := "Order already completed!"
  const NotPaid: string := "Order not paid!"
  const NotDelivered: string := "Order not delivered!"
  const AlreadyPaid: string := "Order already paid!"
  const NotCustomer: string := "You are not the customer!"
  const AlreadyDelivered: string := "Order already delivered!"
  const NotShopOwner: string := "You are not the shop owner!"

  const U32Modulus: int := 0x1_0000_0000

  /** The id `new_order` gives the next order: the list length cast with `as u32`,
      which keeps only the low 32 bits. */
  function NextId(orders: seq<(U32, Order)>): (id: U32)
    ensures |orders| < U32Modulus ==> id == |orders|
    ensures |orders| == U32Modulus ==> id == 0
  {
    |orders| % U32Modulus
  }

  /** The ledger invariant: entry `i` of the list has id `i` and is what the mapping
      holds under that id, and the mapping has no other keys. */
  ghost predicate Consistent(orders: seq<(U32, Order)>, mapping: map<U32, Order>)
  {
    (forall i :: 0 <= i < |orders| ==>
      orders[i].0 == i && orders[i].0 in mapping && mapping[orders[i].0] == orders[i].1) &&
    (forall id :: id in mapping ==> id < |orders|)
  }

  /** The ledger obtained by instantiating the contract and then calling
      `new_order` once for each of `submitted`, in order. */
  function Replay(submitted: seq<Order>): (ledger: (seq<(U32, Order)>, map<U32, Order>))
    requires |submitted| <= U32Modulus
    ensures Consistent(ledger.0, ledger.1)
    ensures |ledger.0| == |submitted|
    ensures forall i :: 0 <= i < |submitted| ==> ledger.0[i] == (i, submitted[i])
    decreases |submitted|
  {
    if submitted == [] then ([], map[])
    else
      var previous := Replay(submitted[..|submitted| - 1]);
      var order := submitted[|submitted| - 1];
      AppendKeepsConsistent(previous.0, previous.1, order);
      var id := NextId(previous.0);
      (previous.0 + [(id, order)], previous.1[id := order])
  }

  /** `new_order` keeps the ledger invariant while fewer than 2^32 orders exist. */
  lemma AppendKeepsConsistent(orders: seq<(U32, Order)>, mapping: map<U32, Order>, order: Order)
    requires Consistent(orders, mapping)
    requires |orders| < U32Modulus
    ensures Consistent(orders + [(NextId(orders), order)], mapping[NextId(orders) := order])
  {
    var id := NextId(orders);
    var orders', mapping' := orders + [(id, order)], mapping[id := order];
    forall i | 0 <= i < |orders'|
      ensures orders'[i].0 == i && orders'[i].0 in mapping' && mapping'[orders'[i].0] == orders'[i].1
    {
      if i < |orders| {
        assert orders'[i] == orders[i];
      }
    }
  }

  /** With 2^32 orders stored, the cast wraps: the next order gets id 0, replaces
      order 0 in the mapping, and the list no longer matches it. */
  lemma WrappedIdBreaksConsistent(orders: seq<(U32, Order)>, mapping: map<U32, Order>, order: Order)
    requires Consistent(orders, mapping)
    requires |orders| == U32Modulus
    ensures NextId(orders) == 0
    ensures !Consistent(orders + [(NextId(orders), order)], mapping[NextId(orders) := order])
  {
    var orders' := orders + [(NextId(orders), order)];
    assert orders'[|orders|].0 == 0 != |orders|;
  }

  /** In a consistent ledger, the mapping key `id` exists exactly when `id` is a
      position of the list, and the two agree on the order. */
  lemma ConsistentLookup(orders: seq<(U32, Order)>, mapping: map<U32, Order>, id: U32)
    requires Consistent(orders, mapping)
    ensures id in mapping <==> id < |orders|
    ensures id < |orders| ==> mapping[id] == orders[id].1
  {
    if id < |orders| {
      assert orders[id].0 == id;
    }
  }

  /** The order invariant the guards of `mark_completed` and `make_payment` suggest: a
      completed order is paid, delivered and has status `Delivered`; a paid order has
      left `GettingIngredients`. */
  predicate WellFormed(o: Order)
  {
    (o.completed ==> o.paid && o.delivered && o.status == Delivered) &&
    (o.paid ==> o.status != GettingIngredients)
  }

  /** `mark_completed(id)` on the stored mapping. */
  function MarkCompletedOutcome(stored: map<U32, Order>, id: U32): (r: Outcome<Reply<Result<()>>>)
    ensures r.Return? <==>
      id in stored && !stored[id].completed && stored[id].paid &&
      stored[id].delivered && stored[id].status == Delivered
    ensures r.Return? ==> r.value == Reply(Ok(()), stored[id].(completed := true))
    ensures id !in stored ==> r == Trap(NotFound)
    ensures id in stored && stored[id].completed ==> r == Trap(AlreadyCompleted)
    ensures id in stored && !stored[id].completed && !stored[id].paid ==> r == Trap(NotPaid)
    ensures (id in stored && !stored[id].completed && stored[id].paid &&
             (!stored[id].delivered || stored[id].status != Delivered)) ==> r == Trap(NotDelivered)
  {
    if id !in stored then Trap(NotFound)
    else
      var order := stored[id];
      if order.completed then Trap(AlreadyCompleted)
      else if !order.paid then Trap(NotPaid)
      else if !order.delivered then Trap(NotDelivered)
      else if order.status != Delivered then Trap(NotDelivered)
      else if order.paid && order.delivered && order.status == Delivered then
        Return(Reply(Ok(()), order.(completed := true)))
      else Return(Reply(Err(OrderNotCompleted), order))
  }

  /** `make_payment(id)` on the stored mapping, called by `caller`, with the shop
      owned by `owner` and the host's transfer reporting `transferOk`. */
  function MakePaymentOutcome(stored: map<U32, Order>, id: U32, owner: AccountId, caller: AccountId,
                              transferOk: bool): (r: Outcome<Payment>)
    ensures r.Return? <==>
      id in stored && !stored[id].paid && caller == stored[id].customer &&
      !stored[id].completed && !stored[id].delivered
    ensures r.Return? ==> r.value.transfer == Transfer(owner, stored[id].price)
    ensures r.Return? && transferOk ==>
      r.value.value == Ok(()) && r.value.copy == stored[id].(paid := true, status := Preparing)
    ensures r.Return? && !transferOk ==>
      r.value.value == Err(PaymentError) && r.value.copy == stored[id]
    ensures id !in stored ==> r == Trap(NotFound)
    ensures id in stored && stored[id].paid ==> r == Trap(AlreadyPaid)
    ensures id in stored && !stored[id].paid && caller != stored[id].customer ==> r == Trap(NotCustomer)
    ensures (id in stored && !stored[id].paid && caller == stored[id].customer &&
             stored[id].completed) ==> r == Trap(AlreadyCompleted)
    ensures (id in stored && !stored[id].paid && caller == stored[id].customer &&
             !stored[id].completed && stored[id].delivered) ==> r == Trap(AlreadyDelivered)
  {
    if id !in stored then Trap(NotFound)
    else
      var order := stored[id];
      if order.paid then Trap(AlreadyPaid)
      else if caller != order.customer then Trap(NotCustomer)
      else if order.completed then Trap(AlreadyCompleted)
      else if order.delivered then Trap(AlreadyDelivered)
      else
        var transfer := Transfer(owner, order.price);
        if transferOk then Return(Payment(transfer, Ok(()), order.(paid := true, status := Preparing)))
        else Return(Payment(transfer, Err(PaymentError), order))
  }

  /** `change_status(id, status)` on the stored mapping, called by `caller`, with
      the shop owned by `owner`. */
  function ChangeStatusOutcome(stored: map<U32, Order>, id: U32, owner: AccountId, caller: AccountId,
                               status: Status): (r: Outcome<Reply<()>>)
    ensures r.Return? <==> id in stored && caller == owner && !stored[id].completed
    ensures r.Return? ==> r.value.copy == stored[id].(status := status)
    ensures id !in stored ==> r == Trap(NotFound)
    ensures id in stored && caller != owner ==> r == Trap(NotShopOwner)
    ensures id in stored && caller == owner && stored[id].completed ==> r == Trap(AlreadyCompleted)
  {
    if id !in stored then Trap(NotFound)
    else
      var order := stored[id];
      if caller != owner then Trap(NotShopOwner)
      else if order.completed then Trap(AlreadyCompleted)
      else Return(Reply((), order.(status := status)))
  }

  /** A successful completion yields a completed, well-formed copy, whatever was stored:
      the guards admit only paid, delivered, `Delivered` orders. */
  lemma CompletedCopyIsWellFormed(stored: map<U32, Order>, id: U32)
    requires MarkCompletedOutcome(stored, id).Return?
    ensures WellFormed(MarkCompletedOutcome(stored, id).value.copy)
    ensures MarkCompletedOutcome(stored, id).value.copy.completed
  {
  }

  /** A successful payment yields a paid, well-formed copy, whatever was stored: the
      copy becomes `Preparing`, and the guards admit only uncompleted orders. */
  lemma PaidCopyIsWellFormed(stored: map<U32, Order>, id: U32, owner: AccountId, caller: AccountId)
    requires MakePaymentOutcome(stored, id, owner, caller, true).Return?
    ensures WellFormed(MakePaymentOutcome(stored, id, owner, caller, true).value.copy)
    ensures MakePaymentOutcome(stored, id, owner, caller, true).value.copy.paid
  {
  }

  /** `change_status` has neither a paid check nor a forward-only check: the owner
      can reset a paid order's status to `GettingIngredients` while it stays paid, which
      `WellFormed` forbids. */
  lemma ChangeStatusCanResetPaidOrder(stored: map<U32, Order>, id: U32, owner: AccountId)
    requires id in stored && stored[id].paid && !stored[id].completed
    ensures ChangeStatusOutcome(stored, id, owner, owner, GettingIngredients).Return?
    ensures !WellFormed(ChangeStatusOutcome(stored, id, owner, owner, GettingIngredients).value.copy)
  {
  }

  /** `mark_completed` never returns `Err(OrderNotCompleted)`: the asserts before the
      final `if` already exclude its else-branch. */
  lemma MarkCompletedNeverErrs(stored: map<U32, Order>, id: U32)
    ensures forall o :: MarkCompletedOutcome(stored, id) != Return(Reply(Err(OrderNotCompleted), o))
  {
  }

  /** No message sets `delivered`: every copy that `mark_completed`, `make_payment` or
      `change_status` returns has the `delivered` flag of the stored order. Only the
      submitter of `new_order` chooses it. */
  lemma CopiesKeepDelivered(stored: map<U32, Order>, id: U32, owner: AccountId, caller: AccountId,
                            transferOk: bool, status: Status)
    requires id in stored
    ensures MarkCompletedOutcome(stored, id).Return? ==>
      MarkCompletedOutcome(stored, id).value.copy.delivered == stored[id].delivered
    ensures MakePaymentOutcome(stored, id, owner, caller, transferOk).Return? ==>
      MakePaymentOutcome(stored, id, owner, caller, transferOk).value.copy.delivered == stored[id].delivered
    ensures ChangeStatusOutcome(stored, id, owner, caller, status).Return? ==>
      ChangeStatusOutcome(stored, id, owner, caller, status).value.copy.delivered == stored[id].delivered
  {
  }

  class BurgerShop {
    var orders: seq<(U32, Order)>
    var ordersMapping: map<U32, Order>
    var shopOwner: AccountId

    ghost predicate Valid()
      reads this
    {
      Consistent(orders, ordersMapping)
    }

    /** `new()`: an empty ledger, owned by the instantiating account. */
    constructor (caller: AccountId)
      ensures Valid()
      ensures orders == [] && ordersMapping == map[] && shopOwner == caller
    {
      orders := [];
      ordersMapping := map[];
      shopOwner := caller;
    }

    /** `get_orders()`: the whole list, in creation order. */
    method GetOrders() returns (r: seq<(U32, Order)>)
      ensures r == orders
      ensures Valid() ==> forall i :: 0 <= i < |r| ==> r[i].0 == i && ordersMapping[i] == r[i].1
    {
      r := orders;
    }

    /** `new_order(order)`: anyone may store any order; nothing about it is checked. */
    method NewOrder(order: Order)
      modifies this
      ensures orders == old(orders) + [(NextId(old(orders)), order)]
      ensures ordersMapping == old(ordersMapping)[NextId(old(orders)) := order]
      ensures shopOwner == old(shopOwner)
      ensures old(Valid()) && |old(orders)| < U32Modulus ==> Valid()
    {
      var count := NextId(orders);
      if Valid() && |orders| < U32Modulus {
        AppendKeepsConsistent(orders, ordersMapping, order);
      }
      ordersMapping := ordersMapping[count := order];
      orders := orders + [(count, order)];
    }

    /** `get_single_order(id)`: the stored order under `id`, or a panic. */
    method GetSingleOrder(id: U32) returns (r: Outcome<(U32, Order)>)
      ensures id in ordersMapping ==> r == Return((id, ordersMapping[id]))
      ensures id !in ordersMapping ==> r == Trap(NotFoundInGet)
      ensures Valid() ==> (r.Return? <==> id < |orders|)
      ensures Valid() && id < |orders| ==> r.value == orders[id]
    {
      if Valid() {
        ConsistentLookup(orders, ordersMapping, id);
      }
      if id !in ordersMapping {
        return Trap(NotFoundInGet);
      }
      r := Return((id, ordersMapping[id]));
    }

    /** `mark_completed(id)`: guards, then sets `completed` on a local copy that is
        never written back. */
    method MarkCompleted(id: U32) returns (r: Outcome<Reply<Result<()>>>)
      modifies this
      ensures orders == old(orders) && ordersMapping == old(ordersMapping) && shopOwner == old(shopOwner)
      ensures r == MarkCompletedOutcome(old(ordersMapping), id)
    {
      if id !in ordersMapping {
        return Trap(NotFound);
      }
      var order := ordersMapping[id];
      if order.completed {
        return Trap(AlreadyCompleted);
      }
      if !order.paid {
        return Trap(NotPaid);
      }
      if !order.delivered {
        return Trap(NotDelivered);
      }
      if order.status != Delivered {
        return Trap(NotDelivered);
      }
      if order.paid && order.delivered && order.status == Delivered {
        order := order.(completed := true);
        r := Return(Reply(Ok(()), order));
      } else {
        r := Return(Reply(Err(OrderNotCompleted), order));
      }
    }

    /** `make_payment(id)`: guards in the contract's order, then a transfer of the
        order's own price to the shop owner; on success the local copy becomes paid
        and `Preparing`, and it is never written back. */
    method MakePayment(id: U32, caller: AccountId, transferOk: bool) returns (r: Outcome<Payment>)
      modifies this
      ensures orders == old(orders) && ordersMapping == old(ordersMapping) && shopOwner == old(shopOwner)
      ensures r == MakePaymentOutcome(old(ordersMapping), id, old(shopOwner), caller, transferOk)
    {
      if id !in ordersMapping {
        return Trap(NotFound);
      }
      var order := ordersMapping[id];
      if order.paid {
        return Trap(AlreadyPaid);
      }
      if caller != order.customer {
        return Trap(NotCustomer);
      }
      if order.completed {
        return Trap(AlreadyCompleted);
      }
      if order.delivered {
        return Trap(AlreadyDelivered);
      }
      var transfer := Transfer(shopOwner, order.price);
      if transferOk {
        order := order.(paid := true);
        order := order.(status := Preparing);
        r := Return(Payment(transfer, Ok(()), order));
      } else {
        r := Return(Payment(transfer, Err(PaymentError), order));
      }
    }

    /** `change_status(id, status)`: only the owner, only before completion, and any
        status at all; the local copy is never written back. */
    method ChangeStatus(id: U32, caller: AccountId, status: Status) returns (r: Outcome<Reply<()>>)
      modifies this
      ensures orders == old(orders) && ordersMapping == old(ordersMapping) && shopOwner == old(shopOwner)
      ensures r == ChangeStatusOutcome(old(ordersMapping), id, old(shopOwner), caller, status)
    {
      if id !in ordersMapping {
        return Trap(NotFound);
      }
      var order := ordersMapping[id];
      if caller != shopOwner {
        return Trap(NotShopOwner);
      }
      if order.completed {
        return Trap(AlreadyCompleted);
      }
      order := order.(status := status);
      r := Return(Reply((), order));
    }
  }

  /** Because payment is never written back, the customer of a fresh order can call
      `make_payment` twice, and each call has the contract transfer the price from its
      own balance to the owner. */
  method PayTwice(owner: AccountId, customer: AccountId, menu: string, price: U32)
    returns (first: Outcome<Payment>, second: Outcome<Payment>)
    ensures first == second
    ensures first.Return? && first.value.value == Ok(())
    ensures first.value.transfer == Transfer(owner, price)
  {
    var shop := new BurgerShop(owner);
    shop.NewOrder(Order(menu, customer, price, 1, false, false, DefaultStatus, false));
    first := shop.MakePayment(0, customer, true);
    second := shop.MakePayment(0, customer, true);
  }

  /** After a successful payment and the owner moving the order to `Delivered`, the
      stored order is still unpaid, because no message writes its copy back, so
      `mark_completed` panics. */
  method LifecycleNeverCompletes(owner: AccountId, customer: AccountId, menu: string, price: U32)
    returns (paid: Outcome<Payment>, sent: Outcome<Reply<()>>, delivered: Outcome<Reply<()>>,
             completion: Outcome<Reply<Result<()>>>)
    ensures paid.Return? && paid.value.value == Ok(())
    ensures sent.Return? && delivered.Return? && delivered.value.copy.status == Delivered
    ensures completion == Trap(NotPaid)
  {
    var shop := new BurgerShop(owner);
    shop.NewOrder(Order(menu, customer, price, 1, false, false, DefaultStatus, false));
    paid := shop.MakePayment(0, customer, true);
    sent := shop.ChangeStatus(0, owner, SentForDelivery);
    delivered := shop.ChangeStatus(0, owner, Delivered);
    completion := shop.MarkCompleted(0);
  }

  /** Instantiating the contract and then calling `new_order` once for each of
      `submitted`, in order, builds exactly the ledger `Replay(submitted)`. */
  method PlaceOrders(owner: AccountId, submitted: seq<Order>) returns (shop: BurgerShop)
    requires |submitted| <= U32Modulus
    ensures fresh(shop)
    ensures shop.orders == Replay(submitted).0 && shop.ordersMapping == Replay(submitted).1
    ensures shop.shopOwner == owner && shop.Valid()
    ensures forall i :: 0 <= i < |submitted| ==> shop.orders[i] == (i, submitted[i])
  {
    shop := new BurgerShop(owner);
    var i := 0;
    while i < |submitted|
      invariant 0 <= i <= |submitted|
      invariant shop.orders == Replay(submitted[..i]).0 && shop.ordersMapping == Replay(submitted[..i]).1
      invariant shop.shopOwner == owner
    {
      assert submitted[..i + 1][..i] == submitted[..i];
      shop.NewOrder(submitted[i]);
      i := i + 1;
    }
    assert submitted[..i] == submitted;
  }
}
