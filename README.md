# BurgerShop order ledger, modelled in Dafny

`burger_shop.dfy` models the `BurgerShop` ink! smart contract (`lib.rs`). The contract keeps a
ledger of burger orders twice: once as a list of `(id, order)` pairs (`orders`) and once as an
id-to-order mapping (`orders_mapping`). It also records the account that instantiated it
(`shop_owner`). Its messages:

- `new_order` stores any order a caller submits.
- `get_orders` and `get_single_order` read the ledger.
- `mark_completed`, `make_payment` and `change_status` check an order against a list of
  conditions and then update a local copy of it.

The model is the module `BurgerShopContract`:

- `Order`, `Status`, `Error` and `Result` are datatypes. `Status::default()` is the constant
  `DefaultStatus`.
- `u32` is the subset type `U32`. The `len() as u32` cast that assigns ids keeps the low 32 bits,
  so `NextId` models it as the remainder modulo 2^32.
- The contract is the class `BurgerShop`, with fields `orders`, `ordersMapping` and `shopOwner`.
  Each message is a method.
- The host's `env().caller()` becomes a `caller` parameter. The outcome of `env().transfer(..)`
  becomes a `transferOk` parameter.
- Every `assert!` or `expect` panic becomes the outcome `Trap(message)`, carrying the contract's
  own panic text. The host reverts a panicking call. `GetSingleOrder` has no `modifies` clause,
  and the contracts of `MarkCompleted`, `MakePayment` and `ChangeStatus` state that all fields
  are unchanged.
- `mark_completed`, `make_payment` and `change_status` change fields of a local copy fetched with
  `orders_mapping.get(id)`, and never insert that copy back. The model keeps this behaviour. Each
  method returns the updated copy (`Reply.copy`, `Payment.copy`), which states the intended
  effect. Its contract also proves that `orders`, `ordersMapping` and `shopOwner` are unchanged.
- The pure functions `MarkCompletedOutcome`, `MakePaymentOutcome` and `ChangeStatusOutcome` give
  the outcome of each of these messages on the stored mapping. The class methods are proved equal
  to them.
- `Consistent` is the ledger invariant: entry `i` of the list has id `i` and equals the mapping's
  entry for `i`, and the mapping has no other keys. The constructor establishes it. `new_order`
  keeps it while fewer than 2^32 orders exist. At 2^32 orders the id would wrap to 0 and break
  it (`WrappedIdBreaksConsistent`). That case is only theoretical. On a 32-bit `usize` the list
  length cannot reach 2^32, and the host's limit on the size of a stored value stops
  `new_order` long before that.
- `WellFormed` is the invariant the guards of `mark_completed` and `make_payment` suggest. A
  completed order is paid, delivered and `Delivered`. A paid order has left
  `GettingIngredients`.

What the contract does and does not check:

- `new_order` stores the submitted `Order` as it is, for any caller. Its `customer`, `price`,
  `paid`, `delivered`, `completed` and `status` fields are whatever the caller put there. A
  stored order therefore need not be `WellFormed`.
- `make_payment` is not payable, so the customer sends nothing with it. The contract transfers
  the order's own `price` field from its own balance to the shop owner.
- The failures are panics, not error values. The only error values are `PaymentError` (failed
  transfer) and `OrderNotCompleted`. `OrderNotCompleted` is unreachable
  (`MarkCompletedNeverErrs`).
- `make_payment` rejects an order that is `delivered`. It does not check the status.
- `change_status` has no paid check and no forward-only check (`ChangeStatusCanResetPaidOrder`).
- `mark_completed` has no caller check.
- No message after `new_order` changes a stored order, because no copy is written back. A
  second `make_payment` therefore succeeds, and the contract transfers the price to the owner
  again (`PayTwice`). Paying and then moving the order to `Delivered` leaves it stored unpaid, so
  `mark_completed` still panics (`LifecycleNeverCompletes`).
- No message sets `delivered`; only the submitter of `new_order` chooses it
  (`CopiesKeepDelivered`). Even with write-back, an order submitted undelivered could never be
  completed. An order submitted already paid, delivered and `Delivered` can be completed at once.

## Model

| member | source | states |
|---|---|---|
| `BurgerShopContract.NextId` | lib.rs:92 | the new id is the list length while that is below 2^32, and wraps to 0 at 2^32 |
| `BurgerShopContract.AppendKeepsConsistent` | lib.rs:91-95 | appending `(NextId, order)` to the list and inserting it into the mapping under that id keeps the ledger invariant when fewer than 2^32 orders are stored |
| `BurgerShopContract.WrappedIdBreaksConsistent` | lib.rs:92-94 | with 2^32 orders stored, the next id is 0, and after the push the list and the mapping no longer agree |
| `BurgerShopContract.Replay` | lib.rs:73-95 | instantiating the contract and then calling `new_order` on each submitted order gives a consistent ledger whose `i`-th entry is `(i, i-th order)` |
| `BurgerShopContract.ConsistentLookup` | lib.rs:86-101 | in a consistent ledger, `id` is a mapping key exactly when it is a list position, and the mapping and the list hold the same order for it |
| `BurgerShopContract.MarkCompletedOutcome` | lib.rs:104-118 | returns exactly when the order exists, is not completed, is paid, delivered and `Delivered`, and the result is then `Ok` with a copy marked completed; otherwise it traps with the message of the first failing check |
| `BurgerShopContract.MarkCompletedNeverErrs` | lib.rs:112-117 | `mark_completed` never returns `Err(OrderNotCompleted)` |
| `BurgerShopContract.CompletedCopyIsWellFormed` | lib.rs:107-114 | whatever was stored, a successful completion gives a well-formed copy with `completed` set |
| `BurgerShopContract.MakePaymentOutcome` | lib.rs:121-144 | traps when the order is missing, paid, not the caller's, completed or delivered (checked in that order); otherwise requests a transfer of the order's price from the contract's balance to the owner, and returns `Ok` with a copy that is paid and `Preparing` if the transfer succeeds, or `Err(PaymentError)` with the copy unchanged if it fails |
| `BurgerShopContract.PaidCopyIsWellFormed` | lib.rs:122-140 | whatever was stored, a successful payment gives a well-formed paid copy |
| `BurgerShopContract.CopiesKeepDelivered` | lib.rs:104-158 | the copies returned by `mark_completed`, `make_payment` and `change_status` keep the stored order's `delivered` flag |
| `BurgerShopContract.ChangeStatusOutcome` | lib.rs:147-158 | returns exactly when the order exists, the caller is the shop owner and the order is not completed, and the copy then has the requested status, whatever it was; otherwise it traps with the first failing check's message |
| `BurgerShopContract.ChangeStatusCanResetPaidOrder` | lib.rs:147-158 | the owner can reset a paid, uncompleted order's status to `GettingIngredients` while it stays paid, which is not well-formed |
| `BurgerShopContract.BurgerShop.constructor` | lib.rs:73-80 | the ledger starts empty and consistent, and the shop owner is the instantiating caller |
| `BurgerShopContract.BurgerShop.GetOrders` | lib.rs:86-88 | returns the stored list itself; in a consistent ledger entry `i` has id `i` and matches the mapping |
| `BurgerShopContract.BurgerShop.NewOrder` | lib.rs:91-95 | the list grows by exactly `(NextId, order)`, the mapping gains `order` under that id, the owner is unchanged, and consistency is kept below 2^32 orders |
| `BurgerShopContract.BurgerShop.GetSingleOrder` | lib.rs:98-101 | returns `(id, stored order)` when `id` is a key and traps with "Order not found!" otherwise; in a consistent ledger it returns exactly for list positions, giving the list's entry |
| `BurgerShopContract.BurgerShop.MarkCompleted` | lib.rs:104-118 | the outcome is `MarkCompletedOutcome` on the stored mapping, and all three fields are unchanged |
| `BurgerShopContract.BurgerShop.MakePayment` | lib.rs:121-144 | the outcome is `MakePaymentOutcome` on the stored mapping and owner, and all three fields are unchanged |
| `BurgerShopContract.BurgerShop.ChangeStatus` | lib.rs:147-158 | the outcome is `ChangeStatusOutcome` on the stored mapping and owner, and all three fields are unchanged |
| `BurgerShopContract.PlaceOrders` | lib.rs:73-95 | a contract that is created and then sent `new_order` for each submitted order, in order, holds exactly `Replay` of them: a consistent ledger whose entry `i` is `(i, i-th order)`, owned by the creator |
| `BurgerShopContract.PayTwice` | lib.rs:120-144 | paying for a fresh order twice succeeds twice, with the same transfer of its price from the contract to the owner |
| `BurgerShopContract.LifecycleNeverCompletes` | lib.rs:103-158 | after a successful payment and the owner setting `SentForDelivery` and then `Delivered`, `mark_completed` still traps with "Order not paid!" |

## Left out

- The ink! attributes, the storage-layout and `TypeInfo` derives, and the SCALE `Encode`/`Decode` derives: these are host and codec plumbing.
- The host's `caller()` and `transfer()`: they are inputs only. Balances, gas, existential deposits and the `u128` balance type are not modelled. The requested transfer amount is the `u32` price as an unbounded integer, since the `into()` widening is lossless.
- Panic formatting and unwinding: a panic is just `Trap` with the message.
- The contents of `burger_menu` and `amount`: the contract never inspects them, so they are carried as uninterpreted fields.
- The payment and gas TODO comments, and the unit and end-to-end tests, which are commented out.
- Concurrency: the host runs contract calls one at a time.
- The host's limit on the size of a stored value. The whole `orders` list is stored as one value, so on chain `new_order` traps once the list grows too large. `NewOrder` never traps.
