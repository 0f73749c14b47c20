# Decentralized marketplace ledger

A model of the mock marketplace contract in
`tests/decentralized-marketplace.test.ts`. Sellers list items held in a
supply-chain registry. Buyers order units of a listing and pay for them at
once in STX. The seller then fulfils the order, which asks the registry to
hand the item over to the buyer.

The state has five parts:

- the listings, keyed by id;
- the orders, keyed by id;
- two counters, one for listing ids and one for order ids;
- the STX balances, keyed by principal.

A failed call returns error 101 (not found), 102 (not authorised),
103 (insufficient quantity) or 104 (insufficient funds).

The project has four modules:

- `Balances`: the balance map, in which a missing entry reads as zero. It
  defines `Total`, the sum of all balances, and `Pay`, the buyer-then-seller
  payment.
- `Marketplace`: the state as a value (`Store`). Each operation has a step
  function that gives its result and the new store, and its contract says
  exactly what changes and what does not. This module also holds the
  invariant `Consistent` (ids are dense from 1 up to their counter, and
  every order names an existing listing) and the lemmas that each operation
  keeps it. It holds the quantity accounting (`Tally`, `Committed`) and
  lemmas over whole runs of operations (`Apply`, `Run`).
- `Ledgers`: the contract as an object whose fields are updated in place,
  as the source updates its module-level variables. Each method is proved
  to leave the fields exactly as the matching step function says.
  `GetListing` and `GetOrder` are functions that read the fields.
- `Scenarios`: the six test cases, plus the unauthorised-listing path,
  replayed on a fresh `Ledger` with the test-suite wallets and starting
  balances. Each one ends with the values the tests expect.

The registry is outside the core:

- The owner that `getFoodItem(itemId).current_owner` reports is a parameter
  of `CreateListing`.
- Each `transferOwnership` call is appended to the log `transfers`.

## Model

| member | source | states |
|---|---|---|
| Balances.Balance | tests/decentralized-marketplace.test.ts:56 | a principal without an entry has balance 0; otherwise its balance is the stored entry (the same default-zero lookup reads the units ordered per listing) |
| Balances.Pay | tests/decentralized-marketplace.test.ts:60-61 | the payer loses `amount` and the payee gains it, and a principal paying itself ends unchanged; no other balance changes; the payer and payee get entries; the total of all balances is unchanged |
| Balances.TotalRemove | tests/decentralized-marketplace.test.ts:8 | the total of the balance map splits at any entry, whichever entry is removed |
| Balances.TotalUpdate | tests/decentralized-marketplace.test.ts:8 | overwriting one balance changes the total by exactly the difference |
| Balances.PayKeepsNonNegative | tests/decentralized-marketplace.test.ts:56-61 | a payment of a non-negative amount that the payer can cover keeps every balance non-negative |
| Marketplace.Code | tests/decentralized-marketplace.test.ts:19-89 | the four errors have the codes 101, 102, 103 and 104, and these are distinct |
| Marketplace.Initial | tests/decentralized-marketplace.test.ts:4-8 | a fresh contract satisfies the invariant: no listings and no orders, both counters at 0, an empty transfer log and the given balances |
| Marketplace.CreateListingStep | tests/decentralized-marketplace.test.ts:19-32 | fails with 102, changing nothing, exactly when the sender is not the item's current owner. Otherwise it returns the next listing id, stores an active listing with the given seller, item, price and quantity under it, and changes nothing else; the order counter stays put |
| Marketplace.UpdateListingStep | tests/decentralized-marketplace.test.ts:34-45 | fails with 101 exactly when the listing does not exist and with 102 exactly when the sender is not its seller, changing nothing in either case. It succeeds exactly when the listing exists and the sender is its seller, and then it overwrites only the price and quantity, keeps the seller, item and status, and changes nothing else |
| Marketplace.CreateOrderStep | tests/decentralized-marketplace.test.ts:47-75 | checks in this order: 101 when the listing is missing, 103 when the quantity exceeds its stock, 104 when the sender's balance is below price×quantity. Each is stated as an if-and-only-if, and a failure changes nothing. It succeeds exactly when all three checks pass, and then it returns the next order id and stores a created order with buyer, listing, quantity and total price. The buyer pays the total to the seller and the total of all balances is unchanged. The listing's quantity drops by the ordered units and stays non-negative. The listing counter, the other listings and the transfer log are unchanged |
| Marketplace.FulfillOrderStep | tests/decentralized-marketplace.test.ts:77-89 | fails with 101 exactly when the order does not exist and with 102 exactly when the sender is not the seller of its listing, changing nothing. It succeeds exactly when the order exists and the sender is its listing's seller, and then it appends one transfer of the listing's item to the buyer and marks the order fulfilled; nothing else changes, including balances and quantities |
| Marketplace.RepeatFulfillTransfersAgain | tests/decentralized-marketplace.test.ts:77-89 | fulfilment is not idempotent: fulfilling an already fulfilled order succeeds again, leaves the orders as they were and logs the same transfer a second time |
| Marketplace.CreateOrderKeepsNonNegative | tests/decentralized-marketplace.test.ts:52-61 | with non-negative balances, a non-negative listing price and a non-negative order quantity, every balance stays non-negative after createOrder |
| Marketplace.NegativeQuantityOrderPaysBuyer | tests/decentralized-marketplace.test.ts:52-72 | a negative order quantity passes every check: the buyer is paid by the seller and the listing gains units |
| Marketplace.CreateListingKeepsConsistent | tests/decentralized-marketplace.test.ts:23-24 | createListing keeps the listing ids dense from 1 to the counter and every order's listing present; a new listing id was never used before |
| Marketplace.UpdateListingKeepsConsistent | tests/decentralized-marketplace.test.ts:42-43 | updateListing keeps the invariant |
| Marketplace.CreateOrderKeepsConsistent | tests/decentralized-marketplace.test.ts:63-72 | createOrder keeps the invariant; a new order id was never used before |
| Marketplace.FulfillOrderKeepsConsistent | tests/decentralized-marketplace.test.ts:82-87 | under the invariant, an existing order's listing can always be looked up, and fulfilOrder keeps the invariant |
| Marketplace.TallyFrame | tests/decentralized-marketplace.test.ts:64-70 | the units ordered per listing depend only on the listing id and quantity of each order, not on its status, buyer or price |
| Marketplace.TallyUnreferenced | tests/decentralized-marketplace.test.ts:64-70 | a listing that no order names has 0 units ordered |
| Marketplace.TallyRecord | tests/decentralized-marketplace.test.ts:63-70 | recording a new order adds its quantity to its listing's ordered units and to no other listing |
| Marketplace.CreateListingCommitted | tests/decentralized-marketplace.test.ts:23-30 | a new listing has no units ordered, and its ordered plus offered units equal its quantity; other listings keep theirs |
| Marketplace.CreateOrderCommitted | tests/decentralized-marketplace.test.ts:63-72 | an order moves units from a listing's offer to its ordered count, so no listing's ordered plus offered units change |
| Marketplace.FulfillOrderCommitted | tests/decentralized-marketplace.test.ts:86-87 | fulfilment changes no listing's ordered plus offered units |
| Marketplace.UpdateListingCommitted | tests/decentralized-marketplace.test.ts:42-43 | an update resets the updated listing's ordered plus offered units to its earlier ordered units plus the new quantity, whatever was sold; other listings keep theirs |
| Marketplace.Apply | tests/decentralized-marketplace.test.ts:19-89 | any one mutating call keeps the invariant and removes no listing |
| Marketplace.Run | tests/decentralized-marketplace.test.ts:19-89 | any sequence of mutating calls keeps the invariant and removes no listing |
| Marketplace.RunConservesTotal | tests/decentralized-marketplace.test.ts:55-61 | no sequence of calls creates or destroys STX: the total of all balances is unchanged |
| Marketplace.RunKeepsCommitted | tests/decentralized-marketplace.test.ts:52-72 | in a sequence with no updateListing, each listing's ordered plus offered units stay what they were; for a new listing this is its quantity at creation |
| Marketplace.ApplyKeepsStock | tests/decentralized-marketplace.test.ts:52-72 | one call other than updateListing keeps a listing whose stock is not negative present, with stock still not negative, because an order takes at most the units on offer |
| Marketplace.RunNeverOversells | tests/decentralized-marketplace.test.ts:52-72 | in a sequence with no updateListing, a listing whose stock starts not negative keeps it not negative, so the units ordered against it never exceed its ordered plus offered units at the start |
| Marketplace.CreatedListingNeverOversold | tests/decentralized-marketplace.test.ts:19-32 | a listing created with a quantity that is not negative never has more units ordered against it than that quantity, over any later sequence without updateListing |
| Ledgers.Ledger.constructor | tests/decentralized-marketplace.test.ts:100-109 | a new ledger is the initial store over the given balances and satisfies the invariant |
| Ledgers.Ledger.CreateListing | tests/decentralized-marketplace.test.ts:19-32 | updates the fields in place exactly as CreateListingStep says and keeps the invariant |
| Ledgers.Ledger.UpdateListing | tests/decentralized-marketplace.test.ts:34-45 | updates the fields in place exactly as UpdateListingStep says and keeps the invariant |
| Ledgers.Ledger.CreateOrder | tests/decentralized-marketplace.test.ts:47-75 | updates the fields in place exactly as CreateOrderStep says and keeps the invariant |
| Ledgers.Ledger.FulfillOrder | tests/decentralized-marketplace.test.ts:77-89 | updates the fields in place exactly as FulfillOrderStep says and keeps the invariant; an existing order's listing is always there |
| Ledgers.Ledger.GetListing | tests/decentralized-marketplace.test.ts:91-93 | returns nothing exactly when the listing id is unknown, and otherwise the stored listing; it only reads the ledger |
| Ledgers.Ledger.GetOrder | tests/decentralized-marketplace.test.ts:95-97 | returns nothing exactly when the order id is unknown, and otherwise the stored order; it only reads the ledger |
| Scenarios.CreateListingScenario | tests/decentralized-marketplace.test.ts:111-126 | the first listing gets id 1 and is stored with seller wallet1, item 1, price 100, quantity 10 and active status |
| Scenarios.UnauthorizedListingScenario | tests/decentralized-marketplace.test.ts:19-22 | a sender that does not own the item gets error 102 and no listing is stored |
| Scenarios.UpdateListingScenario | tests/decentralized-marketplace.test.ts:128-139 | after the update, listing 1 has price 120 and quantity 8 |
| Scenarios.CreateOrderScenario | tests/decentralized-marketplace.test.ts:141-165 | the first order gets id 1 and is stored as buyer wallet2, listing 1, quantity 2, total 200, created. wallet1 holds 10200, wallet2 holds 4800, and the listing has 8 left |
| Scenarios.FulfillOrderScenario | tests/decentralized-marketplace.test.ts:167-179 | fulfilment succeeds, order 1 is fulfilled and the registry is asked once to transfer item 1 to wallet2 |
| Scenarios.InsufficientQuantityScenario | tests/decentralized-marketplace.test.ts:181-190 | ordering 15 of 10 units fails with 103 and leaves the listing and the balances as they were |
| Scenarios.InsufficientFundsScenario | tests/decentralized-marketplace.test.ts:192-201 | ordering 6 units at 1000 with a balance of 5000 fails with 104 and leaves the listing and the balances as they were |

## Left out

- The mock registry (lines 11-16) is outside the model. The owner that
  `getFoodItem` reports is a parameter of createListing. The mock always
  answers wallet1, and the scenarios pass wallet1.
- `transferOwnership` is recorded in the `transfers` log. Its
  `{ success: true }` result is ignored, as the source ignores it, so a
  registry that refuses a transfer is not modelled.
- JavaScript number semantics are not modelled. Amounts are unbounded
  integers, with no floating-point rounding, no overflow to infinity and no
  non-integer prices or quantities.
- A buyer without a balance entry who is not the seller: line 56 reads the
  missing entry as 0, so the funds check passes only for a total of 0 or
  less, and line 60 then stores `NaN`. The model reads a missing entry as 0
  throughout, so this buyer ends with `-total` instead of `NaN`.
- A buyer without a balance entry who is also the seller: line 60 stores
  `NaN`, then line 61 reads it as 0 and stores `total`. In the model `Pay`
  leaves a self-payment unchanged, so this principal ends with 0 instead of
  `total`.
- Listing and order ids are natural numbers. The source also answers a
  negative or fractional `listingId` or `orderId` with 101 (lines 35-37,
  48-50 and 78-80). The model cannot express those calls.
- Negative prices and quantities, and order quantity 0, are accepted, as in
  the source. There is no validation of them. Non-negative balances are
  therefore proved only under non-negative inputs
  (`Balances.PayKeepsNonNegative`, `Marketplace.CreateOrderKeepsNonNegative`).
- Marketplace.UpdateListingCommitted: updateListing does not check the new
  quantity against the units already ordered, so this lemma states the reset
  and not a bound. `Marketplace.RunKeepsCommitted` and
  `Marketplace.RunNeverOversells` exclude updateListing for the same reason.
  A listing created with a negative quantity starts oversold, so the
  no-oversell lemmas require stock that is not negative.
- Object identity and aliasing: `getListing` and `getOrder` return the
  stored JavaScript objects themselves, and a caller could mutate them. The
  model returns values. The `|| null` of lines 92 and 96 is modelled as
  `None`.
- The JavaScript field names `item_id`, `listing_id` and `total_price`
  become `itemId`, `listingId` and `totalPrice`. The status strings
  `'active'`, `'created'` and `'fulfilled'` become enumerations. No status
  is ever set to anything else, so the model has no cancelled or sold-out
  status.
- The vitest harness (`describe`, `it`, `expect`, the `beforeEach` reset)
  is not modelled. Each scenario starts from a fresh `Ledger` instead.
- Concurrency is not modelled: each call runs to completion on its own.
