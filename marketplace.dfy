/** The marketplace ledger as values: listings and orders indexed by dense
    1-based ids, two id counters, a balance ledger, and the log of ownership
    transfers requested from the external supply-chain registry. Each of the
    four mutating operations is a step function from one store to the next
    together with the operation's result; the `Ledger` class in module
    `Ledgers` performs the same steps in place. */
module Marketplace {

  import opened Balances

  datatype Option<T> = None | Some(value: T)

  datatype ListingStatus = Active
  datatype OrderStatus = Created | Fulfilled

  datatype Listing = Listing(seller: Principal, itemId: int, price: int, quantity: int, status: ListingStatus)
  datatype Order = Order(buyer: Principal, listingId: nat, quantity: int, totalPrice: int, status: OrderStatus)

  /** The four failure kinds of the ledger's operations. */
  datatype Error = NotFound | NotAuthorized | InsufficientQuantity | InsufficientFunds

  /** The numeric code each failure is reported with. */
  function Code(e: Error): (c: nat)
    ensures 101 <= c <= 104
    ensures e == NotFound <==> c == 101
    ensures e == NotAuthorized <==> c == 102
    ensures e == InsufficientQuantity <==> c == 103
    ensures e == InsufficientFunds <==> c == 104
  {
    match e
    case NotFound => 101
    case NotAuthorized => 102
    case InsufficientQuantity => 103
    case InsufficientFunds => 104
  }

  datatype Result<T> = Ok(value: T) | Err(error: Error)

  /** One call of the registry's transferOwnership. */
  datatype Transfer = Transfer(itemId: int, newOwner: Principal)

  /** Everything the ledger stores. */
  datatype Store = Store(
    listings: map<nat, Listing>,
    orders: map<nat, Order>,
    lastListingId: nat,
    lastOrderId: nat,
    balances: map<Principal, int>,
    transfers: seq<Transfer>)

  /** What an operation returns, and the store it leaves behind. */
  datatype Step<T> = Step(result: Result<T>, store: Store)

  /** `m'` is `m` except possibly at key `k`. */
  ghost predicate AgreeExcept<V>(m: map<nat, V>, m': map<nat, V>, k: nat)
  {
    forall j :: j != k ==> (j in m <==> j in m') && (j in m ==> m[j] == m'[j])
  }

  /** Keys 1..last, each present. */
  ghost predicate Dense<V>(m: map<nat, V>, last: nat)
  {
    forall id :: id in m <==> 1 <= id <= last
  }

  /** The store's invariant: dense 1-based ids for both kinds of record, and
      every order against a stored listing. */
  ghost predicate Consistent(s: Store)
  {
    && Dense(s.listings, s.lastListingId)
    && Dense(s.orders, s.lastOrderId)
    && forall id :: id in s.orders ==> s.orders[id].listingId in s.listings
  }

  /** The empty store whose participants hold `balances`. */
  function Initial(balances: map<Principal, int>): (s: Store)
    ensures Consistent(s)
    ensures s.listings == map[] && s.orders == map[] && s.transfers == []
    ensures s.lastListingId == 0 && s.lastOrderId == 0 && s.balances == balances
  {
    Store(map[], map[], 0, 0, balances, [])
  }

  // ----- the four operations -----

  /** createListing: only the item's current owner, as the registry reports
      it (`currentOwner`), may list it; the listing gets the next id. */
  function CreateListingStep(s: Store, sender: Principal, itemId: int, price: int, quantity: int,
                             currentOwner: Principal): (r: Step<nat>)
    ensures r.result.Err? <==> sender != currentOwner
    ensures r.result.Err? ==> r.result.error == NotAuthorized && r.store == s
    ensures r.result.Ok? ==>
      var id := r.result.value;
      && id == s.lastListingId + 1 && r.store.lastListingId == id
      && id in r.store.listings && r.store.listings[id] == Listing(sender, itemId, price, quantity, Active)
      && AgreeExcept(s.listings, r.store.listings, id)
      && r.store.orders == s.orders && r.store.lastOrderId == s.lastOrderId
      && r.store.balances == s.balances && r.store.transfers == s.transfers
  {
    if sender != currentOwner then Step(Err(NotAuthorized), s)
    else
      var id := s.lastListingId + 1;
      Step(Ok(id), s.(listings := s.listings[id := Listing(sender, itemId, price, quantity, Active)],
                      lastListingId := id))
  }

  /** updateListing: the seller overwrites price and quantity. */
  function UpdateListingStep(s: Store, sender: Principal, listingId: nat, newPrice: int, newQuantity: int)
    : (r: Step<()>)
    ensures r.result == Err(NotFound) <==> listingId !in s.listings
    ensures r.result == Err(NotAuthorized) <==> listingId in s.listings && s.listings[listingId].seller != sender
    ensures r.result.Ok? <==> listingId in s.listings && s.listings[listingId].seller == sender
    ensures r.result.Err? ==> r.store == s
    ensures r.result.Ok? ==>
      var l := s.listings[listingId];
      && listingId in r.store.listings
      && r.store.listings[listingId] == Listing(l.seller, l.itemId, newPrice, newQuantity, l.status)
      && AgreeExcept(s.listings, r.store.listings, listingId)
      && r.store.orders == s.orders
      && r.store.lastListingId == s.lastListingId && r.store.lastOrderId == s.lastOrderId
      && r.store.balances == s.balances && r.store.transfers == s.transfers
  {
    if listingId !in s.listings then Step(Err(NotFound), s)
    else
      var l := s.listings[listingId];
      if l.seller != sender then Step(Err(NotAuthorized), s)
      else Step(Ok(()), s.(listings := s.listings[listingId := l.(price := newPrice, quantity := newQuantity)]))
  }

  /** createOrder: checks the listing exists, then stock, then the buyer's
      funds against price * quantity; on success the buyer pays the seller,
      the order is recorded under the next id and its units leave the listing. */
  function CreateOrderStep(s: Store, sender: Principal, listingId: nat, quantity: int): (r: Step<nat>)
    ensures r.result == Err(NotFound) <==> listingId !in s.listings
    ensures r.result == Err(InsufficientQuantity) <==>
      listingId in s.listings && quantity > s.listings[listingId].quantity
    ensures r.result == Err(InsufficientFunds) <==>
      && listingId in s.listings && quantity <= s.listings[listingId].quantity
      && Balance(s.balances, sender) < s.listings[listingId].price * quantity
    ensures r.result.Ok? <==>
      && listingId in s.listings && quantity <= s.listings[listingId].quantity
      && Balance(s.balances, sender) >= s.listings[listingId].price * quantity
    ensures r.result.Err? ==> r.store == s
    ensures r.result.Ok? ==>
      var l := s.listings[listingId];
      var total := l.price * quantity;
      var id := r.result.value;
      && id == s.lastOrderId + 1 && r.store.lastOrderId == id
      && id in r.store.orders && r.store.orders[id] == Order(sender, listingId, quantity, total, Created)
      && AgreeExcept(s.orders, r.store.orders, id)
      && listingId in r.store.listings
      && r.store.listings[listingId] == Listing(l.seller, l.itemId, l.price, l.quantity - quantity, l.status)
      && r.store.listings[listingId].quantity >= 0
      && AgreeExcept(s.listings, r.store.listings, listingId)
      && (sender != l.seller ==> Balance(r.store.balances, sender) == Balance(s.balances, sender) - total)
      && (sender != l.seller ==> Balance(r.store.balances, l.seller) == Balance(s.balances, l.seller) + total)
      && (sender == l.seller ==> Balance(r.store.balances, sender) == Balance(s.balances, sender))
      && (forall p :: p != sender && p != l.seller ==> Balance(r.store.balances, p) == Balance(s.balances, p))
      && Total(r.store.balances) == Total(s.balances)
      && r.store.lastListingId == s.lastListingId && r.store.transfers == s.transfers
  {
    if listingId !in s.listings then Step(Err(NotFound), s)
    else
      var l := s.listings[listingId];
      if quantity > l.quantity then Step(Err(InsufficientQuantity), s)
      else
        var total := l.price * quantity;
        if Balance(s.balances, sender) < total then Step(Err(InsufficientFunds), s)
        else
          var id := s.lastOrderId + 1;
          Step(Ok(id), s.(balances := Pay(s.balances, sender, l.seller, total),
                          lastOrderId := id,
                          orders := s.orders[id := Order(sender, listingId, quantity, total, Created)],
                          listings := s.listings[listingId := l.(quantity := l.quantity - quantity)]))
  }

  /** An order's listing can be looked up (the invariant guarantees it). */
  ghost predicate Resolves(s: Store, orderId: nat)
  {
    orderId in s.orders ==> s.orders[orderId].listingId in s.listings
  }

  /** fulfillOrder: the seller of the order's listing asks the registry to
      transfer the item to the buyer and marks the order fulfilled. The
      registry's answer is not consulted, and an order already fulfilled can
      be fulfilled again. */
  function FulfillOrderStep(s: Store, sender: Principal, orderId: nat): (r: Step<()>)
    requires Resolves(s, orderId)
    ensures r.result == Err(NotFound) <==> orderId !in s.orders
    ensures r.result == Err(NotAuthorized) <==>
      orderId in s.orders && s.listings[s.orders[orderId].listingId].seller != sender
    ensures r.result.Ok? <==> orderId in s.orders && s.listings[s.orders[orderId].listingId].seller == sender
    ensures r.result.Err? ==> r.store == s
    ensures r.result.Ok? ==>
      var o := s.orders[orderId];
      && orderId in r.store.orders
      && r.store.orders[orderId] == Order(o.buyer, o.listingId, o.quantity, o.totalPrice, Fulfilled)
      && AgreeExcept(s.orders, r.store.orders, orderId)
      && r.store.transfers == s.transfers + [Transfer(s.listings[o.listingId].itemId, o.buyer)]
      && r.store.listings == s.listings && r.store.balances == s.balances
      && r.store.lastListingId == s.lastListingId && r.store.lastOrderId == s.lastOrderId
  {
    if orderId !in s.orders then Step(Err(NotFound), s)
    else
      var o := s.orders[orderId];
      var l := s.listings[o.listingId];
      if l.seller != sender then Step(Err(NotAuthorized), s)
      else Step(Ok(()), s.(transfers := s.transfers + [Transfer(l.itemId, o.buyer)],
                           orders := s.orders[orderId := o.(status := Fulfilled)]))
  }

  /** fulfillOrder is not idempotent: fulfilling the same order again
      succeeds, leaves the orders as they were, and asks the registry for
      the same transfer a second time. */
  lemma RepeatFulfillTransfersAgain(s: Store, sender: Principal, orderId: nat)
    requires Consistent(s)
    requires FulfillOrderStep(s, sender, orderId).result.Ok?
    ensures var first := FulfillOrderStep(s, sender, orderId).store;
      && Resolves(first, orderId)
      && var second := FulfillOrderStep(first, sender, orderId);
      && second.result.Ok?
      && second.store.orders == first.orders
      && |second.store.transfers| == |s.transfers| + 2
      && second.store.transfers[|s.transfers| + 1] == second.store.transfers[|s.transfers|]
  {
  }

  /** A paid order of a non-negative quantity at a non-negative price keeps
      every balance non-negative. */
  lemma CreateOrderKeepsNonNegative(s: Store, sender: Principal, listingId: nat, quantity: int)
    requires NonNegative(s.balances)
    requires quantity >= 0
    requires listingId in s.listings ==> s.listings[listingId].price >= 0
    ensures NonNegative(CreateOrderStep(s, sender, listingId, quantity).store.balances)
  {
    var r := CreateOrderStep(s, sender, listingId, quantity);
    if r.result.Ok? {
      var l := s.listings[listingId];
      PayKeepsNonNegative(s.balances, sender, l.seller, l.price * quantity);
    }
  }

  /** Nothing rejects a negative quantity: ordering -2 units at 100 passes
      every check, pays the buyer 200 out of the seller's balance and puts
      2 units back on the listing. */
  lemma NegativeQuantityOrderPaysBuyer()
    ensures
      var listed := CreateListingStep(Initial(map["seller" := 0, "buyer" := 0]), "seller", 1, 100, 10, "seller");
      var r := CreateOrderStep(listed.store, "buyer", 1, -2);
      && r.result == Ok(1)
      && Balance(r.store.balances, "buyer") == 200
      && Balance(r.store.balances, "seller") == -200
      && r.store.listings[1].quantity == 12
  {
  }

  // ----- the invariant is kept by every operation -----

  lemma CreateListingKeepsConsistent(s: Store, sender: Principal, itemId: int, price: int, quantity: int,
                                     currentOwner: Principal)
    requires Consistent(s)
    ensures var r := CreateListingStep(s, sender, itemId, price, quantity, currentOwner);
            Consistent(r.store) && (r.result.Ok? ==> r.result.value !in s.listings)
  {
  }

  lemma UpdateListingKeepsConsistent(s: Store, sender: Principal, listingId: nat, newPrice: int, newQuantity: int)
    requires Consistent(s)
    ensures Consistent(UpdateListingStep(s, sender, listingId, newPrice, newQuantity).store)
  {
  }

  lemma CreateOrderKeepsConsistent(s: Store, sender: Principal, listingId: nat, quantity: int)
    requires Consistent(s)
    ensures var r := CreateOrderStep(s, sender, listingId, quantity);
            Consistent(r.store) && (r.result.Ok? ==> r.result.value !in s.orders)
  {
  }

  lemma FulfillOrderKeepsConsistent(s: Store, sender: Principal, orderId: nat)
    requires Consistent(s)
    ensures Resolves(s, orderId) && Consistent(FulfillOrderStep(s, sender, orderId).store)
  {
  }

  // ----- quantity accounting -----

  /** Units ordered against each listing by the orders with ids 1..n. A
      listing's count is read with the default-zero lookup `Balance`, which
      here counts units, not money. */
  function Tally(orders: map<nat, Order>, n: nat): map<nat, int>
  {
    if n == 0 then map[]
    else
      var t := Tally(orders, n - 1);
      if n in orders then t[orders[n].listingId := Balance(t, orders[n].listingId) + orders[n].quantity]
      else t
  }

  /** Orders `o1` and `o2` agree on presence, listing and quantity at id k. */
  ghost predicate SameLine(o1: map<nat, Order>, o2: map<nat, Order>, k: nat)
  {
    (k in o1 <==> k in o2) &&
    (k in o1 ==> o1[k].listingId == o2[k].listingId && o1[k].quantity == o2[k].quantity)
  }

  /** The tally only looks at which listing each order is against and how
      many units it took, not at its buyer, price or status. */
  lemma {:induction false} TallyFrame(o1: map<nat, Order>, o2: map<nat, Order>, n: nat)
    requires forall k :: 1 <= k <= n ==> SameLine(o1, o2, k)
    ensures Tally(o1, n) == Tally(o2, n)
  {
    if n > 0 {
      assert SameLine(o1, o2, n);
      TallyFrame(o1, o2, n - 1);
    }
  }

  /** A listing no order refers to has no entry in the tally. */
  lemma {:induction false} TallyUnreferenced(orders: map<nat, Order>, n: nat, listingId: nat)
    requires forall k :: k in orders ==> orders[k].listingId != listingId
    ensures listingId !in Tally(orders, n)
  {
    if n > 0 {
      TallyUnreferenced(orders, n - 1, listingId);
    }
  }

  /** Recording order n + 1 adds its quantity to its own listing's count and
      leaves every other count as it was. */
  lemma TallyRecord(orders: map<nat, Order>, n: nat, o: Order)
    requires forall k :: k in orders ==> k <= n
    ensures var t := Tally(orders, n);
            Tally(orders[n + 1 := o], n + 1) == t[o.listingId := Balance(t, o.listingId) + o.quantity]
  {
    TallyFrame(orders, orders[n + 1 := o], n);
  }

  /** The units committed to a listing: those ordered against it so far plus
      those it still offers. */
  function Committed(s: Store, listingId: nat): int
    requires listingId in s.listings
  {
    Balance(Tally(s.orders, s.lastOrderId), listingId) + s.listings[listingId].quantity
  }

  /** A new listing starts with its whole quantity committed and none of it
      ordered; every other listing keeps its commitment. */
  lemma CreateListingCommitted(s: Store, sender: Principal, itemId: int, price: int, quantity: int,
                               currentOwner: Principal)
    requires Consistent(s)
    ensures var r := CreateListingStep(s, sender, itemId, price, quantity, currentOwner);
      && (r.result.Ok? ==> Balance(Tally(r.store.orders, r.store.lastOrderId), r.result.value) == 0
                           && Committed(r.store, r.result.value) == quantity)
      && forall id :: id in s.listings ==> id in r.store.listings && Committed(r.store, id) == Committed(s, id)
  {
    var r := CreateListingStep(s, sender, itemId, price, quantity, currentOwner);
    if r.result.Ok? {
      TallyUnreferenced(s.orders, s.lastOrderId, r.result.value);
    }
  }

  /** An order moves units from the listing's offer to its ordered count:
      no listing's commitment changes. */
  lemma CreateOrderCommitted(s: Store, sender: Principal, listingId: nat, quantity: int)
    requires Consistent(s)
    ensures var r := CreateOrderStep(s, sender, listingId, quantity);
      forall id :: id in s.listings ==> id in r.store.listings && Committed(r.store, id) == Committed(s, id)
  {
    var r := CreateOrderStep(s, sender, listingId, quantity);
    if r.result.Ok? {
      TallyRecord(s.orders, s.lastOrderId, r.store.orders[r.result.value]);
    }
  }

  /** Fulfilment changes only an order's status: no commitment changes. */
  lemma FulfillOrderCommitted(s: Store, sender: Principal, orderId: nat)
    requires Consistent(s)
    ensures Resolves(s, orderId)
    ensures var r := FulfillOrderStep(s, sender, orderId);
      forall id :: id in s.listings ==> id in r.store.listings && Committed(r.store, id) == Committed(s, id)
  {
    var r := FulfillOrderStep(s, sender, orderId);
    TallyFrame(r.store.orders, s.orders, s.lastOrderId);
  }

  /** An update resets the updated listing's commitment to its new quantity
      plus what was already ordered (nothing checks that the new quantity
      covers those orders); every other listing keeps its commitment. */
  lemma UpdateListingCommitted(s: Store, sender: Principal, listingId: nat, newPrice: int, newQuantity: int)
    ensures var r := UpdateListingStep(s, sender, listingId, newPrice, newQuantity);
      && (r.result.Ok? ==> Committed(r.store, listingId)
                           == Balance(Tally(s.orders, s.lastOrderId), listingId) + newQuantity)
      && forall id :: id in s.listings && (r.result.Err? || id != listingId) ==>
           id in r.store.listings && Committed(r.store, id) == Committed(s, id)
  {
  }

  // ----- runs of operations -----

  /** One call of a mutating operation; `currentOwner` is the registry's
      answer to getOwner at the time of a createListing call. */
  datatype Op =
    | CreateListingOp(sender: Principal, itemId: int, price: int, quantity: int, currentOwner: Principal)
    | UpdateListingOp(sender: Principal, listingId: nat, newPrice: int, newQuantity: int)
    | CreateOrderOp(sender: Principal, listingId: nat, orderQuantity: int)
    | FulfillOrderOp(sender: Principal, orderId: nat)

  /** The store after one operation. */
  function Apply(s: Store, op: Op): (s': Store)
    requires Consistent(s)
    ensures Consistent(s')
    ensures s.listings.Keys <= s'.listings.Keys
  {
    match op
    case CreateListingOp(sender, itemId, price, quantity, owner) =>
      CreateListingKeepsConsistent(s, sender, itemId, price, quantity, owner);
      CreateListingStep(s, sender, itemId, price, quantity, owner).store
    case UpdateListingOp(sender, listingId, price, quantity) =>
      UpdateListingKeepsConsistent(s, sender, listingId, price, quantity);
      UpdateListingStep(s, sender, listingId, price, quantity).store
    case CreateOrderOp(sender, listingId, quantity) =>
      CreateOrderKeepsConsistent(s, sender, listingId, quantity);
      CreateOrderStep(s, sender, listingId, quantity).store
    case FulfillOrderOp(sender, orderId) =>
      FulfillOrderKeepsConsistent(s, sender, orderId);
      FulfillOrderStep(s, sender, orderId).store
  }

  /** The store after a sequence of operations, applied in order. */
  function Run(s: Store, ops: seq<Op>): (s': Store)
    requires Consistent(s)
    ensures Consistent(s')
    ensures s.listings.Keys <= s'.listings.Keys
    decreases |ops|
  {
    if ops == [] then s else Run(Apply(s, ops[0]), ops[1..])
  }

  /** No run of operations creates or destroys money. */
  lemma {:induction false} RunConservesTotal(s: Store, ops: seq<Op>)
    requires Consistent(s)
    ensures Total(Run(s, ops).balances) == Total(s.balances)
    decreases |ops|
  {
    if ops != [] {
      RunConservesTotal(Apply(s, ops[0]), ops[1..]);
    }
  }

  ghost predicate NoUpdates(ops: seq<Op>)
  {
    forall i :: 0 <= i < |ops| ==> !ops[i].UpdateListingOp?
  }

  /** Absent updateListing, the units ordered against a listing plus those it
      still offers stay what they were: for a listing just created, its
      quantity at creation. */
  lemma {:induction false} RunKeepsCommitted(s: Store, ops: seq<Op>, listingId: nat)
    requires Consistent(s)
    requires listingId in s.listings
    requires NoUpdates(ops)
    ensures listingId in Run(s, ops).listings
    ensures Committed(Run(s, ops), listingId) == Committed(s, listingId)
    decreases |ops|
  {
    if ops != [] {
      var op := ops[0];
      match op {
        case CreateListingOp(sender, itemId, price, quantity, owner) =>
          CreateListingCommitted(s, sender, itemId, price, quantity, owner);
        case UpdateListingOp(_, _, _, _) =>
          assert false;
        case CreateOrderOp(sender, lid, quantity) =>
          CreateOrderCommitted(s, sender, lid, quantity);
        case FulfillOrderOp(sender, orderId) =>
          FulfillOrderCommitted(s, sender, orderId);
      }
      assert NoUpdates(ops[1..]) by {
        forall i | 0 <= i < |ops[1..]| ensures !ops[1..][i].UpdateListingOp? {
          assert ops[1..][i] == ops[i + 1];
        }
      }
      RunKeepsCommitted(Apply(s, op), ops[1..], listingId);
    }
  }

  /** One operation other than updateListing leaves a listing with stock
      that is not negative still present and still not negative: an order
      takes at most the units on offer. */
  lemma ApplyKeepsStock(s: Store, op: Op, listingId: nat)
    requires Consistent(s)
    requires listingId in s.listings && s.listings[listingId].quantity >= 0
    requires !op.UpdateListingOp?
    ensures listingId in Apply(s, op).listings
    ensures Apply(s, op).listings[listingId].quantity >= 0
  {
  }

  /** Absent updateListing, a listing whose stock is not negative is never
      oversold: its stock stays not negative, so the units ordered against
      it never exceed its ordered plus offered units at the start. For a
      listing just created, that is the quantity it was listed with. */
  lemma {:induction false} RunNeverOversells(s: Store, ops: seq<Op>, listingId: nat)
    requires Consistent(s)
    requires listingId in s.listings && s.listings[listingId].quantity >= 0
    requires NoUpdates(ops)
    ensures listingId in Run(s, ops).listings
    ensures Run(s, ops).listings[listingId].quantity >= 0
    ensures Balance(Tally(Run(s, ops).orders, Run(s, ops).lastOrderId), listingId) <= Committed(s, listingId)
    decreases |ops|
  {
    RunKeepsCommitted(s, ops, listingId);
    if ops != [] {
      assert !ops[0].UpdateListingOp?;
      ApplyKeepsStock(s, ops[0], listingId);
      assert NoUpdates(ops[1..]) by {
        forall i | 0 <= i < |ops[1..]| ensures !ops[1..][i].UpdateListingOp? {
          assert ops[1..][i] == ops[i + 1];
        }
      }
      RunNeverOversells(Apply(s, ops[0]), ops[1..], listingId);
    }
  }

  /** A listing created with a quantity that is not negative never has more
      units ordered against it than it was listed with, over any later run
      without updateListing. */
  lemma CreatedListingNeverOversold(s: Store, sender: Principal, itemId: int, price: int, quantity: int,
                                    currentOwner: Principal, ops: seq<Op>)
    requires Consistent(s)
    requires quantity >= 0
    requires CreateListingStep(s, sender, itemId, price, quantity, currentOwner).result.Ok?
    requires NoUpdates(ops)
    ensures var r := CreateListingStep(s, sender, itemId, price, quantity, currentOwner);
      && Consistent(r.store)
      && var end := Run(r.store, ops);
      && r.result.value in end.listings
      && Balance(Tally(end.orders, end.lastOrderId), r.result.value) <= quantity
  {
    var r := CreateListingStep(s, sender, itemId, price, quantity, currentOwner);
    CreateListingKeepsConsistent(s, sender, itemId, price, quantity, currentOwner);
    CreateListingCommitted(s, sender, itemId, price, quantity, currentOwner);
    RunNeverOversells(r.store, ops, r.result.value);
  }
}
