/** The marketplace ledger as a mutable object: the same state as a
    `Marketplace.Store`, held in fields that each operation updates in place,
    in the order the operations do it. Every method is proved to leave the
    fields exactly as the matching step function of `Marketplace` says. */
module Ledgers {

  import opened Balances
  import opened Marketplace

  class Ledger {
    var listings: map<nat, Listing>
    var orders: map<nat, Order>
    var lastListingId: nat
    var lastOrderId: nat
    var balances: map<Principal, int>
    /** Every transferOwnership call made on the registry, in order. */
    var transfers: seq<Transfer>

    /** The ledger's fields as one value. */
    function Snapshot(): Store
      reads this
    {
      Store(listings, orders, lastListingId, lastOrderId, balances, transfers)
    }

    ghost predicate Valid()
      reads this
    {
      Consistent(Snapshot())
    }

    /** An empty marketplace whose participants hold `initialBalances`. */
    constructor (initialBalances: map<Principal, int>)
      ensures Valid()
      ensures Snapshot() == Initial(initialBalances)
    {
      listings, orders := map[], map[];
      lastListingId, lastOrderId := 0, 0;
      balances, transfers := initialBalances, [];
    }

    /** Lists `quantity` units of registry item `itemId` at `price`;
        `currentOwner` is the item's owner as the registry reports it now. */
    method CreateListing(sender: Principal, itemId: int, price: int, quantity: int, currentOwner: Principal)
      returns (r: Result<nat>)
      requires Valid()
      modifies this
      ensures Valid()
      ensures var step := CreateListingStep(old(Snapshot()), sender, itemId, price, quantity, currentOwner);
              r == step.result && Snapshot() == step.store
    {
      CreateListingKeepsConsistent(Snapshot(), sender, itemId, price, quantity, currentOwner);
      if sender != currentOwner {
        return Err(NotAuthorized);
      }
      lastListingId := lastListingId + 1;
      listings := listings[lastListingId := Listing(sender, itemId, price, quantity, Active)];
      r := Ok(lastListingId);
    }

    /** Overwrites the price and quantity of one of the sender's listings. */
    method UpdateListing(sender: Principal, listingId: nat, newPrice: int, newQuantity: int)
      returns (r: Result<()>)
      requires Valid()
      modifies this
      ensures Valid()
      ensures var step := UpdateListingStep(old(Snapshot()), sender, listingId, newPrice, newQuantity);
              r == step.result && Snapshot() == step.store
    {
      UpdateListingKeepsConsistent(Snapshot(), sender, listingId, newPrice, newQuantity);
      if listingId !in listings {
        return Err(NotFound);
      }
      var listing := listings[listingId];
      if listing.seller != sender {
        return Err(NotAuthorized);
      }
      listings := listings[listingId := listing.(price := newPrice, quantity := newQuantity)];
      r := Ok(());
    }

    /** Buys `quantity` units from a listing: checks stock, then funds, then
        debits the buyer and credits the seller (`Pay`), records the order
        and takes the units off the listing. */
    method CreateOrder(sender: Principal, listingId: nat, quantity: int) returns (r: Result<nat>)
      requires Valid()
      modifies this
      ensures Valid()
      ensures var step := CreateOrderStep(old(Snapshot()), sender, listingId, quantity);
              r == step.result && Snapshot() == step.store
    {
      CreateOrderKeepsConsistent(Snapshot(), sender, listingId, quantity);
      if listingId !in listings {
        return Err(NotFound);
      }
      var listing := listings[listingId];
      if quantity > listing.quantity {
        return Err(InsufficientQuantity);
      }
      var totalPrice := listing.price * quantity;
      if Balance(balances, sender) < totalPrice {
        return Err(InsufficientFunds);
      }
      balances := Pay(balances, sender, listing.seller, totalPrice);
      lastOrderId := lastOrderId + 1;
      orders := orders[lastOrderId := Order(sender, listingId, quantity, totalPrice, Created)];
      listings := listings[listingId := listing.(quantity := listing.quantity - quantity)];
      r := Ok(lastOrderId);
    }

    /** The seller of an order's listing has the registry transfer the item to
        the buyer and marks the order fulfilled. */
    method FulfillOrder(sender: Principal, orderId: nat) returns (r: Result<()>)
      requires Valid()
      modifies this
      ensures Valid()
      ensures Resolves(old(Snapshot()), orderId)
      ensures var step := FulfillOrderStep(old(Snapshot()), sender, orderId);
              r == step.result && Snapshot() == step.store
    {
      FulfillOrderKeepsConsistent(Snapshot(), sender, orderId);
      if orderId !in orders {
        return Err(NotFound);
      }
      var order := orders[orderId];
      var listing := listings[order.listingId];
      if listing.seller != sender {
        return Err(NotAuthorized);
      }
      transfers := transfers + [Transfer(listing.itemId, order.buyer)];
      orders := orders[orderId := order.(status := Fulfilled)];
      r := Ok(());
    }

    /** getListing: the stored listing, or None when the id is unknown. */
    function GetListing(listingId: nat): (r: Option<Listing>)
      reads this
      ensures r == None <==> listingId !in listings
      ensures r.Some? ==> listingId in listings && r.value == listings[listingId]
    {
      if listingId in listings then Some(listings[listingId]) else None
    }

    /** getOrder: the stored order, or None when the id is unknown. */
    function GetOrder(orderId: nat): (r: Option<Order>)
      reads this
      ensures r == None <==> orderId !in orders
      ensures r.Some? ==> orderId in orders && r.value == orders[orderId]
    {
      if orderId in orders then Some(orders[orderId]) else None
    }
  }
}
