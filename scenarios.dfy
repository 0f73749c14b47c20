/** The marketplace's own example runs: two wallets with starting balances
    and a registry that names the first wallet as the owner of every item. */
module Scenarios {

  import opened Balances
  import opened Marketplace
  import opened Ledgers

  const Wallet1: Principal := "ST2CY5V39NHDPWSXMW9QDT3HC3GD6Q6XX4CFRK9AG"
  const Wallet2: Principal := "ST2JHG361ZXG51QTKY2NQCVBPPRRE2KZB1HR05NNC"

  /** The owner the mock registry reports for any item. */
  const RegistryOwner: Principal := Wallet1

  function StartingBalances(): map<Principal, int>
  {
    map[Wallet1 := 10000, Wallet2 := 5000]
  }

  /** Wallet1 lists item 1: it gets id 1 and is stored exactly as given. */
  method CreateListingScenario() returns (r: Result<nat>, listing: Option<Listing>)
    ensures r == Ok(1)
    ensures listing == Some(Listing(Wallet1, 1, 100, 10, Active))
  {
    var ledger := new Ledger(StartingBalances());
    r := ledger.CreateListing(Wallet1, 1, 100, 10, RegistryOwner);
    listing := ledger.GetListing(1);
  }

  /** A listing by anyone but the registry's owner is refused with 102. */
  method UnauthorizedListingScenario() returns (r: Result<nat>, listing: Option<Listing>)
    ensures r.Err? && Code(r.error) == 102
    ensures listing == None
  {
    var ledger := new Ledger(StartingBalances());
    r := ledger.CreateListing(Wallet2, 1, 100, 10, RegistryOwner);
    listing := ledger.GetListing(1);
  }

  /** The seller updates listing 1 to price 120 and quantity 8. */
  method UpdateListingScenario() returns (r: Result<()>, listing: Option<Listing>)
    ensures r == Ok(())
    ensures listing == Some(Listing(Wallet1, 1, 120, 8, Active))
  {
    var ledger := new Ledger(StartingBalances());
    var _ := ledger.CreateListing(Wallet1, 1, 100, 10, RegistryOwner);
    r := ledger.UpdateListing(Wallet1, 1, 120, 8);
    listing := ledger.GetListing(1);
  }

  /** Wallet2 orders 2 units at 100: order 1 for 200, the seller goes from
      10000 to 10200, the buyer from 5000 to 4800, and 8 units remain. */
  method CreateOrderScenario()
    returns (r: Result<nat>, order: Option<Order>, sellerBalance: int, buyerBalance: int, listing: Option<Listing>)
    ensures r == Ok(1)
    ensures order == Some(Order(Wallet2, 1, 2, 200, Created))
    ensures sellerBalance == 10200 && buyerBalance == 4800
    ensures listing.Some? && listing.value.quantity == 8
  {
    var ledger := new Ledger(StartingBalances());
    var _ := ledger.CreateListing(Wallet1, 1, 100, 10, RegistryOwner);
    r := ledger.CreateOrder(Wallet2, 1, 2);
    order := ledger.GetOrder(1);
    sellerBalance := Balance(ledger.balances, Wallet1);
    buyerBalance := Balance(ledger.balances, Wallet2);
    listing := ledger.GetListing(1);
  }

  /** The seller fulfils order 1: it is marked fulfilled and the registry is
      asked once to transfer item 1 to Wallet2. */
  method FulfillOrderScenario() returns (r: Result<()>, order: Option<Order>, transfers: seq<Transfer>)
    ensures r == Ok(())
    ensures order.Some? && order.value.status == Fulfilled
    ensures transfers == [Transfer(1, Wallet2)]
  {
    var ledger := new Ledger(StartingBalances());
    var _ := ledger.CreateListing(Wallet1, 1, 100, 10, RegistryOwner);
    var _ := ledger.CreateOrder(Wallet2, 1, 2);
    r := ledger.FulfillOrder(Wallet1, 1);
    order := ledger.GetOrder(1);
    transfers := ledger.transfers;
  }

  /** Ordering 15 of 10 units fails with 103 and changes nothing. */
  method InsufficientQuantityScenario() returns (r: Result<nat>, listing: Option<Listing>, balances: map<Principal, int>)
    ensures r.Err? && Code(r.error) == 103
    ensures listing == Some(Listing(Wallet1, 1, 100, 10, Active))
    ensures balances == StartingBalances()
  {
    var ledger := new Ledger(StartingBalances());
    var _ := ledger.CreateListing(Wallet1, 1, 100, 10, RegistryOwner);
    r := ledger.CreateOrder(Wallet2, 1, 15);
    listing := ledger.GetListing(1);
    balances := ledger.balances;
  }

  /** Ordering 6 units at 1000 with a balance of 5000 fails with 104 and
      changes nothing. */
  method InsufficientFundsScenario() returns (r: Result<nat>, listing: Option<Listing>, balances: map<Principal, int>)
    ensures r.Err? && Code(r.error) == 104
    ensures listing == Some(Listing(Wallet1, 1, 1000, 10, Active))
    ensures balances == StartingBalances()
  {
    var ledger := new Ledger(StartingBalances());
    var _ := ledger.CreateListing(Wallet1, 1, 1000, 10, RegistryOwner);
    r := ledger.CreateOrder(Wallet2, 1, 6);
    listing := ledger.GetListing(1);
    balances := ledger.balances;
  }
}
