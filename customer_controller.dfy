/** The customer endpoints: registering a customer, reading, writing and starring
    the customer's balance row of a currency, starring the customer, and reading a
    customer with all of its balance rows. */
module CustomerController {
  import opened Common
  import opened Store
  import opened Balances

  /** `createCustomer`. A missing or empty name is refused and nothing changes;
      otherwise an unstarred customer is stored under the next key. */
  method CreateCustomer(db: Database, name: Option<string>) returns (r: Result<nat>)
    requires db.Valid()
    modifies db`customers, db`nextCustomerId
    ensures db.Valid()
    ensures !TruthyText(name) ==>
      r == Fail(Failure(Invalid, "Customer name is required")) && unchanged(db)
    ensures TruthyText(name) ==>
      && r == Ok(old(db.nextCustomerId))
      && r.value !in old(db.customers)
      && db.customers == old(db.customers)[r.value := Customer(name.value, false)]
  {
    if !TruthyText(name) {
      return Fail(Failure(Invalid, "Customer name is required"));
    }
    var id := db.InsertCustomer(Customer(name.value, false));
    r := Ok(id);
  }

  /** `getCustomerBalance`: the customer's row of a currency, or not found. */
  function GetCustomerBalance(db: Database, customerId: nat, currencyId: nat): (r: Result<Balance>)
    reads db
    ensures r.Ok? <==> (customerId, currencyId) in db.customerBalances
    ensures r.Ok? ==> r.value == db.customerBalances[(customerId, currencyId)]
    ensures r.Fail? ==> r.failure == Failure(NotFound, "Balance not found for this customer and currency")
  {
    if (customerId, currencyId) in db.customerBalances then Ok(db.customerBalances[(customerId, currencyId)])
    else Fail(Failure(NotFound, "Balance not found for this customer and currency"))
  }

  /** `updateCustomerBalance`: the row is found or created from the body's
      defaults, an existing row takes every field the body gives, and the row is
      answered read back. */
  method UpdateCustomerBalance(db: Database, customerId: nat, currencyId: nat, p: BalancePatch) returns (r: Balance)
    requires db.Valid()
    modifies db`customerBalances
    ensures db.Valid()
    ensures db.customerBalances == Upsert(old(db.customerBalances), (customerId, currencyId), p)
    ensures r == MergedRow(RowOrZero(old(db.customerBalances), (customerId, currencyId)), p)
  {
    var customerCurrency, created := db.FindOrCreateCustomerBalance(customerId, currencyId, CreatedRow(p));
    if !created {
      db.customerBalances := db.customerBalances[(customerId, currencyId) := MergedRow(customerCurrency, p)];
    }
    r := db.customerBalances[(customerId, currencyId)];
  }

  /** `toggleCustomerStar`: an unknown customer is not found; otherwise the
      customer's star is inverted and the name kept. */
  method ToggleCustomerStar(db: Database, customerId: nat) returns (r: Result<Customer>)
    requires db.Valid()
    modifies db`customers
    ensures db.Valid()
    ensures customerId !in old(db.customers) ==>
      r == Fail(Failure(NotFound, "Customer not found")) && unchanged(db)
    ensures customerId in old(db.customers) ==>
      && r.Ok? && r.value.name == old(db.customers)[customerId].name
      && r.value.star == !old(db.customers)[customerId].star
      && db.customers == old(db.customers)[customerId := r.value]
  {
    if customerId !in db.customers {
      return Fail(Failure(NotFound, "Customer not found"));
    }
    var customer := db.customers[customerId];
    customer := customer.(star := !customer.star);
    db.customers := db.customers[customerId := customer];
    r := Ok(customer);
  }

  /** A customer with its `currencies`: its balance rows keyed by currency. */
  datatype CustomerView = CustomerView(customer: Customer, currencies: map<nat, Balance>)

  /** The balance rows whose `customer_id` is `customerId`, keyed by `currency_id`. */
  function CurrenciesOf(balances: map<(nat, nat), Balance>, customerId: nat): (r: map<nat, Balance>)
    ensures forall c :: c in r <==> (customerId, c) in balances
    ensures forall c :: c in r ==> r[c] == balances[(customerId, c)]
  {
    map c | c in (set k | k in balances && k.0 == customerId :: k.1) :: balances[(customerId, c)]
  }

  /** `getCustomer`: an unknown customer is not found; otherwise the customer with
      every one of its balance rows. */
  function GetCustomer(db: Database, customerId: nat): (r: Result<CustomerView>)
    reads db
    ensures r.Ok? <==> customerId in db.customers
    ensures r.Ok? ==> r.value.customer == db.customers[customerId]
    ensures r.Ok? ==> forall c :: c in r.value.currencies <==> (customerId, c) in db.customerBalances
    ensures r.Ok? ==> forall c :: c in r.value.currencies ==>
      r.value.currencies[c] == GetCustomerBalance(db, customerId, c).value
    ensures r.Fail? ==> r.failure == Failure(NotFound, "Customer not found")
  {
    if customerId in db.customers then Ok(CustomerView(db.customers[customerId], CurrenciesOf(db.customerBalances, customerId)))
    else Fail(Failure(NotFound, "Customer not found"))
  }
}
