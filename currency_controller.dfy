/** The currency endpoints: registering a currency name, and reading, writing and
    starring the company's balance row of a currency. */
module CurrencyController {
  import opened Common
  import opened Store
  import opened Balances

  /** `createCurrency`. A missing or empty name is refused and nothing changes;
      otherwise the name is stored under the next key. */
  method CreateCurrency(db: Database, name: Option<string>) returns (r: Result<nat>)
    requires db.Valid()
    modifies db`currencies, db`nextCurrencyId
    ensures db.Valid()
    ensures !TruthyText(name) ==>
      r == Fail(Failure(Invalid, "Currency name is required")) && unchanged(db)
    ensures TruthyText(name) ==>
      && r == Ok(old(db.nextCurrencyId))
      && r.value !in old(db.currencies)
      && db.currencies == old(db.currencies)[r.value := name.value]
  {
    if !TruthyText(name) {
      return Fail(Failure(Invalid, "Currency name is required"));
    }
    var id := db.InsertCurrency(name.value);
    r := Ok(id);
  }

  /** `getCompanyBalance`: the company row of a currency, or not found. */
  function GetCompanyBalance(db: Database, currencyId: nat): (r: Result<Balance>)
    reads db
    ensures r.Ok? <==> currencyId in db.company
    ensures r.Ok? ==> r.value == db.company[currencyId]
    ensures r.Fail? ==> r.failure == Failure(NotFound, "Balance not found for this currency")
  {
    if currencyId in db.company then Ok(db.company[currencyId])
    else Fail(Failure(NotFound, "Balance not found for this currency"))
  }

  /** `updateCompanyBalance`: the row is found or created from the body's defaults,
      an existing row takes every field the body gives, and the row is answered
      read back. */
  method UpdateCompanyBalance(db: Database, currencyId: nat, p: BalancePatch) returns (r: Balance)
    requires db.Valid()
    modifies db`company
    ensures db.Valid()
    ensures db.company == Upsert(old(db.company), currencyId, p)
    ensures r == MergedRow(RowOrZero(old(db.company), currencyId), p)
  {
    var myCurrency, created := db.FindOrCreateCompany(currencyId, CreatedRow(p));
    if !created {
      db.company := db.company[currencyId := MergedRow(myCurrency, p)];
    }
    r := db.company[currencyId];
  }

  /** `toggleCurrencyStar`: a currency without a company row is not found;
      otherwise the row's star is inverted and nothing else changes. */
  method ToggleCurrencyStar(db: Database, currencyId: nat) returns (r: Result<Balance>)
    requires db.Valid()
    modifies db`company
    ensures db.Valid()
    ensures currencyId !in old(db.company) ==>
      r == Fail(Failure(NotFound, "Currency balance not found")) && unchanged(db)
    ensures currencyId in old(db.company) ==>
      && r == Ok(FlipStar(old(db.company)[currencyId]))
      && db.company == old(db.company)[currencyId := r.value]
  {
    if currencyId !in db.company {
      return Fail(Failure(NotFound, "Currency balance not found"));
    }
    var row := FlipStar(db.company[currencyId]);
    db.company := db.company[currencyId := row];
    r := Ok(row);
  }
}
