/** The transaction endpoints: creating a transaction with its balance changes and
    commission earning, rewriting a transaction and its earning, deleting a
    transaction with its earning, and the filter of the transaction listing. */
module TransactionController {
  import opened Common
  import opened Text
  import opened Store
  import opened Movement
  import opened Paging

  /** The body of `POST /transactions`; `None` is a field the body leaves out. */
  datatype TransactionInput = TransactionInput(
    amount: Option<real>,
    commission: Option<real>,
    note: Option<string>,
    movement: Option<string>,
    customerId: Option<nat>,
    currencyId: Option<nat>)

  /** `!amount || !movement || !customerId || !currencyId` fails. */
  predicate HasRequiredFields(input: TransactionInput) {
    && TruthyNumber(input.amount)
    && TruthyText(input.movement)
    && TruthyInt(input.customerId)
    && TruthyInt(input.currencyId)
  }

  /** The rate stored and used: `commission = 0` when the body leaves it out. */
  function Rate(commission: Option<real>): real {
    Given(commission, 0.0)
  }

  /** `` `Commission for transaction #${id}` ``. */
  function CommissionDescription(id: nat): string {
    "Commission for transaction #" + NatToString(id)
  }

  /** The earning `createTransaction` records for a commission. */
  function CommissionEarning(currencyId: nat, transactionId: nat, commissionAmount: real, now: int): EarningRow {
    EarningRow(currencyId, Some(transactionId), commissionAmount, now, Some(CommissionDescription(transactionId)), "commission")
  }

  /** The company row after the movement's rule is applied to `row`. */
  function CompanyAfter(row: Balance, movement: string, amount: real, rate: real): Balance {
    var d := Effect(Classify(movement), amount, CommissionAmount(movement, amount, rate));
    Shift(row, d.companyCash, d.companyCheck)
  }

  /** The customer row after the movement's rule is applied to `row`. */
  function CustomerAfter(row: Balance, movement: string, amount: real, rate: real): Balance {
    var d := Effect(Classify(movement), amount, CommissionAmount(movement, amount, rate));
    Shift(row, d.customerCash, d.customerCheck)
  }

  /** The balance part of `createTransaction`: both rows are found or created with
      zero balances, then the branch the movement selects adds `amount` (plus the
      commission amount on a cheque trade) to one side and takes it from the other. */
  method ApplyMovement(db: Database, movement: string, amount: real, commissionAmount: real, customerId: nat, currencyId: nat)
    modifies db`company, db`customerBalances
    ensures var d := Effect(Classify(movement), amount, commissionAmount);
      && db.company == old(db.company)[currencyId := Shift(RowOrZero(old(db.company), currencyId), d.companyCash, d.companyCheck)]
      && db.customerBalances == old(db.customerBalances)[(customerId, currencyId) :=
           Shift(RowOrZero(old(db.customerBalances), (customerId, currencyId)), d.customerCash, d.customerCheck)]
  {
    var isBuy := Contains(movement, "buy");
    var isCash := Contains(movement, "cash");
    var isCheck := Contains(movement, "check");
    var isCollection := movement == "check-collection";
    var rule := RuleOf(isBuy, isCash, isCheck, isCollection);
    assert rule == Classify(movement);

    var myCurrency, _ := db.FindOrCreateCompany(currencyId, ZeroBalance);
    var customerCurrency, _ := db.FindOrCreateCustomerBalance(customerId, currencyId, ZeroBalance);
    var amountWithCommission := amount + commissionAmount;

    // The rows as the branch taken leaves them.
    var company, customer := myCurrency, customerCurrency;
    if isBuy {
      if isCash {
        company := myCurrency.(balance := myCurrency.balance + amount);
        customer := customerCurrency.(balance := customerCurrency.balance - amount);
      } else if isCheck {
        company := myCurrency.(checkBalance := myCurrency.checkBalance + amountWithCommission);
        customer := customerCurrency.(checkBalance := customerCurrency.checkBalance - amountWithCommission);
      }
    } else if isCollection {
      company := myCurrency.(balance := myCurrency.balance + amount, checkBalance := myCurrency.checkBalance - amount);
    } else {
      if isCash {
        company := myCurrency.(balance := myCurrency.balance - amount);
        customer := customerCurrency.(balance := customerCurrency.balance + amount);
      } else if isCheck {
        company := myCurrency.(checkBalance := myCurrency.checkBalance - amountWithCommission);
        customer := customerCurrency.(checkBalance := customerCurrency.checkBalance + amountWithCommission);
      }
    }
    var d := Effect(rule, amount, commissionAmount);
    assert company.balance == myCurrency.balance + d.companyCash;
    assert company.checkBalance == myCurrency.checkBalance + d.companyCheck;
    assert customer.balance == customerCurrency.balance + d.customerCash;
    assert customer.checkBalance == customerCurrency.checkBalance + d.customerCheck;
    assert company == Shift(myCurrency, d.companyCash, d.companyCheck);
    assert customer == Shift(customerCurrency, d.customerCash, d.customerCheck);
    assert myCurrency == RowOrZero(old(db.company), currencyId);
    assert customerCurrency == RowOrZero(old(db.customerBalances), (customerId, currencyId));
    UpdateTwice(old(db.company), currencyId, myCurrency, company);
    UpdateTwice(old(db.customerBalances), (customerId, currencyId), customerCurrency, customer);
    db.company := db.company[currencyId := company];
    db.customerBalances := db.customerBalances[(customerId, currencyId) := customer];
  }

  /** The commission part of `createTransaction`, run right after the transaction
      `id` is stored: a movement containing "check" with a positive rate records an
      earning of `amount * commission` linked to it. */
  method RecordCommission(db: Database, id: nat, movement: string, amount: real, rate: real, currencyId: nat, now: int)
    returns (commissionAmount: real)
    requires db.Valid() && id in db.transactions && !HasLink(db.earnings, id)
    modifies db`earnings, db`nextEarningId
    ensures db.Valid()
    ensures commissionAmount == CommissionAmount(movement, amount, rate)
    ensures EarnsCommission(movement, rate) ==>
      db.earnings == old(db.earnings)[old(db.nextEarningId) := CommissionEarning(currencyId, id, commissionAmount, now)]
    ensures !EarnsCommission(movement, rate) ==> db.earnings == old(db.earnings)
    ensures HasLink(db.earnings, id) <==> EarnsCommission(movement, rate)
  {
    var isCheck := Contains(movement, "check");
    commissionAmount := 0.0;
    if isCheck && rate > 0.0 {
      commissionAmount := amount * rate;
      var earningId := db.InsertEarning(CommissionEarning(currencyId, id, commissionAmount, now));
      assert db.earnings[earningId].transactionId == Some(id);
    }
  }

  /** `createTransaction`. A request without the four required fields changes
      nothing. Otherwise the transaction is stored under the next key; a movement
      containing "check" with a positive rate records a commission earning linked
      to it; the company row of the currency and the customer's row of the currency
      are found or created with zero balances and then shifted by the movement's
      rule. No other row changes. */
  method CreateTransaction(db: Database, input: TransactionInput, now: int) returns (r: Result<nat>)
    requires db.Valid()
    modifies db`transactions, db`nextTransactionId, db`earnings, db`nextEarningId, db`company, db`customerBalances
    ensures db.Valid()
    ensures !HasRequiredFields(input) ==>
      && r == Fail(Failure(Invalid, "Amount, movement, customer, and currency are required"))
      && unchanged(db)
    ensures HasRequiredFields(input) ==>
      var id := old(db.nextTransactionId);
      var amount, rate, movement := input.amount.value, Rate(input.commission), input.movement.value;
      var customerId, currencyId := input.customerId.value, input.currencyId.value;
      && r == Ok(id)
      && id !in old(db.transactions)
      && db.transactions == old(db.transactions)[id := TransactionRow(amount, rate, input.note, movement, customerId, currencyId, now)]
      && db.company == old(db.company)[currencyId :=
           CompanyAfter(RowOrZero(old(db.company), currencyId), movement, amount, rate)]
      && db.customerBalances == old(db.customerBalances)[(customerId, currencyId) :=
           CustomerAfter(RowOrZero(old(db.customerBalances), (customerId, currencyId)), movement, amount, rate)]
      && (EarnsCommission(movement, rate) ==>
           db.earnings == old(db.earnings)[old(db.nextEarningId) := CommissionEarning(currencyId, id, CommissionAmount(movement, amount, rate), now)])
      && (!EarnsCommission(movement, rate) ==> db.earnings == old(db.earnings))
      && (HasLink(db.earnings, id) <==> EarnsCommission(movement, rate))
  {
    if !HasRequiredFields(input) {
      return Fail(Failure(Invalid, "Amount, movement, customer, and currency are required"));
    }
    var id := StoreTransaction(db, TransactionRow(input.amount.value, Rate(input.commission), input.note,
                                                  input.movement.value, input.customerId.value, input.currencyId.value, now));
    r := Ok(id);
  }

  /** The part of `createTransaction` after validation, for the row it stores. */
  method StoreTransaction(db: Database, row: TransactionRow) returns (id: nat)
    requires db.Valid()
    modifies db`transactions, db`nextTransactionId, db`earnings, db`nextEarningId, db`company, db`customerBalances
    ensures db.Valid()
    ensures id == old(db.nextTransactionId) && id !in old(db.transactions)
    ensures db.transactions == old(db.transactions)[id := row]
    ensures db.company == old(db.company)[row.currencyId :=
      CompanyAfter(RowOrZero(old(db.company), row.currencyId), row.movement, row.amount, row.commission)]
    ensures db.customerBalances == old(db.customerBalances)[(row.customerId, row.currencyId) :=
      CustomerAfter(RowOrZero(old(db.customerBalances), (row.customerId, row.currencyId)), row.movement, row.amount, row.commission)]
    ensures EarnsCommission(row.movement, row.commission) ==>
      db.earnings == old(db.earnings)[old(db.nextEarningId) :=
        CommissionEarning(row.currencyId, id, CommissionAmount(row.movement, row.amount, row.commission), row.created)]
    ensures !EarnsCommission(row.movement, row.commission) ==> db.earnings == old(db.earnings)
    ensures HasLink(db.earnings, id) <==> EarnsCommission(row.movement, row.commission)
  {
    id := db.InsertTransaction(row);
    var commissionAmount := RecordCommission(db, id, row.movement, row.amount, row.commission, row.currencyId, row.created);
    ApplyMovement(db, row.movement, row.amount, commissionAmount, row.customerId, row.currencyId);
  }

  /** The body of `PATCH /transactions/:id`. The edit form always sends the amount,
      the customer and the currency, so those are plain values here. */
  datatype TransactionUpdate = TransactionUpdate(
    amount: real,
    commission: Option<real>,
    note: Option<string>,
    movement: Option<string>,
    customerId: nat,
    currencyId: nat)

  /** The row `existingTransaction.update(...)` leaves: an undefined note keeps the
      stored one, an undefined commission was already replaced by 0. */
  function UpdatedRow(row: TransactionRow, u: TransactionUpdate, movement: string): TransactionRow {
    row.(amount := u.amount, commission := Rate(u.commission), note := if u.note.Some? then u.note else row.note,
         movement := movement, customerId := u.customerId, currencyId := u.currencyId)
  }

  /** The earning part of `updateTransaction`: when the movement earns, the linked
      earning gets the new amount and currency, or one is created if none exists;
      otherwise an existing linked earning is destroyed. */
  method SyncCommissionEarning(db: Database, id: nat, movement: string, rate: real, amount: real, currencyId: nat, now: int)
    requires db.Valid() && id in db.transactions
    modifies db`earnings, db`nextEarningId
    ensures db.Valid()
    ensures EarnsCommission(movement, rate) && !HasLink(old(db.earnings), id) ==>
      db.earnings == old(db.earnings)[old(db.nextEarningId) := CommissionEarning(currencyId, id, CommissionAmount(movement, amount, rate), now)]
    ensures EarnsCommission(movement, rate) && HasLink(old(db.earnings), id) ==>
      db.earnings == Relink(old(db.earnings), id, CommissionAmount(movement, amount, rate), currencyId)
    ensures !EarnsCommission(movement, rate) ==> db.earnings == Unlink(old(db.earnings), id)
    ensures HasLink(db.earnings, id) <==> EarnsCommission(movement, rate)
    ensures forall e :: e in db.earnings && db.earnings[e].transactionId == Some(id) ==>
      db.earnings[e].amount == CommissionAmount(movement, amount, rate) && db.earnings[e].currencyId == currencyId
  {
    var isCheck := Contains(movement, "check");
    var existing := db.FindLinkedEarning(id);
    if isCheck && rate > 0.0 {
      var commissionAmount := amount * rate;
      if existing.Some? {
        db.RewriteLinkedEarning(existing.value, id, commissionAmount, currencyId);
      } else {
        var earningId := db.InsertEarning(CommissionEarning(currencyId, id, commissionAmount, now));
        assert db.earnings[earningId].transactionId == Some(id);
      }
    } else if existing.Some? {
      db.DestroyLinkedEarning(existing.value, id);
    } else {
      assert db.earnings == Unlink(db.earnings, id);
    }
  }

  /** `updateTransaction`. An unknown id is not found; a body without a movement
      fails when the code calls `movement.includes`, and the rollback leaves
      everything as it was. Otherwise the row is rewritten and its earning is
      brought in line with the new movement and rate: updated (amount and currency)
      if one exists, created if none exists, or destroyed when the new movement no
      longer earns. No balance row changes. */
  method UpdateTransaction(db: Database, id: nat, u: TransactionUpdate, now: int) returns (r: Result<nat>)
    requires db.Valid()
    modifies db`transactions, db`earnings, db`nextEarningId
    ensures db.Valid()
    ensures db.company == old(db.company) && db.customerBalances == old(db.customerBalances)
    ensures id !in old(db.transactions) ==>
      r == Fail(Failure(NotFound, "Transaction not found")) && unchanged(db)
    ensures id in old(db.transactions) && u.movement.None? ==>
      r == Fail(Failure(Internal, "Error updating transaction")) && unchanged(db)
    ensures id in old(db.transactions) && u.movement.Some? ==>
      var movement, rate := u.movement.value, Rate(u.commission);
      && r == Ok(id)
      && db.transactions == old(db.transactions)[id := UpdatedRow(old(db.transactions)[id], u, movement)]
      && (EarnsCommission(movement, rate) && !HasLink(old(db.earnings), id) ==>
            db.earnings == old(db.earnings)[old(db.nextEarningId) := CommissionEarning(u.currencyId, id, CommissionAmount(movement, u.amount, rate), now)])
      && (EarnsCommission(movement, rate) && HasLink(old(db.earnings), id) ==>
            db.earnings == Relink(old(db.earnings), id, CommissionAmount(movement, u.amount, rate), u.currencyId))
      && (!EarnsCommission(movement, rate) ==> db.earnings == Unlink(old(db.earnings), id))
      // Afterwards a linked earning exists exactly when the movement earns, and it
      // carries the commission amount.
      && (HasLink(db.earnings, id) <==> EarnsCommission(movement, rate))
      && (forall e :: e in db.earnings && db.earnings[e].transactionId == Some(id) ==>
            db.earnings[e].amount == CommissionAmount(movement, u.amount, rate) && db.earnings[e].currencyId == u.currencyId)
  {
    if id !in db.transactions {
      return Fail(Failure(NotFound, "Transaction not found"));
    }
    if u.movement.None? {
      return Fail(Failure(Internal, "Error updating transaction"));
    }
    var movement, rate := u.movement.value, Rate(u.commission);
    db.ReplaceTransaction(id, UpdatedRow(db.transactions[id], u, movement));

    SyncCommissionEarning(db, id, movement, rate, u.amount, u.currencyId, now);
    r := Ok(id);
  }

  /** `deleteTransaction`. An unknown id is not found. Otherwise every earning
      linked to the transaction is destroyed, then the transaction; no balance row
      changes. */
  method DeleteTransaction(db: Database, id: nat) returns (r: Result<()>)
    requires db.Valid()
    modifies db`transactions, db`earnings
    ensures db.Valid()
    ensures db.company == old(db.company) && db.customerBalances == old(db.customerBalances)
    ensures id !in old(db.transactions) ==>
      r == Fail(Failure(NotFound, "Transaction not found")) && unchanged(db)
    ensures id in old(db.transactions) ==>
      && r == Ok(())
      && db.transactions == old(db.transactions) - {id}
      && db.earnings == Unlink(old(db.earnings), id)
      && !HasLink(db.earnings, id)
  {
    if id !in db.transactions {
      return Fail(Failure(NotFound, "Transaction not found"));
    }
    db.earnings := Unlink(db.earnings, id);
    db.transactions := db.transactions - {id};
    r := Ok(());
  }

  /** The query of `GET /transactions`; dates are timestamps. Query values arrive
      as text: `None` is a parameter that is absent or empty, and an id parameter
      `Some(n)` is the decimal text of `n`, which is truthy even for "0". */
  datatype TransactionFilter = TransactionFilter(
    customerId: Option<nat>,
    currencyId: Option<nat>,
    movement: Option<string>,
    startDate: Option<int>,
    endDate: Option<int>)

  /** The `where` clause: each non-empty parameter adds one equality, compared
      under the table's collation for the movement, and the date window applies
      only when both dates are given. */
  predicate Matches(row: TransactionRow, f: TransactionFilter) {
    && (f.customerId.Some? ==> row.customerId == f.customerId.value)
    && (f.currencyId.Some? ==> row.currencyId == f.currencyId.value)
    && (TruthyText(f.movement) ==> SameText(row.movement, f.movement.value))
    && InDateWindow(row.created, f.startDate, f.endDate)
  }

  /** The keys of the transactions the listing counts. */
  function MatchingIds(rows: map<nat, TransactionRow>, f: TransactionFilter): (r: set<nat>)
    ensures forall id :: id in r <==> id in rows && Matches(rows[id], f)
  {
    set id | id in rows && Matches(rows[id], f)
  }

  /** A query whose parameters are all absent or empty lists every transaction. */
  lemma EmptyQueryListsAll(rows: map<nat, TransactionRow>, f: TransactionFilter)
    requires f.customerId.None? && f.currencyId.None? && !TruthyText(f.movement)
    requires f.startDate.None? || f.endDate.None?
    ensures MatchingIds(rows, f) == rows.Keys
  {
  }

  /** Every listed transaction agrees with each given parameter: the same customer
      and currency, the movement up to case, and a creation time inside a two-sided
      window. */
  lemma ListedRowsAgree(rows: map<nat, TransactionRow>, f: TransactionFilter, id: nat)
    requires id in MatchingIds(rows, f)
    ensures id in rows
    ensures f.customerId.Some? ==> rows[id].customerId == f.customerId.value
    ensures f.currencyId.Some? ==> rows[id].currencyId == f.currencyId.value
    ensures TruthyText(f.movement) ==> SameText(rows[id].movement, f.movement.value)
    ensures f.startDate.Some? && f.endDate.Some? ==> f.startDate.value <= rows[id].created <= f.endDate.value
  {
  }

  /** Leaving a parameter out never drops a transaction from the listing. */
  lemma DroppingParameterWidens(rows: map<nat, TransactionRow>, f: TransactionFilter)
    ensures MatchingIds(rows, f) <= MatchingIds(rows, f.(customerId := None))
    ensures MatchingIds(rows, f) <= MatchingIds(rows, f.(currencyId := None))
    ensures MatchingIds(rows, f) <= MatchingIds(rows, f.(movement := None))
    ensures MatchingIds(rows, f) <= MatchingIds(rows, f.(startDate := None))
  {
  }

  /** `?customerId=0` is truthy text and filters on customer 0, which no stored
      transaction references, since keys start at 1: the listing is empty. */
  lemma ZeroCustomerListsNothing(rows: map<nat, TransactionRow>, f: TransactionFilter)
    requires forall id :: id in rows ==> rows[id].customerId >= 1
    requires f.customerId == Some(0)
    ensures MatchingIds(rows, f) == {}
  {
  }
}
