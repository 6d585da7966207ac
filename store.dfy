/** The persistent tables the controllers read and write, one map per Sequelize
    model, with the autoincrement counters that hand out primary keys. */
module Store {
  import opened Common
  import opened Text

  /** A `MyCurrency` or `CustomerCurrency` row: the cash bucket `balance`, the
      check bucket `check_balance` and the favourite flag `star`. */
  datatype Balance = Balance(balance: real, checkBalance: real, star: bool)

  /** The defaults `findOrCreate` is given when a balance row is first referenced. */
  const ZeroBalance := Balance(0.0, 0.0, false)

  datatype Customer = Customer(name: string, star: bool)

  /** A `Transaction` row; `commission` is the rate as sent, `created` its timestamp. */
  datatype TransactionRow = TransactionRow(
    amount: real,
    commission: real,
    note: Option<string>,
    movement: string,
    customerId: nat,
    currencyId: nat,
    created: int)

  /** An `Earning` row; `kind` is the `type` column. */
  datatype EarningRow = EarningRow(
    currencyId: nat,
    transactionId: Option<nat>,
    amount: real,
    date: int,
    description: Option<string>,
    kind: string)

  datatype Role = Admin | Manager | Employee

  /** A `User` row. `password` stands for the stored bcrypt hash of the password. */
  datatype User = User(username: string, password: string, name: string, role: Role, isInitialSetup: bool)

  /** The user fields `login`, `register` and `authenticate` hand out: every
      column but the password. */
  datatype SessionUser = SessionUser(id: nat, username: string, name: string, role: Role, isInitialSetup: bool)

  function SessionOf(id: nat, u: User): (s: SessionUser)
    ensures s.id == id && s.username == u.username && s.name == u.name
    ensures s.role == u.role && s.isInitialSetup == u.isInitialSetup
  {
    SessionUser(id, u.username, u.name, u.role, u.isInitialSetup)
  }

  /** Some user has this username, up to the collation's case folding. */
  predicate HasUsername(users: map<nat, User>, username: string) {
    exists k :: k in users && SameText(users[k].username, username)
  }

  /** The row of a balance table at `key`, or the zero row `findOrCreate` would make. */
  function RowOrZero<K>(rows: map<K, Balance>, key: K): (b: Balance)
    ensures key !in rows ==> b == ZeroBalance
    ensures key in rows ==> b == rows[key]
  {
    if key in rows then rows[key] else ZeroBalance
  }

  /** The earnings left after `Earning.destroy({ where: { transaction_id: id } })`. */
  function Unlink(earnings: map<nat, EarningRow>, id: nat): (r: map<nat, EarningRow>)
    ensures forall e :: e in r ==> e in earnings && earnings[e] == r[e] && r[e].transactionId != Some(id)
    ensures forall e :: e in earnings && earnings[e].transactionId != Some(id) ==> e in r
  {
    map e | e in earnings && earnings[e].transactionId != Some(id) :: earnings[e]
  }

  /** The earnings after every earning linked to `id` is given a new amount and
      currency, as `existingEarning.update({ amount, currency_id })` does. */
  function Relink(earnings: map<nat, EarningRow>, id: nat, amount: real, currencyId: nat): (r: map<nat, EarningRow>)
    ensures r.Keys == earnings.Keys
    ensures forall e :: e in r && earnings[e].transactionId == Some(id) ==>
      r[e] == earnings[e].(amount := amount, currencyId := currencyId)
    ensures forall e :: e in r && earnings[e].transactionId != Some(id) ==> r[e] == earnings[e]
  {
    map e | e in earnings ::
      if earnings[e].transactionId == Some(id) then earnings[e].(amount := amount, currencyId := currencyId)
      else earnings[e]
  }

  /** Writing a key twice leaves the second value. */
  lemma UpdateTwice<K, V>(m: map<K, V>, k: K, a: V, b: V)
    ensures m[k := a][k := b] == m[k := b]
  {
  }

  /** Some earning carries `transaction_id = id`. */
  predicate HasLink(earnings: map<nat, EarningRow>, id: nat) {
    exists e :: e in earnings && earnings[e].transactionId == Some(id)
  }

  class Database {
    var currencies: map<nat, string>
    var nextCurrencyId: nat
    var customers: map<nat, Customer>
    var nextCustomerId: nat
    /** `MyCurrency`, keyed by `currency_id`. */
    var company: map<nat, Balance>
    /** `CustomerCurrency`, keyed by (`customer_id`, `currency_id`). */
    var customerBalances: map<(nat, nat), Balance>
    var transactions: map<nat, TransactionRow>
    var nextTransactionId: nat
    var earnings: map<nat, EarningRow>
    var nextEarningId: nat
    var users: map<nat, User>
    var nextUserId: nat

    /** Every primary key is positive and below its table's counter. */
    ghost predicate KeysBelowCounters()
      reads this
    {
      && nextCurrencyId > 0 && nextCustomerId > 0 && nextTransactionId > 0 && nextEarningId > 0 && nextUserId > 0
      && (forall id :: id in currencies ==> 0 < id < nextCurrencyId)
      && (forall id :: id in customers ==> 0 < id < nextCustomerId)
      && (forall id :: id in transactions ==> 0 < id < nextTransactionId)
      && (forall id :: id in earnings ==> 0 < id < nextEarningId)
      && (forall id :: id in users ==> 0 < id < nextUserId)
    }

    /** An earning with a `transaction_id` belongs to an existing transaction, and a
        transaction has at most one such earning. */
    ghost predicate EarningLinksSound()
      reads this
    {
      && (forall e :: e in earnings && earnings[e].transactionId.Some? ==>
            earnings[e].transactionId.value in transactions)
      && (forall e1, e2 ::
            e1 in earnings && e2 in earnings && earnings[e1].transactionId.Some? &&
            earnings[e1].transactionId == earnings[e2].transactionId
            ==> e1 == e2)
    }

    /** The unique index on `username`, which compares under the case-insensitive
        collation of the users table. */
    ghost predicate UsernamesUnique()
      reads this
    {
      forall a, b :: a in users && b in users && SameText(users[a].username, users[b].username) ==> a == b
    }

    ghost predicate Valid()
      reads this
    {
      KeysBelowCounters() && EarningLinksSound() && UsernamesUnique()
    }

    /** An empty database whose autoincrement keys start at 1. */
    constructor ()
      ensures Valid()
      ensures currencies == map[] && customers == map[] && company == map[] && customerBalances == map[]
      ensures transactions == map[] && earnings == map[] && users == map[]
    {
      currencies, customers, company, customerBalances := map[], map[], map[], map[];
      transactions, earnings, users := map[], map[], map[];
      nextCurrencyId, nextCustomerId, nextTransactionId, nextEarningId, nextUserId := 1, 1, 1, 1, 1;
    }

    /** `MyCurrency.findOrCreate({ where: { currency_id }, defaults })`. */
    method FindOrCreateCompany(currencyId: nat, defaults: Balance) returns (row: Balance, created: bool)
      modifies this`company
      ensures created == (currencyId !in old(company))
      ensures row == if created then defaults else old(company)[currencyId]
      ensures company == old(company)[currencyId := row]
    {
      created := currencyId !in company;
      row := if created then defaults else company[currencyId];
      company := company[currencyId := row];
    }

    /** `CustomerCurrency.findOrCreate({ where: { customer_id, currency_id }, defaults })`. */
    method FindOrCreateCustomerBalance(customerId: nat, currencyId: nat, defaults: Balance)
      returns (row: Balance, created: bool)
      modifies this`customerBalances
      ensures created == ((customerId, currencyId) !in old(customerBalances))
      ensures row == if created then defaults else old(customerBalances)[(customerId, currencyId)]
      ensures customerBalances == old(customerBalances)[(customerId, currencyId) := row]
    {
      var key := (customerId, currencyId);
      created := key !in customerBalances;
      row := if created then defaults else customerBalances[key];
      customerBalances := customerBalances[key := row];
    }

    /** `Earning.findOne({ where: { transaction_id: id } })`: the key of an earning
        linked to `id`, if there is one. */
    method FindLinkedEarning(id: nat) returns (e: Option<nat>)
      ensures e.None? <==> !HasLink(earnings, id)
      ensures e.Some? ==> e.value in earnings && earnings[e.value].transactionId == Some(id)
    {
      if HasLink(earnings, id) {
        var k :| k in earnings && earnings[k].transactionId == Some(id);
        e := Some(k);
      } else {
        e := None;
      }
    }

    /** `Currency.create({ currency })`: the next key, and the name stored under it. */
    method InsertCurrency(name: string) returns (id: nat)
      requires Valid()
      modifies this`currencies, this`nextCurrencyId
      ensures Valid()
      ensures id == old(nextCurrencyId) && id !in old(currencies)
      ensures currencies == old(currencies)[id := name]
    {
      id := nextCurrencyId;
      currencies := currencies[id := name];
      nextCurrencyId := nextCurrencyId + 1;
    }

    /** `Customer.create({ name })`: the next key, and the row stored under it. */
    method InsertCustomer(row: Customer) returns (id: nat)
      requires Valid()
      modifies this`customers, this`nextCustomerId
      ensures Valid()
      ensures id == old(nextCustomerId) && id !in old(customers)
      ensures customers == old(customers)[id := row]
    {
      id := nextCustomerId;
      customers := customers[id := row];
      nextCustomerId := nextCustomerId + 1;
    }

    /** `User.create(row)`: the next key, and the row stored under it. The unique
        constraint on `username` is the caller's to respect. */
    method InsertUser(row: User) returns (id: nat)
      requires Valid()
      requires forall k :: k in users ==> !SameText(users[k].username, row.username)
      modifies this`users, this`nextUserId
      ensures Valid()
      ensures id == old(nextUserId) && id !in old(users)
      ensures users == old(users)[id := row]
    {
      id := nextUserId;
      users := users[id := row];
      nextUserId := nextUserId + 1;
    }

    /** `User.findOne({ where: { username } })`: a user whose username equals the
        given one under the collation. */
    method FindUserByName(username: string) returns (k: Option<nat>)
      ensures k.None? <==> !HasUsername(users, username)
      ensures k.Some? ==> k.value in users && SameText(users[k.value].username, username)
    {
      if HasUsername(users, username) {
        var u :| u in users && SameText(users[u].username, username);
        k := Some(u);
      } else {
        k := None;
      }
    }

    /** `user.save()` of a changed user row; the unique constraint on `username`
        is the caller's to respect. */
    method ReplaceUser(id: nat, row: User)
      requires Valid() && id in users
      requires forall k :: k in users && k != id ==> !SameText(users[k].username, row.username)
      modifies this`users
      ensures Valid()
      ensures users == old(users)[id := row]
    {
      users := users[id := row];
    }

    /** `Transaction.create(row)`: the next key, and the row stored under it. No
        earning can be linked to a key that was never handed out. */
    method InsertTransaction(row: TransactionRow) returns (id: nat)
      requires Valid()
      modifies this`transactions, this`nextTransactionId
      ensures Valid()
      ensures id == old(nextTransactionId) && id !in old(transactions)
      ensures transactions == old(transactions)[id := row]
      ensures !HasLink(earnings, id)
    {
      id := nextTransactionId;
      transactions := transactions[id := row];
      nextTransactionId := nextTransactionId + 1;
    }

    /** `instance.update(...)` on an existing transaction: the keys stay as they are. */
    method ReplaceTransaction(id: nat, row: TransactionRow)
      requires Valid() && id in transactions
      modifies this`transactions
      ensures Valid()
      ensures transactions == old(transactions)[id := row]
    {
      transactions := transactions[id := row];
    }

    /** `Earning.create(row)`: the next key, and the row stored under it. A linked
        row must name an existing transaction that has no earning yet. */
    method InsertEarning(row: EarningRow) returns (id: nat)
      requires Valid()
      requires row.transactionId.Some? ==>
        row.transactionId.value in transactions && !HasLink(earnings, row.transactionId.value)
      modifies this`earnings, this`nextEarningId
      ensures Valid()
      ensures id == old(nextEarningId) && id !in old(earnings)
      ensures earnings == old(earnings)[id := row]
    {
      id := nextEarningId;
      earnings := earnings[id := row];
      nextEarningId := nextEarningId + 1;
    }

    /** `existingEarning.update({ amount, currency_id })` on the earning `e` linked
        to `id`; since a transaction has at most one linked earning, this is every
        linked earning rewritten. */
    method RewriteLinkedEarning(e: nat, id: nat, amount: real, currencyId: nat)
      requires Valid() && e in earnings && earnings[e].transactionId == Some(id)
      modifies this`earnings
      ensures Valid()
      ensures earnings == Relink(old(earnings), id, amount, currencyId)
      ensures HasLink(earnings, id)
    {
      assert earnings[e := earnings[e].(amount := amount, currencyId := currencyId)]
          == Relink(earnings, id, amount, currencyId);
      earnings := earnings[e := earnings[e].(amount := amount, currencyId := currencyId)];
      assert earnings[e].transactionId == Some(id);
    }

    /** `existingEarning.destroy()` on the earning `e` linked to `id`: the only
        linked earning goes. */
    method DestroyLinkedEarning(e: nat, id: nat)
      requires Valid() && e in earnings && earnings[e].transactionId == Some(id)
      modifies this`earnings
      ensures Valid()
      ensures earnings == Unlink(old(earnings), id)
    {
      assert earnings - {e} == Unlink(earnings, id);
      earnings := earnings - {e};
    }
  }
}
