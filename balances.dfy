/** The balance rows shared by the company (`MyCurrency`) and the customers
    (`CustomerCurrency`): how `updateCompanyBalance` and `updateCustomerBalance`
    create or merge a row from a request body, and how a star is toggled. */
module Balances {
  import opened Common
  import opened Store

  /** The body `{ balance, check_balance, star }`; `None` is a field left out. */
  datatype BalancePatch = BalancePatch(balance: Option<real>, checkBalance: Option<real>, star: Option<bool>)

  /** A body that supplies all three fields. */
  predicate Complete(p: BalancePatch) {
    p.balance.Some? && p.checkBalance.Some? && p.star.Some?
  }

  /** The row merged with `x !== undefined ? x : stored`, field by field. */
  function MergedRow(row: Balance, p: BalancePatch): Balance {
    Balance(Given(p.balance, row.balance), Given(p.checkBalance, row.checkBalance), Given(p.star, row.star))
  }

  /** The `defaults` given to `findOrCreate`: `balance || 0`, `check_balance || 0`,
      `star || false`. A falsy amount can only be 0, so the defaults are the body
      merged into the zero row. */
  function CreatedRow(p: BalancePatch): (b: Balance)
    ensures b == MergedRow(ZeroBalance, p)
  {
    Balance(
      if TruthyNumber(p.balance) then p.balance.value else 0.0,
      if TruthyNumber(p.checkBalance) then p.checkBalance.value else 0.0,
      p.star == Some(true))
  }

  /** The table after `findOrCreate` with the defaults and, for a row that already
      existed, the merge. */
  function Upsert<K>(rows: map<K, Balance>, key: K, p: BalancePatch): (r: map<K, Balance>)
    ensures r.Keys == rows.Keys + {key}
    ensures r[key] == MergedRow(RowOrZero(rows, key), p)
    ensures forall k :: k in rows && k != key ==> r[k] == rows[k]
  {
    rows[key := if key in rows then MergedRow(rows[key], p) else CreatedRow(p)]
  }

  /** Sending the same body twice leaves the table as sending it once. */
  lemma UpsertIdempotent<K>(rows: map<K, Balance>, key: K, p: BalancePatch)
    ensures Upsert(Upsert(rows, key, p), key, p) == Upsert(rows, key, p)
  {
    var once := Upsert(rows, key, p);
    assert MergedRow(once[key], p) == once[key];
  }

  /** A body with every field given writes those values whether or not the row existed. */
  lemma CompletePatchOverwrites<K>(rows: map<K, Balance>, key: K, p: BalancePatch)
    requires Complete(p)
    ensures Upsert(rows, key, p)[key] == Balance(p.balance.value, p.checkBalance.value, p.star.value)
  {
  }

  /** An empty body creates the zero row, or leaves an existing row as it is. */
  lemma EmptyPatchKeeps<K>(rows: map<K, Balance>, key: K)
    ensures Upsert(rows, key, BalancePatch(None, None, None)) == rows[key := RowOrZero(rows, key)]
    ensures key in rows ==> Upsert(rows, key, BalancePatch(None, None, None)) == rows
  {
  }

  /** `star: !star`. */
  function FlipStar(b: Balance): (r: Balance)
    ensures r.star != b.star
    ensures r.balance == b.balance && r.checkBalance == b.checkBalance
  {
    b.(star := !b.star)
  }

  /** Toggling twice restores the row. */
  lemma FlipStarTwice(b: Balance)
    ensures FlipStar(FlipStar(b)) == b
  {
  }
}
