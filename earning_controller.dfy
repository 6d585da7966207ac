/** The earning endpoints: recording an earning by hand, rewriting and deleting
    one, the listing filter, and the total over all earnings. */
module EarningController {
  import opened Common
  import opened Text
  import opened Store
  import opened Paging

  /** The body of `POST /earnings`; dates are timestamps. */
  datatype EarningInput = EarningInput(
    amount: Option<real>,
    currencyId: Option<nat>,
    date: Option<int>,
    description: Option<string>,
    kind: Option<string>)

  /** The date stored: a left-out date defaults to `new Date()`, and the stored
      `date ? new Date(date) : new Date()` takes the clock for any falsy date. */
  function EarningDate(date: Option<int>, now: int): (d: int)
    ensures TruthyInt(date) ==> d == date.value
    ensures !TruthyInt(date) ==> d == now
  {
    if TruthyInt(date) then date.value else now
  }

  /** The row `createEarning` stores: no linked transaction, the given amount,
      currency and description, the date as above, and `type` "other" when left out. */
  function ManualEarning(input: EarningInput, now: int): (e: EarningRow)
    requires input.amount.Some? && input.currencyId.Some?
    ensures e.transactionId.None?
    ensures e.amount == input.amount.value && e.currencyId == input.currencyId.value
    ensures e.description == input.description
    ensures input.kind.None? ==> e.kind == "other"
    ensures input.kind.Some? ==> e.kind == input.kind.value
    ensures input.date.None? ==> e.date == now
  {
    EarningRow(input.currencyId.value, None, input.amount.value, EarningDate(input.date, now),
      input.description, Given(input.kind, "other"))
  }

  /** `createEarning`. A falsy amount or currency is refused and nothing changes;
      otherwise the row is stored under the next key. */
  method CreateEarning(db: Database, input: EarningInput, now: int) returns (r: Result<nat>)
    requires db.Valid()
    modifies db`earnings, db`nextEarningId
    ensures db.Valid()
    ensures !(TruthyNumber(input.amount) && TruthyInt(input.currencyId)) ==>
      r == Fail(Failure(Invalid, "Amount and currency are required")) && unchanged(db)
    ensures TruthyNumber(input.amount) && TruthyInt(input.currencyId) ==>
      && r == Ok(old(db.nextEarningId))
      && r.value !in old(db.earnings)
      && db.earnings == old(db.earnings)[r.value := ManualEarning(input, now)]
  {
    if !TruthyNumber(input.amount) || !TruthyInt(input.currencyId) {
      return Fail(Failure(Invalid, "Amount and currency are required"));
    }
    var id := db.InsertEarning(ManualEarning(input, now));
    r := Ok(id);
  }

  /** The body of `PUT /earnings/:id`; `None` is a field left undefined. */
  datatype EarningPatch = EarningPatch(
    amount: Option<real>,
    currencyId: Option<nat>,
    date: Option<int>,
    description: Option<string>,
    kind: Option<string>)

  /** The row after `earning.update(...)` with `x !== undefined ? x : stored` for
      each of the five fields; the link to a transaction is not touched. */
  function MergedEarning(row: EarningRow, p: EarningPatch): EarningRow {
    row.(amount := Given(p.amount, row.amount), currencyId := Given(p.currencyId, row.currencyId),
         date := Given(p.date, row.date), description := if p.description.Some? then p.description else row.description,
         kind := Given(p.kind, row.kind))
  }

  /** Merging the same body twice is merging it once, and an empty body keeps the row. */
  lemma MergedEarningIdempotent(row: EarningRow, p: EarningPatch)
    ensures MergedEarning(MergedEarning(row, p), p) == MergedEarning(row, p)
    ensures MergedEarning(row, EarningPatch(None, None, None, None, None)) == row
    ensures MergedEarning(row, p).transactionId == row.transactionId
  {
  }

  /** `updateEarning`. An unknown id is not found and nothing changes; otherwise
      the row takes each field the body gives. */
  method UpdateEarning(db: Database, id: nat, p: EarningPatch) returns (r: Result<EarningRow>)
    requires db.Valid()
    modifies db`earnings
    ensures db.Valid()
    ensures id !in old(db.earnings) ==>
      r == Fail(Failure(NotFound, "Earning record not found")) && unchanged(db)
    ensures id in old(db.earnings) ==>
      && r == Ok(MergedEarning(old(db.earnings)[id], p))
      && db.earnings == old(db.earnings)[id := r.value]
  {
    if id !in db.earnings {
      return Fail(Failure(NotFound, "Earning record not found"));
    }
    var row := MergedEarning(db.earnings[id], p);
    db.earnings := db.earnings[id := row];
    r := Ok(row);
  }

  /** `deleteEarning`. An unknown id is not found; otherwise exactly that row is removed. */
  method DeleteEarning(db: Database, id: nat) returns (r: Result<()>)
    requires db.Valid()
    modifies db`earnings
    ensures db.Valid()
    ensures id !in old(db.earnings) ==>
      r == Fail(Failure(NotFound, "Earning record not found")) && unchanged(db)
    ensures id in old(db.earnings) ==> r == Ok(()) && db.earnings == old(db.earnings) - {id}
  {
    if id !in db.earnings {
      return Fail(Failure(NotFound, "Earning record not found"));
    }
    db.earnings := db.earnings - {id};
    r := Ok(());
  }

  /** The query of `GET /earnings`; dates are timestamps. As for transactions,
      `None` is a parameter that is absent or empty, and `Some(n)` is the decimal
      text of `n`. */
  datatype EarningFilter = EarningFilter(
    currencyId: Option<nat>,
    kind: Option<string>,
    startDate: Option<int>,
    endDate: Option<int>)

  /** The `where` clause: each non-empty parameter adds one equality, compared
      under the table's collation for the type, and the date window applies only
      when both dates are given. */
  predicate MatchesEarning(row: EarningRow, f: EarningFilter) {
    && (f.currencyId.Some? ==> row.currencyId == f.currencyId.value)
    && (TruthyText(f.kind) ==> SameText(row.kind, f.kind.value))
    && InDateWindow(row.date, f.startDate, f.endDate)
  }

  /** The keys of the earnings the listing counts. */
  function MatchingEarnings(rows: map<nat, EarningRow>, f: EarningFilter): (r: set<nat>)
    ensures forall id :: id in r <==> id in rows && MatchesEarning(rows[id], f)
  {
    set id | id in rows && MatchesEarning(rows[id], f)
  }

  /** Narrowing the query by a currency never adds rows. */
  lemma CurrencyNarrows(rows: map<nat, EarningRow>, f: EarningFilter, currencyId: nat)
    ensures f.currencyId.None? ==> MatchingEarnings(rows, f.(currencyId := Some(currencyId))) <= MatchingEarnings(rows, f)
    ensures forall id :: id in MatchingEarnings(rows, f.(currencyId := Some(currencyId))) ==> rows[id].currencyId == currencyId
  {
  }

  /** A query whose parameters are all absent or empty lists every earning. */
  lemma EmptyEarningQueryListsAll(rows: map<nat, EarningRow>, f: EarningFilter)
    requires f.currencyId.None? && !TruthyText(f.kind)
    requires f.startDate.None? || f.endDate.None?
    ensures MatchingEarnings(rows, f) == rows.Keys
  {
  }

  /** Every listed earning agrees with each given parameter: the same currency, the
      type up to case, and a date inside a two-sided window. */
  lemma ListedEarningsAgree(rows: map<nat, EarningRow>, f: EarningFilter, id: nat)
    requires id in MatchingEarnings(rows, f)
    ensures id in rows
    ensures f.currencyId.Some? ==> rows[id].currencyId == f.currencyId.value
    ensures TruthyText(f.kind) ==> SameText(rows[id].kind, f.kind.value)
    ensures f.startDate.Some? && f.endDate.Some? ==> f.startDate.value <= rows[id].date <= f.endDate.value
  {
  }

  /** The sum of the amounts, added left to right from 0 as `reduce` does. */
  function Sum(rows: seq<EarningRow>): real {
    if rows == [] then 0.0 else Sum(rows[..|rows| - 1]) + rows[|rows| - 1].amount
  }

  /** The sum of two runs of rows is the sum of the first plus the sum of the second. */
  lemma {:induction false} SumAppend(a: seq<EarningRow>, b: seq<EarningRow>)
    ensures Sum(a + b) == Sum(a) + Sum(b)
    decreases |b|
  {
    if b == [] {
      assert a + b == a;
    } else {
      var last := b[|b| - 1];
      assert (a + b)[..|a + b| - 1] == a + b[..|b| - 1];
      SumAppend(a, b[..|b| - 1]);
    }
  }

  /** The total does not depend on the order `findAll` returns the rows in. */
  lemma {:induction false} SumPermutation(a: seq<EarningRow>, b: seq<EarningRow>)
    requires multiset(a) == multiset(b)
    ensures Sum(a) == Sum(b)
    decreases |a|
  {
    if a == [] {
      assert |b| == |multiset(b)| == 0;
    } else {
      var x := a[|a| - 1];
      assert x in multiset(b) by { assert x in multiset(a); }
      var i :| 0 <= i < |b| && b[i] == x;
      var rest := b[..i] + b[i + 1..];
      RemoveOne(a, b, i);
      SumPermutation(a[..|a| - 1], rest);
      SumWithout(b, i);
    }
  }

  /** Taking the last row off `a` and row `i` off `b`, both the same row, keeps
      the two multisets equal. */
  lemma RemoveOne(a: seq<EarningRow>, b: seq<EarningRow>, i: nat)
    requires multiset(a) == multiset(b) && |a| > 0 && i < |b| && b[i] == a[|a| - 1]
    ensures multiset(a[..|a| - 1]) == multiset(b[..i] + b[i + 1..])
  {
    var x := b[i];
    assert b == b[..i] + [x] + b[i + 1..];
    assert a == a[..|a| - 1] + [x];
    var left, right := multiset(a[..|a| - 1]), multiset(b[..i] + b[i + 1..]);
    assert left + multiset{x} == right + multiset{x};
    forall y ensures left[y] == right[y] {
      assert (left + multiset{x})[y] == (right + multiset{x})[y];
    }
  }

  /** The sum of a run is the sum without row `i`, plus that row's amount. */
  lemma SumWithout(b: seq<EarningRow>, i: nat)
    requires i < |b|
    ensures Sum(b) == Sum(b[..i] + b[i + 1..]) + b[i].amount
  {
    var x := b[i];
    assert b == (b[..i] + [x]) + b[i + 1..];
    SumAppend(b[..i] + [x], b[i + 1..]);
    SumAppend(b[..i], [x]);
    SumAppend(b[..i], b[i + 1..]);
    assert Sum([x]) == x.amount by { assert [x][..0] == []; }
  }

  /** `getTotalEarnings`: the rows `findAll` returns, added up; 0 when there are none. */
  method TotalEarnings(rows: seq<EarningRow>) returns (total: real)
    ensures total == Sum(rows)
    ensures rows == [] ==> total == 0.0
  {
    total := 0.0;
    var i := 0;
    while i < |rows|
      invariant 0 <= i <= |rows|
      invariant total == Sum(rows[..i])
    {
      assert rows[..i + 1][..i] == rows[..i];
      total := total + rows[i].amount;
      i := i + 1;
    }
    assert rows[..i] == rows;
  }

  /** What `reduce((sum, e) => sum + e.amount, 0)` gives when the driver hands the
      DECIMAL amounts over as strings: `0 + "12.50"` is the string "012.50", and
      every later `+` concatenates. */
  datatype JsValue = Number(n: real) | Text(s: string)

  function ReduceAsWritten(amounts: seq<string>): (v: JsValue)
    ensures amounts == [] ==> v == Number(0.0)
    ensures amounts != [] ==> v.Text? && |v.s| > 0 && v.s[0] == '0'
  {
    if amounts == [] then Number(0.0)
    else
      var prev := ReduceAsWritten(amounts[..|amounts| - 1]);
      var tail := amounts[|amounts| - 1];
      match prev
      case Number(_) => Text("0" + tail)
      case Text(s) => Text(s + tail)
  }

  /** Two earnings of 12.50 and 3.00 total "012.503.00", not 15.50. */
  lemma ReduceConcatenates()
    ensures ReduceAsWritten(["12.50", "3.00"]) == Text("012.503.00")
    ensures Sum([EarningRow(1, None, 12.5, 0, None, "other"), EarningRow(1, None, 3.0, 0, None, "other")]) == 15.5
  {
    var two := ["12.50", "3.00"];
    assert two[..1] == ["12.50"];
    assert two[..1][..0] == [];
    var rows := [EarningRow(1, None, 12.5, 0, None, "other"), EarningRow(1, None, 3.0, 0, None, "other")];
    assert rows[..1] == [rows[0]];
    assert rows[..1][..0] == [];
  }
}
