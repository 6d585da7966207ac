/** The company profile page: its list of company balance rows sorted starred
    first and then by currency name, and the guard of its balance edit. */
module Profile {
  import opened Common
  import opened Store
  import opened Balances

  /** A company balance row as listed: the currency's id and name with the row. */
  datatype Listed = Listed(currencyId: nat, currency: string, star: bool, balance: real, checkBalance: real)

  /** Code-point comparison of two names: negative, zero or positive. This stands
      in for `localeCompare`. */
  function NameCompare(a: string, b: string): (c: int)
    ensures -1 <= c <= 1
  {
    if a == [] && b == [] then 0
    else if a == [] then -1
    else if b == [] then 1
    else if a[0] < b[0] then -1
    else if a[0] > b[0] then 1
    else NameCompare(a[1..], b[1..])
  }

  lemma {:induction false} NameCompareZero(a: string, b: string)
    ensures NameCompare(a, b) == 0 <==> a == b
  {
    if a != [] && b != [] && a[0] == b[0] {
      NameCompareZero(a[1..], b[1..]);
      assert a == [a[0]] + a[1..] && b == [b[0]] + b[1..];
    }
  }

  lemma {:induction false} NameCompareFlip(a: string, b: string)
    ensures NameCompare(b, a) == -NameCompare(a, b)
  {
    if a != [] && b != [] && a[0] == b[0] {
      NameCompareFlip(a[1..], b[1..]);
    }
  }

  lemma {:induction false} NameCompareTransitive(a: string, b: string, c: string)
    requires NameCompare(a, b) <= 0 && NameCompare(b, c) <= 0
    ensures NameCompare(a, c) <= 0
  {
    if a != [] && b != [] && c != [] && a[0] == b[0] && b[0] == c[0] {
      NameCompareTransitive(a[1..], b[1..], c[1..]);
    }
  }

  /** The comparator of `sortCurrencies`: a starred row before an unstarred one,
      and otherwise by currency name. */
  function Compare(a: Listed, b: Listed): int {
    if a.star && !b.star then -1
    else if !a.star && b.star then 1
    else NameCompare(a.currency, b.currency)
  }

  /** `a` may stand before `b`. */
  predicate Before(a: Listed, b: Listed) {
    Compare(a, b) <= 0
  }

  lemma BeforeTotal(a: Listed, b: Listed)
    ensures Before(a, b) || Before(b, a)
  {
    NameCompareFlip(a.currency, b.currency);
  }

  lemma BeforeTransitive(a: Listed, b: Listed, c: Listed)
    requires Before(a, b) && Before(b, c)
    ensures Before(a, c)
  {
    if a.star == b.star && b.star == c.star {
      NameCompareTransitive(a.currency, b.currency, c.currency);
    }
  }

  predicate Sorted(s: seq<Listed>) {
    forall i, j :: 0 <= i < j < |s| ==> Before(s[i], s[j])
  }

  /** `x` placed in front of the first row it must precede, after every row it
      ties with, so equal rows keep their order. */
  function Insert(x: Listed, s: seq<Listed>): (r: seq<Listed>)
    ensures multiset(r) == multiset(s) + multiset{x}
  {
    if s == [] then [x]
    else if Compare(x, s[0]) < 0 then [x] + s
    else
      assert s == [s[0]] + s[1..];
      [s[0]] + Insert(x, s[1..])
  }

  lemma CompareFlip(a: Listed, b: Listed)
    ensures Compare(b, a) == -Compare(a, b)
  {
    NameCompareFlip(a.currency, b.currency);
  }

  lemma SortedTail(s: seq<Listed>)
    requires Sorted(s) && s != []
    ensures Sorted(s[1..])
  {
    forall i, j | 0 <= i < j < |s[1..]|
      ensures Before(s[1..][i], s[1..][j])
    {
      assert s[1..][i] == s[i + 1] && s[1..][j] == s[j + 1];
    }
  }

  lemma SortedCons(a: Listed, s: seq<Listed>)
    requires Sorted(s) && forall k :: 0 <= k < |s| ==> Before(a, s[k])
    ensures Sorted([a] + s)
  {
    var r := [a] + s;
    forall i, j | 0 <= i < j < |r|
      ensures Before(r[i], r[j])
    {
      assert r[j] == s[j - 1];
      if i > 0 {
        assert r[i] == s[i - 1];
      }
    }
  }

  /** Inserting into a sorted list keeps it sorted. */
  lemma {:induction false} InsertSorted(x: Listed, s: seq<Listed>)
    requires Sorted(s)
    ensures Sorted(Insert(x, s))
  {
    if s == [] {
    } else if Compare(x, s[0]) < 0 {
      forall j | 0 <= j < |s|
        ensures Before(x, s[j])
      {
        if j > 0 {
          BeforeTransitive(x, s[0], s[j]);
        }
      }
      SortedCons(x, s);
    } else {
      var rest := Insert(x, s[1..]);
      SortedTail(s);
      InsertSorted(x, s[1..]);
      CompareFlip(x, s[0]);
      forall k | 0 <= k < |rest|
        ensures Before(s[0], rest[k])
      {
        assert rest[k] in multiset(rest);
        if rest[k] != x {
          assert rest[k] in multiset(s[1..]);
          var m :| 0 <= m < |s[1..]| && s[1..][m] == rest[k];
          assert s[1..][m] == s[m + 1];
        }
      }
      SortedCons(s[0], rest);
    }
  }

  /** Sorting the copy, one row at a time. */
  function SortRows(s: seq<Listed>): (r: seq<Listed>)
    ensures Sorted(r)
    ensures multiset(r) == multiset(s)
  {
    if s == [] then []
    else
      assert s == s[..|s| - 1] + [s[|s| - 1]];
      var sorted := SortRows(s[..|s| - 1]);
      InsertSorted(s[|s| - 1], sorted);
      Insert(s[|s| - 1], sorted)
  }

  /** `sortCurrencies`: no list gives an empty list; otherwise the rows sorted. */
  function SortCurrencies(currencies: Option<seq<Listed>>): (r: seq<Listed>)
    ensures currencies.None? ==> r == []
    ensures currencies.Some? ==> Sorted(r) && multiset(r) == multiset(currencies.value)
  {
    if currencies.None? then [] else SortRows(currencies.value)
  }

  /** In the sorted list every starred row comes before every unstarred row, and
      rows of the same star status are in name order. */
  lemma StarredFirst(currencies: seq<Listed>, i: nat, j: nat)
    requires i < j < |SortCurrencies(Some(currencies))|
    ensures var r := SortCurrencies(Some(currencies));
      && (r[j].star ==> r[i].star)
      && (r[i].star == r[j].star ==> NameCompare(r[i].currency, r[j].currency) <= 0)
  {
  }

  /** The request `handleUpdateBalance` sends: nothing without a selected row;
      otherwise the selected currency with the two entered amounts and no star. */
  function BalanceUpdate(current: Option<Listed>, cash: real, check: real): (r: Option<(nat, BalancePatch)>)
    ensures r.None? <==> current.None?
    ensures r.Some? ==> r.value.0 == current.value.currencyId
    ensures r.Some? ==> r.value.1 == BalancePatch(Some(cash), Some(check), None)
  {
    if current.None? then None
    else Some((current.value.currencyId, BalancePatch(Some(cash), Some(check), None)))
  }

  /** Applied by `updateCompanyBalance`, the request sets both balances and keeps
      the row's star (a new row starts unstarred). */
  lemma BalanceUpdateKeepsStar(current: Listed, cash: real, check: real, rows: map<nat, Balance>)
    ensures var (id, patch) := BalanceUpdate(Some(current), cash, check).value;
      Upsert(rows, id, patch)[id] == Balance(cash, check, RowOrZero(rows, id).star)
  {
  }
}
