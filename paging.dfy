/** The listing arithmetic shared by `getTransactions` and `getAllEarnings`: the
    `page`/`limit` query defaults, the row offset of a page, the number of pages
    reported for a total, and the date window applied only when both ends are given. */
module Paging {
  import opened Common

  /** `page = 1` and `limit = 10` when the query leaves them out. */
  const DefaultPage := 1
  const DefaultLimit := 10

  /** `offset: (page - 1) * limit`. */
  function Offset(page: int, limit: int): int {
    (page - 1) * limit
  }

  /** `pages: Math.ceil(count / limit)` for a positive limit; for a limit of 0 or
      below the quotient is not a page count (Infinity, NaN or negative), which is
      `None` here. */
  function PageCount(total: nat, limit: int): (r: Option<nat>)
    ensures r.None? <==> limit <= 0
    // The smallest number of pages of `limit` rows that hold `total` rows.
    ensures r.Some? ==> r.value * limit >= total
    ensures r.Some? && r.value > 0 ==> (r.value - 1) * limit < total
  {
    if limit <= 0 then None
    else
      var q := (total + limit - 1) / limit;
      DivBounds(total + limit - 1, limit);
      Some(q)
  }

  /** The two bounds of Euclidean division by a positive divisor. */
  lemma DivBounds(a: nat, d: int)
    requires d > 0
    ensures (a / d) * d <= a < (a / d) * d + d
  {
  }

  /** The rows of page `page`: those from `Offset(page, limit)` up to, not including,
      `Offset(page, limit) + limit`. */
  predicate OnPage(i: nat, page: int, limit: int) {
    Offset(page, limit) <= i < Offset(page, limit) + limit
  }

  /** With a positive limit every row of a listing lies on exactly one page, and
      that page is among the `PageCount` pages reported. */
  lemma {:induction false} RowOnOnePage(total: nat, limit: int, i: nat)
    requires limit > 0 && i < total
    ensures var p := i / limit + 1;
      && OnPage(i, p, limit)
      && 1 <= p <= PageCount(total, limit).value
      && forall q :: OnPage(i, q, limit) ==> q == p
  {
    var p := i / limit + 1;
    DivBounds(i, limit);
    assert Offset(p, limit) == (i / limit) * limit;
    var n := PageCount(total, limit).value;
    if p > n {
      assert (p - 1) * limit >= n * limit by {
        MulMonotone(n, p - 1, limit);
      }
      assert false;
    }
    forall q | OnPage(i, q, limit)
      ensures q == p
    {
      if q < p {
        MulMonotone(q, p - 1, limit);
        assert false;
      } else if q > p {
        MulMonotone(p, q - 1, limit);
        assert false;
      }
    }
  }

  lemma MulMonotone(a: int, b: int, c: int)
    requires a <= b && c > 0
    ensures a * c <= b * c
  {
  }

  /** `where.created = { [Op.between]: [startDate, endDate] }` is added only when
      both dates are given; `between` includes both ends. */
  predicate InDateWindow(t: int, startDate: Option<int>, endDate: Option<int>) {
    startDate.Some? && endDate.Some? ==> startDate.value <= t <= endDate.value
  }

  /** With one end missing the window is not applied at all. */
  lemma OneSidedWindowIgnored(t: int, startDate: Option<int>, endDate: Option<int>)
    requires startDate.None? || endDate.None?
    ensures InDateWindow(t, startDate, endDate)
  {
  }
}
