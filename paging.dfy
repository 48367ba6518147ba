/** Pagination arithmetic shared by the three list endpoints: the row offset
    of a page and the number of pages needed for the matching records. */
module Paging {

  /** The `pagination` object of a list response. */
  datatype Pagination = Pagination(page: int, limit: int, totalRecords: nat, totalPages: nat)

  /** `offset = (pageNum - 1) * limitNum`: the number of rows on the pages
      before `page`. */
  function Offset(page: int, limit: int): (r: int)
    ensures page == 1 ==> r == 0
    ensures page >= 1 && limit >= 0 ==> r >= 0
  {
    (page - 1) * limit
  }

  /** Consecutive pages abut: the next page starts `limit` rows further on. */
  lemma PagesAbut(page: int, limit: int)
    ensures Offset(page + 1, limit) == Offset(page, limit) + limit
  {
  }

  /** `Math.ceil(totalRecords / limitNum)` on integers: the fewest pages of
      `limit` rows that hold `total` rows. */
  function TotalPages(total: nat, limit: int): (r: nat)
    requires limit > 0
    ensures r * limit >= total
    ensures r == 0 || (r - 1) * limit < total
  {
    var n := total + limit - 1;
    var q := n / limit;
    assert n == q * limit + n % limit;
    assert (q - 1) * limit == q * limit - limit;
    q
  }

  /** The contract of TotalPages pins the result down: no other page count is
      both large enough and without a trailing empty page. */
  lemma TotalPagesUnique(total: nat, limit: int, n: nat)
    requires limit > 0
    requires n * limit >= total
    requires n == 0 || (n - 1) * limit < total
    ensures n == TotalPages(total, limit)
  {
    var r := TotalPages(total, limit);
    if n < r {
      assert n <= r - 1;
      assert n * limit <= (r - 1) * limit by {
        MulMonotone(n, r - 1, limit);
      }
    } else if n > r {
      assert r <= n - 1;
      assert r * limit <= (n - 1) * limit by {
        MulMonotone(r, n - 1, limit);
      }
    }
  }

  lemma MulMonotone(a: nat, b: nat, c: nat)
    requires a <= b
    ensures a * c <= b * c
  {
    assert b * c == a * c + (b - a) * c;
  }

  /** The pages 1..totalPages are exactly the pages that start on a matching
      record: each of them has a row at its offset, and the next one does not. */
  lemma PagesCoverRecords(total: nat, limit: int, page: int)
    requires limit > 0
    ensures 1 <= page <= TotalPages(total, limit) <==> 0 <= Offset(page, limit) < total
  {
    var r := TotalPages(total, limit);
    if 1 <= page <= r {
      MulMonotone(page - 1, r - 1, limit);
    } else if page > r {
      MulMonotone(r, page - 1, limit);
    } else {
      assert page - 1 < 0;
      assert (page - 1) * limit < 0 by {
        MulMonotone(0, 1 - page, limit);
        assert (page - 1) * limit == -((1 - page) * limit);
      }
    }
  }

  /** The pagination summary a list response echoes. */
  function Summary(page: int, limit: int, totalRecords: nat): (p: Pagination)
    requires limit > 0
    ensures p.page == page && p.limit == limit && p.totalRecords == totalRecords
    ensures p.totalPages * limit >= totalRecords
    ensures p.totalPages == 0 || (p.totalPages - 1) * limit < totalRecords
  {
    Pagination(page, limit, totalRecords, TotalPages(totalRecords, limit))
  }

  /** Twenty-five records at ten per page make three pages; the third starts
      at record 20. */
  lemma ExampleTwentyFiveRecords()
    ensures TotalPages(25, 10) == 3 && Offset(3, 10) == 20
  {
  }
}
