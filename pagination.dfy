/** `src/hooks/usePagination.ts`: the current page and the arithmetic
    derived from it.

    `pageCount = Math.max(1, Math.ceil(total / pageSize))` and
    `offset = (page - 1) * pageSize`; `setPage` stores whatever page it is given. */
module Pagination {

  /** `Math.ceil(a / d)` for a positive divisor (Dafny's `/` rounds down here). */
  function CeilDiv(a: int, d: int): int
    requires d > 0
  {
    -((-a) / d)
  }

  function PageCount(total: int, pageSize: int): (n: int)
    requires pageSize > 0
    ensures n >= 1
  {
    var c := CeilDiv(total, pageSize);
    if c > 1 then c else 1
  }

  function Offset(page: int, pageSize: int): int {
    (page - 1) * pageSize
  }

  datatype Info = Info(page: int, pageSize: int, pageCount: int, offset: int)

  class Pager {
    const total: int
    const pageSize: int
    var page: int

    /** `usePagination(total, pageSize = 10)`. */
    constructor (total: int, pageSize: int := 10)
      requires pageSize > 0
      ensures this.total == total && this.pageSize == pageSize && page == 1
    {
      this.total := total;
      this.pageSize := pageSize;
      page := 1;
    }

    function Count(): int
      requires pageSize > 0
    {
      PageCount(total, pageSize)
    }

    function CurrentOffset(): int
      reads this
    {
      Offset(page, pageSize)
    }

    /** The memoised `info` object. */
    function CurrentInfo(): (i: Info)
      reads this
      requires pageSize > 0
      ensures i.pageCount >= 1
      ensures i.page == 1 ==> i.offset == 0
    {
      Info(page, pageSize, Count(), CurrentOffset())
    }

    /** `setPage(p)`: no clamping to `1..pageCount`. */
    method SetPage(p: int)
      modifies this
      ensures page == p
    {
      page := p;
    }
  }

  lemma CeilDivBounds(a: int, d: int)
    requires d > 0
    ensures var c := CeilDiv(a, d); (c - 1) * d < a <= c * d
  {
    var q := (-a) / d;
    assert -a == d * q + (-a) % d && 0 <= (-a) % d < d;
    assert (-q - 1) * d == -(q * d) - d;
    assert (-q) * d == -(q * d);
  }

  /** The pages cover every item, and the last page is not empty:
      `(pageCount - 1) * pageSize < total <= pageCount * pageSize`. With no
      items there is still one page. */
  lemma PageCountCovers(total: int, pageSize: int)
    requires pageSize > 0
    ensures total > 0 ==>
      (PageCount(total, pageSize) - 1) * pageSize < total <= PageCount(total, pageSize) * pageSize
    ensures total <= 0 ==> PageCount(total, pageSize) == 1
  {
    CeilDivBounds(total, pageSize);
    var c := CeilDiv(total, pageSize);
    if c >= 1 {
      MulMonotone(0, c - 1, pageSize);
    } else {
      MulMonotone(c, 0, pageSize);
    }
  }

  /** Page 1 starts at item 0 and each page starts `pageSize` items after the
      one before it. */
  lemma OffsetSteps(page: int, pageSize: int)
    ensures Offset(1, pageSize) == 0
    ensures Offset(page + 1, pageSize) == Offset(page, pageSize) + pageSize
  {
  }

  lemma MulMonotone(a: int, b: int, d: int)
    requires d > 0 && a <= b
    ensures a * d <= b * d
  {
  }

  /** Every page from 1 to `pageCount` starts inside the items; since
      `setPage` does not clamp, a page past `pageCount` starts at or beyond
      the last item. */
  lemma OffsetWithinItems(total: int, pageSize: int, page: int)
    requires pageSize > 0 && total > 0
    ensures 1 <= page <= PageCount(total, pageSize) ==> 0 <= Offset(page, pageSize) < total
    ensures page > PageCount(total, pageSize) ==> Offset(page, pageSize) >= total
  {
    var n := PageCount(total, pageSize);
    PageCountCovers(total, pageSize);
    if 1 <= page <= n {
      MulMonotone(page - 1, n - 1, pageSize);
      MulMonotone(0, page - 1, pageSize);
    }
    if page > n {
      MulMonotone(n, page - 1, pageSize);
    }
  }

  /** 95 items at the default page size make ten pages; page 10 starts at
      item 90, and page 12 can be set. */
  method Example()
  {
    var pager := new Pager(95);
    assert pager.Count() == 10;
    pager.SetPage(10);
    assert pager.CurrentOffset() == 90;
    pager.SetPage(12);
    assert pager.page == 12 && pager.page > pager.Count();
  }
}
