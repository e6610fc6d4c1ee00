/**
 * The pagination request and response shapes, the default page size and the
 * integer ceiling division behind the page count.
 */
module Pagination {
  import opened Wrappers

  newtype u32 = x: int | 0 <= x < 0x1_0000_0000

  /** A page size the service may fall back to; at least 2 (the paging test relies on it). */
  type DefaultPageSize = n: u32 | 2 <= n witness 2

  /** `DEFAULT_PER_PAGE`; its value is defined outside this model, only its range is known. */
  const DEFAULT_PER_PAGE: DefaultPageSize

  datatype PaginationParameters = PaginationParameters(itemsPerPage: u32, page: u32, query: Option<string>)

  datatype PaginationResponse = PaginationResponse(currentPage: u32, totalItems: nat, totalPages: nat)

  /** The least number of pages of `size` items that hold `n` items. */
  function CeilDiv(n: nat, size: nat): (pages: nat)
    requires size > 0
    ensures pages * size >= n
    ensures pages > 0 ==> (pages - 1) * size < n
  {
    var q := (n + size - 1) / size;
    assert q * size >= n && (q > 0 ==> (q - 1) * size < n) by {
      DivisionBounds(n + size - 1, size);
    }
    q
  }

  lemma DivisionBounds(m: nat, size: nat)
    requires size > 0
    ensures (m / size) * size <= m < (m / size + 1) * size
  {
  }

  /** The ceiling is the unique page count with those two bounds. */
  lemma CeilDivUnique(n: nat, size: nat, pages: nat)
    requires size > 0
    requires pages * size >= n
    requires pages > 0 ==> (pages - 1) * size < n
    ensures pages == CeilDiv(n, size)
  {
    var q := CeilDiv(n, size);
    if q > 0 {
      ScaleMonotone(pages, q - 1, size);
    }
    if pages > 0 {
      ScaleMonotone(q, pages - 1, size);
    }
  }

  lemma ScaleMonotone(a: int, b: int, size: nat)
    ensures a <= b ==> a * size <= b * size
  {
  }
}
