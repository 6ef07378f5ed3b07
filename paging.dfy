/** Normalisation shared by the list endpoints: the response envelope, the
    statements a list handler hands to the store, the row offset of a page,
    the defaults for a missing page, page size and order key, and the
    whitelists that map a client's order key to the only ORDER BY fragments
    that ever reach the SQL text. */
module Paging {
  import opened Common

  /** The JSON envelope of a list response. */
  datatype Page<T> = Page(page: int, pageSize: int, allCount: int, count: int, results: seq<T>)

  /** The statements a list handler issues, with their bound values and the
      SQL fragments spliced into their text (the count query's scope filter,
      the list query's scope filter and ORDER BY fragment). */
  datatype Query =
    | CountQuery(filter: string)
    | PageQuery(filter: string, limit: nat, offset: nat, order: string)
    | MetaPageQuery(limit: nat, offset: nat, order: string)

  const DEFAULT_PAGE: nat := 1
  const DEFAULT_PAGE_SIZE: nat := 10

  /** `(page - 1) * page_size` as the source computes it, in `u32`: the
      product wraps around (and panics in a debug build) once it passes
      2^32 - 1. */
  function OffsetAsWritten(page: u32, pageSize: u32): (offset: u32)
    requires page >= 1
    ensures offset == Offset(page, pageSize) % U32_MODULUS
    ensures Offset(page, pageSize) < U32_MODULUS ==> offset == Offset(page, pageSize)
  {
    AsU32((page - 1) * pageSize)
  }

  /** Two values that pass the query validation (both at least 1) give page
      65537 the offset of page 1, and page 65537 does not start where page
      65536 ends. */
  lemma OffsetAsWrittenWraps()
    ensures OffsetAsWritten(65537, 65536) == OffsetAsWritten(1, 65536) == 0
    ensures OffsetAsWritten(65537, 65536) != OffsetAsWritten(65536, 65536) + 65536
  {
  }

  /** The offset computed without wrap-around (in a 64-bit integer, where
      the product of two `u32` values always fits). */
  function Offset(page: nat, pageSize: nat): (offset: nat)
    requires page >= 1
    ensures offset == 0 <==> page == 1 || pageSize == 0
    ensures pageSize > 0 ==> offset % pageSize == 0 && offset / pageSize == page - 1
  {
    WholePages(page - 1, pageSize);
    (page - 1) * pageSize
  }

  /** `k` whole pages of `size` rows are `k` pages and no remainder. */
  lemma WholePages(k: nat, size: nat)
    ensures size > 0 ==> (k * size) % size == 0 && (k * size) / size == k
  {
    if size > 0 {
      var q, r := (k * size) / size, (k * size) % size;
      assert k * size == q * size + r;
      QuotientIsUnique(k, q, r, size);
    }
  }

  /** With a remainder below the divisor, the quotient is determined. */
  lemma QuotientIsUnique(k: int, q: int, r: int, size: int)
    requires size > 0 && 0 <= r < size && k * size == q * size + r
    ensures k == q && r == 0
  {
    assert (k - q) * size == r by {
      assert (k - q) * size == k * size - q * size;
    }
    if k - q >= 1 {
      MulMonotonic(1, size, k - q, size);
    } else if k - q < 0 {
      MulMonotonic(1, size, q - k, size);
    }
  }

  /** The offset is the number of rows on the pages before this one: page 1
      starts at row 0 and every page starts where the previous one ends. */
  lemma OffsetTilesPages(page: nat, pageSize: nat)
    requires page >= 1
    ensures Offset(1, pageSize) == 0
    ensures Offset(page + 1, pageSize) == Offset(page, pageSize) + pageSize
  {
  }

  /** For `u32` inputs the exact offset fits in a `u64`. */
  lemma OffsetFitsU64(page: u32, pageSize: u32)
    requires page >= 1
    ensures Offset(page, pageSize) < U32_MODULUS * U32_MODULUS
  {
    MulMonotonic(page - 1, pageSize, U32_MODULUS - 1, U32_MODULUS - 1);
  }

  lemma MulMonotonic(a: nat, b: nat, c: nat, d: nat)
    requires a <= c && b <= d
    ensures a * b <= c * d
  {
  }

  /** What a list handler resolved a query to before any list query runs. */
  datatype ListPlan = ListPlan(page: nat, pageSize: nat, offset: nat, order: string)

  /** Defaults (page 1, page size 10, order key `defaultKey`), the offset, and
      the order key looked up with `order`; a rejected key rejects the plan. */
  function PlanList(page: Option<u32>, pageSize: Option<u32>, orderBy: Option<string>,
                    defaultKey: string, order: string -> Result<string, FieldError>): (r: Result<ListPlan, FieldError>)
    requires page != Some(0)
    ensures r.Err? <==> order(orderBy.GetOr(defaultKey)).Err?
    ensures r.Err? ==> r.error == order(orderBy.GetOr(defaultKey)).error
    ensures r.Ok? ==> r.value.page == page.GetOr(DEFAULT_PAGE) >= 1
    ensures r.Ok? ==> r.value.pageSize == pageSize.GetOr(DEFAULT_PAGE_SIZE)
    ensures r.Ok? ==> r.value.offset == Offset(r.value.page, r.value.pageSize)
    ensures r.Ok? ==> r.value.order == order(orderBy.GetOr(defaultKey)).value
  {
    var p := page.GetOr(DEFAULT_PAGE);
    var size := pageSize.GetOr(DEFAULT_PAGE_SIZE);
    var key := orderBy.GetOr(defaultKey);
    var offset := Offset(p, size);
    match order(key)
    case Err(e) => Err(e)
    case Ok(fragment) => Ok(ListPlan(p, size, offset, fragment))
  }

  /** The order whitelist of content rows (attachments and posts). */
  const CONTENT_ORDER: map<string, string> :=
    map["cid" := "cid", "-cid" := "cid DESC", "slug" := "slug", "-slug" := "slug DESC"]

  /** The order whitelist of the users table. */
  const USER_ORDER: map<string, string> :=
    map["uid" := "uid", "-uid" := "uid DESC", "name" := "name", "-name" := "name DESC",
        "mail" := "mail", "-mail" := "mail DESC"]
}
