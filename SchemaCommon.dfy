/** The shared pieces of the API schemas (api/schemas/common.py): the
    pagination envelope and `paginate`, plus the two notions every request
    schema rests on, a field a request may leave out and the per-field
    errors validation reports, in field order. */
module SchemaCommon {
  import opened Common

  /** A request field: left out of the request, or given a value. */
  datatype Input<T> = Omitted | Given(value: T)

  /** One validation error, against the field it concerns: a required
      field left out, a declared constraint broken (`ge`, `max_length`, an
      enum member), or a validator's own ValueError. */
  datatype FieldError =
    | Missing(field: string)
    | Constraint(field: string, constraint: string)
    | Invalid(field: string, message: string)

  /** The errors one field contributes: its error, or none. */
  function ErrorsOf<T>(r: Result<T, FieldError>): (errs: seq<FieldError>)
    ensures |errs| <= 1
    ensures errs == [] <==> r.Ok?
  {
    if r.Ok? then [] else [r.error]
  }

  /** A required field: left out is an error. */
  function Required<T>(field: string, i: Input<T>): (r: Result<T, FieldError>)
    ensures r.Ok? <==> i.Given?
    ensures r.Ok? ==> r.value == i.value
    ensures r.Err? ==> r.error == Missing(field)
  {
    match i
    case Omitted => Err(Missing(field))
    case Given(v) => Ok(v)
  }

  /** PaginationMeta. */
  datatype PaginationMeta = PaginationMeta(total: int, page: int, perPage: int, totalPages: int)

  /** PaginationMeta's field constraints: total >= 0, page >= 1,
      per_page >= 1, total_pages >= 0. */
  predicate ValidMeta(m: PaginationMeta)
  {
    m.total >= 0 && m.page >= 1 && m.perPage >= 1 && m.totalPages >= 0
  }

  /** PaginatedResponse: the items of one page and the meta. */
  datatype Page<T> = Page(items: seq<T>, meta: PaginationMeta)

  /** paginate's page count, `(total + per_page - 1) // per_page`, and 0 for
      a per_page that is not positive. Python's `//` floors; for a positive
      divisor Dafny's `/` does too. The count is the ceiling of
      total / per_page: the fewest pages of per_page items that hold all
      total items. */
  function TotalPages(total: int, perPage: int): (n: int)
    ensures perPage <= 0 ==> n == 0
    ensures perPage > 0 ==> (n - 1) * perPage < total <= n * perPage
  {
    if perPage > 0 then
      var n := (total + perPage - 1) / perPage;
      var rem := (total + perPage - 1) % perPage;
      assert total + perPage - 1 == n * perPage + rem && 0 <= rem < perPage;
      assert (n - 1) * perPage == n * perPage - perPage;
      n
    else 0
  }

  /** Multiplying by a non-negative number keeps an order. */
  lemma MulMono(a: int, b: int, c: int)
    requires a <= b && c >= 0
    ensures a * c <= b * c
  {
    assert b * c - a * c == (b - a) * c;
  }

  /** The ceiling is the only count that fits: any k with
      (k - 1) * per_page < total <= k * per_page is TotalPages. */
  lemma TotalPagesUnique(total: int, perPage: int, k: int)
    requires perPage > 0
    requires (k - 1) * perPage < total <= k * perPage
    ensures k == TotalPages(total, perPage)
  {
    var n := TotalPages(total, perPage);
    if k < n {
      MulMono(k, n - 1, perPage);
    } else if k > n {
      MulMono(n, k - 1, perPage);
    }
  }

  /** No items need no pages; any item needs at least one. */
  lemma TotalPagesZero(total: int, perPage: int)
    requires perPage > 0 && total >= 0
    ensures TotalPages(total, perPage) == 0 <==> total == 0
    ensures TotalPages(total, perPage) >= 0
  {
    var n := TotalPages(total, perPage);
    if n < 0 {
      MulMono(n, -1, perPage);
    }
  }

  /** paginate: the items unchanged and the meta built from the arguments,
      with the page count above. */
  function Paginate<T>(items: seq<T>, total: int, page: int, perPage: int): (r: Page<T>)
    ensures r.items == items
    ensures r.meta.total == total && r.meta.page == page && r.meta.perPage == perPage
    ensures perPage > 0 ==> (r.meta.totalPages - 1) * perPage < total <= r.meta.totalPages * perPage
    ensures perPage <= 0 ==> r.meta.totalPages == 0
  {
    Page(items, PaginationMeta(total, page, perPage, TotalPages(total, perPage)))
  }

  /** Arguments within PaginationMeta's constraints give a meta that
      PaginationMeta accepts. */
  lemma PaginateValid<T>(items: seq<T>, total: int, page: int, perPage: int)
    requires total >= 0 && page >= 1 && perPage >= 1
    ensures ValidMeta(Paginate(items, total, page, perPage).meta)
  {
    TotalPagesZero(total, perPage);
  }
}
