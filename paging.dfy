/**
 * The paging part of a list request: the optional sorting, the 1-based page the
 * client asks for, and the zero-based page request handed to the repository.
 */
module Paging {

  import opened Wrappers
  import opened Text

  datatype Direction = ASC | DESC

  /** Sort.Order: a direction and the property it orders by. */
  datatype Order = Order(direction: Direction, property: string)

  /** Sort: unsorted, or a list of orders applied in sequence. */
  datatype Sort = Unsorted | Sorted(orders: seq<Order>)

  /** CustomSorting: both fields are optional (null when absent). */
  datatype CustomSorting = CustomSorting(sortBy: Option<string>, sortDirection: Option<string>)

  /** CustomPaging, as the client sends it: a 1-based page number and a page size. */
  datatype CustomPaging = CustomPaging(pageNumber: int, pageSize: int)

  /** CustomPagingRequest: the pagination is required, the sorting optional. */
  datatype CustomPagingRequest = CustomPagingRequest(pagination: CustomPaging, sorting: Option<CustomSorting>)

  /** PageRequest: a zero-based page index, a page size and a sort. */
  datatype PageRequest = PageRequest(page: int, size: int, sort: Sort)

  /** CustomPaging.getPageNumber(): the zero-based index of the requested page. */
  function PageIndex(p: CustomPaging): int {
    p.pageNumber - 1
  }

  /** The 1-based page number a zero-based page index is reported back as. */
  function PageNumberOf(index: int): int {
    index + 1
  }

  lemma PageNumberRoundTrip(p: CustomPaging)
    ensures PageNumberOf(PageIndex(p)) == p.pageNumber
  {
  }

  /** CustomSorting.toSort: no order for a missing or blank property; otherwise one
      order on it, descending only for "DESC" in any case. */
  function ToSort(s: CustomSorting): (r: Sort)
    ensures r.Unsorted? <==> s.sortBy.None? || IsBlank(s.sortBy.value)
    ensures r.Sorted? ==> |r.orders| == 1 && r.orders[0].property == s.sortBy.value
    ensures r.Sorted? ==>
      (r.orders[0].direction == DESC <==> s.sortDirection.Some? && EqualsIgnoreCase("DESC", s.sortDirection.value))
  {
    if s.sortBy.Some? && !IsBlank(s.sortBy.value) then
      var direction := if s.sortDirection.Some? && EqualsIgnoreCase("DESC", s.sortDirection.value) then DESC else ASC;
      Sorted([Order(direction, s.sortBy.value)])
    else Unsorted
  }

  /** The direction is read without regard to case. */
  lemma ToSortIgnoresDirectionCase(sortBy: Option<string>, d1: string, d2: string)
    requires EqualsIgnoreCase(d1, d2)
    ensures ToSort(CustomSorting(sortBy, Some(d1))) == ToSort(CustomSorting(sortBy, Some(d2)))
  {
    EqualsIgnoreCaseIsLowerEquality("DESC", d1);
    EqualsIgnoreCaseIsLowerEquality("DESC", d2);
    EqualsIgnoreCaseIsLowerEquality(d1, d2);
  }

  /** Whatever is not "DESC" (a missing direction, "ASC", "INVALID", ...) sorts ascending. */
  lemma OtherDirectionsAscend(sortBy: string, d: Option<string>)
    requires !IsBlank(sortBy)
    requires d.None? || !EqualsIgnoreCase("DESC", d.value)
    ensures ToSort(CustomSorting(Some(sortBy), d)) == Sorted([Order(ASC, sortBy)])
  {
  }

  /** PageRequest.of(page, size, sort), which rejects a negative page index and a
      page size below one with IllegalArgumentException. */
  function PageRequestOf(page: int, size: int, sort: Sort): (r: Result<PageRequest, string>)
    ensures r.Ok? <==> page >= 0 && size >= 1
    ensures r.Ok? ==> r.value == PageRequest(page, size, sort)
  {
    if page < 0 then Err("Page index must not be less than zero")
    else if size < 1 then Err("Page size must not be less than one")
    else Ok(PageRequest(page, size, sort))
  }

  /** CustomPagingRequest.toPageable. */
  function ToPageable(req: CustomPagingRequest): (r: Result<PageRequest, string>)
    ensures r.Ok? <==> req.pagination.pageNumber >= 1 && req.pagination.pageSize >= 1
    ensures r.Ok? ==> PageNumberOf(r.value.page) == req.pagination.pageNumber
    ensures r.Ok? ==> r.value.size == req.pagination.pageSize
    ensures r.Ok? && req.sorting.None? ==> r.value.sort == Unsorted
    ensures r.Ok? && req.sorting.Some? ==> r.value.sort == ToSort(req.sorting.value)
  {
    var sort := if req.sorting.Some? then ToSort(req.sorting.value) else Unsorted;
    PageRequestOf(PageIndex(req.pagination), req.pagination.pageSize, sort)
  }

  /** A request the validation constraints accept (page number and size at least
      one) always yields a page request. */
  lemma ValidPagingConverts(req: CustomPagingRequest)
    requires req.pagination.pageNumber >= 1 && req.pagination.pageSize >= 1
    ensures ToPageable(req).Ok?
    ensures ToPageable(req).value.page == req.pagination.pageNumber - 1
  {
  }
}
