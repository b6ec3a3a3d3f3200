/** A user's own expenses: the expense list without the staff filter, with
    a page-size selector, and with a computed item count when the server
    leaves it out. */
module UserExpenses {
  import opened Wrappers
  import opened Query
  import opened ListView
  import opened Pagination
  import opened Amounts
  import opened FilterLink
  import Expenses

  /** This list has no staff filter: its `staff_id` field stays empty. */
  datatype View = View(
    filters: Filters, currentPage: int, pageSize: int, totalPages: int, totalItems: int,
    pages: seq<int>, expenses: seq<Row>, filtered: seq<Row>)

  /** The list asks for 100 rows per page until the paginator says otherwise. */
  const InitialPageSize := 100

  const Initial := View(Empty, 0, InitialPageSize, 0, 0, [], [], [])

  /** The filters this list can set: everything but the staff member. */
  predicate NoStaff(v: View)
  {
    v.filters.staff_id == ""
  }

  /** hasActiveFilters here looks at four filters: the five-filter test
      with the staff member left out. */
  predicate HasActiveFilters(f: Filters): (active: bool)
    ensures active <==> FilterLink.HasActiveFilters(f.(staff_id := ""))
  {
    f.category_id != "" || f.comment != "" || f.startDate != "" || f.endDate != ""
  }

  /** Without a staff filter the four-filter test is the five-filter one. */
  lemma ActiveAgreesWithExpenses(f: Filters)
    requires f.staff_id == ""
    ensures HasActiveFilters(f) <==> FilterLink.HasActiveFilters(f)
  {
  }

  /** The dispatch: the filtered endpoint with the query suffix when a
      filter is set, otherwise the plain one; both get the current page. */
  function Reload(v: View): (load: Load)
    ensures HasActiveFilters(v.filters) <==> load.LoadFiltered?
    ensures load.LoadFiltered? ==> load == LoadFiltered(v.currentPage, Expenses.QueryParams(v.filters))
    ensures load.LoadPlain? ==> load.page == v.currentPage
    ensures !load.Stay? && !load.LoadByDate?
  {
    if HasActiveFilters(v.filters) then LoadFiltered(v.currentPage, Expenses.QueryParams(v.filters))
    else LoadPlain(v.currentPage)
  }

  /** The builder never pushes a staff_id parameter for this list. */
  lemma NoStaffInLink(v: View)
    requires NoStaff(v)
    ensures "staff_id" !in Keys(Present(LinkFields(v.filters, Expenses.AsTyped)))
  {
    var fs := LinkFields(v.filters, Expenses.AsTyped);
    KeyOrderFacts();
    assert fs[2].key == "staff_id" && fs[2].raw == "";
    PresentLookup(fs, 2);
    LookupNoneIff(Present(fs), "staff_id");
  }

  /** The comment goes out as typed, so a comment holding "&staff_id=…"
      makes the server read a staff filter this list never set. */
  lemma TypedCommentCarriesStaff(x: string, s: string)
    requires '&' !in x && '&' !in s
    ensures NoStaff(Initial.(filters := Empty.(comment := x + "&staff_id=" + s)))
    ensures Lookup(Parse(Expenses.QueryParams(Empty.(comment := x + "&staff_id=" + s))), "staff_id") == Some(s)
  {
    CommentLinkSpliced(x, s);
    StaffReadBack(x, s);
  }

  /** The typed comment's link is the two-parameter link. */
  lemma CommentLinkSpliced(x: string, s: string)
    ensures Expenses.QueryParams(Empty.(comment := x + "&staff_id=" + s))
         == Render([Param("comment", x), Param("staff_id", s)])
  {
    var c := x + "&staff_id=" + s;
    var key := "staff_id";
    assert "&staff_id=" == "&" + key + "=";
    assert c == x + "&" + key + "=" + s;
    CommentOnlyLink(c, Expenses.AsTyped);
    RenderSplice("comment", x, key, s);
  }

  /** The server reads the second parameter as the staff filter. */
  lemma StaffReadBack(x: string, s: string)
    requires '&' !in x && '&' !in s
    ensures Lookup(Parse(Render([Param("comment", x), Param("staff_id", s)])), "staff_id") == Some(s)
  {
    var two := [Param("comment", x), Param("staff_id", s)];
    assert Safe(two) by {
      CleanKeyHasNoSeparator("comment");
      CleanKeyHasNoSeparator("staff_id");
    }
    ParseRender(two);
    assert |"comment"| != |"staff_id"|;
  }

  /** The item count: the server's when it is a non-zero number, otherwise
      pages times page size. */
  function TotalItems(res: Response<Row>, pageSize: int): (n: int)
    ensures res.totalItems.Some? && res.totalItems.value != 0 ==> n == res.totalItems.value
    ensures !(res.totalItems.Some? && res.totalItems.value != 0) ==> n == NumberOr(res.totalPages, 0) * pageSize
  {
    NumberOr(res.totalItems, NumberOr(res.totalPages, 0) * pageSize)
  }

  /** A successful load keeps the current page (the response's page number
      is not read) and numbers one button per page. */
  function OnLoaded(v: View, res: Response<Row>, viaFilter: bool): (r: View)
    ensures r.filters == v.filters && r.currentPage == v.currentPage && r.pageSize == v.pageSize
    ensures r.expenses == ItemsOr(res.items)
    ensures r.filtered == if viaFilter then ItemsOr(res.items) else v.filtered
    ensures r.totalPages == NumberOr(res.totalPages, 0)
    ensures r.totalItems == TotalItems(res, v.pageSize)
    ensures |r.pages| == Max(0, r.totalPages) && forall i :: 0 <= i < |r.pages| ==> r.pages[i] == i
  {
    var total := NumberOr(res.totalPages, 0);
    v.(totalPages := total, totalItems := TotalItems(res, v.pageSize), pages := Expenses.UpdatePagination(total),
       expenses := ItemsOr(res.items), filtered := if viaFilter then ItemsOr(res.items) else v.filtered)
  }

  /** goToPage: only pages in [0, totalPages) are loaded. */
  function GoToPage(v: View, page: int): (r: Step<View>)
    ensures !(0 <= page < v.totalPages) ==> r == Step(v, Stay)
    ensures 0 <= page < v.totalPages ==> r.view == v.(currentPage := page) && r.load == Reload(r.view)
  {
    if !InRange(page, v.totalPages) then Step(v, Stay)
    else Step(v.(currentPage := page), Reload(v.(currentPage := page)))
  }

  /** onPageChange: the paginator's page index and size are taken as they
      come, with no range check, and the page is loaded. */
  function OnPageChange(v: View, pageIndex: int, pageSize: int): (r: Step<View>)
    ensures r.view == v.(currentPage := pageIndex, pageSize := pageSize)
    ensures r.load == Reload(r.view)
    ensures r.load.page == pageIndex
  {
    var v' := v.(currentPage := pageIndex, pageSize := pageSize);
    Step(v', Reload(v'))
  }

  /** Both page controls agree on pages in range (the paginator also sets
      the page size); only the paginator reaches pages out of range. */
  lemma PageControlsAgree(v: View, page: int)
    ensures 0 <= page < v.totalPages ==>
      OnPageChange(v, page, v.pageSize) == GoToPage(v, page)
    ensures !(0 <= page < v.totalPages) ==>
      GoToPage(v, page).load == Stay && OnPageChange(v, page, v.pageSize).load != Stay
  {
  }

  /** applyFilter: the switch has no "staff" case, so a staff value is
      ignored; otherwise as on the expense list. */
  function SetOwnFilter(f: Filters, filterType: string, value: string, format: string -> string): (r: Filters)
    ensures r.staff_id == f.staff_id
    ensures filterType == "staff" ==> r == f
    ensures filterType != "staff" ==> r == SetFilter(f, filterType, value, format)
  {
    if filterType == "staff" then f else SetFilter(f, filterType, value, format)
  }

  function ApplyFilter(v: View, filterType: string, value: string, format: string -> string): (r: Step<View>)
    ensures r.view == v.(filters := SetOwnFilter(v.filters, filterType, value, format), currentPage := 0)
    ensures NoStaff(v) ==> NoStaff(r.view)
    ensures r.load == Reload(r.view) && r.load.page == 0
  {
    var v' := v.(filters := SetOwnFilter(v.filters, filterType, value, format), currentPage := 0);
    Step(v', Reload(v'))
  }

  /** clearFilters: all fields empty, first page, plain list. */
  function ClearFilters(v: View): (r: Step<View>)
    ensures r.view == v.(filters := Empty, currentPage := 0)
    ensures NoStaff(r.view)
    ensures r.load == LoadPlain(0)
  {
    Step(v.(filters := Empty, currentPage := 0), LoadPlain(0))
  }

  /** sortData: store or clear the sort, then dispatch on the filters. */
  function SortData(v: View, s: SortEvent): (r: Step<View>)
    ensures r.view == v.(filters := SetSort(v.filters, s, "", ""))
    ensures NoStaff(v) ==> NoStaff(r.view)
    ensures r.load == Reload(r.view)
    ensures !HasActiveFilters(v.filters) ==> r.load == LoadPlain(v.currentPage)
  {
    var v' := v.(filters := SetSort(v.filters, s, "", ""));
    Step(v', Reload(v'))
  }

  /** exportToExcel: the filtered result if non-empty, else the page. */
  function ExportRows(v: View): (r: Option<seq<Row>>)
    ensures r.None? <==> |v.filtered| == 0 && |v.expenses| == 0
    ensures |v.filtered| > 0 ==> r == Some(v.filtered)
    ensures |v.filtered| == 0 && |v.expenses| > 0 ==> r == Some(v.expenses)
  {
    ExportSource(v.filtered, v.expenses)
  }
}
