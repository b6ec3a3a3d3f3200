/** The administrators' expense list: filters and header sort feed one
    query suffix, the plain list is fetched whenever no filter is set, every
    page gets a button, and the money columns are totalled client-side. */
module Expenses {
  import opened Wrappers
  import opened Query
  import opened ListView
  import opened Pagination
  import opened Amounts
  import opened FilterLink

  /** The expense lists send the comment exactly as typed. */
  function AsTyped(s: string): string { s }

  datatype View = View(
    filters: Filters, currentPage: int, totalPages: int, totalItems: int,
    pages: seq<int>, expenses: seq<Row>, filtered: seq<Row>)

  const Initial := View(Empty, 0, 0, 0, [], [], [])

  /** buildQueryParams. */
  function QueryParams(f: Filters): (link: string)
    ensures link == "" <==> f == Empty
  {
    BuildFilterLink(f, AsTyped)
  }

  /** The shared dispatch after every change: with a filter set the
      filtered endpoint gets the current page and the query suffix,
      otherwise the plain endpoint gets the current page alone. */
  function Reload(v: View): (load: Load)
    ensures HasActiveFilters(v.filters) <==> load.LoadFiltered?
    ensures load.LoadFiltered? ==> load == LoadFiltered(v.currentPage, QueryParams(v.filters))
    ensures load.LoadPlain? ==> load.page == v.currentPage
    ensures !load.Stay? && !load.LoadByDate?
  {
    if HasActiveFilters(v.filters) then LoadFiltered(v.currentPage, QueryParams(v.filters))
    else LoadPlain(v.currentPage)
  }

  /** The sort alone never selects the filtered endpoint, so with no
      filter set a chosen sort is not part of any request. */
  lemma SortAloneNotSent(v: View)
    requires !HasActiveFilters(v.filters)
    requires v.filters.sort != ""
    ensures Reload(v) == LoadPlain(v.currentPage)
  {
  }

  /** updatePagination: one button per page, numbered from 0. */
  function UpdatePagination(totalPages: int): (pages: seq<int>)
    ensures |pages| == Max(0, totalPages)
    ensures forall i :: 0 <= i < |pages| ==> pages[i] == i
  {
    Dense(totalPages)
  }

  /** A successful load; the filtered load also replaces the export source. */
  function OnLoaded(v: View, res: Response<Row>, viaFilter: bool): (r: View)
    ensures r.filters == v.filters
    ensures r.expenses == ItemsOr(res.items)
    ensures r.filtered == if viaFilter then ItemsOr(res.items) else v.filtered
    ensures r.totalPages == NumberOr(res.totalPages, 0) && r.currentPage == NumberOr(res.currentPage, 0)
    ensures r.totalItems == NumberOr(res.totalItems, 0)
    ensures |r.pages| == Max(0, r.totalPages)
    ensures forall i :: 0 <= i < |r.pages| ==> r.pages[i] == i
  {
    var total := NumberOr(res.totalPages, 0);
    View(v.filters, NumberOr(res.currentPage, 0), total, NumberOr(res.totalItems, 0),
      UpdatePagination(total), ItemsOr(res.items), if viaFilter then ItemsOr(res.items) else v.filtered)
  }

  /** goToPage: only pages in [0, totalPages) are loaded. */
  function GoToPage(v: View, page: int): (r: Step<View>)
    ensures !(0 <= page < v.totalPages) ==> r == Step(v, Stay)
    ensures 0 <= page < v.totalPages ==> r.view == v.(currentPage := page) && r.load == Reload(r.view)
  {
    if !InRange(page, v.totalPages) then Step(v, Stay)
    else Step(v.(currentPage := page), Reload(v.(currentPage := page)))
  }

  /** applyFilter: back to the first page, store the value, dispatch. */
  function ApplyFilter(v: View, filterType: string, value: string, format: string -> string): (r: Step<View>)
    ensures r.view == v.(filters := SetFilter(v.filters, filterType, value, format), currentPage := 0)
    ensures r.load == Reload(r.view)
    ensures r.load.page == 0
  {
    var v' := v.(filters := SetFilter(v.filters, filterType, value, format), currentPage := 0);
    Step(v', Reload(v'))
  }

  /** Emptying the only filter that was set falls back to the plain list. */
  lemma ClearingLastFilterLoadsPlain(v: View, filterType: string, format: string -> string)
    requires filterType in {"category", "comment", "staff"}
    requires SetFilter(v.filters, filterType, "", format).category_id == ""
    requires SetFilter(v.filters, filterType, "", format).comment == ""
    requires SetFilter(v.filters, filterType, "", format).staff_id == ""
    requires v.filters.startDate == "" && v.filters.endDate == ""
    ensures ApplyFilter(v, filterType, "", format).load == LoadPlain(0)
  {
  }

  /** clearFilters: all seven fields empty, first page, plain list. */
  function ClearFilters(v: View): (r: Step<View>)
    ensures r.view == v.(filters := Empty, currentPage := 0)
    ensures r.load == LoadPlain(0)
  {
    Step(v.(filters := Empty, currentPage := 0), LoadPlain(0))
  }

  /** sortData: store or clear the sort, then dispatch on the filters. */
  function SortData(v: View, s: SortEvent): (r: Step<View>)
    ensures r.view == v.(filters := SetSort(v.filters, s, "", ""))
    ensures HasActiveFilters(v.filters) ==> r.load == LoadFiltered(v.currentPage, QueryParams(r.view.filters))
    ensures !HasActiveFilters(v.filters) ==> r.load == LoadPlain(v.currentPage)
  {
    var v' := v.(filters := SetSort(v.filters, s, "", ""));
    Step(v', Reload(v'))
  }

  const AddMessage := "Kategoriya va Xodim tanlanishi kerak!"
  const EditMessage := "Kategoriya, Xodim va Sana kiritilishi kerak!"

  /** The add dialog's check: a category and a staff member must be picked
      (`Number` of the select value, so "", "0" and NaN are all missing);
      otherwise the dialog stays open with the message. */
  function AddCheck(category: Num, staff: Num): (r: Result<(), string>)
    ensures r.Ok? <==> category.Finite? && category.n != 0.0 && staff.Finite? && staff.n != 0.0
    ensures r.Err? ==> r.error == AddMessage
  {
    if !Truthy(category) || !Truthy(staff) then Err(AddMessage) else Ok(())
  }

  /** The edit dialog's check additionally needs a date. */
  function EditCheck(category: Num, staff: Num, date: string): (r: Result<(), string>)
    ensures r.Ok? <==> category.Finite? && category.n != 0.0 && staff.Finite? && staff.n != 0.0 && date != ""
    ensures r.Err? ==> r.error == EditMessage
  {
    if !Truthy(category) || !Truthy(staff) || date == "" then Err(EditMessage) else Ok(())
  }

  /** Whatever the edit dialog accepts the add dialog accepts too, and with
      a date given the two agree. */
  lemma EditStricterThanAdd(category: Num, staff: Num, date: string)
    ensures EditCheck(category, staff, date).Ok? ==> AddCheck(category, staff).Ok?
    ensures date != "" ==> (EditCheck(category, staff, date).Ok? <==> AddCheck(category, staff).Ok?)
  {
  }

  /** exportToExcel: the last filtered result if it has rows, otherwise the
      current page; refused when both are empty. */
  function ExportRows(v: View): (r: Option<seq<Row>>)
    ensures r.None? <==> |v.filtered| == 0 && |v.expenses| == 0
    ensures |v.filtered| > 0 ==> r == Some(v.filtered)
    ensures |v.filtered| == 0 && |v.expenses| > 0 ==> r == Some(v.expenses)
  {
    ExportSource(v.filtered, v.expenses)
  }
}
