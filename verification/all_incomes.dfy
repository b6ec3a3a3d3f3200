/** The auditor's list of all incomes: one filter record drives every
    request, pages are shown through a sliding five-page window, and each
    row carries its review status. */
module AllIncomes {
  import opened Wrappers
  import opened Seqs
  import opened Query
  import opened ListView
  import opened Pagination
  import opened Auditing
  import opened FilterLink

  /** The filter record the view starts with and `clearFilters` restores. */
  const Defaults := Filters("", "", "", "", "", "id", "desc")

  datatype View = View(
    filters: Filters, currentPage: int, totalPages: int, totalItems: int,
    pages: seq<int>, incomes: seq<Income>)

  const Initial := View(Defaults, 0, 0, 0, [], [])

  /** applyFilter: the named filter takes the value, the view goes back to
      the first page and reloads through the filter link. */
  function ApplyFilter(v: View, filterType: string, value: string, format: string -> string, encode: string -> string): (r: Step<View>)
    ensures r.view == v.(filters := SetFilter(v.filters, filterType, value, format), currentPage := 0)
    ensures r.load == LoadFiltered(0, BuildFilterLink(r.view.filters, encode))
  {
    var f := SetFilter(v.filters, filterType, value, format);
    Step(v.(filters := f, currentPage := 0), LoadFiltered(0, BuildFilterLink(f, encode)))
  }

  /** With every filter cleared the link carries only the default sort. */
  lemma ClearedLink(encode: string -> string)
    ensures BuildFilterLink(Defaults, encode) == Render([Param("sort", "id"), Param("order", "desc")])
  {
    OnlySortSent(Defaults, encode);
    assert Present(SortFields(Defaults)) == [Param("sort", "id"), Param("order", "desc")];
  }

  /** clearFilters: every filter empty, sort back to id/desc, first page;
      the request carries the default sort and nothing else. */
  function ClearFilters(v: View, encode: string -> string): (r: Step<View>)
    ensures r.view == v.(filters := Defaults, currentPage := 0)
    ensures !HasActiveFilters(r.view.filters)
    ensures r.load == LoadFiltered(0, Render([Param("sort", "id"), Param("order", "desc")]))
  {
    ClearedLink(encode);
    Step(v.(filters := Defaults, currentPage := 0), LoadFiltered(0, BuildFilterLink(Defaults, encode)))
  }

  /** sortData: a cleared header sort falls back to id/desc, otherwise the
      column and direction are stored; the filters and page stay and the
      list reloads through the filter link. */
  function SortData(v: View, s: SortEvent, encode: string -> string): (r: Step<View>)
    ensures r.view == v.(filters := SetSort(v.filters, s, "id", "desc"))
    ensures r.load == LoadFiltered(v.currentPage, BuildFilterLink(r.view.filters, encode))
  {
    var f := SetSort(v.filters, s, "id", "desc");
    Step(v.(filters := f), LoadFiltered(v.currentPage, BuildFilterLink(f, encode)))
  }

  /** goToPage: a page outside [0, totalPages) changes nothing and fires
      nothing; any other page becomes current and is loaded. */
  function GoToPage(v: View, page: int, encode: string -> string): (r: Step<View>)
    ensures !(0 <= page < v.totalPages) ==> r == Step(v, Stay)
    ensures 0 <= page < v.totalPages ==>
      r.view == v.(currentPage := page) && r.load == LoadFiltered(page, BuildFilterLink(v.filters, encode))
  {
    if !InRange(page, v.totalPages) then Step(v, Stay)
    else Step(v.(currentPage := page), LoadFiltered(page, BuildFilterLink(v.filters, encode)))
  }

  /** A successful load: absent fields read as empty/0 and the page window
      is rebuilt around the page the server reports. */
  function OnLoaded(v: View, res: Response<Income>): (r: View)
    ensures r.filters == v.filters
    ensures r.incomes == ItemsOr(res.items)
    ensures r.currentPage == NumberOr(res.currentPage, 0) && r.totalPages == NumberOr(res.totalPages, 0)
    ensures r.totalItems == NumberOr(res.totalItems, 0)
    ensures |r.pages| == Min(MaxPages, Max(0, r.totalPages))
    ensures forall i :: 0 <= i < |r.pages| ==> 0 <= r.pages[i] < r.totalPages
    ensures forall i :: 0 < i < |r.pages| ==> r.pages[i] == r.pages[i - 1] + 1
    ensures 0 <= r.currentPage < r.totalPages ==> r.currentPage in r.pages
  {
    var page := NumberOr(res.currentPage, 0);
    var total := NumberOr(res.totalPages, 0);
    View(v.filters, page, total, NumberOr(res.totalItems, 0), Window(page, total), ItemsOr(res.items))
  }

  /** toggleSort: the opposite of "asc" is "desc", of anything else "asc". */
  function ToggleSort(order: string): (r: string)
    ensures r == "desc" <==> order == "asc"
    ensures r == "asc" || r == "desc"
  {
    if order == "asc" then "desc" else "asc"
  }

  /** On the two real directions toggling twice gives the direction back. */
  lemma ToggleSortTwice(order: string)
    requires order == "asc" || order == "desc"
    ensures ToggleSort(ToggleSort(order)) == order
  {
  }

  /** downloadExcel: refused when the current page holds no income. */
  function ExportRows(v: View): (r: Option<seq<Income>>)
    ensures r.None? <==> |v.incomes| == 0
    ensures r.Some? ==> r.value == v.incomes
  {
    ExportSource([], v.incomes)
  }
}
