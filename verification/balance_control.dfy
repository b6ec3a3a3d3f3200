/** The balance history: plain paging, and a date-and-sort request that
    always carries all four of its keys; only rows from that request can be
    exported. */
module BalanceControl {
  import opened Wrappers
  import opened Query
  import opened ListView
  import opened Pagination
  import opened Amounts

  datatype View = View(
    start: PickedDate, end: PickedDate, sortField: string, sortDirection: string,
    currentPage: int, totalPages: int, pager: LegacyPager, pagesActive: bool,
    balance: seq<Row>, filtered: seq<Row>)

  const Initial := View(Unset, Unset, "", "", 0, 0, LegacyPager(false, 0), false, [], [])

  /** The keys of the date-and-sort suffix, in order. */
  const LinkKeys := ["startDate", "endDate", "sort", "order"]

  function LinkParams(v: View): seq<Param>
  {
    [Param("startDate", Shown(v.start)), Param("endDate", Shown(v.end)),
     Param("sort", v.sortField), Param("order", v.sortDirection)]
  }

  /** The date-and-sort suffix, concatenated from the raw values. */
  function DateLink(v: View): string
  {
    Prefixed(LinkParams(v))
  }

  /** The suffix is the source's concatenation, key by key, with nothing escaped. */
  lemma DateLinkText(v: View)
    ensures DateLink(v) == "&" + "startDate" + "=" + Shown(v.start) + ("&" + "endDate" + "=" + Shown(v.end)
      + ("&" + "sort" + "=" + v.sortField + ("&" + "order" + "=" + v.sortDirection)))
  {
    var p3 := [Param("order", v.sortDirection)];
    var p2 := [Param("sort", v.sortField)] + p3;
    var p1 := [Param("endDate", Shown(v.end))] + p2;
    assert LinkParams(v) == [Param("startDate", Shown(v.start))] + p1;
    PrefixedHead(Param("order", v.sortDirection), []);
    assert p3 == p3 + [];
    PrefixedHead(Param("sort", v.sortField), p3);
    PrefixedHead(Param("endDate", Shown(v.end)), p2);
    PrefixedHead(Param("startDate", Shown(v.start)), p1);
  }

  /** Values that can travel unencoded. */
  predicate Plain(v: View)
  {
    (v.start.Picked? ==> '&' !in v.start.day) && (v.end.Picked? ==> '&' !in v.end.day) &&
    '&' !in v.sortField && '&' !in v.sortDirection
  }


  /** The suffix reads back as its four parameters, whichever are empty or unset. */
  lemma DateLinkDecodes(v: View)
    requires Plain(v)
    ensures Parse(DateLink(v)) == LinkParams(v)
    ensures Keys(Parse(DateLink(v))) == LinkKeys
  {
    ShownPlain(v.start);
    ShownPlain(v.end);
    CleanKeyHasNoSeparator("startDate");
    CleanKeyHasNoSeparator("endDate");
    CleanKeyHasNoSeparator("sort");
    CleanKeyHasNoSeparator("order");
    assert Safe(LinkParams(v));
    ParsePrefixed(LinkParams(v));
  }

  /** pagebyNum: the page becomes current and the plain list is fetched. */
  function PageByNum(v: View, page: int): (r: Step<View>)
    ensures r.view.currentPage == page && r.view.pagesActive
    ensures r.view.start == v.start && r.view.end == v.end && r.view.sortField == v.sortField
    ensures r.load.LoadPlain? && r.load.page == page
  {
    Step(v.(currentPage := page, pagesActive := true), LoadPlain(page))
  }

  /** The date filter button: the current page through the date-and-sort suffix. */
  function FilterByDate(v: View): (r: Step<View>)
    ensures r.view == v
    ensures r.load.LoadByDate? && r.load.page == v.currentPage
    ensures Plain(v) ==> Parse(r.load.link) == LinkParams(v)
  {
    if Plain(v) then
      DateLinkDecodes(v);
      Step(v, LoadByDate(v.currentPage, DateLink(v)))
    else
      Step(v, LoadByDate(v.currentPage, DateLink(v)))
  }

  /** sortData: a cleared header sort empties the stored column and
      direction, any other stores them; either way the date request fires,
      so the picked dates travel with every sort. */
  function SortData(v: View, s: SortEvent): (r: Step<View>)
    ensures SortCleared(s) ==> r.view.sortField == "" && r.view.sortDirection == ""
    ensures !SortCleared(s) ==> r.view.sortField == s.active && r.view.sortDirection == s.direction
    ensures r.view.start == v.start && r.view.end == v.end && r.view.currentPage == v.currentPage
    ensures r.load == FilterByDate(r.view).load
  {
    var v' := if SortCleared(s) then v.(sortField := "", sortDirection := "")
              else v.(sortField := s.active, sortDirection := s.direction);
    Step(v', FilterByDate(v').load)
  }

  /** A plain load: the shown rows replace the page and the exportable rows
      are emptied. */
  function OnPlainLoaded(v: View, res: LegacyPage<Row>): (r: View)
    ensures r.balance == res.items && r.filtered == []
    ensures r.currentPage == res.currentPage && r.totalPages == res.totalPages
    ensures r.pager.need <==> v.pager.need || res.totalPages > 1
    ensures r.start == v.start && r.end == v.end && r.sortField == v.sortField
    ensures r.sortDirection == v.sortDirection && r.pagesActive == v.pagesActive
    ensures r.pager == LegacyUpdate(v.pager, res.totalPages)
  {
    v.(balance := res.items, filtered := [], currentPage := res.currentPage,
       totalPages := res.totalPages, pager := LegacyUpdate(v.pager, res.totalPages))
  }

  /** A date load: the rows are both shown and kept for export. */
  function OnDateLoaded(v: View, res: LegacyPage<Row>): (r: View)
    ensures r.balance == res.items && r.filtered == res.items
    ensures r.currentPage == res.currentPage && r.totalPages == res.totalPages
    ensures r.pager.need <==> v.pager.need || res.totalPages > 1
    ensures r.start == v.start && r.end == v.end && r.sortField == v.sortField
    ensures r.sortDirection == v.sortDirection && r.pagesActive == v.pagesActive
    ensures r.pager == LegacyUpdate(v.pager, res.totalPages)
  {
    v.(balance := res.items, filtered := res.items, currentPage := res.currentPage,
       totalPages := res.totalPages, pager := LegacyUpdate(v.pager, res.totalPages))
  }

  /** downlaodExcel: only the rows of the last date load, and nothing
      ("No data") when there are none. */
  function ExportRows(v: View): (r: Option<seq<Row>>)
    ensures r.Some? <==> |v.filtered| > 0
    ensures r.Some? ==> r.value == v.filtered
  {
    if |v.filtered| > 0 then Some(v.filtered) else None
  }

  /** Rows reached by paging can never be exported; rows of a non-empty
      date load always can. */
  lemma ExportFollowsLastLoad(v: View, res: LegacyPage<Row>)
    ensures ExportRows(OnPlainLoaded(v, res)) == None
    ensures |res.items| > 0 ==> ExportRows(OnDateLoaded(v, res)) == Some(res.items)
  {
  }
}
