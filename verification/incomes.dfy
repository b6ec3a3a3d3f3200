/** The legacy income list: plain paging, a date filter and a header sort
    each fire their own request, the filter suffixes are concatenated from
    raw values with every key always present, and the pager flag only ever
    goes up. */
module Incomes {
  import opened Wrappers
  import opened Query
  import opened ListView
  import opened Pagination
  import opened Amounts

  datatype View = View(
    start: PickedDate, end: PickedDate, currentPage: int, totalPages: int,
    pager: LegacyPager, pagesActive: bool, incomes: seq<Row>)

  const Initial := View(Unset, Unset, 0, 0, LegacyPager(false, 0), false, [])

  /** The keys the category/comment/staff/sort suffix always carries, in order. */
  const FilterKeys := ["category_id", "comment", "staff_id", "sort", "order"]

  /** fromFunction/toFunction: the date formatter's text, or its `null`. */
  function Picked(formatted: Option<string>): (d: PickedDate)
    ensures d != Unset
    ensures formatted.Some? <==> d.Picked?
    ensures formatted.Some? ==> d == PickedDate.Picked(formatted.value)
  {
    match formatted
    case Some(day) => PickedDate.Picked(day)
    case None => NullDate
  }

  /** Once a date has been picked, the date suffix carries the formatter's
      text, or "null" when it gave none, instead of the "undefined" of a date
      never picked. */
  lemma PickedDatesReachLink(from: Option<string>, to: Option<string>)
    requires from.Some? ==> '&' !in from.value
    requires to.Some? ==> '&' !in to.value
    ensures Lookup(Parse(DateLink(Picked(from), Picked(to))), "startDate") == Some(if from.Some? then from.value else "null")
    ensures Lookup(Parse(DateLink(Picked(from), Picked(to))), "endDate") == Some(if to.Some? then to.value else "null")
  {
    DateLinkDecodes(Picked(from), Picked(to));
  }

  /** The date suffix, both keys always written, values as concatenation shows them. */
  function DateLink(start: PickedDate, end: PickedDate): (link: string)
    ensures link == "&startDate=" + Shown(start) + "&endDate=" + Shown(end)
  {
    var a, b := Shown(start), Shown(end);
    PrefixedHead(Param("endDate", b), []);
    PrefixedHead(Param("startDate", a), [Param("endDate", b)]);
    assert "&startDate=" == "&" + "startDate" + "=";
    assert "&endDate=" == "&" + "endDate" + "=";
    Prefixed([Param("startDate", a), Param("endDate", b)])
  }

  /** The category/comment/staff/sort suffix, every key always written and
      no value encoded. */
  function FilterLink(category: string, comment: string, staff: string, sort: string, order: string): string
  {
    Prefixed([Param("category_id", category), Param("comment", comment), Param("staff_id", staff),
              Param("sort", sort), Param("order", order)])
  }

  /** The suffix is the source's concatenation, key by key, with nothing escaped. */
  lemma FilterLinkText(category: string, comment: string, staff: string, sort: string, order: string)
    ensures FilterLink(category, comment, staff, sort, order) ==
      "&" + "category_id" + "=" + category + ("&" + "comment" + "=" + comment
      + ("&" + "staff_id" + "=" + staff + ("&" + "sort" + "=" + sort + ("&" + "order" + "=" + order))))
  {
    var p4 := [Param("order", order)];
    var p3 := [Param("sort", sort)] + p4;
    var p2 := [Param("staff_id", staff)] + p3;
    var p1 := [Param("comment", comment)] + p2;
    PrefixedHead(Param("order", order), []);
    assert p4 == p4 + [];
    PrefixedHead(Param("sort", sort), p4);
    PrefixedHead(Param("staff_id", staff), p3);
    PrefixedHead(Param("comment", comment), p2);
    PrefixedHead(Param("category_id", category), p1);
    assert [Param("category_id", category)] + p1 == [Param("category_id", category), Param("comment", comment),
      Param("staff_id", staff), Param("sort", sort), Param("order", order)];
  }

  /** A picked day that can travel unencoded. */
  predicate Plain(d: PickedDate)
  {
    d.Picked? ==> '&' !in d.day
  }


  /** The date suffix reads back as exactly its two parameters, so a date
      never picked reaches the server as the text "undefined". */
  lemma DateLinkDecodes(start: PickedDate, end: PickedDate)
    requires Plain(start) && Plain(end)
    ensures Parse(DateLink(start, end)) == [Param("startDate", Shown(start)), Param("endDate", Shown(end))]
    ensures start == Unset ==> Lookup(Parse(DateLink(start, end)), "startDate") == Some("undefined")
  {
    ShownPlain(start);
    ShownPlain(end);
    CleanKeyHasNoSeparator("startDate");
    CleanKeyHasNoSeparator("endDate");
    ParsePrefixed([Param("startDate", Shown(start)), Param("endDate", Shown(end))]);
  }

  /** Values without `&` read back unchanged, and all five keys are sent
      even when their values are empty. */
  lemma FilterLinkDecodes(category: string, comment: string, staff: string, sort: string, order: string)
    requires '&' !in category && '&' !in comment && '&' !in staff && '&' !in sort && '&' !in order
    ensures Parse(FilterLink(category, comment, staff, sort, order)) ==
      [Param("category_id", category), Param("comment", comment), Param("staff_id", staff),
       Param("sort", sort), Param("order", order)]
    ensures Keys(Parse(FilterLink(category, comment, staff, sort, order))) == FilterKeys
  {
    var ps := [Param("category_id", category), Param("comment", comment), Param("staff_id", staff),
               Param("sort", sort), Param("order", order)];
    CleanKeyHasNoSeparator("category_id");
    CleanKeyHasNoSeparator("comment");
    CleanKeyHasNoSeparator("staff_id");
    CleanKeyHasNoSeparator("sort");
    CleanKeyHasNoSeparator("order");
    assert Safe(ps);
    ParsePrefixed(ps);
  }

  /** pagebyNum: the page becomes current, the page buttons turn active and
      the plain list is fetched for it. */
  function PageByNum(v: View, page: int): (r: Step<View>)
    ensures r.view.currentPage == page && r.view.pagesActive
    ensures r.view.start == v.start && r.view.end == v.end
    ensures r.load.LoadPlain? && r.load.page == page
  {
    Step(v.(currentPage := page, pagesActive := true), LoadPlain(page))
  }

  /** Paging never carries the dates: the request is the same whatever
      dates are picked. */
  lemma PagingDropsDates(v: View, start: PickedDate, end: PickedDate, page: int)
    ensures PageByNum(v.(start := start, end := end), page).load == PageByNum(v, page).load
  {
  }

  /** The date filter button: the current page through the date suffix. */
  function FilterByDate(v: View): (r: Step<View>)
    ensures r.view == v
    ensures r.load.LoadByDate? && r.load.page == v.currentPage
    ensures Plain(v.start) && Plain(v.end) ==>
      Lookup(Parse(r.load.link), "startDate") == Some(Shown(v.start)) &&
      Lookup(Parse(r.load.link), "endDate") == Some(Shown(v.end))
  {
    if Plain(v.start) && Plain(v.end) then
      DateLinkDecodes(v.start, v.end);
      Step(v, LoadByDate(v.currentPage, DateLink(v.start, v.end)))
    else
      Step(v, LoadByDate(v.currentPage, DateLink(v.start, v.end)))
  }

  /** sortData: a cleared sort fetches the plain list; otherwise the column
      and direction go out with empty category, comment and staff, never
      with the dates. The view keeps no sort of its own. */
  function SortData(v: View, s: SortEvent): (r: Step<View>)
    ensures r.view == v
    ensures SortCleared(s) <==> r.load == LoadPlain(v.currentPage)
    ensures !SortCleared(s) ==> r.load.LoadFiltered? && r.load.page == v.currentPage
    ensures !SortCleared(s) && '&' !in s.active && '&' !in s.direction ==>
      Keys(Parse(r.load.link)) == FilterKeys &&
      Parse(r.load.link)[3].value == s.active && Parse(r.load.link)[4].value == s.direction
  {
    if SortCleared(s) then Step(v, LoadPlain(v.currentPage))
    else
      if '&' !in s.active && '&' !in s.direction then
        FilterLinkDecodes("", "", "", s.active, s.direction);
        Step(v, LoadFiltered(v.currentPage, FilterLink("", "", "", s.active, s.direction)))
      else
        Step(v, LoadFiltered(v.currentPage, FilterLink("", "", "", s.active, s.direction)))
  }

  /** Any successful load: rows and page numbers as sent; the pager flag is
      raised by more than one page and never lowered. */
  function OnLoaded(v: View, res: LegacyPage<Row>): (r: View)
    ensures r.incomes == res.items && r.currentPage == res.currentPage && r.totalPages == res.totalPages
    ensures r.start == v.start && r.end == v.end && r.pagesActive == v.pagesActive
    ensures r.pager.need <==> v.pager.need || res.totalPages > 1
    ensures r.pager.slots >= v.pager.slots
  {
    v.(incomes := res.items, currentPage := res.currentPage, totalPages := res.totalPages,
       pager := LegacyUpdate(v.pager, res.totalPages))
  }

  /** The message both dialogs show for a missing category. */
  const CategoryMessage := "KATEGORIYA tanlanishi kerak!"

  /** The add dialog's check: `Number` of the category select must be truthy. */
  function AddCheck(category: Num): (r: Result<(), string>)
    ensures r.Ok? <==> category.Finite? && category.n != 0.0
    ensures r.Err? ==> r.error == CategoryMessage
  {
    if Truthy(category) then Ok(()) else Err(CategoryMessage)
  }

  /** The edit dialog's check: a truthy category and a non-empty date. */
  function EditCheck(category: Num, date: string): (r: Result<(), string>)
    ensures r.Ok? <==> category.Finite? && category.n != 0.0 && date != ""
  {
    if Truthy(category) && date != "" then Ok(())
    else Err("KATEGORIYA tanlanishi va  SANA kiritilishi kerak!")
  }

  /** Every edit the dialog lets through the add dialog would accept, and
      with a date given the two agree. */
  lemma EditStricterThanAdd(category: Num, date: string)
    ensures EditCheck(category, date).Ok? ==> AddCheck(category).Ok?
    ensures date != "" ==> (EditCheck(category, date).Ok? <==> AddCheck(category).Ok?)
  {
  }
}
