/** The auditor's queue of incomes not yet reviewed: the server's page is
    narrowed to the unchecked rows, the pager shows one button per page
    when there is more than one, and each row can be marked successful or
    suspicious. */
module NewIncomes {
  import opened Wrappers
  import opened Query
  import opened ListView
  import opened Pagination
  import opened Auditing
  import opened FilterLink

  datatype View = View(
    filters: Filters, currentPage: int, totalPages: int, totalItems: int,
    pager: Pager, incomes: seq<Income>, selected: Option<int>)

  const Initial := View(Empty, 0, 0, 0, Pager(false, []), [], None)

  /** The response fields this view reads; it reads them without defaults
      except the item count. A response without an `incomes` list makes the
      handler throw at its first statement. */
  datatype Page = Page(incomes: Option<seq<Income>>, currentPage: int, totalPages: int, totalItems: Option<int>)

  /** hasActiveFilters here looks at category, comment and staff only: the
      five-filter test with the dates left out. */
  predicate HasActiveFilters(f: Filters): (active: bool)
    ensures active <==> FilterLink.HasActiveFilters(f.(startDate := "", endDate := ""))
  {
    f.category_id != "" || f.comment != "" || f.staff_id != ""
  }

  /** The test pagebyNum makes first: the five-filter test with only the
      dates kept. */
  predicate HasDateFilter(f: Filters): (dated: bool)
    ensures dated <==> FilterLink.HasActiveFilters(f.(category_id := "", comment := "", staff_id := ""))
  {
    f.startDate != "" || f.endDate != ""
  }

  /** Between them the two tests cover exactly the five filters. */
  lemma FilterTestsCover(f: Filters)
    ensures HasActiveFilters(f) || HasDateFilter(f) <==> FilterLink.HasActiveFilters(f)
  {
  }

  /** The date request and the filter request are one and the same: the
      filtered endpoint with the current page and the full filter link. */
  function FilteredLoad(v: View, encode: string -> string): Load
  {
    LoadFiltered(v.currentPage, BuildFilterLink(v.filters, encode))
  }

  /** A successful load: only rows still unchecked are kept, in order; the
      item count falls back to the number of rows kept, and the pager is
      rebuilt from the page count. Without an `incomes` list the handler
      throws before assigning anything, so the view stays as it was. */
  function OnLoaded(v: View, res: Page): (r: View)
    ensures res.incomes.None? ==> r == v
    ensures res.incomes.Some? ==> r.incomes == KeepChecked(res.incomes.value, Code(NotChecked))
    ensures res.incomes.Some? ==> forall i :: 0 <= i < |r.incomes| ==> r.incomes[i].checked == 1
    ensures res.incomes.Some? ==> r.currentPage == res.currentPage && r.totalPages == res.totalPages
    ensures res.incomes.Some? ==> r.totalItems == NumberOr(res.totalItems, |r.incomes|)
    ensures res.incomes.Some? ==> r.pager == SetupPagination(res.totalPages, v.pager.pages)
    ensures r.filters == v.filters && r.selected == v.selected
  {
    match res.incomes
    case None => v
    case Some(rows) =>
      var kept := KeepChecked(rows, 1);
      v.(currentPage := res.currentPage, totalPages := res.totalPages,
         totalItems := NumberOr(res.totalItems, |kept|),
         pager := SetupPagination(res.totalPages, v.pager.pages), incomes := kept)
  }

  /** The rows shown after a response with a list keep the server's order
      and are exactly its unchecked rows, each as often as the server sent it. */
  lemma ShownAreTheUnchecked(v: View, res: Page)
    ensures res.incomes.Some? ==> Seqs.Subsequence(OnLoaded(v, res).incomes, res.incomes.value)
    ensures res.incomes.Some? ==> forall x ::
      multiset(OnLoaded(v, res).incomes)[x] == if x.checked == 1 then multiset(res.incomes.value)[x] else 0
  {
    if res.incomes.Some? {
      KeepCheckedOrdered(res.incomes.value, 1);
      KeepCheckedCounts(res.incomes.value, 1);
    }
  }

  /** pagebyNum as written: with a date filter the requested page is
      loaded; with only a category, comment or staff filter the call goes
      through applyFilters, which resets the page to 0 before loading. */
  function PageByNumAsWritten(v: View, page: int, encode: string -> string): (r: Step<View>)
    ensures HasDateFilter(v.filters) ==> r == Step(v.(currentPage := page), LoadFiltered(page, BuildFilterLink(v.filters, encode)))
    ensures !HasDateFilter(v.filters) && HasActiveFilters(v.filters) ==>
      r == Step(v.(currentPage := 0), LoadFiltered(0, BuildFilterLink(v.filters, encode)))
    ensures !HasDateFilter(v.filters) && !HasActiveFilters(v.filters) ==> r == Step(v.(currentPage := page), LoadPlain(page))
  {
    var v' := v.(currentPage := page);
    if HasDateFilter(v.filters) then Step(v', FilteredLoad(v', encode))
    else if HasActiveFilters(v.filters) then
      var v'' := v'.(currentPage := 0);
      Step(v'', FilteredLoad(v'', encode))
    else Step(v', LoadPlain(page))
  }

  /** The discrepancy: with only a non-date filter set, no page button
      other than the first loads the page it names. */
  lemma PageByNumAsWrittenIgnoresPage(v: View, page: int, encode: string -> string)
    requires !HasDateFilter(v.filters) && HasActiveFilters(v.filters)
    requires page != 0
    ensures PageByNumAsWritten(v, page, encode).load.page != page
    ensures PageByNumAsWritten(v, page, encode).view.currentPage == 0
  {
  }

  /** pagebyNum as intended: the requested page becomes current and is
      loaded through whichever endpoint the filters select. */
  function PageByNum(v: View, page: int, encode: string -> string): (r: Step<View>)
    ensures r.view == v.(currentPage := page)
    ensures !r.load.Stay? && r.load.page == page
    ensures HasDateFilter(v.filters) || HasActiveFilters(v.filters) ==>
      r.load == LoadFiltered(page, BuildFilterLink(v.filters, encode))
    ensures !HasDateFilter(v.filters) && !HasActiveFilters(v.filters) ==> r.load == LoadPlain(page)
  {
    var v' := v.(currentPage := page);
    if HasDateFilter(v.filters) || HasActiveFilters(v.filters) then Step(v', FilteredLoad(v', encode))
    else Step(v', LoadPlain(page))
  }

  /** The corrected pager differs from the written one exactly in the
      branch the written one resets. */
  lemma PageByNumAgreesOutsideTheBug(v: View, page: int, encode: string -> string)
    ensures HasDateFilter(v.filters) || !HasActiveFilters(v.filters) || page == 0 ==>
      PageByNum(v, page, encode) == PageByNumAsWritten(v, page, encode)
  {
  }

  /** applyFilter: the named filter takes the value, the page resets, and
      the filtered endpoint is called whichever branch is taken. */
  function ApplyFilter(v: View, filterType: string, value: string, format: string -> string, encode: string -> string): (r: Step<View>)
    ensures r.view == v.(filters := SetFilter(v.filters, filterType, value, format), currentPage := 0)
    ensures r.load == LoadFiltered(0, BuildFilterLink(r.view.filters, encode))
  {
    var v' := v.(filters := SetFilter(v.filters, filterType, value, format), currentPage := 0);
    Step(v', FilteredLoad(v', encode))
  }

  /** clearFilters: every field empty, first page, plain list. */
  function ClearFilters(v: View): (r: Step<View>)
    ensures r.view == v.(filters := Empty, currentPage := 0)
    ensures !HasActiveFilters(r.view.filters) && !HasDateFilter(r.view.filters)
    ensures r.load == LoadPlain(0)
  {
    Step(v.(filters := Empty, currentPage := 0), LoadPlain(0))
  }

  /** sortData: store or clear the sort; the page stays and the filtered
      endpoint is called. */
  function SortData(v: View, s: SortEvent, encode: string -> string): (r: Step<View>)
    ensures r.view == v.(filters := SetSort(v.filters, s, "", ""))
    ensures r.load == LoadFiltered(v.currentPage, BuildFilterLink(r.view.filters, encode))
  {
    var v' := v.(filters := SetSort(v.filters, s, "", ""));
    Step(v', FilteredLoad(v', encode))
  }

  /** The two verdicts this queue offers. */
  predicate Offered(verdict: Verdict)
  {
    verdict == MarkSuccessful || verdict == MarkSuspicious
  }

  /** succCheck / susCheck: the dialog's outcome; a saved verdict reloads
      the plain list at the current page, whatever filters are set. */
  function Check(v: View, income: Income, verdict: Verdict, answer: Answer): (r: Step<View>)
    requires Offered(verdict)
    ensures r.view == v.(selected := None)
    ensures answer == ConfirmedAndSaved ==> r.load == LoadPlain(v.currentPage)
    ensures answer != ConfirmedAndSaved ==> r.load == Stay
  {
    var m := Resolve(income, verdict, answer);
    Step(v.(selected := m.selectedAfter), if m.reloads then LoadPlain(v.currentPage) else Stay)
  }

  /** The request a check sends: none on cancel, otherwise the income's id
      with code 2 or 3, never the unchecked code. */
  lemma CheckSendsVerdict(income: Income, verdict: Verdict, answer: Answer)
    requires Offered(verdict)
    ensures answer == Cancelled <==> Resolve(income, verdict, answer).sent.None?
    ensures answer != Cancelled ==>
      Resolve(income, verdict, answer).sent == Some(CheckRequest(income.id, if verdict == MarkSuccessful then 2 else 3))
  {
  }
}
