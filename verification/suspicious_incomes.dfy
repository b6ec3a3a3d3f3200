/** The auditor's list of incomes marked suspicious: the server's page is
    narrowed to the suspicious rows, and each row can be cleared as
    successful or closed as failed. */
module SuspiciousIncomes {
  import opened Wrappers
  import opened Query
  import opened ListView
  import opened Pagination
  import opened Auditing
  import opened FilterLink
  import NewIncomes

  datatype View = View(
    filters: Filters, currentPage: int, totalPages: int, totalItems: int,
    incomes: seq<Income>, selected: Option<int>)

  const Initial := View(Empty, 0, 0, 0, [], None)

  /** The dispatch used by goToPage and after a verdict: the filtered
      endpoint with the link when any of the five filters is set, otherwise
      the plain list; both at the current page. */
  function Reload(v: View, encode: string -> string): (load: Load)
    ensures HasActiveFilters(v.filters) ==> load == LoadFiltered(v.currentPage, BuildFilterLink(v.filters, encode))
    ensures !HasActiveFilters(v.filters) ==> load == LoadPlain(v.currentPage)
  {
    if HasActiveFilters(v.filters) then LoadFiltered(v.currentPage, BuildFilterLink(v.filters, encode))
    else LoadPlain(v.currentPage)
  }

  /** A successful load: only suspicious rows are kept, in order, and the
      item count falls back to their number. The page count is taken as
      sent; no page buttons are built. Without an `incomes` list the handler
      throws before assigning anything, so the view stays as it was. */
  function OnLoaded(v: View, res: NewIncomes.Page): (r: View)
    ensures res.incomes.None? ==> r == v
    ensures res.incomes.Some? ==> r.incomes == KeepChecked(res.incomes.value, Code(Suspicious))
    ensures res.incomes.Some? ==> forall i :: 0 <= i < |r.incomes| ==> r.incomes[i].checked == 3
    ensures res.incomes.Some? ==> r.currentPage == res.currentPage && r.totalPages == res.totalPages
    ensures res.incomes.Some? ==> r.totalItems == NumberOr(res.totalItems, |r.incomes|)
    ensures r.filters == v.filters && r.selected == v.selected
  {
    match res.incomes
    case None => v
    case Some(rows) =>
      var kept := KeepChecked(rows, 3);
      v.(currentPage := res.currentPage, totalPages := res.totalPages,
         totalItems := NumberOr(res.totalItems, |kept|), incomes := kept)
  }

  /** After a response with a list, a row is shown exactly when the server
      sent it with the suspicious code. */
  lemma ShownAreTheSuspicious(v: View, res: NewIncomes.Page, x: Income)
    ensures res.incomes.Some? ==> (x in OnLoaded(v, res).incomes <==> x in res.incomes.value && x.checked == 3)
  {
    if res.incomes.Some? {
      var rows := res.incomes.value;
      KeepCheckedCounts(rows, 3);
      assert multiset(OnLoaded(v, res).incomes)[x] == if x.checked == 3 then multiset(rows)[x] else 0;
    }
  }

  /** goToPage: only pages in [0, totalPages) are loaded, through the dispatch. */
  function GoToPage(v: View, page: int, encode: string -> string): (r: Step<View>)
    ensures !(0 <= page < v.totalPages) ==> r == Step(v, Stay)
    ensures 0 <= page < v.totalPages ==> r.view == v.(currentPage := page) && r.load == Reload(r.view, encode)
  {
    if !InRange(page, v.totalPages) then Step(v, Stay)
    else Step(v.(currentPage := page), Reload(v.(currentPage := page), encode))
  }

  /** applyFilter: the named filter takes the value, first page, filtered endpoint. */
  function ApplyFilter(v: View, filterType: string, value: string, format: string -> string, encode: string -> string): (r: Step<View>)
    ensures r.view == v.(filters := SetFilter(v.filters, filterType, value, format), currentPage := 0)
    ensures r.load == LoadFiltered(0, BuildFilterLink(r.view.filters, encode))
  {
    var f := SetFilter(v.filters, filterType, value, format);
    Step(v.(filters := f, currentPage := 0), LoadFiltered(0, BuildFilterLink(f, encode)))
  }

  /** clearFilters: every field empty, first page, plain list. */
  function ClearFilters(v: View): (r: Step<View>)
    ensures r.view == v.(filters := Empty, currentPage := 0)
    ensures r.load == LoadPlain(0)
  {
    Step(v.(filters := Empty, currentPage := 0), LoadPlain(0))
  }

  /** sortData: store or clear the sort and reload through the filtered
      endpoint at the current page, filters or not. */
  function SortData(v: View, s: SortEvent, encode: string -> string): (r: Step<View>)
    ensures r.view == v.(filters := SetSort(v.filters, s, "", ""))
    ensures r.load == LoadFiltered(v.currentPage, BuildFilterLink(r.view.filters, encode))
  {
    var f := SetSort(v.filters, s, "", "");
    Step(v.(filters := f), LoadFiltered(v.currentPage, BuildFilterLink(f, encode)))
  }

  /** The two verdicts this list offers. */
  predicate Offered(verdict: Verdict)
  {
    verdict == MarkSuccessful || verdict == MarkFailed
  }

  /** succCheck / failedCheck: a saved verdict reloads through the dispatch,
      so the filters in force stay in force. */
  function Check(v: View, income: Income, verdict: Verdict, answer: Answer, encode: string -> string): (r: Step<View>)
    requires Offered(verdict)
    ensures r.view == v.(selected := None)
    ensures answer == ConfirmedAndSaved ==> r.load == Reload(v, encode)
    ensures answer != ConfirmedAndSaved ==> r.load == Stay
  {
    var m := Resolve(income, verdict, answer);
    Step(v.(selected := m.selectedAfter), if m.reloads then Reload(v, encode) else Stay)
  }

  /** The request a check sends: none on cancel, otherwise the income's id
      with code 2 (successful) or 4 (failed). */
  lemma CheckSendsVerdict(income: Income, verdict: Verdict, answer: Answer)
    requires Offered(verdict)
    ensures answer == Cancelled <==> Resolve(income, verdict, answer).sent.None?
    ensures answer != Cancelled ==>
      Resolve(income, verdict, answer).sent == Some(CheckRequest(income.id, if verdict == MarkSuccessful then 2 else 4))
  {
  }
}
