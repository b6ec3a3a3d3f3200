/** The daily overall income log: one entry per day with four amounts, a
    date-range and comment filter, a header sort that always travels with
    the request, and entries that can be changed only on the day they were
    created. */
module DailyIncome {
  import opened Wrappers
  import opened Query
  import opened ListView
  import opened Amounts

  /** The date filters hold an ISO timestamp or nothing (`null`). */
  datatype Filters = Filters(startDate: Option<string>, endDate: Option<string>, comment: string)

  const NoFilters := Filters(None, None, "")

  /** The sort the view starts with and falls back to. */
  const DefaultSortField := "createdAt"
  const DefaultSortOrder := "desc"

  /** Thirty rows per page. */
  const PageSize := 30

  datatype Entry = Entry(id: int, canBeEdited: bool)

  datatype View = View(
    filters: Filters, sortField: string, sortOrder: string,
    currentPage: int, totalPages: int, totalItems: int, entries: seq<Entry>, todayEntry: Option<Entry>)

  const Initial := View(NoFilters, DefaultSortField, DefaultSortOrder, 0, 0, 0, [], None)

  /** JavaScript truthiness of a nullable string. */
  function Text(o: Option<string>): string
  {
    if o.Some? then o.value else ""
  }

  /** The optional parts of the link, in order: dates as stored, comment encoded. */
  function FilterFields(f: Filters, encode: string -> string): seq<Field>
  {
    [ Field("startDate", Text(f.startDate), Text(f.startDate)),
      Field("endDate", Text(f.endDate), Text(f.endDate)),
      Field("comment", f.comment, encode(f.comment)) ]
  }

  function SortParams(sortField: string, sortOrder: string): seq<Param>
  {
    [Param("sort", sortField), Param("order", sortOrder)]
  }

  /** buildFilterLink: each set filter appended as "&key=value", then the
      sort and order, which are always appended. */
  function BuildFilterLink(v: View, encode: string -> string): (link: string)
    ensures link == Prefixed(Present(FilterFields(v.filters, encode)) + SortParams(v.sortField, v.sortOrder))
    ensures |link| > 0 && link[0] == '&'
  {
    var ps := Present(FilterFields(v.filters, encode)) + SortParams(v.sortField, v.sortOrder);
    RenderIsPrefixed(ps);
    Render(ps)
  }

  /** What the server reads: exactly the set filters in order, then the sort
      and order, provided no sent text holds a separator. */
  lemma {:induction false} FilterLinkDecodes(v: View, encode: string -> string)
    requires '&' !in Text(v.filters.startDate) && '&' !in Text(v.filters.endDate) && '&' !in encode(v.filters.comment)
    requires '&' !in v.sortField && '&' !in v.sortOrder
    ensures Parse(BuildFilterLink(v, encode)) == Present(FilterFields(v.filters, encode)) + SortParams(v.sortField, v.sortOrder)
    ensures Lookup(Parse(BuildFilterLink(v, encode)), "sort") == Some(v.sortField)
  {
    var fs := FilterFields(v.filters, encode);
    var sp := SortParams(v.sortField, v.sortOrder);
    FilterFieldsSafe(v.filters, encode);
    SortParamsSafe(v.sortField, v.sortOrder);
    SafeAppend(Present(fs), sp);
    ParseRender(Present(fs) + sp);
    FilterKeysAreNotSort(v.filters, encode);
    LookupAfter(Present(fs), sp, "sort");
  }

  lemma FilterFieldsSafe(f: Filters, encode: string -> string)
    requires '&' !in Text(f.startDate) && '&' !in Text(f.endDate) && '&' !in encode(f.comment)
    ensures Safe(Present(FilterFields(f, encode)))
  {
    var fs := FilterFields(f, encode);
    assert CleanKey(fs[0].key) && CleanKey(fs[1].key) && CleanKey(fs[2].key);
    SafeFieldsOf(fs);
    PresentSafe(fs);
  }

  lemma SortParamsSafe(sortField: string, sortOrder: string)
    requires '&' !in sortField && '&' !in sortOrder
    ensures Safe(SortParams(sortField, sortOrder))
  {
    assert CleanKey("sort") && CleanKey("order");
    CleanKeyHasNoSeparator("sort");
    CleanKeyHasNoSeparator("order");
  }

  lemma FilterKeysAreNotSort(f: Filters, encode: string -> string)
    ensures forall j :: 0 <= j < |Present(FilterFields(f, encode))| ==> Present(FilterFields(f, encode))[j].key != "sort"
  {
    var fs := FilterFields(f, encode);
    PresentKeysFromFields(fs);
    assert FieldKeys(fs) == ["startDate", "endDate", "comment"];
    assert |"sort"| == 4;
  }

  /** A key none of the leading parameters carry is looked up in the rest. */
  lemma {:induction false} LookupAfter(a: seq<Param>, b: seq<Param>, k: string)
    requires forall j :: 0 <= j < |a| ==> a[j].key != k
    requires |b| > 0 && b[0].key == k
    ensures Lookup(a + b, k) == Some(b[0].value)
  {
    if |a| == 0 {
      assert a + b == b;
    } else {
      assert (a + b)[0] == a[0];
      assert (a + b)[1..] == a[1..] + b;
      LookupAfter(a[1..], b, k);
    }
  }

  /** hasActiveFilters: a date or the comment is set, that is, the link
      carries some parameter before the sort. */
  predicate HasActiveFilters(f: Filters): (active: bool)
    ensures active <==> |Present(FilterFields(f, (t: string) => t))| > 0
  {
    var fs := FilterFields(f, (t: string) => t);
    assert fs[0].raw == Text(f.startDate) && fs[1].raw == Text(f.endDate) && fs[2].raw == f.comment;
    Text(f.startDate) != "" || Text(f.endDate) != "" || f.comment != ""
  }

  /** applyFilter: comment as typed, dates as ISO timestamps (null for an
      empty picker); any other filter type changes nothing. The page resets. */
  function ApplyFilter(v: View, filterType: string, value: string, iso: string -> string, encode: string -> string): (r: Step<View>)
    ensures filterType == "comment" ==> r.view.filters == v.filters.(comment := value)
    ensures filterType == "startDate" ==> r.view.filters == v.filters.(startDate := if value == "" then None else Some(iso(value)))
    ensures filterType == "endDate" ==> r.view.filters == v.filters.(endDate := if value == "" then None else Some(iso(value)))
    ensures filterType !in {"comment", "startDate", "endDate"} ==> r.view.filters == v.filters
    ensures r.view == v.(filters := r.view.filters, currentPage := 0)
    ensures r.load == LoadFiltered(0, BuildFilterLink(r.view, encode))
  {
    var f := v.filters;
    var f' :=
      match filterType
      case "comment" => f.(comment := value)
      case "startDate" => f.(startDate := if value == "" then None else Some(iso(value)))
      case "endDate" => f.(endDate := if value == "" then None else Some(iso(value)))
      case _ => f;
    var v' := v.(filters := f', currentPage := 0);
    Step(v', LoadFiltered(0, BuildFilterLink(v', encode)))
  }

  /** clearFilters: the filters go, the sort stays, first page. */
  function ClearFilters(v: View, encode: string -> string): (r: Step<View>)
    ensures r.view == v.(filters := NoFilters, currentPage := 0)
    ensures !HasActiveFilters(r.view.filters)
    ensures r.load == LoadFiltered(0, Prefixed(SortParams(v.sortField, v.sortOrder)))
  {
    var v' := v.(filters := NoFilters, currentPage := 0);
    assert Present(FilterFields(NoFilters, encode)) == [];
    assert [] + SortParams(v.sortField, v.sortOrder) == SortParams(v.sortField, v.sortOrder);
    Step(v', LoadFiltered(0, BuildFilterLink(v', encode)))
  }

  /** sortData: column and direction fall back to createdAt and desc each
      on its own; the page stays. */
  function SortData(v: View, s: SortEvent, encode: string -> string): (r: Step<View>)
    ensures r.view.sortField == (if s.active == "" then DefaultSortField else s.active)
    ensures r.view.sortOrder == (if s.direction == "" then DefaultSortOrder else s.direction)
    ensures r.view == v.(sortField := r.view.sortField, sortOrder := r.view.sortOrder)
    ensures r.load == LoadFiltered(v.currentPage, BuildFilterLink(r.view, encode))
  {
    var v' := v.(sortField := if s.active == "" then DefaultSortField else s.active,
                 sortOrder := if s.direction == "" then DefaultSortOrder else s.direction);
    Step(v', LoadFiltered(v.currentPage, BuildFilterLink(v', encode)))
  }

  /** The sort sent is never empty, so the server always gets one. */
  lemma SortNeverEmpty(v: View, s: SortEvent, encode: string -> string)
    requires v.sortField != "" && v.sortOrder != ""
    ensures SortData(v, s, encode).view.sortField != "" && SortData(v, s, encode).view.sortOrder != ""
  {
  }

  /** goToPage: any page is taken, with no range check. */
  function GoToPage(v: View, page: int, encode: string -> string): (r: Step<View>)
    ensures r.view == v.(currentPage := page)
    ensures r.load == LoadFiltered(page, BuildFilterLink(v, encode))
  {
    Step(v.(currentPage := page), LoadFiltered(page, BuildFilterLink(v.(currentPage := page), encode)))
  }

  /** A successful load: absent fields read as empty or 0. */
  function OnLoaded(v: View, res: Response<Entry>): (r: View)
    ensures r.entries == ItemsOr(res.items)
    ensures r.currentPage == NumberOr(res.currentPage, 0) && r.totalPages == NumberOr(res.totalPages, 0)
    ensures r.totalItems == NumberOr(res.totalItems, 0)
    ensures r.filters == v.filters && r.sortField == v.sortField && r.sortOrder == v.sortOrder
    ensures r.todayEntry == v.todayEntry
  {
    v.(entries := ItemsOr(res.items), currentPage := NumberOr(res.currentPage, 0),
       totalPages := NumberOr(res.totalPages, 0), totalItems := NumberOr(res.totalItems, 0))
  }

  /** What the add button opens. */
  datatype AddDialog = OfferEditOfToday(entry: Entry) | AddForm

  /** addDailyIncome: when today already has an entry, the user is offered
      to edit it instead of adding a second one. */
  function AddDailyIncome(v: View): (d: AddDialog)
    ensures d.AddForm? <==> v.todayEntry.None?
    ensures d.OfferEditOfToday? ==> Some(d.entry) == v.todayEntry
  {
    match v.todayEntry
    case Some(e) => OfferEditOfToday(e)
    case None => AddForm
  }

  /** The four amounts of the form, after `parseFloat(…) || 0`. */
  datatype Amounts4 = Amounts4(uzs_cash: real, usd_cash: real, card: real, account: real)

  const NegativeMessage := "Qiymatlar manfiy bo'lishi mumkin emas"
  const EmptyMessage := "Kamida bitta to'lov turida qiymat kiriting"

  /** The form check shared by add and edit: no amount may be negative, and
      not all four may be zero; each field that does not parse counts as 0. */
  function ValidateAmounts(uzs: Num, usd: Num, card: Num, account: Num): (r: Result<Amounts4, string>)
    ensures r.Ok? ==> r.value == Amounts4(OrZero(uzs), OrZero(usd), OrZero(card), OrZero(account))
    ensures r == Err(NegativeMessage) <==>
      OrZero(uzs) < 0.0 || OrZero(usd) < 0.0 || OrZero(card) < 0.0 || OrZero(account) < 0.0
  {
    var a := Amounts4(OrZero(uzs), OrZero(usd), OrZero(card), OrZero(account));
    if a.uzs_cash < 0.0 || a.usd_cash < 0.0 || a.card < 0.0 || a.account < 0.0 then Err(NegativeMessage)
    else if a.uzs_cash == 0.0 && a.usd_cash == 0.0 && a.card == 0.0 && a.account == 0.0 then Err(EmptyMessage)
    else Ok(a)
  }

  /** The form is accepted exactly when no amount is negative and the four
      add up to something positive. */
  lemma ValidateAcceptsPositiveTotals(uzs: Num, usd: Num, card: Num, account: Num)
    ensures ValidateAmounts(uzs, usd, card, account).Ok? <==>
      OrZero(uzs) >= 0.0 && OrZero(usd) >= 0.0 && OrZero(card) >= 0.0 && OrZero(account) >= 0.0
      && OrZero(uzs) + OrZero(usd) + OrZero(card) + OrZero(account) > 0.0
  {
  }

  /** What the edit dialog holds when the user presses its confirm button. */
  datatype EditForm = EditForm(uzs: Num, usd: Num, card: Num, account: Num, comment: string)

  /** The requests the edit and delete buttons can send. */
  datatype ChangeRequest =
    | UpdateEntry(id: int, amounts: Amounts4, comment: string)
    | DeleteEntry(id: int)

  /** How an edit or delete click ends: refused with a warning before any
      dialog, the dialog cancelled, the dialog kept open by its validation
      message, or a request sent. */
  datatype ChangeOutcome =
    | Refused(title: string)
    | Cancelled
    | Invalid(message: string)
    | Sent(request: ChangeRequest)

  const EditRefusedTitle := "Tahrirlab bo'lmaydi"
  const DeleteRefusedTitle := "O'chirib bo'lmaydi"

  /** editDailyIncome: a locked entry only gets the warning. Otherwise the
      form opens; `form` is what the user confirms (None when cancelled),
      and it is checked like the add form before the update is sent. */
  function EditDailyIncome(e: Entry, form: Option<EditForm>): (o: ChangeOutcome)
    ensures !e.canBeEdited ==> o == Refused(EditRefusedTitle)
    ensures e.canBeEdited && form.None? ==> o == Cancelled
    ensures o.Sent? <==> (e.canBeEdited && form.Some? &&
      ValidateAmounts(form.value.uzs, form.value.usd, form.value.card, form.value.account).Ok?)
    ensures o.Sent? ==> o.request == UpdateEntry(e.id,
      ValidateAmounts(form.value.uzs, form.value.usd, form.value.card, form.value.account).value, form.value.comment)
    ensures o.Invalid? ==> o.message == NegativeMessage || o.message == EmptyMessage
  {
    if !e.canBeEdited then Refused(EditRefusedTitle)
    else match form
      case None => Cancelled
      case Some(f) =>
        match ValidateAmounts(f.uzs, f.usd, f.card, f.account)
        case Err(message) => Invalid(message)
        case Ok(amounts) => Sent(UpdateEntry(e.id, amounts, f.comment))
  }

  /** deleteDailyIncome: a locked entry only gets the warning; otherwise the
      confirmation decides whether the delete request is sent. */
  function DeleteDailyIncome(e: Entry, confirmed: bool): (o: ChangeOutcome)
    ensures !e.canBeEdited ==> o == Refused(DeleteRefusedTitle)
    ensures o.Sent? <==> e.canBeEdited && confirmed
    ensures o.Sent? ==> o.request == DeleteEntry(e.id)
    ensures e.canBeEdited && !confirmed ==> o == Cancelled
  {
    if !e.canBeEdited then Refused(DeleteRefusedTitle)
    else if confirmed then Sent(DeleteEntry(e.id))
    else Cancelled
  }

  /** An entry that can no longer be edited is never updated or deleted,
      whatever the user does; an editable one can always be deleted and,
      given valid amounts, updated. */
  lemma LockedEntryUntouched(e: Entry, form: Option<EditForm>, confirmed: bool)
    ensures !e.canBeEdited ==> !EditDailyIncome(e, form).Sent? && !DeleteDailyIncome(e, confirmed).Sent?
    ensures e.canBeEdited ==> DeleteDailyIncome(e, true).Sent?
    ensures e.canBeEdited ==>
      EditDailyIncome(e, Some(EditForm(Finite(1.0), Finite(0.0), Finite(0.0), Finite(0.0), ""))).Sent?
  {
  }
}
