/** The seven-key filter link shared by the income and expense lists:
    category, comment, staff, date range and sort, each sent only when set,
    always in the same order. The income lists URI-encode the comment; the
    expense lists send it as typed. */
module FilterLink {
  import opened Wrappers
  import opened Seqs
  import opened Query
  import opened ListView

  /** One list's filter state. The expense lists call the last two fields
      `sortField` and `sortDirection`; the link keys are the same. */
  datatype Filters = Filters(
    category_id: string, comment: string, staff_id: string,
    startDate: string, endDate: string, sort: string, order: string)

  /** Every field empty: the expense lists' initial and cleared state. */
  const Empty := Filters("", "", "", "", "", "", "")

  /** The order in which the link lists its keys. */
  const KeyOrder := ["category_id", "comment", "staff_id", "startDate", "endDate", "sort", "order"]

  /** The fields in link order; `encode` is applied to the comment only. */
  function LinkFields(f: Filters, encode: string -> string): (fs: seq<Field>)
    ensures FieldKeys(fs) == KeyOrder
  {
    [ Field("category_id", f.category_id, f.category_id),
      Field("comment", f.comment, encode(f.comment)),
      Field("staff_id", f.staff_id, f.staff_id),
      Field("startDate", f.startDate, f.startDate),
      Field("endDate", f.endDate, f.endDate),
      Field("sort", f.sort, f.sort),
      Field("order", f.order, f.order) ]
  }

  /** buildFilterLink / buildQueryParams: "" exactly when all seven fields
      are empty, otherwise a suffix starting with '&'. */
  function BuildFilterLink(f: Filters, encode: string -> string): (link: string)
    ensures link == "" <==>
      f.category_id == "" && f.comment == "" && f.staff_id == "" && f.startDate == ""
      && f.endDate == "" && f.sort == "" && f.order == ""
    ensures link != "" ==> link[0] == '&'
  {
    var fs := LinkFields(f, encode);
    assert fs[0].raw == f.category_id && fs[1].raw == f.comment && fs[2].raw == f.staff_id;
    assert fs[3].raw == f.startDate && fs[4].raw == f.endDate && fs[5].raw == f.sort && fs[6].raw == f.order;
    BuildLink(fs)
  }

  /** The text each field puts into the link must not contain '&'. */
  predicate Sendable(f: Filters, encode: string -> string)
  {
    '&' !in f.category_id && '&' !in encode(f.comment) && '&' !in f.staff_id
    && '&' !in f.startDate && '&' !in f.endDate && '&' !in f.sort && '&' !in f.order
  }

  /** What the server reads from the link: the keys come in the fixed
      order, and each key carries its field's text (the comment after
      `encode`) exactly when the field is non-empty. */
  lemma FilterLinkDecodes(f: Filters, encode: string -> string)
    requires Sendable(f, encode)
    ensures Subsequence(Keys(Parse(BuildFilterLink(f, encode))), KeyOrder)
    ensures forall i :: 0 <= i < |KeyOrder| ==>
      Lookup(Parse(BuildFilterLink(f, encode)), KeyOrder[i]) == Sent(LinkFields(f, encode)[i])
  {
    KeyOrderFacts();
    LinkFieldsSafe(f, encode);
    LinkDecodes(LinkFields(f, encode));
  }

  lemma LinkFieldsSafe(f: Filters, encode: string -> string)
    requires Sendable(f, encode)
    ensures SafeFields(LinkFields(f, encode))
  {
    KeyOrderFacts();
    SafeFieldsOf(LinkFields(f, encode));
  }

  lemma KeyOrderFacts()
    ensures Distinct(KeyOrder) && SafeKeys(KeyOrder)
  {
    KeyOrderClean();
    assert |KeyOrder[0]| == 11 && |KeyOrder[1]| == 7 && |KeyOrder[2]| == 8 && |KeyOrder[3]| == 9;
    assert |KeyOrder[4]| == 7 && |KeyOrder[5]| == 4 && |KeyOrder[6]| == 5;
    assert KeyOrder[1][0] != KeyOrder[4][0];
  }

  lemma KeyOrderClean()
    ensures SafeKeys(KeyOrder)
  {
  }

  /** The two sort fields on their own. */
  function SortFields(f: Filters): seq<Field>
  {
    [Field("sort", f.sort, f.sort), Field("order", f.order, f.order)]
  }

  /** With no filter set the link carries the sort and nothing else. */
  lemma {:induction false} OnlySortSent(f: Filters, encode: string -> string)
    requires f.category_id == "" && f.comment == "" && f.staff_id == "" && f.startDate == "" && f.endDate == ""
    ensures BuildFilterLink(f, encode) == Render(Present(SortFields(f)))
  {
    var fs := LinkFields(f, encode);
    assert fs[5..] == SortFields(f);
    assert fs == fs[..5] + fs[5..];
    PresentOfEmpty(fs[..5]);
    PresentAppend(fs[..5], fs[5..]);
    assert Present(fs) == Present(SortFields(f));
    assert BuildFilterLink(f, encode) == BuildLink(fs) == Render(Present(fs));
  }

  /** With only a comment set, the link is that one parameter. */
  lemma CommentOnlyLink(c: string, encode: string -> string)
    requires c != ""
    ensures BuildFilterLink(Empty.(comment := c), encode) == Render([Param("comment", encode(c))])
  {
    var fs := LinkFields(Empty.(comment := c), encode);
    assert fs == [fs[0]] + ([fs[1]] + fs[2..]);
    PresentOfEmpty(fs[2..]);
    PresentAppend([fs[1]], fs[2..]);
    PresentAppend([fs[0]], [fs[1]] + fs[2..]);
  }

  /** hasActiveFilters on the five-filter lists: something other than the
      sort is set, that is, the link without the sort is not empty. */
  predicate HasActiveFilters(f: Filters): (active: bool)
    ensures active <==> BuildFilterLink(f.(sort := "", order := ""), (t: string) => t) != ""
  {
    f.category_id != "" || f.comment != "" || f.staff_id != "" || f.startDate != "" || f.endDate != ""
  }

  /** The filter types the list controls pass to applyFilter. */
  const FilterTypes := {"category", "comment", "staff", "startDate", "endDate"}

  /** The switch in applyFilter: the named field takes the value (dates via
      the formatter, "" for an empty picker); an unknown type changes nothing. */
  function SetFilter(f: Filters, filterType: string, value: string, format: string -> string): (r: Filters)
    ensures r.sort == f.sort && r.order == f.order
    ensures filterType == "category" ==> r == f.(category_id := value)
    ensures filterType == "comment" ==> r == f.(comment := value)
    ensures filterType == "staff" ==> r == f.(staff_id := value)
    ensures filterType == "startDate" ==> r == f.(startDate := DateOrEmpty(value, format))
    ensures filterType == "endDate" ==> r == f.(endDate := DateOrEmpty(value, format))
    ensures filterType !in FilterTypes ==> r == f
  {
    match filterType
    case "category" => f.(category_id := value)
    case "comment" => f.(comment := value)
    case "staff" => f.(staff_id := value)
    case "startDate" => f.(startDate := DateOrEmpty(value, format))
    case "endDate" => f.(endDate := DateOrEmpty(value, format))
    case _ => f
  }

  /** Setting a filter to the value it was just set to changes nothing. */
  lemma SetFilterIdempotent(f: Filters, filterType: string, value: string, format: string -> string)
    ensures SetFilter(SetFilter(f, filterType, value, format), filterType, value, format)
         == SetFilter(f, filterType, value, format)
  {
  }

  /** The sortData rule: a header sort without a column or a direction
      puts `fallback` back, otherwise the column and direction are stored. */
  function SetSort(f: Filters, s: SortEvent, fallbackSort: string, fallbackOrder: string): (r: Filters)
    ensures SortCleared(s) ==> r == f.(sort := fallbackSort, order := fallbackOrder)
    ensures !SortCleared(s) ==> r == f.(sort := s.active, order := s.direction)
    ensures HasActiveFilters(r) == HasActiveFilters(f)
  {
    if SortCleared(s) then f.(sort := fallbackSort, order := fallbackOrder)
    else f.(sort := s.active, order := s.direction)
  }
}
