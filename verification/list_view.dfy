/** Vocabulary shared by the paginated list views: the sort event a table
    header emits, the request a state change fires, and JavaScript's
    `x || default` on response fields. */
module ListView {
  import opened Wrappers

  /** A Material sort event: the active column and "asc", "desc" or "". */
  datatype SortEvent = SortEvent(active: string, direction: string)

  /** `!sort.active || sort.direction === ""`: the header sort was switched off. */
  predicate SortCleared(s: SortEvent)
  {
    s.active == "" || s.direction == ""
  }

  /** The list request a view fires after a state change: none, the plain
      paged loader, or a loader given a filter suffix. LoadByDate tags the
      legacy income and balance views' date request; in the income view it
      goes to the same filtered endpoint as the sort request. */
  datatype Load =
    | Stay
    | LoadPlain(page: int)
    | LoadFiltered(page: int, link: string)
    | LoadByDate(page: int, link: string)

  /** A view's state after an operation, and the request it fired. */
  datatype Step<V> = Step(view: V, load: Load)

  /** A date picker's value stored as a filter: "" when the picker is empty,
      otherwise the yyyy-MM-dd text the date formatter gives. */
  function DateOrEmpty(value: string, format: string -> string): string
  {
    if value == "" then "" else format(value)
  }

  /** A legacy date picker's value: never picked (`undefined`), a `null`
      from the date formatter, or a formatted day. */
  datatype PickedDate = Unset | NullDate | Picked(day: string)

  /** The text string concatenation gives each value. */
  function Shown(d: PickedDate): string
  {
    match d
    case Unset => "undefined"
    case NullDate => "null"
    case Picked(day) => day
  }

  /** The texts `undefined` and `null` hold no '&', so a date whose day
      holds none travels as one query value. */
  lemma ShownPlain(d: PickedDate)
    requires d.Picked? ==> '&' !in d.day
    ensures '&' !in Shown(d)
  {
    match d
    case Unset => NoSeparatorIn("undefined");
    case NullDate => NoSeparatorIn("null");
    case Picked(_) =>
  }

  lemma NoSeparatorIn(t: string)
    requires forall i :: 0 <= i < |t| ==> t[i] != '&'
    ensures '&' !in t
  {
  }

  /** A page as the legacy views read it, without defaults. */
  datatype LegacyPage<T> = LegacyPage(items: seq<T>, currentPage: int, totalPages: int)

  /** The password the delete dialogs ask for. */
  const DeletePassword := "2"

  /** The delete dialogs: the right password opens the confirmation,
      anything else shows the wrong-password error and deletes nothing. */
  datatype DeletePrompt = ConfirmDelete | WrongPassword

  function DeletePromptFor(input: string): (p: DeletePrompt)
    ensures p == ConfirmDelete <==> input == DeletePassword
  {
    if input == DeletePassword then ConfirmDelete else WrongPassword
  }

  /** A paged list response; every field may be absent from the JSON. */
  datatype Response<T> = Response(items: Option<seq<T>>, currentPage: Option<int>, totalPages: Option<int>, totalItems: Option<int>)

  /** `res.items || []`: an absent list reads as empty (an empty array is truthy). */
  function ItemsOr<T>(items: Option<seq<T>>): seq<T>
  {
    match items
    case Some(xs) => xs
    case None => []
  }

  /** `res.field || fallback` for a numeric response field that may be absent. */
  function NumberOr(x: Option<int>, fallback: int): (r: int)
    ensures x.Some? && x.value != 0 ==> r == x.value
    ensures (x.None? || x.value == 0) ==> r == fallback
  {
    match x
    case Some(n) => if n != 0 then n else fallback
    case None => fallback
  }

  /** The rows an Excel export writes: the filtered rows when there are any,
      else the whole list; None (export refused) when that choice is empty. */
  function ExportSource<T>(filtered: seq<T>, all: seq<T>): (r: Option<seq<T>>)
    ensures r.None? <==> |filtered| == 0 && |all| == 0
    ensures r.Some? ==> |r.value| > 0
    ensures |filtered| > 0 ==> r == Some(filtered)
    ensures |filtered| == 0 && |all| > 0 ==> r == Some(all)
  {
    var data := if |filtered| > 0 then filtered else all;
    if |data| == 0 then None else Some(data)
  }
}
