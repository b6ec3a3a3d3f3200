/** The auditor's view of incomes: the `checked` status codes, the
    client-side filter that keeps one status, the label and CSS class tables,
    and the mark-and-confirm dialog with its row highlight. */
module Auditing {
  import opened Wrappers
  import opened Seqs
  import opened ListView

  /** An income row as the auditor views use it: its id, its `checked` code
      after unary `+`, and the name of its `checkedStatus`, if any. */
  datatype Income = Income(id: int, checked: int, statusName: Option<string>)

  /** The four review states of an income. */
  datatype Status = NotChecked | Successful | Suspicious | Failed

  /** The `checked` code the server stores for each status. */
  function Code(s: Status): int
  {
    match s
    case NotChecked => 1
    case Successful => 2
    case Suspicious => 3
    case Failed => 4
  }

  /** The status name the server sends in `checkedStatus.name`. */
  function Name(s: Status): string
  {
    match s
    case NotChecked => "notChecked"
    case Successful => "successful"
    case Suspicious => "suspicious"
    case Failed => "failed"
  }

  /** Reads a status name back; anything else is not a status. */
  function StatusOf(name: Option<string>): (r: Option<Status>)
    ensures r.Some? ==> name == Some(Name(r.value))
    ensures forall s: Status :: name == Some(Name(s)) ==> r == Some(s)
  {
    match name
    case Some("notChecked") => Some(NotChecked)
    case Some("successful") => Some(Successful)
    case Some("suspicious") => Some(Suspicious)
    case Some("failed") => Some(Failed)
    case _ => None
  }

  /** `incomes.filter(inc => +inc.checked === code)`. */
  function KeepChecked(xs: seq<Income>, code: int): (r: seq<Income>)
    ensures forall i :: 0 <= i < |r| ==> r[i].checked == code
    ensures |r| <= |xs|
  {
    if |xs| == 0 then []
    else (if xs[0].checked == code then [xs[0]] else []) + KeepChecked(xs[1..], code)
  }

  /** The filter keeps the response's order: its result is a subsequence of it. */
  lemma {:induction false} KeepCheckedOrdered(xs: seq<Income>, code: int)
    ensures Subsequence(KeepChecked(xs, code), xs)
  {
    if |xs| > 0 {
      KeepCheckedOrdered(xs[1..], code);
      var rest := KeepChecked(xs[1..], code);
      if xs[0].checked == code {
        var r := [xs[0]] + rest;
        assert r[0] == xs[0] && r[1..] == rest;
      } else {
        assert KeepChecked(xs, code) == rest;
        SubsequenceSkip(rest, xs);
      }
    }
  }

  /** The filter keeps every row with the code, as often as the response
      holds it, and no other row. */
  lemma {:induction false} KeepCheckedCounts(xs: seq<Income>, code: int)
    ensures forall x :: multiset(KeepChecked(xs, code))[x] == if x.checked == code then multiset(xs)[x] else 0
  {
    if |xs| > 0 {
      KeepCheckedCounts(xs[1..], code);
      var rest := KeepChecked(xs[1..], code);
      var head := if xs[0].checked == code then [xs[0]] else [];
      assert KeepChecked(xs, code) == head + rest;
      assert multiset(head + rest) == multiset(head) + multiset(rest);
      assert xs == [xs[0]] + xs[1..];
      assert multiset(xs) == multiset([xs[0]]) + multiset(xs[1..]);
    }
  }

  /** A subsequence of the tail is a subsequence of the whole. */
  lemma {:induction false} SubsequenceSkip(a: seq<Income>, b: seq<Income>)
    requires |b| > 0
    requires Subsequence(a, b[1..])
    requires forall i :: 0 <= i < |a| ==> a[i].checked != b[0].checked
    ensures Subsequence(a, b)
  {
    if |a| > 0 {
      assert a[0] != b[0];
    }
  }

  /** getStatusLabel: the Uzbek label of each status, "—" for anything else. */
  function StatusLabel(name: Option<string>): (shown: string)
    ensures shown == "—" <==> StatusOf(name).None?
  {
    match name
    case Some("successful") => "Muvaffaqiyatli"
    case Some("failed") => "Muvaffaqiyatsiz"
    case Some("suspicious") => "Shubhali"
    case Some("notChecked") => "Tekshirilmagan"
    case _ => "—"
  }

  /** getStatusClass: the row CSS class of each status, "" for anything else. */
  function StatusClass(name: Option<string>): (cls: string)
    ensures cls == "" <==> StatusOf(name).None?
  {
    match name
    case Some("successful") => "status-success"
    case Some("failed") => "status-failed"
    case Some("suspicious") => "status-suspicious"
    case Some("notChecked") => "status-not-checked"
    case _ => ""
  }

  /** Different statuses never share a label or a class. */
  lemma LabelsAndClassesDistinct(a: Status, b: Status)
    requires a != b
    ensures StatusLabel(Some(Name(a))) != StatusLabel(Some(Name(b)))
    ensures StatusClass(Some(Name(a))) != StatusClass(Some(Name(b)))
  {
  }

  /** The three verdicts an auditor can record. */
  datatype Verdict = MarkSuccessful | MarkSuspicious | MarkFailed

  /** The status each verdict records. */
  function VerdictStatus(v: Verdict): Status
  {
    match v
    case MarkSuccessful => Successful
    case MarkSuspicious => Suspicious
    case MarkFailed => Failed
  }

  /** The code `checkStatus` is sent for a verdict: 2, 3 or 4. */
  function VerdictCode(v: Verdict): (code: int)
    ensures code == Code(VerdictStatus(v))
    ensures code != Code(NotChecked)
  {
    match v
    case MarkSuccessful => 2
    case MarkSuspicious => 3
    case MarkFailed => 4
  }

  /** How the confirmation dialog ended. */
  datatype Answer = Cancelled | ConfirmedAndSaved | ConfirmedButFailed

  /** The `checkStatus(id, code)` request. */
  datatype CheckRequest = CheckRequest(incomeId: int, code: int)

  /** One mark operation: the highlighted row while the dialog is open, the
      request sent, the highlight afterwards, and whether the list reloads. */
  datatype Mark = Mark(highlight: Option<int>, sent: Option<CheckRequest>, selectedAfter: Option<int>, reloads: bool)

  /** The highlight is set when the dialog opens and cleared on cancel, on
      success and on error; the request goes out only after confirmation, and
      only a successful save reloads the list. */
  function Resolve(income: Income, verdict: Verdict, answer: Answer): (m: Mark)
    ensures m.highlight == Some(income.id)
    ensures m.selectedAfter == None
    ensures m.sent.Some? <==> answer != Cancelled
    ensures m.sent.Some? ==> m.sent.value.incomeId == income.id && m.sent.value.code == Code(VerdictStatus(verdict))
    ensures m.reloads <==> answer == ConfirmedAndSaved
  {
    var shownRow := Some(income.id);
    match answer
    case Cancelled => Mark(shownRow, None, None, false)
    case ConfirmedAndSaved => Mark(shownRow, Some(CheckRequest(income.id, VerdictCode(verdict))), None, true)
    case ConfirmedButFailed => Mark(shownRow, Some(CheckRequest(income.id, VerdictCode(verdict))), None, false)
  }
}
