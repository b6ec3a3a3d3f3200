/** Page-number bookkeeping of the list views: the sliding five-page window,
    the dense page list, the bounds test of goToPage, and the two ways the
    views set `needPagination`. */
module Pagination {

  /** At most this many page buttons are shown at a time. */
  const MaxPages := 5

  function Min(a: int, b: int): int { if a <= b then a else b }
  function Max(a: int, b: int): int { if a >= b then a else b }

  /** lo, lo+1, …, hi-1 (empty when hi <= lo). */
  function Range(lo: int, hi: int): (r: seq<int>)
    ensures |r| == Max(0, hi - lo)
    ensures forall i :: 0 <= i < |r| ==> r[i] == lo + i
    decreases hi - lo
  {
    if lo >= hi then [] else [lo] + Range(lo + 1, hi)
  }

  /** generatePageNumbers: centre the window on the current page, clip it to
      [0, total), and slide it back when it would run past the last page. */
  function Window(current: int, total: int): (pages: seq<int>)
    ensures |pages| == Min(MaxPages, Max(0, total))
    ensures forall i :: 0 <= i < |pages| ==> 0 <= pages[i] < total
    ensures forall i :: 0 < i < |pages| ==> pages[i] == pages[i - 1] + 1
    ensures 0 <= current < total ==> current in pages
  {
    var start := Max(0, current - MaxPages / 2);
    var end := Min(total, start + MaxPages);
    var start' := if end - start < MaxPages then Max(0, end - MaxPages) else start;
    var pages := Range(start', end);
    assert 0 <= current < total ==> pages[current - start'] == current;
    pages
  }

  /** `Array.from({ length: total }, (_, i) => i)`: every page index once, in order. */
  function Dense(total: int): (pages: seq<int>)
    ensures |pages| == Max(0, total)
    ensures forall i :: 0 <= i < |pages| ==> pages[i] == i
  {
    Range(0, total)
  }

  /** goToPage accepts exactly the pages that exist. */
  predicate InRange(page: int, total: int)
  {
    0 <= page < total
  }

  /** The pager of the new-incomes view: page buttons only for more than one page. */
  datatype Pager = Pager(need: bool, pages: seq<int>)

  /** setupPagination: more than one page shows one button per page; otherwise
      the flag drops and the previous button list is left as it was. */
  function SetupPagination(total: int, previous: seq<int>): (p: Pager)
    ensures p.need <==> total > 1
    ensures p.need ==> |p.pages| == total && forall i :: 0 <= i < total ==> p.pages[i] == i
    ensures !p.need ==> p.pages == previous
  {
    if total > 1 then Pager(true, Dense(total)) else Pager(false, previous)
  }

  /** The pager of the legacy views: the flag and the length of the button array. */
  datatype LegacyPager = LegacyPager(need: bool, slots: nat)

  /** A legacy load: more than one page raises the flag and fills the first
      `total` button slots; the flag is never lowered and the array never shrinks. */
  function LegacyUpdate(p: LegacyPager, total: int): (r: LegacyPager)
    ensures p.need ==> r.need
    ensures r.need <==> p.need || total > 1
    ensures r.slots >= p.slots
    ensures total > 1 ==> r.slots >= total
    ensures total > 1 ==> r.slots == p.slots || r.slots == total
    ensures total <= 1 ==> r == p
  {
    if total > 1 then LegacyPager(true, Max(p.slots, total)) else p
  }

  /** A shorter load after a longer one leaves the longer load's buttons in
      place: the array keeps every slot the earlier load filled. */
  lemma StaleButtonsStay(p: LegacyPager, longer: int, shorter: int)
    requires 1 < shorter < longer
    ensures LegacyUpdate(LegacyUpdate(p, longer), shorter).slots >= longer > shorter
    ensures LegacyUpdate(LegacyUpdate(p, longer), shorter) == LegacyUpdate(p, longer)
  {
  }

  /** The legacy pager after a run of loads reporting these page counts. */
  function LegacyAfter(p: LegacyPager, totals: seq<int>): LegacyPager
    decreases |totals|
  {
    if |totals| == 0 then p else LegacyAfter(LegacyUpdate(p, totals[0]), totals[1..])
  }

  /** Over any run of loads, needPagination ends up true exactly when it
      started true or some load reported more than one page. */
  lemma {:induction false} LegacyNeedOverLoads(p: LegacyPager, totals: seq<int>)
    ensures LegacyAfter(p, totals).need <==> p.need || exists i :: 0 <= i < |totals| && totals[i] > 1
    ensures LegacyAfter(p, totals).slots >= p.slots
    decreases |totals|
  {
    if |totals| > 0 {
      LegacyNeedOverLoads(LegacyUpdate(p, totals[0]), totals[1..]);
      if exists i :: 0 <= i < |totals[1..]| && totals[1..][i] > 1 {
        var i :| 0 <= i < |totals[1..]| && totals[1..][i] > 1;
        assert totals[i + 1] > 1;
      }
      if exists i :: 0 <= i < |totals| && totals[i] > 1 {
        var i :| 0 <= i < |totals| && totals[i] > 1;
        if i > 0 { assert totals[1..][i - 1] > 1; }
      }
    }
  }
}
