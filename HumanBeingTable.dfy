/**
 * The derived values of the Human Being table: the number of pages, the
 * current page, the five-wide window of page buttons, the enabled state of
 * Previous and Next, the "Showing a to b of n" range, the empty-state hint
 * and the badge colours. Everything here is computed from the props alone.
 */
module HumanBeingTable {
  import opened Wrappers
  import opened Types

  /** The `pagination` prop: zero-based page index, page size, total count. */
  datatype PaginationInfo = PaginationInfo(page: int, size: int, total: int)

  /** A present pagination prop has a positive page size. */
  predicate WellSized(p: Option<PaginationInfo>) {
    p.Some? ==> p.value.size > 0
  }

  function Min(a: int, b: int): int {
    if a <= b then a else b
  }

  /** `Math.ceil(a / b)` for a positive divisor, on exact integers. */
  function CeilDiv(a: int, b: int): (q: int)
    requires b > 0
    ensures (q - 1) * b < a <= q * b
  {
    var d := (-a) / b;
    assert d * b <= -a < d * b + b;
    -d
  }

  lemma MulMonotone(a: int, b: int, k: int)
    requires a <= b && k > 0
    ensures a * k <= b * k
  {
    assert b * k - a * k == (b - a) * k;
  }

  /** The bracketing in CeilDiv's contract determines its result. */
  lemma CeilDivUnique(a: int, b: int, q: int)
    requires b > 0
    requires (q - 1) * b < a <= q * b
    ensures q == CeilDiv(a, b)
  {
    var c := CeilDiv(a, b);
    if q < c {
      MulMonotone(q, c - 1, b);
      assert false;
    } else if q > c {
      MulMonotone(c, q - 1, b);
      assert false;
    }
  }

  /** The number of pages: none without pagination, else total divided by size, rounded up. */
  function TotalPages(p: Option<PaginationInfo>): (n: int)
    requires WellSized(p)
    ensures p.None? ==> n == 0
    ensures p.Some? ==> (n - 1) * p.value.size < p.value.total <= n * p.value.size
  {
    if p.Some? then CeilDiv(p.value.total, p.value.size) else 0
  }

  /** No records means no pages; some records mean at least one page. */
  lemma TotalPagesSign(p: PaginationInfo)
    requires p.size > 0
    ensures p.total == 0 ==> TotalPages(Some(p)) == 0
    ensures p.total > 0 ==> TotalPages(Some(p)) >= 1
    ensures p.total >= 0 ==> TotalPages(Some(p)) >= 0
  {
    var n := TotalPages(Some(p));
    if n < 0 && p.total >= 0 {
      MulMonotone(n, -1, p.size);
    }
    if n > 0 && p.total == 0 {
      MulMonotone(0, n - 1, p.size);
    }
    if n <= 0 && p.total > 0 {
      MulMonotone(n, 0, p.size);
    }
  }

  /** The page index pagination reports, or 0 when there is no pagination. */
  function CurrentPage(p: Option<PaginationInfo>): int {
    if p.Some? then p.value.page else 0
  }

  /** `Array.from({ length: n })` has `n` entries, or none when `n` is negative. */
  function ArrayLength(n: int): nat {
    if n < 0 then 0 else n
  }

  /** The page number shown by the `i`-th button of the window. */
  function PageNumber(totalPages: int, currentPage: int, i: int): int {
    if totalPages <= 5 then i
    else if currentPage <= 2 then i
    else if currentPage >= totalPages - 3 then totalPages - 5 + i
    else currentPage - 2 + i
  }

  /** The page numbers of the buttons between Previous and Next. */
  function PageWindow(totalPages: int, currentPage: int): (w: seq<int>)
    ensures totalPages >= 0 ==> |w| == Min(5, totalPages)
    ensures totalPages < 0 ==> w == []
    ensures forall k :: 0 <= k < |w| ==> 0 <= w[k] <= totalPages - 1
    ensures forall k :: 0 < k < |w| ==> w[k] == w[k - 1] + 1
    ensures forall j, k :: 0 <= j < k < |w| ==> w[j] < w[k]
    ensures 0 <= currentPage < totalPages ==> currentPage in w
  {
    var n := ArrayLength(Min(5, totalPages));
    var lo := WindowStart(totalPages, currentPage);
    WindowShape(totalPages, currentPage);
    var w := seq(n, i => PageNumber(totalPages, currentPage, i));
    assert forall k :: 0 <= k < n ==> w[k] == lo + k;
    assert 0 <= currentPage < totalPages ==> w[currentPage - lo] == currentPage;
    w
  }

  /** Each button's number is WindowStart plus its position, and the run fits the pages. */
  lemma WindowShape(totalPages: int, currentPage: int)
    ensures var n := ArrayLength(Min(5, totalPages));
      var lo := WindowStart(totalPages, currentPage);
      && (n > 0 ==> 0 <= lo && lo + n <= totalPages)
      && (forall i :: 0 <= i < n ==> PageNumber(totalPages, currentPage, i) == lo + i)
      && (0 <= currentPage < totalPages ==> lo <= currentPage < lo + n)
  {
  }

  /** `lo, lo + 1, ..., hi - 1`. */
  function Range(lo: int, hi: int): (r: seq<int>)
    decreases hi - lo
  {
    if lo >= hi then [] else [lo] + Range(lo + 1, hi)
  }

  lemma {:induction false} RangeAt(lo: int, hi: int, k: int)
    requires 0 <= k < hi - lo
    ensures |Range(lo, hi)| == hi - lo && Range(lo, hi)[k] == lo + k
    decreases hi - lo
  {
    if k > 0 {
      RangeAt(lo + 1, hi, k - 1);
    } else if lo + 1 < hi {
      RangeAt(lo + 1, hi, 0);
    }
  }

  /** Where the window starts: two before the current page, clamped into range. */
  function WindowStart(totalPages: int, currentPage: int): int {
    if totalPages <= 5 then 0
    else if currentPage - 2 < 0 then 0
    else if currentPage - 2 > totalPages - 5 then totalPages - 5
    else currentPage - 2
  }

  /** The window is the run of consecutive pages from WindowStart. */
  lemma PageWindowIsClampedRange(totalPages: int, currentPage: int)
    ensures PageWindow(totalPages, currentPage)
         == Range(WindowStart(totalPages, currentPage),
                  WindowStart(totalPages, currentPage) + |PageWindow(totalPages, currentPage)|)
  {
    var w := PageWindow(totalPages, currentPage);
    var lo := WindowStart(totalPages, currentPage);
    var r := Range(lo, lo + |w|);
    if |w| == 0 {
      assert r == [];
    } else {
      forall k | 0 <= k < |w| ensures |r| == |w| && r[k] == w[k] {
        RangeAt(lo, lo + |w|, k);
      }
      RangeAt(lo, lo + |w|, 0);
      assert w == r;
    }
  }

  /** Away from both ends, the current page is the middle of five buttons. */
  lemma CurrentPageCentred(totalPages: int, currentPage: int)
    requires totalPages > 5 && 2 <= currentPage <= totalPages - 3
    ensures PageWindow(totalPages, currentPage)[2] == currentPage
  {
  }

  /** Previous is disabled on the first page. */
  predicate PrevDisabled(currentPage: int) {
    currentPage == 0
  }

  /** Next is disabled on the last page and on any page past it. */
  predicate NextDisabled(currentPage: int, totalPages: int) {
    currentPage >= totalPages - 1
  }

  /** An enabled Previous or Next button moves to a page that exists. */
  lemma NavigationStaysInRange(currentPage: int, totalPages: int)
    requires 0 <= currentPage < totalPages
    ensures !PrevDisabled(currentPage) ==> 0 <= currentPage - 1 < totalPages
    ensures !NextDisabled(currentPage, totalPages) ==> 0 <= currentPage + 1 < totalPages
    ensures PrevDisabled(currentPage) <==> currentPage == 0
    ensures NextDisabled(currentPage, totalPages) <==> currentPage == totalPages - 1
  {
  }

  /** The first record number of the "Showing" line. */
  function ShowingFirst(currentPage: int, size: int): int {
    currentPage * size + 1
  }

  /** The last record number of the "Showing" line. */
  function ShowingLast(currentPage: int, size: int, total: int): int {
    Min((currentPage + 1) * size, total)
  }

  /** On an existing page the "Showing" range is a non-empty slice of at most one page. */
  lemma ShowingRangeBounds(currentPage: int, size: int, total: int)
    requires size > 0
    requires 0 <= currentPage < TotalPages(Some(PaginationInfo(currentPage, size, total)))
    ensures 1 <= ShowingFirst(currentPage, size)
    ensures ShowingFirst(currentPage, size) <= ShowingLast(currentPage, size, total) <= total
    ensures ShowingLast(currentPage, size, total) - ShowingFirst(currentPage, size) + 1 <= size
  {
    var n := TotalPages(Some(PaginationInfo(currentPage, size, total)));
    MulMonotone(currentPage, n - 1, size);
    MulMonotone(0, currentPage, size);
    assert (currentPage + 1) * size == currentPage * size + size;
  }

  /** Next is disabled exactly on the page whose "Showing" range reaches the total. */
  lemma NextDisabledIffLastRecordShown(currentPage: int, size: int, total: int)
    requires size > 0
    requires 0 <= currentPage < TotalPages(Some(PaginationInfo(currentPage, size, total)))
    ensures NextDisabled(currentPage, TotalPages(Some(PaginationInfo(currentPage, size, total))))
        <==> ShowingLast(currentPage, size, total) == total
  {
    var n := TotalPages(Some(PaginationInfo(currentPage, size, total)));
    if currentPage == n - 1 {
      assert (currentPage + 1) * size == n * size;
    } else {
      MulMonotone(currentPage + 1, n - 1, size);
    }
  }

  /** What the pagination bar shows. */
  datatype Controls = Controls(
    first: int, last: int, total: int,
    prevDisabled: bool, nextDisabled: bool,
    pages: seq<int>, highlighted: int)

  /** The pagination bar, shown only with pagination, a page callback and more than one page. */
  function PaginationControls(p: Option<PaginationInfo>, hasPageChange: bool): (c: Option<Controls>)
    requires WellSized(p)
    ensures c.Some? <==> p.Some? && hasPageChange && TotalPages(p) > 1
    ensures c.Some? ==> |c.value.pages| >= 2 && c.value.total == p.value.total
  {
    if p.Some? && hasPageChange && TotalPages(p) > 1 then
      var n := TotalPages(p);
      var cp := CurrentPage(p);
      Some(Controls(ShowingFirst(cp, p.value.size), ShowingLast(cp, p.value.size, p.value.total),
                    p.value.total, PrevDisabled(cp), NextDisabled(cp, n), PageWindow(n, cp), cp))
    else None
  }

  /** On an existing page the bar is consistent: a proper range, the page in the window, a way to move. */
  lemma ControlsConsistent(p: PaginationInfo, hasPageChange: bool)
    requires p.size > 0
    requires PaginationControls(Some(p), hasPageChange).Some?
    requires 0 <= p.page < TotalPages(Some(p))
    ensures var c := PaginationControls(Some(p), hasPageChange).value;
      && 1 <= c.first <= c.last <= c.total
      && c.last - c.first + 1 <= p.size
      && c.highlighted in c.pages
      && !(c.prevDisabled && c.nextDisabled)
  {
    ShowingRangeBounds(p.page, p.size, p.total);
  }

  const StartHint := "Start by creating your first human being"
  const AdjustHint := "Try adjusting your search criteria"

  /** The three shapes the table takes. */
  datatype TableView =
    | Spinner
    | NoResults(hint: string)
    | Rows(rows: seq<HumanBeing>, controls: Option<Controls>)

  /** The component's output, markup aside. */
  function Render(humanBeings: seq<HumanBeing>, loading: bool, p: Option<PaginationInfo>,
                  hasPageChange: bool): (v: TableView)
    requires WellSized(p)
    ensures v.Spinner? <==> loading
    ensures v.NoResults? <==> !loading && |humanBeings| == 0
    ensures v.NoResults? ==> (v.hint == StartHint <==> p.Some? && p.value.total == 0)
    ensures v.NoResults? ==> (v.hint == StartHint || v.hint == AdjustHint)
    ensures v.Rows? ==> v.rows == humanBeings && v.controls == PaginationControls(p, hasPageChange)
  {
    if loading then Spinner
    else if |humanBeings| == 0 then
      NoResults(if p.Some? && p.value.total == 0 then StartHint else AdjustHint)
    else Rows(humanBeings, PaginationControls(p, hasPageChange))
  }

  /** `getMoodColor`: the badge classes of a mood. */
  function MoodColor(mood: Option<Mood>): string {
    match mood
    case Some(Sadness) => "bg-blue-100 text-blue-800"
    case Some(Longing) => "bg-purple-100 text-purple-800"
    case Some(Gloom) => "bg-gray-100 text-gray-800"
    case None => "bg-gray-100 text-gray-800"
  }

  /** `getWeaponColor`: the badge classes of a weapon type. */
  function WeaponColor(w: WeaponType): string {
    match w
    case Hammer => "bg-orange-100 text-orange-800"
    case Pistol => "bg-red-100 text-red-800"
    case Knife => "bg-yellow-100 text-yellow-800"
    case MachineGun => "bg-green-100 text-green-800"
  }

  /** Each weapon type has its own colour; Gloom shares the fallback colour of a missing mood. */
  lemma BadgeColours(w1: WeaponType, w2: WeaponType, m1: Mood, m2: Mood)
    ensures WeaponColor(w1) == WeaponColor(w2) <==> w1 == w2
    ensures MoodColor(Some(m1)) == MoodColor(Some(m2)) <==> m1 == m2
    ensures MoodColor(None) == MoodColor(Some(Gloom))
  {
  }

  /** Ten per page and 25 records: three pages, Previous off and Next on at the first. */
  lemma TwentyFiveRecordsScenario()
    ensures TotalPages(Some(PaginationInfo(0, 10, 25))) == 3
    ensures PrevDisabled(0) && !NextDisabled(0, 3)
    ensures PageWindow(3, 0) == [0, 1, 2]
    ensures ShowingFirst(0, 10) == 1 && ShowingLast(0, 10, 25) == 10
  {
    CeilDivUnique(25, 10, 3);
  }
}
