/** The pagination controls shared by the item and consumable listings: the
    clamped First/Prev/Next/Last updates and the window of page buttons. */
module Pagination {

  /** Prev: `Math.max(1, p - 1)`. */
  function PrevPage(p: int): int
  {
    if p - 1 > 1 then p - 1 else 1
  }

  /** Next: `Math.min(totalPages, p + 1)`. */
  function NextPage(p: int, total: int): int
  {
    if p + 1 < total then p + 1 else total
  }

  /** `response.data.last_page || 1`. */
  function TotalPagesOf(lastPage: int): (t: int)
    requires lastPage >= 0
    ensures t >= 1
    ensures lastPage >= 1 ==> t == lastPage
  {
    if lastPage != 0 then lastPage else 1
  }

  /** `Array.from({ length: total }, (_, i) => i + 1)`: pages 1 to total. */
  function Pages(total: int): (r: seq<int>)
    ensures |r| == if total > 0 then total else 0
    ensures forall k | 0 <= k < |r| :: r[k] == k + 1
  {
    if total <= 0 then [] else Pages(total - 1) + [total]
  }

  /** How `Array.prototype.slice` normalises an index: negative counts from
      the end, and the result is clamped to [0, len]. */
  function SliceIndex(i: int, len: nat): (r: nat)
    ensures r <= len
  {
    if i < 0 then (if len + i < 0 then 0 else len + i)
    else if i > len then len
    else i
  }

  /** `s.slice(start, end)`. */
  function Slice<T>(s: seq<T>, start: int, end: int): (r: seq<T>)
  {
    var a, b := SliceIndex(start, |s|), SliceIndex(end, |s|);
    if a < b then s[a..b] else []
  }

  /** The page buttons shown: `pages.slice(max(0, c - 2), min(total, c + 1))`. */
  function PageWindow(current: int, total: int): seq<int>
  {
    var start := if current - 2 > 0 then current - 2 else 0;
    var end := if total < current + 1 then total else current + 1;
    Slice(Pages(total), start, end)
  }

  /** From a page in range, every control lands in range; Prev and Next move by
      one page unless they are at the first or last page. */
  lemma ControlsStayInRange(p: int, total: int)
    requires 1 <= p <= total
    ensures 1 <= PrevPage(p) <= total && 1 <= NextPage(p, total) <= total
    ensures PrevPage(p) == (if p == 1 then 1 else p - 1)
    ensures NextPage(p, total) == (if p == total then total else p + 1)
  {
  }

  /** The controls disabled on the first and the last page would change nothing. */
  lemma DisabledControlsAreNoOps(total: int)
    requires total >= 1
    ensures PrevPage(1) == 1 && NextPage(total, total) == total
  {
  }

  /** The window is a run of consecutive pages, at most three, all existing; for
      a current page in range it is max(1, c-1) .. min(total, c+1), so it holds c. */
  lemma PageWindowShape(current: int, total: int)
    requires current >= 1
    ensures var w := PageWindow(current, total);
      && |w| <= 3
      && (forall k | 0 <= k < |w| :: 1 <= w[k] <= total)
      && (forall k | 0 < k < |w| :: w[k] == w[k - 1] + 1)
      && (current <= total ==>
            var lo := if current - 1 > 1 then current - 1 else 1;
            var hi := if current + 1 < total then current + 1 else total;
            |w| == hi - lo + 1 && w[0] == lo && w[|w| - 1] == hi && current in w)
  {
    var pages := Pages(total);
    var start := if current - 2 > 0 then current - 2 else 0;
    var end := if total < current + 1 then total else current + 1;
    var a, b := SliceIndex(start, |pages|), SliceIndex(end, |pages|);
    var w := PageWindow(current, total);
    if a < b {
      assert w == pages[a..b];
      assert forall k | 0 <= k < |w| :: w[k] == a + k + 1;
      if current <= total {
        assert w[current - 1 - a] == current;
      }
    }
  }
}
