/** Client-side pagination over an in-memory sequence, with pages of PageSize rows. */
module Paging {

  /** Number of rows per page. */
  const PageSize: nat := 100

  function Min(a: int, b: int): int
  {
    if a <= b then a else b
  }

  /** Math.ceil(count / PageSize): the smallest page count that holds `count` rows. */
  function TotalPages(count: nat): (t: nat)
    ensures count <= t * PageSize
    ensures t == 0 || (t - 1) * PageSize < count
    ensures t == 0 <==> count == 0
  {
    if count % PageSize == 0 then count / PageSize else count / PageSize + 1
  }

  /**
   * How Array.prototype.slice normalises an index against a length: a negative index counts
   * back from the end, and the result is clamped to [0, len].
   */
  function SliceIndex(i: int, len: nat): (k: nat)
    ensures k <= len
    ensures 0 <= i <= len ==> k == i
    ensures i >= len ==> k == len
    ensures i + len <= 0 ==> k == 0
    ensures i < 0 < i + len ==> k == len + i
  {
    if i < 0 then (if len + i < 0 then 0 else len + i)
    else if i > len then len
    else i
  }

  /**
   * s.slice(start, end) in JavaScript: the elements from the normalised start up to the
   * normalised end, or nothing when the end does not lie after the start.
   */
  function JsSlice<T>(s: seq<T>, start: int, end: int): (r: seq<T>)
    ensures 0 <= start <= end <= |s| ==> r == s[start..end]
    ensures SliceIndex(end, |s|) <= SliceIndex(start, |s|) ==> r == []
    ensures SliceIndex(start, |s|) < SliceIndex(end, |s|) ==>
      |r| == SliceIndex(end, |s|) - SliceIndex(start, |s|)
    ensures SliceIndex(start, |s|) + |r| <= |s|
    ensures forall i :: 0 <= i < |r| ==> r[i] == s[SliceIndex(start, |s|) + i]
  {
    var from, to := SliceIndex(start, |s|), SliceIndex(end, |s|);
    if from < to then s[from..to] else []
  }

  /**
   * The rows shown for a page: data.slice((pageNumber - 1) * PageSize, pageNumber * PageSize).
   * For a page that starts inside the data it is the range from that start up to the page end
   * clamped to the data; a page starting at or after the end of the data, and page 0, are empty.
   */
  function PageWindow<T>(data: seq<T>, pageNumber: int): (w: seq<T>)
    ensures |w| <= PageSize
    ensures pageNumber == 0 ==> w == []
    ensures pageNumber >= 1 && (pageNumber - 1) * PageSize >= |data| ==> w == []
    ensures pageNumber >= 1 && (pageNumber - 1) * PageSize < |data| ==>
      w == data[(pageNumber - 1) * PageSize .. Min(pageNumber * PageSize, |data|)]
  {
    JsSlice(data, (pageNumber - 1) * PageSize, pageNumber * PageSize)
  }

  /** Every page but the last is full; the last holds the remainder. */
  lemma WindowSizes<T>(data: seq<T>, pageNumber: int)
    requires 1 <= pageNumber <= TotalPages(|data|)
    ensures |PageWindow(data, pageNumber)| ==
      if pageNumber < TotalPages(|data|) then PageSize
      else |data| - (TotalPages(|data|) - 1) * PageSize
  {
  }

  /** A cursor past the last page (left behind by a reload that shrank the data) shows nothing. */
  lemma WindowPastLastPage<T>(data: seq<T>, pageNumber: int)
    requires pageNumber > TotalPages(|data|)
    ensures PageWindow(data, pageNumber) == []
  {
  }

  /** Pages 1 to k laid end to end. */
  function Pages<T>(data: seq<T>, k: nat): seq<T>
  {
    if k == 0 then [] else Pages(data, k - 1) + PageWindow(data, k)
  }

  /** Pages 1 to k are contiguous and non-overlapping: together they are the first k * PageSize rows. */
  lemma {:induction false} PagesArePrefix<T>(data: seq<T>, k: nat)
    ensures Pages(data, k) == data[..Min(k * PageSize, |data|)]
  {
    if k > 0 {
      PagesArePrefix(data, k - 1);
      var lo := Min((k - 1) * PageSize, |data|);
      var hi := Min(k * PageSize, |data|);
      assert data[..lo] + data[lo..hi] == data[..hi];
    }
  }

  /** Pages 1 to TotalPages together are exactly the data: every row is on exactly one page. */
  lemma PagesPartitionData<T>(data: seq<T>)
    ensures Pages(data, TotalPages(|data|)) == data
  {
    PagesArePrefix(data, TotalPages(|data|));
  }

  /** The three numbers of the "Showing {start}-{end} of {total} records" caption. */
  datatype PageInfo = PageInfo(start: int, end: int, total: nat)

  /** The caption numbers for a page of data with `count` rows. */
  function InfoFor(count: nat, pageNumber: int): PageInfo
  {
    PageInfo((pageNumber - 1) * PageSize + 1, Min(pageNumber * PageSize, count), count)
  }

  /**
   * On page 1 or later the caption describes the window: rows start..end (1-based, inclusive)
   * are exactly the window, which is empty precisely when end < start.
   */
  lemma InfoDescribesWindow<T>(data: seq<T>, pageNumber: int)
    requires pageNumber >= 1
    ensures var info := InfoFor(|data|, pageNumber);
      && info.total == |data|
      && (PageWindow(data, pageNumber) == [] <==> info.end < info.start)
      && (info.start <= info.end ==>
            1 <= info.start && info.end <= |data| &&
            PageWindow(data, pageNumber) == data[info.start - 1 .. info.end])
  {
  }

  /** The page-navigation buttons. */
  datatype Nav = Previous | Next | First | Last

  /** previousPage: step back unless already on page 1 or before. */
  function PrevCursor(pageNumber: int): int
  {
    if pageNumber > 1 then pageNumber - 1 else pageNumber
  }

  /** nextPage: step forward unless already on the last page or beyond. */
  function NextCursor(pageNumber: int, totalPages: nat): int
  {
    if pageNumber < totalPages then pageNumber + 1 else pageNumber
  }

  /** The page number after one button press. */
  function Step(nav: Nav, pageNumber: int, totalPages: nat): int
  {
    match nav
    case Previous => PrevCursor(pageNumber)
    case Next => NextCursor(pageNumber, totalPages)
    case First => 1
    case Last => totalPages
  }

  /** The page number after a sequence of button presses. */
  function Navigate(navs: seq<Nav>, pageNumber: int, totalPages: nat): int
    decreases |navs|
  {
    if navs == [] then pageNumber
    else Navigate(navs[1..], Step(navs[0], pageNumber, totalPages), totalPages)
  }

  /** From a page in [1, totalPages], no sequence of presses leaves that range. */
  lemma {:induction false} NavigateStaysInRange(navs: seq<Nav>, pageNumber: int, totalPages: nat)
    requires 1 <= pageNumber <= totalPages
    ensures 1 <= Navigate(navs, pageNumber, totalPages) <= totalPages
    decreases |navs|
  {
    if navs != [] {
      NavigateStaysInRange(navs[1..], Step(navs[0], pageNumber, totalPages), totalPages);
    }
  }

  /** Previous and Next move by at most one page each press. */
  lemma {:induction false} NavigateDrift(navs: seq<Nav>, pageNumber: int, totalPages: nat)
    requires forall i :: 0 <= i < |navs| ==> navs[i] == Previous || navs[i] == Next
    ensures pageNumber - |navs| <= Navigate(navs, pageNumber, totalPages) <= pageNumber + |navs|
    decreases |navs|
  {
    if navs != [] {
      NavigateDrift(navs[1..], Step(navs[0], pageNumber, totalPages), totalPages);
    }
  }

  /** Inside the page range, Previous undoes Next and Next undoes Previous. */
  lemma PreviousNextInverse(pageNumber: int, totalPages: nat)
    ensures 1 <= pageNumber < totalPages ==> PrevCursor(NextCursor(pageNumber, totalPages)) == pageNumber
    ensures 1 < pageNumber <= totalPages ==> NextCursor(PrevCursor(pageNumber), totalPages) == pageNumber
  {
  }
}
