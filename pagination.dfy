/**
 * The search path's arithmetic: reading `page` and `page_size` from the query
 * string with `int()`, gathering the scanned items, slicing out one page the
 * way Python slices, and `total_page` with Python's floor division.
 */
module Pagination {
  import opened Wrappers
  import opened Store

  // ----- int() on a query-string value -----

  predicate IsDigit(c: char) {
    '0' <= c <= '9'
  }

  predicate AllDigits(s: string) {
    forall i :: 0 <= i < |s| ==> IsDigit(s[i])
  }

  /** The number a string of decimal digits denotes. */
  function DigitsValue(s: string): nat
    requires AllDigits(s)
  {
    if s == [] then 0 else DigitsValue(s[..|s| - 1]) * 10 + (s[|s| - 1] as int - '0' as int)
  }

  /** `int(s)`: an optional sign and at least one decimal digit; None where Python raises ValueError. */
  function ParseInt(s: string): Option<int> {
    if |s| > 0 && (s[0] == '-' || s[0] == '+') then
      var digits := s[1..];
      if digits != [] && AllDigits(digits) then
        var magnitude: int := DigitsValue(digits);
        Some(if s[0] == '-' then -magnitude else magnitude)
      else None
    else if s != [] && AllDigits(s) then Some(DigitsValue(s))
    else None
  }

  function DigitChar(d: nat): char
    requires d < 10
  {
    ('0' as int + d) as char
  }

  /** `str(n)` for a natural number. */
  function NatString(n: nat): string {
    if n < 10 then [DigitChar(n)] else NatString(n / 10) + [DigitChar(n % 10)]
  }

  /** `str(n)`. */
  function DecimalString(n: int): string {
    if n < 0 then "-" + NatString(-n) else NatString(n)
  }

  lemma {:induction false} NatStringDigits(n: nat)
    ensures NatString(n) != [] && AllDigits(NatString(n))
    ensures DigitsValue(NatString(n)) == n
  {
    var s := NatString(n);
    if n >= 10 {
      NatStringDigits(n / 10);
      assert s[..|s| - 1] == NatString(n / 10);
    }
  }

  /** `int(str(n)) == n`: every integer written in decimal reads back as itself. */
  lemma ParseIntRoundTrip(n: int)
    ensures ParseInt(DecimalString(n)) == Some(n)
  {
    if n < 0 {
      NatStringDigits(-n);
      assert DecimalString(n)[1..] == NatString(-n);
    } else {
      NatStringDigits(n);
    }
  }

  /** `int(params.get(key, default))`: the default when the key is absent, otherwise the parsed value. */
  function QueryInt(params: map<string, string>, key: string, default: int): Option<int> {
    if key in params then ParseInt(params[key]) else Some(default)
  }

  // ----- gathering the scanned items -----

  /**
   * The search loop: the first (filtered) page's items, then, while the last
   * page read carries a `LastEvaluatedKey`, the items of the next continuation
   * page.
   */
  method CollectScan(first: Page, continuation: seq<Page>) returns (data: seq<Item>)
    requires Chain([first] + continuation)
    ensures data == first.items + Flatten(continuation)
  {
    ghost var pages := [first] + continuation;
    var response := first;
    data := response.items;
    var i := 0;
    while response.lastEvaluatedKey.Some?
      invariant 0 <= i <= |continuation|
      invariant response == pages[i]
      invariant data == first.items + Flatten(continuation[..i])
      decreases |continuation| - i
    {
      response := continuation[i];
      assert continuation[..i + 1][..i] == continuation[..i];
      data := data + response.items;
      i := i + 1;
    }
    assert continuation[..i] == continuation;
  }

  // ----- slicing one page -----

  /** Where a Python slice bound falls in a sequence of length `n`: negative bounds count from the end, then clamp. */
  function SliceBound(i: int, n: nat): (b: nat)
    ensures b <= n
  {
    if i < 0 then (if i + n < 0 then 0 else i + n)
    else if i > n then n
    else i
  }

  /** `s[lo:hi]`. */
  function PySlice<T>(s: seq<T>, lo: int, hi: int): seq<T> {
    var a, b := SliceBound(lo, |s|), SliceBound(hi, |s|);
    if a < b then s[a..b] else []
  }

  function PageStart(page: int, pageSize: int): int {
    (page - 1) * pageSize
  }

  /** The items of one page: `data[(page-1)*page_size : (page-1)*page_size + page_size]`. */
  function PageWindow<T>(data: seq<T>, page: int, pageSize: int): seq<T> {
    PySlice(data, PageStart(page, pageSize), PageStart(page, pageSize) + pageSize)
  }

  /** For a page and page size of at least 1, the window holds the items from the page's start on, at most `pageSize` of them. */
  lemma PageWindowContents<T>(data: seq<T>, page: int, pageSize: int)
    requires page >= 1 && pageSize >= 1
    ensures var w, start := PageWindow(data, page, pageSize), PageStart(page, pageSize);
      && start >= 0
      && |w| == (if start >= |data| then 0 else if |data| - start < pageSize then |data| - start else pageSize)
      && (forall j :: 0 <= j < |w| ==> w[j] == data[start + j])
  {
    var start := PageStart(page, pageSize);
    assert start >= 0 by {
      assert (page - 1) * pageSize >= 0 * pageSize;
    }
  }

  /** A page has items exactly when its start offset is below the number of items; it never has more than `pageSize`. */
  lemma PageWindowBounds<T>(data: seq<T>, page: int, pageSize: int)
    requires page >= 1 && pageSize >= 1
    ensures |PageWindow(data, page, pageSize)| <= pageSize
    ensures PageWindow(data, page, pageSize) == [] <==> PageStart(page, pageSize) >= |data|
  {
    PageWindowContents(data, page, pageSize);
  }

  // ----- total_page -----

  /** Python's `x // y`: the quotient rounded toward negative infinity. */
  function FloorDiv(x: int, y: int): int
    requires y != 0
  {
    if y > 0 then x / y else (-x) / (-y)
  }

  lemma FloorDivIsFloor(x: int, y: int)
    requires y != 0
    ensures var q := FloorDiv(x, y);
      if y > 0 then y * q <= x < y * q + y else y * q + y < x <= y * q
  {
    var q := FloorDiv(x, y);
    if y < 0 {
      var d := -y;
      assert d * q <= -x < d * q + d;
      assert y * q == -(d * q);
    }
  }

  /** `total_items // page_size + 1`. */
  function TotalPage(totalItems: nat, pageSize: int): int
    requires pageSize != 0
  {
    FloorDiv(totalItems, pageSize) + 1
  }

  lemma MulBounds(d: int, k: int)
    requires d > 0
    ensures k >= 1 ==> d * k >= d
    ensures k <= -1 ==> d * k <= -d
  {
    if k >= 1 {
      assert d * k == d * (k - 1) + d;
    } else if k <= -1 {
      assert d * k == d * (k + 1) - d;
    }
  }

  /** Euclid's division is determined by its quotient and remainder. */
  lemma DivUnique(n: int, d: int, q: int, r: int)
    requires d > 0 && 0 <= r < d && n == d * q + r
    ensures n / d == q && n % d == r
  {
    var q', r' := n / d, n % d;
    assert d * (q' - q) == r - r';
    MulBounds(d, q' - q);
  }

  /**
   * `total_page` is the number of pages that hold items, plus one when the
   * items fill their last page exactly (no items at all included).
   */
  lemma TotalPageOffByOne(n: nat, pageSize: int)
    requires pageSize >= 1
    ensures TotalPage(n, pageSize) == (n + pageSize - 1) / pageSize + (if n % pageSize == 0 then 1 else 0)
  {
    var q, r := n / pageSize, n % pageSize;
    assert n == pageSize * q + r;
    if r == 0 {
      DivUnique(n + pageSize - 1, pageSize, q, pageSize - 1);
    } else {
      DivUnique(n + pageSize - 1, pageSize, q + 1, r - 1);
    }
  }

  /** The page numbered `total_page` starts after the last whole page. */
  lemma LastPageStart(n: nat, pageSize: int)
    requires pageSize >= 1
    ensures PageStart(TotalPage(n, pageSize), pageSize) == n - n % pageSize
  {
    var q := n / pageSize;
    assert n == pageSize * q + n % pageSize;
    assert PageStart(q + 1, pageSize) == q * pageSize;
  }

  /** A slice that starts inside the sequence and would end past it holds the rest of the sequence. */
  lemma SliceReachingEnd<T>(data: seq<T>, start: int, size: int)
    requires 0 <= start <= |data| < start + size
    ensures PySlice(data, start, start + size) == data[start..]
  {
  }

  /**
   * The page numbered `total_page` is empty when the items fill their last page
   * exactly, and otherwise holds the remainder.
   */
  lemma LastCountedPage<T>(data: seq<T>, pageSize: int)
    requires pageSize >= 1
    ensures var n, total := |data|, TotalPage(|data|, pageSize);
      && (n % pageSize == 0 ==> PageWindow(data, total, pageSize) == [])
      && (n % pageSize != 0 ==> |PageWindow(data, total, pageSize)| == n % pageSize)
  {
    var n, total := |data|, TotalPage(|data|, pageSize);
    LastPageStart(n, pageSize);
    SliceReachingEnd(data, n - n % pageSize, pageSize);
  }

  /** Every page numbered below `total_page` holds items. */
  lemma PagesBeforeTotalHaveItems<T>(data: seq<T>, pageSize: int, page: int)
    requires pageSize >= 1 && 1 <= page < TotalPage(|data|, pageSize)
    ensures PageWindow(data, page, pageSize) != []
  {
    var q := |data| / pageSize;
    assert pageSize * q <= |data|;
    assert PageStart(page, pageSize) <= pageSize * q - pageSize by {
      assert page - 1 <= q - 1;
      assert (page - 1) * pageSize <= (q - 1) * pageSize;
    }
    PageWindowBounds(data, page, pageSize);
  }

  /** 25 matches at page size 10: pages 1 and 3 hold 10 and 5 items, page 4 none, and total_page is 3; for 20 matches it is 3 as well. */
  lemma PagingExample<T>(data: seq<T>)
    requires |data| == 25
    ensures |PageWindow(data, 1, 10)| == 10
    ensures |PageWindow(data, 3, 10)| == 5
    ensures PageWindow(data, 4, 10) == []
    ensures TotalPage(25, 10) == 3 && TotalPage(20, 10) == 3
  {
    PageWindowContents(data, 1, 10);
    PageWindowContents(data, 3, 10);
    PageWindowContents(data, 4, 10);
  }
}
