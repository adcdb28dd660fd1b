/**
 * Paging of lists and the navigation row under them (app/utils/pagination.py). Pages are
 * numbered from 0; a page is a Python slice of the list, so out-of-range pages are empty
 * rather than errors.
 */
module Pagination {
  import opened Text

  datatype Page<T> = Page(items: seq<T>, hasPrev: bool, hasNext: bool)

  function Min(a: int, b: int): int { if a <= b then a else b }

  /**
   * `paginate_items`: the slice [page·perPage, page·perPage + perPage) of the list, clipped
   * to it, with a previous page exactly when page > 0 and a next one exactly when the
   * slice's end falls short of the list.
   */
  function PaginateItems<T>(items: seq<T>, page: int, perPage: int): (r: Page<T>)
    ensures r.hasPrev <==> page > 0
    ensures r.hasNext <==> (page + 1) * perPage < |items|
    ensures 0 <= page && 0 <= perPage ==>
      0 <= page * perPage && r.items == items[Min(page * perPage, |items|)..Min(page * perPage + perPage, |items|)]
    ensures 0 <= page && 0 <= perPage ==> |r.items| <= perPage
  {
    var start := page * perPage;
    var end := start + perPage;
    assert (page + 1) * perPage == end;
    if 0 <= page && 0 <= perPage then
      MulMonotone(0, page, perPage);
      assert SliceBound(start, |items|) == Min(start, |items|) && SliceBound(end, |items|) == Min(end, |items|);
      Page(Slice(items, start, end), page > 0, end < |items|)
    else Page(Slice(items, start, end), page > 0, end < |items|)
  }

  /** Python's `a // b`: the quotient rounded towards minus infinity. */
  function FloorDiv(a: int, b: int): (q: int)
    requires b != 0
    ensures b > 0 ==> b * q <= a < b * q + b
    ensures b < 0 ==> b * q >= a > b * q + b
  {
    if b > 0 then a / b else (-a) / (-b)
  }

  /** `calculate_total_pages`: `(total + perPage - 1) // perPage`; a zero page size raises. */
  function TotalPages(totalItems: int, perPage: int): (r: Call<int>)
    ensures r.Raised? <==> perPage == 0
  {
    if perPage == 0 then Raised else Returned(FloorDiv(totalItems + perPage - 1, perPage))
  }

  /** For a positive page size the page count is the ceiling of total / perPage. */
  lemma TotalPagesIsCeiling(totalItems: nat, perPage: int)
    requires perPage > 0
    ensures var n := TotalPages(totalItems, perPage).value;
      n >= 0 && (n - 1) * perPage < totalItems <= n * perPage
  {
    var n := TotalPages(totalItems, perPage).value;
    assert perPage * n <= totalItems + perPage - 1 < perPage * n + perPage;
  }

  lemma MulMonotone(a: int, b: int, p: int)
    requires a <= b && p >= 0
    ensures a * p <= b * p
  {
  }

  /** Pages 0 .. k-1 laid end to end. */
  function PagesUpTo<T>(items: seq<T>, perPage: int, k: nat): seq<T>
  {
    if k == 0 then [] else PagesUpTo(items, perPage, k - 1) + PaginateItems(items, k - 1, perPage).items
  }

  /** Page k-1 runs from where pages 0 .. k-2 stop to where pages 0 .. k-1 stop. */
  lemma PageBetween<T>(items: seq<T>, perPage: int, k: nat)
    requires perPage > 0 && k > 0
    ensures 0 <= Min((k - 1) * perPage, |items|) <= Min(k * perPage, |items|)
    ensures PaginateItems(items, k - 1, perPage).items == items[Min((k - 1) * perPage, |items|)..Min(k * perPage, |items|)]
  {
    assert (k - 1) * perPage + perPage == k * perPage;
    MulMonotone(0, k - 1, perPage);
  }

  lemma {:induction false} PagesUpToIsPrefix<T>(items: seq<T>, perPage: int, k: nat)
    requires perPage > 0
    ensures PagesUpTo(items, perPage, k) == items[..Min(k * perPage, |items|)]
  {
    if k > 0 {
      PagesUpToIsPrefix(items, perPage, k - 1);
      PageBetween(items, perPage, k);
      var lo, hi := Min((k - 1) * perPage, |items|), Min(k * perPage, |items|);
      assert PagesUpTo(items, perPage, k) == PagesUpTo(items, perPage, k - 1) + PaginateItems(items, k - 1, perPage).items;
      PrefixJoin(items, lo, hi);
    }
  }

  lemma PrefixJoin<T>(s: seq<T>, lo: nat, hi: nat)
    requires lo <= hi <= |s|
    ensures s[..lo] + s[lo..hi] == s[..hi]
  {
  }

  /** Reading pages 0 .. totalPages-1 in order gives back the whole list, each item once. */
  lemma PagesCoverItems<T>(items: seq<T>, perPage: int)
    requires perPage > 0
    ensures PagesUpTo(items, perPage, TotalPages(|items|, perPage).value) == items
  {
    var n := TotalPages(|items|, perPage).value;
    TotalPagesIsCeiling(|items|, perPage);
    PagesUpToIsPrefix(items, perPage, n);
  }

  /** A page has items exactly when its number is below the page count, and a next page exactly when the next number is. */
  lemma PageWithinCount<T>(items: seq<T>, page: nat, perPage: int)
    requires perPage > 0
    ensures var n := TotalPages(|items|, perPage).value;
      && (PaginateItems(items, page, perPage).items != [] <==> page < n)
      && (PaginateItems(items, page, perPage).hasNext <==> page + 1 < n)
  {
    var n := TotalPages(|items|, perPage).value;
    TotalPagesIsCeiling(|items|, perPage);
    if page < n {
      MulMonotone(page, n - 1, perPage);
    } else {
      MulMonotone(n, page, perPage);
    }
    if page + 1 < n {
      MulMonotone(page + 1, n - 1, perPage);
    } else {
      MulMonotone(n, page + 1, perPage);
    }
  }

  /** An inline button: its label and the callback data it sends. */
  datatype Button = Button(text: string, callbackData: string)

  const PREV_LABEL := "◀️"
  const NEXT_LABEL := "▶️"
  const NOOP := "noop"

  /** The callback data of a navigation button: `{prefix}:{page}`. */
  function PageCallback(prefix: string, page: int): string
  {
    prefix + ":" + IntToString(page)
  }

  /** The page indicator: "page+1", or "page+1/total" when a non-zero total is given. */
  function Indicator(page: int, totalPages: Option<int>): (r: string)
    ensures totalPages.Some? && totalPages.value != 0 ==> r == IntToString(page + 1) + "/" + IntToString(totalPages.value)
    ensures totalPages.None? || totalPages.value == 0 ==> r == IntToString(page + 1)
  {
    if totalPages.Some? && totalPages.value != 0
    then IntToString(page + 1) + "/" + IntToString(totalPages.value)
    else IntToString(page + 1)
  }

  /**
   * `create_pagination_buttons`: a previous button when there is a previous page, always the
   * indicator, then a next button when there is a next page, in that order.
   */
  method CreatePaginationButtons(page: int, hasPrev: bool, hasNext: bool, prefix: string, totalPages: Option<int>)
    returns (buttons: seq<Button>)
    ensures |buttons| == 1 + (if hasPrev then 1 else 0) + (if hasNext then 1 else 0)
    ensures hasPrev ==> buttons[0] == Button(PREV_LABEL, PageCallback(prefix, page - 1))
    ensures buttons[if hasPrev then 1 else 0] == Button(Indicator(page, totalPages), NOOP)
    ensures hasNext ==> buttons[|buttons| - 1] == Button(NEXT_LABEL, PageCallback(prefix, page + 1))
  {
    buttons := [];
    if hasPrev {
      buttons := buttons + [Button(PREV_LABEL, prefix + ":" + IntToString(page - 1))];
    }
    var pageText;
    if totalPages.Some? && totalPages.value != 0 {
      pageText := IntToString(page + 1) + "/" + IntToString(totalPages.value);
    } else {
      pageText := IntToString(page + 1);
    }
    buttons := buttons + [Button(pageText, NOOP)];
    if hasNext {
      buttons := buttons + [Button(NEXT_LABEL, prefix + ":" + IntToString(page + 1))];
    }
  }

  /**
   * The handler that receives a navigation button reads the page back from the text after
   * the prefix and the colon, and gets the page the button was made for.
   */
  lemma CallbackNamesPage(prefix: string, page: int)
    ensures var data := PageCallback(prefix, page);
      |data| > |prefix| && data[..|prefix|] == prefix && data[|prefix|] == ':'
      && ParseInt(data[|prefix| + 1..]) == page
  {
    var data := PageCallback(prefix, page);
    assert data[|prefix| + 1..] == IntToString(page);
    IntToStringRoundTrip(page);
  }
}
