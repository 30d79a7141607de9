/**
 * The transfer table's pagination strip and page-size selector. The strip is
 * drawn only when there is more than one page; it always links pages
 * 1..min(5, totalPages) whatever the current page is. Previous asks for the
 * page before only when the current page is above 1, and next asks for the page
 * after only when it is below totalPages; neither checks the other bound, so a
 * current page outside the range is passed on unclamped.
 * The page-size selector offers "10", "20" and "50" and reports the parsed number.
 */
module Paging {
  import opened Wrappers

  /** The largest number of page links the strip shows. */
  const MaxLinks: int := 5

  /** A numbered link; clicking it asks for `page`, and it is highlighted when active. */
  datatype PageLink = PageLink(page: int, active: bool)

  /**
   * A previous or next control: whether it is drawn disabled, and the page a click
   * asks for (None when the click does nothing).
   */
  datatype Step = Step(disabled: bool, target: Option<int>)

  datatype Controls = Controls(previous: Step, links: seq<PageLink>, next: Step)

  function Min(a: int, b: int): int
  {
    if a <= b then a else b
  }

  function Max(a: int, b: int): int
  {
    if a <= b then b else a
  }

  /** The previous control: disabled on page 1, and it steps back only from above page 1. */
  function Previous(currentPage: int): (s: Step)
    ensures s.disabled <==> currentPage == 1
    ensures s.target.Some? <==> currentPage > 1
    ensures s.target.Some? ==> s.target.value == currentPage - 1
  {
    Step(currentPage == 1, if currentPage > 1 then Some(currentPage - 1) else None)
  }

  /** The next control: disabled on the last page, and it steps on only from below it. */
  function Next(currentPage: int, totalPages: int): (s: Step)
    ensures s.disabled <==> currentPage == totalPages
    ensures s.target.Some? <==> currentPage < totalPages
    ensures s.target.Some? ==> s.target.value == currentPage + 1
  {
    Step(currentPage == totalPages, if currentPage < totalPages then Some(currentPage + 1) else None)
  }

  /** The page links: pages 1 to min(5, totalPages), the current one highlighted. */
  function Links(currentPage: int, totalPages: int): (links: seq<PageLink>)
    ensures |links| == Max(0, Min(MaxLinks, totalPages))
    ensures forall i :: 0 <= i < |links| ==> links[i].page == i + 1
    ensures forall i :: 0 <= i < |links| ==> (links[i].active <==> links[i].page == currentPage)
  {
    var n := Max(0, Min(MaxLinks, totalPages));
    seq(n, i requires 0 <= i < n => PageLink(i + 1, currentPage == i + 1))
  }

  /** The strip, or None when there is at most one page. */
  function Pagination(currentPage: int, totalPages: int): (r: Option<Controls>)
    ensures r.None? <==> totalPages <= 1
    ensures r.Some? ==> 2 <= |r.value.links| <= MaxLinks && |r.value.links| == Min(MaxLinks, totalPages)
    ensures r.Some? ==> (r.value.previous.disabled <==> currentPage == 1)
    ensures r.Some? ==> (r.value.next.disabled <==> currentPage == totalPages)
    ensures r.Some? ==> forall i :: 0 <= i < |r.value.links| ==>
              r.value.links[i].page == i + 1 && (r.value.links[i].active <==> currentPage == i + 1)
    ensures r.Some? ==> (r.value.previous.target.Some? <==> currentPage > 1) &&
                        (r.value.previous.target.Some? ==> r.value.previous.target.value == currentPage - 1)
    ensures r.Some? ==> (r.value.next.target.Some? <==> currentPage < totalPages) &&
                        (r.value.next.target.Some? ==> r.value.next.target.value == currentPage + 1)
  {
    if totalPages > 1 then
      Some(Controls(Previous(currentPage), Links(currentPage, totalPages), Next(currentPage, totalPages)))
    else None
  }

  /** Every page number a click on the strip can ask for. */
  function Requests(c: Controls): set<int>
  {
    StepRequest(c.previous) + StepRequest(c.next) + LinkRequests(c.links)
  }

  function StepRequest(s: Step): set<int>
  {
    if s.target.Some? then {s.target.value} else {}
  }

  function LinkRequests(links: seq<PageLink>): set<int>
  {
    set i | 0 <= i < |links| :: links[i].page
  }

  // ---------------------------------------------------------------------------
  // Properties of the strip.

  /** From a page inside the range, no click asks for a page outside [1, totalPages]. */
  lemma RequestsWithinRange(currentPage: int, totalPages: int)
    requires 1 <= currentPage <= totalPages
    ensures Pagination(currentPage, totalPages).Some? ==>
              forall p :: p in Requests(Pagination(currentPage, totalPages).value) ==> 1 <= p <= totalPages
  {
  }

  /**
   * At most one link is active, the one for the current page; there is one exactly
   * when the current page is among the linked pages.
   */
  lemma AtMostOneActive(currentPage: int, totalPages: int)
    ensures var links := Links(currentPage, totalPages);
            (forall i, j :: 0 <= i < |links| && 0 <= j < |links| && links[i].active && links[j].active ==> i == j) &&
            ((exists i :: 0 <= i < |links| && links[i].active) <==> 1 <= currentPage <= Min(MaxLinks, totalPages))
  {
    var links := Links(currentPage, totalPages);
    if 1 <= currentPage <= Min(MaxLinks, totalPages) {
      assert links[currentPage - 1].active;
    }
  }

  /** There is no sliding window: the linked pages are the same whatever page is current. */
  lemma NoSlidingWindow(page1: int, page2: int, totalPages: int)
    ensures var a, b := Links(page1, totalPages), Links(page2, totalPages);
            |a| == |b| && forall i :: 0 <= i < |a| ==> a[i].page == b[i].page
    ensures totalPages > MaxLinks ==> forall l :: l in Links(page1, totalPages) ==> l.page <= MaxLinks
  {
  }

  /** Inside the page range a control is drawn disabled exactly when clicking it does nothing. */
  lemma DisabledIffInert(currentPage: int, totalPages: int)
    requires 1 <= currentPage <= totalPages
    ensures Previous(currentPage).disabled <==> Previous(currentPage).target.None?
    ensures Next(currentPage, totalPages).disabled <==> Next(currentPage, totalPages).target.None?
  {
  }

  /**
   * The page reached by clicking next n times from the current page, assuming the
   * parent sets the current page to each page the strip asks for (the component
   * only reports the request).
   */
  function ClickNext(currentPage: int, totalPages: int, n: nat): int
    decreases n
  {
    if n == 0 then currentPage
    else
      match Next(currentPage, totalPages).target
      case Some(p) => ClickNext(p, totalPages, n - 1)
      case None => currentPage
  }

  /**
   * The page reached by clicking previous n times from the current page, under the
   * same assumption about the parent.
   */
  function ClickPrevious(currentPage: int, n: nat): int
  {
    if n == 0 then currentPage
    else
      match Previous(currentPage).target
      case Some(p) => ClickPrevious(p, n - 1)
      case None => currentPage
  }

  /**
   * Pages beyond the links stay reachable by stepping: n clicks on next from a
   * page in range reach page min(current + n, totalPages).
   */
  lemma {:induction false} NextReaches(currentPage: int, totalPages: int, n: nat)
    requires 1 <= currentPage <= totalPages
    ensures ClickNext(currentPage, totalPages, n) == Min(currentPage + n, totalPages)
    decreases n
  {
    if n > 0 && currentPage < totalPages {
      NextReaches(currentPage + 1, totalPages, n - 1);
    }
  }

  /** n clicks on previous from a page in range reach page max(current - n, 1). */
  lemma {:induction false} PreviousReaches(currentPage: int, n: nat)
    requires 1 <= currentPage
    ensures ClickPrevious(currentPage, n) == Max(currentPage - n, 1)
  {
    if n > 0 && currentPage > 1 {
      PreviousReaches(currentPage - 1, n - 1);
    }
  }

  // ---------------------------------------------------------------------------
  // Page size: the selector shows the size as text and reports the parsed choice.

  /** The values the page-size selector offers. */
  const PageSizeOptions: seq<string> := ["10", "20", "50"]

  predicate IsDigit(ch: char)
  {
    '0' <= ch <= '9'
  }

  function DigitChar(d: nat): char
    requires d < 10
  {
    ('0' as int + d) as char
  }

  /** The decimal text of a non-negative integer, as the platform's number-to-text gives it. */
  function ToDecimal(n: nat): (s: string)
    ensures |s| > 0 && forall i :: 0 <= i < |s| ==> IsDigit(s[i])
    ensures |s| > 1 ==> s[0] != '0'
    ensures n == 0 <==> s == "0"
  {
    if n < 10 then [DigitChar(n)] else ToDecimal(n / 10) + [DigitChar(n % 10)]
  }

  /** The longest prefix of s made of decimal digits. */
  function LeadingDigits(s: string): (d: string)
    ensures |d| <= |s| && d == s[..|d|]
    ensures forall i :: 0 <= i < |d| ==> IsDigit(d[i])
    ensures |d| < |s| ==> !IsDigit(s[|d|])
  {
    if s == [] || !IsDigit(s[0]) then []
    else [s[0]] + LeadingDigits(s[1..])
  }

  /** The value of a string of decimal digits. */
  function DigitsValue(d: string): nat
    requires forall i :: 0 <= i < |d| ==> IsDigit(d[i])
  {
    if d == [] then 0
    else
      assert IsDigit(d[|d| - 1]);
      DigitsValue(d[..|d| - 1]) * 10 + (d[|d| - 1] as int - '0' as int)
  }

  /** The text after an optional leading sign. */
  function Unsigned(s: string): string
  {
    if |s| > 0 && (s[0] == '-' || s[0] == '+') then s[1..] else s
  }

  /**
   * Integer parsing of text: an optional sign and the longest run of digits after
   * it; None (not a number) when there is no digit.
   */
  function ParseInt(s: string): (r: Option<int>)
    ensures r.None? <==> Unsigned(s) == [] || !IsDigit(Unsigned(s)[0])
    ensures r.Some? && r.value < 0 ==> s[0] == '-'
    ensures |s| > 0 && IsDigit(s[0]) ==> r.Some? && r.value >= 0
  {
    var signed := |s| > 0 && (s[0] == '-' || s[0] == '+');
    var d := LeadingDigits(Unsigned(s));
    if d == [] then None
    else if signed && s[0] == '-' then Some(-(DigitsValue(d) as int))
    else Some(DigitsValue(d))
  }

  lemma {:induction false} DigitsValueOfDecimal(n: nat)
    ensures DigitsValue(ToDecimal(n)) == n
  {
    if n >= 10 {
      var s := ToDecimal(n);
      DigitsValueOfDecimal(n / 10);
      assert s[..|s| - 1] == ToDecimal(n / 10);
    }
  }

  /** Parsing the decimal text of a page size gives the page size back. */
  lemma ParseDecimalRoundTrip(n: nat)
    ensures ParseInt(ToDecimal(n)) == Some(n)
  {
    var s := ToDecimal(n);
    assert LeadingDigits(s) == s;
    DigitsValueOfDecimal(n);
  }

  /**
   * The three choices report 10, 20 and 50, and the shown text of a page size
   * parses back to that size.
   */
  lemma PageSizeChoices(pageSize: nat)
    ensures |PageSizeOptions| == 3
    ensures ParseInt(PageSizeOptions[0]) == Some(10)
    ensures ParseInt(PageSizeOptions[1]) == Some(20)
    ensures ParseInt(PageSizeOptions[2]) == Some(50)
    ensures ParseInt(ToDecimal(pageSize)) == Some(pageSize)
  {
    assert ToDecimal(10) == PageSizeOptions[0];
    assert ToDecimal(20) == PageSizeOptions[1];
    assert ToDecimal(50) == PageSizeOptions[2];
    ParseDecimalRoundTrip(10);
    ParseDecimalRoundTrip(20);
    ParseDecimalRoundTrip(50);
    ParseDecimalRoundTrip(pageSize);
  }
}
