/**
 * The page arithmetic of the dashboard: how many pages a result of `total`
 * matching transactions spans, and the two page updaters behind the
 * "Next Page" and "Previous Page" buttons.
 *
 * Pages are 1-based. Nothing here forces `totalPages >= 1`: an empty result
 * has zero pages, and the updaters are total functions over every pair of
 * naturals, exactly as the component evaluates them.
 */
module Pagination {

  /** Number of transactions the service returns per page. */
  const PageSize: nat := 10

  /**
   * Number of pages for `total` matching transactions: the integer ceiling
   * of total / PageSize, so that PageCount(total) pages of PageSize rows
   * hold all of them and one page fewer would not.
   */
  function PageCount(total: nat): (pages: nat)
    ensures total <= pages * PageSize < total + PageSize
  {
    (total + PageSize - 1) / PageSize
  }

  /**
   * Page count after "Next Page": one past `page`, but never beyond the last
   * page. The result is the smaller of page + 1 and totalPages.
   */
  function NextPage(page: nat, totalPages: nat): (next: nat)
    ensures next <= page + 1 && next <= totalPages
    ensures next == page + 1 || next == totalPages
  {
    if page + 1 < totalPages then page + 1 else totalPages
  }

  /**
   * Page after "Previous Page": one before `page`, but never below page 1.
   * The result is the larger of page - 1 and 1.
   */
  function PrevPage(page: nat): (prev: nat)
    ensures prev >= 1 && prev >= page - 1
    ensures prev == page - 1 || prev == 1
  {
    if page - 1 > 1 then page - 1 else 1
  }

  // ---------------------------------------------------------------------
  // Page count

  /** PageCount is the real-valued ceiling that Math.ceil(total / 10) computes. */
  lemma PageCountIsCeiling(total: nat)
    ensures (total as real) / (PageSize as real) <= PageCount(total) as real
    ensures (PageCount(total) as real) < (total as real) / (PageSize as real) + 1.0
  {
  }

  /** Any page count that holds all records and wastes less than a page is PageCount. */
  lemma PageCountUnique(total: nat, pages: nat)
    requires total <= pages * PageSize < total + PageSize
    ensures pages == PageCount(total)
  {
  }

  /** The values the dashboard shows for a few totals. */
  lemma PageCountExamples()
    ensures PageCount(23) == 3 && PageCount(20) == 2 && PageCount(0) == 0
    ensures PageCount(1) == 1 && PageCount(10) == 1 && PageCount(11) == 2
  {
  }

  /** An empty result, and only an empty result, has no pages at all. */
  lemma PageCountZeroIff(total: nat)
    ensures PageCount(total) == 0 <==> total == 0
  {
  }

  /** More matching transactions never mean fewer pages. */
  lemma PageCountMonotonic(total: nat, total': nat)
    requires total <= total'
    ensures PageCount(total) <= PageCount(total')
  {
  }

  /**
   * Page `page` (1-based) is among the PageCount(total) pages exactly when
   * its first row, at index (page - 1) * PageSize, is one of the total rows.
   */
  lemma PageWithinCountIff(page: nat, total: nat)
    requires page >= 1
    ensures page <= PageCount(total) <==> (page - 1) * PageSize < total
  {
  }

  // ---------------------------------------------------------------------
  // Navigation

  /** "Next Page" leaves the page alone exactly when it is the last page. */
  lemma NextPageFixedIff(page: nat, totalPages: nat)
    ensures NextPage(page, totalPages) == page <==> page == totalPages
  {
  }

  /** "Previous Page" leaves the page alone exactly when it is page 1. */
  lemma PrevPageFixedIff(page: nat)
    ensures PrevPage(page) == page <==> page == 1
  {
  }

  /** Before the last page, "Next Page" advances by exactly one. */
  lemma NextPageAdvances(page: nat, totalPages: nat)
    requires page < totalPages
    ensures NextPage(page, totalPages) == page + 1
  {
  }

  /** After page 1, "Previous Page" goes back by exactly one. */
  lemma PrevPageGoesBack(page: nat)
    requires page > 1
    ensures PrevPage(page) == page - 1
  {
  }

  /** Both updaters keep a page that is within 1..totalPages within it. */
  lemma NavigationKeepsRange(page: nat, totalPages: nat)
    requires 1 <= page <= totalPages
    ensures 1 <= NextPage(page, totalPages) <= totalPages
    ensures 1 <= PrevPage(page) <= totalPages
  {
  }

  /** With zero pages, "Next Page" drives any page to 0. */
  lemma NextPageWithNoPages(page: nat)
    ensures NextPage(page, 0) == 0
  {
  }

  /** Beyond the last page, "Next Page" jumps back to the last page. */
  lemma NextPageBeyondLastMovesBack(page: nat, totalPages: nat)
    requires page > totalPages
    ensures NextPage(page, totalPages) == totalPages < page
  {
  }
}
