/**
 * The page list shown under the invoice table: page numbers and "..."
 * markers, never more than seven tokens.
 */
module Pagination {

  /** A token of the page list: a page number or the "..." marker. */
  datatype PageToken = Num(page: int) | Ellipsis

  /**
   * generatePagination.  With seven pages or fewer every page is listed
   * (Array.from clamps a negative length to zero); otherwise the list keeps
   * the first and last pages, the pages around currentPage, and "..." for
   * each run of hidden pages.
   */
  function GeneratePagination(currentPage: int, totalPages: int): (tokens: seq<PageToken>)
    ensures |tokens| <= 7
    ensures totalPages <= 7 ==> Ellipsis !in tokens
  {
    if totalPages <= 7 then
      seq(if totalPages < 0 then 0 else totalPages, i => Num(i + 1))
    else if currentPage <= 3 then
      [Num(1), Num(2), Num(3), Ellipsis, Num(totalPages - 1), Num(totalPages)]
    else if currentPage >= totalPages - 2 then
      [Num(1), Num(2), Ellipsis, Num(totalPages - 2), Num(totalPages - 1), Num(totalPages)]
    else
      [Num(1), Ellipsis, Num(currentPage - 1), Num(currentPage), Num(currentPage + 1), Ellipsis, Num(totalPages)]
  }

  /**
   * Read left to right, the tokens walk from page 1 to page totalPages:
   * two adjacent numbers are consecutive pages, and every "..." stands
   * between two numbers and hides at least one page.
   */
  ghost predicate Walks(tokens: seq<PageToken>, totalPages: int) {
    && |tokens| > 0
    && tokens[0] == Num(1)
    && tokens[|tokens| - 1] == Num(totalPages)
    && (forall i :: 0 <= i < |tokens| - 1 && tokens[i].Num? && tokens[i + 1].Num? ==>
          tokens[i + 1].page == tokens[i].page + 1)
    && (forall i :: 0 < i < |tokens| - 1 && tokens[i] == Ellipsis ==>
          tokens[i - 1].Num? && tokens[i + 1].Num? && tokens[i + 1].page >= tokens[i - 1].page + 2)
  }

  /** Page p is hidden behind a "..." of the list. */
  ghost predicate Hidden(tokens: seq<PageToken>, p: int) {
    exists i :: 0 < i < |tokens| - 1 && tokens[i] == Ellipsis &&
      tokens[i - 1].Num? && tokens[i + 1].Num? && tokens[i - 1].page < p < tokens[i + 1].page
  }

  /** Whenever there is at least one page, the generated list is such a walk. */
  lemma PaginationWalks(currentPage: int, totalPages: int)
    requires totalPages >= 1
    ensures Walks(GeneratePagination(currentPage, totalPages), totalPages)
  {
  }

  /** Along a walk, pages grow at least as fast as positions. */
  lemma {:induction false} WalkGrows(tokens: seq<PageToken>, totalPages: int, i: nat, j: nat)
    requires Walks(tokens, totalPages)
    requires i <= j < |tokens| && tokens[i].Num? && tokens[j].Num?
    ensures tokens[j].page - tokens[i].page >= j - i
    decreases j - i
  {
    if i < j {
      if tokens[j - 1].Num? {
        WalkGrows(tokens, totalPages, i, j - 1);
      } else {
        WalkGrows(tokens, totalPages, i, j - 2);
      }
    }
  }

  /** The numbers of a walk are strictly increasing and lie in 1..totalPages. */
  lemma WalkIsOrdered(tokens: seq<PageToken>, totalPages: int)
    requires Walks(tokens, totalPages)
    ensures forall i, j :: 0 <= i < j < |tokens| && tokens[i].Num? && tokens[j].Num? ==>
      tokens[i].page < tokens[j].page
    ensures forall i :: 0 <= i < |tokens| && tokens[i].Num? ==> 1 <= tokens[i].page <= totalPages
    ensures |tokens| <= totalPages
  {
    forall i, j | 0 <= i < j < |tokens| && tokens[i].Num? && tokens[j].Num?
      ensures tokens[i].page < tokens[j].page
    {
      WalkGrows(tokens, totalPages, i, j);
    }
    forall i | 0 <= i < |tokens| && tokens[i].Num?
      ensures 1 <= tokens[i].page <= totalPages
    {
      WalkGrows(tokens, totalPages, 0, i);
      WalkGrows(tokens, totalPages, i, |tokens| - 1);
    }
    WalkGrows(tokens, totalPages, 0, |tokens| - 1);
  }

  /** Every page from 1 up to a shown page is either shown or hidden behind a "...". */
  lemma {:induction false} WalkAccounts(tokens: seq<PageToken>, totalPages: int, j: nat, p: int)
    requires Walks(tokens, totalPages)
    requires j < |tokens| && tokens[j].Num? && 1 <= p <= tokens[j].page
    ensures Num(p) in tokens || Hidden(tokens, p)
    decreases j
  {
    if p == tokens[j].page {
      assert tokens[j] == Num(p);
    } else if tokens[j - 1].Num? {
      WalkAccounts(tokens, totalPages, j - 1, p);
    } else if p > tokens[j - 2].page {
      assert tokens[j - 1] == Ellipsis;
    } else {
      WalkAccounts(tokens, totalPages, j - 2, p);
    }
  }

  /**
   * The generated list accounts for every page exactly: pages 1..totalPages
   * are each shown or hidden, and only those pages are shown, in increasing order.
   */
  lemma PaginationAccountsForEveryPage(currentPage: int, totalPages: int)
    requires totalPages >= 1
    ensures var tokens := GeneratePagination(currentPage, totalPages);
      && (forall p :: 1 <= p <= totalPages ==> Num(p) in tokens || Hidden(tokens, p))
      && (forall p :: Num(p) in tokens ==> 1 <= p <= totalPages)
      && (forall i, j :: 0 <= i < j < |tokens| && tokens[i].Num? && tokens[j].Num? ==>
            tokens[i].page < tokens[j].page)
  {
    var tokens := GeneratePagination(currentPage, totalPages);
    PaginationWalks(currentPage, totalPages);
    WalkIsOrdered(tokens, totalPages);
    forall p | 1 <= p <= totalPages
      ensures Num(p) in tokens || Hidden(tokens, p)
    {
      WalkAccounts(tokens, totalPages, |tokens| - 1, p);
    }
  }

  /** With seven pages or fewer, the list is exactly the pages 1..totalPages. */
  lemma SmallListsShowEveryPage(currentPage: int, totalPages: int)
    requires totalPages <= 7
    ensures var tokens := GeneratePagination(currentPage, totalPages);
      && |tokens| == (if totalPages < 0 then 0 else totalPages)
      && (forall i :: 0 <= i < |tokens| ==> tokens[i] == Num(i + 1))
      && (forall p :: Num(p) in tokens <==> 1 <= p <= totalPages)
  {
    var tokens := GeneratePagination(currentPage, totalPages);
    forall p | 1 <= p <= totalPages
      ensures Num(p) in tokens
    {
      assert tokens[p - 1] == Num(p);
    }
  }

  /** The current page is always shown when it is a real page. */
  lemma CurrentPageShown(currentPage: int, totalPages: int)
    requires 1 <= currentPage <= totalPages
    ensures Num(currentPage) in GeneratePagination(currentPage, totalPages)
  {
    var tokens := GeneratePagination(currentPage, totalPages);
    if totalPages <= 7 {
      assert tokens[currentPage - 1] == Num(currentPage);
    }
  }

  /**
   * Which pages a long list shows: the first three and last two near the
   * start, the first two and last three near the end, and otherwise the
   * first and last pages with currentPage and its two neighbours.
   */
  lemma LongListShows(currentPage: int, totalPages: int)
    requires totalPages > 7
    ensures var tokens := GeneratePagination(currentPage, totalPages);
      && (currentPage <= 3 ==>
            |tokens| == 6 &&
            forall p :: Num(p) in tokens <==> p in {1, 2, 3, totalPages - 1, totalPages})
      && (3 < currentPage && currentPage >= totalPages - 2 ==>
            |tokens| == 6 &&
            forall p :: Num(p) in tokens <==> p in {1, 2, totalPages - 2, totalPages - 1, totalPages})
      && (3 < currentPage < totalPages - 2 ==>
            |tokens| == 7 && tokens[3] == Num(currentPage) &&
            forall p :: Num(p) in tokens <==> p in {1, currentPage - 1, currentPage, currentPage + 1, totalPages})
  {
  }
}
