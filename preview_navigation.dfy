/**
 * Page navigation of the preview screen (PrintKiosk.prev_page, next_page and
 * the button states set by update_preview). The page index is 0-based; the
 * page count is the number of rendered preview images.
 */
module PreviewNavigation {

  /** The index the kiosk may hold: a page of the preview, or 0 when there is none. */
  predicate InBounds(page: nat, count: nat) {
    page == 0 || page < count
  }

  /** Effect of the "Previous" button. */
  function PrevPage(page: nat): (r: nat)
    ensures r <= page && page - r <= 1
    ensures r == page <==> page == 0
  {
    if page > 0 then page - 1 else page
  }

  /** Effect of the "Next" button. */
  function NextPage(page: nat, count: nat): (r: nat)
    ensures page <= r <= page + 1
    ensures r == page + 1 <==> page + 1 < count
  {
    if page < count - 1 then page + 1 else page
  }

  /**
   * Whether the "Previous" button is enabled. With no page to show, the
   * button keeps the enabled state it was created with.
   */
  predicate PrevEnabled(page: nat, count: nat) {
    count == 0 || page > 0
  }

  /** Whether the "Next" button is enabled (enabled as created when there is no page). */
  predicate NextEnabled(page: nat, count: nat) {
    count == 0 || page < count - 1
  }

  /** Both buttons keep the page index within the preview. */
  lemma NavigationKeepsBounds(page: nat, count: nat)
    requires InBounds(page, count)
    ensures InBounds(PrevPage(page), count) && InBounds(NextPage(page, count), count)
    ensures count > 0 ==> PrevPage(page) <= count - 1 && NextPage(page, count) <= count - 1
  {
  }

  /**
   * With a non-empty preview, a button is enabled exactly when pressing it
   * moves the page by one; a disabled button's press changes nothing.
   */
  lemma EnabledIffPageMoves(page: nat, count: nat)
    requires count > 0 && InBounds(page, count)
    ensures PrevEnabled(page, count) <==> PrevPage(page) == page - 1
    ensures !PrevEnabled(page, count) <==> PrevPage(page) == page
    ensures NextEnabled(page, count) <==> NextPage(page, count) == page + 1
    ensures !NextEnabled(page, count) <==> NextPage(page, count) == page
  {
  }

  /** Pressing "Next" k times. */
  function NextPresses(page: nat, count: nat, k: nat): nat
    decreases k
  {
    if k == 0 then page else NextPresses(NextPage(page, count), count, k - 1)
  }

  /** Pressing "Previous" k times. */
  function PrevPresses(page: nat, k: nat): nat
    decreases k
  {
    if k == 0 then page else PrevPresses(PrevPage(page), k - 1)
  }

  /** k presses of "Next" advance by k pages but stop at the last page. */
  lemma {:induction false} NextPressesStopAtLastPage(page: nat, count: nat, k: nat)
    requires count > 0 && page < count
    ensures NextPresses(page, count, k) == if page + k < count then page + k else count - 1
    decreases k
  {
    if k > 0 {
      NextPressesStopAtLastPage(NextPage(page, count), count, k - 1);
    }
  }

  /** k presses of "Previous" go back by k pages but stop at the first page. */
  lemma {:induction false} PrevPressesStopAtFirstPage(page: nat, k: nat)
    ensures PrevPresses(page, k) == if k <= page then page - k else 0
    decreases k
  {
    if k > 0 {
      PrevPressesStopAtFirstPage(PrevPage(page), k - 1);
    }
  }

  /** From the first page (where a new preview starts) every page is reachable. */
  lemma EveryPageReachable(count: nat, target: nat)
    requires target < count
    ensures NextPresses(0, count, target) == target
  {
    NextPressesStopAtLastPage(0, count, target);
  }
}
