/**
 * The audit-log table's footer and empty state (`AuditLogTable`): the
 * first/previous/next/last buttons, the page and total labels, and the
 * refresh button's spinner.
 */
module AuditLogTable {
  import opened Text

  /** The page sizes offered in the rows-per-page select. */
  const PageSizeOptions: seq<nat> := [10, 20, 30, 50]

  lemma PageSizeOptionsArePositive()
    ensures forall i :: 0 <= i < |PageSizeOptions| ==> PageSizeOptions[i] > 0
  {
  }

  // ---------------------------------------------------------------------
  // Navigation buttons
  // ---------------------------------------------------------------------

  datatype NavButton = First | Previous | Next | Last

  /** A button is disabled at the edge it moves towards. */
  predicate Disabled(b: NavButton, page: int, totalPages: int) {
    match b
    case First => page <= 1
    case Previous => page <= 1
    case Next => page >= totalPages
    case Last => page >= totalPages
  }

  /** The page a button asks for. */
  function Target(b: NavButton, page: int, totalPages: int): int {
    match b
    case First => 1
    case Previous => page - 1
    case Next => page + 1
    case Last => totalPages
  }

  /** From a page in range, every enabled button asks for a page in range, and a different one. */
  lemma EnabledTargetsStayInRange(b: NavButton, page: int, totalPages: int)
    requires 1 <= page <= totalPages
    requires !Disabled(b, page, totalPages)
    ensures 1 <= Target(b, page, totalPages) <= totalPages
    ensures Target(b, page, totalPages) != page
  {
  }

  /** On a single page every button is disabled. */
  lemma SinglePageDisablesAll(b: NavButton)
    ensures Disabled(b, 1, 1)
  {
  }

  /** Below any later page, Next is enabled and does not overshoot it. */
  lemma NextApproachesEveryLaterPage(page: int, goal: int, totalPages: int)
    requires 1 <= page < goal <= totalPages
    ensures !Disabled(Next, page, totalPages) && Target(Next, page, totalPages) <= goal
  {
  }

  // ---------------------------------------------------------------------
  // Labels
  // ---------------------------------------------------------------------

  /** `totalPages || 1`: the page count shown. */
  function PageCountShown(totalPages: int): (r: int)
    ensures totalPages != 0 ==> r == totalPages
    ensures totalPages == 0 ==> r == 1
  {
    if totalPages == 0 then 1 else totalPages
  }

  /** "`n` event total" for one event, "`n` events total" otherwise. */
  function TotalLabel(total: int): (r: string)
    ensures total == 1 ==> r == "1 event total"
    ensures total != 1 ==> r == IntToDecimal(total) + " events total"
  {
    IntToDecimal(total) + " event" + (if total != 1 then "s" else "") + " total"
  }

  /** The empty state's headline: about the filters when some are active. */
  function EmptyHeadline(hasActiveFilters: bool): (r: string)
    ensures hasActiveFilters <==> r == "No events match your filters"
    ensures !hasActiveFilters <==> r == "No audit events found"
  {
    if hasActiveFilters then "No events match your filters" else "No audit events found"
  }

  // ---------------------------------------------------------------------
  // Refresh
  // ---------------------------------------------------------------------

  class RefreshButton {
    var isRefreshing: bool

    constructor()
      ensures !isRefreshing
    {
      isRefreshing := false;
    }

    /** Pressing refresh: spinning and disabled until the animation timer fires. */
    method HandleRefresh()
      modifies this
      ensures isRefreshing
    {
      isRefreshing := true;
    }

    /** The half-second timer after the refresh has been requested. */
    method AnimationTimerFired()
      modifies this
      ensures !isRefreshing
    {
      isRefreshing := false;
    }
  }
}
