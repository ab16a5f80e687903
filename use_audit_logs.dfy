/**
 * The audit-log page's state (`useAuditLogs`): the current page, the page
 * size and the filters, the URL of the dashboard's own audit-log route
 * built from them, and the page count derived from the response.
 */
module UseAuditLogs {
  import opened Wrappers
  import opened Text
  import opened ApiTypes
  import opened SearchParams

  // ---------------------------------------------------------------------
  // Partial filter updates
  // ---------------------------------------------------------------------

  /** One key of a `Partial<AuditLogFilters>`: absent, or given (possibly as `undefined`). */
  datatype FieldPatch = Keep | SetTo(value: Option<string>)

  datatype FilterPatch = FilterPatch(
    eventType: FieldPatch,
    actor: FieldPatch,
    resourceType: FieldPatch,
    resourceId: FieldPatch,
    from: FieldPatch,
    to: FieldPatch)

  const KeepAll := FilterPatch(Keep, Keep, Keep, Keep, Keep, Keep)

  function Patched(prev: Option<string>, p: FieldPatch): Option<string> {
    match p
    case Keep => prev
    case SetTo(v) => v
  }

  /** `{ ...prev, ...patch }`: the given keys take their new values, the others keep theirs. */
  function ApplyPatch(prev: AuditLogFilters, patch: FilterPatch): (r: AuditLogFilters)
    ensures patch.eventType.Keep? ==> r.eventType == prev.eventType
    ensures patch.eventType.SetTo? ==> r.eventType == patch.eventType.value
    ensures patch.actor.Keep? ==> r.actor == prev.actor
    ensures patch.actor.SetTo? ==> r.actor == patch.actor.value
    ensures patch.resourceType.Keep? ==> r.resourceType == prev.resourceType
    ensures patch.resourceType.SetTo? ==> r.resourceType == patch.resourceType.value
    ensures patch.resourceId.Keep? ==> r.resourceId == prev.resourceId
    ensures patch.resourceId.SetTo? ==> r.resourceId == patch.resourceId.value
    ensures patch.from.Keep? ==> r.from == prev.from
    ensures patch.from.SetTo? ==> r.from == patch.from.value
    ensures patch.to.Keep? ==> r.to == prev.to
    ensures patch.to.SetTo? ==> r.to == patch.to.value
  {
    AuditLogFilters(
      Patched(prev.eventType, patch.eventType),
      Patched(prev.actor, patch.actor),
      Patched(prev.resourceType, patch.resourceType),
      Patched(prev.resourceId, patch.resourceId),
      Patched(prev.from, patch.from),
      Patched(prev.to, patch.to))
  }

  /** An empty patch changes nothing. */
  lemma EmptyPatchIsIdentity(prev: AuditLogFilters)
    ensures ApplyPatch(prev, KeepAll) == prev
  {
  }

  /** Applying the same patch twice is the same as applying it once. */
  lemma ApplyPatchIdempotent(prev: AuditLogFilters, patch: FilterPatch)
    ensures ApplyPatch(ApplyPatch(prev, patch), patch) == ApplyPatch(prev, patch)
  {
  }

  // ---------------------------------------------------------------------
  // The dashboard route's URL
  // ---------------------------------------------------------------------

  /** The parameters of the dashboard's audit-log route. */
  datatype UrlParam = Page | PageSize | EventType | Actor | ResourceType | ResourceId | From | To

  function UrlParamName(p: UrlParam): string {
    match p
    case Page => "page"
    case PageSize => "pageSize"
    case EventType => "eventType"
    case Actor => "actor"
    case ResourceType => "resourceType"
    case ResourceId => "resourceId"
    case From => "from"
    case To => "to"
  }

  /** The pair for a filter, when the filter is non-empty. */
  function OptionalPair(k: UrlParam, v: Option<string>): Query<UrlParam> {
    if Truthy(v) then [(k, v.value)] else []
  }

  /** `/api/audit-logs?` followed by the query string. */
  function RouteUrl(q: Query<UrlParam>): (url: string)
    ensures StartsWith(url, "/api/audit-logs?")
  {
    var prefix := "/api/audit-logs?";
    var url := prefix + ToString(q, UrlParamName);
    assert url[..|prefix|] == prefix;
    url
  }

  // ---------------------------------------------------------------------
  // Page counts
  // ---------------------------------------------------------------------

  /**
   * `totalPages`: 1 when the total is missing or 0, else the number of
   * pages of `pageSize` needed for the total; never less than 1.
   */
  function TotalPages(total: Option<nat>, pageSize: nat): (r: nat)
    requires pageSize > 0
    ensures r >= 1
    ensures total.None? || total.value == 0 ==> r == 1
    ensures total.Some? && total.value > 0 ==> (r - 1) * pageSize < total.value <= r * pageSize
  {
    if total.None? || total.value == 0 then 1
    else (total.value + pageSize - 1) / pageSize
  }

  /** `data?.pagination ?? { limit: pageSize, offset: 0, total: 0 }`. */
  function PaginationOrDefault(pagination: Option<AuditLogPagination>, pageSize: int): (r: AuditLogPagination)
    ensures pagination.Some? ==> r == pagination.value
    ensures pagination.None? ==> r.limit == pageSize && r.offset == 0 && r.total == 0
  {
    pagination.GetOr(AuditLogPagination(pageSize, 0, 0))
  }

  /** With no response yet, the pagination shown is a single empty page. */
  lemma DefaultPaginationIsOnePage(pageSize: nat)
    requires pageSize > 0
    ensures var p := PaginationOrDefault(None, pageSize);
      p.offset == 0 && TotalPages(Some(p.total), pageSize) == 1
  {
  }

  // ---------------------------------------------------------------------
  // The hook's state
  // ---------------------------------------------------------------------

  class AuditLogsState {
    var page: int
    var pageSize: int
    var filters: AuditLogFilters

    /** Page 1, 10 per page and no filters, unless the options say otherwise. */
    constructor(initialPage: Option<int>, initialPageSize: Option<int>, initialFilters: Option<AuditLogFilters>)
      ensures page == initialPage.GetOr(1)
      ensures pageSize == initialPageSize.GetOr(10)
      ensures filters == initialFilters.GetOr(NoFilters)
    {
      page := initialPage.GetOr(1);
      pageSize := initialPageSize.GetOr(10);
      filters := initialFilters.GetOr(NoFilters);
    }

    /** `updateFilters`: merge the given keys and go back to page 1. */
    method UpdateFilters(patch: FilterPatch)
      modifies this`filters, this`page
      ensures filters == ApplyPatch(old(filters), patch)
      ensures page == 1
    {
      filters := ApplyPatch(filters, patch);
      page := 1;
    }

    /** `clearFilters`: no filters, page 1. */
    method ClearFilters()
      modifies this`filters, this`page
      ensures filters == NoFilters && page == 1
    {
      filters := NoFilters;
      page := 1;
    }

    /** `goToPage`: only the page changes. */
    method GoToPage(newPage: int)
      modifies this`page
      ensures page == newPage
    {
      page := newPage;
    }

    /** `changePageSize`: the new size, and back to page 1. */
    method ChangePageSize(newPageSize: int)
      modifies this`pageSize, this`page
      ensures pageSize == newPageSize && page == 1
    {
      pageSize := newPageSize;
      page := 1;
    }

    /**
     * The URL the hook fetches: the route with page and page size always,
     * then the non-empty filters in the order event type, actor, resource
     * type, resource id, from, to.
     */
    method BuildUrl() returns (q: Query<UrlParam>, url: string)
      ensures url == RouteUrl(q)
      ensures q == [(Page, IntToDecimal(page)), (PageSize, IntToDecimal(pageSize))] + FilterPairs(filters)
      ensures DistinctKeys(q)
      ensures Get(q, Page) == Some(IntToDecimal(page)) && Get(q, PageSize) == Some(IntToDecimal(pageSize))
    {
      q := [];
      q := Set(q, Page, IntToDecimal(page));
      q := Set(q, PageSize, IntToDecimal(pageSize));
      q := AppendFilters(q, filters);
      url := RouteUrl(q);
    }
  }

  /** The pairs of the non-empty filters, in the order the hook sets them. */
  function FilterPairs(f: AuditLogFilters): Query<UrlParam> {
    OptionalPair(EventType, f.eventType) + OptionalPair(Actor, f.actor)
    + OptionalPair(ResourceType, f.resourceType) + OptionalPair(ResourceId, f.resourceId)
    + OptionalPair(From, f.from) + OptionalPair(To, f.to)
  }

  /** The position of each parameter in the order the hook sets them. */
  function Rank(p: UrlParam): nat {
    match p
    case Page => 0
    case PageSize => 1
    case EventType => 2
    case Actor => 3
    case ResourceType => 4
    case ResourceId => 5
    case From => 6
    case To => 7
  }

  /** Sets the non-empty filters after the page and the page size. */
  method AppendFilters(q: Query<UrlParam>, f: AuditLogFilters) returns (r: Query<UrlParam>)
    requires forall i :: 0 <= i < |q| ==> Rank(q[i].0) <= Rank(PageSize)
    ensures r == q + FilterPairs(f)
    ensures DistinctKeys(q) ==> DistinctKeys(r)
  {
    var p1, p2, p3 := OptionalPair(EventType, f.eventType), OptionalPair(Actor, f.actor),
      OptionalPair(ResourceType, f.resourceType);
    var p4, p5, p6 := OptionalPair(ResourceId, f.resourceId), OptionalPair(From, f.from), OptionalPair(To, f.to);
    r := AppendIfPresent(q, EventType, f.eventType);
    r := AppendIfPresent(r, Actor, f.actor);
    AppendAssoc(q, p1, p2);
    r := AppendIfPresent(r, ResourceType, f.resourceType);
    AppendAssoc(q, p1 + p2, p3);
    r := AppendIfPresent(r, ResourceId, f.resourceId);
    AppendAssoc(q, p1 + p2 + p3, p4);
    r := AppendIfPresent(r, From, f.from);
    AppendAssoc(q, p1 + p2 + p3 + p4, p5);
    r := AppendIfPresent(r, To, f.to);
    AppendAssoc(q, p1 + p2 + p3 + p4 + p5, p6);
  }

  lemma AppendAssoc<T>(a: seq<T>, b: seq<T>, c: seq<T>)
    ensures a + b + c == a + (b + c)
  {
  }

  /**
   * `if (value) params.set(key, value)` for a key that comes after every
   * key set so far: the pair goes last.
   */
  method AppendIfPresent(q: Query<UrlParam>, key: UrlParam, value: Option<string>) returns (r: Query<UrlParam>)
    requires forall i :: 0 <= i < |q| ==> Rank(q[i].0) < Rank(key)
    ensures r == q + OptionalPair(key, value)
    ensures forall i :: 0 <= i < |r| ==> Rank(r[i].0) <= Rank(key)
    ensures DistinctKeys(q) ==> DistinctKeys(r)
  {
    r := q;
    if Truthy(value) {
      HasKeyAt(q, key);
      r := Set(q, key, value.value);
    }
  }
}
