/**
 * The audit-log filter bar (`AuditLogFilters`): an event-type select, a
 * search box for the actor and a clear button, feeding the page's state.
 */
module AuditLogFilterBar {
  import opened Wrappers
  import opened ApiTypes
  import UseAuditLogs

  /** The select's choice as a filter: "all" is no filter, anything else passes through. */
  function EventTypeFromSelect(value: string): (r: Option<string>)
    ensures r.None? <==> value == "all"
    ensures r.Some? ==> r.value == value
  {
    if value == "all" then None else Some(value)
  }

  /** The value the select shows: the event type, or "all" without one. */
  function SelectValue(filters: AuditLogFilters): (r: string)
    ensures filters.eventType.None? ==> r == "all"
    ensures filters.eventType.Some? ==> r == filters.eventType.value
  {
    filters.eventType.GetOr("all")
  }

  /** Choosing a value in the select shows that value. */
  lemma SelectShowsChoice(filters: AuditLogFilters, value: string)
    ensures SelectValue(filters.(eventType := EventTypeFromSelect(value))) == value
  {
  }

  /** Re-choosing the shown value keeps the filter (unless the filter is literally "all"). */
  lemma SelectRoundTrip(filters: AuditLogFilters)
    requires filters.eventType != Some("all")
    ensures EventTypeFromSelect(SelectValue(filters)) == filters.eventType
  {
  }

  /** The submitted search as the actor filter: an empty search is no filter. */
  function ActorFromSearch(search: string): (r: Option<string>)
    ensures Truthy(r) <==> search != ""
    ensures r.None? <==> search == ""
    ensures r.Some? ==> r.value == search
  {
    if search != "" then Some(search) else None
  }

  /** Whether the clear button is shown: an event type or an actor is set (non-empty). */
  predicate HasActiveFilters(filters: AuditLogFilters) {
    Truthy(filters.eventType) || Truthy(filters.actor)
  }

  /** Clearing leaves no active filter. */
  lemma ClearedHasNoActiveFilters()
    ensures !HasActiveFilters(NoFilters)
  {
  }

  class FilterBar {
    var searchValue: string

    /** The search box starts from the current actor filter, or empty. */
    constructor(filters: AuditLogFilters)
      ensures searchValue == filters.actor.GetOr("")
    {
      searchValue := filters.actor.GetOr("");
    }

    /** Typing in the search box. */
    method HandleSearchChange(text: string)
      modifies this
      ensures searchValue == text
    {
      searchValue := text;
    }

    /** Submitting the search: the actor filter becomes the search text, or none when it is empty. */
    method HandleSearchSubmit(state: UseAuditLogs.AuditLogsState)
      modifies state`filters, state`page
      ensures state.filters == old(state.filters).(actor := ActorFromSearch(searchValue))
      ensures state.page == 1
      ensures HasActiveFilters(state.filters) <==> Truthy(old(state.filters).eventType) || searchValue != ""
    {
      var patch := UseAuditLogs.KeepAll.(actor := UseAuditLogs.SetTo(ActorFromSearch(searchValue)));
      state.UpdateFilters(patch);
    }

    /** Choosing an event type: only the event-type filter changes. */
    method HandleEventTypeChange(value: string, state: UseAuditLogs.AuditLogsState)
      modifies state`filters, state`page
      ensures state.filters == old(state.filters).(eventType := EventTypeFromSelect(value))
      ensures state.page == 1
      ensures SelectValue(state.filters) == value
    {
      var patch := UseAuditLogs.KeepAll.(eventType := UseAuditLogs.SetTo(EventTypeFromSelect(value)));
      state.UpdateFilters(patch);
    }

    /** The clear button: empty search box, no filters, page 1. */
    method Clear(state: UseAuditLogs.AuditLogsState)
      modifies this, state`filters, state`page
      ensures searchValue == ""
      ensures state.filters == NoFilters && state.page == 1
      ensures !HasActiveFilters(state.filters)
    {
      searchValue := "";
      state.ClearFilters();
    }
  }
}
