/**
 * The audit-log vocabulary shared by the server and the UI: the
 * event types the UI offers, their mapping to the API's
 * (action, resource_type) pairs and back, their labels, and the query
 * sent to the backend for one page of the log.
 */
module AuditLogs {
  import opened Wrappers
  import opened Text
  import opened ApiTypes
  import opened SearchParams

  /** The API's action and resource type of one event type; a null resource type matches any. */
  datatype ApiMapping = ApiMapping(action: string, resource_type: Option<string>)

  datatype DisplayEntry = DisplayEntry(labelText: string, icon: string)

  /** `EVENT_TYPE_TO_API`. */
  const EventTypeToApi: map<string, ApiMapping> := map[
    "stream_started" := ApiMapping("started_stream", None),
    "user_login" := ApiMapping("login", None),
    "user_logout" := ApiMapping("logout", None),
    "stream_key_created" := ApiMapping("create", Some("stream_key")),
    "stream_key_updated" := ApiMapping("update", Some("stream_key")),
    "stream_key_deleted" := ApiMapping("delete", Some("stream_key")),
    "broadcaster_created" := ApiMapping("create", Some("broadcaster")),
    "broadcaster_updated" := ApiMapping("update", Some("broadcaster")),
    "broadcaster_deleted" := ApiMapping("delete", Some("broadcaster"))
  ]

  /** `EVENT_TYPE_DISPLAY`. */
  const EventTypeDisplay: map<string, DisplayEntry> := map[
    "stream_started" := DisplayEntry("Stream Started", "IconPlayerPlay"),
    "user_login" := DisplayEntry("User Login", "IconLogin"),
    "user_logout" := DisplayEntry("User Logout", "IconLogout"),
    "stream_key_created" := DisplayEntry("Stream Key Created", "IconKeyPlus"),
    "stream_key_updated" := DisplayEntry("Stream Key Updated", "IconKey"),
    "stream_key_deleted" := DisplayEntry("Stream Key Deleted", "IconKeyMinus"),
    "broadcaster_created" := DisplayEntry("Broadcaster Created", "IconUserPlus"),
    "broadcaster_updated" := DisplayEntry("Broadcaster Updated", "IconUserEdit"),
    "broadcaster_deleted" := DisplayEntry("Broadcaster Deleted", "IconUserMinus")
  ]

  /** Whether the pair (action, resource type) is the API form of event type `k`. */
  predicate Matches(k: string, action: string, resourceType: Option<string>)
    requires k in EventTypeToApi
  {
    EventTypeToApi[k].action == action
    && (EventTypeToApi[k].resource_type.None? || EventTypeToApi[k].resource_type == resourceType)
  }

  /**
   * `getEventType`: the event type whose API form the pair matches
   * (session events whatever the resource type), else the raw action.
   */
  function GetEventType(action: string, resourceType: Option<string>): (r: string)
    ensures r == action || r in EventTypeToApi
    ensures r in EventTypeToApi && r != action ==> Matches(r, action, resourceType)
    ensures (exists k :: k in EventTypeToApi && Matches(k, action, resourceType)) ==> r in EventTypeToApi
  {
    if action == "started_stream" then "stream_started"
    else if action == "login" then "user_login"
    else if action == "logout" then "user_logout"
    else if resourceType == Some("stream_key") && action == "create" then "stream_key_created"
    else if resourceType == Some("stream_key") && action == "update" then "stream_key_updated"
    else if resourceType == Some("stream_key") && action == "delete" then "stream_key_deleted"
    else if resourceType == Some("broadcaster") && action == "create" then "broadcaster_created"
    else if resourceType == Some("broadcaster") && action == "update" then "broadcaster_updated"
    else if resourceType == Some("broadcaster") && action == "delete" then "broadcaster_deleted"
    else action
  }

  /** Every event type survives the trip to its API form and back. */
  lemma EventTypeRoundTrip(k: string)
    requires k in EventTypeToApi
    ensures GetEventType(EventTypeToApi[k].action, EventTypeToApi[k].resource_type) == k
  {
  }

  /** Hence no two event types share an API form. */
  lemma ApiMappingInjective(k1: string, k2: string)
    requires k1 in EventTypeToApi && k2 in EventTypeToApi
    requires EventTypeToApi[k1] == EventTypeToApi[k2]
    ensures k1 == k2
  {
    EventTypeRoundTrip(k1);
    EventTypeRoundTrip(k2);
  }

  /** Stream starts, logins and logouts are recognised whatever the resource type. */
  lemma SessionEventsIgnoreResourceType(action: string, rt1: Option<string>, rt2: Option<string>)
    requires action in {"started_stream", "login", "logout"}
    ensures GetEventType(action, rt1) == GetEventType(action, rt2) != action
  {
  }

  /** A pair matching no event type comes back as its raw action. */
  lemma UnrecognisedIsRaw(action: string, resourceType: Option<string>)
    requires forall k :: k in EventTypeToApi ==> !Matches(k, action, resourceType)
    ensures GetEventType(action, resourceType) == action
  {
  }

  /** The display table and the API table describe the same event types. */
  lemma TablesHaveSameKeys()
    ensures EventTypeDisplay.Keys == EventTypeToApi.Keys
  {
  }

  /**
   * `getEventLabel`: the display label of the recognised event type, else
   * the raw action. (An inherited key such as "constructor" finds a member
   * without a `label`, so `??` falls back to the action as well.)
   */
  function GetEventLabel(action: string, resourceType: Option<string>): (r: string)
    ensures r == action || exists k :: k in EventTypeDisplay && r == EventTypeDisplay[k].labelText
    ensures GetEventType(action, resourceType) in EventTypeDisplay
      ==> r == EventTypeDisplay[GetEventType(action, resourceType)].labelText
    ensures GetEventType(action, resourceType) !in EventTypeDisplay ==> r == action
  {
    var eventType := GetEventType(action, resourceType);
    if eventType in EventTypeDisplay then EventTypeDisplay[eventType].labelText else action
  }

  /** The API form of each event type is labelled with that type's display label. */
  lemma LabelOfEventType(k: string)
    requires k in EventTypeToApi
    ensures GetEventLabel(EventTypeToApi[k].action, EventTypeToApi[k].resource_type) == EventTypeDisplay[k].labelText
  {
    EventTypeRoundTrip(k);
    TablesHaveSameKeys();
  }

  // ---------------------------------------------------------------------
  // The backend query
  // ---------------------------------------------------------------------

  /** The first entry of page `page` (counted from 1) for pages of `pageSize`. */
  function PageOffset(page: int, pageSize: int): (offset: int)
    ensures page >= 1 && pageSize >= 0 ==> offset >= 0
  {
    (page - 1) * pageSize
  }

  /** Consecutive pages abut: each page starts where the previous one ends. */
  lemma NextPageOffset(page: int, pageSize: int)
    ensures PageOffset(page + 1, pageSize) == PageOffset(page, pageSize) + pageSize
  {
    assert page * pageSize == (page - 1) * pageSize + pageSize;
  }

  /** Pages never overlap: a later page starts after an earlier one ends. */
  lemma {:induction false} PagesDoNotOverlap(p1: int, p2: int, pageSize: nat)
    requires p1 < p2
    ensures PageOffset(p1, pageSize) + pageSize <= PageOffset(p2, pageSize)
    decreases p2 - p1
  {
    NextPageOffset(p2 - 1, pageSize);
    if p1 < p2 - 1 {
      PagesDoNotOverlap(p1, p2 - 1, pageSize);
    }
  }

  /** The parameters of the backend query. */
  datatype ApiParam = Limit | Offset | Action | ResourceType | Actor | ResourceId | From | To

  /** Each parameter's name in the query string. */
  function ApiParamName(p: ApiParam): string {
    match p
    case Limit => "limit"
    case Offset => "offset"
    case Action => "action"
    case ResourceType => "resource_type"
    case Actor => "actor"
    case ResourceId => "resource_id"
    case From => "from"
    case To => "to"
  }

  /** The query string itself. */
  function ApiQueryString(q: Query<ApiParam>): string {
    ToString(q, ApiParamName)
  }

  /**
   * What `EVENT_TYPE_TO_API[k]` yields for an inherited key `k` (such as
   * "constructor"), as far as the query sees it: its `action` is
   * undefined, which `URLSearchParams.set` writes as the text "undefined",
   * and its `resource_type` is undefined, hence falsy.
   */
  const InheritedMapping: ApiMapping := ApiMapping("undefined", None)

  /**
   * `EVENT_TYPE_TO_API[eventType]` for a non-empty event-type filter, when
   * the lookup finds something: a known event type's API form, or the
   * inherited member of an `Object.prototype` key.
   */
  function EventTypeFilter(eventType: Option<string>): (m: Option<ApiMapping>)
    ensures m.Some? <==> Truthy(eventType) && (eventType.value in EventTypeToApi || eventType.value in ObjectPrototypeKeys)
    ensures m.Some? && eventType.value in EventTypeToApi ==> m.value == EventTypeToApi[eventType.value]
    ensures m.Some? && eventType.value in ObjectPrototypeKeys ==> m.value == InheritedMapping
    ensures m.Some? && m.value.resource_type.Some? ==> m.value.resource_type.value != ""
  {
    if !Truthy(eventType) then None
    else if eventType.value in EventTypeToApi then Some(EventTypeToApi[eventType.value])
    else if eventType.value in ObjectPrototypeKeys then Some(InheritedMapping)
    else None
  }

  /** An inherited key such as "constructor" sets the action to the text "undefined" and no resource type. */
  lemma InheritedEventTypeSetsUndefinedAction(k: string)
    requires k in ObjectPrototypeKeys
    ensures EventTypeFilter(Some(k)) == Some(ApiMapping("undefined", None))
  {
    assert k !in EventTypeToApi;
  }

  /**
   * The query `listAuditLogs` sends: the limit and the offset of the page
   * (page 1 and 10 per page by default), the API form of a known event
   * type, then the non-empty filters, where an explicit resource type
   * overrides the one that came from the event type.
   */
  method ListAuditLogsQuery(page: Option<int>, pageSize: Option<int>, filters: Option<AuditLogFilters>)
    returns (q: Query<ApiParam>)
    ensures DistinctKeys(q)
    ensures Get(q, Limit) == Some(IntToDecimal(pageSize.GetOr(10)))
    ensures Get(q, Offset) == Some(IntToDecimal(PageOffset(page.GetOr(1), pageSize.GetOr(10))))
    ensures var f := filters.GetOr(NoFilters);
      var m := EventTypeFilter(f.eventType);
      && Get(q, Action) == (if m.Some? then Some(m.value.action) else None)
      && Get(q, ResourceType) ==
         (if Truthy(f.resourceType) then f.resourceType else if m.Some? then m.value.resource_type else None)
      && Get(q, Actor) == OrElse(f.actor, None)
      && Get(q, ResourceId) == OrElse(f.resourceId, None)
      && Get(q, From) == OrElse(f.from, None)
      && Get(q, To) == OrElse(f.to, None)
  {
    var p := page.GetOr(1);
    var size := pageSize.GetOr(10);
    var f := filters.GetOr(NoFilters);

    q := PaginationParams(IntToDecimal(size), IntToDecimal(PageOffset(p, size)));
    q := EventTypeParams(q, f.eventType);
    q := FilterParams(q, f);
  }

  /** The non-empty actor, resource type, resource id, from and to filters, set in that order. */
  method FilterParams(q: Query<ApiParam>, f: AuditLogFilters) returns (r: Query<ApiParam>)
    ensures Get(r, Actor) == OrElse(f.actor, Get(q, Actor))
    ensures Get(r, ResourceType) == OrElse(f.resourceType, Get(q, ResourceType))
    ensures Get(r, ResourceId) == OrElse(f.resourceId, Get(q, ResourceId))
    ensures Get(r, From) == OrElse(f.from, Get(q, From))
    ensures Get(r, To) == OrElse(f.to, Get(q, To))
    ensures Get(r, Limit) == Get(q, Limit) && Get(r, Offset) == Get(q, Offset) && Get(r, Action) == Get(q, Action)
    ensures DistinctKeys(q) ==> DistinctKeys(r)
  {
    r := SetIfPresent(q, Actor, f.actor);
    assert Kept(q, r);
    r := SetIfPresent(r, ResourceType, f.resourceType);
    assert Kept(q, r);
    r := SetIfPresent(r, ResourceId, f.resourceId);
    assert Kept(q, r);
    r := SetIfPresent(r, From, f.from);
    assert Kept(q, r);
    r := SetIfPresent(r, To, f.to);
  }

  /** The limit, the offset and the action are the same in both queries. */
  predicate Kept(q: Query<ApiParam>, r: Query<ApiParam>) {
    Get(r, Limit) == Get(q, Limit) && Get(r, Offset) == Get(q, Offset) && Get(r, Action) == Get(q, Action)
  }

  /** A fresh query holding the limit and the offset, in that order. */
  method PaginationParams(limit: string, offset: string) returns (q: Query<ApiParam>)
    ensures q == [(Limit, limit), (Offset, offset)]
    ensures DistinctKeys(q)
    ensures Get(q, Limit) == Some(limit) && Get(q, Offset) == Some(offset)
    ensures forall k :: k != Limit && k != Offset ==> Get(q, k) == None
  {
    q := [];
    q := Set(q, Limit, limit);
    q := Set(q, Offset, offset);
  }

  /** The action and, unless it is null, the resource type of a known event-type filter. */
  method EventTypeParams(q: Query<ApiParam>, eventType: Option<string>) returns (r: Query<ApiParam>)
    ensures var m := EventTypeFilter(eventType);
      && Get(r, Action) == (if m.Some? then Some(m.value.action) else Get(q, Action))
      && Get(r, ResourceType) ==
         (if m.Some? && m.value.resource_type.Some? then m.value.resource_type else Get(q, ResourceType))
    ensures forall k :: k != Action && k != ResourceType ==> Get(r, k) == Get(q, k)
    ensures DistinctKeys(q) ==> DistinctKeys(r)
  {
    r := q;
    var known := EventTypeFilter(eventType);
    if known.Some? {
      var mapping := known.value;
      r := Set(r, Action, mapping.action);
      if Truthy(mapping.resource_type) {
        r := Set(r, ResourceType, mapping.resource_type.value);
      }
    }
  }

  /** `if (value) params.set(key, value)`. */
  method SetIfPresent(q: Query<ApiParam>, key: ApiParam, value: Option<string>) returns (r: Query<ApiParam>)
    ensures Get(r, key) == OrElse(value, Get(q, key))
    ensures forall k :: k != key ==> Get(r, k) == Get(q, k)
    ensures DistinctKeys(q) ==> DistinctKeys(r)
  {
    r := q;
    if Truthy(value) {
      r := Set(q, key, value.value);
    }
  }
}
