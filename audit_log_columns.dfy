/**
 * The audit-log table's columns (`getAuditLogColumns`): the icon and label
 * of an event, the one-line summary of what it touched, the actor and the
 * outcome badge.
 */
module AuditLogColumns {
  import opened Wrappers
  import opened Text
  import opened ApiTypes
  import AuditLogs

  /** The icons the audit-log views draw. */
  datatype Icon = PlayerPlay | Login | Logout | Key | KeyOff | UserPlus | UserEdit | UserMinus | QuestionMark
                | /** The inherited `Object.prototype` member `name`, drawn as if it were an icon component. */
                  Inherited(name: string)

  /** `EVENT_ICONS`: the generic icon of an action, whatever it touched. */
  const EventIcons: map<string, Icon> := map[
    "started_stream" := PlayerPlay,
    "login" := Login,
    "logout" := Logout,
    "create" := Key,
    "update" := Key,
    "delete" := KeyOff
  ]

  /** The three actions whose icon and label depend on the resource type. */
  predicate IsResourceAction(action: string) {
    action == "create" || action == "update" || action == "delete"
  }

  /**
   * `getEventIcon`: session and stream events have fixed icons; a
   * broadcaster's create/update/delete have person icons; every other
   * event takes what `EVENT_ICONS[action]` finds (its action's generic
   * icon, or the inherited member of an `Object.prototype` key), or the
   * question mark.
   */
  function GetEventIcon(action: string, resourceType: Option<string>): (r: Icon)
    ensures action in EventIcons && !IsResourceAction(action) ==> r == EventIcons[action]
    ensures resourceType == Some("broadcaster") && action == "create" ==> r == UserPlus
    ensures resourceType == Some("broadcaster") && action == "update" ==> r == UserEdit
    ensures resourceType == Some("broadcaster") && action == "delete" ==> r == UserMinus
    ensures resourceType != Some("broadcaster") && action in EventIcons ==> r == EventIcons[action]
    ensures action in ObjectPrototypeKeys ==> r == Inherited(action)
    ensures r == QuestionMark <==> action !in EventIcons && action !in ObjectPrototypeKeys
  {
    if action == "started_stream" then PlayerPlay
    else if action == "login" then Login
    else if action == "logout" then Logout
    else if resourceType == Some("broadcaster") && action == "create" then UserPlus
    else if resourceType == Some("broadcaster") && action == "update" then UserEdit
    else if resourceType == Some("broadcaster") && action == "delete" then UserMinus
    else if resourceType == Some("stream_key") && action == "create" then Key
    else if resourceType == Some("stream_key") && action == "update" then Key
    else if resourceType == Some("stream_key") && action == "delete" then KeyOff
    else if action in EventIcons then EventIcons[action]
    else if action in ObjectPrototypeKeys then Inherited(action)
    else QuestionMark
  }

  /** The stream-key branch draws what the generic table would: only broadcasters get their own icons. */
  lemma OnlyBroadcasterChangesTheIcon(action: string, resourceType: Option<string>)
    requires resourceType != Some("broadcaster")
    ensures GetEventIcon(action, resourceType) == GetEventIcon(action, None)
  {
  }

  /** The noun of a create/update/delete label: the known types by name, else the raw type, else "Resource". */
  function ResourceLabel(resourceType: Option<string>): (r: string)
    ensures r != ""
    ensures resourceType == Some("stream_key") ==> r == "Stream Key"
    ensures resourceType == Some("broadcaster") ==> r == "Broadcaster"
    ensures !Truthy(resourceType) ==> r == "Resource"
    ensures resourceType != Some("stream_key") && resourceType != Some("broadcaster") && Truthy(resourceType)
      ==> r == resourceType.value
  {
    if resourceType == Some("stream_key") then "Stream Key"
    else if resourceType == Some("broadcaster") then "Broadcaster"
    else OrDefault(resourceType, "Resource")
  }

  /** The past-tense verb of a create/update/delete label. */
  function Verb(action: string): string
    requires IsResourceAction(action)
  {
    if action == "create" then "Created" else if action == "update" then "Updated" else "Deleted"
  }

  /**
   * `getEventLabel`: fixed labels for session and stream events,
   * "<resource> Created/Updated/Deleted" for the resource actions, and the
   * raw action otherwise. The detail sheet carries a copy of this function
   * with the same text, so both views use this one.
   */
  function EventLabel(action: string, resourceType: Option<string>): (r: string)
    ensures action == "started_stream" ==> r == "Stream Started"
    ensures action == "login" ==> r == "User Login"
    ensures action == "logout" ==> r == "User Logout"
    ensures IsResourceAction(action) ==> r == ResourceLabel(resourceType) + " " + Verb(action)
    ensures action !in EventIcons ==> r == action
  {
    if action == "started_stream" then "Stream Started"
    else if action == "login" then "User Login"
    else if action == "logout" then "User Logout"
    else if IsResourceAction(action) then ResourceLabel(resourceType) + " " + Verb(action)
    else action
  }

  /**
   * Whenever the event is one of the filterable event types, the column's
   * label is that type's label in `EVENT_TYPE_DISPLAY`. (A raw action that
   * merely spells an event type, such as "user_login", is not one.)
   */
  lemma LabelAgreesWithEventTypeTable(action: string, resourceType: Option<string>)
    requires AuditLogs.GetEventType(action, resourceType) in AuditLogs.EventTypeDisplay
    requires AuditLogs.GetEventType(action, resourceType) != action
    ensures EventLabel(action, resourceType)
      == AuditLogs.EventTypeDisplay[AuditLogs.GetEventType(action, resourceType)].labelText
  {
    if action == "started_stream" || action == "login" || action == "logout" {
      SessionLabelsAgree(action, resourceType);
    } else if resourceType == Some("stream_key") {
      StreamKeyLabelsAgree(action);
    } else {
      BroadcasterLabelsAgree(action);
    }
  }

  lemma SessionLabelsAgree(action: string, resourceType: Option<string>)
    requires action == "started_stream" || action == "login" || action == "logout"
    ensures AuditLogs.GetEventType(action, resourceType) in AuditLogs.EventTypeDisplay
    ensures EventLabel(action, resourceType)
      == AuditLogs.EventTypeDisplay[AuditLogs.GetEventType(action, resourceType)].labelText
  {
    var k := AuditLogs.GetEventType(action, resourceType);
    if action == "started_stream" {
      assert k == "stream_started" && AuditLogs.EventTypeDisplay[k].labelText == "Stream Started";
    } else if action == "login" {
      assert k == "user_login" && AuditLogs.EventTypeDisplay[k].labelText == "User Login";
    } else {
      assert k == "user_logout" && AuditLogs.EventTypeDisplay[k].labelText == "User Logout";
    }
  }

  lemma StreamKeyLabelsAgree(action: string)
    requires IsResourceAction(action)
    ensures AuditLogs.GetEventType(action, Some("stream_key")) in AuditLogs.EventTypeDisplay
    ensures EventLabel(action, Some("stream_key"))
      == AuditLogs.EventTypeDisplay[AuditLogs.GetEventType(action, Some("stream_key"))].labelText
  {
    if action == "create" {
      StreamKeyCreated();
    } else if action == "update" {
      StreamKeyUpdated();
    } else {
      StreamKeyDeleted();
    }
  }

  lemma BroadcasterLabelsAgree(action: string)
    requires IsResourceAction(action)
    ensures AuditLogs.GetEventType(action, Some("broadcaster")) in AuditLogs.EventTypeDisplay
    ensures EventLabel(action, Some("broadcaster"))
      == AuditLogs.EventTypeDisplay[AuditLogs.GetEventType(action, Some("broadcaster"))].labelText
  {
    if action == "create" {
      BroadcasterCreated();
    } else if action == "update" {
      BroadcasterUpdated();
    } else {
      BroadcasterDeleted();
    }
  }

  /** "create" on a stream key: "stream_key_created", labelled "Stream Key Created" in both tables. */
  lemma StreamKeyCreated()
    ensures AuditLogs.GetEventType("create", Some("stream_key")) == "stream_key_created"
    ensures "stream_key_created" in AuditLogs.EventTypeDisplay
    ensures EventLabel("create", Some("stream_key")) == AuditLogs.EventTypeDisplay["stream_key_created"].labelText
  {
  }

  /** "update" on a stream key: "stream_key_updated", labelled "Stream Key Updated" in both tables. */
  lemma StreamKeyUpdated()
    ensures AuditLogs.GetEventType("update", Some("stream_key")) == "stream_key_updated"
    ensures "stream_key_updated" in AuditLogs.EventTypeDisplay
    ensures EventLabel("update", Some("stream_key")) == AuditLogs.EventTypeDisplay["stream_key_updated"].labelText
  {
  }

  /** "delete" on a stream key: "stream_key_deleted", labelled "Stream Key Deleted" in both tables. */
  lemma StreamKeyDeleted()
    ensures AuditLogs.GetEventType("delete", Some("stream_key")) == "stream_key_deleted"
    ensures "stream_key_deleted" in AuditLogs.EventTypeDisplay
    ensures EventLabel("delete", Some("stream_key")) == AuditLogs.EventTypeDisplay["stream_key_deleted"].labelText
  {
  }

  /** "create" on a broadcaster: "broadcaster_created", labelled "Broadcaster Created" in both tables. */
  lemma BroadcasterCreated()
    ensures AuditLogs.GetEventType("create", Some("broadcaster")) == "broadcaster_created"
    ensures "broadcaster_created" in AuditLogs.EventTypeDisplay
    ensures EventLabel("create", Some("broadcaster")) == AuditLogs.EventTypeDisplay["broadcaster_created"].labelText
  {
  }

  /** "update" on a broadcaster: "broadcaster_updated", labelled "Broadcaster Updated" in both tables. */
  lemma BroadcasterUpdated()
    ensures AuditLogs.GetEventType("update", Some("broadcaster")) == "broadcaster_updated"
    ensures "broadcaster_updated" in AuditLogs.EventTypeDisplay
    ensures EventLabel("update", Some("broadcaster")) == AuditLogs.EventTypeDisplay["broadcaster_updated"].labelText
  {
  }

  /** "delete" on a broadcaster: "broadcaster_deleted", labelled "Broadcaster Deleted" in both tables. */
  lemma BroadcasterDeleted()
    ensures AuditLogs.GetEventType("delete", Some("broadcaster")) == "broadcaster_deleted"
    ensures "broadcaster_deleted" in AuditLogs.EventTypeDisplay
    ensures EventLabel("delete", Some("broadcaster")) == AuditLogs.EventTypeDisplay["broadcaster_deleted"].labelText
  {
  }

  // ---------------------------------------------------------------------
  // Summary
  // ---------------------------------------------------------------------

  /** `metadata.<key>` read as a string, `undefined` when absent. */
  function MetadataField(metadata: Option<map<string, string>>, key: string): Option<string> {
    if metadata.Some? && key in metadata.value then Some(metadata.value[key]) else None
  }

  /** `<prefix><first 8 characters of id>...`. */
  function ShortId(prefix: string, id: string): (r: string)
    ensures |r| <= |prefix| + 11
    ensures StartsWith(r, prefix) && r[|prefix|..] == Abbreviated(id)
  {
    var r := prefix + Abbreviated(id);
    assert r[..|prefix|] == prefix && r[|prefix|..] == Abbreviated(id);
    r
  }

  /**
   * The outcomes of `getSummary`, one implication each, in the source's
   * order of tests. Together they leave one result for every entry
   * (`SummaryCasesDetermine`).
   */
  ghost predicate SummaryCases(e: AuditLogEntry, r: string) {
    var startedStream := e.action == "started_stream" && Truthy(e.resource_id);
    var keyName := MetadataField(e.metadata, "key_name");
    var displayName := MetadataField(e.metadata, "display_name");
    var named := (e.resource_type == Some("stream_key") || e.resource_type == Some("broadcaster")) && e.metadata.Some?;
    && (startedStream ==> r == ShortId("Stream ", e.resource_id.value))
    && (!startedStream && e.resource_type == Some("stream_key") && Truthy(keyName) ==> r == keyName.value)
    && (!startedStream && e.resource_type == Some("broadcaster") && Truthy(displayName) ==> r == displayName.value)
    && (!startedStream && e.resource_type == Some("stream_key") && e.metadata.Some? && !Truthy(keyName) && Truthy(e.resource_id)
        ==> r == ShortId("Key ", e.resource_id.value))
    && (!startedStream && e.resource_type == Some("broadcaster") && e.metadata.Some? && !Truthy(displayName) && Truthy(e.resource_id)
        ==> r == ShortId("Broadcaster ", e.resource_id.value))
    && (!startedStream && !named && Truthy(e.resource_id) ==> r == ShortId("", e.resource_id.value))
    && (!Truthy(e.resource_id)
        && !(e.resource_type == Some("stream_key") && Truthy(keyName))
        && !(e.resource_type == Some("broadcaster") && Truthy(displayName))
        ==> r == e.request_path)
  }

  /** At most one result meets the cases; since `Summary` meets them, they fix its result for every entry. */
  lemma SummaryCasesDetermine(e: AuditLogEntry, r1: string, r2: string)
    requires SummaryCases(e, r1) && SummaryCases(e, r2)
    ensures r1 == r2
  {
  }

  /**
   * `getSummary`: a started stream names its stream; a stream-key or
   * broadcaster event with metadata names the key or the broadcaster, or
   * its shortened id; otherwise the shortened resource id, or the request
   * path.
   */
  function Summary(e: AuditLogEntry): (r: string)
    ensures SummaryCases(e, r)
  {
    var name := if e.resource_type == Some("stream_key") then "key_name" else "display_name";
    var prefix := if e.resource_type == Some("stream_key") then "Key " else "Broadcaster ";
    if e.action == "started_stream" && Truthy(e.resource_id) then ShortId("Stream ", e.resource_id.value)
    else if (e.resource_type == Some("stream_key") || e.resource_type == Some("broadcaster")) && e.metadata.Some?
      && (Truthy(MetadataField(e.metadata, name)) || Truthy(e.resource_id)) then
      if Truthy(MetadataField(e.metadata, name)) then MetadataField(e.metadata, name).value
      else ShortId(prefix, e.resource_id.value)
    else if Truthy(e.resource_id) then ShortId("", e.resource_id.value)
    else e.request_path
  }

  /** The summary shows only the entry's own data: a metadata name, a shortened id, or the request path. */
  lemma SummaryComesFromTheEntry(e: AuditLogEntry)
    ensures Summary(e) == e.request_path
      || (Truthy(e.resource_id) && Summary(e) in
            {ShortId("", e.resource_id.value), ShortId("Stream ", e.resource_id.value),
             ShortId("Key ", e.resource_id.value), ShortId("Broadcaster ", e.resource_id.value)})
      || Summary(e) == MetadataField(e.metadata, "key_name").GetOr("")
      || Summary(e) == MetadataField(e.metadata, "display_name").GetOr("")
  {
  }

  // ---------------------------------------------------------------------
  // Actor and outcome
  // ---------------------------------------------------------------------

  /** `actor || "System"`: events without an actor were done by the system. */
  function ActorText(actor: Option<string>): (r: string)
    ensures r != ""
    ensures Truthy(actor) ==> r == actor.value
    ensures !Truthy(actor) ==> r == "System"
  {
    OrDefault(actor, "System")
  }

  predicate IsSuccess(outcome: string) {
    outcome == "success"
  }

  datatype BadgeVariant = Default | Destructive

  /** The outcome badge: its variant, icon and text. */
  datatype OutcomeBadge = OutcomeBadge(variant: BadgeVariant, check: bool, text: string)

  function Outcome(outcome: string): (r: OutcomeBadge)
    ensures r.text == "Success" <==> IsSuccess(outcome)
    ensures r.text == "Failed" <==> !IsSuccess(outcome)
    ensures r.variant == Default <==> r.check
    ensures r.check <==> IsSuccess(outcome)
  {
    if IsSuccess(outcome) then OutcomeBadge(Default, true, "Success")
    else OutcomeBadge(Destructive, false, "Failed")
  }
}
