/**
 * The audit-log detail sheet (`AuditLogDetail`): the icon of the event,
 * the masked stream-key value, the status line, the resource rows and the
 * collapsible metadata dump. Its event label is the table's
 * (`AuditLogColumns.EventLabel`): the sheet's copy of `getEventLabel` has
 * the same text.
 */
module AuditLogDetail {
  import opened Wrappers
  import opened Text
  import opened ApiTypes
  import opened AuditLogColumns

  /**
   * `EventIcon`: like the table's icon, but with no generic fallback: a
   * create/update/delete of any resource other than a broadcaster or a
   * stream key draws the question mark.
   */
  function DetailIcon(action: string, resourceType: Option<string>): (r: Icon)
    ensures r != QuestionMark ==> r == GetEventIcon(action, resourceType)
  {
    if action == "started_stream" then PlayerPlay
    else if action == "login" then Login
    else if action == "logout" then Logout
    else if resourceType == Some("broadcaster") && action == "create" then UserPlus
    else if resourceType == Some("broadcaster") && action == "update" then UserEdit
    else if resourceType == Some("broadcaster") && action == "delete" then UserMinus
    else if resourceType == Some("stream_key") && action == "create" then Key
    else if resourceType == Some("stream_key") && action == "update" then Key
    else if resourceType == Some("stream_key") && action == "delete" then KeyOff
    else QuestionMark
  }

  /**
   * The sheet and the table draw different icons exactly for the resource
   * actions on other resources and for the inherited `Object.prototype`
   * keys, which the sheet never looks up.
   */
  lemma DetailIconDiffersFromTable(action: string, resourceType: Option<string>)
    ensures DetailIcon(action, resourceType) != GetEventIcon(action, resourceType)
      <==> (IsResourceAction(action) && resourceType != Some("broadcaster") && resourceType != Some("stream_key"))
           || action in ObjectPrototypeKeys
  {
  }

  // ---------------------------------------------------------------------
  // Key masking
  // ---------------------------------------------------------------------

  const Bullets: string := "\U{2022}\U{2022}\U{2022}\U{2022}"

  /** `maskKeyValue`: short keys as they are; longer keys as four bullets and their last four characters. */
  function MaskKeyValue(keyValue: string): (r: string)
    ensures |keyValue| <= 4 ==> r == keyValue
    ensures |keyValue| > 4 ==> |r| == 8 && r[..4] == Bullets && r[4..] == keyValue[|keyValue| - 4..]
  {
    if |keyValue| <= 4 then keyValue else Bullets + TakeLast(keyValue, 4)
  }

  /** A masked long key tells nothing but its last four characters: keys that share them mask alike. */
  lemma MaskHidesAllButLastFour(a: string, b: string)
    requires |a| > 4 && |b| > 4
    ensures MaskKeyValue(a) == MaskKeyValue(b) <==> a[|a| - 4..] == b[|b| - 4..]
  {
    if MaskKeyValue(a) == MaskKeyValue(b) {
      assert MaskKeyValue(a)[4..] == MaskKeyValue(b)[4..];
    }
  }

  // ---------------------------------------------------------------------
  // Status and resource rows
  // ---------------------------------------------------------------------

  /** The failure reason is shown next to the badge only for a failure that has one. */
  predicate ShowsFailureReason(e: AuditLogEntry) {
    !IsSuccess(e.outcome) && Truthy(e.failure_reason)
  }

  lemma SuccessHidesFailureReason(e: AuditLogEntry)
    requires IsSuccess(e.outcome)
    ensures !ShowsFailureReason(e)
    ensures Outcome(e.outcome).text == "Success"
  {
  }

  /** The labels of the resource part of the sheet, in the order the sheet shows them. */
  datatype Label = ResourceType | StreamId | ResourceId | KeyName | KeyValueMasked | KeyBroadcaster | BroadcasterName
  {
    /** The text the sheet prints. */
    function Text(): string {
      match this
      case ResourceType => "Resource Type"
      case StreamId => "Stream ID"
      case ResourceId => "Resource ID"
      case KeyName => "Key Name"
      case KeyValueMasked => "Key Value (Masked)"
      case KeyBroadcaster => "Broadcaster"
      case BroadcasterName => "Broadcaster Name"
    }

    /** Where the row sits on the sheet. Only one of the two id rows is ever drawn. */
    function Rank(): nat {
      match this
      case ResourceType => 0
      case StreamId => 1
      case ResourceId => 2
      case KeyName => 3
      case KeyValueMasked => 4
      case KeyBroadcaster => 5
      case BroadcasterName => 6
    }
  }

  /** The label of the resource id row: a stream's id is called so. */
  function ResourceIdLabel(resourceType: Option<string>): (r: Label)
    ensures r == StreamId <==> resourceType == Some("stream")
    ensures r == ResourceId <==> resourceType != Some("stream")
  {
    if resourceType == Some("stream") then StreamId else ResourceId
  }

  /** One labelled row of the sheet. */
  datatype Row = Row(heading: Label, value: string)

  /** A row the sheet may draw: drawn, with its value, when `cond` holds. */
  datatype Candidate = Candidate(cond: bool, heading: Label, value: string)

  /** The rows drawn, in the candidates' order. */
  function Drawn(cs: seq<Candidate>): (rows: seq<Row>)
    ensures |rows| <= |cs|
  {
    if cs == [] then []
    else (if cs[0].cond then [Row(cs[0].heading, cs[0].value)] else []) + Drawn(cs[1..])
  }

  /** The candidates' ranks rise strictly. */
  ghost predicate Ascending(cs: seq<Candidate>) {
    forall i, j :: 0 <= i < j < |cs| ==> cs[i].heading.Rank() < cs[j].heading.Rank()
  }

  /** The ranks of the rows rise strictly and are at least `lo`: no heading twice, and sheet order. */
  ghost predicate RanksFrom(rows: seq<Row>, lo: nat) {
    (forall i :: 0 <= i < |rows| ==> lo <= rows[i].heading.Rank())
    && (forall i, j :: 0 <= i < j < |rows| ==> rows[i].heading.Rank() < rows[j].heading.Rank())
  }

  /** Drawing keeps the candidates' order. */
  lemma {:induction false} DrawnAscending(cs: seq<Candidate>, lo: nat)
    requires Ascending(cs)
    requires forall i :: 0 <= i < |cs| ==> lo <= cs[i].heading.Rank()
    ensures RanksFrom(Drawn(cs), lo)
    decreases |cs|
  {
    if cs != [] {
      var rest := Drawn(cs[1..]);
      var c := cs[0];
      var next := c.heading.Rank() + 1;
      assert forall i :: 0 <= i < |cs[1..]| ==> next <= cs[1..][i].heading.Rank() by {
        forall i | 0 <= i < |cs[1..]|
          ensures next <= cs[1..][i].heading.Rank()
        {
          assert cs[1..][i] == cs[i + 1];
        }
      }
      DrawnAscending(cs[1..], next);
      if c.cond {
        var rows := [Row(c.heading, c.value)] + rest;
        assert Drawn(cs) == rows;
        forall i, j | 0 <= i < j < |rows|
          ensures rows[i].heading.Rank() < rows[j].heading.Rank()
        {
          assert rows[j] == rest[j - 1];
          if i > 0 {
            assert rows[i] == rest[i - 1];
          }
        }
        forall i | 0 <= i < |rows|
          ensures lo <= rows[i].heading.Rank()
        {
          if i > 0 {
            assert rows[i] == rest[i - 1];
          }
        }
      } else {
        assert Drawn(cs) == rest;
      }
    }
  }

  /** No row carries the heading. */
  ghost predicate Lacks(rows: seq<Row>, heading: Label) {
    forall r :: r in rows ==> r.heading != heading
  }

  /** Whether `cond` holds decides the row: drawn with `value`, or no row with that heading at all. */
  ghost predicate RowIff(rows: seq<Row>, cond: bool, heading: Label, value: string) {
    (cond ==> Row(heading, value) in rows) && (!cond ==> Lacks(rows, heading))
  }

  /** With the headings distinct, each candidate alone decides whether its heading is drawn. */
  lemma {:induction false} DrawnDecides(cs: seq<Candidate>, k: nat)
    requires Ascending(cs) && k < |cs|
    ensures RowIff(Drawn(cs), cs[k].cond, cs[k].heading, cs[k].value)
    decreases |cs|
  {
    var rest := Drawn(cs[1..]);
    assert Drawn(cs) == (if cs[0].cond then [Row(cs[0].heading, cs[0].value)] else []) + rest;
    assert Ascending(cs[1..]) by {
      forall i, j | 0 <= i < j < |cs[1..]|
        ensures cs[1..][i].heading.Rank() < cs[1..][j].heading.Rank()
      {
        assert cs[1..][i] == cs[i + 1] && cs[1..][j] == cs[j + 1];
      }
    }
    if k == 0 {
      DrawnAbove(cs[1..], cs[0].heading);
    } else {
      assert cs[1..][k - 1] == cs[k];
      DrawnDecides(cs[1..], k - 1);
      assert cs[0].heading != cs[k].heading;
    }
  }

  /** Candidates ranked after a heading draw no row with it. */
  lemma DrawnAbove(cs: seq<Candidate>, heading: Label)
    requires forall i :: 0 <= i < |cs| ==> heading.Rank() < cs[i].heading.Rank()
    ensures Lacks(Drawn(cs), heading)
  {
    DrawnAscendingFree(cs, heading.Rank() + 1);
  }

  /** The headings drawn are among those of the candidates. */
  lemma {:induction false} DrawnAscendingFree(cs: seq<Candidate>, lo: nat)
    requires forall i :: 0 <= i < |cs| ==> lo <= cs[i].heading.Rank()
    ensures forall r :: r in Drawn(cs) ==> lo <= r.heading.Rank()
    decreases |cs|
  {
    if cs != [] {
      assert forall i :: 0 <= i < |cs[1..]| ==> lo <= cs[1..][i].heading.Rank() by {
        forall i | 0 <= i < |cs[1..]|
          ensures lo <= cs[1..][i].heading.Rank()
        {
          assert cs[1..][i] == cs[i + 1];
        }
      }
      DrawnAscendingFree(cs[1..], lo);
    }
  }

  /**
   * The rows the resource part may draw, in the sheet's order: its type,
   * its id (called a stream id for a stream), then for a stream key its
   * name, its masked value and its broadcaster, then for a broadcaster its
   * display name.
   */
  function ResourceCandidates(e: AuditLogEntry): (cs: seq<Candidate>)
    ensures |cs| == 7 && forall i :: 0 <= i < 7 ==> cs[i].heading.Rank() == i
    ensures Ascending(cs)
  {
    var md := e.metadata;
    var name, key, owner := MetadataField(md, "key_name"), MetadataField(md, "key_value"), MetadataField(md, "broadcaster_name");
    var shown := MetadataField(md, "display_name");
    var isKey := e.resource_type == Some("stream_key");
    [ Candidate(Truthy(e.resource_type), ResourceType, e.resource_type.GetOr("")),
      Candidate(Truthy(e.resource_id) && ResourceIdLabel(e.resource_type) == StreamId, StreamId, e.resource_id.GetOr("")),
      Candidate(Truthy(e.resource_id) && ResourceIdLabel(e.resource_type) == ResourceId, ResourceId, e.resource_id.GetOr("")),
      Candidate(isKey && Truthy(name), KeyName, name.GetOr("")),
      Candidate(isKey && Truthy(key), KeyValueMasked, MaskKeyValue(key.GetOr(""))),
      Candidate(isKey && Truthy(owner), KeyBroadcaster, owner.GetOr("")),
      Candidate(e.resource_type == Some("broadcaster") && Truthy(shown), BroadcasterName, shown.GetOr("")) ]
  }

  /**
   * The resource rows of the sheet. Their ranks rise strictly, so no
   * heading is drawn twice and the rows keep the sheet's order.
   */
  function ResourceRows(e: AuditLogEntry): (rows: seq<Row>)
    ensures RanksFrom(rows, 0)
  {
    DrawnAscending(ResourceCandidates(e), 0);
    Drawn(ResourceCandidates(e))
  }

  /**
   * Each row of the resource part is drawn exactly when its condition
   * holds, with exactly that value, and no other row carries its heading.
   */
  lemma ResourceRowsShown(e: AuditLogEntry)
    ensures var rows := ResourceRows(e);
      && RowIff(rows, Truthy(e.resource_type), ResourceType, e.resource_type.GetOr(""))
      && RowIff(rows, Truthy(e.resource_id) && e.resource_type == Some("stream"), StreamId, e.resource_id.GetOr(""))
      && RowIff(rows, Truthy(e.resource_id) && e.resource_type != Some("stream"), ResourceId, e.resource_id.GetOr(""))
    ensures var rows, name := ResourceRows(e), MetadataField(e.metadata, "key_name");
      RowIff(rows, e.resource_type == Some("stream_key") && Truthy(name), KeyName, name.GetOr(""))
    ensures var rows, key := ResourceRows(e), MetadataField(e.metadata, "key_value");
      RowIff(rows, e.resource_type == Some("stream_key") && Truthy(key), KeyValueMasked, MaskKeyValue(key.GetOr("")))
    ensures var rows, owner := ResourceRows(e), MetadataField(e.metadata, "broadcaster_name");
      RowIff(rows, e.resource_type == Some("stream_key") && Truthy(owner), KeyBroadcaster, owner.GetOr(""))
    ensures var rows, shown := ResourceRows(e), MetadataField(e.metadata, "display_name");
      RowIff(rows, e.resource_type == Some("broadcaster") && Truthy(shown), BroadcasterName, shown.GetOr(""))
  {
    var cs := ResourceCandidates(e);
    var rows := Drawn(cs);
    var name, key, owner := MetadataField(e.metadata, "key_name"), MetadataField(e.metadata, "key_value"), MetadataField(e.metadata, "broadcaster_name");
    var shown := MetadataField(e.metadata, "display_name");
    var isKey := e.resource_type == Some("stream_key");
    assert RowIff(rows, Truthy(e.resource_type), ResourceType, e.resource_type.GetOr("")) by {
      DrawnDecides(cs, 0);
    }
    assert RowIff(rows, Truthy(e.resource_id) && e.resource_type == Some("stream"), StreamId, e.resource_id.GetOr("")) by {
      DrawnDecides(cs, 1);
    }
    assert RowIff(rows, Truthy(e.resource_id) && e.resource_type != Some("stream"), ResourceId, e.resource_id.GetOr("")) by {
      DrawnDecides(cs, 2);
    }
    assert RowIff(rows, isKey && Truthy(name), KeyName, name.GetOr("")) by {
      DrawnDecides(cs, 3);
    }
    assert RowIff(rows, isKey && Truthy(key), KeyValueMasked, MaskKeyValue(key.GetOr(""))) by {
      DrawnDecides(cs, 4);
    }
    assert RowIff(rows, isKey && Truthy(owner), KeyBroadcaster, owner.GetOr("")) by {
      DrawnDecides(cs, 5);
    }
    assert RowIff(rows, e.resource_type == Some("broadcaster") && Truthy(shown), BroadcasterName, shown.GetOr("")) by {
      DrawnDecides(cs, 6);
    }
  }

  // ---------------------------------------------------------------------
  // Metadata dump
  // ---------------------------------------------------------------------

  /** `entry.metadata || {}`: the object the sheet prints in full. */
  function MetadataShown(e: AuditLogEntry): (m: map<string, string>)
    ensures e.metadata.Some? ==> m == e.metadata.value
    ensures e.metadata.None? ==> m == map[]
  {
    e.metadata.GetOr(map[])
  }

  /**
   * As written, the dump shows the raw `key_value` that the row above it
   * masks: a stream-key event whose metadata holds a long key shows the
   * key both masked and in full.
   */
  lemma RawKeyShownInDump()
    ensures var e := AuditLogEntry("create", Some("stream_key"), Some("k1"),
                                   Some(map["key_value" := "sk_live_secret"]), None, "success", None, "/stream-keys");
      && Row(KeyValueMasked, MaskKeyValue("sk_live_secret")) in ResourceRows(e)
      && MaskKeyValue("sk_live_secret") != "sk_live_secret"
      && MetadataShown(e)["key_value"] == "sk_live_secret"
  {
    var e := AuditLogEntry("create", Some("stream_key"), Some("k1"),
                           Some(map["key_value" := "sk_live_secret"]), None, "success", None, "/stream-keys");
    assert MetadataField(e.metadata, "key_value") == Some("sk_live_secret");
    assert MaskKeyValue("sk_live_secret")[0] == '\U{2022}';
  }

  /** The dump with the key value masked as in the row, everything else as it is. */
  function Redact(m: map<string, string>): (r: map<string, string>)
    ensures r.Keys == m.Keys
    ensures forall k :: k in r && k != "key_value" ==> r[k] == m[k]
    ensures "key_value" in r ==> r["key_value"] == MaskKeyValue(m["key_value"])
  {
    if "key_value" in m then m["key_value" := MaskKeyValue(m["key_value"])] else m
  }

  /**
   * The redacted dump of a long key tells nothing but its last four
   * characters: replacing the key by any other long key with the same
   * ending leaves the dump unchanged.
   */
  lemma RedactedDumpHidesKey(m: map<string, string>, other: string)
    requires "key_value" in m && |m["key_value"]| > 4 && |other| > 4
    requires other[|other| - 4..] == m["key_value"][|m["key_value"]| - 4..]
    ensures Redact(m["key_value" := other]) == Redact(m)
  {
    var m' := m["key_value" := other];
    MaskHidesAllButLastFour(other, m["key_value"]);
    assert Redact(m')["key_value"] == Redact(m)["key_value"];
  }

  /** The "Show more" toggle of a long dump. */
  class MetadataToggle {
    var showFull: bool

    constructor()
      ensures !showFull
    {
      showFull := false;
    }

    method Toggle()
      modifies this
      ensures showFull == !old(showFull)
    {
      showFull := !showFull;
    }

    /** A long dump is cut short until it is expanded. */
    function Clipped(isLong: bool): (r: bool)
      reads this
      ensures r <==> isLong && !showFull
    {
      isLong && !showFull
    }
  }
}
