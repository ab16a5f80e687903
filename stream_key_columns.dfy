/**
 * The stream-key table's columns (`getStreamKeyColumns`): the shortened
 * key id, the broadcaster's name, the status badge, the expiry and
 * last-use dates, and the revoke action.
 */
module StreamKeyColumns {
  import opened Wrappers
  import opened Text
  import opened ApiTypes
  import UseStreams

  datatype BadgeVariant = Default | Destructive | Secondary | Outline

  /** `getStatusBadgeVariant`. */
  function StatusBadgeVariant(status: string): (r: BadgeVariant)
    ensures status == "active" <==> r == Default
    ensures status == "revoked" <==> r == Destructive
    ensures status == "expired" <==> r == Secondary
    ensures r == Outline <==> status !in {"active", "revoked", "expired"}
  {
    match status
    case "active" => Default
    case "revoked" => Destructive
    case "expired" => Secondary
    case _ => Outline
  }

  /** The status text, upper-cased. */
  function StatusText(status: string): (r: string)
    ensures |r| == |status|
    ensures forall i :: 0 <= i < |status| ==> r[i] == UpperChar(status[i])
  {
    Upper(status)
  }

  /** The key id cell: the first eight characters and an ellipsis. */
  function KeyIdText(key: StreamKey): (r: string)
    ensures |r| == (if |key.id| < 8 then |key.id| else 8) + 3
    ensures StartsWith(key.id, r[..|r| - 3]) && r[|r| - 3..] == "..."
  {
    Abbreviated(key.id)
  }

  /**
   * The broadcaster cell: the display name of the broadcaster with the
   * key's broadcaster id (the last one listed under that id), or "Unknown".
   * A broadcaster whose name is empty shows the empty name (`??`, not `||`).
   */
  function BroadcasterName(broadcasters: seq<Broadcaster>, key: StreamKey): (r: string)
  {
    var byId := UseStreams.BroadcasterById(broadcasters);
    if key.broadcaster_id in byId then byId[key.broadcaster_id].display_name else "Unknown"
  }

  /** The name shown is a listed broadcaster's own, or "Unknown" exactly when no listed broadcaster has the id. */
  lemma BroadcasterNameIsListed(broadcasters: seq<Broadcaster>, key: StreamKey)
    ensures (exists i :: 0 <= i < |broadcasters| && broadcasters[i].id == key.broadcaster_id)
      ==> exists b :: b in broadcasters && b.id == key.broadcaster_id && BroadcasterName(broadcasters, key) == b.display_name
    ensures (forall i :: 0 <= i < |broadcasters| ==> broadcasters[i].id != key.broadcaster_id)
      ==> BroadcasterName(broadcasters, key) == "Unknown"
  {
    var pairs := seq(|broadcasters|, i requires 0 <= i < |broadcasters| => (broadcasters[i].id, broadcasters[i]));
    UseStreams.MapFromPairsKeys(pairs, key.broadcaster_id);
    var byId := UseStreams.BroadcasterById(broadcasters);
    if key.broadcaster_id in byId {
      UseStreams.BroadcasterByIdIsFiledById(broadcasters, key.broadcaster_id);
    } else {
      forall i | 0 <= i < |broadcasters| ensures broadcasters[i].id != key.broadcaster_id {
        assert pairs[i].0 == broadcasters[i].id;
      }
    }
  }

  /** A date cell: the formatted date, or "Never" when there is none. */
  function DateText(date: Option<string>, format: string -> string): (r: string)
    ensures !Truthy(date) ==> r == "Never"
    ensures Truthy(date) ==> r == format(date.value)
  {
    if Truthy(date) then format(date.value) else "Never"
  }

  /** The revoke action is offered for active keys only. */
  predicate RevokeShown(key: StreamKey) {
    key.status == "active"
  }

  /** Exactly the keys with the default badge can be revoked. */
  lemma RevokeShownIffDefaultBadge(key: StreamKey)
    ensures RevokeShown(key) <==> StatusBadgeVariant(key.status) == Default
  {
  }
}
