/**
 * The records the dashboard receives from the backend API, as values.
 * Fields the modelled code never reads (timestamps shown only through
 * date formatting, free-form metadata of broadcasters) are left out.
 */
module ApiTypes {
  import opened Wrappers

  datatype Broadcaster = Broadcaster(id: string, display_name: string)

  /** `key_value` is only returned when the key is created. */
  datatype StreamKey = StreamKey(
    id: string,
    key_value: Option<string>,
    broadcaster_id: string,
    status: string,
    expires_at: Option<string>,
    last_used_at: Option<string>)

  datatype StreamUrls = StreamUrls(hls: string, webrtc: string)

  datatype StreamStatus = Active | Ended

  datatype Stream = Stream(
    id: string,
    stream_key_id: string,
    path: string,
    status: StreamStatus,
    started_at: string,
    ended_at: Option<string>,
    urls: StreamUrls)

  /** A stream joined with the broadcaster its stream key belongs to. */
  datatype StreamWithBroadcaster = StreamWithBroadcaster(stream: Stream, broadcaster: Option<Broadcaster>)

  datatype StreamsResponse = StreamsResponse(streams: seq<Stream>, count: int)
  datatype StreamKeysResponse = StreamKeysResponse(stream_keys: seq<StreamKey>, count: int)
  datatype BroadcastersResponse = BroadcastersResponse(broadcasters: seq<Broadcaster>, count: int)

  /** One audit event; `metadata` maps the string-valued metadata keys the UI reads. */
  datatype AuditLogEntry = AuditLogEntry(
    action: string,
    resource_type: Option<string>,
    resource_id: Option<string>,
    metadata: Option<map<string, string>>,
    actor: Option<string>,
    outcome: string,
    failure_reason: Option<string>,
    request_path: string)

  /** The audit-log filters; an absent field is `undefined`. */
  datatype AuditLogFilters = AuditLogFilters(
    eventType: Option<string>,
    actor: Option<string>,
    resourceType: Option<string>,
    resourceId: Option<string>,
    from: Option<string>,
    to: Option<string>)

  const NoFilters := AuditLogFilters(None, None, None, None, None, None)

  datatype AuditLogPagination = AuditLogPagination(limit: int, offset: int, total: int)

  datatype HealthResponse = HealthResponse(status: string, database: string)
}
