# RescueStream dashboard core, in Dafny

RescueStream's dashboard is a Next.js front end for a live-streaming
service used in search-and-rescue work. Operators watch live streams,
manage broadcasters and their stream keys, and read an audit log. The
pages themselves mostly pass data through. What decides behaviour is a
set of small decision procedures and state machines, and this project
models those and proves properties about them:

- **Playback** (`StreamPlayer`): WebRTC first, then a one-way fallback to
  HLS, then a terminal "Unable to play stream" notice.
- **The live grid** (`StreamGrid`):
  - only active streams are shown, nine to a page;
  - the 1×1 … 3×3 layout table;
  - clamped Previous/Next;
  - the fullscreen guard while a close is settling;
  - the map of tile references.
- **Authorization**:
  - `Allowlist`: parsing the comma-separated domain and e-mail
    allowlists, and the ordered, fail-closed allow/deny decision.
  - `Auth`: the `signIn`, `jwt`, `session` and `authorized` callbacks.
- **Audit log**:
  - `AuditLogs`: the event-type ↔ (action, resource type) tables and
    building the backend query.
  - `UseAuditLogs`: the page, filter and URL state of the hook.
  - `AuditLogColumns`, `AuditLogDetail`, `AuditLogFilterBar` and
    `AuditLogTable`: icons, labels, summaries, key masking, the filter
    bar and pagination buttons.
- **Streams and broadcasters**:
  - `UseStreams`: the two-hop join from stream to stream key to
    broadcaster.
  - `StreamKeyColumns`: the stream-key table's cells.
  - `StreamKeyDialog`: expiry arithmetic, the RTMP URL and the dialog's
    reset rules.
  - `BroadcasterDialog`: trimming, validation, and create versus update.
- **The API client** (`ApiClient`):
  - the layout of the HMAC string to sign;
  - stripping the query from the signed path;
  - body, 204 and error-fallback handling;
  - the endpoint table;
  - the lazily created singleton.
- **Chrome**:
  - `HealthIndicator`: health classification;
  - `NavUser`: initials and user-field fallbacks;
  - `AppSidebar`: the active-item test;
  - `SiteHeader`: the page-title lookup.

Shared modules:

- `Wrappers`: `Option`, and JavaScript's truthiness, `||` and `??` on
  optional strings.
- `Text`: `trim`, ASCII case mapping, `split`/`join`, prefixes, decimal
  rendering.
- `SearchParams`: `URLSearchParams` as an ordered list of pairs with
  `set`'s replace-first semantics.
- `ApiTypes`: the records of `types/api.ts`.

Components that change state in place become classes. Their handlers
become methods with `modifies` clauses. An asynchronous handler is split
at its `await`: `StartSubmit` runs up to the request, and `FinishSubmit`
receives the result as a parameter. Timers fire as explicit event methods
(`SettleTimerFired`, `CopiedTimerFired`, …). Anything that reaches
outside the program is a parameter:

- the environment variables;
- the clock;
- the HMAC function;
- the health-check result;
- `window.location.origin`.

## Model

| member | source | states |
|---|---|---|
| StreamPlayer.Render | components/video/stream-player.tsx:44-74 | An error takes precedence: the notice is shown iff the error is non-empty. Otherwise the WebRTC player gets `urls.webrtc` in state webrtc and the HLS player gets `urls.hls` in state hls. |
| StreamPlayer.Player.constructor | components/video/stream-player.tsx:27-32 | Starts in webrtc with no error. `onProtocolChange` has been told webrtc, and the WebRTC player is shown. |
| StreamPlayer.Player.HandleWebRTCError | components/video/stream-player.tsx:34-38 | Moves to hls and clears the error. hls is reported once, on the change only. |
| StreamPlayer.Player.HandleHLSError | components/video/stream-player.tsx:40-42 | Stores the message and keeps the protocol. |
| StreamPlayer.Player.OnPlayerError | components/video/stream-player.tsx:52-74 | An error from the shown player can only move forward: webrtc to hls, hls to the notice. The protocol never returns to webrtc, and at most two protocols are ever reported. |
| StreamGrid.ActiveStreams | components/video/stream-grid.tsx:38-41 | Exactly the streams whose status is active, and no others. |
| StreamGrid.ActiveStreamsAppend | components/video/stream-grid.tsx:38-41 | The filter works element by element, so it keeps the original order. |
| StreamGrid.TotalPages | components/video/stream-grid.tsx:23-43 | The ceiling of count/9: zero only for no streams, otherwise the least number of 9-item pages that holds them all. |
| StreamGrid.PagedStreams | components/video/stream-grid.tsx:44-47 | At most 9 streams: the active streams from index (page-1)·9 on. The page is empty iff it starts past the end. |
| StreamGrid.FirstPageStartsAtZero | components/video/stream-grid.tsx:44-47 | Page 1 begins with the first active stream. |
| StreamGrid.EveryActiveStreamOnItsPage | components/video/stream-grid.tsx:43-47 | Active stream k appears on page k/9+1 at position k mod 9, and that page is within the page count. |
| StreamGrid.GridDims | components/video/stream-grid.tsx:51-58 | Columns and rows are 1…3 with rows ≤ columns. One tile or none gets 1x1. A page of 1 to 9 tiles gets a layout that suits it: near-square, every tile fits, and neither the last row nor the last column is empty. More than 9 tiles get 3x3. |
| StreamGrid.LayoutUnique | components/video/stream-grid.tsx:50-58 | For 1 to 9 tiles exactly one layout suits, so the contract pins down the table 1x1, 2x1, 2x2, 3x2, 3x3. |
| StreamGrid.PageFitsLayout | components/video/stream-grid.tsx:44-58 | Every page's tiles fit its layout. |
| StreamGrid.PreviousPage | components/video/stream-grid.tsx:140 | max(1, p-1). |
| StreamGrid.NextPage | components/video/stream-grid.tsx:158 | min(totalPages, p+1). |
| StreamGrid.PageControlsStayInRange | components/video/stream-grid.tsx:140-158 | From a page in [1, totalPages], Previous and Next stay in that range. |
| StreamGrid.Grid.constructor | components/video/stream-grid.tsx:32-35 | Page 1, no fullscreen, not closing, no tile references. |
| StreamGrid.Grid.Previous | components/video/stream-grid.tsx:140 | The page becomes `PreviousPage` of the old page. |
| StreamGrid.Grid.Next | components/video/stream-grid.tsx:135-158 | Only offered when there is more than one page. The page becomes `NextPage` of the old page. |
| StreamGrid.Grid.SelectPage | components/video/stream-grid.tsx:145-148 | The i-th page link sets page i+1. |
| StreamGrid.Grid.HandleTileClick | components/video/stream-grid.tsx:65-75 | Ignored while a close is settling or when the stream has no tile reference. Otherwise it opens that stream with its tile's video element and protocol. |
| StreamGrid.Grid.HandleFullscreenClose | components/video/stream-grid.tsx:78-83 | Closes the fullscreen view and starts the settle period. |
| StreamGrid.Grid.SettleTimerFired | components/video/stream-grid.tsx:82 | Clicks are accepted again. |
| StreamGrid.Grid.SetTileRef | components/video/stream-grid.tsx:86-92 | A non-null reference is stored under the stream id and null deletes it. Other entries are unchanged. |
| StreamGrid.StalePageShowsNothing | components/video/stream-grid.tsx:43-47 | As written: with 9 active streams on page 2 there is one page, so no pagination, no empty-state notice and no tiles. |
| StreamGrid.ShownPage | components/video/stream-grid.tsx:43-47 | The page clamped into [1, totalPages]. It is the page itself whenever that is in range. |
| StreamGrid.ShownStreamsNeverBlank | components/video/stream-grid.tsx:44-47 | With the clamp, a non-empty list of active streams always shows at least one tile. |
| StreamGrid.ShownStreams | components/video/stream-grid.tsx:43-47 | The tiles of the page once clamped into range (definition; the as-written page is `PagedStreams`). |
| Allowlist.NormalizeEntry | lib/auth/allowlist.ts:19 | The entry trimmed and lower-cased; the result is both. |
| Allowlist.NormalizeAll | lib/auth/allowlist.ts:19 | Every entry normalised, in order. |
| Allowlist.NonEmpty | lib/auth/allowlist.ts:20 | `filter(Boolean)`: exactly the non-empty entries. |
| Allowlist.ParseEnvList | lib/auth/allowlist.ts:15-21 | Empty for an unset or empty variable. Otherwise exactly the non-empty, trimmed, lower-cased comma pieces; none holds a comma. |
| Allowlist.ParseEnvListPiece | lib/auth/allowlist.ts:15-21 | A comma-free value lists its one normalised entry, or nothing when that is empty. |
| Allowlist.ParseEnvListAppend | lib/auth/allowlist.ts:15-21 | The order of the entries is the order in the variable: the list of `a,b` is the list of `a` followed by that of `b`. |
| Allowlist.NonEmptyAppend | lib/auth/allowlist.ts:20 | `filter(Boolean)` keeps the order: filtering `a + b` is filtering `a`, then `b`. |
| Allowlist.NormalizeAllAppend | lib/auth/allowlist.ts:19 | `map` keeps the order: normalising `a + b` is normalising `a`, then `b`. |
| Allowlist.NormalizedParts | lib/auth/allowlist.ts:17-19 | The normalised pieces are exactly the normalisations of the comma pieces; each is trimmed, lower-cased and comma-free. |
| Allowlist.NormalizeKeepsNoComma | lib/auth/allowlist.ts:17-19 | Normalising a comma piece adds no comma. |
| Allowlist.NormalizeDomain | lib/auth/allowlist.ts:26-28 | Removes exactly one leading '@'; the identity otherwise. |
| Allowlist.NormalizeDomains | lib/auth/allowlist.ts:37 | Every domain normalised, in order. |
| Allowlist.LoadAllowlistConfig | lib/auth/allowlist.ts:35-45 | The e-mails are the parsed list and the domains the parsed, normalised list. `isEmpty` holds iff both are empty, and with neither variable set the config is empty. |
| Allowlist.EmailDomain | lib/auth/allowlist.ts:80 | `split('@')[1]`: present iff the address holds '@'. It is then the text right after the first '@', up to the next '@' or the end. |
| Allowlist.SecondPart | lib/auth/allowlist.ts:80 | The second part of a split at '@' is the text right after the first '@', up to the next '@' or the end. |
| Allowlist.EmailDomainOfAddress | lib/auth/allowlist.ts:80 | For `local@domain` without further '@', the domain. |
| Allowlist.CheckAllowlist | lib/auth/allowlist.ts:58-87 | Each reason with its exact condition, in order: NO_EMAIL, ALLOWLIST_EMPTY, EMAIL_MATCH, DOMAIN_MATCH, else DOMAIN_NOT_ALLOWED. Allowed iff the reason is a match. |
| Allowlist.FailClosed | lib/auth/allowlist.ts:68-70 | With neither allowlist variable set, nobody is allowed. |
| Allowlist.EmailMatchIgnoresCase | lib/auth/allowlist.ts:72-77 | A listed address matches in any letter case. |
| Allowlist.ListedDomainIsAllowed | lib/auth/allowlist.ts:80-83 | An address whose domain, lower-cased, is listed is allowed. |
| Allowlist.DomainWithAtNeverMatches | lib/auth/allowlist.ts:80-83 | A listed domain that still holds an '@' can never match. |
| Auth.AccessDeniedIsNotGuarded | lib/auth.ts:70-79 | The access-denied page lies under no guarded prefix. |
| Auth.Authorized | lib/auth.ts:68-101 | The guard's table: the access-denied page always opens. A guarded path without a session goes to sign-in; with a session the allowlist is re-checked and a denial redirects to /access-denied. A signed-in user on /login goes to /streams; everything else is let through. |
| Auth.GuardCoversSubPaths | lib/auth.ts:70-84 | The test is a plain prefix, so everything beginning with a guarded path needs a session. |
| Auth.AllowedUserReachesDashboard | lib/auth.ts:86-96 | A session whose e-mail the allowlist accepts reaches every guarded path. |
| Auth.SignIn | lib/auth.ts:27-42 | Only Google sign-ins are checked, on the profile's e-mail or else the user's. A denial redirects to /access-denied. |
| Auth.SignInAgreesWithNavigation | lib/auth.ts:27-96 | An e-mail accepted at sign-in opens the guarded pages, and one refused there is refused on them. |
| Auth.SignInFailsClosed | lib/auth.ts:29-39 | With no allowlist configured, every Google sign-in is refused. |
| Auth.Token.constructor | lib/auth.ts:43 | The token's picture, e-mail and provider as given. |
| Auth.Token.Jwt | lib/auth.ts:43-58 | The user's image and e-mail are copied; a non-empty profile picture or e-mail overrides them. The provider is set only when an account is present. |
| Auth.Session.constructor | lib/auth.ts:60 | A session with or without a user, with no image or provider yet. |
| Auth.Session.ApplyToken | lib/auth.ts:60-67 | With a user: the token's picture, or null when empty, and the token's provider. Without a user the session is unchanged. |
| Auth.AuditLogsOpenWithoutSession | lib/auth.ts:70-73 | As written: /audit-logs is let through without a session while /streams is not. |
| Auth.AuthorizedWithAuditLogs | lib/auth.ts:68-101 | The guard with /audit-logs among the prefixes. It agrees with `Authorized` on every path that was already guarded. |
| Auth.EverySidebarPageNeedsSession | lib/auth.ts:70-84 | With the fix, every sidebar page and everything below it needs a session. |
| Auth.IsOnDashboard | lib/auth.ts:70-73 | The guarded paths: those starting with /streams, /broadcasters or /stream-keys (definition). |
| AuditLogs.GetEventType | lib/api/audit-logs.ts:36-55 | The result is the raw action or a table key. A key returned matches the action and resource type, and whenever some key matches, a key is returned. |
| AuditLogs.EventTypeRoundTrip | lib/api/audit-logs.ts:23-55 | For every event type k, mapping it to the API pair and back yields k. |
| AuditLogs.ApiMappingInjective | lib/api/audit-logs.ts:23-33 | No two event types share an API pair. |
| AuditLogs.SessionEventsIgnoreResourceType | lib/api/audit-logs.ts:37-39 | started_stream, login and logout map to their event type whatever the resource type. |
| AuditLogs.UnrecognisedIsRaw | lib/api/audit-logs.ts:53-54 | A pair that no event type matches maps to the raw action. |
| AuditLogs.TablesHaveSameKeys | lib/api/audit-logs.ts:10-33 | The display table and the API table list the same event types. |
| AuditLogs.GetEventLabel | lib/api/audit-logs.ts:58-61 | The display table's label whenever the event type has an entry. Otherwise the raw action, inherited `Object.prototype` names included. |
| AuditLogs.LabelOfEventType | lib/api/audit-logs.ts:23-61 | Every event type's API pair is labelled with that type's display label. |
| AuditLogs.PageOffset | lib/api/audit-logs.ts:77 | Non-negative from page 1 on. |
| AuditLogs.NextPageOffset | lib/api/audit-logs.ts:77 | Consecutive pages are one page size apart. |
| AuditLogs.PagesDoNotOverlap | lib/api/audit-logs.ts:77 | An earlier page ends before a later one begins. |
| AuditLogs.EventTypeFilter | lib/api/audit-logs.ts:82-84 | A mapping iff the event type is non-empty and either known or an inherited `Object.prototype` name. A known type gets its table entry, whose resource type is never empty. An inherited name gets an undefined action and no resource type. |
| AuditLogs.InheritedEventTypeSetsUndefinedAction | lib/api/audit-logs.ts:82-85 | As written: an event type such as "toString" finds the inherited member. The query then gets action "undefined" and no resource type. |
| AuditLogs.ListAuditLogsQuery | lib/api/audit-logs.ts:69-112 | Distinct keys. limit is the page size (default 10) and offset is (page-1)·size (default page 1). action comes from the event type's mapping, inherited names included. resource_type comes from the explicit filter, else the mapping. Every other filter appears iff it is non-empty. |
| AuditLogs.PaginationParams | lib/api/audit-logs.ts:76-79 | Exactly limit then offset. |
| AuditLogs.EventTypeParams | lib/api/audit-logs.ts:82-90 | A mapped event type sets action, and resource_type only when the mapping has one. An unmapped type changes nothing. |
| AuditLogs.FilterParams | lib/api/audit-logs.ts:92-110 | Each non-empty filter overwrites its key and an empty one leaves it. resource_type set from the event type is overwritten by an explicit resource type. limit, offset and action are kept, and distinct keys stay distinct. |
| AuditLogs.SetIfPresent | lib/api/audit-logs.ts:92-94 | `if (v) params.set(k, v)`: only key k changes, and only for a non-empty value. |
| SearchParams.Keys | lib/api/audit-logs.ts:74 | The parameter names, in order. |
| SearchParams.Get | lib/api/audit-logs.ts:74 | Absent iff no pair has the key. |
| SearchParams.RemoveKey | lib/api/audit-logs.ts:78 | Deletes every pair with the key and leaves every other key's value. |
| SearchParams.ReplaceFirst | lib/api/audit-logs.ts:78 | The key now reads the new value and the others are unchanged. |
| SearchParams.Set | lib/api/audit-logs.ts:78 | `URLSearchParams.set`: the key reads the new value and every other key is unchanged. A new key is appended; an existing one keeps its place. |
| SearchParams.HasKeyAt | lib/api/audit-logs.ts:74 | A key is present exactly when some pair has it. |
| SearchParams.DistinctKeysAt | lib/api/audit-logs.ts:78 | The keys are distinct exactly when no two pairs share one. |
| SearchParams.GetAppend | hooks/use-audit-logs.ts:36-37 | Appending a new key makes it readable and hides nothing. |
| SearchParams.ReplaceFirstKeepsDistinct | lib/api/audit-logs.ts:78 | Replacing a value keeps the key order and the keys distinct. |
| SearchParams.RemoveKeyAbsent | lib/api/audit-logs.ts:78 | Removing an absent key changes nothing. |
| SearchParams.ToString | lib/api/audit-logs.ts:112 | `URLSearchParams.toString()`: the pairs as `name=value`, joined with '&' (definition; no percent-encoding). |
| UseAuditLogs.ApplyPatch | hooks/use-audit-logs.ts:64 | `{...prev, ...patch}`: each filter the patch names takes the patch's value and the rest keep theirs. |
| UseAuditLogs.EmptyPatchIsIdentity | hooks/use-audit-logs.ts:64 | An empty patch changes nothing. |
| UseAuditLogs.ApplyPatchIdempotent | hooks/use-audit-logs.ts:64 | Applying the same patch twice is applying it once. |
| UseAuditLogs.RouteUrl | hooks/use-audit-logs.ts:46 | Always under `/api/audit-logs?`. |
| UseAuditLogs.TotalPages | hooks/use-audit-logs.ts:83-86 | At least 1. It is 1 without a total or with total 0, else the ceiling of total/pageSize. |
| UseAuditLogs.PaginationOrDefault | hooks/use-audit-logs.ts:90 | The server's pagination, or {limit: pageSize, offset: 0, total: 0}. |
| UseAuditLogs.DefaultPaginationIsOnePage | hooks/use-audit-logs.ts:83-90 | Before data arrives the hook reports one page. |
| UseAuditLogs.AuditLogsState.constructor | hooks/use-audit-logs.ts:23-31 | Page 1, size 10 and no filters unless given. |
| UseAuditLogs.AuditLogsState.UpdateFilters | hooks/use-audit-logs.ts:63-66 | The filters become the merge and the page returns to 1. |
| UseAuditLogs.AuditLogsState.ClearFilters | hooks/use-audit-logs.ts:68-71 | No filters, page 1. |
| UseAuditLogs.AuditLogsState.GoToPage | hooks/use-audit-logs.ts:73-75 | Only the page changes. |
| UseAuditLogs.AuditLogsState.ChangePageSize | hooks/use-audit-logs.ts:77-80 | The size changes and the page returns to 1. |
| UseAuditLogs.AuditLogsState.BuildUrl | hooks/use-audit-logs.ts:34-47 | page, then pageSize, then the non-empty filters in fixed order, all keys distinct. |
| UseAuditLogs.AppendFilters | hooks/use-audit-logs.ts:39-44 | Appends exactly the non-empty filters and keeps the keys distinct. |
| UseAuditLogs.AppendIfPresent | hooks/use-audit-logs.ts:39 | A key later in the fixed order than every key present is appended, exactly when its value is non-empty. The keys stay distinct and in that order. |
| UseStreams.MapFromPairsKeys | hooks/use-streams.ts:40-46 | `new Map(pairs)` has exactly the keys that occur in the pairs. |
| UseStreams.MapFromPairsLastWins | hooks/use-streams.ts:40-46 | A key holds the value of its last pair. |
| UseStreams.MapFromPairsValues | hooks/use-streams.ts:40-46 | Every entry of the map is one of the pairs. |
| UseStreams.LastIndex | hooks/use-streams.ts:40-46 | Every key that occurs has a last occurrence. |
| UseStreams.KeyPairs | hooks/use-streams.ts:41 | One (key id, broadcaster id) pair per stream key, in order. |
| UseStreams.KeyMapHoldsLastKey | hooks/use-streams.ts:40-42 | A key id maps to the broadcaster id of its last listing. |
| UseStreams.BroadcasterByIdIsFiledById | hooks/use-streams.ts:44-46 | Each broadcaster in the map is a listed broadcaster, filed under its own id. |
| UseStreams.BroadcasterOf | hooks/use-streams.ts:51-52 | Null iff the key is unknown, its broadcaster id is empty, or no broadcaster has that id. Otherwise it is that broadcaster. |
| UseStreams.JoinStreams | hooks/use-streams.ts:39-58 | Empty before streams arrive. Otherwise one record per stream, in order, each keeping its stream. Each record's broadcaster is the one found through the key map and then the broadcaster map. |
| UseStreams.ListedKeyGetsItsBroadcaster | hooks/use-streams.ts:39-58 | A stream whose key is listed, with a non-empty broadcaster id that a listed broadcaster has, gets the last broadcaster listed under that id. |
| UseStreams.MapFromPairs | hooks/use-streams.ts:40-46 | `new Map(pairs)`: the pairs entered in order, a later pair overwriting an earlier one (definition; see the lemmas below). |
| UseStreams.KeyToBroadcasterId | hooks/use-streams.ts:40-42 | Stream-key id to broadcaster id, built with `MapFromPairs` (definition). |
| UseStreams.BroadcasterById | hooks/use-streams.ts:44-46 | Broadcaster id to broadcaster, built with `MapFromPairs` (definition). |
| UseStreams.JoinedBroadcasterMatchesKey | hooks/use-streams.ts:40-58 | A joined broadcaster is listed and has the id recorded for the stream's key. |
| UseStreams.NoKeysNoBroadcasters | hooks/use-streams.ts:40-58 | Before the key list arrives no stream has a broadcaster. |
| UseStreams.Count | hooks/use-streams.ts:62 | The response's count, or 0. |
| ApiClient.NewClient | lib/api/client.ts:29-43 | A client exists iff the URL, the key and the secret are all non-empty. |
| ApiClient.ClientRegistry.constructor | lib/api/client.ts:169 | No instance yet. |
| ApiClient.ClientRegistry.GetClient | lib/api/client.ts:169-176 | The instance is created at most once; afterwards the same one is returned. |
| ApiClient.StringToSign | lib/api/client.ts:51 | Method, path, timestamp and body joined by line breaks, in that order. |
| ApiClient.DecimalHasNoNewline | lib/api/client.ts:51 | The timestamp field cannot hold a line break. |
| ApiClient.StringToSignFields | lib/api/client.ts:51 | With single-line fields, splitting the signed string at line breaks gives back the four fields. |
| ApiClient.StringToSignInjective | lib/api/client.ts:51 | Different single-line requests never share a signed string. |
| ApiClient.SignedPath | lib/api/client.ts:66 | The path up to its first '?': a prefix of the path with no '?', followed in the path by '?' when shorter. |
| ApiClient.Timestamp | lib/api/client.ts:63 | Whole seconds: floor(ms / 1000). |
| ApiClient.BodyString | lib/api/client.ts:64 | The body's JSON text, or "" when there is none. |
| ApiClient.SentBody | lib/api/client.ts:79 | An empty body string is not sent. |
| ApiClient.Prepare | lib/api/client.ts:58-80 | URL, method, and the four headers. The signature is over method, the query-less path, the seconds timestamp and the body string; the body is sent only when non-empty. |
| ApiClient.SignatureMatchesWhatIsSent | lib/api/client.ts:58-80 | The receiver can rebuild the signed string from what is sent: the method, the sent path without its query, the X-Timestamp header and the sent body. |
| ApiClient.HandleResponse | lib/api/client.ts:82-99 | Throws iff not ok: the server's document when it parses, else the fallback with the status, status text and `instance` = path. 204 yields nothing; other successes yield the parsed body. |
| ApiClient.ListAuditLogsPath | lib/api/client.ts:159-161 | `/audit-logs`, plus '?' and the query string only when it is non-empty. |
| ApiClient.AuditLogQueryIsNotSigned | lib/api/client.ts:66-160 | The audit-log listing signs `/audit-logs` whatever its filters. |
| ApiClient.Route | lib/api/client.ts:108-165 | Each endpoint's verb and path: lists and reads use GET, creates POST, the broadcaster update PATCH, and delete and revoke DELETE. Paths are `/streams`, `/broadcasters` and `/stream-keys`, followed by `/<id>` for a single item; audit logs use `/audit-logs` with the query, and audit events `/audit-events`. Only creates and updates carry a body, which is the payload; no GET does. |
| ApiClient.CallsWithoutPayloadSendNoBody | lib/api/client.ts:64-79 | An endpoint without payload sends no body and signs the empty string. |
| AuditLogColumns.GetEventIcon | components/audit-logs/audit-log-columns.tsx:23-51 | Fixed icons for stream and session events, and person icons for broadcaster create/update/delete. Otherwise the action's generic icon. An inherited `Object.prototype` name finds that inherited member. The question mark appears iff the action is neither known nor inherited. |
| AuditLogColumns.OnlyBroadcasterChangesTheIcon | components/audit-logs/audit-log-columns.tsx:44-50 | The stream-key branch draws what the generic table would. Only broadcasters get their own icons. |
| AuditLogColumns.ResourceLabel | components/audit-logs/audit-log-columns.tsx:59-61 | "Stream Key", "Broadcaster", the raw type, or "Resource"; never empty. |
| AuditLogColumns.EventLabel | components/audit-logs/audit-log-columns.tsx:54-68 | Fixed labels for stream and session events. "<resource> Created/Updated/Deleted" for the resource actions. The raw action otherwise. |
| AuditLogColumns.LabelAgreesWithEventTypeTable | components/audit-logs/audit-log-columns.tsx:54-68 | For every recognised event the column's label is the event type's label in the display table. |
| AuditLogColumns.SessionLabelsAgree | components/audit-logs/audit-log-columns.tsx:55-57 | The stream and session labels agree with the display table. |
| AuditLogColumns.StreamKeyLabelsAgree | components/audit-logs/audit-log-columns.tsx:59-65 | The stream-key labels agree with the display table. |
| AuditLogColumns.BroadcasterLabelsAgree | components/audit-logs/audit-log-columns.tsx:59-65 | The broadcaster labels agree with the display table. |
| AuditLogColumns.ShortId | components/audit-logs/audit-log-columns.tsx:76 | The prefix, then at most 8 characters of the id, then "...". |
| AuditLogColumns.Summary | components/audit-logs/audit-log-columns.tsx:71-96 | Meets every case of `getSummary`: a started stream with an id names its shortened stream id; otherwise a stream-key or broadcaster event with metadata shows the metadata name, else the prefixed short id when there is an id; otherwise the short id, else the request path. A started stream without an id falls through to the later cases. |
| AuditLogColumns.SummaryCasesDetermine | components/audit-logs/audit-log-columns.tsx:71-96 | The cases leave one possible summary for each entry, so the contract decides the result everywhere. |
| AuditLogColumns.SummaryComesFromTheEntry | components/audit-logs/audit-log-columns.tsx:71-96 | The summary is always drawn from the entry: a metadata name, a shortened id or the request path. |
| AuditLogColumns.ActorText | components/audit-logs/audit-log-columns.tsx:138 | The actor, or "System" when empty. |
| AuditLogColumns.Outcome | components/audit-logs/audit-log-columns.tsx:155-163 | "Success" with the check and default variant iff the outcome is 'success'; "Failed" otherwise. |
| AuditLogDetail.DetailIcon | components/audit-logs/audit-log-detail.tsx:34-52 | Any icon other than the question mark is the table's icon. |
| AuditLogDetail.DetailIconDiffersFromTable | components/audit-logs/audit-log-detail.tsx:34-52 | The sheet and the table differ exactly in two cases: create/update/delete on resources other than broadcasters and stream keys, and the inherited `Object.prototype` names. |
| AuditLogDetail.MaskKeyValue | components/audit-logs/audit-log-detail.tsx:72-75 | Keys of up to 4 characters unchanged. Longer ones become 8 characters: four bullets and the last four. |
| AuditLogDetail.MaskHidesAllButLastFour | components/audit-logs/audit-log-detail.tsx:72-75 | Two long keys mask alike iff they end alike. |
| AuditLogDetail.SuccessHidesFailureReason | components/audit-logs/audit-log-detail.tsx:104-147 | A success shows "Success" and no failure reason. |
| AuditLogDetail.ResourceIdLabel | components/audit-logs/audit-log-detail.tsx:176 | "Stream ID" iff the resource type is 'stream'; "Resource ID" otherwise. |
| AuditLogDetail.ResourceRows | components/audit-logs/audit-log-detail.tsx:168-220 | The rows keep the sheet's order: type, id, key name, masked key value, key broadcaster, broadcaster name. No heading appears twice. |
| AuditLogDetail.ResourceRowsShown | components/audit-logs/audit-log-detail.tsx:168-220 | Each row is drawn iff its condition holds, with exactly its value, and otherwise no row carries its heading. Type iff truthy. Stream ID iff an id and a stream. Resource ID iff an id and not a stream. Key name, masked key value and key broadcaster iff a stream key with that field. Broadcaster name iff a broadcaster with a display name. |
| AuditLogDetail.ShowsFailureReason | components/audit-logs/audit-log-detail.tsx:145-146 | The reason is shown iff the outcome is not a success and the reason is non-empty (definition). |
| AuditLogDetail.MetadataShown | components/audit-logs/audit-log-detail.tsx:107 | The metadata, or the empty object. |
| AuditLogDetail.RawKeyShownInDump | components/audit-logs/audit-log-detail.tsx:107-114 | As written: a stream-key event shows its key masked in a row and in full in the dump. |
| AuditLogDetail.Redact | components/audit-logs/audit-log-detail.tsx:107-114 | Same keys. `key_value` masked as in its row; everything else as it is. |
| AuditLogDetail.RedactedDumpHidesKey | components/audit-logs/audit-log-detail.tsx:107-114 | The redacted dump tells nothing about a long key beyond its last four characters. |
| AuditLogDetail.MetadataToggle.constructor | components/audit-logs/audit-log-detail.tsx:98 | Starts collapsed. |
| AuditLogDetail.MetadataToggle.Toggle | components/audit-logs/audit-log-detail.tsx:231 | Flips the toggle. |
| AuditLogDetail.MetadataToggle.Clipped | components/audit-logs/audit-log-detail.tsx:249 | Clipped iff long and not expanded. |
| AuditLogFilterBar.EventTypeFromSelect | components/audit-logs/audit-log-filters.tsx:57-62 | "all" is no filter; any other value passes through. |
| AuditLogFilterBar.SelectValue | components/audit-logs/audit-log-filters.tsx:71 | The event type, or "all" without one. |
| AuditLogFilterBar.SelectShowsChoice | components/audit-logs/audit-log-filters.tsx:57-71 | After choosing a value the select shows it. |
| AuditLogFilterBar.SelectRoundTrip | components/audit-logs/audit-log-filters.tsx:57-71 | Re-choosing the shown value keeps the filter. |
| AuditLogFilterBar.ActorFromSearch | components/audit-logs/audit-log-filters.tsx:45 | An empty search clears the actor filter; any other search becomes it. |
| AuditLogFilterBar.ClearedHasNoActiveFilters | components/audit-logs/audit-log-filters.tsx:64 | After clearing there is no active filter. |
| AuditLogFilterBar.FilterBar.constructor | components/audit-logs/audit-log-filters.tsx:40 | The search box starts from the actor filter or "". |
| AuditLogFilterBar.FilterBar.HandleSearchChange | components/audit-logs/audit-log-filters.tsx:50-55 | The box holds the typed text. |
| AuditLogFilterBar.FilterBar.HandleSearchSubmit | components/audit-logs/audit-log-filters.tsx:42-48 | Only the actor filter changes, to the search or none, and the page returns to 1. Filters are active iff an event type is set or the search is non-empty. |
| AuditLogFilterBar.FilterBar.HandleEventTypeChange | components/audit-logs/audit-log-filters.tsx:57-62 | Only the event-type filter changes and the page returns to 1. The select shows the choice. |
| AuditLogFilterBar.FilterBar.Clear | components/audit-logs/audit-log-filters.tsx:109-112 | Empty search, no filters, page 1. |
| AuditLogFilterBar.HasActiveFilters | components/audit-logs/audit-log-filters.tsx:64 | The clear button is shown iff the event type or the actor is non-empty (definition). |
| AuditLogTable.PageSizeOptionsArePositive | components/audit-logs/audit-log-table.tsx:195 | Every rows-per-page option is positive, so every page count it leads to is defined. |
| AuditLogTable.EnabledTargetsStayInRange | components/audit-logs/audit-log-table.tsx:207-242 | From a page in range, an enabled button asks for a different page in [1, totalPages]. |
| AuditLogTable.SinglePageDisablesAll | components/audit-logs/audit-log-table.tsx:212-239 | On a single page every button is disabled. |
| AuditLogTable.NextApproachesEveryLaterPage | components/audit-logs/audit-log-table.tsx:229-230 | Below any later page Next is enabled and does not overshoot it. |
| AuditLogTable.PageCountShown | components/audit-logs/audit-log-table.tsx:204 | totalPages, or 1 for 0. |
| AuditLogTable.TotalLabel | components/audit-logs/audit-log-table.tsx:180 | "1 event total", else "n events total". |
| AuditLogTable.EmptyHeadline | components/audit-logs/audit-log-table.tsx:158-168 | The headline depends only on whether filters are active. |
| AuditLogTable.RefreshButton.constructor | components/audit-logs/audit-log-table.tsx:65 | Not refreshing. |
| AuditLogTable.RefreshButton.HandleRefresh | components/audit-logs/audit-log-table.tsx:80-82 | Spinning, and disabled. |
| AuditLogTable.RefreshButton.AnimationTimerFired | components/audit-logs/audit-log-table.tsx:84 | Idle again. |
| AuditLogTable.Disabled | components/audit-logs/audit-log-table.tsx:211-239 | First and Previous are disabled iff page ≤ 1. Next and Last are disabled iff page ≥ totalPages (definition). |
| AuditLogTable.Target | components/audit-logs/audit-log-table.tsx:211-239 | The pages asked for: 1, page-1, page+1 and totalPages (definition). |
| StreamKeyColumns.StatusBadgeVariant | components/stream-keys/stream-key-columns.tsx:25-36 | active→default, revoked→destructive, expired→secondary, anything else→outline, each iff. |
| StreamKeyColumns.StatusText | components/stream-keys/stream-key-columns.tsx:71 | The status upper-cased, character by character. |
| StreamKeyColumns.KeyIdText | components/stream-keys/stream-key-columns.tsx:50 | The first min(8, length) characters of the id, then "..."; exactly that long. |
| StreamKeyColumns.BroadcasterNameIsListed | components/stream-keys/stream-key-columns.tsx:42-62 | The name of a listed broadcaster with the key's broadcaster id when there is one; "Unknown" exactly when there is none. |
| StreamKeyColumns.DateText | components/stream-keys/stream-key-columns.tsx:89-103 | "Never" without a date; the formatted date otherwise. |
| StreamKeyColumns.RevokeShownIffDefaultBadge | components/stream-keys/stream-key-columns.tsx:109-111 | Revoke is offered exactly for the keys with the default (active) badge. |
| StreamKeyColumns.BroadcasterName | components/stream-keys/stream-key-columns.tsx:42-63 | The display name of the last broadcaster listed under the key's broadcaster id, else "Unknown" (definition). |
| StreamKeyColumns.RevokeShown | components/stream-keys/stream-key-columns.tsx:109-111 | The revoke menu is shown iff the status is "active" (definition). |
| StreamKeyDialog.ExpiryValuesSpellTheirDays | components/stream-keys/stream-key-dialog.tsx:75 | Each option's value is the decimal spelling of its day count, so `Number()` reads the days back. |
| StreamKeyDialog.ExpiresAt | components/stream-keys/stream-key-dialog.tsx:74-76 | None iff "never". Otherwise exactly the chosen number of whole days after now. |
| StreamKeyDialog.ExpiryFollowsTheChoice | components/stream-keys/stream-key-dialog.tsx:74-76 | A longer option expires later, and no option beyond a year. |
| StreamKeyDialog.RtmpIngestUrl | components/stream-keys/stream-key-dialog.tsx:50 | The configured URL, or "rtmp://localhost:1935" when unset or empty. |
| StreamKeyDialog.RtmpUrl | components/stream-keys/stream-key-dialog.tsx:106 | The ingest URL, a slash, then the key. |
| StreamKeyDialog.RtmpUrlEndsWithKey | components/stream-keys/stream-key-dialog.tsx:106 | A key without a slash is the URL's last path segment, after the ingest URL's own segments. |
| StreamKeyDialog.QrValue | components/stream-keys/stream-key-dialog.tsx:173 | The origin followed by `/k/<key>`. |
| StreamKeyDialog.CreateFailure | actions/stream-keys.ts:19-22 | A failure with a non-empty text: the API detail, or the fixed message. |
| StreamKeyDialog.Dialog.constructor | components/stream-keys/stream-key-dialog.tsx:42-50 | Nothing chosen, 30 days, not loading, nothing created or copied. The ingest URL is resolved once. |
| StreamKeyDialog.Dialog.SelectBroadcaster | components/stream-keys/stream-key-dialog.tsx:208 | The chosen broadcaster. |
| StreamKeyDialog.Dialog.SelectExpiry | components/stream-keys/stream-key-dialog.tsx:223 | The chosen expiry option. |
| StreamKeyDialog.Dialog.HandleOpenChange | components/stream-keys/stream-key-dialog.tsx:52-61 | Closing resets the broadcaster, expiry, created key and `copied`, and leaves the created view. `copiedRtmp` and loading are kept. Opening changes nothing. Either way it returns `newOpen` to forward to `onOpenChange`. |
| StreamKeyDialog.Dialog.StartSubmit | components/stream-keys/stream-key-dialog.tsx:63-81 | Rejected with "Please select a broadcaster" iff none is chosen. Otherwise loading starts and the request carries the broadcaster and `ExpiresAt`. |
| StreamKeyDialog.Dialog.FinishSubmit | components/stream-keys/stream-key-dialog.tsx:83-91 | Loading always ends. Success stores the key and notifies; failure keeps the created key and toasts the error. |
| StreamKeyDialog.Dialog.HandleCopy | components/stream-keys/stream-key-dialog.tsx:94-101 | Without a created key value nothing happens and nothing is toasted. Otherwise the key goes to the clipboard, `copied` is set and the "Stream key copied to clipboard" toast is raised. |
| StreamKeyDialog.Dialog.HandleCopyRtmp | components/stream-keys/stream-key-dialog.tsx:103-111 | Without a created key value nothing happens and nothing is toasted. Otherwise the full RTMP URL goes to the clipboard, `copiedRtmp` is set and the "RTMP URL copied to clipboard" toast is raised. |
| StreamKeyDialog.Dialog.CopiedTimerFired | components/stream-keys/stream-key-dialog.tsx:100 | `copied` is cleared. |
| StreamKeyDialog.Dialog.CopiedRtmpTimerFired | components/stream-keys/stream-key-dialog.tsx:110 | `copiedRtmp` is cleared. |
| StreamKeyDialog.Dialog.SubmitDisabled | components/stream-keys/stream-key-dialog.tsx:246 | Submit is disabled iff loading or no broadcaster is chosen (definition). |
| StreamKeyDialog.Dialog.ShowsCreatedView | components/stream-keys/stream-key-dialog.tsx:114 | The created-key view is shown iff the created key has a non-empty value (definition). |
| BroadcasterDialog.InitialName | components/broadcasters/broadcaster-dialog.tsx:34 | The broadcaster's name, or "". |
| BroadcasterDialog.FailureText | actions/broadcasters.ts:20-38 | The API detail, or the fixed message of the update or create action. |
| BroadcasterDialog.Title | components/broadcasters/broadcaster-dialog.tsx:94 | "Edit Broadcaster" iff editing, "Add Broadcaster" iff not. |
| BroadcasterDialog.SubmitText | components/broadcasters/broadcaster-dialog.tsx:125 | "Save changes" iff editing, "Create" iff not. |
| BroadcasterDialog.Dialog.constructor | components/broadcasters/broadcaster-dialog.tsx:34-35 | The name starts from the broadcaster given at first render; not loading. |
| BroadcasterDialog.Dialog.ReceiveBroadcaster | components/broadcasters/broadcaster-dialog.tsx:28-37 | A new `broadcaster` prop changes only the prop: the name state is kept. |
| BroadcasterDialog.Dialog.HandleNameChange | components/broadcasters/broadcaster-dialog.tsx:108 | The field holds the typed text. |
| BroadcasterDialog.Dialog.HandleOpenChange | components/broadcasters/broadcaster-dialog.tsx:40-47 | Opening loads the broadcaster's name, or "" when adding. Closing keeps the name. Either way it returns `newOpen` to forward to `onOpenChange`. |
| BroadcasterDialog.Dialog.StartSubmit | components/broadcasters/broadcaster-dialog.tsx:49-74 | Rejected with "Name is required" iff the name is blank. Otherwise loading starts and the non-empty trimmed name is sent: as an update of the edited broadcaster's id iff editing, else as a create. |
| BroadcasterDialog.Dialog.FinishSubmit | components/broadcasters/broadcaster-dialog.tsx:64-85 | Loading always ends. Success toasts, notifies and closes; failure toasts the error and stays open. |
| BroadcasterDialog.Dialog.OpenFor | components/broadcasters/broadcaster-dialog.tsx:34-47 | Corrected opening: the prop and the name it starts from change together. |
| BroadcasterDialog.EditOpensWithStaleName | components/broadcasters/broadcaster-dialog.tsx:34-47 | As written: a dialog first shown for "Add", then given a named broadcaster, shows the empty name, and saving it unchanged is rejected. |
| BroadcasterDialog.EditSavesTheSameName | components/broadcasters/broadcaster-dialog.tsx:49-63 | Opened for a broadcaster as intended, saving without typing sends an update of that broadcaster with its own trimmed name. |
| HealthIndicator.Classify | components/health-indicator.tsx:23-36 | Healthy iff reachable with API and database both "ok", and offline iff unreachable; degraded otherwise. Each comes with its detail text. |
| HealthIndicator.DetailsDetermineStatus | components/health-indicator.tsx:23-36 | The detail text alone tells which status was set. |
| HealthIndicator.Color | components/health-indicator.tsx:47-52 | Every status has a colour class. |
| HealthIndicator.Label | components/health-indicator.tsx:54-59 | Every status has a label. |
| HealthIndicator.ColorsAndLabelsAreDistinct | components/health-indicator.tsx:47-59 | No two statuses share a colour or a label. |
| HealthIndicator.Indicator.constructor | components/health-indicator.tsx:16-17 | Checking, with "Checking API status...". |
| HealthIndicator.Indicator.CheckHealth | components/health-indicator.tsx:20-37 | The state becomes the classification of the result, never checking again, and its text matches its status. |
| HealthIndicator.StatusOfDetails | components/health-indicator.tsx:23-36 | Reading a status back from a detail text never gives "checking". |
| HealthIndicator.Indicator.Caption | components/health-indicator.tsx:67 | "API: " followed by the status label (definition). |
| NavUser.FirstChars | components/nav-user.tsx:42-43 | At most one character per part. |
| NavUser.GetInitials | components/nav-user.tsx:39-46 | At most two characters. |
| NavUser.FirstCharsAreWordStarts | components/nav-user.tsx:40-43 | Split at spaces and take first characters: exactly the characters that begin a word. Empty parts add nothing. |
| NavUser.InitialsAreWordStarts | components/nav-user.tsx:39-46 | The initials are the first two word-beginning characters, upper-cased. |
| NavUser.SpacesBeginNoWord | components/nav-user.tsx:40-43 | A run of spaces begins no word. |
| NavUser.FirstNonSpaceBeginsWord | components/nav-user.tsx:40-43 | The first character after leading spaces begins a word. |
| NavUser.FirstNonSpace | components/nav-user.tsx:40-43 | A name that is not all spaces has a first non-space character. |
| NavUser.NoInitialsIffAllSpaces | components/nav-user.tsx:39-46 | No initials iff the name is empty or all spaces. |
| NavUser.InitialsSkipEmptyParts | components/nav-user.tsx:39-46 | " a  b c" gives "AB": leading and repeated spaces add nothing and the third word is cut. |
| NavUser.WordStarts | components/nav-user.tsx:40-43 | Never longer than the text. |
| NavUser.AvatarText | components/nav-user.tsx:96-174 | The fallback initials, at most two characters. |
| NavUser.AvatarTextBlankIff | components/nav-user.tsx:96-174 | With the "U" substitution (lines 96, 174) the fallback is blank only for a name of spaces. Without it (line 129) the empty name is blank too. |
| NavUser.ViewOf | components/nav-user.tsx:55-60 | Name and e-mail are the session's when non-empty, else "". Picture and provider are passed as they are. |
| NavUser.ProviderLabel | components/nav-user.tsx:183-186 | Shown iff there is a non-empty provider: its first character upper-cased and the rest unchanged. |
| NavUser.ProviderLabelCapitalises | components/nav-user.tsx:186 | "google" reads "Google", and capitalising twice is capitalising once. |
| NavUser.ShowsPicture | components/nav-user.tsx:87 | The picture is drawn iff the avatar is non-empty; otherwise the initials (definition). |
| AppSidebar.BarePrefixIsNotActive | components/app-sidebar.tsx:77 | A bare extension such as "/streamsx" does not make "/streams" active. |
| AppSidebar.WithActive | components/app-sidebar.tsx:75-78 | Every item kept in order, flagged active iff the path is its url or lies below it. |
| AppSidebar.BothActiveAreNested | components/app-sidebar.tsx:77 | Two urls active for one path are equal or nested. |
| AppSidebar.NavMainIsNotNested | components/app-sidebar.tsx:30-51 | The four menu urls are distinct and none is below another. |
| AppSidebar.AtMostOneActive | components/app-sidebar.tsx:30-78 | For any path at most one menu item is active. |
| AppSidebar.IsActive | components/app-sidebar.tsx:77 | An item is active iff the path is its url or lies below it, after a '/' (definition). |
| SiteHeader.PageTitle | components/site-header.tsx:9-19 | Never empty. A listed path gets its title and any other path "Dashboard". |
| SiteHeader.ListedPathsHaveTheirTitles | components/site-header.tsx:9-15 | The five listed paths have their own titles, none of them "Dashboard". |
| SiteHeader.SubPathsAreTitledDashboard | components/site-header.tsx:19 | The lookup is exact: a path below a listed page is titled "Dashboard". |
| SiteHeader.AuditLogPageTitledDashboard | components/site-header.tsx:9-19 | As written: the sidebar's "Audit Log" page is titled "Dashboard", while the other three sidebar pages get their sidebar titles. |
| SiteHeader.IntendedPageTitle | components/site-header.tsx:9-19 | The lookup with the audit-log page added. It agrees with the original on every other path. |
| SiteHeader.HeaderNamesEverySidebarPage | components/site-header.tsx:9-19 | With the entry added, the header names every sidebar page as the sidebar does. |
| Text.TrimStart | lib/auth/allowlist.ts:19 | Drops exactly the leading whitespace. |
| Text.TrimEnd | lib/auth/allowlist.ts:19 | Drops exactly the trailing whitespace. |
| Text.Trim | lib/auth/allowlist.ts:19 | `String.prototype.trim`: the result is no longer than the text and starts and ends with no whitespace. |
| Text.TrimIsSlice | lib/auth/allowlist.ts:19 | The trimmed text is a contiguous slice of the text, with only whitespace before it and only whitespace after it. |
| Text.TrimEmptyIff | components/broadcasters/broadcaster-dialog.tsx:52 | The trimmed text is empty iff the text is all whitespace. |
| Text.TrimIdempotent | lib/auth/allowlist.ts:19 | Trimmed text is its own trim, and trimming twice is trimming once. |
| Text.LowerIdempotent | lib/auth/allowlist.ts:19 | Lower-casing twice is lower-casing once. |
| Text.LowerKeepsTrimmed | lib/auth/allowlist.ts:19 | Lower-casing keeps trimmed text trimmed. |
| Text.Split | lib/auth/allowlist.ts:18 | `String.prototype.split` on one character: at least one part, none holding the separator. |
| Text.JoinSplit | lib/auth/allowlist.ts:18 | Joining the parts with the separator gives back the text. |
| Text.SplitJoin | lib/api/client.ts:51 | Splitting joined separator-free parts gives back the parts. |
| Text.SplitConcat | lib/auth/allowlist.ts:18 | A separator-free prefix joins the first part. |
| Text.SplitNoSep | lib/auth/allowlist.ts:18 | Text without the separator is one part. |
| Text.SplitAtSep | lib/api/client.ts:66 | Text before the first separator is the first part. |
| Text.SplitAppend | components/stream-keys/stream-key-dialog.tsx:106 | Splitting `a + sep + b` gives the parts of a, then those of b. |
| Text.SplitFirst | lib/api/client.ts:66 | The first part is the longest separator-free prefix. |
| Text.Abbreviated | components/audit-logs/audit-log-columns.tsx:76 | `slice(0, 8) + "..."`: at most 8 leading characters, then "...". |
| Text.NatToDecimal | lib/api/audit-logs.ts:78-79 | `toString()` of a natural: a non-empty string of digits, with a leading 0 only for zero. |
| Text.DecimalValueOfNatToDecimal | lib/api/audit-logs.ts:78-79 | Reading the digits back gives the number: the text stands for its value. |
| Text.NatToDecimalLength | lib/api/audit-logs.ts:78-79 | One digit iff the number is below 10. |
| Text.NatToDecimalInjective | lib/api/audit-logs.ts:78-79 | Different numbers print differently. |
| Text.IntToDecimal | lib/api/audit-logs.ts:78-79 | `toString()` of an integer. It starts with '-' iff the number is negative, and the digits after the sign spell its absolute value. |
| Wrappers.Truthy | components/audit-logs/audit-log-filters.tsx:64 | JavaScript truthiness of an optional string: present and non-empty (definition). |
| Wrappers.OrElse | lib/api/audit-logs.ts:92-94 | JavaScript's logical or on optional strings: `a` when truthy, else `b` (definition). |
| Wrappers.OrDefault | components/audit-logs/audit-log-columns.tsx:138 | JavaScript's logical or with a literal fallback: the string when truthy, else the fallback (definition). |

## Left out

- The players themselves (`webrtc-player.tsx`, `hls-player.tsx`) are not part of this model. Their failures enter as the events `HandleWebRTCError`, `HandleHLSError` and `OnPlayerError`.
- `fullscreen-player.tsx` and `stream-tile.tsx` are not part of this model. A tile reference is an abstract value holding a video element and a protocol; DOM listeners and reparenting are not modelled.
- The loading spinner and the empty-state notice of the stream grid are rendering only. `StalePageShowsNothing` states what they show for the one case that matters.
- Timers are events of their own: the 100 ms settle timer, the 2 s "copied" timers, the 500 ms refresh animation and the 30 s health poll. Their ordering against other events is not modelled.
- SWR fetching, the fetchers of `use-streams.ts` and `use-audit-logs.ts`, and their refresh intervals are not modelled. Fetched data enters as `Option` parameters, `None` before it arrives.
- The hook's pass-through results (`auditLogs`, `isLoading`, `error`, `refresh`) are not modelled.
- `fetch`, `response.json()` and `JSON.stringify` are not modelled. A request body is its JSON text, and a response carries its parsed body or none.
- The HMAC-SHA256 computation is a function parameter of `Prepare`. Only what it is applied to is modelled.
- `checkHealth` in `lib/api/client.ts` (an unsigned `fetch` of `/health`) is not modelled: it is I/O only.
- `actions/health.ts` is not modelled. The indicator receives its result as a parameter of `CheckHealth`.
- The server actions in `actions/*.ts` are thin wrappers around the client. Only their error-text fallbacks are modelled, by `StreamKeyDialog.CreateFailure` and `BroadcasterDialog.FailureText`.
- `URLSearchParams.toString` is modelled without percent-encoding: `SearchParams.ToString` joins `k=v` with `&`.
- `parseInt` of the page parameters in `app/api/audit-logs/route.ts` is not modelled. `AuditLogs.ListAuditLogsQuery` receives integers.
- Case mapping is ASCII only, in `Text.Lower`, `Text.Upper` and `Text.UpperChar`. Unicode case folding in `toLowerCase`/`toUpperCase` is not modelled.
- Date handling is not modelled: `Date.now`, `toISOString`, and date-fns `format`. `StreamKeyDialog.ExpiresAt` yields integer milliseconds. `StreamKeyColumns.DateText` takes the formatter as a parameter.
- StreamKeyDialog.ExpiresAt: requires one of the select's five values. The source would also accept any string, yielding an invalid date for a non-number, but the select never holds one.
- UseAuditLogs.TotalPages: requires a positive page size. The page sizes offered are all positive (`AuditLogTable.PageSizeOptionsArePositive`). A size of 0 would give `Infinity` in the source.
- Strings are sequences of Unicode scalar values here, while JavaScript strings are sequences of UTF-16 code units. The two agree inside the Basic Multilingual Plane. Outside it, lengths, `slice`, `charAt` and `[0]` differ, which affects `AuditLogDetail.MaskKeyValue`, `Text.Abbreviated`, `NavUser.GetInitials` and `NavUser.ProviderLabel`.
- An inherited `Object.prototype` member found by the event-icon lookup is kept as a value (`AuditLogColumns.Icon.Inherited`). What React does when asked to render that function or object is not modelled.
- The detail sheet's separators are layout only. The rows are modelled with their headings (`AuditLogDetail.Label`), each drawn or not; the sheet's row components are not.
- Audit-log metadata values are modelled as strings. The source's metadata is arbitrary JSON, read with `as string` casts.
- The detail sheet's metadata block is shown only for non-empty metadata, and is clipped at 200 characters of JSON text. Neither is modelled: `MetadataToggle.Clipped` receives the "long" flag.
- The detail sheet's own copy of `getEventLabel` has the same text as the table's. Both are modelled by `AuditLogColumns.EventLabel`.
- `logAccessDenied` (console logging) is not modelled.
- NextAuth and the Google OAuth exchange are not modelled. Only the callback bodies of `lib/auth.ts` are; the allowlist configuration is a parameter instead of the environment.
- Toasts, `onSuccess`, `onOpenChange` and the clipboard are outputs: returned values that the callers receive.
- StreamKeyDialog.Dialog.HandleCopy and StreamKeyDialog.Dialog.HandleCopyRtmp: the clipboard write always succeeds here. A rejected `navigator.clipboard.writeText` throws before the copied flag is set and before the toast, and that path is not modelled.
- The QR code is modelled only by the value it encodes (`QrValue`). `window.location.origin` is a parameter and is "" during server rendering.
- The broadcaster and stream-key tables are not part of this model. Their sorting and paging is done by the TanStack Table library.
- Pure presentation is not modelled: skeletons, tooltips, theme, the account dialog and sign-out.

## Findings

| source | as written | input that shows it | evidently intended | confidence | as-written member | corrected member |
|---|---|---|---|---|---|---|
| components/video/stream-grid.tsx:43-47 | The page is never clamped when the number of active streams shrinks. With one page left, pagination is hidden (line 135) while `page` stays 2, so the slice is empty. The empty-state notice (line 104) is not shown either. | 10 active streams, the user on page 2, then one stream ends | Show the last page that exists | not executed; high | StreamGrid.StalePageShowsNothing | StreamGrid.ShownStreamsNeverBlank |
| lib/auth.ts:70-73 | The guarded prefixes omit `/audit-logs`, which the sidebar lists beside the guarded pages. A visitor without a session is let through. The `/api/audit-logs` route is excluded from the proxy's matcher and checks no session either. | `authorized` with no session and pathname "/audit-logs" | Guard `/audit-logs` like the other dashboard pages | not executed; medium (a layout-level check, if one exists, is not part of this model) | Auth.AuditLogsOpenWithoutSession | Auth.EverySidebarPageNeedsSession |
| components/audit-logs/audit-log-detail.tsx:107-114 | The sheet masks the stream key in its "Key Value (Masked)" row. It then prints the whole metadata object, raw `key_value` included, in the dump below. | A stream-key event with metadata `{"key_value": "sk_live_secret"}` | Mask `key_value` in the dump as in the row | not executed; medium (the backend may never log key values) | AuditLogDetail.RawKeyShownInDump | AuditLogDetail.RedactedDumpHidesKey |
| components/broadcasters/broadcaster-dialog.tsx:34-47 | The name is loaded only in the first render and in `handleOpenChange`. The dialog library calls that only when the dialog closes itself; the broadcaster table opens the dialog through its `open` prop. | The dialog first shown for "Add", then opened to edit a broadcaster named "Base" | The field shows "Base", and saving unchanged updates it | not executed; medium (the table and the dialog library are not part of this model) | BroadcasterDialog.EditOpensWithStaleName | BroadcasterDialog.EditSavesTheSameName |
| components/site-header.tsx:9-19 | `pageTitles` has no entry for the sidebar's "Audit Log" page, so its header reads "Dashboard". | pathname "/audit-logs" | The header reads "Audit Log" | not executed; medium | SiteHeader.AuditLogPageTitledDashboard | SiteHeader.HeaderNamesEverySidebarPage |
