/**
 * The "Generate Stream Key" dialog (`StreamKeyDialog`): a form that picks a
 * broadcaster and an expiry, sends the creation request, and then shows
 * the created key once, with copy buttons for the key and the full RTMP
 * URL. The asynchronous submit is split at its `await`: `StartSubmit`
 * runs up to the request, `FinishSubmit` receives the action's result.
 * The clipboard, toasts and the two-second timers are outputs and events.
 */
module StreamKeyDialog {
  import opened Wrappers
  import opened Text
  import opened ApiTypes

  /** Milliseconds in a day: `24 * 60 * 60 * 1000`. */
  const DayMs: nat := 86400000

  /** The day counts offered in the "Expires In" select, by option value. */
  const ExpiryDays: map<string, nat> := map["7" := 7, "30" := 30, "90" := 90, "365" := 365]

  /** The values the "Expires In" select can hold. */
  predicate IsExpiryChoice(choice: string) {
    choice in ExpiryDays || choice == "never"
  }

  /** Each option's day count is the number its value spells (`Number(expiresInDays)`). */
  lemma ExpiryValuesSpellTheirDays(choice: string)
    requires choice in ExpiryDays
    ensures NatToDecimal(ExpiryDays[choice]) == choice
  {
    assert NatToDecimal(7) == "7";
    assert NatToDecimal(30) == "30" by { assert NatToDecimal(3) == "3"; }
    assert NatToDecimal(90) == "90" by { assert NatToDecimal(9) == "9"; }
    assert NatToDecimal(365) == "365" by { assert NatToDecimal(36) == "36" by { assert NatToDecimal(3) == "3"; } }
  }

  /**
   * `expiresAt` in milliseconds: none for "never", otherwise the chosen
   * number of whole days after `nowMs`.
   */
  function ExpiresAt(choice: string, nowMs: int): (r: Option<int>)
    requires IsExpiryChoice(choice)
    ensures r.None? <==> choice == "never"
    ensures r.Some? ==> r.value > nowMs && (r.value - nowMs) % DayMs == 0
    ensures r.Some? ==> (r.value - nowMs) / DayMs == ExpiryDays[choice]
  {
    if choice == "never" then None else Some(nowMs + ExpiryDays[choice] * DayMs)
  }

  /** A longer option expires later, and every option expires within a year. */
  lemma ExpiryFollowsTheChoice(a: string, b: string, nowMs: int)
    requires a in ExpiryDays && b in ExpiryDays
    ensures ExpiryDays[a] < ExpiryDays[b] <==> ExpiresAt(a, nowMs).value < ExpiresAt(b, nowMs).value
    ensures ExpiresAt(a, nowMs).value <= nowMs + 365 * DayMs
  {
  }

  /** `rtmpIngestUrl`: the configured ingest URL, or the local default when unset or empty. */
  function RtmpIngestUrl(env: Option<string>): (r: string)
    ensures Truthy(env) ==> r == env.value
    ensures !Truthy(env) ==> r == "rtmp://localhost:1935"
    ensures r != ""
  {
    OrDefault(env, "rtmp://localhost:1935")
  }

  /** The full RTMP URL: the ingest URL, a slash, and the key. */
  function RtmpUrl(ingest: string, keyValue: string): (r: string)
    ensures |r| == |ingest| + 1 + |keyValue|
    ensures StartsWith(r, ingest) && r[|ingest|] == '/' && r[|ingest| + 1..] == keyValue
  {
    ingest + "/" + keyValue
  }

  /** The key is the last path segment of the RTMP URL whenever it has no slash of its own. */
  lemma RtmpUrlEndsWithKey(ingest: string, keyValue: string)
    requires '/' !in keyValue
    ensures var parts := Split(RtmpUrl(ingest, keyValue), '/');
      parts[|parts| - 1] == keyValue
    ensures Split(RtmpUrl(ingest, keyValue), '/') == Split(ingest, '/') + [keyValue]
  {
    assert RtmpUrl(ingest, keyValue) == ingest + ['/'] + keyValue;
    SplitAppend(ingest, '/', keyValue);
    SplitNoSep(keyValue, '/');
  }

  /** The value encoded in the QR code: the page `/k/<key>` of the dashboard's own origin. */
  function QrValue(origin: string, keyValue: string): (r: string)
    ensures StartsWith(r, origin) && r[|origin|..] == "/k/" + keyValue
  {
    origin + "/k/" + keyValue
  }

  /** What the creation request carries. */
  datatype CreateRequest = CreateRequest(broadcaster_id: string, expires_at: Option<int>)

  /** `createStreamKey`'s result. */
  datatype CreateResult = Created(streamKey: StreamKey) | Failed(error: string)

  /** `createStreamKey`'s error text: the API error's detail, or a fixed message. */
  function CreateFailure(detail: Option<string>): (r: CreateResult)
    ensures r.Failed? && r.error != ""
    ensures Truthy(detail) ==> r.error == detail.value
  {
    Failed(OrDefault(detail, "Failed to create stream key"))
  }

  /** How a submit ends before the request: a rejection with its toast, or the request sent. */
  datatype SubmitStart = Rejected(message: string) | Sent(request: CreateRequest)

  /** What `FinishSubmit` reports: whether `onSuccess` is called, and an error toast. */
  datatype SubmitEnd = SubmitEnd(notifySuccess: bool, errorToast: Option<string>)

  class Dialog {
    var broadcasterId: string
    var expiresInDays: string
    var isLoading: bool
    var createdKey: Option<StreamKey>
    var copied: bool
    var copiedRtmp: bool
    const rtmpIngestUrl: string

    /** The expiry select only ever holds one of its options. */
    predicate Valid()
      reads this
    {
      IsExpiryChoice(expiresInDays)
    }

    /** The initial state: nothing chosen, thirty days, nothing created or copied. */
    constructor(ingestEnv: Option<string>)
      ensures Valid()
      ensures broadcasterId == "" && expiresInDays == "30" && !isLoading
      ensures createdKey.None? && !copied && !copiedRtmp
      ensures rtmpIngestUrl == RtmpIngestUrl(ingestEnv)
    {
      broadcasterId := "";
      expiresInDays := "30";
      isLoading := false;
      createdKey := None;
      copied := false;
      copiedRtmp := false;
      rtmpIngestUrl := RtmpIngestUrl(ingestEnv);
    }

    /** The created-key view is shown exactly when the created key carries its value. */
    predicate ShowsCreatedView()
      reads this
    {
      createdKey.Some? && Truthy(createdKey.value.key_value)
    }

    /** The submit button is disabled while loading or before a broadcaster is chosen. */
    predicate SubmitDisabled()
      reads this
    {
      isLoading || broadcasterId == ""
    }

    method SelectBroadcaster(id: string)
      modifies this`broadcasterId
      ensures broadcasterId == id
    {
      broadcasterId := id;
    }

    method SelectExpiry(choice: string)
      requires IsExpiryChoice(choice)
      modifies this`expiresInDays
      ensures expiresInDays == choice
    {
      expiresInDays := choice;
    }

    /**
     * `handleOpenChange`: closing clears the form, the created key and the
     * key's copied mark; the RTMP copied mark and the loading flag stay.
     * Opening changes nothing here. Either way `newOpen` is handed on to
     * the parent's `onOpenChange`, which is what opens or closes the dialog.
     */
    method HandleOpenChange(newOpen: bool) returns (forward: bool)
      requires Valid()
      modifies this
      ensures forward == newOpen
      ensures Valid()
      ensures newOpen ==> broadcasterId == old(broadcasterId) && expiresInDays == old(expiresInDays)
                          && createdKey == old(createdKey) && copied == old(copied)
      ensures !newOpen ==> broadcasterId == "" && expiresInDays == "30" && createdKey.None? && !copied
      ensures !newOpen ==> !ShowsCreatedView()
      ensures copiedRtmp == old(copiedRtmp) && isLoading == old(isLoading)
    {
      if !newOpen {
        broadcasterId := "";
        expiresInDays := "30";
        createdKey := None;
        copied := false;
      }
      forward := newOpen;
    }

    /**
     * `handleSubmit` up to the request: without a broadcaster it only
     * raises the toast; otherwise it sets the loading flag and sends the
     * chosen broadcaster and expiry.
     */
    method StartSubmit(nowMs: int) returns (r: SubmitStart)
      requires Valid()
      modifies this`isLoading
      ensures r.Rejected? <==> broadcasterId == ""
      ensures r.Rejected? ==> r.message == "Please select a broadcaster" && isLoading == old(isLoading)
      ensures r.Sent? ==> isLoading && r.request == CreateRequest(broadcasterId, ExpiresAt(expiresInDays, nowMs))
    {
      if broadcasterId == "" {
        return Rejected("Please select a broadcaster");
      }
      isLoading := true;
      r := Sent(CreateRequest(broadcasterId, ExpiresAt(expiresInDays, nowMs)));
    }

    /**
     * `handleSubmit` after the request: a created key is kept and reported,
     * a failure leaves the created key as it was and toasts the error;
     * loading ends either way.
     */
    method FinishSubmit(result: CreateResult) returns (r: SubmitEnd)
      modifies this`createdKey, this`isLoading
      ensures !isLoading
      ensures r.notifySuccess <==> result.Created?
      ensures result.Created? ==> createdKey == Some(result.streamKey) && r.errorToast.None?
      ensures result.Failed? ==> createdKey == old(createdKey) && r.errorToast == Some(result.error)
    {
      if result.Created? {
        createdKey := Some(result.streamKey);
        r := SubmitEnd(true, None);
      } else {
        r := SubmitEnd(false, Some(result.error));
      }
      isLoading := false;
    }

    /**
     * `handleCopy`: copies the key, marks it copied and toasts; does
     * nothing without a key value.
     */
    method HandleCopy() returns (clipboard: Option<string>, toast: Option<string>)
      modifies this`copied
      ensures !ShowsCreatedView() ==> clipboard.None? && toast.None? && copied == old(copied)
      ensures ShowsCreatedView() ==> clipboard == createdKey.value.key_value && copied
                                     && toast == Some("Stream key copied to clipboard")
    {
      if !ShowsCreatedView() {
        return None, None;
      }
      copied := true;
      clipboard := createdKey.value.key_value;
      toast := Some("Stream key copied to clipboard");
    }

    /**
     * `handleCopyRtmp`: copies the full RTMP URL, marks it copied and
     * toasts; does nothing without a key value.
     */
    method HandleCopyRtmp() returns (clipboard: Option<string>, toast: Option<string>)
      modifies this`copiedRtmp
      ensures !ShowsCreatedView() ==> clipboard.None? && toast.None? && copiedRtmp == old(copiedRtmp)
      ensures ShowsCreatedView() ==> clipboard == Some(RtmpUrl(rtmpIngestUrl, createdKey.value.key_value.value))
                                     && copiedRtmp && toast == Some("RTMP URL copied to clipboard")
    {
      if !ShowsCreatedView() {
        return None, None;
      }
      copiedRtmp := true;
      clipboard := Some(RtmpUrl(rtmpIngestUrl, createdKey.value.key_value.value));
      toast := Some("RTMP URL copied to clipboard");
    }

    /** The two-second timer after copying the key. */
    method CopiedTimerFired()
      modifies this`copied
      ensures !copied
    {
      copied := false;
    }

    /** The two-second timer after copying the RTMP URL. */
    method CopiedRtmpTimerFired()
      modifies this`copiedRtmp
      ensures !copiedRtmp
    {
      copiedRtmp := false;
    }
  }
}
