/**
 * The playback protocol selector of one stream (`StreamPlayer`): it starts
 * on WebRTC, falls back to HLS when the WebRTC player reports an error, and
 * shows a static notice once the HLS player reports an error too.
 */
module StreamPlayer {
  import opened Wrappers
  import opened ApiTypes

  datatype Protocol = WebRTC | Hls

  /** What the selector renders. */
  datatype View =
    | Unavailable                 // "Unable to play stream"
    | WebRTCPlayer(src: string)
    | HlsPlayer(src: string)

  /**
   * The rendered choice: an error message (JavaScript-truthy) wins over the
   * protocol; otherwise the protocol picks the player and its URL.
   */
  function Render(error: Option<string>, protocol: Protocol, urls: StreamUrls): (v: View)
    ensures v.Unavailable? <==> Truthy(error)
    ensures v.WebRTCPlayer? <==> !Truthy(error) && protocol == WebRTC
    ensures v.HlsPlayer? <==> !Truthy(error) && protocol == Hls
    ensures v.WebRTCPlayer? ==> v.src == urls.webrtc
    ensures v.HlsPlayer? ==> v.src == urls.hls
  {
    if Truthy(error) then Unavailable
    else match protocol
      case WebRTC => WebRTCPlayer(urls.webrtc)
      case Hls => HlsPlayer(urls.hls)
  }

  class Player {
    const urls: StreamUrls
    var protocol: Protocol
    var error: Option<string>
    /** Every protocol passed to `onProtocolChange` so far, oldest first. */
    var reported: seq<Protocol>

    /** WebRTC is reported first, then HLS at most once, and the last report is the current protocol. */
    ghost predicate Valid()
      reads this
    {
      (reported == [WebRTC] || reported == [WebRTC, Hls])
      && reported[|reported| - 1] == protocol
    }

    function View(): View
      reads this
    {
      Render(error, protocol, urls)
    }

    /** Mounting: protocol `webrtc`, no error, and the initial protocol reported once. */
    constructor(urls: StreamUrls)
      ensures Valid()
      ensures this.urls == urls && protocol == WebRTC && error == None
      ensures reported == [WebRTC]
      ensures View() == WebRTCPlayer(urls.webrtc)
    {
      this.urls := urls;
      protocol := WebRTC;
      error := None;
      reported := [WebRTC];
    }

    /** `handleWebRTCError`: switch to HLS and clear the error; a change of protocol is reported. */
    method HandleWebRTCError()
      requires Valid()
      modifies this
      ensures Valid()
      ensures protocol == Hls && error == None
      ensures reported == if old(protocol) == Hls then old(reported) else old(reported) + [Hls]
    {
      if protocol != Hls {
        reported := reported + [Hls];
      }
      protocol := Hls;
      error := None;
    }

    /** `handleHLSError`: keep the error's message; the protocol does not change. */
    method HandleHLSError(message: string)
      requires Valid()
      modifies this`error
      ensures Valid()
      ensures error == Some(message)
    {
      error := Some(message);
    }

    /**
     * An error reported by whichever protocol player is mounted: only the
     * rendered player can report, so after the failure notice nothing changes.
     * The protocol never goes back from HLS to WebRTC.
     */
    method OnPlayerError(message: string)
      requires Valid()
      modifies this
      ensures Valid()
      ensures old(protocol) == Hls ==> protocol == Hls
      ensures old(View()).Unavailable? ==> View() == old(View()) && reported == old(reported)
      ensures old(View()).WebRTCPlayer? ==> View() == HlsPlayer(urls.hls)
      ensures old(View()).HlsPlayer? && message != "" ==> View() == Unavailable
      ensures |reported| <= 2
    {
      match View()
      case Unavailable =>
      case WebRTCPlayer(_) => HandleWebRTCError();
      case HlsPlayer(_) => HandleHLSError(message);
    }
  }
}
