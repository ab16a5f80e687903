/**
 * The live-stream grid (`StreamGrid`): it keeps the active streams, pages
 * them nine at a time, picks a layout from the number of tiles on the page,
 * and records which stream is open fullscreen.
 */
module StreamGrid {
  import opened Wrappers
  import opened ApiTypes
  import StreamPlayer

  const PageSize: nat := 9

  // ---------------------------------------------------------------------
  // Filtering and pagination
  // ---------------------------------------------------------------------

  /** `streams.filter(s => s.status === 'active')`. */
  function ActiveStreams(streams: seq<StreamWithBroadcaster>): (r: seq<StreamWithBroadcaster>)
    ensures |r| <= |streams|
    ensures forall s :: s in r ==> s in streams && s.stream.status == Active
    ensures forall s :: s in streams && s.stream.status == Active ==> s in r
  {
    if streams == [] then []
    else
      var rest := ActiveStreams(streams[1..]);
      assert forall s :: s in streams[1..] ==> s in streams;
      assert forall s :: s in streams ==> s == streams[0] || s in streams[1..];
      if streams[0].stream.status == Active then [streams[0]] + rest else rest
  }

  /** The filter keeps the original order: it distributes over concatenation. */
  lemma {:induction false} ActiveStreamsAppend(a: seq<StreamWithBroadcaster>, b: seq<StreamWithBroadcaster>)
    ensures ActiveStreams(a + b) == ActiveStreams(a) + ActiveStreams(b)
    decreases |a|
  {
    if a != [] {
      assert (a + b)[0] == a[0];
      assert (a + b)[1..] == a[1..] + b;
      ActiveStreamsAppend(a[1..], b);
    } else {
      assert a + b == b;
    }
  }

  /** `Math.ceil(n / PAGE_SIZE)`. */
  function TotalPages(n: nat): (r: nat)
    ensures n == 0 <==> r == 0
    ensures r > 0 ==> (r - 1) * PageSize < n <= r * PageSize
  {
    (n + PageSize - 1) / PageSize
  }

  /** `active.slice((page - 1) * 9, page * 9)`; `page` is at least 1. */
  function PagedStreams(active: seq<StreamWithBroadcaster>, page: int): (r: seq<StreamWithBroadcaster>)
    requires page >= 1
    ensures |r| <= PageSize
    ensures |r| > 0 <==> (page - 1) * PageSize < |active|
    ensures |r| > 0 ==> (page - 1) * PageSize + |r| <= |active|
    ensures forall i :: 0 <= i < |r| ==> r[i] == active[(page - 1) * PageSize + i]
  {
    var start := (page - 1) * PageSize;
    var end := page * PageSize;
    if start >= |active| then []
    else if end <= |active| then active[start..end]
    else active[start..]
  }

  /** The first item of page 1 is the first active stream. */
  lemma FirstPageStartsAtZero(streams: seq<StreamWithBroadcaster>)
    requires ActiveStreams(streams) != []
    ensures PagedStreams(ActiveStreams(streams), 1)[0] == ActiveStreams(streams)[0]
  {
  }

  /** Every active stream is on exactly the page its index says. */
  lemma {:induction false} EveryActiveStreamOnItsPage(active: seq<StreamWithBroadcaster>, k: nat)
    requires k < |active|
    ensures var page := k / PageSize + 1;
      1 <= page <= TotalPages(|active|) && PagedStreams(active, page)[k % PageSize] == active[k]
  {
    var page := k / PageSize + 1;
    assert (page - 1) * PageSize + k % PageSize == k;
  }

  // ---------------------------------------------------------------------
  // Layout
  // ---------------------------------------------------------------------

  /**
   * A layout of `dims.0` columns by `dims.1` rows suits `count` tiles when
   * it is at most 3x3 and near-square (one more column than rows at most),
   * all tiles fit, and neither the last row nor the last column is empty.
   */
  ghost predicate Suits(count: nat, dims: (nat, nat)) {
    && 1 <= dims.1 <= dims.0 <= dims.1 + 1 && dims.0 <= 3
    && count <= dims.0 * dims.1
    && (dims.1 - 1) * dims.0 < count
    && (dims.0 - 1) * dims.1 < count
  }

  /** The md+ layout for `count` tiles: 1x1, 2x1, 2x2, 3x2 or 3x3. */
  function GridDims(count: nat): (dims: (nat, nat))
    ensures 1 <= dims.0 <= 3 && 1 <= dims.1 <= 3 && dims.1 <= dims.0
    ensures count <= 1 ==> dims == (1, 1)
    ensures 1 <= count <= PageSize ==> Suits(count, dims)
    ensures PageSize < count ==> dims == (3, 3)
  {
    if count <= 1 then (1, 1)
    else if count == 2 then (2, 1)
    else if count <= 4 then (2, 2)
    else if count <= 6 then (3, 2)
    else (3, 3)
  }

  /** For a page's worth of tiles only one layout suits, so `GridDims` is the table itself. */
  lemma LayoutUnique(count: nat, dims: (nat, nat))
    requires 1 <= count <= PageSize && Suits(count, dims)
    ensures dims == GridDims(count)
  {
  }

  /** Every page's tiles fit the layout chosen for them. */
  lemma PageFitsLayout(active: seq<StreamWithBroadcaster>, page: int)
    requires page >= 1
    ensures var n := |PagedStreams(active, page)|;
      n <= GridDims(n).0 * GridDims(n).1
  {
  }

  // ---------------------------------------------------------------------
  // Page controls
  // ---------------------------------------------------------------------

  /** Previous: `Math.max(1, p - 1)`. */
  function PreviousPage(p: int): (r: int)
    ensures r >= 1
    ensures p > 1 ==> r == p - 1
    ensures p <= 1 ==> r == 1
  {
    if p - 1 > 1 then p - 1 else 1
  }

  /** Next: `Math.min(totalPages, p + 1)`. */
  function NextPage(p: int, totalPages: int): (r: int)
    ensures r <= totalPages
    ensures p < totalPages ==> r == p + 1
    ensures 1 <= p <= totalPages ==> 1 <= r <= totalPages
  {
    if totalPages < p + 1 then totalPages else p + 1
  }

  /** Previous and Next never leave the range of existing pages. */
  lemma PageControlsStayInRange(p: int, totalPages: int)
    requires 1 <= p <= totalPages
    ensures 1 <= PreviousPage(p) <= totalPages
    ensures 1 <= NextPage(p, totalPages) <= totalPages
  {
  }

  // ---------------------------------------------------------------------
  // The grid's state
  // ---------------------------------------------------------------------

  /** A `<video>` element, by identity. */
  datatype VideoElement = VideoElement(id: nat)

  /** What a tile exposes to the grid: its video element and active protocol. */
  datatype TileRef = TileRef(video: Option<VideoElement>, protocol: StreamPlayer.Protocol)

  datatype FullscreenState = FullscreenState(
    stream: StreamWithBroadcaster,
    video: Option<VideoElement>,
    protocol: StreamPlayer.Protocol)

  class Grid {
    var page: int
    var fullscreen: Option<FullscreenState>
    var isClosingFullscreen: bool
    var tileRefs: map<string, TileRef>

    ghost predicate Valid()
      reads this
    {
      page >= 1
    }

    constructor()
      ensures Valid()
      ensures page == 1 && fullscreen == None && !isClosingFullscreen && tileRefs == map[]
    {
      page := 1;
      fullscreen := None;
      isClosingFullscreen := false;
      tileRefs := map[];
    }

    /** The Previous control. */
    method Previous()
      requires Valid()
      modifies this`page
      ensures Valid()
      ensures page == PreviousPage(old(page))
    {
      page := PreviousPage(page);
    }

    /** The Next control, rendered only when there is more than one page. */
    method Next(streams: seq<StreamWithBroadcaster>)
      requires Valid()
      requires TotalPages(|ActiveStreams(streams)|) > 1
      modifies this`page
      ensures Valid()
      ensures page == NextPage(old(page), TotalPages(|ActiveStreams(streams)|))
    {
      page := NextPage(page, TotalPages(|ActiveStreams(streams)|));
    }

    /** The numbered link of page `i + 1`. */
    method SelectPage(streams: seq<StreamWithBroadcaster>, i: nat)
      requires Valid()
      requires i < TotalPages(|ActiveStreams(streams)|)
      modifies this`page
      ensures Valid()
      ensures page == i + 1
    {
      page := i + 1;
    }

    /**
     * `handleTileClick`: ignored while a close is settling; otherwise opens
     * fullscreen with the tile's video element and protocol, if the tile has
     * registered itself.
     */
    method HandleTileClick(stream: StreamWithBroadcaster)
      requires Valid()
      modifies this`fullscreen
      ensures Valid()
      ensures isClosingFullscreen || stream.stream.id !in tileRefs ==> fullscreen == old(fullscreen)
      ensures !isClosingFullscreen && stream.stream.id in tileRefs ==>
        fullscreen == Some(FullscreenState(stream, tileRefs[stream.stream.id].video, tileRefs[stream.stream.id].protocol))
    {
      if isClosingFullscreen {
        return;
      }
      if stream.stream.id in tileRefs {
        var tile := tileRefs[stream.stream.id];
        fullscreen := Some(FullscreenState(stream, tile.video, tile.protocol));
      }
    }

    /** `handleFullscreenClose`: closes fullscreen and blocks clicks until the settle timer fires. */
    method HandleFullscreenClose()
      requires Valid()
      modifies this`fullscreen, this`isClosingFullscreen
      ensures Valid()
      ensures isClosingFullscreen && fullscreen == None
    {
      isClosingFullscreen := true;
      fullscreen := None;
    }

    /** The settle timer started by a close fires: clicks are accepted again. */
    method SettleTimerFired()
      requires Valid()
      modifies this`isClosingFullscreen
      ensures Valid()
      ensures !isClosingFullscreen
    {
      isClosingFullscreen := false;
    }

    /** `setTileRef`: a tile registers (non-null ref) or unregisters (null) itself. */
    method SetTileRef(streamId: string, ref: Option<TileRef>)
      requires Valid()
      modifies this`tileRefs
      ensures Valid()
      ensures ref.Some? ==> tileRefs == old(tileRefs)[streamId := ref.value]
      ensures ref.None? ==> tileRefs == old(tileRefs) - {streamId}
    {
      if ref.Some? {
        tileRefs := tileRefs[streamId := ref.value];
      } else {
        tileRefs := tileRefs - {streamId};
      }
    }
  }

  // ---------------------------------------------------------------------
  // A page left behind when streams end
  // ---------------------------------------------------------------------

  /**
   * As written, the page is never brought back into range: with ten active
   * streams the user moves to page 2; when one stream ends there are nine,
   * a single page, so the pagination controls disappear, the grid is not
   * empty (no empty-state notice), and page 2 shows no tiles.
   */
  lemma StalePageShowsNothing(active: seq<StreamWithBroadcaster>)
    requires |active| == 9
    ensures TotalPages(|active|) == 1      // pagination is not rendered
    ensures active != []                   // the empty-state notice is not rendered
    ensures PagedStreams(active, 2) == []  // and page 2 has no tiles
  {
  }

  /** The page actually shown: the recorded page brought back into `[1, max(1, totalPages)]`. */
  function ShownPage(page: int, totalPages: nat): (r: int)
    requires page >= 1
    ensures 1 <= r
    ensures totalPages >= 1 ==> r <= totalPages
    ensures 1 <= page <= totalPages ==> r == page
  {
    if page > totalPages && totalPages >= 1 then totalPages else if page > totalPages then 1 else page
  }

  /** The tiles shown once the page is brought back into range. */
  function ShownStreams(active: seq<StreamWithBroadcaster>, page: int): seq<StreamWithBroadcaster>
    requires page >= 1
  {
    PagedStreams(active, ShownPage(page, TotalPages(|active|)))
  }

  /** With the page brought back into range, a grid with active streams always shows some tile. */
  lemma ShownStreamsNeverBlank(active: seq<StreamWithBroadcaster>, page: int)
    requires page >= 1
    requires active != []
    ensures ShownStreams(active, page) != []
  {
    var tp := TotalPages(|active|);
    var p := ShownPage(page, tp);
    assert (p - 1) * PageSize <= (tp - 1) * PageSize;
  }
}
