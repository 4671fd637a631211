/**
 * The YouTube Data API v3 client of data_processing/youtube_api.py: a single
 * channel lookup, a best-effort batch of channel lookups flattened into
 * records, and the paginated listing of every upload of a channel.
 *
 * The module-level `youtube` client is the parameter `yt`; a pandas
 * `DataFrame` of records is a `seq` of records; a raised exception is a
 * `Failure` carrying the text the caller would see.
 */
module YouTubeApi {
  import opened Wrappers
  import opened PyText
  import opened YouTubeResources

  const InvalidChannelId := "Invalid Channel ID"
  const ChannelDetailParts := "snippet,statistics"
  const UploadsParts := "contentDetails"
  const PlaylistParts := "snippet"
  const PageSize := 50
  const VideoDetailParts := "snippet,contentDetails,statistics"

  // ---------------------------------------------------------------------
  // get_channel_details
  // ---------------------------------------------------------------------

  /** One lookup of `snippet,statistics` for `channelId`: the raw response when
      it lists at least one channel, otherwise the `{"error": ...}` message.
      It never raises: every outcome of the request is one of the two. */
  function GetChannelDetails(yt: YouTube, channelId: string): (r: Result<ChannelListResponse, string>)
    ensures var resp := yt.channels(ChannelsRequest(ChannelDetailParts, channelId));
      && (r.Success? <==> resp.Success? && resp.value.items.Some? && |resp.value.items.value| > 0)
      && (r.Success? ==> r.value == resp.value)
      && (resp.Success? && resp.value.items == Some([]) ==> r == Failure(InvalidChannelId))
      && (resp.Success? && resp.value.items.None? ==> r == Failure(Str(KeyError("items"))))
      && (resp.Failure? && resp.error.HttpError? ==> r == Failure("HTTP Error: " + resp.error.detail))
      && (resp.Failure? && !resp.error.HttpError? ==> r == Failure(Str(resp.error)))
  {
    match yt.channels(ChannelsRequest(ChannelDetailParts, channelId))
    case Failure(HttpError(detail)) => Failure("HTTP Error: " + detail)
    case Failure(e) => Failure(Str(e))
    case Success(response) =>
      match response.items
      case None => Failure(Str(KeyError("items")))
      case Some(items) => if |items| == 0 then Failure(InvalidChannelId) else Success(response)
  }

  // ---------------------------------------------------------------------
  // extract_channel_details
  // ---------------------------------------------------------------------

  /** One row of the channel table. Counts stay the strings the API sent. */
  datatype ChannelRecord = ChannelRecord(
    channelId: string,
    channelName: Option<string>,
    description: Option<string>,
    subscribers: Option<string>,
    totalVideos: Option<string>,
    totalViews: Option<string>,
    createdAt: Option<string>,
    thumbnailUrl: Option<string>)

  /** The url of the "high" thumbnail, or `None` when the thumbnails, the
      "high" entry or its url is missing. */
  function HighThumbnailUrl(snippet: Snippet): Option<string> {
    match snippet.thumbnails
    case None => None
    case Some(sizes) => if "high" in sizes then sizes["high"].url else None
  }

  /** Flattens one channel resource into a row keyed by the id as the caller
      gave it. A missing part leaves its fields `None`; nothing fails. */
  function FlattenChannel(channelId: string, item: Channel): (r: ChannelRecord)
    ensures r.channelId == channelId
    ensures item.snippet.None? ==>
      r.channelName.None? && r.description.None? && r.createdAt.None? && r.thumbnailUrl.None?
    ensures item.statistics.None? ==> r.subscribers.None? && r.totalVideos.None? && r.totalViews.None?
    ensures item.snippet.Some? ==>
      var s := item.snippet.value;
      r.channelName == s.title && r.description == s.description && r.createdAt == s.publishedAt
    ensures item.statistics.Some? ==>
      var st := item.statistics.value;
      r.subscribers == st.subscriberCount && r.totalVideos == st.videoCount && r.totalViews == st.viewCount
    ensures r.thumbnailUrl.Some? ==>
      item.snippet.Some? && item.snippet.value.thumbnails.Some?
      && "high" in item.snippet.value.thumbnails.value
      && item.snippet.value.thumbnails.value["high"].url == r.thumbnailUrl
    ensures (item.snippet.Some? && item.snippet.value.thumbnails.Some?
             && "high" in item.snippet.value.thumbnails.value) ==>
      r.thumbnailUrl == item.snippet.value.thumbnails.value["high"].url
  {
    var snippet := item.snippet.GetOr(EmptySnippet);
    var statistics := item.statistics.GetOr(EmptyChannelStatistics);
    ChannelRecord(
      channelId,
      snippet.title,
      snippet.description,
      statistics.subscriberCount,
      statistics.videoCount,
      statistics.viewCount,
      snippet.publishedAt,
      HighThumbnailUrl(snippet))
  }

  /** What one iteration of the batch contributes for `channelId`: the row
      for the first listed channel when the lookup of the stripped id lists
      one, and nothing when it lists none, lacks `items` or raises. The batch
      issues the same request as the single lookup, on the stripped id: it
      produces a row exactly when `GetChannelDetails` of the stripped id
      succeeds, and the row flattens the first channel of that response. */
  function ChannelRecordOf(yt: YouTube, channelId: string): (r: Option<ChannelRecord>)
    ensures var lookup := GetChannelDetails(yt, Strip(channelId));
      && (r.Some? <==> lookup.Success?)
      && (lookup.Success? ==> r == Some(FlattenChannel(channelId, lookup.value.items.value[0])))
  {
    match yt.channels(ChannelsRequest(ChannelDetailParts, Strip(channelId)))
    case Failure(_) => None
    case Success(response) =>
      match response.items
      case None => None
      case Some(items) => if |items| == 0 then None else Some(FlattenChannel(channelId, items[0]))
  }

  /** The present results of `f` over `xs`, in order: what a loop that
      appends `f(x)` for every `x` and skips `x` when there is none builds. */
  function FilterMap<T, U>(f: T -> Option<U>, xs: seq<T>): seq<U>
    decreases |xs|
  {
    if xs == [] then []
    else FilterMap(f, xs[..|xs| - 1]) + match f(xs[|xs| - 1]) case Some(y) => [y] case None => []
  }

  /** The positions of `xs` at which `f` has a result, in increasing order. */
  function PresentPositions<T, U>(f: T -> Option<U>, xs: seq<T>): seq<nat>
    decreases |xs|
  {
    if xs == [] then []
    else
      var n := |xs| - 1;
      PresentPositions(f, xs[..n]) + if f(xs[n]).Some? then [n] else []
  }

  /** The rows the batch produces for `channelIds`, in input order. */
  function ChannelRecords(yt: YouTube, channelIds: seq<string>): seq<ChannelRecord> {
    FilterMap(RowOf(yt), channelIds)
  }

  /** `ChannelRecordOf` for a fixed client, as a function of the id. */
  function RowOf(yt: YouTube): string -> Option<ChannelRecord> {
    channelId => ChannelRecordOf(yt, channelId)
  }

  /** Looks up every id in turn and appends a row for each one that resolves;
      an id whose lookup is empty or raises is skipped and the batch goes on. */
  method ExtractChannelDetails(yt: YouTube, channelIds: seq<string>) returns (data: seq<ChannelRecord>)
    ensures data == ChannelRecords(yt, channelIds)
  {
    data := [];
    for i := 0 to |channelIds|
      invariant data == FilterMap(RowOf(yt), channelIds[..i])
    {
      var channelId := channelIds[i];
      assert channelIds[..i + 1][..i] == channelIds[..i];
      var response := yt.channels(ChannelsRequest(ChannelDetailParts, Strip(channelId)));
      if response.Failure? || response.value.items.None? {
        continue;
      }
      var items := response.value.items.value;
      if |items| == 0 {
        continue;
      }
      data := data + [FlattenChannel(channelId, items[0])];
    }
    assert channelIds[..|channelIds|] == channelIds;
  }

  /** The batch is an order-preserving filter-map: its k-th row is the result
      at the k-th position that has one, and every position with a result
      contributes its row. */
  lemma {:induction false} FilterMapPositions<T, U>(f: T -> Option<U>, xs: seq<T>)
    ensures var ys, ix := FilterMap(f, xs), PresentPositions(f, xs);
      && |ys| == |ix|
      && (forall k :: 0 <= k < |ix| ==> ix[k] < |xs| && f(xs[ix[k]]) == Some(ys[k]))
      && (forall k, l :: 0 <= k < l < |ix| ==> ix[k] < ix[l])
      && (forall i :: 0 <= i < |xs| ==> (f(xs[i]).Some? <==> i in ix))
  {
    if xs != [] {
      var n := |xs| - 1;
      var init := xs[..n];
      FilterMapPositions(f, init);
      var ys0, ix0 := FilterMap(f, init), PresentPositions(f, init);
      var ys, ix := FilterMap(f, xs), PresentPositions(f, xs);
      assert forall i :: 0 <= i < n ==> init[i] == xs[i];
      if f(xs[n]).Some? {
        assert ys == ys0 + [f(xs[n]).value] && ix == ix0 + [n];
      } else {
        assert ys == ys0 && ix == ix0;
      }
    }
  }

  /** The result is never longer than the input, and is as long exactly when
      every element has a result. */
  lemma {:induction false} FilterMapLength<T, U>(f: T -> Option<U>, xs: seq<T>)
    ensures |FilterMap(f, xs)| <= |xs|
    ensures |FilterMap(f, xs)| == |xs| <==> forall i :: 0 <= i < |xs| ==> f(xs[i]).Some?
  {
    if xs != [] {
      var n := |xs| - 1;
      var init := xs[..n];
      FilterMapLength(f, init);
      assert forall i :: 0 <= i < n ==> init[i] == xs[i];
    }
  }

  /** Splitting the input splits the result: elements are processed
      independently, and a missing result for one never affects the others. */
  lemma {:induction false} FilterMapConcat<T, U>(f: T -> Option<U>, xs: seq<T>, ys: seq<T>)
    ensures FilterMap(f, xs + ys) == FilterMap(f, xs) + FilterMap(f, ys)
    decreases |ys|
  {
    if ys == [] {
      assert xs + ys == xs;
    } else {
      var n := |ys| - 1;
      assert (xs + ys)[..|xs + ys| - 1] == xs + ys[..n];
      FilterMapConcat(f, xs, ys[..n]);
    }
  }

  /** An id padded with whitespace is looked up as the bare id and yields the
      same row, except that the row keeps the id exactly as given. */
  lemma PaddedIdResolvesLikeBareId(yt: YouTube, before: string, channelId: string, after: string)
    requires AllSpace(before) && AllSpace(after)
    ensures var padded := before + channelId + after;
      && (ChannelRecordOf(yt, padded).Some? <==> ChannelRecordOf(yt, channelId).Some?)
      && (ChannelRecordOf(yt, padded).Some? ==>
            ChannelRecordOf(yt, padded).value == ChannelRecordOf(yt, channelId).value.(channelId := padded))
  {
    StripIgnoresPadding(before, channelId, after);
    var padded := before + channelId + after;
    assert Strip(padded) == Strip(channelId);
    var resp := yt.channels(ChannelsRequest(ChannelDetailParts, Strip(channelId)));
    assert yt.channels(ChannelsRequest(ChannelDetailParts, Strip(padded))) == resp;
    if resp.Success? && resp.value.items.Some? && |resp.value.items.value| > 0 {
      var item := resp.value.items.value[0];
      assert ChannelRecordOf(yt, padded) == Some(FlattenChannel(padded, item));
      assert ChannelRecordOf(yt, channelId) == Some(FlattenChannel(channelId, item));
    }
  }

  // ---------------------------------------------------------------------
  // get_all_videos_metadata
  // ---------------------------------------------------------------------

  /** A count as `statistics.get(key, 0)` yields it: the API's string, or the
      integer 0 when the key is absent. */
  datatype Count = Reported(text: string) | Zero

  /** One row of the video table. */
  datatype VideoRecord = VideoRecord(
    videoId: Option<string>,
    title: Option<string>,
    description: Option<string>,
    publishedAt: Option<string>,
    duration: Option<string>,
    views: Count,
    likes: Count,
    comments: Count,
    thumbnailUrl: Option<string>)

  function CountOrZero(count: Option<string>): Count {
    match count
    case Some(text) => Reported(text)
    case None => Zero
  }

  /** Flattens one video resource. Views, likes and comments are 0 exactly when
      the API omits them; every other missing field is `None`; nothing fails. */
  function FlattenVideo(video: Video): (r: VideoRecord)
    ensures r.videoId == video.id
    ensures var st := video.statistics.GetOr(EmptyVideoStatistics);
      && (r.views == Zero <==> st.viewCount.None?) && (r.views.Reported? ==> st.viewCount == Some(r.views.text))
      && (r.likes == Zero <==> st.likeCount.None?) && (r.likes.Reported? ==> st.likeCount == Some(r.likes.text))
      && (r.comments == Zero <==> st.commentCount.None?) && (r.comments.Reported? ==> st.commentCount == Some(r.comments.text))
    ensures video.snippet.None? ==>
      r.title.None? && r.description.None? && r.publishedAt.None? && r.thumbnailUrl.None?
    ensures video.snippet.Some? ==>
      var s := video.snippet.value;
      r.title == s.title && r.description == s.description && r.publishedAt == s.publishedAt
    ensures r.duration == if video.contentDetails.Some? then video.contentDetails.value.duration else None
    ensures r.thumbnailUrl.Some? ==>
      video.snippet.Some? && video.snippet.value.thumbnails.Some?
      && "high" in video.snippet.value.thumbnails.value
      && video.snippet.value.thumbnails.value["high"].url == r.thumbnailUrl
    ensures (video.snippet.Some? && video.snippet.value.thumbnails.Some?
             && "high" in video.snippet.value.thumbnails.value) ==>
      r.thumbnailUrl == video.snippet.value.thumbnails.value["high"].url
  {
    var snippet := video.snippet.GetOr(EmptySnippet);
    var statistics := video.statistics.GetOr(EmptyVideoStatistics);
    var contentDetails := video.contentDetails.GetOr(EmptyVideoContentDetails);
    VideoRecord(
      video.id,
      snippet.title,
      snippet.description,
      snippet.publishedAt,
      contentDetails.duration,
      CountOrZero(statistics.viewCount),
      CountOrZero(statistics.likeCount),
      CountOrZero(statistics.commentCount),
      HighThumbnailUrl(snippet))
  }

  function FlattenVideos(videos: seq<Video>): seq<VideoRecord> {
    seq(|videos|, k requires 0 <= k < |videos| => FlattenVideo(videos[k]))
  }

  /** `item["snippet"]["resourceId"]["videoId"]`, raising `KeyError` for the
      first key that is missing. */
  function VideoIdOf(item: PlaylistItem): Result<string, PyException> {
    match item.snippet
    case None => Failure(KeyError("snippet"))
    case Some(snippet) =>
      match snippet.resourceId
      case None => Failure(KeyError("resourceId"))
      case Some(resourceId) =>
        match resourceId.videoId
        case None => Failure(KeyError("videoId"))
        case Some(videoId) => Success(videoId)
  }

  /** The list comprehension over a page's items: the video ids in playlist
      order, or the exception of the first item that has none. */
  function VideoIds(items: seq<PlaylistItem>): (r: Result<seq<string>, PyException>)
    ensures r.Success? <==> forall k :: 0 <= k < |items| ==> VideoIdOf(items[k]).Success?
    ensures r.Success? ==>
      |r.value| == |items| && forall k :: 0 <= k < |items| ==> r.value[k] == VideoIdOf(items[k]).value
    ensures r.Failure? ==>
      exists k :: 0 <= k < |items| && VideoIdOf(items[k]) == Failure(r.error)
        && forall j :: 0 <= j < k ==> VideoIdOf(items[j]).Success?
    decreases |items|
  {
    if items == [] then Success([])
    else
      match VideoIdOf(items[0])
      case Failure(e) => Failure(e)
      case Success(id) =>
        match VideoIds(items[1..])
        case Failure(e) =>
          ghost var k :| 0 <= k < |items| - 1 && VideoIdOf(items[1..][k]) == Failure(e)
            && forall j :: 0 <= j < k ==> VideoIdOf(items[1..][j]).Success?;
          assert VideoIdOf(items[k + 1]) == Failure(e);
          Failure(e)
        case Success(ids) => Success([id] + ids)
  }

  /** The request for one page of the uploads playlist. */
  function PlaylistPage(playlistId: string, pageToken: Option<string>): PlaylistItemsRequest {
    PlaylistItemsRequest(PlaylistParts, playlistId, PageSize, pageToken)
  }

  /** Python truthiness of `next_page_token`: the loop goes on for a present,
      non-empty token; the falsy tokens are exactly `None` and "". */
  predicate HasMore(token: Option<string>) {
    token.Some? && token.value != ""
  }

  /** The rows one playlist page contributes: its video ids are fetched in one
      detail request and every returned item is flattened, in the order the
      API returns them; or the exception that aborts the page. */
  function PageRecords(yt: YouTube, page: PlaylistItemListResponse): (r: Result<seq<VideoRecord>, PyException>)
    ensures page.items.None? ==> r == Failure(KeyError("items"))
    ensures page.items.Some? && VideoIds(page.items.value).Failure? ==> r == Failure(VideoIds(page.items.value).error)
    ensures r.Success? ==>
      page.items.Some? && VideoIds(page.items.value).Success?
      && var response := yt.videos(VideosRequest(VideoDetailParts, Join(',', VideoIds(page.items.value).value)));
      && response.Success? && response.value.items.Some?
      && r.value == FlattenVideos(response.value.items.value)
    ensures page.items.Some? && VideoIds(page.items.value).Success? ==>
      var response := yt.videos(VideosRequest(VideoDetailParts, Join(',', VideoIds(page.items.value).value)));
      && (response.Failure? ==> r == Failure(response.error))
      && (response.Success? && response.value.items.None? ==> r == Failure(KeyError("items")))
      && (response.Success? && response.value.items.Some? ==> r == Success(FlattenVideos(response.value.items.value)))
  {
    match page.items
    case None => Failure(KeyError("items"))
    case Some(entries) =>
      match VideoIds(entries)
      case Failure(e) => Failure(e)
      case Success(ids) =>
        match yt.videos(VideosRequest(VideoDetailParts, Join(',', ids)))
        case Failure(e) => Failure(e)
        case Success(response) =>
          match response.items
          case None => Failure(KeyError("items"))
          case Some(videos) => Success(FlattenVideos(videos))
  }

  /** What one pass of the pagination loop yields: the page's rows and the
      token it returned. */
  datatype FetchedPage = FetchedPage(rows: seq<VideoRecord>, nextPageToken: Option<string>)

  /** One pass of the pagination loop: the playlist page for `pageToken`, then
      the details of its videos; or the exception that aborts the pass. */
  function FetchPage(yt: YouTube, playlistId: string, pageToken: Option<string>): (r: Result<FetchedPage, PyException>)
    ensures var page := yt.playlistItems(PlaylistPage(playlistId, pageToken));
      && (page.Failure? ==> r == Failure(page.error))
      && (page.Success? ==>
            && (r.Success? <==> PageRecords(yt, page.value).Success?)
            && (r.Success? ==> r.value.rows == PageRecords(yt, page.value).value
                               && r.value.nextPageToken == page.value.nextPageToken)
            && (r.Failure? ==> r.error == PageRecords(yt, page.value).error))
  {
    match yt.playlistItems(PlaylistPage(playlistId, pageToken))
    case Failure(e) => Failure(e)
    case Success(page) =>
      match PageRecords(yt, page)
      case Failure(e) => Failure(e)
      case Success(rows) => Success(FetchedPage(rows, page.nextPageToken))
  }

  /** The loop continues after a pass exactly when the pass succeeded and
      returned a non-empty token. */
  predicate Continues(fetched: Result<FetchedPage, PyException>) {
    fetched.Success? && HasMore(fetched.value.nextPageToken)
  }

  /** The playlist, followed from `pageToken`, stops (runs out of tokens or
      fails) within `pages` passes. */
  predicate EndsWithin(yt: YouTube, playlistId: string, pageToken: Option<string>, pages: nat)
    decreases pages
  {
    var fetched := FetchPage(yt, playlistId, pageToken);
    pages > 0 && (Continues(fetched) ==> EndsWithin(yt, playlistId, fetched.value.nextPageToken, pages - 1))
  }

  /** `prefix` followed by the rows of `rest`, or the failure of `rest`. */
  function Prepend(prefix: seq<VideoRecord>, rest: Result<seq<VideoRecord>, PyException>): Result<seq<VideoRecord>, PyException> {
    match rest
    case Success(rows) => Success(prefix + rows)
    case Failure(e) => Failure(e)
  }

  lemma PrependNothing(rest: Result<seq<VideoRecord>, PyException>)
    ensures Prepend([], rest) == rest
  {
    if rest.Success? { assert [] + rest.value == rest.value; }
  }

  lemma PrependTwice(a: seq<VideoRecord>, b: seq<VideoRecord>, rest: Result<seq<VideoRecord>, PyException>)
    ensures Prepend(a, Prepend(b, rest)) == Prepend(a + b, rest)
  {
    if rest.Success? { assert a + (b + rest.value) == (a + b) + rest.value; }
  }

  /** The rows of every page from `pageToken` on, or the first exception. */
  function VideosFrom(yt: YouTube, playlistId: string, pageToken: Option<string>, pages: nat): (r: Result<seq<VideoRecord>, PyException>)
    requires EndsWithin(yt, playlistId, pageToken, pages)
    ensures FetchPage(yt, playlistId, pageToken).Failure? ==> r.Failure?
    ensures r.Success? ==>
      FetchPage(yt, playlistId, pageToken).Success? && FetchPage(yt, playlistId, pageToken).value.rows <= r.value
    decreases pages
  {
    var fetched := FetchPage(yt, playlistId, pageToken);
    match fetched
    case Failure(e) => Failure(e)
    case Success(FetchedPage(rows, next)) =>
      if HasMore(next) then Prepend(rows, VideosFrom(yt, playlistId, next, pages - 1))
      else Success(rows)
  }

  /** The page token of every playlist request made from `pageToken` on. */
  function PageTokens(yt: YouTube, playlistId: string, pageToken: Option<string>, pages: nat): (r: seq<Option<string>>)
    requires EndsWithin(yt, playlistId, pageToken, pages)
    ensures 1 <= |r| <= pages && r[0] == pageToken
    decreases pages
  {
    var fetched := FetchPage(yt, playlistId, pageToken);
    [pageToken] + if Continues(fetched) then PageTokens(yt, playlistId, fetched.value.nextPageToken, pages - 1) else []
  }

  /** A pass that raises ends the listing with that exception, after one
      playlist request. */
  lemma AbortedPass(yt: YouTube, playlistId: string, pageToken: Option<string>, pages: nat, e: PyException)
    requires EndsWithin(yt, playlistId, pageToken, pages)
    requires FetchPage(yt, playlistId, pageToken) == Failure(e)
    ensures VideosFrom(yt, playlistId, pageToken, pages) == Failure(e)
    ensures PageTokens(yt, playlistId, pageToken, pages) == [pageToken]
  {
  }

  /** The rows of the pages fetched with `tokens`, concatenated in that order. */
  function RowsOfPages(yt: YouTube, playlistId: string, tokens: seq<Option<string>>): seq<VideoRecord>
    requires forall k :: 0 <= k < |tokens| ==> FetchPage(yt, playlistId, tokens[k]).Success?
  {
    if tokens == [] then []
    else FetchPage(yt, playlistId, tokens[0]).value.rows + RowsOfPages(yt, playlistId, tokens[1..])
  }

  /** The request after the pass for `pageToken` carries `nextPageToken`. */
  predicate FollowsOn(yt: YouTube, playlistId: string, pageToken: Option<string>, nextPageToken: Option<string>) {
    var fetched := FetchPage(yt, playlistId, pageToken);
    Continues(fetched) && fetched.value.nextPageToken == nextPageToken
  }

  /** A pass that succeeds with a non-empty token adds its rows in front of
      the rows of the pages after it, and its request in front of theirs. */
  lemma ContinuedPass(yt: YouTube, playlistId: string, pageToken: Option<string>, pages: nat)
    requires EndsWithin(yt, playlistId, pageToken, pages)
    requires Continues(FetchPage(yt, playlistId, pageToken))
    ensures var fetched := FetchPage(yt, playlistId, pageToken).value;
      && EndsWithin(yt, playlistId, fetched.nextPageToken, pages - 1)
      && VideosFrom(yt, playlistId, pageToken, pages)
         == Prepend(fetched.rows, VideosFrom(yt, playlistId, fetched.nextPageToken, pages - 1))
      && PageTokens(yt, playlistId, pageToken, pages)
         == [pageToken] + PageTokens(yt, playlistId, fetched.nextPageToken, pages - 1)
  {
  }

  /** The first playlist request carries the given token (none, for the
      listing); every later one carries the non-empty token of the page
      before it, whose pass succeeded; and there are at most `pages` of them. */
  lemma {:induction false} PageTokensFollowChain(yt: YouTube, playlistId: string, pageToken: Option<string>, pages: nat)
    requires EndsWithin(yt, playlistId, pageToken, pages)
    ensures var ts := PageTokens(yt, playlistId, pageToken, pages);
      && 1 <= |ts| <= pages && ts[0] == pageToken
      && forall k :: 0 < k < |ts| ==> FollowsOn(yt, playlistId, ts[k - 1], ts[k])
    decreases pages
  {
    var fetched := FetchPage(yt, playlistId, pageToken);
    if Continues(fetched) {
      var next := fetched.value.nextPageToken;
      PageTokensFollowChain(yt, playlistId, next, pages - 1);
      var ts, rest := PageTokens(yt, playlistId, pageToken, pages), PageTokens(yt, playlistId, next, pages - 1);
      assert ts == [pageToken] + rest;
      forall k | 0 < k < |ts|
        ensures FollowsOn(yt, playlistId, ts[k - 1], ts[k])
      {
        if k == 1 {
          assert ts[0] == pageToken && ts[1] == rest[0];
        } else {
          assert ts[k - 1] == rest[k - 2] && ts[k] == rest[k - 1];
        }
      }
    }
  }

  /** All or nothing: the listing from `pageToken` succeeds exactly when the
      last pass it makes succeeds, which then returned no further token, and
      its rows are those of every page fetched, in page order; otherwise it
      fails with the exception of that last pass and returns no rows. */
  lemma {:induction false} VideosFromAllOrNothing(yt: YouTube, playlistId: string, pageToken: Option<string>, pages: nat)
    requires EndsWithin(yt, playlistId, pageToken, pages)
    ensures var ts := PageTokens(yt, playlistId, pageToken, pages);
      var result := VideosFrom(yt, playlistId, pageToken, pages);
      var last := FetchPage(yt, playlistId, ts[|ts| - 1]);
      && (result.Success? <==> last.Success?)
      && (last.Success? ==> !HasMore(last.value.nextPageToken))
      && (result.Failure? ==> result.error == last.error)
      && (result.Success? ==>
            (forall k :: 0 <= k < |ts| ==> FetchPage(yt, playlistId, ts[k]).Success?)
            && result.value == RowsOfPages(yt, playlistId, ts))
    decreases pages
  {
    var fetched := FetchPage(yt, playlistId, pageToken);
    var ts := PageTokens(yt, playlistId, pageToken, pages);
    if Continues(fetched) {
      var next := fetched.value.nextPageToken;
      VideosFromAllOrNothing(yt, playlistId, next, pages - 1);
      var rest := PageTokens(yt, playlistId, next, pages - 1);
      assert ts == [pageToken] + rest;
      assert ts[|ts| - 1] == rest[|rest| - 1];
      assert ts[1..] == rest;
    } else {
      assert ts == [pageToken];
      assert ts[1..] == [];
    }
  }

  /** The bound is only a termination argument: any bound the playlist ends
      within gives the same rows and the same requests. */
  lemma {:induction false} BoundIrrelevant(yt: YouTube, playlistId: string, pageToken: Option<string>, pages: nat, pages': nat)
    requires EndsWithin(yt, playlistId, pageToken, pages)
    requires EndsWithin(yt, playlistId, pageToken, pages')
    ensures VideosFrom(yt, playlistId, pageToken, pages) == VideosFrom(yt, playlistId, pageToken, pages')
    ensures PageTokens(yt, playlistId, pageToken, pages) == PageTokens(yt, playlistId, pageToken, pages')
    decreases pages
  {
    var fetched := FetchPage(yt, playlistId, pageToken);
    if Continues(fetched) {
      BoundIrrelevant(yt, playlistId, fetched.value.nextPageToken, pages - 1, pages' - 1);
    }
  }

  /** Step 1: the "uploads" entry of the related playlists of the first listed
      channel, read key by key so that the first missing key raises its
      `KeyError`, with `ValueError("Invalid Channel ID")` when no channel is
      listed. */
  function UploadsPlaylistId(yt: YouTube, channelId: string): (r: Result<string, PyException>)
    ensures var resp := yt.channels(ChannelsRequest(UploadsParts, channelId));
      && (resp.Failure? ==> r == Failure(resp.error))
      && (resp.Success? && resp.value.items == Some([]) ==> r == Failure(ValueError(InvalidChannelId)))
      && (r.Success? <==>
            resp.Success? && resp.value.items.Some? && |resp.value.items.value| > 0
            && var first := resp.value.items.value[0];
            && first.contentDetails.Some? && first.contentDetails.value.relatedPlaylists.Some?
            && "uploads" in first.contentDetails.value.relatedPlaylists.value)
      && (r.Success? ==> r.value == resp.value.items.value[0].contentDetails.value.relatedPlaylists.value["uploads"])
      && (resp.Success? && resp.value.items.None? ==> r == Failure(KeyError("items")))
      && (resp.Success? && resp.value.items.Some? && |resp.value.items.value| > 0 ==>
            var first := resp.value.items.value[0];
            && (first.contentDetails.None? ==> r == Failure(KeyError("contentDetails")))
            && (first.contentDetails.Some? && first.contentDetails.value.relatedPlaylists.None? ==>
                  r == Failure(KeyError("relatedPlaylists")))
            && (first.contentDetails.Some? && first.contentDetails.value.relatedPlaylists.Some?
                && "uploads" !in first.contentDetails.value.relatedPlaylists.value ==>
                  r == Failure(KeyError("uploads"))))
  {
    match yt.channels(ChannelsRequest(UploadsParts, channelId))
    case Failure(e) => Failure(e)
    case Success(response) =>
      match response.items
      case None => Failure(KeyError("items"))
      case Some(items) =>
        if |items| == 0 then Failure(ValueError(InvalidChannelId))
        else
          match items[0].contentDetails
          case None => Failure(KeyError("contentDetails"))
          case Some(details) =>
            match details.relatedPlaylists
            case None => Failure(KeyError("relatedPlaylists"))
            case Some(playlists) =>
              if "uploads" in playlists then Success(playlists["uploads"]) else Failure(KeyError("uploads"))
  }

  /** The message of the `Exception` the function re-raises for `e`. */
  function Reraised(e: PyException): (r: string)
    ensures e.HttpError? ==> r == "YouTube API Error: " + Str(e)
    ensures !e.HttpError? ==> r == Str(e)
    ensures r[|r| - |Str(e)|..] == Str(e)
  {
    match e
    case HttpError(detail) => "YouTube API Error: " + detail
    case _ => Str(e)
  }

  /** The uploads playlist, once resolved, has at most `pages` pages. */
  predicate BoundedPagination(yt: YouTube, channelId: string, pages: nat) {
    var uploads := UploadsPlaylistId(yt, channelId);
    uploads.Success? ==> EndsWithin(yt, uploads.value, None, pages)
  }

  /** Every upload of the channel as rows, or the message of the one exception
      that aborted the listing. */
  function AllVideos(yt: YouTube, channelId: string, pages: nat): (r: Result<seq<VideoRecord>, string>)
    requires BoundedPagination(yt, channelId, pages)
    ensures var uploads := UploadsPlaylistId(yt, channelId);
      && (uploads.Failure? ==> r == Failure(Reraised(uploads.error)))
      && (uploads.Success? ==>
            var listing := VideosFrom(yt, uploads.value, None, pages);
            && (r.Success? <==> listing.Success?)
            && (r.Success? ==> r.value == listing.value)
            && (r.Failure? ==> r.error == Reraised(listing.error)))
  {
    match UploadsPlaylistId(yt, channelId)
    case Failure(e) => Failure(Reraised(e))
    case Success(playlistId) =>
      match VideosFrom(yt, playlistId, None, pages)
      case Failure(e) => Failure(Reraised(e))
      case Success(rows) => Success(rows)
  }

  /** The listing is all or nothing. When step 1 raises (no channel listed
      included) the listing fails with that exception's text. Otherwise it
      succeeds exactly when the last playlist pass succeeds, and then holds
      the rows of every page fetched, in page order; when it fails, the text
      is that of the last pass's exception, prefixed for an `HttpError`. */
  lemma {:induction false} AllVideosAllOrNothing(yt: YouTube, channelId: string, pages: nat)
    requires BoundedPagination(yt, channelId, pages)
    ensures var uploads := UploadsPlaylistId(yt, channelId);
      && (uploads.Failure? ==> AllVideos(yt, channelId, pages) == Failure(Reraised(uploads.error)))
      && (uploads.Success? ==>
            var ts := PageTokens(yt, uploads.value, None, pages);
            var last := FetchPage(yt, uploads.value, ts[|ts| - 1]);
            && (AllVideos(yt, channelId, pages).Success? <==> last.Success?)
            && (last.Failure? ==> AllVideos(yt, channelId, pages) == Failure(Reraised(last.error)))
            && (last.Success? ==>
                  (forall k :: 0 <= k < |ts| ==> FetchPage(yt, uploads.value, ts[k]).Success?)
                  && AllVideos(yt, channelId, pages) == Success(RowsOfPages(yt, uploads.value, ts))))
  {
    var uploads := UploadsPlaylistId(yt, channelId);
    if uploads.Success? {
      VideosFromAllOrNothing(yt, uploads.value, None, pages);
    }
  }

  /** A channel lookup that lists no channel aborts the listing with
      "Invalid Channel ID", before any playlist request. */
  lemma UnknownChannelAborts(yt: YouTube, channelId: string, pages: nat)
    requires yt.channels(ChannelsRequest(UploadsParts, channelId)) == Success(ChannelListResponse(Some([])))
    ensures BoundedPagination(yt, channelId, pages)
    ensures AllVideos(yt, channelId, pages) == Failure(InvalidChannelId)
  {
  }

  /** A channel whose uploads playlist has one empty page, and for which the
      API answers the empty id list with no videos, has no rows: an empty
      table, not an error. */
  lemma NoUploadsGivesEmptyTable(yt: YouTube, channelId: string, playlistId: string)
    requires UploadsPlaylistId(yt, channelId) == Success(playlistId)
    requires yt.playlistItems(PlaylistPage(playlistId, None)) == Success(PlaylistItemListResponse(Some([]), None))
    requires yt.videos(VideosRequest(VideoDetailParts, "")) == Success(VideoListResponse(Some([])))
    ensures BoundedPagination(yt, channelId, 1)
    ensures AllVideos(yt, channelId, 1) == Success([])
  {
    var noIds: seq<string> := [];
    assert VideoIds([]) == Success(noIds) && Join(',', noIds) == "";
    assert FlattenVideos([]) == [];
    assert FetchPage(yt, playlistId, None) == Success(FetchedPage([], None));
  }

  /** The bound given to the listing only witnesses that it stops: any two
      bounds the playlist ends within give the same result. */
  lemma AllVideosBoundIrrelevant(yt: YouTube, channelId: string, pages: nat, pages': nat)
    requires BoundedPagination(yt, channelId, pages) && BoundedPagination(yt, channelId, pages')
    ensures AllVideos(yt, channelId, pages) == AllVideos(yt, channelId, pages')
  {
    var uploads := UploadsPlaylistId(yt, channelId);
    if uploads.Success? {
      BoundIrrelevant(yt, uploads.value, None, pages, pages');
    }
  }

  /** The one detail request of a page names exactly the page's video ids,
      in playlist order, when no id contains a comma (YouTube ids never do). */
  lemma DetailRequestNamesPageVideos(entries: seq<PlaylistItem>)
    requires |entries| > 0 && VideoIds(entries).Success?
    requires forall k :: 0 <= k < |entries| ==> ',' !in VideoIdOf(entries[k]).value
    ensures var ids := Split(Join(',', VideoIds(entries).value), ',');
      |ids| == |entries| && forall k :: 0 <= k < |entries| ==> ids[k] == VideoIdOf(entries[k]).value
  {
    SplitJoin(',', VideoIds(entries).value);
  }

  /** The inner loop of a pass: appends one flattened row per returned
      video, in the order the API returned them. */
  method AppendVideoRows(videos: seq<VideoRecord>, items: seq<Video>) returns (extended: seq<VideoRecord>)
    ensures extended == videos + FlattenVideos(items)
  {
    extended := videos;
    for j := 0 to |items|
      invariant extended == videos + FlattenVideos(items[..j])
    {
      assert FlattenVideos(items[..j + 1]) == FlattenVideos(items[..j]) + [FlattenVideo(items[j])];
      extended := extended + [FlattenVideo(items[j])];
    }
    assert items[..|items|] == items;
  }

  /** The pagination loop over the uploads playlist: fetches its pages one
      after another, each with the token the previous page returned, and
      appends the detail rows of each page until a page comes back without a
      token; the first exception ends it. `pageTokens` records the token of
      every playlist request, in order. */
  method PaginateUploads(yt: YouTube, playlistId: string, ghost maxPages: nat)
    returns (result: Result<seq<VideoRecord>, PyException>, ghost pageTokens: seq<Option<string>>)
    requires EndsWithin(yt, playlistId, None, maxPages)
    ensures result == VideosFrom(yt, playlistId, None, maxPages)
    ensures pageTokens == PageTokens(yt, playlistId, None, maxPages)
  {
    pageTokens := [];
    var videos: seq<VideoRecord> := [];
    var nextPageToken: Option<string> := None;
    ghost var pagesLeft := maxPages;
    PrependNothing(VideosFrom(yt, playlistId, None, maxPages));

    while true
      invariant EndsWithin(yt, playlistId, nextPageToken, pagesLeft)
      invariant Prepend(videos, VideosFrom(yt, playlistId, nextPageToken, pagesLeft))
        == VideosFrom(yt, playlistId, None, maxPages)
      invariant pageTokens + PageTokens(yt, playlistId, nextPageToken, pagesLeft)
        == PageTokens(yt, playlistId, None, maxPages)
      decreases pagesLeft
    {
      ghost var pageToken := nextPageToken;
      pageTokens := pageTokens + [nextPageToken];
      var playlistResponse := yt.playlistItems(PlaylistPage(playlistId, nextPageToken));
      if playlistResponse.Failure? {
        AbortedPass(yt, playlistId, pageToken, pagesLeft, playlistResponse.error);
        return Failure(playlistResponse.error), pageTokens;
      }
      var page := playlistResponse.value;
      if page.items.None? {
        AbortedPass(yt, playlistId, pageToken, pagesLeft, KeyError("items"));
        return Failure(KeyError("items")), pageTokens;
      }
      var videoIds := VideoIds(page.items.value);
      if videoIds.Failure? {
        AbortedPass(yt, playlistId, pageToken, pagesLeft, videoIds.error);
        return Failure(videoIds.error), pageTokens;
      }
      var videoResponse := yt.videos(VideosRequest(VideoDetailParts, Join(',', videoIds.value)));
      if videoResponse.Failure? {
        AbortedPass(yt, playlistId, pageToken, pagesLeft, videoResponse.error);
        return Failure(videoResponse.error), pageTokens;
      }
      if videoResponse.value.items.None? {
        AbortedPass(yt, playlistId, pageToken, pagesLeft, KeyError("items"));
        return Failure(KeyError("items")), pageTokens;
      }
      var items := videoResponse.value.items.value;
      ghost var before := videos;
      videos := AppendVideoRows(videos, items);
      assert FetchPage(yt, playlistId, pageToken) == Success(FetchedPage(FlattenVideos(items), page.nextPageToken));

      nextPageToken := page.nextPageToken;
      if !HasMore(nextPageToken) {
        break;
      }
      ContinuedPass(yt, playlistId, pageToken, pagesLeft);
      PrependTwice(before, FlattenVideos(items), VideosFrom(yt, playlistId, nextPageToken, pagesLeft - 1));
      TokensAssoc(pageTokens[..|pageTokens| - 1], pageToken, PageTokens(yt, playlistId, nextPageToken, pagesLeft - 1));
      pagesLeft := pagesLeft - 1;
    }
    return Success(videos), pageTokens;
  }

  /** Appending the current token, then the remaining ones. */
  lemma TokensAssoc(done: seq<Option<string>>, t: Option<string>, rest: seq<Option<string>>)
    ensures (done + [t]) + rest == done + ([t] + rest)
  {
  }

  /** Resolves the uploads playlist and lists it; any exception on the way
      is re-raised as one `Exception` and no rows are returned. */
  method GetAllVideosMetadata(yt: YouTube, channelId: string, ghost maxPages: nat)
    returns (result: Result<seq<VideoRecord>, string>, ghost pageTokens: seq<Option<string>>)
    requires BoundedPagination(yt, channelId, maxPages)
    ensures result == AllVideos(yt, channelId, maxPages)
    ensures UploadsPlaylistId(yt, channelId).Failure? ==> pageTokens == []
    ensures UploadsPlaylistId(yt, channelId).Success? ==>
      pageTokens == PageTokens(yt, UploadsPlaylistId(yt, channelId).value, None, maxPages)
  {
    var uploads := UploadsPlaylistId(yt, channelId);
    if uploads.Failure? {
      return Failure(Reraised(uploads.error)), [];
    }
    var videos;
    videos, pageTokens := PaginateUploads(yt, uploads.value, maxPages);
    match videos
    case Failure(e) => result := Failure(Reraised(e));
    case Success(rows) => result := Success(rows);
  }
}
