/**
 * The shapes of the YouTube Data API v3 responses that the client reads, the
 * exceptions a call can raise, the three request kinds it issues, and the
 * client itself as an oracle from request to response.
 *
 * A JSON key the client reads is an `Option` field: `None` when the key is
 * absent. Only the keys the client reads are present.
 */
module YouTubeResources {
  import opened Wrappers

  /** One entry of a `thumbnails` object, e.g. under the key "high". */
  datatype Thumbnail = Thumbnail(url: Option<string>)

  /** The `snippet` part of a channel or of a video. */
  datatype Snippet = Snippet(
    title: Option<string>,
    description: Option<string>,
    publishedAt: Option<string>,
    thumbnails: Option<map<string, Thumbnail>>)

  /** What `item.get("snippet", {})` yields for an item without a snippet. */
  const EmptySnippet := Snippet(None, None, None, None)

  /** The `statistics` part of a channel; the API sends counts as strings. */
  datatype ChannelStatistics = ChannelStatistics(
    subscriberCount: Option<string>,
    videoCount: Option<string>,
    viewCount: Option<string>)

  const EmptyChannelStatistics := ChannelStatistics(None, None, None)

  /** The `contentDetails` part of a channel; `relatedPlaylists` maps a role
      ("uploads", "likes", ...) to a playlist id. */
  datatype ChannelContentDetails = ChannelContentDetails(relatedPlaylists: Option<map<string, string>>)

  /** One channel resource. */
  datatype Channel = Channel(
    snippet: Option<Snippet>,
    statistics: Option<ChannelStatistics>,
    contentDetails: Option<ChannelContentDetails>)

  /** The response of `channels().list(...)`. */
  datatype ChannelListResponse = ChannelListResponse(items: Option<seq<Channel>>)

  datatype ResourceId = ResourceId(videoId: Option<string>)
  datatype PlaylistItemSnippet = PlaylistItemSnippet(resourceId: Option<ResourceId>)
  /** One entry of a playlist page. */
  datatype PlaylistItem = PlaylistItem(snippet: Option<PlaylistItemSnippet>)

  /** One page of `playlistItems().list(...)`. */
  datatype PlaylistItemListResponse = PlaylistItemListResponse(
    items: Option<seq<PlaylistItem>>,
    nextPageToken: Option<string>)

  /** The `statistics` part of a video. */
  datatype VideoStatistics = VideoStatistics(
    viewCount: Option<string>,
    likeCount: Option<string>,
    commentCount: Option<string>)

  const EmptyVideoStatistics := VideoStatistics(None, None, None)

  /** The `contentDetails` part of a video; the duration is an ISO 8601 string. */
  datatype VideoContentDetails = VideoContentDetails(duration: Option<string>)

  const EmptyVideoContentDetails := VideoContentDetails(None)

  /** One video resource. */
  datatype Video = Video(
    id: Option<string>,
    snippet: Option<Snippet>,
    statistics: Option<VideoStatistics>,
    contentDetails: Option<VideoContentDetails>)

  /** The response of `videos().list(...)`. */
  datatype VideoListResponse = VideoListResponse(items: Option<seq<Video>>)

  /** The exceptions the client distinguishes or produces: `HttpError` from the
      API library (its text is opaque), `KeyError` from subscripting a response
      without the key, `ValueError` raised by the client itself, and any other
      exception with its message. */
  datatype PyException =
    | HttpError(detail: string)
    | KeyError(key: string)
    | ValueError(message: string)
    | OtherError(message: string)

  /** Python's `str(e)`; for a `KeyError` it is the key in single quotes. */
  function Str(e: PyException): string {
    match e
    case HttpError(detail) => detail
    case KeyError(key) => "'" + key + "'"
    case ValueError(message) => message
    case OtherError(message) => message
  }

  /** `channels().list(part=..., id=...)`. */
  datatype ChannelsRequest = ChannelsRequest(part: string, id: string)

  /** `playlistItems().list(part=..., playlistId=..., maxResults=..., pageToken=...)`;
      a `pageToken` of `None` is the first page. */
  datatype PlaylistItemsRequest = PlaylistItemsRequest(
    part: string,
    playlistId: string,
    maxResults: nat,
    pageToken: Option<string>)

  /** `videos().list(part=..., id=...)`, `id` being a comma-separated id list. */
  datatype VideosRequest = VideosRequest(part: string, id: string)

  /** The API client: what `request.execute()` returns or raises for each request. */
  datatype YouTube = YouTube(
    channels: ChannelsRequest -> Result<ChannelListResponse, PyException>,
    playlistItems: PlaylistItemsRequest -> Result<PlaylistItemListResponse, PyException>,
    videos: VideosRequest -> Result<VideoListResponse, PyException>)
}
