# YouTube channel and video retrieval, modelled in Dafny

This project models the data-retrieval core of a small YouTube dashboard. The
core is the module `data_processing/youtube_api.py`, a client of the YouTube
Data API v3 with three operations:

- `get_channel_details(channel_id)` does one `channels().list` lookup of the
  `snippet,statistics` parts. It returns the raw response when the lookup
  lists at least one channel, and an `{"error": message}` value otherwise. It
  never raises.
- `extract_channel_details(channel_ids)` is a best-effort batch. Each id is
  stripped of surrounding whitespace and looked up. The first listed channel
  is flattened into one table row, which keeps the id as the caller gave it.
  An id whose lookup is empty or raises is skipped.
- `get_all_videos_metadata(channel_id)` first resolves the channel's uploads
  playlist. It then pages through that playlist 50 entries at a time using
  the continuation token. For each page it makes one batched `videos().list`
  request and appends one flattened row per returned video. It stops at the
  first page whose token is absent or empty. Any exception aborts the whole
  listing.

How the model is built:

- The module-level `youtube` client is the parameter `yt` of type
  `YouTubeResources.YouTube`. It holds three total functions, one per request
  kind, from the request to what `execute()` returns or raises.
- Responses are datatypes in which every key the client reads is an
  `Option`. A key read with `d["k"]` that is absent raises `KeyError`, whose
  text is the key in single quotes. A key read with `d.get("k")` that is
  absent gives `None`, or the stated default.
- Exceptions are the `Failure` case of `Wrappers.Result`.
- A pandas `DataFrame` is a `seq` of rows.
- `str.strip()`, `",".join(...)`, and the comma split by which the API reads
  the joined `id` parameter are in `PyText`.

Each operation is proved against a specification function:

- `GetChannelDetails` is itself a function.
- `ExtractChannelDetails` returns `ChannelRecords`, which is the filter-map
  `FilterMap(RowOf(yt), ids)`.
- `GetAllVideosMetadata` returns `AllVideos`. Its ghost output `pageTokens`
  is the list of tokens it sent, and it equals `PageTokens`.

The source's `while True` loop ends only when a page comes back without a token or the pass raises an exception, either from a failing request or from a missing key.
The model therefore takes a ghost bound `maxPages` and requires that the
uploads playlist ends within that many pages (`BoundedPagination`).
`AllVideosBoundIrrelevant` proves that the result does not depend on which
sufficient bound is given.

The model follows the code in these respects:

- Counts stay the strings the API sent; the code does not parse them into
  integers.
- Channel counts that are absent are `None`, not 0. Only video views, likes
  and comments default to the integer 0, modelled as `Count.Zero`.
- No error is classified as not-found, quota or transport. An HTTP 403 and an
  HTTP 404 take the same `except HttpError` branch and get the same prefix.
  Only the text of the error itself tells them apart.
- In the video listing, only an `HttpError` gets a prefix
  ("YouTube API Error: "). Every other exception is re-raised with its bare
  text, "Invalid Channel ID" included.
- A lookup response without an `items` key yields the error text `'items'`
  (from `KeyError`), not "Invalid Channel ID".
- The thumbnail is read only from the "high" size, with no fallback.

## Model

| member | source | states |
|---|---|---|
| `YouTubeApi.GetChannelDetails` | data_processing/youtube_api.py:20-36 | Succeeds exactly when the request succeeds and lists at least one channel, and then returns the response unchanged. An empty `items` gives "Invalid Channel ID" and a missing `items` gives `'items'`. An `HttpError` gives "HTTP Error: " followed by its text, and any other exception gives its own text. There is no third outcome, so it never raises. |
| `YouTubeApi.FlattenChannel` | data_processing/youtube_api.py:55-68 | The row keeps the given id. Each field is the matching snippet or statistics field. A missing snippet or statistics part makes its fields `None` and never fails. The thumbnail URL is the "high" entry's `url` whenever that entry exists, and is absent otherwise. |
| `YouTubeApi.ChannelRecordOf` | data_processing/youtube_api.py:47-70 | One pass of the batch loop makes a row for an id exactly when the single lookup of the stripped id succeeds. The row flattens `items[0]` of that lookup's response and keeps the id as given. An empty or missing `items`, or any exception, makes no row. |
| `YouTubeApi.ExtractChannelDetails` | data_processing/youtube_api.py:42-75 | The loop returns exactly the filter-map of the per-id row over the ids, in input order. Its invariant is that the rows built so far are the filter-map of the ids seen so far. |
| `YouTubeApi.FilterMapPositions` | data_processing/youtube_api.py:45-73 | The k-th row is the row of the k-th input position that resolves. Those positions strictly increase, and a position appears exactly when its lookup gives a row. This makes the batch an order-preserving filter-map. |
| `YouTubeApi.FilterMapLength` | data_processing/youtube_api.py:45-75 | The table never has more rows than there are ids. It has as many rows exactly when every id resolves. |
| `YouTubeApi.FilterMapConcat` | data_processing/youtube_api.py:45-73 | The rows for `xs + ys` are the rows for `xs` followed by the rows for `ys`. A skipped id never affects any other id's row. |
| `YouTubeApi.PaddedIdResolvesLikeBareId` | data_processing/youtube_api.py:47-60 | An id with whitespace around it resolves exactly when the bare id does. Its row is the bare id's row, except that the "Channel ID" field holds the padded id as given. |
| `PyText.Strip` | data_processing/youtube_api.py:49 | The result is the part of the input between its leading and trailing whitespace. It neither starts nor ends with whitespace, and everything removed is whitespace in the sense of Python's `isspace`. |
| `PyText.StrippedUnique` | data_processing/youtube_api.py:49 | Only one string satisfies the strip characterisation. |
| `PyText.StripIdempotent` | data_processing/youtube_api.py:49 | Stripping twice gives the same result as stripping once. |
| `PyText.StripIgnoresPadding` | data_processing/youtube_api.py:49 | Whitespace added on either side of a string does not change what it strips to. |
| `PyText.Join` | data_processing/youtube_api.py:114 | `",".join` of no ids is the empty string. Otherwise its length is the ids' total length plus one separator between each pair of neighbours. |
| `PyText.JoinEnds` | data_processing/youtube_api.py:114 | The joined parameter starts with the first id and ends with the last one. |
| `PyText.SplitJoin` | data_processing/youtube_api.py:114 | Joining a non-empty list of comma-free ids with "," and splitting the result on "," gives back the list, in order. |
| `YouTubeApi.DetailRequestNamesPageVideos` | data_processing/youtube_api.py:106-115 | For a non-empty page whose ids contain no comma, the single detail request names exactly that page's video ids, in playlist order. An empty page sends an empty `id` (see `PyText.Join`). |
| `YouTubeApi.VideoIds` | data_processing/youtube_api.py:106-109 | When every entry has `snippet.resourceId.videoId`, the result is those ids in playlist order, one per entry. Otherwise the result is the `KeyError` of the first entry that lacks one. |
| `YouTubeApi.PageRecords` | data_processing/youtube_api.py:106-132 | A page without `items` raises `KeyError('items')`, and a page entry without a video id raises that entry's `KeyError`. Otherwise the one detail request names the page's joined ids. If it raises, the pass raises the same exception. A detail response without `items` raises `KeyError('items')`. A detail response with `items` gives exactly one flattened row per returned video, in the order the API returned them. Success happens only in that last case. |
| `YouTubeApi.FetchPage` | data_processing/youtube_api.py:99-134 | One pass of the loop. A failing playlist request ends the pass with its exception. Otherwise the pass succeeds exactly when the page's rows do. Its rows are those rows, and its token is the page's `nextPageToken`. |
| `YouTubeApi.FlattenVideo` | data_processing/youtube_api.py:117-132 | Views, likes and comments are the integer 0 exactly when the API omits them, and otherwise are its string. Every other missing field is `None`. The thumbnail URL is the "high" entry's `url` whenever that entry exists, and is absent otherwise. Nothing fails. |
| `YouTubeApi.AppendVideoRows` | data_processing/youtube_api.py:117-132 | The inner loop appends one flattened row per returned video, in the order the API returned them. |
| `YouTubeApi.VideosFrom` | data_processing/youtube_api.py:98-137 | The rows of the pages from a token on. A pass that raises makes the whole listing fail. A successful listing begins with the rows of its first page. |
| `YouTubeApi.PageTokens` | data_processing/youtube_api.py:98-137 | The tokens of the playlist requests from a token on. There is at least one request and at most the page bound. The first request carries the starting token. |
| `YouTubeApi.PaginateUploads` | data_processing/youtube_api.py:95-137 | The `while True` loop returns exactly `VideosFrom` from no token: every page's rows in page order, or the first exception with no rows. The tokens it sends are exactly `PageTokens`. Its invariants say that the rows and tokens gathered so far, followed by what the remaining pages give, make up the whole listing. |
| `YouTubeApi.UploadsPlaylistId` | data_processing/youtube_api.py:84-92 | Step 1. An exception from the request is passed on unchanged. A response whose `items` is empty gives `ValueError("Invalid Channel ID")`. Success comes exactly when `items[0].contentDetails.relatedPlaylists` has an "uploads" entry, and the result is that entry. Otherwise the failure is the `KeyError` of the first missing key in the order `items`, `contentDetails`, `relatedPlaylists`, `uploads`. |
| `YouTubeApi.Reraised` | data_processing/youtube_api.py:141-144 | The text of the re-raised `Exception` always ends with `str(e)`. An `HttpError` gets the prefix "YouTube API Error: ", and every other exception keeps its bare text. |
| `YouTubeApi.AllVideos` | data_processing/youtube_api.py:81-144 | The specification of the listing. A step-1 exception gives its re-raised text. Otherwise the listing succeeds exactly when the pagination does, with the same rows, and on failure carries the re-raised text of the pagination's exception. |
| `YouTubeApi.GetAllVideosMetadata` | data_processing/youtube_api.py:81-144 | Returns exactly `AllVideos`. A failure of step 1 is re-raised before any playlist request is sent. Otherwise the playlist requests are exactly `PageTokens` of the uploads playlist, and an exception from the loop is re-raised with the same text rules as step 1. |
| `YouTubeApi.PageTokensFollowChain` | data_processing/youtube_api.py:95-137 | The first playlist request has no token. Every later request carries the `nextPageToken` of the page before it, that token is truthy (neither `None` nor ""), and that page's pass succeeded. So the loop never stops on a truthy token. There are at most as many requests as the bound on pages. |
| `YouTubeApi.VideosFromAllOrNothing` | data_processing/youtube_api.py:98-137 | The listing succeeds exactly when its last pass succeeds, and that last page's token is falsy (`None` or ""), so the loop stops exactly on a falsy token or an exception. On success it holds the rows of every fetched page, concatenated in page order. On failure it carries the last pass's exception and no rows. |
| `YouTubeApi.AllVideosAllOrNothing` | data_processing/youtube_api.py:81-144 | If step 1 raises (a channel that lists nothing included), the listing fails with that exception's text. Otherwise it succeeds exactly when the last playlist pass does, with every page's rows in order. A failure carries the re-raised text of the last pass's exception, and a partial list is never returned. |
| `YouTubeApi.BoundIrrelevant` | data_processing/youtube_api.py:98-137 | Any two bounds that the playlist ends within give the same rows and the same requests. |
| `YouTubeApi.AllVideosBoundIrrelevant` | data_processing/youtube_api.py:98-137 | The listing's result does not depend on which sufficient page bound is given. |
| `YouTubeApi.UnknownChannelAborts` | data_processing/youtube_api.py:84-90 | A channel lookup that lists no channel aborts the listing with "Invalid Channel ID". |
| `YouTubeApi.NoUploadsGivesEmptyTable` | data_processing/youtube_api.py:94-139 | Take a channel whose uploads playlist has one empty page and no token, and for which the empty detail request returns no videos. Its listing is an empty table, not an error. |

## Left out

- Loading `YOUTUBE_API_KEY` from `.gitenv` or the environment, and building the client (data_processing/youtube_api.py:7-14): the model takes an already built client `yt`.
- The HTTP transport and `execute()`: each request kind is an oracle function. The same request always gets the same response, with no clock, retry or network state.
- The text of `str(HttpError)`: it is an opaque string carried in `HttpError.detail`.
- Exception classes other than `HttpError`, `KeyError` and the client's own `ValueError`: they are one `OtherError` carrying `str(e)`, which is all that the three functions use.
- Responses whose JSON values have the wrong type (a `null` snippet, a non-list `items`, a non-string id): only missing keys are modelled.
- The pandas `DataFrame` construction: rows are returned as a `seq`, with no column schema for an empty table.
- `app/main.py`, the Streamlit page that calls `get_channel_details` and displays the result: it has no logic of its own.
- YouTubeApi.GetAllVideosMetadata: does not model a playlist whose tokens never run out, on which the source loops forever. The precondition `BoundedPagination` excludes it.
- YouTubeApi.PaginateUploads: for the same reason, it requires `EndsWithin` of the uploads playlist from no token, so the never-ending `while True` loop is not modelled.
