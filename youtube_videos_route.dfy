/** The video list endpoint (app/api/youtube-videos/route.ts): the channel's latest videos from the
    video platform's search API, reshaped, or a one-entry placeholder list when anything goes wrong. */
module YoutubeVideosRoute {
  import opened Wrappers
  import opened SharedTypes
  import opened Server

  datatype Thumbnail = Thumbnail(url: string)

  /** The snippet of a search result as the upstream API returns it (more fields than the page uses). */
  datatype ItemSnippet = ItemSnippet(title: string, description: string, channelTitle: string,
                                     thumbnails: map<string, Thumbnail>, publishedAt: string)

  datatype Item = Item(videoId: string, snippet: ItemSnippet)

  /** The snippet the endpoint passes on: title, thumbnails and publication time. */
  datatype VideoSnippet = VideoSnippet(title: string, thumbnails: map<string, Thumbnail>, publishedAt: string)

  datatype Video = Video(id: string, snippet: VideoSnippet)

  /** The upstream call: unreachable, or a response whose JSON may lack an `items` list. */
  datatype Upstream = Unreachable | Replied(ok: bool, items: Option<seq<Item>>)

  const PlaceholderId := "dQw4w9WgXcQ"

  /** The placeholder list; `nowIso` is the current time as an ISO-8601 string. */
  function Fallback(nowIso: string): (r: seq<Video>)
    ensures |r| == 1 && r[0].id == PlaceholderId && r[0].snippet.publishedAt == nowIso
    ensures "medium" in r[0].snippet.thumbnails
  {
    [Video(PlaceholderId, VideoSnippet("Latest Video Placeholder",
      map["medium" := Thumbnail("https://i.ytimg.com/vi/dQw4w9WgXcQ/mqdefault.jpg")], nowIso))]
  }

  function ToVideo(item: Item): Video {
    Video(item.videoId, VideoSnippet(item.snippet.title, item.snippet.thumbnails, item.snippet.publishedAt))
  }

  /** GET /api/youtube-videos; the upstream is only contacted when an API key is configured. */
  function HandleGet(apiKey: Option<string>, upstream: Upstream, nowIso: string): (r: Response<seq<Video>>)
    ensures r.status == OK
    ensures !Truthy(apiKey) ==> r.body == Fallback(nowIso)
    ensures upstream.Unreachable? || (upstream.Replied? && (!upstream.ok || upstream.items.None?)) ==> r.body == Fallback(nowIso)
    ensures Truthy(apiKey) && upstream.Replied? && upstream.ok && upstream.items.Some? ==>
      var items := upstream.items.value;
      && |r.body| == |items|
      && forall i :: 0 <= i < |items| ==>
           && r.body[i].id == items[i].videoId
           && r.body[i].snippet.title == items[i].snippet.title
           && r.body[i].snippet.thumbnails == items[i].snippet.thumbnails
           && r.body[i].snippet.publishedAt == items[i].snippet.publishedAt
  {
    if !Truthy(apiKey) then Response(OK, Fallback(nowIso))
    else match upstream
      case Replied(true, Some(items)) => Response(OK, seq(|items|, i requires 0 <= i < |items| => ToVideo(items[i])))
      case _ => Response(OK, Fallback(nowIso))
  }
}
