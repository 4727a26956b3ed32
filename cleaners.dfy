/**
 The entity cleaners (`DataCleaners`): each projects a loosely shaped YouTube API record
 onto a compact record, returning `null` for a falsy input. Descriptions are truncated,
 tags capped, count strings parsed, and the two shapes of a search hit's `id` and of a
 transcript are reconciled. The list cleaners map a cleaner over an array and drop the
 `null`s.
 */
module Cleaners {
  import opened Wrappers
  import opened JsValue
  import opened JsNumber
  import opened JsArray

  /** The longest description kept for a video or a channel */
  const LongDescription: nat := 300
  /** The longest description kept for a search hit or a playlist */
  const ShortDescription: nat := 200
  /** The most tags kept for a video */
  const MaxTags: nat := 5

  datatype Video = Video(
    id: Json, title: Json, channel: Json, channelId: Json, published: Json,
    description: Json, duration: Json, views: Json, likes: Json, comments: Json, tags: Json)

  datatype SearchResult = SearchResult(
    id: Json, title: Json, channel: Json, channelId: Json, published: Json, description: Json)

  datatype Channel = Channel(
    id: Json, title: Json, description: Json, customUrl: Json, published: Json, country: Json,
    subscribers: Json, videos: Json, views: Json)

  datatype Playlist = Playlist(
    id: Json, title: Json, channel: Json, channelId: Json, description: Json, published: Json,
    itemCount: Json)

  datatype PlaylistItem = PlaylistItem(
    id: Json, title: Json, channel: Json, position: Json, published: Json)

  datatype Segment = Segment(text: Json, start: Json, duration: Json)

  /** A cleaned transcript; `language` is `None` when the record has no `language` key */
  datatype Transcript = Transcript(videoId: Json, language: Option<Json>, segments: seq<Segment>)

  // ---------------------------------------------------------------------------------
  // Counts

  /** `src ? parseInt(src) : undefined` */
  function Count(src: Json): (r: Outcome<Json>)
    ensures r.Threw? <==> ConversionThrows(src)
    ensures r.Threw? ==> r.error == NoPrimitiveValue
    ensures r.Returned? ==> IsCount(src, r.value)
  {
    if Truthy(src) then ParseInt(src) else Returned(Undefined)
  }

  /** `out` is the count derived from the API's value `src`: present exactly when `src`
      is truthy (so `"0"` counts and `""` does not), and then parsed */
  predicate IsCount(src: Json, out: Json) {
    && (out.Undefined? <==> !Truthy(src))
    && (Truthy(src) ==> ParseInt(src) == Returned(out))
  }

  /** Three counts parsed in turn, as an object literal does with three `Count` fields:
      the first that cannot be converted throws, and all three errors are alike */
  function Counts(a: Json, b: Json, c: Json): (r: Outcome<(Json, Json, Json)>)
    ensures r.Threw? <==> ConversionThrows(a) || ConversionThrows(b) || ConversionThrows(c)
    ensures r.Threw? ==> r.error == NoPrimitiveValue
    ensures r.Returned? ==> IsCount(a, r.value.0) && IsCount(b, r.value.1) && IsCount(c, r.value.2)
  {
    match Count(a)
    case Threw(e) => Threw(e)
    case Returned(x) =>
      match Count(b)
      case Threw(e) => Threw(e)
      case Returned(y) =>
        match Count(c)
        case Threw(e) => Threw(e)
        case Returned(z) => Returned((x, y, z))
  }

  /** A count whose conversion to a string throws is an object or an array, so it is
      truthy and `parseInt` is reached */
  lemma ConversionThrowsIsTruthy(src: Json)
    requires ConversionThrows(src)
    ensures Truthy(src) && Count(src) == Threw(NoPrimitiveValue)
  {
  }

  /** A count given as the decimal numeral of `n`, even `"0"`, is kept as the number `n`;
      an empty count string gives no count */
  lemma {:induction false} DecimalCountIsKept(n: nat, out: Json)
    ensures IsCount(Str(DecimalString(n)), out) <==> out == Num(n as real)
    ensures IsCount(Str(""), out) ==> out == Undefined
  {
    assert DecimalString(n) + [] == DecimalString(n);
    ParseIntReadsDecimal(n, []);
  }

  // ---------------------------------------------------------------------------------
  // cleanVideo

  /** The fields of a cleaned video, read from the API's video record */
  predicate VideoSelects(video: Json, r: Video) {
    && r.id == At(video, ["id"])
    && r.title == At(video, ["snippet", "title"])
    && r.channel == At(video, ["snippet", "channelTitle"])
    && r.channelId == At(video, ["snippet", "channelId"])
    && r.published == At(video, ["snippet", "publishedAt"])
    && IsTruncation(At(video, ["snippet", "description"]), r.description, LongDescription)
    && r.duration == At(video, ["contentDetails", "duration"])
    && IsCount(At(video, ["statistics", "viewCount"]), r.views)
    && IsCount(At(video, ["statistics", "likeCount"]), r.likes)
    && IsCount(At(video, ["statistics", "commentCount"]), r.comments)
    && IsCapped(At(video, ["snippet", "tags"]), r.tags, MaxTags)
  }

  /** Some count of a video cannot be converted to a string */
  predicate VideoCountFaults(video: Json) {
    || ConversionThrows(At(video, ["statistics", "viewCount"]))
    || ConversionThrows(At(video, ["statistics", "likeCount"]))
    || ConversionThrows(At(video, ["statistics", "commentCount"]))
  }

  /** A video record on which `cleanVideo` throws: a present description that is not a
      string, a count that cannot be converted, or present tags that are neither an array
      nor a string */
  predicate VideoFaults(video: Json) {
    || !HasSubstring(At(video, ["snippet", "description"]))
    || VideoCountFaults(video)
    || !HasSlice(At(video, ["snippet", "tags"]))
  }

  /** The object literal of `cleanVideo`, once its three kinds of computed field (the
      description, the counts and the tags) have been evaluated without throwing */
  function VideoLiteral(video: Json, description: Json, counts: (Json, Json, Json), tags: Json): (r: Video)
    requires Truthy(video)
    requires IsTruncation(At(video, ["snippet", "description"]), description, LongDescription)
    requires IsCount(At(video, ["statistics", "viewCount"]), counts.0)
    requires IsCount(At(video, ["statistics", "likeCount"]), counts.1)
    requires IsCount(At(video, ["statistics", "commentCount"]), counts.2)
    requires IsCapped(At(video, ["snippet", "tags"]), tags, MaxTags)
    ensures VideoSelects(video, r)
  {
    ReadThroughDefault(video, "snippet");
    ReadThroughDefault(video, "contentDetails");
    ReadIsPath(video, "id");
    var snippet := Or(Get(video, "snippet"), EmptyObject);
    var content := Or(Get(video, "contentDetails"), EmptyObject);
    Video(
      id := Get(video, "id"),
      title := Get(snippet, "title"),
      channel := Get(snippet, "channelTitle"),
      channelId := Get(snippet, "channelId"),
      published := Get(snippet, "publishedAt"),
      description := description,
      duration := Get(content, "duration"),
      views := counts.0,
      likes := counts.1,
      comments := counts.2,
      tags := tags)
  }

  /** `DataCleaners.cleanVideo`: the fields are evaluated in the order of the object
      literal, so the description is checked before the counts and the counts before the
      tags */
  function CleanVideo(video: Json): (r: Outcome<Option<Video>>)
    ensures r == Returned(None) <==> !Truthy(video)
    ensures r.Threw? <==> Truthy(video) && VideoFaults(video)
    ensures r.Threw? ==>
      r.error == if !HasSubstring(At(video, ["snippet", "description"])) then NotAFunction("substring")
                 else if VideoCountFaults(video) then NoPrimitiveValue
                 else NotAFunction("slice")
    ensures r.Returned? && r.value.Some? ==> VideoSelects(video, r.value.value)
  {
    if !Truthy(video) then Returned(None)
    else
      ReadThroughDefault(video, "snippet");
      ReadThroughDefault(video, "statistics");
      var snippet := Or(Get(video, "snippet"), EmptyObject);
      var stats := Or(Get(video, "statistics"), EmptyObject);
      match OptionalSubstring(Get(snippet, "description"), LongDescription)
      case Threw(e) => Threw(e)
      case Returned(description) =>
        match Counts(Get(stats, "viewCount"), Get(stats, "likeCount"), Get(stats, "commentCount"))
        case Threw(e) => Threw(e)
        case Returned(counts) =>
        match OptionalSlice(Get(snippet, "tags"), MaxTags)
        case Threw(e) => Threw(e)
        case Returned(tags) =>
          Returned(Some(VideoLiteral(video, description, counts, tags)))
  }

  // ---------------------------------------------------------------------------------
  // cleanSearchResult

  /** The fields of a cleaned search hit. Its `id` is `id.videoId` when that is truthy and
      otherwise the whole `id` (a string, or the id record of a channel or playlist hit). */
  predicate SearchResultSelects(item: Json, r: SearchResult) {
    && (Truthy(At(item, ["id", "videoId"])) ==> r.id == At(item, ["id", "videoId"]))
    && (!Truthy(At(item, ["id", "videoId"])) ==> r.id == At(item, ["id"]))
    && r.title == At(item, ["snippet", "title"])
    && r.channel == At(item, ["snippet", "channelTitle"])
    && r.channelId == At(item, ["snippet", "channelId"])
    && r.published == At(item, ["snippet", "publishedAt"])
    && IsTruncation(At(item, ["snippet", "description"]), r.description, ShortDescription)
  }

  /** `DataCleaners.cleanSearchResult` */
  function CleanSearchResult(item: Json): (r: Outcome<Option<SearchResult>>)
    ensures r == Returned(None) <==> !Truthy(item)
    ensures r.Threw? <==> Truthy(item) && !HasSubstring(At(item, ["snippet", "description"]))
    ensures r.Threw? ==> r.error == NotAFunction("substring")
    ensures r.Returned? && r.value.Some? ==> SearchResultSelects(item, r.value.value)
  {
    if !Truthy(item) then Returned(None)
    else
      ReadThroughDefault(item, "snippet");
      ReadIsPath(item, "id");
      PathSplit(item, "id", "videoId");
      var snippet := Or(Get(item, "snippet"), EmptyObject);
      match OptionalSubstring(Get(snippet, "description"), ShortDescription)
      case Threw(e) => Threw(e)
      case Returned(description) =>
        Returned(Some(SearchResult(
          id := Or(OptionalGet(Get(item, "id"), "videoId"), Get(item, "id")),
          title := Get(snippet, "title"),
          channel := Get(snippet, "channelTitle"),
          channelId := Get(snippet, "channelId"),
          published := Get(snippet, "publishedAt"),
          description := description)))
  }

  /** A video hit's id record gives its video id; a hit whose id is already a string keeps
      that string, since a string has no `videoId` */
  lemma SearchIdShapes(item: Json, s: string)
    requires CleanSearchResult(item).Returned? && CleanSearchResult(item).value.Some?
    ensures At(item, ["id", "videoId"]) == Str(s) && s != [] ==>
      CleanSearchResult(item).value.value.id == Str(s)
    ensures At(item, ["id"]) == Str(s) ==> CleanSearchResult(item).value.value.id == Str(s)
  {
  }

  // ---------------------------------------------------------------------------------
  // cleanChannel

  /** The fields of a cleaned channel */
  predicate ChannelSelects(channel: Json, r: Channel) {
    && r.id == At(channel, ["id"])
    && r.title == At(channel, ["snippet", "title"])
    && IsTruncation(At(channel, ["snippet", "description"]), r.description, LongDescription)
    && r.customUrl == At(channel, ["snippet", "customUrl"])
    && r.published == At(channel, ["snippet", "publishedAt"])
    && r.country == At(channel, ["snippet", "country"])
    && IsCount(At(channel, ["statistics", "subscriberCount"]), r.subscribers)
    && IsCount(At(channel, ["statistics", "videoCount"]), r.videos)
    && IsCount(At(channel, ["statistics", "viewCount"]), r.views)
  }

  /** Some count of a channel cannot be converted to a string */
  predicate ChannelCountFaults(channel: Json) {
    || ConversionThrows(At(channel, ["statistics", "subscriberCount"]))
    || ConversionThrows(At(channel, ["statistics", "videoCount"]))
    || ConversionThrows(At(channel, ["statistics", "viewCount"]))
  }

  /** `DataCleaners.cleanChannel`: the description is checked before the counts */
  function CleanChannel(channel: Json): (r: Outcome<Option<Channel>>)
    ensures r == Returned(None) <==> !Truthy(channel)
    ensures r.Threw? <==>
      Truthy(channel) && (!HasSubstring(At(channel, ["snippet", "description"])) || ChannelCountFaults(channel))
    ensures r.Threw? ==>
      r.error == if !HasSubstring(At(channel, ["snippet", "description"])) then NotAFunction("substring")
                 else NoPrimitiveValue
    ensures r.Returned? && r.value.Some? ==> ChannelSelects(channel, r.value.value)
  {
    if !Truthy(channel) then Returned(None)
    else
      ReadThroughDefault(channel, "snippet");
      ReadThroughDefault(channel, "statistics");
      ReadIsPath(channel, "id");
      var snippet := Or(Get(channel, "snippet"), EmptyObject);
      var stats := Or(Get(channel, "statistics"), EmptyObject);
      match OptionalSubstring(Get(snippet, "description"), LongDescription)
      case Threw(e) => Threw(e)
      case Returned(description) =>
        match Counts(Get(stats, "subscriberCount"), Get(stats, "videoCount"), Get(stats, "viewCount"))
        case Threw(e) => Threw(e)
        case Returned(counts) =>
        Returned(Some(Channel(
          id := Get(channel, "id"),
          title := Get(snippet, "title"),
          description := description,
          customUrl := Get(snippet, "customUrl"),
          published := Get(snippet, "publishedAt"),
          country := Get(snippet, "country"),
          subscribers := counts.0,
          videos := counts.1,
          views := counts.2)))
  }

  // ---------------------------------------------------------------------------------
  // cleanPlaylist

  /** The fields of a cleaned playlist */
  predicate PlaylistSelects(playlist: Json, r: Playlist) {
    && r.id == At(playlist, ["id"])
    && r.title == At(playlist, ["snippet", "title"])
    && r.channel == At(playlist, ["snippet", "channelTitle"])
    && r.channelId == At(playlist, ["snippet", "channelId"])
    && IsTruncation(At(playlist, ["snippet", "description"]), r.description, ShortDescription)
    && r.published == At(playlist, ["snippet", "publishedAt"])
    && r.itemCount == At(playlist, ["contentDetails", "itemCount"])
  }

  /** `DataCleaners.cleanPlaylist` */
  function CleanPlaylist(playlist: Json): (r: Outcome<Option<Playlist>>)
    ensures r == Returned(None) <==> !Truthy(playlist)
    ensures r.Threw? <==> Truthy(playlist) && !HasSubstring(At(playlist, ["snippet", "description"]))
    ensures r.Threw? ==> r.error == NotAFunction("substring")
    ensures r.Returned? && r.value.Some? ==> PlaylistSelects(playlist, r.value.value)
  {
    if !Truthy(playlist) then Returned(None)
    else
      ReadThroughDefault(playlist, "snippet");
      ReadThroughDefault(playlist, "contentDetails");
      ReadIsPath(playlist, "id");
      var snippet := Or(Get(playlist, "snippet"), EmptyObject);
      var content := Or(Get(playlist, "contentDetails"), EmptyObject);
      match OptionalSubstring(Get(snippet, "description"), ShortDescription)
      case Threw(e) => Threw(e)
      case Returned(description) =>
        Returned(Some(Playlist(
          id := Get(playlist, "id"),
          title := Get(snippet, "title"),
          channel := Get(snippet, "channelTitle"),
          channelId := Get(snippet, "channelId"),
          description := description,
          published := Get(snippet, "publishedAt"),
          itemCount := Get(content, "itemCount"))))
  }

  // ---------------------------------------------------------------------------------
  // cleanPlaylistItem

  /** The fields of a cleaned playlist item; its id is the video id of the item's resource */
  predicate PlaylistItemSelects(item: Json, r: PlaylistItem) {
    && r.id == At(item, ["snippet", "resourceId", "videoId"])
    && r.title == At(item, ["snippet", "title"])
    && r.channel == At(item, ["snippet", "videoOwnerChannelTitle"])
    && r.position == At(item, ["snippet", "position"])
    && r.published == At(item, ["snippet", "publishedAt"])
  }

  /** `DataCleaners.cleanPlaylistItem`: it never throws */
  function CleanPlaylistItem(item: Json): (r: Outcome<Option<PlaylistItem>>)
    ensures r.Returned?
    ensures r.value.None? <==> !Truthy(item)
    ensures r.value.Some? ==> PlaylistItemSelects(item, r.value.value)
  {
    if !Truthy(item) then Returned(None)
    else
      ReadThroughDefault(item, "snippet");
      AtSnoc(item, ["snippet", "resourceId"], "videoId");
      assert ["snippet", "resourceId"] + ["videoId"] == ["snippet", "resourceId", "videoId"];
      var snippet := Or(Get(item, "snippet"), EmptyObject);
      Returned(Some(PlaylistItem(
        id := OptionalGet(Get(snippet, "resourceId"), "videoId"),
        title := Get(snippet, "title"),
        channel := Get(snippet, "videoOwnerChannelTitle"),
        position := Get(snippet, "position"),
        published := Get(snippet, "publishedAt"))))
  }

  // ---------------------------------------------------------------------------------
  // cleanTranscript

  /** The fields of a cleaned transcript segment: the start is `offset` unless that is
      null or undefined (an offset of 0 is kept), and `start` otherwise */
  predicate SegmentSelects(s: Json, r: Segment) {
    && r.text == At(s, ["text"])
    && (!Nullish(At(s, ["offset"])) ==> r.start == At(s, ["offset"]))
    && (Nullish(At(s, ["offset"])) ==> r.start == At(s, ["start"]))
    && r.duration == At(s, ["duration"])
  }

  /** The callback that cleans one transcript segment: it copies the text and the duration,
      takes the start time from `s.offset ?? s.start`, and throws when the segment itself is
      null or undefined, since it reads the segment's text first */
  function CleanSegment(s: Json): (r: Outcome<Segment>)
    ensures r.Threw? <==> Nullish(s)
    ensures r.Threw? ==> r.error == ReadOfNullish("text")
    ensures r.Returned? ==> SegmentSelects(s, r.value)
  {
    match Read(s, "text")
    case Threw(e) => Threw(e)
    case Returned(text) =>
      ReadIsPath(s, "text");
      ReadIsPath(s, "offset");
      ReadIsPath(s, "start");
      ReadIsPath(s, "duration");
      Returned(Segment(text, Coalesce(Get(s, "offset"), Get(s, "start")), Get(s, "duration")))
  }

  /** An offset of 0 is a start time of 0, whatever `start` says: `??` keeps it where
      `||` would have fallen through to `start` */
  lemma ZeroOffsetIsKept(s: Json)
    requires At(s, ["offset"]) == Num(0.0)
    ensures CleanSegment(s).Returned? && CleanSegment(s).value.start == Num(0.0)
    ensures Or(At(s, ["offset"]), At(s, ["start"])) == At(s, ["start"])
  {
  }

  /** The value a transcript's segments are taken from: the `transcript` field when it is
      truthy, else the record itself (a bare array of segments) */
  function SegmentSource(result: Json): Json {
    if Truthy(At(result, ["transcript"])) then At(result, ["transcript"]) else result
  }

  /** `DataCleaners.cleanTranscript` */
  function CleanTranscript(result: Json): (r: Outcome<Option<Transcript>>)
    ensures r == Returned(None) <==> !Truthy(result)
    ensures Truthy(result) && !SegmentSource(result).Arr? ==>
      r == Returned(Some(Transcript(At(result, ["videoId"]), None, [])))
    ensures Truthy(result) && SegmentSource(result).Arr? ==>
      var xs := SegmentSource(result).elems;
      && (r.Threw? <==> exists i :: 0 <= i < |xs| && Nullish(xs[i]))
      && (r.Threw? ==> r.error == ReadOfNullish("text"))
      && (r.Returned? ==>
            && r.value.Some?
            && r.value.value.videoId == At(result, ["videoId"])
            && r.value.value.language == Some(At(result, ["language"]))
            && |r.value.value.segments| == |xs|
            && forall i :: 0 <= i < |xs| ==> SegmentSelects(xs[i], r.value.value.segments[i]))
  {
    if !Truthy(result) then Returned(None)
    else
      ReadIsPath(result, "transcript");
      ReadIsPath(result, "videoId");
      ReadIsPath(result, "language");
      var segments := Or(Get(result, "transcript"), result);
      if !segments.Arr? then Returned(Some(Transcript(Get(result, "videoId"), None, [])))
      else
        match MapOutcome(segments.elems, CleanSegment)
        case Threw(e) => Threw(e)
        case Returned(cleaned) =>
          Returned(Some(Transcript(Get(result, "videoId"), Some(Get(result, "language")), cleaned)))
  }

  /** The two shapes a transcript arrives in, a bare array of segments and a record that
      wraps the array in its `transcript` field, give the same segments */
  lemma WrappedAndBareAgree(xs: seq<Json>, wrapper: Json)
    requires wrapper.Obj? && At(wrapper, ["transcript"]) == Arr(xs)
    ensures CleanTranscript(wrapper).Threw? == CleanTranscript(Arr(xs)).Threw?
    ensures CleanTranscript(wrapper).Returned? ==>
      && CleanTranscript(wrapper).value.Some? && CleanTranscript(Arr(xs)).value.Some?
      && CleanTranscript(wrapper).value.value.segments == CleanTranscript(Arr(xs)).value.value.segments
  {
  }

  // ---------------------------------------------------------------------------------
  // The list cleaners

  /** Each entity cleaner returns `null` exactly for a falsy input */
  lemma CleanersNullExactlyOnFalsy()
    ensures NullExactlyOnFalsy(CleanVideo)
    ensures NullExactlyOnFalsy(CleanSearchResult)
    ensures NullExactlyOnFalsy(CleanPlaylistItem)
  {
  }

  /** `DataCleaners.cleanVideoList` */
  function CleanVideoList(videos: Json): (r: Outcome<seq<Video>>)
    ensures !videos.Arr? ==> r == Returned([])
    ensures videos.Arr? ==>
      (r.Threw? <==> exists i :: 0 <= i < |videos.elems| && CleanVideo(videos.elems[i]).Threw?)
    ensures videos.Arr? && r.Threw? ==>
      exists i :: 0 <= i < |videos.elems| && CleanVideo(videos.elems[i]) == Threw(r.error) &&
        forall k :: 0 <= k < i ==> CleanVideo(videos.elems[k]).Returned?
    ensures videos.Arr? && r.Returned? ==>
      |r.value| == |TruthyOnly(videos.elems)| <= |videos.elems| &&
      forall j :: 0 <= j < |r.value| ==>
        CleanVideo(TruthyOnly(videos.elems)[j]) == Returned(Some(r.value[j]))
  {
    CleanersNullExactlyOnFalsy();
    CleanListSpec(videos, CleanVideo);
    CleanList(videos, CleanVideo)
  }

  /** `DataCleaners.cleanSearchResults` */
  function CleanSearchResults(items: Json): (r: Outcome<seq<SearchResult>>)
    ensures !items.Arr? ==> r == Returned([])
    ensures items.Arr? ==>
      (r.Threw? <==> exists i :: 0 <= i < |items.elems| && CleanSearchResult(items.elems[i]).Threw?)
    ensures items.Arr? && r.Threw? ==>
      exists i :: 0 <= i < |items.elems| && CleanSearchResult(items.elems[i]) == Threw(r.error) &&
        forall k :: 0 <= k < i ==> CleanSearchResult(items.elems[k]).Returned?
    ensures items.Arr? && r.Returned? ==>
      |r.value| == |TruthyOnly(items.elems)| <= |items.elems| &&
      forall j :: 0 <= j < |r.value| ==>
        CleanSearchResult(TruthyOnly(items.elems)[j]) == Returned(Some(r.value[j]))
  {
    CleanersNullExactlyOnFalsy();
    CleanListSpec(items, CleanSearchResult);
    CleanList(items, CleanSearchResult)
  }

  /** `DataCleaners.cleanPlaylistItems`: it never throws, since a playlist item never does */
  function CleanPlaylistItems(items: Json): (r: Outcome<seq<PlaylistItem>>)
    ensures r.Returned?
    ensures !items.Arr? ==> r.value == []
    ensures items.Arr? ==>
      |r.value| == |TruthyOnly(items.elems)| <= |items.elems| &&
      forall j :: 0 <= j < |r.value| ==>
        CleanPlaylistItem(TruthyOnly(items.elems)[j]) == Returned(Some(r.value[j]))
  {
    CleanersNullExactlyOnFalsy();
    CleanListSpec(items, CleanPlaylistItem);
    CleanList(items, CleanPlaylistItem)
  }
}
