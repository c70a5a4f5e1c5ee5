/** The records the collector builds from YouTube Data API items, one per channel, video and
    comment, with the defaults it fills in for fields the API leaves out. */
module Records {
  import opened Wrappers
  import Seqs

  /** The parts of a `channels.list` item that are read. Counts the API may omit are optional. */
  datatype RawChannel = RawChannel(
    title: string, description: string,
    subscriberCount: Option<nat>, viewCount: Option<nat>, videoCount: Option<nat>,
    country: Option<string>, publishedAt: string, uploads: string)

  /** A row of `channel_data`. */
  datatype ChannelRecord = ChannelRecord(
    channelId: string, name: string, description: string,
    subscribers: nat, totalViews: nat, totalVideos: nat,
    country: string, publishedAt: string, uploadsPlaylist: string, collectedAt: string)

  /** The stats dictionary of `get_channel_stats`: missing counts are 0, a missing country 'N/A'. */
  function ChannelOf(channelId: string, raw: RawChannel, now: string): (c: ChannelRecord)
    ensures c.channelId == channelId && c.name == raw.title && c.description == raw.description
    ensures c.subscribers == raw.subscriberCount.GetOr(0)
    ensures c.totalViews == raw.viewCount.GetOr(0)
    ensures c.totalVideos == raw.videoCount.GetOr(0)
    ensures c.country == (if raw.country.Some? then raw.country.value else "N/A")
    ensures c.publishedAt == raw.publishedAt && c.uploadsPlaylist == raw.uploads && c.collectedAt == now
  {
    ChannelRecord(channelId, raw.title, raw.description,
      raw.subscriberCount.GetOr(0), raw.viewCount.GetOr(0), raw.videoCount.GetOr(0),
      raw.country.GetOr("N/A"), raw.publishedAt, raw.uploads, now)
  }

  /** The parts of a `videos.list` item that are read. */
  datatype RawVideo = RawVideo(
    id: string, channelId: string, title: string, description: string, publishedAt: string,
    tags: Option<seq<string>>, categoryId: Option<string>,
    duration: string, definition: string, caption: Option<string>,
    viewCount: Option<nat>, likeCount: Option<nat>, commentCount: Option<nat>)

  /** A row of `video_data`. */
  datatype VideoRecord = VideoRecord(
    videoId: string, channelId: string, title: string, description: string, publishedAt: string,
    tags: string, categoryId: string, duration: string, definition: string, caption: string,
    viewCount: nat, likeCount: nat, commentCount: nat, collectedAt: string)

  /** The video dictionary of `get_video_details`: tags joined with commas, a missing category
      'N/A', a missing caption flag 'false', missing counts 0. */
  function VideoOf(raw: RawVideo, now: string): (v: VideoRecord)
    ensures v.videoId == raw.id && v.channelId == raw.channelId && v.title == raw.title
    ensures v.description == raw.description && v.publishedAt == raw.publishedAt
    ensures v.duration == raw.duration && v.definition == raw.definition
    ensures v.tags == Seqs.Join(raw.tags.GetOr([]), ',')
    ensures v.categoryId == (if raw.categoryId.Some? then raw.categoryId.value else "N/A")
    ensures v.caption == (if raw.caption.Some? then raw.caption.value else "false")
    ensures v.viewCount == raw.viewCount.GetOr(0)
    ensures v.likeCount == raw.likeCount.GetOr(0)
    ensures v.commentCount == raw.commentCount.GetOr(0)
    ensures v.collectedAt == now
  {
    VideoRecord(raw.id, raw.channelId, raw.title, raw.description, raw.publishedAt,
      Seqs.Join(raw.tags.GetOr([]), ','), raw.categoryId.GetOr("N/A"),
      raw.duration, raw.definition, raw.caption.GetOr("false"),
      raw.viewCount.GetOr(0), raw.likeCount.GetOr(0), raw.commentCount.GetOr(0), now)
  }

  /** Tags survive the comma join when there is at least one and none contains a comma: splitting
      the stored column gives them back. */
  lemma TagsRoundTrip(raw: RawVideo, now: string)
    requires raw.tags.Some? && raw.tags.value != []
    requires forall i :: 0 <= i < |raw.tags.value| ==> ',' !in raw.tags.value[i]
    ensures Seqs.SplitOn(VideoOf(raw, now).tags, ',') == raw.tags.value
  {
    Seqs.SplitJoin(raw.tags.value, ',');
  }

  /** A video without tags and a video whose only tag is empty store the same column. */
  lemma TagsAmbiguous(raw: RawVideo, now: string)
    requires raw.tags == None || raw.tags == Some([]) || raw.tags == Some([""])
    ensures VideoOf(raw, now).tags == ""
  {
    Seqs.EmptyJoinSplitsToOnePart(',');
  }

  /** The parts of a `commentThreads.list` item that are read. */
  datatype RawComment = RawComment(
    id: string, author: string, text: string, likeCount: nat,
    publishedAt: string, updatedAt: Option<string>, replyCount: nat)

  /** A row of `comment_data`. */
  datatype CommentRecord = CommentRecord(
    videoId: string, commentId: string, author: string, text: string, likeCount: nat,
    publishedAt: string, updatedAt: string, replyCount: nat, collectedAt: string)

  /** The comment dictionary of `get_video_comments`: tagged with the video it was fetched for;
      a comment never edited has `updated_at` equal to `published_at`. */
  function CommentOf(videoId: string, raw: RawComment, now: string): (c: CommentRecord)
    ensures c.videoId == videoId && c.commentId == raw.id && c.text == raw.text
    ensures c.author == raw.author && c.likeCount == raw.likeCount && c.replyCount == raw.replyCount
    ensures c.updatedAt == (if raw.updatedAt.Some? then raw.updatedAt.value else raw.publishedAt)
    ensures raw.updatedAt.None? ==> c.updatedAt == c.publishedAt
    ensures c.publishedAt == raw.publishedAt && c.collectedAt == now
  {
    CommentRecord(videoId, raw.id, raw.author, raw.text, raw.likeCount,
      raw.publishedAt, raw.updatedAt.GetOr(raw.publishedAt), raw.replyCount, now)
  }
}
