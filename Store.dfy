/** `export_to_postgres`: the three tables keyed by their primary keys, the upserts and the
    insert-or-ignore the collector issues row by row, the foreign keys that can make a row fail,
    and the single commit that makes the export all or nothing. */
module Store {
  import opened Wrappers
  import opened Records

  /** `youtube_channels`, `youtube_videos` and `youtube_comments`, by primary key. */
  datatype Tables = Tables(
    channels: map<string, ChannelRecord>,
    videos: map<string, VideoRecord>,
    comments: map<string, CommentRecord>)

  /** Every row sits under its own key, and every foreign key names an existing row. */
  predicate Consistent(t: Tables)
  {
    (forall id :: id in t.channels ==> t.channels[id].channelId == id) &&
    (forall id :: id in t.videos ==> t.videos[id].videoId == id && t.videos[id].channelId in t.channels) &&
    (forall id :: id in t.comments ==> t.comments[id].commentId == id && t.comments[id].videoId in t.videos)
  }

  /** The row whose foreign key named a missing parent. */
  datatype StoreError = MissingChannel(videoId: string) | MissingVideo(commentId: string)

  /** `ON CONFLICT (channel_id) DO UPDATE`: a new channel is inserted; an existing one takes the
      new subscriber, view and video counts and collection time, and keeps the rest. */
  function UpsertChannel(t: Tables, c: ChannelRecord): (r: Tables)
    ensures r.videos == t.videos && r.comments == t.comments
    ensures r.channels.Keys == t.channels.Keys + {c.channelId}
    ensures forall id :: id in t.channels && id != c.channelId ==> r.channels[id] == t.channels[id]
    ensures c.channelId !in t.channels ==> r.channels[c.channelId] == c
    ensures c.channelId in t.channels ==>
      var old_ := t.channels[c.channelId];
      var new_ := r.channels[c.channelId];
      new_.subscribers == c.subscribers && new_.totalViews == c.totalViews &&
      new_.totalVideos == c.totalVideos && new_.collectedAt == c.collectedAt &&
      new_.channelId == old_.channelId && new_.name == old_.name && new_.description == old_.description &&
      new_.country == old_.country && new_.publishedAt == old_.publishedAt &&
      new_.uploadsPlaylist == old_.uploadsPlaylist
  {
    if c.channelId in t.channels then
      var o := t.channels[c.channelId];
      t.(channels := t.channels[c.channelId := o.(subscribers := c.subscribers, totalViews := c.totalViews,
        totalVideos := c.totalVideos, collectedAt := c.collectedAt)])
    else t.(channels := t.channels[c.channelId := c])
  }

  /** `ON CONFLICT (video_id) DO UPDATE`: an existing video takes the new view, like and comment
      counts and collection time and keeps the rest, its channel included, so its foreign key is
      not checked again; a new video needs its channel. */
  function UpsertVideo(t: Tables, v: VideoRecord): (r: Result<Tables, StoreError>)
    ensures r.Err? <==> v.videoId !in t.videos && v.channelId !in t.channels
    ensures r.Err? ==> r.error == MissingChannel(v.videoId)
    ensures r.Ok? ==> r.value.channels == t.channels && r.value.comments == t.comments
    ensures r.Ok? ==> r.value.videos.Keys == t.videos.Keys + {v.videoId}
    ensures r.Ok? ==> forall id :: id in t.videos && id != v.videoId ==> r.value.videos[id] == t.videos[id]
    ensures r.Ok? && v.videoId !in t.videos ==> r.value.videos[v.videoId] == v
    ensures r.Ok? && v.videoId in t.videos ==>
      var old_ := t.videos[v.videoId];
      var new_ := r.value.videos[v.videoId];
      new_.viewCount == v.viewCount && new_.likeCount == v.likeCount &&
      new_.commentCount == v.commentCount && new_.collectedAt == v.collectedAt &&
      new_.(viewCount := old_.viewCount, likeCount := old_.likeCount,
            commentCount := old_.commentCount, collectedAt := old_.collectedAt) == old_
  {
    if v.videoId in t.videos then
      var o := t.videos[v.videoId];
      Ok(t.(videos := t.videos[v.videoId := o.(viewCount := v.viewCount, likeCount := v.likeCount,
        commentCount := v.commentCount, collectedAt := v.collectedAt)]))
    else if v.channelId in t.channels then Ok(t.(videos := t.videos[v.videoId := v]))
    else Err(MissingChannel(v.videoId))
  }

  /** `ON CONFLICT (comment_id) DO NOTHING`: an existing comment is left as it is, without its
      foreign key being checked; a new comment needs its video. */
  function InsertComment(t: Tables, c: CommentRecord): (r: Result<Tables, StoreError>)
    ensures r.Err? <==> c.commentId !in t.comments && c.videoId !in t.videos
    ensures r.Err? ==> r.error == MissingVideo(c.commentId)
    ensures c.commentId in t.comments ==> r == Ok(t)
    ensures r.Ok? && c.commentId !in t.comments ==>
      r.value == t.(comments := t.comments[c.commentId := c])
  {
    if c.commentId in t.comments then Ok(t)
    else if c.videoId in t.videos then Ok(t.(comments := t.comments[c.commentId := c]))
    else Err(MissingVideo(c.commentId))
  }

  /** Each single-row statement keeps the tables consistent. */
  lemma ChannelKeepsConsistent(t: Tables, c: ChannelRecord)
    ensures Consistent(t) ==> Consistent(UpsertChannel(t, c))
  {
  }

  lemma VideoKeepsConsistent(t: Tables, v: VideoRecord)
    ensures Consistent(t) && UpsertVideo(t, v).Ok? ==> Consistent(UpsertVideo(t, v).value)
  {
  }

  lemma CommentKeepsConsistent(t: Tables, m: CommentRecord)
    ensures Consistent(t) && InsertComment(t, m).Ok? ==> Consistent(InsertComment(t, m).value)
  {
  }

  /** Issuing the same statement twice leaves the tables as issuing it once: one row per key. */
  lemma StatementsIdempotent(t: Tables, c: ChannelRecord, v: VideoRecord, m: CommentRecord)
    ensures UpsertChannel(UpsertChannel(t, c), c) == UpsertChannel(t, c)
    ensures UpsertVideo(t, v).Ok? ==> UpsertVideo(UpsertVideo(t, v).value, v) == UpsertVideo(t, v)
    ensures InsertComment(t, m).Ok? ==> InsertComment(InsertComment(t, m).value, m) == InsertComment(t, m)
  {
    var once := UpsertChannel(t, c);
    var o := once.channels[c.channelId];
    assert o.(subscribers := c.subscribers, totalViews := c.totalViews,
      totalVideos := c.totalVideos, collectedAt := c.collectedAt) == o;
    assert once.channels[c.channelId := o] == once.channels;
    if UpsertVideo(t, v).Ok? {
      var vonce := UpsertVideo(t, v).value;
      var w := vonce.videos[v.videoId];
      assert w.(viewCount := v.viewCount, likeCount := v.likeCount,
        commentCount := v.commentCount, collectedAt := v.collectedAt) == w;
      assert vonce.videos[v.videoId := w] == vonce.videos;
    }
  }

  /** Of two upserts of the same channel the later one's counts win, whatever the earlier said. */
  lemma LastCountsWin(t: Tables, a: ChannelRecord, b: ChannelRecord)
    requires a.channelId == b.channelId
    ensures UpsertChannel(UpsertChannel(t, a), b).channels[b.channelId].subscribers == b.subscribers
    ensures UpsertChannel(UpsertChannel(t, a), b).channels[b.channelId].totalViews == b.totalViews
    ensures UpsertChannel(UpsertChannel(t, a), b).channels[b.channelId].totalVideos == b.totalVideos
    ensures UpsertChannel(UpsertChannel(t, a), b).channels[b.channelId].name ==
      (if a.channelId in t.channels then t.channels[a.channelId].name else a.name)
  {
  }

  /** The primary keys of a batch of rows. */
  function ChannelKeys(data: seq<ChannelRecord>): set<string>
  {
    set i | 0 <= i < |data| :: data[i].channelId
  }

  lemma ChannelKeysCons(data: seq<ChannelRecord>)
    requires data != []
    ensures ChannelKeys(data) == {data[0].channelId} + ChannelKeys(data[1..])
  {
    forall id | id in ChannelKeys(data) ensures id == data[0].channelId || id in ChannelKeys(data[1..]) {
      var i :| 0 <= i < |data| && data[i].channelId == id;
      if i > 0 {
        assert data[1..][i - 1] == data[i];
      }
    }
    forall id | id in ChannelKeys(data[1..]) ensures id in ChannelKeys(data) {
      var i :| 0 <= i < |data[1..]| && data[1..][i].channelId == id;
      assert data[i + 1] == data[1..][i];
    }
  }

  function VideoKeys(data: seq<VideoRecord>): set<string>
  {
    set i | 0 <= i < |data| :: data[i].videoId
  }

  lemma VideoKeysCons(data: seq<VideoRecord>)
    requires data != []
    ensures VideoKeys(data) == {data[0].videoId} + VideoKeys(data[1..])
  {
    forall id | id in VideoKeys(data) ensures id == data[0].videoId || id in VideoKeys(data[1..]) {
      var i :| 0 <= i < |data| && data[i].videoId == id;
      if i > 0 {
        assert data[1..][i - 1] == data[i];
      }
    }
    forall id | id in VideoKeys(data[1..]) ensures id in VideoKeys(data) {
      var i :| 0 <= i < |data[1..]| && data[1..][i].videoId == id;
      assert data[i + 1] == data[1..][i];
    }
  }

  function CommentKeys(data: seq<CommentRecord>): set<string>
  {
    set i | 0 <= i < |data| :: data[i].commentId
  }

  lemma CommentKeysCons(data: seq<CommentRecord>)
    requires data != []
    ensures CommentKeys(data) == {data[0].commentId} + CommentKeys(data[1..])
  {
    forall id | id in CommentKeys(data) ensures id == data[0].commentId || id in CommentKeys(data[1..]) {
      var i :| 0 <= i < |data| && data[i].commentId == id;
      if i > 0 {
        assert data[1..][i - 1] == data[i];
      }
    }
    forall id | id in CommentKeys(data[1..]) ensures id in CommentKeys(data) {
      var i :| 0 <= i < |data[1..]| && data[1..][i].commentId == id;
      assert data[i + 1] == data[1..][i];
    }
  }

  /** `_insert_channel_data`: every channel row in order. The channels are the old ones plus
      those of the data; a channel the data does not name is left as it was. */
  function ChannelRows(t: Tables, data: seq<ChannelRecord>): (r: Tables)
    ensures r.videos == t.videos && r.comments == t.comments
    ensures r.channels.Keys == t.channels.Keys + ChannelKeys(data)
    ensures forall id :: id in t.channels && id !in ChannelKeys(data) ==> r.channels[id] == t.channels[id]
    ensures Consistent(t) ==> Consistent(r)
    decreases |data|
  {
    if data == [] then t
    else
      ChannelKeepsConsistent(t, data[0]);
      var r := ChannelRows(UpsertChannel(t, data[0]), data[1..]);
      ChannelKeysCons(data);
      r
  }

  /** What an upsert of an existing channel keeps: every field but the counts and the
      collection time. */
  function Profile(c: ChannelRecord): ChannelRecord
  {
    c.(subscribers := 0, totalViews := 0, totalVideos := 0, collectedAt := "")
  }

  /** A channel already stored keeps its profile through any batch of upserts. */
  lemma {:induction false} ChannelRowsKeepProfile(t: Tables, data: seq<ChannelRecord>, id: string)
    requires id in t.channels
    ensures id in ChannelRows(t, data).channels
    ensures Profile(ChannelRows(t, data).channels[id]) == Profile(t.channels[id])
    decreases |data|
  {
    if data != [] {
      var t1 := UpsertChannel(t, data[0]);
      assert Profile(t1.channels[id]) == Profile(t.channels[id]);
      ChannelRowsKeepProfile(t1, data[1..], id);
    }
  }

  /** The row an upsert of `c` starts from: the stored one, or `c` itself. */
  function Base(t: Tables, c: ChannelRecord): ChannelRecord
  {
    if c.channelId in t.channels then t.channels[c.channelId] else c
  }

  /** An upsert of another channel does not move the row `c` starts from. */
  lemma BaseOther(t: Tables, d: ChannelRecord, c: ChannelRecord)
    requires c.channelId != d.channelId
    ensures Base(UpsertChannel(t, d), c) == Base(t, c)
  {
  }

  /** A collected channel's profile is that of its stored row, or else that of its first record
      in the batch: later records only refresh the counts. */
  lemma {:induction false} ChannelRowsFirstProfile(t: Tables, data: seq<ChannelRecord>, i: nat)
    requires i < |data|
    requires forall k :: 0 <= k < i ==> data[k].channelId != data[i].channelId
    ensures data[i].channelId in ChannelRows(t, data).channels
    ensures Profile(ChannelRows(t, data).channels[data[i].channelId]) == Profile(Base(t, data[i]))
    decreases |data|
  {
    var t1 := UpsertChannel(t, data[0]);
    if i == 0 {
      ChannelRowsKeepProfile(t1, data[1..], data[0].channelId);
    } else {
      var rest := data[1..];
      forall k | 0 <= k < i - 1 ensures rest[k].channelId != rest[i - 1].channelId {
        assert rest[k] == data[k + 1];
      }
      assert rest[i - 1] == data[i];
      ChannelRowsFirstProfile(t1, rest, i - 1);
      BaseOther(t, data[0], data[i]);
    }
  }

  /** A collected channel's counts and collection time are those of its last record in the
      batch, whatever came before. */
  lemma {:induction false} ChannelRowsLastCounts(t: Tables, data: seq<ChannelRecord>, j: nat)
    requires j < |data|
    requires forall k :: j < k < |data| ==> data[k].channelId != data[j].channelId
    ensures data[j].channelId in ChannelRows(t, data).channels
    ensures var row := ChannelRows(t, data).channels[data[j].channelId];
      row.subscribers == data[j].subscribers && row.totalViews == data[j].totalViews &&
      row.totalVideos == data[j].totalVideos && row.collectedAt == data[j].collectedAt
    decreases |data|
  {
    var t1 := UpsertChannel(t, data[0]);
    if j == 0 {
      forall i | 0 <= i < |data| - 1 ensures data[1..][i].channelId != data[0].channelId {
        assert data[1..][i] == data[i + 1];
      }
      assert data[0].channelId !in ChannelKeys(data[1..]);
    } else {
      forall k | j - 1 < k < |data| - 1 ensures data[1..][k].channelId != data[1..][j - 1].channelId {
        assert data[1..][k] == data[k + 1];
      }
      assert data[1..][j - 1] == data[j];
      ChannelRowsLastCounts(t1, data[1..], j - 1);
    }
  }

  /** `_insert_video_data`: every video row in order; the first that fails ends the export. On
      success the videos are the old ones plus those of the data, and a video the data does not
      name is left as it was. */
  function VideoRows(t: Tables, data: seq<VideoRecord>): (r: Result<Tables, StoreError>)
    ensures r.Ok? ==> r.value.channels == t.channels && r.value.comments == t.comments
    ensures r.Ok? ==> r.value.videos.Keys == t.videos.Keys + VideoKeys(data)
    ensures r.Ok? ==> forall id :: id in t.videos && id !in VideoKeys(data) ==> r.value.videos[id] == t.videos[id]
    ensures r.Ok? && Consistent(t) ==> Consistent(r.value)
    decreases |data|
  {
    if data == [] then Ok(t)
    else
      VideoKeepsConsistent(t, data[0]);
      match UpsertVideo(t, data[0])
      case Err(e) => Err(e)
      case Ok(t1) =>
        var r := VideoRows(t1, data[1..]);
        VideoKeysCons(data);
        r
  }

  /** `_insert_comment_data`: every comment row in order; the first that fails ends the export.
      On success the comments are the old ones plus those of the data; a comment already stored
      is never changed (`DO NOTHING`), and every new one is a row of the data. */
  function CommentRows(t: Tables, data: seq<CommentRecord>): (r: Result<Tables, StoreError>)
    ensures r.Ok? ==> r.value.channels == t.channels && r.value.videos == t.videos
    ensures r.Ok? ==> r.value.comments.Keys == t.comments.Keys + CommentKeys(data)
    ensures r.Ok? ==> forall id :: id in t.comments ==> r.value.comments[id] == t.comments[id]
    ensures r.Ok? ==> forall id :: id in r.value.comments && id !in t.comments ==> r.value.comments[id] in data
    ensures r.Ok? && Consistent(t) ==> Consistent(r.value)
    decreases |data|
  {
    if data == [] then Ok(t)
    else
      CommentKeepsConsistent(t, data[0]);
      match InsertComment(t, data[0])
      case Err(e) => Err(e)
      case Ok(t1) =>
        var r := CommentRows(t1, data[1..]);
        CommentKeysCons(data);
        assert t1.comments.Keys == t.comments.Keys + {data[0].commentId};
        assert forall id :: id in t1.comments && id !in t.comments ==> t1.comments[id] == data[0];
        assert forall c :: c in data[1..] ==> c in data;
        assert data[0] in data;
        r
  }

  /** The statements of one export inside its transaction: channels, then videos, then comments.
      On success each table holds its old keys plus the collected ones; rows the collection does
      not name are left as they were, and stored comments are never changed. */
  function ExportRows(t: Tables, channels: seq<ChannelRecord>, videos: seq<VideoRecord>,
                      comments: seq<CommentRecord>): (r: Result<Tables, StoreError>)
    ensures r.Ok? && Consistent(t) ==> Consistent(r.value)
    ensures r.Ok? ==> r.value.channels.Keys == t.channels.Keys + ChannelKeys(channels)
    ensures r.Ok? ==> r.value.videos.Keys == t.videos.Keys + VideoKeys(videos)
    ensures r.Ok? ==> r.value.comments.Keys == t.comments.Keys + CommentKeys(comments)
    ensures r.Ok? ==> forall id :: id in t.channels && id !in ChannelKeys(channels) ==> r.value.channels[id] == t.channels[id]
    ensures r.Ok? ==> forall id :: id in t.videos && id !in VideoKeys(videos) ==> r.value.videos[id] == t.videos[id]
    ensures r.Ok? ==> forall id :: id in t.comments ==> r.value.comments[id] == t.comments[id]
  {
    var t1 := ChannelRows(t, channels);
    match VideoRows(t1, videos)
    case Err(e) => Err(e)
    case Ok(t2) =>
      match CommentRows(t2, comments)
      case Err(e) => Err(e)
      case Ok(t3) => Ok(t3)
  }

  /** A collection whose rows all hang together exports without error into empty tables: every
      video's channel and every comment's video is among the collected rows. */
  lemma {:induction false} SelfContainedExports(channels: seq<ChannelRecord>, videos: seq<VideoRecord>,
                                                comments: seq<CommentRecord>)
    requires forall i :: 0 <= i < |videos| ==> exists j :: 0 <= j < |channels| && channels[j].channelId == videos[i].channelId
    requires forall i :: 0 <= i < |comments| ==> exists j :: 0 <= j < |videos| && videos[j].videoId == comments[i].videoId
    ensures ExportRows(Tables(map[], map[], map[]), channels, videos, comments).Ok?
  {
    var t1 := ChannelRows(Tables(map[], map[], map[]), channels);
    assert forall i :: 0 <= i < |videos| ==> videos[i].channelId in t1.channels;
    VideoRowsSucceed(t1, videos);
    var t2 := VideoRows(t1, videos).value;
    assert forall i :: 0 <= i < |comments| ==> comments[i].videoId in t2.videos;
    CommentRowsSucceed(t2, comments);
  }

  lemma {:induction false} VideoRowsSucceed(t: Tables, data: seq<VideoRecord>)
    requires forall i :: 0 <= i < |data| ==> data[i].channelId in t.channels
    ensures VideoRows(t, data).Ok?
    decreases |data|
  {
    if data != [] {
      var t1 := UpsertVideo(t, data[0]).value;
      assert forall i :: 0 <= i < |data[1..]| ==> data[1..][i] == data[i + 1];
      VideoRowsSucceed(t1, data[1..]);
    }
  }

  lemma {:induction false} CommentRowsSucceed(t: Tables, data: seq<CommentRecord>)
    requires forall i :: 0 <= i < |data| ==> data[i].videoId in t.videos
    ensures CommentRows(t, data).Ok?
    decreases |data|
  {
    if data != [] {
      var t1 := InsertComment(t, data[0]).value;
      assert forall i :: 0 <= i < |data[1..]| ==> data[1..][i] == data[i + 1];
      CommentRowsSucceed(t1, data[1..]);
    }
  }

  /** A comment whose video is in neither the tables nor the collection fails the export. */
  lemma OrphanCommentFails(t: Tables, m: CommentRecord)
    requires m.commentId !in t.comments && m.videoId !in t.videos
    ensures ExportRows(t, [], [], [m]).Err?
  {
    assert ChannelRows(t, []) == t;
    assert VideoRows(t, []) == Ok(t);
    assert [m][1..] == [];
  }

  /** The database the collector exports into. */
  class Database {
    var tables: Tables

    constructor(initial: Tables)
      ensures tables == initial
    {
      tables := initial;
    }

    /** `export_to_postgres`: all rows are written in one transaction; a failed connection or
        any failing row leaves the committed tables exactly as they were. */
    method ExportToPostgres(connected: bool, channels: seq<ChannelRecord>, videos: seq<VideoRecord>,
                            comments: seq<CommentRecord>) returns (ok: bool)
      modifies this
      ensures ok <==> connected && ExportRows(old(tables), channels, videos, comments).Ok?
      ensures ok ==> tables == ExportRows(old(tables), channels, videos, comments).value
      ensures !ok ==> tables == old(tables)
      ensures Consistent(old(tables)) ==> Consistent(tables)
    {
      if !connected {
        return false;
      }
      var work := InsertChannelData(tables, channels);
      var v := InsertVideoData(work, videos);
      if v.Err? {
        return false;
      }
      var c := InsertCommentData(v.value, comments);
      if c.Err? {
        return false;
      }
      tables := c.value;
      ok := true;
    }
  }

  /** The loop of `_insert_channel_data`. */
  method InsertChannelData(t: Tables, data: seq<ChannelRecord>) returns (r: Tables)
    ensures r == ChannelRows(t, data)
  {
    r := t;
    for i := 0 to |data|
      invariant ChannelRows(r, data[i..]) == ChannelRows(t, data)
    {
      assert data[i..][1..] == data[i + 1..];
      r := UpsertChannel(r, data[i]);
    }
  }

  /** The loop of `_insert_video_data`; the first failing row raises out of it. */
  method InsertVideoData(t: Tables, data: seq<VideoRecord>) returns (r: Result<Tables, StoreError>)
    ensures r == VideoRows(t, data)
  {
    var cur := t;
    for i := 0 to |data|
      invariant VideoRows(cur, data[i..]) == VideoRows(t, data)
    {
      assert data[i..][1..] == data[i + 1..];
      var step := UpsertVideo(cur, data[i]);
      if step.Err? {
        return Err(step.error);
      }
      cur := step.value;
    }
    r := Ok(cur);
  }

  /** The loop of `_insert_comment_data`; the first failing row raises out of it. */
  method InsertCommentData(t: Tables, data: seq<CommentRecord>) returns (r: Result<Tables, StoreError>)
    ensures r == CommentRows(t, data)
  {
    var cur := t;
    for i := 0 to |data|
      invariant CommentRows(cur, data[i..]) == CommentRows(t, data)
    {
      assert data[i..][1..] == data[i + 1..];
      var step := InsertComment(cur, data[i]);
      if step.Err? {
        return Err(step.error);
      }
      cur := step.value;
    }
    r := Ok(cur);
  }
}
