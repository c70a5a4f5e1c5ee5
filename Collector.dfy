/** The collector: paging through playlist items and comment threads, fetching video details in
    batches of 50, and gathering everything into its three lists. Each API response is an input:
    a sequence of pages for a paged listing, a function from a batch of ids to its response. */
module Collector {
  import opened Wrappers
  import Seqs
  import opened Records

  /** One page of a paged listing, or the `HttpError` raised instead of it. */
  datatype Page<T> = Page(items: seq<T>, nextToken: Option<string>) | HttpError

  /** What a request of a paged listing asks for: the page token and `maxResults`. */
  datatype Request = Request(token: Option<string>, size: nat)

  /** `if not next_page_token: break` — a missing or empty token ends the listing. */
  predicate HasNext(token: Option<string>)
  {
    token.Some? && token.value != ""
  }

  /** The outcome of a paged loop: the items gathered and the requests made. */
  datatype Paged<T> = Paged(items: seq<T>, requests: seq<Request>)

  /** The paged loop shared by `get_video_ids` and `get_video_comments`, from the point where
      `have` has been gathered and `token` is the next page token: while fewer than `max` items
      are held, ask for `min(cap, max - len)` more; an `HttpError` ends the loop keeping what was
      gathered; so does a page without a next token, after its items are added. The listing has
      only the pages given: when they run out the loop stops. */
  function Paginate<T>(pages: seq<Page<T>>, cap: nat, max: nat, have: seq<T>, token: Option<string>): (r: Paged<T>)
    ensures |r.requests| <= |pages|
    decreases |pages|
  {
    if |have| >= max || pages == [] then Paged(have, [])
    else
      var req := Request(token, Min(cap, max - |have|));
      match pages[0]
      case HttpError => Paged(have, [req])
      case Page(items, next) =>
        if HasNext(next) then
          var rest := Paginate(pages[1..], cap, max, have + items, next);
          Paged(rest.items, [req] + rest.requests)
        else Paged(have + items, [req])
  }

  /** The items of the pages that were fetched, in page order. */
  function ItemsOf<T>(pages: seq<Page<T>>): seq<T>
  {
    if pages == [] then []
    else (if pages[0].Page? then pages[0].items else []) + ItemsOf(pages[1..])
  }

  /** The requests of a paged loop that started from `token`: each asks for between 1 and `cap`
      items; the first carries `token` and each later one the next token of the page before it. */
  predicate RequestsChain<T>(pages: seq<Page<T>>, cap: nat, token: Option<string>, requests: seq<Request>)
  {
    |requests| <= |pages| &&
    (forall k :: 0 <= k < |requests| ==> 1 <= requests[k].size <= cap) &&
    (requests != [] ==> requests[0].token == token) &&
    (forall k :: 0 <= k < |requests| - 1 ==> pages[k].Page? && requests[k + 1].token == pages[k].nextToken)
  }

  /** The requests chain page tokens and ask for 1 to `cap` items. */
  lemma {:induction false} PaginateRequests<T>(pages: seq<Page<T>>, cap: nat, max: nat, have: seq<T>, token: Option<string>)
    requires cap >= 1
    ensures RequestsChain(pages, cap, token, Paginate(pages, cap, max, have, token).requests)
    decreases |pages|
  {
    if |have| < max && pages != [] && pages[0].Page? && HasNext(pages[0].nextToken) {
      var tail, next := pages[1..], pages[0].nextToken;
      var rest := Paginate(tail, cap, max, have + pages[0].items, next);
      PaginateRequests(tail, cap, max, have + pages[0].items, next);
      var r := Paginate(pages, cap, max, have, token).requests;
      assert r == [Request(token, Min(cap, max - |have|))] + rest.requests;
      assert RequestsChain(tail, cap, next, rest.requests);
      forall k | 0 <= k < |r| ensures 1 <= r[k].size <= cap {
        if k > 0 {
          assert r[k] == rest.requests[k - 1];
        }
      }
      forall k | 0 <= k < |r| - 1 ensures pages[k].Page? && r[k + 1].token == pages[k].nextToken {
        assert r[k + 1] == rest.requests[k];
        if k > 0 {
          assert pages[k] == tail[k - 1];
        }
      }
    } else {
      var r := Paginate(pages, cap, max, have, token).requests;
      assert r == [] || (pages != [] && r == [Request(token, Min(cap, max - |have|))]);
    }
  }

  /** The items gathered are what was held plus the items of the pages fetched, in order, so
      nothing fetched is lost. */
  lemma {:induction false} PaginateItems<T>(pages: seq<Page<T>>, cap: nat, max: nat, have: seq<T>, token: Option<string>)
    ensures Paginate(pages, cap, max, have, token).items ==
      have + ItemsOf(pages[..|Paginate(pages, cap, max, have, token).requests|])
    decreases |pages|
  {
    if |have| >= max || pages == [] {
      assert pages[..0] == [];
    } else {
      assert pages[..1] == [pages[0]] && pages[..1][1..] == [];
      if pages[0].Page? && HasNext(pages[0].nextToken) {
        var tail, items, next := pages[1..], pages[0].items, pages[0].nextToken;
        PaginateItems(tail, cap, max, have + items, next);
        var n := |Paginate(tail, cap, max, have + items, next).requests|;
        assert pages[..n + 1][1..] == tail[..n];
        assert ItemsOf(pages[..n + 1]) == items + ItemsOf(tail[..n]);
      }
    }
  }

  /** The items of the first `k` pages: those of the first page, then those of the next `k - 1`. */
  lemma ItemsOfPrefix<T>(pages: seq<Page<T>>, k: nat)
    requires 1 <= k <= |pages|
    ensures ItemsOf(pages[..k]) == (if pages[0].Page? then pages[0].items else []) + ItemsOf(pages[1..][..k - 1])
  {
    assert pages[..k][0] == pages[0] && pages[..k][1..] == pages[1..][..k - 1];
  }

  /** The loop goes on while it should: every request is made while fewer than `max` items are
      held, and every request but the last follows a page that had a next token. */
  lemma {:induction false} PaginateContinues<T>(pages: seq<Page<T>>, cap: nat, max: nat, have: seq<T>, token: Option<string>)
    ensures var n := |Paginate(pages, cap, max, have, token).requests|;
      (forall k :: 0 <= k < n ==> |have + ItemsOf(pages[..k])| < max) &&
      (forall k :: 0 <= k < n - 1 ==> pages[k].Page? && HasNext(pages[k].nextToken))
    decreases |pages|
  {
    var n := |Paginate(pages, cap, max, have, token).requests|;
    assert pages[..0] == [];
    if |have| < max && pages != [] && pages[0].Page? && HasNext(pages[0].nextToken) {
      var tail, next := pages[1..], pages[0].nextToken;
      var have' := have + pages[0].items;
      PaginateContinues(tail, cap, max, have', next);
      assert n == 1 + |Paginate(tail, cap, max, have', next).requests|;
      forall k | 0 <= k < n ensures |have + ItemsOf(pages[..k])| < max {
        if k > 0 {
          ItemsOfPrefix(pages, k);
          assert have + ItemsOf(pages[..k]) == have' + ItemsOf(tail[..k - 1]);
        }
      }
      forall k | 0 <= k < n - 1 ensures pages[k].Page? && HasNext(pages[k].nextToken) {
        if k > 0 {
          assert pages[k] == tail[k - 1];
        }
      }
    }
  }

  /** The loop stops only for a reason the source has: `max` items were held before any request,
      or the last page fetched was an `HttpError`, had no next token, or brought the items to
      `max`; in the model it also stops when the pages given run out. */
  lemma {:induction false} PaginateStops<T>(pages: seq<Page<T>>, cap: nat, max: nat, have: seq<T>, token: Option<string>)
    ensures var n := |Paginate(pages, cap, max, have, token).requests|;
      (n == 0 ==> |have| >= max || pages == []) &&
      (n > 0 ==> n == |pages| || pages[n - 1].HttpError? || !HasNext(pages[n - 1].nextToken) ||
                 |have + ItemsOf(pages[..n])| >= max)
    decreases |pages|
  {
    var n := |Paginate(pages, cap, max, have, token).requests|;
    if |have| < max && pages != [] && pages[0].Page? && HasNext(pages[0].nextToken) {
      var tail, next := pages[1..], pages[0].nextToken;
      var have' := have + pages[0].items;
      PaginateStops(tail, cap, max, have', next);
      var m := |Paginate(tail, cap, max, have', next).requests|;
      assert n == 1 + m;
      ItemsOfPrefix(pages, n);
      assert have + ItemsOf(pages[..n]) == have' + ItemsOf(tail[..m]);
      if m > 0 {
        assert pages[n - 1] == tail[m - 1];
      } else {
        assert tail[..0] == [];
      }
    } else if n == 1 {
      assert pages[..1] == [pages[0]] && pages[..1][1..] == [];
    }
  }

  /** Every page fetched holds no more items than its request asked for. */
  predicate PagesHonourSizes<T>(pages: seq<Page<T>>, cap: nat, max: nat, have: seq<T>)
    decreases |pages|
  {
    |have| >= max || pages == [] || pages[0].HttpError? ||
    (|pages[0].items| <= Min(cap, max - |have|) &&
     (HasNext(pages[0].nextToken) ==> PagesHonourSizes(pages[1..], cap, max, have + pages[0].items)))
  }

  /** When every page holds no more than it was asked for, the loop never gathers more than
      `max` items (a page may overfill its request, and then the loop can overshoot). */
  lemma {:induction false} PaginateBounded<T>(pages: seq<Page<T>>, cap: nat, max: nat, have: seq<T>, token: Option<string>)
    requires |have| <= max
    requires PagesHonourSizes(pages, cap, max, have)
    ensures |Paginate(pages, cap, max, have, token).items| <= max
    decreases |pages|
  {
    if |have| < max && pages != [] && pages[0].Page? && HasNext(pages[0].nextToken) {
      PaginateBounded(pages[1..], cap, max, have + pages[0].items, pages[0].nextToken);
    }
  }

  /** The batches of `video_ids[i:i+50]` for `i` in `range(i0, len, 50)`. */
  function BatchesFrom(ids: seq<string>, i: nat): (bs: seq<seq<string>>)
    requires i <= |ids|
    ensures forall k :: 0 <= k < |bs| ==> 1 <= |bs[k]| <= 50
    ensures forall k :: 0 <= k < |bs| - 1 ==> |bs[k]| == 50
    ensures Seqs.Flatten(bs) == ids[i..]
    decreases |ids| - i
  {
    if i == |ids| then []
    else
      var j := Min(i + 50, |ids|);
      var rest := BatchesFrom(ids, j);
      assert ids[i..] == ids[i..j] + ids[j..];
      [ids[i..j]] + rest
  }

  /** The response of `videos.list` for one batch of ids: its items, or `None` for an `HttpError`. */
  type VideoApi = seq<string> -> Option<seq<RawVideo>>

  /** The records `get_video_details` appends for the batches from `i` on: the mapped items of each
      batch that succeeded, in batch order; a failed batch adds nothing. */
  function DetailsFrom(ids: seq<string>, i: nat, api: VideoApi, now: string): (rs: seq<VideoRecord>)
    requires i <= |ids|
    ensures forall k :: 0 <= k < |rs| ==> rs[k].collectedAt == now
    ensures (forall b :: api(b).Some? && |api(b).value| == |b|) ==> |rs| == |ids| - i
    ensures (forall b :: api(b).None?) ==> rs == []
    decreases |ids| - i
  {
    if i == |ids| then []
    else
      var j := Min(i + 50, |ids|);
      BatchRecords(api(ids[i..j]), now) + DetailsFrom(ids, j, api, now)
  }

  /** One step of `DetailsFrom`: the records of the batch at `i`, then those of the batches after it. */
  lemma DetailsStep(ids: seq<string>, i: nat, api: VideoApi, now: string)
    requires i < |ids|
    ensures DetailsFrom(ids, i, api, now) ==
      BatchRecords(api(ids[i..Min(i + 50, |ids|)]), now) + DetailsFrom(ids, Min(i + 50, |ids|), api, now)
  {
  }

  function BatchRecords(response: Option<seq<RawVideo>>, now: string): (rs: seq<VideoRecord>)
    ensures response.None? ==> rs == []
    ensures response.Some? ==> |rs| == |response.value|
    ensures response.Some? ==> forall k :: 0 <= k < |rs| ==> rs[k] == VideoOf(response.value[k], now)
  {
    match response
    case None => []
    case Some(items) => seq(|items|, k requires 0 <= k < |items| => VideoOf(items[k], now))
  }

  /** The records of a sequence of batches, batch by batch. */
  function RecordsOfBatches(bs: seq<seq<string>>, api: VideoApi, now: string): seq<VideoRecord>
  {
    if bs == [] then [] else BatchRecords(api(bs[0]), now) + RecordsOfBatches(bs[1..], api, now)
  }

  /** The records are exactly those of the batches, batch by batch: a failed batch removes only
      its own records. */
  lemma {:induction false} DetailsByBatch(ids: seq<string>, i: nat, api: VideoApi, now: string)
    requires i <= |ids|
    ensures DetailsFrom(ids, i, api, now) == RecordsOfBatches(BatchesFrom(ids, i), api, now)
    decreases |ids| - i
  {
    if i < |ids| {
      var j := Min(i + 50, |ids|);
      DetailsByBatch(ids, j, api, now);
      var bs := BatchesFrom(ids, i);
      assert bs[0] == ids[i..j] && bs[1..] == BatchesFrom(ids, j);
    }
  }

  /** The comments `get_video_comments` returns for the raw items gathered. */
  function CommentsOf(videoId: string, raw: seq<RawComment>, now: string): (cs: seq<CommentRecord>)
    ensures |cs| == |raw|
    ensures forall k :: 0 <= k < |cs| ==> cs[k] == CommentOf(videoId, raw[k], now)
    ensures forall k :: 0 <= k < |cs| ==> cs[k].videoId == videoId
  {
    seq(|raw|, k requires 0 <= k < |raw| => CommentOf(videoId, raw[k], now))
  }

  /** The comment pages of every video, by video id. */
  type CommentApi = string -> seq<Page<RawComment>>

  /** `video_data[:max_videos] if max_videos else video_data`: zero or no limit means all. */
  function VideosToProcess(videos: seq<VideoRecord>, maxVideos: Option<nat>): (vs: seq<VideoRecord>)
    ensures maxVideos.None? || maxVideos == Some(0) ==> vs == videos
    ensures maxVideos.Some? && maxVideos.value > 0 ==> vs == videos[..Min(maxVideos.value, |videos|)]
  {
    if maxVideos.Some? && maxVideos.value > 0 then videos[..Min(maxVideos.value, |videos|)] else videos
  }

  /** The comments gathered for each video, in video order; every one belongs to one of the
      videos processed. */
  function AllComments(videos: seq<VideoRecord>, api: CommentApi, maxPerVideo: nat, now: string): (cs: seq<CommentRecord>)
    ensures forall c :: c in cs ==> exists v :: v in videos && v.videoId == c.videoId
  {
    if videos == [] then []
    else
      var id := videos[0].videoId;
      var head := CommentsOf(id, Paginate(api(id), 100, maxPerVideo, [], None).items, now);
      var rest := AllComments(videos[1..], api, maxPerVideo, now);
      assert videos[0] in videos;
      assert forall v :: v in videos[1..] ==> v in videos;
      head + rest
  }

  /** The response of `channels.list` for one channel id: an `HttpError`, or a body whose
      `items` key may be missing. */
  datatype ChannelResponse = ChannelHttpError | ChannelBody(items: Option<seq<RawChannel>>)

  /** `get_channel_stats`: the record of the first item, when there is one. */
  function ChannelStats(channelId: string, response: ChannelResponse, now: string): (r: Option<ChannelRecord>)
    ensures r.Some? <==> response.ChannelBody? && response.items.Some? && response.items.value != []
    ensures r.Some? ==> r.value == ChannelOf(channelId, response.items.value[0], now)
  {
    match response
    case ChannelHttpError => None
    case ChannelBody(items) =>
      if items.None? || items.value == [] then None else Some(ChannelOf(channelId, items.value[0], now))
  }

  /** The collector and the three lists it fills. */
  class DataCollector {
    var channelData: seq<ChannelRecord>
    var videoData: seq<VideoRecord>
    var commentData: seq<CommentRecord>

    constructor()
      ensures channelData == [] && videoData == [] && commentData == []
    {
      channelData := [];
      videoData := [];
      commentData := [];
    }

    /** `get_channel_stats`: a found channel is appended to `channel_data` and returned. */
    method GetChannelStats(channelId: string, response: ChannelResponse, now: string) returns (stats: Option<ChannelRecord>)
      modifies this`channelData
      ensures stats == ChannelStats(channelId, response, now)
      ensures channelData == old(channelData) + (if stats.Some? then [stats.value] else [])
    {
      stats := ChannelStats(channelId, response, now);
      if stats.Some? {
        channelData := channelData + [stats.value];
      }
    }

    /** `get_video_ids`: pages of at most 50 ids until `maxResults` are held or the listing ends. */
    method GetVideoIds(pages: seq<Page<string>>, maxResults: nat) returns (ids: seq<string>, requests: seq<Request>)
      ensures Paged(ids, requests) == Paginate(pages, 50, maxResults, [], None)
    {
      ids, requests := PagedLoop(pages, 50, maxResults);
    }

    /** `get_video_details`: batches of up to 50 ids; the records of each batch that succeeds are
        appended to `video_data`, after the records already there. */
    method GetVideoDetails(ids: seq<string>, api: VideoApi, now: string)
      modifies this`videoData
      ensures videoData == old(videoData) + DetailsFrom(ids, 0, api, now)
    {
      var i := 0;
      while i < |ids|
        invariant i <= |ids|
        invariant videoData + DetailsFrom(ids, i, api, now) == old(videoData) + DetailsFrom(ids, 0, api, now)
        decreases |ids| - i
      {
        var j := Min(i + 50, |ids|);
        var response := api(ids[i..j]);
        ghost var before := videoData;
        ghost var rest := DetailsFrom(ids, j, api, now);
        ghost var batch := BatchRecords(response, now);
        DetailsStep(ids, i, api, now);
        AppendBatch(response, now);
        Seqs.AppendAssoc(before, batch, rest);
        i := j;
      }
    }

    /** The inner loop of `get_video_details`: one record per item of a batch, appended in order;
        a failed batch appends nothing. */
    method AppendBatch(response: Option<seq<RawVideo>>, now: string)
      modifies this`videoData
      ensures videoData == old(videoData) + BatchRecords(response, now)
    {
      if response.None? {
        return;
      }
      var items := response.value;
      ghost var records := BatchRecords(response, now);
      assert |records| == |items|;
      for k := 0 to |items|
        invariant videoData == old(videoData) + records[..k]
      {
        assert records[..k + 1] == records[..k] + [VideoOf(items[k], now)];
        videoData := videoData + [VideoOf(items[k], now)];
      }
      assert records[..|items|] == records;
    }

    /** `get_video_comments`: pages of at most 100 comments, each tagged with `videoId`, until
        `maxComments` are held, the listing ends or an `HttpError` stops it. */
    method GetVideoComments(videoId: string, pages: seq<Page<RawComment>>, maxComments: nat, now: string)
      returns (comments: seq<CommentRecord>)
      ensures comments == CommentsOf(videoId, Paginate(pages, 100, maxComments, [], None).items, now)
    {
      var raw, _ := PagedLoop(pages, 100, maxComments);
      comments := CommentsOf(videoId, raw, now);
    }

    /** `collect_all_comments`: the comments of each video processed, appended in video order. */
    method CollectAllComments(api: CommentApi, maxPerVideo: nat, maxVideos: Option<nat>, now: string)
      modifies this`commentData
      ensures commentData == old(commentData) + AllComments(VideosToProcess(videoData, maxVideos), api, maxPerVideo, now)
    {
      var videos := VideosToProcess(videoData, maxVideos);
      for k := 0 to |videos|
        invariant commentData + AllComments(videos[k..], api, maxPerVideo, now)
          == old(commentData) + AllComments(videos, api, maxPerVideo, now)
      {
        var comments := GetVideoComments(videos[k].videoId, api(videos[k].videoId), maxPerVideo, now);
        assert videos[k..][1..] == videos[k + 1..];
        commentData := commentData + comments;
      }
    }
  }

  /** The `while len(...) < max` loop of both paged listings. */
  method PagedLoop<T>(pages: seq<Page<T>>, cap: nat, max: nat) returns (items: seq<T>, requests: seq<Request>)
    ensures Paged(items, requests) == Paginate(pages, cap, max, [], None)
  {
    items := [];
    requests := [];
    var token: Option<string> := None;
    var rest := pages;
    var done := false;
    while !done && |items| < max && rest != []
      invariant !done ==>
        Paginate(pages, cap, max, [], None) ==
        Paged(Paginate(rest, cap, max, items, token).items, requests + Paginate(rest, cap, max, items, token).requests)
      invariant done ==> Paginate(pages, cap, max, [], None) == Paged(items, requests)
      decreases |rest|, if done then 0 else 1
    {
      var req := Request(token, Min(cap, max - |items|));
      ghost var r := Paginate(rest, cap, max, items, token);
      assert requests + r.requests == (requests + [req]) + r.requests[1..];
      requests := requests + [req];
      match rest[0]
      case HttpError =>
        done := true;
      case Page(pageItems, next) =>
        items := items + pageItems;
        if HasNext(next) {
          token := next;
          rest := rest[1..];
        } else {
          done := true;
        }
    }
  }
}
