/** The counting, grouping and ranking of `generate_statistics`, and the per-row analysis of
    `perform_sentiment_analysis`, over the comment and video tables held by the analyzer. */
module Report {
  import opened Wrappers
  import TextCleaner
  import Sentiment
  import Seqs

  /** The labels reported, in the order they are printed. */
  const Categories: seq<string> := ["positive", "neutral", "negative"]

  /** How many entries equal `name`: `value_counts().get(name, 0)`. */
  function Count(labels: seq<string>, name: string): (n: nat)
    ensures n <= |labels|
    ensures n == 0 <==> name !in labels
  {
    if labels == [] then 0
    else
      assert labels == [labels[0]] + labels[1..];
      (if labels[0] == name then 1 else 0) + Count(labels[1..], name)
  }

  /** The count is the number of times the label occurs. */
  lemma {:induction false} CountOccurrences(labels: seq<string>, name: string)
    ensures Count(labels, name) == multiset(labels)[name]
  {
    if labels != [] {
      CountOccurrences(labels[1..], name);
      assert labels == [labels[0]] + labels[1..];
    }
  }

  /** `count / total * 100 if total > 0 else 0`. */
  function Percentage(count: nat, total: nat): (p: real)
    ensures total == 0 ==> p == 0.0
    ensures total > 0 ==> p * (total as real) == (count as real) * 100.0
    ensures 0.0 <= p
    ensures count <= total ==> p <= 100.0
  {
    if total > 0 then (count as real) / (total as real) * 100.0 else 0.0
  }

  /** One printed line of the sentiment distribution. */
  datatype Share = Share(name: string, count: nat, percent: real)

  /** The loop over the three labels: for each, its count among all comments and its share. */
  method Distribution(labels: seq<string>) returns (shares: seq<Share>)
    ensures IsDistribution(labels, shares)
  {
    shares := [];
    for k := 0 to |Categories|
      invariant |shares| == k
      invariant forall j :: 0 <= j < k ==>
        shares[j] == Share(Categories[j], Count(labels, Categories[j]), Percentage(Count(labels, Categories[j]), |labels|))
    {
      var count := Count(labels, Categories[k]);
      shares := shares + [Share(Categories[k], count, Percentage(count, |labels|))];
    }
  }

  /** When every label is one of the three, the three counts add up to the number of comments. */
  lemma {:induction false} CountsCoverAll(labels: seq<string>)
    requires forall i :: 0 <= i < |labels| ==> labels[i] in Categories
    ensures Count(labels, "positive") + Count(labels, "neutral") + Count(labels, "negative") == |labels|
  {
    if labels != [] {
      CountsCoverAll(labels[1..]);
    }
  }

  /** ... and the three percentages then add up to 100 (when there is at least one comment). */
  lemma PercentagesCoverAll(labels: seq<string>)
    requires labels != []
    requires forall i :: 0 <= i < |labels| ==> labels[i] in Categories
    ensures Percentage(Count(labels, "positive"), |labels|) + Percentage(Count(labels, "neutral"), |labels|)
            + Percentage(Count(labels, "negative"), |labels|) == 100.0
  {
    CountsCoverAll(labels);
    SharesAddUp(Count(labels, "positive"), Count(labels, "neutral"), Count(labels, "negative"), |labels|);
  }

  lemma SharesAddUp(c1: nat, c2: nat, c3: nat, total: nat)
    requires total > 0 && c1 + c2 + c3 == total
    ensures Percentage(c1, total) + Percentage(c2, total) + Percentage(c3, total) == 100.0
  {
    SumOfShares(c1 as real, c2 as real, c3 as real, total as real);
  }

  /** Three parts of a positive whole, each as a percentage of it, add up to 100. */
  lemma SumOfShares(c1: real, c2: real, c3: real, t: real)
    requires t > 0.0 && c1 + c2 + c3 == t
    ensures c1 / t * 100.0 + c2 / t * 100.0 + c3 / t * 100.0 == 100.0
  {
    var q1, q2, q3 := c1 / t, c2 / t, c3 / t;
    assert q1 * t == c1 && q2 * t == c2 && q3 * t == c3;
    Distribute(q1, q2, q3, t);
    CancelFactor(q1 + q2 + q3, 1.0, t);
  }

  lemma Distribute(a: real, b: real, c: real, t: real)
    ensures (a + b + c) * t == a * t + b * t + c * t
  {
  }

  /** Multiplying by a positive factor keeps a strict order. */
  lemma ScaleStrict(x: real, y: real, t: real)
    requires t > 0.0 && x > y
    ensures x * t > y * t
  {
    assert x * t - y * t == (x - y) * t;
  }

  lemma CancelFactor(x: real, y: real, t: real)
    requires t > 0.0 && x * t == y * t
    ensures x == y
  {
    if x > y {
      ScaleStrict(x, y, t);
    } else if y > x {
      ScaleStrict(y, x, t);
    }
  }

  /** The two columns of a comment row that the ranking reads: `video_id` and `vader_compound`. */
  datatype Scored = Scored(videoId: string, compound: real)

  function VideoIds(rows: seq<Scored>): (ids: seq<string>)
    ensures |ids| == |rows|
    ensures forall k :: 0 <= k < |rows| ==> ids[k] == rows[k].videoId
  {
    if rows == [] then [] else [rows[0].videoId] + VideoIds(rows[1..])
  }

  /** The distinct entries, each at its first appearance. */
  function Distinct(xs: seq<string>): (r: seq<string>)
    ensures forall v :: v in r <==> v in xs
    ensures forall i, j :: 0 <= i < j < |r| ==> r[i] != r[j]
  {
    if xs == [] then []
    else
      var init := Distinct(xs[..|xs| - 1]);
      assert xs == xs[..|xs| - 1] + [xs[|xs| - 1]];
      if xs[|xs| - 1] in init then init else init + [xs[|xs| - 1]]
  }

  /** The compound scores of one video's comments, in row order. */
  function CompoundsOf(rows: seq<Scored>, videoId: string): (xs: seq<real>)
    ensures |xs| == Count(VideoIds(rows), videoId)
  {
    if rows == [] then []
    else
      assert VideoIds(rows)[1..] == VideoIds(rows[1..]);
      (if rows[0].videoId == videoId then [rows[0].compound] else []) + CompoundsOf(rows[1..], videoId)
  }

  /** The scores collected are exactly the scores of the video's rows. */
  lemma {:induction false} CompoundsOfRows(rows: seq<Scored>, videoId: string)
    ensures forall x :: x in CompoundsOf(rows, videoId) <==> exists i :: 0 <= i < |rows| && rows[i] == Scored(videoId, x)
  {
    if rows != [] {
      CompoundsOfRows(rows[1..], videoId);
      assert forall i :: 1 <= i < |rows| ==> rows[i] == rows[1..][i - 1];
      forall x | exists i :: 0 <= i < |rows| && rows[i] == Scored(videoId, x)
        ensures x in CompoundsOf(rows, videoId)
      {
        var i :| 0 <= i < |rows| && rows[i] == Scored(videoId, x);
        if i > 0 {
          assert rows[1..][i - 1] == Scored(videoId, x);
        }
      }
    }
  }

  /** Collecting scores works row by row: the scores of two tables one after the other are the
      scores of the first followed by those of the second. */
  lemma {:induction false} CompoundsAppend(a: seq<Scored>, b: seq<Scored>, videoId: string)
    ensures CompoundsOf(a + b, videoId) == CompoundsOf(a, videoId) + CompoundsOf(b, videoId)
  {
    if a == [] {
      assert a + b == b;
    } else {
      var head := if a[0].videoId == videoId then [a[0].compound] else [];
      assert (a + b)[0] == a[0] && (a + b)[1..] == a[1..] + b;
      CompoundsAppend(a[1..], b, videoId);
      assert CompoundsOf(a + b, videoId) == head + CompoundsOf(a[1..] + b, videoId);
      assert CompoundsOf(a, videoId) == head + CompoundsOf(a[1..], videoId);
      Seqs.AppendAssoc(head, CompoundsOf(a[1..], videoId), CompoundsOf(b, videoId));
    }
  }

  function Sum(xs: seq<real>): real
  {
    if xs == [] then 0.0 else xs[0] + Sum(xs[1..])
  }

  /** One row of `groupby('video_id').agg({'vader_compound': 'mean', 'comment_id': 'count'})`. */
  datatype Group = Group(videoId: string, mean: real, count: nat)

  /** The arithmetic mean, as pandas' `mean()` computes it. */
  function Mean(xs: seq<real>): (m: real)
    requires xs != []
    ensures m * (|xs| as real) == Sum(xs)
  {
    Sum(xs) / (|xs| as real)
  }

  /** Scores between `lo` and `hi` add up to between `n * lo` and `n * hi`. */
  lemma {:induction false} SumBetween(xs: seq<real>, lo: real, hi: real)
    requires forall i :: 0 <= i < |xs| ==> lo <= xs[i] <= hi
    ensures (|xs| as real) * lo <= Sum(xs) <= (|xs| as real) * hi
  {
    if xs != [] {
      var tail := xs[1..];
      assert forall i :: 0 <= i < |tail| ==> tail[i] == xs[i + 1];
      SumBetween(tail, lo, hi);
      var n := |tail| as real;
      assert Sum(xs) == xs[0] + Sum(tail);
      assert (|xs| as real) * lo == lo + n * lo;
      assert (|xs| as real) * hi == hi + n * hi;
    }
  }

  /** The mean of scores between `lo` and `hi` is between them too: a video's mean VADER
      compound score stays within [-1, 1]. */
  lemma MeanBetween(xs: seq<real>, lo: real, hi: real)
    requires xs != []
    requires forall i :: 0 <= i < |xs| ==> lo <= xs[i] <= hi
    ensures lo <= Mean(xs) <= hi
  {
    SumBetween(xs, lo, hi);
    var m, n := Mean(xs), |xs| as real;
    if m < lo {
      ScaleStrict(lo, m, n);
    }
    if m > hi {
      ScaleStrict(m, hi, n);
    }
  }

  /** The aggregate of one video's comments: how many there are and their mean compound score. */
  function GroupOf(rows: seq<Scored>, videoId: string): (g: Group)
    requires videoId in VideoIds(rows)
    ensures g.videoId == videoId && g.count >= 1
    ensures g.count == Count(VideoIds(rows), videoId)
    ensures g.mean == Mean(CompoundsOf(rows, videoId))
  {
    var xs := CompoundsOf(rows, videoId);
    Group(videoId, Mean(xs), |xs|)
  }

  /** One group per video that has comments, in order of first appearance; the groups have
      distinct video ids and cover every comment. */
  function GroupByVideo(rows: seq<Scored>): (gs: seq<Group>)
    ensures forall i :: 0 <= i < |gs| ==> gs[i].videoId in VideoIds(rows) && gs[i] == GroupOf(rows, gs[i].videoId)
    ensures forall i, j :: 0 <= i < j < |gs| ==> gs[i].videoId != gs[j].videoId
    ensures forall k :: 0 <= k < |rows| ==> exists i :: 0 <= i < |gs| && gs[i].videoId == rows[k].videoId
  {
    var ids := Distinct(VideoIds(rows));
    var gs := GroupsOf(rows, ids);
    assert forall k :: 0 <= k < |rows| ==> VideoIds(rows)[k] in ids;
    gs
  }

  /** The groups of the given video ids, in order. */
  function GroupsOf(rows: seq<Scored>, ids: seq<string>): (gs: seq<Group>)
    requires forall i :: 0 <= i < |ids| ==> ids[i] in VideoIds(rows)
    ensures |gs| == |ids|
    ensures forall i :: 0 <= i < |ids| ==> gs[i] == GroupOf(rows, ids[i]) && gs[i].videoId == ids[i]
  {
    seq(|ids|, i requires 0 <= i < |ids| => GroupOf(rows, ids[i]))
  }

  /** The two columns of a video row that the ranking joins in: `video_id` and `title`. */
  datatype Titled = Titled(videoId: string, title: string)

  /** A group after the join: `None` is the missing title of a left-join row without a match. */
  datatype Ranked = Ranked(videoId: string, mean: real, count: nat, title: Option<string>)
  {
    /** The group this row was joined from. */
    function Base(): Group
    {
      Group(videoId, mean, count)
    }
  }

  /** The titles of the video rows with this id, in table order. */
  function TitlesFor(videos: seq<Titled>, videoId: string): (ts: seq<string>)
    ensures forall t :: t in ts <==> Titled(videoId, t) in videos
    ensures ts == [] <==> forall v :: v in videos ==> v.videoId != videoId
  {
    if videos == [] then []
    else
      var rest := TitlesFor(videos[1..], videoId);
      assert forall t :: Titled(videoId, t) in videos <==> Titled(videoId, t) == videos[0] || Titled(videoId, t) in videos[1..];
      if videos[0].videoId == videoId then [videos[0].title] + rest else rest
  }

  /** `video_id` is the primary key of the videos table. */
  predicate UniqueIds(videos: seq<Titled>)
  {
    forall i, j :: 0 <= i < j < |videos| ==> videos[i].videoId != videos[j].videoId
  }

  /** With unique ids a video id has at most one title. */
  lemma {:induction false} UniqueIdOneTitle(videos: seq<Titled>, videoId: string)
    requires UniqueIds(videos)
    ensures |TitlesFor(videos, videoId)| <= 1
  {
    if videos != [] {
      var tail := videos[1..];
      assert UniqueIds(tail) by {
        forall i, j | 0 <= i < j < |tail| ensures tail[i].videoId != tail[j].videoId {
          assert tail[i] == videos[i + 1] && tail[j] == videos[j + 1];
        }
      }
      UniqueIdOneTitle(tail, videoId);
      var rest := TitlesFor(tail, videoId);
      if videos[0].videoId == videoId {
        forall j | 0 <= j < |tail| ensures tail[j].videoId != videoId {
          assert tail[j] == videos[j + 1];
        }
        assert forall v :: v in tail ==> v.videoId != videoId;
      }
    }
  }

  /** The rows one group contributes to the join. */
  function JoinGroup(g: Group, titles: seq<string>): (rs: seq<Ranked>)
    ensures |rs| == if titles == [] then 1 else |titles|
    ensures forall k :: 0 <= k < |rs| ==> rs[k].Base() == g
    ensures titles == [] ==> rs[0].title == None
    ensures forall k :: 0 <= k < |titles| ==> rs[k].title == Some(titles[k])
  {
    if titles == [] then [Ranked(g.videoId, g.mean, g.count, None)]
    else seq(|titles|, k requires 0 <= k < |titles| => Ranked(g.videoId, g.mean, g.count, Some(titles[k])))
  }

  /** `merge(videos[['video_id', 'title']], on='video_id', how='left')`: each group once per
      matching video row, in table order, or once without a title when no video row matches. */
  function MergeTitles(groups: seq<Group>, videos: seq<Titled>): (r: seq<Ranked>)
    ensures |r| >= |groups|
  {
    if groups == [] then []
    else JoinGroup(groups[0], TitlesFor(videos, groups[0].videoId)) + MergeTitles(groups[1..], videos)
  }

  /** Every group is the base of some row. */
  predicate Covers(groups: seq<Group>, rs: seq<Ranked>)
  {
    forall i :: 0 <= i < |groups| ==> exists j :: 0 <= j < |rs| && rs[j].Base() == groups[i]
  }

  /** A left join never drops a group: each appears in at least one joined row. */
  lemma {:induction false} MergeKeepsGroups(groups: seq<Group>, videos: seq<Titled>)
    ensures Covers(groups, MergeTitles(groups, videos))
  {
    if groups != [] {
      MergeKeepsGroups(groups[1..], videos);
      var head := JoinGroup(groups[0], TitlesFor(videos, groups[0].videoId));
      assert |head| >= 1 && head[0].Base() == groups[0];
      CoversCons(groups, head, MergeTitles(groups[1..], videos));
    }
  }

  /** Rows for the first group in front of rows covering the others cover them all. */
  lemma CoversCons(groups: seq<Group>, head: seq<Ranked>, rest: seq<Ranked>)
    requires groups != [] && head != [] && head[0].Base() == groups[0]
    requires Covers(groups[1..], rest)
    ensures Covers(groups, head + rest)
  {
    var r := head + rest;
    forall i | 0 <= i < |groups| ensures exists j :: 0 <= j < |r| && r[j].Base() == groups[i] {
      var j := 0;
      if i > 0 {
        assert groups[i] == groups[1..][i - 1];
        var j' :| 0 <= j' < |rest| && rest[j'].Base() == groups[1..][i - 1];
        j := |head| + j';
        assert r[j] == rest[j'];
      }
      assert 0 <= j < |r| && r[j].Base() == groups[i];
    }
  }

  /** Every joined row carries one of the groups, and its title (when it has one) is the title of
      a video row with that id; a row without a title is a group no video row matches. */
  lemma {:induction false} MergeRows(groups: seq<Group>, videos: seq<Titled>)
    ensures forall r :: r in MergeTitles(groups, videos) ==>
      r.Base() in groups &&
      (r.title.Some? ==> Titled(r.videoId, r.title.value) in videos) &&
      (r.title.None? ==> TitlesFor(videos, r.videoId) == [])
  {
    if groups != [] {
      MergeRows(groups[1..], videos);
      var ts := TitlesFor(videos, groups[0].videoId);
      var head := JoinGroup(groups[0], ts);
      assert MergeTitles(groups, videos) == head + MergeTitles(groups[1..], videos);
      assert groups == [groups[0]] + groups[1..];
      forall r | r in head
        ensures r.Base() in groups
        ensures r.title.Some? ==> Titled(r.videoId, r.title.value) in videos
        ensures r.title.None? ==> TitlesFor(videos, r.videoId) == []
      {
        var k :| 0 <= k < |head| && head[k] == r;
        if ts != [] {
          assert ts[k] in ts;
        }
      }
    }
  }

  /** When `video_id` is unique among the videos, the join neither drops nor repeats a group. */
  lemma {:induction false} MergeOneToOne(groups: seq<Group>, videos: seq<Titled>)
    requires UniqueIds(videos)
    ensures |MergeTitles(groups, videos)| == |groups|
    ensures forall i :: 0 <= i < |groups| ==> MergeTitles(groups, videos)[i].Base() == groups[i]
  {
    if groups != [] {
      UniqueIdOneTitle(videos, groups[0].videoId);
      MergeOneToOne(groups[1..], videos);
      var r := MergeTitles(groups, videos);
      var rest := MergeTitles(groups[1..], videos);
      var head := JoinGroup(groups[0], TitlesFor(videos, groups[0].videoId));
      assert r == head + rest;
      assert |head| == 1 && r[0] == head[0] && head[0].Base() == groups[0];
      forall i | 1 <= i < |groups| ensures r[i].Base() == groups[i] {
        assert r[i] == rest[i - 1];
        assert groups[1..][i - 1] == groups[i];
      }
    }
  }

  /** Rows ordered by mean sentiment, highest first. */
  predicate Descending(rs: seq<Ranked>)
  {
    forall i, j :: 0 <= i < j < |rs| ==> rs[i].mean >= rs[j].mean
  }

  /** Places `x` before the first row whose mean does not exceed its own, so that of two rows
      with equal means the one inserted later (the earlier input row) comes first. */
  function InsertDesc(x: Ranked, ys: seq<Ranked>): (r: seq<Ranked>)
    requires Descending(ys)
    ensures |r| == |ys| + 1
    ensures r[0] == x || (ys != [] && r[0] == ys[0])
    ensures Descending(r)
    ensures multiset(r) == multiset(ys) + multiset{x}
  {
    if ys == [] || ys[0].mean <= x.mean then
      ConsDescending(x, ys);
      [x] + ys
    else
      DescendingTail(ys);
      var rest := InsertDesc(x, ys[1..]);
      assert ys == [ys[0]] + ys[1..];
      ConsDescending(ys[0], rest);
      [ys[0]] + rest
  }

  lemma DescendingTail(ys: seq<Ranked>)
    requires ys != [] && Descending(ys)
    ensures Descending(ys[1..])
  {
    forall i, j | 0 <= i < j < |ys| - 1 ensures ys[1..][i].mean >= ys[1..][j].mean {
      assert ys[1..][i] == ys[i + 1] && ys[1..][j] == ys[j + 1];
    }
  }

  /** Putting a row in front of rows with no higher mean keeps the order. */
  lemma ConsDescending(y: Ranked, rest: seq<Ranked>)
    requires Descending(rest)
    requires rest != [] ==> rest[0].mean <= y.mean
    ensures Descending([y] + rest)
  {
    var r := [y] + rest;
    forall i, j | 0 <= i < j < |r| ensures r[i].mean >= r[j].mean {
      assert r[j] == rest[j - 1];
      if i > 0 {
        assert r[i] == rest[i - 1];
      } else if j > 1 {
        assert rest[0].mean >= rest[j - 1].mean;
      }
    }
  }

  /** A stable sort by mean, highest first. */
  function SortDesc(xs: seq<Ranked>): (r: seq<Ranked>)
    ensures |r| == |xs|
    ensures Descending(r)
    ensures multiset(r) == multiset(xs)
  {
    if xs == [] then []
    else
      assert xs == [xs[0]] + xs[1..];
      InsertDesc(xs[0], SortDesc(xs[1..]))
  }

  /** `nlargest(n, 'vader_compound')`: the first `n` rows of the rows sorted by mean. */
  function NLargest(xs: seq<Ranked>, n: nat): (r: seq<Ranked>)
    ensures |r| == Min(n, |xs|)
    ensures Descending(r)
  {
    SortDesc(xs)[..Min(n, |xs|)]
  }

  /** In a descending sequence nothing after position `m` beats anything before it. */
  lemma PrefixDominates(s: seq<Ranked>, m: nat)
    requires Descending(s) && m <= |s|
    ensures forall y, i :: y in s[m..] && 0 <= i < m ==> y.mean <= s[i].mean
  {
    forall y, i | y in s[m..] && 0 <= i < m ensures y.mean <= s[i].mean {
      var j :| m <= j < |s| && s[j] == y;
    }
  }

  /** The top rows are as many as asked for (or all), come highest first, are drawn from the
      input, and no row left out has a higher mean than any row kept. */
  lemma NLargestSelects(xs: seq<Ranked>, n: nat)
    ensures |NLargest(xs, n)| == Min(n, |xs|)
    ensures Descending(NLargest(xs, n))
    ensures multiset(NLargest(xs, n)) <= multiset(xs)
    ensures forall y, i :: y in multiset(xs) - multiset(NLargest(xs, n)) && 0 <= i < |NLargest(xs, n)| ==>
      y.mean <= NLargest(xs, n)[i].mean
  {
    var s := SortDesc(xs);
    var m := Min(n, |xs|);
    assert NLargest(xs, n) == s[..m];
    TakeRest(s, m);
    PrefixDominates(s, m);
    assert multiset(s) == multiset(xs);
  }

  /** Cutting a sequence at `m`: the prefix is a sub-multiset, and what the prefix leaves out is
      the suffix. */
  lemma TakeRest(s: seq<Ranked>, m: nat)
    requires m <= |s|
    ensures multiset(s[..m]) <= multiset(s)
    ensures multiset(s) - multiset(s[..m]) == multiset(s[m..])
  {
    assert s == s[..m] + s[m..];
  }

  /** A title as printed in the ranking: at most 50 characters, then `...` when it was longer. */
  function ShowTitle(title: string): (shown: string)
    ensures |title| <= 50 ==> shown == title
    ensures |title| > 50 ==> |shown| == 53 && shown[..50] == title[..50] && shown[50..] == "..."
  {
    if |title| > 50 then title[..50] + "..." else title
  }

  /** Showing a title that is already shown changes nothing. */
  lemma ShowTitleIdempotent(title: string)
    ensures ShowTitle(ShowTitle(title)) == ShowTitle(title)
  {
    if |title| > 50 {
      assert ShowTitle(title)[..50] == title[..50];
    }
  }

  /** One printed ranking line: mean sentiment, shown title and number of comments. */
  datatype Line = Line(mean: real, title: string, count: nat)

  /** The printed lines; `failed` when a row without a title stopped the loop (`len` of a
      missing value raises `TypeError`). */
  datatype Listing = Listing(lines: seq<Line>, failed: bool)

  /** The lines printed for the top rows, in order, up to the first row without a title. */
  function RankingLines(top: seq<Ranked>): (l: Listing)
    ensures l.failed <==> exists k :: 0 <= k < |top| && top[k].title.None?
    ensures !l.failed ==> |l.lines| == |top|
    ensures |l.lines| <= |top|
    ensures forall k :: 0 <= k < |l.lines| ==>
      top[k].title.Some? && l.lines[k] == Line(top[k].mean, ShowTitle(top[k].title.value), top[k].count)
    ensures l.failed ==> top[|l.lines|].title.None?
  {
    if top == [] then Listing([], false)
    else if top[0].title.None? then Listing([], true)
    else
      var rest := RankingLines(top[1..]);
      assert forall k :: 1 <= k < |top| ==> top[k] == top[1..][k - 1];
      Listing([Line(top[0].mean, ShowTitle(top[0].title.value), top[0].count)] + rest.lines, rest.failed)
  }

  /** `(like_count + comment_count) / view_count * 100`; `None` stands for the infinite or
      undefined value pandas yields for a video without views. */
  function EngagementRate(likes: nat, comments: nat, views: nat): (rate: Option<real>)
    ensures rate.None? <==> views == 0
    ensures rate.Some? ==> rate.value >= 0.0
    ensures rate.Some? ==> rate.value * (views as real) == ((likes + comments) as real) * 100.0
  {
    if views == 0 then None else Some(((likes + comments) as real) / (views as real) * 100.0)
  }

  /** A rate above 100% is possible exactly when likes and comments outnumber views. */
  lemma EngagementAboveFull(likes: nat, comments: nat, views: nat)
    requires views > 0
    ensures EngagementRate(likes, comments, views).value > 100.0 <==> likes + comments > views
  {
    var r := EngagementRate(likes, comments, views).value;
    var v := views as real;
    assert r * v == ((likes + comments) as real) * 100.0;
    if r > 100.0 {
      ScaleStrict(r, 100.0, v);
    } else if r < 100.0 {
      ScaleStrict(100.0, r, v);
    }
  }

  /** A worked case: three comments on one video scoring 0.6, -0.6 and 0.0. */
  const SampleRows: seq<Scored> := [Scored("A", 0.6), Scored("A", -0.6), Scored("A", 0.0)]

  lemma SampleIds()
    ensures VideoIds(SampleRows) == ["A", "A", "A"]
  {
    assert VideoIds(SampleRows[2..]) == ["A"];
    assert VideoIds(SampleRows[1..]) == ["A", "A"];
  }

  lemma SampleDistinctOne()
    ensures Distinct(["A"]) == ["A"]
  {
    var one: seq<string> := ["A"];
    assert one[..0] == [];
  }

  lemma SampleDistinctTwo()
    ensures Distinct(["A", "A"]) == ["A"]
  {
    var two: seq<string> := ["A", "A"];
    SampleDistinctOne();
    assert two[..1] == ["A"];
  }

  lemma SampleDistinct()
    ensures Distinct(["A", "A", "A"]) == ["A"]
  {
    var ids: seq<string> := ["A", "A", "A"];
    SampleDistinctTwo();
    assert ids[..2] == ["A", "A"];
  }

  lemma SampleCompounds()
    ensures CompoundsOf(SampleRows, "A") == [0.6, -0.6, 0.0]
  {
    assert CompoundsOf(SampleRows[2..], "A") == [0.0];
    assert CompoundsOf(SampleRows[1..], "A") == [-0.6, 0.0];
  }

  lemma SampleMean()
    ensures Mean([0.6, -0.6, 0.0]) == 0.0
  {
    var xs := [0.6, -0.6, 0.0];
    var last: seq<real> := [0.0];
    assert Sum(last) == 0.0 by {
      assert last[1..] == [];
    }
    assert Sum(xs[1..]) == -0.6 by {
      assert xs[1..][1..] == last;
    }
  }

  lemma SampleGroupOf()
    ensures GroupOf(SampleRows, "A") == Group("A", 0.0, 3)
  {
    SampleIds();
    SampleCompounds();
    SampleMean();
  }

  /** The sample's three comments form one group, with mean 0.0. */
  lemma SampleGroups()
    ensures GroupByVideo(SampleRows) == [Group("A", 0.0, 3)]
  {
    SampleIds();
    SampleDistinct();
    SampleGroupOf();
    var gs := GroupByVideo(SampleRows);
    assert |gs| == 1;
    assert gs[0] == GroupOf(SampleRows, "A");
  }

  const SampleVideos: seq<Titled> := [Titled("A", "Video A"), Titled("B", "Video B")]

  const SampleTop: Ranked := Ranked("A", 0.0, 3, Some("Video A"))

  lemma SampleTitles()
    ensures TitlesFor(SampleVideos, "A") == ["Video A"]
  {
    assert SampleVideos[1..] == [Titled("B", "Video B")];
    assert TitlesFor(SampleVideos[1..], "A") == [];
  }

  lemma SampleMerge()
    ensures MergeTitles([Group("A", 0.0, 3)], SampleVideos) == [SampleTop]
  {
    SampleTitles();
    var gs := [Group("A", 0.0, 3)];
    assert gs[1..] == [];
  }

  lemma SampleNLargest()
    ensures NLargest([SampleTop], 5) == [SampleTop]
  {
    var xs := [SampleTop];
    assert xs[1..] == [];
    assert SortDesc(xs) == xs;
  }

  lemma SampleLines()
    ensures RankingLines([SampleTop]) == Listing([Line(0.0, "Video A", 3)], false)
  {
    var xs := [SampleTop];
    assert xs[1..] == [];
  }

  const SampleVideoRows: seq<VideoRow> := [VideoRow("A", "Video A", 10, 1, 3), VideoRow("B", "Video B", 10, 1, 0)]

  lemma SampleTitled()
    ensures TitledOf(SampleVideoRows) == SampleVideos
  {
    var ts := TitledOf(SampleVideoRows);
    assert ts[0] == SampleVideos[0] && ts[1] == SampleVideos[1];
  }

  /** With a second video that has no comments, the ranking shows the commented video alone:
      a video without comments forms no group. */
  lemma SampleRanking()
    ensures Ranking(SampleRows, Some(SampleVideoRows)) == Listing([Line(0.0, "Video A", 3)], false)
  {
    SampleGroups();
    SampleTitled();
    SampleMerge();
    SampleNLargest();
    SampleLines();
  }

  /** The sample's labels are one of each, a third apiece. */
  lemma SampleDistribution()
    ensures IsDistribution(
      [Sentiment.VaderLabel(0.6).Name(), Sentiment.VaderLabel(-0.6).Name(), Sentiment.VaderLabel(0.0).Name()],
      [Share("positive", 1, 100.0 / 3.0), Share("neutral", 1, 100.0 / 3.0), Share("negative", 1, 100.0 / 3.0)])
  {
    var labels := ["positive", "negative", "neutral"];
    assert labels[1..] == ["negative", "neutral"] && labels[2..] == ["neutral"];
    assert Count(labels, "positive") == 1;
    assert Count(labels, "neutral") == 1;
    assert Count(labels, "negative") == 1;
  }

  /** A row of the comments table: `comment_text` may be missing. */
  datatype CommentRow = CommentRow(videoId: string, commentId: string, text: Option<string>)

  /** The columns `perform_sentiment_analysis` adds to a comment row. */
  datatype CommentAnalysis = CommentAnalysis(cleaned: string, blob: Sentiment.BlobResult, vader: Sentiment.VaderResult)

  /** A row of the videos table, with the columns the analysis reads. */
  datatype VideoRow = VideoRow(videoId: string, title: string, views: nat, likes: nat, comments: nat)

  /** The columns `perform_sentiment_analysis` adds to a video row. */
  datatype TitleAnalysis = TitleAnalysis(cleaned: string, sentiment: Sentiment.Label, compound: real)

  /** One comment: cleaned text, then both scorers on the cleaned text. A comment without text,
      or whose text cleans away entirely, is neutral with zero scores under both. */
  function AnalyzeComment(cc: TextCleaner.CharClasses, blob: string -> Sentiment.BlobScores,
                          vader: string -> Sentiment.VaderScores, row: CommentRow): (a: CommentAnalysis)
    ensures a.cleaned == TextCleaner.Clean(cc, row.text)
    ensures a.blob.sentiment == Sentiment.BlobLabel(a.blob.polarity)
    ensures a.vader.sentiment == Sentiment.VaderLabel(a.vader.scores.compound)
    ensures a.cleaned == "" ==> a.blob == Sentiment.BlobResult(0.0, 0.0, Sentiment.Neutral)
    ensures a.cleaned == "" ==>
      a.vader == Sentiment.VaderResult(Sentiment.VaderScores(0.0, 0.0, 1.0, 0.0), Sentiment.Neutral)
  {
    var cleaned := TextCleaner.Clean(cc, row.text);
    CommentAnalysis(cleaned, Sentiment.AnalyzeBlob(cc, blob, cleaned), Sentiment.AnalyzeVader(cc, vader, cleaned))
  }

  /** One video title: cleaned, then labelled by VADER. */
  function AnalyzeTitle(cc: TextCleaner.CharClasses, vader: string -> Sentiment.VaderScores, row: VideoRow): (t: TitleAnalysis)
    ensures t.cleaned == TextCleaner.Clean(cc, Some(row.title))
    ensures t.sentiment == Sentiment.VaderLabel(t.compound)
    ensures t.cleaned == "" ==> t.sentiment == Sentiment.Neutral && t.compound == 0.0
  {
    var cleaned := TextCleaner.Clean(cc, Some(row.title));
    var r := Sentiment.AnalyzeVader(cc, vader, cleaned);
    TitleAnalysis(cleaned, r.sentiment, r.scores.compound)
  }

  /** `apply` of the comment analysis down the comments table. */
  function AnalyzeComments(cc: TextCleaner.CharClasses, blob: string -> Sentiment.BlobScores,
                           vader: string -> Sentiment.VaderScores, rows: seq<CommentRow>): (a: seq<CommentAnalysis>)
    ensures |a| == |rows|
    ensures forall i :: 0 <= i < |rows| ==> a[i] == AnalyzeComment(cc, blob, vader, rows[i])
  {
    seq(|rows|, i requires 0 <= i < |rows| => AnalyzeComment(cc, blob, vader, rows[i]))
  }

  /** `apply` of the title analysis down the videos table. */
  function AnalyzeTitles(cc: TextCleaner.CharClasses, vader: string -> Sentiment.VaderScores,
                         rows: seq<VideoRow>): (t: seq<TitleAnalysis>)
    ensures |t| == |rows|
    ensures forall i :: 0 <= i < |rows| ==> t[i] == AnalyzeTitle(cc, vader, rows[i])
  {
    seq(|rows|, i requires 0 <= i < |rows| => AnalyzeTitle(cc, vader, rows[i]))
  }

  /** The `engagement_rate` column of the videos table. */
  function EngagementColumn(rows: seq<VideoRow>): (rates: seq<Option<real>>)
    ensures |rates| == |rows|
    ensures forall i :: 0 <= i < |rows| ==> rates[i] == EngagementRate(rows[i].likes, rows[i].comments, rows[i].views)
  {
    seq(|rows|, i requires 0 <= i < |rows| => EngagementRate(rows[i].likes, rows[i].comments, rows[i].views))
  }

  /** The distribution printed for these labels, one share per category in order. */
  predicate IsDistribution(labels: seq<string>, shares: seq<Share>)
  {
    |shares| == |Categories| &&
    forall k :: 0 <= k < |Categories| ==>
      shares[k] == Share(Categories[k], Count(labels, Categories[k]), Percentage(Count(labels, Categories[k]), |labels|))
  }

  /** `videos[['video_id', 'title']]`: the two columns the ranking joins in. */
  function TitledOf(vs: seq<VideoRow>): (ts: seq<Titled>)
    ensures |ts| == |vs|
    ensures forall i :: 0 <= i < |vs| ==> ts[i] == Titled(vs[i].videoId, vs[i].title)
  {
    seq(|vs|, i requires 0 <= i < |vs| => Titled(vs[i].videoId, vs[i].title))
  }

  /** The ranking printed from the analysed comments: groups by video, joined with the titles,
      top five by mean. Without a videos table the join itself fails. */
  function Ranking(rows: seq<Scored>, videos: Option<seq<VideoRow>>): (l: Listing)
    ensures videos.None? ==> l == Listing([], true)
    ensures |l.lines| <= 5
    ensures videos.Some? && rows == [] ==> l == Listing([], false)
  {
    match videos
    case None => Listing([], true)
    case Some(vs) =>
      RankingLines(NLargest(MergeTitles(GroupByVideo(rows), TitledOf(vs)), 5))
  }

  /** What `generate_statistics` reports about the comments: the distribution and the ranking,
      each present only when the comments have been analysed. */
  datatype Statistics = Statistics(distribution: Option<seq<Share>>, ranking: Option<Listing>)

  /** The analyzer and the tables it holds. A table is `None` until loaded; the analysis columns
      are `None` until `PerformSentimentAnalysis` has added them. */
  class SentimentAnalyzer {
    const cc: TextCleaner.CharClasses
    const blobScorer: string -> Sentiment.BlobScores
    const vaderScorer: string -> Sentiment.VaderScores
    var comments: Option<seq<CommentRow>>
    var commentAnalysis: Option<seq<CommentAnalysis>>
    var videos: Option<seq<VideoRow>>
    var titleAnalysis: Option<seq<TitleAnalysis>>
    var engagement: Option<seq<Option<real>>>

    /** Analysis columns belong to the table they were computed on, row by row: each is the
        analysis of the table as it now stands. */
    predicate Valid()
      reads this
    {
      (commentAnalysis.Some? ==>
         comments.Some? && |comments.value| > 0 &&
         commentAnalysis.value == AnalyzeComments(cc, blobScorer, vaderScorer, comments.value)) &&
      (titleAnalysis.Some? ==> videos.Some? && titleAnalysis.value == AnalyzeTitles(cc, vaderScorer, videos.value)) &&
      (engagement.Some? ==> videos.Some? && engagement.value == EngagementColumn(videos.value))
    }

    constructor(cc: TextCleaner.CharClasses, blobScorer: string -> Sentiment.BlobScores,
                vaderScorer: string -> Sentiment.VaderScores)
      ensures Valid()
      ensures this.cc == cc && this.blobScorer == blobScorer && this.vaderScorer == vaderScorer
      ensures comments == None && videos == None
      ensures commentAnalysis == None && titleAnalysis == None && engagement == None
    {
      this.cc := cc;
      this.blobScorer := blobScorer;
      this.vaderScorer := vaderScorer;
      comments := None;
      commentAnalysis := None;
      videos := None;
      titleAnalysis := None;
      engagement := None;
    }

    /** `load_from_csv`: a missing videos file fails and leaves the videos and comments as they
        were; a missing comments file leaves the comments as they were. A table read afresh
        has no analysis columns. */
    method Load(videoFile: Option<seq<VideoRow>>, commentFile: Option<seq<CommentRow>>) returns (ok: bool)
      requires Valid()
      modifies this
      ensures Valid()
      ensures ok <==> videoFile.Some?
      ensures !ok ==> unchanged(this)
      ensures ok ==> videos == videoFile && titleAnalysis == None && engagement == None
      ensures ok && commentFile.Some? ==> comments == commentFile && commentAnalysis == None
      ensures ok && commentFile.None? ==> comments == old(comments) && commentAnalysis == old(commentAnalysis)
    {
      if videoFile.None? {
        return false;
      }
      videos := videoFile;
      titleAnalysis := None;
      engagement := None;
      if commentFile.Some? {
        comments := commentFile;
        commentAnalysis := None;
      }
      return true;
    }

    /** `perform_sentiment_analysis`: every comment row (when there is at least one) and every
        video title gets its analysis columns; the tables themselves are not changed. */
    method PerformSentimentAnalysis()
      requires Valid()
      modifies this`commentAnalysis, this`titleAnalysis
      ensures Valid()
      ensures comments.Some? && |comments.value| > 0 ==>
        commentAnalysis == Some(AnalyzeComments(cc, blobScorer, vaderScorer, comments.value))
      ensures !(comments.Some? && |comments.value| > 0) ==> commentAnalysis == old(commentAnalysis)
      ensures videos.Some? ==> titleAnalysis == Some(AnalyzeTitles(cc, vaderScorer, videos.value))
      ensures videos.None? ==> titleAnalysis == old(titleAnalysis)
    {
      if comments.Some? && |comments.value| > 0 {
        commentAnalysis := Some(AnalyzeComments(cc, blobScorer, vaderScorer, comments.value));
      }
      if videos.Some? {
        titleAnalysis := Some(AnalyzeTitles(cc, vaderScorer, videos.value));
      }
    }

    /** The VADER label of every analysed comment, as a column of names. */
    function Labels(): (labels: seq<string>)
      reads this
      requires Valid() && commentAnalysis.Some?
      ensures |labels| == |comments.value|
      ensures forall i :: 0 <= i < |labels| ==> labels[i] in Categories
      ensures forall i :: 0 <= i < |labels| ==> labels[i] == commentAnalysis.value[i].vader.sentiment.Name()
      ensures forall i :: 0 <= i < |labels| ==>
        labels[i] == AnalyzeComment(cc, blobScorer, vaderScorer, comments.value[i]).vader.sentiment.Name()
    {
      var a := commentAnalysis.value;
      seq(|a|, i requires 0 <= i < |a| => a[i].vader.sentiment.Name())
    }

    /** The analysed comments as (video, compound score) rows for grouping. */
    function ScoredRows(): (rows: seq<Scored>)
      reads this
      requires Valid() && commentAnalysis.Some?
      ensures |rows| == |comments.value|
      ensures forall i :: 0 <= i < |rows| ==>
        rows[i] == Scored(comments.value[i].videoId, commentAnalysis.value[i].vader.scores.compound)
      ensures forall i :: 0 <= i < |rows| ==>
        rows[i] == Scored(comments.value[i].videoId,
                          AnalyzeComment(cc, blobScorer, vaderScorer, comments.value[i]).vader.scores.compound)
    {
      var a := commentAnalysis.value;
      var cs := comments.value;
      seq(|a|, i requires 0 <= i < |a| => Scored(cs[i].videoId, a[i].vader.scores.compound))
    }

    /** `generate_statistics`: the engagement column is added to the videos, and the comment
        distribution and ranking are computed when the comments have been analysed. */
    method GenerateStatistics() returns (stats: Statistics)
      requires Valid()
      modifies this`engagement
      ensures Valid()
      ensures videos.Some? ==> engagement == Some(EngagementColumn(videos.value))
      ensures videos.None? ==> engagement == old(engagement)
      ensures commentAnalysis.None? ==> stats == Statistics(None, None)
      ensures commentAnalysis.Some? ==>
        stats.distribution.Some? && IsDistribution(Labels(), stats.distribution.value) &&
        stats.ranking == Some(Ranking(ScoredRows(), videos))
    {
      if videos.Some? {
        engagement := Some(EngagementColumn(videos.value));
      }
      if commentAnalysis.None? {
        return Statistics(None, None);
      }
      var shares := Distribution(Labels());
      stats := Statistics(Some(shares), Some(Ranking(ScoredRows(), videos)));
    }
  }
}
