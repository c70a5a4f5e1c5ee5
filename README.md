# ytcoll in Dafny

A model of the two halves of ytcoll, a YouTube comment collector and sentiment analyzer.

- **Collector** (`ytcoll.py`, class `YouTubeDataCollector`):
  - resolves a channel URL to a channel id;
  - pages through a channel's uploads and each video's comment threads;
  - fetches video details in batches of 50;
  - keeps channel, video and comment records in three lists;
  - exports them to PostgreSQL with upserts, an insert-or-ignore, two foreign keys and one commit.
- **Analyzer** (`ytanalysis.py`, class `YouTubeSentimentAnalyzer`):
  - cleans comment text;
  - labels it with TextBlob and VADER thresholds;
  - reports the label distribution;
  - ranks videos by the mean VADER compound score of their comments.

Modules:

- `TextCleaner`: `clean_text` as four stages over `seq<char>`:
  - URL removal;
  - lazy tag removal;
  - character filter;
  - whitespace collapse.

  Python's `\w` and `\s` classes are kept abstract (`CharClasses`). `Sane` states the facts about them the proofs rely on, and `Ascii` is a concrete instance that satisfies them.
- `Sentiment`: the two labelling rules. The TextBlob and VADER scorers are function parameters.
- `Report`: the analyzer as a class holding its tables, plus the pure functions behind `generate_statistics`:
  - counts and percentages;
  - group-by with mean;
  - left merge with titles;
  - top five by mean;
  - title truncation;
  - engagement rate.
- `Records`: the channel, video and comment records built from API items, with their defaults.
- `ChannelUrl`: `get_channel_id_from_url`.
- `Collector`: the paged loops, the batching and the collector class with its three lists.
- `Store`: the three tables as maps keyed by primary key, the row statements and the all-or-nothing export.
- `Seqs`, `Wrappers`: sequence helpers (join, split, flatten), `Option`, `Result`, `Min`.

`clean_text` is not idempotent. `CleanNotIdempotent` shows it on `ww:wx`:
1. The filter deletes `:`, giving `wwwx`.
2. `wwwx` now starts with `www` followed by a non-space, so a second cleaning deletes it as a URL.

The ranking fails with a `TypeError` whenever a top video has no title. That happens when it is missing from the videos table, or when no videos table is loaded. `RankingLines` and `Ranking` model that failure as `failed`.

## Model

| member | source | states |
|---|---|---|
| TextCleaner.Clean | ytanalysis.py:80-100 | a missing cell or the empty string cleans to the empty string |
| TextCleaner.CleanShorter | ytanalysis.py:86-98 | the cleaned text is never longer than the input |
| TextCleaner.CleanCharset | ytanalysis.py:95-98 | every character left is a word character, a space or one of `. , ! ? -`; every whitespace character is a single space strictly between two non-whitespace characters (no leading, trailing or double spaces, no tabs or newlines) |
| TextCleaner.CleanDropsMarkup | ytanalysis.py:92-95 | no `<`, `>`, `:` or `/` survives cleaning |
| TextCleaner.CleanNotIdempotent | ytanalysis.py:89-98 | cleaning `ww:wx` gives `wwwx`, and cleaning that again gives the empty string |
| TextCleaner.NonSpaceRun | ytanalysis.py:89 | `\S+` consumes exactly the maximal run of non-whitespace characters |
| TextCleaner.UrlMatch | ytanalysis.py:89 | a URL match starts exactly where `http` or `www` is followed by a non-whitespace character; it is the prefix followed by non-whitespace characters up to the next whitespace or the end |
| TextCleaner.UrlMatchIsRun | ytanalysis.py:89 | with Python's classes a URL match is the whole leading run of non-whitespace characters |
| TextCleaner.HttpsCovered | ytanalysis.py:89 | where `https\S+` matches, `http\S+` already matches the same text, so the third alternative adds nothing |
| TextCleaner.StripUrls | ytanalysis.py:89 | URL removal never lengthens the text |
| TextCleaner.StripUrlsDeletes | ytanalysis.py:89 | URL removal only deletes: no character is added or duplicated (sub-multiset) |
| TextCleaner.StripUrlsUnchanged | ytanalysis.py:89 | text where no URL match starts is left unchanged |
| TextCleaner.StripUrlsLeavesNoUrl | ytanalysis.py:89 | with Python's classes no URL match starts anywhere in the result: every match is removed up to the whitespace after it, and no kept characters form a new one |
| TextCleaner.StripUrlsFirstMatch | ytanalysis.py:89 | the text before the leftmost match is kept, the match itself is removed, and removal resumes right after it |
| TextCleaner.TagClose | ytanalysis.py:92 | a lazy tag closes at the first `>` after `<`, and only if no newline comes first |
| TextCleaner.StripTags | ytanalysis.py:92 | tag removal never lengthens the text |
| TextCleaner.StripTagsDeletes | ytanalysis.py:92 | tag removal only deletes: no character is added or duplicated (sub-multiset) |
| TextCleaner.StripTagsUnchanged | ytanalysis.py:92 | text without `<` is left unchanged |
| TextCleaner.StripTagsLeavesNoTag | ytanalysis.py:92 | no tag is left in the result: after every remaining `<` a newline comes before any `>` |
| TextCleaner.StripTagsFirstTag | ytanalysis.py:92 | the text before the first `<` that closes is kept, the tag through its first `>` is removed, and removal resumes after it |
| TextCleaner.FilterChars | ytanalysis.py:95 | the filter never lengthens the text, and every character it keeps is a word character, whitespace or allowed punctuation |
| TextCleaner.FilterDeletes | ytanalysis.py:95 | the filter only deletes: no character is added or duplicated (sub-multiset) |
| TextCleaner.FilterAppend | ytanalysis.py:95 | the character filter works character by character: filtering a concatenation is concatenating the filtered parts |
| TextCleaner.Split | ytanalysis.py:98 | `split()` yields non-empty words free of whitespace, made of characters of the input |
| TextCleaner.SplitEmptyIffBlank | ytanalysis.py:98 | `split()` finds no word exactly when the text is empty or all whitespace |
| TextCleaner.SplitJoinWords | ytanalysis.py:98 | splitting words joined with single spaces gives the words back |
| TextCleaner.Collapse | ytanalysis.py:98 | `' '.join(text.split())` keeps the words: splitting the result finds the same words as splitting the input |
| TextCleaner.CollapseIdempotent | ytanalysis.py:98 | collapsing whitespace twice is collapsing it once |
| TextCleaner.CollapseShorter | ytanalysis.py:98 | collapsing whitespace never lengthens the text |
| TextCleaner.CollapseShape | ytanalysis.py:98 | collapsed text is normalized, and every character is a space or a non-whitespace character of the input |
| TextCleaner.JoinNormalized | ytanalysis.py:98 | joining non-empty whitespace-free words with single spaces yields normalized text |
| TextCleaner.Ascii | ytanalysis.py:95 | the ASCII classes satisfy the facts the cleaning properties assume of `\w` and `\s` |
| Sentiment.BlobLabel | ytanalysis.py:114-119 | positive exactly when polarity > 0.1, negative exactly when < -0.1, neutral exactly in between, 0.1 included |
| Sentiment.IsBlank | ytanalysis.py:104 | `not text or text.strip() == ''` holds exactly when `split()` finds no word in the text |
| Sentiment.AnalyzeBlob | ytanalysis.py:102-125 | blank text gives polarity 0, subjectivity 0, neutral; otherwise the scorer's values; the label always matches the polarity |
| Sentiment.VaderLabel | ytanalysis.py:141-146 | positive exactly when compound >= 0.05, negative exactly when <= -0.05, neutral strictly in between |
| Sentiment.AnalyzeVader | ytanalysis.py:127-149 | blank text gives compound 0, pos 0, neu 1, neg 0, neutral; otherwise the scorer's scores; the label always matches the compound |
| Sentiment.Label.Name | ytanalysis.py:114-119 | each label's name is one of `positive`, `neutral`, `negative` |
| Sentiment.LabelsMonotone | ytanalysis.py:114-146 | a higher score never gets a more negative label, under either rule |
| Sentiment.BlankIgnoresScorer | ytanalysis.py:104-136 | blank text never reaches the scorer: any two scorers give the same result |
| Sentiment.ThresholdsDiffer | ytanalysis.py:114-146 | the rules disagree at 0.05 and -0.1 (VADER labels, TextBlob stays neutral) |
| Report.Count | ytanalysis.py:223-227 | a count is at most the number of labels, and zero exactly when the label is absent |
| Report.CountOccurrences | ytanalysis.py:223-227 | the count of a label is the number of times it occurs (its multiplicity) |
| Report.Percentage | ytanalysis.py:228 | 0 for no comments; otherwise percentage times total equals count times 100; never negative, and at most 100 when the count is at most the total |
| Report.Distribution | ytanalysis.py:226-230 | one share per category, in order, each with its count and percentage |
| Report.CountsCoverAll | ytanalysis.py:223-230 | when every label is one of the three, the counts add up to the number of comments |
| Report.PercentagesCoverAll | ytanalysis.py:223-230 | with at least one comment, the three percentages add up to 100 |
| Report.SharesAddUp | ytanalysis.py:228 | percentages of counts that add up to the total add up to 100 |
| Report.VideoIds | ytanalysis.py:239 | the grouping column, row by row |
| Report.Distinct | ytanalysis.py:239-242 | the distinct group keys: the same values, no repeats |
| Report.CompoundsOf | ytanalysis.py:239-242 | a video's scores are as many as its comments |
| Report.CompoundsOfRows | ytanalysis.py:239-242 | the scores collected for a video are exactly the scores of its rows |
| Report.CompoundsAppend | ytanalysis.py:239-242 | scores are collected row by row, in table order: the scores of two tables in sequence are the first's followed by the second's |
| Report.Mean | ytanalysis.py:240 | the mean times the number of scores is their sum |
| Report.MeanBetween | ytanalysis.py:240 | the mean of scores between two bounds lies between them, so a mean VADER compound stays in [-1, 1] |
| Report.GroupOf | ytanalysis.py:239-242 | a group has at least one comment, its count is the number of the video's comments, its value their mean score |
| Report.GroupByVideo | ytanalysis.py:239-242 | one group per video with comments, no video twice, every comment's video has its group |
| Report.TitlesFor | ytanalysis.py:244-248 | the titles found are exactly those of the video rows with that id |
| Report.UniqueIdOneTitle | ytanalysis.py:244-248 | with unique video ids each id has at most one title |
| Report.JoinGroup | ytanalysis.py:244-248 | a group yields one row per matching title, or one untitled row when none matches |
| Report.TitledOf | ytanalysis.py:245 | the projection keeps one (video id, title) row per video row, in order |
| Report.MergeTitles | ytanalysis.py:244-248 | the left join yields at least one row per group |
| Report.MergeKeepsGroups | ytanalysis.py:244-248 | the left join never drops a group: every group is the base of some joined row |
| Report.MergeRows | ytanalysis.py:244-248 | every joined row carries a group; a title belongs to a video row with that id; an untitled row's video has no row |
| Report.MergeOneToOne | ytanalysis.py:244-248 | with unique video ids the join keeps each group exactly once, in order |
| Report.InsertDesc | ytanalysis.py:251 | insertion keeps rows in descending order of mean and adds exactly the one row |
| Report.SortDesc | ytanalysis.py:251 | sorting yields a descending permutation of the rows |
| Report.NLargest | ytanalysis.py:251 | the top rows are `min(n, rows)` many, highest mean first |
| Report.NLargestSelects | ytanalysis.py:251 | the top rows number min(5, rows); they are in descending order and drawn from the input; no row left out beats a row kept |
| Report.PrefixDominates | ytanalysis.py:251 | in a descending sequence nothing after a cut beats anything before it |
| Report.ShowTitle | ytanalysis.py:253 | a title of at most 50 characters is shown unchanged; a longer one as its first 50 characters followed by `...` |
| Report.ShowTitleIdempotent | ytanalysis.py:253 | showing a shown title changes nothing |
| Report.RankingLines | ytanalysis.py:252-254 | lines follow the top rows in order; printing fails exactly when some row lacks a title, and stops at the first such row |
| Report.Ranking | ytanalysis.py:239-254 | at most five lines; without a videos table the ranking fails before printing; with one and no comments it prints nothing and does not fail |
| Report.EngagementRate | ytanalysis.py:212-215 | no finite rate exactly when a video has no views; otherwise rate times views equals (likes + comments) times 100, never negative |
| Report.EngagementAboveFull | ytanalysis.py:212-215 | the rate exceeds 100% exactly when likes and comments outnumber views |
| Report.SampleGroups | ytanalysis.py:239-242 | comments scoring 0.6, -0.6 and 0.0 on one video form one group of three with mean 0 |
| Report.SampleRanking | ytanalysis.py:239-254 | with a second video that has no comments, only the commented video is ranked: mean 0, three comments |
| Report.SampleDistribution | ytanalysis.py:223-230 | the three sample labels are one of each, 100/3 percent apiece |
| Report.AnalyzeComment | ytanalysis.py:155-170 | each comment is cleaned and scored on the cleaned text; labels match scores; a comment that cleans to nothing is neutral with default scores |
| Report.AnalyzeTitle | ytanalysis.py:174-179 | a title is cleaned and labelled by VADER; the label matches the compound |
| Report.AnalyzeComments | ytanalysis.py:155-170 | the analysis columns line up with the comment rows |
| Report.AnalyzeTitles | ytanalysis.py:174-179 | the title columns line up with the video rows |
| Report.EngagementColumn | ytanalysis.py:212-215 | one engagement rate per video row |
| Report.SentimentAnalyzer.constructor | ytanalysis.py:30-35 | all tables start missing |
| Report.SentimentAnalyzer.Load | ytanalysis.py:37-58 | succeeds exactly when the videos file exists; on failure nothing changes; re-read tables lose their analysis columns; a missing comments file keeps the old comments |
| Report.SentimentAnalyzer.PerformSentimentAnalysis | ytanalysis.py:151-181 | comments are analysed only when there is at least one; titles whenever videos are loaded; the tables themselves are unchanged |
| Report.SentimentAnalyzer.Labels | ytanalysis.py:223 | one label per comment: the name of the VADER label of that comment's cleaned text, so one of the three categories |
| Report.SentimentAnalyzer.ScoredRows | ytanalysis.py:239-242 | one row per comment: its video and the VADER compound of its cleaned text |
| Report.SentimentAnalyzer.GenerateStatistics | ytanalysis.py:186-254 | the engagement column is set when videos are loaded; the distribution and ranking are reported exactly when the comments have been analysed |
| Records.ChannelOf | ytcoll.py:93-104 | missing subscriber, view and video counts become 0, a missing country `N/A` |
| Records.VideoOf | ytcoll.py:176-191 | id, channel, title, description, publication time, duration and definition are copied; tags are joined with `,`; missing category `N/A`, caption `false`, counts 0 |
| Records.TagsRoundTrip | ytcoll.py:182 | splitting the stored tags at commas gives the original tags back, when there is at least one and none contains a comma |
| Records.TagsAmbiguous | ytcoll.py:182 | no tags, an empty tag list and one empty tag are all stored as the empty string |
| Records.CommentOf | ytcoll.py:217-227 | the comment carries the video it was fetched for; id, author, text, likes and replies are copied; `updated_at` falls back to `published_at` |
| Seqs.Join | ytcoll.py:182 | `','.join(tags)` puts exactly one separator between each two parts: its length is the parts' total length plus one less than their number |
| Seqs.SplitJoin | ytcoll.py:182 | splitting a comma join of separator-free parts restores them |
| ChannelUrl.IdRun | ytcoll.py:51-54 | `[^/\?]+` takes the maximal run of characters other than `/` and `?` |
| ChannelUrl.MatchFrom | ytcoll.py:56-58 | `re.search` finds the leftmost position where the prefix is followed by an identifier character, or there is none |
| ChannelUrl.Search | ytcoll.py:56-59 | `re.search(...).group(1)` is absent exactly when the pattern matches nowhere; otherwise it is the capture at the leftmost match |
| ChannelUrl.Captured | ytcoll.py:59-60 | the capture is the URL text right after the prefix, non-empty, without `/` or `?`, and stops at a `/`, a `?` or the end |
| ChannelUrl.FirstPattern | ytcoll.py:50-58 | patterns are tried in order; the first that matches wins, and none matches only if none of the four does |
| ChannelUrl.Identifier | ytcoll.py:50-60 | an identifier is found exactly when some pattern matches, and it is the search result of the first pattern, in order, that matches |
| ChannelUrl.ChannelPathRoundTrip | ytcoll.py:50-60 | the identifier of `youtube.com/channel/` followed by an id and then `/`, `?` or nothing is that id |
| ChannelUrl.Classify | ytcoll.py:56-69 | an identifier starting with `UC` is the channel id; any other is a name to look up; no match finds nothing |
| ChannelUrl.ChannelIdFromUrl | ytcoll.py:45-69 | a channel id is returned as is, a name goes to the lookup, no match gives `None` |
| ChannelUrl.HandleUrl | ytcoll.py:50-66 | `youtube.com/@x` resolves to the handle `x`, to be looked up |
| Collector.Paginate | ytcoll.py:135-153 | never more requests than pages |
| Collector.PaginateContinues | ytcoll.py:135-153 | every request is made while fewer than `max` items are held, and every request but the last follows a page with a next token |
| Collector.PaginateStops | ytcoll.py:135-153 | the loop stops only when `max` items were already held, the last page was an `HttpError`, had no next token or reached `max`, or the given pages ran out |
| Collector.PaginateRequests | ytcoll.py:135-153 | each request asks for 1 to `cap` items; the first carries the starting token, each later one the previous page's next token |
| Collector.PaginateItems | ytcoll.py:135-153 | the items gathered are those already held followed by the items of the pages fetched, in order |
| Collector.PaginateBounded | ytcoll.py:135-150 | if no page returns more than it was asked for, no more than `max` items are gathered |
| Collector.PagedLoop | ytcoll.py:135-153 | the `while` loop computes exactly the paged result, items and requests |
| Collector.BatchesFrom | ytcoll.py:162-163 | the batches are consecutive slices that together give the list, in order; every batch holds 50 ids except the last, which holds 1 to 50 |
| Collector.DetailsFrom | ytcoll.py:158-196 | every record carries the collection time; when every batch returns one item per id there is one record per id; when every batch fails there are none |
| Collector.BatchRecords | ytcoll.py:164-193 | a failed batch adds nothing; a successful one adds one record per item, in order |
| Collector.DetailsByBatch | ytcoll.py:162-194 | the records added are those of the batches, batch by batch, so a failed batch removes only its own records |
| Collector.CommentsOf | ytcoll.py:214-227 | one comment record per item, each carrying the given video id |
| Collector.VideosToProcess | ytcoll.py:243 | `max_videos` of `None` or 0 means all videos; otherwise the first `max_videos` |
| Collector.AllComments | ytcoll.py:243-251 | every gathered comment belongs to one of the videos processed |
| Collector.ChannelStats | ytcoll.py:71-109 | a record exactly when the response has a non-empty `items` list, built from its first item |
| Collector.DataCollector.constructor | ytcoll.py:18-23 | the three lists start empty |
| Collector.DataCollector.GetChannelStats | ytcoll.py:71-109 | a found channel is returned and appended to the channel list; otherwise the list is unchanged |
| Collector.DataCollector.GetVideoIds | ytcoll.py:128-156 | the ids and requests are those of the paged loop with pages of at most 50 |
| Collector.DataCollector.GetVideoDetails | ytcoll.py:158-196 | the video list becomes its old contents followed by the records of every successful batch, in order |
| Collector.DataCollector.AppendBatch | ytcoll.py:164-193 | a failed batch appends nothing; otherwise one record per item, appended in order |
| Collector.DataCollector.GetVideoComments | ytcoll.py:198-239 | the comments are those of the paged loop with pages of at most 100, tagged with the video id |
| Collector.DataCollector.CollectAllComments | ytcoll.py:241-254 | the comment list grows by exactly the comments of the processed videos, in video order; earlier entries stay |
| Store.UpsertChannel | ytcoll.py:384-403 | a new channel is inserted; an existing one changes only subscribers, views, videos and collection time; other rows unchanged |
| Store.UpsertVideo | ytcoll.py:405-425 | an existing video changes only its counts and collection time; a new video fails exactly when its channel is missing |
| Store.InsertComment | ytcoll.py:427-441 | an existing comment is left unchanged; a new one fails exactly when its video is missing |
| Store.ChannelKeepsConsistent | ytcoll.py:384-403 | a channel upsert keeps every row under its key and every foreign key satisfied |
| Store.VideoKeepsConsistent | ytcoll.py:405-425 | a successful video upsert keeps the tables consistent |
| Store.CommentKeepsConsistent | ytcoll.py:427-441 | a successful comment insert keeps the tables consistent |
| Store.StatementsIdempotent | ytcoll.py:384-441 | issuing a row statement twice leaves the tables as issuing it once |
| Store.LastCountsWin | ytcoll.py:392-396 | of two upserts of one channel the later counts win, while the name stays the first one written |
| Store.ChannelRows | ytcoll.py:384-403 | after the channel loop the channel keys are the old ones plus the collected ones; a channel not collected is unchanged; the other tables are untouched; consistency is kept |
| Store.ChannelRowsKeepProfile | ytcoll.py:392-396 | a stored channel keeps every field but its counts and collection time through the channel loop |
| Store.ChannelRowsFirstProfile | ytcoll.py:384-403 | a collected channel keeps the other fields of its stored row, or else of its first record in the batch |
| Store.ChannelRowsLastCounts | ytcoll.py:384-403 | a collected channel ends with the counts and collection time of its last record in the batch |
| Store.VideoRows | ytcoll.py:405-425 | after a successful video loop the video keys are the old ones plus the collected ones; a video not collected is unchanged; the other tables are untouched; consistency is kept |
| Store.CommentRows | ytcoll.py:427-441 | after a successful comment loop the comment keys are the old ones plus the collected ones; a stored comment is never changed and every new one is a collected row; the other tables are untouched; consistency is kept |
| Store.ExportRows | ytcoll.py:305-318 | a successful export keeps the tables consistent; each table's keys are its old keys plus the collected ones; channels and videos not collected are unchanged, and stored comments are never changed |
| Store.SelfContainedExports | ytcoll.py:307-318 | a collection whose videos name collected channels and whose comments name collected videos exports into empty tables without error |
| Store.VideoRowsSucceed | ytcoll.py:405-425 | videos whose channels exist all go in without error |
| Store.CommentRowsSucceed | ytcoll.py:427-441 | comments whose videos exist all go in without error |
| Store.OrphanCommentFails | ytcoll.py:380 | a new comment whose video is missing fails the export |
| Store.InsertChannelData | ytcoll.py:384-403 | the channel loop computes the channel rows |
| Store.InsertVideoData | ytcoll.py:405-425 | the video loop computes the video rows, stopping at the first failure |
| Store.InsertCommentData | ytcoll.py:427-441 | the comment loop computes the comment rows, stopping at the first failure |
| Store.Database.constructor | ytcoll.py:293-300 | the connection opens on the tables as they stand in the database |
| Store.Database.ExportToPostgres | ytcoll.py:290-327 | the export commits exactly when connected and every row succeeds; otherwise the tables are as before; consistency is kept |

## Left out

- Charts, word clouds, CSV export, `load_from_postgres`, `export_results`, `main`, and all printing: file I/O and presentation. This includes the averages that are only printed (mean views, likes, engagement, compound scores).
- Network and API client:
  - Every YouTube Data API response is an input: a page sequence, a batch function, or a channel response.
  - `get_channel_id_from_username` is the `lookup` parameter.
  - The TextBlob and VADER scorers are function parameters.
- Clock: `datetime.now()` is a `now` parameter. All records of one call share one timestamp.
- `\w` and `\s` are kept abstract beyond the facts in `TextCleaner.Sane`; Unicode tables are not modelled.
- TextCleaner.Clean: `str(text)` of non-string cells is not modelled; only text cells and missing cells are.
- Report.Percentage, Report.Mean, Report.EngagementRate: reals are exact. Float rounding is not modelled.
- Report.EngagementRate: the infinite or NaN value pandas computes for zero views is `None`.
- Report.GroupByVideo: groups come in order of first appearance, whereas pandas sorts the group keys. This only changes which of several videos with equal means `nlargest` lists first.
- Report.NLargestSelects: does not state that rows with equal means keep their input order, although `SortDesc` is stable.
- Report.VideoRow: a missing title (NaN) in the videos table is not modelled. Titles are strings; only rows missing from the join are untitled.
- Report.SentimentAnalyzer.Load: the channel file is not read. Channel data is only printed.
- Collector.Paginate: the listing ends when the given pages run out. The source would keep requesting, and loops forever if the API keeps sending empty pages with tokens.
- Collector.DataCollector.GetVideoComments: exceptions other than `HttpError` propagate out of the source and are not modelled.
- Collector.DataCollector.GetVideoIds: exceptions other than `HttpError` raised by the playlist listing (a missing `items` key, say) propagate out of the source and are not modelled.
- Records.ChannelOf, Records.VideoOf: counts are parsed numbers (`Option<nat>`). An `int()` failure on a malformed count string is not modelled.
- Collector.ChannelStats: a missing required key (the source's generic `except Exception`) is not modelled.
- Store:
  - `CREATE TABLE IF NOT EXISTS` is taken to have created the tables.
  - Column widths, column types and timestamp parsing are not modelled; the only failures are the two foreign keys.
  - Connection parameters are reduced to `connected`.
- Store.Database.ExportToPostgres: the caught exception and its message are reduced to `ok == false`.
