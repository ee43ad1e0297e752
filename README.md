# Video ingestion and feedback rules, modelled in Dafny

This project models the two pieces of decision logic in a small serverless system:

- **The ingestion endpoint** (module `DataIngestion`, file `data_ingestion.dfy`). A request
  names a video URL. The handler resolves the video's id through the metadata provider and
  asks the dedupe table whether the id is already known. If it is not, the handler collects
  up to 100 comments and the transcript. It then stores one document at
  `<video_id>/video_data.json` in the object store. The store and the table are fields of the
  class `IngestionService`: `table` is the set of known ids and `bucket` maps keys to stored
  documents. A third field, `calls`, records every external call in order, so the contracts
  can say which calls each path makes and which it never makes.
- **The feedback rules** (module `Analyze`, file `analyze.dfy`). The classifier's output becomes
  a signed sentiment score. The comment scores are averaged. Three independent comparisons
  build the suggestion list. The first seven top-video URLs are offered for inspiration.

The external providers are inputs. The metadata provider, comment downloader, transcript
service, the table's lookup and the store's put are gathered in one `Providers` value: the
replies they give to one request. The comment downloader is a finite stream of items that may
raise once its items are used up. The timestamp written into the document is the parameter
`now`. The sentiment classifier is represented by its `{label, score}` outputs. The
top-video aggregates (most common topic, mean sentiment, URL list) are inputs too.

Behaviour of the code that a reader might not expect, and that the model keeps:

- The handler never writes the dedupe table, not even after a successful save.
  `LambdaHandler` ensures `table == old(table)`. So the `exists` answer can only come from
  entries placed in the table by something else. `IngestTwice` shows that two requests for
  an unknown video both answer `new`.
- When the video cannot be resolved, the metadata step raises inside the handler's `try`.
  The answer is therefore 500 with the exception message, not a 400.
- When the comment stream raises part-way, the comments collected before the error are
  kept. The list is not emptied.
- The metadata key for the duration is `length`, not `length_seconds`.
- A transcript entry without a `text` key raises inside the transcript helper, so the
  transcript is `None`. The model represents this with `Fragment.text` being optional.
- An error response has only an `error` entry and no `status` entry. `ResponseBody.Status()`
  is `None` for it.

## Model

| member | source | states |
|---|---|---|
| `DataIngestion.IngestionService.LambdaHandler` | lambda/data_ingestion.py:99-156 | An unreadable body gives 500 and a missing or empty URL gives 400; neither makes any external call or write. A metadata failure gives 500 with its message after one metadata call. A known id gives 200 `exists` with no comment, transcript or put call. Otherwise metadata, lookup, comments, transcript and exactly one put happen in that order at `S3Key(id)`; a put error gives 500 with the store unchanged, and success gives 200 `new` with that key and that document stored. The table is never written, and the store changes only on a `new` answer. |
| `DataIngestion.VideoUrl` | lambda/data_ingestion.py:101-102 | A missing body reads as an empty object, so the URL is absent. An already decoded object gives its `video_url` entry, and so does a JSON text that decodes to an object. A JSON text that fails to decode, or a body of any other kind, is a failure carrying the raised error. No other case fails. |
| `DataIngestion.Falsy` | lambda/data_ingestion.py:104 | The URL counts as not provided exactly when it is missing, null or the empty string. |
| `DataIngestion.Record` | lambda/data_ingestion.py:130-136 | The stored document holds the resolved metadata, the write-time timestamp and the transcript helper's result. It also holds the collected comments: at most 100, with comment k the projection of stream item k. |
| `DataIngestion.IngestionService.CheckExistingAnalysis` | lambda/data_ingestion.py:19-30 | The answer is true exactly when the lookup succeeds and the id is in the table; a failing lookup reads as absent. One lookup call is recorded. |
| `DataIngestion.IngestionService.SaveToS3` | lambda/data_ingestion.py:84-97 | One put is recorded at the video's key. On success the key is returned and the store maps it to the document. On failure the store's error is passed on and the store is unchanged. |
| `DataIngestion.IngestionService.constructor` | lambda/data_ingestion.py:13-17 | The service starts with the given table and store and an empty call trace. |
| `DataIngestion.IngestTwice` | lambda/data_ingestion.py:115-149 | Because the table is never written, two requests in a row for a video not in the table both answer 200 `new` with the same key. |
| `DataIngestion.GetVideoComments` | lambda/data_ingestion.py:48-71 | The loop returns exactly `CollectedComments(items, max)`: the projections of the stream's first `CapCount` items. The result is the same whether the stream ends normally or raises, so an error keeps what was collected before it. |
| `DataIngestion.Pull` | lambda/data_ingestion.py:55 | Asking for item i of a stream gives that item while items remain. Once they are used up it gives no item, and it raises exactly when the stream raises at its end. |
| `DataIngestion.CollectedCommentsSpec` | lambda/data_ingestion.py:48-71 | The collected comments are at most `maxComments` items, none when the cap is not positive, and exactly `maxComments` when the stream has at least that many. A stream no longer than the cap is kept whole. Item k is the projection of the stream's item k, so stream order is kept. |
| `DataIngestion.ProjectAllAt` | lambda/data_ingestion.py:55-66 | Projecting a sequence keeps its length and projects each item at its own position. |
| `DataIngestion.Project` | lambda/data_ingestion.py:59-66 | Each field is copied when present. A missing text, author or time gives `''`, and missing likes or reply count give `0`; `time` is stored as `publishedAt`. |
| `DataIngestion.ProjectUnproject` | lambda/data_ingestion.py:60-66 | A raw comment that carries every field projects back to the same comment: nothing is lost. |
| `DataIngestion.GetVideoTranscript` | lambda/data_ingestion.py:73-82 | The transcript is present exactly when the service replies and every entry has `text`. It is then the entries' texts joined by single spaces, in order; otherwise it is `None`. |
| `DataIngestion.Join` | lambda/data_ingestion.py:78 | Joining no parts gives the empty string. Otherwise the result is one character longer, per gap between neighbours, than the parts' total length, and it starts with the first part. |
| `DataIngestion.JoinAppend` | lambda/data_ingestion.py:78 | For any two non-empty lists of fragments, with or without spaces, joining their concatenation is joining each and putting one space between. So every fragment appears in order, separated by single spaces. |
| `DataIngestion.SplitJoin` | lambda/data_ingestion.py:78 | Splitting the space-join of space-free fragments on single spaces gives back the fragments in order. |
| `DataIngestion.TranscriptRecoversFragments` | lambda/data_ingestion.py:76-79 | For entries whose texts contain no space, the transcript is present and splits back into exactly those texts. |
| `DataIngestion.S3Key` | lambda/data_ingestion.py:87 | The key is the video id followed by `/video_data.json`, with nothing in between. |
| `DataIngestion.S3KeyInjective` | lambda/data_ingestion.py:87-94 | Two ids with the same key are equal, so documents of different videos never overwrite each other. |
| `Analyze.AnalyzeSentiment` | lambda/analyze.py:18-21 | The score is `+confidence` when the label is exactly `POSITIVE` and `-confidence` otherwise. Its magnitude equals the confidence, a positive confidence is positive exactly for `POSITIVE`, and a confidence in [0, 1] gives a score in [-1, 1]. |
| `Analyze.Sentiments` | lambda/analyze.py:25 | There is one comment score per comment, in comment order, each the signed score of that comment's output. |
| `Analyze.AverageSentiment` | lambda/analyze.py:26 | An empty list is the division-by-zero error. Otherwise the mean times the count equals the sum. |
| `Analyze.SumAppend` | lambda/analyze.py:26 | The left-to-right sum of a concatenation is the sum of the two parts' sums, so the total does not depend on the order of adding. |
| `Analyze.SumBounds` | lambda/analyze.py:26 | Summing n scores that lie in [lo, hi] gives a value in [n·lo, n·hi]. |
| `Analyze.MeanWithin` | lambda/analyze.py:26 | The mean of a non-empty list of scores in [lo, hi] lies in [lo, hi]. |
| `Analyze.CommentAverageInRange` | lambda/analyze.py:18-26 | With confidences in [0, 1], the average comment sentiment lies in [-1, 1]. |
| `Analyze.TopicSuggestion` | lambda/analyze.py:38 | The topic text is quoted inside the fixed opening and closing of the suggestion, at a known position. |
| `Analyze.TopicSuggestionInjective` | lambda/analyze.py:38 | Different topics give different topic suggestions. |
| `Analyze.TopicSuggestionDistinct` | lambda/analyze.py:36-40 | The topic suggestion never equals the positivity or the viewer-concerns suggestion. |
| `Analyze.Suggestions` | lambda/analyze.py:34-40 | Each suggestion has its own if-and-only-if condition. Positivity appears exactly when the video score is below the top-video mean. The topic suggestion appears exactly when the topic is not `Feature Introduction`. Viewer concerns appear exactly when the comment mean is below the video score. Nothing else appears, the order is positivity, topic, concerns, there are no repeats, and there are at most three. |
| `Analyze.BuildFeedback` | lambda/analyze.py:34-40 | The three appends under independent tests produce exactly `Suggestions` of the same inputs. |
| `Analyze.InspirationUrls` | lambda/analyze.py:47 | The links are the first `min(7, n)` URLs, each at its original position; a list of at most seven is kept whole. |
| `Analyze.AnalyzeVideo` | lambda/analyze.py:23-48 | With no comments the analysis fails with division by zero and reports nothing. Otherwise it reports the transcript score, the comment scores, their mean, the suggestions for those values and the inspiration links. |

## Left out

- Network clients: the object store, the dedupe table, the metadata library, the comment downloader and the transcript service. Each is represented only by its reply for one request (`Providers`).
- A failed put is assumed to leave the store unchanged.
- JSON decoding and encoding (`json.loads`, `json.dumps` with `default=str`). A body is represented by its decoded `video_url` entry or by the error that reading it raises.
- `video_url` values that are not strings. The model's URL is an optional string, and falsy means missing, null or empty.
- `get_video_metadata`. It only re-raises the provider's error, so it is a step inside `LambdaHandler`: one recorded call, whose reply is the provider's result.
- `datetime.utcnow()`. It becomes the parameter `now`.
- Logging.
- `print` output.
- The chart.
- The text of exception messages. They are abstract strings supplied with the failing reply.
- No dedupe marker is written, because the handler has no such write.
- The check-then-write race between concurrent requests. The model covers one sequential request.
- `analyze_top_videos` (pandas `mode()[0]` and `mean()`). Its results are inputs, because tie-breaking and float summation are library behaviour.
- Floating point. Scores are exact reals, so rounding, NaN and infinities are not modelled; the comparisons keep the source's `<` and `!=`.
- `Analyze.AverageSentiment`: the mean is the exact real quotient, not the rounded float that Python computes.
- The analysis script's free names (`video_transcript`, `comments`, `top_videos`) are never defined in it. Their classifier outputs and aggregates are parameters of `AnalyzeVideo`.
