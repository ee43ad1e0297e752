/**
 * The ingestion endpoint: it resolves a video, consults the dedupe table, collects
 * comments and transcript, and stores one document per video in the object store.
 *
 * The external providers (video metadata, comment downloader, transcript service,
 * the dedupe table's lookup and the object store's put) are replaced by their
 * replies for one request, gathered in a `Providers` value.
 */
module DataIngestion {
  import opened Wrappers

  /** The default of `max_comments`, which the handler relies on. */
  const DefaultMaxComments: int := 100

  /** Every stored document lives at `<video_id>` followed by this suffix. */
  const KeySuffix: string := "/video_data.json"

  const NoUrlError: string := "No video URL provided"
  const ExistsMessage: string := "Analysis already exists"
  const NewMessage: string := "Data collection successful"

  // ---------------------------------------------------------------------------
  // Data model
  // ---------------------------------------------------------------------------

  /** The fields read from the video metadata provider. */
  datatype VideoMetadata = VideoMetadata(
    videoId: string,
    title: string,
    channelTitle: string,
    viewCount: int,
    length: int)

  /** One item of the comment downloader's stream; any of its keys may be missing. */
  datatype RawComment = RawComment(
    text: Option<string>,
    author: Option<string>,
    time: Option<string>,
    likes: Option<int>,
    replyCount: Option<int>)

  /** A stored comment: the projected fields, each with its default filled in. */
  datatype Comment = Comment(
    text: string,
    author: string,
    publishedAt: string,
    likeCount: int,
    replyCount: int)

  /**
   * The comment downloader's stream: the items it yields, in order, and whether it
   * raises once they are used up. A downloader that fails before yielding anything
   * is `CommentStream([], true)`.
   */
  datatype CommentStream = CommentStream(items: seq<RawComment>, raisesAtEnd: bool)

  /** What asking the stream for its next item gives. */
  datatype Pulled = Yielded(item: RawComment) | Exhausted | Raised

  /** One entry of the transcript service's reply; its `text` key may be missing. */
  datatype Fragment = Fragment(text: Option<string>)

  /** The transcript service's reply: the list of entries, or a raised error. */
  datatype TranscriptFetch = Fragments(entries: seq<Fragment>) | FetchFailed

  /** The document stored for one video. `collectedAt` is the timestamp taken at write time. */
  datatype VideoData = VideoData(
    metadata: VideoMetadata,
    comments: seq<Comment>,
    transcript: Option<string>,
    collectedAt: string)

  /** The decoded request body, reduced to its `video_url` entry (missing or null is `None`). */
  datatype RequestBody = RequestBody(videoUrl: Option<string>)

  /** The `body` entry of the incoming event. */
  datatype Event =
    | TextBody(decoded: Result<RequestBody, string>)  // a JSON text; Failure when decoding raises or gives no object
    | ObjectBody(body: RequestBody)                   // an already decoded object
    | NoBody                                          // no `body` entry: an empty object is used
    | OtherBody(error: string)                        // any other value: reading `video_url` from it raises

  /** The providers' replies to the calls one request may make. */
  datatype Providers = Providers(
    metadata: Result<VideoMetadata, string>,  // the metadata provider, or the error it raises
    lookupFails: bool,                        // the dedupe table's get_item raises
    comments: CommentStream,
    transcript: TranscriptFetch,
    putError: Option<string>)                 // the object store's put raises this error

  /** An external call, as recorded in the service's trace. */
  datatype ProviderCall =
    | FetchMetadata(url: string)
    | GetItem(videoId: string)
    | FetchComments(url: string)
    | FetchTranscript(videoId: string)
    | PutObject(key: string)

  datatype ResponseBody =
    | ErrorBody(error: string)
    | ExistsBody(message: string, videoId: string)
    | NewBody(message: string, videoId: string, s3Key: string)
  {
    /** The `status` entry of the body; an error body has none. */
    function Status(): Option<string>
    {
      match this
      case ErrorBody(_) => None
      case ExistsBody(_, _) => Some("exists")
      case NewBody(_, _, _) => Some("new")
    }
  }

  datatype Response = Response(statusCode: int, body: ResponseBody)

  function NoUrlResponse(): Response
  {
    Response(400, ErrorBody(NoUrlError))
  }

  function ErrorResponse(message: string): Response
  {
    Response(500, ErrorBody(message))
  }

  // ---------------------------------------------------------------------------
  // Reading the request
  // ---------------------------------------------------------------------------

  /** The `video_url` entry of the request, or the error raised while reading the body. */
  function VideoUrl(event: Event): (url: Result<Option<string>, string>)
    ensures event.NoBody? ==> url == Success(None)
    ensures event.ObjectBody? ==> url == Success(event.body.videoUrl)
    ensures event.TextBody? && event.decoded.Success? ==> url == Success(event.decoded.value.videoUrl)
    ensures event.TextBody? && event.decoded.Failure? ==> url == Failure(event.decoded.error)
    ensures event.OtherBody? ==> url == Failure(event.error)
    ensures url.Failure? <==> event.OtherBody? || (event.TextBody? && event.decoded.Failure?)
  {
    match event
    case TextBody(decoded) =>
      if decoded.Failure? then Failure(decoded.error) else Success(decoded.value.videoUrl)
    case ObjectBody(body) => Success(body.videoUrl)
    case NoBody => Success(None)
    case OtherBody(error) => Failure(error)
  }

  /** Python's `not video_url` for a string that may be missing. */
  predicate Falsy(url: Option<string>)
    ensures Falsy(url) <==> url == None || url == Some("")
  {
    url.None? || url.value == ""
  }

  /** The request names a video: its body was read and its URL is truthy. */
  predicate HasUrl(event: Event)
  {
    VideoUrl(event).Success? && !Falsy(VideoUrl(event).value)
  }

  function UrlOf(event: Event): string
    requires HasUrl(event)
  {
    VideoUrl(event).value.value
  }

  // ---------------------------------------------------------------------------
  // Comments
  // ---------------------------------------------------------------------------

  /** The stored form of one raw comment: missing fields take their defaults. */
  function Project(raw: RawComment): (c: Comment)
    ensures raw.text.None? ==> c.text == ""
    ensures raw.author.None? ==> c.author == ""
    ensures raw.time.None? ==> c.publishedAt == ""
    ensures raw.likes.None? ==> c.likeCount == 0
    ensures raw.replyCount.None? ==> c.replyCount == 0
    ensures raw.text.Some? ==> c.text == raw.text.value
    ensures raw.author.Some? ==> c.author == raw.author.value
    ensures raw.time.Some? ==> c.publishedAt == raw.time.value
    ensures raw.likes.Some? ==> c.likeCount == raw.likes.value
    ensures raw.replyCount.Some? ==> c.replyCount == raw.replyCount.value
  {
    Comment(
      if raw.text.Some? then raw.text.value else "",
      if raw.author.Some? then raw.author.value else "",
      if raw.time.Some? then raw.time.value else "",
      if raw.likes.Some? then raw.likes.value else 0,
      if raw.replyCount.Some? then raw.replyCount.value else 0)
  }

  /** A raw comment that carries every field; projecting it gives `c` back. */
  function Unproject(c: Comment): RawComment
  {
    RawComment(Some(c.text), Some(c.author), Some(c.publishedAt), Some(c.likeCount), Some(c.replyCount))
  }

  /** Projecting loses nothing when the downloader supplies every field. */
  lemma ProjectUnproject(c: Comment)
    ensures Project(Unproject(c)) == c
  {
  }

  /** The projections of a sequence of raw comments, in order. */
  function ProjectAll(s: seq<RawComment>): seq<Comment>
  {
    if s == [] then [] else ProjectAll(s[..|s| - 1]) + [Project(s[|s| - 1])]
  }

  lemma {:induction false} ProjectAllAt(s: seq<RawComment>)
    ensures |ProjectAll(s)| == |s|
    ensures forall k :: 0 <= k < |s| ==> ProjectAll(s)[k] == Project(s[k])
  {
    if s != [] {
      ProjectAllAt(s[..|s| - 1]);
    }
  }

  /** How many comments are kept from a stream of `n` items when the cap is `maxComments`. */
  function CapCount(maxComments: int, n: nat): nat
  {
    if maxComments <= 0 then 0 else if maxComments < n then maxComments else n
  }

  /** The comments `get_video_comments` returns for a stream that yields `items`. */
  function CollectedComments(items: seq<RawComment>, maxComments: int): seq<Comment>
  {
    ProjectAll(items[..CapCount(maxComments, |items|)])
  }

  /**
   * The collected comments are at most `maxComments` projections of the stream's
   * first items, in stream order; a stream no longer than the cap is kept whole.
   */
  lemma CollectedCommentsSpec(items: seq<RawComment>, maxComments: int)
    ensures |CollectedComments(items, maxComments)| <= |items|
    ensures maxComments <= 0 ==> CollectedComments(items, maxComments) == []
    ensures 0 < maxComments ==> |CollectedComments(items, maxComments)| <= maxComments
    ensures |items| <= maxComments ==> CollectedComments(items, maxComments) == ProjectAll(items)
    ensures 0 < maxComments <= |items| ==> |CollectedComments(items, maxComments)| == maxComments
    ensures forall k :: 0 <= k < |CollectedComments(items, maxComments)| ==>
              CollectedComments(items, maxComments)[k] == Project(items[k])
  {
    var m := CapCount(maxComments, |items|);
    ProjectAllAt(items[..m]);
    assert m == |items| ==> items[..m] == items;
  }

  /** Asks the stream for its item number `i` (counting from 0). */
  function Pull(stream: CommentStream, i: nat): (next: Pulled)
    requires i <= |stream.items|
    ensures i < |stream.items| ==> next == Yielded(stream.items[i])
    ensures i == |stream.items| ==> !next.Yielded? && (next.Raised? <==> stream.raisesAtEnd)
  {
    if i < |stream.items| then Yielded(stream.items[i])
    else if stream.raisesAtEnd then Raised
    else Exhausted
  }

  /**
   * Reads the stream one item at a time, stopping when the cap is reached, the stream
   * ends, or the stream raises; a raise keeps what was collected before it.
   */
  method GetVideoComments(stream: CommentStream, maxComments: int) returns (comments: seq<Comment>)
    ensures comments == CollectedComments(stream.items, maxComments)
  {
    comments := [];
    var i := 0;
    while true
      invariant 0 <= i <= CapCount(maxComments, |stream.items|)
      invariant |comments| == i
      invariant comments == ProjectAll(stream.items[..i])
      decreases |stream.items| - i
    {
      match Pull(stream, i)
      case Raised =>
        break;
      case Exhausted =>
        break;
      case Yielded(raw) =>
        if |comments| >= maxComments {
          break;
        }
        assert stream.items[..i + 1][..i] == stream.items[..i];
        comments := comments + [Project(raw)];
        i := i + 1;
    }
  }

  // ---------------------------------------------------------------------------
  // Transcript
  // ---------------------------------------------------------------------------

  /** The total number of characters in `parts`. */
  function TotalLength(parts: seq<string>): nat
  {
    if |parts| == 0 then 0 else |parts[0]| + TotalLength(parts[1..])
  }

  /**
   * Python's `' '.join(parts)`: the parts with one space between neighbours, so one
   * character more than the parts' lengths for each gap.
   */
  function Join(parts: seq<string>): (joined: string)
    ensures |parts| == 0 ==> joined == ""
    ensures |parts| > 0 ==> |joined| == TotalLength(parts) + |parts| - 1
    ensures |parts| > 0 ==> joined[..|parts[0]|] == parts[0]
  {
    if |parts| == 0 then ""
    else if |parts| == 1 then parts[0]
    else parts[0] + " " + Join(parts[1..])
  }

  /** Joining two non-empty lists is joining each and putting one space between them. */
  lemma {:induction false} JoinAppend(a: seq<string>, b: seq<string>)
    requires |a| > 0 && |b| > 0
    ensures Join(a + b) == Join(a) + " " + Join(b)
  {
    if |a| == 1 {
      assert (a + b)[1..] == b;
    } else {
      assert (a + b)[1..] == a[1..] + b;
      JoinAppend(a[1..], b);
    }
  }

  /** Python's `s.split(' ')`: the pieces between single spaces; never empty. */
  function Split(s: string): (pieces: seq<string>)
    ensures |pieces| > 0
  {
    if |s| == 0 then [""]
    else
      var rest := Split(s[1..]);
      if s[0] == ' ' then [""] + rest
      else [[s[0]] + rest[0]] + rest[1..]
  }

  predicate NoSpace(p: string)
  {
    ' ' !in p
  }

  lemma {:induction false} SplitWord(p: string)
    requires NoSpace(p)
    ensures Split(p) == [p]
  {
    if |p| > 0 {
      assert NoSpace(p[1..]) by { assert forall j :: 0 <= j < |p| - 1 ==> p[1..][j] == p[j + 1]; }
      SplitWord(p[1..]);
      assert [p[0]] + p[1..] == p;
    }
  }

  lemma {:induction false} SplitAfterWord(p: string, t: string)
    requires NoSpace(p)
    ensures Split(p + " " + t) == [p] + Split(t)
  {
    var s := p + " " + t;
    if |p| == 0 {
      assert s[1..] == t;
    } else {
      assert NoSpace(p[1..]) by { assert forall j :: 0 <= j < |p| - 1 ==> p[1..][j] == p[j + 1]; }
      assert s[1..] == p[1..] + " " + t;
      SplitAfterWord(p[1..], t);
      assert s[0] == p[0];
      assert [p[0]] + p[1..] == p;
    }
  }

  /** Joining space-free fragments is undone by splitting: the order and every fragment survive. */
  lemma {:induction false} SplitJoin(parts: seq<string>)
    requires |parts| > 0
    requires forall i :: 0 <= i < |parts| ==> NoSpace(parts[i])
    ensures Split(Join(parts)) == parts
  {
    if |parts| == 1 {
      SplitWord(parts[0]);
    } else {
      SplitAfterWord(parts[0], Join(parts[1..]));
      SplitJoin(parts[1..]);
      assert [parts[0]] + parts[1..] == parts;
    }
  }

  predicate AllHaveText(entries: seq<Fragment>)
  {
    forall i :: 0 <= i < |entries| ==> entries[i].text.Some?
  }

  function Texts(entries: seq<Fragment>): (texts: seq<string>)
    requires AllHaveText(entries)
    ensures |texts| == |entries|
    ensures forall i :: 0 <= i < |entries| ==> texts[i] == entries[i].text.value
  {
    seq(|entries|, i requires 0 <= i < |entries| => entries[i].text.value)
  }

  /**
   * The transcript text: every entry's `text`, joined by single spaces in order; `None`
   * when the service raises or an entry has no `text`.
   */
  function GetVideoTranscript(fetch: TranscriptFetch): (transcript: Option<string>)
    ensures transcript.Some? <==> fetch.Fragments? && AllHaveText(fetch.entries)
    ensures transcript.Some? ==> transcript.value == Join(Texts(fetch.entries))
  {
    if fetch.Fragments? && AllHaveText(fetch.entries) then Some(Join(Texts(fetch.entries))) else None
  }

  /** A transcript of space-free fragments can be split back into exactly those fragments. */
  lemma TranscriptRecoversFragments(entries: seq<Fragment>)
    requires |entries| > 0 && AllHaveText(entries)
    requires forall i :: 0 <= i < |entries| ==> NoSpace(entries[i].text.value)
    ensures GetVideoTranscript(Fragments(entries)).Some?
    ensures Split(GetVideoTranscript(Fragments(entries)).value) == Texts(entries)
  {
    SplitJoin(Texts(entries));
  }

  // ---------------------------------------------------------------------------
  // Storage keys
  // ---------------------------------------------------------------------------

  /** The object key of a video's document: the id, then `/video_data.json`. */
  function S3Key(videoId: string): (key: string)
    ensures |key| == |videoId| + |KeySuffix|
    ensures key[..|videoId|] == videoId
    ensures key[|videoId|..] == KeySuffix
  {
    videoId + KeySuffix
  }

  /** Different videos never share a key, so their documents never overwrite each other. */
  lemma S3KeyInjective(a: string, b: string)
    requires S3Key(a) == S3Key(b)
    ensures a == b
  {
  }

  // ---------------------------------------------------------------------------
  // The service and its handler
  // ---------------------------------------------------------------------------

  /** The document stored for a fresh ingestion. */
  function Record(metadata: VideoMetadata, env: Providers, now: string): (data: VideoData)
    ensures data.metadata == metadata && data.collectedAt == now
    ensures data.transcript == GetVideoTranscript(env.transcript)
    ensures data.comments == CollectedComments(env.comments.items, DefaultMaxComments)
    ensures |data.comments| <= DefaultMaxComments
    ensures |data.comments| <= |env.comments.items|
    ensures forall k :: 0 <= k < |data.comments| ==> data.comments[k] == Project(env.comments.items[k])
  {
    CollectedCommentsSpec(env.comments.items, DefaultMaxComments);
    VideoData(metadata, CollectedComments(env.comments.items, DefaultMaxComments),
              GetVideoTranscript(env.transcript), now)
  }

  /**
   * The state the handler works against: the ids in the dedupe table, the documents in
   * the object store by key, and the trace of external calls made so far.
   */
  class IngestionService {
    var table: set<string>
    var bucket: map<string, VideoData>
    var calls: seq<ProviderCall>

    constructor (table0: set<string>, bucket0: map<string, VideoData>)
      ensures table == table0 && bucket == bucket0 && calls == []
    {
      table := table0;
      bucket := bucket0;
      calls := [];
    }

    /** Asks the dedupe table for `videoId`; a failing lookup reads as "not present". */
    method CheckExistingAnalysis(videoId: string, lookupFails: bool) returns (found: bool)
      modifies this`calls
      ensures found <==> !lookupFails && videoId in table
      ensures calls == old(calls) + [GetItem(videoId)]
    {
      calls := calls + [GetItem(videoId)];
      if lookupFails {
        found := false;
      } else {
        found := videoId in table;
      }
    }

    /** Puts `data` at the video's key, or passes on the store's error with nothing stored. */
    method SaveToS3(videoId: string, data: VideoData, putError: Option<string>)
      returns (saved: Result<string, string>)
      modifies this`bucket, this`calls
      ensures calls == old(calls) + [PutObject(S3Key(videoId))]
      ensures putError.None? ==> saved == Success(S3Key(videoId)) && bucket == old(bucket)[S3Key(videoId) := data]
      ensures putError.Some? ==> saved == Failure(putError.value) && bucket == old(bucket)
    {
      var key := S3Key(videoId);
      calls := calls + [PutObject(key)];
      if putError.Some? {
        saved := Failure(putError.value);
      } else {
        bucket := bucket[key := data];
        saved := Success(key);
      }
    }

    /** Handles one ingestion request. */
    method LambdaHandler(event: Event, env: Providers, now: string) returns (resp: Response)
      modifies this
      // the dedupe table is only ever read
      ensures table == old(table)
      // the body cannot be read: 500, and nothing is called or stored
      ensures VideoUrl(event).Failure? ==>
                resp == ErrorResponse(VideoUrl(event).error) && calls == old(calls) && bucket == old(bucket)
      // no URL or an empty one: 400, and nothing is called or stored
      ensures VideoUrl(event).Success? && Falsy(VideoUrl(event).value) ==>
                resp == NoUrlResponse() && calls == old(calls) && bucket == old(bucket)
      // the metadata provider raises: 500 with its message
      ensures HasUrl(event) && env.metadata.Failure? ==>
                && resp == ErrorResponse(env.metadata.error)
                && calls == old(calls) + [FetchMetadata(UrlOf(event))]
                && bucket == old(bucket)
      // the dedupe table knows the id: 200 "exists", and no comments, transcript or write
      ensures HasUrl(event) && env.metadata.Success? && !env.lookupFails && env.metadata.value.videoId in old(table) ==>
                && resp == Response(200, ExistsBody(ExistsMessage, env.metadata.value.videoId))
                && calls == old(calls) + [FetchMetadata(UrlOf(event)), GetItem(env.metadata.value.videoId)]
                && bucket == old(bucket)
      // otherwise everything is fetched and exactly one put is made, at the video's key
      ensures HasUrl(event) && env.metadata.Success? && (env.lookupFails || env.metadata.value.videoId !in old(table)) ==>
                var id := env.metadata.value.videoId;
                && calls == old(calls) + [FetchMetadata(UrlOf(event)), GetItem(id), FetchComments(UrlOf(event)),
                                          FetchTranscript(id), PutObject(S3Key(id))]
                && (env.putError.Some? ==> resp == ErrorResponse(env.putError.value) && bucket == old(bucket))
                && (env.putError.None? ==>
                      && resp == Response(200, NewBody(NewMessage, id, S3Key(id)))
                      && bucket == old(bucket)[S3Key(id) := Record(env.metadata.value, env, now)])
      // the status codes that can come back
      ensures resp.statusCode == 400 <==> VideoUrl(event).Success? && Falsy(VideoUrl(event).value)
      ensures resp.statusCode in {200, 400, 500}
      ensures resp.statusCode == 200 <==> resp.body.ExistsBody? || resp.body.NewBody?
      ensures resp.body.ErrorBody? ==> resp.body.Status().None?
      ensures resp.body.NewBody? ==> resp.body.Status() == Some("new") && resp.body.s3Key == S3Key(resp.body.videoId)
      ensures resp.body.ExistsBody? ==> resp.body.Status() == Some("exists")
      // the store changes only by a fresh ingestion's single write
      ensures bucket != old(bucket) ==> resp.body.NewBody?
    {
      var url := VideoUrl(event);
      if url.Failure? {
        resp := ErrorResponse(url.error);
        return;
      }
      if Falsy(url.value) {
        resp := NoUrlResponse();
        return;
      }
      var videoUrl := url.value.value;

      // the metadata provider resolves the id
      calls := calls + [FetchMetadata(videoUrl)];
      if env.metadata.Failure? {
        resp := ErrorResponse(env.metadata.error);
        return;
      }
      var metadata := env.metadata.value;
      var videoId := metadata.videoId;

      var found := CheckExistingAnalysis(videoId, env.lookupFails);
      if found {
        resp := Response(200, ExistsBody(ExistsMessage, videoId));
        return;
      }

      calls := calls + [FetchComments(videoUrl)];
      var comments := GetVideoComments(env.comments, DefaultMaxComments);
      calls := calls + [FetchTranscript(videoId)];
      var transcript := GetVideoTranscript(env.transcript);

      var data := VideoData(metadata, comments, transcript, now);
      var saved := SaveToS3(videoId, data, env.putError);
      if saved.Failure? {
        resp := ErrorResponse(saved.error);
        return;
      }
      resp := Response(200, NewBody(NewMessage, videoId, saved.value));
    }
  }

  /**
   * Because the handler never marks the dedupe table, a video that is not in it is
   * ingested afresh by every request: two requests in a row both answer "new".
   */
  method IngestTwice(service: IngestionService, event: Event, env: Providers, now: string)
    returns (first: Response, second: Response)
    requires HasUrl(event) && env.metadata.Success? && env.putError.None?
    requires env.metadata.value.videoId !in service.table
    modifies service
    ensures first == second == Response(200, NewBody(NewMessage, env.metadata.value.videoId,
                                                     S3Key(env.metadata.value.videoId)))
    ensures service.table == old(service.table)
  {
    first := service.LambdaHandler(event, env, now);
    second := service.LambdaHandler(event, env, now);
  }
}
