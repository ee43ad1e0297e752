/**
 * The feedback analysis: it turns classifier outputs into signed sentiment scores,
 * compares the video against aggregates of top-performing videos, and picks the
 * suggestions and inspiration links to show.
 *
 * The classifier is replaced by its outputs, and the aggregates of the top videos
 * (most common topic, mean sentiment, their URLs) are inputs.
 */
module Analyze {
  import opened Wrappers

  const PositiveLabel: string := "POSITIVE"

  /** The topic that triggers no topic suggestion. */
  const BaselineTopic: string := "Feature Introduction"

  /** How many top-video URLs are offered for inspiration. */
  const InspirationCount: nat := 7

  /** The message Python gives when the mean of no comments is taken. */
  const ZeroDivision: string := "division by zero"

  // The texts are written as an opening and the rest so that the verifier can read their first words.
  const PositivitySuggestion: string :=
    "Try" + " to make your video more positive and engaging, as top-performing videos generally have a higher sentiment score."
  const ConcernsSuggestion: string :=
    "Consider addressing" + " viewer concerns noted in comments to improve alignment with audience expectations."
  const TopicPrefix: string := "Consider creating" + " more content on '"
  const TopicSuffix: string := "' topics, as this resonates well with your audience."

  /** What the sentiment classifier says about one text. */
  datatype ClassifierOutput = ClassifierOutput(labelName: string, score: real)

  function Abs(x: real): real
  {
    if x < 0.0 then -x else x
  }

  // ---------------------------------------------------------------------------
  // Sentiment scores
  // ---------------------------------------------------------------------------

  /**
   * The signed score: the classifier's confidence, negated unless the label is exactly
   * `POSITIVE`. The sign carries the polarity and the magnitude the confidence.
   */
  function AnalyzeSentiment(out: ClassifierOutput): (score: real)
    ensures out.labelName == PositiveLabel ==> score == out.score
    ensures out.labelName != PositiveLabel ==> score == -out.score
    ensures Abs(score) == Abs(out.score)
    ensures 0.0 < out.score ==> (0.0 < score <==> out.labelName == PositiveLabel)
    ensures 0.0 <= out.score <= 1.0 ==> -1.0 <= score <= 1.0
  {
    var sign := if out.labelName == PositiveLabel then 1.0 else -1.0;
    sign * out.score
  }

  /** The scores of the comments, one per comment, in order. */
  function Sentiments(outs: seq<ClassifierOutput>): (scores: seq<real>)
    ensures |scores| == |outs|
    ensures forall i :: 0 <= i < |outs| ==> scores[i] == AnalyzeSentiment(outs[i])
  {
    seq(|outs|, i requires 0 <= i < |outs| => AnalyzeSentiment(outs[i]))
  }

  /** Python's `sum`, adding from the left. */
  function Sum(s: seq<real>): real
  {
    if s == [] then 0.0 else Sum(s[..|s| - 1]) + s[|s| - 1]
  }

  /** The sum of two lists is the sum of their sums, so the order of adding does not matter. */
  lemma {:induction false} SumAppend(a: seq<real>, b: seq<real>)
    ensures Sum(a + b) == Sum(a) + Sum(b)
  {
    if b != [] {
      var ab := a + b;
      assert ab[..|ab| - 1] == a + b[..|b| - 1];
      SumAppend(a, b[..|b| - 1]);
    } else {
      assert a + b == a;
    }
  }

  /** `sum(s) / len(s)`, which raises for an empty list. */
  function AverageSentiment(s: seq<real>): (mean: Result<real, string>)
    ensures mean.Failure? <==> |s| == 0
    ensures mean.Failure? ==> mean.error == ZeroDivision
    ensures mean.Success? ==> mean.value * (|s| as real) == Sum(s)
  {
    if |s| == 0 then Failure(ZeroDivision) else Success(Sum(s) / (|s| as real))
  }

  lemma {:induction false} SumBounds(s: seq<real>, lo: real, hi: real)
    requires forall i :: 0 <= i < |s| ==> lo <= s[i] <= hi
    ensures (|s| as real) * lo <= Sum(s) <= (|s| as real) * hi
  {
    if s != [] {
      var init := s[..|s| - 1];
      assert forall i :: 0 <= i < |init| ==> init[i] == s[i];
      SumBounds(init, lo, hi);
      assert (|s| as real) * lo == (|init| as real) * lo + lo;
      assert (|s| as real) * hi == (|init| as real) * hi + hi;
    }
  }

  /** The mean of scores that all lie in one interval lies in it too. */
  lemma MeanWithin(s: seq<real>, lo: real, hi: real)
    requires |s| > 0
    requires forall i :: 0 <= i < |s| ==> lo <= s[i] <= hi
    ensures lo <= AverageSentiment(s).value <= hi
  {
    SumBounds(s, lo, hi);
    var n := |s| as real;
    var m := AverageSentiment(s).value;
    assert m * n == Sum(s);
    assert lo * n <= m * n <= hi * n;
  }

  /** With confidences in [0, 1], the average comment sentiment lies in [-1, 1]. */
  lemma CommentAverageInRange(outs: seq<ClassifierOutput>)
    requires |outs| > 0
    requires forall i :: 0 <= i < |outs| ==> 0.0 <= outs[i].score <= 1.0
    ensures -1.0 <= AverageSentiment(Sentiments(outs)).value <= 1.0
  {
    MeanWithin(Sentiments(outs), -1.0, 1.0);
  }

  // ---------------------------------------------------------------------------
  // Suggestions
  // ---------------------------------------------------------------------------

  /** The topic suggestion, with the topic quoted inside it. */
  function TopicSuggestion(topic: string): (s: string)
    ensures |s| == |TopicPrefix| + |topic| + |TopicSuffix|
    ensures s[..|TopicPrefix|] == TopicPrefix
    ensures s[|TopicPrefix|..|TopicPrefix| + |topic|] == topic
    ensures s[|TopicPrefix| + |topic|..] == TopicSuffix
  {
    TopicPrefix + topic + TopicSuffix
  }

  /** Different topics give different suggestions. */
  lemma TopicSuggestionInjective(a: string, b: string)
    requires TopicSuggestion(a) == TopicSuggestion(b)
    ensures a == b
  {
  }

  /** The topic suggestion is never one of the two fixed suggestions. */
  lemma TopicSuggestionDistinct(topic: string)
    ensures TopicSuggestion(topic) != PositivitySuggestion
    ensures TopicSuggestion(topic) != ConcernsSuggestion
  {
    var s := TopicSuggestion(topic);
    assert s[0] == 'C' && PositivitySuggestion[0] == 'T';
    assert s[9] == 'c' && ConcernsSuggestion[9] == 'a';
  }

  /** Display position of a suggestion: positivity, then topic, then viewer concerns. */
  function Rank(s: string): nat
  {
    if s == PositivitySuggestion then 0 else if s == ConcernsSuggestion then 2 else 1
  }

  /**
   * The feedback list: each suggestion is present exactly when its comparison holds,
   * they come in display order, and none is repeated.
   */
  function Suggestions(videoSentiment: real, avgTopSentiment: real, topic: string, avgCommentSentiment: real)
    : (feedback: seq<string>)
    ensures PositivitySuggestion in feedback <==> videoSentiment < avgTopSentiment
    ensures TopicSuggestion(topic) in feedback <==> topic != BaselineTopic
    ensures ConcernsSuggestion in feedback <==> avgCommentSentiment < videoSentiment
    ensures forall s :: s in feedback ==>
              s == PositivitySuggestion || s == TopicSuggestion(topic) || s == ConcernsSuggestion
    ensures forall i, j :: 0 <= i < j < |feedback| ==> Rank(feedback[i]) < Rank(feedback[j])
    ensures forall i, j :: 0 <= i < j < |feedback| ==> feedback[i] != feedback[j]
    ensures |feedback| <= 3
  {
    TopicSuggestionDistinct(topic);
    assert PositivitySuggestion != ConcernsSuggestion;
    (if videoSentiment < avgTopSentiment then [PositivitySuggestion] else [])
    + (if topic != BaselineTopic then [TopicSuggestion(topic)] else [])
    + (if avgCommentSentiment < videoSentiment then [ConcernsSuggestion] else [])
  }

  /** Builds the feedback list by appending under three independent tests. */
  method BuildFeedback(videoSentiment: real, avgTopSentiment: real, topic: string, avgCommentSentiment: real)
    returns (feedback: seq<string>)
    ensures feedback == Suggestions(videoSentiment, avgTopSentiment, topic, avgCommentSentiment)
  {
    feedback := [];
    if videoSentiment < avgTopSentiment {
      feedback := feedback + [PositivitySuggestion];
    }
    if topic != BaselineTopic {
      feedback := feedback + [TopicSuggestion(topic)];
    }
    if avgCommentSentiment < videoSentiment {
      feedback := feedback + [ConcernsSuggestion];
    }
  }

  // ---------------------------------------------------------------------------
  // Inspiration links
  // ---------------------------------------------------------------------------

  /** `urls[0:7]`: the first seven URLs, or all of them when there are fewer, in order. */
  function InspirationUrls(urls: seq<string>): (picked: seq<string>)
    ensures |picked| == if |urls| < InspirationCount then |urls| else InspirationCount
    ensures forall i :: 0 <= i < |picked| ==> picked[i] == urls[i]
    ensures |urls| <= InspirationCount ==> picked == urls
  {
    urls[..if |urls| < InspirationCount then |urls| else InspirationCount]
  }

  // ---------------------------------------------------------------------------
  // The analysis as a whole
  // ---------------------------------------------------------------------------

  datatype Report = Report(
    videoSentiment: real,
    commentSentiments: seq<real>,
    averageCommentSentiment: real,
    feedback: seq<string>,
    inspiration: seq<string>)

  /**
   * Scores the transcript and the comments, averages the comment scores and derives the
   * feedback and inspiration links; with no comments the average raises and nothing is
   * reported.
   */
  method AnalyzeVideo(transcriptOutput: ClassifierOutput, commentOutputs: seq<ClassifierOutput>,
                      topic: string, avgTopSentiment: real, topUrls: seq<string>)
    returns (report: Result<Report, string>)
    ensures report.Failure? <==> |commentOutputs| == 0
    ensures report.Failure? ==> report.error == ZeroDivision
    ensures report.Success? ==>
              var v := AnalyzeSentiment(transcriptOutput);
              var cs := Sentiments(commentOutputs);
              var avg := AverageSentiment(cs).value;
              report.value == Report(v, cs, avg, Suggestions(v, avgTopSentiment, topic, avg), InspirationUrls(topUrls))
  {
    var videoSentiment := AnalyzeSentiment(transcriptOutput);
    var commentSentiments := Sentiments(commentOutputs);
    var average := AverageSentiment(commentSentiments);
    if average.Failure? {
      report := Failure(average.error);
      return;
    }
    var feedback := BuildFeedback(videoSentiment, avgTopSentiment, topic, average.value);
    report := Success(Report(videoSentiment, commentSentiments, average.value, feedback, InspirationUrls(topUrls)));
  }
}
