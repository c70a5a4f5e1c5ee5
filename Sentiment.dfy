/** `analyze_sentiment_textblob` and `analyze_sentiment_vader`: each takes the scores of a
    third-party scorer (a parameter here) and derives a three-way label from one of them with
    its own thresholds; blank text short-circuits to fixed neutral scores. */
module Sentiment {
  import TextCleaner

  datatype Label = Positive | Neutral | Negative {
    /** The label's text in the result dictionaries. */
    function Name(): (s: string)
      ensures s in ["positive", "neutral", "negative"]
    {
      match this
      case Positive => "positive"
      case Neutral => "neutral"
      case Negative => "negative"
    }

    /** Position on the negative-to-positive scale. */
    function Rank(): int
    {
      match this
      case Negative => -1
      case Neutral => 0
      case Positive => 1
    }
  }

  /** `not text or text.strip() == ''`: the text is empty or only whitespace, that is, it has
      no word in the sense of `split()`. */
  function IsBlank(cc: TextCleaner.CharClasses, text: string): (b: bool)
    ensures b <==> TextCleaner.Split(cc, text) == []
  {
    TextCleaner.SplitEmptyIffBlank(cc, text);
    forall k :: 0 <= k < |text| ==> cc.space(text[k])
  }

  /** What TextBlob reports for a text. */
  datatype BlobScores = BlobScores(polarity: real, subjectivity: real)

  datatype BlobResult = BlobResult(polarity: real, subjectivity: real, sentiment: Label)

  /** TextBlob's thresholds: strictly beyond 0.1 in either direction. */
  function BlobLabel(polarity: real): (l: Label)
    ensures l == Positive <==> polarity > 0.1
    ensures l == Negative <==> polarity < -0.1
    ensures l == Neutral <==> -0.1 <= polarity <= 0.1
  {
    if polarity > 0.1 then Positive
    else if polarity < -0.1 then Negative
    else Neutral
  }

  function AnalyzeBlob(cc: TextCleaner.CharClasses, scorer: string -> BlobScores, text: string): (r: BlobResult)
    ensures IsBlank(cc, text) ==> r == BlobResult(0.0, 0.0, Neutral)
    ensures !IsBlank(cc, text) ==>
      r.polarity == scorer(text).polarity && r.subjectivity == scorer(text).subjectivity
    ensures r.sentiment == BlobLabel(r.polarity)
  {
    if IsBlank(cc, text) then BlobResult(0.0, 0.0, Neutral)
    else
      var s := scorer(text);
      BlobResult(s.polarity, s.subjectivity, BlobLabel(s.polarity))
  }

  /** What VADER's `polarity_scores` reports for a text. */
  datatype VaderScores = VaderScores(compound: real, pos: real, neu: real, neg: real)

  datatype VaderResult = VaderResult(scores: VaderScores, sentiment: Label)

  /** VADER's thresholds: 0.05 and beyond in either direction, boundaries included. */
  function VaderLabel(compound: real): (l: Label)
    ensures l == Positive <==> compound >= 0.05
    ensures l == Negative <==> compound <= -0.05
    ensures l == Neutral <==> -0.05 < compound < 0.05
  {
    if compound >= 0.05 then Positive
    else if compound <= -0.05 then Negative
    else Neutral
  }

  function AnalyzeVader(cc: TextCleaner.CharClasses, scorer: string -> VaderScores, text: string): (r: VaderResult)
    ensures IsBlank(cc, text) ==> r == VaderResult(VaderScores(0.0, 0.0, 1.0, 0.0), Neutral)
    ensures !IsBlank(cc, text) ==> r.scores == scorer(text)
    ensures r.sentiment == VaderLabel(r.scores.compound)
  {
    if IsBlank(cc, text) then VaderResult(VaderScores(0.0, 0.0, 1.0, 0.0), Neutral)
    else
      var s := scorer(text);
      VaderResult(s, VaderLabel(s.compound))
  }

  /** Both labellings are monotone: a higher score never gets a more negative label. */
  lemma LabelsMonotone(x: real, y: real)
    requires x <= y
    ensures BlobLabel(x).Rank() <= BlobLabel(y).Rank()
    ensures VaderLabel(x).Rank() <= VaderLabel(y).Rank()
  {
  }

  /** Blank text never reaches the scorer: any two scorers give the same result. */
  lemma BlankIgnoresScorer(cc: TextCleaner.CharClasses, text: string,
                           b1: string -> BlobScores, b2: string -> BlobScores,
                           v1: string -> VaderScores, v2: string -> VaderScores)
    requires IsBlank(cc, text)
    ensures AnalyzeBlob(cc, b1, text) == AnalyzeBlob(cc, b2, text)
    ensures AnalyzeVader(cc, v1, text) == AnalyzeVader(cc, v2, text)
  {
  }

  /** The two labellings use different thresholds and disagree near them: 0.05 is positive for
      VADER and neutral for TextBlob. */
  lemma ThresholdsDiffer()
    ensures VaderLabel(0.05) == Positive && BlobLabel(0.05) == Neutral
    ensures VaderLabel(-0.1) == Negative && BlobLabel(-0.1) == Neutral
  {
  }
}
