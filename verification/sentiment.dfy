/**
  Sentiment classification of an email body: the result of the external
  classifier mapped onto three labels when the classifier produced one, and
  otherwise a deterministic count of two small lexicons.
*/
module SentimentClassifier {
  import opened Strings

  datatype Sentiment = Positive | Neutral | Negative {
    /** The label as it is stored and used in template keys. */
    function Name(): string
    {
      match this
      case Positive => "positive"
      case Neutral => "neutral"
      case Negative => "negative"
    }
  }

  /** A label with the confidence reported for it: the classifier's own
      score, or the fixed 0.7 or 0.6 of the lexicon fallback. */
  datatype Classification = Classification(sentiment: Sentiment, confidence: real)

  const PositiveWords: seq<string> :=
    ["thank", "great", "excellent", "love", "amazing", "perfect", "wonderful"]

  const NegativeWords: seq<string> :=
    ["problem", "issue", "error", "broken", "frustrated", "angry", "terrible", "awful"]

  function PositiveCount(text: string): nat
  {
    CountPresent(PositiveWords, Lower(text))
  }

  function NegativeCount(text: string): nat
  {
    CountPresent(NegativeWords, Lower(text))
  }

  /** The lexicon fallback: the larger count wins with confidence 0.7, and a
      tie (0 to 0 included) is neutral with confidence 0.6. */
  function RuleBasedSentiment(text: string): (r: Classification)
    ensures r.sentiment == Positive <==> PositiveCount(text) > NegativeCount(text)
    ensures r.sentiment == Negative <==> NegativeCount(text) > PositiveCount(text)
    ensures r.sentiment == Neutral <==> PositiveCount(text) == NegativeCount(text)
    ensures r.confidence == (if r.sentiment == Neutral then 0.6 else 0.7)
  {
    var positive := PositiveCount(text);
    var negative := NegativeCount(text);
    if positive > negative then Classification(Positive, 0.7)
    else if negative > positive then Classification(Negative, 0.7)
    else Classification(Neutral, 0.6)
  }

  /** Each count is the number of DISTINCT lexicon words present: repeating a
      word does not move the result, and the counts are bounded by the
      lexicon sizes. */
  lemma RuleBasedCountsDistinctWords(text: string)
    ensures PositiveCount(text) == |PresentSet(PositiveWords, Lower(text))|
    ensures NegativeCount(text) == |PresentSet(NegativeWords, Lower(text))|
    ensures PositiveCount(text) <= 7 && NegativeCount(text) <= 8
  {
    LexiconsDistinct();
    CountPresentIsDistinctHits(PositiveWords, Lower(text));
    CountPresentIsDistinctHits(NegativeWords, Lower(text));
    CountPresentAtMostLength(PositiveWords, Lower(text));
    CountPresentAtMostLength(NegativeWords, Lower(text));
  }

  lemma LexiconsDistinct()
    ensures NoDuplicates(PositiveWords) && NoDuplicates(NegativeWords)
  {
  }

  lemma {:induction false} CountPresentAtMostLength(words: seq<string>, s: string)
    ensures CountPresent(words, s) <= |words|
  {
    if |words| > 0 {
      CountPresentAtMostLength(words[1..], s);
    }
  }

  /** The fallback does not depend on letter case. */
  lemma RuleBasedIgnoresCase(text: string)
    ensures RuleBasedSentiment(Lower(text)) == RuleBasedSentiment(text)
  {
    LowerLower(text);
  }

  /** One score the external classifier reports for one of its labels. */
  datatype LabelScore = LabelScore(name: string, score: real)

  /** What the external classifier did for one text: it was never loaded,
      it raised, or it returned its list of label scores. */
  datatype ModelRun = NotLoaded | Failed | Scores(results: seq<LabelScore>)

  /** Python's `max(results, key=score)`: the first of the highest-scoring
      entries. */
  function TopResult(results: seq<LabelScore>): (k: nat)
    requires |results| > 0
    decreases |results|
    ensures k < |results|
    ensures forall j :: 0 <= j < |results| ==> results[j].score <= results[k].score
    ensures forall j :: 0 <= j < k ==> results[j].score < results[k].score
  {
    if |results| == 1 then 0
    else
      var k := TopResult(results[..|results| - 1]);
      if results[|results| - 1].score > results[k].score then |results| - 1 else k
  }

  /** The classifier's label taxonomy onto the three canonical labels. */
  const LabelMapping: map<string, Sentiment> := map[
    "LABEL_0" := Negative, "LABEL_1" := Neutral, "LABEL_2" := Positive,
    "negative" := Negative, "neutral" := Neutral, "positive" := Positive]

  /** The canonical label for a classifier label: the mapped one when the
      label is in the table, neutral for any other label. */
  function MapLabel(name: string): (s: Sentiment)
    ensures s == Negative <==> name == "LABEL_0" || name == "negative"
    ensures s == Positive <==> name == "LABEL_2" || name == "positive"
    ensures s == Neutral <==> name != "LABEL_0" && name != "negative" && name != "LABEL_2" && name != "positive"
  {
    if name in LabelMapping then LabelMapping[name] else Neutral
  }

  /** The classifier's top label when it produced scores; the lexicon
      fallback when it was not loaded, raised, or returned nothing (where
      `max` of an empty list raises). */
  function AnalyzeSentiment(text: string, run: ModelRun): (r: Classification)
    ensures !(run.Scores? && |run.results| > 0) ==> r == RuleBasedSentiment(text)
    ensures run.Scores? && |run.results| > 0 ==>
      exists k :: 0 <= k < |run.results| && r == Classification(MapLabel(run.results[k].name), run.results[k].score)
        && (forall j :: 0 <= j < |run.results| ==> run.results[j].score <= run.results[k].score)
        && (forall j :: 0 <= j < k ==> run.results[j].score < run.results[k].score)
  {
    if run.Scores? && |run.results| > 0 then
      var best := run.results[TopResult(run.results)];
      Classification(MapLabel(best.name), best.score)
    else
      RuleBasedSentiment(text)
  }
}
