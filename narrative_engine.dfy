/**
 * Model of backend/app/services/ml/narrative_engine.py: `generate_narrative` classifies a
 * text as Positive, Negative or Neutral by counting how many of ten bullish and ten bearish
 * keywords occur, as substrings, in the lower-cased text, and wraps the verdict in a
 * one-sentence narrative.
 */
module NarrativeEngine {
  import opened Text

  const PositiveWords: seq<string> :=
    ["profit", "gain", "growth", "bull", "surge", "jump", "rally", "strong", "beat", "outperform"]
  const NegativeWords: seq<string> :=
    ["loss", "decline", "bear", "crash", "drop", "fall", "weak", "miss", "underperform", "risk"]

  datatype Sentiment = Positive | Negative | Neutral

  function SentimentName(s: Sentiment): string {
    match s
    case Positive => "Positive"
    case Negative => "Negative"
    case Neutral => "Neutral"
  }

  /** The dictionary `generate_narrative` returns. */
  datatype Narrative = Narrative(sentiment: Sentiment, narrative: string)

  const NoTextNarrative: string := "No text provided for analysis."

  function MarketNarrative(s: Sentiment): string {
    "Market shows " + SentimentName(s) + " sentiment based on text analysis."
  }

  /** How many of the ten bullish keywords occur in the lower-cased text. */
  function PositiveCount(text: string): (n: nat)
    ensures n <= 10
  {
    CountMatches(PositiveWords, ToLower(text))
  }

  /** How many of the ten bearish keywords occur in the lower-cased text. */
  function NegativeCount(text: string): (n: nat)
    ensures n <= 10
  {
    CountMatches(NegativeWords, ToLower(text))
  }

  /** The if/elif/else that compares the two counts. */
  function Classify(positive: nat, negative: nat): (s: Sentiment)
    ensures s == Positive <==> positive > negative
    ensures s == Negative <==> negative > positive
    ensures s == Neutral <==> positive == negative
  {
    if positive > negative then Positive
    else if negative > positive then Negative
    else Neutral
  }

  function GenerateNarrative(text: string): (r: Narrative)
    ensures text == [] ==> r == Narrative(Neutral, NoTextNarrative)
    ensures text != [] ==> r == Narrative(r.sentiment, MarketNarrative(r.sentiment))
  {
    if text == [] then Narrative(Neutral, NoTextNarrative)
    else
      var sentiment := Classify(PositiveCount(text), NegativeCount(text));
      Narrative(sentiment, MarketNarrative(sentiment))
  }

  /**
   * The verdict is always the comparison of the two keyword counts, the empty text included
   * (no keyword occurs in it, so the counts tie).
   */
  lemma SentimentIsCountComparison(text: string)
    ensures GenerateNarrative(text).sentiment == Classify(PositiveCount(text), NegativeCount(text))
    ensures GenerateNarrative(text).sentiment == Positive <==> PositiveCount(text) > NegativeCount(text)
    ensures GenerateNarrative(text).sentiment == Negative <==> NegativeCount(text) > PositiveCount(text)
  {
    if text == [] {
      NoKeywordInEmptyText(PositiveWords, ToLower(text));
      NoKeywordInEmptyText(NegativeWords, ToLower(text));
    }
  }

  /** No non-empty keyword occurs in the empty text. */
  lemma {:induction false} NoKeywordInEmptyText(words: seq<string>, text: string)
    requires forall i :: 0 <= i < |words| ==> |words[i]| > 0
    requires |text| == 0
    ensures CountMatches(words, text) == 0
  {
    if words != [] {
      assert !Contains(text, words[0]);
      NoKeywordInEmptyText(words[1..], text);
    }
  }

  /** Reads the sentiment back out of a narrative string; inverse of `GenerateNarrative`. */
  function NarrativeSentiment(narrative: string): (s: Sentiment)
  {
    if narrative == MarketNarrative(Positive) then Positive
    else if narrative == MarketNarrative(Negative) then Negative
    else Neutral
  }

  /** The four narrative strings are pairwise different. */
  lemma NarrativesDiffer()
    ensures MarketNarrative(Positive) != MarketNarrative(Negative)
    ensures MarketNarrative(Positive) != MarketNarrative(Neutral)
    ensures MarketNarrative(Negative) != MarketNarrative(Neutral)
    ensures NoTextNarrative != MarketNarrative(Positive) && NoTextNarrative != MarketNarrative(Negative)
  {
    assert MarketNarrative(Negative)[13] != MarketNarrative(Positive)[13];
    assert MarketNarrative(Neutral)[13] != MarketNarrative(Positive)[13];
    assert MarketNarrative(Neutral)[15] != MarketNarrative(Negative)[15];
    assert |NoTextNarrative| != |MarketNarrative(Positive)|;
    assert |NoTextNarrative| != |MarketNarrative(Negative)|;
  }

  /** The narrative names its sentiment unambiguously: the sentiment can be recovered from it. */
  lemma NarrativeRoundTrip(text: string)
    ensures NarrativeSentiment(GenerateNarrative(text).narrative) == GenerateNarrative(text).sentiment
  {
    NarrativesDiffer();
  }

  /** Classification ignores ASCII case: a text and its lower-cased form get the same narrative. */
  lemma CaseInsensitive(text: string)
    ensures GenerateNarrative(ToLower(text)) == GenerateNarrative(text)
  {
    ToLowerIdempotent(text);
  }

  /** Each keyword list is free of repeats, so each count is the number of distinct keywords found. */
  lemma CountsAreDistinctKeywords(text: string)
    ensures PositiveCount(text) == |MatchSet(PositiveWords, ToLower(text))|
    ensures NegativeCount(text) == |MatchSet(NegativeWords, ToLower(text))|
  {
    assert Distinct(PositiveWords);
    assert Distinct(NegativeWords);
    CountIsDistinctMatches(PositiveWords, ToLower(text));
    CountIsDistinctMatches(NegativeWords, ToLower(text));
  }
}
