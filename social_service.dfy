/** The social stress scorer: stress words found in a sample of community
    messages and their average sentiment polarity give a [1, 10] score; a
    second sample is labelled message by message.
    The random sample and each message's polarity are inputs. */
module SocialService {
  import opened Numeric

  /** The simulated community feed the samples are drawn from. */
  const MockFeed: seq<string> := [
    "The air feels heavy today, hard to breathe.",
    "Beautiful sunny day! Perfect for a walk.",
    "Is it just me or is the pollution getting worse in downtown?",
    "Love the new environmental monitoring app, so helpful.",
    "Stuck in traffic, the smog is unbearable.",
    "Water quality in the local park seems much better now.",
    "Warning: High UV levels today, stay hydrated!",
    "Feeling stressed about the recent heatwaves.",
    "Great community effort on the recycling drive.",
    "The city needs more green spaces."
  ]

  /** The stress vocabulary, all in lower case. */
  const StressIndicators: seq<string> :=
    ["unbearable", "worse", "heavy", "hard", "pollution", "smog", "stressed"]

  const ScoreSampleSize: nat := 5
  const PulseSampleSize: nat := 4

  /** What `random.sample(mock_feed, k)` returns: k distinct feed messages. */
  predicate IsSampleOf(sample: seq<string>, k: nat) {
    && |sample| == k
    && (forall i :: 0 <= i < |sample| ==> sample[i] in MockFeed)
    && (forall i, j :: 0 <= i < j < |sample| ==> sample[i] != sample[j])
  }

  // ---------------------------------------------------------------- text

  function LowerChar(c: char): char {
    if 'A' <= c <= 'Z' then (c as int + 32) as char else c
  }

  /** `s.lower()` on ASCII letters. */
  function Lower(s: string): (r: string)
    ensures |r| == |s|
  {
    seq(|s|, i requires 0 <= i < |s| => LowerChar(s[i]))
  }

  /** `sep.join(parts)`. */
  function Join(parts: seq<string>, sep: string): string
    decreases |parts|
  {
    if |parts| == 0 then ""
    else if |parts| == 1 then parts[0]
    else parts[0] + sep + Join(parts[1..], sep)
  }

  /** `" ".join(sample).lower()`: the text the indicators are searched in. */
  function AllText(sample: seq<string>): string {
    Lower(Join(sample, " "))
  }

  /** Python's `word in text`: `word` occurs in `text` as a substring. */
  predicate Contains(text: string, word: string)
    decreases |text|
  {
    word <= text || (|text| > 0 && Contains(text[1..], word))
  }

  lemma LowerAppend(a: string, b: string)
    ensures Lower(a + b) == Lower(a) + Lower(b)
  {
    assert forall i :: 0 <= i < |a + b| ==> Lower(a + b)[i] == (Lower(a) + Lower(b))[i];
  }

  lemma {:induction false} ContainsExtendRight(text: string, word: string, suffix: string)
    requires Contains(text, word)
    ensures Contains(text + suffix, word)
    decreases |text|
  {
    if word <= text {
      assert (text + suffix)[..|word|] == text[..|word|];
    } else {
      ContainsExtendRight(text[1..], word, suffix);
      assert (text + suffix)[1..] == text[1..] + suffix;
    }
  }

  lemma {:induction false} ContainsExtendLeft(prefix: string, text: string, word: string)
    requires Contains(text, word)
    ensures Contains(prefix + text, word)
    decreases |prefix|
  {
    if |prefix| > 0 {
      ContainsExtendLeft(prefix[1..], text, word);
      assert (prefix + text)[1..] == prefix[1..] + text;
    } else {
      assert prefix + text == text;
    }
  }

  /** Matching is a case-insensitive substring test over the joined sample:
      a word found anywhere in any lower-cased message, even inside a longer
      word, is found in the searched text. */
  lemma {:induction false} WordInMessageIsFound(sample: seq<string>, i: nat, word: string)
    requires i < |sample|
    requires Contains(Lower(sample[i]), word)
    ensures Contains(AllText(sample), word)
    decreases |sample|
  {
    if |sample| > 1 {
      var rest := Join(sample[1..], " ");
      LowerAppend(sample[0] + " ", rest);
      LowerAppend(sample[0], " ");
      assert AllText(sample) == Lower(sample[0]) + Lower(" ") + Lower(rest);
      if i == 0 {
        ContainsExtendRight(Lower(sample[0]), word, Lower(" ") + Lower(rest));
        assert Lower(sample[0]) + (Lower(" ") + Lower(rest)) == AllText(sample);
      } else {
        assert sample[1..][i - 1] == sample[i];
        WordInMessageIsFound(sample[1..], i - 1, word);
        ContainsExtendLeft(Lower(sample[0]) + Lower(" "), Lower(rest), word);
      }
    }
  }

  // ---------------------------------------------------------------- stress count

  /** How many of `words` occur in `text`, each counted at most once. */
  function MatchCount(words: seq<string>, text: string): (c: nat)
    ensures c <= |words|
  {
    if |words| == 0 then 0
    else MatchCount(words[..|words| - 1], text) + (if Contains(text, words[|words| - 1]) then 1 else 0)
  }

  /** The indices of the words that occur in `text`. */
  function MatchedIndices(words: seq<string>, text: string): set<nat> {
    set i: nat | i < |words| && Contains(text, words[i])
  }

  /** The count is the number of distinct vocabulary entries present. */
  lemma {:induction false} MatchCountIsMatchedIndices(words: seq<string>, text: string)
    ensures MatchCount(words, text) == |MatchedIndices(words, text)|
  {
    if |words| > 0 {
      var n := |words| - 1;
      var init := words[..n];
      MatchCountIsMatchedIndices(init, text);
      var before := MatchedIndices(init, text);
      assert forall i: nat :: i < n ==> init[i] == words[i];
      if Contains(text, words[n]) {
        assert MatchedIndices(words, text) == before + {n};
      } else {
        assert MatchedIndices(words, text) == before;
      }
    }
  }

  /** Only whether each word occurs matters, not how often or where. */
  lemma {:induction false} MatchCountDependsOnPresence(words: seq<string>, text: string, text': string)
    requires forall i :: 0 <= i < |words| ==> (Contains(text, words[i]) <==> Contains(text', words[i]))
    ensures MatchCount(words, text) == MatchCount(words, text')
  {
    if |words| > 0 {
      var n := |words| - 1;
      assert forall i :: 0 <= i < n ==> words[..n][i] == words[i];
      MatchCountDependsOnPresence(words[..n], text, text');
    }
  }

  // ---------------------------------------------------------------- score

  function Sum(xs: seq<real>): real {
    if |xs| == 0 then 0.0 else Sum(xs[..|xs| - 1]) + xs[|xs| - 1]
  }

  /** `sum(polarities) / len(polarities)`. */
  function Average(xs: seq<real>): real
    requires |xs| > 0
  {
    Sum(xs) / |xs| as real
  }

  predicate IsPolarity(p: real) {
    -1.0 <= p <= 1.0
  }

  lemma {:induction false} SumBounds(xs: seq<real>)
    requires forall i :: 0 <= i < |xs| ==> IsPolarity(xs[i])
    ensures -(|xs| as real) <= Sum(xs) <= |xs| as real
  {
    if |xs| > 0 {
      SumBounds(xs[..|xs| - 1]);
    }
  }

  /** The average of polarities is itself a polarity. */
  lemma AverageIsPolarity(xs: seq<real>)
    requires |xs| > 0
    requires forall i :: 0 <= i < |xs| ==> IsPolarity(xs[i])
    ensures IsPolarity(Average(xs))
  {
    SumBounds(xs);
    QuotientBounds(Sum(xs), |xs| as real);
  }

  lemma QuotientBounds(x: real, n: real)
    requires n > 0.0 && -n <= x <= n
    ensures -1.0 <= x / n <= 1.0
  {
    var q := x / n;
    assert q * n == x;
    assert (1.0 - q) * n == n - x;
    assert (q + 1.0) * n == x + n;
  }

  /** `5 - avg_polarity * 5`: 0 for wholly positive text, 10 for wholly negative. */
  function BaseScore(avgPolarity: real): (b: real)
    ensures IsPolarity(avgPolarity) ==> 0.0 <= b <= 10.0
  {
    5.0 - avgPolarity * 5.0
  }

  /** `stress_count / len(stress_indicators) * 5`. */
  function StressBonus(stressCount: nat): (b: real)
    ensures stressCount <= |StressIndicators| ==> 0.0 <= b <= 5.0
  {
    stressCount as real / |StressIndicators| as real * 5.0
  }

  /** The social stress score: base plus bonus, clamped to [1, 10], rounded. */
  function StressScore(avgPolarity: real, stressCount: nat): (s: real)
    ensures 1.0 <= s <= 10.0
    ensures IsTenth(s)
  {
    var clamped := Clamp(1.0, 10.0, BaseScore(avgPolarity) + StressBonus(stressCount));
    RoundTenthKeepsScale(clamped);
    RoundTenth(clamped)
  }

  /** More positive text never raises the score; more stress words never lower it. */
  lemma StressScoreMonotone(avg: real, avg': real, count: nat, count': nat)
    requires avg <= avg' && count' <= count
    ensures StressScore(avg', count') <= StressScore(avg, count)
  {
    var lo := BaseScore(avg') + StressBonus(count');
    var hi := BaseScore(avg) + StressBonus(count);
    ClampMonotone(1.0, 10.0, lo, hi);
    RoundTenthMonotone(Clamp(1.0, 10.0, lo), Clamp(1.0, 10.0, hi));
  }

  /** `SocialService.get_social_score`: the average polarity of the sample,
      the stress words found in its joined lower-cased text, and the score. */
  method GetSocialScore(sample: seq<string>, polarities: seq<real>) returns (score: real)
    requires IsSampleOf(sample, ScoreSampleSize)
    requires |polarities| == |sample|
    ensures score == StressScore(Average(polarities), MatchCount(StressIndicators, AllText(sample)))
    ensures 1.0 <= score <= 10.0
  {
    var avgPolarity := Average(polarities);
    var stressCount := 0;
    var allText := AllText(sample);
    for i := 0 to |StressIndicators|
      invariant stressCount == MatchCount(StressIndicators[..i], allText)
    {
      assert StressIndicators[..i + 1][..i] == StressIndicators[..i];
      if Contains(allText, StressIndicators[i]) {
        stressCount := stressCount + 1;
      }
    }
    assert StressIndicators[..|StressIndicators|] == StressIndicators;
    score := StressScore(avgPolarity, stressCount);
  }

  // ---------------------------------------------------------------- pulse

  datatype Sentiment = Positive | Negative | Neutral

  /** The label of one message from the sign of its polarity. */
  function SentimentOf(polarity: real): (s: Sentiment)
    ensures s == Positive <==> polarity > 0.0
    ensures s == Negative <==> polarity < 0.0
    ensures s == Neutral <==> polarity == 0.0
  {
    if polarity > 0.0 then Positive else if polarity < 0.0 then Negative else Neutral
  }

  datatype Pulse = Pulse(text: string, sentiment: Sentiment)

  /** `SocialService.get_recent_pulse`: one labelled entry per sampled message, in order. */
  method GetRecentPulse(sample: seq<string>, polarities: seq<real>) returns (pulses: seq<Pulse>)
    requires IsSampleOf(sample, PulseSampleSize)
    requires |polarities| == |sample|
    ensures |pulses| == |sample|
    ensures forall i :: 0 <= i < |sample| ==>
      pulses[i].text == sample[i] && pulses[i].sentiment == SentimentOf(polarities[i])
  {
    pulses := [];
    for i := 0 to |sample|
      invariant |pulses| == i
      invariant forall k :: 0 <= k < i ==>
        pulses[k].text == sample[k] && pulses[k].sentiment == SentimentOf(polarities[k])
    {
      var sentiment := SentimentOf(polarities[i]);
      pulses := pulses + [Pulse(sample[i], sentiment)];
    }
  }
}
