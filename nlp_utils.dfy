/** The priority score of backend/app/nlp_utils.py: keyword weights found in
    the lower-cased text, each counted once, plus 2 for a negative sentiment
    label. The sentiment pipeline itself is not modelled: its answer for the
    preview, or a failure of the call or of reading its result, is a
    parameter. */
module NlpUtils {
  import opened Optional

  /** `PRIORITY_KEYWORDS`, in the dictionary's insertion order. */
  const PriorityKeywords: seq<(string, nat)> := [
    ("immediately", 5), ("urgent", 5), ("asap", 4),
    ("cannot access", 4), ("down", 4), ("critical", 5),
    ("payment failed", 4), ("unable to login", 4)
  ]

  /** The negative-label bonus. */
  const NegBonus: nat := 2

  /** How much of the text the sentiment pipeline is given. */
  const PreviewLength: nat := 1000

  /** `str.lower()` and `str.upper()` on one character (ASCII letters). */
  function LowerChar(c: char): char {
    if 'A' <= c <= 'Z' then (c as int + 32) as char else c
  }

  function UpperChar(c: char): char {
    if 'a' <= c <= 'z' then (c as int - 32) as char else c
  }

  function Lower(s: string): (r: string)
    ensures |r| == |s| && forall i :: 0 <= i < |s| ==> r[i] == LowerChar(s[i])
  {
    seq(|s|, i requires 0 <= i < |s| => LowerChar(s[i]))
  }

  function Upper(s: string): (r: string)
    ensures |r| == |s| && forall i :: 0 <= i < |s| ==> r[i] == UpperChar(s[i])
  {
    seq(|s|, i requires 0 <= i < |s| => UpperChar(s[i]))
  }

  /** Python's `k in t` on strings: `k` occurs in `t` as a contiguous substring. */
  predicate Contains(t: string, k: string)
    decreases |t|
  {
    k <= t || (t != [] && Contains(t[1..], k))
  }

  /** The keyword part of the score: the sum of the weights of the keywords
      of `kws` that occur in `t`, each at most once. */
  function KeywordPart(kws: seq<(string, nat)>, t: string): nat {
    if kws == [] then 0 else KeywordPart(kws[..|kws| - 1], t) + Hit(kws[|kws| - 1], t)
  }

  /** `if k in t: s += v` for one keyword `k` of weight `v`. */
  function Hit(kw: (string, nat), t: string): nat {
    if Contains(t, kw.0) then kw.1 else 0
  }

  /** The sum of all weights of `kws`. */
  function Weights(kws: seq<(string, nat)>): nat {
    if kws == [] then 0 else Weights(kws[..|kws| - 1]) + kws[|kws| - 1].1
  }

  /** The keyword part of a text as the scorer computes it: each keyword
      counts at most once, so it never exceeds the 35 the weights sum to. */
  function KeywordScore(text: string): (r: nat)
    ensures r <= 35
  {
    KeywordPartAtMostWeights(PriorityKeywords, Lower(text));
    WeightsTotal();
    KeywordPart(PriorityKeywords, Lower(text))
  }

  /** `label.upper().startswith("NEG")`: the label starts with "neg" in any
      mix of cases. */
  function IsNegativeLabel(labelText: string): (b: bool)
    ensures b <==> |labelText| >= 3
                   && (labelText[0] == 'N' || labelText[0] == 'n')
                   && (labelText[1] == 'E' || labelText[1] == 'e')
                   && (labelText[2] == 'G' || labelText[2] == 'g')
  {
    "NEG" <= Upper(labelText)
  }

  /** `text[:1000] if text else ""` */
  function Preview(text: Option<string>): (p: string)
    ensures |p| <= PreviewLength
    ensures text.Some? ==> p <= text.value
    ensures text.Some? ==> |p| == if |text.value| <= PreviewLength then |text.value| else PreviewLength
    ensures text.None? ==> p == ""
  {
    if text.Some? && |text.value| > PreviewLength then text.value[..PreviewLength]
    else text.GetOr("")
  }

  /** The `{"label", "score"}` half of the result. */
  datatype SentimentResult = SentimentResult(labelText: string, score: real)

  /** `analyze_sentiment_priority(text)`: `pipelineAnswer` is what the
      pipeline returned for `Preview(text)` (its first label and score), or
      None when it raised, in which case the label falls back to "NEUTRAL".
      The score is the keyword part of the whole lower-cased text, plus 2 for
      a label that starts with "NEG" in upper case. */
  method AnalyzeSentimentPriority(text: Option<string>, pipelineAnswer: Option<(string, real)>)
    returns (sentiment: SentimentResult, priority: int)
    ensures pipelineAnswer.None? ==> sentiment == SentimentResult("NEUTRAL", 0.0)
    ensures pipelineAnswer.Some? ==> sentiment == SentimentResult(pipelineAnswer.value.0, pipelineAnswer.value.1)
    ensures priority == KeywordScore(text.GetOr(""))
                        + if IsNegativeLabel(sentiment.labelText) then NegBonus else 0
    ensures 0 <= priority <= 37
  {
    if pipelineAnswer.Some? {
      sentiment := SentimentResult(pipelineAnswer.value.0, pipelineAnswer.value.1);
    } else {
      sentiment := SentimentResult("NEUTRAL", 0.0);
    }
    var s := 0;
    var t := Lower(text.GetOr(""));
    var i := 0;
    while i < |PriorityKeywords|
      invariant 0 <= i <= |PriorityKeywords|
      invariant s == KeywordPart(PriorityKeywords[..i], t)
    {
      var (k, v) := PriorityKeywords[i];
      assert PriorityKeywords[..i + 1][..i] == PriorityKeywords[..i];
      if Contains(t, k) {
        s := s + v;
      }
      i := i + 1;
    }
    assert PriorityKeywords[..i] == PriorityKeywords;
    if IsNegativeLabel(sentiment.labelText) {
      s := s + NegBonus;
    }
    priority := s;
    KeywordScoreBounded(text.GetOr(""));
  }

  /** Each keyword counts at most once, so the keyword part never exceeds the
      sum of all weights. */
  lemma {:induction false} KeywordPartAtMostWeights(kws: seq<(string, nat)>, t: string)
    ensures KeywordPart(kws, t) <= Weights(kws)
  {
    if kws != [] {
      KeywordPartAtMostWeights(kws[..|kws| - 1], t);
    }
  }

  /** The weights of `PRIORITY_KEYWORDS` sum to 35, so the keyword part is at
      most 35 and the whole score at most 37. */
  lemma KeywordScoreBounded(text: string)
    ensures KeywordScore(text) <= Weights(PriorityKeywords) == 35
  {
    KeywordPartAtMostWeights(PriorityKeywords, Lower(text));
    WeightsTotal();
  }

  /** The weights of `PRIORITY_KEYWORDS` add up to 35. */
  lemma WeightsTotal()
    ensures Weights(PriorityKeywords) == 35
  {
    var kws := PriorityKeywords;
    assert Weights(kws[..1]) == 5;
    assert Weights(kws[..2]) == 10 by { assert kws[..2][..1] == kws[..1]; }
    assert Weights(kws[..3]) == 14 by { assert kws[..3][..2] == kws[..2]; }
    assert Weights(kws[..4]) == 18 by { assert kws[..4][..3] == kws[..3]; }
    assert Weights(kws[..5]) == 22 by { assert kws[..5][..4] == kws[..4]; }
    assert Weights(kws[..6]) == 27 by { assert kws[..6][..5] == kws[..5]; }
    assert Weights(kws[..7]) == 31 by { assert kws[..7][..6] == kws[..6]; }
    assert Weights(kws) == 35 by { assert kws[..7] == kws[..|kws| - 1]; }
  }

  /** A non-empty keyword never occurs in the empty text. */
  lemma {:induction false} NothingInEmpty(kws: seq<(string, nat)>)
    requires forall j :: 0 <= j < |kws| ==> kws[j].0 != ""
    ensures KeywordPart(kws, "") == 0
  {
    if kws != [] {
      NothingInEmpty(kws[..|kws| - 1]);
    }
  }

  /** A missing or empty text has keyword part 0. */
  lemma NoTextScoresZero(text: Option<string>)
    requires text.None? || text.value == ""
    ensures KeywordScore(text.GetOr("")) == 0
  {
    assert Lower("") == "";
    NothingInEmpty(PriorityKeywords);
  }

  /** The fallback label "NEUTRAL" earns no bonus; labels starting with "neg"
      in any letter case do. */
  lemma NegativeLabels()
    ensures !IsNegativeLabel("NEUTRAL")
    ensures IsNegativeLabel("NEGATIVE") && IsNegativeLabel("negative")
    ensures !IsNegativeLabel("POSITIVE")
  {
    assert Upper("NEUTRAL")[2] == 'U';
    assert Upper("POSITIVE")[0] == 'P';
    assert Upper("negative")[..3] == "NEG";
    assert Upper("NEGATIVE")[..3] == "NEG";
  }

  /** Lower-casing forgets the case of the input. */
  lemma LowerForgetsCase(t: string)
    ensures Lower(Upper(t)) == Lower(t)
    ensures Lower(Lower(t)) == Lower(t)
  {
    assert forall i :: 0 <= i < |t| ==> Lower(Upper(t))[i] == Lower(t)[i];
    assert forall i :: 0 <= i < |t| ==> Lower(Lower(t))[i] == Lower(t)[i];
  }

  /** The score does not depend on the letter case of the text. */
  lemma ScoreIgnoresCase(t: string)
    ensures KeywordScore(Upper(t)) == KeywordScore(t)
    ensures KeywordScore(Lower(t)) == KeywordScore(t)
  {
    LowerForgetsCase(t);
  }

  /** An occurrence stays an occurrence inside a longer text. */
  lemma {:induction false} ContainsInLonger(a: string, t: string, b: string, k: string)
    requires Contains(t, k)
    ensures Contains(a + t + b, k)
    decreases |a| + |t|
  {
    if a != [] {
      ContainsInLonger(a[1..], t, b, k);
      assert (a + t + b)[1..] == a[1..] + t + b;
    } else if k <= t {
      assert a + t + b == t + b;
    } else {
      ContainsInLonger([], t[1..], b, k);
      assert ([] + t + b)[1..] == [] + t[1..] + b;
    }
  }

  /** The keyword part grows with the set of keywords found. */
  lemma {:induction false} KeywordPartMonotone(kws: seq<(string, nat)>, t: string, u: string)
    requires forall j :: 0 <= j < |kws| && Contains(t, kws[j].0) ==> Contains(u, kws[j].0)
    ensures KeywordPart(kws, t) <= KeywordPart(kws, u)
  {
    if kws != [] {
      var init := kws[..|kws| - 1];
      forall j | 0 <= j < |init| && Contains(t, init[j].0) ensures Contains(u, init[j].0) {
        assert init[j] == kws[j];
      }
      KeywordPartMonotone(init, t, u);
    }
  }

  /** Keyword scoring is monotone: a text scores at least as much as any of
      its substrings. */
  lemma ScoreMonotone(a: string, t: string, b: string)
    ensures KeywordScore(t) <= KeywordScore(a + t + b)
  {
    assert Lower(a + t + b) == Lower(a) + Lower(t) + Lower(b);
    forall j | 0 <= j < |PriorityKeywords| && Contains(Lower(t), PriorityKeywords[j].0)
      ensures Contains(Lower(a + t + b), PriorityKeywords[j].0)
    {
      ContainsInLonger(Lower(a), Lower(t), Lower(b), PriorityKeywords[j].0);
    }
    KeywordPartMonotone(PriorityKeywords, Lower(t), Lower(a + t + b));
  }

  function Spaces(n: nat): (s: string)
    ensures |s| == n && forall i :: 0 <= i < n ==> s[i] == ' '
  {
    seq(n, _ => ' ')
  }

  /** Blank text contains no keyword that has a non-blank character. */
  lemma {:induction false} BlankContainsNoWord(t: string, k: string, p: nat)
    requires forall i :: 0 <= i < |t| ==> t[i] == ' '
    requires p < |k| && k[p] != ' '
    ensures !Contains(t, k)
    decreases |t|
  {
    if t != [] {
      BlankContainsNoWord(t[1..], k, p);
    }
  }

  /** The keyword scan reads the whole text, not the 1000-character preview:
      a keyword placed after 1000 blanks is invisible in the preview and still
      scored. */
  lemma KeywordAfterPreviewCounts()
    ensures var text := Spaces(PreviewLength) + "urgent";
            KeywordScore(Preview(Some(text))) == 0 && KeywordScore(text) >= 5
  {
    var text := Spaces(PreviewLength) + "urgent";
    var p := Preview(Some(text));
    assert p == Spaces(PreviewLength);
    assert Lower(p) == p;
    forall j | 0 <= j < |PriorityKeywords| ensures !Contains(p, PriorityKeywords[j].0) {
      BlankContainsNoWord(p, PriorityKeywords[j].0, 0);
    }
    KeywordPartMonotone(PriorityKeywords, p, "");
    NothingInEmpty(PriorityKeywords);
    assert Contains("urgent", "urgent");
    ScoreMonotone(Spaces(PreviewLength), "urgent", "");
    assert Spaces(PreviewLength) + "urgent" + "" == text;
    UrgentScoresFive();
  }

  /** The text "urgent" alone scores its weight, 5. */
  lemma UrgentScoresFive()
    ensures KeywordScore("urgent") >= 5
  {
    assert Lower("urgent") == "urgent";
    assert Contains("urgent", "urgent");
    KeywordPartAtLeastHit(PriorityKeywords, "urgent", 1);
  }

  /** A keyword that occurs contributes its full weight. */
  lemma {:induction false} KeywordPartAtLeastHit(kws: seq<(string, nat)>, t: string, j: nat)
    requires j < |kws| && Contains(t, kws[j].0)
    ensures KeywordPart(kws, t) >= kws[j].1
  {
    if j < |kws| - 1 {
      var init := kws[..|kws| - 1];
      assert init[j] == kws[j];
      KeywordPartAtLeastHit(init, t, j);
    }
  }
}
