/** `QualityRubric.assess_quality`: a heuristic score in [0, 5] for each of four
    dimensions of a text, computed from fixed indicator phrases found in the
    lower-cased text and, for clarity, from the number of words. */
module Quality {
  import opened Text

  /** The four scores, keyed as in the source's result dictionary. */
  datatype Scores = Scores(evidence: real, feasibility: real, risks: real, clarity: real)

  datatype Dimension = Evidence | Feasibility | Risks | Clarity

  const EvidenceIndicators: seq<string> :=
    ["study", "research", "data", "statistics", "example", "according to", "shows"]
  const FeasibilityIndicators: seq<string> :=
    ["practical", "implement", "feasible", "realistic", "achievable", "cost", "time"]
  const RiskIndicators: seq<string> :=
    ["risk", "concern", "challenge", "limitation", "potential problem", "drawback"]
  const ClarityIndicators: seq<string> :=
    ["first", "second", "third", "however", "therefore", "in conclusion", "clearly"]

  function Indicators(d: Dimension): seq<string> {
    match d
    case Evidence => EvidenceIndicators
    case Feasibility => FeasibilityIndicators
    case Risks => RiskIndicators
    case Clarity => ClarityIndicators
  }

  /** What one indicator found is worth in each dimension. */
  function Weight(d: Dimension): real {
    if d == Clarity then 0.3 else 0.5
  }

  function Score(q: Scores, d: Dimension): real {
    match d
    case Evidence => q.evidence
    case Feasibility => q.feasibility
    case Risks => q.risks
    case Clarity => q.clarity
  }

  /** Python's `min(5.0, x)`. */
  function Min5(x: real): real {
    if x < 5.0 then x else 5.0
  }

  /** `sum(1 for indicator in indicators if indicator in text)`. */
  function CountPresent(indicators: seq<string>, text: string): (n: nat)
    ensures n <= |indicators|
    decreases |indicators|
  {
    if |indicators| == 0 then 0
    else
      CountPresent(indicators[..|indicators| - 1], text)
      + (if Contains(text, indicators[|indicators| - 1]) then 1 else 0)
  }

  /** The indicator count of one dimension, matched against the lower-cased text. */
  function KeywordCount(d: Dimension, content: string): nat {
    CountPresent(Indicators(d), Lower(content))
  }

  function AssessQuality(content: string): (q: Scores)
    ensures forall d: Dimension :: 0.0 <= Score(q, d) <= 5.0
    // the cap of 5 is never reached by the three keyword-only dimensions
    ensures q.evidence == 0.5 * KeywordCount(Evidence, content) as real <= 3.5
    ensures q.feasibility == 0.5 * KeywordCount(Feasibility, content) as real <= 3.5
    ensures q.risks == 0.5 * KeywordCount(Risks, content) as real <= 3.0
  {
    var lowered := Lower(content);
    Scores(
      Min5(CountPresent(EvidenceIndicators, lowered) as real * 0.5),
      Min5(CountPresent(FeasibilityIndicators, lowered) as real * 0.5),
      Min5(CountPresent(RiskIndicators, lowered) as real * 0.5),
      Min5(CountPresent(ClarityIndicators, lowered) as real * 0.3 + WordCount(content) as real / 50.0))
  }


  /** The indices of the indicators that occur in `text`. */
  function PresentIndices(indicators: seq<string>, text: string): set<nat> {
    set i: nat | i < |indicators| && Contains(text, indicators[i])
  }

  /** The count is the number of distinct indicators present: an indicator
      that occurs several times still counts once. */
  lemma {:induction false} CountIsDistinctPresent(indicators: seq<string>, text: string)
    ensures CountPresent(indicators, text) == |PresentIndices(indicators, text)|
    decreases |indicators|
  {
    if |indicators| > 0 {
      var m := |indicators| - 1;
      var init := indicators[..m];
      CountIsDistinctPresent(init, text);
      var before := PresentIndices(init, text);
      if Contains(text, indicators[m]) {
        assert PresentIndices(indicators, text) == before + {m};
      } else {
        assert PresentIndices(indicators, text) == before;
      }
    }
  }

  /** Each keyword-only score is half the number of distinct indicators present. */
  lemma KeywordScoreCountsDistinct(d: Dimension, content: string)
    requires d != Clarity
    ensures Score(AssessQuality(content), d)
         == 0.5 * |PresentIndices(Indicators(d), Lower(content))| as real
  {
    CountIsDistinctPresent(Indicators(d), Lower(content));
  }

  /** The clarity score blends 0.3 per distinct clarity indicator present
      with one fiftieth of the word count, capped at 5. */
  lemma ClarityBlend(content: string)
    ensures AssessQuality(content).clarity
         == Min5(0.3 * |PresentIndices(ClarityIndicators, Lower(content))| as real + WordCount(content) as real / 50.0)
  {
    CountIsDistinctPresent(ClarityIndicators, Lower(content));
  }

  /** No non-empty indicator occurs in the empty text. */
  lemma {:induction false} NothingInEmpty(indicators: seq<string>)
    requires forall i | 0 <= i < |indicators| :: |indicators[i]| > 0
    ensures CountPresent(indicators, "") == 0
    decreases |indicators|
  {
    if |indicators| > 0 {
      NothingInEmpty(indicators[..|indicators| - 1]);
    }
  }

  /** `assess_quality("")` is zero in every dimension. */
  lemma EmptyTextScoresZero()
    ensures AssessQuality("") == Scores(0.0, 0.0, 0.0, 0.0)
  {
    assert Lower("") == "";
    NothingInEmpty(EvidenceIndicators);
    NothingInEmpty(FeasibilityIndicators);
    NothingInEmpty(RiskIndicators);
    NothingInEmpty(ClarityIndicators);
  }

  /** Texts that differ only in the case of their letters get identical scores. */
  lemma ScoresIgnoreCase(a: string, b: string)
    requires Lower(a) == Lower(b)
    ensures AssessQuality(a) == AssessQuality(b)
  {
    assert |a| == |Lower(a)| == |b|;
    forall i | 0 <= i < |a|
      ensures IsSpace(a[i]) == IsSpace(b[i])
    {
      LowerKeepsSpaces(a[i]);
      LowerKeepsSpaces(b[i]);
      assert LowerChar(a[i]) == Lower(a)[i] == Lower(b)[i] == LowerChar(b[i]);
    }
    WordCountBySpaces(a, b);
  }

  /** If every indicator found in `a` is found in `b`, `b` finds at least as many. */
  lemma {:induction false} CountMonotone(indicators: seq<string>, a: string, b: string)
    requires forall i | 0 <= i < |indicators| :: Contains(a, indicators[i]) ==> Contains(b, indicators[i])
    ensures CountPresent(indicators, a) <= CountPresent(indicators, b)
    decreases |indicators|
  {
    if |indicators| > 0 {
      CountMonotone(indicators[..|indicators| - 1], a, b);
    }
  }

  /** ... and strictly more when `b` also finds an indicator `a` misses. */
  lemma {:induction false} CountRaised(indicators: seq<string>, a: string, b: string, k: nat)
    requires forall i | 0 <= i < |indicators| :: Contains(a, indicators[i]) ==> Contains(b, indicators[i])
    requires k < |indicators| && Contains(b, indicators[k]) && !Contains(a, indicators[k])
    ensures CountPresent(indicators, a) + 1 <= CountPresent(indicators, b)
    decreases |indicators|
  {
    var m := |indicators| - 1;
    if k == m {
      CountMonotone(indicators[..m], a, b);
    } else {
      CountRaised(indicators[..m], a, b, k);
    }
  }

  /** Every indicator found in `t` is still found once text is appended. */
  lemma FoundAfterAppend(indicators: seq<string>, t: string, u: string)
    ensures forall i | 0 <= i < |indicators| ::
      Contains(Lower(t), indicators[i]) ==> Contains(Lower(t + u), indicators[i])
  {
    LowerAppend(t, u);
    forall i | 0 <= i < |indicators| && Contains(Lower(t), indicators[i])
      ensures Contains(Lower(t + u), indicators[i])
    {
      ContainsAppend(Lower(t), Lower(u), indicators[i]);
    }
  }

  /** Appending text never lowers any of the four scores. */
  lemma AppendNeverLowersScores(t: string, u: string, d: Dimension)
    ensures Score(AssessQuality(t), d) <= Score(AssessQuality(t + u), d)
  {
    FoundAfterAppend(Indicators(d), t, u);
    CountMonotone(Indicators(d), Lower(t), Lower(t + u));
    WordCountAppend(t, u);
  }

  /** Appending text that carries an indicator phrase the text lacked raises
      that dimension's score by the indicator's weight, up to the cap of 5. */
  lemma AddedIndicatorRaisesScore(t: string, u: string, d: Dimension, k: nat)
    requires k < |Indicators(d)|
    requires Contains(Lower(u), Indicators(d)[k]) && !Contains(Lower(t), Indicators(d)[k])
    ensures Score(AssessQuality(t + u), d) >= Min5(Score(AssessQuality(t), d) + Weight(d))
  {
    FoundAfterAppend(Indicators(d), t, u);
    LowerAppend(t, u);
    ContainsInContext(Lower(t), Lower(u), "", Indicators(d)[k]);
    assert Lower(t) + Lower(u) + "" == Lower(t + u);
    CountRaised(Indicators(d), Lower(t), Lower(t + u), k);
    WordCountAppend(t, u);
  }
}
