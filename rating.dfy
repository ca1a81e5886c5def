/** The options-trade rating: strategy and grade enumerations, the score breakdown and its composite. */
module Rating {
  import opened Wrappers
  import opened Numeric
  import opened Dates

  datatype OptionsStrategy =
    | LongCall | LongPut | LongStraddle | LongStrangle | BullCallSpread | BearPutSpread
    | IronCondor | CashSecuredPut | CoveredCall | CalendarSpread | Custom

  function StrategyCode(s: OptionsStrategy): string {
    match s
    case LongCall => "long_call"
    case LongPut => "long_put"
    case LongStraddle => "long_straddle"
    case LongStrangle => "long_strangle"
    case BullCallSpread => "bull_call_spread"
    case BearPutSpread => "bear_put_spread"
    case IronCondor => "iron_condor"
    case CashSecuredPut => "cash_secured_put"
    case CoveredCall => "covered_call"
    case CalendarSpread => "calendar_spread"
    case Custom => "custom"
  }

  /** `OptionsStrategy(code)`: `None` where Python raises `ValueError`. */
  function StrategyFromCode(s: string): (r: Option<OptionsStrategy>)
    ensures forall t :: StrategyCode(t) == s ==> r == Some(t)
    ensures r.Some? ==> StrategyCode(r.value) == s
  {
    if s == "long_call" then Some(LongCall)
    else if s == "long_put" then Some(LongPut)
    else if s == "long_straddle" then Some(LongStraddle)
    else if s == "long_strangle" then Some(LongStrangle)
    else if s == "bull_call_spread" then Some(BullCallSpread)
    else if s == "bear_put_spread" then Some(BearPutSpread)
    else if s == "iron_condor" then Some(IronCondor)
    else if s == "cash_secured_put" then Some(CashSecuredPut)
    else if s == "covered_call" then Some(CoveredCall)
    else if s == "calendar_spread" then Some(CalendarSpread)
    else if s == "custom" then Some(Custom)
    else None
  }

  /** Letter grade of an options setup, A+ (highest conviction) to F (avoid). */
  datatype RatingGrade = APlus | A | BPlus | B | C | D | F

  function GradeCode(g: RatingGrade): string {
    match g
    case APlus => "A+"
    case A => "A"
    case BPlus => "B+"
    case B => "B"
    case C => "C"
    case D => "D"
    case F => "F"
  }

  /** Quality of a grade: 0 for F up to 6 for A+. */
  function GradeRank(g: RatingGrade): (n: nat)
    ensures n <= 6
  {
    match g
    case F => 0
    case D => 1
    case C => 2
    case B => 3
    case BPlus => 4
    case A => 5
    case APlus => 6
  }

  /**
   * `score_to_grade`: the seven bands are exhaustive and disjoint, and a
   * boundary value belongs to the higher band.
   */
  function ScoreToGrade(score: real): (g: RatingGrade)
    ensures g == APlus <==> score >= 90.0
    ensures g == A <==> 80.0 <= score < 90.0
    ensures g == BPlus <==> 70.0 <= score < 80.0
    ensures g == B <==> 60.0 <= score < 70.0
    ensures g == C <==> 50.0 <= score < 60.0
    ensures g == D <==> 30.0 <= score < 50.0
    ensures g == F <==> score < 30.0
  {
    if score >= 90.0 then APlus
    else if score >= 80.0 then A
    else if score >= 70.0 then BPlus
    else if score >= 60.0 then B
    else if score >= 50.0 then C
    else if score >= 30.0 then D
    else F
  }

  /** A higher score never gets a worse grade. */
  lemma ScoreToGradeMonotone(s1: real, s2: real)
    requires s1 <= s2
    ensures GradeRank(ScoreToGrade(s1)) <= GradeRank(ScoreToGrade(s2))
  {
  }

  /** The seven sub-scores, each meant to lie in [0, 100]. */
  datatype ScoreBreakdown = ScoreBreakdown(
    catalystQuality: real,      // event type and pipeline-stage strength
    sentimentAlignment: real,   // analyst consensus
    marketContext: real,        // broad market / sector tailwinds
    ivEnvironment: real,        // implied-volatility favourability
    historicalAccuracy: real,   // past similar events for the ticker
    competitiveMoat: real,      // differentiation against competitors
    riskReward: real)           // event magnitude against premium cost

  predicate InScoreRange(b: ScoreBreakdown) {
    && 0.0 <= b.catalystQuality <= 100.0
    && 0.0 <= b.sentimentAlignment <= 100.0
    && 0.0 <= b.marketContext <= 100.0
    && 0.0 <= b.ivEnvironment <= 100.0
    && 0.0 <= b.historicalAccuracy <= 100.0
    && 0.0 <= b.competitiveMoat <= 100.0
    && 0.0 <= b.riskReward <= 100.0
  }

  const CatalystQualityKey := "catalyst_quality"
  const SentimentAlignmentKey := "sentiment_alignment"
  const MarketContextKey := "market_context"
  const IvEnvironmentKey := "iv_environment"
  const HistoricalAccuracyKey := "historical_accuracy"
  const CompetitiveMoatKey := "competitive_moat"
  const RiskRewardKey := "risk_reward"

  /** A weight mapping as a caller passes it: `None` or a dictionary from key to weight. */
  type Weights = Option<map<string, real>>

  const DefaultWeights: map<string, real> := map[
    CatalystQualityKey := 0.25,
    SentimentAlignmentKey := 0.15,
    MarketContextKey := 0.15,
    IvEnvironmentKey := 0.15,
    HistoricalAccuracyKey := 0.10,
    CompetitiveMoatKey := 0.10,
    RiskRewardKey := 0.10]

  /** `w.get(key, 0)`. */
  function WeightOf(w: map<string, real>, key: string): (r: real)
    ensures key !in w ==> r == 0.0
  {
    if key in w then w[key] else 0.0
  }

  /** `weights or default_weights`: `None` and the empty dictionary both fall back to the defaults. */
  function EffectiveWeights(weights: Weights): (w: map<string, real>)
    ensures weights.None? || weights.value == map[] ==> w == DefaultWeights
    ensures weights.Some? && weights.value != map[] ==> w == weights.value
  {
    if weights.None? || weights.value == map[] then DefaultWeights else weights.value
  }

  /** The weight dot product before clamping. */
  function RawTotal(b: ScoreBreakdown, w: map<string, real>): real {
    b.catalystQuality * WeightOf(w, CatalystQualityKey) +
    b.sentimentAlignment * WeightOf(w, SentimentAlignmentKey) +
    b.marketContext * WeightOf(w, MarketContextKey) +
    b.ivEnvironment * WeightOf(w, IvEnvironmentKey) +
    b.historicalAccuracy * WeightOf(w, HistoricalAccuracyKey) +
    b.competitiveMoat * WeightOf(w, CompetitiveMoatKey) +
    b.riskReward * WeightOf(w, RiskRewardKey)
  }

  /** `weighted_total(weights)`: the composite score, in [0, 100] for every weight mapping. */
  function WeightedTotal(b: ScoreBreakdown, weights: Weights): (r: real)
    ensures 0.0 <= r <= 100.0
  {
    Round2ScoreRange(Clamp100(RawTotal(b, EffectiveWeights(weights))));
    Round2(Clamp100(RawTotal(b, EffectiveWeights(weights))))
  }

  /** The default weights sum to 1. */
  lemma DefaultWeightsSumToOne()
    ensures WeightOf(DefaultWeights, CatalystQualityKey) + WeightOf(DefaultWeights, SentimentAlignmentKey)
          + WeightOf(DefaultWeights, MarketContextKey) + WeightOf(DefaultWeights, IvEnvironmentKey)
          + WeightOf(DefaultWeights, HistoricalAccuracyKey) + WeightOf(DefaultWeights, CompetitiveMoatKey)
          + WeightOf(DefaultWeights, RiskRewardKey) == 1.0
  {
  }

  /**
   * With the default weights and sub-scores in [0, 100], the dot product is
   * already in [0, 100], so the clamp changes nothing.
   */
  lemma DefaultTotalNeedsNoClamp(b: ScoreBreakdown)
    requires InScoreRange(b)
    ensures 0.0 <= RawTotal(b, DefaultWeights) <= 100.0
    ensures WeightedTotal(b, None) == Round2(RawTotal(b, DefaultWeights))
  {
    var w := DefaultWeights;
    assert WeightOf(w, CatalystQualityKey) == 0.25;
    assert WeightOf(w, SentimentAlignmentKey) == 0.15;
    assert WeightOf(w, MarketContextKey) == 0.15;
    assert WeightOf(w, IvEnvironmentKey) == 0.15;
    assert WeightOf(w, HistoricalAccuracyKey) == 0.10;
    assert WeightOf(w, CompetitiveMoatKey) == 0.10;
    assert WeightOf(w, RiskRewardKey) == 0.10;
    var total := RawTotal(b, w);
    assert total == b.catalystQuality * 0.25 + b.sentimentAlignment * 0.15 + b.marketContext * 0.15
                  + b.ivEnvironment * 0.15 + b.historicalAccuracy * 0.10 + b.competitiveMoat * 0.10
                  + b.riskReward * 0.10;
    assert 0.0 <= total <= 100.0;
    assert Clamp100(total) == total;
  }

  /** An empty mapping is falsy, so it scores exactly like no mapping. */
  lemma EmptyWeightsAreDefault(b: ScoreBreakdown)
    ensures WeightedTotal(b, Some(map[])) == WeightedTotal(b, None)
  {
  }

  /** The breakdown with the sub-score named `key` set to `v` (others unchanged; unknown keys change nothing). */
  function WithScore(b: ScoreBreakdown, key: string, v: real): ScoreBreakdown {
    if key == CatalystQualityKey then b.(catalystQuality := v)
    else if key == SentimentAlignmentKey then b.(sentimentAlignment := v)
    else if key == MarketContextKey then b.(marketContext := v)
    else if key == IvEnvironmentKey then b.(ivEnvironment := v)
    else if key == HistoricalAccuracyKey then b.(historicalAccuracy := v)
    else if key == CompetitiveMoatKey then b.(competitiveMoat := v)
    else if key == RiskRewardKey then b.(riskReward := v)
    else b
  }

  /** A key missing from a non-empty mapping weighs 0: its sub-score does not affect the composite. */
  lemma MissingKeyContributesNothing(b: ScoreBreakdown, w: map<string, real>, key: string, v: real)
    requires w != map[] && key !in w
    ensures WeightedTotal(WithScore(b, key, v), Some(w)) == WeightedTotal(b, Some(w))
  {
    assert WeightOf(w, key) == 0.0;
    var changed := WithScore(b, key, v);
    if key == CatalystQualityKey {
      assert changed == b.(catalystQuality := v);
    } else if key == SentimentAlignmentKey {
      assert changed == b.(sentimentAlignment := v);
    } else if key == MarketContextKey {
      assert changed == b.(marketContext := v);
    } else if key == IvEnvironmentKey {
      assert changed == b.(ivEnvironment := v);
    } else if key == HistoricalAccuracyKey {
      assert changed == b.(historicalAccuracy := v);
    } else if key == CompetitiveMoatKey {
      assert changed == b.(competitiveMoat := v);
    } else if key == RiskRewardKey {
      assert changed == b.(riskReward := v);
    } else {
      assert changed == b;
    }
    assert RawTotal(changed, w) == RawTotal(b, w);
    assert EffectiveWeights(Some(w)) == w;
  }

  /** A non-empty mapping that names none of the seven keys scores every breakdown 0. */
  lemma UnrelatedWeightsScoreZero(b: ScoreBreakdown)
    ensures WeightedTotal(b, Some(map["catalyst" := 1.0])) == 0.0
  {
    var w := map["catalyst" := 1.0];
    var empty: map<string, real> := map[];
    assert "catalyst" in w && "catalyst" !in empty;
    assert w.Keys == {"catalyst"};
    assert RawTotal(b, w) == 0.0;
    RoundWhole(0);
  }

  /** An `OptionsRating` object's state, field by field. */
  datatype RatingValue = RatingValue(
    eventId: string,
    ticker: string,
    ratingDate: Date,
    recommendedStrategy: OptionsStrategy,
    scoreBreakdown: ScoreBreakdown,
    compositeScore: real,
    grade: RatingGrade,
    confidencePct: real,
    targetExpiryDays: Option<int>,
    suggestedDelta: Option<real>,
    maxRiskPctPort: Option<real>,
    notes: string,
    analystFlags: seq<string>)

  /** Composite and grade are what the breakdown gives under `weights`. */
  predicate Derived(r: RatingValue, weights: Weights) {
    r.compositeScore == WeightedTotal(r.scoreBreakdown, weights) && r.grade == ScoreToGrade(r.compositeScore)
  }

  /** `refresh_score(weights)` on a value: re-derives composite and grade, nothing else changes. */
  function Refreshed(r: RatingValue, weights: Weights): (r': RatingValue)
    ensures Derived(r', weights)
    ensures r'.(compositeScore := r.compositeScore, grade := r.grade) == r
  {
    var score := WeightedTotal(r.scoreBreakdown, weights);
    r.(compositeScore := score, grade := ScoreToGrade(score))
  }

  /** Refreshing is idempotent, and leaves an already-derived rating as it is. */
  lemma RefreshedIdempotent(r: RatingValue, weights: Weights)
    ensures Refreshed(Refreshed(r, weights), weights) == Refreshed(r, weights)
    ensures Derived(r, weights) ==> Refreshed(r, weights) == r
  {
  }

  /**
   * The state an `OptionsRating(...)` call leaves: the given fields, with
   * `__post_init__` deriving composite and grade from the breakdown under the
   * default weights (whatever composite and grade were passed is overwritten,
   * so they are not parameters here).
   */
  function Construct(eventId: string, ticker: string, ratingDate: Date, strategy: OptionsStrategy,
                     breakdown: ScoreBreakdown, confidencePct: real, targetExpiryDays: Option<int>,
                     suggestedDelta: Option<real>, maxRiskPctPort: Option<real>, notes: string,
                     analystFlags: seq<string>): (r: RatingValue)
    ensures Derived(r, None)
    ensures r.eventId == eventId && r.ticker == ticker && r.ratingDate == ratingDate
    ensures r.recommendedStrategy == strategy && r.scoreBreakdown == breakdown
    ensures r.confidencePct == confidencePct && r.targetExpiryDays == targetExpiryDays
    ensures r.suggestedDelta == suggestedDelta && r.maxRiskPctPort == maxRiskPctPort
    ensures r.notes == notes && r.analystFlags == analystFlags
  {
    Refreshed(RatingValue(eventId, ticker, ratingDate, strategy, breakdown, 0.0, F, confidencePct,
                          targetExpiryDays, suggestedDelta, maxRiskPctPort, notes, analystFlags), None)
  }

  /** Full options trade rating for one event, linked to it by `eventId`. */
  class OptionsRating {
    var eventId: string
    var ticker: string
    var ratingDate: Date
    var recommendedStrategy: OptionsStrategy
    var scoreBreakdown: ScoreBreakdown
    // derived
    var compositeScore: real
    var grade: RatingGrade
    var confidencePct: real
    // trade parameters
    var targetExpiryDays: Option<int>
    var suggestedDelta: Option<real>
    var maxRiskPctPort: Option<real>
    var notes: string
    var analystFlags: seq<string>

    function Value(): RatingValue
      reads this
    {
      RatingValue(eventId, ticker, ratingDate, recommendedStrategy, scoreBreakdown, compositeScore,
                  grade, confidencePct, targetExpiryDays, suggestedDelta, maxRiskPctPort, notes,
                  analystFlags)
    }

    /** The dataclass constructor followed by `__post_init__`, as `Construct` gives it on values. */
    constructor (eventId: string, ticker: string, ratingDate: Date, strategy: OptionsStrategy,
                 breakdown: ScoreBreakdown, confidencePct: real, targetExpiryDays: Option<int>,
                 suggestedDelta: Option<real>, maxRiskPctPort: Option<real>, notes: string,
                 analystFlags: seq<string>)
      ensures Value() == Construct(eventId, ticker, ratingDate, strategy, breakdown, confidencePct,
                                   targetExpiryDays, suggestedDelta, maxRiskPctPort, notes, analystFlags)
      ensures Derived(Value(), None)
    {
      var v := Construct(eventId, ticker, ratingDate, strategy, breakdown, confidencePct,
                         targetExpiryDays, suggestedDelta, maxRiskPctPort, notes, analystFlags);
      this.eventId, this.ticker, this.ratingDate := v.eventId, v.ticker, v.ratingDate;
      this.recommendedStrategy, this.scoreBreakdown := v.recommendedStrategy, v.scoreBreakdown;
      this.compositeScore, this.grade, this.confidencePct := v.compositeScore, v.grade, v.confidencePct;
      this.targetExpiryDays, this.suggestedDelta := v.targetExpiryDays, v.suggestedDelta;
      this.maxRiskPctPort, this.notes, this.analystFlags := v.maxRiskPctPort, v.notes, v.analystFlags;
    }

    /** `refresh_score(weights)`: call after editing the breakdown. */
    method RefreshScore(weights: Weights)
      modifies this
      ensures Derived(Value(), weights)
      ensures Value() == Refreshed(old(Value()), weights)
    {
      compositeScore := WeightedTotal(scoreBreakdown, weights);
      grade := ScoreToGrade(compositeScore);
    }
  }

  /** The JSON-shaped record `to_dict()` produces. */
  datatype RatingDict = RatingDict(
    eventId: string,
    ticker: string,
    ratingDate: string,
    recommendedStrategy: string,
    compositeScore: real,
    grade: string,
    confidencePct: real,
    targetExpiryDays: Option<int>,
    suggestedDelta: Option<real>,
    maxRiskPctPort: Option<real>,
    scoreBreakdown: ScoreBreakdown,
    analystFlags: seq<string>,
    notes: string)

  /** `to_dict()`: the strategy and date codes decode back to the fields they came from. */
  function RatingToDict(r: RatingValue): (d: RatingDict)
    ensures StrategyFromCode(d.recommendedStrategy) == Some(r.recommendedStrategy)
    ensures ParseIso(d.ratingDate) == Some(r.ratingDate)
    ensures d.grade == GradeCode(r.grade) && d.compositeScore == r.compositeScore
  {
    ParseIsoFormat(r.ratingDate);
    RatingDict(r.eventId, r.ticker, IsoFormat(r.ratingDate), StrategyCode(r.recommendedStrategy),
               r.compositeScore, GradeCode(r.grade), r.confidencePct, r.targetExpiryDays,
               r.suggestedDelta, r.maxRiskPctPort, r.scoreBreakdown, r.analystFlags, r.notes)
  }
}
