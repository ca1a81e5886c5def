/**
 * The scoring engine: five of the seven sub-scores, the strategy decision
 * table, the trade parameters and `score_event`, which assembles a rating.
 */
module Scorer {
  import opened Wrappers
  import opened Numeric
  import opened Dates
  import opened Event
  import opened Rating
  import opened CatalystTracker
  import opened MarketData

  /** `_iv_environment_score`: by IV-rank band when a rank is given, else by event type. */
  function IvEnvironmentScore(e: BiotechEvent, ivRank: Option<real>): (score: real)
    ensures ivRank.Some? ==> (score == 80.0 <==> 40.0 <= ivRank.value <= 70.0)
    ensures ivRank.Some? ==> (score == 65.0 <==> 20.0 <= ivRank.value < 40.0)
    ensures ivRank.Some? ==> (score == 55.0 <==> ivRank.value > 70.0)
    ensures ivRank.Some? ==> (score == 40.0 <==> ivRank.value < 20.0)
    ensures ivRank.None? ==> score == if IsBinary(e.eventType) then 62.0
                                      else if e.eventType == Earnings then 68.0
                                      else if e.eventType == MacroRelease then 55.0
                                      else 60.0
  {
    if ivRank.Some? then
      var rank := ivRank.value;
      if 40.0 <= rank <= 70.0 then 80.0
      else if 20.0 <= rank < 40.0 then 65.0
      else if rank > 70.0 then 55.0
      else 40.0
    else if IsBinary(e.eventType) then 62.0
    else if e.eventType == Earnings then 68.0
    else if e.eventType == MacroRelease then 55.0
    else 60.0
  }

  /** `trend_scores.get(sector_trend or "neutral", 50)`. */
  function TrendBase(trend: Option<string>): (base: int)
    ensures 15 <= base <= 85
    ensures trend.None? ==> base == 50
  {
    var key := if trend.None? || trend.value == "" then NeutralTrend else trend.value;
    if key == StrongRiskOn then 85
    else if key == RiskOn then 70
    else if key == NeutralTrend then 50
    else if key == RiskOff then 30
    else if key == StrongRiskOff then 15
    else 50
  }

  /** A label further toward risk-on never gets a lower base. */
  lemma TrendBaseFollowsRank(t1: string, t2: string)
    requires TrendRank(t1) <= TrendRank(t2)
    ensures TrendBase(Some(t1)) <= TrendBase(Some(t2))
  {
  }

  /**
   * `_market_context_score`: 50 with no context; otherwise the trend base,
   * moved by 10 toward the XBI 5-day return's sign for binary types only.
   */
  function MarketContextScore(e: BiotechEvent): (score: real)
    ensures 0.0 <= score <= 100.0
    ensures e.marketContext.None? ==> score == 50.0
    ensures e.marketContext.Some? && (!IsBinary(e.eventType) || e.marketContext.value.xbi5dReturn.None?)
            ==> score == TrendBase(e.marketContext.value.sectorTrend) as real
    ensures e.marketContext.Some? && IsBinary(e.eventType) && e.marketContext.value.xbi5dReturn.Some? ==>
              var base := TrendBase(e.marketContext.value.sectorTrend) as real;
              var xbi := e.marketContext.value.xbi5dReturn.value;
              score == if xbi > 3.0 then base + 10.0 else if xbi < -3.0 then base - 10.0 else base
  {
    if e.marketContext.None? then 50.0
    else
      var ctx := e.marketContext.value;
      var base := TrendBase(ctx.sectorTrend);
      var base := if IsBinary(e.eventType) && ctx.xbi5dReturn.Some? then
                    (if ctx.xbi5dReturn.value > 3.0 then if base + 10 < 100 then base + 10 else 100
                     else if ctx.xbi5dReturn.value < -3.0 then if base - 10 > 0 then base - 10 else 0
                     else base)
                  else base;
      base as real
  }

  /** `_sentiment_alignment_score`: 90 / 72 / 50 / 28 / 10 from strong buy to strong sell. */
  function SentimentAlignmentScore(e: BiotechEvent): (score: real)
    ensures 10.0 <= score <= 90.0
  {
    match e.sentiment
    case StrongBuy => 90.0
    case Buy => 72.0
    case Neutral => 50.0
    case Sell => 28.0
    case StrongSell => 10.0
  }

  /** Alignment strictly increases with bullishness. */
  lemma SentimentAlignmentIncreasing(e: BiotechEvent, s: SentimentTag)
    requires SentimentRank(e.sentiment) < SentimentRank(s)
    ensures SentimentAlignmentScore(e) < SentimentAlignmentScore(e.(sentiment := s))
  {
  }

  /** A past event that informs the accuracy score: same ticker, same type, resolved. */
  predicate SameKind(e: BiotechEvent, past: BiotechEvent) {
    past.ticker == e.ticker && past.eventType == e.eventType && past.outcome != Pending
  }

  predicate Favourable(o: EventOutcome) {
    o == Positive || o == Mixed
  }

  function CountSameKind(e: BiotechEvent, past: seq<BiotechEvent>): (n: nat)
    ensures n <= |past|
  {
    if past == [] then 0
    else CountSameKind(e, past[..|past| - 1]) + (if SameKind(e, past[|past| - 1]) then 1 else 0)
  }

  /** Same-kind past events with a positive or mixed outcome; never more than the same-kind ones. */
  function CountFavourable(e: BiotechEvent, past: seq<BiotechEvent>): (n: nat)
    ensures n <= CountSameKind(e, past)
  {
    if past == [] then 0
    else
      var last := past[|past| - 1];
      CountFavourable(e, past[..|past| - 1]) + (if SameKind(e, last) && Favourable(last.outcome) then 1 else 0)
  }

  /**
   * `_historical_accuracy_score`: 50 without history or without a same-kind
   * resolved event; otherwise the percentage of those that were positive or mixed.
   */
  function HistoricalAccuracyScore(e: BiotechEvent, past: Option<seq<BiotechEvent>>): (score: real)
    ensures 0.0 <= score <= 100.0
    ensures past.None? || past.value == [] || CountSameKind(e, past.value) == 0 ==> score == 50.0
    ensures past.Some? && CountSameKind(e, past.value) > 0 ==>
      score == Round2(Percent(CountFavourable(e, past.value), CountSameKind(e, past.value)))
  {
    if past.None? || past.value == [] then 50.0
    else
      var matches := CountSameKind(e, past.value);
      if matches == 0 then 50.0
      else
        var rate := Percent(CountFavourable(e, past.value), matches);
        Round2ScoreRange(rate);
        Round2(rate)
  }

  /** A past event of another ticker or type, or still pending, does not change the score. */
  lemma {:induction false} UnrelatedHistoryIgnored(e: BiotechEvent, past: seq<BiotechEvent>, other: BiotechEvent)
    requires !SameKind(e, other)
    ensures HistoricalAccuracyScore(e, Some(past + [other])) == HistoricalAccuracyScore(e, Some(past))
  {
    var extended := past + [other];
    assert extended != [];
    assert extended[..|extended| - 1] == past;
    assert CountSameKind(e, extended) == CountSameKind(e, past);
    assert CountFavourable(e, extended) == CountFavourable(e, past);
  }

  /** When every same-kind resolved event was positive or mixed, the score is 100. */
  lemma HistoryAllFavourable(e: BiotechEvent, past: seq<BiotechEvent>)
    requires CountSameKind(e, past) > 0 && CountFavourable(e, past) == CountSameKind(e, past)
    ensures HistoricalAccuracyScore(e, Some(past)) == 100.0
  {
    RoundWhole(100);
  }

  /** When none of the same-kind resolved events was positive or mixed, the score is 0. */
  lemma HistoryNoneFavourable(e: BiotechEvent, past: seq<BiotechEvent>)
    requires CountSameKind(e, past) > 0 && CountFavourable(e, past) == 0
    ensures HistoricalAccuracyScore(e, Some(past)) == 0.0
  {
    RoundWhole(0);
  }

  /** `_risk_reward_score`: expected-move proxy per type; the binary types rank highest. */
  function RiskRewardScore(e: BiotechEvent): (score: real)
    ensures 15.0 <= score <= 85.0
    ensures IsBinary(e.eventType) <==> score >= 70.0
  {
    match e.eventType
    case FdaPdufa => 85.0
    case FdaAdcom => 75.0
    case ClinicalReadout => 70.0
    case Partnership => 50.0
    case Earnings => 45.0
    case CompetitorEvent => 35.0
    case MacroRelease => 30.0
    case ConferencePres => 25.0
    case SecFiling => 15.0
    case Other => 20.0
  }

  /**
   * `recommend_strategy`: the decision table keyed by type and sentiment
   * alignment. A bearish spread needs alignment <= 30; a bullish one needs
   * >= 70, except for partnerships, which get a bull call spread below 65.
   */
  function RecommendStrategy(e: BiotechEvent, sentimentScore: real): (s: OptionsStrategy)
    ensures s in {BullCallSpread, BearPutSpread, LongStraddle, IronCondor, CalendarSpread, LongCall}
    ensures s == BearPutSpread ==> sentimentScore <= 30.0 && (IsBinary(e.eventType) || e.eventType == Earnings)
    ensures s == BullCallSpread ==> sentimentScore >= 70.0 || e.eventType == Partnership
    ensures s == LongCall <==> e.eventType == Partnership && sentimentScore >= 65.0
    ensures s == CalendarSpread <==> e.eventType == MacroRelease
    ensures s == IronCondor <==> e.eventType == Earnings && 30.0 < sentimentScore < 70.0
    ensures (IsBinary(e.eventType) || e.eventType == Earnings) && sentimentScore >= 70.0 ==> s == BullCallSpread
    ensures (IsBinary(e.eventType) || e.eventType == Earnings) && sentimentScore <= 30.0 ==> s == BearPutSpread
    ensures IsBinary(e.eventType) && 30.0 < sentimentScore < 70.0 ==> s == LongStraddle
    ensures e.eventType == Partnership && sentimentScore < 65.0 ==> s == BullCallSpread
    ensures e.eventType in {CompetitorEvent, ConferencePres, SecFiling, Other} ==> s == LongStraddle
  {
    if IsBinary(e.eventType) then
      if sentimentScore >= 70.0 then BullCallSpread
      else if sentimentScore <= 30.0 then BearPutSpread
      else LongStraddle
    else if e.eventType == Earnings then
      if sentimentScore >= 70.0 then BullCallSpread
      else if sentimentScore <= 30.0 then BearPutSpread
      else IronCondor
    else if e.eventType == MacroRelease then CalendarSpread
    else if e.eventType == Partnership then
      if sentimentScore >= 65.0 then LongCall else BullCallSpread
    else LongStraddle
  }

  /** Binary catalysts and earnings differ only in the neutral band: straddle against iron condor. */
  lemma EarningsDiffersOnlyWhenNeutral(e: BiotechEvent, t: EventType, score: real)
    requires IsBinary(e.eventType) && t == Earnings
    ensures RecommendStrategy(e, score) != RecommendStrategy(e.(eventType := t), score)
        <==> 30.0 < score < 70.0
  {
  }

  /** The signed delta heuristic of a strategy. */
  function StrategyDelta(s: OptionsStrategy): (delta: real)
    ensures delta < 0.0 <==> s == BearPutSpread || s == LongPut
  {
    if s == LongStraddle || s == LongStrangle || s == IronCondor then 0.35
    else if s == BullCallSpread || s == LongCall then 0.45
    else if s == BearPutSpread || s == LongPut then -0.45
    else 0.40
  }

  /** `abs(delta)`: the suggested delta is a magnitude, one of 0.35, 0.40, 0.45. */
  function SuggestedDelta(s: OptionsStrategy): (delta: real)
    ensures delta in {0.35, 0.40, 0.45}
    ensures delta == 0.45 <==> s in {BullCallSpread, LongCall, BearPutSpread, LongPut}
  {
    var d := StrategyDelta(s);
    if d < 0.0 then -d else d
  }

  /** `grade_risk`: maximum share of the portfolio to risk, 3.0 % for A+ down to 0 for F. */
  function GradeRisk(g: RatingGrade): (pct: real)
    ensures 0.0 <= pct <= 3.0
    ensures pct == 0.5 * GradeRank(g) as real
  {
    match g
    case APlus => 3.0
    case A => 2.5
    case BPlus => 2.0
    case B => 1.5
    case C => 1.0
    case D => 0.5
    case F => 0.0
  }

  /** A better grade never allows less risk. */
  lemma GradeRiskMonotone(g1: RatingGrade, g2: RatingGrade)
    requires GradeRank(g1) <= GradeRank(g2)
    ensures GradeRisk(g1) <= GradeRisk(g2)
  {
  }

  /** Days to expiry at entry: 35 for the binary types, 21 otherwise. */
  function TargetExpiryDays(t: EventType): (days: int)
    ensures days == 35 || days == 21
    ensures days == 35 <==> IsBinary(t)
  {
    if IsBinary(t) then 35 else 21
  }

  /** The rating's notes line: type code, stage (or "N/A") and sentiment code. */
  function ScoreNotes(e: BiotechEvent): string {
    var stage := if Truthy(e.pipelineStage) then e.pipelineStage.value else "N/A";
    "Auto-scored: " + EventTypeCode(e.eventType) + " | " + stage + " | sentiment=" + SentimentCode(e.sentiment)
  }

  /** The seven sub-scores of an event; each lies in [0, 100]. */
  function Breakdown(e: BiotechEvent, ivRank: Option<real>, past: Option<seq<BiotechEvent>>): (b: ScoreBreakdown)
    ensures InScoreRange(b)
  {
    ScoreBreakdown(
      CatalystQualityScore(e),
      SentimentAlignmentScore(e),
      MarketContextScore(e),
      IvEnvironmentScore(e, ivRank),
      HistoricalAccuracyScore(e, past),
      CompetitiveMoatScore(e),
      RiskRewardScore(e))
  }

  /** The only error `score_event` raises: the event has no id. */
  datatype ScoreError = MissingEventId

  /**
   * The confidence `score_event` computes without an override: the mean of
   * catalyst quality and historical accuracy rounded to two places, so within
   * half a hundredth of that mean and in [0, 100].
   */
  function AutoConfidence(b: ScoreBreakdown): (c: real)
    requires InScoreRange(b)
    ensures 0.0 <= c <= 100.0
    ensures -0.005 <= c - (b.catalystQuality + b.historicalAccuracy) / 2.0 <= 0.005
  {
    var average := (b.catalystQuality + b.historicalAccuracy) / 2.0;
    Round2ScoreRange(average);
    Round2Error(average);
    Round2(average)
  }

  /**
   * The second half of `score_event`: the rating built from an event's
   * breakdown. Strategy, expiry, delta and notes follow the heuristics; the
   * risk cap comes from the grade under the custom weights, while composite
   * and grade are re-derived under the default weights on construction.
   */
  function RateBreakdown(e: BiotechEvent, eventId: string, b: ScoreBreakdown, customWeights: Weights,
                         confidenceOverride: Option<real>, today: Date): (rating: RatingValue)
    requires InScoreRange(b)
    ensures rating.eventId == eventId && rating.ticker == e.ticker && rating.ratingDate == today
    ensures rating.scoreBreakdown == b && Derived(rating, None)
    ensures rating.recommendedStrategy == RecommendStrategy(e, b.sentimentAlignment)
    ensures rating.targetExpiryDays == Some(TargetExpiryDays(e.eventType))
    ensures rating.suggestedDelta == Some(SuggestedDelta(rating.recommendedStrategy))
    ensures rating.suggestedDelta.value in {0.35, 0.40, 0.45}
    ensures rating.maxRiskPctPort == Some(GradeRisk(ScoreToGrade(WeightedTotal(b, customWeights))))
    ensures confidenceOverride.Some? ==> rating.confidencePct == confidenceOverride.value
    ensures confidenceOverride.None? ==> rating.confidencePct == AutoConfidence(b)
    ensures rating.notes == ScoreNotes(e) && rating.analystFlags == []
  {
    var composite := WeightedTotal(b, customWeights);
    var grade := ScoreToGrade(composite);
    var strategy := RecommendStrategy(e, b.sentimentAlignment);
    var confidence := if confidenceOverride.Some? then confidenceOverride.value else AutoConfidence(b);
    Construct(eventId, e.ticker, today, strategy, b, confidence,
              Some(TargetExpiryDays(e.eventType)), Some(SuggestedDelta(strategy)),
              Some(GradeRisk(grade)), ScoreNotes(e), [])
  }

  /**
   * `score_event`, with `today` for `date.today()`: fails exactly when the
   * event has no id, and otherwise rates the event's own breakdown.
   */
  function ScoreEvent(e: BiotechEvent, ivRank: Option<real>, past: Option<seq<BiotechEvent>>,
                      customWeights: Weights, confidenceOverride: Option<real>,
                      today: Date): (r: Result<RatingValue, ScoreError>)
    ensures r.Failure? <==> e.eventId.None?
    ensures r.Success? ==>
      var rating := r.value;
      && rating.eventId == e.eventId.value && rating.ticker == e.ticker && rating.ratingDate == today
      && rating.scoreBreakdown == Breakdown(e, ivRank, past)
      && InScoreRange(rating.scoreBreakdown)
      && Derived(rating, None)
      && rating.recommendedStrategy == RecommendStrategy(e, rating.scoreBreakdown.sentimentAlignment)
      && rating.targetExpiryDays == Some(TargetExpiryDays(e.eventType))
      && rating.suggestedDelta == Some(SuggestedDelta(rating.recommendedStrategy))
      && rating.maxRiskPctPort == Some(GradeRisk(ScoreToGrade(WeightedTotal(rating.scoreBreakdown, customWeights))))
      && (confidenceOverride.Some? ==> rating.confidencePct == confidenceOverride.value)
      && (confidenceOverride.None? ==> rating.confidencePct == AutoConfidence(rating.scoreBreakdown))
      && rating.notes == ScoreNotes(e)
  {
    if e.eventId.None? then Failure(MissingEventId)
    else Success(RateBreakdown(e, e.eventId.value, Breakdown(e, ivRank, past), customWeights, confidenceOverride, today))
  }

  /** With the default weights the risk cap matches the rating's own grade. */
  lemma DefaultWeightsRiskMatchesGrade(e: BiotechEvent, ivRank: Option<real>, past: Option<seq<BiotechEvent>>,
                                       confidenceOverride: Option<real>, today: Date)
    requires e.eventId.Some?
    ensures var r := ScoreEvent(e, ivRank, past, None, confidenceOverride, today);
      r.Success? && r.value.maxRiskPctPort == Some(GradeRisk(r.value.grade))
  {
  }

  /**
   * A non-empty weight mapping that names none of the seven keys makes the
   * custom composite 0, so the risk cap is F's 0 % whatever grade the rating shows.
   */
  lemma UnrelatedWeightsCapRiskAtZero(e: BiotechEvent, ivRank: Option<real>, past: Option<seq<BiotechEvent>>,
                                      confidenceOverride: Option<real>, today: Date)
    requires e.eventId.Some?
    ensures var r := ScoreEvent(e, ivRank, past, Some(map["catalyst" := 1.0]), confidenceOverride, today);
      r.Success? && r.value.maxRiskPctPort == Some(0.0)
  {
    UnrelatedWeightsScoreZero(Breakdown(e, ivRank, past));
  }

  /** The regulatory-decision example: FDA target date at the "PDUFA date" stage, strong buy, no rivals, IV rank 55. */
  predicate PdufaExample(e: BiotechEvent) {
    && e.eventType == FdaPdufa && e.pipelineStage == Some("PDUFA date") && e.sentiment == StrongBuy
    && e.primaryEndpoint.None? && e.competingDrugs == [] && e.eventId.Some?
  }

  /**
   * With no market context and no history the example scores 79.56 (grade B+),
   * not A or better, and the strategy is a bull call spread.
   */
  lemma PdufaExampleWithoutContext(e: BiotechEvent, today: Date)
    requires PdufaExample(e) && e.marketContext.None?
    ensures var r := ScoreEvent(e, Some(55.0), None, None, None, today);
      && r.Success? && r.value.compositeScore == 79.56 && r.value.grade == BPlus
      && r.value.recommendedStrategy == BullCallSpread
  {
    PdufaStrongBuyQuality(e);
    var b := Breakdown(e, Some(55.0), None);
    assert b == ScoreBreakdown(98.25, 90.0, 50.0, 80.0, 50.0, 85.0, 85.0);
    assert RawTotal(b, DefaultWeights) == 79.5625;
    assert RoundHalfEven(79.5625 * 100.0) == 7956;
  }

  /**
   * With custom weights the rating's grade and its risk cap can disagree:
   * the example is graded B+ yet capped at 0 %.
   */
  lemma CustomWeightsGradeRiskMismatch(e: BiotechEvent, today: Date)
    requires PdufaExample(e) && e.marketContext.None?
    ensures var r := ScoreEvent(e, Some(55.0), None, Some(map["catalyst" := 1.0]), None, today);
      && r.Success? && r.value.grade == BPlus && r.value.maxRiskPctPort == Some(0.0)
      && r.value.maxRiskPctPort != Some(GradeRisk(r.value.grade))
  {
    PdufaExampleWithoutContext(e, today);
    UnrelatedWeightsCapRiskAtZero(e, Some(55.0), None, None, today);
  }

  /** A neutral earnings event without an IV rank: IV score 68 and an iron condor. */
  lemma NeutralEarningsExample(e: BiotechEvent)
    requires e.eventType == Earnings && e.sentiment == Neutral
    ensures IvEnvironmentScore(e, None) == 68.0
    ensures RecommendStrategy(e, SentimentAlignmentScore(e)) == IronCondor
  {
  }
}
