/** The pure parts of the market-data collector: the sector-trend label and the macro-release names. */
module MarketData {
  import opened Wrappers
  import opened Text

  const StrongRiskOn := "strong_risk_on"
  const RiskOn := "risk_on"
  const NeutralTrend := "neutral"
  const RiskOff := "risk_off"
  const StrongRiskOff := "strong_risk_off"

  /** Position of a sector-trend label on the risk-off .. risk-on scale (0 .. 4); other text counts as neutral. */
  function TrendRank(trend: string): (n: nat)
    ensures n <= 4
  {
    if trend == StrongRiskOff then 0
    else if trend == RiskOff then 1
    else if trend == RiskOn then 3
    else if trend == StrongRiskOn then 4
    else 2
  }

  /** The accumulator `bullish_score`, which `classify_sector_trend` adds up from the SPY, XBI and VIX readings. */
  function BullishScore(spy: real, xbi: Option<real>, vix: Option<real>): (score: int)
    ensures -4 <= score <= 4
  {
    var score := 0;
    var score := if spy > 1.5 then score + 2
                 else if spy > 0.0 then score + 1
                 else if spy < -1.5 then score - 2
                 else if spy < 0.0 then score - 1
                 else score;
    var score := if xbi.None? then score
                 else if xbi.value > 2.0 then score + 1
                 else if xbi.value < -2.0 then score - 1
                 else score;
    var score := if vix.None? then score
                 else if vix.value < 15.0 then score + 1
                 else if vix.value > 25.0 then score - 1
                 else if vix.value > 35.0 then score - 2  // never taken: 25 is tested first
                 else score;
    score
  }

  /** The trend thresholds: >= 3, >= 1, <= -3, <= -1, otherwise neutral. */
  function TrendLabel(score: int): (trend: string)
    ensures TrendRank(trend) == if score >= 3 then 4 else if score >= 1 then 3
                                else if score <= -3 then 0 else if score <= -1 then 1 else 2
  {
    if score >= 3 then StrongRiskOn
    else if score >= 1 then RiskOn
    else if score <= -3 then StrongRiskOff
    else if score <= -1 then RiskOff
    else NeutralTrend
  }

  /** `classify_sector_trend`: one of the five labels; "neutral" whenever the SPY return is unknown. */
  function ClassifySectorTrend(spy: Option<real>, xbi: Option<real>, vix: Option<real>): (trend: string)
    ensures trend in {StrongRiskOn, RiskOn, NeutralTrend, RiskOff, StrongRiskOff}
    ensures spy.None? ==> trend == NeutralTrend
  {
    if spy.None? then NeutralTrend else TrendLabel(BullishScore(spy.value, xbi, vix))
  }

  /** VIX moves the score by one step at most: a VIX above 35 counts exactly like one above 25. */
  lemma VixAbove35CountsAsAbove25(spy: real, xbi: Option<real>, v: real)
    requires v > 35.0
    ensures BullishScore(spy, xbi, Some(v)) == BullishScore(spy, xbi, Some(30.0))
    ensures BullishScore(spy, xbi, Some(v)) == BullishScore(spy, xbi, None) - 1
  {
  }

  /** A higher score never gives a label further toward risk-off. */
  lemma TrendLabelMonotone(b1: int, b2: int)
    requires b1 <= b2
    ensures TrendRank(TrendLabel(b1)) <= TrendRank(TrendLabel(b2))
  {
  }

  /** The trend never moves toward risk-off as the SPY return rises. */
  lemma TrendMonotoneInSpy(s1: real, s2: real, xbi: Option<real>, vix: Option<real>)
    requires s1 <= s2
    ensures TrendRank(ClassifySectorTrend(Some(s1), xbi, vix)) <= TrendRank(ClassifySectorTrend(Some(s2), xbi, vix))
  {
    assert BullishScore(s1, xbi, vix) <= BullishScore(s2, xbi, vix);
    TrendLabelMonotone(BullishScore(s1, xbi, vix), BullishScore(s2, xbi, vix));
  }

  /** The trend never moves toward risk-off as the XBI return rises. */
  lemma TrendMonotoneInXbi(spy: Option<real>, x1: real, x2: real, vix: Option<real>)
    requires x1 <= x2
    ensures TrendRank(ClassifySectorTrend(spy, Some(x1), vix)) <= TrendRank(ClassifySectorTrend(spy, Some(x2), vix))
  {
    if spy.Some? {
      assert BullishScore(spy.value, Some(x1), vix) <= BullishScore(spy.value, Some(x2), vix);
      TrendLabelMonotone(BullishScore(spy.value, Some(x1), vix), BullishScore(spy.value, Some(x2), vix));
    }
  }

  /** The trend never moves toward risk-on as VIX rises. */
  lemma TrendAntitoneInVix(spy: Option<real>, xbi: Option<real>, v1: real, v2: real)
    requires v1 <= v2
    ensures TrendRank(ClassifySectorTrend(spy, xbi, Some(v2))) <= TrendRank(ClassifySectorTrend(spy, xbi, Some(v1)))
  {
    if spy.Some? {
      assert BullishScore(spy.value, xbi, Some(v2)) <= BullishScore(spy.value, xbi, Some(v1));
      TrendLabelMonotone(BullishScore(spy.value, xbi, Some(v2)), BullishScore(spy.value, xbi, Some(v1)));
    }
  }

  /** `MACRO_EVENTS`: the static macro-release calendar. */
  const MacroEvents: map<string, string> := map[
    "FOMC" := "Federal Open Market Committee rate decision",
    "CPI" := "Consumer Price Index inflation print",
    "NFP" := "Non-Farm Payrolls jobs report",
    "PPI" := "Producer Price Index",
    "GDP" := "Gross Domestic Product estimate",
    "PCE" := "Personal Consumption Expenditures price index",
    "JOLTS" := "Job Openings and Labor Turnover Survey",
    "PMI" := "Purchasing Managers Index (ISM)",
    "RETAIL" := "Retail Sales report"]

  /** `describe_macro_event`: case-insensitive lookup, else a message naming the code as given. */
  function DescribeMacroEvent(code: string): (text: string)
    ensures Upper(code) in MacroEvents ==> text == MacroEvents[Upper(code)]
    ensures Upper(code) !in MacroEvents ==> text == "Unknown macro release: " + code
  {
    var key := Upper(code);
    if key in MacroEvents then MacroEvents[key] else "Unknown macro release: " + code
  }

  /** The lookup ignores letter case. */
  lemma DescribeMacroEventIgnoresCase(code: string)
    requires Upper(code) in MacroEvents
    ensures DescribeMacroEvent(code) == DescribeMacroEvent(Upper(code))
  {
    UpperIdempotent(code);
  }
}
