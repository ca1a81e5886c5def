/** The catalyst event record: closed enumerations, the market snapshot and the event itself. */
module Event {
  import opened Wrappers
  import opened Numeric
  import opened Dates

  datatype EventType =
    | FdaPdufa          // FDA target action date
    | FdaAdcom          // advisory committee meeting
    | ClinicalReadout   // phase 2/3 trial data
    | Earnings
    | ConferencePres
    | Partnership
    | SecFiling
    | MacroRelease
    | CompetitorEvent
    | Other

  /** The three binary, high-implied-volatility catalysts. */
  predicate IsBinary(t: EventType) {
    t == FdaPdufa || t == FdaAdcom || t == ClinicalReadout
  }

  function EventTypeCode(t: EventType): string {
    match t
    case FdaPdufa => "fda_pdufa"
    case FdaAdcom => "fda_adcom"
    case ClinicalReadout => "clinical_readout"
    case Earnings => "earnings"
    case ConferencePres => "conference_pres"
    case Partnership => "partnership"
    case SecFiling => "sec_filing"
    case MacroRelease => "macro_release"
    case CompetitorEvent => "competitor_event"
    case Other => "other"
  }

  /** `EventType(code)`: `None` where Python raises `ValueError`. */
  function EventTypeFromCode(s: string): (r: Option<EventType>)
    ensures forall t :: EventTypeCode(t) == s ==> r == Some(t)
    ensures r.Some? ==> EventTypeCode(r.value) == s
  {
    if s == "fda_pdufa" then Some(FdaPdufa)
    else if s == "fda_adcom" then Some(FdaAdcom)
    else if s == "clinical_readout" then Some(ClinicalReadout)
    else if s == "earnings" then Some(Earnings)
    else if s == "conference_pres" then Some(ConferencePres)
    else if s == "partnership" then Some(Partnership)
    else if s == "sec_filing" then Some(SecFiling)
    else if s == "macro_release" then Some(MacroRelease)
    else if s == "competitor_event" then Some(CompetitorEvent)
    else if s == "other" then Some(Other)
    else None
  }

  datatype EventOutcome = Pending | Positive | Negative | Mixed | Withdrawn

  function OutcomeCode(o: EventOutcome): string {
    match o
    case Pending => "pending"
    case Positive => "positive"
    case Negative => "negative"
    case Mixed => "mixed"
    case Withdrawn => "withdrawn"
  }

  /** `EventOutcome(code)`: `None` where Python raises `ValueError`. */
  function OutcomeFromCode(s: string): (r: Option<EventOutcome>)
    ensures forall o :: OutcomeCode(o) == s ==> r == Some(o)
    ensures r.Some? ==> OutcomeCode(r.value) == s
  {
    if s == "pending" then Some(Pending)
    else if s == "positive" then Some(Positive)
    else if s == "negative" then Some(Negative)
    else if s == "mixed" then Some(Mixed)
    else if s == "withdrawn" then Some(Withdrawn)
    else None
  }

  /** Analyst / community sentiment on a five-point scale. */
  datatype SentimentTag = StrongBuy | Buy | Neutral | Sell | StrongSell

  function SentimentCode(s: SentimentTag): string {
    match s
    case StrongBuy => "strong_buy"
    case Buy => "buy"
    case Neutral => "neutral"
    case Sell => "sell"
    case StrongSell => "strong_sell"
  }

  /** `SentimentTag(code)`: `None` where Python raises `ValueError`. */
  function SentimentFromCode(s: string): (r: Option<SentimentTag>)
    ensures forall t :: SentimentCode(t) == s ==> r == Some(t)
    ensures r.Some? ==> SentimentCode(r.value) == s
  {
    if s == "strong_buy" then Some(StrongBuy)
    else if s == "buy" then Some(Buy)
    else if s == "neutral" then Some(Neutral)
    else if s == "sell" then Some(Sell)
    else if s == "strong_sell" then Some(StrongSell)
    else None
  }

  /** Bullishness of a sentiment tag: 0 for strong sell up to 4 for strong buy. */
  function SentimentRank(s: SentimentTag): (n: nat)
    ensures n <= 4
  {
    match s
    case StrongSell => 0
    case Sell => 1
    case Neutral => 2
    case Buy => 3
    case StrongBuy => 4
  }

  /** Snapshot of broad market conditions around the event date. */
  datatype MarketContext = MarketContext(
    spy5dReturn: Option<real>,   // SPY 5-day return before the event
    xbi5dReturn: Option<real>,   // XBI biotech ETF 5-day return
    vixLevel: Option<real>,      // VIX at the event date
    sectorTrend: Option<string>, // one of the five trend labels, or free text
    notes: Option<string>)

  /** One tracked catalyst or market release. */
  datatype BiotechEvent = BiotechEvent(
    ticker: string,
    companyName: string,
    eventType: EventType,
    eventDate: Date,
    description: string,
    // qualitative inputs
    sentiment: SentimentTag,
    analystNotes: string,
    pipelineStage: Option<string>,
    indication: Option<string>,
    primaryEndpoint: Option<string>,
    competingDrugs: seq<string>,
    marketContext: Option<MarketContext>,
    // post-event fill-in
    outcome: EventOutcome,
    actualMovePct: Option<real>,
    spyMovePct: Option<real>,
    xbiMovePct: Option<real>,
    ivCrushPct: Option<real>,
    outcomeNotes: string,
    // bookkeeping
    eventId: Option<string>,
    tags: seq<string>)

  /** `BiotechEvent(ticker, company_name, event_type, event_date, description)` with every default. */
  function NewEvent(ticker: string, companyName: string, eventType: EventType, eventDate: Date,
                    description: string): (e: BiotechEvent)
    ensures e.ticker == ticker && e.companyName == companyName && e.eventType == eventType
    ensures e.eventDate == eventDate && e.description == description
    ensures e.outcome == Pending && e.sentiment == Neutral && e.eventId.None?
    ensures e.actualMovePct.None? && e.spyMovePct.None? && e.xbiMovePct.None? && e.ivCrushPct.None?
    ensures e.competingDrugs == [] && e.tags == [] && e.marketContext.None?
    ensures e.analystNotes == "" && e.outcomeNotes == ""
    ensures e.pipelineStage.None? && e.indication.None? && e.primaryEndpoint.None?
  {
    BiotechEvent(ticker, companyName, eventType, eventDate, description,
                 Neutral, "", None, None, None, [], None,
                 Pending, None, None, None, None, "",
                 None, [])
  }

  /** Alpha against a benchmark: `round(actual - benchmark, 4)` when both moves are known. */
  function Alpha(actual: Option<real>, benchmark: Option<real>): (r: Option<real>)
    ensures r.Some? <==> actual.Some? && benchmark.Some?
    ensures r.Some? ==> -0.00005 <= r.value - (actual.value - benchmark.value) <= 0.00005
    ensures r.Some? && r.value > 0.0 ==> actual.value > benchmark.value
    ensures r.Some? && actual.value <= benchmark.value ==> r.value <= 0.0
  {
    if actual.Some? && benchmark.Some? then
      var d := actual.value - benchmark.value;
      Round4Error(d);
      Round4NonPositive(d);
      Some(Round4(d))
    else None
  }

  lemma Round4NonPositive(d: real)
    ensures d <= 0.0 ==> Round4(d) <= 0.0
  {
    if d <= 0.0 {
      Round4Monotone(d, 0.0);
      RoundWhole(0);
    }
  }

  /** `relative_move()`: stock move minus SPY move. */
  function RelativeMove(e: BiotechEvent): (r: Option<real>)
    ensures r.Some? <==> e.actualMovePct.Some? && e.spyMovePct.Some?
    ensures r.Some? ==> -0.00005 <= r.value - (e.actualMovePct.value - e.spyMovePct.value) <= 0.00005
  {
    Alpha(e.actualMovePct, e.spyMovePct)
  }

  /** `xbi_relative_move()`: stock move minus XBI move. */
  function XbiRelativeMove(e: BiotechEvent): (r: Option<real>)
    ensures r.Some? <==> e.actualMovePct.Some? && e.xbiMovePct.Some?
    ensures r.Some? ==> -0.00005 <= r.value - (e.actualMovePct.value - e.xbiMovePct.value) <= 0.00005
  {
    Alpha(e.actualMovePct, e.xbiMovePct)
  }

  /** The JSON-shaped record `to_dict()` produces: enums as their codes, the date in ISO form. */
  datatype EventDict = EventDict(
    eventId: Option<string>,
    ticker: string,
    companyName: string,
    eventType: string,
    eventDate: string,
    description: string,
    sentiment: string,
    analystNotes: string,
    pipelineStage: Option<string>,
    indication: Option<string>,
    primaryEndpoint: Option<string>,
    competingDrugs: seq<string>,
    outcome: string,
    actualMovePct: Option<real>,
    spyMovePct: Option<real>,
    xbiMovePct: Option<real>,
    ivCrushPct: Option<real>,
    relativeMove: Option<real>,
    xbiRelativeMove: Option<real>,
    outcomeNotes: string,
    tags: seq<string>)

  /** `to_dict()`: enums as codes, the date as ISO text, the relative moves as the methods give them. */
  function ToDict(e: BiotechEvent): (d: EventDict)
    ensures d.relativeMove == RelativeMove(e) && d.xbiRelativeMove == XbiRelativeMove(e)
  {
    EventDict(e.eventId, e.ticker, e.companyName, EventTypeCode(e.eventType), IsoFormat(e.eventDate),
              e.description, SentimentCode(e.sentiment), e.analystNotes, e.pipelineStage,
              e.indication, e.primaryEndpoint, e.competingDrugs, OutcomeCode(e.outcome),
              e.actualMovePct, e.spyMovePct, e.xbiMovePct, e.ivCrushPct,
              RelativeMove(e), XbiRelativeMove(e), e.outcomeNotes, e.tags)
  }

  /** Every code in `to_dict()` decodes back to the field it came from, and so does the date. */
  lemma ToDictDecodes(e: BiotechEvent)
    ensures EventTypeFromCode(ToDict(e).eventType) == Some(e.eventType)
    ensures SentimentFromCode(ToDict(e).sentiment) == Some(e.sentiment)
    ensures OutcomeFromCode(ToDict(e).outcome) == Some(e.outcome)
    ensures ParseIso(ToDict(e).eventDate) == Some(e.eventDate)
  {
    ParseIsoFormat(e.eventDate);
  }
}
