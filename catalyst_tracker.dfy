/**
 * The catalyst tracker: creating and resolving events, the catalyst-quality
 * and competitive-moat sub-scores, and the upcoming-events filter.
 */
module CatalystTracker {
  import opened Wrappers
  import opened Numeric
  import opened Text
  import opened Dates
  import opened Event

  /** `CATALYST_PRIORITY`: how binary / high-impact each kind of catalyst is. */
  function CatalystPriority(t: EventType): (p: int)
    ensures 20 <= p <= 95
    ensures IsBinary(t) <==> p >= 80
  {
    match t
    case FdaPdufa => 95
    case FdaAdcom => 85
    case ClinicalReadout => 80
    case Partnership => 55
    case Earnings => 50
    case ConferencePres => 30
    case CompetitorEvent => 40
    case SecFiling => 20
    case MacroRelease => 35
    case Other => 25
  }

  /** `PIPELINE_STAGE_WEIGHT`: strength multiplier per development stage. */
  const PipelineStageWeight: map<string, real> := map[
    "Phase 1" := 0.45,
    "Phase 1/2" := 0.50,
    "Phase 2" := 0.65,
    "Phase 2/3" := 0.75,
    "Phase 3" := 0.90,
    "NDA filed" := 0.92,
    "BLA filed" := 0.92,
    "PDUFA date" := 0.95,
    "Approved" := 1.00,
    "Marketed" := 1.00,
    "Preclinical" := 0.30]

  /** Multiplier for an unrecognised stage label. */
  const UnknownStageWeight := 0.70

  /** Python truthiness of an optional string: present and non-empty. */
  predicate Truthy(s: Option<string>) {
    s.Some? && s.value != ""
  }

  /**
   * The pipeline-stage multiplier: only for the three binary types with a
   * stage given; an unrecognised stage weighs 0.70; otherwise 1.0.
   */
  function StageMultiplier(e: BiotechEvent): (m: real)
    ensures 0.30 <= m <= 1.0
    ensures !(Truthy(e.pipelineStage) && IsBinary(e.eventType)) ==> m == 1.0
    ensures Truthy(e.pipelineStage) && IsBinary(e.eventType) && e.pipelineStage.value !in PipelineStageWeight
            ==> m == UnknownStageWeight
  {
    if Truthy(e.pipelineStage) && IsBinary(e.eventType) then
      var stage := e.pipelineStage.value;
      if stage in PipelineStageWeight then PipelineStageWeight[stage] else UnknownStageWeight
    else 1.0
  }

  /** A well-defined primary endpoint: a description longer than 10 characters. */
  predicate HasClearEndpoint(e: BiotechEvent) {
    e.primaryEndpoint.Some? && |e.primaryEndpoint.value| > 10
  }

  /** The sentiment adjustment: +8, +4, 0, -4, -8 from strong buy to strong sell. */
  function SentimentAdjustment(s: SentimentTag): (adj: int)
    ensures adj == 4 * (SentimentRank(s) - 2)
  {
    match s
    case StrongBuy => 8
    case Buy => 4
    case Neutral => 0
    case Sell => -4
    case StrongSell => -8
  }

  /** The uncapped value before the sentiment adjustment: type priority times stage multiplier. */
  function StagedPriority(e: BiotechEvent): (raw: real)
    ensures 0.0 <= raw <= 95.0
  {
    CatalystPriority(e.eventType) as real * StageMultiplier(e)
  }

  /** Raw score after the endpoint bonus (`min(raw + 5, 100)`), before the sentiment adjustment. */
  function WithEndpointBonus(e: BiotechEvent): (raw: real)
    ensures raw >= StagedPriority(e)
    ensures HasClearEndpoint(e) ==> raw == StagedPriority(e) + 5.0
    ensures !HasClearEndpoint(e) ==> raw == StagedPriority(e)
  {
    var raw := StagedPriority(e);
    if HasClearEndpoint(e) then Min(raw + 5.0, 100.0) else raw
  }

  /** `catalyst_quality_score`: always in [0, 100]. */
  function CatalystQualityScore(e: BiotechEvent): (score: real)
    ensures 0.0 <= score <= 100.0
  {
    var raw := WithEndpointBonus(e) + SentimentAdjustment(e.sentiment) as real;
    Round2ScoreRange(Clamp100(raw));
    Round2(Clamp100(raw))
  }

  /** Events that agree on type, stage and endpoint get the same raw score before the sentiment adjustment. */
  lemma SameBonusInputs(e1: BiotechEvent, e2: BiotechEvent)
    requires e1.eventType == e2.eventType && e1.pipelineStage == e2.pipelineStage
    requires e1.primaryEndpoint == e2.primaryEndpoint
    ensures WithEndpointBonus(e1) == WithEndpointBonus(e2)
  {
    assert StageMultiplier(e1) == StageMultiplier(e2);
  }

  /** Catalyst quality grows with the raw score and with the sentiment adjustment. */
  lemma QualityMonotoneInBonus(e1: BiotechEvent, e2: BiotechEvent)
    requires WithEndpointBonus(e1) <= WithEndpointBonus(e2)
    requires SentimentRank(e1.sentiment) <= SentimentRank(e2.sentiment)
    ensures CatalystQualityScore(e1) <= CatalystQualityScore(e2)
  {
    var raw1 := WithEndpointBonus(e1) + SentimentAdjustment(e1.sentiment) as real;
    var raw2 := WithEndpointBonus(e2) + SentimentAdjustment(e2.sentiment) as real;
    Round2Monotone(Clamp100(raw1), Clamp100(raw2));
  }

  /** A more bullish sentiment tag never lowers catalyst quality. */
  lemma CatalystQualityMonotoneInSentiment(e: BiotechEvent, s: SentimentTag)
    requires SentimentRank(e.sentiment) <= SentimentRank(s)
    ensures CatalystQualityScore(e) <= CatalystQualityScore(e.(sentiment := s))
  {
    var e' := e.(sentiment := s);
    SameBonusInputs(e, e');
    QualityMonotoneInBonus(e, e');
  }

  /** A clear primary endpoint never lowers catalyst quality. */
  lemma EndpointNeverLowersQuality(e: BiotechEvent)
    ensures CatalystQualityScore(e.(primaryEndpoint := None)) <= CatalystQualityScore(e)
  {
    var e0 := e.(primaryEndpoint := None);
    assert StageMultiplier(e0) == StageMultiplier(e);
    assert WithEndpointBonus(e0) <= WithEndpointBonus(e);
    QualityMonotoneInBonus(e0, e);
  }

  /** The stage label is ignored for every type but the three binary ones. */
  lemma StageIgnoredForNonBinary(e: BiotechEvent, stage: Option<string>)
    requires !IsBinary(e.eventType)
    ensures CatalystQualityScore(e.(pipelineStage := stage)) == CatalystQualityScore(e)
  {
    var e' := e.(pipelineStage := stage);
    assert StageMultiplier(e') == 1.0 == StageMultiplier(e);
    assert WithEndpointBonus(e') == WithEndpointBonus(e);
    assert e'.sentiment == e.sentiment;
  }

  /**
   * A regulatory decision at the "PDUFA date" stage with strong-buy sentiment
   * and no stated endpoint: 95 * 0.95 + 8 = 98.25.
   */
  lemma PdufaStrongBuyQuality(e: BiotechEvent)
    requires e.eventType == FdaPdufa && e.pipelineStage == Some("PDUFA date")
    requires e.sentiment == StrongBuy && e.primaryEndpoint.None?
    ensures CatalystQualityScore(e) == 98.25
  {
    assert StageMultiplier(e) == 0.95;
    assert StagedPriority(e) == 90.25;
    assert RoundHalfEven(98.25 * 100.0) == 9825;
  }

  /** `competitive_moat_score`: 85 / 70 / 55 / 35 / 20 for 0 / 1 / 2-3 / 4-6 / 7+ competitors. */
  function CompetitiveMoatScore(e: BiotechEvent): (score: real)
    ensures 20.0 <= score <= 85.0
    ensures |e.competingDrugs| == 0 <==> score == 85.0
    ensures |e.competingDrugs| >= 7 <==> score == 20.0
  {
    var n := |e.competingDrugs|;
    if n == 0 then 85.0
    else if n == 1 then 70.0
    else if n <= 3 then 55.0
    else if n <= 6 then 35.0
    else 20.0
  }

  /** More competing drugs never raise the moat score. */
  lemma MoatNonIncreasing(e1: BiotechEvent, e2: BiotechEvent)
    requires |e1.competingDrugs| <= |e2.competingDrugs|
    ensures CompetitiveMoatScore(e2) <= CompetitiveMoatScore(e1)
  {
  }

  /** What the market-data provider gave for a new event's context: a snapshot, or an error. */
  datatype ContextFetch = ContextBuilt(context: MarketContext) | ContextUnavailable

  /** `{TICKER}_{YYYY-MM-DD}_{first 8 characters of the uuid text}`. */
  function EventIdFor(ticker: string, eventDate: Date, uuidText: string): (id: string)
    ensures |id| == |ticker| + 12 + |Take(uuidText, 8)|
  {
    Upper(ticker) + "_" + IsoFormat(eventDate) + "_" + Take(uuidText, 8)
  }

  /** The id spells out the upper-cased ticker and the ISO date at fixed places. */
  lemma EventIdLayout(ticker: string, eventDate: Date, uuidText: string)
    ensures EventIdFor(ticker, eventDate, uuidText)[..|ticker|] == Upper(ticker)
    ensures EventIdFor(ticker, eventDate, uuidText)[|ticker|] == '_'
    ensures ParseIso(EventIdFor(ticker, eventDate, uuidText)[|ticker| + 1..|ticker| + 11]) == Some(eventDate)
    ensures EventIdFor(ticker, eventDate, uuidText)[|ticker| + 11] == '_'
    ensures EventIdFor(ticker, eventDate, uuidText)[|ticker| + 12..] == Take(uuidText, 8)
  {
    JoinedSlices(Upper(ticker), IsoFormat(eventDate), Take(uuidText, 8));
    ParseIsoFormat(eventDate);
  }

  lemma JoinedSlices(a: string, b: string, c: string)
    requires |b| == 10
    ensures (a + "_" + b + "_" + c)[..|a|] == a
    ensures (a + "_" + b + "_" + c)[|a|] == '_'
    ensures (a + "_" + b + "_" + c)[|a| + 1..|a| + 11] == b
    ensures (a + "_" + b + "_" + c)[|a| + 11] == '_'
    ensures (a + "_" + b + "_" + c)[|a| + 12..] == c
  {
    var s := a + "_" + b + "_" + c;
    assert s == a + ("_" + b + "_" + c);
  }

  /** Ids for the same ticker coincide only when the date and the 8-character suffix do. */
  lemma EventIdDistinguishes(ticker: string, d1: Date, u1: string, d2: Date, u2: string)
    requires EventIdFor(ticker, d1, u1) == EventIdFor(ticker, d2, u2)
    ensures d1 == d2 && Take(u1, 8) == Take(u2, 8)
  {
    EventIdLayout(ticker, d1, u1);
    EventIdLayout(ticker, d2, u2);
  }

  /**
   * `create_event`: today's uuid text and the provider's answer are parameters.
   * A provider error leaves the context absent; creation never fails.
   */
  function CreateEvent(ticker: string, companyName: string, eventType: EventType, eventDate: Date,
                       description: string, sentiment: SentimentTag, pipelineStage: Option<string>,
                       indication: Option<string>, primaryEndpoint: Option<string>,
                       competingDrugs: Option<seq<string>>, analystNotes: string,
                       autoMarketContext: bool, tags: Option<seq<string>>,
                       uuidText: string, fetched: ContextFetch): (e: BiotechEvent)
    ensures e.ticker == Upper(ticker)
    ensures e.eventId == Some(EventIdFor(ticker, eventDate, uuidText))
    ensures e.marketContext.Some? <==> autoMarketContext && fetched.ContextBuilt?
    ensures e.marketContext.Some? ==> e.marketContext.value == fetched.context
    ensures competingDrugs.None? ==> e.competingDrugs == []
    ensures competingDrugs.Some? ==> e.competingDrugs == competingDrugs.value
    ensures tags.None? ==> e.tags == []
    ensures tags.Some? ==> e.tags == tags.value
    ensures e.companyName == companyName && e.description == description && e.analystNotes == analystNotes
    ensures e.pipelineStage == pipelineStage && e.indication == indication && e.primaryEndpoint == primaryEndpoint
    ensures e.outcome == Pending && e.outcomeNotes == ""
    ensures e.actualMovePct.None? && e.spyMovePct.None? && e.xbiMovePct.None? && e.ivCrushPct.None?
    ensures e.eventType == eventType && e.eventDate == eventDate && e.sentiment == sentiment
  {
    var context := if autoMarketContext && fetched.ContextBuilt? then Some(fetched.context) else None;
    NewEvent(Upper(ticker), companyName, eventType, eventDate, description).(
      eventId := Some(EventIdFor(ticker, eventDate, uuidText)),
      sentiment := sentiment,
      pipelineStage := pipelineStage,
      indication := indication,
      primaryEndpoint := primaryEndpoint,
      competingDrugs := competingDrugs.GetOr([]),
      analystNotes := analystNotes,
      marketContext := context,
      tags := tags.GetOr([]))
  }

  /** What the provider gave for the post-event moves: three optional moves, or an error. */
  datatype MovesFetch = MovesFetched(tickerMove: Option<real>, spyMove: Option<real>, xbiMove: Option<real>)
                      | MovesUnavailable

  /**
   * `resolve_event`: outcome and notes are always set; the moves are replaced
   * only when fetching is on and the provider answered.
   */
  function ResolveEvent(e: BiotechEvent, outcome: EventOutcome, outcomeNotes: string,
                        autoFetchMoves: bool, fetched: MovesFetch): (r: BiotechEvent)
    ensures r.outcome == outcome && r.outcomeNotes == outcomeNotes
    ensures !autoFetchMoves || fetched.MovesUnavailable? ==>
              r.actualMovePct == e.actualMovePct && r.spyMovePct == e.spyMovePct && r.xbiMovePct == e.xbiMovePct
    ensures autoFetchMoves && fetched.MovesFetched? ==>
              r.actualMovePct == fetched.tickerMove && r.spyMovePct == fetched.spyMove && r.xbiMovePct == fetched.xbiMove
    ensures r.(outcome := e.outcome, outcomeNotes := e.outcomeNotes, actualMovePct := e.actualMovePct,
               spyMovePct := e.spyMovePct, xbiMovePct := e.xbiMovePct) == e
  {
    var r := e.(outcome := outcome, outcomeNotes := outcomeNotes);
    if autoFetchMoves && fetched.MovesFetched? then
      r.(actualMovePct := fetched.tickerMove, spyMovePct := fetched.spyMove, xbiMovePct := fetched.xbiMove)
    else r
  }

  /** A caller's event object; `resolve_event` updates it in place and hands the same object back. */
  class TrackedEvent {
    var event: BiotechEvent

    constructor (e: BiotechEvent)
      ensures event == e
    {
      event := e;
    }

    /** `resolve_event` on this object: the fields change as `ResolveEvent` says, and it returns itself. */
    method Resolve(outcome: EventOutcome, outcomeNotes: string, autoFetchMoves: bool, fetched: MovesFetch)
      returns (same: TrackedEvent)
      modifies this
      ensures same == this
      ensures event == ResolveEvent(old(event), outcome, outcomeNotes, autoFetchMoves, fetched)
    {
      event := event.(outcome := outcome);
      event := event.(outcomeNotes := outcomeNotes);
      if autoFetchMoves && fetched.MovesFetched? {
        event := event.(actualMovePct := fetched.tickerMove);
        event := event.(spyMovePct := fetched.spyMove);
        event := event.(xbiMovePct := fetched.xbiMove);
      }
      same := this;
    }
  }

  /** Kept by `filter_upcoming_events`: pending, not before the cut-off, of a listed type if any are listed. */
  predicate IsUpcoming(e: BiotechEvent, asOf: Date, types: Option<seq<EventType>>) {
    && e.outcome == Pending
    && OnOrBefore(asOf, e.eventDate)
    && (types.None? || types.value == [] || e.eventType in types.value)
  }

  /** The upcoming events, in input order. */
  function Upcoming(events: seq<BiotechEvent>, asOf: Date, types: Option<seq<EventType>>): (r: seq<BiotechEvent>)
    ensures |r| <= |events|
  {
    if events == [] then []
    else
      var rest := Upcoming(events[1..], asOf, types);
      if IsUpcoming(events[0], asOf, types) then [events[0]] + rest else rest
  }

  /** Filtering distributes over concatenation, so the upcoming events keep their input order. */
  lemma {:induction false} UpcomingAppend(a: seq<BiotechEvent>, b: seq<BiotechEvent>, asOf: Date,
                                          types: Option<seq<EventType>>)
    ensures Upcoming(a + b, asOf, types) == Upcoming(a, asOf, types) + Upcoming(b, asOf, types)
    decreases |a|
  {
    if a == [] {
      assert a + b == b;
    } else {
      var ab := a + b;
      assert ab[0] == a[0];
      assert ab[1..] == a[1..] + b;
      UpcomingAppend(a[1..], b, asOf, types);
    }
  }

  /** Each upcoming event is kept exactly as often as it occurs; every other event is dropped. */
  lemma {:induction false} UpcomingExact(events: seq<BiotechEvent>, asOf: Date, types: Option<seq<EventType>>)
    ensures forall e :: multiset(Upcoming(events, asOf, types))[e]
                        == if IsUpcoming(e, asOf, types) then multiset(events)[e] else 0
  {
    if events != [] {
      assert events == [events[0]] + events[1..];
      UpcomingExact(events[1..], asOf, types);
    }
  }

  /** An event is upcoming-filtered in exactly when it is an input event that is upcoming. */
  lemma UpcomingMembers(events: seq<BiotechEvent>, asOf: Date, types: Option<seq<EventType>>)
    ensures forall e :: e in Upcoming(events, asOf, types) <==> e in events && IsUpcoming(e, asOf, types)
  {
    UpcomingExact(events, asOf, types);
  }

  predicate SortedByDate(s: seq<BiotechEvent>) {
    forall i, j :: 0 <= i < j < |s| ==> OnOrBefore(s[i].eventDate, s[j].eventDate)
  }

  /** The events dated `d`, in order. */
  function DatedOn(s: seq<BiotechEvent>, d: Date): seq<BiotechEvent> {
    if s == [] then []
    else if s[0].eventDate == d then [s[0]] + DatedOn(s[1..], d)
    else DatedOn(s[1..], d)
  }

  /** Puts `x` before the first element dated on or after it. */
  function InsertByDate(x: BiotechEvent, s: seq<BiotechEvent>): (r: seq<BiotechEvent>)
    ensures multiset(r) == multiset(s) + multiset{x}
  {
    if s == [] || OnOrBefore(x.eventDate, s[0].eventDate) then [x] + s
    else
      assert s == [s[0]] + s[1..];
      [s[0]] + InsertByDate(x, s[1..])
  }

  /** An element dated no later than everything in a sorted sequence can go in front. */
  lemma PrependSorted(y: BiotechEvent, s: seq<BiotechEvent>)
    requires SortedByDate(s)
    requires forall e :: e in s ==> OnOrBefore(y.eventDate, e.eventDate)
    ensures SortedByDate([y] + s)
  {
    forall i, j | 0 <= i < j < |s| + 1
      ensures OnOrBefore(([y] + s)[i].eventDate, ([y] + s)[j].eventDate)
    {
      if i > 0 {
        assert ([y] + s)[i] == s[i - 1] && ([y] + s)[j] == s[j - 1];
      } else {
        assert s[j - 1] in s;
      }
    }
  }

  lemma {:induction false} InsertByDateSorted(x: BiotechEvent, s: seq<BiotechEvent>)
    requires SortedByDate(s)
    ensures SortedByDate(InsertByDate(x, s))
  {
    if s == [] || OnOrBefore(x.eventDate, s[0].eventDate) {
      forall e | e in s ensures OnOrBefore(x.eventDate, e.eventDate) {
        var j :| 0 <= j < |s| && s[j] == e;
        if j > 0 {
          OnOrBeforeTransitive(x.eventDate, s[0].eventDate, e.eventDate);
        }
      }
      PrependSorted(x, s);
    } else {
      var rest := InsertByDate(x, s[1..]);
      InsertByDateSorted(x, s[1..]);
      OnOrBeforeTotal(x.eventDate, s[0].eventDate);
      forall e | e in rest ensures OnOrBefore(s[0].eventDate, e.eventDate) {
        assert e in multiset(rest);
        if e != x {
          assert e in multiset(s[1..]);
          var j :| 0 <= j < |s[1..]| && s[1..][j] == e;
          assert s[j + 1] == e;
        }
      }
      PrependSorted(s[0], rest);
    }
  }

  /** Python's `sorted(..., key=event_date)`: a stable insertion sort. */
  function SortByDate(s: seq<BiotechEvent>): (r: seq<BiotechEvent>)
    ensures SortedByDate(r)
    ensures multiset(r) == multiset(s)
  {
    if s == [] then []
    else
      assert s == [s[0]] + s[1..];
      var rest := SortByDate(s[1..]);
      InsertByDateSorted(s[0], rest);
      InsertByDate(s[0], rest)
  }

  lemma {:induction false} InsertKeepsSameDayOrder(x: BiotechEvent, s: seq<BiotechEvent>, d: Date)
    ensures DatedOn(InsertByDate(x, s), d) == if x.eventDate == d then [x] + DatedOn(s, d) else DatedOn(s, d)
  {
    if s == [] || OnOrBefore(x.eventDate, s[0].eventDate) {
      assert InsertByDate(x, s)[1..] == s;
    } else {
      InsertKeepsSameDayOrder(x, s[1..], d);
      OnOrBeforeTotal(x.eventDate, s[0].eventDate);
      assert InsertByDate(x, s)[1..] == InsertByDate(x, s[1..]);
    }
  }

  /** The sort is stable: events sharing a date keep their input order. */
  lemma {:induction false} SortByDateStable(s: seq<BiotechEvent>, d: Date)
    ensures DatedOn(SortByDate(s), d) == DatedOn(s, d)
  {
    if s != [] {
      SortByDateStable(s[1..], d);
      InsertKeepsSameDayOrder(s[0], SortByDate(s[1..]), d);
    }
  }

  /**
   * `filter_upcoming_events`: `today` stands in for `date.today()` when no
   * cut-off is given.
   */
  function FilterUpcomingEvents(events: seq<BiotechEvent>, asOf: Option<Date>, today: Date,
                                types: Option<seq<EventType>>): (r: seq<BiotechEvent>)
    ensures SortedByDate(r)
    ensures multiset(r) == multiset(Upcoming(events, asOf.GetOr(today), types))
    ensures forall e :: e in r <==> e in events && IsUpcoming(e, asOf.GetOr(today), types)
  {
    var picked := Upcoming(events, asOf.GetOr(today), types);
    UpcomingMembers(events, asOf.GetOr(today), types);
    var r := SortByDate(picked);
    assert forall e :: e in r <==> e in multiset(picked);
    r
  }

  /** Upcoming events that share a date come out in their input order. */
  lemma FilterUpcomingKeepsSameDayOrder(events: seq<BiotechEvent>, asOf: Option<Date>, today: Date,
                                        types: Option<seq<EventType>>, d: Date)
    ensures DatedOn(FilterUpcomingEvents(events, asOf, today, types), d)
         == DatedOn(Upcoming(events, asOf.GetOr(today), types), d)
  {
    SortByDateStable(Upcoming(events, asOf.GetOr(today), types), d);
  }
}
