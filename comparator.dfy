/**
 * Post-event comparison of a stock's move against SPY and XBI, and the
 * aggregate statistics over a set of comparisons.
 */
module Comparator {
  import opened Wrappers
  import opened Numeric
  import opened Event
  import opened Rating
  import opened CatalystTracker

  /** The post-mortem record of one resolved event. */
  datatype ReturnComparison = ReturnComparison(
    eventId: string,
    ticker: string,
    eventType: string,
    outcome: string,
    actualMovePct: Option<real>,
    spyMovePct: Option<real>,
    xbiMovePct: Option<real>,
    relativeToSpy: Option<real>,
    relativeToXbi: Option<real>,
    ivCrushPct: Option<real>,
    ratingGrade: Option<string>,
    ratingScore: Option<real>)

  /** Did the stock beat SPY? Unknown when the alpha is unknown. */
  function OutperformedMarket(c: ReturnComparison): (r: Option<bool>)
    ensures r.None? <==> c.relativeToSpy.None?
    ensures r == Some(true) <==> c.relativeToSpy.Some? && c.relativeToSpy.value > 0.0
  {
    if c.relativeToSpy.None? then None else Some(c.relativeToSpy.value > 0.0)
  }

  /** Did the stock beat XBI? Unknown when the alpha is unknown. */
  function OutperformedSector(c: ReturnComparison): (r: Option<bool>)
    ensures r.None? <==> c.relativeToXbi.None?
    ensures r == Some(true) <==> c.relativeToXbi.Some? && c.relativeToXbi.value > 0.0
  {
    if c.relativeToXbi.None? then None else Some(c.relativeToXbi.value > 0.0)
  }

  /** `build_comparison`: moves copied from the event, alphas from its relative moves. */
  function BuildComparison(e: BiotechEvent, rating: Option<RatingValue>): (c: ReturnComparison)
    ensures c.eventId == e.eventId.GetOr("") && c.ticker == e.ticker
    ensures EventTypeFromCode(c.eventType) == Some(e.eventType)
    ensures OutcomeFromCode(c.outcome) == Some(e.outcome)
    ensures c.actualMovePct == e.actualMovePct && c.spyMovePct == e.spyMovePct
    ensures c.xbiMovePct == e.xbiMovePct && c.ivCrushPct == e.ivCrushPct
    ensures c.relativeToSpy == RelativeMove(e) && c.relativeToXbi == XbiRelativeMove(e)
    ensures c.ratingGrade.Some? <==> rating.Some?
    ensures c.ratingScore.Some? <==> rating.Some?
    ensures rating.Some? ==> c.ratingGrade == Some(GradeCode(rating.value.grade))
    ensures rating.Some? ==> c.ratingScore == Some(rating.value.compositeScore)
  {
    ReturnComparison(
      e.eventId.GetOr(""), e.ticker, EventTypeCode(e.eventType), OutcomeCode(e.outcome),
      e.actualMovePct, e.spyMovePct, e.xbiMovePct,
      RelativeMove(e), XbiRelativeMove(e), e.ivCrushPct,
      if rating.Some? then Some(GradeCode(rating.value.grade)) else None,
      if rating.Some? then Some(rating.value.compositeScore) else None)
  }

  /**
   * Outperformance against the real moves: "outperformed" implies the stock
   * moved more than SPY, and a lead of at least 0.0001 is always reported.
   */
  lemma OutperformedMarketMeansBeatSpy(e: BiotechEvent, rating: Option<RatingValue>)
    requires e.actualMovePct.Some? && e.spyMovePct.Some?
    ensures OutperformedMarket(BuildComparison(e, rating)) == Some(true) ==> e.actualMovePct.value > e.spyMovePct.value
    ensures e.actualMovePct.value <= e.spyMovePct.value ==> OutperformedMarket(BuildComparison(e, rating)) == Some(false)
    ensures e.actualMovePct.value >= e.spyMovePct.value + 0.0001 ==> OutperformedMarket(BuildComparison(e, rating)) == Some(true)
  {
  }

  /** The same for the sector benchmark. */
  lemma OutperformedSectorMeansBeatXbi(e: BiotechEvent, rating: Option<RatingValue>)
    requires e.actualMovePct.Some? && e.xbiMovePct.Some?
    ensures OutperformedSector(BuildComparison(e, rating)) == Some(true) ==> e.actualMovePct.value > e.xbiMovePct.value
    ensures e.actualMovePct.value <= e.xbiMovePct.value ==> OutperformedSector(BuildComparison(e, rating)) == Some(false)
    ensures e.actualMovePct.value >= e.xbiMovePct.value + 0.0001 ==> OutperformedSector(BuildComparison(e, rating)) == Some(true)
  {
  }

  /** An event that can be compared: its outcome is known and its move recorded. */
  predicate Comparable(e: BiotechEvent) {
    e.outcome != Pending && e.actualMovePct.Some?
  }

  /** The comparable events, in input order. */
  function ComparableEvents(events: seq<BiotechEvent>): (r: seq<BiotechEvent>)
    ensures |r| <= |events|
    ensures forall i :: 0 <= i < |r| ==> Comparable(r[i])
  {
    if events == [] then []
    else
      var last := events[|events| - 1];
      ComparableEvents(events[..|events| - 1]) + (if Comparable(last) then [last] else [])
  }

  /** Each comparable event is kept exactly as often as it occurs; every other event is dropped. */
  lemma {:induction false} ComparableEventsExact(events: seq<BiotechEvent>)
    ensures forall e :: multiset(ComparableEvents(events))[e] == if Comparable(e) then multiset(events)[e] else 0
  {
    if events != [] {
      var rest := events[..|events| - 1];
      var last := events[|events| - 1];
      assert events == rest + [last];
      ComparableEventsExact(rest);
    }
  }

  /** Filtering distributes over concatenation, so the input order is kept. */
  lemma {:induction false} ComparableEventsAppend(a: seq<BiotechEvent>, b: seq<BiotechEvent>)
    ensures ComparableEvents(a + b) == ComparableEvents(a) + ComparableEvents(b)
    decreases |b|
  {
    if b == [] {
      assert a + b == a;
    } else {
      var init := b[..|b| - 1];
      var last := b[|b| - 1];
      var tail := if Comparable(last) then [last] else [];
      var ab := a + b;
      assert ab[..|ab| - 1] == a + init;
      assert ab[|ab| - 1] == last;
      assert ComparableEvents(ab) == ComparableEvents(a + init) + tail;
      assert ComparableEvents(b) == ComparableEvents(init) + tail;
      ComparableEventsAppend(a, init);
    }
  }

  /** The rating linked to an event: looked up by its id, or "" when it has none. */
  function LinkedRating(e: BiotechEvent, ratings: Option<map<string, RatingValue>>): (r: Option<RatingValue>)
    ensures r.Some? <==> ratings.Some? && e.eventId.GetOr("") in ratings.value
  {
    if ratings.Some? && e.eventId.GetOr("") in ratings.value then Some(ratings.value[e.eventId.GetOr("")]) else None
  }

  /** `batch_compare`: one comparison per comparable event, in input order. */
  function BatchCompare(events: seq<BiotechEvent>, ratings: Option<map<string, RatingValue>>): (cs: seq<ReturnComparison>)
    ensures |cs| == |ComparableEvents(events)|
    ensures forall i :: 0 <= i < |cs| ==>
      cs[i] == BuildComparison(ComparableEvents(events)[i], LinkedRating(ComparableEvents(events)[i], ratings))
  {
    var resolved := ComparableEvents(events);
    seq(|resolved|, i requires 0 <= i < |resolved| => BuildComparison(resolved[i], LinkedRating(resolved[i], ratings)))
  }

  /** Comparing two batches one after the other is comparing them together. */
  lemma BatchCompareAppend(a: seq<BiotechEvent>, b: seq<BiotechEvent>, ratings: Option<map<string, RatingValue>>)
    ensures BatchCompare(a + b, ratings) == BatchCompare(a, ratings) + BatchCompare(b, ratings)
  {
    ComparableEventsAppend(a, b);
  }

  /** An event resolved when the move provider was unavailable, with no move recorded earlier, is not compared. */
  lemma UnfetchedResolutionNotCompared(e: BiotechEvent, outcome: EventOutcome, notes: string, autoFetch: bool,
                                       ratings: Option<map<string, RatingValue>>)
    requires e.actualMovePct.None?
    ensures BatchCompare([ResolveEvent(e, outcome, notes, autoFetch, MovesUnavailable)], ratings) == []
  {
    var r := ResolveEvent(e, outcome, notes, autoFetch, MovesUnavailable);
    assert !Comparable(r);
    assert ComparableEvents([r]) == ComparableEvents([]) + [];
  }

  /** The values that are present, in order. */
  function Present(vs: seq<Option<real>>): (ps: seq<real>)
    ensures |ps| <= |vs|
    ensures |ps| == 0 <==> forall i :: 0 <= i < |vs| ==> vs[i].None?
  {
    if vs == [] then []
    else
      var rest := Present(vs[..|vs| - 1]);
      if vs[|vs| - 1].Some? then rest + [vs[|vs| - 1].value] else rest
  }

  function Sum(xs: seq<real>): real {
    if xs == [] then 0.0 else Sum(xs[..|xs| - 1]) + xs[|xs| - 1]
  }

  /** `_safe_avg`: the mean of the present values rounded to four places, None when there are none. */
  function SafeAvg(vs: seq<Option<real>>): (r: Option<real>)
    ensures r.None? <==> forall i :: 0 <= i < |vs| ==> vs[i].None?
  {
    var ps := Present(vs);
    if |ps| == 0 then None else Some(Round4(Sum(ps) / |ps| as real))
  }

  /** Missing values do not take part: appending one leaves the average unchanged. */
  lemma SafeAvgIgnoresMissing(vs: seq<Option<real>>)
    ensures SafeAvg(vs + [None]) == SafeAvg(vs)
  {
    assert (vs + [None])[..|vs|] == vs;
  }

  lemma {:induction false} SumBounds(xs: seq<real>, lo: real, hi: real)
    requires forall i :: 0 <= i < |xs| ==> lo <= xs[i] <= hi
    ensures |xs| as real * lo <= Sum(xs) <= |xs| as real * hi
  {
    if xs != [] {
      var init := xs[..|xs| - 1];
      SumBounds(init, lo, hi);
      assert |xs| as real * lo == |init| as real * lo + lo;
      assert |xs| as real * hi == |init| as real * hi + hi;
    }
  }

  lemma {:induction false} PresentWithin(vs: seq<Option<real>>, lo: real, hi: real)
    requires forall i :: 0 <= i < |vs| && vs[i].Some? ==> lo <= vs[i].value <= hi
    ensures forall i :: 0 <= i < |Present(vs)| ==> lo <= Present(vs)[i] <= hi
  {
    if vs != [] {
      PresentWithin(vs[..|vs| - 1], lo, hi);
    }
  }

  lemma MeanWithin(total: real, n: nat, lo: real, hi: real)
    requires 0 < n && n as real * lo <= total <= n as real * hi
    ensures lo <= total / n as real <= hi
  {
    var m := total / n as real;
    assert total == m * n as real;
  }

  /** The average lies between the rounded bounds of the values it averages. */
  lemma SafeAvgWithin(vs: seq<Option<real>>, lo: real, hi: real)
    requires forall i :: 0 <= i < |vs| && vs[i].Some? ==> lo <= vs[i].value <= hi
    ensures SafeAvg(vs).Some? ==> Round4(lo) <= SafeAvg(vs).value <= Round4(hi)
  {
    var ps := Present(vs);
    if |ps| > 0 {
      PresentWithin(vs, lo, hi);
      SumBounds(ps, lo, hi);
      MeanWithin(Sum(ps), |ps|, lo, hi);
      Round4Monotone(lo, Sum(ps) / |ps| as real);
      Round4Monotone(Sum(ps) / |ps| as real, hi);
    }
  }

  /** Aggregate statistics over a set of comparisons. */
  datatype BenchmarkStats = BenchmarkStats(
    nEvents: nat,
    avgActualMove: Option<real>,
    avgSpyMove: Option<real>,
    avgXbiMove: Option<real>,
    avgAlphaVsSpy: Option<real>,
    avgAlphaVsXbi: Option<real>,
    pctOutperformSpy: Option<real>,
    pctOutperformXbi: Option<real>,
    avgIvCrush: Option<real>,
    positiveOutcomeRate: Option<real>)

  /** Comparisons whose stock beat SPY; a missing alpha does not count. */
  function CountOutperformMarket(cs: seq<ReturnComparison>): (n: nat)
    ensures n <= |cs|
  {
    if cs == [] then 0
    else CountOutperformMarket(cs[..|cs| - 1]) + (if OutperformedMarket(cs[|cs| - 1]) == Some(true) then 1 else 0)
  }

  /** Comparisons whose stock beat XBI; a missing alpha does not count. */
  function CountOutperformSector(cs: seq<ReturnComparison>): (n: nat)
    ensures n <= |cs|
  {
    if cs == [] then 0
    else CountOutperformSector(cs[..|cs| - 1]) + (if OutperformedSector(cs[|cs| - 1]) == Some(true) then 1 else 0)
  }

  /** Events whose outcome was positive or mixed. */
  function CountPositiveOutcomes(events: seq<BiotechEvent>): (n: nat)
    ensures n <= |events|
  {
    if events == [] then 0
    else
      var o := events[|events| - 1].outcome;
      CountPositiveOutcomes(events[..|events| - 1]) + (if o == Positive || o == Mixed then 1 else 0)
  }

  function ActualMoves(cs: seq<ReturnComparison>): seq<Option<real>> {
    seq(|cs|, i requires 0 <= i < |cs| => cs[i].actualMovePct)
  }

  function SpyMoves(cs: seq<ReturnComparison>): seq<Option<real>> {
    seq(|cs|, i requires 0 <= i < |cs| => cs[i].spyMovePct)
  }

  function XbiMoves(cs: seq<ReturnComparison>): seq<Option<real>> {
    seq(|cs|, i requires 0 <= i < |cs| => cs[i].xbiMovePct)
  }

  function SpyAlphas(cs: seq<ReturnComparison>): seq<Option<real>> {
    seq(|cs|, i requires 0 <= i < |cs| => cs[i].relativeToSpy)
  }

  function XbiAlphas(cs: seq<ReturnComparison>): seq<Option<real>> {
    seq(|cs|, i requires 0 <= i < |cs| => cs[i].relativeToXbi)
  }

  function IvCrushes(cs: seq<ReturnComparison>): seq<Option<real>> {
    seq(|cs|, i requires 0 <= i < |cs| => cs[i].ivCrushPct)
  }

  /**
   * `compute_stats`: nothing but the count for an empty set; otherwise the
   * None-aware averages, the outperformance percentages over all `n`
   * comparisons, and the positive-outcome rate over the separate event list.
   */
  function ComputeStats(cs: seq<ReturnComparison>, eventsForOutcome: Option<seq<BiotechEvent>>): (s: BenchmarkStats)
    ensures s.nEvents == |cs|
    ensures cs == [] ==> s == BenchmarkStats(0, None, None, None, None, None, None, None, None, None)
    ensures cs != [] ==>
      && s.avgActualMove == SafeAvg(ActualMoves(cs)) && s.avgSpyMove == SafeAvg(SpyMoves(cs))
      && s.avgXbiMove == SafeAvg(XbiMoves(cs)) && s.avgIvCrush == SafeAvg(IvCrushes(cs))
      && s.avgAlphaVsSpy == SafeAvg(SpyAlphas(cs)) && s.avgAlphaVsXbi == SafeAvg(XbiAlphas(cs))
      && s.pctOutperformSpy == Some(Round2(Percent(CountOutperformMarket(cs), |cs|)))
      && s.pctOutperformXbi == Some(Round2(Percent(CountOutperformSector(cs), |cs|)))
    ensures s.pctOutperformSpy.Some? ==> 0.0 <= s.pctOutperformSpy.value <= 100.0
    ensures s.pctOutperformXbi.Some? ==> 0.0 <= s.pctOutperformXbi.value <= 100.0
    ensures s.positiveOutcomeRate.Some? <==> cs != [] && eventsForOutcome.Some? && eventsForOutcome.value != []
    ensures s.positiveOutcomeRate.Some? ==>
      && s.positiveOutcomeRate.value == Round2(Percent(CountPositiveOutcomes(eventsForOutcome.value), |eventsForOutcome.value|))
      && 0.0 <= s.positiveOutcomeRate.value <= 100.0
  {
    var n := |cs|;
    if n == 0 then BenchmarkStats(0, None, None, None, None, None, None, None, None, None)
    else
      var spyPct := Percent(CountOutperformMarket(cs), n);
      var xbiPct := Percent(CountOutperformSector(cs), n);
      Round2ScoreRange(spyPct);
      Round2ScoreRange(xbiPct);
      var positiveRate :=
        if eventsForOutcome.Some? && eventsForOutcome.value != [] then
          var rate := Percent(CountPositiveOutcomes(eventsForOutcome.value), |eventsForOutcome.value|);
          Round2ScoreRange(rate);
          Some(Round2(rate))
        else None;
      BenchmarkStats(
        n,
        SafeAvg(ActualMoves(cs)), SafeAvg(SpyMoves(cs)), SafeAvg(XbiMoves(cs)),
        SafeAvg(SpyAlphas(cs)), SafeAvg(XbiAlphas(cs)),
        Some(Round2(spyPct)), Some(Round2(xbiPct)),
        SafeAvg(IvCrushes(cs)), positiveRate)
  }

  lemma {:induction false} NoAlphaNoOutperformance(cs: seq<ReturnComparison>)
    requires forall i :: 0 <= i < |cs| ==> cs[i].relativeToSpy.None?
    ensures CountOutperformMarket(cs) == 0
  {
    if cs != [] {
      NoAlphaNoOutperformance(cs[..|cs| - 1]);
    }
  }

  /**
   * Comparisons without an SPY alpha still count in the denominator: when
   * none has one, the percentage is 0 rather than unknown, and the average alpha is unknown.
   */
  lemma MissingAlphasScoreZero(cs: seq<ReturnComparison>, eventsForOutcome: Option<seq<BiotechEvent>>)
    requires cs != [] && forall i :: 0 <= i < |cs| ==> cs[i].relativeToSpy.None?
    ensures ComputeStats(cs, eventsForOutcome).pctOutperformSpy == Some(0.0)
    ensures ComputeStats(cs, eventsForOutcome).avgAlphaVsSpy.None?
  {
    NoAlphaNoOutperformance(cs);
    RoundWhole(0);
  }

  /** The positive-outcome rate depends only on the event list, not on which comparisons were built. */
  lemma PositiveRateIgnoresComparisons(cs1: seq<ReturnComparison>, cs2: seq<ReturnComparison>,
                                       eventsForOutcome: Option<seq<BiotechEvent>>)
    requires cs1 != [] && cs2 != []
    ensures ComputeStats(cs1, eventsForOutcome).positiveOutcomeRate == ComputeStats(cs2, eventsForOutcome).positiveOutcomeRate
  {
  }
}
