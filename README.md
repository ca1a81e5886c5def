# Biotech options rater, modelled in Dafny

The biotech options rater takes a biotech catalyst event, such as an FDA decision date, a trial readout or an earnings call. It scores the event on seven qualitative sub-scores, combines them into a weighted composite score and a letter grade, and recommends an options strategy with trade parameters. After the event it compares the stock's move with SPY and XBI. Events and ratings are kept in two record files, and each save is a keyed upsert.

The project is a model of that pipeline's core, with the properties each part promises proved.

Modules, one per source concern:

- **`Wrappers`**: `Option` and `Result`.
- **`Numeric`**:
  - clamping to [0, 100];
  - Python's `round(x, 2)` / `round(x, 4)` as round-half-even on reals;
  - percentages.
- **`Text`**: ASCII upper-casing, `s[:n]`, zero-padded decimals.
- **`Dates`**: calendar dates, with ISO `YYYY-MM-DD` formatting and parsing, and their round trip.
- **`Event`** (`models/event.py`):
  - the event enums and their string codes;
  - `MarketContext` and `BiotechEvent`;
  - the relative moves and `to_dict`.
- **`Rating`** (`models/rating.py`):
  - strategies, grades and `score_to_grade`;
  - the score breakdown and `weighted_total`;
  - the `OptionsRating` class, whose construction and `refresh_score` update composite and grade in place;
  - `to_dict`.
- **`CatalystTracker`** (`collectors/catalyst_tracker.py`):
  - catalyst quality and competitive moat;
  - event creation and resolution;
  - the upcoming-events filter and its stable sort by date.
- **`MarketData`** (`collectors/market_data.py`): the sector-trend classifier and the macro-event lookup.
- **`Scorer`** (`engine/scorer.py`): the remaining sub-scores, the strategy table, the trade heuristics and `score_event`.
- **`Comparator`** (`engine/comparator.py`): return comparisons, batch comparison and aggregate statistics.
- **`EventStore`** (`storage/event_store.py`):
  - record encoding and decoding;
  - the keyed upsert and delete;
  - the `EventStore` class over two file states;
  - the export view.

Three behaviours of the code deserve a note:

- **Custom weights.** `score_event` picks the risk cap from the grade under the caller's custom weights. The rating it returns then re-derives composite and grade under the default weights. `Scorer.CustomWeightsGradeRiskMismatch` shows a rating graded B+ with a 0 % risk cap.
- **Dead VIX branch.** The `vix > 35` branch of `classify_sector_trend` is never taken, because `vix > 25` is tested first (`MarketData.VixAbove35CountsAsAbove25`).
- **Worked example.** The FDA-decision example (PDUFA stage, strong buy, no competitors, IV rank 55), scored with no market context and no history, gets composite 79.56, grade B+ and a bull call spread (`Scorer.PdufaExampleWithoutContext`).

## Model

| member | source | states |
|---|---|---|
| Numeric.Clamp100 | models/rating.py:91 | the clamp lies in [0, 100], is the identity inside it, 0 below and 100 above |
| Numeric.RoundHalfEven | models/rating.py:91 | the rounded integer is within one half of its argument and is its floor or the next integer |
| Numeric.RoundHalfEvenMonotone | models/rating.py:91 | rounding never reverses order |
| Numeric.Round2Within | models/rating.py:91 | rounding to two places keeps a value inside any integer bounds that contain it |
| Numeric.Round2Monotone | models/rating.py:91 | rounding to two places never reverses order |
| Numeric.Round4Monotone | models/event.py:86 | rounding to four places never reverses order |
| Numeric.RoundWhole | models/rating.py:91 | a whole number is unchanged by rounding to two or four places |
| Numeric.Round2Error | models/rating.py:91 | `round(_, 2)` gives a multiple of 0.01 at most 0.005 away from its argument |
| Numeric.Round4Error | models/event.py:86 | `round(_, 4)` gives a multiple of 0.0001 at most 0.00005 away from its argument |
| Numeric.Percent | engine/comparator.py:187 | k of n as a percentage lies in [0, 100]; it is 0 for none and 100 for all |
| Text.UpperIdempotent | collectors/market_data.py:185 | upper-casing twice is upper-casing once |
| Text.ParsePadDecimal | models/event.py:101 | a zero-padded decimal numeral parses back to its number |
| Dates.OnOrBeforeTotal | collectors/catalyst_tracker.py:203 | any two dates are ordered one way or the other |
| Dates.OnOrBeforeTransitive | collectors/catalyst_tracker.py:203 | the date order is transitive |
| Dates.IsoFormatShape | models/event.py:101 | the ISO text is ten characters: four digits, '-', two digits, '-', two digits |
| Dates.ParseIso | storage/event_store.py:68 | a successful parse formats back to exactly the parsed text |
| Dates.ParseIsoFormat | models/event.py:101 | parsing a date's ISO form gives the date back |
| Event.EventTypeFromCode | models/event.py:10-20 | every event-type code decodes to its type, and whatever decodes has that code |
| Event.OutcomeFromCode | models/event.py:23-28 | every outcome code decodes to its outcome, and whatever decodes has that code |
| Event.SentimentFromCode | models/event.py:31-37 | every sentiment code decodes to its tag, and whatever decodes has that code |
| Event.NewEvent | models/event.py:51-81 | a new event is pending, neutral, without id, moves, context, lists or optional text |
| Event.Alpha | models/event.py:83-93 | the alpha exists exactly when both moves do; it is their difference to within 0.00005; a positive alpha means the stock beat the benchmark |
| Event.RelativeMove | models/event.py:83-87 | present iff both the stock and SPY moves are; the difference to within 0.00005 |
| Event.XbiRelativeMove | models/event.py:89-93 | present iff both the stock and XBI moves are; the difference to within 0.00005 |
| Event.ToDictDecodes | models/event.py:95-118 | in the dictionary each code and the ISO date decode back to the event's type, sentiment, outcome and date |
| Rating.StrategyFromCode | models/rating.py:10-21 | every strategy code decodes to its strategy, and whatever decodes has that code |
| Rating.ScoreToGrade | models/rating.py:35-43 | each grade holds exactly on its band, boundary values going to the higher grade |
| Rating.ScoreToGradeMonotone | models/rating.py:35-43 | a higher score never gets a worse grade |
| Rating.WeightOf | models/rating.py:82-90 | a key missing from the weights contributes weight 0 |
| Rating.EffectiveWeights | models/rating.py:81 | None or an empty mapping means the default weights; any other mapping is used as given |
| Rating.WeightedTotal | models/rating.py:60-91 | the composite lies in [0, 100] for any weights |
| Rating.DefaultWeightsSumToOne | models/rating.py:72-80 | the seven default weights sum to 1 |
| Rating.DefaultTotalNeedsNoClamp | models/rating.py:72-91 | with sub-scores in [0, 100] the default weighted sum already lies in [0, 100], so the clamp does nothing |
| Rating.EmptyWeightsAreDefault | models/rating.py:81 | an empty weight mapping scores like the default weights |
| Rating.MissingKeyContributesNothing | models/rating.py:82-90 | a sub-score whose key is not in a custom mapping does not affect the composite |
| Rating.UnrelatedWeightsScoreZero | models/rating.py:81-91 | a non-empty mapping that names none of the seven keys scores every breakdown 0 |
| Rating.Refreshed | models/rating.py:133-136 | after a refresh, composite and grade follow from the breakdown under the weights; no other field changes |
| Rating.RefreshedIdempotent | models/rating.py:133-136 | refreshing twice is refreshing once; an already-derived rating is left as it is |
| Rating.Construct | models/rating.py:105-131 | a constructed rating holds the given fields, with composite and grade derived under the default weights |
| Rating.OptionsRating.constructor | models/rating.py:105-131 | the new object's state is `Construct` of its arguments, so composite and grade follow from the breakdown |
| Rating.OptionsRating.RefreshScore | models/rating.py:133-136 | the object's new state is `Refreshed` of its old state under the weights |
| Rating.RatingToDict | models/rating.py:138-153 | the strategy and date codes decode back; the grade code and composite are copied |
| CatalystTracker.CatalystPriority | collectors/catalyst_tracker.py:20-31 | base priority lies in [20, 95] and is at least 80 exactly for the binary types |
| CatalystTracker.StageMultiplier | collectors/catalyst_tracker.py:34-46 | the multiplier lies in [0.30, 1.0]; it is 1.0 unless the stage is set and the type binary, and 0.70 for an unknown stage |
| CatalystTracker.SentimentAdjustment | collectors/catalyst_tracker.py:158-165 | +8 / +4 / 0 / -4 / -8 from strong buy to strong sell |
| CatalystTracker.WithEndpointBonus | collectors/catalyst_tracker.py:154-155 | the +5 bonus is added exactly when the endpoint text is longer than 10 characters |
| CatalystTracker.CatalystQualityScore | collectors/catalyst_tracker.py:131-167 | the catalyst quality lies in [0, 100] |
| CatalystTracker.CatalystQualityMonotoneInSentiment | collectors/catalyst_tracker.py:154-167 | a more bullish tag never lowers catalyst quality |
| CatalystTracker.EndpointNeverLowersQuality | collectors/catalyst_tracker.py:154-155 | adding a primary endpoint never lowers catalyst quality |
| CatalystTracker.QualityMonotoneInBonus | collectors/catalyst_tracker.py:154-167 | with no smaller stage-and-endpoint score and no less bullish sentiment, catalyst quality is no lower |
| CatalystTracker.StageIgnoredForNonBinary | collectors/catalyst_tracker.py:143-151 | the pipeline stage does not affect a non-binary event |
| CatalystTracker.PdufaStrongBuyQuality | collectors/catalyst_tracker.py:131-167 | a PDUFA event at the "PDUFA date" stage with strong buy and no endpoint scores 98.25 |
| CatalystTracker.CompetitiveMoatScore | collectors/catalyst_tracker.py:170-184 | the moat lies in [20, 85]; it is 85 exactly with no competitor and 20 exactly with seven or more |
| CatalystTracker.MoatNonIncreasing | collectors/catalyst_tracker.py:175-184 | more competitors never raise the moat |
| CatalystTracker.EventIdFor | collectors/catalyst_tracker.py:68 | the id's length is the ticker's plus 12 plus the suffix's |
| CatalystTracker.EventIdLayout | collectors/catalyst_tracker.py:68 | the id is the upper-cased ticker, "_", the ISO date (which parses back), "_", the first 8 characters of the suffix |
| CatalystTracker.EventIdDistinguishes | collectors/catalyst_tracker.py:68 | for one ticker, equal ids mean equal dates and equal suffixes |
| CatalystTracker.CreateEvent | collectors/catalyst_tracker.py:49-94 | a created event has the upper-cased ticker and the built id. It is pending with empty outcome notes and no moves. Type, date, sentiment, company, description, stage, indication, endpoint and analyst notes are the arguments. Each list is the one given, or empty when none is given. It has a context exactly when one was requested and fetched, and then it is the fetched one |
| CatalystTracker.ResolveEvent | collectors/catalyst_tracker.py:97-128 | outcome and notes are always set; the moves are replaced only when fetching is on and succeeded; nothing else changes |
| CatalystTracker.TrackedEvent.Resolve | collectors/catalyst_tracker.py:97-128 | the object's event becomes `ResolveEvent` of its old event, and the same object is returned |
| CatalystTracker.UpcomingMembers | collectors/catalyst_tracker.py:196-202 | exactly the pending events on or after the cut-off, of a listed type when types are listed |
| CatalystTracker.UpcomingAppend | collectors/catalyst_tracker.py:196-202 | filtering distributes over concatenation, so the kept events stay in input order |
| CatalystTracker.UpcomingExact | collectors/catalyst_tracker.py:196-202 | each upcoming event is kept exactly as often as it occurs, every other event dropped |
| CatalystTracker.InsertByDate | collectors/catalyst_tracker.py:203 | inserting adds exactly one element |
| CatalystTracker.InsertByDateSorted | collectors/catalyst_tracker.py:203 | inserting into a date-sorted list keeps it sorted |
| CatalystTracker.SortByDate | collectors/catalyst_tracker.py:203 | the result is sorted by date and a permutation of the input |
| CatalystTracker.SortByDateStable | collectors/catalyst_tracker.py:203 | events on the same date keep their input order |
| CatalystTracker.FilterUpcomingEvents | collectors/catalyst_tracker.py:187-203 | sorted by date; a permutation of the kept events; an event is in the result exactly when it is an input event that is pending, not before the cut-off (default today) and of a listed type |
| CatalystTracker.FilterUpcomingKeepsSameDayOrder | collectors/catalyst_tracker.py:187-203 | same-day events come out in input order |
| MarketData.BullishScore | collectors/market_data.py:113-126 | the bullish score lies in [-4, 4] |
| MarketData.TrendLabel | collectors/market_data.py:128-132 | the label's rank follows the thresholds >= 3, >= 1, <= -3, <= -1, else neutral |
| MarketData.ClassifySectorTrend | collectors/market_data.py:100-132 | one of the five labels, and "neutral" whenever the SPY return is missing |
| MarketData.VixAbove35CountsAsAbove25 | collectors/market_data.py:122-124 | a VIX above 35 counts the same as one above 25: one point off, never two |
| MarketData.TrendMonotoneInSpy | collectors/market_data.py:113-132 | a higher SPY return never gives a more risk-off label |
| MarketData.TrendMonotoneInXbi | collectors/market_data.py:118-132 | a higher XBI return never gives a more risk-off label |
| MarketData.TrendAntitoneInVix | collectors/market_data.py:121-132 | a higher VIX never gives a more risk-on label |
| MarketData.DescribeMacroEvent | collectors/market_data.py:20-30 | a known code, in any case, gives its description; any other code gives "Unknown macro release: " and the code |
| MarketData.DescribeMacroEventIgnoresCase | collectors/market_data.py:183-185 | a known code and its upper-cased form describe alike |
| Scorer.IvEnvironmentScore | engine/scorer.py:22-57 | with a rank: 80 exactly on [40, 70], 65 on [20, 40), 55 above 70, 40 below 20; without: 62 / 68 / 55 / 60 by type |
| Scorer.TrendBase | engine/scorer.py:73-80 | the trend's base score lies in [15, 85], and is 50 for a missing trend |
| Scorer.TrendBaseFollowsRank | engine/scorer.py:73-80 | a label further toward risk-on never has a lower base, which links the scorer to the trend classifier |
| Scorer.MarketContextScore | engine/scorer.py:64-90 | 50 without context; otherwise the trend base, moved 10 toward the XBI return's sign (beyond 3 either way) for binary types with a known return; always in [0, 100] |
| Scorer.SentimentAlignmentScore | engine/scorer.py:97-108 | the alignment lies in [10, 90] |
| Scorer.SentimentAlignmentIncreasing | engine/scorer.py:101-107 | a more bullish tag always aligns strictly higher |
| Scorer.CountSameKind | engine/scorer.py:128-133 | the resolved past events of the same ticker and type never outnumber the past events |
| Scorer.CountFavourable | engine/scorer.py:137-140 | the positive or mixed same-kind past events never outnumber the same-kind ones |
| Scorer.HistoricalAccuracyScore | engine/scorer.py:115-142 | in [0, 100]. 50 without history or without a resolved past event of the same ticker and type. Otherwise the share of those that were positive or mixed, as a percentage rounded to two places |
| Scorer.UnrelatedHistoryIgnored | engine/scorer.py:128-133 | a past event of another ticker or type, or still pending, does not change the score |
| Scorer.HistoryAllFavourable | engine/scorer.py:137-142 | when every same-kind resolved event was positive or mixed the score is 100 |
| Scorer.HistoryNoneFavourable | engine/scorer.py:137-142 | when none of the same-kind resolved events was positive or mixed the score is 0 |
| Scorer.RiskRewardScore | engine/scorer.py:149-167 | the risk-reward score lies in [15, 85] and is at least 70 exactly for the binary types |
| Scorer.RecommendStrategy | engine/scorer.py:174-214 | the whole table. Binary and earnings events get a bull call spread at alignment >= 70 and a bear put spread at <= 30. In between, binary events get a straddle and earnings an iron condor. A partnership gets a long call at >= 65 and a bull call spread below. Macro releases get a calendar spread. Every other type gets a straddle. No other strategy is ever recommended |
| Scorer.EarningsDiffersOnlyWhenNeutral | engine/scorer.py:190-204 | a binary event and an earnings event get different strategies exactly in the neutral band |
| Scorer.StrategyDelta | engine/scorer.py:275-283 | the delta is negative exactly for the bearish strategies |
| Scorer.SuggestedDelta | engine/scorer.py:275-283 | the suggested delta is one of 0.35, 0.40, 0.45, and 0.45 exactly for the directional strategies |
| Scorer.GradeRisk | engine/scorer.py:286-295 | the risk cap is half a percent per grade step above F: 0 to 3.0 |
| Scorer.GradeRiskMonotone | engine/scorer.py:286-295 | a better grade never gets a smaller risk cap |
| Scorer.TargetExpiryDays | engine/scorer.py:271-272 | 35 days exactly for the binary types, else 21 |
| Scorer.Breakdown | engine/scorer.py:244-260 | every sub-score of an event lies in [0, 100] |
| Scorer.AutoConfidence | engine/scorer.py:266-268 | the automatic confidence lies in [0, 100] and within half a hundredth of the mean of catalyst quality and historical accuracy |
| Scorer.RateBreakdown | engine/scorer.py:262-312 | the rating built from a breakdown: linked to the event, dated today, carrying that breakdown with composite and grade derived under the default weights; the table's strategy for the alignment, the type's expiry, a delta of 0.35, 0.40 or 0.45 matching the strategy, the risk cap of the grade under the custom weights, the override or else the automatic confidence, the notes of the event and no flags |
| Scorer.ScoreEvent | engine/scorer.py:221-318 | fails exactly when the event has no id. Otherwise the rating links to the event, is dated today and carries the event's breakdown. Its composite and grade are derived under the default weights. Its risk cap comes from the grade under the custom weights. The strategy is the table's pick for the event's alignment. Expiry is the type's heuristic. The delta is the magnitude of that strategy's delta. Confidence is the override, or else the automatic confidence: the mean of catalyst quality and historical accuracy rounded to two places. The notes name the type, stage and sentiment |
| Scorer.DefaultWeightsRiskMatchesGrade | engine/scorer.py:262-295 | without custom weights the risk cap matches the rating's own grade |
| Scorer.UnrelatedWeightsCapRiskAtZero | engine/scorer.py:262-295 | custom weights naming none of the keys cap the risk at 0 whatever the rating's grade |
| Scorer.PdufaExampleWithoutContext | engine/scorer.py:221-318 | the FDA-decision example without context or history scores 79.56, grade B+, with a bull call spread |
| Scorer.CustomWeightsGradeRiskMismatch | engine/scorer.py:262-312 | a rating graded B+ can carry a 0 % risk cap, not B+'s 2 % |
| Scorer.NeutralEarningsExample | engine/scorer.py:53-54 | a neutral earnings event without IV rank scores IV 68 and gets an iron condor |
| Comparator.OutperformedMarket | engine/comparator.py:49-53 | unknown exactly when the SPY alpha is; true exactly when the alpha is positive |
| Comparator.OutperformedSector | engine/comparator.py:55-59 | unknown exactly when the XBI alpha is; true exactly when the alpha is positive |
| Comparator.BuildComparison | engine/comparator.py:62-85 | moves copied from the event; alphas from its relative moves; the codes decode back; rating fields present exactly when a rating is given |
| Comparator.OutperformedMarketMeansBeatSpy | engine/comparator.py:49-53 | "outperformed" implies the stock beat SPY; not beating SPY gives false; a lead of 0.0001 or more gives true |
| Comparator.OutperformedSectorMeansBeatXbi | engine/comparator.py:55-59 | the same against XBI |
| Comparator.ComparableEvents | engine/comparator.py:97-100 | every kept event is resolved with a move, and none is added |
| Comparator.ComparableEventsExact | engine/comparator.py:97-100 | each resolved event with a move is kept as often as it occurs, every other event dropped |
| Comparator.ComparableEventsAppend | engine/comparator.py:97-100 | filtering distributes over concatenation, so input order is kept |
| Comparator.LinkedRating | engine/comparator.py:96-102 | a rating is linked exactly when the mapping holds the event's id, or "" for an event without one |
| Comparator.BatchCompare | engine/comparator.py:88-106 | one comparison per comparable event, in order, each built from the event and its linked rating |
| Comparator.BatchCompareAppend | engine/comparator.py:88-106 | comparing two batches in turn is comparing them together |
| Comparator.UnfetchedResolutionNotCompared | engine/comparator.py:97-100 | an event resolved while the move provider failed, with no move recorded before, is not compared |
| Comparator.Present | engine/comparator.py:145 | the present values are none exactly when every value is missing |
| Comparator.SafeAvg | engine/comparator.py:144-148 | None exactly when every value is missing |
| Comparator.SafeAvgIgnoresMissing | engine/comparator.py:145 | a missing value does not change the average |
| Comparator.SafeAvgWithin | engine/comparator.py:144-148 | the average lies between the rounded bounds of the values present |
| Comparator.CountOutperformMarket | engine/comparator.py:168 | no more comparisons beat SPY than there are |
| Comparator.CountOutperformSector | engine/comparator.py:169 | no more comparisons beat XBI than there are |
| Comparator.CountPositiveOutcomes | engine/comparator.py:173-176 | no more events are positive or mixed than there are |
| Comparator.ComputeStats | engine/comparator.py:151-191 | the count is the number of comparisons. An empty set gives nothing else. Otherwise: None-aware averages; outperformance percentages over all n, in [0, 100]; the positive-outcome rate present exactly when events are given, computed over them, in [0, 100] |
| Comparator.MissingAlphasScoreZero | engine/comparator.py:168-188 | with no SPY alpha at all the outperformance is 0 % (not unknown) and the average alpha unknown |
| Comparator.PositiveRateIgnoresComparisons | engine/comparator.py:171-178 | the positive-outcome rate does not depend on which comparisons were built |
| EventStore.EventToRecord | storage/event_store.py:34-48 | the record is the event's dictionary with its market context |
| EventStore.RecordToEvent | storage/event_store.py:51-84 | decoding succeeds exactly when every code and the date parse; id and ticker come from the record |
| EventStore.EventRecordRoundTrip | storage/event_store.py:34-84 | decoding an encoded event gives the event back |
| EventStore.RecordToRating | storage/event_store.py:91-114 | decoding succeeds exactly when the date and strategy parse; composite and grade are derived under the default weights |
| EventStore.RatingRecordRoundTrip | storage/event_store.py:87-114 | decoding an encoded rating gives it back re-derived under the default weights, unchanged when already so derived |
| EventStore.StoredScoreIgnored | storage/event_store.py:91-114 | the stored composite and grade are never read back |
| EventStore.EncodeEvents | storage/event_store.py:163 | one record per event |
| EventStore.DecodeEvents | storage/event_store.py:151 | a successful decode has one event per record, each the decoding of its record |
| EventStore.DecodeAll | storage/event_store.py:151 | a successful decode has one item per record, each the decoding of its record |
| EventStore.DecodeAllFails | storage/event_store.py:151 | the whole decode fails exactly when some record fails to decode |
| EventStore.DecodeAllSome | storage/event_store.py:151 | records that each decode to their item decode, as a whole, to those items |
| EventStore.DecodeEncodeEvents | storage/event_store.py:144-163 | a written event list loads back unchanged |
| EventStore.DecodedRatingsDerived | storage/event_store.py:203-215 | every loaded rating is derived under the default weights |
| EventStore.EncodeRatings | storage/event_store.py:222 | one record per rating |
| EventStore.DecodeRatings | storage/event_store.py:210 | a successful decode has one rating per record, each the decoding of its record |
| EventStore.DecodeEncodeRatings | storage/event_store.py:203-226 | a written rating list loads back re-derived under the default weights |
| EventStore.NormalizedDerived | storage/event_store.py:203-226 | ratings already derived under the default weights load back unchanged |
| EventStore.LoadEventsFrom | storage/event_store.py:144-156 | empty when the file is missing, unreadable or fails to decode; otherwise the decoded list |
| EventStore.LoadRatingsFrom | storage/event_store.py:203-215 | the same for ratings, every one derived under the default weights |
| EventStore.FirstIndex | storage/event_store.py:174-177 | none exactly when the key is absent; otherwise a position holding it with none before |
| EventStore.FirstIndexAfterUpsert | storage/event_store.py:173-183 | after an upsert the key's first position is where it was, or the new last slot |
| EventStore.FindFirst | storage/event_store.py:174-177 | the loop finds the first position holding the key |
| EventStore.Upsert | storage/event_store.py:173-182 | an existing key is replaced in place at its first position, same length; a new one is appended; every other entry stays |
| EventStore.UpsertIdempotent | storage/event_store.py:173-182 | upserting the same entry twice equals upserting it once |
| EventStore.UpsertEvent | storage/event_store.py:169-184 | the event is in the result; the id list is upserted alike, so the id first occurs where the event was put |
| EventStore.UpsertEventIdempotent | storage/event_store.py:169-184 | saving an event twice equals saving it once |
| EventStore.FindEvent | storage/event_store.py:186-190 | none exactly when no stored event has the id; otherwise a stored event with that id |
| EventStore.FindAfterUpsert | storage/event_store.py:169-190 | getting an id just saved returns the saved event |
| EventStore.WithoutEvent | storage/event_store.py:195 | no event with the id survives, and the list does not grow |
| EventStore.WithoutEventAppend | storage/event_store.py:195 | deleting distributes over concatenation, so the survivors keep their order |
| EventStore.WithoutEventExact | storage/event_store.py:195 | each event without the id is kept exactly as often as it occurs; each one with it is dropped |
| EventStore.WithoutEventShorter | storage/event_store.py:195-197 | the list keeps its length exactly when no event has the id |
| EventStore.WithoutEventKeeps | storage/event_store.py:195 | every event without the id survives |
| EventStore.FindAfterDelete | storage/event_store.py:192-199 | nothing with the id is found after a delete |
| EventStore.UpsertRating | storage/event_store.py:228-239 | the rating is in the result; the id list is upserted alike, so the id first occurs where the rating was put |
| EventStore.UpsertRatingIdempotent | storage/event_store.py:228-239 | saving a rating twice equals saving it once |
| EventStore.NormalizedUpsert | storage/event_store.py:228-239 | re-deriving commutes with the rating upsert |
| EventStore.RatingsMap | storage/event_store.py:241-243 | the map's keys are exactly the stored ratings' event ids |
| EventStore.RatingsMapLastWins | storage/event_store.py:241-243 | for each id the map holds the last rating with that id |
| EventStore.ExportViewEntry | storage/event_store.py:254-261 | the export has one entry per event, the i-th built from the i-th event |
| EventStore.ExportViewFaithful | storage/event_store.py:254-261 | each exported record decodes back to its event and carries the rating stored under its id, or none |
| EventStore.ExportRecords | storage/event_store.py:257-261 | the loop builds exactly the export view of the events |
| EventStore.EventStore.constructor | storage/event_store.py:133-140 | the store starts on the two given files |
| EventStore.EventStore.SaveEvents | storage/event_store.py:158-167 | the events file is overwritten and loads back as the list given; ratings untouched |
| EventStore.EventStore.SaveEvent | storage/event_store.py:169-184 | the loaded events become the upsert of the old ones; the file is rewritten; ratings untouched |
| EventStore.EventStore.GetEvent | storage/event_store.py:186-190 | returns the first stored event with the id, or none |
| EventStore.EventStore.DeleteEvent | storage/event_store.py:192-199 | reports removal exactly when some event had the id. If none did, the file is left as it was. Otherwise the events load back without that id. Ratings are untouched |
| EventStore.EventStore.SaveRatings | storage/event_store.py:217-226 | the ratings file is overwritten and loads back re-derived; events untouched |
| EventStore.EventStore.SaveRating | storage/event_store.py:228-239 | the file holds the upsert with the rating as given; a reload gives the upsert with it re-derived; events untouched |
| EventStore.EventStore.RatingsByEvent | storage/event_store.py:241-243 | the map's keys are exactly the loaded ratings' event ids |
| EventStore.EventStore.ExportJson | storage/event_store.py:245-261 | the export is one record per loaded event, in order, with its rating when ratings are included |

## Left out

- File handling is replaced by a file state per collection: `open`, JSON text, the data directory and its environment variable. A file is missing, unreadable, or a list of records. A record with a missing key or a wrongly typed value is not modelled; only unparseable codes and dates count as decode failures.
- A write failure in `save_events` / `save_ratings` re-raises; the model's writes always succeed.
- `date.fromisoformat` accepts more layouts than `YYYY-MM-DD` in newer Python versions; only that layout, which the store writes, is modelled.
- The network and the market data provider are not modelled: `fetch_price_return`, `fetch_vix_level`, `build_market_context`, `fetch_post_event_moves`. Their answers become parameters: `ContextFetch` for `create_event`, `MovesFetch` for `resolve_event`. Either may report failure.
- `date.today()` and `uuid.uuid4()` become the parameters `today` and `uuidText`.
- Logging, `print_comparison_table`, `get_macro_calendar` and the command-line interface in `cli.py` are presentation only and not modelled.
- Scores are exact reals, not IEEE doubles. `round(x, 2)` and `round(x, 4)` are round-half-even on the exact value, so the model does not capture binary representation error.
- `upper()` is ASCII upper-casing; Unicode case mapping is not modelled.
- `CatalystTracker.ResolveEvent` is the value that `resolve_event` leaves. `CatalystTracker.TrackedEvent` models the in-place update of one object, but aliasing between several references to the same event is not modelled.
- The load, modify and save cycle of the store assumes a single writer; concurrent access is not modelled.
- `Comparator.SafeAvg`: it does not restate the mean as a formula in its contract. The mean of the present values is stated through `SafeAvgIgnoresMissing` and `SafeAvgWithin`.
- `EventStore.RecordToEvent`: a stored market context that is an empty object would decode as none. The store always writes all five keys, so the model keeps the context as it was written.
