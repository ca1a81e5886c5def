/**
 * The persistence layer: two record files, one for events and one for
 * ratings, each read whole, changed, and written whole. A file is modelled
 * by its state (missing, unreadable, or a list of records) instead of a path.
 */
module EventStore {
  import opened Wrappers
  import opened Dates
  import opened Event
  import opened Rating

  /** What a load finds at a path. */
  datatype StoredFile<T> = Missing | Unreadable | Stored(records: seq<T>)

  // ---------------------------------------------------------------------
  // Records
  // ---------------------------------------------------------------------

  /** `_event_to_dict`: the event's `to_dict()` plus its market context. */
  datatype EventRecord = EventRecord(fields: EventDict, marketContext: Option<MarketContext>)

  function EventToRecord(e: BiotechEvent): (rec: EventRecord)
    ensures rec.fields == ToDict(e) && rec.marketContext == e.marketContext
  {
    EventRecord(ToDict(e), e.marketContext)
  }

  /**
   * `_dict_to_event`: fails when a code or the date does not parse; the
   * stored relative moves are not read back.
   */
  function RecordToEvent(rec: EventRecord): (r: Option<BiotechEvent>)
    ensures r.Some? <==> && EventTypeFromCode(rec.fields.eventType).Some?
                         && ParseIso(rec.fields.eventDate).Some?
                         && SentimentFromCode(rec.fields.sentiment).Some?
                         && OutcomeFromCode(rec.fields.outcome).Some?
    ensures r.Some? ==> r.value.eventId == rec.fields.eventId && r.value.ticker == rec.fields.ticker
  {
    var d := rec.fields;
    var eventType := EventTypeFromCode(d.eventType);
    var eventDate := ParseIso(d.eventDate);
    var sentiment := SentimentFromCode(d.sentiment);
    var outcome := OutcomeFromCode(d.outcome);
    if eventType.None? || eventDate.None? || sentiment.None? || outcome.None? then None
    else
      Some(BiotechEvent(d.ticker, d.companyName, eventType.value, eventDate.value, d.description,
                        sentiment.value, d.analystNotes, d.pipelineStage, d.indication,
                        d.primaryEndpoint, d.competingDrugs, rec.marketContext, outcome.value,
                        d.actualMovePct, d.spyMovePct, d.xbiMovePct, d.ivCrushPct, d.outcomeNotes,
                        d.eventId, d.tags))
  }

  /** Decoding an encoded event gives the event back. */
  lemma EventRecordRoundTrip(e: BiotechEvent)
    ensures RecordToEvent(EventToRecord(e)) == Some(e)
  {
    ToDictDecodes(e);
  }

  /**
   * `_dict_to_rating`: fails when the date or the strategy does not parse;
   * composite and grade are derived again from the breakdown under the
   * default weights, whatever the record holds.
   */
  function RecordToRating(d: RatingDict): (r: Option<RatingValue>)
    ensures r.Some? <==> ParseIso(d.ratingDate).Some? && StrategyFromCode(d.recommendedStrategy).Some?
    ensures r.Some? ==> Derived(r.value, None)
    ensures r.Some? ==> r.value.eventId == d.eventId && r.value.scoreBreakdown == d.scoreBreakdown
  {
    var ratingDate := ParseIso(d.ratingDate);
    var strategy := StrategyFromCode(d.recommendedStrategy);
    if ratingDate.None? || strategy.None? then None
    else
      Some(Construct(d.eventId, d.ticker, ratingDate.value, strategy.value, d.scoreBreakdown,
                     d.confidencePct, d.targetExpiryDays, d.suggestedDelta, d.maxRiskPctPort,
                     d.notes, d.analystFlags))
  }

  /** Decoding an encoded rating gives it back with composite and grade under the default weights. */
  lemma RatingRecordRoundTrip(r: RatingValue)
    ensures RecordToRating(RatingToDict(r)) == Some(Refreshed(r, None))
    ensures Derived(r, None) ==> RecordToRating(RatingToDict(r)) == Some(r)
  {
    RefreshedIdempotent(r, None);
  }

  /** The composite and grade written to a record are never read back. */
  lemma StoredScoreIgnored(d: RatingDict, score: real, grade: string)
    ensures RecordToRating(d.(compositeScore := score, grade := grade)) == RecordToRating(d)
  {
  }

  function EncodeEvents(es: seq<BiotechEvent>): (recs: seq<EventRecord>)
    ensures |recs| == |es|
  {
    seq(|es|, i requires 0 <= i < |es| => EventToRecord(es[i]))
  }

  /** Decodes every record with `decode`, in order, or fails as a whole when one record fails. */
  function DecodeAll<R, T>(decode: R -> Option<T>, recs: seq<R>): (r: Option<seq<T>>)
    ensures r.Some? ==> |r.value| == |recs|
    ensures r.Some? ==> forall i :: 0 <= i < |recs| ==> decode(recs[i]) == Some(r.value[i])
  {
    if recs == [] then Some([])
    else
      var init := DecodeAll(decode, recs[..|recs| - 1]);
      var last := decode(recs[|recs| - 1]);
      if init.None? || last.None? then None else Some(init.value + [last.value])
  }

  /** The whole decode fails exactly when some record fails to decode. */
  lemma {:induction false} DecodeAllFails<R, T>(decode: R -> Option<T>, recs: seq<R>)
    ensures DecodeAll(decode, recs).None? <==> exists i :: 0 <= i < |recs| && decode(recs[i]).None?
  {
    if recs != [] {
      var n := |recs| - 1;
      DecodeAllFails(decode, recs[..n]);
      if DecodeAll(decode, recs[..n]).None? {
        var i :| 0 <= i < n && decode(recs[..n][i]).None?;
        assert recs[..n][i] == recs[i];
      }
    }
  }

  /** Records that each decode to their item decode, as a whole, to those items. */
  lemma {:induction false} DecodeAllSome<R, T>(decode: R -> Option<T>, recs: seq<R>, xs: seq<T>)
    requires |recs| == |xs|
    requires forall i :: 0 <= i < |recs| ==> decode(recs[i]) == Some(xs[i])
    ensures DecodeAll(decode, recs) == Some(xs)
  {
    if recs != [] {
      var n := |recs| - 1;
      assert forall i :: 0 <= i < n ==> recs[..n][i] == recs[i] && xs[..n][i] == xs[i];
      DecodeAllSome(decode, recs[..n], xs[..n]);
      assert xs == xs[..n] + [xs[n]];
    }
  }

  /** `_load_events`' decoding: every record, or failure as a whole. */
  function DecodeEvents(recs: seq<EventRecord>): (r: Option<seq<BiotechEvent>>)
    ensures r.Some? ==> |r.value| == |recs|
    ensures r.Some? ==> forall i :: 0 <= i < |recs| ==> RecordToEvent(recs[i]) == Some(r.value[i])
  {
    DecodeAll(RecordToEvent, recs)
  }

  lemma DecodeEncodeEvents(es: seq<BiotechEvent>)
    ensures DecodeEvents(EncodeEvents(es)) == Some(es)
  {
    var recs := EncodeEvents(es);
    forall i | 0 <= i < |recs|
      ensures RecordToEvent(recs[i]) == Some(es[i])
    {
      EventRecordRoundTrip(es[i]);
    }
    DecodeAllSome(RecordToEvent, recs, es);
  }

  function EncodeRatings(rs: seq<RatingValue>): (recs: seq<RatingDict>)
    ensures |recs| == |rs|
  {
    seq(|rs|, i requires 0 <= i < |rs| => RatingToDict(rs[i]))
  }

  /** `_load_ratings`' decoding: every record, or failure as a whole. */
  function DecodeRatings(recs: seq<RatingDict>): (r: Option<seq<RatingValue>>)
    ensures r.Some? ==> |r.value| == |recs|
    ensures r.Some? ==> forall i :: 0 <= i < |recs| ==> RecordToRating(recs[i]) == Some(r.value[i])
  {
    DecodeAll(RecordToRating, recs)
  }

  /** Every decoded rating has composite and grade derived under the default weights. */
  lemma DecodedRatingsDerived(recs: seq<RatingDict>)
    requires DecodeRatings(recs).Some?
    ensures forall i :: 0 <= i < |recs| ==> Derived(DecodeRatings(recs).value[i], None)
  {
  }

  /** Every rating as a reload sees it: re-derived under the default weights. */
  function Normalized(rs: seq<RatingValue>): (r: seq<RatingValue>)
    ensures |r| == |rs|
  {
    seq(|rs|, i requires 0 <= i < |rs| => Refreshed(rs[i], None))
  }

  lemma DecodeEncodeRatings(rs: seq<RatingValue>)
    ensures DecodeRatings(EncodeRatings(rs)) == Some(Normalized(rs))
  {
    var recs := EncodeRatings(rs);
    forall i | 0 <= i < |recs|
      ensures RecordToRating(recs[i]) == Some(Normalized(rs)[i])
    {
      RatingRecordRoundTrip(rs[i]);
    }
    DecodeAllSome(RecordToRating, recs, Normalized(rs));
  }

  /** Ratings that are already derived under the default weights are their own normal form. */
  lemma NormalizedDerived(rs: seq<RatingValue>)
    requires forall i :: 0 <= i < |rs| ==> Derived(rs[i], None)
    ensures Normalized(rs) == rs
  {
    forall i | 0 <= i < |rs| ensures Normalized(rs)[i] == rs[i] {
      RefreshedIdempotent(rs[i], None);
    }
  }

  /** `load_events`: empty when the file is missing or anything in it fails to decode. */
  function LoadEventsFrom(f: StoredFile<EventRecord>): (es: seq<BiotechEvent>)
    ensures f.Stored? && DecodeEvents(f.records).Some? ==> es == DecodeEvents(f.records).value
    ensures f.Missing? || f.Unreadable? || (f.Stored? && DecodeEvents(f.records).None?) ==> es == []
  {
    if f.Stored? && DecodeEvents(f.records).Some? then DecodeEvents(f.records).value else []
  }

  /** `load_ratings`: empty when the file is missing or anything in it fails to decode. */
  function LoadRatingsFrom(f: StoredFile<RatingDict>): (rs: seq<RatingValue>)
    ensures forall i :: 0 <= i < |rs| ==> Derived(rs[i], None)
    ensures f.Stored? && DecodeRatings(f.records).Some? ==> rs == DecodeRatings(f.records).value
    ensures f.Missing? || f.Unreadable? || (f.Stored? && DecodeRatings(f.records).None?) ==> rs == []
  {
    if f.Stored? && DecodeRatings(f.records).Some? then
      DecodedRatingsDerived(f.records);
      DecodeRatings(f.records).value
    else []
  }

  // ---------------------------------------------------------------------
  // Keyed upsert
  // ---------------------------------------------------------------------

  /** The first position holding `k`, if any. */
  function FirstIndex<K(==)>(keys: seq<K>, k: K): (r: Option<nat>)
    ensures r.None? <==> k !in keys
    ensures r.Some? ==> r.value < |keys| && keys[r.value] == k
    ensures r.Some? ==> forall j :: 0 <= j < r.value ==> keys[j] != k
  {
    if keys == [] then None
    else if keys[0] == k then Some(0)
    else
      var rest := FirstIndex(keys[1..], k);
      if rest.None? then None else Some(rest.value + 1)
  }

  /** Overwrite position `at`, or append when there is none. */
  function UpsertAt<T>(xs: seq<T>, at: Option<nat>, x: T): (r: seq<T>)
    requires at.Some? ==> at.value < |xs|
    ensures |r| == if at.Some? then |xs| else |xs| + 1
  {
    if at.Some? then xs[at.value := x] else xs + [x]
  }

  /** After an upsert of `k`, its first position is where it was, or the new last slot. */
  lemma FirstIndexAfterUpsert<K>(keys: seq<K>, k: K)
    ensures FirstIndex(UpsertAt(keys, FirstIndex(keys, k), k), k) == Some(FirstIndex(keys, k).GetOr(|keys|))
  {
    var at := FirstIndex(keys, k);
    var keys' := UpsertAt(keys, at, k);
    var i := at.GetOr(|keys|);
    forall j | 0 <= j < i ensures keys'[j] != k {
      assert keys'[j] == keys[j];
    }
    FirstIndexIs(keys', k, i);
  }

  /** `next(i for i, k2 in enumerate(keys) if k2 == k)`, as a loop. */
  method FindFirst<K(==)>(keys: seq<K>, k: K) returns (r: Option<nat>)
    ensures r == FirstIndex(keys, k)
  {
    var i := 0;
    while i < |keys|
      invariant 0 <= i <= |keys|
      invariant forall j :: 0 <= j < i ==> keys[j] != k
    {
      if keys[i] == k {
        FirstIndexIs(keys, k, i);
        return Some(i);
      }
      i := i + 1;
    }
    return None;
  }

  lemma FirstIndexIs<K>(keys: seq<K>, k: K, i: nat)
    requires i < |keys| && keys[i] == k && forall j :: 0 <= j < i ==> keys[j] != k
    ensures FirstIndex(keys, k) == Some(i)
  {
    assert keys[i] in keys;
  }

  /**
   * The list update behind `save_event` and `save_rating`: `x`, keyed `k`,
   * replaces the first entry whose key is `k`, or is appended when there is none.
   */
  function Upsert<T, K(==)>(xs: seq<T>, keys: seq<K>, k: K, x: T): (r: seq<T>)
    requires |keys| == |xs|
    ensures k in keys ==> |r| == |xs|
    ensures k !in keys ==> r == xs + [x]
    ensures var i := FirstIndex(keys, k).GetOr(|xs|);
      && r[i] == x
      && forall j :: 0 <= j < |xs| && j != i ==> r[j] == xs[j]
  {
    UpsertAt(xs, FirstIndex(keys, k), x)
  }

  /** Upserting the same entry twice leaves what upserting it once leaves. */
  lemma UpsertIdempotent<T, K>(xs: seq<T>, keys: seq<K>, k: K, x: T)
    requires |keys| == |xs|
    ensures Upsert(Upsert(xs, keys, k, x), UpsertAt(keys, FirstIndex(keys, k), k), k, x) == Upsert(xs, keys, k, x)
  {
    var at := FirstIndex(keys, k);
    var xs' := Upsert(xs, keys, k, x);
    FirstIndexAfterUpsert(keys, k);
    var i := at.GetOr(|xs|);
    assert xs'[i] == x;
    assert xs'[i := x] == xs';
  }

  // ---------------------------------------------------------------------
  // Event collection
  // ---------------------------------------------------------------------

  function EventKeys(es: seq<BiotechEvent>): seq<Option<string>> {
    seq(|es|, i requires 0 <= i < |es| => es[i].eventId)
  }

  /**
   * `save_event`'s list update, keyed by event id. The id list changes the
   * same way, so the saved id now first occurs where the event was put.
   */
  function UpsertEvent(es: seq<BiotechEvent>, e: BiotechEvent): (r: seq<BiotechEvent>)
    ensures e in r
    ensures EventKeys(r) == UpsertAt(EventKeys(es), FirstIndex(EventKeys(es), e.eventId), e.eventId)
    ensures FirstIndex(EventKeys(r), e.eventId) == Some(FirstIndex(EventKeys(es), e.eventId).GetOr(|es|))
  {
    var r := Upsert(es, EventKeys(es), e.eventId, e);
    FirstIndexAfterUpsert(EventKeys(es), e.eventId);
    assert EventKeys(r) == UpsertAt(EventKeys(es), FirstIndex(EventKeys(es), e.eventId), e.eventId);
    r
  }

  /** Saving the same event twice leaves what saving it once leaves. */
  lemma UpsertEventIdempotent(es: seq<BiotechEvent>, e: BiotechEvent)
    ensures UpsertEvent(UpsertEvent(es, e), e) == UpsertEvent(es, e)
  {
    UpsertIdempotent(es, EventKeys(es), e.eventId, e);
  }

  /** `get_event`'s lookup: the first event with the id, None when there is none. */
  function FindEvent(es: seq<BiotechEvent>, id: string): (r: Option<BiotechEvent>)
    ensures r.None? <==> Some(id) !in EventKeys(es)
    ensures r.Some? ==> r.value in es && r.value.eventId == Some(id)
  {
    var at := FirstIndex(EventKeys(es), Some(id));
    if at.Some? then Some(es[at.value]) else None
  }

  /** Getting an id just saved returns the saved event. */
  lemma FindAfterUpsert(es: seq<BiotechEvent>, e: BiotechEvent)
    requires e.eventId.Some?
    ensures FindEvent(UpsertEvent(es, e), e.eventId.value) == Some(e)
  {
    var at := FirstIndex(EventKeys(es), e.eventId);
    assert EventKeys(UpsertEvent(es, e)) == UpsertAt(EventKeys(es), at, e.eventId);
    FirstIndexAfterUpsert(EventKeys(es), e.eventId);
  }

  /** `delete_event`'s list: every event with the id removed, the others in order. */
  function WithoutEvent(es: seq<BiotechEvent>, id: string): (r: seq<BiotechEvent>)
    ensures |r| <= |es|
    ensures forall i :: 0 <= i < |r| ==> r[i].eventId != Some(id)
  {
    if es == [] then []
    else
      var last := es[|es| - 1];
      WithoutEvent(es[..|es| - 1], id) + (if last.eventId != Some(id) then [last] else [])
  }

  /** One more event is kept at the end exactly when it lacks the id. */
  lemma WithoutEventSnoc(es: seq<BiotechEvent>, id: string, i: nat)
    requires i < |es|
    ensures es[i].eventId != Some(id) ==> WithoutEvent(es[..i + 1], id) == WithoutEvent(es[..i], id) + [es[i]]
    ensures es[i].eventId == Some(id) ==> WithoutEvent(es[..i + 1], id) == WithoutEvent(es[..i], id)
  {
    var prefix := es[..i + 1];
    assert prefix[..i] == es[..i] && prefix[i] == es[i];
    assert WithoutEvent(prefix[..i], id) + [] == WithoutEvent(prefix[..i], id);
  }

  /** Deleting distributes over concatenation, so the surviving events keep their order. */
  lemma {:induction false} WithoutEventAppend(a: seq<BiotechEvent>, b: seq<BiotechEvent>, id: string)
    ensures WithoutEvent(a + b, id) == WithoutEvent(a, id) + WithoutEvent(b, id)
    decreases |b|
  {
    if b == [] {
      assert a + b == a;
    } else {
      var init := b[..|b| - 1];
      var last := b[|b| - 1];
      var tail := if last.eventId != Some(id) then [last] else [];
      var ab := a + b;
      assert ab[..|ab| - 1] == a + init;
      assert ab[|ab| - 1] == last;
      assert WithoutEvent(ab, id) == WithoutEvent(a + init, id) + tail;
      assert WithoutEvent(b, id) == WithoutEvent(init, id) + tail;
      WithoutEventAppend(a, init, id);
    }
  }

  /** Each event without the id is kept exactly as often as it occurs; each event with it is dropped. */
  lemma {:induction false} WithoutEventExact(es: seq<BiotechEvent>, id: string)
    ensures forall e :: multiset(WithoutEvent(es, id))[e] == if e.eventId != Some(id) then multiset(es)[e] else 0
  {
    if es != [] {
      var init := es[..|es| - 1];
      var last := es[|es| - 1];
      assert es == init + [last];
      WithoutEventExact(init, id);
    }
  }

  /** Deleting shortens the list exactly when some event has the id. */
  lemma {:induction false} WithoutEventShorter(es: seq<BiotechEvent>, id: string)
    ensures |WithoutEvent(es, id)| == |es| <==> Some(id) !in EventKeys(es)
  {
    if es != [] {
      var init := es[..|es| - 1];
      WithoutEventShorter(init, id);
      assert EventKeys(es) == EventKeys(init) + [es[|es| - 1].eventId];
    }
  }

  /** Every event without the id survives a delete. */
  lemma {:induction false} WithoutEventKeeps(es: seq<BiotechEvent>, id: string, e: BiotechEvent)
    requires e in es && e.eventId != Some(id)
    ensures e in WithoutEvent(es, id)
  {
    var init := es[..|es| - 1];
    if e != es[|es| - 1] {
      assert es == init + [es[|es| - 1]];
      WithoutEventKeeps(init, id, e);
    }
  }

  /** Nothing with the id survives a delete. */
  lemma FindAfterDelete(es: seq<BiotechEvent>, id: string)
    ensures FindEvent(WithoutEvent(es, id), id).None?
  {
    var r := WithoutEvent(es, id);
    forall i | 0 <= i < |r| ensures EventKeys(r)[i] != Some(id) {
    }
  }

  // ---------------------------------------------------------------------
  // Rating collection
  // ---------------------------------------------------------------------

  function RatingKeys(rs: seq<RatingValue>): seq<string> {
    seq(|rs|, i requires 0 <= i < |rs| => rs[i].eventId)
  }

  /**
   * `save_rating`'s list update, keyed by the rating's event id. The id list
   * changes the same way, so the id now first occurs where the rating was put.
   */
  function UpsertRating(rs: seq<RatingValue>, r: RatingValue): (r': seq<RatingValue>)
    ensures r in r'
    ensures RatingKeys(r') == UpsertAt(RatingKeys(rs), FirstIndex(RatingKeys(rs), r.eventId), r.eventId)
    ensures FirstIndex(RatingKeys(r'), r.eventId) == Some(FirstIndex(RatingKeys(rs), r.eventId).GetOr(|rs|))
  {
    var r' := Upsert(rs, RatingKeys(rs), r.eventId, r);
    FirstIndexAfterUpsert(RatingKeys(rs), r.eventId);
    assert RatingKeys(r') == UpsertAt(RatingKeys(rs), FirstIndex(RatingKeys(rs), r.eventId), r.eventId);
    r'
  }

  /** Saving the same rating twice leaves what saving it once leaves. */
  lemma UpsertRatingIdempotent(rs: seq<RatingValue>, r: RatingValue)
    ensures UpsertRating(UpsertRating(rs, r), r) == UpsertRating(rs, r)
  {
    UpsertIdempotent(rs, RatingKeys(rs), r.eventId, r);
  }

  /** Normalizing commutes with the upsert, since it keeps every rating's event id. */
  lemma NormalizedUpsert(rs: seq<RatingValue>, r: RatingValue)
    requires forall i :: 0 <= i < |rs| ==> Derived(rs[i], None)
    ensures Normalized(UpsertRating(rs, r)) == UpsertRating(rs, Refreshed(r, None))
  {
    NormalizedDerived(rs);
    assert RatingKeys(rs) == RatingKeys(rs);
  }

  /** `ratings_by_event`: event id to rating; a later rating for the same id wins. */
  function RatingsMap(rs: seq<RatingValue>): (m: map<string, RatingValue>)
    ensures forall k :: k in m <==> k in RatingKeys(rs)
    ensures forall i :: 0 <= i < |rs| ==> rs[i].eventId in m
  {
    if rs == [] then map[]
    else
      var last := rs[|rs| - 1];
      assert RatingKeys(rs) == RatingKeys(rs[..|rs| - 1]) + [last.eventId];
      RatingsMap(rs[..|rs| - 1])[last.eventId := last]
  }

  /** The map holds, for each id, the last rating with that id. */
  lemma {:induction false} RatingsMapLastWins(rs: seq<RatingValue>, i: nat)
    requires i < |rs| && forall j :: i < j < |rs| ==> rs[j].eventId != rs[i].eventId
    ensures RatingsMap(rs)[rs[i].eventId] == rs[i]
  {
    if i < |rs| - 1 {
      RatingsMapLastWins(rs[..|rs| - 1], i);
    }
  }

  // ---------------------------------------------------------------------
  // Export view
  // ---------------------------------------------------------------------

  /** One exported record: the event and its linked rating, if any. */
  datatype ExportRecord = ExportRecord(event: EventRecord, rating: Option<RatingDict>)

  function ExportEntry(e: BiotechEvent, ratings: map<string, RatingValue>): ExportRecord {
    var key := e.eventId.GetOr("");
    ExportRecord(EventToRecord(e), if key in ratings then Some(RatingToDict(ratings[key])) else None)
  }

  /** `export_json`'s content: one record per event, in order, with the rating linked by id or none. */
  function ExportView(events: seq<BiotechEvent>, ratings: map<string, RatingValue>): (r: seq<ExportRecord>)
    ensures |r| == |events|
  {
    if events == [] then []
    else ExportView(events[..|events| - 1], ratings) + [ExportEntry(events[|events| - 1], ratings)]
  }

  /** One more event adds exactly its own record at the end of the export. */
  lemma ExportViewSnoc(events: seq<BiotechEvent>, ratings: map<string, RatingValue>, i: nat)
    requires i < |events|
    ensures ExportView(events[..i + 1], ratings) == ExportView(events[..i], ratings) + [ExportEntry(events[i], ratings)]
  {
    var prefix := events[..i + 1];
    assert prefix[..i] == events[..i] && prefix[i] == events[i];
  }

  lemma {:induction false} ExportViewEntry(events: seq<BiotechEvent>, ratings: map<string, RatingValue>, i: nat)
    requires i < |events|
    ensures |ExportView(events, ratings)| == |events|
    ensures ExportView(events, ratings)[i] == ExportEntry(events[i], ratings)
  {
    var init := events[..|events| - 1];
    if i < |events| - 1 {
      ExportViewEntry(init, ratings, i);
    }
  }

  /** `export_json`'s loop: one record per event, in order. */
  method ExportRecords(events: seq<BiotechEvent>, ratings: map<string, RatingValue>) returns (records: seq<ExportRecord>)
    ensures records == ExportView(events, ratings)
  {
    records := [];
    for i := 0 to |events|
      invariant records == ExportView(events[..i], ratings)
    {
      ExportViewSnoc(events, ratings, i);
      records := records + [ExportEntry(events[i], ratings)];
    }
    assert events[..|events|] == events;
  }

  /**
   * The export has one record per event, in order: each decodes back to its
   * event and carries a rating exactly when one is stored under the event's id.
   */
  lemma ExportViewFaithful(events: seq<BiotechEvent>, ratings: map<string, RatingValue>, i: nat)
    requires i < |events|
    ensures |ExportView(events, ratings)| == |events|
    ensures RecordToEvent(ExportView(events, ratings)[i].event) == Some(events[i])
    ensures ExportView(events, ratings)[i].rating ==
      if events[i].eventId.GetOr("") in ratings then Some(RatingToDict(ratings[events[i].eventId.GetOr("")])) else None
  {
    ExportViewEntry(events, ratings, i);
    EventRecordRoundTrip(events[i]);
  }

  // ---------------------------------------------------------------------
  // The store
  // ---------------------------------------------------------------------

  /** Persistent store for events and ratings; each operation reads and rewrites a whole file. */
  class EventStore {
    var eventsFile: StoredFile<EventRecord>
    var ratingsFile: StoredFile<RatingDict>

    constructor (eventsFile: StoredFile<EventRecord>, ratingsFile: StoredFile<RatingDict>)
      ensures this.eventsFile == eventsFile && this.ratingsFile == ratingsFile
    {
      this.eventsFile := eventsFile;
      this.ratingsFile := ratingsFile;
    }

    function LoadEvents(): seq<BiotechEvent>
      reads this
    {
      LoadEventsFrom(eventsFile)
    }

    function LoadRatings(): seq<RatingValue>
      reads this
    {
      LoadRatingsFrom(ratingsFile)
    }

    /** `save_events`: overwrite the events file; a reload gives the list back. */
    method SaveEvents(events: seq<BiotechEvent>)
      modifies this
      ensures eventsFile == Stored(EncodeEvents(events)) && ratingsFile == old(ratingsFile)
      ensures LoadEvents() == events
    {
      eventsFile := Stored(EncodeEvents(events));
      DecodeEncodeEvents(events);
    }

    /** `save_event`: load, replace the first event with the same id or append, write back. */
    method SaveEvent(event: BiotechEvent)
      modifies this
      ensures LoadEvents() == UpsertEvent(old(LoadEvents()), event)
      ensures eventsFile == Stored(EncodeEvents(LoadEvents())) && ratingsFile == old(ratingsFile)
    {
      var events := LoadEvents();
      var idx := FindFirst(EventKeys(events), event.eventId);
      if idx.Some? {
        events := events[idx.value := event];
      } else {
        events := events + [event];
      }
      SaveEvents(events);
    }

    /** `get_event`: the first stored event with the id, or None. */
    method GetEvent(eventId: string) returns (r: Option<BiotechEvent>)
      ensures r == FindEvent(LoadEvents(), eventId)
    {
      var events := LoadEvents();
      var idx := FindFirst(EventKeys(events), Some(eventId));
      r := if idx.Some? then Some(events[idx.value]) else None;
    }

    /**
     * `delete_event`: drop every event with the id and report whether any
     * was dropped; when none was, the file is not rewritten.
     */
    method DeleteEvent(eventId: string) returns (removed: bool)
      modifies this
      ensures removed <==> Some(eventId) in EventKeys(old(LoadEvents()))
      ensures !removed ==> eventsFile == old(eventsFile)
      ensures removed ==> LoadEvents() == WithoutEvent(old(LoadEvents()), eventId)
      ensures ratingsFile == old(ratingsFile)
    {
      var events := LoadEvents();
      var kept := [];
      var i := 0;
      while i < |events|
        invariant 0 <= i <= |events|
        invariant kept == WithoutEvent(events[..i], eventId)
        invariant eventsFile == old(eventsFile) && ratingsFile == old(ratingsFile)
      {
        WithoutEventSnoc(events, eventId, i);
        if events[i].eventId != Some(eventId) {
          kept := kept + [events[i]];
        }
        i := i + 1;
      }
      assert events[..i] == events;
      WithoutEventShorter(events, eventId);
      if |kept| == |events| {
        return false;
      }
      SaveEvents(kept);
      return true;
    }

    /** `save_ratings`: overwrite the ratings file; a reload gives the list back, re-derived. */
    method SaveRatings(ratings: seq<RatingValue>)
      modifies this
      ensures ratingsFile == Stored(EncodeRatings(ratings)) && eventsFile == old(eventsFile)
      ensures LoadRatings() == Normalized(ratings)
    {
      ratingsFile := Stored(EncodeRatings(ratings));
      DecodeEncodeRatings(ratings);
    }

    /**
     * `save_rating`: upsert by event id and write back. The file keeps the
     * rating's composite and grade as they are, while a reload derives them
     * again under the default weights.
     */
    method SaveRating(rating: OptionsRating)
      modifies this
      ensures ratingsFile == Stored(EncodeRatings(UpsertRating(old(LoadRatings()), rating.Value())))
      ensures LoadRatings() == UpsertRating(old(LoadRatings()), Refreshed(rating.Value(), None))
      ensures eventsFile == old(eventsFile)
    {
      var ratings := LoadRatings();
      var value := rating.Value();
      var idx := FindFirst(RatingKeys(ratings), value.eventId);
      if idx.Some? {
        ratings := ratings[idx.value := value];
      } else {
        ratings := ratings + [value];
      }
      NormalizedUpsert(old(LoadRatings()), value);
      SaveRatings(ratings);
    }

    /** `ratings_by_event`. */
    function RatingsByEvent(): (m: map<string, RatingValue>)
      reads this
      ensures forall k :: k in m <==> k in RatingKeys(LoadRatings())
    {
      RatingsMap(LoadRatings())
    }

    /**
     * `export_json`, returning the records instead of writing them: one per
     * stored event, in order, with its rating when `includeRatings` holds.
     */
    method ExportJson(includeRatings: bool) returns (records: seq<ExportRecord>)
      ensures records == ExportView(LoadEvents(), if includeRatings then RatingsByEvent() else map[])
    {
      var ratings: map<string, RatingValue> := if includeRatings then RatingsByEvent() else map[];
      records := ExportRecords(LoadEvents(), ratings);
    }
  }
}
