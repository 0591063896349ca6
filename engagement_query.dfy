/** The analytics rules of the engagement page's queries: the fixed timezone
    offset table, the projection of each event's UTC timestamp into its user's
    local hour and day of week, the event scoring table and allow-list, the
    joins that decide which events count, the grouped engagement totals, and the
    weighted per-event-type totals. Tables are given as materialised values. */
module EngagementQuery {

  import opened Wrappers
  import opened Folds
  import opened LexOrder
  import opened GroupBy
  import opened EventTypes

  // ---------------------------------------------------------------------
  // Timezone offset table
  // ---------------------------------------------------------------------

  /** Fixed UTC offsets in whole hours; no daylight-saving rules. */
  const TimezoneOffsets: map<string, int> := map[
    "America/New_York" := -4,
    "America/Los_Angeles" := -7,
    "Europe/London" := 1,
    "Asia/Tokyo" := 9,
    "Australia/Sydney" := 10,
    "Africa/Johannesburg" := 2
  ]

  /** The join against the offset table: a timezone resolves only when it is
      one of the six listed names. */
  function OffsetHours(timezone: string): (r: Option<int>)
    ensures r.Some? <==> timezone in TimezoneOffsets
    ensures r.Some? ==> -7 <= r.value <= 10
  {
    if timezone in TimezoneOffsets then Some(TimezoneOffsets[timezone]) else None
  }

  /** The table holds exactly the six zones with their offsets, all between
      -7 and +10 hours; every other name fails to resolve. */
  lemma OffsetTable(timezone: string)
    ensures OffsetHours(timezone) ==
      if timezone == "America/New_York" then Some(-4)
      else if timezone == "America/Los_Angeles" then Some(-7)
      else if timezone == "Europe/London" then Some(1)
      else if timezone == "Asia/Tokyo" then Some(9)
      else if timezone == "Australia/Sydney" then Some(10)
      else if timezone == "Africa/Johannesburg" then Some(2)
      else None
    ensures OffsetHours(timezone).Some? ==> -7 <= OffsetHours(timezone).value <= 10
  {
  }

  // ---------------------------------------------------------------------
  // Event scoring and the allow-list
  // ---------------------------------------------------------------------

  /** The engagement score of an event type (the CASE of the main query);
      unknown types score 0. */
  function EngagementScore(eventType: string): (score: int)
    ensures 0 <= score <= 3
  {
    if eventType == "like_track" then 2
    else if eventType == "add_track_to_playlist" then 2
    else if eventType == "play_track" then 1
    else if eventType == "share_track" then 3
    else 0
  }

  /** The event types both queries admit. */
  const AllowedTypes: set<string> :=
    {"like_track", "add_track_to_playlist", "play_track", "share_track"}

  /** The weight of an event type in the event-type query (its CASE has no
      ELSE: only the four kinds reach it). */
  function TypeWeight(k: EventKind): (w: int)
    ensures 1 <= w <= 3
    ensures w == EngagementScore(KindName(k))
  {
    match k
    case ShareTrack => 3
    case LikeTrack => 2
    case AddTrackToPlaylist => 2
    case PlayTrack => 1
  }

  /** A type is allowed exactly when it scores above zero, and then it scores
      between 1 and 3; the allowed types are exactly the four kinds. */
  lemma AllowedIffScored(eventType: string)
    ensures eventType in AllowedTypes <==> EngagementScore(eventType) > 0
    ensures eventType in AllowedTypes ==> 1 <= EngagementScore(eventType) <= 3
    ensures eventType in AllowedTypes <==> ParseKind(eventType).Some?
    ensures eventType !in AllowedTypes ==> EngagementScore(eventType) == 0
    ensures EngagementScore("share_track") == 3 && EngagementScore("like_track") == 2
    ensures EngagementScore("add_track_to_playlist") == 2 && EngagementScore("play_track") == 1
  {
  }

  /** Both queries weigh the four kinds alike: share 3, like 2, add to
      playlist 2, play 1. */
  lemma ScoreMatchesWeight(k: EventKind)
    ensures EngagementScore(KindName(k)) == TypeWeight(k)
    ensures KindName(k) in AllowedTypes
    ensures 1 <= TypeWeight(k) <= 3
    ensures TypeWeight(k) == 3 <==> k == ShareTrack
    ensures TypeWeight(k) == 2 <==> k == LikeTrack || k == AddTrackToPlaylist
    ensures TypeWeight(k) == 1 <==> k == PlayTrack
  {
  }

  // ---------------------------------------------------------------------
  // Local-time projection
  // ---------------------------------------------------------------------

  /** SQLite's `%`: the remainder takes the sign of the dividend. */
  function TruncMod(a: int, m: int): int
    requires m > 0
  {
    if a >= 0 then a % m else -((-a) % m)
  }

  /** Whole seconds of an epoch-milliseconds timestamp (`created_at/1000`). */
  function EpochSeconds(createdAt: nat): nat
  {
    createdAt / 1000
  }

  /** Hour of day (0..23) of an instant given in epoch seconds. */
  function HourOfDay(t: int): int
  {
    (t / 3600) % 24
  }

  /** Day of week (0 = Sunday .. 6 = Saturday) of an instant given in epoch
      seconds; 1970-01-01 was a Thursday. */
  function Weekday(t: int): int
  {
    (t / 86400 + 4) % 7
  }

  /** `(utc hour + offset + 24) % 24`. */
  function LocalHour(createdAt: nat, offset: int): (h: int)
    ensures offset >= -24 ==> 0 <= h < 24
  {
    TruncMod(HourOfDay(EpochSeconds(createdAt)) + offset + 24, 24)
  }

  /** The weekday of the instant shifted by `offset` hours. */
  function LocalDayOfWeek(createdAt: nat, offset: int): (d: int)
    ensures 0 <= d < 7
  {
    Weekday(EpochSeconds(createdAt) + offset * 3600)
  }

  /** The local hour is a valid hour for every offset of at least -24 hours,
      which covers every entry of the table; the day is always valid. */
  lemma LocalTimeInRange(createdAt: nat, offset: int)
    requires offset >= -24
    ensures 0 <= LocalHour(createdAt, offset) < 24
    ensures 0 <= LocalDayOfWeek(createdAt, offset) < 7
  {
  }

  lemma ShiftByHours(t: int, k: int)
    ensures (t + k * 3600) / 3600 == t / 3600 + k
  {
    var q, r := t / 3600, t % 3600;
    assert t + k * 3600 == (q + k) * 3600 + r;
  }

  lemma ModAddMultiple(x: int, k: int)
    ensures (x + 24 * k) % 24 == x % 24
  {
    var q, r := x / 24, x % 24;
    assert x + 24 * k == (q + k) * 24 + r;
  }

  /** The modular local hour is the hour of day of the same shifted instant
      whose weekday is reported, so hour and day always describe one local
      moment. */
  lemma LocalHourOfShiftedInstant(createdAt: nat, offset: int)
    requires offset >= -24
    ensures LocalHour(createdAt, offset) == HourOfDay(EpochSeconds(createdAt) + offset * 3600)
  {
    var t := EpochSeconds(createdAt);
    var q := t / 3600;
    ShiftByHours(t, offset);
    ModAddMultiple(q % 24 + offset, 1);
    ModAddMultiple(q % 24 + offset, q / 24);
    assert q % 24 + offset + 24 * (q / 24) == q + offset;
  }


  /** Weekday and local hour together give the hour of the week (counted from
      Sunday 00:00) of the shifted instant. */
  lemma HourOfWeek(t: int)
    ensures Weekday(t) * 24 + HourOfDay(t) == (t / 3600 + 96) % 168
  {
    var q := t / 3600;
    assert t / 86400 == q / 24 by {
      var r := t % 3600;
      assert t == q * 3600 + r;
      var a, b := q / 24, q % 24;
      assert t == a * 86400 + (b * 3600 + r);
    }
    var a, b := q / 24, q % 24;
    var d, e := (a + 4) / 7, (a + 4) % 7;
    assert q + 96 == (a + 4) * 24 + b;
    assert q + 96 == d * 168 + (e * 24 + b);
  }

  /** The reported day of week and local hour of an event are the day and hour
      of one instant: together they give the hour of the week of the
      offset-shifted timestamp. */
  lemma LocalHourOfWeek(createdAt: nat, offset: int)
    requires offset >= -24
    ensures LocalDayOfWeek(createdAt, offset) * 24 + LocalHour(createdAt, offset)
            == (EpochSeconds(createdAt) / 3600 + offset + 96) % 168
  {
    var t := EpochSeconds(createdAt) + offset * 3600;
    LocalHourOfShiftedInstant(createdAt, offset);
    HourOfWeek(t);
    ShiftByHours(EpochSeconds(createdAt), offset);
  }

  // ---------------------------------------------------------------------
  // Rows of the joined tables
  // ---------------------------------------------------------------------

  /** A row of user_events. */
  datatype UserEvent = UserEvent(artistId: int, userId: int, eventType: string, createdAt: nat)

  /** artists (id -> name) and users (id -> timezone), keyed by primary key. */
  type Artists = map<int, string>
  type Users = map<int, string>

  /** An event after the joins and the projection (a row of adjusted_events). */
  datatype AdjustedEvent = AdjustedEvent(
    artistId: int, artistName: string, localHour: int, dayOfWeek: int, score: int)

  /** An event survives the inner joins with artists, users and the offset
      table and the allow-list filter. */
  predicate Qualifies(e: UserEvent, artists: Artists, users: Users)
  {
    && e.artistId in artists
    && e.userId in users
    && users[e.userId] in TimezoneOffsets
    && e.eventType in AllowedTypes
  }

  function Adjust(e: UserEvent, artists: Artists, users: Users): AdjustedEvent
    requires Qualifies(e, artists, users)
  {
    var offset := TimezoneOffsets[users[e.userId]];
    AdjustedEvent(e.artistId, artists[e.artistId],
                  LocalHour(e.createdAt, offset), LocalDayOfWeek(e.createdAt, offset),
                  EngagementScore(e.eventType))
  }

  /** An adjusted event is well formed: a valid local hour and day, a score
      between 1 and 3, and the name of an existing artist. */
  predicate WellFormedAdjusted(a: AdjustedEvent, artists: Artists)
  {
    && 0 <= a.localHour < 24
    && 0 <= a.dayOfWeek < 7
    && 1 <= a.score <= 3
    && a.artistId in artists
    && a.artistName == artists[a.artistId]
  }

  /** The adjusted_events table: the qualifying events, projected, in input
      order. */
  function AdjustedEvents(events: seq<UserEvent>, artists: Artists, users: Users): (r: seq<AdjustedEvent>)
    ensures |r| <= |events|
    ensures forall i :: 0 <= i < |r| ==> WellFormedAdjusted(r[i], artists)
    decreases |events|
  {
    if events == [] then []
    else
      var n := |events| - 1;
      var e := events[n];
      var prefix := AdjustedEvents(events[..n], artists, users);
      if Qualifies(e, artists, users) then
        var offset := TimezoneOffsets[users[e.userId]];
        OffsetTable(users[e.userId]);
        LocalTimeInRange(e.createdAt, offset);
        AllowedIffScored(e.eventType);
        prefix + [Adjust(e, artists, users)]
      else
        prefix
  }

  function QualifyingOne(artists: Artists, users: Users): UserEvent -> int
  {
    e => if Qualifies(e, artists, users) then 1 else 0
  }

  /** Exactly the qualifying events reach adjusted_events. */
  lemma {:induction false} AdjustedEventsCount(events: seq<UserEvent>, artists: Artists, users: Users)
    ensures |AdjustedEvents(events, artists, users)| == SumBy(events, QualifyingOne(artists, users))
    decreases |events|
  {
    if events != [] {
      AdjustedEventsCount(events[..|events| - 1], artists, users);
    }
  }

  /** adjusted_events is computed row by row: the result for a concatenation
      is the concatenation of the results. */
  lemma {:induction false} AdjustedEventsAppend(xs: seq<UserEvent>, ys: seq<UserEvent>, artists: Artists, users: Users)
    ensures AdjustedEvents(xs + ys, artists, users)
            == AdjustedEvents(xs, artists, users) + AdjustedEvents(ys, artists, users)
    decreases |ys|
  {
    if ys == [] {
      assert xs + ys == xs;
    } else {
      var n := |ys| - 1;
      assert (xs + ys)[..|xs + ys| - 1] == xs + ys[..n];
      AdjustedEventsAppend(xs, ys[..n], artists, users);
    }
  }

  /** A single event becomes one adjusted row exactly when it qualifies: the
      row carries the artist's name, the local hour and day of week under the
      user's offset, and the CASE score of the event type. */
  lemma AdjustedEventsSingle(e: UserEvent, artists: Artists, users: Users)
    ensures AdjustedEvents([e], artists, users) ==
      if Qualifies(e, artists, users) then
        var offset := TimezoneOffsets[users[e.userId]];
        [AdjustedEvent(e.artistId, artists[e.artistId],
                       LocalHour(e.createdAt, offset), LocalDayOfWeek(e.createdAt, offset),
                       EngagementScore(e.eventType))]
      else []
  {
    assert [e][..0] == [];
  }

  /** An event whose user's timezone is missing from the table is dropped, not
      reported, wherever it stands: the result is as if the event were not
      there. */
  lemma UnknownTimezoneExcluded(xs: seq<UserEvent>, e: UserEvent, ys: seq<UserEvent>, artists: Artists, users: Users)
    requires e.userId in users && users[e.userId] !in TimezoneOffsets
    ensures AdjustedEvents(xs + [e] + ys, artists, users) == AdjustedEvents(xs + ys, artists, users)
  {
    AdjustedEventsSingle(e, artists, users);
    AdjustedEventsAppend(xs, [e], artists, users);
    AdjustedEventsAppend(xs + [e], ys, artists, users);
    AdjustedEventsAppend(xs, ys, artists, users);
  }

  // ---------------------------------------------------------------------
  // Grouped engagement totals
  // ---------------------------------------------------------------------

  /** Grouping key of an adjusted event in ORDER BY order:
      (artist_id, day_of_week, local_hour). */
  function EventKey(a: AdjustedEvent): seq<int>
  {
    [a.artistId, a.dayOfWeek, a.localHour]
  }

  function ScoreRows(adjusted: seq<AdjustedEvent>): (rows: seq<Row>)
    ensures |rows| == |adjusted|
    ensures forall i :: 0 <= i < |rows| ==> rows[i] == Row(EventKey(adjusted[i]), adjusted[i].score)
  {
    seq(|adjusted|, i requires 0 <= i < |adjusted| => Row(EventKey(adjusted[i]), adjusted[i].score))
  }

  /** A row of the grouped result. */
  datatype EngagementRow = EngagementRow(
    artistId: int, artistName: string, localHour: int, dayOfWeek: int,
    totalEngagement: int, eventCount: nat)

  /** A group key that came from a well-formed adjusted event. */
  predicate KeyFromAdjusted(k: seq<int>, artists: Artists)
  {
    |k| == 3 && k[0] in artists && 0 <= k[1] < 7 && 0 <= k[2] < 24
  }

  function ToEngagementRow(g: Group, artists: Artists): EngagementRow
    requires KeyFromAdjusted(g.key, artists)
  {
    EngagementRow(g.key[0], artists[g.key[0]], g.key[2], g.key[1], g.sum, g.count)
  }

  lemma GroupKeysFromAdjusted(adjusted: seq<AdjustedEvent>, artists: Artists)
    requires forall i :: 0 <= i < |adjusted| ==> WellFormedAdjusted(adjusted[i], artists)
    ensures forall i :: 0 <= i < |GroupRows(ScoreRows(adjusted))| ==>
              KeyFromAdjusted(GroupRows(ScoreRows(adjusted))[i].key, artists)
  {
    var rows := ScoreRows(adjusted);
    forall i | 0 <= i < |GroupRows(rows)|
      ensures KeyFromAdjusted(GroupRows(rows)[i].key, artists)
    {
      var j := GroupKeyWitness(rows, i);
    }
  }

  /** The main query's result: one row per (artist, local hour, day of week)
      with the sum of scores and the number of events, ordered by artist, day
      of week and local hour. */
  function EngagementRows(events: seq<UserEvent>, artists: Artists, users: Users): (rows: seq<EngagementRow>)
    ensures forall i :: 0 <= i < |rows| ==>
              && 0 <= rows[i].localHour < 24 && 0 <= rows[i].dayOfWeek < 7
              && rows[i].artistId in artists && rows[i].eventCount >= 1
  {
    var adjusted := AdjustedEvents(events, artists, users);
    var groups := GroupRows(ScoreRows(adjusted));
    GroupKeysFromAdjusted(adjusted, artists);
    seq(|groups|, i requires 0 <= i < |groups| => ToEngagementRow(groups[i], artists))
  }

  function RowKey(r: EngagementRow): seq<int>
  {
    [r.artistId, r.dayOfWeek, r.localHour]
  }

  /** A grouped row carries its group's key. */
  lemma KeyOfRow(g: Group, artists: Artists)
    requires KeyFromAdjusted(g.key, artists)
    ensures RowKey(ToEngagementRow(g, artists)) == g.key
  {
    assert g.key == [g.key[0], g.key[1], g.key[2]];
  }

  /** Rows are strictly ordered by artist, then day of week, then local hour,
      so no (artist, hour, day) key occurs twice. */
  lemma EngagementRowsOrdered(events: seq<UserEvent>, artists: Artists, users: Users, i: int, j: int)
    requires 0 <= i < j < |EngagementRows(events, artists, users)|
    ensures var rows := EngagementRows(events, artists, users);
      rows[i].artistId < rows[j].artistId
      || (rows[i].artistId == rows[j].artistId
          && (rows[i].dayOfWeek < rows[j].dayOfWeek
              || (rows[i].dayOfWeek == rows[j].dayOfWeek && rows[i].localHour < rows[j].localHour)))
  {
    var adjusted := AdjustedEvents(events, artists, users);
    var groups := GroupRows(ScoreRows(adjusted));
    var rows := EngagementRows(events, artists, users);
    OrderedPairwise(groups, i, j);
    GroupKeysFromAdjusted(adjusted, artists);
    KeyOfRow(groups[i], artists);
    KeyOfRow(groups[j], artists);
    TripleLess(rows[i].artistId, rows[i].dayOfWeek, rows[i].localHour,
               rows[j].artistId, rows[j].dayOfWeek, rows[j].localHour);
  }

  function ScoreFor(k: seq<int>): AdjustedEvent -> int
  {
    a => if EventKey(a) == k then a.score else 0
  }

  function HitForKey(k: seq<int>): AdjustedEvent -> int
  {
    a => if EventKey(a) == k then 1 else 0
  }

  lemma {:induction false} ScoreRowsSums(adjusted: seq<AdjustedEvent>, k: seq<int>)
    ensures SumOf(ScoreRows(adjusted), k) == SumBy(adjusted, ScoreFor(k))
    ensures CountOf(ScoreRows(adjusted), k) == SumBy(adjusted, HitForKey(k))
    decreases |adjusted|
  {
    if adjusted != [] {
      var n := |adjusted| - 1;
      assert ScoreRows(adjusted)[..n] == ScoreRows(adjusted[..n]);
      ScoreRowsSums(adjusted[..n], k);
    }
  }

  /** The (artist, day of week, local hour) key a qualifying event takes under
      its user's offset. */
  function LocalKey(e: UserEvent, artists: Artists, users: Users): seq<int>
    requires Qualifies(e, artists, users)
  {
    var offset := TimezoneOffsets[users[e.userId]];
    [e.artistId, LocalDayOfWeek(e.createdAt, offset), LocalHour(e.createdAt, offset)]
  }

  /** The score an input event contributes to the group with key `k`. */
  function EventScoreFor(k: seq<int>, artists: Artists, users: Users): UserEvent -> int
  {
    e => if Qualifies(e, artists, users) && LocalKey(e, artists, users) == k
         then EngagementScore(e.eventType) else 0
  }

  /** Whether an input event is counted in the group with key `k`. */
  function EventHitFor(k: seq<int>, artists: Artists, users: Users): UserEvent -> int
  {
    e => if Qualifies(e, artists, users) && LocalKey(e, artists, users) == k then 1 else 0
  }

  /** Summing over adjusted_events is summing over the input events, each
      qualifying event placed at its local key with its CASE score. */
  lemma {:induction false} AdjustedSumsOverEvents(events: seq<UserEvent>, artists: Artists, users: Users, k: seq<int>)
    ensures SumBy(AdjustedEvents(events, artists, users), ScoreFor(k))
            == SumBy(events, EventScoreFor(k, artists, users))
    ensures SumBy(AdjustedEvents(events, artists, users), HitForKey(k))
            == SumBy(events, EventHitFor(k, artists, users))
    decreases |events|
  {
    if events != [] {
      var n := |events| - 1;
      var e := events[n];
      AdjustedSumsOverEvents(events[..n], artists, users, k);
      if Qualifies(e, artists, users) {
        var prefix := AdjustedEvents(events[..n], artists, users);
        var a := Adjust(e, artists, users);
        assert (prefix + [a])[..|prefix|] == prefix;
        assert EventKey(a) == LocalKey(e, artists, users);
      }
    }
  }

  /** Each row's total is the sum of the scores, and its count the number, of
      the adjusted events with its (artist, day, hour), which are the input
      events that qualify and fall on that local day and hour; each row holds at least
      one event, its local time is valid, its name is the artist's, and its
      total lies between one and three points per event. */
  lemma EngagementRowContents(events: seq<UserEvent>, artists: Artists, users: Users, i: int)
    requires 0 <= i < |EngagementRows(events, artists, users)|
    ensures var r := EngagementRows(events, artists, users)[i];
      var adjusted := AdjustedEvents(events, artists, users);
      && r.totalEngagement == SumBy(adjusted, ScoreFor(RowKey(r)))
      && r.eventCount == SumBy(adjusted, HitForKey(RowKey(r)))
      && r.eventCount >= 1
      && 0 <= r.localHour < 24 && 0 <= r.dayOfWeek < 7
      && r.artistId in artists && r.artistName == artists[r.artistId]
      && r.eventCount <= r.totalEngagement <= 3 * r.eventCount
      && r.totalEngagement == SumBy(events, EventScoreFor(RowKey(r), artists, users))
      && r.eventCount == SumBy(events, EventHitFor(RowKey(r), artists, users))
  {
    var adjusted := AdjustedEvents(events, artists, users);
    var rows := ScoreRows(adjusted);
    var groups := GroupRows(rows);
    var r := EngagementRows(events, artists, users)[i];
    GroupKeysFromAdjusted(adjusted, artists);
    KeyOfRow(groups[i], artists);
    GroupMatchesRows(rows, i);
    ScoreRowsSums(adjusted, groups[i].key);
    ScoreBounds(adjusted, RowKey(r), artists);
    AdjustedSumsOverEvents(events, artists, users, RowKey(r));
  }

  /** Scores between 1 and 3 make a key's total between its count and three
      times its count. */
  lemma {:induction false} ScoreBounds(adjusted: seq<AdjustedEvent>, k: seq<int>, artists: Artists)
    requires forall i :: 0 <= i < |adjusted| ==> WellFormedAdjusted(adjusted[i], artists)
    ensures SumBy(adjusted, HitForKey(k)) <= SumBy(adjusted, ScoreFor(k)) <= 3 * SumBy(adjusted, HitForKey(k))
    decreases |adjusted|
  {
    if adjusted != [] {
      ScoreBounds(adjusted[..|adjusted| - 1], k, artists);
    }
  }

  function EventCountOf(r: EngagementRow): int
  {
    r.eventCount
  }

  /** The event counts of all rows add up to the number of qualifying events. */
  lemma EngagementCountsAddUp(events: seq<UserEvent>, artists: Artists, users: Users)
    ensures SumBy(EngagementRows(events, artists, users), EventCountOf)
            == SumBy(events, QualifyingOne(artists, users))
  {
    var adjusted := AdjustedEvents(events, artists, users);
    var groups := GroupRows(ScoreRows(adjusted));
    var rows := EngagementRows(events, artists, users);
    SumByMapped(rows, EventCountOf, groups, GroupCount);
    GroupRowsGrandTotals(ScoreRows(adjusted));
    AdjustedEventsCount(events, artists, users);
  }

  // ---------------------------------------------------------------------
  // Weighted per-event-type totals
  // ---------------------------------------------------------------------

  /** An event counts in the event-type query when its artist exists and its
      type is allowed; users are not joined, so no timezone filter applies. */
  predicate CountsForTypes(e: UserEvent, artists: Artists)
  {
    e.artistId in artists && e.eventType in AllowedTypes
  }

  /** Grouping key of an admitted event: (artist_id, event type). */
  function TypeKey(e: UserEvent): seq<int>
    requires e.eventType in AllowedTypes
  {
    AllowedIffScored(e.eventType);
    [e.artistId, KindRank(ParseKind(e.eventType).value)]
  }

  /** A key of the event-type grouping: an existing artist and a kind rank. */
  predicate TypeKeyShape(k: seq<int>, artists: Artists)
  {
    |k| == 2 && k[0] in artists && 0 <= k[1] < 4
  }

  /** The admitted events as grouping rows whose value is the event's weight. */
  function TypeRows(events: seq<UserEvent>, artists: Artists): (rows: seq<Row>)
    ensures forall i :: 0 <= i < |rows| ==>
              TypeKeyShape(rows[i].key, artists)
              && rows[i].value == TypeWeight(KindOfRank(rows[i].key[1]))
    decreases |events|
  {
    if events == [] then []
    else
      var n := |events| - 1;
      var e := events[n];
      if CountsForTypes(e, artists) then
        AllowedIffScored(e.eventType);
        KindOfRankInverse(ParseKind(e.eventType).value);
        TypeRows(events[..n], artists) + [Row(TypeKey(e), TypeWeight(ParseKind(e.eventType).value))]
      else
        TypeRows(events[..n], artists)
  }

  /** A row of the event-type result. */
  datatype EventTypeRow = EventTypeRow(
    artistId: int, artistName: string, eventType: string,
    count: nat, weight: int, weightedCount: int)

  function ToEventTypeRow(g: Group, artists: Artists): EventTypeRow
    requires TypeKeyShape(g.key, artists)
  {
    var kind := KindOfRank(g.key[1]);
    EventTypeRow(g.key[0], artists[g.key[0]], KindName(kind),
                 g.count, TypeWeight(kind), g.count * TypeWeight(kind))
  }

  /** ORDER BY artist_id, weighted_count DESC. */
  function TypeOrderKey(r: EventTypeRow): seq<int>
  {
    [r.artistId, -r.weightedCount]
  }

  lemma TypeGroupKeysShaped(events: seq<UserEvent>, artists: Artists)
    ensures forall i :: 0 <= i < |GroupRows(TypeRows(events, artists))| ==>
              TypeKeyShape(GroupRows(TypeRows(events, artists))[i].key, artists)
  {
    var rows := TypeRows(events, artists);
    forall i | 0 <= i < |GroupRows(rows)|
      ensures TypeKeyShape(GroupRows(rows)[i].key, artists)
    {
      var j := GroupKeyWitness(rows, i);
    }
  }

  /** The event-type rows before ordering by weighted count. */
  function TypeGroupRows(events: seq<UserEvent>, artists: Artists): (r: seq<EventTypeRow>)
    ensures forall i :: 0 <= i < |r| ==> TypeRowAdmitted(r[i], artists)
  {
    var groups := GroupRows(TypeRows(events, artists));
    TypeGroupKeysShaped(events, artists);
    seq(|groups|, i requires 0 <= i < |groups| => ToEventTypeRow(groups[i], artists))
  }

  /** The event-type query's result: per (artist, event type) the number of
      events, the type's weight and their product, ordered by artist and then
      by weighted count, largest first. Rows with equal artist and weighted
      count keep the kind order share, like, add to playlist, play. */
  function EventTypeRows(events: seq<UserEvent>, artists: Artists): (rows: seq<EventTypeRow>)
    ensures |rows| == |TypeGroupRows(events, artists)|
    ensures forall i :: 0 <= i < |rows| ==> TypeRowAdmitted(rows[i], artists)
  {
    var unordered := TypeGroupRows(events, artists);
    var rows := SortByKey(unordered, TypeOrderKey);
    assert |rows| == |multiset(rows)| == |multiset(unordered)| == |unordered|;
    AllSurvivePermutation(unordered, rows, r => TypeRowAdmitted(r, artists));
    rows
  }

  /** An event-type row names an existing artist and an allowed type, and
      counts at least one event. */
  predicate TypeRowAdmitted(r: EventTypeRow, artists: Artists)
  {
    r.artistId in artists && r.eventType in AllowedTypes && r.count >= 1
  }

  /** The GROUP BY key of an event-type row: (artist_id, event_type). */
  function TypePair(r: EventTypeRow): (int, string)
  {
    (r.artistId, r.eventType)
  }

  /** Before ordering, no two event-type rows share an (artist, event type)
      pair: distinct group keys give distinct pairs. */
  lemma TypeGroupRowsDistinct(events: seq<UserEvent>, artists: Artists)
    ensures var rows := TypeGroupRows(events, artists);
      forall a, b :: 0 <= a < b < |rows| ==> TypePair(rows[a]) != TypePair(rows[b])
  {
    var groups := GroupRows(TypeRows(events, artists));
    var rows := TypeGroupRows(events, artists);
    TypeGroupKeysShaped(events, artists);
    forall a, b | 0 <= a < b < |rows|
      ensures TypePair(rows[a]) != TypePair(rows[b])
    {
      OrderedPairwise(groups, a, b);
      LessIrreflexive(groups[a].key);
      var ka, kb := groups[a].key, groups[b].key;
      assert ka == [ka[0], ka[1]] && kb == [kb[0], kb[1]];
      if ka[0] == kb[0] {
        var kindA, kindB := KindOfRank(ka[1]), KindOfRank(kb[1]);
        assert kindA != kindB;
        ParseKindName(kindA);
        ParseKindName(kindB);
      }
    }
  }

  /** Every (artist, event type) pair appears in at most one row of the
      result, as GROUP BY promises. */
  lemma EventTypeRowsDistinct(events: seq<UserEvent>, artists: Artists)
    ensures var rows := EventTypeRows(events, artists);
      forall i, j :: 0 <= i < j < |rows| ==>
        (rows[i].artistId, rows[i].eventType) != (rows[j].artistId, rows[j].eventType)
  {
    TypeGroupRowsDistinct(events, artists);
    DistinctKeysSurvivePermutation(TypeGroupRows(events, artists), EventTypeRows(events, artists), TypePair);
  }

  /** Rows come by artist, and within an artist by weighted count descending. */
  lemma EventTypeRowsOrdered(events: seq<UserEvent>, artists: Artists, i: int, j: int)
    requires 0 <= i < j < |EventTypeRows(events, artists)|
    ensures var rows := EventTypeRows(events, artists);
      rows[i].artistId <= rows[j].artistId
      && (rows[i].artistId == rows[j].artistId ==> rows[i].weightedCount >= rows[j].weightedCount)
  {
    var rows := EventTypeRows(events, artists);
    SortedByPairwise(rows, TypeOrderKey, i, j);
    PairLess(rows[i].artistId, -rows[i].weightedCount, rows[j].artistId, -rows[j].weightedCount);
  }

  function TypeHit(artistId: int, eventType: string, artists: Artists): UserEvent -> int
  {
    e => if CountsForTypes(e, artists) && e.artistId == artistId && e.eventType == eventType then 1 else 0
  }

  function TypeScore(artistId: int, eventType: string, artists: Artists): UserEvent -> int
  {
    e => if CountsForTypes(e, artists) && e.artistId == artistId && e.eventType == eventType
         then EngagementScore(e.eventType) else 0
  }

  /** An admitted event has the key of (artist, kind) exactly when it is an
      event of that artist with that kind's name. */
  lemma TypeKeyMatches(e: UserEvent, artists: Artists, artistId: int, kind: EventKind)
    requires CountsForTypes(e, artists)
    ensures TypeKey(e) == [artistId, KindRank(kind)] <==>
              e.artistId == artistId && e.eventType == KindName(kind)
  {
    AllowedIffScored(e.eventType);
    var k := ParseKind(e.eventType).value;
    ParseKindName(kind);
    KindOfRankInverse(k);
    KindOfRankInverse(kind);
  }

  lemma {:induction false} TypeRowsSums(events: seq<UserEvent>, artists: Artists, artistId: int, kind: EventKind)
    ensures CountOf(TypeRows(events, artists), [artistId, KindRank(kind)])
            == SumBy(events, TypeHit(artistId, KindName(kind), artists))
    ensures SumOf(TypeRows(events, artists), [artistId, KindRank(kind)])
            == SumBy(events, TypeScore(artistId, KindName(kind), artists))
    decreases |events|
  {
    if events != [] {
      var n := |events| - 1;
      var e := events[n];
      var key := [artistId, KindRank(kind)];
      TypeRowsSums(events[..n], artists, artistId, kind);
      if CountsForTypes(e, artists) {
        AllowedIffScored(e.eventType);
        var k := ParseKind(e.eventType).value;
        var last := Row(TypeKey(e), TypeWeight(k));
        var prefix := TypeRows(events[..n], artists);
        assert TypeRows(events, artists) == prefix + [last];
        assert (prefix + [last])[..|prefix|] == prefix;
        TypeKeyMatches(e, artists, artistId, kind);
        ScoreMatchesWeight(k);
      }
    }
  }

  /** What every event-type row satisfies: an allowed type, the scorer's
      weight, weighted_count = count * weight, which is also the total score of
      the counted events; count is the number of events of that artist and
      type whose artist exists. */
  ghost predicate EventTypeRowFacts(r: EventTypeRow, events: seq<UserEvent>, artists: Artists)
  {
    && r.eventType in AllowedTypes
    && r.weight == EngagementScore(r.eventType)
    && 1 <= r.weight <= 3
    && r.weightedCount == r.count * r.weight
    && r.count >= 1
    && r.artistId in artists && r.artistName == artists[r.artistId]
    && r.count == SumBy(events, TypeHit(r.artistId, r.eventType, artists))
    && r.weightedCount == SumBy(events, TypeScore(r.artistId, r.eventType, artists))
  }

  lemma TypeGroupRowFacts(events: seq<UserEvent>, artists: Artists, i: int)
    requires 0 <= i < |TypeGroupRows(events, artists)|
    ensures EventTypeRowFacts(TypeGroupRows(events, artists)[i], events, artists)
  {
    var rows := TypeRows(events, artists);
    var groups := GroupRows(rows);
    TypeGroupKeysShaped(events, artists);
    var g := groups[i];
    var kind := KindOfRank(g.key[1]);
    assert g.key == [g.key[0], KindRank(kind)];
    GroupMatchesRows(rows, i);
    TypeRowsSums(events, artists, g.key[0], kind);
    UniformSum(rows, g.key, TypeWeight(kind));
    ScoreMatchesWeight(kind);
  }

  /** Every row of the ordered result satisfies EventTypeRowFacts. */
  lemma EventTypeRowContents(events: seq<UserEvent>, artists: Artists, i: int)
    requires 0 <= i < |EventTypeRows(events, artists)|
    ensures var r := EventTypeRows(events, artists)[i];
      && r.eventType in AllowedTypes
      && r.weight == EngagementScore(r.eventType)
      && r.weightedCount == r.count * r.weight
      && r.count >= 1
      && r.artistId in artists && r.artistName == artists[r.artistId]
      && r.count == SumBy(events, TypeHit(r.artistId, r.eventType, artists))
      && r.weightedCount == SumBy(events, TypeScore(r.artistId, r.eventType, artists))
  {
    var unordered := TypeGroupRows(events, artists);
    forall k | 0 <= k < |unordered|
      ensures EventTypeRowFacts(unordered[k], events, artists)
    {
      TypeGroupRowFacts(events, artists, k);
    }
    AllSurvivePermutation(unordered, EventTypeRows(events, artists),
                          r => EventTypeRowFacts(r, events, artists));
  }

  function TypeRowCount(r: EventTypeRow): int
  {
    r.count
  }

  function CountsForTypesOne(artists: Artists): UserEvent -> int
  {
    e => if CountsForTypes(e, artists) then 1 else 0
  }

  lemma {:induction false} TypeRowsCount(events: seq<UserEvent>, artists: Artists)
    ensures |TypeRows(events, artists)| == SumBy(events, CountsForTypesOne(artists))
    decreases |events|
  {
    if events != [] {
      TypeRowsCount(events[..|events| - 1], artists);
    }
  }

  /** The counts of the event-type rows add up to the number of events whose
      artist exists and whose type is allowed. */
  lemma EventTypeCountsAddUp(events: seq<UserEvent>, artists: Artists)
    ensures SumBy(EventTypeRows(events, artists), TypeRowCount)
            == SumBy(events, CountsForTypesOne(artists))
  {
    var rows := TypeRows(events, artists);
    SumByMapped(TypeGroupRows(events, artists), TypeRowCount, GroupRows(rows), GroupCount);
    GroupRowsGrandTotals(rows);
    TypeRowsCount(events, artists);
    SumByPermutation(TypeGroupRows(events, artists), EventTypeRows(events, artists), TypeRowCount);
  }

  /** The main query only loses events relative to the event-type query: its
      user and timezone joins can drop events, the event-type query has
      neither. */
  lemma TimezoneFilterOnlyInMainQuery(events: seq<UserEvent>, artists: Artists, users: Users)
    ensures SumBy(EngagementRows(events, artists, users), EventCountOf)
            <= SumBy(EventTypeRows(events, artists), TypeRowCount)
  {
    EngagementCountsAddUp(events, artists, users);
    EventTypeCountsAddUp(events, artists);
    SumByMonotone(events, QualifyingOne(artists, users), CountsForTypesOne(artists));
  }

}
