/** The chart helpers: averaging grouped engagement rows into 24 hourly
    buckets split into weekdays and weekends, summing them per day of week,
    sorting artists by number, naming event types, and the chart descriptors
    built from these. */
module ChartUtils {

  import opened Folds
  import opened LexOrder
  import opened ChartConfig
  import opened EventTypes
  import opened Wrappers

  // ---------------------------------------------------------------------
  // Input rows
  // ---------------------------------------------------------------------

  /** A day-of-week field after numeric conversion: a number, or not a number. */
  datatype DayValue = Day(n: int) | NotANumber

  /** A grouped engagement row as the helpers receive it. */
  datatype EngagementData = EngagementData(
    artistId: int, artistName: string, localHour: int, dayOfWeek: DayValue,
    totalEngagement: int, eventCount: int)

  // ---------------------------------------------------------------------
  // Hourly aggregation
  // ---------------------------------------------------------------------

  /** A running sum and the number of values added to it. */
  datatype Tally = Tally(sum: int, count: nat)

  /** One hour's three tallies. */
  datatype HourlyStats = HourlyStats(weekday: Tally, weekend: Tally, all: Tally)

  /** Three 24-entry sequences of hourly averages. */
  datatype DayAggregation = DayAggregation(weekday: seq<real>, weekend: seq<real>, allDays: seq<real>)

  const EmptyStats: HourlyStats := HourlyStats(Tally(0, 0), Tally(0, 0), Tally(0, 0))

  /** Day 0 (Sunday) and day 6 (Saturday) are the weekend; every other value,
      including one that is not a number, counts as a weekday. */
  predicate IsWeekend(d: DayValue)
  {
    d == Day(0) || d == Day(6)
  }

  function Record(t: Tally, v: int): Tally
  {
    Tally(t.sum + v, t.count + 1)
  }

  /** The effect of one row on its hour's tallies: the weekend or the weekday
      tally, and always the all-days tally. */
  function AddEntry(s: HourlyStats, e: EngagementData): HourlyStats
  {
    if IsWeekend(e.dayOfWeek) then
      s.(weekend := Record(s.weekend, e.totalEngagement), all := Record(s.all, e.totalEngagement))
    else
      s.(weekday := Record(s.weekday, e.totalEngagement), all := Record(s.all, e.totalEngagement))
  }

  /** The tallies of hour `h` after the rows `es` have been processed in order. */
  function StatsAt(es: seq<EngagementData>, h: int): HourlyStats
    decreases |es|
  {
    if es == [] then EmptyStats
    else
      var last := es[|es| - 1];
      var s := StatsAt(es[..|es| - 1], h);
      if last.localHour == h then AddEntry(s, last) else s
  }

  /** `sum / (count || 1)`: an empty tally divides by one. */
  function Average(t: Tally): real
  {
    t.sum as real / (if t.count == 0 then 1 else t.count) as real
  }

  /** The averages of every hour's three tallies. */
  function HourlyAverages(es: seq<EngagementData>): (agg: DayAggregation)
    ensures |agg.weekday| == 24 && |agg.weekend| == 24 && |agg.allDays| == 24
  {
    DayAggregation(
      seq(24, h => Average(StatsAt(es, h).weekday)),
      seq(24, h => Average(StatsAt(es, h).weekend)),
      seq(24, h => Average(StatsAt(es, h).all)))
  }

  /** Every row names an hour that has a bucket. */
  predicate HoursInRange(es: seq<EngagementData>)
  {
    forall i :: 0 <= i < |es| ==> 0 <= es[i].localHour < 24
  }

  /** Fills 24 hour buckets in place, one row at a time, then turns each
      bucket's three tallies into averages. */
  method AggregateHourlyData(artistData: seq<EngagementData>) returns (agg: DayAggregation)
    requires HoursInRange(artistData)
    ensures |agg.weekday| == 24 && |agg.weekend| == 24 && |agg.allDays| == 24
    ensures agg == HourlyAverages(artistData)
  {
    var hourlyData := new HourlyStats[24](_ => EmptyStats);
    var i := 0;
    while i < |artistData|
      invariant 0 <= i <= |artistData|
      invariant forall h :: 0 <= h < 24 ==> hourlyData[h] == StatsAt(artistData[..i], h)
    {
      var entry := artistData[i];
      var hour := entry.localHour;
      var isWeekend := entry.dayOfWeek == Day(0) || entry.dayOfWeek == Day(6);
      var stats := hourlyData[hour];
      if isWeekend {
        stats := stats.(weekend := Tally(stats.weekend.sum + entry.totalEngagement, stats.weekend.count + 1));
      } else {
        stats := stats.(weekday := Tally(stats.weekday.sum + entry.totalEngagement, stats.weekday.count + 1));
      }
      stats := stats.(all := Tally(stats.all.sum + entry.totalEngagement, stats.all.count + 1));
      hourlyData[hour] := stats;
      assert artistData[..i + 1][..i] == artistData[..i];
      i := i + 1;
    }
    assert artistData[..i] == artistData;
    agg := DayAggregation(
      seq(24, h requires 0 <= h < 24 reads hourlyData => Average(hourlyData[h].weekday)),
      seq(24, h requires 0 <= h < 24 reads hourlyData => Average(hourlyData[h].weekend)),
      seq(24, h requires 0 <= h < 24 reads hourlyData => Average(hourlyData[h].all)));
  }

  /** The three ways a row can be classified for an hour. */
  datatype Category = WeekdayRows | WeekendRows | AllRows

  function TallyOf(s: HourlyStats, c: Category): Tally
  {
    match c
    case WeekdayRows => s.weekday
    case WeekendRows => s.weekend
    case AllRows => s.all
  }

  predicate InCategory(e: EngagementData, c: Category)
  {
    match c
    case WeekdayRows => !IsWeekend(e.dayOfWeek)
    case WeekendRows => IsWeekend(e.dayOfWeek)
    case AllRows => true
  }

  /** What a row adds to the sum of bucket (h, c). */
  function BucketValue(h: int, c: Category): EngagementData -> int
  {
    (e: EngagementData) => if e.localHour == h && InCategory(e, c) then e.totalEngagement else 0
  }

  /** What a row adds to the count of bucket (h, c). */
  function BucketHit(h: int, c: Category): EngagementData -> int
  {
    (e: EngagementData) => if e.localHour == h && InCategory(e, c) then 1 else 0
  }

  /** Each tally holds the sum of totalEngagement over exactly the rows of its
      hour and category, and their number. */
  lemma {:induction false} StatsAtIsBucketSum(es: seq<EngagementData>, h: int, c: Category)
    ensures TallyOf(StatsAt(es, h), c).sum == SumBy(es, BucketValue(h, c))
    ensures TallyOf(StatsAt(es, h), c).count == SumBy(es, BucketHit(h, c))
    decreases |es|
  {
    if es != [] {
      StatsAtIsBucketSum(es[..|es| - 1], h, c);
    }
  }

  /** The order of the rows does not matter: any rearrangement of them gives
      the same averages. */
  lemma HourlyAveragesOrderIndependent(xs: seq<EngagementData>, ys: seq<EngagementData>)
    requires multiset(xs) == multiset(ys)
    ensures HourlyAverages(xs) == HourlyAverages(ys)
  {
    forall h, c: Category
      ensures TallyOf(StatsAt(xs, h), c) == TallyOf(StatsAt(ys, h), c)
    {
      StatsAtIsBucketSum(xs, h, c);
      StatsAtIsBucketSum(ys, h, c);
      SumByPermutation(xs, ys, BucketValue(h, c));
      SumByPermutation(xs, ys, BucketHit(h, c));
    }
    forall h ensures StatsAt(xs, h) == StatsAt(ys, h) {
      assert TallyOf(StatsAt(xs, h), WeekdayRows) == TallyOf(StatsAt(ys, h), WeekdayRows);
      assert TallyOf(StatsAt(xs, h), WeekendRows) == TallyOf(StatsAt(ys, h), WeekendRows);
      assert TallyOf(StatsAt(xs, h), AllRows) == TallyOf(StatsAt(ys, h), AllRows);
    }
  }

  /** Every row goes to exactly one of weekday and weekend and always to all
      days, so the all-days tally is the sum of the other two. */
  lemma {:induction false} AllIsWeekdayPlusWeekend(es: seq<EngagementData>, h: int)
    ensures StatsAt(es, h).all.sum == StatsAt(es, h).weekday.sum + StatsAt(es, h).weekend.sum
    ensures StatsAt(es, h).all.count == StatsAt(es, h).weekday.count + StatsAt(es, h).weekend.count
    decreases |es|
  {
    if es != [] {
      AllIsWeekdayPlusWeekend(es[..|es| - 1], h);
    }
  }

  /** A tally with no values has a zero sum. */
  lemma {:induction false} EmptyTallyHasZeroSum(es: seq<EngagementData>, h: int, c: Category)
    ensures TallyOf(StatsAt(es, h), c).count == 0 ==> TallyOf(StatsAt(es, h), c).sum == 0
    decreases |es|
  {
    if es != [] {
      EmptyTallyHasZeroSum(es[..|es| - 1], h, c);
    }
  }

  /** An hour with no rows in a category averages to 0 there, and an hour with
      rows averages to sum / count. */
  lemma EmptyBucketAveragesZero(es: seq<EngagementData>, h: int)
    requires 0 <= h < 24
    ensures var s := StatsAt(es, h); var agg := HourlyAverages(es);
      && (s.weekday.count == 0 ==> agg.weekday[h] == 0.0)
      && (s.weekend.count == 0 ==> agg.weekend[h] == 0.0)
      && (s.all.count == 0 ==> agg.allDays[h] == 0.0)
      && (s.all.count > 0 ==> agg.allDays[h] == s.all.sum as real / s.all.count as real)
  {
    EmptyTallyHasZeroSum(es, h, WeekdayRows);
    EmptyTallyHasZeroSum(es, h, WeekendRows);
    EmptyTallyHasZeroSum(es, h, AllRows);
  }

  lemma AverageTimesCount(t: Tally)
    requires t.count == 0 ==> t.sum == 0
    ensures Average(t) * t.count as real == t.sum as real
  {
    if t.count > 0 {
      var c := t.count as real;
      assert Average(t) == t.sum as real / c;
    }
  }

  /** The averages of hour `h` are those of its three tallies. */
  lemma AveragesAt(es: seq<EngagementData>, h: int)
    requires 0 <= h < 24
    ensures HourlyAverages(es).weekday[h] == Average(StatsAt(es, h).weekday)
    ensures HourlyAverages(es).weekend[h] == Average(StatsAt(es, h).weekend)
    ensures HourlyAverages(es).allDays[h] == Average(StatsAt(es, h).all)
  {
  }

  /** The tallies of an hour are consistent: all days is weekday plus weekend
      and an empty tally has a zero sum. */
  lemma ConsistentTallies(es: seq<EngagementData>, h: int)
    ensures var s := StatsAt(es, h);
      && s.all.sum == s.weekday.sum + s.weekend.sum
      && s.all.count == s.weekday.count + s.weekend.count
      && (s.weekday.count == 0 ==> s.weekday.sum == 0)
      && (s.weekend.count == 0 ==> s.weekend.sum == 0)
      && (s.all.count == 0 ==> s.all.sum == 0)
  {
    AllIsWeekdayPlusWeekend(es, h);
    EmptyTallyHasZeroSum(es, h, WeekdayRows);
    EmptyTallyHasZeroSum(es, h, WeekendRows);
    EmptyTallyHasZeroSum(es, h, AllRows);
  }

  /** The all-days average of an hour is the count-weighted mean of its weekday
      and weekend averages. */
  predicate MeanSplits(s: HourlyStats)
  {
    Average(s.all) * s.all.count as real
      == Average(s.weekday) * s.weekday.count as real + Average(s.weekend) * s.weekend.count as real
  }

  /** The split and the combined views agree at every hour (the three averages
      are those `HourlyAverages` reports, by `AveragesAt`). */
  lemma AllDaysIsWeightedMeanOfSplit(es: seq<EngagementData>, h: int)
    ensures MeanSplits(StatsAt(es, h))
  {
    ConsistentTallies(es, h);
    WeightedMean(StatsAt(es, h));
  }

  /** The same at the level of the aggregation `aggregateHourlyData` returns:
      the all-days line is the count-weighted mean of the two split lines. */
  lemma ReportedAllDaysIsWeightedMean(es: seq<EngagementData>, h: int)
    requires 0 <= h < 24
    ensures SplitAgrees(HourlyAverages(es), StatsAt(es, h), h)
  {
    AveragesAt(es, h);
    AllDaysIsWeightedMeanOfSplit(es, h);
    Reported(HourlyAverages(es), StatsAt(es, h), h);
  }

  predicate SplitAgrees(agg: DayAggregation, s: HourlyStats, h: int)
    requires 0 <= h < |agg.weekday| && h < |agg.weekend| && h < |agg.allDays|
  {
    agg.allDays[h] * s.all.count as real
      == agg.weekday[h] * s.weekday.count as real + agg.weekend[h] * s.weekend.count as real
  }

  lemma Reported(agg: DayAggregation, s: HourlyStats, h: int)
    requires 0 <= h < |agg.weekday| && h < |agg.weekend| && h < |agg.allDays|
    requires agg.weekday[h] == Average(s.weekday) && agg.weekend[h] == Average(s.weekend)
    requires agg.allDays[h] == Average(s.all)
    requires MeanSplits(s)
    ensures SplitAgrees(agg, s, h)
  {
  }

  /** Averaging commutes with splitting a tally into two parts. */
  lemma WeightedMean(s: HourlyStats)
    requires s.all.sum == s.weekday.sum + s.weekend.sum
    requires s.weekday.count == 0 ==> s.weekday.sum == 0
    requires s.weekend.count == 0 ==> s.weekend.sum == 0
    requires s.all.count == 0 ==> s.all.sum == 0
    ensures MeanSplits(s)
  {
    AverageTimesCount(s.all);
    AverageTimesCount(s.weekday);
    AverageTimesCount(s.weekend);
  }

  /** One weekday row at hour `h` adds its total to the weekday and all-days
      tallies of that hour. */
  lemma AddWeekdayRow(es: seq<EngagementData>, e: EngagementData, h: int)
    requires e.localHour == h && !IsWeekend(e.dayOfWeek)
    ensures StatsAt(es + [e], h) == StatsAt(es, h).(
              weekday := Record(StatsAt(es, h).weekday, e.totalEngagement),
              all := Record(StatsAt(es, h).all, e.totalEngagement))
  {
    assert (es + [e])[..|es|] == es;
  }

  /** Three weekday rows at hour 10 with totals 1, 2 and 3 average to 2 on
      weekdays and on all days. */
  lemma ThreeWeekdayRowsAverageTwo(e1: EngagementData, e2: EngagementData, e3: EngagementData)
    requires e1.localHour == 10 && e2.localHour == 10 && e3.localHour == 10
    requires e1.dayOfWeek == Day(3) && e2.dayOfWeek == Day(3) && e3.dayOfWeek == Day(3)
    requires e1.totalEngagement == 1 && e2.totalEngagement == 2 && e3.totalEngagement == 3
    ensures HourlyAverages([e1, e2, e3]).weekday[10] == 2.0
    ensures HourlyAverages([e1, e2, e3]).allDays[10] == 2.0
  {
    AddWeekdayRow([], e1, 10);
    AddWeekdayRow([e1], e2, 10);
    AddWeekdayRow([e1, e2], e3, 10);
    assert [] + [e1] == [e1] && [e1] + [e2] == [e1, e2] && [e1, e2] + [e3] == [e1, e2, e3];
    assert StatsAt([e1, e2, e3], 10) == HourlyStats(Tally(6, 3), Tally(0, 0), Tally(6, 3));
    AveragesAt([e1, e2, e3], 10);
    assert Average(Tally(6, 3)) == 2.0;
  }

  // ---------------------------------------------------------------------
  // Day-of-week totals
  // ---------------------------------------------------------------------

  /** A day value that names a slot: a number from 0 to 6. */
  predicate ValidDay(d: DayValue)
  {
    d.Day? && 0 <= d.n < 7
  }

  /** What a row adds to slot `d`. */
  function DayShare(d: int): EngagementData -> int
  {
    (e: EngagementData) => if e.dayOfWeek == Day(d) then e.totalEngagement else 0
  }

  /** The seven per-day sums of totalEngagement. */
  function WeekdayTotals(es: seq<EngagementData>): (totals: seq<int>)
    ensures |totals| == 7
  {
    seq(7, d => SumBy(es, DayShare(d)))
  }

  /** Sums totalEngagement into seven day slots in place; rows whose day is not
      a number or lies outside 0..6 are skipped. */
  method ProcessWeekdayData(data: seq<EngagementData>) returns (weekdayTotals: seq<int>)
    ensures |weekdayTotals| == 7
    ensures forall d :: 0 <= d < 7 ==> weekdayTotals[d] == SumBy(data, DayShare(d))
    ensures weekdayTotals == WeekdayTotals(data)
  {
    var weekdayData := new int[7](_ => 0);
    var i := 0;
    while i < |data|
      invariant 0 <= i <= |data|
      invariant forall d :: 0 <= d < 7 ==> weekdayData[d] == SumBy(data[..i], DayShare(d))
    {
      var entry := data[i];
      if entry.dayOfWeek.Day? && entry.dayOfWeek.n >= 0 && entry.dayOfWeek.n < 7 {
        var day := entry.dayOfWeek.n;
        weekdayData[day] := weekdayData[day] + entry.totalEngagement;
      }
      assert data[..i + 1][..i] == data[..i];
      i := i + 1;
    }
    assert data[..i] == data;
    weekdayTotals := weekdayData[..];
  }

  /** What a row adds in total when its day is valid. */
  function ValidShare(e: EngagementData): int
  {
    if ValidDay(e.dayOfWeek) then e.totalEngagement else 0
  }

  /** The seven slots together hold exactly the engagement of the rows with a
      valid day: nothing valid is lost, nothing invalid slips in. */
  lemma {:induction false} WeekdayTotalsAccountForValidRows(es: seq<EngagementData>)
    ensures var t := WeekdayTotals(es);
      t[0] + t[1] + t[2] + t[3] + t[4] + t[5] + t[6] == SumBy(es, ValidShare)
    decreases |es|
  {
    if es != [] {
      WeekdayTotalsAccountForValidRows(es[..|es| - 1]);
    }
  }

  /** Rearranging the rows leaves the day totals unchanged. */
  lemma WeekdayTotalsOrderIndependent(xs: seq<EngagementData>, ys: seq<EngagementData>)
    requires multiset(xs) == multiset(ys)
    ensures WeekdayTotals(xs) == WeekdayTotals(ys)
  {
    forall d | 0 <= d < 7
      ensures WeekdayTotals(xs)[d] == WeekdayTotals(ys)[d]
    {
      SumByPermutation(xs, ys, DayShare(d));
    }
  }

  // ---------------------------------------------------------------------
  // Artist ordering
  // ---------------------------------------------------------------------

  /** An artist as the selector lists it. */
  datatype ArtistRow = ArtistRow(id: int, name: string)

  const ArtistPrefix: string := "Artist "

  predicate IsDigit(c: char)
  {
    '0' <= c <= '9'
  }

  /** The decimal value of a digit string, read left to right. */
  function DigitsValue(ds: string): (v: nat)
    ensures ds == [] ==> v == 0
  {
    if ds == [] then 0
    else
      var c := ds[|ds| - 1];
      DigitsValue(ds[..|ds| - 1]) * 10 + (if IsDigit(c) then (c - '0') as int else 0)
  }

  /** A name of the form "Artist " followed by one or more digits. */
  predicate NumberedName(name: string)
  {
    |ArtistPrefix| < |name| && name[..|ArtistPrefix|] == ArtistPrefix
    && forall i :: |ArtistPrefix| <= i < |name| ==> IsDigit(name[i])
  }

  /** The number a numbered name ends in: the prefix is removed and the rest
      read as a decimal integer. */
  function ArtistNumber(name: string): nat
  {
    if |ArtistPrefix| <= |name| && name[..|ArtistPrefix|] == ArtistPrefix
    then DigitsValue(name[|ArtistPrefix|..])
    else DigitsValue(name)
  }

  /** The decimal digits of `n`, without leading zeros. */
  function Decimal(n: nat): (ds: string)
    ensures ds != [] && forall i :: 0 <= i < |ds| ==> IsDigit(ds[i])
  {
    var last := ['0' + (n % 10) as char];
    if n < 10 then last else Decimal(n / 10) + last
  }

  /** Reading back the digits of a number gives the number. */
  lemma {:induction false} DecimalRoundTrip(n: nat)
    ensures DigitsValue(Decimal(n)) == n
  {
    var ds := Decimal(n);
    if n >= 10 {
      DecimalRoundTrip(n / 10);
      assert ds[..|ds| - 1] == Decimal(n / 10);
    }
  }

  /** "Artist <n>" carries the number n. */
  lemma ArtistNumberOfName(n: nat)
    ensures NumberedName(ArtistPrefix + Decimal(n))
    ensures ArtistNumber(ArtistPrefix + Decimal(n)) == n
  {
    var name := ArtistPrefix + Decimal(n);
    assert name[..|ArtistPrefix|] == ArtistPrefix;
    assert name[|ArtistPrefix|..] == Decimal(n);
    DecimalRoundTrip(n);
  }

  function ArtistKey(a: ArtistRow): seq<int>
  {
    [ArtistNumber(a.name)]
  }

  /** A copy of the artists ordered by the number in their names; the input
      itself is a value and stays as it was. */
  function SortArtists(artists: seq<ArtistRow>): (r: seq<ArtistRow>)
    requires forall a :: a in artists ==> NumberedName(a.name)
    ensures multiset(r) == multiset(artists)
    ensures forall i, j :: 0 <= i < j < |r| ==> ArtistNumber(r[i].name) <= ArtistNumber(r[j].name)
  {
    var r := SortByKey(artists, ArtistKey);
    forall i, j | 0 <= i < j < |r|
      ensures ArtistNumber(r[i].name) <= ArtistNumber(r[j].name)
    {
      SortedByPairwise(r, ArtistKey, i, j);
      assert LessEq([ArtistNumber(r[i].name)], [ArtistNumber(r[j].name)]);
      SingleLessEq(ArtistNumber(r[i].name), ArtistNumber(r[j].name));
    }
    r
  }

  lemma SingleLessEq(x: int, y: int)
    requires LessEq([x], [y])
    ensures x <= y
  {
  }

  /** Two artists with different numbers come out smaller number first,
      whatever order they came in. */
  lemma SortTwo(a: ArtistRow, b: ArtistRow)
    requires NumberedName(a.name) && NumberedName(b.name)
    requires ArtistNumber(a.name) > ArtistNumber(b.name)
    ensures SortArtists([a, b]) == [b, a]
    ensures SortArtists([b, a]) == [b, a]
  {
    assert multiset([b, a]) == multiset([a, b]);
    PairPermutation(SortArtists([a, b]), a, b);
    PairPermutation(SortArtists([b, a]), a, b);
  }

  /** The only rearrangements of two different values. */
  lemma PairPermutation<T>(r: seq<T>, a: T, b: T)
    requires multiset(r) == multiset([a, b]) && a != b
    ensures r == [a, b] || r == [b, a]
  {
    assert |r| == |multiset(r)| == 2;
    assert r[0] in multiset(r) && r[1] in multiset(r);
    assert r == [r[0], r[1]];
  }

  /** Numeric rather than textual order: "Artist 2" comes before "Artist 10",
      although "Artist 10" is smaller as text. */
  lemma TwoBeforeTen(ten: ArtistRow, two: ArtistRow)
    requires ten.name == "Artist 10" && two.name == "Artist 2"
    ensures SortArtists([ten, two]) == [two, ten]
  {
    assert Decimal(10) == "10" && Decimal(2) == "2";
    assert ten.name == ArtistPrefix + Decimal(10);
    assert two.name == ArtistPrefix + Decimal(2);
    ArtistNumberOfName(10);
    ArtistNumberOfName(2);
    SortTwo(ten, two);
  }

  // ---------------------------------------------------------------------
  // Event type labels
  // ---------------------------------------------------------------------

  /** The display label of each event kind. */
  function KindLabel(k: EventKind): string
  {
    match k
    case ShareTrack => "Share Track"
    case LikeTrack => "Like Track"
    case AddTrackToPlaylist => "Add to Playlist"
    case PlayTrack => "Play Track"
  }

  /** A known event type name becomes its label; any other string is shown
      as it is. */
  function FormatEventType(eventType: string): (shown: string)
    ensures ParseKind(eventType).None? ==> shown == eventType
  {
    match ParseKind(eventType)
    case Some(k) => KindLabel(k)
    case None => eventType
  }

  /** Every known name is relabelled, to its kind's own label; the four
      labels are "Share Track", "Like Track", "Add to Playlist" and
      "Play Track". */
  lemma FormatKnownType(k: EventKind)
    ensures FormatEventType(KindName(k)) == KindLabel(k)
    ensures FormatEventType(KindName(k)) != KindName(k)
    ensures FormatEventType("share_track") == "Share Track"
    ensures FormatEventType("like_track") == "Like Track"
    ensures FormatEventType("add_track_to_playlist") == "Add to Playlist"
    ensures FormatEventType("play_track") == "Play Track"
  {
    ParseKindName(k);
    ParseKindName(ShareTrack);
    ParseKindName(LikeTrack);
    ParseKindName(AddTrackToPlaylist);
    ParseKindName(PlayTrack);
  }

  /** Different kinds get different labels, so the pie legend tells them apart. */
  lemma LabelsDistinguishKinds(a: EventKind, b: EventKind)
    ensures FormatEventType(KindName(a)) == FormatEventType(KindName(b)) <==> a == b
  {
    FormatKnownType(a);
    FormatKnownType(b);
  }

  /** Formatting is a no-op exactly on strings that are not event type names. */
  lemma FormatChangesExactlyKnownNames(eventType: string)
    ensures FormatEventType(eventType) == eventType <==> ParseKind(eventType).None?
  {
    if ParseKind(eventType).Some? {
      FormatKnownType(ParseKind(eventType).value);
    }
  }

  // ---------------------------------------------------------------------
  // Chart descriptors
  // ---------------------------------------------------------------------

  /** One slice of the event type pie as the page passes it in. */
  datatype EventTypeData = EventTypeData(eventType: string, weightedCount: int)

  /** A pie chart: one label, value and colour per slice. */
  datatype PieChart = PieChart(labels: seq<string>, data: seq<int>, backgroundColor: seq<string>)

  /** The first `n` palette colours, or all seven when there are more slices. */
  function PaletteSlice(n: nat): (cs: seq<string>)
    ensures |cs| == if n <= |Palette| then n else |Palette|
    ensures forall i :: 0 <= i < |cs| ==> cs[i] == Palette[i]
  {
    if n <= |Palette| then Palette[..n] else Palette
  }

  /** The pie of weighted counts per event type. */
  function EngagementTypesConfig(eventTypesData: seq<EventTypeData>): (pie: PieChart)
    ensures |pie.labels| == |pie.data| == |eventTypesData|
    ensures |pie.backgroundColor| <= |Palette|
  {
    PieChart(
      seq(|eventTypesData|, i requires 0 <= i < |eventTypesData| => FormatEventType(eventTypesData[i].eventType)),
      seq(|eventTypesData|, i requires 0 <= i < |eventTypesData| => eventTypesData[i].weightedCount),
      PaletteSlice(|eventTypesData|))
  }

  /** Slice i of the pie is entry i of the input, labelled and coloured; no two
      slices share a colour, and up to seven slices every slice has one. */
  lemma PieSlices(eventTypesData: seq<EventTypeData>)
    ensures var pie := EngagementTypesConfig(eventTypesData);
      && |pie.labels| == |pie.data| == |eventTypesData|
      && (forall i :: 0 <= i < |eventTypesData| ==>
            pie.labels[i] == FormatEventType(eventTypesData[i].eventType)
            && pie.data[i] == eventTypesData[i].weightedCount)
      && (|eventTypesData| <= |Palette| ==> |pie.backgroundColor| == |eventTypesData|)
      && (forall i, j :: 0 <= i < j < |pie.backgroundColor| ==>
            pie.backgroundColor[i] != pie.backgroundColor[j])
  {
    TablesDistinct();
  }

  /** The hourly chart shows either one line for all days or two lines, one
      for weekdays and one for weekends. */
  datatype ChartMode = AllMode | SplitMode

  /** One line: its legend entry, its 24 points and its colours. */
  datatype LineDataset = LineDataset(legend: string, data: seq<real>, borderColor: string, backgroundColor: string)

  datatype LineChart = LineChart(title: string, labels: seq<string>, datasets: seq<LineDataset>)

  /** The two hex digits appended to a colour for its translucent fill. */
  const FillAlpha: string := "33"

  function Line(legend: string, data: seq<real>, color: string): LineDataset
  {
    LineDataset(legend, data, color, color + FillAlpha)
  }

  function DigitChar(d: int): char
    requires 0 <= d < 10
  {
    '0' + d as char
  }

  /** The axis label of hour `h`: two digits, zero padded, then ":00". */
  function HourLabel(h: int): (text: string)
    requires 0 <= h < 24
    ensures |text| == 5 && text[2..] == ":00"
    ensures IsDigit(text[0]) && IsDigit(text[1])
  {
    [DigitChar(h / 10), DigitChar(h % 10)] + ":00"
  }

  /** The hour an axis label names: the label must be two decimal digits
      followed by ":00". */
  function ParseHourLabel(text: string): (hour: Option<int>)
    ensures hour.Some? <==> |text| == 5 && IsDigit(text[0]) && IsDigit(text[1]) && text[2..] == ":00"
    ensures hour.Some? ==> 0 <= hour.value < 100
  {
    if |text| == 5 && IsDigit(text[0]) && IsDigit(text[1]) && text[2..] == ":00" then
      Some((text[0] as int - '0' as int) * 10 + (text[1] as int - '0' as int))
    else
      None
  }

  /** An axis label can be read back as its hour. */
  lemma HourLabelRoundTrip(h: int)
    requires 0 <= h < 24
    ensures ParseHourLabel(HourLabel(h)) == Some(h)
  {
  }

  function HourLabels(): (labels: seq<string>)
    ensures |labels| == 24
  {
    seq(24, h requires 0 <= h < 24 => HourLabel(h))
  }

  /** The 24 axis labels name the 24 hours in order, each exactly once. */
  lemma HourLabelsNameEachHour()
    ensures forall h :: 0 <= h < 24 ==> ParseHourLabel(HourLabels()[h]) == Some(h)
    ensures forall i, j :: 0 <= i < j < 24 ==> HourLabels()[i] != HourLabels()[j]
  {
    forall h | 0 <= h < 24
      ensures ParseHourLabel(HourLabels()[h]) == Some(h)
    {
      HourLabelRoundTrip(h);
    }
  }

  /** The hourly line chart of one artist. */
  function EngagementChartConfig(selectedArtist: string, aggregatedData: DayAggregation, mode: ChartMode): (chart: LineChart)
    ensures |chart.labels| == 24
    ensures |chart.datasets| == if mode == SplitMode then 2 else 1
    ensures forall d :: d in chart.datasets ==> d.backgroundColor == d.borderColor + FillAlpha
    ensures mode == SplitMode ==>
              && chart.datasets[0].legend == "Weekdays" && chart.datasets[0].borderColor == Palette[1]
              && chart.datasets[1].legend == "Weekends" && chart.datasets[1].borderColor == Palette[0]
    ensures mode == AllMode ==>
              chart.datasets[0].legend == "All" && chart.datasets[0].borderColor == Palette[2]
    ensures chart.title == "Hourly Engagement Pattern for " + selectedArtist
  {
    var datasets :=
      if mode == SplitMode then
        [Line("Weekdays", aggregatedData.weekday, Palette[1]),
         Line("Weekends", aggregatedData.weekend, Palette[0])]
      else
        [Line("All", aggregatedData.allDays, Palette[2])];
    LineChart("Hourly Engagement Pattern for " + selectedArtist, HourLabels(), datasets)
  }

  /** Drawn from `HourlyAverages`, every line has one point per axis label,
      the point under label h is that hour's average of the line's days, the
      split mode's two lines have different colours, and the all-days point of
      an hour is the count-weighted mean of the two split points. */
  lemma EngagementChartAligned(selectedArtist: string, es: seq<EngagementData>, mode: ChartMode, h: int)
    requires 0 <= h < 24
    ensures var chart := EngagementChartConfig(selectedArtist, HourlyAverages(es), mode);
      && |chart.datasets| == (if mode == SplitMode then 2 else 1)
      && (forall d :: d in chart.datasets ==> |d.data| == |chart.labels| == 24)
      && ParseHourLabel(chart.labels[h]) == Some(h)
      && (mode == SplitMode ==>
            chart.datasets[0].legend == "Weekdays" && chart.datasets[1].legend == "Weekends"
            && chart.datasets[0].borderColor == "#36A2EB" && chart.datasets[1].borderColor == "#FF6384"
            && chart.datasets[0].data[h] == Average(StatsAt(es, h).weekday)
            && chart.datasets[1].data[h] == Average(StatsAt(es, h).weekend)
            && chart.datasets[0].borderColor != chart.datasets[1].borderColor)
      && (mode == AllMode ==>
            chart.datasets[0].legend == "All" && chart.datasets[0].borderColor == "#FFCE56"
            && chart.datasets[0].data[h] == Average(StatsAt(es, h).all))
  {
    AveragesAt(es, h);
    HourLabelRoundTrip(h);
    TablesDistinct();
  }

  /** A bar chart with one bar per day of the week. */
  datatype BarChart = BarChart(
    title: string, labels: seq<string>, legend: string, data: seq<int>,
    backgroundColor: string, borderColor: string)

  const BarFill: string := "#e2e8f0"
  const BarBorder: string := "#64748b"

  /** The daily bar chart of one artist. */
  function DailyChartConfig(selectedArtist: string, weekdayData: seq<int>): (chart: BarChart)
    ensures |chart.labels| == 7
    ensures |weekdayData| == 7 ==> |chart.data| == |chart.labels|
    ensures chart.labels == DayNames && chart.data == weekdayData
    ensures chart.legend == "Average Engagement Score"
    ensures chart.title == "Daily Engagement Pattern for " + selectedArtist
  {
    BarChart("Daily Engagement Pattern for " + selectedArtist, DayNames,
      "Average Engagement Score", weekdayData, BarFill, BarBorder)
  }

  /** Drawn from the day totals, bar d stands over the name of day d and holds
      the engagement of the rows of that day; the weekend bars are the ones
      named Sunday and Saturday. */
  lemma DailyChartAligned(selectedArtist: string, es: seq<EngagementData>)
    ensures var chart := DailyChartConfig(selectedArtist, WeekdayTotals(es));
      && |chart.data| == |chart.labels| == 7
      && (forall d :: 0 <= d < 7 ==> chart.data[d] == SumBy(es, DayShare(d)))
      && chart.labels == ["Sunday", "Monday", "Tuesday", "Wednesday", "Thursday", "Friday", "Saturday"]
      && (forall d :: 0 <= d < 7 ==> (IsWeekend(Day(d)) <==> chart.labels[d] in {"Sunday", "Saturday"}))
  {
    TablesDistinct();
  }

}
