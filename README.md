# Engagement analytics: a verified model

This project models the analytics core of an artist-engagement dashboard in Dafny. The core has two halves.

The first half is the server query layer. Three SQL statements do the work:

- They project each user event into the user's local time, using a fixed six-entry timezone offset table.
- They score events by type and keep only four allowed types.
- They drop events whose user's timezone is not in the table.
- They group the events by (artist, local hour, day of week), with the sum of scores and the event count.
- A second query computes weighted counts per (artist, event type).

The second half is the client-side chart helpers:

- They average the grouped rows into 24 hourly buckets, split into weekdays and weekends.
- They total engagement per day of week.
- They sort artists by the number in their names.
- They label event types.
- They build the parallel label, data and colour sequences the charts draw.

Modules, in dependency order:

- `Wrappers`: `Option`.
- `Folds`: `SumBy`, the sum of a per-element quantity, which is the shape of SQL `SUM` and `COUNT` and of the helpers' accumulation loops. It also holds lemmas on concatenation, permutation, monotonicity and termwise-equal sums.
- `LexOrder`: lexicographic order on integer tuples, which is SQL `ORDER BY` on integer columns. It also holds a stable insertion sort by key, proved sorted and a permutation.
- `GroupBy`: `GROUP BY` with `SUM` and `COUNT(*)`. It is modelled as insertion into a list of groups kept strictly ordered by key. Each group's sum and count are proved to equal those of the input rows with its key.
- `EventTypes`: the four event kinds and their names.
- `ChartConfig`: the day names and the seven-colour palette.
- `EngagementQuery`: the two analytics queries of the page server (`src/routes/task-2/+page.server.ts`).
- `ChartUtils`: the chart helpers (`src/lib/chartUtils.ts`). `aggregateHourlyData` and `processWeekdayData` are methods that fill an array in a loop. Each is proved equal to a specification function, and the properties are lemmas about those functions.
- `Pipeline`: connects the two halves. Every query row fits the helpers' domain. The day totals account for every counted event. Every pie slice carries a kind's label.

Modelling choices:

- Tables are materialised values. `artists` and `users` are maps keyed by primary key, so an inner join is a map lookup. Events are a sequence.
- `created_at` is a non-negative count of milliseconds since the epoch.
- SQLite's integer `%` keeps the sign of the dividend. It is written out as `TruncMod`.
- The weekday of an instant is `(seconds / 86400 + 4) % 7`, because 1970-01-01 was a Thursday.
- Averages are exact `real` divisions with a divisor of `count`, or 1 when the count is 0.
- The day-of-week field the helpers receive is `Day(n)` or `NotANumber`. This models the result of numeric conversion.
- The main query groups by artist id, artist name, hour and day. The name is a function of the id, so the model groups by `[artist_id, day_of_week, local_hour]`. This is also the `ORDER BY` order, so the grouped result comes out sorted.
- The event-type query groups by `[artist_id, kind rank]`. It then sorts stably by `[artist_id, -weighted_count]`. Rows of one artist with equal weighted counts stay in kind-rank order (share, like, add to playlist, play). SQL leaves that order unspecified.
- `day_of_week` is text from `strftime('%w')`. Ordering one-digit text is the same as ordering the digit, so it is treated as an integer.

Facts about the code worth knowing:

- The local hour and the local day come from two separate computations: modular arithmetic on the UTC hour, and the weekday of the shifted instant. For the whole-hour offsets of the table they always agree. `EngagementQuery.LocalHourOfShiftedInstant` proves that the local hour is the hour of day of the same shifted instant whose weekday is reported. `EngagementQuery.LocalHourOfWeek` proves that the reported day and hour together give that instant's hour of the week.
- The hourly and daily helpers take the grouped rows, one per (artist, day, hour). An hourly average is therefore an average of group totals over the groups in a bucket, not of event scores.
- `processWeekdayData` returns sums. The bar chart's dataset is nevertheless labelled "Average Engagement Score", and the per-day counts it gathers are never used. The model keeps the sums.

## Model

| member | source | states |
|---|---|---|
| EngagementQuery.OffsetHours | src/routes/task-2/+page.server.ts:12-20 | The offset join resolves a timezone iff it is in the table, to an offset in -7..10. `OffsetTable` pins each entry. |
| EngagementQuery.OffsetTable | src/routes/task-2/+page.server.ts:12-20 | The offset join resolves exactly the six listed zones to -4, -7, +1, +9, +10 and +2 hours. Every other name fails to resolve. All offsets lie in -7..10. |
| EngagementQuery.EngagementScore | src/routes/task-2/+page.server.ts:30-36 | The score CASE gives every type a score in 0..3. `AllowedIffScored` states its four values and the ELSE branch. |
| EngagementQuery.AllowedIffScored | src/routes/task-2/+page.server.ts:30-41 | A type passes the allow-list iff its CASE score is positive iff it is one of the four kinds. The scores are share_track 3, like_track 2, add_track_to_playlist 2 and play_track 1. Every other type takes the ELSE branch and scores exactly 0. |
| EngagementQuery.TypeWeight | src/routes/task-2/+page.server.ts:70-81 | The weight CASE of the event-type query gives each kind a weight in 1..3, equal to that kind's score in the main query. |
| EngagementQuery.ScoreMatchesWeight | src/routes/task-2/+page.server.ts:70-81 | The event-type query's weight CASE gives each kind the same weight as the main query's score, and every kind is allowed. The weight is 3 exactly for share, 2 exactly for like and add to playlist, and 1 exactly for play. |
| EngagementQuery.LocalHour | src/routes/task-2/+page.server.ts:26-27 | `(utcHour + offset + 24) % 24`, with SQLite's truncating `%`, is a valid hour for every offset of at least -24. `LocalHourOfShiftedInstant` ties it to the shifted instant. |
| EngagementQuery.LocalDayOfWeek | src/routes/task-2/+page.server.ts:28-29 | The weekday of `created_at/1000 + offset*3600` seconds is in 0..6. `LocalHourOfWeek` ties it to the local hour. |
| EngagementQuery.LocalTimeInRange | src/routes/task-2/+page.server.ts:26-29 | `(utcHour + offset + 24) % 24` lies in 0..23 for every offset of at least -24 hours, so for every offset in the table. The weekday of the shifted instant lies in 0..6. |
| EngagementQuery.LocalHourOfShiftedInstant | src/routes/task-2/+page.server.ts:25-29 | For whole-hour offsets, the modular local hour equals the hour of day of the instant `created_at/1000 + offset*3600`. That is the same instant whose weekday gives `day_of_week`. |
| EngagementQuery.HourOfWeek | src/routes/task-2/+page.server.ts:28-29 | Weekday times 24 plus hour of day is the instant's hour of the week counted from Sunday 00:00, so the (day, hour) pair of an instant is consistent. |
| EngagementQuery.LocalHourOfWeek | src/routes/task-2/+page.server.ts:25-29 | For every offset of at least -24 hours, `day_of_week`·24 + `local_hour` of an event is the hour of the week, counted from Sunday 00:00, of its offset-shifted timestamp. |
| EngagementQuery.AdjustedEvents | src/routes/task-2/+page.server.ts:21-42 | adjusted_events holds at most one row per event. Each row has an hour in 0..23, a day in 0..6, a score in 1..3 and the name of an existing artist. `AdjustedEventsSingle` and `AdjustedEventsAppend` fix every row's contents. |
| EngagementQuery.AdjustedEventsCount | src/routes/task-2/+page.server.ts:37-41 | Exactly the events that survive the three inner joins and the allow-list reach adjusted_events. |
| EngagementQuery.AdjustedEventsAppend | src/routes/task-2/+page.server.ts:21-42 | adjusted_events is computed event by event: the result for a concatenation of event lists is the concatenation of the results. |
| EngagementQuery.AdjustedEventsSingle | src/routes/task-2/+page.server.ts:21-42 | One event yields one row iff it survives the joins and the allow-list. The row holds its artist id and name, `LocalHour` and `LocalDayOfWeek` of its timestamp under its user's offset, and the CASE score of its type. Otherwise it yields nothing. |
| EngagementQuery.UnknownTimezoneExcluded | src/routes/task-2/+page.server.ts:40 | An event whose user's timezone is not in the table is dropped silently, wherever it stands in the input. The result is as if the event were absent. |
| EngagementQuery.EngagementRows | src/routes/task-2/+page.server.ts:43-52 | The main query's rows have an hour in 0..23, a day in 0..6, an existing artist and at least one event. `EngagementRowsOrdered`, `EngagementRowContents` and `EngagementCountsAddUp` carry the rest. |
| EngagementQuery.EngagementRowsOrdered | src/routes/task-2/+page.server.ts:52 | Grouped rows come strictly ordered by (artist_id, day_of_week, local_hour), so no grouping key appears twice. |
| EngagementQuery.EngagementRowContents | src/routes/task-2/+page.server.ts:21-51 | Each grouped row's total_engagement is the sum of the CASE scores of the input events that survive the joins and the allow-list and fall on its artist, local day and local hour. Its event_count is their number, and is at least 1. The same sums taken over adjusted_events agree. The hour and day are in range and the name is the artist's. count ≤ total ≤ 3·count. |
| EngagementQuery.AdjustedSumsOverEvents | src/routes/task-2/+page.server.ts:21-51 | Summing scores or counts per (artist, day, hour) key over adjusted_events equals summing over the input events, each qualifying event placed at its local key with its CASE score. |
| EngagementQuery.EngagementCountsAddUp | src/routes/task-2/+page.server.ts:43-51 | The event_count values of all grouped rows add up to the number of qualifying events. |
| EngagementQuery.EventTypeRows | src/routes/task-2/+page.server.ts:64-86 | One row per group: an existing artist, an allowed type and at least one event. `EventTypeRowsOrdered`, `EventTypeRowsDistinct`, `EventTypeRowContents` and `EventTypeCountsAddUp` carry the rest. |
| EngagementQuery.EventTypeRowsDistinct | src/routes/task-2/+page.server.ts:85 | No two event-type rows share an (artist_id, event_type) pair: GROUP BY gives one row per pair. |
| EngagementQuery.EventTypeRowsOrdered | src/routes/task-2/+page.server.ts:86 | Event-type rows come by artist_id ascending, and within one artist by weighted_count descending. |
| EngagementQuery.EventTypeRowContents | src/routes/task-2/+page.server.ts:64-85 | Each event-type row has an allowed type, weight equal to the type's score, and weighted_count = count · weight. That product is also the total score of the counted events. count ≥ 1 is the number of events of that artist and type, and the name is the artist's. |
| EngagementQuery.TypeRowsCount | src/routes/task-2/+page.server.ts:82-84 | The rows entering the event-type grouping are exactly the events with an existing artist and an allowed type. |
| EngagementQuery.EventTypeCountsAddUp | src/routes/task-2/+page.server.ts:64-85 | The counts of all event-type rows add up to the number of events with an existing artist and an allowed type. |
| EngagementQuery.TimezoneFilterOnlyInMainQuery | src/routes/task-2/+page.server.ts:82-84 | The event-type query joins no users and no offsets, so its counts total at least the main query's event counts. |
| GroupBy.GroupRows | src/routes/task-2/+page.server.ts:43-51 | The grouped result is strictly ordered by key and every group has at least one row. |
| GroupBy.GroupRowsTotals | src/routes/task-2/+page.server.ts:48-49 | For every key, the result's sum and count (0 and 0 if the key is absent) equal the SUM of values and COUNT(*) of the input rows with that key. |
| GroupBy.GroupMatchesRows | src/routes/task-2/+page.server.ts:48-51 | Each group's sum and count are those of the input rows with its key, and the count is at least 1. |
| GroupBy.GroupRowsGrandTotals | src/routes/task-2/+page.server.ts:48-49 | The groups' counts add up to the number of rows and their sums to the sum of all values. Grouping neither loses nor duplicates a row. |
| GroupBy.UniformSum | src/routes/task-2/+page.server.ts:76-81 | When every row with a key carries the same value w, the group's SUM is w times its COUNT(*). This is the `COUNT(*) * weight` identity. |
| LexOrder.TripleLess | src/routes/task-2/+page.server.ts:52 | Key order on three-column keys is ORDER BY on the first column, then the second, then the third. |
| LexOrder.PairLess | src/routes/task-2/+page.server.ts:86 | Key order on two-column keys is ORDER BY on the first column, then the second. |
| LexOrder.SortByKey | src/routes/task-2/+page.server.ts:86 | Sorting by key returns a permutation of its input that is ordered by key. |
| EventTypes.ParseKind | src/lib/chartUtils.ts:33-40 | A recognised event type string is the name of the kind it parses to. |
| EventTypes.ParseKindName | src/lib/chartUtils.ts:34-38 | Every kind's name parses back to that kind. |
| EventTypes.KindOfRankInverse | src/routes/task-2/+page.server.ts:85 | Helper: the rank used as the event-type grouping column identifies the kind, because rank then kind is the identity. |
| ChartConfig.TablesDistinct | src/lib/chartConfig.ts:1-11 | There are seven day names, Sunday first, and seven palette colours, with no entry repeated in either table. |
| ChartUtils.AggregateHourlyData | src/lib/chartUtils.ts:43-75 | The in-place loop over 24 bucket records returns three sequences of 24 entries. They equal the weekday, weekend and all-days averages of each hour (`HourlyAverages`). The loop invariant is that each bucket holds the tallies of the rows seen so far. |
| ChartUtils.HourlyAverages | src/lib/chartUtils.ts:70-74 | The specification of the aggregation: three sequences of 24 averages. `StatsAtIsBucketSum`, `EmptyBucketAveragesZero`, `AllDaysIsWeightedMeanOfSplit` and `HourlyAveragesOrderIndependent` carry its properties. |
| ChartUtils.StatsAtIsBucketSum | src/lib/chartUtils.ts:54-68 | A bucket's sum is the total of total_engagement, and its count the number of rows, over the rows at that hour in that category. A row touches only its own hour. |
| ChartUtils.AllIsWeekdayPlusWeekend | src/lib/chartUtils.ts:57-67 | A row goes to weekend exactly when its day is 0 or 6, otherwise to weekday, and always to all. So all.sum = weekday.sum + weekend.sum and all.count = weekday.count + weekend.count. |
| ChartUtils.ConsistentTallies | src/lib/chartUtils.ts:57-67 | The same split identities, plus: a tally with no rows has sum 0. |
| ChartUtils.EmptyBucketAveragesZero | src/lib/chartUtils.ts:71-73 | A bucket with no rows averages to 0, because the divisor is count-or-1. A non-empty all-days bucket averages to sum / count. |
| ChartUtils.AverageTimesCount | src/lib/chartUtils.ts:71-73 | The count-or-1 average times the count gives back the sum, for empty and non-empty tallies alike. |
| ChartUtils.AveragesAt | src/lib/chartUtils.ts:70-74 | Helper: entry h of each output sequence is the average of hour h's tally in that category. |
| ChartUtils.WeightedMean | src/lib/chartUtils.ts:71-73 | For tallies that split consistently, the all-days average times its count is the weekday average times its count plus the weekend average times its count. |
| ChartUtils.AllDaysIsWeightedMeanOfSplit | src/lib/chartUtils.ts:57-73 | At every hour, the all-days average is the count-weighted mean of the weekday and weekend averages. |
| ChartUtils.ReportedAllDaysIsWeightedMean | src/lib/chartUtils.ts:70-74 | The same relation holds between the three sequences the aggregation returns, at every hour 0..23. |
| ChartUtils.HourlyAveragesOrderIndependent | src/lib/chartUtils.ts:54-74 | Reordering the input rows leaves all three average sequences unchanged. |
| ChartUtils.AddWeekdayRow | src/lib/chartUtils.ts:62-67 | Helper: appending a weekday row at hour h adds its total and one to the weekday and all-days tallies of h and leaves the weekend tally alone. |
| ChartUtils.ThreeWeekdayRowsAverageTwo | src/lib/chartUtils.ts:54-73 | Three weekday rows at hour 10 with totals 1, 2 and 3 give weekday[10] = allDays[10] = 2. |
| ChartUtils.WeekdayTotals | src/lib/chartUtils.ts:222-235 | The specification of the day totals: seven slots. `ProcessWeekdayData`, `WeekdayTotalsAccountForValidRows` and `WeekdayTotalsOrderIndependent` carry its properties. |
| ChartUtils.ProcessWeekdayData | src/lib/chartUtils.ts:222-235 | The in-place loop over a seven-slot array returns seven entries, equal to `WeekdayTotals`. Slot d is the sum of total_engagement over the rows whose day is d; rows whose day is not a number or outside 0..6 add nothing. |
| ChartUtils.WeekdayTotalsAccountForValidRows | src/lib/chartUtils.ts:226-232 | The seven slots together hold exactly the engagement of the rows with a valid day. Nothing valid is lost and nothing invalid slips in. |
| ChartUtils.WeekdayTotalsOrderIndependent | src/lib/chartUtils.ts:226-232 | Reordering the rows leaves the day totals unchanged. |
| ChartUtils.DecimalRoundTrip | src/lib/chartUtils.ts:216-217 | Reading the decimal digits of n back as an integer, as `parseInt` does, gives n. |
| ChartUtils.ArtistNumberOfName | src/lib/chartUtils.ts:216-217 | "Artist " followed by the digits of n is a numbered name. Removing the prefix and parsing the rest gives n. |
| ChartUtils.SortArtists | src/lib/chartUtils.ts:214-220 | For names of the form "Artist <digits>", the result is a permutation of the input, ascending by the number in the name. The input, a value, is untouched. |
| ChartUtils.SortTwo | src/lib/chartUtils.ts:215-219 | Two artists with different numbers come out smaller number first, whichever order they came in. |
| ChartUtils.TwoBeforeTen | src/lib/chartUtils.ts:214-220 | "Artist 2" is placed before "Artist 10": the order is numeric, not textual. |
| ChartUtils.FormatEventType | src/lib/chartUtils.ts:181-188 | A string that is not one of the four type names is returned unchanged. |
| ChartUtils.FormatKnownType | src/lib/chartUtils.ts:181-188 | Each known type name maps to its own label, which differs from the name: share_track to "Share Track", like_track to "Like Track", add_track_to_playlist to "Add to Playlist", play_track to "Play Track". |
| ChartUtils.LabelsDistinguishKinds | src/lib/chartUtils.ts:182-187 | Two kinds get the same label iff they are the same kind. |
| ChartUtils.FormatChangesExactlyKnownNames | src/lib/chartUtils.ts:181-188 | Formatting leaves a string unchanged iff it is not a known type name. |
| ChartUtils.PaletteSlice | src/lib/chartUtils.ts:207 | `colors.slice(0, n)` has min(n, 7) entries, and entry i is palette colour i. |
| ChartUtils.EngagementTypesConfig | src/lib/chartUtils.ts:189-213 | The pie has one label and one datum per input entry and at most seven colours. `PieSlices` states the positional contents and the distinct colours. |
| ChartUtils.PieSlices | src/lib/chartUtils.ts:189-213 | Labels and data are parallel to the input: label i is the formatted type of entry i and datum i its weighted_count. With at most seven entries there is one colour per slice, and no two slices share a colour. |
| ChartUtils.HourLabelRoundTrip | src/lib/chartUtils.ts:118-121 | The label of hour h is two decimal digits followed by ":00", and it reads back as h. |
| ChartUtils.HourLabelsNameEachHour | src/lib/chartUtils.ts:118-121 | The 24 axis labels name hours 0..23 in order, each exactly once. |
| ChartUtils.EngagementChartConfig | src/lib/chartUtils.ts:77-151 | 24 axis labels and the title "Hourly Engagement Pattern for " plus the artist. Split mode gives "Weekdays" in palette colour 1 and then "Weekends" in colour 0. The other mode gives "All" in colour 2. Every line's fill is its border colour with the "33" alpha suffix. |
| ChartUtils.EngagementChartAligned | src/lib/chartUtils.ts:77-123 | Split mode gives a "Weekdays" line in #36A2EB and then a "Weekends" line in #FF6384. The other mode gives one "All" line in #FFCE56. Every line has one point per axis label. Label h reads back as h, and the point under it is hour h's average for that line's days. |
| ChartUtils.DailyChartConfig | src/lib/chartUtils.ts:152-180 | The labels are the day names and the data is the input sequence itself. The legend is "Average Engagement Score" and the title is "Daily Engagement Pattern for " plus the artist. |
| ChartUtils.DailyChartAligned | src/lib/chartUtils.ts:152-167 | Built from the day totals: seven bars under "Sunday" through "Saturday" in order, bar d holding the engagement of day d. The weekend days 0 and 6 are exactly the bars named Sunday and Saturday. |
| Pipeline.QueryRowsFitCharts | src/routes/task-2/+page.server.ts:26-29 | Every row the main query returns has an hour in 0..23, the precondition of the hourly aggregation, and a day in 0..6, so the day totals drop no row. |
| Pipeline.DayTotalsAccountForAllScores | src/lib/chartUtils.ts:222-235 | Fed the main query's rows, the seven daily bars add up to the score of every event the query counts. |
| Pipeline.PieLabelsAreKindLabels | src/lib/chartUtils.ts:203 | Every slice of a pie drawn from the event-type query is labelled with a kind's display name, never with a raw type string. |

## Left out

- Database access in `load`: the `locals.db` check, `prepare(...).all()` and the try/catch that rethrows "Failed to fetch data". This is I/O, so the queries are functions of materialised tables.
- The artists list query (`SELECT DISTINCT id, name FROM artists ORDER BY name`). It is a plain sorted projection of a table and feeds only the artist selector.
- The other page's server query (`src/routes/task-1/+page.server.ts`). It is outside the engagement pipeline, and its behaviour is SQLite's own LEFT JOIN and NULL semantics.
- Chart option objects, tooltip callbacks with `toFixed(1)`, fonts, border widths and line tension. These are renderer configuration. Titles are kept as strings.
- Floating-point division. Averages are exact reals.
- SQLite `strftime`/`datetime` internals and calendar dates. Only epoch-second arithmetic on non-negative timestamps is modelled. Daylight saving is not modelled by the source either.
- Negative `created_at`: timestamps are taken to be after 1970.
- ChartUtils.AggregateHourlyData: requires every hour to be in 0..23. For other hours the source indexes a missing bucket and faults. The query never produces such an hour (`Pipeline.QueryRowsFitCharts`).
- ChartUtils.SortArtists: requires every name to be "Artist " followed by digits. Other names make `parseInt` give NaN, and the comparator is then inconsistent, so the order is implementation-defined. The whitespace and sign handling of `parseInt` is not modelled.
- ChartUtils.SortArtists: stability of the sort among artists with equal numbers is not stated.
- ChartUtils.FormatEventType: the lookup in an object literal also answers inherited property names such as "constructor". The model treats those as unknown strings returned unchanged.
- `Number(...)` coercion of `day_of_week` and `local_hour` on the client. Days arrive as `Day(n)` or `NotANumber`, and hours as integers.
- The unused `labels` local in `createEngagementTypesConfig` and the unused `weekdayCounts` in `processWeekdayData`. Both are dead code.
- A historical date-window filter on the queries. The shown queries have none.
