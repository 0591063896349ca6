/** How the page's query results reach the chart helpers: each grouped row is
    handed over with its day of week as a number, and the facts the queries
    guarantee are exactly what the helpers need. */
module Pipeline {

  import opened Folds
  import opened GroupBy
  import opened EventTypes
  import opened EngagementQuery
  import opened ChartUtils

  /** A grouped query row as the chart helpers receive it. */
  function ToClient(r: EngagementRow): EngagementData
  {
    EngagementData(r.artistId, r.artistName, r.localHour, Day(r.dayOfWeek),
                   r.totalEngagement, r.eventCount)
  }

  function ClientRows(events: seq<UserEvent>, artists: Artists, users: Users): (es: seq<EngagementData>)
    ensures |es| == |EngagementRows(events, artists, users)|
  {
    var rows := EngagementRows(events, artists, users);
    seq(|rows|, i requires 0 <= i < |rows| => ToClient(rows[i]))
  }

  /** Every row the main query returns has an hour that indexes the 24 hourly
      buckets and a day that the day totals keep, so the hourly aggregation's
      precondition holds and the day totals drop nothing. */
  lemma QueryRowsFitCharts(events: seq<UserEvent>, artists: Artists, users: Users)
    ensures HoursInRange(ClientRows(events, artists, users))
    ensures forall i :: 0 <= i < |ClientRows(events, artists, users)| ==>
              ValidDay(ClientRows(events, artists, users)[i].dayOfWeek)
  {
    var es := ClientRows(events, artists, users);
    forall i | 0 <= i < |es|
      ensures 0 <= es[i].localHour < 24 && ValidDay(es[i].dayOfWeek)
    {
      EngagementRowContents(events, artists, users, i);
    }
  }

  function AdjustedScore(a: AdjustedEvent): int
  {
    a.score
  }

  /** The seven bars of the daily chart add up to the score of every event
      the main query counts. */
  lemma DayTotalsAccountForAllScores(events: seq<UserEvent>, artists: Artists, users: Users)
    ensures var t := WeekdayTotals(ClientRows(events, artists, users));
      t[0] + t[1] + t[2] + t[3] + t[4] + t[5] + t[6]
        == SumBy(AdjustedEvents(events, artists, users), AdjustedScore)
  {
    var adjusted := AdjustedEvents(events, artists, users);
    var scored := ScoreRows(adjusted);
    var groups := GroupRows(scored);
    var es := ClientRows(events, artists, users);
    QueryRowsFitCharts(events, artists, users);
    WeekdayTotalsAccountForValidRows(es);
    SumByMapped(es, ValidShare, groups, GroupSum);
    GroupRowsGrandTotals(scored);
    SumByMapped(scored, RowValue, adjusted, AdjustedScore);
  }

  /** A row of the event-type result as the pie receives it. */
  function ToPieEntry(r: EventTypeRow): EventTypeData
  {
    EventTypeData(r.eventType, r.weightedCount)
  }

  /** Every slice the pie draws from the event-type query is labelled with
      the display name of a kind, never with a raw type string. */
  lemma PieLabelsAreKindLabels(events: seq<UserEvent>, artists: Artists)
    ensures var rows := EventTypeRows(events, artists);
      var pie := EngagementTypesConfig(seq(|rows|, i requires 0 <= i < |rows| => ToPieEntry(rows[i])));
      |pie.labels| == |rows|
      && forall i :: 0 <= i < |rows| ==>
           exists k :: pie.labels[i] == KindLabel(k) && rows[i].eventType == KindName(k)
  {
    var rows := EventTypeRows(events, artists);
    var entries := seq(|rows|, i requires 0 <= i < |rows| => ToPieEntry(rows[i]));
    PieSlices(entries);
    var pie := EngagementTypesConfig(entries);
    forall i | 0 <= i < |rows|
      ensures exists k :: pie.labels[i] == KindLabel(k) && rows[i].eventType == KindName(k)
    {
      EventTypeRowContents(events, artists, i);
      AllowedIffScored(rows[i].eventType);
      var k := ParseKind(rows[i].eventType).value;
      assert pie.labels[i] == KindLabel(k) && rows[i].eventType == KindName(k);
    }
  }

}
