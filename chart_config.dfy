/** The two constant tables the chart helpers draw on: the names of the days
    of the week and the colour palette. */
module ChartConfig {

  /** Day names indexed by day of week, Sunday = 0. */
  const DayNames: seq<string> :=
    ["Sunday", "Monday", "Tuesday", "Wednesday", "Thursday", "Friday", "Saturday"]

  /** The seven-colour palette, one colour per day of the week. */
  const Palette: seq<string> :=
    ["#FF6384", "#36A2EB", "#FFCE56", "#4BC0C0", "#9966FF", "#FF9F40", "#2ecc71"]

  /** Both tables have one entry per day and no repeated entries, so a chart
      that takes its first n colours never paints two series alike. */
  lemma TablesDistinct()
    ensures |DayNames| == 7 && |Palette| == 7
    ensures forall i, j :: 0 <= i < j < 7 ==> Palette[i] != Palette[j]
    ensures forall i, j :: 0 <= i < j < 7 ==> DayNames[i] != DayNames[j]
  {
    forall i, j | 0 <= i < j < 7
      ensures Palette[i] != Palette[j] && DayNames[i] != DayNames[j]
    {
      assert Palette[i][1] != Palette[j][1] || Palette[i][2] != Palette[j][2] || Palette[i][3] != Palette[j][3];
      assert DayNames[i][0] != DayNames[j][0] || DayNames[i][1] != DayNames[j][1];
    }
  }

}
