/** The chart and table of a selected site
    (frontend/src/components/SolarChart.jsx): the months are the keys of the
    site's monthly record, the bars are their totals, and the table and the
    tooltip divide each total by its month's day count. */
module SolarChart {
  import opened Common
  import opened MapView

  /** A month's total spread over its days. */
  function PerDay(total: real, m: Month): real
  {
    total / DaysInMonth(m) as real
  }

  /** `months`, `irradiation` and `avgPerDay`: the keys, the values looked up
      by key, and the per-day figures with two decimals. */
  datatype ChartTable = ChartTable(months: seq<Month>, irradiation: seq<real>, avgPerDay: seq<real>)

  function TableOf(monthly: MonthlyRecord): (t: ChartTable)
    ensures |t.months| == |t.irradiation| == |t.avgPerDay| == |monthly|
    ensures t.months == KeysOf(monthly)
    ensures forall i :: 0 <= i < |t.months| ==>
      Lookup(monthly, t.months[i]) == Some(t.irradiation[i])
    ensures forall i :: 0 <= i < |t.months| ==>
      t.avgPerDay[i] == ToFixed(PerDay(t.irradiation[i], t.months[i]), 2)
  {
    var months := KeysOf(monthly);
    var irradiation := seq(|months|, i requires 0 <= i < |months| =>
      assert months[i] in KeysOf(monthly);
      Lookup(monthly, months[i]).value);
    var avgPerDay := seq(|months|, i requires 0 <= i < |months| =>
      ToFixed(PerDay(irradiation[i], months[i]), 2));
    ChartTable(months, irradiation, avgPerDay)
  }

  /** For a record whose keys are distinct, as every object's are, the bars
      are the record's values in key order: the three columns line up with
      the record's properties. */
  lemma {:induction false} TableAlignedWithRecord(monthly: MonthlyRecord)
    requires WellKeyed(monthly)
    ensures TableOf(monthly).irradiation == ValuesOf(monthly)
  {
    var t := TableOf(monthly);
    forall i | 0 <= i < |monthly| ensures t.irradiation[i] == ValuesOf(monthly)[i] {
      LookupAt(monthly, i);
    }
  }

  /** The per-day figure times the day count gives back the month's total,
      up to the two-decimal display. */
  lemma PerDayRecoversMonthlyTotal(monthly: MonthlyRecord, i: nat)
    requires i < |monthly|
    ensures var t := TableOf(monthly);
      var days := DaysInMonth(t.months[i]) as real;
      t.irradiation[i] - days * 0.005 <= t.avgPerDay[i] * days <= t.irradiation[i] + days * 0.005
  {
    var t := TableOf(monthly);
    var days := DaysInMonth(t.months[i]) as real;
    var exact := PerDay(t.irradiation[i], t.months[i]);
    assert 1.0 / (2.0 * Scale(2)) == 0.005;
    assert exact * days == t.irradiation[i];
    var a := t.avgPerDay[i];
    assert exact - 0.005 <= a <= exact + 0.005;
    assert (a - exact) * days <= 0.005 * days;
    assert (exact - a) * days <= 0.005 * days;
  }

  /** What the bar chart is given: labels and values. */
  datatype ChartData = ChartData(labels: seq<Month>, values: seq<real>)

  /** The chart's labels are the record's keys and its bars the record's
      values, pair by pair in key order. */
  function ChartDataOf(monthly: MonthlyRecord): (c: ChartData)
    ensures |c.labels| == |c.values| == |monthly|
    ensures c.labels == KeysOf(monthly)
    ensures WellKeyed(monthly) ==> c.values == ValuesOf(monthly)
  {
    var t := TableOf(monthly);
    assert WellKeyed(monthly) ==> t.irradiation == ValuesOf(monthly) by {
      if WellKeyed(monthly) {
        TableAlignedWithRecord(monthly);
      }
    }
    ChartData(t.months, t.irradiation)
  }

  /** One row of the summary table: month, total and per-day figure, the
      total shown with two decimals. */
  datatype Row = Row(month: Month, perMonth: real, perDay: real)

  function Rows(t: ChartTable): seq<Row>
    requires |t.irradiation| == |t.months| == |t.avgPerDay|
  {
    seq(|t.months|, i requires 0 <= i < |t.months| =>
      Row(t.months[i], ToFixed(t.irradiation[i], 2), t.avgPerDay[i]))
  }

  /** The two lines of a bar's tooltip, from its label and raw value. */
  datatype Tooltip = Tooltip(irradiation: real, avgPerDay: real)

  function TooltipFor(month: Month, raw: real): Tooltip
  {
    Tooltip(ToFixed(raw, 2), ToFixed(PerDay(raw, month), 2))
  }

  /** Hovering bar i shows exactly the figures of table row i: the tooltip
      divides by the same day count as the table. */
  lemma TooltipMatchesRow(monthly: MonthlyRecord, i: nat)
    requires i < |monthly|
    ensures var t := TableOf(monthly);
      var c := ChartDataOf(monthly);
      var tip := TooltipFor(c.labels[i], c.values[i]);
      var row := Rows(t)[i];
      row.month == c.labels[i] && tip.irradiation == row.perMonth && tip.avgPerDay == row.perDay
  {
  }
}
