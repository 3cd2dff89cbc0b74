/** The clicks-over-time chart: one point per row, carrying the row's date
    and its number of clicks, in ascending date order. */
module LineChart {
  import opened Types
  import opened Sorting

  datatype Point = Point(date: int, clicks: nat)

  /** The point of one row. */
  function PointOf(row: DataRow): (p: Point)
    ensures p.date == row.horaFecha && p.clicks == |row.clics|
  {
    Point(row.horaFecha, |row.clics|)
  }

  /** `chartData`: `data.map` into points, a fresh array. */
  function ChartPoints(data: seq<DataRow>): (r: seq<Point>)
    ensures |r| == |data|
    ensures forall i :: 0 <= i < |data| ==> r[i] == PointOf(data[i])
  {
    seq(|data|, i requires 0 <= i < |data| => PointOf(data[i]))
  }

  /** The comparator `a.date - b.date` does not put `a` after `b`. */
  predicate ByDate(a: Point, b: Point)
  {
    a.date <= b.date
  }

  lemma ByDateIsTotalPreorder()
    ensures TotalPreorder(ByDate)
  {
  }

  /** `sortedChartData`: the points sorted by ascending date. */
  function SortedChartData(data: seq<DataRow>): seq<Point>
  {
    InsertionSort(ChartPoints(data), ByDate)
  }

  /** One point per row, in non-decreasing date order, and exactly the
      mapped points rearranged. */
  lemma SortedChartDataIsSorting(data: seq<DataRow>)
    ensures |SortedChartData(data)| == |data|
    ensures forall i, j :: 0 <= i < j < |SortedChartData(data)| ==>
      SortedChartData(data)[i].date <= SortedChartData(data)[j].date
    ensures multiset(SortedChartData(data)) == multiset(ChartPoints(data))
  {
    ByDateIsTotalPreorder();
    InsertionSortIsSorting(ChartPoints(data), ByDate);
  }

  /** Every point shown is the point of some row. */
  lemma PointsComeFromRows(data: seq<DataRow>, p: Point)
    requires p in SortedChartData(data)
    ensures exists i :: 0 <= i < |data| && p.date == data[i].horaFecha && p.clicks == |data[i].clics|
  {
    SortedChartDataIsSorting(data);
    assert p in multiset(ChartPoints(data));
    var i :| 0 <= i < |data| && ChartPoints(data)[i] == p;
  }

  /** And every row's point is shown. */
  lemma RowsArePlotted(data: seq<DataRow>, i: int)
    requires 0 <= i < |data|
    ensures PointOf(data[i]) in SortedChartData(data)
  {
    SortedChartDataIsSorting(data);
    assert ChartPoints(data)[i] in multiset(ChartPoints(data));
  }
}
