/**
 The read side that feeds the history chart: the trailing window of records
 projected to (date, intake, goal), and the lower bound of the chart's
 y-axis, which is the smallest intake less 250 ml. Drawing is not modelled.
 */
module ChartHistory {
  import opened Records
  import opened JsonFile
  import opened RecordStore
  import StoreProperties

  datatype Point = Point(date: string, intake: real, goal: int)

  /** The chart's data: the file after the load and one point per day shown. */
  datatype Chart = Chart(file: FileContent, points: seq<Point>)

  /** Margin below the smallest intake on the chart's y-axis. */
  const AxisMargin: real := 250.0

  /** The (date, intake, goal) columns of a window, in the window's order. */
  function Project(window: seq<Record>): (points: seq<Point>)
    ensures |points| == |window|
    ensures forall i :: 0 <= i < |window| ==>
              points[i] == Point(window[i].date, window[i].intake, window[i].goal)
  {
    if |window| == 0 then []
    else [Point(window[0].date, window[0].intake, window[0].goal)] + Project(window[1..])
  }

  /** Python's `min` over the intake column: defined only on a non-empty series. */
  function MinIntake(points: seq<Point>): (m: real)
    requires |points| > 0
    ensures exists i :: 0 <= i < |points| && points[i].intake == m
    ensures forall i :: 0 <= i < |points| ==> m <= points[i].intake
  {
    if |points| == 1 then points[0].intake
    else
      var rest := MinIntake(points[1..]);
      if points[0].intake <= rest then points[0].intake else rest
  }

  /** The y-axis floor of the chart. */
  function AxisFloor(points: seq<Point>): (floor: real)
    requires |points| > 0
    ensures forall i :: 0 <= i < |points| ==> floor + AxisMargin <= points[i].intake
    ensures exists i :: 0 <= i < |points| && floor + AxisMargin == points[i].intake
  {
    MinIntake(points) - AxisMargin
  }

  /** The chart of the last `days` days: load the window and project it. */
  function History(f: FileContent, today: string, days: int): (r: Chart)
    requires days > 0
    ensures ReadJsonFile(r.file) == Rollover(ReadJsonFile(f), today)
    ensures 1 <= |r.points| <= days && r.points[|r.points| - 1].date == today
    ensures var stored := ReadJsonFile(r.file);
            |r.points| == (if days < |stored| then days else |stored|)
            && forall i :: 0 <= i < |r.points| ==>
                 var rec := stored[|stored| - |r.points| + i];
                 r.points[i] == Point(rec.date, rec.intake, rec.goal)
  {
    var recent := GetRecent(f, today, days);
    Chart(recent.file, Project(recent.records))
  }

  /** The chart never sees an empty series, whatever the file held, so its
      floor is always defined; with well-formed records it is at least -250. */
  lemma HistoryFloorDefined(f: FileContent, today: string, days: int)
    requires days > 0
    requires AllWellFormed(ReadJsonFile(f))
    ensures var points := History(f, today, days).points;
            |points| > 0 && AxisFloor(points) >= -AxisMargin
  {
    var chart := History(f, today, days);
    var points := chart.points;
    var stored := ReadJsonFile(chart.file);
    StoreProperties.RolloverKeepsWellFormed(ReadJsonFile(f), today);
    forall i | 0 <= i < |points|
      ensures points[i].intake >= 0.0
    {
      assert WellFormed(stored[|stored| - |points| + i]);
    }
  }
}
