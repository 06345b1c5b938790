/** Values shared by the workspace (PolygonCanvas) and the control panel
    (ControlPanel): points, the record kept in local storage and the events
    the two components broadcast to each other on the window. */
module Events {

  datatype Option<T> = None | Some(value: T)

  /** A placed point in canvas coordinates, in whole pixels. */
  datatype Point = Point(x: int, y: int)

  /** The record stored under the single local-storage key 'canvas'. */
  datatype Record = Record(
    points: seq<Point>,
    pathPoints: seq<int>,
    firstPointIndex: Option<int>,
    secondPointIndex: Option<int>,
    clockwise: bool)

  /** A window event with its `detail` payload. States travel as their
      numeric codes, as in the source. */
  datatype Message =
      /** 'create-points', 'draw-polygon', 'path-point' or 'clear', detail { state } */
    | Command(name: string, state: int)
      /** 'clockwise-order', detail { state, clockwise } */
    | ClockwiseOrder(state: int, clockwise: bool)
      /** 'add-point', detail { points }: the new number of points */
    | PointCount(points: int)
      /** 'path-changed', detail { firstPointIndex, secondPointIndex } */
    | PathChanged(firstPointIndex: Option<int>, secondPointIndex: Option<int>)
      /** 'path-built', detail { pathPoints } */
    | PathBuilt(pathPoints: seq<int>)

  /** A polygon may be drawn with 3 to 15 points. The workspace uses this as
      the draw gate, the control panel for its hint and its draw button; the
      gate and the hint spell it as the negated rejection test, the button as
      the range test, and the two agree. */
  function ValidPointCount(count: int): (r: bool)
    ensures r <==> !(count < 3 || count > 15)
    ensures r ==> count > 0
  {
    3 <= count <= 15
  }
}
