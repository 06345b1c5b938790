/** The workspace component: it owns the placed points, the chosen path
    endpoints, the walking direction and the path, reacts to the control
    panel's commands and to clicks, and persists its state after every path
    it builds. Rendering is not modelled; see README. */
module Canvas {
  import opened Events
  import opened PathWalk

  /** A click at (x, y) selects point p when it falls within 5 px of p's
      centre; with integer coordinates this is a squared distance below 25. */
  function Hit(p: Point, x: int, y: int): (r: bool)
    ensures x == p.x && y == p.y ==> r
    ensures r ==> -5 < x - p.x < 5 && -5 < y - p.y < 5
  {
    SquareBelow25(x - p.x);
    SquareBelow25(y - p.y);
    (x - p.x) * (x - p.x) + (y - p.y) * (y - p.y) < 25
  }

  /** A square is never negative, and it is below 25 only for -4..4. */
  lemma SquareBelow25(d: int)
    ensures 0 <= d * d
    ensures d * d < 25 ==> -5 < d < 5
  {
    if d >= 5 {
      assert d * d >= 5 * d;
    } else if d <= -5 {
      assert d * d >= -5 * d;
    }
  }

  /** The lowest index whose point the click at (x, y) selects, if any. */
  function FirstHit(points: seq<Point>, x: int, y: int): (r: Option<int>)
    ensures r.None? <==> forall j :: 0 <= j < |points| ==> !Hit(points[j], x, y)
    ensures r.Some? ==> 0 <= r.value < |points| && Hit(points[r.value], x, y)
    ensures r.Some? ==> forall j :: 0 <= j < r.value ==> !Hit(points[j], x, y)
  {
    if |points| == 0 then None
    else if Hit(points[0], x, y) then Some(0)
    else
      match FirstHit(points[1..], x, y)
      case None => None
      case Some(i) => Some(i + 1)
  }

  /** Whether buildPath draws a path for these endpoints on a polygon of n
      points: both chosen and different, and both vertices of the polygon.
      The last condition is not checked by the source; see README, Findings. */
  /** For such endpoints the two directions give two paths that share only
      the endpoints and together visit every vertex: their lengths add up to
      n + 2. */
  function CanBuild(start: Option<int>, end: Option<int>, n: int): (r: bool)
    ensures r ==>
      && start.Some? && end.Some? && 0 <= start.value < n && 0 <= end.value < n
      && 2 <= |Walk(start.value, end.value, n, true)| <= n
      && |Walk(start.value, end.value, n, true)| + |Walk(start.value, end.value, n, false)| == n + 2
  {
    && start.Some? && end.Some? && start.value != end.value
    && 0 <= start.value < n && 0 <= end.value < n
  }

  /** The path after buildPath: when it builds one, a path of 2 to n vertices
      from the start to the end; otherwise the previous path, untouched. */
  function Rebuilt(prior: seq<int>, start: Option<int>, end: Option<int>, n: int, clockwise: bool): (r: seq<int>)
    ensures !CanBuild(start, end, n) ==> r == prior
    ensures CanBuild(start, end, n) ==>
      && 2 <= |r| <= n && r[0] == start.value && r[|r| - 1] == end.value
      && forall k :: 0 <= k < |r| ==> 0 <= r[k] < n
  {
    if CanBuild(start, end, n) then
      WalkShape(start.value, end.value, n, clockwise);
      WalkInRange(start.value, end.value, n, clockwise);
      Walk(start.value, end.value, n, clockwise)
    else prior
  }

  /** The workspace state that loading record r produces: only the path can
      differ from the record, and it is rebuilt from the stored endpoints. */
  function Reload(r: Record): (s: Record)
    ensures s.points == r.points && s.clockwise == r.clockwise
    ensures s.firstPointIndex == r.firstPointIndex && s.secondPointIndex == r.secondPointIndex
    ensures !CanBuild(r.firstPointIndex, r.secondPointIndex, |r.points|) ==> s == r
    ensures CanBuild(r.firstPointIndex, r.secondPointIndex, |r.points|) ==>
      && 2 <= |s.pathPoints| && s.pathPoints[0] == r.firstPointIndex.value
      && s.pathPoints[|s.pathPoints| - 1] == r.secondPointIndex.value
  {
    r.(pathPoints := Rebuilt(r.pathPoints, r.firstPointIndex, r.secondPointIndex, |r.points|, r.clockwise))
  }

  /** A record written by the workspace, whose path is what buildPath left
      for its fields, reloads to itself. */
  lemma SavedRecordReloads(points: seq<Point>, prior: seq<int>, first: Option<int>, second: Option<int>, clockwise: bool)
    ensures var saved := Record(points, Rebuilt(prior, first, second, |points|, clockwise), first, second, clockwise);
      Reload(saved) == saved
  {
  }

  /** Loading twice gives what loading once gives. */
  lemma ReloadIdempotent(r: Record)
    ensures Reload(Reload(r)) == Reload(r)
  {
  }

  class PolygonCanvas {
    /** Whether the point-placement click listener is attached
        (`canvasClickListener !== null`). */
    var placementArmed: bool
    var points: seq<Point>
    var pathPoints: seq<int>
    var firstPointIndex: Option<int>
    var secondPointIndex: Option<int>
    var clockwise: bool
    /** The numeric state that armed endpoint selection: 3 picks the first
        endpoint, any other value the second. */
    var choosingPathPoint: Option<int>
    /** The local-storage key 'canvas'; None when absent or unreadable. */
    var storage: Option<Record>
    /** The events dispatched on the window, oldest first. */
    var outbox: seq<Message>

    /** The fields that are persisted. */
    function Snapshot(): (r: Record)
      reads this
      ensures pathPoints == Rebuilt(pathPoints, firstPointIndex, secondPointIndex, |points|, clockwise) ==>
        Reload(r) == r
    {
      Record(points, pathPoints, firstPointIndex, secondPointIndex, clockwise)
    }

    constructor(stored: Option<Record>)
      ensures !placementArmed && points == [] && pathPoints == []
      ensures firstPointIndex == None && secondPointIndex == None
      ensures clockwise && choosingPathPoint == None
      ensures storage == stored && outbox == []
    {
      placementArmed := false;
      points := [];
      pathPoints := [];
      firstPointIndex := None;
      secondPointIndex := None;
      clockwise := true;
      choosingPathPoint := None;
      storage := stored;
      outbox := [];
    }

    /** 'create-points': attach the placement listener unless it is already
        attached, so arming twice is the same as arming once. */
    method HandleCreatePointsEvent()
      modifies this`placementArmed
      ensures placementArmed
    {
      if placementArmed {
        return;
      }
      placementArmed := true;
    }

    /** A click on the workspace: the placement listener adds a point, and
        does nothing once it is detached. */
    method HandleCanvasClick(x: int, y: int)
      modifies this`points, this`outbox
      ensures old(placementArmed) ==> points == old(points) + [Point(x, y)]
      ensures old(placementArmed) ==> outbox == old(outbox) + [PointCount(|points|)]
      ensures !old(placementArmed) ==> points == old(points) && outbox == old(outbox)
    {
      if placementArmed {
        var _ := AddPoint(x, y);
      }
    }

    /** Append one point, with no upper limit, and report the new count. */
    method AddPoint(x: int, y: int) returns (pointNumber: int)
      modifies this`points, this`outbox
      ensures points == old(points) + [Point(x, y)]
      ensures pointNumber == |old(points)| + 1
      ensures outbox == old(outbox) + [PointCount(pointNumber)]
    {
      points := points + [Point(x, y)];
      pointNumber := |points|;
      outbox := outbox + [PointCount(pointNumber)];
    }

    /** The draw gate: the outline is drawn only for 3 to 15 points. */
    method DrawPolygon() returns (drawn: bool)
      ensures drawn <==> 3 <= |points| <= 15
    {
      if |points| < 3 || |points| > 15 {
        return false;
      }
      drawn := true;
    }

    /** 'draw-polygon': detach the placement listener, then draw. */
    method HandleDrawPolygonEvent() returns (drawn: bool)
      modifies this`placementArmed
      ensures !placementArmed
      ensures drawn <==> ValidPointCount(|points|)
    {
      if placementArmed {
        placementArmed := false;
      }
      drawn := DrawPolygon();
    }

    /** 'path-point': arm endpoint selection with the sender's state. */
    method HandleChoosePathPoint(state: int)
      modifies this`choosingPathPoint
      ensures choosingPathPoint == Some(state)
    {
      choosingPathPoint := Some(state);
    }

    /** A click while endpoint selection may be armed: the first point in
        index order within the hit radius becomes the endpoint of the armed
        role, the endpoints are reported, the path is rebuilt and selection
        disarms. Without a hit nothing changes and selection stays armed. */
    method HandlePointClick(x: int, y: int)
      modifies this`firstPointIndex, this`secondPointIndex, this`choosingPathPoint
      modifies this`pathPoints, this`storage, this`outbox
      ensures old(choosingPathPoint).None? || FirstHit(points, x, y).None? ==>
        && firstPointIndex == old(firstPointIndex) && secondPointIndex == old(secondPointIndex)
        && choosingPathPoint == old(choosingPathPoint) && pathPoints == old(pathPoints)
        && storage == old(storage) && outbox == old(outbox)
      ensures old(choosingPathPoint).Some? && FirstHit(points, x, y).Some? ==>
        var i := FirstHit(points, x, y).value;
        && firstPointIndex == (if old(choosingPathPoint) == Some(3) then Some(i) else old(firstPointIndex))
        && secondPointIndex == (if old(choosingPathPoint) == Some(3) then old(secondPointIndex) else Some(i))
        && choosingPathPoint == None
        && pathPoints == Rebuilt(old(pathPoints), firstPointIndex, secondPointIndex, |points|, clockwise)
        && outbox == old(outbox) + [PathChanged(firstPointIndex, secondPointIndex)]
                     + (if CanBuild(firstPointIndex, secondPointIndex, |points|) then [PathBuilt(pathPoints)] else [])
        && storage == (if CanBuild(firstPointIndex, secondPointIndex, |points|) then Some(Snapshot()) else old(storage))
    {
      if choosingPathPoint.None? {
        return;
      }
      for i := 0 to |points|
        invariant forall j :: 0 <= j < i ==> !Hit(points[j], x, y)
        invariant firstPointIndex == old(firstPointIndex) && secondPointIndex == old(secondPointIndex)
        invariant choosingPathPoint == old(choosingPathPoint) && pathPoints == old(pathPoints)
        invariant storage == old(storage) && outbox == old(outbox)
      {
        if Hit(points[i], x, y) {
          SelectEndpoint(i);
          break;
        }
      }
    }

    /** The hit branch of the click handler: point i takes the armed role,
        the endpoints are reported, the path is rebuilt and selection
        disarms. */
    method SelectEndpoint(i: int)
      modifies this`firstPointIndex, this`secondPointIndex, this`choosingPathPoint
      modifies this`pathPoints, this`storage, this`outbox
      ensures firstPointIndex == (if old(choosingPathPoint) == Some(3) then Some(i) else old(firstPointIndex))
      ensures secondPointIndex == (if old(choosingPathPoint) == Some(3) then old(secondPointIndex) else Some(i))
      ensures choosingPathPoint == None
      ensures pathPoints == Rebuilt(old(pathPoints), firstPointIndex, secondPointIndex, |points|, clockwise)
      ensures outbox == old(outbox) + [PathChanged(firstPointIndex, secondPointIndex)]
                        + (if CanBuild(firstPointIndex, secondPointIndex, |points|) then [PathBuilt(pathPoints)] else [])
      ensures storage == (if CanBuild(firstPointIndex, secondPointIndex, |points|) then Some(Snapshot()) else old(storage))
    {
      if choosingPathPoint == Some(3) {
        firstPointIndex := Some(i);
      } else {
        secondPointIndex := Some(i);
      }
      outbox := outbox + [PathChanged(firstPointIndex, secondPointIndex)];
      BuildPath(firstPointIndex, secondPointIndex);
      choosingPathPoint := None;
    }

    /** Rebuild the path between two endpoints in the current direction,
        replacing the previous one entirely, then report and persist it. For
        missing, equal or out-of-range endpoints nothing happens. */
    method BuildPath(startIndex: Option<int>, endIndex: Option<int>)
      modifies this`pathPoints, this`storage, this`outbox
      ensures pathPoints == Rebuilt(old(pathPoints), startIndex, endIndex, |points|, clockwise)
      ensures CanBuild(startIndex, endIndex, |points|) ==>
        outbox == old(outbox) + [PathBuilt(pathPoints)] && storage == Some(Snapshot())
      ensures !CanBuild(startIndex, endIndex, |points|) ==>
        outbox == old(outbox) && storage == old(storage)
    {
      if startIndex.None? || endIndex.None? || startIndex.value == endIndex.value {
        return;
      }
      var n := |points|;
      if !(0 <= startIndex.value < n && 0 <= endIndex.value < n) {
        return;
      }
      var start, end := startIndex.value, endIndex.value;
      ghost var steps := Steps(start, end, n, clockwise);
      ghost var walk := Walk(start, end, n, clockwise);
      pathPoints := [start];
      var i := start;
      ghost var k := 0;
      if clockwise {
        while i != end
          invariant 0 <= k <= steps
          invariant i == Offset(start, k, n, true)
          invariant pathPoints == walk[..k + 1]
          invariant outbox == old(outbox) && storage == old(storage)
          decreases steps - k
        {
          OffsetMeetsEnd(start, end, n, true, k);
          OffsetStep(start, k, n, true);
          i := (i + 1) % n;
          pathPoints := pathPoints + [i];
          k := k + 1;
        }
      } else {
        while i != end
          invariant 0 <= k <= steps
          invariant i == Offset(start, k, n, false)
          invariant pathPoints == walk[..k + 1]
          invariant outbox == old(outbox) && storage == old(storage)
          decreases steps - k
        {
          OffsetMeetsEnd(start, end, n, false, k);
          OffsetStep(start, k, n, false);
          i := (i - 1 + n) % n;
          pathPoints := pathPoints + [i];
          k := k + 1;
        }
      }
      OffsetMeetsEnd(start, end, n, clockwise, k);
      assert pathPoints == walk;
      outbox := outbox + [PathBuilt(pathPoints)];
      SaveDataToLocalStorage();
    }

    /** Persist the current fields under the storage key. */
    method SaveDataToLocalStorage()
      modifies this`storage
      ensures storage == Some(Snapshot())
    {
      storage := Some(Snapshot());
    }

    /** 'clockwise-order': take the sender's direction and rebuild the path. */
    method HandleClockwiseOrder(cw: bool)
      modifies this`clockwise, this`pathPoints, this`storage, this`outbox
      ensures clockwise == cw
      ensures pathPoints == Rebuilt(old(pathPoints), firstPointIndex, secondPointIndex, |points|, cw)
      ensures CanBuild(firstPointIndex, secondPointIndex, |points|) ==>
        outbox == old(outbox) + [PathBuilt(pathPoints)] && storage == Some(Snapshot())
      ensures !CanBuild(firstPointIndex, secondPointIndex, |points|) ==>
        outbox == old(outbox) && storage == old(storage)
    {
      clockwise := cw;
      BuildPath(firstPointIndex, secondPointIndex);
    }

    /** 'clear': detach the placement listener, then clear. */
    method HandleClearEvent()
      modifies this`placementArmed, this`points, this`firstPointIndex, this`secondPointIndex
      modifies this`clockwise, this`choosingPathPoint, this`storage
      ensures !placementArmed && points == []
      ensures firstPointIndex == None && secondPointIndex == None
      ensures clockwise && choosingPathPoint == None && storage == None
    {
      if placementArmed {
        placementArmed := false;
      }
      ClearCanvas();
    }

    /** Forget the polygon, the endpoints, the direction, any armed selection
        and the stored record. Every field it writes gets a constant, so a
        second clear changes nothing; the path itself is kept. */
    method ClearCanvas()
      modifies this`points, this`firstPointIndex, this`secondPointIndex
      modifies this`clockwise, this`choosingPathPoint, this`storage
      ensures points == [] && firstPointIndex == None && secondPointIndex == None
      ensures clockwise && choosingPathPoint == None && storage == None
    {
      points := [];
      firstPointIndex := None;
      secondPointIndex := None;
      clockwise := true;
      choosingPathPoint := None;
      storage := None;
    }

    /** Start-up: copy the stored record into the fields, draw the polygon
        and rebuild the path from the stored endpoints and direction. */
    method LoadDataFromLocalStorage()
      modifies this`points, this`pathPoints, this`firstPointIndex, this`secondPointIndex
      modifies this`clockwise, this`storage, this`outbox
      ensures old(storage).None? ==>
        && Snapshot() == old(Snapshot()) && storage == old(storage) && outbox == old(outbox)
      ensures old(storage).Some? ==>
        var saved := old(storage).value;
        && Snapshot() == Reload(saved)
        && (CanBuild(saved.firstPointIndex, saved.secondPointIndex, |saved.points|) ==>
              outbox == old(outbox) + [PathBuilt(pathPoints)] && storage == Some(Snapshot()))
        && (!CanBuild(saved.firstPointIndex, saved.secondPointIndex, |saved.points|) ==>
              outbox == old(outbox) && storage == old(storage))
    {
      if storage.None? {
        return;
      }
      var saved := storage.value;
      points := saved.points;
      pathPoints := saved.pathPoints;
      firstPointIndex := saved.firstPointIndex;
      secondPointIndex := saved.secondPointIndex;
      clockwise := saved.clockwise;
      var _ := DrawPolygon();
      BuildPath(firstPointIndex, secondPointIndex);
    }
  }
}
