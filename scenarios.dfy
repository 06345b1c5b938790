/** Clients of the two components that play the square example, delivering
    each event by hand as the window would. */
module Scenarios {
  import opened Events
  import opened States
  import opened PathWalk
  import opened Canvas
  import opened Control

  function Square(): seq<Point>
  {
    [Point(10, 10), Point(110, 10), Point(110, 110), Point(10, 110)]
  }

  /** Placing points, as the panel sees it: two points keep draw-polygon
      disabled and mark the hint invalid, four enable it. */
  method PanelPlacementScenario()
  {
    var panel := new ControlPanel(Table(Idle, 0));
    panel.HandleButtonClick("create-points", CreatePoints);
    panel.HandleAddPoint(1);
    panel.HandleAddPoint(2);
    assert panel.drawPolygonDisabled && panel.countHintValid == Some(false);
    panel.HandleAddPoint(3);
    panel.HandleAddPoint(4);
    assert !panel.drawPolygonDisabled && panel.countHintValid == Some(true);
    panel.HandleButtonClick("draw-polygon", PolygonDrawn);
    assert !panel.firstPointDisabled && !panel.secondPointDisabled && panel.clockwiseOrderDisabled;
  }

  /** Placing points, as the workspace sees it: arming twice is harmless,
      four clicks give the square, which then draws, and a click after the
      listener is detached adds nothing. */
  method CanvasPlacementScenario()
  {
    var canvas := new PolygonCanvas(None);
    canvas.HandleCreatePointsEvent();
    canvas.HandleCreatePointsEvent();
    canvas.HandleCanvasClick(10, 10);
    canvas.HandleCanvasClick(110, 10);
    canvas.HandleCanvasClick(110, 110);
    canvas.HandleCanvasClick(10, 110);
    assert canvas.points == Square() && canvas.outbox[3] == PointCount(4);
    var drawn := canvas.HandleDrawPolygonEvent();
    assert drawn;
    canvas.HandleCanvasClick(50, 50);
    assert canvas.points == Square();
  }

  /** Choosing the first endpoint: a click that hits no point changes
      nothing and keeps selection armed; a click on point 0 selects it. */
  method FirstEndpointScenario()
  {
    var canvas := new PolygonCanvas(Some(Record(Square(), [], None, None, true)));
    canvas.LoadDataFromLocalStorage();
    assert canvas.points == Square() && canvas.pathPoints == [];
    canvas.HandleChoosePathPoint(Code(ChooseFirstPoint));
    assert FirstHit(canvas.points, 60, 60) == None;
    canvas.HandlePointClick(60, 60);
    assert canvas.choosingPathPoint == Some(3) && canvas.firstPointIndex == None;
    assert FirstHit(canvas.points, 10, 10) == Some(0);
    canvas.HandlePointClick(10, 10);
    assert canvas.firstPointIndex == Some(0) && canvas.choosingPathPoint == None;
    assert canvas.pathPoints == [];
  }

  /** Choosing the second endpoint at index 2 after the first at index 0
      gives [0, 1, 2]; toggling the direction gives [0, 3, 2]. */
  method SecondEndpointScenario()
  {
    var canvas := new PolygonCanvas(Some(Record(Square(), [], Some(0), None, true)));
    canvas.LoadDataFromLocalStorage();
    canvas.HandleChoosePathPoint(Code(ChooseSecondPoint));
    assert FirstHit(canvas.points, 112, 108) == Some(2);
    canvas.HandlePointClick(112, 108);
    assert canvas.firstPointIndex == Some(0) && canvas.secondPointIndex == Some(2);
    SquareWalks();
    assert canvas.pathPoints == [0, 1, 2];
    assert canvas.storage == Some(Record(Square(), [0, 1, 2], Some(0), Some(2), true));
    canvas.HandleClockwiseOrder(false);
    assert canvas.pathPoints == [0, 3, 2];
  }

  /** A saved record reloads to the same path; the panel lands in PathReady. */
  method ReloadScenario()
  {
    var saved := Record(Square(), [0, 3, 2], Some(0), Some(2), false);
    var canvas := new PolygonCanvas(Some(saved));
    canvas.LoadDataFromLocalStorage();
    SquareWalks();
    assert canvas.pathPoints == [0, 3, 2] && canvas.storage == Some(saved);

    var panel := new ControlPanel(Table(Idle, 0));
    panel.LoadDataFromLocalStorage(Some(saved));
    assert panel.state == PathReady && panel.pointsCount == 4 && !panel.clockwise;
    assert !panel.clockwiseOrderDisabled && !panel.clearDisabled;
  }

  /** Clearing twice leaves what clearing once leaves. */
  method ClearScenario(stored: Option<Record>)
  {
    var canvas := new PolygonCanvas(stored);
    canvas.LoadDataFromLocalStorage();
    canvas.HandleClearEvent();
    var once := canvas.Snapshot();
    canvas.HandleClearEvent();
    assert canvas.Snapshot() == once && canvas.storage == None;

    var panel := new ControlPanel(Table(PathReady, 4));
    panel.HandleClearButtonClick();
    assert panel.state == Idle && !panel.createPointsDisabled && panel.clearDisabled;
  }
}
