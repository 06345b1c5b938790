/** The control panel: the interaction state machine, the point-count hint
    and the six buttons whose `disabled` attribute each state sets. */
module Control {
  import opened Events
  import opened States

  /** The `disabled` attribute of each of the six buttons. */
  datatype Buttons = Buttons(
    createPoints: bool,
    drawPolygon: bool,
    firstPoint: bool,
    secondPoint: bool,
    clockwiseOrder: bool,
    clear: bool)

  /** updateDisabledState on values: the flags after the switch on state `s`,
      with `count` points, when the flags were `b` before. Each case writes
      only some flags; the others keep their value in `b`. The two cases that
      write all six give Table's row whatever came before, and only they
      touch the toggle. */
  function Refresh(s: State, count: int, b: Buttons): (r: Buttons)
    ensures s == Idle || s == PathReady ==> r == Table(s, count)
    ensures r.clockwiseOrder == (if s == Idle then true else if s == PathReady then false else b.clockwiseOrder)
  {
    match s
    case Idle => Buttons(false, true, true, true, true, true)
    case CreatePoints => b.(createPoints := true, drawPolygon := !ValidPointCount(count), clear := false)
    case PolygonDrawn => b.(clear := false, drawPolygon := true, firstPoint := false, secondPoint := false)
    case ChooseFirstPoint => b.(clear := true, firstPoint := true, secondPoint := true)
    case ChooseSecondPoint => b.(drawPolygon := true, firstPoint := true, secondPoint := true)
    case PathReady => Buttons(true, true, true, true, false, false)
  }

  /** The intended enable table: for each state, which buttons should be
      disabled (true) once the panel is in it. Refresh is checked against it. */
  function Table(s: State, count: int): Buttons
  {
    match s
    case Idle => Buttons(false, true, true, true, true, true)
    case CreatePoints => Buttons(true, !ValidPointCount(count), true, true, true, false)
    case PolygonDrawn => Buttons(true, true, false, false, true, false)
    case ChooseFirstPoint => Buttons(true, true, true, true, true, true)
    case ChooseSecondPoint => Buttons(true, true, true, true, true, true)
    case PathReady => Buttons(true, true, true, true, false, false)
  }

  /** The flags each case leaves as they were: in Idle and PathReady none,
      in CreatePoints the endpoint and toggle buttons, in PolygonDrawn the
      create and toggle buttons, in ChooseFirstPoint the create, draw and
      toggle buttons, in ChooseSecondPoint the create, toggle and clear
      buttons. */
  lemma RefreshKeeps(s: State, count: int, b: Buttons)
    ensures var r := Refresh(s, count, b);
      && (s == CreatePoints ==> r.firstPoint == b.firstPoint && r.secondPoint == b.secondPoint && r.clockwiseOrder == b.clockwiseOrder)
      && (s == PolygonDrawn ==> r.createPoints == b.createPoints && r.clockwiseOrder == b.clockwiseOrder)
      && (s == ChooseFirstPoint ==> r.createPoints == b.createPoints && r.drawPolygon == b.drawPolygon && r.clockwiseOrder == b.clockwiseOrder)
      && (s == ChooseSecondPoint ==> r.createPoints == b.createPoints && r.clockwiseOrder == b.clockwiseOrder && r.clear == b.clear)
      && (s == Idle || s == PathReady ==> forall b' :: Refresh(s, count, b') == r)
  {
  }

  /** Idle enables only create-points; PathReady exactly toggle and clear;
      in CreatePoints draw-polygon is enabled exactly for a valid count,
      create-points is disabled and clear enabled. */
  lemma RefreshEnables(s: State, count: int, b: Buttons)
    ensures var r := Refresh(s, count, b);
      && (s == Idle ==> !r.createPoints && r.drawPolygon && r.firstPoint && r.secondPoint && r.clockwiseOrder && r.clear)
      && (s == CreatePoints ==> r.createPoints && (r.drawPolygon <==> !ValidPointCount(count)) && !r.clear)
      && (s == PathReady ==> r.createPoints && r.drawPolygon && r.firstPoint && r.secondPoint && !r.clockwiseOrder && !r.clear)
  {
  }

  /** Refreshing twice in the same state is refreshing once. */
  lemma RefreshIdempotent(s: State, count: int, b: Buttons)
    ensures Refresh(s, count, Refresh(s, count, b)) == Refresh(s, count, b)
  {
  }

  /** Along the intended run Idle, CreatePoints (refreshed once per added
      point), PolygonDrawn, the two endpoint choices in either order with
      PolygonDrawn again after the first of them, and PathReady, each refresh
      turns Table's row for the previous state, taken with the previous count
      `before`, into Table's row for the new state with the current count
      `after`. The exception is that choosing the second endpoint leaves clear
      enabled; the PolygonDrawn refresh that follows it restores Table's row. */
  lemma DesignedRunFollowsTable(before: int, after: int, b: Buttons)
    ensures Refresh(Idle, after, b) == Table(Idle, after)
    ensures Refresh(CreatePoints, after, Table(Idle, before)) == Table(CreatePoints, after)
    ensures Refresh(CreatePoints, after, Table(CreatePoints, before)) == Table(CreatePoints, after)
    ensures Refresh(PolygonDrawn, after, Table(CreatePoints, before)) == Table(PolygonDrawn, after)
    ensures Refresh(ChooseFirstPoint, after, Table(PolygonDrawn, before)) == Table(ChooseFirstPoint, after)
    ensures Refresh(PolygonDrawn, after, Table(ChooseFirstPoint, before)) == Table(PolygonDrawn, after)
    ensures Refresh(ChooseSecondPoint, after, Table(PolygonDrawn, before))
         == Table(ChooseSecondPoint, after).(clear := false)
    ensures Refresh(PolygonDrawn, after, Table(ChooseSecondPoint, before).(clear := false))
         == Table(PolygonDrawn, after)
    ensures forall s :: Refresh(PathReady, after, Table(s, before)) == Table(PathReady, after)
    ensures forall s :: Refresh(Idle, after, Table(s, before)) == Table(Idle, after)
  {
  }

  /** After a load whose endpoints are incomplete the panel ends in
      PolygonDrawn with the toggle still enabled from PathReady, which Table
      disables in PolygonDrawn. */
  lemma LoadedPolygonDrawnKeepsToggle(count: int, b: Buttons)
    ensures !Refresh(PolygonDrawn, count, Refresh(PathReady, count, b)).clockwiseOrder
    ensures Table(PolygonDrawn, count).clockwiseOrder
  {
  }

  class ControlPanel {
    var state: State
    var pointsCount: int
    var clockwise: bool
    var firstPointIndex: Option<int>
    var secondPointIndex: Option<int>
    /** Whether the point-count hint carries the valid rather than the
        invalid class; None while it is as the markup has it. */
    var countHintValid: Option<bool>
    var createPointsDisabled: bool
    var drawPolygonDisabled: bool
    var firstPointDisabled: bool
    var secondPointDisabled: bool
    var clockwiseOrderDisabled: bool
    var clearDisabled: bool
    /** The events dispatched on the window, oldest first. */
    var outbox: seq<Message>

    function Disabled(): Buttons
      reads this
    {
      Buttons(createPointsDisabled, drawPolygonDisabled, firstPointDisabled,
              secondPointDisabled, clockwiseOrderDisabled, clearDisabled)
    }

    /** The buttons start as the markup declares them. */
    constructor(markup: Buttons)
      ensures state == Idle && pointsCount == 0 && clockwise
      ensures firstPointIndex == None && secondPointIndex == None
      ensures countHintValid == None && Disabled() == markup && outbox == []
    {
      state := Idle;
      pointsCount := 0;
      clockwise := true;
      firstPointIndex := None;
      secondPointIndex := None;
      countHintValid := None;
      createPointsDisabled := markup.createPoints;
      drawPolygonDisabled := markup.drawPolygon;
      firstPointDisabled := markup.firstPoint;
      secondPointDisabled := markup.secondPoint;
      clockwiseOrderDisabled := markup.clockwiseOrder;
      clearDisabled := markup.clear;
      outbox := [];
    }

    /** Set the `disabled` flags the current state's case writes. */
    method UpdateDisabledState()
      modifies this`createPointsDisabled, this`drawPolygonDisabled, this`firstPointDisabled
      modifies this`secondPointDisabled, this`clockwiseOrderDisabled, this`clearDisabled
      ensures Disabled() == Refresh(state, pointsCount, old(Disabled()))
    {
      match state
      case Idle =>
        createPointsDisabled := false;
        drawPolygonDisabled := true;
        firstPointDisabled := true;
        secondPointDisabled := true;
        clockwiseOrderDisabled := true;
        clearDisabled := true;
      case CreatePoints =>
        createPointsDisabled := true;
        if pointsCount >= 3 && pointsCount <= 15 {
          drawPolygonDisabled := false;
        } else {
          drawPolygonDisabled := true;
        }
        clearDisabled := false;
      case PolygonDrawn =>
        clearDisabled := false;
        drawPolygonDisabled := true;
        firstPointDisabled := false;
        secondPointDisabled := false;
      case ChooseFirstPoint =>
        clearDisabled := true;
        firstPointDisabled := true;
        secondPointDisabled := true;
      case ChooseSecondPoint =>
        drawPolygonDisabled := true;
        firstPointDisabled := true;
        secondPointDisabled := true;
      case PathReady =>
        drawPolygonDisabled := true;
        createPointsDisabled := true;
        firstPointDisabled := true;
        secondPointDisabled := true;
        clockwiseOrderDisabled := false;
        clearDisabled := false;
    }

    /** A command button: enter the requested state unconditionally,
        broadcast the command carrying the new state, refresh the buttons. */
    method HandleButtonClick(eventName: string, newState: State)
      modifies this`state, this`outbox
      modifies this`createPointsDisabled, this`drawPolygonDisabled, this`firstPointDisabled
      modifies this`secondPointDisabled, this`clockwiseOrderDisabled, this`clearDisabled
      ensures state == newState
      ensures outbox == old(outbox) + [Command(eventName, Code(newState))]
      ensures Disabled() == Refresh(newState, pointsCount, old(Disabled()))
    {
      state := newState;
      outbox := outbox + [Command(eventName, Code(state))];
      UpdateDisabledState();
    }

    /** The toggle button: flip the direction and broadcast the new one. */
    method HandleClockwiseButtonClick()
      modifies this`clockwise, this`outbox
      ensures clockwise == !old(clockwise)
      ensures outbox == old(outbox) + [ClockwiseOrder(Code(state), clockwise)]
    {
      clockwise := !clockwise;
      outbox := outbox + [ClockwiseOrder(Code(state), clockwise)];
    }

    /** The clear button: reset direction and count, refresh the hint (and
        the buttons, still in the old state), then enter Idle. */
    method HandleClearButtonClick()
      modifies this`clockwise, this`pointsCount, this`countHintValid, this`state, this`outbox
      modifies this`createPointsDisabled, this`drawPolygonDisabled, this`firstPointDisabled
      modifies this`secondPointDisabled, this`clockwiseOrderDisabled, this`clearDisabled
      ensures clockwise && pointsCount == 0 && state == Idle
      ensures countHintValid == Some(false)
      ensures outbox == old(outbox) + [Command("clear", 0)]
      ensures Disabled() == Table(Idle, 0)
    {
      clockwise := true;
      pointsCount := 0;
      HandlePointsChange();
      HandleButtonClick("clear", Idle);
    }

    /** The endpoints reported by the workspace decide the state: PathReady
        when both are chosen, PolygonDrawn otherwise. */
    method HandlePathChanged(first: Option<int>, second: Option<int>)
      modifies this`state, this`firstPointIndex, this`secondPointIndex
      modifies this`createPointsDisabled, this`drawPolygonDisabled, this`firstPointDisabled
      modifies this`secondPointDisabled, this`clockwiseOrderDisabled, this`clearDisabled
      ensures state == (if first.Some? && second.Some? then PathReady else PolygonDrawn)
      ensures firstPointIndex == first && secondPointIndex == second
      ensures Disabled() == Refresh(state, pointsCount, old(Disabled()))
    {
      state := if first.Some? && second.Some? then PathReady else PolygonDrawn;
      UpdateDisabledState();
      firstPointIndex := first;
      secondPointIndex := second;
    }

    /** 'add-point': record the workspace's new point count. */
    method HandleAddPoint(points: int)
      modifies this`pointsCount, this`countHintValid
      modifies this`createPointsDisabled, this`drawPolygonDisabled, this`firstPointDisabled
      modifies this`secondPointDisabled, this`clockwiseOrderDisabled, this`clearDisabled
      ensures pointsCount == points
      ensures countHintValid == Some(ValidPointCount(points))
      ensures Disabled() == Refresh(state, points, old(Disabled()))
    {
      pointsCount := points;
      HandlePointsChange();
    }

    /** Mark the hint valid exactly for 3 to 15 points, then refresh. */
    method HandlePointsChange()
      modifies this`countHintValid
      modifies this`createPointsDisabled, this`drawPolygonDisabled, this`firstPointDisabled
      modifies this`secondPointDisabled, this`clockwiseOrderDisabled, this`clearDisabled
      ensures countHintValid == Some(3 <= pointsCount <= 15)
      ensures Disabled() == Refresh(state, pointsCount, old(Disabled()))
    {
      if pointsCount < 3 || pointsCount > 15 {
        countHintValid := Some(false);
      } else {
        countHintValid := Some(true);
      }
      UpdateDisabledState();
    }

    /** Start-up: take count and direction from the stored record, pass
        through PathReady, then let the stored endpoints decide the state. */
    method LoadDataFromLocalStorage(stored: Option<Record>)
      modifies this`pointsCount, this`clockwise, this`state, this`countHintValid
      modifies this`firstPointIndex, this`secondPointIndex
      modifies this`createPointsDisabled, this`drawPolygonDisabled, this`firstPointDisabled
      modifies this`secondPointDisabled, this`clockwiseOrderDisabled, this`clearDisabled
      ensures stored.None? ==>
        && pointsCount == old(pointsCount) && clockwise == old(clockwise) && state == old(state)
        && countHintValid == old(countHintValid) && firstPointIndex == old(firstPointIndex)
        && secondPointIndex == old(secondPointIndex) && Disabled() == old(Disabled())
      ensures stored.Some? ==>
        var saved := stored.value;
        && pointsCount == |saved.points| && clockwise == saved.clockwise
        && countHintValid == Some(ValidPointCount(|saved.points|))
        && firstPointIndex == saved.firstPointIndex && secondPointIndex == saved.secondPointIndex
        && state == (if saved.firstPointIndex.Some? && saved.secondPointIndex.Some? then PathReady else PolygonDrawn)
        && Disabled() == Refresh(state, pointsCount, Table(PathReady, pointsCount))
    {
      if stored.None? {
        return;
      }
      var saved := stored.value;
      pointsCount := |saved.points|;
      clockwise := saved.clockwise;
      state := PathReady;
      HandlePointsChange();
      HandlePathChanged(saved.firstPointIndex, saved.secondPointIndex);
    }
  }
}
