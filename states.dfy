/** The control panel's interaction states and the numbers that stand for
    them in the frozen `State` object and in event payloads. */
module States {
  import opened Events

  datatype State =
    | Idle
    | CreatePoints
    | PolygonDrawn
    | ChooseFirstPoint
    | ChooseSecondPoint
    | PathReady

  /** The number a state is frozen to. */
  function Code(s: State): (c: int)
    ensures 0 <= c <= 5
  {
    match s
    case Idle => 0
    case CreatePoints => 1
    case PolygonDrawn => 2
    case ChooseFirstPoint => 3
    case ChooseSecondPoint => 4
    case PathReady => 5
  }

  /** The case labels of the panel's `switch (this.state)`: None is the
      `default` branch, which throws. */
  function FromCode(c: int): (r: Option<State>)
    ensures r.Some? <==> 0 <= c <= 5
  {
    if c == 0 then Some(Idle)
    else if c == 1 then Some(CreatePoints)
    else if c == 2 then Some(PolygonDrawn)
    else if c == 3 then Some(ChooseFirstPoint)
    else if c == 4 then Some(ChooseSecondPoint)
    else if c == 5 then Some(PathReady)
    else None
  }

  /** Every state the panel can hold has a case label: the throwing default
      branch is unreachable. */
  lemma CodeRoundTrip(s: State)
    ensures FromCode(Code(s)) == Some(s)
  {
  }

  /** Each case label stands for exactly one state. */
  lemma FromCodeRoundTrip(c: int)
    ensures FromCode(c).Some? ==> Code(FromCode(c).value) == c
  {
  }

  /** The workspace tells the endpoint roles apart by comparing with the
      literal 3: only ChooseFirstPoint carries it. */
  lemma FirstPointRole(s: State)
    ensures Code(s) == 3 <==> s == ChooseFirstPoint
  {
  }
}
