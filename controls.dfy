/** The keyboard controller: the KEYS table, the handlers it names, and the
    per-frame advance of the rotation angles. */
module Controls {
  import opened Wrappers
  import opened Points

  /** THETA_X, THETA_Y, THETA_Z, or the velocities DTHETA_X .. DTHETA_Z. */
  datatype Angles = Angles(x: real, y: real, z: real)

  const NO_ANGLES := Angles(0.0, 0.0, 0.0)

  /** The state the handlers change: CAMERA_POINT and the THETA_* angles. */
  datatype ControlState = ControlState(camera: Point3D, theta: Angles)

  /** The twelve handlers KEYS refers to. */
  datatype Action =
    | GoForward | GoBackwards
    | RotateZMin | RotateZPlus | RotateYMin | RotateYPlus | RotateXMin | RotateXPlus
    | GoUp | GoDown | GoLeft | GoRight

  const CAMERA_STEP: real := 10.0
  const ANGLE_STEP: real := 0.01
  /** rotateZMin turns by half the step of every other rotation key. */
  const ANGLE_STEP_Z_MIN: real := 0.005

  /** KEYS: a KeyboardEvent.code to its handler. */
  const KEYS: map<string, Action> := map[
    "KeyW" := GoForward,
    "KeyS" := GoBackwards,
    "KeyQ" := RotateZMin,
    "KeyE" := RotateZPlus,
    "KeyA" := RotateYMin,
    "KeyD" := RotateYPlus,
    "KeyZ" := RotateXMin,
    "KeyC" := RotateXPlus,
    "ArrowUp" := GoUp,
    "ArrowDown" := GoDown,
    "ArrowLeft" := GoLeft,
    "ArrowRight" := GoRight
  ]

  /** The lookup `KEYS[e.code]`; an unknown code has no handler. */
  function KeyAction(code: string): (r: Option<Action>)
    ensures r.None? <==> code !in KEYS
    ensures r.Some? ==> KEYS[code] == r.value
  {
    if code in KEYS then Some(KEYS[code]) else None
  }

  /** The key bound to each handler, the table read backwards. */
  function KeyOf(a: Action): string {
    match a
    case GoForward => "KeyW"
    case GoBackwards => "KeyS"
    case RotateZMin => "KeyQ"
    case RotateZPlus => "KeyE"
    case RotateYMin => "KeyA"
    case RotateYPlus => "KeyD"
    case RotateXMin => "KeyZ"
    case RotateXPlus => "KeyC"
    case GoUp => "ArrowUp"
    case GoDown => "ArrowDown"
    case GoLeft => "ArrowLeft"
    case GoRight => "ArrowRight"
  }

  /** KEYS is a one-to-one table: each handler has exactly one key, and
      every key in the table is the key of its handler. */
  lemma KeysOneToOne(a: Action, code: string)
    ensures KeyAction(KeyOf(a)) == Some(a)
    ensures code in KEYS ==> KeyOf(KEYS[code]) == code
  {
    if code in KEYS {
      assert code in {"KeyW", "KeyS", "KeyQ", "KeyE", "KeyA", "KeyD", "KeyZ", "KeyC",
                      "ArrowUp", "ArrowDown", "ArrowLeft", "ArrowRight"};
    }
  }

  /** The handlers goForward .. goRight, each on the state it changes. */
  function Apply(a: Action, s: ControlState): (r: ControlState)
    ensures r.camera == s.camera || r.theta == s.theta
    ensures SameLook(r.camera, s.camera)
    ensures a in {GoForward, GoBackwards, GoUp, GoDown, GoLeft, GoRight} <==> r.theta == s.theta
  {
    var c, t := s.camera, s.theta;
    match a
    case GoForward => s.(camera := c.(z := c.z + CAMERA_STEP))
    case GoBackwards => s.(camera := c.(z := c.z - CAMERA_STEP))
    case RotateZMin => s.(theta := t.(z := t.z - ANGLE_STEP_Z_MIN))
    case RotateZPlus => s.(theta := t.(z := t.z + ANGLE_STEP))
    case RotateYMin => s.(theta := t.(y := t.y - ANGLE_STEP))
    case RotateYPlus => s.(theta := t.(y := t.y + ANGLE_STEP))
    case RotateXMin => s.(theta := t.(x := t.x - ANGLE_STEP))
    case RotateXPlus => s.(theta := t.(x := t.x + ANGLE_STEP))
    case GoUp => s.(camera := c.(y := c.y + CAMERA_STEP))
    case GoDown => s.(camera := c.(y := c.y - CAMERA_STEP))
    case GoLeft => s.(camera := c.(x := c.x - CAMERA_STEP))
    case GoRight => s.(camera := c.(x := c.x + CAMERA_STEP))
  }

  /** onKeyDown: run the handler of a known code; any other code is
      swallowed and changes nothing. */
  function HandleKey(code: string, s: ControlState): (r: ControlState)
    ensures code !in KEYS ==> r == s
    ensures code in KEYS ==> r == Apply(KEYS[code], s)
  {
    match KeyAction(code)
    case None => s
    case Some(a) => Apply(a, s)
  }

  /** The six numbers the handlers may change, in a fixed order: camera
      x, y, z, then THETA_X, THETA_Y, THETA_Z. */
  function Numbers(s: ControlState): seq<real> {
    [s.camera.x, s.camera.y, s.camera.z, s.theta.x, s.theta.y, s.theta.z]
  }

  /** Which of the six numbers a handler moves, and by how much. */
  function Effect(a: Action): (e: (int, real))
    ensures 0 <= e.0 < 6
    ensures e.0 == 0 <==> a == GoLeft || a == GoRight
    ensures e.0 == 1 <==> a == GoDown || a == GoUp
    ensures e.0 == 2 <==> a == GoBackwards || a == GoForward
    ensures e.0 == 3 <==> a == RotateXMin || a == RotateXPlus
    ensures e.0 == 4 <==> a == RotateYMin || a == RotateYPlus
    ensures e.0 == 5 <==> a == RotateZMin || a == RotateZPlus
    ensures e.1 > 0.0 <==>
      a == GoRight || a == GoUp || a == GoForward || a == RotateXPlus || a == RotateYPlus || a == RotateZPlus
    ensures e.0 < 3 ==> e.1 == CAMERA_STEP || e.1 == -CAMERA_STEP
    ensures e.0 >= 3 && a != RotateZMin ==> e.1 == ANGLE_STEP || e.1 == -ANGLE_STEP
    ensures e.1 == -ANGLE_STEP_Z_MIN <==> a == RotateZMin
  {
    match a
    case GoLeft => (0, -CAMERA_STEP)
    case GoRight => (0, CAMERA_STEP)
    case GoDown => (1, -CAMERA_STEP)
    case GoUp => (1, CAMERA_STEP)
    case GoBackwards => (2, -CAMERA_STEP)
    case GoForward => (2, CAMERA_STEP)
    case RotateXMin => (3, -ANGLE_STEP)
    case RotateXPlus => (3, ANGLE_STEP)
    case RotateYMin => (4, -ANGLE_STEP)
    case RotateYPlus => (4, ANGLE_STEP)
    case RotateZMin => (5, -ANGLE_STEP_Z_MIN)
    case RotateZPlus => (5, ANGLE_STEP)
  }

  /** Each handler moves exactly one of the six numbers, by its fixed step,
      and leaves everything else (including the camera's color and draw
      fields) as it was. */
  lemma ApplyMovesOneNumber(a: Action, s: ControlState)
    ensures var (k, step) := Effect(a);
      Numbers(Apply(a, s)) == Numbers(s)[k := Numbers(s)[k] + step]
    ensures SameLook(Apply(a, s).camera, s.camera)
  {
  }

  /** The handler that undoes a handler, where the steps match. */
  function Opposite(a: Action): Action {
    match a
    case GoForward => GoBackwards
    case GoBackwards => GoForward
    case RotateZMin => RotateZPlus
    case RotateZPlus => RotateZMin
    case RotateYMin => RotateYPlus
    case RotateYPlus => RotateYMin
    case RotateXMin => RotateXPlus
    case RotateXPlus => RotateXMin
    case GoUp => GoDown
    case GoDown => GoUp
    case GoLeft => GoRight
    case GoRight => GoLeft
  }

  /** Opposite keys cancel, except Q and E: Q turns by 0.005 and E by 0.01,
      so Q then E leaves THETA_Z 0.005 further on. */
  lemma OppositeCancels(a: Action, s: ControlState)
    ensures a != RotateZMin && a != RotateZPlus ==> Apply(Opposite(a), Apply(a, s)) == s
    ensures Apply(RotateZPlus, Apply(RotateZMin, s)).theta.z == s.theta.z + 0.005
    ensures Apply(RotateZMin, Apply(RotateZPlus, s)).theta.z == s.theta.z + 0.005
  {
  }

  /** A handler run n times in a row. */
  function Repeat(a: Action, s: ControlState, n: nat): ControlState {
    if n == 0 then s else Apply(a, Repeat(a, s, n - 1))
  }

  /** Repeated GoRight moves the camera by exactly 10 per press and changes
      nothing else. */
  lemma {:induction false} RepeatGoRight(s: ControlState, n: nat)
    ensures Repeat(GoRight, s, n) == s.(camera := s.camera.(x := s.camera.x + n as real * CAMERA_STEP))
  {
    if n > 0 {
      RepeatGoRight(s, n - 1);
    }
  }

  /** Ten presses of ArrowRight take camera.x from 0 to 100. */
  lemma TenRightFromZero(s: ControlState)
    requires s.camera.x == 0.0
    ensures Repeat(GoRight, s, 10).camera.x == 100.0
  {
    RepeatGoRight(s, 10);
  }

  /** The `THETA += DTHETA` lines of one frame. */
  function Advance(theta: Angles, dtheta: Angles): (r: Angles)
    ensures r.x - theta.x == dtheta.x && r.y - theta.y == dtheta.y && r.z - theta.z == dtheta.z
    ensures dtheta == NO_ANGLES ==> r == theta
  {
    Angles(theta.x + dtheta.x, theta.y + dtheta.y, theta.z + dtheta.z)
  }

  /** The angles after n frames. */
  function AdvanceFrames(theta: Angles, dtheta: Angles, n: nat): Angles {
    if n == 0 then theta else Advance(AdvanceFrames(theta, dtheta, n - 1), dtheta)
  }

  /** After n frames each angle has moved by n times its velocity. */
  lemma {:induction false} AdvanceFramesLinear(theta: Angles, dtheta: Angles, n: nat)
    ensures AdvanceFrames(theta, dtheta, n) ==
      Angles(theta.x + n as real * dtheta.x, theta.y + n as real * dtheta.y, theta.z + n as real * dtheta.z)
  {
    if n > 0 {
      AdvanceFramesLinear(theta, dtheta, n - 1);
    }
  }

  /** With zero velocities the angles stay put over any number of frames. */
  lemma {:induction false} StillAtZeroVelocity(theta: Angles, n: nat)
    ensures AdvanceFrames(theta, NO_ANGLES, n) == theta
  {
    if n > 0 {
      StillAtZeroVelocity(theta, n - 1);
    }
  }
}
