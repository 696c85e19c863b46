/** The viewer's input and mode state machine: the process-wide statics of the
    hand viewer, the GLFW key, cursor and scroll callbacks that update them, the
    per-frame camera step and the per-frame choice of pose producer.

    Controls is the whole state as a value and the step functions say what each
    event does to it; the Viewer class holds the same state in fields, one per
    static, and its methods update those fields as the callbacks do and are
    proved to leave the state the step functions describe. */
module ViewerState {
  import opened Geometry
  import opened HandPose
  import PoseProducers

  datatype Option<T> = None | Some(value: T)

  /** DisplayMode: what the main loop animates while keyboard/mouse control is off. */
  datatype DisplayMode = KeyboardMouseControl | Completion1 | Completion2 | Completion3

  /** The GLFW action of a key event. */
  datatype Action = Release | Press | Repeat

  /** The GLFW keys the key callback looks at. Other stands for every key it does
      not name, so it never carries the code of Escape, F or any key below. */
  datatype Key =
    | KeyEscape | KeyF
    | KeyW | KeyA | KeyS | KeyD | KeySpace | KeyLeftShift
    | Key1 | Key2 | Key3
    | KeyZ | KeyX | KeyC | KeyV | KeyB
    | Other

  /** The six camera moves, one per movement key. */
  datatype Move = Forward | Left | Back | Right | Up | Down

  /** The "View" statics: camera_position, camera_orientation, target_orientation. */
  datatype View = View(position: Vec3, orientation: Orientation, target: Orientation)

  /** The "Mouse control" statics: last_x, last_y, first_mouse, yaw, pitch. */
  datatype Mouse = Mouse(lastX: real, lastY: real, firstMouse: bool, yaw: real, pitch: real)

  /** The "Keyboard state" statics: key_w_pressed, key_a_pressed, key_s_pressed,
      key_d_pressed, key_space_pressed and key_shift_pressed. */
  datatype MoveKeys = MoveKeys(w: bool, a: bool, s: bool, d: bool, space: bool, shift: bool) {
    function Of(m: Move): bool {
      match m
      case Forward => w
      case Left => a
      case Back => s
      case Right => d
      case Up => space
      case Down => shift
    }

    /** The flags with move m's flag set to held. */
    function With(m: Move, held: bool): (r: MoveKeys)
      ensures r.Of(m) == held
      ensures forall n: Move :: n != m ==> r.Of(n) == Of(n)
    {
      match m
      case Forward => this.(w := held)
      case Left => this.(a := held)
      case Back => this.(s := held)
      case Right => this.(d := held)
      case Up => this.(space := held)
      case Down => this.(shift := held)
    }
  }

  const NoKeys: MoveKeys := MoveKeys(false, false, false, false, false, false)

  /** The two pieces of GLFW window state the key callback sets: the close flag
      and whether the cursor is captured. */
  datatype Window = Window(shouldClose: bool, cursorDisabled: bool)

  /** slerp_factor: a static the file never assigns. mouse_sensitivity, another
      such static, appears as its value 0.1 where the cursor offsets are scaled. */
  const SlerpFactor: real := 0.15

  /** The limits the callbacks clamp pitch and camera speed to. */
  const PitchLimit: real := 89.0
  const MinSpeed: real := 0.01
  const MaxSpeed: real := 1.0

  /** The whole input state: current_mode, keyboard_mouse_enabled, the finger
      status flags, the view, the mouse record, camera_speed, the keyboard state
      and the window. */
  datatype Controls = Controls(
    mode: DisplayMode,
    enabled: bool,
    bends: Bends,
    view: View,
    mouse: Mouse,
    speed: real,
    keys: MoveKeys,
    window: Window)

  /** The statics as the program starts. */
  const Initial: Controls := Controls(
    KeyboardMouseControl, false, Bends(false, false, false, false, false),
    View(Vec3(0.0, 0.0, 15.0), Identity, Identity),
    Mouse(400.0, 400.0, true, -90.0, 0.0),
    0.1, NoKeys, Window(false, false))

  /** What every event keeps: pitch within its clamp, the speed within its clamp,
      and the cursor captured exactly while keyboard/mouse control is on. */
  predicate ControlsValid(c: Controls) {
    && -PitchLimit <= c.mouse.pitch <= PitchLimit
    && MinSpeed <= c.speed <= MaxSpeed
    && c.window.cursorDisabled == c.enabled
  }

  lemma InitialValid()
    ensures ControlsValid(Initial)
    ensures !Initial.enabled && Initial.mode == KeyboardMouseControl && Initial.mouse.firstMouse
  {
  }

  /** v limited to [lo, hi]. */
  function Clamp(v: real, lo: real, hi: real): (r: real)
    requires lo <= hi
    ensures lo <= r <= hi
    ensures lo <= v <= hi ==> r == v
    ensures v < lo ==> r == lo
    ensures hi < v ==> r == hi
  {
    if v < lo then lo else if hi < v then hi else v
  }

  // ---------------------------------------------------------------------------
  // key_callback

  /** The mode a number key selects. */
  function ModeKey(k: Key): Option<DisplayMode> {
    match k
    case Key1 => Some(Completion1)
    case Key2 => Some(Completion2)
    case Key3 => Some(Completion3)
    case _ => None
  }

  /** The camera move a movement key holds. */
  function MoveKey(k: Key): Option<Move> {
    match k
    case KeyW => Some(Forward)
    case KeyA => Some(Left)
    case KeyS => Some(Back)
    case KeyD => Some(Right)
    case KeySpace => Some(Up)
    case KeyLeftShift => Some(Down)
    case _ => None
  }

  /** The finger whose bent flag a key toggles: Z, X, C, V, B for thumb to pinky. */
  function FingerKey(k: Key): Option<Finger> {
    match k
    case KeyZ => Some(Thumb)
    case KeyX => Some(Index)
    case KeyC => Some(Middle)
    case KeyV => Some(Ring)
    case KeyB => Some(Pinky)
    case _ => None
  }

  /** The bent flags with finger f flipped. */
  function Toggled(bends: Bends, f: Finger): (r: Bends)
    ensures r.Of(f) == !bends.Of(f)
    ensures forall g: Finger :: g != f ==> r.Of(g) == bends.Of(g)
  {
    match f
    case Thumb => bends.(thumb := !bends.thumb)
    case Index => bends.(index := !bends.index)
    case Middle => bends.(middle := !bends.middle)
    case Ring => bends.(ring := !bends.ring)
    case Pinky => bends.(pinky := !bends.pinky)
  }

  /** The whole effect of one key event, key by key. Each key the callback knows belongs to one
      group (Escape, F, a movement key, a mode key, a finger key), and its event
      does only that group's work. The later groups do run after F toggles the
      control flag, but an F event matches none of their keys. */
  function KeyStep(c: Controls, k: Key, action: Action): Controls {
    var pressed := action == Press;
    var held := action != Release;
    match k
    case KeyEscape => if pressed then c.(window := c.window.(shouldClose := true)) else c
    case KeyF =>
      if pressed then
        c.(enabled := !c.enabled,
           window := c.window.(cursorDisabled := !c.enabled),
           mouse := c.mouse.(firstMouse := !c.enabled || c.mouse.firstMouse))
      else c
    case KeyW => if c.enabled then c.(keys := c.keys.(w := held)) else c
    case KeyA => if c.enabled then c.(keys := c.keys.(a := held)) else c
    case KeyS => if c.enabled then c.(keys := c.keys.(s := held)) else c
    case KeyD => if c.enabled then c.(keys := c.keys.(d := held)) else c
    case KeySpace => if c.enabled then c.(keys := c.keys.(space := held)) else c
    case KeyLeftShift => if c.enabled then c.(keys := c.keys.(shift := held)) else c
    case Key1 => if !c.enabled && pressed then c.(mode := Completion1) else c
    case Key2 => if !c.enabled && pressed then c.(mode := Completion2) else c
    case Key3 => if !c.enabled && pressed then c.(mode := Completion3) else c
    case KeyZ => if c.enabled && pressed then c.(bends := Toggled(c.bends, Thumb)) else c
    case KeyX => if c.enabled && pressed then c.(bends := Toggled(c.bends, Index)) else c
    case KeyC => if c.enabled && pressed then c.(bends := Toggled(c.bends, Middle)) else c
    case KeyV => if c.enabled && pressed then c.(bends := Toggled(c.bends, Ring)) else c
    case KeyB => if c.enabled && pressed then c.(bends := Toggled(c.bends, Pinky)) else c
    case Other => c
  }

  /** Pressing F flips keyboard/mouse control and the cursor capture with it;
      turning control on re-arms the first-sample suppression. Nothing else moves. */
  lemma KeyFToggles(c: Controls)
    ensures var r := KeyStep(c, KeyF, Press);
      && r.enabled == !c.enabled
      && r.window.cursorDisabled == r.enabled
      && (r.enabled ==> r.mouse.firstMouse)
      && r == c.(enabled := r.enabled, window := r.window, mouse := r.mouse)
      && r.window.shouldClose == c.window.shouldClose
      && r.mouse == c.mouse.(firstMouse := r.mouse.firstMouse)
      && (!r.enabled ==> r.mouse == c.mouse)
  {
  }

  /** F toggles only on a press: releasing or repeating it changes nothing. */
  lemma KeyFOnlyOnPress(c: Controls, action: Action)
    requires action != Press
    ensures KeyStep(c, KeyF, action) == c
  {
  }

  /** Escape on press asks the window to close and touches no other state. */
  lemma EscapeCloses(c: Controls)
    ensures KeyStep(c, KeyEscape, Press) == c.(window := c.window.(shouldClose := true))
  {
  }

  /** Keys 1, 2 and 3 select completion 1, 2 and 3, but only on a press while
      control is off; no other key event changes the mode. */
  lemma ModeKeys(c: Controls, k: Key, action: Action)
    ensures var r := KeyStep(c, k, action);
      r.mode != c.mode ==> !c.enabled && action == Press && ModeKey(k) == Some(r.mode)
    ensures !c.enabled && action == Press && ModeKey(k).Some? ==> KeyStep(c, k, action).mode == ModeKey(k).value
  {
  }

  /** With control on, a press of Z, X, C, V or B flips exactly that finger's bent
      flag; no other key event changes any bent flag. */
  lemma FingerKeys(c: Controls, k: Key, action: Action)
    ensures var r := KeyStep(c, k, action);
      c.enabled && action == Press && FingerKey(k).Some? ==>
        && r.bends.Of(FingerKey(k).value) == !c.bends.Of(FingerKey(k).value)
        && forall g: Finger :: g != FingerKey(k).value ==> r.bends.Of(g) == c.bends.Of(g)
    ensures var r := KeyStep(c, k, action);
      !(c.enabled && action == Press && FingerKey(k).Some?) ==> r.bends == c.bends
  {
  }

  /** With control on, a movement key's flag becomes "not released" on press,
      repeat and release alike; the other flags stay. With control off, or for any
      other key, no flag changes. */
  lemma MoveKeysHeld(c: Controls, k: Key, action: Action)
    ensures var r := KeyStep(c, k, action);
      c.enabled && MoveKey(k).Some? ==>
        && r.keys.Of(MoveKey(k).value) == (action != Release)
        && forall n: Move :: n != MoveKey(k).value ==> r.keys.Of(n) == c.keys.Of(n)
    ensures var r := KeyStep(c, k, action);
      !(c.enabled && MoveKey(k).Some?) ==> r.keys == c.keys
  {
  }

  /** Key events never touch the view, the speed, or the cursor record and
      angles; only F touches the mouse record, and only its first-sample flag. */
  lemma KeyLeavesCamera(c: Controls, k: Key, action: Action)
    ensures var r := KeyStep(c, k, action);
      && r.view == c.view && r.speed == c.speed
      && r.mouse == c.mouse.(firstMouse := r.mouse.firstMouse)
      && (k != KeyF ==> r.mouse == c.mouse)
  {
  }

  lemma KeyStepValid(c: Controls, k: Key, action: Action)
    requires ControlsValid(c)
    ensures ControlsValid(KeyStep(c, k, action))
  {
  }

  /** Flags are only tracked while control is on: a key released while control
      is off stays held, and the camera moves once control comes back. */
  lemma {:induction false} StuckKey(c: Controls, forward: Vec3, right: Vec3)
    requires ControlsValid(c) && c.enabled && c.keys == NoKeys
    ensures var r := KeyStep(KeyStep(KeyStep(KeyStep(c, KeyW, Press), KeyF, Press), KeyW, Release), KeyF, Press);
      && r.enabled && r.keys == NoKeys.With(Forward, true)
      && Displacement(r.keys, forward, right, r.speed) == Stride(Forward, forward, right, r.speed)
  {
    var r := KeyStep(KeyStep(KeyStep(KeyStep(c, KeyW, Press), KeyF, Press), KeyW, Release), KeyF, Press);
    assert r.keys == NoKeys.With(Forward, true);
    DisplacementSingle(NoKeys, Forward, forward, right, r.speed);
    NoKeysStill(forward, right, r.speed);
  }

  // ---------------------------------------------------------------------------
  // cursor_position_callback

  /** The target orientation for a yaw and pitch: yaw about y, then pitch about x. */
  function Aim(yaw: real, pitch: real): Orientation {
    Product(AngleAxis(yaw, YAxis), AngleAxis(pitch, XAxis))
  }

  /** The whole effect of one cursor event at (x, y). */
  function CursorStep(c: Controls, x: real, y: real): Controls {
    if !c.enabled then c
    else if c.mouse.firstMouse then c.(mouse := c.mouse.(lastX := x, lastY := y, firstMouse := false))
    else
      var yaw := c.mouse.yaw + (x - c.mouse.lastX) * 0.1;
      var pitch := Clamp(c.mouse.pitch + (c.mouse.lastY - y) * 0.1, -PitchLimit, PitchLimit);
      c.(mouse := Mouse(x, y, false, yaw, pitch), view := c.view.(target := Aim(yaw, pitch)))
  }

  /** With control off the cursor callback changes nothing. */
  lemma CursorIgnoredWhenOff(c: Controls, x: real, y: real)
    requires !c.enabled
    ensures CursorStep(c, x, y) == c
  {
  }

  /** The first sample after control comes on only records the position. */
  lemma CursorFirstSample(c: Controls, x: real, y: real)
    requires c.enabled && c.mouse.firstMouse
    ensures var r := CursorStep(c, x, y);
      && r.mouse.lastX == x && r.mouse.lastY == y && !r.mouse.firstMouse
      && r.mouse.yaw == c.mouse.yaw && r.mouse.pitch == c.mouse.pitch && r.view == c.view
  {
  }

  /** Every later sample turns the view by the cursor offsets scaled by the
      sensitivity, y reversed, with pitch held within 89 degrees of level, and aims
      the target at the new yaw and pitch. */
  lemma CursorTurns(c: Controls, x: real, y: real)
    requires c.enabled && !c.mouse.firstMouse
    ensures var r := CursorStep(c, x, y);
      && r.mouse.yaw == c.mouse.yaw + (x - c.mouse.lastX) * 0.1
      && -PitchLimit <= r.mouse.pitch <= PitchLimit
      && (var p := c.mouse.pitch + (c.mouse.lastY - y) * 0.1;
          -PitchLimit <= p <= PitchLimit ==> r.mouse.pitch == p)
      && r.view.target == Aim(r.mouse.yaw, r.mouse.pitch)
      && r.mouse.lastX == x && r.mouse.lastY == y && !r.mouse.firstMouse
  {
  }

  /** Cursor events touch only the mouse record and the target orientation. */
  lemma CursorLeavesRest(c: Controls, x: real, y: real)
    ensures var r := CursorStep(c, x, y);
      r == c.(mouse := r.mouse, view := c.view.(target := r.view.target))
  {
  }

  lemma CursorStepValid(c: Controls, x: real, y: real)
    requires ControlsValid(c)
    ensures ControlsValid(CursorStep(c, x, y))
  {
  }

  // ---------------------------------------------------------------------------
  // scroll_callback

  /** The whole effect of one scroll event of yOffset notches. */
  function ScrollStep(c: Controls, yOffset: real): Controls {
    if c.enabled then c.(speed := Clamp(c.speed + yOffset * 0.02, MinSpeed, MaxSpeed)) else c
  }

  /** With control on, scrolling changes the speed by 0.02 a notch, held within
      [0.01, 1.0]; with control off it changes nothing. Only the speed changes. */
  lemma ScrollSpeed(c: Controls, yOffset: real)
    ensures var r := ScrollStep(c, yOffset);
      && (c.enabled ==> MinSpeed <= r.speed <= MaxSpeed)
      && (c.enabled && MinSpeed <= c.speed + yOffset * 0.02 <= MaxSpeed ==> r.speed == c.speed + yOffset * 0.02)
      && (!c.enabled ==> r == c)
      && r == c.(speed := r.speed)
  {
  }

  /** Scrolling further up never gives a slower camera. */
  lemma ScrollMonotone(c: Controls, y1: real, y2: real)
    requires y1 <= y2
    ensures ScrollStep(c, y1).speed <= ScrollStep(c, y2).speed
  {
  }

  lemma ScrollStepValid(c: Controls, yOffset: real)
    requires ControlsValid(c)
    ensures ControlsValid(ScrollStep(c, yOffset))
  {
  }

  // ---------------------------------------------------------------------------
  // update_camera_position

  /** How far move m pushes the camera in one step at the given speed: along the
      view's forward or right vector, which mat4_cast derives from the
      orientation, or along the world up, forwards or backwards. */
  function Stride(m: Move, forward: Vec3, right: Vec3, speed: real): Vec3 {
    match m
    case Forward => forward.Scale(speed)
    case Back => forward.Scale(speed).Neg()
    case Right => right.Scale(speed)
    case Left => right.Scale(speed).Neg()
    case Up => WorldUp.Scale(speed)
    case Down => WorldUp.Scale(speed).Neg()
  }

  function Opposite(m: Move): Move {
    match m
    case Forward => Back
    case Back => Forward
    case Left => Right
    case Right => Left
    case Up => Down
    case Down => Up
  }

  const MoveCount: nat := 6

  /** The order update_camera_position looks at the keys in: W, S, A, D, Space, Shift. */
  function MoveAt(i: nat): Move
    requires i < 6
  {
    if i == 0 then Forward else if i == 1 then Back else if i == 2 then Left
    else if i == 3 then Right else if i == 4 then Up else Down
  }

  function Rank(m: Move): (i: nat)
    ensures i < 6 && MoveAt(i) == m
    ensures forall j: nat :: j < 6 && MoveAt(j) == m ==> j == i
  {
    match m
    case Forward => 0
    case Back => 1
    case Left => 2
    case Right => 3
    case Up => 4
    case Down => 5
  }

  /** What move m adds: its stride if its key is held. */
  function Push(keys: MoveKeys, m: Move, forward: Vec3, right: Vec3, speed: real): Vec3 {
    if keys.Of(m) then Stride(m, forward, right, speed) else Zero
  }

  /** What the first n moves in key order add up to. */
  function Travel(keys: MoveKeys, n: nat, forward: Vec3, right: Vec3, speed: real): Vec3
    requires n <= 6
  {
    if n == 0 then Zero
    else Travel(keys, n - 1, forward, right, speed).Plus(Push(keys, MoveAt(n - 1), forward, right, speed))
  }

  /** The reference displacement of one camera step: the sum of every held
      move's stride. */
  function Displacement(keys: MoveKeys, forward: Vec3, right: Vec3, speed: real): Vec3 {
    Travel(keys, MoveCount, forward, right, speed)
  }

  /** The whole effect of update_camera_position: nothing with control off,
      otherwise the position moves by the displacement of the held keys. */
  function PositionStep(c: Controls, forward: Vec3, right: Vec3): Controls {
    if c.enabled then c.(view := c.view.(position := c.view.position.Plus(Displacement(c.keys, forward, right, c.speed)))) else c
  }

  /** With no key held nothing adds up. */
  lemma {:induction false} NoTravel(n: nat, forward: Vec3, right: Vec3, speed: real)
    requires n <= 6
    ensures Travel(NoKeys, n, forward, right, speed) == Zero
  {
    if n > 0 {
      NoTravel(n - 1, forward, right, speed);
    }
  }

  lemma NoKeysStill(forward: Vec3, right: Vec3, speed: real)
    ensures Displacement(NoKeys, forward, right, speed) == Zero
  {
    NoTravel(MoveCount, forward, right, speed);
  }

  /** The camera stays put with control off or no movement key held. */
  lemma PositionIdle(c: Controls, forward: Vec3, right: Vec3)
    requires !c.enabled || c.keys == NoKeys
    ensures PositionStep(c, forward, right) == c
  {
    NoKeysStill(forward, right, c.speed);
  }

  /** The += or -= update_camera_position performs for move m when its key is held. */
  function Shifted(q: Vec3, keys: MoveKeys, m: Move, forward: Vec3, right: Vec3, speed: real): Vec3 {
    if !keys.Of(m) then q
    else match m
      case Forward => q.Plus(forward.Scale(speed))
      case Back => q.Minus(forward.Scale(speed))
      case Left => q.Minus(right.Scale(speed))
      case Right => q.Plus(right.Scale(speed))
      case Up => q.Plus(WorldUp.Scale(speed))
      case Down => q.Minus(WorldUp.Scale(speed))
  }

  /** Each += or -= adds the move's push. */
  lemma ShiftedPlusPush(q: Vec3, keys: MoveKeys, m: Move, forward: Vec3, right: Vec3, speed: real)
    ensures Shifted(q, keys, m, forward, right, speed) == q.Plus(Push(keys, m, forward, right, speed))
  {
  }

  /** The position after the first n updates of update_camera_position, in key order. */
  function Walked(p: Vec3, keys: MoveKeys, n: nat, forward: Vec3, right: Vec3, speed: real): Vec3
    requires n <= 6
  {
    if n == 0 then p else Shifted(Walked(p, keys, n - 1, forward, right, speed), keys, MoveAt(n - 1), forward, right, speed)
  }

  /** The updates one at a time end where the summed travel says. */
  lemma {:induction false} WalkedTravel(p: Vec3, keys: MoveKeys, n: nat, forward: Vec3, right: Vec3, speed: real)
    requires n <= 6
    ensures Walked(p, keys, n, forward, right, speed) == p.Plus(Travel(keys, n, forward, right, speed))
  {
    if n > 0 {
      WalkedTravel(p, keys, n - 1, forward, right, speed);
      var before := Walked(p, keys, n - 1, forward, right, speed);
      ShiftedPlusPush(before, keys, MoveAt(n - 1), forward, right, speed);
      PlusAssoc(p, Travel(keys, n - 1, forward, right, speed), Push(keys, MoveAt(n - 1), forward, right, speed));
    }
  }

  /** What holding move m adds to the travel of the first n moves. */
  function Extra(m: Move, n: nat, forward: Vec3, right: Vec3, speed: real): Vec3 {
    if Rank(m) < n then Stride(m, forward, right, speed) else Zero
  }

  /** The step of TravelWith where the n-th move is m itself. */
  lemma TravelWithAt(keys: MoveKeys, m: Move, n: nat, forward: Vec3, right: Vec3, speed: real)
    requires 0 < n <= 6 && !keys.Of(m) && MoveAt(n - 1) == m
    requires Travel(keys.With(m, true), n - 1, forward, right, speed)
          == Travel(keys, n - 1, forward, right, speed).Plus(Extra(m, n - 1, forward, right, speed))
    ensures Travel(keys.With(m, true), n, forward, right, speed)
         == Travel(keys, n, forward, right, speed).Plus(Extra(m, n, forward, right, speed))
  {
    assert Rank(m) == n - 1;
  }

  /** The step of TravelWith where the n-th move is another one. */
  lemma TravelWithPast(keys: MoveKeys, m: Move, n: nat, forward: Vec3, right: Vec3, speed: real)
    requires 0 < n <= 6 && !keys.Of(m) && MoveAt(n - 1) != m
    requires Travel(keys.With(m, true), n - 1, forward, right, speed)
          == Travel(keys, n - 1, forward, right, speed).Plus(Extra(m, n - 1, forward, right, speed))
    ensures Travel(keys.With(m, true), n, forward, right, speed)
         == Travel(keys, n, forward, right, speed).Plus(Extra(m, n, forward, right, speed))
  {
    var next := MoveAt(n - 1);
    assert Push(keys.With(m, true), next, forward, right, speed) == Push(keys, next, forward, right, speed);
    assert Extra(m, n, forward, right, speed) == Extra(m, n - 1, forward, right, speed);
    PlusSwap(Travel(keys, n - 1, forward, right, speed), Extra(m, n - 1, forward, right, speed),
             Push(keys, next, forward, right, speed));
  }

  /** Holding one more key adds that move's stride once it is among the first n. */
  lemma {:induction false} TravelWith(keys: MoveKeys, m: Move, n: nat, forward: Vec3, right: Vec3, speed: real)
    requires n <= 6 && !keys.Of(m)
    ensures Travel(keys.With(m, true), n, forward, right, speed)
         == Travel(keys, n, forward, right, speed).Plus(Extra(m, n, forward, right, speed))
  {
    if n == 0 {
      assert Extra(m, 0, forward, right, speed) == Zero;
    } else {
      TravelWith(keys, m, n - 1, forward, right, speed);
      if MoveAt(n - 1) == m {
        TravelWithAt(keys, m, n, forward, right, speed);
      } else {
        TravelWithPast(keys, m, n, forward, right, speed);
      }
    }
  }

  /** Holding one more key adds exactly that move's stride: the keys' contributions
      add up independently. */
  lemma DisplacementSingle(keys: MoveKeys, m: Move, forward: Vec3, right: Vec3, speed: real)
    requires !keys.Of(m)
    ensures Displacement(keys.With(m, true), forward, right, speed)
         == Displacement(keys, forward, right, speed).Plus(Stride(m, forward, right, speed))
  {
    TravelWith(keys, m, MoveCount, forward, right, speed);
  }

  /** Opposite moves have opposite strides. */
  lemma OppositeStride(m: Move, forward: Vec3, right: Vec3, speed: real)
    ensures Stride(Opposite(m), forward, right, speed) == Stride(m, forward, right, speed).Neg()
  {
  }

  /** Opposite keys held together cancel: the camera moves as if neither were held. */
  lemma {:induction false} OppositeCancel(keys: MoveKeys, m: Move, forward: Vec3, right: Vec3, speed: real)
    requires !keys.Of(m) && !keys.Of(Opposite(m))
    ensures Displacement(keys.With(m, true).With(Opposite(m), true), forward, right, speed)
         == Displacement(keys, forward, right, speed)
  {
    DisplacementSingle(keys, m, forward, right, speed);
    DisplacementSingle(keys.With(m, true), Opposite(m), forward, right, speed);
    OppositeStride(m, forward, right, speed);
  }

  lemma PositionStepValid(c: Controls, forward: Vec3, right: Vec3)
    requires ControlsValid(c)
    ensures ControlsValid(PositionStep(c, forward, right))
  {
  }

  // ---------------------------------------------------------------------------
  // The frame

  /** The controls after one frame: the camera step, then orientation eased
      toward the target by the slerp factor, then the mode forced to
      KeyboardMouseControl while control is on. */
  function FrameControls(c: Controls, forward: Vec3, right: Vec3): Controls {
    var moved := PositionStep(c, forward, right);
    moved.(
      view := moved.view.(orientation := Slerp(moved.view.orientation, moved.view.target, SlerpFactor)),
      mode := if moved.enabled then KeyboardMouseControl else moved.mode)
  }

  /** The metacarpals rotation every frame writes: a turn about x every 8 seconds. */
  function FrameSpin(passedTime: real): Transform {
    Rot(XAxis, passedTime * (Pi / 4.0))
  }

  /** The pose table after one frame: metacarpals spun, then the live control while
      control is on, otherwise the selected completion, or nothing in the default mode. */
  function FrameTable(m: Table, c: Controls, passedTime: real): Table {
    var spun := m[Metacarpals := FrameSpin(passedTime)];
    if c.enabled then KeyboardMouseControlled(spun, c.bends)
    else match c.mode
      case Completion1 => Completion1Table(spun, passedTime)
      case Completion2 => Completion2Table(spun, passedTime)
      case Completion3 => Completion3Table(spun, passedTime)
      case KeyboardMouseControl => spun
  }

  /** With control on the frame forces the mode; with control off the mode is
      kept and only the orientation eases. */
  lemma FrameForcesMode(c: Controls, forward: Vec3, right: Vec3)
    ensures var r := FrameControls(c, forward, right);
      && (c.enabled ==> r.mode == KeyboardMouseControl)
      && (!c.enabled ==> r == c.(view := c.view.(orientation := Slerp(c.view.orientation, c.view.target, SlerpFactor))))
  {
  }

  /** The x spin survives every producer except completion 3, whose swing about y
      replaces it. */
  lemma FrameMetacarpals(m: Table, c: Controls, passedTime: real)
    ensures var r := FrameTable(m, c, passedTime);
      && Metacarpals in r
      && r[Metacarpals] ==
         if !c.enabled && c.mode == Completion3
         then Rot(YAxis, JointAngle(TimeInPeriod(passedTime), Period, SwingFrac))
         else FrameSpin(passedTime)
  {
    var spun := m[Metacarpals := FrameSpin(passedTime)];
    var t := TimeInPeriod(passedTime);
    if c.enabled {
      LivePose(spun, c.bends);
      assert !LiveBone(Metacarpals);
    } else if c.mode == Completion1 {
      ClearAndMoveKeepsNamed(spun, t, GrabFracs, Metacarpals);
    } else if c.mode == Completion2 {
      Completion2AsClearAndMove(spun, passedTime);
      ClearAndMoveKeepsNamed(spun, t, OkFracs, Metacarpals);
    } else if c.mode == Completion3 {
      Completion3Swing(spun, passedTime);
    }
  }

  /** With control on, every finger's live bones follow its bent flag: a press of
      that finger's key is seen in the next frame. */
  lemma FrameLive(m: Table, c: Controls, passedTime: real)
    requires c.enabled
    ensures var r := FrameTable(m, c, passedTime);
      forall f: Finger :: LiveSettled(r, f, c.bends.Of(f))
  {
    LivePose(m[Metacarpals := FrameSpin(passedTime)], c.bends);
  }

  /** In the default mode with control off a frame only spins metacarpals. */
  lemma FrameIdle(m: Table, c: Controls, passedTime: real)
    requires !c.enabled && c.mode == KeyboardMouseControl
    ensures FrameTable(m, c, passedTime) == m[Metacarpals := FrameSpin(passedTime)]
  {
  }

  /** A frame keeps the table keyed by canonical bones. */
  lemma FrameWellKeyed(m: Table, c: Controls, passedTime: real)
    requires WellKeyed(m)
    ensures WellKeyed(FrameTable(m, c, passedTime))
  {
    MetacarpalsCanonical();
    var spun := m[Metacarpals := FrameSpin(passedTime)];
    if c.enabled {
      LiveWellKeyed(spun, c.bends);
    } else if c.mode == Completion1 {
      Completion1WellKeyed(spun, passedTime);
    } else if c.mode == Completion2 {
      Completion2WellKeyed(spun, passedTime);
    } else if c.mode == Completion3 {
      Completion3WellKeyed(spun, passedTime);
    }
  }

  lemma FrameControlsValid(c: Controls, forward: Vec3, right: Vec3)
    requires ControlsValid(c)
    ensures ControlsValid(FrameControls(c, forward, right))
  {
  }

  // ---------------------------------------------------------------------------
  // The statics and the callbacks

  /** The viewer's statics, held in the groups the file declares them in. */
  class Viewer {
    var currentMode: DisplayMode
    var keyboardMouseEnabled: bool
    var fingers: Bends
    var view: View
    var mouse: Mouse
    var cameraSpeed: real
    var keys: MoveKeys
    var window: Window

    function State(): Controls
      reads this
    {
      Controls(currentMode, keyboardMouseEnabled, fingers, view, mouse, cameraSpeed, keys, window)
    }

    predicate Valid()
      reads this
    {
      ControlsValid(State())
    }

    /** The statics' initial values. */
    constructor ()
      ensures State() == Initial
      ensures Valid()
    {
      currentMode := KeyboardMouseControl;
      keyboardMouseEnabled := false;
      fingers := Bends(false, false, false, false, false);
      view := View(Vec3(0.0, 0.0, 15.0), Identity, Identity);
      mouse := Mouse(400.0, 400.0, true, -90.0, 0.0);
      cameraSpeed := 0.1;
      keys := MoveKeys(false, false, false, false, false, false);
      window := Window(false, false);
    }

    /** key_callback. */
    method KeyCallback(k: Key, action: Action)
      requires Valid()
      modifies this
      ensures State() == KeyStep(old(State()), k, action)
      ensures Valid()
    {
      if k.KeyEscape? && action == Press {
        window := window.(shouldClose := true);
      }

      if k.KeyF? && action == Press {
        keyboardMouseEnabled := !keyboardMouseEnabled;
        if keyboardMouseEnabled {
          window := window.(cursorDisabled := true);
          mouse := mouse.(firstMouse := true);
        } else {
          window := window.(cursorDisabled := false);
        }
      }

      if keyboardMouseEnabled {
        if k.KeyW? { keys := keys.(w := action != Release); }
        if k.KeyA? { keys := keys.(a := action != Release); }
        if k.KeyS? { keys := keys.(s := action != Release); }
        if k.KeyD? { keys := keys.(d := action != Release); }
        if k.KeySpace? { keys := keys.(space := action != Release); }
        if k.KeyLeftShift? { keys := keys.(shift := action != Release); }
      }

      if !keyboardMouseEnabled {
        if k.Key1? && action == Press { currentMode := Completion1; }
        if k.Key2? && action == Press { currentMode := Completion2; }
        if k.Key3? && action == Press { currentMode := Completion3; }
      }

      if keyboardMouseEnabled && action == Press {
        match k
        case KeyZ => fingers := fingers.(thumb := !fingers.thumb);
        case KeyX => fingers := fingers.(index := !fingers.index);
        case KeyC => fingers := fingers.(middle := !fingers.middle);
        case KeyV => fingers := fingers.(ring := !fingers.ring);
        case KeyB => fingers := fingers.(pinky := !fingers.pinky);
        case _ =>
      }
    }

    /** cursor_position_callback. */
    method CursorPositionCallback(x: real, y: real)
      requires Valid()
      modifies this
      ensures State() == CursorStep(old(State()), x, y)
      ensures Valid()
    {
      if !keyboardMouseEnabled {
        return;
      }

      if mouse.firstMouse {
        mouse := mouse.(lastX := x, lastY := y, firstMouse := false);
        return;
      }

      var xOffset := (x - mouse.lastX) * 0.1;
      var yOffset := (mouse.lastY - y) * 0.1;
      mouse := mouse.(lastX := x, lastY := y);

      mouse := mouse.(yaw := mouse.yaw + xOffset, pitch := mouse.pitch + yOffset);

      if mouse.pitch > PitchLimit {
        mouse := mouse.(pitch := PitchLimit);
      }
      if mouse.pitch < -PitchLimit {
        mouse := mouse.(pitch := -PitchLimit);
      }

      view := view.(target := Product(AngleAxis(mouse.yaw, YAxis), AngleAxis(mouse.pitch, XAxis)));
    }

    /** scroll_callback. */
    method ScrollCallback(xOffset: real, yOffset: real)
      requires Valid()
      modifies this
      ensures State() == ScrollStep(old(State()), yOffset)
      ensures Valid()
    {
      if keyboardMouseEnabled {
        cameraSpeed := cameraSpeed + yOffset * 0.02;
        if cameraSpeed < MinSpeed {
          cameraSpeed := MinSpeed;
        }
        if cameraSpeed > MaxSpeed {
          cameraSpeed := MaxSpeed;
        }
      }
    }

    /** update_camera_position, with the view's forward and right vectors given. */
    method UpdateCameraPosition(forward: Vec3, right: Vec3)
      requires Valid()
      modifies this
      ensures State() == PositionStep(old(State()), forward, right)
      ensures Valid()
    {
      if !keyboardMouseEnabled {
        return;
      }

      var cameraPosition := view.position;
      var up := WorldUp;
      if keys.w {
        cameraPosition := cameraPosition.Plus(forward.Scale(cameraSpeed));
      }
      assert cameraPosition == Walked(view.position, keys, 1, forward, right, cameraSpeed);
      if keys.s {
        cameraPosition := cameraPosition.Minus(forward.Scale(cameraSpeed));
      }
      assert cameraPosition == Walked(view.position, keys, 2, forward, right, cameraSpeed);
      if keys.a {
        cameraPosition := cameraPosition.Minus(right.Scale(cameraSpeed));
      }
      assert cameraPosition == Walked(view.position, keys, 3, forward, right, cameraSpeed);
      if keys.d {
        cameraPosition := cameraPosition.Plus(right.Scale(cameraSpeed));
      }
      assert cameraPosition == Walked(view.position, keys, 4, forward, right, cameraSpeed);
      if keys.space {
        cameraPosition := cameraPosition.Plus(up.Scale(cameraSpeed));
      }
      assert cameraPosition == Walked(view.position, keys, 5, forward, right, cameraSpeed);
      if keys.shift {
        cameraPosition := cameraPosition.Minus(up.Scale(cameraSpeed));
      }
      assert cameraPosition == Walked(view.position, keys, 6, forward, right, cameraSpeed);
      WalkedTravel(view.position, keys, MoveCount, forward, right, cameraSpeed);
      view := view.(position := cameraPosition);
    }

    /** One pass of the main loop's animation part, with passed_time and the view
        basis given: camera step, orientation easing, metacarpals spin, dispatch. */
    method Frame(modifier: PoseProducers.SkeletonModifier, passedTime: real, forward: Vec3, right: Vec3)
      requires Valid()
      modifies this, modifier
      ensures State() == FrameControls(old(State()), forward, right)
      ensures modifier.entries == FrameTable(old(modifier.entries), old(State()), passedTime)
      ensures Valid()
    {
      UpdateCameraPosition(forward, right);

      view := view.(orientation := Slerp(view.orientation, view.target, SlerpFactor));

      modifier.entries := modifier.entries[Metacarpals := Rot(XAxis, passedTime * (Pi / 4.0))];

      if keyboardMouseEnabled {
        currentMode := KeyboardMouseControl;
        PoseProducers.KeyboardMouseControl(modifier, fingers);
      } else {
        match currentMode
        case Completion1 => PoseProducers.Completion1(modifier, passedTime);
        case Completion2 => PoseProducers.Completion2(modifier, passedTime);
        case Completion3 => PoseProducers.Completion3(modifier, passedTime);
        case KeyboardMouseControl =>
      }
    }
  }
}
