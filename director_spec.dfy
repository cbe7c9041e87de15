/** What each CameraDirector operation does, as a function from the state
    before the call to the state after it. The state is a snapshot of the
    director's fields together with the host's. */
module DirectorSpec {
  import opened Engine

  /** `number | null`: None is null. */
  datatype Option<T> = None | Some(value: T)

  const MaxPoints := 10
  const MoveSpeed: real := 1.0
  const RotSpeed: real := 2.0
  const MouseSensitivity: real := 0.1
  const PitchLimit: real := 89.0
  /** Length of one playback segment: the interpolation and the sleep. */
  const SegmentMs := 3000

  const KeyF5 := 116
  const KeyH := 72
  const KeyO := 79
  const KeyC := 67
  const KeyW := 87
  const KeyS := 83
  const KeyA := 65
  const KeyD := 68
  const KeyQ := 81
  const KeyE := 69

  const MovementKeys := {KeyW, KeyS, KeyA, KeyD, KeyQ, KeyE}

  /** JavaScript truthiness of the camera field: null and the handle 0 are
      both falsy. */
  predicate Truthy(camera: Option<int>) {
    camera.Some? && camera.value != 0
  }

  datatype Sys = Sys(
    // CameraDirector's fields
    mode: bool,            // isDirectorMode
    points: seq<Pose>,     // cameraPoints
    camera: Option<int>,   // camera
    playing: bool,         // isPlayingSequence
    cursorWasVisible: bool,
    // the host's
    trace: seq<Effect>,
    created: nat,
    cursorVisible: bool,
    poses: map<int, Pose>,
    cursor: Vec2,
    playerPos: Vec3,
    keysDown: set<int>,
    screen: Vec2)

  function Log(s: Sys, e: Effect): Sys {
    s.(trace := s.trace + [e])
  }

  // ---------------------------------------------------------------- mode

  function StartDirectorMode(s: Sys, answer: nat -> int): Sys {
    var h := answer(s.created);
    var pose := Pose(s.playerPos, Origin);
    var s1 := s.(cursorWasVisible := s.cursorVisible, camera := Some(h), created := s.created + 1,
                 poses := s.poses[h := pose], trace := s.trace + [CamCreated(h, pose, Fov)]);
    if !Truthy(s1.camera) then
      Log(s1.(mode := false), Emitted(StateChanged(false)))
    else
      s1.(cursorVisible := false,
          trace := s1.trace + [CamActiveSet(h, true)] + [ScriptCamsRendered(true)] + [GameControlsToggled(false)]
                   + [CursorShown(false)] + [HudDisplayed(false)] + [RadarDisplayed(false)])
  }

  /** `base` followed by the deactivation and destruction of the primary
      camera, when there is one. */
  function Release(base: seq<Effect>, camera: Option<int>): seq<Effect> {
    if camera.Some? then
      base + [CamActiveSet(camera.value, false)] + [CamDestroyed(camera.value)] + [ScriptCamsRendered(false)]
    else base
  }

  function StopDirectorMode(s: Sys): Sys {
    var s1 := s.(camera := None, trace := Release(s.trace, s.camera));
    var s2 := if s1.cursorWasVisible && !s1.cursorVisible
              then Log(s1.(cursorVisible := true), CursorShown(true))
              else s1;
    s2.(trace := s2.trace + [HudDisplayed(true)] + [RadarDisplayed(true)] + [GameControlsToggled(true)])
  }

  function ToggleDirectorMode(s: Sys, answer: nat -> int): Sys {
    var s1 := Log(s.(mode := !s.mode), Emitted(StateChanged(!s.mode)));
    if s1.mode then
      var s2 := StartDirectorMode(s1, answer);
      if !Truthy(s2.camera) then Log(s2.(mode := false), Emitted(StateChanged(false))) else s2
    else
      StopDirectorMode(s1)
  }

  // ----------------------------------------------------------- waypoints

  function SaveCurrentPoint(s: Sys): Sys {
    if s.playing then s
    else if |s.points| >= MaxPoints then s
    else if s.camera.None? then s
    else
      var p := PoseOf(s.poses, s.camera.value);
      Log(s.(points := s.points + [p]), Emitted(PointSaved(|s.points| + 1)))
  }

  function ClearPoints(s: Sys): Sys {
    if s.playing then s
    else Log(s.(points := []), Emitted(PointSaved(0)))
  }

  // ------------------------------------------------------------ playback

  /** The handles the engine returns for n camera creations starting with
      its creation number `from`. */
  function Handles(answer: nat -> int, from: nat, n: nat): seq<int> {
    seq(n, k requires 0 <= k => answer(from + k))
  }

  /** The trace after segments 1 .. n were appended to `base`. Segment i
      creates a camera at waypoint i, interpolates into it from the camera of
      waypoint i - 1, sleeps, and destroys the superseded camera. */
  function Segments(base: seq<Effect>, hs: seq<int>, pts: seq<Pose>, n: nat): seq<Effect>
    requires n < |hs| == |pts|
  {
    if n == 0 then base
    else Segments(base, hs, pts, n - 1) + [CamCreated(hs[n], pts[n], Fov)]
         + [InterpStarted(hs[n], hs[n - 1], SegmentMs)] + [Slept(SegmentMs)] + [CamDestroyed(hs[n - 1])]
  }

  /** The trace after `base` once the player has shown every waypoint and
      dropped its last camera. */
  function Run(base: seq<Effect>, hs: seq<int>, pts: seq<Pose>): seq<Effect>
    requires 1 <= |hs| == |pts|
  {
    var n := |pts|;
    var t0 := base + [CamCreated(hs[0], pts[0], Fov)] + [CamActiveSet(hs[0], true)] + [ScriptCamsRendered(true)];
    var t1 := if n == 1 then t0 + [Slept(SegmentMs)] else Segments(t0, hs, pts, n - 1);
    t1 + [CamActiveSet(hs[n - 1], false)] + [CamDestroyed(hs[n - 1])]
  }

  /** The engine's pose store after the first n playback cameras were made. */
  function Placed(poses: map<int, Pose>, hs: seq<int>, pts: seq<Pose>, n: nat): map<int, Pose>
    requires n <= |hs| == |pts|
  {
    if n == 0 then poses else Placed(poses, hs, pts, n - 1)[hs[n - 1] := pts[n - 1]]
  }

  /** The trace after `base` once the primary camera, when the field is not
      null, is active and rendered again. */
  function Handback(base: seq<Effect>, camera: Option<int>): seq<Effect> {
    if camera.Some? then base + [CamActiveSet(camera.value, true)] + [ScriptCamsRendered(true)] else base
  }

  function PlaySequence(s: Sys, answer: nat -> int): Sys {
    if s.playing || |s.points| < 1 then s
    else
      var hs := Handles(answer, s.created, |s.points|);
      s.(trace := Handback(Run(s.trace + [Emitted(PlayingSequence(true))], hs, s.points), s.camera)
                  + [Emitted(PlayingSequence(false))],
         created := s.created + |s.points|,
         poses := Placed(s.poses, hs, s.points, |s.points|))
  }

  // ------------------------------------------------------------ free fly

  /** The forward and right vectors the source derives from a rotation
      with sin and cos. */
  datatype Basis = Basis(forward: Vec3, right: Vec3)

  const Up := Vec3(0.0, 0.0, 1.0)

  /** The accumulators of the per-frame `move` helper. */
  datatype Accum = Accum(pos: Vec3, moved: bool)

  function Move(acc: Accum, down: bool, dir: Vec3, sign: real): Accum {
    if down then
      Accum(Vec3(acc.pos.x + sign * dir.x * MoveSpeed,
                 acc.pos.y + sign * dir.y * MoveSpeed,
                 acc.pos.z + sign * dir.z * MoveSpeed), true)
    else acc
  }

  /** The six movement bindings applied in the source's order. */
  function Displace(pos: Vec3, b: Basis, keys: set<int>): Accum {
    var a0 := Accum(pos, false);
    var a1 := Move(a0, KeyW in keys, b.forward, 1.0);
    var a2 := Move(a1, KeyS in keys, b.forward, -1.0);
    var a3 := Move(a2, KeyA in keys, b.right, -1.0);
    var a4 := Move(a3, KeyD in keys, b.right, 1.0);
    var a5 := Move(a4, KeyQ in keys, Up, -1.0);
    Move(a5, KeyE in keys, Up, 1.0)
  }

  /** The pitch clamp: a value is cut to the interval from -89 to 89. */
  function ClampPitch(v: real): (r: real)
    ensures -PitchLimit <= r <= PitchLimit
    ensures -PitchLimit <= v <= PitchLimit ==> r == v
    ensures v > PitchLimit ==> r == PitchLimit
    ensures v < -PitchLimit ==> r == -PitchLimit
  {
    var m := if PitchLimit < v then PitchLimit else v;
    if -PitchLimit > m then -PitchLimit else m
  }

  function Center(screen: Vec2): Vec2 {
    Vec2(screen.x / 2.0, screen.y / 2.0)
  }

  /** The rotation after a cursor offset (dx, dy) from the screen centre:
      both axes move against the offset, and pitch is clamped. */
  function Look(rot: Vec3, dx: real, dy: real): Vec3 {
    Vec3(ClampPitch(rot.x - dy * MouseSensitivity * RotSpeed), rot.y,
         rot.z - dx * MouseSensitivity * RotSpeed)
  }

  function HandleCameraMovement(s: Sys, basis: Vec3 -> Basis): Sys {
    if !s.mode || !Truthy(s.camera) then s
    else
      var h := s.camera.value;
      var pos := PoseOf(s.poses, h).position;
      var rot := PoseOf(s.poses, h).rotation;
      var acc := Displace(pos, basis(rot), s.keysDown);
      var s1 := if acc.moved
                then Log(s.(poses := s.poses[h := Pose(acc.pos, rot)]), CamCoordSet(h, acc.pos))
                else s;
      var c := Center(s.screen);
      var dx := s.cursor.x - c.x;
      var dy := s.cursor.y - c.y;
      if dx != 0.0 || dy != 0.0 then
        var r := Look(rot, dx, dy);
        s1.(poses := s1.poses[h := Pose(PoseOf(s1.poses, h).position, r)], cursor := c,
            trace := s1.trace + [CamRotSet(h, r)] + [CursorPosSet(c)])
      else s1
  }

  // ------------------------------------------------------------- keys

  datatype Command = Toggle | Save | Play | Clear

  /** The `actions` table of handleKeyUp. */
  function Binding(key: int): Option<Command> {
    if key == KeyF5 then Some(Toggle)
    else if key == KeyH then Some(Save)
    else if key == KeyO then Some(Play)
    else if key == KeyC then Some(Clear)
    else None
  }

  function HandleKeyUp(s: Sys, key: int, answer: nat -> int): Sys {
    match Binding(key)
    case None => s
    case Some(Toggle) => ToggleDirectorMode(s, answer)
    case Some(Save) => if s.mode then SaveCurrentPoint(s) else s
    case Some(Play) => if s.mode then PlaySequence(s, answer) else s
    case Some(Clear) => if s.mode then ClearPoints(s) else s
  }
}
