/** The host the camera director runs in: the alt:V client API and the game's
    natives, seen only through what the director reads and what it changes.
    Every call that has an effect is appended, in call order, to the host's
    trace; the handful of engine facts the director reads back (cursor
    visibility, camera poses, key state, screen size) are fields. */
module Engine {

  datatype Vec3 = Vec3(x: real, y: real, z: real)

  datatype Vec2 = Vec2(x: real, y: real)

  /** A camera pose: a position and an Euler rotation in degrees
      (x is pitch, y is roll, z is yaw). */
  datatype Pose = Pose(position: Vec3, rotation: Vec3)

  const Origin := Vec3(0.0, 0.0, 0.0)

  /** Field of view passed to every camera creation. */
  const Fov := 90

  /** The three notifications the director emits with alt.emit. */
  datatype Event =
    | StateChanged(on: bool)        // 'cameraDirector:stateChanged'
    | PointSaved(count: int)        // 'cameraDirector:pointSaved'
    | PlayingSequence(playing: bool) // 'cameraDirector:playingSequence'

  /** One host call with an effect. The constant arguments the source passes
      everywhere (camera kind 'DEFAULT_SCRIPTED_CAMERA', the active flag `true`
      and rotation order 2 of createCamWithParams, the easing flags 1, 1, the
      fixed arguments of renderScriptCams, the rotation order 2 of setCamRot
      and the `true` of destroyCam) are not recorded. A camera's activation on creation is therefore not modelled:
      only setCamActive records an activation. */
  datatype Effect =
    | Emitted(event: Event)
    | CamCreated(handle: int, pose: Pose, fov: int)
    | CamActiveSet(handle: int, active: bool)
    | ScriptCamsRendered(render: bool)
    | CamDestroyed(handle: int)
    | InterpStarted(to: int, from: int, duration: int)
    | Slept(ms: int)
    | CamCoordSet(handle: int, position: Vec3)
    | CamRotSet(handle: int, rotation: Vec3)
    | CursorPosSet(pos: Vec2)
    | CursorShown(show: bool)
    | GameControlsToggled(enabled: bool)
    | HudDisplayed(show: bool)
    | RadarDisplayed(show: bool)

  /** The pose the engine reports for a handle; a handle it never saw reads
      as a camera at the origin with zero rotation. */
  function PoseOf(poses: map<int, Pose>, h: int): Pose {
    if h in poses then poses[h] else Pose(Origin, Origin)
  }

  class Host {
    /** The handle the engine returns from its k-th camera creation
        (0 is the engine's "no camera"). */
    const answer: nat -> int
    var trace: seq<Effect>
    var created: nat
    var cursorVisible: bool
    var poses: map<int, Pose>
    var cursor: Vec2
    /** Inputs the director only reads. */
    var playerPos: Vec3
    var keysDown: set<int>
    var screen: Vec2

    constructor (answer: nat -> int, playerPos: Vec3, keysDown: set<int>, cursor: Vec2, screen: Vec2, cursorVisible: bool)
      ensures this.answer == answer && trace == [] && created == 0 && poses == map[]
      ensures this.playerPos == playerPos && this.keysDown == keysDown
      ensures this.cursor == cursor && this.screen == screen && this.cursorVisible == cursorVisible
    {
      this.answer := answer;
      trace := [];
      created := 0;
      poses := map[];
      this.playerPos := playerPos;
      this.keysDown := keysDown;
      this.cursor := cursor;
      this.screen := screen;
      this.cursorVisible := cursorVisible;
    }

    /** alt.emit */
    method Emit(e: Event)
      modifies this`trace
      ensures trace == old(trace) + [Emitted(e)]
    {
      trace := trace + [Emitted(e)];
    }

    /** native.createCamWithParams: the camera starts at the given pose. */
    method CreateCamWithParams(pose: Pose) returns (h: int)
      modifies this`trace, this`created, this`poses
      ensures h == answer(old(created)) && created == old(created) + 1
      ensures poses == old(poses)[h := pose]
      ensures trace == old(trace) + [CamCreated(h, pose, Fov)]
    {
      h := answer(created);
      created := created + 1;
      poses := poses[h := pose];
      trace := trace + [CamCreated(h, pose, Fov)];
    }

    /** native.setCamActive */
    method SetCamActive(h: int, active: bool)
      modifies this`trace
      ensures trace == old(trace) + [CamActiveSet(h, active)]
    {
      trace := trace + [CamActiveSet(h, active)];
    }

    /** native.renderScriptCams */
    method RenderScriptCams(render: bool)
      modifies this`trace
      ensures trace == old(trace) + [ScriptCamsRendered(render)]
    {
      trace := trace + [ScriptCamsRendered(render)];
    }

    /** native.destroyCam */
    method DestroyCam(h: int)
      modifies this`trace
      ensures trace == old(trace) + [CamDestroyed(h)]
    {
      trace := trace + [CamDestroyed(h)];
    }

    /** native.setCamActiveWithInterp(to, from, duration, 1, 1) */
    method SetCamActiveWithInterp(to: int, from: int, duration: int)
      modifies this`trace
      ensures trace == old(trace) + [InterpStarted(to, from, duration)]
    {
      trace := trace + [InterpStarted(to, from, duration)];
    }

    /** await sleep(ms): one suspension of the running coroutine. */
    method Sleep(ms: int)
      modifies this`trace
      ensures trace == old(trace) + [Slept(ms)]
    {
      trace := trace + [Slept(ms)];
    }

    /** native.setCamCoord: moves the camera and keeps its rotation. */
    method SetCamCoord(h: int, p: Vec3)
      modifies this`trace, this`poses
      ensures poses == old(poses)[h := Pose(p, PoseOf(old(poses), h).rotation)]
      ensures trace == old(trace) + [CamCoordSet(h, p)]
    {
      poses := poses[h := Pose(p, PoseOf(poses, h).rotation)];
      trace := trace + [CamCoordSet(h, p)];
    }

    /** native.setCamRot: turns the camera and keeps its position. */
    method SetCamRot(h: int, r: Vec3)
      modifies this`trace, this`poses
      ensures poses == old(poses)[h := Pose(PoseOf(old(poses), h).position, r)]
      ensures trace == old(trace) + [CamRotSet(h, r)]
    {
      poses := poses[h := Pose(PoseOf(poses, h).position, r)];
      trace := trace + [CamRotSet(h, r)];
    }

    /** alt.setCursorPos */
    method SetCursorPos(p: Vec2)
      modifies this`trace, this`cursor
      ensures cursor == p && trace == old(trace) + [CursorPosSet(p)]
    {
      cursor := p;
      trace := trace + [CursorPosSet(p)];
    }

    /** alt.showCursor */
    method ShowCursor(show: bool)
      modifies this`trace, this`cursorVisible
      ensures cursorVisible == show && trace == old(trace) + [CursorShown(show)]
    {
      cursorVisible := show;
      trace := trace + [CursorShown(show)];
    }

    /** alt.toggleGameControls */
    method ToggleGameControls(enabled: bool)
      modifies this`trace
      ensures trace == old(trace) + [GameControlsToggled(enabled)]
    {
      trace := trace + [GameControlsToggled(enabled)];
    }

    /** native.displayHud */
    method DisplayHud(show: bool)
      modifies this`trace
      ensures trace == old(trace) + [HudDisplayed(show)]
    {
      trace := trace + [HudDisplayed(show)];
    }

    /** native.displayRadar */
    method DisplayRadar(show: bool)
      modifies this`trace
      ensures trace == old(trace) + [RadarDisplayed(show)]
    {
      trace := trace + [RadarDisplayed(show)];
    }
  }
}
