/** The CameraDirector class: the director's own fields, updated in place,
    and a host it calls for every engine effect. Each method is proved to
    move the combined state exactly as the matching function of DirectorSpec
    says. */
module Director {
  import opened Engine
  import opened DirectorSpec

  /** The steps of Run, one after the other. */
  lemma RunUnfold(base: seq<Effect>, hs: seq<int>, pts: seq<Pose>, t0: seq<Effect>, t1: seq<Effect>)
    requires 1 <= |hs| == |pts|
    requires t0 == base + [CamCreated(hs[0], pts[0], Fov)] + [CamActiveSet(hs[0], true)] + [ScriptCamsRendered(true)]
    requires t1 == if |pts| == 1 then t0 + [Slept(SegmentMs)] else Segments(t0, hs, pts, |pts| - 1)
    ensures Run(base, hs, pts) == t1 + [CamActiveSet(hs[|pts| - 1], false)] + [CamDestroyed(hs[|pts| - 1])]
  {
  }

  /** A state with the playback's trace, creation count and poses, and
      otherwise as before, is the state after PlaySequence. */
  lemma PlayAssemble(s: Sys, answer: nat -> int, s': Sys)
    requires !s.playing && |s.points| >= 1
    requires var hs := Handles(answer, s.created, |s.points|);
             s'.trace == Handback(Run(s.trace + [Emitted(PlayingSequence(true))], hs, s.points), s.camera)
                         + [Emitted(PlayingSequence(false))]
             && s'.created == s.created + |s.points|
             && s'.poses == Placed(s.poses, hs, s.points, |s.points|)
             && s'.(trace := s.trace, created := s.created, poses := s.poses) == s
    ensures s' == PlaySequence(s, answer)
  {
  }

  class CameraDirector {
    const host: Host
    var isDirectorMode: bool
    var cameraPoints: seq<Pose>
    var camera: Option<int>
    var isPlayingSequence: bool
    var cursorWasVisible: bool

    /** The waypoint list never exceeds its capacity. */
    ghost predicate Valid()
      reads this
    {
      |cameraPoints| <= MaxPoints
    }

    function State(): Sys
      reads this, host
    {
      Sys(isDirectorMode, cameraPoints, camera, isPlayingSequence, cursorWasVisible,
          host.trace, host.created, host.cursorVisible, host.poses, host.cursor,
          host.playerPos, host.keysDown, host.screen)
    }

    constructor (host: Host)
      ensures Valid() && this.host == host
      ensures !isDirectorMode && cameraPoints == [] && camera == None
      ensures !isPlayingSequence && !cursorWasVisible
    {
      this.host := host;
      isDirectorMode := false;
      cameraPoints := [];
      camera := None;
      isPlayingSequence := false;
      cursorWasVisible := false;
    }

    method HandleKeyUp(key: int)
      requires Valid()
      modifies this, host
      ensures Valid() && State() == DirectorSpec.HandleKeyUp(old(State()), key, host.answer)
    {
      match Binding(key)
      case None =>
      case Some(Toggle) => ToggleDirectorMode();
      case Some(Save) => if isDirectorMode { SaveCurrentPoint(); }
      case Some(Play) => if isDirectorMode { PlaySequence(); }
      case Some(Clear) => if isDirectorMode { ClearPoints(); }
    }

    method ToggleDirectorMode()
      requires Valid()
      modifies this, host
      ensures Valid() && State() == DirectorSpec.ToggleDirectorMode(old(State()), host.answer)
    {
      isDirectorMode := !isDirectorMode;
      host.Emit(StateChanged(isDirectorMode));
      if isDirectorMode {
        StartDirectorMode();
        if !Truthy(camera) {
          isDirectorMode := false;
          host.Emit(StateChanged(isDirectorMode));
        }
      } else {
        StopDirectorMode();
      }
    }

    method StartDirectorMode()
      requires Valid()
      modifies this, host
      ensures Valid() && State() == DirectorSpec.StartDirectorMode(old(State()), host.answer)
    {
      cursorWasVisible := host.cursorVisible;
      var h := host.CreateCamWithParams(Pose(host.playerPos, Origin));
      camera := Some(h);
      if !Truthy(camera) {
        isDirectorMode := false;
        host.Emit(StateChanged(isDirectorMode));
        return;
      }
      host.SetCamActive(h, true);
      host.RenderScriptCams(true);
      host.ToggleGameControls(false);
      host.ShowCursor(false);
      host.DisplayHud(false);
      host.DisplayRadar(false);
    }

    /** One frame of free flight. `basis` stands for the sin/cos computation of
        the forward and right vectors from the camera's rotation. */
    method HandleCameraMovement(basis: Vec3 -> Basis)
      requires Valid()
      modifies this, host
      ensures Valid() && State() == DirectorSpec.HandleCameraMovement(old(State()), basis)
    {
      if !isDirectorMode || !Truthy(camera) {
        return;
      }
      var h := camera.value;
      var camRot := PoseOf(host.poses, h).rotation;
      Translate(h, basis(camRot));
      Turn(h, camRot);
    }

    /** The movement half of a frame: the six bindings move the camera along
        the basis, and its position is written only when a key was held. */
    method Translate(h: int, b: Basis)
      modifies host`trace, host`poses
      ensures var pose := PoseOf(old(host.poses), h);
              var acc := Displace(pose.position, b, host.keysDown);
              host.poses == (if acc.moved then old(host.poses)[h := Pose(acc.pos, pose.rotation)] else old(host.poses))
              && host.trace == (if acc.moved then old(host.trace) + [CamCoordSet(h, acc.pos)] else old(host.trace))
    {
      var acc := Accum(PoseOf(host.poses, h).position, false);
      acc := Move(acc, KeyW in host.keysDown, b.forward, 1.0);
      acc := Move(acc, KeyS in host.keysDown, b.forward, -1.0);
      acc := Move(acc, KeyA in host.keysDown, b.right, -1.0);
      acc := Move(acc, KeyD in host.keysDown, b.right, 1.0);
      acc := Move(acc, KeyQ in host.keysDown, Up, -1.0);
      acc := Move(acc, KeyE in host.keysDown, Up, 1.0);
      if acc.moved {
        host.SetCamCoord(h, acc.pos);
      }
    }

    /** The mouse-look half of a frame, from the rotation the frame started
        with: an off-centre cursor turns the camera and is put back at the
        centre. */
    method Turn(h: int, camRot: Vec3)
      modifies host`trace, host`poses, host`cursor
      ensures var c := Center(host.screen);
              var dx := old(host.cursor).x - c.x;
              var dy := old(host.cursor).y - c.y;
              var r := Look(camRot, dx, dy);
              if dx != 0.0 || dy != 0.0 then
                host.poses == old(host.poses)[h := Pose(PoseOf(old(host.poses), h).position, r)]
                && host.cursor == c && host.trace == old(host.trace) + [CamRotSet(h, r)] + [CursorPosSet(c)]
              else
                host.poses == old(host.poses) && host.cursor == old(host.cursor) && host.trace == old(host.trace)
    {
      var c := Center(host.screen);
      var deltaX := host.cursor.x - c.x;
      var deltaY := host.cursor.y - c.y;
      if deltaX != 0.0 || deltaY != 0.0 {
        host.SetCamRot(h, Look(camRot, deltaX, deltaY));
        host.SetCursorPos(c);
      }
    }

    method StopDirectorMode()
      requires Valid()
      modifies this, host
      ensures Valid() && State() == DirectorSpec.StopDirectorMode(old(State()))
    {
      if camera.Some? {
        host.SetCamActive(camera.value, false);
        host.DestroyCam(camera.value);
        host.RenderScriptCams(false);
        camera := None;
      }
      if cursorWasVisible && !host.cursorVisible {
        host.ShowCursor(true);
      }
      host.DisplayHud(true);
      host.DisplayRadar(true);
      host.ToggleGameControls(true);
    }

    method SaveCurrentPoint()
      requires Valid()
      modifies this, host
      ensures Valid() && State() == DirectorSpec.SaveCurrentPoint(old(State()))
    {
      if isPlayingSequence {
        return;
      }
      if |cameraPoints| >= MaxPoints {
        return;
      }
      if camera == None {
        return;
      }
      var p := PoseOf(host.poses, camera.value);
      cameraPoints := cameraPoints + [p];
      host.Emit(PointSaved(|cameraPoints|));
    }

    /** Also the target of the overlay's inbound "clear points" request. */
    method ClearPoints()
      requires Valid()
      modifies this, host
      ensures Valid() && State() == DirectorSpec.ClearPoints(old(State()))
    {
      if isPlayingSequence {
        return;
      }
      cameraPoints := [];
      host.Emit(PointSaved(0));
    }

    method PlaySequence()
      requires Valid()
      modifies this, host
      ensures Valid() && State() == DirectorSpec.PlaySequence(old(State()), host.answer)
    {
      if isPlayingSequence {
        return;
      }
      if |cameraPoints| < 1 {
        return;
      }
      ghost var s0 := State();
      isPlayingSequence := true;
      host.Emit(PlayingSequence(true));
      RunWaypoints();
      if camera.Some? {
        host.SetCamActive(camera.value, true);
        host.RenderScriptCams(true);
      }
      isPlayingSequence := false;
      host.Emit(PlayingSequence(false));
      PlayAssemble(s0, host.answer, State());
    }

    /** The camera work of playSequence: show the first waypoint through a
        new camera, walk the rest, and drop the last playback camera. */
    method RunWaypoints()
      requires |cameraPoints| >= 1
      modifies host`trace, host`created, host`poses
      ensures host.trace == Run(old(host.trace), Handles(host.answer, old(host.created), |cameraPoints|), cameraPoints)
      ensures host.created == old(host.created) + |cameraPoints|
      ensures host.poses == Placed(old(host.poses), Handles(host.answer, old(host.created), |cameraPoints|), cameraPoints, |cameraPoints|)
    {
      ghost var pts := cameraPoints;
      ghost var hs := Handles(host.answer, host.created, |pts|);
      ghost var base := host.trace;
      ghost var poses0 := host.poses;
      var seqCamera := host.CreateCamWithParams(cameraPoints[0]);
      host.SetCamActive(seqCamera, true);
      host.RenderScriptCams(true);
      ghost var t0 := host.trace;
      assert seqCamera == hs[0];
      assert host.poses == Placed(poses0, hs, pts, 1);
      seqCamera := ShowWaypoints(seqCamera, hs, pts, poses0);
      RunUnfold(base, hs, pts, t0, host.trace);
      host.SetCamActive(seqCamera, false);
      host.DestroyCam(seqCamera);
    }

    /** The body of playSequence: dwell on a single waypoint, or walk the
        waypoints pairwise, each step interpolating from the current playback
        camera into a new one at the next waypoint. Returns the camera left
        showing the last waypoint. */
    method ShowWaypoints(first: int, ghost hs: seq<int>, ghost pts: seq<Pose>, ghost poses0: map<int, Pose>) returns (seqCamera: int)
      requires pts == cameraPoints && 1 <= |hs| == |pts| && first == hs[0]
      requires forall k :: 1 <= k < |hs| ==> hs[k] == host.answer(host.created + k - 1)
      requires host.poses == Placed(poses0, hs, pts, 1)
      modifies host`trace, host`created, host`poses
      ensures seqCamera == hs[|pts| - 1]
      ensures host.created == old(host.created) + |pts| - 1
      ensures host.poses == Placed(poses0, hs, pts, |pts|)
      ensures host.trace == if |pts| == 1 then old(host.trace) + [Slept(SegmentMs)]
                            else Segments(old(host.trace), hs, pts, |pts| - 1)
    {
      seqCamera := first;
      if |cameraPoints| == 1 {
        host.Sleep(SegmentMs);
      } else {
        var i := 0;
        while i < |cameraPoints| - 1
          invariant 0 <= i <= |cameraPoints| - 1
          invariant seqCamera == hs[i]
          invariant host.created == old(host.created) + i
          invariant host.poses == Placed(poses0, hs, pts, i + 1)
          invariant host.trace == Segments(old(host.trace), hs, pts, i)
        {
          var next := cameraPoints[i + 1];
          var nextCam := host.CreateCamWithParams(next);
          host.SetCamActiveWithInterp(nextCam, seqCamera, SegmentMs);
          host.Sleep(SegmentMs);
          host.DestroyCam(seqCamera);
          seqCamera := nextCam;
          i := i + 1;
        }
      }
    }
  }
}
