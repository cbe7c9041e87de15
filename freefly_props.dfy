/** The per-frame free-flight handler: movement from the held keys, mouse
    look with a clamped pitch, and engine writes only on change. */
module FreeFlyProperties {
  import opened Engine
  import opened DirectorSpec
  import opened Traces
  import WaypointProperties

  predicate IsCoordSet(e: Effect) { e.CamCoordSet? }
  predicate IsRotSet(e: Effect) { e.CamRotSet? }
  predicate IsCursorSet(e: Effect) { e.CursorPosSet? }

  /** 1 for a held key, 0 otherwise. */
  function Held(keys: set<int>, key: int): real {
    if key in keys then 1.0 else 0.0
  }

  /** The displacement the held keys add up to, written as one sum: forward
      minus backward along `forward`, right minus left along `right`, up (E)
      minus down (Q) along the world's z axis. */
  function Offset(b: Basis, keys: set<int>): Vec3 {
    var f := Held(keys, KeyW) - Held(keys, KeyS);
    var r := Held(keys, KeyD) - Held(keys, KeyA);
    var u := Held(keys, KeyE) - Held(keys, KeyQ);
    Vec3(MoveSpeed * (f * b.forward.x + r * b.right.x + u * Up.x),
         MoveSpeed * (f * b.forward.y + r * b.right.y + u * Up.y),
         MoveSpeed * (f * b.forward.z + r * b.right.z + u * Up.z))
  }

  /** One binding of the `move` helper adds its direction, signed, when its
      key is held. */
  lemma MoveStep(acc: Accum, down: bool, dir: Vec3, sign: real)
    ensures var d := if down then 1.0 else 0.0;
            Move(acc, down, dir, sign).pos ==
              Vec3(acc.pos.x + d * sign * dir.x * MoveSpeed,
                   acc.pos.y + d * sign * dir.y * MoveSpeed,
                   acc.pos.z + d * sign * dir.z * MoveSpeed)
    ensures Move(acc, down, dir, sign).moved == (acc.moved || down)
  {
    if down {
      assert (1.0 * sign) * dir.x == sign * dir.x && (1.0 * sign) * dir.y == sign * dir.y
             && (1.0 * sign) * dir.z == sign * dir.z;
    } else {
      assert (0.0 * sign) * dir.x == 0.0 && (0.0 * sign) * dir.y == 0.0 && (0.0 * sign) * dir.z == 0.0;
    }
  }

  /** The six bindings applied in turn land the camera at its position plus
      the summed offset. */
  lemma DisplaceSum(pos: Vec3, b: Basis, keys: set<int>)
    ensures Displace(pos, b, keys).pos ==
            Vec3(pos.x + Offset(b, keys).x, pos.y + Offset(b, keys).y, pos.z + Offset(b, keys).z)
  {
    var a0 := Accum(pos, false);
    var a1 := Move(a0, KeyW in keys, b.forward, 1.0);
    var a2 := Move(a1, KeyS in keys, b.forward, -1.0);
    var a3 := Move(a2, KeyA in keys, b.right, -1.0);
    var a4 := Move(a3, KeyD in keys, b.right, 1.0);
    var a5 := Move(a4, KeyQ in keys, Up, -1.0);
    MoveStep(a0, KeyW in keys, b.forward, 1.0);
    MoveStep(a1, KeyS in keys, b.forward, -1.0);
    MoveStep(a2, KeyA in keys, b.right, -1.0);
    MoveStep(a3, KeyD in keys, b.right, 1.0);
    MoveStep(a4, KeyQ in keys, Up, -1.0);
    MoveStep(a5, KeyE in keys, Up, 1.0);
  }

  /** The frame counts as a move exactly when one of W, S, A, D, Q, E is
      held, even when opposite keys cancel out. */
  lemma DisplaceMoved(pos: Vec3, b: Basis, keys: set<int>)
    ensures Displace(pos, b, keys).moved == (keys * MovementKeys != {})
  {
    var a0 := Accum(pos, false);
    var a1 := Move(a0, KeyW in keys, b.forward, 1.0);
    var a2 := Move(a1, KeyS in keys, b.forward, -1.0);
    var a3 := Move(a2, KeyA in keys, b.right, -1.0);
    var a4 := Move(a3, KeyD in keys, b.right, 1.0);
    var a5 := Move(a4, KeyQ in keys, Up, -1.0);
    MoveStep(a0, KeyW in keys, b.forward, 1.0);
    MoveStep(a1, KeyS in keys, b.forward, -1.0);
    MoveStep(a2, KeyA in keys, b.right, -1.0);
    MoveStep(a3, KeyD in keys, b.right, 1.0);
    MoveStep(a4, KeyQ in keys, Up, -1.0);
    MoveStep(a5, KeyE in keys, Up, 1.0);
    var held := KeyW in keys || KeyS in keys || KeyA in keys || KeyD in keys || KeyQ in keys || KeyE in keys;
    assert Displace(pos, b, keys).moved == held;
    if held {
      var k := if KeyW in keys then KeyW else if KeyS in keys then KeyS else if KeyA in keys then KeyA
               else if KeyD in keys then KeyD else if KeyQ in keys then KeyQ else KeyE;
      assert k in keys * MovementKeys;
    } else {
      forall k | k in keys * MovementKeys
        ensures false
      {
      }
    }
  }

  /** Outside director mode, or with a falsy camera handle, a frame does
      nothing at all. */
  lemma TickIdle(s: Sys, basis: Vec3 -> Basis)
    requires !s.mode || !Truthy(s.camera)
    ensures HandleCameraMovement(s, basis) == s
  {
  }

  /** The poses and cursor after an active frame, step by step: the moved
      position is written first, then the turned rotation and the cursor
      when it is off centre. */
  lemma TickShape(s: Sys, basis: Vec3 -> Basis)
    requires s.mode && Truthy(s.camera)
    ensures var s' := HandleCameraMovement(s, basis);
            var h := s.camera.value;
            var pose := PoseOf(s.poses, h);
            var c := Center(s.screen);
            var acc := Displace(pose.position, basis(pose.rotation), s.keysDown);
            var p1 := if acc.moved then s.poses[h := Pose(acc.pos, pose.rotation)] else s.poses;
            PoseOf(p1, h) == Pose(acc.pos, pose.rotation)
            && s'.poses == (if s.cursor != c
                            then p1[h := Pose(acc.pos, Look(pose.rotation, s.cursor.x - c.x, s.cursor.y - c.y))]
                            else p1)
            && s'.cursor == (if s.cursor != c then c else s.cursor)
            && s'.(poses := s.poses, cursor := s.cursor, trace := s.trace) == s
  {
    var c := Center(s.screen);
    assert (s.cursor != c) == (s.cursor.x - c.x != 0.0 || s.cursor.y - c.y != 0.0);
  }

  /** An active frame moves the camera by the summed offset of the held
      keys. */
  lemma TickPosition(s: Sys, basis: Vec3 -> Basis)
    requires s.mode && Truthy(s.camera)
    ensures var h := s.camera.value;
            var pos := PoseOf(s.poses, h).position;
            var off := Offset(basis(PoseOf(s.poses, h).rotation), s.keysDown);
            PoseOf(HandleCameraMovement(s, basis).poses, h).position == Vec3(pos.x + off.x, pos.y + off.y, pos.z + off.z)
  {
    var h := s.camera.value;
    var pose := PoseOf(s.poses, h);
    TickShape(s, basis);
    DisplaceSum(pose.position, basis(pose.rotation), s.keysDown);
  }

  /** An active frame changes the rotation exactly when the cursor is off
      the screen centre, to the mouse-look rotation, whose pitch stays
      within 89 degrees either way; the cursor is then put back at the
      centre. */
  lemma TickRotation(s: Sys, basis: Vec3 -> Basis)
    requires s.mode && Truthy(s.camera)
    ensures var s' := HandleCameraMovement(s, basis);
            var h := s.camera.value;
            var rot := PoseOf(s.poses, h).rotation;
            var c := Center(s.screen);
            var turn := s.cursor != c;
            PoseOf(s'.poses, h).rotation == (if turn then Look(rot, s.cursor.x - c.x, s.cursor.y - c.y) else rot)
            && (turn ==> -PitchLimit <= PoseOf(s'.poses, h).rotation.x <= PitchLimit)
            && s'.cursor == (if turn then c else s.cursor)
  {
    TickShape(s, basis);
  }

  /** An active frame touches no pose but its camera's and nothing outside
      the poses, the cursor and the trace. */
  lemma TickFrame(s: Sys, basis: Vec3 -> Basis)
    requires s.mode && Truthy(s.camera)
    ensures var s' := HandleCameraMovement(s, basis);
            (forall k :: k in s.poses && k != s.camera.value ==> k in s'.poses && s'.poses[k] == s.poses[k])
            && s'.poses.Keys <= s.poses.Keys + {s.camera.value}
            && s'.(poses := s.poses, cursor := s.cursor, trace := s.trace) == s
  {
    TickShape(s, basis);
  }

  /** The position write of an active frame, if any. */
  function CoordWrite(h: int, acc: Accum): seq<Effect> {
    if acc.moved then [CamCoordSet(h, acc.pos)] else []
  }

  /** The rotation write and cursor re-centring of an active frame, if any. */
  function LookWrites(h: int, r: Vec3, c: Vec2, turn: bool): seq<Effect> {
    if turn then [CamRotSet(h, r)] + [CursorPosSet(c)] else []
  }

  /** Everything a frame writes to the engine, in call order: the trace half
      of DirectorSpec.HandleCameraMovement, split into its two writes so that
      each can be reasoned about alone. TickTrace proves the two agree. */
  function FrameWrites(s: Sys, basis: Vec3 -> Basis): seq<Effect> {
    if !s.mode || !Truthy(s.camera) then []
    else
      var h := s.camera.value;
      var rot := PoseOf(s.poses, h).rotation;
      var c := Center(s.screen);
      CoordWrite(h, Displace(PoseOf(s.poses, h).position, basis(rot), s.keysDown))
      + LookWrites(h, Look(rot, s.cursor.x - c.x, s.cursor.y - c.y), c, s.cursor != c)
  }

  /** A frame only appends to the trace, and what it appends is its writes. */
  lemma TickTrace(s: Sys, basis: Vec3 -> Basis)
    ensures HandleCameraMovement(s, basis).trace == s.trace + FrameWrites(s, basis)
  {
    if s.mode && Truthy(s.camera) {
      var h := s.camera.value;
      var rot := PoseOf(s.poses, h).rotation;
      var acc := Displace(PoseOf(s.poses, h).position, basis(rot), s.keysDown);
      var c := Center(s.screen);
      var r := Look(rot, s.cursor.x - c.x, s.cursor.y - c.y);
      var s1 := if acc.moved then s.(trace := s.trace + [CamCoordSet(h, acc.pos)]) else s;
      assert s1.trace == s.trace + CoordWrite(h, acc);
      assert HandleCameraMovement(s, basis).trace == s1.trace + LookWrites(h, r, c, s.cursor != c);
    }
  }

  /** A frame's writes neither create nor destroy a camera nor emit. */
  lemma FrameQuiet(s: Sys, basis: Vec3 -> Basis)
    ensures var u := FrameWrites(s, basis);
            forall i :: 0 <= i < |u| ==> !u[i].CamCreated? && !u[i].CamDestroyed? && !u[i].Emitted?
  {
    if s.mode && Truthy(s.camera) {
      var h := s.camera.value;
      var rot := PoseOf(s.poses, h).rotation;
      var c := Center(s.screen);
      WritesQuiet(h, Displace(PoseOf(s.poses, h).position, basis(rot), s.keysDown),
                 Look(rot, s.cursor.x - c.x, s.cursor.y - c.y), c, s.cursor != c);
    }
  }

  lemma WritesKept(h: int, acc: Accum, r: Vec3, c: Vec2, turn: bool)
    ensures var u := CoordWrite(h, acc) + LookWrites(h, r, c, turn);
            Keep(u, IsCoordSet) == (if acc.moved then [CamCoordSet(h, acc.pos)] else [])
            && Keep(u, IsRotSet) == (if turn then [CamRotSet(h, r)] else [])
            && Keep(u, IsCursorSet) == (if turn then [CursorPosSet(c)] else [])
  {
    var m := CoordWrite(h, acc);
    var t := LookWrites(h, r, c, turn);
    CoordKept(h, acc);
    LookKept(h, r, c, turn);
    KeepConcat(m, t, IsCoordSet);
    KeepConcat(m, t, IsRotSet);
    KeepConcat(m, t, IsCursorSet);
  }

  lemma CoordKept(h: int, acc: Accum)
    ensures var m := CoordWrite(h, acc);
            Keep(m, IsCoordSet) == (if acc.moved then [CamCoordSet(h, acc.pos)] else [])
            && Keep(m, IsRotSet) == [] && Keep(m, IsCursorSet) == []
  {
    if acc.moved {
      KeepOne(CamCoordSet(h, acc.pos), IsCoordSet);
      KeepOne(CamCoordSet(h, acc.pos), IsRotSet);
      KeepOne(CamCoordSet(h, acc.pos), IsCursorSet);
    }
  }

  lemma LookKept(h: int, r: Vec3, c: Vec2, turn: bool)
    ensures var t := LookWrites(h, r, c, turn);
            Keep(t, IsCoordSet) == [] && Keep(t, IsRotSet) == (if turn then [CamRotSet(h, r)] else [])
            && Keep(t, IsCursorSet) == (if turn then [CursorPosSet(c)] else [])
  {
    if turn {
      var e := CamRotSet(h, r);
      var f := CursorPosSet(c);
      assert LookWrites(h, r, c, turn) == [e] + [f];
      KeepOne(e, IsCoordSet);
      KeepOne(e, IsRotSet);
      KeepOne(e, IsCursorSet);
      KeepSnoc([e], f, IsCoordSet);
      KeepSnoc([e], f, IsRotSet);
      KeepSnoc([e], f, IsCursorSet);
    }
  }

  /** The writes neither create nor destroy a camera nor emit. */
  lemma WritesQuiet(h: int, acc: Accum, r: Vec3, c: Vec2, turn: bool)
    ensures var u := CoordWrite(h, acc) + LookWrites(h, r, c, turn);
            forall i :: 0 <= i < |u| ==> !u[i].CamCreated? && !u[i].CamDestroyed? && !u[i].Emitted?
  {
    var m := CoordWrite(h, acc);
    var t := LookWrites(h, r, c, turn);
    assert forall i :: 0 <= i < |m| ==> m[i].CamCoordSet?;
    assert forall i :: 0 <= i < |t| ==> t[i].CamRotSet? || t[i].CursorPosSet?;
    assert forall i :: |m| <= i < |m + t| ==> (m + t)[i] == t[i - |m|];
  }

  /** The engine writes an active frame appends to the trace: one position
      write, to the moved position, exactly when a movement key is held; one
      rotation write, to the mouse-look rotation, and one cursor re-centring
      exactly when the cursor is off centre. */
  lemma TickWrites(s: Sys, basis: Vec3 -> Basis)
    requires s.mode && Truthy(s.camera)
    ensures var h := s.camera.value;
            var pos := PoseOf(s.poses, h).position;
            var rot := PoseOf(s.poses, h).rotation;
            var c := Center(s.screen);
            var turn := s.cursor != c;
            var moves := s.keysDown * MovementKeys != {};
            var t := HandleCameraMovement(s, basis).trace;
            var u := t[|s.trace|..];
            |s.trace| <= |t|
            && Keep(u, IsCoordSet) == (if moves then [CamCoordSet(h, Displace(pos, basis(rot), s.keysDown).pos)] else [])
            && Keep(u, IsRotSet) == (if turn then [CamRotSet(h, Look(rot, s.cursor.x - c.x, s.cursor.y - c.y))] else [])
            && Keep(u, IsCursorSet) == (if turn then [CursorPosSet(c)] else [])
  {
    var t := HandleCameraMovement(s, basis).trace;
    var w := FrameWrites(s, basis);
    assert |s.trace| <= |t| && t[|s.trace|..] == w by {
      TickTrace(s, basis);
      assert (s.trace + w)[|s.trace|..] == w;
    }
    FrameKept(s, basis);
  }

  lemma FrameKept(s: Sys, basis: Vec3 -> Basis)
    requires s.mode && Truthy(s.camera)
    ensures var h := s.camera.value;
            var pos := PoseOf(s.poses, h).position;
            var rot := PoseOf(s.poses, h).rotation;
            var c := Center(s.screen);
            var turn := s.cursor != c;
            var moves := s.keysDown * MovementKeys != {};
            var u := FrameWrites(s, basis);
            Keep(u, IsCoordSet) == (if moves then [CamCoordSet(h, Displace(pos, basis(rot), s.keysDown).pos)] else [])
            && Keep(u, IsRotSet) == (if turn then [CamRotSet(h, Look(rot, s.cursor.x - c.x, s.cursor.y - c.y))] else [])
            && Keep(u, IsCursorSet) == (if turn then [CursorPosSet(c)] else [])
  {
    var h := s.camera.value;
    var pos := PoseOf(s.poses, h).position;
    var rot := PoseOf(s.poses, h).rotation;
    var c := Center(s.screen);
    var acc := Displace(pos, basis(rot), s.keysDown);
    var r := Look(rot, s.cursor.x - c.x, s.cursor.y - c.y);
    var u := FrameWrites(s, basis);
    assert acc.moved == (s.keysDown * MovementKeys != {}) by {
      DisplaceMoved(pos, basis(rot), s.keysDown);
    }
    assert u == CoordWrite(h, acc) + LookWrites(h, r, c, s.cursor != c);
    WritesKept(h, acc, r, c, s.cursor != c);
  }

  lemma TickPoints(s: Sys, basis: Vec3 -> Basis)
    ensures HandleCameraMovement(s, basis).points == s.points
  {
  }

  /** The effects a frame appends neither create nor destroy a camera nor
      emit an event. */
  lemma TickQuiet(s: Sys, basis: Vec3 -> Basis)
    ensures var t := HandleCameraMovement(s, basis).trace;
            |s.trace| <= |t| && t[..|s.trace|] == s.trace
            && forall i :: |s.trace| <= i < |t| ==> !t[i].CamCreated? && !t[i].CamDestroyed? && !t[i].Emitted?
  {
    TickTrace(s, basis);
    FrameQuiet(s, basis);
    QuietSuffix(s.trace, FrameWrites(s, basis));
  }

  lemma QuietSuffix(t: seq<Effect>, u: seq<Effect>)
    requires forall i :: 0 <= i < |u| ==> !u[i].CamCreated? && !u[i].CamDestroyed? && !u[i].Emitted?
    ensures (t + u)[..|t|] == t
    ensures forall i :: |t| <= i < |t + u| ==> !(t + u)[i].CamCreated? && !(t + u)[i].CamDestroyed? && !(t + u)[i].Emitted?
  {
    assert forall i :: |t| <= i < |t + u| ==> (t + u)[i] == u[i - |t|];
  }

  /** Effects that neither create nor destroy a camera nor emit keep the
      live cameras and the store invariant. */
  lemma QuietAppend(t0: seq<Effect>, t: seq<Effect>, live: multiset<int>)
    requires |t0| <= |t| && t[..|t0|] == t0
    requires forall i :: |t0| <= i < |t| ==> !t[i].CamCreated? && !t[i].CamDestroyed? && !t[i].Emitted?
    ensures WaypointProperties.CountsWithin(t0) ==> WaypointProperties.CountsWithin(t)
    ensures LiveAfter(live, t) == LiveAfter(live, t0)
  {
    var u := t[|t0|..];
    assert t == t0 + u;
    LiveAppendPassive(live, t0, u);
    if WaypointProperties.CountsWithin(t0) {
      WaypointProperties.CountsAppend(t0, u);
    }
  }

  /** A frame reports no count and keeps the waypoint list, so the store
      invariant holds after it. */
  lemma TickKeepsBounded(s: Sys, basis: Vec3 -> Basis)
    requires WaypointProperties.Bounded(s)
    ensures WaypointProperties.Bounded(HandleCameraMovement(s, basis))
  {
    TickPoints(s, basis);
    TickQuiet(s, basis);
    QuietAppend(s.trace, HandleCameraMovement(s, basis).trace, multiset{});
  }

  /** A frame neither creates nor destroys a camera. */
  lemma TickLive(s: Sys, basis: Vec3 -> Basis, live: multiset<int>)
    ensures LiveAfter(live, HandleCameraMovement(s, basis).trace) == LiveAfter(live, s.trace)
  {
    TickQuiet(s, basis);
    QuietAppend(s.trace, HandleCameraMovement(s, basis).trace, live);
  }
}
