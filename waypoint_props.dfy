/** The waypoint store: saving, clearing, the capacity of ten, and the counts
    the director reports. */
module WaypointProperties {
  import opened Engine
  import opened DirectorSpec
  import opened Traces
  import PlaybackProperties
  import ModeProperties

  /** A save succeeds exactly when no playback is running, the list has room
      and the camera field is not null. Then the camera's current pose is
      appended at the end and pointSaved reports the new length; otherwise
      nothing changes and nothing is emitted. */
  lemma SaveEffect(s: Sys)
    ensures var ok := !s.playing && |s.points| < MaxPoints && s.camera.Some?;
            var s' := SaveCurrentPoint(s);
            (ok ==> s' == s.(points := s.points + [PoseOf(s.poses, s.camera.value)],
                             trace := s.trace + [Emitted(PointSaved(|s.points| + 1))]))
            && (!ok ==> s' == s)
  {
  }

  /** A clear during a playback changes nothing; otherwise the list is empty
      afterwards, pointSaved reports 0, and nothing else changes. */
  lemma ClearEffect(s: Sys)
    ensures s.playing ==> ClearPoints(s) == s
    ensures !s.playing ==> ClearPoints(s) == s.(points := [], trace := s.trace + [Emitted(PointSaved(0))])
  {
  }

  /** n presses of the save key in a row. */
  function SaveTimes(s: Sys, n: nat): Sys {
    if n == 0 then s else SaveCurrentPoint(SaveTimes(s, n - 1))
  }

  /** Saving n times from a frozen camera keeps the saved waypoints in front,
      appends copies of the camera's pose, and stops growing at the
      capacity: the list ends with min(|points| + n, 10) entries. */
  lemma {:induction false} SaveTimesFills(s: Sys, n: nat)
    requires !s.playing && s.camera.Some? && |s.points| <= MaxPoints
    ensures var s' := SaveTimes(s, n);
            var p := PoseOf(s.poses, s.camera.value);
            |s'.points| == (if |s.points| + n <= MaxPoints then |s.points| + n else MaxPoints)
            && s'.points[..|s.points|] == s.points
            && (forall i :: |s.points| <= i < |s'.points| ==> s'.points[i] == p)
            && s'.(points := s.points, trace := s.trace) == s
  {
    if n > 0 {
      SaveTimesFills(s, n - 1);
      var s1 := SaveTimes(s, n - 1);
      if |s1.points| < MaxPoints {
        assert SaveTimes(s, n).points == s1.points + [PoseOf(s.poses, s.camera.value)];
        assert SaveTimes(s, n).points[..|s.points|] == s1.points[..|s.points|];
      }
    }
  }

  /** Every pointSaved count in a trace lies between 0 and the capacity. */
  predicate CountWithin(e: Effect) {
    e.Emitted? && e.event.PointSaved? ==> 0 <= e.event.count <= MaxPoints
  }

  predicate CountsWithin(t: seq<Effect>) {
    forall i :: 0 <= i < |t| ==> CountWithin(t[i])
  }

  /** The director's store invariant, together with what it has reported. */
  predicate Bounded(s: Sys) {
    |s.points| <= MaxPoints && CountsWithin(s.trace)
  }

  lemma CountsAppend(t: seq<Effect>, u: seq<Effect>)
    requires CountsWithin(t) && CountsWithin(u)
    ensures CountsWithin(t + u)
  {
    assert forall i :: |t| <= i < |t + u| ==> (t + u)[i] == u[i - |t|];
  }

  /** A playback reports no count. */
  lemma PlaybackCounts(camera: Option<int>, hs: seq<int>, pts: seq<Pose>)
    requires 1 <= |hs| == |pts|
    ensures CountsWithin(PlaybackProperties.Playback(camera, hs, pts))
  {
    var p := PlaybackProperties.Playback(camera, hs, pts);
    PlaybackProperties.PlaybackEvents(camera, hs, pts);
    forall i | 0 <= i < |p|
      ensures CountWithin(p[i])
    {
      if p[i].Emitted? {
        KeepComplete(p, IsEmit, p[i]);
      }
    }
  }

  lemma CountsSnoc(t: seq<Effect>, e: Effect)
    requires CountsWithin(t) && CountWithin(e)
    ensures CountsWithin(t + [e])
  {
    assert (t + [e])[|t|] == e;
  }

  lemma EnterFailsCounts(s: Sys, answer: nat -> int)
    requires CountsWithin(s.trace) && !s.mode && answer(s.created) == 0
    ensures CountsWithin(ToggleDirectorMode(s, answer).trace)
  {
    ModeProperties.EnterFails(s, answer);
    var t1 := s.trace + [Emitted(StateChanged(true))];
    var t2 := t1 + [CamCreated(0, Pose(s.playerPos, Origin), Fov)];
    var t3 := t2 + [Emitted(StateChanged(false))];
    CountsSnoc(s.trace, Emitted(StateChanged(true)));
    CountsSnoc(t1, CamCreated(0, Pose(s.playerPos, Origin), Fov));
    CountsSnoc(t2, Emitted(StateChanged(false)));
    CountsSnoc(t3, Emitted(StateChanged(false)));
  }

  lemma EnterSucceedsCounts(s: Sys, answer: nat -> int)
    requires CountsWithin(s.trace) && !s.mode && answer(s.created) != 0
    ensures CountsWithin(ToggleDirectorMode(s, answer).trace)
  {
    var h := answer(s.created);
    ModeProperties.EnterSucceeds(s, answer, multiset{});
    var t1 := s.trace + [Emitted(StateChanged(true))];
    var t2 := t1 + [CamCreated(h, Pose(s.playerPos, Origin), Fov)];
    var t3 := t2 + [CamActiveSet(h, true)];
    var t4 := t3 + [ScriptCamsRendered(true)];
    var t5 := t4 + [GameControlsToggled(false)];
    var t6 := t5 + [CursorShown(false)];
    var t7 := t6 + [HudDisplayed(false)];
    CountsSnoc(s.trace, Emitted(StateChanged(true)));
    CountsSnoc(t1, CamCreated(h, Pose(s.playerPos, Origin), Fov));
    CountsSnoc(t2, CamActiveSet(h, true));
    CountsSnoc(t3, ScriptCamsRendered(true));
    CountsSnoc(t4, GameControlsToggled(false));
    CountsSnoc(t5, CursorShown(false));
    CountsSnoc(t6, HudDisplayed(false));
    CountsSnoc(t7, RadarDisplayed(false));
  }

  lemma LeaveCounts(s: Sys, answer: nat -> int)
    requires CountsWithin(s.trace) && s.mode
    ensures CountsWithin(ToggleDirectorMode(s, answer).trace)
  {
    ModeProperties.LeaveReleases(s, answer);
    var t1 := s.trace + [Emitted(StateChanged(false))];
    CountsSnoc(s.trace, Emitted(StateChanged(false)));
    var t2 := t1 + Release([], s.camera);
    if s.camera.Some? {
      var c := s.camera.value;
      CountsSnoc(t1, CamActiveSet(c, false));
      CountsSnoc(t1 + [CamActiveSet(c, false)], CamDestroyed(c));
      CountsSnoc(t1 + [CamActiveSet(c, false)] + [CamDestroyed(c)], ScriptCamsRendered(false));
      assert t2 == t1 + [CamActiveSet(c, false)] + [CamDestroyed(c)] + [ScriptCamsRendered(false)];
    } else {
      assert t2 == t1;
    }
    var t3 := t2 + (if s.cursorWasVisible && !s.cursorVisible then [CursorShown(true)] else []);
    if s.cursorWasVisible && !s.cursorVisible {
      CountsSnoc(t2, CursorShown(true));
    } else {
      assert t3 == t2;
    }
    CountsSnoc(t3, HudDisplayed(true));
    CountsSnoc(t3 + [HudDisplayed(true)], RadarDisplayed(true));
    CountsSnoc(t3 + [HudDisplayed(true)] + [RadarDisplayed(true)], GameControlsToggled(true));
  }

  lemma ToggleCounts(s: Sys, answer: nat -> int)
    requires CountsWithin(s.trace)
    ensures CountsWithin(ToggleDirectorMode(s, answer).trace)
  {
    if s.mode {
      LeaveCounts(s, answer);
    } else if answer(s.created) == 0 {
      EnterFailsCounts(s, answer);
    } else {
      EnterSucceedsCounts(s, answer);
    }
  }

  lemma PlayCounts(s: Sys, answer: nat -> int)
    requires CountsWithin(s.trace)
    ensures CountsWithin(PlaySequence(s, answer).trace)
  {
    if !s.playing && |s.points| >= 1 {
      var hs := Handles(answer, s.created, |s.points|);
      PlaybackProperties.PlayAppendsPlayback(s, answer);
      PlaybackCounts(s.camera, hs, s.points);
      CountsAppend(s.trace, PlaybackProperties.Playback(s.camera, hs, s.points));
    }
  }

  /** No key press takes the list past its capacity or reports a count
      above it. */
  lemma KeyUpKeepsBounded(s: Sys, key: int, answer: nat -> int)
    requires Bounded(s)
    ensures Bounded(HandleKeyUp(s, key, answer))
  {
    ModeProperties.KeyRouting(s, key, answer);
    if key == KeyF5 {
      ToggleCounts(s, answer);
    } else if key == KeyO && s.mode {
      PlayCounts(s, answer);
    } else if key == KeyH && s.mode {
      SaveEffect(s);
      if !s.playing && |s.points| < MaxPoints && s.camera.Some? {
        CountsSnoc(s.trace, Emitted(PointSaved(|s.points| + 1)));
      }
    } else if key == KeyC && s.mode {
      ClearEffect(s);
      if !s.playing {
        CountsSnoc(s.trace, Emitted(PointSaved(0)));
      }
    }
  }
}
