/** Entering and leaving director mode, and the key router in front of it. */
module ModeProperties {
  import opened Engine
  import opened DirectorSpec
  import opened Traces

  /** A toggle ends in director mode exactly when it started outside it and
      the engine returned a truthy handle; entering always stores the
      handle, even a falsy one, and leaving always nulls the field. */
  lemma ToggleOutcome(s: Sys, answer: nat -> int)
    ensures ToggleDirectorMode(s, answer).mode == (!s.mode && answer(s.created) != 0)
    ensures ToggleDirectorMode(s, answer).camera == if s.mode then None else Some(answer(s.created))
  {
  }

  /** Entering when the engine returns the falsy handle 0: the mode ends
      false, the field holds 0 (not null), stateChanged goes true, false,
      false, and no render, controls, cursor, HUD or radar call is made. */
  lemma EnterFails(s: Sys, answer: nat -> int)
    requires !s.mode && answer(s.created) == 0
    ensures var s' := ToggleDirectorMode(s, answer);
            !s'.mode && s'.camera == Some(0) && s'.cursorWasVisible == s.cursorVisible
            && s'.cursorVisible == s.cursorVisible && s'.created == s.created + 1
            && s'.trace == s.trace + [Emitted(StateChanged(true))] + [CamCreated(0, Pose(s.playerPos, Origin), Fov)]
                           + [Emitted(StateChanged(false))] + [Emitted(StateChanged(false))]
            && Keep(s'.trace, IsEmit) == Keep(s.trace, IsEmit)
                 + [Emitted(StateChanged(true)), Emitted(StateChanged(false)), Emitted(StateChanged(false))]
  {
    var t := s.trace;
    var e1 := Emitted(StateChanged(true));
    var c := CamCreated(0, Pose(s.playerPos, Origin), Fov);
    var e0 := Emitted(StateChanged(false));
    KeepSnoc(t, e1, IsEmit);
    KeepSnoc(t + [e1], c, IsEmit);
    KeepSnoc(t + [e1] + [c], e0, IsEmit);
    KeepSnoc(t + [e1] + [c] + [e0], e0, IsEmit);
  }

  /** Entering with a truthy handle: the camera is made at the player's
      position with zero rotation, activated and rendered; controls, cursor,
      HUD and radar are switched off; the cursor's visibility before entry
      is remembered; one more camera is live. */
  lemma EnterSucceeds(s: Sys, answer: nat -> int, live: multiset<int>)
    requires !s.mode && answer(s.created) != 0
    ensures var s' := ToggleDirectorMode(s, answer);
            var h := answer(s.created);
            s'.mode && s'.camera == Some(h) && s'.cursorWasVisible == s.cursorVisible && !s'.cursorVisible
            && s'.poses == s.poses[h := Pose(s.playerPos, Origin)]
            && s'.trace == s.trace + [Emitted(StateChanged(true))] + [CamCreated(h, Pose(s.playerPos, Origin), Fov)]
                           + [CamActiveSet(h, true)] + [ScriptCamsRendered(true)] + [GameControlsToggled(false)]
                           + [CursorShown(false)] + [HudDisplayed(false)] + [RadarDisplayed(false)]
            && LiveAfter(live, s'.trace) == LiveAfter(live, s.trace) + multiset{h}
  {
    var h := answer(s.created);
    var t := s.trace;
    var e1 := Emitted(StateChanged(true));
    var c := CamCreated(h, Pose(s.playerPos, Origin), Fov);
    var rest := [CamActiveSet(h, true)] + [ScriptCamsRendered(true)] + [GameControlsToggled(false)]
                + [CursorShown(false)] + [HudDisplayed(false)] + [RadarDisplayed(false)];
    EntryState(s, answer, t + [e1] + [c] + rest);
    EntryLive(live, t, e1, c, rest);
  }

  /** The state a successful entry leaves, with its trace named u. */
  lemma EntryState(s: Sys, answer: nat -> int, u: seq<Effect>)
    requires !s.mode && answer(s.created) != 0
    requires var h := answer(s.created);
             u == s.trace + [Emitted(StateChanged(true))] + [CamCreated(h, Pose(s.playerPos, Origin), Fov)]
                  + ([CamActiveSet(h, true)] + [ScriptCamsRendered(true)] + [GameControlsToggled(false)]
                     + [CursorShown(false)] + [HudDisplayed(false)] + [RadarDisplayed(false)])
    ensures var s' := ToggleDirectorMode(s, answer);
            var h := answer(s.created);
            s'.mode && s'.camera == Some(h) && s'.cursorWasVisible == s.cursorVisible && !s'.cursorVisible
            && s'.poses == s.poses[h := Pose(s.playerPos, Origin)] && s'.trace == u
  {
  }

  /** An emit, one creation and a tail without creations or destructions
      add exactly the created handle to the live cameras. */
  lemma EntryLive(live: multiset<int>, t: seq<Effect>, e1: Effect, c: Effect, rest: seq<Effect>)
    requires !e1.CamCreated? && !e1.CamDestroyed? && c.CamCreated?
    requires rest == [CamActiveSet(c.handle, true)] + [ScriptCamsRendered(true)] + [GameControlsToggled(false)]
                     + [CursorShown(false)] + [HudDisplayed(false)] + [RadarDisplayed(false)]
    ensures LiveAfter(live, t + [e1] + [c] + rest) == LiveAfter(live, t) + multiset{c.handle}
  {
    var t1 := t + [e1];
    var t2 := t1 + [c];
    assert LiveAfter(live, t1) == LiveAfter(live, t) by {
      LivePassive(live, t, e1, 0);
    }
    assert LiveAfter(live, t2) == LiveAfter(live, t1) + multiset{c.handle} by {
      LiveSnoc(live, t1, c, 0);
    }
    assert LiveAfter(live, t2 + rest) == LiveAfter(live, t2) by {
      EntryTailPassive(c.handle);
      LiveAppendPassive(live, t2, rest);
    }
  }

  lemma EntryTailPassive(h: int)
    ensures var u := [CamActiveSet(h, true)] + [ScriptCamsRendered(true)] + [GameControlsToggled(false)]
                     + [CursorShown(false)] + [HudDisplayed(false)] + [RadarDisplayed(false)];
            forall i :: 0 <= i < |u| ==> !u[i].CamCreated? && !u[i].CamDestroyed?
  {
  }

  /** Leaving director mode: a non-null primary camera is deactivated,
      destroyed and rendering handed back, and the field becomes null; the
      cursor is shown again exactly when it was visible before entry and is
      hidden now; HUD, radar and controls are always restored, last. */
  lemma LeaveReleases(s: Sys, answer: nat -> int)
    requires s.mode
    ensures var s' := ToggleDirectorMode(s, answer);
            var reshow := s.cursorWasVisible && !s.cursorVisible;
            !s'.mode && s'.camera == None && s'.cursorVisible == (s.cursorVisible || s.cursorWasVisible)
            && s'.trace == s.trace + [Emitted(StateChanged(false))] + Release([], s.camera)
                           + (if reshow then [CursorShown(true)] else [])
                           + [HudDisplayed(true)] + [RadarDisplayed(true)] + [GameControlsToggled(true)]
            && s'.(trace := s.trace, mode := s.mode, camera := s.camera, cursorVisible := s.cursorVisible) == s
  {
    var t := s.trace + [Emitted(StateChanged(false))];
    assert Release(t, s.camera) == t + Release([], s.camera);
  }

  /** The live cameras after leaving: the primary camera, when the field
      was not null, is gone. */
  lemma LeaveLive(s: Sys, answer: nat -> int, live: multiset<int>)
    requires s.mode
    ensures LiveAfter(live, ToggleDirectorMode(s, answer).trace) ==
            LiveAfter(live, s.trace) - (if s.camera.Some? then multiset{s.camera.value} else multiset{})
  {
    var reshow := s.cursorWasVisible && !s.cursorVisible;
    var e := Emitted(StateChanged(false));
    var tail := (if reshow then [CursorShown(true)] else []) + [HudDisplayed(true)] + [RadarDisplayed(true)] + [GameControlsToggled(true)];
    assert ToggleDirectorMode(s, answer).trace == s.trace + [e] + Release([], s.camera) + tail by {
      LeaveReleases(s, answer);
    }
    ExitLive(live, s.trace, e, s.camera, reshow, tail);
  }

  /** An emit, the release and a tail without creations or destructions
      remove exactly the released handle from the live cameras. */
  lemma ExitLive(live: multiset<int>, t: seq<Effect>, e: Effect, camera: Option<int>, reshow: bool, tail: seq<Effect>)
    requires !e.CamCreated? && !e.CamDestroyed?
    requires tail == (if reshow then [CursorShown(true)] else []) + [HudDisplayed(true)] + [RadarDisplayed(true)] + [GameControlsToggled(true)]
    ensures LiveAfter(live, t + [e] + Release([], camera) + tail) ==
            LiveAfter(live, t) - (if camera.Some? then multiset{camera.value} else multiset{})
  {
    var t1 := t + [e];
    LivePassive(live, t, e, 0);
    ReleaseLive(live, t1, camera);
    ExitTailPassive(reshow);
    LiveAppendPassive(live, t1 + Release([], camera), tail);
  }

  lemma ExitTailPassive(reshow: bool)
    ensures var u := (if reshow then [CursorShown(true)] else []) + [HudDisplayed(true)] + [RadarDisplayed(true)] + [GameControlsToggled(true)];
            forall i :: 0 <= i < |u| ==> !u[i].CamCreated? && !u[i].CamDestroyed?
  {
  }

  /** Releasing the primary camera removes it from the live ones. */
  lemma ReleaseLive(live: multiset<int>, t: seq<Effect>, camera: Option<int>)
    ensures LiveAfter(live, t + Release([], camera)) ==
            LiveAfter(live, t) - (if camera.Some? then multiset{camera.value} else multiset{})
  {
    if camera.Some? {
      var c := camera.value;
      var t1 := t + [CamActiveSet(c, false)];
      var t2 := t1 + [CamDestroyed(c)];
      var t3 := t2 + [ScriptCamsRendered(false)];
      assert t + Release([], camera) == t3;
      assert LiveAfter(live, t1) == LiveAfter(live, t) by {
        LivePassive(live, t, CamActiveSet(c, false), 0);
      }
      assert LiveAfter(live, t2) == LiveAfter(live, t1) - multiset{c} by {
        LiveSnoc(live, t1, CamDestroyed(c), 0);
      }
      assert LiveAfter(live, t3) == LiveAfter(live, t2) by {
        LivePassive(live, t2, ScriptCamsRendered(false), 0);
      }
    } else {
      assert t + Release([], camera) == t;
    }
  }

  /** Toggling twice from an idle director whose camera creation succeeds
      puts it back: mode off, field null, the cursor as visible as before,
      and the same cameras live. The field may hold anything before, null or
      the handle 0 a failed entry left behind. */
  lemma ToggleTwiceRestores(s: Sys, answer: nat -> int, live: multiset<int>)
    requires !s.mode && answer(s.created) != 0
    ensures var s'' := ToggleDirectorMode(ToggleDirectorMode(s, answer), answer);
            !s''.mode && s''.camera == None && s''.cursorVisible == s.cursorVisible
            && s''.points == s.points && s''.playing == s.playing
            && LiveAfter(live, s''.trace) == LiveAfter(live, s.trace)
  {
    var s' := ToggleDirectorMode(s, answer);
    var h := answer(s.created);
    EnterSucceeds(s, answer, live);
    LeaveLive(s', answer, live);
    LeaveReleases(s', answer);
    assert LiveAfter(live, s'.trace) == LiveAfter(live, s.trace) + multiset{h};
    assert LiveAfter(live, s.trace) + multiset{h} - multiset{h} == LiveAfter(live, s.trace);
  }

  /** The key router: F5 always toggles; H, O and C save, play and clear
      only in director mode; every other key changes nothing. */
  lemma KeyRouting(s: Sys, key: int, answer: nat -> int)
    ensures key == KeyF5 ==> HandleKeyUp(s, key, answer) == ToggleDirectorMode(s, answer)
    ensures key == KeyH ==> HandleKeyUp(s, key, answer) == if s.mode then SaveCurrentPoint(s) else s
    ensures key == KeyO ==> HandleKeyUp(s, key, answer) == if s.mode then PlaySequence(s, answer) else s
    ensures key == KeyC ==> HandleKeyUp(s, key, answer) == if s.mode then ClearPoints(s) else s
    ensures key !in {KeyF5, KeyH, KeyO, KeyC} ==> HandleKeyUp(s, key, answer) == s
  {
  }

  /** Director mode owns a live camera: while the mode is on, the field holds
      a truthy handle. A new director is outside the mode, so it holds from
      the start. */
  predicate ModeOwns(s: Sys) {
    !s.mode || Truthy(s.camera)
  }

  /** Every key keeps the ownership. A failed entry stores a falsy handle but
      also leaves the mode off, so a stop or a save, which only run in the
      mode, never see it. */
  lemma KeyUpKeepsOwnership(s: Sys, key: int, answer: nat -> int)
    requires ModeOwns(s)
    ensures ModeOwns(HandleKeyUp(s, key, answer))
  {
  }

  /** A frame keeps the ownership: it touches neither the mode nor the field. */
  lemma TickKeepsOwnership(s: Sys, basis: Vec3 -> Basis)
    requires ModeOwns(s)
    ensures ModeOwns(HandleCameraMovement(s, basis))
  {
  }
}
