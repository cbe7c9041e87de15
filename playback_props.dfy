/** What a playback does, read off the trace: the announcements that bracket
    it, the cameras it creates, the transitions and sleeps it requests, when
    it gives control back, and how many cameras are live along the way. */
module PlaybackProperties {
  import opened Engine
  import opened DirectorSpec
  import opened Traces

  /** The effects of one complete playback over the handles hs and the
      waypoints pts, from the opening to the closing announcement. This is
      DirectorSpec.Run between the two announcements, with the handback,
      regrouped into three pieces that can each be filtered by kind alone;
      RunIsPlayback proves the two are the same trace. */
  function Playback(camera: Option<int>, hs: seq<int>, pts: seq<Pose>): seq<Effect>
    requires 1 <= |hs| == |pts|
  {
    Opening(hs, pts) + Middle(hs, pts) + Closing(camera, hs[|hs| - 1])
  }

  /** What the player does between showing the first waypoint and dropping
      the last playback camera. */
  function Middle(hs: seq<int>, pts: seq<Pose>): seq<Effect>
    requires 1 <= |hs| == |pts|
  {
    if |pts| == 1 then [Slept(SegmentMs)] else Segments([], hs, pts, |pts| - 1)
  }

  lemma {:induction false} SegmentsPrefix(a: seq<Effect>, b: seq<Effect>, hs: seq<int>, pts: seq<Pose>, n: nat)
    requires n < |hs| == |pts|
    ensures Segments(a + b, hs, pts, n) == a + Segments(b, hs, pts, n)
  {
    if n > 0 {
      SegmentsPrefix(a, b, hs, pts, n - 1);
    }
  }

  /** A run splits into its opening, its middle and the drop of the last
      playback camera. */
  lemma RunShape(base: seq<Effect>, hs: seq<int>, pts: seq<Pose>)
    requires 1 <= |hs| == |pts|
    ensures Run(base, hs, pts) ==
      base + [CamCreated(hs[0], pts[0], Fov)] + [CamActiveSet(hs[0], true)] + [ScriptCamsRendered(true)]
      + Middle(hs, pts) + [CamActiveSet(hs[|hs| - 1], false)] + [CamDestroyed(hs[|hs| - 1])]
  {
    var t0 := base + [CamCreated(hs[0], pts[0], Fov)] + [CamActiveSet(hs[0], true)] + [ScriptCamsRendered(true)];
    if |pts| > 1 {
      SegmentsPrefix(t0, [], hs, pts, |pts| - 1);
      assert t0 + [] == t0;
    }
  }

  /** The effects of e that satisfy p: e alone, or nothing. */
  function Only(e: Effect, p: Effect -> bool): seq<Effect> {
    if p(e) then [e] else []
  }

  /** The opening of a playback: the announcement, then the first playback
      camera made, activated and rendered. */
  function Opening(hs: seq<int>, pts: seq<Pose>): seq<Effect>
    requires 1 <= |hs| == |pts|
  {
    [Emitted(PlayingSequence(true))] + [CamCreated(hs[0], pts[0], Fov)] + [CamActiveSet(hs[0], true)]
    + [ScriptCamsRendered(true)]
  }

  /** The close of a playback: the last playback camera deactivated and
      destroyed, the handback, the closing announcement. */
  function Closing(camera: Option<int>, last: int): seq<Effect> {
    [CamActiveSet(last, false)] + [CamDestroyed(last)] + Handback([], camera) + [Emitted(PlayingSequence(false))]
  }

  /** What playSequence appends after the opening announcement, once the
      closing announcement is added, is one playback. */
  lemma RunIsPlayback(camera: Option<int>, hs: seq<int>, pts: seq<Pose>)
    requires 1 <= |hs| == |pts|
    ensures Handback(Run([Emitted(PlayingSequence(true))], hs, pts), camera) + [Emitted(PlayingSequence(false))]
            == Playback(camera, hs, pts)
  {
    var n := |hs|;
    var run := Run([Emitted(PlayingSequence(true))], hs, pts);
    RunShape([Emitted(PlayingSequence(true))], hs, pts);
    var o := Opening(hs, pts);
    var m := Middle(hs, pts);
    var d := [CamActiveSet(hs[n - 1], false)] + [CamDestroyed(hs[n - 1])];
    assert run == o + m + d;
    assert Handback(run, camera) == run + Handback([], camera);
    assert Closing(camera, hs[n - 1]) == d + Handback([], camera) + [Emitted(PlayingSequence(false))];
  }

  /** Keeping the effects of one kind from a playback, piece by piece. */
  lemma PlaybackKeep(camera: Option<int>, hs: seq<int>, pts: seq<Pose>, p: Effect -> bool)
    requires 1 <= |hs| == |pts|
    ensures Keep(Playback(camera, hs, pts), p) ==
            Keep(Opening(hs, pts), p) + Keep(Middle(hs, pts), p) + Keep(Closing(camera, hs[|hs| - 1]), p)
  {
    var o := Opening(hs, pts);
    var m := Middle(hs, pts);
    var c := Closing(camera, hs[|hs| - 1]);
    KeepConcat(o + m, c, p);
    KeepConcat(o, m, p);
  }

  lemma OpeningKeep(hs: seq<int>, pts: seq<Pose>, p: Effect -> bool)
    requires 1 <= |hs| == |pts|
    ensures Keep(Opening(hs, pts), p) ==
            Only(Emitted(PlayingSequence(true)), p) + Only(CamCreated(hs[0], pts[0], Fov), p)
            + Only(CamActiveSet(hs[0], true), p) + Only(ScriptCamsRendered(true), p)
  {
    var e0 := Emitted(PlayingSequence(true));
    var c0 := CamCreated(hs[0], pts[0], Fov);
    var a0 := CamActiveSet(hs[0], true);
    KeepOne(e0, p);
    KeepSnoc([e0], c0, p);
    KeepSnoc([e0] + [c0], a0, p);
    KeepSnoc([e0] + [c0] + [a0], ScriptCamsRendered(true), p);
  }

  lemma HandbackKeep(camera: Option<int>, p: Effect -> bool)
    ensures Keep(Handback([], camera), p) ==
      if camera.Some? then Keep([CamActiveSet(camera.value, true)], p) + Keep([ScriptCamsRendered(true)], p) else []
  {
    if camera.Some? {
      KeepConcat([CamActiveSet(camera.value, true)], [ScriptCamsRendered(true)], p);
    }
  }

  lemma ClosingKeep(camera: Option<int>, last: int, p: Effect -> bool)
    ensures Keep(Closing(camera, last), p) ==
            Only(CamActiveSet(last, false), p) + Only(CamDestroyed(last), p)
            + (if camera.Some? then Only(CamActiveSet(camera.value, true), p) + Only(ScriptCamsRendered(true), p) else [])
            + Only(Emitted(PlayingSequence(false)), p)
  {
    var d0 := CamActiveSet(last, false);
    var d1 := CamDestroyed(last);
    var h := Handback([], camera);
    KeepOne(d0, p);
    KeepSnoc([d0], d1, p);
    KeepConcat([d0] + [d1], h, p);
    KeepSnoc([d0] + [d1] + h, Emitted(PlayingSequence(false)), p);
    HandbackKeep(camera, p);
    if camera.Some? {
      KeepOne(CamActiveSet(camera.value, true), p);
      KeepOne(ScriptCamsRendered(true), p);
    }
  }

  /** A playback announces its start as its first event and its end as its
      last, and emits nothing else. */
  lemma PlaybackEvents(camera: Option<int>, hs: seq<int>, pts: seq<Pose>)
    requires 1 <= |hs| == |pts|
    ensures Keep(Playback(camera, hs, pts), IsEmit) == [Emitted(PlayingSequence(true)), Emitted(PlayingSequence(false))]
  {
    var last := hs[|hs| - 1];
    PlaybackKeep(camera, hs, pts, IsEmit);
    assert Keep(Opening(hs, pts), IsEmit) == [Emitted(PlayingSequence(true))] by {
      OpeningKeep(hs, pts, IsEmit);
    }
    assert Keep(Middle(hs, pts), IsEmit) == [] by {
      MiddleQuiet(hs, pts, IsEmit);
    }
    assert Keep(Closing(camera, last), IsEmit) == [Emitted(PlayingSequence(false))] by {
      ClosingKeep(camera, last, IsEmit);
    }
  }

  /** A playback plainly activates its first camera and then, exactly when
      the camera field is not null, the primary camera. */
  lemma PlaybackActivations(camera: Option<int>, hs: seq<int>, pts: seq<Pose>)
    requires 1 <= |hs| == |pts|
    ensures Keep(Playback(camera, hs, pts), IsActivation) ==
      [CamActiveSet(hs[0], true)] + (if camera.Some? then [CamActiveSet(camera.value, true)] else [])
  {
    var last := hs[|hs| - 1];
    var o := Keep(Opening(hs, pts), IsActivation);
    var m := Keep(Middle(hs, pts), IsActivation);
    var c := Keep(Closing(camera, last), IsActivation);
    assert Keep(Playback(camera, hs, pts), IsActivation) == o + m + c by {
      PlaybackKeep(camera, hs, pts, IsActivation);
    }
    assert o == [CamActiveSet(hs[0], true)] by {
      OpeningKeep(hs, pts, IsActivation);
    }
    assert m == [] by {
      MiddleQuiet(hs, pts, IsActivation);
    }
    assert c == (if camera.Some? then [CamActiveSet(camera.value, true)] else []) by {
      ClosingKeep(camera, last, IsActivation);
    }
    assert o + m == o;
  }

  lemma MiddleCreate(hs: seq<int>, pts: seq<Pose>)
    requires 1 <= |hs| == |pts|
    ensures var k := Keep(Middle(hs, pts), IsCreate);
            |k| == |pts| - 1 && forall i :: 0 <= i < |pts| - 1 ==> k[i] == CamCreated(hs[i + 1], pts[i + 1], Fov)
  {
    if |hs| == 1 {
      KeepOne(Slept(SegmentMs), IsCreate);
    } else {
      SegmentsCreate(hs, pts, |hs| - 1);
    }
  }

  lemma MiddleInterp(hs: seq<int>, pts: seq<Pose>)
    requires 1 <= |hs| == |pts|
    ensures var k := Keep(Middle(hs, pts), IsInterp);
            |k| == |pts| - 1 && forall i :: 0 <= i < |pts| - 1 ==> k[i] == InterpStarted(hs[i + 1], hs[i], SegmentMs)
  {
    if |hs| == 1 {
      KeepOne(Slept(SegmentMs), IsInterp);
    } else {
      SegmentsInterp(hs, pts, |hs| - 1);
    }
  }

  lemma MiddleSleep(hs: seq<int>, pts: seq<Pose>)
    requires 1 <= |hs| == |pts|
    ensures var k := Keep(Middle(hs, pts), IsSleep);
            |k| == (if |pts| == 1 then 1 else |pts| - 1) && forall i :: 0 <= i < |k| ==> k[i] == Slept(SegmentMs)
  {
    if |hs| == 1 {
      KeepOne(Slept(SegmentMs), IsSleep);
    } else {
      SegmentsSleep(hs, pts, |hs| - 1);
    }
  }

  /** A playback creates one camera per waypoint, at that waypoint, in
      order: the i-th creation is the engine's answer hs[i]. */
  lemma PlaybackCreations(camera: Option<int>, hs: seq<int>, pts: seq<Pose>)
    requires 1 <= |hs| == |pts|
    ensures var k := Keep(Playback(camera, hs, pts), IsCreate);
            |k| == |pts| && forall i :: 0 <= i < |pts| ==> k[i] == CamCreated(hs[i], pts[i], Fov)
  {
    var c0 := CamCreated(hs[0], pts[0], Fov);
    var k := Keep(Playback(camera, hs, pts), IsCreate);
    var km := Keep(Middle(hs, pts), IsCreate);
    var last := hs[|hs| - 1];
    PlaybackKeep(camera, hs, pts, IsCreate);
    assert Keep(Opening(hs, pts), IsCreate) == [c0] by {
      OpeningKeep(hs, pts, IsCreate);
    }
    assert Keep(Closing(camera, last), IsCreate) == [] by {
      ClosingKeep(camera, last, IsCreate);
    }
    MiddleCreate(hs, pts);
    assert k == [c0] + km;
    ConsIndex(k, c0, km);
    forall i | 0 <= i < |pts|
      ensures k[i] == CamCreated(hs[i], pts[i], Fov)
    {
      if i > 0 {
        assert k[i] == km[i - 1];
      }
    }
  }

  lemma ConsIndex(k: seq<Effect>, x: Effect, km: seq<Effect>)
    requires k == [x] + km
    ensures |k| == |km| + 1 && k[0] == x && forall i :: 0 < i < |k| ==> k[i] == km[i - 1]
  {
  }

  /** A playback over N waypoints requests N - 1 transitions of one segment
      length each, the i-th from the camera of waypoint i into the camera of
      waypoint i + 1. */
  lemma PlaybackTransitions(camera: Option<int>, hs: seq<int>, pts: seq<Pose>)
    requires 1 <= |hs| == |pts|
    ensures var k := Keep(Playback(camera, hs, pts), IsInterp);
            |k| == |pts| - 1 && forall i :: 0 <= i < |pts| - 1 ==> k[i] == InterpStarted(hs[i + 1], hs[i], SegmentMs)
  {
    var last := hs[|hs| - 1];
    PlaybackKeep(camera, hs, pts, IsInterp);
    assert Keep(Opening(hs, pts), IsInterp) == [] by {
      OpeningKeep(hs, pts, IsInterp);
    }
    assert Keep(Closing(camera, last), IsInterp) == [] by {
      ClosingKeep(camera, last, IsInterp);
    }
    MiddleInterp(hs, pts);
  }

  /** A playback over N waypoints sleeps N - 1 times, or once when N is 1,
      each time for one segment length. */
  lemma PlaybackSleeps(camera: Option<int>, hs: seq<int>, pts: seq<Pose>)
    requires 1 <= |hs| == |pts|
    ensures var k := Keep(Playback(camera, hs, pts), IsSleep);
            |k| == (if |pts| == 1 then 1 else |pts| - 1) && forall i :: 0 <= i < |k| ==> k[i] == Slept(SegmentMs)
  {
    var last := hs[|hs| - 1];
    PlaybackKeep(camera, hs, pts, IsSleep);
    assert Keep(Opening(hs, pts), IsSleep) == [] by {
      OpeningKeep(hs, pts, IsSleep);
    }
    assert Keep(Closing(camera, last), IsSleep) == [] by {
      ClosingKeep(camera, last, IsSleep);
    }
    MiddleSleep(hs, pts);
  }

  /** PlaySequence on an idle director with waypoints appends one playback to
      the trace, makes one camera per waypoint, clears the flag again, and
      changes nothing else. */
  lemma PlayAppendsPlayback(s: Sys, answer: nat -> int)
    requires !s.playing && |s.points| >= 1
    ensures var s' := PlaySequence(s, answer);
            s'.trace == s.trace + Playback(s.camera, Handles(answer, s.created, |s.points|), s.points)
            && s'.created == s.created + |s.points|
            && !s'.playing
            && s'.(trace := s.trace, created := s.created, poses := s.poses) == s
  {
    var hs := Handles(answer, s.created, |s.points|);
    var e0 := [Emitted(PlayingSequence(true))];
    RunPrefix(s.trace, e0, hs, s.points);
    HandbackPrefix(s.trace, Run(e0, hs, s.points), s.camera);
    RunIsPlayback(s.camera, hs, s.points);
  }

  lemma RunPrefix(a: seq<Effect>, b: seq<Effect>, hs: seq<int>, pts: seq<Pose>)
    requires 1 <= |hs| == |pts|
    ensures Run(a + b, hs, pts) == a + Run(b, hs, pts)
  {
    var n := |pts|;
    var t0 := b + [CamCreated(hs[0], pts[0], Fov)] + [CamActiveSet(hs[0], true)] + [ScriptCamsRendered(true)];
    var t0' := a + b + [CamCreated(hs[0], pts[0], Fov)] + [CamActiveSet(hs[0], true)] + [ScriptCamsRendered(true)];
    assert t0' == a + t0;
    var t1 := if n == 1 then t0 + [Slept(SegmentMs)] else Segments(t0, hs, pts, n - 1);
    var t1' := if n == 1 then t0' + [Slept(SegmentMs)] else Segments(t0', hs, pts, n - 1);
    if n > 1 {
      SegmentsPrefix(a, t0, hs, pts, n - 1);
    }
    assert t1' == a + t1;
    assert Run(a + b, hs, pts) == t1' + [CamActiveSet(hs[n - 1], false)] + [CamDestroyed(hs[n - 1])];
  }

  lemma HandbackPrefix(a: seq<Effect>, b: seq<Effect>, camera: Option<int>)
    ensures Handback(a + b, camera) == a + Handback(b, camera)
  {
  }

  /** PlaySequence changes nothing while a playback is suspended or when
      there are no waypoints. */
  lemma PlayIdle(s: Sys, answer: nat -> int)
    requires s.playing || |s.points| == 0
    ensures PlaySequence(s, answer) == s
  {
  }

  /** Keeping the effects of one kind from a trace that grows by one segment. */
  lemma SegmentKeep(base: seq<Effect>, hs: seq<int>, pts: seq<Pose>, n: nat, p: Effect -> bool)
    requires 0 < n < |hs| == |pts|
    ensures Keep(Segments(base, hs, pts, n), p) == Keep(Segments(base, hs, pts, n - 1), p)
      + (if p(CamCreated(hs[n], pts[n], Fov)) then [CamCreated(hs[n], pts[n], Fov)] else [])
      + (if p(InterpStarted(hs[n], hs[n - 1], SegmentMs)) then [InterpStarted(hs[n], hs[n - 1], SegmentMs)] else [])
      + (if p(Slept(SegmentMs)) then [Slept(SegmentMs)] else [])
      + (if p(CamDestroyed(hs[n - 1])) then [CamDestroyed(hs[n - 1])] else [])
  {
    var t := Segments(base, hs, pts, n - 1);
    var c := CamCreated(hs[n], pts[n], Fov);
    var i := InterpStarted(hs[n], hs[n - 1], SegmentMs);
    var z := Slept(SegmentMs);
    KeepSnoc(t, c, p);
    KeepSnoc(t + [c], i, p);
    KeepSnoc(t + [c] + [i], z, p);
    KeepSnoc(t + [c] + [i] + [z], CamDestroyed(hs[n - 1]), p);
  }

  /** The n segments create the cameras of waypoints 1 .. n, in order. */
  lemma {:induction false} SegmentsCreate(hs: seq<int>, pts: seq<Pose>, n: nat)
    requires n < |hs| == |pts|
    ensures var k := Keep(Segments([], hs, pts, n), IsCreate);
            |k| == n && forall i :: 0 <= i < n ==> k[i] == CamCreated(hs[i + 1], pts[i + 1], Fov)
  {
    if n > 0 {
      SegmentsCreate(hs, pts, n - 1);
      SegmentKeep([], hs, pts, n, IsCreate);
    }
  }

  /** Segment i interpolates from the camera of waypoint i - 1 into the one
      of waypoint i, over one segment length. */
  lemma {:induction false} SegmentsInterp(hs: seq<int>, pts: seq<Pose>, n: nat)
    requires n < |hs| == |pts|
    ensures var k := Keep(Segments([], hs, pts, n), IsInterp);
            |k| == n && forall i :: 0 <= i < n ==> k[i] == InterpStarted(hs[i + 1], hs[i], SegmentMs)
  {
    if n > 0 {
      SegmentsInterp(hs, pts, n - 1);
      SegmentKeep([], hs, pts, n, IsInterp);
    }
  }

  /** Each segment sleeps once, for one segment length. */
  lemma {:induction false} SegmentsSleep(hs: seq<int>, pts: seq<Pose>, n: nat)
    requires n < |hs| == |pts|
    ensures var k := Keep(Segments([], hs, pts, n), IsSleep);
            |k| == n && forall i :: 0 <= i < n ==> k[i] == Slept(SegmentMs)
  {
    if n > 0 {
      SegmentsSleep(hs, pts, n - 1);
      SegmentKeep([], hs, pts, n, IsSleep);
    }
  }

  /** The middle of a playback neither emits nor activates a camera. */
  lemma MiddleQuiet(hs: seq<int>, pts: seq<Pose>, p: Effect -> bool)
    requires 1 <= |hs| == |pts|
    requires forall e :: p(e) ==> e.Emitted? || e.CamActiveSet?
    ensures Keep(Middle(hs, pts), p) == []
  {
    if |pts| == 1 {
      assert Middle(hs, pts) == [Slept(SegmentMs)];
      KeepOne(Slept(SegmentMs), p);
    } else {
      assert Middle(hs, pts) == Segments([], hs, pts, |pts| - 1);
      SegmentsQuiet(hs, pts, |pts| - 1, p);
    }
  }

  /** Segments neither emit nor plainly activate a camera. */
  lemma {:induction false} SegmentsQuiet(hs: seq<int>, pts: seq<Pose>, n: nat, p: Effect -> bool)
    requires n < |hs| == |pts|
    requires forall e :: p(e) ==> e.Emitted? || e.CamActiveSet?
    ensures Keep(Segments([], hs, pts, n), p) == []
  {
    if n > 0 {
      SegmentsQuiet(hs, pts, n - 1, p);
      SegmentKeep([], hs, pts, n, p);
    }
  }

  /** The first three effects of a segment: the camera of the new waypoint
      joins the live ones. */
  lemma SegmentLiveOpen(l0: multiset<int>, m: multiset<int>, t: seq<Effect>, prev: int, next: int, pose: Pose, cap: nat)
    requires |LiveAfter(l0, t) + multiset{next}| <= cap && FitsWithin(l0, t, cap)
    requires m == LiveAfter(l0, t) + multiset{next}
    ensures var t' := t + [CamCreated(next, pose, Fov)] + [InterpStarted(next, prev, SegmentMs)] + [Slept(SegmentMs)];
            LiveAfter(l0, t') == m && FitsWithin(l0, t', cap)
  {
    var c := CamCreated(next, pose, Fov);
    var i := InterpStarted(next, prev, SegmentMs);
    LiveSnoc(l0, t, c, cap);
    LivePassive(l0, t + [c], i, cap);
    LivePassive(l0, t + [c] + [i], Slept(SegmentMs), cap);
  }

  /** One segment: the camera of the new waypoint joins the live ones, then
      the superseded camera leaves. */
  lemma SegmentLive(l0: multiset<int>, live: multiset<int>, t: seq<Effect>, prev: int, next: int, pose: Pose)
    requires LiveAfter(l0, t) == live + multiset{prev}
    requires FitsWithin(l0, t, |live| + 2)
    ensures var t' := t + [CamCreated(next, pose, Fov)] + [InterpStarted(next, prev, SegmentMs)] + [Slept(SegmentMs)] + [CamDestroyed(prev)];
            LiveAfter(l0, t') == live + multiset{next} && FitsWithin(l0, t', |live| + 2)
  {
    var cap := |live| + 2;
    var m := live + multiset{prev} + multiset{next};
    var t3 := t + [CamCreated(next, pose, Fov)] + [InterpStarted(next, prev, SegmentMs)] + [Slept(SegmentMs)];
    Handover(live, prev, next);
    SegmentLiveOpen(l0, m, t, prev, next, pose, cap);
    LiveSnoc(l0, t3, CamDestroyed(prev), cap);
  }

  /** Adding the next camera to the live ones and removing the previous. */
  lemma Handover(live: multiset<int>, prev: int, next: int)
    ensures |live + multiset{prev} + multiset{next}| == |live| + 2
    ensures live + multiset{prev} + multiset{next} - multiset{prev} == live + multiset{next}
    ensures |live + multiset{next}| == |live| + 1
  {
  }

  /** Across the segments the one live playback camera moves from waypoint 0
      to waypoint n, with never more than two playback cameras live. */
  lemma {:induction false} SegmentsLive(live: multiset<int>, hs: seq<int>, pts: seq<Pose>, n: nat)
    requires n < |hs| == |pts|
    ensures LiveAfter(live + multiset{hs[0]}, Segments([], hs, pts, n)) == live + multiset{hs[n]}
    ensures FitsWithin(live + multiset{hs[0]}, Segments([], hs, pts, n), |live| + 2)
  {
    if n > 0 {
      SegmentsLive(live, hs, pts, n - 1);
      SegmentLive(live + multiset{hs[0]}, live, Segments([], hs, pts, n - 1), hs[n - 1], hs[n], pts[n]);
    }
  }

  /** The opening of a playback brings its first camera to life. */
  lemma OpenLive(live: multiset<int>, hs: seq<int>, pts: seq<Pose>)
    requires 1 <= |hs| == |pts|
    ensures LiveAfter(live, Opening(hs, pts)) == live + multiset{hs[0]}
    ensures FitsWithin(live, Opening(hs, pts), |live| + 2)
  {
    var cap := |live| + 2;
    var e0 := Emitted(PlayingSequence(true));
    var c0 := CamCreated(hs[0], pts[0], Fov);
    LivePassiveRun(live, [e0], cap);
    LiveSnoc(live, [e0], c0, cap);
    LivePassive(live, [e0] + [c0], CamActiveSet(hs[0], true), cap);
    LivePassive(live, [e0] + [c0] + [CamActiveSet(hs[0], true)], ScriptCamsRendered(true), cap);
  }

  /** The middle of a playback hands the one live playback camera from the
      first waypoint to the last. */
  lemma MiddleLive(live: multiset<int>, hs: seq<int>, pts: seq<Pose>)
    requires 1 <= |hs| == |pts|
    ensures LiveAfter(live + multiset{hs[0]}, Middle(hs, pts)) == live + multiset{hs[|hs| - 1]}
    ensures FitsWithin(live + multiset{hs[0]}, Middle(hs, pts), |live| + 2)
  {
    if |hs| == 1 {
      DwellLive(live, hs, pts);
    } else {
      WalkLive(live, hs, pts);
    }
  }

  /** With one waypoint the middle is the dwell, which creates and destroys
      nothing. */
  lemma DwellLive(live: multiset<int>, hs: seq<int>, pts: seq<Pose>)
    requires 1 == |hs| == |pts|
    ensures LiveAfter(live + multiset{hs[0]}, Middle(hs, pts)) == live + multiset{hs[|hs| - 1]}
    ensures FitsWithin(live + multiset{hs[0]}, Middle(hs, pts), |live| + 2)
  {
    var m := Middle(hs, pts);
    assert m == [Slept(SegmentMs)];
    LivePassiveRun(live + multiset{hs[0]}, m, |live| + 2);
  }

  /** With several waypoints the middle is the walk over the segments. */
  lemma WalkLive(live: multiset<int>, hs: seq<int>, pts: seq<Pose>)
    requires 1 < |hs| == |pts|
    ensures LiveAfter(live + multiset{hs[0]}, Middle(hs, pts)) == live + multiset{hs[|hs| - 1]}
    ensures FitsWithin(live + multiset{hs[0]}, Middle(hs, pts), |live| + 2)
  {
    assert Middle(hs, pts) == Segments([], hs, pts, |hs| - 1);
    SegmentsLive(live, hs, pts, |hs| - 1);
  }

  /** The handback and the closing announcement create and destroy nothing. */
  lemma TailPassive(camera: Option<int>)
    ensures var r := Handback([], camera) + [Emitted(PlayingSequence(false))];
            forall i :: 0 <= i < |r| ==> !r[i].CamCreated? && !r[i].CamDestroyed?
  {
  }

  /** The drop of the last playback camera. */
  lemma DropLive(live: multiset<int>, last: int, cap: nat)
    requires |live| + 1 <= cap
    ensures var d := [CamActiveSet(last, false)] + [CamDestroyed(last)];
            LiveAfter(live + multiset{last}, d) == live && FitsWithin(live + multiset{last}, d, cap)
  {
    var l1 := live + multiset{last};
    var d0 := CamActiveSet(last, false);
    LivePassiveRun(l1, [d0], cap);
    LiveSnoc(l1, [d0], CamDestroyed(last), cap);
    assert l1 - multiset{last} == live;
  }

  /** The close of a playback drops its last camera; the handback and the
      closing announcement create and destroy nothing. */
  lemma CloseLive(live: multiset<int>, last: int, camera: Option<int>)
    ensures LiveAfter(live + multiset{last}, Closing(camera, last)) == live
    ensures FitsWithin(live + multiset{last}, Closing(camera, last), |live| + 2)
  {
    var cap := |live| + 2;
    var d := [CamActiveSet(last, false)] + [CamDestroyed(last)];
    var rest := Handback([], camera) + [Emitted(PlayingSequence(false))];
    assert Closing(camera, last) == d + rest;
    DropLive(live, last, cap);
    TailPassive(camera);
    LivePassiveRun(live, rest, cap);
    LiveConcat(live + multiset{last}, d, rest, cap);
  }

  /** Every camera a playback creates it also destroys, and no more than two
      of them are ever live at once: with `live` the cameras live before,
      the same cameras are live after, and never more than |live| + 2 in
      between. */
  lemma PlaybackLive(live: multiset<int>, camera: Option<int>, hs: seq<int>, pts: seq<Pose>)
    requires 1 <= |hs| == |pts|
    ensures LiveAfter(live, Playback(camera, hs, pts)) == live
    ensures FitsWithin(live, Playback(camera, hs, pts), |live| + 2)
  {
    var cap := |live| + 2;
    var o := Opening(hs, pts);
    var m := Middle(hs, pts);
    var c := Closing(camera, hs[|hs| - 1]);
    OpenLive(live, hs, pts);
    MiddleLive(live, hs, pts);
    CloseLive(live, hs[|hs| - 1], camera);
    LiveConcat(live, o, m, cap);
    LiveConcat(live, o + m, c, cap);
  }
}
