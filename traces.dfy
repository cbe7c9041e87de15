/** Ways of reading a host trace: the effects of one kind in call order, and
    the multiset of camera handles live after each effect. All folds recur on
    the last effect, the way the director's calls extend a trace. */
module Traces {
  import opened Engine

  predicate IsEmit(e: Effect) { e.Emitted? }
  predicate IsCreate(e: Effect) { e.CamCreated? }
  predicate IsInterp(e: Effect) { e.InterpStarted? }
  predicate IsSleep(e: Effect) { e.Slept? }
  /** A plain (not interpolated) activation of a camera. */
  predicate IsActivation(e: Effect) { e.CamActiveSet? && e.active }

  /** The effects of t that satisfy p, in order. */
  function Keep(t: seq<Effect>, p: Effect -> bool): (r: seq<Effect>)
    ensures |r| <= |t|

  {
    if t == [] then []
    else Keep(t[..|t| - 1], p) + (if p(t[|t| - 1]) then [t[|t| - 1]] else [])
  }

  /** The last effect of a one-longer trace, and what comes before it. */
  lemma Snoc(t: seq<Effect>, e: Effect)
    ensures (t + [e])[..|t|] == t && (t + [e])[|t|] == e
  {
  }

  lemma KeepSnoc(t: seq<Effect>, e: Effect, p: Effect -> bool)
    ensures Keep(t + [e], p) == Keep(t, p) + (if p(e) then [e] else [])
  {
    Snoc(t, e);
  }

  lemma KeepOne(e: Effect, p: Effect -> bool)
    ensures Keep([e], p) == if p(e) then [e] else []
  {
    KeepSnoc([], e, p);
    assert [] + [e] == [e];
  }

  lemma {:induction false} KeepConcat(a: seq<Effect>, b: seq<Effect>, p: Effect -> bool)
    ensures Keep(a + b, p) == Keep(a, p) + Keep(b, p)
    decreases |b|
  {
    if b == [] {
      assert a + b == a;
    } else {
      var b' := b[..|b| - 1];
      var e := b[|b| - 1];
      assert b == b' + [e];
      assert a + b == (a + b') + [e];
      KeepConcat(a, b', p);
      KeepSnoc(a + b', e, p);
      KeepSnoc(b', e, p);
    }
  }

  /** Every effect of t that satisfies p is kept. */
  lemma {:induction false} KeepComplete(t: seq<Effect>, p: Effect -> bool, e: Effect)
    requires e in t && p(e)
    ensures e in Keep(t, p)
    decreases |t|
  {
    var t' := t[..|t| - 1];
    assert t == t' + [t[|t| - 1]];
    if e != t[|t| - 1] {
      KeepComplete(t', p, e);
    }
  }

  /** How one effect changes the live cameras: a creation adds its handle, a
      destruction removes one occurrence of its handle. */
  function Step(live: multiset<int>, e: Effect): multiset<int> {
    match e
    case CamCreated(h, _, _) => live + multiset{h}
    case CamDestroyed(h) => live - multiset{h}
    case _ => live
  }

  /** The live cameras after t, starting from `live`. */
  function LiveAfter(live: multiset<int>, t: seq<Effect>): multiset<int> {
    if t == [] then live else Step(LiveAfter(live, t[..|t| - 1]), t[|t| - 1])
  }

  /** No more than `cap` cameras are live at any point of t. */
  predicate FitsWithin(live: multiset<int>, t: seq<Effect>, cap: nat) {
    if t == [] then |live| <= cap
    else FitsWithin(live, t[..|t| - 1], cap) && |LiveAfter(live, t)| <= cap
  }

  lemma LiveSnoc(live: multiset<int>, t: seq<Effect>, e: Effect, cap: nat)
    ensures LiveAfter(live, t + [e]) == Step(LiveAfter(live, t), e)
    ensures FitsWithin(live, t + [e], cap) <==> FitsWithin(live, t, cap) && |Step(LiveAfter(live, t), e)| <= cap
  {
    Snoc(t, e);
  }

  /** An effect that neither creates nor destroys a camera leaves the live
      cameras as they are. */
  lemma LivePassive(live: multiset<int>, t: seq<Effect>, e: Effect, cap: nat)
    requires !e.CamCreated? && !e.CamDestroyed?
    ensures LiveAfter(live, t + [e]) == LiveAfter(live, t)
    ensures FitsWithin(live, t + [e], cap) <==> FitsWithin(live, t, cap)
  {
    LiveSnoc(live, t, e, cap);
    if FitsWithin(live, t, cap) {
      FitsFinal(live, t, cap);
    }
  }

  /** A trace that neither creates nor destroys a camera leaves the live
      cameras as they are. */
  lemma {:induction false} LivePassiveRun(live: multiset<int>, t: seq<Effect>, cap: nat)
    requires forall i :: 0 <= i < |t| ==> !t[i].CamCreated? && !t[i].CamDestroyed?
    ensures LiveAfter(live, t) == live
    ensures FitsWithin(live, t, cap) <==> |live| <= cap
    decreases |t|
  {
    if t != [] {
      var t' := t[..|t| - 1];
      assert t == t' + [t[|t| - 1]];
      LivePassiveRun(live, t', cap);
      LivePassive(live, t', t[|t| - 1], cap);
    }
  }

  /** Appending effects that neither create nor destroy a camera. */
  lemma LiveAppendPassive(live: multiset<int>, t: seq<Effect>, u: seq<Effect>)
    requires forall i :: 0 <= i < |u| ==> !u[i].CamCreated? && !u[i].CamDestroyed?
    ensures LiveAfter(live, t + u) == LiveAfter(live, t)
  {
    LivePassiveRun(LiveAfter(live, t), u, 0);
    LiveConcat(live, t, u, 0);
  }

  lemma {:induction false} LiveConcat(live: multiset<int>, a: seq<Effect>, b: seq<Effect>, cap: nat)
    ensures LiveAfter(live, a + b) == LiveAfter(LiveAfter(live, a), b)
    ensures FitsWithin(live, a + b, cap) <==> FitsWithin(live, a, cap) && FitsWithin(LiveAfter(live, a), b, cap)
    decreases |b|
  {
    if b == [] {
      assert a + b == a;
      if FitsWithin(live, a, cap) {
        FitsFinal(live, a, cap);
      }
    } else {
      var b' := b[..|b| - 1];
      var e := b[|b| - 1];
      assert b == b' + [e];
      assert a + b == (a + b') + [e];
      LiveConcat(live, a, b', cap);
      LiveSnoc(live, a + b', e, cap);
      LiveSnoc(LiveAfter(live, a), b', e, cap);
    }
  }

  /** A trace that fits ends within the bound. */
  lemma FitsFinal(live: multiset<int>, t: seq<Effect>, cap: nat)
    requires FitsWithin(live, t, cap)
    ensures |LiveAfter(live, t)| <= cap
  {
  }
}
