/**
 * What the sequencer does over time: the reduced-motion freeze, the fixed
 * sixteen-step cycle through the patterns with chaos once per cycle, the
 * restart of a new run, and what the cleanup does and does not stop.
 */
module SequencerProperties {
  import opened Wrappers
  import opened EqualizerPatterns
  import opened EqualizerSequencer
  import opened BarAnimation
  import opened EventLoop

  /** Firing keeps the invariant over any number of steps. */
  lemma RunInv(w: World, n: nat)
    requires Inv(w)
    ensures Inv(Run(w, n))
  {
    forall y | Inv(y) ensures Inv(Fired(y)) {
      FiredInv(y);
    }
    IterateKeeps(Fired, Inv, w, n);
  }

  /** With nothing pending, the event loop never changes the world again. */
  lemma {:induction false} QuiescentStaysPut(w: World, n: nat)
    requires w.pending == []
    ensures Run(w, n) == w
    decreases n
  {
    if n > 0 {
      QuiescentStaysPut(Fired(w), n - 1);
    }
  }

  /**
   * With reduced motion the effect schedules nothing: the component stays
   * at wave and playing however long it runs, and has no cleanup.
   */
  lemma ReducedMotionFreezes(start: int, n: nat)
    ensures var m := Mounted(Initial(start), true);
            m == Initial(start) && Run(m, n) == m && m.pattern == Wave && m.phase == Playing &&
            m.pending == [] && m.cleanup.None?
  {
    QuiescentStaysPut(Initial(start), n);
  }

  /**
   * The app's real start for a reduced-motion user: the page first renders
   * with reduced motion off, so the effect starts a run; the media query is
   * then applied, the cleanup cancels the first advance, and the effect
   * returns early. Nothing is pending and the component stays at wave and
   * playing however long it runs.
   */
  lemma ReducedMotionAfterFirstRenderFreezes(start: int, n: nat)
    ensures var u := Mounted(CleanedUp(Mounted(Initial(start), false)), true);
            u.pending == [] && u.cleanup.None? && u.pattern == Wave && u.phase == Playing &&
            Run(u, n) == u
  {
    FirstMount(start);
    var t := Timer(start + 10000, 1, 0, Advance);
    assert Cancel([t], 1) == [] by {
      assert [t][1..] == [];
    }
    QuiescentStaysPut(CleanedUp(Mounted(Initial(start), false)), n);
  }

  /**
   * Running the effect without reduced motion starts a new run with index 0
   * whose only timer is the first advance, 10000 ms later, held in its
   * `timeoutId`. The pattern and phase shown are left as they are.
   */
  lemma MountedStartsRun(w: World)
    requires Inv(w) && w.cleanup.None?
    ensures var m := Mounted(w, false);
            var c := |w.closures|;
            m.pattern == w.pattern && m.phase == w.phase && m.now == w.now &&
            m.cleanup == Some(c) && |m.closures| == c + 1 &&
            m.closures[c] == Closure(0, w.nextHandle) &&
            m.closures[..c] == w.closures &&
            (forall x :: x in m.pending && x.closure == c <==> x == Timer(w.now + 10000, w.nextHandle, c, Advance)) &&
            (forall x :: x in m.pending && x.closure != c <==> x in w.pending)
  {
    var m := Mounted(w, false);
    var c := |w.closures|;
    InsertMembers(w.pending, Timer(w.now + 10000, w.nextHandle, c, Advance));
    assert forall x :: x in w.pending ==> x.closure < c;
    assert m.closures[..c] == w.closures;
  }

  /** The first mount: wave, playing, index 0, one advance due 10000 ms later. */
  lemma FirstMount(start: int)
    ensures Mounted(Initial(start), false) ==
            World(Wave, Playing, start, [Timer(start + 10000, 1, 0, Advance)], [Closure(0, 1)], 2, Some(0))
  {
  }

  // The callbacks one at a time, for a run whose timer is the only one pending.

  lemma StepAdvance(w: World, t: Timer)
    requires w.pending == [t] && t.action == Advance && t.closure < |w.closures|
    requires w.closures[t.closure].patternIndex < 4
    ensures var c, i := t.closure, w.closures[t.closure].patternIndex + 1;
            Fired(w) == w.(now := t.due, phase := Settling,
                           pending := [Timer(t.due + 2000, w.nextHandle, c, Reveal(NormalPatterns[i]))],
                           closures := w.closures[c := w.closures[c].(patternIndex := i)],
                           nextHandle := w.nextHandle + 1)
  {
  }

  lemma StepAdvanceToChaos(w: World, t: Timer)
    requires w.pending == [t] && t.action == Advance && t.closure < |w.closures|
    requires w.closures[t.closure].patternIndex == 4
    ensures var c := t.closure;
            Fired(w) == w.(now := t.due, phase := Playing, pattern := Chaos,
                           pending := [Timer(t.due + 2000, w.nextHandle, c, EndChaos)],
                           closures := w.closures[c := Closure(5, w.nextHandle)],
                           nextHandle := w.nextHandle + 1)
  {
  }

  lemma StepEndChaos(w: World, t: Timer)
    requires w.pending == [t] && t.action == EndChaos && t.closure < |w.closures|
    ensures var c := t.closure;
            Fired(w) == w.(now := t.due, phase := Settling,
                           pending := [Timer(t.due + 2000, w.nextHandle, c, Reveal(Wave))],
                           closures := w.closures[c := w.closures[c].(patternIndex := 0)],
                           nextHandle := w.nextHandle + 1)
  {
  }

  lemma StepReveal(w: World, t: Timer)
    requires w.pending == [t] && t.action.Reveal? && t.closure < |w.closures|
    ensures Fired(w) == w.(now := t.due, phase := Transitioning, pattern := t.action.next,
                           pending := [Timer(t.due + 500, w.nextHandle, t.closure, Resume)],
                           nextHandle := w.nextHandle + 1)
  {
  }

  lemma StepResume(w: World, t: Timer)
    requires w.pending == [t] && t.action == Resume && t.closure < |w.closures|
    ensures var c := t.closure;
            Fired(w) == w.(now := t.due, phase := Playing,
                           pending := [Timer(t.due + 10000, w.nextHandle, c, Advance)],
                           closures := w.closures[c := w.closures[c].(timeoutId := w.nextHandle)],
                           nextHandle := w.nextHandle + 1)
  {
  }

  /** A world whose only pending timer is an advance of an existing run. */
  ghost predicate LoneAdvance(w: World)
  {
    |w.pending| == 1 && w.pending[0].action == Advance && w.pending[0].closure < |w.closures|
  }

  /** The `patternIndex` of the run whose advance is pending. */
  function AdvancingIndex(w: World): nat
    requires LoneAdvance(w)
  {
    w.closures[w.pending[0].closure].patternIndex
  }

  /**
   * Where a normal round leaves a lone run at index i - 1 < 4: index i,
   * `NormalPatterns[i]` playing, 2500 ms after the advance, with the next
   * advance armed 10000 ms later; three handles used.
   */
  function AfterNormalRound(w: World): World
    requires LoneAdvance(w) && AdvancingIndex(w) < 4
  {
    var t := w.pending[0];
    var c, d, h, i := t.closure, t.due, w.nextHandle, AdvancingIndex(w) + 1;
    w.(pattern := NormalPatterns[i], phase := Playing, now := d + 2500,
       pending := [Timer(d + 12500, h + 2, c, Advance)],
       closures := w.closures[c := Closure(i, h + 2)], nextHandle := h + 3)
  }

  /**
   * What a normal round shows: at the advance the bars settle with the
   * pattern unchanged, then transition to `NormalPatterns[i]`, then play it.
   */
  function NormalRoundScript(w: World): seq<(Pattern, AnimationPhase)>
    requires LoneAdvance(w) && AdvancingIndex(w) < 4
  {
    var next := NormalPatterns[AdvancingIndex(w) + 1];
    [(w.pattern, Settling), (next, Transitioning), (next, Playing)]
  }

  /**
   * Where the chaos round leaves a lone run at index 4: index 0, wave
   * playing, 4500 ms after the advance, with the next advance armed 10000 ms
   * later; four handles used.
   */
  function AfterChaosRound(w: World): World
    requires LoneAdvance(w) && AdvancingIndex(w) == 4
  {
    var t := w.pending[0];
    var c, d, h := t.closure, t.due, w.nextHandle;
    w.(pattern := Wave, phase := Playing, now := d + 4500,
       pending := [Timer(d + 14500, h + 3, c, Advance)],
       closures := w.closures[c := Closure(0, h + 3)], nextHandle := h + 4)
  }

  /**
   * What the chaos round shows: chaos plays at once, without settling, for
   * 2000 ms; then the bars settle (index back to 0) for 2000 ms; then they
   * transition to wave for 500 ms; then wave plays.
   */
  const ChaosRoundScript: seq<(Pattern, AnimationPhase)> :=
    [(Chaos, Playing), (Chaos, Settling), (Wave, Transitioning), (Wave, Playing)]

  /** A normal round is three timers: the advance, the reveal and the resume. */
  lemma NormalRound(w: World)
    requires LoneAdvance(w) && AdvancingIndex(w) < 4
    ensures Run(w, 3) == AfterNormalRound(w)
  {
    var t := w.pending[0];
    var c, h, i := t.closure, w.nextHandle, AdvancingIndex(w) + 1;
    StepAdvance(w, t);
    var w1 := Fired(w);
    StepReveal(w1, w1.pending[0]);
    var w2 := Fired(w1);
    StepResume(w2, w2.pending[0]);
    var w3 := Fired(w2);
    assert Run(w, 3) == w3;
    assert w3.closures == w.closures[c := Closure(i, h + 2)];
  }

  lemma NormalRoundShows(w: World)
    requires LoneAdvance(w) && AdvancingIndex(w) < 4
    ensures Trace(w, 3) == NormalRoundScript(w)
  {
    var t := w.pending[0];
    StepAdvance(w, t);
    var w1 := Fired(w);
    StepReveal(w1, w1.pending[0]);
    var w2 := Fired(w1);
    StepResume(w2, w2.pending[0]);
    var w3 := Fired(w2);
    assert Trace(w2, 1) == [Shown(w3)];
    assert Trace(w1, 2) == [Shown(w2)] + Trace(w2, 1);
    assert Trace(w, 3) == [Shown(w1)] + Trace(w1, 2);
  }

  /** The chaos round is four timers: the advance, the end of chaos, the reveal of wave and the resume. */
  lemma ChaosRound(w: World)
    requires LoneAdvance(w) && AdvancingIndex(w) == 4
    ensures Run(w, 4) == AfterChaosRound(w)
  {
    var t := w.pending[0];
    var c, h := t.closure, w.nextHandle;
    StepAdvanceToChaos(w, t);
    var w1 := Fired(w);
    StepEndChaos(w1, w1.pending[0]);
    var w2 := Fired(w1);
    StepReveal(w2, w2.pending[0]);
    var w3 := Fired(w2);
    StepResume(w3, w3.pending[0]);
    var w4 := Fired(w3);
    assert Run(w, 4) == w4;
    assert w4.closures == w.closures[c := Closure(0, h + 3)];
  }

  lemma ChaosRoundShows(w: World)
    requires LoneAdvance(w) && AdvancingIndex(w) == 4
    ensures Trace(w, 4) == ChaosRoundScript
  {
    var t := w.pending[0];
    StepAdvanceToChaos(w, t);
    var w1 := Fired(w);
    StepEndChaos(w1, w1.pending[0]);
    var w2 := Fired(w1);
    StepReveal(w2, w2.pending[0]);
    var w3 := Fired(w2);
    StepResume(w3, w3.pending[0]);
    var w4 := Fired(w3);
    assert Trace(w3, 1) == [Shown(w4)];
    assert Trace(w2, 2) == [Shown(w3)] + Trace(w3, 1);
    assert Trace(w1, 3) == [Shown(w2)] + Trace(w2, 2);
    assert Trace(w, 4) == [Shown(w1)] + Trace(w1, 3);
  }

  // ---------------------------------------------------------------------------
  // Cleanup

  /** An advance and the end of chaos are the timers the cleanup can reach. */
  predicate Tracked(a: Action)
  {
    a.Advance? || a.EndChaos?
  }

  /**
   * The cleanup leaves its run with no pending timer exactly when that run's
   * pending timer, if any, is an advance or the end of chaos: a reveal or a
   * resume scheduled by the inner callbacks survives it.
   */
  lemma CleanupReachesOnlyTracked(w: World)
    requires Inv(w) && w.cleanup.Some?
    ensures var c := w.cleanup.value;
            (forall x :: x in CleanedUp(w).pending ==> x.closure != c) <==>
            (forall x :: x in w.pending && x.closure == c ==> Tracked(x.action))
    ensures forall x :: x in w.pending && x.closure != w.cleanup.value ==> x in CleanedUp(w).pending
  {
    var c := w.cleanup.value;
    var r := CleanedUp(w);
    forall x | x in w.pending && x.closure == c
      ensures x in r.pending <==> !Tracked(x.action)
    {
      assert Agrees(x, w.closures[c]);
    }
  }

  /** A queue with no timer in it is empty. */
  lemma NoTimerEmpty(s: seq<Timer>)
    ensures (forall x :: x !in s) ==> s == []
  {
    if s != [] {
      assert s[0] in s;
    }
  }

  /** Cancelling a handle that is not the lone timer's keeps the lone timer. */
  lemma CancelOther(t: Timer, h: nat)
    requires t.handle != h
    ensures Cancel([t], h) == [t]
  {
    assert [t][1..] == [];
  }

  /**
   * When the run's tracked timer is the only pending timer, the cleanup
   * stops every later change.
   */
  lemma CleanupStopsLoneTrackedTimer(w: World, t: Timer, n: nat)
    requires Inv(w) && w.cleanup.Some? && w.pending == [t]
    requires t.closure == w.cleanup.value && Tracked(t.action)
    ensures CleanedUp(w).pending == []
    ensures Run(CleanedUp(w), n) == CleanedUp(w)
  {
    assert Agrees(t, w.closures[t.closure]);
    NoTimerEmpty(CleanedUp(w).pending);
    QuiescentStaysPut(CleanedUp(w), n);
  }

  /**
   * When the cleanup runs while the run is settling towards a reveal, the
   * reveal still fires and so does the resume after it, which arms a new
   * advance for the cleaned-up run in its `timeoutId`; no cleanup is held
   * any more, so nothing can cancel that advance.
   */
  lemma CleanupDuringSettlingRearms(w: World, t: Timer)
    requires Inv(w) && w.cleanup.Some? && w.pending == [t]
    requires t.closure == w.cleanup.value && t.action.Reveal?
    ensures var c, h := t.closure, w.nextHandle;
            var r := Run(CleanedUp(w), 2);
            Fired(CleanedUp(w)).pattern == t.action.next &&
            Fired(CleanedUp(w)).phase == Transitioning &&
            r.pattern == t.action.next && r.phase == Playing && r.cleanup.None? &&
            r.pending == [Timer(t.due + 10500, h + 1, c, Advance)] &&
            r.closures[c].timeoutId == h + 1 &&
            CleanedUp(r) == r
  {
    assert Agrees(t, w.closures[t.closure]);
    CancelOther(t, w.closures[t.closure].timeoutId);
    var u := CleanedUp(w);
    assert u.pending == [t];
    StepReveal(u, t);
    var u1 := Fired(u);
    StepResume(u1, u1.pending[0]);
    var u2 := Fired(u1);
    assert Run(u, 2) == u2;
  }

  /**
   * The cleanup during the transitioning phase: the resume still fires and
   * re-arms an advance that no cleanup can cancel.
   */
  lemma CleanupDuringTransitionRearms(w: World, t: Timer)
    requires Inv(w) && w.cleanup.Some? && w.pending == [t]
    requires t.closure == w.cleanup.value && t.action == Resume
    ensures var c, h := t.closure, w.nextHandle;
            var r := Fired(CleanedUp(w));
            r.phase == Playing && r.cleanup.None? &&
            r.pending == [Timer(t.due + 10000, h, c, Advance)] &&
            CleanedUp(r) == r
  {
    assert Agrees(t, w.closures[t.closure]);
    CancelOther(t, w.closures[t.closure].timeoutId);
    var u := CleanedUp(w);
    assert u.pending == [t];
    StepResume(u, t);
  }

  /**
   * A concrete case: mount, let the first advance fire (the bars settle,
   * pulse is pending), clean up. The pulse reveal still changes the
   * pattern and phase.
   */
  lemma CleanupLeaksAfterFirstAdvance(start: int)
    ensures var w := Fired(Mounted(Initial(start), false));
            var u := CleanedUp(w);
            u.pending == [Timer(start + 12000, 2, 0, Reveal(Pulse))] &&
            Fired(u).pattern == Pulse && Fired(u).phase == Transitioning && Fired(u) != u
  {
    var m := Mounted(Initial(start), false);
    FirstMount(start);
    StepAdvance(m, m.pending[0]);
    var w := Fired(m);
    var t := Timer(start + 12000, 2, 0, Reveal(Pulse));
    assert w.pending == [t];
    CancelOther(t, 1);
    var u := CleanedUp(w);
    StepReveal(u, t);
  }

  /**
   * When that cleanup comes from reduced motion being turned on, the leaked
   * reveal is not seen: every bar's descriptor is the static reduced-motion
   * one before and after it fires, although the state changes.
   */
  lemma LeakHiddenUnderReducedMotion(start: int, trig: Trig, index: nat, bars: nat)
    requires index < bars && ValidTrig(trig)
    ensures var u := CleanedUp(Fired(Mounted(Initial(start), false)));
            Fired(u) != u &&
            BarAnimationFor(trig, true, Fired(u).phase, Fired(u).pattern, index, bars) ==
            BarAnimationFor(trig, true, u.phase, u.pattern, index, bars)
  {
    CleanupLeaksAfterFirstAdvance(start);
  }

  /**
   * Reduced motion turned on between two timers and off again: the old
   * run's reveal survives the cleanup, and the new run starts beside it, so
   * two runs now drive the same component, the old one untracked.
   */
  lemma ToggleLeavesTwoRuns(start: int)
    ensures var w1 := Fired(Mounted(Initial(start), false));
            w1.now == start + 10000 && w1.pending[0].due == start + 12000 &&
            var w2 := Mounted(CleanedUp(Elapsed(w1, start + 11000)), true);
            w2.now == start + 11000 &&
            var w3 := Mounted(Elapsed(w2, start + 11500), false);
            w3.pending == [Timer(start + 12000, 2, 0, Reveal(Pulse)), Timer(start + 21500, 3, 1, Advance)] &&
            w3.cleanup == Some(1)
  {
    var m := Mounted(Initial(start), false);
    FirstMount(start);
    StepAdvance(m, m.pending[0]);
    var w1 := Fired(m);
    var t := Timer(start + 12000, 2, 0, Reveal(Pulse));
    assert w1.pending == [t];
    CancelOther(t, 1);
    var u := CleanedUp(Elapsed(w1, start + 11000));
    assert u.pending == [t];
    var w3 := Mounted(Elapsed(u, start + 11500), false);
    assert w3.pending == Insert([t], Timer(start + 21500, 3, 1, Advance));
  }

  // ---------------------------------------------------------------------------
  // A cleanup that stops its run

  /**
   * With the cleanup that cancels every timer of its run, a lone run stops whatever phase it is in: no timer
   * is left and nothing changes however long the event loop runs.
   */
  lemma StoppingCleanupStopsLoneRun(w: World, n: nat)
    requires Inv(w) && w.cleanup.Some?
    requires forall x :: x in w.pending ==> x.closure == w.cleanup.value
    ensures CleanedUpStoppingRun(w).pending == []
    ensures Run(CleanedUpStoppingRun(w), n) == CleanedUpStoppingRun(w)
  {
    var r := CleanedUpStoppingRun(w);
    NoTimerEmpty(r.pending);
    QuiescentStaysPut(r, n);
  }
}
