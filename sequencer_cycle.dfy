/**
 * The sequencer's cycle: a lone run goes through the same sixteen steps,
 * from one advance at wave to the next, for ever.
 */
module SequencerCycle {
  import opened EqualizerPatterns
  import opened EqualizerSequencer
  import opened SequencerProperties
  import opened EventLoop

  /** (pattern, phase) after each of the sixteen timers of one cycle. */
  const CycleScript: seq<(Pattern, AnimationPhase)> :=
    [(Wave, Settling), (Pulse, Transitioning), (Pulse, Playing),
     (Pulse, Settling), (Zigzag, Transitioning), (Zigzag, Playing),
     (Zigzag, Settling), (Crescendo, Transitioning), (Crescendo, Playing),
     (Crescendo, Settling), (RandomSync, Transitioning), (RandomSync, Playing),
     (Chaos, Playing), (Chaos, Settling), (Wave, Transitioning), (Wave, Playing)]

  /** A lone run poised at wave, playing, index 0, its advance pending. */
  ghost predicate CycleStart(w: World)
  {
    LoneAdvance(w) && AdvancingIndex(w) == 0 && w.pattern == Wave && w.phase == Playing
  }

  /**
   * Where one cycle leaves such a run: back at wave, playing, index 0,
   * 54500 ms after the first advance, the next advance 64500 ms after it;
   * sixteen handles used.
   */
  function AfterCycle(w: World): World
    requires LoneAdvance(w)
  {
    var t := w.pending[0];
    var c, d, h := t.closure, t.due, w.nextHandle;
    w.(pattern := Wave, phase := Playing, now := d + 54500,
       pending := [Timer(d + 64500, h + 15, c, Advance)],
       closures := w.closures[c := Closure(0, h + 15)], nextHandle := h + 16)
  }

  // The cycle is put together from the rounds for any step function that
  // does what one round of `Fired` does; then `Fired` is shown to be one.

  /** `f` does, round by round, what `Fired` does (NormalRound, ChaosRound). */
  ghost predicate RoundsLike(f: World -> World)
  {
    (forall v :: LoneAdvance(v) && AdvancingIndex(v) < 4 ==> Iterate(f, v, 3) == AfterNormalRound(v)) &&
    (forall v :: LoneAdvance(v) && AdvancingIndex(v) == 4 ==> Iterate(f, v, 4) == AfterChaosRound(v))
  }

  /** `f` shows, round by round, what `Fired` shows (NormalRoundShows, ChaosRoundShows). */
  ghost predicate ShowsLike(f: World -> World)
  {
    (forall v :: LoneAdvance(v) && AdvancingIndex(v) < 4 ==> Observe(f, Shown, v, 3) == NormalRoundScript(v)) &&
    (forall v :: LoneAdvance(v) && AdvancingIndex(v) == 4 ==> Observe(f, Shown, v, 4) == ChaosRoundScript)
  }

  lemma FiredRounds()
    ensures RoundsLike(Fired) && ShowsLike(Fired)
  {
    forall v | LoneAdvance(v) && AdvancingIndex(v) < 4
      ensures Iterate(Fired, v, 3) == AfterNormalRound(v) && Observe(Fired, Shown, v, 3) == NormalRoundScript(v)
    {
      NormalRound(v);
      NormalRoundShows(v);
    }
    forall v | LoneAdvance(v) && AdvancingIndex(v) == 4
      ensures Iterate(Fired, v, 4) == AfterChaosRound(v) && Observe(Fired, Shown, v, 4) == ChaosRoundScript
    {
      ChaosRound(v);
      ChaosRoundShows(v);
    }
  }

  /** Two normal rounds in a row, from index 0 or 1 or 2. */
  lemma TwoRoundsWith(f: World -> World, v: World)
    requires RoundsLike(f) && ShowsLike(f) && LoneAdvance(v) && AdvancingIndex(v) < 3
    ensures Iterate(f, v, 6) == AfterNormalRound(AfterNormalRound(v))
    ensures Observe(f, Shown, v, 6) == NormalRoundScript(v) + NormalRoundScript(AfterNormalRound(v))
  {
    var v1 := Iterate(f, v, 3);
    assert v1 == AfterNormalRound(v);
    IterateAdd(f, v, 3, 3);
    ObserveAdd(f, Shown, v, 3, 3);
  }

  /** Four normal rounds and the chaos round make the cycle, showing CycleScript. */
  lemma CycleWith(f: World -> World, w: World)
    requires RoundsLike(f) && ShowsLike(f) && CycleStart(w)
    ensures Iterate(f, w, 16) == AfterCycle(w)
    ensures Observe(f, Shown, w, 16) == CycleScript
  {
    var w2 := AfterNormalRound(AfterNormalRound(w));
    var w4 := AfterNormalRound(AfterNormalRound(w2));
    TwoRoundsWith(f, w);
    TwoRoundsWith(f, w2);
    IterateAdd(f, w, 6, 6);
    ObserveAdd(f, Shown, w, 6, 6);
    assert Iterate(f, w, 12) == w4;
    IterateAdd(f, w, 12, 4);
    ObserveAdd(f, Shown, w, 12, 4);
    var c := w.pending[0].closure;
    assert AfterChaosRound(w4).closures == w.closures[c := Closure(0, w.nextHandle + 15)];
    CycleScriptRounds();
  }

  /** The sixteen timers of one cycle bring a run back to where it started, showing CycleScript. */
  lemma CycleOnce(w: World)
    requires CycleStart(w)
    ensures Run(w, 16) == AfterCycle(w) && CycleStart(Run(w, 16))
    ensures Trace(w, 16) == CycleScript
  {
    FiredRounds();
    CycleWith(Fired, w);
  }

  /** CycleScript is two pairs of normal rounds followed by the chaos round. */
  lemma CycleScriptRounds()
    ensures CycleScript ==
            [(Wave, Settling), (Pulse, Transitioning), (Pulse, Playing),
             (Pulse, Settling), (Zigzag, Transitioning), (Zigzag, Playing)] +
            [(Zigzag, Settling), (Crescendo, Transitioning), (Crescendo, Playing),
             (Crescendo, Settling), (RandomSync, Transitioning), (RandomSync, Playing)] +
            [(Chaos, Playing), (Chaos, Settling), (Wave, Transitioning), (Wave, Playing)]
  {
  }

  /**
   * The shape of the cycle: every transitioning step follows a settling
   * step; chaos shows during exactly two steps, entered from randomSync
   * while playing and left by settling, and wave comes back through a
   * transition.
   */
  lemma CycleScriptShape()
    ensures forall k :: 0 < k < 16 && CycleScript[k].1 == Transitioning ==> CycleScript[k - 1].1 == Settling
    ensures forall k :: 0 <= k < 16 ==> (CycleScript[k].0 == Chaos <==> k == 12 || k == 13)
    ensures CycleScript[11] == (RandomSync, Playing) && CycleScript[13] == (Chaos, Settling) &&
            CycleScript[14] == (Wave, Transitioning)
  {
  }

  /** The cycle repeats for ever: `k` cycles show CycleScript `k` times. */
  lemma CycleForever(w: World, k: nat)
    requires CycleStart(w)
    ensures Trace(w, 16 * k) == Repeat(CycleScript, k)
  {
    FiredRounds();
    forall v | CycleStart(v)
      ensures CycleStart(Iterate(Fired, v, 16)) && Observe(Fired, Shown, v, 16) == CycleScript
    {
      CycleWith(Fired, v);
    }
    ObservePeriodic(Fired, Shown, CycleStart, w, 16, CycleScript, k);
  }

  /** From the first mount on, the component cycles through CycleScript for ever. */
  lemma MountedCycles(start: int, k: nat)
    ensures Trace(Mounted(Initial(start), false), 16 * k) == Repeat(CycleScript, k)
  {
    FirstMount(start);
    CycleForever(Mounted(Initial(start), false), k);
  }
}
