# Equalizer, slide navigation and timeline of the Jamie Foxx presentation

This project models the behaviour behind a single-page React presentation: the animated equalizer, the scroll-driven slide navigation and the year timeline. Dafny proves properties of the model.

- **The equalizer's phase sequencer** (`EqualizerSequencer`, `SequencerProperties`, `SequencerCycle`).
  - An effect walks the patterns wave, pulse, zigzag, crescendo, randomSync and then chaos, using chained `setTimeout` callbacks.
  - The callbacks reassign two variables of their closure, `patternIndex` and `timeoutId`, and set the pattern and the phase (pattern, settling, transitioning).
  - The model makes the browser's timer queue, the clock, and each run's closure variables explicit, as a `World`. The functions `Mounted`, `Fired`, `Elapsed` (time passing between timers) and `CleanedUp` say what one step does.
  - The class `Sequencer` holds the same state as fields. Its methods `Mount`, `FireNext`, `Wait` and `Cleanup` are proved to perform those steps and to keep the invariant `Inv`.
  - On top of that, the model proves:
    - the reduced-motion freeze;
    - each round of the cycle, and the whole sixteen-timer, 64.5-second cycle repeating for ever from the first mount;
    - what the cleanup does and does not stop.
- **The pattern generator** (`EqualizerPatterns`): the target heights of each pattern for a bar.
- **The bar animator** (`BarAnimation`): the animation descriptor of each bar, chosen by reduced motion, then phase, then pattern.
- **The page** (`Presentation`):
  - the active slide a scroll selects;
  - the scroll request a slide change makes;
  - the scroll behaviour.
- **The navigation** (`SlideNav`):
  - the arrow-key rule;
  - the fade after scrolling;
  - the one button marked current.
- **The timeline** (`Timeline`): the milestone positions and their entrance delays.

Time is in integer milliseconds. Heights, durations and positions are exact reals. `Math.sin` and `Math.cos` are a parameter: any pair of functions bounded by [-1, 1]. `EventLoop` holds generic facts about repeating a step function. `Content` holds the repository's slide ids and timeline years.

Behaviour of the code worth knowing:
- **Clamping.** The generator clamps only chaos. Pulse, crescendo and randomSync can ask for more than 95; `PulseOvershootsClampRange` shows one case. Only the bar animator clamps every height to [10, 95].
- **Cleanup.** The cleanup reaches only the timer held in `timeoutId`; see Findings.
- **RandomSync duration.** The playing duration of randomSync runs from 3.2 to 4.0 seconds.
- **Advance delay.** Every advance is armed 8000 + 2000 ms after the previous resume (or the mount).

## Model

| member | source | states |
|---|---|---|
| EqualizerPatterns.Clamp | src/components/Equalizer.tsx:72-76 | the result lies in [10, 95]; it is the input inside that range, 10 below it and 95 above it |
| EqualizerPatterns.Fraction | src/components/Equalizer.tsx:46 | `index / totalBars` lies in [0, 1) and times the bar count gives the index back |
| EqualizerPatterns.TargetHeights | src/components/Equalizer.tsx:13-83 | chaos yields five heights and every other pattern three; every height lies between 10 and the pattern's own ceiling (90 for wave, 95 for zigzag and chaos, more than 95 for the others); all patterns but wave and chaos end where they start |
| EqualizerPatterns.PulseFirstBar | src/components/Equalizer.tsx:29-33 | bar 0 of 12 pulses through 30, 65, 30 |
| EqualizerPatterns.ZigzagAlternates | src/components/Equalizer.tsx:35-42 | even bars go 50, 95, 50 and odd bars 95, 50, 95 |
| EqualizerPatterns.CrescendoRises | src/components/Equalizer.tsx:44-49 | crescendo is [b, b+30, b] with b = 20 + 60·index/bars, and b lies in [20, 80) |
| EqualizerPatterns.PulseOvershootsClampRange | src/components/Equalizer.tsx:29-33 | the generator itself does not clamp: bar 11 of 12 asks for more than 95 under pulse |
| BarAnimation.ClampAll | src/components/Equalizer.tsx:209-210 | the same number of heights, each clamped and in [10, 95] |
| BarAnimation.PatternTiming | src/components/Equalizer.tsx:213-237 | every pattern repeats for ever; the duration lies in [0.15, 4.0] (randomSync in [3.2, 4.0]); a delay is set exactly for chaos, crescendo and randomSync and lies in [0, 0.45]; chaos alone uses the sharp curve |
| BarAnimation.BarAnimationFor | src/components/Equalizer.tsx:166-243 | reduced motion wins: a static 30 + 40·index/bars in [30, 70) with duration 0.01; settling: 50 within 2 s, staggered by 0.08·index/bars s, which is less than 0.08; transitioning: 50 followed by the clamped targets, one keyframe more than the targets, 3.5 s; playing: the clamped targets with the pattern's timing; outside reduced motion and settling every keyframe is in [10, 95] |
| BarAnimation.ReducedMotionFourthBar | src/components/Equalizer.tsx:167-172 | bar 3 of 12 under reduced motion is a static 40 percent, whatever the phase and pattern |
| BarAnimation.PlayingDurations | src/components/Equalizer.tsx:219-237 | the playing durations: wave 4.0, pulse 2.5, zigzag 3.0, crescendo 3.8, randomSync 3.2 + 0.4·(index mod 3), chaos 0.15 |
| EqualizerSequencer.Cancel | src/components/Equalizer.tsx:159-163 | `clearTimeout` removes exactly the timer with that handle and keeps the queue in firing order |
| EqualizerSequencer.Fired | src/components/Equalizer.tsx:106-153 | with nothing pending nothing changes; otherwise the clock moves to the first timer's due time; the number of runs and the cleanup held are kept |
| EqualizerSequencer.CleanedUp | src/components/Equalizer.tsx:159-163 | after the cleanup React holds no cleanup any more |
| EqualizerSequencer.Initial | src/components/Equalizer.tsx:87-88 | the first render: wave, pattern phase, no timers, no cleanup; it satisfies the invariant |
| EqualizerSequencer.SetTimeout | src/components/Equalizer.tsx:123-127 | a bare `setTimeout` adds exactly one timer, due `delay` from now, under the next handle, and changes nothing else but the handle counter |
| EqualizerSequencer.Arm | src/components/Equalizer.tsx:119-130 | `timeoutId = setTimeout(...)`: as a bare `setTimeout`, and the run's `timeoutId` becomes the new handle |
| EqualizerSequencer.RunAction | src/components/Equalizer.tsx:108-153 | an advance below index 4 settles with the pattern unchanged and the index one higher; the next one goes straight to chaos, playing, with its end tracked; the end of chaos settles with index 0; a reveal transitions to its pattern; a resume plays and tracks its advance; every callback adds exactly one timer of its own run, later than now, and leaves the clock, the other runs and the cleanup alone |
| EqualizerSequencer.Mounted | src/components/Equalizer.tsx:91-157 | under reduced motion nothing changes; otherwise a new run with index 0 holds the handle of its only timer, an advance 10000 ms from now, and React holds its cleanup; the pattern and phase shown are kept |
| EqualizerSequencer.ElapsedInv | src/components/Equalizer.tsx:91-164 | time passing up to the earliest pending timer (a re-render or unmount between timers) keeps the invariant |
| EqualizerSequencer.RunActionInv | src/components/Equalizer.tsx:108-153 | every callback re-establishes the invariant: at most one pending timer per run, agreeing with its `patternIndex` and `timeoutId`; `patternIndex` stays in 0..5 and `normalPatterns` is read only below 5 |
| EqualizerSequencer.FiredInv | src/components/Equalizer.tsx:106-153 | firing the earliest timer keeps the invariant |
| EqualizerSequencer.MountedInv | src/components/Equalizer.tsx:91-99 | running the effect keeps the invariant |
| EqualizerSequencer.CleanedUpInv | src/components/Equalizer.tsx:159-163 | the cleanup keeps the invariant |
| EqualizerSequencer.CleanedUpStoppingRun | src/components/Equalizer.tsx:159-163 | the corrected cleanup leaves no timer of its run, only removes timers, and keeps the queue well formed |
| EqualizerSequencer.CleanedUpStoppingRunInv | src/components/Equalizer.tsx:159-163 | the corrected cleanup keeps the invariant |
| EqualizerSequencer.Sequencer.constructor | src/components/Equalizer.tsx:87-88 | the fields start as the first render: wave, pattern phase, no timers, no runs |
| EqualizerSequencer.Sequencer.SetTimer | src/components/Equalizer.tsx:123-127 | `setTimeout` queues the callback at now + delay under a new handle and returns that handle |
| EqualizerSequencer.Sequencer.ScheduleNextPattern | src/components/Equalizer.tsx:108-153 | the fields change as `RunAction` says for an advance |
| EqualizerSequencer.Sequencer.RunCallback | src/components/Equalizer.tsx:108-153 | the fields change as `RunAction` says for each of the four callbacks |
| EqualizerSequencer.Sequencer.Mount | src/components/Equalizer.tsx:91-99 | the fields become `Mounted` of the old state: nothing under reduced motion, else a new run with index 0 and its advance armed in `timeoutId`; the invariant is kept |
| EqualizerSequencer.Sequencer.FireNext | src/components/Equalizer.tsx:106-153 | a timer fires exactly when one is pending; the fields become `Fired` of the old state; the invariant is kept |
| EqualizerSequencer.Sequencer.Wait | src/components/Equalizer.tsx:91-164 | the clock moves on to a time no later than the earliest timer; the fields become `Elapsed` of the old state; the invariant is kept |
| EqualizerSequencer.Sequencer.Cleanup | src/components/Equalizer.tsx:159-163 | the fields become `CleanedUp` of the old state (only `timeoutId` is cleared); the invariant is kept |
| EqualizerSequencer.Sequencer.CleanupStoppingRun | src/components/Equalizer.tsx:159-163 | the corrected cleanup on the fields: every timer of the run is cancelled; the invariant is kept |
| SequencerProperties.RunInv | src/components/Equalizer.tsx:106-153 | the invariant holds after any number of timers |
| SequencerProperties.ReducedMotionFreezes | src/components/Equalizer.tsx:91-94 | with reduced motion nothing is scheduled, there is no cleanup, and the component stays at wave and pattern phase however long the event loop runs |
| SequencerProperties.ReducedMotionAfterFirstRenderFreezes | src/components/Equalizer.tsx:91-163 | the real start for a reduced-motion user (first render with reduced motion off, cleanup before any timer fires, the effect again with it on): nothing pending, no cleanup held, wave and playing after any number of timers |
| SequencerProperties.MountedStartsRun | src/components/Equalizer.tsx:99-157 | a (re)started effect adds a run with index 0 whose only timer is an advance 10000 ms later held in its `timeoutId`; older runs' timers are kept; pattern and phase are left as they were |
| SequencerProperties.FirstMount | src/components/Equalizer.tsx:87-157 | the first mount: wave, pattern phase, run 0 with index 0, one advance due at 10000 ms with handle 1 |
| SequencerProperties.StepAdvance | src/components/Equalizer.tsx:108-139 | an advance below index 4 increments the index, enters settling with the pattern unchanged, and schedules the reveal of `normalPatterns[index]` 2000 ms later |
| SequencerProperties.StepAdvanceToChaos | src/components/Equalizer.tsx:108-119 | the advance at index 4 goes straight to chaos in the pattern phase, with no settling, index 5, and the end of chaos 2000 ms later held in `timeoutId` |
| SequencerProperties.StepEndChaos | src/components/Equalizer.tsx:119-122 | the end of chaos enters settling, resets the index to 0 and schedules the reveal of wave 2000 ms later |
| SequencerProperties.StepReveal | src/components/Equalizer.tsx:123-125 | a reveal enters transitioning with its pattern and schedules the resume 500 ms later |
| SequencerProperties.StepResume | src/components/Equalizer.tsx:127-130 | a resume enters the pattern phase and arms the next advance 10000 ms later in `timeoutId` |
| SequencerProperties.NormalRound | src/components/Equalizer.tsx:134-152 | a normal round is three timers and leaves the next pattern playing, 2500 ms after the advance, with the next advance 10000 ms after that |
| SequencerProperties.NormalRoundShows | src/components/Equalizer.tsx:134-152 | a normal round shows settling with the old pattern, then transitioning and pattern phase with `normalPatterns[index]` |
| SequencerProperties.ChaosRound | src/components/Equalizer.tsx:113-133 | the chaos round is four timers and leaves wave playing with index 0, 4500 ms after the advance, with the next advance 10000 ms after that |
| SequencerProperties.ChaosRoundShows | src/components/Equalizer.tsx:113-133 | the chaos round shows chaos without settling first, then settling, then wave transitioning, then wave |
| SequencerProperties.CleanupReachesOnlyTracked | src/components/Equalizer.tsx:159-163 | the cleanup removes its run's timer exactly when that timer is an advance or the end of chaos; other runs' timers are never removed |
| SequencerProperties.CleanupStopsLoneTrackedTimer | src/components/Equalizer.tsx:159-163 | when the run's tracked timer is the only one pending, the cleanup stops every later change |
| SequencerProperties.CleanupDuringSettlingRearms | src/components/Equalizer.tsx:142-150 | a cleanup while settling: the reveal and the resume still fire and a new advance is armed that no cleanup can cancel |
| SequencerProperties.CleanupDuringTransitionRearms | src/components/Equalizer.tsx:147-150 | a cleanup while transitioning: the resume still fires and arms an advance that no cleanup can cancel |
| SequencerProperties.CleanupLeaksAfterFirstAdvance | src/components/Equalizer.tsx:138-144 | mount, first advance, cleanup (reduced motion turned on, the component still mounted): the pulse reveal is still pending and still sets the state to pulse, transitioning |
| SequencerProperties.LeakHiddenUnderReducedMotion | src/components/Equalizer.tsx:167-172 | while reduced motion is on, the leaked pulse reveal changes the state but no bar's descriptor |
| SequencerProperties.ToggleLeavesTwoRuns | src/components/Equalizer.tsx:91-164 | reduced motion turned on 1000 ms after the first advance and off 500 ms later: the old run's pulse reveal survives beside the new run's advance, so two runs drive the component |
| SequencerProperties.StoppingCleanupStopsLoneRun | src/components/Equalizer.tsx:159-163 | with the corrected cleanup, a lone run stops in whatever phase it is in |
| SequencerCycle.CycleScriptShape | src/components/Equalizer.tsx:113-152 | in a cycle every transitioning step follows a settling step; chaos shows in exactly two steps, entered from randomSync in the pattern phase and left by settling; wave comes back through a transition |
| SequencerCycle.FiredRounds | src/components/Equalizer.tsx:106-153 | the event loop performs the normal and chaos rounds as stated |
| SequencerCycle.CycleWith | src/components/Equalizer.tsx:106-153 | four normal rounds and the chaos round bring a run back to wave, index 0, 64500 ms later, showing the cycle's sequence |
| SequencerCycle.CycleOnce | src/components/Equalizer.tsx:106-153 | sixteen timers bring a run at wave back to its start position, showing the cycle's sequence |
| SequencerCycle.CycleForever | src/components/Equalizer.tsx:106-153 | k cycles show the cycle's sequence k times |
| SequencerCycle.MountedCycles | src/components/Equalizer.tsx:87-157 | from the first mount the component shows the cycle's sequence for ever |
| Presentation.ProbePoint | src/pages/Presentation.tsx:33 | the probe point lies half a window below `scrollY` |
| Presentation.Holds | src/pages/Presentation.tsx:36-39 | a section holds a point only from its top edge on, and a section of no height holds none |
| Presentation.StackedSectionsSplit | src/pages/Presentation.tsx:36-39 | of two sections stacked one below the other, a point is held by at most one, every point of the two is held by one, and the boundary belongs to the lower one |
| Presentation.Selected | src/pages/Presentation.tsx:35-42 | the selection is the last section in document order holding the probe point; if none holds it, the active slide is unchanged |
| Presentation.HandleScroll | src/pages/Presentation.tsx:28-43 | with no container the active slide is unchanged; otherwise the loop's result is the selection for the probe point scrollY + innerHeight/2 |
| Presentation.SelectedInRange | src/pages/Presentation.tsx:35-40 | an active slide that indexes a section still does after a scroll |
| Presentation.SelectedIsLastHolder | src/pages/Presentation.tsx:35-41 | a holding section with no holder after it is the one selected |
| Presentation.InitialSlideExists | src/pages/Presentation.tsx:11 | the page starts on slide 0, which exists |
| Presentation.BehaviorFor | src/pages/Presentation.tsx:54-62 | scrolling is instant exactly under reduced motion and smooth otherwise, for `scrollIntoView` (54) and for the container's `scroll-behavior` (62) alike |
| Presentation.SlideChange | src/pages/Presentation.tsx:51-56 | a scroll is requested exactly when the slide's element exists; it targets that slide with the scroll behaviour `BehaviorFor` chooses |
| SlideNav.KeyRequest | src/components/SlideNav.tsx:23-31 | a request is made exactly for ArrowDown below the last slide (the next one) or ArrowUp above the first (the previous one); any other key makes none |
| SlideNav.KeyRequestInRange | src/components/SlideNav.tsx:24-29 | from a slide that exists, a requested slide exists and is a neighbour |
| SlideNav.ArrowKeysInverse | src/components/SlideNav.tsx:24-29 | ArrowUp undoes ArrowDown and ArrowDown undoes ArrowUp |
| SlideNav.Visible | src/components/SlideNav.tsx:11-15 | visible until the first scroll, then exactly when the last scrollY is below 100 |
| SlideNav.Opacity | src/components/SlideNav.tsx:40 | opacity 1 when visible and 0.3 otherwise |
| SlideNav.VisibleForgetsEarlierScrolls | src/components/SlideNav.tsx:15 | only the last scroll event decides visibility and opacity |
| SlideNav.Buttons | src/components/SlideNav.tsx:44-62 | one button per slide; a button has `aria-current="page"` and is highlighted exactly when it is the active slide's |
| SlideNav.ExactlyOneCurrent | src/components/SlideNav.tsx:50 | exactly one button is marked current when the active slide is in range, none otherwise |
| Timeline.Position | src/components/Timeline.tsx:15-22 | the position times the span of years is the years elapsed times 100 |
| Timeline.PositionEnds | src/components/Timeline.tsx:22 | the start year sits at 0 and the end year at 100 |
| Timeline.PositionInRange | src/components/Timeline.tsx:22 | a year in the span sits in [0, 100] |
| Timeline.PositionIncreasing | src/components/Timeline.tsx:22 | later years sit strictly further right |
| Timeline.Positions | src/components/Timeline.tsx:21-22 | one position per milestone, in list order |
| Timeline.RepositoryPositions | src/content/jamie-foxx-music-2010plus.ts:122-129 | the repository's milestones 2010, 2015 and 2026 on 2010 to 2026 sit at 0, 31.25 and 100 |
| Timeline.EntranceDelay | src/components/Timeline.tsx:31 | the delay is non-negative and ten times it is the index |
| Timeline.EntranceDelaysIncrease | src/components/Timeline.tsx:31 | milestones fade in in list order, 0.1 s apart per place |

## Left out

- Rendering is left out because it is markup, not logic: framer-motion playback, the interpolation of keyframes and easing curves, CSS classes, and the `%` string formatting of heights. Heights are modelled as reals.
- The DOM and browser plumbing are left out because their results are taken as parameters: `querySelectorAll`, `offsetTop`/`offsetHeight`, `getElementById`, event-listener registration, and `scrollIntoView` itself. A slide change returns the scroll request instead of performing it.
- The `matchMedia` subscription behind `reducedMotion` is left out; reduced motion is a parameter of `Mount` and of the animator.
- Floating point is left out: every quantity is an exact real or integer, and sine and cosine are abstract bounded functions, so facts like sin(φ + 2π) = sin(φ) are not available.
- The unreachable `default` case of the generator is left out, because the pattern type is closed.
- Division by zero and reversed ranges are left out: the animator requires `index < bars`, and the timeline requires its start year to be before its end year. The one place that renders the timeline passes 2010 to 2026, which meets this.
- React's scheduling is left out. State writes take effect at once, and the cleanup runs before the effect runs again, as `Mount` requires. The re-render that follows a state write is not modelled.
- Late timers are left out: a timer fires exactly at its due time, and time passes only up to the earliest due time, whereas a browser fires a timer at or after it and throttles background tabs. Every delay the model states (the 10000 ms advance, the 64.5-second cycle in `SequencerCycle.CycleWith`) is therefore the shortest the browser allows. What the model proves is the order of each run's callbacks. Across two runs (as after `ToggleLeavesTwoRuns`), late firings can swap the order, because each chain's next delay counts from its own late firing.
- Unmounting is left out as a state of its own: React discards the state writes of an unmounted component, while the model applies every callback's writes. After an unmount, the leaked timers of the Findings row still fire and re-arm for ever, but nothing they write is shown. When reduced motion is turned on, the component stays mounted and the leaked reveal of `CleanupLeaksAfterFirstAdvance` changes its state, but nothing visible: every bar keeps its static reduced-motion descriptor (`LeakHiddenUnderReducedMotion`). The leak shows once reduced motion is turned off again, when the old run and the new one both drive the bars (`ToggleLeavesTwoRuns`).
- The browser's timer queue is modelled by the functions `Insert` and `Cancel`, not by code of the program, since the queue belongs to the browser. Timers with equal due times fire in scheduling order.
- The background animation, the slide shell, the content text and the build configuration carry no logic modelled here. Only the slide ids and the timeline years of the content are transcribed.

## Findings

| source | as written | input that shows it | evidently intended | confidence | as-written member | corrected member |
|---|---|---|---|---|---|---|
| src/components/Equalizer.tsx:159-163 | the cleanup clears only the timer held in `timeoutId`; the reveal and resume timers (123, 127, 142, 147) are never stored, so a cleanup while settling or transitioning leaves them pending, and the resume then arms a new advance that nothing can cancel | mount without reduced motion at time 0, let the advance at 10000 ms fire, then turn reduced motion on, which runs the cleanup while the component stays mounted: the pulse reveal at 12000 ms still fires, sets the state to pulse (not seen while reduced motion is on; seen once it is turned off again, beside the new run), and the loop continues for ever (after an unmount the same timers keep firing, but React discards their writes) | the cleanup stops every timer of its run, so that no callback changes state after disposal | not executed | SequencerProperties.CleanupLeaksAfterFirstAdvance, SequencerProperties.CleanupDuringSettlingRearms | EqualizerSequencer.CleanedUpStoppingRun, SequencerProperties.StoppingCleanupStopsLoneRun |
