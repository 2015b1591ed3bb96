/**
 * The equalizer's phase sequencer: the effect that, unless reduced motion is
 * requested, walks the patterns wave, pulse, zigzag, crescendo, randomSync
 * and chaos through chained timers, with a settling and a transitioning
 * phase between patterns.
 *
 * Time is in integer milliseconds. A `World` is everything the effect reads
 * and writes: the component state (pattern and phase), the clock, the
 * pending timers, one `Closure` per run of the effect (its `patternIndex`
 * and `timeoutId` variables), the next timer handle, and which run's cleanup
 * React still holds. The functions `Mounted`, `Fired`, `Elapsed` and
 * `CleanedUp` say what one step does to a world; the class `Sequencer` performs the same
 * steps on fields and is proved against them.
 */
module EqualizerSequencer {
  import opened Wrappers
  import opened EqualizerPatterns
  import opened EventLoop

  const PatternDuration: int := 8000
  const SettlingDuration: int := 2000
  const ChaosDuration: int := 2000
  /** The fixed delay before a new pattern goes from transitioning to playing. */
  const RevealDuration: int := 500
  /** The delay of every re-armed advance: pattern duration plus settling duration. */
  const AdvanceDelay: int := PatternDuration + SettlingDuration

  /**
   * What a timer does when it fires.
   * Advance: `scheduleNextPattern`.
   * EndChaos: the callback that ends chaos and restarts the cycle.
   * Reveal(next): enter transitioning with pattern `next`.
   * Resume: back to playing, and re-arm the advance.
   */
  datatype Action = Advance | EndChaos | Reveal(next: Pattern) | Resume

  /** A pending `setTimeout`: when it is due, its handle, the run of the effect it belongs to, its callback. */
  datatype Timer = Timer(due: int, handle: nat, closure: nat, action: Action)

  /** The variables one run of the effect closes over. A `timeoutId` of 0 is one never assigned. */
  datatype Closure = Closure(patternIndex: nat, timeoutId: nat)

  datatype World = World(pattern: Pattern, phase: AnimationPhase, now: int,
                         pending: seq<Timer>, closures: seq<Closure>,
                         nextHandle: nat, cleanup: Option<nat>)

  /** The component as it first renders at time `start`: wave, playing, no timers. */
  function Initial(start: int): (r: World)
    ensures r.pattern == Wave && r.phase == Playing && r.now == start
    ensures r.pending == [] && r.cleanup.None? && Inv(r)
  {
    World(Wave, Playing, start, [], [], 1, None)
  }

  /** Timer order: earlier due time first, and among equal due times the one scheduled first. */
  predicate Before(a: Timer, b: Timer)
  {
    a.due < b.due || (a.due == b.due && a.handle < b.handle)
  }

  ghost predicate Sorted(s: seq<Timer>)
  {
    forall i, j :: 0 <= i < j < |s| ==> Before(s[i], s[j])
  }

  /** The timer queue in firing order, with `t` added after every timer that fires no later. */
  function Insert(s: seq<Timer>, t: Timer): (r: seq<Timer>)
    ensures |r| == |s| + 1
  {
    if s == [] || t.due < s[0].due then [t] + s
    else [s[0]] + Insert(s[1..], t)
  }

  /** Inserting adds `t` and keeps every other timer. */
  lemma {:induction false} InsertMembers(s: seq<Timer>, t: Timer)
    ensures forall x :: x in Insert(s, t) <==> x in s || x == t
  {
    if s != [] && !(t.due < s[0].due) {
      InsertMembers(s[1..], t);
      assert s == [s[0]] + s[1..];
    }
  }

  /** The head of a queue in firing order fires before everything behind it. */
  lemma HeadFirst(s: seq<Timer>)
    requires Sorted(s) && s != []
    ensures forall x :: x in s[1..] ==> Before(s[0], x)
  {
    forall x | x in s[1..] ensures Before(s[0], x) {
      var j :| 0 <= j < |s[1..]| && s[1..][j] == x;
      assert s[1..][j] == s[j + 1];
    }
  }

  /** Inserting a timer with a fresh, larger handle keeps the queue in firing order. */
  lemma {:induction false} InsertSorted(s: seq<Timer>, t: Timer)
    requires Sorted(s)
    requires forall x :: x in s ==> x.handle < t.handle
    ensures Sorted(Insert(s, t))
  {
    if s != [] && !(t.due < s[0].due) {
      HeadFirst(s);
      InsertSorted(s[1..], t);
      InsertMembers(s[1..], t);
    }
  }

  /** `clearTimeout(h)`: the queue without the timer whose handle is `h`, if there is one. */
  function Cancel(s: seq<Timer>, h: nat): (r: seq<Timer>)
    ensures forall x :: x in r <==> x in s && x.handle != h
    ensures Sorted(s) ==> Sorted(r)
  {
    if s == [] then []
    else if s[0].handle == h then Cancel(s[1..], h)
    else
      var r := [s[0]] + Cancel(s[1..], h);
      assert Sorted(s) ==> forall x :: x in s[1..] ==> Before(s[0], x) by {
        if Sorted(s) { HeadFirst(s); }
      }
      r
  }

  /**
   * The shape every reachable world has: the queue is in firing order, no
   * timer is overdue, timer handles are positive and below the next one (the
   * handles a browser gives out), and every closure or
   * cleanup a timer names exists.
   */
  ghost predicate Wf(w: World)
  {
    0 < w.nextHandle &&
    Sorted(w.pending) &&
    (forall x :: x in w.pending ==>
       w.now <= x.due && 0 < x.handle < w.nextHandle && x.closure < |w.closures|) &&
    (forall c :: 0 <= c < |w.closures| ==> w.closures[c].timeoutId < w.nextHandle) &&
    (w.cleanup.Some? ==> w.cleanup.value < |w.closures|)
  }

  /**
   * `setTimeout(action, delay)` for run `c`, its handle not stored anywhere:
   * the queue gains exactly one timer, due `delay` from now, under the next
   * handle; nothing else but the handle counter changes.
   */
  function SetTimeout(w: World, delay: int, c: nat, action: Action): (r: World)
    ensures forall x :: x in r.pending <==> x in w.pending || x == Timer(w.now + delay, w.nextHandle, c, action)
    ensures r == w.(pending := r.pending, nextHandle := w.nextHandle + 1)
  {
    InsertMembers(w.pending, Timer(w.now + delay, w.nextHandle, c, action));
    w.(pending := Insert(w.pending, Timer(w.now + delay, w.nextHandle, c, action)),
       nextHandle := w.nextHandle + 1)
  }

  /**
   * `timeoutId = setTimeout(action, delay)` for run `c`: as `SetTimeout`,
   * and run `c` now holds the new timer's handle in `timeoutId`.
   */
  function Arm(w: World, delay: int, c: nat, action: Action): (r: World)
    requires c < |w.closures|
    ensures forall x :: x in r.pending <==> x in w.pending || x == Timer(w.now + delay, w.nextHandle, c, action)
    ensures r.closures == w.closures[c := w.closures[c].(timeoutId := w.nextHandle)]
    ensures r == w.(pending := r.pending, closures := r.closures, nextHandle := w.nextHandle + 1)
  {
    var r := SetTimeout(w, delay, c, action);
    r.(closures := r.closures[c := r.closures[c].(timeoutId := w.nextHandle)])
  }

  /**
   * The callback `action` of run `c`, run at the current time. An advance
   * below the last normal pattern settles with the pattern unchanged; the
   * one after randomSync goes straight to chaos, playing. The end of chaos
   * settles and resets the index to 0; a reveal shows its pattern,
   * transitioning; a resume plays. Every callback schedules exactly one
   * timer, of its own run, and leaves the clock, the other runs and the
   * cleanup alone.
   */
  function RunAction(w: World, c: nat, action: Action): (r: World)
    requires c < |w.closures|
    ensures |r.closures| == |w.closures| && forall k :: 0 <= k < |w.closures| && k != c ==> r.closures[k] == w.closures[k]
    ensures action == Advance && w.closures[c].patternIndex + 1 < |NormalPatterns| ==>
              r.pattern == w.pattern && r.phase == Settling &&
              r.closures[c].patternIndex == w.closures[c].patternIndex + 1
    ensures action == Advance && w.closures[c].patternIndex + 1 >= |NormalPatterns| ==>
              r.pattern == Chaos && r.phase == Playing && r.closures[c].timeoutId == w.nextHandle
    ensures action == EndChaos ==> r.phase == Settling && r.closures[c].patternIndex == 0
    ensures action.Reveal? ==> r.pattern == action.next && r.phase == Transitioning
    ensures action == Resume ==> r.pattern == w.pattern && r.phase == Playing && r.closures[c].timeoutId == w.nextHandle
    ensures r.now == w.now && r.cleanup == w.cleanup && r.nextHandle == w.nextHandle + 1
    ensures |r.pending| == |w.pending| + 1 && forall x :: x in w.pending ==> x in r.pending
    ensures forall x :: x in r.pending && x !in w.pending ==> x.handle == w.nextHandle && x.closure == c && x.due > w.now
  {
    match action
    case Advance =>
      var index := w.closures[c].patternIndex + 1;
      var w1 := w.(closures := w.closures[c := w.closures[c].(patternIndex := index)]);
      if index >= |NormalPatterns| then
        Arm(w1.(phase := Playing, pattern := Chaos), ChaosDuration, c, EndChaos)
      else
        var newPattern := NormalPatterns[index];
        SetTimeout(w1.(phase := Settling), SettlingDuration, c, Reveal(newPattern))
    case EndChaos =>
      var w1 := w.(phase := Settling, closures := w.closures[c := w.closures[c].(patternIndex := 0)]);
      SetTimeout(w1, SettlingDuration, c, Reveal(Wave))
    case Reveal(next) =>
      SetTimeout(w.(phase := Transitioning, pattern := next), RevealDuration, c, Resume)
    case Resume =>
      Arm(w.(phase := Playing), AdvanceDelay, c, Advance)
  }

  /**
   * The event loop fires the first pending timer: the clock moves to its
   * due time and its callback runs. With nothing pending, nothing happens.
   * (In a well-formed world the first timer is the earliest, and its run
   * exists; a timer of an unknown run would just be dropped.)
   */
  function Fired(w: World): (r: World)
    ensures w.pending == [] ==> r == w
    ensures w.pending != [] ==> r.now == w.pending[0].due
    ensures |r.closures| == |w.closures| && r.cleanup == w.cleanup
  {
    if w.pending == [] then w
    else
      var t := w.pending[0];
      var w0 := w.(now := t.due, pending := w.pending[1..]);
      if t.closure < |w.closures| then RunAction(w0, t.closure, t.action) else w0
  }

  /**
   * Time passes without a timer firing: the clock moves on to `t`, no later
   * than the earliest pending timer. This is when the component re-renders
   * with a new `reducedMotion`, or unmounts, between two timers.
   */
  function Elapsed(w: World, t: int): World
    requires w.now <= t && (w.pending == [] || t <= w.pending[0].due)
  {
    w.(now := t)
  }

  /**
   * The effect runs (on mount, and again after its cleanup whenever
   * `reducedMotion` changes). With reduced motion it does nothing and leaves
   * no cleanup; otherwise a new run starts with `patternIndex` 0 and arms
   * the first advance, 10000 ms from now, and its cleanup is the one React
   * holds. The pattern and phase shown are left as they are.
   */
  function Mounted(w: World, reducedMotion: bool): (r: World)
    requires w.cleanup.None?
    ensures reducedMotion ==> r == w
    ensures !reducedMotion ==>
              var c := |w.closures|;
              r.closures == w.closures + [Closure(0, w.nextHandle)] && r.cleanup == Some(c) &&
              r.pattern == w.pattern && r.phase == w.phase && r.now == w.now &&
              (forall x :: x in r.pending <==> x in w.pending || x == Timer(w.now + AdvanceDelay, w.nextHandle, c, Advance))
  {
    if reducedMotion then w
    else
      var c := |w.closures|;
      var w1 := w.(closures := w.closures + [Closure(0, 0)]);
      Arm(w1, AdvanceDelay, c, Advance).(cleanup := Some(c))
  }

  /** The effect's cleanup: `clearTimeout(timeoutId)` of the run it belongs to, if that is set. */
  function CleanedUp(w: World): (r: World)
    requires w.cleanup.Some? ==> w.cleanup.value < |w.closures|
    ensures r.cleanup.None?
  {
    match w.cleanup
    case None => w
    case Some(c) =>
      var id := w.closures[c].timeoutId;
      var pending := if id != 0 then Cancel(w.pending, id) else w.pending;
      w.(pending := pending, cleanup := None)
  }

  /** The queue without any timer of run `c`. */
  function CancelRun(s: seq<Timer>, c: nat): (r: seq<Timer>)
    ensures forall x :: x in r <==> x in s && x.closure != c
    ensures Sorted(s) ==> Sorted(r)
  {
    if s == [] then []
    else if s[0].closure == c then CancelRun(s[1..], c)
    else
      var r := [s[0]] + CancelRun(s[1..], c);
      assert Sorted(s) ==> forall x :: x in s[1..] ==> Before(s[0], x) by {
        if Sorted(s) { HeadFirst(s); }
      }
      r
  }

  /**
   * A cleanup that cancels every timer of its run, in place of `CleanedUp`:
   * whatever timer the run has pending goes, the untracked inner ones
   * included (for instance by clearing every handle the run creates, or by
   * a cancelled flag the callbacks test).
   */
  function CleanedUpStoppingRun(w: World): (r: World)
    requires Wf(w)
    ensures Wf(r) && r.cleanup.None?
    ensures w.cleanup.Some? ==> forall x :: x in r.pending ==> x.closure != w.cleanup.value
    ensures forall x :: x in r.pending ==> x in w.pending
  {
    match w.cleanup
    case None => w
    case Some(c) => w.(pending := CancelRun(w.pending, c), cleanup := None)
  }

  /** The world after the event loop fires `n` timers one after another. */
  function Run(w: World, n: nat): World
  {
    Iterate(Fired, w, n)
  }

  /** What the component shows: its pattern and phase. */
  function Shown(w: World): (Pattern, AnimationPhase)
  {
    (w.pattern, w.phase)
  }

  /** The (pattern, phase) the component shows after each of `n` timers fires. */
  function Trace(w: World, n: nat): (r: seq<(Pattern, AnimationPhase)>)
    ensures |r| == n
  {
    Observe(Fired, Shown, w, n)
  }

  // ---------------------------------------------------------------------------
  // The invariant of the timer chains

  /**
   * How a pending timer of a run agrees with that run's variables: an
   * advance or the end of chaos is the timer held in `timeoutId`, the others
   * are not held anywhere; only the end of chaos is pending with index 5,
   * and a reveal shows the normal pattern at the run's index.
   */
  ghost predicate Agrees(t: Timer, cl: Closure)
  {
    match t.action
    case Advance => cl.patternIndex < 5 && t.handle == cl.timeoutId
    case EndChaos => cl.patternIndex == 5 && t.handle == cl.timeoutId
    case Reveal(p) => cl.patternIndex < 5 && p == NormalPatterns[cl.patternIndex] && t.handle != cl.timeoutId
    case Resume => cl.patternIndex < 5 && t.handle != cl.timeoutId
  }

  /**
   * Every run has at most one pending timer, which agrees with its
   * variables; every run's `patternIndex` lies in 0..5; and no run's
   * `timeoutId` is the handle of a timer of another run.
   */
  ghost predicate Inv(w: World)
  {
    Wf(w) &&
    (forall c :: 0 <= c < |w.closures| ==> w.closures[c].patternIndex <= 5) &&
    (forall x, y :: x in w.pending && y in w.pending && x.closure == y.closure ==> x == y) &&
    (forall x :: x in w.pending ==> Agrees(x, w.closures[x.closure])) &&
    (forall x, c :: x in w.pending && 0 <= c < |w.closures| && x.closure != c ==>
       w.closures[c].timeoutId != x.handle)
  }

  /** What a callback may assume of its run's variables when it fires. */
  ghost predicate Ready(action: Action, cl: Closure)
  {
    match action
    case Advance => cl.patternIndex < 5
    case EndChaos => cl.patternIndex == 5
    case Reveal(p) => cl.patternIndex < 5 && p == NormalPatterns[cl.patternIndex]
    case Resume => cl.patternIndex < 5
  }

  /** The invariant of a world from which the timer of run `c` has just been taken. */
  ghost predicate InvWithout(w: World, c: nat)
  {
    Inv(w) && c < |w.closures| && forall x :: x in w.pending ==> x.closure != c
  }

  /** Changing the variables of a run with no pending timer keeps the rest of the invariant. */
  lemma UpdateRunInv(w: World, c: nat, cl: Closure)
    requires InvWithout(w, c) && cl.patternIndex <= 5 && cl.timeoutId == w.closures[c].timeoutId
    ensures InvWithout(w.(closures := w.closures[c := cl]), c)
  {
    var u := w.(closures := w.closures[c := cl]);
    assert forall x :: x in u.pending ==> u.closures[x.closure] == w.closures[x.closure];
  }

  /** An untracked `setTimeout` for a run with no pending timer restores the invariant. */
  lemma SetTimeoutInv(w: World, delay: int, c: nat, action: Action)
    requires InvWithout(w, c) && 0 < delay
    requires Agrees(Timer(w.now + delay, w.nextHandle, c, action), w.closures[c])
    ensures Inv(SetTimeout(w, delay, c, action))
  {
    var t := Timer(w.now + delay, w.nextHandle, c, action);
    var r := SetTimeout(w, delay, c, action);
    InsertSorted(w.pending, t);
    InsertMembers(w.pending, t);
    assert Wf(r);
    assert forall x :: x in r.pending && x != t ==> x in w.pending && x.closure != c;
  }

  /** `timeoutId = setTimeout(...)` for a run with no pending timer restores the invariant. */
  lemma ArmInv(w: World, delay: int, c: nat, action: Action)
    requires InvWithout(w, c) && 0 < delay
    requires Agrees(Timer(w.now + delay, w.nextHandle, c, action), w.closures[c].(timeoutId := w.nextHandle))
    ensures Inv(Arm(w, delay, c, action))
  {
    var cl := w.closures[c].(timeoutId := w.nextHandle);
    var t := Timer(w.now + delay, w.nextHandle, c, action);
    InsertSorted(w.pending, t);
    InsertMembers(w.pending, t);
    var u := SetTimeout(w, delay, c, action);
    var r := Arm(w, delay, c, action);
    assert r == u.(closures := w.closures[c := cl]);
    assert forall x :: x in r.pending && x != t ==> x in w.pending && r.closures[x.closure] == w.closures[x.closure];
  }

  /** The invariant does not depend on what the component shows. */
  lemma RestyledInv(w: World, c: nat, pattern: Pattern, phase: AnimationPhase)
    requires InvWithout(w, c)
    ensures InvWithout(w.(pattern := pattern, phase := phase), c)
  {
  }

  /** The advance at index 4 restores the invariant: index 5, chaos, its end tracked. */
  lemma AdvanceToChaosInv(w: World, c: nat)
    requires InvWithout(w, c) && w.closures[c].patternIndex == 4
    ensures Inv(RunAction(w, c, Advance))
  {
    var cl := w.closures[c].(patternIndex := 5);
    var w1 := w.(closures := w.closures[c := cl]);
    UpdateRunInv(w, c, cl);
    RestyledInv(w1, c, Chaos, Playing);
    ArmInv(w1.(phase := Playing, pattern := Chaos), ChaosDuration, c, EndChaos);
    assert RunAction(w, c, Advance) == Arm(w1.(phase := Playing, pattern := Chaos), ChaosDuration, c, EndChaos);
  }

  /** An advance below index 4 restores the invariant: settling, and a reveal of the next pattern. */
  lemma AdvanceToNextInv(w: World, c: nat)
    requires InvWithout(w, c) && w.closures[c].patternIndex < 4
    ensures Inv(RunAction(w, c, Advance))
  {
    var index := w.closures[c].patternIndex + 1;
    var cl := w.closures[c].(patternIndex := index);
    var w1 := w.(closures := w.closures[c := cl]);
    UpdateRunInv(w, c, cl);
    RestyledInv(w1, c, w1.pattern, Settling);
    SetTimeoutInv(w1.(phase := Settling), SettlingDuration, c, Reveal(NormalPatterns[index]));
    assert RunAction(w, c, Advance) == SetTimeout(w1.(phase := Settling), SettlingDuration, c, Reveal(NormalPatterns[index]));
  }

  /** The end of chaos restores the invariant: index 0 and a reveal of wave. */
  lemma EndChaosInv(w: World, c: nat)
    requires InvWithout(w, c) && Ready(EndChaos, w.closures[c])
    ensures Inv(RunAction(w, c, EndChaos))
  {
    var cl := w.closures[c];
    var w1 := w.(phase := Settling, closures := w.closures[c := cl.(patternIndex := 0)]);
    UpdateRunInv(w, c, cl.(patternIndex := 0));
    RestyledInv(w.(closures := w.closures[c := cl.(patternIndex := 0)]), c, w.pattern, Settling);
    SetTimeoutInv(w1, SettlingDuration, c, Reveal(Wave));
  }

  /** Running a callback of a run with no other pending timer restores the invariant. */
  lemma RunActionInv(w: World, c: nat, action: Action)
    requires InvWithout(w, c) && Ready(action, w.closures[c])
    ensures Inv(RunAction(w, c, action))
  {
    match action
    case Advance =>
      if w.closures[c].patternIndex == 4 { AdvanceToChaosInv(w, c); } else { AdvanceToNextInv(w, c); }
    case EndChaos => EndChaosInv(w, c);
    case Reveal(next) =>
      RestyledInv(w, c, next, Transitioning);
      SetTimeoutInv(w.(phase := Transitioning, pattern := next), RevealDuration, c, Resume);
    case Resume =>
      RestyledInv(w, c, w.pattern, Playing);
      ArmInv(w.(phase := Playing), AdvanceDelay, c, Advance);
  }

  /** Firing a timer keeps the invariant. */
  lemma FiredInv(w: World)
    requires Inv(w)
    ensures Inv(Fired(w))
  {
    if w.pending != [] {
      var t := w.pending[0];
      var rest := w.pending[1..];
      var c := t.closure;
      HeadFirst(w.pending);
      assert forall x :: x in rest ==> x in w.pending && x.closure != c;
      var w0 := w.(now := t.due, pending := rest);
      assert Agrees(t, w.closures[c]);
      assert InvWithout(w0, c);
      RunActionInv(w0, c, t.action);
    }
  }

  /** Letting time pass up to the earliest timer keeps the invariant: no timer becomes overdue. */
  lemma ElapsedInv(w: World, t: int)
    requires Inv(w) && w.now <= t && (w.pending == [] || t <= w.pending[0].due)
    ensures Inv(Elapsed(w, t))
  {
    if w.pending != [] {
      HeadFirst(w.pending);
    }
  }

  /** Running the effect keeps the invariant: the new run has one tracked advance. */
  lemma MountedInv(w: World, reducedMotion: bool)
    requires Inv(w) && w.cleanup.None?
    ensures Inv(Mounted(w, reducedMotion))
  {
    if !reducedMotion {
      var c := |w.closures|;
      var w1 := w.(closures := w.closures + [Closure(0, 0)]);
      assert InvWithout(w1, c);
      ArmInv(w1, AdvanceDelay, c, Advance);
    }
  }

  /** Cleaning up keeps the invariant: it only removes timers. */
  lemma CleanedUpInv(w: World)
    requires Inv(w)
    ensures Inv(CleanedUp(w))
  {
  }

  /** The cleanup that cancels every timer of its run keeps the invariant: it only removes timers. */
  lemma CleanedUpStoppingRunInv(w: World)
    requires Inv(w)
    ensures Inv(CleanedUpStoppingRun(w))
  {
  }

  // ---------------------------------------------------------------------------
  // The effect, performed on fields

  /**
   * The component's state, the browser's timers and the effect runs'
   * variables as fields. Every method does to `State()` what the function of
   * the same step does to a world, and keeps `Valid()`.
   */
  class Sequencer {
    var pattern: Pattern
    var phase: AnimationPhase
    var now: int
    var pending: seq<Timer>
    var closures: seq<Closure>
    var nextHandle: nat
    var cleanup: Option<nat>

    function State(): World
      reads this
    {
      World(pattern, phase, now, pending, closures, nextHandle, cleanup)
    }

    ghost predicate Valid()
      reads this
    {
      Inv(State())
    }

    /** The first render at time `start`. */
    constructor(start: int)
      ensures State() == Initial(start) && Valid()
    {
      pattern := Wave;
      phase := Playing;
      now := start;
      pending := [];
      closures := [];
      nextHandle := 1;
      cleanup := None;
    }

    /** `setTimeout(action, delay)` for run `c`; the new timer's handle is returned. */
    method SetTimer(delay: int, c: nat, action: Action) returns (handle: nat)
      modifies this
      ensures State() == SetTimeout(old(State()), delay, c, action)
      ensures handle == old(nextHandle)
    {
      handle := nextHandle;
      pending := Insert(pending, Timer(now + delay, handle, c, action));
      nextHandle := nextHandle + 1;
    }

    /** `scheduleNextPattern` of run `c`: the next normal pattern after settling, or chaos at once. */
    method ScheduleNextPattern(c: nat)
      requires c < |closures|
      modifies this
      ensures State() == RunAction(old(State()), c, Advance)
    {
      var index := closures[c].patternIndex + 1;
      closures := closures[c := closures[c].(patternIndex := index)];
      if index >= |NormalPatterns| {
        phase := Playing;
        pattern := Chaos;
        var id := SetTimer(ChaosDuration, c, EndChaos);
        closures := closures[c := closures[c].(timeoutId := id)];
      } else {
        var newPattern := NormalPatterns[index];
        phase := Settling;
        var id := SetTimer(SettlingDuration, c, Reveal(newPattern));
      }
    }

    /** The callback `action` of run `c`. */
    method RunCallback(c: nat, action: Action)
      requires c < |closures|
      modifies this
      ensures State() == RunAction(old(State()), c, action)
    {
      match action
      case Advance =>
        ScheduleNextPattern(c);
      case EndChaos =>
        phase := Settling;
        closures := closures[c := closures[c].(patternIndex := 0)];
        var id := SetTimer(SettlingDuration, c, Reveal(Wave));
      case Reveal(next) =>
        phase := Transitioning;
        pattern := next;
        var id := SetTimer(RevealDuration, c, Resume);
      case Resume =>
        phase := Playing;
        var id := SetTimer(AdvanceDelay, c, Advance);
        closures := closures[c := closures[c].(timeoutId := id)];
    }

    /** The effect runs with the given `reducedMotion`. */
    method Mount(reducedMotion: bool)
      requires Valid() && cleanup.None?
      modifies this
      ensures State() == Mounted(old(State()), reducedMotion) && Valid()
    {
      MountedInv(State(), reducedMotion);
      if !reducedMotion {
        var c := |closures|;
        closures := closures + [Closure(0, 0)];
        var id := SetTimer(AdvanceDelay, c, Advance);
        closures := closures[c := closures[c].(timeoutId := id)];
        cleanup := Some(c);
      }
    }

    /** The clock moves on to `t` with no timer due before it. */
    method Wait(t: int)
      requires Valid() && now <= t && (pending == [] || t <= pending[0].due)
      modifies this
      ensures State() == Elapsed(old(State()), t) && Valid()
    {
      ElapsedInv(State(), t);
      now := t;
    }

    /** The event loop fires the earliest timer, if there is one, and says whether it did. */
    method FireNext() returns (fired: bool)
      requires Valid()
      modifies this
      ensures fired <==> old(pending) != []
      ensures State() == Fired(old(State())) && Valid()
    {
      FiredInv(State());
      if pending == [] {
        return false;
      }
      var t := pending[0];
      now := t.due;
      pending := pending[1..];
      if t.closure < |closures| {
        RunCallback(t.closure, t.action);
      }
      fired := true;
    }

    /** React runs the effect's cleanup (on unmount, or before the effect runs again). */
    method Cleanup()
      requires Valid()
      modifies this
      ensures State() == CleanedUp(old(State())) && Valid()
    {
      CleanedUpInv(State());
      if cleanup.Some? {
        var id := closures[cleanup.value].timeoutId;
        if id != 0 {
          pending := Cancel(pending, id);
        }
        cleanup := None;
      }
    }
    /** The cleanup that cancels every timer of its run, tracked or not. */
    method CleanupStoppingRun()
      requires Valid()
      modifies this
      ensures State() == CleanedUpStoppingRun(old(State())) && Valid()
    {
      CleanedUpStoppingRunInv(State());
      if cleanup.Some? {
        pending := CancelRun(pending, cleanup.value);
        cleanup := None;
      }
    }
  }
}
