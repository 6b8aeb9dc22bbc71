/**
 The text roulette of the CoinThrow plugin (`ShowTextRoulette`): a count-down
 state machine driven by timer callbacks. `SpinStep(remainingFlips)` shows a
 spinning frame and schedules `SpinStep(remainingFlips - 1)`; at 0 it calls
 `onComplete` and then `HoldResult(10)`, which re-renders the result frame
 and schedules `HoldResult(count - 1)`, until `HoldResult(0)` clears the
 display and schedules nothing.

 A session keeps the two counters and the phase as fields; one call of
 `Step` is one timer callback. The outcome is fixed when the session is made.
 */
module Roulette {

  /** The two faces of the coin, in the order of the `options` array. */
  datatype Side = Heads | Tails

  /** What one callback makes happen, in order. */
  datatype Event =
    | Spin(shown: Side)   // a "Rolling your coin..." centre frame showing `shown`
    | Complete            // the `onComplete` callback runs
    | Hold(shown: Side)   // the "Result:" centre frame showing `shown`
    | Clear               // the centre display is emptied

  /** Which callback is pending: `SpinStep`, `HoldResult`, or none. */
  datatype Phase = Spinning | Holding | Done

  /**
   The pending callback's argument: `SpinStep(remainingFlips)` while
   Spinning, `HoldResult(count)` while Holding. `count` exists in the source
   only once `SpinStep(0)` has run: while Spinning it is unused and kept at 0
   (`SpinningTrace` and `SpinningTime` hold for any value of it).
   */
  datatype Counters = Counters(phase: Phase, remainingFlips: int, count: int)

  /** The counters after one callback and the events it produced. */
  datatype Transition = Transition(next: Counters, emitted: seq<Event>)

  /** The timer a callback leaves behind. */
  datatype Timer = NoTimer | After(delayMs: nat)

  /** `options = { "Heads", "Tails" }`. */
  const OPTIONS: seq<Side> := [Heads, Tails]
  /** `flips`: spinning frames before the result. */
  const FLIPS: nat := 5
  /** `repeats`: how often the result frame is rendered. */
  const REPEATS: nat := 10
  /** `delay = 0.3f` seconds between spinning frames. */
  const SPIN_DELAY_MS: nat := 300
  /** `0.2f` seconds between result frames. */
  const HOLD_DELAY_MS: nat := 200

  /** `isHeads ? "Heads" : "Tails"`. */
  function ResultSide(isHeads: bool): (s: Side)
    ensures s == Heads <==> isHeads
  {
    if isHeads then Heads else Tails
  }

  /** `SpinStep(flips)` is pending. */
  function Initial(): Counters {
    Counters(Spinning, FLIPS, 0)
  }

  predicate WellFormed(c: Counters) {
    c.remainingFlips >= 0 && c.count >= 0
  }

  /** How many callbacks are still to come, at most. */
  function Measure(c: Counters): nat
    requires WellFormed(c)
  {
    match c.phase
    case Spinning => c.remainingFlips + REPEATS + 2
    case Holding => c.count + 1
    case Done => 0
  }

  /** The delay of the timer that is pending in state `c`. */
  function Scheduled(c: Counters): Timer {
    match c.phase
    case Spinning => After(SPIN_DELAY_MS)
    case Holding => After(HOLD_DELAY_MS)
    case Done => NoTimer
  }

  function PendingMs(c: Counters): nat {
    match Scheduled(c)
    case NoTimer => 0
    case After(d) => d
  }

  /** `HoldResult(count)`: clear and stop at 0, otherwise re-render the result and count down. */
  function HoldStep(c: Counters, count: int, isHeads: bool): Transition {
    if count <= 0 then
      Transition(Counters(Done, c.remainingFlips, count), [Clear])
    else
      Transition(Counters(Holding, c.remainingFlips, count - 1), [Hold(ResultSide(isHeads))])
  }

  /** One timer callback. Every callback makes progress, so the machine stops. */
  function Next(c: Counters, isHeads: bool): (t: Transition)
    requires WellFormed(c) && c.phase != Done
    ensures WellFormed(t.next) && Measure(t.next) < Measure(c)
    ensures t.emitted != []
  {
    if c.phase == Spinning then
      if c.remainingFlips > 0 then
        Transition(c.(remainingFlips := c.remainingFlips - 1),
                   [Spin(OPTIONS[c.remainingFlips % |OPTIONS|])])
      else
        var h := HoldStep(c, REPEATS, isHeads);
        Transition(h.next, [Complete] + h.emitted)
    else
      HoldStep(c, c.count, isHeads)
  }

  /** Everything the callbacks from `c` on produce, until none is pending. */
  function Trace(c: Counters, isHeads: bool): seq<Event>
    requires WellFormed(c)
    decreases Measure(c)
  {
    if c.phase == Done then []
    else
      var t := Next(c, isHeads);
      t.emitted + Trace(t.next, isHeads)
  }

  /** Everything one session produces. */
  function FullTrace(isHeads: bool): seq<Event> {
    Trace(Initial(), isHeads)
  }

  /** Time from the callback of `c` until the last callback of the session has run. */
  function RunningMs(c: Counters, isHeads: bool): nat
    requires WellFormed(c)
    decreases Measure(c)
  {
    if c.phase == Done then 0
    else
      var n := Next(c, isHeads).next;
      PendingMs(n) + RunningMs(n, isHeads)
  }

  // ---------------------------------------------------------------------
  // Reference definition of a session, independent of the state machine

  /** The spinning frames of `SpinStep(r)`, ..., `SpinStep(1)`: each shows `options[k % 2]` for its own `k`. */
  function SpinFrames(r: nat): (s: seq<Event>)
    ensures |s| == r
  {
    seq(r, i requires 0 <= i < r => Spin(OPTIONS[(r - i) % |OPTIONS|]))
  }

  function HoldFrames(n: nat, side: Side): (s: seq<Event>)
    ensures |s| == n
  {
    seq(n, i => Hold(side))
  }

  /** Five spinning frames, the completion call, ten result frames, one clear. */
  function Expected(isHeads: bool): seq<Event> {
    SpinFrames(FLIPS) + [Complete] + HoldFrames(REPEATS, ResultSide(isHeads)) + [Clear]
  }

  lemma {:induction false} HoldingTrace(r: int, n: int, isHeads: bool)
    requires r >= 0 && n >= 0
    ensures Trace(Counters(Holding, r, n), isHeads) == HoldFrames(n, ResultSide(isHeads)) + [Clear]
  {
    if n > 0 {
      HoldingTrace(r, n - 1, isHeads);
      assert HoldFrames(n, ResultSide(isHeads))
          == [Hold(ResultSide(isHeads))] + HoldFrames(n - 1, ResultSide(isHeads));
    }
  }

  lemma {:induction false} SpinningTrace(r: int, n: int, isHeads: bool)
    requires r >= 0 && n >= 0
    ensures Trace(Counters(Spinning, r, n), isHeads)
            == SpinFrames(r) + [Complete] + HoldFrames(REPEATS, ResultSide(isHeads)) + [Clear]
  {
    var side := ResultSide(isHeads);
    if r > 0 {
      SpinningTrace(r - 1, n, isHeads);
      assert SpinFrames(r) == [Spin(OPTIONS[r % |OPTIONS|])] + SpinFrames(r - 1);
    } else {
      HoldingTrace(r, REPEATS - 1, isHeads);
      assert HoldFrames(REPEATS, side) == [Hold(side)] + HoldFrames(REPEATS - 1, side);
    }
  }

  /** The state machine produces exactly the reference session. */
  lemma FullTraceIsExpected(isHeads: bool)
    ensures FullTrace(isHeads) == Expected(isHeads)
  {
    SpinningTrace(FLIPS, 0, isHeads);
  }

  /**
   A session shows Tails, Heads, Tails, Heads, Tails while spinning, then
   calls `onComplete`, then shows the drawn side ten times, then clears.
   */
  lemma SessionFrames(isHeads: bool)
    ensures FullTrace(isHeads)
            == [Spin(Tails), Spin(Heads), Spin(Tails), Spin(Heads), Spin(Tails), Complete]
               + HoldFrames(10, ResultSide(isHeads)) + [Clear]
    ensures |FullTrace(isHeads)| == 17
  {
    FullTraceIsExpected(isHeads);
    assert SpinFrames(FLIPS) == [Spin(Tails), Spin(Heads), Spin(Tails), Spin(Heads), Spin(Tails)];
  }

  /** `onComplete` runs exactly once per session, after the last spinning frame. */
  lemma CompleteExactlyOnce(isHeads: bool)
    ensures var tr := FullTrace(isHeads);
            forall i :: 0 <= i < |tr| ==> (tr[i] == Complete <==> i == FLIPS)
    ensures multiset(FullTrace(isHeads))[Complete] == 1
  {
    FullTraceIsExpected(isHeads);
    var side := ResultSide(isHeads);
    var tr := Expected(isHeads);
    assert tr == SpinFrames(FLIPS) + ([Complete] + HoldFrames(REPEATS, side) + [Clear]);
    assert multiset(SpinFrames(FLIPS))[Complete] == 0 by {
      assert Complete !in SpinFrames(FLIPS);
    }
    assert multiset(HoldFrames(REPEATS, side))[Complete] == 0 by {
      assert Complete !in HoldFrames(REPEATS, side);
    }
  }

  /**
   Every result frame shows the drawn outcome, never a side picked by the
   spinning index, and every result frame comes after `onComplete`.
   */
  lemma ResultFramesShowOutcome(isHeads: bool)
    ensures var tr := FullTrace(isHeads);
            forall i :: 0 <= i < |tr| && tr[i].Hold? ==> tr[i].shown == ResultSide(isHeads) && i > FLIPS
    ensures |FullTrace(isHeads)| > FLIPS + 1 && FullTrace(isHeads)[FLIPS + 1] == Hold(ResultSide(isHeads))
  {
    FullTraceIsExpected(isHeads);
  }

  /** The display is cleared exactly once, by the last callback. */
  lemma ClearedOnceAtEnd(isHeads: bool)
    ensures var tr := FullTrace(isHeads);
            tr != [] && tr[|tr| - 1] == Clear && forall i :: 0 <= i < |tr| - 1 ==> tr[i] != Clear
  {
    FullTraceIsExpected(isHeads);
  }

  lemma {:induction false} HoldingTime(r: int, n: int, isHeads: bool)
    requires r >= 0 && n >= 0
    ensures RunningMs(Counters(Holding, r, n), isHeads) == n * HOLD_DELAY_MS
  {
    if n > 0 {
      HoldingTime(r, n - 1, isHeads);
    }
  }

  lemma {:induction false} SpinningTime(r: int, n: int, isHeads: bool)
    requires r >= 0 && n >= 0
    ensures RunningMs(Counters(Spinning, r, n), isHeads) == r * SPIN_DELAY_MS + REPEATS * HOLD_DELAY_MS
  {
    if r > 0 {
      SpinningTime(r - 1, n, isHeads);
    } else {
      HoldingTime(r, REPEATS - 1, isHeads);
    }
  }

  /** From the first spinning frame to the clear, a session takes 5 * 0.3 s + 10 * 0.2 s = 3.5 s. */
  lemma SessionDuration(isHeads: bool)
    ensures RunningMs(Initial(), isHeads) == FLIPS * SPIN_DELAY_MS + REPEATS * HOLD_DELAY_MS == 3500
  {
    SpinningTime(FLIPS, 0, isHeads);
  }

  // ---------------------------------------------------------------------
  // The session object

  /** One run of `ShowTextRoulette`: its counters, its phase, and what it has produced so far. */
  class Session {
    /** The outcome drawn before the roulette started. */
    const isHeads: bool
    var phase: Phase
    var remainingFlips: int
    var count: int
    /** The events produced by the callbacks that have run. */
    var emitted: seq<Event>

    function Current(): Counters
      reads this
    {
      Counters(phase, remainingFlips, count)
    }

    /** What has been produced, followed by what the pending callbacks will produce, is the whole session. */
    ghost predicate Valid()
      reads this
    {
      WellFormed(Current()) && emitted + Trace(Current(), isHeads) == FullTrace(isHeads)
    }

    constructor (isHeads: bool)
      ensures Valid() && this.isHeads == isHeads
      ensures Current() == Initial() && emitted == []
    {
      this.isHeads := isHeads;
      phase, remainingFlips, count := Spinning, FLIPS, 0;
      emitted := [];
    }

    /** Runs the pending callback (`SpinStep` or `HoldResult`) and returns the timer it schedules. */
    method Step() returns (timer: Timer)
      requires Valid() && phase != Done
      modifies this
      ensures Valid()
      ensures Current() == Next(old(Current()), isHeads).next
      ensures emitted == old(emitted) + Next(old(Current()), isHeads).emitted
      ensures timer == Scheduled(Current())
      ensures phase == Done ==> emitted == Expected(isHeads)
    {
      ghost var before := Current();
      if phase == Spinning {
        if remainingFlips > 0 {
          emitted := emitted + [Spin(OPTIONS[remainingFlips % |OPTIONS|])];
          remainingFlips := remainingFlips - 1;
          timer := After(SPIN_DELAY_MS);
        } else {
          emitted := emitted + [Complete];
          timer := HoldResult(REPEATS);
        }
      } else {
        timer := HoldResult(count);
      }
      assert Trace(before, isHeads) == Next(before, isHeads).emitted + Trace(Current(), isHeads);
      if phase == Done {
        FullTraceIsExpected(isHeads);
      }
    }

    /**
     `HoldResult(n)`: re-render the result and count down, or clear at 0.
     A helper of `Step` only, as the source's local function is reachable
     only from `SpinStep(0)` and from itself: called on its own, out of
     those two situations, it does not keep `Valid()`.
     */
    method HoldResult(n: int) returns (timer: Timer)
      requires n >= 0
      modifies this
      ensures remainingFlips == old(remainingFlips)
      ensures Current() == HoldStep(old(Current()), n, isHeads).next
      ensures emitted == old(emitted) + HoldStep(old(Current()), n, isHeads).emitted
      ensures timer == Scheduled(Current())
    {
      if n <= 0 {
        emitted := emitted + [Clear];
        phase, count := Done, n;
        timer := NoTimer;
      } else {
        emitted := emitted + [Hold(ResultSide(isHeads))];
        phase, count := Holding, n - 1;
        timer := After(HOLD_DELAY_MS);
      }
    }
  }

  /** `ShowTextRoulette`: make the session and run `SpinStep(flips)` at once, before returning. */
  method Start(isHeads: bool) returns (s: Session, timer: Timer)
    ensures fresh(s) && s.Valid() && s.isHeads == isHeads
    ensures s.Current() == Counters(Spinning, FLIPS - 1, 0)
    ensures s.emitted == [Spin(Tails)]
    ensures timer == After(SPIN_DELAY_MS)
  {
    s := new Session(isHeads);
    timer := s.Step();
  }

  /**
   The host's timer queue running one session to its end: each pending
   callback runs after its delay, strictly in order. The session produces
   exactly the reference trace and lasts 3.5 s.
   */
  method RunToEnd(isHeads: bool) returns (shown: seq<Event>, elapsedMs: nat)
    ensures shown == Expected(isHeads)
    ensures elapsedMs == FLIPS * SPIN_DELAY_MS + REPEATS * HOLD_DELAY_MS
  {
    var s, timer := Start(isHeads);
    elapsedMs := 0;
    SessionDuration(isHeads);
    while s.phase != Done
      invariant s.Valid() && s.isHeads == isHeads
      invariant timer == Scheduled(s.Current())
      invariant s.phase == Done ==> s.emitted == Expected(isHeads)
      invariant elapsedMs + PendingMs(s.Current()) + RunningMs(s.Current(), isHeads)
                == RunningMs(Initial(), isHeads)
      decreases Measure(s.Current())
    {
      elapsedMs := elapsedMs + timer.delayMs;
      timer := s.Step();
    }
    shown := s.emitted;
  }
}
