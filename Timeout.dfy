/**
 * The countdown timeout of the system services.
 *
 * A `TimeSpan` is a signed count of ticks. Time only moves through explicit
 * `Tick(elapsed)` calls (the timer service's tick event is the caller), so
 * the timer is deterministic. The `Elapsed` event is the `fired` result of
 * `Tick`; the class counts firings since the last arm in a ghost field.
 */
module Timers {

  /** The observable state of a timeout: its fields `_duration`, `_timeLeft` and `IsEnabled`. */
  datatype TimerState = TimerState(duration: int, timeLeft: int, isEnabled: bool) {

    /** `_timeLeft > TimeSpan.Zero` */
    predicate IsRunning() {
      timeLeft > 0
    }

    /** `_timeLeft == TimeSpan.Zero` */
    predicate IsElapsed() {
      timeLeft == 0
    }

    /** `Start(duration)`: arm with the given duration and enable. */
    function Start(d: int): (r: TimerState)
      ensures r.duration == d && r.timeLeft == d && r.isEnabled
      ensures r.IsRunning() <==> d > 0
    {
      TimerState(d, d, true)
    }

    /** `Restart()`: arm again with the last duration. */
    function Restart(): (r: TimerState)
      ensures r.duration == duration && r.timeLeft == duration && r.isEnabled
    {
      Start(duration)
    }

    /**
     * `Tick(elapsed)`: a no-op unless enabled and running; otherwise counts
     * down and, on reaching zero or below, clamps to zero and fires.
     */
    function Tick(elapsed: int): (r: TickOutcome)
      ensures r.state.duration == duration && r.state.isEnabled == isEnabled
      ensures !(isEnabled && IsRunning()) ==> r.state == this && !r.fired
      ensures r.fired <==> isEnabled && IsRunning() && elapsed >= timeLeft
      ensures r.fired ==> r.state.IsElapsed() && !r.state.IsRunning()
      ensures isEnabled && IsRunning() && !r.fired ==> r.state.timeLeft == timeLeft - elapsed
    {
      if !isEnabled || !IsRunning() then TickOutcome(this, false)
      else
        var left := timeLeft - elapsed;
        if left <= 0 then TickOutcome(this.(timeLeft := 0), true)
        else TickOutcome(this.(timeLeft := left), false)
    }

    /** `Stop()`: disable and zero the time left, without firing. */
    function Stop(): (r: TimerState)
      ensures r.duration == duration
      ensures !r.isEnabled && r.IsElapsed() && !r.IsRunning()
    {
      TimerState(duration, 0, false)
    }
  }

  datatype TickOutcome = TickOutcome(state: TimerState, fired: bool)

  /** The outcome of a run of ticks: the final state and how often `Elapsed` fired. */
  datatype RunOutcome = RunOutcome(state: TimerState, fires: nat)

  function RunTicks(s: TimerState, ticks: seq<int>): RunOutcome
    decreases |ticks|
  {
    if ticks == [] then RunOutcome(s, 0)
    else
      var t := s.Tick(ticks[0]);
      var rest := RunTicks(t.state, ticks[1..]);
      RunOutcome(rest.state, rest.fires + if t.fired then 1 else 0)
  }

  function Sum(ticks: seq<int>): int
    decreases |ticks|
  {
    if ticks == [] then 0 else ticks[0] + Sum(ticks[1..])
  }

  /** A timer that is not both enabled and running stays put and never fires. */
  lemma {:induction false} IdleTimerNeverFires(s: TimerState, ticks: seq<int>)
    requires !(s.isEnabled && s.IsRunning())
    ensures RunTicks(s, ticks) == RunOutcome(s, 0)
    decreases |ticks|
  {
    if ticks != [] {
      IdleTimerNeverFires(s, ticks[1..]);
    }
  }

  /** Whatever the ticks, `Elapsed` fires at most once, and only for an armed, enabled timer. */
  lemma {:induction false} FiresAtMostOnce(s: TimerState, ticks: seq<int>)
    ensures RunTicks(s, ticks).fires <= if s.isEnabled && s.IsRunning() then 1 else 0
    ensures RunTicks(s, ticks).state.duration == s.duration
    decreases |ticks|
  {
    if ticks == [] {
    } else if !(s.isEnabled && s.IsRunning()) {
      IdleTimerNeverFires(s, ticks);
    } else {
      var t := s.Tick(ticks[0]);
      FiresAtMostOnce(t.state, ticks[1..]);
      if t.fired {
        IdleTimerNeverFires(t.state, ticks[1..]);
      }
    }
  }

  /** Every arm by `Start` allows at most one firing. */
  lemma StartFiresAtMostOnce(s: TimerState, d: int, ticks: seq<int>)
    ensures RunTicks(s.Start(d), ticks).fires <= 1
  {
    FiresAtMostOnce(s.Start(d), ticks);
  }

  /**
   * With non-negative elapsed times, an enabled running timer fires exactly
   * when the elapsed times add up to its time left, and ends clamped at zero
   * or at what is left.
   */
  lemma {:induction false} FiresExactlyWhenDue(s: TimerState, ticks: seq<int>)
    requires s.isEnabled && s.IsRunning()
    requires forall i :: 0 <= i < |ticks| ==> ticks[i] >= 0
    ensures RunTicks(s, ticks).fires == if Sum(ticks) >= s.timeLeft then 1 else 0
    ensures RunTicks(s, ticks).state.timeLeft == if Sum(ticks) >= s.timeLeft then 0 else s.timeLeft - Sum(ticks)
    decreases |ticks|
  {
    if ticks != [] {
      var t := s.Tick(ticks[0]);
      assert forall i :: 0 <= i < |ticks[1..]| ==> ticks[1..][i] >= 0 by {
        forall i | 0 <= i < |ticks[1..]| ensures ticks[1..][i] >= 0 {
          assert ticks[1..][i] == ticks[i + 1];
        }
      }
      NonNegativeSum(ticks[1..]);
      if t.fired {
        IdleTimerNeverFires(t.state, ticks[1..]);
      } else {
        FiresExactlyWhenDue(t.state, ticks[1..]);
      }
    }
  }

  lemma {:induction false} NonNegativeSum(ticks: seq<int>)
    requires forall i :: 0 <= i < |ticks| ==> ticks[i] >= 0
    ensures Sum(ticks) >= 0
    decreases |ticks|
  {
    if ticks != [] {
      assert forall i :: 0 <= i < |ticks[1..]| ==> ticks[1..][i] >= 0 by {
        forall i | 0 <= i < |ticks[1..]| ensures ticks[1..][i] >= 0 {
          assert ticks[1..][i] == ticks[i + 1];
        }
      }
      NonNegativeSum(ticks[1..]);
    }
  }

  /** `Restart` is `Start` with the current duration, from any state. */
  lemma RestartIsStartWithDuration(s: TimerState)
    ensures s.Restart() == s.Start(s.duration)
    ensures s.Restart().timeLeft == s.duration && s.Restart().isEnabled
  {
  }

  /** After `Stop`, ticks change nothing and never fire. */
  lemma StoppedTimerIsInert(s: TimerState, ticks: seq<int>)
    ensures RunTicks(s.Stop(), ticks) == RunOutcome(s.Stop(), 0)
  {
    IdleTimerNeverFires(s.Stop(), ticks);
  }

  /** A timeout is never running and elapsed at once. */
  lemma RunningAndElapsedExclude(s: TimerState)
    ensures !(s.IsRunning() && s.IsElapsed())
  {
  }

  class Timeout {
    var duration: int
    var timeLeft: int
    /** The public `IsEnabled` property; callers may also set it directly. */
    var isEnabled: bool
    /** How often `Elapsed` has fired since the last `Start` or `Restart`. */
    ghost var firesSinceStart: nat

    ghost predicate Valid()
      reads this
    {
      firesSinceStart <= 1 && (firesSinceStart == 1 ==> timeLeft == 0)
    }

    function State(): TimerState
      reads this
    {
      TimerState(duration, timeLeft, isEnabled)
    }

    /** `Timeout(timerService)`: zero duration, nothing left, enabled. */
    constructor ()
      ensures Valid()
      ensures State() == TimerState(0, 0, true) && firesSinceStart == 0
    {
      duration, timeLeft, isEnabled := 0, 0, true;
      firesSinceStart := 0;
    }

    /** `Timeout(timerService, duration)`: constructed, then started. */
    constructor WithDuration(d: int)
      ensures Valid()
      ensures State() == TimerState(0, 0, true).Start(d) && firesSinceStart == 0
    {
      duration, timeLeft, isEnabled := 0, 0, true;
      firesSinceStart := 0;
      new;
      Start(d);
    }

    function Duration(): (d: int)
      reads this
      ensures d == State().duration
    {
      duration
    }

    function IsRunning(): (b: bool)
      reads this
      ensures b <==> State().IsRunning()
      ensures b ==> !IsElapsed()
    {
      timeLeft > 0
    }

    function IsElapsed(): (b: bool)
      reads this
      ensures b <==> State().IsElapsed()
    {
      timeLeft == 0
    }

    method Start(d: int)
      modifies this
      ensures Valid()
      ensures State() == old(State()).Start(d) && firesSinceStart == 0
    {
      duration := d;
      timeLeft := d;
      isEnabled := true;
      firesSinceStart := 0;
    }

    method Restart()
      modifies this
      ensures Valid()
      ensures State() == old(State()).Restart() && firesSinceStart == 0
    {
      Start(duration);
    }

    /** Returns whether `Elapsed` fired. */
    method Tick(elapsed: int) returns (fired: bool)
      requires Valid()
      modifies this
      ensures Valid()
      ensures State() == old(State()).Tick(elapsed).state
      ensures fired == old(State()).Tick(elapsed).fired
      ensures firesSinceStart == old(firesSinceStart) + if fired then 1 else 0
      ensures fired ==> old(firesSinceStart) == 0
    {
      fired := false;
      if !isEnabled || !IsRunning() {
        return;
      }
      timeLeft := timeLeft - elapsed;
      if timeLeft <= 0 {
        timeLeft := 0;
        fired := true;
        firesSinceStart := firesSinceStart + 1;
      }
    }

    method Stop()
      requires Valid()
      modifies this
      ensures Valid()
      ensures State() == old(State()).Stop() && firesSinceStart == old(firesSinceStart)
    {
      isEnabled := false;
      timeLeft := 0;
    }
  }
}
