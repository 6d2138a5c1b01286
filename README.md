# Roller-shutter automation, countdown timeout and motion vector — a Dafny model

This project models three pieces of the HA4IoT / Wirehome home-automation
system and proves properties of them.

* **The roller-shutter automation** (`RollerShutterAutomation.dfy`, module
  `Automations`). Once per scheduler tick, `PerformPendingActions` decides
  among these cases, in a fixed order:
  * nothing, when the automation is disabled;
  * a safety close when it is too hot outside;
  * the sunrise branch: time gate, too cold, too hot, skip once, or open;
  * the sunset branch: too cold, skip once, or close.
  It then sends one command to every registered shutter. Three in-memory
  flags (`maxOutsideTemperatureApplied`, `autoOpenIsApplied`,
  `autoCloseIsApplied`) keep each action from repeating within a day or
  night window. The class `RollerShutterAutomation` keeps the source's
  fields and control flow. Its tick method is proved to do exactly what the
  pure function `Step` describes. The properties are lemmas about `Step`
  and about `Run`, which runs a sequence of ticks.
  Collaborators are inputs to the tick (an `Environment`):
  * the outdoor temperature;
  * the current time;
  * whether the day condition holds;
  * the set of shutter ids whose component throws when it executes a command.
  Commands executed, settings written back (`SetSettings`) and notifications
  are appended to ghost logs.
* **The countdown timeout** (`Timeout.dfy`, module `Timers`). The class
  `Timeout` has the source's fields and its `Start`, `Restart`, `Tick` and
  `Stop` methods. A `TimeSpan` is an integer tick count, and the `Elapsed`
  event is the boolean that `Tick` returns. Each method is proved against a
  pure transition on `TimerState`. Lemmas over runs of ticks prove that
  `Elapsed` fires at most once per arm and, for non-negative elapsed times,
  exactly when the elapsed times reach the time left.
* **The motion vector** (`MotionVector.dfy`, module `MotionModel`). This is
  an ordered pair of motion points, with `Contains`, equality, hash code and
  text form. A motion point is a type parameter with decidable equality.
  The parameterless constructor leaves both points null, so the points are
  `Option`s. Where the C# would dereference a null point, the model returns
  `Err(NullReference)`.

`Wrappers.dfy` holds the `Option`, `Result` and `Outcome` datatypes.

Points where the code's behaviour is easy to misread, which the model keeps:

* There is no per-shutter error handling. A shutter that throws ends the
  fan-out (`InvokeCommand`, lines 237-243 of the automation), and the
  exception then ends the tick.
  * The model records the commands sent before the failure and reports the
    tick as faulted.
  * In the sunrise-open and sunset-close paths, the flags are assigned only
    after the command, so a fault leaves the flags unchanged and the next
    tick retries.
  * In the safety close, the flag and the notification come before the
    command, so they survive a fault.
* The skip-once flags are cleared by writing to the settings object in
  place, and then `SetSettings` is called with that same object.
* Commands go to the shutters in list order.
* A repeated tick is not always quiet after one tick. A safety close at
  night leaves the sunset branch pending, so the next tick under the same
  conditions sends `MoveDown` to every shutter again (lines 82-89, then
  100-102 and 185). Quiet is reached after two ticks without fault
  (`SafetyCloseAtNightIsFollowedBySunsetClose`, `TicksSettleAfterTwo`).
* Equality of motion vectors is not symmetric once a start point is null.
  A default-built vector compares unequal to a constructed one, while the
  reverse comparison throws (`NullStartBreaksSymmetry`).

## Model

| member | source | states |
|---|---|---|
| `Automations.Deliver` | Core/HA4IoT/Automations/RollerShutterAutomation.cs:237-243 | the fan-out sends the same command to a prefix of the shutter list, in order; it covers the whole list exactly when no shutter throws; when it stops early, the next shutter is one that throws |
| `Automations.RollerShutterAutomation.InvokeCommand` | Core/HA4IoT/Automations/RollerShutterAutomation.cs:237-243 | the loop appends exactly `Deliver`'s commands to the command log and reports whether every shutter accepted |
| `Automations.RollerShutterAutomation.WithRollerShutters` | Core/HA4IoT/Automations/RollerShutterAutomation.cs:67-73 | a null array fails with ArgumentNull and changes nothing; otherwise the ids are appended in order |
| `Automations.RollerShutterAutomation.constructor` | Core/HA4IoT/Automations/RollerShutterAutomation.cs:22-65 | a new automation has no shutters, all three flags false, the given settings and empty logs |
| `Automations.Step` | Core/HA4IoT/Automations/RollerShutterAutomation.cs:75-104 | a disabled tick changes nothing; a tick never sets both the open and the close flag, and it either assigns them as opposites or leaves them; the settings change only by clearing a skip-once flag, are written back exactly when that happens, and at most one notification is raised |
| `Automations.Sunrise` | Core/HA4IoT/Automations/RollerShutterAutomation.cs:106-153 | the sunrise branch leaves the flags as they were, or sets open and clears close; it never touches the sunset skip flag; a faulted opening raises no notification |
| `Automations.Sunset` | Core/HA4IoT/Automations/RollerShutterAutomation.cs:167-193 | the sunset branch never changes the safety flag; it leaves the flags as they were, or clears open and sets close; it never touches the sunrise skip flag |
| `Automations.RollerShutterAutomation.PerformPendingActions` | Core/HA4IoT/Automations/RollerShutterAutomation.cs:75-104 | one tick changes the flags, the settings and the three logs exactly as `Step` says, keeps the open/close complement invariant, and reports a fault exactly when `Step` does |
| `Automations.RollerShutterAutomation.PerformPendingSunriseActions` | Core/HA4IoT/Automations/RollerShutterAutomation.cs:106-153 | the sunrise branch changes the object exactly as `Sunrise` says |
| `Automations.RollerShutterAutomation.PerformPendingSunsetActions` | Core/HA4IoT/Automations/RollerShutterAutomation.cs:167-193 | the sunset branch changes the object exactly as `Sunset` says |
| `Automations.TooHotIsAffected` | Core/HA4IoT/Automations/RollerShutterAutomation.cs:206-215 | too hot holds exactly when the auto-close-if-too-hot flag is set and the temperature is strictly above its threshold |
| `Automations.TooColdIsAffected` | Core/HA4IoT/Automations/RollerShutterAutomation.cs:217-226 | too cold holds exactly when the skip-if-frozen flag is set and the temperature is strictly below its threshold |
| `Automations.DoNotOpenDueToTimeIsAffected` | Core/HA4IoT/Automations/RollerShutterAutomation.cs:195-204 | the time gate holds exactly when the skip-before-timestamp flag is set and that timestamp is strictly later than the current time |
| `Automations.SafetyCloseAtNightIsFollowedBySunsetClose` | Core/HA4IoT/Automations/RollerShutterAutomation.cs:82-102 | after a safety close at night with auto-close on, the next tick under the same conditions runs the sunset branch and sends `MoveDown` to every shutter again |
| `Automations.SafetyCloseSendsMoveDownTwice` | Core/HA4IoT/Automations/RollerShutterAutomation.cs:82-102 | one shutter, 31 degrees against a threshold of 30, at night: two identical ticks each send `MoveDown` to it |
| `Automations.ConditionsAreStrict` | Core/HA4IoT/Automations/RollerShutterAutomation.cs:195-226 | too hot, too cold and the time gate are strict comparisons: none holds at its own threshold; none holds when its enable flag is off |
| `Automations.HotCloseTakesPrecedence` | Core/HA4IoT/Automations/RollerShutterAutomation.cs:82-89 | when the safety flag is clear and it is too hot, the tick sets that flag, sends `MoveDown` to the shutters, raises the high-temperature notification, leaves the open/close flags and settings alone, and its outcome does not depend on day or night |
| `Automations.SunriseGateDefers` | Core/HA4IoT/Automations/RollerShutterAutomation.cs:106-111 | a sunrise tick before the skip-before timestamp changes nothing and sends nothing; once the time reaches the timestamp, the same tick applies the sunrise branch or faults |
| `Automations.SkipOnceAtSunrise` | Core/HA4IoT/Automations/RollerShutterAutomation.cs:134-152 | at sunrise with skip-once set, the flag is cleared and written back with exactly one `SetSettings`; no command is sent; the flags become open=true, close=false, safety=false |
| `Automations.SkipOnceAtSunset` | Core/HA4IoT/Automations/RollerShutterAutomation.cs:175-192 | at sunset with skip-once set and not too cold, the flag is cleared and written back once, no command is sent, and the flags become open=false, close=true |
| `Automations.MaxTemperatureResetOnlyAtSunrise` | Core/HA4IoT/Automations/RollerShutterAutomation.cs:106-193 | the safety flag goes from true to false exactly when a sunrise branch gets past the gate and both temperature checks without fault; a too-cold sunrise and every sunset keep it |
| `Automations.RepeatedTickIsQuiet` | Core/HA4IoT/Automations/RollerShutterAutomation.cs:82-103 | after a tick that neither took the safety close nor faulted, repeating it with the same temperature, time, day state and settings sends nothing and changes nothing |
| `Automations.TicksSettleAfterTwo` | Core/HA4IoT/Automations/RollerShutterAutomation.cs:82-103 | under unchanged conditions, after two ticks without fault a third does nothing, even when the first was the safety close |
| `Automations.ConstantConditionsSettle` | Core/HA4IoT/Automations/RollerShutterAutomation.cs:75-104 | under unchanged conditions, any number of further ticks after those two sends nothing and changes nothing |
| `Automations.QuietTickStaysQuiet` | Core/HA4IoT/Automations/RollerShutterAutomation.cs:75-104 | a tick that does nothing does nothing however often it is repeated |
| `Automations.RunKeepsFlagsComplementary` | Core/HA4IoT/Automations/RollerShutterAutomation.cs:117-192 | no sequence of ticks, under any conditions, leaves both the open and the close flag set |
| `Automations.SkipOnceThenOpenNextMorning` | Core/HA4IoT/Automations/RollerShutterAutomation.cs:134-153 | the skip-once flag suppresses exactly one opening: the first morning sends nothing and clears it, and after the next sunset the following morning sends `MoveUp` to every shutter |
| `Timers.TimerState.Start` | SDK/HA4IoT/Services/System/Timeout.cs:38-44 | after `Start(d)` the duration and the time left are `d` and the timer is enabled; it runs exactly when `d` is positive |
| `Timers.TimerState.Restart` | SDK/HA4IoT/Services/System/Timeout.cs:46-49 | `Restart` sets the time left back to the duration and re-enables |
| `Timers.TimerState.Tick` | SDK/HA4IoT/Services/System/Timeout.cs:51-64 | a tick while disabled or not running changes nothing and does not fire; it fires exactly when it is enabled, running and the elapsed time covers the time left, and then the time left is clamped to 0; otherwise it counts down; duration and enabled flag never change |
| `Timers.TimerState.Stop` | SDK/HA4IoT/Services/System/Timeout.cs:66-70 | after `Stop` the timer is disabled, elapsed and not running, and its duration is unchanged |
| `Timers.RunningAndElapsedExclude` | SDK/HA4IoT/Services/System/Timeout.cs:34-36 | a timeout is never running and elapsed at once |
| `Timers.IdleTimerNeverFires` | SDK/HA4IoT/Services/System/Timeout.cs:53-56 | a timer that is disabled or not running stays unchanged and never fires, whatever ticks arrive |
| `Timers.FiresAtMostOnce` | SDK/HA4IoT/Services/System/Timeout.cs:51-64 | over any sequence of ticks, `Elapsed` fires at most once, and not at all unless the timer was enabled and running; the duration never changes |
| `Timers.StartFiresAtMostOnce` | SDK/HA4IoT/Services/System/Timeout.cs:38-64 | after a `Start`, `Elapsed` fires at most once over any sequence of ticks |
| `Timers.FiresExactlyWhenDue` | SDK/HA4IoT/Services/System/Timeout.cs:51-64 | with non-negative elapsed times, an enabled running timer fires exactly once when the elapsed times add up to its time left and never otherwise; it ends at zero, or at what is left |
| `Timers.RestartIsStartWithDuration` | SDK/HA4IoT/Services/System/Timeout.cs:46-49 | `Restart()` equals `Start(Duration)` from every state |
| `Timers.StoppedTimerIsInert` | SDK/HA4IoT/Services/System/Timeout.cs:66-70 | after `Stop`, no sequence of ticks changes the timer or fires |
| `Timers.Timeout.constructor` | SDK/HA4IoT/Services/System/Timeout.cs:11-19 | a new timeout has zero duration, nothing left, and is enabled |
| `Timers.Timeout.WithDuration` | SDK/HA4IoT/Services/System/Timeout.cs:21-26 | the constructor with a duration leaves the timer started with it |
| `Timers.Timeout.Duration` | SDK/HA4IoT/Services/System/Timeout.cs:30 | the getter gives the stored duration |
| `Timers.Timeout.IsRunning` | SDK/HA4IoT/Services/System/Timeout.cs:34 | running means time left is positive; a running timer is not elapsed |
| `Timers.Timeout.IsElapsed` | SDK/HA4IoT/Services/System/Timeout.cs:36 | elapsed means time left is exactly zero |
| `Timers.Timeout.Start` | SDK/HA4IoT/Services/System/Timeout.cs:38-44 | the object moves as `TimerState.Start` says and the firing count restarts at zero |
| `Timers.Timeout.Restart` | SDK/HA4IoT/Services/System/Timeout.cs:46-49 | the object moves as `TimerState.Restart` says |
| `Timers.Timeout.Tick` | SDK/HA4IoT/Services/System/Timeout.cs:51-64 | the object moves as `TimerState.Tick` says and returns whether `Elapsed` fired; it fires only if it had not fired since the last arm, so the invariant "at most one firing per arm" is kept |
| `Timers.Timeout.Stop` | SDK/HA4IoT/Services/System/Timeout.cs:66-70 | the object moves as `TimerState.Stop` says, without firing |
| `MotionModel.Empty` | Extensions/Wirehome.Extensions/Motion/MotionModel/MotionVector.cs:11 | the parameterless constructor leaves both points null |
| `MotionModel.Create` | Extensions/Wirehome.Extensions/Motion/MotionModel/MotionVector.cs:12-16 | the constructor stores both points unchanged |
| `MotionModel.Contains` | Extensions/Wirehome.Extensions/Motion/MotionModel/MotionVector.cs:18 | `Contains(p)` holds exactly when `p` is the start or the end point; it throws only on a null start, or on a null end when the start is not `p` |
| `MotionModel.IsEqual` | Extensions/Wirehome.Extensions/Motion/MotionModel/MotionVector.cs:33-37 | when it does not throw, the comparison holds exactly when both points are pairwise equal; it throws only when the other vector's start is null, or its end is null and the starts match |
| `MotionModel.Equals` | Extensions/Wirehome.Extensions/Motion/MotionModel/MotionVector.cs:25-31 | the typed `Equals` is false on null, true on the same reference, and otherwise pointwise equality |
| `MotionModel.EqualsObject` | Extensions/Wirehome.Extensions/Motion/MotionModel/MotionVector.cs:39-45 | `Equals(object)` is false on null and on any other run-time type, true on the same reference, and otherwise pointwise equality |
| `MotionModel.GetHashCode` | Extensions/Wirehome.Extensions/Motion/MotionModel/MotionVector.cs:47-53 | the 32-bit hash throws exactly when the end point is null; with a null start, the hash is the end point's hash (the start contributes 0) |
| `MotionModel.ToString` | Extensions/Wirehome.Extensions/Motion/MotionModel/MotionVector.cs:20-23 | the text is the start's text, then " -> ", then the end's text, with a null point shown as empty |
| `MotionModel.ContainsExactlyEndpoints` | Extensions/Wirehome.Extensions/Motion/MotionModel/MotionVector.cs:18 | on a constructed vector, `Contains(p)` is true exactly for its start and end points |
| `MotionModel.EqualityIsPointwise` | Extensions/Wirehome.Extensions/Motion/MotionModel/MotionVector.cs:33-45 | two constructed vectors are equal exactly when their starts and their ends are equal, for `IsEqual` and for `Equals(object)` |
| `MotionModel.ReversedEqualsOnlyWhenDegenerate` | Extensions/Wirehome.Extensions/Motion/MotionModel/MotionVector.cs:33-37 | the vector is ordered: (a, b) equals (b, a) only when a equals b |
| `MotionModel.EqualityIsEquivalence` | Extensions/Wirehome.Extensions/Motion/MotionModel/MotionVector.cs:33-37 | on constructed vectors, equality is reflexive, symmetric and transitive |
| `MotionModel.NullStartBreaksSymmetry` | Extensions/Wirehome.Extensions/Motion/MotionModel/MotionVector.cs:33-37 | a default-built vector compared with a constructed one gives false, while the reverse comparison throws on the null start |
| `MotionModel.NullAndForeignAreUnequal` | Extensions/Wirehome.Extensions/Motion/MotionModel/MotionVector.cs:25-45 | comparing with null, with an object of another type, or with a vector of a derived run-time type through `Equals(object)` is false |
| `MotionModel.EqualVectorsHashEqually` | Extensions/Wirehome.Extensions/Motion/MotionModel/MotionVector.cs:47-53 | equal vectors have equal hash codes, given that point hashing is a function of the point |

## Left out

- The day condition is not modelled. `isDay` is an input of the tick. The
  sunrise and sunset offsets in the settings only feed that condition, so
  the model's `Settings` omits them (lines 228-235).
- Scheduler registration (line 62) is not modelled. The scheduler's
  periodic call is the caller of `PerformPendingActions`, and `Run` models a
  sequence of such calls.
- The settings monitor that replaces `Settings` on a hot reload (line 60)
  is not modelled. Nor is the registration of the notification text
  (lines 56-58), or the constructor's null checks of its collaborators
  (lines 47-54).
- Each collaborator is read once per tick. The source reads the outdoor
  temperature up to three times in one tick (lines 82, 113 or 169, and
  123) and the time twice (the day condition, and line 198). The model
  reads them from one `Environment`. With that snapshot, the too-hot case
  of the sunrise branch (line 123) is reached only when the safety flag is
  already set.
- Notification texts and the shutter captions are not modelled
  (`GetRollerShutterNames`, lines 155-165). A notification is a tag naming
  which message was raised.
- The order of events across the three logs is not kept. For example, the
  safety close notifies before it sends commands, and the sunrise opening
  sends commands before it notifies. Within each log the order is kept.
- Aliasing of the settings object is not modelled. The automation shares
  that object with the settings service. The model holds the settings as a
  value and logs, on each `SetSettings` call, the value it wrote.
- Automations.Deliver: which shutters throw is an input set of ids,
  taken to be the same for both commands. It covers a failing
  `GetComponent` as well as a failing `ExecuteCommand`. The exception's
  type is not modelled.
- Automations.RollerShutterAutomation.WithRollerShutters: null elements
  inside the array are not modelled. Every element is a constructed shutter
  whose id is a non-null string.
- Timers.Timeout.Tick: overflow of the 64-bit tick count of a
  `TimeSpan` is not modelled. `TimeSpan` subtraction throws on overflow;
  the model's integers are unbounded.
- The timeout's subscription to the timer service and the null check on
  that service (lines 11-19) are not modelled. The service's tick event is
  the caller of `Tick`.
- The `Elapsed` event's subscribers are not modelled. A firing is the
  result of `Tick`, plus a ghost count of firings since the last arm.
- `IsEnabled` has a public setter. It is the public field `isEnabled`,
  which callers may assign directly.
- Motion points are not modelled beyond three things:
  - point equality is Dafny's `==`, and a point compared with null is unequal;
  - point hashing and text come from function parameters;
  - a null `p` passed to `Contains` is not modelled.
