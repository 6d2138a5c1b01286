/**
 * The roller-shutter automation: once per scheduler tick it decides whether
 * to close its shutters because it is too hot outside, or to open them at
 * sunrise and close them at sunset, each at most once per day/night window.
 *
 * Everything the automation asks its collaborators during a tick is an
 * `Environment`: the outdoor temperature, the current time, whether the
 * day condition (sunrise and sunset with the configured offsets) holds, and
 * which shutter ids make the component registry or the component throw when
 * a command is executed. Commands sent, settings written back and
 * notifications raised are recorded in ghost logs.
 *
 * `Step` states one tick as a function; the class method
 * `PerformPendingActions` follows the source's control flow and is proved
 * to do exactly what `Step` says.
 */
module Automations {
  import opened Wrappers

  datatype Command = MoveUp | MoveDown

  /** One command executed by one roller shutter. */
  datatype Dispatch = Dispatch(target: string, command: Command)

  /** The notifications the automation raises, one constructor per message. */
  datatype Notification =
    | ClosingDueToHighOutsideTemperature
    | OpeningCancelledTooCold
    | OpeningCancelledTooHot
    | OpeningSkippedOnce
    | OpenedDueToSunrise
    | ClosingCancelledTooCold
    | ClosingSkippedOnce
    | ClosedDueToSunset

  /** The automation's settings (the sunrise and sunset offsets only feed the day condition). */
  datatype Settings = Settings(
    isEnabled: bool,
    autoOpenIsEnabled: bool,
    autoCloseIsEnabled: bool,
    skipNextOpenOnSunrise: bool,
    skipNextCloseOnSunset: bool,
    skipBeforeTimestampIsEnabled: bool,
    skipBeforeTimestamp: int,
    autoCloseIfTooHotIsEnabled: bool,
    autoCloseIfTooHotTemperaure: real,
    skipIfFrozenIsEnabled: bool,
    skipIfFrozenTemperature: real)

  datatype Environment = Environment(
    temperature: real,
    time: int,
    isDay: bool,
    rejecting: set<string>)

  datatype Exception = ArgumentNull

  // ---------------------------------------------------------------------
  // Conditions
  // ---------------------------------------------------------------------

  predicate TooHotIsAffected(s: Settings, temperature: real)
    ensures TooHotIsAffected(s, temperature) <==>
      s.autoCloseIfTooHotIsEnabled && temperature > s.autoCloseIfTooHotTemperaure
  {
    if s.autoCloseIfTooHotIsEnabled && temperature > s.autoCloseIfTooHotTemperaure then true else false
  }

  predicate TooColdIsAffected(s: Settings, temperature: real)
    ensures TooColdIsAffected(s, temperature) <==>
      s.skipIfFrozenIsEnabled && temperature < s.skipIfFrozenTemperature
  {
    if s.skipIfFrozenIsEnabled && temperature < s.skipIfFrozenTemperature then true else false
  }

  predicate DoNotOpenDueToTimeIsAffected(s: Settings, time: int)
    ensures DoNotOpenDueToTimeIsAffected(s, time) <==>
      s.skipBeforeTimestampIsEnabled && s.skipBeforeTimestamp > time
  {
    if s.skipBeforeTimestampIsEnabled && s.skipBeforeTimestamp > time then true else false
  }

  // ---------------------------------------------------------------------
  // Fan-out of one command
  // ---------------------------------------------------------------------

  /** The commands executed by a fan-out, and whether it went through every target. */
  datatype Delivery = Delivery(dispatched: seq<Dispatch>, completed: bool)

  /**
   * `InvokeCommand`: the command goes to each target in list order; the
   * first target that throws ends the loop, and the exception propagates.
   */
  function Deliver(ids: seq<string>, command: Command, rejecting: set<string>): (r: Delivery)
    ensures |r.dispatched| <= |ids|
    ensures forall i :: 0 <= i < |r.dispatched| ==> r.dispatched[i] == Dispatch(ids[i], command)
    ensures forall i :: 0 <= i < |r.dispatched| ==> ids[i] !in rejecting
    ensures r.completed <==> |r.dispatched| == |ids|
    ensures !r.completed ==> ids[|r.dispatched|] in rejecting
    decreases |ids|
  {
    if ids == [] then Delivery([], true)
    else if ids[0] in rejecting then Delivery([], false)
    else
      var rest := Deliver(ids[1..], command, rejecting);
      Delivery([Dispatch(ids[0], command)] + rest.dispatched, rest.completed)
  }

  // ---------------------------------------------------------------------
  // One tick, as a function
  // ---------------------------------------------------------------------

  datatype Flags = Flags(
    maxOutsideTemperatureApplied: bool,
    autoOpenIsApplied: bool,
    autoCloseIsApplied: bool)

  /** Everything one tick leaves behind. `faulted`: a command threw and the tick ended there. */
  datatype Effects = Effects(
    flags: Flags,
    settings: Settings,
    dispatched: seq<Dispatch>,
    settingsWrites: seq<Settings>,
    notifications: seq<Notification>,
    faulted: bool)

  function Quiet(f: Flags, s: Settings): Effects {
    Effects(f, s, [], [], [], false)
  }

  /** Open and close flags assigned as opposites; nothing else changes. */
  predicate Complementary(f: Flags) {
    !(f.autoOpenIsApplied && f.autoCloseIsApplied)
  }

  /** The too-hot safety close, which takes precedence over day and night. */
  predicate HotCloseApplies(f: Flags, s: Settings, env: Environment) {
    s.isEnabled && !f.maxOutsideTemperatureApplied && TooHotIsAffected(s, env.temperature)
  }

  predicate SunriseApplies(f: Flags, s: Settings, env: Environment) {
    s.isEnabled && !HotCloseApplies(f, s, env) && !f.autoOpenIsApplied && env.isDay
  }

  predicate SunsetApplies(f: Flags, s: Settings, env: Environment) {
    s.isEnabled && !HotCloseApplies(f, s, env) && !f.autoCloseIsApplied && !env.isDay
  }

  /**
   * A tick changes the settings only by clearing a skip-once flag, writes
   * them back exactly when it does so, and raises at most one notification.
   */
  predicate OnlyConsumesSkipFlags(s: Settings, r: Effects) {
    && r.settings == s.(skipNextOpenOnSunrise := r.settings.skipNextOpenOnSunrise,
                        skipNextCloseOnSunset := r.settings.skipNextCloseOnSunset)
    && (r.settings.skipNextOpenOnSunrise ==> s.skipNextOpenOnSunrise)
    && (r.settings.skipNextCloseOnSunset ==> s.skipNextCloseOnSunset)
    && r.settingsWrites == (if r.settings == s then [] else [r.settings])
    && |r.notifications| <= 1
  }

  /** `PerformPendingActions` */
  function Step(ids: seq<string>, f: Flags, s: Settings, env: Environment): (r: Effects)
    ensures !s.isEnabled ==> r == Quiet(f, s)
    ensures Complementary(f) ==> Complementary(r.flags)
    ensures r.flags.autoOpenIsApplied != r.flags.autoCloseIsApplied
      || (r.flags.autoOpenIsApplied == f.autoOpenIsApplied && r.flags.autoCloseIsApplied == f.autoCloseIsApplied)
    ensures OnlyConsumesSkipFlags(s, r)
    ensures r.faulted ==> r.notifications == [] || HotCloseApplies(f, s, env)
  {
    if !s.isEnabled then Quiet(f, s)
    else if !f.maxOutsideTemperatureApplied && TooHotIsAffected(s, env.temperature) then
      var d := Deliver(ids, MoveDown, env.rejecting);
      Effects(f.(maxOutsideTemperatureApplied := true), s, d.dispatched, [],
              [ClosingDueToHighOutsideTemperature], !d.completed)
    else if !f.autoOpenIsApplied && env.isDay then Sunrise(ids, f, s, env)
    else if !f.autoCloseIsApplied && !env.isDay then Sunset(ids, f, s, env)
    else Quiet(f, s)
  }

  /** `PerformPendingSunriseActions` */
  function Sunrise(ids: seq<string>, f: Flags, s: Settings, env: Environment): (r: Effects)
    ensures r.flags == f || r.flags.(maxOutsideTemperatureApplied := f.maxOutsideTemperatureApplied) == Flags(f.maxOutsideTemperatureApplied, true, false)
    ensures OnlyConsumesSkipFlags(s, r) && r.settings.skipNextCloseOnSunset == s.skipNextCloseOnSunset
    ensures r.faulted ==> r.notifications == []
  {
    if DoNotOpenDueToTimeIsAffected(s, env.time) then Quiet(f, s)
    else if TooColdIsAffected(s, env.temperature) then
      Effects(f.(autoOpenIsApplied := true, autoCloseIsApplied := false), s, [], [], [OpeningCancelledTooCold], false)
    else if TooHotIsAffected(s, env.temperature) then
      Effects(Flags(true, true, false), s, [], [], [OpeningCancelledTooHot], false)
    else if s.skipNextOpenOnSunrise then
      var s' := s.(skipNextOpenOnSunrise := false);
      Effects(Flags(false, true, false), s', [], [s'], [OpeningSkippedOnce], false)
    else if s.autoOpenIsEnabled then
      var d := Deliver(ids, MoveUp, env.rejecting);
      if d.completed then Effects(Flags(false, true, false), s, d.dispatched, [], [OpenedDueToSunrise], false)
      else Effects(f, s, d.dispatched, [], [], true)
    else Effects(Flags(false, true, false), s, [], [], [], false)
  }

  /** `PerformPendingSunsetActions` */
  function Sunset(ids: seq<string>, f: Flags, s: Settings, env: Environment): (r: Effects)
    ensures r.flags.maxOutsideTemperatureApplied == f.maxOutsideTemperatureApplied
    ensures r.flags == f || r.flags == f.(autoOpenIsApplied := false, autoCloseIsApplied := true)
    ensures OnlyConsumesSkipFlags(s, r) && r.settings.skipNextOpenOnSunrise == s.skipNextOpenOnSunrise
    ensures r.faulted ==> r.notifications == []
  {
    if TooColdIsAffected(s, env.temperature) then
      Effects(f.(autoOpenIsApplied := false, autoCloseIsApplied := true), s, [], [], [ClosingCancelledTooCold], false)
    else if s.skipNextCloseOnSunset then
      var s' := s.(skipNextCloseOnSunset := false);
      Effects(f.(autoOpenIsApplied := false, autoCloseIsApplied := true), s', [], [s'], [ClosingSkippedOnce], false)
    else if s.autoCloseIsEnabled then
      var d := Deliver(ids, MoveDown, env.rejecting);
      if d.completed then
        Effects(f.(autoOpenIsApplied := false, autoCloseIsApplied := true), s, d.dispatched, [], [ClosedDueToSunset], false)
      else Effects(f, s, d.dispatched, [], [], true)
    else Effects(f.(autoOpenIsApplied := false, autoCloseIsApplied := true), s, [], [], [], false)
  }

  // ---------------------------------------------------------------------
  // Many ticks
  // ---------------------------------------------------------------------

  /** Ticks one after another; a faulted tick does not stop the scheduler calling the next one. */
  function Run(ids: seq<string>, f: Flags, s: Settings, envs: seq<Environment>): Effects
    decreases |envs|
  {
    if envs == [] then Quiet(f, s)
    else
      var e := Step(ids, f, s, envs[0]);
      var rest := Run(ids, e.flags, e.settings, envs[1..]);
      Effects(rest.flags, rest.settings,
              e.dispatched + rest.dispatched,
              e.settingsWrites + rest.settingsWrites,
              e.notifications + rest.notifications,
              e.faulted || rest.faulted)
  }

  function Repeat(env: Environment, n: nat): (envs: seq<Environment>)
    ensures |envs| == n && forall i :: 0 <= i < n ==> envs[i] == env
  {
    seq(n, _ => env)
  }

  // ---------------------------------------------------------------------
  // Properties of a tick
  // ---------------------------------------------------------------------

  /** Both temperature conditions are strict and need their enable flag; so is the time gate. */
  lemma ConditionsAreStrict(s: Settings, temperature: real, time: int)
    ensures !TooHotIsAffected(s, s.autoCloseIfTooHotTemperaure)
    ensures !TooColdIsAffected(s, s.skipIfFrozenTemperature)
    ensures !DoNotOpenDueToTimeIsAffected(s, s.skipBeforeTimestamp)
    ensures !s.autoCloseIfTooHotIsEnabled ==> !TooHotIsAffected(s, temperature)
    ensures !s.skipIfFrozenIsEnabled ==> !TooColdIsAffected(s, temperature)
    ensures !s.skipBeforeTimestampIsEnabled ==> !DoNotOpenDueToTimeIsAffected(s, time)
  {
  }

  /**
   * The safety close: the flag is set, every target is sent `MoveDown`,
   * the open and close flags are untouched, and day or night plays no part.
   */
  lemma HotCloseTakesPrecedence(ids: seq<string>, f: Flags, s: Settings, env: Environment)
    requires HotCloseApplies(f, s, env)
    ensures var r := Step(ids, f, s, env); var d := Deliver(ids, MoveDown, env.rejecting);
      && r.flags == f.(maxOutsideTemperatureApplied := true)
      && r.dispatched == d.dispatched && r.faulted == !d.completed
      && r.settings == s && r.settingsWrites == []
      && r.notifications == [ClosingDueToHighOutsideTemperature]
    ensures Step(ids, f, s, env) == Step(ids, f, s, env.(isDay := !env.isDay))
  {
  }

  /** The sunrise time gate: nothing happens, and the sunrise branch runs once the gate time is reached. */
  lemma SunriseGateDefers(ids: seq<string>, f: Flags, s: Settings, env: Environment, later: int)
    requires SunriseApplies(f, s, env) && DoNotOpenDueToTimeIsAffected(s, env.time)
    requires later >= s.skipBeforeTimestamp
    ensures Step(ids, f, s, env) == Quiet(f, s)
    ensures var r := Step(ids, f, s, env.(time := later));
      r.faulted || (r.flags.autoOpenIsApplied && !r.flags.autoCloseIsApplied)
  {
  }

  /** Skip-once at sunrise: the flag is consumed and written back once, no `MoveUp`, flags as after an opening. */
  lemma SkipOnceAtSunrise(ids: seq<string>, f: Flags, s: Settings, env: Environment)
    requires SunriseApplies(f, s, env) && s.skipNextOpenOnSunrise
    requires !DoNotOpenDueToTimeIsAffected(s, env.time)
    requires !TooColdIsAffected(s, env.temperature) && !TooHotIsAffected(s, env.temperature)
    ensures var r := Step(ids, f, s, env);
      && r.settings == s.(skipNextOpenOnSunrise := false)
      && r.settingsWrites == [r.settings]
      && r.dispatched == [] && !r.faulted
      && r.flags == Flags(false, true, false)
      && r.notifications == [OpeningSkippedOnce]
  {
  }

  /** Skip-once at sunset: the flag is consumed and written back once, no `MoveDown`. */
  lemma SkipOnceAtSunset(ids: seq<string>, f: Flags, s: Settings, env: Environment)
    requires SunsetApplies(f, s, env) && s.skipNextCloseOnSunset
    requires !TooColdIsAffected(s, env.temperature)
    ensures var r := Step(ids, f, s, env);
      && r.settings == s.(skipNextCloseOnSunset := false)
      && r.settingsWrites == [r.settings]
      && r.dispatched == [] && !r.faulted
      && r.flags == f.(autoOpenIsApplied := false, autoCloseIsApplied := true)
      && r.notifications == [ClosingSkippedOnce]
  {
  }

  /**
   * The safety flag is cleared only by a sunrise branch that got past the
   * time gate and both temperature checks; a too-cold sunrise and every
   * sunset leave it alone.
   */
  lemma MaxTemperatureResetOnlyAtSunrise(ids: seq<string>, f: Flags, s: Settings, env: Environment)
    ensures var r := Step(ids, f, s, env);
      (f.maxOutsideTemperatureApplied && !r.flags.maxOutsideTemperatureApplied) <==>
        && f.maxOutsideTemperatureApplied && SunriseApplies(f, s, env)
        && !DoNotOpenDueToTimeIsAffected(s, env.time)
        && !TooColdIsAffected(s, env.temperature) && !TooHotIsAffected(s, env.temperature)
        && !r.faulted
    ensures SunriseApplies(f, s, env) && TooColdIsAffected(s, env.temperature) ==>
      Step(ids, f, s, env).flags.maxOutsideTemperatureApplied == f.maxOutsideTemperatureApplied
    ensures SunsetApplies(f, s, env) ==>
      Step(ids, f, s, env).flags.maxOutsideTemperatureApplied == f.maxOutsideTemperatureApplied
  {
  }

  /**
   * Repeat-call idempotence: after a tick that did not take the safety
   * close and did not fault, the same tick again does nothing at all.
   */
  lemma RepeatedTickIsQuiet(ids: seq<string>, f: Flags, s: Settings, env: Environment)
    requires !HotCloseApplies(f, s, env)
    requires !Step(ids, f, s, env).faulted
    ensures var r := Step(ids, f, s, env); Step(ids, r.flags, r.settings, env) == Quiet(r.flags, r.settings)
  {
  }

  /** Under unchanged conditions, two ticks that do not fault leave nothing for a third to do. */
  lemma TicksSettleAfterTwo(ids: seq<string>, f: Flags, s: Settings, env: Environment)
    requires !Step(ids, f, s, env).faulted
    ensures var r1 := Step(ids, f, s, env); var r2 := Step(ids, r1.flags, r1.settings, env);
      !r2.faulted ==> Step(ids, r2.flags, r2.settings, env) == Quiet(r2.flags, r2.settings)
  {
    var r1 := Step(ids, f, s, env);
    var r2 := Step(ids, r1.flags, r1.settings, env);
    if HotCloseApplies(f, s, env) {
      if !r2.faulted {
        RepeatedTickIsQuiet(ids, r1.flags, r1.settings, env);
      }
    } else {
      RepeatedTickIsQuiet(ids, f, s, env);
    }
  }

  /**
   * Two ticks can be needed: a safety close at night leaves the sunset
   * branch pending, so the very next tick under the same conditions sends
   * `MoveDown` to every shutter a second time.
   */
  lemma SafetyCloseAtNightIsFollowedBySunsetClose(ids: seq<string>, f: Flags, s: Settings, env: Environment)
    requires HotCloseApplies(f, s, env) && !env.isDay && !f.autoCloseIsApplied && env.rejecting == {}
    requires s.autoCloseIsEnabled && !s.skipNextCloseOnSunset && !TooColdIsAffected(s, env.temperature)
    ensures var r1 := Step(ids, f, s, env); var r2 := Step(ids, r1.flags, r1.settings, env);
      && r1.dispatched == Deliver(ids, MoveDown, {}).dispatched && !r1.faulted
      && r2.dispatched == Deliver(ids, MoveDown, {}).dispatched && !r2.faulted
      && r2.notifications == [ClosedDueToSunset]
  {
    assert Deliver(ids, MoveDown, {}).completed;
  }

  /** A concrete instance: one shutter, 31 degrees against a threshold of 30, at night. */
  lemma SafetyCloseSendsMoveDownTwice()
    ensures var s := Settings(true, false, true, false, false, false, 0, true, 30.0, false, 0.0);
      var env := Environment(31.0, 0, false, {});
      var r1 := Step(["a"], Flags(false, false, false), s, env);
      var r2 := Step(["a"], r1.flags, r1.settings, env);
      r1.dispatched == [Dispatch("a", MoveDown)] && r2.dispatched == [Dispatch("a", MoveDown)]
  {
    var s := Settings(true, false, true, false, false, false, 0, true, 30.0, false, 0.0);
    var env := Environment(31.0, 0, false, {});
    SafetyCloseAtNightIsFollowedBySunsetClose(["a"], Flags(false, false, false), s, env);
    assert Deliver(["a"], MoveDown, {}).dispatched == [Dispatch("a", MoveDown)];
  }

  // ---------------------------------------------------------------------
  // Properties of runs of ticks
  // ---------------------------------------------------------------------

  /** No sequence of ticks ever leaves both the open and the close flag set. */
  lemma {:induction false} RunKeepsFlagsComplementary(ids: seq<string>, f: Flags, s: Settings, envs: seq<Environment>)
    requires Complementary(f)
    ensures Complementary(Run(ids, f, s, envs).flags)
    decreases |envs|
  {
    if envs != [] {
      var e := Step(ids, f, s, envs[0]);
      RunKeepsFlagsComplementary(ids, e.flags, e.settings, envs[1..]);
    }
  }

  /** Once a tick is quiet, repeating it any number of times stays quiet. */
  lemma {:induction false} QuietTickStaysQuiet(ids: seq<string>, f: Flags, s: Settings, env: Environment, n: nat)
    requires Step(ids, f, s, env) == Quiet(f, s)
    ensures Run(ids, f, s, Repeat(env, n)) == Quiet(f, s)
    decreases n
  {
    if n > 0 {
      assert Repeat(env, n)[1..] == Repeat(env, n - 1);
      QuietTickStaysQuiet(ids, f, s, env, n - 1);
    }
  }

  /**
   * Under unchanged conditions a run of ticks that does not fault sends
   * commands during its first two ticks at most, and changes nothing after.
   */
  lemma {:induction false} ConstantConditionsSettle(ids: seq<string>, f: Flags, s: Settings, env: Environment, n: nat)
    requires !Step(ids, f, s, env).faulted
    requires var r1 := Step(ids, f, s, env); !Step(ids, r1.flags, r1.settings, env).faulted
    ensures var r1 := Step(ids, f, s, env); var r2 := Step(ids, r1.flags, r1.settings, env);
      Run(ids, r2.flags, r2.settings, Repeat(env, n)) == Quiet(r2.flags, r2.settings)
  {
    var r1 := Step(ids, f, s, env);
    var r2 := Step(ids, r1.flags, r1.settings, env);
    TicksSettleAfterTwo(ids, f, s, env);
    QuietTickStaysQuiet(ids, r2.flags, r2.settings, env, n);
  }

  /**
   * Skip-once is consumed exactly once: the morning it is set no `MoveUp`
   * goes out; after the next sunset, the following sunrise opens every
   * shutter again.
   */
  lemma SkipOnceThenOpenNextMorning(ids: seq<string>, f: Flags, s: Settings, morning: Environment, evening: Environment)
    requires s.isEnabled && s.autoOpenIsEnabled && s.skipNextOpenOnSunrise && !s.skipBeforeTimestampIsEnabled
    requires !f.autoOpenIsApplied
    requires morning.isDay && !evening.isDay && evening.rejecting == {}
    requires !TooColdIsAffected(s, morning.temperature) && !TooHotIsAffected(s, morning.temperature)
    requires !TooHotIsAffected(s, evening.temperature)
    ensures var r1 := Step(ids, f, s, morning);
      var r2 := Step(ids, r1.flags, r1.settings, evening);
      var r3 := Step(ids, r2.flags, r2.settings, morning);
      && r1.dispatched == [] && !r1.settings.skipNextOpenOnSunrise
      && r3.dispatched == Deliver(ids, MoveUp, morning.rejecting).dispatched
      && (r3.faulted || r3.notifications == [OpenedDueToSunrise])
  {
    var r1 := Step(ids, f, s, morning);
    assert r1.flags == Flags(false, true, false);
    var r2 := Step(ids, r1.flags, r1.settings, evening);
    assert r2.flags == Flags(false, false, true) by {
      assert Deliver(ids, MoveDown, {}).completed;
    }
  }

  // ---------------------------------------------------------------------
  // The automation object
  // ---------------------------------------------------------------------

  class RollerShutterAutomation {
    const id: string
    var rollerShutters: seq<string>
    var settings: Settings
    var maxOutsideTemperatureApplied: bool
    var autoOpenIsApplied: bool
    var autoCloseIsApplied: bool
    /** The commands executed by the shutters, in order. */
    ghost var dispatched: seq<Dispatch>
    /** Each `SetSettings` call, with the settings it wrote. */
    ghost var settingsWrites: seq<Settings>
    ghost var notifications: seq<Notification>

    ghost predicate Valid()
      reads this
    {
      Complementary(AppliedFlags())
    }

    function AppliedFlags(): Flags
      reads this
    {
      Flags(maxOutsideTemperatureApplied, autoOpenIsApplied, autoCloseIsApplied)
    }

    /** The object did what `e` describes: new flags and settings, and `e`'s records appended to the logs. */
    twostate predicate Performed(e: Effects)
      reads this
    {
      && AppliedFlags() == e.flags
      && settings == e.settings
      && rollerShutters == old(rollerShutters)
      && dispatched == old(dispatched) + e.dispatched
      && settingsWrites == old(settingsWrites) + e.settingsWrites
      && notifications == old(notifications) + e.notifications
    }

    constructor (id: string, settings: Settings)
      ensures Valid()
      ensures this.id == id && this.settings == settings && rollerShutters == []
      ensures AppliedFlags() == Flags(false, false, false)
      ensures dispatched == [] && settingsWrites == [] && notifications == []
    {
      this.id := id;
      this.settings := settings;
      rollerShutters := [];
      maxOutsideTemperatureApplied, autoOpenIsApplied, autoCloseIsApplied := false, false, false;
      dispatched, settingsWrites, notifications := [], [], [];
    }

    /** Appends the shutters' ids in order; a null array is rejected. */
    method WithRollerShutters(shutters: Option<seq<string>>) returns (r: Outcome<Exception>)
      modifies this`rollerShutters
      ensures r.Fail? <==> shutters.None?
      ensures rollerShutters == if shutters.Some? then old(rollerShutters) + shutters.value else old(rollerShutters)
    {
      if shutters.None? {
        return Fail(ArgumentNull);
      }
      rollerShutters := rollerShutters + shutters.value;
      return Pass;
    }

    /** Sends `command` to each shutter in list order; returns false when a shutter threw. */
    method InvokeCommand(command: Command, rejecting: set<string>) returns (completed: bool)
      modifies this`dispatched
      ensures var d := Deliver(rollerShutters, command, rejecting);
        dispatched == old(dispatched) + d.dispatched && completed == d.completed
    {
      var i := 0;
      while i < |rollerShutters|
        invariant 0 <= i <= |rollerShutters|
        invariant forall j :: 0 <= j < i ==> rollerShutters[j] !in rejecting
        invariant |dispatched| == |old(dispatched)| + i
        invariant dispatched[..|old(dispatched)|] == old(dispatched)
        invariant forall j :: 0 <= j < i ==> dispatched[|old(dispatched)| + j] == Dispatch(rollerShutters[j], command)
      {
        if rollerShutters[i] in rejecting {
          break;
        }
        dispatched := dispatched + [Dispatch(rollerShutters[i], command)];
        i := i + 1;
      }
      var d := Deliver(rollerShutters, command, rejecting);
      completed := i == |rollerShutters|;
      assert |d.dispatched| == i;
      assert dispatched == old(dispatched) + d.dispatched;
    }

    /** One scheduler tick. Returns false when a command threw and ended the tick. */
    method PerformPendingActions(env: Environment) returns (completed: bool)
      requires Valid()
      modifies this
      ensures Valid()
      ensures var e := Step(old(rollerShutters), old(AppliedFlags()), old(settings), env);
        Performed(e) && completed == !e.faulted
    {
      ghost var e := Step(rollerShutters, AppliedFlags(), settings, env);
      if !settings.isEnabled {
        return true;
      }

      if !maxOutsideTemperatureApplied && TooHotIsAffected(settings, env.temperature) {
        maxOutsideTemperatureApplied := true;
        notifications := notifications + [ClosingDueToHighOutsideTemperature];
        completed := InvokeCommand(MoveDown, env.rejecting);
        return;
      }

      var autoOpenIsInRange := env.isDay;
      var autoCloseIsInRange := !autoOpenIsInRange;

      if !autoOpenIsApplied && autoOpenIsInRange {
        assert e == Sunrise(rollerShutters, AppliedFlags(), settings, env);
        completed := PerformPendingSunriseActions(env);
      } else if !autoCloseIsApplied && autoCloseIsInRange {
        assert e == Sunset(rollerShutters, AppliedFlags(), settings, env);
        completed := PerformPendingSunsetActions(env);
      } else {
        completed := true;
      }
    }

    method PerformPendingSunriseActions(env: Environment) returns (completed: bool)
      modifies this
      ensures var e := Sunrise(old(rollerShutters), old(AppliedFlags()), old(settings), env);
        Performed(e) && completed == !e.faulted
    {
      if DoNotOpenDueToTimeIsAffected(settings, env.time) {
        return true;
      }

      if TooColdIsAffected(settings, env.temperature) {
        notifications := notifications + [OpeningCancelledTooCold];
        autoOpenIsApplied := true;
        autoCloseIsApplied := false;
        return true;
      }

      if TooHotIsAffected(settings, env.temperature) {
        notifications := notifications + [OpeningCancelledTooHot];
        autoOpenIsApplied := true;
        autoCloseIsApplied := false;
        maxOutsideTemperatureApplied := true;
        return true;
      }

      if settings.skipNextOpenOnSunrise {
        settings := settings.(skipNextOpenOnSunrise := false);
        settingsWrites := settingsWrites + [settings];
        notifications := notifications + [OpeningSkippedOnce];
      } else {
        if settings.autoOpenIsEnabled {
          completed := InvokeCommand(MoveUp, env.rejecting);
          if !completed {
            return;
          }
          notifications := notifications + [OpenedDueToSunrise];
        }
      }

      autoOpenIsApplied := true;
      autoCloseIsApplied := false;
      maxOutsideTemperatureApplied := false;
      completed := true;
    }

    method PerformPendingSunsetActions(env: Environment) returns (completed: bool)
      modifies this
      ensures var e := Sunset(old(rollerShutters), old(AppliedFlags()), old(settings), env);
        Performed(e) && completed == !e.faulted
    {
      if TooColdIsAffected(settings, env.temperature) {
        notifications := notifications + [ClosingCancelledTooCold];
      } else {
        if settings.skipNextCloseOnSunset {
          settings := settings.(skipNextCloseOnSunset := false);
          settingsWrites := settingsWrites + [settings];
          notifications := notifications + [ClosingSkippedOnce];
        } else {
          if settings.autoCloseIsEnabled {
            completed := InvokeCommand(MoveDown, env.rejecting);
            if !completed {
              return;
            }
            notifications := notifications + [ClosedDueToSunset];
          }
        }
      }

      autoCloseIsApplied := true;
      autoOpenIsApplied := false;
      completed := true;
    }
  }
}
