/**
 * The pure part of the battery monitor's evaluation: the stored settings and
 * their defaults, the two breach conditions, the texts the service shows and
 * speaks, and the alarm transition one battery reading causes.
 */
module BatteryRules {
  import opened JavaInts
  import opened JavaText

  datatype Option<T> = None | Some(value: T) {
    function GetOr(default: T): T {
      match this
      case Some(v) => v
      case None => default
    }
  }

  /**
   * The settings the service reads from its preference store. A key that has
   * never been written is `None`; the settings screen stores `maxPercent` and
   * `minPercent` as `int` and `repeatInterval` (seconds) as `long`.
   */
  datatype Prefs = Prefs(maxPercent: Option<Int32>, minPercent: Option<Int32>, repeatInterval: Option<Int64>)

  const DefaultMaxPercent: Int32 := 85
  const DefaultMinPercent: Int32 := 20
  const DefaultRepeatIntervalSeconds: Int64 := 300

  function MaxPercent(p: Prefs): Int32 {
    p.maxPercent.GetOr(DefaultMaxPercent)
  }

  function MinPercent(p: Prefs): Int32 {
    p.minPercent.GetOr(DefaultMinPercent)
  }

  function RepeatIntervalSeconds(p: Prefs): Int64 {
    p.repeatInterval.GetOr(DefaultRepeatIntervalSeconds)
  }

  /**
   * The delay, in milliseconds, after which the voice alarm reschedules
   * itself: the interval read at firing time, times 1000, as a Java `long`
   * product (so it wraps around for intervals beyond about 9.2e15 seconds).
   */
  function RepeatDelayMs(p: Prefs): (ms: Int64)
    ensures p.repeatInterval.None? ==> ms == 300_000
    ensures p.repeatInterval.Some? && InInt64Range(p.repeatInterval.value * 1000) ==>
              ms == p.repeatInterval.value * 1000
    ensures (RepeatIntervalSeconds(p) * 1000 - ms) % Int64Modulus == 0
  {
    WrapInt64(RepeatIntervalSeconds(p) * 1000)
  }

  /** A stored interval large enough makes the product wrap to a negative delay. */
  lemma HugeIntervalWrapsNegative()
    ensures RepeatDelayMs(Prefs(None, None, Some(9_223_372_036_854_776))) == -9_223_372_036_854_775_616
  {
  }

  /** Charging at or above the upper threshold. */
  predicate HighBreached(level: Int32, charging: bool, maxPercent: Int32) {
    charging && level >= maxPercent
  }

  /** Discharging at or below the lower threshold. */
  predicate LowBreached(level: Int32, charging: bool, minPercent: Int32) {
    !charging && level <= minPercent
  }

  /** The two breaches ask for opposite charging states, whatever the thresholds. */
  lemma BreachesExclusive(level: Int32, charging: bool, maxPercent: Int32, minPercent: Int32)
    ensures !(HighBreached(level, charging, maxPercent) && LowBreached(level, charging, minPercent))
  {
  }

  const HighTitle := "High Battery Level"
  const LowTitle := "Low Battery Level"
  const UnplugAdvice := " percent. Please unplug the charger."
  const ConnectAdvice := " percent. Please connect the charger."
  const MessagePrefix := "Battery is at "

  function HighMessage(level: Int32): string {
    MessagePrefix + IntToString(level) + UnplugAdvice
  }

  function LowMessage(level: Int32): string {
    MessagePrefix + IntToString(level) + ConnectAdvice
  }

  const StatusPrefix := "Current Level: "
  const ChargingSuffix := "% (Charging)"
  const DischargingSuffix := "% (Discharging)"

  /** The text of the persistent status notification for one reading. */
  function StatusText(level: Int32, charging: bool): string {
    StatusPrefix + IntToString(level) + (if charging then ChargingSuffix else DischargingSuffix)
  }

  /** Two texts whose tails differ at the same distance from the end are different. */
  lemma TailsDiffer(a: string, x: string, b: string, y: string, k: nat)
    requires 1 <= k <= |x| && k <= |y|
    requires x[|x| - k] != y[|y| - k]
    ensures a + x != b + y
  {
    var s, t := a + x, b + y;
    assert s[|s| - k] == x[|x| - k];
    assert t[|t| - k] == y[|y| - k];
  }

  /** The status text names exactly one reading: both the level and the charging state can be read back. */
  lemma StatusTextDeterminesReading(l1: Int32, c1: bool, l2: Int32, c2: bool)
    requires StatusText(l1, c1) == StatusText(l2, c2)
    ensures l1 == l2 && c1 == c2
  {
    if c1 && !c2 {
      TailsDiffer(StatusPrefix + IntToString(l1), ChargingSuffix, StatusPrefix + IntToString(l2), DischargingSuffix, 9);
    } else if !c1 && c2 {
      TailsDiffer(StatusPrefix + IntToString(l1), DischargingSuffix, StatusPrefix + IntToString(l2), ChargingSuffix, 9);
    } else {
      FramedIntInjective(StatusPrefix, l1, l2, if c1 then ChargingSuffix else DischargingSuffix);
    }
  }

  /** An alarm message names the level it reports. */
  lemma AlarmMessagesDetermineLevel(a: Int32, b: Int32)
    ensures HighMessage(a) == HighMessage(b) ==> a == b
    ensures LowMessage(a) == LowMessage(b) ==> a == b
  {
    if HighMessage(a) == HighMessage(b) {
      FramedIntInjective(MessagePrefix, a, b, UnplugAdvice);
    }
    if LowMessage(a) == LowMessage(b) {
      FramedIntInjective(MessagePrefix, a, b, ConnectAdvice);
    }
  }

  /** A high-battery message is never a low-battery message, whatever the levels. */
  lemma HighAndLowMessagesDiffer(a: Int32, b: Int32)
    ensures HighMessage(a) != LowMessage(b)
  {
    TailsDiffer(MessagePrefix + IntToString(a), UnplugAdvice, MessagePrefix + IntToString(b), ConnectAdvice, 14);
  }

  /** A notification raised on entering the alarm state. */
  datatype Alarm = Alarm(title: string, message: string)

  /** What one battery reading does to the repeating alarm. */
  datatype Transition =
    | Start(alarm: Alarm)   // notify and start the repeating voice alarm
    | Stop                  // cancel the repeating voice alarm
    | Keep                  // leave the alarm state as it is

  /** Whether the repeating alarm runs after `t` has been applied. */
  function ActiveAfter(active: bool, t: Transition): bool {
    match t
    case Start(_) => true
    case Stop => false
    case Keep => active
  }

  /**
   * The alarm decision of one reading, given whether the repeating alarm is
   * already running and the thresholds read from the settings.
   */
  function Decide(active: bool, level: Int32, charging: bool, maxPercent: Int32, minPercent: Int32): (t: Transition)
    // a high alarm starts exactly when idle and charging at or above the upper threshold
    ensures t == Start(Alarm(HighTitle, HighMessage(level))) <==> !active && HighBreached(level, charging, maxPercent)
    // a low alarm starts exactly when idle and discharging at or below the lower threshold
    ensures t == Start(Alarm(LowTitle, LowMessage(level))) <==> !active && LowBreached(level, charging, minPercent)
    // no other alarm is ever started
    ensures t.Start? ==> t.alarm in {Alarm(HighTitle, HighMessage(level)), Alarm(LowTitle, LowMessage(level))}
    // a running alarm is never started again
    ensures active ==> !t.Start?
    // a reading that breaches neither threshold stops a running alarm
    ensures t == Stop <==> active && !HighBreached(level, charging, maxPercent) && !LowBreached(level, charging, minPercent)
    // afterwards the alarm runs exactly when the reading breaches a threshold
    ensures ActiveAfter(active, t) == (HighBreached(level, charging, maxPercent) || LowBreached(level, charging, minPercent))
  {
    if HighBreached(level, charging, maxPercent) then
      if !active then Start(Alarm(HighTitle, HighMessage(level))) else Keep
    else if LowBreached(level, charging, minPercent) then
      if !active then Start(Alarm(LowTitle, LowMessage(level))) else Keep
    else
      if active then Stop else Keep
  }

  /** Level 90 while charging, default upper threshold: the high alarm starts. */
  lemma HighScenario()
    ensures Decide(false, 90, true, DefaultMaxPercent, DefaultMinPercent)
            == Start(Alarm("High Battery Level", "Battery is at " + "90" + " percent. Please unplug the charger."))
  {
  }

  /** Level 15 while discharging, default lower threshold: the low alarm starts. */
  lemma LowScenario()
    ensures Decide(false, 15, false, DefaultMaxPercent, DefaultMinPercent)
            == Start(Alarm("Low Battery Level", "Battery is at " + "15" + " percent. Please connect the charger."))
  {
  }

  /** Level 50 while charging, default thresholds: no alarm, and the status reads the level. */
  lemma NoAlarmScenario()
    ensures Decide(false, 50, true, DefaultMaxPercent, DefaultMinPercent) == Keep
    ensures StatusText(50, true) == "Current Level: 50% (Charging)"
  {
  }
}
