# Battery charge alarm — the monitor service's alarm state machine

This project models the core of the BatteryChargeAlarm Android app: the
alarm state machine inside `BatteryMonitorService`. Each battery reading
(an integer percent and a charging flag) is judged against two stored
thresholds, an upper one (default 85) that applies while charging and a
lower one (default 20) that applies while discharging. Every reading refreshes
the status notification. A breach seen while the service is idle raises a
one-shot alarm notification and starts a repeating voice alarm. A reading
that breaches neither threshold stops the voice alarm. A settings-changed
broadcast always returns the service to idle.

The voice alarm is one self-rescheduling task on the service's
single-threaded handler. When it runs, it speaks its message. Then it posts
itself again after the repeat interval read from the settings at that moment
(default 300 s), multiplied by 1000 as a Java `long`.

Files:

- `java_ints.dfy` (module `JavaInts`): Java `int` and `long`, and the 64-bit
  wrap-around of `long` arithmetic.
- `java_text.dfy` (module `JavaText`): the decimal text of an `int` in a
  string concatenation, its inverse, and the round-trip lemmas.
- `battery_rules.dfy` (module `BatteryRules`): the pure parts of
  `checkBatteryStatus`. These are the settings with their defaults, the two
  breach conditions, the alarm and status texts, and `Decide`, which gives
  the transition one reading causes.
- `monitor_service.dfy` (module `MonitorService`): the class
  `BatteryMonitorService`. Its fields are the service's fields: the alarm
  flag, the current voice task, and the handler queue as a sequence of posted
  tasks with their delays. It also holds the settings store and the speech
  engine's "is speaking" answer. Each event is a method. A ghost log
  `effects` records in order what the user is shown or hears.
  `Valid()` is the invariant every event keeps. At most one voice task is
  pending. One is pending exactly while the alarm is active, and it is the
  service's current task.

The reading is taken as an already computed integer percent. The settings
store and the speech engine's state are inputs, changed by
`StorePreferences` and `SetEngineSpeaking`. Real time is not modelled: a
posted task carries the delay it was posted with, and `RunVoiceAlarm` is the
handler running it.

Two details of the code are easy to misread:

- `speak` does nothing while the engine is already speaking. It does not
  interrupt the current utterance and replace it.
- The settings-changed receiver stops the alarm only if it is active. When it
  is not, nothing is pending, so the result is the same idle state.

## Model

| member | source | states |
|---|---|---|
| `BatteryRules.Decide` | app/src/main/java/com/example/batterychargealarm/BatteryMonitorService.java:153-172 | A high alarm ("High Battery Level", "Battery is at N percent. Please unplug the charger.") starts exactly when idle, charging and level >= maxPercent. A low alarm ("Low Battery Level", "... Please connect the charger.") starts exactly when idle, discharging and level <= minPercent. No other alarm starts, and none starts while active. The alarm stops exactly when active and neither threshold is breached. Afterwards the alarm is active exactly when the reading breaches a threshold. |
| `BatteryRules.BreachesExclusive` | app/src/main/java/com/example/batterychargealarm/BatteryMonitorService.java:153-154 | The high and low breaches can never hold together, whatever the thresholds. |
| `BatteryRules.RepeatDelayMs` | app/src/main/java/com/example/batterychargealarm/BatteryMonitorService.java:128-130 | The reschedule delay is 300000 ms when no interval is stored. It is interval × 1000 when that fits in a `long`, and otherwise the `long` congruent to it modulo 2^64. |
| `BatteryRules.HugeIntervalWrapsNegative` | app/src/main/java/com/example/batterychargealarm/BatteryMonitorService.java:129-130 | A stored interval of 9223372036854776 s gives a negative delay of -9223372036854775616 ms. |
| `BatteryRules.StatusTextDeterminesReading` | app/src/main/java/com/example/batterychargealarm/BatteryMonitorService.java:150 | Two readings with the same status text have the same level and the same charging state. |
| `BatteryRules.AlarmMessagesDetermineLevel` | app/src/main/java/com/example/batterychargealarm/BatteryMonitorService.java:158-164 | Two high-battery messages are equal only for equal levels, and so are two low-battery messages. |
| `BatteryRules.HighAndLowMessagesDiffer` | app/src/main/java/com/example/batterychargealarm/BatteryMonitorService.java:158-164 | A high-battery message never equals a low-battery message, whatever the two levels. |
| `BatteryRules.HighScenario` | app/src/main/java/com/example/batterychargealarm/BatteryMonitorService.java:147-161 | With default thresholds, idle, level 90 and charging, the high alarm starts with the message "Battery is at 90 percent. Please unplug the charger.". |
| `BatteryRules.LowScenario` | app/src/main/java/com/example/batterychargealarm/BatteryMonitorService.java:147-167 | With default thresholds, idle, level 15 and discharging, the low alarm starts with the message "Battery is at 15 percent. Please connect the charger.". |
| `BatteryRules.NoAlarmScenario` | app/src/main/java/com/example/batterychargealarm/BatteryMonitorService.java:147-172 | With default thresholds, idle, level 50 and charging, nothing starts, and the status reads "Current Level: 50% (Charging)". |
| `JavaText.NatToString` | app/src/main/java/com/example/batterychargealarm/BatteryMonitorService.java:158 | The text of a natural number is a non-empty string of digits. It starts with '0' only for zero. |
| `JavaText.IntToString` | app/src/main/java/com/example/batterychargealarm/BatteryMonitorService.java:150 | The text of an `int` is a numeral. It starts with '-' exactly for negative numbers. |
| `JavaText.NatToStringRoundTrip` | app/src/main/java/com/example/batterychargealarm/BatteryMonitorService.java:158 | Reading the digits of a natural number's text back gives that number. |
| `JavaText.IntToStringRoundTrip` | app/src/main/java/com/example/batterychargealarm/BatteryMonitorService.java:150 | Reading an `int`'s text back, sign included, gives that `int`. |
| `JavaText.IntToStringInjective` | app/src/main/java/com/example/batterychargealarm/BatteryMonitorService.java:164 | Different `int`s have different texts. |
| `JavaText.FramedIntInjective` | app/src/main/java/com/example/batterychargealarm/BatteryMonitorService.java:158 | A number written between a fixed prefix and a fixed suffix is determined by the whole text. |
| `JavaInts.WrapInt64` | app/src/main/java/com/example/batterychargealarm/BatteryMonitorService.java:130 | The result of a `long` operation is the exact value when it fits, and otherwise the `long` congruent to it modulo 2^64. |
| `MonitorService.RemoveCallbacks` | app/src/main/java/com/example/batterychargealarm/BatteryMonitorService.java:139-141 | Removing a task's callbacks keeps exactly the postings of other tasks and never grows the queue. It changes nothing when the task is not queued. A single posting is dropped exactly when it belongs to the task. |
| `MonitorService.RemoveCallbacksDistributes` | app/src/main/java/com/example/batterychargealarm/BatteryMonitorService.java:139-141 | Removal works posting by posting, so the postings that stay keep their order and their number. |
| `MonitorService.SpeechOutput` | app/src/main/java/com/example/batterychargealarm/BatteryMonitorService.java:90-94 | Speaking produces an utterance exactly when the engine exists and is not speaking. That utterance is the given text. Otherwise it produces nothing. |
| `MonitorService.BatteryMonitorService.constructor` | app/src/main/java/com/example/batterychargealarm/BatteryMonitorService.java:39-71 | Models the field initialisers (lines 39-42) and the engine creation in `onCreate` (line 71). The service starts idle, with no task and an empty queue. It has a silent speech engine and the invariant holds. |
| `MonitorService.BatteryMonitorService.StorePreferences` | app/src/main/java/com/example/batterychargealarm/SettingsActivity.java:63-69 | The store holds the new settings. The alarm state, the engine and the effects are unchanged. |
| `MonitorService.BatteryMonitorService.SetEngineSpeaking` | app/src/main/java/com/example/batterychargealarm/BatteryMonitorService.java:91 | The engine's speaking answer is the new value. Nothing else changes. |
| `MonitorService.BatteryMonitorService.Speak` | app/src/main/java/com/example/batterychargealarm/BatteryMonitorService.java:90-94 | The effects grow by exactly `SpeechOutput` of the current engine state. The alarm state is unchanged. |
| `MonitorService.BatteryMonitorService.StartRepeatingVoiceAlarm` | app/src/main/java/com/example/batterychargealarm/BatteryMonitorService.java:121-136 | From idle, the alarm becomes active. A fresh task for the message becomes current and is the one pending task, with delay 0. The invariant holds. |
| `MonitorService.BatteryMonitorService.StopRepeatingVoiceAlarm` | app/src/main/java/com/example/batterychargealarm/BatteryMonitorService.java:138-143 | The alarm is inactive and nothing is pending, from any valid state, so a second stop is harmless. The current task reference and the effects are unchanged. |
| `MonitorService.BatteryMonitorService.RunVoiceAlarm` | app/src/main/java/com/example/batterychargealarm/BatteryMonitorService.java:125-133 | Running the pending task speaks its message, as `SpeechOutput` says. The same task is then the one pending task again, with the delay computed from the settings at this moment. The alarm stays active. |
| `MonitorService.BatteryMonitorService.CheckBatteryStatus` | app/src/main/java/com/example/batterychargealarm/BatteryMonitorService.java:145-173 | The status text is logged first, on every reading. Then an alarm notification is logged exactly when `Decide` starts one, and a fresh task for its message becomes the one pending task, with the next task identity used up. A stop empties the queue and keeps the current task reference, and otherwise the alarm state is untouched. Afterwards the alarm is active exactly when the reading breaches a threshold. |
| `MonitorService.BatteryMonitorService.OnSettingsUpdated` | app/src/main/java/com/example/batterychargealarm/BatteryMonitorService.java:59-66 | After a settings change the alarm is inactive and nothing is pending, whatever the previous state. When the alarm was already idle nothing changes. |
| `MonitorService.BatteryMonitorService.OnDestroy` | app/src/main/java/com/example/batterychargealarm/BatteryMonitorService.java:104-106 | Destroying the service leaves the alarm inactive with nothing pending. The current task reference, the settings, the engine and the effects are unchanged. |

`MonitorService.SettingsResetScenario` drives the class through one scenario.
An alarm is raised at 90% while charging. The task runs once and reschedules
after 300000 ms. New settings are saved and the broadcast arrives, which
cancels the alarm. The next reading is judged afresh against the new upper
threshold.

## Left out

- The percent computation `(int) ((level / (float) scale) * 100)` and the mapping from battery status to the charging flag (BatteryMonitorService.java:47-53) are left out. They use floating point and platform constants, so the model takes the integer percent and the flag as inputs.
- Speech-engine setup and release (`onInit`, `tts.stop()`, `tts.shutdown()`) are foreign library calls and are left out. The engine is reduced to "exists" and "is speaking", and its speaking state changes only through `SetEngineSpeaking`.
- Notification plumbing is left out: building notifications, the pending intent, the alarm sound URI, channel creation, `startForeground` and `onStartCommand`. The model records only the title and text of each notification.
- Receiver registration and unregistration are platform glue and are left out. Events after `OnDestroy` are not modelled.
- RunVoiceAlarm: real time is not modelled. A posted task records its delay, which is negative after a wrap-around, and the handler's clamping of negative delays to zero is not modelled.
- The settings store is a record with one optional value per key. A value stored under a key with the wrong type would make Android's typed getters throw, and this is not modelled because the only writer stores each key with the type it is read with. The `soundUri` and `isMonitoring` keys are not modelled.
- `MainActivity.java` (toggle, permission request, starting and stopping the service) is UI glue and is not part of this model. `SettingsActivity.java` is not part of this model either, except for the store write, `StorePreferences`. Its number parsing belongs to the library.
- StartRepeatingVoiceAlarm: requires that the alarm be idle. Both call sites check this first (BatteryMonitorService.java:157, 163).
