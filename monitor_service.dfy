/**
 * The battery monitor service as a state machine: the alarm flag, the voice
 * alarm task, the single-threaded handler queue that runs it, the settings
 * store and the speech engine's "is speaking" answer, with every event the
 * service handles as a method. What the user sees or hears is recorded in
 * `effects`, in order.
 */
module MonitorService {
  import opened JavaInts
  import opened BatteryRules

  /**
   * A voice alarm task. Each start creates a new one, so `id` gives it the
   * identity the handler uses to find and remove it; `message` is what it speaks.
   */
  datatype Runnable = Runnable(id: nat, message: string)

  /** A task posted to the handler, with the delay it was posted with. */
  datatype Pending = Pending(task: Runnable, delayMs: Int64)

  /** Something the user is shown or hears. */
  datatype Effect =
    | StatusNotification(text: string)               // the persistent low-priority notification
    | AlarmNotification(title: string, text: string) // the one-shot high-priority notification
    | Utterance(text: string)                        // text handed to the speech engine

  /** The handler's `removeCallbacks(r)`: every posting of `r` leaves the queue, the rest stay in order. */
  function RemoveCallbacks(queue: seq<Pending>, r: Runnable): (rest: seq<Pending>)
    ensures forall p :: p in rest <==> p in queue && p.task != r
    ensures |rest| <= |queue|
    ensures (forall p :: p in queue ==> p.task != r) ==> rest == queue
    ensures |queue| == 1 ==> rest == (if queue[0].task == r then [] else queue)
  {
    if queue == [] then []
    else if queue[0].task == r then RemoveCallbacks(queue[1..], r)
    else [queue[0]] + RemoveCallbacks(queue[1..], r)
  }

  /**
   * Removing callbacks works posting by posting: the result for a queue is
   * the results for its two halves, one after the other. With the
   * one-posting case above, this fixes the order and number of the postings
   * that stay.
   */
  lemma {:induction false} RemoveCallbacksDistributes(front: seq<Pending>, back: seq<Pending>, r: Runnable)
    ensures RemoveCallbacks(front + back, r) == RemoveCallbacks(front, r) + RemoveCallbacks(back, r)
  {
    if front == [] {
      assert front + back == back;
    } else {
      assert (front + back)[0] == front[0];
      assert (front + back)[1..] == front[1..] + back;
      RemoveCallbacksDistributes(front[1..], back, r);
    }
  }

  /** What `speak(text)` produces: one utterance when the engine exists and is silent, else nothing. */
  function SpeechOutput(hasEngine: bool, speaking: bool, text: string): (out: seq<Effect>)
    ensures out != [] <==> hasEngine && !speaking
    ensures out != [] ==> out == [Utterance(text)]
  {
    if hasEngine && !speaking then [Utterance(text)] else []
  }

  class BatteryMonitorService {
    var prefs: Prefs                      // the preference store, read at each use
    var hasEngine: bool                   // tts != null
    var engineSpeaking: bool              // tts.isSpeaking()
    var isRepeatingAlarmActive: bool
    var voiceAlarmRunnable: Option<Runnable>
    var nextRunnableId: nat               // identity for the next task created
    var pending: seq<Pending>             // the handler's queue of posted tasks
    ghost var effects: seq<Effect>

    /**
     * At most one voice task is pending; one is pending exactly while the
     * alarm is active, and it is the service's current task.
     */
    ghost predicate Valid()
      reads this
    {
      |pending| <= 1 &&
      (isRepeatingAlarmActive <==> |pending| == 1) &&
      (pending != [] ==> voiceAlarmRunnable == Some(pending[0].task)) &&
      (voiceAlarmRunnable.Some? ==> voiceAlarmRunnable.value.id < nextRunnableId)
    }

    /** The state the service does not own: settings and speech engine. */
    ghost function Environment(): (Prefs, bool, bool)
      reads this
    {
      (prefs, hasEngine, engineSpeaking)
    }

    /** The alarm's own state. */
    ghost function AlarmState(): (bool, Option<Runnable>, nat, seq<Pending>)
      reads this
    {
      (isRepeatingAlarmActive, voiceAlarmRunnable, nextRunnableId, pending)
    }

    /** Field initialisers and `onCreate`: idle, with a speech engine. */
    constructor (stored: Prefs)
      ensures Valid()
      ensures Environment() == (stored, true, false)
      ensures !isRepeatingAlarmActive && voiceAlarmRunnable == None && pending == []
      ensures effects == []
    {
      prefs := stored;
      hasEngine := true;
      engineSpeaking := false;
      isRepeatingAlarmActive := false;
      voiceAlarmRunnable := None;
      nextRunnableId := 0;
      pending := [];
      effects := [];
    }

    /** The settings screen writes new values to the store. */
    method StorePreferences(p: Prefs)
      modifies this
      ensures prefs == p && hasEngine == old(hasEngine) && engineSpeaking == old(engineSpeaking)
      ensures AlarmState() == old(AlarmState()) && effects == old(effects)
    {
      prefs := p;
    }

    /** The speech engine starts or finishes an utterance on its own thread. */
    method SetEngineSpeaking(speaking: bool)
      modifies this
      ensures engineSpeaking == speaking && prefs == old(prefs) && hasEngine == old(hasEngine)
      ensures AlarmState() == old(AlarmState()) && effects == old(effects)
    {
      engineSpeaking := speaking;
    }

    /** `speak`: never interrupts an utterance in progress. */
    method Speak(text: string)
      modifies this
      ensures effects == old(effects) + SpeechOutput(hasEngine, engineSpeaking, text)
      ensures Environment() == old(Environment()) && AlarmState() == old(AlarmState())
    {
      if hasEngine && !engineSpeaking {
        effects := effects + [Utterance(text)];
      }
    }

    /**
     * `startRepeatingVoiceAlarm`: a fresh task for `message` becomes the
     * current one and is posted to run at once. Both callers first check that
     * no alarm is active.
     */
    method StartRepeatingVoiceAlarm(message: string)
      requires Valid() && !isRepeatingAlarmActive
      modifies this
      ensures Valid() && isRepeatingAlarmActive
      ensures voiceAlarmRunnable == Some(Runnable(old(nextRunnableId), message))
      ensures pending == [Pending(Runnable(old(nextRunnableId), message), 0)]
      ensures nextRunnableId == old(nextRunnableId) + 1
      ensures Environment() == old(Environment()) && effects == old(effects)
    {
      isRepeatingAlarmActive := true;
      var task := Runnable(nextRunnableId, message);
      nextRunnableId := nextRunnableId + 1;
      voiceAlarmRunnable := Some(task);
      pending := pending + [Pending(task, 0)];
    }

    /** `stopRepeatingVoiceAlarm`: removes the current task from the queue; safe to repeat. */
    method StopRepeatingVoiceAlarm()
      requires Valid()
      modifies this
      ensures Valid() && !isRepeatingAlarmActive && pending == []
      ensures voiceAlarmRunnable == old(voiceAlarmRunnable) && nextRunnableId == old(nextRunnableId)
      ensures Environment() == old(Environment()) && effects == old(effects)
    {
      if voiceAlarmRunnable.Some? {
        pending := RemoveCallbacks(pending, voiceAlarmRunnable.value);
      }
      isRepeatingAlarmActive := false;
    }

    /**
     * The handler runs the pending task: it speaks its message and posts
     * itself again after the repeat interval read from the store now.
     */
    method RunVoiceAlarm()
      requires Valid() && pending != []
      modifies this
      ensures Valid() && isRepeatingAlarmActive
      ensures pending == [Pending(old(pending[0].task), RepeatDelayMs(prefs))]
      ensures effects == old(effects) + SpeechOutput(hasEngine, engineSpeaking, old(pending[0].task.message))
      ensures voiceAlarmRunnable == old(voiceAlarmRunnable) && nextRunnableId == old(nextRunnableId)
      ensures Environment() == old(Environment())
    {
      var task := pending[0].task;
      pending := pending[1..];
      Speak(task.message);
      var delayMs := RepeatDelayMs(prefs);
      pending := pending + [Pending(task, delayMs)];
    }

    /**
     * `checkBatteryStatus`: a battery reading always refreshes the status
     * text first, then starts or stops the alarm as `Decide` says.
     */
    method CheckBatteryStatus(currentLevel: Int32, isCharging: bool)
      requires Valid()
      modifies this
      ensures Valid()
      ensures var t := Decide(old(isRepeatingAlarmActive), currentLevel, isCharging, MaxPercent(prefs), MinPercent(prefs));
        && effects == old(effects) + [StatusNotification(StatusText(currentLevel, isCharging))]
                      + (if t.Start? then [AlarmNotification(t.alarm.title, t.alarm.message)] else [])
        && isRepeatingAlarmActive == ActiveAfter(old(isRepeatingAlarmActive), t)
        && (t.Start? ==> voiceAlarmRunnable == Some(Runnable(old(nextRunnableId), t.alarm.message))
                         && pending == [Pending(voiceAlarmRunnable.value, 0)]
                         && nextRunnableId == old(nextRunnableId) + 1)
        && (t.Stop? ==> pending == [] && voiceAlarmRunnable == old(voiceAlarmRunnable)
                        && nextRunnableId == old(nextRunnableId))
        && (t.Keep? ==> AlarmState() == old(AlarmState()))
      ensures Environment() == old(Environment())
    {
      var maxPercent := MaxPercent(prefs);
      var minPercent := MinPercent(prefs);

      effects := effects + [StatusNotification(StatusText(currentLevel, isCharging))];

      var maxThresholdBreached := isCharging && currentLevel >= maxPercent;
      var minThresholdBreached := !isCharging && currentLevel <= minPercent;

      if maxThresholdBreached {
        if !isRepeatingAlarmActive {
          var message := HighMessage(currentLevel);
          effects := effects + [AlarmNotification(HighTitle, message)];
          StartRepeatingVoiceAlarm(message);
        }
      } else if minThresholdBreached {
        if !isRepeatingAlarmActive {
          var message := LowMessage(currentLevel);
          effects := effects + [AlarmNotification(LowTitle, message)];
          StartRepeatingVoiceAlarm(message);
        }
      } else {
        if isRepeatingAlarmActive {
          StopRepeatingVoiceAlarm();
        }
      }
    }

    /** The settings-changed broadcast: the alarm goes idle, whatever it was doing. */
    method OnSettingsUpdated()
      requires Valid()
      modifies this
      ensures Valid() && !isRepeatingAlarmActive && pending == []
      ensures !old(isRepeatingAlarmActive) ==> AlarmState() == old(AlarmState())
      ensures voiceAlarmRunnable == old(voiceAlarmRunnable) && nextRunnableId == old(nextRunnableId)
      ensures Environment() == old(Environment()) && effects == old(effects)
    {
      if isRepeatingAlarmActive {
        StopRepeatingVoiceAlarm();
      }
    }

    /** The alarm-stopping part of `onDestroy`. */
    method OnDestroy()
      requires Valid()
      modifies this
      ensures Valid() && !isRepeatingAlarmActive && pending == []
      ensures voiceAlarmRunnable == old(voiceAlarmRunnable) && nextRunnableId == old(nextRunnableId)
      ensures Environment() == old(Environment()) && effects == old(effects)
    {
      StopRepeatingVoiceAlarm();
    }
  }

  /**
   * An alarm running at 90% while charging is cancelled by a settings change;
   * the next reading is judged afresh against the new thresholds.
   */
  method SettingsResetScenario()
  {
    var service := new BatteryMonitorService(Prefs(None, None, None));
    service.CheckBatteryStatus(90, true);
    assert service.isRepeatingAlarmActive && |service.pending| == 1;

    service.RunVoiceAlarm();
    assert service.pending[0].delayMs == 300_000;

    service.StorePreferences(Prefs(Some(95), Some(20), Some(60)));
    service.OnSettingsUpdated();
    assert !service.isRepeatingAlarmActive && service.pending == [];

    service.CheckBatteryStatus(90, true);
    assert !service.isRepeatingAlarmActive;
    service.CheckBatteryStatus(96, true);
    assert service.isRepeatingAlarmActive;
  }
}
