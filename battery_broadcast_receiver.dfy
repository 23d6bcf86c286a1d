/**
 * The change detection of the battery broadcast receiver: it remembers the
 * last battery level and status it reported, and calls its listener when a
 * battery-changed intent carries a different level or status or arrives in a
 * forced update (on registration), or when power-save mode changes; in each
 * case only for a non-null intent and while a listener is set.
 *
 * The level and status strings a battery-changed intent yields are computed
 * by helpers outside this model; an intent here carries them already.
 */
module BatteryReceiver {
  import opened Wrappers

  /** The intents the receiver can be handed. */
  datatype Intent =
    | BatteryChanged(level: string, status: string)   // ACTION_BATTERY_CHANGED
    | PowerSaveModeChanged                            // ACTION_POWER_SAVE_MODE_CHANGED
    | OtherAction(action: Option<string>)             // any other, or no, action

  /** The stored level and status, both null at first. */
  datatype Readings = Readings(level: Option<string>, status: Option<string>)

  const NoReadings: Readings := Readings(None, None)

  /** What one update does: the readings afterwards, and whether the
      listener is called. */
  datatype Reaction = Reaction(readings: Readings, notify: bool)

  /** One update of the receiver, given the stored readings, the intent (None
      for a null intent), whether the update is forced and whether a listener
      is set. */
  function Update(stored: Readings, intent: Option<Intent>, force: bool, listening: bool): Reaction
  {
    if intent.None? || !listening then Reaction(stored, false)
    else match intent.value
      case BatteryChanged(level, status) =>
        if force || Some(level) != stored.level || Some(status) != stored.status
        then Reaction(Readings(Some(level), Some(status)), true)
        else Reaction(stored, false)
      case PowerSaveModeChanged => Reaction(stored, true)
      case OtherAction(_) => Reaction(stored, false)
  }

  /** With a null intent or no listener nothing is reported or stored. */
  lemma IgnoredWithoutIntentOrListener(stored: Readings, intent: Option<Intent>, force: bool, listening: bool)
    requires intent.None? || !listening
    ensures Update(stored, intent, force, listening) == Reaction(stored, false)
  {
  }

  /** A battery-changed intent, not forced, is reported if and only if its
      level or its status differs from the stored one; it is then stored,
      and otherwise the stored readings stay. */
  lemma BatteryChangedReportsChange(stored: Readings, level: string, status: string)
    ensures var r := Update(stored, Some(BatteryChanged(level, status)), false, true);
      && (r.notify <==> Some(level) != stored.level || Some(status) != stored.status)
      && r.readings == (if r.notify then Readings(Some(level), Some(status)) else stored)
  {
  }

  /** A forced battery-changed intent is always reported and stored. */
  lemma ForcedBatteryChangedReports(stored: Readings, level: string, status: string)
    ensures Update(stored, Some(BatteryChanged(level, status)), true, true)
         == Reaction(Readings(Some(level), Some(status)), true)
  {
  }

  /** A power-save change is always reported, and leaves the readings. */
  lemma PowerSaveAlwaysReports(stored: Readings, force: bool)
    ensures Update(stored, Some(PowerSaveModeChanged), force, true) == Reaction(stored, true)
  {
  }

  /** Any other action is neither reported nor stored. */
  lemma OtherActionIgnored(stored: Readings, action: Option<string>, force: bool, listening: bool)
    ensures Update(stored, Some(OtherAction(action)), force, listening) == Reaction(stored, false)
  {
  }

  /** Whatever happens, the stored readings are either kept or replaced by
      the readings of a battery-changed intent. */
  lemma UpdateStoresOnlyBatteryReadings(stored: Readings, intent: Option<Intent>, force: bool, listening: bool)
    ensures var r := Update(stored, intent, force, listening);
      r.readings == stored
      || (intent.Some? && intent.value.BatteryChanged? && r.notify
          && r.readings == Readings(Some(intent.value.level), Some(intent.value.status)))
  {
  }

  /** The first battery-changed intent after start is always reported; the
      same intent again right after it is not. */
  lemma RepeatedReadingNotReported(level: string, status: string)
    ensures var first := Update(NoReadings, Some(BatteryChanged(level, status)), false, true);
      && first.notify
      && !Update(first.readings, Some(BatteryChanged(level, status)), false, true).notify
  {
  }

  // ---------------------------------------------------------------------
  // Over a whole run
  // ---------------------------------------------------------------------

  /** One delivery to the receiver: the intent, whether it is forced (the
      registration path) and whether a listener is set at that time. */
  datatype Delivery = Delivery(intent: Option<Intent>, force: bool, listening: bool)

  /** The readings after a run of deliveries, starting from `stored`. */
  function Run(stored: Readings, run: seq<Delivery>): Readings
    decreases run
  {
    if run == [] then stored
    else Run(Update(stored, run[0].intent, run[0].force, run[0].listening).readings, run[1..])
  }

  /** Whether a delivery brings a battery reading to the receiver. */
  predicate SeesReading(d: Delivery)
  {
    d.listening && d.intent.Some? && d.intent.value.BatteryChanged?
  }

  /** The last battery reading the receiver saw in `run`, if any. */
  function LastReading(run: seq<Delivery>): Readings
  {
    if run == [] then NoReadings
    else
      var d := run[|run| - 1];
      if SeesReading(d) then Readings(Some(d.intent.value.level), Some(d.intent.value.status))
      else LastReading(run[..|run| - 1])
  }

  lemma {:induction false} RunSnoc(stored: Readings, run: seq<Delivery>, d: Delivery)
    ensures Run(stored, run + [d]) == Update(Run(stored, run), d.intent, d.force, d.listening).readings
    decreases run
  {
    if run != [] {
      assert (run + [d])[1..] == run[1..] + [d];
      RunSnoc(Update(stored, run[0].intent, run[0].force, run[0].listening).readings, run[1..], d);
    }
  }

  /** After any run from the start, the stored level and status are those of
      the last battery reading the receiver saw (null if it saw none): a
      reading equal to the stored one is dropped, but dropping it leaves the
      same values. */
  lemma {:induction false} StoredIsLastReading(run: seq<Delivery>)
    ensures Run(NoReadings, run) == LastReading(run)
  {
    if run != [] {
      var init, d := run[..|run| - 1], run[|run| - 1];
      assert run == init + [d];
      StoredIsLastReading(init);
      RunSnoc(NoReadings, init, d);
    }
  }

  /** So a non-forced battery-changed intent is reported if and only if it
      differs from the last reading the receiver saw. */
  lemma ReportedIffDiffersFromLastSeen(run: seq<Delivery>, level: string, status: string)
    ensures Update(Run(NoReadings, run), Some(BatteryChanged(level, status)), false, true).notify
        <==> LastReading(run) != Readings(Some(level), Some(status))
  {
    StoredIsLastReading(run);
  }

  // ---------------------------------------------------------------------
  // The receiver
  // ---------------------------------------------------------------------

  /** Identity of a battery-changed listener. */
  type ListenerRef = nat

  class BatteryBroadcastReceiver {
    /** mBatteryLevel, mBatteryStatus */
    var batteryLevel: Option<string>
    var batteryStatus: Option<string>
    /** mBatteryListener */
    var batteryListener: Option<ListenerRef>
    /** The listener calls made so far, oldest first. */
    var notified: seq<ListenerRef>

    function Stored(): Readings
      reads this
    {
      Readings(batteryLevel, batteryStatus)
    }

    constructor ()
      ensures Stored() == NoReadings && batteryListener == None && notified == []
    {
      batteryLevel := None;
      batteryStatus := None;
      batteryListener := None;
      notified := [];
    }

    method SetBatteryChangedListener(l: Option<ListenerRef>)
      modifies this`batteryListener
      ensures batteryListener == l
    {
      batteryListener := l;
    }

    /** A broadcast arrives: a non-forced update. */
    method OnReceive(intent: Option<Intent>)
      modifies this`batteryLevel, this`batteryStatus, this`notified
      ensures var r := Update(old(Stored()), intent, false, batteryListener.Some?);
        && Stored() == r.readings
        && notified == old(notified) + (if r.notify then [batteryListener.value] else [])
    {
      UpdateBatteryStatus(intent, false);
    }

    /** Registration: the sticky intent the system hands back (possibly null)
        is applied as a forced update. */
    method Register(sticky: Option<Intent>)
      modifies this`batteryLevel, this`batteryStatus, this`notified
      ensures var r := Update(old(Stored()), sticky, true, batteryListener.Some?);
        && Stored() == r.readings
        && notified == old(notified) + (if r.notify then [batteryListener.value] else [])
    {
      UpdateBatteryStatus(sticky, true);
    }

    method UpdateBatteryStatus(intent: Option<Intent>, forceUpdate: bool)
      modifies this`batteryLevel, this`batteryStatus, this`notified
      ensures var r := Update(old(Stored()), intent, forceUpdate, batteryListener.Some?);
        && Stored() == r.readings
        && notified == old(notified) + (if r.notify then [batteryListener.value] else [])
    {
      if intent.Some? && batteryListener.Some? {
        match intent.value {
          case BatteryChanged(level, status) =>
            if forceUpdate || Some(level) != batteryLevel || Some(status) != batteryStatus {
              batteryLevel := Some(level);
              batteryStatus := Some(status);
              notified := notified + [batteryListener.value];
            }
          case PowerSaveModeChanged =>
            notified := notified + [batteryListener.value];
          case OtherAction(_) =>
        }
      }
    }
  }

  /** A fresh receiver with a listener reports a battery reading the first
      time it is broadcast and not the second time. */
  method RepeatedBroadcast(listener: ListenerRef, level: string, status: string)
    returns (firstReported: bool, secondReported: bool)
    ensures firstReported && !secondReported
  {
    var receiver := new BatteryBroadcastReceiver();
    receiver.SetBatteryChangedListener(Some(listener));
    receiver.OnReceive(Some(BatteryChanged(level, status)));
    firstReported := receiver.notified == [listener];
    receiver.OnReceive(Some(BatteryChanged(level, status)));
    secondReported := receiver.notified != [listener];
  }
}
