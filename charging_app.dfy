/** battery_charging_app.py: the 03:00 safeguard that charges a battery
    found below 5% and polls every 60 s until it is back at 5%. */
module ChargingApp {
  import opened Prices
  import opened Actuator

  /** `battery_threshold`, in percent. */
  const Threshold: real := 5.0

  /** `monitor_interval`, in seconds. */
  const MonitorInterval: nat := 60

  /** `start_charging`: EMS Forced, then Forced charge, both at once. */
  function StartChargingWrites(): seq<TimedWrite>
  {
    [TimedWrite(0, Ems(ForcedMode)), TimedWrite(0, Cmd(ForcedCharge))]
  }

  /** `stop_charging`: command Stop only; the EMS mode is not touched. */
  function StopChargingWrites(): seq<TimedWrite>
  {
    [TimedWrite(0, Cmd(StopDefault))]
  }

  /** The start leaves the inverter in Forced mode with Forced charge; the
      stop leaves it in Forced mode, now with command Stop. */
  lemma ChargingChains(d: Device)
    ensures Perform(d, StartChargingWrites()) == Device(ForcedMode, ForcedCharge, d.maxChargePower)
    ensures Perform(Perform(d, StartChargingWrites()), StopChargingWrites()) == Device(ForcedMode, StopDefault, d.maxChargePower)
  {
    var s := StartChargingWrites();
    PerformPair(d, s[0], s[1], ForcedMode, ForcedCharge);
    assert StopChargingWrites()[..0] == [];
  }

  /** A reading `float()` accepts, below the threshold: the poll re-arms. */
  predicate Low(r: Reading)
  {
    AsFloat(r).Some? && AsFloat(r).value < Threshold
  }

  /** The poll the monitoring ends at: the first reading that is not low,
      either at the threshold or above, or one that `float()` rejects
      (`get_battery_level` raises, and nothing re-arms the poll). */
  function FirstEnd(readings: seq<Reading>): (k: Option<nat>)
    ensures k.Some? ==> (k.value < |readings| && !Low(readings[k.value])
      && forall i :: 0 <= i < k.value ==> Low(readings[i]))
    ensures k.None? ==> forall i :: 0 <= i < |readings| ==> Low(readings[i])
  {
    if readings == [] then None
    else if !Low(readings[0]) then Some(0)
    else
      var k := FirstEnd(readings[1..]);
      if k.Some? then Some(k.value + 1) else None
  }

  /** Whether the monitoring ends in a failed read rather than a level. */
  predicate EndsUnreadable(readings: seq<Reading>)
  {
    FirstEnd(readings).Some? && AsFloat(readings[FirstEnd(readings).value]).None?
  }

  /** The inverter writes of the polls after a charge the app started: the
      Stop when a poll reads 5% or above; nothing when they end in a failed
      read or are still running. */
  function PollWrites(readings: seq<Reading>): seq<TimedWrite>
  {
    if FirstEnd(readings).Some? && !EndsUnreadable(readings) then StopChargingWrites() else []
  }

  /** After the app's 03:00 charge and the polls that follow it, the battery
      is stopped iff some poll reads 5% or above before any read fails; a
      failed read leaves Forced charge on, since nothing polls again. */
  lemma PollsLeaveCharging(d: Device, readings: seq<Reading>)
    ensures var after := Perform(Perform(d, StartChargingWrites()), PollWrites(readings));
      after.ems == ForcedMode
      && (after.command == StopDefault <==> FirstEnd(readings).Some? && !EndsUnreadable(readings))
      && (after.command == ForcedCharge <==> FirstEnd(readings).None? || EndsUnreadable(readings))
  {
    ChargingChains(d);
    assert Perform(Perform(d, StartChargingWrites()), []) == Perform(d, StartChargingWrites());
  }

  /** The app object: `monitoring` and `charging_started_by_app`, both
      false after `initialize`. */
  class BatteryChargingApp {
    var monitoring: bool
    var chargingStartedByApp: bool

    /** Monitoring only ever follows a charge the app started. */
    predicate Valid()
      reads this
    {
      monitoring ==> chargingStartedByApp
    }

    constructor ()
      ensures !monitoring && !chargingStartedByApp
      ensures Valid()
    {
      monitoring := false;
      chargingStartedByApp := false;
    }

    /** `check_battery_level` with the battery state read: when `float()`
        rejects it the callback raises and changes nothing; below 5% it
        starts charging, sets both flags and arms a poll in 60 s; otherwise
        it changes nothing. */
    method CheckBatteryLevel(battery: Reading) returns (writes: seq<TimedWrite>, pollIn: Option<nat>, raised: bool)
      requires Valid()
      modifies this
      ensures Valid()
      ensures raised <==> AsFloat(battery).None?
      ensures Low(battery) ==> (writes == StartChargingWrites() && pollIn == Some(MonitorInterval)
        && monitoring && chargingStartedByApp)
      ensures !Low(battery) ==> (writes == [] && pollIn == None
        && monitoring == old(monitoring) && chargingStartedByApp == old(chargingStartedByApp))
    {
      raised := AsFloat(battery).None?;
      if Low(battery) {
        writes := StartChargingWrites();
        chargingStartedByApp := true;
        monitoring := true;
        pollIn := Some(MonitorInterval);
      } else {
        writes := [];
        pollIn := None;
      }
    }

    /** `monitor_battery_level` with the battery state read: when `float()`
        rejects it the callback raises, writes nothing and arms no further
        poll; at 5% or above it stops the charge and ends monitoring if the
        app started the charge (and does nothing otherwise); below 5% it arms
        the next poll. The flag `charging_started_by_app` is never cleared. */
    method MonitorBatteryLevel(battery: Reading) returns (writes: seq<TimedWrite>, pollIn: Option<nat>, raised: bool)
      requires Valid()
      modifies this
      ensures Valid()
      ensures chargingStartedByApp == old(chargingStartedByApp)
      ensures raised <==> AsFloat(battery).None?
      ensures raised ==> writes == [] && pollIn == None && monitoring == old(monitoring)
      ensures !raised && !Low(battery) ==> (pollIn == None
        && writes == (if old(chargingStartedByApp) then StopChargingWrites() else [])
        && monitoring == (old(monitoring) && !old(chargingStartedByApp)))
      ensures !raised && !Low(battery) ==> !monitoring
      ensures Low(battery) ==> writes == [] && pollIn == Some(MonitorInterval) && monitoring == old(monitoring)
    {
      raised := AsFloat(battery).None?;
      if raised {
        writes, pollIn := [], None;
      } else if !Low(battery) {
        if chargingStartedByApp {
          writes := StopChargingWrites();
          monitoring := false;
        } else {
          writes := [];
        }
        pollIn := None;
      } else {
        writes := [];
        pollIn := Some(MonitorInterval);
      }
    }

    /** The polls after a charge the app started, each reading the next
        battery state: they go on while the poll is re-armed. A level at 5%
        or above writes the only Stop and ends monitoring; a failed read
        raises and ends the polls with monitoring still on. */
    method Poll(readings: seq<Reading>) returns (polls: nat, writes: seq<TimedWrite>, raised: bool)
      requires Valid() && chargingStartedByApp
      modifies this
      ensures Valid() && chargingStartedByApp
      ensures writes == PollWrites(readings)
      ensures raised <==> EndsUnreadable(readings)
      ensures FirstEnd(readings).Some? ==> polls == FirstEnd(readings).value + 1
      ensures FirstEnd(readings).None? ==> polls == |readings|
      ensures monitoring <==> !(FirstEnd(readings).Some? && !EndsUnreadable(readings)) && old(monitoring)
    {
      polls := 0;
      writes := [];
      raised := false;
      var armed := true;
      while armed && polls < |readings|
        invariant 0 <= polls <= |readings|
        invariant Valid() && chargingStartedByApp
        invariant !armed ==> polls > 0
        invariant forall i :: 0 <= i < polls - (if armed then 0 else 1) ==> Low(readings[i])
        invariant armed ==> writes == [] && monitoring == old(monitoring) && !raised
        invariant !armed ==> !Low(readings[polls - 1])
        invariant !armed ==> (raised <==> AsFloat(readings[polls - 1]).None?)
        invariant !armed && !raised ==> writes == StopChargingWrites() && !monitoring
        invariant !armed && raised ==> writes == [] && monitoring == old(monitoring)
        decreases |readings| - polls, armed
      {
        var w, next, r := MonitorBatteryLevel(readings[polls]);
        writes := writes + w;
        raised := r;
        armed := next.Some?;
        polls := polls + 1;
      }
      FirstEndAt(readings, polls - (if armed then 0 else 1));
    }
  }

  /** The poll the monitoring ends at is found where every earlier reading
      is low. */
  lemma {:induction false} FirstEndAt(readings: seq<Reading>, k: nat)
    requires k <= |readings|
    requires forall i :: 0 <= i < k ==> Low(readings[i])
    ensures k < |readings| && !Low(readings[k]) ==> FirstEnd(readings) == Some(k)
    ensures k == |readings| ==> FirstEnd(readings) == None
  {
    if readings != [] && k > 0 {
      FirstEndAt(readings[1..], k - 1);
    }
  }
}
