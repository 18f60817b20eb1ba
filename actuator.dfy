/** The inverter controls the scripts write (two selects and one number),
    the delayed writes of a callback, and the hour triggers the schedulers
    register. */
module Actuator {

  /** `input_select.set_sg_ems_mode`: "Forced mode" or "Self-consumption mode (default)". */
  datatype EmsMode = ForcedMode | SelfConsumption

  /** `input_select.set_sg_battery_forced_charge_discharge_cmd`:
      "Stop (default)", "Forced charge" or "Forced discharge". */
  datatype Command = StopDefault | ForcedCharge | ForcedDischarge

  /** One `call_service` on the inverter controls. */
  datatype Write = Ems(mode: EmsMode) | Cmd(command: Command) | MaxChargePower(watts: nat)

  /** A write issued `at` seconds after the callback that starts the chain
      (the delays of `run_in`; 0 for an immediate call). */
  datatype TimedWrite = TimedWrite(at: nat, write: Write)

  /** What the inverter controls hold. */
  datatype Device = Device(ems: EmsMode, command: Command, maxChargePower: nat)

  function Apply(d: Device, w: Write): Device
  {
    match w
    case Ems(m) => d.(ems := m)
    case Cmd(c) => d.(command := c)
    case MaxChargePower(p) => d.(maxChargePower := p)
  }

  /** The controls after a chain of writes, performed in list order. */
  function Perform(d: Device, ws: seq<TimedWrite>): Device
  {
    if ws == [] then d else Apply(Perform(d, ws[..|ws| - 1]), ws[|ws| - 1].write)
  }

  /** The writes of a chain issued within the first `t` seconds, in list order. */
  function IssuedBy(ws: seq<TimedWrite>, t: nat): (r: seq<TimedWrite>)
    ensures |r| <= |ws|
    ensures forall w :: w in r <==> w in ws && w.at <= t
  {
    if ws == [] then []
    else if ws[|ws| - 1].at <= t then IssuedBy(ws[..|ws| - 1], t) + [ws[|ws| - 1]]
    else IssuedBy(ws[..|ws| - 1], t)
  }

  /** What the controls hold `t` seconds into a chain. */
  function StateAt(d: Device, ws: seq<TimedWrite>, t: nat): Device
  {
    Perform(d, IssuedBy(ws, t))
  }

  /** The list order is the order in time. */
  predicate Chronological(ws: seq<TimedWrite>)
  {
    forall i :: 0 <= i < |ws| - 1 ==> ws[i].at <= ws[i + 1].at
  }

  /** `run_at` targets: the date of the trigger, taken relative to the
      callback that schedules it. */
  datatype Day = Today | Tomorrow

  /** Begin runs the script's `start_...` callback, End its `stop_...` callback. */
  datatype Action = Begin | End

  datatype Trigger = Trigger(day: Day, hour: nat, action: Action)

  /** A two-write chain in time order: before the first write the controls
      are untouched, between the two they hold the first write only, and
      from the second on they hold the whole chain. */
  lemma StateAtPair(d: Device, a: TimedWrite, b: TimedWrite, t: nat)
    requires a.at <= b.at
    ensures t < a.at ==> StateAt(d, [a, b], t) == d
    ensures a.at <= t < b.at ==> StateAt(d, [a, b], t) == Apply(d, a.write)
    ensures b.at <= t ==> StateAt(d, [a, b], t) == Perform(d, [a, b])
  {
    assert [a, b][..1] == [a];
    assert [a][..0] == [];
    if t < a.at {
      assert IssuedBy([a], t) == [];
      assert IssuedBy([a, b], t) == [];
    } else if t < b.at {
      assert IssuedBy([a], t) == [a];
      assert IssuedBy([a, b], t) == [a];
      assert Perform(d, [a]) == Apply(d, a.write);
    } else {
      assert IssuedBy([a], t) == [a];
      assert IssuedBy([a, b], t) == [a] + [b];
    }
  }

  /** The two-write chains: one write of each select, in either order. */
  lemma PerformPair(d: Device, a: TimedWrite, b: TimedWrite, m: EmsMode, c: Command)
    requires (a.write == Ems(m) && b.write == Cmd(c)) || (a.write == Cmd(c) && b.write == Ems(m))
    ensures Perform(d, [a, b]) == Device(m, c, d.maxChargePower)
  {
    assert [a, b][..1] == [a];
    assert [a][..0] == [];
    assert Perform(d, [a]) == Apply(d, a.write);
    assert Perform(d, [a, b]) == Apply(Apply(d, a.write), b.write);
  }
}
