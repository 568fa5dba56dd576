/**
 * What one pass of each polling loop decides, without the loop and its sleep:
 * the scheduler's top-of-the-hour action and the flow monitor's alert test.
 */
module Runners {
  import opened Schedule
  import opened Pump

  /** What a scheduler pass asks of the device. */
  datatype Action = Idle | Request(cmd: Command)

  /** A slot's own request: `on` wins over `off`; neither means nothing. */
  function SlotAction(slot: Slot): Action {
    if slot.on then Request(On) else if slot.off then Request(Off) else Idle
  }

  /** One scheduler pass at local time `now`. */
  function Decide(slots: seq<Slot>, now: LocalTime): (a: Action)
    requires |slots| == Hours && now.Valid()
    ensures a != Idle ==> now.minute == 0 && 1 <= now.second <= 4
    ensures a == Request(On) <==> ItIsHour(now) && slots[now.hour].on
    ensures a == Request(Off) <==> ItIsHour(now) && !slots[now.hour].on && slots[now.hour].off
  {
    if ItIsHour(now) then SlotAction(slots[now.hour]) else Idle
  }

  function Perform(s: PumpState, a: Action): Transition {
    match a
    case Idle => Transition(s, [])
    case Request(c) => Step(s, c)
  }

  /** The body of the scheduler loop: the current hour's slot, inside the
      window, turns the water on, or else off. */
  method Tick(devices: Devices, schedule: WateringSchedule, now: LocalTime)
    requires schedule.Valid() && now.Valid()
    modifies devices
    ensures old(devices.Valid()) ==> devices.Valid()
    ensures devices.State() == Perform(old(devices.State()), Decide(schedule.slots[..], now)).next
    ensures devices.effects == old(devices.effects) + Perform(old(devices.State()), Decide(schedule.slots[..], now)).effects
  {
    if ItIsHour(now) {
      if schedule.IsOnTime(now) {
        devices.TurnOn();
      } else if schedule.IsOffTime(now) {
        devices.TurnOff();
      }
    }
  }

  predicate AllValid(clocks: seq<LocalTime>) {
    forall i :: 0 <= i < |clocks| ==> clocks[i].Valid()
  }

  /** Scheduler passes at the given times, one after another. */
  function RunTicks(slots: seq<Slot>, s: PumpState, clocks: seq<LocalTime>): Transition
    requires |slots| == Hours && AllValid(clocks)
    decreases |clocks|
  {
    if clocks == [] then Transition(s, [])
    else
      var first := Perform(s, Decide(slots, clocks[0]));
      var rest := RunTicks(slots, first.next, clocks[1..]);
      Transition(rest.next, first.effects + rest.effects)
  }

  predicate AnyInWindow(clocks: seq<LocalTime>)
    requires AllValid(clocks)
  {
    exists i :: 0 <= i < |clocks| && ItIsHour(clocks[i])
  }

  /** However often the scheduler polls inside one hour's window, the device
      sees at most one transition: the one the hour's slot asks for, carried
      out once, or nothing when no pass fell inside the window. */
  lemma {:induction false} OneTransitionPerHour(slots: seq<Slot>, s: PumpState, clocks: seq<LocalTime>, hour: nat)
    requires |slots| == Hours && hour < Hours && AllValid(clocks)
    requires forall i :: 0 <= i < |clocks| && ItIsHour(clocks[i]) ==> clocks[i].hour == hour
    ensures RunTicks(slots, s, clocks) ==
      if AnyInWindow(clocks) then Perform(s, SlotAction(slots[hour])) else Transition(s, [])
    decreases |clocks|
  {
    if clocks != [] {
      var rest := clocks[1..];
      assert AllValid(rest);
      assert forall i :: 0 <= i < |rest| && ItIsHour(rest[i]) ==> rest[i].hour == hour by {
        forall i | 0 <= i < |rest| && ItIsHour(rest[i]) ensures rest[i].hour == hour {
          assert rest[i] == clocks[i + 1];
        }
      }
      var first := Perform(s, Decide(slots, clocks[0]));
      OneTransitionPerHour(slots, first.next, rest, hour);
      assert AnyInWindow(clocks) <==> ItIsHour(clocks[0]) || AnyInWindow(rest) by {
        if AnyInWindow(rest) {
          var i :| 0 <= i < |rest| && ItIsHour(rest[i]);
          assert ItIsHour(clocks[i + 1]);
        }
        if AnyInWindow(clocks) && !ItIsHour(clocks[0]) {
          var i :| 0 <= i < |clocks| && ItIsHour(clocks[i]);
          assert rest[i - 1] == clocks[i];
        }
      }
    }
  }

  // ---------------------------------------------------------------------
  // Flow monitoring

  /** The alert test: the water should be on but nothing flows, or it should
      be off but something flows. */
  function Anomaly(s: PumpState, flowRate: int): (alert: bool)
    ensures !s.turnedOn && !s.turnedOff ==> !alert
    ensures ExactlyOneFlag(s) ==> (alert <==> s.turnedOn != (flowRate > 0))
  {
    (s.turnedOn && flowRate < 1) || (s.turnedOff && flowRate > 0)
  }

  /** One pass of the flow monitor: reads the device, changes nothing. */
  method CheckFlow(devices: Devices, flowRate: int) returns (alert: bool)
    ensures alert == Anomaly(devices.State(), flowRate)
  {
    alert := (devices.TurnedOn() && flowRate < 1) || (devices.TurnedOff() && flowRate > 0);
  }

  /** Before any transition the monitor never alerts; after any sequence of
      at least one request it alerts exactly when the measured flow disagrees
      with the last request. */
  lemma AnomalyAfterRequests(cmds: seq<Command>, flowRate: int)
    ensures cmds == [] ==> !Anomaly(Run(Initial, cmds).next, flowRate)
    ensures cmds != [] ==>
      (Anomaly(Run(Initial, cmds).next, flowRate) <==> (cmds[|cmds| - 1] == On) != (flowRate > 0))
  {
    RunIsChanges(Initial, cmds);
  }
}
