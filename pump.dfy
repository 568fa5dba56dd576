/**
 * The pump controller: two flags, `turnedOn` and `turnedOff`, a pump output,
 * and debounced transitions whose side effects are a pump write, a console
 * message and a log event. Before the first transition both flags are false,
 * a third, "unknown" state.
 */
module Pump {

  /** The observable side effects of a transition, in the order they happen. */
  datatype Effect = PumpWrite(level: int) | Message(text: string) | LogEvent(event: string)

  datatype Command = On | Off

  /** The controller's state: the two flags and the level last written to the pump. */
  datatype PumpState = PumpState(turnedOn: bool, turnedOff: bool, pump: int)

  /** The result of one request: the next state and the effects it caused. */
  datatype Transition = Transition(next: PumpState, effects: seq<Effect>)

  /** Both flags clear; the pump was driven low when the hardware was set up. */
  const Initial := PumpState(false, false, 0)

  /** `turnedOn` and `turnedOff` are never both true, and the pump output
      agrees with whichever flag is set. */
  predicate Coherent(s: PumpState) {
    && !(s.turnedOn && s.turnedOff)
    && (s.turnedOn ==> s.pump == 1)
    && (s.turnedOff ==> s.pump == 0)
  }

  predicate ExactlyOneFlag(s: PumpState) {
    s.turnedOn != s.turnedOff
  }

  function Name(c: Command): string {
    match c
    case On => "on"
    case Off => "off"
  }

  function Level(c: Command): int {
    match c
    case On => 1
    case Off => 0
  }

  /** The state a command leaves behind when it takes effect. */
  function Settled(c: Command): PumpState {
    PumpState(c == On, c == Off, Level(c))
  }

  /** The effects of one real transition: write the pump, print, log. */
  function EffectsOf(c: Command): seq<Effect> {
    [PumpWrite(Level(c)), Message(Name(c)), LogEvent(Name(c))]
  }

  /** Does the state already say the command has been carried out? */
  function Done(s: PumpState, c: Command): bool {
    match c
    case On => s.turnedOn
    case Off => s.turnedOff
  }

  /** One debounced request: nothing at all when already done, otherwise one
      full transition. */
  function Step(s: PumpState, c: Command): (t: Transition)
    ensures Coherent(s) ==> Coherent(t.next)
    ensures !Done(s, c) ==> ExactlyOneFlag(t.next)
  {
    if Done(s, c) then Transition(s, []) else Transition(Settled(c), EffectsOf(c))
  }

  /** A sequence of requests, one after another. */
  function Run(s: PumpState, cmds: seq<Command>): Transition
    decreases |cmds|
  {
    if cmds == [] then Transition(s, [])
    else
      var first := Step(s, cmds[0]);
      var rest := Run(first.next, cmds[1..]);
      Transition(rest.next, first.effects + rest.effects)
  }

  // ---------------------------------------------------------------------
  // A reference description of a run: the requests that change something.

  /** The command the state records as last carried out, if any. */
  function LastDone(s: PumpState): (c: seq<Command>)
    ensures |c| <= 1
  {
    if s.turnedOn then [On] else if s.turnedOff then [Off] else []
  }

  /** The requests that are not a repeat of the one before them; the first
      request is compared with `last`, the command already in force. */
  function Changes(last: seq<Command>, cmds: seq<Command>): seq<Command>
    requires |last| <= 1
    decreases |cmds|
  {
    if cmds == [] then []
    else if last == [cmds[0]] then Changes(last, cmds[1..])
    else [cmds[0]] + Changes([cmds[0]], cmds[1..])
  }

  function Flatten(cmds: seq<Command>): seq<Effect> {
    if cmds == [] then [] else EffectsOf(cmds[0]) + Flatten(cmds[1..])
  }

  /** The log events of a stream of effects, in order. */
  function LogEvents(effects: seq<Effect>): seq<string> {
    if effects == [] then []
    else if effects[0].LogEvent? then [effects[0].event] + LogEvents(effects[1..])
    else LogEvents(effects[1..])
  }

  function Names(cmds: seq<Command>): seq<string> {
    if cmds == [] then [] else [Name(cmds[0])] + Names(cmds[1..])
  }

  lemma {:induction false} LogEventsAppend(a: seq<Effect>, b: seq<Effect>)
    ensures LogEvents(a + b) == LogEvents(a) + LogEvents(b)
    decreases |a|
  {
    if a == [] {
      assert a + b == b;
    } else {
      assert (a + b)[1..] == a[1..] + b;
      LogEventsAppend(a[1..], b);
    }
  }

  lemma {:induction false} LogEventsOfFlatten(cmds: seq<Command>)
    ensures LogEvents(Flatten(cmds)) == Names(cmds)
    decreases |cmds|
  {
    if cmds != [] {
      var e := EffectsOf(cmds[0]);
      LogEventsAppend(e, Flatten(cmds[1..]));
      LogEventsOfFlatten(cmds[1..]);
      assert LogEvents(e) == [Name(cmds[0])] by {
        assert e[1..][1..][1..] == [];
      }
    }
  }

  /** Exactly one transition's effects per request that changes the state,
      in request order, and nothing for a repeat; the run ends in the state of
      the last request. */
  lemma {:induction false} RunIsChanges(s: PumpState, cmds: seq<Command>)
    requires Coherent(s)
    ensures Run(s, cmds).effects == Flatten(Changes(LastDone(s), cmds))
    ensures cmds != [] ==> Run(s, cmds).next == Settled(cmds[|cmds| - 1])
    ensures cmds == [] ==> Run(s, cmds).next == s
    decreases |cmds|
  {
    if cmds != [] {
      var c := cmds[0];
      var first := Step(s, c);
      RunIsChanges(first.next, cmds[1..]);
      if Done(s, c) {
        assert LastDone(s) == [c];
        assert s == Settled(c);
      } else {
        assert LastDone(first.next) == [c];
        assert Flatten([c] + Changes([c], cmds[1..])) == EffectsOf(c) + Flatten(Changes([c], cmds[1..])) by {
          assert ([c] + Changes([c], cmds[1..]))[1..] == Changes([c], cmds[1..]);
        }
      }
    }
  }

  /** The log holds one event per real transition, named after it. */
  lemma RunLogsChanges(s: PumpState, cmds: seq<Command>)
    requires Coherent(s)
    ensures LogEvents(Run(s, cmds).effects) == Names(Changes(LastDone(s), cmds))
  {
    RunIsChanges(s, cmds);
    LogEventsOfFlatten(Changes(LastDone(s), cmds));
  }

  /** The flags are never both set, from the initial state on, and after any
      request at least one of them is. */
  lemma {:induction false} RunStaysCoherent(s: PumpState, cmds: seq<Command>)
    requires Coherent(s)
    ensures Coherent(Run(s, cmds).next)
    ensures cmds != [] ==> ExactlyOneFlag(Run(s, cmds).next)
    decreases |cmds|
  {
    if cmds != [] {
      RunStaysCoherent(Step(s, cmds[0]).next, cmds[1..]);
    }
  }

  /** The same request made n >= 1 times in a row has the effect of making it
      once: a single transition when it changes the state, none otherwise. */
  lemma {:induction false} RepeatedRequest(s: PumpState, c: Command, n: nat)
    requires n >= 1
    ensures Run(s, seq(n, _ => c)) == Step(s, c)
    decreases n
  {
    var cmds := seq(n, _ => c);
    if n > 1 {
      assert cmds[1..] == seq(n - 1, _ => c);
      RepeatedRequest(Step(s, c).next, c, n - 1);
    } else {
      assert cmds[1..] == [];
    }
  }

  /** From the unknown initial state the first request of either kind takes
      effect. */
  lemma FirstRequestTakesEffect(c: Command)
    ensures Step(Initial, c) == Transition(Settled(c), EffectsOf(c))
    ensures LogEvents(Step(Initial, c).effects) == [Name(c)]
  {
    LogEventsOfFlatten([c]);
    assert Flatten([c]) == EffectsOf(c);
  }

  // ---------------------------------------------------------------------
  // The device object

  class Devices {
    var turnedOn: bool
    var turnedOff: bool
    /** The level last written to the pump's output pin. */
    var pump: int
    /** Every side effect so far, in order. */
    ghost var effects: seq<Effect>

    function State(): PumpState
      reads this
    {
      PumpState(turnedOn, turnedOff, pump)
    }

    ghost predicate Valid()
      reads this
    {
      Coherent(State())
    }

    constructor ()
      ensures Valid()
      ensures State() == Initial && effects == []
    {
      turnedOn := false;
      turnedOff := false;
      pump := 0;
      effects := [];
    }

    /** Is the water supposed to be turned on? */
    function TurnedOn(): (r: bool)
      reads this
      ensures Valid() && r ==> !turnedOff && pump == 1
    {
      turnedOn
    }

    /** Is the water supposed to be turned off? */
    function TurnedOff(): (r: bool)
      reads this
      ensures Valid() && r ==> !turnedOn && pump == 0
    {
      turnedOff
    }

    method WritePump(level: int)
      modifies this
      ensures pump == level && effects == old(effects) + [PumpWrite(level)]
      ensures turnedOn == old(turnedOn) && turnedOff == old(turnedOff)
    {
      pump := level;
      effects := effects + [PumpWrite(level)];
    }

    /** Console message. */
    method Say(msg: string)
      modifies this
      ensures State() == old(State()) && effects == old(effects) + [Message(msg)]
    {
      effects := effects + [Message(msg)];
    }

    /** Event for the remote log. */
    method Log(event: string)
      modifies this
      ensures State() == old(State()) && effects == old(effects) + [LogEvent(event)]
    {
      effects := effects + [LogEvent(event)];
    }

    /** Turns the water on unless it already is. */
    method TurnOn()
      modifies this
      ensures old(Valid()) ==> Valid()
      ensures State() == Step(old(State()), On).next
      ensures effects == old(effects) + Step(old(State()), On).effects
    {
      if turnedOn {
        return;
      }
      WritePump(1);
      turnedOn := true;
      turnedOff := false;
      Say("on");
      Log("on");
    }

    /** Turns the water off unless it already is. */
    method TurnOff()
      modifies this
      ensures old(Valid()) ==> Valid()
      ensures State() == Step(old(State()), Off).next
      ensures effects == old(effects) + Step(old(State()), Off).effects
    {
      if turnedOff {
        return;
      }
      WritePump(0);
      turnedOn := false;
      turnedOff := true;
      Say("off");
      Log("off");
    }
  }
}
