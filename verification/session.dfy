/**
 * A session: the single event loop that interleaves the store's actions,
 * button gestures and timer firings, one at a time, starting from the
 * store's initial state. The invariants of every reachable state are proved
 * here for any sequence of events.
 */
module Session {
  import opened Circuit
  import StoreSpec
  import SimulationLoop
  import Interaction

  /** Everything that can happen to the store, one event at a time. */
  datatype Event =
    | Place(kind: Component)
    | Reset
    | Assign(role: Role, pin: PinId)
    | ToggleRun
    | ToggleCode
    | WriteLevel(pin: PinId, level: Level)
    | Press
    | Release
    | Timer

  /** The state after one event. */
  function Apply(s: CircuitState, e: Event): CircuitState {
    match e
    case Place(kind) => StoreSpec.PlaceComponent(s, kind)
    case Reset => StoreSpec.ResetCanvas(s)
    case Assign(role, pin) => StoreSpec.SetPin(s, role, pin)
    case ToggleRun => StoreSpec.ToggleSimulation(s)
    case ToggleCode => StoreSpec.ToggleCodeView(s)
    case WriteLevel(pin, level) => StoreSpec.SetPinLevel(s, pin, level)
    case Press => Interaction.Pressed(s)
    case Release => Interaction.Released(s)
    case Timer => SimulationLoop.Fire(s)
  }

  /** The state after the events of `es`, in order. */
  function Run(s: CircuitState, es: seq<Event>): CircuitState
    decreases |es|
  {
    if es == [] then s else Run(Apply(s, es[0]), es[1..])
  }

  /** Every event keeps the invariant. */
  lemma ApplyKeepsValid(s: CircuitState, e: Event)
    requires Valid(s)
    ensures Valid(Apply(s, e))
  {
  }

  /** Every sequence of events keeps the invariant. */
  lemma {:induction false} RunKeepsValid(s: CircuitState, es: seq<Event>)
    requires Valid(s)
    ensures Valid(Run(s, es))
    decreases |es|
  {
    if es != [] {
      ApplyKeepsValid(s, es[0]);
      RunKeepsValid(Apply(s, es[0]), es[1..]);
    }
  }

  /**
   * In every state a session can reach, the LED and the button are on
   * different pins, the simulation runs only with all three components
   * placed, and a stop leaves every pin LOW.
   */
  lemma Reachable(es: seq<Event>)
    ensures var s := Run(StoreSpec.Initial(), es);
      s.ledPin != s.btnPin &&
      (s.isRunning ==> AllPlaced(s)) &&
      (s.isRunning ==> IsAllLow(Apply(s, ToggleRun).pinLevels))
  {
    RunKeepsValid(StoreSpec.Initial(), es);
  }

  /**
   * With the default pins (LED on 10, button on 2): place all three
   * components and start; a press shows HIGH on pin 10 after one timer
   * firing, a release shows LOW after the next, and a stop leaves pins 2
   * and 10 LOW.
   */
  lemma DefaultScenario()
    ensures var started := Run(StoreSpec.Initial(), [Place(Arduino), Place(Led), Place(Pushbutton), ToggleRun]);
      started.isRunning &&
      Run(started, [Press, Timer]).pinLevels[10] == High &&
      Run(started, [Press, Timer, Release, Timer]).pinLevels[10] == Low &&
      Run(started, [Press, Timer, ToggleRun]).pinLevels[2] == Low &&
      Run(started, [Press, Timer, ToggleRun]).pinLevels[10] == Low
  {
  }
}
