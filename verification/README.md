# Pin-state engine of a one-button, one-LED Arduino simulator

This project models the core of a browser simulator. In the simulated circuit, a push button is wired to one digital pin of an Arduino Uno and an LED to another. The firmware is fixed: the LED mirrors the button.

The model covers three parts:

- **The circuit store.** It is one mutable object, modelled as the class `Store.CircuitStore`. It holds:
  - three placement flags (board, LED, button);
  - the LED and button pin assignment (defaults 10 and 2);
  - the run flag;
  - a pin table that is total over pins 2..13, each pin `High` or `Low`;
  - the cosmetic `showCode` flag.

  Its actions are `PlaceComponent`, `ResetCanvas`, `SetPin`, `ToggleSimulation`, `ToggleCodeView` and `SetPinLevel`. Each method is proved to leave exactly the state that the pure function of the same name in module `StoreSpec` gives. The lemmas about those functions state what the actions promise.
- **The firmware tick.** This is module `SimulationLoop`. While the simulation runs, every timer firing reads the button pin's level and copies it to the LED pin. It writes only when the LED level differs. Pins and levels are read from the store at each tick.
- **Button interaction.** This is module `Interaction`. A press drives the button pin HIGH and a release drives it LOW. Both happen only while the button is placed, because the listeners exist only then.

Module `Circuit` holds the data model: the subset type `PinId` (2..13), `Level`, the total `PinTable` and the `CircuitState` record.

Module `Session` runs any sequence of these events from the initial state. It proves the global invariants for every reachable state:

- the two roles never share a pin;
- the simulation runs only when all three components are placed;
- stopping drives every pin LOW.

Design choices, following the code:

- The run gate is placement only. The `isWired` field is declared in the state type, but the store never initialises it and never defines `toggleWiring`. The model therefore has no wiring gate.
- `resetCanvas` keeps `ledPin`, `btnPin` and `showCode`. A full return to the initial state would reset those too; the code does not.
- The pin collision policy is rejection: an assignment to the other role's pin leaves the state unchanged.
- The store does not refuse a pin reassignment while running. The model allows it too, and `SimulationLoop.TickFollowsReassignment` shows that the next tick uses the new pin.

## Model

| member | source | states |
|---|---|---|
| Circuit.PinCount | types/circuit.ts:1 | the valid pin identifiers are exactly 2..13, twelve values |
| Circuit.AllLow | store/useCircuitStore.ts:13-17 | the initial pin table has an entry for every pin 2..13, and each entry is LOW |
| Circuit.AllPlaced | store/useCircuitStore.ts:55 | the run gate (all three flags set) holds exactly when every component is placed |
| StoreSpec.Initial | store/useCircuitStore.ts:19-32 | the initial state places nothing, reads LOW on every pin, keeps the LED and button on different pins and is not running |
| StoreSpec.PlaceComponent | store/useCircuitStore.ts:34-38 | the flag of the given component becomes true, the other two flags keep their values, nothing else changes, and the invariant is kept |
| StoreSpec.PlaceIdempotent | store/useCircuitStore.ts:34-38 | placing a component twice gives the same state as placing it once |
| StoreSpec.PlaceCommutes | store/useCircuitStore.ts:34-38 | the placement order does not matter |
| StoreSpec.ResetCanvas | store/useCircuitStore.ts:40-43 | after a reset nothing is placed, the run is stopped and every pin is LOW; the pin assignment and showCode are kept |
| StoreSpec.ResetBlocksStart | store/useCircuitStore.ts:40-58 | right after a reset, toggling the simulation changes nothing |
| StoreSpec.SetPin | store/useCircuitStore.ts:45-52 | an assignment to the other role's current pin is rejected with no change; otherwise only the chosen role's pin changes; the two roles never end up sharing a pin |
| StoreSpec.SamePinTwiceNeverShared | store/useCircuitStore.ts:45-51 | assigning one pin to the LED and then to the button never makes the roles share it |
| StoreSpec.ToggleSimulation | store/useCircuitStore.ts:54-58 | a toggle is a no-op unless all three components are placed; otherwise it flips the run flag; a stop drives every pin LOW; a start keeps the pin levels; nothing else changes |
| StoreSpec.StopClearsPins | store/useCircuitStore.ts:56 | in a valid running state a toggle always stops the run and leaves every pin LOW |
| StoreSpec.StartThenStop | store/useCircuitStore.ts:54-58 | a start followed by a stop leaves the run stopped and every pin LOW, with the placement, the pins and showCode as before |
| StoreSpec.ToggleCodeView | store/useCircuitStore.ts:60 | showCode flips and nothing else changes |
| StoreSpec.ToggleCodeViewTwice | store/useCircuitStore.ts:60 | two code-view toggles restore the state |
| StoreSpec.SetPinLevel | store/useCircuitStore.ts:62-64 | the chosen pin takes the level, every other pin and every other field is unchanged |
| StoreSpec.SetPinLevelIdempotent | store/useCircuitStore.ts:62-64 | writing a level twice equals writing it once, and writing the level a pin already has changes nothing |
| Store.CircuitStore.constructor | store/useCircuitStore.ts:19-32 | the new store holds the initial state and satisfies the invariant |
| Store.CircuitStore.PlaceComponent | store/useCircuitStore.ts:34-38 | updates the fields exactly as StoreSpec.PlaceComponent and keeps the invariant |
| Store.CircuitStore.ResetCanvas | store/useCircuitStore.ts:40-43 | updates the fields exactly as StoreSpec.ResetCanvas and keeps the invariant |
| Store.CircuitStore.SetPin | store/useCircuitStore.ts:45-52 | the guard-and-return assignment updates the fields exactly as StoreSpec.SetPin and keeps the invariant |
| Store.CircuitStore.ToggleSimulation | store/useCircuitStore.ts:54-58 | updates the fields exactly as StoreSpec.ToggleSimulation and keeps the invariant |
| Store.CircuitStore.ToggleCodeView | store/useCircuitStore.ts:60 | updates the fields exactly as StoreSpec.ToggleCodeView |
| Store.CircuitStore.SetPinLevel | store/useCircuitStore.ts:62-64 | updates the pin table exactly as StoreSpec.SetPinLevel |
| SimulationLoop.TargetLevel | hooks/useSimulationLoop.ts:23 | the firmware logic: the target LED level equals the button level (HIGH to HIGH, LOW to LOW) |
| SimulationLoop.Step | hooks/useSimulationLoop.ts:16-28 | after a tick the LED pin reads the button pin's level; no other pin changes, including the button pin; no write happens when the LED already has the target level; the invariant is kept |
| SimulationLoop.Fire | hooks/useSimulationLoop.ts:12-31 | a timer firing changes nothing while stopped; while running it makes the LED pin mirror the button pin and writes no other pin |
| SimulationLoop.StepIdempotent | hooks/useSimulationLoop.ts:19-28 | two consecutive ticks give the same state as one |
| SimulationLoop.FireIdempotent | hooks/useSimulationLoop.ts:12-28 | two consecutive timer firings give the same state as one |
| SimulationLoop.FiresSettle | hooks/useSimulationLoop.ts:15-29 | any positive number of firings with no input in between gives the state of one firing |
| SimulationLoop.StoppedFiresNothing | hooks/useSimulationLoop.ts:13 | while stopped, any number of firings leaves the state unchanged |
| SimulationLoop.TickFollowsReassignment | hooks/useSimulationLoop.ts:8-16 | after the LED is moved to a new pin while running, the next tick drives the new pin with the button's level |
| SimulationLoop.Tick | hooks/useSimulationLoop.ts:16-28 | the tick body, run on the store, leaves the state Step gives; it reports a write exactly when the LED level differed from the button level |
| SimulationLoop.OnInterval | hooks/useSimulationLoop.ts:12-31 | a timer firing on the store leaves the state Fire gives |
| Interaction.Pressed | components/Canvas.tsx:65-69 | with the button placed, a press drives the button pin HIGH; without it nothing changes; no other pin and no other field changes |
| Interaction.Released | components/Canvas.tsx:65-70 | with the button placed, a release drives the button pin LOW; without it nothing changes; no other pin and no other field changes |
| Interaction.ReleaseIdempotent | components/Canvas.tsx:70 | releasing twice, or without a press, equals releasing once |
| Interaction.PressLightsLed | components/Canvas.tsx:69 | while running, a press followed by one timer firing makes the LED pin read HIGH |
| Interaction.ReleaseDarkensLed | components/Canvas.tsx:70 | while running, a release followed by one timer firing makes the LED pin read LOW |
| Interaction.Press | components/Canvas.tsx:65-69 | the press handler on the store leaves the state Pressed gives |
| Interaction.Release | components/Canvas.tsx:65-70 | the release handler on the store leaves the state Released gives |
| Session.ApplyKeepsValid | store/useCircuitStore.ts:34-64 | every action, gesture and timer firing keeps the invariant: the roles never share a pin, and the run implies full placement |
| Session.RunKeepsValid | store/useCircuitStore.ts:19-64 | every sequence of events keeps the invariant |
| Session.Reachable | store/useCircuitStore.ts:25-57 | in every reachable state, the LED and the button are on different pins, a running simulation has all three components placed, and a stop leaves every pin LOW |
| Session.DefaultScenario | hooks/useSimulationLoop.ts:19-27 | with the default pins 10 and 2: after placing and starting, a press and one tick make pin 10 HIGH, a release and one tick make it LOW, and a stop leaves pins 2 and 10 LOW |

## Left out

- The interval timer's mechanics (`setInterval`, `clearInterval`, the 50 ms cadence) are not modelled. A timer firing is the event `Timer` and the function `SimulationLoop.Fire`, which ticks only while running. That it fires at 20 Hz, and that clearing it is synchronous, is not modelled.
- The tick reads the pins through a ref that an effect refreshes after each render. The model reads the store directly, so it assumes the refresh has happened before the next firing.
- The React, zustand and DOM plumbing is not modelled: hooks, refs, `create`/`set`/`get`, and listener registration for mouse and touch events. The store is a class with fields, and a gesture is a call.
- The wiring gate (`isWired`, `toggleWiring`) is left out. The page calls `toggleWiring`, but the store does not define it, so the model has no behaviour to give it.
- Rendering is left out: the LED widget's attribute sync, the wire geometry (`getPinCoordinates`), the palette, the drag and drop, and the page's pin selectors. The selectors only hide options that the store's own check already refuses.
- The generated code listing is left out. Its generator is not part of this model, and `showCode` is modelled only as a flag.
- A pin identifier outside 2..13 cannot be expressed. `PinId` is a subset type, matching the source's closed union type, so there is no invalid-argument path.
